# Smart-contract builder front end: stage trackers, audit statistics, wallet strings

This project models the pieces of logic in the front end of a web application that generates, compiles and audits Starknet smart contracts from a natural-language request. There are three such pieces.

- **Stage trackers.** The four reducers track the code-generation, compilation, audit and predefined-prompts requests. Each is the same state machine over a record of three flags (`isLoading`, `isError`, `isSuccess`) and a nullable payload. The actions are `start`, `success`, `error` and `reset`, plus a fall-through for anything else. The machine is modelled once, as `Stage.Reduce` over `StageState<T>`, and instantiated for the four payload types: code string, artifact string, list of findings, and list of prompts. `Stage.ReducerSpec` states what a reducer promises in terms of four phases: idle, loading, succeeded and failed.
- **Audit statistics.** `AuditSection` has two parts.
  - The three per-severity counts: a truthiness filter followed by a counting reduce.
  - `calculateAuditScore`: a loop that tallies occurrences per severity in a table, then a reduce to `totalScore`, a reduce of the table's values to `maxScore`, and the ratio. The loop is a `for` loop over a `map` with invariants. The method is proved equal to a closed form, `AuditScoreOf`. In words, the closed form is: the weights of the distinct severities present (Low 3, Medium 2, High 1) over three points per finding, as a percentage.
  - It also covers the colour band of the score bar.
- **Wallet strings.** `WalletDetails` covers the block-explorer link, the shortened address and the network labels of the wallet menu. JavaScript's `String.prototype.slice` index rules are written out on sequences.

Three behaviours of the code are easy to misread; the model follows the code:

- A `success` stores its payload verbatim, null included, and the audit and prompt trackers start idle with an empty list. So "payload present iff success" is not an invariant. `Stage.SuccessMayStoreNull` and `AuditContract.InitialStateIdleWithPayload` exhibit both cases.
- `reset` clears all three flags. So the property proved is "at most one flag", not "exactly one".
- The score of an empty finding list is `0 / 0`, which is `NaN` in the code, not 0. See "## Findings".

The payload of `null` is `Nullable.Option.None`. The enumeration of action states is not part of this model. `Stage.ReducerState.Unrecognised` stands for any value none of the four cases matches.

## Model

| member | source | states |
|---|---|---|
| Stage.Reduce | front-end/src/reducers/generate-contract.ts:17-55 | the result meets ReducerSpec: start, success, error and reset put the record in the loading, succeeded, failed and idle phase respectively; success keeps the payload verbatim (null too); the others null it; an unrecognised state returns the input record |
| Stage.ReducerSpecIsComplete | front-end/src/reducers/compile-contract.ts:17-55 | the reducer specification determines the result uniquely, for every state and action |
| Stage.Cleared | front-end/src/reducers/generate-contract.ts:43-50 | the cleared record is idle: all flags false, payload null |
| Stage.AtMostOneFlagIffOnePhase | front-end/src/reducers/generate-contract.ts:19-50 | a record has at most one flag set exactly when it is in some phase, and it is then in only one phase |
| Stage.RecognisedActionLeavesAtMostOneFlag | front-end/src/reducers/audit-contract.ts:21-52 | after start, success, error or reset at most one flag is true, whatever the prior state |
| Stage.ReducePreservesAtMostOneFlag | front-end/src/reducers/predefined-prompts.ts:23-59 | a record with at most one flag keeps that property under every action, the fall-through included |
| Stage.RecognisedActionIgnoresPriorState | front-end/src/reducers/compile-contract.ts:19-50 | a recognised action gives the same record from any two prior states |
| Stage.ReduceIsIdempotent | front-end/src/reducers/generate-contract.ts:43-50 | dispatching any action twice equals dispatching it once (reset twice equals reset once) |
| Stage.ResetClears | front-end/src/reducers/predefined-prompts.ts:48-55 | reset yields all flags false and payload null, independent of prior state and payload |
| Stage.SuccessMayStoreNull | front-end/src/reducers/audit-contract.ts:29-36 | success with a null payload gives a record in the succeeded phase holding null |
| Stage.UnrecognisedIsIdentity | front-end/src/reducers/compile-contract.ts:51-53 | an unrecognised action state returns the input record unchanged |
| GenerateContract.GenerateContractInitialState | front-end/src/reducers/generate-contract.ts:3-8 | the initial record is idle with contractCode null |
| GenerateContract.GenerateContractReducer | front-end/src/reducers/generate-contract.ts:17-55 | the generation reducer meets the reducer specification over a string payload |
| GenerateContract.ResetRestoresInitialState | front-end/src/reducers/generate-contract.ts:43-50 | reset yields the initial record from any state, and resetting again changes nothing |
| CompileContract.CompileContractInitialState | front-end/src/reducers/compile-contract.ts:3-8 | the initial record is idle with artifact null |
| CompileContract.CompileContractReducer | front-end/src/reducers/compile-contract.ts:17-55 | the compilation reducer meets the reducer specification over a string payload |
| CompileContract.ResetRestoresInitialState | front-end/src/reducers/compile-contract.ts:43-50 | reset yields exactly the initial record, whatever the prior state |
| AuditContract.AuditContractInitialState | front-end/src/reducers/audit-contract.ts:5-10 | the initial record is idle and holds the empty list, not null |
| AuditContract.AuditContractReducer | front-end/src/reducers/audit-contract.ts:19-57 | the audit reducer meets the reducer specification; a success stores the payload list unchanged |
| AuditContract.ResetDiffersFromInitialState | front-end/src/reducers/audit-contract.ts:45-52 | reset yields an idle record with a null list, which is not the initial record |
| AuditContract.InitialStateIdleWithPayload | front-end/src/reducers/audit-contract.ts:5-10 | the initial record is idle yet holds a payload |
| PredefinedPrompts.PredefinedPromptsInitialState | front-end/src/reducers/predefined-prompts.ts:5-10 | the initial record is idle and holds the empty list of prompts |
| PredefinedPrompts.PredefinedPromptsReducer | front-end/src/reducers/predefined-prompts.ts:19-60 | the prompts reducer meets the reducer specification over a list of prompts |
| PredefinedPrompts.ResetDiffersFromInitialState | front-end/src/reducers/predefined-prompts.ts:48-55 | reset yields an idle record with a null list from any state, unlike the initial empty list |
| Types.SeverityName | back-end/src/types.ts:19 | every severity's run-time value is a non-empty string |
| Types.SeverityNameInjective | back-end/src/types.ts:19 | two severities have the same name exactly when they are equal |
| AuditSection.KeepWithSeverity | front-end/src/components/sections/audit.tsx:23-24 | the truthiness filter on the severity keeps every finding, in order |
| AuditSection.Tally | front-end/src/components/sections/audit.tsx:25-27 | the counting reduce from an initial value adds exactly the number of findings with the given severity |
| AuditSection.SeverityCount | front-end/src/components/sections/audit.tsx:23-38 | each of the low, medium and high counts is exactly the number of findings with that severity; it is at most the list's length and positive exactly when the severity occurs |
| AuditSection.CountBounds | front-end/src/components/sections/audit.tsx:23-38 | a severity's count is at most the list's length, and positive iff some finding has that severity |
| AuditSection.CountsSumToLength | front-end/src/components/sections/audit.tsx:23-38 | the three counts add up to the number of findings |
| AuditSection.CountSnoc | front-end/src/components/sections/audit.tsx:145-149 | one more finding at the end adds one to its own tier's count and nothing to the others |
| AuditSection.Weight | front-end/src/components/sections/audit.tsx:133-137 | every tier weighs between 1 and 3, and only Low weighs the maximum 3 |
| AuditSection.TotalScore | front-end/src/components/sections/audit.tsx:151-155 | the totalScore reduce, defined only when every finding's tier has a divisor of at least 1, returns its initial value for no findings and strictly more otherwise |
| AuditSection.OccurrenceValues | front-end/src/components/sections/audit.tsx:157 | the table's values are three numbers, the count of each tier at its insertion position (Low, Medium, High) |
| AuditSection.SumTimesThree | front-end/src/components/sections/audit.tsx:157-160 | the maxScore reduce adds three times the sum of the values to its initial value |
| AuditSection.CalculateAuditScore | front-end/src/components/sections/audit.tsx:132-163 | the tally loop, the two reduces and the division give exactly the closed-form score: NaN for no findings, otherwise 100 times the weights of the distinct tiers present over three per finding |
| AuditSection.AuditScoreOf | front-end/src/components/sections/audit.tsx:162 | the score is NaN exactly for the empty list, and otherwise lies in (0, 100] |
| AuditSection.ShareStep | front-end/src/components/sections/audit.tsx:151-155 | a finding at the head adds its weight over its tier's occurrences to its own tier's share and nothing to the others |
| AuditSection.TotalScoreIsSumOfShares | front-end/src/components/sections/audit.tsx:151-155 | the totalScore reduce equals the initial value plus, per tier, its count times its weight over its occurrences |
| AuditSection.ShareOfTrueCount | front-end/src/components/sections/audit.tsx:145-155 | with the true occurrences a tier contributes its weight if present and nothing otherwise |
| AuditSection.TotalScoreIsDistinctWeight | front-end/src/components/sections/audit.tsx:133-155 | with the true occurrences every divisor is at least 1, and totalScore is the sum of the weights of the distinct tiers present |
| AuditSection.MaxScoreIsThreePerFinding | front-end/src/components/sections/audit.tsx:157-160 | with the true occurrences maxScore is three times the number of findings |
| AuditSection.DistinctWeightBounds | front-end/src/components/sections/audit.tsx:133-160 | for a non-empty list the distinct-tier weight is at least 1 and at most three per finding |
| AuditSection.TwoLowOneHighExample | front-end/src/components/sections/audit.tsx:132-163 | two Low findings and one High finding score 400/9 (about 44.44) |
| AuditSection.Bands | front-end/src/components/sections/audit.tsx:67-71 | red applies iff the score is a number below 35, yellow iff from 35 below 65, green iff 65 or more; NaN gets no band, and only NaN gets none |
| AuditSection.ExactlyOneBand | front-end/src/components/sections/audit.tsx:67-71 | a numeric score gets exactly one colour: red below 35, yellow from 35 below 65, green from 65 |
| AuditSection.EmptyAuditHasNoBand | front-end/src/components/sections/audit.tsx:162 | as written, the empty list scores NaN and no colour band applies |
| AuditSection.GuardedAuditScore | front-end/src/components/sections/audit.tsx:162 | the guarded score is always a percentage in [0, 100]: 0 for the empty list, the unguarded score otherwise |
| AuditSection.GuardedScoreHasOneBand | front-end/src/components/sections/audit.tsx:67-71 | with the guard every finding list's score bar gets exactly one colour |
| WalletDetails.ExplorerLink | front-end/src/components/wallet/wallet-details.tsx:30-34 | the link is the mainnet or testnet contract-page prefix, by the flag, followed by the address unchanged |
| WalletDetails.ExplorerLinkRoundTrip | front-end/src/components/wallet/wallet-details.tsx:30-34 | reading a link back gives the network flag and the address it was built from |
| WalletDetails.ExplorerLinkInjective | front-end/src/components/wallet/wallet-details.tsx:30-34 | two links are equal only for the same network and the same address |
| WalletDetails.SliceIndex | front-end/src/components/wallet/wallet-details.tsx:46 | a slice index becomes a position in [0, len]: a non-negative one is clamped to len, a negative one counts from the end and stops at 0 |
| WalletDetails.Slice | front-end/src/components/wallet/wallet-details.tsx:46 | `slice(start, end)` is the contiguous run of the string that begins at the normalised start, of length end minus start when positive and empty otherwise |
| WalletDetails.SliceFrom | front-end/src/components/wallet/wallet-details.tsx:46 | `slice(start)` is the suffix of the string from the normalised start |
| WalletDetails.DisplayAddress | front-end/src/components/wallet/wallet-details.tsx:46 | the shown address is the first min(8, len) characters, "...", and the last min(8, len); from 16 characters it has length 19, with the address's first eight characters before the "..." and its last eight after |
| WalletDetails.ShortAddressShownTwice | front-end/src/components/wallet/wallet-details.tsx:46 | an address of at most eight characters is shown whole on both sides of the ellipsis |
| WalletDetails.NetworkName | front-end/src/components/wallet/wallet.tsx:18-21 | the network enumeration's display value is "Mainnet" exactly for mainnet and "Testnet" exactly for testnet |
| WalletDetails.NetworkLabel | front-end/src/components/wallet/wallet-details.tsx:67 | the network label is "Mainnet" iff on mainnet and "Testnet" iff not |
| WalletDetails.SwitchActionText | front-end/src/components/wallet/wallet-details.tsx:77 | the switch action names the other network, never the current one |

## Left out

- The `toFixed(2)` rounding and IEEE floating point in `calculateAuditScore`: the score is the exact real ratio. The one float behaviour kept is that `0 / 0` is `NaN` and that every comparison with `NaN` is false.
- JSX rendering, styling other than the score's colour band, and React state and hooks in the components: presentation only.
- The order in which the stages are dispatched: the code that orchestrates the pipeline is not part of this model, so nothing relates the four trackers to each other.
- The action-state enumeration: its file is not part of this model. Any value outside the four cases is `Unrecognised`.
- The back-end LLM and compiler gateways and the prompt templates: network calls and fixed strings handed to libraries. The compiler gateway's one piece of logic is that it overwrites the `code` field of the response with the submitted source. That is a field assignment inside a fetch wrapper.
- Schema validation of audit responses: severity is a closed datatype, so only well-formed findings exist in the model.
- The wallet connection component, downloads, clipboard, PDF rendering and the document-store schemas: browser and library I/O, and ORM declarations.
- WalletDetails.DisplayAddress: strings are sequences of characters, not of UTF-16 code units. An address has only ASCII hexadecimal characters, so the two agree for real addresses.

## Findings

| source | as written | input that shows it | evidently intended | confidence | as-written member | corrected member |
|---|---|---|---|---|---|---|
| front-end/src/components/sections/audit.tsx:162 | `totalScore / maxScore` with no guard for an empty list | no findings: `maxScore` and `totalScore` are 0, so the score is `NaN`, shown as "NaN %", and none of the three colour classes applies | an empty list scores 0 (the section already renders "No relevant risks to show." for it) | medium; not executed | AuditSection.EmptyAuditHasNoBand, modelling AuditSection.CalculateAuditScore | AuditSection.GuardedAuditScore, with AuditSection.GuardedScoreHasOneBand |

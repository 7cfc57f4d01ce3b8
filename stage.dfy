/** The status tracker shared by every pipeline stage of the front end.

    Each of the four reducers (generate, compile, audit, predefined prompts)
    is the same `switch` over the action's state: a record of three flags
    and a nullable payload is rebuilt from scratch for `start`, `success`,
    `error` and `reset`, and an unrecognised state returns the input record.
    This module holds that state machine once, generic in the payload type.
 */
module Stage {
  import opened Nullable

  /** The state named by a dispatched action. The enumeration's own file is
      not part of this model; `Unrecognised` stands for any value that none
      of the four cases matches, which the reducers send to `default`. */
  datatype ReducerState = Start | Success | Error | Reset | Unrecognised(name: string)

  /** What a component dispatches: the state to move to and a payload. */
  datatype Action<T> = Action(state: ReducerState, payload: Option<T>)

  /** The record each reducer keeps. */
  datatype StageState<T> = StageState(isLoading: bool, isError: bool, isSuccess: bool, payload: Option<T>)

  /** The four user-visible phases a stage can be in. */
  datatype Phase = Idle | Loading | Succeeded | Failed

  /** `s` shows phase `p`: exactly the flag of `p` is set (none for `Idle`). */
  predicate InPhase<T>(s: StageState<T>, p: Phase) {
    match p
    case Idle => !s.isLoading && !s.isError && !s.isSuccess
    case Loading => s.isLoading && !s.isError && !s.isSuccess
    case Succeeded => !s.isLoading && !s.isError && s.isSuccess
    case Failed => !s.isLoading && s.isError && !s.isSuccess
  }

  /** Number of flags that are set. */
  function FlagCount<T>(s: StageState<T>): nat {
    (if s.isLoading then 1 else 0) + (if s.isError then 1 else 0) + (if s.isSuccess then 1 else 0)
  }

  /** At most one of `isLoading`, `isError` and `isSuccess` holds. */
  predicate AtMostOneFlag<T>(s: StageState<T>) {
    FlagCount(s) <= 1
  }

  /** The phase a recognised action moves the stage to. */
  function PhaseAfter(state: ReducerState): Phase
    requires !state.Unrecognised?
  {
    match state
    case Start => Loading
    case Success => Succeeded
    case Error => Failed
    case Reset => Idle
  }

  /** What a reducer promises: a recognised action puts the stage in that
      action's phase, keeping the payload of a `success` verbatim (null too)
      and null otherwise, whatever the prior state; anything else leaves the
      state as it was. */
  ghost predicate ReducerSpec<T>(s: StageState<T>, a: Action<T>, r: StageState<T>) {
    if a.state.Unrecognised? then r == s
    else InPhase(r, PhaseAfter(a.state)) && r.payload == (if a.state == Success then a.payload else None)
  }

  /** The record after all flags are cleared and the payload is nulled. */
  function Cleared<T>(): (s: StageState<T>)
    ensures InPhase(s, Idle) && s.payload == None
  {
    StageState(false, false, false, None)
  }

  /** The reducer: one case per action state, each returning a fresh record. */
  function Reduce<T>(s: StageState<T>, a: Action<T>): (r: StageState<T>)
    ensures ReducerSpec(s, a, r)
  {
    match a.state
    case Start => StageState(true, false, false, None)
    case Success => StageState(false, false, true, a.payload)
    case Error => StageState(false, true, false, None)
    case Reset => Cleared()
    case Unrecognised(_) => s
  }

  /** The specification leaves no freedom: two results that meet it agree. */
  lemma ReducerSpecIsComplete<T>(s: StageState<T>, a: Action<T>, r1: StageState<T>, r2: StageState<T>)
    requires ReducerSpec(s, a, r1) && ReducerSpec(s, a, r2)
    ensures r1 == r2
  {
  }

  /** Every phase has at most one flag, and a record with at most one flag
      is in exactly one phase. */
  lemma AtMostOneFlagIffOnePhase<T>(s: StageState<T>)
    ensures AtMostOneFlag(s) <==> exists p :: InPhase(s, p)
    ensures forall p, q :: InPhase(s, p) && InPhase(s, q) ==> p == q
  {
    if AtMostOneFlag(s) {
      if s.isLoading { assert InPhase(s, Loading); }
      else if s.isError { assert InPhase(s, Failed); }
      else if s.isSuccess { assert InPhase(s, Succeeded); }
      else { assert InPhase(s, Idle); }
    }
  }

  /** After any recognised action at most one flag is set, whatever the
      prior state. */
  lemma RecognisedActionLeavesAtMostOneFlag<T>(s: StageState<T>, a: Action<T>)
    requires !a.state.Unrecognised?
    ensures AtMostOneFlag(Reduce(s, a))
  {
  }

  /** A state with at most one flag keeps that property under every action. */
  lemma ReducePreservesAtMostOneFlag<T>(s: StageState<T>, a: Action<T>)
    requires AtMostOneFlag(s)
    ensures AtMostOneFlag(Reduce(s, a))
  {
  }

  /** A recognised action ignores the prior state. */
  lemma RecognisedActionIgnoresPriorState<T>(s1: StageState<T>, s2: StageState<T>, a: Action<T>)
    requires !a.state.Unrecognised?
    ensures Reduce(s1, a) == Reduce(s2, a)
  {
  }

  /** Dispatching the same action twice is the same as dispatching it once;
      in particular `reset` twice equals `reset` once. */
  lemma ReduceIsIdempotent<T>(s: StageState<T>, a: Action<T>)
    ensures Reduce(Reduce(s, a), a) == Reduce(s, a)
  {
  }

  /** `reset` clears the record, whatever it held and whatever the payload. */
  lemma ResetClears<T>(s: StageState<T>, p: Option<T>)
    ensures Reduce(s, Action(Reset, p)) == Cleared()
  {
  }

  /** `success` may store a null payload: the record then claims success
      and holds nothing, so "payload present iff success" is not an
      invariant of the reducer. */
  lemma SuccessMayStoreNull<T>(s: StageState<T>)
    ensures InPhase(Reduce(s, Action(Success, None)), Succeeded)
    ensures Reduce(s, Action(Success, None)).payload == None
  {
  }

  /** An unrecognised action state returns the input record itself. */
  lemma UnrecognisedIsIdentity<T>(s: StageState<T>, name: string, p: Option<T>)
    ensures Reduce(s, Action(Unrecognised(name), p)) == s
  {
  }
}

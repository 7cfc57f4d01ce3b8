/** The audit stage tracker: payload `audit: TVulnerability[] | null`. */
module AuditContract {
  import opened Nullable
  import opened Stage
  import opened Types

  type AuditContractState = StageState<seq<Vulnerability>>
  type AuditContractAction = Action<seq<Vulnerability>>

  /** All flags clear and an EMPTY list of findings (not null). */
  function AuditContractInitialState(): (s: AuditContractState)
    ensures InPhase(s, Idle) && s.payload == Some([])
  {
    StageState(false, false, false, Some([]))
  }

  /** The stage reducer, an instance of the shared state machine; the
      payload list of a `success` is stored as it is. */
  function AuditContractReducer(state: AuditContractState, action: AuditContractAction): (r: AuditContractState)
    ensures ReducerSpec(state, action, r)
  {
    Reduce(state, action)
  }

  /** `reset` clears the flags like the initial state does but nulls the
      list, so it does NOT restore the initial state. */
  lemma ResetDiffersFromInitialState(state: AuditContractState, payload: Option<seq<Vulnerability>>)
    ensures InPhase(AuditContractReducer(state, Action(Reset, payload)), Idle)
    ensures AuditContractReducer(state, Action(Reset, payload)).payload == None
    ensures AuditContractReducer(state, Action(Reset, payload)) != AuditContractInitialState()
  {
  }

  /** The initial state is idle yet holds a payload, so "payload present
      iff success" does not hold of it. */
  lemma InitialStateIdleWithPayload()
    ensures InPhase(AuditContractInitialState(), Idle) && AuditContractInitialState().payload.Some?
  {
  }
}

/** The compilation stage tracker: payload `artifact: string | null`. */
module CompileContract {
  import opened Nullable
  import opened Stage

  type CompileContractState = StageState<string>
  type CompileContractAction = Action<string>

  /** All flags clear and no artifact yet. */
  function CompileContractInitialState(): (s: CompileContractState)
    ensures InPhase(s, Idle) && s.payload == None
  {
    Cleared()
  }

  /** The stage reducer, an instance of the shared state machine. */
  function CompileContractReducer(state: CompileContractState, action: CompileContractAction): (r: CompileContractState)
    ensures ReducerSpec(state, action, r)
  {
    Reduce(state, action)
  }

  /** `reset` yields the initial record, whatever the prior state. */
  lemma ResetRestoresInitialState(state: CompileContractState, payload: Option<string>)
    ensures CompileContractReducer(state, Action(Reset, payload)) == CompileContractInitialState()
  {
  }
}

/** The code-generation stage tracker: payload `contractCode: string | null`. */
module GenerateContract {
  import opened Nullable
  import opened Stage

  type GenerateContractState = StageState<string>
  type GenerateContractAction = Action<string>

  /** All flags clear and no code yet. */
  function GenerateContractInitialState(): (s: GenerateContractState)
    ensures InPhase(s, Idle) && s.payload == None
  {
    Cleared()
  }

  /** The stage reducer, an instance of the shared state machine. */
  function GenerateContractReducer(state: GenerateContractState, action: GenerateContractAction): (r: GenerateContractState)
    ensures ReducerSpec(state, action, r)
  {
    Reduce(state, action)
  }

  /** `reset` brings any state back to the initial one, and doing it twice
      changes nothing more. */
  lemma ResetRestoresInitialState(state: GenerateContractState, payload: Option<string>)
    ensures GenerateContractReducer(state, Action(Reset, payload)) == GenerateContractInitialState()
    ensures GenerateContractReducer(GenerateContractReducer(state, Action(Reset, payload)), Action(Reset, payload))
            == GenerateContractReducer(state, Action(Reset, payload))
  {
  }
}

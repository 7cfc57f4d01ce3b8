/** The predefined-prompts tracker: payload `prompts: TPrompt[] | null`. */
module PredefinedPrompts {
  import opened Nullable
  import opened Stage

  /** One stored prompt suggestion (the field name is the store's own spelling). */
  datatype Prompt = Prompt(contracType: string, title: string, description: string)

  type PredefinedPromptsState = StageState<seq<Prompt>>
  type PredefinedPromptsAction = Action<seq<Prompt>>

  /** All flags clear and an EMPTY list of prompts (not null). */
  function PredefinedPromptsInitialState(): (s: PredefinedPromptsState)
    ensures InPhase(s, Idle) && s.payload == Some([])
  {
    StageState(false, false, false, Some([]))
  }

  /** The tracker's reducer, an instance of the shared state machine. */
  function PredefinedPromptsReducer(state: PredefinedPromptsState, action: PredefinedPromptsAction): (r: PredefinedPromptsState)
    ensures ReducerSpec(state, action, r)
  {
    Reduce(state, action)
  }

  /** `reset` clears the flags and nulls the list independently of the
      prior state, which differs from the initial empty list. */
  lemma ResetDiffersFromInitialState(state: PredefinedPromptsState, payload: Option<seq<Prompt>>)
    ensures InPhase(PredefinedPromptsReducer(state, Action(Reset, payload)), Idle)
    ensures PredefinedPromptsReducer(state, Action(Reset, payload)).payload == None
    ensures PredefinedPromptsReducer(state, Action(Reset, payload)) != PredefinedPromptsInitialState()
  {
  }
}

/** The session record, the shipped default workload and the agent's initial
    state (src/server.ts:11-16, 23-45). */
module Server {
  import opened Wrappers
  import opened Types

  /** The language-model handle the agent carries. It is never interpreted
      here; it stands for the Workers AI model of the given id. */
  datatype ModelHandle = WorkersAiModel(modelId: string)

  /** The whole session state the agent framework stores. */
  datatype State = State(
    preferredCloudProvider: ProviderName,
    defaultWorkload: WorkloadRequirements,
    projectState: ProjectState,
    model: ModelHandle)

  const DefaultModel := WorkersAiModel("@cf/deepseek-ai/deepseek-r1-distill-qwen-32b")

  /** The shipped default workload. */
  const DefaultWorkload := WorkloadRequirements(
    "basic website",
    "serving static content with occasional dynamic requests",
    10000.0,
    10.0,
    Low,
    Global,
    Cost,
    Simple,
    Monolithic)

  /** The agent's initial state. Note that the stored requirements start out as
      the default workload, not absent. */
  const InitialState := State(
    Cloudflare,
    DefaultWorkload,
    ProjectState(Some(DefaultWorkload), [], None, CollectingRequirements),
    DefaultModel)

  /** The nine fields of the shipped default workload. */
  lemma DefaultWorkloadFacts()
    ensures DefaultWorkload.title == "basic website"
    ensures DefaultWorkload.description == "serving static content with occasional dynamic requests"
    ensures DefaultWorkload.monthlyRequests == 10000.0
    ensures DefaultWorkload.dataPerRequestKB == 10.0
    ensures DefaultWorkload.latencySensitivity == Low
    ensures DefaultWorkload.dataResidency == Global
    ensures DefaultWorkload.sensitivity == Cost
    ensures DefaultWorkload.complexity == Simple
    ensures DefaultWorkload.style == Monolithic
  {
  }

  /** What a session starts from: phase `collecting-requirements`, no
      architectures, no selection, provider `cloudflare`, and both the default
      workload and the stored requirements equal to the shipped default. */
  lemma InitialStateFacts()
    ensures InitialState.projectState.phase == CollectingRequirements
    ensures InitialState.projectState.architectures == []
    ensures InitialState.projectState.selectedArchitectureId == None
    ensures InitialState.projectState.requirements == Some(DefaultWorkload)
    ensures InitialState.defaultWorkload == DefaultWorkload
    ensures InitialState.preferredCloudProvider == Cloudflare
    ensures InitialState.model == DefaultModel
  {
  }

  /** The chat agent of one session: its fixed `initialState` and the current
      `state`, which the tools replace through `SetState`. */
  class Agent {
    const initialState: State
    var state: State

    /** A new session starts in its initial state. */
    constructor ()
      ensures initialState == InitialState
      ensures state == InitialState
    {
      initialState := InitialState;
      state := InitialState;
    }

    /** Whole-record replacement of the session state. */
    method SetState(s: State)
      modifies this
      ensures state == s
    {
      state := s;
    }
  }
}

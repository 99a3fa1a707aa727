/** The three agent tools of src/server/tools/index.ts. Each reads the ambient
    agent, which may be missing (`null` here), and replaces its state. The
    state transitions are functions on values; the tools are methods whose
    contracts tie the agent's new state to those functions. */
module Tools {
  import opened Wrappers
  import opened Types
  import opened Requirements
  import opened Server

  /** The errors the tools throw. */
  datatype ToolError = NoAgentContext | NoWorkloadRequirements

  /** The message each error is thrown with; the message identifies the error. */
  function ErrorMessage(e: ToolError): (r: string)
    ensures r == "No agent context available" <==> e == NoAgentContext
    ensures r == "No workload requirements available" <==> e == NoWorkloadRequirements
  {
    match e
    case NoAgentContext => "No agent context available"
    case NoWorkloadRequirements => "No workload requirements available"
  }

  /** The replies of the three tools. */
  datatype Confirmation = Confirmation(message: string, workload: WorkloadRequirements, question: string)
  datatype UpdateReply = UpdateReply(requirements: WorkloadRequirements)
  datatype GenerateReply = GenerateReply(architectures: seq<ArchitectureOption>, count: nat)

  const ConfirmationMessage := "Here are the default workload details:\n"
  const ConfirmationQuestion := "Would you like to proceed with these default settings?"

  // ---------------------------------------------------------------------
  // updateWorkloadRequirements

  /** The state after `updateWorkloadRequirements` with update `p`, where
      `defaults` is the agent's initial default workload. */
  function Updated(s: State, defaults: WorkloadRequirements, p: PartialRequirements): (r: State)
    ensures r.projectState.requirements == Some(Resolve(p, defaults))
    ensures r.projectState.phase == GeneratingArchitectures
    ensures r.projectState.architectures == s.projectState.architectures
    ensures r.projectState.selectedArchitectureId == s.projectState.selectedArchitectureId
    ensures r.preferredCloudProvider == s.preferredCloudProvider
    ensures r.defaultWorkload == s.defaultWorkload
    ensures r.model == s.model
  {
    s.(projectState := s.projectState.(requirements := Some(Resolve(p, defaults)),
                                       phase := GeneratingArchitectures))
  }

  /** The stored requirements and the phase after an update do not depend on
      the state before it: neither the old requirements, nor the old phase, nor
      the state's own `defaultWorkload` field is consulted. */
  lemma UpdatedIgnoresPriorState(s: State, t: State, d: WorkloadRequirements, p: PartialRequirements)
    ensures Updated(s, d, p).projectState.requirements == Updated(t, d, p).projectState.requirements
    ensures Updated(s, d, p).projectState.phase == Updated(t, d, p).projectState.phase
  {
  }

  /** Repeating the same update changes nothing further. */
  lemma UpdatedIdempotent(s: State, d: WorkloadRequirements, p: PartialRequirements)
    ensures Updated(Updated(s, d, p), d, p) == Updated(s, d, p)
  {
  }

  /** `updateWorkloadRequirements.execute`: without an agent it throws and
      changes nothing; otherwise it stores the resolved requirements, sets the
      phase and returns what it stored. The defaults come from the agent's
      initial state. */
  method UpdateWorkloadRequirements(ctx: Agent?, p: PartialRequirements)
    returns (r: Result<UpdateReply, ToolError>)
    modifies ctx
    ensures ctx == null ==> r == Failure(NoAgentContext)
    ensures ctx != null ==>
              ctx.state == Updated(old(ctx.state), ctx.initialState.defaultWorkload, p)
              && r == Success(UpdateReply(Resolve(p, ctx.initialState.defaultWorkload)))
  {
    if ctx == null {
      return Failure(NoAgentContext);
    }
    var defaultRequirements := ctx.initialState.defaultWorkload;
    var resolved := Resolve(p, defaultRequirements);
    ctx.SetState(ctx.state.(projectState := ctx.state.projectState.(
                   requirements := Some(resolved),
                   phase := GeneratingArchitectures)));
    r := Success(UpdateReply(ctx.state.projectState.requirements.value));
  }

  // ---------------------------------------------------------------------
  // generateArchitecturePlans

  /** The input flag after schema defaulting: an omitted flag means `true`. */
  function UsesDefault(useDefaultWorkload: Option<bool>): (r: bool)
    ensures r <==> useDefaultWorkload != Some(false)
  {
    useDefaultWorkload.GetOr(true)
  }

  /** The requirements the generator is given: the initial default workload when
      the flag is set, the stored requirements (possibly absent) otherwise. */
  function Selected(s: State, defaults: WorkloadRequirements, useDefaultWorkload: Option<bool>)
    : (r: Option<WorkloadRequirements>)
    ensures useDefaultWorkload != Some(false) ==> r == Some(defaults)
    ensures useDefaultWorkload == Some(false) ==> r == s.projectState.requirements
  {
    if UsesDefault(useDefaultWorkload) then Some(defaults) else s.projectState.requirements
  }

  /** The outcome of `generateArchitecturePlans` given the generator's output
      `generated`: an error exactly when the selected requirements are absent,
      otherwise the state with architectures replaced by `generated`. */
  function Generated(s: State, defaults: WorkloadRequirements, useDefaultWorkload: Option<bool>,
                     generated: seq<ArchitectureOption>): (r: Result<State, ToolError>)
    ensures r.Failure? <==> useDefaultWorkload == Some(false) && s.projectState.requirements.None?
    ensures r.Failure? ==> r.error == NoWorkloadRequirements
    ensures r.Success? ==>
              && r.value.projectState.architectures == generated
              && r.value.projectState.phase == AwaitingChoice
              && r.value.projectState.requirements == Selected(s, defaults, useDefaultWorkload)
              && r.value.projectState.selectedArchitectureId == s.projectState.selectedArchitectureId
              && r.value.preferredCloudProvider == s.preferredCloudProvider
              && r.value.defaultWorkload == s.defaultWorkload
              && r.value.model == s.model
  {
    match Selected(s, defaults, useDefaultWorkload)
    case None => Failure(NoWorkloadRequirements)
    case Some(req) =>
      Success(s.(projectState := s.projectState.(requirements := Some(req),
                                                 architectures := generated,
                                                 phase := AwaitingChoice)))
  }

  /** With the flag set or omitted the stored requirements are ignored: two
      states that differ only there give the same stored requirements, namely
      the defaults. */
  lemma GeneratedIgnoresStored(s: State, t: State, d: WorkloadRequirements,
                               useDefaultWorkload: Option<bool>, generated: seq<ArchitectureOption>)
    requires useDefaultWorkload != Some(false)
    ensures Generated(s, d, useDefaultWorkload, generated).Success?
    ensures Generated(t, d, useDefaultWorkload, generated).Success?
    ensures Generated(s, d, useDefaultWorkload, generated).value.projectState.requirements == Some(d)
    ensures Generated(t, d, useDefaultWorkload, generated).value.projectState.requirements == Some(d)
  {
  }

  /** A second generation discards the first one's list instead of appending to it. */
  lemma GeneratedReplaces(s: State, d: WorkloadRequirements, u1: Option<bool>, u2: Option<bool>,
                          g1: seq<ArchitectureOption>, g2: seq<ArchitectureOption>)
    requires Generated(s, d, u1, g1).Success?
    ensures Generated(Generated(s, d, u1, g1).value, d, u2, g2).Success?
    ensures Generated(Generated(s, d, u1, g1).value, d, u2, g2).value.projectState.architectures == g2
  {
  }

  /** Updating and then generating from the stored requirements hands the
      generator the resolved update and never fails. */
  lemma UpdateThenGenerate(s: State, d: WorkloadRequirements, p: PartialRequirements,
                           generated: seq<ArchitectureOption>)
    ensures Generated(Updated(s, d, p), d, Some(false), generated).Success?
    ensures Generated(Updated(s, d, p), d, Some(false), generated).value.projectState.requirements
            == Some(Resolve(p, d))
  {
  }

  /** The generator's components are stored as they come: a component whose
      provider is outside the closed provider set is not rejected. */
  lemma GeneratedKeepsUntypedComponents(s: State, d: WorkloadRequirements)
    ensures exists generated: seq<ArchitectureOption> ::
              && Generated(s, d, None, generated).Success?
              && |generated| == 1 && |generated[0].components| == 1
              && !IsTyped(Generated(s, d, None, generated).value.projectState.architectures[0].components[0])
  {
    var c := ArchitectureComponent("c1", "cf_worker", "azure", "edge", map[]);
    var generated := [ArchitectureOption("a1", "edge", "one worker", [c])];
    assert ParseProvider("azure") == None;
    assert !IsTyped(c);
    assert Generated(s, d, None, generated).value.projectState.architectures[0].components[0] == c;
  }

  /** `generateArchitecturePlans.execute`, with the generator's output passed in
      as `generated`: without an agent, or when the selected requirements are
      absent, it throws and changes nothing; otherwise it replaces the
      architectures, requirements and phase and returns the list and its length. */
  method GenerateArchitecturePlans(ctx: Agent?, useDefaultWorkload: Option<bool>,
                                   generated: seq<ArchitectureOption>)
    returns (r: Result<GenerateReply, ToolError>)
    modifies ctx
    ensures ctx == null ==> r == Failure(NoAgentContext)
    ensures ctx != null ==>
              match Generated(old(ctx.state), ctx.initialState.defaultWorkload, useDefaultWorkload, generated)
              case Failure(e) => r == Failure(e) && ctx.state == old(ctx.state)
              case Success(s) => r == Success(GenerateReply(generated, |generated|)) && ctx.state == s
  {
    if ctx == null {
      return Failure(NoAgentContext);
    }
    var requirements := if UsesDefault(useDefaultWorkload)
                        then Some(ctx.initialState.defaultWorkload)
                        else ctx.state.projectState.requirements;
    if requirements.None? {
      return Failure(NoWorkloadRequirements);
    }
    ctx.SetState(ctx.state.(projectState := ctx.state.projectState.(
                   requirements := requirements,
                   architectures := generated,
                   phase := AwaitingChoice)));
    r := Success(GenerateReply(generated, |generated|));
  }

  // ---------------------------------------------------------------------
  // showDefaultWorkloadForConfirmation

  /** `executions.showDefaultWorkloadForConfirmation`: read-only; it fails
      exactly when there is no agent, and otherwise shows the state's default
      workload with the fixed message and question. */
  method ShowDefaultWorkloadForConfirmation(ctx: Agent?) returns (r: Result<Confirmation, ToolError>)
    ensures r.Failure? <==> ctx == null
    ensures r.Failure? ==> r.error == NoAgentContext
    ensures r.Success? ==>
              r.value == Confirmation(ConfirmationMessage, ctx.state.defaultWorkload, ConfirmationQuestion)
  {
    if ctx == null {
      return Failure(NoAgentContext);
    }
    var defaultWorkload := ctx.state.defaultWorkload;
    r := Success(Confirmation(ConfirmationMessage, defaultWorkload, ConfirmationQuestion));
  }
}

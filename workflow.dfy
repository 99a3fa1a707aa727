/** Sequences of tool calls made by the chat orchestrator against one agent,
    and what they can and cannot do to the session state. A call that throws
    leaves the state as it was; the orchestrator may go on calling. */
module Workflow {
  import opened Wrappers
  import opened Types
  import opened Requirements
  import opened Server
  import opened Tools

  /** One tool call, with the generator's output for a generation. */
  datatype ToolCall =
    | ShowDefault
    | Update(update: PartialRequirements)
    | Generate(useDefaultWorkload: Option<bool>, generated: seq<ArchitectureOption>)

  /** The state after one call, `defaults` being the initial default workload. */
  function Step(s: State, defaults: WorkloadRequirements, c: ToolCall): (r: State)
    ensures c.ShowDefault? ==> r == s
    ensures c.Generate? && Generated(s, defaults, c.useDefaultWorkload, c.generated).Failure? ==> r == s
    ensures r.projectState.phase == s.projectState.phase
            || r.projectState.phase == GeneratingArchitectures
            || r.projectState.phase == AwaitingChoice
    ensures r.preferredCloudProvider == s.preferredCloudProvider && r.defaultWorkload == s.defaultWorkload
    ensures r.model == s.model && r.projectState.selectedArchitectureId == s.projectState.selectedArchitectureId
  {
    match c
    case ShowDefault => s
    case Update(p) => Updated(s, defaults, p)
    case Generate(u, g) =>
      match Generated(s, defaults, u, g)
      case Success(t) => t
      case Failure(_) => s
  }

  /** The state after a sequence of calls. A sequence of confirmation calls
      only leaves the state as it was. */
  function Run(s: State, defaults: WorkloadRequirements, calls: seq<ToolCall>): (r: State)
    ensures (forall i | 0 <= i < |calls| :: calls[i].ShowDefault?) ==> r == s
    decreases |calls|
  {
    if calls == [] then s else Run(Step(s, defaults, calls[0]), defaults, calls[1..])
  }

  /** The output of the last generation in `calls`, if there is one. */
  function LastGenerated(calls: seq<ToolCall>): Option<seq<ArchitectureOption>>
    decreases |calls|
  {
    if calls == [] then None
    else match LastGenerated(calls[1..])
      case Some(g) => Some(g)
      case None => if calls[0].Generate? then Some(calls[0].generated) else None
  }

  /** No tool touches the provider, the default workload, the model handle or
      the selected architecture. */
  lemma {:induction false} RunKeepsFixedFields(s: State, d: WorkloadRequirements, calls: seq<ToolCall>)
    ensures Run(s, d, calls).preferredCloudProvider == s.preferredCloudProvider
    ensures Run(s, d, calls).defaultWorkload == s.defaultWorkload
    ensures Run(s, d, calls).model == s.model
    ensures Run(s, d, calls).projectState.selectedArchitectureId == s.projectState.selectedArchitectureId
    decreases |calls|
  {
    if calls != [] {
      RunKeepsFixedFields(Step(s, d, calls[0]), d, calls[1..]);
    }
  }

  /** Once requirements are stored they stay stored. */
  lemma {:induction false} RunKeepsRequirements(s: State, d: WorkloadRequirements, calls: seq<ToolCall>)
    requires s.projectState.requirements.Some?
    ensures Run(s, d, calls).projectState.requirements.Some?
    decreases |calls|
  {
    if calls != [] {
      RunKeepsRequirements(Step(s, d, calls[0]), d, calls[1..]);
    }
  }

  /** No tool ever moves the phase to `ready-for-iac`. */
  lemma {:induction false} RunNeverReadyForIac(s: State, d: WorkloadRequirements, calls: seq<ToolCall>)
    requires s.projectState.phase != ReadyForIac
    ensures Run(s, d, calls).projectState.phase != ReadyForIac
    decreases |calls|
  {
    if calls != [] {
      RunNeverReadyForIac(Step(s, d, calls[0]), d, calls[1..]);
    }
  }

  /** No tool moves the phase back to `collecting-requirements`, from any state. */
  lemma {:induction false} NeverBackToCollecting(s: State, d: WorkloadRequirements, calls: seq<ToolCall>)
    requires s.projectState.phase != CollectingRequirements
    ensures Run(s, d, calls).projectState.phase != CollectingRequirements
    decreases |calls|
  {
    if calls != [] {
      NeverBackToCollecting(Step(s, d, calls[0]), d, calls[1..]);
    }
  }

  /** Running two sequences one after the other is running their concatenation. */
  lemma {:induction false} RunAppend(s: State, d: WorkloadRequirements, a: seq<ToolCall>, b: seq<ToolCall>)
    ensures Run(s, d, a + b) == Run(Run(s, d, a), d, b)
    decreases |a|
  {
    if a != [] {
      assert (a + b)[0] == a[0];
      assert (a + b)[1..] == a[1..] + b;
      RunAppend(Step(s, d, a[0]), d, a[1..], b);
    } else {
      assert a + b == b;
    }
  }

  /** While requirements are stored, the phase is still `collecting-requirements`
      after a sequence of calls exactly when it was before and every call only
      showed the default: no tool moves the phase back to it. */
  lemma {:induction false} RunStaysCollectingIff(s: State, d: WorkloadRequirements, calls: seq<ToolCall>)
    requires s.projectState.requirements.Some?
    ensures Run(s, d, calls).projectState.phase == CollectingRequirements <==>
            s.projectState.phase == CollectingRequirements && forall i | 0 <= i < |calls| :: calls[i].ShowDefault?
    decreases |calls|
  {
    if calls != [] {
      var t := Step(s, d, calls[0]);
      RunStaysCollectingIff(t, d, calls[1..]);
      assert forall i | 0 <= i < |calls| - 1 :: calls[1..][i] == calls[i + 1];
      if calls[0].ShowDefault? {
        assert (forall i | 0 <= i < |calls| :: calls[i].ShowDefault?) <==>
               (forall i | 0 <= i < |calls[1..]| :: calls[1..][i].ShowDefault?);
      } else {
        assert t.projectState.phase != CollectingRequirements;
      }
    }
  }

  /** While requirements are stored, every generation succeeds, so the stored
      architectures are exactly the output of the last generation, or the
      original list if there was none. */
  lemma {:induction false} RunArchitectures(s: State, d: WorkloadRequirements, calls: seq<ToolCall>)
    requires s.projectState.requirements.Some?
    ensures Run(s, d, calls).projectState.architectures ==
            match LastGenerated(calls)
            case Some(g) => g
            case None => s.projectState.architectures
    decreases |calls|
  {
    if calls != [] {
      RunArchitectures(Step(s, d, calls[0]), d, calls[1..]);
    }
  }

  /** A session that starts from the initial state keeps the shipped default in
      its `defaultWorkload` field, so the confirmation tool (which reads the
      state) and the other two tools (which read the initial state) use the
      same defaults. */
  lemma {:induction false} SessionDefaultsAgree(calls: seq<ToolCall>)
    ensures Run(InitialState, DefaultWorkload, calls).defaultWorkload == InitialState.defaultWorkload
    ensures Run(InitialState, DefaultWorkload, calls).defaultWorkload == DefaultWorkload
  {
    RunKeepsFixedFields(InitialState, DefaultWorkload, calls);
  }

  /** Because the initial state already stores the default workload, the
      "No workload requirements available" error cannot be reached from it:
      after any sequence of calls, a generation succeeds whatever its flag. */
  lemma {:induction false} GenerateNeverMissingFromInitial(calls: seq<ToolCall>, u: Option<bool>,
                                                           generated: seq<ArchitectureOption>)
    ensures Generated(Run(InitialState, DefaultWorkload, calls), DefaultWorkload, u, generated).Success?
  {
    RunKeepsRequirements(InitialState, DefaultWorkload, calls);
  }

  /** From a state without stored requirements, generating from the stored
      requirements fails with the missing-requirements error whatever the
      generator would return, and the call leaves the state as it was. */
  lemma MissingRequirementsNeedsAbsentRequirements(s: State, d: WorkloadRequirements,
                                                  generated: seq<ArchitectureOption>)
    requires s.projectState.requirements.None?
    ensures Generated(s, d, Some(false), generated) == Failure(NoWorkloadRequirements)
    ensures Step(s, d, Generate(Some(false), generated)) == s
  {
  }

  /** The phase does not only move forward: an update after a generation takes
      it from `awaiting-choice` back to `generating-architectures`. */
  lemma UpdateAfterGenerateMovesBack()
    ensures Run(InitialState, DefaultWorkload, [Generate(None, [])]).projectState.phase == AwaitingChoice
    ensures Run(InitialState, DefaultWorkload, [Generate(None, []), Update(NoUpdate)]).projectState.phase
            == GeneratingArchitectures
  {
    var s1 := Step(InitialState, DefaultWorkload, Generate(None, []));
    assert Run(InitialState, DefaultWorkload, [Generate(None, [])]) == s1;
    var calls := [Generate(None, []), Update(NoUpdate)];
    assert calls[1..] == [Update(NoUpdate)];
    assert Run(InitialState, DefaultWorkload, calls) == Run(s1, DefaultWorkload, [Update(NoUpdate)]);
    assert Run(s1, DefaultWorkload, [Update(NoUpdate)]) == Run(Updated(s1, DefaultWorkload, NoUpdate), DefaultWorkload, []);
    assert Run(InitialState, DefaultWorkload, calls) == Updated(s1, DefaultWorkload, NoUpdate);
  }
}

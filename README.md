# Session-state workflow of the cloud-architecture assistant

This project models, in Dafny, the session state of the cloud-architecture chat
agent and the three tools that drive it:

- `showDefaultWorkloadForConfirmation` shows the agent's default workload and
  changes nothing;
- `updateWorkloadRequirements` resolves a partial workload description against
  the agent's initial default workload, field by field with `??`, stores the
  result and sets the phase to `generating-architectures`;
- `generateArchitecturePlans` picks the default workload (flag `useDefaultWorkload`,
  `true` when omitted) or the stored requirements, throws when that choice is
  absent, and otherwise replaces the stored architectures and requirements and
  sets the phase to `awaiting-choice`.

Modules follow the source files, with two additions: `Requirements` is the
merge expression inside one tool, and `Workflow` stands for the chat
orchestrator's sequence of tool calls, which is outside the source:

- `Wrappers` (`wrappers.dfy`): `Option` (absent means `null`/`undefined`; `GetOr` is `??`) and `Result`.
- `Types` (`types.dfy`, src/types/index.ts): the workload, component, option,
  phase and project records, and the closed provider, resource-kind and phase
  unions with their string forms.
- `Requirements` (`requirements.dfy`, src/server/tools/index.ts:42-50): the field-wise merge `Resolve` and a
  field-indexed view (`Get`, `GetPartial`) used to state its properties once
  for all nine fields.
- `Server` (`server.dfy`, src/server.ts): the session `State`, the shipped
  `DefaultWorkload`, `InitialState`, and the `Agent` class whose `state` field
  the tools replace through `SetState`.
- `Tools` (`tools.dfy`, src/server/tools/index.ts): each tool's state transition
  as a function (`Updated`, `Generated`) and the tool itself as a method on a
  possibly missing agent (`Agent?`; `null` is "no agent context").
- `Workflow` (`workflow.dfy`): arbitrary sequences of tool calls (`Step`, `Run`),
  where a call that throws leaves the state as it was, and what they can reach.

Modelling choices:

- The language-model call inside `generateArchitecturePlans` is replaced by a
  parameter `generated: seq<ArchitectureOption>`: any list the generator could
  return.
- The ambient agent lookup is the argument `ctx: Agent?`.
- `monthlyRequests` and `dataPerRequestKB` are JavaScript numbers. They are
  `real` here; nothing computes with them.
- A component's `kind` and `provider` are kept as strings. The generator schema
  accepts any string and the result is cast, so membership in the closed unions
  (`IsTyped`) is not guaranteed; `GeneratedKeepsUntypedComponents` exhibits it.
- A component's `config` (`Record<string, unknown>`) is a map to a `Json` value.
- The model handle is carried as an uninterpreted `WorkersAiModel(modelId)`.

Facts about the code that shape the workflow:

- The stored requirements start as the default workload (src/server.ts:40),
  not absent. So the "No workload requirements available" error
  (src/server/tools/index.ts:75-77) cannot be reached from the initial state
  (`GenerateNeverMissingFromInitial`). It needs a state whose stored
  requirements are absent.
- An update sets the phase to `generating-architectures` unconditionally
  (src/server/tools/index.ts:52). So after a generation, an update moves the
  phase from `awaiting-choice` back to `generating-architectures`
  (`UpdateAfterGenerateMovesBack`). No tool sets `ready-for-iac`
  (`RunNeverReadyForIac`), and none moves the phase back to
  `collecting-requirements` (`NeverBackToCollecting`).
- The two counts are unbounded `z.number()` inputs
  (src/server/tools/index.ts:21-22), so any number is stored.

## Model

| member | source | states |
|---|---|---|
| `Types.ParseProvider` | src/types/index.ts:1 | a recognised string is the tag of the provider returned; an unrecognised one is the tag of no provider |
| `Types.ProviderTagRoundTrip` | src/types/index.ts:1 | every provider name reads back from its string form |
| `Types.ParseKind` | src/types/index.ts:3-13 | a recognised string is the tag of the resource kind returned; an unrecognised one is the tag of no kind |
| `Types.KindTagRoundTrip` | src/types/index.ts:3-13 | every resource kind reads back from its string form |
| `Types.ParsePhase` | src/types/index.ts:42-46 | exactly the four phase strings are phases |
| `Types.PhaseTagRoundTrip` | src/types/index.ts:42-46 | every phase reads back from its string form |
| `Requirements.FieldsDetermineRecord` | src/types/index.ts:15-25 | a workload record is determined by its nine fields |
| `Requirements.Resolve` | src/server/tools/index.ts:42-50 | each field of the merged record is the update's value when present, otherwise the default's |
| `Requirements.ResolveIsFieldIndependent` | src/server/tools/index.ts:42-50 | a merged field depends only on that field of the update and of the defaults (not all-or-nothing) |
| `Requirements.ResolveNoUpdate` | src/server/tools/index.ts:42-50 | an all-absent update yields exactly the defaults |
| `Requirements.ResolveSupplied` | src/server/tools/index.ts:42-50 | a fully populated update yields itself, whatever the defaults |
| `Requirements.ResolveKeepsDefaultsIff` | src/server/tools/index.ts:42-50 | the merge returns the defaults if and only if every supplied field already equals the default (present `""` or `0` is kept) |
| `Server.DefaultWorkloadFacts` | src/server.ts:23-33 | the shipped default workload `DefaultWorkload` has the nine field values of the source |
| `Server.InitialStateFacts` | src/server.ts:36-45 | `InitialState`: initial phase `collecting-requirements`, no architectures, no selection, provider `cloudflare`, stored requirements and default workload both the shipped default |
| `Server.Agent.constructor` | src/server.ts:35-45 | a new agent's initial state and current state are the initial state record |
| `Server.Agent.SetState` | src/server/tools/index.ts:37-54 | the whole state is replaced by the given record |
| `Tools.Updated` | src/server/tools/index.ts:35-54 | after an update: requirements are the merge against the initial defaults, phase is `generating-architectures`, architectures, selection, provider, default workload and model are unchanged |
| `Tools.UpdatedIgnoresPriorState` | src/server/tools/index.ts:35-52 | the stored requirements and the phase after an update do not depend on the previous state or phase |
| `Tools.UpdatedIdempotent` | src/server/tools/index.ts:37-54 | repeating an update leaves the state as one update left it |
| `Tools.UpdateWorkloadRequirements` | src/server/tools/index.ts:29-57 | no agent: throws, nothing changes; otherwise the new state is `Updated` of the old one with the initial defaults, and the reply is the stored requirements |
| `Tools.ErrorMessage` | src/server/tools/index.ts:32-76 | each error is thrown with its own message, and each message identifies its error |
| `Tools.UsesDefault` | src/server/tools/index.ts:63 | the flag counts as true unless it is explicitly false (schema default `true`) |
| `Tools.Selected` | src/server/tools/index.ts:63-73 | flag true or omitted selects the initial default workload; flag false selects the stored requirements |
| `Tools.Generated` | src/server/tools/index.ts:71-120 | fails, with the missing-requirements error, exactly when the flag is false and nothing is stored; otherwise architectures become exactly the generated list, requirements the selected source, phase `awaiting-choice`, the rest unchanged |
| `Tools.GeneratedIgnoresStored` | src/server/tools/index.ts:71-73 | with the flag true or omitted generation always succeeds and stores the defaults, whatever was stored |
| `Tools.GeneratedReplaces` | src/server/tools/index.ts:112-120 | a second generation's list replaces the first's rather than being appended |
| `Tools.UpdateThenGenerate` | src/server/tools/index.ts:71-77 | an update followed by generation from stored requirements succeeds and uses the merged update |
| `Tools.GeneratedKeepsUntypedComponents` | src/server/tools/index.ts:103-117 | a generated component whose provider is outside the closed set is stored unchecked |
| `Tools.GenerateArchitecturePlans` | src/server/tools/index.ts:65-122 | no agent: throws; missing selected requirements: throws with the state unchanged; otherwise the state is `Generated` and the reply is the list and its length |
| `Tools.ShowDefaultWorkloadForConfirmation` | src/server/tools/index.ts:133-146 | fails exactly when there is no agent; otherwise returns the state's default workload with the fixed message and question; modifies nothing |
| `Workflow.Step` | src/server/tools/index.ts:29-146 | the confirmation call and a failing generation leave the state as it was; a call keeps the phase or sets `generating-architectures` or `awaiting-choice`; provider, default workload, model and selection are kept |
| `Workflow.Run` | src/server/tools/index.ts:133-146 | a sequence of confirmation calls only leaves the state as it was |
| `Workflow.RunAppend` | src/server/tools/index.ts:29-146 | running two call sequences one after the other is running their concatenation |
| `Workflow.RunKeepsFixedFields` | src/server/tools/index.ts:37-120 | no sequence of calls changes the provider, default workload, model or selected architecture |
| `Workflow.RunKeepsRequirements` | src/server/tools/index.ts:112-120 | once requirements are stored, no sequence of calls removes them |
| `Workflow.RunNeverReadyForIac` | src/server/tools/index.ts:52-118 | no sequence of calls reaches `ready-for-iac` |
| `Workflow.NeverBackToCollecting` | src/server/tools/index.ts:52-118 | from any state not in `collecting-requirements`, no sequence of calls returns the phase to it |
| `Workflow.RunStaysCollectingIff` | src/server/tools/index.ts:52-118 | while requirements are stored, the phase is `collecting-requirements` after a sequence of calls if and only if it was before and every call was the confirmation tool |
| `Workflow.RunArchitectures` | src/server/tools/index.ts:112-120 | while requirements are stored, the stored architectures are exactly the last generation's output, or the original list if none |
| `Workflow.SessionDefaultsAgree` | src/server/tools/index.ts:134-139 | from the initial state, the state's default workload stays the shipped default, the one the other tools read from the initial state |
| `Workflow.GenerateNeverMissingFromInitial` | src/server.ts:39-43 | from the initial state the missing-requirements error is unreachable, after any sequence of calls and with either flag |
| `Workflow.MissingRequirementsNeedsAbsentRequirements` | src/server/tools/index.ts:71-77 | from a state without stored requirements, generation with the flag false fails with the missing-requirements error whatever the generator returns, and leaves the state as it was |
| `Workflow.UpdateAfterGenerateMovesBack` | src/server/tools/index.ts:52-118 | an update after a generation moves the phase from `awaiting-choice` back to `generating-architectures` |

## Left out

- The language-model call `generateObject`, its prompt and the rule about the extra Cloudflare-first option: a foreign, nondeterministic call. Its output is the argument `generated`. A generator call that throws (after the requirements check, before the state is replaced, leaving the state unchanged) is not modelled: in the model generation with requirements available always succeeds.
- Schema validation of tool inputs and of the generator's output: the validation library is not part of this model. Inputs are already-typed values, and the `useDefaultWorkload` default of `true` is written out in `UsesDefault`.
- The ambient `getCurrentAgent()` lookup: modelled only as an agent that is present or `null`.
- `async`/`await`: calls run one after another and `setState` is a synchronous assignment.
- Chat streaming in `onChatMessage`, tool-call post-processing, the HTTP `fetch` routing and the API-key check: I/O and framework plumbing.
- The Workers AI model object: carried as an uninterpreted id, never used.
- The system prompt: natural-language advice to the model, not enforced by code.
- JavaScript number semantics (fractions beyond `real`, `NaN`, infinities): the counts are stored and never computed with.
- `Workflow.Run`: traces assume an agent is present at every call; a call without one throws and changes nothing, as the tool methods state.

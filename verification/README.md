# A model of the agent orchestration platform

The platform runs conversations in which a language model plans and agents act. Three layers are modelled,
one Dafny module per file; `dafny verify dfyconfig.toml` checks them all.

**The agentic loop and its history.** `Messages` and `History` describe conversations, stored rows, windowing and
the sanitiser; `Compaction` (with `Texts`) what the planner sees of tool inputs and results; `AgentLoop` one segment of
the orchestration workflow, as a class with the workflow's fields proved against a recursive specification;
`RunChain` the segments chained by continue-as-new, the token budget, and the older engine; `RunTree` the tree of
workflows that delegation starts.

**The application graph.** `AppGraph` validates a canvas graph and walks it for agents; `MiddlewareChains`
follows middleware; `OrchNames` allocates names; `Compiler` turns the graph into rows, `CompilerLaws` and `RowLaws`
prove what that guarantees; `Exporter` and `RoundTrip` draw the rows as a graph again and compile the drawing.

**The shared-state protocols.** `EntryGate` (admission to an entry point), `TaskStore` (task lifecycle and reaper),
`TokenCache` (two cache levels in front of the database), `RateLimit` (fixed hour window), `Poll` (polling a remote
agent) and `Relay` (a lossy channel racing with the workflow's result). Each is a step relation or a run over
arbitrary outside answers, with the code's own methods proved against it.

The outside world is a parameter: an `Outcome` per iteration, a `World` per stream or poll, an event sequence per
protocol, functions for clocks, fresh ids and random tokens. A result about a run therefore holds for every model
answer, every interleaving, every loss of messages and every moment of interruption.

## What turned out different from the documentation

Each item is a lemma with a concrete input, or an exact condition.

- A history window of 0 is documented as a bound and keeps the whole history (`History.WindowBoundsTurns`).
- The sanitiser's comment speaks of the immediately following message; the code looks for result ids anywhere. With
  unique ids the two agree (`History.UnmatchedIsDangling`). It also drops an empty turn after a dangling one
  (`History.SanitizedDropsExactlyDangling`, `History.EmptyTurnAfterDanglingIsLost`), and it keeps results whose own
  turn was lost (`History.SanitizedPairedIff`, `History.StrayResultsStay`). The older loader does not sanitise at
  all (`History.LegacyReloadPairedIff`).
- A model error worded with "cancel" ends the workflow as canceled, the older engine as failed
  (`RunChain.ChainMatchesLegacy`, `RunChain.ModelErrorReadAsCancellation`).
- A turn whose serialisation failed still gets its tool results appended (`AgentLoop.PlansPairedIff`,
  `AgentLoop.UnserializedTurnUnpairs`).
- "Exactly one" edge from an entry point is checked as at least one (`AppGraph.TwoTargetsAreValid`); a slug may end
  in a line feed, since the pattern's end anchor allows it (`AppGraph.LineFeedSlugIsValid`).
- Validation accepts graphs on which the middleware walk does not end (`MiddlewareChains.ResolverEndsIff`,
  `MiddlewareChains.ValidGraphMayLoop`).
- Two orchestrator nodes that claim one row leave a node without a row (`CompilerLaws.OneRowEachIffMatchesDistinct`,
  `CompilerLaws.CopiedNodeLosesItsRow`).
- Export is called the inverse of compilation; it loses edges between orchestrators and all middleware wiring
  (`RoundTrip.RowRestoredIff`, `RoundTrip.ExportIsNoInverse`, `RoundTrip.ExportHasNoChains`).
- Admission may exceed its cap when grants and registrations overlap, by exactly the overlap less one
  (`EntryGate.EntryPointSetBounded`, `EntryGate.BoundIsReached`).
- The terminal event can reach a client twice, in exactly one situation (`Relay.AtMostOneTerminal`,
  `Relay.DoneMayComeTwice`).
- The reaper selects overdue submitted tasks but cannot fail them (`TaskStore.Store.Reap`).

## Model

| member | source | states |
|---|---|---|
| Messages.PairedExtendedByExchange | app/temporal/workflows.py:214-222 | a paired conversation stays paired when a tool-use turn and a message answering exactly its ids in order are appended together |
| Messages.PairedConcat | app/temporal/workflows.py:125-128 | a paired conversation followed by another part is paired iff that part is |
| Messages.PairedAtEveryPosition | app/temporal/workflows.py:590-602 | pairing turn by turn is the same as: every results message answers the message right before it, and no tool-use turn dangles |
| Messages.PairedSplit | app/temporal/workflows.py:125-128 | where the second part opens without results, the whole is paired iff both parts are |
| Messages.UseIdsExact | app/temporal/activities.py:194-199 | the ids a turn asks for are those of exactly its tool-use blocks, in order, one for each |
| Messages.ResultIdsExact | app/temporal/activities.py:167-176 | the ids a message answers are those of exactly its result blocks, in order, one for each |
| History.SanitizeHistory | app/temporal/activities.py:157-203 | the two-pass loop with its skip flag computes the recursive specification `Sanitized` |
| History.UnmatchedIsDangling | app/temporal/activities.py:167-199 | with unique tool ids, "some id is answered nowhere" holds of a turn iff the next message does not answer it, rows missing or not |
| History.SanitizedDropsExactlyDangling | app/temporal/activities.py:157-203 | sanitising removes the unanswered tool-use turns and nothing else, iff none of them is followed by an empty turn or by results whose own turn is missing |
| History.SanitizedPairedIff | app/temporal/activities.py:157-203 | the sanitised history is fully paired iff every results message directly follows some tool-use turn |
| History.EmptyTurnAfterDanglingIsLost | app/temporal/activities.py:185-191 | a concrete run: its results row was lost, the next turn is empty, and reloading loses that turn too |
| History.StrayResultsStay | app/temporal/activities.py:167-199 | a concrete run: its assistant row was lost, its results row not, and the reloaded history is not paired |
| History.LoadContextHistory | app/temporal/activities.py:206-255 | the loader returns the sanitised concatenation of the windowed tasks' messages, whose meaning `History.LatestTasksAreLoaded` and `History.ReloadPairedIff` state |
| History.LatestTasksAreLoaded | app/temporal/activities.py:223-255 | of earlier tasks `older + recent`, the recent ones as many as the window says, exactly the messages of the recent ones are loaded, task after task and row after row with their roles, once each of these completed its exchanges; a task without rows stands for its input text |
| History.LoadedConcatenates | app/temporal/activities.py:228-252 | the rows collected are those of the tasks one after another, each task at its own offset, and nothing else |
| History.WindowIsTail | app/temporal/activities.py:223-224 | what the window keeps are the last items, as many as it says, or all if there are no more or it is not positive |
| History.WithoutDanglingExact | app/temporal/activities.py:193-201 | the conversation without unanswered turns is what it holds at exactly the other positions, in order |
| History.WindowBoundsTurns | app/temporal/activities.py:223-226 | at most `window` turns are kept, exactly unless the window is 0 and there are prior turns |
| History.ReloadDropsOnlyDanglingTurns | app/temporal/activities.py:157-255 | as long as no results row is stored without its assistant row, whatever else each of any number of prior runs lost, the reloaded history is fully paired; it is exactly the rows minus the unanswered turns, iff none of these is followed by an empty turn |
| History.ReloadPairedIff | app/temporal/activities.py:157-255 | let prior runs have lost any of their row writes: the reloaded history is fully paired iff every stored results row directly follows a tool-use turn, and is the rows minus the unanswered turns iff none of these is followed by an empty turn or stray results |
| History.PrefixIsCutOff | app/temporal/activities.py:228-237 | whatever row a run stops at, the rows present are those of a cut-off run |
| History.CutOffLosesItsLastTurn | app/temporal/activities.py:177-203 | a cut-off run loses its last turn when that asked for tools, and nothing else |
| History.ReloadOfCutOffRuns | app/temporal/activities.py:157-255 | for any number of runs each cut off after any row, reloading gives exactly their rows minus the dangling turn of each interrupted run |
| History.ReloadIsIdentityIff | app/temporal/activities.py:157-255 | reloading returns the windowed rows unchanged iff every run in the window completed its exchanges |
| History.LegacyReloadPairedIff | app/services/task_runner.py:404-464 | the older loader's history is fully paired iff every run in the window completed its exchanges |
| Compaction.SlimmedExactly | app/temporal/workflows.py:551-578 | slimming touches nothing but the heavy arrays in tool inputs, and there only elides the unlisted fields of objects, the others keeping their order; ids, names and all else stay |
| Compaction.KeptFieldsExact | app/temporal/workflows.py:523-528 | exactly the listed fields of an object are kept, in order, and exactly the other ones' keys are named, in order |
| Compaction.CompactedContents | app/temporal/workflows.py:590-602 | each result keeps its id and is shown as `Compaction.ShownExactly` says; every other block stays |
| Compaction.CompactedObject | app/temporal/workflows.py:522-533 | an object result with a listed field becomes an object of exactly its listed fields in order, and a note naming exactly the others, if there are any |
| Compaction.CompactedArray | app/temporal/workflows.py:535-541 | an array of objects becomes an array of as many objects, each of exactly its listed fields in order |
| Compaction.CompactedPlain | app/temporal/workflows.py:543-548 | any other result (not opening with a brace or bracket, malformed, without a listed field, an array with a non-object) stays as it is up to 2000 characters and is cut short beyond |
| Compaction.ShownExactly | app/temporal/workflows.py:513-548 | the three together, for every text and every reader and writer |
| Compaction.ShownReadsBack | app/temporal/workflows.py:522-541 | with a writer its reader undoes, what is shown of an object or an array parses back to just that |
| Texts.StrippedExactly | app/temporal/workflows.py:520 | stripping removes what is to be dropped at either end and nothing else |
| Texts.JoinConcat | app/temporal/workflows.py:530 | joining: nothing, one word, and two lists of words with the separator between |
| Compaction.TruncatedIsBoundedPrefix | app/temporal/workflows.py:543-548 | a long plain result is cut at its last blank within 2000 characters, or at 2000 when there is none but a leading one, plus the mark; a short one is unchanged |
| AgentLoop.BuildAssistantMessage | app/temporal/workflows.py:581-587 | the planner's copy of an assistant turn asks for exactly the ids of the serialised turn |
| AgentLoop.ResultBlocks | app/temporal/workflows.py:381-384 | results zipped back to the calls answer exactly the calls' ids in order |
| AgentLoop.ResultsMessageExact | app/temporal/workflows.py:590-602 | block k of the results message answers call k with what may be shown of result k, and there are as many as calls or results |
| AgentLoop.PlainAnswerIsShown | app/temporal/workflows.py:543-548 | a plain answer of at most 2000 characters reaches the planner as it is |
| AgentLoop.WithReply | app/temporal/workflows.py:355-366 | a human reply becomes the completed result of every slot that waited for input; all other slots stay |
| AgentLoop.OrchestrationWorkflow.PlanTurn | app/temporal/workflows.py:168-227 | counting the iteration, the budget gate, the planning call, tokens, the assistant turn and its row change the fields as specified, whether planning succeeds, fails or is never reached |
| AgentLoop.OrchestrationWorkflow.HandleResults | app/temporal/workflows.py:342-439 | human pause, results message, row write, and the history cut change the fields as specified, including a failed write and no human reply |
| AgentLoop.OrchestrationWorkflow.Iterate | app/temporal/workflows.py:168-439 | one pass of the loop body is the step function `Turn` |
| AgentLoop.OrchestrationWorkflow.Run | app/temporal/workflows.py:81-461 | the while loop over the workflow's fields computes the recursive specification `Segment` from the carried counters |
| AgentLoop.StepPlans | app/temporal/workflows.py:168-211 | an iteration makes one planning call, with the messages and tokens so far, unless the budget is used up |
| AgentLoop.TurnRecords | app/temporal/workflows.py:212-389 | an iteration that goes on writes the turn and every result in full, human replies in place, while the planner is shown the turn slimmed and each result compacted, in the calls' order |
| AgentLoop.FinalTurnRecorded | app/temporal/workflows.py:212-227 | the turn that answers is written in full and shown slimmed |
| AgentLoop.RunOpens | app/temporal/workflows.py:125-128 | the first planning call sees the reloaded history and then the user's text, which is also row 0 |
| AgentLoop.RunEnds | app/temporal/workflows.py:168-460 | from the outcomes alone: a segment is stopped at the limit, cut, or ended by its last iteration with the status and answer that one gives (budget used up, planning failed, no tool called, no human reply, results not recorded), and no other iteration gives any |
| AgentLoop.CutInTime | app/temporal/workflows.py:422-439 | every planning call of a segment but its first sees at most 200 messages, a segment ends by iteration 50 or with its first one, and it is cut only when one of the limits is reached |
| AgentLoop.FailureStatusExact | app/temporal/workflows.py:445-456 | a failure counts as a cancellation iff it is one by type or its cause contains "cancel" at some position, in any case |
| AgentLoop.RowsNumbered | app/temporal/workflows.py:168-389 | attempted row writes carry 0, 1, 2, … without gap or repeat, however the segment ends |
| AgentLoop.PlansPairedIff | app/temporal/workflows.py:126-389 | in every reachable planning call the messages are fully paired, slimming and compaction included, iff each turn planned before the last call was serialised |
| AgentLoop.StepPairedIff | app/temporal/workflows.py:214-222 | an iteration that goes on keeps the messages paired iff its turn was serialised: the results are appended in either case |
| AgentLoop.SegmentRows | app/temporal/workflows.py:374-389 | whatever history a run was given, the rows it attempts are those of a run |
| AgentLoop.UnserializedTurnUnpairs | app/temporal/workflows.py:214-222 | a concrete run in which serialisation fails once and the second planning call is not paired |
| AgentLoop.NextRunSeesEveryToolUseAnswered | app/temporal/workflows.py:126-389 | end to end: as long as no results row was stored without its assistant row, whatever else earlier runs lost, every planning call of the next run sees each tool use answered, and its own rows are again a run's |
| AgentLoop.NextRunPairedIff | app/temporal/workflows.py:126-389 | with any row writes of earlier runs lost, the next run's planning calls are paired iff every stored results row directly follows a tool-use turn and the run's own turns were serialised |
| AgentLoop.ConversationPairedIff | app/temporal/workflows.py:95-443 | over a whole conversation of runs and their continuations, any row writes lost, an episode's planning calls are paired iff among the rows it reloads every results row directly follows a tool-use turn |
| RunChain.SegmentFollowsStraight | app/temporal/workflows.py:168-439 | a segment does what the uninterrupted loop does from its counters on, and a cut segment made at least one iteration |
| RunChain.ChainIsStraight | app/temporal/workflows.py:95-97 | for every stream of outcomes, any cut points and any reloaded history, the chain of segments has the status, iteration count, tokens and planned turns of one uninterrupted loop |
| RunChain.StraightConserves | app/temporal/workflows.py:171-175 | tokens are the sum of the planned turns and each planned turn starts below the budget |
| RunChain.ChainBudget | app/temporal/workflows.py:209-211 | over a whole chain the total is the sum of the planned turns and stays below the budget plus the last turn |
| RunChain.ChainIterations | app/temporal/workflows.py:168-169 | however many cuts, a chain plans at most max_iterations turns |
| RunChain.LegacyRun | app/services/task_runner.py:796-995 | the older engine's while loop computes the recursive specification `Legacy` |
| RunChain.ChainMatchesLegacy | app/services/task_runner.py:796-995 | where nobody is asked for input and results are recorded, the chain and the older engine agree on iterations, tokens and turns, and on the status iff no planning call that the stream reaches within budget fails as, or worded like, a cancellation |
| RunChain.ModelErrorReadAsCancellation | app/temporal/workflows.py:448-454 | a concrete stream on which they differ: one model error whose text contains "cancel" |
| RunTree.RunTreeIsBounded | app/temporal/workflows.py:242-273 | even with cyclic delegation the depth never exceeds 3 and at most 1 + Ic + (Ic)² + (Ic)³ workflows run |
| RunTree.GreedyRun | app/temporal/workflows.py:242-273 | the bound is reached by orchestrators that always delegate |
| RunTree.RunStartsExactly | app/temporal/workflows.py:242-273 | iteration by iteration until none is planned or the limit is reached, one workflow per call of a sub-orchestrator, in order, under that name and one level down, and none below depth 3 |
| AppGraph.CheckEntryPoints | app/services/app_compiler.py:81-99 | reports an entry-point violation that the graph has, and none only if there is no entry point missing, malformed or repeated |
| AppGraph.ValidateGraph | app/services/app_compiler.py:64-119 | accepts only graphs free of every violation and rejects only with a violation the graph has, so it accepts exactly the valid ones |
| AppGraph.TwoTargetsAreValid | app/services/app_compiler.py:101-108 | a concrete graph whose entry point leads to two orchestrators is accepted |
| AppGraph.LineFeedSlugIsValid | app/services/app_compiler.py:52-91 | a concrete graph whose slug ends in a line feed is accepted |
| AppGraph.SlugMatchesIff | app/services/app_compiler.py:54 | a slug is 1 to 64 characters of the class, or those and one line feed |
| AppGraph.NodeByIdIsLast | app/services/app_compiler.py:67 | of several nodes with one id the last is found |
| AppGraph.AgentWalk.Visit | app/services/app_compiler.py:131-151 | the recursive closure mutating `visited` and `agent_ids` computes the specification `WalkNode` and ends on any graph |
| AppGraph.ResolveAgentsForOrch | app/services/app_compiler.py:124-154 | the resolver returns the specification's list |
| AppGraph.WalkNodeSound | app/services/app_compiler.py:133-151 | whatever the walk adds is reached from the node walked |
| AppGraph.WalkNodeComplete | app/services/app_compiler.py:133-151 | every newly visited node has all it leads to recorded |
| AppGraph.ResolveAgentsExact | app/services/app_compiler.py:124-154 | on cyclic graphs too, the list has no duplicates and holds exactly the agents reachable by a path through middleware and orchestrators |
| AppGraph.DelegationContains | app/services/app_compiler.py:149-150 | a delegating orchestrator's agents include each child's |
| MiddlewareChains.FollowChain | app/services/app_compiler.py:173-195 | the inner loop returns the wirings of the chain, whenever the chain ends |
| MiddlewareChains.ResolveMwChains | app/services/app_compiler.py:157-197 | the resolver returns the wirings of each edge's chain in edge order, whenever the chains this orchestrator enters end |
| MiddlewareChains.ChainIsPath | app/services/app_compiler.py:171-193 | the chain followed is a path of middleware nodes and the agent reported is offered by its last node |
| MiddlewareChains.ReportedChainIsReal | app/services/app_compiler.py:157-197 | each reported chain has positions 0..n-1 along a real path from the orchestrator through middleware to one agent, which the agent resolver also finds |
| MiddlewareChains.ReportedIff | app/services/app_compiler.py:171-195 | an edge into middleware is reported iff first edges lead along middleware to an agent with an id, and then with one wiring per chain node, in order, with that node's definition and that agent |
| MiddlewareChains.ChainToEnds | app/services/app_compiler.py:173-195 | where first edges lead to an agent node, the walk ends, has followed exactly these nodes, and found that agent |
| MiddlewareChains.ChainEndsIff | app/services/app_compiler.py:173-195 | the walk from a node ends iff it ends within as many steps as there are nodes, and one |
| MiddlewareChains.ResolverEndsIff | app/services/app_compiler.py:166-195 | the resolver returns for an orchestrator iff each chain its edges enter ends within that many steps |
| Compiler.WiringEndsIff | app/services/app_compiler.py:443-447 | rewiring returns iff that holds of every orchestrator node |
| MiddlewareChains.RankedChainsEnd | app/services/app_compiler.py:173-195 | where a rank falls along middleware edges, the resolver returns for every orchestrator |
| MiddlewareChains.ReturningChainNeverEnds | app/services/app_compiler.py:173-195 | a walk that comes back to its start never ends |
| MiddlewareChains.ValidGraphMayLoop | app/services/app_compiler.py:64-119 | a concrete graph that validation accepts and on which the resolver does not return |
| MiddlewareChains.UnenteredLoopIsHarmless | app/services/app_compiler.py:157-197 | a concrete valid graph with a middleware cycle no orchestrator enters, on which it does |
| OrchNames.GenerateOrchName | app/services/app_compiler.py:534-551 | the allocation loop computes `OrchName`, the first free candidate or an error |
| OrchNames.OrchNameFresh | app/services/app_compiler.py:534-551 | an allocated name is not in use and well formed |
| OrchNames.WellFormedNameKept | app/services/app_compiler.py:537-543 | a well-formed free proposal is allocated unchanged |
| OrchNames.ProposedName | app/services/app_compiler.py:537-543 | a proposed name is taken without the blanks around it and in lower case, or refused as malformed or taken |
| OrchNames.UnproposedName | app/services/app_compiler.py:544-551 | otherwise the base name if it is free, else the first free of ten candidates, and an error iff all are taken |
| OrchNames.CleanHintKept | app/services/app_compiler.py:544 | a slug with a letter or digit at either end is its own base name, up to 55 characters |
| OrchNames.EmptyHintGivesDefault | app/services/app_compiler.py:544 | a hint without a letter or digit gives the default |
| OrchNames.SlugifiedAt | app/services/app_compiler.py:544 | what a slug cannot hold becomes a dash in its place |
| Compiler.MatchExact | app/services/app_compiler.py:278-282 | the node id takes precedence, of several rows with it the last loaded; the row id sent along counts only when no row has the node id; else nothing matches |
| Compiler.OrchTargetIsFirst | app/services/app_compiler.py:360-366 | of an entry point's edges to orchestrators the first in edge order counts |
| Compiler.Application.UpsertOrchestrators | app/services/app_compiler.py:257-338 | the upsert loop leaves the rows, the node lookup and the flush list the specification computes, or its error |
| Compiler.Application.DeleteOrchestrators | app/services/app_compiler.py:342-346 | deletes exactly the loaded rows whose node is gone and lists their names |
| Compiler.Application.UpsertEntryPoints | app/services/app_compiler.py:352-431 | rebinds existing slugs, adds new ones and deletes the rest, or reports the binding error |
| Compiler.Application.ReplaceWirings | app/services/app_compiler.py:437-464 | the wirings become those of the current chains that have a definition and an agent, whenever the chains entered end |
| Compiler.Application.CompileGraph | app/services/app_compiler.py:202-467 | the whole compilation in its order: conflicts, upsert, delete, bind, delete, rewire; only a compilation that gets as far as rewiring needs the chains to end |
| CompilerLaws.UpsertNodeEffect | app/services/app_compiler.py:275-338 | one upsert changes only the target row; a matched row keeps its name, a new one gets a fresh name |
| CompilerLaws.ValidGraphsBind | app/services/app_compiler.py:360-371 | on a graph validation accepts, compilation never raises its two binding errors and fails iff a slug, an agent or a name is refused |
| CompilerLaws.IncrementalIsFresh | app/services/app_compiler.py:257-346 | from any rows, when nodes match distinct ones, the final node, agents and delegatable triples are those the graph alone determines, one row per node and none left over |
| RowLaws.CompiledRowsExact | app/services/app_compiler.py:269-346 | under the same conditions each orchestrator node has one row, delegatable iff an edge leads to the node from an orchestrator node, its agents exactly those reachable, each once, and there is no other row |
| RowLaws.ChildIsDelegatable | app/services/app_compiler.py:269-289 | a concrete compilation of one orchestrator leading to another: the row of the one led to becomes delegatable and the other's no longer is |
| CompilerLaws.OneRowEachIffMatchesDistinct | app/services/app_compiler.py:279-285 | the condition is exact: every node has its own row iff no two nodes match one row |
| CompilerLaws.CopiedNodeLosesItsRow | app/services/app_compiler.py:278-285 | a concrete valid graph whose two nodes carry one row's id: it compiles, and a node is left without a row |
| CompilerLaws.CompiledSlugs | app/services/app_compiler.py:352-431 | entry-point rows are the graph's slugs exactly, each bound to the row of the node its edge leads to |
| CompilerLaws.CompilationsAgree | app/services/app_compiler.py:202-467 | compiling into a running application and into an empty one gives the same nodes, agents and slug bindings |
| CompilerLaws.NamesAndFlushList | app/services/app_compiler.py:294-346 | names stay globally distinct, surviving rows keep theirs, and the flush list names every row created, updated or deleted |
| RowLaws.FlushListExact | app/services/app_compiler.py:293-346 | the names returned are, for each node in order, that of the row it ended up in, and then those of exactly the rows deleted, in load order |
| RowLaws.RefusedIff | app/services/app_compiler.py:227-255 | compilation is refused for a slug iff another application has it, and for an agent iff not and one is missing or disabled |
| RowLaws.NewRowNamed | app/services/app_compiler.py:297-301 | a new row without a proposed name is named after its display name or, for want of one, its node |
| RowLaws.OfKindExact | app/services/app_compiler.py:222-224 | the nodes of a kind are taken in the graph's order, each as often as it is there |
| RowLaws.AllWiringsExact | app/services/app_compiler.py:437-464 | the wirings are what the resolver finds for the orchestrators in the graph's order, edge by edge, without exactly those that lack a definition or an agent |
| Exporter.ExportGraph | app/services/app_compiler.py:556-651 | the export loops compute the specification `Exported` |
| Exporter.ExportedNodes | app/services/app_compiler.py:571-645 | the nodes drawn are exactly those of orchestrators, listed agents, entry points and middleware rows with a node id |
| Exporter.ExportedData | app/services/app_compiler.py:571-645 | the nodes drawn carry the row's id, name, agent, slug, type and definition |
| Exporter.ExportedLookup | app/services/app_compiler.py:571-645 | when the ids of drawn nodes do not collide, looking one up finds the node drawn for it |
| RoundTrip.ExportValidIff | app/services/app_compiler.py:556-651 | an export passes validation iff there is an entry point, slugs and types are valid, every entry point is bound and every orchestrator has a bound entry point |
| RoundTrip.ExportResolves | app/services/app_compiler.py:594-606 | the compiler derives from the export exactly each row's agent sequence |
| RoundTrip.ExportNotDelegatable | app/services/app_compiler.py:571-606 | nothing in an export is delegatable |
| RoundTrip.ExportHasNoChains | app/services/app_compiler.py:633-645 | compiling an export yields no middleware wiring |
| RoundTrip.ExportThenImport | app/services/app_compiler.py:556-651 | compiling an export into an empty application succeeds and restores node id, name, the exact agent sequence, slugs, types and bindings |
| RoundTrip.RowRestoredIff | app/services/app_compiler.py:556-651 | a row comes back unchanged iff it was not delegatable |
| RoundTrip.ExportIsNoInverse | app/services/app_compiler.py:562-565 | a concrete application meeting every condition of the round trip does not come back as it was |
| EntryGate.SessionStore.GateScript | app/services/runtime_manager.py:53-65 | the pruning loop, cap check and add are the protocol's gate step; the answer is the new size, or -1 on denial |
| EntryGate.SessionStore.RuntimeGate | app/services/runtime_manager.py:204-218 | the gate's entry-point part is the gate step, or the pass step without a cap; the caller is admitted iff granted, else queued or rejected |
| EntryGate.SessionStore.Register | app/services/session_manager.py:80-87 | an uninterrupted registration is the protocol's two register steps |
| EntryGate.SessionStore.End | app/services/session_manager.py:113-115 | an uninterrupted deregistration is the protocol's two end steps, also after a registration that failed half-way |
| EntryGate.WaitForSlot | app/routers/apps.py:603-616 | the queue loop checks the deadline before each three-second sleep, so it makes at most one try more than fit; it stops at the first grant and gives up only past the deadline with no grant |
| EntryGate.StepKeepsBound | app/services/runtime_manager.py:53-65 | every step keeps members plus unregistered grants within cap + k - 1 while at most k grants are unregistered |
| EntryGate.EntryPointSetBounded | app/services/runtime_manager.py:53-107 | over every interleaving of gate, register, end, expiry and crash, under caps of at most `cap` and with at most k unregistered grants, neither the set nor the live sessions exceed cap + k - 1 |
| EntryGate.CapHoldsWithoutOverlap | app/services/session_manager.py:56-127 | when grants and registrations do not overlap the cap itself holds |
| EntryGate.GateVerdicts | app/services/runtime_manager.py:53-65 | in any state a grant leaves at most cap members, and a denial means at least cap members, all with live hashes |
| EntryGate.GateExact | app/services/runtime_manager.py:53-65 | members without a hash go, all others stay, and the caller comes in iff fewer than the cap are left or there is no cap |
| EntryGate.RegisterThenEnd | app/services/session_manager.py:80-115 | a session registered and ended leaves nothing behind and touches no other |
| EntryGate.BoundIsReached | app/services/runtime_manager.py:53-65 | for every cap and every k some interleaving reaches cap + k - 1 live sessions |
| TaskStore.Store.CreateTask | app/services/task_store.py:58-105 | a new task is submitted with no tokens; an existing id is not overwritten |
| TaskStore.Store.TransitionTask | app/services/task_store.py:112-164 | field by field, the update is applied iff the table allows the move; an unknown id yields nothing |
| TaskStore.TransitionExact | app/services/task_store.py:112-164 | a move is made iff the task is in one of the target's source states; then each field given replaces the old one and each absent one is kept; no other task changes |
| TaskStore.NoShortCuts | app/services/task_store.py:24-34 | in one step only a working task completes, fails or waits, only a submitted one is rejected, and a waiting one ends only by cancellation |
| TaskStore.Store.AddTokensUsed | app/services/task_store.py:286-303 | adds to one task's count and changes nothing else |
| TaskStore.Store.Push | app/routers/a2a_server.py:673-692 | a push is refused, ignored or applied as the task's owner and state say |
| TaskStore.Store.Reap | app/main.py:123-136 | a pass fails exactly the overdue working tasks, leaves none of them, and changes nothing else, overdue submitted tasks included |
| TaskStore.TaskPersists | app/services/task_store.py:24-34 | over any interleaving a task never disappears, its states follow the table and its deadline stays |
| TaskStore.TerminalIsFrozen | app/services/task_store.py:127-144 | once terminal, a task's state, error, message and remote id never change again, so at most one terminal state is entered |
| TaskStore.ReachesIff | app/services/task_store.py:24-34 | which states some interleaving leads to from which, exactly |
| TaskStore.TokensConserved | app/services/task_store.py:286-303 | a count is the sum of what accepted calls charged and never falls while usage is not negative |
| TaskStore.ReaperMeetsOthers | app/main.py:125-136 | whatever others do between selection and transition, the reaper fails only an overdue working task and leaves none it handled working |
| TokenCache.TokenCache.L1Get | app/services/token_cache.py:41-46 | answers with an unexpired entry and drops any other |
| TokenCache.TokenCache.L1Set | app/services/token_cache.py:49-50 | stores the payload for 300 seconds |
| TokenCache.TokenCache.L2Get | app/services/token_cache.py:68-77 | answers with an unexpired shared entry; an unavailable store answers nothing |
| TokenCache.TokenCache.Validate | app/services/token_cache.py:133-180 | the method is an undisturbed run of the protocol's steps for its token and touches no other token |
| TokenCache.TokenCache.Invalidate | app/services/token_cache.py:183-186 | removes the token from both levels and nothing else |
| TokenCache.ServedFromDatabase | app/services/token_cache.py:152-180 | with both levels missing, an undisturbed validation answers the enabled row of an active user and fills both levels, else answers nothing |
| TokenCache.ServedFromL1 | app/services/token_cache.py:140-144 | with a live entry of its own a replica answers it if enabled and changes nothing |
| TokenCache.ServedFromL2 | app/services/token_cache.py:146-150 | with a live shared entry only, it answers that if enabled and keeps a copy for 300 seconds |
| TokenCache.AcceptedIsEnabled | app/services/token_cache.py:133-180 | over every interleaving, whatever is accepted is enabled |
| TokenCache.AcceptedIsRecent | app/services/token_cache.py:133-180 | with any number of replicas, any interleaving and store outages, a payload accepted at t was the database row after t - 600 s, less twice the time a read may take to reach a cache |
| TokenCache.BoundIsTight | app/services/token_cache.py:49-50 | for every delay no smaller bound holds: some run accepts a payload the database dropped 600 s and twice the delay minus any slack earlier |
| TokenCache.InvalidationTakesHold | app/services/token_cache.py:183-186 | after an invalidation with no validation under way, its replica at once, and every replica after 300 s, accepts only rows the database held since |
| TokenCache.ValidationAfterInvalidation | app/services/token_cache.py:133-186 | the next validation there accepts exactly the enabled row of an active user |
| RateLimit.RateLimiter.CheckRateLimit | app/services/rate_limiter.py:23-49 | an uninterrupted check is the protocol's ask, increment and expiry steps with their verdict; a limit of 0 or less changes nothing |
| RateLimit.CheckCounts | app/services/rate_limiter.py:34-49 | such a check raises its own counter by one, sets the expiry on the first, allows iff the count is within 60 * rpm, and touches no other counter |
| RateLimit.NeverRestarts | app/services/rate_limiter.py:13-15 | a counter with the 7200 s expiry never restarts while requests of its slot can still reach it |
| RateLimit.SlotLimit | app/services/rate_limiter.py:34-49 | of a user's requests in a slot, at most 60 * rpm with a limit up to rpm are admitted, whatever limits other requests on the counter have |
| RateLimit.SlotAdmitsExactly | app/services/rate_limiter.py:34-49 | with one limit, exactly the lesser of all requests and 60 * rpm are admitted |
| RateLimit.HourLimit | app/services/rate_limiter.py:18-49 | at most 120 * rpm are admitted in any half-open interval of 3600 s |
| Poll.Normalize | app/adapters/a2a_async_adapter.py:311-328 | normalising fills in exactly the missing snake-case media types and keeps everything else |
| Poll.NormalizeOnce | app/adapters/a2a_async_adapter.py:311-328 | normalising again changes nothing |
| Poll.ExtractText | app/adapters/a2a_async_adapter.py:331-343 | the loops compute the joined text that `Poll.TaskTextExact` describes |
| Poll.TaskTextExact | app/adapters/a2a_async_adapter.py:331-343 | the text is that of all artifacts' text parts one after another in order, each at its own offset and nothing else, or, if no artifact has a text part, of the status message's |
| Texts.JoinConcatenates | app/adapters/a2a_async_adapter.py:343 | joined without a separator, texts stand one after another, each at its own offset |
| Poll.Report | app/adapters/a2a_async_adapter.py:171-182 | one round reports a changed state and the artifacts seen in no earlier reply, and remembers both |
| Poll.PollEvents | app/adapters/a2a_async_adapter.py:144-194 | the polling loop yields its rounds and then a last event or a failure as specified, with that many polls |
| Poll.StreamInvoke | app/adapters/a2a_async_adapter.py:269-308 | submission, polling and failures become one stream |
| Poll.EachOnce | app/adapters/a2a_async_adapter.py:155-182 | for every sequence of replies no state is reported twice running, and the artifact keys reported are exactly those of all replies polled, each once |
| Poll.ExactlyOneTerminal | app/adapters/a2a_async_adapter.py:269-308 | every stream ends in its one and only done or error, and opens with the task's id once accepted |
| Poll.DoneIff | app/adapters/a2a_async_adapter.py:184-192 | the stream ends in done iff a reply before the deadline completes the task with polling not ended earlier; the text it carries is stated by `Poll.LastEventExact` |
| Poll.LastEventExact | app/adapters/a2a_async_adapter.py:144-194 | from the replies alone: the last event is that of the first round past the deadline, without an answer, in a terminal state or cut off while sleeping, with its reason, or with the text its task says |
| Poll.StreamFromReplies | app/adapters/a2a_async_adapter.py:171-182 | in between stand exactly the changes of state, each once with its flag, and artifacts as they first came, normalised |
| Poll.KeysByExact | app/adapters/a2a_async_adapter.py:178-182 | the keys seen are those of the artifacts in the replies |
| Poll.SameKeyIff | app/adapters/a2a_async_adapter.py:179 | artifacts count as the same by id if either has one, else by index |
| Poll.RefusalIsReported | app/adapters/a2a_async_adapter.py:282-308 | a refused submission is reported with its reason and nothing else |
| Poll.PollsBounded | app/adapters/a2a_async_adapter.py:151-160 | at most ceil(limit / interval) polls are sent when each round takes the interval |
| Relay.Open | app/temporal/bridge_client.py:194-223 | the first phase ends with the run to read or with the one error that says why not |
| Relay.Reader | app/temporal/bridge_client.py:229-247 | the reader's loop relays until a terminal event, a failed emit or a cancellation, or until the result overtakes it; what it sent is stated by `Relay.TranscriptExact` |
| Relay.EmitFinal | app/temporal/bridge_client.py:264-278 | the event made from the workflow's result, with one more attempt when emitting it fails |
| Relay.StreamRunEvents | app/temporal/bridge_client.py:190-280 | the whole function computes the transcript that `Relay.TranscriptExact` and `Relay.FailedOpeningReason` describe |
| Relay.TranscriptExact | app/temporal/bridge_client.py:194-278 | a started run's client gets ready, then the events of exactly the data messages read before the reader stopped or was overtaken, in order and each once, then the report with its run, task, count or error, if the result came in time |
| Relay.StartedIff | app/temporal/bridge_client.py:194-223 | a run is started iff a ready event with a run id comes before any message past the deadline and can be passed on |
| Relay.FailedOpeningReason | app/temporal/bridge_client.py:194-223 | the error of a run that is not started names the deadline that passed or the missing run id |
| Relay.AtMostOneTerminal | app/temporal/bridge_client.py:225-278 | after ready at most one done or error arrives, and it is last, iff the result did not cut the reader off inside the emit of a delivered terminal event and was then reported |
| Relay.ExactlyOneTerminal | app/temporal/bridge_client.py:225-278 | exactly one arrives, last, when emits succeed, nothing is cancelled and the listener outlasts the race, that case apart |
| Relay.SilentIff | app/temporal/bridge_client.py:229-278 | when no terminal event arrives at all, exactly |
| Relay.FailedOpeningIsReportedOnce | app/temporal/bridge_client.py:194-223 | a run that never opens is reported by exactly one error |
| Relay.DoneMayComeTwice | app/temporal/bridge_client.py:249-278 | the exception is real: done can be delivered twice |

## Left out

- Temporal's replay, retries and heartbeats: an activity is one outcome, continue-as-new restarts the loop with its carry, and the orchestrator's configuration does not change along a chain.
- Failures before the loop starts (loading the context, creating the run): no message or row exists yet.
- AgentLoop.PlansPairedIff: assumes the provider reports exactly the tool calls its serialised turn contains, as message maps of the Anthropic shape do; other providers' serialisers are not part of this model.
- AgentLoop.ConversationPairedIff: the earlier episodes' tool-calling turns were serialised, so each of their results rows had an assistant row when it was attempted; tool ids are globally unique over what was attempted in the window.
- AgentLoop.OrchestrationWorkflow.HandleResults: the ten-minute wait raises in the source and is caught further out; both end the run as failed, and error texts are not modelled.
- RunTree.RunTreeIsBounded: the runs' planned calls are a parameter, so what the planner is told by child results does not matter to the bound.
- RunChain.LegacyRun: reads the token count from its own variable, where the source reads it back from the task row; exceptions outside a model error end the run as failed in both.
- Context summaries, injected memory, usage records and cost totals: none of them influences control flow, and the workflow never updates its cost.
- Texts: blank removal and lower-casing cover ASCII only.
- Compiler: display names, prompts, models, keys, policies and the other configuration columns are copied, not computed, and are left out; so are a wiring's configuration override and an agent id that is no UUID, which is treated like an unavailable agent.
- MiddlewareChains.ResolveMwChains: proved where every chain the orchestrator enters ends, since on other graphs the source does not return.
- CompilerLaws.IncrementalIsFresh: assumes the loaded rows have one row per node id, as the rows of one application do, and node ids distinct within the graph, which validation does not check.
- RoundTrip.ExportThenImport: assumes that the ids of drawn nodes do not collide and that the importing side has the agents enabled and the slugs and names free; proposals that need trimming are covered by OrchNames only.
- SQLAlchemy sessions, cascades and rolled-back commits: tables are maps, each store call is atomic, and after an error the caller does not commit.
- EntryGate: an unavailable store admits everyone in the source and is not modelled; nor are the soft application cap, blocked users and tokens, and `touch`, which nothing calls.
- EntryGate.WaitForSlot: the store's verdicts are a parameter, because other sessions act between tries.
- TokenCache: one token's protocol is modelled with real time and a common clock; whether the user is active is an oracle, and hashing, expiry dates checked by callers and the last-used stamp are left out.
- RateLimit: an unavailable store allows every request in the source; replicas are taken to share a clock, and INCR to arrive within an hour of reading it.
- TaskStore: artifacts, messages, events published and the context count are left out; a transition that reads and writes the row is atomic here.
- Poll: requests, headers and message building are input and output; the streaming variant over server-sent events is left out, being the same terminal handling without a bound on rounds.
- Poll.PollEvents: error texts are kept as data rather than formatted, and the overall timeout can strike while waiting for a reply or sleeping, not while the consumer holds an event.
- Relay: a missing store (waiting for the result only), unsubscribing, and closing the channel; an emit that fails is taken to deliver nothing.
- Cache and guard middleware, voice, WebRTC, the frontend, authentication and the CRUD routers: input and output, or checks that stand alone.

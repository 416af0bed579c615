# Verified core of the graph orchestrator

Dafny models of six components of the orchestrator, and proofs of what each is for. Every
file verifies together with the others (`dafny verify dfyconfig.toml`).

**Projection provenance** (`FlowAnalysis`, `FlowSoundness`, `FlowGuarantees`, `FlowFallbacks`,
`FlowEndings`, `FlowClaims`, `FlowPrecision`, `FlowCollector`, `FlowEvaluator`, `FlowProgram`). The analyser follows graph projections through a Python program: abstract
states map names to "definite" or "possible", and each statement emits the states of the five
ways control can leave it. `FlowAnalysis` is the analysis; `FlowSoundness` gives the statement
language a concrete semantics, in which any evaluation and any import may raise and any node of
an expression may be observed while it is evaluated, and proves that the analysis accounts for
every run as long as no import stands under a `with`, before a handler or before a `finally`.
Loops are analysed once by the code, so for them the hypothesis is that a second look adds
nothing; programs without loops need no hypothesis, and a loop for which one look is too
little is given. "Definite" means: if the name is bound, it is bound to a projection.
`FlowEndings` and `FlowPrecision` bound the analysis from the other side. From control flow alone
it is told which ways out a statement has, and the analysis emits states for just these; code
that cannot be reached adds neither states nor facts. And every question about the result, such
as whether a name may hold a projection or whether there is a fact at a place, is carried
backwards along single control paths: the analysis, with all its merges, gives the same answer.
`FlowCollector` has the states as objects that are updated in place, `FlowEvaluator` the loops
of the evaluation and its one dictionary of facts.

**Event dispatch** (`EventDispatch`, `DispatchReports`, `DispatchPaths`, `DispatchWalk`,
`DispatchChains`). Which event types does `reduce_event` handle? The analysis keeps a set of included and one of excluded event types, and walks
helper functions with a memo set. The concrete side is the set of ways a function can end for
one event type, opaque tests going either way. `DispatchPaths` tells the analysis with sets of
event types in place of symbolic constraints, and `DispatchChains` follows chains of helpers: the
walk reports exactly what is credited along them, and whatever event type real runs hand on.

**Annotation walk** (`AnnotationWalk`). A depth-first walk over a cyclic type graph that turns
back at models and aliases active on the current path; it reports exactly the mutable
annotations that can be reached.

**Scoped documents** (`Outline`, `OutlineParser`, `ContextPacket`, `HeadingTags`,
`PacketContents`, `PacketWriter`). A stack parser builds a heading tree in linked objects; an extractor cuts it
down to the sections tagged for one step, with bare headings as breadcrumbs.

**Artifacts** (`ArtifactDisk`, `ArtifactStore`, `ArtifactProtocol`, `ArtifactProtocolLimits`,
`ArtifactProgress`, `ArtifactCollect`, `ArtifactSweep`). A content-addressed store whose range reads trust a checkpoint instead of
hashing again, with others acting on the disk between any two file operations; and the
protocol of publishers, run deletions and collectors around one exclusive lock. The hash is an
arbitrary function. A file identity is the number of the write that made the file, so it is
never shared by two contents.

**Web sockets** (`Throttle`, `ThrottleSends`, `ThrottleSubscriptions`, `ThrottleLists`,
`ConnectionManagers`, `Batching`, `BatchOutcomes`, `BatchingManager`, `BatchDelivery`). Step
machines for throttled and for batched broadcasts, a step being what happens between two
awaits; the classes do what the machines do. Time is counted in ticks.

**Two algorithms** (`ChildrenFirst`; `HomeNames`, `HomePaths`, `JsonPointers`, `Sanitizer`). The
children-before-parents order of runs, and the JSON sanitizer with its change log (pointers
after RFC 6901, byte lengths after RFC 3629).

Several promises hold only under a condition; each such place has the condition and a lemma
with an input beyond it:

- The provenance analysis of an assignment is right exactly if the value is followed once the
  target has been forgotten, which leaves out `x = x` and conditional values
  (`FlowSoundness.AssignmentIsSoundExactly`).
- An import that fails has no raised path in the analysis. A handler run on a failed import is
  not looked at: a projection it makes has no fact (`FlowGuarantees.FallbackGoesUnrecorded`). What
  is missed is what the analysis of the handlers would record
  (`FlowFallbacks.MissedIsWhatHandlersRecord`); for handlers that evaluate an expression, something
  is missed exactly if a node of one may yield a projection (`FlowFallbacks.FallbackIsMissedExactly`).
- One pass over a loop body loses a projection that one round hands to the next
  (`FlowGuarantees.SinglePassLosesCarriedProjection`).
- A membership test is read off its string literals, which is right exactly if it has nothing
  but string literals (`EventDispatch.OnlyLiteralsExactly`); a failing return in front of a
  dispatching branch makes the walk report a type that no run handles
  (`EventDispatch.EarlyFailureIsMisreported`). A branch's report is real exactly if, in the
  blocks around it, some way leads past what could fail (`DispatchReports.ReportIsRealExactly`).
- A packet keeps the nesting exactly if the headings, without their tags, are still nested
  (`ContextPacket.PacketsKeepNestingExactly`). The heading `# <!-- steps: ALL -->` is none without
  its tag and is lost (`HeadingTags.HeadingLostWithItsTag`); one with hashes after the tag sinks
  a level (`HeadingTags.HeadingSinksWithItsTag`).
- The code verifies a blob and then stats it separately. The model takes both as one step;
  taken apart, the checkpoint is honest exactly if the blob still fits at the second
  (`ArtifactDisk.LateStatIsHonestExactly`, `ArtifactDisk.LateStatBlessesAnything`).
- `collect` marks before it takes the lock and can lose a referenced blob, whatever the grace
  period; so can a store that two projects share (`ArtifactProtocolLimits.EarlyMarksDangle`,
  `ArtifactProtocolLimits.SharedRootDangles`): without `collect`, nothing dangles exactly if all runs
  are of one project (`ArtifactProtocolLimits.SafeExactlyForOneProject`). `collect` is safe exactly if, when it takes the
  lock, its marks cover all references to blobs older than the cutoff
  (`ArtifactCollect.CollectIsSafeExactly`).
- The throttle spaces stamps, which are taken before the sends. If broadcasts wait at most some lag
  before they send, sends are apart by what the lag leaves of the interval, and by no more
  (`ThrottleSends.SendsApartExactly`). It holds for a client that was not forgotten meanwhile,
  which a client of one run is not between its connect and its disconnect
  (`ThrottleSubscriptions.SubscribedIsRemembered`); a client on two runs is forgotten when it
  leaves one of them (`Throttle.TwoRunsBunch`).
- The throttle can drop a whole batch for a client. The batch of a run's own timer reaches every
  client of that run alone if the window is no shorter than the interval
  (`BatchDelivery.OwnBatchesReachAll`); that of a timer which lost its run to a flush can be lost
  (`BatchDelivery.OrphanedBatchIsLost`).
- The order of runs is a permutation of the input exactly if the ids are distinct
  (`ChildrenFirst.PermutationExactly`).
- The sanitizer's doc comment speaks of the byte length; it is kept exactly if the user names
  are ASCII (`HomeNames.BytesKeptExactly`), and a pointer reads back as its path except at the
  root (`JsonPointers.DecodesExactly`).

## Model

| member | source | states |
|---|---|---|
| FlowSoundness.BlockSound | scripts/graph_projection_boundary_provenance.py:753-977 | Every concrete run of a block from an environment the entry state covers, other than one that ends at a failed import, ends in an environment that some state of its kind covers, and every observation of a projection on the way is recorded |
| FlowSoundness.StmtSound | scripts/graph_projection_boundary_provenance.py:769-977 | The same for any one statement, through all its ways of leaving |
| FlowSoundness.LoopStmtSound | scripts/graph_projection_boundary_provenance.py:835-882 | One pass over a loop covers runs of any number of rounds when a second pass adds nothing; break skips `else`, continue and exhaustion reach it |
| FlowSoundness.LoopSound | scripts/graph_projection_boundary_provenance.py:835-882 | The last round of a run of any length starts covered by the loop's own exit states |
| FlowSoundness.RoundSound | scripts/graph_projection_boundary_provenance.py:835-882 | One more round from the loop's joined exit is accounted for by the single pass |
| FlowSoundness.LastRoundSound | scripts/graph_projection_boundary_provenance.py:835-882 | The last round and the `else` block end in covered environments of the right kind |
| FlowSoundness.WithSound | scripts/graph_projection_boundary_provenance.py:883-906 | A `with` covers runs in which any manager entered so far swallows an exception |
| FlowSoundness.EntrySound | scripts/graph_projection_boundary_provenance.py:883-906 | Entering the managers one by one, each may raise before or after its target is bound |
| FlowSoundness.GuardedSound | scripts/graph_projection_boundary_provenance.py:925-968 | Body, `else` and handlers of a `try` cover every run up to its `finally`, if the body has no import |
| FlowSoundness.FinallySound | scripts/graph_projection_boundary_provenance.py:925-968 | A `finally` block covers runs in which it overrides a pending return, raise, break or continue, and runs in which it lets it through |
| FlowSoundness.IfSound | scripts/graph_projection_boundary_provenance.py:769-977 | Both branches and a raising test are covered |
| FlowSoundness.AssignSound | scripts/graph_projection_boundary_provenance.py:602-631 | An assignment covers the binding made, and raising before or after it |
| FlowSoundness.AssignmentIsSoundExactly | scripts/graph_projection_boundary_provenance.py:602-631 | Assigning keeps the claims right in all states, environments and values exactly if the value is followed without the target, which is cleared first |
| FlowSoundness.CertaintyAgrees | scripts/graph_projection_boundary_provenance.py:291-354 | Absent means no projection and definite means a projection, for every value a followed expression can take |
| FlowSoundness.ObservationsRecorded | scripts/graph_projection_boundary_provenance.py:498-600 | No node of a followed expression yields a projection without a recorded fact |
| FlowSoundness.ClearCovers | scripts/graph_projection_boundary_provenance.py:213-224 | Forgetting a name is right after it was deleted or bound to anything that is no projection |
| FlowSoundness.MergeCovers | scripts/graph_projection_boundary_provenance.py:999-1053 | A merge covers whatever one of its branches covers |
| FlowSoundness.PossibleCovers | scripts/graph_projection_boundary_provenance.py:438-448 | The weakened state still covers |
| FlowSoundness.JoinAccounts | scripts/graph_projection_boundary_provenance.py:455-461 | Joined outcomes account for what any one of them does, kind by kind |
| FlowSoundness.AddsNothingAccounts | scripts/graph_projection_boundary_provenance.py:450-461 | Outcomes to which others add nothing account for all the others do |
| FlowGuarantees.LoopFreeSound | scripts/graph_projection_boundary_provenance.py:753-977 | Programs without loops, and without imports under guards, are covered with no hypothesis on states |
| FlowGuarantees.NoProjectionGoesUnrecorded | scripts/graph_projection_boundary_provenance.py:140-155 | From the empty state, every place where some run sees a projection gets a fact, if no import stands under a `with`, before a handler or before a `finally` |
| FlowGuarantees.ImportHandlersAreIgnored | scripts/graph_projection_boundary_provenance.py:925-968 | The handlers of a `try` whose body only imports make no difference to the analysis |
| FlowGuarantees.TriedImportIsCoveredExactly | scripts/graph_projection_boundary_provenance.py:769-772 | A step: in `try: from m import x`, what goes unrecorded is what the handlers see |
| FlowGuarantees.FallbackGoesUnrecorded | scripts/graph_projection_boundary_provenance.py:769-772 | A program whose fallback for a failed import makes a projection: a run sees it, and there is no fact |
| FlowFallbacks.MissedIsWhatHandlersRecord | scripts/graph_projection_boundary_provenance.py:925-968 | In `try: from m import x`, every projection a run sees is one that the handlers, analysed from the entry state, would have recorded |
| FlowFallbacks.SilentHandlersMissNothing | scripts/graph_projection_boundary_provenance.py:925-968 | So if that analysis of the handlers records nothing, no run sees a projection |
| FlowFallbacks.FallbackIsMissedExactly | scripts/graph_projection_boundary_provenance.py:769-772 | For handlers that evaluate an expression: some covered run sees an unrecorded projection exactly if a node of one of the expressions may yield a projection, which can be read off its text |
| FlowSoundness.StmtNeverFails | scripts/graph_projection_boundary_provenance.py:769-772 | A statement with no import in it never ends at a failed import, through loops, handlers and `finally` |
| FlowEndings.EndsExactly | scripts/graph_projection_boundary_provenance.py:769-977 | From whatever state, a statement emits states of a kind exactly if control can leave it that way: `return` only returns or raises, `finally` overrides what is pending, a manager may swallow |
| FlowEndings.BlockEndsExactly | scripts/graph_projection_boundary_provenance.py:753-767 | The same for a block, which goes on only behind statements that can end normally |
| FlowEndings.UnreachableIsIgnored | scripts/graph_projection_boundary_provenance.py:753-767 | What stands behind statements that cannot end normally adds neither states nor facts |
| FlowEndings.ReturnIsTheEnd | scripts/graph_projection_boundary_provenance.py:814-816 | So nothing that follows a `return` does |
| FlowEndings.BlockRunsAsItCan | scripts/graph_projection_boundary_provenance.py:753-977 | A concrete run of a block with unguarded imports ends in a way that it can end, unless an import fails |
| FlowEndings.RunsAsItCan | scripts/graph_projection_boundary_provenance.py:769-977 | The same for one statement, through any number of rounds of a loop |
| FlowClaims.MergeIsExact | scripts/graph_projection_boundary_provenance.py:999-1053 | A merged state makes a claim exactly if one of the states merged makes it; so a name is definite exactly if it is in all of them |
| FlowClaims.CertaintyIsExact | scripts/graph_projection_boundary_provenance.py:291-354 | What certainty an expression has, told from the claims about the one name it is made of |
| FlowClaims.AssignIsExact | scripts/graph_projection_boundary_provenance.py:602-631 | What holds of a name once it is assigned is what held of its value without the name; of all other names, what held before |
| FlowClaims.ImportIsExact | scripts/graph_projection_boundary_provenance.py:170-211 | An imported name is a function that yields projections exactly if its origin is one |
| FlowClaims.WeakeningIsExact | scripts/graph_projection_boundary_provenance.py:438-448 | After an exception that may have been swallowed nothing is certain, and what may be stays |
| FlowClaims.RecordsIsExact | scripts/graph_projection_boundary_provenance.py:498-600 | There is a fact for a node exactly if it may yield a projection, with the certainty its claims give |
| FlowPrecision.StatementIsExact | scripts/graph_projection_boundary_provenance.py:769-977 | For any statement, state and question: the analysis says of the states and facts it leads to exactly what claims carried backwards along single control paths say of the state before; it says what is certain no more often |
| FlowPrecision.BlockIsExact | scripts/graph_projection_boundary_provenance.py:753-767 | The same for a block, with all its merges |
| FlowPrecision.LoopIsExact | scripts/graph_projection_boundary_provenance.py:835-882 | The same for a loop, of at most one round, whose `break` skips `else` |
| FlowPrecision.WithIsExact | scripts/graph_projection_boundary_provenance.py:883-906 | The same for a `with`, one item after another |
| FlowPrecision.TryIsExact | scripts/graph_projection_boundary_provenance.py:925-968 | The same for a `try`, its `finally` once for each way out that is pending |
| FlowPrecision.MergingLosesNothing | scripts/graph_projection_boundary_provenance.py:450-461 | In the join of all states a block ends in, a name may hold a projection exactly if it may at the end of some path, and is certain to exactly if on none it may hold anything else |
| FlowPrecision.FactsAreExact | scripts/graph_projection_boundary_provenance.py:147-155 | There is a fact at a position exactly if on some path a node there may yield a projection; its certainty is one that some path gives |
| FlowGuarantees.SinglePassLosesCarriedProjection | scripts/graph_projection_boundary_provenance.py:835-882 | A loop that hands a projection from round to round ends in an environment the single pass does not cover |
| FlowCollector.FlowState.Copy | scripts/graph_projection_boundary_provenance.py:78-91 | A copy is a new object with the same claims |
| FlowCollector.FlowState.Forget | scripts/graph_projection_boundary_provenance.py:213-224 | In place: every claim about the name goes, nothing else |
| FlowCollector.FlowState.Alias | scripts/graph_projection_boundary_provenance.py:979-982 | In place: the target is cleared before its value is looked at |
| FlowCollector.FlowState.Assign | scripts/graph_projection_boundary_provenance.py:602-631 | In place: the claims after an assignment, origins included |
| FlowCollector.FlowState.Weakened | scripts/graph_projection_boundary_provenance.py:438-448 | A new object that claims everything only as possible |
| FlowCollector.FlowState.Import | scripts/graph_projection_boundary_provenance.py:170-211 | In place: an import binds the name to an origin if it is one that produces projections |
| FlowCollector.MergeStates | scripts/graph_projection_boundary_provenance.py:999-1053 | The name-by-name loops over a fresh copy compute the merge of all branches |
| FlowCollector.MergeAliases | scripts/graph_projection_boundary_provenance.py:999-1031 | The loop over alias names: definite only if definite in all branches |
| FlowCollector.MergeOrigins | scripts/graph_projection_boundary_provenance.py:999-1031 | The loop over origin names: all candidates, possible if any branch lacks it |
| FlowCollector.JoinObjects | scripts/graph_projection_boundary_provenance.py:450-453 | Joining no states gives the empty one |
| FlowCollector.Collector.RecordExpression | scripts/graph_projection_boundary_provenance.py:498-600 | The recursive walk adds exactly the facts of the expression, later ones winning |
| FlowEvaluator.Evaluator.EvaluateBlock | scripts/graph_projection_boundary_provenance.py:753-767 | The statement loop with its growing outcome lists computes the block's outcomes, and the dictionary of facts grows by exactly those recorded on the way |
| FlowEvaluator.Evaluator.EvaluateStatement | scripts/graph_projection_boundary_provenance.py:769-977 | The same for one statement |
| FlowEvaluator.Evaluator.EvaluateLoop | scripts/graph_projection_boundary_provenance.py:835-882 | Test and body once, then `else` from everything that reaches it, in the order facts are written |
| FlowEvaluator.Evaluator.Enter | scripts/graph_projection_boundary_provenance.py:884-902 | The loop over context managers with its lists of raised and swallowed states |
| FlowEvaluator.Evaluator.EvaluateWith | scripts/graph_projection_boundary_provenance.py:883-906 | Entering, body, and what a manager may swallow |
| FlowEvaluator.Evaluator.EvaluateHandlers | scripts/graph_projection_boundary_provenance.py:932-937 | The loops over handlers and raised states |
| FlowEvaluator.Evaluator.EvaluateFinally | scripts/graph_projection_boundary_provenance.py:950-968 | The loops over ways out and their states, each resumed or replaced |
| FlowEvaluator.Evaluator.EvaluateTry | scripts/graph_projection_boundary_provenance.py:925-968 | Body, `else`, handlers and `finally` together |
| FlowProgram.CollectFactsOf | scripts/graph_projection_boundary_provenance.py:140-141 | Evaluating a program from the empty state leaves exactly its facts in the dictionary: those at which on some path a node may yield a projection |
| EventDispatch.ConstraintsAreExact | scripts/check_graph_projection_boundaries.py:344-358 | `matching`, `constrained` and `excluding` denote exact intersection and difference of event types |
| EventDispatch.OutcomesSound | scripts/check_graph_projection_boundaries.py:360-406 | Every way a run can end, for every admitted event type and every outcome of opaque tests, is among the computed outcomes |
| EventDispatch.AlwaysDispatchesMeansSuccess | scripts/check_graph_projection_boundaries.py:408-409 | A list that always dispatches has a run and ends every run in a successful return |
| EventDispatch.OnlyLiteralsExactly | scripts/check_graph_projection_boundaries.py:323-342 | The named event types are those the test is true of exactly if all elements are string literals |
| EventDispatch.ComputeOutcomes | scripts/check_graph_projection_boundaries.py:360-406 | The loop that stops when nothing falls through computes the outcomes |
| EventDispatch.SomeRunIsFound | scripts/check_graph_projection_boundaries.py:360-406 | For each admitted event type some computed outcome is the end of a run |
| EventDispatch.ReportedIsReal | scripts/check_graph_projection_boundaries.py:496-539 | When failing returns and raises come only last, each reported event type has a run that returns successfully |
| EventDispatch.EarlyFailureIsMisreported | scripts/check_graph_projection_boundaries.py:496-539 | A failing return in front: an event type is reported that no run handles |
| DispatchReports.ReportedExactly | scripts/check_graph_projection_boundaries.py:496-539 | An event type is reported exactly if some branch of the function reports it |
| DispatchReports.ReportIsRealExactly | scripts/check_graph_projection_boundaries.py:496-539 | A type reported for a branch has a run that returns successfully exactly if, in each block around the branch, some way leads past what could fail |
| DispatchReports.TopReportIsRealExactly | scripts/check_graph_projection_boundaries.py:496-539 | For a branch of the function itself: exactly if the statements in front do not surely fail |
| DispatchReports.OpenIsReal | scripts/check_graph_projection_boundaries.py:496-539 | A report is real if nothing in front of the branch, at any depth, surely fails, whatever comes after it |
| DispatchPaths.OutcomesAreExact | scripts/check_graph_projection_boundaries.py:360-406 | The computed outcomes are exactly those that the set of admitted event types allows, statement by statement, a branch being taken only if some of them are left for it |
| DispatchPaths.AlwaysDispatchesExactly | scripts/check_graph_projection_boundaries.py:408-409 | A list always dispatches exactly if it allows success and nothing else |
| DispatchPaths.ReportsAreExact | scripts/check_graph_projection_boundaries.py:496-531 | The event types reported are exactly those that a branch reached names and surely handles |
| DispatchPaths.CallsAreExact | scripts/check_graph_projection_boundaries.py:526-539 | The helpers the walk goes on to, and for which event types, are exactly those that get the event in a returned value, or in one that the next statement returns if it is not None |
| DispatchWalk.CallsStayWithin | scripts/check_graph_projection_boundaries.py:496-539 | Constraints passed to helpers are made of the program's own literals |
| DispatchWalk.UniverseIsClosed | scripts/check_graph_projection_boundaries.py:541-583 | Finitely many pairs of function and constraint are closed under calling |
| DispatchWalk.ReachableIsLeastClosed | scripts/check_graph_projection_boundaries.py:541-583 | The pairs reachable from the root are the least closed set |
| DispatchWalk.Walk.VisitFunction | scripts/check_graph_projection_boundaries.py:541-583 | Entered once per pair; afterwards the pair is visited, and all it reports is dispatched once it is left, however calls recur |
| DispatchWalk.Walk.VisitStatements | scripts/check_graph_projection_boundaries.py:496-539 | All helper calls of the statements are visited and all their event types dispatched |
| DispatchWalk.Walk.VisitStatement | scripts/check_graph_projection_boundaries.py:503-539 | The same for one statement |
| DispatchWalk.Walk.VisitHelpers | scripts/check_graph_projection_boundaries.py:533-537 | Each defined helper is visited under the current constraint |
| DispatchChains.ReportedAlongChains | scripts/check_graph_projection_boundaries.py:541-583 | An event type is reported exactly if it is credited to the last helper of some chain from `reduce_event` |
| DispatchChains.ProjectionEventDispatchTypes | scripts/check_graph_projection_boundaries.py:276-584 | Despite the memo set, the walk reports exactly the union over all reachable pairs, which is what is credited along chains of helpers |
| DispatchChains.RunIsHandedOn | scripts/check_graph_projection_boundaries.py:526-539 | A run for an event type that reaches a statement which hands the event to a helper is gone on with, for that type among others |
| DispatchChains.HandledIsCredited | scripts/check_graph_projection_boundaries.py:508-531 | A run that reaches a branch which names its event type and surely handles all it names is credited |
| DispatchChains.HandledIsReported | scripts/check_graph_projection_boundaries.py:541-583 | Whatever event type runs hand on, helper by helper, to such a branch is reported |
| AnnotationWalk.WalkIsExact | scripts/check_graph_projection_boundaries.py:111-198 | An annotation is reported exactly if it is mutable and some path from the root leads to it |
| AnnotationWalk.NothingReportedExactly | scripts/check_graph_projection_boundaries.py:111-198 | Nothing is reported exactly if everything reachable, by any path however often it cycles, is immutable |
| AnnotationWalk.ReportedIsReached | scripts/check_graph_projection_boundaries.py:117-195 | Every report gives a path that leads to a mutable annotation |
| AnnotationWalk.MutableIsReported | scripts/check_graph_projection_boundaries.py:117-195 | Turning back at active models and aliases misses nothing |
| AnnotationWalk.Walker.Walk | scripts/check_graph_projection_boundaries.py:117-195 | In place: appends the violations below an annotation and restores the active aliases |
| AnnotationWalk.Walker.WalkModel | scripts/check_graph_projection_boundaries.py:180-193 | An unfrozen model is reported even when it is active; its fields only when it is not |
| AnnotationWalk.Walker.WalkAlias | scripts/check_graph_projection_boundaries.py:130-138 | An alias is active during its own value and no longer |
| AnnotationWalk.ProjectionAnnotationViolations | scripts/check_graph_projection_boundaries.py:111-198 | The walk from the root with nothing active |
| Outline.SplitKeepsLines | routines/idea-to-plan-scoped/scripts/extract_ctx.py:93-128 | Splitting a document into headings and bodies loses no line |
| Outline.LevelExactly | routines/idea-to-plan-scoped/scripts/extract_ctx.py:51-51 | A line is a heading of level n exactly if n hashes, one to six, and white space stand at its front |
| Outline.SplitOfLines | routines/idea-to-plan-scoped/scripts/extract_ctx.py:93-128 | Splitting the lines of headings and bodies gives them back |
| Outline.PreorderOfBuild | routines/idea-to-plan-scoped/scripts/extract_ctx.py:93-128 | The preorder of the built forest is the list it was built from |
| Outline.BuildOfPreorder | routines/idea-to-plan-scoped/scripts/extract_ctx.py:93-128 | A forest with strictly deeper children and non-increasing siblings is rebuilt from its preorder |
| Outline.BuildIsWellNested | routines/idea-to-plan-scoped/scripts/extract_ctx.py:93-128 | Every built forest is of that kind |
| Outline.PrintOfParse | routines/idea-to-plan-scoped/scripts/extract_ctx.py:93-128 | Preamble and preorder of the parsed forest give back the input lines |
| Outline.ParseOfPrint | routines/idea-to-plan-scoped/scripts/extract_ctx.py:93-128 | Parsing the printed lines of any valid outline gives that outline |
| OutlineParser.ParsedParents | routines/idea-to-plan-scoped/scripts/extract_ctx.py:103-121 | A heading's parent is the nearest heading before it of strictly lower level; it is a root exactly if there is none |
| OutlineParser.BuildFollowsRule | routines/idea-to-plan-scoped/scripts/extract_ctx.py:103-121 | The same for the forest built from any stretch of headings |
| OutlineParser.CloseFindsParent | routines/idea-to-plan-scoped/scripts/extract_ctx.py:114-116 | Popping what is not shallower leaves the chain of ancestors of the new heading |
| OutlineParser.TableFollowsRule | routines/idea-to-plan-scoped/scripts/extract_ctx.py:103-128 | After every line, children lists, roots and stack are what the rule says |
| OutlineParser.CloseSections | routines/idea-to-plan-scoped/scripts/extract_ctx.py:114-116 | The popping loop over section objects |
| OutlineParser.OpenSection | routines/idea-to-plan-scoped/scripts/extract_ctx.py:103-121 | In place: a new section object is appended to its parent's children, or to the roots, and pushed |
| OutlineParser.AddText | routines/idea-to-plan-scoped/scripts/extract_ctx.py:122-126 | In place: a line of text goes to the innermost open section, or to the preamble |
| OutlineParser.ParseDocument | routines/idea-to-plan-scoped/scripts/extract_ctx.py:93-128 | The objects the stack parser builds represent exactly the parsed outline |
| Outline.TrimmedExactly | routines/idea-to-plan-scoped/scripts/extract_ctx.py:154-154 | The white space at the end of a heading goes, and nothing else |
| ContextPacket.ExtractPrintsPruned | routines/idea-to-plan-scoped/scripts/extract_ctx.py:213-254 | Blank lines aside, extraction prints the pruned tree, and is empty exactly if that is |
| ContextPacket.PartsPrintPruned | routines/idea-to-plan-scoped/scripts/extract_ctx.py:213-254 | The same for a list of sections put together with separating blank lines |
| ContextPacket.AppendPart | routines/idea-to-plan-scoped/scripts/extract_ctx.py:227-235 | A part goes in behind a blank line, which is added only where there is none, and nothing else is |
| ContextPacket.StripBuild | routines/idea-to-plan-scoped/scripts/extract_ctx.py:93-128 | Blank lines do not influence the tree |
| ContextPacket.PruneIsWellNested | routines/idea-to-plan-scoped/scripts/extract_ctx.py:213-254 | With breadcrumbs for every ancestor, levels stay nested |
| ContextPacket.PacketsKeepNestingExactly | routines/idea-to-plan-scoped/scripts/extract_ctx.py:213-254 | Parsing the packet again gives the pruned forest back, blank lines aside, exactly if the headings without their tags are still nested |
| ContextPacket.PacketsKeepNesting | routines/idea-to-plan-scoped/scripts/extract_ctx.py:213-254 | So it does whenever every kept heading keeps its level |
| HeadingTags.TaggedGoes | routines/idea-to-plan-scoped/scripts/extract_ctx.py:69-72 | Removing the tag comment, and the white space before it, leaves what stands around it |
| HeadingTags.LostWithItsTag | routines/idea-to-plan-scoped/scripts/extract_ctx.py:66-91 | Hashes and a tag that names the step: the section is kept, and its packet has no heading |
| HeadingTags.HeadingLostWithItsTag | routines/idea-to-plan-scoped/scripts/extract_ctx.py:66-91 | The line `# <!-- steps: ALL -->`, for every step |
| HeadingTags.HeadingSinksWithItsTag | routines/idea-to-plan-scoped/scripts/extract_ctx.py:66-91 | Hashes after the tag: in a document of such a heading and one below it, both kept, what is parsed from the packet has them side by side |
| PacketContents.PruneIsFlat | routines/idea-to-plan-scoped/scripts/extract_ctx.py:199-254 | Tag inheritance down the tree picks the lines that the nearest tag above each heading picks |
| PacketContents.PacketIsFlatFilter | routines/idea-to-plan-scoped/scripts/extract_ctx.py:199-292 | Blank lines aside, a packet is its header and then, in order, bodies of headings whose nearest tag matches and headings of sections that contain one |
| PacketContents.CollectUncoveredIsFlat | routines/idea-to-plan-scoped/scripts/extract_ctx.py:141-156 | The reported headings, trimmed and cut, are those with content and no tag on them or above, in order |
| PacketContents.NoSilentLoss | routines/idea-to-plan-scoped/scripts/extract_ctx.py:141-156 | Nothing is reported exactly if every heading with content is kept or dropped by an explicit tag |
| PacketWriter.ExtractSection | routines/idea-to-plan-scoped/scripts/extract_ctx.py:213-254 | The recursion with its growing output list computes the extract |
| PacketWriter.ExtractChildren | routines/idea-to-plan-scoped/scripts/extract_ctx.py:227-235 | Parts go in after one blank line unless there is one |
| PacketWriter.ExtractParts | routines/idea-to-plan-scoped/scripts/extract_ctx.py:239-243 | The parts that are not empty, in order |
| PacketWriter.WriteHeader | routines/idea-to-plan-scoped/scripts/extract_ctx.py:270-276 | Title, blank line, the preamble without its blank lines at the end, and a blank line |
| PacketWriter.WritePacket | routines/idea-to-plan-scoped/scripts/extract_ctx.py:257-292 | The loop over the roots after the header; the counts are of the roots shown in full and of those shown as breadcrumbs |
| PacketWriter.Uncovered | routines/idea-to-plan-scoped/scripts/extract_ctx.py:141-156 | The recursion that extends a list of errors |
| ArtifactDisk.RunIsSafe | src/orchestrator/artifacts/store.py:193-272 | Whatever is put, verified, deleted, swept, overwritten or lost, checkpoints vouch only for versions that hash to what they say, and a version that left a path never returns |
| ArtifactDisk.CheckpointStandsForVerification | src/orchestrator/artifacts/store.py:258-272 | A matching checkpoint implies that reading and hashing the whole blob succeeds |
| ArtifactDisk.SameAtBothEnds | src/orchestrator/artifacts/store.py:133-147 | Two equal stats: the file was that version all the time in between |
| ArtifactDisk.ReadAfterPut | src/orchestrator/artifacts/store.py:74-119 | What was put reads back as bytes of the same hash and length |
| ArtifactDisk.GoneAfterSweep | src/orchestrator/artifacts/gc.py:172-190 | Swept blobs are missing, others read as before; the stale checkpoints left behind change nothing |
| ArtifactDisk.GoneAfterDelete | src/orchestrator/artifacts/store.py:150-162 | What is deleted is missing and has no checkpoint; all else reads as before |
| ArtifactDisk.RangesMakeTheBlob | src/orchestrator/artifacts/store.py:139-140 | Ranges read one after another make up the blob |
| ArtifactDisk.LateStatIsHonestExactly | src/orchestrator/artifacts/store.py:204-240 | A checkpoint written from a later stat is honest exactly if the blob still fits then |
| ArtifactDisk.LateStatBlessesAnything | src/orchestrator/artifacts/store.py:204-240 | With a replacement in between, a matching checkpoint for wrong bytes |
| ArtifactStore.FilesystemArtifactStore.PutBytes | src/orchestrator/artifacts/store.py:74-106 | Publishing leaves an intact blob with an honest checkpoint; one that is intact already stays as it is |
| ArtifactStore.FilesystemArtifactStore.ReadWhole | src/orchestrator/artifacts/store.py:108-119 | Bytes of the right hash and length or the right error, and a matching checkpoint |
| ArtifactStore.FilesystemArtifactStore.DeleteBlob | src/orchestrator/artifacts/store.py:150-162 | Missing exactly if the blob is; otherwise blob and checkpoint go, and what is there afterwards was written later |
| ArtifactStore.FilesystemArtifactStore.VerifyAndCheckpoint | src/orchestrator/artifacts/store.py:204-210 | Full verification, and a checkpoint that matches what was verified |
| ArtifactStore.FilesystemArtifactStore.VerifiedCheckpoint | src/orchestrator/artifacts/store.py:193-202 | An honest checkpoint, from disk if it matches; alone, it fails exactly as full verification does |
| ArtifactStore.FilesystemArtifactStore.FirstStat | src/orchestrator/artifacts/store.py:131-135 | The first stat of a round, after a new verification if the checkpoint does not match it |
| ArtifactStore.FilesystemArtifactStore.ReadBetween | src/orchestrator/artifacts/store.py:136-147 | Bytes between two equal stats are those of a blob full verification accepts on a disk the call passed through |
| ArtifactStore.FilesystemArtifactStore.Round | src/orchestrator/artifacts/store.py:131-147 | A round that succeeds read the range of a version that full verification accepts, on one of the disks it passed through |
| ArtifactStore.FilesystemArtifactStore.ReadRange | src/orchestrator/artifacts/store.py:121-148 | A returned range has the bytes from the offset on, as many as asked for or as there are, of a blob full verification accepts on one of the disks the call passed through, whatever others did; alone on the disk it answers what full verification answers |
| ArtifactProtocol.NoReferenceDangles | src/orchestrator/artifacts/gc.py:54-98 | In every interleaving of publishers, crashes, run deletions and collectors that mark under the lock, with any cutoff, every referenced hash has its blob |
| ArtifactProtocol.NoReferenceDanglesInTime | src/orchestrator/artifacts/gc.py:46-98 | The same with `collect` among them, as long as marks taken before the lock still cover the references to old blobs when it is taken |
| ArtifactProtocol.NeverDanglesFromEmpty | src/orchestrator/artifacts/gc.py:54-98 | The same for all runs from the empty store |
| ArtifactProtocol.StepKeepsInv | src/orchestrator/artifacts/coordination.py:19-32 | Each step keeps what every process in the middle of something relies on: placed blobs are there, marks cover all references, a condemned blob is unreferenced |
| ArtifactProtocol.OthersAreIdle | src/orchestrator/artifacts/coordination.py:19-32 | While one process has the lock, all others are outside: idle, or marking early |
| ArtifactProtocol.UnretainedIsUnreferenced | src/orchestrator/graph_runtime/store.py:2687-2709 | The database probe, which joins the runs that are left and leaves out the deleted one, sees every reference that counts |
| ArtifactProgress.PublishersPublish | src/orchestrator/artifacts/coordination.py:19-26 | A publisher that gets the lock leaves the blob, which keeps its time if it was intact, and the reference, and frees the lock |
| ArtifactProgress.CollectorsCollect | src/orchestrator/artifacts/gc.py:54-65 | A collector removes a blob that is old enough and unmarked, and nothing else |
| ArtifactProgress.DeletedRunsAreCollected | src/orchestrator/artifacts/gc.py:74-98 | The collector after a deletion removes a blob that is old enough and that no other run of the project refers to, and nothing else |
| ArtifactProgress.CrashFreesTheLock | src/orchestrator/artifacts/coordination.py:19-32 | After a crash of the holder the next process gets the lock |
| ArtifactProtocolLimits.ProbeMissesExactly | src/orchestrator/graph_runtime/store.py:2687-2709 | The probe misses a reference exactly if a surviving run of another project makes it |
| ArtifactProtocolLimits.EarlyMarksDangle | src/orchestrator/artifacts/gc.py:46-52 | Marks taken before the lock lose a referenced blob, for every grace period |
| ArtifactCollect.CollectIsSafeExactly | src/orchestrator/artifacts/gc.py:46-52 | Taking the lock with early marks leaves no reference dangling, in all interleavings from then on, exactly if the marks cover all references to blobs older than the cutoff at that moment |
| ArtifactCollect.WholeCollectIsSafeExactly | src/orchestrator/artifacts/gc.py:46-52 | Removing every old unmarked blob, in any order, is a run, and leaves none dangling exactly under the same condition |
| ArtifactProtocolLimits.SharedRootDangles | src/orchestrator/artifacts/gc.py:74-98 | A root shared by two projects loses a referenced blob |
| ArtifactProtocolLimits.SafeExactlyForOneProject | src/orchestrator/artifacts/gc.py:54-98 | In all interleavings of collectors that mark under the lock, no reference dangles exactly if all runs are of one project |
| ArtifactSweep.MentionsParts | src/orchestrator/artifacts/gc.py:109-131 | A hash is mentioned by a value exactly if the value is its reference or a part mentions it |
| ArtifactSweep.Marker.CollectFromValue | src/orchestrator/artifacts/gc.py:109-131 | In place: fails exactly at an unknown event type, otherwise adds exactly the hashes found along any path |
| ArtifactSweep.CollectArtifactRefs | src/orchestrator/artifacts/gc.py:101-106 | Exactly the hashes mentioned in the events, or a failure |
| ArtifactSweep.MarkingCovers | src/orchestrator/artifacts/gc.py:54-65 | Marks of the surviving events cover all references |
| ArtifactSweep.Root.Sweep | src/orchestrator/artifacts/gc.py:147-197 | Removes exactly the unmarked regular files named by digests and older than the cutoff, and returns their hashes; a negative grace is refused |
| ArtifactSweep.Root.SweepDirectory | src/orchestrator/artifacts/gc.py:168-192 | The same for one directory |
| ArtifactSweep.SweepShows | src/orchestrator/artifacts/gc.py:147-197 | What a sweep deletes is exactly what the protocol allows, and what is left shows exactly the other blobs |
| ArtifactSweep.SweepIsARun | src/orchestrator/artifacts/gc.py:147-197 | Removing them one by one, in any order, is a run of the protocol |
| ArtifactSweep.HashOfIsKept | src/orchestrator/artifacts/gc.py:182-182 | A file counts for the hash whose blob the store keeps there, and for no other |
| Throttle.StampsRise | src/orchestrator/api/websocket.py:61-85 | However broadcasts interleave at sends, a client's stamps since it was last forgotten are an interval apart |
| Throttle.ThrottleBound | src/orchestrator/api/websocket.py:61-85 | Any window of length T holds at most T / interval + 1 of these stamps |
| ThrottleSends.SendsAreSpaced | src/orchestrator/api/websocket.py:36-41 | However broadcasts interleave, from one send to a client to the next it is at least the interval less the time the first one's broadcast had been under way |
| ThrottleSends.SendBound | src/orchestrator/api/websocket.py:36-41 | If no broadcast waits longer than a lag before it sends, any window of length T holds at most (T + lag) / interval + 1 sends to the client |
| ThrottleSubscriptions.ForgottenExactly | src/orchestrator/api/websocket.py:51-85 | A step forgets a client exactly if it disconnects it, from any run, or ends a broadcast that could not send to it |
| ThrottleSubscriptions.DeadExactly | src/orchestrator/api/websocket.py:78-82 | A broadcast counts a client as dead exactly when a send to it fails |
| ThrottleSubscriptions.StepKeepsLists | src/orchestrator/api/websocket.py:44-85 | A client of one run stays on lists of that run, replaced and walked ones included, and a step that forgets it takes it off |
| ThrottleSubscriptions.SubscribedIsRemembered | src/orchestrator/api/websocket.py:44-59 | A client of one run is not forgotten while it is on that run's list |
| ThrottleSubscriptions.UpdatesPerWindow | src/orchestrator/api/websocket.py:36-41 | Whatever happened before, while a client of one run is subscribed any window of length T holds at most (T + lag) / interval + 1 updates sent to it |
| Throttle.VisitedKeepsInv | src/orchestrator/api/websocket.py:72-82 | Check and stamp in one step keep the table at the latest stamp |
| Throttle.DisconnectRemoves | src/orchestrator/api/websocket.py:51-59 | A disconnected client is off the run's list |
| Throttle.TwoRunsBunch | src/orchestrator/api/websocket.py:51-59 | A client on two runs can be sent to twice in one tick |
| ThrottleLists.SubscribersAreListed | src/orchestrator/api/websocket.py:44-85 | In every interleaving the subscribers of a run are those connected to it and not disconnected since, in order, less those a broadcast could not send to |
| ThrottleLists.SubscribersFromStart | src/orchestrator/api/websocket.py:44-85 | The same from the start, when nobody is subscribed |
| ThrottleLists.ConnectAdds | src/orchestrator/api/websocket.py:44-49 | Connecting adds the client to its run, also if there are others, and changes no other run |
| ThrottleLists.DisconnectDrops | src/orchestrator/api/websocket.py:51-59 | Disconnecting drops the client from that run, and changes no other run |
| ThrottleLists.WithoutSplits | src/orchestrator/api/websocket.py:55-57 | All others stay, in their order |
| ThrottleSends.SendsApartExactly | src/orchestrator/api/websocket.py:36-41 | In all runs whose broadcasts wait at most a lag before they send to the client, its sends are at least a given gap apart exactly if the gap is no more than the lag leaves of the interval |
| ConnectionManagers.ConnectionManager.Connect | src/orchestrator/api/websocket.py:44-49 | In place: onto the run's list, which broadcasts under way also see |
| ConnectionManagers.ConnectionManager.Disconnect | src/orchestrator/api/websocket.py:51-59 | In place: a new list without the client, and its stamp forgotten |
| ConnectionManagers.ConnectionManager.Begin | src/orchestrator/api/websocket.py:67-71 | A broadcast notes the time and the list; it does nothing for a run without subscribers |
| ConnectionManagers.ConnectionManager.Visit | src/orchestrator/api/websocket.py:72-82 | One client: skipped if too early, otherwise stamped and sent to |
| ConnectionManagers.ConnectionManager.Finish | src/orchestrator/api/websocket.py:84-85 | Clients that could not be sent to are disconnected |
| Batching.EventsAreConserved | src/orchestrator/api/websocket.py:148-237 | In every interleaving a run's accepted events are, in order and each once, those of its batches and discards and then those in its buffer |
| Batching.BuffersAreGuarded | src/orchestrator/api/websocket.py:148-237 | A buffer that is not empty has a live timer or a flush about to take it, orphaned timers included |
| Batching.NothingIsStuck | src/orchestrator/api/websocket.py:148-237 | From every reachable state what is buffered can go out as one batch without a further event |
| Batching.StepKeepsInv | src/orchestrator/api/websocket.py:148-237 | Each step keeps that a run's timer entry is live, over, or cancelled by a flush that waits for it |
| Batching.BroadcastGuards | src/orchestrator/api/websocket.py:158-166 | After a broadcast, something will take the event |
| BatchOutcomes.DiscardsStemFromLastDisconnects | src/orchestrator/api/websocket.py:228-237 | In every interleaving each discard stems from a disconnect that left nobody on that run |
| BatchOutcomes.NothingIsLostWhileSomebodyStays | src/orchestrator/api/websocket.py:228-237 | Without one of these, all accepted events of a run are, in order and each once, in its batches or its buffer |
| BatchOutcomes.OtherDisconnectsChangeNothing | src/orchestrator/api/websocket.py:233-233 | Without the disconnects that leave somebody, the same steps lead to the same state |
| BatchOutcomes.FlushLeavesNothingBehind | src/orchestrator/api/websocket.py:193-226 | Once a `flush_all` is over, whatever happened meanwhile, every event accepted for any run when it looked is settled |
| BatchingManager.BatchingConnectionManager.BroadcastToRun | src/orchestrator/api/websocket.py:148-166 | In place: the event is last in the buffer, and a timer is made exactly if none runs |
| BatchingManager.BatchingConnectionManager.FlushAfterWindow | src/orchestrator/api/websocket.py:168-191 | In place: the whole buffer as one batch and the timer entry gone, or nothing |
| BatchingManager.BatchingConnectionManager.FinishSending | src/orchestrator/api/websocket.py:184-191 | In place: the lock is freed when the batch is out |
| BatchingManager.BatchingConnectionManager.CancelPending | src/orchestrator/api/websocket.py:201-208 | In place: the next run's timer is cancelled and waited for if it is not over |
| BatchingManager.BatchingConnectionManager.TakePending | src/orchestrator/api/websocket.py:210-217 | In place: the whole buffer as one batch, and whatever timer entry there is |
| BatchingManager.BatchingConnectionManager.DisconnectFrom | src/orchestrator/api/websocket.py:228-237 | In place: with nobody left the timer is cancelled and the buffer discarded; with somebody left nothing changes |
| BatchDelivery.OwnBatchesReachAll | src/orchestrator/api/websocket.py:168-191 | In every interleaving of both machines, a batch taken by its run's own timer has been sent to every client of that run alone when its broadcast is over, if the window is no shorter than the interval |
| BatchDelivery.StepKeepsInv | src/orchestrator/api/websocket.py:148-237 | Each step keeps that a run's own timer is younger than its last batch, and that a batch being sent is a window later than all the client was sent before |
| BatchDelivery.VisitSends | src/orchestrator/api/websocket.py:72-82 | A broadcast that is a window later than the client's stamp sends to it, unless it has already |
| BatchDelivery.OrphanedBatchIsLost | src/orchestrator/api/websocket.py:193-226 | A timer made while a flush waits for the one before loses its run to the flush, and its batch, a tick after the flush's, is sent to nobody |
| ChildrenFirst.TopologicalSortChildrenFirst | src/orchestrator/api/app.py:76-110 | One run of every id; a run comes after all its descendants exactly if it is on no parent cycle |
| ChildrenFirst.PermutationExactly | src/orchestrator/api/app.py:76-110 | The result is a permutation of the input exactly if ids are distinct |
| ChildrenFirst.Walk.Visit | src/orchestrator/api/app.py:97-103 | In place: appends to the order, keeps it sorted, and visits the run |
| ChildrenFirst.Walk.VisitRest | src/orchestrator/api/app.py:107-110 | The second round visits the runs on cycles that no root leads to |
| ChildrenFirst.AllFinished | src/orchestrator/api/app.py:97-103 | When a run on no cycle is appended, every descendant has been |
| ChildrenFirst.IndexById | src/orchestrator/api/app.py:84-84 | Every id has the last of the runs with it |
| ChildrenFirst.IndexChildren | src/orchestrator/api/app.py:85-92 | Children are listed under parents that are present, in input order |
| HomeNames.CleanTwice | scripts/export_sanitized_graph_fixture.py:16-23 | Replacing user names twice is replacing them once |
| HomeNames.UnchangedExactly | scripts/export_sanitized_graph_fixture.py:16-23 | A text stays as it is exactly if its user names are pseudonyms |
| HomeNames.BytesKeptExactly | scripts/export_sanitized_graph_fixture.py:19-23 | The UTF-8 length never grows, and is kept exactly if all user names are ASCII |
| HomeNames.AccentsShrink | scripts/export_sanitized_graph_fixture.py:19-23 | A user name outside ASCII makes the text shorter in bytes |
| HomeNames.Clean | scripts/export_sanitized_graph_fixture.py:16-23 | The length in code points is kept |
| HomePaths.NameGoes | scripts/export_sanitized_graph_fixture.py:16-23 | A user name in the middle of a text becomes a pseudonym of its length, and what stands in front of its home prefix and behind it is replaced by itself |
| HomePaths.CleanSplits | scripts/export_sanitized_graph_fixture.py:16-16 | A text is replaced piece by piece, cut at a slash that ends no home prefix |
| HomePaths.NoHomeStays | scripts/export_sanitized_graph_fixture.py:16-16 | A text without home prefixes stays as it is |
| HomePaths.PseudonymReads | scripts/export_sanitized_graph_fixture.py:19-23 | A pseudonym is `user` and as many `x` as it takes, cut to length |
| JsonPointers.EscapeIsTwoReplacements | scripts/export_sanitized_graph_fixture.py:69-70 | Two replacements in turn escape each character once |
| JsonPointers.DecodesExactly | scripts/export_sanitized_graph_fixture.py:69-70 | A pointer reads back as its path exactly if the path is not the root's |
| JsonPointers.PointersDiffer | scripts/export_sanitized_graph_fixture.py:69-70 | Different paths below the root have different pointers |
| JsonPointers.DecimalsDiffer | scripts/export_sanitized_graph_fixture.py:51-56 | Different array positions have different keys |
| Sanitizer.ShapeStays | scripts/export_sanitized_graph_fixture.py:34-61 | Exactly the same paths lead somewhere, and at each stands an object with the same keys in order, an array of the same length, the text with its user names replaced, or the same number, truth value or null |
| Sanitizer.AlikeEverywhere | scripts/export_sanitized_graph_fixture.py:34-61 | Keys being distinct, what a path leads to before and what it leads to after are so alike |
| Sanitizer.OthersStay | scripts/export_sanitized_graph_fixture.py:60-61 | A number, truth value or null stands where it stood, and nowhere else |
| Sanitizer.UnloggedExactly | scripts/export_sanitized_graph_fixture.py:64-65 | Nothing is logged exactly if nothing changed |
| Sanitizer.SitesAreInOrder | scripts/export_sanitized_graph_fixture.py:40-59 | Changes are logged in the order in which a reader meets the texts |
| Sanitizer.CleanTwice | scripts/export_sanitized_graph_fixture.py:34-61 | Sanitizing a value twice is sanitizing it once |
| Sanitizer.LogIsExact | scripts/export_sanitized_graph_fixture.py:34-77 | Each entry's pointer reads back as the path of a text that changed, from and to the texts it gives; every changed text has an entry; no two entries share a pointer |
| Sanitizer.RootTextIsMisplaced | scripts/export_sanitized_graph_fixture.py:66-77 | For a root that is a text, the pointer of its change leads nowhere |
| Sanitizer.Sanitize | scripts/export_sanitized_graph_fixture.py:34-77 | The recursion with its growing outputs computes the clean value and its log, which is empty exactly if the value comes out as it was |
| Sanitizer.SanitizeObject | scripts/export_sanitized_graph_fixture.py:40-47 | The loop over members |
| Sanitizer.SanitizeArray | scripts/export_sanitized_graph_fixture.py:48-59 | The loop over items |

## Left out

- Provenance: receiver and field types, annotations, module attributes, nested functions and
  classes, comprehensions, walrus targets, `match` captures and `for` targets (which are only
  cleared) are not in the statement language.
- FlowSoundness.BlockSound: a run that ends at a failed import is not claimed to be covered, as the
  analysis emits no path for it; the same holds for `FlowSoundness.StmtSound` and
  `FlowGuarantees.LoopFreeSound`. An import that fails binds nothing.
- FlowSoundness.WithSound: a context manager returns itself on entry, and leaving one raises nothing, as
  in the code, which emits no raised path for it.
- FlowSoundness.GuardedSound: needs a body without imports; with one, see `FlowFallbacks`.
- FlowPrecision.FactsAreExact: of the certainty of a fact it says that some path gives it, not that no
  other path gives another. A `finally` block is analysed once for each pending way out, and the
  last fact wins.
- FlowPrecision.StatementIsExact: what is certain is answered one way only, as certainty is lost in merges.
- FlowEndings.RunsAsItCan: needs imports that are not guarded; after one that fails a run may go on in
  ways the analysis does not see, and the same holds for `FlowEndings.BlockRunsAsItCan`.
- FlowEvaluator.Evaluator.EvaluateBlock: states are values here and only the facts are updated in place;
  `FlowCollector` updates single state objects. That copies are taken before an object shared by
  two outcome lists is mutated is not covered.
- FlowEvaluator.Evaluator.EvaluateStatement: the same.
- FlowCollector.FlowState.Import: is `from m import n as name` of a function; plain and star imports and
  the origins of types and modules are left out with the receiver types they serve.
- FlowSoundness.LoopStmtSound: needs that a second pass adds nothing. That condition can be computed, but
  it is sufficient only: a pass can be sound although a second one would add a state.
- Dispatch: loops, `with`, `try` and nested definitions in a function body, which the code treats
  as falling through; name resolution, decorators and shadowing, which decide what a helper name
  stands for; `canonical_record_owner_paths`.
- EventDispatch.OutcomesSound: needs membership tests that have string literals only or none, which is
  when the code reads them right (`EventDispatch.OnlyLiteralsExactly`); the same holds for
  `EventDispatch.AlwaysDispatchesMeansSuccess`.
- EventDispatch.ReportedIsReal: is one easy sufficient condition; `DispatchReports.ReportIsRealExactly` is the
  exact one. Both are about event types found within one function; `DispatchChains` follows helper
  calls, for event types that are handled.
- Annotations: generic aliases with arguments, and what makes a scalar or a literal immutable.
- Documents: the regular expressions for tags and for clean headings are arbitrary functions except
  in `HeadingTags`, which writes them out, with upper-casing for ASCII; the text of packet titles,
  step files and the intent packet.
- Artifacts: file descriptors, permissions, symbolic links, temporary files and SHA-256 itself;
  crashes between the two renames of a publication, which leave a checkpoint that does not match.
- ArtifactStore.FilesystemArtifactStore.PutBytes: checking the blob that is there, the renames and the stat
  for the checkpoint are one step, as far as others on the disk are concerned.
- ArtifactStore.FilesystemArtifactStore.ReadRange: verification and the stat of the checkpoint it
  writes are one step, and so are a publication's rename and its stat, and reading the bytes of
  the range.
- Collection: how publishers come to hold the lock from the first put to the persisted event is
  taken from the callers; blobs removed directly by `delete` are not part of the protocol. The
  rows of `runs` that the probe joins go when a run is deleted
  (src/orchestrator/db/projections/run_state.py:299-302).
- Collection: cancelling a collector that awaits the thread of its sweep frees the lock while the
  thread runs on; a crash here ends both.
- ArtifactProtocol.NoReferenceDangles: does not cover `collect`, which marks before it takes the lock;
  `ArtifactProtocol.NoReferenceDanglesInTime` and `ArtifactCollect.CollectIsSafeExactly` do.
- ArtifactSweep.Root.Sweep: retention is a set; in the variant that probes the database the answers may
  change between probes, which only the protocol models. Files that vanish during the walk are
  not modelled.
- Throttle.ThrottleBound: is about stamps; `ThrottleSends.SendBound` is about sends.
- Web sockets: message bodies, unbatched mode of the batching manager (it is the plain one), and a
  `flush_all` that is itself cancelled.
- BatchDelivery.OwnBatchesReachAll: counts a batch as sent with the broadcast's stamp, whether the send
  succeeds or not; batches of flushes and of orphaned timers are not claimed to arrive.
- Sanitizer: manifests, hashes of values, event validation and file access around `_sanitize`.

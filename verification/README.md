# A verified model of the Lavoisier coding agent

Lavoisier runs a language model in a loop: it sends a transcript to a provider, reads the streamed answer, runs the
tools the model asks for, and repeats until the task is finished, the budget is spent or the steps run out. This
project models that loop and the machinery around it in Dafny, and proves what the loop keeps over whole runs, what the
transcript passes preserve, what the context engine shows of a source file, what an anchored edit means, and what the
stream decoders and request builders guarantee.

## How the project is laid out

| part | files |
|---|---|
| vocabulary | `Strings` (numerals, trimming, lines), `Protocol` (JSON, messages, events, usage), `Request` (chat requests), `Framing` (streams cut into lines), `SmallStreams` (streams of one-digit lines for the witnesses) |
| transcript passes | `History` (pairing of calls and results), `StaleReads`, `Dedup`, `Compaction`, `Eviction`, `Estimator`, and `Passes`, which runs them in place; told once more from the transcript alone: `StalePaths` (which calls and paths go stale), `Rewritten` (which results are rewritten, and to what), `Estimated` (what an estimate counts) |
| agent loop | `Turn` (folding one stream), `Breaker` (the circuit breaker), `AgentLoop` (the state machine), `Session` (the loop as an object updated in place, proved to follow the state machine), the theorems over whole runs: `LoopRules` and `LoopVerdict` (what the streams, oracles and texts of a run make of it: verdicts, transcript, requests, endings), `LoopOutcome`, `LoopProse`, `LoopBounds`, `LoopCursor`, `LoopPairing`, and `LoopWitness`, runs that meet the exceptions |
| context engine | `SymbolGraph` (linking), `Reach` (radius search), `SyntaxTree` (names in a parse tree), `LinkedExactly` (which edges there are, told from files and trees), `Skeleton` (body elision and splicing), `Shown` (which positions a skeleton shows), `Nesting` (when keeping more hides something), `Docstrings` (what stays of a body that opens with a string), `RadiusWitness` (a source for which a larger radius does) |
| anchored edits | `Anchor` (the operation), `AnchorTargets` (which line an edit means, drift), `AnchorOrder` (where each edit's lines stand), `AnchorBatch` (a batch against its edits one by one), `AnchorText` (what is written, read again) |
| providers and gateway | `GeminiSse`, `GeminiStream`, `GeminiWire`, `GeminiWritten` (what a stream says against what is decoded), `GeminiRead` (contents read back), `GeminiWitness` (concrete streams), `AnthropicSse`, `AnthropicWritten` (events as they are written), `AnthropicWire`, `AnthropicBody`, `AnthropicRead` (a body's prompt read back), `AnthropicOptions` (what else a body asks for), `Limiter` |

Code that updates fields or out-parameters is modelled by classes and methods with loops (`Session`, `HistoryBuffer`,
`TurnAccumulator`, `CircuitBreaker`, the two decoders, `Limiter`, `ElisionList`, `Link`, `Search`, `ApplyEdits`,
`BuildBody`), each proved equal to a function of the old state; the theorems are about those functions. Everything the
agent does not decide itself is an oracle: provider attempts, tool replies, verify results, approvals, summaries and
clock readings are arbitrary functions of how often they were asked, so a statement for all of them holds of every run.

`dafny verify dfyconfig.toml` checks the whole project.

## Where the code and its comments differ

The model follows the code.

- Compaction keeps the last four messages and says that this index always lands on an assistant message. That is so
  only while every round-trip pushed two messages; a paused round-trip and a truncated live-ops answer push one.
  `LoopPairing.PairedExactlyAtBoundaries` gives the exact condition, `PairedWithoutLoneMessages` the runs that meet
  it, and `LoopWitness.PausedRunIsUnpaired` a run, message by message, whose fifth request carries a result without its
  call.
- The no-progress nudge is documented as given once; `LoopBounds.EveryIdleRoundIsNudged` shows that in every run each
  edit-free tool round from the n-th to the (2n-1)-th in a row is answered with it, so it is given at most once between
  two edits exactly if the limit n is at most 1 (`LoopWitness.NudgedOnceExactly`).
- Deduplication is said to keep the most recent copy. It walks messages newest first but the blocks of one message
  front to back, so within the last message it keeps the first copy. The copy that stays is the most recent one exactly
  if its message holds the content once (`Dedup.MostRecentExactly`; `Dedup.OlderCopyStays` is a round in which it is not).
- Evicting a tool result of fewer than ten tokens raises the estimate (`Eviction.TinyEvictionRaises`).
- Within a turn the cursor advances without asking the breaker; only the start of a turn does.
- `apply_edits` says that it preserves a trailing newline. It keeps the one that is there, and it adds one exactly if the
  last of two or more lines written is empty (`AnchorText.NewlineKeptExactly`). What it writes need not read back as the
  lines it means: a file whose lines are all deleted becomes a line feed (`DeletedFile`), an empty last line is lost
  (`LostEmptyLine`), and so is a carriage return before a line feed, even when nothing is edited (`LostCarriageReturn`).
  `AnchorText.EditedReadsBack` says exactly when it does.
- A larger radius is meant to show more. In JavaScript `function t(){f()}function f(a=function g(){1}){}` the body of `g`
  is shown for target `t` at radius 0 and hidden at radius 1 (`RadiusWitness.RadiusOneHidesMore`).
  `Nesting.KeepingMoreHidesExactly` gives the trees on which keeping more names can hide something: those with a
  definition partly outside the elided part of a definition around it, all definitions around it being named, and each
  of the two by a name that no definition around it has.
- Every Gemini stream numbers its calls from `call_0`, so ids repeat within a task. A function response then carries the
  name of the last call with its id, which need not be the call it answers (`GeminiWire.ResponseNames`,
  `GeminiWitness.SecondStreamTakesOver`), and stale marking lets the last call with an id decide.

## Model

| member | source | states |
|---|---|---|
| LoopVerdict.EveryRunKeepsTheRules | crates/lvz-agent/src/lib.rs:906-1430 | every item of every run keeps the rules of `LoopRules`, which name no function of the loop: a completed round-trip has exactly the verdict due on its stream's last stop reason, started calls and cost; a request goes to the model that is due and carries exactly the transcript that the run tells so far (plan, what each stream said, nudges, results, summaries, after the passes), behind the skeleton, with prompt, tools and cache marks; a summary is made exactly when one is due; each tool round reports and answers what its calls did; the run closes exactly when and as it must; and the transcript it leaves is the one it tells |
| LoopOutcome.EveryRunEndsOnce | crates/lvz-agent/src/lib.rs:795-1430 | every run records its outcome exactly once and ends in one error, or one usage report followed by one end, with nothing after and no provider usage or end passed on; the total is the sum over pre-passes, summaries and completed round-trips |
| LoopProse.CallerHears | crates/lvz-agent/src/lib.rs:942-1250 | everything that reaches the caller is, in order, what the items of the trace say, kind by kind: a round-trip's events but usage and end, its text and thinking behind the others and only if it was accepted, paused, ran tools or failed midway; reports; and the closing error, or total and end |
| LoopProse.ProseIsOfShownRounds | crates/lvz-agent/src/lib.rs:1035-1099 | the text and thinking that reach the caller are exactly the prose of accepted, paused, tool-calling and failed-midway round-trips, in order; nudged, rerouted, truncated and over-budget prose never appears |
| LoopBounds.EveryRunIsBounded | crates/lvz-agent/src/lib.rs:98-113 | with F fallbacks and start candidate c: at most maxSteps + F - c streams opened, at most 8 + F - c tool-less non-pause round-trips continue the loop, and no request follows 2n edit-free tool rounds in a row |
| LoopBounds.EveryIdleRoundIsNudged | crates/lvz-agent/src/lib.rs:1355-1424 | in every run each tool round is followed by what its tools reported and then by its results, or by the end of the run; the message with the results carries the no-progress nudge exactly if the round is the n-th to (2n-1)-th edit-free one in a row, and the budget note exactly if it is asked for; such a round is always answered, never cut off by a stop |
| LoopWitness.NudgedOnceExactly | crates/lvz-agent/src/lib.rs:1385-1408 | in all runs with limit n an edit lies between any two nudges, if and only if n is at most 1; for a larger n a run of n + 1 tool rounds without an edit is nudged twice |
| LoopBounds.TryCandidatesTallied | crates/lvz-agent/src/lib.rs:950-1099 | trying candidates opens exactly one stream more than it moves the cursor |
| LoopCursor.OneCandidatePerRound | crates/lvz-agent/src/lib.rs:950-1099 | candidates are opened in order and never go back; one abandoned for the next was demoted and had passed on and held back nothing; a completed round-trip belongs to the one candidate opened just before it |
| LoopCursor.NextTurnStartsHealthy | crates/lvz-agent/src/lib.rs:447-496 | after any sequence of turns on one breaker the next turn starts at the least position not demoted by what those turns did, and at the primary when all are |
| LoopCursor.DeadlinesFollow | crates/lvz-agent/src/lib.rs:478-489 | the deadlines after any turns are those of replaying the turns' breaker changes in order |
| LoopPairing.PairedExactlyAtBoundaries | crates/lvz-agent/src/lib.rs:906-1424 | from a seed without tool blocks, every request of a run has each call answered in order by exactly one same-id result in the next message and no orphan result, if and only if every compaction cut at a turn boundary |
| LoopPairing.PairedWithoutLoneMessages | crates/lvz-agent/src/lib.rs:906-1424 | so it does in every run in which no round-trip paused and no truncated live-ops answer was bounced |
| LoopPairing.RequestPairing | crates/lvz-agent/src/lib.rs:968-978 | building a request, skeleton included, neither adds nor removes calls or results |
| LoopPairing.PauseBreaksPairing | crates/lvz-agent/src/lib.rs:1118-1123 | a paired transcript with one paused answer that compaction cuts between a call and its result |
| LoopWitness.PausedRunIsUnpaired | crates/lvz-agent/src/lib.rs:1118-1123 | a run of five steps under the loop's own token estimate, the third of them paused: the messages of its fifth request, in which a result stands without its call |
| LoopWitness.AnswerStands | crates/lvz-agent/src/lib.rs:1231-1251 | a stream that says "done" and ends its turn: the caller gets the text, the usage and the end, and the run records success |
| LoopWitness.AnswerCutOff | crates/lvz-agent/src/lib.rs:1160-1174 | the same stream cut off at the token limit: the caller gets a single error and the run records failure |
| Session.RunTask | crates/lvz-agent/src/lib.rs:754-1430 | the imperative loop shows the caller, records and leaves in the breaker exactly what the state machine says; it ends in one error or in the total spent and then the end, and records one outcome, last, with that total |
| Session.Session.RunToEnd | crates/lvz-agent/src/lib.rs:906-1430 | the step loop, from the state after the pre-pass to the end, equals the machine's run and always ends |
| Session.Session.constructor | crates/lvz-agent/src/lib.rs:795-904 | pre-pass cost, plan message, notices and start cursor are those of the machine's start state |
| Session.Session.TakeStep | crates/lvz-agent/src/lib.rs:906-1430 | one turn of the loop does what the machine's step does |
| Session.Session.PrepareHistory | crates/lvz-agent/src/lib.rs:910-932 | stale marking, deduplication, compaction when over the knob and eviction, in that order |
| Session.Session.ReadStream | crates/lvz-agent/src/lib.rs:1039-1092 | after reading events the turn holds their fold, prose is held, everything else uncaptured was sent, and the forwarded flag is exact |
| Session.Session.DropCandidate | crates/lvz-agent/src/lib.rs:991-1031 | a candidate that sent nothing is demoted and the next takes over, or the run ends in its error |
| Session.Session.TryModel | crates/lvz-agent/src/lib.rs:950-1099 | one attempt: which outcomes finish, hand over or end the run, with the resulting state |
| Session.Session.TryModels | crates/lvz-agent/src/lib.rs:950-1099 | attempts are repeated until a stream finishes or the run ends |
| Session.Session.Conclude | crates/lvz-agent/src/lib.rs:1101-1251 | counting, the budget check, the pause path and the hand-over to guards or tools |
| Session.Session.ConcludeAnswer | crates/lvz-agent/src/lib.rs:1124-1174 | live-ops nudge, rerouting to the next model and the truncation error, in the loop's order |
| Session.Session.ConcludeCompletion | crates/lvz-agent/src/lib.rs:1175-1251 | the false-claim, no-edit and verify-and-fix guards, each within its cap, then acceptance |
| Session.Session.RunCalls | crates/lvz-agent/src/lib.rs:1253-1353 | every call is answered in call order by a result with its id: the tool's, or an error when not permitted, denied or failed; edits count only if the tool reported a change |
| Session.Session.RunToolTurn | crates/lvz-agent/src/lib.rs:1249-1424 | echo, tools and convergence counters lead to the machine's state |
| Session.Session.ConvergeOn | crates/lvz-agent/src/lib.rs:1366-1424 | stop on a passing in-loop verify or at twice the limit, otherwise push the results with the notes that are due |
| Session.Session.EmitAll | crates/lvz-agent/src/lib.rs:1732-1736 | held events are sent in order |
| TurnModel.TurnAccumulator.Observe | crates/lvz-agent/src/lib.rs:2863-2903 | folding one event in, and which events are handed back to be passed on |
| TurnModel.FoldKeeps | crates/lvz-agent/src/lib.rs:2863-2903 | a folded turn carries the last usage reported and all of the text |
| Breaker.CircuitBreaker.FindAvailable | crates/lvz-agent/src/lib.rs:493-495 | the position found is the first one not open when it is probed, else 0 |
| Breaker.CircuitBreaker.TripAt | crates/lvz-agent/src/lib.rs:478-482 | only the tripped position changes, to now plus the cooldown |
| Breaker.CircuitBreaker.ResetAt | crates/lvz-agent/src/lib.rs:485-489 | only the reset position changes, to healthy |
| Breaker.DeadlinesTellDemotion | crates/lvz-agent/src/lib.rs:471-489 | a position is open exactly if the last event at it is a trip whose cooldown has not elapsed |
| Breaker.StartsAtLeastHealthy | crates/lvz-agent/src/lib.rs:491-495 | after any log of breaker events, interleaved as it may be, the start is the least position not demoted, or 0 |
| StaleReads.StaleMarkingIsExact | crates/lvz-agent/src/lib.rs:2296-2387 | exactly the large, successful, unbracketed results of reads of a path edited later without an error result are replaced, by the note for such a path; of several calls with one id the last read or edit decides |
| StaleReads.MarkStaleKeepsShape | crates/lvz-agent/src/lib.rs:2296-2387 | roles, block order, ids, error flags and every other block are kept |
| StaleReads.MarkStaleIdempotent | crates/lvz-agent/src/lib.rs:2296-2387 | marking again changes nothing |
| StalePaths.PathsExactly | crates/lvz-agent/src/lib.rs:2264-2294 | a string is among the paths of a call exactly if it is the string value of a `path` member or a string item of a `paths` array of some object reached through members other than those two |
| StalePaths.MarkedExactly | crates/lvz-agent/src/lib.rs:2296-2387 | a result is replaced exactly if it is large, successful and unbracketed, the last call with its id to one of ten named tools is one of the five reads, and a later call to one of the five edits that no error result answers mentions one of its paths; told without the index |
| StalePaths.ReadsGoStale | crates/lvz-agent/src/lib.rs:2254-2387 | `read_file` of a path, then `str_replace` of it: the exact note; the mirror leaves the read; `read_files` of two paths goes stale by `edit_files` of one |
| Passes.HistoryBuffer.MarkStaleReads | crates/lvz-agent/src/lib.rs:2296-2387 | the in-place pass leaves the transcript the marking function defines |
| Passes.IndexHistory | crates/lvz-agent/src/lib.rs:2303-2338 | the index of calls by id and the set of failed ids are those of the transcript |
| Passes.LastEdits | crates/lvz-agent/src/lib.rs:2339-2350 | each path maps to the latest position of an edit that did not fail, whatever order the index is read in |
| Dedup.KeptExactlyOnce | crates/lvz-agent/src/lib.rs:2394-2414 | each large content stays at its newest copy and in no other tool result; other copies become pointers; small results are untouched |
| Dedup.MostRecentExactly | crates/lvz-agent/src/lib.rs:2389-2392 | no copy stands behind the one that stays exactly if its message holds the content once |
| Dedup.OlderCopyStays | crates/lvz-agent/src/lib.rs:2394-2414 | two equal results of one round: the first stays and the second, more recent, becomes a pointer |
| Dedup.NewestCopyExists | crates/lvz-agent/src/lib.rs:2394-2414 | every large content that a transcript holds has a newest copy |
| Dedup.DedupKeepsShape | crates/lvz-agent/src/lib.rs:2394-2414 | roles, block order, ids and error flags are kept |
| Dedup.DedupIdempotent | crates/lvz-agent/src/lib.rs:2394-2414 | deduplicating again changes nothing |
| Dedup.PassesIdempotent | crates/lvz-agent/src/lib.rs:906-915 | running stale marking and deduplication again changes nothing |
| Rewritten.PointsExactly | crates/lvz-agent/src/lib.rs:2394-2414 | exactly the results of 200 bytes or more that are neither evicted nor pointers, and whose content stands in a later message or earlier in their own, become the pointer with their size; every other block stays |
| Passes.HistoryBuffer.DedupToolResults | crates/lvz-agent/src/lib.rs:2394-2414 | the in-place pass leaves the transcript the deduplication function defines |
| Compaction.CompactHistory | crates/lvz-agent/src/lib.rs:2162-2211 | when a transcript is replaced, by what, and what the summary cost; nothing happens for a short transcript, a failed call or a blank summary |
| Compaction.AnswerExactly | crates/lvz-agent/src/lib.rs:2185-2196 | the text of a stream is all its text pieces in order, and its usage the last one reported, or none |
| Compaction.CollectAnswer | crates/lvz-agent/src/lib.rs:2185-2196 | reading a side call's stream gives its text and last usage, or nothing if it fails |
| Compaction.CompactionPairing | crates/lvz-agent/src/lib.rs:2168-2206 | compaction of a paired transcript keeps it paired exactly if the first message kept answers no call |
| Rewritten.EvictsExactly | crates/lvz-agent/src/lib.rs:2423-2445 | the results of the shortest stretch of messages behind the task give way to notes of their size until the estimate is within the limit, or all up to the last four messages; the task and the last four are untouched |
| Eviction.EvictedForGood | crates/lvz-agent/src/lib.rs:2423-2445 | an evicted result cannot be evicted again |
| Eviction.EvictNoteTokens | crates/lvz-agent/src/lib.rs:2435 | every eviction note costs ten tokens |
| Eviction.EvictionCost | crates/lvz-agent/src/lib.rs:2423-2464 | after eviction a message costs ten tokens for each evicted result and what it did for every other block |
| Eviction.TinyEvictionRaises | crates/lvz-agent/src/lib.rs:2435 | evicting a result raises the estimate exactly if it cost fewer than ten tokens |
| Passes.HistoryBuffer.Evict | crates/lvz-agent/src/lib.rs:2423-2445 | the in-place pass leaves the transcript the eviction function defines |
| Passes.CountHistoryTokens | crates/lvz-agent/src/lib.rs:2250-2252 | the loop over messages computes the estimate of the transcript |
| Estimator.EstimateTokens | crates/lvz-context/src/tokens.rs:14-31 | the scanning loop counts words and punctuation characters |
| Estimator.TokensAddUp | crates/lvz-context/src/tokens.rs:14-31 | the estimate adds up over texts separated by white space |
| Estimator.ProxyAddsUp | crates/lvz-agent/src/lib.rs:2448-2464 | a message costs what its blocks cost one by one |
| Estimated.CountsTokenStarts | crates/lvz-context/src/tokens.rs:14-31 | the estimate is the number of positions that hold a punctuation character or begin a word |
| Estimated.TranscriptPrice | crates/lvz-agent/src/lib.rs:2448-2468 | the estimate of a transcript is the sum over its blocks of the tokens of their texts, of name and printed arguments for a call, and of eight for a picture or document |
| Strings.SizeIsEncoded | crates/lvz-agent/src/lib.rs:2399 | the size of a text is the number of bytes of its UTF-8 encoding |
| History.SameShapeKeepsPairing | crates/lvz-agent/src/lib.rs:2296-2445 | a pass that only rewrites result texts keeps calls and results paired, and cannot repair them |
| Request.SkeletonKeepsOutline | crates/lvz-agent/src/lib.rs:2817-2829 | the repository skeleton in a request neither makes nor answers calls |
| SymbolGraph.Link | crates/lvz-context/src/symbols.rs:195-245 | the linker's loops build exactly the declared edges and narrowing count |
| SymbolGraph.BestTier | crates/lvz-context/src/symbols.rs:218-232 | the definers kept are exactly those no other definer outscores, and none is dropped exactly if all tie |
| SymbolGraph.RankingOnlyDrops | crates/lvz-context/src/symbols.rs:165-185 | edges ranked by imports are a subset of the unranked ones, from the same symbols |
| SymbolGraph.NarrowedExactly | crates/lvz-context/src/symbols.rs:186-193 | the narrowing count is zero exactly if ranking changed no edge |
| SymbolGraph.ReferencesKeepAnEdge | crates/lvz-context/src/symbols.rs:195-245 | a reference to another name defined anywhere keeps an edge, a same-file definition wins, and every edge ends at a defined symbol |
| SymbolGraph.DroppedOnEvidence | crates/lvz-context/src/symbols.rs:156-164 | a definer is passed over only for one that the imports mention, and that scores better |
| LinkedExactly.EdgesExactly | crates/lvz-context/src/symbols.rs:195-245 | an edge leads exactly from a symbol to each other name its definitions refer to: in its own file if that defines the name, else in every defining file with the most path words among the referrer's imports |
| Reach.Search | crates/lvz-context/src/symbols.rs:275-306 | breadth-first search returns exactly the ball of the given radius around the seeds |
| Reach.BallIsDistance | crates/lvz-context/src/symbols.rs:275-306 | a symbol is in the ball of radius r exactly if a path of at most r references leads to it from a seed |
| Reach.NeighborsWithin | crates/lvz-context/src/symbols.rs:251-256 | the names of the ball |
| Reach.NeighborsWithinByFile | crates/lvz-context/src/symbols.rs:263-271 | the names of the ball, file by file |
| Reach.RadiusZeroIsTheTarget | crates/lvz-context/src/symbols.rs:247-256 | radius 0 yields just the target |
| Reach.ReachedAreDefined | crates/lvz-context/src/symbols.rs:275-306 | in a linked graph everything reached is defined, except a bare unknown target, and lies in one of the files |
| SyntaxTree.CollectBound | crates/lvz-context/src/symbols.rs:426-450 | the names bound below a node, from pattern, name or child positions of its binders |
| SyntaxTree.CollectRefs | crates/lvz-context/src/symbols.rs:453-471 | the identifiers below a node that are not bound |
| SyntaxTree.WalkSymbols | crates/lvz-context/src/symbols.rs:399-419 | every named symbol node in document order with its references |
| SyntaxTree.FromSource | crates/lvz-context/src/symbols.rs:123-132 | the graph of one file is the link of its definitions |
| LinkedExactly.TreeEdgesExactly | crates/lvz-context/src/symbols.rs:399-471 | in one file an edge leads from a symbol to another exactly if both are named symbol nodes, an identifier below a node of the first spells the second, and no binder below that node introduces it, by its pattern, without one its name, without either any child |
| Skeleton.ElisionList.CollectBodyElisions | crates/lvz-context/src/skeleton.rs:62-106 | the recursive walk appends exactly the elisions of the tree |
| Skeleton.ElisionsDisjoint | crates/lvz-context/src/skeleton.rs:62-106 | whatever is kept, the elided ranges are in order, disjoint and inside the tree |
| Skeleton.Splice | crates/lvz-context/src/skeleton.rs:31-37 | sorting by descending start and splicing from right to left equals the left-to-right rewrite |
| Skeleton.SortingReverses | crates/lvz-context/src/skeleton.rs:32 | any sort by descending start reverses ascending ranges |
| Skeleton.Skeletonize | crates/lvz-context/src/skeleton.rs:23-38 | the skeleton is the rewritten source; a source that does not parse comes back unchanged |
| Shown.RewriteShowsTheRest | crates/lvz-context/src/skeleton.rs:31-37 | apart from placeholders, the output is exactly the positions outside the elided ranges, in order |
| Shown.HiddenExactly | crates/lvz-context/src/skeleton.rs:62-106 | where nested definitions lie in bodies after any docstring, a position is hidden exactly if it is in the elided part of some definition that is not kept |
| Shown.KeepingMoreShowsMore | crates/lvz-context/src/skeleton.rs:62-106 | on such trees keeping more names never hides anything |
| Shown.SkeletonWithRadius | crates/lvz-context/src/symbols.rs:373-376 | graph, search and skeleton together keep the names within the radius |
| Shown.LargerRadiusShowsMore | crates/lvz-context/src/symbols.rs:373-376 | every position shown at one radius is shown at every larger one |
| Shown.HiddenByDistance | crates/lvz-context/src/symbols.rs:370-376 | at radius r a position is hidden exactly if it lies in the elided part of a definition that has no name or whose name no path of at most r references reaches |
| Nesting.LostExactly | crates/lvz-context/src/skeleton.rs:62-106 | on any tree and for any two keep sets, one within the other: a position is hidden under the larger and shown under the smaller exactly if the outermost definition that the larger set elides on the way to it holds it in its elided part, and the outermost one that the smaller set elides lies around that one and does not |
| Nesting.KeepingMoreHidesExactly | crates/lvz-context/src/skeleton.rs:62-106 | keeping more names can hide something exactly if the tree has a misnested definition: one partly outside the elided part of another around it, all around it named, each of the two by a new name |
| Nesting.TidyIsEnough | crates/lvz-context/src/skeleton.rs:62-106 | where nested definitions lie in bodies after any docstring none is misnested |
| Nesting.LargerRadiusHidesExactly | crates/lvz-context/src/symbols.rs:373-376 | on any tree, which positions a larger radius hides that a smaller one shows |
| Docstrings.HiddenBehindDocstrings | crates/lvz-context/src/skeleton.rs:70-131 | on trees whose definitions nest, for every keep set: a position is hidden exactly if it is in the body of a definition that is not kept and, in a language that keeps docstrings, behind the end of an `expression_statement` that opens the body with a `string` |
| Docstrings.PlaceholderIs | crates/lvz-context/src/skeleton.rs:70-106 | what takes the place of an elided part: the language's placeholder, behind a line feed and the text ahead of the body on its line where a docstring stays; nothing where the docstring is all there is |
| Docstrings.DocstringStays | crates/lvz-context/src/skeleton.rs:23-131 | a Python function with a docstring and a statement: the exact skeleton |
| Docstrings.DocstringAloneStays | crates/lvz-context/src/skeleton.rs:70-106 | a Python function that is only a docstring comes back whole |
| RadiusWitness.RadiusOneHidesMore | crates/lvz-context/src/symbols.rs:365-376 | a JavaScript source with a function in a default argument, its parse tree without punctuation and keyword tokens: a position in that function is shown at radius 0 and hidden at radius 1 |
| Anchor.ApplyEdits | crates/lvz-context/src/anchor.rs:195-297 | the result, or the first failing edit's error, is that of resolving against the original lines and rebuilding line by line |
| Anchor.EmitLine | crates/lvz-context/src/anchor.rs:259-290 | a line becomes the insertions before it, its replacements or itself, and the insertions after it |
| AnchorOrder.BatchIsLaidOut | crates/lvz-context/src/anchor.rs:251-290 | where every line of every edit's text, and every line that stays, stands in the output of a batch |
| AnchorOrder.OrderedOnOneLine | crates/lvz-context/src/anchor.rs:259-290 | of two edits on one line, the lines of an insert-before stand ahead of all others', those of an insert-after behind, those of the same kind in batch order, each text in one piece, and a line that stays between the two kinds of insertion |
| AnchorOrder.FourEditsOnOneLine | crates/lvz-context/src/anchor.rs:195-297 | two insertions before, a replacement and an insertion after the line of "a\n", in another order in the batch: the exact text written |
| AnchorTargets.ResolvesExactly | crates/lvz-context/src/anchor.rs:198-249 | an edit resolves to a line exactly if it is the only match, or the first match below a landmark that is itself unique |
| AnchorTargets.RefusedExactly | crates/lvz-context/src/anchor.rs:198-249 | which error a refused edit gets, with the numbers of lines in it: nothing has its anchor, several do and no landmark is named, or the landmark is missing, not the only one, or below all of them |
| AnchorTargets.ResolutionDrifts | crates/lvz-context/src/anchor.rs:198-249 | inserting lines that match no anchor or landmark leaves each edit resolving to the same line, or refused with the same error |
| AnchorTargets.EditsSurviveDrift | crates/lvz-context/src/anchor.rs:198-290 | the batch's output is then the old output with the inserted lines in place |
| AnchorBatch.BatchEqualsOneAtATime | crates/lvz-context/src/anchor.rs:190-297 | independent edits (distinct lines, no needed landmark removed, no inserted line carrying another's anchor or landmark) do in one batch what they do one at a time in any order |
| AnchorBatch.MeansMoves | crates/lvz-context/src/anchor.rs:198-249 | after one edit every independent edit still resolves to its own line |
| AnchorText.OutputIsContributed | crates/lvz-context/src/anchor.rs:251-290 | the lines a batch produces are the source lines that no replacing or deleting edit resolves to and the lines of the edits' texts |
| AnchorText.EditedReadsBack | crates/lvz-context/src/anchor.rs:190-297 | the text written reads back as the lines the batch produces exactly if, where the source ends in a line feed, something stays or is inserted and no such line ends in a carriage return, and otherwise no produced line but the last does and the last is not empty |
| AnchorText.NewlineKeptExactly | crates/lvz-context/src/anchor.rs:190-297 | the text written ends in a line feed exactly if the source does or the last of two or more lines is empty |
| AnchorText.DeletedFile | crates/lvz-context/src/anchor.rs:292-296 | deleting the only line of "a\n" writes "\n", which reads as one empty line |
| AnchorText.LostEmptyLine | crates/lvz-context/src/anchor.rs:292-296 | inserting an empty line behind the last line of "a" writes "a\n", which reads as one line |
| AnchorText.LostCarriageReturn | crates/lvz-context/src/anchor.rs:195-196 | an empty batch on "a\r\r\n" writes "a\r\n", of which the next reading drops the carriage return |
| AnchorText.ReadsBackExactly | crates/lvz-context/src/anchor.rs:292-296 | for any lines without line feeds, when the text written for them reads back as those lines |
| Framing.CutsDoNotMatter | crates/lvz-google/src/sse.rs:35-42 | however the bytes are cut into pushes, the state and the unfinished line are the same |
| Framing.StreamIsItsLines | crates/lvz-google/src/sse.rs:35-51 | a stream pushed and ended is a stream handled line by line |
| Framing.ReadLineExactly | crates/lvz-google/src/sse.rs:53-65 | a line carries a JSON value exactly if it is `data:` and JSON for the value, with white space anywhere around the two, and is malformed exactly if what follows is not empty and no JSON |
| GeminiSse.GeminiDecoder.Push | crates/lvz-google/src/sse.rs:35-42 | draining the buffer handles every complete line and keeps the rest |
| GeminiSse.GeminiDecoder.HandleChunk | crates/lvz-google/src/sse.rs:67-120 | usage, parts in order with numbered calls, and the finish reason |
| GeminiSse.GeminiDecoder.Eof | crates/lvz-google/src/sse.rs:44-51 | the rest of the buffer is handled, then usage and end are emitted once |
| GeminiSse.DecodingIgnoresCuts | crates/lvz-google/src/sse.rs:35-65 | the same bytes, however cut, decode to the same events and the same state |
| GeminiStream.DecodedShape | crates/lvz-google/src/sse.rs:67-137 | every stream decodes to contiguous start, delta and end triples numbered in order, other items, and then one usage report followed by the only end |
| GeminiStream.StartsDiffer | crates/lvz-google/src/sse.rs:82-109 | the calls of one stream have different ids, whatever their signatures contain |
| GeminiStream.SignatureReadsBack | crates/lvz-google/src/lib.rs:695-702 | a signature is recovered whole from an id, even when it contains the separator |
| GeminiStream.TurnHoldsCalls | crates/lvz-agent/src/lib.rs:2863-2903 | the turn folded from a stream holds its calls in order with numbered ids and whole arguments |
| GeminiWritten.DecodesWhatIsSaid | crates/lvz-google/src/sse.rs:35-146 | every stream decodes to exactly what its lines say: their texts, thoughts and calls in order, calls numbered through and signed, an error for each broken line, and at the end the last counts (the cached prompt counted apart, thoughts as output) and the last finish reason, a tool stop for a finished turn with calls |
| GeminiWire.BuildContents | crates/lvz-google/src/lib.rs:643-669 | names are looked up by call id and every message is mapped in order |
| GeminiWire.CallsComeBack | crates/lvz-google/src/lib.rs:643-703 | decoding, folding, taking the turn into a transcript and building its contents gives back the stream's calls in order with the same names and signatures and with what printing and parsing makes of their arguments, whatever the JSON library does; all is unchanged exactly if those arguments survive it |
| GeminiWire.ResponseNames | crates/lvz-google/src/lib.rs:643-669 | a function response carries the name of the last call with its id, so that of the call it answers exactly if the two names agree |
| GeminiWritten.ChunkIsWritten | crates/lvz-google/src/sse.rs:67-120 | the documented JSON of every chunk of 64-bit counts says the chunk |
| GeminiRead.ContentsReadBack | crates/lvz-google/src/lib.rs:643-722 | read by role and part, the contents of a transcript give back each message: its role, texts, media, calls with the signature behind the first separator of their id, and responses as result or error under the name of the last call with their id |
| GeminiWitness.TwoCallsComeBack | crates/lvz-google/src/sse.rs:82-109 | a stream of bytes with two calls, one signed with the separator in its signature, comes back unchanged |
| GeminiWitness.SecondStreamTakesOver | crates/lvz-google/src/sse.rs:82-109 | two streams both number their call zero, and the answer to the first goes back under the name of the second |
| AnthropicSse.AnthropicDecoder.Push | crates/lvz-anthropic/src/sse.rs:38-45 | draining the buffer handles every complete line and keeps the rest |
| AnthropicSse.AnthropicDecoder.HandleEvent | crates/lvz-anthropic/src/sse.rs:70-173 | what each wire event emits and how it changes the open calls, usage, stop and end flag |
| AnthropicSse.AnthropicDecoder.Eof | crates/lvz-anthropic/src/sse.rs:47-54 | the rest of the buffer is handled, then usage and end are emitted unless they were |
| AnthropicSse.DecodingIgnoresCuts | crates/lvz-anthropic/src/sse.rs:38-68 | the same bytes, however cut, decode to the same events and the same state |
| AnthropicSse.DecodedOutput | crates/lvz-anthropic/src/sse.rs:70-173 | what is decoded is what each wire event says in the light of those before it; pieces and ends of a call carry the id open at their index and are dropped when none is |
| AnthropicSse.OpenWasStarted | crates/lvz-anthropic/src/sse.rs:92-160 | a call open at an index was started there, and nothing was started or stopped there since |
| AnthropicSse.DecodedEndsOnce | crates/lvz-anthropic/src/sse.rs:47-183 | every stream decodes to exactly one usage report, directly followed by the only end |
| AnthropicWritten.ReadsWhatIsSaid | crates/lvz-anthropic/src/sse.rs:70-246 | an event is read as a wire event exactly if its members say that: counters, all stop reasons, block starts, the four kinds of pieces, the glimpse of a hosted tool's input, the source of a citation, the message of an error |
| AnthropicWritten.WrittenReadsBack | crates/lvz-anthropic/src/sse.rs:70-173 | the documented JSON of an event is read as the event |
| AnthropicWritten.DecodesWhatIsSaid | crates/lvz-anthropic/src/sse.rs:38-183 | every stream, however cut, decodes to what its lines say, each in the light of those before it, and the end |
| AnthropicWritten.ScriptDecodes | crates/lvz-anthropic/src/sse.rs:38-183 | a stream of bytes with a cached prompt, a text and a call whose arguments come in two pieces decodes, however cut, to exactly these events and this usage |
| AnthropicWire.MarkConversationTail | crates/lvz-anthropic/src/lib.rs:531-547 | the in-place marking of the last block |
| AnthropicWire.TailMarkingCounts | crates/lvz-anthropic/src/lib.rs:523-547 | marking adds exactly one breakpoint, on the last block, and never makes more than four |
| AnthropicBody.BuildBody | crates/lvz-anthropic/src/lib.rs:356-411 | the body has exactly the members its request calls for, and then its tail is marked |
| AnthropicRead.PromptReadsBack | crates/lvz-anthropic/src/lib.rs:572-757 | read by role and block type, a body gives back the model, the system prompt, the tools and every message of its request without its thinking, each with the cache lifetime that was asked for |
| AnthropicRead.SentIsMeant | crates/lvz-anthropic/src/lib.rs:523-547 | a body that is sent reads the same, except that a last text may be cached for five minutes |
| AnthropicOptions.EveryBodyIsRuled | crates/lvz-anthropic/src/lib.rs:364-521 | for each family of models, told by the words in its name: which sampling parameters, tool choice, thinking, effort, output format and token limit a body states, and its hosted tools, built-in tools and servers |
| AnthropicBody.AddOptions | crates/lvz-anthropic/src/lib.rs:376-408 | each option is present exactly if it was asked for and the model takes it; no other member changes |
| AnthropicBody.ApplyThinking | crates/lvz-anthropic/src/lib.rs:470-521 | which members the thinking level sets, raises or removes for each family of models; no other member changes |
| AnthropicBody.ThinkingFits | crates/lvz-anthropic/src/lib.rs:453-502 | a body that asks for thinking carries no temperature, and a fixed budget is below its token limit |
| AnthropicBody.NoSamplingWhereRejected | crates/lvz-anthropic/src/lib.rs:413-418 | models that reject sampling parameters get none |
| AnthropicBody.NoForcedChoice | crates/lvz-anthropic/src/lib.rs:435-457 | the model that rejects forced tool choices is never sent one |
| AnthropicBody.PromptCount | crates/lvz-anthropic/src/lib.rs:550-569 | before its tail is marked a body carries one breakpoint for each cache flag of its request |
| AnthropicBody.AtMostFourAndTailMarked | crates/lvz-anthropic/src/lib.rs:356-411 | a body for a request of the agent carries at most four breakpoints, and if anything of the last message is sent its last block carries one |
| Limiter.Limiter.Allow | crates/lvz-gw-http/src/lib.rs:198-216 | the decision and the new window; other principals' windows are unchanged |
| Limiter.AtMostTwiceTheMaximum | crates/lvz-gw-http/src/lib.rs:177-216 | with non-decreasing times a principal is allowed at most twice the maximum in any half-open interval one window long |
| Limiter.RefusedExactlyWhenFull | crates/lvz-gw-http/src/lib.rs:198-216 | a request is refused exactly if the maximum has been allowed to its principal since the start of the window it falls into, or if the window has no length and the maximum is zero |
| Limiter.PrincipalsAreIndependent | crates/lvz-gw-http/src/lib.rs:198-216 | what is decided about one principal is what would be decided if its requests were the only ones |

## Left out

- The wording of nudges, refusals, plans and budget notes is a parameter: no theorem depends on it, and the notes that
  do matter (stale, duplicate, evicted, compacted) are written out.
- The keyword heuristics (`classify_archetype`, live-ops and tool-claim phrase lists) are arbitrary predicates.
- Result truncation, image admission, knob injection into tool arguments and tool-name lists other than the read and
  edit tools: a tool's reply is taken as it enters the transcript.
- Telemetry, tuner learning, radius counterfactuals and the largest-result counter: they never feed back into a run.
- The knob suffix of the system prompt and the tag around the repository skeleton are part of the settings.
- What is sent in side calls (the transcript rendered for a summary, the advisor's and classifier's prompts): only how
  their answers are used.
- Real transports, timeouts, process spawning and the clock: an attempt is one of the outcomes the loop branches on;
  an endless stream is not modelled, every stream has finitely many events.
- Turns that run at the same time: within one turn the breaker is not changed by others; `Breaker.StartsAtLeastHealthy`
  covers any interleaving of breaker events at the start of a turn.
- Machine integers: usage, counters, deadlines and positions are unbounded, so overflow and saturation do not occur;
  the search radius may exceed 255.
- Cost weights and prices: the cost of a usage is an arbitrary function to natural numbers.
- The JSON library: printing and parsing are arbitrary parameters, and no round trip between them is assumed; objects are
  ordered lists of members.
- tree-sitter: a parse tree is any tree whose children lie in order inside their parents; `Skeleton.Splice` also needs
  every definition to open with something other than its body.
- Positions in a source count characters rather than UTF-8 bytes; byte lengths are modelled where sizes are compared.
- How paths and import declarations are cut into words (`path_tokens`, `collect_import_segments`): linking takes the
  two sets of words as given.
- The hash of an anchor is an arbitrary function of the line, so collisions are allowed; rendering anchored lines is
  left out.
- `AnchorBatch.BatchEqualsOneAtATime` and `AnchorTargets.EditsSurviveDrift` are about lists of lines, because writing
  and rereading a text can lose an empty last line or a carriage return.
- Gemini request options, safety settings and cached contents; token counting; file upload; batch polling.
- Other providers, the terminal, chat and HTTP front ends, the cron engine and the tool implementations.

/** The agent loop as a state machine. Providers, tools, the verify command, approval and the clock
    are oracles: arbitrary functions of how often they have been asked, so that a statement for all of
    them holds of every run, however their answers depend on what they were sent. */
module AgentLoop {
  import opened Strings
  import opened Protocol
  import opened History
  import opened Compaction
  import opened TurnModel
  import opened Breaker
  import opened Request
  import StaleReads
  import Dedup
  import Eviction

  const MAX_EDIT_NUDGES := 2
  const MAX_TOOL_CLAIM_NUDGES := MAX_EDIT_NUDGES
  const MAX_LIVE_OPS_NUDGES := 1
  const MAX_FIX_ATTEMPTS := 3

  // ----- configuration and oracles -----

  /** The texts the loop writes itself; their wording is a parameter. */
  datatype Nudge = LiveOps | FalseClaim | NoEdit | VerifyFailed(output: string) | NoProgress

  datatype Refusal = NotPermitted(tool: string) | Denied(tool: string, reason: string) | ToolFailed(message: string)

  datatype Config = Config(
    settings: Settings,
    json: JsonText,
    model: string,
    cheapModel: Option<string>,
    escalateAfter: nat,
    fallbacks: seq<string>,
    caching: nat -> bool,
    maxSteps: nat,
    budget: Option<nat>,
    cost: Usage -> nat,
    estimate: Eviction.Estimate,
    compactAfter: nat,
    contextLimit: Option<nat>,
    hasVerify: bool,
    inLoopVerify: bool,
    verifyAndFix: bool,
    requireEdit: bool,
    editTask: bool,
    noProgressLimit: Option<nat>,
    budgetAware: bool,
    liveOpsAsk: bool,
    claimsTool: string -> bool,
    allowedTools: Option<set<string>>,
    nudgeText: Nudge -> string,
    refusalText: Refusal -> string,
    planText: (bool, string) -> string,
    budgetNote: (nat, Usage) -> string)

  datatype StreamEnd = Finished | Stalled | Broke(message: string)

  datatype Attempt =
    | OpenTimedOut
    | OpenFailed(message: string)
    | Streaming(events: seq<Event>, end: StreamEnd)

  /** A tool's answer, its text already truncated and its images admitted. */
  datatype ToolOutput = ToolOutput(content: string, isError: bool, changed: bool, pending: Option<string>, images: seq<ToolImage>)

  datatype ToolReply = ToolReply(notices: seq<string>, outcome: Result<ToolOutput, string>)

  datatype PrePass =
    | NoPrePass
    | Council(notices: seq<string>, plan: Option<Answer>)
    | Advisor(reply: SideReply)

  datatype Env = Env(
    classifier: Option<Usage>,
    prePass: PrePass,
    probe: Clock,
    now: Clock,
    attempt: nat -> Attempt,
    summary: nat -> SideReply,
    verify: nat -> bool,
    verifyOutput: nat -> (bool, string),
    denial: (nat, nat) -> Option<string>,
    tool: (nat, nat) -> ToolReply)

  // ----- what a run shows -----

  datatype AgentError = NoResponse | StreamStalled | ProviderFailed(message: string) | ResponseIncomplete | BudgetExceeded

  datatype Sent = Sent(event: Event) | SentError(error: AgentError)

  /** What became of a round-trip. */
  datatype Verdict =
    | OverBudget
    | Paused
    | LiveOpsNudged(truncated: bool)
    | Rerouted
    | Truncated
    | ClaimNudged
    | EditNudged
    | FixNudged
    | Accepted
    | ToolsRun(edited: bool)
    | FailedMidway

  /** What the agent itself tells the caller: notices and images, never answer text or thinking. */
  type Reports = events: seq<Event> | forall i | 0 <= i < |events| :: !IsProse(events[i]) && !IsCaptured(events[i])

  datatype TraceItem =
    | PrePaid(usage: Usage)
    | Summarised(before: Transcript, usage: Usage)
    | Opened(request: ChatRequest, candidate: nat)
    | Abandoned(events: seq<Event>)
    | Round(verdict: Verdict, events: seq<Event>)
    | BreakerChanged(change: BreakerEvent)
    | Reported(reports: Reports)
    | Replied(message: Message)
    | Recorded(total: Usage, roundTrips: nat, success: bool, ending: Ending)

  /** How a run ends for its caller. */
  datatype Ending = Failing(error: AgentError) | Finishing(stop: StopReason)

  datatype State = State(
    history: Transcript,
    cursor: nat,
    deadlines: seq<nat>,
    total: Usage,
    roundTrips: nat,
    streak: nat,
    nudgedAt: Option<nat>,
    edited: bool,
    editNudges: nat,
    claimNudges: nat,
    liveOpsNudges: nat,
    fixAttempts: nat,
    requireTool: bool,
    opens: nat,
    sink: seq<Sent>,
    trace: seq<TraceItem>,
    over: bool)

  // ----- elementary steps -----

  function Send(s: State, events: seq<Event>): State {
    s.(sink := s.sink + seq(|events|, i requires 0 <= i < |events| => Sent(events[i])))
  }

  function Log(s: State, item: TraceItem): State {
    s.(trace := s.trace + [item])
  }

  function Push(s: State, m: Message): State {
    s.(history := s.history + [m])
  }

  function Fail(s: State, e: AgentError): State {
    var r := Log(s, Recorded(s.total, s.roundTrips, false, Failing(e)));
    r.(sink := r.sink + [SentError(e)], over := true)
  }

  function Finish(s: State, success: bool, stop: StopReason): State {
    var r := Log(s, Recorded(s.total, s.roundTrips, success, Finishing(stop)));
    r.(sink := r.sink + [Sent(UsageReport(s.total)), Sent(Done(stop))], over := true)
  }

  /** The results of a tool round go back to the model. */
  function Reply(s: State, m: Message): State {
    Push(Log(s, Replied(m)), m)
  }

  function ChangeBreaker(s: State, cooldown: nat, e: BreakerEvent): State {
    Log(s.(deadlines := Applied(s.deadlines, cooldown, e)), BreakerChanged(e))
  }

  // ----- before a request -----

  /** The history passes at the top of every step, in their order. */
  function Prepare(cfg: Config, env: Env, s: State, step: nat): State {
    var h := Dedup.DedupAll(StaleReads.MarkStale(s.history));
    var t := CompactWhenLong(cfg, env, s.(history := h), step);
    match cfg.contextLimit
    case Some(limit) => t.(history := Eviction.EvictToFit(cfg.estimate, t.history, limit))
    case None => t
  }

  function CompactWhenLong(cfg: Config, env: Env, s: State, step: nat): State {
    if cfg.estimate(s.history) > cfg.compactAfter && CompactReply(s.history, env.summary(step)).Some? then
      var a := CompactReply(s.history, env.summary(step)).value;
      Log(s, Summarised(s.history, a.usage)).(history := Compacted(s.history, a.text), total := Plus(s.total, a.usage))
    else s
  }

  // ----- opening a stream on some candidate -----

  /** Cheap-model-first applies to the primary only; fallbacks name their model. */
  function ModelAt(cfg: Config, cursor: nat, roundTrips: nat): string
    requires cursor <= |cfg.fallbacks|
  {
    if cursor > 0 then cfg.fallbacks[cursor - 1]
    else if cfg.cheapModel.Some? && roundTrips < cfg.escalateAfter then cfg.cheapModel.value
    else cfg.model
  }

  function RequestFor(cfg: Config, s: State, choice: Option<ToolChoice>): ChatRequest
    requires s.cursor <= |cfg.fallbacks|
  {
    BuildRequest(cfg.settings, ModelAt(cfg, s.cursor, s.roundTrips), cfg.caching(s.cursor), s.history, choice)
  }

  function EventsOf(a: Attempt): seq<Event> {
    if a.Streaming? then a.events else []
  }

  function FailureOf(a: Attempt): AgentError {
    match a
    case OpenTimedOut => NoResponse
    case OpenFailed(message) => ProviderFailed(message)
    case Streaming(_, Broke(message)) => ProviderFailed(message)
    case Streaming(_, _) => StreamStalled
  }

  /** What came of trying a candidate: the next one takes over, the run ended, or a stream finished. */
  datatype Tried = TryNext(state: State) | GaveUp(state: State) | Completed(state: State, events: seq<Event>)

  function Open(cfg: Config, s: State, choice: Option<ToolChoice>): State
    requires s.cursor <= |cfg.fallbacks|
  {
    Log(s, Opened(RequestFor(cfg, s, choice), s.cursor)).(opens := s.opens + 1)
  }

  /** The stream ran to its end: its prose is held back, the candidate is healthy. */
  function StreamFinished(cooldown: nat, s: State, events: seq<Event>): State {
    ChangeBreaker(Send(s, Immediate(events)), cooldown, Reset(s.cursor))
  }

  /** The stream failed with output already passed on: no other candidate can take over. */
  function StreamLost(s: State, events: seq<Event>, error: AgentError): State {
    Fail(Log(Send(Send(s, Immediate(events)), Prose(events)), Round(FailedMidway, events)), error)
  }

  /** The candidate failed before any output: it is demoted, and the next one takes over if there is one. */
  function CandidateDown(cfg: Config, cooldown: nat, s: State, at: nat, events: seq<Event>, error: AgentError): (t: Tried)
    requires s.cursor <= |cfg.fallbacks|
    ensures t.state.cursor == (if t.TryNext? then s.cursor + 1 else s.cursor) <= |cfg.fallbacks| && !t.Completed?
  {
    var t := ChangeBreaker(s, cooldown, Trip(s.cursor, at));
    if s.cursor < |cfg.fallbacks|
    then TryNext(Log(t, Abandoned(events)).(cursor := s.cursor + 1))
    else GaveUp(Fail(Log(t, Round(FailedMidway, events)), error))
  }

  function TryOne(cfg: Config, cooldown: nat, env: Env, s: State, choice: Option<ToolChoice>): (t: Tried)
    requires s.cursor <= |cfg.fallbacks|
    ensures t.state.cursor == (if t.TryNext? then s.cursor + 1 else s.cursor) <= |cfg.fallbacks|
  {
    var a := env.attempt(s.opens);
    var events := EventsOf(a);
    var o := Open(cfg, s, choice);
    if a.Streaming? && a.end.Finished? then Completed(StreamFinished(cooldown, o, events), events)
    else if Forwarded(events) != [] then GaveUp(StreamLost(o, events, FailureOf(a)))
    else CandidateDown(cfg, cooldown, o, env.now(s.opens), events, FailureOf(a))
  }

  /** The candidates from the cursor on, in order, until one of them decides the round-trip. */
  function TryCandidates(cfg: Config, cooldown: nat, env: Env, s: State, choice: Option<ToolChoice>): (t: Tried)
    requires s.cursor <= |cfg.fallbacks|
    ensures !t.TryNext? && s.cursor <= t.state.cursor <= |cfg.fallbacks|
    decreases |cfg.fallbacks| - s.cursor
  {
    var t := TryOne(cfg, cooldown, env, s, choice);
    if t.TryNext? then TryCandidates(cfg, cooldown, env, t.state, choice) else t
  }

  // ----- after a round-trip -----

  predicate IsTruncated(stop: Option<StopReason>) {
    stop == Some(MaxTokens) || stop == Some(Other("incomplete"))
  }

  function Verify(cfg: Config, env: Env, step: nat): bool {
    !cfg.hasVerify || env.verify(step)
  }

  predicate Overspent(cfg: Config, total: Usage) {
    cfg.budget.Some? && cfg.cost(total) > cfg.budget.value
  }

  predicate ClaimsTool(cfg: Config, text: string) {
    cfg.claimsTool(text)
  }

  /** `run_verify_output`: nothing without a verify command, else whether it passed and what it wrote. */
  function VerifyOutput(cfg: Config, env: Env, step: nat): Option<(bool, string)> {
    if cfg.hasVerify then Some(env.verifyOutput(step)) else None
  }

  function Output(outcome: Option<(bool, string)>): string {
    if outcome.Some? then outcome.value.1 else ""
  }

  predicate Fails(outcome: Option<(bool, string)>) {
    outcome.Some? && !outcome.value.0
  }

  function NudgeMessage(cfg: Config, nudge: Nudge): Message {
    UserText(cfg.nudgeText(nudge))
  }

  function Permitted(cfg: Config, name: string): bool {
    cfg.allowedTools.None? || name in cfg.allowedTools.value
  }

  /** Call `k` of the round really ran: permitted, not denied, and the tool answered. */
  function ToolRan(cfg: Config, env: Env, step: nat, calls: seq<ToolCall>, k: nat): bool
    requires k < |calls|
  {
    Permitted(cfg, calls[k].name) && env.denial(step, k).None? && env.tool(step, k).outcome.Ok?
  }

  function EditsFile(cfg: Config, env: Env, step: nat, calls: seq<ToolCall>, k: nat): bool
    requires k < |calls|
  {
    ToolRan(cfg, env, step, calls, k) && env.tool(step, k).outcome.value.changed && StaleReads.IsEditTool(calls[k].name)
  }

  /** Some edit tool among the first `n` calls reported a change. */
  function MadeEdit(cfg: Config, env: Env, step: nat, calls: seq<ToolCall>, n: nat): bool
    requires n <= |calls|
  {
    n > 0 && (MadeEdit(cfg, env, step, calls, n - 1) || EditsFile(cfg, env, step, calls, n - 1))
  }

  function Judge(cfg: Config, env: Env, step: nat, s: State, turn: Turn): (v: Verdict)
    ensures v.Rerouted? ==> s.cursor < |cfg.fallbacks|
    ensures v.ToolsRun? ==> turn.calls != []
    ensures !v.FailedMidway?
  {
    if Overspent(cfg, s.total) then OverBudget
    else if turn.calls != [] then ToolsRun(MadeEdit(cfg, env, step, turn.calls, |turn.calls|))
    else if turn.stop == Some(PauseTurn) then Paused
    else if cfg.liveOpsAsk && s.liveOpsNudges < MAX_LIVE_OPS_NUDGES then LiveOpsNudged(IsTruncated(turn.stop))
    else if cfg.liveOpsAsk && s.cursor < |cfg.fallbacks| then Rerouted
    else if IsTruncated(turn.stop) then Truncated
    else if ClaimsTool(cfg, turn.text) && s.claimNudges < MAX_TOOL_CLAIM_NUDGES then ClaimNudged
    else if cfg.requireEdit && !s.edited && cfg.editTask && s.editNudges < MAX_EDIT_NUDGES then EditNudged
    else if cfg.verifyAndFix && s.fixAttempts < MAX_FIX_ATTEMPTS && Fails(VerifyOutput(cfg, env, step)) then FixNudged
    else Accepted
  }

  function Nudged(cfg: Config, s: State, turn: Turn, nudge: Nudge): State {
    Push(Push(s, AssistantMessage(cfg.json, turn)), NudgeMessage(cfg, nudge))
  }

  /** The round-trip is counted: its usage enters the total. */
  function Counted(s: State, turn: Turn): State {
    s.(roundTrips := s.roundTrips + 1, total := Plus(s.total, turn.usage))
  }

  /** A finished stream: count it, judge it and act on the verdict. */
  function Settle(cfg: Config, env: Env, s: State, step: nat, events: seq<Event>): (r: State)
    requires s.cursor <= |cfg.fallbacks|
    ensures s.cursor <= r.cursor <= |cfg.fallbacks|
  {
    var turn := Fold(events);
    var c := Counted(s, turn);
    var verdict := Judge(cfg, env, step, c, turn);
    Act(cfg, env, Log(c, Round(verdict, events)), step, turn, verdict, Prose(events))
  }

  /** The next request must call a tool; a truncated answer does not go back into the transcript. */
  function LiveOpsBounced(cfg: Config, s: State, turn: Turn, truncated: bool): State {
    var p := if truncated then s else Push(s, AssistantMessage(cfg.json, turn));
    Push(p, NudgeMessage(cfg, LiveOps)).(liveOpsNudges := s.liveOpsNudges + 1, requireTool := true)
  }

  function Act(cfg: Config, env: Env, s: State, step: nat, turn: Turn, verdict: Verdict, held: seq<Event>): (r: State)
    requires !verdict.FailedMidway? && (verdict.Rerouted? ==> s.cursor < |cfg.fallbacks|)
    ensures r.cursor == if verdict.Rerouted? then s.cursor + 1 else s.cursor
  {
    match verdict
    case OverBudget => Fail(s, BudgetExceeded)
    case Paused => Push(Send(s, held), AssistantMessage(cfg.json, turn))
    case LiveOpsNudged(truncated) => LiveOpsBounced(cfg, s, turn, truncated)
    case Rerouted => s.(cursor := s.cursor + 1, requireTool := true)
    case Truncated => Fail(s, ResponseIncomplete)
    case ClaimNudged => Nudged(cfg, s, turn, FalseClaim).(claimNudges := s.claimNudges + 1)
    case EditNudged => Nudged(cfg, s, turn, NoEdit).(editNudges := s.editNudges + 1)
    case FixNudged => Nudged(cfg, s, turn, VerifyFailed(Output(VerifyOutput(cfg, env, step)))).(fixAttempts := s.fixAttempts + 1)
    case ToolsRun(edited) => RunTools(cfg, env, Send(s, held), step, turn, edited)
    case Accepted => Finish(Send(s, held), Verify(cfg, env, step), if turn.stop.Some? then turn.stop.value else EndTurn)
  }

  // ----- running tools -----

  function ToolAnswer(cfg: Config, env: Env, step: nat, calls: seq<ToolCall>, k: nat): ContentBlock
    requires k < |calls|
  {
    var id, name := calls[k].id, calls[k].name;
    if !Permitted(cfg, name) then ToolResult(id, cfg.refusalText(NotPermitted(name)), true, [])
    else if env.denial(step, k).Some? then ToolResult(id, cfg.refusalText(Denied(name, env.denial(step, k).value)), true, [])
    else
      match env.tool(step, k).outcome
      case Ok(out) => ToolResult(id, out.content, out.isError, out.images)
      case Err(e) => ToolResult(id, cfg.refusalText(ToolFailed(e)), true, [])
  }

  /** The progress lines, pending notice and images that call `k` sends while it runs. */
  function ToolEvents(cfg: Config, env: Env, step: nat, calls: seq<ToolCall>, k: nat): Reports
    requires k < |calls|
  {
    if !Permitted(cfg, calls[k].name) || env.denial(step, k).Some? then []
    else
      var reply := env.tool(step, k);
      seq(|reply.notices|, i requires 0 <= i < |reply.notices| => Notice(reply.notices[i])) +
      (match reply.outcome
       case Ok(out) =>
         (if out.pending.Some? then [Notice(out.pending.value)] else []) +
         (if out.images != [] then [ToolResultImages(calls[k].id, calls[k].name, out.images)] else [])
       case Err(_) => [])
  }

  /** The results of the first `n` calls, in call order. */
  function ToolAnswers(cfg: Config, env: Env, step: nat, calls: seq<ToolCall>, n: nat): Blocks
    requires n <= |calls|
  {
    if n == 0 then [] else ToolAnswers(cfg, env, step, calls, n - 1) + [ToolAnswer(cfg, env, step, calls, n - 1)]
  }

  function AllToolEvents(cfg: Config, env: Env, step: nat, calls: seq<ToolCall>, n: nat): Reports
    requires n <= |calls|
  {
    if n == 0 then [] else AllToolEvents(cfg, env, step, calls, n - 1) + ToolEvents(cfg, env, step, calls, n - 1)
  }

  predicate HardStop(cfg: Config, streak: nat) {
    cfg.noProgressLimit.Some? && cfg.noProgressLimit.value > 0 && streak >= 2 * cfg.noProgressLimit.value
  }

  predicate NeedsProgressNudge(cfg: Config, streak: nat, nudgedAt: Option<nat>) {
    cfg.noProgressLimit.Some? && cfg.noProgressLimit.value > 0 && streak >= cfg.noProgressLimit.value
    && nudgedAt != Some(streak)
  }

  /** What is said to the model behind the results of a tool round. */
  function NotesFor(cfg: Config, nudge: bool, roundTrips: nat, total: Usage): Blocks {
    (if nudge then [Text(cfg.nudgeText(NoProgress), false)] else [])
    + (if cfg.budgetAware then [Text(cfg.budgetNote(roundTrips, total), false)] else [])
  }

  /** The convergence counters after a tool round. */
  function Progressed(s: State, edited: bool): State {
    s.(edited := s.edited || edited, streak := if edited then 0 else s.streak + 1,
       nudgedAt := if edited then None else s.nudgedAt)
  }

  /** Run the turn's tools, then see whether the task has converged. */
  function RunTools(cfg: Config, env: Env, s: State, step: nat, turn: Turn, edited: bool): (r: State)
    ensures r.cursor == s.cursor
  {
    var n := |turn.calls|;
    var a := Push(s, AssistantMessage(cfg.json, turn));
    var events := AllToolEvents(cfg, env, step, turn.calls, n);
    var t := Log(Progressed(Send(a, events), edited), Reported(events));
    Converge(cfg, env, t, step, ToolAnswers(cfg, env, step, turn.calls, n), edited)
  }

  /** The convergence levers: stop on a passing verify or on too long an edit-free streak, else go on with
      the results and the notes that are due. */
  function Converge(cfg: Config, env: Env, t: State, step: nat, results: Blocks, edited: bool): (r: State)
    ensures r.cursor == t.cursor
  {
    if cfg.inLoopVerify && edited && cfg.hasVerify && env.verify(step) then
      Finish(Push(t, Message(User, results)), true, EndTurn)
    else if HardStop(cfg, t.streak) then
      Finish(Push(t, Message(User, results)), Verify(cfg, env, step), Other("no_progress"))
    else
      var nudge := NeedsProgressNudge(cfg, t.streak, t.nudgedAt);
      Reply(t.(nudgedAt := if nudge then Some(t.streak) else t.nudgedAt),
            Message(User, results + NotesFor(cfg, nudge, t.roundTrips, t.total)))
  }

  // ----- whole runs -----

  /** One step of the loop. Within a turn the cursor never moves back, and never past the last fallback. */
  function Step(cfg: Config, cooldown: nat, env: Env, s: State, step: nat): (r: State)
    requires s.cursor <= |cfg.fallbacks|
    ensures s.cursor <= r.cursor <= |cfg.fallbacks|
  {
    var p := Prepare(cfg, env, s, step);
    var choice := if p.requireTool then Some(Required) else None;
    var t := TryCandidates(cfg, cooldown, env, p.(requireTool := false), choice);
    if t.Completed? then Settle(cfg, env, t.state, step, t.events) else t.state
  }

  function RunSteps(cfg: Config, cooldown: nat, env: Env, s: State, step: nat): State
    requires s.cursor <= |cfg.fallbacks| && step <= cfg.maxSteps
    decreases cfg.maxSteps - step
  {
    if s.over then s
    else if step == cfg.maxSteps then Finish(s, false, Other("max_steps"))
    else RunSteps(cfg, cooldown, env, Step(cfg, cooldown, env, s, step), step + 1)
  }

  function PlanOf(cfg: Config, prePass: PrePass): Option<Message> {
    match prePass
    case NoPrePass => None
    case Council(_, plan) =>
      if plan.Some? then Some(AssistantText(cfg.planText(true, plan.value.text))) else None
    case Advisor(reply) =>
      var a := AnswerOf(reply);
      if a.Some? && Trim(a.value.text) != "" then Some(AssistantText(cfg.planText(false, a.value.text))) else None
  }

  function PlanUsage(cfg: Config, prePass: PrePass): Usage {
    match prePass
    case NoPrePass => NO_USAGE
    case Council(_, plan) => if plan.Some? then plan.value.usage else NO_USAGE
    case Advisor(reply) => if PlanOf(cfg, prePass).Some? then AnswerOf(reply).value.usage else NO_USAGE
  }

  function PrePassNotices(prePass: PrePass): Reports {
    if prePass.Council?
    then seq(|prePass.notices|, i requires 0 <= i < |prePass.notices| => Notice(prePass.notices[i]))
    else []
  }

  /** The state in which the first step starts. */
  function Start(cfg: Config, env: Env, seed: Transcript, deadlines: seq<nat>): (s: State)
    ensures s.cursor <= |cfg.fallbacks|
  {
    var classified := if env.classifier.Some? then env.classifier.value else NO_USAGE;
    var spent := Plus(classified, PlanUsage(cfg, env.prePass));
    var plan := PlanOf(cfg, env.prePass);
    var history := seed + (if plan.Some? then [plan.value] else []);
    var notices := PrePassNotices(env.prePass);
    var s := State(history, FirstAvailable(deadlines, 0, |cfg.fallbacks|, env.probe), deadlines, spent,
                   0, 0, None, false, 0, 0, 0, 0, false, 0, [], [PrePaid(spent), Reported(notices)], false);
    Send(s, notices)
  }

  /** One task from its seed transcript to its end. */
  function Run(cfg: Config, cooldown: nat, env: Env, seed: Transcript, deadlines: seq<nat>): State {
    var s := Start(cfg, env, seed, deadlines);
    RunSteps(cfg, cooldown, env, s, 0)
  }
}

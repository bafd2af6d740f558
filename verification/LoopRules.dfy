/** What becomes of each stream: the verdict on a round-trip, the transcript it leaves, what the next request
    carries and how a run closes, all read off the trace and the streams themselves. */
module LoopRules {
  import opened Strings
  import opened Protocol
  import opened History
  import opened Compaction
  import opened Request
  import opened AgentLoop
  import opened LoopBounds
  import StaleReads
  import Dedup
  import Eviction
  import LoopOutcome

  // ----- reading a stream -----

  /** The reason in the last end event. */
  function LastStop(events: seq<Event>): Option<StopReason> {
    if events == [] then None
    else
      var n := |events| - 1;
      if events[n].Done? then Some(events[n].stop) else LastStop(events[..n])
  }

  /** The tool calls that are started, in order. */
  function Starts(events: seq<Event>): (starts: seq<Event>)
    ensures forall k | 0 <= k < |starts| :: starts[k].ToolUseStart?
  {
    if events == [] then []
    else
      var n := |events| - 1;
      Starts(events[..n]) + (if events[n].ToolUseStart? then [events[n]] else [])
  }

  predicate CutOff(events: seq<Event>) {
    LastStop(events) == Some(MaxTokens) || LastStop(events) == Some(Other("incomplete"))
  }

  // ----- reading a trace -----

  datatype Kind = LiveOpsKind | ClaimKind | EditKind | FixKind

  predicate IsKind(v: Verdict, kind: Kind) {
    match kind
    case LiveOpsKind => v.LiveOpsNudged?
    case ClaimKind => v.ClaimNudged?
    case EditKind => v.EditNudged?
    case FixKind => v.FixNudged?
  }

  /** How often a guard has spoken. */
  function Given(trace: seq<TraceItem>, kind: Kind): nat {
    if trace == [] then 0
    else
      var x := trace[|trace| - 1];
      Given(trace[..|trace| - 1], kind) + (if x.Round? && IsKind(x.verdict, kind) then 1 else 0)
  }

  predicate EverEdited(trace: seq<TraceItem>) {
    exists i | 0 <= i < |trace| :: trace[i].Round? && trace[i].verdict == ToolsRun(true)
  }

  function LastRound(trace: seq<TraceItem>): Option<Verdict> {
    if trace == [] then None
    else
      var x := trace[|trace| - 1];
      if x.Round? then Some(x.verdict) else LastRound(trace[..|trace| - 1])
  }

  /** The candidate opened last. */
  function LastCandidate(trace: seq<TraceItem>): nat {
    if trace == [] then 0
    else
      var x := trace[|trace| - 1];
      if x.Opened? then x.candidate else LastCandidate(trace[..|trace| - 1])
  }

  // ----- the verdict that is due -----

  predicate TooExpensive(cfg: Config, before: seq<TraceItem>, events: seq<Event>) {
    cfg.budget.Some? && cfg.cost(Plus(LoopOutcome.Spent(before), UsageOf(events))) > cfg.budget.value
  }

  /** Call `k` was an edit that was allowed, ran and changed something. */
  predicate ChangedFile(cfg: Config, env: Env, step: nat, name: string, k: nat) {
    && name in ["str_replace", "edit_anchored", "edit_files", "write_file", "batch_edit"]
    && (cfg.allowedTools.None? || name in cfg.allowedTools.value)
    && env.denial(step, k).None?
    && env.tool(step, k).outcome.Ok? && env.tool(step, k).outcome.value.changed
  }

  predicate AnyChanged(cfg: Config, env: Env, step: nat, starts: seq<Event>)
    requires forall k | 0 <= k < |starts| :: starts[k].ToolUseStart?
  {
    exists k | 0 <= k < |starts| :: ChangedFile(cfg, env, step, starts[k].name, k)
  }

  /** What the loop must make of a stream that ran to its end, after this much of the run. */
  function VerdictDue(cfg: Config, env: Env, before: seq<TraceItem>, events: seq<Event>): Verdict {
    var step := RoundTrips(before);
    if TooExpensive(cfg, before, events) then OverBudget
    else if Starts(events) != [] then ToolsRun(AnyChanged(cfg, env, step, Starts(events)))
    else if LastStop(events) == Some(PauseTurn) then Paused
    else if cfg.liveOpsAsk && Given(before, LiveOpsKind) == 0 then LiveOpsNudged(CutOff(events))
    else if cfg.liveOpsAsk && LastCandidate(before) < |cfg.fallbacks| then Rerouted
    else if CutOff(events) then Truncated
    else if cfg.claimsTool(TextOf(events)) && Given(before, ClaimKind) < 2 then ClaimNudged
    else if cfg.requireEdit && cfg.editTask && !EverEdited(before) && Given(before, EditKind) < 2 then EditNudged
    else if cfg.verifyAndFix && cfg.hasVerify && !env.verifyOutput(step).0 && Given(before, FixKind) < 3 then FixNudged
    else Accepted
  }

  // ----- the end that is due -----

  datatype Close = Close(success: bool, ending: Ending)

  predicate TreePasses(cfg: Config, env: Env, step: nat) {
    cfg.hasVerify ==> env.verify(step)
  }

  function ErrorOf(a: Attempt): AgentError {
    match a
    case OpenTimedOut => NoResponse
    case OpenFailed(message) => ProviderFailed(message)
    case Streaming(_, Broke(message)) => ProviderFailed(message)
    case _ => StreamStalled
  }

  /** How the run must close now, if it must. */
  function CloseDue(cfg: Config, env: Env, before: seq<TraceItem>): Option<Close> {
    if before == [] then None
    else
      var x := before[|before| - 1];
      if x.Round? then
        match x.verdict
        case OverBudget => Some(Close(false, Failing(BudgetExceeded)))
        case Truncated => Some(Close(false, Failing(ResponseIncomplete)))
        case FailedMidway => Some(Close(false, Failing(ErrorOf(env.attempt(if Opens(before) == 0 then 0 else Opens(before) - 1)))))
        case Accepted =>
          var stop := LastStop(x.events);
          Some(Close(TreePasses(cfg, env, StepOf(before)), Finishing(if stop.Some? then stop.value else EndTurn)))
        case _ => None
      else if EndsInReport(before) then
        if before[|before| - 2].verdict.edited && cfg.inLoopVerify && cfg.hasVerify && env.verify(StepOf(before)) then
          Some(Close(true, Finishing(EndTurn)))
        else if cfg.noProgressLimit.Some? && 0 < 2 * cfg.noProgressLimit.value <= EditFree(before) then
          Some(Close(TreePasses(cfg, env, StepOf(before)), Finishing(Other("no_progress"))))
        else None
      else None
  }

  /** The number of the step that the last round-trip completed. */
  function StepOf(trace: seq<TraceItem>): nat {
    if RoundTrips(trace) == 0 then 0 else RoundTrips(trace) - 1
  }

  // ----- what is said -----

  /** No later start has the id of start `k`. */
  predicate IsCurrent(starts: seq<Event>, k: nat)
    requires k < |starts| && forall i | 0 <= i < |starts| :: starts[i].ToolUseStart?
  {
    forall j | k < j < |starts| :: starts[j].id != starts[k].id
  }

  /** The arguments of the call started as number `k`: the pieces that come under its id before that id
      is started again. */
  function ArgsSaid(events: seq<Event>, k: nat): string {
    if events == [] then ""
    else
      var e, rest := events[|events| - 1], events[..|events| - 1];
      if k >= |Starts(rest)| then ""
      else if e.ToolUseDelta? && e.id == Starts(rest)[k].id && IsCurrent(Starts(rest), k) then ArgsSaid(rest, k) + e.json
      else ArgsSaid(rest, k)
  }

  /** Arguments that are blank or no JSON count as none. */
  function InputSaid(json: JsonText, args: string): Json {
    if !IsBlank(args) && json.parse(args).Some? then json.parse(args).value else JObj([])
  }

  /** What a stream says, as one message: its text, if any, and then its calls. */
  function Spoken(json: JsonText, events: seq<Event>): Message {
    var starts := Starts(events);
    Message(Assistant,
      (if TextOf(events) == "" then [] else [Text(TextOf(events), false)])
      + seq(|starts|, k requires 0 <= k < |starts| => ToolUse(starts[k].id, starts[k].name, InputSaid(json, ArgsSaid(events, k)))))
  }

  /** The plan that a pre-pass leaves behind the task, and what it cost. */
  function PlanSaid(cfg: Config, prePass: PrePass): Transcript {
    match prePass
    case Council(_, Some(plan)) => [AssistantText(cfg.planText(true, plan.text))]
    case Advisor(Streamed(events, false)) =>
      if IsBlank(TextOf(events)) then [] else [AssistantText(cfg.planText(false, TextOf(events)))]
    case _ => []
  }

  function PlanCost(prePass: PrePass): Usage {
    match prePass
    case Council(_, Some(plan)) => plan.usage
    case Advisor(Streamed(events, false)) => if IsBlank(TextOf(events)) then NO_USAGE else UsageOf(events)
    case _ => NO_USAGE
  }

  /** What the pre-pass tells the caller. */
  function NoticesSaid(prePass: PrePass): seq<Event> {
    match prePass
    case Council(notices, _) => seq(|notices|, i requires 0 <= i < |notices| => Notice(notices[i]))
    case _ => []
  }

  /** The task, the summary of what is between, and the last four messages. */
  function Shortened(h: Transcript, summary: string): Transcript
    requires |h| >= 7
  {
    [h[0], UserText("[Earlier conversation compacted to save tokens]\n" + summary)] + h[|h| - 4..]
  }

  /** The results of a round's calls, in order. */
  function ResultsSaid(cfg: Config, env: Env, step: nat, starts: seq<Event>): Message
    requires forall k | 0 <= k < |starts| :: starts[k].ToolUseStart?
  {
    Message(User, seq(|starts|, k requires 0 <= k < |starts| => AnswerDue(cfg, env, step, starts[k], k)))
  }

  /** What a verdict adds to the transcript. */
  function RoundSaid(cfg: Config, env: Env, step: nat, v: Verdict, events: seq<Event>): Transcript {
    match v
    case Paused => [Spoken(cfg.json, events)]
    case ToolsRun(_) => [Spoken(cfg.json, events)]
    case LiveOpsNudged(cut) => (if cut then [] else [Spoken(cfg.json, events)]) + [UserText(cfg.nudgeText(LiveOps))]
    case ClaimNudged => [Spoken(cfg.json, events), UserText(cfg.nudgeText(FalseClaim))]
    case EditNudged => [Spoken(cfg.json, events), UserText(cfg.nudgeText(NoEdit))]
    case FixNudged => [Spoken(cfg.json, events), UserText(cfg.nudgeText(VerifyFailed(env.verifyOutput(step).1)))]
    case _ => []
  }

  /** A step starts by marking stale reads and dropping copies. */
  function Tidied(h: Transcript): (g: Transcript)
    ensures |g| == |h|
  {
    Dedup.DedupAll(StaleReads.MarkStale(h))
  }

  /** A request is made to fit last. */
  function Fitted(cfg: Config, h: Transcript): Transcript {
    match cfg.contextLimit case Some(limit) => Eviction.EvictToFit(cfg.estimate, h, limit) case None => h
  }

  predicate EndsAbandoned(trace: seq<TraceItem>) {
    trace != [] && trace[|trace| - 1].Abandoned?
  }

  predicate EndsSummarised(trace: seq<TraceItem>) {
    trace != [] && trace[|trace| - 1].Summarised?
  }

  /** What the next request makes of a transcript: the next candidate gets the same, a summary is only made
      to fit, and otherwise a new step begins. */
  function ToSend(cfg: Config, h: Transcript, before: seq<TraceItem>): Transcript {
    if EndsAbandoned(before) then h
    else if EndsSummarised(before) then Fitted(cfg, h)
    else Fitted(cfg, Tidied(h))
  }

  /** A transcript is summarised when it is too large by the caller's measure, has a middle, and the model
      asked for a summary gives one. */
  predicate SummaryDue(cfg: Config, env: Env, step: nat, h: Transcript) {
    var reply := env.summary(step);
    && |h| >= 7 && cfg.estimate(h) > cfg.compactAfter
    && reply.Streamed? && !reply.failed && !IsBlank(TextOf(reply.events))
  }

  /** What an item of the trace makes of the transcript before it. */
  function HeardAfter(cfg: Config, env: Env, h: Transcript, before: seq<TraceItem>, x: TraceItem): Transcript {
    match x
    case PrePaid(_) => h + PlanSaid(cfg, env.prePass)
    case Summarised(_, _) =>
      var reply := env.summary(RoundTrips(before));
      if |h| >= 7 && reply.Streamed? then Shortened(Tidied(h), TextOf(reply.events)) else h
    case Opened(_, _) => ToSend(cfg, h, before)
    case Round(v, events) => h + RoundSaid(cfg, env, RoundTrips(before), v, events)
    case Replied(m) => h + [m]
    case Recorded(_, _, _, _) =>
      if EndsInReport(before) then h + [ResultsSaid(cfg, env, StepOf(before), Starts(before[|before| - 2].events))] else h
    case _ => h
  }

  /** The transcript that a run leaves, told from what has happened in it. */
  function Heard(cfg: Config, env: Env, seed: Transcript, trace: seq<TraceItem>): Transcript {
    if trace == [] then seed
    else
      var x, before := trace[|trace| - 1], trace[..|trace| - 1];
      HeardAfter(cfg, env, Heard(cfg, env, seed, before), before, x)
  }

  /** The result that answers a call. */
  function AnswerDue(cfg: Config, env: Env, step: nat, start: Event, k: nat): ContentBlock
    requires start.ToolUseStart?
  {
    if cfg.allowedTools.Some? && start.name !in cfg.allowedTools.value then
      ToolResult(start.id, cfg.refusalText(NotPermitted(start.name)), true, [])
    else
      match env.denial(step, k)
      case Some(reason) => ToolResult(start.id, cfg.refusalText(Denied(start.name, reason)), true, [])
      case None =>
        match env.tool(step, k).outcome
        case Err(e) => ToolResult(start.id, cfg.refusalText(ToolFailed(e)), true, [])
        case Ok(out) => ToolResult(start.id, out.content, out.isError, out.images)
  }

  /** A reply begins with one result for each call that was started, in order. */
  predicate Answers(cfg: Config, env: Env, step: nat, m: Message, starts: seq<Event>)
    requires forall k | 0 <= k < |starts| :: starts[k].ToolUseStart?
  {
    && m.role == User && |starts| <= |m.content|
    && forall k | 0 <= k < |starts| :: m.content[k] == AnswerDue(cfg, env, step, starts[k], k)
  }

  // ----- the rules of a trace -----

  /** The primary until the escalation point is the cheap model, if there is one. */
  function ModelDue(cfg: Config, before: seq<TraceItem>, candidate: nat): string
    requires candidate <= |cfg.fallbacks|
  {
    if candidate > 0 then cfg.fallbacks[candidate - 1]
    else if cfg.cheapModel.Some? && RoundTrips(before) < cfg.escalateAfter then cfg.cheapModel.value
    else cfg.model
  }

  predicate ToolNeeded(before: seq<TraceItem>) {
    LastRound(before).Some? && (LastRound(before).value.LiveOpsNudged? || LastRound(before).value.Rerouted?)
  }

  /** The transcript behind the skeleton of the repository. */
  predicate Carries(messages: Transcript, h: Transcript, skeleton: Option<string>, caching: bool) {
    && |messages| == |h|
    && forall i | 0 <= i < |h| ::
         && messages[i].role == h[i].role
         && messages[i].content ==
            (if i == 0 && skeleton.Some? then [Text(skeleton.value, caching)] else []) + h[i].content
  }

  /** The tools on offer, the last one marked where the provider caches prompts. */
  predicate Offers(tools: seq<ToolDef>, offered: seq<ToolDef>, caching: bool) {
    && |offered| == |tools|
    && forall k | 0 <= k < |tools| ::
         offered[k] == if caching && k == |tools| - 1 then tools[k].(cache := true) else tools[k]
  }

  /** A request goes to the model that is due, carries the whole transcript with the prompt and the tools,
      must call a tool exactly after the live-ops guard spoke or rerouted, and asks for nothing else. */
  predicate RequestRule(cfg: Config, env: Env, seed: Transcript, before: seq<TraceItem>, request: ChatRequest, candidate: nat) {
    && candidate <= |cfg.fallbacks|
    && var s, caching := cfg.settings, cfg.caching(candidate);
       && Carries(request.messages, ToSend(cfg, Heard(cfg, env, seed, before), before), s.skeleton, caching)
       && Offers(s.tools, request.tools, caching)
       && request == ChatRequest(ModelDue(cfg, before, candidate), Some(SystemPrompt(s.system, caching)), request.messages,
                                 request.tools, s.maxTokens, None, s.thinking, if ToolNeeded(before) then Some(Required) else None,
                                 false, None, None, [], None, s.serverTools, [], [])
  }

  /** A transcript is summarised when that is due. */
  predicate SummaryRule(cfg: Config, env: Env, seed: Transcript, before: seq<TraceItem>, whole: Transcript, usage: Usage) {
    && whole == Tidied(Heard(cfg, env, seed, before)) && SummaryDue(cfg, env, RoundTrips(before), whole)
    && usage == UsageOf(env.summary(RoundTrips(before)).events)
  }

  /** A request begins a step without a summary only when none is due. */
  predicate NoneMissed(cfg: Config, env: Env, seed: Transcript, before: seq<TraceItem>) {
    EndsAbandoned(before) || EndsSummarised(before)
    || !SummaryDue(cfg, env, RoundTrips(before), Tidied(Heard(cfg, env, seed, before)))
  }

  /** What a call tells the caller while it runs. */
  function ReportDue(cfg: Config, env: Env, step: nat, start: Event, k: nat): seq<Event>
    requires start.ToolUseStart?
  {
    if (cfg.allowedTools.Some? && start.name !in cfg.allowedTools.value) || env.denial(step, k).Some? then []
    else
      var notices := env.tool(step, k).notices;
      seq(|notices|, i requires 0 <= i < |notices| => Notice(notices[i])) +
      match env.tool(step, k).outcome
      case Ok(ToolOutput(_, _, _, pending, images)) =>
        (match pending case Some(text) => [Notice(text)] case None => [])
        + (if images == [] then [] else [ToolResultImages(start.id, start.name, images)])
      case Err(_) => []
  }

  function ReportsDue(cfg: Config, env: Env, step: nat, starts: seq<Event>): seq<Event>
    requires forall k | 0 <= k < |starts| :: starts[k].ToolUseStart?
  {
    Flatten(seq(|starts|, k requires 0 <= k < |starts| => ReportDue(cfg, env, step, starts[k], k)))
  }

  /** A round-trip carries the events of the stream opened last, and the verdict that is due on them. */
  predicate RoundRule(cfg: Config, env: Env, before: seq<TraceItem>, v: Verdict, events: seq<Event>) {
    && Opens(before) > 0
    && var a := env.attempt(Opens(before) - 1);
       && events == (if a.Streaming? then a.events else [])
       && v == (if a.Streaming? && a.end.Finished? then VerdictDue(cfg, env, before, events) else FailedMidway)
  }

  predicate CloseRule(cfg: Config, env: Env, before: seq<TraceItem>, x: TraceItem) {
    && x.Recorded?
    && x.total == LoopOutcome.Spent(before) && x.roundTrips == RoundTrips(before)
    && Close(x.success, x.ending) ==
       (match CloseDue(cfg, env, before) case Some(c) => c case None => Close(false, Finishing(Other("max_steps"))))
  }

  predicate Rule(cfg: Config, env: Env, seed: Transcript, before: seq<TraceItem>, x: TraceItem) {
    && (CloseDue(cfg, env, before).Some? || x.Recorded? ==> CloseRule(cfg, env, before, x))
    && (x.PrePaid? ==>
          x.usage == Plus(if env.classifier.Some? then env.classifier.value else NO_USAGE, PlanCost(env.prePass)))
    && (x.Summarised? ==> SummaryRule(cfg, env, seed, before, x.before, x.usage))
    && (x.Opened? ==> RequestRule(cfg, env, seed, before, x.request, x.candidate) && NoneMissed(cfg, env, seed, before))
    && (x.Round? ==> RoundRule(cfg, env, before, x.verdict, x.events))
    && (x.Reported? ==>
          x.reports == if EndsInRound(before) then ReportsDue(cfg, env, StepOf(before), Starts(before[|before| - 1].events))
                       else NoticesSaid(env.prePass))
    && (x.Replied? ==>
          EndsInReport(before) && Answers(cfg, env, StepOf(before), x.message, Starts(before[|before| - 2].events)))
    && (x.Recorded? && CloseDue(cfg, env, before).None? ==> RoundTrips(before) == cfg.maxSteps)
  }

  predicate AllRuled(cfg: Config, env: Env, seed: Transcript, trace: seq<TraceItem>) {
    forall i | 0 <= i < |trace| :: Rule(cfg, env, seed, trace[..i], trace[i])
  }
}

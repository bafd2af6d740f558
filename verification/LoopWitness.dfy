/** Runs that do what the comments in the loop say cannot happen. */
module LoopWitness {
  import opened Strings
  import opened Protocol
  import opened History
  import opened Compaction
  import opened TurnModel
  import opened Breaker
  import opened Request
  import opened AgentLoop
  import opened LoopBounds
  import opened Estimator
  import StaleReads
  import Dedup
  import Eviction
  import LoopOutcome
  import LoopPairing
  import Session

  // ----- one candidate, one tool, no guards -----

  const NO_SETTINGS := Settings("", 0, [], [], None, None)

  /** As much of a JSON library as these runs need. */
  function Library(): JsonText {
    JsonText((v: Json) => if v == JObj([]) then "{}" else "null", (s: string) => if s == "{}" then Some(JObj([])) else None)
  }

  /** No fallbacks, no budget, no verify command; whatever is long enough to compact is compacted. */
  function PlainConfig(estimate: Eviction.Estimate, maxSteps: nat, limit: Option<nat>): Config {
    Config(NO_SETTINGS, Library(), "", None, 0, [], (_: nat) => false, maxSteps, None, (_: Usage) => 0, estimate, 5, None,
           false, false, false, false, false, limit, false, false, (_: string) => false, None,
           (_: Nudge) => "", (_: Refusal) => "", (_: bool, _: string) => "",
           (_: nat, _: Usage) => "")
  }

  /** A stream that calls one tool. */
  const CALL: seq<Event> := [ToolUseStart("call_0", "read_file"), ToolUseEnd("call_0"), Done(StopForTool)]

  /** A stream that pauses the turn. */
  const PAUSE: seq<Event> := [TextDelta("paused"), Done(PauseTurn)]

  /** Every stream runs to its end, every tool answers "ok" and changes nothing. */
  function PlainEnv(streams: nat -> seq<Event>, summary: SideReply): Env {
    Env(None, NoPrePass, (_: nat) => 0, (_: nat) => 0, (k: nat) => Streaming(streams(k), Finished), (_: nat) => summary,
        (_: nat) => false, (_: nat) => (false, ""), (_: nat, _: nat) => None,
        (_: nat, _: nat) => ToolReply([], Ok(ToolOutput("ok", false, false, None, []))))
  }

  const CALL_TURN := Turn("", [ToolCall("call_0", "read_file", "")], map["call_0" := 0], NO_USAGE, Some(StopForTool))

  lemma CallFolds()
    ensures Fold(CALL) == CALL_TURN
    ensures Prose(CALL) == []
  {
    var a, b := CALL[..1], CALL[..2];
    assert CALL[..2] == b && b[..1] == a && a[..0] == [];
    assert Fold(a[..0]) == EMPTY_TURN && Prose(a[..0]) == [];
    assert Fold(a) == Observed(EMPTY_TURN, CALL[0]);
    assert Fold(b) == Observed(Fold(a), CALL[1]);
    assert Prose(a) == [] && Prose(b) == [];
  }

  lemma PauseFolds()
    ensures Fold(PAUSE) == Turn("paused", [], map[], NO_USAGE, Some(PauseTurn))
  {
    var a := PAUSE[..1];
    assert a[..0] == [];
    assert Fold(a[..0]) == EMPTY_TURN;
    assert Fold(a) == Observed(EMPTY_TURN, PAUSE[0]);
  }

  // ----- before a request -----

  /** Nothing large enough to be marked stale or deduplicated. */
  predicate AllShort(h: Transcript) {
    forall i, j | 0 <= i < |h| && 0 <= j < |h[i].content| ::
      h[i].content[j].ToolResult? ==> Utf8Len(h[i].content[j].content) < StaleReads.DEDUP_MIN_BYTES
  }

  lemma ShortUntouched(h: Transcript)
    requires AllShort(h)
    ensures Dedup.DedupAll(StaleReads.MarkStale(h)) == h
  {
    StaleReads.MarkStaleFixed(h);
    forall i | 0 <= i < |h|
      ensures Dedup.DedupMessage(h, i) == h[i]
    {
      assert Dedup.DedupMessage(h, i).content == h[i].content;
    }
  }

  /** A summary is asked for, and given, only of a transcript of seven messages or more. */
  lemma PrepareQuietly(estimate: Eviction.Estimate, m: nat, limit: Option<nat>, streams: nat -> seq<Event>, summary: SideReply,
        s: State, step: nat)
    requires |s.history| < 7 || summary.NoStream?
    ensures var p := Prepare(PlainConfig(estimate, m, limit), PlainEnv(streams, summary), s, step);
            p == s.(history := Dedup.DedupAll(StaleReads.MarkStale(s.history)))
  {
    hide StaleReads.MarkStale, Dedup.DedupAll, IdsOf;
    var h := StaleReads.MarkStale(s.history);
    StaleReads.MarkStaleKeepsShape(s.history);
    Dedup.DedupKeepsShape(h);
    assert |Dedup.DedupAll(h)| == |s.history|;
  }

  // ----- a step that runs the tool -----

  predicate Ready(s: State) {
    !s.over && s.cursor == 0
  }

  /** After the passes a step is its one stream and the verdict on it. */
  lemma StepIsStream(cfg: Config, cooldown: nat, env: Env, s: State, step: nat, events: seq<Event>)
    requires cfg.fallbacks == [] && s.cursor == 0
    requires var p := Prepare(cfg, env, s, step); p.cursor == 0 && env.attempt(p.opens) == Streaming(events, Finished)
    ensures exists choice ::
              var o := Open(cfg, Prepare(cfg, env, s, step).(requireTool := false), choice);
              Step(cfg, cooldown, env, s, step) == Settle(cfg, env, StreamFinished(cooldown, o, events), step, events)
  {
    hide Prepare, Settle, Open, StreamFinished;
    var p := Prepare(cfg, env, s, step);
    var choice := if p.requireTool then Some(Required) else None;
    LoopOutcome.OpenKeepsCursor(cfg, p.(requireTool := false), choice);
    var o := Open(cfg, p.(requireTool := false), choice);
    assert Step(cfg, cooldown, env, s, step) == Settle(cfg, env, StreamFinished(cooldown, o, events), step, events);
  }

  /** The state in which a stream that finished is judged. */
  lemma OpenedAndFinished(cfg: Config, cooldown: nat, p: State, choice: Option<ToolChoice>, events: seq<Event>)
    requires cfg.fallbacks == [] && cfg.settings.skeleton.None? && Ready(p)
    ensures var f := StreamFinished(cooldown, Open(cfg, p.(requireTool := false), choice), events);
            && Ready(f) && f.history == p.history && f.opens == p.opens + 1 && f.streak == p.streak && f.nudgedAt == p.nudgedAt
            && exists request: ChatRequest | request.messages == p.history ::
                 f.trace == p.trace + [Opened(request, 0), BreakerChanged(Reset(0))]
  {
    hide Applied, Immediate;
    var request := RequestFor(cfg, p.(requireTool := false), choice);
    var f := StreamFinished(cooldown, Open(cfg, p.(requireTool := false), choice), events);
    assert f.trace == p.trace + [Opened(request, 0), BreakerChanged(Reset(0))];
  }

  /** What a tool round adds to the trace. */
  function ToolItems(request: ChatRequest, reply: Message): seq<TraceItem> {
    [Opened(request, 0), BreakerChanged(Reset(0)), Round(ToolsRun(false), CALL), Reported([]), Replied(reply)]
  }

  /** The tool has run and changed nothing; the results go back. */
  lemma ToolsGoBack(estimate: Eviction.Estimate, m: nat, limit: Option<nat>, streams: nat -> seq<Event>, summary: SideReply,
        f: State, step: nat)
    requires Ready(f) && !HardStop(PlainConfig(estimate, m, limit), f.streak + 1)
    ensures var r := RunTools(PlainConfig(estimate, m, limit), PlainEnv(streams, summary), f, step, CALL_TURN, false);
            && Ready(r) && r.opens == f.opens && r.streak == f.streak + 1
            && (limit.None? ==> r.history == f.history + LoopPairing.ToolTurn("call_0"))
            && exists reply :: r.trace == f.trace + [Reported([]), Replied(reply)]
  {
    hide HardStop, CallBlocks, ToolAnswer;
    var cfg, env := PlainConfig(estimate, m, limit), PlainEnv(streams, summary);
    var calls := CALL_TURN.calls;
    assert AllToolEvents(cfg, env, step, calls, 0) == [] && AllToolEvents(cfg, env, step, calls, 1) == [];
    CallMessage(cfg, env, step);
    var results := ToolAnswers(cfg, env, step, calls, 1);
    assert results + ([] + []) == results;
  }

  lemma CallMessage(cfg: Config, env: Env, step: nat)
    requires Permitted(cfg, "read_file") && env.denial(step, 0).None?
    requires env.tool(step, 0).outcome == Ok(ToolOutput("ok", false, false, None, []))
    ensures AssistantMessage(cfg.json, CALL_TURN) == Message(Assistant, [ToolUse("call_0", "read_file", JObj([]))])
    ensures ToolAnswers(cfg, env, step, CALL_TURN.calls, 1) == [ToolResult("call_0", "ok", false, [])]
  {
    var calls := CALL_TURN.calls;
    assert CallBlocks(cfg.json, calls[..0]) == [];
    assert CallBlocks(cfg.json, calls) == [] + [ToolUse("call_0", "read_file", ParsedArgs(cfg.json, ""))];
    assert ToolAnswers(cfg, env, step, calls, 0) == [];
    assert ToolAnswer(cfg, env, step, calls, 0) == ToolResult("call_0", "ok", false, []);
  }

  lemma CallSettles(estimate: Eviction.Estimate, m: nat, limit: Option<nat>, streams: nat -> seq<Event>, summary: SideReply,
        f: State, step: nat)
    requires Ready(f)
    ensures var cfg, env := PlainConfig(estimate, m, limit), PlainEnv(streams, summary);
            Settle(cfg, env, f, step, CALL) ==
            RunTools(cfg, env, Send(Log(Counted(f, CALL_TURN), Round(ToolsRun(false), CALL)), []), step, CALL_TURN, false)
  {
    hide RunTools, Fold, Prose;
    CallFolds();
    var cfg, env := PlainConfig(estimate, m, limit), PlainEnv(streams, summary);
    assert !MadeEdit(cfg, env, step, CALL_TURN.calls, 0) && !MadeEdit(cfg, env, step, CALL_TURN.calls, 1);
  }

  /** The step that leads from `p`, after the passes, to `r` has run the tool and goes on. */
  ghost predicate RanTool(p: State, r: State) {
    && Ready(r) && r.opens == p.opens + 1 && r.streak == p.streak + 1
    && exists request: ChatRequest, reply: Message | request.messages == p.history :: r.trace == p.trace + ToolItems(request, reply)
  }

  lemma ToolStep(estimate: Eviction.Estimate, m: nat, limit: Option<nat>, cooldown: nat, streams: nat -> seq<Event>, summary: SideReply,
        s: State, step: nat)
    requires Ready(s)
    requires var p := Prepare(PlainConfig(estimate, m, limit), PlainEnv(streams, summary), s, step);
             Ready(p) && streams(p.opens) == CALL && !HardStop(PlainConfig(estimate, m, limit), p.streak + 1)
    ensures var cfg, env := PlainConfig(estimate, m, limit), PlainEnv(streams, summary);
            var p, r := Prepare(cfg, env, s, step), Step(cfg, cooldown, env, s, step);
            RanTool(p, r) && (limit.None? ==> r.history == p.history + LoopPairing.ToolTurn("call_0"))
  {
    hide Prepare, Step, Settle, Open, StreamFinished, RunTools, HardStop, LoopPairing.ToolTurn;
    var cfg, env := PlainConfig(estimate, m, limit), PlainEnv(streams, summary);
    var p, r := Prepare(cfg, env, s, step), Step(cfg, cooldown, env, s, step);
    StepIsStream(cfg, cooldown, env, s, step, CALL);
    var choice :|
      r == Settle(cfg, env, StreamFinished(cooldown, Open(cfg, p.(requireTool := false), choice), CALL), step, CALL);
    OpenedAndFinished(cfg, cooldown, p, choice, CALL);
    var f := StreamFinished(cooldown, Open(cfg, p.(requireTool := false), choice), CALL);
    var request: ChatRequest :| request.messages == p.history && f.trace == p.trace + [Opened(request, 0), BreakerChanged(Reset(0))];
    CallSettles(estimate, m, limit, streams, summary, f, step);
    var g := Send(Log(Counted(f, CALL_TURN), Round(ToolsRun(false), CALL)), []);
    ToolsGoBack(estimate, m, limit, streams, summary, g, step);
    var reply :| r.trace == g.trace + [Reported([]), Replied(reply)];
    assert r.trace == p.trace + ToolItems(request, reply);
  }

  // ----- a run that sends an unpaired request -----

  const PAUSED := AssistantText("paused")

  /** The step that leads from `p` to `r` was paused by the provider. */
  ghost predicate WasPaused(p: State, r: State) {
    && Ready(r) && r.opens == p.opens + 1 && r.history == p.history + [PAUSED]
    && exists request: ChatRequest | request.messages == p.history ::
         r.trace == p.trace + [Opened(request, 0), BreakerChanged(Reset(0)), Round(Paused, PAUSE)]
  }

  lemma PauseSettles(cfg: Config, env: Env, f: State, step: nat)
    requires Ready(f) && cfg.fallbacks == [] && cfg.budget.None?
    ensures var r := Settle(cfg, env, f, step, PAUSE);
            Ready(r) && r.opens == f.opens && r.history == f.history + [PAUSED] && r.trace == f.trace + [Round(Paused, PAUSE)]
  {
    hide Fold, Prose;
    PauseFolds();
    assert [Text("paused", false)] + CallBlocks(cfg.json, []) == [Text("paused", false)];
  }

  lemma PauseStep(estimate: Eviction.Estimate, cooldown: nat, streams: nat -> seq<Event>, summary: SideReply,
        s: State, step: nat)
    requires Ready(s)
    requires var p := Prepare(PlainConfig(estimate, 5, None), PlainEnv(streams, summary), s, step);
             Ready(p) && streams(p.opens) == PAUSE
    ensures var cfg, env := PlainConfig(estimate, 5, None), PlainEnv(streams, summary);
            WasPaused(Prepare(cfg, env, s, step), Step(cfg, cooldown, env, s, step))
  {
    hide Prepare, Step, Settle, Open, StreamFinished;
    var cfg, env := PlainConfig(estimate, 5, None), PlainEnv(streams, summary);
    var p, r := Prepare(cfg, env, s, step), Step(cfg, cooldown, env, s, step);
    StepIsStream(cfg, cooldown, env, s, step, PAUSE);
    var choice :|
      r == Settle(cfg, env, StreamFinished(cooldown, Open(cfg, p.(requireTool := false), choice), PAUSE), step, PAUSE);
    OpenedAndFinished(cfg, cooldown, p, choice, PAUSE);
    var f := StreamFinished(cooldown, Open(cfg, p.(requireTool := false), choice), PAUSE);
    var request: ChatRequest :| request.messages == p.history && f.trace == p.trace + [Opened(request, 0), BreakerChanged(Reset(0))];
    PauseSettles(cfg, env, f, step);
    assert r.trace == p.trace + [Opened(request, 0), BreakerChanged(Reset(0)), Round(Paused, PAUSE)];
  }

  const SUMMARY := Streamed([TextDelta("summary")], false)

  /** Two tool rounds, a pause, then tool rounds again. */
  function PausedThird(k: nat): seq<Event> {
    if k == 2 then PAUSE else CALL
  }

  const TASK: Transcript := [UserText("task")]

  /** The transcript after `k` steps, up to the fourth. */
  function HistoryAt(k: nat): (h: Transcript)
    ensures k <= 3 ==> |h| < 7
    ensures k == 4 ==> h == LoopPairing.PausedHistory("call_0", "call_0", "call_0")
  {
    var turn := LoopPairing.ToolTurn("call_0");
    if k == 0 then TASK
    else if k == 1 then TASK + turn
    else if k == 2 then TASK + turn + turn
    else if k == 3 then TASK + turn + turn + [PAUSED]
    else TASK + turn + turn + [PAUSED] + turn
  }

  lemma HistoryIsShort(k: nat)
    ensures AllShort(HistoryAt(k))
  {
    assert Utf8Len("") == 0 && "k"[1..] == "" && "ok"[1..] == "k";
    assert Utf8Len("k") == 1 && Utf8Len("ok") == 2;
  }

  /** The requests of a run, in order. */
  function Requests(trace: seq<TraceItem>): seq<ChatRequest> {
    if trace == [] then []
    else
      var x := trace[|trace| - 1];
      Requests(trace[..|trace| - 1]) + (if x.Opened? then [x.request] else [])
  }

  lemma RequestsSnoc(trace: seq<TraceItem>, x: TraceItem)
    ensures Requests(trace + [x]) == Requests(trace) + (if x.Opened? then [x.request] else [])
  {
    assert (trace + [x])[..|trace|] == trace;
  }

  /** A stretch of the trace that starts with the only request in it. */
  lemma {:induction false} OneRequest(trace: seq<TraceItem>, items: seq<TraceItem>)
    requires items != [] && items[0].Opened? && forall i | 1 <= i < |items| :: !items[i].Opened?
    ensures Requests(trace + items) == Requests(trace) + [items[0].request]
  {
    var n := |items| - 1;
    RequestsSnoc(trace + items[..n], items[n]);
    assert trace + items == trace + items[..n] + [items[n]];
    if n == 0 {
      assert trace + items[..n] == trace;
    } else {
      OneRequest(trace, items[..n]);
      assert Requests(trace) + [items[0].request] + [] == Requests(trace) + [items[0].request];
    }
  }

  /** A state `k` steps into the run. */
  ghost predicate Reached(s: State, k: nat) {
    Ready(s) && s.opens == k && s.history == HistoryAt(k) && |Requests(s.trace)| == k
  }

  lemma StartReached(estimate: Eviction.Estimate, d: seq<nat>)
    ensures Reached(Start(PlainConfig(estimate, 5, None), PlainEnv(PausedThird, SUMMARY), TASK, d), 0)
  {
    hide Start, Requests;
    var cfg, env := PlainConfig(estimate, 5, None), PlainEnv(PausedThird, SUMMARY);
    StartIsFresh(cfg, env, TASK, d);
    var s := Start(cfg, env, TASK, d);
    var usage, reports :| s.trace == [PrePaid(usage), Reported(reports)];
    NoRequests(usage, reports);
  }

  lemma NoRequests(usage: Usage, reports: Reports)
    ensures Requests([PrePaid(usage), Reported(reports)]) == []
  {
    RequestsSnoc([], PrePaid(usage));
    RequestsSnoc([PrePaid(usage)], Reported(reports));
    assert [] + [PrePaid(usage)] == [PrePaid(usage)];
    assert [PrePaid(usage)] + [Reported(reports)] == [PrePaid(usage), Reported(reports)];
  }

  /** One step of the run while the transcript is short. */
  lemma ShortStep(estimate: Eviction.Estimate, cooldown: nat, s: State, k: nat)
    requires Reached(s, k) && k <= 3
    ensures Reached(Step(PlainConfig(estimate, 5, None), cooldown, PlainEnv(PausedThird, SUMMARY), s, k), k + 1)
  {
    hide Prepare, Step, Requests, StaleReads.MarkStale, Dedup.DedupAll, PlainConfig, PlainEnv, AllShort;
    var p := Prepare(PlainConfig(estimate, 5, None), PlainEnv(PausedThird, SUMMARY), s, k);
    var r := Step(PlainConfig(estimate, 5, None), cooldown, PlainEnv(PausedThird, SUMMARY), s, k);
    HistoryIsShort(k);
    ShortUntouched(s.history);
    PrepareQuietly(estimate, 5, None, PausedThird, SUMMARY, s, k);
    if k == 2 {
      PauseStep(estimate, cooldown, PausedThird, SUMMARY, s, k);
      var request :| r.trace == p.trace + [Opened(request, 0), BreakerChanged(Reset(0)), Round(Paused, PAUSE)];
      OneRequest(p.trace, [Opened(request, 0), BreakerChanged(Reset(0)), Round(Paused, PAUSE)]);
    } else {
      NoHardStop(estimate, p.streak + 1);
      ToolStep(estimate, 5, None, cooldown, PausedThird, SUMMARY, s, k);
      var request, reply :| r.trace == p.trace + ToolItems(request, reply);
      OneRequest(p.trace, ToolItems(request, reply));
    }
  }

  lemma NoHardStop(estimate: Eviction.Estimate, streak: nat)
    ensures !HardStop(PlainConfig(estimate, 5, None), streak)
  {
  }

  // ----- the summary -----

  /** A text that does not begin with white space costs something. */
  lemma TextCosts(abc: Alphabet, s: string)
    requires s != "" && !IsWhitespace(s[0])
    ensures Tokens(abc, s) >= 1
  {
  }

  lemma {:induction false} MessagesCost(abc: Alphabet, j: JsonText, h: Transcript)
    requires forall i | 0 <= i < |h| :: h[i].content != [] && BlockText(j, h[i].content[0]) != ""
                                        && !IsWhitespace(BlockText(j, h[i].content[0])[0])
    ensures HistoryTokens(abc, j, h) >= |h|
  {
    hide Tokens, BlockText;
    if h != [] {
      var b := h[0].content[0];
      assert Proxy(j, h[0].content)[0] == BlockText(j, b)[0];
      TextCosts(abc, Proxy(j, h[0].content));
      MessagesCost(abc, j, h[1..]);
    }
  }

  /** The loop's own estimate. */
  function TokenEstimate(abc: Alphabet): Eviction.Estimate {
    (h: Transcript) => HistoryTokens(abc, Library(), h)
  }

  lemma PausedHistoryCosts(abc: Alphabet)
    ensures TokenEstimate(abc)(HistoryAt(4)) > 5
  {
    hide IsWhitespace;
    FirstTexts();
    MessagesCost(abc, Library(), HistoryAt(4));
  }

  lemma FirstTexts()
    ensures var h := HistoryAt(4);
            forall i | 0 <= i < |h| :: h[i].content != [] && BlockText(Library(), h[i].content[0]) != ""
                                       && !IsWhitespace(BlockText(Library(), h[i].content[0])[0])
  {
  }

  lemma SummaryAnswers(h: Transcript)
    requires |h| == 8
    ensures CompactReply(h, SUMMARY) == Some(Answer("summary", NO_USAGE))
  {
    assert TextOf([TextDelta("summary")][..0]) == "" && UsageOf([TextDelta("summary")][..0]) == NO_USAGE;
    assert "" + "summary" == "summary";
    assert TrimStart("summary") == "summary" && TrimEnd("summary") == "summary";
  }

  lemma PrepareSummarises(estimate: Eviction.Estimate, s: State, step: nat)
    requires s.history == HistoryAt(4) && estimate(HistoryAt(4)) > 5
    ensures var p := Prepare(PlainConfig(estimate, 5, None), PlainEnv(PausedThird, SUMMARY), s, step);
            && p == s.(history := Compacted(HistoryAt(4), "summary"), total := p.total, trace := p.trace)
            && p.trace == s.trace + [Summarised(HistoryAt(4), NO_USAGE)]
  {
    hide StaleReads.MarkStale, Dedup.DedupAll, Compacted, AllShort, CompactReply;
    HistoryIsShort(4);
    ShortUntouched(s.history);
    SummaryAnswers(s.history);
  }

  /** What the fifth request carries: the task, the summary, and from the second result on what was said. */
  function FifthRequest(): Transcript {
    var turn := LoopPairing.ToolTurn("call_0");
    [TASK[0], SummaryMessage("summary"), turn[1], PAUSED] + turn
  }

  /** The fifth step summarises between the second call and its result, and asks on. */
  lemma SplitStep(estimate: Eviction.Estimate, cooldown: nat, s: State)
    requires Reached(s, 4) && estimate(HistoryAt(4)) > 5
    ensures var r := Step(PlainConfig(estimate, 5, None), cooldown, PlainEnv(PausedThird, SUMMARY), s, 4);
            Ready(r) && |Requests(r.trace)| == 5 && Requests(r.trace)[4].messages == FifthRequest()
  {
    hide Prepare, Step, Requests, PlainConfig, PlainEnv;
    PrepareSummarises(estimate, s, 4);
    var p := Prepare(PlainConfig(estimate, 5, None), PlainEnv(PausedThird, SUMMARY), s, 4);
    var r := Step(PlainConfig(estimate, 5, None), cooldown, PlainEnv(PausedThird, SUMMARY), s, 4);
    NoHardStop(estimate, p.streak + 1);
    ToolStep(estimate, 5, None, cooldown, PausedThird, SUMMARY, s, 4);
    var request: ChatRequest, reply: Message :| request.messages == p.history && r.trace == p.trace + ToolItems(request, reply);
    RequestsSnoc(s.trace, Summarised(HistoryAt(4), NO_USAGE));
    OneRequest(p.trace, ToolItems(request, reply));
    assert p.history == FifthRequest();
  }

  lemma FifthIsUnpaired()
    ensures !Paired(FifthRequest())
  {
    hide Paired;
    LoopPairing.PauseBreaksPairing("call_0", "call_0", "call_0", "summary");
    assert FifthRequest() == Compacted(HistoryAt(4), "summary");
  }

  /** A run whose third answer pauses: its compaction cuts between the second call and its result, and its
      fifth request carries that result without the call. */
  lemma PausedRunIsUnpaired(abc: Alphabet, cooldown: nat, d: seq<nat>)
    ensures var s := Run(PlainConfig(TokenEstimate(abc), 5, None), cooldown, PlainEnv(PausedThird, SUMMARY), TASK, d);
            && |Requests(s.trace)| == 5
            && Requests(s.trace)[4].messages == FifthRequest() && !Paired(Requests(s.trace)[4].messages)
  {
    hide Start, Step, Requests, Paired, PlainConfig, PlainEnv, FifthRequest, TokenEstimate;
    var estimate := TokenEstimate(abc);
    PausedHistoryCosts(abc);
    var cfg, env := PlainConfig(estimate, 5, None), PlainEnv(PausedThird, SUMMARY);
    var s0 := Start(cfg, env, TASK, d);
    StartReached(estimate, d);
    var s1 := Step(cfg, cooldown, env, s0, 0);
    ShortStep(estimate, cooldown, s0, 0);
    var s2 := Step(cfg, cooldown, env, s1, 1);
    ShortStep(estimate, cooldown, s1, 1);
    var s3 := Step(cfg, cooldown, env, s2, 2);
    ShortStep(estimate, cooldown, s2, 2);
    var s4 := Step(cfg, cooldown, env, s3, 3);
    ShortStep(estimate, cooldown, s3, 3);
    SplitStep(estimate, cooldown, s4);
    var s5 := Step(cfg, cooldown, env, s4, 4);
    FiveSteps(estimate, cooldown, env, s0, s1, s2, s3, s4, s5);
    RequestsSnoc(s5.trace, Recorded(s5.total, s5.roundTrips, false, Finishing(Other("max_steps"))));
    FifthIsUnpaired();
  }

  lemma FiveSteps(estimate: Eviction.Estimate, cooldown: nat, env: Env, s0: State, s1: State, s2: State, s3: State, s4: State, s5: State)
    requires Ready(s0) && Ready(s1) && Ready(s2) && Ready(s3) && Ready(s4) && Ready(s5)
    requires var cfg := PlainConfig(estimate, 5, None);
             && s1 == Step(cfg, cooldown, env, s0, 0) && s2 == Step(cfg, cooldown, env, s1, 1)
             && s3 == Step(cfg, cooldown, env, s2, 2)
             && s4 == Step(cfg, cooldown, env, s3, 3) && s5 == Step(cfg, cooldown, env, s4, 4)
    ensures RunSteps(PlainConfig(estimate, 5, None), cooldown, env, s0, 0) == Finish(s5, false, Other("max_steps"))
  {
    hide Step;
    var cfg := PlainConfig(estimate, 5, None);
    assert RunSteps(cfg, cooldown, env, s5, 5) == Finish(s5, false, Other("max_steps"));
    assert RunSteps(cfg, cooldown, env, s4, 4) == RunSteps(cfg, cooldown, env, s5, 5);
    assert RunSteps(cfg, cooldown, env, s3, 3) == RunSteps(cfg, cooldown, env, s4, 4);
    assert RunSteps(cfg, cooldown, env, s2, 2) == RunSteps(cfg, cooldown, env, s3, 3);
    assert RunSteps(cfg, cooldown, env, s1, 1) == RunSteps(cfg, cooldown, env, s2, 2);
  }

  // ----- a nudge given again -----

  /** A reply with the no-progress nudge in it. */
  predicate CarriesNudge(cfg: Config, x: TraceItem) {
    && x.Replied?
    && var notes := Notes(x.message.content);
       |notes| == (if cfg.budgetAware then 2 else 1) && notes[0] == Text(cfg.nudgeText(NoProgress), false)
  }

  predicate IsEdit(x: TraceItem) {
    IsToolRound(x) && x.verdict.edited
  }

  /** Between any two nudges some edit was made. */
  ghost predicate NudgedOnce(cfg: Config, trace: seq<TraceItem>) {
    forall i, j | 0 <= i < j < |trace| && CarriesNudge(cfg, trace[i]) && CarriesNudge(cfg, trace[j]) ::
      exists k :: i < k < j && IsEdit(trace[k])
  }

  lemma NudgedExactlyWhenIdle(cfg: Config, trace: seq<TraceItem>, j: nat)
    requires AllFollow(cfg, trace) && j < |trace| && trace[j].Replied?
    ensures EndsInReport(trace[..j])
    ensures CarriesNudge(cfg, trace[j]) <==> IsIdle(cfg, EditFree(trace[..j]))
  {
    hide AllFollow, EditFree, Notes, IsIdle, HardStop, RoundTrips, LoopOutcome.Spent;
    FollowsAt(cfg, trace, j);
  }

  /** Without an edit the count of edit-free rounds does not fall. */
  lemma {:induction false} EditFreeGrows(trace: seq<TraceItem>, i: nat, j: nat)
    requires i <= j <= |trace| && forall k | i <= k < j :: !IsEdit(trace[k])
    ensures EditFree(trace[..i]) <= EditFree(trace[..j])
  {
    if i < j {
      EditFreeGrows(trace, i, j - 1);
      assert trace[..j][..j - 1] == trace[..j - 1];
    }
  }

  lemma RoundCounts(t: seq<TraceItem>, x: TraceItem, y: TraceItem)
    requires IsToolRound(x) && !x.verdict.edited && y.Reported?
    ensures EditFree(t + [x] + [y]) == EditFree(t) + 1
  {
    hide EditFree;
    Snoc(t, x);
    Snoc(t + [x], y);
  }

  lemma RoundRaises(trace: seq<TraceItem>, i: nat, j: nat)
    requires i + 2 < j <= |trace| && EndsInReport(trace[..j]) && forall k | i <= k < j :: !IsEdit(trace[k])
    ensures EditFree(trace[..i]) < EditFree(trace[..j])
  {
    hide EditFree;
    EditFreeGrows(trace, i, j - 2);
    var x, y := trace[j - 2], trace[j - 1];
    assert trace[..j][j - 2] == x && trace[..j][j - 1] == y && !IsEdit(x);
    assert trace[..j] == trace[..j - 2] + [x] + [y];
    RoundCounts(trace[..j - 2], x, y);
  }

  lemma ReplyIsBefore(trace: seq<TraceItem>, i: nat, j: nat)
    requires i < j <= |trace| && trace[i].Replied? && EndsInReport(trace[..j])
    ensures i + 2 < j
  {
  }

  /** A tool round that leaves the count where it was at an earlier reply has an edit behind that reply. */
  lemma SameCountNeedsEdit(trace: seq<TraceItem>, i: nat, j: nat)
    requires i < j <= |trace| && trace[i].Replied? && EndsInReport(trace[..j])
    requires EditFree(trace[..i]) == EditFree(trace[..j])
    ensures exists k :: i < k < j && IsEdit(trace[k])
  {
    hide EditFree, EndsInReport;
    ReplyIsBefore(trace, i, j);
    if forall k | i <= k < j :: !IsEdit(trace[k]) {
      RoundRaises(trace, i, j);
    }
  }

  lemma OnceWhenOne(cfg: Config, trace: seq<TraceItem>)
    requires AllFollow(cfg, trace) && (cfg.noProgressLimit.Some? ==> cfg.noProgressLimit.value <= 1)
    ensures NudgedOnce(cfg, trace)
  {
    hide AllFollow, EditFree, CarriesNudge, EndsInReport;
    forall i, j | 0 <= i < j < |trace| && CarriesNudge(cfg, trace[i]) && CarriesNudge(cfg, trace[j])
      ensures exists k :: i < k < j && IsEdit(trace[k])
    {
      CarriesReply(cfg, trace[i]);
      CarriesReply(cfg, trace[j]);
      NudgedExactlyWhenIdle(cfg, trace, i);
      NudgedExactlyWhenIdle(cfg, trace, j);
      SameCountNeedsEdit(trace, i, j);
    }
  }

  lemma CarriesReply(cfg: Config, x: TraceItem)
    requires CarriesNudge(cfg, x)
    ensures x.Replied?
  {
  }

  lemma ToolItemsUnfold(t: seq<TraceItem>, request: ChatRequest, reply: Message)
    ensures var u := t + [Opened(request, 0)] + [BreakerChanged(Reset(0))] + [Round(ToolsRun(false), CALL)] + [Reported([])];
            t + ToolItems(request, reply)[..4] == u && t + ToolItems(request, reply) == u + [Replied(reply)]
  {
  }

  /** A tool round adds one to the edit-free rounds, before its reply and after. */
  lemma ToolItemsCount(t: seq<TraceItem>, request: ChatRequest, reply: Message)
    ensures EditFree(t + ToolItems(request, reply)) == EditFree(t) + 1
    ensures EditFree(t + ToolItems(request, reply)[..4]) == EditFree(t) + 1
  {
    hide EditFree, ToolItems;
    var a, b, c := Opened(request, 0), BreakerChanged(Reset(0)), Round(ToolsRun(false), CALL);
    ToolItemsUnfold(t, request, reply);
    Snoc(t, a);
    Snoc(t + [a], b);
    RoundCounts(t + [a] + [b], c, Reported([]));
    Snoc(t + [a] + [b] + [c] + [Reported([])], Replied(reply));
  }

  /** Two idle rounds in a row are both nudged. */
  lemma NudgedAgain(cfg: Config, t: seq<TraceItem>, q1: ChatRequest, m1: Message, q2: ChatRequest, m2: Message,
        last: TraceItem)
    requires var trace := t + ToolItems(q1, m1) + ToolItems(q2, m2) + [last];
             AllFollow(cfg, trace) && IsIdle(cfg, EditFree(t) + 1) && IsIdle(cfg, EditFree(t) + 2)
    ensures !NudgedOnce(cfg, t + ToolItems(q1, m1) + ToolItems(q2, m2) + [last])
  {
    hide AllFollow, EditFree, IsIdle, CarriesNudge;
    var u := t + ToolItems(q1, m1);
    var trace := u + ToolItems(q2, m2) + [last];
    var i, j := |t| + 4, |t| + 9;
    ToolItemsCount(t, q1, m1);
    ToolItemsCount(u, q2, m2);
    assert trace[..i] == t + ToolItems(q1, m1)[..4] && trace[..j] == u + ToolItems(q2, m2)[..4];
    assert trace[i] == Replied(m1) && trace[j] == Replied(m2);
    NudgedExactlyWhenIdle(cfg, trace, i);
    NudgedExactlyWhenIdle(cfg, trace, j);
    forall k | i < k < j
      ensures !IsEdit(trace[k])
    {
      assert trace[k] == ToolItems(q2, m2)[k - |u|];
    }
  }

  function CallAlways(k: nat): seq<Event> {
    CALL
  }

  /** A state `k` edit-free tool rounds into a run that asks for one tool after another. */
  ghost predicate Idling(estimate: Eviction.Estimate, n: nat, s: State, k: nat) {
    Ready(s) && s.streak == k && Tallied(PlainConfig(estimate, n + 1, Some(n)), 0, s)
  }

  lemma IdleStep(estimate: Eviction.Estimate, n: nat, cooldown: nat, s: State, k: nat)
    requires Idling(estimate, n, s, k) && k + 1 < 2 * n
    ensures var r := Step(PlainConfig(estimate, n + 1, Some(n)), cooldown, PlainEnv(CallAlways, NoStream), s, k);
            Idling(estimate, n, r, k + 1) && exists request, reply :: r.trace == s.trace + ToolItems(request, reply)
  {
    hide Prepare, Step, Outline, Tallied;
    PrepareQuietly(estimate, n + 1, Some(n), CallAlways, NoStream, s, k);
    ToolStep(estimate, n + 1, Some(n), cooldown, CallAlways, NoStream, s, k);
    StepTallied(PlainConfig(estimate, n + 1, Some(n)), 0, cooldown, PlainEnv(CallAlways, NoStream), s, k);
    var p := Prepare(PlainConfig(estimate, n + 1, Some(n)), PlainEnv(CallAlways, NoStream), s, k);
    var r := Step(PlainConfig(estimate, n + 1, Some(n)), cooldown, PlainEnv(CallAlways, NoStream), s, k);
    var request, reply :| r.trace == p.trace + ToolItems(request, reply);
  }

  lemma {:induction false} IdleRun(estimate: Eviction.Estimate, n: nat, cooldown: nat, s: State, k: nat)
    requires n >= 2 && k < n && Idling(estimate, n, s, k)
    ensures !NudgedOnce(PlainConfig(estimate, n + 1, Some(n)),
                        RunSteps(PlainConfig(estimate, n + 1, Some(n)), cooldown, PlainEnv(CallAlways, NoStream), s, k).trace)
    decreases n - k
  {
    hide Step, NudgedOnce, Opens, Continued, EditFree, OpenedInTime, RoundTrips, LoopOutcome.Spent, AllFollow, AtRest;
    var cfg, env := PlainConfig(estimate, n + 1, Some(n)), PlainEnv(CallAlways, NoStream);
    IdleStep(estimate, n, cooldown, s, k);
    var r := Step(cfg, cooldown, env, s, k);
    if k < n - 1 {
      IdleRun(estimate, n, cooldown, r, k + 1);
    } else {
      IdleStep(estimate, n, cooldown, r, n);
      var q := Step(cfg, cooldown, env, r, n);
      FinishQuiet(cfg, 0, q, false, Other("max_steps"));
      var request1, reply1 :| r.trace == s.trace + ToolItems(request1, reply1);
      var request2, reply2 :| q.trace == r.trace + ToolItems(request2, reply2);
      var last := Recorded(q.total, q.roundTrips, false, Finishing(Other("max_steps")));
      assert Finish(q, false, Other("max_steps")).trace ==
             s.trace + ToolItems(request1, reply1) + ToolItems(request2, reply2) + [last];
      NudgedAgain(cfg, s.trace, request1, reply1, request2, reply2, last);
      TwoLeft(estimate, n, cooldown, env, s, r, q);
    }
  }

  lemma TwoLeft(estimate: Eviction.Estimate, n: nat, cooldown: nat, env: Env, s: State, r: State, q: State)
    requires n >= 1 && Ready(s) && Ready(r) && Ready(q)
    requires var cfg := PlainConfig(estimate, n + 1, Some(n));
             r == Step(cfg, cooldown, env, s, n - 1) && q == Step(cfg, cooldown, env, r, n)
    ensures RunSteps(PlainConfig(estimate, n + 1, Some(n)), cooldown, env, s, n - 1) == Finish(q, false, Other("max_steps"))
  {
    hide Step;
    var cfg := PlainConfig(estimate, n + 1, Some(n));
    assert RunSteps(cfg, cooldown, env, q, n + 1) == Finish(q, false, Other("max_steps"));
    assert RunSteps(cfg, cooldown, env, r, n) == RunSteps(cfg, cooldown, env, q, n + 1);
  }

  /** With a limit of two or more, a run that calls a tool n + 1 times and edits nothing is nudged twice. */
  lemma NudgedTwice(estimate: Eviction.Estimate, n: nat, cooldown: nat, seed: Transcript, d: seq<nat>)
    requires n >= 2
    ensures var cfg := PlainConfig(estimate, n + 1, Some(n));
            !NudgedOnce(cfg, Run(cfg, cooldown, PlainEnv(CallAlways, NoStream), seed, d).trace)
  {
    hide RunSteps, Tallied, NudgedOnce;
    var cfg, env := PlainConfig(estimate, n + 1, Some(n)), PlainEnv(CallAlways, NoStream);
    StartTallied(cfg, env, seed, d);
    IdleRun(estimate, n, cooldown, Start(cfg, env, seed, d), 0);
  }

  /** The nudge is given at most once between two edits in every run with limit n exactly if n is at most 1. */
  lemma NudgedOnceExactly(n: nat)
    ensures (forall cfg: Config, cooldown: nat, env: Env, seed: Transcript, d: seq<nat> ::
               cfg.noProgressLimit == Some(n) ==> NudgedOnce(cfg, Run(cfg, cooldown, env, seed, d).trace)) <==> n <= 1
  {
    hide Run, NudgedOnce, AllFollow, AtRest;
    if n <= 1 {
      forall cfg: Config, cooldown: nat, env: Env, seed: Transcript, d: seq<nat> | cfg.noProgressLimit == Some(n)
        ensures NudgedOnce(cfg, Run(cfg, cooldown, env, seed, d).trace)
      {
        RunFollows(cfg, cooldown, env, seed, d);
        OnceWhenOne(cfg, Run(cfg, cooldown, env, seed, d).trace);
      }
    } else {
      var estimate := (_: Transcript) => 0;
      NudgedTwice(estimate, n, 0, TASK, []);
      var cfg := PlainConfig(estimate, n + 1, Some(n));
      assert !NudgedOnce(cfg, Run(cfg, 0, PlainEnv(CallAlways, NoStream), TASK, []).trace);
    }
  }

  // ----- an answer and an answer cut off -----

  function Says(stop: StopReason): seq<Event> {
    [TextDelta("done"), Done(stop)]
  }

  lemma SaysFolds(stop: StopReason)
    ensures Fold(Says(stop)) == Turn("done", [], map[], NO_USAGE, Some(stop))
    ensures Prose(Says(stop)) == [TextDelta("done")] && Immediate(Says(stop)) == []
  {
    var events := Says(stop);
    var a := events[..1];
    assert a[..0] == [] && events[..1] == a;
    assert Fold(a[..0]) == EMPTY_TURN && Prose(a[..0]) == [] && Immediate(a[..0]) == [];
    assert Fold(a) == Observed(EMPTY_TURN, events[0]) && Prose(a) == [TextDelta("done")] && Immediate(a) == [];
    assert "" + "done" == "done";
  }

  function Always(events: seq<Event>): nat -> seq<Event> {
    (_: nat) => events
  }

  /** A run of one step whose stream says "done". */
  function OneAnswer(estimate: Eviction.Estimate, cooldown: nat, stop: StopReason, seed: Transcript, d: seq<nat>): State {
    Run(PlainConfig(estimate, 1, None), cooldown, PlainEnv(Always(Says(stop)), NoStream), seed, d)
  }

  function Closing(trace: seq<TraceItem>): Option<TraceItem> {
    if trace == [] then None else Some(trace[|trace| - 1])
  }

  /** Such a run is its one judged answer, after which nothing has been sent or spent. */
  lemma OneAnswerIs(estimate: Eviction.Estimate, cooldown: nat, stop: StopReason, seed: Transcript, d: seq<nat>)
    returns (f: State)
    ensures Ready(f) && f.sink == [] && f.total == NO_USAGE && f.roundTrips == 0
    ensures var cfg, env := PlainConfig(estimate, 1, None), PlainEnv(Always(Says(stop)), NoStream);
            var r := Settle(cfg, env, f, 0, Says(stop));
            OneAnswer(estimate, cooldown, stop, seed, d) == if r.over then r else Finish(r, false, Other("max_steps"))
  {
    hide Prepare, Step, Settle, Says, StaleReads.MarkStale, Dedup.DedupAll, Open, StreamFinished, Finish;
    var cfg, env := PlainConfig(estimate, 1, None), PlainEnv(Always(Says(stop)), NoStream);
    var s := Start(cfg, env, seed, d);
    StartIsFresh(cfg, env, seed, d);
    PrepareQuietly(estimate, 1, None, Always(Says(stop)), NoStream, s, 0);
    var p := Prepare(cfg, env, s, 0);
    StepIsStream(cfg, cooldown, env, s, 0, Says(stop));
    var choice :| Step(cfg, cooldown, env, s, 0) ==
                  Settle(cfg, env, StreamFinished(cooldown, Open(cfg, p.(requireTool := false), choice), Says(stop)), 0, Says(stop));
    SaysFolds(stop);
    f := StreamFinished(cooldown, Open(cfg, p.(requireTool := false), choice), Says(stop));
    OpenedAndFinished(cfg, cooldown, p, choice, Says(stop));
    NothingSentYet(cfg, cooldown, p, choice, Says(stop));
    OneStep(cfg, cooldown, env, s);
  }

  lemma StartIsFresh(cfg: Config, env: Env, seed: Transcript, d: seq<nat>)
    requires cfg.fallbacks == [] && env.classifier.None? && env.prePass.NoPrePass?
    ensures var s := Start(cfg, env, seed, d);
            && Ready(s) && s.sink == [] && s.total == NO_USAGE && s.roundTrips == 0 && s.opens == 0 && s.history == seed
            && exists usage: Usage, reports: Reports :: s.trace == [PrePaid(usage), Reported(reports)]
  {
    hide PlanOf, PlanUsage, PrePassNotices, FirstAvailable, Plus;
    NoPlan(cfg);
    assert seed + [] == seed;
    NothingPlus(NO_USAGE);
  }

  lemma NoPlan(cfg: Config)
    ensures PlanOf(cfg, NoPrePass).None? && PlanUsage(cfg, NoPrePass) == NO_USAGE && PrePassNotices(NoPrePass) == []
  {
  }

  lemma NothingSentYet(cfg: Config, cooldown: nat, p: State, choice: Option<ToolChoice>, events: seq<Event>)
    requires p.cursor <= |cfg.fallbacks| && Immediate(events) == []
    ensures var f := StreamFinished(cooldown, Open(cfg, p.(requireTool := false), choice), events);
            f.sink == p.sink && f.total == p.total && f.roundTrips == p.roundTrips
  {
    hide RequestFor, Applied, Immediate;
  }

  lemma OneStep(cfg: Config, cooldown: nat, env: Env, s: State)
    requires cfg.maxSteps == 1 && s.cursor <= |cfg.fallbacks| && !s.over
    ensures var r := Step(cfg, cooldown, env, s, 0);
            RunSteps(cfg, cooldown, env, s, 0) == if r.over then r else Finish(r, false, Other("max_steps"))
  {
    hide Step, Finish;
    var r := Step(cfg, cooldown, env, s, 0);
    assert RunSteps(cfg, cooldown, env, r, 1) == if r.over then r else Finish(r, false, Other("max_steps"));
  }

  /** No budget, no guard and no verify command. */
  predicate Guardless(cfg: Config) {
    cfg.budget.None? && !cfg.liveOpsAsk && !cfg.requireEdit && !cfg.verifyAndFix && !cfg.hasVerify
  }

  lemma PlainIsGuardless(estimate: Eviction.Estimate)
    ensures var cfg := PlainConfig(estimate, 1, None); Guardless(cfg) && !cfg.claimsTool("done")
  {
  }

  lemma AnswerSettles(cfg: Config, env: Env, f: State, stop: StopReason)
    requires Guardless(cfg) && !cfg.claimsTool("done") && cfg.fallbacks == [] && stop in [EndTurn, MaxTokens]
    requires Ready(f) && f.sink == [] && f.total == NO_USAGE && f.roundTrips == 0
    ensures var r := Settle(cfg, env, f, 0, Says(stop));
            && r.over
            && (stop == EndTurn ==>
                  && r.sink == [Sent(TextDelta("done")), Sent(UsageReport(NO_USAGE)), Sent(Done(EndTurn))]
                  && Closing(r.trace) == Some(Recorded(NO_USAGE, 1, true, Finishing(EndTurn))))
            && (stop == MaxTokens ==>
                  && r.sink == [SentError(ResponseIncomplete)]
                  && Closing(r.trace) == Some(Recorded(NO_USAGE, 1, false, Failing(ResponseIncomplete))))
  {
    hide Says, Fold, Prose, Act, Finish, Fail, MadeEdit, VerifyOutput, Verify, Send, Judge, Closing, Log, Counted;
    SaysFolds(stop);
    DoneIsJudged(cfg, env, f, stop);
    var g := Log(Counted(f, Fold(Says(stop))), Round(if stop == EndTurn then Accepted else Truncated, Says(stop)));
    Session.ActOnCompletion(cfg, env, g, 0, Fold(Says(stop)), [TextDelta("done")]);
    Session.ActOnAnswer(cfg, env, g, 0, Fold(Says(stop)), [TextDelta("done")]);
    GradedDone(cfg, env, f, stop);
    if stop == EndTurn {
      ShownAndEnded(g, stop);
    } else {
      EndedInError(g);
    }
  }

  lemma DoneIsJudged(cfg: Config, env: Env, f: State, stop: StopReason)
    requires Guardless(cfg) && !cfg.claimsTool("done") && cfg.fallbacks == [] && stop in [EndTurn, MaxTokens]
    ensures Judge(cfg, env, 0, Counted(f, Fold(Says(stop))), Fold(Says(stop))) == if stop == EndTurn then Accepted else Truncated
  {
    hide Says, Fold, VerifyOutput;
    SaysFolds(stop);
  }

  lemma GradedDone(cfg: Config, env: Env, f: State, stop: StopReason)
    requires f.sink == [] && f.total == NO_USAGE && f.roundTrips == 0
    ensures var g := Log(Counted(f, Fold(Says(stop))), Round(if stop == EndTurn then Accepted else Truncated, Says(stop)));
            g.sink == [] && g.total == NO_USAGE && g.roundTrips == 1
    ensures !cfg.hasVerify ==> Verify(cfg, env, 0)
  {
    hide Says, Fold, Plus;
    SaysFolds(stop);
    NothingPlus(NO_USAGE);
  }

  lemma ShownAndEnded(g: State, stop: StopReason)
    requires g.sink == [] && g.total == NO_USAGE && g.roundTrips == 1
    ensures var r := Finish(Send(g, [TextDelta("done")]), true, stop);
            && r.over && r.sink == [Sent(TextDelta("done")), Sent(UsageReport(NO_USAGE)), Sent(Done(stop))]
            && Closing(r.trace) == Some(Recorded(NO_USAGE, 1, true, Finishing(stop)))
  {
  }

  lemma EndedInError(g: State)
    requires g.sink == [] && g.total == NO_USAGE && g.roundTrips == 1
    ensures var r := Fail(g, ResponseIncomplete);
            && r.over && r.sink == [SentError(ResponseIncomplete)]
            && Closing(r.trace) == Some(Recorded(NO_USAGE, 1, false, Failing(ResponseIncomplete)))
  {
  }

  /** A complete answer is shown, and the run succeeds. */
  lemma AnswerStands(estimate: Eviction.Estimate, cooldown: nat, seed: Transcript, d: seq<nat>)
    ensures var s := OneAnswer(estimate, cooldown, EndTurn, seed, d);
            && s.sink == [Sent(TextDelta("done")), Sent(UsageReport(NO_USAGE)), Sent(Done(EndTurn))]
            && Closing(s.trace) == Some(Recorded(NO_USAGE, 1, true, Finishing(EndTurn)))
  {
    hide OneAnswer, Says, Settle, Closing, PlainEnv, Finish;
    var f := OneAnswerIs(estimate, cooldown, EndTurn, seed, d);
    PlainIsGuardless(estimate);
    AnswerSettles(PlainConfig(estimate, 1, None), PlainEnv(Always(Says(EndTurn)), NoStream), f, EndTurn);
  }

  /** The same answer cut off at the token limit is not: the caller gets a single error. */
  lemma AnswerCutOff(estimate: Eviction.Estimate, cooldown: nat, seed: Transcript, d: seq<nat>)
    ensures var s := OneAnswer(estimate, cooldown, MaxTokens, seed, d);
            && s.sink == [SentError(ResponseIncomplete)]
            && Closing(s.trace) == Some(Recorded(NO_USAGE, 1, false, Failing(ResponseIncomplete)))
  {
    hide OneAnswer, Says, Settle, Closing, PlainEnv, Finish;
    var f := OneAnswerIs(estimate, cooldown, MaxTokens, seed, d);
    PlainIsGuardless(estimate);
    AnswerSettles(PlainConfig(estimate, 1, None), PlainEnv(Always(Says(MaxTokens)), NoStream), f, MaxTokens);
  }
}

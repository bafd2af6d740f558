/** How much a run can cost: provider opens, unproductive round-trips and edit-free exploration, and what
    the model is told while it explores. */
module LoopBounds {
  import opened Protocol
  import opened History
  import opened Compaction
  import opened TurnModel
  import opened Breaker
  import opened Request
  import opened AgentLoop
  import StaleReads
  import Dedup
  import Eviction
  import LoopOutcome

  // ----- what is counted, on the trace alone -----

  function Opens(trace: seq<TraceItem>): nat {
    if trace == [] then 0
    else Opens(trace[..|trace| - 1]) + (if trace[|trace| - 1].Opened? then 1 else 0)
  }

  /** A round-trip without tool calls, not a pause, after which the loop went on. */
  predicate Continues(v: Verdict) {
    v.LiveOpsNudged? || v.Rerouted? || v.ClaimNudged? || v.EditNudged? || v.FixNudged?
  }

  function Continued(trace: seq<TraceItem>): nat {
    if trace == [] then 0
    else
      var x := trace[|trace| - 1];
      Continued(trace[..|trace| - 1]) + (if x.Round? && Continues(x.verdict) then 1 else 0)
  }

  /** The tool rounds since an edit tool last reported a change. */
  function EditFree(trace: seq<TraceItem>): nat {
    if trace == [] then 0
    else
      var x := trace[|trace| - 1];
      if x.Round? && x.verdict.ToolsRun? then (if x.verdict.edited then 0 else EditFree(trace[..|trace| - 1]) + 1)
      else EditFree(trace[..|trace| - 1])
  }

  /** No request was opened after `limit` or more edit-free tool rounds in a row. */
  predicate OpenedInTime(trace: seq<TraceItem>, limit: nat) {
    forall i | 0 <= i < |trace| :: trace[i].Opened? ==> EditFree(trace[..i]) < limit
  }

  // ----- what is said to the model behind tool results -----

  /** The streams that ran to their end. */
  function RoundTrips(trace: seq<TraceItem>): nat {
    if trace == [] then 0
    else
      var x := trace[|trace| - 1];
      RoundTrips(trace[..|trace| - 1]) + (if x.Round? && !x.verdict.FailedMidway? then 1 else 0)
  }

  predicate IsToolRound(x: TraceItem) {
    x.Round? && x.verdict.ToolsRun?
  }

  /** `k` edit-free tool rounds in a row are enough for a nudge and not enough to stop. */
  predicate IsIdle(cfg: Config, k: nat) {
    cfg.noProgressLimit.Some? && 0 < cfg.noProgressLimit.value <= k < 2 * cfg.noProgressLimit.value
  }

  /** What a message holds besides tool results. */
  function Notes(content: Blocks): Blocks {
    if content == [] then []
    else (if content[0].ToolResult? then [] else [content[0]]) + Notes(content[1..])
  }

  /** What the model is to be told after these items: the nudge exactly if it idles, and where it stands
      if it is to know its budget. */
  function DueNotes(cfg: Config, trace: seq<TraceItem>): Blocks {
    NotesFor(cfg, IsIdle(cfg, EditFree(trace)), RoundTrips(trace), LoopOutcome.Spent(trace))
  }

  predicate EndsInRound(trace: seq<TraceItem>) {
    trace != [] && IsToolRound(trace[|trace| - 1])
  }

  predicate EndsInReport(trace: seq<TraceItem>) {
    |trace| >= 2 && trace[|trace| - 1].Reported? && IsToolRound(trace[|trace| - 2])
  }

  /** Every tool round has been answered. */
  predicate AtRest(trace: seq<TraceItem>) {
    !EndsInRound(trace) && !EndsInReport(trace)
  }

  /** An item in its place: a tool round is followed by what its tools reported and then by the results,
      with the notes that are due, or by the end of a run that does not idle. */
  predicate Follows(cfg: Config, before: seq<TraceItem>, x: TraceItem) {
    if EndsInRound(before) then x.Reported?
    else if EndsInReport(before) then
      if x.Replied? then Notes(x.message.content) == DueNotes(cfg, before) && !HardStop(cfg, EditFree(before))
      else x.Recorded? && !IsIdle(cfg, EditFree(before))
    else !x.Replied?
  }

  predicate AllFollow(cfg: Config, trace: seq<TraceItem>) {
    forall i | 0 <= i < |trace| :: Follows(cfg, trace[..i], trace[i])
  }

  // ----- the invariant -----

  function Allowance(s: State): nat {
    s.liveOpsNudges + s.claimNudges + s.editNudges + s.fixAttempts
  }

  predicate WithinCaps(s: State) {
    && s.liveOpsNudges <= MAX_LIVE_OPS_NUDGES
    && s.claimNudges <= MAX_TOOL_CLAIM_NUDGES
    && s.editNudges <= MAX_EDIT_NUDGES
    && s.fixAttempts <= MAX_FIX_ATTEMPTS
  }

  predicate InTime(cfg: Config, trace: seq<TraceItem>) {
    cfg.noProgressLimit.Some? && cfg.noProgressLimit.value > 0 ==> OpenedInTime(trace, 2 * cfg.noProgressLimit.value)
  }

  /** The books agree with the trace. */
  predicate Booked(s: State) {
    RoundTrips(s.trace) == s.roundTrips && LoopOutcome.Spent(s.trace) == s.total
  }

  /** What the trace shows is what the counters say, for a turn that started at candidate `c`. */
  predicate Counts(cfg: Config, c: nat, s: State) {
    && c <= s.cursor
    && Opens(s.trace) == s.opens
    && Continued(s.trace) <= Allowance(s) + s.cursor - c
    && WithinCaps(s)
    && EditFree(s.trace) == s.streak
    && NudgedBehind(s)
    && InTime(cfg, s.trace)
    && Booked(s)
    && AllFollow(cfg, s.trace)
  }

  predicate Tallied(cfg: Config, c: nat, s: State) {
    Counts(cfg, c, s) && AtRest(s.trace)
  }

  /** The last no-progress nudge was given at a streak that has been reached. */
  predicate NudgedBehind(s: State) {
    s.nudgedAt.Some? ==> s.nudgedAt.value <= s.streak
  }

  predicate Going(cfg: Config, s: State) {
    !s.over ==> !HardStop(cfg, s.streak)
  }

  // ----- elementary steps -----

  lemma Snoc(trace: seq<TraceItem>, x: TraceItem)
    ensures Opens(trace + [x]) == Opens(trace) + (if x.Opened? then 1 else 0)
    ensures Continued(trace + [x]) == Continued(trace) + (if x.Round? && Continues(x.verdict) then 1 else 0)
    ensures EditFree(trace + [x]) ==
            if x.Round? && x.verdict.ToolsRun? then (if x.verdict.edited then 0 else EditFree(trace) + 1) else EditFree(trace)
    ensures RoundTrips(trace + [x]) == RoundTrips(trace) + (if x.Round? && !x.verdict.FailedMidway? then 1 else 0)
    ensures LoopOutcome.Spent(trace + [x]) == Plus(LoopOutcome.Spent(trace), LoopOutcome.ItemUsage(x))
  {
    LoopOutcome.Snoc(trace, x);
    assert (trace + [x])[..|trace|] == trace;
  }

  lemma FollowSnoc(cfg: Config, trace: seq<TraceItem>, x: TraceItem)
    requires AllFollow(cfg, trace) && Follows(cfg, trace, x)
    ensures AllFollow(cfg, trace + [x])
  {
    hide Follows;
    forall i | 0 <= i <= |trace|
      ensures Follows(cfg, (trace + [x])[..i], (trace + [x])[i])
    {
      assert (trace + [x])[..i] == trace[..i];
      assert trace[..|trace|] == trace;
    }
  }

  lemma EndsSnoc(trace: seq<TraceItem>, x: TraceItem)
    ensures EndsInRound(trace + [x]) == IsToolRound(x)
    ensures EndsInReport(trace + [x]) == (x.Reported? && EndsInRound(trace))
  {
  }

  /** An item that has nothing to do with tool rounds. */
  lemma RestSnoc(cfg: Config, trace: seq<TraceItem>, x: TraceItem)
    requires AllFollow(cfg, trace) && AtRest(trace) && !x.Replied?
    ensures AllFollow(cfg, trace + [x]) && (!IsToolRound(x) ==> AtRest(trace + [x]))
  {
    hide AllFollow;
    FollowSnoc(cfg, trace, x);
    EndsSnoc(trace, x);
  }

  lemma OpenedInTimeSnoc(trace: seq<TraceItem>, x: TraceItem, limit: nat)
    requires OpenedInTime(trace, limit) && (x.Opened? ==> EditFree(trace) < limit)
    ensures OpenedInTime(trace + [x], limit)
  {
    hide EditFree;
    forall i | 0 <= i < |trace| + 1 && (trace + [x])[i].Opened?
      ensures EditFree((trace + [x])[..i]) < limit
    {
      assert (trace + [x])[..i] == trace[..i];
      assert trace[..|trace|] == trace;
    }
  }

  lemma InTimeSnoc(cfg: Config, trace: seq<TraceItem>, x: TraceItem)
    requires InTime(cfg, trace) && (x.Opened? ==> !HardStop(cfg, EditFree(trace)))
    ensures InTime(cfg, trace + [x])
  {
    hide EditFree, OpenedInTime;
    if cfg.noProgressLimit.Some? && cfg.noProgressLimit.value > 0 {
      OpenedInTimeSnoc(trace, x, 2 * cfg.noProgressLimit.value);
    }
  }

  predicate IsQuiet(x: TraceItem) {
    !x.Opened? && !x.Replied? && !x.Summarised? && !x.PrePaid? && (x.Round? ==> x.verdict.FailedMidway?)
  }

  lemma LogQuiet(cfg: Config, c: nat, s: State, x: TraceItem)
    requires Tallied(cfg, c, s) && IsQuiet(x)
    ensures Tallied(cfg, c, Log(s, x))
  {
    hide Opens, Continued, EditFree, InTime, RoundTrips, LoopOutcome.Spent, AllFollow, AtRest;
    Snoc(s.trace, x);
    RestSnoc(cfg, s.trace, x);
    InTimeSnoc(cfg, s.trace, x);
  }

  lemma FailQuiet(cfg: Config, c: nat, s: State, e: AgentError)
    requires Tallied(cfg, c, s)
    ensures Tallied(cfg, c, Fail(s, e))
  {
    hide Opens, Continued, EditFree, InTime, RoundTrips, LoopOutcome.Spent, AllFollow, AtRest;
    LogQuiet(cfg, c, s, Recorded(s.total, s.roundTrips, false, Failing(e)));
  }

  lemma FinishQuiet(cfg: Config, c: nat, s: State, success: bool, stop: StopReason)
    requires Tallied(cfg, c, s)
    ensures Tallied(cfg, c, Finish(s, success, stop))
  {
    hide Opens, Continued, EditFree, InTime, RoundTrips, LoopOutcome.Spent, AllFollow, AtRest;
    LogQuiet(cfg, c, s, Recorded(s.total, s.roundTrips, success, Finishing(stop)));
  }

  // ----- the phases of a step -----

  lemma SummarisedQuiet(cfg: Config, c: nat, s: State, h: Transcript, usage: Usage)
    requires Tallied(cfg, c, s)
    ensures Tallied(cfg, c, Log(s, Summarised(h, usage)).(total := Plus(s.total, usage)))
  {
    hide Opens, Continued, EditFree, InTime, RoundTrips, LoopOutcome.Spent, AllFollow, AtRest;
    var x := Summarised(h, usage);
    Snoc(s.trace, x);
    RestSnoc(cfg, s.trace, x);
    InTimeSnoc(cfg, s.trace, x);
  }

  lemma PrepareQuiet(cfg: Config, c: nat, env: Env, s: State, step: nat)
    requires Tallied(cfg, c, s)
    ensures var p := Prepare(cfg, env, s, step);
            Tallied(cfg, c, p) && p.opens == s.opens && p.cursor == s.cursor && p.over == s.over && p.streak == s.streak
  {
    hide StaleReads.MarkStale, Dedup.DedupAll, Eviction.EvictToFit, Compacted, CompactReply;
    hide Opens, Continued, EditFree, InTime, RoundTrips, LoopOutcome.Spent, AllFollow, AtRest;
    var h := Dedup.DedupAll(StaleReads.MarkStale(s.history));
    if CompactReply(h, env.summary(step)).Some? {
      SummarisedQuiet(cfg, c, s, h, CompactReply(h, env.summary(step)).value.usage);
    }
  }

  lemma OpenTallied(cfg: Config, c: nat, s: State, choice: Option<ToolChoice>)
    requires s.cursor <= |cfg.fallbacks| && Tallied(cfg, c, s) && !HardStop(cfg, s.streak)
    ensures var o := Open(cfg, s, choice);
            Tallied(cfg, c, o) && o.opens == s.opens + 1 && o.cursor == s.cursor && o.streak == s.streak && o.over == s.over
  {
    hide RequestFor, Opens, Continued, EditFree, InTime, RoundTrips, LoopOutcome.Spent, AllFollow, AtRest;
    var x := Opened(RequestFor(cfg, s, choice), s.cursor);
    Snoc(s.trace, x);
    RestSnoc(cfg, s.trace, x);
    InTimeSnoc(cfg, s.trace, x);
  }

  lemma StreamFinishedQuiet(cfg: Config, c: nat, cooldown: nat, s: State, events: seq<Event>)
    requires Tallied(cfg, c, s)
    ensures var r := StreamFinished(cooldown, s, events);
            Tallied(cfg, c, r) && r.opens == s.opens && r.cursor == s.cursor && r.streak == s.streak && r.over == s.over
  {
    hide Immediate, Applied, Opens, Continued, EditFree, InTime, RoundTrips, LoopOutcome.Spent, AllFollow, AtRest;
    LogQuiet(cfg, c, Send(s, Immediate(events)), BreakerChanged(Reset(s.cursor)));
  }

  lemma StreamLostQuiet(cfg: Config, c: nat, s: State, events: seq<Event>, error: AgentError)
    requires Tallied(cfg, c, s)
    ensures var r := StreamLost(s, events, error); Tallied(cfg, c, r) && r.opens == s.opens && r.cursor == s.cursor && r.over
  {
    hide Immediate, Prose, Opens, Continued, EditFree, InTime, RoundTrips, LoopOutcome.Spent, AllFollow, AtRest;
    var p := Send(Send(s, Immediate(events)), Prose(events));
    LogQuiet(cfg, c, p, Round(FailedMidway, events));
    FailQuiet(cfg, c, Log(p, Round(FailedMidway, events)), error);
  }

  lemma CandidateDownQuiet(cfg: Config, c: nat, cooldown: nat, s: State, at: nat, events: seq<Event>, error: AgentError)
    requires s.cursor <= |cfg.fallbacks| && Tallied(cfg, c, s)
    ensures var t := CandidateDown(cfg, cooldown, s, at, events, error);
            && Tallied(cfg, c, t.state) && t.state.opens == s.opens && t.state.streak == s.streak
            && (t.TryNext? ==> t.state.over == s.over) && (t.GaveUp? ==> t.state.over)
  {
    hide Applied, Opens, Continued, EditFree, InTime, RoundTrips, LoopOutcome.Spent, AllFollow, AtRest;
    LogQuiet(cfg, c, s, BreakerChanged(Trip(s.cursor, at)));
    var t := ChangeBreaker(s, cooldown, Trip(s.cursor, at));
    if s.cursor < |cfg.fallbacks| {
      LogQuiet(cfg, c, t, Abandoned(events));
    } else {
      LogQuiet(cfg, c, t, Round(FailedMidway, events));
      FailQuiet(cfg, c, Log(t, Round(FailedMidway, events)), error);
    }
  }

  /** Trying candidates opens exactly one stream more than it moves the cursor. */
  lemma {:induction false} TryCandidatesTallied(cfg: Config, c: nat, cooldown: nat, env: Env, s: State,
        choice: Option<ToolChoice>)
    requires s.cursor <= |cfg.fallbacks| && Tallied(cfg, c, s) && !HardStop(cfg, s.streak) && !s.over
    ensures var t := TryCandidates(cfg, cooldown, env, s, choice);
            && Tallied(cfg, c, t.state)
            && t.state.opens - s.opens == 1 + t.state.cursor - s.cursor
            && (t.Completed? ==> !HardStop(cfg, t.state.streak) && !t.state.over)
            && (t.GaveUp? ==> t.state.over)
    decreases |cfg.fallbacks| - s.cursor
  {
    hide Tallied, Open, StreamFinished, StreamLost, CandidateDown, Forwarded, HardStop;
    var a := env.attempt(s.opens);
    var events := EventsOf(a);
    var o := Open(cfg, s, choice);
    OpenTallied(cfg, c, s, choice);
    StreamFinishedQuiet(cfg, c, cooldown, o, events);
    StreamLostQuiet(cfg, c, o, events, FailureOf(a));
    CandidateDownQuiet(cfg, c, cooldown, o, env.now(s.opens), events, FailureOf(a));
    var t := TryOne(cfg, cooldown, env, s, choice);
    if t.TryNext? {
      TryCandidatesTallied(cfg, c, cooldown, env, t.state, choice);
    }
  }

  // ----- acting on a verdict -----

  /** The state after a round-trip is logged: one more continued or tool round, not yet acted on. */
  predicate Due(cfg: Config, c: nat, s: State, v: Verdict) {
    && c <= s.cursor
    && Opens(s.trace) == s.opens
    && Continued(s.trace) <= Allowance(s) + s.cursor - c + (if Continues(v) then 1 else 0)
    && WithinCaps(s)
    && EditFree(s.trace) == (if v.ToolsRun? then (if v.edited then 0 else s.streak + 1) else s.streak)
    && NudgedBehind(s)
    && InTime(cfg, s.trace)
    && Booked(s)
    && AllFollow(cfg, s.trace)
    && (if v.ToolsRun? then EndsInRound(s.trace) else AtRest(s.trace))
  }

  /** A nudge is only chosen while its own counter is below its cap. */
  predicate HasRoom(s: State, v: Verdict) {
    && (v.LiveOpsNudged? ==> s.liveOpsNudges < MAX_LIVE_OPS_NUDGES)
    && (v.ClaimNudged? ==> s.claimNudges < MAX_TOOL_CLAIM_NUDGES)
    && (v.EditNudged? ==> s.editNudges < MAX_EDIT_NUDGES)
    && (v.FixNudged? ==> s.fixAttempts < MAX_FIX_ATTEMPTS)
  }

  lemma JudgeLeavesRoom(cfg: Config, env: Env, step: nat, s: State, turn: Turn)
    ensures HasRoom(s, Judge(cfg, env, step, s, turn))
  {
    hide MadeEdit;
  }

  lemma RoundDue(cfg: Config, c: nat, s: State, v: Verdict, events: seq<Event>)
    requires Tallied(cfg, c, s) && !v.FailedMidway?
    ensures Due(cfg, c, Log(Counted(s, Fold(events)), Round(v, events)), v)
  {
    hide Opens, Continued, EditFree, InTime, RoundTrips, LoopOutcome.Spent, AllFollow, AtRest, Fold, UsageOf, TextOf;
    var x := Round(v, events);
    FoldKeeps(events);
    Snoc(s.trace, x);
    RestSnoc(cfg, s.trace, x);
    EndsSnoc(s.trace, x);
    InTimeSnoc(cfg, s.trace, x);
  }

  /** The tools have run and reported, and their results have not gone back yet. */
  predicate Awaiting(cfg: Config, c: nat, s: State) {
    Counts(cfg, c, s) && EndsInReport(s.trace) && !EndsInRound(s.trace)
  }

  lemma ReportFollows(cfg: Config, trace: seq<TraceItem>, reports: Reports)
    requires EndsInRound(trace)
    ensures Follows(cfg, trace, Reported(reports))
  {
  }

  lemma ReportAwaits(cfg: Config, c: nat, s: State, edited: bool, reports: Reports)
    requires Due(cfg, c, s, ToolsRun(edited))
    ensures Awaiting(cfg, c, Log(Progressed(s, edited), Reported(reports)))
  {
    hide Opens, Continued, EditFree, InTime, RoundTrips, LoopOutcome.Spent, AllFollow, EndsInRound, EndsInReport, Follows;
    var x := Reported(reports);
    Snoc(s.trace, x);
    ReportFollows(cfg, s.trace, reports);
    FollowSnoc(cfg, s.trace, x);
    EndsSnoc(s.trace, x);
    InTimeSnoc(cfg, s.trace, x);
  }

  /** The item that answers a tool round puts the trace at rest. */
  lemma AnswerTallied(cfg: Config, c: nat, t: State, x: TraceItem)
    requires Awaiting(cfg, c, t) && Follows(cfg, t.trace, x)
    ensures Tallied(cfg, c, Log(t, x))
  {
    hide Opens, Continued, EditFree, InTime, RoundTrips, LoopOutcome.Spent, AllFollow, EndsInRound;
    hide EndsInReport, DueNotes, Notes, IsIdle;
    Snoc(t.trace, x);
    FollowSnoc(cfg, t.trace, x);
    EndsSnoc(t.trace, x);
    InTimeSnoc(cfg, t.trace, x);
  }

  lemma {:induction false} NotesOf(results: Blocks, notes: Blocks)
    requires forall i | 0 <= i < |results| :: results[i].ToolResult?
    requires forall i | 0 <= i < |notes| :: notes[i].Text?
    ensures Notes(results + notes) == notes
  {
    if results != [] {
      NotesOf(results[1..], notes);
      assert (results + notes)[1..] == results[1..] + notes && (results + notes)[0] == results[0];
    } else if notes != [] {
      NotesOf([], notes[1..]);
      assert [] + notes == [notes[0]] + ([] + notes[1..]);
    }
  }

  lemma {:induction false} AnswersAreResults(cfg: Config, env: Env, step: nat, calls: seq<ToolCall>, n: nat)
    requires n <= |calls|
    ensures forall i | 0 <= i < |ToolAnswers(cfg, env, step, calls, n)| :: ToolAnswers(cfg, env, step, calls, n)[i].ToolResult?
  {
    hide Permitted;
    if n > 0 {
      AnswersAreResults(cfg, env, step, calls, n - 1);
      assert ToolAnswer(cfg, env, step, calls, n - 1).ToolResult?;
    }
  }

  /** The nudge is due whenever the run idles: the streak at which it was given last is an earlier one. */
  lemma ReplyTallied(cfg: Config, c: nat, env: Env, t: State, step: nat, turn: Turn)
    requires Awaiting(cfg, c, t) && !HardStop(cfg, t.streak) && (t.nudgedAt.Some? ==> t.nudgedAt.value < t.streak)
    ensures var nudge := NeedsProgressNudge(cfg, t.streak, t.nudgedAt);
            var results := ToolAnswers(cfg, env, step, turn.calls, |turn.calls|);
            Tallied(cfg, c, Reply(t.(nudgedAt := if nudge then Some(t.streak) else t.nudgedAt),
                                  Message(User, results + NotesFor(cfg, nudge, t.roundTrips, t.total))))
  {
    hide ToolAnswers, Opens, Continued, EditFree, InTime, RoundTrips, LoopOutcome.Spent, AllFollow, AtRest, EndsInRound;
    hide EndsInReport, Notes;
    var nudge := NeedsProgressNudge(cfg, t.streak, t.nudgedAt);
    var results := ToolAnswers(cfg, env, step, turn.calls, |turn.calls|);
    var notes := NotesFor(cfg, nudge, t.roundTrips, t.total);
    AnswersAreResults(cfg, env, step, turn.calls, |turn.calls|);
    NotesOf(results, notes);
    assert notes == DueNotes(cfg, t.trace);
    var n := t.(nudgedAt := if nudge then Some(t.streak) else t.nudgedAt);
    AnswerTallied(cfg, c, n, Replied(Message(User, results + notes)));
  }

  lemma ConvergeTallied(cfg: Config, c: nat, env: Env, t: State, step: nat, turn: Turn, edited: bool)
    requires Awaiting(cfg, c, t) && !t.over
    requires (edited ==> t.streak == 0) && (t.nudgedAt.Some? ==> t.nudgedAt.value < t.streak)
    ensures var r := Converge(cfg, env, t, step, ToolAnswers(cfg, env, step, turn.calls, |turn.calls|), edited);
            Tallied(cfg, c, r) && Going(cfg, r) && r.opens == t.opens
  {
    hide ToolAnswers, Opens, Continued, EditFree, InTime, RoundTrips, LoopOutcome.Spent, AllFollow, AtRest, EndsInRound;
    hide EndsInReport, NotesFor, Verify, DueNotes, Notes;
    var results := ToolAnswers(cfg, env, step, turn.calls, |turn.calls|);
    if cfg.inLoopVerify && edited && cfg.hasVerify && env.verify(step) {
      AnswerTallied(cfg, c, t, Recorded(t.total, t.roundTrips, true, Finishing(EndTurn)));
    } else if HardStop(cfg, t.streak) {
      AnswerTallied(cfg, c, t, Recorded(t.total, t.roundTrips, Verify(cfg, env, step), Finishing(Other("no_progress"))));
    } else {
      ReplyTallied(cfg, c, env, t, step, turn);
    }
  }

  lemma RunToolsTallied(cfg: Config, c: nat, env: Env, s: State, step: nat, turn: Turn, edited: bool)
    requires Due(cfg, c, s, ToolsRun(edited)) && !s.over
    ensures var r := RunTools(cfg, env, s, step, turn, edited);
            Tallied(cfg, c, r) && Going(cfg, r) && r.opens == s.opens
  {
    hide AllToolEvents, ToolAnswers, AssistantMessage, Opens, Continued, EditFree, InTime, RoundTrips, LoopOutcome.Spent;
    hide AllFollow, EndsInRound, EndsInReport, Converge, HardStop;
    var events := AllToolEvents(cfg, env, step, turn.calls, |turn.calls|);
    var e := Send(Push(s, AssistantMessage(cfg.json, turn)), events);
    assert Due(cfg, c, e, ToolsRun(edited));
    ReportAwaits(cfg, c, e, edited, events);
    ConvergeTallied(cfg, c, env, Log(Progressed(e, edited), Reported(events)), step, turn, edited);
  }

  lemma ActTallied(cfg: Config, c: nat, env: Env, s: State, step: nat, turn: Turn, v: Verdict, held: seq<Event>)
    requires !v.FailedMidway? && (v.Rerouted? ==> s.cursor < |cfg.fallbacks|)
    requires Due(cfg, c, s, v) && HasRoom(s, v) && !s.over && !HardStop(cfg, s.streak)
    ensures var r := Act(cfg, env, s, step, turn, v, held);
            Tallied(cfg, c, r) && Going(cfg, r) && r.opens == s.opens
  {
    hide AssistantMessage, RunTools, Opens, Continued, EditFree, InTime, RoundTrips, LoopOutcome.Spent;
    hide AllFollow, AtRest, HardStop;
    match v
    case OverBudget => FailQuiet(cfg, c, s, BudgetExceeded);
    case Truncated => FailQuiet(cfg, c, s, ResponseIncomplete);
    case ToolsRun(edited) => RunToolsTallied(cfg, c, env, Send(s, held), step, turn, edited);
    case Accepted =>
      FinishQuiet(cfg, c, Send(s, held), Verify(cfg, env, step), if turn.stop.Some? then turn.stop.value else EndTurn);
    case _ =>
  }

  lemma SettleTallied(cfg: Config, c: nat, env: Env, s: State, step: nat, events: seq<Event>)
    requires s.cursor <= |cfg.fallbacks| && Tallied(cfg, c, s) && !s.over && !HardStop(cfg, s.streak)
    ensures var r := Settle(cfg, env, s, step, events);
            Tallied(cfg, c, r) && Going(cfg, r) && r.opens == s.opens
  {
    hide Act, Fold, Prose, Opens, Continued, EditFree, InTime, RoundTrips, LoopOutcome.Spent, AllFollow;
    hide AtRest, HardStop, Judge;
    var t := Counted(s, Fold(events));
    var v := Judge(cfg, env, step, t, Fold(events));
    JudgeLeavesRoom(cfg, env, step, t, Fold(events));
    RoundDue(cfg, c, s, v, events);
    ActTallied(cfg, c, env, Log(t, Round(v, events)), step, Fold(events), v, Prose(events));
  }

  lemma StepTallied(cfg: Config, c: nat, cooldown: nat, env: Env, s: State, step: nat)
    requires s.cursor <= |cfg.fallbacks| && Tallied(cfg, c, s) && !s.over && Going(cfg, s)
    ensures var r := Step(cfg, cooldown, env, s, step);
            Tallied(cfg, c, r) && Going(cfg, r) && r.opens - s.opens <= 1 + r.cursor - s.cursor
  {
    hide Opens, Continued, EditFree, InTime, RoundTrips, LoopOutcome.Spent, AllFollow, AtRest, Prepare;
    hide TryCandidates, Settle, HardStop;
    PrepareQuiet(cfg, c, env, s, step);
    var p := Prepare(cfg, env, s, step);
    var choice := if p.requireTool then Some(Required) else None;
    TryCandidatesTallied(cfg, c, cooldown, env, p.(requireTool := false), choice);
    var t := TryCandidates(cfg, cooldown, env, p.(requireTool := false), choice);
    if t.Completed? {
      SettleTallied(cfg, c, env, t.state, step, t.events);
    }
  }

  lemma {:induction false} RunStepsTallied(cfg: Config, c: nat, cooldown: nat, env: Env, s: State, step: nat)
    requires s.cursor <= |cfg.fallbacks| && step <= cfg.maxSteps
    requires Tallied(cfg, c, s) && Going(cfg, s)
    ensures var r := RunSteps(cfg, cooldown, env, s, step);
            && Tallied(cfg, c, r) && r.cursor <= |cfg.fallbacks|
            && r.opens - s.opens <= cfg.maxSteps - step + r.cursor - s.cursor
    decreases cfg.maxSteps - step
  {
    hide Opens, Continued, EditFree, InTime, RoundTrips, LoopOutcome.Spent, AllFollow, AtRest, Step, HardStop;
    if !s.over {
      if step == cfg.maxSteps {
        FinishQuiet(cfg, c, s, false, Other("max_steps"));
      } else {
        StepTallied(cfg, c, cooldown, env, s, step);
        RunStepsTallied(cfg, c, cooldown, env, Step(cfg, cooldown, env, s, step), step + 1);
      }
    }
  }

  lemma StartTallied(cfg: Config, env: Env, seed: Transcript, deadlines: seq<nat>)
    ensures var s := Start(cfg, env, seed, deadlines); Tallied(cfg, s.cursor, s) && Going(cfg, s) && s.opens == 0
  {
    hide PlanOf, PlanUsage, FirstAvailable, OpenedInTime;
    var spent := Start(cfg, env, seed, deadlines).total;
    var notices := PrePassNotices(env.prePass);
    Snoc([], PrePaid(spent));
    Snoc([PrePaid(spent)], Reported(notices));
    RestSnoc(cfg, [], PrePaid(spent));
    RestSnoc(cfg, [PrePaid(spent)], Reported(notices));
    assert [] + [PrePaid(spent)] == [PrePaid(spent)];
    assert [PrePaid(spent), Reported(notices)] == [PrePaid(spent)] + [Reported(notices)];
    NothingOpened(cfg, [PrePaid(spent), Reported(notices)]);
  }

  lemma NothingOpened(cfg: Config, trace: seq<TraceItem>)
    requires forall i | 0 <= i < |trace| :: !trace[i].Opened?
    ensures InTime(cfg, trace)
  {
  }

  /** A run that starts at candidate `c` of a chain with F fallbacks opens at most maxSteps + F - c
      streams, goes on after at most 8 + F - c round-trips without tool calls that are not pauses, and,
      with a no-progress limit n > 0, sends no request after 2n tool rounds in a row in which no edit
      tool reported a change. */
  lemma EveryRunIsBounded(cfg: Config, cooldown: nat, env: Env, seed: Transcript, deadlines: seq<nat>)
    ensures var c := FirstAvailable(deadlines, 0, |cfg.fallbacks|, env.probe);
            var s := Run(cfg, cooldown, env, seed, deadlines);
            && Opens(s.trace) <= cfg.maxSteps + |cfg.fallbacks| - c
            && Continued(s.trace) <= 8 + |cfg.fallbacks| - c
            && (cfg.noProgressLimit.Some? && cfg.noProgressLimit.value > 0 ==>
                  OpenedInTime(s.trace, 2 * cfg.noProgressLimit.value))
  {
    hide Opens, Continued, EditFree, OpenedInTime, RoundTrips, LoopOutcome.Spent, AllFollow, AtRest, RunSteps;
    hide FirstAvailable, PlanOf, PlanUsage, PrePassNotices;
    var s := Start(cfg, env, seed, deadlines);
    StartTallied(cfg, env, seed, deadlines);
    RunStepsTallied(cfg, s.cursor, cooldown, env, s, 0);
  }

  // ----- the nudges of a run -----

  /** Tool round `i` is followed by what its tools reported and then by its results, with the nudge exactly
      if it is the n-th to (2n-1)-th edit-free one in a row and where the run stands if the model is to
      know its budget, or else by the end of the run, which never comes while the run idles. */
  predicate AnsweredAsDue(cfg: Config, trace: seq<TraceItem>, i: nat)
    requires i < |trace|
  {
    && i + 2 < |trace| && trace[i + 1].Reported?
    && (if trace[i + 2].Replied?
        then && Notes(trace[i + 2].message.content) == DueNotes(cfg, trace[..i + 1])
             && !HardStop(cfg, EditFree(trace[..i + 1]))
        else trace[i + 2].Recorded? && !IsIdle(cfg, EditFree(trace[..i + 1])))
  }

  lemma RunFollows(cfg: Config, cooldown: nat, env: Env, seed: Transcript, deadlines: seq<nat>)
    ensures var s := Run(cfg, cooldown, env, seed, deadlines); AllFollow(cfg, s.trace) && AtRest(s.trace)
  {
    hide Opens, Continued, EditFree, InTime, RoundTrips, LoopOutcome.Spent, AllFollow, AtRest;
    hide RunSteps, FirstAvailable, PlanOf, PlanUsage, PrePassNotices;
    var s := Start(cfg, env, seed, deadlines);
    StartTallied(cfg, env, seed, deadlines);
    RunStepsTallied(cfg, s.cursor, cooldown, env, s, 0);
  }

  lemma FollowsAt(cfg: Config, trace: seq<TraceItem>, i: nat)
    requires AllFollow(cfg, trace) && i < |trace|
    ensures Follows(cfg, trace[..i], trace[i])
  {
  }

  /** Reports change nothing that the notes depend on. */
  lemma ReportsDoNotCount(cfg: Config, trace: seq<TraceItem>, x: TraceItem)
    requires x.Reported?
    ensures DueNotes(cfg, trace + [x]) == DueNotes(cfg, trace) && EditFree(trace + [x]) == EditFree(trace)
  {
    hide Opens, Continued, EditFree, RoundTrips, LoopOutcome.Spent, NotesFor, IsIdle;
    Snoc(trace, x);
  }

  lemma RoundAnswered(cfg: Config, trace: seq<TraceItem>, i: nat)
    requires AllFollow(cfg, trace) && AtRest(trace) && i < |trace| && IsToolRound(trace[i])
    ensures AnsweredAsDue(cfg, trace, i)
  {
    hide AllFollow, DueNotes, EditFree, IsIdle, HardStop, Notes;
    assert i + 1 != |trace|;
    FollowsAt(cfg, trace, i + 1);
    assert EndsInRound(trace[..i + 1]);
    assert i + 2 != |trace|;
    FollowsAt(cfg, trace, i + 2);
    assert trace[..i + 2] == trace[..i + 1] + [trace[i + 1]];
    EndsSnoc(trace[..i + 1], trace[i + 1]);
    ReportsDoNotCount(cfg, trace[..i + 1], trace[i + 1]);
  }

  /** The no-progress nudge is not given once: in every run each edit-free tool round from the n-th up to
      the (2n-1)-th in a row is answered with it, and no other round is. */
  lemma EveryIdleRoundIsNudged(cfg: Config, cooldown: nat, env: Env, seed: Transcript, deadlines: seq<nat>)
    ensures var s := Run(cfg, cooldown, env, seed, deadlines);
            forall i | 0 <= i < |s.trace| && IsToolRound(s.trace[i]) :: AnsweredAsDue(cfg, s.trace, i)
  {
    hide Run, AllFollow, AtRest, AnsweredAsDue;
    RunFollows(cfg, cooldown, env, seed, deadlines);
    var s := Run(cfg, cooldown, env, seed, deadlines);
    forall i | 0 <= i < |s.trace| && IsToolRound(s.trace[i])
      ensures AnsweredAsDue(cfg, s.trace, i)
    {
      RoundAnswered(cfg, s.trace, i);
    }
  }
}

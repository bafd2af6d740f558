/** Tool calls and their results in every request a run sends. */
module LoopPairing {
  import opened Protocol
  import opened History
  import opened Compaction
  import opened TurnModel
  import opened Breaker
  import opened Request
  import opened AgentLoop
  import StaleReads
  import Dedup
  import Eviction

  // ----- what is claimed of a trace -----

  /** In every request, each call is answered by exactly one result in the next message, in order. */
  ghost predicate AllPaired(trace: seq<TraceItem>) {
    forall i :: 0 <= i < |trace| ==> trace[i].Opened? ==> Paired(trace[i].request.messages)
  }

  predicate AtBoundary(h: Transcript) {
    LongEnough(h) && CutsAtBoundary(h)
  }

  /** Every compaction cut at a turn boundary. */
  predicate AllAtBoundary(trace: seq<TraceItem>) {
    forall i | 0 <= i < |trace| :: trace[i].Summarised? ==> AtBoundary(trace[i].before)
  }

  /** No round-trip pushed a single message: none paused, no truncated live-ops answer was bounced. */
  predicate NoLoneMessage(trace: seq<TraceItem>) {
    forall i | 0 <= i < |trace| :: trace[i].Round? ==> !trace[i].verdict.Paused? && trace[i].verdict != LiveOpsNudged(true)
  }

  predicate Plain(o: seq<Ids>) {
    forall i | 0 <= i < |o| :: o[i] == Ids([], [])
  }

  // ----- elementary facts -----

  lemma {:induction false} CallBlockIds(j: JsonText, calls: seq<ToolCall>)
    ensures UseIds(CallBlocks(j, calls)) == CallIds(calls) && ResultIds(CallBlocks(j, calls)) == []
  {
    if calls != [] {
      var n := |calls| - 1;
      CallBlockIds(j, calls[..n]);
      var b := ToolUse(calls[n].id, calls[n].name, ParsedArgs(j, calls[n].args));
      UseIdsAppend(CallBlocks(j, calls[..n]), [b]);
      ResultIdsAppend(CallBlocks(j, calls[..n]), [b]);
      OneBlockIds(b);
    }
  }

  function CallIds(calls: seq<ToolCall>): seq<string> {
    if calls == [] then [] else CallIds(calls[..|calls| - 1]) + [calls[|calls| - 1].id]
  }

  lemma OneBlockIds(b: ContentBlock)
    ensures UseIds([b]) == if b.ToolUse? then [b.id] else []
    ensures ResultIds([b]) == if b.ToolResult? then [b.id] else []
  {
    assert [b][1..] == [] && UseIds([]) == [] && ResultIds([]) == [];
    if b.ToolUse? {
      assert UseIds([b]) == [b.id] + [];
    } else {
      assert UseIds([b]) == [] + [];
    }
  }

  /** An assistant message makes the turn's calls, in order, and answers none. */
  lemma AssistantIds(j: JsonText, t: Turn)
    ensures IdsOf(AssistantMessage(j, t)) == Ids(CallIds(t.calls), [])
  {
    hide CallBlocks, CallIds;
    CallBlockIds(j, t.calls);
    if t.text == "" {
      assert AssistantMessage(j, t).content == CallBlocks(j, t.calls);
    } else {
      var b := Text(t.text, false);
      UseIdsAppend([b], CallBlocks(j, t.calls));
      ResultIdsAppend([b], CallBlocks(j, t.calls));
      OneBlockIds(b);
    }
  }

  lemma NoIds()
    ensures UseIds([]) == [] && ResultIds([]) == []
  {
  }

  /** Whatever becomes of a call, its answer is a result with its id. */
  lemma AnswersItsCall(cfg: Config, env: Env, step: nat, calls: seq<ToolCall>, k: nat)
    requires k < |calls|
    ensures ToolAnswer(cfg, env, step, calls, k).ToolResult? && ToolAnswer(cfg, env, step, calls, k).id == calls[k].id
  {
  }

  lemma {:induction false} AnswerIds(cfg: Config, env: Env, step: nat, calls: seq<ToolCall>, n: nat)
    requires n <= |calls|
    ensures UseIds(ToolAnswers(cfg, env, step, calls, n)) == []
    ensures ResultIds(ToolAnswers(cfg, env, step, calls, n)) == CallIds(calls[..n])
  {
    hide ToolAnswer, UseIds, ResultIds, CallIds;
    CallIdsNext(calls, n);
    if n == 0 {
      NoIds();
    } else {
      AnswerIds(cfg, env, step, calls, n - 1);
      AnswersItsCall(cfg, env, step, calls, n - 1);
      var b := ToolAnswer(cfg, env, step, calls, n - 1);
      UseIdsAppend(ToolAnswers(cfg, env, step, calls, n - 1), [b]);
      ResultIdsAppend(ToolAnswers(cfg, env, step, calls, n - 1), [b]);
      OneBlockIds(b);
    }
  }

  lemma CallIdsNext(calls: seq<ToolCall>, n: nat)
    requires n <= |calls|
    ensures CallIds(calls[..n]) == if n == 0 then [] else CallIds(calls[..n - 1]) + [calls[n - 1].id]
  {
    assert n > 0 ==> calls[..n][..n - 1] == calls[..n - 1];
  }

  /** A result message answers the turn's calls, in order, whatever notes follow. */
  lemma ResultMessageIds(cfg: Config, env: Env, step: nat, calls: seq<ToolCall>, notes: Blocks)
    requires UseIds(notes) == [] && ResultIds(notes) == []
    ensures IdsOf(Message(User, ToolAnswers(cfg, env, step, calls, |calls|) + notes)) == Ids([], CallIds(calls))
  {
    hide ToolAnswers, CallIds;
    AnswerIds(cfg, env, step, calls, |calls|);
    assert calls[..|calls|] == calls;
    UseIdsAppend(ToolAnswers(cfg, env, step, calls, |calls|), notes);
    ResultIdsAppend(ToolAnswers(cfg, env, step, calls, |calls|), notes);
  }

  /** Two messages, a turn and its answer, keep a transcript paired. */
  lemma PairAppend(o: seq<Ids>, a: Ids, r: Ids)
    requires Answered(o) && a.results == [] && r.uses == [] && r.results == a.uses
    ensures Answered(o + [a, r])
  {
    var g := o + [a, r];
    forall i | 0 <= i < |g|
      ensures g[i].results == Owed(g, i)
    {
      if i < |o| {
        assert o[i].results == Owed(o, i);
      } else if i == |o| {
        assert Owed(g, i) == Owed(o, |o|);
      }
    }
  }

  lemma PlainAppend(o: seq<Ids>, a: Ids)
    requires Answered(o) && a == Ids([], [])
    ensures Answered(o + [a])
  {
    var g := o + [a];
    forall i | 0 <= i < |g|
      ensures g[i].results == Owed(g, i)
    {
      if i < |o| {
        assert o[i].results == Owed(o, i);
      } else {
        assert Owed(g, i) == Owed(o, |o|);
      }
    }
  }

  // ----- shapes that compaction cannot split -----

  /** Messages without tool blocks, then turns of two messages: calls, and the results for them. */
  ghost predicate Regular(o: seq<Ids>) {
    || Plain(o)
    || (|o| >= 2 && IsTurn(o[|o| - 2], o[|o| - 1]) && Regular(o[..|o| - 2]))
  }

  predicate IsTurn(a: Ids, r: Ids) {
    a.results == [] && r.uses == [] && a.uses == r.results
  }

  lemma RegularTurn(o: seq<Ids>, a: Ids, r: Ids)
    requires Regular(o) && IsTurn(a, r)
    ensures Regular(o + [a, r])
  {
    assert (o + [a, r])[..|o|] == o;
  }

  /** Two turns, or two messages without tool blocks and a turn. */
  ghost predicate EndsInTurns(a: Ids, b: Ids, c: Ids, d: Ids) {
    (IsTurn(a, b) || a == b == Ids([], [])) && IsTurn(c, d)
  }

  /** The last four of at least seven regular messages start at a boundary, wherever the turns begin. */
  lemma RegularTail(o: seq<Ids>)
    requires Regular(o) && |o| >= 4
    ensures Plain(o[|o| - 4..]) || EndsInTurns(o[|o| - 4], o[|o| - 3], o[|o| - 2], o[|o| - 1])
  {
    var n := |o|;
    if !Plain(o) {
      assert o[..n - 2][n - 4] == o[n - 4] && o[..n - 2][n - 3] == o[n - 3];
    }
  }

  lemma RegularSplice(p: seq<Ids>, t: seq<Ids>)
    requires Plain(p) && |t| == 4
    requires Plain(t) || EndsInTurns(t[0], t[1], t[2], t[3])
    ensures Regular(p + t)
  {
    if Plain(t) {
      assert Plain(p + t);
    } else {
      var q := p + [t[0], t[1]];
      if t[0] == t[1] == Ids([], []) {
        assert Plain(q);
      } else {
        RegularTurn(p, t[0], t[1]);
      }
      RegularTurn(q, t[2], t[3]);
      assert p + t == q + [t[2], t[3]];
    }
  }

  lemma RegularCut(o: seq<Ids>)
    requires Regular(o) && |o| >= 7 && o[0] == Ids([], [])
    ensures o[|o| - 4].results == []
    ensures Regular([o[0], Ids([], [])] + o[|o| - 4..])
  {
    hide Regular;
    RegularTail(o);
    var t := o[|o| - 4..];
    assert t[0] == o[|o| - 4] && t[1] == o[|o| - 3] && t[2] == o[|o| - 2] && t[3] == o[|o| - 1];
    RegularSplice([o[0], Ids([], [])], t);
  }

  // ----- the invariant -----

  ghost predicate HeadPlain(h: Transcript) {
    |h| >= 1 && IdsOf(h[0]) == Ids([], [])
  }

  /** Paired so far exactly if every compaction cut at a boundary; and with no lone message pushed, the
      transcript is made of turns and every compaction did. */
  ghost predicate Kept(s: State) {
    && HeadPlain(s.history)
    && (AllAtBoundary(s.trace) <==> AllPaired(s.trace))
    && (AllAtBoundary(s.trace) ==> Paired(s.history))
    && (NoLoneMessage(s.trace) ==> Regular(Outline(s.history)) && AllAtBoundary(s.trace))
  }

  /** The same between a compaction and the request that follows it. */
  ghost predicate Pending(s: State) {
    && HeadPlain(s.history)
    && (AllAtBoundary(s.trace) ==> AllPaired(s.trace) && Paired(s.history))
    && (!AllAtBoundary(s.trace) ==> !AllPaired(s.trace) || !Paired(s.history))
    && (NoLoneMessage(s.trace) ==> Regular(Outline(s.history)) && AllAtBoundary(s.trace))
  }

  lemma AllSnoc(trace: seq<TraceItem>, x: TraceItem)
    ensures AllPaired(trace + [x]) <==> AllPaired(trace) && (x.Opened? ==> Paired(x.request.messages))
    ensures AllAtBoundary(trace + [x]) <==> AllAtBoundary(trace) && (x.Summarised? ==> AtBoundary(x.before))
    ensures NoLoneMessage(trace + [x]) <==> NoLoneMessage(trace) && (x.Round? ==> !x.verdict.Paused? && x.verdict != LiveOpsNudged(true))
  {
    hide Paired, AtBoundary;
    var t := trace + [x];
    assert t[|trace|] == x;
    assert forall i | 0 <= i < |trace| :: t[i] == trace[i];
  }

  predicate IsQuiet(x: TraceItem) {
    !x.Opened? && !x.Summarised?
  }

  lemma LogKept(s: State, x: TraceItem)
    requires IsQuiet(x)
    ensures Kept(s) ==> Kept(Log(s, x))
    ensures Pending(s) ==> Pending(Log(s, x))
  {
    hide AllPaired, AllAtBoundary, NoLoneMessage, Paired, Regular, HeadPlain;
    AllSnoc(s.trace, x);
  }

  lemma FailKept(s: State, e: AgentError)
    requires Kept(s)
    ensures Kept(Fail(s, e))
  {
    hide AllPaired, AllAtBoundary, NoLoneMessage, Paired, Regular, HeadPlain;
    LogKept(s, Recorded(s.total, s.roundTrips, false, Failing(e)));
  }

  lemma FinishKept(s: State, success: bool, stop: StopReason)
    requires Kept(s)
    ensures Kept(Finish(s, success, stop))
  {
    hide AllPaired, AllAtBoundary, NoLoneMessage, Paired, Regular, HeadPlain;
    LogKept(s, Recorded(s.total, s.roundTrips, success, Finishing(stop)));
  }

  // ----- the history passes -----

  lemma SameShapeKept(h: Transcript, g: Transcript)
    requires SameShape(h, g)
    ensures Outline(h) == Outline(g) && (HeadPlain(h) <==> HeadPlain(g))
  {
    SameShapeSameOutline(h, g);
    if |h| >= 1 {
      assert Outline(h)[0] == IdsOf(h[0]) && Outline(g)[0] == IdsOf(g[0]);
    }
  }

  lemma RewriteKept(s: State, g: Transcript)
    requires SameShape(s.history, g)
    ensures Kept(s) ==> Kept(s.(history := g))
    ensures Pending(s) ==> Pending(s.(history := g))
  {
    hide AllPaired, AllAtBoundary, NoLoneMessage, Regular, HeadPlain, Answered, SameShape;
    SameShapeKept(s.history, g);
  }

  lemma CutInOutline(h: Transcript)
    requires LongEnough(h)
    ensures CutsAtBoundary(h) <==> Outline(h)[|h| - 4].results == []
  {
  }

  lemma LongMeans(h: Transcript)
    ensures LongEnough(h) <==> |h| >= 7
  {
  }

  lemma HeadIds(h: Transcript)
    requires HeadPlain(h)
    ensures UseIds(h[0].content) == []
  {
  }

  lemma CompactKept(s: State, a: Answer)
    requires Kept(s) && LongEnough(s.history)
    ensures var h := s.history; Pending(Log(s, Summarised(h, a.usage)).(history := Compacted(h, a.text), total := Plus(s.total, a.usage)))
  {
    hide AllPaired, AllAtBoundary, NoLoneMessage, Paired, Compacted, IdsOf, Regular, CutsAtBoundary, LongEnough;
    var h := s.history;
    assert |h| >= 7 by { LongMeans(h); }
    AllSnoc(s.trace, Summarised(h, a.usage));
    var g := Compacted(h, a.text);
    CompactedHead(h, a.text);
    assert IdsOf(h[0]) == Ids([], []);
    if AllAtBoundary(s.trace) {
      HeadIds(h);
      CompactionPairing(h, a.text);
    }
    if NoLoneMessage(s.trace) {
      assert Outline(h)[0] == IdsOf(h[0]);
      RegularCut(Outline(h));
      CompactedOutline(h, a.text);
      CutInOutline(h);
    }
  }

  lemma CompactedHead(h: Transcript, summary: string)
    requires LongEnough(h)
    ensures |Compacted(h, summary)| >= 1 && Compacted(h, summary)[0] == h[0]
  {
  }

  lemma CompactWhenLongKept(cfg: Config, env: Env, s: State, step: nat)
    requires Kept(s)
    ensures Pending(CompactWhenLong(cfg, env, s, step)) && CompactWhenLong(cfg, env, s, step).cursor == s.cursor
  {
    hide Compacted, AllPaired, AllAtBoundary, NoLoneMessage, Answered, Regular, HeadPlain, AnswerOf;
    var reply := CompactReply(s.history, env.summary(step));
    if cfg.estimate(s.history) > cfg.compactAfter && reply.Some? {
      CompactKept(s, reply.value);
    }
  }

  lemma PrepareKept(cfg: Config, env: Env, s: State, step: nat)
    requires Kept(s)
    ensures Pending(Prepare(cfg, env, s, step)) && Prepare(cfg, env, s, step).cursor == s.cursor
  {
    hide StaleReads.MarkStale, Dedup.DedupAll, Eviction.EvictToFit, CompactWhenLong, Kept, Pending, SameShape;
    var m := StaleReads.MarkStale(s.history);
    StaleReads.MarkStaleKeepsShape(s.history);
    RewriteKept(s, m);
    Dedup.DedupKeepsShape(m);
    var d := s.(history := m).(history := Dedup.DedupAll(m));
    RewriteKept(s.(history := m), Dedup.DedupAll(m));
    CompactWhenLongKept(cfg, env, d, step);
    var c := CompactWhenLong(cfg, env, d, step);
    if cfg.contextLimit.Some? {
      Eviction.EvictKeepsShape(cfg.estimate, c.history, cfg.contextLimit.value);
      RewriteKept(c, Eviction.EvictToFit(cfg.estimate, c.history, cfg.contextLimit.value));
    }
  }

  // ----- requests -----

  lemma RequestPairing(cfg: Config, s: State, choice: Option<ToolChoice>)
    requires s.cursor <= |cfg.fallbacks|
    ensures Paired(RequestFor(cfg, s, choice).messages) <==> Paired(s.history)
  {
    hide WithSkeleton, Answered;
    SkeletonKeepsOutline(s.history, cfg.settings.skeleton, cfg.caching(s.cursor));
  }

  lemma OpenKept(cfg: Config, s: State, choice: Option<ToolChoice>)
    requires s.cursor <= |cfg.fallbacks| && Pending(s)
    ensures Kept(Open(cfg, s, choice)) && Open(cfg, s, choice).cursor == s.cursor
  {
    hide RequestFor, AllPaired, AllAtBoundary, NoLoneMessage, Paired, Regular, HeadPlain;
    RequestPairing(cfg, s, choice);
    AllSnoc(s.trace, Opened(RequestFor(cfg, s, choice), s.cursor));
  }

  lemma KeptIsPending(s: State)
    ensures Kept(s) ==> Pending(s)
  {
  }

  lemma StreamFinishedKept(cooldown: nat, s: State, events: seq<Event>)
    requires Kept(s)
    ensures Kept(StreamFinished(cooldown, s, events))
  {
    hide Immediate, Applied, AllPaired, AllAtBoundary, NoLoneMessage, Paired, Regular, HeadPlain;
    LogKept(Send(s, Immediate(events)), BreakerChanged(Reset(s.cursor)));
  }

  lemma StreamLostKept(s: State, events: seq<Event>, error: AgentError)
    requires Kept(s)
    ensures Kept(StreamLost(s, events, error))
  {
    hide Immediate, Prose, AllPaired, AllAtBoundary, NoLoneMessage, Paired, Regular, HeadPlain;
    var p := Send(Send(s, Immediate(events)), Prose(events));
    LogKept(p, Round(FailedMidway, events));
    FailKept(Log(p, Round(FailedMidway, events)), error);
  }

  lemma CandidateDownKept(cfg: Config, cooldown: nat, s: State, at: nat, events: seq<Event>, error: AgentError)
    requires s.cursor <= |cfg.fallbacks| && Kept(s)
    ensures Kept(CandidateDown(cfg, cooldown, s, at, events, error).state)
  {
    hide Applied, AllPaired, AllAtBoundary, NoLoneMessage, Paired, Regular, HeadPlain;
    LogKept(s, BreakerChanged(Trip(s.cursor, at)));
    var t := ChangeBreaker(s, cooldown, Trip(s.cursor, at));
    if s.cursor < |cfg.fallbacks| {
      LogKept(t, Abandoned(events));
    } else {
      LogKept(t, Round(FailedMidway, events));
      FailKept(Log(t, Round(FailedMidway, events)), error);
    }
  }

  lemma {:induction false} TryCandidatesKept(cfg: Config, cooldown: nat, env: Env, s: State, choice: Option<ToolChoice>)
    requires s.cursor <= |cfg.fallbacks| && Pending(s)
    ensures Kept(TryCandidates(cfg, cooldown, env, s, choice).state)
    decreases |cfg.fallbacks| - s.cursor
  {
    hide Kept, Pending, Open, StreamFinished, StreamLost, CandidateDown, Forwarded;
    var a := env.attempt(s.opens);
    var events := EventsOf(a);
    var o := Open(cfg, s, choice);
    OpenKept(cfg, s, choice);
    StreamFinishedKept(cooldown, o, events);
    StreamLostKept(o, events, FailureOf(a));
    CandidateDownKept(cfg, cooldown, o, env.now(s.opens), events, FailureOf(a));
    var t := TryOne(cfg, cooldown, env, s, choice);
    if t.TryNext? {
      KeptIsPending(t.state);
      TryCandidatesKept(cfg, cooldown, env, t.state, choice);
    }
  }

  // ----- acting on a verdict -----

  predicate IsLone(v: Verdict) {
    v.Paused? || v == LiveOpsNudged(true)
  }

  lemma PushTurn(s: State, a: Message, r: Message)
    requires Kept(s) && IsTurn(IdsOf(a), IdsOf(r))
    ensures Kept(Push(Push(s, a), r))
  {
    hide AllPaired, AllAtBoundary, NoLoneMessage, IdsOf, Regular;
    var h := s.history;
    var g := h + [a] + [r];
    assert Outline(g) == Outline(h) + [IdsOf(a), IdsOf(r)];
    if Paired(h) {
      PairAppend(Outline(h), IdsOf(a), IdsOf(r));
    }
    if NoLoneMessage(s.trace) {
      RegularTurn(Outline(h), IdsOf(a), IdsOf(r));
    }
    assert g[0] == h[0];
  }

  lemma PushLone(s: State, m: Message)
    requires Kept(s) && IdsOf(m) == Ids([], []) && !NoLoneMessage(s.trace)
    ensures Kept(Push(s, m))
  {
    hide AllPaired, AllAtBoundary, NoLoneMessage, IdsOf, Regular;
    var h := s.history;
    assert Outline(h + [m]) == Outline(h) + [IdsOf(m)];
    if Paired(h) {
      PlainAppend(Outline(h), IdsOf(m));
    }
    assert (h + [m])[0] == h[0];
  }

  lemma UserTextIds(text: string)
    ensures IdsOf(UserText(text)) == Ids([], [])
  {
    PlainMessage(UserText(text));
  }

  lemma NotesIds(notes: Blocks)
    requires forall i | 0 <= i < |notes| :: notes[i].Text?
    ensures UseIds(notes) == [] && ResultIds(notes) == []
  {
    if notes != [] {
      NotesIds(notes[1..]);
    }
  }

  /** The turn's calls and their answers are pushed as a pair, whatever notes follow the answers. */
  lemma PushAnswers(cfg: Config, env: Env, s: State, step: nat, turn: Turn, notes: Blocks)
    requires Kept(s) && forall i | 0 <= i < |notes| :: notes[i].Text?
    ensures Kept(Push(Push(s, AssistantMessage(cfg.json, turn)),
                      Message(User, ToolAnswers(cfg, env, step, turn.calls, |turn.calls|) + notes)))
  {
    hide ToolAnswers, AssistantMessage, CallIds, UseIds, ResultIds, IdsOf, Kept, Push;
    AssistantIds(cfg.json, turn);
    NotesIds(notes);
    ResultMessageIds(cfg, env, step, turn.calls, notes);
    PushTurn(s, AssistantMessage(cfg.json, turn), Message(User, ToolAnswers(cfg, env, step, turn.calls, |turn.calls|) + notes));
  }

  /** Only the transcript and the trace matter. */
  lemma SameKept(s: State, t: State)
    requires Kept(s) && t.history == s.history && t.trace == s.trace
    ensures Kept(t)
  {
  }

  /** The turn and the answer to it are in the transcript, whether or not the loop goes on. */
  lemma ConvergeKept(cfg: Config, env: Env, s: State, t: State, step: nat, turn: Turn, edited: bool)
    requires Kept(s) && t.trace == s.trace && t.history == s.history + [AssistantMessage(cfg.json, turn)]
    ensures Kept(Converge(cfg, env, t, step, ToolAnswers(cfg, env, step, turn.calls, |turn.calls|), edited))
  {
    hide ToolAnswers, AssistantMessage, Kept, NotesFor, Verify;
    var results := ToolAnswers(cfg, env, step, turn.calls, |turn.calls|);
    var m := AssistantMessage(cfg.json, turn);
    PushAnswers(cfg, env, s, step, turn, []);
    assert results + [] == results;
    var d := Push(t, Message(User, results));
    SameKept(Push(Push(s, m), Message(User, results)), d);
    FinishKept(d, true, EndTurn);
    FinishKept(d, Verify(cfg, env, step), Other("no_progress"));
    var nudge := NeedsProgressNudge(cfg, t.streak, t.nudgedAt);
    var notes := NotesFor(cfg, nudge, t.roundTrips, t.total);
    NotesAreText(cfg, nudge, t.roundTrips, t.total);
    ReplyKept(cfg, env, s, t, step, turn, notes, if nudge then Some(t.streak) else t.nudgedAt);
  }

  lemma NotesAreText(cfg: Config, nudge: bool, roundTrips: nat, total: Usage)
    ensures forall i | 0 <= i < |NotesFor(cfg, nudge, roundTrips, total)| :: NotesFor(cfg, nudge, roundTrips, total)[i].Text?
  {
  }

  lemma ReplyKept(cfg: Config, env: Env, s: State, t: State, step: nat, turn: Turn, notes: Blocks, nudgedAt: Option<nat>)
    requires Kept(s) && t.trace == s.trace && t.history == s.history + [AssistantMessage(cfg.json, turn)]
    requires forall i | 0 <= i < |notes| :: notes[i].Text?
    ensures Kept(Reply(t.(nudgedAt := nudgedAt), Message(User, ToolAnswers(cfg, env, step, turn.calls, |turn.calls|) + notes)))
  {
    hide ToolAnswers, AssistantMessage, Kept;
    var reply := Message(User, ToolAnswers(cfg, env, step, turn.calls, |turn.calls|) + notes);
    LogKept(s, Replied(reply));
    PushAnswers(cfg, env, Log(s, Replied(reply)), step, turn, notes);
    SameKept(Push(Push(Log(s, Replied(reply)), AssistantMessage(cfg.json, turn)), reply),
             Reply(t.(nudgedAt := nudgedAt), reply));
  }

  lemma RunToolsKept(cfg: Config, env: Env, s: State, step: nat, turn: Turn, edited: bool)
    requires Kept(s)
    ensures Kept(RunTools(cfg, env, s, step, turn, edited))
  {
    hide AllToolEvents, ToolAnswers, AssistantMessage, Kept, Converge;
    var n := |turn.calls|;
    var events := AllToolEvents(cfg, env, step, turn.calls, n);
    LogKept(s, Reported(events));
    var t := Log(Progressed(Send(Push(s, AssistantMessage(cfg.json, turn)), events), edited), Reported(events));
    ConvergeKept(cfg, env, Log(s, Reported(events)), t, step, turn, edited);
  }

  lemma NudgedKept(cfg: Config, s: State, turn: Turn, nudge: Nudge)
    requires Kept(s) && turn.calls == []
    ensures Kept(Nudged(cfg, s, turn, nudge))
  {
    hide AssistantMessage, IdsOf, Kept;
    AssistantIds(cfg.json, turn);
    UserTextIds(cfg.nudgeText(nudge));
    PushTurn(s, AssistantMessage(cfg.json, turn), NudgeMessage(cfg, nudge));
  }

  lemma ActKept(cfg: Config, env: Env, s: State, step: nat, turn: Turn, v: Verdict, held: seq<Event>)
    requires !v.FailedMidway? && (v.Rerouted? ==> s.cursor < |cfg.fallbacks|)
    requires Kept(s) && (IsLone(v) ==> !NoLoneMessage(s.trace)) && (!v.ToolsRun? && !v.OverBudget? ==> turn.calls == [])
    ensures Kept(Act(cfg, env, s, step, turn, v, held))
  {
    hide AssistantMessage, RunTools, CallIds, IdsOf, Nudged;
    hide AllPaired, AllAtBoundary, NoLoneMessage, Paired, Regular, HeadPlain;
    AssistantIds(cfg.json, turn);
    match v
    case OverBudget => FailKept(s, BudgetExceeded);
    case Truncated => FailKept(s, ResponseIncomplete);
    case Paused => NoCallIds(turn); PushLone(Send(s, held), AssistantMessage(cfg.json, turn));
    case LiveOpsNudged(truncated) =>
      UserTextIds(cfg.nudgeText(LiveOps));
      NoCallIds(turn);
      if truncated {
        PushLone(s, NudgeMessage(cfg, LiveOps));
      } else {
        PushTurn(s, AssistantMessage(cfg.json, turn), NudgeMessage(cfg, LiveOps));
      }
    case ClaimNudged => NudgedKept(cfg, s, turn, FalseClaim);
    case EditNudged => NudgedKept(cfg, s, turn, NoEdit);
    case FixNudged => NudgedKept(cfg, s, turn, VerifyFailed(Output(VerifyOutput(cfg, env, step))));
    case ToolsRun(edited) => RunToolsKept(cfg, env, Send(s, held), step, turn, edited);
    case Accepted => FinishKept(Send(s, held), Verify(cfg, env, step), if turn.stop.Some? then turn.stop.value else EndTurn);
    case Rerouted =>
  }

  lemma NoCallIds(turn: Turn)
    requires turn.calls == []
    ensures CallIds(turn.calls) == []
  {
  }

  lemma SettleKept(cfg: Config, env: Env, s: State, step: nat, events: seq<Event>)
    requires s.cursor <= |cfg.fallbacks| && Kept(s)
    ensures Kept(Settle(cfg, env, s, step, events))
  {
    hide Act, Fold, Prose, AllPaired, AllAtBoundary, NoLoneMessage, Paired, Regular, HeadPlain, MadeEdit;
    var c := Counted(s, Fold(events));
    var v := Judge(cfg, env, step, c, Fold(events));
    AllSnoc(s.trace, Round(v, events));
    LogKept(c, Round(v, events));
    ActKept(cfg, env, Log(c, Round(v, events)), step, Fold(events), v, Prose(events));
  }

  lemma StepKept(cfg: Config, cooldown: nat, env: Env, s: State, step: nat)
    requires s.cursor <= |cfg.fallbacks| && Kept(s)
    ensures Kept(Step(cfg, cooldown, env, s, step))
  {
    hide AllPaired, AllAtBoundary, NoLoneMessage, Paired, Regular, HeadPlain, Prepare, TryCandidates, Settle;
    PrepareKept(cfg, env, s, step);
    var p := Prepare(cfg, env, s, step);
    var choice := if p.requireTool then Some(Required) else None;
    TryCandidatesKept(cfg, cooldown, env, p.(requireTool := false), choice);
    var t := TryCandidates(cfg, cooldown, env, p.(requireTool := false), choice);
    if t.Completed? {
      SettleKept(cfg, env, t.state, step, t.events);
    }
  }

  lemma {:induction false} RunStepsKept(cfg: Config, cooldown: nat, env: Env, s: State, step: nat)
    requires s.cursor <= |cfg.fallbacks| && step <= cfg.maxSteps && Kept(s)
    ensures Kept(RunSteps(cfg, cooldown, env, s, step))
    decreases cfg.maxSteps - step
  {
    hide Kept, Step, Finish;
    if !s.over {
      if step == cfg.maxSteps {
        FinishKept(s, false, Other("max_steps"));
      } else {
        StepKept(cfg, cooldown, env, s, step);
        RunStepsKept(cfg, cooldown, env, Step(cfg, cooldown, env, s, step), step + 1);
      }
    }
  }

  // ----- whole runs -----

  /** A conversation without tool calls and results. */
  predicate PlainSeed(seed: Transcript) {
    seed != [] && forall i | 0 <= i < |seed| :: IdsOf(seed[i]) == Ids([], [])
  }

  lemma PlainIsPaired(h: Transcript)
    requires Plain(Outline(h))
    ensures Paired(h) && Regular(Outline(h))
  {
  }

  lemma StartKept(cfg: Config, env: Env, seed: Transcript, d: seq<nat>)
    requires PlainSeed(seed)
    ensures Kept(Start(cfg, env, seed, d))
  {
    hide PlanUsage, FirstAvailable, PrePassNotices, Regular, Answered, IdsOf;
    var s := Start(cfg, env, seed, d);
    var plan := PlanOf(cfg, env.prePass);
    if plan.Some? {
      PlainMessage(plan.value);
    }
    forall i | 0 <= i < |s.history|
      ensures IdsOf(s.history[i]) == Ids([], [])
    {
      if i < |seed| {
        assert s.history[i] == seed[i];
      }
    }
    assert Plain(Outline(s.history));
    PlainIsPaired(s.history);
  }

  /** Every request of a run from a plain seed has its calls and results paired if and only if every
      compaction of that run cut the transcript at a turn boundary. */
  lemma PairedExactlyAtBoundaries(cfg: Config, cooldown: nat, env: Env, seed: Transcript, d: seq<nat>)
    requires PlainSeed(seed)
    ensures var s := Run(cfg, cooldown, env, seed, d); AllPaired(s.trace) <==> AllAtBoundary(s.trace)
  {
    hide Start, RunSteps, AllPaired, AllAtBoundary, NoLoneMessage, Paired, Regular, HeadPlain, PlainSeed;
    StartKept(cfg, env, seed, d);
    RunStepsKept(cfg, cooldown, env, Start(cfg, env, seed, d), 0);
  }

  /** So it does in every run in which no round-trip paused and no truncated live-ops answer was bounced:
      those are the two paths that push one message instead of two. */
  lemma PairedWithoutLoneMessages(cfg: Config, cooldown: nat, env: Env, seed: Transcript, d: seq<nat>)
    requires PlainSeed(seed)
    requires NoLoneMessage(Run(cfg, cooldown, env, seed, d).trace)
    ensures AllPaired(Run(cfg, cooldown, env, seed, d).trace)
  {
    hide Start, RunSteps, AllPaired, AllAtBoundary, NoLoneMessage, Paired, Regular, HeadPlain, PlainSeed;
    StartKept(cfg, env, seed, d);
    RunStepsKept(cfg, cooldown, env, Start(cfg, env, seed, d), 0);
  }

  // ----- a pause that breaks pairing -----

  function ToolTurn(id: string): Transcript {
    [Message(Assistant, [ToolUse(id, "read_file", JObj([]))]), Message(User, [ToolResult(id, "ok", false, [])])]
  }

  lemma ToolTurnIds(id: string)
    ensures Outline(ToolTurn(id)) == [Ids([id], []), Ids([], [id])]
  {
    OneBlockIds(ToolUse(id, "read_file", JObj([])));
    OneBlockIds(ToolResult(id, "ok", false, []));
  }

  lemma OutlineAppend(a: Transcript, b: Transcript)
    ensures Outline(a + b) == Outline(a) + Outline(b)
  {
  }

  /** A task, two tool turns, a paused answer and a third tool turn. */
  function PausedHistory(a: string, b: string, c: string): Transcript {
    [UserText("task")] + ToolTurn(a) + ToolTurn(b) + [AssistantText("paused")] + ToolTurn(c)
  }

  lemma PausedOutline(a: string, b: string, c: string)
    ensures Outline(PausedHistory(a, b, c)) ==
            [Ids([], []), Ids([a], []), Ids([], [a]), Ids([b], []), Ids([], [b]), Ids([], []), Ids([c], []), Ids([], [c])]
  {
    hide ToolTurn;
    var u, p := [UserText("task")], [AssistantText("paused")];
    ToolTurnIds(a);
    ToolTurnIds(b);
    ToolTurnIds(c);
    PlainMessage(u[0]);
    PlainMessage(p[0]);
    OutlineAppend(u, ToolTurn(a));
    OutlineAppend(u + ToolTurn(a), ToolTurn(b));
    OutlineAppend(u + ToolTurn(a) + ToolTurn(b), p);
    OutlineAppend(u + ToolTurn(a) + ToolTurn(b) + p, ToolTurn(c));
    assert Outline(u) == [Ids([], [])] && Outline(p) == [Ids([], [])];
  }

  lemma PausedCompaction(h: Transcript, summary: string)
    requires LongEnough(h) && Paired(h) && UseIds(h[0].content) == [] && ResultIds(h[|h| - 4].content) != []
    ensures !CutsAtBoundary(h) && !Paired(Compacted(h, summary))
  {
    hide Compacted, Paired, UseIds, ResultIds;
    CompactionPairing(h, summary);
  }

  /** After one pause a transcript of three tool turns is cut between a call and its result. */
  lemma PauseBreaksPairing(a: string, b: string, c: string, summary: string)
    ensures var h := PausedHistory(a, b, c);
            Paired(h) && LongEnough(h) && !CutsAtBoundary(h) && !Paired(Compacted(h, summary))
  {
    hide PausedHistory, Compacted, UseIds, ResultIds, Outline;
    var h := PausedHistory(a, b, c);
    PausedOutline(a, b, c);
    OutlineTells(h, 0);
    OutlineTells(h, 4);
    assert Paired(h);
    PausedCompaction(h, summary);
  }

  lemma OutlineTells(h: Transcript, i: nat)
    requires i < |Outline(h)|
    ensures |h| == |Outline(h)|
    ensures UseIds(h[i].content) == Outline(h)[i].uses && ResultIds(h[i].content) == Outline(h)[i].results
  {
  }
}

/** What answer text and thinking a caller sees. */
module LoopProse {
  import opened Strings
  import opened Protocol
  import opened History
  import opened Compaction
  import opened TurnModel
  import opened Breaker
  import opened Request
  import opened AgentLoop
  import StaleReads
  import Dedup
  import Eviction
  import LoopOutcome

  /** Accepted, paused, tool-calling and failed-midway round-trips are shown; the prose of nudged,
      rerouted, truncated and over-budget ones is not. */
  predicate IsShown(v: Verdict) {
    v.Accepted? || v.Paused? || v.ToolsRun? || v.FailedMidway?
  }

  function AsSent(events: seq<Event>): seq<Sent> {
    seq(|events|, i requires 0 <= i < |events| => Sent(events[i]))
  }

  /** What one item of the trace shows the caller: of a round-trip everything but its prose, then its
      prose if it is a shown one. An abandoned candidate shows nothing. */
  function ItemShows(x: TraceItem): seq<Sent> {
    match x
    case Round(v, events) => AsSent(Immediate(events)) + (if IsShown(v) then AsSent(Prose(events)) else [])
    case Reported(reports) => AsSent(reports)
    case Recorded(_, _, _, Failing(e)) => [SentError(e)]
    case Recorded(total, _, _, Finishing(stop)) => [Sent(UsageReport(total)), Sent(Done(stop))]
    case _ => []
  }

  function Shown(trace: seq<TraceItem>): seq<Sent> {
    if trace == [] then [] else Shown(trace[..|trace| - 1]) + ItemShows(trace[|trace| - 1])
  }

  predicate Faithful(s: State) {
    s.sink == Shown(s.trace)
  }

  // ----- elementary steps -----

  lemma ShownSnoc(trace: seq<TraceItem>, x: TraceItem)
    ensures Shown(trace + [x]) == Shown(trace) + ItemShows(x)
  {
    assert (trace + [x])[..|trace|] == trace;
  }

  lemma LogQuiet(s: State, x: TraceItem)
    requires Faithful(s) && ItemShows(x) == []
    ensures Faithful(Log(s, x))
  {
    hide ItemShows;
    ShownSnoc(s.trace, x);
    assert Shown(s.trace) + [] == Shown(s.trace);
  }

  lemma FailShows(s: State, e: AgentError)
    requires Faithful(s)
    ensures Faithful(Fail(s, e))
  {
    hide Shown;
    ShownSnoc(s.trace, Recorded(s.total, s.roundTrips, false, Failing(e)));
  }

  lemma FinishShows(s: State, success: bool, stop: StopReason)
    requires Faithful(s)
    ensures Faithful(Finish(s, success, stop))
  {
    hide Shown;
    ShownSnoc(s.trace, Recorded(s.total, s.roundTrips, success, Finishing(stop)));
  }

  lemma SendIs(s: State, events: seq<Event>)
    ensures Send(s, events).sink == s.sink + AsSent(events) && Send(s, events).trace == s.trace
  {
  }

  // ----- the phases of a step -----

  lemma PrepareShows(cfg: Config, env: Env, s: State, step: nat)
    requires Faithful(s)
    ensures Faithful(Prepare(cfg, env, s, step))
  {
    hide StaleReads.MarkStale, Dedup.DedupAll, Eviction.EvictToFit, Compacted, CompactReply, Shown;
    var h := Dedup.DedupAll(StaleReads.MarkStale(s.history));
    if CompactReply(h, env.summary(step)).Some? {
      LogQuiet(s, Summarised(h, CompactReply(h, env.summary(step)).value.usage));
    }
  }

  lemma OpenShows(cfg: Config, s: State, choice: Option<ToolChoice>)
    requires s.cursor <= |cfg.fallbacks| && Faithful(s)
    ensures Faithful(Open(cfg, s, choice)) && Open(cfg, s, choice).cursor == s.cursor
  {
    hide RequestFor, Shown;
    LogQuiet(s, Opened(RequestFor(cfg, s, choice), s.cursor));
  }

  /** Between the end of a stream and the verdict on it, all but the prose has been shown. */
  predicate HoldsBack(s: State, events: seq<Event>) {
    s.sink == Shown(s.trace) + AsSent(Immediate(events))
  }

  lemma StreamFinishedShows(cooldown: nat, s: State, events: seq<Event>)
    requires Faithful(s)
    ensures HoldsBack(StreamFinished(cooldown, s, events), events)
  {
    hide Immediate, Shown, Applied, AsSent;
    SendIs(s, Immediate(events)) by { hide Shown, Immediate; }
    var x := BreakerChanged(Reset(s.cursor));
    ShownSnoc(s.trace, x);
    assert Shown(s.trace) + [] == Shown(s.trace);
  }

  lemma StreamLostShows(s: State, events: seq<Event>, error: AgentError)
    requires Faithful(s)
    ensures Faithful(StreamLost(s, events, error))
  {
    hide Immediate, Prose, Shown, Send, Fail, AsSent;
    SendIs(s, Immediate(events));
    var i := Send(s, Immediate(events));
    SendIs(i, Prose(events));
    var p := Send(i, Prose(events));
    ShownSnoc(p.trace, Round(FailedMidway, events));
    FailShows(Log(p, Round(FailedMidway, events)), error);
  }

  /** Giving up on a candidate has shown nothing of its stream. */
  lemma CandidateDownShows(cfg: Config, cooldown: nat, s: State, at: nat, events: seq<Event>, error: AgentError)
    requires s.cursor <= |cfg.fallbacks| && Faithful(s) && Forwarded(events) == []
    ensures Faithful(CandidateDown(cfg, cooldown, s, at, events, error).state)
  {
    hide Shown, Applied, Prose, Immediate, Fail;
    LogQuiet(s, BreakerChanged(Trip(s.cursor, at)));
    var t := ChangeBreaker(s, cooldown, Trip(s.cursor, at));
    if s.cursor < |cfg.fallbacks| {
      LogQuiet(t, Abandoned(events));
    } else {
      NothingForwarded(events);
      LogQuiet(t, Round(FailedMidway, events));
      FailShows(Log(t, Round(FailedMidway, events)), error);
    }
  }

  predicate TriedShows(t: Tried) {
    if t.Completed? then HoldsBack(t.state, t.events) else Faithful(t.state)
  }

  lemma {:induction false} TryCandidatesShows(cfg: Config, cooldown: nat, env: Env, s: State, choice: Option<ToolChoice>)
    requires s.cursor <= |cfg.fallbacks| && Faithful(s)
    ensures TriedShows(TryCandidates(cfg, cooldown, env, s, choice))
    decreases |cfg.fallbacks| - s.cursor
  {
    hide Faithful, HoldsBack, Open, StreamFinished, StreamLost, CandidateDown, Forwarded;
    var a := env.attempt(s.opens);
    var events := EventsOf(a);
    var o := Open(cfg, s, choice);
    OpenShows(cfg, s, choice);
    StreamFinishedShows(cooldown, o, events);
    StreamLostShows(o, events, FailureOf(a));
    if Forwarded(events) == [] {
      CandidateDownShows(cfg, cooldown, o, env.now(s.opens), events, FailureOf(a));
    }
    var t := TryOne(cfg, cooldown, env, s, choice);
    if t.TryNext? {
      TryCandidatesShows(cfg, cooldown, env, t.state, choice);
    }
  }

  /** The round is logged; its prose is shown before anything else is sent, or never. */
  lemma RoundShows(s: State, v: Verdict, events: seq<Event>)
    requires HoldsBack(s, events)
    ensures IsShown(v) ==> Faithful(Send(Log(s, Round(v, events)), Prose(events)))
    ensures !IsShown(v) ==> Faithful(Log(s, Round(v, events)))
  {
    hide Prose, Shown, Send, Immediate, AsSent;
    ShownSnoc(s.trace, Round(v, events));
    SendIs(Log(s, Round(v, events)), Prose(events));
  }

  lemma RunToolsShows(cfg: Config, env: Env, s: State, step: nat, turn: Turn, edited: bool)
    requires Faithful(s)
    ensures Faithful(RunTools(cfg, env, s, step, turn, edited))
  {
    hide AllToolEvents, ToolAnswers, AssistantMessage, Shown, AsSent, Send;
    var n := |turn.calls|;
    var a := Push(s, AssistantMessage(cfg.json, turn));
    var events := AllToolEvents(cfg, env, step, turn.calls, n);
    SendIs(a, events);
    ShownSnoc(s.trace, Reported(events));
    var t := Log(Progressed(Send(a, events), edited), Reported(events));
    assert Faithful(t);
    var d := Push(t, Message(User, ToolAnswers(cfg, env, step, turn.calls, n)));
    FinishShows(d, true, EndTurn);
    FinishShows(d, Verify(cfg, env, step), Other("no_progress"));
    var nudge := NeedsProgressNudge(cfg, t.streak, t.nudgedAt);
    var notes := NotesFor(cfg, nudge, t.roundTrips, t.total);
    LogQuiet(t, Replied(Message(User, ToolAnswers(cfg, env, step, turn.calls, n) + notes)));
  }

  lemma ActShows(cfg: Config, env: Env, s: State, step: nat, turn: Turn, v: Verdict, held: seq<Event>)
    requires !v.FailedMidway? && (v.Rerouted? ==> s.cursor < |cfg.fallbacks|)
    requires if IsShown(v) then Faithful(Send(s, held)) else Faithful(s)
    ensures Faithful(Act(cfg, env, s, step, turn, v, held))
  {
    hide Shown, AssistantMessage, RunTools, Send;
    var p := Send(s, held);
    match v
    case OverBudget => FailShows(s, BudgetExceeded);
    case Truncated => FailShows(s, ResponseIncomplete);
    case ToolsRun(edited) => RunToolsShows(cfg, env, p, step, turn, edited);
    case Accepted => FinishShows(p, Verify(cfg, env, step), if turn.stop.Some? then turn.stop.value else EndTurn);
    case _ =>
  }

  lemma SettleShows(cfg: Config, env: Env, s: State, step: nat, events: seq<Event>)
    requires s.cursor <= |cfg.fallbacks| && HoldsBack(s, events)
    ensures Faithful(Settle(cfg, env, s, step, events))
  {
    hide Act, Fold, Prose, Shown, Send, Immediate, AsSent;
    var c := Counted(s, Fold(events));
    var v := Judge(cfg, env, step, c, Fold(events));
    RoundShows(c, v, events);
    ActShows(cfg, env, Log(c, Round(v, events)), step, Fold(events), v, Prose(events));
  }

  lemma StepShows(cfg: Config, cooldown: nat, env: Env, s: State, step: nat)
    requires s.cursor <= |cfg.fallbacks| && Faithful(s)
    ensures Faithful(Step(cfg, cooldown, env, s, step))
  {
    hide Shown, Prepare, TryCandidates, Settle, HoldsBack;
    PrepareShows(cfg, env, s, step);
    LoopOutcome.PrepareKeepsCursor(cfg, env, s, step);
    var p := Prepare(cfg, env, s, step);
    var choice := if p.requireTool then Some(Required) else None;
    TryCandidatesShows(cfg, cooldown, env, p.(requireTool := false), choice);
    var t := TryCandidates(cfg, cooldown, env, p.(requireTool := false), choice);
    if t.Completed? {
      SettleShows(cfg, env, t.state, step, t.events);
    }
  }

  lemma {:induction false} RunStepsShows(cfg: Config, cooldown: nat, env: Env, s: State, step: nat)
    requires s.cursor <= |cfg.fallbacks| && step <= cfg.maxSteps && Faithful(s)
    ensures Faithful(RunSteps(cfg, cooldown, env, s, step))
    decreases cfg.maxSteps - step
  {
    hide Shown, Step;
    if !s.over {
      if step == cfg.maxSteps {
        FinishShows(s, false, Other("max_steps"));
      } else {
        StepShows(cfg, cooldown, env, s, step);
        RunStepsShows(cfg, cooldown, env, Step(cfg, cooldown, env, s, step), step + 1);
      }
    }
  }

  lemma StartShows(cfg: Config, env: Env, seed: Transcript, deadlines: seq<nat>)
    ensures Faithful(Start(cfg, env, seed, deadlines))
  {
    hide PlanOf, PlanUsage, FirstAvailable, PrePassNotices;
    var notices := PrePassNotices(env.prePass);
    var spent := Start(cfg, env, seed, deadlines).total;
    ShownSnoc([PrePaid(spent)], Reported(notices));
    ShownSnoc([], PrePaid(spent));
    assert [] + [PrePaid(spent)] == [PrePaid(spent)];
    assert [PrePaid(spent), Reported(notices)] == [PrePaid(spent)] + [Reported(notices)];
  }

  /** In every run, everything that reached the caller is what the trace shows, item by item, in order. */
  lemma SinkIsShown(cfg: Config, cooldown: nat, env: Env, seed: Transcript, deadlines: seq<nat>)
    ensures var s := Run(cfg, cooldown, env, seed, deadlines); s.sink == Shown(s.trace)
  {
    hide Shown, Start, RunSteps;
    StartShows(cfg, env, seed, deadlines);
    RunStepsShows(cfg, cooldown, env, Start(cfg, env, seed, deadlines), 0);
  }

  // ----- told kind by kind -----

  /** Text and thinking. */
  function Words(events: seq<Event>): seq<Sent> {
    if events == [] then []
    else (if events[0].TextDelta? || events[0].ThinkingDelta? then [Sent(events[0])] else []) + Words(events[1..])
  }

  /** Everything else but usage and the end. */
  function Signs(events: seq<Event>): seq<Sent> {
    if events == [] then []
    else
      var e := events[0];
      (if e.TextDelta? || e.ThinkingDelta? || e.UsageReport? || e.Done? then [] else [Sent(e)]) + Signs(events[1..])
  }

  /** What the caller hears of an item. */
  function Hears(x: TraceItem): seq<Sent> {
    match x
    case Round(v, events) =>
      Signs(events) + (if v.Accepted? || v.Paused? || v.ToolsRun? || v.FailedMidway? then Words(events) else [])
    case Reported(reports) => seq(|reports|, i requires 0 <= i < |reports| => Sent(reports[i]))
    case Recorded(total, _, _, ending) =>
      (match ending
       case Failing(e) => [SentError(e)]
       case Finishing(stop) => [Sent(UsageReport(total)), Sent(Done(stop))])
    case _ => []
  }

  lemma WordsFirst(e: Event, rest: seq<Event>)
    ensures Words([e] + rest) == (if e.TextDelta? || e.ThinkingDelta? then [Sent(e)] else []) + Words(rest)
    ensures Signs([e] + rest) ==
            (if e.TextDelta? || e.ThinkingDelta? || e.UsageReport? || e.Done? then [] else [Sent(e)]) + Signs(rest)
  {
    assert ([e] + rest)[1..] == rest;
  }

  lemma {:induction false} WordsAppend(a: seq<Event>, b: seq<Event>)
    ensures Words(a + b) == Words(a) + Words(b) && Signs(a + b) == Signs(a) + Signs(b)
  {
    hide Words, Signs;
    if a == [] {
      NoWords();
      assert a + b == b && [] + Words(b) == Words(b) && [] + Signs(b) == Signs(b);
    } else {
      var e, rest := a[0], a[1..];
      WordsAppend(rest, b);
      WordsFirst(e, rest);
      WordsFirst(e, rest + b);
      assert [e] + rest == a && [e] + (rest + b) == a + b;
      Regroup(if e.TextDelta? || e.ThinkingDelta? then [Sent(e)] else [], Words(rest), Words(b));
      Regroup(if e.TextDelta? || e.ThinkingDelta? || e.UsageReport? || e.Done? then [] else [Sent(e)], Signs(rest), Signs(b));
    }
  }

  lemma NoWords()
    ensures Words([]) == [] && Signs([]) == []
  {
  }

  lemma {:induction false} StreamIsHeard(events: seq<Event>)
    ensures AsSent(Prose(events)) == Words(events) && AsSent(Immediate(events)) == Signs(events)
  {
    if events != [] {
      var n := |events| - 1;
      var e := events[n];
      StreamIsHeard(events[..n]);
      WordsAppend(events[..n], [e]);
      assert events[..n] + [e] == events && [e][1..] == [];
      assert Words([e]) == (if e.TextDelta? || e.ThinkingDelta? then [Sent(e)] else []) + Words([]);
    }
  }

  lemma ItemIsHeard(x: TraceItem)
    ensures ItemShows(x) == Hears(x)
  {
    hide Prose, Immediate, Words, Signs;
    if x.Round? {
      StreamIsHeard(x.events);
    }
  }

  function AllHears(trace: seq<TraceItem>): seq<seq<Sent>> {
    seq(|trace|, i requires 0 <= i < |trace| => Hears(trace[i]))
  }

  lemma {:induction false} TraceIsHeard(trace: seq<TraceItem>)
    ensures Shown(trace) == Flatten(AllHears(trace))
  {
    hide ItemShows, Hears;
    if trace != [] {
      var n := |trace| - 1;
      TraceIsHeard(trace[..n]);
      ItemIsHeard(trace[n]);
      assert AllHears(trace) == AllHears(trace[..n]) + [Hears(trace[n])];
      FlattenAppend(AllHears(trace[..n]), [Hears(trace[n])]);
      FlattenOne(Hears(trace[n]));
    }
  }

  /** What reaches the caller of a run, kind by kind: of a round-trip its signs, and behind them its words if
      it is accepted, paused, runs tools or fails midway; what tools and pre-pass report; and at the end one
      error, or the total and the end. Usage and ends of single streams never do. */
  lemma CallerHears(cfg: Config, cooldown: nat, env: Env, seed: Transcript, deadlines: seq<nat>)
    ensures var s := Run(cfg, cooldown, env, seed, deadlines);
            s.sink == Flatten(AllHears(s.trace))
  {
    hide Run, Shown, Hears;
    SinkIsShown(cfg, cooldown, env, seed, deadlines);
    TraceIsHeard(Run(cfg, cooldown, env, seed, deadlines).trace);
  }

  // ----- prose -----

  /** The prose among what was sent, in order. */
  function SentProse(sink: seq<Sent>): seq<Event> {
    if sink == [] then []
    else
      (if sink[0].Sent? && IsProse(sink[0].event) then [sink[0].event] else []) + SentProse(sink[1..])
  }

  /** The prose of the shown round-trips, in order. */
  function ShownProse(trace: seq<TraceItem>): seq<Event> {
    if trace == [] then []
    else
      var x := trace[|trace| - 1];
      ShownProse(trace[..|trace| - 1]) + (if x.Round? && IsShown(x.verdict) then Prose(x.events) else [])
  }

  lemma {:induction false} SentProseAppend(a: seq<Sent>, b: seq<Sent>)
    ensures SentProse(a + b) == SentProse(a) + SentProse(b)
  {
    if a == [] {
      assert a + b == b;
    } else {
      SentProseAppend(a[1..], b);
      TailOfAppend(a, b);
      Regroup(if a[0].Sent? && IsProse(a[0].event) then [a[0].event] else [], SentProse(a[1..]), SentProse(b));
    }
  }

  predicate NoProse(events: seq<Event>) {
    forall i | 0 <= i < |events| :: !IsProse(events[i])
  }

  lemma {:induction false} NoSentProse(events: seq<Event>)
    requires NoProse(events)
    ensures SentProse(AsSent(events)) == []
  {
    if events != [] {
      NoSentProse(events[1..]);
      assert AsSent(events)[1..] == AsSent(events[1..]);
    }
  }

  predicate AllProse(events: seq<Event>) {
    forall i | 0 <= i < |events| :: IsProse(events[i])
  }

  lemma {:induction false} AllSentProse(events: seq<Event>)
    requires AllProse(events)
    ensures SentProse(AsSent(events)) == events
  {
    if events != [] {
      AllSentProse(events[1..]);
      assert AsSent(events)[1..] == AsSent(events[1..]);
    }
  }

  lemma {:induction false} ProseOrNot(events: seq<Event>)
    ensures NoProse(Immediate(events)) && AllProse(Prose(events))
  {
    if events != [] {
      ProseOrNot(events[..|events| - 1]);
    }
  }

  lemma ItemProse(x: TraceItem)
    ensures SentProse(ItemShows(x)) == if x.Round? && IsShown(x.verdict) then Prose(x.events) else []
  {
    hide Immediate, Prose, AsSent;
    match x
    case Round(v, events) =>
      ProseOrNot(events);
      NoSentProse(Immediate(events));
      AllSentProse(Prose(events));
      SentProseAppend(AsSent(Immediate(events)), if IsShown(v) then AsSent(Prose(events)) else []);
    case Reported(reports) => NoSentProse(reports);
    case Recorded(total, _, _, Finishing(stop)) =>
      OneSent(Sent(UsageReport(total)));
      OneSent(Sent(Done(stop)));
      SentProseAppend([Sent(UsageReport(total))], [Sent(Done(stop))]);
      assert ItemShows(x) == [Sent(UsageReport(total))] + [Sent(Done(stop))];
    case Recorded(_, _, _, Failing(e)) => OneSent(SentError(e));
    case _ =>
  }

  lemma OneSent(x: Sent)
    ensures SentProse([x]) == if x.Sent? && IsProse(x.event) then [x.event] else []
  {
    assert [x][1..] == [] && SentProse([]) == [];
  }

  lemma {:induction false} ProseOfShown(trace: seq<TraceItem>)
    ensures SentProse(Shown(trace)) == ShownProse(trace)
  {
    hide ItemShows;
    if trace != [] {
      var n := |trace| - 1;
      ProseOfShown(trace[..n]);
      ItemProse(trace[n]);
      SentProseAppend(Shown(trace[..n]), ItemShows(trace[n]));
    }
  }

  /** In every run the text and thinking that reach the caller are exactly the prose of the accepted,
      paused, tool-calling and failed-midway round-trips, in order. */
  lemma ProseIsOfShownRounds(cfg: Config, cooldown: nat, env: Env, seed: Transcript, deadlines: seq<nat>)
    ensures var s := Run(cfg, cooldown, env, seed, deadlines); SentProse(s.sink) == ShownProse(s.trace)
  {
    hide Run, Shown, SentProse, ShownProse;
    SinkIsShown(cfg, cooldown, env, seed, deadlines);
    ProseOfShown(Run(cfg, cooldown, env, seed, deadlines).trace);
  }
}

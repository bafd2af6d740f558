/** Which candidate serves a round-trip, and how turns share the circuit breaker. */
module LoopCursor {
  import opened Protocol
  import opened History
  import opened Compaction
  import opened TurnModel
  import opened Breaker
  import opened Request
  import opened AgentLoop
  import StaleReads
  import Dedup
  import Eviction

  // ----- what is claimed of a trace -----

  /** Every candidate opened so far is at most `c`. */
  predicate OpenedUpTo(trace: seq<TraceItem>, c: nat) {
    forall i | 0 <= i < |trace| :: trace[i].Opened? ==> trace[i].candidate <= c
  }

  /** `before` ends with the opening of candidate `c`, and then, if it is given, one breaker change. */
  predicate EndsOpening(before: seq<TraceItem>, c: nat) {
    |before| >= 1 && before[|before| - 1].Opened? && before[|before| - 1].candidate == c
  }

  predicate EndsTripped(before: seq<TraceItem>) {
    && |before| >= 2 && before[|before| - 1].BreakerChanged? && before[|before| - 1].change.Trip?
    && EndsOpening(before[..|before| - 1], before[|before| - 1].change.pos)
  }

  predicate EndsReset(before: seq<TraceItem>) {
    && |before| >= 2 && before[|before| - 1].BreakerChanged? && before[|before| - 1].change.Reset?
    && EndsOpening(before[..|before| - 1], before[|before| - 1].change.pos)
  }

  /** An item in its place: candidates are opened in order; a candidate is given up right after it was
      opened and demoted, with nothing of its stream passed on; a completed round-trip belongs to the one
      candidate opened right before it, which is healthy again; a failed one to the candidate opened
      right before it, demoted if and only if nothing had been passed on. */
  predicate Placed(before: seq<TraceItem>, x: TraceItem) {
    match x
    case Opened(_, c) => OpenedUpTo(before, c)
    case Abandoned(events) => Forwarded(events) == [] && EndsTripped(before)
    case Round(FailedMidway, events) =>
      if Forwarded(events) == [] then EndsTripped(before)
      else |before| >= 1 && before[|before| - 1].Opened?
    case Round(_, _) => EndsReset(before)
    case _ => true
  }

  predicate AllPlaced(trace: seq<TraceItem>) {
    forall i | 0 <= i < |trace| :: Placed(trace[..i], trace[i])
  }

  /** The changes a trace made to the breaker, in order. */
  function Changes(trace: seq<TraceItem>): seq<BreakerEvent> {
    if trace == [] then []
    else
      var x := trace[|trace| - 1];
      Changes(trace[..|trace| - 1]) + (if x.BreakerChanged? then [x.change] else [])
  }

  predicate Ordered(d: seq<nat>, cooldown: nat, s: State) {
    && AllPlaced(s.trace)
    && OpenedUpTo(s.trace, s.cursor)
    && s.deadlines == AppliedAll(d, cooldown, Changes(s.trace))
  }

  // ----- elementary steps -----

  lemma PlacedSnoc(trace: seq<TraceItem>, x: TraceItem)
    requires AllPlaced(trace) && Placed(trace, x)
    ensures AllPlaced(trace + [x])
  {
    hide Placed;
    forall i | 0 <= i <= |trace|
      ensures Placed((trace + [x])[..i], (trace + [x])[i])
    {
      assert (trace + [x])[..i] == trace[..i];
      assert trace[..|trace|] == trace;
    }
  }

  lemma ChangesSnoc(trace: seq<TraceItem>, x: TraceItem)
    ensures Changes(trace + [x]) == Changes(trace) + (if x.BreakerChanged? then [x.change] else [])
  {
    assert (trace + [x])[..|trace|] == trace;
  }

  lemma AppliedSnoc(d: seq<nat>, cooldown: nat, log: seq<BreakerEvent>, e: BreakerEvent)
    ensures AppliedAll(d, cooldown, log + [e]) == Applied(AppliedAll(d, cooldown, log), cooldown, e)
  {
    assert (log + [e])[..|log|] == log;
  }

  lemma LogOrdered(d: seq<nat>, cooldown: nat, s: State, x: TraceItem)
    requires Ordered(d, cooldown, s) && Placed(s.trace, x) && !x.BreakerChanged?
    requires x.Opened? ==> x.candidate <= s.cursor
    ensures Ordered(d, cooldown, Log(s, x))
  {
    hide Placed, AllPlaced, Changes;
    PlacedSnoc(s.trace, x);
    ChangesSnoc(s.trace, x);
    assert Changes(s.trace) + [] == Changes(s.trace);
  }

  lemma ChangeOrdered(d: seq<nat>, cooldown: nat, s: State, e: BreakerEvent)
    requires Ordered(d, cooldown, s)
    ensures Ordered(d, cooldown, ChangeBreaker(s, cooldown, e))
  {
    hide AllPlaced, Changes, AppliedAll, Applied;
    PlacedSnoc(s.trace, BreakerChanged(e));
    ChangesSnoc(s.trace, BreakerChanged(e));
    AppliedSnoc(d, cooldown, Changes(s.trace), e);
  }

  lemma FailOrdered(d: seq<nat>, cooldown: nat, s: State, e: AgentError)
    requires Ordered(d, cooldown, s)
    ensures Ordered(d, cooldown, Fail(s, e))
  {
    hide AllPlaced, Changes, AppliedAll;
    LogOrdered(d, cooldown, s, Recorded(s.total, s.roundTrips, false, Failing(e)));
  }

  lemma FinishOrdered(d: seq<nat>, cooldown: nat, s: State, success: bool, stop: StopReason)
    requires Ordered(d, cooldown, s)
    ensures Ordered(d, cooldown, Finish(s, success, stop))
  {
    hide AllPlaced, Changes, AppliedAll;
    LogOrdered(d, cooldown, s, Recorded(s.total, s.roundTrips, success, Finishing(stop)));
  }

  // ----- the phases of a step -----

  lemma PrepareOrdered(d: seq<nat>, cooldown: nat, cfg: Config, env: Env, s: State, step: nat)
    requires Ordered(d, cooldown, s)
    ensures Ordered(d, cooldown, Prepare(cfg, env, s, step)) && Prepare(cfg, env, s, step).cursor == s.cursor
  {
    hide StaleReads.MarkStale, Dedup.DedupAll, Eviction.EvictToFit, Compacted, CompactReply, AllPlaced;
    hide OpenedUpTo, Changes, AppliedAll;
    var h := Dedup.DedupAll(StaleReads.MarkStale(s.history));
    if CompactReply(h, env.summary(step)).Some? {
      LogOrdered(d, cooldown, s, Summarised(h, CompactReply(h, env.summary(step)).value.usage));
    }
  }

  lemma OpenOrdered(d: seq<nat>, cooldown: nat, cfg: Config, s: State, choice: Option<ToolChoice>)
    requires s.cursor <= |cfg.fallbacks| && Ordered(d, cooldown, s)
    ensures var o := Open(cfg, s, choice);
            Ordered(d, cooldown, o) && EndsOpening(o.trace, s.cursor) && o.cursor == s.cursor
  {
    hide RequestFor, AllPlaced, Changes, AppliedAll;
    LogOrdered(d, cooldown, s, Opened(RequestFor(cfg, s, choice), s.cursor));
  }

  lemma StreamFinishedOrdered(d: seq<nat>, cooldown: nat, s: State, events: seq<Event>)
    requires Ordered(d, cooldown, s) && EndsOpening(s.trace, s.cursor)
    ensures var r := StreamFinished(cooldown, s, events); Ordered(d, cooldown, r) && EndsReset(r.trace)
  {
    hide Immediate, AllPlaced, OpenedUpTo, Changes, AppliedAll, Applied;
    ChangeOrdered(d, cooldown, Send(s, Immediate(events)), Reset(s.cursor));
    assert (s.trace + [BreakerChanged(Reset(s.cursor))])[..|s.trace|] == s.trace;
  }

  lemma StreamLostOrdered(d: seq<nat>, cooldown: nat, s: State, events: seq<Event>, error: AgentError)
    requires Ordered(d, cooldown, s) && EndsOpening(s.trace, s.cursor) && Forwarded(events) != []
    ensures Ordered(d, cooldown, StreamLost(s, events, error))
  {
    hide Immediate, Prose, AllPlaced, OpenedUpTo, Changes, AppliedAll, Forwarded;
    var p := Send(Send(s, Immediate(events)), Prose(events));
    LogOrdered(d, cooldown, p, Round(FailedMidway, events));
    FailOrdered(d, cooldown, Log(p, Round(FailedMidway, events)), error);
  }

  lemma CandidateDownOrdered(d: seq<nat>, cooldown: nat, cfg: Config, s: State, at: nat, events: seq<Event>,
        error: AgentError)
    requires s.cursor <= |cfg.fallbacks| && Ordered(d, cooldown, s) && EndsOpening(s.trace, s.cursor) && Forwarded(events) == []
    ensures Ordered(d, cooldown, CandidateDown(cfg, cooldown, s, at, events, error).state)
  {
    hide AllPlaced, Changes, AppliedAll, Applied, Forwarded;
    var e := Trip(s.cursor, at);
    ChangeOrdered(d, cooldown, s, e);
    var t := ChangeBreaker(s, cooldown, e);
    assert t.trace[..|t.trace| - 1] == s.trace;
    if s.cursor < |cfg.fallbacks| {
      LogOrdered(d, cooldown, t, Abandoned(events));
    } else {
      LogOrdered(d, cooldown, t, Round(FailedMidway, events));
      FailOrdered(d, cooldown, Log(t, Round(FailedMidway, events)), error);
    }
  }

  lemma {:induction false} TryCandidatesOrdered(d: seq<nat>, cooldown: nat, cfg: Config, env: Env, s: State,
        choice: Option<ToolChoice>)
    requires s.cursor <= |cfg.fallbacks| && Ordered(d, cooldown, s)
    ensures var t := TryCandidates(cfg, cooldown, env, s, choice);
            Ordered(d, cooldown, t.state) && (t.Completed? ==> EndsReset(t.state.trace))
    decreases |cfg.fallbacks| - s.cursor
  {
    hide Ordered, EndsOpening, EndsReset, Open, StreamFinished, StreamLost, CandidateDown, Forwarded;
    var a := env.attempt(s.opens);
    var events := EventsOf(a);
    var o := Open(cfg, s, choice);
    OpenOrdered(d, cooldown, cfg, s, choice);
    StreamFinishedOrdered(d, cooldown, o, events);
    if Forwarded(events) == [] {
      CandidateDownOrdered(d, cooldown, cfg, o, env.now(s.opens), events, FailureOf(a));
    } else {
      StreamLostOrdered(d, cooldown, o, events, FailureOf(a));
    }
    var t := TryOne(cfg, cooldown, env, s, choice);
    if t.TryNext? {
      TryCandidatesOrdered(d, cooldown, cfg, env, t.state, choice);
    }
  }

  lemma RunToolsOrdered(d: seq<nat>, cooldown: nat, cfg: Config, env: Env, s: State, step: nat, turn: Turn, edited: bool)
    requires Ordered(d, cooldown, s)
    ensures Ordered(d, cooldown, RunTools(cfg, env, s, step, turn, edited))
  {
    hide AllToolEvents, ToolAnswers, AssistantMessage, AllPlaced, OpenedUpTo, Changes, AppliedAll;
    var n := |turn.calls|;
    var events := AllToolEvents(cfg, env, step, turn.calls, n);
    var e := Progressed(Send(Push(s, AssistantMessage(cfg.json, turn)), events), edited);
    assert Ordered(d, cooldown, e);
    LogOrdered(d, cooldown, e, Reported(events));
    var t, results := Log(e, Reported(events)), ToolAnswers(cfg, env, step, turn.calls, n);
    var f := Push(t, Message(User, results));
    FinishOrdered(d, cooldown, f, true, EndTurn);
    FinishOrdered(d, cooldown, f, Verify(cfg, env, step), Other("no_progress"));
    var nudge := NeedsProgressNudge(cfg, t.streak, t.nudgedAt);
    LogOrdered(d, cooldown, t, Replied(Message(User, results + NotesFor(cfg, nudge, t.roundTrips, t.total))));
  }

  lemma ActOrdered(d: seq<nat>, cooldown: nat, cfg: Config, env: Env, s: State, step: nat, turn: Turn, v: Verdict,
        held: seq<Event>)
    requires !v.FailedMidway? && (v.Rerouted? ==> s.cursor < |cfg.fallbacks|)
    requires Ordered(d, cooldown, s)
    ensures Ordered(d, cooldown, Act(cfg, env, s, step, turn, v, held))
  {
    hide AssistantMessage, RunTools, AllPlaced, Changes, AppliedAll;
    match v
    case OverBudget => FailOrdered(d, cooldown, s, BudgetExceeded);
    case Truncated => FailOrdered(d, cooldown, s, ResponseIncomplete);
    case ToolsRun(edited) => RunToolsOrdered(d, cooldown, cfg, env, Send(s, held), step, turn, edited);
    case Accepted =>
      FinishOrdered(d, cooldown, Send(s, held), Verify(cfg, env, step), if turn.stop.Some? then turn.stop.value else EndTurn);
    case _ =>
  }

  lemma SettleOrdered(d: seq<nat>, cooldown: nat, cfg: Config, env: Env, s: State, step: nat, events: seq<Event>)
    requires s.cursor <= |cfg.fallbacks| && Ordered(d, cooldown, s) && EndsReset(s.trace)
    ensures Ordered(d, cooldown, Settle(cfg, env, s, step, events))
  {
    hide Act, Fold, Prose, AllPlaced, OpenedUpTo, Changes, AppliedAll, EndsReset, MadeEdit;
    var c := Counted(s, Fold(events));
    var v := Judge(cfg, env, step, c, Fold(events));
    LogOrdered(d, cooldown, c, Round(v, events));
    ActOrdered(d, cooldown, cfg, env, Log(c, Round(v, events)), step, Fold(events), v, Prose(events));
  }

  lemma StepOrdered(d: seq<nat>, cooldown: nat, cfg: Config, env: Env, s: State, step: nat)
    requires s.cursor <= |cfg.fallbacks| && Ordered(d, cooldown, s)
    ensures Ordered(d, cooldown, Step(cfg, cooldown, env, s, step))
  {
    hide AllPlaced, OpenedUpTo, Changes, AppliedAll, EndsReset, Prepare, TryCandidates, Settle;
    PrepareOrdered(d, cooldown, cfg, env, s, step);
    var p := Prepare(cfg, env, s, step);
    var choice := if p.requireTool then Some(Required) else None;
    TryCandidatesOrdered(d, cooldown, cfg, env, p.(requireTool := false), choice);
    var t := TryCandidates(cfg, cooldown, env, p.(requireTool := false), choice);
    if t.Completed? {
      SettleOrdered(d, cooldown, cfg, env, t.state, step, t.events);
    }
  }

  lemma {:induction false} RunStepsOrdered(d: seq<nat>, cooldown: nat, cfg: Config, env: Env, s: State, step: nat)
    requires s.cursor <= |cfg.fallbacks| && step <= cfg.maxSteps && Ordered(d, cooldown, s)
    ensures Ordered(d, cooldown, RunSteps(cfg, cooldown, env, s, step))
    decreases cfg.maxSteps - step
  {
    hide AllPlaced, OpenedUpTo, Changes, AppliedAll, Step;
    if !s.over {
      if step == cfg.maxSteps {
        FinishOrdered(d, cooldown, s, false, Other("max_steps"));
      } else {
        StepOrdered(d, cooldown, cfg, env, s, step);
        RunStepsOrdered(d, cooldown, cfg, env, Step(cfg, cooldown, env, s, step), step + 1);
      }
    }
  }

  lemma StartOrdered(cfg: Config, cooldown: nat, env: Env, seed: Transcript, d: seq<nat>)
    ensures Ordered(d, cooldown, Start(cfg, env, seed, d))
  {
    hide PlanOf, PlanUsage, FirstAvailable, PrePassNotices;
    var spent := Start(cfg, env, seed, d).total;
    var notices := PrePassNotices(env.prePass);
    ChangesSnoc([], PrePaid(spent));
    ChangesSnoc([PrePaid(spent)], Reported(notices));
    assert [] + [PrePaid(spent)] == [PrePaid(spent)];
    assert [PrePaid(spent), Reported(notices)] == [PrePaid(spent)] + [Reported(notices)];
    assert Changes([]) == [] && AppliedAll(d, cooldown, []) == d;
  }

  /** In every run candidates are opened in order and never go back; one given up for the next has passed
      on and held back nothing; each round-trip's events come from the one candidate opened just before. */
  lemma OneCandidatePerRound(cfg: Config, cooldown: nat, env: Env, seed: Transcript, d: seq<nat>)
    ensures var s := Run(cfg, cooldown, env, seed, d);
            && AllPlaced(s.trace)
            && s.deadlines == AppliedAll(d, cooldown, Changes(s.trace))
  {
    hide AllPlaced, OpenedUpTo, Changes, AppliedAll, Start, RunSteps;
    StartOrdered(cfg, cooldown, env, seed, d);
    RunStepsOrdered(d, cooldown, cfg, env, Start(cfg, env, seed, d), 0);
  }

  // ----- turns one after another -----

  datatype Task = Task(cfg: Config, env: Env, seed: Transcript)

  /** What a sequence of turns does to the breaker, turn by turn. */
  function BreakerLog(tasks: seq<Task>, cooldown: nat, positions: nat): seq<BreakerEvent> {
    if tasks == [] then []
    else
      var before := BreakerLog(tasks[..|tasks| - 1], cooldown, positions);
      var t := tasks[|tasks| - 1];
      before + Changes(Run(t.cfg, cooldown, t.env, t.seed, Deadlines(tasks[..|tasks| - 1], cooldown, positions)).trace)
  }

  /** The breaker's deadlines after a sequence of turns on a new breaker. */
  function Deadlines(tasks: seq<Task>, cooldown: nat, positions: nat): seq<nat> {
    if tasks == [] then seq(positions, _ => 0)
    else
      var t := tasks[|tasks| - 1];
      Run(t.cfg, cooldown, t.env, t.seed, Deadlines(tasks[..|tasks| - 1], cooldown, positions)).deadlines
  }

  lemma {:induction false} DeadlinesFollow(tasks: seq<Task>, cooldown: nat, positions: nat)
    ensures Deadlines(tasks, cooldown, positions) == AppliedAll(seq(positions, _ => 0), cooldown, BreakerLog(tasks, cooldown, positions))
  {
    hide Run, Changes;
    if tasks != [] {
      var n := |tasks| - 1;
      var t := tasks[n];
      var d := Deadlines(tasks[..n], cooldown, positions);
      DeadlinesFollow(tasks[..n], cooldown, positions);
      OneCandidatePerRound(t.cfg, cooldown, t.env, t.seed, d);
      AppliedAllAppend(seq(positions, _ => 0), cooldown, BreakerLog(tasks[..n], cooldown, positions),
                       Changes(Run(t.cfg, cooldown, t.env, t.seed, d).trace));
    }
  }

  /** After any sequence of turns on one breaker, the next turn starts at the least position that is not
      demoted by what those turns did, when it is probed, and at the primary when all are. */
  lemma NextTurnStartsHealthy(tasks: seq<Task>, cooldown: nat, cfg: Config, env: Env, seed: Transcript)
    ensures var positions := |cfg.fallbacks| + 1;
            var log := BreakerLog(tasks, cooldown, positions);
            var p := Start(cfg, env, seed, Deadlines(tasks, cooldown, positions)).cursor;
            && p <= |cfg.fallbacks|
            && (forall k :: 0 <= k < p ==> Demoted(log, cooldown, k, env.probe(k)))
            && (Demoted(log, cooldown, p, env.probe(p)) ==>
                  p == 0 && forall k :: 0 <= k <= |cfg.fallbacks| ==> Demoted(log, cooldown, k, env.probe(k)))
  {
    hide PlanOf, PlanUsage, PrePassNotices, Demoted, BreakerLog, Deadlines, AppliedAll, FirstAvailable;
    var positions := |cfg.fallbacks| + 1;
    DeadlinesFollow(tasks, cooldown, positions);
    StartsAtLeastHealthy(positions, cooldown, BreakerLog(tasks, cooldown, positions), |cfg.fallbacks|, env.probe);
  }
}

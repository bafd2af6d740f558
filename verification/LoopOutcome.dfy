/** How every run ends, and what it reports having spent. */
module LoopOutcome {
  import opened Protocol
  import opened History
  import opened Compaction
  import opened TurnModel
  import opened Breaker
  import opened Request
  import opened AgentLoop
  import StaleReads
  import Dedup
  import Eviction

  // ----- what is claimed -----

  /** Only forwarded events: no error, and none of a provider's own usage reports or ends. */
  predicate Clean(sink: seq<Sent>) {
    forall i | 0 <= i < |sink| :: sink[i].Sent? && !IsCaptured(sink[i].event)
  }

  /** Clean up to the end, which is one error, or the total usage and then the end of the turn. */
  predicate Terminated(sink: seq<Sent>, total: Usage) {
    var n := |sink|;
    || (n >= 1 && sink[n - 1].SentError? && Clean(sink[..n - 1]))
    || (n >= 2 && sink[n - 2] == Sent(UsageReport(total)) && sink[n - 1].Sent? && sink[n - 1].event.Done?
        && Clean(sink[..n - 2]))
  }

  /** What one item of the trace costs: pre-passes, summaries and completed round-trips; an abandoned or
      failed stream costs nothing. */
  function ItemUsage(item: TraceItem): Usage {
    match item
    case PrePaid(u) => u
    case Summarised(_, u) => u
    case Round(verdict, events) => if verdict.FailedMidway? then NO_USAGE else UsageOf(events)
    case _ => NO_USAGE
  }

  function Spent(trace: seq<TraceItem>): Usage {
    if trace == [] then NO_USAGE else Plus(Spent(trace[..|trace| - 1]), ItemUsage(trace[|trace| - 1]))
  }

  function Outcomes(trace: seq<TraceItem>): nat {
    if trace == [] then 0
    else Outcomes(trace[..|trace| - 1]) + (if trace[|trace| - 1].Recorded? then 1 else 0)
  }

  predicate Running(s: State) {
    !s.over && Clean(s.sink) && Outcomes(s.trace) == 0 && s.total == Spent(s.trace)
  }

  predicate Ended(s: State) {
    && s.over
    && Terminated(s.sink, Spent(s.trace))
    && Outcomes(s.trace) == 1
    && s.trace != [] && s.trace[|s.trace| - 1].Recorded?
    && s.trace[|s.trace| - 1].total == Spent(s.trace)
  }

  // ----- elementary steps -----

  lemma Snoc(trace: seq<TraceItem>, item: TraceItem)
    ensures Spent(trace + [item]) == Plus(Spent(trace), ItemUsage(item))
    ensures Outcomes(trace + [item]) == Outcomes(trace) + (if item.Recorded? then 1 else 0)
  {
    assert (trace + [item])[..|trace|] == trace;
  }

  predicate Uncaptured(events: seq<Event>) {
    forall i | 0 <= i < |events| :: !IsCaptured(events[i])
  }

  lemma {:induction false} ForwardedIsUncaptured(events: seq<Event>)
    ensures Uncaptured(Immediate(events)) && Uncaptured(Prose(events))
  {
    if events != [] {
      ForwardedIsUncaptured(events[..|events| - 1]);
    }
  }

  lemma SendKeepsRunning(s: State, events: seq<Event>)
    requires Running(s) && Uncaptured(events)
    ensures Running(Send(s, events))
  {
  }

  lemma LogKeepsRunning(s: State, item: TraceItem)
    requires Running(s) && ItemUsage(item) == NO_USAGE && !item.Recorded?
    ensures Running(Log(s, item))
  {
    hide ItemUsage, Spent, Outcomes, Clean;
    Snoc(s.trace, item);
  }

  lemma FailEnds(s: State, e: AgentError)
    requires Running(s)
    ensures Ended(Fail(s, e))
  {
    hide Clean, Spent, Outcomes;
    Snoc(s.trace, Recorded(s.total, s.roundTrips, false, Failing(e)));
    var r := Fail(s, e);
    assert r.sink[..|r.sink| - 1] == s.sink;
  }

  lemma FinishEnds(s: State, success: bool, stop: StopReason)
    requires Running(s)
    ensures Ended(Finish(s, success, stop))
  {
    hide Clean, Spent, Outcomes;
    Snoc(s.trace, Recorded(s.total, s.roundTrips, success, Finishing(stop)));
    var r := Finish(s, success, stop);
    assert r.sink[..|r.sink| - 2] == s.sink;
  }

  // ----- the phases of a step -----

  lemma PrepareKeepsRunning(cfg: Config, env: Env, s: State, step: nat)
    requires Running(s)
    ensures Running(Prepare(cfg, env, s, step))
  {
    hide StaleReads.MarkStale, Dedup.DedupAll, Eviction.EvictToFit, Compacted, CompactReply, Clean, Spent, Outcomes;
    var h := Dedup.DedupAll(StaleReads.MarkStale(s.history));
    if CompactReply(h, env.summary(step)).Some? {
      Snoc(s.trace, Summarised(h, CompactReply(h, env.summary(step)).value.usage));
    }
  }

  predicate Settled(t: Tried) {
    if t.GaveUp? then Ended(t.state) else Running(t.state)
  }

  lemma OpenKeepsRunning(cfg: Config, s: State, choice: Option<ToolChoice>)
    requires s.cursor <= |cfg.fallbacks| && Running(s)
    ensures Running(Open(cfg, s, choice))
  {
    hide RequestFor, Clean, Spent, Outcomes;
    LogKeepsRunning(s, Opened(RequestFor(cfg, s, choice), s.cursor));
  }

  lemma StreamFinishedKeepsRunning(cooldown: nat, s: State, events: seq<Event>)
    requires Running(s)
    ensures Running(StreamFinished(cooldown, s, events))
  {
    hide Immediate, Clean, Spent, Outcomes, Applied, Uncaptured;
    ForwardedIsUncaptured(events);
    SendKeepsRunning(s, Immediate(events));
    LogKeepsRunning(Send(s, Immediate(events)), BreakerChanged(Reset(s.cursor)));
  }

  lemma StreamLostEnds(s: State, events: seq<Event>, error: AgentError)
    requires Running(s)
    ensures Ended(StreamLost(s, events, error))
  {
    hide Immediate, Prose, Clean, Spent, Outcomes, Uncaptured, Terminated;
    ForwardedIsUncaptured(events);
    SendKeepsRunning(s, Immediate(events));
    SendKeepsRunning(Send(s, Immediate(events)), Prose(events));
    var t := Send(Send(s, Immediate(events)), Prose(events));
    LogKeepsRunning(t, Round(FailedMidway, events));
    FailEnds(Log(t, Round(FailedMidway, events)), error);
  }

  lemma CandidateDownSettles(cfg: Config, cooldown: nat, s: State, at: nat, events: seq<Event>, error: AgentError)
    requires s.cursor <= |cfg.fallbacks| && Running(s)
    ensures Settled(CandidateDown(cfg, cooldown, s, at, events, error))
  {
    hide Clean, Spent, Outcomes, Terminated, Applied;
    LogKeepsRunning(s, BreakerChanged(Trip(s.cursor, at)));
    var t := ChangeBreaker(s, cooldown, Trip(s.cursor, at));
    if s.cursor < |cfg.fallbacks| {
      LogKeepsRunning(t, Abandoned(events));
    } else {
      LogKeepsRunning(t, Round(FailedMidway, events));
      FailEnds(Log(t, Round(FailedMidway, events)), error);
    }
  }

  lemma {:induction false} TryCandidatesSettles(cfg: Config, cooldown: nat, env: Env, s: State, choice: Option<ToolChoice>)
    requires s.cursor <= |cfg.fallbacks| && Running(s)
    ensures Settled(TryCandidates(cfg, cooldown, env, s, choice))
    decreases |cfg.fallbacks| - s.cursor
  {
    hide Running, Ended, Open, StreamFinished, StreamLost, CandidateDown, Forwarded;
    var a := env.attempt(s.opens);
    var events := EventsOf(a);
    var o := Open(cfg, s, choice);
    OpenKeepsRunning(cfg, s, choice);
    StreamFinishedKeepsRunning(cooldown, o, events);
    StreamLostEnds(o, events, FailureOf(a));
    assert o.cursor == s.cursor by { OpenKeepsCursor(cfg, s, choice); }
    CandidateDownSettles(cfg, cooldown, o, env.now(s.opens), events, FailureOf(a));
    var t := TryOne(cfg, cooldown, env, s, choice);
    if t.TryNext? {
      TryCandidatesSettles(cfg, cooldown, env, t.state, choice);
    }
  }

  lemma OpenKeepsCursor(cfg: Config, s: State, choice: Option<ToolChoice>)
    requires s.cursor <= |cfg.fallbacks|
    ensures Open(cfg, s, choice).cursor == s.cursor && Open(cfg, s, choice).over == s.over
  {
  }

  // ----- acting on a verdict -----

  lemma CountKeepsRunning(s: State, events: seq<Event>, verdict: Verdict)
    requires Running(s) && !verdict.FailedMidway?
    ensures Running(Log(Counted(s, Fold(events)), Round(verdict, events)))
  {
    hide UsageOf, TextOf, Clean, Fold;
    FoldKeeps(events);
    Snoc(s.trace, Round(verdict, events));
  }

  lemma RunToolsKeeps(cfg: Config, env: Env, s: State, step: nat, turn: Turn, edited: bool)
    requires Running(s)
    ensures var r := RunTools(cfg, env, s, step, turn, edited); if r.over then Ended(r) else Running(r)
  {
    hide Clean, Spent, Outcomes, Terminated, AllToolEvents, ToolAnswers, AssistantMessage;
    var events := AllToolEvents(cfg, env, step, turn.calls, |turn.calls|);
    var e := Send(Push(s, AssistantMessage(cfg.json, turn)), events);
    assert Uncaptured(events);
    SendKeepsRunning(Push(s, AssistantMessage(cfg.json, turn)), events);
    var results := ToolAnswers(cfg, env, step, turn.calls, |turn.calls|);
    LogKeepsRunning(Progressed(e, edited), Reported(events));
    var t := Log(Progressed(e, edited), Reported(events));
    var d := Push(t, Message(User, results));
    FinishEnds(d, true, EndTurn);
    FinishEnds(d, Verify(cfg, env, step), Other("no_progress"));
    var nudge := NeedsProgressNudge(cfg, t.streak, t.nudgedAt);
    LogKeepsRunning(t, Replied(Message(User, results + NotesFor(cfg, nudge, t.roundTrips, t.total))));
  }

  lemma ActKeeps(cfg: Config, env: Env, s: State, step: nat, turn: Turn, verdict: Verdict, held: seq<Event>)
    requires !verdict.FailedMidway? && (verdict.Rerouted? ==> s.cursor < |cfg.fallbacks|)
    requires Running(s) && Uncaptured(held)
    ensures var r := Act(cfg, env, s, step, turn, verdict, held); if r.over then Ended(r) else Running(r)
  {
    hide Clean, Spent, Outcomes, Terminated, Uncaptured, AssistantMessage, RunTools;
    SendKeepsRunning(s, held);
    var p := Send(s, held);
    match verdict
    case OverBudget => FailEnds(s, BudgetExceeded);
    case Truncated => FailEnds(s, ResponseIncomplete);
    case ToolsRun(edited) => RunToolsKeeps(cfg, env, p, step, turn, edited);
    case Accepted => FinishEnds(p, Verify(cfg, env, step), if turn.stop.Some? then turn.stop.value else EndTurn);
    case _ =>
  }

  lemma SettleKeeps(cfg: Config, env: Env, s: State, step: nat, events: seq<Event>)
    requires s.cursor <= |cfg.fallbacks| && Running(s)
    ensures var r := Settle(cfg, env, s, step, events); if r.over then Ended(r) else Running(r)
  {
    hide Running, Ended, Act, Fold, Prose, Uncaptured;
    var c := Counted(s, Fold(events));
    var verdict := Judge(cfg, env, step, c, Fold(events));
    CountKeepsRunning(s, events, verdict);
    ForwardedIsUncaptured(events);
    ActKeeps(cfg, env, Log(c, Round(verdict, events)), step, Fold(events), verdict, Prose(events));
  }

  lemma StepKeeps(cfg: Config, cooldown: nat, env: Env, s: State, step: nat)
    requires s.cursor <= |cfg.fallbacks| && Running(s)
    ensures var r := Step(cfg, cooldown, env, s, step); if r.over then Ended(r) else Running(r)
  {
    hide Clean, Spent, Outcomes, Terminated, Prepare, TryCandidates, Settle;
    PrepareKeepsRunning(cfg, env, s, step);
    var p := Prepare(cfg, env, s, step);
    assert p.cursor == s.cursor by { PrepareKeepsCursor(cfg, env, s, step); }
    var choice := if p.requireTool then Some(Required) else None;
    TryCandidatesSettles(cfg, cooldown, env, p.(requireTool := false), choice);
    var t := TryCandidates(cfg, cooldown, env, p.(requireTool := false), choice);
    if t.Completed? {
      SettleKeeps(cfg, env, t.state, step, t.events);
    }
  }

  lemma PrepareKeepsCursor(cfg: Config, env: Env, s: State, step: nat)
    ensures Prepare(cfg, env, s, step).cursor == s.cursor
  {
    hide StaleReads.MarkStale, Dedup.DedupAll, Eviction.EvictToFit, Compacted, CompactReply;
  }

  lemma {:induction false} RunStepsEnds(cfg: Config, cooldown: nat, env: Env, s: State, step: nat)
    requires s.cursor <= |cfg.fallbacks| && step <= cfg.maxSteps
    requires if s.over then Ended(s) else Running(s)
    ensures Ended(RunSteps(cfg, cooldown, env, s, step))
    decreases cfg.maxSteps - step
  {
    hide Clean, Spent, Outcomes, Terminated, Step;
    if !s.over {
      if step == cfg.maxSteps {
        FinishEnds(s, false, Other("max_steps"));
      } else {
        StepKeeps(cfg, cooldown, env, s, step);
        RunStepsEnds(cfg, cooldown, env, Step(cfg, cooldown, env, s, step), step + 1);
      }
    }
  }

  lemma StartRuns(cfg: Config, env: Env, seed: Transcript, deadlines: seq<nat>)
    ensures Running(Start(cfg, env, seed, deadlines))
  {
    hide PlanOf, PlanUsage, FirstAvailable;
    var spent := Start(cfg, env, seed, deadlines).total;
    var notices := PrePassNotices(env.prePass);
    Snoc([], PrePaid(spent));
    Snoc([PrePaid(spent)], Reported(notices));
    assert [] + [PrePaid(spent)] == [PrePaid(spent)];
    assert [PrePaid(spent), Reported(notices)] == [PrePaid(spent)] + [Reported(notices)];
  }

  /** Every run, whatever its oracles answer, records its outcome exactly once, as the last thing it
      does, and ends in exactly one of a single error, or the total usage and then the end of the turn,
      with nothing after and none of the providers' own usage reports and ends before. The total it
      reports and records is the sum over pre-passes, summaries and completed round-trips. */
  lemma EveryRunEndsOnce(cfg: Config, cooldown: nat, env: Env, seed: Transcript, deadlines: seq<nat>)
    ensures Ended(Run(cfg, cooldown, env, seed, deadlines))
  {
    hide Running, Ended, Start, RunSteps;
    StartRuns(cfg, env, seed, deadlines);
    StartIsNotOver(cfg, env, seed, deadlines);
    RunStepsEnds(cfg, cooldown, env, Start(cfg, env, seed, deadlines), 0);
  }

  lemma StartIsNotOver(cfg: Config, env: Env, seed: Transcript, deadlines: seq<nat>)
    ensures !Start(cfg, env, seed, deadlines).over
  {
  }
}

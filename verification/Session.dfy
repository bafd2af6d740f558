/** The agent loop as it runs: one object per task, updated in place, proved to follow the state machine. */
module Session {
  import opened Protocol
  import opened History
  import opened Compaction
  import opened TurnModel
  import opened Breaker
  import opened Request
  import opened AgentLoop
  import StaleReads
  import Dedup
  import Eviction
  import Passes
  import LoopOutcome
  import LoopProse

  class Session {
    const cfg: Config
    const env: Env
    const breaker: CircuitBreaker
    const transcript: Passes.HistoryBuffer
    var cursor: nat
    var total: Usage
    var roundTrips: nat
    var streak: nat
    var nudgedAt: Option<nat>
    var edited: bool
    var editNudges: nat
    var claimNudges: nat
    var liveOpsNudges: nat
    var fixAttempts: nat
    var requireTool: bool
    var opens: nat
    var sink: seq<Sent>
    ghost var trace: seq<TraceItem>
    var over: bool

    ghost function Now(): State
      reads this, transcript, breaker.deadlines
    {
      State(transcript.messages, cursor, breaker.deadlines[..], total, roundTrips, streak, nudgedAt, edited,
            editNudges, claimNudges, liveOpsNudges, fixAttempts, requireTool, opens, sink, trace, over)
    }

    ghost predicate Valid()
      reads this
    {
      cursor <= |cfg.fallbacks|
    }

    /** The pre-pass: what it cost, the plan it leaves in the transcript and what it tells the caller; the
        cursor starts at the first candidate that the breaker considers healthy. */
    constructor (cfg: Config, env: Env, breaker: CircuitBreaker, seed: Transcript)
      ensures this.cfg == cfg && this.env == env && this.breaker == breaker && fresh(transcript)
      ensures Valid() && Now() == Start(cfg, env, seed, breaker.deadlines[..])
    {
      hide PlanOf, PlanUsage, FirstAvailable, PrePassNotices;
      this.cfg, this.env, this.breaker := cfg, env, breaker;
      var plan := PlanOf(cfg, env.prePass);
      transcript := new Passes.HistoryBuffer(seed + if plan.Some? then [plan.value] else []);
      var available := breaker.FindAvailable(|cfg.fallbacks|, env.probe);
      cursor := available;
      total := Plus(if env.classifier.Some? then env.classifier.value else NO_USAGE, PlanUsage(cfg, env.prePass));
      roundTrips, streak, nudgedAt, edited, over, requireTool, opens := 0, 0, None, false, false, false, 0;
      editNudges, claimNudges, liveOpsNudges, fixAttempts, sink := 0, 0, 0, 0, [];
      trace := [PrePaid(Plus(if env.classifier.Some? then env.classifier.value else NO_USAGE, PlanUsage(cfg, env.prePass))),
                Reported(PrePassNotices(env.prePass))];
      new;
      EmitAll(PrePassNotices(env.prePass));
    }

    // ----- telling the caller -----

    method Emit(event: Event)
      modifies this`sink
      ensures sink == old(sink) + [Sent(event)]
    {
      sink := sink + [Sent(event)];
    }

    /** `flush_held`, and every other run of events sent one after the other. */
    method EmitAll(events: seq<Event>)
      modifies this`sink
      ensures Now() == Send(old(Now()), events)
    {
      for i := 0 to |events|
        invariant sink == old(sink) + LoopProse.AsSent(events[..i])
      {
        Emit(events[i]);
        assert LoopProse.AsSent(events[..i + 1]) == LoopProse.AsSent(events[..i]) + [Sent(events[i])];
      }
      assert events[..|events|] == events;
    }

    method EndInError(e: AgentError)
      modifies this`sink, this`trace, this`over
      ensures Now() == AgentLoop.Fail(old(Now()), e) && over
    {
      trace := trace + [Recorded(total, roundTrips, false, Failing(e))];
      sink := sink + [SentError(e)];
      over := true;
    }

    method EndWell(success: bool, stop: StopReason)
      modifies this`sink, this`trace, this`over
      ensures Now() == AgentLoop.Finish(old(Now()), success, stop) && over
    {
      trace := trace + [Recorded(total, roundTrips, success, Finishing(stop))];
      Emit(UsageReport(total));
      Emit(Done(stop));
      over := true;
    }

    method PushMessage(m: Message)
      modifies transcript
      ensures Now() == Push(old(Now()), m)
    {
      transcript.messages := transcript.messages + [m];
    }

    // ----- before a request -----

    method PrepareHistory(step: nat)
      modifies this`total, this`trace, transcript
      ensures Now() == Prepare(cfg, env, old(Now()), step)
    {
      hide StaleReads.MarkStale, Dedup.DedupAll, Eviction.EvictToFit, Compacted, CompactReply;
      transcript.MarkStaleReads();
      transcript.DedupToolResults();
      ghost var h := transcript.messages;
      if cfg.estimate(transcript.messages) > cfg.compactAfter {
        var compacted := CompactHistory(transcript.messages, env.summary(step));
        if compacted.Some? {
          trace := trace + [Summarised(h, compacted.value.1)];
          total := Plus(total, compacted.value.1);
          transcript.messages := compacted.value.0;
        }
      }
      if cfg.contextLimit.Some? {
        transcript.Evict(cfg.estimate, cfg.contextLimit.value);
      }
    }

    // ----- one round-trip -----

    /** Read one stream: what is neither captured nor prose is sent on at once, prose is held back. */
    method ReadStream(events: seq<Event>, turn: TurnAccumulator) returns (held: seq<Event>, forwardedAny: bool)
      requires turn.State() == EMPTY_TURN
      modifies this`sink, turn
      ensures turn.State() == Fold(events)
      ensures Now() == Send(old(Now()), Immediate(events))
      ensures held == Prose(events) && (forwardedAny <==> Forwarded(events) != [])
    {
      held, forwardedAny := [], false;
      for i := 0 to |events|
        invariant turn.State() == Fold(events[..i])
        invariant sink == old(sink) + LoopProse.AsSent(Immediate(events[..i]))
        invariant held == Prose(events[..i])
        invariant forwardedAny <==> Forwarded(events[..i]) != []
      {
        assert events[..i + 1][..i] == events[..i];
        var forward := turn.Observe(events[i]);
        if forward.Some? {
          forwardedAny := true;
          if IsProse(forward.value) {
            held := held + [forward.value];
          } else {
            Emit(forward.value);
          }
        }
      }
      assert events[..|events|] == events;
    }

    /** The stream broke with output already sent: nothing else can take over. */
    method LoseStream(ghost start: State, ghost events: seq<Event>, held: seq<Event>, error: AgentError)
      requires held == Prose(events) && Now() == Send(start, Immediate(events))
      modifies this`sink, this`trace, this`over
      ensures Now() == StreamLost(start, events, error) && over
    {
      hide Prose, Immediate;
      EmitAll(held);
      trace := trace + [Round(FailedMidway, events)];
      EndInError(error);
    }

    /** Nothing was sent: demote the candidate, and move on if there is another. */
    method DropCandidate(failedAt: nat, ghost events: seq<Event>, error: AgentError)
      requires Valid() && !over
      modifies this`cursor, this`sink, this`trace, this`over, breaker.deadlines
      ensures var t := CandidateDown(cfg, breaker.cooldownMs, old(Now()), failedAt, events, error);
              Now() == t.state && Valid() && (over <==> t.GaveUp?) && (!over ==> cursor == old(cursor) + 1)
    {
      hide AgentLoop.Fail, Applied;
      breaker.TripAt(cursor, failedAt);
      trace := trace + [BreakerChanged(Trip(cursor, failedAt))];
      if cursor == |cfg.fallbacks| {
        trace := trace + [Round(FailedMidway, events)];
        EndInError(error);
      } else {
        trace := trace + [Abandoned(events)];
        cursor := cursor + 1;
      }
    }

    method OpenStream(choice: Option<ToolChoice>)
      requires Valid()
      modifies this`opens, this`trace
      ensures Now() == Open(cfg, old(Now()), choice)
    {
      hide RequestFor;
      trace := trace + [Opened(RequestFor(cfg, Now(), choice), cursor)];
      opens := opens + 1;
    }

    /** The stream ran to its end: the candidate is healthy. */
    method KeepCandidate(ghost start: State, ghost events: seq<Event>)
      requires Valid() && Now() == Send(start, Immediate(events))
      modifies this`trace, breaker.deadlines
      ensures Now() == StreamFinished(breaker.cooldownMs, start, events)
    {
      hide Immediate, Applied;
      breaker.ResetAt(cursor);
      trace := trace + [BreakerChanged(Reset(cursor))];
    }

    /** Open a stream on the candidate at the cursor and read it to its end. */
    method TryModel(choice: Option<ToolChoice>)
      returns (turn: TurnAccumulator, held: seq<Event>, ghost events: seq<Event>, finished: bool)
      requires Valid() && !over
      modifies this`cursor, this`opens, this`sink, this`trace, this`over, breaker.deadlines
      ensures fresh(turn)
      ensures var t := TryOne(cfg, breaker.cooldownMs, env, old(Now()), choice);
              && Now() == t.state && Valid()
              && (finished <==> t.Completed?) && (over <==> t.GaveUp?) && (t.TryNext? ==> cursor == old(cursor) + 1)
              && (finished ==> events == t.events && turn.State() == Fold(events) && held == Prose(events))
    {
      hide Fold, Prose, Immediate, Forwarded, RequestFor, StreamLost, CandidateDown, Send, Applied, Open, StreamFinished;
      ghost var s := Now();
      finished := false;
      turn := new TurnAccumulator();
      var attempt := env.attempt(opens);
      var failedAt := env.now(opens);
      OpenStream(choice);
      ghost var o := Open(cfg, s, choice);
      assert Valid() by { LoopOutcome.OpenKeepsCursor(cfg, s, choice); }
      var forwardedAny := false;
      held, events := [], [];
      if attempt.Streaming? {
        events := attempt.events;
        held, forwardedAny := ReadStream(attempt.events, turn);
        if attempt.end.Finished? {
          KeepCandidate(o, events);
          finished := true;
          return;
        }
      } else {
        NoEvents();
      }
      assert events == EventsOf(attempt);
      if forwardedAny {
        LoseStream(o, events, held, FailureOf(attempt));
      } else {
        NothingSent(attempt, o);
        DropCandidate(failedAt, events, FailureOf(attempt));
      }
    }

    /** The candidates from the cursor on, until one finishes a stream or the run ends. */
    method TryModels(choice: Option<ToolChoice>) returns (turn: TurnAccumulator, held: seq<Event>, ghost events: seq<Event>)
      requires Valid() && !over
      modifies this`cursor, this`opens, this`sink, this`trace, this`over, breaker.deadlines
      ensures fresh(turn)
      ensures var t := TryCandidates(cfg, breaker.cooldownMs, env, old(Now()), choice);
              && Now() == t.state && Valid()
              && (over <==> !t.Completed?)
              && (t.Completed? ==> events == t.events && turn.State() == Fold(events) && held == Prose(events))
    {
      hide Fold, Prose, TryOne;
      var finished: bool;
      turn, held, events, finished := TryModel(choice);
      while !finished && !over
        invariant Valid() && fresh(turn) && !(finished && over)
        invariant finished ==> turn.State() == Fold(events) && held == Prose(events)
        invariant TryCandidates(cfg, breaker.cooldownMs, env, old(Now()), choice) ==
                  if finished then Completed(Now(), events) else if over then GaveUp(Now())
                  else TryCandidates(cfg, breaker.cooldownMs, env, Now(), choice)
        decreases |cfg.fallbacks| - cursor, !finished && !over
      {
        turn, held, events, finished := TryModel(choice);
      }
    }

    // ----- after a round-trip -----

    /** The answer goes back into the transcript with a nudge behind it. */
    method NudgeOn(ghost verdict: Verdict, turn: Turn, nudge: Nudge, ghost events: seq<Event>)
      modifies this`trace, transcript
      ensures Now() == Nudged(cfg, Log(old(Now()), Round(verdict, events)), turn, nudge)
    {
      hide AssistantMessage;
      trace := trace + [Round(verdict, events)];
      PushMessage(AssistantMessage(cfg.json, turn));
      PushMessage(NudgeMessage(cfg, nudge));
    }

    /** Run the turn's tools in call order; a call that may not run, or fails, is answered by an error. */
    method RunCalls(step: nat, calls: seq<ToolCall>) returns (results: Blocks, madeEdit: bool)
      modifies this`sink
      ensures results == ToolAnswers(cfg, env, step, calls, |calls|)
      ensures madeEdit == MadeEdit(cfg, env, step, calls, |calls|)
      ensures Now() == Send(old(Now()), AllToolEvents(cfg, env, step, calls, |calls|))
    {
      hide ToolAnswer, ToolEvents, EditsFile, LoopProse.AsSent;
      results, madeEdit := [], false;
      NothingToSend();
      for k := 0 to |calls|
        invariant results == ToolAnswers(cfg, env, step, calls, k)
        invariant madeEdit == MadeEdit(cfg, env, step, calls, k)
        invariant sink == old(sink) + LoopProse.AsSent(AllToolEvents(cfg, env, step, calls, k))
      {
        var block, changed := RunCall(step, calls, k);
        results := results + [block];
        madeEdit := madeEdit || changed;
        AsSentAppend(AllToolEvents(cfg, env, step, calls, k), ToolEvents(cfg, env, step, calls, k));
      }
      LoopProse.SendIs(old(Now()), AllToolEvents(cfg, env, step, calls, |calls|));
    }

    method RunCall(step: nat, calls: seq<ToolCall>, k: nat) returns (block: ContentBlock, changed: bool)
      requires k < |calls|
      modifies this`sink
      ensures block == ToolAnswer(cfg, env, step, calls, k) && changed == EditsFile(cfg, env, step, calls, k)
      ensures sink == old(sink) + LoopProse.AsSent(ToolEvents(cfg, env, step, calls, k))
    {
      var id, name := calls[k].id, calls[k].name;
      changed := false;
      if cfg.allowedTools.Some? && name !in cfg.allowedTools.value {
        block := ToolResult(id, cfg.refusalText(NotPermitted(name)), true, []);
      } else if env.denial(step, k).Some? {
        block := ToolResult(id, cfg.refusalText(Denied(name, env.denial(step, k).value)), true, []);
      } else {
        var reply := env.tool(step, k);
        EmitAll(seq(|reply.notices|, i requires 0 <= i < |reply.notices| => Notice(reply.notices[i])));
        match reply.outcome
        case Ok(out) =>
          if out.pending.Some? {
            Emit(Notice(out.pending.value));
          }
          changed := out.changed && StaleReads.IsEditTool(name);
          if out.images != [] {
            Emit(ToolResultImages(id, name, out.images));
          }
          block := ToolResult(id, out.content, out.isError, out.images);
        case Err(e) =>
          block := ToolResult(id, cfg.refusalText(ToolFailed(e)), true, []);
      }
    }

    /** The convergence levers, once the turn's tools have run. */
    method ConvergeOn(step: nat, answers: Blocks, madeEdit: bool)
      modifies this`sink, this`trace, this`over, this`nudgedAt, transcript
      ensures Now() == Converge(cfg, env, old(Now()), step, answers, madeEdit)
    {
      hide AgentLoop.Finish;
      if cfg.inLoopVerify && madeEdit && cfg.hasVerify && env.verify(step) {
        PushMessage(Message(User, answers));
        EndWell(true, EndTurn);
        return;
      }
      var results := answers;
      if cfg.noProgressLimit.Some? {
        var limit := cfg.noProgressLimit.value;
        if limit > 0 && streak >= 2 * limit {
          PushMessage(Message(User, results));
          EndWell(Verify(cfg, env, step), Other("no_progress"));
          return;
        }
        if limit > 0 && streak >= limit && nudgedAt != Some(streak) {
          results := results + [Text(cfg.nudgeText(NoProgress), false)];
          nudgedAt := Some(streak);
        }
      }
      ghost var notes := results[|answers|..];
      assert results == answers + notes;
      if cfg.budgetAware {
        var note := Text(cfg.budgetNote(roundTrips, total), false);
        assert results + [note] == answers + (notes + [note]);
        results := results + [note];
      } else {
        assert notes + [] == notes;
      }
      trace := trace + [Replied(Message(User, results))];
      PushMessage(Message(User, results));
    }

    /** Echo the turn into the transcript, run its tools and act on what they did. */
    method RunToolTurn(step: nat, turn: Turn)
      modifies this`sink, this`trace, this`over, this`edited, this`streak, this`nudgedAt, transcript
      ensures Now() == RunTools(cfg, env, old(Now()), step, turn, MadeEdit(cfg, env, step, turn.calls, |turn.calls|))
    {
      hide AssistantMessage, ToolAnswers, AllToolEvents, MadeEdit, Converge, Progressed, Log, Send;
      PushMessage(AssistantMessage(cfg.json, turn));
      var results, madeEdit := RunCalls(step, turn.calls);
      NoteProgress(madeEdit, AllToolEvents(cfg, env, step, turn.calls, |turn.calls|));
      ConvergeOn(step, results, madeEdit);
    }

    method NoteProgress(madeEdit: bool, ghost events: Reports)
      modifies this`edited, this`streak, this`nudgedAt, this`trace
      ensures Now() == Log(Progressed(old(Now()), madeEdit), Reported(events))
    {
      edited := edited || madeEdit;
      if madeEdit {
        streak, nudgedAt := 0, None;
      } else {
        streak := streak + 1;
      }
      trace := trace + [Reported(events)];
    }

    method LogRound(ghost verdict: Verdict, ghost events: seq<Event>)
      modifies this`trace
      ensures Now() == Log(old(Now()), Round(verdict, events))
    {
      trace := trace + [Round(verdict, events)];
    }

    method ActOnTools(step: nat, turn: Turn, held: seq<Event>, ghost events: seq<Event>)
      requires !over
      modifies this`sink, this`trace, this`over, this`edited, this`streak, this`nudgedAt, transcript
      ensures var v := ToolsRun(MadeEdit(cfg, env, step, turn.calls, |turn.calls|));
              Now() == Act(cfg, env, Log(old(Now()), Round(v, events)), step, turn, v, held)
    {
      hide MadeEdit, RunTools, Act, Send, Log;
      ghost var madeEdit := MadeEdit(cfg, env, step, turn.calls, |turn.calls|);
      ActOnToolRound(cfg, env, Log(Now(), Round(ToolsRun(madeEdit), events)), step, turn, madeEdit, held);
      LogRound(ToolsRun(madeEdit), events);
      EmitAll(held);
      RunToolTurn(step, turn);
    }

    /** A finished stream: count it, then the guards in the order of the loop. */
    method Conclude(step: nat, turn: Turn, held: seq<Event>, ghost events: seq<Event>)
      requires Valid() && !over && turn == Fold(events) && held == Prose(events)
      modifies this`cursor, this`total, this`roundTrips, this`streak, this`nudgedAt, this`edited, this`editNudges,
               this`claimNudges, this`liveOpsNudges, this`fixAttempts, this`requireTool, this`sink, this`trace, this`over, transcript
      ensures Now() == Settle(cfg, env, old(Now()), step, events) && Valid()
    {
      hide AssistantMessage, Fold, Prose, MadeEdit, RunTools, AgentLoop.Fail, AgentLoop.Finish, Send, Push, Nudged;
      hide ClaimsTool, VerifyOutput, Verify, Overspent;
      roundTrips := roundTrips + 1;
      total := Plus(total, turn.usage);
      assert Now() == Counted(old(Now()), turn);
      if Overspent(cfg, total) {
        trace := trace + [Round(OverBudget, events)];
        EndInError(BudgetExceeded);
      } else if turn.stop == Some(PauseTurn) && turn.calls == [] {
        trace := trace + [Round(Paused, events)];
        EmitAll(held);
        PushMessage(AssistantMessage(cfg.json, turn));
      } else if turn.calls == [] {
        ConcludeAnswer(step, turn, held, events);
      } else {
        ActOnTools(step, turn, held, events);
      }
    }

    /** A round-trip without tool calls: the live-ops guards, then the completion guards. */
    method ConcludeAnswer(step: nat, turn: Turn, held: seq<Event>, ghost events: seq<Event>)
      requires Valid() && !over && turn.calls == [] && turn.stop != Some(PauseTurn)
      requires !Overspent(cfg, total)
      modifies this`cursor, this`editNudges, this`claimNudges, this`liveOpsNudges, this`fixAttempts, this`requireTool,
               this`sink, this`trace, this`over, transcript
      ensures var v := Judge(cfg, env, step, old(Now()), turn);
              Now() == Act(cfg, env, Log(old(Now()), Round(v, events)), step, turn, v, held) && Valid()
    {
      hide AssistantMessage, Act, Judge, AgentLoop.Fail, Overspent, LiveOpsBounced;
      ghost var s := Now();
      JudgeAnswer(cfg, env, step, s, turn);
      var truncated := IsTruncated(turn.stop);
      if cfg.liveOpsAsk && liveOpsNudges < MAX_LIVE_OPS_NUDGES {
        ActOnLiveOps(cfg, env, Log(s, Round(LiveOpsNudged(truncated), events)), step, turn, truncated, held);
        BounceLiveOps(turn, truncated, events);
      } else if cfg.liveOpsAsk && cursor < |cfg.fallbacks| {
        ActOnAnswer(cfg, env, Log(s, Round(Rerouted, events)), step, turn, held);
        trace := trace + [Round(Rerouted, events)];
        cursor := cursor + 1;
        requireTool := true;
      } else if truncated {
        ActOnAnswer(cfg, env, Log(s, Round(Truncated, events)), step, turn, held);
        trace := trace + [Round(Truncated, events)];
        EndInError(ResponseIncomplete);
      } else {
        ConcludeCompletion(step, turn, held, events);
      }
    }

    method BounceLiveOps(turn: Turn, truncated: bool, ghost events: seq<Event>)
      modifies this`trace, this`liveOpsNudges, this`requireTool, transcript
      ensures Now() == LiveOpsBounced(cfg, Log(old(Now()), Round(LiveOpsNudged(truncated), events)), turn, truncated)
    {
      hide AssistantMessage, NudgeMessage;
      trace := trace + [Round(LiveOpsNudged(truncated), events)];
      liveOpsNudges := liveOpsNudges + 1;
      if !truncated {
        PushMessage(AssistantMessage(cfg.json, turn));
      }
      PushMessage(NudgeMessage(cfg, LiveOps));
      requireTool := true;
    }

    /** A complete answer: the false-claim and no-edit guards, then the verify gate. */
    method ConcludeCompletion(step: nat, turn: Turn, held: seq<Event>, ghost events: seq<Event>)
      requires Valid() && !over && IsCompletion(cfg, Now(), turn)
      modifies this`editNudges, this`claimNudges, this`fixAttempts, this`sink, this`trace, this`over, transcript
      ensures var v := Judge(cfg, env, step, old(Now()), turn);
              Now() == Act(cfg, env, Log(old(Now()), Round(v, events)), step, turn, v, held) && Valid()
    {
      hide AssistantMessage, Act, AgentLoop.Finish, Send, Nudged, ClaimsTool, VerifyOutput, Verify, Overspent, Fails, Judge;
      ghost var s := Now();
      JudgeCompletion(cfg, env, step, s, turn);
      if ClaimsTool(cfg, turn.text) && claimNudges < MAX_TOOL_CLAIM_NUDGES {
        ActOnCompletion(cfg, env, Log(s, Round(ClaimNudged, events)), step, turn, held);
        NudgeOn(ClaimNudged, turn, FalseClaim, events);
        claimNudges := claimNudges + 1;
      } else if cfg.requireEdit && !edited && cfg.editTask && editNudges < MAX_EDIT_NUDGES {
        ActOnCompletion(cfg, env, Log(s, Round(EditNudged, events)), step, turn, held);
        NudgeOn(EditNudged, turn, NoEdit, events);
        editNudges := editNudges + 1;
      } else {
        VerifyOrAccept(step, turn, held, events);
      }
    }

    /** The verify-and-fix gate, and acceptance. */
    method VerifyOrAccept(step: nat, turn: Turn, held: seq<Event>, ghost events: seq<Event>)
      modifies this`fixAttempts, this`sink, this`trace, this`over, transcript
      ensures var v := if cfg.verifyAndFix && old(fixAttempts) < MAX_FIX_ATTEMPTS && Fails(VerifyOutput(cfg, env, step))
                       then FixNudged else Accepted;
              Now() == Act(cfg, env, Log(old(Now()), Round(v, events)), step, turn, v, held)
    {
      hide AssistantMessage, Act, AgentLoop.Finish, Send, Nudged, VerifyOutput, Verify, Fails, Output;
      ghost var s := Now();
      if cfg.verifyAndFix && fixAttempts < MAX_FIX_ATTEMPTS {
        var outcome := VerifyOutput(cfg, env, step);
        if Fails(outcome) {
          ActOnCompletion(cfg, env, Log(s, Round(FixNudged, events)), step, turn, held);
          NudgeOn(FixNudged, turn, VerifyFailed(Output(outcome)), events);
          fixAttempts := fixAttempts + 1;
          return;
        }
      }
      ActOnCompletion(cfg, env, Log(s, Round(Accepted, events)), step, turn, held);
      Accept(step, turn, held, events);
    }

    /** The answer stands: show it, verify the work and end. */
    method Accept(step: nat, turn: Turn, held: seq<Event>, ghost events: seq<Event>)
      modifies this`sink, this`trace, this`over
      ensures Now() == Finish(Send(Log(old(Now()), Round(Accepted, events)), held), Verify(cfg, env, step),
                              if turn.stop.Some? then turn.stop.value else EndTurn)
    {
      hide AgentLoop.Finish, Send, Verify;
      trace := trace + [Round(Accepted, events)];
      EmitAll(held);
      EndWell(Verify(cfg, env, step), if turn.stop.Some? then turn.stop.value else EndTurn);
    }

    // ----- the whole run -----

    /** One turn of the loop: the passes, one stream, and what follows from it. */
    method TakeStep(step: nat)
      requires Valid() && !over
      modifies this, transcript, breaker.deadlines
      ensures Now() == Step(cfg, breaker.cooldownMs, env, old(Now()), step) && Valid()
    {
      hide Prepare, TryCandidates, Settle, Fold, Prose;
      ghost var s := Now();
      PrepareHistory(step);
      var choice := if requireTool then Some(Required) else None;
      requireTool := false;
      assert Valid() by { LoopOutcome.PrepareKeepsCursor(cfg, env, s, step); }
      var turn, held: seq<Event>;
      ghost var events;
      turn, held, events := TryModels(choice);
      if !over {
        Conclude(step, turn.State(), held, events);
      }
    }

    /** `run_loop`, from the state after the pre-pass to the end. */
    method RunToEnd()
      requires Valid() && !over
      modifies this, transcript, breaker.deadlines
      ensures Now() == RunSteps(cfg, breaker.cooldownMs, env, old(Now()), 0) && over
    {
      hide Step, AgentLoop.Finish;
      ghost var before := Now();
      for step := 0 to cfg.maxSteps
        invariant Valid() && !over
        invariant RunSteps(cfg, breaker.cooldownMs, env, Now(), step) == RunSteps(cfg, breaker.cooldownMs, env, before, 0)
      {
        TakeStep(step);
        if over {
          return;
        }
      }
      EndWell(false, Other("max_steps"));
    }
  }

  /** A task on a shared breaker: what the caller saw, what the run did and what it left in the breaker are
      those of the state machine. */
  method RunTask(cfg: Config, env: Env, breaker: CircuitBreaker, seed: Transcript)
    returns (sink: seq<Sent>, ghost trace: seq<TraceItem>)
    modifies breaker.deadlines
    ensures var s := Run(cfg, breaker.cooldownMs, env, seed, old(breaker.deadlines[..]));
            sink == s.sink && trace == s.trace && breaker.deadlines[..] == s.deadlines
    ensures LoopOutcome.Outcomes(trace) == 1 && LoopOutcome.Terminated(sink, LoopOutcome.Spent(trace))
    ensures trace[|trace| - 1].Recorded? && trace[|trace| - 1].total == LoopOutcome.Spent(trace)
  {
    hide RunSteps, Start, LoopOutcome.Outcomes, LoopOutcome.Terminated, LoopOutcome.Spent;
    var session := new Session(cfg, env, breaker, seed);
    assert !session.over by { LoopOutcome.StartIsNotOver(cfg, env, seed, breaker.deadlines[..]); }
    session.RunToEnd();
    sink, trace := session.sink, session.trace;
    LoopOutcome.EveryRunEndsOnce(cfg, breaker.cooldownMs, env, seed, old(breaker.deadlines[..]));
  }

  lemma NoEvents()
    ensures Forwarded([]) == []
  {
  }

  lemma JudgeAnswer(cfg: Config, env: Env, step: nat, s: State, turn: Turn)
    requires turn.calls == [] && turn.stop != Some(PauseTurn) && !Overspent(cfg, s.total)
    ensures cfg.liveOpsAsk && s.liveOpsNudges < MAX_LIVE_OPS_NUDGES ==>
              Judge(cfg, env, step, s, turn) == LiveOpsNudged(IsTruncated(turn.stop))
    ensures cfg.liveOpsAsk && s.liveOpsNudges >= MAX_LIVE_OPS_NUDGES && s.cursor < |cfg.fallbacks| ==>
              Judge(cfg, env, step, s, turn) == Rerouted
    ensures !(cfg.liveOpsAsk && (s.liveOpsNudges < MAX_LIVE_OPS_NUDGES || s.cursor < |cfg.fallbacks|)) && IsTruncated(turn.stop) ==>
              Judge(cfg, env, step, s, turn) == Truncated
  {
  }

  lemma ActOnToolRound(cfg: Config, env: Env, s: State, step: nat, turn: Turn, edited: bool, held: seq<Event>)
    ensures Act(cfg, env, s, step, turn, ToolsRun(edited), held) == RunTools(cfg, env, Send(s, held), step, turn, edited)
  {
    hide RunTools, Send;
  }

  lemma ActOnLiveOps(cfg: Config, env: Env, s: State, step: nat, turn: Turn, truncated: bool, held: seq<Event>)
    ensures Act(cfg, env, s, step, turn, LiveOpsNudged(truncated), held) == LiveOpsBounced(cfg, s, turn, truncated)
  {
    hide LiveOpsBounced;
  }

  lemma ActOnAnswer(cfg: Config, env: Env, s: State, step: nat, turn: Turn, held: seq<Event>)
    ensures s.cursor < |cfg.fallbacks| ==>
              Act(cfg, env, s, step, turn, Rerouted, held) == s.(cursor := s.cursor + 1, requireTool := true)
    ensures Act(cfg, env, s, step, turn, Truncated, held) == Fail(s, ResponseIncomplete)
  {
    hide Fail;
  }

  /** Within budget, no tool call, no pause, not cut short, and no live-ops guard left to apply. */
  predicate IsCompletion(cfg: Config, s: State, turn: Turn) {
    && turn.calls == [] && turn.stop != Some(PauseTurn) && !IsTruncated(turn.stop)
    && !Overspent(cfg, s.total)
    && !(cfg.liveOpsAsk && (s.liveOpsNudges < MAX_LIVE_OPS_NUDGES || s.cursor < |cfg.fallbacks|))
  }

  lemma JudgeCompletion(cfg: Config, env: Env, step: nat, s: State, turn: Turn)
    requires IsCompletion(cfg, s, turn)
    ensures Judge(cfg, env, step, s, turn) ==
            if ClaimsTool(cfg, turn.text) && s.claimNudges < MAX_TOOL_CLAIM_NUDGES then ClaimNudged
            else if cfg.requireEdit && !s.edited && cfg.editTask && s.editNudges < MAX_EDIT_NUDGES then EditNudged
            else if cfg.verifyAndFix && s.fixAttempts < MAX_FIX_ATTEMPTS && Fails(VerifyOutput(cfg, env, step)) then FixNudged
            else Accepted
  {
  }

  lemma ActOnCompletion(cfg: Config, env: Env, s: State, step: nat, turn: Turn, held: seq<Event>)
    ensures Act(cfg, env, s, step, turn, ClaimNudged, held) == Nudged(cfg, s, turn, FalseClaim).(claimNudges := s.claimNudges + 1)
    ensures Act(cfg, env, s, step, turn, EditNudged, held) == Nudged(cfg, s, turn, NoEdit).(editNudges := s.editNudges + 1)
    ensures Act(cfg, env, s, step, turn, FixNudged, held) ==
            Nudged(cfg, s, turn, VerifyFailed(Output(VerifyOutput(cfg, env, step)))).(fixAttempts := s.fixAttempts + 1)
    ensures Act(cfg, env, s, step, turn, Accepted, held) ==
            Finish(Send(s, held), Verify(cfg, env, step), if turn.stop.Some? then turn.stop.value else EndTurn)
  {
    hide Nudged, Send, Finish;
  }

  lemma NothingToSend()
    ensures LoopProse.AsSent([]) == []
  {
  }

  lemma AsSentAppend(a: seq<Event>, b: seq<Event>)
    ensures LoopProse.AsSent(a + b) == LoopProse.AsSent(a) + LoopProse.AsSent(b)
  {
  }

  lemma NothingSent(a: Attempt, s: State)
    requires Forwarded(EventsOf(a)) == []
    ensures Immediate(EventsOf(a)) == [] && Send(s, []) == s
  {
    NothingForwarded(EventsOf(a));
  }
}

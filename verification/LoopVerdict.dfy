/** Every run keeps the rules of `LoopRules`. */
module LoopVerdict {
  import opened Strings
  import opened Protocol
  import opened History
  import opened Compaction
  import opened TurnModel
  import opened Breaker
  import opened Request
  import opened AgentLoop
  import opened LoopBounds
  import opened LoopRules
  import StaleReads
  import Dedup
  import Eviction
  import LoopOutcome

  // ----- a folded turn against its stream -----

  /** A folded turn holds the calls that were started, each with what was said under its id, and finds an
      id at its latest start. */
  predicate HoldsCalls(t: Turn, events: seq<Event>) {
    var starts := Starts(events);
    && |t.calls| == |starts|
    && (forall k | 0 <= k < |starts| :: t.calls[k] == ToolCall(starts[k].id, starts[k].name, ArgsSaid(events, k)))
    && (forall k | 0 <= k < |starts| :: starts[k].id in t.byId)
    && (forall id | id in t.byId :: t.byId[id] < |starts| && starts[t.byId[id]].id == id && IsCurrent(starts, t.byId[id]))
  }

  /** The calls of a folded turn are those started, under their ids and names. */
  predicate SameCalls(calls: seq<ToolCall>, starts: seq<Event>)
    requires forall k | 0 <= k < |starts| :: starts[k].ToolUseStart?
  {
    |calls| == |starts| && forall k | 0 <= k < |calls| :: calls[k].id == starts[k].id && calls[k].name == starts[k].name
  }

  lemma ObserveHolds(t: Turn, rest: seq<Event>, e: Event)
    requires t.Valid() && HoldsCalls(t, rest)
    ensures HoldsCalls(Observed(t, e), rest + [e])
  {
    hide HoldsCalls, Starts, ArgsSaid;
    match e
    case ToolUseDelta(id, json) => PieceHolds(t, rest, id, json);
    case ToolUseStart(id, name) => StartHolds(t, rest, id, name);
    case _ => OtherHolds(t, rest, e);
  }

  lemma OtherHolds(t: Turn, rest: seq<Event>, e: Event)
    requires t.Valid() && HoldsCalls(t, rest) && !e.ToolUseDelta? && !e.ToolUseStart?
    ensures HoldsCalls(Observed(t, e), rest + [e])
  {
    hide Starts, ArgsSaid;
    StartsSnoc(rest, e);
    forall k | 0 <= k < |Starts(rest)|
      ensures ArgsSaid(rest + [e], k) == ArgsSaid(rest, k)
    {
      ArgsSnoc(rest, e, k);
    }
  }

  lemma StartHolds(t: Turn, rest: seq<Event>, id: string, name: string)
    requires t.Valid() && HoldsCalls(t, rest)
    ensures HoldsCalls(Observed(t, ToolUseStart(id, name)), rest + [ToolUseStart(id, name)])
  {
    hide Starts, ArgsSaid;
    var e := ToolUseStart(id, name);
    StartsSnoc(rest, e);
    forall k | 0 <= k <= |Starts(rest)|
      ensures ArgsSaid(rest + [e], k) == if k < |Starts(rest)| then ArgsSaid(rest, k) else ""
    {
      ArgsSnoc(rest, e, k);
    }
  }

  lemma PieceHolds(t: Turn, rest: seq<Event>, id: string, json: string)
    requires t.Valid() && HoldsCalls(t, rest)
    ensures HoldsCalls(Observed(t, ToolUseDelta(id, json)), rest + [ToolUseDelta(id, json)])
  {
    hide Starts, ArgsSaid;
    var e, starts := ToolUseDelta(id, json), Starts(rest);
    StartsSnoc(rest, e);
    assert starts + [] == starts;
    forall k | 0 <= k < |starts|
      ensures Observed(t, e).calls[k] == ToolCall(starts[k].id, starts[k].name, ArgsSaid(rest + [e], k))
    {
      ArgsSnoc(rest, e, k);
      assert id == starts[k].id && IsCurrent(starts, k) <==> id in t.byId && t.byId[id] == k;
    }
  }

  lemma StartsSnoc(rest: seq<Event>, e: Event)
    ensures Starts(rest + [e]) == Starts(rest) + (if e.ToolUseStart? then [e] else [])
  {
    assert (rest + [e])[..|rest|] == rest;
  }

  lemma ArgsSnoc(rest: seq<Event>, e: Event, k: nat)
    ensures ArgsSaid(rest + [e], k) ==
            if k >= |Starts(rest)| then ""
            else if e.ToolUseDelta? && e.id == Starts(rest)[k].id && IsCurrent(Starts(rest), k) then ArgsSaid(rest, k) + e.json
            else ArgsSaid(rest, k)
  {
    hide Starts, IsCurrent;
    assert (rest + [e])[..|rest|] == rest;
  }

  lemma {:induction false} FoldReads(events: seq<Event>)
    ensures Fold(events).stop == LastStop(events) && HoldsCalls(Fold(events), events)
    ensures SameCalls(Fold(events).calls, Starts(events))
  {
    hide HoldsCalls;
    if events == [] {
      NothingHeld();
    } else {
      var n := |events| - 1;
      FoldReads(events[..n]);
      ObserveHolds(Fold(events[..n]), events[..n], events[n]);
      assert events[..n] + [events[n]] == events;
    }
  }

  lemma NothingHeld()
    ensures HoldsCalls(EMPTY_TURN, [])
  {
  }

  lemma {:induction false} BlocksOfCalls(json: JsonText, calls: seq<ToolCall>)
    ensures |CallBlocks(json, calls)| == |calls|
    ensures forall k | 0 <= k < |calls| ::
              CallBlocks(json, calls)[k] == ToolUse(calls[k].id, calls[k].name, ParsedArgs(json, calls[k].args))
  {
    hide ParsedArgs;
    if calls != [] {
      BlocksOfCalls(json, calls[..|calls| - 1]);
    }
  }

  /** The message made of a folded stream is what the stream says. */
  lemma TurnIsSpoken(json: JsonText, events: seq<Event>)
    ensures AssistantMessage(json, Fold(events)) == Spoken(json, events)
  {
    hide Fold, TextOf, Starts, ArgsSaid, IsBlank, CallBlocks, ParsedArgs, InputSaid;
    var calls := Fold(events).calls;
    FoldKeeps(events);
    FoldReads(events);
    BlocksOfCalls(json, calls);
    forall k | 0 <= k < |calls|
      ensures ParsedArgs(json, calls[k].args) == InputSaid(json, calls[k].args)
    {
      InputIsParsed(json, calls[k].args);
    }
    var uses := seq(|calls|, k requires 0 <= k < |calls| => ToolUse(calls[k].id, calls[k].name, ParsedArgs(json, calls[k].args)));
    assert CallBlocks(json, calls) == uses;
    assert Spoken(json, events).content[|Spoken(json, events).content| - |calls|..] == uses;
  }

  lemma InputIsParsed(json: JsonText, args: string)
    ensures ParsedArgs(json, args) == InputSaid(json, args)
  {
    hide Trim, IsBlank;
    BlankExactly(args);
  }

  lemma {:induction false} MadeEditMeans(cfg: Config, env: Env, step: nat, calls: seq<ToolCall>, n: nat)
    requires n <= |calls|
    ensures MadeEdit(cfg, env, step, calls, n) <==> exists k | 0 <= k < n :: ChangedFile(cfg, env, step, calls[k].name, k)
  {
    if n > 0 {
      MadeEditMeans(cfg, env, step, calls, n - 1);
      assert EditsFile(cfg, env, step, calls, n - 1) <==> ChangedFile(cfg, env, step, calls[n - 1].name, n - 1);
    }
  }

  // ----- the invariant -----

  /** The transcript is what has been heard. */
  predicate Keeps(cfg: Config, env: Env, seed: Transcript, s: State) {
    Heard(cfg, env, seed, s.trace) == s.history
  }

  predicate Remembers(s: State) {
    && s.liveOpsNudges == Given(s.trace, LiveOpsKind) && s.claimNudges == Given(s.trace, ClaimKind)
    && s.editNudges == Given(s.trace, EditKind) && s.fixAttempts == Given(s.trace, FixKind)
    && (s.edited <==> EverEdited(s.trace))
  }

  /** The counters agree with the trace, the trace keeps the rules, and nothing forces the run to close. */
  predicate Known(cfg: Config, env: Env, seed: Transcript, s: State) {
    && AllRuled(cfg, env, seed, s.trace) && CloseDue(cfg, env, s.trace).None?
    && Remembers(s) && Booked(s) && Opens(s.trace) == s.opens && EditFree(s.trace) == s.streak
  }

  predicate Told(cfg: Config, env: Env, seed: Transcript, s: State) {
    Known(cfg, env, seed, s) && Keeps(cfg, env, seed, s)
  }

  // ----- elementary steps -----

  lemma ReadSnoc(trace: seq<TraceItem>, x: TraceItem)
    ensures forall kind :: Given(trace + [x], kind) == Given(trace, kind) + (if x.Round? && IsKind(x.verdict, kind) then 1 else 0)
    ensures EverEdited(trace + [x]) <==> EverEdited(trace) || (x.Round? && x.verdict == ToolsRun(true))
    ensures LastRound(trace + [x]) == if x.Round? then Some(x.verdict) else LastRound(trace)
    ensures LastCandidate(trace + [x]) == if x.Opened? then x.candidate else LastCandidate(trace)
  {
    var t := trace + [x];
    assert t[..|trace|] == trace && t[|trace|] == x;
    assert forall i | 0 <= i < |trace| :: t[i] == trace[i];
  }

  lemma HeardSnoc(cfg: Config, env: Env, seed: Transcript, trace: seq<TraceItem>, x: TraceItem)
    ensures Heard(cfg, env, seed, trace + [x]) == HeardAfter(cfg, env, Heard(cfg, env, seed, trace), trace, x)
  {
    hide HeardAfter;
    assert (trace + [x])[..|trace|] == trace;
  }

  lemma CloseSnoc(cfg: Config, env: Env, trace: seq<TraceItem>, x: TraceItem)
    requires !x.Round? && !(x.Reported? && EndsInRound(trace))
    ensures CloseDue(cfg, env, trace + [x]).None?
  {
    hide LastStop;
  }

  lemma RuleSnoc(cfg: Config, env: Env, seed: Transcript, trace: seq<TraceItem>, x: TraceItem)
    requires AllRuled(cfg, env, seed, trace) && Rule(cfg, env, seed, trace, x)
    ensures AllRuled(cfg, env, seed, trace + [x])
  {
    hide Rule;
    forall i | 0 <= i <= |trace|
      ensures Rule(cfg, env, seed, (trace + [x])[..i], (trace + [x])[i])
    {
      assert (trace + [x])[..i] == trace[..i];
      assert trace[..|trace|] == trace;
    }
  }

  /** An item that neither closes a run nor speaks to the model. */
  predicate IsSilent(x: TraceItem) {
    x.BreakerChanged? || x.Abandoned?
  }

  /** An item other than a round-trip and the report behind it keeps the books. */
  lemma KnownSnoc(cfg: Config, env: Env, seed: Transcript, s: State, x: TraceItem, r: State)
    requires Known(cfg, env, seed, s) && Rule(cfg, env, seed, s.trace, x) && !x.Round? && !(x.Reported? && EndsInRound(s.trace))
    requires r.trace == s.trace + [x] && r.total == Plus(s.total, LoopOutcome.ItemUsage(x))
    requires r == s.(trace := r.trace, total := r.total, history := r.history,
                     opens := s.opens + if x.Opened? then 1 else 0)
    ensures Known(cfg, env, seed, r) && LastRound(r.trace) == LastRound(s.trace) && !EndsInRound(r.trace)
    ensures LastCandidate(r.trace) == if x.Opened? then x.candidate else LastCandidate(s.trace)
  {
    hide Given, EverEdited, LastRound, LastCandidate, Heard, CloseDue, AllRuled, RoundTrips, LoopOutcome.Spent, Opens, EditFree;
    hide Rule, Plus, LoopOutcome.ItemUsage;
    Snoc(s.trace, x);
    ReadSnoc(s.trace, x);
    EndsSnoc(s.trace, x);
    CloseSnoc(cfg, env, s.trace, x);
    RuleSnoc(cfg, env, seed, s.trace, x);
  }

  lemma SilentRuled(cfg: Config, env: Env, seed: Transcript, before: seq<TraceItem>, x: TraceItem)
    requires CloseDue(cfg, env, before).None? && IsSilent(x)
    ensures Rule(cfg, env, seed, before, x)
  {
    hide CloseDue;
  }

  lemma SilentHeard(cfg: Config, env: Env, seed: Transcript, before: seq<TraceItem>, x: TraceItem)
    requires IsSilent(x)
    ensures Heard(cfg, env, seed, before + [x]) == Heard(cfg, env, seed, before)
  {
    hide Heard;
    HeardSnoc(cfg, env, seed, before, x);
  }

  lemma LogSilent(cfg: Config, env: Env, seed: Transcript, s: State, x: TraceItem)
    requires Told(cfg, env, seed, s) && IsSilent(x) && LoopOutcome.ItemUsage(x) == NO_USAGE && !EndsInRound(s.trace)
    ensures Told(cfg, env, seed, Log(s, x))
    ensures LastRound(s.trace + [x]) == LastRound(s.trace) && LastCandidate(s.trace + [x]) == LastCandidate(s.trace)
  {
    hide Heard, Rule, Plus, LoopOutcome.ItemUsage, LastRound, LastCandidate;
    assert CloseDue(cfg, env, s.trace).None? by { KnownOpen(cfg, env, seed, s); }
    hide Known;
    SilentRuled(cfg, env, seed, s.trace, x);
    SilentHeard(cfg, env, seed, s.trace, x);
    PlusNothing(s.total);
    KnownSnoc(cfg, env, seed, s, x, Log(s, x));
  }

  lemma KnownOpen(cfg: Config, env: Env, seed: Transcript, s: State)
    requires Known(cfg, env, seed, s)
    ensures CloseDue(cfg, env, s.trace).None? && RoundTrips(s.trace) == s.roundTrips && Opens(s.trace) == s.opens
  {
    hide AllRuled, CloseDue, Remembers, RoundTrips, LoopOutcome.Spent, Opens, EditFree;
  }

  /** The trace keeps the rules, and the transcript is what it tells. */
  predicate Lawful(cfg: Config, env: Env, seed: Transcript, s: State) {
    AllRuled(cfg, env, seed, s.trace) && Keeps(cfg, env, seed, s)
  }

  /** The run closes as it must. */
  lemma Closes(cfg: Config, env: Env, seed: Transcript, s: State, x: TraceItem, r: State)
    requires Lawful(cfg, env, seed, s) && CloseRule(cfg, env, s.trace, x) && !EndsInReport(s.trace)
    requires CloseDue(cfg, env, s.trace).None? ==> RoundTrips(s.trace) == cfg.maxSteps
    requires r.trace == s.trace + [x] && r.history == s.history
    ensures Lawful(cfg, env, seed, r)
  {
    hide CloseDue, AllRuled, RoundTrips, LoopOutcome.Spent, Heard;
    RuleSnoc(cfg, env, seed, s.trace, x);
    HeardSnoc(cfg, env, seed, s.trace, x);
  }

  // ----- before a request -----

  /** The next request is about to be sent. */
  predicate MayOpen(cfg: Config, env: Env, seed: Transcript, s: State) {
    && Known(cfg, env, seed, s) && !EndsInRound(s.trace) && NoneMissed(cfg, env, seed, s.trace)
    && s.history == ToSend(cfg, Heard(cfg, env, seed, s.trace), s.trace)
  }

  lemma ShortIsCompacted(h: Transcript, summary: string)
    requires |h| >= 7
    ensures Shortened(h, summary) == Compacted(h, summary)
  {
  }

  lemma SummaryRuled(cfg: Config, env: Env, seed: Transcript, s: State, h: Transcript)
    requires Told(cfg, env, seed, s) && h == Tidied(s.history) && SummaryDue(cfg, env, s.roundTrips, h)
    ensures Rule(cfg, env, seed, s.trace, Summarised(h, UsageOf(env.summary(s.roundTrips).events)))
  {
    hide Heard, CloseDue, RoundTrips, Tidied, TextOf, UsageOf, IsBlank;
    KnownOpen(cfg, env, seed, s);
    hide Known;
  }

  lemma SummaryHeard(cfg: Config, env: Env, seed: Transcript, s: State, h: Transcript, usage: Usage)
    requires Told(cfg, env, seed, s) && h == Tidied(s.history) && SummaryDue(cfg, env, s.roundTrips, h)
    ensures Heard(cfg, env, seed, s.trace + [Summarised(h, usage)]) == Compacted(h, TextOf(env.summary(s.roundTrips).events))
  {
    hide Heard, CloseDue, RoundTrips, Tidied, TextOf, IsBlank, Compacted, Shortened;
    KnownOpen(cfg, env, seed, s);
    hide Known;
    HeardSnoc(cfg, env, seed, s.trace, Summarised(h, usage));
    ShortIsCompacted(h, TextOf(env.summary(s.roundTrips).events));
  }

  lemma SummarisedKnown(cfg: Config, env: Env, seed: Transcript, s: State, h: Transcript)
    requires Told(cfg, env, seed, s) && !EndsInRound(s.trace) && h == Tidied(s.history)
    requires SummaryDue(cfg, env, s.roundTrips, h)
    ensures var events := env.summary(s.roundTrips).events;
            var x := Summarised(h, UsageOf(events));
            && Known(cfg, env, seed, Log(s, x).(total := Plus(s.total, UsageOf(events)))) && LastRound(s.trace + [x]) == LastRound(s.trace)
            && Heard(cfg, env, seed, s.trace + [x]) == Compacted(h, TextOf(events)) && !EndsInRound(s.trace + [x])
  {
    hide Heard, Known, Rule, LastRound, LastCandidate, Tidied, TextOf, UsageOf, IsBlank, Compacted, Plus;
    var events := env.summary(s.roundTrips).events;
    var x := Summarised(h, UsageOf(events));
    SummaryRuled(cfg, env, seed, s, h);
    SummaryHeard(cfg, env, seed, s, h, UsageOf(events));
    KnownSnoc(cfg, env, seed, s, x, Log(s, x).(total := Plus(s.total, UsageOf(events))));
  }

  lemma SummaryWhenDue(cfg: Config, env: Env, h: Transcript, step: nat)
    ensures SummaryDue(cfg, env, step, h) <==> cfg.estimate(h) > cfg.compactAfter && CompactReply(h, env.summary(step)).Some?
    ensures var reply := env.summary(step);
            SummaryDue(cfg, env, step, h) ==>
              reply.Streamed? && CompactReply(h, reply) == Some(Answer(TextOf(reply.events), UsageOf(reply.events)))
  {
    hide Trim, IsBlank, TextOf, UsageOf;
    if env.summary(step).Streamed? {
      BlankExactly(TextOf(env.summary(step).events));
    }
  }

  lemma PrepareTold(cfg: Config, env: Env, seed: Transcript, s: State, step: nat)
    requires Ready(cfg, env, seed, s) && step == s.roundTrips
    ensures var p := Prepare(cfg, env, s, step);
            && MayOpen(cfg, env, seed, p) && LastRound(p.trace) == LastRound(s.trace)
            && p == s.(history := p.history, total := p.total, trace := p.trace)
  {
    hide Known, Heard, LastRound, RoundTrips, CompactReply, SummaryDue, Compacted, Plus, UsageOf, TextOf, AtRest, ToolNeeded;
    assert !EndsInRound(s.trace) by { AtRestMeans(s.trace); }
    hide EndsInRound;
    hide StaleReads.MarkStale, Dedup.DedupAll, Eviction.EvictToFit;
    var h := Tidied(s.history);
    SummaryWhenDue(cfg, env, h, step);
    KnownOpen(cfg, env, seed, s);
    var p := Prepare(cfg, env, s, step);
    if SummaryDue(cfg, env, step, h) {
      SummarisedKnown(cfg, env, seed, s, h);
      var events := env.summary(step).events;
      var x := Summarised(h, UsageOf(events));
      assert EndsSummarised(s.trace + [x]);
      HistoryAside(cfg, env, seed, Log(s, x).(total := Plus(s.total, UsageOf(events))), p);
    } else {
      HistoryAside(cfg, env, seed, s, p);
    }
  }

  lemma AtRestMeans(trace: seq<TraceItem>)
    requires AtRest(trace)
    ensures !EndsInRound(trace)
  {
  }

  lemma FlagAside(cfg: Config, env: Env, seed: Transcript, s: State)
    requires MayOpen(cfg, env, seed, s)
    ensures MayOpen(cfg, env, seed, s.(requireTool := false))
  {
    hide Given, EverEdited, CloseDue, AllRuled, RoundTrips, LoopOutcome.Spent, Opens, EditFree, NoneMissed, ToSend, Heard;
  }

  /** The next candidate is sent the same. */
  lemma AbandonedMayOpen(cfg: Config, env: Env, seed: Transcript, s: State)
    requires Told(cfg, env, seed, s) && EndsAbandoned(s.trace)
    ensures MayOpen(cfg, env, seed, s)
  {
    hide Known, Heard;
  }

  /** The books do not depend on the transcript. */
  lemma HistoryAside(cfg: Config, env: Env, seed: Transcript, s: State, t: State)
    requires Known(cfg, env, seed, s) && t == s.(history := t.history)
    ensures Known(cfg, env, seed, t)
  {
    hide Given, EverEdited, CloseDue, AllRuled, RoundTrips, LoopOutcome.Spent, Opens, EditFree;
  }

  // ----- opening and reading streams -----

  lemma OpenTold(cfg: Config, env: Env, seed: Transcript, s: State, choice: Option<ToolChoice>)
    requires s.cursor <= |cfg.fallbacks| && MayOpen(cfg, env, seed, s)
    requires choice == if ToolNeeded(s.trace) then Some(Required) else None
    ensures var o := Open(cfg, s, choice);
            && Told(cfg, env, seed, o) && LastRound(o.trace) == LastRound(s.trace) && LastCandidate(o.trace) == s.cursor
            && !EndsInRound(o.trace) && Opens(o.trace) == s.opens + 1
            && o == s.(trace := o.trace, opens := s.opens + 1)
  {
    hide Heard, Known, Rule, LastRound, LastCandidate, ToSend, NoneMissed, RequestFor, Plus;
    var x := Opened(RequestFor(cfg, s, choice), s.cursor);
    OpenRuled(cfg, env, seed, s, choice);
    HeardSnoc(cfg, env, seed, s.trace, x);
    PlusNothing(s.total);
    KnownSnoc(cfg, env, seed, s, x, Open(cfg, s, choice));
    KnownOpen(cfg, env, seed, Open(cfg, s, choice));
  }

  lemma OpenRuled(cfg: Config, env: Env, seed: Transcript, s: State, choice: Option<ToolChoice>)
    requires s.cursor <= |cfg.fallbacks| && MayOpen(cfg, env, seed, s)
    requires choice == if ToolNeeded(s.trace) then Some(Required) else None
    ensures Rule(cfg, env, seed, s.trace, Opened(RequestFor(cfg, s, choice), s.cursor))
  {
    hide Heard, CloseDue, AllRuled, RequestFor, RequestRule, NoneMissed, Remembers, Booked, ToSend;
    RequestRuled(cfg, env, seed, s, choice);
  }

  lemma RequestRuled(cfg: Config, env: Env, seed: Transcript, s: State, choice: Option<ToolChoice>)
    requires s.cursor <= |cfg.fallbacks| && MayOpen(cfg, env, seed, s)
    requires choice == if ToolNeeded(s.trace) then Some(Required) else None
    ensures RequestRule(cfg, env, seed, s.trace, RequestFor(cfg, s, choice), s.cursor)
  {
    hide Heard, LastRound, RoundTrips, ToSend, Known, NoneMissed, Carries;
    KnownOpen(cfg, env, seed, s);
    SkeletonCarried(s.history, cfg.settings.skeleton, cfg.caching(s.cursor));
  }

  lemma SkeletonCarried(h: Transcript, skeleton: Option<string>, caching: bool)
    ensures Carries(WithSkeleton(h, skeleton, caching), h, skeleton, caching)
  {
    forall i | 0 <= i < |h|
      ensures [] + h[i].content == h[i].content
    {
    }
  }

  lemma FinishedTold(cfg: Config, cooldown: nat, env: Env, seed: Transcript, s: State, events: seq<Event>)
    requires Told(cfg, env, seed, s) && !EndsInRound(s.trace)
    ensures var f := StreamFinished(cooldown, s, events);
            && Told(cfg, env, seed, f) && LastRound(f.trace) == LastRound(s.trace) && LastCandidate(f.trace) == LastCandidate(s.trace)
            && !EndsInRound(f.trace) && f.opens == s.opens && f.roundTrips == s.roundTrips && f.cursor == s.cursor && f.over == s.over
            && f.requireTool == s.requireTool && f.streak == s.streak
  {
    hide Immediate, Applied, Told, LastRound, LastCandidate;
    var i := Send(s, Immediate(events));
    SameTold(cfg, env, seed, s, i);
    LogSilent(cfg, env, seed, i, BreakerChanged(Reset(s.cursor)));
    SameTold(cfg, env, seed, Log(i, BreakerChanged(Reset(s.cursor))), StreamFinished(cooldown, s, events));
  }

  /** What is sent, the breaker and the flags of the next step do not matter. */
  lemma SameTold(cfg: Config, env: Env, seed: Transcript, s: State, t: State)
    requires Told(cfg, env, seed, s)
    requires t == s.(sink := t.sink, deadlines := t.deadlines, cursor := t.cursor, requireTool := t.requireTool)
    ensures Told(cfg, env, seed, t)
  {
    hide Given, EverEdited, Heard, CloseDue, AllRuled, RoundTrips, LoopOutcome.Spent, Opens, EditFree;
  }

  /** A stream that failed is a failed round-trip, and the run closes with its error. */
  lemma FailedRuled(cfg: Config, env: Env, seed: Transcript, s: State, events: seq<Event>, a: Attempt)
    requires Told(cfg, env, seed, s) && s.opens > 0 && env.attempt(s.opens - 1) == a
    requires events == EventsOf(a) && !(a.Streaming? && a.end.Finished?)
    ensures Lawful(cfg, env, seed, Fail(Log(s, Round(FailedMidway, events)), FailureOf(a)))
  {
    hide AllRuled, RoundTrips, LoopOutcome.Spent, Opens, VerdictDue, Remembers, Heard;
    var x := Round(FailedMidway, events);
    var t := Log(s, x);
    Snoc(s.trace, x);
    HeardSnoc(cfg, env, seed, s.trace, x);
    assert Heard(cfg, env, seed, s.trace) + [] == Heard(cfg, env, seed, s.trace);
    RuleSnoc(cfg, env, seed, s.trace, x);
    assert CloseDue(cfg, env, t.trace) == Some(Close(false, Failing(ErrorOf(a))));
    assert ErrorOf(a) == FailureOf(a);
    Closes(cfg, env, seed, t, Recorded(s.total, s.roundTrips, false, Failing(FailureOf(a))), Fail(t, FailureOf(a)));
  }

  lemma LostRuled(cfg: Config, env: Env, seed: Transcript, s: State, a: Attempt)
    requires Told(cfg, env, seed, s) && s.opens > 0 && env.attempt(s.opens - 1) == a && !(a.Streaming? && a.end.Finished?)
    ensures Lawful(cfg, env, seed, StreamLost(s, EventsOf(a), FailureOf(a))) && StreamLost(s, EventsOf(a), FailureOf(a)).over
  {
    hide Immediate, Prose, Told, Lawful;
    var p := Send(Send(s, Immediate(EventsOf(a))), Prose(EventsOf(a)));
    SameTold(cfg, env, seed, s, p);
    FailedRuled(cfg, env, seed, p, EventsOf(a), a);
  }

  lemma DownTold(cfg: Config, cooldown: nat, env: Env, seed: Transcript, s: State, at: nat, a: Attempt)
    requires s.cursor <= |cfg.fallbacks| && Told(cfg, env, seed, s) && !EndsInRound(s.trace)
    requires s.opens > 0 && env.attempt(s.opens - 1) == a && !(a.Streaming? && a.end.Finished?)
    ensures var t := CandidateDown(cfg, cooldown, s, at, EventsOf(a), FailureOf(a));
            && (t.GaveUp? ==> Lawful(cfg, env, seed, t.state) && t.state.over)
            && (t.TryNext? ==>
                  && MayOpen(cfg, env, seed, t.state) && LastRound(t.state.trace) == LastRound(s.trace)
                  && t.state.roundTrips == s.roundTrips && t.state.requireTool == s.requireTool && t.state.over == s.over)
  {
    hide MayOpen, EventsOf, FailureOf;
    hide Applied, Told, Lawful, LastRound, LastCandidate;
    var e := Trip(s.cursor, at);
    LogSilent(cfg, env, seed, s, BreakerChanged(e));
    var t := ChangeBreaker(s, cooldown, e);
    SameTold(cfg, env, seed, Log(s, BreakerChanged(e)), t);
    if s.cursor < |cfg.fallbacks| {
      LogSilent(cfg, env, seed, t, Abandoned(EventsOf(a)));
      SameTold(cfg, env, seed, Log(t, Abandoned(EventsOf(a))), Log(t, Abandoned(EventsOf(a))).(cursor := s.cursor + 1));
      AbandonedMayOpen(cfg, env, seed, Log(t, Abandoned(EventsOf(a))).(cursor := s.cursor + 1));
    } else {
      FailedRuled(cfg, env, seed, t, EventsOf(a), a);
    }
  }

  /** A stream ran to its end on the candidate opened last, and has not been judged yet. */
  predicate Finished(cfg: Config, env: Env, seed: Transcript, f: State, events: seq<Event>) {
    && Told(cfg, env, seed, f) && LastCandidate(f.trace) == f.cursor && !EndsInRound(f.trace)
    && f.opens > 0 && env.attempt(f.opens - 1) == Streaming(events, StreamEnd.Finished)
  }

  lemma {:induction false} TryCandidatesTold(cfg: Config, cooldown: nat, env: Env, seed: Transcript, s: State, choice: Option<ToolChoice>)
    requires s.cursor <= |cfg.fallbacks| && MayOpen(cfg, env, seed, s)
    requires choice == if ToolNeeded(s.trace) then Some(Required) else None
    ensures var t := TryCandidates(cfg, cooldown, env, s, choice);
            && (t.Completed? ==>
                  && Finished(cfg, env, seed, t.state, t.events) && t.state.roundTrips == s.roundTrips
                  && t.state.requireTool == s.requireTool && t.state.over == s.over)
            && (t.GaveUp? ==> Lawful(cfg, env, seed, t.state) && t.state.over)
    decreases |cfg.fallbacks| - s.cursor
  {
    hide Told, MayOpen, Open, StreamFinished, StreamLost, CandidateDown, Forwarded, Lawful, LastRound, LastCandidate, EndsInRound;
    var a := env.attempt(s.opens);
    var o := Open(cfg, s, choice);
    OpenTold(cfg, env, seed, s, choice);
    FinishedTold(cfg, cooldown, env, seed, o, EventsOf(a));
    if !(a.Streaming? && a.end.Finished?) {
      LostRuled(cfg, env, seed, o, a);
      DownTold(cfg, cooldown, env, seed, o, env.now(s.opens), a);
    }
    var t := TryOne(cfg, cooldown, env, s, choice);
    if t.TryNext? {
      TryCandidatesTold(cfg, cooldown, env, seed, t.state, choice);
    }
  }

  // ----- the verdict -----

  lemma SameEdits(cfg: Config, env: Env, step: nat, calls: seq<ToolCall>, starts: seq<Event>)
    requires forall k | 0 <= k < |starts| :: starts[k].ToolUseStart?
    requires SameCalls(calls, starts)
    ensures MadeEdit(cfg, env, step, calls, |calls|) <==> AnyChanged(cfg, env, step, starts)
  {
    hide ChangedFile, MadeEdit;
    MadeEditMeans(cfg, env, step, calls, |calls|);
  }

  lemma JudgeIsDue(cfg: Config, env: Env, seed: Transcript, f: State, step: nat, events: seq<Event>)
    requires Finished(cfg, env, seed, f, events) && step == f.roundTrips
    ensures Judge(cfg, env, step, Counted(f, Fold(events)), Fold(events)) == VerdictDue(cfg, env, f.trace, events)
  {
    hide Fold, MadeEdit, AnyChanged, AllRuled, Heard, CloseDue, Given, EverEdited, LastCandidate, RoundTrips, LoopOutcome.Spent, Opens;
    hide EditFree, EndsInRound, UsageOf, TextOf, LastStop, Starts;
    FoldReads(events);
    FoldKeeps(events);
    SameEdits(cfg, env, step, Fold(events).calls, Starts(events));
  }

  /** A round-trip has been judged and not acted on yet. */
  predicate Judged(cfg: Config, env: Env, seed: Transcript, g: State, before: seq<TraceItem>, v: Verdict, events: seq<Event>) {
    && g.trace == before + [Round(v, events)] && AllRuled(cfg, env, seed, g.trace) && !v.FailedMidway?
    && Booked(g) && Opens(g.trace) == g.opens && RoundTrips(g.trace) > 0
    && EditFree(g.trace) == (if v.ToolsRun? then (if v.edited then 0 else g.streak + 1) else g.streak)
    && Remembers(g.(trace := before)) && Keeps(cfg, env, seed, g.(trace := before))
    && !g.requireTool && !g.over
  }

  lemma RoundJudged(cfg: Config, env: Env, seed: Transcript, f: State, step: nat, events: seq<Event>)
    requires Finished(cfg, env, seed, f, events) && step == f.roundTrips && !f.requireTool && !f.over
    ensures var c, v := Counted(f, Fold(events)), VerdictDue(cfg, env, f.trace, events);
            Judged(cfg, env, seed, Log(c, Round(v, events)), f.trace, v, events) && StepOf(f.trace + [Round(v, events)]) == step
  {
    hide Fold, VerdictDue, AllRuled, Heard, CloseDue, Given, EverEdited, LastCandidate, RoundTrips, LoopOutcome.Spent, Opens;
    hide EditFree, EndsInRound, UsageOf, TextOf;
    var v := VerdictDue(cfg, env, f.trace, events);
    FoldKeeps(events);
    DueIsNoFailure(cfg, env, f.trace, events);
    Snoc(f.trace, Round(v, events));
    RuleSnoc(cfg, env, seed, f.trace, Round(v, events));
  }

  lemma DueIsNoFailure(cfg: Config, env: Env, before: seq<TraceItem>, events: seq<Event>)
    ensures !VerdictDue(cfg, env, before, events).FailedMidway?
  {
    hide TooExpensive, AnyChanged, LastStop, Starts, Given, EverEdited, LastCandidate, TextOf, RoundTrips;
  }

  // ----- acting on it -----

  /** What a verdict makes the transcript is what it says. */
  lemma RoundKept(cfg: Config, env: Env, seed: Transcript, g: State, before: seq<TraceItem>, v: Verdict, events: seq<Event>, r: State)
    requires Judged(cfg, env, seed, g, before, v, events)
    requires r.trace == g.trace && r.history == g.history + RoundSaid(cfg, env, RoundTrips(before), v, events)
    ensures Keeps(cfg, env, seed, r)
  {
    hide AllRuled, Heard, RoundTrips, LoopOutcome.Spent, Opens, EditFree, RoundSaid, Remembers;
    HeardSnoc(cfg, env, seed, before, Round(v, events));
  }

  lemma JudgedLawful(cfg: Config, env: Env, seed: Transcript, g: State, before: seq<TraceItem>, v: Verdict, events: seq<Event>)
    requires Judged(cfg, env, seed, g, before, v, events) && (v.OverBudget? || v.Truncated? || v.Accepted?)
    ensures Lawful(cfg, env, seed, g) && !EndsInReport(g.trace) && Booked(g)
  {
    hide AllRuled, Heard, RoundTrips, LoopOutcome.Spent, Opens, EditFree, Remembers;
    assert g.history + [] == g.history;
    RoundKept(cfg, env, seed, g, before, v, events, g);
  }

  lemma FailRuled(cfg: Config, env: Env, seed: Transcript, g: State, before: seq<TraceItem>, v: Verdict, events: seq<Event>, e: AgentError)
    requires Judged(cfg, env, seed, g, before, v, events)
    requires (v.OverBudget? && e == BudgetExceeded) || (v.Truncated? && e == ResponseIncomplete)
    ensures Lawful(cfg, env, seed, Fail(g, e)) && Fail(g, e).over
  {
    hide AllRuled, Heard, Given, EverEdited, RoundTrips, LoopOutcome.Spent, Opens, EditFree, LastStop, Lawful;
    JudgedLawful(cfg, env, seed, g, before, v, events);
    Closes(cfg, env, seed, g, Recorded(g.total, g.roundTrips, false, Failing(e)), Fail(g, e));
  }

  lemma AcceptRuled(cfg: Config, env: Env, seed: Transcript, g: State, before: seq<TraceItem>, events: seq<Event>, held: seq<Event>,
        success: bool)
    requires Judged(cfg, env, seed, g, before, Accepted, events) && success == TreePasses(cfg, env, StepOf(g.trace))
    ensures var stop := if LastStop(events).Some? then LastStop(events).value else EndTurn;
            Lawful(cfg, env, seed, Finish(Send(g, held), success, stop)) && Finish(Send(g, held), success, stop).over
  {
    hide AllRuled, Heard, Given, EverEdited, RoundTrips, LoopOutcome.Spent, Opens, EditFree, LastStop, Lawful;
    var stop := if LastStop(events).Some? then LastStop(events).value else EndTurn;
    JudgedLawful(cfg, env, seed, g, before, Accepted, events);
    Closes(cfg, env, seed, g, Recorded(g.total, g.roundTrips, success, Finishing(stop)), Finish(Send(g, held), success, stop));
  }

  /** The run goes on: what the next step starts from. */
  predicate Ready(cfg: Config, env: Env, seed: Transcript, r: State) {
    Told(cfg, env, seed, r) && AtRest(r.trace) && !EndsAbandoned(r.trace) && !EndsSummarised(r.trace)
    && (r.requireTool <==> ToolNeeded(r.trace)) && !r.over
  }

  lemma SpokenReady(cfg: Config, env: Env, seed: Transcript, g: State, before: seq<TraceItem>, v: Verdict, events: seq<Event>, r: State)
    requires Judged(cfg, env, seed, g, before, v, events) && !v.ToolsRun? && !v.OverBudget? && !v.Truncated? && !v.Accepted?
    requires r == g.(history := r.history, sink := r.sink, cursor := r.cursor, requireTool := r.requireTool,
                     liveOpsNudges := r.liveOpsNudges, claimNudges := r.claimNudges, editNudges := r.editNudges,
                     fixAttempts := r.fixAttempts)
    requires r.liveOpsNudges == g.liveOpsNudges + (if v.LiveOpsNudged? then 1 else 0)
    requires r.claimNudges == g.claimNudges + (if v.ClaimNudged? then 1 else 0)
    requires r.editNudges == g.editNudges + (if v.EditNudged? then 1 else 0)
    requires r.fixAttempts == g.fixAttempts + (if v.FixNudged? then 1 else 0)
    requires r.requireTool <==> v.LiveOpsNudged? || v.Rerouted?
    requires Keeps(cfg, env, seed, r)
    ensures Ready(cfg, env, seed, r)
  {
    hide AllRuled, Heard, Given, EverEdited, LastRound, RoundTrips, LoopOutcome.Spent, Opens, EditFree, Keeps, LastStop;
    ReadSnoc(before, Round(v, events));
  }

  lemma NudgedReady(cfg: Config, env: Env, seed: Transcript, g: State, before: seq<TraceItem>, v: Verdict, events: seq<Event>, turn: Turn,
        nudge: Nudge, r: State)
    requires Judged(cfg, env, seed, g, before, v, events) && turn == Fold(events)
    requires (v.ClaimNudged? && nudge == FalseClaim) || (v.EditNudged? && nudge == NoEdit)
             || (v.FixNudged? && nudge == VerifyFailed(env.verifyOutput(RoundTrips(before)).1))
    requires r == Nudged(cfg, g, turn, nudge).(claimNudges := g.claimNudges + (if v.ClaimNudged? then 1 else 0),
                                               editNudges := g.editNudges + (if v.EditNudged? then 1 else 0),
                                               fixAttempts := g.fixAttempts + (if v.FixNudged? then 1 else 0))
    ensures Ready(cfg, env, seed, r)
  {
    hide Judged, Heard, AssistantMessage, RoundTrips, Keeps, Ready, Fold, Spoken;
    TurnIsSpoken(cfg.json, events);
    TraceOf(cfg, env, seed, g, before, v, events);
    assert g.history + [Spoken(cfg.json, events)] + [NudgeMessage(cfg, nudge)]
        == g.history + [Spoken(cfg.json, events), NudgeMessage(cfg, nudge)];
    RoundKept(cfg, env, seed, g, before, v, events, r);
    SpokenReady(cfg, env, seed, g, before, v, events, r);
  }

  lemma TraceOf(cfg: Config, env: Env, seed: Transcript, g: State, before: seq<TraceItem>, v: Verdict, events: seq<Event>)
    requires Judged(cfg, env, seed, g, before, v, events)
    ensures g.trace == before + [Round(v, events)] && !g.requireTool && !g.over
  {
    hide AllRuled, RoundTrips, LoopOutcome.Spent, Opens, EditFree, Remembers, Keeps;
  }

  lemma LiveOpsReady(cfg: Config, env: Env, seed: Transcript, g: State, before: seq<TraceItem>, cut: bool, events: seq<Event>, turn: Turn)
    requires Judged(cfg, env, seed, g, before, LiveOpsNudged(cut), events) && turn == Fold(events)
    ensures Ready(cfg, env, seed, LiveOpsBounced(cfg, g, turn, cut))
  {
    hide Judged, Heard, AssistantMessage, RoundTrips, Keeps, Ready, Fold, Spoken;
    var r := LiveOpsBounced(cfg, g, turn, cut);
    TurnIsSpoken(cfg.json, events);
    TraceOf(cfg, env, seed, g, before, LiveOpsNudged(cut), events);
    assert r.history == g.history + RoundSaid(cfg, env, RoundTrips(before), LiveOpsNudged(cut), events);
    RoundKept(cfg, env, seed, g, before, LiveOpsNudged(cut), events, r);
    SpokenReady(cfg, env, seed, g, before, LiveOpsNudged(cut), events, r);
  }

  lemma PausedReady(cfg: Config, env: Env, seed: Transcript, g: State, before: seq<TraceItem>, events: seq<Event>, turn: Turn,
        held: seq<Event>)
    requires Judged(cfg, env, seed, g, before, Paused, events) && turn == Fold(events)
    ensures Ready(cfg, env, seed, Push(Send(g, held), AssistantMessage(cfg.json, turn)))
  {
    hide Judged, Heard, RoundTrips, Keeps, Ready, Fold, TextOf, AssistantMessage, Spoken;
    var r := Push(Send(g, held), AssistantMessage(cfg.json, turn));
    TurnIsSpoken(cfg.json, events);
    TraceOf(cfg, env, seed, g, before, Paused, events);
    RoundKept(cfg, env, seed, g, before, Paused, events, r);
    SpokenReady(cfg, env, seed, g, before, Paused, events, r);
  }

  lemma ReroutedReady(cfg: Config, env: Env, seed: Transcript, g: State, before: seq<TraceItem>, events: seq<Event>)
    requires Judged(cfg, env, seed, g, before, Rerouted, events)
    ensures Ready(cfg, env, seed, g.(cursor := g.cursor + 1, requireTool := true))
  {
    hide Judged, Heard, RoundTrips, Keeps, Ready;
    var r := g.(cursor := g.cursor + 1, requireTool := true);
    TraceOf(cfg, env, seed, g, before, Rerouted, events);
    assert g.history + [] == g.history;
    RoundKept(cfg, env, seed, g, before, Rerouted, events, r);
    SpokenReady(cfg, env, seed, g, before, Rerouted, events, r);
  }

  // ----- tool rounds -----

  /** The tools have run and reported; their results have not gone back. */
  predicate Reporting(cfg: Config, env: Env, seed: Transcript, t: State, edited: bool, events: seq<Event>) {
    && AllRuled(cfg, env, seed, t.trace) && EndsInReport(t.trace) && !EndsInRound(t.trace)
    && t.trace[|t.trace| - 2] == Round(ToolsRun(edited), events)
    && Remembers(t) && Booked(t) && Opens(t.trace) == t.opens && EditFree(t.trace) == t.streak
    && !t.requireTool && !t.over && LastRound(t.trace) == Some(ToolsRun(edited)) && Keeps(cfg, env, seed, t)
  }

  lemma ReportReporting(cfg: Config, env: Env, seed: Transcript, g: State, before: seq<TraceItem>, edited: bool, events: seq<Event>,
        s: State, reports: Reports)
    requires Judged(cfg, env, seed, g, before, ToolsRun(edited), events)
    requires s == g.(history := s.history, sink := s.sink) && s.history == g.history + [Spoken(cfg.json, events)]
    requires reports == ReportsDue(cfg, env, StepOf(g.trace), Starts(events))
    ensures Reporting(cfg, env, seed, Log(Progressed(s, edited), Reported(reports)), edited, events)
    ensures StepOf(g.trace + [Reported(reports)]) == StepOf(g.trace)
  {
    hide ToSend, NoneMissed, RequestRule, Shortened, PlanSaid, ResultsSaid, Tidied, RoundRule, CloseRule, SummaryRule, Answers;
    hide AllRuled, Heard, Given, EverEdited, LastRound, LastCandidate, RoundTrips, LoopOutcome.Spent, Opens, EditFree, Spoken;
    hide ReportsDue;
    var x := Reported(reports);
    ReadSnoc(before, Round(ToolsRun(edited), events));
    ReadSnoc(g.trace, x);
    Snoc(g.trace, x);
    RoundKept(cfg, env, seed, g, before, ToolsRun(edited), events, s);
    HeardSnoc(cfg, env, seed, g.trace, x);
    RuleSnoc(cfg, env, seed, g.trace, x);
  }

  lemma {:induction false} ReportsAreDue(cfg: Config, env: Env, step: nat, calls: seq<ToolCall>, starts: seq<Event>, n: nat)
    requires forall i | 0 <= i < |starts| :: starts[i].ToolUseStart?
    requires SameCalls(calls, starts) && n <= |calls|
    ensures AllToolEvents(cfg, env, step, calls, n) == ReportsDue(cfg, env, step, starts[..n])
  {
    hide ReportDue, ToolEvents;
    if n > 0 {
      ReportsAreDue(cfg, env, step, calls, starts, n - 1);
      ReportIsDue(cfg, env, step, calls, starts, n - 1);
      var parts := seq(n, k requires 0 <= k < n => ReportDue(cfg, env, step, starts[..n][k], k));
      var before := seq(n - 1, k requires 0 <= k < n - 1 => ReportDue(cfg, env, step, starts[..n - 1][k], k));
      var last := ReportDue(cfg, env, step, starts[n - 1], n - 1);
      assert parts == before + [last];
      FlattenAppend(before, [last]);
      FlattenOne(last);
    }
  }

  lemma ReportIsDue(cfg: Config, env: Env, step: nat, calls: seq<ToolCall>, starts: seq<Event>, k: nat)
    requires forall i | 0 <= i < |starts| :: starts[i].ToolUseStart?
    requires SameCalls(calls, starts) && k < |calls|
    ensures ToolEvents(cfg, env, step, calls, k) == ReportDue(cfg, env, step, starts[k], k)
  {
  }

  lemma AnswerIsDue(cfg: Config, env: Env, step: nat, calls: seq<ToolCall>, starts: seq<Event>, k: nat)
    requires forall i | 0 <= i < |starts| :: starts[i].ToolUseStart?
    requires SameCalls(calls, starts) && k < |calls|
    ensures ToolAnswer(cfg, env, step, calls, k) == AnswerDue(cfg, env, step, starts[k], k)
  {
  }

  lemma {:induction false} AnswersAreDue(cfg: Config, env: Env, step: nat, calls: seq<ToolCall>, starts: seq<Event>, n: nat)
    requires forall i | 0 <= i < |starts| :: starts[i].ToolUseStart?
    requires SameCalls(calls, starts) && n <= |calls|
    ensures |ToolAnswers(cfg, env, step, calls, n)| == n
    ensures forall k | 0 <= k < n :: ToolAnswers(cfg, env, step, calls, n)[k] == AnswerDue(cfg, env, step, starts[k], k)
  {
    hide ToolAnswer, AnswerDue;
    if n > 0 {
      AnswersAreDue(cfg, env, step, calls, starts, n - 1);
      AnswerIsDue(cfg, env, step, calls, starts, n - 1);
    }
  }

  lemma ReplyAnswers(cfg: Config, env: Env, step: nat, turn: Turn, events: seq<Event>, notes: Blocks)
    requires turn == Fold(events)
    ensures Answers(cfg, env, step, Message(User, ToolAnswers(cfg, env, step, turn.calls, |turn.calls|) + notes), Starts(events))
  {
    hide Fold, AnswerDue, ToolAnswers;
    FoldReads(events);
    AnswersAreDue(cfg, env, step, turn.calls, Starts(events), |turn.calls|);
  }

  lemma ResultsAreSaid(cfg: Config, env: Env, step: nat, turn: Turn, events: seq<Event>)
    requires turn == Fold(events)
    ensures Message(User, ToolAnswers(cfg, env, step, turn.calls, |turn.calls|)) == ResultsSaid(cfg, env, step, Starts(events))
  {
    hide Fold, AnswerDue, ToolAnswers;
    FoldReads(events);
    AnswersAreDue(cfg, env, step, turn.calls, Starts(events), |turn.calls|);
  }

  lemma ReplyReady(cfg: Config, env: Env, seed: Transcript, t: State, edited: bool, events: seq<Event>, m: Message, nudgedAt: Option<nat>)
    requires Reporting(cfg, env, seed, t, edited, events) && CloseDue(cfg, env, t.trace).None?
    requires Answers(cfg, env, StepOf(t.trace), m, Starts(events))
    ensures Ready(cfg, env, seed, Reply(t.(nudgedAt := nudgedAt), m))
  {
    hide ToSend, NoneMissed, RequestRule, RoundSaid, Shortened, PlanSaid, ResultsSaid, Tidied, RoundRule, CloseRule, SummaryRule;
    hide ReportsDue;
    hide AllRuled, Heard, Given, EverEdited, LastRound, LastCandidate, RoundTrips, LoopOutcome.Spent, Opens, EditFree;
    hide CloseDue, Answers;
    var x := Replied(m);
    Snoc(t.trace, x);
    ReadSnoc(t.trace, x);
    HeardSnoc(cfg, env, seed, t.trace, x);
    CloseSnoc(cfg, env, t.trace, x);
    RuleSnoc(cfg, env, seed, t.trace, x);
  }

  /** The run ends behind a tool round: its results stay in the transcript. */
  lemma StopRuled(cfg: Config, env: Env, seed: Transcript, t: State, edited: bool, events: seq<Event>, success: bool, stop: StopReason)
    requires Reporting(cfg, env, seed, t, edited, events) && CloseDue(cfg, env, t.trace) == Some(Close(success, Finishing(stop)))
    ensures var r := Finish(Push(t, ResultsSaid(cfg, env, StepOf(t.trace), Starts(events))), success, stop);
            Lawful(cfg, env, seed, r) && r.over
  {
    hide AllRuled, RoundTrips, LoopOutcome.Spent, CloseDue, Remembers, Heard, ResultsSaid, Opens, EditFree, LastRound;
    var x := Recorded(t.total, t.roundTrips, success, Finishing(stop));
    HeardSnoc(cfg, env, seed, t.trace, x);
    RuleSnoc(cfg, env, seed, t.trace, x);
  }

  lemma ConvergeRuled(cfg: Config, env: Env, seed: Transcript, t: State, step: nat, turn: Turn, edited: bool, events: seq<Event>)
    requires Reporting(cfg, env, seed, t, edited, events) && step == StepOf(t.trace) && turn == Fold(events)
    ensures var r := Converge(cfg, env, t, step, ToolAnswers(cfg, env, step, turn.calls, |turn.calls|), edited);
            Lawful(cfg, env, seed, r) && (!r.over ==> Ready(cfg, env, seed, r) && r.roundTrips == t.roundTrips)
  {
    hide AllRuled, Given, EverEdited, LastRound, RoundTrips, LoopOutcome.Spent, Opens, Fold, ToolAnswers, Finish, NotesFor;
    hide Remembers, Ready, Answers, EditFree, Lawful, Keeps, ResultsSaid;
    ResultsAreSaid(cfg, env, step, turn, events);
    var results := ToolAnswers(cfg, env, step, turn.calls, |turn.calls|);
    if cfg.inLoopVerify && edited && cfg.hasVerify && env.verify(step) {
      StopRuled(cfg, env, seed, t, edited, events, true, EndTurn);
    } else if HardStop(cfg, t.streak) {
      StopRuled(cfg, env, seed, t, edited, events, Verify(cfg, env, step), Other("no_progress"));
    } else {
      var nudge := NeedsProgressNudge(cfg, t.streak, t.nudgedAt);
      var notes := NotesFor(cfg, nudge, t.roundTrips, t.total);
      ReplyAnswers(cfg, env, step, turn, events, notes);
      ReplyReady(cfg, env, seed, t, edited, events, Message(User, results + notes), if nudge then Some(t.streak) else t.nudgedAt);
      ReadyRuled(cfg, env, seed, Reply(t.(nudgedAt := if nudge then Some(t.streak) else t.nudgedAt), Message(User, results + notes)));
    }
  }

  lemma ReadyRuled(cfg: Config, env: Env, seed: Transcript, r: State)
    requires Ready(cfg, env, seed, r)
    ensures Lawful(cfg, env, seed, r) && !r.over
  {
    hide AllRuled, Heard, CloseDue;
  }

  lemma RunToolsRuled(cfg: Config, env: Env, seed: Transcript, g: State, before: seq<TraceItem>, edited: bool, events: seq<Event>,
        held: seq<Event>, step: nat, turn: Turn)
    requires Judged(cfg, env, seed, g, before, ToolsRun(edited), events) && step == StepOf(g.trace) && turn == Fold(events)
    ensures var r := RunTools(cfg, env, Send(g, held), step, turn, edited);
            Lawful(cfg, env, seed, r) && (!r.over ==> Ready(cfg, env, seed, r) && r.roundTrips == g.roundTrips)
  {
    hide Judged, Reporting, Lawful, Ready, Fold, AllToolEvents, ToolAnswers, AssistantMessage, Converge, StepOf, Spoken, ReportsDue;
    FoldReads(events);
    TurnIsSpoken(cfg.json, events);
    ReportsAreDue(cfg, env, step, turn.calls, Starts(events), |turn.calls|);
    assert Starts(events)[..|turn.calls|] == Starts(events);
    var reports := AllToolEvents(cfg, env, step, turn.calls, |turn.calls|);
    var s := Send(Push(Send(g, held), AssistantMessage(cfg.json, turn)), reports);
    ReportReporting(cfg, env, seed, g, before, edited, events, s, reports);
    ConvergeRuled(cfg, env, seed, Log(Progressed(s, edited), Reported(reports)), step, turn, edited, events);
  }

  // ----- whole runs -----

  lemma ActRuled(cfg: Config, env: Env, seed: Transcript, g: State, before: seq<TraceItem>, v: Verdict, events: seq<Event>, step: nat)
    requires Judged(cfg, env, seed, g, before, v, events) && v == VerdictDue(cfg, env, before, events)
    requires step == StepOf(g.trace) == RoundTrips(before) && (v.Rerouted? ==> g.cursor < |cfg.fallbacks|)
    ensures var r := Act(cfg, env, g, step, Fold(events), v, Prose(events));
            Lawful(cfg, env, seed, r) && (!r.over ==> Ready(cfg, env, seed, r) && r.roundTrips == g.roundTrips)
  {
    hide Judged, Lawful, Ready, Fold, Prose, RunTools, RoundTrips, StepOf, Finish, Fail, AssistantMessage;
    hide Given, EverEdited, LastCandidate, UsageOf, TextOf, LastStop, Starts, AnyChanged, TooExpensive;
    var turn, held := Fold(events), Prose(events);
    FoldReads(events);
    var r := Act(cfg, env, g, step, turn, v, held);
    match v
    case OverBudget => FailRuled(cfg, env, seed, g, before, v, events, BudgetExceeded);
    case Truncated => FailRuled(cfg, env, seed, g, before, v, events, ResponseIncomplete);
    case Accepted => AcceptRuled(cfg, env, seed, g, before, events, held, Verify(cfg, env, step));
    case ToolsRun(edited) => RunToolsRuled(cfg, env, seed, g, before, edited, events, held, step, turn);
    case Paused => PausedReady(cfg, env, seed, g, before, events, turn, held); ReadyRuled(cfg, env, seed, r);
    case LiveOpsNudged(cut) => LiveOpsReady(cfg, env, seed, g, before, cut, events, turn); ReadyRuled(cfg, env, seed, r);
    case Rerouted => ReroutedReady(cfg, env, seed, g, before, events); ReadyRuled(cfg, env, seed, r);
    case ClaimNudged => NudgedReady(cfg, env, seed, g, before, v, events, turn, FalseClaim, r); ReadyRuled(cfg, env, seed, r);
    case EditNudged => NudgedReady(cfg, env, seed, g, before, v, events, turn, NoEdit, r); ReadyRuled(cfg, env, seed, r);
    case FixNudged =>
      NudgedReady(cfg, env, seed, g, before, v, events, turn, VerifyFailed(Output(VerifyOutput(cfg, env, step))), r);
      ReadyRuled(cfg, env, seed, r);
  }

  lemma SettleRuled(cfg: Config, env: Env, seed: Transcript, f: State, step: nat, events: seq<Event>)
    requires f.cursor <= |cfg.fallbacks| && Finished(cfg, env, seed, f, events) && step == f.roundTrips && !f.requireTool && !f.over
    ensures var r := Settle(cfg, env, f, step, events);
            Lawful(cfg, env, seed, r) && (!r.over ==> Ready(cfg, env, seed, r) && r.roundTrips == step + 1)
  {
    hide Judged, Finished, Lawful, Ready, Fold, Prose, Act, RoundTrips, StepOf, VerdictDue, Judge;
    var turn := Fold(events);
    var v := VerdictDue(cfg, env, f.trace, events);
    JudgeIsDue(cfg, env, seed, f, step, events);
    RoundJudged(cfg, env, seed, f, step, events);
    assert step == RoundTrips(f.trace) by { FinishedBooked(cfg, env, seed, f, events); }
    ActRuled(cfg, env, seed, Log(Counted(f, turn), Round(v, events)), f.trace, v, events, step);
  }

  lemma FinishedBooked(cfg: Config, env: Env, seed: Transcript, f: State, events: seq<Event>)
    requires Finished(cfg, env, seed, f, events)
    ensures f.roundTrips == RoundTrips(f.trace)
  {
    hide AllRuled, CloseDue, Remembers, Keeps, RoundTrips, LoopOutcome.Spent, Opens, EditFree;
  }

  lemma StepRuled(cfg: Config, cooldown: nat, env: Env, seed: Transcript, s: State, step: nat)
    requires s.cursor <= |cfg.fallbacks| && Ready(cfg, env, seed, s) && step == s.roundTrips
    ensures var r := Step(cfg, cooldown, env, s, step);
            Lawful(cfg, env, seed, r) && (!r.over ==> Ready(cfg, env, seed, r) && r.roundTrips == step + 1)
  {
    hide Lawful, MayOpen, Finished, Prepare, Known, Keeps, TryCandidates, Settle, LastRound, EndsInRound;
    PrepareTold(cfg, env, seed, s, step);
    var p := Prepare(cfg, env, s, step).(requireTool := false);
    FlagAside(cfg, env, seed, Prepare(cfg, env, s, step));
    var choice := if Prepare(cfg, env, s, step).requireTool then Some(Required) else None;
    TryCandidatesTold(cfg, cooldown, env, seed, p, choice);
    var t := TryCandidates(cfg, cooldown, env, p, choice);
    if t.Completed? {
      SettleRuled(cfg, env, seed, t.state, step, t.events);
    }
  }

  lemma {:induction false} RunStepsRuled(cfg: Config, cooldown: nat, env: Env, seed: Transcript, s: State, step: nat)
    requires s.cursor <= |cfg.fallbacks| && step <= cfg.maxSteps && Lawful(cfg, env, seed, s)
    requires !s.over ==> Ready(cfg, env, seed, s) && step == s.roundTrips
    ensures Lawful(cfg, env, seed, RunSteps(cfg, cooldown, env, s, step))
    decreases cfg.maxSteps - step
  {
    hide Lawful, Ready, Step, Finish;
    if !s.over {
      if step == cfg.maxSteps {
        StepsOut(cfg, env, seed, s);
      } else {
        StepRuled(cfg, cooldown, env, seed, s, step);
        RunStepsRuled(cfg, cooldown, env, seed, Step(cfg, cooldown, env, s, step), step + 1);
      }
    }
  }

  lemma StepsOut(cfg: Config, env: Env, seed: Transcript, s: State)
    requires Ready(cfg, env, seed, s) && s.roundTrips == cfg.maxSteps
    ensures Lawful(cfg, env, seed, Finish(s, false, Other("max_steps")))
  {
    hide AllRuled, Remembers, Keeps, RoundTrips, LoopOutcome.Spent, Opens, EditFree, LastRound;
    Closes(cfg, env, seed, s, Recorded(s.total, s.roundTrips, false, Finishing(Other("max_steps"))),
           Finish(s, false, Other("max_steps")));
  }

  lemma NothingKnown(cfg: Config, env: Env, seed: Transcript, s: State)
    requires s.trace == [] && s.total == NO_USAGE && s.roundTrips == s.opens == s.streak == 0 && !s.edited
    requires s.liveOpsNudges == s.claimNudges == s.editNudges == s.fixAttempts == 0
    ensures Known(cfg, env, seed, s)
  {
  }

  /** What a run starts with. */
  lemma StartRuled(cfg: Config, env: Env, seed: Transcript, usage: Usage, reports: Reports)
    requires usage == Plus(if env.classifier.Some? then env.classifier.value else NO_USAGE, PlanCost(env.prePass))
    requires reports == NoticesSaid(env.prePass)
    ensures Rule(cfg, env, seed, [], PrePaid(usage)) && Rule(cfg, env, seed, [PrePaid(usage)], Reported(reports))
  {
    hide PlanCost, NoticesSaid;
  }

  lemma StartHeard(cfg: Config, env: Env, seed: Transcript, usage: Usage, reports: Reports)
    ensures Heard(cfg, env, seed, [PrePaid(usage), Reported(reports)]) == seed + PlanSaid(cfg, env.prePass)
  {
    hide PlanSaid;
    HeardSnoc(cfg, env, seed, [], PrePaid(usage));
    HeardSnoc(cfg, env, seed, [PrePaid(usage)], Reported(reports));
    assert [] + [PrePaid(usage)] == [PrePaid(usage)];
    assert [PrePaid(usage)] + [Reported(reports)] == [PrePaid(usage), Reported(reports)];
  }

  lemma StartReady(cfg: Config, env: Env, seed: Transcript, deadlines: seq<nat>)
    ensures Ready(cfg, env, seed, Start(cfg, env, seed, deadlines)) && Start(cfg, env, seed, deadlines).roundTrips == 0
  {
    hide PlanOf, PlanUsage, FirstAvailable, PrePassNotices, NoticesSaid, PlanSaid, PlanCost, Heard, Rule, Known, Plus;
    var s := Start(cfg, env, seed, deadlines);
    var a, b := s.trace[0], s.trace[1];
    assert [] + [a] == [a] && s.trace == [a] + [b] == [a, b];
    PlanIsSaid(cfg, env.prePass);
    NoticesAreSaid(env.prePass);
    StartRuled(cfg, env, seed, s.total, PrePassNotices(env.prePass));
    StartHeard(cfg, env, seed, s.total, PrePassNotices(env.prePass));
    var none := s.(trace := [], total := NO_USAGE);
    NothingKnown(cfg, env, seed, none);
    NothingPlus(s.total);
    KnownSnoc(cfg, env, seed, none, a, s.(trace := [a]));
    PlusNothing(s.total);
    KnownSnoc(cfg, env, seed, s.(trace := [a]), b, s);
    assert LastRound(s.trace).None?;
  }

  lemma NoticesAreSaid(prePass: PrePass)
    ensures PrePassNotices(prePass) == NoticesSaid(prePass)
  {
  }

  lemma PlanIsSaid(cfg: Config, prePass: PrePass)
    ensures (if PlanOf(cfg, prePass).Some? then [PlanOf(cfg, prePass).value] else []) == PlanSaid(cfg, prePass)
    ensures PlanUsage(cfg, prePass) == PlanCost(prePass)
  {
    hide Trim, IsBlank, TextOf, UsageOf;
    if prePass.Advisor? && prePass.reply.Streamed? {
      BlankExactly(TextOf(prePass.reply.events));
    }
  }

  /** Every item of every run keeps the rules. Each round-trip carries the events of the stream opened last
      and the verdict that is due on them. Each request goes to the model that is due, carries the whole
      transcript told by the run so far and forces a tool exactly when one is needed; a transcript is
      summarised exactly when that is due. Each tool round reports and answers what its calls did. The run closes exactly when, and
      as, it must: after an over-budget, truncated, accepted or failed round-trip, a passing verify, too
      long an edit-free streak, or the last step. The transcript it leaves is the one it tells. */
  lemma EveryRunKeepsTheRules(cfg: Config, cooldown: nat, env: Env, seed: Transcript, deadlines: seq<nat>)
    ensures var r := Run(cfg, cooldown, env, seed, deadlines);
            AllRuled(cfg, env, seed, r.trace) && r.history == Heard(cfg, env, seed, r.trace)
  {
    hide AllRuled, Ready, Start, RunSteps, Heard;
    StartReady(cfg, env, seed, deadlines);
    var s := Start(cfg, env, seed, deadlines);
    ReadyRuled(cfg, env, seed, s);
    RunStepsRuled(cfg, cooldown, env, seed, s, 0);
  }
}

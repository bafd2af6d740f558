/** The circuit breaker over the fallback chain, shared by all turns of an agent. */
module Breaker {
  import opened Protocol

  /** Readings of the monotonic clock, one for each position that is probed. */
  type Clock = nat -> nat

  datatype BreakerEvent = Trip(pos: nat, at: nat) | Reset(pos: nat)

  function Applied(deadlines: seq<nat>, cooldown: nat, e: BreakerEvent): seq<nat> {
    if e.pos >= |deadlines| then deadlines
    else
      match e
      case Trip(pos, at) => deadlines[pos := at + cooldown]
      case Reset(pos) => deadlines[pos := 0]
  }

  function AppliedAll(deadlines: seq<nat>, cooldown: nat, log: seq<BreakerEvent>): seq<nat> {
    if log == [] then deadlines
    else Applied(AppliedAll(deadlines, cooldown, log[..|log| - 1]), cooldown, log[|log| - 1])
  }

  predicate IsOpen(deadlines: seq<nat>, i: nat, now: nat) {
    i < |deadlines| && deadlines[i] > now
  }

  /** The least of the positions `i` to `last` that is not open when it is probed, or 0. */
  function FirstAvailable(deadlines: seq<nat>, i: nat, last: nat, clock: Clock): (p: nat)
    ensures p <= last
    decreases last + 1 - i
  {
    if i > last then 0
    else if !IsOpen(deadlines, i, clock(i)) then i
    else FirstAvailable(deadlines, i + 1, last, clock)
  }

  class CircuitBreaker {
    const deadlines: array<nat>
    const cooldownMs: nat

    /** A breaker for some chain slots, all healthy. */
    constructor (positions: nat, cooldownMs: nat)
      ensures this.cooldownMs == cooldownMs && fresh(deadlines)
      ensures deadlines.Length == (if positions == 0 then 1 else positions)
      ensures forall i | 0 <= i < deadlines.Length :: deadlines[i] == 0
    {
      this.cooldownMs := cooldownMs;
      deadlines := new nat[if positions == 0 then 1 else positions](_ => 0);
    }

    method IsOpenAt(i: nat, now: nat) returns (open: bool)
      ensures open <==> IsOpen(deadlines[..], i, now)
    {
      open := i < deadlines.Length && deadlines[i] > now;
    }

    method TripAt(i: nat, now: nat)
      modifies deadlines
      ensures deadlines[..] == Applied(old(deadlines[..]), cooldownMs, Trip(i, now))
    {
      if i < deadlines.Length {
        deadlines[i] := now + cooldownMs;
      }
    }

    method ResetAt(i: nat)
      modifies deadlines
      ensures deadlines[..] == Applied(old(deadlines[..]), cooldownMs, Reset(i))
    {
      if i < deadlines.Length {
        deadlines[i] := 0;
      }
    }

    method FindAvailable(fallbacks: nat, clock: Clock) returns (pos: nat)
      ensures pos == FirstAvailable(deadlines[..], 0, fallbacks, clock)
    {
      for i := 0 to fallbacks + 1
        invariant FirstAvailable(deadlines[..], i, fallbacks, clock) == FirstAvailable(deadlines[..], 0, fallbacks, clock)
      {
        var open := IsOpenAt(i, clock(i));
        if !open {
          return i;
        }
      }
      return 0;
    }
  }

  // ----- demotion, told from the events alone -----

  /** The last event at position `i` is a trip whose cooldown has not elapsed. */
  predicate Demoted(log: seq<BreakerEvent>, cooldown: nat, i: nat, now: nat) {
    if log == [] then false
    else
      var e := log[|log| - 1];
      if e.pos == i then e.Trip? && e.at + cooldown > now
      else Demoted(log[..|log| - 1], cooldown, i, now)
  }

  lemma {:induction false} DeadlinesTellDemotion(positions: nat, cooldown: nat, log: seq<BreakerEvent>, i: nat, now: nat)
    requires i < positions
    ensures |AppliedAll(seq(positions, _ => 0), cooldown, log)| == positions
    ensures IsOpen(AppliedAll(seq(positions, _ => 0), cooldown, log), i, now) <==> Demoted(log, cooldown, i, now)
  {
    if log != [] {
      DeadlinesTellDemotion(positions, cooldown, log[..|log| - 1], i, now);
    }
  }

  ghost predicate IsLeastClosed(deadlines: seq<nat>, i: nat, last: nat, clock: Clock, p: nat) {
    || (i <= p <= last && !IsOpen(deadlines, p, clock(p)) && forall k :: i <= k < p ==> IsOpen(deadlines, k, clock(k)))
    || (p == 0 && forall k :: i <= k <= last ==> IsOpen(deadlines, k, clock(k)))
  }

  lemma {:induction false} FirstAvailableIsLeast(deadlines: seq<nat>, i: nat, last: nat, clock: Clock)
    ensures IsLeastClosed(deadlines, i, last, clock, FirstAvailable(deadlines, i, last, clock))
    decreases last + 1 - i
  {
    if i <= last && IsOpen(deadlines, i, clock(i)) {
      FirstAvailableIsLeast(deadlines, i + 1, last, clock);
    }
  }

  lemma {:induction false} AppliedAllAppend(deadlines: seq<nat>, cooldown: nat, a: seq<BreakerEvent>, b: seq<BreakerEvent>)
    ensures AppliedAll(deadlines, cooldown, a + b) == AppliedAll(AppliedAll(deadlines, cooldown, a), cooldown, b)
  {
    if b == [] {
      assert a + b == a;
    } else {
      AppliedAllAppend(deadlines, cooldown, a, b[..|b| - 1]);
      assert (a + b)[..|a + b| - 1] == a + b[..|b| - 1];
    }
  }

  /** Wherever its events came from (this turn, earlier turns or turns running beside it), the breaker
      starts a turn at the least position that is not demoted when it is probed, and at the primary
      when all are. */
  lemma StartsAtLeastHealthy(positions: nat, cooldown: nat, log: seq<BreakerEvent>, fallbacks: nat, clock: Clock)
    requires positions == fallbacks + 1
    ensures var p := FirstAvailable(AppliedAll(seq(positions, _ => 0), cooldown, log), 0, fallbacks, clock);
            && p <= fallbacks
            && (forall k :: 0 <= k < p ==> Demoted(log, cooldown, k, clock(k)))
            && (Demoted(log, cooldown, p, clock(p)) ==> p == 0 && forall k :: 0 <= k <= fallbacks ==> Demoted(log, cooldown, k, clock(k)))
  {
    var deadlines := AppliedAll(seq(positions, _ => 0), cooldown, log);
    FirstAvailableIsLeast(deadlines, 0, fallbacks, clock);
    forall k | 0 <= k <= fallbacks
      ensures IsOpen(deadlines, k, clock(k)) <==> Demoted(log, cooldown, k, clock(k))
    {
      DeadlinesTellDemotion(positions, cooldown, log, k, clock(k));
    }
  }
}

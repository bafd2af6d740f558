/** The gateway's fixed-window request limiter. */
module Limiter {
  import opened Protocol

  datatype Window = Window(start: nat, count: nat)

  /** Time since `start`, never negative. */
  function Since(now: nat, start: nat): nat {
    if now >= start then now - start else 0
  }

  datatype Rule = Rule(max: nat, window: nat)

  /** The window a request at `now` falls into. */
  function WindowAt(rule: Rule, w: Option<Window>, now: nat): Window {
    match w
    case None => Window(now, 0)
    case Some(v) => if Since(now, v.start) >= rule.window then Window(now, 0) else v
  }

  /** Whether a request at `now` is allowed, and the window it leaves. */
  function Decide(rule: Rule, w: Option<Window>, now: nat): (bool, Window) {
    var v := WindowAt(rule, w, now);
    if v.count >= rule.max then (false, v) else (true, Window(v.start, v.count + 1))
  }

  function Lookup(windows: map<string, Window>, principal: string): Option<Window> {
    if principal in windows then Some(windows[principal]) else None
  }

  class Limiter {
    const rule: Rule
    var windows: map<string, Window>

    constructor (max: nat, window: nat)
      ensures rule == Rule(max, window) && windows == map[]
    {
      rule := Rule(max, window);
      windows := map[];
    }

    /** Record a request; refused once the principal has used up its window. */
    method Allow(principal: string, now: nat) returns (allowed: bool)
      modifies this
      ensures allowed == Decide(rule, Lookup(old(windows), principal), now).0
      ensures windows == old(windows)[principal := Decide(rule, Lookup(old(windows), principal), now).1]
    {
      var w := if principal in windows then windows[principal] else Window(now, 0);
      if Since(now, w.start) >= rule.window {
        w := Window(now, 0);
      }
      if w.count >= rule.max {
        allowed := false;
      } else {
        w := w.(count := w.count + 1);
        allowed := true;
      }
      windows := windows[principal := w];
    }
  }

  // ----- runs of requests -----

  datatype Call = Call(principal: string, at: nat)

  /** The decisions on a sequence of requests. */
  function Decisions(rule: Rule, windows: map<string, Window>, calls: seq<Call>): (ds: seq<bool>)
    ensures |ds| == |calls|
    decreases |calls|
  {
    if calls == [] then []
    else
      var d := Decide(rule, Lookup(windows, calls[0].principal), calls[0].at);
      [d.0] + Decisions(rule, windows[calls[0].principal := d.1], calls[1..])
  }

  /** The same for the requests of one principal alone. */
  function OwnDecisions(rule: Rule, w: Option<Window>, times: seq<nat>): (ds: seq<bool>)
    ensures |ds| == |times|
    decreases |times|
  {
    if times == [] then []
    else
      var d := Decide(rule, w, times[0]);
      [d.0] + OwnDecisions(rule, Some(d.1), times[1..])
  }

  function TimesOf(calls: seq<Call>, principal: string): seq<nat> {
    if calls == [] then []
    else (if calls[0].principal == principal then [calls[0].at] else []) + TimesOf(calls[1..], principal)
  }

  /** The decisions that were about one principal. */
  function About(calls: seq<Call>, decisions: seq<bool>, principal: string): (ds: seq<bool>)
    requires |calls| == |decisions|
    ensures |ds| == |TimesOf(calls, principal)|
  {
    if calls == [] then []
    else (if calls[0].principal == principal then [decisions[0]] else []) + About(calls[1..], decisions[1..], principal)
  }

  /** Principals never affect each other: what is decided about one is what would be decided if its
      requests were the only ones. */
  lemma {:induction false} PrincipalsAreIndependent(rule: Rule, windows: map<string, Window>, calls: seq<Call>, principal: string)
    ensures About(calls, Decisions(rule, windows, calls), principal) ==
            OwnDecisions(rule, Lookup(windows, principal), TimesOf(calls, principal))
    decreases |calls|
  {
    if calls != [] {
      var p := calls[0].principal;
      var d := Decide(rule, Lookup(windows, p), calls[0].at);
      var after := windows[p := d.1];
      PrincipalsAreIndependent(rule, after, calls[1..], principal);
      assert Decisions(rule, windows, calls)[1..] == Decisions(rule, after, calls[1..]);
      if p == principal {
        assert TimesOf(calls, principal)[1..] == TimesOf(calls[1..], principal);
        assert Lookup(after, principal) == Some(d.1);
      } else {
        assert TimesOf(calls, principal) == TimesOf(calls[1..], principal);
        assert Lookup(after, principal) == Lookup(windows, principal);
        assert About(calls, Decisions(rule, windows, calls), principal) == About(calls[1..], Decisions(rule, after, calls[1..]), principal);
      }
    }
  }

  // ----- how many are allowed -----

  predicate NonDecreasing(times: seq<nat>) {
    forall i, k | 0 <= i < k < |times| :: times[i] <= times[k]
  }

  /** The requests allowed at times from `from` up to, but not including, `to`. */
  function AllowedIn(times: seq<nat>, decisions: seq<bool>, from: nat, to: nat): nat
    requires |times| == |decisions|
  {
    if times == [] then 0
    else (if decisions[0] && from <= times[0] < to then 1 else 0) + AllowedIn(times[1..], decisions[1..], from, to)
  }

  /** What a window still leaves room for in an interval one window long: its own rest if it began in the
      interval (a later window cannot), else its rest and one more window. */
  function Room(rule: Rule, w: Option<Window>, times: seq<nat>, from: nat): nat {
    if w.None? || times == [] then 2 * rule.max
    else if w.value.start >= from then (if w.value.count <= rule.max then rule.max - w.value.count else 0)
    else if times[0] >= from then (if w.value.count <= 2 * rule.max then 2 * rule.max - w.value.count else 0)
    else 2 * rule.max
  }

  lemma {:induction false} NoneAfter(times: seq<nat>, decisions: seq<bool>, from: nat, to: nat)
    requires |times| == |decisions| && NonDecreasing(times) && times != [] && times[0] >= to
    ensures AllowedIn(times, decisions, from, to) == 0
  {
    if |times| > 1 {
      NoneAfter(times[1..], decisions[1..], from, to);
    }
  }

  lemma {:induction false} RoomBounds(rule: Rule, w: Option<Window>, times: seq<nat>, from: nat)
    requires NonDecreasing(times)
    requires w.Some? ==> w.value.count <= rule.max && (times != [] ==> w.value.start <= times[0])
    ensures AllowedIn(times, OwnDecisions(rule, w, times), from, from + rule.window) <= Room(rule, w, times, from)
    decreases |times|
  {
    if times != [] {
      var d := Decide(rule, w, times[0]);
      var rest := times[1..];
      assert OwnDecisions(rule, w, times)[1..] == OwnDecisions(rule, Some(d.1), rest);
      RoomBounds(rule, Some(d.1), rest, from);
      if times[0] >= from + rule.window {
        NoneAfter(times, OwnDecisions(rule, w, times), from, from + rule.window);
      }
    }
  }

  /** With non-decreasing request times a principal is allowed at most twice the maximum in any half-open
      interval one window long, whatever the other principals do in between. */
  lemma AtMostTwiceTheMaximum(rule: Rule, calls: seq<Call>, principal: string, from: nat)
    requires NonDecreasing(TimesOf(calls, principal))
    ensures AllowedIn(TimesOf(calls, principal), About(calls, Decisions(rule, map[], calls), principal), from, from + rule.window)
            <= 2 * rule.max
  {
    PrincipalsAreIndependent(rule, map[], calls, principal);
    RoomBounds(rule, None, TimesOf(calls, principal), from);
  }

  // ----- refusals -----

  /** The stored windows after some requests. */
  function WindowsAfter(rule: Rule, windows: map<string, Window>, calls: seq<Call>): map<string, Window>
    decreases |calls|
  {
    if calls == [] then windows
    else
      var d := Decide(rule, Lookup(windows, calls[0].principal), calls[0].at);
      WindowsAfter(rule, windows[calls[0].principal := d.1], calls[1..])
  }

  /** The same for the requests of one principal alone. */
  function OwnAfter(rule: Rule, w: Option<Window>, times: seq<nat>): Option<Window>
    decreases |times|
  {
    if times == [] then w else OwnAfter(rule, Some(Decide(rule, w, times[0]).1), times[1..])
  }

  lemma {:induction false} WindowIsOwn(rule: Rule, windows: map<string, Window>, calls: seq<Call>, principal: string)
    ensures Lookup(WindowsAfter(rule, windows, calls), principal) == OwnAfter(rule, Lookup(windows, principal), TimesOf(calls, principal))
    decreases |calls|
  {
    if calls != [] {
      var p := calls[0].principal;
      var d := Decide(rule, Lookup(windows, p), calls[0].at);
      WindowIsOwn(rule, windows[p := d.1], calls[1..], principal);
      if p == principal {
        assert TimesOf(calls, principal)[1..] == TimesOf(calls[1..], principal);
      } else {
        assert TimesOf(calls, principal) == TimesOf(calls[1..], principal);
      }
    }
  }

  /** A decision depends on the requests before it through the stored window only. */
  lemma {:induction false} DecisionAt(rule: Rule, windows: map<string, Window>, calls: seq<Call>, k: nat)
    requires k < |calls|
    ensures Decisions(rule, windows, calls)[k] ==
            Decide(rule, Lookup(WindowsAfter(rule, windows, calls[..k]), calls[k].principal), calls[k].at).0
    decreases |calls|
  {
    if k > 0 {
      var d := Decide(rule, Lookup(windows, calls[0].principal), calls[0].at);
      DecisionAt(rule, windows[calls[0].principal := d.1], calls[1..], k - 1);
      assert calls[..k][1..] == calls[1..][..k - 1];
    }
  }

  lemma {:induction false} OwnSnoc(rule: Rule, w: Option<Window>, times: seq<nat>, t: nat)
    ensures var d := Decide(rule, OwnAfter(rule, w, times), t);
            && OwnAfter(rule, w, times + [t]) == Some(d.1)
            && OwnDecisions(rule, w, times + [t]) == OwnDecisions(rule, w, times) + [d.0]
    decreases |times|
  {
    if times == [] {
      assert times + [t] == [t] && [t][1..] == [];
    } else {
      OwnSnoc(rule, Some(Decide(rule, w, times[0]).1), times[1..], t);
      assert (times + [t])[1..] == times[1..] + [t] && (times + [t])[0] == times[0];
    }
  }

  lemma {:induction false} AllowedSnoc(times: seq<nat>, decisions: seq<bool>, t: nat, d: bool, from: nat, to: nat)
    requires |times| == |decisions|
    ensures AllowedIn(times + [t], decisions + [d], from, to) ==
            AllowedIn(times, decisions, from, to) + if d && from <= t < to then 1 else 0
    decreases |times|
  {
    if times == [] {
      assert times + [t] == [t] && decisions + [d] == [d];
    } else {
      AllowedSnoc(times[1..], decisions[1..], t, d, from, to);
      assert (times + [t])[1..] == times[1..] + [t] && (decisions + [d])[1..] == decisions[1..] + [d];
    }
  }

  /** Requests before the interval do not count, and past the last request its end does not matter. */
  lemma {:induction false} AllowedRange(times: seq<nat>, decisions: seq<bool>, from: nat, last: nat, to: nat)
    requires |times| == |decisions| && last < to && forall i | 0 <= i < |times| :: times[i] <= last
    ensures AllowedIn(times, decisions, from, last + 1) == AllowedIn(times, decisions, from, to)
    ensures last < from ==> AllowedIn(times, decisions, from, to) == 0
  {
    if times != [] {
      AllowedRange(times[1..], decisions[1..], from, last, to);
    }
  }

  /** The stored window is not over at the last request, and its count is the number of requests allowed
      since it began. */
  lemma {:induction false} CountIsAllowed(rule: Rule, times: seq<nat>)
    requires NonDecreasing(times) && times != []
    ensures OwnAfter(rule, None, times).Some?
    ensures var w, last := OwnAfter(rule, None, times).value, times[|times| - 1];
            && w.start <= last && w.count <= rule.max
            && (rule.window > 0 ==> last - w.start < rule.window
                                    && w.count == AllowedIn(times, OwnDecisions(rule, None, times), w.start, last + 1))
    decreases |times|
  {
    hide OwnDecisions, OwnAfter, AllowedIn;
    var n := |times| - 1;
    var before, t := times[..n], times[n];
    assert times == before + [t];
    OwnSnoc(rule, None, before, t);
    var w := OwnAfter(rule, None, times).value;
    AllowedSnoc(before, OwnDecisions(rule, None, before), t, Decide(rule, OwnAfter(rule, None, before), t).0, w.start, t + 1);
    if n == 0 {
      NothingYet(rule, w.start, t + 1);
    } else {
      CountIsAllowed(rule, before);
      AllowedRange(before, OwnDecisions(rule, None, before), w.start, before[n - 1], t + 1);
    }
  }

  /** The same for the requests of one principal alone. */
  lemma OwnRefused(rule: Rule, times: seq<nat>, t: nat)
    requires NonDecreasing(times + [t])
    ensures var w := WindowAt(rule, OwnAfter(rule, None, times), t);
            var allowed := AllowedIn(times, OwnDecisions(rule, None, times), w.start, t + 1);
            && w.start <= t
            && (rule.window > 0 ==> t - w.start < rule.window)
            && (Decide(rule, OwnAfter(rule, None, times), t).0 <==> if rule.window > 0 then allowed < rule.max else rule.max > 0)
  {
    hide AllowedIn, OwnDecisions, OwnAfter;
    FrontNonDecreasing(times, t);
    if times == [] {
      NothingYet(rule, t, t + 1);
    } else {
      var w := WindowAt(rule, OwnAfter(rule, None, times), t);
      CountIsAllowed(rule, times);
      AllowedRange(times, OwnDecisions(rule, None, times), w.start, times[|times| - 1], t + 1);
    }
  }

  lemma NothingYet(rule: Rule, from: nat, to: nat)
    ensures OwnAfter(rule, None, []) == None && AllowedIn([], OwnDecisions(rule, None, []), from, to) == 0
  {
  }

  /** A request is refused exactly if the maximum has been allowed to its principal since the window it
      falls into began; windows without length fill up only if nothing may be allowed at all. */
  lemma RefusedExactlyWhenFull(rule: Rule, calls: seq<Call>, k: nat)
    requires k < |calls| && NonDecreasing(TimesOf(calls[..k + 1], calls[k].principal))
    ensures var before, p, t := calls[..k], calls[k].principal, calls[k].at;
            var w := WindowAt(rule, Lookup(WindowsAfter(rule, map[], before), p), t);
            var allowed := AllowedIn(TimesOf(before, p), About(before, Decisions(rule, map[], before), p), w.start, t + 1);
            && w.start <= t
            && (rule.window > 0 ==> t - w.start < rule.window)
            && (Decisions(rule, map[], calls)[k] <==> if rule.window > 0 then allowed < rule.max else rule.max > 0)
  {
    hide AllowedIn, OwnDecisions, OwnAfter, TimesOf, About, Decisions, WindowsAfter, WindowAt, NonDecreasing, Decide, Lookup;
    var before, p, t := calls[..k], calls[k].principal, calls[k].at;
    DecisionAt(rule, map[], calls, k);
    WindowIsOwn(rule, map[], before, p);
    PrincipalsAreIndependent(rule, map[], before, p);
    NothingStored(p);
    assert calls[..k + 1] == before + [calls[k]];
    TimesSnoc(before, calls[k]);
    OwnRefused(rule, TimesOf(before, p), t);
  }

  lemma NothingStored(principal: string)
    ensures Lookup(map[], principal) == None
  {
  }

  lemma FrontNonDecreasing(times: seq<nat>, t: nat)
    requires NonDecreasing(times + [t])
    ensures NonDecreasing(times) && forall i | 0 <= i < |times| :: times[i] <= t
  {
    assert forall i | 0 <= i < |times| :: (times + [t])[i] == times[i];
    assert (times + [t])[|times|] == t;
  }

  lemma {:induction false} TimesSnoc(calls: seq<Call>, c: Call)
    ensures TimesOf(calls + [c], c.principal) == TimesOf(calls, c.principal) + [c.at]
  {
    if calls == [] {
      assert calls + [c] == [c] && [c][1..] == [];
    } else {
      TimesSnoc(calls[1..], c);
      assert (calls + [c])[1..] == calls[1..] + [c];
    }
  }
}

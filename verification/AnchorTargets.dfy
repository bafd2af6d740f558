/** Which line an anchored edit means, and that it keeps meaning it when the file drifts. */
module AnchorTargets {
  import opened Strings
  import opened Protocol
  import opened Anchor

  // ----- exactly which line is meant -----

  ghost predicate StrictlyAscending(s: seq<nat>) {
    forall i, j | 0 <= i < j < |s| :: s[i] < s[j]
  }

  lemma {:induction false} MatchesExactly(h: Hash, lines: seq<string>, anchor: string, n: nat)
    requires n <= |lines|
    ensures StrictlyAscending(MatchesBelow(h, lines, anchor, n))
    ensures forall i: nat :: i in MatchesBelow(h, lines, anchor, n) <==> i < n && h(lines[i]) == anchor
  {
    if n > 0 {
      MatchesExactly(h, lines, anchor, n - 1);
      var m := MatchesBelow(h, lines, anchor, n - 1);
      forall k | 0 <= k < |m|
        ensures m[k] < n - 1
      {
        assert m[k] in m;
      }
    }
  }

  /** Line `i` is the only one with this anchor. */
  ghost predicate Sole(h: Hash, lines: seq<string>, anchor: string, i: nat) {
    i < |lines| && forall j | 0 <= j < |lines| :: h(lines[j]) == anchor <==> j == i
  }

  /** The landmark is the only one of its kind, and `i` is the first match below it. */
  ghost predicate Pinned(h: Hash, lines: seq<string>, e: Edit, n: nat, i: nat) {
    && e.after.Some? && Sole(h, lines, e.after.value, n)
    && n < i < |lines| && h(lines[i]) == e.anchor && forall j | n < j < i :: h(lines[j]) != e.anchor
  }

  /** The line an edit means: the only match, or the first one below its landmark. */
  ghost predicate Means(h: Hash, lines: seq<string>, e: Edit, i: nat) {
    Sole(h, lines, e.anchor, i) || exists n :: Pinned(h, lines, e, n, i)
  }

  lemma SoleIsOneMatch(h: Hash, lines: seq<string>, anchor: string)
    ensures |Matches(h, lines, anchor)| == 1 ==> Sole(h, lines, anchor, Matches(h, lines, anchor)[0])
    ensures forall i: nat :: Sole(h, lines, anchor, i) ==> Matches(h, lines, anchor) == [i]
  {
    MatchesExactly(h, lines, anchor, |lines|);
    var m := Matches(h, lines, anchor);
    if |m| == 1 {
      assert m[0] in m;
    }
    forall i: nat | Sole(h, lines, anchor, i)
      ensures m == [i]
    {
      OnlyMember(m, i);
    }
  }

  lemma OnlyMember(m: seq<nat>, i: nat)
    requires StrictlyAscending(m) && forall j: nat :: j in m <==> j == i
    ensures m == [i]
  {
    assert i in m;
    forall k | 0 <= k < |m|
      ensures m[k] == i
    {
      assert m[k] in m;
    }
    FirstTwo(m);
  }

  lemma FirstTwo(m: seq<nat>)
    requires StrictlyAscending(m)
    ensures |m| >= 2 ==> m[0] < m[1]
  {
  }

  lemma {:induction false} FirstAfterExactly(m: seq<nat>, n: nat)
    requires StrictlyAscending(m)
    ensures FirstAfter(m, n) == None ==> forall j | j in m :: j <= n
    ensures FirstAfter(m, n).Some? ==>
              var i := FirstAfter(m, n).value; i in m && n < i && forall j | j in m && j < i :: j <= n
  {
    if m != [] {
      FirstAfterExactly(m[1..], n);
      forall j | j in m
        ensures j == m[0] || (j in m[1..] && m[0] < j)
      {
        var k :| 0 <= k < |m| && m[k] == j;
        assert k > 0 ==> m[1..][k - 1] == j;
      }
    }
  }

  lemma PinnedIsFirst(h: Hash, lines: seq<string>, e: Edit, n: nat, i: nat)
    requires Pinned(h, lines, e, n, i)
    ensures FirstAfter(Matches(h, lines, e.anchor), n) == Some(i)
  {
    var m := Matches(h, lines, e.anchor);
    MatchesExactly(h, lines, e.anchor, |lines|);
    FirstAfterExactly(m, n);
    assert i in m;
  }

  lemma ResolvedIsMeant(h: Hash, lines: seq<string>, e: Edit)
    requires Resolve(h, lines, e).Ok?
    ensures Means(h, lines, e, Resolve(h, lines, e).value)
  {
    hide Matches, Sole;
    var m := Matches(h, lines, e.anchor);
    SoleIsOneMatch(h, lines, e.anchor);
    if |m| != 1 {
      var landmark := e.after.value;
      SoleIsOneMatch(h, lines, landmark);
      var n := Matches(h, lines, landmark)[0];
      var i := Resolve(h, lines, e).value;
      FirstIsPinned(h, lines, e, n, i);
    }
  }

  lemma FirstIsPinned(h: Hash, lines: seq<string>, e: Edit, n: nat, i: nat)
    requires e.after.Some? && Sole(h, lines, e.after.value, n) && FirstAfter(Matches(h, lines, e.anchor), n) == Some(i)
    ensures Pinned(h, lines, e, n, i)
  {
    var m := Matches(h, lines, e.anchor);
    MatchesExactly(h, lines, e.anchor, |lines|);
    FirstAfterExactly(m, n);
    forall j | n < j < i && j < |lines|
      ensures h(lines[j]) != e.anchor
    {
      assert h(lines[j]) == e.anchor ==> j in m;
    }
  }

  /** An edit resolves to a line exactly if that is the line it means; otherwise it is refused. */
  lemma ResolvesExactly(h: Hash, lines: seq<string>, e: Edit, i: nat)
    ensures Resolve(h, lines, e) == Ok(i) <==> Means(h, lines, e, i)
  {
    hide Matches, Sole, Pinned;
    if Resolve(h, lines, e) == Ok(i) {
      ResolvedIsMeant(h, lines, e);
    }
    if Means(h, lines, e, i) {
      SoleIsOneMatch(h, lines, e.anchor);
      if !Sole(h, lines, e.anchor, i) {
        var n :| Pinned(h, lines, e, n, i);
        PinnedIsFirst(h, lines, e, n, i);
        PinnedLandmark(h, lines, e, n, i);
        SoleIsOneMatch(h, lines, e.after.value);
        if |Matches(h, lines, e.anchor)| == 1 {
          OnlyFirst(Matches(h, lines, e.anchor), n, i);
        }
        FoundAmong(Matches(h, lines, e.anchor), n);
      }
    }
  }

  /** The lines with an anchor. */
  function Having(h: Hash, lines: seq<string>, anchor: string): set<nat> {
    set i: nat | i < |lines| && h(lines[i]) == anchor
  }

  /** Why an edit is refused: nothing has its anchor, several lines do and no landmark is named, or the
      landmark is missing, not the only one, or below all of them. */
  ghost predicate IsRefusedAs(h: Hash, lines: seq<string>, e: Edit, error: AnchorError) {
    var here := Having(h, lines, e.anchor);
    match error
    case NotFound(a) => a == e.anchor && here == {}
    case Ambiguous(a, n) => a == e.anchor && n == |here| && |here| > 1 && e.after.None?
    case AfterNotFound(a) => e.after == Some(a) && |here| > 1 && Having(h, lines, a) == {}
    case AfterAmbiguous(a, n) => e.after == Some(a) && |here| > 1 && n == |Having(h, lines, a)| && n > 1
    case NoneAfter(a, b) =>
      && a == e.anchor && |here| > 1 && e.after == Some(b) && |Having(h, lines, b)| == 1
      && forall i, n | i in here && n in Having(h, lines, b) :: i <= n
  }

  lemma LastApart(m: seq<nat>)
    requires m != [] && StrictlyAscending(m)
    ensures var n := |m| - 1; StrictlyAscending(m[..n]) && forall i :: i in m[..n] <==> i in m && i != m[n]
  {
    var n := |m| - 1;
    assert m == m[..n] + [m[n]];
    forall i | i in m[..n]
      ensures i != m[n]
    {
      var k :| 0 <= k < n && m[k] == i;
    }
  }

  lemma {:induction false} AsMany(m: seq<nat>, s: set<nat>)
    requires StrictlyAscending(m) && forall i :: i in m <==> i in s
    ensures |m| == |s|
  {
    hide StrictlyAscending;
    if m == [] {
      assert s == {};
    } else {
      var x := m[|m| - 1];
      LastApart(m);
      assert x in m;
      AsMany(m[..|m| - 1], s - {x});
    }
  }

  lemma MatchesAreHaving(h: Hash, lines: seq<string>, anchor: string)
    ensures |Matches(h, lines, anchor)| == |Having(h, lines, anchor)|
    ensures forall i :: i in Matches(h, lines, anchor) <==> i in Having(h, lines, anchor)
    ensures StrictlyAscending(Matches(h, lines, anchor))
  {
    MatchesExactly(h, lines, anchor, |lines|);
    AsMany(Matches(h, lines, anchor), Having(h, lines, anchor));
  }

  lemma BelowLandmark(h: Hash, lines: seq<string>, anchor: string, landmark: string)
    requires |Having(h, lines, landmark)| == 1
    ensures var m, l := Matches(h, lines, anchor), Matches(h, lines, landmark);
            && |l| == 1
            && (FirstAfter(m, l[0]) == None <==>
                  forall i, n | i in Having(h, lines, anchor) && n in Having(h, lines, landmark) :: i <= n)
  {
    hide Matches, Having, FirstAfter;
    var m, l := Matches(h, lines, anchor), Matches(h, lines, landmark);
    MatchesAreHaving(h, lines, anchor);
    MatchesAreHaving(h, lines, landmark);
    FirstAfterExactly(m, l[0]);
    assert l == [l[0]] && l[0] in l;
    assert forall n :: n in Having(h, lines, landmark) <==> n == l[0];
  }

  /** An edit is refused exactly for that reason. */
  lemma RefusedExactly(h: Hash, lines: seq<string>, e: Edit, error: AnchorError)
    ensures Resolve(h, lines, e) == Err(error) <==> IsRefusedAs(h, lines, e, error)
  {
    hide Matches, Having, FirstAfter;
    MatchesAreHaving(h, lines, e.anchor);
    if e.after.Some? {
      MatchesAreHaving(h, lines, e.after.value);
      if |Having(h, lines, e.after.value)| == 1 {
        BelowLandmark(h, lines, e.anchor, e.after.value);
      }
    }
  }

  lemma PinnedLandmark(h: Hash, lines: seq<string>, e: Edit, n: nat, i: nat)
    requires Pinned(h, lines, e, n, i)
    ensures e.after.Some? && Sole(h, lines, e.after.value, n)
  {
  }

  lemma FoundAmong(m: seq<nat>, n: nat)
    ensures FirstAfter(m, n).Some? ==> m != []
  {
  }

  lemma OnlyFirst(m: seq<nat>, n: nat, i: nat)
    requires |m| == 1 && FirstAfter(m, n) == Some(i)
    ensures m[0] == i
  {
    assert FirstAfter(m[1..], n) == None;
  }

  // ----- drift -----

  /** What each line became, with the extra lines around it: `extras[i]` goes before line `i`. */
  function WovenTo(groups: seq<seq<string>>, extras: seq<seq<string>>, n: nat): seq<string>
    requires n <= |groups| && n <= |extras|
  {
    if n == 0 then [] else WovenTo(groups, extras, n - 1) + extras[n - 1] + groups[n - 1]
  }

  function Woven(groups: seq<seq<string>>, extras: seq<seq<string>>): seq<string>
    requires |extras| == |groups| + 1
  {
    WovenTo(groups, extras, |groups|) + extras[|groups|]
  }

  function Singles(lines: seq<string>): (g: seq<seq<string>>)
    ensures |g| == |lines|
  {
    seq(|lines|, i requires 0 <= i < |lines| => [lines[i]])
  }

  /** The file after other lines were inserted. */
  function Drifted(lines: seq<string>, extras: seq<seq<string>>): seq<string>
    requires |extras| == |lines| + 1
  {
    Woven(Singles(lines), extras)
  }

  /** Where the extra lines before line `i` begin. */
  function Start(extras: seq<seq<string>>, i: nat): nat
    requires i <= |extras|
  {
    if i == 0 then 0 else Start(extras, i - 1) + |extras[i - 1]| + 1
  }

  /** Where line `i` has drifted to. */
  function Position(extras: seq<seq<string>>, i: nat): nat
    requires i < |extras|
  {
    Start(extras, i) + |extras[i]|
  }

  lemma {:induction false} PositionsAscend(extras: seq<seq<string>>, i: nat, j: nat)
    requires i < j < |extras|
    ensures Position(extras, i) < Start(extras, j) <= Position(extras, j)
    decreases j
  {
    if i + 1 < j {
      PositionsAscend(extras, i, j - 1);
    }
  }

  lemma {:induction false} WovenLength(lines: seq<string>, extras: seq<seq<string>>, n: nat)
    requires |extras| == |lines| + 1 && n <= |lines|
    ensures |WovenTo(Singles(lines), extras, n)| == Start(extras, n)
    decreases n
  {
    if n > 0 {
      WovenLength(lines, extras, n - 1);
    }
  }

  lemma {:induction false} WovenPrefix(lines: seq<string>, extras: seq<seq<string>>, n: nat, k: nat)
    requires |extras| == |lines| + 1 && k <= n <= |lines|
    ensures Start(extras, k) <= |WovenTo(Singles(lines), extras, n)|
    ensures WovenTo(Singles(lines), extras, n)[..Start(extras, k)] == WovenTo(Singles(lines), extras, k)
    decreases n
  {
    hide Singles;
    WovenLength(lines, extras, k);
    if k < n {
      WovenPrefix(lines, extras, n - 1, k);
      WovenLength(lines, extras, n - 1);
    }
  }

  /** The block that line `i` and the extra lines before it form. */
  lemma DriftedBlock(lines: seq<string>, extras: seq<seq<string>>, i: nat)
    requires |extras| == |lines| + 1 && i < |lines|
    ensures Start(extras, i) <= Position(extras, i) < |Drifted(lines, extras)|
    ensures Drifted(lines, extras)[Start(extras, i)..Position(extras, i)] == extras[i]
    ensures Drifted(lines, extras)[Position(extras, i)] == lines[i]
  {
    hide Start, WovenTo;
    var before, w := WovenTo(Singles(lines), extras, i), WovenTo(Singles(lines), extras, |lines|);
    WovenPrefix(lines, extras, |lines|, i + 1);
    WovenLength(lines, extras, i);
    NextBlock(lines, extras, i);
    BlockInPrefix(Drifted(lines, extras), Start(extras, i + 1), before, extras[i], lines[i]) by {
      assert Drifted(lines, extras)[..Start(extras, i + 1)] == w[..Start(extras, i + 1)];
    }
  }

  lemma NextBlock(lines: seq<string>, extras: seq<seq<string>>, i: nat)
    requires |extras| == |lines| + 1 && i < |lines|
    ensures WovenTo(Singles(lines), extras, i + 1) == WovenTo(Singles(lines), extras, i) + extras[i] + [lines[i]]
    ensures Start(extras, i + 1) == Start(extras, i) + |extras[i]| + 1
  {
  }

  lemma BlockInPrefix(d: seq<string>, end: nat, before: seq<string>, extra: seq<string>, line: string)
    requires end <= |d| && d[..end] == before + extra + [line]
    ensures end == |before| + |extra| + 1
    ensures d[|before|..|before| + |extra|] == extra && d[|before| + |extra|] == line
  {
    var p := before + extra + [line];
    assert |d[..end]| == |p|;
    assert d[|before|..|before| + |extra|] == p[|before|..|before| + |extra|];
    assert d[|before| + |extra|] == p[|before| + |extra|];
  }

  lemma DriftedEnd(lines: seq<string>, extras: seq<seq<string>>)
    requires |extras| == |lines| + 1
    ensures Start(extras, |lines|) <= |Drifted(lines, extras)| && Drifted(lines, extras)[Start(extras, |lines|)..] == extras[|lines|]
  {
    WovenLength(lines, extras, |lines|);
  }

  /** Line `i` has drifted to position `p`. */
  ghost predicate MovedTo(extras: seq<seq<string>>, lines: seq<string>, i: nat, p: nat) {
    |extras| == |lines| + 1 && i < |lines| && Position(extras, i) == p
  }

  ghost predicate IsExtra(extras: seq<seq<string>>, line: string) {
    exists k | 0 <= k < |extras| :: line in extras[k]
  }

  /** Every line of the drifted file is an old line or an extra one. */
  lemma {:induction false} OldOrExtra(lines: seq<string>, extras: seq<seq<string>>, p: nat, n: nat)
    requires |extras| == |lines| + 1 && n <= |lines|
    requires p < |Drifted(lines, extras)| && (n < |lines| ==> p < Start(extras, n + 1))
    ensures (exists i :: MovedTo(extras, lines, i, p)) || IsExtra(extras, Drifted(lines, extras)[p])
    decreases n
  {
    hide Drifted;
    var d := Drifted(lines, extras);
    if p < Start(extras, n) {
      OldOrExtra(lines, extras, p, n - 1);
    } else if n == |lines| {
      DriftedEnd(lines, extras);
      assert d[p] == d[Start(extras, n)..][p - Start(extras, n)];
      assert d[p] in extras[n];
    } else {
      DriftedBlock(lines, extras, n);
      if p < Position(extras, n) {
        assert d[p] == d[Start(extras, n)..Position(extras, n)][p - Start(extras, n)];
        assert d[p] in extras[n];
      } else {
        assert MovedTo(extras, lines, n, p);
      }
    }
  }

  /** No extra line has this anchor. */
  ghost predicate SilentOn(h: Hash, extras: seq<seq<string>>, anchor: string) {
    forall k, line | 0 <= k < |extras| && line in extras[k] :: h(line) != anchor
  }

  ghost predicate Silent(h: Hash, extras: seq<seq<string>>, e: Edit) {
    SilentOn(h, extras, e.anchor) && (e.after.Some? ==> SilentOn(h, extras, e.after.value))
  }

  function Shifted(extras: seq<seq<string>>, m: seq<nat>): (r: seq<nat>)
    requires forall k | 0 <= k < |m| :: m[k] < |extras|
    ensures |r| == |m| && forall k | 0 <= k < |m| :: r[k] == Position(extras, m[k])
  {
    seq(|m|, k requires 0 <= k < |m| => Position(extras, m[k]))
  }

  lemma {:induction false} AscendingIsUnique(a: seq<nat>, b: seq<nat>)
    requires StrictlyAscending(a) && StrictlyAscending(b) && forall x: nat :: x in a <==> x in b
    ensures a == b
    decreases |a|
  {
    HeadIn(a);
    HeadIn(b);
    if a != [] {
      var n, k := |a| - 1, |b| - 1;
      LastIsLargest(a, b[k]);
      LastIsLargest(b, a[n]);
      forall x: nat
        ensures x in a[..n] <==> x in b[..k]
      {
        InPrefix(a, x);
        InPrefix(b, x);
      }
      AscendingIsUnique(a[..n], b[..k]);
      assert a == a[..n] + [a[n]] && b == b[..k] + [b[k]];
    }
  }

  lemma HeadIn(a: seq<nat>)
    ensures a != [] ==> a[0] in a && a[|a| - 1] in a
  {
  }

  lemma LastIsLargest(a: seq<nat>, x: nat)
    requires StrictlyAscending(a) && x in a
    ensures x <= a[|a| - 1]
  {
    var i :| 0 <= i < |a| && a[i] == x;
  }

  lemma InPrefix(a: seq<nat>, x: nat)
    requires StrictlyAscending(a) && a != []
    ensures x in a[..|a| - 1] <==> x in a && x != a[|a| - 1]
  {
    if x in a && x != a[|a| - 1] {
      var i :| 0 <= i < |a| && a[i] == x;
      assert a[..|a| - 1][i] == x;
    }
  }

  lemma MatchesInRange(h: Hash, lines: seq<string>, anchor: string)
    ensures forall k | 0 <= k < |Matches(h, lines, anchor)| :: Matches(h, lines, anchor)[k] < |lines|
  {
    MatchesExactly(h, lines, anchor, |lines|);
    var m := Matches(h, lines, anchor);
    forall k | 0 <= k < |m|
      ensures m[k] < |lines|
    {
      assert m[k] in m;
    }
  }

  /** The matches of an anchor that no extra line has drift with their lines. */
  lemma MatchesDrift(h: Hash, lines: seq<string>, extras: seq<seq<string>>, anchor: string)
    requires |extras| == |lines| + 1 && SilentOn(h, extras, anchor)
    ensures forall k | 0 <= k < |Matches(h, lines, anchor)| :: Matches(h, lines, anchor)[k] < |lines|
    ensures Matches(h, Drifted(lines, extras), anchor) == Shifted(extras, Matches(h, lines, anchor))
  {
    hide Drifted, Position;
    MatchesInRange(h, lines, anchor);
    var d := Drifted(lines, extras);
    var m, r := Matches(h, lines, anchor), Shifted(extras, Matches(h, lines, anchor));
    MatchesExactly(h, lines, anchor, |lines|);
    MatchesExactly(h, d, anchor, |d|);
    forall i, j | 0 <= i < j < |r|
      ensures r[i] < r[j]
    {
      PositionsAscend(extras, m[i], m[j]);
    }
    forall p: nat
      ensures p in Matches(h, d, anchor) <==> p in r
    {
      if p in r {
        var k :| 0 <= k < |m| && r[k] == p;
        assert m[k] in m;
        DriftedBlock(lines, extras, m[k]);
      }
      if p in Matches(h, d, anchor) {
        OldOrExtra(lines, extras, p, |lines|);
        NotExtra(h, extras, anchor, d[p]);
        var i :| MovedTo(extras, lines, i, p);
        DriftedBlock(lines, extras, i);
        assert i in m;
        var k :| 0 <= k < |m| && m[k] == i;
        assert r[k] == p;
      }
    }
    AscendingIsUnique(Matches(h, d, anchor), r);
  }

  lemma NotExtra(h: Hash, extras: seq<seq<string>>, anchor: string, line: string)
    requires SilentOn(h, extras, anchor) && h(line) == anchor
    ensures !IsExtra(extras, line)
  {
  }

  lemma {:induction false} FirstAfterDrifts(extras: seq<seq<string>>, m: seq<nat>, n: nat)
    requires n < |extras| && forall k | 0 <= k < |m| :: m[k] < |extras|
    ensures FirstAfter(Shifted(extras, m), Position(extras, n)) ==
            match FirstAfter(m, n) case Some(i) => (if i < |extras| then Some(Position(extras, i)) else None) case None => None
  {
    hide Position;
    if m != [] {
      FirstAfterDrifts(extras, m[1..], n);
      assert Shifted(extras, m)[1..] == Shifted(extras, m[1..]);
      FirstInRange(m, n, |extras|);
      if m[0] < n {
        PositionsAscend(extras, m[0], n);
      } else if m[0] > n {
        PositionsAscend(extras, n, m[0]);
      }
    }
  }

  lemma {:induction false} FirstInRange(m: seq<nat>, n: nat, bound: nat)
    requires forall k | 0 <= k < |m| :: m[k] < bound
    ensures FirstAfter(m, n).Some? ==> FirstAfter(m, n).value < bound
  {
    if m != [] {
      FirstInRange(m[1..], n, bound);
    }
  }

  /** An edit resolves to the line it resolved to before, wherever that line has drifted; and if it
      was refused it is refused in the same words. */
  lemma ResolutionDrifts(h: Hash, lines: seq<string>, extras: seq<seq<string>>, e: Edit)
    requires |extras| == |lines| + 1 && Silent(h, extras, e)
    ensures match Resolve(h, lines, e)
            case Err(err) => Resolve(h, Drifted(lines, extras), e) == Err(err)
            case Ok(i) => i < |lines| && Resolve(h, Drifted(lines, extras), e) == Ok(Position(extras, i))
  {
    hide Matches, Position, Drifted, SilentOn;
    var d := Drifted(lines, extras);
    MatchesDrift(h, lines, extras, e.anchor);
    var m := Matches(h, lines, e.anchor);
    if |m| > 1 && e.after.Some? {
      MatchesDrift(h, lines, extras, e.after.value);
      var l := Matches(h, lines, e.after.value);
      if |l| == 1 {
        FirstAfterDrifts(extras, m, l[0]);
        FirstInRange(m, l[0], |lines|);
      }
    }
  }

  /** The same placements in the drifted file. */
  ghost predicate SamePlaces(lines: seq<string>, extras: seq<seq<string>>, was: seq<Placed>, now: seq<Placed>) {
    && |extras| == |lines| + 1 && |was| == |now|
    && forall k | 0 <= k < |now| :: MovedTo(extras, lines, was[k].at, now[k].at) && now[k].op == was[k].op
  }

  lemma {:induction false} AllResolutionsDrift(h: Hash, lines: seq<string>, extras: seq<seq<string>>, edits: seq<Edit>)
    requires |extras| == |lines| + 1 && forall k | 0 <= k < |edits| :: Silent(h, extras, edits[k])
    ensures var now := ResolveAll(h, Drifted(lines, extras), edits);
            match ResolveAll(h, lines, edits)
            case Err(err) => now == Err(err)
            case Ok(placed) => now.Ok? && SamePlaces(lines, extras, placed, now.value)
  {
    hide Resolve, Position, Drifted, Silent;
    if edits != [] {
      ResolutionDrifts(h, lines, extras, edits[0]);
      AllResolutionsDrift(h, lines, extras, edits[1..]);
    }
  }

  lemma {:induction false} OpsDrift(lines: seq<string>, extras: seq<seq<string>>, was: seq<Placed>, now: seq<Placed>, i: nat)
    requires SamePlaces(lines, extras, was, now) && i < |lines|
    ensures OpsAt(now, Position(extras, i)) == OpsAt(was, i)
    decreases |now|
  {
    hide Position;
    if now != [] {
      var k := |now| - 1;
      OpsDrift(lines, extras, was[..k], now[..k], i);
      assert MovedTo(extras, lines, was[k].at, now[k].at);
      if was[k].at < i {
        PositionsAscend(extras, was[k].at, i);
      } else if was[k].at > i {
        PositionsAscend(extras, i, was[k].at);
      }
    }
  }

  lemma {:induction false} NoOpsElsewhere(placed: seq<Placed>, p: nat)
    requires forall k | 0 <= k < |placed| :: placed[k].at != p
    ensures OpsAt(placed, p) == []
  {
    if placed != [] {
      NoOpsElsewhere(placed[..|placed| - 1], p);
    }
  }

  lemma {:induction false} FlattenSingles(lines: seq<string>)
    ensures Flatten(Singles(lines)) == lines
  {
    if lines != [] {
      FlattenSingles(lines[1..]);
      assert Singles(lines)[1..] == Singles(lines[1..]);
    }
  }

  lemma ExtrasUntouched(lines: seq<string>, extras: seq<seq<string>>, was: seq<Placed>, now: seq<Placed>, i: nat, p: nat)
    requires SamePlaces(lines, extras, was, now) && i <= |lines| && Start(extras, i) <= p && (i < |lines| ==> p < Position(extras, i))
    ensures OpsAt(now, p) == []
  {
    hide Position, Start;
    forall k | 0 <= k < |now|
      ensures now[k].at != p
    {
      assert MovedTo(extras, lines, was[k].at, now[k].at);
      if was[k].at < i {
        PositionsAscend(extras, was[k].at, i);
      } else if was[k].at > i {
        PositionsAscend(extras, i, was[k].at);
      }
    }
    NoOpsElsewhere(now, p);
  }

  lemma EmitUntouched(line: string)
    ensures Emit(line, []) == [line]
  {
  }

  lemma ExtraGroup(lines: seq<string>, extras: seq<seq<string>>, was: seq<Placed>, now: seq<Placed>, i: nat, p: nat)
    requires SamePlaces(lines, extras, was, now) && i <= |lines| && Start(extras, i) <= p < |Drifted(lines, extras)|
    requires i < |lines| ==> p < Position(extras, i)
    ensures Groups(Drifted(lines, extras), now)[p] == [Drifted(lines, extras)[p]]
  {
    hide Drifted, Emit, Position, Start, OpsAt;
    ExtrasUntouched(lines, extras, was, now, i, p);
    EmitUntouched(Drifted(lines, extras)[p]);
  }

  /** The extra lines stay as they are. */
  lemma ExtraGroups(lines: seq<string>, extras: seq<seq<string>>, was: seq<Placed>, now: seq<Placed>, i: nat)
    requires SamePlaces(lines, extras, was, now) && i <= |lines|
    ensures var d := Drifted(lines, extras);
            var end := if i < |lines| then Position(extras, i) else |d|;
            Start(extras, i) <= end <= |d| && Groups(d, now)[Start(extras, i)..end] == Singles(extras[i])
  {
    hide Drifted, Emit, Groups, Position, Start;
    var d := Drifted(lines, extras);
    if i < |lines| {
      DriftedBlock(lines, extras, i);
    } else {
      DriftedEnd(lines, extras);
    }
    var start := Start(extras, i);
    var end := if i < |lines| then Position(extras, i) else |d|;
    assert d[start..end] == extras[i];
    forall p | start <= p < end
      ensures Groups(d, now)[p] == [d[p]]
    {
      ExtraGroup(lines, extras, was, now, i, p);
    }
    SinglesOf(d, Groups(d, now), start, end);
  }

  lemma SinglesOf(d: seq<string>, g: seq<seq<string>>, start: nat, end: nat)
    requires start <= end <= |d| == |g| && forall p | start <= p < end :: g[p] == [d[p]]
    ensures g[start..end] == Singles(d[start..end])
  {
  }

  lemma {:induction false} GroupsDrift(lines: seq<string>, extras: seq<seq<string>>, was: seq<Placed>, now: seq<Placed>, n: nat)
    requires SamePlaces(lines, extras, was, now) && n <= |lines|
    ensures Start(extras, n) <= |Drifted(lines, extras)|
    ensures Flatten(Groups(Drifted(lines, extras), now)[..Start(extras, n)]) == WovenTo(Groups(lines, was), extras, n)
    decreases n
  {
    hide Drifted, Emit, Groups, Flatten;
    var g := Groups(Drifted(lines, extras), now);
    if n == 0 {
      assert Flatten(g[..0]) == [] by { FlattenNone(g); }
    } else {
      var i := n - 1;
      GroupsDrift(lines, extras, was, now, i);
      DriftedBlock(lines, extras, i);
      ExtraGroups(lines, extras, was, now, i);
      FlattenSingles(extras[i]);
      LineGroup(lines, extras, was, now, i);
      var p := Position(extras, i);
      assert g[..p + 1] == g[..Start(extras, i)] + g[Start(extras, i)..p] + [g[p]];
      FlattenAppend(g[..Start(extras, i)] + g[Start(extras, i)..p], [g[p]]);
      FlattenAppend(g[..Start(extras, i)], g[Start(extras, i)..p]);
      FlattenOne(g[p]);
    }
  }

  lemma LineGroup(lines: seq<string>, extras: seq<seq<string>>, was: seq<Placed>, now: seq<Placed>, i: nat)
    requires SamePlaces(lines, extras, was, now) && i < |lines|
    ensures Position(extras, i) < |Drifted(lines, extras)|
    ensures Groups(Drifted(lines, extras), now)[Position(extras, i)] == Groups(lines, was)[i]
  {
    hide Drifted, Emit, Position;
    DriftedBlock(lines, extras, i);
    OpsDrift(lines, extras, was, now, i);
  }

  lemma RebuiltDrifts(lines: seq<string>, extras: seq<seq<string>>, was: seq<Placed>, now: seq<Placed>)
    requires SamePlaces(lines, extras, was, now)
    ensures Rebuilt(Drifted(lines, extras), now) == Woven(Groups(lines, was), extras)
  {
    hide Drifted, Groups, Flatten;
    var g := Groups(Drifted(lines, extras), now);
    GroupsDrift(lines, extras, was, now, |lines|);
    ExtraGroups(lines, extras, was, now, |lines|);
    FlattenSingles(extras[|lines|]);
    var s := Start(extras, |lines|);
    assert g == g[..s] + g[s..] && g[s..] == g[s..|g|];
    FlattenAppend(g[..s], g[s..]);
  }

  /** Drift stability: after any lines were inserted whose anchors match no anchor or landmark of the
      batch, the batch does to every line what it would have done before, with the inserted lines in
      place; and a batch that was refused is refused with the same error. */
  lemma EditsSurviveDrift(h: Hash, lines: seq<string>, extras: seq<seq<string>>, edits: seq<Edit>)
    requires |extras| == |lines| + 1 && forall k | 0 <= k < |edits| :: Silent(h, extras, edits[k])
    ensures ResolveAll(h, lines, edits).Err? ==>
              LinesAfter(h, Drifted(lines, extras), edits) == LinesAfter(h, lines, edits) == Err(ResolveAll(h, lines, edits).error)
    ensures ResolveAll(h, lines, edits).Ok? ==>
              var groups := Groups(lines, ResolveAll(h, lines, edits).value);
              && LinesAfter(h, lines, edits) == Ok(Flatten(groups))
              && LinesAfter(h, Drifted(lines, extras), edits) == Ok(Woven(groups, extras))
  {
    hide ResolveAll, Drifted, Groups, Flatten, Silent, Rebuilt;
    AllResolutionsDrift(h, lines, extras, edits);
    if ResolveAll(h, lines, edits).Ok? {
      RebuiltDrifts(lines, extras, ResolveAll(h, lines, edits).value, ResolveAll(h, Drifted(lines, extras), edits).value);
      RebuiltIsFlat(lines, ResolveAll(h, lines, edits).value);
    }
  }

  lemma RebuiltIsFlat(lines: seq<string>, placed: seq<Placed>)
    ensures Rebuilt(lines, placed) == Flatten(Groups(lines, placed))
  {
  }
}

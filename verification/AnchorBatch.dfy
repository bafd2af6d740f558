/** A batch of anchored edits against the same edits applied one at a time. */
module AnchorBatch {
  import opened Strings
  import opened Protocol
  import opened Anchor
  import opened AnchorTargets

  function OpLines(op: EditOp): seq<string> {
    match op
    case Replace(text) => Lines(text)
    case InsertAfter(text) => Lines(text)
    case InsertBefore(text) => Lines(text)
    case Delete => []
  }

  /** What one operation makes of a line. */
  function Becomes(line: string, op: EditOp): seq<string> {
    match op
    case Replace(text) => Lines(text)
    case InsertAfter(text) => [line] + Lines(text)
    case InsertBefore(text) => Lines(text) + [line]
    case Delete => []
  }

  lemma EmitOne(line: string, op: EditOp)
    ensures Emit(line, [op]) == Becomes(line, op)
  {
    hide Lines;
    NoParts();
    PartsNext([op], 0);
    assert [op][..1] == [op] && [op][..0] == [];
  }

  /** The lines after a single operation at line `t`. */
  function Apply(lines: seq<string>, t: nat, op: EditOp): seq<string>
    requires t < |lines|
  {
    lines[..t] + Becomes(lines[t], op) + lines[t + 1..]
  }

  /** Where line `i` is afterwards, if it is still there. */
  function Moved(t: nat, op: EditOp, i: nat): nat {
    if i < t then i
    else if i == t then t + if op.InsertBefore? then |OpLines(op)| else 0
    else i - 1 + |OpLines(op)| + if Removes(op) then 0 else 1
  }

  predicate Survives(t: nat, op: EditOp, i: nat) {
    i != t || !Removes(op)
  }

  lemma MovedInOrder(t: nat, op: EditOp, i: nat, j: nat)
    requires i < j && Survives(t, op, i) && Survives(t, op, j)
    ensures Moved(t, op, i) < Moved(t, op, j)
  {
    hide Lines;
  }

  lemma MovedLine(lines: seq<string>, t: nat, op: EditOp, i: nat)
    requires t < |lines| && i < |lines| && Survives(t, op, i)
    ensures Moved(t, op, i) < |Apply(lines, t, op)| && Apply(lines, t, op)[Moved(t, op, i)] == lines[i]
  {
    hide Lines;
  }

  ghost predicate CameFrom(lines: seq<string>, t: nat, op: EditOp, p: nat, i: nat) {
    i < |lines| && Survives(t, op, i) && Moved(t, op, i) == p
  }

  /** Every line afterwards was there before or was put in. */
  lemma OldOrNew(lines: seq<string>, t: nat, op: EditOp, p: nat)
    requires t < |lines| && p < |Apply(lines, t, op)|
    ensures (exists i :: CameFrom(lines, t, op, p, i)) || Apply(lines, t, op)[p] in OpLines(op)
  {
    hide Lines;
    var w := |Becomes(lines[t], op)|;
    if p < t {
      assert CameFrom(lines, t, op, p, p);
    } else if p >= t + w {
      assert CameFrom(lines, t, op, p, p - w + 1);
    } else {
      var x := Becomes(lines[t], op)[p - t];
      assert Apply(lines, t, op)[p] == x;
      if x !in OpLines(op) {
        assert CameFrom(lines, t, op, p, t) by {
          NewOrSame(lines[t], op, p - t);
        }
      }
    }
  }

  lemma NewOrSame(line: string, op: EditOp, k: nat)
    requires k < |Becomes(line, op)|
    ensures Becomes(line, op)[k] in OpLines(op) || (!Removes(op) && k == if op.InsertBefore? then |OpLines(op)| else 0)
  {
    hide Lines;
    if op.InsertBefore? && k < |OpLines(op)| {
      assert Becomes(line, op)[k] == OpLines(op)[k];
    }
    if op.InsertAfter? && k > 0 {
      assert Becomes(line, op)[k] == OpLines(op)[k - 1];
    }
  }

  // ----- other edits keep their targets -----

  ghost predicate QuietOn(h: Hash, op: EditOp, anchor: string) {
    forall x | x in OpLines(op) :: h(x) != anchor
  }

  /** Nothing the operation puts in carries the anchor or landmark of the other edit. */
  ghost predicate Quiet(h: Hash, op: EditOp, other: Edit) {
    QuietOn(h, op, other.anchor) && (other.after.Some? ==> QuietOn(h, op, other.after.value))
  }

  lemma MatchCameFrom(h: Hash, lines: seq<string>, t: nat, op: EditOp, anchor: string, p: nat) returns (i: nat)
    requires t < |lines| && QuietOn(h, op, anchor) && p < |Apply(lines, t, op)| && h(Apply(lines, t, op)[p]) == anchor
    ensures CameFrom(lines, t, op, p, i) && h(lines[i]) == anchor
  {
    hide Apply, OpLines, Moved, Survives;
    OldOrNew(lines, t, op, p);
    i :| CameFrom(lines, t, op, p, i);
    MovedLine(lines, t, op, i);
  }

  lemma SoleMoves(h: Hash, lines: seq<string>, t: nat, op: EditOp, anchor: string, i: nat)
    requires t < |lines| && QuietOn(h, op, anchor) && Sole(h, lines, anchor, i) && Survives(t, op, i)
    ensures Sole(h, Apply(lines, t, op), anchor, Moved(t, op, i))
  {
    hide Apply, OpLines, Moved, Survives, QuietOn;
    var after := Apply(lines, t, op);
    MovedLine(lines, t, op, i);
    forall p | 0 <= p < |after| && h(after[p]) == anchor
      ensures p == Moved(t, op, i)
    {
      var k := MatchCameFrom(h, lines, t, op, anchor, p);
    }
  }

  lemma PinnedMoves(h: Hash, lines: seq<string>, t: nat, op: EditOp, e: Edit, n: nat, i: nat)
    requires t < |lines| && Quiet(h, op, e) && Pinned(h, lines, e, n, i) && Survives(t, op, n) && Survives(t, op, i)
    ensures Pinned(h, Apply(lines, t, op), e, Moved(t, op, n), Moved(t, op, i))
  {
    hide Apply, OpLines, Moved, Survives, QuietOn, Sole;
    var after := Apply(lines, t, op);
    assert n < |lines| by { SoleInRange(h, lines, e.after.value, n); }
    SoleMoves(h, lines, t, op, e.after.value, n);
    MovedLine(lines, t, op, i);
    MovedInOrder(t, op, n, i);
    forall p | Moved(t, op, n) < p < Moved(t, op, i)
      ensures h(after[p]) != e.anchor
    {
      if h(after[p]) == e.anchor {
        var k := MatchCameFrom(h, lines, t, op, e.anchor, p);
        BetweenBefore(t, op, n, k, i);
        assert false;
      }
    }
  }

  lemma SoleInRange(h: Hash, lines: seq<string>, anchor: string, i: nat)
    requires Sole(h, lines, anchor, i)
    ensures i < |lines| && h(lines[i]) == anchor
  {
  }

  lemma BetweenBefore(t: nat, op: EditOp, n: nat, k: nat, i: nat)
    requires Survives(t, op, n) && Survives(t, op, k) && Survives(t, op, i)
    requires Moved(t, op, n) < Moved(t, op, k) < Moved(t, op, i)
    ensures n < k < i
  {
    hide Moved, Survives;
    if k < n {
      MovedInOrder(t, op, k, n);
    }
    if i < k {
      MovedInOrder(t, op, i, k);
    }
  }

  function Target(h: Hash, lines: seq<string>, e: Edit): nat {
    match Resolve(h, lines, e) case Ok(i) => i case Err(_) => 0
  }

  /** Line `t` is the landmark by which `e` is told from other copies. */
  ghost predicate NeedsLandmark(h: Hash, lines: seq<string>, e: Edit, t: nat)
    requires t < |lines|
  {
    && !Sole(h, lines, e.anchor, Target(h, lines, e))
    && e.after.Some? && h(lines[t]) == e.after.value
  }

  lemma MeansMoves(h: Hash, lines: seq<string>, t: nat, op: EditOp, e: Edit)
    requires t < |lines| && Resolve(h, lines, e).Ok? && Resolve(h, lines, e).value != t && Quiet(h, op, e)
    requires Removes(op) ==> !NeedsLandmark(h, lines, e, t)
    ensures Resolve(h, lines, e).value < |lines|
    ensures Resolve(h, Apply(lines, t, op), e) == Ok(Moved(t, op, Resolve(h, lines, e).value))
  {
    hide Resolve, Sole, Apply, OpLines, Moved, QuietOn;
    var i := Resolve(h, lines, e).value;
    ResolvesExactly(h, lines, e, i);
    ResolvesExactly(h, Apply(lines, t, op), e, Moved(t, op, i));
    if Sole(h, lines, e.anchor, i) {
      SoleInRange(h, lines, e.anchor, i);
      SoleMoves(h, lines, t, op, e.anchor, i);
    } else {
      var n :| Pinned(h, lines, e, n, i);
      SoleInRange(h, lines, e.after.value, n);
      PinnedMoves(h, lines, t, op, e, n, i);
    }
  }

  // ----- independent edits -----

  /** The edits act on different lines, the first neither replaces nor deletes the landmark the other
      needs, and puts in no line with the other's anchor or landmark. */
  ghost predicate Apart(h: Hash, lines: seq<string>, e: Edit, f: Edit) {
    && Resolve(h, lines, e).Ok? && Resolve(h, lines, f).Ok?
    && Target(h, lines, e) != Target(h, lines, f) && Target(h, lines, e) < |lines|
    && (Removes(e.op) ==> !NeedsLandmark(h, lines, f, Target(h, lines, e)))
    && Quiet(h, e.op, f)
  }

  ghost predicate Independent(h: Hash, lines: seq<string>, edits: seq<Edit>) {
    && (forall k | 0 <= k < |edits| :: Resolve(h, lines, edits[k]).Ok?)
    && (forall j, k | 0 <= j < |edits| && 0 <= k < |edits| && j != k :: Apart(h, lines, edits[j], edits[k]))
  }

  lemma TargetInRange(h: Hash, lines: seq<string>, e: Edit)
    requires Resolve(h, lines, e).Ok?
    ensures Target(h, lines, e) < |lines|
  {
    hide Resolve;
    ResolvesExactly(h, lines, e, Target(h, lines, e));
  }

  lemma StaysApart(h: Hash, lines: seq<string>, first: Edit, e: Edit, f: Edit)
    requires Apart(h, lines, first, e) && Apart(h, lines, first, f) && Apart(h, lines, e, f)
    ensures Apart(h, Apply(lines, Target(h, lines, first), first.op), e, f)
  {
    hide Resolve, Sole, Apply, Moved, Quiet;
    var t, op := Target(h, lines, first), first.op;
    var after := Apply(lines, t, op);
    var i, j := Target(h, lines, e), Target(h, lines, f);
    MeansMoves(h, lines, t, op, e);
    MeansMoves(h, lines, t, op, f);
    MovedLine(lines, t, op, i);
    MovedLine(lines, t, op, j);
    if i < j {
      MovedInOrder(t, op, i, j);
    } else {
      MovedInOrder(t, op, j, i);
    }
    if Removes(e.op) && NeedsLandmark(h, after, f, Target(h, after, e)) {
      if Sole(h, lines, f.anchor, j) {
        QuietAnchor(h, op, f);
        SoleMoves(h, lines, t, op, f.anchor, j);
      }
      assert false;
    }
  }

  lemma QuietAnchor(h: Hash, op: EditOp, e: Edit)
    requires Quiet(h, op, e)
    ensures QuietOn(h, op, e.anchor)
  {
  }

  lemma StaysIndependent(h: Hash, lines: seq<string>, edits: seq<Edit>)
    requires edits != [] && Independent(h, lines, edits)
    ensures Target(h, lines, edits[0]) < |lines|
    ensures Independent(h, Apply(lines, Target(h, lines, edits[0]), edits[0].op), edits[1..])
  {
    hide Resolve, Sole, Apply, Moved, Quiet, NeedsLandmark, Removes;
    TargetInRange(h, lines, edits[0]);
    var t, op, rest := Target(h, lines, edits[0]), edits[0].op, edits[1..];
    var after := Apply(lines, t, op);
    forall k | 0 <= k < |rest|
      ensures Resolve(h, after, rest[k]).Ok?
    {
      assert Apart(h, lines, edits[0], edits[k + 1]);
      MeansMoves(h, lines, t, op, rest[k]);
    }
    forall j, k | 0 <= j < |rest| && 0 <= k < |rest| && j != k
      ensures Apart(h, after, rest[j], rest[k])
    {
      assert Apart(h, lines, edits[0], edits[j + 1]) && Apart(h, lines, edits[0], edits[k + 1]);
      assert Apart(h, lines, edits[j + 1], edits[k + 1]);
      StaysApart(h, lines, edits[0], rest[j], rest[k]);
    }
  }

  // ----- the same lines in the end -----

  lemma {:induction false} OpsAtFirst(p: Placed, placed: seq<Placed>, i: nat)
    ensures OpsAt([p] + placed, i) == (if p.at == i then [p.op] else []) + OpsAt(placed, i)
    decreases |placed|
  {
    if placed == [] {
      assert [p] + placed == [p] && [p][..0] == [];
    } else {
      var last := |placed| - 1;
      OpsAtFirst(p, placed[..last], i);
      assert ([p] + placed)[..last + 1] == [p] + placed[..last];
    }
  }

  /** The remaining placements after the first operation. */
  ghost predicate PlacesMoved(lines: seq<string>, t: nat, op: EditOp, was: seq<Placed>, now: seq<Placed>) {
    |was| == |now| && forall k | 0 <= k < |now| ::
      was[k].at != t && was[k].at < |lines| && now[k] == Placed(Moved(t, op, was[k].at), was[k].op)
  }

  lemma {:induction false} OpsMoved(lines: seq<string>, t: nat, op: EditOp, was: seq<Placed>, now: seq<Placed>, i: nat)
    requires PlacesMoved(lines, t, op, was, now) && i != t
    ensures OpsAt(now, Moved(t, op, i)) == OpsAt(was, i)
    decreases |now|
  {
    hide Moved;
    if now != [] {
      var k := |now| - 1;
      OpsMoved(lines, t, op, was[..k], now[..k], i);
      if was[k].at < i {
        MovedInOrder(t, op, was[k].at, i);
      } else if i < was[k].at {
        MovedInOrder(t, op, i, was[k].at);
      }
    }
  }

  /** No remaining operation acts on what the first one made of its line. */
  lemma NoOpsOnNew(lines: seq<string>, t: nat, op: EditOp, was: seq<Placed>, now: seq<Placed>, p: nat)
    requires PlacesMoved(lines, t, op, was, now) && t < |lines| && t <= p < t + |Becomes(lines[t], op)|
    ensures OpsAt(now, p) == []
  {
    hide Lines;
    NoOpsElsewhere(now, p);
  }

  lemma NoOpsThere(lines: seq<string>, t: nat, op: EditOp, was: seq<Placed>, now: seq<Placed>)
    requires PlacesMoved(lines, t, op, was, now)
    ensures OpsAt(was, t) == []
  {
    NoOpsElsewhere(was, t);
  }

  /** The groups of the remaining edits after the first one, against those of the whole batch. */
  lemma GroupsSplit(lines: seq<string>, t: nat, op: EditOp, was: seq<Placed>, now: seq<Placed>)
    requires t < |lines| && PlacesMoved(lines, t, op, was, now)
    ensures var g := Groups(lines, [Placed(t, op)] + was);
            && Groups(Apply(lines, t, op), now) == g[..t] + Singles(g[t]) + g[t + 1..]
            && g[t] == Becomes(lines[t], op)
  {
    hide Emit, Moved, OpsAt, Becomes, OpLines;
    var after, g := Apply(lines, t, op), Groups(lines, [Placed(t, op)] + was);
    var w := |Becomes(lines[t], op)|;
    OpsAtFirst(Placed(t, op), was, t);
    NoOpsThere(lines, t, op, was, now);
    assert [op] + [] == [op];
    EmitOne(lines[t], op);
    var r := g[..t] + Singles(g[t]) + g[t + 1..];
    var n := Groups(after, now);
    forall p | 0 <= p < |after|
      ensures n[p] == r[p]
    {
      if t <= p < t + w {
        NoOpsOnNew(lines, t, op, was, now, p);
        EmitUntouched(after[p]);
      } else {
        var i := if p < t then p else p - w + 1;
        MovedBack(lines, t, op, p);
        OpsMoved(lines, t, op, was, now, i);
        OpsAtFirst(Placed(t, op), was, i);
        assert [] + OpsAt(was, i) == OpsAt(was, i);
        assert r[p] == g[i];
        assert after[p] == lines[i];
      }
    }
  }

  lemma MovedBack(lines: seq<string>, t: nat, op: EditOp, p: nat)
    requires t < |lines| && p < |Apply(lines, t, op)|
    ensures p < t ==> Moved(t, op, p) == p
    ensures p >= t + |Becomes(lines[t], op)| ==> Moved(t, op, p - |Becomes(lines[t], op)| + 1) == p
  {
    hide Lines;
  }

  lemma RebuiltSplits(lines: seq<string>, t: nat, op: EditOp, was: seq<Placed>, now: seq<Placed>)
    requires t < |lines| && PlacesMoved(lines, t, op, was, now)
    ensures Rebuilt(Apply(lines, t, op), now) == Rebuilt(lines, [Placed(t, op)] + was)
  {
    hide Groups, Apply, Becomes, Flatten;
    var g := Groups(lines, [Placed(t, op)] + was);
    GroupsSplit(lines, t, op, was, now);
    FlattenSingles(g[t]);
    FlattenAppend(g[..t] + Singles(g[t]), g[t + 1..]);
    FlattenAppend(g[..t], Singles(g[t]));
    assert g == g[..t] + [g[t]] + g[t + 1..];
    FlattenAppend(g[..t] + [g[t]], g[t + 1..]);
    FlattenAppend(g[..t], [g[t]]);
    FlattenOne(g[t]);
  }

  lemma RebuiltOne(lines: seq<string>, t: nat, op: EditOp)
    requires t < |lines|
    ensures Rebuilt(lines, [Placed(t, op)]) == Apply(lines, t, op)
  {
    hide Groups, Apply, Flatten;
    RebuiltSplits(lines, t, op, [], []);
    assert [Placed(t, op)] + [] == [Placed(t, op)];
    RebuiltNone(Apply(lines, t, op));
  }

  lemma RebuiltNone(lines: seq<string>)
    ensures Rebuilt(lines, []) == lines
  {
    FlattenSingles(lines);
    forall i | 0 <= i < |lines|
      ensures Groups(lines, [])[i] == [lines[i]]
    {
      EmitUntouched(lines[i]);
    }
    assert Groups(lines, []) == Singles(lines);
  }

  // ----- one at a time -----

  function OneAtATime(h: Hash, lines: seq<string>, edits: seq<Edit>): Result<seq<string>, AnchorError>
    decreases |edits|
  {
    if edits == [] then Ok(lines)
    else match LinesAfter(h, lines, edits[..1])
         case Err(e) => Err(e)
         case Ok(after) => OneAtATime(h, after, edits[1..])
  }

  lemma ResolveOne(h: Hash, lines: seq<string>, e: Edit)
    requires Resolve(h, lines, e).Ok?
    ensures ResolveAll(h, lines, [e]) == Ok([Placed(Target(h, lines, e), e.op)])
  {
    hide Resolve;
    assert [e][1..] == [] && ResolveAll(h, lines, [e][1..]) == Ok([]);
    assert [Placed(Target(h, lines, e), e.op)] + [] == [Placed(Target(h, lines, e), e.op)];
  }

  /** Where the edits act, when every one of them resolves. */
  function Places(h: Hash, lines: seq<string>, edits: seq<Edit>): (p: seq<Placed>)
    ensures |p| == |edits|
  {
    seq(|edits|, k requires 0 <= k < |edits| => Placed(Target(h, lines, edits[k]), edits[k].op))
  }

  lemma {:induction false} AllResolve(h: Hash, lines: seq<string>, edits: seq<Edit>)
    requires forall k | 0 <= k < |edits| :: Resolve(h, lines, edits[k]).Ok?
    ensures ResolveAll(h, lines, edits) == Ok(Places(h, lines, edits))
  {
    hide Resolve;
    if edits != [] {
      AllResolve(h, lines, edits[1..]);
      assert Places(h, lines, edits) == [Placed(Target(h, lines, edits[0]), edits[0].op)] + Places(h, lines, edits[1..]);
    }
  }

  lemma RestPlacesMoved(h: Hash, lines: seq<string>, edits: seq<Edit>)
    requires edits != [] && Independent(h, lines, edits) && Target(h, lines, edits[0]) < |lines|
    ensures var t, op := Target(h, lines, edits[0]), edits[0].op;
            PlacesMoved(lines, t, op, Places(h, lines, edits[1..]), Places(h, Apply(lines, t, op), edits[1..]))
  {
    hide Resolve, Sole, Apply, Moved, Quiet, NeedsLandmark, Removes;
    var t, op, rest := Target(h, lines, edits[0]), edits[0].op, edits[1..];
    forall k | 0 <= k < |rest|
      ensures Target(h, lines, rest[k]) != t && Target(h, lines, rest[k]) < |lines|
      ensures Target(h, Apply(lines, t, op), rest[k]) == Moved(t, op, Target(h, lines, rest[k]))
    {
      assert Apart(h, lines, edits[0], edits[k + 1]);
      MeansMoves(h, lines, t, op, rest[k]);
    }
  }

  lemma {:induction false} InBatchOrder(h: Hash, lines: seq<string>, edits: seq<Edit>)
    requires Independent(h, lines, edits)
    ensures OneAtATime(h, lines, edits) == LinesAfter(h, lines, edits)
    decreases |edits|
  {
    hide Resolve, Apply, Rebuilt, Apart, PlacesMoved, Target;
    AllResolve(h, lines, edits);
    if edits == [] {
      RebuiltNone(lines);
      assert Places(h, lines, edits) == [];
    } else {
      var t, op, rest := Target(h, lines, edits[0]), edits[0].op, edits[1..];
      assert edits[..1] == [edits[0]];
      TargetInRange(h, lines, edits[0]);
      ResolveOne(h, lines, edits[0]);
      RebuiltOne(lines, t, op);
      StaysIndependent(h, lines, edits);
      var after := Apply(lines, t, op);
      InBatchOrder(h, after, rest);
      AllResolve(h, after, rest);
      RestPlacesMoved(h, lines, edits);
      RebuiltSplits(lines, t, op, Places(h, lines, rest), Places(h, after, rest));
      assert Places(h, lines, edits) == [Placed(t, op)] + Places(h, lines, rest);
    }
  }

  // ----- any order -----

  lemma TwoCopies<T>(s: seq<T>, x: T) returns (i: nat, j: nat)
    requires multiset(s)[x] >= 2
    ensures i < j < |s| && s[i] == x && s[j] == x
  {
    assert x in s;
    i :| 0 <= i < |s| && s[i] == x;
    assert s == s[..i] + [s[i]] + s[i + 1..];
    assert multiset(s) == multiset(s[..i]) + multiset{x} + multiset(s[i + 1..]);
    if x in s[..i] {
      j := i;
      i :| 0 <= i < j && s[..j][i] == x;
    } else {
      assert x in s[i + 1..];
      var k :| 0 <= k < |s[i + 1..]| && s[i + 1..][k] == x;
      j := i + 1 + k;
    }
  }

  lemma CopiesCount<T>(s: seq<T>, i: nat, j: nat)
    requires i < j < |s| && s[i] == s[j]
    ensures multiset(s)[s[i]] >= 2
  {
    var x := s[i];
    assert s == s[..j] + [x] + s[j + 1..];
    assert multiset(s) == multiset(s[..j]) + multiset{x} + multiset(s[j + 1..]);
    assert s[..j][i] == x && x in s[..j];
  }

  lemma Reordered(order: seq<Edit>, edits: seq<Edit>, k: nat) returns (j: nat)
    requires multiset(order) == multiset(edits) && k < |order|
    ensures j < |edits| && edits[j] == order[k]
  {
    assert order[k] in multiset(order);
    assert order[k] in multiset(edits);
    j :| 0 <= j < |edits| && edits[j] == order[k];
  }

  lemma StillApart(h: Hash, lines: seq<string>, edits: seq<Edit>, order: seq<Edit>, j: nat, k: nat)
    requires Independent(h, lines, edits) && multiset(order) == multiset(edits)
    requires j < |order| && k < |order| && j != k
    ensures Apart(h, lines, order[j], order[k])
  {
    hide Resolve, Apart;
    if order[j] == order[k] {
      CopiesCount(order, if j < k then j else k, if j < k then k else j);
      var a, b := TwoCopies(edits, order[j]);
    } else {
      var a := Reordered(order, edits, j);
      var b := Reordered(order, edits, k);
    }
  }

  lemma OrderIsIndependent(h: Hash, lines: seq<string>, edits: seq<Edit>, order: seq<Edit>)
    requires Independent(h, lines, edits) && multiset(order) == multiset(edits)
    ensures Independent(h, lines, order)
  {
    hide Resolve, Apart;
    forall k | 0 <= k < |order|
      ensures Resolve(h, lines, order[k]).Ok?
    {
      var j := Reordered(order, edits, k);
    }
    forall j, k | 0 <= j < |order| && 0 <= k < |order| && j != k
      ensures Apart(h, lines, order[j], order[k])
    {
      StillApart(h, lines, edits, order, j, k);
    }
  }

  ghost predicate DistinctPlaces(placed: seq<Placed>) {
    forall j, k | 0 <= j < k < |placed| :: placed[j].at != placed[k].at
  }

  lemma {:induction false} OnlyOp(placed: seq<Placed>, k: nat)
    requires DistinctPlaces(placed) && k < |placed|
    ensures OpsAt(placed, placed[k].at) == [placed[k].op]
    decreases |placed|
  {
    var last := |placed| - 1;
    if k < last {
      OnlyOp(placed[..last], k);
    } else {
      NoOpsElsewhere(placed[..last], placed[k].at);
    }
  }

  lemma PlacesAreDistinct(h: Hash, lines: seq<string>, edits: seq<Edit>)
    requires Independent(h, lines, edits)
    ensures DistinctPlaces(Places(h, lines, edits))
  {
    hide Resolve, NeedsLandmark, Quiet, Target;
    forall j, k | 0 <= j < k < |edits|
      ensures Target(h, lines, edits[j]) != Target(h, lines, edits[k])
    {
      assert Apart(h, lines, edits[j], edits[k]);
    }
  }

  lemma SameOps(h: Hash, lines: seq<string>, edits: seq<Edit>, order: seq<Edit>, i: nat)
    requires Independent(h, lines, edits) && Independent(h, lines, order) && multiset(order) == multiset(edits)
    ensures OpsAt(Places(h, lines, order), i) == OpsAt(Places(h, lines, edits), i)
  {
    hide Independent, Target, OpsAt;
    var p, q := Places(h, lines, order), Places(h, lines, edits);
    PlacesAreDistinct(h, lines, edits);
    PlacesAreDistinct(h, lines, order);
    if k :| 0 <= k < |p| && p[k].at == i {
      var j := Reordered(order, edits, k);
      OnlyOp(p, k);
      OnlyOp(q, j);
    } else {
      NoOpsElsewhere(p, i);
      forall j | 0 <= j < |q|
        ensures q[j].at != i
      {
        var k := Reordered(edits, order, j);
        assert p[k] == q[j];
      }
      NoOpsElsewhere(q, i);
    }
  }

  lemma AnyBatchOrder(h: Hash, lines: seq<string>, edits: seq<Edit>, order: seq<Edit>)
    requires Independent(h, lines, edits) && Independent(h, lines, order) && multiset(order) == multiset(edits)
    ensures LinesAfter(h, lines, order) == LinesAfter(h, lines, edits)
  {
    hide Resolve, Apart, Emit, OpsAt, Flatten, Target;
    AllResolve(h, lines, edits);
    AllResolve(h, lines, order);
    forall i | 0 <= i < |lines|
      ensures Groups(lines, Places(h, lines, order))[i] == Groups(lines, Places(h, lines, edits))[i]
    {
      SameOps(h, lines, edits, order, i);
    }
    assert Groups(lines, Places(h, lines, order)) == Groups(lines, Places(h, lines, edits));
  }

  /** Independent edits in one batch do what they do one at a time, in any order. */
  lemma BatchEqualsOneAtATime(h: Hash, lines: seq<string>, edits: seq<Edit>, order: seq<Edit>)
    requires Independent(h, lines, edits) && multiset(order) == multiset(edits)
    ensures LinesAfter(h, lines, edits).Ok?
    ensures OneAtATime(h, lines, order) == LinesAfter(h, lines, edits)
  {
    hide Independent, Rebuilt, OneAtATime;
    OrderIsIndependent(h, lines, edits, order);
    InBatchOrder(h, lines, order);
    AnyBatchOrder(h, lines, edits, order);
    BatchResolves(h, lines, edits);
  }

  lemma BatchResolves(h: Hash, lines: seq<string>, edits: seq<Edit>)
    requires Independent(h, lines, edits)
    ensures LinesAfter(h, lines, edits).Ok?
  {
    AllResolve(h, lines, edits);
  }
}

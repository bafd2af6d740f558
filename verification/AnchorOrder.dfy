/** Where each edit of a batch puts its lines, several edits on one line included. */
module AnchorOrder {
  import opened Strings
  import opened Protocol
  import opened Anchor
  import opened AnchorTargets
  import opened AnchorBatch
  import opened AnchorText

  // ----- the layout of the output -----

  /** Insertions before a line come first, then what replaces it, then insertions after it. */
  function Rank(op: EditOp): nat {
    match op
    case InsertBefore(_) => 0
    case Replace(_) => 1
    case Delete => 1
    case InsertAfter(_) => 2
  }

  predicate ActsAt(h: Hash, lines: seq<string>, e: Edit, i: nat, r: nat) {
    Resolve(h, lines, e) == Ok(i) && Rank(e.op) == r
  }

  /** How many lines the first `n` edits of rank `r` put at line `i`. */
  function Taken(h: Hash, lines: seq<string>, edits: seq<Edit>, n: nat, i: nat, r: nat): nat
    requires n <= |edits|
  {
    if n == 0 then 0
    else
      Taken(h, lines, edits, n - 1, i, r) + if ActsAt(h, lines, edits[n - 1], i, r) then |OpLines(edits[n - 1].op)| else 0
  }

  ghost function Itself(h: Hash, lines: seq<string>, edits: seq<Edit>, i: nat): nat {
    if Stays(h, lines, edits, i) then 1 else 0
  }

  /** How many lines line `i` becomes. */
  ghost function SizeOf(h: Hash, lines: seq<string>, edits: seq<Edit>, i: nat): nat {
    var n := |edits|;
    Taken(h, lines, edits, n, i, 0) + Taken(h, lines, edits, n, i, 1) + Itself(h, lines, edits, i) + Taken(h, lines, edits, n, i, 2)
  }

  /** Where what becomes of line `i` begins. */
  ghost function StartOf(h: Hash, lines: seq<string>, edits: seq<Edit>, i: nat): nat {
    if i == 0 then 0 else StartOf(h, lines, edits, i - 1) + SizeOf(h, lines, edits, i - 1)
  }

  /** Where edit `j`, which acts at line `i`, puts its first line: behind all edits of lower rank there,
      behind the line itself if it inserts after it, and behind the earlier edits of its own rank. */
  ghost function PlaceOf(h: Hash, lines: seq<string>, edits: seq<Edit>, i: nat, j: nat): nat
    requires j < |edits|
  {
    var n, r := |edits|, Rank(edits[j].op);
    StartOf(h, lines, edits, i)
    + (if r > 0 then Taken(h, lines, edits, n, i, 0) else 0)
    + (if r > 1 then Taken(h, lines, edits, n, i, 1) + Itself(h, lines, edits, i) else 0)
    + Taken(h, lines, edits, j, i, r)
  }

  /** Of two edits at one line, `j` goes ahead of `k`. */
  predicate GoesAhead(edits: seq<Edit>, j: nat, k: nat)
    requires j < |edits| && k < |edits|
  {
    Rank(edits[j].op) < Rank(edits[k].op) || (Rank(edits[j].op) == Rank(edits[k].op) && j < k)
  }

  // ----- one line -----

  function Part(ops: seq<EditOp>, r: nat): seq<string> {
    if r == 0 then Before(ops) else if r == 1 then Instead(ops) else After(ops)
  }

  lemma PartSnoc(ops: seq<EditOp>, op: EditOp, r: nat)
    requires r <= 2
    ensures Part(ops + [op], r) == Part(ops, r) + if Rank(op) == r then OpLines(op) else []
  {
    hide Lines;
    var all := ops + [op];
    assert all[..|ops|] == ops && all[|ops|] == op && all[..|ops| + 1] == all;
    PartsNext(all, |ops|);
  }

  /** The texts of one rank stand one behind the other, in batch order. */
  lemma {:induction false} PartLaid(h: Hash, lines: seq<string>, edits: seq<Edit>, placed: seq<Placed>, n: nat, i: nat, r: nat)
    requires n <= |edits| == |placed| && r <= 2
    requires forall k | 0 <= k < |edits| :: Resolve(h, lines, edits[k]) == Ok(placed[k].at) && placed[k].op == edits[k].op
    ensures |Part(OpsAt(placed[..n], i), r)| == Taken(h, lines, edits, n, i, r)
    ensures forall j | 0 <= j < n && ActsAt(h, lines, edits[j], i, r) ::
              StandsAt(Part(OpsAt(placed[..n], i), r), Taken(h, lines, edits, j, i, r), OpLines(edits[j].op))
  {
    hide Resolve, OpLines, Part, StandsAt, OpsAt;
    if n == 0 {
      NothingAt(placed, i);
      EmptyPart(r);
    } else {
      PartLaid(h, lines, edits, placed, n - 1, i, r);
      PartNext(placed, n - 1, i, r);
      var was := Part(OpsAt(placed[..n - 1], i), r);
      var more := if ActsAt(h, lines, edits[n - 1], i, r) then OpLines(edits[n - 1].op) else [];
      forall j | 0 <= j < n && ActsAt(h, lines, edits[j], i, r)
        ensures StandsAt(was + more, Taken(h, lines, edits, j, i, r), OpLines(edits[j].op))
      {
        if j < n - 1 {
          StandsAhead(was, more, Taken(h, lines, edits, j, i, r), OpLines(edits[j].op));
        } else {
          StandsBehind(was, more);
        }
      }
    }
  }

  lemma NothingAt(placed: seq<Placed>, i: nat)
    ensures OpsAt(placed[..0], i) == []
  {
  }

  lemma PartNext(placed: seq<Placed>, k: nat, i: nat, r: nat)
    requires k < |placed| && r <= 2
    ensures Part(OpsAt(placed[..k + 1], i), r) ==
            Part(OpsAt(placed[..k], i), r) + if placed[k].at == i && Rank(placed[k].op) == r then OpLines(placed[k].op) else []
  {
    hide Part, OpLines;
    assert placed[..k + 1][..k] == placed[..k];
    var ops := OpsAt(placed[..k], i);
    if placed[k].at == i {
      PartSnoc(ops, placed[k].op, r);
    } else {
      assert ops + [] == ops && Part(ops, r) + [] == Part(ops, r);
    }
  }

  lemma StandsAhead(was: seq<string>, more: seq<string>, at: nat, text: seq<string>)
    requires StandsAt(was, at, text)
    ensures StandsAt(was + more, at, text)
  {
    assert (was + more)[at..at + |text|] == was[at..at + |text|];
  }

  lemma StandsBehind(was: seq<string>, text: seq<string>)
    ensures StandsAt(was + text, |was|, text)
  {
  }

  lemma EmptyPart(r: nat)
    ensures Part([], r) == []
  {
    NoParts();
  }

  /** What stands at `at` in a text of lines. */
  predicate StandsAt(out: seq<string>, at: nat, text: seq<string>) {
    at + |text| <= |out| && out[at..at + |text|] == text
  }

  lemma StandsIn(a: seq<string>, b: seq<string>, c: seq<string>, at: nat, text: seq<string>)
    requires StandsAt(b, at, text)
    ensures StandsAt(a + b + c, |a| + at, text)
  {
    var out := a + b + c;
    assert out[|a|..|a| + |b|] == b;
    assert out[|a| + at..|a| + at + |text|] == b[at..at + |text|];
  }

  /** The line's own part. */
  function Own(line: string, ops: seq<EditOp>): seq<string> {
    if AnyRemoves(ops) then [] else [line]
  }

  lemma EmitParts(line: string, ops: seq<EditOp>, r: nat, at: nat, text: seq<string>)
    requires r <= 2 && StandsAt(Part(ops, r), at, text)
    ensures var ahead := (if r > 0 then |Part(ops, 0)| else 0) + (if r > 1 then |Part(ops, 1)| + |Own(line, ops)| else 0);
            StandsAt(Emit(line, ops), ahead + at, text)
  {
    hide Before, Instead, After, AnyRemoves, StandsAt;
    var p0, p1, own, p2 := Part(ops, 0), Part(ops, 1), Own(line, ops), Part(ops, 2);
    if r == 0 {
      StandsIn([], p0, p1 + own + p2, at, text);
      assert [] + p0 + (p1 + own + p2) == p0 + p1 + own + p2;
    } else if r == 1 {
      StandsIn(p0, p1, own + p2, at, text);
      assert p0 + p1 + (own + p2) == p0 + p1 + own + p2;
    } else {
      StandsIn(p0 + p1 + own, p2, [], at, text);
      assert p0 + p1 + own + p2 + [] == p0 + p1 + own + p2;
    }
  }

  lemma OwnStands(line: string, ops: seq<EditOp>)
    requires !AnyRemoves(ops)
    ensures StandsAt(Emit(line, ops), |Part(ops, 0)| + |Part(ops, 1)|, [line])
  {
    hide Before, Instead, After, AnyRemoves;
    StandsIn(Part(ops, 0) + Part(ops, 1), [line], Part(ops, 2), 0, [line]);
  }

  /** What becomes of line `i`. */
  function GroupOf(h: Hash, lines: seq<string>, edits: seq<Edit>, i: nat): seq<string>
    requires i < |lines| && ResolveAll(h, lines, edits).Ok?
  {
    Groups(lines, ResolveAll(h, lines, edits).value)[i]
  }

  lemma GroupLaid(h: Hash, lines: seq<string>, edits: seq<Edit>, i: nat)
    requires i < |lines| && ResolveAll(h, lines, edits).Ok?
    ensures |GroupOf(h, lines, edits, i)| == SizeOf(h, lines, edits, i)
    ensures Stays(h, lines, edits, i) ==>
              StandsAt(GroupOf(h, lines, edits, i),
                       Taken(h, lines, edits, |edits|, i, 0) + Taken(h, lines, edits, |edits|, i, 1), [lines[i]])
    ensures forall j | 0 <= j < |edits| && Resolve(h, lines, edits[j]) == Ok(i) ::
              StandsAt(GroupOf(h, lines, edits, i), PlaceOf(h, lines, edits, i, j) - StartOf(h, lines, edits, i), OpLines(edits[j].op))
  {
    hide Resolve, ResolveAll, OpLines, Stays, AnyRemoves, OpsAt, Part, StandsAt, StartOf, Taken;
    var placed := ResolveAll(h, lines, edits).value;
    var n, ops := |edits|, OpsAt(placed, i);
    PlacedAre(h, lines, edits);
    StaysExactly(h, lines, edits, i);
    assert placed[..n] == placed;
    PartLaid(h, lines, edits, placed, n, i, 0);
    PartLaid(h, lines, edits, placed, n, i, 1);
    PartLaid(h, lines, edits, placed, n, i, 2);
    assert |Emit(lines[i], ops)| == SizeOf(h, lines, edits, i) by { EmitSize(lines[i], ops); }
    if Stays(h, lines, edits, i) {
      OwnStands(lines[i], ops);
    }
    forall j | 0 <= j < n && Resolve(h, lines, edits[j]) == Ok(i)
      ensures StandsAt(Emit(lines[i], ops), PlaceOf(h, lines, edits, i, j) - StartOf(h, lines, edits, i), OpLines(edits[j].op))
    {
      var r := Rank(edits[j].op);
      PartStands(h, lines, edits, placed, i, j);
      EmitParts(lines[i], ops, r, Taken(h, lines, edits, j, i, r), OpLines(edits[j].op));
    }
  }

  lemma EmitSize(line: string, ops: seq<EditOp>)
    ensures |Emit(line, ops)| == |Part(ops, 0)| + |Part(ops, 1)| + |Own(line, ops)| + |Part(ops, 2)|
  {
    hide Before, Instead, After, AnyRemoves;
  }

  lemma PartStands(h: Hash, lines: seq<string>, edits: seq<Edit>, placed: seq<Placed>, i: nat, j: nat)
    requires |placed| == |edits| && j < |edits| && Resolve(h, lines, edits[j]) == Ok(i)
    requires forall k | 0 <= k < |edits| :: Resolve(h, lines, edits[k]) == Ok(placed[k].at) && placed[k].op == edits[k].op
    ensures var r := Rank(edits[j].op);
            StandsAt(Part(OpsAt(placed, i), r), Taken(h, lines, edits, j, i, r), OpLines(edits[j].op))
  {
    hide Resolve, OpLines, OpsAt, Part, Taken;
    var r := Rank(edits[j].op);
    assert placed[..|edits|] == placed;
    PartLaid(h, lines, edits, placed, |edits|, i, r);
    assert ActsAt(h, lines, edits[j], i, r);
  }

  // ----- the whole output -----

  lemma {:induction false} FlattenLaid(g: seq<seq<string>>, i: nat)
    requires i < |g|
    ensures Flatten(g) == Flatten(g[..i]) + g[i] + Flatten(g[i + 1..])
  {
    if i == 0 {
      assert g[..0] == [];
    } else {
      FlattenLaid(g[1..], i - 1);
      assert g[1..][..i - 1] == g[..i][1..] && g[1..][i..] == g[i + 1..];
      Regroup(g[0], Flatten(g[1..][..i - 1]), g[i]);
      Regroup(g[0], Flatten(g[1..][..i - 1]) + g[i], Flatten(g[i + 1..]));
    }
  }

  lemma NothingFlat(g: seq<seq<string>>)
    ensures Flatten(g[..0]) == []
  {
  }

  lemma FlatNext(g: seq<seq<string>>, k: nat)
    requires k < |g|
    ensures Flatten(g[..k + 1]) == Flatten(g[..k]) + g[k]
  {
    hide Flatten;
    assert g[..k + 1] == g[..k] + [g[k]];
    FlattenAppend(g[..k], [g[k]]);
    FlattenOne(g[k]);
  }

  lemma GroupSize(h: Hash, lines: seq<string>, edits: seq<Edit>, i: nat)
    requires i < |lines| && ResolveAll(h, lines, edits).Ok?
    ensures |GroupOf(h, lines, edits, i)| == SizeOf(h, lines, edits, i)
  {
    hide ResolveAll, Resolve, Groups, SizeOf, Stays, StandsAt, PlaceOf, StartOf, Taken, OpLines;
    GroupLaid(h, lines, edits, i);
  }

  lemma {:induction false} StartLaid(h: Hash, lines: seq<string>, edits: seq<Edit>, i: nat)
    requires i <= |lines| && ResolveAll(h, lines, edits).Ok?
    ensures |Flatten(Groups(lines, ResolveAll(h, lines, edits).value)[..i])| == StartOf(h, lines, edits, i)
  {
    hide ResolveAll, Resolve, Groups, SizeOf, Flatten;
    var g := Groups(lines, ResolveAll(h, lines, edits).value);
    if i == 0 {
      NothingFlat(g);
    } else {
      StartLaid(h, lines, edits, i - 1);
      GroupSize(h, lines, edits, i - 1);
      FlatNext(g, i - 1);
      assert g[i - 1] == GroupOf(h, lines, edits, i - 1);
    }
  }

  lemma InOutput(h: Hash, lines: seq<string>, edits: seq<Edit>, i: nat, at: nat, text: seq<string>)
    requires i < |lines| && LinesAfter(h, lines, edits).Ok? && StandsAt(GroupOf(h, lines, edits, i), at, text)
    ensures StandsAt(LinesAfter(h, lines, edits).value, StartOf(h, lines, edits, i) + at, text)
  {
    hide ResolveAll, StandsAt, Groups, StartOf;
    var g := Groups(lines, ResolveAll(h, lines, edits).value);
    FlattenLaid(g, i);
    StartLaid(h, lines, edits, i);
    StandsIn(Flatten(g[..i]), g[i], Flatten(g[i + 1..]), at, text);
  }

  /** The output holds exactly this many lines; each line that stays is in its place, and so is the text
      of each edit, whole. Nothing is left over. */
  lemma BatchIsLaidOut(h: Hash, lines: seq<string>, edits: seq<Edit>)
    requires LinesAfter(h, lines, edits).Ok?
    ensures var out := LinesAfter(h, lines, edits).value;
            && |out| == StartOf(h, lines, edits, |lines|)
            && (forall i: nat | i < |lines| && Stays(h, lines, edits, i) ::
                  StandsAt(out, StartOf(h, lines, edits, i) + Taken(h, lines, edits, |edits|, i, 0)
                                + Taken(h, lines, edits, |edits|, i, 1), [lines[i]]))
            && (forall j: nat | j < |edits| ::
                  Resolve(h, lines, edits[j]).Ok?
                  && StandsAt(out, PlaceOf(h, lines, edits, Resolve(h, lines, edits[j]).value, j), OpLines(edits[j].op)))
  {
    hide Resolve, ResolveAll, OpLines, Stays, StandsAt, StartOf, Taken, SizeOf, Groups;
    var g := Groups(lines, ResolveAll(h, lines, edits).value);
    PlacedAre(h, lines, edits);
    StartLaid(h, lines, edits, |lines|);
    assert g[..|lines|] == g;
    forall i: nat | i < |lines| && Stays(h, lines, edits, i)
      ensures StandsAt(LinesAfter(h, lines, edits).value, StartOf(h, lines, edits, i) + Taken(h, lines, edits, |edits|, i, 0)
                                + Taken(h, lines, edits, |edits|, i, 1), [lines[i]])
    {
      GroupLaid(h, lines, edits, i);
      InOutput(h, lines, edits, i, Taken(h, lines, edits, |edits|, i, 0) + Taken(h, lines, edits, |edits|, i, 1), [lines[i]]);
    }
    forall j: nat | j < |edits|
      ensures Resolve(h, lines, edits[j]).Ok?
      ensures StandsAt(LinesAfter(h, lines, edits).value, PlaceOf(h, lines, edits, Resolve(h, lines, edits[j]).value, j),
                       OpLines(edits[j].op))
    {
      ResolvedInRange(h, lines, edits[j]);
      var i := Resolve(h, lines, edits[j]).value;
      GroupLaid(h, lines, edits, i);
      InOutput(h, lines, edits, i, PlaceOf(h, lines, edits, i, j) - StartOf(h, lines, edits, i), OpLines(edits[j].op));
    }
  }

  // ----- order on one line -----

  lemma {:induction false} TakenGrows(h: Hash, lines: seq<string>, edits: seq<Edit>, m: nat, n: nat, i: nat, r: nat)
    requires m <= n <= |edits|
    ensures Taken(h, lines, edits, m, i, r) <= Taken(h, lines, edits, n, i, r)
  {
    hide ActsAt, OpLines;
    if m < n {
      TakenGrows(h, lines, edits, m, n - 1, i, r);
    }
  }

  lemma TakenNext(h: Hash, lines: seq<string>, edits: seq<Edit>, j: nat, i: nat)
    requires j < |edits| && Resolve(h, lines, edits[j]) == Ok(i)
    ensures Taken(h, lines, edits, j + 1, i, Rank(edits[j].op)) == Taken(h, lines, edits, j, i, Rank(edits[j].op)) + |OpLines(edits[j].op)|
  {
    hide Resolve, OpLines;
  }

  /** Of two edits at one line all lines of the one that goes ahead precede all lines of the other; a line
      that stays stands behind every text inserted before it and ahead of every text inserted after it. */
  lemma OrderedOnOneLine(h: Hash, lines: seq<string>, edits: seq<Edit>, i: nat, j: nat, k: nat)
    requires j < |edits| && k < |edits| && Resolve(h, lines, edits[j]) == Ok(i) && Resolve(h, lines, edits[k]) == Ok(i)
    ensures GoesAhead(edits, j, k) ==> PlaceOf(h, lines, edits, i, j) + |OpLines(edits[j].op)| <= PlaceOf(h, lines, edits, i, k)
    ensures var own := StartOf(h, lines, edits, i) + Taken(h, lines, edits, |edits|, i, 0) + Taken(h, lines, edits, |edits|, i, 1);
            && (edits[j].op.InsertBefore? ==> PlaceOf(h, lines, edits, i, j) + |OpLines(edits[j].op)| <= own)
            && (edits[j].op.InsertAfter? && Stays(h, lines, edits, i) ==> own < PlaceOf(h, lines, edits, i, j))
  {
    hide Resolve, OpLines, Taken, Stays, StartOf;
    var r := Rank(edits[j].op);
    TakenNext(h, lines, edits, j, i);
    TakenGrows(h, lines, edits, j + 1, |edits|, i, r);
    if j < k {
      TakenGrows(h, lines, edits, j + 1, k, i, r);
    }
  }

  // ----- several edits on one line -----

  function EditsOf(h: Hash, line: string, ops: seq<EditOp>): (edits: seq<Edit>)
    ensures |edits| == |ops| && forall k | 0 <= k < |ops| :: edits[k] == Edit(h(line), None, ops[k])
  {
    seq(|ops|, k requires 0 <= k < |ops| => Edit(h(line), None, ops[k]))
  }

  function PlacedOps(ops: seq<EditOp>): seq<Placed> {
    if ops == [] then [] else [Placed(0, ops[0])] + PlacedOps(ops[1..])
  }

  lemma {:induction false} AllAtOneLine(h: Hash, line: string, ops: seq<EditOp>)
    ensures ResolveAll(h, [line], EditsOf(h, line, ops)) == Ok(PlacedOps(ops))
  {
    if ops != [] {
      AllAtOneLine(h, line, ops[1..]);
      var lines, edits := [line], EditsOf(h, line, ops);
      assert MatchesBelow(h, lines, h(line), 0) == [];
      assert Matches(h, lines, h(line)) == [0];
      assert Resolve(h, lines, edits[0]) == Ok(0);
      assert edits[1..] == EditsOf(h, line, ops[1..]);
    }
  }

  lemma {:induction false} OpsOfPlaced(ops: seq<EditOp>, n: nat)
    requires n <= |ops|
    ensures |PlacedOps(ops)| == |ops| && forall k | 0 <= k < |ops| :: PlacedOps(ops)[k] == Placed(0, ops[k])
    ensures OpsAt(PlacedOps(ops)[..n], 0) == ops[..n]
    decreases |ops|, n
  {
    if ops != [] {
      OpsOfPlaced(ops[1..], 0);
    }
    if n > 0 {
      OpsOfPlaced(ops, n - 1);
      assert PlacedOps(ops)[..n][..n - 1] == PlacedOps(ops)[..n - 1];
    }
  }

  lemma OneLineBatch(h: Hash, line: string, ops: seq<EditOp>)
    ensures LinesAfter(h, [line], EditsOf(h, line, ops)) == Ok(Part(ops, 0) + Part(ops, 1) + Own(line, ops) + Part(ops, 2))
  {
    hide Before, Instead, After, AnyRemoves;
    AllAtOneLine(h, line, ops);
    OpsOfPlaced(ops, |ops|);
    var placed := PlacedOps(ops);
    assert placed[..|ops|] == placed && ops[..|ops|] == ops;
    assert Groups([line], placed) == [Emit(line, ops)];
    FlattenOne(Emit(line, ops));
  }

  /** Four edits of one line, named in another order than they take effect. */
  function FourEdits(): seq<EditOp> {
    [InsertAfter("d"), InsertBefore("b"), Replace("c"), InsertBefore("e")]
  }

  lemma FourParts()
    ensures Part(FourEdits(), 0) == ["b", "e"] && Part(FourEdits(), 1) == ["c"] && Part(FourEdits(), 2) == ["d"]
    ensures AnyRemoves(FourEdits())
  {
    hide Part, Lines;
    var ops := FourEdits();
    LastLine("b");
    LastLine("c");
    LastLine("d");
    LastLine("e");
    assert ops == [] + [ops[0]] + [ops[1]] + [ops[2]] + [ops[3]];
    forall r: nat | r <= 2
      ensures Part(ops, r) == if r == 0 then ["b", "e"] else if r == 1 then ["c"] else ["d"]
    {
      EmptyPart(r);
      PartSnoc([], ops[0], r);
      PartSnoc([] + [ops[0]], ops[1], r);
      PartSnoc([] + [ops[0]] + [ops[1]], ops[2], r);
      PartSnoc([] + [ops[0]] + [ops[1]] + [ops[2]], ops[3], r);
    }
    assert Removes(ops[2]);
  }

  lemma FourTexts()
    ensures TextOf(["b", "e", "c", "d"], true) == "b\ne\nc\nd\n"
  {
    hide TextOf;
    assert ["b", "e", "c", "d"][1..] == ["e", "c", "d"] && ["e", "c", "d"][1..] == ["c", "d"] && ["c", "d"][1..] == ["d"];
    TextOfMore(["b", "e", "c", "d"], true);
    TextOfMore(["e", "c", "d"], true);
    TextOfMore(["c", "d"], true);
    assert TextOf(["d"], true) == "d\n" by { OneText("d"); }
  }

  lemma OneText(line: string)
    ensures TextOf([line], true) == line + "\n"
  {
  }

  /** Both insertions before the line in batch order, the replacement, then the insertion after it. */
  lemma FourEditsOnOneLine(h: Hash)
    ensures Edited(h, "a\n", EditsOf(h, "a", FourEdits())) == Ok("b\ne\nc\nd\n")
  {
    hide Lines, LinesAfter, Part, TextOf, AnyRemoves;
    OneTerminated("a");
    assert "a" + "\n" == "a\n";
    OneLineBatch(h, "a", FourEdits());
    FourParts();
    FourTexts();
    assert ["b", "e"] + ["c"] + [] + ["d"] == ["b", "e", "c", "d"];
  }
}

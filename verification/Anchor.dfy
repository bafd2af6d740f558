/** Edits addressed by a hash of the line they act on. */
module Anchor {
  import opened Strings
  import opened Protocol

  datatype EditOp = Replace(text: string) | InsertAfter(text: string) | InsertBefore(text: string) | Delete

  /** Act at the line with this anchor; `after` is the anchor of a landmark line above the meant copy. */
  datatype Edit = Edit(anchor: string, after: Option<string>, op: EditOp)

  datatype AnchorError =
    | NotFound(anchor: string)
    | Ambiguous(anchor: string, count: nat)
    | AfterNotFound(anchor: string)
    | AfterAmbiguous(anchor: string, count: nat)
    | NoneAfter(anchor: string, after: string)

  /** The hash of a trimmed line. */
  type Hash = string -> string

  // ----- resolving an edit -----

  /** The first `n` lines' positions with the given anchor. */
  function MatchesBelow(h: Hash, lines: seq<string>, anchor: string, n: nat): seq<nat>
    requires n <= |lines|
  {
    if n == 0 then [] else MatchesBelow(h, lines, anchor, n - 1) + if h(lines[n - 1]) == anchor then [n - 1] else []
  }

  function Matches(h: Hash, lines: seq<string>, anchor: string): seq<nat> {
    MatchesBelow(h, lines, anchor, |lines|)
  }

  function FirstAfter(matches: seq<nat>, n: nat): Option<nat> {
    if matches == [] then None else if matches[0] > n then Some(matches[0]) else FirstAfter(matches[1..], n)
  }

  function Resolve(h: Hash, lines: seq<string>, e: Edit): Result<nat, AnchorError> {
    var m := Matches(h, lines, e.anchor);
    if |m| == 0 then Err(NotFound(e.anchor))
    else if |m| == 1 then Ok(m[0])
    else match e.after
         case None => Err(Ambiguous(e.anchor, |m|))
         case Some(landmark) =>
           var l := Matches(h, lines, landmark);
           if |l| == 0 then Err(AfterNotFound(landmark))
           else if |l| > 1 then Err(AfterAmbiguous(landmark, |l|))
           else match FirstAfter(m, l[0])
                case Some(i) => Ok(i)
                case None => Err(NoneAfter(e.anchor, landmark))
  }

  datatype Placed = Placed(at: nat, op: EditOp)

  /** Every edit with the line it acts on, or the first failure. */
  function ResolveAll(h: Hash, lines: seq<string>, edits: seq<Edit>): Result<seq<Placed>, AnchorError> {
    if edits == [] then Ok([])
    else match Resolve(h, lines, edits[0])
         case Err(e) => Err(e)
         case Ok(i) =>
           match ResolveAll(h, lines, edits[1..])
           case Err(e) => Err(e)
           case Ok(rest) => Ok([Placed(i, edits[0].op)] + rest)
  }

  // ----- rebuilding the lines -----

  function OpsAt(placed: seq<Placed>, i: nat): seq<EditOp> {
    if placed == [] then []
    else
      var last := |placed| - 1;
      OpsAt(placed[..last], i) + if placed[last].at == i then [placed[last].op] else []
  }

  function Before(ops: seq<EditOp>): seq<string> {
    if ops == [] then []
    else
      var last := |ops| - 1;
      Before(ops[..last]) + if ops[last].InsertBefore? then Lines(ops[last].text) else []
  }

  function Instead(ops: seq<EditOp>): seq<string> {
    if ops == [] then []
    else
      var last := |ops| - 1;
      Instead(ops[..last]) + if ops[last].Replace? then Lines(ops[last].text) else []
  }

  function After(ops: seq<EditOp>): seq<string> {
    if ops == [] then []
    else
      var last := |ops| - 1;
      After(ops[..last]) + if ops[last].InsertAfter? then Lines(ops[last].text) else []
  }

  predicate Removes(op: EditOp) {
    op.Replace? || op.Delete?
  }

  predicate AnyRemoves(ops: seq<EditOp>) {
    exists k | 0 <= k < |ops| :: Removes(ops[k])
  }

  /** What a line becomes: insertions before, then its replacements or itself, then insertions after. */
  function Emit(line: string, ops: seq<EditOp>): seq<string> {
    Before(ops) + Instead(ops) + (if AnyRemoves(ops) then [] else [line]) + After(ops)
  }

  /** What each line becomes. */
  function Groups(lines: seq<string>, placed: seq<Placed>): (g: seq<seq<string>>)
    ensures |g| == |lines|
  {
    seq(|lines|, i requires 0 <= i < |lines| => Emit(lines[i], OpsAt(placed, i)))
  }

  function Rebuilt(lines: seq<string>, placed: seq<Placed>): seq<string> {
    Flatten(Groups(lines, placed))
  }

  function LinesAfter(h: Hash, lines: seq<string>, edits: seq<Edit>): Result<seq<string>, AnchorError> {
    match ResolveAll(h, lines, edits)
    case Err(e) => Err(e)
    case Ok(placed) => Ok(Rebuilt(lines, placed))
  }

  predicate EndsWithNewline(s: string) {
    s != "" && s[|s| - 1] == '\n'
  }

  function TextOf(lines: seq<string>, newline: bool): string {
    JoinLines(lines) + if newline then "\n" else ""
  }

  function Edited(h: Hash, source: string, edits: seq<Edit>): Result<string, AnchorError> {
    match LinesAfter(h, Lines(source), edits)
    case Err(e) => Err(e)
    case Ok(lines) => Ok(TextOf(lines, EndsWithNewline(source)))
  }

  // ----- the operation -----

  lemma PartsNext(ops: seq<EditOp>, k: nat)
    requires k < |ops|
    ensures Before(ops[..k + 1]) == Before(ops[..k]) + if ops[k].InsertBefore? then Lines(ops[k].text) else []
    ensures Instead(ops[..k + 1]) == Instead(ops[..k]) + if ops[k].Replace? then Lines(ops[k].text) else []
    ensures After(ops[..k + 1]) == After(ops[..k]) + if ops[k].InsertAfter? then Lines(ops[k].text) else []
    ensures AnyRemoves(ops[..k + 1]) <==> AnyRemoves(ops[..k]) || Removes(ops[k])
  {
    hide Lines, Removes;
    assert ops[..k + 1][..k] == ops[..k];
    assert ops[..k + 1][k] == ops[k];
  }

  method EmitLine(line: string, ops: seq<EditOp>, out0: seq<string>) returns (out: seq<string>)
    ensures out == out0 + Emit(line, ops)
  {
    hide Before, Instead, After, AnyRemoves, Lines;
    out := out0;
    NoParts();
    var whole := |ops|;
    assert ops[..0] == [] && ops[..whole] == ops;
    for k := 0 to |ops|
      invariant out == out0 + Before(ops[..k])
    {
      PartsNext(ops, k);
      if ops[k].InsertBefore? {
        out := out + Lines(ops[k].text);
      }
    }
    ghost var out1 := out;
    var emitted := false;
    for k := 0 to |ops|
      invariant out == out1 + Instead(ops[..k])
      invariant emitted == AnyRemoves(ops[..k])
    {
      PartsNext(ops, k);
      match ops[k]
      case Replace(text) =>
        out := out + Lines(text);
        emitted := true;
      case Delete =>
        emitted := true;
      case _ =>
    }
    if !emitted {
      out := out + [line];
    }
    ghost var out2 := out;
    for k := 0 to |ops|
      invariant out == out2 + After(ops[..k])
    {
      PartsNext(ops, k);
      if ops[k].InsertAfter? {
        out := out + Lines(ops[k].text);
      }
    }
  }

  lemma NoParts()
    ensures Before([]) == [] && Instead([]) == [] && After([]) == [] && !AnyRemoves([])
  {
  }

  lemma {:induction false} ResolveAllAppend(h: Hash, lines: seq<string>, a: seq<Edit>, b: seq<Edit>)
    ensures ResolveAll(h, lines, a + b) ==
            match ResolveAll(h, lines, a)
            case Err(e) => Err(e)
            case Ok(p) => match ResolveAll(h, lines, b) case Err(e) => Err(e) case Ok(q) => Ok(p + q)
  {
    hide Resolve;
    if a == [] {
      assert a + b == b;
      if ResolveAll(h, lines, b).Ok? {
        assert [] + ResolveAll(h, lines, b).value == ResolveAll(h, lines, b).value;
      }
    } else {
      ResolveAllAppend(h, lines, a[1..], b);
      assert (a + b)[1..] == a[1..] + b && (a + b)[0] == a[0];
      if Resolve(h, lines, a[0]).Ok? && ResolveAll(h, lines, a[1..]).Ok? && ResolveAll(h, lines, b).Ok? {
        var i, p, q := Placed(Resolve(h, lines, a[0]).value, a[0].op), ResolveAll(h, lines, a[1..]).value, ResolveAll(h, lines, b).value;
        assert [i] + (p + q) == ([i] + p) + q;
      }
    }
  }

  lemma ResolveAllNext(h: Hash, lines: seq<string>, edits: seq<Edit>, k: nat)
    requires k < |edits| && ResolveAll(h, lines, edits[..k]).Ok?
    ensures var p := ResolveAll(h, lines, edits[..k]).value;
            ResolveAll(h, lines, edits[..k + 1]) ==
            match Resolve(h, lines, edits[k]) case Err(e) => Err(e) case Ok(i) => Ok(p + [Placed(i, edits[k].op)])
    ensures Resolve(h, lines, edits[k]).Err? ==> ResolveAll(h, lines, edits) == Err(Resolve(h, lines, edits[k]).error)
  {
    hide Resolve;
    var one := [edits[k]];
    assert one[1..] == [] && ResolveAll(h, lines, one[1..]) == Ok([]);
    assert edits[..k + 1] == edits[..k] + one && one[0] == edits[k];
    if Resolve(h, lines, edits[k]).Ok? {
      var p := Placed(Resolve(h, lines, edits[k]).value, edits[k].op);
      assert [p] + [] == [p];
    }
    ResolveAllAppend(h, lines, edits[..k], one);
    assert edits == edits[..k + 1] + edits[k + 1..];
    ResolveAllAppend(h, lines, edits[..k + 1], edits[k + 1..]);
  }

  function Lookup(index: map<nat, seq<EditOp>>, i: nat): seq<EditOp> {
    if i in index then index[i] else []
  }

  /** The edits of each line, in batch order. */
  method IndexByLine(placed: seq<Placed>) returns (index: map<nat, seq<EditOp>>)
    ensures forall i :: Lookup(index, i) == OpsAt(placed, i)
  {
    index := map[];
    for k := 0 to |placed|
      invariant forall i :: Lookup(index, i) == OpsAt(placed[..k], i)
    {
      var p := placed[k];
      assert placed[..k + 1][..k] == placed[..k];
      index := index[p.at := Lookup(index, p.at) + [p.op]];
    }
    assert placed[..|placed|] == placed;
  }

  lemma GroupsNext(lines: seq<string>, placed: seq<Placed>, i: nat)
    requires i < |lines|
    ensures Flatten(Groups(lines, placed)[..i + 1]) == Flatten(Groups(lines, placed)[..i]) + Emit(lines[i], OpsAt(placed, i))
  {
    hide Emit, OpsAt;
    var g := Groups(lines, placed);
    assert g[..i + 1] == g[..i] + [g[i]];
    FlattenAppend(g[..i], [g[i]]);
    assert Flatten([g[i]]) == g[i] + Flatten([]);
  }

  /** Apply a batch of edits; a single failure leaves the source alone. */
  method ApplyEdits(h: Hash, source: string, edits: seq<Edit>) returns (r: Result<string, AnchorError>)
    ensures r == Edited(h, source, edits)
  {
    hide Resolve, Lines, Emit, OpsAt, JoinLines, Flatten, Groups;
    var lines := Lines(source);
    var placed: seq<Placed> := [];
    assert edits[..0] == [];
    for k := 0 to |edits|
      invariant ResolveAll(h, lines, edits[..k]) == Ok(placed)
    {
      ResolveAllNext(h, lines, edits, k);
      match Resolve(h, lines, edits[k]) {
        case Err(e) => return Err(e);
        case Ok(i) => placed := placed + [Placed(i, edits[k].op)];
      }
    }
    assert edits[..|edits|] == edits;
    var index := IndexByLine(placed);
    var out: seq<string> := [];
    assert Flatten(Groups(lines, placed)[..0]) == [] by { FlattenNone(Groups(lines, placed)); }
    for i := 0 to |lines|
      invariant out == Flatten(Groups(lines, placed)[..i])
    {
      GroupsNext(lines, placed, i);
      out := EmitLine(lines[i], Lookup(index, i), out);
    }
    assert Groups(lines, placed)[..|lines|] == Groups(lines, placed);
    r := Ok(JoinLines(out) + if EndsWithNewline(source) then "\n" else "");
  }

  lemma FlattenNone(g: seq<seq<string>>)
    ensures Flatten(g[..0]) == []
  {
  }
}

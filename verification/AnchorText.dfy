/** What `apply_edits` writes, read again. */
module AnchorText {
  import opened Strings
  import opened Protocol
  import opened Anchor
  import opened AnchorTargets
  import opened AnchorBatch

  // ----- writing lines and reading them -----

  predicate EndsInReturn(line: string) {
    line != "" && line[|line| - 1] == '\r'
  }

  /** No line is more than one line. */
  predicate AllSingle(lines: seq<string>) {
    forall k | 0 <= k < |lines| :: '\n' !in lines[k]
  }

  lemma FirstLine(line: string, rest: string)
    requires '\n' !in line
    ensures Lines(line + "\n" + rest) == [StripCarriageReturn(line)] + Lines(rest)
  {
    hide StripCarriageReturn, IndexOf;
    BreakAfter(line, rest);
  }

  lemma BreakAfter(line: string, rest: string)
    requires '\n' !in line
    ensures var s := line + "\n" + rest;
            IndexOf(s, '\n') == |line| && s[..|line|] == line && s[|line| + 1..] == rest
  {
    var tail := "\n" + rest;
    IndexOfAppend(line, tail, '\n');
    Regroup(line, "\n", rest);
    assert IndexOf(tail, '\n') == 0 by { assert tail[0] == '\n'; }
  }

  lemma LastLine(line: string)
    requires '\n' !in line
    ensures Lines(line) == if line == "" then [] else [line]
  {
    IndexOfAbsent(line, '\n');
  }

  /** Whether the text written for some lines reads back as them: a line that a line feed follows must
      not end in a carriage return, there must be a line for a closing line feed to follow, and without
      one the last line must not be empty. */
  predicate ReadsBack(lines: seq<string>, newline: bool) {
    var n := |lines|;
    && (forall k | 0 <= k < n && (newline || k < n - 1) :: !EndsInReturn(lines[k]))
    && if newline then lines != [] else lines == [] || lines[n - 1] != ""
  }

  /** The text written for lines without line feeds reads back as those lines exactly then. */
  lemma {:induction false} ReadsBackExactly(lines: seq<string>, newline: bool)
    requires AllSingle(lines)
    ensures Lines(TextOf(lines, newline)) == lines <==> ReadsBack(lines, newline)
    decreases |lines|
  {
    hide Lines, StripCarriageReturn, EndsInReturn;
    if lines == [] {
      NoLinesRead(newline);
    } else if |lines| == 1 {
      OneLineRead(lines[0], newline);
      StrippedExactly(lines[0]);
      assert lines == [lines[0]];
    } else {
      var rest := TextOf(lines[1..], newline);
      ReadsBackExactly(lines[1..], newline);
      TextOfMore(lines, newline);
      FirstLine(lines[0], rest);
      StrippedExactly(lines[0]);
      SameTail(lines, StripCarriageReturn(lines[0]), Lines(rest));
      ReadsBackRest(lines, newline);
    }
  }

  lemma StrippedExactly(line: string)
    ensures StripCarriageReturn(line) == line <==> !EndsInReturn(line)
    ensures EndsInReturn(line) ==> line != ""
  {
  }

  lemma ReadsBackRest(lines: seq<string>, newline: bool)
    requires |lines| > 1
    ensures ReadsBack(lines, newline) <==> !EndsInReturn(lines[0]) && ReadsBack(lines[1..], newline)
  {
    hide EndsInReturn;
    forall k | 0 < k < |lines|
      ensures lines[k] == lines[1..][k - 1]
    {
    }
  }

  lemma NoLinesRead(newline: bool)
    ensures Lines(TextOf([], newline)) == if newline then [""] else []
  {
    hide Lines;
    FirstLine("", "");
    LastLine("");
    assert "" + "\n" + "" == "\n" && [""] + [] == [""];
    assert TextOf([], newline) == if newline then "\n" else "";
  }

  lemma OneLineRead(line: string, newline: bool)
    requires '\n' !in line
    ensures Lines(TextOf([line], newline)) ==
            if newline then [StripCarriageReturn(line)] else if line != "" then [line] else []
  {
    hide Lines, StripCarriageReturn;
    FirstLine(line, "");
    LastLine("");
    LastLine(line);
    assert TextOf([line], newline) == if newline then line + "\n" + "" else line;
  }

  lemma TextOfMore(lines: seq<string>, newline: bool)
    requires |lines| > 1
    ensures TextOf(lines, newline) == lines[0] + "\n" + TextOf(lines[1..], newline)
  {
  }

  lemma SameTail(lines: seq<string>, first: string, rest: seq<string>)
    requires lines != []
    ensures [first] + rest == lines <==> first == lines[0] && rest == lines[1..]
  {
    assert ([first] + rest)[0] == first && ([first] + rest)[1..] == rest;
    assert [lines[0]] + lines[1..] == lines;
  }

  // ----- the lines a batch produces -----

  /** A line of the source stays if no edit that replaces or deletes resolves to it. */
  ghost predicate Stays(h: Hash, lines: seq<string>, edits: seq<Edit>, i: nat) {
    forall k | 0 <= k < |edits| :: Removes(edits[k].op) ==> Resolve(h, lines, edits[k]) != Ok(i)
  }

  /** A line that stays, or a line of some edit's text. */
  ghost predicate Contributed(h: Hash, lines: seq<string>, edits: seq<Edit>, x: string) {
    || (exists i: nat :: i < |lines| && lines[i] == x && Stays(h, lines, edits, i))
    || (exists k | 0 <= k < |edits| :: x in OpLines(edits[k].op))
  }

  lemma {:induction false} InBefore(ops: seq<EditOp>, x: string)
    ensures x in Before(ops) <==> exists k | 0 <= k < |ops| :: ops[k].InsertBefore? && x in OpLines(ops[k])
  {
    hide Lines;
    if ops != [] {
      var n := |ops| - 1;
      InBefore(ops[..n], x);
      assert forall k | 0 <= k < n :: ops[..n][k] == ops[k];
    }
  }

  lemma {:induction false} InInstead(ops: seq<EditOp>, x: string)
    ensures x in Instead(ops) <==> exists k | 0 <= k < |ops| :: ops[k].Replace? && x in OpLines(ops[k])
  {
    hide Lines;
    if ops != [] {
      var n := |ops| - 1;
      InInstead(ops[..n], x);
      assert forall k | 0 <= k < n :: ops[..n][k] == ops[k];
    }
  }

  lemma {:induction false} InAfter(ops: seq<EditOp>, x: string)
    ensures x in After(ops) <==> exists k | 0 <= k < |ops| :: ops[k].InsertAfter? && x in OpLines(ops[k])
  {
    hide Lines;
    if ops != [] {
      var n := |ops| - 1;
      InAfter(ops[..n], x);
      assert forall k | 0 <= k < n :: ops[..n][k] == ops[k];
    }
  }

  lemma InEmit(line: string, ops: seq<EditOp>, x: string)
    ensures x in Emit(line, ops) <==> (x == line && !AnyRemoves(ops)) || exists k | 0 <= k < |ops| :: x in OpLines(ops[k])
  {
    hide Before, Instead, After, AnyRemoves, Lines;
    InBefore(ops, x);
    InInstead(ops, x);
    InAfter(ops, x);
  }

  lemma {:induction false} InFlatten(g: seq<seq<string>>, x: string)
    ensures x in Flatten(g) <==> exists i | 0 <= i < |g| :: x in g[i]
  {
    if g != [] {
      InFlatten(g[1..], x);
    }
  }

  lemma {:induction false} InOpsAt(placed: seq<Placed>, i: nat, op: EditOp)
    ensures op in OpsAt(placed, i) <==> Placed(i, op) in placed
  {
    if placed != [] {
      var n := |placed| - 1;
      InOpsAt(placed[..n], i, op);
      assert placed == placed[..n] + [placed[n]];
    }
  }

  lemma {:induction false} PlacedAre(h: Hash, lines: seq<string>, edits: seq<Edit>)
    requires ResolveAll(h, lines, edits).Ok?
    ensures var placed := ResolveAll(h, lines, edits).value;
            && |placed| == |edits|
            && forall k | 0 <= k < |edits| :: Resolve(h, lines, edits[k]) == Ok(placed[k].at) && placed[k].op == edits[k].op
  {
    hide Resolve;
    if edits != [] {
      PlacedAre(h, lines, edits[1..]);
    }
  }

  lemma InRebuilt(lines: seq<string>, placed: seq<Placed>, x: string)
    ensures x in Rebuilt(lines, placed) <==> exists i | 0 <= i < |lines| :: x in Emit(lines[i], OpsAt(placed, i))
  {
    hide Emit, OpsAt, Flatten;
    InFlatten(Groups(lines, placed), x);
    forall i | 0 <= i < |lines|
      ensures Groups(lines, placed)[i] == Emit(lines[i], OpsAt(placed, i))
    {
    }
  }

  lemma ResolvedInRange(h: Hash, lines: seq<string>, e: Edit)
    requires Resolve(h, lines, e).Ok?
    ensures Resolve(h, lines, e).value < |lines|
  {
    hide Resolve;
    ResolvedIsMeant(h, lines, e);
  }

  lemma StaysExactly(h: Hash, lines: seq<string>, edits: seq<Edit>, i: nat)
    requires ResolveAll(h, lines, edits).Ok?
    ensures Stays(h, lines, edits, i) <==> !AnyRemoves(OpsAt(ResolveAll(h, lines, edits).value, i))
  {
    hide Resolve, ResolveAll, OpsAt, Removes;
    var placed := ResolveAll(h, lines, edits).value;
    var ops := OpsAt(placed, i);
    PlacedAre(h, lines, edits);
    forall k | 0 <= k < |edits| && Removes(edits[k].op) && Resolve(h, lines, edits[k]) == Ok(i)
      ensures AnyRemoves(ops)
    {
      assert placed[k] == Placed(i, edits[k].op);
      InOpsAt(placed, i, edits[k].op);
    }
    forall j | 0 <= j < |ops| && Removes(ops[j])
      ensures exists k | 0 <= k < |edits| :: Removes(edits[k].op) && Resolve(h, lines, edits[k]) == Ok(i)
    {
      InOpsAt(placed, i, ops[j]);
      var k :| 0 <= k < |placed| && placed[k] == Placed(i, ops[j]);
      assert Removes(edits[k].op);
    }
  }

  /** Some operation at line `i` carries the line in its text. */
  ghost predicate TextAt(placed: seq<Placed>, i: nat, x: string) {
    exists j | 0 <= j < |OpsAt(placed, i)| :: x in OpLines(OpsAt(placed, i)[j])
  }

  /** Whatever an edit's text contributes is contributed at the edit's line, and nothing else is. */
  lemma TextsAt(h: Hash, lines: seq<string>, edits: seq<Edit>, x: string)
    requires ResolveAll(h, lines, edits).Ok?
    ensures (exists k | 0 <= k < |edits| :: x in OpLines(edits[k].op)) <==>
            exists i | 0 <= i < |lines| :: TextAt(ResolveAll(h, lines, edits).value, i, x)
  {
    hide Resolve, ResolveAll, OpsAt, OpLines;
    var placed := ResolveAll(h, lines, edits).value;
    PlacedAre(h, lines, edits);
    if k :| 0 <= k < |edits| && x in OpLines(edits[k].op) {
      var i := placed[k].at;
      ResolvedInRange(h, lines, edits[k]);
      assert placed[k] == Placed(i, edits[k].op);
      InOpsAt(placed, i, edits[k].op);
      var j :| 0 <= j < |OpsAt(placed, i)| && OpsAt(placed, i)[j] == edits[k].op;
      assert TextAt(placed, i, x);
    }
    if i :| 0 <= i < |lines| && TextAt(placed, i, x) {
      var j :| 0 <= j < |OpsAt(placed, i)| && x in OpLines(OpsAt(placed, i)[j]);
      InOpsAt(placed, i, OpsAt(placed, i)[j]);
      var k :| 0 <= k < |placed| && placed[k] == Placed(i, OpsAt(placed, i)[j]);
      assert x in OpLines(edits[k].op);
    }
  }

  /** The lines of the output are the lines that stay and the lines of the edits' texts. */
  lemma OutputIsContributed(h: Hash, lines: seq<string>, edits: seq<Edit>, x: string)
    requires LinesAfter(h, lines, edits).Ok?
    ensures x in LinesAfter(h, lines, edits).value <==> Contributed(h, lines, edits, x)
  {
    hide Resolve, ResolveAll, OpsAt, OpLines, Emit, Stays, Rebuilt;
    var placed := ResolveAll(h, lines, edits).value;
    InRebuilt(lines, placed, x);
    TextsAt(h, lines, edits, x);
    forall i: nat | i < |lines|
      ensures x in Emit(lines[i], OpsAt(placed, i)) <==>
              (x == lines[i] && Stays(h, lines, edits, i)) || TextAt(placed, i, x)
    {
      InEmit(lines[i], OpsAt(placed, i), x);
      StaysExactly(h, lines, edits, i);
    }
  }

  // ----- lines without line feeds -----

  lemma {:induction false} LinesAreSingle(s: string)
    ensures AllSingle(Lines(s))
    decreases |s|
  {
    if s != "" {
      var p := IndexOf(s, '\n');
      if p == |s| {
        assert s[..p] == s;
      } else {
        LinesAreSingle(s[p + 1..]);
      }
    }
  }

  lemma OutputIsSingle(h: Hash, source: string, edits: seq<Edit>)
    requires LinesAfter(h, Lines(source), edits).Ok?
    ensures AllSingle(LinesAfter(h, Lines(source), edits).value)
  {
    hide LinesAfter, Lines, Stays;
    var lines := Lines(source);
    var out := LinesAfter(h, lines, edits).value;
    forall n | 0 <= n < |out|
      ensures '\n' !in out[n]
    {
      OutputIsContributed(h, lines, edits, out[n]);
      LinesAreSingle(source);
      if k :| 0 <= k < |edits| && out[n] in OpLines(edits[k].op) {
        TextIsSingle(edits[k].op);
      }
    }
  }

  lemma TextIsSingle(op: EditOp)
    ensures AllSingle(OpLines(op))
  {
    hide Lines;
    if !op.Delete? {
      LinesAreSingle(op.text);
    }
  }

  // ----- what is written, read again -----

  /** The text that `apply_edits` writes reads back as the lines it means exactly if: with a closing line
      feed, something is left or inserted, and no line left or inserted ends in a carriage return; without
      one, no line but the last does, and the last is not empty. */
  lemma EditedReadsBack(h: Hash, source: string, edits: seq<Edit>)
    requires LinesAfter(h, Lines(source), edits).Ok?
    ensures var lines, out := Lines(source), LinesAfter(h, Lines(source), edits).value;
            var readsBack := Lines(Edited(h, source, edits).value) == out;
            && (readsBack <==> ReadsBack(out, EndsWithNewline(source)))
            && (EndsWithNewline(source) ==>
                  (readsBack <==> (exists x :: Contributed(h, lines, edits, x))
                                  && forall x :: Contributed(h, lines, edits, x) ==> !EndsInReturn(x)))
  {
    hide Contributed, LinesAfter, Lines, TextOf, EndsInReturn;
    var lines, out := Lines(source), LinesAfter(h, Lines(source), edits).value;
    OutputIsSingle(h, source, edits);
    ReadsBackExactly(out, EndsWithNewline(source));
    forall x
      ensures x in out <==> Contributed(h, lines, edits, x)
    {
      OutputIsContributed(h, lines, edits, x);
    }
    if out != [] {
      assert out[0] in out;
    }
    assert forall k | 0 <= k < |out| :: out[k] in out;
  }

  /** The text ends in a line feed whenever the source does, and otherwise exactly if the last of two or
      more lines is empty. */
  lemma NewlineKeptExactly(h: Hash, source: string, edits: seq<Edit>)
    requires LinesAfter(h, Lines(source), edits).Ok?
    ensures var out := LinesAfter(h, Lines(source), edits).value;
            EndsWithNewline(Edited(h, source, edits).value) <==>
            EndsWithNewline(source) || (|out| >= 2 && out[|out| - 1] == "")
  {
    hide LinesAfter, Lines;
    var out := LinesAfter(h, Lines(source), edits).value;
    OutputIsSingle(h, source, edits);
    JoinedEnd(out);
  }

  lemma {:induction false} JoinedEnd(lines: seq<string>)
    requires AllSingle(lines)
    ensures EndsWithNewline(JoinLines(lines)) <==> |lines| >= 2 && lines[|lines| - 1] == ""
    decreases |lines|
  {
    if |lines| >= 2 {
      JoinedEnd(lines[1..]);
    }
  }

  // ----- three batches that do not read back -----

  lemma OneEdit(h: Hash, line: string, op: EditOp)
    ensures LinesAfter(h, [line], [Edit(h(line), None, op)]) == Ok(Becomes(line, op))
  {
    hide Emit, Becomes;
    var lines, e := [line], Edit(h(line), None, op);
    assert MatchesBelow(h, lines, e.anchor, 0) == [];
    assert Matches(h, lines, e.anchor) == [0];
    assert [e][1..] == [] && ResolveAll(h, lines, [e][1..]) == Ok([]);
    assert Resolve(h, lines, e) == Ok(0) && [Placed(0, op)] + [] == [Placed(0, op)];
    assert ResolveAll(h, lines, [e]) == Ok([Placed(0, op)]);
    assert [Placed(0, op)][..0] == [] && OpsAt([], 0) == [];
    assert OpsAt([Placed(0, op)], 0) == [op];
    EmitOne(line, op);
    assert Groups(lines, [Placed(0, op)]) == [Becomes(line, op)];
    FlattenOne(Becomes(line, op));
  }

  lemma NoEdits(h: Hash, lines: seq<string>)
    requires |lines| == 1
    ensures LinesAfter(h, lines, []) == Ok(lines)
  {
    NoParts();
    assert Emit(lines[0], OpsAt([], 0)) == lines;
    assert Groups(lines, []) == [lines];
    FlattenOne(lines);
  }

  lemma OneTerminated(line: string)
    requires '\n' !in line
    ensures Lines(line + "\n") == [StripCarriageReturn(line)]
  {
    hide Lines;
    FirstLine(line, "");
    LastLine("");
    assert line + "\n" + "" == line + "\n";
  }

  /** Deleting the only line of a file leaves a line feed, which reads as one empty line. */
  lemma DeletedFile(h: Hash)
    ensures var batch := [Edit(h("a"), None, Delete)];
            && LinesAfter(h, Lines("a\n"), batch) == Ok([])
            && Edited(h, "a\n", batch) == Ok("\n") && Lines("\n") == [""]
  {
    hide Lines, LinesAfter;
    OneTerminated("a");
    OneTerminated("");
    assert "a" + "\n" == "a\n" && "" + "\n" == "\n";
    OneEdit(h, "a", Delete);
  }

  /** An empty line inserted at the end of a file without a closing line feed is not there when it is read. */
  lemma LostEmptyLine(h: Hash)
    ensures var batch := [Edit(h("a"), None, InsertAfter("\n"))];
            && LinesAfter(h, Lines("a"), batch) == Ok(["a", ""])
            && Edited(h, "a", batch) == Ok("a\n") && Lines("a\n") == ["a"]
  {
    hide Lines, LinesAfter;
    OneTerminated("a");
    OneTerminated("");
    LastLine("a");
    assert "a" + "\n" == "a\n" && "" + "\n" == "\n" && ["a"] + [""] == ["a", ""];
    OneEdit(h, "a", InsertAfter("\n"));
    TextOfMore(["a", ""], false);
    assert ["a", ""][1..] == [""] && TextOf([""], false) == "" && "a" + "\n" + "" == "a\n";
  }

  /** No edit at all: of two carriage returns before a line feed one is left, and the next reading drops it. */
  lemma LostCarriageReturn(h: Hash)
    ensures LinesAfter(h, Lines("a\r\r\n"), []) == Ok(["a\r"])
    ensures Edited(h, "a\r\r\n", []) == Ok("a\r\n") && Lines("a\r\n") == ["a"]
  {
    hide Lines, LinesAfter;
    OneTerminated("a\r\r");
    OneTerminated("a\r");
    assert "a\r\r" + "\n" == "a\r\r\n" && "a\r" + "\n" == "a\r\n";
    assert "a\r\r"[..2] == "a\r" && "a\r"[..1] == "a";
    NoEdits(h, ["a\r"]);
  }
}

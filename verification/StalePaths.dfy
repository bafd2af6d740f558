/** Which calls read and edit which paths, told on the calls themselves, and transcripts that show it. */
module StalePaths {
  import opened Strings
  import opened Protocol
  import opened History
  import opened StaleReads
  import Dedup

  // ----- the paths of some arguments -----

  /** What a way through some arguments leads to: into items of arrays, and into members of objects other
      than `path` and `paths`. */
  function Follow(v: Json, way: seq<nat>): Option<Json>
    decreases way
  {
    if way == [] then Some(v)
    else if v.JArr? && way[0] < |v.items| then Follow(v.items[way[0]], way[1..])
    else if v.JObj? && way[0] < |v.fields| && v.fields[way[0]].key != "path" && v.fields[way[0]].key != "paths"
    then Follow(v.fields[way[0]].value, way[1..])
    else None
  }

  /** An object with a `path` member that is the string, or a `paths` array with the string in it. */
  predicate Names(v: Json, s: string) {
    v.JObj? && exists k | 0 <= k < |v.fields| :: NamedBy(v.fields[k], s)
  }

  predicate NamedBy(f: Field, s: string) {
    (f.key == "path" && f.value == JStr(s)) || (f.key == "paths" && f.value.JArr? && JStr(s) in f.value.items)
  }

  ghost predicate NamedAt(v: Json, s: string, way: seq<nat>) {
    Follow(v, way).Some? && Names(Follow(v, way).value, s)
  }

  /** The arguments name the path, at any depth. */
  ghost predicate Mentions(v: Json, s: string) {
    exists way :: NamedAt(v, s, way)
  }

  lemma {:induction false} InStrings(items: seq<Json>, s: string)
    ensures s in StringItems(items) <==> JStr(s) in items
  {
    if items != [] {
      InStrings(items[1..], s);
      assert items == [items[0]] + items[1..];
    }
  }

  lemma {:induction false} InItems(items: seq<Json>, s: string)
    ensures s in ItemPaths(items) <==> exists k | 0 <= k < |items| :: s in Paths(items[k])
    decreases items
  {
    hide Paths;
    if items != [] {
      InItems(items[1..], s);
    }
  }

  /** What one member adds. */
  function OfField(f: Field): seq<string> {
    if f.key == "path" then (if f.value.JStr? then [f.value.s] else [])
    else if f.key == "paths" then (if f.value.JArr? then StringItems(f.value.items) else [])
    else Paths(f.value)
  }

  lemma {:induction false} InFields(fields: seq<Field>, s: string)
    ensures s in FieldPaths(fields) <==> exists k | 0 <= k < |fields| :: s in OfField(fields[k])
    decreases fields
  {
    hide Paths, OfField;
    if fields != [] {
      InFields(fields[1..], s);
      assert FieldPaths(fields) == OfField(fields[0]) + FieldPaths(fields[1..]) by { FieldsNext(fields); }
    }
  }

  lemma FieldsNext(fields: seq<Field>)
    requires fields != []
    ensures FieldPaths(fields) == OfField(fields[0]) + FieldPaths(fields[1..])
  {
  }

  /** A way that starts with a step. */
  lemma StepsIn(v: Json, k: nat, w: Json, s: string, way: seq<nat>)
    requires Follow(v, [k]) == Some(w)
    ensures NamedAt(v, s, [k] + way) <==> NamedAt(w, s, way)
  {
    assert ([k] + way)[1..] == way && [k][1..] == [];
  }

  lemma {:induction false} PathsMentioned(v: Json, s: string)
    requires s in Paths(v)
    ensures Mentions(v, s)
    decreases v
  {
    hide Paths, StringItems;
    PathsOf(v);
    if v.JObj? {
      InFields(v.fields, s);
      var k :| 0 <= k < |v.fields| && s in OfField(v.fields[k]);
      var f := v.fields[k];
      if f.key == "path" || f.key == "paths" {
        if f.value.JArr? {
          InStrings(f.value.items, s);
        }
        assert NamedBy(f, s);
        assert NamedAt(v, s, []);
      } else {
        PathsMentioned(f.value, s);
        var way :| NamedAt(f.value, s, way);
        assert Follow(v, [k]) == Some(f.value) by { assert [k][1..] == []; }
        StepsIn(v, k, f.value, s, way);
      }
    } else {
      InItems(v.items, s);
      var k :| 0 <= k < |v.items| && s in Paths(v.items[k]);
      PathsMentioned(v.items[k], s);
      var way :| NamedAt(v.items[k], s, way);
      assert Follow(v, [k]) == Some(v.items[k]) by { assert [k][1..] == []; }
      StepsIn(v, k, v.items[k], s, way);
    }
  }

  lemma PathsOf(v: Json)
    ensures Paths(v) == if v.JObj? then FieldPaths(v.fields) else if v.JArr? then ItemPaths(v.items) else []
  {
  }

  lemma {:induction false} MentionedPaths(v: Json, s: string, way: seq<nat>)
    requires NamedAt(v, s, way)
    ensures s in Paths(v)
    decreases |way|
  {
    hide Paths, StringItems;
    PathsOf(v);
    if way == [] {
      var k :| 0 <= k < |v.fields| && NamedBy(v.fields[k], s);
      if v.fields[k].value.JArr? {
        InStrings(v.fields[k].value.items, s);
      }
      assert s in OfField(v.fields[k]);
      InFields(v.fields, s);
    } else if v.JArr? {
      MentionedPaths(v.items[way[0]], s, way[1..]);
      InItems(v.items, s);
    } else {
      MentionedPaths(v.fields[way[0]].value, s, way[1..]);
      assert s in OfField(v.fields[way[0]]);
      InFields(v.fields, s);
    }
  }

  /** The paths of some arguments are exactly those they name. */
  lemma PathsExactly(v: Json, s: string)
    ensures s in Paths(v) <==> Mentions(v, s)
  {
    hide Paths;
    if s in Paths(v) {
      PathsMentioned(v, s);
    }
    if way :| NamedAt(v, s, way) {
      MentionedPaths(v, s, way);
    }
  }

  // ----- stale marking, told on the transcript -----

  predicate Reads(u: ContentBlock) {
    u.ToolUse? && u.name in ["read_file", "read_files", "read_anchored", "outline_file", "outline_files"]
  }

  predicate Edits(u: ContentBlock) {
    u.ToolUse? && u.name in ["str_replace", "edit_anchored", "edit_files", "write_file", "batch_edit"]
  }

  /** The last read or edit under its id. */
  predicate Speaks(us: Blocks, p: nat) {
    p < |us| && (Reads(us[p]) || Edits(us[p]))
    && forall q | p < q < |us| && (Reads(us[q]) || Edits(us[q])) :: us[q].id != us[p].id
  }

  ghost predicate HasFailed(h: Transcript, id: string) {
    exists i, j | 0 <= i < |h| && 0 <= j < |h[i].content| ::
      h[i].content[j].ToolResult? && h[i].content[j].isError && h[i].content[j].id == id
  }

  /** The result answers a read of the path, and a later edit of the path did not fail. */
  ghost predicate Overtaken(h: Transcript, b: ContentBlock, path: string, p: nat, q: nat) {
    var us := AllUses(h);
    && b.ToolResult? && p < q && Speaks(us, p) && Speaks(us, q) && us[p].id == b.id
    && Reads(us[p]) && Mentions(us[p].input, path) && Edits(us[q]) && Mentions(us[q].input, path)
    && !HasFailed(h, us[q].id)
  }

  ghost predicate IsOvertaken(h: Transcript, b: ContentBlock, path: string) {
    exists p: nat, q: nat :: Overtaken(h, b, path, p, q)
  }

  lemma {:induction false} FailedExactly(h: Transcript, id: string)
    ensures id in Failed(h) <==> HasFailed(h, id)
  {
    if h != [] {
      var n := |h| - 1;
      FailedExactly(h[..n], id);
      FailedInMeans(h[n].content, id);
      if id in Failed(h[..n]) {
        var i, j :| 0 <= i < n && 0 <= j < |h[..n][i].content| && h[..n][i].content[j].ToolResult?
                    && h[..n][i].content[j].isError && h[..n][i].content[j].id == id;
        assert h[i] == h[..n][i];
      }
    }
  }

  lemma FailedInMeans(blocks: Blocks, id: string)
    ensures id in FailedIn(blocks) <==>
            exists j | 0 <= j < |blocks| :: blocks[j].ToolResult? && blocks[j].isError && blocks[j].id == id
  {
    forall j | 0 <= j < |blocks| && blocks[j].ToolResult? && blocks[j].isError && blocks[j].id == id
      ensures id in FailedIn(blocks)
    {
      assert blocks[j] in blocks;
    }
  }

  lemma OvertakenIsSuperseded(h: Transcript, b: ContentBlock, path: string, p: nat, q: nat)
    ensures Overtaken(h, b, path, p, q) <==> SupersededBy(h, b, path, p, q)
  {
    hide AllUses, Mentions, Paths, HasFailed, Failed;
    var us := AllUses(h);
    if p < |us| && q < |us| {
      if us[p].ToolUse? {
        PathsExactly(us[p].input, path);
      }
      if us[q].ToolUse? {
        PathsExactly(us[q].input, path);
        FailedExactly(h, us[q].id);
      }
    }
  }

  /** A result is replaced exactly if it is of 200 bytes or more, no error and no placeholder, and answers
      a read of a path that a later call edited without failing; the note names such a path. */
  lemma MarkedExactly(h: Transcript, i: nat, j: nat)
    requires i < |h| && j < |h[i].content|
    ensures var b, c := h[i].content[j], MarkStale(h)[i].content[j];
            && (c != b <==>
                  && b.ToolResult? && !b.isError && Utf8Len(b.content) >= 200 && !("[" <= b.content)
                  && exists path :: IsOvertaken(h, b, path))
            && (c != b ==> exists path :: IsOvertaken(h, b, path) && c == b.(content := StaleNote(path, Utf8Len(b.content))))
  {
    hide MarkStale, StaleNote, Utf8Len, SupersededBy, Overtaken;
    var b := h[i].content[j];
    StaleMarkingIsExact(h, i, j);
    forall path, p: nat, q: nat
      ensures Overtaken(h, b, path, p, q) <==> SupersededBy(h, b, path, p, q)
    {
      OvertakenIsSuperseded(h, b, path, p, q);
    }
    assert forall path :: IsOvertaken(h, b, path) <==> Superseded(h, b, path);
  }

  // ----- a read and an edit -----

  /** Two calls and their answers. */
  function TwoCalls(first: ContentBlock, given: ContentBlock, second: ContentBlock, last: ContentBlock): Transcript {
    [Message(Assistant, [first]), Message(User, [given]), Message(Assistant, [second]), Message(User, [last])]
  }

  function PathOf(path: string): Json {
    JObj([Field("path", JStr(path))])
  }

  function PathsOfTwo(a: string, b: string): Json {
    JObj([Field("paths", JArr([JStr(a), JStr(b)]))])
  }

  /** The arguments of a batch with one edit. */
  function OneEdit(path: string): Json {
    JObj([Field("edits", JArr([PathOf(path)]))])
  }

  lemma PathIsNamed(path: string, s: string)
    ensures Mentions(PathOf(path), s) <==> s == path
  {
    PathsExactly(PathOf(path), s);
    assert PathOf(path).fields[1..] == [];
    assert Paths(PathOf(path)) == [path] + FieldPaths([]);
  }

  lemma TwoAreNamed(a: string, b: string, s: string)
    ensures Mentions(PathsOfTwo(a, b), s) <==> s == a || s == b
  {
    PathsExactly(PathsOfTwo(a, b), s);
    var items := [JStr(a), JStr(b)];
    InStrings(items, s);
    assert PathsOfTwo(a, b).fields[1..] == [];
    assert Paths(PathsOfTwo(a, b)) == StringItems(items) + FieldPaths([]);
  }

  lemma EditedIsNamed(path: string, s: string)
    ensures Mentions(OneEdit(path), s) <==> s == path
  {
    hide Paths;
    PathsExactly(OneEdit(path), s);
    PathIsNamed(path, s);
    PathsExactly(PathOf(path), s);
    PathsOf(OneEdit(path));
    PathsOf(JArr([PathOf(path)]));
    InFields(OneEdit(path).fields, s);
    InItems([PathOf(path)], s);
    assert OneEdit(path).fields[0].key == "edits";
    assert OfField(OneEdit(path).fields[0]) == Paths(JArr([PathOf(path)]));
  }

  lemma UsesOfTwo(first: ContentBlock, given: ContentBlock, second: ContentBlock, last: ContentBlock)
    requires first.ToolUse? && given.ToolResult? && second.ToolUse? && last.ToolResult?
    ensures AllUses(TwoCalls(first, given, second, last)) == [first, second]
  {
    var h := TwoCalls(first, given, second, last);
    OneUse(first);
    OneUse(given);
    OneUse(second);
    OneUse(last);
    assert h[..4] == h && h[..4][..3] == h[..3] && h[..3][..2] == h[..2] && h[..2][..1] == h[..1] && h[..1][..0] == [];
    assert AllUses(h[..1]) == [] + [first];
    assert AllUses(h[..2]) == [first] + [];
    assert AllUses(h[..3]) == [first] + [second];
  }

  lemma OneUse(b: ContentBlock)
    ensures Uses([b]) == if b.ToolUse? then [b] else []
  {
    assert [b][..0] == [] && Uses([]) == [];
  }

  /** A large answer. */
  function Large(id: string): (b: ContentBlock)
    ensures b.ToolResult? && b.id == id && !b.isError && Utf8Len(b.content) == 300 && !("[" <= b.content)
  {
    var c := Dedup.Xs(300);
    assert c[0] == 'x';
    ToolResult(id, c, false, [])
  }

  function Okay(id: string): ContentBlock {
    ToolResult(id, "ok", false, [])
  }

  lemma NothingFailed(first: ContentBlock, second: ContentBlock, a: string, b: string, id: string)
    requires !first.ToolResult? && !second.ToolResult?
    ensures !HasFailed(TwoCalls(first, Large(a), second, Okay(b)), id)
  {
    hide Large;
  }

  /** A read of the path, then an edit of it: the answer to the read gives way to the note. */
  lemma MarkedWhenEdited(read: ContentBlock, edit: ContentBlock, path: string)
    requires Reads(read) && Edits(edit) && read.id != edit.id
    requires forall s :: Mentions(read.input, s) && Mentions(edit.input, s) <==> s == path
    ensures var h := TwoCalls(read, Large(read.id), edit, Okay(edit.id));
            MarkStale(h)[1].content == [Large(read.id).(content := StaleNote(path, 300))]
  {
    hide MarkStale, StaleNote, Mentions, TwoCalls, AllUses, HasFailed, Large;
    var h := TwoCalls(read, Large(read.id), edit, Okay(edit.id));
    TwoCallsAre(read, Large(read.id), edit, Okay(edit.id));
    UsesOfTwo(read, Large(read.id), edit, Okay(edit.id));
    NothingFailed(read, edit, read.id, edit.id, edit.id);
    MarkedExactly(h, 1, 0);
    assert Mentions(read.input, path) && Mentions(edit.input, path);
    assert Overtaken(h, Large(read.id), path, 0, 1);
    assert IsOvertaken(h, Large(read.id), path);
    MarkStaleKeepsShape(h);
    forall s, p: nat, q: nat | Overtaken(h, Large(read.id), s, p, q)
      ensures s == path
    {
      assert p == 0 && q == 1;
    }
  }

  lemma TwoCallsAre(first: ContentBlock, given: ContentBlock, second: ContentBlock, last: ContentBlock)
    ensures var h := TwoCalls(first, given, second, last);
            |h| == 4 && h[1] == Message(User, [given]) && h[3] == Message(User, [last])
  {
  }

  /** What a read gave after the last edit of the path stands. */
  lemma UnmarkedWhenReadLast(edit: ContentBlock, read: ContentBlock)
    requires Reads(read) && Edits(edit) && read.id != edit.id
    ensures var h := TwoCalls(edit, Okay(edit.id), read, Large(read.id));
            MarkStale(h)[3].content == [Large(read.id)]
  {
    hide MarkStale, StaleNote, Mentions, TwoCalls, AllUses, HasFailed, Large;
    var h := TwoCalls(edit, Okay(edit.id), read, Large(read.id));
    TwoCallsAre(edit, Okay(edit.id), read, Large(read.id));
    UsesOfTwo(edit, Okay(edit.id), read, Large(read.id));
    MarkedExactly(h, 3, 0);
    MarkStaleKeepsShape(h);
    forall s, p: nat, q: nat
      ensures !Overtaken(h, Large(read.id), s, p, q)
    {
    }
  }

  lemma ThreeHundred()
    ensures Decimal(300) == "300"
  {
    assert Decimal(3) == "3" && Decimal(30) == Decimal(3) + "0" && Decimal(300) == Decimal(30) + "0";
  }

  /** `read_file` then `str_replace`; the same the other way round; and a read of two files, one of which a
      batch edits. */
  lemma ReadsGoStale()
    ensures var h := TwoCalls(ToolUse("r", "read_file", PathOf("a")), Large("r"), ToolUse("e", "str_replace", PathOf("a")), Okay("e"));
            MarkStale(h)[1].content ==
            [Large("r").(content := "[stale: " + "a" + " was edited after this read; " + "300"
                                    + " bytes elided — re-read it if you need the current contents]")]
    ensures var h := TwoCalls(ToolUse("e", "str_replace", PathOf("a")), Okay("e"), ToolUse("r", "read_file", PathOf("a")), Large("r"));
            MarkStale(h)[3].content == [Large("r")]
    ensures var h := TwoCalls(ToolUse("r", "read_files", PathsOfTwo("a", "b")), Large("r"),
                              ToolUse("e", "edit_files", OneEdit("b")), Okay("e"));
            MarkStale(h)[1].content == [Large("r").(content := StaleNote("b", 300))]
  {
    hide MarkStale, Mentions, TwoCalls, Large, PathOf, PathsOfTwo, OneEdit, Decimal;
    ThreeHundred();
    forall s: string
      ensures Mentions(PathOf("a"), s) <==> s == "a"
      ensures Mentions(PathsOfTwo("a", "b"), s) && Mentions(OneEdit("b"), s) <==> s == "b"
    {
      PathIsNamed("a", s);
      TwoAreNamed("a", "b", s);
      EditedIsNamed("b", s);
    }
    MarkedWhenEdited(ToolUse("r", "read_file", PathOf("a")), ToolUse("e", "str_replace", PathOf("a")), "a");
    UnmarkedWhenReadLast(ToolUse("e", "str_replace", PathOf("a")), ToolUse("r", "read_file", PathOf("a")));
    MarkedWhenEdited(ToolUse("r", "read_files", PathsOfTwo("a", "b")), ToolUse("e", "edit_files", OneEdit("b")), "b");
  }
}

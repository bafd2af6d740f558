/** Stale marking: once a file has been edited, an earlier read of it is wrong and is replaced by a pointer. */
module StaleReads {
  import opened Strings
  import opened Protocol
  import opened History

  /** Results smaller than this are left alone. */
  const DEDUP_MIN_BYTES := 200

  predicate IsReadTool(name: string) {
    name in ["read_file", "read_files", "read_anchored", "outline_file", "outline_files"]
  }

  predicate IsEditTool(name: string) {
    name in ["str_replace", "edit_anchored", "edit_files", "write_file", "batch_edit"]
  }

  // ----- the paths a call mentions -----

  /** Every `path` and `paths` member of some arguments, at any depth. */
  function Paths(v: Json): seq<string>
    decreases v, 1
  {
    match v
    case JObj(fields) => FieldPaths(fields)
    case JArr(items) => ItemPaths(items)
    case _ => []
  }

  function FieldPaths(fields: seq<Field>): seq<string>
    decreases fields, 0
  {
    if fields == [] then []
    else
      var f := fields[0];
      (if f.key == "path" then (if f.value.JStr? then [f.value.s] else [])
       else if f.key == "paths" then (if f.value.JArr? then StringItems(f.value.items) else [])
       else Paths(f.value)) + FieldPaths(fields[1..])
  }

  function ItemPaths(items: seq<Json>): seq<string>
    decreases items, 0
  {
    if items == [] then [] else Paths(items[0]) + ItemPaths(items[1..])
  }

  function StringItems(items: seq<Json>): seq<string> {
    if items == [] then []
    else (if items[0].JStr? then [items[0].s] else []) + StringItems(items[1..])
  }

  // ----- the calls of a transcript -----

  /** The tool calls among some blocks, in order. */
  function Uses(blocks: Blocks): Blocks {
    if blocks == [] then []
    else
      var b := blocks[|blocks| - 1];
      Uses(blocks[..|blocks| - 1]) + (if b.ToolUse? then [b] else [])
  }

  /** All tool calls of a transcript, in order. A call's position is its index here. */
  function AllUses(h: Transcript): (us: Blocks) {
    if h == [] then [] else AllUses(h[..|h| - 1]) + Uses(h[|h| - 1].content)
  }

  function FailedIn(blocks: Blocks): set<string> {
    set b | b in blocks && b.ToolResult? && b.isError :: b.id
  }

  /** The ids that some error result answers. */
  function Failed(h: Transcript): set<string> {
    if h == [] then {} else Failed(h[..|h| - 1]) + FailedIn(h[|h| - 1].content)
  }

  datatype Call = Call(pos: nat, read: bool, edit: bool, paths: seq<string>)

  /** The read and edit calls by id; a later call with the same id replaces an earlier one. */
  function Index(us: Blocks): map<string, Call> {
    if us == [] then map[]
    else
      var n := |us| - 1;
      var u := us[n];
      if u.ToolUse? && (IsReadTool(u.name) || IsEditTool(u.name))
      then Index(us[..n])[u.id := Call(n, IsReadTool(u.name), IsEditTool(u.name), Paths(u.input))]
      else Index(us[..n])
  }

  /** Some call after position `pos` edited `path` and did not fail. */
  predicate EditedAfter(calls: map<string, Call>, failed: set<string>, pos: nat, path: string) {
    exists id | id in calls.Keys ::
      calls[id].edit && id !in failed && path in calls[id].paths && calls[id].pos > pos
  }

  /** The first path of a read that was edited after position `pos`. */
  function StalePath(calls: map<string, Call>, failed: set<string>, paths: seq<string>, pos: nat): Option<string> {
    if paths == [] then None
    else if EditedAfter(calls, failed, pos, paths[0]) then Some(paths[0])
    else StalePath(calls, failed, paths[1..], pos)
  }

  function StaleNote(path: string, bytes: nat): string {
    "[stale: " + path + " was edited after this read; " + Decimal(bytes)
    + " bytes elided — re-read it if you need the current contents]"
  }

  /** Large, not an error and not a placeholder already. */
  predicate Markable(b: ContentBlock) {
    b.ToolResult? && !b.isError && Utf8Len(b.content) >= DEDUP_MIN_BYTES && !("[" <= b.content)
  }

  function MarkBlock(calls: map<string, Call>, failed: set<string>, b: ContentBlock): ContentBlock {
    if Markable(b) && b.id in calls && calls[b.id].read then
      match StalePath(calls, failed, calls[b.id].paths, calls[b.id].pos)
      case Some(path) => b.(content := StaleNote(path, Utf8Len(b.content)))
      case None => b
    else b
  }

  function MarkBlocks(calls: map<string, Call>, failed: set<string>, blocks: Blocks): Blocks {
    seq(|blocks|, j requires 0 <= j < |blocks| => MarkBlock(calls, failed, blocks[j]))
  }

  function MarkAll(calls: map<string, Call>, failed: set<string>, h: Transcript): Transcript {
    seq(|h|, i requires 0 <= i < |h| => h[i].(content := MarkBlocks(calls, failed, h[i].content)))
  }

  /** The transcript that stale marking leaves. */
  function MarkStale(h: Transcript): Transcript {
    MarkAll(Index(AllUses(h)), Failed(h), h)
  }

  // ----- what is replaced -----

  predicate IsIndexed(u: ContentBlock) {
    u.ToolUse? && (IsReadTool(u.name) || IsEditTool(u.name))
  }

  /** Call `p` is the last read or edit call with its id: the one that speaks for the id. */
  ghost predicate Decides(us: Blocks, p: nat) {
    p < |us| && IsIndexed(us[p]) && forall q | p < q < |us| && IsIndexed(us[q]) :: us[q].id != us[p].id
  }

  /** The last call `p` with the result's id is a read of the path, and a later one, itself the last with
      its id, edits the path and has no error result. */
  ghost predicate SupersededBy(h: Transcript, b: ContentBlock, path: string, p: nat, q: nat) {
    var us := AllUses(h);
    && b.ToolResult? && p < q && Decides(us, p) && Decides(us, q)
    && us[p].id == b.id && IsReadTool(us[p].name) && path in Paths(us[p].input)
    && IsEditTool(us[q].name) && path in Paths(us[q].input) && us[q].id !in Failed(h)
  }

  ghost predicate Superseded(h: Transcript, b: ContentBlock, path: string) {
    exists p: nat, q: nat :: SupersededBy(h, b, path, p, q)
  }

  lemma {:induction false} IndexFinds(us: Blocks, p: nat)
    requires Decides(us, p)
    ensures us[p].id in Index(us)
    ensures Index(us)[us[p].id] == Call(p, IsReadTool(us[p].name), IsEditTool(us[p].name), Paths(us[p].input))
  {
    hide IsReadTool, IsEditTool, Paths;
    var n := |us| - 1;
    if p < n {
      assert forall q | 0 <= q < n :: us[..n][q] == us[q];
      IndexFinds(us[..n], p);
    }
  }

  predicate CallAt(us: Blocks, p: nat, id: string, c: Call)
    requires p < |us|
  {
    var u := us[p];
    u.ToolUse? && u.id == id && c == Call(p, IsReadTool(u.name), IsEditTool(u.name), Paths(u.input))
  }

  lemma {:induction false} IndexedIsCall(us: Blocks, id: string)
    requires id in Index(us)
    ensures Decides(us, Index(us)[id].pos) && CallAt(us, Index(us)[id].pos, id, Index(us)[id])
  {
    hide IsReadTool, IsEditTool, Paths;
    var n := |us| - 1;
    if !(IsIndexed(us[n]) && us[n].id == id) {
      IndexedIsCall(us[..n], id);
      assert forall q | 0 <= q < n :: us[..n][q] == us[q];
    }
  }

  lemma {:induction false} StalePathIsFirst(calls: map<string, Call>, failed: set<string>, paths: seq<string>, pos: nat)
    ensures StalePath(calls, failed, paths, pos) == None ==>
              forall path <- paths :: !EditedAfter(calls, failed, pos, path)
    ensures forall path :: StalePath(calls, failed, paths, pos) == Some(path) ==>
              path in paths && EditedAfter(calls, failed, pos, path)
  {
    if paths != [] && !EditedAfter(calls, failed, pos, paths[0]) {
      StalePathIsFirst(calls, failed, paths[1..], pos);
      assert forall path <- paths :: path == paths[0] || path in paths[1..];
    }
  }

  /** A path found in the index is edited later in the transcript. */
  lemma IndexMeansSuperseded(h: Transcript, b: ContentBlock, path: string)
    requires b.ToolResult? && b.id in Index(AllUses(h)) && Index(AllUses(h))[b.id].read
    requires path in Index(AllUses(h))[b.id].paths
    requires EditedAfter(Index(AllUses(h)), Failed(h), Index(AllUses(h))[b.id].pos, path)
    ensures Superseded(h, b, path)
  {
    var us := AllUses(h);
    var calls := Index(us);
    var id :| id in calls.Keys && calls[id].edit && id !in Failed(h) && path in calls[id].paths
              && calls[id].pos > calls[b.id].pos;
    IndexedIsCall(us, b.id);
    IndexedIsCall(us, id);
    assert SupersededBy(h, b, path, calls[b.id].pos, calls[id].pos);
  }

  lemma SupersededMeansIndex(h: Transcript, b: ContentBlock, path: string)
    requires Superseded(h, b, path)
    ensures b.id in Index(AllUses(h)) && Index(AllUses(h))[b.id].read
    ensures path in Index(AllUses(h))[b.id].paths
    ensures EditedAfter(Index(AllUses(h)), Failed(h), Index(AllUses(h))[b.id].pos, path)
  {
    hide IsReadTool, IsEditTool, Paths;
    var us := AllUses(h);
    var p: nat, q: nat :| SupersededBy(h, b, path, p, q);
    IndexFinds(us, p);
    IndexFinds(us, q);
    assert us[q].id in Index(us).Keys;
  }

  lemma ContentDiffersFromNote(b: ContentBlock, path: string)
    requires Markable(b)
    ensures b.content != StaleNote(path, Utf8Len(b.content))
  {
    assert "[" <= StaleNote(path, Utf8Len(b.content));
  }

  /** Stale marking replaces exactly the large, successful, unbracketed results of reads of a path that a
      later call edited without an error result, where of several calls with one id the last one counts. */
  lemma StaleMarkingIsExact(h: Transcript, i: nat, j: nat)
    requires i < |h| && j < |h[i].content|
    ensures var b, c := h[i].content[j], MarkStale(h)[i].content[j];
            && (c != b <==> Markable(b) && exists path :: Superseded(h, b, path))
            && (c != b ==> exists path :: Superseded(h, b, path) && c == b.(content := StaleNote(path, Utf8Len(b.content))))
  {
    var b := h[i].content[j];
    var calls, failed := Index(AllUses(h)), Failed(h);
    assert MarkStale(h)[i].content[j] == MarkBlock(calls, failed, b);
    if Markable(b) {
      if b.id in calls && calls[b.id].read {
        StalePathIsFirst(calls, failed, calls[b.id].paths, calls[b.id].pos);
        match StalePath(calls, failed, calls[b.id].paths, calls[b.id].pos)
        case Some(path) =>
          IndexMeansSuperseded(h, b, path);
          ContentDiffersFromNote(b, path);
        case None =>
          if path :| Superseded(h, b, path) {
            SupersededMeansIndex(h, b, path);
            assert false;
          }
      } else if path :| Superseded(h, b, path) {
        SupersededMeansIndex(h, b, path);
        assert false;
      }
    }
  }

  // ----- what is kept -----

  lemma {:induction false} SameBlocksSameUses(a: Blocks, b: Blocks)
    requires SameBlocks(a, b)
    ensures Uses(a) == Uses(b)
  {
    if a != [] {
      var n := |a| - 1;
      assert SameButText(a[n], b[n]);
      assert forall j | 0 <= j < n :: SameButText(a[..n][j], b[..n][j]);
      SameBlocksSameUses(a[..n], b[..n]);
    }
  }

  lemma SameBlocksSameFailed(a: Blocks, b: Blocks)
    requires SameBlocks(a, b)
    ensures FailedIn(a) <= FailedIn(b)
  {
    forall id | id in FailedIn(a)
      ensures id in FailedIn(b)
    {
      var j :| 0 <= j < |a| && a[j].ToolResult? && a[j].isError && a[j].id == id;
      assert SameButText(a[j], b[j]);
      assert b[j] in b;
    }
  }

  lemma {:induction false} SameShapeSameIndex(h: Transcript, g: Transcript)
    requires SameShape(h, g)
    ensures AllUses(h) == AllUses(g) && Failed(h) == Failed(g)
  {
    if h != [] {
      var n := |h| - 1;
      assert SameShape(h[..n], g[..n]);
      SameShapeSameIndex(h[..n], g[..n]);
      SameBlocksSameUses(h[n].content, g[n].content);
      SameBlocksSameFailed(h[n].content, g[n].content);
      SameBlocksSameFailed(g[n].content, h[n].content);
    }
  }

  /** Stale marking keeps roles, block order, ids and error flags. */
  lemma MarkStaleKeepsShape(h: Transcript)
    ensures SameShape(h, MarkStale(h))
  {
  }

  /** A history whose large successful results are all unmarked by the given index stays as it is. */
  lemma MarkStaleFixed(h: Transcript)
    requires forall i, j {:trigger h[i].content[j]} :: 0 <= i < |h| && 0 <= j < |h[i].content| ==>
               MarkBlock(Index(AllUses(h)), Failed(h), h[i].content[j]) == h[i].content[j]
    ensures MarkStale(h) == h
  {
    var calls, failed := Index(AllUses(h)), Failed(h);
    forall i | 0 <= i < |h|
      ensures h[i].(content := MarkBlocks(calls, failed, h[i].content)) == h[i]
    {
      assert MarkBlocks(calls, failed, h[i].content) == h[i].content;
    }
    assert MarkStale(h) == h;
  }

  lemma MarkBlockIdempotent(calls: map<string, Call>, failed: set<string>, b: ContentBlock)
    ensures MarkBlock(calls, failed, MarkBlock(calls, failed, b)) == MarkBlock(calls, failed, b)
  {
    var c := MarkBlock(calls, failed, b);
    if c != b {
      assert "[" <= c.content;
    }
  }

  lemma MarkStaleIdempotent(h: Transcript)
    ensures MarkStale(MarkStale(h)) == MarkStale(h)
  {
    var g := MarkStale(h);
    MarkStaleKeepsShape(h);
    SameShapeSameIndex(h, g);
    var calls, failed := Index(AllUses(h)), Failed(h);
    forall i, j {:trigger g[i].content[j]} | 0 <= i < |g| && 0 <= j < |g[i].content|
      ensures MarkBlock(calls, failed, g[i].content[j]) == g[i].content[j]
    {
      MarkBlockIdempotent(calls, failed, h[i].content[j]);
    }
    MarkStaleFixed(g);
  }
}

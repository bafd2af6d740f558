/** The history passes as the agent runs them: over one transcript, in place. */
module Passes {
  import opened Strings
  import opened Protocol
  import opened History
  import opened StaleReads
  import opened Dedup
  import opened Eviction
  import opened Estimator
  import Compaction

  method CountHistoryTokens(abc: Alphabet, j: JsonText, history: Transcript) returns (total: nat)
    ensures total == HistoryTokens(abc, j, history)
  {
    total := 0;
    for i := 0 to |history|
      invariant total + HistoryTokens(abc, j, history[i..]) == HistoryTokens(abc, j, history)
    {
      var tokens := EstimateTokens(abc, Proxy(j, history[i].content));
      assert history[i..][1..] == history[i + 1..];
      total := total + tokens;
    }
  }

  // ----- first pass of stale marking: the index -----

  lemma UsesStep(blocks: Blocks, l: nat)
    requires l < |blocks|
    ensures Uses(blocks[..l + 1]) == Uses(blocks[..l]) + (if blocks[l].ToolUse? then [blocks[l]] else [])
    ensures FailedIn(blocks[..l + 1]) ==
            FailedIn(blocks[..l]) + (if blocks[l].ToolResult? && blocks[l].isError then {blocks[l].id} else {})
  {
    assert blocks[..l + 1][..l] == blocks[..l];
    assert blocks[..l + 1] == blocks[..l] + [blocks[l]];
  }

  lemma IndexStep(us: Blocks, u: ContentBlock)
    requires u.ToolUse?
    ensures Index(us + [u]) ==
            if IsReadTool(u.name) || IsEditTool(u.name)
            then Index(us)[u.id := Call(|us|, IsReadTool(u.name), IsEditTool(u.name), Paths(u.input))]
            else Index(us)
  {
    hide Paths, IsReadTool, IsEditTool;
    assert (us + [u])[..|us|] == us;
  }

  method IndexMessage(blocks: Blocks, calls0: map<string, Call>, failed0: set<string>, pos0: nat, ghost before: Blocks)
    returns (calls: map<string, Call>, failed: set<string>, pos: nat)
    requires calls0 == Index(before) && pos0 == |before|
    ensures calls == Index(before + Uses(blocks)) && pos == |before + Uses(blocks)|
    ensures failed == failed0 + FailedIn(blocks)
  {
    calls, failed, pos := calls0, failed0, pos0;
    assert before + Uses(blocks[..0]) == before;
    for l := 0 to |blocks|
      invariant calls == Index(before + Uses(blocks[..l])) && pos == |before + Uses(blocks[..l])|
      invariant failed == failed0 + FailedIn(blocks[..l])
    {
      UsesStep(blocks, l);
      var b := blocks[l];
      match b
      case ToolUse(id, name, input) =>
        var read, edit := IsReadTool(name), IsEditTool(name);
        IndexStep(before + Uses(blocks[..l]), b);
        assert before + Uses(blocks[..l + 1]) == before + Uses(blocks[..l]) + [b];
        if read || edit {
          calls := calls[id := Call(pos, read, edit, Paths(input))];
        }
        pos := pos + 1;
      case ToolResult(id, _, isError, _) =>
        assert before + Uses(blocks[..l + 1]) == before + Uses(blocks[..l]);
        if isError {
          failed := failed + {id};
        }
      case _ =>
        assert before + Uses(blocks[..l + 1]) == before + Uses(blocks[..l]);
    }
    assert blocks[..|blocks|] == blocks;
  }

  method IndexHistory(history: Transcript) returns (calls: map<string, Call>, failed: set<string>)
    ensures calls == Index(AllUses(history)) && failed == Failed(history)
  {
    var pos := 0;
    calls, failed := map[], {};
    for i := 0 to |history|
      invariant calls == Index(AllUses(history[..i])) && pos == |AllUses(history[..i])|
      invariant failed == Failed(history[..i])
    {
      assert history[..i + 1][..i] == history[..i];
      calls, failed, pos := IndexMessage(history[i].content, calls, failed, pos, AllUses(history[..i]));
    }
    assert history[..|history|] == history;
  }

  /** `last` covers every path that the edit `c` names, and still says no more than `editor` can show. */
  ghost predicate Covers(last: map<string, nat>, c: Call) {
    forall path <- c.paths :: path in last && last[path] >= c.pos
  }

  ghost predicate Witnessed(calls: map<string, Call>, failed: set<string>, last: map<string, nat>, editor: map<string, string>) {
    forall path <- last.Keys ::
      path in editor && editor[path] in calls && EditsAt(calls[editor[path]], editor[path], failed, path, last[path])
  }

  predicate EditsAt(c: Call, id: string, failed: set<string>, path: string, pos: nat) {
    c.edit && id !in failed && path in c.paths && c.pos == pos
  }

  method NoteEdit(calls: map<string, Call>, failed: set<string>, id: string, last0: map<string, nat>, ghost editor0: map<string, string>)
    returns (last: map<string, nat>, ghost editor: map<string, string>)
    requires id in calls && calls[id].edit && id !in failed
    requires Witnessed(calls, failed, last0, editor0)
    ensures Witnessed(calls, failed, last, editor) && Covers(last, calls[id])
    ensures forall path <- last0.Keys :: path in last && last[path] >= last0[path]
  {
    last, editor := last0, editor0;
    var c := calls[id];
    for k := 0 to |c.paths|
      invariant Witnessed(calls, failed, last, editor)
      invariant forall path <- c.paths[..k] :: path in last && last[path] >= c.pos
      invariant forall path <- last0.Keys :: path in last && last[path] >= last0[path]
    {
      var p := c.paths[k];
      if p !in last || last[p] < c.pos {
        last := last[p := c.pos];
        editor := editor[p := id];
      }
    }
    assert c.paths[..|c.paths|] == c.paths;
  }

  /** The latest position at which each path was edited successfully, read off the index in any order. */
  method LastEdits(calls: map<string, Call>, failed: set<string>) returns (last: map<string, nat>)
    ensures forall path, pos :: (path in last && last[path] > pos) <==> EditedAfter(calls, failed, pos, path)
  {
    last := map[];
    var ids := calls.Keys;
    ghost var editor: map<string, string> := map[];
    while ids != {}
      invariant ids <= calls.Keys
      invariant forall id <- calls.Keys - ids :: calls[id].edit && id !in failed ==> Covers(last, calls[id])
      invariant Witnessed(calls, failed, last, editor)
    {
      var id :| id in ids;
      ids := ids - {id};
      if calls[id].edit && id !in failed {
        last, editor := NoteEdit(calls, failed, id, last, editor);
      }
    }
    forall path, pos
      ensures (path in last && last[path] > pos) <==> EditedAfter(calls, failed, pos, path)
    {
      if path in last && last[path] > pos {
        assert EditsAt(calls[editor[path]], editor[path], failed, path, last[path]);
      }
    }
  }

  /** The first path of a read that was edited later. */
  method FindStale(calls: map<string, Call>, failed: set<string>, last: map<string, nat>, c: Call)
    returns (stale: Option<string>)
    requires forall path, pos :: (path in last && last[path] > pos) <==> EditedAfter(calls, failed, pos, path)
    ensures stale == StalePath(calls, failed, c.paths, c.pos)
  {
    for k := 0 to |c.paths|
      invariant StalePath(calls, failed, c.paths[k..], c.pos) == StalePath(calls, failed, c.paths, c.pos)
    {
      assert c.paths[k..][1..] == c.paths[k + 1..];
      var p := c.paths[k];
      assert (p in last && last[p] > c.pos) <==> EditedAfter(calls, failed, c.pos, p);
      if p in last && last[p] > c.pos {
        return Some(p);
      }
    }
    return None;
  }

  // ----- the passes on the blocks of one message -----

  method MarkContent(blocks: Blocks, calls: map<string, Call>, failed: set<string>, last: map<string, nat>)
    returns (content: Blocks)
    requires forall path, pos :: (path in last && last[path] > pos) <==> EditedAfter(calls, failed, pos, path)
    ensures content == MarkBlocks(calls, failed, blocks)
  {
    hide Utf8Len, StaleNote, EditedAfter;
    content := blocks;
    for l := 0 to |content|
      invariant |content| == |blocks| && forall k | l <= k < |blocks| :: content[k] == blocks[k]
      invariant forall k | 0 <= k < l :: content[k] == MarkBlock(calls, failed, blocks[k])
    {
      var b := content[l];
      if b.ToolResult? && !(b.isError || Utf8Len(b.content) < DEDUP_MIN_BYTES || "[" <= b.content)
         && b.id in calls && calls[b.id].read {
        var stale := FindStale(calls, failed, last, calls[b.id]);
        if stale.Some? {
          content := content[l := b.(content := StaleNote(stale.value, Utf8Len(b.content)))];
        }
      }
    }
  }

  method DedupContent(blocks: Blocks, later: set<string>) returns (content: Blocks, seen: set<string>)
    ensures content == DedupBlocks(blocks, later) && seen == later + HeldIn(blocks)
  {
    hide Utf8Len, DuplicateNote;
    content, seen := blocks, later;
    for l := 0 to |content|
      invariant |content| == |blocks| && forall k | l <= k < |blocks| :: content[k] == blocks[k]
      invariant forall k | 0 <= k < l :: content[k] == DedupBlock(blocks, later, k)
      invariant seen == later + HeldIn(blocks[..l])
    {
      var b := content[l];
      assert blocks[..l + 1] == blocks[..l] + [b];
      if b.ToolResult? && !(Utf8Len(b.content) < DEDUP_MIN_BYTES || "[evicted" <= b.content || "[duplicate" <= b.content) {
        if b.content in seen {
          content := content[l := b.(content := DuplicateNote(Utf8Len(b.content)))];
        } else {
          seen := seen + {b.content};
        }
      }
    }
    assert blocks[..|blocks|] == blocks;
  }

  method EvictContent(blocks: Blocks) returns (content: Blocks, changed: bool)
    ensures content == EvictBlocks(blocks) && (changed <==> content != blocks)
  {
    content, changed := blocks, false;
    for l := 0 to |content|
      invariant |content| == |blocks| && forall k | l <= k < |blocks| :: content[k] == blocks[k]
      invariant forall k | 0 <= k < l :: content[k] == EvictBlock(blocks[k])
      invariant changed <==> content != blocks
    {
      var b := content[l];
      if b.ToolResult? && !("[evicted" <= b.content) {
        content := content[l := b.(content := EvictNote(Utf8Len(b.content)))];
        changed := true;
        assert "[evicted" <= content[l].content;
      }
    }
  }

  class HistoryBuffer {
    var messages: Transcript

    constructor (seed: Transcript)
      ensures messages == seed
    {
      messages := seed;
    }

    /** `mark_stale_reads` */
    method MarkStaleReads()
      modifies this
      ensures messages == MarkStale(old(messages))
    {
      var calls, failed := IndexHistory(messages);
      var last := LastEdits(calls, failed);
      if last == map[] {
        NothingEdited(messages, last);
        return;
      }
      ghost var h := messages;
      for i := 0 to |messages|
        invariant |messages| == |h| && messages[i..] == h[i..]
        invariant forall k | 0 <= k < i :: messages[k] == h[k].(content := MarkBlocks(calls, failed, h[k].content))
      {
        assert messages[i] == messages[i..][0];
        var content := MarkContent(messages[i].content, calls, failed, last);
        messages := messages[i := messages[i].(content := content)];
      }
    }

    /** `dedup_tool_results` */
    method DedupToolResults()
      modifies this
      ensures messages == DedupAll(old(messages))
    {
      var seen: set<string> := {};
      ghost var h := messages;
      var i := |messages|;
      while i > 0
        invariant 0 <= i <= |h| == |messages| && messages[..i] == h[..i]
        invariant seen == HeldFrom(h, i)
        invariant forall k | i <= k < |h| :: messages[k] == DedupMessage(h, k)
      {
        i := i - 1;
        assert messages[i] == messages[..i + 1][i];
        var content: Blocks;
        content, seen := DedupContent(messages[i].content, seen);
        messages := messages[i := messages[i].(content := content)];
      }
    }

    method EvictMessage(i: nat, ghost h: Transcript) returns (changed: bool)
      requires 1 <= i < |h| && messages == EvictPrefix(h, i)
      modifies this
      ensures messages == EvictPrefix(h, i + 1)
      ensures changed <==> EvictBlocks(h[i].content) != h[i].content
    {
      EvictStep(h, i);
      var content: Blocks;
      content, changed := EvictContent(messages[i].content);
      messages := messages[i := messages[i].(content := content)];
    }

    /** `evict_to_fit` */
    method Evict(estimate: Estimate, limit: nat)
      modifies this
      ensures messages == EvictToFit(estimate, old(messages), limit)
    {
      ghost var h := messages;
      if estimate(messages) <= limit || |messages| == 0 {
        return;
      }
      var protected := 2 * Compaction.KEEP_RECENT_TURNS;
      var end := if |messages| > protected then |messages| - protected else 0;
      EvictNothing(h, 1);
      var i := 1;
      while i < end
        invariant 1 <= i <= |h| && (i <= end || i == 1)
        invariant messages == EvictPrefix(h, i)
        invariant EvictStop(estimate, h, limit, i) == EvictStop(estimate, h, limit, 1)
      {
        var changed := EvictMessage(i, h);
        if changed && estimate(messages) <= limit {
          return;
        }
        i := i + 1;
      }
    }
  }

  lemma NothingEdited(h: Transcript, last: map<string, nat>)
    requires last == map[]
    requires forall path, pos :: (path in last && last[path] > pos) <==> EditedAfter(Index(AllUses(h)), Failed(h), pos, path)
    ensures MarkStale(h) == h
  {
    var calls, failed := Index(AllUses(h)), Failed(h);
    forall i, k {:trigger h[i].content[k]} | 0 <= i < |h| && 0 <= k < |h[i].content|
      ensures MarkBlock(calls, failed, h[i].content[k]) == h[i].content[k]
    {
      var b := h[i].content[k];
      if b.ToolResult? && b.id in calls {
        StalePathIsFirst(calls, failed, calls[b.id].paths, calls[b.id].pos);
      }
    }
    MarkStaleFixed(h);
  }
}

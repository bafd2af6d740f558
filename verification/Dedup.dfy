/** Deduplication: of byte-identical large tool results only the most recent copy is kept. */
module Dedup {
  import opened Strings
  import opened Protocol
  import opened History
  import StaleReads

  /** Large, and neither evicted nor a pointer to a duplicate already. */
  predicate Dedupable(b: ContentBlock) {
    b.ToolResult? && Utf8Len(b.content) >= StaleReads.DEDUP_MIN_BYTES
    && !("[evicted" <= b.content) && !("[duplicate" <= b.content)
  }

  function DuplicateNote(bytes: nat): string {
    "[duplicate of a more recent identical result, " + Decimal(bytes) + " bytes]"
  }

  /** The large contents that some blocks hold. */
  function HeldIn(blocks: Blocks): set<string> {
    set b | b in blocks && Dedupable(b) :: b.content
  }

  /** The large contents held from message `i` on. */
  function HeldFrom(h: Transcript, i: nat): set<string>
    requires i <= |h|
    decreases |h| - i
  {
    if i == |h| then {} else HeldIn(h[i].content) + HeldFrom(h, i + 1)
  }

  /** Block `j` repeats a content that a later message holds, or an earlier block of its own message:
      messages are walked newest first, but the blocks of a message front to back. */
  predicate Repeats(blocks: Blocks, later: set<string>, j: nat)
    requires j < |blocks|
  {
    Dedupable(blocks[j]) && (blocks[j].content in later || blocks[j].content in HeldIn(blocks[..j]))
  }

  function DedupBlock(blocks: Blocks, later: set<string>, j: nat): ContentBlock
    requires j < |blocks|
  {
    if Repeats(blocks, later, j) then blocks[j].(content := DuplicateNote(Utf8Len(blocks[j].content))) else blocks[j]
  }

  function DedupBlocks(blocks: Blocks, later: set<string>): Blocks {
    seq(|blocks|, j requires 0 <= j < |blocks| => DedupBlock(blocks, later, j))
  }

  function DedupMessage(h: Transcript, i: nat): Message
    requires i < |h|
  {
    h[i].(content := DedupBlocks(h[i].content, HeldFrom(h, i + 1)))
  }

  predicate IsRepeat(h: Transcript, i: nat, j: nat)
    requires i < |h| && j < |h[i].content|
  {
    Repeats(h[i].content, HeldFrom(h, i + 1), j)
  }

  /** The transcript that deduplication leaves. */
  function DedupAll(h: Transcript): Transcript {
    seq(|h|, i requires 0 <= i < |h| => DedupMessage(h, i))
  }

  lemma {:induction false} HeldFromMeans(h: Transcript, i: nat, c: string)
    requires i <= |h|
    ensures c in HeldFrom(h, i) <==> exists k :: i <= k < |h| && c in HeldIn(h[k].content)
    decreases |h| - i
  {
    if i < |h| {
      HeldFromMeans(h, i + 1, c);
    }
  }

  // ----- exactly one copy survives -----

  /** Block `j` of message `i` is the copy to keep: the first one in the last message that holds it. */
  ghost predicate IsNewestCopy(h: Transcript, i: nat, j: nat)
    requires i < |h| && j < |h[i].content|
  {
    && Dedupable(h[i].content[j])
    && (forall k :: i < k < |h| ==> h[i].content[j].content !in HeldIn(h[k].content))
    && (forall l :: 0 <= l < j ==> Dedupable(h[i].content[l]) ==> h[i].content[l].content != h[i].content[j].content)
  }

  lemma NewestCopyIsNoRepeat(h: Transcript, i: nat, j: nat)
    requires i < |h| && j < |h[i].content| && Dedupable(h[i].content[j])
    ensures IsNewestCopy(h, i, j) <==> !IsRepeat(h, i, j)
  {
    var b := h[i].content[j];
    HeldFromMeans(h, i + 1, b.content);
    if b.content in HeldIn(h[i].content[..j]) {
      var c :| c in h[i].content[..j] && Dedupable(c) && c.content == b.content;
      var l :| 0 <= l < j && h[i].content[l] == c;
    }
    forall l | 0 <= l < j && Dedupable(h[i].content[l]) && h[i].content[l].content == b.content
      ensures b.content in HeldIn(h[i].content[..j])
    {
      assert h[i].content[l] in h[i].content[..j];
    }
  }

  /** A large content is kept at its newest copy and nowhere else: no other tool result holds it
      afterwards. What is not large is never touched. */
  lemma KeptExactlyOnce(h: Transcript, i: nat, j: nat, k: nat, l: nat)
    requires i < |h| && j < |h[i].content| && k < |h| && l < |h[k].content|
    ensures !Dedupable(h[i].content[j]) ==> DedupAll(h)[i].content[j] == h[i].content[j]
    ensures IsNewestCopy(h, i, j) ==> DedupAll(h)[i].content[j] == h[i].content[j]
    ensures IsNewestCopy(h, i, j) && (k, l) != (i, j) && h[k].content[l].ToolResult? ==>
              DedupAll(h)[k].content[l].content != h[i].content[j].content
    ensures Dedupable(h[i].content[j]) && !IsNewestCopy(h, i, j) ==>
              DedupAll(h)[i].content[j] == h[i].content[j].(content := DuplicateNote(Utf8Len(h[i].content[j].content)))
  {
    hide HeldFrom, HeldIn, IsNewestCopy, DuplicateNote, Utf8Len, DedupAll;
    BlockAfter(h, i, j);
    if Dedupable(h[i].content[j]) {
      NewestCopyIsNoRepeat(h, i, j);
    }
    if IsNewestCopy(h, i, j) && (k, l) != (i, j) && h[k].content[l].ToolResult? {
      NewestIsDedupable(h, i, j);
      NoOtherCopy(h, i, j, k, l);
    }
  }

  lemma BlockAfter(h: Transcript, i: nat, j: nat)
    requires i < |h| && j < |h[i].content|
    ensures |DedupAll(h)| == |h| && |DedupAll(h)[i].content| == |h[i].content|
    ensures DedupAll(h)[i].content[j] == DedupBlock(h[i].content, HeldFrom(h, i + 1), j)
  {
  }

  lemma NewestIsDedupable(h: Transcript, i: nat, j: nat)
    requires i < |h| && j < |h[i].content| && IsNewestCopy(h, i, j)
    ensures Dedupable(h[i].content[j])
  {
  }

  lemma NoteIsNotDedupable(bytes: nat)
    ensures "[duplicate" <= DuplicateNote(bytes)
  {
  }

  lemma NoOtherCopy(h: Transcript, i: nat, j: nat, k: nat, l: nat)
    requires i < |h| && j < |h[i].content| && k < |h| && l < |h[k].content| && (k, l) != (i, j)
    requires IsNewestCopy(h, i, j) && Dedupable(h[i].content[j]) && h[k].content[l].ToolResult?
    ensures DedupBlock(h[k].content, HeldFrom(h, k + 1), l).content != h[i].content[j].content
    ensures |DedupAll(h)| == |h| && |DedupAll(h)[k].content| == |h[k].content|
    ensures DedupAll(h)[k].content[l] == DedupBlock(h[k].content, HeldFrom(h, k + 1), l)
  {
    hide HeldFrom, HeldIn, IsNewestCopy, DuplicateNote, Utf8Len, DedupAll;
    BlockAfter(h, k, l);
    NoteIsNotDedupable(Utf8Len(h[k].content[l].content));
    if h[k].content[l].content == h[i].content[j].content && !IsRepeat(h, k, l) {
      NewestCopyIsNoRepeat(h, k, l);
      NewestCopiesAgree(h, i, j, k, l);
    }
  }

  lemma NewestCopiesAgree(h: Transcript, i: nat, j: nat, k: nat, l: nat)
    requires i < |h| && j < |h[i].content| && k < |h| && l < |h[k].content|
    requires IsNewestCopy(h, i, j) && IsNewestCopy(h, k, l)
    requires h[i].content[j].content == h[k].content[l].content
    ensures i == k && j == l
  {
    assert h[i].content[j] in h[i].content && h[k].content[l] in h[k].content;
    assert h[i].content[j].content in HeldIn(h[i].content) && h[k].content[l].content in HeldIn(h[k].content);
  }

  /** Every large content that a transcript holds has a newest copy. */
  lemma {:induction false} NewestCopyExists(h: Transcript, from: nat, c: string) returns (i: nat, j: nat)
    requires from <= |h| && c in HeldFrom(h, from)
    ensures i < |h| && j < |h[i].content| && h[i].content[j].ToolResult? && h[i].content[j].content == c
    ensures IsNewestCopy(h, i, j)
    decreases |h| - from
  {
    if c in HeldFrom(h, from + 1) {
      i, j := NewestCopyExists(h, from + 1, c);
    } else {
      i := from;
      j := FirstHolder(h[i].content, c);
      forall k | i < k < |h|
        ensures c !in HeldIn(h[k].content)
      {
        HeldFromMeans(h, i + 1, c);
      }
    }
  }

  lemma {:induction false} FirstHolder(blocks: Blocks, c: string) returns (j: nat)
    requires c in HeldIn(blocks)
    ensures j < |blocks| && Dedupable(blocks[j]) && blocks[j].content == c
    ensures forall l :: 0 <= l < j ==> Dedupable(blocks[l]) ==> blocks[l].content != c
  {
    if Dedupable(blocks[0]) && blocks[0].content == c {
      j := 0;
    } else {
      var b :| b in blocks && Dedupable(b) && b.content == c;
      assert b in blocks[1..];
      j := FirstHolder(blocks[1..], c);
      j := j + 1;
    }
  }

  // ----- when the copy that stays is the most recent one -----

  predicate Holds(b: ContentBlock, c: string) {
    Dedupable(b) && b.content == c
  }

  /** No copy stands behind it, in its own message or a later one. */
  ghost predicate IsMostRecentCopy(h: Transcript, i: nat, j: nat)
    requires i < |h| && j < |h[i].content| && h[i].content[j].ToolResult?
  {
    forall k, l :: 0 <= k < |h| && 0 <= l < |h[k].content| && (i < k || (i == k && j < l)) ==>
      !Holds(h[k].content[l], h[i].content[j].content)
  }

  /** The copy that stays is the most recent one exactly if its message holds the content once. */
  lemma MostRecentExactly(h: Transcript, i: nat, j: nat)
    requires i < |h| && j < |h[i].content| && IsNewestCopy(h, i, j)
    ensures IsMostRecentCopy(h, i, j) <==>
            forall l :: 0 <= l < |h[i].content| && l != j ==> !Holds(h[i].content[l], h[i].content[j].content)
  {
    var c := h[i].content[j].content;
    forall k, l | i < k < |h| && 0 <= l < |h[k].content|
      ensures !Holds(h[k].content[l], c)
    {
      assert h[k].content[l] in h[k].content;
    }
  }

  /** Two results of one message with the same large content: the first stays, and the second becomes a
      pointer to "a more recent" one. */
  lemma FirstOfTwoStays(a: ContentBlock, b: ContentBlock)
    requires a.ToolResult? && b.ToolResult? && Dedupable(a) && Dedupable(b) && a.content == b.content
    ensures var h := [Message(User, [a, b])];
            && DedupAll(h) == [Message(User, [a, b.(content := DuplicateNote(Utf8Len(b.content)))])]
            && IsNewestCopy(h, 0, 0) && !IsMostRecentCopy(h, 0, 0) && IsMostRecentCopy(h, 0, 1)
  {
    hide Dedupable, DuplicateNote;
    var blocks := [a, b];
    var h := [Message(User, blocks)];
    assert HeldFrom(h, 1) == {} && blocks[..0] == [] && blocks[..1] == [a];
    assert HeldIn([]) == {} && a.content in HeldIn([a]);
    assert DedupBlocks(blocks, {}) == [a, b.(content := DuplicateNote(Utf8Len(b.content)))];
    assert Holds(h[0].content[1], h[0].content[0].content);
  }

  function Xs(n: nat): (s: string)
    ensures Utf8Len(s) == n
  {
    if n == 0 then "" else "x" + Xs(n - 1)
  }

  /** Two calls of one round with the same answer of 200 bytes are enough. */
  lemma OlderCopyStays()
    ensures var c := Xs(200);
            var h := [Message(User, [ToolResult("a", c, false, []), ToolResult("b", c, false, [])])];
            && DedupAll(h)[0].content == [ToolResult("a", c, false, []), ToolResult("b", DuplicateNote(200), false, [])]
            && !IsMostRecentCopy(h, 0, 0) && IsMostRecentCopy(h, 0, 1)
  {
    hide DuplicateNote;
    var c := Xs(200);
    assert c[0] == 'x' by { assert Xs(200) == "x" + Xs(199); }
    FirstOfTwoStays(ToolResult("a", c, false, []), ToolResult("b", c, false, []));
  }

  // ----- what is kept, and idempotence -----

  lemma DedupKeepsShape(h: Transcript)
    ensures SameShape(h, DedupAll(h))
  {
  }

  /** What is still large after deduplication was there before, at the same place. */
  lemma SurvivorsUnchanged(h: Transcript, i: nat, j: nat)
    requires i < |h| && j < |h[i].content|
    ensures DedupAll(h)[i].content[j] == h[i].content[j] ||
            (DedupAll(h)[i].content[j].ToolResult? && "[" <= DedupAll(h)[i].content[j].content)
    ensures Dedupable(DedupAll(h)[i].content[j]) ==>
              DedupAll(h)[i].content[j] == h[i].content[j] && !IsRepeat(h, i, j)
  {
    assert DedupAll(h)[i].content[j] == DedupBlock(h[i].content, HeldFrom(h, i + 1), j);
    var b := h[i].content[j];
    if IsRepeat(h, i, j) {
      assert "[duplicate" <= DuplicateNote(Utf8Len(b.content));
      assert DuplicateNote(Utf8Len(b.content))[0] == '[';
    }
  }

  lemma HeldInShrinks(h: Transcript, i: nat, j: nat)
    requires i < |h| && j <= |h[i].content|
    ensures HeldIn(DedupAll(h)[i].content[..j]) <= HeldIn(h[i].content[..j])
  {
    var g := DedupAll(h);
    forall c | c in HeldIn(g[i].content[..j])
      ensures c in HeldIn(h[i].content[..j])
    {
      var l :| 0 <= l < j && Dedupable(g[i].content[l]) && g[i].content[l].content == c;
      SurvivorsUnchanged(h, i, l);
      assert h[i].content[l] in h[i].content[..j];
    }
  }

  lemma {:induction false} HeldFromShrinks(h: Transcript, i: nat)
    requires i <= |h|
    ensures HeldFrom(DedupAll(h), i) <= HeldFrom(h, i)
    decreases |h| - i
  {
    if i < |h| {
      HeldInShrinks(h, i, |h[i].content|);
      assert DedupAll(h)[i].content[..|h[i].content|] == DedupAll(h)[i].content;
      assert h[i].content[..|h[i].content|] == h[i].content;
      HeldFromShrinks(h, i + 1);
    }
  }

  lemma DedupIdempotent(h: Transcript)
    ensures DedupAll(DedupAll(h)) == DedupAll(h)
  {
    var g := DedupAll(h);
    forall i | 0 <= i < |g|
      ensures DedupMessage(g, i) == g[i]
    {
      HeldFromShrinks(h, i + 1);
      forall j | 0 <= j < |g[i].content|
        ensures DedupBlock(g[i].content, HeldFrom(g, i + 1), j) == g[i].content[j]
      {
        SurvivorsUnchanged(h, i, j);
        HeldInShrinks(h, i, j);
      }
      assert DedupMessage(g, i).content == g[i].content;
    }
  }

  /** Marking leaves alone what both passes have left. */
  lemma StaysMarked(h: Transcript, i: nat, j: nat)
    requires i < |h| && j < |h[i].content|
    ensures var g := DedupAll(StaleReads.MarkStale(h));
            && |g| == |h| && |g[i].content| == |h[i].content|
            && StaleReads.MarkBlock(StaleReads.Index(StaleReads.AllUses(h)), StaleReads.Failed(h), g[i].content[j]) == g[i].content[j]
  {
    hide StaleReads.Index, StaleReads.Failed, StaleReads.AllUses, IsRepeat, Dedupable, DedupAll;
    var m := StaleReads.MarkStale(h);
    var calls, failed := StaleReads.Index(StaleReads.AllUses(h)), StaleReads.Failed(h);
    DedupKeepsShape(m);
    SurvivorsUnchanged(m, i, j);
    StaleReads.MarkBlockIdempotent(calls, failed, h[i].content[j]);
    assert m[i].content[j] == StaleReads.MarkBlock(calls, failed, h[i].content[j]);
  }

  /** Running both passes again changes nothing. */
  lemma PassesIdempotent(h: Transcript)
    ensures var g := DedupAll(StaleReads.MarkStale(h));
            StaleReads.MarkStale(g) == g && DedupAll(StaleReads.MarkStale(g)) == g
  {
    hide DedupAll, StaleReads.MarkStale, StaleReads.Index, StaleReads.Failed, StaleReads.AllUses, StaleReads.MarkBlock;
    var m := StaleReads.MarkStale(h);
    var g := DedupAll(m);
    StaleReads.MarkStaleKeepsShape(h);
    DedupKeepsShape(m);
    StaleReads.SameShapeSameIndex(h, m);
    StaleReads.SameShapeSameIndex(m, g);
    forall i, j {:trigger g[i].content[j]} | 0 <= i < |g| && 0 <= j < |g[i].content|
      ensures StaleReads.MarkBlock(StaleReads.Index(StaleReads.AllUses(g)), StaleReads.Failed(g), g[i].content[j]) == g[i].content[j]
    {
      StaysMarked(h, i, j);
    }
    StaleReads.MarkStaleFixed(g);
    DedupIdempotent(m);
  }
}

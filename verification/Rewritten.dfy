/** Which tool results deduplication and eviction rewrite, and the text that takes their place. */
module Rewritten {
  import opened Strings
  import opened Protocol
  import opened History
  import Dedup
  import Eviction

  // ----- deduplication -----

  predicate IsLarge(b: ContentBlock) {
    b.ToolResult? && Utf8Len(b.content) >= 200 && !("[evicted" <= b.content) && !("[duplicate" <= b.content)
  }

  /** The same large content stands in a later message, or earlier in the same one. */
  predicate StandsElsewhere(h: Transcript, i: nat, j: nat)
    requires i < |h| && j < |h[i].content| && h[i].content[j].ToolResult?
  {
    exists k, l | 0 <= k < |h| && 0 <= l < |h[k].content| ::
      IsLarge(h[k].content[l]) && h[k].content[l].content == h[i].content[j].content && (i < k || (i == k && l < j))
  }

  function Pointer(b: ContentBlock): ContentBlock
    requires b.ToolResult?
  {
    b.(content := "[duplicate of a more recent identical result, " + Decimal(Utf8Len(b.content)) + " bytes]")
  }

  lemma ElsewhereIsOlder(h: Transcript, i: nat, j: nat)
    requires i < |h| && j < |h[i].content| && Dedup.Dedupable(h[i].content[j])
    ensures StandsElsewhere(h, i, j) <==> !Dedup.IsNewestCopy(h, i, j)
  {
    hide Utf8Len;
    var c := h[i].content[j].content;
    if StandsElsewhere(h, i, j) {
      var k, l :| 0 <= k < |h| && 0 <= l < |h[k].content| && IsLarge(h[k].content[l]) && h[k].content[l].content == c
                  && (i < k || (i == k && l < j));
      assert Dedup.Dedupable(h[k].content[l]);
      if i < k {
        assert h[k].content[l] in h[k].content;
        assert c in Dedup.HeldIn(h[k].content);
      }
    }
    forall k | i < k < |h| && c in Dedup.HeldIn(h[k].content)
      ensures StandsElsewhere(h, i, j)
    {
      var l :| 0 <= l < |h[k].content| && Dedup.Dedupable(h[k].content[l]) && h[k].content[l].content == c;
      assert IsLarge(h[k].content[l]);
    }
    forall l | 0 <= l < j && Dedup.Dedupable(h[i].content[l]) && h[i].content[l].content == c
      ensures StandsElsewhere(h, i, j)
    {
      assert IsLarge(h[i].content[l]);
    }
  }

  /** Deduplication rewrites exactly the large results whose content stands elsewhere, to a pointer. */
  lemma PointsExactly(h: Transcript, i: nat, j: nat)
    requires i < |h| && j < |h[i].content|
    ensures var b := h[i].content[j];
            Dedup.DedupAll(h)[i].content[j] == if IsLarge(b) && StandsElsewhere(h, i, j) then Pointer(b) else b
  {
    hide Utf8Len, Dedup.DedupAll, StandsElsewhere, Dedup.IsNewestCopy, Decimal;
    Dedup.KeptExactlyOnce(h, i, j, i, j);
    if IsLarge(h[i].content[j]) {
      ElsewhereIsOlder(h, i, j);
    }
  }

  // ----- eviction -----

  /** A tool result gives way to its size, unless it has before. */
  function Sized(b: ContentBlock): ContentBlock {
    if b.ToolResult? && !("[evicted" <= b.content)
    then b.(content := "[evicted: " + Decimal(Utf8Len(b.content)) + " bytes of older tool output]") else b
  }

  function AllSized(blocks: Blocks): Blocks {
    seq(|blocks|, j requires 0 <= j < |blocks| => Sized(blocks[j]))
  }

  /** The transcript without the results between the task and message `k`. */
  function Without(h: Transcript, k: nat): Transcript {
    seq(|h|, i requires 0 <= i < |h| => if 0 < i < k then Message(h[i].role, AllSized(h[i].content)) else h[i])
  }

  lemma WithoutIsEvicted(h: Transcript, k: nat)
    ensures Eviction.EvictPrefix(h, k) == Without(h, k)
  {
    hide Utf8Len, Decimal;
    forall i | 0 < i < k && i < |h|
      ensures Eviction.EvictBlocks(h[i].content) == AllSized(h[i].content)
    {
    }
  }

  /** Eviction takes the results of as few messages behind the task as it needs to fit the limit, and never
      those of the last four. */
  lemma EvictsExactly(estimate: Eviction.Estimate, h: Transcript, limit: nat) returns (k: nat)
    ensures Eviction.EvictToFit(estimate, h, limit) == Without(h, k)
    ensures estimate(Without(h, k)) <= limit || k + 4 >= |h|
    ensures forall m: nat :: m < k ==> estimate(Without(h, m)) > limit
    ensures forall i | 0 <= i < |h| && (i == 0 || i + 4 >= |h|) :: Without(h, k)[i] == h[i]
  {
    hide Without;
    k := Eviction.EvictsShortestPrefix(estimate, h, limit);
    WithoutIsEvicted(h, k);
    forall m: nat | m < k
      ensures estimate(Without(h, m)) > limit
    {
      WithoutIsEvicted(h, m);
    }
  }
}

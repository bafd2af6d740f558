/** Eviction: the oldest tool results give way until the transcript's estimate fits a limit. */
module Eviction {
  import opened Strings
  import opened Protocol
  import opened History
  import opened Estimator
  import Compaction

  function EvictNote(bytes: nat): string {
    "[evicted: " + Decimal(bytes) + " bytes of older tool output]"
  }

  predicate Evictable(b: ContentBlock) {
    b.ToolResult? && !("[evicted" <= b.content)
  }

  function EvictBlock(b: ContentBlock): ContentBlock {
    if Evictable(b) then b.(content := EvictNote(Utf8Len(b.content))) else b
  }

  function EvictBlocks(blocks: Blocks): Blocks {
    seq(|blocks|, j requires 0 <= j < |blocks| => EvictBlock(blocks[j]))
  }

  /** The transcript with the tool results of messages 1 to k-1 evicted. */
  function EvictPrefix(h: Transcript, k: nat): Transcript {
    seq(|h|, i requires 0 <= i < |h| =>
      if 1 <= i < k then h[i].(content := EvictBlocks(h[i].content)) else h[i])
  }

  /** One past the last message that may be evicted from. */
  function EvictableEnd(h: Transcript): nat {
    if |h| > 2 * Compaction.KEEP_RECENT_TURNS then |h| - 2 * Compaction.KEEP_RECENT_TURNS else 0
  }

  /** How an eviction estimates the size of a transcript. */
  type Estimate = Transcript -> nat

  /** How far eviction goes from message `i` on. */
  function EvictStop(estimate: Estimate, h: Transcript, limit: nat, i: nat): (k: nat)
    requires i <= |h|
    decreases |h| - i
  {
    if i >= EvictableEnd(h) then i
    else if EvictBlocks(h[i].content) != h[i].content && estimate(EvictPrefix(h, i + 1)) <= limit then i + 1
    else EvictStop(estimate, h, limit, i + 1)
  }

  /** The transcript that eviction leaves. */
  function EvictToFit(estimate: Estimate, h: Transcript, limit: nat): Transcript {
    if estimate(h) <= limit || |h| == 0 then h
    else EvictPrefix(h, EvictStop(estimate, h, limit, 1))
  }

  // ----- exactness -----

  lemma EvictNothing(h: Transcript, k: nat)
    requires k <= 1
    ensures EvictPrefix(h, k) == h
  {
  }

  /** A message with nothing left to evict changes nothing. */
  lemma EvictSame(h: Transcript, i: nat)
    requires 1 <= i < |h| && EvictBlocks(h[i].content) == h[i].content
    ensures EvictPrefix(h, i + 1) == EvictPrefix(h, i)
  {
  }

  lemma EvictStep(h: Transcript, i: nat)
    requires 1 <= i < |h|
    ensures EvictPrefix(h, i)[i] == h[i]
    ensures EvictPrefix(h, i + 1) == EvictPrefix(h, i)[i := h[i].(content := EvictBlocks(h[i].content))]
  {
  }

  lemma {:induction false} EvictStopIsFirst(estimate: Estimate, h: Transcript, limit: nat, i: nat)
    requires 1 <= i <= |h|
    requires estimate(EvictPrefix(h, i)) > limit
    ensures i <= EvictStop(estimate, h, limit, i)
    ensures estimate(EvictPrefix(h, EvictStop(estimate, h, limit, i))) <= limit
            || EvictStop(estimate, h, limit, i) >= EvictableEnd(h)
    ensures EvictStop(estimate, h, limit, i) == i || EvictStop(estimate, h, limit, i) <= EvictableEnd(h)
    ensures forall m :: i <= m < EvictStop(estimate, h, limit, i) ==> estimate(EvictPrefix(h, m)) > limit
    decreases |h| - i
  {
    if i < EvictableEnd(h) {
      if EvictBlocks(h[i].content) == h[i].content {
        EvictSame(h, i);
        EvictStopIsFirst(estimate, h, limit, i + 1);
      } else if estimate(EvictPrefix(h, i + 1)) > limit {
        EvictStopIsFirst(estimate, h, limit, i + 1);
      }
    }
  }

  /** Eviction rewrites the shortest prefix of messages (after the task) that brings the estimate
      within the limit, or all of them up to the last four when none does. The task message and the
      last four messages are never touched. */
  lemma EvictsShortestPrefix(estimate: Estimate, h: Transcript, limit: nat) returns (k: nat)
    ensures EvictToFit(estimate, h, limit) == EvictPrefix(h, k)
    ensures estimate(EvictPrefix(h, k)) <= limit || k >= EvictableEnd(h)
    ensures forall m :: 0 <= m < k ==> estimate(EvictPrefix(h, m)) > limit
    ensures forall i :: 0 <= i < |h| && (i == 0 || i >= |h| - 4) ==> EvictToFit(estimate, h, limit)[i] == h[i]
  {
    EvictNothing(h, 0);
    EvictNothing(h, 1);
    if estimate(h) <= limit || |h| == 0 {
      k := 0;
    } else {
      EvictStopIsFirst(estimate, h, limit, 1);
      k := EvictStop(estimate, h, limit, 1);
    }
  }

  /** Whatever eviction rewrote cannot be evicted again. */
  lemma EvictedForGood(h: Transcript, k: nat, i: nat, l: nat)
    requires 1 <= i < |h| && i < k && l < |h[i].content|
    ensures !Evictable(EvictPrefix(h, k)[i].content[l])
  {
    assert EvictPrefix(h, k)[i].content[l] == EvictBlock(h[i].content[l]);
    if Evictable(h[i].content[l]) {
      assert "[evicted" <= EvictNote(Utf8Len(h[i].content[l].content));
    }
  }

  lemma EvictKeepsShape(estimate: Estimate, h: Transcript, limit: nat)
    ensures SameShape(h, EvictToFit(estimate, h, limit))
  {
    var k := EvictsShortestPrefix(estimate, h, limit);
  }

  // ----- what eviction costs -----

  /** A run of word characters between separators is one token. */
  lemma {:induction false} WordTokens(abc: Alphabet, s: string, inWord: bool)
    requires forall i | 0 <= i < |s| :: IsWordChar(abc, s[i])
    ensures TokensFrom(abc, s, inWord) == if s == "" || inWord then 0 else 1
  {
    if s != "" {
      WordTokens(abc, s[1..], true);
    }
  }

  lemma NumeralTokens(abc: Alphabet, n: nat)
    ensures Tokens(abc, Decimal(n)) == 1
  {
    DecimalReadsBack(n);
    forall i | 0 <= i < |Decimal(n)|
      ensures IsWordChar(abc, Decimal(n)[i])
    {
      assert IsAsciiAlphanumeric(Decimal(n)[i]);
    }
    WordTokens(abc, Decimal(n), false);
  }

  lemma WordThenSpace(abc: Alphabet, word: string, rest: string)
    requires IsWord(word)
    ensures Tokens(abc, word + " " + rest) == 1 + Tokens(abc, rest)
  {
    WordTokens(abc, word, false);
    TokensAddUp(abc, word, ' ', rest);
  }

  predicate IsWord(s: string) {
    s != "" && forall i | 0 <= i < |s| :: IsAsciiAlphanumeric(s[i])
  }

  lemma LastWordTokens(abc: Alphabet, word: string)
    requires IsWord(word)
    ensures Tokens(abc, word + "]") == 2
  {
    WordTokens(abc, word, false);
    TokensFromAppend(abc, word, "]", false);
    assert IsWordChar(abc, word[|word| - 1]) && !IsWordChar(abc, ']');
    assert TokensFrom(abc, "]", true) == CharTokens(abc, ']', true) + TokensFrom(abc, "]"[1..], false);
  }

  lemma FiveWords(abc: Alphabet, a: string, b: string, c: string, d: string, e: string)
    requires IsWord(a) && IsWord(b) && IsWord(c) && IsWord(d) && IsWord(e)
    ensures Tokens(abc, a + " " + (b + " " + (c + " " + (d + " " + (e + "]"))))) == 6
  {
    LastWordTokens(abc, e);
    WordThenSpace(abc, d, e + "]");
    WordThenSpace(abc, c, d + " " + (e + "]"));
    WordThenSpace(abc, b, c + " " + (d + " " + (e + "]")));
    WordThenSpace(abc, a, b + " " + (c + " " + (d + " " + (e + "]"))));
  }

  /** A word in front of a punctuation mark, and behind one. */
  lemma FramedWordTokens(abc: Alphabet, open: char, word: string, close: char)
    requires IsWord(word)
    requires !IsWordChar(abc, open) && !IsWhitespace(open) && !IsWordChar(abc, close) && !IsWhitespace(close)
    ensures Tokens(abc, [open] + (word + [close])) == 3
  {
    WordTokens(abc, word, false);
    TokensFromAppend(abc, word, [close], false);
    TokensFromAppend(abc, [open], word + [close], false);
    assert TokensFrom(abc, [close], true) == CharTokens(abc, close, true) + TokensFrom(abc, [close][1..], false);
    assert TokensFrom(abc, [open], false) == CharTokens(abc, open, false) + TokensFrom(abc, [open][1..], false);
  }

  lemma HeadTokens(abc: Alphabet)
    ensures Tokens(abc, "[evicted:") == 3
  {
    hide TokensFrom;
    assert !abc('[') && !abc(':');
    FramedWordTokens(abc, '[', "evicted", ':');
    assert ['['] + ("evicted" + [':']) == "[evicted:";
  }

  /** Every eviction note costs ten tokens, whatever it replaces. */
  lemma EvictNoteTokens(abc: Alphabet, n: nat)
    ensures Tokens(abc, EvictNote(n)) == 10
  {
    var tail := NoteTail();
    FiveWords(abc, "bytes", "of", "older", "tool", "output");
    NoteTokens(abc, Decimal(n), tail) by { NumeralTokens(abc, n); }
    NoteParts(n, tail);
  }

  function NoteTail(): string {
    "bytes" + " " + ("of" + " " + ("older" + " " + ("tool" + " " + ("output" + "]"))))
  }

  lemma NoteParts(n: nat, tail: string)
    requires tail == NoteTail()
    ensures EvictNote(n) == "[evicted:" + " " + (Decimal(n) + " " + tail)
  {
    assert " " + tail == " bytes of older tool output]";
    assert "[evicted:" + " " == "[evicted: ";
  }

  lemma NoteTokens(abc: Alphabet, numeral: string, tail: string)
    requires Tokens(abc, numeral) == 1 && Tokens(abc, tail) == 6
    ensures Tokens(abc, "[evicted:" + " " + (numeral + " " + tail)) == 10
  {
    HeadTokens(abc);
    TokensAddUp(abc, numeral, ' ', tail);
    TokensAddUp(abc, "[evicted:", ' ', numeral + " " + tail);
  }

  /** The estimate of some blocks once their tool results are evicted, counted block by block. */
  function EvictedTokens(abc: Alphabet, j: JsonText, blocks: Blocks): nat {
    if blocks == [] then 0
    else
      (if Evictable(blocks[0]) then 10 else Tokens(abc, BlockText(j, blocks[0])))
      + EvictedTokens(abc, j, blocks[1..])
  }

  /** After eviction a message costs ten tokens for each result that was evicted and what it did for
      every other block: evicting a result of fewer than ten tokens raises the estimate. */
  lemma {:induction false} EvictionCost(abc: Alphabet, j: JsonText, blocks: Blocks)
    ensures Tokens(abc, Proxy(j, EvictBlocks(blocks))) == EvictedTokens(abc, j, blocks)
  {
    hide Tokens, Proxy, EvictNote;
    ProxyAddsUp(abc, j, EvictBlocks(blocks));
    if blocks != [] {
      EvictionCost(abc, j, blocks[1..]);
      ProxyAddsUp(abc, j, EvictBlocks(blocks[1..]));
      assert EvictBlocks(blocks)[1..] == EvictBlocks(blocks[1..]);
      if Evictable(blocks[0]) {
        EvictNoteTokens(abc, Utf8Len(blocks[0].content));
      }
    }
  }

  lemma TinyEvictionRaises(abc: Alphabet, j: JsonText, b: ContentBlock)
    requires Evictable(b)
    ensures Tokens(abc, Proxy(j, EvictBlocks([b]))) > Tokens(abc, Proxy(j, [b])) <==> Tokens(abc, b.content) < 10
  {
    EvictionCost(abc, j, [b]);
    ProxyAddsUp(abc, j, [b]);
  }
}

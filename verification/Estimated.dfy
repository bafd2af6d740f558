/** What an estimate counts: the tokens of a text, and the price of a transcript block by block. */
module Estimated {
  import opened Strings
  import opened Protocol
  import opened Estimator
  import Eviction

  /** A token starts at every punctuation character and at the first character of every word. */
  predicate StartsToken(abc: Alphabet, s: string, i: nat) {
    i < |s| && if abc(s[i]) || s[i] == '_' then i == 0 || !(abc(s[i - 1]) || s[i - 1] == '_') else !IsWhitespace(s[i])
  }

  /** An estimate is the number of places at which a token starts. */
  lemma {:induction false} CountsTokenStarts(abc: Alphabet, s: string)
    ensures Tokens(abc, s) == |set i: nat | i < |s| && StartsToken(abc, s, i)|
  {
    hide IsWhitespace;
    if s == "" {
      assert (set i: nat | i < |s| && StartsToken(abc, s, i)) == {};
    } else {
      var n := |s| - 1;
      var a := s[..n];
      CountsTokenStarts(abc, a);
      OneMoreStart(abc, s);
      assert s == a + [s[n]];
      TokensFromAppend(abc, a, [s[n]], false);
      OneCharacter(abc, s[n], if a == "" then false else IsWordChar(abc, a[n - 1]));
    }
  }

  lemma OneMoreStart(abc: Alphabet, s: string)
    requires s != ""
    ensures var n := |s| - 1;
            |set i: nat | i < |s| && StartsToken(abc, s, i)| ==
            |set i: nat | i < n && StartsToken(abc, s[..n], i)| + if StartsToken(abc, s, n) then 1 else 0
  {
    hide IsWhitespace;
    var n := |s| - 1;
    var a := s[..n];
    var before, now := set i: nat | i < n && StartsToken(abc, a, i), set i: nat | i < |s| && StartsToken(abc, s, i);
    forall i: nat | i < n
      ensures StartsToken(abc, a, i) <==> StartsToken(abc, s, i)
    {
    }
    assert now == before + (if StartsToken(abc, s, n) then {n} else {});
  }

  lemma OneCharacter(abc: Alphabet, c: char, inWord: bool)
    ensures TokensFrom(abc, [c], inWord) == CharTokens(abc, c, inWord)
  {
    assert [c][1..] == "";
  }

  // ----- transcripts -----

  /** What a block adds to the estimate; a picture or document counts as eight tokens. */
  function Price(abc: Alphabet, j: JsonText, b: ContentBlock): nat {
    match b
    case Text(text, _) => Tokens(abc, text)
    case Thinking(text) => Tokens(abc, text)
    case ToolUse(_, name, input) => Tokens(abc, name + j.render(input))
    case ToolResult(_, content, _, _) => Tokens(abc, content)
    case Image(_) => 8
    case Document(_, _) => 8
  }

  function Prices(abc: Alphabet, j: JsonText, blocks: seq<ContentBlock>): nat {
    if blocks == [] then 0 else Price(abc, j, blocks[0]) + Prices(abc, j, blocks[1..])
  }

  function AllPrices(abc: Alphabet, j: JsonText, h: seq<Message>): nat {
    if h == [] then 0 else Prices(abc, j, h[0].content) + AllPrices(abc, j, h[1..])
  }

  lemma ProxyPieces(abc: Alphabet)
    ensures Tokens(abc, "[media") == 2 && Tokens(abc, "~1500") == 2 && Tokens(abc, "placeholder]") == 2
  {
    assert !abc('[') && !abc('~');
    Opened(abc, '[', "media");
    Opened(abc, '~', "1500");
    Eviction.LastWordTokens(abc, "placeholder");
    assert ['['] + "media" == "[media" && ['~'] + "1500" == "~1500" && "placeholder" + "]" == "placeholder]";
  }

  lemma Opened(abc: Alphabet, open: char, word: string)
    requires Eviction.IsWord(word) && !IsWordChar(abc, open) && !IsWhitespace(open)
    ensures Tokens(abc, [open] + word) == 2
  {
    Eviction.WordTokens(abc, word, false);
    TokensFromAppend(abc, [open], word, false);
    OneCharacter(abc, open, false);
  }

  lemma Spaced(abc: Alphabet, a: string, b: string, c: string, d: string, e: string)
    ensures Tokens(abc, a + " " + (b + " " + (c + " " + (d + " " + e)))) ==
            Tokens(abc, a) + Tokens(abc, b) + Tokens(abc, c) + Tokens(abc, d) + Tokens(abc, e)
  {
    hide Tokens;
    TokensAddUp(abc, d, ' ', e);
    TokensAddUp(abc, c, ' ', d + " " + e);
    TokensAddUp(abc, b, ' ', c + " " + (d + " " + e));
    TokensAddUp(abc, a, ' ', b + " " + (c + " " + (d + " " + e)));
  }

  lemma ProxyParts()
    ensures MediaProxy() == "[media" + " " + ("block" + " " + ("~1500" + " " + ("tokens" + " " + "placeholder]")))
  {
    ProxyTail();
    assert MediaProxy() == "[media block " + "~1500 tokens placeholder]";
    assert "[media block " == "[media" + " " + ("block" + " ");
  }

  lemma ProxyTail()
    ensures "~1500" + " " + ("tokens" + " " + "placeholder]") == "~1500 tokens placeholder]"
  {
  }

  lemma ProxyPrice(abc: Alphabet)
    ensures Tokens(abc, MediaProxy()) == 8
  {
    hide Tokens, MediaProxy;
    ProxyPieces(abc);
    ProxyWords(abc);
    ProxyParts();
    Spaced(abc, "[media", "block", "~1500", "tokens", "placeholder]");
  }

  lemma ProxyWords(abc: Alphabet)
    ensures Tokens(abc, "block") == 1 && Tokens(abc, "tokens") == 1
  {
    Eviction.WordTokens(abc, "block", false);
    Eviction.WordTokens(abc, "tokens", false);
  }

  lemma {:induction false} BlockPrices(abc: Alphabet, j: JsonText, blocks: seq<ContentBlock>)
    ensures BlockTokens(abc, j, blocks) == Prices(abc, j, blocks)
  {
    hide Tokens, MediaProxy;
    if blocks != [] {
      ProxyPrice(abc);
      BlockPrices(abc, j, blocks[1..]);
    }
  }

  /** The estimate of a transcript is the sum of the prices of its blocks. */
  lemma {:induction false} TranscriptPrice(abc: Alphabet, j: JsonText, h: seq<Message>)
    ensures HistoryTokens(abc, j, h) == AllPrices(abc, j, h)
  {
    hide Tokens, Proxy;
    if h != [] {
      ProxyAddsUp(abc, j, h[0].content);
      BlockPrices(abc, j, h[0].content);
      TranscriptPrice(abc, j, h[1..]);
    }
  }
}

/** The token estimator that gates compaction and eviction. */
module Estimator {
  import opened Strings
  import opened Protocol

  predicate IsAsciiAlphanumeric(c: char) {
    '0' <= c <= '9' || 'a' <= c <= 'z' || 'A' <= c <= 'Z'
  }

  /** Unicode's alphanumeric characters, as far as the estimator depends on them: the ASCII letters
      and digits are, white space and the other ASCII characters are not. */
  type Alphabet = f: char -> bool |
    forall c :: (IsAsciiAlphanumeric(c) ==> f(c)) &&
                (IsWhitespace(c) || ((c as int) < 128 && !IsAsciiAlphanumeric(c)) ==> !f(c))
    witness IsAsciiAlphanumeric

  predicate IsWordChar(abc: Alphabet, c: char) {
    abc(c) || c == '_'
  }

  /** What one character adds, given whether the previous one was inside a word. */
  function CharTokens(abc: Alphabet, c: char, inWord: bool): nat {
    if IsWordChar(abc, c) then (if inWord then 0 else 1)
    else if IsWhitespace(c) then 0
    else 1
  }

  /** Words and punctuation characters of `s`, scanning from a state. */
  function TokensFrom(abc: Alphabet, s: string, inWord: bool): nat {
    if s == "" then 0
    else CharTokens(abc, s[0], inWord) + TokensFrom(abc, s[1..], IsWordChar(abc, s[0]))
  }

  function Tokens(abc: Alphabet, s: string): nat {
    TokensFrom(abc, s, false)
  }

  method EstimateTokens(abc: Alphabet, text: string) returns (tokens: nat)
    ensures tokens == Tokens(abc, text)
  {
    tokens := 0;
    var inWord := false;
    for i := 0 to |text|
      invariant tokens + TokensFrom(abc, text[i..], inWord) == Tokens(abc, text)
    {
      var ch := text[i];
      if IsWordChar(abc, ch) {
        if !inWord {
          tokens := tokens + 1;
          inWord := true;
        }
      } else {
        inWord := false;
        if !IsWhitespace(ch) {
          tokens := tokens + 1;
        }
      }
    }
  }

  lemma {:induction false} TokensFromAppend(abc: Alphabet, a: string, b: string, inWord: bool)
    ensures TokensFrom(abc, a + b, inWord) == TokensFrom(abc, a, inWord) +
            TokensFrom(abc, b, if a == "" then inWord else IsWordChar(abc, a[|a| - 1]))
  {
    if a == "" {
      assert a + b == b;
    } else {
      assert (a + b)[1..] == a[1..] + b;
      TokensFromAppend(abc, a[1..], b, IsWordChar(abc, a[0]));
    }
  }

  /** The estimate adds up over texts separated by white space. */
  lemma TokensAddUp(abc: Alphabet, a: string, sep: char, b: string)
    requires IsWhitespace(sep)
    ensures Tokens(abc, a + [sep] + b) == Tokens(abc, a) + Tokens(abc, b)
  {
    assert a + [sep] + b == a + ([sep] + b);
    TokensFromAppend(abc, a, [sep] + b, false);
    assert ([sep] + b)[1..] == b;
  }

  // ----- transcripts -----

  /** What stands for a block when its size is estimated. */
  function BlockText(j: JsonText, b: ContentBlock): string {
    match b
    case Text(text, _) => text
    case Thinking(text) => text
    case ToolUse(_, name, input) => name + j.render(input)
    case ToolResult(_, content, _, _) => content
    case Image(_) => MediaProxy()
    case Document(_, _) => MediaProxy()
  }

  function MediaProxy(): string { "[media block ~1500 tokens placeholder]" }

  /** `proxy`: every block's text, each followed by a space. */
  function Proxy(j: JsonText, blocks: seq<ContentBlock>): string {
    if blocks == [] then "" else BlockText(j, blocks[0]) + " " + Proxy(j, blocks[1..])
  }

  function HistoryTokens(abc: Alphabet, j: JsonText, history: seq<Message>): nat {
    if history == [] then 0
    else Tokens(abc, Proxy(j, history[0].content)) + HistoryTokens(abc, j, history[1..])
  }

  function BlockTokens(abc: Alphabet, j: JsonText, blocks: seq<ContentBlock>): nat {
    if blocks == [] then 0
    else Tokens(abc, BlockText(j, blocks[0])) + BlockTokens(abc, j, blocks[1..])
  }

  /** A message costs what its blocks cost one by one, so rewriting one block leaves the others'
      share of the estimate as it was. */
  lemma {:induction false} ProxyAddsUp(abc: Alphabet, j: JsonText, blocks: seq<ContentBlock>)
    ensures Tokens(abc, Proxy(j, blocks)) == BlockTokens(abc, j, blocks)
  {
    if blocks != [] {
      TokensAddUp(abc, BlockText(j, blocks[0]), ' ', Proxy(j, blocks[1..]));
      ProxyAddsUp(abc, j, blocks[1..]);
    }
  }
}

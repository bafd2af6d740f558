/** Short streams of bytes in which each data line carries one digit, and a codec that knows what each
    digit stands for. */
module SmallStreams {
  import opened Strings
  import opened Protocol
  import opened Framing

  function Ascii(bytes: seq<Byte>): string {
    seq(|bytes|, i requires 0 <= i < |bytes| => bytes[i] as char)
  }

  /** Bytes are characters, and JSON is what the library says. */
  function CodecOf(json: JsonText): Codec {
    Codec(bytes => Ascii(bytes), json)
  }

  /** `data:` and one character, and a line feed. */
  function DataLine(c: Byte): seq<Byte> {
    [100, 97, 116, 97, 58, c, LINE_FEED]
  }

  lemma DigitLine(json: JsonText, c: Byte)
    requires 49 <= c <= 57
    ensures ReadLine(CodecOf(json), DataLine(c)) ==
            match json.parse([c as char]) case Some(v) => Value(v) case None => Malformed
  {
    var text := Ascii(DataLine(c));
    var d := c as char;
    assert text == ['d', 'a', 't', 'a', ':', d, '\n'];
    assert text[..6] == ['d', 'a', 't', 'a', ':', d];
    assert TrimEnd(text[..6]) == text[..6] && TrimEnd(text) == text[..6] && TrimStart(text) == text;
    assert text[..6][5..] == [d] && TrimStart([d]) == [d] && TrimEnd([d]) == [d];
    assert "data:" <= text[..6] by { assert text[..6][..5] == "data:"; }
  }

  /** The first line of a stream. */
  lemma FirstDataLine(c: Byte, rest: seq<Byte>)
    requires c != LINE_FEED
    ensures StreamLines(DataLine(c) + rest) == [DataLine(c)] + StreamLines(rest)
  {
    var b := DataLine(c) + rest;
    assert b[6] == LINE_FEED && forall i | 0 <= i < 6 :: b[i] != LINE_FEED;
    FirstAt(b, LINE_FEED, 6);
    assert b[..7] == DataLine(c) && b[7..] == rest;
  }

  lemma OneLine(c: Byte)
    requires c != LINE_FEED
    ensures StreamLines(Flatten([DataLine(c)])) == [DataLine(c)]
  {
    hide DataLine;
    FlattenOne(DataLine(c));
    FirstDataLine(c, []);
    assert DataLine(c) + [] == DataLine(c) && StreamLines([]) == [];
  }

  lemma FirstAt<T>(s: seq<T>, x: T, k: nat)
    requires k < |s| && s[k] == x && forall i | 0 <= i < k :: s[i] != x
    ensures IndexOf(s, x) == k
  {
    InTake(s, IndexOf(s, x), k);
  }

  lemma InTake<T>(s: seq<T>, p: nat, k: nat)
    requires p <= |s|
    ensures k < p ==> s[k] in s[..p]
  {
    assert k < p ==> s[..p][k] == s[k];
  }
}

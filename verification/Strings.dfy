/** Text as the agent handles it: decimal numerals, UTF-8 sizes, trimming and line splitting. */
module Strings {

  // ----- decimal numerals -----

  function Digit(d: nat): char
    requires d < 10
  {
    "0123456789"[d]
  }

  /** The decimal numeral that formatting a natural number writes. */
  function Decimal(n: nat): string {
    if n < 10 then [Digit(n)] else Decimal(n / 10) + [Digit(n % 10)]
  }

  predicate AllDigits(s: string) {
    forall i | 0 <= i < |s| :: '0' <= s[i] <= '9'
  }

  function NumeralValue(s: string): nat
    requires AllDigits(s)
  {
    if s == "" then 0
    else 10 * NumeralValue(s[..|s| - 1]) + (s[|s| - 1] as int - '0' as int)
  }

  lemma {:induction false} DecimalReadsBack(n: nat)
    ensures Decimal(n) != ""
    ensures AllDigits(Decimal(n)) && NumeralValue(Decimal(n)) == n
  {
    if n >= 10 {
      DecimalReadsBack(n / 10);
      assert Decimal(n)[..|Decimal(n)| - 1] == Decimal(n / 10);
    } else {
      assert Decimal(n)[..0] == "";
    }
  }

  lemma DecimalInjective(m: nat, n: nat)
    requires Decimal(m) == Decimal(n)
    ensures m == n
  {
    DecimalReadsBack(m);
    DecimalReadsBack(n);
  }

  // ----- UTF-8 sizes -----

  function CharBytes(c: char): nat {
    if c as int < 0x80 then 1 else if c as int < 0x800 then 2 else if c as int < 0x10000 then 3 else 4
  }

  /** The number of bytes of the UTF-8 encoding. */
  function Utf8Len(s: string): nat {
    if s == "" then 0 else CharBytes(s[0]) + Utf8Len(s[1..])
  }

  /** The bytes of a character as RFC 3629 lays them out: six bits in every byte but the first. */
  function Encoded(c: char): seq<nat> {
    var u := c as int;
    if u < 0x80 then [u]
    else if u < 0x800 then [0xC0 + u / 0x40, 0x80 + u % 0x40]
    else if u < 0x10000 then [0xE0 + u / 0x1000, 0x80 + u / 0x40 % 0x40, 0x80 + u % 0x40]
    else [0xF0 + u / 0x40000, 0x80 + u / 0x1000 % 0x40, 0x80 + u / 0x40 % 0x40, 0x80 + u % 0x40]
  }

  function Utf8(s: string): seq<nat> {
    if s == "" then [] else Encoded(s[0]) + Utf8(s[1..])
  }

  /** A size counts the bytes of the encoding. */
  lemma {:induction false} SizeIsEncoded(s: string)
    ensures |Utf8(s)| == Utf8Len(s) && forall i | 0 <= i < |Utf8(s)| :: Utf8(s)[i] < 0x100
  {
    hide CharBytes, Encoded;
    if s != "" {
      CharIsEncoded(s[0]);
      SizeIsEncoded(s[1..]);
    }
  }

  lemma CharIsEncoded(c: char)
    ensures |Encoded(c)| == CharBytes(c) && forall i | 0 <= i < |Encoded(c)| :: Encoded(c)[i] < 0x100
  {
  }

  // ----- white space -----

  /** The characters with the Unicode property White_Space. */
  predicate IsWhitespace(c: char) {
    var u := c as int;
    || 0x09 <= u <= 0x0D || u == 0x20 || u == 0x85 || u == 0xA0 || u == 0x1680
    || 0x2000 <= u <= 0x200A || u == 0x2028 || u == 0x2029 || u == 0x202F || u == 0x205F || u == 0x3000
  }

  function TrimStart(s: string): string {
    if s != "" && IsWhitespace(s[0]) then TrimStart(s[1..]) else s
  }

  function TrimEnd(s: string): string {
    if s != "" && IsWhitespace(s[|s| - 1]) then TrimEnd(s[..|s| - 1]) else s
  }

  function Trim(s: string): string {
    TrimEnd(TrimStart(s))
  }

  predicate IsBlank(s: string) {
    forall i | 0 <= i < |s| :: IsWhitespace(s[i])
  }

  /** White space up to `i` and from `j` on, and none at either end of what is between. */
  predicate TrimsAt(s: string, i: nat, j: nat) {
    && i <= j <= |s| && IsBlank(s[..i]) && IsBlank(s[j..])
    && (i < j ==> !IsWhitespace(s[i]) && !IsWhitespace(s[j - 1]))
  }

  /** What is left of a text without the white space at both ends. */
  predicate TrimsTo(s: string, t: string) {
    exists i, j | 0 <= i <= j <= |s| :: TrimsAt(s, i, j) && s[i..j] == t
  }

  lemma {:induction false} StartTrimmed(s: string) returns (i: nat)
    ensures i <= |s| && TrimStart(s) == s[i..] && IsBlank(s[..i])
    ensures TrimStart(s) != "" ==> !IsWhitespace(TrimStart(s)[0])
  {
    if s != "" && IsWhitespace(s[0]) {
      i := StartTrimmed(s[1..]);
      i := i + 1;
      assert forall k | 1 <= k < i :: s[..i][k] == s[1..][..i - 1][k - 1];
    } else {
      i := 0;
    }
  }

  lemma {:induction false} EndTrimmed(s: string) returns (j: nat)
    ensures j <= |s| && TrimEnd(s) == s[..j] && IsBlank(s[j..])
    ensures TrimEnd(s) != "" ==> !IsWhitespace(TrimEnd(s)[|TrimEnd(s)| - 1])
  {
    if s != "" && IsWhitespace(s[|s| - 1]) {
      var n := |s| - 1;
      j := EndTrimmed(s[..n]);
      assert s[j..] == s[..n][j..] + [s[n]];
    } else {
      j := |s|;
    }
  }

  lemma TrimHolds(s: string)
    ensures TrimsTo(s, Trim(s))
  {
    hide IsWhitespace, IsBlank, TrimStart, TrimEnd;
    var i := StartTrimmed(s);
    var m := s[i..];
    var j := EndTrimmed(m);
    assert s[i..i + j] == m[..j] && s[i + j..] == m[j..];
    assert TrimsAt(s, i, i + j);
  }

  lemma TrimUnique(s: string, t: string, u: string)
    requires TrimsTo(s, t) && TrimsTo(s, u)
    ensures t == u
  {
    hide TrimsAt;
    var a, b :| 0 <= a <= b <= |s| && TrimsAt(s, a, b) && s[a..b] == t;
    var i, j :| 0 <= i <= j <= |s| && TrimsAt(s, i, j) && s[i..j] == u;
    SameTrim(s, a, b, i, j);
  }

  /** Trimming leaves exactly that. */
  lemma TrimExactly(s: string, t: string)
    ensures TrimsTo(s, t) <==> Trim(s) == t
  {
    hide TrimsTo, Trim;
    TrimHolds(s);
    if TrimsTo(s, t) {
      TrimUnique(s, t, Trim(s));
    }
  }

  lemma SameTrim(s: string, a: nat, b: nat, i: nat, j: nat)
    requires TrimsAt(s, a, b) && TrimsAt(s, i, j)
    ensures s[a..b] == s[i..j]
  {
    hide IsWhitespace;
    forall k | 0 <= k < |s|
      ensures k < a || k >= b || k < i || k >= j ==> IsWhitespace(s[k])
    {
      OutsideIsWhite(s, a, b, k);
      OutsideIsWhite(s, i, j, k);
    }
  }

  lemma OutsideIsWhite(s: string, i: nat, j: nat, k: nat)
    requires TrimsAt(s, i, j) && k < |s|
    ensures k < i || k >= j ==> IsWhitespace(s[k])
  {
    hide IsWhitespace;
    if k < i {
      assert s[..i][k] == s[k];
    } else if k >= j {
      assert s[j..][k - j] == s[k];
    }
  }

  lemma BlankExactly(s: string)
    ensures Trim(s) == "" <==> IsBlank(s)
  {
    hide IsWhitespace, Trim;
    TrimExactly(s, "");
    if IsBlank(s) {
      assert s[..0] == "" && s[0..] == s && TrimsAt(s, 0, 0);
    }
    forall i: nat, j: nat | TrimsAt(s, i, j) && s[i..j] == ""
      ensures IsBlank(s)
    {
      forall k | 0 <= k < |s|
        ensures IsWhitespace(s[k])
      {
        OutsideIsWhite(s, i, j, k);
      }
    }
  }

  // ----- splitting -----

  /** The first position of `x` in `s`, or `|s|` when it does not occur. */
  function IndexOf<T(==)>(s: seq<T>, x: T): (p: nat)
    ensures p <= |s|
    ensures p < |s| ==> s[p] == x
    ensures x !in s[..p]
  {
    if s == [] || s[0] == x then 0
    else
      var p := 1 + IndexOf(s[1..], x);
      assert s[..p] == [s[0]] + s[1..][..p - 1];
      p
  }

  lemma IndexOfAbsent<T>(s: seq<T>, x: T)
    requires x !in s
    ensures IndexOf(s, x) == |s|
  {
    Holds(s, IndexOf(s, x));
  }

  lemma Holds<T>(s: seq<T>, p: nat)
    ensures p < |s| ==> s[p] in s
  {
  }

  /** Looking further does not change where the first occurrence is. */
  lemma {:induction false} IndexOfAppend<T>(s: seq<T>, t: seq<T>, x: T)
    ensures IndexOf(s + t, x) == if x in s then IndexOf(s, x) else |s| + IndexOf(t, x)
  {
    if s == [] {
      assert s + t == t;
    } else if s[0] != x {
      IndexOfAppend(s[1..], t, x);
      assert (s + t)[1..] == s[1..] + t;
    }
  }

  function StripCarriageReturn(line: string): string {
    if line != "" && line[|line| - 1] == '\r' then line[..|line| - 1] else line
  }

  /** The lines of a text: split at line feeds, each without its terminator. */
  function Lines(s: string): seq<string> {
    if s == "" then []
    else
      var p := IndexOf(s, '\n');
      if p == |s| then [s]
      else [StripCarriageReturn(s[..p])] + Lines(s[p + 1..])
  }

  function JoinLines(lines: seq<string>): string {
    if lines == [] then ""
    else if |lines| == 1 then lines[0]
    else lines[0] + "\n" + JoinLines(lines[1..])
  }

  lemma Regroup<T>(a: seq<T>, b: seq<T>, c: seq<T>)
    ensures (a + b) + c == a + (b + c)
  {
  }

  lemma TailOfAppend<T>(a: seq<T>, b: seq<T>)
    requires a != []
    ensures (a + b)[0] == a[0] && (a + b)[1..] == a[1..] + b
  {
  }

  function Flatten<T>(parts: seq<seq<T>>): seq<T> {
    if parts == [] then [] else parts[0] + Flatten(parts[1..])
  }

  lemma {:induction false} FlattenAppend<T>(a: seq<seq<T>>, b: seq<seq<T>>)
    ensures Flatten(a + b) == Flatten(a) + Flatten(b)
  {
    if a == [] {
      assert a + b == b;
    } else {
      FlattenAppend(a[1..], b);
      TailOfAppend(a, b);
      Regroup(a[0], Flatten(a[1..]), Flatten(b));
    }
  }

  lemma FlattenOne<T>(part: seq<T>)
    ensures Flatten([part]) == part
  {
    assert Flatten([part]) == part + Flatten([]);
  }
}

/** Incremental line framing of a byte stream, shared by the stream decoders. */
module Framing {
  import opened Strings
  import opened Protocol

  type Byte = b: int | 0 <= b < 256

  const LINE_FEED: Byte := 10

  datatype Fed<S> = Fed(state: S, buf: seq<Byte>)

  /** Handle every complete line of a buffer, in order; what follows the last line feed is kept. */
  function Drain<S>(handle: (S, seq<Byte>) -> S, s: S, buf: seq<Byte>): Fed<S>
    decreases |buf|
  {
    var p := IndexOf(buf, LINE_FEED);
    if p == |buf| then Fed(s, buf) else Drain(handle, handle(s, buf[..p + 1]), buf[p + 1..])
  }

  function Push<S>(handle: (S, seq<Byte>) -> S, f: Fed<S>, bytes: seq<Byte>): Fed<S> {
    Drain(handle, f.state, f.buf + bytes)
  }

  function PushAll<S>(handle: (S, seq<Byte>) -> S, f: Fed<S>, chunks: seq<seq<Byte>>): Fed<S>
    decreases |chunks|
  {
    if chunks == [] then f else PushAll(handle, Push(handle, f, chunks[0]), chunks[1..])
  }

  /** A last line without a line feed is handled when the stream ends. */
  function End<S>(handle: (S, seq<Byte>) -> S, f: Fed<S>): S {
    if f.buf == [] then f.state else handle(f.state, f.buf)
  }

  /** All lines of a stream, each with its line feed, and the unterminated rest. */
  function StreamLines(bytes: seq<Byte>): seq<seq<Byte>>
    decreases |bytes|
  {
    if bytes == [] then []
    else
      var p := IndexOf(bytes, LINE_FEED);
      if p == |bytes| then [bytes] else [bytes[..p + 1]] + StreamLines(bytes[p + 1..])
  }

  function HandleAll<S>(handle: (S, seq<Byte>) -> S, s: S, lines: seq<seq<Byte>>): S
    decreases |lines|
  {
    if lines == [] then s else HandleAll(handle, handle(s, lines[0]), lines[1..])
  }

  lemma CutAppend<T>(a: seq<T>, b: seq<T>, k: nat)
    requires k <= |a|
    ensures (a + b)[..k] == a[..k] && (a + b)[k..] == a[k..] + b
  {
  }

  lemma {:induction false} DrainSplits<S>(handle: (S, seq<Byte>) -> S, s: S, a: seq<Byte>, b: seq<Byte>)
    ensures var f := Drain(handle, s, a); Drain(handle, s, a + b) == Drain(handle, f.state, f.buf + b)
    decreases |a|
  {
    hide IndexOf;
    var p := IndexOf(a, LINE_FEED);
    IndexOfAppend(a, b, LINE_FEED);
    if p < |a| {
      CutAppend(a, b, p + 1);
      DrainSplits(handle, handle(s, a[..p + 1]), a[p + 1..], b);
    }
  }

  /** However the same bytes are cut into pieces, the state and the rest kept are the same. */
  lemma {:induction false} CutsDoNotMatter<S>(handle: (S, seq<Byte>) -> S, f: Fed<S>, chunks: seq<seq<Byte>>)
    requires LINE_FEED !in f.buf
    ensures PushAll(handle, f, chunks) == Push(handle, f, Flatten(chunks))
    decreases |chunks|
  {
    if chunks == [] {
      assert f.buf + [] == f.buf;
    } else {
      var g := Push(handle, f, chunks[0]);
      KeepsNoLineFeed(handle, f.state, f.buf + chunks[0]);
      CutsDoNotMatter(handle, g, chunks[1..]);
      DrainSplits(handle, f.state, f.buf + chunks[0], Flatten(chunks[1..]));
      assert f.buf + chunks[0] + Flatten(chunks[1..]) == f.buf + Flatten(chunks);
    }
  }

  lemma {:induction false} KeepsNoLineFeed<S>(handle: (S, seq<Byte>) -> S, s: S, buf: seq<Byte>)
    ensures LINE_FEED !in Drain(handle, s, buf).buf
    decreases |buf|
  {
    var p := IndexOf(buf, LINE_FEED);
    if p < |buf| {
      KeepsNoLineFeed(handle, handle(s, buf[..p + 1]), buf[p + 1..]);
    } else {
      assert buf[..p] == buf;
    }
  }

  /** A stream pushed in pieces and then ended is a stream handled line by line. */
  lemma {:induction false} StreamIsItsLines<S>(handle: (S, seq<Byte>) -> S, s: S, bytes: seq<Byte>)
    ensures End(handle, Drain(handle, s, bytes)) == HandleAll(handle, s, StreamLines(bytes))
    decreases |bytes|
  {
    hide IndexOf;
    var p := IndexOf(bytes, LINE_FEED);
    if p < |bytes| {
      StreamIsItsLines(handle, handle(s, bytes[..p + 1]), bytes[p + 1..]);
      HandleFirst(handle, s, bytes[..p + 1], StreamLines(bytes[p + 1..]));
    } else if bytes != [] {
      HandleFirst(handle, s, bytes, []);
      assert [bytes] + [] == [bytes];
    }
  }

  lemma HandleFirst<S>(handle: (S, seq<Byte>) -> S, s: S, line: seq<Byte>, lines: seq<seq<Byte>>)
    ensures HandleAll(handle, s, [line] + lines) == HandleAll(handle, handle(s, line), lines)
  {
    assert ([line] + lines)[1..] == lines;
  }

  // ----- what a line carries -----

  /** Text decoding and JSON, as the decoders use them. */
  datatype Codec = Codec(utf8: seq<Byte> -> string, json: JsonText)

  datatype Payload = NoPayload | Malformed | Value(v: Json)

  /** A data line carries one JSON value; every other line, and an empty data line, carries none. */
  function ReadLine(codec: Codec, line: seq<Byte>): Payload {
    var text := Trim(codec.utf8(line));
    if !("data:" <= text) then NoPayload
    else
      var payload := Trim(text[5..]);
      if payload == "" then NoPayload
      else
        match codec.json.parse(payload)
        case Some(v) => Value(v)
        case None => Malformed
  }

  /** The text is `data:` and a payload, with white space anywhere around the two. */
  ghost predicate Carries(text: string, payload: string) {
    exists line: string | TrimsTo(text, line) && "data:" <= line :: TrimsTo(line[5..], payload)
  }

  /** A line carries a value exactly if its payload is JSON for it, and is malformed exactly if it has a
      payload that is no JSON. */
  lemma ReadLineExactly(codec: Codec, line: seq<Byte>, v: Json)
    ensures ReadLine(codec, line) == Value(v) <==>
            exists payload | payload != "" && Carries(codec.utf8(line), payload) :: codec.json.parse(payload) == Some(v)
    ensures ReadLine(codec, line) == Malformed <==>
            exists payload | payload != "" && Carries(codec.utf8(line), payload) :: codec.json.parse(payload) == None
  {
    hide TrimsTo, Trim;
    var text := codec.utf8(line);
    forall t: string
      ensures TrimsTo(text, t) <==> Trim(text) == t
    {
      TrimExactly(text, t);
    }
    var whole := Trim(text);
    if "data:" <= whole {
      forall p: string
        ensures Carries(text, p) <==> Trim(whole[5..]) == p
      {
        TrimExactly(whole[5..], p);
      }
      assert Carries(text, Trim(whole[5..]));
    } else {
      assert forall p: string :: !Carries(text, p);
    }
  }

  /** One item of a decoded stream. */
  type Item = Result<Event, DecodeError>

  datatype DecodeError = BadJson | StreamError(message: string)

  /** Where a decoder puts what it decoded. */
  class Sink {
    var items: seq<Item>

    constructor ()
      ensures items == []
    {
      items := [];
    }

    method Put(item: Item)
      modifies this
      ensures items == old(items) + [item]
    {
      items := items + [item];
    }
  }
}

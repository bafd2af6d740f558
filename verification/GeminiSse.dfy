/** The incremental decoder of the Gemini stream. */
module GeminiSse {
  import opened Strings
  import opened Protocol
  import opened Framing

  // ----- reading a chunk -----

  /** What a part says: a function call with its signature ("" for none), answer text or a thought. */
  datatype Part = CallPart(name: string, args: Json, signature: string) | TextPart(text: string) | ThoughtPart(text: string) | OtherPart

  function ReadPart(part: Json): Part {
    match Get(part, "functionCall")
    case Some(call) =>
      CallPart(StrOr(At(call, "name"), ""),
               if Get(call, "args").Some? then Get(call, "args").value else JObj([]),
               StrOr(At(part, "thoughtSignature"), ""))
    case None =>
      if At(part, "text").JStr? then
        (if At(part, "thought") == JBool(true) then ThoughtPart(At(part, "text").s) else TextPart(At(part, "text").s))
      else OtherPart
  }

  /** Cumulative usage: a later chunk's report replaces the earlier one. */
  function ReadUsage(v: Json): Option<Usage> {
    match Get(v, "usageMetadata")
    case None => None
    case Some(meta) =>
      var prompt, cached := NatOrZero(At(meta, "promptTokenCount")), NatOrZero(At(meta, "cachedContentTokenCount"));
      Some(Usage(if prompt >= cached then prompt - cached else 0,
                 NatOrZero(At(meta, "candidatesTokenCount")) + NatOrZero(At(meta, "thoughtsTokenCount")), 0, cached))
  }

  function ReadCandidate(v: Json): Option<Json> {
    var c := At(v, "candidates");
    if c.JArr? && c.items != [] then Some(c.items[0]) else None
  }

  function ReadParts(candidate: Json): seq<Json> {
    var p := At(At(candidate, "content"), "parts");
    if p.JArr? then p.items else []
  }

  function MapFinish(reason: string): StopReason {
    if reason == "STOP" then EndTurn else if reason == "MAX_TOKENS" then MaxTokens else Other(reason)
  }

  function ReadFinish(candidate: Json): Option<StopReason> {
    match AsStr(At(candidate, "finishReason"))
    case Some(reason) => Some(MapFinish(reason))
    case None => None
  }

  // ----- ids -----

  /** Gemini gives calls no ids; they are numbered, and a thought signature rides along behind a `#`. */
  function CallId(n: nat, signature: string): string {
    "call_" + Decimal(n) + (if signature == "" then "" else "#" + signature)
  }

  // ----- the decoder as a state machine -----

  datatype State = State(usage: Usage, stop: Option<StopReason>, calls: nat, done: bool, out: seq<Item>)

  const INITIAL := State(NO_USAGE, None, 0, false, [])

  function PartEvents(json: JsonText, n: nat, part: Part): seq<Item> {
    match part
    case CallPart(name, args, signature) =>
      var id := CallId(n, signature);
      [Ok(ToolUseStart(id, name)), Ok(ToolUseDelta(id, json.render(args))), Ok(ToolUseEnd(id))]
    case TextPart(text) => [Ok(TextDelta(text))]
    case ThoughtPart(text) => [Ok(ThinkingDelta(text))]
    case OtherPart => []
  }

  function OnPart(json: JsonText, s: State, part: Part): State {
    s.(out := s.out + PartEvents(json, s.calls, part), calls := s.calls + (if part.CallPart? then 1 else 0))
  }

  function OnParts(json: JsonText, s: State, parts: seq<Json>): State
    decreases |parts|
  {
    if parts == [] then s else OnParts(json, OnPart(json, s, ReadPart(parts[0])), parts[1..])
  }

  function OnUsage(s: State, v: Json): State {
    match ReadUsage(v)
    case Some(u) => s.(usage := u.(cacheCreation := s.usage.cacheCreation))
    case None => s
  }

  function OnChunk(json: JsonText, s: State, v: Json): State {
    var u := OnUsage(s, v);
    match ReadCandidate(v)
    case None => u
    case Some(c) =>
      var p := OnParts(json, u, ReadParts(c));
      if ReadFinish(c).Some? then p.(stop := ReadFinish(c)) else p
  }

  function OnLine(codec: Codec, s: State, line: seq<Byte>): State {
    match ReadLine(codec, line)
    case NoPayload => s
    case Malformed => s.(out := s.out + [Err(BadJson)])
    case Value(v) => OnChunk(codec.json, s, v)
  }

  /** A turn that made any call ends as a tool turn, even if the stream says it simply stopped. */
  function FinalStop(s: State): StopReason {
    if EndsInTools(s) then StopForTool else if s.stop.Some? then s.stop.value else EndTurn
  }

  predicate EndsInTools(s: State) {
    s.calls > 0 && (s.stop.None? || s.stop.value.EndTurn?)
  }

  /** The usage and the end of the turn, once; a stop reason that is reported is used up. */
  function EmitFinal(s: State): State {
    if s.done then s
    else s.(done := true, out := s.out + [Ok(UsageReport(s.usage)), Ok(Done(FinalStop(s)))],
            stop := if EndsInTools(s) then s.stop else None)
  }

  function Handler(codec: Codec): (State, seq<Byte>) -> State {
    (s, line) => OnLine(codec, s, line)
  }

  /** A whole stream, pushed in pieces and ended. */
  function Decode(codec: Codec, chunks: seq<seq<Byte>>): State {
    EmitFinal(End(Handler(codec), PushAll(Handler(codec), Fed(INITIAL, []), chunks)))
  }

  // ----- the decoder as it runs -----

  class GeminiDecoder {
    const codec: Codec
    var buf: seq<Byte>
    var usage: Usage
    var stop: Option<StopReason>
    var calls: nat
    var done: bool

    constructor (codec: Codec)
      ensures this.codec == codec && buf == [] && (usage, stop, calls, done) == (NO_USAGE, None, 0, false)
    {
      this.codec := codec;
      buf, usage, stop, calls, done := [], NO_USAGE, None, 0, false;
    }

    function Now(out: Sink): State
      reads this, out
    {
      State(usage, stop, calls, done, out.items)
    }

    method PutAll(items: seq<Item>, out: Sink)
      modifies out
      ensures out.items == old(out.items) + items
    {
      for i := 0 to |items|
        invariant out.items == old(out.items) + items[..i]
      {
        out.Put(items[i]);
      }
      assert items[..|items|] == items;
    }

    method HandleChunk(v: Json, out: Sink)
      modifies this`usage, this`stop, this`calls, out
      ensures Now(out) == OnChunk(codec.json, old(Now(out)), v)
    {
      hide ReadUsage, ReadCandidate, ReadParts, ReadPart, ReadFinish, PartEvents;
      var report := ReadUsage(v);
      if report.Some? {
        usage := report.value.(cacheCreation := usage.cacheCreation);
      }
      var candidate := ReadCandidate(v);
      if candidate == None {
        return;
      }
      var parts := ReadParts(candidate.value);
      ghost var before := Now(out);
      for i := 0 to |parts|
        invariant OnParts(codec.json, Now(out), parts[i..]) == OnParts(codec.json, before, parts)
        invariant usage == before.usage && stop == before.stop && done == before.done
      {
        assert parts[i..][1..] == parts[i + 1..];
        var part := ReadPart(parts[i]);
        PutAll(PartEvents(codec.json, calls, part), out);
        if part.CallPart? {
          calls := calls + 1;
        }
      }
      var finish := ReadFinish(candidate.value);
      if finish.Some? {
        stop := finish;
      }
    }

    method HandleLine(line: seq<Byte>, out: Sink)
      modifies this`usage, this`stop, this`calls, out
      ensures Now(out) == OnLine(codec, old(Now(out)), line)
    {
      hide ReadLine, OnChunk;
      var payload := ReadLine(codec, line);
      match payload
      case NoPayload =>
      case Malformed => out.Put(Err(BadJson));
      case Value(v) => HandleChunk(v, out);
    }

    method Push(bytes: seq<Byte>, out: Sink)
      modifies this`buf, this`usage, this`stop, this`calls, out
      ensures Fed(Now(out), buf) == Framing.Push(Handler(codec), Fed(old(Now(out)), old(buf)), bytes)
    {
      hide OnLine;
      buf := buf + bytes;
      ghost var before, whole := Now(out), buf;
      while LINE_FEED in buf
        invariant Drain(Handler(codec), Now(out), buf) == Drain(Handler(codec), before, whole)
        decreases |buf|
      {
        var p := IndexOf(buf, LINE_FEED);
        assert buf[..|buf|] == buf;
        var line := buf[..p + 1];
        buf := buf[p + 1..];
        HandleLine(line, out);
      }
    }

    method Eof(out: Sink)
      modifies this, out
      ensures Now(out) == EmitFinal(End(Handler(codec), Fed(old(Now(out)), old(buf)))) && buf == []
    {
      hide OnLine;
      if buf != [] {
        var line := buf;
        buf := [];
        HandleLine(line, out);
      }
      ghost var before := Now(out);
      if !done {
        var final := EndTurn;
        if calls > 0 && (stop.None? || stop.value.EndTurn?) {
          final := StopForTool;
        } else if stop.Some? {
          final, stop := stop.value, None;
        }
        done := true;
        out.Put(Ok(UsageReport(usage)));
        out.Put(Ok(Done(final)));
        assert out.items == before.out + [Ok(UsageReport(usage)), Ok(Done(final))];
      }
    }
  }

  // ----- however the bytes are cut -----

  /** The same bytes, however they are cut into pushes before the end, decode to the same events and leave
      the same state: those of the stream handled line by line. */
  lemma DecodingIgnoresCuts(codec: Codec, chunks: seq<seq<Byte>>)
    ensures Decode(codec, chunks) == EmitFinal(HandleAll(Handler(codec), INITIAL, StreamLines(Flatten(chunks))))
  {
    hide OnLine, EmitFinal;
    CutsDoNotMatter(Handler(codec), Fed(INITIAL, []), chunks);
    assert [] + Flatten(chunks) == Flatten(chunks);
    StreamIsItsLines(Handler(codec), INITIAL, Flatten(chunks));
  }
}

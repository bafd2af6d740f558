/** The incremental decoder of the Anthropic stream. */
module AnthropicSse {
  import opened Strings
  import opened Protocol
  import opened Framing

  // ----- reading a data line -----

  /** What a data line says to the decoder. */
  datatype Wire =
    | MessageStart(usage: Usage)
    | ToolStart(index: nat, id: string, name: string)
    | ServerTool(id: string, name: string, hint: string)
    | ServerResult(id: string, content: string)
    | TextPiece(text: string)
    | ThinkingPiece(text: string)
    | ArgsPiece(index: nat, json: string)
    | CitationPiece(text: string, source: string)
    | BlockStop(index: nat)
    | MessageDelta(stop: Option<StopReason>, output: Option<nat>)
    | MessageStop
    | ErrorEvent(message: string)
    | BadLine
    | Irrelevant

  function EndsWith(s: string, suffix: string): bool {
    |suffix| <= |s| && s[|s| - |suffix|..] == suffix
  }

  function MapStop(reason: string): StopReason {
    if reason == "end_turn" then EndTurn
    else if reason == "max_tokens" then MaxTokens
    else if reason == "tool_use" then StopForTool
    else if reason == "stop_sequence" then StopSequence
    else if reason == "refusal" then Refusal
    else if reason == "pause_turn" then PauseTurn
    else Other(reason)
  }

  /** The first of some members that is a non-empty string. */
  function FirstText(v: Json, keys: seq<string>): Option<string>
    decreases |keys|
  {
    if keys == [] then None
    else if At(v, keys[0]).JStr? && At(v, keys[0]).s != "" then Some(At(v, keys[0]).s)
    else FirstText(v, keys[1..])
  }

  function GlimpseLine(s: string): string {
    var line := Trim(if Lines(s) == [] then s else Lines(s)[0]);
    if |line| <= 80 then line else line[..80] + "…"
  }

  function InputGlimpse(input: Json): string {
    match FirstText(input, ["query", "code", "command", "url", "input"])
    case Some(s) => GlimpseLine(s)
    case None => ""
  }

  function CitationSource(c: Json): string {
    match FirstText(c, ["document_title", "title", "url"])
    case Some(s) => s
    case None =>
      match AsNat(At(c, "document_index"))
      case Some(n) => "document " + Decimal(n)
      case None => ""
  }

  function ReadBlockStart(json: JsonText, v: Json): Wire {
    var block := At(v, "content_block");
    match AsStr(At(block, "type"))
    case None => Irrelevant
    case Some(t) =>
      if t == "tool_use" then ToolStart(NatOrZero(At(v, "index")), StrOr(At(block, "id"), ""), StrOr(At(block, "name"), ""))
      else if t == "server_tool_use" then
        ServerTool(StrOr(At(block, "id"), ""), StrOr(At(block, "name"), ""), InputGlimpse(At(block, "input")))
      else if EndsWith(t, "_tool_result") then
        ServerResult(StrOr(At(block, "tool_use_id"), ""), json.render(At(block, "content")))
      else Irrelevant
  }

  function ReadBlockDelta(v: Json): Wire {
    var delta := At(v, "delta");
    match AsStr(At(delta, "type"))
    case None => Irrelevant
    case Some(t) =>
      if t == "text_delta" then (if At(delta, "text").JStr? then TextPiece(At(delta, "text").s) else Irrelevant)
      else if t == "thinking_delta" then
        (if At(delta, "thinking").JStr? then ThinkingPiece(At(delta, "thinking").s) else Irrelevant)
      else if t == "input_json_delta" then
        (if At(delta, "partial_json").JStr?
         then ArgsPiece(NatOrZero(At(v, "index")), At(delta, "partial_json").s) else Irrelevant)
      else if t == "citations_delta" then
        CitationPiece(StrOr(At(At(delta, "citation"), "cited_text"), ""), CitationSource(At(delta, "citation")))
      else Irrelevant
  }

  function ReadMessageDelta(v: Json): Wire {
    var reason := AsStr(At(At(v, "delta"), "stop_reason"));
    MessageDelta(if reason.Some? then Some(MapStop(reason.value)) else None,
                 AsNat(At(At(v, "usage"), "output_tokens")))
  }

  function ReadMessageStart(v: Json): Wire {
    var u := At(At(v, "message"), "usage");
    MessageStart(Usage(NatOrZero(At(u, "input_tokens")), 0, NatOrZero(At(u, "cache_creation_input_tokens")),
                       NatOrZero(At(u, "cache_read_input_tokens"))))
  }

  function ReadEvent(json: JsonText, v: Json): Wire {
    match AsStr(At(v, "type"))
    case None => Irrelevant
    case Some(t) =>
      if t == "message_start" then ReadMessageStart(v)
      else if t == "content_block_start" then ReadBlockStart(json, v)
      else if t == "content_block_delta" then ReadBlockDelta(v)
      else if t == "content_block_stop" then BlockStop(NatOrZero(At(v, "index")))
      else if t == "message_delta" then ReadMessageDelta(v)
      else if t == "message_stop" then MessageStop
      else if t == "error" then ErrorEvent(StrOr(At(At(v, "error"), "message"), "unknown stream error"))
      else Irrelevant
  }

  function ReadWire(codec: Codec, line: seq<Byte>): Wire {
    match ReadLine(codec, line)
    case NoPayload => Irrelevant
    case Malformed => BadLine
    case Value(v) => ReadEvent(codec.json, v)
  }

  // ----- the decoder as a state machine -----

  datatype State = State(blocks: map<nat, string>, usage: Usage, stop: Option<StopReason>, done: bool, out: seq<Item>)

  const INITIAL := State(map[], NO_USAGE, None, false, [])

  function Emit(s: State, item: Item): State {
    s.(out := s.out + [item])
  }

  /** The usage and the end of the turn, once; the stop reason is used up. */
  function EmitFinal(s: State): State {
    if s.done then s
    else
      s.(done := true, stop := None,
         out := s.out + [Ok(UsageReport(s.usage)), Ok(Done(if s.stop.Some? then s.stop.value else EndTurn))])
  }

  function OnWire(s: State, w: Wire): State {
    match w
    case MessageStart(u) => s.(usage := Plus(s.usage, u))
    case ToolStart(index, id, name) => Emit(s, Ok(ToolUseStart(id, name))).(blocks := s.blocks[index := id])
    case ServerTool(id, name, hint) => Emit(s, Ok(ServerToolUse(id, name, hint)))
    case ServerResult(id, content) => Emit(s, Ok(Event.ServerToolResult(id, content)))
    case TextPiece(text) => Emit(s, Ok(TextDelta(text)))
    case ThinkingPiece(text) => Emit(s, Ok(ThinkingDelta(text)))
    case ArgsPiece(index, json) => if index in s.blocks then Emit(s, Ok(ToolUseDelta(s.blocks[index], json))) else s
    case CitationPiece(text, source) => Emit(s, Ok(Citation(text, source)))
    case BlockStop(index) =>
      if index in s.blocks then Emit(s, Ok(ToolUseEnd(s.blocks[index]))).(blocks := s.blocks - {index}) else s
    case MessageDelta(stop, output) =>
      s.(stop := if stop.Some? then stop else s.stop,
         usage := if output.Some? then s.usage.(output := output.value) else s.usage)
    case MessageStop => EmitFinal(s)
    case ErrorEvent(message) => EmitFinal(Emit(s, Err(StreamError(message))))
    case BadLine => Emit(s, Err(BadJson))
    case Irrelevant => s
  }

  function Handler(codec: Codec): (State, seq<Byte>) -> State {
    (s, line) => OnWire(s, ReadWire(codec, line))
  }

  /** A whole stream, pushed in pieces and ended. */
  function Decode(codec: Codec, chunks: seq<seq<Byte>>): State {
    EmitFinal(End(Handler(codec), PushAll(Handler(codec), Fed(INITIAL, []), chunks)))
  }

  // ----- the decoder as it runs -----

  class AnthropicDecoder {
    const codec: Codec
    var buf: seq<Byte>
    var blocks: map<nat, string>
    var usage: Usage
    var stop: Option<StopReason>
    var done: bool

    constructor (codec: Codec)
      ensures this.codec == codec && buf == [] && (blocks, usage, stop, done) == (map[], NO_USAGE, None, false)
    {
      this.codec := codec;
      buf, blocks, usage, stop, done := [], map[], NO_USAGE, None, false;
    }

    function Now(out: Sink): State
      reads this, out
    {
      State(blocks, usage, stop, done, out.items)
    }

    method EmitEnd(out: Sink)
      modifies this`done, this`stop, out
      ensures Now(out) == EmitFinal(old(Now(out)))
    {
      if done {
        return;
      }
      done := true;
      ghost var before := out.items;
      out.Put(Ok(UsageReport(usage)));
      out.Put(Ok(Done(if stop.Some? then stop.value else EndTurn)));
      assert out.items == before + [Ok(UsageReport(usage)), Ok(Done(if stop.Some? then stop.value else EndTurn))];
      stop := None;
    }

    method HandleEvent(w: Wire, out: Sink)
      modifies this`blocks, this`usage, this`stop, this`done, out
      ensures Now(out) == OnWire(old(Now(out)), w)
    {
      hide EmitFinal;
      match w
      case MessageStart(u) => usage := Plus(usage, u);
      case ToolStart(index, id, name) =>
        blocks := blocks[index := id];
        out.Put(Ok(ToolUseStart(id, name)));
      case ServerTool(id, name, hint) => out.Put(Ok(ServerToolUse(id, name, hint)));
      case ServerResult(id, content) => out.Put(Ok(Event.ServerToolResult(id, content)));
      case TextPiece(text) => out.Put(Ok(TextDelta(text)));
      case ThinkingPiece(text) => out.Put(Ok(ThinkingDelta(text)));
      case ArgsPiece(index, json) =>
        if index in blocks {
          out.Put(Ok(ToolUseDelta(blocks[index], json)));
        }
      case CitationPiece(text, source) => out.Put(Ok(Citation(text, source)));
      case BlockStop(index) =>
        if index in blocks {
          var id := blocks[index];
          blocks := blocks - {index};
          out.Put(Ok(ToolUseEnd(id)));
        }
      case MessageDelta(reason, output) =>
        if reason.Some? {
          stop := reason;
        }
        if output.Some? {
          usage := usage.(output := output.value);
        }
      case MessageStop => EmitEnd(out);
      case ErrorEvent(message) =>
        out.Put(Err(StreamError(message)));
        EmitEnd(out);
      case BadLine => out.Put(Err(BadJson));
      case Irrelevant =>
    }

    method Push(bytes: seq<Byte>, out: Sink)
      modifies this, out
      ensures Fed(Now(out), buf) == Framing.Push(Handler(codec), Fed(old(Now(out)), old(buf)), bytes)
    {
      hide OnWire, ReadWire;
      buf := buf + bytes;
      ghost var before, whole := Now(out), buf;
      while LINE_FEED in buf
        invariant Drain(Handler(codec), Now(out), buf) == Drain(Handler(codec), before, whole)
        decreases |buf|
      {
        var p := IndexOf(buf, LINE_FEED);
        assert buf[..|buf|] == buf;
        var line := buf[..p + 1];
        buf := buf[p + 1..];
        HandleEvent(ReadWire(codec, line), out);
      }
    }

    method Eof(out: Sink)
      modifies this, out
      ensures Now(out) == EmitFinal(End(Handler(codec), Fed(old(Now(out)), old(buf)))) && buf == []
    {
      hide OnWire, ReadWire, EmitFinal;
      if buf != [] {
        var line := buf;
        buf := [];
        HandleEvent(ReadWire(codec, line), out);
      }
      EmitEnd(out);
    }
  }

  // ----- however the bytes are cut -----

  /** The same bytes, however they are cut into pushes before the end, decode to the same events and leave
      the same state: those of the stream handled line by line. */
  lemma DecodingIgnoresCuts(codec: Codec, chunks: seq<seq<Byte>>)
    ensures Decode(codec, chunks) == EmitFinal(HandleAll(Handler(codec), INITIAL, StreamLines(Flatten(chunks))))
  {
    hide OnWire, ReadWire, EmitFinal;
    CutsDoNotMatter(Handler(codec), Fed(INITIAL, []), chunks);
    assert [] + Flatten(chunks) == Flatten(chunks);
    StreamIsItsLines(Handler(codec), INITIAL, Flatten(chunks));
  }

  // ----- the stream told without state -----

  function Wires(codec: Codec, lines: seq<seq<Byte>>): seq<Wire> {
    seq(|lines|, i requires 0 <= i < |lines| => ReadWire(codec, lines[i]))
  }

  /** The call open at a block index: the latest start there that no stop at that index follows. */
  function OpenAt(ws: seq<Wire>, index: nat): Option<string> {
    if ws == [] then None
    else
      var w := ws[|ws| - 1];
      if w.ToolStart? && w.index == index then Some(w.id)
      else if w.BlockStop? && w.index == index then None
      else OpenAt(ws[..|ws| - 1], index)
  }

  predicate HasEnded(ws: seq<Wire>) {
    exists i | 0 <= i < |ws| :: ws[i].MessageStop? || ws[i].ErrorEvent?
  }

  /** Input and cache tokens add up over message starts; the last output count stands. */
  function UsageIn(ws: seq<Wire>): Usage {
    if ws == [] then NO_USAGE
    else
      var u, w := UsageIn(ws[..|ws| - 1]), ws[|ws| - 1];
      if w.MessageStart? then Plus(u, w.usage)
      else if w.MessageDelta? && w.output.Some? then u.(output := w.output.value)
      else u
  }

  function StopIn(ws: seq<Wire>): Option<StopReason> {
    if ws == [] then None
    else
      var w := ws[|ws| - 1];
      if w.MessageDelta? && w.stop.Some? then w.stop else StopIn(ws[..|ws| - 1])
  }

  function Ending(ws: seq<Wire>): seq<Item> {
    if HasEnded(ws) then []
    else [Ok(UsageReport(UsageIn(ws))), Ok(Done(if StopIn(ws).Some? then StopIn(ws).value else EndTurn))]
  }

  /** What a wire event emits, given only the wire events before it. */
  function Emitted(before: seq<Wire>, w: Wire): seq<Item> {
    match w
    case ToolStart(_, id, name) => [Ok(ToolUseStart(id, name))]
    case ServerTool(id, name, hint) => [Ok(ServerToolUse(id, name, hint))]
    case ServerResult(id, content) => [Ok(Event.ServerToolResult(id, content))]
    case TextPiece(text) => [Ok(TextDelta(text))]
    case ThinkingPiece(text) => [Ok(ThinkingDelta(text))]
    case CitationPiece(text, source) => [Ok(Citation(text, source))]
    case ArgsPiece(index, json) =>
      if OpenAt(before, index).Some? then [Ok(ToolUseDelta(OpenAt(before, index).value, json))] else []
    case BlockStop(index) =>
      if OpenAt(before, index).Some? then [Ok(ToolUseEnd(OpenAt(before, index).value))] else []
    case MessageStop => Ending(before)
    case ErrorEvent(message) => [Err(StreamError(message))] + Ending(before)
    case BadLine => [Err(BadJson)]
    case _ => []
  }

  function Output(ws: seq<Wire>): seq<Item> {
    if ws == [] then [] else Output(ws[..|ws| - 1]) + Emitted(ws[..|ws| - 1], ws[|ws| - 1])
  }

  /** The decoder's fields are a summary of the wire events so far. */
  ghost predicate Summarises(s: State, ws: seq<Wire>) {
    && s.out == Output(ws)
    && (forall index: nat :: OpenAt(ws, index) == if index in s.blocks then Some(s.blocks[index]) else None)
    && s.usage == UsageIn(ws)
    && (s.done <==> HasEnded(ws))
    && (!s.done ==> s.stop == StopIn(ws))
  }

  lemma Snoc(ws: seq<Wire>, w: Wire)
    ensures Output(ws + [w]) == Output(ws) + Emitted(ws, w)
    ensures UsageIn(ws + [w]) == (if w.MessageStart? then Plus(UsageIn(ws), w.usage)
                                  else if w.MessageDelta? && w.output.Some? then UsageIn(ws).(output := w.output.value)
                                  else UsageIn(ws))
    ensures StopIn(ws + [w]) == if w.MessageDelta? && w.stop.Some? then w.stop else StopIn(ws)
    ensures HasEnded(ws + [w]) <==> HasEnded(ws) || w.MessageStop? || w.ErrorEvent?
  {
    hide Emitted;
    assert (ws + [w])[..|ws|] == ws && (ws + [w])[|ws|] == w;
    assert forall i | 0 <= i < |ws| :: (ws + [w])[i] == ws[i];
  }

  lemma OpenSnoc(ws: seq<Wire>, w: Wire, index: nat)
    ensures OpenAt(ws + [w], index) ==
            if w.ToolStart? && w.index == index then Some(w.id)
            else if w.BlockStop? && w.index == index then None else OpenAt(ws, index)
  {
    assert (ws + [w])[..|ws|] == ws;
  }

  lemma OnWireSummarises(s: State, ws: seq<Wire>, w: Wire)
    requires Summarises(s, ws)
    ensures Summarises(OnWire(s, w), ws + [w])
  {
    hide Output, UsageIn, StopIn, HasEnded, OpenAt;
    Snoc(ws, w);
    var r := OnWire(s, w);
    forall index: nat
      ensures OpenAt(ws + [w], index) == if index in r.blocks then Some(r.blocks[index]) else None
    {
      OpenSnoc(ws, w, index);
    }
    assert r.out == Output(ws + [w]) by {
      hide Plus;
      match w
      case ErrorEvent(message) =>
        assert s.out + ([Err(StreamError(message))] + Ending(ws)) == s.out + [Err(StreamError(message))] + Ending(ws);
      case _ =>
    }
  }

  lemma {:induction false} LinesSummarise(codec: Codec, s: State, ws: seq<Wire>, lines: seq<seq<Byte>>)
    requires Summarises(s, ws)
    ensures Summarises(HandleAll(Handler(codec), s, lines), ws + Wires(codec, lines))
    decreases |lines|
  {
    hide OnWire, ReadWire, Summarises;
    if lines == [] {
      assert ws + Wires(codec, lines) == ws;
    } else {
      var w := ReadWire(codec, lines[0]);
      OnWireSummarises(s, ws, w);
      LinesSummarise(codec, OnWire(s, w), ws + [w], lines[1..]);
      assert ws + [w] + Wires(codec, lines[1..]) == ws + Wires(codec, lines);
    }
  }

  /** However a stream is cut, what it decodes to is what its lines say one by one, each in the light of the
      lines before it: in particular a piece of arguments and a block stop carry the id of the call that
      was started at their index and not stopped since, and are dropped when there is none. */
  lemma DecodedOutput(codec: Codec, chunks: seq<seq<Byte>>)
    ensures var ws := Wires(codec, StreamLines(Flatten(chunks)));
            Decode(codec, chunks).out == Output(ws) + Ending(ws)
  {
    hide OnWire, ReadWire, HandleAll, StreamLines, Decode, OpenAt, Output, UsageIn, StopIn, HasEnded;
    var lines := StreamLines(Flatten(chunks));
    DecodingIgnoresCuts(codec, chunks);
    InitialSummarises();
    LinesSummarise(codec, INITIAL, [], lines);
    assert [] + Wires(codec, lines) == Wires(codec, lines);
    var r := HandleAll(Handler(codec), INITIAL, lines);
    if r.done {
      assert r.out + [] == r.out;
    }
  }

  lemma InitialSummarises()
    ensures Summarises(INITIAL, [])
  {
  }

  // ----- the shape of the output -----

  /** Neither a usage report nor an end. */
  predicate IsPlain(items: seq<Item>) {
    forall i | 0 <= i < |items| :: items[i].Ok? ==> !items[i].value.UsageReport? && !items[i].value.Done?
  }

  /** One usage report, directly followed by the only end. */
  ghost predicate EndsOnce(items: seq<Item>) {
    exists p :: EndsAt(items, p)
  }

  predicate EndsAt(items: seq<Item>, p: nat) {
    && p + 1 < |items| && items[p].Ok? && items[p].value.UsageReport? && items[p + 1].Ok? && items[p + 1].value.Done?
    && IsPlain(items[..p]) && IsPlain(items[p + 2..])
  }

  lemma MorePlain(items: seq<Item>, p: nat, more: seq<Item>)
    requires EndsAt(items, p) && IsPlain(more)
    ensures EndsAt(items + more, p)
  {
    assert (items + more)[..p] == items[..p];
    assert (items + more)[p + 2..] == items[p + 2..] + more;
  }

  lemma FirstEnd(items: seq<Item>, more: seq<Item>, usage: Usage, stop: StopReason)
    requires IsPlain(items) && IsPlain(more)
    ensures EndsAt(items + more + [Ok(UsageReport(usage)), Ok(Done(stop))], |items + more|)
  {
    var all := items + more + [Ok(UsageReport(usage)), Ok(Done(stop))];
    assert all[..|items + more|] == items + more;
    assert all[|items + more| + 2..] == [];
  }

  lemma {:induction false} OutputEnds(ws: seq<Wire>)
    ensures if HasEnded(ws) then EndsOnce(Output(ws)) else IsPlain(Output(ws))
  {
    if ws != [] {
      var n := |ws| - 1;
      OutputEnds(ws[..n]);
      EndedPrefix(ws);
      var before, w := ws[..n], ws[n];
      if HasEnded(before) {
        var p :| EndsAt(Output(before), p);
        MorePlain(Output(before), p, Emitted(before, w));
      } else if w.MessageStop? || w.ErrorEvent? {
        var more := if w.ErrorEvent? then [Err(StreamError(w.message))] else [];
        var usage, stop := UsageIn(before), if StopIn(before).Some? then StopIn(before).value else EndTurn;
        FirstEnd(Output(before), more, usage, stop);
        assert Output(ws) == Output(before) + more + [Ok(UsageReport(usage)), Ok(Done(stop))];
      }
    }
  }

  lemma EndedPrefix(ws: seq<Wire>)
    requires ws != []
    ensures HasEnded(ws) <==> HasEnded(ws[..|ws| - 1]) || ws[|ws| - 1].MessageStop? || ws[|ws| - 1].ErrorEvent?
  {
    Snoc(ws[..|ws| - 1], ws[|ws| - 1]);
    assert ws[..|ws| - 1] + [ws[|ws| - 1]] == ws;
  }

  /** Every stream, however it is cut, decodes to exactly one usage report, directly followed by the only end. */
  lemma DecodedEndsOnce(codec: Codec, chunks: seq<seq<Byte>>)
    ensures EndsOnce(Decode(codec, chunks).out)
  {
    hide Decode, StreamLines, Output, HasEnded, Wires, IsPlain;
    var ws := Wires(codec, StreamLines(Flatten(chunks)));
    DecodedOutput(codec, chunks);
    OutputEnds(ws);
    if HasEnded(ws) {
      assert Output(ws) + [] == Output(ws);
    } else {
      NothingIsPlain();
      FirstEnd(Output(ws), [], UsageIn(ws), if StopIn(ws).Some? then StopIn(ws).value else EndTurn);
      assert Output(ws) + [] == Output(ws);
    }
  }

  lemma NothingIsPlain()
    ensures IsPlain([])
  {
  }

  /** An open call was started at its index, and at that index nothing was started or stopped since. */
  lemma {:induction false} OpenWasStarted(ws: seq<Wire>, index: nat) returns (k: nat)
    requires OpenAt(ws, index).Some?
    ensures k < |ws| && ws[k].ToolStart? && ws[k].index == index && ws[k].id == OpenAt(ws, index).value
    ensures forall i :: k < i < |ws| ==> !(ws[i].ToolStart? && ws[i].index == index) && !(ws[i].BlockStop? && ws[i].index == index)
  {
    var n := |ws| - 1;
    if ws[n].ToolStart? && ws[n].index == index {
      k := n;
    } else {
      k := OpenWasStarted(ws[..n], index);
    }
  }
}

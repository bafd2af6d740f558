/** The events of the Anthropic stream as they are written, and what the decoder reads of them. */
module AnthropicWritten {
  import opened Strings
  import opened Protocol
  import opened Framing
  import opened AnthropicSse
  import opened SmallStreams

  // ----- what an event says -----

  /** The documented name of a stop reason. */
  function NameOf(stop: StopReason): string {
    match stop
    case EndTurn => "end_turn"
    case MaxTokens => "max_tokens"
    case StopForTool => "tool_use"
    case StopSequence => "stop_sequence"
    case Refusal => "refusal"
    case PauseTurn => "pause_turn"
    case Other(reason) => reason
  }

  /** A reason under a name of its own. */
  predicate IsNamed(stop: StopReason) {
    stop.Other? ==> stop.reason !in ["end_turn", "max_tokens", "tool_use", "stop_sequence", "refusal", "pause_turn"]
  }

  predicate IsCount(n: int) {
    0 <= n < 0x1_0000_0000_0000_0000
  }

  /** A count that is missing, or no count, is zero. */
  predicate SaysNumber(v: Json, n: nat) {
    if v.JNum? && IsCount(v.n) then n == v.n else n == 0
  }

  /** A text that is missing, or no text, is empty. */
  predicate SaysWord(v: Json, s: string) {
    if v.JStr? then s == v.s else s == ""
  }

  predicate SaysUsage(v: Json, u: Usage) {
    && SaysNumber(At(v, "input_tokens"), u.input) && u.output == 0
    && SaysNumber(At(v, "cache_creation_input_tokens"), u.cacheCreation)
    && SaysNumber(At(v, "cache_read_input_tokens"), u.cacheRead)
  }

  /** A short text of one line, as it is shown of a tool's input. */
  predicate IsShort(s: string) {
    s != "" && |s| <= 80 && '\n' !in s && Trim(s) == s
  }

  predicate IsText(v: Json) {
    v.JStr? && v.s != ""
  }

  /** No member under these keys is a text, or only an empty one. */
  predicate ShowsNone(v: Json, keys: seq<string>) {
    forall k | 0 <= k < |keys| :: !IsText(At(v, keys[k]))
  }

  /** This is the first of some members that is a text and not empty. */
  predicate ShowsFirst(v: Json, keys: seq<string>, text: string) {
    text != "" && exists k | 0 <= k < |keys| :: At(v, keys[k]) == JStr(text) && ShowsNone(v, keys[..k])
  }

  function FirstLine(text: string): string {
    if text == "" || text[0] == '\n' then "" else [text[0]] + FirstLine(text[1..])
  }

  /** A text is shown by its first line, trimmed, and of that by its first eighty characters. */
  ghost predicate IsGlimpse(text: string, hint: string) {
    exists t | TrimsTo(FirstLine(text), t) :: hint == if |t| <= 80 then t else t[..80] + "…"
  }

  /** A hosted tool's input is shown by the first of these members that has a text. */
  ghost predicate ShowsHint(input: Json, hint: string) {
    var keys := ["query", "code", "command", "url", "input"];
    if ShowsNone(input, keys) then hint == "" else exists text | ShowsFirst(input, keys, text) :: IsGlimpse(text, hint)
  }

  /** A citation is named after its document, or else by the document's number. */
  predicate ShowsSource(citation: Json, source: string) {
    var keys, index := ["document_title", "title", "url"], At(citation, "document_index");
    if !ShowsNone(citation, keys) then ShowsFirst(citation, keys, source)
    else source == if index.JNum? && IsCount(index.n) then "document " + Decimal(index.n) else ""
  }

  /** The type of a result of some tool that the service runs. */
  predicate IsResultType(t: string) {
    |t| >= 12 && t[|t| - 12..] == "_tool_result"
  }

  /** The start of a block. */
  ghost predicate SaysStart(json: JsonText, v: Json, w: Wire) {
    var block := At(v, "content_block");
    var t := At(block, "type");
    if t == JStr("tool_use") then
      w.ToolStart? && SaysNumber(At(v, "index"), w.index) && SaysWord(At(block, "id"), w.id) && SaysWord(At(block, "name"), w.name)
    else if t == JStr("server_tool_use") then
      && w.ServerTool? && SaysWord(At(block, "id"), w.id) && SaysWord(At(block, "name"), w.name)
      && ShowsHint(At(block, "input"), w.hint)
    else if t.JStr? && IsResultType(t.s) then
      w.ServerResult? && SaysWord(At(block, "tool_use_id"), w.id) && w.content == json.render(At(block, "content"))
    else w.Irrelevant?
  }

  /** A piece of a block. */
  predicate SaysPiece(v: Json, w: Wire) {
    var delta := At(v, "delta");
    var t := At(delta, "type");
    if t == JStr("text_delta") && At(delta, "text").JStr? then w == TextPiece(At(delta, "text").s)
    else if t == JStr("thinking_delta") && At(delta, "thinking").JStr? then w == ThinkingPiece(At(delta, "thinking").s)
    else if t == JStr("input_json_delta") && At(delta, "partial_json").JStr? then
      w.ArgsPiece? && SaysNumber(At(v, "index"), w.index) && w.json == At(delta, "partial_json").s
    else if t == JStr("citations_delta") then
      && w.CitationPiece? && SaysWord(At(At(delta, "citation"), "cited_text"), w.text)
      && ShowsSource(At(delta, "citation"), w.source)
    else w.Irrelevant?
  }

  predicate SaysStop(v: Json, stop: Option<StopReason>) {
    if v.JStr? then stop.Some? && IsNamed(stop.value) && NameOf(stop.value) == v.s else stop == None
  }

  predicate SaysOutput(v: Json, output: Option<nat>) {
    if v.JNum? && IsCount(v.n) then output == Some(v.n) else output == None
  }

  /** What an event says to the decoder, whatever other members it has. */
  ghost predicate Says(json: JsonText, v: Json, w: Wire) {
    var t := At(v, "type");
    if t == JStr("message_start") then w.MessageStart? && SaysUsage(At(At(v, "message"), "usage"), w.usage)
    else if t == JStr("content_block_start") then SaysStart(json, v, w)
    else if t == JStr("content_block_delta") then SaysPiece(v, w)
    else if t == JStr("content_block_stop") then w.BlockStop? && SaysNumber(At(v, "index"), w.index)
    else if t == JStr("message_delta") then
      && w.MessageDelta? && SaysStop(At(At(v, "delta"), "stop_reason"), w.stop)
      && SaysOutput(At(At(v, "usage"), "output_tokens"), w.output)
    else if t == JStr("message_stop") then w.MessageStop?
    else if t == JStr("error") then
      var message := At(At(v, "error"), "message");
      w.ErrorEvent? && w.message == if message.JStr? then message.s else "unknown stream error"
    else w.Irrelevant?
  }

  lemma NamesAreRead(v: Json, stop: Option<StopReason>)
    ensures SaysStop(v, stop) <==> stop == if v.JStr? then Some(MapStop(v.s)) else None
  {
  }

  lemma {:induction false} FirstTextIs(v: Json, keys: seq<string>, text: string)
    ensures ShowsNone(v, keys) ==> FirstText(v, keys) == None
    ensures ShowsFirst(v, keys, text) ==> FirstText(v, keys) == Some(text)
    decreases |keys|
  {
    hide At;
    if keys != [] {
      FirstTextIs(v, keys[1..], text);
      assert forall k | 1 <= k < |keys| :: keys[1..][k - 1] == keys[k];
      if ShowsFirst(v, keys, text) && !IsText(At(v, keys[0])) {
        var k :| 0 <= k < |keys| && At(v, keys[k]) == JStr(text) && ShowsNone(v, keys[..k]);
        assert k > 0;
        assert keys[1..][..k - 1] == keys[1..k];
        assert ShowsNone(v, keys[1..][..k - 1]);
      } else if ShowsFirst(v, keys, text) {
        var k :| 0 <= k < |keys| && At(v, keys[k]) == JStr(text) && ShowsNone(v, keys[..k]);
        if k > 0 {
          assert keys[..k][0] == keys[0];
        }
      }
    }
  }

  lemma {:induction false} FirstLineEnds(text: string)
    ensures FirstLine(text) == text[..IndexOf(text, '\n')]
  {
    if text != "" && text[0] != '\n' {
      FirstLineEnds(text[1..]);
    }
  }

  lemma TrimStripped(s: string)
    ensures Trim(StripCarriageReturn(s)) == Trim(s)
  {
    if s != "" && s[|s| - 1] == '\r' {
      TrimWithout(s[..|s| - 1]);
      assert s == s[..|s| - 1] + "\r";
    }
  }

  lemma TrimWithout(r: string)
    ensures Trim(r + "\r") == Trim(r)
  {
    hide Trim, IsWhitespace;
    var s, t := r + "\r", Trim(r);
    TrimExactly(r, t);
    var i, j :| 0 <= i <= j <= |r| && TrimsAt(r, i, j) && r[i..j] == t;
    assert s[i..j] == t && s[..i] == r[..i] && s[j..] == r[j..] + "\r";
    ReturnIsWhite();
    assert TrimsAt(s, i, j);
    TrimExactly(s, t);
  }

  lemma ReturnIsWhite()
    ensures IsWhitespace('\r')
  {
  }

  lemma GlimpseIsRead(text: string, hint: string)
    ensures IsGlimpse(text, hint) <==> GlimpseLine(text) == hint
  {
    hide Trim, TrimsTo, IndexOf, StripCarriageReturn;
    FirstLineEnds(text);
    var line := FirstLine(text);
    forall t
      ensures TrimsTo(line, t) <==> Trim(line) == t
    {
      TrimExactly(line, t);
    }
    TrimStripped(line);
    assert text[..|text|] == text;
  }

  lemma {:induction false} FirstTextShows(v: Json, keys: seq<string>)
    ensures FirstText(v, keys).None? ==> ShowsNone(v, keys)
    ensures FirstText(v, keys).Some? ==> ShowsFirst(v, keys, FirstText(v, keys).value) && !ShowsNone(v, keys)
    decreases |keys|
  {
    hide At;
    if keys != [] {
      FirstTextShows(v, keys[1..]);
      assert forall k | 1 <= k < |keys| :: keys[1..][k - 1] == keys[k];
      if IsText(At(v, keys[0])) {
        assert keys[..0] == [] && ShowsNone(v, keys[..0]);
      } else if FirstText(v, keys).Some? {
        var k :| 0 <= k < |keys| - 1 && At(v, keys[1..][k]) == JStr(FirstText(v, keys).value) && ShowsNone(v, keys[1..][..k]);
        assert forall j | 1 <= j < k + 1 :: keys[1..][..k][j - 1] == keys[j];
        assert ShowsNone(v, keys[..k + 1]);
        assert At(v, keys[k + 1]) == JStr(FirstText(v, keys).value);
      }
    }
  }

  lemma HintIsRead(input: Json, hint: string)
    ensures ShowsHint(input, hint) <==> InputGlimpse(input) == hint
  {
    hide GlimpseLine, At, IsGlimpse, FirstText, ShowsNone, ShowsFirst;
    var keys := ["query", "code", "command", "url", "input"];
    FirstTextShows(input, keys);
    forall text
      ensures ShowsFirst(input, keys, text) ==> FirstText(input, keys) == Some(text)
      ensures IsGlimpse(text, hint) <==> GlimpseLine(text) == hint
    {
      FirstTextIs(input, keys, text);
      GlimpseIsRead(text, hint);
    }
  }

  lemma SourceIsRead(citation: Json, source: string)
    ensures ShowsSource(citation, source) <==> CitationSource(citation) == source
  {
    hide At, FirstText, ShowsNone, ShowsFirst, Decimal;
    FirstTextIs(citation, ["document_title", "title", "url"], source);
    FirstTextShows(citation, ["document_title", "title", "url"]);
  }

  lemma SuffixIsRead(t: string)
    ensures IsResultType(t) <==> EndsWith(t, "_tool_result")
  {
    assert |"_tool_result"| == 12;
  }

  lemma StartIsRead(json: JsonText, v: Json, w: Wire)
    ensures SaysStart(json, v, w) <==> ReadBlockStart(json, v) == w
  {
    hide At, EndsWith, IsResultType, ShowsHint, InputGlimpse;
    var block := At(v, "content_block");
    if At(block, "type").JStr? {
      SuffixIsRead(At(block, "type").s);
    }
    if w.ServerTool? {
      HintIsRead(At(block, "input"), w.hint);
    }
  }

  lemma PieceIsRead(v: Json, w: Wire)
    ensures SaysPiece(v, w) <==> ReadBlockDelta(v) == w
  {
    hide At, ShowsSource, CitationSource;
    if w.CitationPiece? {
      SourceIsRead(At(At(v, "delta"), "citation"), w.source);
    }
  }

  lemma DeltaIsRead(v: Json, w: Wire)
    ensures ReadMessageDelta(v) == w <==>
            && w.MessageDelta? && SaysStop(At(At(v, "delta"), "stop_reason"), w.stop)
            && SaysOutput(At(At(v, "usage"), "output_tokens"), w.output)
  {
    hide At, SaysStop, MapStop;
    if w.MessageDelta? {
      NamesAreRead(At(At(v, "delta"), "stop_reason"), w.stop);
    }
  }

  lemma MessageIsRead(v: Json, w: Wire)
    ensures ReadMessageStart(v) == w <==> w.MessageStart? && SaysUsage(At(At(v, "message"), "usage"), w.usage)
  {
    hide At;
  }

  lemma NumberIsRead(v: Json, n: nat)
    ensures SaysNumber(v, n) <==> NatOrZero(v) == n
  {
  }

  /** The decoder reads every event as exactly what it says. */
  lemma ReadsWhatIsSaid(json: JsonText, v: Json, w: Wire)
    ensures Says(json, v, w) <==> ReadEvent(json, v) == w
  {
    hide At, ReadMessageStart, ReadBlockStart, ReadBlockDelta, ReadMessageDelta, NatOrZero;
    hide SaysUsage, SaysStart, SaysPiece, SaysStop, SaysOutput, SaysNumber;
    MessageIsRead(v, w);
    if w.BlockStop? {
      NumberIsRead(At(v, "index"), w.index);
    }
    StartIsRead(json, v, w);
    PieceIsRead(v, w);
    DeltaIsRead(v, w);
  }

  /** A line without a value says nothing, a line that is no JSON is broken. */
  ghost predicate LineSays(codec: Codec, line: seq<Byte>, w: Wire) {
    match ReadLine(codec, line)
    case NoPayload => w.Irrelevant?
    case Malformed => w.BadLine?
    case Value(v) => Says(codec.json, v, w)
  }

  /** Every stream, however its bytes are cut, decodes to what its lines say, each in the light of those
      before it. */
  lemma DecodesWhatIsSaid(codec: Codec, chunks: seq<seq<Byte>>) returns (said: seq<Wire>)
    ensures var lines := StreamLines(Flatten(chunks));
            |lines| == |said| && forall i | 0 <= i < |lines| :: LineSays(codec, lines[i], said[i])
    ensures Decode(codec, chunks).out == Output(said) + Ending(said)
  {
    hide StreamLines, Decode, Output, Ending, Says, ReadEvent, ReadLine;
    var lines := StreamLines(Flatten(chunks));
    said := Wires(codec, lines);
    forall i | 0 <= i < |lines|
      ensures LineSays(codec, lines[i], said[i])
    {
      if ReadLine(codec, lines[i]).Value? {
        ReadsWhatIsSaid(codec.json, ReadLine(codec, lines[i]).v, said[i]);
      }
    }
    DecodedOutput(codec, chunks);
  }

  // ----- the events as they are written -----

  function StartOf(index: nat, block: Json): Json {
    JObj([Field("type", JStr("content_block_start")), Field("index", JNum(index)), Field("content_block", block)])
  }

  function DeltaOf(index: nat, kind: string, key: string, value: Json): Json {
    JObj([Field("type", JStr("content_block_delta")), Field("index", JNum(index)),
          Field("delta", JObj([Field("type", JStr(kind)), Field(key, value)]))])
  }

  function UsageOfStart(u: Usage): Json {
    JObj([Field("input_tokens", JNum(u.input)), Field("cache_creation_input_tokens", JNum(u.cacheCreation)),
          Field("cache_read_input_tokens", JNum(u.cacheRead))])
  }

  /** The event as the service writes it; `payload` is the content of a server tool's result. */
  function Written(w: Wire, payload: Json): Json {
    match w
    case MessageStart(u) =>
      JObj([Field("type", JStr("message_start")), Field("message", JObj([Field("usage", UsageOfStart(u))]))])
    case ToolStart(index, id, name) =>
      StartOf(index, JObj([Field("type", JStr("tool_use")), Field("id", JStr(id)), Field("name", JStr(name))]))
    case ServerTool(id, name, hint) =>
      StartOf(0, JObj([Field("type", JStr("server_tool_use")), Field("id", JStr(id)), Field("name", JStr(name)),
                       Field("input", JObj([Field("query", JStr(hint))]))]))
    case ServerResult(id, _) =>
      StartOf(0, JObj([Field("type", JStr("web_search_tool_result")), Field("tool_use_id", JStr(id)), Field("content", payload)]))
    case TextPiece(text) => DeltaOf(0, "text_delta", "text", JStr(text))
    case ThinkingPiece(text) => DeltaOf(0, "thinking_delta", "thinking", JStr(text))
    case ArgsPiece(index, piece) => DeltaOf(index, "input_json_delta", "partial_json", JStr(piece))
    case CitationPiece(text, source) =>
      DeltaOf(0, "citations_delta", "citation", JObj([Field("cited_text", JStr(text)), Field("document_title", JStr(source))]))
    case BlockStop(index) => JObj([Field("type", JStr("content_block_stop")), Field("index", JNum(index))])
    case MessageDelta(stop, output) =>
      JObj([Field("type", JStr("message_delta")),
            Field("delta", JObj([Field("stop_reason", if stop.Some? then JStr(NameOf(stop.value)) else JNull)])),
            Field("usage", JObj([Field("output_tokens", if output.Some? then JNum(output.value) else JNull)]))])
    case MessageStop => JObj([Field("type", JStr("message_stop"))])
    case ErrorEvent(message) =>
      JObj([Field("type", JStr("error")), Field("error", JObj([Field("message", JStr(message))]))])
    case _ => JObj([Field("type", JStr("ping"))])
  }

  /** What can be written: counts of 64 bits, reasons under names of their own, hints of one line. */
  predicate CanBeWritten(json: JsonText, w: Wire, payload: Json) {
    match w
    case MessageStart(u) => IsCount(u.input) && IsCount(u.cacheCreation) && IsCount(u.cacheRead) && u.output == 0
    case ToolStart(index, _, _) => IsCount(index)
    case ServerTool(_, _, hint) => IsShort(hint)
    case ServerResult(_, content) => json.render(payload) == content
    case ArgsPiece(index, _) => IsCount(index)
    case CitationPiece(_, source) => source != ""
    case BlockStop(index) => IsCount(index)
    case MessageDelta(stop, output) => (stop.Some? ==> IsNamed(stop.value)) && (output.Some? ==> IsCount(output.value))
    case BadLine => false
    case _ => true
  }

  lemma AtStart(index: nat, block: Json)
    ensures At(StartOf(index, block), "type") == JStr("content_block_start")
    ensures At(StartOf(index, block), "index") == JNum(index) && At(StartOf(index, block), "content_block") == block
  {
    hide FindField;
    var v := StartOf(index, block);
    Member(v.fields, 0);
    Member(v.fields, 1);
    Member(v.fields, 2);
  }

  lemma AtDelta(index: nat, kind: string, key: string, value: Json)
    requires key != "type"
    ensures var v := DeltaOf(index, kind, key, value);
            && At(v, "type") == JStr("content_block_delta") && At(v, "index") == JNum(index)
            && At(At(v, "delta"), "type") == JStr(kind) && At(At(v, "delta"), key) == value
  {
    hide FindField;
    var v := DeltaOf(index, kind, key, value);
    var delta := JObj([Field("type", JStr(kind)), Field(key, value)]);
    Member(v.fields, 0);
    Member(v.fields, 1);
    Member(v.fields, 2);
    Member(delta.fields, 0);
    Member(delta.fields, 1);
  }

  lemma ShortIsShown(hint: string)
    requires IsShort(hint)
    ensures ShowsHint(JObj([Field("query", JStr(hint))]), hint)
  {
    hide FindField, TrimsTo, Trim;
    var input, keys := JObj([Field("query", JStr(hint))]), ["query", "code", "command", "url", "input"];
    OneMember(input.fields[0]);
    assert keys[0] == "query" && IsText(At(input, keys[0])) && keys[..0] == [];
    assert ShowsFirst(input, keys, hint);
    FirstLineEnds(hint);
    IndexOfAbsent(hint, '\n');
    assert hint[..|hint|] == hint;
    TrimExactly(hint, hint);
  }

  lemma TitleIsShown(text: string, title: string)
    requires title != ""
    ensures var c := JObj([Field("cited_text", JStr(text)), Field("document_title", JStr(title))]);
            At(c, "cited_text") == JStr(text) && ShowsSource(c, title)
  {
    hide FindField;
    var c := JObj([Field("cited_text", JStr(text)), Field("document_title", JStr(title))]);
    var keys := ["document_title", "title", "url"];
    TwoMembers(c.fields[0], c.fields[1]);
    assert keys[0] == "document_title" && IsText(At(c, keys[0])) && keys[..0] == [];
  }

  lemma WrittenTool(json: JsonText, index: nat, id: string, name: string, payload: Json)
    requires IsCount(index)
    ensures var w := ToolStart(index, id, name); SaysStart(json, Written(w, payload), w)
    ensures At(Written(ToolStart(index, id, name), payload), "type") == JStr("content_block_start")
  {
    hide FindField, ShowsHint;
    var block := [Field("type", JStr("tool_use")), Field("id", JStr(id)), Field("name", JStr(name))];
    AtStart(index, JObj(block));
    ThreeMembers(block[0], block[1], block[2]);
  }

  lemma WrittenServerTool(json: JsonText, id: string, name: string, hint: string, payload: Json)
    requires IsShort(hint)
    ensures var w := ServerTool(id, name, hint); SaysStart(json, Written(w, payload), w)
    ensures At(Written(ServerTool(id, name, hint), payload), "type") == JStr("content_block_start")
  {
    hide FindField, ShowsHint, IsShort;
    var input := JObj([Field("query", JStr(hint))]);
    var block := [Field("type", JStr("server_tool_use")), Field("id", JStr(id)), Field("name", JStr(name)), Field("input", input)];
    AtStart(0, JObj(block));
    FourMembers(block[0], block[1], block[2], block[3]);
    ShortIsShown(hint);
  }

  lemma WrittenResult(json: JsonText, id: string, payload: Json)
    ensures var w := ServerResult(id, json.render(payload)); SaysStart(json, Written(w, payload), w)
    ensures At(Written(ServerResult(id, json.render(payload)), payload), "type") == JStr("content_block_start")
  {
    hide FindField, ShowsHint;
    var block := [Field("type", JStr("web_search_tool_result")), Field("tool_use_id", JStr(id)), Field("content", payload)];
    AtStart(0, JObj(block));
    ThreeMembers(block[0], block[1], block[2]);
    assert "web_search_tool_result"[10..] == "_tool_result";
  }

  lemma WrittenDeltas(json: JsonText, w: Wire, payload: Json)
    requires CanBeWritten(json, w, payload) && (w.TextPiece? || w.ThinkingPiece? || w.ArgsPiece? || w.CitationPiece?)
    ensures Says(json, Written(w, payload), w)
  {
    hide FindField, ShowsSource, ShowsHint;
    match w
    case TextPiece(text) => AtDelta(0, "text_delta", "text", JStr(text));
    case ThinkingPiece(text) => AtDelta(0, "thinking_delta", "thinking", JStr(text));
    case ArgsPiece(index, piece) => AtDelta(index, "input_json_delta", "partial_json", JStr(piece));
    case CitationPiece(text, source) =>
      var c := [Field("cited_text", JStr(text)), Field("document_title", JStr(source))];
      AtDelta(0, "citations_delta", "citation", JObj(c));
      TitleIsShown(text, source);
  }

  lemma WrittenStart(json: JsonText, u: Usage, payload: Json)
    requires CanBeWritten(json, MessageStart(u), payload)
    ensures Says(json, Written(MessageStart(u), payload), MessageStart(u))
  {
    hide FindField;
    var usage := UsageOfStart(u);
    var message := JObj([Field("usage", usage)]);
    ThreeMembers(usage.fields[0], usage.fields[1], usage.fields[2]);
    OneMember(Field("usage", usage));
    TwoMembers(Field("type", JStr("message_start")), Field("message", message));
  }

  lemma StopIsSaid(stop: Option<StopReason>)
    requires stop.Some? ==> IsNamed(stop.value)
    ensures SaysStop(if stop.Some? then JStr(NameOf(stop.value)) else JNull, stop)
  {
  }

  lemma OutputIsSaid(output: Option<nat>)
    requires output.Some? ==> IsCount(output.value)
    ensures SaysOutput(if output.Some? then JNum(output.value) else JNull, output)
  {
  }

  lemma WrittenEnd(json: JsonText, stop: Option<StopReason>, output: Option<nat>, payload: Json)
    requires CanBeWritten(json, MessageDelta(stop, output), payload)
    ensures Says(json, Written(MessageDelta(stop, output), payload), MessageDelta(stop, output))
  {
    hide FindField, SaysStop, SaysOutput;
    StopIsSaid(stop);
    OutputIsSaid(output);
    var reason := Field("stop_reason", if stop.Some? then JStr(NameOf(stop.value)) else JNull);
    var count := Field("output_tokens", if output.Some? then JNum(output.value) else JNull);
    OneMember(reason);
    OneMember(count);
    ThreeMembers(Field("type", JStr("message_delta")), Field("delta", JObj([reason])), Field("usage", JObj([count])));
  }

  /** Every event that can be written says what it is written for. */
  lemma WrittenSays(json: JsonText, w: Wire, payload: Json)
    requires CanBeWritten(json, w, payload)
    ensures Says(json, Written(w, payload), w)
  {
    hide FindField, SaysStart, SaysPiece, SaysStop, SaysOutput, SaysUsage;
    match w
    case MessageStart(u) => WrittenStart(json, u, payload);
    case ToolStart(index, id, name) => WrittenTool(json, index, id, name, payload);
    case ServerTool(id, name, hint) => WrittenServerTool(json, id, name, hint, payload);
    case ServerResult(id, _) => WrittenResult(json, id, payload);
    case BlockStop(index) => TwoMembers(Field("type", JStr("content_block_stop")), Field("index", JNum(index)));
    case MessageDelta(stop, output) => WrittenEnd(json, stop, output, payload);
    case MessageStop => OneMember(Field("type", JStr("message_stop")));
    case ErrorEvent(message) =>
      OneMember(Field("message", JStr(message)));
      TwoMembers(Field("type", JStr("error")), Field("error", JObj([Field("message", JStr(message))])));
    case Irrelevant => OneMember(Field("type", JStr("ping")));
    case _ => WrittenDeltas(json, w, payload);
  }

  /** Reading undoes writing. */
  lemma WrittenReadsBack(json: JsonText, w: Wire, payload: Json)
    requires CanBeWritten(json, w, payload)
    ensures ReadEvent(json, Written(w, payload)) == w
  {
    hide Says, Written, CanBeWritten, ReadEvent;
    WrittenSays(json, w, payload);
    ReadsWhatIsSaid(json, Written(w, payload), w);
  }

  // ----- a stream -----

  /** A message with a cached prompt, a text, and a tool call whose arguments come in two pieces. */
  function Script(): seq<Wire> {
    [MessageStart(Usage(10, 0, 3, 4)), TextPiece("Hi"), ToolStart(1, "t", "read_file"), ArgsPiece(1, "{"), ArgsPiece(1, "}"),
     BlockStop(1), MessageDelta(Some(StopForTool), Some(9)), MessageStop]
  }

  /** The digit `k` stands for the k-th event. */
  function Library(): JsonText {
    JsonText((_: Json) => "",
             (s: string) => if |s| == 1 && '1' <= s[0] <= '8' then Some(Written(Script()[s[0] as int - 49], JNull)) else None)
  }

  /** The data lines of the events from the k-th on. */
  function LinesFrom(k: nat): seq<seq<Byte>>
    requires k <= 8
    decreases 8 - k
  {
    if k == 8 then [] else [DataLine(49 + k)] + LinesFrom(k + 1)
  }

  lemma ScriptIsWritten(k: nat)
    requires k < 8
    ensures CanBeWritten(Library(), Script()[k], JNull)
  {
    hide Library;
  }

  lemma EventIsRead(k: nat)
    requires k < 8
    ensures ReadWire(CodecOf(Library()), DataLine(49 + k)) == Script()[k]
  {
    hide Written, Script, ReadEvent, ReadLine, DataLine, CanBeWritten;
    var c: Byte := 49 + k;
    DigitLine(Library(), c);
    ScriptLength();
    ScriptIsWritten(k);
    WrittenReadsBack(Library(), Script()[k], JNull);
    assert Library().parse([c as char]) == Some(Written(Script()[k], JNull));
  }

  lemma ScriptLength()
    ensures |Script()| == 8
  {
  }

  function OnWires(s: State, ws: seq<Wire>): State
    decreases |ws|
  {
    if ws == [] then s else OnWires(OnWire(s, ws[0]), ws[1..])
  }

  lemma {:induction false} ScriptHandled(s: State, k: nat)
    requires k <= 8
    ensures HandleAll(Handler(CodecOf(Library())), s, LinesFrom(k)) == OnWires(s, Script()[k..])
    decreases 8 - k
  {
    hide ReadWire, OnWire, Library, Script, DataLine, CodecOf;
    ScriptLength();
    if k < 8 {
      EventIsRead(k);
      ScriptHandled(OnWire(s, Script()[k]), k + 1);
      assert LinesFrom(k)[1..] == LinesFrom(k + 1) && LinesFrom(k)[0] == DataLine(49 + k);
      assert Script()[k..][1..] == Script()[k + 1..];
    }
  }

  lemma {:induction false} StreamOfLines(k: nat)
    requires k <= 8
    ensures StreamLines(Flatten(LinesFrom(k))) == LinesFrom(k)
    decreases 8 - k
  {
    hide DataLine;
    if k < 8 {
      StreamOfLines(k + 1);
      assert LinesFrom(k)[1..] == LinesFrom(k + 1);
      FirstDataLine(49 + k, Flatten(LinesFrom(k + 1)));
    }
  }

  lemma OnWiresNext(s: State, ws: seq<Wire>, k: nat)
    requires k < |ws|
    ensures OnWires(s, ws[k..]) == OnWires(OnWire(s, ws[k]), ws[k + 1..])
  {
    hide OnWire;
    assert ws[k..][1..] == ws[k + 1..];
  }

  /** The state after the first piece of arguments. */
  function Midway(): State {
    State(map[1 := "t"], Usage(10, 0, 3, 4), None, false,
          [Ok(TextDelta("Hi")), Ok(ToolUseStart("t", "read_file")), Ok(ToolUseDelta("t", "{"))])
  }

  lemma FirstHalf()
    ensures OnWires(INITIAL, Script()) == OnWires(Midway(), Script()[4..])
  {
    hide OnWires, Plus;
    var ws := Script();
    var u := Usage(10, 0, 3, 4);
    NothingPlus(u);
    assert ws[0..] == ws;
    OnWiresNext(INITIAL, ws, 0);
    var s1 := State(map[], u, None, false, []);
    assert OnWire(INITIAL, ws[0]) == s1;
    OnWiresNext(s1, ws, 1);
    var s2 := State(map[], u, None, false, [Ok(TextDelta("Hi"))]);
    assert OnWire(s1, ws[1]) == s2;
    OnWiresNext(s2, ws, 2);
    var s3 := State(map[1 := "t"], u, None, false, [Ok(TextDelta("Hi")), Ok(ToolUseStart("t", "read_file"))]);
    assert OnWire(s2, ws[2]) == s3;
    OnWiresNext(s3, ws, 3);
    assert OnWire(s3, ws[3]) == Midway();
  }

  /** What the stream decodes to. */
  function Said(): seq<Item> {
    [Ok(TextDelta("Hi")), Ok(ToolUseStart("t", "read_file")), Ok(ToolUseDelta("t", "{")), Ok(ToolUseDelta("t", "}")),
     Ok(ToolUseEnd("t")), Ok(UsageReport(Usage(10, 9, 3, 4))), Ok(Done(StopForTool))]
  }

  lemma SecondHalf()
    ensures OnWires(Midway(), Script()[4..]) == State(map[], Usage(10, 9, 3, 4), None, true, Said())
  {
    hide OnWires;
    var ws, s4 := Script(), Midway();
    OnWiresNext(s4, ws, 4);
    var s5 := s4.(out := s4.out + [Ok(ToolUseDelta("t", "}"))]);
    assert OnWire(s4, ws[4]) == s5;
    OnWiresNext(s5, ws, 5);
    var s6 := State(map[], Usage(10, 0, 3, 4), None, false, s5.out + [Ok(ToolUseEnd("t"))]);
    assert map[1 := "t"] - {1} == map[];
    assert OnWire(s5, ws[5]) == s6;
    OnWiresNext(s6, ws, 6);
    var s7 := State(map[], Usage(10, 9, 3, 4), Some(StopForTool), false, s6.out);
    assert OnWire(s6, ws[6]) == s7;
    OnWiresNext(s7, ws, 7);
    assert OnWire(s7, ws[7]) == State(map[], Usage(10, 9, 3, 4), None, true, Said());
    NoMoreWires(OnWire(s7, ws[7]), ws);
  }

  lemma NoMoreWires(s: State, ws: seq<Wire>)
    ensures OnWires(s, ws[|ws|..]) == s
  {
  }

  /** Pushed as bytes, in pieces of any size, the script decodes to exactly these items and this usage. */
  lemma ScriptDecodes(chunks: seq<seq<Byte>>)
    requires Flatten(chunks) == Flatten(LinesFrom(0))
    ensures Decode(CodecOf(Library()), chunks).out == Said()
    ensures Decode(CodecOf(Library()), chunks).usage == Usage(10, 9, 3, 4)
  {
    hide Library, Script, CodecOf, LinesFrom, OnWires;
    DecodingIgnoresCuts(CodecOf(Library()), chunks);
    StreamOfLines(0);
    ScriptHandled(INITIAL, 0);
    FirstHalf();
    SecondHalf();
    assert Script()[0..] == Script();
  }
}

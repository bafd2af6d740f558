/** Two Gemini streams, byte by byte: what comes back of their calls, and what their ids do to each other. */
module GeminiWitness {
  import opened Strings
  import opened Protocol
  import opened History
  import opened Framing
  import opened SmallStreams
  import opened GeminiSse
  import opened GeminiStream
  import opened GeminiWire
  import opened StaleReads
  import opened TurnModel

  // ----- a small JSON library -----

  function PathArgs(): Json {
    JObj([Field("path", JStr("a"))])
  }

  function Chunk(parts: seq<Json>): Json {
    JObj([Field("candidates", JArr([JObj([Field("content", JObj([Field("parts", JArr(parts))]))])]))])
  }

  /** A chunk with two calls, the first of them with a signature that contains the separator. */
  function TwoCalls(): Json {
    Chunk([CallJson(CallId(0, "s#1"), "read_file", PathArgs()), CallJson(CallId(1, ""), "list_dir", JObj([]))])
  }

  function OneCall(name: string): Json {
    Chunk([CallJson(CallId(0, ""), name, PathArgs())])
  }

  /** Values are written as one digit. */
  function Library(): JsonText {
    JsonText(v => if v == PathArgs() then "1" else "2",
             s => if s == "1" then Some(PathArgs())
                  else if s == "2" then Some(JObj([]))
                  else if s == "3" then Some(TwoCalls())
                  else if s == "4" then Some(OneCall("read_file"))
                  else if s == "5" then Some(OneCall("write_file"))
                  else None)
  }

  function SmallCodec(): Codec {
    CodecOf(Library())
  }

  lemma ChunkParts(parts: seq<Json>)
    ensures ReadCandidate(Chunk(parts)).Some? && ReadParts(ReadCandidate(Chunk(parts)).value) == parts
  {
    hide FindField;
    var content := JObj([Field("parts", JArr(parts))]);
    FindFirst(content.fields, "parts");
    var candidate := JObj([Field("content", content)]);
    FindFirst(candidate.fields, "content");
    FindFirst(Chunk(parts).fields, "candidates");
  }

  lemma ChunkCalls(c: Byte, parts: seq<Json>)
    requires 49 <= c <= 57 && Library().parse([c as char]) == Some(Chunk(parts))
    ensures StreamCalls(SmallCodec(), StreamLines(Flatten([DataLine(c)]))) == CallsIn(parts)
  {
    hide CallsIn, Chunk, ReadLine, ReadCandidate, ReadParts, DataLine, Library;
    DigitLine(Library(), c);
    OneLine(c);
    ChunkParts(parts);
    assert [DataLine(c)][1..] == [] && CallsIn(parts) + [] == CallsIn(parts);
  }

  lemma ParseDigits()
    ensures var parse := Library().parse;
            && parse("1") == Some(PathArgs()) && parse("2") == Some(JObj([])) && parse("3") == Some(TwoCalls())
            && parse("4") == Some(OneCall("read_file")) && parse("5") == Some(OneCall("write_file"))
  {
    hide TwoCalls, OneCall, PathArgs;
    assert "1"[0] != "2"[0] && "1"[0] != "3"[0] && "2"[0] != "3"[0] && "1"[0] != "4"[0] && "2"[0] != "4"[0] && "3"[0] != "4"[0];
    assert "1"[0] != "5"[0] && "2"[0] != "5"[0] && "3"[0] != "5"[0] && "4"[0] != "5"[0];
  }

  lemma DigitStrings()
    ensures [51 as char] == "3" && [52 as char] == "4" && [53 as char] == "5"
  {
  }

  // ----- one stream -----

  function FirstCall(): Part {
    CallPart("read_file", PathArgs(), "s#1")
  }

  function SecondCall(): Part {
    CallPart("list_dir", JObj([]), "")
  }

  lemma StreamOfTwo()
    ensures StreamCalls(SmallCodec(), StreamLines(Flatten([DataLine(51)]))) == [FirstCall(), SecondCall()]
  {
    hide Chunk, CallJson, ReadPart, CallId, StreamCalls, StreamLines, Library, DataLine, SmallCodec;
    ParseDigits();
    DigitStrings();
    var a := CallJson(CallId(0, "s#1"), "read_file", PathArgs());
    var b := CallJson(CallId(1, ""), "list_dir", JObj([]));
    ChunkCalls(51, [a, b]);
    CallReadsBack(0, "read_file", PathArgs(), "s#1");
    CallReadsBack(1, "list_dir", JObj([]), "");
    OnePart(a);
    OnePart(b);
    CallsInAppend([a], [b]);
    assert [a] + [b] == [a, b];
  }

  lemma TheirArgumentsSurvive()
    ensures ArgumentsSurvive(Library(), [FirstCall(), SecondCall()])
  {
    hide TwoCalls, OneCall;
    ParseDigits();
    NotBlank('1');
    NotBlank('2');
  }

  lemma NotBlank(c: char)
    requires !IsWhitespace(c)
    ensures Trim([c]) == [c]
  {
  }

  /** A stream with two calls, one of them signed with a separator in its signature, comes back as it was. */
  lemma TwoCallsComeBack()
    ensures var codec := SmallCodec();
            var turn := Fold(Events(Decode(codec, [DataLine(51)]).out));
            var h := [UserText("task"), AssistantMessage(codec.json, turn)];
            CallsIn(Parts(h[1].content, Names(h, map[]))) == [FirstCall(), SecondCall()]
  {
    hide Fold, Events, Decode, DataLine, Library, StreamLines, StreamCalls, CallsIn, Parts, Names, ArgumentsSurvive, AssistantMessage;
    hide FirstCall, SecondCall, AllResent, Contents, Entry;
    var codec := SmallCodec();
    var turn := Fold(Events(Decode(codec, [DataLine(51)]).out));
    var h := [UserText("task"), AssistantMessage(codec.json, turn)];
    StreamOfTwo();
    TheirArgumentsSurvive();
    CallsComeBack(codec, [DataLine(51)], h, 1);
  }

  // ----- two streams -----

  function Okay(id: string): ContentBlock {
    ToolResult(id, "ok", false, [])
  }

  /** Two rounds of calls, each answered. */
  function TwoRounds(first: Message, second: Message, id: string): Transcript {
    [UserText("task"), first, Message(User, [Okay(id)]), second, Message(User, [Okay(id)])]
  }

  /** The message folded from a stream of one line. */
  function Turned(c: Byte): Message {
    AssistantMessage(Library(), Fold(Events(Decode(SmallCodec(), [DataLine(c)]).out)))
  }

  lemma StreamOfOne(c: Byte, name: string)
    requires (c == 52 && name == "read_file") || (c == 53 && name == "write_file")
    ensures Fold(Events(Decode(SmallCodec(), [DataLine(c)]).out)).calls == [ToolCall(CallId(0, ""), name, "1")]
  {
    hide Chunk, CallJson, ReadPart, CallId, StreamCalls, StreamLines, Library, DataLine, Fold, Events, Decode;
    ParseDigits();
    DigitStrings();
    var a := CallJson(CallId(0, ""), name, PathArgs());
    ChunkCalls(c, [a]);
    CallReadsBack(0, name, PathArgs(), "");
    OnePart(a);
    TurnHoldsCalls(SmallCodec(), [DataLine(c)]);
    assert Library().render(PathArgs()) == "1" by { PrintPath(); }
  }

  lemma PrintPath()
    ensures Library().render(PathArgs()) == "1"
  {
  }

  /** Two streams one after the other: both number their call zero, and the answer to the first is sent
      back under the name of the second. */
  lemma SecondStreamTakesOver()
    ensures Uses(Turned(52).content) == [ToolUse(CallId(0, ""), "read_file", PathArgs())]
    ensures Uses(Turned(53).content) == [ToolUse(CallId(0, ""), "write_file", PathArgs())]
    ensures ResultPart(Okay(CallId(0, "")), Names(TwoRounds(Turned(52), Turned(53), CallId(0, "")), map[])) ==
            ResponseJson("write_file", "ok", false)
  {
    hide Fold, Events, Decode, DataLine, Library, CallId, ResponseJson, ResultPart, Names, Uses, AssistantMessage, TwoRounds, PathArgs;
    StreamOfOne(52, "read_file");
    StreamOfOne(53, "write_file");
    MessageUses(Fold(Events(Decode(SmallCodec(), [DataLine(52)]).out)), CallId(0, ""), "read_file");
    MessageUses(Fold(Events(Decode(SmallCodec(), [DataLine(53)]).out)), CallId(0, ""), "write_file");
    SentUnderLastName(Turned(52), Turned(53), CallId(0, ""), "read_file", "write_file");
  }

  lemma MessageUses(turn: Turn, id: string, name: string)
    requires turn.calls == [ToolCall(id, name, "1")]
    ensures Uses(AssistantMessage(Library(), turn).content) == [ToolUse(id, name, PathArgs())]
  {
    hide Library, PathArgs, CallBlocks, Uses;
    OneCallBlock(id, name);
    var u := ToolUse(id, name, PathArgs());
    OneUse(u);
    if turn.text == "" {
      assert [] + [u] == [u];
    } else {
      TextThenUse(Text(turn.text, false), u);
      assert [Text(turn.text, false)] + [u] == [Text(turn.text, false), u];
    }
  }

  lemma OneCallBlock(id: string, name: string)
    ensures CallBlocks(Library(), [ToolCall(id, name, "1")]) == [ToolUse(id, name, PathArgs())]
  {
    hide Library, PathArgs, ParsedArgs;
    PathParses();
    var calls := [ToolCall(id, name, "1")];
    assert calls[..0] == [];
  }

  lemma PathParses()
    ensures ParsedArgs(Library(), "1") == PathArgs()
  {
    hide Library, PathArgs, Trim;
    ParseDigits();
    NotBlank('1');
  }

  lemma OneUse(u: ContentBlock)
    requires u.ToolUse?
    ensures Uses([u]) == [u]
  {
    assert [u][..0] == [] && Uses([]) == [];
  }

  lemma TextThenUse(t: ContentBlock, u: ContentBlock)
    requires t.Text? && u.ToolUse?
    ensures Uses([t, u]) == [u]
  {
    assert [t, u][..1] == [t] && [t][..0] == [] && Uses([]) == [];
  }

  lemma SentUnderLastName(first: Message, second: Message, id: string, a: string, b: string)
    requires Uses(first.content) == [ToolUse(id, a, PathArgs())] && Uses(second.content) == [ToolUse(id, b, PathArgs())]
    ensures ResultPart(Okay(id), Names(TwoRounds(first, second, id), map[])) == ResponseJson(b, "ok", false)
  {
    hide Names, Uses, ResponseJson, PathArgs;
    var h := TwoRounds(first, second, id);
    FiveMessages(h);
    NoUses(id);
    var us := [ToolUse(id, a, PathArgs()), ToolUse(id, b, PathArgs())];
    assert AllUses(h) == us;
    var q := ResponseNames(h, 0, Okay(id));
    assert us[1].ToolUse? && us[1].id == us[0].id;
    assert q == 1;
  }

  lemma NoUses(id: string)
    ensures Uses(UserText("task").content) == [] && Uses([Okay(id)]) == []
  {
    var t, r := UserText("task").content, [Okay(id)];
    assert t[..0] == [] && r[..0] == [] && Uses([]) == [];
  }

  lemma FiveMessages(h: Transcript)
    requires |h| == 5
    ensures AllUses(h) == Uses(h[0].content) + Uses(h[1].content) + Uses(h[2].content) + Uses(h[3].content) + Uses(h[4].content)
  {
    hide Uses;
    assert h[..5] == h && h[..5][..4] == h[..4] && h[..4][..3] == h[..3] && h[..3][..2] == h[..2];
    assert h[..2][..1] == h[..1] && h[..1][..0] == [];
    assert AllUses(h[..1]) == Uses(h[0].content);
    assert AllUses(h[..2]) == AllUses(h[..1]) + Uses(h[1].content);
    assert AllUses(h[..3]) == AllUses(h[..2]) + Uses(h[2].content);
    assert AllUses(h[..4]) == AllUses(h[..3]) + Uses(h[3].content);
  }
}

/** The transcript as Gemini contents: the resend half of the call and signature round trip. */
module GeminiWire {
  import opened Strings
  import opened Protocol
  import opened History
  import opened Framing
  import opened GeminiSse
  import opened GeminiStream
  import opened TurnModel
  import opened StaleReads

  function MediaPart(source: MediaSource): Json {
    match source
    case Base64(mediaType, data) =>
      JObj([Field("inlineData", JObj([Field("mimeType", JStr(mediaType)), Field("data", JStr(data))]))])
    case Url(url) => JObj([Field("fileData", JObj([Field("fileUri", JStr(url))]))])
    case File(fileId) => JObj([Field("fileData", JObj([Field("fileUri", JStr(fileId))]))])
    case PlainText(text) => JObj([Field("text", JStr(text))])
  }

  function CallJson(id: string, name: string, input: Json): Json {
    var call := Field("functionCall", JObj([Field("name", JStr(name)), Field("args", input)]));
    var p := IndexOf(id, '#');
    if p == |id| then JObj([call]) else JObj([call, Field("thoughtSignature", JStr(id[p + 1..]))])
  }

  function ResponseJson(name: string, content: string, isError: bool): Json {
    JObj([Field("functionResponse", JObj([Field("name", JStr(name)),
      Field("response", JObj([Field(if isError then "error" else "result", JStr(content))]))]))])
  }

  function ResultPart(b: ContentBlock, names: map<string, string>): Json
    requires b.ToolResult?
  {
    ResponseJson(if b.id in names then names[b.id] else "", b.content, b.isError)
  }

  /** The parts one block becomes; a result is named after the call it answers. */
  function BlockParts(b: ContentBlock, names: map<string, string>): seq<Json> {
    match b
    case Text(text, _) => [JObj([Field("text", JStr(text))])]
    case Thinking(text) => [JObj([Field("text", JStr(text))])]
    case Image(source) => [MediaPart(source)]
    case Document(source, _) => [MediaPart(source)]
    case ToolUse(id, name, input) => [CallJson(id, name, input)]
    case ToolResult(_, _, _, images) =>
      [ResultPart(b, names)]
      + seq(|images|, i requires 0 <= i < |images| => MediaPart(Base64(images[i].mediaType, images[i].data)))
  }

  function Parts(blocks: Blocks, names: map<string, string>): seq<Json> {
    if blocks == [] then [] else BlockParts(blocks[0], names) + Parts(blocks[1..], names)
  }

  /** The name of the latest call with each id. */
  function NamesIn(blocks: Blocks, names: map<string, string>): map<string, string> {
    if blocks == [] then names
    else NamesIn(blocks[1..], if blocks[0].ToolUse? then names[blocks[0].id := blocks[0].name] else names)
  }

  function Names(h: Transcript, names: map<string, string>): map<string, string> {
    if h == [] then names else Names(h[1..], NamesIn(h[0].content, names))
  }

  function Entry(m: Message, names: map<string, string>): Json {
    JObj([Field("role", JStr(if m.role.User? then "user" else "model")), Field("parts", JArr(Parts(m.content, names)))])
  }

  function Contents(h: Transcript): Json {
    JArr(seq(|h|, i requires 0 <= i < |h| => Entry(h[i], Names(h, map[]))))
  }

  /** `build_contents`: index the call names, then map every message. */
  method BuildContents(messages: Transcript) returns (contents: Json)
    ensures contents == Contents(messages)
  {
    hide Entry;
    var names: map<string, string> := map[];
    for i := 0 to |messages|
      invariant Names(messages[i..], names) == Names(messages, map[])
    {
      var blocks := messages[i].content;
      ghost var before := names;
      for l := 0 to |blocks|
        invariant NamesIn(blocks[l..], names) == NamesIn(blocks, before)
      {
        assert blocks[l..][1..] == blocks[l + 1..];
        match blocks[l]
        case ToolUse(id, name, _) => names := names[id := name];
        case _ =>
      }
      assert messages[i..][1..] == messages[i + 1..];
    }
    var entries := [];
    for i := 0 to |messages|
      invariant entries == Contents(messages).items[..i]
    {
      entries := entries + [Entry(messages[i], names)];
    }
    contents := JArr(entries);
  }

  // ----- the round trip -----

  /** A resent call reads back as the call it came from. */
  lemma CallReadsBack(n: nat, name: string, args: Json, signature: string)
    ensures ReadPart(CallJson(CallId(n, signature), name, args)) == CallPart(name, args, signature)
  {
    hide CallId, IndexOf;
    SignatureReadsBack(n, signature);
    var id := CallId(n, signature);
    var p := IndexOf(id, '#');
    FieldsOfCall(CallJson(id, name, args), name, args, if p == |id| then "" else id[p + 1..]);
  }

  lemma FieldsOfCall(v: Json, name: string, args: Json, signature: string)
    requires var call := Field("functionCall", JObj([Field("name", JStr(name)), Field("args", args)]));
             (v == JObj([call]) && signature == "") || v == JObj([call, Field("thoughtSignature", JStr(signature))])
    ensures ReadPart(v) == CallPart(name, args, signature)
  {
    hide FindField;
    var call := JObj([Field("name", JStr(name)), Field("args", args)]);
    FindFirst(call.fields, "name");
    FindSecond(call.fields, "args");
    FindFirst(v.fields, "functionCall");
    if |v.fields| == 1 {
      FindNone(v.fields, "thoughtSignature");
    } else {
      FindSecond(v.fields, "thoughtSignature");
    }
  }

  lemma FindFirst(fields: seq<Field>, key: string)
    requires fields != [] && fields[0].key == key
    ensures FindField(fields, key) == Some(fields[0].value)
  {
  }

  lemma FindSecond(fields: seq<Field>, key: string)
    requires |fields| >= 2 && fields[0].key != key && fields[1].key == key
    ensures FindField(fields, key) == Some(fields[1].value)
  {
    FindFirst(fields[1..], key);
  }

  lemma FindNone(fields: seq<Field>, key: string)
    requires |fields| == 1 && fields[0].key != key
    ensures FindField(fields, key) == None
  {
    assert fields[1..] == [] && FindField([], key) == None;
  }

  lemma {:induction false} CallsInAppend(a: seq<Json>, b: seq<Json>)
    ensures CallsIn(a + b) == CallsIn(a) + CallsIn(b)
    decreases |a|
  {
    hide ReadPart;
    if a == [] {
      assert a + b == b;
    } else {
      CallsInAppend(a[1..], b);
      TailOfAppend(a, b);
      Regroup(if ReadPart(a[0]).CallPart? then [ReadPart(a[0])] else [], CallsIn(a[1..]), CallsIn(b));
    }
  }

  lemma {:induction false} PartsAppend(a: Blocks, b: Blocks, names: map<string, string>)
    ensures Parts(a + b, names) == Parts(a, names) + Parts(b, names)
  {
    hide BlockParts;
    if a == [] {
      assert a + b == b;
    } else {
      PartsAppend(a[1..], b, names);
      Regroup(BlockParts(a[0], names), Parts(a[1..], names), Parts(b, names));
      TailOfAppend(a, b);
    }
  }

  lemma OnePart(v: Json)
    ensures CallsIn([v]) == if ReadPart(v).CallPart? then [ReadPart(v)] else []
  {
    hide ReadPart;
    assert [v][1..] == [] && CallsIn([]) == [];
  }

  lemma OneBlock(b: ContentBlock, names: map<string, string>)
    ensures Parts([b], names) == BlockParts(b, names)
  {
    hide BlockParts;
    assert [b][1..] == [] && Parts([], names) == [];
    assert BlockParts(b, names) + [] == BlockParts(b, names);
  }

  /** What the arguments of a call are after being printed, accumulated and parsed. */
  function Reparsed(json: JsonText, args: Json): Json {
    ParsedArgs(json, json.render(args))
  }

  /** A call as it is sent back: its arguments have been through the JSON library. */
  function Resent(json: JsonText, call: Part): Part {
    match call
    case CallPart(name, args, signature) => CallPart(name, Reparsed(json, args), signature)
    case _ => call
  }

  function AllResent(json: JsonText, calls: seq<Part>): (r: seq<Part>)
    ensures |r| == |calls|
  {
    seq(|calls|, k requires 0 <= k < |calls| => Resent(json, calls[k]))
  }

  /** The arguments of every call print to a text that parses back to them. */
  predicate ArgumentsSurvive(json: JsonText, calls: seq<Part>) {
    forall k | 0 <= k < |calls| && calls[k].CallPart? :: Reparsed(json, calls[k].args) == calls[k].args
  }

  /** The blocks of a turn's calls, sent back, read as the calls the turn was folded from. */
  lemma {:induction false} BlocksReadBack(json: JsonText, calls: seq<Part>, names: map<string, string>)
    requires AllCalls(calls)
    ensures CallsIn(Parts(CallBlocks(json, Expected(json, calls)), names)) == AllResent(json, calls)
  {
    hide CallJson, CallId, ReadPart, CallBlocks, Expected, Parts, CallsIn, ParsedArgs;
    NoBlocks(json, names);
    if calls != [] {
      var n := |calls| - 1;
      var c := calls[n];
      var args := Reparsed(json, c.args);
      BlocksReadBack(json, calls[..n], names);
      var expected := Expected(json, calls);
      var b := ToolUse(CallId(n, c.signature), c.name, args);
      LastBlock(json, calls);
      PartsAppend(CallBlocks(json, expected[..n]), [b], names);
      OneBlock(b, names);
      CallsInAppend(Parts(CallBlocks(json, expected[..n]), names), [CallJson(CallId(n, c.signature), c.name, args)]);
      OnePart(CallJson(CallId(n, c.signature), c.name, args));
      CallReadsBack(n, c.name, args, c.signature);
      assert AllResent(json, calls) == AllResent(json, calls[..n]) + [CallPart(c.name, args, c.signature)];
    }
  }

  lemma NoBlocks(json: JsonText, names: map<string, string>)
    ensures CallsIn(Parts(CallBlocks(json, Expected(json, [])), names)) == []
  {
    assert Expected(json, []) == [];
  }

  lemma LastBlock(json: JsonText, calls: seq<Part>)
    requires AllCalls(calls) && calls != []
    ensures var n := |calls| - 1;
            var c := calls[n];
            && |Expected(json, calls)| == |calls| && Expected(json, calls)[..n] == Expected(json, calls[..n])
            && CallBlocks(json, Expected(json, calls)) ==
               CallBlocks(json, Expected(json, calls)[..n]) + [ToolUse(CallId(n, c.signature), c.name, Reparsed(json, c.args))]
  {
    hide CallId, ParsedArgs;
  }

  /** Sending calls back changes none of them exactly if the arguments of all of them survive. */
  lemma UnchangedExactly(json: JsonText, calls: seq<Part>)
    requires AllCalls(calls)
    ensures AllResent(json, calls) == calls <==> ArgumentsSurvive(json, calls)
  {
    hide Reparsed;
    if AllResent(json, calls) == calls {
      forall k | 0 <= k < |calls|
        ensures Reparsed(json, calls[k].args) == calls[k].args
      {
        assert AllResent(json, calls)[k] == calls[k];
      }
    }
  }

  lemma TextIsNoCall(text: string)
    ensures !ReadPart(JObj([Field("text", JStr(text))])).CallPart?
  {
    hide FindField;
    FindNone([Field("text", JStr(text))], "functionCall");
  }

  /** Decoding a stream, folding it into a turn, taking the turn into any transcript and building that
      transcript's contents gives back the stream's function calls, in order, with the same names and
      signatures, whatever a signature contains and whatever the JSON library does; their arguments are
      what printing and parsing makes of them, so all of it comes back exactly if those survive. */
  lemma CallsComeBack(codec: Codec, chunks: seq<seq<Byte>>, h: Transcript, i: nat)
    requires i < |h| && h[i] == AssistantMessage(codec.json, Fold(Events(Decode(codec, chunks).out)))
    ensures Contents(h).items[i] == Entry(h[i], Names(h, map[]))
    ensures var calls := StreamCalls(codec, StreamLines(Flatten(chunks)));
            var back := CallsIn(Parts(h[i].content, Names(h, map[])));
            && back == AllResent(codec.json, calls)
            && (back == calls <==> ArgumentsSurvive(codec.json, calls))
  {
    hide Fold, Events, Decode, StreamCalls, StreamLines, Expected, Names, BlockParts, ReadPart, CallBlocks, Reparsed;
    var turn := Fold(Events(Decode(codec, chunks).out));
    var calls := StreamCalls(codec, StreamLines(Flatten(chunks)));
    var names := Names(h, map[]);
    TurnHoldsCalls(codec, chunks);
    BlocksReadBack(codec.json, calls, names);
    UnchangedExactly(codec.json, calls);
    if turn.text == "" {
      assert h[i].content == CallBlocks(codec.json, turn.calls);
    } else {
      var b := Text(turn.text, false);
      TextBlockHasNoCall(turn.text, names);
      PartsAppend([b], CallBlocks(codec.json, turn.calls), names);
      CallsInAppend(Parts([b], names), Parts(CallBlocks(codec.json, turn.calls), names));
    }
  }

  lemma TextBlockHasNoCall(text: string, names: map<string, string>)
    ensures CallsIn(Parts([Text(text, false)], names)) == []
  {
    hide ReadPart;
    OneBlock(Text(text, false), names);
    OnePart(JObj([Field("text", JStr(text))]));
    TextIsNoCall(text);
  }

  // ----- the names of results -----

  /** No later call has the id of call `q`. */
  ghost predicate IsLastUse(us: Blocks, q: nat) {
    q < |us| && us[q].ToolUse? && forall r | q < r < |us| && us[r].ToolUse? :: us[r].id != us[q].id
  }

  /** The name of the last call with an id. */
  function LastName(us: Blocks, id: string): Option<string> {
    if us == [] then None
    else
      var u := us[|us| - 1];
      if u.ToolUse? && u.id == id then Some(u.name) else LastName(us[..|us| - 1], id)
  }

  function Known(names: map<string, string>, id: string): Option<string> {
    if id in names then Some(names[id]) else None
  }

  function OrElse(a: Option<string>, b: Option<string>): Option<string> {
    if a.Some? then a else b
  }

  lemma {:induction false} NamesInSnoc(blocks: Blocks, b: ContentBlock, names: map<string, string>)
    ensures NamesIn(blocks + [b], names) ==
            if b.ToolUse? then NamesIn(blocks, names)[b.id := b.name] else NamesIn(blocks, names)
    decreases |blocks|
  {
    if blocks == [] {
      assert blocks + [b] == [b] && [b][1..] == [];
    } else {
      NamesInSnoc(blocks[1..], b, if blocks[0].ToolUse? then names[blocks[0].id := blocks[0].name] else names);
      assert (blocks + [b])[1..] == blocks[1..] + [b] && (blocks + [b])[0] == blocks[0];
    }
  }

  lemma {:induction false} BlocksName(blocks: Blocks, names: map<string, string>, id: string)
    ensures Known(NamesIn(blocks, names), id) == OrElse(LastName(Uses(blocks), id), Known(names, id))
    decreases |blocks|
  {
    if blocks != [] {
      var n := |blocks| - 1;
      BlocksName(blocks[..n], names, id);
      NamesInSnoc(blocks[..n], blocks[n], names);
      assert blocks == blocks[..n] + [blocks[n]];
      if blocks[n].ToolUse? {
        assert Uses(blocks)[..|Uses(blocks)| - 1] == Uses(blocks[..n]);
      } else {
        assert Uses(blocks) == Uses(blocks[..n]);
      }
    }
  }

  lemma {:induction false} NamesSnoc(h: Transcript, m: Message, names: map<string, string>)
    ensures Names(h + [m], names) == NamesIn(m.content, Names(h, names))
    decreases |h|
  {
    hide NamesIn;
    if h == [] {
      assert h + [m] == [m] && [m][1..] == [];
    } else {
      NamesSnoc(h[1..], m, NamesIn(h[0].content, names));
      assert (h + [m])[1..] == h[1..] + [m] && (h + [m])[0] == h[0];
    }
  }

  lemma {:induction false} LastNameAppend(a: Blocks, b: Blocks, id: string)
    ensures LastName(a + b, id) == OrElse(LastName(b, id), LastName(a, id))
    decreases |b|
  {
    if b == [] {
      assert a + b == a;
    } else {
      LastNameAppend(a, b[..|b| - 1], id);
      assert (a + b)[..|a + b| - 1] == a + b[..|b| - 1];
    }
  }

  lemma {:induction false} TranscriptName(h: Transcript, id: string)
    ensures Known(Names(h, map[]), id) == LastName(AllUses(h), id)
    decreases |h|
  {
    hide NamesIn, Uses, LastName;
    if h == [] {
      NothingNamed(id);
    } else {
      var n := |h| - 1;
      TranscriptName(h[..n], id);
      NamesSnoc(h[..n], h[n], map[]);
      BlocksName(h[n].content, Names(h[..n], map[]), id);
      LastNameAppend(AllUses(h[..n]), Uses(h[n].content), id);
      assert h == h[..n] + [h[n]];
    }
  }

  lemma NothingNamed(id: string)
    ensures LastName([], id) == None
  {
  }

  lemma {:induction false} LastUseNames(us: Blocks, p: nat) returns (q: nat)
    requires p < |us| && us[p].ToolUse?
    ensures p <= q && IsLastUse(us, q) && us[q].id == us[p].id && LastName(us, us[p].id) == Some(us[q].name)
    decreases |us|
  {
    var n := |us| - 1;
    if us[n].ToolUse? && us[n].id == us[p].id {
      q := n;
    } else {
      q := LastUseNames(us[..n], p);
      assert forall r | 0 <= r < n :: us[..n][r] == us[r];
    }
  }

  /** A function response carries the name of the last call with its id, so it carries the name of the call
      it answers exactly if those names agree. Every stream numbers its calls from zero again, so this is
      not a matter of course. */
  lemma ResponseNames(h: Transcript, p: nat, result: ContentBlock) returns (q: nat)
    requires p < |AllUses(h)| && AllUses(h)[p].ToolUse? && result.ToolResult? && result.id == AllUses(h)[p].id
    ensures p <= q && IsLastUse(AllUses(h), q) && AllUses(h)[q].id == AllUses(h)[p].id
    ensures ResultPart(result, Names(h, map[])) == ResponseJson(AllUses(h)[q].name, result.content, result.isError)
    ensures ResultPart(result, Names(h, map[])) == ResponseJson(AllUses(h)[p].name, result.content, result.isError) <==>
            AllUses(h)[q].name == AllUses(h)[p].name
  {
    hide AllUses, LastName, Names;
    q := LastUseNames(AllUses(h), p);
    TranscriptName(h, result.id);
  }
}

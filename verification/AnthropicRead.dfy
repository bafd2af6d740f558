/** The prompt of an Anthropic body as the service reads it: what is sent is what was meant. */
module AnthropicRead {
  import opened Strings
  import opened Protocol
  import opened History
  import opened Request
  import opened AnthropicWire
  import opened AnthropicBody

  // ----- reading -----

  /** How long a marked block is to be cached. */
  datatype Lifetime = Unmarked | FiveMinutes | OneHour

  function ReadMark(v: Json): Lifetime {
    if At(v, "cache_control") == JNull then Unmarked
    else if At(At(v, "cache_control"), "ttl") == JStr("1h") then OneHour
    else FiveMinutes
  }

  function ReadString(v: Json, key: string): string {
    StrOr(At(v, key), "")
  }

  predicate Says(v: Json, key: string, word: string) {
    At(v, key) == JStr(word)
  }

  function ReadSource(v: Json): Option<MediaSource> {
    if Says(v, "type", "base64") then Some(Base64(ReadString(v, "media_type"), ReadString(v, "data")))
    else if Says(v, "type", "url") then Some(Url(ReadString(v, "url")))
    else if Says(v, "type", "file") then Some(File(ReadString(v, "file_id")))
    else if Says(v, "type", "text") && Says(v, "media_type", "text/plain") then Some(PlainText(ReadString(v, "data")))
    else None
  }

  function ReadImage(v: Json): Option<ToolImage> {
    match ReadSource(At(v, "source"))
    case Some(Base64(mediaType, data)) => if Says(v, "type", "image") then Some(ToolImage(mediaType, data)) else None
    case _ => None
  }

  function ReadImages(items: seq<Json>): seq<Option<ToolImage>> {
    seq(|items|, i requires 0 <= i < |items| => ReadImage(items[i]))
  }

  /** The content of a result is its text, or an array of its text and its images. */
  function ReadResultText(v: Json): string {
    if v.JArr? && v.items != [] && Says(v.items[0], "type", "text") then ReadString(v.items[0], "text") else StrOr(v, "")
  }

  function ReadResultImages(v: Json): seq<Option<ToolImage>> {
    if v.JArr? && v.items != [] then ReadImages(v.items[1..]) else []
  }

  /** What one block says. */
  datatype Reading =
    | TextRead(text: string, mark: Lifetime)
    | ImageRead(source: Option<MediaSource>)
    | DocumentRead(source: Option<MediaSource>, citations: bool)
    | CallRead(id: string, name: string, input: Json)
    | ResultRead(id: string, content: string, isError: bool, images: seq<Option<ToolImage>>)
    | Unknown

  function ReadBlock(v: Json): Reading {
    if Says(v, "type", "text") then TextRead(ReadString(v, "text"), ReadMark(v))
    else if Says(v, "type", "image") then ImageRead(ReadSource(At(v, "source")))
    else if Says(v, "type", "document") then
      DocumentRead(ReadSource(At(v, "source")), At(At(v, "citations"), "enabled") == JBool(true))
    else if Says(v, "type", "tool_use") then CallRead(ReadString(v, "id"), ReadString(v, "name"), At(v, "input"))
    else if Says(v, "type", "tool_result") then
      ResultRead(ReadString(v, "tool_use_id"), ReadResultText(At(v, "content")), At(v, "is_error") == JBool(true),
                 ReadResultImages(At(v, "content")))
    else Unknown
  }

  datatype MessageReading = MessageReading(role: Option<Role>, blocks: seq<Reading>)

  function ReadRole(v: Json): Option<Role> {
    if v == JStr("user") then Some(User) else if v == JStr("assistant") then Some(Assistant) else None
  }

  function ReadBlocks(items: seq<Json>): seq<Reading> {
    seq(|items|, i requires 0 <= i < |items| => ReadBlock(items[i]))
  }

  function ReadMessage(v: Json): MessageReading {
    MessageReading(ReadRole(At(v, "role")), if At(v, "content").JArr? then ReadBlocks(At(v, "content").items) else [])
  }

  // ----- what was meant -----

  function MarkOf(cache: bool, longLived: bool): Lifetime {
    if !cache then Unmarked else if longLived then OneHour else FiveMinutes
  }

  function ImagesMeant(images: seq<ToolImage>): seq<Option<ToolImage>> {
    seq(|images|, i requires 0 <= i < |images| => Some(images[i]))
  }

  /** What a block means to the service; thinking is not for it. */
  function Meant(b: ContentBlock, longLived: bool): seq<Reading> {
    match b
    case Text(text, cache) => [TextRead(text, MarkOf(cache, longLived))]
    case Thinking(_) => []
    case Image(source) => [ImageRead(Some(source))]
    case Document(source, citations) => [DocumentRead(Some(source), citations)]
    case ToolUse(id, name, input) => [CallRead(id, name, input)]
    case ToolResult(id, content, isError, images) => [ResultRead(id, content, isError, ImagesMeant(images))]
  }

  function AllMeant(blocks: Blocks, longLived: bool): seq<Reading> {
    Flatten(seq(|blocks|, i requires 0 <= i < |blocks| => Meant(blocks[i], longLived)))
  }

  // ----- what is sent is what was meant -----

  lemma SourceReads(source: MediaSource)
    ensures ReadSource(SourceJson(source)) == Some(source)
  {
    hide FindField;
    var f := SourceJson(source).fields;
    if |f| == 2 {
      TwoMembers(f[0], f[1]);
    } else {
      ThreeMembers(f[0], f[1], f[2]);
    }
  }

  lemma MarkReads(v: Json, cache: bool, longLived: bool)
    requires v.JObj? && Get(v, "cache_control") == None
    ensures ReadMark(Marked(v, cache, longLived)) == MarkOf(cache, longLived)
    ensures forall key :: key != "cache_control" ==> At(Marked(v, cache, longLived), key) == At(v, key)
  {
    hide Set;
    if cache {
      forall key
        ensures At(Set(v, Marker(), CacheControl(longLived)), key) == if key == Marker() then CacheControl(longLived) else At(v, key)
      {
        AtAfterSet(v, Marker(), CacheControl(longLived), key);
      }
    }
  }

  lemma TextReads(text: string, cache: bool, longLived: bool)
    ensures ReadBlock(BlockJson(Text(text, cache), longLived).value) == TextRead(text, MarkOf(cache, longLived))
  {
    var v := JObj([Field("type", JStr("text")), Field("text", JStr(text))]);
    TwoMembers(v.fields[0], v.fields[1]);
    MarkReads(v, cache, longLived);
  }

  lemma ImageReads(source: MediaSource, longLived: bool)
    ensures ReadBlock(BlockJson(Image(source), longLived).value) == ImageRead(Some(source))
  {
    hide SourceJson, FindField;
    SourceReads(source);
    var f := BlockJson(Image(source), longLived).value.fields;
    TwoMembers(f[0], f[1]);
  }

  lemma DocumentReads(source: MediaSource, citations: bool, longLived: bool)
    ensures ReadBlock(BlockJson(Document(source, citations), longLived).value) == DocumentRead(Some(source), citations)
  {
    hide SourceJson, Set, FindField;
    SourceReads(source);
    var v := JObj([Field("type", JStr("document")), Field("source", SourceJson(source))]);
    var on := JObj([Field("enabled", JBool(true))]);
    TwoMembers(v.fields[0], v.fields[1]);
    OneMember(on.fields[0]);
    AtAfterSet(v, "citations", on, "type");
    AtAfterSet(v, "citations", on, "source");
    AtAfterSet(v, "citations", on, "citations");
  }

  lemma UseReads(id: string, name: string, input: Json, longLived: bool)
    ensures ReadBlock(BlockJson(ToolUse(id, name, input), longLived).value) == CallRead(id, name, input)
  {
    hide FindField;
    var f := BlockJson(ToolUse(id, name, input), longLived).value.fields;
    FourMembers(f[0], f[1], f[2], f[3]);
  }

  lemma ContentReads(content: string, images: seq<ToolImage>)
    ensures ReadResultText(ResultContent(content, images)) == content
    ensures ReadResultImages(ResultContent(content, images)) == ImagesMeant(images)
  {
    hide FindField, ReadImage, ImageJson;
    if images != [] {
      var first := JObj([Field("type", JStr("text")), Field("text", JStr(content))]);
      TwoMembers(first.fields[0], first.fields[1]);
      var items := ResultContent(content, images).items;
      forall i | 0 <= i < |images|
        ensures ReadImage(items[1..][i]) == Some(images[i])
      {
        OneImageReads(images[i]);
      }
    }
  }

  lemma OneImageReads(image: ToolImage)
    ensures ReadImage(ImageJson(image)) == Some(image)
  {
    hide FindField, SourceJson;
    var f := ImageJson(image).fields;
    TwoMembers(f[0], f[1]);
    SourceReads(Base64(image.mediaType, image.data));
  }

  lemma ResultReads(id: string, content: string, isError: bool, images: seq<ToolImage>, longLived: bool)
    ensures ReadBlock(BlockJson(ToolResult(id, content, isError, images), longLived).value) ==
            ResultRead(id, content, isError, ImagesMeant(images))
  {
    hide ResultContent, Set, FindField;
    ContentReads(content, images);
    var v := JObj([Field("type", JStr("tool_result")), Field("tool_use_id", JStr(id)), Field("content", ResultContent(content, images))]);
    ThreeMembers(v.fields[0], v.fields[1], v.fields[2]);
    AtAfterSet(v, "is_error", JBool(true), "type");
    AtAfterSet(v, "is_error", JBool(true), "tool_use_id");
    AtAfterSet(v, "is_error", JBool(true), "content");
    AtAfterSet(v, "is_error", JBool(true), "is_error");
  }

  lemma BlockReads(b: ContentBlock, longLived: bool)
    ensures (if BlockJson(b, longLived).Some? then [ReadBlock(BlockJson(b, longLived).value)] else []) == Meant(b, longLived)
  {
    match b
    case Text(text, cache) => TextReads(text, cache, longLived);
    case Thinking(_) =>
    case Image(source) => ImageReads(source, longLived);
    case Document(source, citations) => DocumentReads(source, citations, longLived);
    case ToolUse(id, name, input) => UseReads(id, name, input, longLived);
    case ToolResult(id, content, isError, images) => ResultReads(id, content, isError, images, longLived);
  }

  lemma {:induction false} BlocksRead(blocks: Blocks, longLived: bool)
    ensures ReadBlocks(BlocksJson(blocks, longLived)) == AllMeant(blocks, longLived)
  {
    hide ReadBlock, BlockJson, Meant;
    if blocks != [] {
      var first, rest := BlockJson(blocks[0], longLived), BlocksJson(blocks[1..], longLived);
      BlocksRead(blocks[1..], longLived);
      BlockReads(blocks[0], longLived);
      var head := if first.Some? then [first.value] else [];
      assert ReadBlocks(head + rest) == ReadBlocks(head) + ReadBlocks(rest);
      assert ReadBlocks(head) == Meant(blocks[0], longLived);
      MeantNext(blocks, longLived);
    }
  }

  lemma MeantNext(blocks: Blocks, longLived: bool)
    requires blocks != []
    ensures AllMeant(blocks, longLived) == Meant(blocks[0], longLived) + AllMeant(blocks[1..], longLived)
  {
    hide Meant;
    var parts := seq(|blocks|, i requires 0 <= i < |blocks| => Meant(blocks[i], longLived));
    var rest := seq(|blocks| - 1, i requires 0 <= i < |blocks| - 1 => Meant(blocks[1..][i], longLived));
    assert parts[1..] == rest;
  }

  function MessageMeant(m: Message, longLived: bool): MessageReading {
    MessageReading(Some(m.role), AllMeant(m.content, longLived))
  }

  lemma MessageReads(m: Message, longLived: bool)
    ensures ReadMessage(MessageJson(m, longLived)) == MessageMeant(m, longLived)
  {
    hide BlocksJson, FindField, ReadBlocks, AllMeant;
    var f := MessageJson(m, longLived).fields;
    TwoMembers(f[0], f[1]);
    BlocksRead(m.content, longLived);
  }

  lemma {:induction false} MessagesRead(h: Transcript, longLived: bool)
    ensures |MessagesJson(h, longLived)| == |h|
    ensures forall i | 0 <= i < |h| :: ReadMessage(MessagesJson(h, longLived)[i]) == MessageMeant(h[i], longLived)
  {
    hide ReadMessage, MessageJson, MessageMeant;
    if h != [] {
      MessageReads(h[0], longLived);
      MessagesRead(h[1..], longLived);
    }
  }

  // ----- tools -----

  datatype ToolReading = ToolRead(name: string, description: string, schema: Json, strict: bool, mark: Lifetime)

  function ReadTool(v: Json): ToolReading {
    ToolRead(ReadString(v, "name"), ReadString(v, "description"), At(v, "input_schema"), At(v, "strict") == JBool(true), ReadMark(v))
  }

  function ToolMeant(t: ToolDef, longLived: bool): ToolReading {
    ToolRead(t.name, t.description, t.schema, t.strict, MarkOf(t.cache, longLived))
  }

  lemma ToolReads(t: ToolDef, longLived: bool)
    ensures ReadTool(ToolJson(t, longLived)) == ToolMeant(t, longLived)
  {
    hide FindField, Set, Marked, ReadMark;
    var v := JObj([Field("name", JStr(t.name)), Field("description", JStr(t.description)), Field("input_schema", t.schema)]);
    ThreeMembers(v.fields[0], v.fields[1], v.fields[2]);
    var w := if t.strict then Set(v, "strict", JBool(true)) else v;
    SetIsObject(v, "strict", JBool(true));
    AfterSet(v, "strict", JBool(true));
    AtAfterSet(v, "strict", JBool(true), "name");
    AtAfterSet(v, "strict", JBool(true), "description");
    AtAfterSet(v, "strict", JBool(true), "input_schema");
    AtAfterSet(v, "strict", JBool(true), "strict");
    MarkReads(w, t.cache, longLived);
  }

  lemma AfterSet(v: Json, key: string, value: Json)
    requires v.JObj?
    ensures Get(Set(v, key, value), "cache_control") == if key == "cache_control" then Some(value) else Get(v, "cache_control")
  {
    FindAfterSet(v.fields, key, value, "cache_control");
  }

  lemma {:induction false} ToolsRead(tools: seq<ToolDef>, longLived: bool)
    ensures |ToolsJson(tools, longLived)| == |tools|
    ensures forall k | 0 <= k < |tools| :: ReadTool(ToolsJson(tools, longLived)[k]) == ToolMeant(tools[k], longLived)
  {
    hide ReadTool, ToolJson, ToolMeant;
    if tools != [] {
      ToolReads(tools[0], longLived);
      ToolsRead(tools[1..], longLived);
    }
  }

  // ----- the prompt of a body -----

  /** The service finds the model, the prompt, the tools on offer and the whole transcript as they were
      meant, each cached as asked. */
  ghost predicate PromptIsMeant(req: ChatRequest, longLived: bool, b: Json) {
    && At(b, "model") == JStr(req.model) && At(b, "stream") == JBool(true)
    && (if req.system.Some?
        then At(b, "system").JArr?
             && ReadBlocks(At(b, "system").items) == [TextRead(req.system.value.text, MarkOf(req.system.value.cache, longLived))]
        else At(b, "system") == JNull)
    && (req.tools != [] ==>
          && At(b, "tools").JArr? && |At(b, "tools").items| >= |req.tools|
          && forall k | 0 <= k < |req.tools| :: ReadTool(At(b, "tools").items[k]) == ToolMeant(req.tools[k], longLived))
    && At(b, "messages").JArr? && |At(b, "messages").items| == |req.messages|
    && forall i | 0 <= i < |req.messages| :: ReadMessage(At(b, "messages").items[i]) == MessageMeant(req.messages[i], longLived)
  }

  lemma SystemReads(s: SystemPrompt, longLived: bool)
    ensures SystemJson(s, longLived).JArr?
    ensures ReadBlocks(SystemJson(s, longLived).items) == [TextRead(s.text, MarkOf(s.cache, longLived))]
  {
    TextReads(s.text, s.cache, longLived);
  }

  lemma ToolsFirst(req: ChatRequest, longLived: bool)
    ensures |AllTools(req, longLived)| >= |ToolsJson(req.tools, longLived)|
    ensures forall k | 0 <= k < |ToolsJson(req.tools, longLived)| :: AllTools(req, longLived)[k] == ToolsJson(req.tools, longLived)[k]
  {
    hide ToolsJson, ServerToolsJson;
  }

  /** Every body built for a request reads as the request. */
  lemma PromptReadsBack(req: ChatRequest, longLived: bool, b: Json)
    requires IsBody(req, longLived, b)
    ensures PromptIsMeant(req, longLived, b)
  {
    hide IsBody, Prompted, AllTools, ToolsJson, SystemJson, MessagesJson, ReadBlocks, ReadTool, ToolMeant, ReadMessage, MessageMeant;
    PromptMembers(req, longLived);
    PromptIsKept(req, longLived, b, "system");
    PromptIsKept(req, longLived, b, "tools");
    PromptIsKept(req, longLived, b, "messages");
    ModelIsKept(req, longLived, b);
    MessagesRead(req.messages, longLived);
    ToolsRead(req.tools, longLived);
    ToolsFirst(req, longLived);
    if req.system.Some? {
      SystemReads(req.system.value, longLived);
    }
  }

  lemma ModelIsKept(req: ChatRequest, longLived: bool, b: Json)
    requires IsBody(req, longLived, b)
    ensures At(b, "model") == JStr(req.model) && At(b, "stream") == JBool(true)
  {
    hide IsSonnet55, UsesLegacyThinking, RejectsSampling, Set, MessagesJson, SystemJson, AllTools, FindField, Prompted;
    var v := Base(req, longLived);
    FourMembers(v.fields[0], v.fields[1], v.fields[2], v.fields[3]);
    NoOption(req, "model", Get(Prompted(req, longLived), "model"));
    NoOption(req, "stream", Get(Prompted(req, longLived), "stream"));
    PromptedKeeps(req, longLived, "model");
    PromptedKeeps(req, longLived, "stream");
    assert Get(b, "model") == BodyMember(req, longLived, "model");
    assert Get(b, "stream") == BodyMember(req, longLived, "stream");
  }

  lemma PromptedKeeps(req: ChatRequest, longLived: bool, key: string)
    requires key != "system" && key != "tools"
    ensures At(Prompted(req, longLived), key) == At(Base(req, longLived), key)
  {
    hide Base, SystemJson, AllTools, Set, FindField;
    var b := Base(req, longLived);
    assert b.JObj? by { BaseIsObject(req, longLived); }
    var s := if req.system.Some? then Set(b, "system", SystemJson(req.system.value, longLived)) else b;
    if req.system.Some? {
      SetIsObject(b, "system", SystemJson(req.system.value, longLived));
      AtAfterSet(b, "system", SystemJson(req.system.value, longLived), key);
    }
    if !(req.tools == [] && req.serverTools == [] && req.builtinTools == []) {
      AtAfterSet(s, "tools", JArr(AllTools(req, longLived)), key);
    }
  }

  lemma BaseIsObject(req: ChatRequest, longLived: bool)
    ensures Base(req, longLived).JObj?
  {
  }

  // ----- the tail -----

  /** The last block, cached for five minutes if it is a text. */
  function Refreshed(m: MessageReading, refresh: bool): MessageReading {
    var n := |m.blocks|;
    if refresh && n > 0 && m.blocks[n - 1].TextRead? then m.(blocks := m.blocks[n - 1 := m.blocks[n - 1].(mark := FiveMinutes)])
    else m
  }

  lemma MarkedBlockReads(v: Json)
    requires v.JObj? && Get(v, Marker()) == None
    ensures var r := ReadBlock(v);
            ReadBlock(Set(v, Marker(), CacheControl(false))) == if r.TextRead? then r.(mark := FiveMinutes) else r
  {
    hide Set, FindField, ReadSource, ReadResultText, ReadResultImages, ReadMark;
    var w := Set(v, Marker(), CacheControl(false));
    forall key
      ensures At(w, key) == if key == Marker() then CacheControl(false) else At(v, key)
    {
      AtAfterSet(v, Marker(), CacheControl(false), key);
    }
    MarkReads(v, true, false);
  }

  lemma LastMessageReads(m: Json, block: Json)
    requires At(m, "content").JArr? && At(m, "content").items != []
    requires var was := At(m, "content").items[|At(m, "content").items| - 1];
             was.JObj? && Get(was, Marker()) == None && block == Set(was, Marker(), CacheControl(false))
    ensures ReadMessage(Set(m, "content", JArr(ReplaceLast(At(m, "content").items, block)))) == Refreshed(ReadMessage(m), true)
  {
    hide Set, FindField, ReadBlock, Marker;
    var items := At(m, "content").items;
    var changed := JArr(ReplaceLast(items, block));
    AtAfterSet(m, "content", changed, "content");
    AtAfterSet(m, "content", changed, "role");
    assert "content" != "role";
    MarkedBlockReads(items[|items| - 1]);
    assert ReadBlocks(ReplaceLast(items, block)) == ReadBlocks(items)[|items| - 1 := ReadBlock(block)];
  }

  /** Every body that is sent reads as its request, the last block of the transcript perhaps refreshed. */
  lemma SentIsMeant(req: ChatRequest, longLived: bool, b: Json)
    requires IsBody(req, longLived, b)
    ensures var c, n := TailMarked(b), |req.messages|;
            && (forall key :: key != "messages" ==> At(c, key) == At(b, key))
            && At(c, "messages").JArr? && |At(c, "messages").items| == n
            && forall i | 0 <= i < n ::
                 ReadMessage(At(c, "messages").items[i]) == Refreshed(MessageMeant(req.messages[i], longLived), i == n - 1 && Markable(b))
  {
    hide IsBody, ReadMessage, MessageMeant, Set, FindField, CountBreakpoints, Marker;
    PromptReadsBack(req, longLived, b);
    assert b.JObj? by { BodyIsObject(req, longLived, b); }
    if Markable(b) {
      var messages := At(b, "messages");
      var m := LastOf(messages).value;
      var marked := Set(TailBlock(messages).value, Marker(), CacheControl(false));
      LastMessageReads(m, marked);
      forall key
        ensures At(TailMarked(b), key) == if key == "messages" then WithTail(messages, marked) else At(b, key)
      {
        AtAfterSet(b, "messages", WithTail(messages, marked), key);
      }
    }
  }
}

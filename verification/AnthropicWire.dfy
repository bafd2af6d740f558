/** The Anthropic request body and its cache breakpoints, of which the service accepts four. */
module AnthropicWire {
  import opened Protocol
  import opened History
  import opened Request

  // ----- objects -----

  function SetField(fields: seq<Field>, key: string, value: Json): seq<Field> {
    if fields == [] then [Field(key, value)]
    else if fields[0].key == key then [Field(key, value)] + fields[1..]
    else [fields[0]] + SetField(fields[1..], key, value)
  }

  /** `v[key] = value`, on an object. */
  function Set(v: Json, key: string, value: Json): Json {
    JObj(SetField(if v.JObj? then v.fields else [], key, value))
  }

  function RemoveField(fields: seq<Field>, key: string): seq<Field> {
    if fields == [] then []
    else (if fields[0].key == key then [] else [fields[0]]) + RemoveField(fields[1..], key)
  }

  lemma {:induction false} FindAfterSet(fields: seq<Field>, key: string, value: Json, other: string)
    ensures FindField(SetField(fields, key, value), other) == if other == key then Some(value) else FindField(fields, other)
  {
    if fields == [] {
      assert [Field(key, value)][1..] == [];
    } else if fields[0].key == key {
      assert ([Field(key, value)] + fields[1..])[1..] == fields[1..];
    } else {
      FindAfterSet(fields[1..], key, value, other);
      assert ([fields[0]] + SetField(fields[1..], key, value))[1..] == SetField(fields[1..], key, value);
    }
  }

  lemma AtAfterSet(v: Json, key: string, value: Json, other: string)
    requires v.JObj?
    ensures At(Set(v, key, value), other) == if other == key then value else At(v, other)
  {
    FindAfterSet(v.fields, key, value, other);
  }

  lemma {:induction false} FindAfterRemove(fields: seq<Field>, key: string, other: string)
    ensures FindField(RemoveField(fields, key), other) == if other == key then None else FindField(fields, other)
  {
    if fields != [] {
      FindAfterRemove(fields[1..], key, other);
      var rest := RemoveField(fields[1..], key);
      if fields[0].key == key {
        assert [] + rest == rest;
      } else {
        assert ([fields[0]] + rest)[0] == fields[0] && ([fields[0]] + rest)[1..] == rest;
      }
    }
  }

  // ----- counting breakpoints -----

  function Marker(): string { "cache_control" }

  function Count(v: Json): nat
    decreases v, 1
  {
    match v
    case JObj(fields) => (if HasKey(fields, Marker()) then 1 else 0) + CountFields(fields)
    case JArr(items) => CountItems(items)
    case _ => 0
  }

  predicate HasKey(fields: seq<Field>, key: string) {
    FindField(fields, key).Some?
  }

  /** Markers below the members of an object, not looking into a marker itself. */
  function CountFields(fields: seq<Field>): nat
    decreases fields, 0
  {
    if fields == [] then 0
    else (if fields[0].key == Marker() then 0 else Count(fields[0].value)) + CountFields(fields[1..])
  }

  function CountItems(items: seq<Json>): nat
    decreases items, 0
  {
    if items == [] then 0 else Count(items[0]) + CountItems(items[1..])
  }

  function CountBreakpoints(body: Json): nat {
    Count(At(body, "system")) + Count(At(body, "tools")) + Count(At(body, "messages"))
  }

  lemma {:induction false} CountAfterSet(fields: seq<Field>, key: string, value: Json)
    requires key != Marker()
    ensures CountFields(SetField(fields, key, value)) + (if FindField(fields, key).Some? then Count(FindField(fields, key).value) else 0)
            == CountFields(fields) + Count(value)
  {
    hide Marker, Count;
    if fields == [] {
      assert [Field(key, value)][1..] == [];
    } else if fields[0].key == key {
      assert ([Field(key, value)] + fields[1..])[1..] == fields[1..];
    } else {
      CountAfterSet(fields[1..], key, value);
      assert ([fields[0]] + SetField(fields[1..], key, value))[1..] == SetField(fields[1..], key, value);
    }
  }

  /** Setting an ordinary member swaps that member's markers for the new value's. */
  lemma CountSet(v: Json, key: string, value: Json)
    requires v.JObj? && key != Marker()
    ensures Count(Set(v, key, value)) + Count(At(v, key)) == Count(v) + Count(value)
  {
    hide Marker;
    CountAfterSet(v.fields, key, value);
    FindAfterSet(v.fields, key, value, Marker());
  }

  lemma {:induction false} CountAfterMark(fields: seq<Field>, value: Json)
    ensures CountFields(SetField(fields, Marker(), value)) == CountFields(fields)
  {
    hide Marker, Count;
    if fields == [] {
      assert [Field(Marker(), value)][1..] == [];
    } else if fields[0].key == Marker() {
      assert ([Field(Marker(), value)] + fields[1..])[1..] == fields[1..];
    } else {
      CountAfterMark(fields[1..], value);
      assert ([fields[0]] + SetField(fields[1..], Marker(), value))[1..] == SetField(fields[1..], Marker(), value);
    }
  }

  /** Marking an unmarked object adds one marker. */
  lemma CountMark(v: Json, value: Json)
    requires v.JObj? && Get(v, Marker()) == None
    ensures Count(Set(v, Marker(), value)) == Count(v) + 1
  {
    hide Marker;
    CountAfterMark(v.fields, value);
    FindAfterSet(v.fields, Marker(), value, Marker());
  }

  lemma {:induction false} CountItemsAppend(a: seq<Json>, b: seq<Json>)
    ensures CountItems(a + b) == CountItems(a) + CountItems(b)
  {
    hide Count;
    if a == [] {
      assert a + b == b;
    } else {
      CountItemsAppend(a[1..], b);
      assert (a + b)[1..] == a[1..] + b;
    }
  }

  lemma CountOne(v: Json)
    ensures CountItems([v]) == Count(v)
  {
    hide Count;
    assert [v][1..] == [] && CountItems([]) == 0;
  }

  function ReplaceLast(items: seq<Json>, v: Json): seq<Json>
    requires items != []
  {
    items[..|items| - 1] + [v]
  }

  lemma CountReplaceLast(items: seq<Json>, v: Json)
    requires items != []
    ensures CountItems(ReplaceLast(items, v)) + Count(items[|items| - 1]) == CountItems(items) + Count(v)
  {
    hide Count;
    var n := |items| - 1;
    CountItemsAppend(items[..n], [v]);
    CountItemsAppend(items[..n], [items[n]]);
    CountOne(v);
    CountOne(items[n]);
    assert items[..n] + [items[n]] == items;
  }

  // ----- the conversation tail -----

  const MAX_BREAKPOINTS := 4

  function CacheControl(longLived: bool): Json {
    if longLived then JObj([Field("type", JStr("ephemeral")), Field("ttl", JStr("1h"))])
    else JObj([Field("type", JStr("ephemeral"))])
  }

  function LastOf(v: Json): Option<Json> {
    if v.JArr? && v.items != [] then Some(v.items[|v.items| - 1]) else None
  }

  /** The last content block of the last message. */
  function TailBlock(messages: Json): Option<Json> {
    match LastOf(messages)
    case None => None
    case Some(m) => LastOf(At(m, "content"))
  }

  /** The messages with another last block. */
  function WithTail(messages: Json, block: Json): Json
    requires TailBlock(messages).Some?
  {
    var m := LastOf(messages).value;
    JArr(ReplaceLast(messages.items, Set(m, "content", JArr(ReplaceLast(At(m, "content").items, block)))))
  }

  /** The tail is worth a breakpoint: there is one to spare and a last block that carries none. */
  predicate Markable(body: Json) {
    && CountBreakpoints(body) < MAX_BREAKPOINTS
    && TailBlock(At(body, "messages")).Some?
    && TailBlock(At(body, "messages")).value.JObj?
    && Get(TailBlock(At(body, "messages")).value, Marker()) == None
  }

  function TailMarked(body: Json): Json {
    if Markable(body) then
      var messages := At(body, "messages");
      Set(body, "messages", WithTail(messages, Set(TailBlock(messages).value, Marker(), CacheControl(false))))
    else body
  }

  lemma WithTailCounts(messages: Json, block: Json)
    requires TailBlock(messages).Some?
    ensures Count(WithTail(messages, block)) + Count(TailBlock(messages).value) == Count(messages) + Count(block)
    ensures TailBlock(WithTail(messages, block)) == Some(block)
  {
    hide Count, CountItems, Set;
    var m := LastOf(messages).value;
    var content := At(m, "content");
    var changed := JArr(ReplaceLast(content.items, block));
    ArrayCounts(content.items);
    ArrayCounts(ReplaceLast(content.items, block));
    ArrayCounts(messages.items);
    ArrayCounts(ReplaceLast(messages.items, Set(m, "content", changed)));
    CountReplaceLast(content.items, block);
    CountSet(m, "content", changed) by { NotMarker(); }
    CountReplaceLast(messages.items, Set(m, "content", changed));
    AtAfterSet(m, "content", changed, "content");
  }

  lemma ArrayCounts(items: seq<Json>)
    ensures Count(JArr(items)) == CountItems(items)
  {
  }

  lemma NotMarker()
    ensures "content" != Marker() && "system" != Marker() && "tools" != Marker() && "messages" != Marker()
    ensures "system" != "tools" && "tools" != "messages" && "system" != "messages"
  {
  }

  /** Marking the tail adds exactly one breakpoint, on the last block, and never makes more than four; a
      body it leaves alone has no block to mark, a marked last block, or its four breakpoints already. */
  lemma TailMarkingCounts(body: Json)
    requires body.JObj?
    ensures CountBreakpoints(TailMarked(body)) == CountBreakpoints(body) + (if Markable(body) then 1 else 0)
    ensures Markable(body) ==>
              && CountBreakpoints(TailMarked(body)) <= 4
              && TailBlock(At(TailMarked(body), "messages")).Some?
              && Get(TailBlock(At(TailMarked(body), "messages")).value, Marker()).Some?
  {
    hide Count, Set, TailBlock, WithTail, CacheControl, Marker;
    if Markable(body) {
      var messages := At(body, "messages");
      var block := TailBlock(messages).value;
      var marked := Set(block, Marker(), CacheControl(false));
      var after := WithTail(messages, marked);
      CountMark(block, CacheControl(false));
      WithTailCounts(messages, marked);
      NotMarker();
      AtAfterSet(body, "messages", after, "system");
      AtAfterSet(body, "messages", after, "tools");
      AtAfterSet(body, "messages", after, "messages");
      MarkedHasMarker(block, CacheControl(false));
    }
  }

  lemma MarkedHasMarker(v: Json, value: Json)
    requires v.JObj?
    ensures Get(Set(v, Marker(), value), Marker()) == Some(value)
  {
    hide Marker;
    FindAfterSet(v.fields, Marker(), value, Marker());
  }

  /** `mark_conversation_tail` */
  method MarkConversationTail(body: Json) returns (marked: Json)
    requires body.JObj?
    ensures marked == TailMarked(body)
  {
    hide Count, Set, CacheControl, Marker;
    marked := body;
    if CountBreakpoints(body) >= MAX_BREAKPOINTS {
      return;
    }
    var messages := At(body, "messages");
    if !messages.JArr? || messages.items == [] {
      return;
    }
    var last := messages.items[|messages.items| - 1];
    var content := At(last, "content");
    if !content.JArr? || content.items == [] {
      return;
    }
    var block := content.items[|content.items| - 1];
    if block.JObj? && Get(block, Marker()) == None {
      var b := Set(block, Marker(), CacheControl(false));
      var m := Set(last, "content", JArr(ReplaceLast(content.items, b)));
      marked := Set(body, "messages", JArr(ReplaceLast(messages.items, m)));
    }
  }

  // ----- the blocks of a body -----

  function Marked(v: Json, cache: bool, longLived: bool): Json {
    if cache then Set(v, Marker(), CacheControl(longLived)) else v
  }

  function SystemJson(s: SystemPrompt, longLived: bool): Json {
    JArr([Marked(JObj([Field("type", JStr("text")), Field("text", JStr(s.text))]), s.cache, longLived)])
  }

  function SourceJson(source: MediaSource): Json {
    match source
    case Base64(mediaType, data) =>
      JObj([Field("type", JStr("base64")), Field("media_type", JStr(mediaType)), Field("data", JStr(data))])
    case Url(url) => JObj([Field("type", JStr("url")), Field("url", JStr(url))])
    case File(fileId) => JObj([Field("type", JStr("file")), Field("file_id", JStr(fileId))])
    case PlainText(text) =>
      JObj([Field("type", JStr("text")), Field("media_type", JStr("text/plain")), Field("data", JStr(text))])
  }

  function ImageJson(image: ToolImage): Json {
    JObj([Field("type", JStr("image")), Field("source", SourceJson(Base64(image.mediaType, image.data)))])
  }

  function ResultContent(content: string, images: seq<ToolImage>): Json {
    if images == [] then JStr(content)
    else
      JArr([JObj([Field("type", JStr("text")), Field("text", JStr(content))])]
           + seq(|images|, i requires 0 <= i < |images| => ImageJson(images[i])))
  }

  /** The JSON of one block; earlier thinking is never sent again. */
  function BlockJson(b: ContentBlock, longLived: bool): Option<Json> {
    match b
    case Text(text, cache) =>
      Some(Marked(JObj([Field("type", JStr("text")), Field("text", JStr(text))]), cache, longLived))
    case Thinking(_) => None
    case Image(source) => Some(JObj([Field("type", JStr("image")), Field("source", SourceJson(source))]))
    case Document(source, citations) =>
      var v := JObj([Field("type", JStr("document")), Field("source", SourceJson(source))]);
      Some(if citations then Set(v, "citations", JObj([Field("enabled", JBool(true))])) else v)
    case ToolUse(id, name, input) =>
      Some(JObj([Field("type", JStr("tool_use")), Field("id", JStr(id)), Field("name", JStr(name)), Field("input", input)]))
    case ToolResult(id, content, isError, images) =>
      var v := JObj([Field("type", JStr("tool_result")), Field("tool_use_id", JStr(id)),
                     Field("content", ResultContent(content, images))]);
      Some(if isError then Set(v, "is_error", JBool(true)) else v)
  }

  function BlocksJson(blocks: Blocks, longLived: bool): seq<Json> {
    if blocks == [] then []
    else
      (if BlockJson(blocks[0], longLived).Some? then [BlockJson(blocks[0], longLived).value] else [])
      + BlocksJson(blocks[1..], longLived)
  }

  function MessageJson(m: Message, longLived: bool): Json {
    JObj([Field("role", JStr(if m.role.User? then "user" else "assistant")),
          Field("content", JArr(BlocksJson(m.content, longLived)))])
  }

  function MessagesJson(h: Transcript, longLived: bool): seq<Json> {
    if h == [] then [] else [MessageJson(h[0], longLived)] + MessagesJson(h[1..], longLived)
  }

  function ToolJson(t: ToolDef, longLived: bool): Json {
    var v := JObj([Field("name", JStr(t.name)), Field("description", JStr(t.description)), Field("input_schema", t.schema)]);
    Marked(if t.strict then Set(v, "strict", JBool(true)) else v, t.cache, longLived)
  }

  function ToolsJson(tools: seq<ToolDef>, longLived: bool): seq<Json> {
    if tools == [] then [] else [ToolJson(tools[0], longLived)] + ToolsJson(tools[1..], longLived)
  }

  function StringArray(s: seq<string>): Json {
    JArr(seq(|s|, i requires 0 <= i < |s| => JStr(s[i])))
  }

  function Direct(v: Json): Json {
    Set(v, "allowed_callers", StringArray(["direct"]))
  }

  function MaybeUses(v: Json, maxUses: Option<nat>): Json {
    if maxUses.Some? then Set(v, "max_uses", JNum(maxUses.value)) else v
  }

  /** Provider-run tools that this service does not offer are skipped. */
  function ServerToolJson(t: ServerTool): Option<Json> {
    match t
    case WebSearch(maxUses, allowed, blocked) =>
      var v := MaybeUses(JObj([Field("type", JStr("web_search_20260209")), Field("name", JStr("web_search"))]), maxUses);
      var a := if allowed == [] then v else Set(v, "allowed_domains", StringArray(allowed));
      Some(Direct(if blocked == [] then a else Set(a, "blocked_domains", StringArray(blocked))))
    case WebFetch(maxUses) =>
      Some(Direct(MaybeUses(JObj([Field("type", JStr("web_fetch_20260209")), Field("name", JStr("web_fetch"))]), maxUses)))
    case CodeExecution => Some(Direct(JObj([Field("type", JStr("code_execution_20260120")), Field("name", JStr("code_execution"))])))
    case _ => None
  }

  function ServerToolsJson(tools: seq<ServerTool>): seq<Json> {
    if tools == [] then []
    else
      (if ServerToolJson(tools[0]).Some? then [ServerToolJson(tools[0]).value] else []) + ServerToolsJson(tools[1..])
  }

  function BuiltinToolJson(t: BuiltinTool): Json {
    match t
    case Bash => JObj([Field("type", JStr("bash_20250124")), Field("name", JStr("bash"))])
    case TextEditor => JObj([Field("type", JStr("text_editor_20250728")), Field("name", JStr("str_replace_based_edit_tool"))])
    case Memory => JObj([Field("type", JStr("memory_20250818")), Field("name", JStr("memory"))])
  }

  function AllTools(req: ChatRequest, longLived: bool): seq<Json> {
    ToolsJson(req.tools, longLived) + ServerToolsJson(req.serverTools)
    + seq(|req.builtinTools|, i requires 0 <= i < |req.builtinTools| => BuiltinToolJson(req.builtinTools[i]))
  }
}

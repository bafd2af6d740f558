/** Building the Anthropic request body, and how many cache breakpoints it carries. */
module AnthropicBody {
  import opened Protocol
  import opened History
  import opened Request
  import opened AnthropicWire

  // ----- the body as a value -----

  function Base(req: ChatRequest, longLived: bool): Json {
    JObj([Field("model", JStr(req.model)), Field("max_tokens", JNum(req.maxTokens)),
          Field("messages", JArr(MessagesJson(req.messages, longLived))), Field("stream", JBool(true))])
  }

  function Prompted(req: ChatRequest, longLived: bool): Json {
    var b := Base(req, longLived);
    var s := if req.system.Some? then Set(b, "system", SystemJson(req.system.value, longLived)) else b;
    if req.tools == [] && req.serverTools == [] && req.builtinTools == [] then s
    else Set(s, "tools", JArr(AllTools(req, longLived)))
  }

  function ServerJson(s: McpServer): Json {
    var v := JObj([Field("type", JStr("url")), Field("name", JStr(s.name)), Field("url", JStr(s.url))]);
    if s.token.Some? then Set(v, "authorization_token", JStr(s.token.value)) else v
  }

  predicate Contains(s: string, sub: string) {
    exists i | 0 <= i <= |s| :: sub <= s[i..]
  }

  predicate RejectsSampling(model: string) {
    Contains(model, "opus-4-7") || Contains(model, "opus-4-8") || Contains(model, "fable-5") || Contains(model, "mythos-5")
  }

  predicate UsesLegacyThinking(model: string) {
    || Contains(model, "haiku") || Contains(model, "sonnet-4-5") || Contains(model, "sonnet-4-0")
    || Contains(model, "opus-4-1") || Contains(model, "opus-4-0")
  }

  predicate IsSonnet55(model: string) {
    Contains(model, "sonnet-5-5")
  }

  /** A forced tool choice is rejected by one model, which gets the automatic one instead. */
  function ChoiceJson(choice: ToolChoice, disableParallel: bool, model: string): Json {
    var kind := match choice
      case Auto => JObj([Field("type", JStr("auto"))])
      case Required => JObj([Field("type", JStr(if IsSonnet55(model) then "auto" else "any"))])
      case NoTool => JObj([Field("type", JStr("none"))])
      case Named(name) =>
        if IsSonnet55(model) then JObj([Field("type", JStr("auto"))])
        else JObj([Field("type", JStr("tool")), Field("name", JStr(name))]);
    if disableParallel && !choice.NoTool? then Set(kind, "disable_parallel_tool_use", JBool(true)) else kind
  }

  function OrNull(v: Option<Json>): Json {
    match v case Some(w) => w case None => JNull
  }

  function ServersJson(servers: seq<McpServer>): Json {
    JArr(seq(|servers|, i requires 0 <= i < |servers| => ServerJson(servers[i])))
  }

  /** The member `k` of a body that had `was` there, once the request's options are in. */
  function OptionMember(req: ChatRequest, k: string, was: Option<Json>): Option<Json> {
    var sampled := !RejectsSampling(req.model);
    var a := if k == "mcp_servers" && req.mcpServers != [] then Some(ServersJson(req.mcpServers)) else was;
    var b := if k == "temperature" && sampled && req.temperature.Some? then Some(JReal(req.temperature.value)) else a;
    var c := if k == "top_p" && sampled && req.topP.Some? then Some(JReal(req.topP.value)) else b;
    var d := if k == "top_k" && sampled && req.topK.Some? then Some(JNum(req.topK.value)) else c;
    var e := if k == "stop_sequences" && req.stopSequences != [] then Some(StringArray(req.stopSequences)) else d;
    var f := if k == "tool_choice" && req.toolChoice.Some?
             then Some(ChoiceJson(req.toolChoice.value, req.disableParallel, req.model)) else e;
    if k == "output_config" && req.outputSchema.Some? then Some(Set(OrNull(f), "format", FormatJson(req.outputSchema.value))) else f
  }

  function FormatJson(schema: Json): Json {
    JObj([Field("type", JStr("json_schema")), Field("schema", schema)])
  }

  predicate IsDeep(thinking: Option<ThinkingLevel>) {
    thinking == Some(Medium) || thinking == Some(High)
  }

  function Effort(thinking: Option<ThinkingLevel>): Json {
    JStr(if thinking == Some(High) then "high" else "medium")
  }

  function Budget(thinking: Option<ThinkingLevel>): nat {
    if thinking == Some(High) then 12000 else 4096
  }

  function ThinkingKind(kind: string): Json {
    JObj([Field("type", JStr(kind))])
  }

  function FixedBudget(budget: nat): Json {
    JObj([Field("type", JStr("enabled")), Field("budget_tokens", JNum(budget))])
  }

  predicate Thinks(thinking: Option<ThinkingLevel>, model: string) {
    IsSonnet55(model) || IsDeep(thinking)
  }

  /** What a request says about thinking, if anything: one model always says something, others only when
      thinking was asked for; older models take a fixed budget. */
  function ThinkingJson(thinking: Option<ThinkingLevel>, model: string): Json {
    if IsSonnet55(model) then ThinkingKind(if IsDeep(thinking) then "adaptive" else "between_tools")
    else if UsesLegacyThinking(model) then FixedBudget(Budget(thinking))
    else ThinkingKind("adaptive")
  }

  /** The member `k` of a body that had `was` there, once thinking is applied: a custom temperature goes,
      and a fixed budget has to fit below the token limit. */
  function ThinkingMember(thinking: Option<ThinkingLevel>, model: string, maxTokens: nat, k: string, was: Option<Json>): Option<Json> {
    var legacy := UsesLegacyThinking(model) && !IsSonnet55(model);
    if !Thinks(thinking, model) then was
    else if k == "thinking" then Some(ThinkingJson(thinking, model))
    else if k == "max_tokens" && legacy && maxTokens <= Budget(thinking) then Some(JNum(Budget(thinking) + 4096))
    else if k == "output_config" && !legacy && IsDeep(thinking) then Some(Set(OrNull(was), "effort", Effort(thinking)))
    else if k == "temperature" then None
    else was
  }

  lemma SetIsObject(v: Json, key: string, value: Json)
    ensures Set(v, key, value).JObj?
  {
  }

  method SetMember(body: Json, key: string, value: Json) returns (r: Json)
    requires body.JObj?
    ensures r.JObj? && forall k :: Get(r, k) == if k == key then Some(value) else Get(body, k)
  {
    r := Set(body, key, value);
    forall k
      ensures Get(r, k) == if k == key then Some(value) else Get(body, k)
    {
      FindAfterSet(body.fields, key, value, k);
    }
  }

  method RemoveMember(body: Json, key: string) returns (r: Json)
    requires body.JObj?
    ensures r.JObj? && forall k :: Get(r, k) == if k == key then None else Get(body, k)
  {
    r := JObj(RemoveField(body.fields, key));
    forall k
      ensures Get(r, k) == if k == key then None else Get(body, k)
    {
      FindAfterRemove(body.fields, key, k);
    }
  }

  lemma ThinkingKeysDiffer()
    ensures "thinking" != "output_config" && "thinking" != "max_tokens" && "thinking" != "temperature"
    ensures "output_config" != "max_tokens" && "output_config" != "temperature" && "max_tokens" != "temperature"
  {
  }

  /** `apply_thinking`: the thinking surface differs by model. */
  method ApplyThinking(body0: Json, thinking: Option<ThinkingLevel>, model: string, maxTokens: nat) returns (body: Json)
    requires body0.JObj?
    ensures body.JObj? && forall k :: Get(body, k) == ThinkingMember(thinking, model, maxTokens, k, Get(body0, k))
  {
    hide Set, Get, IsSonnet55, UsesLegacyThinking, ThinkingKind, FixedBudget, Effort;
    ThinkingKeysDiffer();
    body := body0;
    if IsSonnet55(model) {
      if IsDeep(thinking) {
        body := SetMember(body, "thinking", ThinkingKind("adaptive"));
        body := SetMember(body, "output_config", Set(OrNull(Get(body, "output_config")), "effort", Effort(thinking)));
      } else {
        body := SetMember(body, "thinking", ThinkingKind("between_tools"));
      }
      body := RemoveMember(body, "temperature");
      return;
    }
    if !IsDeep(thinking) {
      return;
    }
    if UsesLegacyThinking(model) {
      body := SetMember(body, "thinking", FixedBudget(Budget(thinking)));
      if maxTokens <= Budget(thinking) {
        body := SetMember(body, "max_tokens", JNum(Budget(thinking) + 4096));
      }
    } else {
      body := SetMember(body, "thinking", ThinkingKind("adaptive"));
      body := SetMember(body, "output_config", Set(OrNull(Get(body, "output_config")), "effort", Effort(thinking)));
    }
    body := RemoveMember(body, "temperature");
  }

  /** Sampling parameters, stop sequences, tool choice and output format, each present exactly if it was
      asked for and the model takes it. */
  method AddOptions(body0: Json, req: ChatRequest) returns (body: Json)
    requires body0.JObj?
    ensures body.JObj? && forall k :: Get(body, k) == OptionMember(req, k, Get(body0, k))
  {
    hide Set, Get, ChoiceJson, ServersJson, RejectsSampling, StringArray, FormatJson;
    body := body0;
    if req.mcpServers != [] {
      body := SetMember(body, "mcp_servers", ServersJson(req.mcpServers));
    }
    if !RejectsSampling(req.model) {
      if req.temperature.Some? {
        body := SetMember(body, "temperature", JReal(req.temperature.value));
      }
      if req.topP.Some? {
        body := SetMember(body, "top_p", JReal(req.topP.value));
      }
      if req.topK.Some? {
        body := SetMember(body, "top_k", JNum(req.topK.value));
      }
    }
    if req.stopSequences != [] {
      body := SetMember(body, "stop_sequences", StringArray(req.stopSequences));
    }
    if req.toolChoice.Some? {
      body := SetMember(body, "tool_choice", ChoiceJson(req.toolChoice.value, req.disableParallel, req.model));
    }
    if req.outputSchema.Some? {
      body := SetMember(body, "output_config", Set(OrNull(Get(body, "output_config")), "format", FormatJson(req.outputSchema.value)));
    }
  }

  /** The member `k` of a finished body, before its tail is marked. */
  function BodyMember(req: ChatRequest, longLived: bool, k: string): Option<Json> {
    ThinkingMember(req.thinking, req.model, req.maxTokens, k, OptionMember(req, k, Get(Prompted(req, longLived), k)))
  }

  /** An object with exactly the members the request calls for. */
  ghost predicate IsBody(req: ChatRequest, longLived: bool, b: Json) {
    b.JObj? && forall k :: Get(b, k) == BodyMember(req, longLived, k)
  }

  /** `build_body`: the prompt, then the options, then thinking, then the conversation tail is marked. */
  method BuildBody(req: ChatRequest, longLived: bool) returns (body: Json)
    ensures exists b :: IsBody(req, longLived, b) && body == TailMarked(b)
  {
    hide Set, Get, TailMarked, AllTools, SystemJson, OptionMember, ThinkingMember;
    body := Base(req, longLived);
    if req.system.Some? {
      SetIsObject(body, "system", SystemJson(req.system.value, longLived));
      body := Set(body, "system", SystemJson(req.system.value, longLived));
    }
    if req.tools != [] || req.serverTools != [] || req.builtinTools != [] {
      SetIsObject(body, "tools", JArr(AllTools(req, longLived)));
      body := Set(body, "tools", JArr(AllTools(req, longLived)));
    }
    assert body == Prompted(req, longLived);
    body := AddOptions(body, req);
    body := ApplyThinking(body, req.thinking, req.model, req.maxTokens);
    assert IsBody(req, longLived, body);
    body := MarkConversationTail(body);
  }

  // ----- what the service accepts -----

  lemma OptionKeysDiffer(k: string)
    requires k in ["system", "tools", "messages", "max_tokens", "thinking"]
    ensures k !in ["mcp_servers", "temperature", "top_p", "top_k", "stop_sequences", "tool_choice", "output_config"]
  {
  }

  lemma PromptKeysDiffer(k: string)
    requires k in ["system", "tools", "messages"]
    ensures k !in ["thinking", "max_tokens", "output_config", "temperature"]
  {
  }

  /** Neither options nor thinking touch what the breakpoints are counted in. */
  lemma PromptIsKept(req: ChatRequest, longLived: bool, b: Json, k: string)
    requires IsBody(req, longLived, b) && k in ["system", "tools", "messages"]
    ensures At(b, k) == At(Prompted(req, longLived), k)
  {
    hide Prompted, IsSonnet55, UsesLegacyThinking, RejectsSampling, Set, FindField;
    OptionKeysDiffer(k);
    PromptKeysDiffer(k);
    assert Get(b, k) == BodyMember(req, longLived, k);
  }

  lemma PromptedLacks(req: ChatRequest, longLived: bool, k: string)
    requires k !in ["model", "max_tokens", "messages", "stream", "system", "tools"]
    ensures Get(Prompted(req, longLived), k) == None
  {
    hide AllTools, SystemJson, MessagesJson, Set;
    var f := Base(req, longLived).fields;
    SkipField(f, k);
    SkipField(f[1..], k);
    SkipField(f[2..], k);
    SkipField(f[3..], k);
    assert f[1..][1..] == f[2..] && f[2..][1..] == f[3..] && f[3..][1..] == [];
    var b := Base(req, longLived);
    var s := if req.system.Some? then Set(b, "system", SystemJson(req.system.value, longLived)) else b;
    if req.system.Some? {
      SetIsObject(b, "system", SystemJson(req.system.value, longLived));
      FindAfterSet(b.fields, "system", SystemJson(req.system.value, longLived), k);
      SetFields(b, "system", SystemJson(req.system.value, longLived));
    }
    FindAfterSet(s.fields, "tools", JArr(AllTools(req, longLived)), k);
    SetFields(s, "tools", JArr(AllTools(req, longLived)));
  }

  lemma SetFields(v: Json, key: string, value: Json)
    requires v.JObj?
    ensures Set(v, key, value) == JObj(SetField(v.fields, key, value))
  {
  }

  lemma PromptedLimit(req: ChatRequest, longLived: bool)
    ensures Get(Prompted(req, longLived), "max_tokens") == Some(JNum(req.maxTokens))
  {
    hide AllTools, SystemJson, MessagesJson, Set;
    var f := Base(req, longLived).fields;
    SkipField(f, "max_tokens");
    assert f[1..][0] == f[1];
    var b := Base(req, longLived);
    var s := if req.system.Some? then Set(b, "system", SystemJson(req.system.value, longLived)) else b;
    if req.system.Some? {
      SetIsObject(b, "system", SystemJson(req.system.value, longLived));
      FindAfterSet(b.fields, "system", SystemJson(req.system.value, longLived), "max_tokens");
      SetFields(b, "system", SystemJson(req.system.value, longLived));
    }
    FindAfterSet(s.fields, "tools", JArr(AllTools(req, longLived)), "max_tokens");
    SetFields(s, "tools", JArr(AllTools(req, longLived)));
  }

  lemma OptionOfNone(req: ChatRequest, k: string)
    requires k in ["temperature", "top_p", "top_k"] && RejectsSampling(req.model)
    ensures OptionMember(req, k, None) == None
  {
    hide RejectsSampling, Set;
  }

  lemma SamplingKeys(k: string)
    requires k in ["temperature", "top_p", "top_k"]
    ensures k !in ["thinking", "max_tokens", "output_config", "model", "messages", "stream", "system", "tools"]
  {
  }

  /** Models that reject sampling parameters get none. */
  lemma NoSamplingWhereRejected(req: ChatRequest, longLived: bool, b: Json, k: string)
    requires IsBody(req, longLived, b) && RejectsSampling(req.model) && k in ["temperature", "top_p", "top_k"]
    ensures Get(b, k) == None
  {
    hide Prompted, IsSonnet55, UsesLegacyThinking, RejectsSampling, OptionMember;
    SamplingKeys(k);
    PromptedLacks(req, longLived, k);
    OptionOfNone(req, k);
    assert Get(b, k) == BodyMember(req, longLived, k);
  }

  /** A body that asks for thinking carries no temperature, and a fixed budget is below its token limit. */
  lemma ThinkingFits(req: ChatRequest, longLived: bool, b: Json)
    requires IsBody(req, longLived, b)
    ensures Get(b, "thinking") == if Thinks(req.thinking, req.model) then Some(ThinkingJson(req.thinking, req.model)) else None
    ensures Get(b, "thinking").Some? ==> Get(b, "temperature") == None
    ensures Get(b, "thinking") == Some(FixedBudget(Budget(req.thinking))) ==>
              At(b, "max_tokens").JNum? && At(b, "max_tokens").n > Budget(req.thinking)
    ensures !IsDeep(req.thinking) ==> At(b, "max_tokens") == JNum(req.maxTokens)
  {
    hide Prompted, IsSonnet55, UsesLegacyThinking, RejectsSampling, OptionMember, Set;
    ThinkingKeysDiffer();
    OptionKeysDiffer("thinking");
    OptionKeysDiffer("max_tokens");
    assert "thinking" !in ["model", "max_tokens", "messages", "stream", "system", "tools"];
    PromptedLacks(req, longLived, "thinking");
    PromptedLimit(req, longLived);
    NoOption(req, "thinking", None);
    NoOption(req, "max_tokens", Some(JNum(req.maxTokens)));
    KindsDiffer(req.thinking);
    assert Get(b, "thinking") == BodyMember(req, longLived, "thinking");
    assert Get(b, "max_tokens") == BodyMember(req, longLived, "max_tokens");
    assert Get(b, "temperature") == BodyMember(req, longLived, "temperature");
  }

  lemma NoOption(req: ChatRequest, k: string, was: Option<Json>)
    requires k !in ["mcp_servers", "temperature", "top_p", "top_k", "stop_sequences", "tool_choice", "output_config"]
    ensures OptionMember(req, k, was) == was
  {
    hide RejectsSampling, Set;
  }

  lemma KindsDiffer(thinking: Option<ThinkingLevel>)
    ensures forall kind :: ThinkingKind(kind) != FixedBudget(Budget(thinking))
  {
  }

  /** The model that rejects forced tool choices is never sent one, whatever is asked for. */
  lemma NoForcedChoice(req: ChatRequest, longLived: bool, b: Json)
    requires IsBody(req, longLived, b) && IsSonnet55(req.model) && req.toolChoice.Some?
    ensures At(At(b, "tool_choice"), "type") in [JStr("auto"), JStr("none")]
  {
    hide Prompted, IsSonnet55, UsesLegacyThinking, RejectsSampling, Set;
    assert Get(b, "tool_choice") == BodyMember(req, longLived, "tool_choice");
    assert "tool_choice" !in ["thinking", "max_tokens", "output_config", "temperature"];
    ChoiceType(req.toolChoice.value, req.disableParallel, req.model);
  }

  lemma ChoiceType(choice: ToolChoice, disableParallel: bool, model: string)
    requires IsSonnet55(model)
    ensures At(ChoiceJson(choice, disableParallel, model), "type") in [JStr("auto"), JStr("none")]
  {
    hide IsSonnet55, Set;
    var auto := JObj([Field("type", JStr("auto"))]);
    AtAfterSet(auto, "disable_parallel_tool_use", JBool(true), "type");
    assert "type" != "disable_parallel_tool_use";
  }

  // ----- counting -----

  /** No marker on it and none below it. */
  predicate Unmarked(v: Json) {
    Count(v) == 0 && Get(v, Marker()) == None
  }

  lemma {:induction false} PlainFields(fields: seq<Field>)
    requires forall i | 0 <= i < |fields| :: fields[i].key != Marker() && Count(fields[i].value) == 0
    ensures CountFields(fields) == 0 && FindField(fields, Marker()) == None
  {
    hide Marker, Count;
    if fields != [] {
      PlainFields(fields[1..]);
    }
  }

  /** An object of unmarked members under ordinary keys. */
  lemma PlainObject(fields: seq<Field>)
    requires forall i | 0 <= i < |fields| :: fields[i].key != Marker() && Count(fields[i].value) == 0
    ensures Unmarked(JObj(fields))
  {
    hide Marker;
    PlainFields(fields);
  }

  lemma SetKeepsUnmarked(v: Json, key: string, value: Json)
    requires v.JObj? && Unmarked(v) && key != Marker() && Count(value) == 0
    ensures Unmarked(Set(v, key, value)) && Set(v, key, value).JObj?
  {
    hide Marker;
    CountSet(v, key, value);
    FindAfterSet(v.fields, key, value, Marker());
  }

  lemma MarkedCount(v: Json, cache: bool, longLived: bool)
    requires v.JObj? && Unmarked(v)
    ensures Marked(v, cache, longLived).JObj? && Count(Marked(v, cache, longLived)) == if cache then 1 else 0
    ensures Get(Marked(v, cache, longLived), Marker()).Some? <==> cache
  {
    hide Marker, CacheControl, Set, Count;
    if cache {
      CountMark(v, CacheControl(longLived));
      MarkedHasMarker(v, CacheControl(longLived));
      SetIsObject(v, Marker(), CacheControl(longLived));
    }
  }

  lemma OrdinaryKeys()
    ensures Marker() !in ["type", "text", "media_type", "data", "url", "file_id", "source", "citations", "enabled", "id", "name",
                          "input", "tool_use_id", "content", "is_error", "role", "description", "input_schema", "strict",
                          "allowed_callers", "max_uses", "allowed_domains", "blocked_domains"]
  {
  }

  lemma SourceUnmarked(source: MediaSource)
    ensures Count(SourceJson(source)) == 0
  {
    hide Count, Marker;
    assert forall s :: Count(JStr(s)) == 0 by { LeavesUnmarked(); }
    OrdinaryKeys();
    match source
    case Base64(m, d) => PlainObject(SourceJson(source).fields);
    case Url(u) => PlainObject(SourceJson(source).fields);
    case File(f) => PlainObject(SourceJson(source).fields);
    case PlainText(t) => PlainObject(SourceJson(source).fields);
  }

  lemma LeavesUnmarked()
    ensures forall s :: Count(JStr(s)) == 0
    ensures forall b :: Count(JBool(b)) == 0
    ensures forall n :: Count(JNum(n)) == 0
  {
  }

  lemma {:induction false} ItemsUnmarked(items: seq<Json>)
    requires forall i | 0 <= i < |items| :: Count(items[i]) == 0
    ensures CountItems(items) == 0 && Count(JArr(items)) == 0
  {
    hide Count;
    if items != [] {
      ItemsUnmarked(items[1..]);
    }
    ArrayCounts(items);
  }

  lemma StringsUnmarked(s: seq<string>)
    ensures Count(StringArray(s)) == 0
  {
    hide Count;
    LeavesUnmarked();
    ItemsUnmarked(StringArray(s).items);
  }

  lemma ResultUnmarked(content: string, images: seq<ToolImage>)
    ensures Count(ResultContent(content, images)) == 0
  {
    hide Count, Marker, SourceJson;
    LeavesUnmarked();
    OrdinaryKeys();
    if images != [] {
      var items := ResultContent(content, images).items;
      forall i | 0 <= i < |items|
        ensures Count(items[i]) == 0
      {
        if i == 0 {
          PlainObject([Field("type", JStr("text")), Field("text", JStr(content))]);
        } else {
          var image := images[i - 1];
          SourceUnmarked(Base64(image.mediaType, image.data));
          PlainObject(ImageJson(image).fields);
          assert items[i] == ImageJson(image);
        }
      }
      ItemsUnmarked(items);
    }
  }

  predicate IsFlagged(b: ContentBlock) {
    b.Text? && b.cache
  }

  /** No marker hides in the input of a tool call. */
  predicate CleanInput(b: ContentBlock) {
    b.ToolUse? ==> Count(b.input) == 0
  }

  /** A block carries a marker exactly if it is a text with a cache flag. */
  lemma BlockCount(b: ContentBlock, longLived: bool)
    requires CleanInput(b) && BlockJson(b, longLived).Some?
    ensures var v := BlockJson(b, longLived).value;
            && v.JObj? && Count(v) == (if IsFlagged(b) then 1 else 0) && (Get(v, Marker()).Some? <==> IsFlagged(b))
  {
    hide Count, Marker, Set, SourceJson, ResultContent, Get;
    LeavesUnmarked();
    OrdinaryKeys();
    match b
    case Text(text, cache) =>
      PlainObject([Field("type", JStr("text")), Field("text", JStr(text))]);
      MarkedCount(JObj([Field("type", JStr("text")), Field("text", JStr(text))]), cache, longLived);
    case Image(source) =>
      SourceUnmarked(source);
      PlainObject([Field("type", JStr("image")), Field("source", SourceJson(source))]);
    case Document(source, citations) =>
      SourceUnmarked(source);
      PlainObject([Field("type", JStr("document")), Field("source", SourceJson(source))]);
      PlainObject([Field("enabled", JBool(true))]);
      SetKeepsUnmarked(JObj([Field("type", JStr("document")), Field("source", SourceJson(source))]), "citations",
                       JObj([Field("enabled", JBool(true))]));
    case ToolUse(id, name, input) =>
      PlainObject([Field("type", JStr("tool_use")), Field("id", JStr(id)), Field("name", JStr(name)), Field("input", input)]);
    case ToolResult(id, content, isError, images) =>
      ResultUnmarked(content, images);
      var v := [Field("type", JStr("tool_result")), Field("tool_use_id", JStr(id)), Field("content", ResultContent(content, images))];
      PlainObject(v);
      SetKeepsUnmarked(JObj(v), "is_error", JBool(true));
  }

  function Flags(blocks: Blocks): nat {
    if blocks == [] then 0 else (if IsFlagged(blocks[0]) then 1 else 0) + Flags(blocks[1..])
  }

  predicate CleanBlocks(blocks: Blocks) {
    forall i | 0 <= i < |blocks| :: CleanInput(blocks[i])
  }

  lemma {:induction false} BlocksCount(blocks: Blocks, longLived: bool)
    requires CleanBlocks(blocks)
    ensures CountItems(BlocksJson(blocks, longLived)) == Flags(blocks)
  {
    hide Count, BlockJson, IsFlagged, CleanInput;
    if blocks != [] {
      BlocksCount(blocks[1..], longLived);
      var v := BlockJson(blocks[0], longLived);
      if v.Some? {
        BlockCount(blocks[0], longLived);
        CountItemsAppend([v.value], BlocksJson(blocks[1..], longLived));
        CountOne(v.value);
      } else {
        OnlyThinkingIsDropped(blocks[0], longLived);
        assert [] + BlocksJson(blocks[1..], longLived) == BlocksJson(blocks[1..], longLived);
      }
    }
  }

  lemma OnlyThinkingIsDropped(b: ContentBlock, longLived: bool)
    ensures BlockJson(b, longLived) == None ==> b.Thinking? && !IsFlagged(b)
  {
    hide Marked, Set;
  }

  lemma MessageCount(m: Message, longLived: bool)
    requires CleanBlocks(m.content)
    ensures Count(MessageJson(m, longLived)) == Flags(m.content)
  {
    hide BlocksJson, Marker, Flags, CleanBlocks, CountItems;
    BlocksCount(m.content, longLived);
    OrdinaryKeys();
    var role := Field("role", JStr(if m.role.User? then "user" else "assistant"));
    var content := Field("content", JArr(BlocksJson(m.content, longLived)));
    TwoFields(role, content);
    LeavesUnmarked();
  }

  lemma TwoFields(a: Field, b: Field)
    requires a.key != Marker() && b.key != Marker()
    ensures Count(JObj([a, b])) == Count(a.value) + Count(b.value)
  {
    hide Marker;
    assert [a, b][1..] == [b] && [b][1..] == [] && CountFields([]) == 0;
    assert CountFields([b]) == Count(b.value);
    assert FindField([b], Marker()) == None;
  }

  function AllFlags(h: Transcript): nat {
    if h == [] then 0 else Flags(h[0].content) + AllFlags(h[1..])
  }

  predicate CleanHistory(h: Transcript) {
    forall i | 0 <= i < |h| :: CleanBlocks(h[i].content)
  }

  lemma {:induction false} MessagesCount(h: Transcript, longLived: bool)
    requires CleanHistory(h)
    ensures CountItems(MessagesJson(h, longLived)) == AllFlags(h)
  {
    hide Count, MessageJson, Flags, CleanBlocks;
    if h != [] {
      MessagesCount(h[1..], longLived);
      MessageCount(h[0], longLived);
      CountItemsAppend([MessageJson(h[0], longLived)], MessagesJson(h[1..], longLived));
      CountOne(MessageJson(h[0], longLived));
    }
  }

  // ----- tools -----

  function ToolFlags(tools: seq<ToolDef>): nat {
    if tools == [] then 0 else (if tools[0].cache then 1 else 0) + ToolFlags(tools[1..])
  }

  predicate CleanTools(tools: seq<ToolDef>) {
    forall i | 0 <= i < |tools| :: Count(tools[i].schema) == 0
  }

  lemma ToolCount(t: ToolDef, longLived: bool)
    requires Count(t.schema) == 0
    ensures Count(ToolJson(t, longLived)) == if t.cache then 1 else 0
  {
    hide Count, Marker, Set;
    LeavesUnmarked();
    OrdinaryKeys();
    var v := [Field("name", JStr(t.name)), Field("description", JStr(t.description)), Field("input_schema", t.schema)];
    PlainObject(v);
    SetKeepsUnmarked(JObj(v), "strict", JBool(true));
    MarkedCount(if t.strict then Set(JObj(v), "strict", JBool(true)) else JObj(v), t.cache, longLived);
  }

  lemma {:induction false} ToolsCount(tools: seq<ToolDef>, longLived: bool)
    requires CleanTools(tools)
    ensures CountItems(ToolsJson(tools, longLived)) == ToolFlags(tools)
  {
    hide Count, ToolJson;
    if tools != [] {
      ToolsCount(tools[1..], longLived);
      ToolCount(tools[0], longLived);
      CountItemsAppend([ToolJson(tools[0], longLived)], ToolsJson(tools[1..], longLived));
      CountOne(ToolJson(tools[0], longLived));
    }
  }

  lemma UsesUnmarked(v: Json, maxUses: Option<nat>)
    requires v.JObj? && Unmarked(v)
    ensures MaybeUses(v, maxUses).JObj? && Unmarked(MaybeUses(v, maxUses))
  {
    hide Count, Marker, Set;
    LeavesUnmarked();
    OrdinaryKeys();
    if maxUses.Some? {
      SetKeepsUnmarked(v, "max_uses", JNum(maxUses.value));
    }
  }

  lemma DirectUnmarked(v: Json)
    requires v.JObj? && Unmarked(v)
    ensures Count(Direct(v)) == 0
  {
    hide Count, Marker, Set;
    OrdinaryKeys();
    StringsUnmarked(["direct"]);
    SetKeepsUnmarked(v, "allowed_callers", StringArray(["direct"]));
  }

  lemma NamedTool(kind: string, name: string)
    ensures Unmarked(JObj([Field("type", JStr(kind)), Field("name", JStr(name))]))
  {
    hide Count, Marker;
    LeavesUnmarked();
    OrdinaryKeys();
    PlainObject([Field("type", JStr(kind)), Field("name", JStr(name))]);
  }

  lemma ServerToolUnmarked(t: ServerTool)
    requires ServerToolJson(t).Some?
    ensures Count(ServerToolJson(t).value) == 0
  {
    hide Count, Marker, Set, Direct, MaybeUses, Unmarked, StringArray;
    OrdinaryKeys();
    match t
    case WebSearch(maxUses, allowed, blocked) =>
      NamedTool("web_search_20260209", "web_search");
      var v := MaybeUses(JObj([Field("type", JStr("web_search_20260209")), Field("name", JStr("web_search"))]), maxUses);
      UsesUnmarked(JObj([Field("type", JStr("web_search_20260209")), Field("name", JStr("web_search"))]), maxUses);
      StringsUnmarked(allowed);
      StringsUnmarked(blocked);
      SetKeepsUnmarked(v, "allowed_domains", StringArray(allowed));
      var a := if allowed == [] then v else Set(v, "allowed_domains", StringArray(allowed));
      SetKeepsUnmarked(a, "blocked_domains", StringArray(blocked));
      DirectUnmarked(if blocked == [] then a else Set(a, "blocked_domains", StringArray(blocked)));
    case WebFetch(maxUses) =>
      NamedTool("web_fetch_20260209", "web_fetch");
      UsesUnmarked(JObj([Field("type", JStr("web_fetch_20260209")), Field("name", JStr("web_fetch"))]), maxUses);
      DirectUnmarked(MaybeUses(JObj([Field("type", JStr("web_fetch_20260209")), Field("name", JStr("web_fetch"))]), maxUses));
    case CodeExecution =>
      NamedTool("code_execution_20260120", "code_execution");
      DirectUnmarked(JObj([Field("type", JStr("code_execution_20260120")), Field("name", JStr("code_execution"))]));
    case _ =>
  }

  lemma {:induction false} ServerToolsUnmarked(tools: seq<ServerTool>)
    ensures CountItems(ServerToolsJson(tools)) == 0
  {
    hide Count, ServerToolJson;
    if tools != [] {
      ServerToolsUnmarked(tools[1..]);
      var v := ServerToolJson(tools[0]);
      if v.Some? {
        ServerToolUnmarked(tools[0]);
        CountItemsAppend([v.value], ServerToolsJson(tools[1..]));
        CountOne(v.value);
      } else {
        assert [] + ServerToolsJson(tools[1..]) == ServerToolsJson(tools[1..]);
      }
    }
  }

  lemma BuiltinUnmarked(t: BuiltinTool)
    ensures Count(BuiltinToolJson(t)) == 0
  {
    hide Count;
    match t
    case Bash => NamedTool("bash_20250124", "bash");
    case TextEditor => NamedTool("text_editor_20250728", "str_replace_based_edit_tool");
    case Memory => NamedTool("memory_20250818", "memory");
  }

  lemma AllToolsCount(req: ChatRequest, longLived: bool)
    requires CleanTools(req.tools)
    ensures CountItems(AllTools(req, longLived)) == ToolFlags(req.tools)
  {
    hide Count, BuiltinToolJson;
    var builtin := seq(|req.builtinTools|, i requires 0 <= i < |req.builtinTools| => BuiltinToolJson(req.builtinTools[i]));
    ToolsCount(req.tools, longLived);
    ServerToolsUnmarked(req.serverTools);
    forall i | 0 <= i < |builtin|
      ensures Count(builtin[i]) == 0
    {
      BuiltinUnmarked(req.builtinTools[i]);
    }
    ItemsUnmarked(builtin);
    CountItemsAppend(ToolsJson(req.tools, longLived), ServerToolsJson(req.serverTools));
    CountItemsAppend(ToolsJson(req.tools, longLived) + ServerToolsJson(req.serverTools), builtin);
  }

  // ----- the whole body -----

  lemma SystemCount(s: SystemPrompt, longLived: bool)
    ensures Count(SystemJson(s, longLived)) == if s.cache then 1 else 0
  {
    hide Count, Marker, Marked;
    LeavesUnmarked();
    OrdinaryKeys();
    var v := [Field("type", JStr("text")), Field("text", JStr(s.text))];
    PlainObject(v);
    MarkedCount(JObj(v), s.cache, longLived);
    CountOne(Marked(JObj(v), s.cache, longLived));
    ArrayCounts([Marked(JObj(v), s.cache, longLived)]);
  }

  lemma PromptMembers(req: ChatRequest, longLived: bool)
    ensures var b := Prompted(req, longLived);
            && b.JObj?
            && At(b, "messages") == JArr(MessagesJson(req.messages, longLived))
            && At(b, "system") == (if req.system.Some? then SystemJson(req.system.value, longLived) else JNull)
            && At(b, "tools") == (if req.tools == [] && req.serverTools == [] && req.builtinTools == [] then JNull
                                  else JArr(AllTools(req, longLived)))
  {
    hide AllTools, SystemJson, MessagesJson, Set;
    var b := Base(req, longLived);
    BaseMembers(req, longLived);
    NotMarker();
    var s := if req.system.Some? then Set(b, "system", SystemJson(req.system.value, longLived)) else b;
    if req.system.Some? {
      SetIsObject(b, "system", SystemJson(req.system.value, longLived));
      AtAfterSet(b, "system", SystemJson(req.system.value, longLived), "system");
      AtAfterSet(b, "system", SystemJson(req.system.value, longLived), "tools");
      AtAfterSet(b, "system", SystemJson(req.system.value, longLived), "messages");
    }
    if !(req.tools == [] && req.serverTools == [] && req.builtinTools == []) {
      var all := JArr(AllTools(req, longLived));
      SetIsObject(s, "tools", all);
      AtAfterSet(s, "tools", all, "system");
      AtAfterSet(s, "tools", all, "tools");
      AtAfterSet(s, "tools", all, "messages");
    }
  }

  lemma BaseMembers(req: ChatRequest, longLived: bool)
    ensures var b := Base(req, longLived);
            At(b, "messages") == JArr(MessagesJson(req.messages, longLived)) && At(b, "system") == JNull && At(b, "tools") == JNull
  {
    hide MessagesJson;
    var f := Base(req, longLived).fields;
    SkipField(f, "messages");
    SkipField(f[1..], "messages");
    SkipField(f, "system");
    SkipField(f[1..], "system");
    SkipField(f[2..], "system");
    SkipField(f[3..], "system");
    SkipField(f, "tools");
    SkipField(f[1..], "tools");
    SkipField(f[2..], "tools");
    SkipField(f[3..], "tools");
    assert f[1..][1..] == f[2..] && f[2..][1..] == f[3..] && f[3..][1..] == [];
  }

  lemma SkipField(fields: seq<Field>, key: string)
    requires fields != [] && fields[0].key != key
    ensures FindField(fields, key) == FindField(fields[1..], key)
  {
  }

  /** Before the tail is marked a body carries one breakpoint for each cache flag of its request. */
  lemma PromptCount(req: ChatRequest, longLived: bool, b: Json)
    requires CleanHistory(req.messages) && CleanTools(req.tools) && IsBody(req, longLived, b)
    ensures CountBreakpoints(b) == (if req.system.Some? && req.system.value.cache then 1 else 0)
                                   + ToolFlags(req.tools) + AllFlags(req.messages)
  {
    hide Count, Prompted, AllTools, SystemJson, MessagesJson, AllFlags, ToolFlags, CleanHistory, CleanTools, IsBody;
    PromptMembers(req, longLived);
    PromptIsKept(req, longLived, b, "system");
    PromptIsKept(req, longLived, b, "tools");
    PromptIsKept(req, longLived, b, "messages");
    MessagesCount(req.messages, longLived);
    ArrayCounts(MessagesJson(req.messages, longLived));
    AllToolsCount(req, longLived);
    ArrayCounts(AllTools(req, longLived));
    NoToolFlags();
    NullCount();
    if req.system.Some? {
      SystemCount(req.system.value, longLived);
    }
  }

  lemma NullCount()
    ensures Count(JNull) == 0
  {
  }

  lemma NoToolFlags()
    ensures ToolFlags([]) == 0
  {
  }

  // ----- the requests the agent builds -----

  /** A history and tools that ask for no breakpoint of their own. */
  predicate Unflagged(h: Transcript) {
    forall i | 0 <= i < |h| :: forall k | 0 <= k < |h[i].content| :: !IsFlagged(h[i].content[k])
  }

  lemma {:induction false} NoFlags(blocks: Blocks)
    requires forall k | 0 <= k < |blocks| :: !IsFlagged(blocks[k])
    ensures Flags(blocks) == 0
  {
    if blocks != [] {
      NoFlags(blocks[1..]);
    }
  }

  lemma {:induction false} NoFlagsAnywhere(h: Transcript)
    requires Unflagged(h)
    ensures AllFlags(h) == 0
  {
    if h != [] {
      NoFlags(h[0].content);
      NoFlagsAnywhere(h[1..]);
    }
  }

  lemma SkeletonFlags(h: Transcript, skeleton: Option<string>, caching: bool)
    requires Unflagged(h) && CleanHistory(h)
    ensures var g := WithSkeleton(h, skeleton, caching);
            AllFlags(g) == (if skeleton.Some? && h != [] && caching then 1 else 0) && CleanHistory(g)
  {
    NoFlagsAnywhere(h);
    var g := WithSkeleton(h, skeleton, caching);
    if skeleton.Some? && h != [] {
      var b := SkeletonBlock(skeleton.value, caching);
      assert g[1..] == h[1..] && g[0].content == [b] + h[0].content;
      assert ([b] + h[0].content)[1..] == h[0].content;
      assert CleanBlocks([b] + h[0].content) by {
        assert CleanBlocks(h[0].content);
      }
    }
  }

  lemma {:induction false} ToolFlagsWhenMarked(tools: seq<ToolDef>, caching: bool)
    requires forall i | 0 <= i < |tools| :: !tools[i].cache
    ensures ToolFlags(MarkLastTool(tools, caching)) == if caching && tools != [] then 1 else 0
  {
    if tools != [] {
      var m := MarkLastTool(tools, caching);
      if |tools| == 1 {
        assert m[1..] == [] && ToolFlags([]) == 0;
      } else {
        ToolFlagsWhenMarked(tools[1..], caching);
        assert m[1..] == MarkLastTool(tools[1..], caching) && m[0] == tools[0];
      }
    }
  }

  lemma TailIsLastBlock(h: Transcript, longLived: bool)
    requires h != [] && BlocksJson(h[|h| - 1].content, longLived) != []
    ensures var blocks := BlocksJson(h[|h| - 1].content, longLived);
            TailBlock(JArr(MessagesJson(h, longLived))) == Some(blocks[|blocks| - 1])
  {
    hide BlocksJson;
    MessagesLast(h, longLived);
    var m := MessageJson(h[|h| - 1], longLived);
    assert At(m, "content") == JArr(BlocksJson(h[|h| - 1].content, longLived)) by {
      SkipField(m.fields, "content");
      assert m.fields[1..][0] == Field("content", JArr(BlocksJson(h[|h| - 1].content, longLived)));
    }
  }

  lemma {:induction false} MessagesLast(h: Transcript, longLived: bool)
    requires h != []
    ensures |MessagesJson(h, longLived)| == |h|
    ensures MessagesJson(h, longLived)[|h| - 1] == MessageJson(h[|h| - 1], longLived)
  {
    hide MessageJson;
    if |h| > 1 {
      MessagesLast(h[1..], longLived);
    } else {
      assert h[1..] == [] && MessagesJson([], longLived) == [];
    }
  }

  lemma {:induction false} BlocksAreObjects(blocks: Blocks, longLived: bool, i: nat)
    requires CleanBlocks(blocks) && i < |BlocksJson(blocks, longLived)|
    ensures BlocksJson(blocks, longLived)[i].JObj?
  {
    hide BlockJson, CleanInput;
    var first := BlockJson(blocks[0], longLived);
    if first.Some? {
      BlockCount(blocks[0], longLived);
      if i > 0 {
        BlocksAreObjects(blocks[1..], longLived, i - 1);
      }
    } else {
      assert [] + BlocksJson(blocks[1..], longLived) == BlocksJson(blocks[1..], longLived);
      BlocksAreObjects(blocks[1..], longLived, i);
    }
  }

  /** Every body built for a request of the agent carries at most four breakpoints, and if anything of the
      last message is sent, its last block carries one: so the whole transcript is a cached prefix of the
      next request. */
  lemma AtMostFourAndTailMarked(s: Settings, model: string, caching: bool, h: Transcript, choice: Option<ToolChoice>,
                                longLived: bool, b: Json)
    requires Unflagged(h) && CleanHistory(h)
    requires CleanTools(s.tools) && forall i | 0 <= i < |s.tools| :: !s.tools[i].cache
    requires IsBody(BuildRequest(s, model, caching, h, choice), longLived, b)
    ensures CountBreakpoints(TailMarked(b)) <= 4
    ensures var g := WithSkeleton(h, s.skeleton, caching);
            h != [] && BlocksJson(g[|g| - 1].content, longLived) != [] ==>
              TailBlock(At(TailMarked(b), "messages")).Some? && Get(TailBlock(At(TailMarked(b), "messages")).value, Marker()).Some?
  {
    hide Count, Prompted, MessagesJson, BlocksJson, AllFlags, ToolFlags, CleanHistory, Unflagged, TailMarked, TailBlock;
    hide Marker, CleanTools, IsBody;
    var req := BuildRequest(s, model, caching, h, choice);
    PromptIsKept(req, longLived, b, "messages");
    assert b.JObj? by { BodyIsObject(req, longLived, b); }
    var g := WithSkeleton(h, s.skeleton, caching);
    SkeletonFlags(h, s.skeleton, caching);
    ToolFlagsWhenMarked(s.tools, caching);
    MarkedToolsClean(s.tools, caching);
    PromptCount(req, longLived, b);
    TailMarkingCounts(b);
    PromptMembers(req, longLived);
    if h != [] && BlocksJson(g[|g| - 1].content, longLived) != [] && !Markable(b) {
      var blocks := BlocksJson(g[|g| - 1].content, longLived);
      TailIsLastBlock(g, longLived);
      assert CleanBlocks(g[|g| - 1].content) by { LastIsClean(g); }
      BlocksAreObjects(g[|g| - 1].content, longLived, |blocks| - 1);
      assert TailMarked(b) == b by { LeftAlone(b); }
    }
  }

  lemma BodyIsObject(req: ChatRequest, longLived: bool, b: Json)
    requires IsBody(req, longLived, b)
    ensures b.JObj?
  {
  }

  lemma LeftAlone(b: Json)
    requires !Markable(b)
    ensures TailMarked(b) == b
  {
  }

  lemma LastIsClean(g: Transcript)
    requires CleanHistory(g) && g != []
    ensures CleanBlocks(g[|g| - 1].content)
  {
  }

  lemma MarkedToolsClean(tools: seq<ToolDef>, caching: bool)
    requires CleanTools(tools)
    ensures CleanTools(MarkLastTool(tools, caching))
  {
  }
}

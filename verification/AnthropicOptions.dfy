/** What an Anthropic body asks for besides its prompt, told per model family. */
module AnthropicOptions {
  import opened Protocol
  import opened Request
  import opened AnthropicWire
  import opened AnthropicBody
  import opened AnthropicRead

  /** The model's name contains one of these. */
  predicate OneOf(model: string, parts: seq<string>) {
    exists k | 0 <= k < |parts| :: Contains(model, parts[k])
  }

  predicate IsFussy(model: string) {
    OneOf(model, ["opus-4-7", "opus-4-8", "fable-5", "mythos-5"])
  }

  predicate AlwaysThinks(model: string) {
    OneOf(model, ["sonnet-5-5"])
  }

  predicate TakesBudget(model: string) {
    !AlwaysThinks(model) && OneOf(model, ["haiku", "sonnet-4-5", "sonnet-4-0", "opus-4-1", "opus-4-0"])
  }

  function BudgetOf(level: ThinkingLevel): nat {
    if level.High? then 12000 else 4096
  }

  predicate AsksToThink(thinking: Option<ThinkingLevel>) {
    thinking.Some? && (thinking.value.Medium? || thinking.value.High?)
  }

  function One(key: string, value: Json): Json {
    JObj([Field(key, value)])
  }

  lemma Families(model: string)
    ensures RejectsSampling(model) <==> IsFussy(model)
    ensures IsSonnet55(model) <==> AlwaysThinks(model)
    ensures UsesLegacyThinking(model) && !IsSonnet55(model) <==> TakesBudget(model)
  {
    hide Contains;
    var a := ["opus-4-7", "opus-4-8", "fable-5", "mythos-5"];
    assert a[0] == "opus-4-7" && a[1] == "opus-4-8" && a[2] == "fable-5" && a[3] == "mythos-5";
    var b := ["haiku", "sonnet-4-5", "sonnet-4-0", "opus-4-1", "opus-4-0"];
    assert b[0] == "haiku" && b[1] == "sonnet-4-5" && b[2] == "sonnet-4-0" && b[3] == "opus-4-1" && b[4] == "opus-4-0";
    var c := ["sonnet-5-5"];
    assert c[0] == "sonnet-5-5";
  }

  // ----- sampling -----

  /** A sampling parameter is sent exactly if it was asked for and the model takes it, and a temperature
      only if nothing is said about thinking. */
  predicate SamplingRule(req: ChatRequest, b: Json) {
    var takes, thinks := !IsFussy(req.model), AlwaysThinks(req.model) || AsksToThink(req.thinking);
    && Get(b, "temperature") == (if req.temperature.Some? && takes && !thinks then Some(JReal(req.temperature.value)) else None)
    && Get(b, "top_p") == (if req.topP.Some? && takes then Some(JReal(req.topP.value)) else None)
    && Get(b, "top_k") == (if req.topK.Some? && takes then Some(JNum(req.topK.value)) else None)
    && (if req.stopSequences == [] then Get(b, "stop_sequences") == None
        else At(b, "stop_sequences").JArr? && |At(b, "stop_sequences").items| == |req.stopSequences|
             && forall i | 0 <= i < |req.stopSequences| :: At(b, "stop_sequences").items[i] == JStr(req.stopSequences[i]))
  }

  // ----- thinking -----

  predicate ThinkingRule(req: ChatRequest, b: Json) {
    var deep, model := AsksToThink(req.thinking), req.model;
    && Get(b, "thinking") ==
       (if AlwaysThinks(model) then Some(One("type", JStr(if deep then "adaptive" else "between_tools")))
        else if !deep then None
        else if TakesBudget(model) then
          Some(JObj([Field("type", JStr("enabled")), Field("budget_tokens", JNum(BudgetOf(req.thinking.value)))]))
        else Some(One("type", JStr("adaptive"))))
    && At(b, "max_tokens") ==
       (if deep && TakesBudget(model) && req.maxTokens <= BudgetOf(req.thinking.value)
        then JNum(BudgetOf(req.thinking.value) + 4096) else JNum(req.maxTokens))
    && At(At(b, "output_config"), "effort") ==
       (if deep && !TakesBudget(model) then JStr(if req.thinking.value.High? then "high" else "medium") else JNull)
    && At(At(b, "output_config"), "format") ==
       (if req.outputSchema.Some? then JObj([Field("type", JStr("json_schema")), Field("schema", req.outputSchema.value)]) else JNull)
  }

  // ----- tool choice -----

  predicate ChoiceRule(req: ChatRequest, b: Json) {
    if req.toolChoice.None? then Get(b, "tool_choice") == None
    else
      var c, choice := At(b, "tool_choice"), req.toolChoice.value;
      && At(c, "type") ==
         JStr(match choice
              case Auto => "auto"
              case NoTool => "none"
              case Required => if AlwaysThinks(req.model) then "auto" else "any"
              case Named(_) => if AlwaysThinks(req.model) then "auto" else "tool")
      && At(c, "name") == (if choice.Named? && !AlwaysThinks(req.model) then JStr(choice.name) else JNull)
      && At(c, "disable_parallel_tool_use") == (if req.disableParallel && !choice.NoTool? then JBool(true) else JNull)
  }

  // ----- tools the service runs -----

  /** Three of the hosted tools are on offer here; the others are left out. */
  function Hosted(tools: seq<ServerTool>): seq<ServerTool> {
    if tools == [] then []
    else (if tools[0].WebSearch? || tools[0].WebFetch? || tools[0].CodeExecution? then [tools[0]] else []) + Hosted(tools[1..])
  }

  predicate SaysStrings(v: Json, words: seq<string>) {
    if words == [] then v == JNull
    else v.JArr? && |v.items| == |words| && forall i | 0 <= i < |words| :: v.items[i] == JStr(words[i])
  }

  /** A hosted tool is called only directly, as often and for the domains that were asked for. */
  predicate SaysHosted(v: Json, t: ServerTool) {
    && SaysStrings(At(v, "allowed_callers"), ["direct"])
    && match t
       case WebSearch(uses, allowed, blocked) =>
         && At(v, "type") == JStr("web_search_20260209") && At(v, "name") == JStr("web_search")
         && At(v, "max_uses") == (if uses.Some? then JNum(uses.value) else JNull)
         && SaysStrings(At(v, "allowed_domains"), allowed) && SaysStrings(At(v, "blocked_domains"), blocked)
       case WebFetch(uses) =>
         && At(v, "type") == JStr("web_fetch_20260209") && At(v, "name") == JStr("web_fetch")
         && At(v, "max_uses") == (if uses.Some? then JNum(uses.value) else JNull)
       case CodeExecution => At(v, "type") == JStr("code_execution_20260120") && At(v, "name") == JStr("code_execution")
       case _ => false
  }

  predicate SaysBuiltin(v: Json, t: BuiltinTool) {
    match t
    case Bash => At(v, "type") == JStr("bash_20250124") && At(v, "name") == JStr("bash")
    case TextEditor => At(v, "type") == JStr("text_editor_20250728") && At(v, "name") == JStr("str_replace_based_edit_tool")
    case Memory => At(v, "type") == JStr("memory_20250818") && At(v, "name") == JStr("memory")
  }

  /** Behind the agent's own tools come the hosted ones and then the built-in ones. */
  predicate ToolsRule(req: ChatRequest, b: Json) {
    if req.tools == [] && req.serverTools == [] && req.builtinTools == [] then At(b, "tools") == JNull
    else
      var hosted, n := Hosted(req.serverTools), |req.tools|;
      && At(b, "tools").JArr? && |At(b, "tools").items| == n + |hosted| + |req.builtinTools|
      && (forall k | 0 <= k < |hosted| :: SaysHosted(At(b, "tools").items[n + k], hosted[k]))
      && forall k | 0 <= k < |req.builtinTools| :: SaysBuiltin(At(b, "tools").items[n + |hosted| + k], req.builtinTools[k])
  }

  lemma BuiltinIsSaid(t: BuiltinTool)
    ensures SaysBuiltin(BuiltinToolJson(t), t)
  {
    hide FindField;
    var f := BuiltinToolJson(t).fields;
    TwoMembers(f[0], f[1]);
  }

  lemma StringsAreSaid(words: seq<string>)
    requires words != []
    ensures SaysStrings(StringArray(words), words)
  {
  }

  /** Setting one member of an object leaves the others. */
  lemma AfterSetting(v: Json, key: string, value: Json)
    requires v.JObj?
    ensures Set(v, key, value).JObj? && forall k :: At(Set(v, key, value), k) == if k == key then value else At(v, k)
  {
    forall k
      ensures At(Set(v, key, value), k) == if k == key then value else At(v, k)
    {
      AtAfterSet(v, key, value, k);
    }
  }

  lemma UsesAreSaid(v: Json, uses: Option<nat>)
    requires v.JObj? && At(v, "max_uses") == JNull
    ensures MaybeUses(v, uses).JObj?
    ensures forall k :: At(MaybeUses(v, uses), k) == if k == "max_uses" && uses.Some? then JNum(uses.value) else At(v, k)
  {
    hide Set, At;
    if uses.Some? {
      AfterSetting(v, "max_uses", JNum(uses.value));
    }
  }

  lemma PairIsSaid(kind: string, name: string)
    ensures var v := JObj([Field("type", JStr(kind)), Field("name", JStr(name))]);
            At(v, "type") == JStr(kind) && At(v, "name") == JStr(name)
            && forall k :: k != "type" && k != "name" ==> At(v, k) == JNull
  {
    hide FindField;
    TwoMembers(Field("type", JStr(kind)), Field("name", JStr(name)));
  }

  lemma DirectIsSaid(v: Json)
    requires v.JObj?
    ensures forall k :: k != "allowed_callers" ==> At(Direct(v), k) == At(v, k)
    ensures SaysStrings(At(Direct(v), "allowed_callers"), ["direct"])
  {
    hide Set, At;
    AfterSetting(v, "allowed_callers", StringArray(["direct"]));
    StringsAreSaid(["direct"]);
  }

  lemma HostedIsSaid(t: ServerTool)
    ensures ServerToolJson(t).Some? <==> t.WebSearch? || t.WebFetch? || t.CodeExecution?
    ensures ServerToolJson(t).Some? ==> SaysHosted(ServerToolJson(t).value, t)
  {
    hide Set, At, MaybeUses, Direct, SaysStrings;
    match t
    case WebSearch(uses, allowed, blocked) => SearchIsSaid(uses, allowed, blocked);
    case WebFetch(uses) =>
      var v := JObj([Field("type", JStr("web_fetch_20260209")), Field("name", JStr("web_fetch"))]);
      PairIsSaid("web_fetch_20260209", "web_fetch");
      UsesAreSaid(v, uses);
      DirectIsSaid(MaybeUses(v, uses));
    case CodeExecution =>
      PairIsSaid("code_execution_20260120", "code_execution");
      DirectIsSaid(JObj([Field("type", JStr("code_execution_20260120")), Field("name", JStr("code_execution"))]));
    case _ =>
  }

  lemma SearchIsSaid(uses: Option<nat>, allowed: seq<string>, blocked: seq<string>)
    ensures SaysHosted(ServerToolJson(WebSearch(uses, allowed, blocked)).value, WebSearch(uses, allowed, blocked))
  {
    hide Set, At, MaybeUses, Direct, StringArray, SaysStrings;
    var v := JObj([Field("type", JStr("web_search_20260209")), Field("name", JStr("web_search"))]);
    PairIsSaid("web_search_20260209", "web_search");
    UsesAreSaid(v, uses);
    var w := MaybeUses(v, uses);
    AfterSetting(w, "allowed_domains", StringArray(allowed));
    var a := if allowed == [] then w else Set(w, "allowed_domains", StringArray(allowed));
    AfterSetting(a, "blocked_domains", StringArray(blocked));
    var c := if blocked == [] then a else Set(a, "blocked_domains", StringArray(blocked));
    NothingIsSaid();
    if allowed != [] {
      StringsAreSaid(allowed);
    }
    if blocked != [] {
      StringsAreSaid(blocked);
    }
    DirectIsSaid(c);
  }

  lemma NothingIsSaid()
    ensures SaysStrings(JNull, [])
  {
  }

  lemma {:induction false} HostedAreSaid(tools: seq<ServerTool>)
    ensures |ServerToolsJson(tools)| == |Hosted(tools)|
    ensures forall k | 0 <= k < |Hosted(tools)| :: SaysHosted(ServerToolsJson(tools)[k], Hosted(tools)[k])
  {
    hide SaysHosted, ServerToolJson;
    if tools != [] {
      HostedAreSaid(tools[1..]);
      HostedIsSaid(tools[0]);
    }
  }

  // ----- the members of a body -----

  predicate IsOption(k: string) {
    k in ["temperature", "top_p", "top_k", "stop_sequences", "tool_choice", "thinking", "max_tokens", "output_config",
          "mcp_servers"]
  }

  lemma StartsWithout(req: ChatRequest, longLived: bool, k: string)
    requires IsOption(k) && k != "max_tokens"
    ensures Get(Prompted(req, longLived), k) == None
  {
    hide Prompted;
    PromptedLacks(req, longLived, k);
  }

  lemma MemberIs(req: ChatRequest, longLived: bool, b: Json, k: string)
    requires IsBody(req, longLived, b) && IsOption(k) && k != "max_tokens"
    ensures Get(b, k) == ThinkingMember(req.thinking, req.model, req.maxTokens, k, OptionMember(req, k, None))
  {
    hide Prompted, ThinkingMember, OptionMember;
    StartsWithout(req, longLived, k);
    assert Get(b, k) == BodyMember(req, longLived, k);
  }

  lemma SamplingIsRuled(req: ChatRequest, longLived: bool, b: Json)
    requires IsBody(req, longLived, b)
    ensures SamplingRule(req, b)
  {
    hide IsBody, RejectsSampling, IsSonnet55, UsesLegacyThinking, IsFussy, AlwaysThinks, TakesBudget, FindField, Set;
    hide ThinkingJson, FormatJson, ChoiceJson, ServersJson;
    Families(req.model);
    MemberIs(req, longLived, b, "temperature");
    MemberIs(req, longLived, b, "top_p");
    MemberIs(req, longLived, b, "top_k");
    MemberIs(req, longLived, b, "stop_sequences");
  }

  lemma EffortIsRuled(req: ChatRequest, was: Option<Json>, effort: Json)
    requires was == if req.outputSchema.Some? then Some(Set(JNull, "format", FormatJson(req.outputSchema.value))) else None
    ensures At(OrNull(was), "effort") == JNull
    ensures At(OrNull(was), "format") == if req.outputSchema.Some? then FormatJson(req.outputSchema.value) else JNull
    ensures var c := Set(OrNull(was), "effort", effort);
            At(c, "effort") == effort && At(c, "format") == if req.outputSchema.Some? then FormatJson(req.outputSchema.value) else JNull
  {
    hide FormatJson, SetField;
    if req.outputSchema.Some? {
      FindAfterSet([], "format", FormatJson(req.outputSchema.value), "effort");
      FindAfterSet([], "format", FormatJson(req.outputSchema.value), "format");
    }
    var f := if was.Some? then was.value.fields else [];
    FindAfterSet(f, "effort", effort, "effort");
    FindAfterSet(f, "effort", effort, "format");
  }

  lemma ConfigIsRuled(req: ChatRequest, longLived: bool, b: Json)
    requires IsBody(req, longLived, b)
    ensures var deep := AsksToThink(req.thinking);
            At(At(b, "output_config"), "effort") ==
            if deep && !TakesBudget(req.model) then JStr(if req.thinking.value.High? then "high" else "medium") else JNull
    ensures At(At(b, "output_config"), "format") ==
            if req.outputSchema.Some? then JObj([Field("type", JStr("json_schema")), Field("schema", req.outputSchema.value)]) else JNull
  {
    hide IsBody, RejectsSampling, IsSonnet55, UsesLegacyThinking, IsFussy, AlwaysThinks, TakesBudget, FindField, Set;
    hide ChoiceJson, ServersJson;
    Families(req.model);
    MemberIs(req, longLived, b, "output_config");
    var was := OptionMember(req, "output_config", None);
    assert was == if req.outputSchema.Some? then Some(Set(JNull, "format", FormatJson(req.outputSchema.value))) else None;
    EffortIsRuled(req, was, Effort(req.thinking));
    assert At(b, "output_config") == OrNull(Get(b, "output_config"));
  }

  lemma ThinkingIsRuled(req: ChatRequest, longLived: bool, b: Json)
    requires IsBody(req, longLived, b)
    ensures ThinkingRule(req, b)
  {
    hide IsBody, RejectsSampling, IsSonnet55, UsesLegacyThinking, IsFussy, AlwaysThinks, TakesBudget, FindField, Set;
    hide FormatJson, ChoiceJson, ServersJson, OptionMember;
    Families(req.model);
    MemberIs(req, longLived, b, "thinking");
    NoOption(req, "thinking", None);
    LimitIs(req, longLived, b);
    ConfigIsRuled(req, longLived, b);
  }

  lemma LimitIs(req: ChatRequest, longLived: bool, b: Json)
    requires IsBody(req, longLived, b)
    ensures Get(b, "max_tokens") == ThinkingMember(req.thinking, req.model, req.maxTokens, "max_tokens", Some(JNum(req.maxTokens)))
  {
    hide Prompted, ThinkingMember;
    PromptedLimit(req, longLived);
    NoOption(req, "max_tokens", Some(JNum(req.maxTokens)));
    assert Get(b, "max_tokens") == BodyMember(req, longLived, "max_tokens");
  }

  lemma ChoiceIsRuled(req: ChatRequest, longLived: bool, b: Json)
    requires IsBody(req, longLived, b)
    ensures ChoiceRule(req, b)
  {
    hide IsBody, RejectsSampling, IsSonnet55, UsesLegacyThinking, IsFussy, AlwaysThinks, TakesBudget, FindField, Set;
    hide FormatJson, ChoiceJson, ServersJson;
    Families(req.model);
    MemberIs(req, longLived, b, "tool_choice");
    if req.toolChoice.Some? {
      KindReads(req.toolChoice.value, req.model);
      ChoiceReads(req.toolChoice.value, req.disableParallel, req.model);
    }
  }

  lemma KindReads(choice: ToolChoice, model: string)
    ensures var c := ChoiceJson(choice, false, model);
            && c.JObj? && At(c, "disable_parallel_tool_use") == JNull
            && At(c, "type") == JStr(match choice
                                     case Auto => "auto"
                                     case NoTool => "none"
                                     case Required => if IsSonnet55(model) then "auto" else "any"
                                     case Named(_) => if IsSonnet55(model) then "auto" else "tool")
            && At(c, "name") == (if choice.Named? && !IsSonnet55(model) then JStr(choice.name) else JNull)
  {
    hide IsSonnet55, FindField;
    var f := ChoiceJson(choice, false, model).fields;
    if |f| == 1 {
      OneMember(f[0]);
    } else {
      TwoMembers(f[0], f[1]);
    }
  }

  lemma ChoiceReads(choice: ToolChoice, disableParallel: bool, model: string)
    ensures var c, kind := ChoiceJson(choice, disableParallel, model), ChoiceJson(choice, false, model);
            && At(c, "type") == At(kind, "type") && At(c, "name") == At(kind, "name")
            && At(c, "disable_parallel_tool_use") == (if disableParallel && !choice.NoTool? then JBool(true) else JNull)
  {
    hide IsSonnet55, Set, At;
    KindReads(choice, model);
    AfterSetting(ChoiceJson(choice, false, model), "disable_parallel_tool_use", JBool(true));
  }

 lemma ToolsAreRuled(req: ChatRequest, longLived: bool, b: Json)
    requires IsBody(req, longLived, b)
    ensures ToolsRule(req, b)
  {
    hide IsBody, Prompted, ToolsJson, ServerToolsJson, SaysHosted, SaysBuiltin, BuiltinToolJson, SystemJson, MessagesJson, At, Hosted;
    PromptMembers(req, longLived);
    PromptIsKept(req, longLived, b, "tools");
    ToolsRead(req.tools, longLived);
    HostedAreSaid(req.serverTools);
    forall k | 0 <= k < |req.builtinTools|
      ensures SaysBuiltin(BuiltinToolJson(req.builtinTools[k]), req.builtinTools[k])
    {
      BuiltinIsSaid(req.builtinTools[k]);
    }
  }

  // ----- servers -----

  predicate SaysServer(v: Json, s: McpServer) {
    && At(v, "type") == JStr("url") && At(v, "name") == JStr(s.name) && At(v, "url") == JStr(s.url)
    && At(v, "authorization_token") == (if s.token.Some? then JStr(s.token.value) else JNull)
  }

  predicate ServersRule(req: ChatRequest, b: Json) {
    if req.mcpServers == [] then Get(b, "mcp_servers") == None
    else
      && At(b, "mcp_servers").JArr? && |At(b, "mcp_servers").items| == |req.mcpServers|
      && forall k | 0 <= k < |req.mcpServers| :: SaysServer(At(b, "mcp_servers").items[k], req.mcpServers[k])
  }

  lemma ServerIsSaid(s: McpServer)
    ensures SaysServer(ServerJson(s), s)
  {
    hide FindField, Set;
    var v := JObj([Field("type", JStr("url")), Field("name", JStr(s.name)), Field("url", JStr(s.url))]);
    ThreeMembers(v.fields[0], v.fields[1], v.fields[2]);
    if s.token.Some? {
      AfterSetting(v, "authorization_token", JStr(s.token.value));
    }
  }

  lemma ServersAreRuled(req: ChatRequest, longLived: bool, b: Json)
    requires IsBody(req, longLived, b)
    ensures ServersRule(req, b)
  {
    hide IsBody, SaysServer, ServerJson, Set, FindField, RejectsSampling, FormatJson, ChoiceJson;
    MemberIs(req, longLived, b, "mcp_servers");
    forall k | 0 <= k < |req.mcpServers|
      ensures SaysServer(ServerJson(req.mcpServers[k]), req.mcpServers[k])
    {
      ServerIsSaid(req.mcpServers[k]);
    }
  }

  // ----- every body -----

  /** Every body built for a request asks for sampling, thinking and a tool choice as the model's family
      takes them, and offers the hosted tools, the built-in tools and the servers that were asked for. */
  lemma EveryBodyIsRuled(req: ChatRequest, longLived: bool, b: Json)
    requires IsBody(req, longLived, b)
    ensures SamplingRule(req, b) && ThinkingRule(req, b) && ChoiceRule(req, b) && ToolsRule(req, b) && ServersRule(req, b)
  {
    hide IsBody, SamplingRule, ThinkingRule, ChoiceRule, ToolsRule, ServersRule;
    ToolsAreRuled(req, longLived, b);
    ServersAreRuled(req, longLived, b);
    SamplingIsRuled(req, longLived, b);
    ThinkingIsRuled(req, longLived, b);
    ChoiceIsRuled(req, longLived, b);
  }
}

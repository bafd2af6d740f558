/** What the agent asks a provider for. */
module Request {
  import opened Protocol
  import opened History

  datatype ThinkingLevel = Off | Low | Medium | High

  datatype ToolChoice = Auto | Required | NoTool | Named(name: string)

  datatype SystemPrompt = SystemPrompt(text: string, cache: bool)

  datatype ToolDef = ToolDef(name: string, description: string, schema: Json, cache: bool, strict: bool)

  datatype ServerTool =
    | WebSearch(maxUses: Option<nat>, allowedDomains: seq<string>, blockedDomains: seq<string>)
    | WebFetch(maxUses: Option<nat>)
    | CodeExecution
    | XSearch
    | CollectionsSearch
    | UrlContext

  datatype BuiltinTool = Bash | TextEditor | Memory

  datatype McpServer = McpServer(name: string, url: string, token: Option<string>)

  datatype ChatRequest = ChatRequest(
    model: string,
    system: Option<SystemPrompt>,
    messages: Transcript,
    tools: seq<ToolDef>,
    maxTokens: nat,
    temperature: Option<real>,
    thinking: Option<ThinkingLevel>,
    toolChoice: Option<ToolChoice>,
    disableParallel: bool,
    topP: Option<real>,
    topK: Option<nat>,
    stopSequences: seq<string>,
    outputSchema: Option<Json>,
    serverTools: seq<ServerTool>,
    mcpServers: seq<McpServer>,
    builtinTools: seq<BuiltinTool>)

  /** What stays the same over a task: the prompt with its knob suffix, limits, offered tools and the
      tagged repository skeleton. */
  datatype Settings = Settings(
    system: string,
    maxTokens: nat,
    tools: seq<ToolDef>,
    serverTools: seq<ServerTool>,
    skeleton: Option<string>,
    thinking: Option<ThinkingLevel>)

  function MarkLastTool(tools: seq<ToolDef>, caching: bool): seq<ToolDef> {
    if caching && tools != [] then tools[|tools| - 1 := tools[|tools| - 1].(cache := true)] else tools
  }

  function SkeletonBlock(skeleton: string, caching: bool): ContentBlock {
    Text(skeleton, caching)
  }

  /** The transcript with the repository skeleton ahead of everything in the first message. */
  function WithSkeleton(h: Transcript, skeleton: Option<string>, caching: bool): Transcript {
    if skeleton.Some? && h != []
    then h[0 := h[0].(content := [SkeletonBlock(skeleton.value, caching)] + h[0].content)]
    else h
  }

  /** `build_request`: cache breakpoints only where the candidate provider caches prompts. */
  function BuildRequest(s: Settings, model: string, caching: bool, history: Transcript, choice: Option<ToolChoice>): ChatRequest {
    ChatRequest(model, Some(SystemPrompt(s.system, caching)), WithSkeleton(history, s.skeleton, caching),
                MarkLastTool(s.tools, caching), s.maxTokens, None, s.thinking, choice, false, None, None, [], None,
                s.serverTools, [], [])
  }

  /** The skeleton neither makes nor answers tool calls. */
  lemma SkeletonKeepsOutline(h: Transcript, skeleton: Option<string>, caching: bool)
    ensures Outline(WithSkeleton(h, skeleton, caching)) == Outline(h)
  {
    if skeleton.Some? && h != [] {
      var b := SkeletonBlock(skeleton.value, caching);
      var g := WithSkeleton(h, skeleton, caching);
      PlainMessage(Message(h[0].role, [b]));
      UseIdsAppend([b], h[0].content);
      ResultIdsAppend([b], h[0].content);
      assert IdsOf(g[0]) == IdsOf(h[0]);
    }
  }
}

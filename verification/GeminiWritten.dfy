/** What the lines of a Gemini stream say, and what a decoded stream makes of it. */
module GeminiWritten {
  import opened Strings
  import opened Protocol
  import opened Framing
  import opened SmallStreams
  import opened GeminiSse

  // ----- what a line says -----

  datatype Said =
    | SaidText(text: string)
    | SaidThought(text: string)
    | SaidCall(name: string, args: Json, signature: string)
    | SaidNothing

  /** The token counts of the service: the prompt includes what came from the cache. */
  datatype Counts = Counts(prompt: nat, cached: nat, candidates: nat, thoughts: nat)

  datatype Line =
    | Silent
    | Broken
    | Chunk(counts: Option<Counts>, parts: seq<Said>, finish: Option<string>)

  /** A text that is missing, or no text, is empty. */
  predicate SaysWord(v: Json, s: string) {
    if v.JStr? then s == v.s else s == ""
  }

  /** What a part says: a call, signed or not, or else a text, which may be a thought. */
  predicate SaysPart(v: Json, p: Said) {
    var call := At(v, "functionCall");
    if Get(v, "functionCall").Some? then
      && p.SaidCall? && SaysWord(At(call, "name"), p.name) && SaysWord(At(v, "thoughtSignature"), p.signature)
      && p.args == (if Get(call, "args").Some? then At(call, "args") else JObj([]))
    else if At(v, "text").JStr? then
      p == if At(v, "thought") == JBool(true) then SaidThought(At(v, "text").s) else SaidText(At(v, "text").s)
    else p.SaidNothing?
  }

  /** A count that is missing, or no count, is zero. */
  predicate SaysCount(v: Json, n: nat) {
    if v.JNum? && 0 <= v.n < 0x1_0000_0000_0000_0000 then n == v.n else n == 0
  }

  predicate SaysCounts(v: Json, c: Counts) {
    && SaysCount(At(v, "promptTokenCount"), c.prompt) && SaysCount(At(v, "cachedContentTokenCount"), c.cached)
    && SaysCount(At(v, "candidatesTokenCount"), c.candidates) && SaysCount(At(v, "thoughtsTokenCount"), c.thoughts)
  }

  predicate SaysParts(v: Json, parts: seq<Said>) {
    if v.JArr? then |v.items| == |parts| && forall i | 0 <= i < |parts| :: SaysPart(v.items[i], parts[i]) else parts == []
  }

  /** What a candidate says; only the first one counts. */
  predicate SaysCandidate(v: Json, parts: seq<Said>, finish: Option<string>) {
    if v.JArr? && v.items != [] then
      && SaysParts(At(At(v.items[0], "content"), "parts"), parts)
      && finish == AsStr(At(v.items[0], "finishReason"))
    else parts == [] && finish == None
  }

  /** What the value of a line says, whatever other members it has. */
  predicate SaysChunk(v: Json, c: Line)
    requires c.Chunk?
  {
    && (if Get(v, "usageMetadata").Some? then c.counts.Some? && SaysCounts(At(v, "usageMetadata"), c.counts.value)
        else c.counts == None)
    && SaysCandidate(At(v, "candidates"), c.parts, c.finish)
  }

  predicate LineSays(codec: Codec, line: seq<Byte>, said: Line) {
    match ReadLine(codec, line)
    case NoPayload => said.Silent?
    case Malformed => said.Broken?
    case Value(v) => said.Chunk? && SaysChunk(v, said)
  }

  predicate StreamSays(codec: Codec, lines: seq<seq<Byte>>, said: seq<Line>) {
    |lines| == |said| && forall i | 0 <= i < |lines| :: LineSays(codec, lines[i], said[i])
  }

  // ----- writing it -----

  function WrittenPart(p: Said): Json {
    match p
    case SaidText(text) => JObj([Field("text", JStr(text))])
    case SaidThought(text) => JObj([Field("text", JStr(text)), Field("thought", JBool(true))])
    case SaidNothing => JObj([])
    case SaidCall(name, args, signature) =>
      var call := Field("functionCall", JObj([Field("name", JStr(name)), Field("args", args)]));
      JObj(if signature == "" then [call] else [call, Field("thoughtSignature", JStr(signature))])
  }

  function WrittenCounts(c: Counts): Json {
    JObj([Field("promptTokenCount", JNum(c.prompt)), Field("cachedContentTokenCount", JNum(c.cached)),
          Field("candidatesTokenCount", JNum(c.candidates)), Field("thoughtsTokenCount", JNum(c.thoughts))])
  }

  /** A chunk as the service writes it. */
  function Written(c: Line): Json
    requires c.Chunk?
  {
    var parts := seq(|c.parts|, i requires 0 <= i < |c.parts| => WrittenPart(c.parts[i]));
    var content := Field("content", JObj([Field("parts", JArr(parts))]));
    var first := JObj(if c.finish.Some? then [content, Field("finishReason", JStr(c.finish.value))] else [content]);
    var candidates := Field("candidates", JArr([first]));
    JObj(if c.counts.Some? then [candidates, Field("usageMetadata", WrittenCounts(c.counts.value))] else [candidates])
  }

  predicate AreCounts(c: Counts) {
    && c.prompt < 0x1_0000_0000_0000_0000 && c.cached < 0x1_0000_0000_0000_0000
    && c.candidates < 0x1_0000_0000_0000_0000 && c.thoughts < 0x1_0000_0000_0000_0000
  }

  lemma PartIsWritten(p: Said)
    ensures SaysPart(WrittenPart(p), p)
  {
    hide FindField;
    var f := WrittenPart(p).fields;
    if p.SaidNothing? {
      NoMember(f, "functionCall");
      NoMember(f, "text");
    } else if |f| == 2 {
      TwoMembers(f[0], f[1]);
    } else {
      OneMember(f[0]);
    }
    if p.SaidCall? {
      TwoMembers(Field("name", JStr(p.name)), Field("args", p.args));
    }
  }

  lemma CountsAreWritten(c: Counts)
    requires AreCounts(c)
    ensures SaysCounts(WrittenCounts(c), c)
  {
    hide FindField;
    var f := WrittenCounts(c).fields;
    FourMembers(f[0], f[1], f[2], f[3]);
  }

  lemma CandidateIsWritten(v: Json, content: Field, finish: Option<string>)
    requires content.key == "content" && v == JObj(if finish.Some? then [content, Field("finishReason", JStr(finish.value))] else [content])
    ensures At(v, "content") == content.value
    ensures At(v, "finishReason") == if finish.Some? then JStr(finish.value) else JNull
  {
    hide FindField;
    if finish.Some? {
      TwoMembers(content, Field("finishReason", JStr(finish.value)));
    } else {
      OneMember(content);
    }
  }

  /** Whatever a chunk says can be written. */
  lemma ChunkIsWritten(c: Line)
    requires c.Chunk? && (c.counts.Some? ==> AreCounts(c.counts.value))
    ensures SaysChunk(Written(c), c)
  {
    hide FindField, SaysPart, WrittenPart, SaysCounts, WrittenCounts;
    var parts := seq(|c.parts|, i requires 0 <= i < |c.parts| => WrittenPart(c.parts[i]));
    forall i | 0 <= i < |c.parts|
      ensures SaysPart(parts[i], c.parts[i])
    {
      PartIsWritten(c.parts[i]);
    }
    var content := Field("content", JObj([Field("parts", JArr(parts))]));
    OneMember(Field("parts", JArr(parts)));
    var first := JObj(if c.finish.Some? then [content, Field("finishReason", JStr(c.finish.value))] else [content]);
    CandidateIsWritten(first, content, c.finish);
    var candidates := Field("candidates", JArr([first]));
    if c.counts.Some? {
      CountsAreWritten(c.counts.value);
      TwoMembers(candidates, Field("usageMetadata", WrittenCounts(c.counts.value)));
    } else {
      OneMember(candidates);
    }
  }

  // ----- what is told of it -----

  function Calls(parts: seq<Said>): nat {
    if parts == [] then 0 else (if parts[0].SaidCall? then 1 else 0) + Calls(parts[1..])
  }

  /** The parts as events; calls are numbered from `n`, and a signature rides behind the number. */
  function Told(json: JsonText, n: nat, parts: seq<Said>): seq<Item>
    decreases |parts|
  {
    if parts == [] then []
    else
      match parts[0]
      case SaidText(text) => [Ok(TextDelta(text))] + Told(json, n, parts[1..])
      case SaidThought(text) => [Ok(ThinkingDelta(text))] + Told(json, n, parts[1..])
      case SaidNothing => Told(json, n, parts[1..])
      case SaidCall(name, args, signature) =>
        var id := "call_" + Decimal(n) + (if signature == "" then "" else "#" + signature);
        [Ok(ToolUseStart(id, name)), Ok(ToolUseDelta(id, json.render(args))), Ok(ToolUseEnd(id))] + Told(json, n + 1, parts[1..])
  }

  function CallsOf(line: Line): nat {
    if line.Chunk? then Calls(line.parts) else 0
  }

  function AllCalls(said: seq<Line>): nat {
    if said == [] then 0 else AllCalls(said[..|said| - 1]) + CallsOf(said[|said| - 1])
  }

  function ToldOf(json: JsonText, n: nat, line: Line): seq<Item> {
    match line
    case Silent => []
    case Broken => [Err(BadJson)]
    case Chunk(_, parts, _) => Told(json, n, parts)
  }

  function AllTold(json: JsonText, said: seq<Line>): seq<Item> {
    if said == [] then []
    else
      var before := said[..|said| - 1];
      AllTold(json, before) + ToldOf(json, AllCalls(before), said[|said| - 1])
  }

  /** The last counts: the cached part of the prompt is counted apart, thoughts are output. */
  function UsageTold(said: seq<Line>): Usage {
    if said == [] then NO_USAGE
    else
      var x := said[|said| - 1];
      if x.Chunk? && x.counts.Some? then
        var c := x.counts.value;
        Usage(if c.cached <= c.prompt then c.prompt - c.cached else 0, c.candidates + c.thoughts, 0, c.cached)
      else UsageTold(said[..|said| - 1])
  }

  /** The last finish reason. */
  function FinishTold(said: seq<Line>): Option<string> {
    if said == [] then None
    else
      var x := said[|said| - 1];
      if x.Chunk? && x.finish.Some? then x.finish else FinishTold(said[..|said| - 1])
  }

  /** A turn that made calls and was not cut short is a tool turn. */
  function StopTold(said: seq<Line>): StopReason {
    match FinishTold(said)
    case None => if AllCalls(said) > 0 then StopForTool else EndTurn
    case Some(reason) =>
      if reason == "STOP" then (if AllCalls(said) > 0 then StopForTool else EndTurn)
      else if reason == "MAX_TOKENS" then MaxTokens
      else Other(reason)
  }

  // ----- the decoder hears it -----

  function PartOf(p: Said): Part {
    match p
    case SaidText(text) => TextPart(text)
    case SaidThought(text) => ThoughtPart(text)
    case SaidCall(name, args, signature) => CallPart(name, args, signature)
    case SaidNothing => OtherPart
  }

  lemma PartIsHeard(v: Json, p: Said)
    ensures SaysPart(v, p) <==> ReadPart(v) == PartOf(p)
  {
    hide FindField;
  }

  lemma {:induction false} PartsAreHeard(json: JsonText, s: State, items: seq<Json>, parts: seq<Said>)
    requires |items| == |parts| && forall i | 0 <= i < |parts| :: SaysPart(items[i], parts[i])
    ensures OnParts(json, s, items) == s.(out := s.out + Told(json, s.calls, parts), calls := s.calls + Calls(parts))
    decreases |items|
  {
    hide SaysPart, ReadPart, Decimal;
    if items == [] {
      assert s.out + [] == s.out;
    } else {
      PartIsHeard(items[0], parts[0]);
      assert SaysPart(items[0], parts[0]);
      var t := OnPart(json, s, ReadPart(items[0]));
      PartsAreHeard(json, t, items[1..], parts[1..]);
      Regroup(s.out, PartEvents(json, s.calls, ReadPart(items[0])), Told(json, t.calls, parts[1..]));
    }
  }

  lemma UsageIsHeard(v: Json, c: Counts)
    requires Get(v, "usageMetadata").Some? && SaysCounts(At(v, "usageMetadata"), c)
    ensures ReadUsage(v) == Some(Usage(if c.cached <= c.prompt then c.prompt - c.cached else 0, c.candidates + c.thoughts, 0, c.cached))
  {
    hide FindField;
  }

  /** The decoder's fields sum up what the lines have said. */
  predicate Hears(json: JsonText, s: State, said: seq<Line>) {
    && s.out == AllTold(json, said) && s.calls == AllCalls(said) && s.usage == UsageTold(said) && !s.done
    && s.stop == match FinishTold(said) case Some(reason) => Some(MapFinish(reason)) case None => None
  }

  lemma Snoc(json: JsonText, said: seq<Line>, x: Line)
    ensures AllTold(json, said + [x]) == AllTold(json, said) + ToldOf(json, AllCalls(said), x)
    ensures AllCalls(said + [x]) == AllCalls(said) + CallsOf(x)
    ensures UsageTold(said + [x]) ==
            if x.Chunk? && x.counts.Some? then
              Usage(if x.counts.value.cached <= x.counts.value.prompt then x.counts.value.prompt - x.counts.value.cached else 0,
                    x.counts.value.candidates + x.counts.value.thoughts, 0, x.counts.value.cached)
            else UsageTold(said)
    ensures FinishTold(said + [x]) == if x.Chunk? && x.finish.Some? then x.finish else FinishTold(said)
  {
    hide ToldOf, CallsOf;
    assert (said + [x])[..|said|] == said;
  }

  lemma {:induction false} NoCreation(said: seq<Line>)
    ensures UsageTold(said).cacheCreation == 0
  {
    if said != [] {
      NoCreation(said[..|said| - 1]);
    }
  }

  lemma ChunkIsHeard(json: JsonText, s: State, v: Json, said: seq<Line>, x: Line)
    requires Hears(json, s, said) && x.Chunk? && SaysChunk(v, x)
    ensures Hears(json, OnChunk(json, s, v), said + [x])
  {
    hide AllTold, AllCalls, UsageTold, FinishTold, Told, Calls, SaysPart, SaysCounts, ReadUsage, OnParts, MapFinish, FindField;
    Snoc(json, said, x);
    NoCreation(said);
    if x.counts.Some? {
      UsageIsHeard(v, x.counts.value);
    } else {
      NoUsageIsHeard(v);
    }
    var u := OnUsage(s, v);
    if ReadCandidate(v).Some? {
      PartsAreHeard(json, u, ReadParts(ReadCandidate(v).value), x.parts);
    } else {
      NothingTold(json, AllCalls(said));
      assert AllTold(json, said) + [] == AllTold(json, said);
    }
  }

  lemma NothingTold(json: JsonText, n: nat)
    ensures Told(json, n, []) == [] && Calls([]) == 0
  {
  }

  lemma NoUsageIsHeard(v: Json)
    requires Get(v, "usageMetadata") == None
    ensures ReadUsage(v) == None
  {
  }

  lemma LineIsHeard(codec: Codec, s: State, line: seq<Byte>, said: seq<Line>, x: Line)
    requires Hears(codec.json, s, said) && LineSays(codec, line, x)
    ensures Hears(codec.json, OnLine(codec, s, line), said + [x])
  {
    hide AllTold, AllCalls, UsageTold, FinishTold, SaysChunk, ReadLine, OnChunk, MapFinish;
    Snoc(codec.json, said, x);
    match ReadLine(codec, line)
    case NoPayload => assert s.out + [] == s.out;
    case Malformed =>
    case Value(v) => ChunkIsHeard(codec.json, s, v, said, x);
  }

  lemma {:induction false} LinesAreHeard(codec: Codec, s: State, lines: seq<seq<Byte>>, before: seq<Line>, said: seq<Line>)
    requires Hears(codec.json, s, before) && StreamSays(codec, lines, said)
    ensures Hears(codec.json, HandleAll(Handler(codec), s, lines), before + said)
    decreases |lines|
  {
    hide Hears, OnLine, LineSays;
    if lines == [] {
      assert before + said == before;
    } else {
      LineIsHeard(codec, s, lines[0], before, said[0]);
      LinesAreHeard(codec, OnLine(codec, s, lines[0]), lines[1..], before + [said[0]], said[1..]);
      assert before + [said[0]] + said[1..] == before + said;
    }
  }

  // ----- every line says something -----

  function SaidBy(part: Part): Said {
    match part
    case TextPart(text) => SaidText(text)
    case ThoughtPart(text) => SaidThought(text)
    case CallPart(name, args, signature) => SaidCall(name, args, signature)
    case OtherPart => SaidNothing
  }

  lemma PartsSay(v: Json) returns (parts: seq<Said>)
    ensures SaysParts(v, parts)
  {
    hide SaysPart, ReadPart;
    parts := [];
    if v.JArr? {
      parts := seq(|v.items|, i requires 0 <= i < |v.items| => SaidBy(ReadPart(v.items[i])));
      forall i | 0 <= i < |parts|
        ensures SaysPart(v.items[i], parts[i])
      {
        PartIsHeard(v.items[i], parts[i]);
      }
    }
  }

  lemma ValueSays(v: Json) returns (c: Line)
    ensures c.Chunk? && SaysChunk(v, c)
  {
    hide FindField, SaysParts;
    var counts := None;
    if Get(v, "usageMetadata").Some? {
      var meta := At(v, "usageMetadata");
      counts := Some(Counts(NatOrZero(At(meta, "promptTokenCount")), NatOrZero(At(meta, "cachedContentTokenCount")),
                            NatOrZero(At(meta, "candidatesTokenCount")), NatOrZero(At(meta, "thoughtsTokenCount"))));
    }
    var candidates := At(v, "candidates");
    if candidates.JArr? && candidates.items != [] {
      var parts := PartsSay(At(At(candidates.items[0], "content"), "parts"));
      c := Chunk(counts, parts, AsStr(At(candidates.items[0], "finishReason")));
    } else {
      c := Chunk(counts, [], None);
    }
  }

  lemma {:induction false} LinesSay(codec: Codec, lines: seq<seq<Byte>>) returns (said: seq<Line>)
    ensures StreamSays(codec, lines, said)
    decreases |lines|
  {
    hide SaysChunk, ReadLine;
    said := [];
    if lines != [] {
      var n := |lines| - 1;
      said := LinesSay(codec, lines[..n]);
      var x := if ReadLine(codec, lines[n]).Malformed? then Broken else Silent;
      if ReadLine(codec, lines[n]).Value? {
        x := ValueSays(ReadLine(codec, lines[n]).v);
      }
      said := said + [x];
    }
  }

  /** Every stream, however its bytes are cut, decodes to what its lines say: every part in order with its
      calls numbered through, an error for every broken line, and at the end the last counts and the last
      reason. */
  lemma DecodesWhatIsSaid(codec: Codec, chunks: seq<seq<Byte>>) returns (said: seq<Line>)
    ensures StreamSays(codec, StreamLines(Flatten(chunks)), said)
    ensures Decode(codec, chunks).out ==
            AllTold(codec.json, said) + [Ok(UsageReport(UsageTold(said))), Ok(Done(StopTold(said)))]
  {
    hide AllTold, AllCalls, UsageTold, FinishTold, StreamSays, StreamLines, OnLine, HandleAll, Decode;
    DecodingIgnoresCuts(codec, chunks);
    var lines := StreamLines(Flatten(chunks));
    NothingHeard(codec.json);
    said := LinesSay(codec, lines);
    LinesAreHeard(codec, INITIAL, lines, [], said);
    assert [] + said == said;
  }

  lemma NothingHeard(json: JsonText)
    ensures Hears(json, INITIAL, [])
  {
  }
}

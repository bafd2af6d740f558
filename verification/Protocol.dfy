/** The vocabulary every component shares: JSON, transcripts, provider events and usage. */
module Protocol {
  import opened Strings

  datatype Option<+T> = None | Some(value: T)

  datatype Result<+T, +E> = Ok(value: T) | Err(error: E)

  // ----- JSON -----

  datatype Json =
    | JNull
    | JBool(b: bool)
    | JNum(n: int)
    | JReal(r: real)
    | JStr(s: string)
    | JArr(items: seq<Json>)
    | JObj(fields: seq<Field>)

  datatype Field = Field(key: string, value: Json)

  function FindField(fields: seq<Field>, key: string): Option<Json> {
    if fields == [] then None
    else if fields[0].key == key then Some(fields[0].value)
    else FindField(fields[1..], key)
  }

  /** `v.get(key)`: the member of an object, if there is one. */
  function Get(v: Json, key: string): Option<Json> {
    if v.JObj? then FindField(v.fields, key) else None
  }

  /** `v[key]`: like `Get`, with null for a member that is not there. */
  function At(v: Json, key: string): Json {
    match Get(v, key)
    case Some(w) => w
    case None => JNull
  }

  function AsStr(v: Json): Option<string> {
    if v.JStr? then Some(v.s) else None
  }

  function StrOr(v: Json, default: string): string {
    if v.JStr? then v.s else default
  }

  /** `v.as_u64().unwrap_or(0)` */
  function NatOrZero(v: Json): nat {
    if v.JNum? && 0 <= v.n < 0x1_0000_0000_0000_0000 then v.n else 0
  }

  function AsNat(v: Json): Option<nat> {
    if v.JNum? && 0 <= v.n < 0x1_0000_0000_0000_0000 then Some(v.n) else None
  }

  /** A member of a written object. */
  lemma {:induction false} Member(fields: seq<Field>, k: nat)
    requires k < |fields| && forall j | 0 <= j < k :: fields[j].key != fields[k].key
    ensures FindField(fields, fields[k].key) == Some(fields[k].value)
  {
    if k > 0 {
      Member(fields[1..], k - 1);
    }
  }

  lemma {:induction false} NoMember(fields: seq<Field>, key: string)
    requires forall j | 0 <= j < |fields| :: fields[j].key != key
    ensures FindField(fields, key) == None
  {
    if fields != [] {
      NoMember(fields[1..], key);
    }
  }

  lemma OneMember(a: Field)
    ensures Get(JObj([a]), a.key) == Some(a.value)
    ensures forall key :: key != a.key ==> Get(JObj([a]), key) == None
  {
    Member([a], 0);
    forall key | key != a.key
      ensures FindField([a], key) == None
    {
      NoMember([a], key);
    }
  }

  lemma TwoMembers(a: Field, b: Field)
    requires a.key != b.key
    ensures var v := JObj([a, b]); Get(v, a.key) == Some(a.value) && Get(v, b.key) == Some(b.value)
    ensures forall key :: key != a.key && key != b.key ==> Get(JObj([a, b]), key) == None
  {
    Member([a, b], 0);
    Member([a, b], 1);
    forall key | key != a.key && key != b.key
      ensures FindField([a, b], key) == None
    {
      NoMember([a, b], key);
    }
  }

  lemma ThreeMembers(a: Field, b: Field, c: Field)
    requires a.key != b.key && a.key != c.key && b.key != c.key
    ensures var v := JObj([a, b, c]); Get(v, a.key) == Some(a.value) && Get(v, b.key) == Some(b.value) && Get(v, c.key) == Some(c.value)
    ensures forall key :: key != a.key && key != b.key && key != c.key ==> Get(JObj([a, b, c]), key) == None
  {
    Member([a, b, c], 0);
    Member([a, b, c], 1);
    Member([a, b, c], 2);
    forall key | key != a.key && key != b.key && key != c.key
      ensures FindField([a, b, c], key) == None
    {
      NoMember([a, b, c], key);
    }
  }

  lemma FourMembers(a: Field, b: Field, c: Field, d: Field)
    requires a.key != b.key && a.key != c.key && b.key != c.key && d.key != a.key && d.key != b.key && d.key != c.key
    ensures var v := JObj([a, b, c, d]);
            && Get(v, a.key) == Some(a.value) && Get(v, b.key) == Some(b.value)
            && Get(v, c.key) == Some(c.value) && Get(v, d.key) == Some(d.value)
  {
    Member([a, b, c, d], 0);
    Member([a, b, c, d], 1);
    Member([a, b, c, d], 2);
    Member([a, b, c, d], 3);
  }

  /** The JSON library: printing, and parsing that may fail. */
  datatype JsonText = JsonText(render: Json -> string, parse: string -> Option<Json>)

  // ----- usage -----

  datatype Usage = Usage(input: nat, output: nat, cacheCreation: nat, cacheRead: nat)

  const NO_USAGE := Usage(0, 0, 0, 0)

  /** `Usage::accumulate` */
  function Plus(a: Usage, b: Usage): Usage {
    Usage(a.input + b.input, a.output + b.output, a.cacheCreation + b.cacheCreation, a.cacheRead + b.cacheRead)
  }

  lemma NothingPlus(u: Usage)
    ensures Plus(NO_USAGE, u) == u
  {
  }

  lemma PlusNothing(u: Usage)
    ensures Plus(u, NO_USAGE) == u
  {
  }

  // ----- transcripts -----

  datatype Role = User | Assistant

  datatype ToolImage = ToolImage(mediaType: string, data: string)

  datatype MediaSource =
    | Base64(mediaType: string, data: string)
    | Url(url: string)
    | File(fileId: string)
    | PlainText(text: string)

  datatype ContentBlock =
    | Text(text: string, cache: bool)
    | Thinking(text: string)
    | ToolUse(id: string, name: string, input: Json)
    | ToolResult(id: string, content: string, isError: bool, images: seq<ToolImage>)
    | Image(source: MediaSource)
    | Document(source: MediaSource, citations: bool)

  datatype Message = Message(role: Role, content: seq<ContentBlock>)

  function UserText(text: string): Message {
    Message(User, [Text(text, false)])
  }

  function AssistantText(text: string): Message {
    Message(Assistant, [Text(text, false)])
  }

  // ----- provider events -----

  datatype StopReason =
    | EndTurn
    | MaxTokens
    | StopForTool
    | StopSequence
    | Refusal
    | PauseTurn
    | Other(reason: string)

  datatype Event =
    | TextDelta(text: string)
    | ThinkingDelta(text: string)
    | ToolUseStart(id: string, name: string)
    | ToolUseDelta(id: string, json: string)
    | ToolUseEnd(id: string)
    | ServerToolUse(id: string, name: string, hint: string)
    | ServerToolResult(id: string, content: string)
    | Citation(citedText: string, citedSource: string)
    | UsageReport(usage: Usage)
    | Notice(text: string)
    | ToolResultImages(id: string, name: string, images: seq<ToolImage>)
    | Done(stop: StopReason)

  /** Answer text and thinking: what the loop holds back until a round-trip is accepted. */
  predicate IsProse(e: Event) {
    e.TextDelta? || e.ThinkingDelta?
  }

  /** The two events an accumulator captures instead of passing on. */
  predicate IsCaptured(e: Event) {
    e.UsageReport? || e.Done?
  }
}

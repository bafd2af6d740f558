/** The contents of a Gemini request as the service reads them: what is sent is what was meant. */
module GeminiRead {
  import opened Strings
  import opened Protocol
  import opened History
  import opened StaleReads
  import GeminiWire

  // ----- reading -----

  /** What one part says. */
  datatype Reading =
    | TextRead(text: string)
    | InlineRead(mediaType: string, data: string)
    | FileRead(uri: string)
    | CallRead(name: string, args: Json, signature: Option<string>)
    | ResponseRead(name: string, content: string, isError: bool)
    | Unknown

  function ReadString(v: Json, key: string): string {
    StrOr(At(v, key), "")
  }

  /** A response carries its content as a result or as an error. */
  function ReadResponse(v: Json): Reading {
    var r := At(v, "response");
    if Get(r, "error").Some? then ResponseRead(ReadString(v, "name"), ReadString(r, "error"), true)
    else ResponseRead(ReadString(v, "name"), ReadString(r, "result"), false)
  }

  function ReadPart(v: Json): Reading {
    if Get(v, "functionCall").Some? then
      CallRead(ReadString(At(v, "functionCall"), "name"), At(At(v, "functionCall"), "args"), AsStr(At(v, "thoughtSignature")))
    else if Get(v, "functionResponse").Some? then ReadResponse(At(v, "functionResponse"))
    else if Get(v, "inlineData").Some? then
      InlineRead(ReadString(At(v, "inlineData"), "mimeType"), ReadString(At(v, "inlineData"), "data"))
    else if Get(v, "fileData").Some? then FileRead(ReadString(At(v, "fileData"), "fileUri"))
    else if At(v, "text").JStr? then TextRead(At(v, "text").s)
    else Unknown
  }

  datatype EntryReading = EntryReading(role: Option<Role>, parts: seq<Reading>)

  function ReadRole(v: Json): Option<Role> {
    if v == JStr("user") then Some(User) else if v == JStr("model") then Some(Assistant) else None
  }

  function ReadAll(items: seq<Json>): seq<Reading> {
    seq(|items|, i requires 0 <= i < |items| => ReadPart(items[i]))
  }

  function ReadEntry(v: Json): EntryReading {
    EntryReading(ReadRole(At(v, "role")), if At(v, "parts").JArr? then ReadAll(At(v, "parts").items) else [])
  }

  // ----- what was meant -----

  /** What follows the first separator of an id. */
  function SignatureIn(id: string): Option<string> {
    if id == "" then None else if id[0] == '#' then Some(id[1..]) else SignatureIn(id[1..])
  }

  function MediaMeant(source: MediaSource): Reading {
    match source
    case Base64(mediaType, data) => InlineRead(mediaType, data)
    case Url(url) => FileRead(url)
    case File(fileId) => FileRead(fileId)
    case PlainText(text) => TextRead(text)
  }

  /** The name of the last call with the id, if there is one. */
  function NameFor(h: Transcript, id: string): string {
    match GeminiWire.LastName(AllUses(h), id) case Some(name) => name case None => ""
  }

  function ImagesMeant(images: seq<ToolImage>): seq<Reading> {
    seq(|images|, i requires 0 <= i < |images| => InlineRead(images[i].mediaType, images[i].data))
  }

  /** What a block of a transcript means to the service. */
  function Meant(h: Transcript, b: ContentBlock): seq<Reading> {
    match b
    case Text(text, _) => [TextRead(text)]
    case Thinking(text) => [TextRead(text)]
    case Image(source) => [MediaMeant(source)]
    case Document(source, _) => [MediaMeant(source)]
    case ToolUse(id, name, input) => [CallRead(name, input, SignatureIn(id))]
    case ToolResult(id, content, isError, images) => [ResponseRead(NameFor(h, id), content, isError)] + ImagesMeant(images)
  }

  function AllMeant(h: Transcript, blocks: Blocks): seq<Reading> {
    Flatten(seq(|blocks|, i requires 0 <= i < |blocks| => Meant(h, blocks[i])))
  }

  // ----- what is sent is what was meant -----

  lemma TextReads(text: string)
    ensures ReadPart(JObj([Field("text", JStr(text))])) == TextRead(text)
  {
    hide FindField;
    OneMember(Field("text", JStr(text)));
  }

  lemma MediaReads(source: MediaSource)
    ensures ReadPart(GeminiWire.MediaPart(source)) == MediaMeant(source)
  {
    hide FindField;
    var f := GeminiWire.MediaPart(source).fields[0];
    OneMember(f);
    match source
    case Base64(mediaType, data) => TwoMembers(Field("mimeType", JStr(mediaType)), Field("data", JStr(data)));
    case Url(url) => OneMember(Field("fileUri", JStr(url)));
    case File(fileId) => OneMember(Field("fileUri", JStr(fileId)));
    case PlainText(_) =>
  }

  lemma {:induction false} SignatureIsRest(id: string)
    ensures SignatureIn(id) == if IndexOf(id, '#') == |id| then None else Some(id[IndexOf(id, '#') + 1..])
  {
    if id != "" && id[0] != '#' {
      SignatureIsRest(id[1..]);
      if IndexOf(id, '#') < |id| {
        assert id[IndexOf(id, '#') + 1..] == id[1..][IndexOf(id[1..], '#') + 1..];
      }
    }
  }

  lemma CallReads(id: string, name: string, input: Json)
    ensures ReadPart(GeminiWire.CallJson(id, name, input)) == CallRead(name, input, SignatureIn(id))
  {
    hide FindField, IndexOf, SignatureIn;
    SignatureIsRest(id);
    TwoMembers(Field("name", JStr(name)), Field("args", input));
    var f := GeminiWire.CallJson(id, name, input).fields;
    if |f| == 1 {
      OneMember(f[0]);
    } else {
      TwoMembers(f[0], f[1]);
    }
  }

  lemma ResponseReads(name: string, content: string, isError: bool)
    ensures ReadPart(GeminiWire.ResponseJson(name, content, isError)) == ResponseRead(name, content, isError)
  {
    hide FindField;
    var r := Field(if isError then "error" else "result", JStr(content));
    OneMember(r);
    TwoMembers(Field("name", JStr(name)), Field("response", JObj([r])));
    OneMember(GeminiWire.ResponseJson(name, content, isError).fields[0]);
  }

  lemma BlockReads(h: Transcript, b: ContentBlock)
    ensures ReadAll(GeminiWire.BlockParts(b, GeminiWire.Names(h, map[]))) == Meant(h, b)
  {
    hide ReadPart, GeminiWire.MediaPart, GeminiWire.CallJson, GeminiWire.ResponseJson, GeminiWire.Names, AllUses, SignatureIn;
    hide GeminiWire.LastName, MediaMeant;
    match b
    case Text(text, _) => TextReads(text);
    case Thinking(text) => TextReads(text);
    case Image(source) => MediaReads(source);
    case Document(source, _) => MediaReads(source);
    case ToolUse(id, name, input) => CallReads(id, name, input);
    case ToolResult(id, content, isError, images) => ResultReads(h, b);
  }

  lemma ResultReads(h: Transcript, b: ContentBlock)
    requires b.ToolResult?
    ensures ReadAll(GeminiWire.BlockParts(b, GeminiWire.Names(h, map[]))) == Meant(h, b)
  {
    hide ReadPart, GeminiWire.MediaPart, GeminiWire.ResponseJson, GeminiWire.Names, AllUses, GeminiWire.LastName;
    GeminiWire.TranscriptName(h, b.id);
    ResponseReads(NameFor(h, b.id), b.content, b.isError);
    forall i | 0 <= i < |b.images|
      ensures ReadPart(GeminiWire.MediaPart(Base64(b.images[i].mediaType, b.images[i].data))) ==
              InlineRead(b.images[i].mediaType, b.images[i].data)
    {
      MediaReads(Base64(b.images[i].mediaType, b.images[i].data));
    }
  }

  lemma {:induction false} PartsRead(h: Transcript, blocks: Blocks)
    ensures ReadAll(GeminiWire.Parts(blocks, GeminiWire.Names(h, map[]))) == AllMeant(h, blocks)
  {
    hide ReadPart, GeminiWire.BlockParts, GeminiWire.Names, Meant;
    if blocks != [] {
      var names := GeminiWire.Names(h, map[]);
      BlockReads(h, blocks[0]);
      PartsRead(h, blocks[1..]);
      assert ReadAll(GeminiWire.BlockParts(blocks[0], names) + GeminiWire.Parts(blocks[1..], names)) ==
             ReadAll(GeminiWire.BlockParts(blocks[0], names)) + ReadAll(GeminiWire.Parts(blocks[1..], names));
      MeantNext(h, blocks);
    }
  }

  lemma MeantNext(h: Transcript, blocks: Blocks)
    requires blocks != []
    ensures AllMeant(h, blocks) == Meant(h, blocks[0]) + AllMeant(h, blocks[1..])
  {
    hide Meant;
    var parts := seq(|blocks|, i requires 0 <= i < |blocks| => Meant(h, blocks[i]));
    assert parts[1..] == seq(|blocks| - 1, i requires 0 <= i < |blocks| - 1 => Meant(h, blocks[1..][i]));
  }

  /** The contents built for a transcript read as the transcript, message by message: roles, texts, media,
      calls with their signatures, and responses under the name of the last call with their id. */
  lemma ContentsReadBack(h: Transcript)
    ensures GeminiWire.Contents(h).JArr? && |GeminiWire.Contents(h).items| == |h|
    ensures forall i | 0 <= i < |h| ::
              ReadEntry(GeminiWire.Contents(h).items[i]) == EntryReading(Some(h[i].role), AllMeant(h, h[i].content))
  {
    hide GeminiWire.Names, GeminiWire.Parts, AllMeant, ReadAll, FindField;
    forall i | 0 <= i < |h|
      ensures ReadEntry(GeminiWire.Contents(h).items[i]) == EntryReading(Some(h[i].role), AllMeant(h, h[i].content))
    {
      var f := GeminiWire.Contents(h).items[i].fields;
      TwoMembers(f[0], f[1]);
      PartsRead(h, h[i].content);
    }
  }
}

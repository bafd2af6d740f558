/** Transcripts and the structure that every history pass must keep. */
module History {
  import opened Strings
  import opened Protocol

  type Blocks = seq<ContentBlock>

  type Transcript = seq<Message>

  // ----- tool calls and results -----

  /** The ids of the tool calls among some blocks, in order. */
  function UseIds(blocks: Blocks): seq<string> {
    if blocks == [] then []
    else (if blocks[0].ToolUse? then [blocks[0].id] else []) + UseIds(blocks[1..])
  }

  /** The ids that the tool results among some blocks answer, in order. */
  function ResultIds(blocks: Blocks): seq<string> {
    if blocks == [] then []
    else (if blocks[0].ToolResult? then [blocks[0].id] else []) + ResultIds(blocks[1..])
  }

  /** The calls one message makes and the results it carries. */
  datatype Ids = Ids(uses: seq<string>, results: seq<string>)

  function IdsOf(m: Message): Ids {
    Ids(UseIds(m.content), ResultIds(m.content))
  }

  function Outline(h: Transcript): seq<Ids> {
    seq(|h|, i requires 0 <= i < |h| => IdsOf(h[i]))
  }

  lemma PlainMessage(m: Message)
    requires |m.content| == 1 && !m.content[0].ToolUse? && !m.content[0].ToolResult?
    ensures IdsOf(m) == Ids([], [])
  {
    var rest := m.content[1..];
    assert rest == [] && UseIds(rest) == [] && ResultIds(rest) == [];
    assert UseIds(m.content) == [] + UseIds(rest);
  }

  /** The calls that message `i` has to answer: those of the message before it. */
  function Owed(o: seq<Ids>, i: nat): seq<string>
    requires i <= |o|
  {
    if i == 0 then [] else o[i - 1].uses
  }

  ghost predicate Answered(o: seq<Ids>) {
    && Owed(o, |o|) == []
    && forall i :: 0 <= i < |o| ==> o[i].results == Owed(o, i)
  }

  /** Every tool call is answered, in order, by exactly one result with its id in the next message,
      and there is no other result: message by message, the results are exactly what is owed. */
  ghost predicate Paired(h: Transcript) {
    Answered(Outline(h))
  }

  // ----- passes that only rewrite the content of tool results -----

  /** The same block, except perhaps for the text of a tool result. */
  predicate SameButText(b: ContentBlock, c: ContentBlock) {
    if b.ToolResult? && c.ToolResult? then c == b.(content := c.content) else b == c
  }

  predicate SameBlocks(a: Blocks, b: Blocks) {
    |a| == |b| && forall j | 0 <= j < |a| :: SameButText(a[j], b[j])
  }

  /** The same messages: roles, block order, ids, error flags, images and every other block. */
  predicate SameShape(h: Transcript, g: Transcript) {
    && |h| == |g|
    && forall i | 0 <= i < |h| :: h[i].role == g[i].role && SameBlocks(h[i].content, g[i].content)
  }

  lemma {:induction false} SameBlocksSameIds(a: Blocks, b: Blocks)
    requires SameBlocks(a, b)
    ensures UseIds(a) == UseIds(b) && ResultIds(a) == ResultIds(b)
  {
    if a != [] {
      assert SameButText(a[0], b[0]);
      assert forall j | 0 <= j < |a| - 1 :: SameButText(a[1..][j], b[1..][j]);
      SameBlocksSameIds(a[1..], b[1..]);
    }
  }

  lemma SameShapeSameOutline(h: Transcript, g: Transcript)
    requires SameShape(h, g)
    ensures Outline(h) == Outline(g)
  {
    forall i | 0 <= i < |h|
      ensures IdsOf(h[i]) == IdsOf(g[i])
    {
      SameBlocksSameIds(h[i].content, g[i].content);
    }
  }

  /** A pass that keeps the shape keeps calls and results paired, and cannot repair a transcript
      in which they are not. */
  lemma SameShapeKeepsPairing(h: Transcript, g: Transcript)
    requires SameShape(h, g)
    ensures Paired(h) <==> Paired(g)
  {
    SameShapeSameOutline(h, g);
  }

  lemma {:induction false} UseIdsAppend(a: Blocks, b: Blocks)
    ensures UseIds(a + b) == UseIds(a) + UseIds(b)
  {
    if a == [] {
      assert a + b == b;
    } else {
      UseIdsAppend(a[1..], b);
      Regroup(if a[0].ToolUse? then [a[0].id] else [], UseIds(a[1..]), UseIds(b));
      assert (a + b)[1..] == a[1..] + b && (a + b)[0] == a[0];
    }
  }

  lemma {:induction false} ResultIdsAppend(a: Blocks, b: Blocks)
    ensures ResultIds(a + b) == ResultIds(a) + ResultIds(b)
  {
    if a == [] {
      assert a + b == b;
    } else {
      ResultIdsAppend(a[1..], b);
      Regroup(if a[0].ToolResult? then [a[0].id] else [], ResultIds(a[1..]), ResultIds(b));
      assert (a + b)[1..] == a[1..] + b && (a + b)[0] == a[0];
    }
  }
}

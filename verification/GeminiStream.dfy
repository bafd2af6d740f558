/** The shape of a decoded Gemini stream, and the way its calls take back to the wire. */
module GeminiStream {
  import opened Strings
  import opened Protocol
  import opened Framing
  import opened GeminiSse
  import opened TurnModel

  // ----- the shape of the output -----

  /** Events of a call, all with the same numbered id. */
  predicate IsCall(start: Item, delta: Item, end: Item, n: nat, signature: string) {
    var id := CallId(n, signature);
    && start.Ok? && start.value.ToolUseStart? && start.value.id == id
    && delta.Ok? && delta.value.ToolUseDelta? && delta.value.id == id
    && end == Ok(ToolUseEnd(id))
  }

  ghost predicate IsCallNumbered(start: Item, delta: Item, end: Item, n: nat) {
    exists signature :: IsCall(start, delta, end, n, signature)
  }

  /** Errors, answer text and thoughts: what stands alone. */
  predicate StandsAlone(x: Item) {
    x.Err? || x.value.TextDelta? || x.value.ThinkingDelta?
  }

  /** Items that stand alone and `n` calls of three items each, numbered in order. */
  ghost predicate Segmented(items: seq<Item>, n: nat)
    decreases |items|
  {
    var m := |items|;
    if m == 0 then n == 0
    else if StandsAlone(items[m - 1]) then Segmented(items[..m - 1], n)
    else
      && m >= 3 && n > 0 && IsCallNumbered(items[m - 3], items[m - 2], items[m - 1], n - 1)
      && Segmented(items[..m - 3], n - 1)
  }

  lemma OnPartSegments(json: JsonText, s: State, part: Part)
    requires Segmented(s.out, s.calls)
    ensures var r := OnPart(json, s, part); Segmented(r.out, r.calls) && r.done == s.done
  {
    hide CallId;
    var r := OnPart(json, s, part);
    match part
    case CallPart(name, args, signature) =>
      assert r.out[..|s.out|] == s.out;
      assert IsCall(r.out[|s.out|], r.out[|s.out| + 1], r.out[|s.out| + 2], s.calls, signature);
    case OtherPart => assert r.out == s.out;
    case _ => assert r.out[..|s.out|] == s.out;
  }

  lemma {:induction false} OnPartsSegments(json: JsonText, s: State, parts: seq<Json>)
    requires Segmented(s.out, s.calls)
    ensures var r := OnParts(json, s, parts); Segmented(r.out, r.calls) && r.done == s.done
    decreases |parts|
  {
    hide OnPart, ReadPart, Segmented;
    if parts != [] {
      OnPartSegments(json, s, ReadPart(parts[0]));
      OnPartsSegments(json, OnPart(json, s, ReadPart(parts[0])), parts[1..]);
    }
  }

  lemma AloneSegments(items: seq<Item>, n: nat, x: Item)
    requires Segmented(items, n) && StandsAlone(x)
    ensures Segmented(items + [x], n)
  {
    assert (items + [x])[..|items|] == items;
  }

  lemma OnLineSegments(codec: Codec, s: State, line: seq<Byte>)
    requires Segmented(s.out, s.calls)
    ensures var r := OnLine(codec, s, line); Segmented(r.out, r.calls) && r.done == s.done
  {
    hide OnParts, ReadLine, ReadUsage, ReadCandidate, ReadParts, ReadFinish, Segmented;
    match ReadLine(codec, line)
    case NoPayload =>
    case Malformed => AloneSegments(s.out, s.calls, Err(BadJson));
    case Value(v) =>
      if ReadCandidate(v).Some? {
        OnPartsSegments(codec.json, OnUsage(s, v), ReadParts(ReadCandidate(v).value));
      }
  }

  lemma {:induction false} LinesSegment(codec: Codec, s: State, lines: seq<seq<Byte>>)
    requires Segmented(s.out, s.calls) && !s.done
    ensures var r := HandleAll(Handler(codec), s, lines); Segmented(r.out, r.calls) && !r.done
    decreases |lines|
  {
    hide OnLine, Segmented;
    if lines != [] {
      OnLineSegments(codec, s, lines[0]);
      LinesSegment(codec, OnLine(codec, s, lines[0]), lines[1..]);
    }
  }

  /** A numbered id never contains the separator before its signature, so two calls with different numbers
      have different ids, whatever their signatures contain. */
  lemma CallIdsDiffer(m: nat, a: string, n: nat, b: string)
    requires CallId(m, a) == CallId(n, b)
    ensures m == n && a == b
  {
    SignatureReadsBack(m, a);
    SignatureReadsBack(n, b);
    DecimalReadsBack(m);
    DecimalReadsBack(n);
    var p := IndexOf(CallId(m, a), '#');
    assert CallId(m, a)[..p] == "call_" + Decimal(m) && CallId(n, b)[..p] == "call_" + Decimal(n);
    assert Decimal(m) == ("call_" + Decimal(m))[5..] && Decimal(n) == ("call_" + Decimal(n))[5..];
    DecimalInjective(m, n);
  }

  /** What stands behind the first `#` of an id, if there is one. */
  function SignatureOf(id: string): string {
    var p := IndexOf(id, '#');
    if p == |id| then "" else id[p + 1..]
  }

  /** The signature of an id is recovered whole, even when it contains the separator itself. */
  lemma SignatureReadsBack(n: nat, signature: string)
    ensures IndexOf(CallId(n, signature), '#') == 5 + |Decimal(n)|
    ensures SignatureOf(CallId(n, signature)) == signature
  {
    hide IndexOf, Decimal;
    var head := "call_" + Decimal(n);
    NumberHasNoSeparator(n);
    if signature == "" {
      assert CallId(n, signature) == head;
      IndexOfAbsent(head, '#');
    } else {
      IndexOfAppend(head, "#" + signature, '#');
      assert CallId(n, signature) == head + ("#" + signature);
      SeparatorFirst(signature);
    }
  }

  lemma NumberHasNoSeparator(n: nat)
    ensures '#' !in "call_" + Decimal(n)
  {
    DecimalReadsBack(n);
    assert forall i | 0 <= i < |Decimal(n)| :: Decimal(n)[i] != '#';
  }

  lemma SeparatorFirst(signature: string)
    ensures IndexOf("#" + signature, '#') == 0
  {
    assert ("#" + signature)[0] == '#';
  }

  /** In such a sequence no usage report and no end occurs, and every call start has an id below the count. */
  lemma {:induction false} SegmentedItems(items: seq<Item>, n: nat, i: nat)
    requires Segmented(items, n) && i < |items|
    ensures items[i].Ok? ==> !items[i].value.UsageReport? && !items[i].value.Done?
    ensures items[i].Ok? && items[i].value.ToolUseStart? ==> exists k, signature :: 0 <= k < n && items[i].value.id == CallId(k, signature)
    decreases |items|
  {
    hide CallId;
    var m := |items|;
    if StandsAlone(items[m - 1]) {
      if i < m - 1 {
        SegmentedItems(items[..m - 1], n, i);
      }
    } else {
      var signature :| IsCall(items[m - 3], items[m - 2], items[m - 1], n - 1, signature);
      if i < m - 3 {
        SegmentedItems(items[..m - 3], n - 1, i);
      } else if i == m - 3 {
        assert 0 <= n - 1 < n && items[i].value.id == CallId(n - 1, signature);
      }
    }
  }

  /** Two call starts of one stream have different ids. */
  lemma {:induction false} StartsDiffer(items: seq<Item>, n: nat, i: nat, j: nat)
    requires Segmented(items, n) && i < j < |items|
    requires items[i].Ok? && items[i].value.ToolUseStart? && items[j].Ok? && items[j].value.ToolUseStart?
    ensures items[i].value.id != items[j].value.id
    decreases |items|
  {
    hide CallId;
    var m := |items|;
    if StandsAlone(items[m - 1]) {
      StartsDiffer(items[..m - 1], n, i, j);
    } else {
      var signature :| IsCall(items[m - 3], items[m - 2], items[m - 1], n - 1, signature);
      if j < m - 3 {
        StartsDiffer(items[..m - 3], n - 1, i, j);
      } else {
        SegmentedItems(items[..m - 3], n - 1, i);
        var k, other :| 0 <= k < n - 1 && items[..m - 3][i].value.id == CallId(k, other);
        if items[i].value.id == items[j].value.id {
          CallIdsDiffer(k, other, n - 1, signature);
        }
      }
    }
  }

  /** Every stream, however it is cut, decodes to calls of three contiguous items, items that stand alone,
      and then one usage report followed by the only end. */
  lemma DecodedShape(codec: Codec, chunks: seq<seq<Byte>>) returns (body: seq<Item>, n: nat)
    ensures exists usage, stop :: Decode(codec, chunks).out == body + [Ok(UsageReport(usage)), Ok(Done(stop))]
    ensures Segmented(body, n)
    ensures n > 0 ==> Decode(codec, chunks).out[|body| + 1] != Ok(Done(EndTurn))
  {
    hide HandleAll, StreamLines, Decode;
    DecodingIgnoresCuts(codec, chunks);
    assert Segmented([], 0);
    LinesSegment(codec, INITIAL, StreamLines(Flatten(chunks)));
    var r := HandleAll(Handler(codec), INITIAL, StreamLines(Flatten(chunks)));
    body, n := r.out, r.calls;
    assert Decode(codec, chunks).out == body + [Ok(UsageReport(r.usage)), Ok(Done(FinalStop(r)))];
  }

  // ----- the calls of a stream -----

  function CallsIn(parts: seq<Json>): seq<Part>
    decreases |parts|
  {
    if parts == [] then []
    else (if ReadPart(parts[0]).CallPart? then [ReadPart(parts[0])] else []) + CallsIn(parts[1..])
  }

  function LineCalls(codec: Codec, line: seq<Byte>): seq<Part> {
    match ReadLine(codec, line)
    case Value(v) => if ReadCandidate(v).Some? then CallsIn(ReadParts(ReadCandidate(v).value)) else []
    case _ => []
  }

  /** The function calls that a stream's lines carry, in order. */
  function StreamCalls(codec: Codec, lines: seq<seq<Byte>>): seq<Part>
    decreases |lines|
  {
    if lines == [] then [] else LineCalls(codec, lines[0]) + StreamCalls(codec, lines[1..])
  }

  /** The events among decoded items. */
  function Events(items: seq<Item>): seq<Event> {
    if items == [] then []
    else
      var x := items[|items| - 1];
      Events(items[..|items| - 1]) + (if x.Ok? then [x.value] else [])
  }

  /** The tool calls that a turn should hold for some function calls. */
  function Expected(json: JsonText, calls: seq<Part>): seq<ToolCall>
    requires forall i | 0 <= i < |calls| :: calls[i].CallPart?
  {
    seq(|calls|, i requires 0 <= i < |calls| =>
      ToolCall(CallId(i, calls[i].signature), calls[i].name, json.render(calls[i].args)))
  }

  predicate AllCalls(calls: seq<Part>) {
    forall i | 0 <= i < |calls| :: calls[i].CallPart?
  }

  /** The turn folded from what has been decoded holds exactly the calls read so far. */
  ghost predicate Follows(json: JsonText, s: State, calls: seq<Part>) {
    AllCalls(calls) && s.calls == |calls| && Fold(Events(s.out)).calls == Expected(json, calls)
  }

  lemma EventsSnoc(items: seq<Item>, x: Item)
    ensures Events(items + [x]) == Events(items) + (if x.Ok? then [x.value] else [])
  {
    assert (items + [x])[..|items|] == items;
  }

  lemma FoldSnoc(events: seq<Event>, e: Event)
    ensures Fold(events + [e]) == Observed(Fold(events), e)
  {
    assert (events + [e])[..|events|] == events;
  }

  /** One more item that is no call start or argument leaves the turn's calls as they were. */
  lemma PlainItem(items: seq<Item>, x: Item)
    requires x.Err? || (!x.value.ToolUseStart? && !x.value.ToolUseDelta?)
    ensures Fold(Events(items + [x])).calls == Fold(Events(items)).calls
  {
    hide Fold;
    EventsSnoc(items, x);
    if x.Ok? {
      FoldSnoc(Events(items), x.value);
    } else {
      assert Events(items) + [] == Events(items);
    }
  }

  /** A call's three items add one call, with its whole arguments. */
  lemma CallItems(items: seq<Item>, id: string, name: string, args: string)
    ensures Fold(Events(items + [Ok(ToolUseStart(id, name)), Ok(ToolUseDelta(id, args)), Ok(ToolUseEnd(id))])).calls ==
            Fold(Events(items)).calls + [ToolCall(id, name, args)]
  {
    hide Fold, Events;
    var a, b, c := Ok(ToolUseStart(id, name)), Ok(ToolUseDelta(id, args)), Ok(ToolUseEnd(id));
    EventsSnoc(items, a);
    EventsSnoc(items + [a], b);
    FoldSnoc(Events(items), a.value);
    FoldSnoc(Events(items) + [a.value], b.value);
    PlainItem(items + [a] + [b], c);
    assert items + [a, b, c] == items + [a] + [b] + [c];
    assert "" + args == args;
  }

  lemma OnPartFollows(json: JsonText, s: State, part: Part, calls: seq<Part>)
    requires Follows(json, s, calls)
    ensures Follows(json, OnPart(json, s, part), if part.CallPart? then calls + [part] else calls)
  {
    hide Fold, Events, CallId;
    match part
    case CallPart(name, args, signature) => CallItems(s.out, CallId(s.calls, signature), name, json.render(args));
    case TextPart(text) => PlainItem(s.out, Ok(TextDelta(text)));
    case ThoughtPart(text) => PlainItem(s.out, Ok(ThinkingDelta(text)));
    case OtherPart => assert s.out + [] == s.out;
  }

  lemma {:induction false} OnPartsFollows(json: JsonText, s: State, parts: seq<Json>, calls: seq<Part>)
    requires Follows(json, s, calls)
    ensures Follows(json, OnParts(json, s, parts), calls + CallsIn(parts))
    decreases |parts|
  {
    hide OnPart, ReadPart, Follows;
    if parts == [] {
      assert calls + [] == calls;
    } else {
      var p := ReadPart(parts[0]);
      OnPartFollows(json, s, p, calls);
      var next := if p.CallPart? then calls + [p] else calls;
      OnPartsFollows(json, OnPart(json, s, p), parts[1..], next);
      assert next + CallsIn(parts[1..]) == calls + CallsIn(parts);
    }
  }

  lemma OnLineFollows(codec: Codec, s: State, line: seq<Byte>, calls: seq<Part>)
    requires Follows(codec.json, s, calls)
    ensures Follows(codec.json, OnLine(codec, s, line), calls + LineCalls(codec, line))
  {
    hide OnParts, ReadLine, ReadUsage, ReadCandidate, ReadParts, ReadFinish, CallsIn, Fold, Events, Expected, AllCalls;
    assert calls + [] == calls;
    match ReadLine(codec, line)
    case NoPayload =>
    case Malformed => PlainItem(s.out, Err(BadJson));
    case Value(v) =>
      if ReadCandidate(v).Some? {
        OnPartsFollows(codec.json, OnUsage(s, v), ReadParts(ReadCandidate(v).value), calls);
      }
  }

  lemma {:induction false} LinesFollow(codec: Codec, s: State, lines: seq<seq<Byte>>, calls: seq<Part>)
    requires Follows(codec.json, s, calls)
    ensures Follows(codec.json, HandleAll(Handler(codec), s, lines), calls + StreamCalls(codec, lines))
    decreases |lines|
  {
    hide OnLine, Follows, LineCalls;
    if lines == [] {
      assert calls + [] == calls;
    } else {
      OnLineFollows(codec, s, lines[0], calls);
      LinesFollow(codec, OnLine(codec, s, lines[0]), lines[1..], calls + LineCalls(codec, lines[0]));
      assert calls + LineCalls(codec, lines[0]) + StreamCalls(codec, lines[1..]) == calls + StreamCalls(codec, lines);
    }
  }

  /** The turn folded from a whole stream holds the stream's calls, in order, each with its numbered id and
      its arguments in full. */
  lemma TurnHoldsCalls(codec: Codec, chunks: seq<seq<Byte>>)
    ensures var calls := StreamCalls(codec, StreamLines(Flatten(chunks)));
            AllCalls(calls) && Fold(Events(Decode(codec, chunks).out)).calls == Expected(codec.json, calls)
  {
    hide HandleAll, StreamLines, Decode, Fold, Events, StreamCalls;
    DecodingIgnoresCuts(codec, chunks);
    StartFollows(codec.json);
    var lines := StreamLines(Flatten(chunks));
    LinesFollow(codec, INITIAL, lines, []);
    assert [] + StreamCalls(codec, lines) == StreamCalls(codec, lines);
    var r := HandleAll(Handler(codec), INITIAL, lines);
    if !r.done {
      PlainItem(r.out, Ok(UsageReport(r.usage)));
      PlainItem(r.out + [Ok(UsageReport(r.usage))], Ok(Done(FinalStop(r))));
      assert r.out + [Ok(UsageReport(r.usage)), Ok(Done(FinalStop(r)))] == r.out + [Ok(UsageReport(r.usage))] + [Ok(Done(FinalStop(r)))];
    }
  }

  lemma StartFollows(json: JsonText)
    ensures Follows(json, INITIAL, [])
  {
    assert Events([]) == [] && Fold([]) == EMPTY_TURN;
  }
}

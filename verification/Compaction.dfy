/** Compaction: the middle of a long transcript is replaced by a model-written summary. */
module Compaction {
  import opened Strings
  import opened Protocol
  import opened History

  /** Trailing turns kept verbatim, two messages each. */
  const KEEP_RECENT_TURNS := 2

  // ----- tool-less side calls -----

  /** How a side call (summary, advice, classification) came back: no stream at all, or the events
      of a stream that ended well or in an error. */
  datatype SideReply = NoStream | Streamed(events: seq<Event>, failed: bool)

  function TextOf(events: seq<Event>): string {
    if events == [] then ""
    else
      var n := |events| - 1;
      TextOf(events[..n]) + (if events[n].TextDelta? then events[n].text else "")
  }

  /** The usage a stream reports: the last report wins. */
  function UsageOf(events: seq<Event>): Usage {
    if events == [] then NO_USAGE
    else
      var n := |events| - 1;
      if events[n].UsageReport? then events[n].usage else UsageOf(events[..n])
  }

  datatype Answer = Answer(text: string, usage: Usage)

  function AnswerOf(reply: SideReply): Option<Answer> {
    if reply.NoStream? || reply.failed then None
    else Some(Answer(TextOf(reply.events), UsageOf(reply.events)))
  }

  /** Read a side call's stream to its end; nothing is answered when it fails. */
  method CollectAnswer(reply: SideReply) returns (answer: Option<Answer>)
    ensures answer == AnswerOf(reply)
  {
    if reply.NoStream? {
      return None;
    }
    var text, usage := "", NO_USAGE;
    for i := 0 to |reply.events|
      invariant text == TextOf(reply.events[..i])
      invariant usage == UsageOf(reply.events[..i])
    {
      assert reply.events[..i + 1][..i] == reply.events[..i];
      match reply.events[i]
      case TextDelta(t) => text := text + t;
      case UsageReport(u) => usage := u;
      case _ =>
    }
    assert reply.events[..|reply.events|] == reply.events;
    return if reply.failed then None else Some(Answer(text, usage));
  }

  /** The text pieces of a stream, in order. */
  function Pieces(events: seq<Event>): seq<string> {
    seq(|events|, i requires 0 <= i < |events| => if events[i].TextDelta? then events[i].text else "")
  }

  lemma {:induction false} TextExactly(events: seq<Event>)
    ensures TextOf(events) == Flatten(Pieces(events))
  {
    hide Flatten;
    if events == [] {
      NoPieces();
    } else {
      var n := |events| - 1;
      var last := if events[n].TextDelta? then events[n].text else "";
      TextExactly(events[..n]);
      assert Pieces(events) == Pieces(events[..n]) + [last];
      FlattenAppend(Pieces(events[..n]), [last]);
      FlattenOne(last);
    }
  }

  lemma NoPieces()
    ensures Flatten(Pieces([])) == ""
  {
  }

  predicate NoneFrom(events: seq<Event>, i: nat) {
    forall j | i <= j < |events| :: !events[j].UsageReport?
  }

  /** The last usage report. */
  predicate IsLastReport(events: seq<Event>, i: nat) {
    i < |events| && events[i].UsageReport? && NoneFrom(events, i + 1)
  }

  lemma {:induction false} NoUsage(events: seq<Event>)
    requires NoneFrom(events, 0)
    ensures UsageOf(events) == NO_USAGE
  {
    if events != [] {
      NoUsage(events[..|events| - 1]);
    }
  }

  lemma {:induction false} LastUsage(events: seq<Event>, i: nat)
    requires IsLastReport(events, i)
    ensures UsageOf(events) == events[i].usage
  {
    var n := |events| - 1;
    if i < n {
      assert !events[n].UsageReport?;
      LastUsage(events[..n], i);
    }
  }

  /** A stream's text is all its text pieces in order, its usage the last one reported, if any is. */
  lemma AnswerExactly(events: seq<Event>)
    ensures TextOf(events) == Flatten(Pieces(events))
    ensures NoneFrom(events, 0) ==> UsageOf(events) == Usage(0, 0, 0, 0)
    ensures forall i: nat :: IsLastReport(events, i) ==> UsageOf(events) == events[i].usage
  {
    hide IsLastReport, NoneFrom, Flatten, TextOf, UsageOf;
    TextExactly(events);
    if NoneFrom(events, 0) {
      NoUsage(events);
    }
    forall i: nat | IsLastReport(events, i)
      ensures i < |events| && events[i].UsageReport? && UsageOf(events) == events[i].usage
    {
      ReportIsThere(events, i);
      LastUsage(events, i);
    }
  }

  lemma ReportIsThere(events: seq<Event>, i: nat)
    requires IsLastReport(events, i)
    ensures i < |events| && events[i].UsageReport?
  {
  }

  // ----- the compacted transcript -----

  function SummaryMessage(summary: string): Message {
    UserText("[Earlier conversation compacted to save tokens]\n" + summary)
  }

  /** There is a middle to summarise between the task and the recent turns. */
  predicate LongEnough(h: Transcript) {
    |h| >= 2 * KEEP_RECENT_TURNS + 3
  }

  function Compacted(h: Transcript, summary: string): Transcript
    requires LongEnough(h)
  {
    [h[0], SummaryMessage(summary)] + h[|h| - 2 * KEEP_RECENT_TURNS..]
  }

  function CompactReply(h: Transcript, reply: SideReply): Option<Answer> {
    if !LongEnough(h) then None
    else
      match AnswerOf(reply)
      case None => None
      case Some(a) => if Trim(a.text) == "" then None else Some(a)
  }

  /** `compact_history`: the summarised transcript and what the summary cost, unless the transcript
      is short, the call fails or the summary is blank. */
  method CompactHistory(history: Transcript, reply: SideReply) returns (compacted: Option<(Transcript, Usage)>)
    ensures compacted.Some? <==> CompactReply(history, reply).Some?
    ensures compacted.Some? ==>
              var a := CompactReply(history, reply).value;
              compacted.value == (Compacted(history, a.text), a.usage)
  {
    var keep := 2 * KEEP_RECENT_TURNS;
    if |history| < keep + 3 {
      return None;
    }
    var answer := CollectAnswer(reply);
    if answer == None || Trim(answer.value.text) == "" {
      return None;
    }
    var cutEnd := |history| - keep;
    return Some(([history[0], SummaryMessage(answer.value.text)] + history[cutEnd..], answer.value.usage));
  }

  /** The cut falls on a turn boundary: the first message kept answers no call. */
  predicate CutsAtBoundary(h: Transcript)
    requires LongEnough(h)
  {
    ResultIds(h[|h| - 2 * KEEP_RECENT_TURNS].content) == []
  }

  /** Messages 1 to cut-1 give way to one without tool blocks. */
  lemma SplicePairing(o: seq<Ids>, cut: nat)
    requires 1 <= cut < |o| && Answered(o) && o[0].uses == []
    ensures Answered([o[0], Ids([], [])] + o[cut..]) <==> o[cut].results == []
  {
    hide Owed;
    var g := [o[0], Ids([], [])] + o[cut..];
    assert g[2] == o[cut];
    SpliceOwes(o, cut, |g|);
    SpliceOwes(o, cut, 2);
    forall i | 0 <= i < |g|
      ensures g[i].results == (if i == 2 then o[cut].results else Owed(g, i))
    {
      SpliceOwes(o, cut, i);
      SpliceAt(o, cut, i);
      assert o[0].results == Owed(o, 0);
      assert i >= 3 ==> o[cut + i - 2].results == Owed(o, cut + i - 2);
    }
  }

  lemma SpliceAt(o: seq<Ids>, cut: nat, i: nat)
    requires 1 <= cut < |o| && i < 2 + |o| - cut
    ensures ([o[0], Ids([], [])] + o[cut..])[i] == if i == 0 then o[0] else if i == 1 then Ids([], []) else o[cut + i - 2]
  {
  }

  /** Behind the splice the calls are those of the old transcript; at it there are none. */
  lemma SpliceOwes(o: seq<Ids>, cut: nat, i: nat)
    requires 1 <= cut < |o| && i <= 2 + |o| - cut
    ensures var owed := Owed([o[0], Ids([], [])] + o[cut..], i);
            if i == 0 then owed == Owed(o, 0) else if i == 1 then owed == o[0].uses else if i == 2 then owed == []
            else owed == Owed(o, cut + i - 2)
  {
  }

  lemma CompactedOutline(h: Transcript, summary: string)
    requires LongEnough(h)
    ensures Outline(Compacted(h, summary)) ==
            [Outline(h)[0], Ids([], [])] + Outline(h)[|h| - 2 * KEEP_RECENT_TURNS..]
  {
    PlainMessage(SummaryMessage(summary));
  }

  /** Compaction cuts four messages from the end without looking at them. It keeps calls and results
      paired exactly when that is a turn boundary. */
  lemma CompactionPairing(h: Transcript, summary: string)
    requires LongEnough(h) && Paired(h) && UseIds(h[0].content) == []
    ensures Paired(Compacted(h, summary)) <==> CutsAtBoundary(h)
  {
    hide Compacted, Answered;
    assert Outline(h)[0].uses == UseIds(h[0].content);
    CompactedOutline(h, summary);
    SplicePairing(Outline(h), |h| - 2 * KEEP_RECENT_TURNS);
  }
}

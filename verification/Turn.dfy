/** One round-trip's events folded into a structured turn. */
module TurnModel {
  import opened Strings
  import opened Protocol
  import opened Compaction

  /** A tool call being put together from streamed argument fragments. */
  datatype ToolCall = ToolCall(id: string, name: string, args: string)

  datatype Turn = Turn(text: string, calls: seq<ToolCall>, byId: map<string, nat>, usage: Usage, stop: Option<StopReason>)
  {
    /** Every id leads to a call that has been started. */
    predicate Valid() {
      forall id | id in byId.Keys :: byId[id] < |calls|
    }
  }

  const EMPTY_TURN := Turn("", [], map[], NO_USAGE, None)

  function Observed(t: Turn, e: Event): (r: Turn)
    requires t.Valid()
    ensures r.Valid()
  {
    match e
    case TextDelta(text) => t.(text := t.text + text)
    case ToolUseStart(id, name) => t.(byId := t.byId[id := |t.calls|], calls := t.calls + [ToolCall(id, name, "")])
    case ToolUseDelta(id, json) =>
      if id in t.byId then
        var p := t.byId[id];
        t.(calls := t.calls[p := t.calls[p].(args := t.calls[p].args + json)])
      else t
    case UsageReport(usage) => t.(usage := usage)
    case Done(stop) => t.(stop := Some(stop))
    case _ => t
  }

  function Fold(events: seq<Event>): (t: Turn)
    ensures t.Valid()
  {
    if events == [] then EMPTY_TURN else Observed(Fold(events[..|events| - 1]), events[|events| - 1])
  }

  /** The events of a turn that are passed on to the caller; usage and the end are kept back. */
  function Forwarded(events: seq<Event>): seq<Event> {
    if events == [] then []
    else
      var n := |events| - 1;
      Forwarded(events[..n]) + (if IsCaptured(events[n]) then [] else [events[n]])
  }

  function Prose(events: seq<Event>): seq<Event> {
    if events == [] then []
    else
      var n := |events| - 1;
      Prose(events[..n]) + (if IsProse(events[n]) then [events[n]] else [])
  }

  /** What is passed on at once: neither captured nor held back. */
  function Immediate(events: seq<Event>): seq<Event> {
    if events == [] then []
    else
      var n := |events| - 1;
      Immediate(events[..n]) + (if IsCaptured(events[n]) || IsProse(events[n]) then [] else [events[n]])
  }

  class TurnAccumulator {
    var text: string
    var calls: seq<ToolCall>
    var byId: map<string, nat>
    var usage: Usage
    var stop: Option<StopReason>

    function State(): Turn
      reads this
    {
      Turn(text, calls, byId, usage, stop)
    }

    constructor ()
      ensures State() == EMPTY_TURN
    {
      text, calls, byId, usage, stop := "", [], map[], NO_USAGE, None;
    }

    /** Fold one event in; what is not captured is handed back to be passed on. */
    method Observe(event: Event) returns (forward: Option<Event>)
      requires State().Valid()
      modifies this
      ensures State() == Observed(old(State()), event) && State().Valid()
      ensures forward == if IsCaptured(event) then None else Some(event)
    {
      match event
      case TextDelta(t) =>
        text := text + t;
        return Some(event);
      case ToolUseStart(id, name) =>
        byId := byId[id := |calls|];
        calls := calls + [ToolCall(id, name, "")];
        return Some(event);
      case ToolUseDelta(id, json) =>
        if id in byId {
          var p := byId[id];
          calls := calls[p := calls[p].(args := calls[p].args + json)];
        }
        return Some(event);
      case UsageReport(u) =>
        usage := u;
        return None;
      case Done(s) =>
        stop := Some(s);
        return None;
      case _ =>
        return Some(event);
    }
  }

  /** A turn carries the last usage its stream reported and all of its text. */
  lemma {:induction false} FoldKeeps(events: seq<Event>)
    ensures Fold(events).usage == UsageOf(events) && Fold(events).text == TextOf(events)
  {
    if events != [] {
      FoldKeeps(events[..|events| - 1]);
    }
  }

  lemma {:induction false} NothingForwarded(events: seq<Event>)
    requires Forwarded(events) == []
    ensures Immediate(events) == [] && Prose(events) == []
  {
    if events != [] {
      NothingForwarded(events[..|events| - 1]);
    }
  }

  // ----- the assistant message -----

  /** Accumulated arguments, parsed; blank or malformed ones are an empty object. */
  function ParsedArgs(j: JsonText, args: string): Json {
    if Trim(args) == "" then JObj([])
    else
      match j.parse(args)
      case Some(v) => v
      case None => JObj([])
  }

  function CallBlocks(j: JsonText, calls: seq<ToolCall>): seq<ContentBlock> {
    if calls == [] then []
    else
      var n := |calls| - 1;
      CallBlocks(j, calls[..n]) + [ToolUse(calls[n].id, calls[n].name, ParsedArgs(j, calls[n].args))]
  }

  /** `to_assistant_message` */
  function AssistantMessage(j: JsonText, t: Turn): Message {
    Message(Assistant, (if t.text == "" then [] else [Text(t.text, false)]) + CallBlocks(j, t.calls))
  }
}

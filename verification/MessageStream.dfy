/**
 The mapper of one Messages API stream: wire events in, canonical chat events
 out, plus the segment's own accumulation for the pause_turn continuation.
 */
module MessageStream {
  import opened Prelude
  import opened TokenUsage
  import opened IdMaps

  datatype BlockKind = ToolUse(wireId: string, name: string) | Thinking | RedactedThinking | Text | OtherKind

  /** A content block; `input` is the argument text of a tool_use block, left unparsed. */
  datatype Block = Block(kind: BlockKind, text: string, thinking: string, signature: string, input: string) {
    /** Blocks that must be echoed back to the provider. */
    predicate Retained() {
      kind.Thinking? || kind.RedactedThinking?
    }
  }

  datatype Delta =
    | TextPart(text: string)
    | ThinkingPart(text: string)
    | JsonPart(text: string)
    | SignaturePart(text: string)
    | OtherPart

  /**
   `minted` is the canonical id the minter would produce for a new tool call.
   `Elsewhere` is a call of another stream or request on the adapter's one id
   map while this stream waits for its next event.
   */
  datatype WireEvent =
    | MessageStart(id: Option<string>, usage: RawUsage)
    | BlockStart(index: int, block: Block, minted: string)
    | BlockDelta(index: int, delta: Delta)
    | BlockStop(index: int)
    | MessageDelta(
        stopReason: Option<string>, stopSequence: Option<string>, stopDetails: Option<string>,
        output: Option<nat>)
    | MessageStop
    | Elsewhere(call: Call)
    | OtherEvent

  datatype FinishReason = Stop | ToolCalls | MaxTokens | ContextWindowExceeded | Refusal(details: Option<string>)
  datatype MappedStop = Finishes(reason: FinishReason) | Pauses

  /** The stop reasons with a meaning of their own; end_turn, stop_sequence and unknown ones are plain stops. */
  const SpecialStops: set<string> :=
    {"tool_use", "max_tokens", "model_context_window_exceeded", "refusal", "pause_turn"}

  /** The stop-reason table: pause_turn alone never becomes a canonical finish. */
  function MapStopReason(stopReason: Option<string>, stopDetails: Option<string>): (stop: MappedStop)
    ensures stop.Pauses? <==> stopReason == Some("pause_turn")
    ensures stop == Finishes(ToolCalls) <==> stopReason == Some("tool_use")
    ensures stop == Finishes(MaxTokens) <==> stopReason == Some("max_tokens")
    ensures stop == Finishes(ContextWindowExceeded) <==> stopReason == Some("model_context_window_exceeded")
    ensures stop == Finishes(Refusal(stopDetails)) <==> stopReason == Some("refusal")
    ensures stop == Finishes(Stop) <==> stopReason.None? || stopReason.value !in SpecialStops
  {
    if stopReason == Some("tool_use") then Finishes(ToolCalls)
    else if stopReason == Some("max_tokens") then Finishes(MaxTokens)
    else if stopReason == Some("model_context_window_exceeded") then Finishes(ContextWindowExceeded)
    else if stopReason == Some("refusal") then Finishes(Refusal(stopDetails))
    else if stopReason == Some("pause_turn") then Pauses
    else Finishes(Stop)
  }

  /** The wire requests one logical turn cost, by count and by reported response id. */
  datatype WireRequests = WireRequests(count: nat, responseIds: seq<string>)
  datatype FinishMeta = FinishMeta(
    responseId: Option<string>,
    wireRequests: Option<WireRequests>,
    stopSequence: Option<string>,
    retainedParts: Option<seq<Block>>)
  datatype WireError = WireError(message: string, retryable: bool)

  datatype ChatEvent =
    | UsageReport(usage: Usage)
    | TextDelta(text: string)
    | ReasoningDelta(text: string)
    | ToolCallStart(id: string, name: string)
    | ToolCallDelta(id: string, argsText: string)
    | ToolCallEnd(id: string, args: string)
    | Finish(reason: FinishReason, usage: Usage, meta: FinishMeta)
    | Error(error: WireError, absorbed: Option<WireRequests>)
  {
    predicate Terminal() {
      Finish? || Error?
    }
  }

  ghost predicate NoTerminal(out: seq<ChatEvent>) {
    forall i :: 0 <= i < |out| ==> !out[i].Terminal()
  }

  // ---------------------------------------------------------------- one event

  datatype OpenBlock = OpenBlock(canonicalId: Option<string>, json: string, block: Block)

  datatype Acc = Acc(
    assistant: seq<Block>,
    usage: Usage,
    stopReason: Option<string>,
    stopSequence: Option<string>,
    stopDetails: Option<string>,
    responseId: Option<string>,
    open: map<int, OpenBlock>,
    ids: Ids)

  function Start(ids: Ids): Acc {
    Acc([], NoUsage, None, None, None, None, map[], ids)
  }

  function OnBlockStart(acc: Acc, index: int, block: Block, minted: string): (Acc, seq<ChatEvent>) {
    match block.kind
    case ToolUse(wireId, name) =>
      var (ids, id) := CanonicalFor(acc.ids, wireId, minted);
      (acc.(ids := ids, open := acc.open[index := OpenBlock(Some(id), "", block)]), [ToolCallStart(id, name)])
    case Text => (acc.(open := acc.open[index := OpenBlock(None, "", block.(text := ""))]), [])
    case _ => (acc.(open := acc.open[index := OpenBlock(None, "", block)]), [])
  }

  function OnDelta(acc: Acc, index: int, delta: Delta): (Acc, seq<ChatEvent>) {
    if index !in acc.open then (acc, [])
    else
      var o := acc.open[index];
      match delta
      case TextPart(text) =>
        (acc.(open := acc.open[index := o.(block := o.block.(text := o.block.text + text))]), [TextDelta(text)])
      case ThinkingPart(text) =>
        (acc.(open := acc.open[index := o.(block := o.block.(thinking := o.block.thinking + text))]),
         [ReasoningDelta(text)])
      case JsonPart(text) =>
        (acc.(open := acc.open[index := o.(json := o.json + text)]),
         if o.canonicalId.Some? then [ToolCallDelta(o.canonicalId.value, text)] else [])
      case SignaturePart(text) =>
        (acc.(open := acc.open[index := o.(block := o.block.(signature := o.block.signature + text))]), [])
      case OtherPart => (acc, [])
  }

  function OnBlockStop(acc: Acc, index: int): (Acc, seq<ChatEvent>) {
    if index !in acc.open then (acc, [])
    else
      var o := acc.open[index];
      var closed := acc.(open := acc.open - {index});
      if o.canonicalId.Some? then
        var args := if o.json == "" then "{}" else o.json;
        (closed.(assistant := acc.assistant + [o.block.(input := args)]), [ToolCallEnd(o.canonicalId.value, args)])
      else (closed.(assistant := acc.assistant + [o.block]), [])
  }

  function Either(newer: Option<string>, older: Option<string>): Option<string> {
    if newer.Some? then newer else older
  }

  /** Every event but message_stop. */
  function OnEvent(acc: Acc, e: WireEvent): (Acc, seq<ChatEvent>) {
    match e
    case MessageStart(id, raw) =>
      (acc.(responseId := id, usage := Normalize(raw)), [UsageReport(Normalize(raw))])
    case BlockStart(index, block, minted) => OnBlockStart(acc, index, block, minted)
    case BlockDelta(index, delta) => OnDelta(acc, index, delta)
    case BlockStop(index) => OnBlockStop(acc, index)
    case MessageDelta(reason, sequence, details, output) =>
      (acc.(stopReason := Either(reason, acc.stopReason),
            stopSequence := Either(sequence, acc.stopSequence),
            stopDetails := Either(details, acc.stopDetails),
            usage := if output.Some? then acc.usage.(output := output.value) else acc.usage), [])
    case Elsewhere(call) => (acc.(ids := Step(Anthropic, acc.ids, call)), [])
    case _ => (acc, [])
  }

  // ---------------------------------------------------------------- one segment

  function Scan(ids: Ids, es: seq<WireEvent>): (Acc, seq<ChatEvent>) {
    if es == [] then (Start(ids), [])
    else
      var (acc, out) := Scan(ids, Front(es));
      var (acc', more) := OnEvent(acc, Last(es));
      (acc', out + more)
  }

  /** Position of the first message_stop; the length when there is none. */
  function StopAt(es: seq<WireEvent>): (n: nat)
    ensures n <= |es|
    ensures n < |es| ==> es[n].MessageStop?
    ensures forall i :: 0 <= i < n ==> !es[i].MessageStop?
  {
    if es == [] || es[0].MessageStop? then 0 else 1 + StopAt(es[1..])
  }

  /** What earlier segments of the same turn already accumulated. */
  datatype Prior = Prior(carryRetained: seq<Block>, responseIds: seq<Option<string>>, usage: Option<Usage>)

  const NoPrior: Prior := Prior([], [], None)

  function Known(ids: seq<Option<string>>): seq<string> {
    if ids == [] then [] else Known(Front(ids)) + (if Last(ids).Some? then [Last(ids).value] else [])
  }

  function RetainedOf(blocks: seq<Block>): seq<Block> {
    if blocks == [] then []
    else RetainedOf(Front(blocks)) + (if Last(blocks).Retained() then [Last(blocks)] else [])
  }

  function FinishEvent(acc: Acc, reason: FinishReason, prior: Prior): ChatEvent {
    var retained := prior.carryRetained + RetainedOf(acc.assistant);
    Finish(
      reason,
      if prior.usage.Some? then Sum(prior.usage.value, acc.usage) else acc.usage,
      FinishMeta(
        acc.responseId,
        if prior.responseIds == [] then None
        else Some(WireRequests(|prior.responseIds| + 1, Known(prior.responseIds + [acc.responseId]))),
        acc.stopSequence,
        if retained == [] then None else Some(retained)))
  }

  datatype Verdict = Finished | Paused | Truncated
  datatype Mapped = Mapped(acc: Acc, out: seq<ChatEvent>, verdict: Verdict)

  function MapSegment(ids: Ids, es: seq<WireEvent>, prior: Prior): Mapped {
    var (acc, out) := Scan(ids, es[..StopAt(es)]);
    if StopAt(es) == |es| then Mapped(acc, out, Truncated)
    else
      match MapStopReason(acc.stopReason, acc.stopDetails)
      case Pauses => Mapped(acc, out, Paused)
      case Finishes(reason) => Mapped(acc, out + [FinishEvent(acc, reason, prior)], Finished)
  }

  lemma {:induction false} StopAtUnique(es: seq<WireEvent>, n: nat)
    requires n <= |es| && (n < |es| ==> es[n].MessageStop?)
    requires forall i :: 0 <= i < n ==> !es[i].MessageStop?
    ensures StopAt(es) == n
  {
    if n > 0 { StopAtUnique(es[1..], n - 1); }
  }

  /** The generator: one pass over the stream, stopping at message_stop. */
  method MapStream(ids: Ids, stream: seq<WireEvent>, prior: Prior) returns (mapped: Mapped)
    ensures mapped == MapSegment(ids, stream, prior)
  {
    var acc, out := Start(ids), [];
    for i := 0 to |stream|
      invariant (acc, out) == Scan(ids, stream[..i])
      invariant forall j :: 0 <= j < i ==> !stream[j].MessageStop?
    {
      var e := stream[i];
      if e.MessageStop? {
        StopAtUnique(stream, i);
        var stop := MapStopReason(acc.stopReason, acc.stopDetails);
        if stop.Pauses? {
          return Mapped(acc, out, Paused);
        }
        return Mapped(acc, out + [FinishEvent(acc, stop.reason, prior)], Finished);
      }
      assert Front(stream[..i + 1]) == stream[..i] && Last(stream[..i + 1]) == e;
      var (acc', more) := OnEvent(acc, e);
      acc, out := acc', out + more;
    }
    StopAtUnique(stream, |stream|);
    assert stream[..|stream|] == stream;
    mapped := Mapped(acc, out, Truncated);
  }

  // ---------------------------------------------------------------- segment facts

  lemma {:induction false} ScanHasNoTerminal(ids: Ids, es: seq<WireEvent>)
    ensures NoTerminal(Scan(ids, es).1)
    ensures Canonical(Scan(ids, es).0.usage)
  {
    if es != [] { ScanHasNoTerminal(ids, Front(es)); }
  }

  /** Exactly the finished segments end in a terminal event, and it is the finish. */
  lemma SegmentTerminal(ids: Ids, es: seq<WireEvent>, prior: Prior)
    ensures var m := MapSegment(ids, es, prior);
            && Canonical(m.acc.usage)
            && if m.verdict.Finished? then m.out != [] && Last(m.out).Finish? && NoTerminal(Front(m.out))
               else NoTerminal(m.out)
  {
    ScanHasNoTerminal(ids, es[..StopAt(es)]);
  }

  /** Ids of tool calls started in some output. */
  ghost predicate Started(out: seq<ChatEvent>, id: string) {
    exists i :: 0 <= i < |out| && out[i].ToolCallStart? && out[i].id == id
  }

  ghost predicate Bracketed(out: seq<ChatEvent>) {
    forall i :: 0 <= i < |out| && (out[i].ToolCallDelta? || out[i].ToolCallEnd?) ==> Started(out[..i], out[i].id)
  }

  lemma StartedLater(out: seq<ChatEvent>, more: seq<ChatEvent>, id: string)
    requires Started(out, id)
    ensures Started(out + more, id)
  {
    var i :| 0 <= i < |out| && out[i].ToolCallStart? && out[i].id == id;
    assert (out + more)[i] == out[i];
  }

  lemma BracketedExtends(out: seq<ChatEvent>, more: seq<ChatEvent>)
    requires Bracketed(out) && |more| <= 1
    requires |more| == 1 && (more[0].ToolCallDelta? || more[0].ToolCallEnd?) ==> Started(out, more[0].id)
    ensures Bracketed(out + more)
  {
    forall i | 0 <= i < |out + more| && ((out + more)[i].ToolCallDelta? || (out + more)[i].ToolCallEnd?)
      ensures Started((out + more)[..i], (out + more)[i].id)
    {
      assert i < |out| ==> (out + more)[..i] == out[..i];
      assert i == |out| ==> (out + more)[..i] == out;
    }
  }

  /** Every tool-call delta and every tool-call end follows a start with its id, whatever other streams do. */
  lemma {:induction false} ToolCallsAreBracketed(ids: Ids, es: seq<WireEvent>)
    ensures var (acc, out) := Scan(ids, es);
            && Bracketed(out)
            && forall k :: k in acc.open && acc.open[k].canonicalId.Some? ==>
                 Started(out, acc.open[k].canonicalId.value)
  {
    if es != [] {
      ToolCallsAreBracketed(ids, Front(es));
      var (acc, out) := Scan(ids, Front(es));
      var (acc', more) := OnEvent(acc, Last(es));
      BracketedExtends(out, more);
      forall k | k in acc'.open && acc'.open[k].canonicalId.Some?
        ensures Started(out + more, acc'.open[k].canonicalId.value)
      {
        if k in acc.open && acc.open[k].canonicalId == acc'.open[k].canonicalId {
          StartedLater(out, more, acc.open[k].canonicalId.value);
        } else {
          assert (out + more)[|out|] == more[0];
        }
      }
    }
  }

  // ---------------------------------------------------------------- mid-stream reports

  /** The usage events among some output. */
  function Reports(out: seq<ChatEvent>): seq<Usage> {
    if out == [] then []
    else Reports(Front(out)) + (if Last(out).UsageReport? then [Last(out).usage] else [])
  }

  /** One message_start, and output counts that never fall below what was reported. */
  ghost predicate Cumulative(ids: Ids, es: seq<WireEvent>) {
    es == []
    || (var (acc, out) := Scan(ids, Front(es));
        && Cumulative(ids, Front(es))
        && (Last(es).MessageStart? ==> Reports(out) == [])
        && (Last(es).MessageDelta? && Last(es).output.Some? ==> acc.usage.output <= Last(es).output.value))
  }

  lemma ReportsConcat(a: seq<ChatEvent>, b: seq<ChatEvent>)
    ensures Reports(a + b) == Reports(a) + Reports(b)
  {
    if b == [] {
      assert a + b == a;
    } else {
      ReportsConcat(a, Front(b));
      assert Front(a + b) == a + Front(b);
    }
  }

  lemma EventReports(acc: Acc, e: WireEvent)
    ensures var (acc', more) := OnEvent(acc, e);
            && Reports(more) == (if e.MessageStart? then [acc'.usage] else [])
            && (!e.MessageStart? && (e.MessageDelta? && e.output.Some? ==> acc.usage.output <= e.output.value) ==>
                  Within(acc.usage, acc'.usage))
  {
    var (_, more) := OnEvent(acc, e);
    if more != [] {
      assert Front(more) == [];
    }
  }

  /** A segment reports its usage at most once, and never more than it ends with. */
  lemma {:induction false} SegmentReportsWithin(ids: Ids, es: seq<WireEvent>)
    requires Cumulative(ids, es)
    ensures var (acc, out) := Scan(ids, es);
            |Reports(out)| <= 1 && (Reports(out) != [] ==> Within(Reports(out)[0], acc.usage))
  {
    if es != [] {
      SegmentReportsWithin(ids, Front(es));
      var (acc, out) := Scan(ids, Front(es));
      EventReports(acc, Last(es));
      ReportsConcat(out, OnEvent(acc, Last(es)).1);
    }
  }
}

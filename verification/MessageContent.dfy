/**
 What a segment carries, by the wire events alone: every closed block, tool
 argument, text, thought, usage count and stop field is read off the history
 of events, without any accumulator, and the mapper's accumulation is proved to
 agree with it.
 */
module MessageContent {
  import opened Prelude
  import opened TokenUsage
  import opened IdMaps
  import opened MessageStream

  // ---------------------------------------------------------------- reading the history

  /** The events up to and including the start of the block that is open under the index. */
  function Opening(es: seq<WireEvent>, index: int): (start: Option<seq<WireEvent>>)
    ensures start.Some? ==> start.value != [] && Last(start.value).BlockStart? && Last(start.value).index == index
  {
    if es == [] then None
    else
      match Last(es)
      case BlockStart(i, _, _) => if i == index then Some(es) else Opening(Front(es), index)
      case BlockStop(i) => if i == index then None else Opening(Front(es), index)
      case _ => Opening(Front(es), index)
  }

  datatype Channel = TextOf | ThinkingOf | JsonOf | SignatureOf

  function Carried(delta: Delta, channel: Channel): string {
    match delta
    case TextPart(text) => if channel.TextOf? then text else ""
    case ThinkingPart(text) => if channel.ThinkingOf? then text else ""
    case JsonPart(text) => if channel.JsonOf? then text else ""
    case SignaturePart(text) => if channel.SignatureOf? then text else ""
    case OtherPart => ""
  }

  /** Everything the deltas of the index brought on one channel since its block started. */
  function Joined(es: seq<WireEvent>, index: int, channel: Channel): string {
    if es == [] then ""
    else
      match Last(es)
      case BlockStart(i, _, _) => if i == index then "" else Joined(Front(es), index, channel)
      case BlockDelta(i, delta) =>
        Joined(Front(es), index, channel) + if i == index then Carried(delta, channel) else ""
      case _ => Joined(Front(es), index, channel)
  }

  /** The open block of the index, as it would be closed now; a text block starts empty. */
  function BlockNow(es: seq<WireEvent>, index: int): Block
    requires Opening(es, index).Some?
  {
    var b := Last(Opening(es, index).value).block;
    var whole := b.(text := (if b.kind.Text? then "" else b.text) + Joined(es, index, TextOf),
                    thinking := b.thinking + Joined(es, index, ThinkingOf),
                    signature := b.signature + Joined(es, index, SignatureOf));
    if b.kind.ToolUse? then whole.(input := Arguments(es, index)) else whole
  }

  function Arguments(es: seq<WireEvent>, index: int): string {
    if Joined(es, index, JsonOf) == "" then "{}" else Joined(es, index, JsonOf)
  }

  /** The closed blocks, in the order in which they were closed. */
  function Closed(es: seq<WireEvent>): seq<Block> {
    if es == [] then []
    else Closed(Front(es))
         + (if Last(es).BlockStop? && Opening(Front(es), Last(es).index).Some?
            then [BlockNow(Front(es), Last(es).index)] else [])
  }

  /** The calls on the shared id map: one for every tool call started here, and everybody else's. */
  function Calls(es: seq<WireEvent>): seq<Call> {
    if es == [] then []
    else Calls(Front(es)) + CallsOf(Last(es))
  }

  /** The canonical id under which the tool call that starts with the last event is announced. */
  function CallId(ids: Ids, es: seq<WireEvent>): string
    requires es != [] && Last(es).BlockStart? && Last(es).block.kind.ToolUse?
  {
    CanonicalFor(Run(Anthropic, ids, Calls(Front(es))), Last(es).block.kind.wireId, Last(es).minted).1
  }

  /** What the last event makes the segment say. */
  function Says(ids: Ids, es: seq<WireEvent>): seq<ChatEvent>
    requires es != []
  {
    match Last(es)
    case MessageStart(_, raw) => [UsageReport(Normalize(raw))]
    case BlockStart(_, block, _) =>
      if block.kind.ToolUse? then [ToolCallStart(CallId(ids, es), block.kind.name)] else []
    case BlockDelta(index, delta) =>
      var start := Opening(Front(es), index);
      if start.None? then []
      else
        (match delta
         case TextPart(text) => [TextDelta(text)]
         case ThinkingPart(text) => [ReasoningDelta(text)]
         case JsonPart(text) =>
           if Last(start.value).block.kind.ToolUse? then [ToolCallDelta(CallId(ids, start.value), text)] else []
         case _ => [])
    case BlockStop(index) =>
      var start := Opening(Front(es), index);
      if start.Some? && Last(start.value).block.kind.ToolUse?
      then [ToolCallEnd(CallId(ids, start.value), Arguments(Front(es), index))] else []
    case _ => []
  }

  function Said(ids: Ids, es: seq<WireEvent>): seq<ChatEvent> {
    if es == [] then [] else Said(ids, Front(es)) + Says(ids, es)
  }

  /** The usage of the last message_start, with the last output count reported since. */
  function Counted(es: seq<WireEvent>): Usage {
    if es == [] then NoUsage
    else
      match Last(es)
      case MessageStart(_, raw) => Normalize(raw)
      case MessageDelta(_, _, _, output) =>
        if output.Some? then Counted(Front(es)).(output := output.value) else Counted(Front(es))
      case _ => Counted(Front(es))
  }

  datatype Field = ReasonOf | SequenceOf | DetailsOf

  /** The last value given for a stop field. */
  function Stated(es: seq<WireEvent>, field: Field): Option<string> {
    if es == [] then None
    else
      match Last(es)
      case MessageDelta(reason, sequence, details, _) =>
        var given := match field case ReasonOf => reason case SequenceOf => sequence case DetailsOf => details;
        if given.Some? then given else Stated(Front(es), field)
      case _ => Stated(Front(es), field)
  }

  function Named(es: seq<WireEvent>): Option<string> {
    if es == [] then None
    else if Last(es).MessageStart? then Last(es).id
    else Named(Front(es))
  }

  // ---------------------------------------------------------------- the accumulation agrees

  /** The calls of one event on the shared id map. */
  function CallsOf(e: WireEvent): seq<Call> {
    match e
    case BlockStart(_, block, minted) => if block.kind.ToolUse? then [ToCanonical(block.kind.wireId, minted)] else []
    case Elsewhere(call) => [call]
    case _ => []
  }

  lemma EventCalls(acc: Acc, e: WireEvent)
    ensures OnEvent(acc, e).0.ids == if CallsOf(e) == [] then acc.ids else Step(Anthropic, acc.ids, CallsOf(e)[0])
  {
  }

  lemma {:induction false} IdsAreCalls(ids: Ids, es: seq<WireEvent>)
    ensures Scan(ids, es).0.ids == Run(Anthropic, ids, Calls(es))
  {
    if es != [] {
      IdsAreCalls(ids, Front(es));
      EventCalls(Scan(ids, Front(es)).0, Last(es));
      if CallsOf(Last(es)) == [] {
        assert Calls(es) == Calls(Front(es));
      } else {
        assert Front(Calls(es)) == Calls(Front(es)) && Last(Calls(es)) == CallsOf(Last(es))[0];
      }
    }
  }

  /** The open block holds what its start gave and what came on the four channels since. */
  ghost predicate Holds(o: OpenBlock, b: Block, id: Option<string>, joined: Channel -> string) {
    && o.canonicalId == id
    && o.json == joined(JsonOf)
    && o.block == b.(text := (if b.kind.Text? then "" else b.text) + joined(TextOf),
                     thinking := b.thinking + joined(ThinkingOf),
                     signature := b.signature + joined(SignatureOf))
  }

  function StartId(ids: Ids, start: seq<WireEvent>): Option<string>
    requires start != [] && Last(start).BlockStart?
  {
    if Last(start).block.kind.ToolUse? then Some(CallId(ids, start)) else None
  }

  /** The block under one index is open exactly as the history says, and holds what the history says. */
  ghost predicate OpenAgrees(ids: Ids, es: seq<WireEvent>, index: int) {
    var open, start := Scan(ids, es).0.open, Opening(es, index);
    && (index in open <==> start.Some?)
    && (start.Some? ==>
          Holds(open[index], Last(start.value).block, StartId(ids, start.value), c => Joined(es, index, c)))
  }

  predicate Touches(e: WireEvent, index: int) {
    (e.BlockStart? || e.BlockDelta? || e.BlockStop?) && e.index == index
  }

  lemma OthersKeep(acc: Acc, e: WireEvent, index: int)
    requires !Touches(e, index)
    ensures var open := OnEvent(acc, e).0.open;
            (index in open <==> index in acc.open) && (index in open ==> open[index] == acc.open[index])
  {
  }

  lemma StartHolds(acc: Acc, index: int, block: Block, minted: string, id: Option<string>, joined: Channel -> string)
    requires forall c :: joined(c) == ""
    requires id == if block.kind.ToolUse? then Some(CanonicalFor(acc.ids, block.kind.wireId, minted).1) else None
    ensures var open := OnBlockStart(acc, index, block, minted).0.open;
            index in open && Holds(open[index], block, id, joined)
  {
    assert block.text + "" == block.text && block.thinking + "" == block.thinking;
    assert block.signature + "" == block.signature && "" + "" == "";
  }

  lemma DeltaHolds(acc: Acc, index: int, delta: Delta, b: Block, id: Option<string>, joined: Channel -> string,
                   joined': Channel -> string)
    requires index in acc.open && Holds(acc.open[index], b, id, joined)
    requires forall c :: joined'(c) == joined(c) + Carried(delta, c)
    ensures var open := OnDelta(acc, index, delta).0.open;
            index in open && Holds(open[index], b, id, joined')
  {
    var o, o' := acc.open[index], OnDelta(acc, index, delta).0.open[index];
    assert forall c :: Carried(delta, c) == "" ==> joined'(c) == joined(c);
    assert o'.block.text == (if b.kind.Text? then "" else b.text) + joined'(TextOf);
    assert o'.block.thinking == b.thinking + joined'(ThinkingOf);
    assert o'.block.signature == b.signature + joined'(SignatureOf);
  }

  lemma {:induction false} OpenIsHistory(ids: Ids, es: seq<WireEvent>, index: int)
    ensures OpenAgrees(ids, es, index)
  {
    if es != [] {
      OpenIsHistory(ids, Front(es), index);
      var acc, e := Scan(ids, Front(es)).0, Last(es);
      if !Touches(e, index) {
        OthersKeep(acc, e, index);
        assert forall c :: Joined(es, index, c) == Joined(Front(es), index, c);
      } else if e.BlockStart? {
        IdsAreCalls(ids, Front(es));
        StartHolds(acc, index, e.block, e.minted, StartId(ids, es), c => Joined(es, index, c));
      } else if e.BlockDelta? && index in acc.open {
        var start := Opening(es, index).value;
        DeltaHolds(acc, index, e.delta, Last(start).block, StartId(ids, start),
                   c => Joined(Front(es), index, c), c => Joined(es, index, c));
      }
    }
  }

  lemma StepCloses(ids: Ids, es: seq<WireEvent>)
    requires es != [] && Scan(ids, Front(es)).0.assistant == Closed(Front(es))
    ensures Scan(ids, es).0.assistant == Closed(es)
  {
    if Last(es).BlockStop? {
      OpenIsHistory(ids, Front(es), Last(es).index);
      var acc, index := Scan(ids, Front(es)).0, Last(es).index;
      if index in acc.open {
        StopCloses(acc, index, BlockNow(Front(es), index), StartId(ids, Opening(Front(es), index).value),
                   Last(Opening(Front(es), index).value).block, c => Joined(Front(es), index, c));
      }
    }
  }

  lemma StopCloses(acc: Acc, index: int, whole: Block, id: Option<string>, b: Block, joined: Channel -> string)
    requires index in acc.open && Holds(acc.open[index], b, id, joined)
    requires var closed := b.(text := (if b.kind.Text? then "" else b.text) + joined(TextOf),
                              thinking := b.thinking + joined(ThinkingOf),
                              signature := b.signature + joined(SignatureOf));
             whole
             == if id.Some? then closed.(input := if joined(JsonOf) == "" then "{}" else joined(JsonOf)) else closed
    ensures OnBlockStop(acc, index).0.assistant == acc.assistant + [whole]
  {
  }

  lemma StepSays(ids: Ids, es: seq<WireEvent>)
    requires es != []
    ensures OnEvent(Scan(ids, Front(es)).0, Last(es)).1 == Says(ids, es)
  {
    var acc, e := Scan(ids, Front(es)).0, Last(es);
    match e
    case BlockStart(_, _, _) => IdsAreCalls(ids, Front(es));
    case BlockDelta(index, delta) =>
      OpenIsHistory(ids, Front(es), index);
    case BlockStop(index) =>
      OpenIsHistory(ids, Front(es), index);
    case _ =>
  }

  lemma StepCounts(ids: Ids, es: seq<WireEvent>)
    requires es != [] && Scan(ids, Front(es)).0.usage == Counted(Front(es))
    ensures Scan(ids, es).0.usage == Counted(es)
  {
  }

  lemma EventStates(acc: Acc, e: WireEvent)
    ensures var acc' := OnEvent(acc, e).0;
            && acc'.stopReason == (if e.MessageDelta? then Either(e.stopReason, acc.stopReason) else acc.stopReason)
            && acc'.stopSequence
               == (if e.MessageDelta? then Either(e.stopSequence, acc.stopSequence) else acc.stopSequence)
            && acc'.stopDetails == (if e.MessageDelta? then Either(e.stopDetails, acc.stopDetails) else acc.stopDetails)
            && acc'.responseId == (if e.MessageStart? then e.id else acc.responseId)
  {
  }

  lemma StepStates(ids: Ids, es: seq<WireEvent>)
    requires es != [] && StopAgrees(Scan(ids, Front(es)).0, Front(es))
    ensures StopAgrees(Scan(ids, es).0, es)
  {
    EventStates(Scan(ids, Front(es)).0, Last(es));
  }

  ghost predicate StopAgrees(acc: Acc, es: seq<WireEvent>) {
    && acc.stopReason == Stated(es, ReasonOf)
    && acc.stopSequence == Stated(es, SequenceOf)
    && acc.stopDetails == Stated(es, DetailsOf)
    && acc.responseId == Named(es)
  }

  /**
   Over every stream of wire events, whatever else happens on the shared id
   map: what was accumulated and everything said is what the history of events
   says, block by block and channel by channel.
   */
  lemma {:induction false} SegmentIsHistory(ids: Ids, es: seq<WireEvent>)
    ensures Scan(ids, es).0.assistant == Closed(es)
    ensures Scan(ids, es).1 == Said(ids, es)
    ensures Scan(ids, es).0.usage == Counted(es)
    ensures StopAgrees(Scan(ids, es).0, es)
  {
    if es != [] {
      SegmentIsHistory(ids, Front(es));
      StepCloses(ids, es);
      StepSays(ids, es);
      StepCounts(ids, es);
      StepStates(ids, es);
    }
  }

  // ---------------------------------------------------------------- one block from start to stop

  /** The fragments of one channel that arrive for the index. */
  function Fragments(es: seq<WireEvent>, index: int, channel: Channel): string {
    if es == [] then ""
    else Fragments(Front(es), index, channel)
         + (if Last(es).BlockDelta? && Last(es).index == index then Carried(Last(es).delta, channel) else "")
  }

  /** Nothing starts or stops a block under the index. */
  predicate NoBoundary(es: seq<WireEvent>, index: int) {
    forall i :: 0 <= i < |es| ==> Touches(es[i], index) ==> es[i].BlockDelta?
  }

  lemma {:induction false} JoinedSince(start: seq<WireEvent>, parts: seq<WireEvent>, index: int, channel: Channel)
    requires start != [] && Last(start).BlockStart? && Last(start).index == index && NoBoundary(parts, index)
    ensures Opening(start + parts, index) == Some(start)
    ensures Joined(start + parts, index, channel) == Fragments(parts, index, channel)
  {
    if parts == [] {
      assert start + parts == start;
    } else {
      assert Front(start + parts) == start + Front(parts) && Last(start + parts) == Last(parts);
      assert Touches(parts[|parts| - 1], index) ==> Last(parts).BlockDelta?;
      JoinedSince(start, Front(parts), index, channel);
    }
  }

  /** What a block that starts as `b` and gets these events before its stop is closed as. */
  function Whole(b: Block, parts: seq<WireEvent>, index: int): Block {
    var args := Fragments(parts, index, JsonOf);
    Block(b.kind,
          (if b.kind.Text? then "" else b.text) + Fragments(parts, index, TextOf),
          b.thinking + Fragments(parts, index, ThinkingOf),
          b.signature + Fragments(parts, index, SignatureOf),
          if !b.kind.ToolUse? then b.input else if args == "" then "{}" else args)
  }

  /**
   A block is closed with all its fragments in order, however the events of
   other blocks and other streams come between; a tool call ends with its
   joined arguments under the id it was announced with.
   */
  lemma BlockCarriesItsFragments(ids: Ids, start: seq<WireEvent>, parts: seq<WireEvent>, index: int)
    requires start != [] && Last(start).BlockStart? && Last(start).index == index && NoBoundary(parts, index)
    ensures var b, before := Last(start).block, Scan(ids, start + parts);
            var (acc, out) := Scan(ids, start + parts + [BlockStop(index)]);
            && acc.assistant == before.0.assistant + [Whole(b, parts, index)]
            && out == before.1
                      + (if b.kind.ToolUse?
                         then [ToolCallEnd(CallId(ids, start), Whole(b, parts, index).input)] else [])
            && (b.kind.ToolUse? ==>
                  Scan(ids, start).1 == Scan(ids, Front(start)).1 + [ToolCallStart(CallId(ids, start), b.kind.name)])
  {
    var es := start + parts + [BlockStop(index)];
    assert Front(es) == start + parts;
    SegmentIsHistory(ids, es);
    SegmentIsHistory(ids, start + parts);
    SegmentIsHistory(ids, start);
    SegmentIsHistory(ids, Front(start));
    forall c ensures Joined(start + parts, index, c) == Fragments(parts, index, c) {
      JoinedSince(start, parts, index, c);
    }
    JoinedSince(start, parts, index, TextOf);
  }

  // ---------------------------------------------------------------- what is retained

  /** The retained blocks are all thinking and redacted thinking blocks, in their order, and no others. */
  lemma {:induction false} RetainedExactly(a: seq<Block>, b: Block, c: seq<Block>)
    ensures RetainedOf(a + [b] + c)
            == RetainedOf(a) + (if b.kind == Thinking || b.kind == RedactedThinking then [b] else []) + RetainedOf(c)
  {
    if c == [] {
      assert a + [b] + c == a + [b] && Front(a + [b]) == a;
    } else {
      assert Front(a + [b] + c) == a + [b] + Front(c) && Last(a + [b] + c) == Last(c);
      RetainedExactly(a, b, Front(c));
    }
  }

  /** The known response ids are all ids that were reported, in the order of the requests. */
  lemma {:induction false} KnownExactly(a: seq<Option<string>>, b: Option<string>, c: seq<Option<string>>)
    ensures Known(a + [b] + c) == Known(a) + (if b.Some? then [b.value] else []) + Known(c)
  {
    if c == [] {
      assert a + [b] + c == a + [b] && Front(a + [b]) == a;
    } else {
      assert Front(a + [b] + c) == a + [b] + Front(c) && Last(a + [b] + c) == Last(c);
      KnownExactly(a, b, Front(c));
    }
  }

  // ---------------------------------------------------------------- a whole segment

  /** The finish speaks for the turn: its usage, its response, and every block and id collected before it. */
  ghost predicate FinishTells(finish: ChatEvent, es: seq<WireEvent>, prior: Prior) {
    && finish.Finish?
    && MapStopReason(Stated(es, ReasonOf), Stated(es, DetailsOf)) == Finishes(finish.reason)
    && finish.usage == (if prior.usage.Some? then Sum(prior.usage.value, Counted(es)) else Counted(es))
    && finish.meta.responseId == Named(es)
    && finish.meta.stopSequence == Stated(es, SequenceOf)
    && (finish.meta.wireRequests.Some? <==> prior.responseIds != [])
    && (prior.responseIds != [] ==>
          && finish.meta.wireRequests.value.count == |prior.responseIds| + 1
          && finish.meta.wireRequests.value.responseIds == Known(prior.responseIds + [Named(es)]))
    && (finish.meta.retainedParts.None? <==> prior.carryRetained == [] && RetainedOf(Closed(es)) == [])
    && (finish.meta.retainedParts.Some? ==>
          finish.meta.retainedParts.value == prior.carryRetained + RetainedOf(Closed(es)))
  }

  /**
   One segment in terms of its events before the first message_stop: it is
   truncated exactly when there is none, paused exactly when the last stop
   reason given is pause_turn, and otherwise adds its finish to what it said.
   */
  lemma SegmentTells(ids: Ids, stream: seq<WireEvent>, prior: Prior)
    ensures var m, es := MapSegment(ids, stream, prior), stream[..StopAt(stream)];
            && m.acc.assistant == Closed(es)
            && m.acc.usage == Counted(es)
            && m.acc.responseId == Named(es)
            && (m.verdict.Truncated? <==> forall i :: 0 <= i < |stream| ==> !stream[i].MessageStop?)
            && (m.verdict.Paused? ==> Stated(es, ReasonOf) == Some("pause_turn"))
            && (m.verdict.Finished? ==> Stated(es, ReasonOf) != Some("pause_turn"))
            && (!m.verdict.Finished? ==> m.out == Said(ids, es))
            && (m.verdict.Finished? ==>
                  m.out != [] && Front(m.out) == Said(ids, es) && FinishTells(Last(m.out), es, prior))
  {
    SegmentIsHistory(ids, stream[..StopAt(stream)]);
  }
}

/**
 The stream mapper of the AI SDK bridge: provider stream parts in, chat
 events out, with the turn's reasoning accumulated per part id and retained
 for the finish event. One id map is shared by all streams and requests of an
 adapter, so other calls on it come between a stream's parts.
 */
module BridgeMapper {
  import opened Prelude
  import opened IdMaps

  /**
   `minted` is the canonical id the minter would produce for a new wire id.
   `Ignored` stands for the part types that produce and keep nothing.
   `Elsewhere` is no part of this stream but a call of another stream or
   request on the shared id map while this one waits for its next part.
   */
  datatype Part =
    | TextDelta(text: string)
    | ReasoningStart(id: string)
    | ReasoningDelta(id: string, text: string)
    | ReasoningEnd(id: string)
    | ToolInputStart(id: string, name: string, providerExecuted: bool, minted: string)
    | ToolInputDelta(id: string, text: string, minted: string)
    | ToolCall(id: string, name: string, input: string, providerExecuted: bool, minted: string)
    | ToolResult(id: string, preliminary: bool)
    | ApprovalRequest
    | Block(content: string)
    | Finish(failed: bool)
    | Broken
    | Ignored
    | Elsewhere(call: Call)

  /** `id` names the reasoning part a retained text came from; the program keeps the text alone. */
  datatype Kept = Reasoning(id: string, text: string) | Other(part: Part)

  datatype Chat =
    | Text(text: string)
    | Thought(text: string)
    | CallStart(id: string, name: string)
    | CallDelta(id: string, text: string)
    | CallEnd(id: string, input: string)
    | UsageReport
    | Finished(retained: seq<Kept>)
    | Failure
  {
    predicate Terminal() {
      Finished? || Failure?
    }
  }

  datatype Acc = Acc(id: string, text: string)

  /** `open` lists the accumulators in insertion order, as a JavaScript Map keeps them. */
  datatype State = State(
    terminal: bool,
    started: set<string>,
    executed: set<string>,
    open: seq<Acc>,
    retained: seq<Kept>,
    ids: Ids)

  /** A new mapper on the adapter's id map as it is by then. */
  function Initial(ids: Ids): State {
    State(false, {}, {}, [], [], ids)
  }

  /** The policy for tools the provider executes itself. */
  datatype Policy = Allow | Deny

  // ---------------------------------------------------------------- the accumulators

  function Find(open: seq<Acc>, id: string): (i: int)
    ensures -1 <= i < |open|
    ensures i >= 0 ==> open[i].id == id
    ensures i < 0 ==> forall k :: 0 <= k < |open| ==> open[k].id != id
  {
    if open == [] then -1
    else if Last(open).id == id then |open| - 1
    else Find(Front(open), id)
  }

  function TextOf(open: seq<Acc>, id: string): string {
    var i := Find(open, id);
    if i < 0 then "" else open[i].text
  }

  /** Map.set: an existing entry keeps its place. */
  function Put(open: seq<Acc>, id: string, text: string): seq<Acc> {
    var i := Find(open, id);
    if i < 0 then open + [Acc(id, text)] else open[i := Acc(id, text)]
  }

  function Remove(open: seq<Acc>, id: string): seq<Acc> {
    var i := Find(open, id);
    if i < 0 then open else open[..i] + open[i + 1..]
  }

  function Flush(open: seq<Acc>): seq<Kept> {
    if open == [] then [] else Flush(Front(open)) + [Reasoning(Last(open).id, Last(open).text)]
  }

  // ---------------------------------------------------------------- one part

  function Canonical(st: State, wire: string, minted: string): (State, string) {
    var (ids, id) := CanonicalFor(st.ids, wire, minted);
    (st.(ids := ids), id)
  }

  function MapFinish(st: State, failed: bool): (State, seq<Chat>) {
    if failed then (st.(terminal := true), [UsageReport, Failure])
    else
      var retained := st.retained + Flush(st.open);
      (st.(terminal := true, retained := retained, open := []), [Finished(retained)])
  }

  function MapCall(st: State, id: string, name: string, input: string, minted: string): (State, seq<Chat>) {
    var (st1, canonical) := Canonical(st, id, minted);
    (st1, (if id in st.started then [] else [CallStart(canonical, name)]) + [CallEnd(canonical, input)])
  }

  function MapPart(policy: Policy, st: State, part: Part): (State, seq<Chat>) {
    match part
    case TextDelta(text) => (st, [Text(text)])
    case ReasoningStart(id) => (st.(open := Put(st.open, id, "")), [])
    case ReasoningDelta(id, text) => (st.(open := Put(st.open, id, TextOf(st.open, id) + text)), [Thought(text)])
    case ReasoningEnd(id) =>
      if Find(st.open, id) < 0 then (st, [])
      else (st.(retained := st.retained + [Reasoning(id, TextOf(st.open, id))], open := Remove(st.open, id)), [])
    case ToolInputStart(id, name, providerExecuted, minted) =>
      if providerExecuted then
        if policy.Deny? then (st.(terminal := true), [Failure]) else (st.(executed := st.executed + {id}), [])
      else
        var (st1, canonical) := Canonical(st, id, minted);
        (st1.(started := st1.started + {id}), [CallStart(canonical, name)])
    case ToolInputDelta(id, text, minted) =>
      if id in st.executed then (st, [])
      else
        var (st1, canonical) := Canonical(st, id, minted);
        (st1, [CallDelta(canonical, text)])
    case ToolCall(id, name, input, providerExecuted, minted) =>
      if providerExecuted then
        if policy.Deny? then (st.(terminal := true), [Failure])
        else (st.(executed := st.executed + {id}, retained := st.retained + [Other(part)]), [])
      else MapCall(st, id, name, input, minted)
    case ToolResult(_, preliminary) =>
      if preliminary then (st, []) else (st.(retained := st.retained + [Other(part)]), [])
    case ApprovalRequest => (st.(terminal := true), [Failure])
    case Block(_) => (st.(retained := st.retained + [Other(part)]), [])
    case Finish(failed) => MapFinish(st, failed)
    case Broken => (st.(terminal := true), [Failure])
    case Ignored => (st, [])
    case Elsewhere(call) => (st.(ids := Step(Bridge, st.ids, call)), [])
  }

  /** The state after the parts, and everything emitted on the way. */
  function MapAll(policy: Policy, ids: Ids, parts: seq<Part>): (State, seq<Chat>) {
    if parts == [] then (Initial(ids), [])
    else
      var (st, out) := MapAll(policy, ids, Front(parts));
      var (st', more) := MapPart(policy, st, Last(parts));
      (st', out + more)
  }

  // ---------------------------------------------------------------- the mapper object

  class StreamMapper {
    const policy: Policy
    const ids: IdMap
    var terminal: bool
    var startedToolWireIds: set<string>
    var providerExecutedWireIds: set<string>
    var reasoning: seq<Acc>
    var retained: seq<Kept>

    ghost function View(): State
      reads this, ids
    {
      State(terminal, startedToolWireIds, providerExecutedWireIds, reasoning, retained, ids.View())
    }

    constructor (policy: Policy, ids: IdMap)
      ensures View() == Initial(ids.View()) && this.policy == policy && this.ids == ids
    {
      this.policy, this.ids := policy, ids;
      terminal, startedToolWireIds, providerExecutedWireIds := false, {}, {};
      reasoning, retained := [], [];
    }

    method OnFinish(failed: bool) returns (events: seq<Chat>)
      modifies this
      ensures (View(), events) == MapFinish(old(View()), failed)
    {
      terminal := true;
      if failed {
        return [UsageReport, Failure];
      }
      for i := 0 to |reasoning|
        invariant View() == old(View()).(terminal := true, retained := retained)
        invariant i <= |reasoning| && retained == old(retained) + Flush(reasoning[..i])
      {
        assert Front(reasoning[..i + 1]) == reasoning[..i];
        retained := retained + [Reasoning(reasoning[i].id, reasoning[i].text)];
      }
      assert reasoning[..|reasoning|] == reasoning;
      reasoning := [];
      events := [Finished(retained)];
    }

    method Map(part: Part) returns (events: seq<Chat>)
      requires !part.Elsewhere?
      modifies this, ids
      ensures (View(), events) == MapPart(policy, old(View()), part)
    {
      match part
      case TextDelta(text) =>
        return [Text(text)];
      case ReasoningStart(id) =>
        reasoning := Put(reasoning, id, "");
        return [];
      case ReasoningDelta(id, text) =>
        reasoning := Put(reasoning, id, TextOf(reasoning, id) + text);
        return [Thought(text)];
      case ReasoningEnd(id) =>
        if Find(reasoning, id) >= 0 {
          retained := retained + [Reasoning(id, TextOf(reasoning, id))];
          reasoning := Remove(reasoning, id);
        }
        return [];
      case ToolInputStart(id, name, providerExecuted, minted) =>
        if providerExecuted {
          events := OnExecuted(id);
        } else {
          startedToolWireIds := startedToolWireIds + {id};
          var canonical := ids.Canonical(id, minted);
          return [CallStart(canonical, name)];
        }
      case ToolInputDelta(id, text, minted) =>
        if id in providerExecutedWireIds {
          return [];
        }
        var canonical := ids.Canonical(id, minted);
        return [CallDelta(canonical, text)];
      case ToolCall(id, name, input, providerExecuted, minted) =>
        if providerExecuted {
          events := OnExecuted(id);
          if policy.Allow? {
            retained := retained + [Other(part)];
          }
        } else {
          var synthesize := id !in startedToolWireIds;
          var canonical := ids.Canonical(id, minted);
          events := (if synthesize then [CallStart(canonical, name)] else []) + [CallEnd(canonical, input)];
        }
      case ToolResult(_, preliminary) =>
        if !preliminary {
          retained := retained + [Other(part)];
        }
        return [];
      case ApprovalRequest =>
        terminal := true;
        return [Failure];
      case Block(_) =>
        retained := retained + [Other(part)];
        return [];
      case Finish(failed) =>
        events := OnFinish(failed);
      case Broken =>
        terminal := true;
        return [Failure];
      case Ignored =>
        return [];
    }

    /** A provider-executed tool: refused or noted, by policy. */
    method OnExecuted(id: string) returns (events: seq<Chat>)
      modifies this`terminal, this`providerExecutedWireIds
      ensures policy.Deny? ==> View() == old(View()).(terminal := true) && events == [Failure]
      ensures policy.Allow? ==> View() == old(View()).(executed := old(View()).executed + {id}) && events == []
    {
      if policy.Deny? {
        terminal := true;
        return [Failure];
      }
      providerExecutedWireIds := providerExecutedWireIds + {id};
      return [];
    }
  }

  // ---------------------------------------------------------------- one terminal event

  ghost predicate NoTerminal(events: seq<Chat>) {
    forall i :: 0 <= i < |events| ==> !events[i].Terminal()
  }

  /** Exactly one terminal event, and it is the last. */
  ghost predicate Ended(events: seq<Chat>) {
    events != [] && Last(events).Terminal() && NoTerminal(Front(events))
  }

  /** A part that ends the turn produces one terminal event, last; any other part produces none. */
  lemma PartTerminal(policy: Policy, st: State, part: Part)
    requires !st.terminal
    ensures var (st', events) := MapPart(policy, st, part);
            if st'.terminal then Ended(events) else NoTerminal(events)
  {
    if part.ToolCall? && !part.providerExecuted {
      var (st', events) := MapCall(st, part.id, part.name, part.input, part.minted);
      assert !st'.terminal && NoTerminal(events);
    }
  }

  lemma EndedAfter(events: seq<Chat>, more: seq<Chat>)
    requires NoTerminal(events) && Ended(more)
    ensures Ended(events + more)
  {
    assert Front(events + more) == events + Front(more);
  }

  lemma MapNext(policy: Policy, ids: Ids, parts: seq<Part>, n: nat)
    requires n < |parts|
    ensures var (st, out) := MapAll(policy, ids, parts[..n]);
            var (st', more) := MapPart(policy, st, parts[n]);
            MapAll(policy, ids, parts[..n + 1]) == (st', out + more)
  {
    assert Front(parts[..n + 1]) == parts[..n];
  }

  /** A call of another stream or request on the shared map. */
  method OtherCall(ids: IdMap, call: Call)
    modifies ids
    ensures ids.View() == Step(ids.dialect, old(ids.View()), call)
  {
    match call
    case ToCanonical(wire, minted) => var _ := ids.Canonical(wire, minted);
    case ToWire(canonical) => var _ := ids.Wire(canonical);
  }

  /**
   Runs a stream to its end: `parts` are what the transport yields before it
   drains or throws (none at all when the call itself throws), with the other
   calls on the shared id map in between, and `aborted` whether cancellation
   was requested by then. Nothing follows a terminal event, and there is one
   unless aborted.
   */
  method Stream(policy: Policy, ids: IdMap, parts: seq<Part>, aborted: bool) returns (events: seq<Chat>, used: nat)
    requires ids.dialect == Bridge
    modifies ids
    ensures used <= |parts| && ids.View() == MapAll(policy, old(ids.View()), parts[..used]).0.ids
    ensures if aborted then Ended(events) || NoTerminal(events) else Ended(events)
    ensures used < |parts| ==> Ended(events)
    ensures var mapped := MapAll(policy, old(ids.View()), parts[..used]);
            events == mapped.1 || (used == |parts| && !aborted && !mapped.0.terminal && events == mapped.1 + [Failure])
  {
    var mapper := new StreamMapper(policy, ids);
    events, used := [], 0;
    while used < |parts|
      invariant used <= |parts| && mapper.policy == policy && mapper.ids == ids && fresh(mapper)
      invariant (mapper.View(), events) == MapAll(policy, old(ids.View()), parts[..used])
      invariant !mapper.terminal && NoTerminal(events)
    {
      PartTerminal(policy, mapper.View(), parts[used]);
      MapNext(policy, old(ids.View()), parts, used);
      var more := [];
      if parts[used].Elsewhere? {
        OtherCall(ids, parts[used].call);
      } else {
        more := mapper.Map(parts[used]);
      }
      used := used + 1;
      if mapper.terminal {
        EndedAfter(events, more);
        events := events + more;
        return;
      }
      events := events + more;
    }
    if !aborted {
      // The transport threw, or drained without a finish part.
      EndedAfter(events, [Failure]);
      events := events + [Failure];
    }
  }

  // ---------------------------------------------------------------- tool calls are bracketed

  ghost predicate HasStart(out: seq<Chat>, id: string) {
    exists i :: 0 <= i < |out| && out[i].CallStart? && out[i].id == id
  }

  /** Every wire id marked as started has its canonical id announced. */
  ghost predicate Announced(st: State, out: seq<Chat>) {
    forall w :: w in st.started ==> w in st.ids.toCanonical && HasStart(out, st.ids.toCanonical[w])
  }

  ghost predicate Bracketed(out: seq<Chat>) {
    forall j :: 0 <= j < |out| && out[j].CallEnd? ==> HasStart(out[..j], out[j].id)
  }

  lemma StartStays(out: seq<Chat>, more: seq<Chat>, id: string)
    requires HasStart(out, id)
    ensures HasStart(out + more, id)
  {
    var i :| 0 <= i < |out| && out[i].CallStart? && out[i].id == id;
    assert (out + more)[i] == out[i];
  }

  /** The call gives a wire id that this stream has started a new canonical id: its own spelling. */
  predicate Disturbs(st: State, part: Part) {
    && part.Elsewhere? && part.call.ToWire?
    && part.call.canonical !in st.ids.toWire
    && DerivedWire(Bridge, part.call.canonical) in st.started
  }

  ghost predicate Undisturbed(policy: Policy, ids: Ids, parts: seq<Part>) {
    parts == []
    || (&& Undisturbed(policy, ids, Front(parts))
        && !Disturbs(MapAll(policy, ids, Front(parts)).0, Last(parts)))
  }

  /** A call that enters a fresh id never disturbs. */
  lemma FreshNeverDisturbs(st: State, out: seq<Chat>, call: Call)
    requires Announced(st, out) && Fresh(Bridge, st.ids, call)
    ensures !Disturbs(st, Elsewhere(call))
  {
  }

  lemma PartAnnounces(policy: Policy, st: State, part: Part, out: seq<Chat>)
    requires Announced(st, out) && !Disturbs(st, part)
    ensures Announced(MapPart(policy, st, part).0, out + MapPart(policy, st, part).1)
  {
    var (st', more) := MapPart(policy, st, part);
    forall w | w in st'.started ensures w in st'.ids.toCanonical && HasStart(out + more, st'.ids.toCanonical[w]) {
      if w in st.started {
        StartStays(out, more, st.ids.toCanonical[w]);
      } else {
        assert (out + more)[|out|] == CallStart(st'.ids.toCanonical[w], part.name);
      }
    }
  }

  lemma PartBrackets(policy: Policy, st: State, part: Part, out: seq<Chat>)
    requires Announced(st, out) && Bracketed(out)
    ensures Bracketed(out + MapPart(policy, st, part).1)
  {
    var (st', more) := MapPart(policy, st, part);
    var all := out + more;
    forall j | 0 <= j < |all| && all[j].CallEnd? ensures HasStart(all[..j], all[j].id) {
      if j < |out| {
        assert all[..j] == out[..j];
      } else if part.id in st.started {
        assert all[..j] == out;
      } else {
        assert all[..j] == out + [more[0]];
        assert all[..j][|out|] == more[0];
      }
    }
  }

  /**
   Every tool-call end follows a start with its id, from any state of the
   shared id map and with any other calls on it between the parts, as long as
   none of them renames a wire id that this stream has started.
   */
  lemma {:induction false} CallEndsAreBracketed(policy: Policy, ids: Ids, parts: seq<Part>)
    requires Undisturbed(policy, ids, parts)
    ensures Announced(MapAll(policy, ids, parts).0, MapAll(policy, ids, parts).1)
    ensures Bracketed(MapAll(policy, ids, parts).1)
  {
    if parts != [] {
      CallEndsAreBracketed(policy, ids, Front(parts));
      var (st, out) := MapAll(policy, ids, Front(parts));
      PartAnnounces(policy, st, Last(parts), out);
      PartBrackets(policy, st, Last(parts), out);
    }
  }

  /**
   After a disturbing call, the tool call of that wire id ends under the new
   canonical id, which is bracketed only if that very id happens to have been
   started.
   */
  lemma DisturbedEndExactly(
      policy: Policy, ids: Ids, parts: seq<Part>, w: string, name: string, input: string, minted: string)
    requires Bracketed(MapAll(policy, ids, parts).1)
    requires Disturbs(MapAll(policy, ids, parts).0, Elsewhere(ToWire(w)))
    ensures var more := parts + [Elsewhere(ToWire(w))] + [ToolCall(w, name, input, false, minted)];
            Bracketed(MapAll(policy, ids, more).1) <==> HasStart(MapAll(policy, ids, parts).1, w)
  {
    DisturbedEnd(policy, ids, parts, w, name, input, minted);
    EndBrackets(MapAll(policy, ids, parts).1, CallEnd(w, input));
  }

  lemma DisturbedEnd(policy: Policy, ids: Ids, parts: seq<Part>, w: string, name: string, input: string, minted: string)
    requires Disturbs(MapAll(policy, ids, parts).0, Elsewhere(ToWire(w)))
    ensures MapAll(policy, ids, parts + [Elsewhere(ToWire(w))] + [ToolCall(w, name, input, false, minted)]).1
            == MapAll(policy, ids, parts).1 + [CallEnd(w, input)]
  {
    var one, call := parts + [Elsewhere(ToWire(w))], ToolCall(w, name, input, false, minted);
    assert Front(one) == parts && Front(one + [call]) == one;
    var (st, out) := MapAll(policy, ids, parts);
    var (st', out') := MapAll(policy, ids, one);
    assert out' == out && st'.started == st.started && st'.ids.toCanonical[w] == w;
  }

  lemma EndBrackets(out: seq<Chat>, e: Chat)
    requires e.CallEnd?
    ensures Bracketed(out + [e]) <==> Bracketed(out) && HasStart(out, e.id)
  {
    var all := out + [e];
    assert all[..|out|] == out && all[|out|] == e;
    assert forall j :: 0 <= j < |out| ==> all[..j] == out[..j] && all[j] == out[j];
  }

  /** Some call between the parts has given the started wire id a new canonical id. */
  predicate Renamed(policy: Policy, ids: Ids, parts: seq<Part>, w: string) {
    && parts != []
    && (|| Renamed(policy, ids, Front(parts), w)
        || (Disturbs(MapAll(policy, ids, Front(parts)).0, Last(parts)) && Last(parts).call.canonical == w))
  }

  /** What a started wire id maps to: its own spelling once renamed, else an id that was announced. */
  ghost predicate Named(st: State, out: seq<Chat>, w: string, renamed: bool) {
    && (renamed ==> w in st.started && w in st.ids.toWire)
    && (w in st.started ==>
          && w in st.ids.toCanonical
          && if renamed then st.ids.toCanonical[w] == w else HasStart(out, st.ids.toCanonical[w]))
  }

  lemma PartNames(policy: Policy, st: State, part: Part, out: seq<Chat>, w: string, renamed: bool)
    requires Named(st, out, w, renamed)
    ensures var (st', more) := MapPart(policy, st, part);
            Named(st', out + more, w, renamed || (Disturbs(st, part) && part.call.canonical == w))
  {
    var (st', more) := MapPart(policy, st, part);
    if w in st'.started && !renamed {
      if w in st.started {
        StartStays(out, more, st.ids.toCanonical[w]);
      } else {
        assert (out + more)[|out|] == CallStart(st'.ids.toCanonical[w], part.name);
      }
    }
  }

  lemma {:induction false} RunNames(policy: Policy, ids: Ids, parts: seq<Part>, w: string)
    ensures Named(MapAll(policy, ids, parts).0, MapAll(policy, ids, parts).1, w, Renamed(policy, ids, parts, w))
  {
    if parts != [] {
      RunNames(policy, ids, Front(parts), w);
      var (st, out) := MapAll(policy, ids, Front(parts));
      PartNames(policy, st, Last(parts), out, w, Renamed(policy, ids, Front(parts), w));
    }
  }

  /** The part is a tool call that ends under another id than the one it was started under. */
  predicate EndsRenamed(policy: Policy, ids: Ids, before: seq<Part>, part: Part) {
    part.ToolCall? && !part.providerExecuted && Renamed(policy, ids, before, part.id)
  }

  lemma PartBracketsExactly(policy: Policy, st: State, part: Part, out: seq<Chat>, renamed: bool)
    requires part.ToolCall? ==> Named(st, out, part.id, renamed)
    ensures Bracketed(out + MapPart(policy, st, part).1)
            <==> Bracketed(out)
                 && (part.ToolCall? && !part.providerExecuted && renamed ==> HasStart(out, part.id))
  {
    if part.ToolCall? && !part.providerExecuted {
      CallBracketsExactly(st, part, out, renamed);
    } else {
      OtherwiseBrackets(out, MapPart(policy, st, part).1);
    }
  }

  lemma OtherwiseBrackets(out: seq<Chat>, more: seq<Chat>)
    requires forall j :: 0 <= j < |more| ==> !more[j].CallEnd?
    ensures Bracketed(out + more) <==> Bracketed(out)
  {
    var all := out + more;
    assert forall j :: 0 <= j < |out| ==> all[..j] == out[..j] && all[j] == out[j];
  }

  lemma CallBracketsExactly(st: State, part: Part, out: seq<Chat>, renamed: bool)
    requires part.ToolCall? && Named(st, out, part.id, renamed)
    ensures Bracketed(out + MapCall(st, part.id, part.name, part.input, part.minted).1)
            <==> Bracketed(out) && (renamed ==> HasStart(out, part.id))
  {
    var more := MapCall(st, part.id, part.name, part.input, part.minted).1;
    if part.id in st.started {
      assert more == [more[0]];
      EndBrackets(out, more[0]);
    } else {
      assert more == [more[0]] + [more[1]] && out + more == out + [more[0]] + [more[1]];
      OtherwiseBrackets(out, [more[0]]);
      EndBrackets(out + [more[0]], more[1]);
      assert (out + [more[0]])[|out|] == more[0];
    }
  }

  /**
   The condition is exact over whole runs, from any state of the shared id map
   and with any other calls on it: every end follows a start with its id if
   and only if each tool call whose wire id was renamed before it finds its
   new id, the wire id's own spelling, started by then.
   */
  lemma {:induction false} BracketedExactly(policy: Policy, ids: Ids, parts: seq<Part>)
    ensures Bracketed(MapAll(policy, ids, parts).1)
            <==> forall i :: 0 <= i < |parts| && EndsRenamed(policy, ids, parts[..i], parts[i]) ==>
                   HasStart(MapAll(policy, ids, parts[..i]).1, parts[i].id)
  {
    if parts != [] {
      BracketedExactly(policy, ids, Front(parts));
      var (st, out) := MapAll(policy, ids, Front(parts));
      var part := Last(parts);
      if part.ToolCall? {
        RunNames(policy, ids, Front(parts), part.id);
      }
      PartBracketsExactly(policy, st, part, out, part.ToolCall? && Renamed(policy, ids, Front(parts), part.id));
      assert forall i :: 0 <= i < |parts| - 1 ==> Front(parts)[i] == parts[i] && Front(parts)[..i] == parts[..i];
      assert parts[..|parts| - 1] == Front(parts);
    }
  }

  /** Another request sends history that spells this stream's wire id as a canonical id. */
  lemma SharedMapCanUnbracket(policy: Policy)
    ensures var parts := [ToolInputStart("w", "t", false, "c"), Elsewhere(ToWire("w")),
                          ToolCall("w", "t", "", false, "d")];
            && MapAll(policy, NoIds, parts).1 == [CallStart("c", "t"), CallEnd("w", "")]
            && !Bracketed(MapAll(policy, NoIds, parts).1)
  {
    var start, call := ToolInputStart("w", "t", false, "c"), ToolCall("w", "t", "", false, "d");
    var parts := [start, Elsewhere(ToWire("w")), call];
    assert Front([start]) == [];
    var st := MapAll(policy, NoIds, [start]).0;
    assert st.ids.toCanonical["w"] == "c" && "w" !in st.ids.toWire && "w" in st.started;
    assert Disturbs(st, Elsewhere(ToWire("w")));
    assert parts == [start] + [Elsewhere(ToWire("w"))] + [call];
    DisturbedEndExactly(policy, NoIds, [start], "w", "t", "", "d");
    assert Front(parts) == [start] + [Elsewhere(ToWire("w"))];
    assert Front([start] + [Elsewhere(ToWire("w"))]) == [start];
  }

  // ---------------------------------------------------------------- reasoning is retained

  /** Everything the stream said under one reasoning id. */
  function Spoken(parts: seq<Part>, id: string): string {
    if parts == [] then ""
    else Spoken(Front(parts), id)
         + if Last(parts).ReasoningDelta? && Last(parts).id == id then Last(parts).text else ""
  }

  /** What was said under the id since it was last started or ended. */
  function Pending(parts: seq<Part>, id: string): string {
    if parts == [] then ""
    else
      match Last(parts)
      case ReasoningStart(i) => if i == id then "" else Pending(Front(parts), id)
      case ReasoningEnd(i) => if i == id then "" else Pending(Front(parts), id)
      case ReasoningDelta(i, text) => Pending(Front(parts), id) + if i == id then text else ""
      case Finish(failed) => if failed then Pending(Front(parts), id) else ""
      case _ => Pending(Front(parts), id)
  }

  /** How much pending text starts of the id overwrite. */
  function Overwritten(parts: seq<Part>, id: string): nat {
    if parts == [] then 0
    else Overwritten(Front(parts), id)
         + if Last(parts) == ReasoningStart(id) then |Pending(Front(parts), id)| else 0
  }

  /** The retained texts of one id, joined. */
  function Retained(kept: seq<Kept>, id: string): string {
    if kept == [] then ""
    else Retained(Front(kept), id) + if Last(kept).Reasoning? && Last(kept).id == id then Last(kept).text else ""
  }

  ghost predicate DistinctIds(open: seq<Acc>) {
    forall i, j :: 0 <= i < j < |open| ==> open[i].id != open[j].id
  }

  lemma FindUnique(open: seq<Acc>, i: nat)
    requires DistinctIds(open) && i < |open|
    ensures Find(open, open[i].id) == i
  {
  }

  lemma PutText(open: seq<Acc>, id: string, text: string, other: string)
    requires DistinctIds(open)
    ensures DistinctIds(Put(open, id, text))
    ensures TextOf(Put(open, id, text), other) == if other == id then text else TextOf(open, other)
  {
    var open', i := Put(open, id, text), Find(open, id);
    var k := if i < 0 then |open| else i;
    FindUnique(open', k);
    var j := Find(open, other);
    if other != id && j >= 0 {
      assert open'[j] == open[j];
      FindUnique(open', j);
    }
  }

  lemma RemoveText(open: seq<Acc>, id: string, other: string)
    requires DistinctIds(open)
    ensures DistinctIds(Remove(open, id))
    ensures TextOf(Remove(open, id), other) == if other == id then "" else TextOf(open, other)
  {
    var open', i, j := Remove(open, id), Find(open, id), Find(open, other);
    if i >= 0 {
      assert forall k :: 0 <= k < |open'| ==> open'[k] == open[if k < i then k else k + 1];
      if other != id && j >= 0 {
        FindUnique(open', if j < i then j else j - 1);
      }
    }
  }

  lemma RetainedAppend(kept: seq<Kept>, k: Kept, id: string)
    ensures Retained(kept + [k], id) == Retained(kept, id) + if k.Reasoning? && k.id == id then k.text else ""
  {
    assert Front(kept + [k]) == kept;
  }

  lemma LastText(open: seq<Acc>, id: string)
    requires DistinctIds(open) && open != []
    ensures TextOf(open, id) == if Last(open).id == id then Last(open).text else TextOf(Front(open), id)
    ensures Last(open).id == id ==> TextOf(Front(open), id) == ""
  {
  }

  lemma {:induction false} RetainedFlush(kept: seq<Kept>, open: seq<Acc>, id: string)
    requires DistinctIds(open)
    ensures Retained(kept + Flush(open), id) == Retained(kept, id) + TextOf(open, id)
  {
    if open == [] {
      assert kept + Flush(open) == kept;
    } else {
      var before, k := kept + Flush(Front(open)), Reasoning(Last(open).id, Last(open).text);
      RetainedFlush(kept, Front(open), id);
      LastText(open, id);
      assert kept + Flush(open) == before + [k];
      RetainedAppend(before, k, id);
      JoinOneMore(Retained(kept, id), TextOf(Front(open), id), k.text, k.id == id);
    }
  }

  lemma JoinOneMore(kept: string, front: string, text: string, own: bool)
    requires own ==> front == ""
    ensures kept + front + (if own then text else "") == kept + if own then text else front
  {
    if own {
      assert kept + front == kept;
    } else {
      assert kept + front + "" == kept + front;
    }
  }

  /** Nothing but overwritten text is missing from what is retained and what is pending. */
  ghost predicate Balanced(retained: string, pending: string, overwritten: nat, spoken: string) {
    && |retained| + |pending| + overwritten == |spoken|
    && (overwritten == 0 ==> retained + pending == spoken)
  }

  /** The accumulator of the id holds its pending text, and the books balance. */
  ghost predicate Accounted(st: State, parts: seq<Part>, id: string) {
    && DistinctIds(st.open)
    && TextOf(st.open, id) == Pending(parts, id)
    && Balanced(Retained(st.retained, id), Pending(parts, id), Overwritten(parts, id), Spoken(parts, id))
  }

  /** A part that neither starts, ends nor extends a reasoning text of the id, nor finishes the turn. */
  lemma Unaccounted(st: State, st': State, parts: seq<Part>, id: string)
    requires parts != [] && Accounted(st, Front(parts), id)
    requires DistinctIds(st'.open) && TextOf(st'.open, id) == TextOf(st.open, id)
    requires Retained(st'.retained, id) == Retained(st.retained, id)
    requires match Last(parts)
             case ReasoningStart(i) => i != id
             case ReasoningEnd(i) => i != id
             case ReasoningDelta(i, _) => i != id
             case Finish(failed) => failed
             case _ => true
    ensures Accounted(st', parts, id)
  {
    assert Spoken(parts, id) == Spoken(Front(parts), id);
    assert Pending(parts, id) == Pending(Front(parts), id);
    assert Overwritten(parts, id) == Overwritten(Front(parts), id);
  }

  lemma StartAccounts(st: State, st': State, parts: seq<Part>, id: string)
    requires parts != [] && Accounted(st, Front(parts), id) && Last(parts) == ReasoningStart(id)
    requires DistinctIds(st'.open) && TextOf(st'.open, id) == "" && st'.retained == st.retained
    ensures Accounted(st', parts, id)
  {
    assert Spoken(parts, id) == Spoken(Front(parts), id);
    if Pending(Front(parts), id) == "" {
      assert Balanced(Retained(st.retained, id), "", Overwritten(parts, id), Spoken(parts, id));
    }
  }

  lemma DeltaAccounts(st: State, st': State, parts: seq<Part>, id: string, text: string)
    requires parts != [] && Accounted(st, Front(parts), id) && Last(parts) == ReasoningDelta(id, text)
    requires DistinctIds(st'.open) && TextOf(st'.open, id) == TextOf(st.open, id) + text && st'.retained == st.retained
    ensures Accounted(st', parts, id)
  {
    var kept, pending := Retained(st.retained, id), Pending(Front(parts), id);
    assert kept + (pending + text) == (kept + pending) + text;
    assert Overwritten(parts, id) == Overwritten(Front(parts), id);
  }

  /** An end, or a normal finish: the pending text of the id moves to the retained ones. */
  lemma MoveAccounts(st: State, st': State, parts: seq<Part>, id: string)
    requires parts != [] && Accounted(st, Front(parts), id)
    requires Last(parts) == ReasoningEnd(id) || Last(parts) == Finish(false)
    requires DistinctIds(st'.open) && TextOf(st'.open, id) == ""
    requires Retained(st'.retained, id) == Retained(st.retained, id) + TextOf(st.open, id)
    ensures Accounted(st', parts, id)
  {
    assert Spoken(parts, id) == Spoken(Front(parts), id);
    assert Overwritten(parts, id) == Overwritten(Front(parts), id);
    assert Retained(st'.retained, id) + "" == Retained(st'.retained, id);
  }

  lemma EndAccounts(st: State, st': State, parts: seq<Part>, i: string, id: string)
    requires parts != [] && Accounted(st, Front(parts), id) && Last(parts) == ReasoningEnd(i)
    requires st' == if Find(st.open, i) < 0 then st
                    else st.(retained := st.retained + [Reasoning(i, TextOf(st.open, i))], open := Remove(st.open, i))
    ensures Accounted(st', parts, id)
  {
    assert Retained(st.retained, id) + "" == Retained(st.retained, id);
    if Find(st.open, i) >= 0 {
      RemoveText(st.open, i, id);
      RetainedAppend(st.retained, Reasoning(i, TextOf(st.open, i)), id);
    }
    EndMoves(st, st', parts, i, id);
  }

  /** The text of the ended id goes from pending to retained; every other id keeps both. */
  lemma EndMoves(st: State, st': State, parts: seq<Part>, i: string, id: string)
    requires parts != [] && Accounted(st, Front(parts), id) && Last(parts) == ReasoningEnd(i)
    requires DistinctIds(st'.open) && TextOf(st'.open, id) == if i == id then "" else TextOf(st.open, id)
    requires Retained(st'.retained, id) == Retained(st.retained, id) + if i == id then TextOf(st.open, id) else ""
    ensures Accounted(st', parts, id)
  {
    if i == id {
      MoveAccounts(st, st', parts, id);
    } else {
      assert Retained(st'.retained, id) == Retained(st.retained, id);
      Unaccounted(st, st', parts, id);
    }
  }

  lemma PartAccounts(policy: Policy, st: State, parts: seq<Part>, id: string)
    requires parts != [] && Accounted(st, Front(parts), id)
    ensures Accounted(MapPart(policy, st, Last(parts)).0, parts, id)
  {
    var part := Last(parts);
    var st' := MapPart(policy, st, part).0;
    match part
    case ReasoningStart(i) =>
      PutText(st.open, i, "", id);
      if i == id { StartAccounts(st, st', parts, id); } else { Unaccounted(st, st', parts, id); }
    case ReasoningDelta(i, text) =>
      PutText(st.open, i, TextOf(st.open, i) + text, id);
      if i == id { DeltaAccounts(st, st', parts, id, text); } else { Unaccounted(st, st', parts, id); }
    case ReasoningEnd(i) => EndAccounts(st, st', parts, i, id);
    case Finish(failed) =>
      RetainedFlush(st.retained, st.open, id);
      if failed { Unaccounted(st, st', parts, id); } else { MoveAccounts(st, st', parts, id); }
    case _ =>
      RetainedAppend(st.retained, Other(part), id);
      Unaccounted(st, st', parts, id);
  }

  lemma {:induction false} RunAccounts(policy: Policy, ids: Ids, parts: seq<Part>, id: string)
    ensures Accounted(MapAll(policy, ids, parts).0, parts, id)
  {
    if parts != [] {
      RunAccounts(policy, ids, Front(parts), id);
      PartAccounts(policy, MapAll(policy, ids, Front(parts)).0, parts, id);
    }
  }

  /**
   At a normal finish, the retained texts of an id join up to exactly what the
   stream said under it, if and only if no start of that id arrived while text
   was pending under it.
   */
  lemma FinishRetainsReasoning(policy: Policy, ids: Ids, parts: seq<Part>, id: string)
    ensures var (st, out) := MapAll(policy, ids, parts + [Finish(false)]);
            && out != [] && Last(out).Finished?
            && (Retained(Last(out).retained, id) == Spoken(parts, id)
                <==> forall i :: 0 <= i < |parts| && parts[i] == ReasoningStart(id) ==> Pending(parts[..i], id) == "")
  {
    var st := MapAll(policy, ids, parts).0;
    assert Front(parts + [Finish(false)]) == parts;
    RunAccounts(policy, ids, parts, id);
    OverwrittenExactly(parts, id);
    FlushRetains(st, parts, id);
  }

  lemma FlushRetains(st: State, parts: seq<Part>, id: string)
    requires Accounted(st, parts, id)
    ensures Retained(st.retained + Flush(st.open), id) == Spoken(parts, id) <==> Overwritten(parts, id) == 0
  {
    RetainedFlush(st.retained, st.open, id);
  }

  lemma {:induction false} OverwrittenExactly(parts: seq<Part>, id: string)
    ensures Overwritten(parts, id) == 0
            <==> forall i :: 0 <= i < |parts| && parts[i] == ReasoningStart(id) ==> Pending(parts[..i], id) == ""
  {
    if parts != [] {
      OverwrittenExactly(Front(parts), id);
      assert forall i :: 0 <= i < |parts| - 1 ==> Front(parts)[i] == parts[i] && Front(parts)[..i] == parts[..i];
      assert parts[..|parts| - 1] == Front(parts);
    }
  }

  /** A part id started again before its end: what was said first is not retained. */
  lemma RestartLosesReasoning(policy: Policy, ids: Ids)
    ensures var parts := [ReasoningStart("r"), ReasoningDelta("r", "a"), ReasoningStart("r")];
            var out := MapAll(policy, ids, parts + [Finish(false)]).1;
            && Spoken(parts, "r") == "a"
            && out != [] && Last(out).Finished? && Retained(Last(out).retained, "r") != Spoken(parts, "r")
  {
    var parts := [ReasoningStart("r"), ReasoningDelta("r", "a"), ReasoningStart("r")];
    assert Front(parts) == parts[..2] && Front(parts[..2]) == parts[..1] && Front(parts[..1]) == [];
    assert Spoken(parts[..1], "r") == "" && Spoken(parts[..2], "r") == "a";
    assert Pending(parts[..1], "r") == "" && Pending(parts[..2], "r") == "a";
    FinishRetainsReasoning(policy, ids, parts, "r");
    assert parts[2] == ReasoningStart("r") && Pending(parts[..2], "r") != "";
  }
}

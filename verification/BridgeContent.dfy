/**
 What the bridge's mapper says and retains, by the stream parts alone: every
 event of every part, and every retained part in its place, read off the
 history of parts without the mapper's own state.
 */
module BridgeContent {
  import opened Prelude
  import opened IdMaps
  import opened BridgeMapper

  // ---------------------------------------------------------------- reading the history

  /** The stream has announced a client tool call under the wire id. */
  predicate Announces(parts: seq<Part>, id: string) {
    exists i :: 0 <= i < |parts| && parts[i].ToolInputStart? && !parts[i].providerExecuted && parts[i].id == id
  }

  /** The provider executed a tool under the wire id, and may. */
  predicate ProviderRan(policy: Policy, parts: seq<Part>, id: string) {
    policy.Allow?
    && exists i :: 0 <= i < |parts| && RunsAtProvider(parts[i], id)
  }

  predicate RunsAtProvider(part: Part, id: string) {
    (part.ToolInputStart? || part.ToolCall?) && part.providerExecuted && part.id == id
  }

  /** The calls a part makes on the shared id map. */
  function CallsOf(policy: Policy, before: seq<Part>, part: Part): seq<Call> {
    match part
    case ToolInputStart(id, _, providerExecuted, minted) => if providerExecuted then [] else [ToCanonical(id, minted)]
    case ToolInputDelta(id, _, minted) => if ProviderRan(policy, before, id) then [] else [ToCanonical(id, minted)]
    case ToolCall(id, _, _, providerExecuted, minted) => if providerExecuted then [] else [ToCanonical(id, minted)]
    case Elsewhere(call) => [call]
    case _ => []
  }

  function Calls(policy: Policy, parts: seq<Part>): seq<Call> {
    if parts == [] then [] else Calls(policy, Front(parts)) + CallsOf(policy, Front(parts), Last(parts))
  }

  /** The canonical id of a wire id after the parts. */
  function NameOf(policy: Policy, ids: Ids, before: seq<Part>, wire: string, minted: string): string {
    CanonicalFor(Run(Bridge, ids, Calls(policy, before)), wire, minted).1
  }

  /** The reasoning ids that are open, in the order in which they were opened. */
  function OpenIds(parts: seq<Part>): seq<string> {
    if parts == [] then []
    else
      var before := OpenIds(Front(parts));
      match Last(parts)
      case ReasoningStart(id) => if id in before then before else before + [id]
      case ReasoningDelta(id, _) => if id in before then before else before + [id]
      case ReasoningEnd(id) => Without(before, id)
      case Finish(failed) => if failed then before else []
      case _ => before
  }

  function Without(ids: seq<string>, id: string): seq<string> {
    if ids == [] then []
    else if Last(ids) == id then Front(ids)
    else Without(Front(ids), id) + [Last(ids)]
  }

  /** The pending texts of some ids, as they are retained. */
  function Texts(parts: seq<Part>, ids: seq<string>): seq<Kept> {
    if ids == [] then [] else Texts(parts, Front(ids)) + [Reasoning(Last(ids), Pending(parts, Last(ids)))]
  }

  /** What the last part adds to the retained parts. */
  function Keeps(policy: Policy, parts: seq<Part>): seq<Kept>
    requires parts != []
  {
    var before, part := Front(parts), Last(parts);
    match part
    case ReasoningEnd(id) => if id in OpenIds(before) then [Reasoning(id, Pending(before, id))] else []
    case ToolCall(_, _, _, providerExecuted, _) => if providerExecuted && policy.Allow? then [Other(part)] else []
    case ToolResult(_, preliminary) => if preliminary then [] else [Other(part)]
    case Block(_) => [Other(part)]
    case Finish(failed) => if failed then [] else Texts(before, OpenIds(before))
    case _ => []
  }

  function AllKept(policy: Policy, parts: seq<Part>): seq<Kept> {
    if parts == [] then [] else AllKept(policy, Front(parts)) + Keeps(policy, parts)
  }

  /** What the last part makes the mapper say. */
  function Says(policy: Policy, ids: Ids, parts: seq<Part>): seq<Chat>
    requires parts != []
  {
    var before := Front(parts);
    match Last(parts)
    case TextDelta(text) => [Text(text)]
    case ReasoningDelta(_, text) => [Thought(text)]
    case ToolInputStart(id, name, providerExecuted, minted) =>
      if !providerExecuted then [CallStart(NameOf(policy, ids, before, id, minted), name)]
      else if policy.Deny? then [Failure] else []
    case ToolInputDelta(id, text, minted) =>
      if ProviderRan(policy, before, id) then [] else [CallDelta(NameOf(policy, ids, before, id, minted), text)]
    case ToolCall(id, name, input, providerExecuted, minted) =>
      if providerExecuted then (if policy.Deny? then [Failure] else [])
      else
        var canonical := NameOf(policy, ids, before, id, minted);
        if Announces(before, id) then [CallEnd(canonical, input)]
        else [CallStart(canonical, name), CallEnd(canonical, input)]
    case ApprovalRequest => [Failure]
    case Finish(failed) => if failed then [UsageReport, Failure] else [Finished(AllKept(policy, parts))]
    case Broken => [Failure]
    case _ => []
  }

  function Said(policy: Policy, ids: Ids, parts: seq<Part>): seq<Chat> {
    if parts == [] then [] else Said(policy, ids, Front(parts)) + Says(policy, ids, parts)
  }

  // ---------------------------------------------------------------- the mapper's registers agree

  lemma AnnouncesOneMore(parts: seq<Part>, id: string)
    requires parts != []
    ensures Announces(parts, id)
            <==> Announces(Front(parts), id)
                 || (Last(parts).ToolInputStart? && !Last(parts).providerExecuted && Last(parts).id == id)
  {
    if Announces(Front(parts), id) {
      var i :| 0 <= i < |Front(parts)| && Front(parts)[i].ToolInputStart? && !Front(parts)[i].providerExecuted
        && Front(parts)[i].id == id;
      assert parts[i] == Front(parts)[i];
    }
  }

  lemma ProviderRanOneMore(policy: Policy, parts: seq<Part>, id: string)
    requires parts != []
    ensures ProviderRan(policy, parts, id)
            <==> ProviderRan(policy, Front(parts), id) || (policy.Allow? && RunsAtProvider(Last(parts), id))
  {
    if ProviderRan(policy, Front(parts), id) {
      var i :| 0 <= i < |Front(parts)| && RunsAtProvider(Front(parts)[i], id);
      assert parts[i] == Front(parts)[i];
    }
    if policy.Allow? && RunsAtProvider(Last(parts), id) {
      assert RunsAtProvider(parts[|parts| - 1], id);
    }
  }

  /** How one part changes the registers. */
  lemma PartRegisters(policy: Policy, st: State, part: Part, id: string)
    ensures var st' := MapPart(policy, st, part).0;
            && (id in st'.started
                <==> id in st.started || (part.ToolInputStart? && !part.providerExecuted && part.id == id))
            && (id in st'.executed <==> id in st.executed || (policy.Allow? && RunsAtProvider(part, id)))
  {
  }

  ghost predicate RegistersAgree(policy: Policy, st: State, parts: seq<Part>) {
    && (forall id :: id in st.started <==> Announces(parts, id))
    && (forall id :: id in st.executed <==> ProviderRan(policy, parts, id))
  }

  lemma {:induction false} RegistersAreHistory(policy: Policy, ids: Ids, parts: seq<Part>)
    ensures RegistersAgree(policy, MapAll(policy, ids, parts).0, parts)
  {
    if parts != [] {
      RegistersAreHistory(policy, ids, Front(parts));
      var st := MapAll(policy, ids, Front(parts)).0;
      forall id
        ensures id in MapAll(policy, ids, parts).0.started <==> Announces(parts, id)
        ensures id in MapAll(policy, ids, parts).0.executed <==> ProviderRan(policy, parts, id)
      {
        PartRegisters(policy, st, Last(parts), id);
        AnnouncesOneMore(parts, id);
        ProviderRanOneMore(policy, parts, id);
      }
    }
  }

  lemma PartCalls(policy: Policy, st: State, before: seq<Part>, part: Part)
    requires RegistersAgree(policy, st, before)
    ensures var calls := CallsOf(policy, before, part);
            MapPart(policy, st, part).0.ids == if calls == [] then st.ids else Step(Bridge, st.ids, calls[0])
  {
  }

  lemma {:induction false} IdsAreCalls(policy: Policy, ids: Ids, parts: seq<Part>)
    ensures MapAll(policy, ids, parts).0.ids == Run(Bridge, ids, Calls(policy, parts))
  {
    if parts != [] {
      var before, calls := Front(parts), CallsOf(policy, Front(parts), Last(parts));
      IdsAreCalls(policy, ids, before);
      RegistersAreHistory(policy, ids, before);
      PartCalls(policy, MapAll(policy, ids, before).0, before, Last(parts));
      if calls == [] {
        assert Calls(policy, parts) == Calls(policy, before);
      } else {
        assert Front(Calls(policy, parts)) == Calls(policy, before) && Last(Calls(policy, parts)) == calls[0];
      }
    }
  }

  // ---------------------------------------------------------------- the open texts agree

  function IdsOf(open: seq<Acc>): seq<string> {
    seq(|open|, i requires 0 <= i < |open| => open[i].id)
  }

  lemma PutIds(open: seq<Acc>, id: string, text: string)
    ensures IdsOf(Put(open, id, text)) == if id in IdsOf(open) then IdsOf(open) else IdsOf(open) + [id]
  {
    var i := Find(open, id);
    if i >= 0 {
      assert IdsOf(open)[i] == id;
    }
  }

  lemma FindIds(open: seq<Acc>, id: string)
    ensures id in IdsOf(open) <==> Find(open, id) >= 0
  {
    var i := Find(open, id);
    if i >= 0 {
      assert IdsOf(open)[i] == id;
    }
  }

  /** `s` without its entry `i`. */
  function Cut(s: seq<Acc>, i: nat): seq<Acc>
    requires i < |s|
  {
    s[..i] + s[i + 1..]
  }

  lemma CutAppend(s: seq<Acc>, last: Acc, i: nat)
    requires i <= |s|
    ensures Cut(s + [last], i) == if i == |s| then s else Cut(s, i) + [last]
  {
    if i == |s| {
      assert (s + [last])[..i] == s;
    } else {
      assert (s + [last])[..i] == s[..i] && (s + [last])[i + 1..] == s[i + 1..] + [last];
    }
  }

  lemma FindOne(open: seq<Acc>, id: string)
    requires open != []
    ensures Find(open, id) == if Last(open).id == id then |open| - 1 else Find(Front(open), id)
  {
  }

  /** What Remove does, by the position of the id. */
  function RemovedAt(open: seq<Acc>, i: int): seq<Acc>
    requires -1 <= i < |open|
  {
    if i < 0 then open else Cut(open, i)
  }

  lemma RemovedOne(front: seq<Acc>, last: Acc, i: int)
    requires -1 <= i <= |front|
    ensures RemovedAt(front + [last], i) == if i == |front| then front else RemovedAt(front, i) + [last]
  {
    if i >= 0 {
      CutAppend(front, last, i);
    }
  }

  lemma RemoveOne(open: seq<Acc>, id: string)
    requires open != []
    ensures Remove(open, id) == if Last(open).id == id then Front(open) else Remove(Front(open), id) + [Last(open)]
  {
    FindOne(open, id);
    RemovedOne(Front(open), Last(open), Find(open, id));
    assert open == Front(open) + [Last(open)];
  }

  lemma IdsAppend(open: seq<Acc>, a: Acc)
    ensures IdsOf(open + [a]) == IdsOf(open) + [a.id]
  {
  }

  lemma {:induction false} RemoveIds(open: seq<Acc>, id: string)
    ensures IdsOf(Remove(open, id)) == Without(IdsOf(open), id)
  {
    if open != [] {
      var front, last := Front(open), Last(open);
      RemoveOne(open, id);
      RemoveIds(front, id);
      IdsAppend(front, last);
      IdsAppend(Remove(front, id), last);
      assert open == front + [last];
      WithoutLast(IdsOf(front), last.id, id);
    }
  }

  lemma WithoutLast(ids: seq<string>, last: string, id: string)
    ensures Without(ids + [last], id) == if last == id then ids else Without(ids, id) + [last]
  {
    assert Front(ids + [last]) == ids;
  }

  lemma {:induction false} OpenIsHistory(policy: Policy, ids: Ids, parts: seq<Part>)
    ensures IdsOf(MapAll(policy, ids, parts).0.open) == OpenIds(parts)
  {
    if parts != [] {
      OpenIsHistory(policy, ids, Front(parts));
      PartOpens(policy, MapAll(policy, ids, Front(parts)).0, parts);
    }
  }

  lemma PartOpens(policy: Policy, st: State, parts: seq<Part>)
    requires parts != [] && IdsOf(st.open) == OpenIds(Front(parts))
    ensures IdsOf(MapPart(policy, st, Last(parts)).0.open) == OpenIds(parts)
  {
    match Last(parts)
    case ReasoningStart(id) => PutIds(st.open, id, "");
    case ReasoningDelta(id, text) => PutIds(st.open, id, TextOf(st.open, id) + text);
    case ReasoningEnd(id) =>
      RemoveIds(st.open, id);
      FindIds(st.open, id);
      if Find(st.open, id) < 0 {
        assert Remove(st.open, id) == st.open;
      }
    case _ =>
  }

  /** The open accumulators, flushed, are the pending texts of the open ids. */
  lemma {:induction false} FlushIsTexts(open: seq<Acc>, parts: seq<Part>)
    requires forall i :: 0 <= i < |open| ==> open[i].text == Pending(parts, open[i].id)
    ensures Flush(open) == Texts(parts, IdsOf(open))
  {
    if open != [] {
      assert Front(IdsOf(open)) == IdsOf(Front(open));
      FlushIsTexts(Front(open), parts);
    }
  }

  lemma OpenTexts(policy: Policy, ids: Ids, parts: seq<Part>)
    ensures var open := MapAll(policy, ids, parts).0.open;
            forall i :: 0 <= i < |open| ==> open[i].text == Pending(parts, open[i].id)
  {
    var open := MapAll(policy, ids, parts).0.open;
    forall i | 0 <= i < |open| ensures open[i].text == Pending(parts, open[i].id) {
      RunAccounts(policy, ids, parts, open[i].id);
      FindUnique(open, i);
    }
  }

  // ---------------------------------------------------------------- the main results

  /** What a part adds to the retained parts, from what is open and pending. */
  lemma PartRetains(policy: Policy, st: State, parts: seq<Part>)
    requires parts != []
    requires Last(parts).ReasoningEnd? ==>
               var id := Last(parts).id;
               && (id in OpenIds(Front(parts)) <==> Find(st.open, id) >= 0)
               && TextOf(st.open, id) == Pending(Front(parts), id)
    requires Flush(st.open) == Texts(Front(parts), OpenIds(Front(parts)))
    ensures MapPart(policy, st, Last(parts)).0.retained == st.retained + Keeps(policy, parts)
  {
    if !Last(parts).ReasoningEnd? && !Last(parts).Finish? {
      PlainPartRetains(policy, st, parts);
    } else if Keeps(policy, parts) == [] {
      assert st.retained + [] == st.retained;
    }
  }

  lemma PlainPartRetains(policy: Policy, st: State, parts: seq<Part>)
    requires parts != [] && !Last(parts).ReasoningEnd? && !Last(parts).Finish?
    ensures MapPart(policy, st, Last(parts)).0.retained == st.retained + Keeps(policy, parts)
  {
    assert st.retained + [] == st.retained;
  }

  lemma PartKeeps(policy: Policy, ids: Ids, parts: seq<Part>)
    requires parts != []
    ensures MapAll(policy, ids, parts).0.retained == MapAll(policy, ids, Front(parts)).0.retained + Keeps(policy, parts)
  {
    var st, before := MapAll(policy, ids, Front(parts)).0, Front(parts);
    OpenIsHistory(policy, ids, before);
    OpenTexts(policy, ids, before);
    FlushIsTexts(st.open, before);
    if Last(parts).ReasoningEnd? {
      FindIds(st.open, Last(parts).id);
      RunAccounts(policy, ids, before, Last(parts).id);
    }
    PartRetains(policy, st, parts);
  }

  /**
   Over every run, from any state of the shared id map and with any other calls
   on it: the retained parts are exactly the provider's own calls, final
   results and blocks as they came and the reasoning texts where they ended, in
   the order of the stream, and at a normal finish the texts still open, in the
   order they were opened.
   */
  lemma {:induction false} RetainedIsHistory(policy: Policy, ids: Ids, parts: seq<Part>)
    ensures MapAll(policy, ids, parts).0.retained == AllKept(policy, parts)
  {
    if parts != [] {
      RetainedIsHistory(policy, ids, Front(parts));
      PartKeeps(policy, ids, parts);
    }
  }

  /** A part that is not a finish: what it makes the mapper say depends on the registers and the id map alone. */
  lemma ToolSays(policy: Policy, st: State, ids: Ids, parts: seq<Part>)
    requires parts != [] && RegistersAgree(policy, st, Front(parts))
    requires st.ids == Run(Bridge, ids, Calls(policy, Front(parts)))
    requires Last(parts).ToolInputStart? || Last(parts).ToolInputDelta? || Last(parts).ToolCall?
    ensures MapPart(policy, st, Last(parts)).1 == Says(policy, ids, parts)
  {
    var part := Last(parts);
    if part.ToolCall? && !part.providerExecuted {
      assert part.id in st.started <==> Announces(Front(parts), part.id);
    }
  }

  lemma OtherwiseSays(policy: Policy, st: State, ids: Ids, parts: seq<Part>)
    requires parts != []
    requires !Last(parts).ToolInputStart? && !Last(parts).ToolInputDelta? && !Last(parts).ToolCall?
    requires Last(parts) == Finish(false) ==> MapPart(policy, st, Last(parts)).0.retained == AllKept(policy, parts)
    ensures MapPart(policy, st, Last(parts)).1 == Says(policy, ids, parts)
  {
  }

  lemma PartSays(policy: Policy, ids: Ids, parts: seq<Part>)
    requires parts != []
    ensures MapPart(policy, MapAll(policy, ids, Front(parts)).0, Last(parts)).1 == Says(policy, ids, parts)
  {
    var st := MapAll(policy, ids, Front(parts)).0;
    if Last(parts).ToolInputStart? || Last(parts).ToolInputDelta? || Last(parts).ToolCall? {
      RegistersAreHistory(policy, ids, Front(parts));
      IdsAreCalls(policy, ids, Front(parts));
      ToolSays(policy, st, ids, parts);
    } else {
      RetainedIsHistory(policy, ids, parts);
      OtherwiseSays(policy, st, ids, parts);
    }
  }

  /**
   Over every such run, what the mapper says is what the parts say: each text
   and thought as it came, each tool call started, continued and ended with its
   own name, fragments and input under the id it has by then, and the finish
   with everything retained.
   */
  lemma {:induction false} OutputIsHistory(policy: Policy, ids: Ids, parts: seq<Part>)
    ensures MapAll(policy, ids, parts).1 == Said(policy, ids, parts)
  {
    if parts != [] {
      OutputIsHistory(policy, ids, Front(parts));
      PartSays(policy, ids, parts);
    }
  }
}

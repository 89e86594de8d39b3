/**
 pause_turn absorption: the adapter's continuation loop, which re-sends a
 paused turn with its partial content until it finishes, errs, aborts or
 exhausts the continuation cap, and must account for every paid wire request.
 */
module PauseTurn {
  import opened Prelude
  import opened TokenUsage
  import opened IdMaps
  import opened MessageStream

  /** How the read of an opened stream ends when no message_stop was reached. */
  datatype StreamEnd = Threw(error: WireError, aborted: bool) | Drained(aborted: bool)

  /** The provider's behaviour for one request; `aborted` is the caller's signal when it is consulted. */
  datatype Wire = Rejected(error: WireError, aborted: bool) | Opened(events: seq<WireEvent>, end: StreamEnd)

  /** A conversation message: the caller's own, or the assistant content of an absorbed segment. */
  datatype Message = Given(text: string) | Assistant(content: seq<Block>)

  // ---------------------------------------------------------------- the segments of a turn

  /** The k-th segment, for every k, mapped without what came before it. */
  type Segments = nat -> Mapped

  function EventsAt(wire: nat -> Wire, k: nat): seq<WireEvent> {
    if wire(k).Opened? then wire(k).events else []
  }

  function Segment(ids: Ids, wire: nat -> Wire, k: nat): Mapped {
    MapSegment(if k == 0 then ids else Segment(ids, wire, k - 1).acc.ids, EventsAt(wire, k), NoPrior)
  }

  function SegmentsOf(ids: Ids, wire: nat -> Wire): Segments {
    (k: nat) => Segment(ids, wire, k)
  }

  /** The id map the k-th segment starts from. */
  function IdsAt(ids: Ids, seg: Segments, k: nat): Ids {
    if k == 0 then ids else seg(k - 1).acc.ids
  }

  function Usages(seg: Segments, n: nat): seq<Usage> {
    seq(n, (k: nat) => seg(k).acc.usage)
  }

  function ResponseIds(seg: Segments, n: nat): seq<Option<string>> {
    seq(n, (k: nat) => seg(k).acc.responseId)
  }

  function ThinkingBlocks(seg: Segments, n: nat): seq<Block> {
    if n == 0 then [] else ThinkingBlocks(seg, n - 1) + RetainedOf(seg(n - 1).acc.assistant)
  }

  /** The k-th request's conversation: the caller's messages plus every absorbed segment's content. */
  function Conversation(base: seq<Message>, seg: Segments, k: nat): seq<Message> {
    base + seq(k, (j: nat) => Assistant(seg(j).acc.assistant))
  }

  /** Chat events of the first n segments, all of them paused. */
  function PausedOutput(seg: Segments, n: nat): seq<ChatEvent> {
    if n == 0 then [] else PausedOutput(seg, n - 1) + seg(n - 1).out
  }

  predicate PausesAt(wire: nat -> Wire, seg: Segments, k: nat) {
    wire(k).Opened? && seg(k).verdict.Paused?
  }

  ghost predicate AllPaused(wire: nat -> Wire, seg: Segments, n: nat) {
    forall k: nat :: k < n ==> PausesAt(wire, seg, k)
  }

  /** The accumulation handed to the next segment's mapper. */
  function Absorbed(seg: Segments, n: nat): Prior {
    Prior(ThinkingBlocks(seg, n), ResponseIds(seg, n), if n == 0 then None else Some(SumAll(Usages(seg, n))))
  }

  /** The same accumulation, one paused segment later. */
  function Absorb(prior: Prior, acc: Acc): Prior {
    Prior(
      prior.carryRetained + RetainedOf(acc.assistant),
      prior.responseIds + [acc.responseId],
      Some(if prior.usage.None? then acc.usage else Sum(prior.usage.value, acc.usage)))
  }

  /** An error after absorbed segments names them; one before any stays bare. */
  function WithAbsorbed(error: WireError, prior: seq<Option<string>>): ChatEvent {
    Error(error, if prior == [] then None else Some(WireRequests(|prior|, Known(prior))))
  }

  const TruncatedRead: WireError :=
    WireError("Messages stream ended before message_stop; the read was truncated", true)

  function CapExceeded(cap: nat): WireError {
    WireError("pause_turn continuation cap (" + Decimal(cap) + ") exceeded", true)
  }

  // ---------------------------------------------------------------- what a whole turn must say

  /** Exactly one terminal event, and it is the last one. */
  ghost predicate EndsOnce(out: seq<ChatEvent>) {
    out != [] && Last(out).Terminal() && NoTerminal(Front(out))
  }

  /**
   The finish event of a turn of n requests: the sum of all segments' usage,
   the true request count once there is more than one, and every thinking
   block in order.
   */
  function TurnFinish(seg: Segments, n: nat, reason: FinishReason): ChatEvent
    requires n >= 1
  {
    Finish(
      reason,
      SumAll(Usages(seg, n)),
      FinishMeta(
        seg(n - 1).acc.responseId,
        if n == 1 then None else Some(WireRequests(n, Known(ResponseIds(seg, n)))),
        seg(n - 1).acc.stopSequence,
        if ThinkingBlocks(seg, n) == [] then None else Some(ThinkingBlocks(seg, n))))
  }

  /** The caller's signal was up when the k-th request was rejected or its read broke off. */
  predicate AbortedAt(wire: nat -> Wire, seg: Segments, k: nat) {
    match wire(k)
    case Rejected(_, aborted) => aborted
    case Opened(_, end) => seg(k).verdict.Truncated? && end.aborted
  }

  predicate FinishesAt(wire: nat -> Wire, seg: Segments, k: nat) {
    wire(k).Opened? && seg(k).verdict.Finished?
  }

  /** What the first n requests said before any terminal event. */
  function Heard(wire: nat -> Wire, seg: Segments, n: nat): seq<ChatEvent>
    requires n >= 1
  {
    PausedOutput(seg, n - 1) + if wire(n - 1).Opened? then seg(n - 1).out else []
  }

  /** A finish after n requests speaks for the whole turn, and nothing any segment emitted is lost. */
  ghost predicate FinishAccounts(seg: Segments, n: nat, out: seq<ChatEvent>)
    requires n >= 1 && out != [] && Last(out).Finish?
  {
    var last := seg(n - 1);
    && last.verdict.Finished?
    && last.out != [] && Last(last.out).Finish?
    && Front(out) == PausedOutput(seg, n - 1) + Front(last.out)
    && Last(out) == TurnFinish(seg, n, Last(last.out).reason)
  }

  /** The error that must end a turn whose last request neither finished nor was aborted. */
  function FailureOf(pauseCap: nat, wire: nat -> Wire, denial: nat -> Option<WireError>, seg: Segments, n: nat)
    : Option<WireError>
    requires n >= 1
  {
    match wire(n - 1)
    case Rejected(error, _) => Some(error)
    case Opened(_, end) =>
      if !seg(n - 1).verdict.Paused? then Some(if end.Threw? then end.error else TruncatedRead)
      else if n == pauseCap + 1 then Some(CapExceeded(pauseCap))
      else denial(n + 1)
  }

  /**
   An error keeps everything that was heard, is the one the last request
   demands, and names exactly the segments that completed, by pausing.
   */
  ghost predicate ErrorAccounts(
      pauseCap: nat, wire: nat -> Wire, denial: nat -> Option<WireError>, seg: Segments, n: nat, out: seq<ChatEvent>)
    requires n >= 1 && out != [] && Last(out).Error?
  {
    var completed := if PausesAt(wire, seg, n - 1) then n else n - 1;
    && Front(out) == Heard(wire, seg, n)
    && FailureOf(pauseCap, wire, denial, seg, n) == Some(Last(out).error)
    && Last(out).absorbed
       == if completed == 0 then None else Some(WireRequests(completed, Known(ResponseIds(seg, completed))))
  }

  /** A turn of n requests ended with one terminal event: the finish of the last segment, or the error due. */
  ghost predicate Closed(
      pauseCap: nat, wire: nat -> Wire, denial: nat -> Option<WireError>, seg: Segments, n: nat, out: seq<ChatEvent>)
    requires n >= 1
  {
    && EndsOnce(out)
    && (Last(out).Finish? <==> FinishesAt(wire, seg, n - 1))
    && (Last(out).Finish? ==> FinishAccounts(seg, n, out))
    && (Last(out).Error? ==> ErrorAccounts(pauseCap, wire, denial, seg, n, out))
  }

  /** How a turn of n requests ends: silently when aborted, closed otherwise. */
  ghost predicate Ends(
      pauseCap: nat, wire: nat -> Wire, denial: nat -> Option<WireError>, seg: Segments, n: nat,
      out: seq<ChatEvent>, aborted: bool)
    requires n >= 1
  {
    && (aborted <==> AbortedAt(wire, seg, n - 1))
    && if aborted then out == Heard(wire, seg, n) && NoTerminal(out) else Closed(pauseCap, wire, denial, seg, n, out)
  }

  // ---------------------------------------------------------------- the loop

  /** `seg(k)` really is the mapping of the k-th stream. */
  ghost predicate MapsAt(ids: Ids, wire: nat -> Wire, seg: Segments, k: nat) {
    seg(k) == MapSegment(IdsAt(ids, seg, k), EventsAt(wire, k), NoPrior)
  }

  ghost predicate MapsAll(ids: Ids, wire: nat -> Wire, seg: Segments) {
    forall k: nat :: MapsAt(ids, wire, seg, k)
  }

  /** One request after k paused ones: it ends the turn, or pauses and is absorbed. */
  method Request(
      ghost ids: Ids, pauseCap: nat, wire: nat -> Wire, ghost denial: nat -> Option<WireError>, ghost seg: Segments,
      k: nat, idMap: Ids, prior: Prior, sent: seq<ChatEvent>)
    returns (ended: bool, aborted: bool, out: seq<ChatEvent>, prior': Prior, mapping: Acc)
    requires MapsAll(ids, wire, seg)
    requires idMap == IdsAt(ids, seg, k) && prior == Absorbed(seg, k)
    requires sent == PausedOutput(seg, k) && NoTerminal(sent)
    ensures ended <==> !PausesAt(wire, seg, k)
    ensures ended ==> Ends(pauseCap, wire, denial, seg, k + 1, out, aborted)
    ensures !ended ==>
              && mapping == seg(k).acc && prior' == Absorbed(seg, k + 1)
              && out == PausedOutput(seg, k + 1) && NoTerminal(out)
  {
    var response := wire(k);
    if response.Rejected? {
      assert Heard(wire, seg, k + 1) == sent;
      if response.aborted {
        return true, true, sent, prior, Start(idMap);
      }
      ErrorCloses(pauseCap, wire, denial, seg, k + 1, k, sent, response.error);
      return true, false, sent + [WithAbsorbed(response.error, prior.responseIds)], prior, Start(idMap);
    }
    var mapped := MapStream(idMap, response.events, prior);
    assert MapsAt(ids, wire, seg, k);
    SegmentCloses(pauseCap, wire, denial, seg, k, idMap, sent, mapped);
    out := sent + mapped.out;
    match mapped.verdict {
      case Finished =>
        return true, false, out, prior, mapped.acc;
      case Truncated =>
        if response.end.aborted {
          return true, true, out, prior, mapped.acc;
        }
        var bare := if response.end.Threw? then response.end.error else TruncatedRead;
        ErrorCloses(pauseCap, wire, denial, seg, k + 1, k, out, bare);
        return true, false, out + [WithAbsorbed(bare, prior.responseIds)], prior, mapped.acc;
      case Paused =>
        AbsorbedGrows(seg, k);
        return false, false, out, Absorb(prior, mapped.acc), mapped.acc;
    }
  }

  /** Whether the k-th continuation may go out: the cap first, then the admission hook. */
  function Refusal(pauseCap: nat, denial: nat -> Option<WireError>, k: nat): Option<WireError> {
    if k > pauseCap then Some(CapExceeded(pauseCap)) else denial(k + 1)
  }

  /** One turn of the loop: a request and, when it paused, the licence for the next one. */
  method Turn(
      ghost ids: Ids, pauseCap: nat, wire: nat -> Wire, denial: nat -> Option<WireError>, ghost seg: Segments,
      k: nat, idMap: Ids, prior: Prior, sent: seq<ChatEvent>)
    returns (ended: bool, aborted: bool, out: seq<ChatEvent>, prior': Prior, mapping: Acc)
    requires MapsAll(ids, wire, seg) && k <= pauseCap
    requires idMap == IdsAt(ids, seg, k) && prior == Absorbed(seg, k)
    requires sent == PausedOutput(seg, k) && NoTerminal(sent)
    ensures ended <==> !PausesAt(wire, seg, k) || k == pauseCap || denial(k + 2).Some?
    ensures ended ==> Ends(pauseCap, wire, denial, seg, k + 1, out, aborted)
    ensures !ended ==>
              && mapping == seg(k).acc && prior' == Absorbed(seg, k + 1)
              && out == PausedOutput(seg, k + 1) && NoTerminal(out)
  {
    ended, aborted, out, prior', mapping := Request(ids, pauseCap, wire, denial, seg, k, idMap, prior, sent);
    if !ended {
      aborted := false;
      var refusal := Refusal(pauseCap, denial, k + 1);
      if refusal.Some? {
        RefusalCloses(pauseCap, wire, denial, seg, k, out, refusal.value);
        out := out + [WithAbsorbed(refusal.value, prior'.responseIds)];
        ended := true;
      }
    }
  }

  /** Every request after the first was admitted. */
  ghost predicate Admitted(denial: nat -> Option<WireError>, n: nat) {
    forall k: nat :: 2 <= k <= n ==> denial(k).None?
  }

  /** The k-th request carried the conversation with all k earlier segments appended. */
  ghost predicate Sent(base: seq<Message>, seg: Segments, requests: seq<seq<Message>>) {
    forall k :: 0 <= k < |requests| ==> requests[k] == Conversation(base, seg, k)
  }

  lemma SentOneMore(base: seq<Message>, seg: Segments, requests: seq<seq<Message>>, messages: seq<Message>)
    requires Sent(base, seg, requests) && messages == Conversation(base, seg, |requests|)
    ensures Sent(base, seg, requests + [messages])
  {
  }

  lemma OneMorePaused(ids: Ids, base: seq<Message>, wire: nat -> Wire, seg: Segments, k: nat)
    requires AllPaused(wire, seg, k) && PausesAt(wire, seg, k)
    ensures AllPaused(wire, seg, k + 1)
    ensures IdsAt(ids, seg, k + 1) == seg(k).acc.ids
    ensures Conversation(base, seg, k + 1) == Conversation(base, seg, k) + [Assistant(seg(k).acc.assistant)]
  {
  }

  method StreamSegments(
      ids: Ids, base: seq<Message>, pauseCap: nat, wire: nat -> Wire, denial: nat -> Option<WireError>,
      ghost seg: Segments)
    returns (out: seq<ChatEvent>, requests: seq<seq<Message>>, aborted: bool)
    requires MapsAll(ids, wire, seg)
    ensures 1 <= |requests| <= pauseCap + 1
    ensures Sent(base, seg, requests)
    ensures AllPaused(wire, seg, |requests| - 1) && Admitted(denial, |requests|)
    ensures Ends(pauseCap, wire, denial, seg, |requests|, out, aborted)
  {
    var continuations := 0;
    var prior, idMap, messages := NoPrior, ids, base;
    out, requests, aborted := [], [], false;
    assert base == Conversation(base, seg, 0);
    while true
      invariant continuations <= pauseCap && |requests| == continuations
      invariant AllPaused(wire, seg, continuations) && Admitted(denial, continuations + 1)
      invariant Sent(base, seg, requests)
      invariant idMap == IdsAt(ids, seg, continuations) && prior == Absorbed(seg, continuations)
      invariant messages == Conversation(base, seg, continuations)
      invariant out == PausedOutput(seg, continuations) && NoTerminal(out)
      decreases pauseCap - continuations
    {
      SentOneMore(base, seg, requests, messages);
      requests := requests + [messages];
      var ended, mapping;
      ended, aborted, out, prior, mapping :=
        Turn(ids, pauseCap, wire, denial, seg, continuations, idMap, prior, out);
      if ended {
        return;
      }
      OneMorePaused(ids, base, wire, seg, continuations);
      idMap := mapping.ids;
      messages := messages + [Assistant(mapping.assistant)];
      continuations := continuations + 1;
    }
  }

  /**
   The adapter's stream, over every provider behaviour, cap and admission
   hook: at most cap + 1 requests, each admitted and carrying every earlier
   segment's content; silent exactly when the caller's abort broke it off;
   otherwise exactly one terminal event, last: the finish exactly when the
   last segment finished, accounting for the whole turn, or the error due.
   */
  method Stream(ids: Ids, base: seq<Message>, pauseCap: nat, wire: nat -> Wire, denial: nat -> Option<WireError>)
    returns (out: seq<ChatEvent>, requests: seq<seq<Message>>, aborted: bool)
    ensures 1 <= |requests| <= pauseCap + 1
    ensures Sent(base, SegmentsOf(ids, wire), requests)
    ensures AllPaused(wire, SegmentsOf(ids, wire), |requests| - 1) && Admitted(denial, |requests|)
    ensures Ends(pauseCap, wire, denial, SegmentsOf(ids, wire), |requests|, out, aborted)
  {
    ghost var seg := SegmentsOf(ids, wire);
    assert MapsAll(ids, wire, seg);
    out, requests, aborted := StreamSegments(ids, base, pauseCap, wire, denial, seg);
  }

  // ---------------------------------------------------------------- closing lemmas

  lemma ErrorCloses(
      pauseCap: nat, wire: nat -> Wire, denial: nat -> Option<WireError>, seg: Segments, n: nat, completed: nat,
      out: seq<ChatEvent>, bare: WireError)
    requires n >= 1 && NoTerminal(out) && out == Heard(wire, seg, n) && !FinishesAt(wire, seg, n - 1)
    requires FailureOf(pauseCap, wire, denial, seg, n) == Some(bare)
    requires completed == if PausesAt(wire, seg, n - 1) then n else n - 1
    ensures Closed(pauseCap, wire, denial, seg, n, out + [WithAbsorbed(bare, Absorbed(seg, completed).responseIds)])
  {
    assert Front(out + [WithAbsorbed(bare, Absorbed(seg, completed).responseIds)]) == out;
  }

  lemma RefusalCloses(
      pauseCap: nat, wire: nat -> Wire, denial: nat -> Option<WireError>, seg: Segments, k: nat,
      out: seq<ChatEvent>, bare: WireError)
    requires k <= pauseCap && PausesAt(wire, seg, k) && Refusal(pauseCap, denial, k + 1) == Some(bare)
    requires out == PausedOutput(seg, k + 1) && NoTerminal(out)
    ensures Ends(pauseCap, wire, denial, seg, k + 1,
                 out + [WithAbsorbed(bare, Absorbed(seg, k + 1).responseIds)], false)
  {
    ErrorCloses(pauseCap, wire, denial, seg, k + 1, k + 1, out, bare);
  }

  lemma PausedGoesOn(
      pauseCap: nat, wire: nat -> Wire, denial: nat -> Option<WireError>, seg: Segments, n: nat,
      out: seq<ChatEvent>, aborted: bool)
    requires 1 <= n <= pauseCap && PausesAt(wire, seg, n - 1) && denial(n + 1).None?
    ensures !Ends(pauseCap, wire, denial, seg, n, out, aborted)
  {
  }

  /** The contract of the stream leaves nothing open: requests, events and silence are all determined. */
  lemma OutcomeIsForced(
      pauseCap: nat, wire: nat -> Wire, denial: nat -> Option<WireError>, seg: Segments,
      n: nat, out: seq<ChatEvent>, aborted: bool, n': nat, out': seq<ChatEvent>, aborted': bool)
    requires 1 <= n <= n' <= pauseCap + 1
    requires AllPaused(wire, seg, n' - 1) && Admitted(denial, n')
    requires Ends(pauseCap, wire, denial, seg, n, out, aborted)
    requires Ends(pauseCap, wire, denial, seg, n', out', aborted')
    ensures n == n' && out == out' && aborted == aborted'
  {
    if n < n' {
      PausedGoesOn(pauseCap, wire, denial, seg, n, out, aborted);
    } else if !aborted {
      assert out == Front(out) + [Last(out)] && out' == Front(out') + [Last(out')];
    }
  }

  lemma PriorOnlyAtFinish(ids: Ids, es: seq<WireEvent>, prior: Prior)
    ensures var a, b := MapSegment(ids, es, prior), MapSegment(ids, es, NoPrior);
            && a.acc == b.acc && a.verdict == b.verdict
            && if a.verdict.Finished? then
                 && a.out != [] && b.out != [] && Front(a.out) == Front(b.out)
                 && Last(b.out).Finish?
                 && Last(a.out) == FinishEvent(a.acc, Last(b.out).reason, prior)
               else a.out == b.out
  {
  }

  /** One more paused segment folds into the accumulation exactly as the loop folds it. */
  lemma AbsorbedGrows(seg: Segments, n: nat)
    ensures Absorbed(seg, n + 1) == Absorb(Absorbed(seg, n), seg(n).acc)
  {
    assert Front(Usages(seg, n + 1)) == Usages(seg, n);
    assert ResponseIds(seg, n + 1) == ResponseIds(seg, n) + [seg(n).acc.responseId];
  }

  /** The finish event states what the accumulation would be with the last segment absorbed too. */
  lemma FinishFromAbsorb(acc: Acc, reason: FinishReason, prior: Prior)
    ensures var whole := Absorb(prior, acc);
            FinishEvent(acc, reason, prior)
            == Finish(reason, whole.usage.value,
                      FinishMeta(
                        acc.responseId,
                        if prior.responseIds == [] then None
                        else Some(WireRequests(|whole.responseIds|, Known(whole.responseIds))),
                        acc.stopSequence,
                        if whole.carryRetained == [] then None else Some(whole.carryRetained)))
  {
  }

  lemma FinishIsTurnFinish(seg: Segments, k: nat, reason: FinishReason)
    ensures FinishEvent(seg(k).acc, reason, Absorbed(seg, k)) == TurnFinish(seg, k + 1, reason)
  {
    AbsorbedGrows(seg, k);
    FinishFromAbsorb(seg(k).acc, reason, Absorbed(seg, k));
  }

  /** The finish of the k-th segment closes a turn whose first k segments paused. */
  lemma FinishCloses(
      pauseCap: nat, wire: nat -> Wire, denial: nat -> Option<WireError>, seg: Segments, k: nat,
      before: seq<ChatEvent>, out: seq<ChatEvent>)
    requires wire(k).Opened? && before == PausedOutput(seg, k) && NoTerminal(before)
    requires seg(k).verdict.Finished? && seg(k).out != [] && Last(seg(k).out).Finish?
    requires out != [] && Front(out) == Front(seg(k).out) && NoTerminal(Front(out))
    requires Last(out) == FinishEvent(seg(k).acc, Last(seg(k).out).reason, Absorbed(seg, k))
    ensures Closed(pauseCap, wire, denial, seg, k + 1, before + out)
  {
    FinishIsTurnFinish(seg, k, Last(seg(k).out).reason);
    assert Front(before + out) == before + Front(out);
    assert Last(before + out) == Last(out);
  }

  /** Mapping the k-th segment after k paused ones either closes the turn with its finish or stays open. */
  lemma SegmentCloses(
      pauseCap: nat, wire: nat -> Wire, denial: nat -> Option<WireError>, seg: Segments, k: nat, idMap: Ids,
      before: seq<ChatEvent>, mapped: Mapped)
    requires wire(k).Opened? && seg(k) == MapSegment(idMap, wire(k).events, NoPrior)
    requires before == PausedOutput(seg, k) && NoTerminal(before)
    requires mapped == MapSegment(idMap, wire(k).events, Absorbed(seg, k))
    ensures mapped.acc == seg(k).acc && mapped.verdict == seg(k).verdict
    ensures mapped.verdict.Finished? ==> Closed(pauseCap, wire, denial, seg, k + 1, before + mapped.out)
    ensures !mapped.verdict.Finished? ==> NoTerminal(before + mapped.out) && mapped.out == seg(k).out
  {
    PriorOnlyAtFinish(idMap, wire(k).events, Absorbed(seg, k));
    SegmentTerminal(idMap, wire(k).events, Absorbed(seg, k));
    if mapped.verdict.Finished? {
      FinishCloses(pauseCap, wire, denial, seg, k, before, mapped.out);
    }
  }

  // ---------------------------------------------------------------- the finish confirms every mid-stream report

  /** The segment's output without its finish. */
  function Body(m: Mapped): seq<ChatEvent> {
    if m.verdict.Finished? && m.out != [] then Front(m.out) else m.out
  }

  /** One report at most, covered by the segment's own final usage. */
  ghost predicate ReportsOnce(m: Mapped) {
    && Canonical(m.acc.usage)
    && |Reports(Body(m))| <= 1
    && (Reports(Body(m)) != [] ==> Within(Reports(Body(m))[0], m.acc.usage))
  }

  lemma CumulativeReportsOnce(ids: Ids, es: seq<WireEvent>)
    requires Cumulative(ids, es[..StopAt(es)])
    ensures ReportsOnce(MapSegment(ids, es, NoPrior))
  {
    SegmentReportsWithin(ids, es[..StopAt(es)]);
    ScanHasNoTerminal(ids, es[..StopAt(es)]);
    assert Body(MapSegment(ids, es, NoPrior)) == Scan(ids, es[..StopAt(es)]).1;
  }

  /** The first n segments' outputs, without finishes. */
  function Bodies(seg: Segments, n: nat): seq<ChatEvent> {
    if n == 0 then [] else Bodies(seg, n - 1) + Body(seg(n - 1))
  }

  ghost predicate AllReportOnce(seg: Segments, n: nat) {
    forall k: nat {:trigger seg(k)} :: k < n ==> ReportsOnce(seg(k))
  }

  /** `count` reads one of the four required counts. */
  ghost predicate Covers(count: Usage -> nat) {
    forall a, b :: Within(a, b) ==> count(a) <= count(b)
  }

  lemma TotalGrows(us: seq<Usage>, more: seq<Usage>, top: Usage, count: Usage -> nat)
    requires Covers(count) && |more| <= 1 && (more != [] ==> Within(more[0], top))
    ensures Total(us + more, count) <= Total(us, count) + count(top)
  {
    if more == [] {
      assert us + more == us;
    } else {
      assert us + more == us + [more[0]] && Front(us + [more[0]]) == us;
    }
  }

  lemma UsagesTotal(seg: Segments, n: nat, count: Usage -> nat)
    ensures Total(Usages(seg, n + 1), count) == Total(Usages(seg, n), count) + count(seg(n).acc.usage)
  {
    assert Front(Usages(seg, n + 1)) == Usages(seg, n);
  }

  lemma ReportsTotal(seg: Segments, n: nat, count: Usage -> nat)
    requires ReportsOnce(seg(n)) && Covers(count)
    ensures Total(Reports(Bodies(seg, n + 1)), count)
            <= Total(Reports(Bodies(seg, n)), count) + count(seg(n).acc.usage)
  {
    var before, more := Bodies(seg, n), Body(seg(n));
    assert Bodies(seg, n + 1) == before + more;
    ReportsConcat(before, more);
    TotalGrows(Reports(before), Reports(more), seg(n).acc.usage, count);
  }

  ghost predicate Covered(seg: Segments, n: nat, count: Usage -> nat) {
    Total(Reports(Bodies(seg, n)), count) <= Total(Usages(seg, n), count)
  }

  lemma NoSegmentsCovered(seg: Segments, count: Usage -> nat)
    ensures Covered(seg, 0, count)
  {
    assert Bodies(seg, 0) == [] && Reports([]) == [] && Usages(seg, 0) == [];
  }

  lemma OneMoreCovered(seg: Segments, n: nat, count: Usage -> nat)
    requires ReportsOnce(seg(n)) && Covers(count) && Covered(seg, n, count)
    ensures Covered(seg, n + 1, count)
  {
    ReportsTotal(seg, n, count);
    UsagesTotal(seg, n, count);
  }

  lemma ReportsWithinUsages(seg: Segments, n: nat, count: Usage -> nat)
    requires AllReportOnce(seg, n) && Covers(count)
    ensures Covered(seg, n, count)
  {
    NoSegmentsCovered(seg, count);
    for m := 0 to n
      invariant Covered(seg, m, count)
    {
      OneMoreCovered(seg, m, count);
    }
  }

  lemma {:induction false} BodiesArePausedOutput(wire: nat -> Wire, seg: Segments, n: nat)
    requires AllPaused(wire, seg, n)
    ensures Bodies(seg, n) == PausedOutput(seg, n)
  {
    if n > 0 {
      assert PausesAt(wire, seg, n - 1);
      BodiesArePausedOutput(wire, seg, n - 1);
    }
  }

  /** Every count of the mid-stream reports, summed over the turn, is within `usage`. */
  ghost predicate ReportsCovered(reports: seq<Usage>, usage: Usage) {
    && Total(reports, (u: Usage) => u.input) <= usage.input
    && Total(reports, (u: Usage) => u.output) <= usage.output
    && Total(reports, (u: Usage) => u.cacheRead) <= usage.cacheRead
    && Total(reports, (u: Usage) => u.cacheWrite) <= usage.cacheWrite
  }

  lemma UsagesCoverReports(seg: Segments, n: nat)
    requires n >= 1 && AllReportOnce(seg, n)
    ensures ReportsCovered(Reports(Bodies(seg, n)), SumAll(Usages(seg, n)))
  {
    assert forall k :: 0 <= k < n ==> Usages(seg, n)[k] == seg(k).acc.usage;
    SumAllConserves(Usages(seg, n));
    ReportsWithinUsages(seg, n, (u: Usage) => u.input);
    ReportsWithinUsages(seg, n, (u: Usage) => u.output);
    ReportsWithinUsages(seg, n, (u: Usage) => u.cacheRead);
    ReportsWithinUsages(seg, n, (u: Usage) => u.cacheWrite);
  }

  /**
   When every segment's counts are cumulative, the finish covers the sum of
   all mid-stream reports of the turn in every count, so a legitimate
   absorption is never mistaken for an accounting violation.
   */
  lemma FinishCoversReports(ids: Ids, wire: nat -> Wire, seg: Segments, n: nat, out: seq<ChatEvent>)
    requires MapsAll(ids, wire, seg)
    requires n >= 1 && out != [] && Last(out).Finish?
    requires AllPaused(wire, seg, n - 1)
    requires FinishAccounts(seg, n, out)
    requires forall k: nat :: k < n ==> CumulativeAt(ids, wire, seg, k)
    ensures ReportsCovered(Reports(Front(out)), Last(out).usage)
  {
    forall k: nat | k < n ensures ReportsOnce(seg(k)) {
      assert CumulativeAt(ids, wire, seg, k);
      SegmentReportsOnce(ids, wire, seg, k);
    }
    TurnCoversReports(wire, seg, n, out);
  }

  /** The k-th segment has one message_start and output counts that never fall. */
  ghost predicate CumulativeAt(ids: Ids, wire: nat -> Wire, seg: Segments, k: nat) {
    Cumulative(IdsAt(ids, seg, k), EventsAt(wire, k)[..StopAt(EventsAt(wire, k))])
  }

  lemma SegmentReportsOnce(ids: Ids, wire: nat -> Wire, seg: Segments, k: nat)
    requires MapsAll(ids, wire, seg) && CumulativeAt(ids, wire, seg, k)
    ensures ReportsOnce(seg(k))
  {
    assert MapsAt(ids, wire, seg, k);
    CumulativeReportsOnce(IdsAt(ids, seg, k), EventsAt(wire, k));
  }

  lemma FinishBodies(wire: nat -> Wire, seg: Segments, n: nat, out: seq<ChatEvent>)
    requires n >= 1 && out != [] && Last(out).Finish?
    requires AllPaused(wire, seg, n - 1) && FinishAccounts(seg, n, out)
    ensures Front(out) == Bodies(seg, n)
    ensures Last(out).usage == SumAll(Usages(seg, n))
  {
    BodiesArePausedOutput(wire, seg, n - 1);
  }

  lemma TurnCoversReports(wire: nat -> Wire, seg: Segments, n: nat, out: seq<ChatEvent>)
    requires n >= 1 && out != [] && Last(out).Finish?
    requires AllPaused(wire, seg, n - 1) && FinishAccounts(seg, n, out) && AllReportOnce(seg, n)
    ensures ReportsCovered(Reports(Front(out)), Last(out).usage)
  {
    FinishBodies(wire, seg, n, out);
    UsagesCoverReports(seg, n);
  }
}

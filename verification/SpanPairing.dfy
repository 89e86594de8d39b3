/**
 Which start a tool end closes. When no span id of a stream is spelled like a
 tool key of another, a tool end closes tool spans only, an end that carries
 the id of a start closes that start's span, and the k-th end without ids
 closes the k-th start of its class. Without that, some stream over the same
 span ids has a tool end that closes another span.
 */
module SpanPairing {
  import opened Prelude
  import opened SpanExporter
  import ToolPairing

  /** An event over the given span ids, with invocations that are numbers. */
  predicate Typed(ids: set<string>, e: Event) {
    e.spanId in ids && (e.PhaseStart? || e.PhaseEnd? ==> forall c :: c in e.invocation ==> IsDigit(c))
  }

  ghost predicate AllTyped(ids: set<string>, es: seq<Event>) {
    forall i :: 0 <= i < |es| ==> Typed(ids, es[i])
  }

  /** The key is minted for a tool execution under one of the span ids. */
  ghost predicate ToolShaped(ids: set<string>, key: string) {
    exists s, n: nat :: s in ids && key == ToolKey(s, n)
  }

  /** No span id is spelled like a tool key of another. */
  ghost predicate Separate(ids: set<string>) {
    forall s :: s in ids ==> !ToolShaped(ids, s)
  }

  lemma HashFreeIsSeparate(ids: set<string>)
    requires forall s :: s in ids ==> '#' !in s
    ensures Separate(ids)
  {
    forall s, s', n: nat | s in ids && s' in ids ensures s != ToolKey(s', n) {
      assert ToolKey(s', n)[|s'|] == '#';
    }
  }

  /** A phase key is never a tool key: the parts behind the last '#' differ. */
  lemma PhaseKeyShape(ids: set<string>, spanId: string, invocation: string)
    requires forall c :: c in invocation ==> IsDigit(c)
    ensures !ToolShaped(ids, PhaseKey(spanId, invocation))
  {
    forall s, n: nat | s in ids ensures PhaseKey(spanId, invocation) != ToolKey(s, n) {
      var x := "tool" + Decimal(n);
      assert PhaseKey(spanId, invocation) == spanId + ['#'] + invocation && ToolKey(s, n) == s + ['#'] + x;
      assert x[0] == 't' && '#' !in x && 't' in x && 't' !in invocation;
      if PhaseKey(spanId, invocation) == ToolKey(s, n) {
        SplitUnique(spanId, invocation, s, x, '#');
      }
    }
  }

  // ---------------------------------------------------------------- the lines of one class

  /** A tool span ended by a tool end, and when. */
  datatype Call = Call(span: Span, end: int)

  /** The spans queued under `pair`, in the order they were started. */
  function QueuedStarts(log: seq<Action>, pair: string): seq<Span> {
    if log == [] then []
    else QueuedStarts(Front(log), pair)
         + (if Last(log).Started? && Last(log).span.kind == Queued(pair) then [Last(log).span] else [])
  }

  /** The spans queued under `pair` that a tool end closed, in the order of the ends. */
  function QueuedCalls(log: seq<Action>, pair: string): seq<Call> {
    if log == [] then []
    else QueuedCalls(Front(log), pair)
         + (if Last(log).Ended? && Last(log).at.Some? && Last(log).span.kind == Queued(pair)
            then [Call(Last(log).span, Last(log).at.value)] else [])
  }

  lemma LogGrows(log: seq<Action>, a: Action, pair: string)
    ensures QueuedStarts(log + [a], pair)
            == if a.Started? && a.span.kind == Queued(pair) then QueuedStarts(log, pair) + [a.span]
               else QueuedStarts(log, pair)
    ensures QueuedCalls(log + [a], pair)
            == if a.Ended? && a.at.Some? && a.span.kind == Queued(pair)
               then QueuedCalls(log, pair) + [Call(a.span, a.at.value)]
               else QueuedCalls(log, pair)
  {
    assert Front(log + [a]) == log;
  }

  /** The k-th end closed the k-th start, and the queue holds the starts that are still waiting. */
  ghost predicate Lined(starts: seq<Span>, calls: seq<Call>, queue: seq<string>, open: map<string, Span>) {
    && |starts| == |calls| + |queue|
    && (forall k {:trigger calls[k]} :: 0 <= k < |calls| ==> calls[k].span == starts[k])
    && (forall i {:trigger queue[i]} :: 0 <= i < |queue| ==> queue[i] in open && open[queue[i]] == starts[|calls| + i])
  }

  // ---------------------------------------------------------------- the registers

  ghost predicate Shaped(ids: set<string>, open: map<string, Span>, minted: nat) {
    && (forall k :: k in open ==> (open[k].kind.IsTool() <==> ToolShaped(ids, k)))
    && (forall s, n: nat {:trigger ToolKey(s, n)} :: s in ids && n >= minted ==> ToolKey(s, n) !in open)
  }

  /** Every registered key is open and its span says which register it is in. */
  ghost predicate Registered(open: map<string, Span>, queues: map<string, seq<string>>, byId: map<string, string>) {
    && (forall p :: p in queues ==> QueueOk(open, p, queues[p]))
    && (forall d :: d in byId ==> byId[d] in open && open[byId[d]].kind == Named(d))
  }

  ghost predicate QueueOk(open: map<string, Span>, p: string, queue: seq<string>) {
    && (forall i :: 0 <= i < |queue| ==> queue[i] in open && open[queue[i]].kind == Queued(p))
    && (forall i, j :: 0 <= i < j < |queue| ==> queue[i] != queue[j])
  }

  ghost predicate Paired(ids: set<string>, st: State) {
    Separate(ids) && Shaped(ids, st.open, st.minted) && Registered(st.open, st.queues, st.byId)
  }

  /** Tool spans that were open still are. */
  ghost predicate KeepsTools(open: map<string, Span>, open': map<string, Span>) {
    forall k :: k in open && open[k].kind.IsTool() ==> k in open' && open'[k] == open[k]
  }

  /** Spans that are not tool spans and were open still are. */
  ghost predicate KeepsOthers(open: map<string, Span>, open': map<string, Span>) {
    forall k :: k in open && !open[k].kind.IsTool() ==> k in open' && open'[k] == open[k]
  }

  lemma KeepRegistered(open: map<string, Span>, open': map<string, Span>,
                       queues: map<string, seq<string>>, byId: map<string, string>)
    requires Registered(open, queues, byId) && KeepsTools(open, open')
    ensures Registered(open', queues, byId)
  {
    forall p | p in queues ensures QueueOk(open', p, queues[p]) {
      assert QueueOk(open, p, queues[p]);
    }
  }

  lemma QueueIsOk(st: State, pair: string)
    requires Registered(st.open, st.queues, st.byId)
    ensures QueueOk(st.open, pair, Queue(st, pair))
  {
  }

  lemma ShapedPlainAdd(ids: set<string>, open: map<string, Span>, minted: nat, key: string, span: Span)
    requires Shaped(ids, open, minted) && !span.kind.IsTool() && !ToolShaped(ids, key)
    ensures Shaped(ids, open[key := span], minted)
  {
    forall s, n: nat | s in ids && n >= minted ensures ToolKey(s, n) != key {
      assert ToolKey(s, n) == key ==> ToolShaped(ids, key);
    }
  }

  lemma PlainStart(ids: set<string>, st: State, key: string, kind: Kind, parentKey: Option<string>, ts: int)
    requires Paired(ids, st) && !kind.IsTool() && !ToolShaped(ids, key)
    ensures Paired(ids, StartSpan(st, key, kind, parentKey, ts))
    ensures KeepsTools(st.open, StartSpan(st, key, kind, parentKey, ts).open)
  {
    if key !in st.open {
      var open' := StartSpan(st, key, kind, parentKey, ts).open;
      ShapedPlainAdd(ids, st.open, st.minted, key, open'[key]);
      KeepRegistered(st.open, open', st.queues, st.byId);
    }
  }

  lemma PlainEnd(ids: set<string>, st: State, key: string, ts: int)
    requires Paired(ids, st) && !ToolShaped(ids, key)
    ensures Paired(ids, EndSpan(st, key, ts))
    ensures KeepsTools(st.open, EndSpan(st, key, ts).open)
  {
    if key in st.open {
      KeepRegistered(st.open, st.open - {key}, st.queues, st.byId);
    }
  }

  lemma ShapedToolAdd(ids: set<string>, open: map<string, Span>, minted: nat, spanId: string, span: Span)
    requires Shaped(ids, open, minted) && span.kind.IsTool() && spanId in ids
    ensures Shaped(ids, open[ToolKey(spanId, minted) := span], minted + 1)
  {
    forall s, n: nat | n > minted ensures ToolKey(s, n) != ToolKey(spanId, minted) {
      if ToolKey(s, n) == ToolKey(spanId, minted) { TaggedInjective(s, n, spanId, minted, "tool"); }
    }
  }

  lemma RegisterQueued(open: map<string, Span>, queues: map<string, seq<string>>, byId: map<string, string>,
                       p: string, queue: seq<string>, key: string)
    requires Registered(open, queues, byId) && QueueOk(open, p, queue)
    requires key !in queue && key in open && open[key].kind == Queued(p)
    ensures Registered(open, queues[p := queue + [key]], byId)
  {
    assert QueueOk(open, p, queue + [key]);
  }

  lemma RegisterPop(open: map<string, Span>, queues: map<string, seq<string>>, byId: map<string, string>,
                    p: string, queue: seq<string>)
    requires Registered(open, queues, byId) && QueueOk(open, p, queue) && queue != []
    ensures Registered(open - {queue[0]}, queues[p := queue[1..]], byId)
  {
    var rest := open - {queue[0]};
    assert QueueOk(rest, p, queue[1..]);
    forall q | q in queues && q != p ensures QueueOk(rest, q, queues[q]) {
      assert QueueOk(open, q, queues[q]);
    }
  }

  lemma RegisterForget(open: map<string, Span>, queues: map<string, seq<string>>, byId: map<string, string>, id: string)
    requires Registered(open, queues, byId) && id in byId
    ensures Registered(open - {byId[id]}, queues, byId - {id})
  {
    forall p | p in queues ensures QueueOk(open - {byId[id]}, p, queues[p]) {
      assert QueueOk(open, p, queues[p]);
    }
  }

  /** The span a tool start opens. */
  function ToolSpan(st: State, e: Event): Span
    requires e.ToolStart?
  {
    Span(st.created, ToolKey(e.spanId, st.minted),
         if e.callId.Some? then Named(Joined(e.spanId, e.callId.value)) else Queued(Joined(e.spanId, e.toolName)),
         e.ts)
  }

  /** Every tool start opens a span of its own. */
  lemma ToolOpens(ids: set<string>, st: State, e: Event)
    requires Paired(ids, st) && e.ToolStart? && e.spanId in ids
    ensures ToolSpan(st, e).key !in st.open
    ensures var st', span := StartTool(st, e), ToolSpan(st, e);
            && st'.open == st.open[span.key := span]
            && st'.log == st.log + [Started(span, Get(st.open, e.spanId))]
            && st'.minted == st.minted + 1
            && st'.queues == (if e.callId.Some? then st.queues
                              else var p := Joined(e.spanId, e.toolName); st.queues[p := Queue(st, p) + [span.key]])
            && st'.byId == (if e.callId.Some? then st.byId[Joined(e.spanId, e.callId.value) := span.key] else st.byId)
  {
    assert ToolKey(e.spanId, st.minted) !in st.open;
  }

  lemma ToolStartPaired(ids: set<string>, st: State, e: Event)
    requires Paired(ids, st) && e.ToolStart? && e.spanId in ids
    ensures Paired(ids, StartTool(st, e)) && KeepsTools(st.open, StartTool(st, e).open)
  {
    var span := ToolSpan(st, e);
    ToolOpens(ids, st, e);
    var open' := st.open[span.key := span];
    ShapedToolAdd(ids, st.open, st.minted, e.spanId, span);
    KeepRegistered(st.open, open', st.queues, st.byId);
    if e.callId.None? {
      var p := Joined(e.spanId, e.toolName);
      QueueIsOk(st, p);
      RegisterQueued(open', st.queues, st.byId, p, Queue(st, p), span.key);
    }
  }

  /** The register entry a tool end takes, if any. */
  datatype Taken = ById(id: string) | ByOrder(pair: string) | Nothing

  function Takes(st: State, e: Event): Taken
    requires e.ToolEnd?
  {
    if e.callId.Some? && Joined(e.spanId, e.callId.value) in st.byId then ById(Joined(e.spanId, e.callId.value))
    else if Queue(st, Joined(e.spanId, e.toolName)) != [] then ByOrder(Joined(e.spanId, e.toolName))
    else Nothing
  }

  /** Every tool end closes the span whose key it takes, and no other. */
  lemma ToolCloses(ids: set<string>, st: State, e: Event)
    requires Paired(ids, st) && e.ToolEnd?
    ensures var st' := EndTool(st, e);
            match Takes(st, e)
            case ById(id) =>
              && Get(st.open, st.byId[id]).Some? && st.open[st.byId[id]].kind == Named(id)
              && st'.open == st.open - {st.byId[id]}
              && st'.log == st.log + [Ended(st.open[st.byId[id]], Some(e.ts))]
              && st'.minted == st.minted && st'.queues == st.queues && st'.byId == st.byId - {id}
            case ByOrder(p) =>
              var key := Queue(st, p)[0];
              && Get(st.open, key).Some? && st.open[key].kind == Queued(p)
              && st'.open == st.open - {key}
              && st'.log == st.log + [Ended(st.open[key], Some(e.ts))]
              && st'.minted == st.minted && st'.queues == st.queues[p := Queue(st, p)[1..]] && st'.byId == st.byId
            case Nothing => st' == Attach(st, e.spanId)
  {
    QueueIsOk(st, Joined(e.spanId, e.toolName));
  }

  lemma ToolEndPaired(ids: set<string>, st: State, e: Event)
    requires Paired(ids, st) && e.ToolEnd?
    ensures Paired(ids, EndTool(st, e)) && KeepsOthers(st.open, EndTool(st, e).open)
  {
    ToolCloses(ids, st, e);
    match Takes(st, e)
    case ById(id) => RegisterForget(st.open, st.queues, st.byId, id);
    case ByOrder(p) =>
      QueueIsOk(st, p);
      RegisterPop(st.open, st.queues, st.byId, p, Queue(st, p));
    case Nothing =>
  }

  /** Only a tool end can close a tool span, and it closes nothing else. */
  lemma StepPaired(ids: set<string>, st: State, e: Event)
    requires Paired(ids, st) && Typed(ids, e)
    ensures Paired(ids, Step(st, e))
    ensures if e.ToolEnd? then KeepsOthers(st.open, Step(st, e).open) else KeepsTools(st.open, Step(st, e).open)
  {
    match e
    case Opener(spanId, parent, ts) =>
      PlainStart(ids, st, spanId, Scope, parent, ts);
    case Closer(spanId, ts) =>
      PlainEnd(ids, st, spanId, ts);
    case PhaseStart(spanId, n, ts) =>
      PhaseKeyShape(ids, spanId, n);
      PlainStart(ids, st, PhaseKey(spanId, n), Invocation, Some(spanId), ts);
    case PhaseEnd(spanId, n, ts) =>
      PhaseKeyShape(ids, spanId, n);
      PlainEnd(ids, st, PhaseKey(spanId, n), ts);
    case ToolStart(_, _, _, _) => ToolStartPaired(ids, st, e);
    case ToolEnd(_, _, _, _) => ToolEndPaired(ids, st, e);
    case Payload(_, _) =>
  }

  lemma {:induction false} RunPaired(ids: set<string>, es: seq<Event>)
    requires Separate(ids) && AllTyped(ids, es)
    ensures Paired(ids, Run(Initial, es))
  {
    if es != [] {
      RunPaired(ids, Front(es));
      StepPaired(ids, Run(Initial, Front(es)), Last(es));
    }
  }

  // ---------------------------------------------------------------- the line moves

  ghost predicate InLine(st: State, pair: string) {
    Lined(QueuedStarts(st.log, pair), QueuedCalls(st.log, pair), Queue(st, pair), st.open)
  }

  /** The action concerns no span queued under `pair`. */
  predicate Elsewhere(a: Action, pair: string) {
    a.Noted? || a.span.kind != Queued(pair)
  }

  predicate LogsElsewhere(log: seq<Action>, log': seq<Action>, pair: string) {
    log' != [] && log' == log + [Last(log')] && Elsewhere(Last(log'), pair)
  }

  lemma LineStays(st: State, st': State, pair: string)
    requires InLine(st, pair) && Queue(st', pair) == Queue(st, pair)
    requires forall i {:trigger Queue(st, pair)[i]} :: 0 <= i < |Queue(st, pair)| ==>
               Get(st'.open, Queue(st, pair)[i]) == Get(st.open, Queue(st, pair)[i])
    requires st'.log == st.log || LogsElsewhere(st.log, st'.log, pair)
    ensures InLine(st', pair)
  {
    if st'.log != st.log {
      LogGrows(st.log, Last(st'.log), pair);
    }
  }

  lemma LinedPush(starts: seq<Span>, calls: seq<Call>, queue: seq<string>, open: map<string, Span>, span: Span)
    requires Lined(starts, calls, queue, open) && span.key !in open
    ensures Lined(starts + [span], calls, queue + [span.key], open[span.key := span])
  {
  }

  lemma LineGrows(st: State, st': State, span: Span, parent: Option<Span>, pair: string)
    requires InLine(st, pair) && span.key !in st.open && span.kind == Queued(pair)
    requires st'.open == st.open[span.key := span] && st'.log == st.log + [Started(span, parent)]
    requires Queue(st', pair) == Queue(st, pair) + [span.key]
    ensures InLine(st', pair)
  {
    LogGrows(st.log, Started(span, parent), pair);
    LinedPush(QueuedStarts(st.log, pair), QueuedCalls(st.log, pair), Queue(st, pair), st.open, span);
  }

  lemma LinedPop(
      starts: seq<Span>, calls: seq<Call>, queue: seq<string>, open: map<string, Span>, pair: string, ts: int)
    requires Lined(starts, calls, queue, open) && QueueOk(open, pair, queue) && queue != []
    ensures Lined(starts, calls + [Call(open[queue[0]], ts)], queue[1..], open - {queue[0]})
  {
  }

  lemma LineShrinks(st: State, st': State, pair: string, ts: int)
    requires InLine(st, pair) && QueueOk(st.open, pair, Queue(st, pair)) && Queue(st, pair) != []
    requires var key := Queue(st, pair)[0];
             st'.open == st.open - {key} && st'.log == st.log + [Ended(st.open[key], Some(ts))]
    requires Queue(st', pair) == Queue(st, pair)[1..]
    ensures InLine(st', pair)
  {
    LogGrows(st.log, Ended(st.open[Queue(st, pair)[0]], Some(ts)), pair);
    LinedPop(QueuedStarts(st.log, pair), QueuedCalls(st.log, pair), Queue(st, pair), st.open, pair, ts);
  }

  /** A step that is no tool event leaves the queues alone and logs nothing about queued spans. */
  lemma PlainStepLogs(ids: set<string>, st: State, e: Event, pair: string)
    requires Paired(ids, st) && Typed(ids, e) && !e.ToolStart? && !e.ToolEnd?
    ensures var st' := Step(st, e);
            && st'.queues == st.queues
            && (st'.log == st.log || LogsElsewhere(st.log, st'.log, pair))
  {
    if e.PhaseStart? || e.PhaseEnd? { PhaseKeyShape(ids, e.spanId, e.invocation); }
  }

  lemma PlainStepInLine(ids: set<string>, st: State, e: Event, pair: string)
    requires Paired(ids, st) && InLine(st, pair) && Typed(ids, e) && !e.ToolStart? && !e.ToolEnd?
    ensures InLine(Step(st, e), pair)
  {
    PlainStepLogs(ids, st, e, pair);
    StepPaired(ids, st, e);
    QueueIsOk(st, pair);
    LineStays(st, Step(st, e), pair);
  }

  lemma ToolStartInLine(ids: set<string>, st: State, e: Event, pair: string)
    requires Paired(ids, st) && InLine(st, pair) && e.ToolStart? && e.spanId in ids
    ensures InLine(StartTool(st, e), pair)
  {
    var span := ToolSpan(st, e);
    ToolOpens(ids, st, e);
    if span.kind == Queued(pair) {
      LineGrows(st, StartTool(st, e), span, Get(st.open, e.spanId), pair);
    } else {
      QueueIsOk(st, pair);
      LineStays(st, StartTool(st, e), pair);
    }
  }

  lemma NotedInLine(st: State, spanId: string, pair: string)
    requires InLine(st, pair)
    ensures InLine(Attach(st, spanId), pair)
  {
    LineStays(st, Attach(st, spanId), pair);
  }

  lemma NamedEndInLine(ids: set<string>, st: State, e: Event, pair: string)
    requires Paired(ids, st) && InLine(st, pair) && e.ToolEnd? && Takes(st, e).ById?
    ensures InLine(EndTool(st, e), pair)
  {
    ToolCloses(ids, st, e);
    QueueIsOk(st, pair);
    ClosedElsewhere(st, EndTool(st, e), st.byId[Takes(st, e).id], e.ts, pair);
  }

  lemma QueuedEndInLine(ids: set<string>, st: State, e: Event, pair: string)
    requires Paired(ids, st) && InLine(st, pair) && e.ToolEnd? && Takes(st, e).ByOrder?
    ensures InLine(EndTool(st, e), pair)
  {
    var p := Takes(st, e).pair;
    ToolCloses(ids, st, e);
    QueueIsOk(st, pair);
    if p == pair {
      LineShrinks(st, EndTool(st, e), pair, e.ts);
    } else {
      ClosedElsewhere(st, EndTool(st, e), Queue(st, p)[0], e.ts, pair);
    }
  }

  lemma ToolEndInLine(ids: set<string>, st: State, e: Event, pair: string)
    requires Paired(ids, st) && InLine(st, pair) && e.ToolEnd?
    ensures InLine(EndTool(st, e), pair)
  {
    match Takes(st, e)
    case ById(_) => NamedEndInLine(ids, st, e, pair);
    case ByOrder(_) => QueuedEndInLine(ids, st, e, pair);
    case Nothing => NotedInLine(st, e.spanId, pair);
  }

  lemma ClosedElsewhere(st: State, st': State, key: string, ts: int, pair: string)
    requires InLine(st, pair) && QueueOk(st.open, pair, Queue(st, pair)) && Queue(st', pair) == Queue(st, pair)
    requires key in st.open && st.open[key].kind != Queued(pair)
    requires st'.open == st.open - {key} && st'.log == st.log + [Ended(st.open[key], Some(ts))]
    ensures InLine(st', pair)
  {
    OthersStay(st.open, Queue(st, pair), pair, key);
    LineStays(st, st', pair);
  }

  /** Closing a span of another register leaves the queue's spans open. */
  lemma OthersStay(open: map<string, Span>, queue: seq<string>, pair: string, key: string)
    requires QueueOk(open, pair, queue) && key in open && open[key].kind != Queued(pair)
    ensures forall i {:trigger queue[i]} :: 0 <= i < |queue| ==> Get(open - {key}, queue[i]) == Get(open, queue[i])
  {
  }

  lemma {:induction false} RunInLine(ids: set<string>, es: seq<Event>, pair: string)
    requires Separate(ids) && AllTyped(ids, es)
    ensures InLine(Run(Initial, es), pair)
  {
    if es != [] {
      RunPaired(ids, Front(es));
      RunInLine(ids, Front(es), pair);
      var st, e := Run(Initial, Front(es)), Last(es);
      match e {
        case ToolStart(_, _, _, _) => ToolStartInLine(ids, st, e, pair);
        case ToolEnd(_, _, _, _) => ToolEndInLine(ids, st, e, pair);
        case _ => PlainStepInLine(ids, st, e, pair);
      }
    }
  }

  // ---------------------------------------------------------------- what tool ends close

  /** Tool ends of the stream leave every run, phase, agent, child and invocation span open. */
  ghost predicate ToolEndsCloseToolSpans(es: seq<Event>) {
    forall i :: 0 <= i < |es| && es[i].ToolEnd? ==>
      KeepsOthers(Run(Initial, es[..i]).open, Step(Run(Initial, es[..i]), es[i]).open)
  }

  lemma SeparateIdsAreSafe(ids: set<string>, es: seq<Event>)
    requires Separate(ids) && AllTyped(ids, es)
    ensures ToolEndsCloseToolSpans(es)
  {
    forall i | 0 <= i < |es| && es[i].ToolEnd?
      ensures KeepsOthers(Run(Initial, es[..i]).open, Step(Run(Initial, es[..i]), es[i]).open)
    {
      RunPaired(ids, es[..i]);
      StepPaired(ids, Run(Initial, es[..i]), es[i]);
    }
  }

  function MintedKeys(s: string, n: nat): set<string> {
    if n == 0 then {} else MintedKeys(s, n - 1) + {ToolKey(s, n - 1)}
  }

  lemma {:induction false} LaterKeyIsNew(s: string, n: nat, m: nat)
    requires m >= n
    ensures ToolKey(s, m) !in MintedKeys(s, n)
  {
    if n > 0 {
      LaterKeyIsNew(s, n - 1, m);
      if ToolKey(s, m) == ToolKey(s, n - 1) { TaggedInjective(s, m, s, n - 1, "tool"); }
    }
  }

  lemma MintsOne(st: State, s: string)
    ensures var st' := Step(st, ToolStart(s, "t", None, 0));
            st'.minted == st.minted + 1 && st'.open.Keys <= st.open.Keys + {ToolKey(s, st.minted)}
  {
  }

  lemma RunMintsOne(es: seq<Event>, s: string)
    ensures var st, st' := Run(Initial, es), Run(Initial, es + [ToolStart(s, "t", None, 0)]);
            st'.minted == st.minted + 1 && st'.open.Keys <= st.open.Keys + {ToolKey(s, st.minted)}
  {
    RunAppend(es, ToolStart(s, "t", None, 0));
    MintsOne(Run(Initial, es), s);
  }

  /** Some stream mints the first `n` tool keys of a span id. */
  lemma MintingStream(ids: set<string>, s: string, n: nat) returns (es: seq<Event>)
    requires s in ids
    ensures AllTyped(ids, es) && Run(Initial, es).minted == n && ToolKey(s, n) !in Run(Initial, es).open
  {
    es := [];
    for m := 0 to n
      invariant AllTyped(ids, es) && Run(Initial, es).minted == m
      invariant Run(Initial, es).open.Keys <= MintedKeys(s, m)
    {
      RunMintsOne(es, s);
      es := es + [ToolStart(s, "t", None, 0)];
    }
    LaterKeyIsNew(s, n, n);
  }

  /** The scope that takes the next tool key's spelling is closed by that tool's end. */
  lemma MistakenScope(s: string, st: State)
    requires ToolKey(s, st.minted) !in st.open
    ensures var key := ToolKey(s, st.minted);
            var st2 := Step(Step(st, Opener(key, None, 0)), ToolStart(s, "t", Some("x"), 0));
            && key in st2.open && st2.open[key].kind == Scope
            && key !in Step(st2, ToolEnd(s, "t", Some("x"), 0)).open
  {
  }

  lemma RunAppend(es: seq<Event>, e: Event)
    ensures Run(Initial, es + [e]) == Step(Run(Initial, es), e)
  {
    assert Front(es + [e]) == es;
  }

  lemma ScopeClosed(es: seq<Event>, end: Event, key: string)
    requires end.ToolEnd? && key in Run(Initial, es).open && !Run(Initial, es).open[key].kind.IsTool()
    requires key !in Step(Run(Initial, es), end).open
    ensures !ToolEndsCloseToolSpans(es + [end])
  {
    var all := es + [end];
    assert all[..|es|] == es && all[|es|] == end;
    assert !KeepsOthers(Run(Initial, all[..|es|]).open, Step(Run(Initial, all[..|es|]), all[|es|]).open);
  }

  /** After any stream, opening a scope under the key that is minted next makes that tool's end close it. */
  lemma MistakenEnd(es: seq<Event>, s: string, key: string)
    requires key == ToolKey(s, Run(Initial, es).minted) && key !in Run(Initial, es).open
    ensures !ToolEndsCloseToolSpans(
              es + [Opener(key, None, 0)] + [ToolStart(s, "t", Some("x"), 0)] + [ToolEnd(s, "t", Some("x"), 0)])
  {
    var opener, start := Opener(key, None, 0), ToolStart(s, "t", Some("x"), 0);
    MistakenScope(s, Run(Initial, es));
    RunAppend(es, opener);
    RunAppend(es + [opener], start);
    ScopeClosed(es + [opener] + [start], ToolEnd(s, "t", Some("x"), 0), key);
  }

  lemma UnsafeStream(ids: set<string>, s: string, n: nat) returns (es: seq<Event>)
    requires s in ids && ToolKey(s, n) in ids
    ensures AllTyped(ids, es) && !ToolEndsCloseToolSpans(es)
  {
    var key := ToolKey(s, n);
    var before := MintingStream(ids, s, n);
    MistakenEnd(before, s, key);
    es := before + [Opener(key, None, 0)] + [ToolStart(s, "t", Some("x"), 0)] + [ToolEnd(s, "t", Some("x"), 0)];
  }

  /**
   Over a set of span ids, every stream's tool ends leave the other spans
   alone if and only if no span id is spelled like a tool key of another.
   */
  lemma ToolEndsAreSafeExactly(ids: set<string>)
    ensures Separate(ids) <==> forall es :: AllTyped(ids, es) ==> ToolEndsCloseToolSpans(es)
  {
    if Separate(ids) {
      forall es | AllTyped(ids, es) ensures ToolEndsCloseToolSpans(es) {
        SeparateIdsAreSafe(ids, es);
      }
    } else {
      var key :| key in ids && ToolShaped(ids, key);
      var s, n: nat :| s in ids && key == ToolKey(s, n);
      var es := UnsafeStream(ids, s, n);
    }
  }

  /** With a '#' in a span id, a tool end can close an agent span. */
  lemma HashedSpanIdIsMistaken()
    ensures var es := [Opener("a#tool0", None, 0), ToolStart("a", "t", None, 1), ToolEnd("a", "t", None, 2)];
            && Run(Initial, es[..2]).open == map["a#tool0" := Span(0, "a#tool0", Scope, 0)]
            && Run(Initial, es).open == map[]
  {
    var es := [Opener("a#tool0", None, 0), ToolStart("a", "t", None, 1), ToolEnd("a", "t", None, 2)];
    assert ToolKey("a", 0) == "a#tool0" by {
      assert Decimal(0) == "0";
      assert ToolKey("a", 0) == "a" + "#" + "tool" + "0";
    }
    assert Front(es) == es[..2] && Front(es[..2]) == es[..1] && Front(es[..1]) == [];
    var st1, st2 := Run(Initial, es[..1]), Run(Initial, es[..2]);
    assert st1 == Step(Initial, es[0]) && st1.minted == 0 && "a#tool0" in st1.open;
    assert st2 == StartTool(st1, es[1]);
    assert st2.open == st1.open && Queue(st2, Joined("a", "t")) == ["a#tool0"];
    assert Run(Initial, es) == EndQueued(st2, es[2]);
  }

  /**
   Without ids: the spans closed under one (span id, tool name) are the spans
   started under it, in the same order; what is left over is the queue.
   */
  lemma KthEndClosesKthStart(ids: set<string>, es: seq<Event>, pair: string)
    requires Separate(ids) && AllTyped(ids, es)
    ensures var st := Run(Initial, es);
            var starts, calls := QueuedStarts(st.log, pair), QueuedCalls(st.log, pair);
            && |starts| == |calls| + |Queue(st, pair)|
            && (forall k {:trigger calls[k]} :: 0 <= k < |calls| ==> calls[k].span == starts[k])
            && (forall i {:trigger Queue(st, pair)[i]} :: 0 <= i < |Queue(st, pair)| ==>
                  Get(st.open, Queue(st, pair)[i]) == Some(starts[|calls| + i]))
  {
    RunInLine(ids, es, pair);
  }

  /** `s` continued by a space and more text is `s'`, and `x` starts with that text and a space before `x'`. */
  ghost predicate Shifted(s: string, x: string, s': string, x': string) {
    exists y: string :: s' == s + " " + y && x == y + " " + x'
  }

  lemma ShiftedJoins(s: string, x: string, s': string, x': string)
    requires Shifted(s, x, s', x')
    ensures Joined(s, x) == Joined(s', x')
  {
    var y: string :| s' == s + " " + y && x == y + " " + x';
    assert Joined(s, x) == s + " " + y + " " + x';
    assert Joined(s', x') == s + " " + y + " " + x';
  }

  lemma JoinsShifted(s: string, x: string, s': string, x': string)
    requires Joined(s, x) == Joined(s', x') && |s| <= |s'|
    ensures (s == s' && x == x') || Shifted(s, x, s', x')
  {
    var j := Joined(s, x);
    assert s == j[..|s|] == s'[..|s|] && x == j[|s| + 1..] && x' == j[|s'| + 1..];
    if |s| < |s'| {
      var y := s'[|s| + 1..];
      assert s'[|s|] == j[|s|] == ' ';
      assert s' == s + " " + y;
      assert x == j[|s| + 1..|s'|] + [j[|s'|]] + j[|s'| + 1..] && j[|s'|] == ' ';
      assert y == j[|s| + 1..|s'|];
      assert x == y + " " + x';
    }
  }

  /**
   Exactly when two (span id, tool name) pairs, or (span id, call id) pairs,
   share a register entry: when they are the same, or differ only in where
   one space is taken to be the separator.
   */
  lemma JoinedExactly(s: string, x: string, s': string, x': string)
    ensures Joined(s, x) == Joined(s', x')
            <==> (s == s' && x == x') || Shifted(s, x, s', x') || Shifted(s', x', s, x)
  {
    if Joined(s, x) == Joined(s', x') {
      if |s| <= |s'| { JoinsShifted(s, x, s', x'); } else { JoinsShifted(s', x', s, x); }
    } else {
      if Shifted(s, x, s', x') { ShiftedJoins(s, x, s', x'); }
      if Shifted(s', x', s, x) { ShiftedJoins(s', x', s, x); }
    }
  }

  /** So span ids without spaces keep every class and every call id apart. */
  lemma JoinedInjective(s: string, x: string, s': string, x': string)
    requires ' ' !in s && ' ' !in s' && Joined(s, x) == Joined(s', x')
    ensures s == s' && x == x'
  {
    JoinedExactly(s, x, s', x');
    assert forall y: string, z: string :: (z + " " + y)[|z|] == ' ';
  }

  lemma SpacedSpanIdsShareAQueue()
    ensures Joined("a b", "c") == Joined("a", "b c")
  {
    assert Joined("a b", "c") == "a b c";
    assert Joined("a", "b c") == "a b c";
  }

  // ---------------------------------------------------------------- ends that carry an id

  predicate Touches(e: Event, id: string) {
    (e.ToolStart? || e.ToolEnd?) && e.callId.Some? && Joined(e.spanId, e.callId.value) == id
  }

  ghost predicate Waiting(st: State, id: string, span: Span) {
    span.kind == Named(id) && Live(st.open, span) && Get(st.byId, id) == Some(span.key)
  }

  lemma StepWaits(ids: set<string>, st: State, e: Event, id: string, span: Span)
    requires Paired(ids, st) && Typed(ids, e) && Waiting(st, id, span) && !Touches(e, id)
    ensures Waiting(Step(st, e), id, span)
  {
    match e
    case ToolStart(_, _, _, _) => ToolOpens(ids, st, e);
    case ToolEnd(_, _, _, _) => ToolCloses(ids, st, e);
    case _ => StepPaired(ids, st, e);
  }

  lemma {:induction false} RunWaits(ids: set<string>, es: seq<Event>, mid: seq<Event>, id: string, span: Span)
    requires Separate(ids) && AllTyped(ids, es + mid) && Waiting(Run(Initial, es), id, span)
    requires forall i :: 0 <= i < |mid| ==> !Touches(mid[i], id)
    ensures Waiting(Run(Initial, es + mid), id, span)
  {
    if mid == [] {
      assert es + mid == es;
    } else {
      assert Front(es + mid) == es + Front(mid) && Last(es + mid) == Last(mid);
      RunWaits(ids, es, Front(mid), id, span);
      RunPaired(ids, es + Front(mid));
      StepWaits(ids, Run(Initial, es + Front(mid)), Last(mid), id, span);
    }
  }

  /**
   With ids: however many calls of the same tool are in flight, an end closes
   the span its own id opened, provided no other call used that id meanwhile.
   */
  lemma NamedEndClosesItsStart(ids: set<string>, es: seq<Event>, start: Event, mid: seq<Event>, end: Event)
    requires start.ToolStart? && start.callId.Some? && end.ToolEnd? && end.callId == start.callId
    requires start.spanId == end.spanId
    requires Separate(ids) && AllTyped(ids, es + [start] + mid) && Typed(ids, end)
    requires forall i :: 0 <= i < |mid| ==> !Touches(mid[i], Joined(start.spanId, start.callId.value))
    ensures var before := Run(Initial, es);
            var span := ToolSpan(before, start);
            Run(Initial, es + [start] + mid + [end]).log
            == Run(Initial, es + [start] + mid).log + [Ended(span, Some(end.ts))]
  {
    var id, most := Joined(start.spanId, start.callId.value), es + [start] + mid;
    assert forall i :: 0 <= i < |es| ==> es[i] == most[i];
    RunPaired(ids, es);
    StartWaits(ids, Run(Initial, es), start, id);
    assert Front(es + [start]) == es;
    var span := ToolSpan(Run(Initial, es), start);
    RunWaits(ids, es + [start], mid, id, span);
    RunPaired(ids, most);
    WaitingIsClosed(ids, Run(Initial, most), end, id, span);
    assert Front(most + [end]) == most;
  }

  lemma StartWaits(ids: set<string>, st: State, e: Event, id: string)
    requires Paired(ids, st) && e.ToolStart? && e.spanId in ids
    requires e.callId.Some? && Joined(e.spanId, e.callId.value) == id
    ensures Waiting(Step(st, e), id, ToolSpan(st, e))
  {
    ToolOpens(ids, st, e);
  }

  lemma WaitingIsClosed(ids: set<string>, st: State, e: Event, id: string, span: Span)
    requires Paired(ids, st) && Waiting(st, id, span)
    requires e.ToolEnd? && e.callId.Some? && Joined(e.spanId, e.callId.value) == id
    ensures Step(st, e).log == st.log + [Ended(span, Some(e.ts))]
  {
    ToolCloses(ids, st, e);
  }

  // ---------------------------------------------------------------- durations

  ghost predicate TimeOrdered(es: seq<Event>) {
    forall i, j :: 0 <= i < j < |es| ==> es[i].ts <= es[j].ts
  }

  function StartTimes(starts: seq<Span>): (r: seq<int>)
    ensures |r| == |starts| && forall i :: 0 <= i < |r| ==> r[i] == starts[i].start
  {
    seq(|starts|, i requires 0 <= i < |starts| => starts[i].start)
  }

  function EndTimes(calls: seq<Call>): (r: seq<int>)
    ensures |r| == |calls| && forall i :: 0 <= i < |r| ==> r[i] == calls[i].end
  {
    seq(|calls|, i requires 0 <= i < |calls| => calls[i].end)
  }

  /** What the trace shows for the calls of one class. */
  function Reported(calls: seq<Call>): (r: seq<int>)
    ensures |r| == |calls| && forall i :: 0 <= i < |r| ==> r[i] == calls[i].end - calls[i].span.start
  {
    seq(|calls|, i requires 0 <= i < |calls| => calls[i].end - calls[i].span.start)
  }

  ghost predicate SortedUpTo(s: seq<int>, now: int) {
    ToolPairing.Sorted(s) && forall i :: 0 <= i < |s| ==> s[i] <= now
  }

  ghost predicate Timely(st: State, pair: string, now: int) {
    && (forall k :: k in st.open ==> st.open[k].start <= now)
    && SortedUpTo(StartTimes(QueuedStarts(st.log, pair)), now)
    && SortedUpTo(EndTimes(QueuedCalls(st.log, pair)), now)
    && (forall i :: 0 <= i < |QueuedCalls(st.log, pair)| ==> Reported(QueuedCalls(st.log, pair))[i] >= 0)
  }

  /** Everything a step does to the open spans and the log carries the event's own time. */
  lemma StepStamps(st: State, e: Event)
    ensures var st' := Step(st, e);
            && (forall k :: k in st'.open ==> (k in st.open && st'.open[k] == st.open[k]) || st'.open[k].start == e.ts)
            && (st'.log == st.log
                || (&& st'.log != [] && st'.log == st.log + [Last(st'.log)]
                    && match Last(st'.log)
                       case Started(span, _) => span.start == e.ts
                       case Ended(span, at) => at == Some(e.ts) && exists k :: k in st.open && st.open[k] == span
                       case Noted(_) => true))
  {
  }

  lemma StepTimely(st: State, e: Event, pair: string, now: int)
    requires Timely(st, pair, now) && now <= e.ts
    ensures Timely(Step(st, e), pair, e.ts)
  {
    var st' := Step(st, e);
    StepStamps(st, e);
    assert forall k :: k in st'.open ==> st'.open[k].start <= e.ts;
    var starts, calls := QueuedStarts(st.log, pair), QueuedCalls(st.log, pair);
    if st'.log != st.log {
      var a := Last(st'.log);
      LogGrows(st.log, a, pair);
      if a.Started? { StartInTime(starts, a.span, now, e.ts); }
      if a.Ended? { EndInTime(calls, a.span, now, e.ts); }
    }
    InTimeLater(StartTimes(starts), now, e.ts);
    InTimeLater(EndTimes(calls), now, e.ts);
  }

  lemma InTimeLater(s: seq<int>, now: int, ts: int)
    requires SortedUpTo(s, now) && now <= ts
    ensures SortedUpTo(s, ts)
  {
  }

  lemma StartInTime(starts: seq<Span>, span: Span, now: int, ts: int)
    requires SortedUpTo(StartTimes(starts), now) && now <= ts && span.start == ts
    ensures SortedUpTo(StartTimes(starts + [span]), ts)
  {
    assert StartTimes(starts + [span]) == StartTimes(starts) + [ts];
  }

  lemma EndInTime(calls: seq<Call>, span: Span, now: int, ts: int)
    requires SortedUpTo(EndTimes(calls), now) && now <= ts && span.start <= now
    requires forall i :: 0 <= i < |calls| ==> Reported(calls)[i] >= 0
    ensures SortedUpTo(EndTimes(calls + [Call(span, ts)]), ts)
    ensures forall i :: 0 <= i < |calls| + 1 ==> Reported(calls + [Call(span, ts)])[i] >= 0
  {
    assert EndTimes(calls + [Call(span, ts)]) == EndTimes(calls) + [ts];
    assert Reported(calls + [Call(span, ts)]) == Reported(calls) + [ts - span.start];
  }

  lemma {:induction false} RunTimely(es: seq<Event>, pair: string, now: int)
    requires TimeOrdered(es) && forall i :: 0 <= i < |es| ==> es[i].ts <= now
    ensures Timely(Run(Initial, es), pair, now)
  {
    if es != [] {
      RunTimely(Front(es), pair, Last(es).ts);
      StepTimely(Run(Initial, Front(es)), Last(es), pair, Last(es).ts);
    }
  }

  /**
   The durations the trace reports for one class of id-less calls, once all
   of them have ended, against the calls' own start times `t` (any
   arrangement of the starts over the ends): none is negative, the total is
   the true total, and the multiset is the true one exactly when no two of
   the calls strictly nest.
   */
  lemma ReportedDurations(ids: set<string>, es: seq<Event>, pair: string, t: seq<int>)
    requires Separate(ids) && AllTyped(ids, es) && TimeOrdered(es) && Queue(Run(Initial, es), pair) == []
    requires multiset(t) == multiset(StartTimes(QueuedStarts(Run(Initial, es).log, pair)))
    ensures var calls := QueuedCalls(Run(Initial, es).log, pair);
            && |t| == |calls|
            && (forall i :: 0 <= i < |calls| ==> Reported(calls)[i] >= 0)
            && ToolPairing.Total(Reported(calls)) == ToolPairing.Total(ToolPairing.Durations(EndTimes(calls), t))
            && (multiset(Reported(calls)) == multiset(ToolPairing.Durations(EndTimes(calls), t))
                <==> !ToolPairing.Nested(EndTimes(calls), t))
  {
    var log := Run(Initial, es).log;
    KthEndClosesKthStart(ids, es, pair);
    RunTimely(es, pair, if es == [] then 0 else Last(es).ts);
    LineDurations(QueuedStarts(log, pair), QueuedCalls(log, pair), t);
  }

  lemma LineDurations(starts: seq<Span>, calls: seq<Call>, t: seq<int>)
    requires |starts| == |calls| && forall k :: 0 <= k < |calls| ==> calls[k].span == starts[k]
    requires ToolPairing.Sorted(StartTimes(starts)) && ToolPairing.Sorted(EndTimes(calls))
    requires multiset(t) == multiset(StartTimes(starts))
    ensures |t| == |calls|
    ensures ToolPairing.Total(Reported(calls)) == ToolPairing.Total(ToolPairing.Durations(EndTimes(calls), t))
    ensures multiset(Reported(calls)) == multiset(ToolPairing.Durations(EndTimes(calls), t))
            <==> !ToolPairing.Nested(EndTimes(calls), t)
  {
    ToolPairing.SameSize(t, StartTimes(starts));
    assert Reported(calls) == ToolPairing.Durations(EndTimes(calls), StartTimes(starts));
    ToolPairing.FifoDurationsExactly(EndTimes(calls), t, StartTimes(starts));
  }
}

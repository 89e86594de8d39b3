/**
 The trace exporter: a stream of run events opens and closes spans on a
 tracer, keyed by span id, by (span id, invocation) for phase activations and
 by a minted key for every tool execution. Tool ends find their start through
 the call id when both carry one, otherwise through a first-in-first-out
 queue per (span id, tool name).

 The tracer is represented by the log of calls made to it.
 */
module SpanExporter {
  import opened Prelude

  /** What opened a span; a tool span also records the register its key went to. */
  datatype Kind = Scope | Invocation | Queued(pair: string) | Named(id: string) {
    predicate IsTool() {
      Queued? || Named?
    }
  }

  datatype Span = Span(number: nat, key: string, kind: Kind, start: int)

  /** A call on the tracer or on one of its spans; leftovers end without a time of their own. */
  datatype Action =
    | Started(span: Span, parent: Option<Span>)
    | Ended(span: Span, at: Option<int>)
    | Noted(span: Span)

  /**
   `Opener` is run, phase, agent or child start and `Closer` the matching
   end; `Payload` is every event that only carries data. `invocation` is the
   rendered invocation number.
   */
  datatype Event =
    | Opener(spanId: string, parentSpanId: Option<string>, ts: int)
    | Closer(spanId: string, ts: int)
    | PhaseStart(spanId: string, invocation: string, ts: int)
    | PhaseEnd(spanId: string, invocation: string, ts: int)
    | ToolStart(spanId: string, toolName: string, callId: Option<string>, ts: int)
    | ToolEnd(spanId: string, toolName: string, callId: Option<string>, ts: int)
    | Payload(spanId: string, ts: int)

  datatype State = State(
    open: map<string, Span>,
    stack: seq<Span>,
    created: nat,
    minted: nat,
    queues: map<string, seq<string>>,
    byId: map<string, string>,
    log: seq<Action>)

  const Initial: State := State(map[], [], 0, 0, map[], map[], [])

  function PhaseKey(spanId: string, invocation: string): string {
    spanId + "#" + invocation
  }

  function ToolKey(spanId: string, n: nat): string {
    Tagged(spanId, "tool", n)
  }

  /** Joins a span id with a tool name, and likewise with a call id. */
  function Joined(spanId: string, name: string): string {
    spanId + " " + name
  }

  function Get<V>(m: map<string, V>, key: string): Option<V> {
    if key in m then Some(m[key]) else None
  }

  function Queue(st: State, pair: string): seq<string> {
    if pair in st.queues then st.queues[pair] else []
  }

  function LastIndexOf(stack: seq<Span>, span: Span): (i: int)
    ensures -1 <= i < |stack|
    ensures i >= 0 ==> stack[i] == span
    ensures i < 0 ==> span !in stack
  {
    if stack == [] then -1
    else if Last(stack) == span then |stack| - 1
    else LastIndexOf(Front(stack), span)
  }

  function Spliced(stack: seq<Span>, span: Span): seq<Span> {
    var i := LastIndexOf(stack, span);
    if i < 0 then stack else stack[..i] + stack[i + 1..]
  }

  // ---------------------------------------------------------------- steps

  function StartSpan(st: State, key: string, kind: Kind, parentKey: Option<string>, ts: int): State {
    if key in st.open then st
    else
      var span := Span(st.created, key, kind, ts);
      var parent := if parentKey.Some? then Get(st.open, parentKey.value) else None;
      st.(open := st.open[key := span],
          stack := st.stack + [span],
          created := st.created + 1,
          log := st.log + [Started(span, parent)])
  }

  function EndSpan(st: State, key: string, ts: int): State {
    if key !in st.open then st
    else
      var span := st.open[key];
      st.(open := st.open - {key},
          stack := Spliced(st.stack, span),
          log := st.log + [Ended(span, Some(ts))])
  }

  /** A span event on the event's own span when it is open, else on the innermost open span. */
  function Attach(st: State, spanId: string): State {
    if spanId in st.open then st.(log := st.log + [Noted(st.open[spanId])])
    else if st.stack != [] then st.(log := st.log + [Noted(Last(st.stack))])
    else st
  }

  function StartTool(st: State, e: Event): State
    requires e.ToolStart?
  {
    var key := ToolKey(e.spanId, st.minted);
    var st1 := st.(minted := st.minted + 1);
    match e.callId
    case Some(callId) =>
      var id := Joined(e.spanId, callId);
      StartSpan(st1.(byId := st1.byId[id := key]), key, Named(id), Some(e.spanId), e.ts)
    case None =>
      var pair := Joined(e.spanId, e.toolName);
      StartSpan(st1.(queues := st1.queues[pair := Queue(st1, pair) + [key]]), key, Queued(pair), Some(e.spanId), e.ts)
  }

  function EndQueued(st: State, e: Event): State
    requires e.ToolEnd?
  {
    var pair := Joined(e.spanId, e.toolName);
    var queue := Queue(st, pair);
    if queue == [] then Attach(st, e.spanId)
    else EndSpan(st.(queues := st.queues[pair := queue[1..]]), queue[0], e.ts)
  }

  function EndTool(st: State, e: Event): State
    requires e.ToolEnd?
  {
    if e.callId.Some? && Joined(e.spanId, e.callId.value) in st.byId then
      var id := Joined(e.spanId, e.callId.value);
      EndSpan(st.(byId := st.byId - {id}), st.byId[id], e.ts)
    else EndQueued(st, e)
  }

  function Step(st: State, e: Event): State {
    match e
    case Opener(spanId, parent, ts) => StartSpan(st, spanId, Scope, parent, ts)
    case Closer(spanId, ts) => EndSpan(st, spanId, ts)
    case PhaseStart(spanId, n, ts) => StartSpan(st, PhaseKey(spanId, n), Invocation, Some(spanId), ts)
    case PhaseEnd(spanId, n, ts) => EndSpan(st, PhaseKey(spanId, n), ts)
    case ToolStart(_, _, _, _) => StartTool(st, e)
    case ToolEnd(_, _, _, _) => EndTool(st, e)
    case Payload(spanId, _) => Attach(st, spanId)
  }

  function Run(st: State, es: seq<Event>): State {
    if es == [] then st else Step(Run(st, Front(es)), Last(es))
  }

  // ---------------------------------------------------------------- a strict tracer

  /** How many spans were started, and which of them are still live, by key. */
  datatype Tracer = Tracer(started: nat, live: map<string, Span>)

  predicate Live(live: map<string, Span>, span: Span) {
    span.key in live && live[span.key] == span
  }

  /** A tracer that refuses a double start, a double end, and anything done to a span that is not live. */
  function Accept(t: Tracer, a: Action): Option<Tracer> {
    match a
    case Started(span, parent) =>
      if span.number == t.started && span.key !in t.live && (parent.Some? ==> Live(t.live, parent.value))
      then Some(Tracer(t.started + 1, t.live[span.key := span])) else None
    case Ended(span, _) => if Live(t.live, span) then Some(Tracer(t.started, t.live - {span.key})) else None
    case Noted(span) => if Live(t.live, span) then Some(t) else None
  }

  function Replay(log: seq<Action>): Option<Tracer> {
    if log == [] then Some(Tracer(0, map[]))
    else
      var t := Replay(Front(log));
      if t.Some? then Accept(t.value, Last(log)) else None
  }

  lemma ReplayAppend(log: seq<Action>, a: Action)
    requires Replay(log).Some?
    ensures Replay(log + [a]) == Accept(Replay(log).value, a)
  {
    assert Front(log + [a]) == log;
  }

  function Starts(log: seq<Action>, n: nat): nat {
    if log == [] then 0
    else Starts(Front(log), n) + (if Last(log).Started? && Last(log).span.number == n then 1 else 0)
  }

  function Ends(log: seq<Action>, n: nat): nat {
    if log == [] then 0
    else Ends(Front(log), n) + (if Last(log).Ended? && Last(log).span.number == n then 1 else 0)
  }

  function AllEnds(log: seq<Action>): nat {
    if log == [] then 0 else AllEnds(Front(log)) + (if Last(log).Ended? then 1 else 0)
  }

  /** Live spans sit under their own keys and have different numbers, all of them handed out. */
  ghost predicate Numbered(t: Tracer) {
    && (forall k :: k in t.live ==> t.live[k].key == k && t.live[k].number < t.started)
    && (forall k, k' :: k in t.live && k' in t.live && t.live[k].number == t.live[k'].number ==> k == k')
  }

  ghost predicate LiveNumber(t: Tracer, n: nat) {
    exists k :: k in t.live && t.live[k].number == n
  }

  lemma AcceptNumbers(t: Tracer, a: Action)
    requires Numbered(t) && Accept(t, a).Some?
    ensures Numbered(Accept(t, a).value)
    ensures |Accept(t, a).value.live| == |t.live| + (if a.Started? then 1 else if a.Ended? then -1 else 0)
  {
    if a.Ended? {
      assert t.live.Keys == (t.live - {a.span.key}).Keys + {a.span.key};
    }
  }

  lemma AcceptLive(t: Tracer, a: Action, n: nat)
    requires Numbered(t) && Accept(t, a).Some?
    ensures LiveNumber(Accept(t, a).value, n)
            <==> (a.Started? && a.span.number == n) || (LiveNumber(t, n) && !(a.Ended? && a.span.number == n))
  {
    var t' := Accept(t, a).value;
    if a.Started? && a.span.number == n {
      assert t'.live[a.span.key].number == n;
    } else if LiveNumber(t, n) && !(a.Ended? && a.span.number == n) {
      var k :| k in t.live && t.live[k].number == n;
      assert t'.live[k].number == n;
    }
  }

  lemma {:induction false} ReplayNumbers(log: seq<Action>)
    requires Replay(log).Some?
    ensures Numbered(Replay(log).value)
    ensures AllEnds(log) + |Replay(log).value.live| == Replay(log).value.started
  {
    if log != [] {
      ReplayNumbers(Front(log));
      AcceptNumbers(Replay(Front(log)).value, Last(log));
    }
  }

  lemma {:induction false} ReplayCounts(log: seq<Action>, n: nat)
    requires Replay(log).Some?
    ensures var t := Replay(log).value;
            && Starts(log, n) == (if n < t.started then 1 else 0)
            && Ends(log, n) == (if n < t.started && !LiveNumber(t, n) then 1 else 0)
  {
    if log != [] {
      ReplayCounts(Front(log), n);
      ReplayNumbers(Front(log));
      AcceptLive(Replay(Front(log)).value, Last(log), n);
    }
  }

  // ---------------------------------------------------------------- the exporter tracks its spans

  /**
   The tracer accepted every call, and the exporter agrees with it about what
   is open: the stack holds exactly the open spans, each once, oldest first.
   */
  ghost predicate Tracked(st: State) {
    && Replay(st.log) == Some(Tracer(st.created, st.open))
    && Stacked(st.open, st.stack)
  }

  ghost predicate Stacked(open: map<string, Span>, stack: seq<Span>) {
    && KeysOf(stack) == open.Keys
    && (forall i :: 0 <= i < |stack| ==> Live(open, stack[i]))
    && (forall i, j :: 0 <= i < j < |stack| ==> stack[i].number < stack[j].number)
  }

  function KeysOf(stack: seq<Span>): set<string> {
    set i | 0 <= i < |stack| :: stack[i].key
  }

  lemma PushStacked(open: map<string, Span>, stack: seq<Span>, span: Span)
    requires Stacked(open, stack) && span.key !in open
    requires forall k :: k in open ==> open[k].number < span.number
    ensures Stacked(open[span.key := span], stack + [span])
  {
    assert KeysOf(stack + [span]) == KeysOf(stack) + {span.key} by {
      forall k | k in KeysOf(stack) ensures k in KeysOf(stack + [span]) {
        var i :| 0 <= i < |stack| && stack[i].key == k;
        assert (stack + [span])[i].key == k;
      }
      assert (stack + [span])[|stack|].key == span.key;
    }
  }

  lemma StartLogged(log: seq<Action>, created: nat, open: map<string, Span>, span: Span, parent: Option<Span>)
    requires Replay(log) == Some(Tracer(created, open)) && span.number == created && span.key !in open
    requires parent.Some? ==> exists k :: k in open && parent.value == open[k]
    ensures Replay(log + [Started(span, parent)]) == Some(Tracer(created + 1, open[span.key := span]))
    ensures forall k :: k in open ==> open[k].number < created
  {
    ReplayNumbers(log);
    ReplayAppend(log, Started(span, parent));
  }

  lemma StartTracked(st: State, key: string, kind: Kind, parentKey: Option<string>, ts: int)
    requires Tracked(st)
    ensures Tracked(StartSpan(st, key, kind, parentKey, ts))
  {
    if key !in st.open {
      var span := Span(st.created, key, kind, ts);
      var parent := if parentKey.Some? then Get(st.open, parentKey.value) else None;
      StartLogged(st.log, st.created, st.open, span, parent);
      PushStacked(st.open, st.stack, span);
    }
  }

  lemma KeysDrop(stack: seq<Span>, n: nat, r: seq<Span>)
    requires n < |stack| && r == stack[..n] + stack[n + 1..]
    requires forall i :: 0 <= i < |stack| && i != n ==> stack[i].key != stack[n].key
    ensures KeysOf(r) == KeysOf(stack) - {stack[n].key}
  {
    forall k | k in KeysOf(stack) && k != stack[n].key ensures k in KeysOf(r) {
      var i :| 0 <= i < |stack| && stack[i].key == k;
      assert r[if i < n then i else i - 1].key == k;
    }
    forall k | k in KeysOf(r) ensures k in KeysOf(stack) && k != stack[n].key {
      var i :| 0 <= i < |r| && r[i].key == k;
      assert r[i] == stack[if i < n then i else i + 1];
    }
  }

  lemma DropAt(open: map<string, Span>, stack: seq<Span>, n: nat, r: seq<Span>)
    requires Stacked(open, stack) && n < |stack|
    requires r == stack[..n] + stack[n + 1..]
    ensures Stacked(open - {stack[n].key}, r)
  {
    assert forall i :: 0 <= i < |r| ==> r[i] == stack[if i < n then i else i + 1];
    forall i | 0 <= i < |stack| && i != n ensures stack[i].key != stack[n].key {
      assert Live(open, stack[i]) && Live(open, stack[n]) && stack[i].number != stack[n].number;
    }
    KeysDrop(stack, n, r);
    assert (open - {stack[n].key}).Keys == open.Keys - {stack[n].key};
  }

  lemma SpliceStacked(open: map<string, Span>, stack: seq<Span>, key: string)
    requires Stacked(open, stack) && key in open && open[key].key == key
    ensures Stacked(open - {key}, Spliced(stack, open[key]))
  {
    var n := LastIndexOf(stack, open[key]);
    assert key in KeysOf(stack);
    var i :| 0 <= i < |stack| && stack[i].key == key;
    assert Live(open, stack[i]);
    DropAt(open, stack, n, Spliced(stack, open[key]));
  }

  lemma EndLogged(log: seq<Action>, created: nat, open: map<string, Span>, key: string, at: Option<int>)
    requires Replay(log) == Some(Tracer(created, open)) && key in open
    ensures open[key].key == key
    ensures Replay(log + [Ended(open[key], at)]) == Some(Tracer(created, open - {key}))
  {
    ReplayNumbers(log);
    ReplayAppend(log, Ended(open[key], at));
  }

  lemma EndTracked(st: State, key: string, ts: int)
    requires Tracked(st)
    ensures Tracked(EndSpan(st, key, ts))
  {
    if key in st.open {
      EndLogged(st.log, st.created, st.open, key, Some(ts));
      SpliceStacked(st.open, st.stack, key);
    }
  }

  lemma NoteTracked(st: State, span: Span)
    requires Tracked(st) && Live(st.open, span)
    ensures Tracked(st.(log := st.log + [Noted(span)]))
  {
    ReplayAppend(st.log, Noted(span));
  }

  lemma AttachTracked(st: State, spanId: string)
    requires Tracked(st)
    ensures Tracked(Attach(st, spanId))
  {
    if spanId in st.open {
      ReplayNumbers(st.log);
      NoteTracked(st, st.open[spanId]);
    } else if st.stack != [] {
      NoteTracked(st, Last(st.stack));
    }
  }

  lemma StartToolTracked(st: State, e: Event)
    requires Tracked(st) && e.ToolStart?
    ensures Tracked(StartTool(st, e))
  {
    var key := ToolKey(e.spanId, st.minted);
    var st1 := st.(minted := st.minted + 1);
    if e.callId.Some? {
      var id := Joined(e.spanId, e.callId.value);
      StartTracked(st1.(byId := st1.byId[id := key]), key, Named(id), Some(e.spanId), e.ts);
    } else {
      var pair := Joined(e.spanId, e.toolName);
      var st2 := st1.(queues := st1.queues[pair := Queue(st1, pair) + [key]]);
      StartTracked(st2, key, Queued(pair), Some(e.spanId), e.ts);
    }
  }

  lemma EndToolTracked(st: State, e: Event)
    requires Tracked(st) && e.ToolEnd?
    ensures Tracked(EndTool(st, e))
  {
    var pair := Joined(e.spanId, e.toolName);
    var queue := Queue(st, pair);
    if e.callId.Some? && Joined(e.spanId, e.callId.value) in st.byId {
      var id := Joined(e.spanId, e.callId.value);
      EndTracked(st.(byId := st.byId - {id}), st.byId[id], e.ts);
    } else if queue == [] {
      AttachTracked(st, e.spanId);
    } else {
      EndTracked(st.(queues := st.queues[pair := queue[1..]]), queue[0], e.ts);
    }
  }

  lemma StepTracked(st: State, e: Event)
    requires Tracked(st)
    ensures Tracked(Step(st, e))
  {
    match e
    case Opener(spanId, parent, ts) => StartTracked(st, spanId, Scope, parent, ts);
    case Closer(spanId, ts) => EndTracked(st, spanId, ts);
    case PhaseStart(spanId, n, ts) => StartTracked(st, PhaseKey(spanId, n), Invocation, Some(spanId), ts);
    case PhaseEnd(spanId, n, ts) => EndTracked(st, PhaseKey(spanId, n), ts);
    case ToolStart(_, _, _, _) => StartToolTracked(st, e);
    case ToolEnd(_, _, _, _) => EndToolTracked(st, e);
    case Payload(spanId, _) => AttachTracked(st, spanId);
  }

  /** At every point of every stream, foreign and truncated ones included. */
  lemma {:induction false} StackIsOpenSpans(es: seq<Event>)
    ensures Tracked(Run(Initial, es))
  {
    if es == [] {
      assert KeysOf(Initial.stack) == Initial.open.Keys;
    } else {
      StackIsOpenSpans(Front(es));
      StepTracked(Run(Initial, Front(es)), Last(es));
    }
  }

  // ---------------------------------------------------------------- the export

  /** The tail ends exactly the spans that were open and no longer are, without a time of their own. */
  ghost predicate EndsLeftovers(open: map<string, Span>, now: map<string, Span>, tail: seq<Action>) {
    && (forall k :: k in now ==> k in open && now[k] == open[k])
    && (forall i :: 0 <= i < |tail| ==> tail[i].Ended? && tail[i].at == None && Live(open, tail[i].span))
    && (forall k :: k in open && k !in now ==> Ended(open[k], None) in tail)
  }

  /** The tracer took the log and the tail so far, and holds live what is still open. */
  ghost predicate Closing(
    log: seq<Action>, open: map<string, Span>, created: nat, now: map<string, Span>, tail: seq<Action>,
    tracer: seq<Action>)
  {
    && tracer == log + tail
    && Replay(tracer) == Some(Tracer(created, now))
    && EndsLeftovers(open, now, tail)
  }

  lemma NothingClosedYet(log: seq<Action>, open: map<string, Span>, created: nat)
    requires Replay(log) == Some(Tracer(created, open))
    ensures Closing(log, open, created, open, [], log)
  {
    assert log + [] == log;
  }

  lemma LeftoverEnds(
      log: seq<Action>, open: map<string, Span>, created: nat, now: map<string, Span>, tail: seq<Action>,
      tracer: seq<Action>, key: string)
    requires Closing(log, open, created, now, tail, tracer) && key in now
    ensures var ended := Ended(now[key], None);
            Closing(log, open, created, now - {key}, tail + [ended], tracer + [ended])
    ensures |now - {key}| < |now|
  {
    var all := tail + [Ended(now[key], None)];
    assert now.Keys == (now - {key}).Keys + {key};
    EndLogged(tracer, created, now, key, None);
    assert log + all == tracer + [Ended(now[key], None)];
    assert all[|tail|] == Ended(now[key], None);
    forall k | k in open && k !in now - {key} ensures Ended(open[k], None) in all {
      if k != key {
        assert Ended(open[k], None) in tail;
      }
    }
  }

  class Exporter {
    var openBySpanId: map<string, Span>
    var stack: seq<Span>
    var created: nat
    var toolMint: nat
    var openToolPairs: map<string, seq<string>>
    var openToolById: map<string, string>
    var tracer: seq<Action>

    ghost function View(): State
      reads this
    {
      State(openBySpanId, stack, created, toolMint, openToolPairs, openToolById, tracer)
    }

    constructor ()
      ensures View() == Initial
    {
      openBySpanId, stack, created, toolMint := map[], [], 0, 0;
      openToolPairs, openToolById, tracer := map[], map[], [];
    }

    method Start(key: string, kind: Kind, parentKey: Option<string>, ts: int)
      modifies this
      ensures View() == StartSpan(old(View()), key, kind, parentKey, ts)
    {
      if key in openBySpanId {
        return;
      }
      var parent := None;
      if parentKey.Some? && parentKey.value in openBySpanId {
        parent := Some(openBySpanId[parentKey.value]);
      }
      var span := Span(created, key, kind, ts);
      tracer := tracer + [Started(span, parent)];
      created := created + 1;
      openBySpanId := openBySpanId[key := span];
      stack := stack + [span];
    }

    method End(key: string, ts: int)
      modifies this
      ensures View() == EndSpan(old(View()), key, ts)
    {
      if key !in openBySpanId {
        return;
      }
      var span := openBySpanId[key];
      tracer := tracer + [Ended(span, Some(ts))];
      openBySpanId := openBySpanId - {key};
      var i := LastIndexOf(stack, span);
      if i != -1 {
        stack := stack[..i] + stack[i + 1..];
      }
    }

    method AddEvent(spanId: string)
      modifies this`tracer
      ensures View() == Attach(old(View()), spanId)
    {
      if spanId in openBySpanId {
        tracer := tracer + [Noted(openBySpanId[spanId])];
      } else if stack != [] {
        tracer := tracer + [Noted(stack[|stack| - 1])];
      }
    }

    method OnToolStart(e: Event)
      requires e.ToolStart?
      modifies this
      ensures View() == StartTool(old(View()), e)
    {
      var key := ToolKey(e.spanId, toolMint);
      toolMint := toolMint + 1;
      if e.callId.Some? {
        var id := Joined(e.spanId, e.callId.value);
        openToolById := openToolById[id := key];
        Start(key, Named(id), Some(e.spanId), e.ts);
      } else {
        var pair := Joined(e.spanId, e.toolName);
        if pair in openToolPairs {
          openToolPairs := openToolPairs[pair := openToolPairs[pair] + [key]];
        } else {
          openToolPairs := openToolPairs[pair := [key]];
          assert [key] == [] + [key];
        }
        Start(key, Queued(pair), Some(e.spanId), e.ts);
      }
    }

    method OnToolEnd(e: Event)
      requires e.ToolEnd?
      modifies this
      ensures View() == EndTool(old(View()), e)
    {
      var key := None;
      if e.callId.Some? {
        var id := Joined(e.spanId, e.callId.value);
        if id in openToolById {
          key := Some(openToolById[id]);
          openToolById := openToolById - {id};
        }
      }
      var pair := Joined(e.spanId, e.toolName);
      if key == None && pair in openToolPairs && openToolPairs[pair] != [] {
        key := Some(openToolPairs[pair][0]);
        openToolPairs := openToolPairs[pair := openToolPairs[pair][1..]];
      }
      if key == None {
        AddEvent(e.spanId);
      } else {
        End(key.value, e.ts);
      }
    }

    method Handle(e: Event)
      modifies this
      ensures View() == Step(old(View()), e)
    {
      match e
      case Opener(spanId, parent, ts) => Start(spanId, Scope, parent, ts);
      case Closer(spanId, ts) => End(spanId, ts);
      case PhaseStart(spanId, n, ts) => Start(PhaseKey(spanId, n), Invocation, Some(spanId), ts);
      case PhaseEnd(spanId, n, ts) => End(PhaseKey(spanId, n), ts);
      case ToolStart(_, _, _, _) => OnToolStart(e);
      case ToolEnd(_, _, _, _) => OnToolEnd(e);
      case Payload(spanId, _) => AddEvent(spanId);
    }

    method EndLeftover() returns (key: string)
      requires openBySpanId != map[]
      modifies this`openBySpanId, this`tracer
      ensures key in old(openBySpanId) && openBySpanId == old(openBySpanId) - {key}
      ensures tracer == old(tracer) + [Ended(old(openBySpanId)[key], None)]
    {
      key :| key in openBySpanId;
      tracer := tracer + [Ended(openBySpanId[key], None)];
      openBySpanId := openBySpanId - {key};
    }

    /** Ends whatever is still open, in whatever order the map yields it. */
    method CloseLeftovers()
      requires Tracked(View())
      modifies this`openBySpanId, this`tracer
      ensures |old(tracer)| <= |tracer|
      ensures Closing(old(tracer), old(openBySpanId), created, map[], tracer[|old(tracer)|..], tracer)
    {
      ghost var before, open, tail := tracer, openBySpanId, [];
      NothingClosedYet(before, open, created);
      while openBySpanId != map[]
        invariant Closing(before, open, created, openBySpanId, tail, tracer)
        decreases |openBySpanId|
      {
        ghost var now, sofar := openBySpanId, tracer;
        var key := EndLeftover();
        LeftoverEnds(before, open, created, now, tail, sofar, key);
        tail := tail + [Ended(now[key], None)];
      }
    }
  }

  /**
   Exports a stream. Every span the tracer started is ended exactly once, and
   the returned number counts the starts and the ends.
   */
  method Export(events: seq<Event>) returns (created: nat, tracer: seq<Action>)
    ensures var end := Run(Initial, events);
            && end.log <= tracer
            && EndsLeftovers(end.open, map[], tracer[|end.log|..])
    ensures Replay(tracer) == Some(Tracer(created, map[]))
    ensures forall n :: 0 <= n < created ==> Starts(tracer, n) == 1 && Ends(tracer, n) == 1
    ensures forall n :: n >= created ==> Starts(tracer, n) == 0 && Ends(tracer, n) == 0
    ensures AllEnds(tracer) == created
  {
    var x := new Exporter();
    for i := 0 to |events|
      invariant x.View() == Run(Initial, events[..i])
    {
      assert Front(events[..i + 1]) == events[..i];
      x.Handle(events[i]);
    }
    assert events[..|events|] == events;
    StackIsOpenSpans(events);
    x.CloseLeftovers();
    created, tracer := x.created, x.tracer;
    forall n: nat ensures Starts(tracer, n) == Ends(tracer, n) == (if n < created then 1 else 0) {
      ReplayCounts(tracer, n);
    }
    ReplayNumbers(tracer);
  }
}

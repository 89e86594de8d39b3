/**
 What the exporter does, read off the events alone: which key an event opens
 or closes, which span is open under a key, under which parent a span starts,
 and when it ends. The exporter's state and log are proved to agree, over every
 stream of events.
 */
module SpanHistory {
  import opened Prelude
  import opened SpanExporter

  // ---------------------------------------------------------------- reading the history

  function ToolStarts(es: seq<Event>): nat {
    if es == [] then 0 else ToolStarts(Front(es)) + (if Last(es).ToolStart? then 1 else 0)
  }

  function MintedKey(es: seq<Event>): string
    requires es != [] && Last(es).ToolStart?
  {
    ToolKey(Last(es).spanId, ToolStarts(Front(es)))
  }

  /** The key of the last tool started with the call id since a tool ended with it. */
  function Registered(es: seq<Event>, id: string): Option<string> {
    if es == [] then None
    else
      match Last(es)
      case ToolStart(spanId, _, callId, _) =>
        if callId.Some? && Joined(spanId, callId.value) == id then Some(MintedKey(es)) else Registered(Front(es), id)
      case ToolEnd(spanId, _, callId, _) =>
        if callId.Some? && Joined(spanId, callId.value) == id then None else Registered(Front(es), id)
      case _ => Registered(Front(es), id)
  }

  /** A tool end is matched by its call id. */
  predicate ById(before: seq<Event>, e: Event) {
    e.ToolEnd? && e.callId.Some? && Registered(before, Joined(e.spanId, e.callId.value)).Some?
  }

  /** The keys of the tools of one class that started without a call id and were not taken by an end yet. */
  function Waiting(es: seq<Event>, pair: string): seq<string> {
    if es == [] then []
    else
      var before := Waiting(Front(es), pair);
      match Last(es)
      case ToolStart(spanId, toolName, callId, _) =>
        if callId.None? && Joined(spanId, toolName) == pair then before + [MintedKey(es)] else before
      case ToolEnd(spanId, toolName, _, _) =>
        if Joined(spanId, toolName) == pair && !ById(Front(es), Last(es)) && before != [] then before[1..] else before
      case _ => before
  }

  /** The key that an event opens. */
  function Opens(before: seq<Event>, e: Event): Option<string> {
    match e
    case Opener(spanId, _, _) => Some(spanId)
    case PhaseStart(spanId, invocation, _) => Some(PhaseKey(spanId, invocation))
    case ToolStart(spanId, _, _, _) => Some(ToolKey(spanId, ToolStarts(before)))
    case _ => None
  }

  /** The key under whose span it opens it. */
  function Under(e: Event): Option<string> {
    match e
    case Opener(_, parent, _) => parent
    case _ => Some(e.spanId)
  }

  function KindOf(e: Event): Kind {
    match e
    case PhaseStart(_, _, _) => Invocation
    case ToolStart(spanId, toolName, callId, _) =>
      if callId.Some? then Named(Joined(spanId, callId.value)) else Queued(Joined(spanId, toolName))
    case _ => Scope
  }

  /** The key that an event closes. */
  function Closes(before: seq<Event>, e: Event): Option<string> {
    match e
    case Closer(spanId, _) => Some(spanId)
    case PhaseEnd(spanId, invocation, _) => Some(PhaseKey(spanId, invocation))
    case ToolEnd(spanId, toolName, callId, _) =>
      var waiting := Waiting(before, Joined(spanId, toolName));
      if ById(before, e) then Registered(before, Joined(spanId, callId.value))
      else if waiting != [] then Some(waiting[0])
      else None
    case _ => None
  }

  /** The span that is open under the key: of the first event that opens it since one closed it. */
  function OpenSpan(es: seq<Event>, key: string): Option<Span>
    decreases |es|, 0
  {
    if es == [] then None
    else if Closes(Front(es), Last(es)) == Some(key) then None
    else if OpenSpan(Front(es), key).Some? then OpenSpan(Front(es), key)
    else if Opens(Front(es), Last(es)) == Some(key) then Some(NewSpan(es))
    else None
  }

  /** The events that open a key which is not open. */
  function SpansStarted(es: seq<Event>): nat
    decreases |es|, 0
  {
    if es == [] then 0 else SpansStarted(Front(es)) + (if StartsSpan(es) then 1 else 0)
  }

  predicate StartsSpan(es: seq<Event>)
    requires es != []
    decreases |es| - 1, 1
  {
    var key := Opens(Front(es), Last(es));
    key.Some? && OpenSpan(Front(es), key.value).None?
  }

  function NewSpan(es: seq<Event>): Span
    requires es != [] && Opens(Front(es), Last(es)).Some?
    decreases |es| - 1, 1
  {
    Span(SpansStarted(Front(es)), Opens(Front(es), Last(es)).value, KindOf(Last(es)), Last(es).ts)
  }

  // ---------------------------------------------------------------- the exporter agrees

  ghost predicate RegistersAgree(st: State, es: seq<Event>) {
    && st.minted == ToolStarts(es)
    && (forall id :: Get(st.byId, id) == Registered(es, id))
    && (forall pair :: Queue(st, pair) == Waiting(es, pair))
  }

  lemma StartKeepsRegisters(st: State, es: seq<Event>)
    requires es != [] && RegistersAgree(st, Front(es)) && Last(es).ToolStart?
    ensures RegistersAgree(StartTool(st, Last(es)), es)
  {
    assert MintedKey(es) == ToolKey(Last(es).spanId, st.minted);
  }

  lemma EndKeepsRegisters(st: State, es: seq<Event>)
    requires es != [] && RegistersAgree(st, Front(es)) && Last(es).ToolEnd?
    ensures RegistersAgree(EndTool(st, Last(es)), es)
  {
    var e, before := Last(es), Front(es);
    var pair := Joined(e.spanId, e.toolName);
    if e.callId.Some? {
      assert Get(st.byId, Joined(e.spanId, e.callId.value)) == Registered(before, Joined(e.spanId, e.callId.value));
    }
    assert Queue(st, pair) == Waiting(before, pair);
  }

  lemma StepKeepsRegisters(st: State, es: seq<Event>)
    requires es != [] && RegistersAgree(st, Front(es))
    ensures RegistersAgree(Step(st, Last(es)), es)
  {
    var e := Last(es);
    if e.ToolStart? {
      StartKeepsRegisters(st, es);
    } else if e.ToolEnd? {
      EndKeepsRegisters(st, es);
    } else {
      var st' := Step(st, e);
      assert st'.minted == st.minted && st'.byId == st.byId && st'.queues == st.queues;
      assert forall pair :: Queue(st', pair) == Queue(st, pair);
    }
  }

  lemma {:induction false} RegistersAreHistory(es: seq<Event>)
    ensures RegistersAgree(Run(Initial, es), es)
  {
    if es != [] {
      RegistersAreHistory(Front(es));
      StepKeepsRegisters(Run(Initial, Front(es)), es);
    }
  }

  /** What a step does to the open spans and to the log, by the key it opens or closes. */
  lemma StepActs(st: State, before: seq<Event>, e: Event)
    requires RegistersAgree(st, before)
    ensures var st', opens, closes := Step(st, e), Opens(before, e), Closes(before, e);
            && (opens.Some? ==>
                  if opens.value in st.open then st'.open == st.open && st'.log == st.log && st'.created == st.created
                  else
                    var span := Span(st.created, opens.value, KindOf(e), e.ts);
                    var parent := if Under(e).Some? then Get(st.open, Under(e).value) else None;
                    && st'.open == st.open[opens.value := span] && st'.created == st.created + 1
                    && st'.log == st.log + [Started(span, parent)])
            && (closes.Some? ==>
                  && st'.created == st.created
                  && if closes.value in st.open
                     then st'.open == st.open - {closes.value}
                          && st'.log == st.log + [Ended(st.open[closes.value], Some(e.ts))]
                     else st'.open == st.open && st'.log == st.log)
            && (opens.None? && closes.None? ==>
                  && st'.open == st.open && st'.created == st.created
                  && st'.log == Attach(st, e.spanId).log)
  {
  }

  ghost predicate SpansAgree(st: State, es: seq<Event>) {
    && st.created == SpansStarted(es)
    && (forall key :: Get(st.open, key) == OpenSpan(es, key))
  }

  lemma {:induction false} SpansAreHistory(es: seq<Event>)
    ensures SpansAgree(Run(Initial, es), es)
  {
    if es != [] {
      SpansAreHistory(Front(es));
      RegistersAreHistory(Front(es));
      StepActs(Run(Initial, Front(es)), Front(es), Last(es));
      StepKeepsSpans(Run(Initial, Front(es)), Run(Initial, es), es);
    }
  }

  lemma StepKeepsSpans(st: State, st': State, es: seq<Event>)
    requires es != [] && SpansAgree(st, Front(es))
    requires var opens := Opens(Front(es), Last(es));
             opens.Some? ==>
               if opens.value in st.open then st'.open == st.open && st'.created == st.created
               else st'.open == st.open[opens.value := Span(st.created, opens.value, KindOf(Last(es)), Last(es).ts)]
                    && st'.created == st.created + 1
    requires var closes := Closes(Front(es), Last(es));
             closes.Some? ==> st'.open == st.open - {closes.value} && st'.created == st.created
    requires Opens(Front(es), Last(es)).None? && Closes(Front(es), Last(es)).None? ==>
               st'.open == st.open && st'.created == st.created
    ensures SpansAgree(st', es)
  {
    forall key ensures Get(st'.open, key) == OpenSpan(es, key) {
      assert Get(st.open, key) == OpenSpan(Front(es), key);
    }
    var opens := Opens(Front(es), Last(es));
    if opens.Some? {
      assert Get(st.open, opens.value) == OpenSpan(Front(es), opens.value);
    }
  }

  // ---------------------------------------------------------------- the log, event by event

  /** The span that is open under the key the event names as its parent. */
  function ParentSpan(es: seq<Event>): Option<Span>
    requires es != []
  {
    if Under(Last(es)).Some? then OpenSpan(Front(es), Under(Last(es)).value) else None
  }

  /** The span started last of all that are open. */
  ghost predicate Innermost(es: seq<Event>, span: Span) {
    && OpenSpan(es, span.key) == Some(span)
    && forall key :: OpenSpan(es, key).Some? ==> OpenSpan(es, key).value.number <= span.number
  }

  /**
   What one event makes of the log: a key that is not open starts a span under
   the span its parent key has open; a key that is open ends that very span at
   the event's time; an event that opens and closes nothing is noted on its own
   span, else on the innermost one, else nowhere; and nothing else is logged.
   */
  ghost predicate Logs(es: seq<Event>, added: seq<Action>)
    requires es != []
  {
    var before, e := Front(es), Last(es);
    var opens, closes := Opens(before, e), Closes(before, e);
    if opens.Some? then
      added == if StartsSpan(es) then [Started(NewSpan(es), ParentSpan(es))] else []
    else if closes.Some? then
      var span := OpenSpan(before, closes.value);
      added == if span.Some? then [Ended(span.value, Some(e.ts))] else []
    else if OpenSpan(before, e.spanId).Some? then
      added == [Noted(OpenSpan(before, e.spanId).value)]
    else if added == [] then
      forall key :: OpenSpan(before, key).None?
    else
      |added| == 1 && added[0].Noted? && Innermost(before, added[0].span)
  }

  lemma NotesInnermost(st: State, es: seq<Event>, spanId: string)
    requires Tracked(st) && SpansAgree(st, es) && OpenSpan(es, spanId).None?
    ensures st.stack == [] ==> forall key :: OpenSpan(es, key).None?
    ensures st.stack != [] ==> Innermost(es, Last(st.stack))
  {
    forall key | OpenSpan(es, key).Some?
      ensures st.stack != [] && OpenSpan(es, key).value.number <= Last(st.stack).number
    {
      assert Get(st.open, key) == OpenSpan(es, key);
      assert key in KeysOf(st.stack);
      var i :| 0 <= i < |st.stack| && st.stack[i].key == key;
      assert Live(st.open, st.stack[i]);
    }
    if st.stack != [] {
      assert Live(st.open, st.stack[|st.stack| - 1]);
      assert Get(st.open, Last(st.stack).key) == OpenSpan(es, Last(st.stack).key);
    }
  }

  function From(log: seq<Action>, n: nat): seq<Action> {
    if n <= |log| then log[n..] else []
  }

  /** What the last event made of the log. */
  function Added(es: seq<Event>): seq<Action>
    requires es != []
  {
    From(Run(Initial, es).log, |Run(Initial, Front(es)).log|)
  }

  lemma EventLogs(es: seq<Event>)
    requires es != []
    ensures |Run(Initial, Front(es)).log| <= |Run(Initial, es).log|
    ensures Run(Initial, es).log == Run(Initial, Front(es)).log + Added(es)
    ensures Logs(es, Added(es))
  {
    var st, e := Run(Initial, Front(es)), Last(es);
    SpansAreHistory(Front(es));
    RegistersAreHistory(Front(es));
    StackIsOpenSpans(Front(es));
    StepActs(st, Front(es), e);
    StepLogs(st, Run(Initial, es), es);
  }

  lemma StepLogs(st: State, st': State, es: seq<Event>)
    requires es != [] && SpansAgree(st, Front(es)) && Tracked(st)
    requires var opens := Opens(Front(es), Last(es));
             opens.Some? ==>
               var parent := if Under(Last(es)).Some? then Get(st.open, Under(Last(es)).value) else None;
               st'.log == if opens.value in st.open then st.log
                          else st.log + [Started(Span(st.created, opens.value, KindOf(Last(es)), Last(es).ts), parent)]
    requires var closes := Closes(Front(es), Last(es));
             closes.Some? ==>
               st'.log == if closes.value in st.open
                          then st.log + [Ended(st.open[closes.value], Some(Last(es).ts))] else st.log
    requires Opens(Front(es), Last(es)).None? && Closes(Front(es), Last(es)).None? ==>
               st'.log == Attach(st, Last(es).spanId).log
    ensures st.log <= st'.log && Logs(es, st'.log[|st.log|..])
  {
    var before, e := Front(es), Last(es);
    var opens, closes := Opens(before, e), Closes(before, e);
    if opens.Some? {
      assert Get(st.open, opens.value) == OpenSpan(before, opens.value);
      if Under(e).Some? {
        assert Get(st.open, Under(e).value) == OpenSpan(before, Under(e).value);
      }
    } else if closes.Some? {
      assert Get(st.open, closes.value) == OpenSpan(before, closes.value);
    } else {
      assert Get(st.open, e.spanId) == OpenSpan(before, e.spanId);
      if OpenSpan(before, e.spanId).None? {
        NotesInnermost(st, before, e.spanId);
      }
    }
  }

  // ---------------------------------------------------------------- when a span ends

  /** The time of the first event after `es[i]` that closes the key. */
  function ClosedAt(es: seq<Event>, i: nat, key: string): Option<int>
    requires i < |es|
  {
    if |es| == i + 1 then None
    else if ClosedAt(Front(es), i, key).Some? then ClosedAt(Front(es), i, key)
    else if Closes(Front(es), Last(es)) == Some(key) then Some(Last(es).ts)
    else None
  }

  /** Open spans sit under their keys, with numbers given out before; so do all that were logged as ended. */
  lemma {:induction false} SpansAreNumbered(es: seq<Event>, key: string)
    ensures OpenSpan(es, key).Some? ==>
              OpenSpan(es, key).value.key == key && OpenSpan(es, key).value.number < SpansStarted(es)
  {
    if es != [] {
      SpansAreNumbered(Front(es), key);
    }
  }

  lemma {:induction false} EndsAreNumbered(es: seq<Event>, a: Action)
    requires a in Run(Initial, es).log && a.Ended?
    ensures a.span.number < SpansStarted(es) && a.at.Some?
  {
    if es != [] {
      EventLogs(es);
      if a in Run(Initial, Front(es)).log {
        EndsAreNumbered(Front(es), a);
      } else {
        assert a in Added(es);
        SpansAreNumbered(Front(es), Closes(Front(es), Last(es)).value);
      }
    }
  }

  /** The last event ends exactly the span that is open under the key it closes. */
  lemma EventEnds(es: seq<Event>, span: Span, ts: int)
    requires es != []
    ensures Ended(span, Some(ts)) in Run(Initial, es).log
            <==> Ended(span, Some(ts)) in Run(Initial, Front(es)).log
                 || (Closes(Front(es), Last(es)) == Some(span.key) && OpenSpan(Front(es), span.key) == Some(span)
                     && ts == Last(es).ts)
  {
    EventLogs(es);
    var closes := Closes(Front(es), Last(es));
    if closes.Some? {
      SpansAreNumbered(Front(es), closes.value);
      if OpenSpan(Front(es), closes.value).Some? {
        assert Added(es) == [Ended(OpenSpan(Front(es), closes.value).value, Some(Last(es).ts))];
      }
    }
  }

  /** The span that event i started is open until the first event that closes its key, and never again. */
  lemma {:induction false} OpenUntilClosed(es: seq<Event>, i: nat)
    requires i < |es| && StartsSpan(es[..i + 1])
    ensures var span := NewSpan(es[..i + 1]);
            && span.number < SpansStarted(es)
            && (OpenSpan(es, span.key) == Some(span) <==> ClosedAt(es, i, span.key).None?)
  {
    if |es| == i + 1 {
      assert es[..i + 1] == es;
    } else {
      assert Front(es)[..i + 1] == es[..i + 1];
      OpenUntilClosed(Front(es), i);
    }
  }

  /**
   Over every stream: a span is ended at a time if and only if an event after
   its start closes its key, and then at the time of the first such event.
   */
  lemma {:induction false} EndedAtFirstClose(es: seq<Event>, i: nat, ts: int)
    requires i < |es| && StartsSpan(es[..i + 1])
    ensures var span := NewSpan(es[..i + 1]);
            Ended(span, Some(ts)) in Run(Initial, es).log <==> ClosedAt(es, i, span.key) == Some(ts)
  {
    var span := NewSpan(es[..i + 1]);
    EventEnds(es, span, ts);
    if |es| == i + 1 {
      assert es[..i + 1] == es;
      if Ended(span, Some(ts)) in Run(Initial, Front(es)).log {
        EndsAreNumbered(Front(es), Ended(span, Some(ts)));
      }
    } else {
      assert Front(es)[..i + 1] == es[..i + 1];
      EndedAtFirstClose(Front(es), i, ts);
      OpenUntilClosed(Front(es), i);
    }
  }

  /**
   In a whole export, a span is ended without a time of its own if and only if
   no event closed it, and otherwise at the time of the first event that did.
   */
  lemma ExportEndsExactly(events: seq<Event>, tracer: seq<Action>, i: nat)
    requires Run(Initial, events).log <= tracer
    requires EndsLeftovers(Run(Initial, events).open, map[], tracer[|Run(Initial, events).log|..])
    requires i < |events| && StartsSpan(events[..i + 1])
    ensures var span := NewSpan(events[..i + 1]);
            && (Ended(span, None) in tracer <==> ClosedAt(events, i, span.key).None?)
            && (forall ts :: Ended(span, Some(ts)) in tracer <==> ClosedAt(events, i, span.key) == Some(ts))
  {
    var span, end := NewSpan(events[..i + 1]), Run(Initial, events);
    var tail := tracer[|end.log|..];
    assert tracer == end.log + tail;
    SpansAreHistory(events);
    OpenUntilClosed(events, i);
    assert Get(end.open, span.key) == OpenSpan(events, span.key);
    forall ts ensures Ended(span, Some(ts)) in tracer <==> ClosedAt(events, i, span.key) == Some(ts) {
      EndedAtFirstClose(events, i, ts);
    }
    if Ended(span, None) in end.log {
      EndsAreNumbered(events, Ended(span, None));
    }
  }
}

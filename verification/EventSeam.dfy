/**
 The replay/live seam of the event stream: one run's pump, any number of
 connections, and the terminal settle, interleaved arbitrarily within one
 segment. Proved over every run: what each connection is handed, how long its
 queue gets, and what a client that reconnects sees.
 */
module EventSeam {
  import opened Prelude
  import opened ReplayBuffer

  /** Why a connection stopped being fed. */
  datatype Ending = Open | Slow | Settled(complete: bool) | Cancelled

  /**
   One connection: the cursor it came with, how long the history was then, how
   it found the run, at which index its replay started, and its chunks, read
   and still queued. It is fed while `Open`.
   */
  datatype Conn = Conn(
    cursor: Cursor,
    openedAt: nat,
    found: Terminal,
    first: nat,
    read: seq<Chunk>,
    queue: seq<Chunk>,
    ending: Ending)
  {
    function Chunks(): seq<Chunk> {
      read + queue
    }
  }

  /** The pump of the segment: reading the run's events, done with all of them, or broken off. */
  datatype Pump = Pumping | Drained | Failed

  /**
   `produced` is every event the run has emitted on its handle, `ended` that
   there will be no more; `history` is what the pump has taken over so far.
   */
  datatype Server = Server(
    cap: nat,
    pendingCap: nat,
    produced: seq<Event>,
    ended: bool,
    pump: Pump,
    history: seq<Event>,
    window: Window,
    terminal: Terminal,
    conns: seq<Conn>)

  datatype Move =
    | Produce(event: Event)
    | EndEvents
    | PumpOne
    | PumpDone
    | PumpFails
    | Connect(cursor: Cursor)
    | Read(conn: nat)
    | Cancel(conn: nat)
    | Settle(rejection: Option<string>)

  /**
   Events are produced in ascending seq. The pump completes only once the
   events ended and it has taken them all; the settle awaits the pump, however
   it ended, and comes once.
   */
  predicate Legal(s: Server, m: Move) {
    match m
    case Produce(e) => !s.ended && (s.produced != [] ==> Last(s.produced).id < e.id)
    case EndEvents => !s.ended
    case PumpOne => s.pump.Pumping? && |s.history| < |s.produced|
    case PumpDone => s.pump.Pumping? && s.ended && |s.history| == |s.produced|
    case PumpFails => s.pump.Pumping?
    case Connect(_) => true
    case Read(i) => i < |s.conns| && s.conns[i].queue != []
    case Cancel(i) => i < |s.conns|
    case Settle(_) => s.terminal.Running? && !s.pump.Pumping?
  }

  /** The feed callback for one event. */
  function Feed(pendingCap: nat, c: Conn, e: Event): Conn {
    if c.ending != Open then c
    else if |c.queue| >= pendingCap then c.(queue := c.queue + [SlowMark], ending := Slow)
    else c.(queue := c.queue + [Frame(e)])
  }

  /** The feed callback at the terminal: the optional note, then the close. */
  function FeedTerminal(c: Conn, note: Option<string>): Conn {
    if c.ending != Open then c
    else c.(queue := if note.Some? then c.queue + [Note(note.value)] else c.queue,
            ending := Settled(note.None?))
  }

  function OpenConn(s: Server, cursor: Cursor): Conn
    requires s.pendingCap >= 1
  {
    var w := s.window;
    Conn(cursor,
         |s.history|,
         s.terminal,
         w.dropped + |w.buffer| - |After(w.buffer, cursor)|,
         [],
         OpeningQueue(w, s.terminal, cursor, s.pendingCap),
         if HooksFeed(w, s.terminal, cursor, s.pendingCap) then Open
         else if |Replayed(w, cursor, s.pendingCap)| < |After(w.buffer, cursor)| then Slow
         else Settled(s.terminal.Done? && s.terminal.rejection.None?))
  }

  function MapConns(conns: seq<Conn>, f: Conn -> Conn): (r: seq<Conn>)
    ensures |r| == |conns| && forall i :: 0 <= i < |conns| ==> r[i] == f(conns[i])
  {
    seq(|conns|, i requires 0 <= i < |conns| => f(conns[i]))
  }

  /** One event reaches the buffer and the connected feeds. */
  function Emitted(s: Server, e: Event): Server
    requires s.cap >= 1
  {
    s.(history := s.history + [e],
       window := Push(s.cap, s.window, e),
       conns := MapConns(s.conns, c => Feed(s.pendingCap, c, e)))
  }

  const PumpFailedNote: string :=
    "event pump failed; the stream may be incomplete, reconnect with Last-Event-ID to replay"

  /** The note the feeds get at the terminal: the rejection, else the failure of the pump, else none. */
  function TerminalNote(pump: Pump, rejection: Option<string>): Option<string> {
    if rejection.Some? then rejection else if pump.Failed? then Some(PumpFailedNote) else None
  }

  /** The terminal close, whenever it comes. */
  function SettleNow(s: Server, rejection: Option<string>): Server {
    var note := TerminalNote(s.pump, rejection);
    s.(terminal := Done(rejection), conns := MapConns(s.conns, c => FeedTerminal(c, note)))
  }

  function Next(s: Server, m: Move): Server
    requires s.cap >= 1 && s.pendingCap >= 1 && Legal(s, m)
  {
    match m
    case Produce(e) => s.(produced := s.produced + [e])
    case EndEvents => s.(ended := true)
    case PumpOne => Emitted(s, s.produced[|s.history|])
    case PumpDone => s.(pump := Drained)
    case PumpFails => s.(pump := Failed)
    case Connect(cursor) => s.(conns := s.conns + [OpenConn(s, cursor)])
    case Read(i) =>
      var c := s.conns[i];
      s.(conns := s.conns[i := c.(read := c.read + [c.queue[0]], queue := c.queue[1..])])
    case Cancel(i) => s.(conns := s.conns[i := s.conns[i].(queue := [], ending := Cancelled)])
    case Settle(rejection) => SettleNow(s, rejection)
  }

  // ---------------------------------------------------------------- what a connection holds

  /** The events among some chunks, in order. */
  function EventsOf(chunks: seq<Chunk>): seq<Event> {
    if chunks == [] then []
    else EventsOf(Front(chunks)) + (if Last(chunks).Frame? then [Last(chunks).event] else [])
  }

  /** The events past the cursor that were gone when the connection opened. */
  ghost predicate Skipped(history: seq<Event>, c: Conn)
    requires c.first <= |history|
  {
    exists i :: 0 <= i < c.first && !Seen(c.cursor, history[i])
  }

  /** `es` is the contiguous block of the history that starts at `first`. */
  ghost predicate Block(history: seq<Event>, first: nat, es: seq<Event>) {
    first + |es| <= |history| && es == history[first..first + |es|]
  }

  ghost predicate Bounded(pendingCap: nat, c: Conn) {
    |c.queue| <= if c.ending == Open then pendingCap else pendingCap + 1
  }

  ghost predicate Handed(history: seq<Event>, c: Conn) {
    var handed := EventsOf(c.Chunks());
    && Block(history, c.first, handed)
    && (c.ending == Open || c.ending == Settled(true) ==> c.first + |handed| == |history|)
  }

  ghost predicate Resumed(history: seq<Event>, c: Conn) {
    && c.first <= c.openedAt <= |history|
    && (forall i :: c.first <= i < c.openedAt ==> !Seen(c.cursor, history[i]))
  }

  ghost predicate GapShown(c: Conn) {
    || (c.ending == Cancelled && c.Chunks() == [])
    || (c.Chunks() != [] && c.Chunks()[0].GapMark?)
  }

  ghost predicate ConnInv(pendingCap: nat, history: seq<Event>, c: Conn) {
    && Bounded(pendingCap, c)
    && Handed(history, c)
    && Resumed(history, c)
    && (Skipped(history, c) ==> GapShown(c))
  }

  ghost predicate Windowed(s: Server) {
    s.cap >= 1 && s.pendingCap >= 1 && Ascending(s.history) && WindowOf(s.cap, s.window, s.history)
  }

  ghost predicate Inv(s: Server) {
    && Windowed(s)
    && ConnsInv(s)
    && Pumped(s)
  }

  /** The history is what was produced so far, or all of it once the pump is done; the settle came after the pump. */
  ghost predicate Pumped(s: Server) {
    && Ascending(s.produced)
    && s.history <= s.produced
    && (s.pump.Drained? ==> s.ended && s.history == s.produced)
    && (s.terminal.Done? ==> !s.pump.Pumping?)
  }

  lemma EventsOfPush(chunks: seq<Chunk>, c: Chunk)
    ensures EventsOf(chunks + [c]) == EventsOf(chunks) + (if c.Frame? then [c.event] else [])
  {
    assert Front(chunks + [c]) == chunks;
  }

  lemma {:induction false} EventsOfConcat(a: seq<Chunk>, b: seq<Chunk>)
    ensures EventsOf(a + b) == EventsOf(a) + EventsOf(b)
  {
    if b == [] {
      assert a + b == a;
    } else {
      EventsOfConcat(a, Front(b));
      assert a + b == (a + Front(b)) + [Last(b)];
      EventsOfPush(a + Front(b), Last(b));
    }
  }

  lemma {:induction false} EventsOfFrames(es: seq<Event>)
    ensures EventsOf(Frames(es)) == es
  {
    if es != [] {
      EventsOfFrames(Front(es));
      assert Frames(es) == Frames(Front(es)) + [Frame(Last(es))];
      EventsOfPush(Frames(Front(es)), Frame(Last(es)));
      assert es == Front(es) + [Last(es)];
    }
  }

  lemma EventsOfGap(w: Window, cursor: Cursor)
    ensures EventsOf(GapChunks(w, cursor)) == []
  {
    var g := GapChunks(w, cursor);
    if g != [] {
      assert Front(g) == [];
    }
  }

  // ---------------------------------------------------------------- each step keeps the invariant

  lemma BlockGrows(history: seq<Event>, first: nat, es: seq<Event>, e: Event)
    requires Block(history, first, es)
    ensures Block(history + [e], first, es)
    ensures first + |es| == |history| ==> Block(history + [e], first, es + [e])
  {
    assert (history + [e])[first..first + |es|] == history[first..first + |es|];
    if first + |es| == |history| {
      assert (history + [e])[first..|history| + 1] == history[first..] + [e];
    }
  }

  lemma BlockPrefix(history: seq<Event>, first: nat, es: seq<Event>, n: nat)
    requires Block(history, first, es) && n <= |es|
    ensures Block(history, first, es[..n])
  {
    assert history[first..first + |es|][..n] == history[first..first + n];
  }

  lemma HistoryGrows(history: seq<Event>, c: Conn, c': Conn, e: Event)
    requires Resumed(history, c)
    requires c'.cursor == c.cursor && c'.first == c.first && c'.openedAt == c.openedAt
    ensures Resumed(history + [e], c')
    ensures Skipped(history + [e], c') ==> Skipped(history, c)
  {
    assert forall i :: 0 <= i < |history| ==> (history + [e])[i] == history[i];
  }

  lemma FeedHands(history: seq<Event>, c: Conn, c': Conn, e: Event, added: Chunk)
    requires Handed(history, c) && c.ending == Open
    requires c'.read == c.read && c'.queue == c.queue + [added] && c'.first == c.first
    requires (added == Frame(e) && c'.ending == Open) || (added == SlowMark && c'.ending == Slow)
    ensures Handed(history + [e], c')
  {
    assert c'.Chunks() == c.Chunks() + [added];
    EventsOfPush(c.Chunks(), added);
    BlockGrows(history, c.first, EventsOf(c.Chunks()), e);
  }

  lemma FeedKeepsConn(pendingCap: nat, history: seq<Event>, c: Conn, e: Event)
    requires ConnInv(pendingCap, history, c) && c.ending != Settled(true)
    ensures ConnInv(pendingCap, history + [e], Feed(pendingCap, c, e))
  {
    var c' := Feed(pendingCap, c, e);
    HistoryGrows(history, c, c', e);
    if c.ending == Open {
      FeedHands(history, c, c', e, if |c.queue| >= pendingCap then SlowMark else Frame(e));
      FeedShowsGap(c, c');
    } else {
      BlockGrows(history, c.first, EventsOf(c.Chunks()), e);
    }
  }

  /** A gap mark at the front stays there. */
  lemma FeedShowsGap(c: Conn, c': Conn)
    requires c.ending == Open && c'.read == c.read && c.queue <= c'.queue
    ensures GapShown(c) ==> GapShown(c')
  {
    assert c.Chunks() != [] ==> c'.Chunks()[0] == c.Chunks()[0];
  }

  lemma TerminalKeepsConn(pendingCap: nat, history: seq<Event>, c: Conn, note: Option<string>)
    requires ConnInv(pendingCap, history, c)
    ensures ConnInv(pendingCap, history, FeedTerminal(c, note))
  {
    var c' := FeedTerminal(c, note);
    if c' != c && note.Some? {
      assert c'.Chunks() == c.Chunks() + [Note(note.value)];
      EventsOfPush(c.Chunks(), Note(note.value));
    }
    assert Skipped(history, c') ==> Skipped(history, c);
  }

  lemma ReadKeepsConn(pendingCap: nat, history: seq<Event>, c: Conn)
    requires ConnInv(pendingCap, history, c) && c.queue != []
    ensures ConnInv(pendingCap, history, c.(read := c.read + [c.queue[0]], queue := c.queue[1..]))
  {
    var c' := c.(read := c.read + [c.queue[0]], queue := c.queue[1..]);
    assert c'.Chunks() == c.Chunks();
    assert Skipped(history, c') ==> Skipped(history, c);
  }

  lemma CancelKeepsConn(pendingCap: nat, history: seq<Event>, c: Conn)
    requires ConnInv(pendingCap, history, c)
    ensures ConnInv(pendingCap, history, c.(queue := [], ending := Cancelled))
  {
    var c' := c.(queue := [], ending := Cancelled);
    assert c'.Chunks() == c.read;
    EventsOfConcat(c.read, c.queue);
    assert EventsOf(c.read) == EventsOf(c.Chunks())[..|EventsOf(c.read)|];
    BlockPrefix(history, c.first, EventsOf(c.Chunks()), |EventsOf(c.read)|);
    assert Skipped(history, c') ==> Skipped(history, c);
  }

  lemma OpeningEvents(w: Window, terminal: Terminal, cursor: Cursor, pendingCap: nat)
    requires pendingCap >= 1
    ensures EventsOf(OpeningQueue(w, terminal, cursor, pendingCap)) == Replayed(w, cursor, pendingCap)
  {
    var gap, frames := GapChunks(w, cursor), Frames(Replayed(w, cursor, pendingCap));
    var tail := OpeningTail(w, terminal, cursor, pendingCap);
    EventsOfConcat(gap + frames, tail);
    EventsOfConcat(gap, frames);
    EventsOfGap(w, cursor);
    EventsOfFrames(Replayed(w, cursor, pendingCap));
    EventsOfMark(tail);
  }

  lemma EventsOfMark(tail: seq<Chunk>)
    requires |tail| <= 1 && (tail != [] ==> !tail[0].Frame?)
    ensures EventsOf(tail) == []
  {
    if tail != [] {
      assert Front(tail) == [];
    }
  }

  /** The history behind a window and its split point. */
  lemma SplitHistory(history: seq<Event>, w: Window, cursor: Cursor, k: nat)
    requires w.dropped <= |history| && w.buffer == history[w.dropped..] && Splits(w.buffer, cursor, k)
    ensures forall i :: w.dropped <= i < |history| ==> (Seen(cursor, history[i]) <==> i < w.dropped + k)
  {
    forall i | w.dropped <= i < |history| ensures Seen(cursor, history[i]) <==> i < w.dropped + k {
      assert history[i] == w.buffer[i - w.dropped];
    }
  }

  lemma OpenResumes(s: Server, cursor: Cursor)
    requires Windowed(s)
    ensures Resumed(s.history, OpenConn(s, cursor))
  {
    var k := SplitExists(s.window.buffer, cursor);
    SplitHistory(s.history, s.window, cursor, k);
  }

  lemma WindowBlock(cap: nat, w: Window, history: seq<Event>, k: nat, n: nat)
    requires WindowOf(cap, w, history) && k + n <= |w.buffer|
    ensures Block(history, w.dropped + k, w.buffer[k..][..n])
  {
  }

  lemma ReplayIsBlock(cap: nat, w: Window, history: seq<Event>, cursor: Cursor, pendingCap: nat)
    requires pendingCap >= 1 && Ascending(w.buffer) && WindowOf(cap, w, history)
    ensures Block(history, w.dropped + |w.buffer| - |After(w.buffer, cursor)|, Replayed(w, cursor, pendingCap))
  {
    var sent := Replayed(w, cursor, pendingCap);
    var k := SplitExists(w.buffer, cursor);
    assert sent == w.buffer[k..][..|sent|];
    WindowBlock(cap, w, history, k, |sent|);
  }

  lemma FreshHands(history: seq<Event>, c: Conn, sent: seq<Event>)
    requires c.read == [] && EventsOf(c.queue) == sent
    requires Block(history, c.first, sent)
    requires c.ending == Open || c.ending == Settled(true) ==> c.first + |sent| == |history|
    ensures Handed(history, c)
  {
    assert c.Chunks() == c.queue;
  }

  /** A connection that opens as live or as complete was sent its whole backlog. */
  lemma CompleteReplay(s: Server, cursor: Cursor)
    requires s.pendingCap >= 1 && WindowOf(s.cap, s.window, s.history)
    ensures var c, sent := OpenConn(s, cursor), Replayed(s.window, cursor, s.pendingCap);
            c.ending == Open || c.ending == Settled(true) ==> c.first + |sent| == |s.history|
  {
  }

  lemma OpeningHands(s: Server, cursor: Cursor, c: Conn, sent: seq<Event>)
    requires s.pendingCap >= 1 && Ascending(s.window.buffer) && WindowOf(s.cap, s.window, s.history)
    requires c.read == [] && c.queue == OpeningQueue(s.window, s.terminal, cursor, s.pendingCap)
    requires c.first == s.window.dropped + |s.window.buffer| - |After(s.window.buffer, cursor)|
    requires sent == Replayed(s.window, cursor, s.pendingCap)
    requires c.ending == Open || c.ending == Settled(true) ==> c.first + |sent| == |s.history|
    ensures Handed(s.history, c)
  {
    assert EventsOf(c.queue) == sent by {
      OpeningEvents(s.window, s.terminal, cursor, s.pendingCap);
    }
    ReplayIsBlock(s.cap, s.window, s.history, cursor, s.pendingCap);
    FreshHands(s.history, c, sent);
  }

  lemma OpenHands(s: Server, cursor: Cursor)
    requires s.pendingCap >= 1 && Ascending(s.window.buffer) && WindowOf(s.cap, s.window, s.history)
    ensures Handed(s.history, OpenConn(s, cursor))
  {
    CompleteReplay(s, cursor);
    OpeningHands(s, cursor, OpenConn(s, cursor), Replayed(s.window, cursor, s.pendingCap));
  }

  /** A new connection resumes at the first retained event past its cursor, or marks the gap. */
  lemma OpenEstablishesConn(s: Server, cursor: Cursor)
    requires Windowed(s)
    ensures ConnInv(s.pendingCap, s.history, OpenConn(s, cursor))
  {
    OpenResumes(s, cursor);
    OpenHands(s, cursor);
    OpenShowsGap(s, cursor);
  }

  lemma OpenShowsGap(s: Server, cursor: Cursor)
    requires Windowed(s) && OpenConn(s, cursor).first <= |s.history|
    ensures Skipped(s.history, OpenConn(s, cursor)) ==> GapShown(OpenConn(s, cursor))
  {
    var w, c := s.window, OpenConn(s, cursor);
    var k := SplitExists(w.buffer, cursor);
    if Skipped(s.history, c) {
      SplitHistory(s.history, w, cursor, k);
      assert Missed(s.history, w.dropped, cursor);
      GapMarkExactly(s.cap, w, s.history, cursor);
      assert c.Chunks()[0] == GapChunks(w, cursor)[0];
    }
  }

  ghost predicate ConnsInv(s: Server) {
    && (forall i :: 0 <= i < |s.conns| ==> ConnInv(s.pendingCap, s.history, s.conns[i]))
    && (s.terminal.Running? ==> forall i :: 0 <= i < |s.conns| ==> !s.conns[i].ending.Settled?)
    && (s.terminal.Done? ==> forall i :: 0 <= i < |s.conns| ==> s.conns[i].ending != Open)
  }

  lemma EmitKeepsInv(s: Server)
    requires Inv(s) && Legal(s, PumpOne)
    ensures Inv(Next(s, PumpOne))
  {
    var e := s.produced[|s.history|];
    assert s.history == s.produced[..|s.history|];
    PushKeepsWindow(s.cap, s.window, s.history, e);
    var s' := Next(s, PumpOne);
    forall i | 0 <= i < |s.conns| ensures ConnInv(s.pendingCap, s'.history, s'.conns[i]) {
      FeedKeepsConn(s.pendingCap, s.history, s.conns[i], e);
    }
    assert s'.history == s.produced[..|s.history| + 1];
  }

  lemma SettleKeepsInv(s: Server, rejection: Option<string>)
    requires Inv(s) && Legal(s, Settle(rejection))
    ensures Inv(Next(s, Settle(rejection)))
  {
    var note := TerminalNote(s.pump, rejection);
    forall i | 0 <= i < |s.conns|
      ensures ConnInv(s.pendingCap, s.history, FeedTerminal(s.conns[i], note))
    {
      TerminalKeepsConn(s.pendingCap, s.history, s.conns[i], note);
    }
  }

  lemma ConnectKeepsInv(s: Server, cursor: Cursor)
    requires Inv(s)
    ensures Inv(Next(s, Connect(cursor)))
  {
    OpenEstablishesConn(s, cursor);
  }

  /** One connection changes on its client's side; it is fed and settled as before, or cancelled. */
  lemma ClientKeepsInv(s: Server, i: nat, c: Conn)
    requires Inv(s) && i < |s.conns| && ConnInv(s.pendingCap, s.history, c)
    requires c.ending == s.conns[i].ending || c.ending == Cancelled
    ensures Inv(s.(conns := s.conns[i := c]))
  {
  }

  lemma NextKeepsInv(s: Server, m: Move)
    requires Inv(s) && Legal(s, m)
    ensures Inv(Next(s, m))
  {
    match m {
      case Produce(e) => assert s.history <= s.produced + [e];
      case PumpOne => EmitKeepsInv(s);
      case Connect(cursor) => ConnectKeepsInv(s, cursor);
      case Read(i) =>
        ReadKeepsConn(s.pendingCap, s.history, s.conns[i]);
        var c := s.conns[i];
        ClientKeepsInv(s, i, c.(read := c.read + [c.queue[0]], queue := c.queue[1..]));
      case Cancel(i) =>
        CancelKeepsConn(s.pendingCap, s.history, s.conns[i]);
        ClientKeepsInv(s, i, s.conns[i].(queue := [], ending := Cancelled));
      case Settle(rejection) => SettleKeepsInv(s, rejection);
      case _ =>
    }
  }

  // ---------------------------------------------------------------- runs

  /** A tracked run whose segment has just been attached. */
  function Fresh(cap: nat, pendingCap: nat): Server {
    Server(cap, pendingCap, [], false, Pumping, [], Window([], 0), Running, [])
  }

  ghost predicate LegalRun(cap: nat, pendingCap: nat, moves: seq<Move>)
    requires cap >= 1 && pendingCap >= 1
    decreases |moves|, 0
  {
    moves == []
    || (LegalRun(cap, pendingCap, Front(moves)) && Legal(Run(cap, pendingCap, Front(moves)), Last(moves)))
  }

  ghost function Run(cap: nat, pendingCap: nat, moves: seq<Move>): (s: Server)
    requires cap >= 1 && pendingCap >= 1 && LegalRun(cap, pendingCap, moves)
    ensures s.cap == cap && s.pendingCap == pendingCap
    decreases |moves|, 1
  {
    if moves == [] then Fresh(cap, pendingCap)
    else Next(Run(cap, pendingCap, Front(moves)), Last(moves))
  }

  lemma {:induction false} RunKeepsInv(cap: nat, pendingCap: nat, moves: seq<Move>)
    requires cap >= 1 && pendingCap >= 1 && LegalRun(cap, pendingCap, moves)
    ensures Inv(Run(cap, pendingCap, moves))
  {
    if moves != [] {
      RunKeepsInv(cap, pendingCap, Front(moves));
      NextKeepsInv(Run(cap, pendingCap, Front(moves)), Last(moves));
    }
  }

  /** The cursor names nothing newer than what had been emitted when it was presented. */
  ghost predicate HonestCursor(history: seq<Event>, c: Conn)
    requires c.openedAt <= |history|
  {
    c.cursor.None? || (c.openedAt > 0 && c.cursor.value <= history[c.openedAt - 1].id as real)
  }

  /**
   The seam, over every interleaving. Each connection is handed one contiguous
   block of the history; its queue never exceeds the pending bound plus one;
   while fed it has been handed everything the pump took over, and when closed
   by a settle with a healthy pump, everything the run produced; an event past the cursor is absent from
   the front of the block only behind a gap mark; and a cursor that is not
   ahead of the stream is never answered with an event it already covers.
   */
  lemma ConnectionSeam(cap: nat, pendingCap: nat, moves: seq<Move>, i: nat)
    requires cap >= 1 && pendingCap >= 1 && LegalRun(cap, pendingCap, moves)
    requires i < |Run(cap, pendingCap, moves).conns|
    ensures Seam(Run(cap, pendingCap, moves), Run(cap, pendingCap, moves).conns[i])
  {
    RunKeepsInv(cap, pendingCap, moves);
    InvIsSeam(Run(cap, pendingCap, moves), i);
  }

  ghost predicate Seam(s: Server, c: Conn) {
    var handed := EventsOf(c.read + c.queue);
    && |c.queue| <= s.pendingCap + 1
    && c.first + |handed| <= |s.history| <= |s.produced|
    && handed == s.history[c.first..c.first + |handed|]
    && (c.ending == Open || c.ending == Settled(true) ==> handed == s.history[c.first..])
    && (c.ending == Settled(true) && s.pump.Drained? ==> handed == s.produced[c.first..])
    && (c.read != [] && !c.read[0].GapMark? ==> forall j :: 0 <= j < c.first ==> Seen(c.cursor, s.history[j]))
    && c.openedAt <= |s.history|
    && (HonestCursor(s.history, c) ==> forall e :: e in handed ==> !Seen(c.cursor, e))
  }

  lemma InvIsSeam(s: Server, i: nat)
    requires Inv(s) && i < |s.conns|
    ensures Seam(s, s.conns[i])
  {
    var c := s.conns[i];
    assert ConnInv(s.pendingCap, s.history, c);
    if c.read != [] && !c.read[0].GapMark? {
      assert c.Chunks()[0] == c.read[0];
    }
    if HonestCursor(s.history, c) {
      HandedPastCursor(s.pendingCap, s.history, c);
    }
  }

  lemma HandedPastCursor(pendingCap: nat, history: seq<Event>, c: Conn)
    requires Ascending(history) && ConnInv(pendingCap, history, c) && HonestCursor(history, c)
    ensures forall e :: e in EventsOf(c.Chunks()) ==> !Seen(c.cursor, e)
  {
    if c.cursor.Some? {
      forall j | c.first <= j < |history| ensures !Seen(c.cursor, history[j]) {
        assert c.openedAt <= j ==> history[c.openedAt - 1].id < history[j].id;
      }
    }
  }

  /** The run behind the two examples below: a live connection, one event, and no pump step yet. */
  function Unpumped(cap: nat, e: Event): Server
    requires cap >= 1
  {
    Next(Next(Next(Fresh(cap, 1), Connect(None)), Produce(e)), EndEvents)
  }

  /** A settle that did not wait for the pump would close the connection as complete without the last event. */
  lemma SettleMustAwaitPump(cap: nat, e: Event)
    requires cap >= 1
    ensures var s := SettleNow(Unpumped(cap, e), None);
            && !Legal(Unpumped(cap, e), Settle(None))
            && s.conns[0].ending == Settled(true) && EventsOf(s.conns[0].Chunks()) == [] && s.produced == [e]
  {
    assert Replayed(Window([], 0), None, 1) == [];
  }

  // ---------------------------------------------------------------- after a failed pump

  /** The replay from the cursor is within what a connection may hold. */
  predicate Fits(w: Window, cursor: Cursor, pendingCap: nat)
    requires pendingCap >= 1
  {
    |Replayed(w, cursor, pendingCap)| == |After(w.buffer, cursor)|
  }

  /**
   A connection that found the run settled ends as its replay and that settle
   demand; any other is not called complete once the pump has failed.
   */
  ghost predicate EndsAsFound(s: Server, c: Conn)
    requires s.pendingCap >= 1
  {
    match c.found
    case Running => s.pump.Failed? ==> c.ending != Settled(true)
    case Done(rejection) =>
      && s.terminal == c.found
      && (c.ending != Cancelled ==>
            c.ending == if Fits(s.window, c.cursor, s.pendingCap) then Settled(rejection.None?) else Slow)
  }

  ghost predicate AllEndAsFound(s: Server)
    requires s.pendingCap >= 1
  {
    forall i :: 0 <= i < |s.conns| ==> EndsAsFound(s, s.conns[i])
  }

  lemma NextKeepsFound(s: Server, m: Move)
    requires Inv(s) && Legal(s, m) && AllEndAsFound(s)
    ensures AllEndAsFound(Next(s, m))
  {
    var s' := Next(s, m);
    forall i | 0 <= i < |s'.conns| ensures EndsAsFound(s', s'.conns[i]) {
      if m.Connect? && i == |s.conns| {
        assert s'.conns[i] == OpenConn(s, m.cursor);
      } else {
        assert EndsAsFound(s, s.conns[i]);
      }
    }
  }

  lemma {:induction false} RunEndsAsFound(cap: nat, pendingCap: nat, moves: seq<Move>)
    requires cap >= 1 && pendingCap >= 1 && LegalRun(cap, pendingCap, moves)
    ensures AllEndAsFound(Run(cap, pendingCap, moves))
  {
    if moves != [] {
      RunKeepsInv(cap, pendingCap, Front(moves));
      RunEndsAsFound(cap, pendingCap, Front(moves));
      NextKeepsFound(Run(cap, pendingCap, Front(moves)), Last(moves));
    }
  }

  /** The connection was closed as complete without the rest of what the run produced. */
  ghost predicate Misled(s: Server, c: Conn) {
    c.ending == Settled(true) && c.first <= |s.produced| && EventsOf(c.Chunks()) != s.produced[c.first..]
  }

  /**
   Which connections a failed pump misleads, over every interleaving: exactly
   those opened after a settle without rejection, with a replay that fits,
   when the pump broke off before the last event; the ones that were open then
   are told so.
   */
  lemma MisledExactly(cap: nat, pendingCap: nat, moves: seq<Move>, i: nat)
    requires cap >= 1 && pendingCap >= 1 && LegalRun(cap, pendingCap, moves)
    requires i < |Run(cap, pendingCap, moves).conns|
    ensures MisledIff(Run(cap, pendingCap, moves), Run(cap, pendingCap, moves).conns[i])
  {
    RunKeepsInv(cap, pendingCap, moves);
    RunEndsAsFound(cap, pendingCap, moves);
    InvMisleads(Run(cap, pendingCap, moves), i);
  }

  ghost predicate MisledIff(s: Server, c: Conn) {
    && s.pendingCap >= 1 && c.first <= |s.produced|
    && (c.ending == Settled(true) ==> (EventsOf(c.Chunks()) == s.produced[c.first..] <==> s.history == s.produced))
    && (Misled(s, c) <==>
        && s.history != s.produced
        && c.found == Done(None)
        && Fits(s.window, c.cursor, s.pendingCap)
        && c.ending != Cancelled)
    && (Misled(s, c) ==> s.pump.Failed?)
  }

  lemma InvMisleads(s: Server, i: nat)
    requires Inv(s) && AllEndAsFound(s) && i < |s.conns|
    ensures MisledIff(s, s.conns[i])
  {
    var c := s.conns[i];
    InvIsSeam(s, i);
    assert EndsAsFound(s, c);
    TailsEqual(s.history, s.produced, c.first);
  }

  lemma TailsEqual(a: seq<Event>, b: seq<Event>, k: nat)
    requires a <= b && k <= |a|
    ensures a[k..] == b[k..] <==> a == b
  {
    if a[k..] == b[k..] {
      assert |a[k..]| == |b[k..]|;
    }
  }

  /** One such run: the connection that was open is told, and the one that comes later is misled. */
  lemma LateSubscriberMissesTail(cap: nat, e: Event)
    requires cap >= 1
    ensures var s := Next(Next(Next(Unpumped(cap, e), PumpFails), Settle(None)), Connect(None));
            && s.conns[0].ending == Settled(false) && s.conns[0].Chunks() == [Note(PumpFailedNote)]
            && Misled(s, s.conns[1]) && s.conns[1].Chunks() == [] && s.produced == [e]
  {
  }

  // ---------------------------------------------------------------- reconnecting clients

  /** The events a client read over a chain of connections, in order. */
  function Delivered(s: Server, chain: seq<nat>): seq<Event>
    requires forall k :: 0 <= k < |chain| ==> chain[k] < |s.conns|
  {
    if chain == [] then [] else Delivered(s, Front(chain)) + EventsOf(s.conns[Last(chain)].read)
  }

  /**
   A client's chain: every later connection presents the id of the last event
   read on an earlier one (or the first cursor again while none was read),
   and that event had been emitted by then.
   */
  ghost predicate Linked(s: Server, chain: seq<nat>) {
    && (forall k :: 0 <= k < |chain| ==> chain[k] < |s.conns|)
    && (|chain| > 1 ==>
          var got, c := Delivered(s, Front(chain)), s.conns[Last(chain)];
          && Linked(s, Front(chain))
          && c.openedAt <= |s.history|
          && if got == [] then c.cursor == s.conns[chain[0]].cursor
             else c.cursor == CursorAfter(got) && Last(got) in s.history[..c.openedAt])
  }

  /** The connection read something and no gap mark came first. */
  predicate Gapless(c: Conn) {
    c.read == [] || !c.read[0].GapMark?
  }

  /** The first connection of the chain that brought an event. */
  function Start(s: Server, chain: seq<nat>): nat
    requires forall k :: 0 <= k < |chain| ==> chain[k] < |s.conns|
  {
    if chain == [] then 0
    else if Delivered(s, Front(chain)) != [] then Start(s, Front(chain))
    else s.conns[Last(chain)].first
  }

  lemma NextIndex(history: seq<Event>, c: Conn, j: nat)
    requires Ascending(history) && c.first <= c.openedAt <= |history| && j < c.openedAt
    requires c.cursor == Some(history[j].id as real)
    requires forall i :: 0 <= i < c.first ==> Seen(c.cursor, history[i])
    requires forall i :: c.first <= i < c.openedAt ==> !Seen(c.cursor, history[i])
    ensures c.first == j + 1
  {
    assert Seen(c.cursor, history[j]);
    assert c.first > 0 ==> Seen(c.cursor, history[c.first - 1]);
  }

  /** Appending one connection's reads to a contiguous delivery keeps it contiguous. */
  lemma LinkExtends(pendingCap: nat, history: seq<Event>, c: Conn, start: nat, got: seq<Event>)
    requires Ascending(history) && ConnInv(pendingCap, history, c) && Gapless(c)
    requires Block(history, start, got)
    requires got != [] ==> c.cursor == CursorAfter(got) && Last(got) in history[..c.openedAt]
    ensures Block(history, if got != [] then start else c.first, got + EventsOf(c.read))
  {
    ReadIsBlock(pendingCap, history, c);
    var more := EventsOf(c.read);
    if got == [] {
      assert got + more == more;
    } else if more == [] {
      assert got + more == got;
    } else {
      LinkIsTight(pendingCap, history, c, start, got);
      BlocksJoin(history, start, got, more);
    }
  }

  lemma {:induction false} ChainIsBlock(s: Server, chain: seq<nat>)
    requires Inv(s) && Linked(s, chain)
    requires forall k :: 0 < k < |chain| ==> Gapless(s.conns[chain[k]])
    ensures Block(s.history, Start(s, chain), Delivered(s, chain))
  {
    if |chain| == 1 {
      assert Front(chain) == [];
      ReadIsBlock(s.pendingCap, s.history, s.conns[chain[0]]);
    } else if |chain| > 1 {
      ChainIsBlock(s, Front(chain));
      LinkExtends(s.pendingCap, s.history, s.conns[Last(chain)], Start(s, Front(chain)), Delivered(s, Front(chain)));
    }
  }

  /** Everything before the first delivered event is covered by the first cursor. */
  lemma {:induction false} StartFollowsCursor(s: Server, chain: seq<nat>)
    requires Inv(s) && Linked(s, chain) && chain != [] && Delivered(s, chain) != []
    requires forall k :: 0 < k < |chain| ==> Gapless(s.conns[chain[k]])
    requires EventsOf(s.conns[chain[0]].read) != [] ==> Gapless(s.conns[chain[0]])
    ensures Start(s, chain) <= |s.history|
    ensures forall i :: 0 <= i < Start(s, chain) ==> Seen(s.conns[chain[0]].cursor, s.history[i])
  {
    if |chain| > 1 && Delivered(s, Front(chain)) != [] {
      StartFollowsCursor(s, Front(chain));
    } else {
      var c := s.conns[Last(chain)];
      if |chain| == 1 { assert Front(chain) == []; }
      assert EventsOf(c.read) != [];
      GaplessSeesPast(s.pendingCap, s.history, c);
    }
  }

  lemma GaplessSeesPast(pendingCap: nat, history: seq<Event>, c: Conn)
    requires ConnInv(pendingCap, history, c) && c.read != [] && Gapless(c)
    ensures c.first <= |history| && forall i :: 0 <= i < c.first ==> Seen(c.cursor, history[i])
  {
    assert c.Chunks()[0] == c.read[0];
    assert !Skipped(history, c);
  }

  /**
   Exactly-once, in-order delivery across reconnects: over any run, what a
   linked chain of connections without a gap mark has read is one contiguous
   block of the history, with no event repeated, reordered or lost; and when
   the connection that first brought an event had no gap mark, the block begins
   with the first event past the cursor the client started with.
   */
  lemma ReconnectIsLossless(cap: nat, pendingCap: nat, moves: seq<Move>, chain: seq<nat>)
    requires cap >= 1 && pendingCap >= 1 && LegalRun(cap, pendingCap, moves)
    requires Linked(Run(cap, pendingCap, moves), chain)
    requires forall k :: 0 < k < |chain| ==> Gapless(Run(cap, pendingCap, moves).conns[chain[k]])
    ensures Lossless(Run(cap, pendingCap, moves), chain)
  {
    RunKeepsInv(cap, pendingCap, moves);
    ChainIsLossless(Run(cap, pendingCap, moves), chain);
  }

  ghost predicate Lossless(s: Server, chain: seq<nat>)
    requires forall k :: 0 <= k < |chain| ==> chain[k] < |s.conns|
  {
    && Block(s.history, Start(s, chain), Delivered(s, chain))
    && (Delivered(s, chain) != [] && chain != []
        && (EventsOf(s.conns[chain[0]].read) != [] ==> Gapless(s.conns[chain[0]])) ==>
          forall i :: 0 <= i < Start(s, chain) ==> Seen(s.conns[chain[0]].cursor, s.history[i]))
  }

  lemma ChainIsLossless(s: Server, chain: seq<nat>)
    requires Inv(s) && Linked(s, chain)
    requires forall k :: 0 < k < |chain| ==> Gapless(s.conns[chain[k]])
    ensures Lossless(s, chain)
  {
    ChainIsBlock(s, chain);
    if chain != [] && Delivered(s, chain) != []
       && (EventsOf(s.conns[chain[0]].read) != [] ==> Gapless(s.conns[chain[0]])) {
      StartFollowsCursor(s, chain);
    }
  }

  lemma ReadIsBlock(pendingCap: nat, history: seq<Event>, c: Conn)
    requires ConnInv(pendingCap, history, c)
    ensures Block(history, c.first, EventsOf(c.read))
  {
    EventsOfConcat(c.read, c.queue);
    assert EventsOf(c.read) == EventsOf(c.Chunks())[..|EventsOf(c.read)|];
    BlockPrefix(history, c.first, EventsOf(c.Chunks()), |EventsOf(c.read)|);
  }

  lemma BlocksJoin(history: seq<Event>, first: nat, a: seq<Event>, b: seq<Event>)
    requires Block(history, first, a) && Block(history, first + |a|, b)
    ensures Block(history, first, a + b)
  {
  }

  /** A gapless connection opened from the last event read resumes at its successor. */
  lemma LinkIsTight(pendingCap: nat, history: seq<Event>, c: Conn, start: nat, got: seq<Event>)
    requires Ascending(history) && ConnInv(pendingCap, history, c) && Gapless(c)
    requires got != [] && Block(history, start, got)
    requires c.cursor == CursorAfter(got) && Last(got) in history[..c.openedAt]
    requires EventsOf(c.read) != []
    ensures c.first == start + |got|
  {
    var j := start + |got| - 1;
    assert history[j] == Last(got);
    var x :| 0 <= x < c.openedAt && history[x] == Last(got);
    assert x == j;
    assert c.read != [] && c.Chunks()[0] == c.read[0];
    assert !Skipped(history, c);
    NextIndex(history, c, j);
  }
}

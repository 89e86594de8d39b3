/**
 When the live feed of a connection ends, and with what: over every
 interleaving a connection is given up as slow only at its bound, is told why
 it was closed, and is handed frames and nothing else in between.
 */
module LiveFeed {
  import opened Prelude
  import opened ReplayBuffer
  import opened EventSeam

  /** Frames only, but for a gap mark in front. */
  ghost predicate Plain(chunks: seq<Chunk>) {
    forall i :: 0 <= i < |chunks| ==> chunks[i].Frame? || (i == 0 && chunks[i].GapMark?)
  }

  /** Plain chunks and one more. */
  ghost predicate EndsWith(chunks: seq<Chunk>, mark: Chunk) {
    chunks != [] && Last(chunks) == mark && Plain(Front(chunks))
  }

  /** Why a connection is told it may be incomplete: the rejection it found, or what the settle had to say. */
  function Told(s: Server, c: Conn): Option<string> {
    if c.found.Done? then c.found.rejection
    else if s.terminal.Running? then None
    else if s.terminal.rejection.Some? then s.terminal.rejection
    else if s.pump.Failed? then
      Some("event pump failed; the stream may be incomplete, reconnect with Last-Event-ID to replay")
    else None
  }

  /**
   What a connection was handed, by how it ended: while open or closed as
   complete, frames behind a possible gap mark; as slow, also the mark, and the
   bound was reached; closed as incomplete, also the note that says why.
   */
  ghost predicate EndsProperly(s: Server, c: Conn) {
    match c.ending
    case Open => Plain(c.Chunks())
    case Slow => EndsWith(c.Chunks(), SlowMark) && |c.Chunks()| >= s.pendingCap + 1
    case Settled(complete) =>
      if complete then Plain(c.Chunks()) && Told(s, c).None?
      else Told(s, c).Some? && EndsWith(c.Chunks(), Note(Told(s, c).value))
    case Cancelled => true
  }

  ghost predicate AllEndProperly(s: Server) {
    forall i :: 0 <= i < |s.conns| ==> EndsProperly(s, s.conns[i])
  }

  lemma PlainAppends(chunks: seq<Chunk>, c: Chunk)
    requires Plain(chunks)
    ensures c.Frame? ==> Plain(chunks + [c])
    ensures EndsWith(chunks + [c], c)
  {
    assert Front(chunks + [c]) == chunks;
  }

  /** One event reaches a connection: a frame while there is room, the slow mark at the bound, nothing once closed. */
  lemma FeedEndsProperly(s: Server, s': Server, c: Conn, e: Event)
    requires EndsProperly(s, c)
    requires s'.pendingCap == s.pendingCap && s'.pump == s.pump && s'.terminal == s.terminal
    ensures EndsProperly(s', Feed(s.pendingCap, c, e))
  {
    var c' := Feed(s.pendingCap, c, e);
    if c.ending == Open {
      var added := if |c.queue| >= s.pendingCap then SlowMark else Frame(e);
      assert c'.Chunks() == c.Chunks() + [added];
      PlainAppends(c.Chunks(), added);
    }
  }

  lemma SettleEndsProperly(s: Server, s': Server, c: Conn, rejection: Option<string>)
    requires EndsProperly(s, c) && s.terminal.Running? && !c.ending.Settled?
    requires c.ending == Open ==> c.found.Running?
    requires s'.pendingCap == s.pendingCap && s'.pump == s.pump && s'.terminal == Done(rejection)
    ensures EndsProperly(s', FeedTerminal(c, TerminalNote(s.pump, rejection)))
  {
    var note := TerminalNote(s.pump, rejection);
    var c' := FeedTerminal(c, note);
    if c.ending == Open && note.Some? {
      assert c'.Chunks() == c.Chunks() + [Note(note.value)];
      PlainAppends(c.Chunks(), Note(note.value));
    }
  }

  lemma OpeningPlain(w: Window, cursor: Cursor, pendingCap: nat)
    requires pendingCap >= 1
    ensures Plain(GapChunks(w, cursor) + Frames(Replayed(w, cursor, pendingCap)))
    ensures var n := |GapChunks(w, cursor) + Frames(Replayed(w, cursor, pendingCap))|;
            n <= pendingCap
            && (|Replayed(w, cursor, pendingCap)| < |After(w.buffer, cursor)| ==> n == pendingCap)
  {
  }

  /** A new connection: plain while its replay fits, and marked slow only behind a full one. */
  lemma OpenEndsProperly(s: Server, cursor: Cursor)
    requires s.pendingCap >= 1
    ensures EndsProperly(s, OpenConn(s, cursor))
  {
    var c := OpenConn(s, cursor);
    var front := GapChunks(s.window, cursor) + Frames(Replayed(s.window, cursor, s.pendingCap));
    var tail := OpeningTail(s.window, s.terminal, cursor, s.pendingCap);
    OpeningPlain(s.window, cursor, s.pendingCap);
    assert c.Chunks() == front + tail;
    if tail == [] {
      assert front + tail == front;
    } else {
      assert tail == [tail[0]];
      PlainAppends(front, tail[0]);
    }
  }

  /** A connection that was there before a move that does not feed it. */
  lemma UnfedEndsProperly(s: Server, m: Move, i: nat)
    requires Inv(s) && Legal(s, m) && !m.PumpOne? && !m.Settle? && i < |s.conns|
    requires EndsProperly(s, s.conns[i])
    ensures EndsProperly(Next(s, m), Next(s, m).conns[i])
  {
    var c := s.conns[i];
    if m.Read? && m.conn == i {
      assert c.read + [c.queue[0]] + c.queue[1..] == c.read + c.queue;
    }
    assert s.terminal.Done? ==> !m.PumpDone? && !m.PumpFails?;
    StaysProper(s, Next(s, m), c, Next(s, m).conns[i]);
  }

  /** A connection that was there before the move. */
  lemma MoveEndsProperly(s: Server, m: Move, i: nat)
    requires Inv(s) && Legal(s, m) && i < |s.conns|
    requires EndsProperly(s, s.conns[i]) && EndsAsFound(s, s.conns[i])
    ensures EndsProperly(Next(s, m), Next(s, m).conns[i])
  {
    if m.PumpOne? {
      FeedEndsProperly(s, Next(s, m), s.conns[i], s.produced[|s.history|]);
    } else if m.Settle? {
      SettleEndsProperly(s, Next(s, m), s.conns[i], m.rejection);
    } else {
      UnfedEndsProperly(s, m, i);
    }
  }

  /** The chunks of the connection are where they were, and what it is told has not changed. */
  lemma StaysProper(s: Server, s': Server, c: Conn, c': Conn)
    requires EndsProperly(s, c) && (s.terminal.Running? ==> !c.ending.Settled?)
    requires s'.pendingCap == s.pendingCap && s'.terminal == s.terminal && (s.terminal.Done? ==> s'.pump == s.pump)
    requires c'.ending == Cancelled || (c'.ending == c.ending && c'.Chunks() == c.Chunks() && c'.found == c.found)
    ensures EndsProperly(s', c')
  {
  }

  lemma NextEndsProperly(s: Server, m: Move)
    requires Inv(s) && AllEndAsFound(s) && AllEndProperly(s) && Legal(s, m)
    ensures AllEndProperly(Next(s, m))
  {
    forall i | 0 <= i < |Next(s, m).conns| ensures EndsProperly(Next(s, m), Next(s, m).conns[i]) {
      if i < |s.conns| {
        assert EndsProperly(s, s.conns[i]) && EndsAsFound(s, s.conns[i]);
        MoveEndsProperly(s, m, i);
      } else {
        OpenEndsProperly(s, m.cursor);
      }
    }
  }

  /**
   Over every interleaving, every connection ends properly: it is given up as
   slow only after its bound was reached.
   */
  lemma {:induction false} ConnectionsEndProperly(cap: nat, pendingCap: nat, moves: seq<Move>)
    requires cap >= 1 && pendingCap >= 1 && LegalRun(cap, pendingCap, moves)
    ensures AllEndProperly(Run(cap, pendingCap, moves))
  {
    if moves != [] {
      ConnectionsEndProperly(cap, pendingCap, Front(moves));
      RunKeepsInv(cap, pendingCap, Front(moves));
      RunEndsAsFound(cap, pendingCap, Front(moves));
      NextEndsProperly(Run(cap, pendingCap, Front(moves)), Last(moves));
    }
  }

  /**
   Who is fed, step by step: a pump step adds the next produced event to every
   open connection with room, and to no other; the settle closes every open
   connection, none as slow; a read moves one chunk from the queue to what was
   read; nothing else touches a connection that is there.
   */
  lemma StepFeedsExactly(s: Server, m: Move, i: nat)
    requires Inv(s) && Legal(s, m) && i < |s.conns|
    ensures var c, c' := s.conns[i], Next(s, m).conns[i];
            match m
            case PumpOne =>
              var e := s.produced[|s.history|];
              if c.ending != Open then c' == c
              else if |c.queue| < s.pendingCap then c' == c.(queue := c.queue + [Frame(e)])
              else c' == c.(queue := c.queue + [SlowMark], ending := Slow)
            case Settle(rejection) =>
              if c.ending != Open then c' == c
              else c'.ending.Settled? && c'.read == c.read && c.queue <= c'.queue
                   && (c'.ending.complete <==> rejection.None? && !s.pump.Failed?)
            case Read(j) =>
              if j == i then c'.Chunks() == c.Chunks() && |c'.read| == |c.read| + 1 && c'.ending == c.ending
              else c' == c
            case Cancel(j) => if j == i then c'.ending == Cancelled && c'.read == c.read else c' == c
            case _ => c' == c
  {
    if m.Read? && m.conn == i {
      var c := s.conns[i];
      assert c.read + [c.queue[0]] + c.queue[1..] == c.read + c.queue;
    }
  }
}

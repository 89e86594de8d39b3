/**
 The server's per-run replay buffer and the replay half of a Server-Sent
 Events connection: a window over the event history that drops in chunks, a
 binary-searched resume point, the gap mark, and the per-connection bound.
 */
module ReplayBuffer {
  import opened Prelude

  /** A workflow event; `id` is its seq, the SSE event id. */
  datatype Event = Event(id: int, body: string)

  /** A client's Last-Event-ID, any finite number; None when absent or unparsable. */
  type Cursor = Option<real>

  ghost predicate Ascending(es: seq<Event>) {
    forall i, j :: 0 <= i < j < |es| ==> es[i].id < es[j].id
  }

  lemma AscendingPush(es: seq<Event>, e: Event)
    requires Ascending(es) && (es != [] ==> Last(es).id < e.id)
    ensures Ascending(es + [e])
  {
  }

  predicate Seen(cursor: Cursor, e: Event) {
    cursor.Some? && e.id as real <= cursor.value
  }

  // ---------------------------------------------------------------- the window

  datatype Window = Window(buffer: seq<Event>, dropped: nat)

  function Max(a: int, b: int): int {
    if a < b then b else a
  }

  function DropChunk(cap: nat): nat {
    Max(1, cap / 8)
  }

  function Push(cap: nat, w: Window, e: Event): Window
    requires cap >= 1
  {
    var buffer := w.buffer + [e];
    if |buffer| > cap then
      Window(buffer[DropChunk(cap)..], w.dropped + DropChunk(cap))
    else Window(buffer, w.dropped)
  }

  function PushAll(cap: nat, es: seq<Event>): Window
    requires cap >= 1
  {
    if es == [] then Window([], 0) else Push(cap, PushAll(cap, Front(es)), Last(es))
  }

  /** Array elements moved by the splices of all pushes. */
  function Shifted(cap: nat, es: seq<Event>): nat
    requires cap >= 1
  {
    if es == [] then 0
    else
      Shifted(cap, Front(es))
      + if |PushAll(cap, Front(es)).buffer| + 1 > cap then |PushAll(cap, es).buffer| else 0
  }

  ghost predicate WindowOf(cap: nat, w: Window, history: seq<Event>) {
    && w.dropped <= |history|
    && w.buffer == history[w.dropped..]
    && |w.buffer| <= cap
    && (w.dropped > 0 ==> |w.buffer| >= cap + 1 - DropChunk(cap))
  }

  lemma PushKeepsWindow(cap: nat, w: Window, history: seq<Event>, e: Event)
    requires cap >= 1 && WindowOf(cap, w, history)
    ensures WindowOf(cap, Push(cap, w, e), history + [e])
  {
    assert (history + [e])[w.dropped..] == w.buffer + [e];
    if |w.buffer| + 1 > cap {
      assert (history + [e])[w.dropped..][DropChunk(cap)..] == (history + [e])[w.dropped + DropChunk(cap)..];
    }
  }

  lemma {:induction false} PushAllIsWindow(cap: nat, es: seq<Event>)
    requires cap >= 1
    ensures WindowOf(cap, PushAll(cap, es), es)
  {
    if es != [] {
      PushAllIsWindow(cap, Front(es));
      PushKeepsWindow(cap, PushAll(cap, Front(es)), Front(es), Last(es));
      assert es == Front(es) + [Last(es)];
    }
  }

  lemma ChunkBounds(cap: nat)
    requires cap >= 1
    ensures 8 * (cap + 1 - DropChunk(cap)) >= 7 * cap
    ensures cap + 1 - DropChunk(cap) <= 15 * DropChunk(cap)
  {
  }

  /** Each splice moves at most fifteen elements per element it drops. */
  lemma {:induction false} SpliceCost(cap: nat, es: seq<Event>)
    requires cap >= 1
    ensures Shifted(cap, es) <= 15 * PushAll(cap, es).dropped
  {
    if es != [] {
      SpliceCost(cap, Front(es));
      PushAllIsWindow(cap, Front(es));
      ChunkBounds(cap);
    }
  }

  /**
   The buffer refines the full history: it is always the newest events, at
   most `cap` of them; once anything was dropped it never holds fewer than
   seven eighths of the bound; and all splices together move at most fifteen
   elements per push.
   */
  lemma BufferRefinesHistory(cap: nat, es: seq<Event>)
    requires cap >= 1
    ensures var w := PushAll(cap, es);
            && WindowOf(cap, w, es)
            && (w.dropped > 0 ==> 8 * |w.buffer| >= 7 * cap)
            && Shifted(cap, es) <= 15 * |es|
  {
    PushAllIsWindow(cap, es);
    ChunkBounds(cap);
    SpliceCost(cap, es);
  }

  // ---------------------------------------------------------------- the resume point

  /** Events of the buffer strictly after the cursor, in buffer order. */
  function After(buffer: seq<Event>, cursor: Cursor): (rest: seq<Event>)
    ensures |rest| <= |buffer|
  {
    if buffer == [] then []
    else if Seen(cursor, buffer[0]) then After(buffer[1..], cursor)
    else buffer
  }

  ghost predicate Splits(buffer: seq<Event>, cursor: Cursor, k: nat) {
    && k <= |buffer|
    && (forall i :: 0 <= i < k ==> Seen(cursor, buffer[i]))
    && (forall i :: k <= i < |buffer| ==> !Seen(cursor, buffer[i]))
  }

  lemma {:induction false} AfterIsSuffix(buffer: seq<Event>, cursor: Cursor, k: nat)
    requires Splits(buffer, cursor, k)
    ensures After(buffer, cursor) == buffer[k..]
  {
    if k > 0 {
      AfterIsSuffix(buffer[1..], cursor, k - 1);
    }
  }

  lemma {:induction false} SplitExists(buffer: seq<Event>, cursor: Cursor) returns (k: nat)
    requires Ascending(buffer)
    ensures Splits(buffer, cursor, k) && After(buffer, cursor) == buffer[k..]
  {
    if buffer == [] || !Seen(cursor, buffer[0]) {
      k := 0;
    } else {
      var j := SplitExists(buffer[1..], cursor);
      k := j + 1;
      assert forall i :: 1 <= i < |buffer| ==> buffer[i] == buffer[1..][i - 1];
    }
  }

  /** `x >> 1` after JavaScript's conversion to a signed 32-bit integer. */
  function ShiftRight1(x: nat): int {
    var low := x % 0x1_0000_0000;
    (if low < 0x8000_0000 then low else low - 0x1_0000_0000) / 2
  }

  lemma ShiftHalves(lo: nat, hi: nat)
    requires lo < hi <= 0x4000_0000
    ensures lo <= ShiftRight1(lo + hi) < hi
  {
  }

  /** The first buffered event strictly after the cursor, by binary search. */
  method ResumeIndex(buffer: seq<Event>, cursor: Cursor) returns (startIndex: nat)
    requires Ascending(buffer)
    requires |buffer| <= 0x4000_0000
    ensures Splits(buffer, cursor, startIndex)
  {
    startIndex := 0;
    if cursor.Some? {
      var lo, hi := 0, |buffer|;
      while lo < hi
        invariant 0 <= lo <= hi <= |buffer|
        invariant forall i :: 0 <= i < lo ==> Seen(cursor, buffer[i])
        invariant forall i :: hi <= i < |buffer| ==> !Seen(cursor, buffer[i])
      {
        var mid := ShiftRight1(lo + hi);
        ShiftHalves(lo, hi);
        if buffer[mid].id as real <= cursor.value {
          lo := mid + 1;
        } else {
          hi := mid;
        }
      }
      startIndex := lo;
    }
  }

  // ---------------------------------------------------------------- one connection's opening queue

  datatype Chunk =
    | GapMark(firstRetained: Option<int>, dropped: nat)
    | Frame(event: Event)
    | SlowMark
    | Note(text: string)

  /** The comment is needed unless the cursor proves the client is inside the window. */
  predicate Gap(w: Window, cursor: Cursor) {
    w.dropped > 0
    && (cursor.None? || w.buffer == [] || cursor.value < w.buffer[0].id as real)
  }

  function GapChunks(w: Window, cursor: Cursor): seq<Chunk> {
    if Gap(w, cursor) then
      [GapMark(if w.buffer == [] then None else Some(w.buffer[0].id), w.dropped)]
    else []
  }

  function Frames(es: seq<Event>): (chunks: seq<Chunk>)
    ensures |chunks| == |es|
  {
    seq(|es|, i requires 0 <= i < |es| => Frame(es[i]))
  }

  /** How many events the opening replay may enqueue. */
  function Room(w: Window, cursor: Cursor, pendingCap: nat): nat
    requires pendingCap >= 1
  {
    pendingCap - |GapChunks(w, cursor)|
  }

  function Replayed(w: Window, cursor: Cursor, pendingCap: nat): seq<Event>
    requires pendingCap >= 1
  {
    var backlog := After(w.buffer, cursor);
    if |backlog| <= Room(w, cursor, pendingCap) then backlog else backlog[..Room(w, cursor, pendingCap)]
  }

  /** A settled run: `done`, with the rejection text when it never settled properly. */
  datatype Terminal = Running | Done(rejection: Option<string>)

  /** What the stream's start callback leaves: the queued chunks, and whether a live feed was hooked. */
  function OpeningQueue(w: Window, terminal: Terminal, cursor: Cursor, pendingCap: nat): seq<Chunk>
    requires pendingCap >= 1
  {
    GapChunks(w, cursor) + Frames(Replayed(w, cursor, pendingCap)) + OpeningTail(w, terminal, cursor, pendingCap)
  }

  /** The mark behind a replay that did not fit, or the reason a run never settled. */
  function OpeningTail(w: Window, terminal: Terminal, cursor: Cursor, pendingCap: nat): (tail: seq<Chunk>)
    requires pendingCap >= 1
    ensures |tail| <= 1 && (tail != [] ==> !tail[0].Frame?)
  {
    if |Replayed(w, cursor, pendingCap)| < |After(w.buffer, cursor)| then [SlowMark]
    else if terminal.Done? && terminal.rejection.Some? then [Note(terminal.rejection.value)]
    else []
  }

  /** The opening queue in terms of the resume index. */
  lemma OpeningAt(w: Window, terminal: Terminal, cursor: Cursor, pendingCap: nat, k: nat)
    requires pendingCap >= 1 && Splits(w.buffer, cursor, k)
    ensures var gap := GapChunks(w, cursor);
            var room := pendingCap - |gap|;
            var complete := |w.buffer| - k <= room;
            && HooksFeed(w, terminal, cursor, pendingCap) == (complete && terminal.Running?)
            && OpeningQueue(w, terminal, cursor, pendingCap)
               == if !complete then gap + Frames(w.buffer[k..k + room]) + [SlowMark]
                  else if terminal.Done? && terminal.rejection.Some? then
                    gap + Frames(w.buffer[k..]) + [Note(terminal.rejection.value)]
                  else gap + Frames(w.buffer[k..])
  {
    AfterIsSuffix(w.buffer, cursor, k);
    var gap := GapChunks(w, cursor);
    var room := pendingCap - |gap|;
    if |w.buffer| - k > room {
      assert w.buffer[k..][..room] == w.buffer[k..k + room];
    }
  }

  predicate HooksFeed(w: Window, terminal: Terminal, cursor: Cursor, pendingCap: nat)
    requires pendingCap >= 1
  {
    terminal.Running? && |Replayed(w, cursor, pendingCap)| == |After(w.buffer, cursor)|
  }

  // ---------------------------------------------------------------- the tracked run

  class TrackedRun {
    const cap: nat
    var buffer: seq<Event>
    var dropped: nat
    var terminal: Terminal
    ghost var history: seq<Event>

    ghost predicate Valid()
      reads this
    {
      && cap >= 1
      && Ascending(history)
      && WindowOf(cap, View(), history)
    }

    ghost function View(): Window
      reads this
    {
      Window(buffer, dropped)
    }

    constructor (cap: nat)
      requires cap >= 1
      ensures Valid() && history == [] && this.cap == cap && terminal == Running
    {
      this.cap := cap;
      buffer, dropped, terminal, history := [], 0, Running, [];
    }

    method PushBuffered(e: Event)
      requires Valid()
      requires history != [] ==> Last(history).id < e.id
      modifies this
      ensures Valid() && history == old(history) + [e] && terminal == old(terminal)
      ensures View() == Push(cap, old(View()), e)
    {
      PushKeepsWindow(cap, View(), history, e);
      AscendingPush(history, e);
      buffer := buffer + [e];
      if |buffer| > cap {
        var chunk := Max(1, cap / 8);
        buffer := buffer[chunk..];
        dropped := dropped + chunk;
      }
      history := history + [e];
    }

    /** The bounded replay loop, walking the buffer by index from the resume point. */
    method Replay(gap: seq<Chunk>, startIndex: nat, pendingCap: nat) returns (queue: seq<Chunk>, complete: bool)
      requires startIndex <= |buffer| && |gap| <= pendingCap
      ensures complete == (|buffer| - startIndex <= pendingCap - |gap|)
      ensures complete ==> queue == gap + Frames(buffer[startIndex..])
      ensures !complete ==>
                queue == gap + Frames(buffer[startIndex..startIndex + pendingCap - |gap|]) + [SlowMark]
    {
      queue := gap;
      var i := startIndex;
      while i < |buffer|
        invariant startIndex <= i <= |buffer|
        invariant i - startIndex <= pendingCap - |gap|
        invariant queue == gap + Frames(buffer[startIndex..i])
      {
        if |queue| >= pendingCap {
          queue := queue + [SlowMark];
          return queue, false;
        }
        queue := queue + [Frame(buffer[i])];
        i := i + 1;
      }
      assert buffer[startIndex..i] == buffer[startIndex..];
      complete := true;
    }

    /** The stream's start callback: gap comment, bounded replay, then the terminal or the live feed. */
    method Open(cursor: Cursor, pendingCap: nat) returns (queue: seq<Chunk>, live: bool)
      requires Ascending(buffer) && pendingCap >= 1
      requires |buffer| <= 0x4000_0000
      ensures queue == OpeningQueue(Window(buffer, dropped), terminal, cursor, pendingCap)
      ensures live == HooksFeed(Window(buffer, dropped), terminal, cursor, pendingCap)
    {
      var startIndex := ResumeIndex(buffer, cursor);
      OpeningAt(Window(buffer, dropped), terminal, cursor, pendingCap, startIndex);
      var gap := GapChunks(Window(buffer, dropped), cursor);
      var complete: bool;
      queue, complete := Replay(gap, startIndex, pendingCap);
      live := complete && terminal.Running?;
      if complete && terminal.Done? && terminal.rejection.Some? {
        queue := queue + [Note(terminal.rejection.value)];
        assert queue == gap + Frames(buffer[startIndex..]) + [Note(terminal.rejection.value)];
      }
    }
  }

  // ---------------------------------------------------------------- gaps

  /** Some dropped event lies past the cursor: the client can no longer get it. */
  ghost predicate Missed(history: seq<Event>, dropped: nat, cursor: Cursor)
    requires dropped <= |history|
  {
    exists i :: 0 <= i < dropped && !Seen(cursor, history[i])
  }

  /**
   The gap comment is exact up to one case: it is shown whenever an event past
   the cursor was dropped, and the only needless comment is for a cursor
   standing on (or between) the last dropped and the first retained event.
   */
  lemma GapMarkExactly(cap: nat, w: Window, history: seq<Event>, cursor: Cursor)
    requires cap >= 1 && Ascending(history) && WindowOf(cap, w, history)
    ensures Missed(history, w.dropped, cursor) ==> Gap(w, cursor)
    ensures Gap(w, cursor) && !Missed(history, w.dropped, cursor)
            <==> && w.dropped > 0
                 && cursor.Some?
                 && history[w.dropped - 1].id as real <= cursor.value < history[w.dropped].id as real
  {
    if w.dropped > 0 {
      assert w.buffer[0] == history[w.dropped];
      assert cursor.Some? && history[w.dropped - 1].id as real <= cursor.value ==>
        forall i :: 0 <= i < w.dropped ==> Seen(cursor, history[i]);
      assert !Seen(cursor, history[w.dropped - 1]) ==> Missed(history, w.dropped, cursor);
      forall i | 0 <= i < w.dropped && !Seen(cursor, history[i]) ensures Gap(w, cursor) {
        assert history[i].id < history[w.dropped].id;
      }
    }
  }

  /** The gap mark names the oldest event that can still be had, and how many came before it. */
  lemma GapMarkTells(cap: nat, w: Window, history: seq<Event>, cursor: Cursor)
    requires cap >= 1 && WindowOf(cap, w, history) && Gap(w, cursor)
    ensures w.dropped < |history|
    ensures GapChunks(w, cursor) == [GapMark(Some(history[w.dropped].id), |history[..w.dropped]|)]
  {
    assert w.buffer[0] == history[w.dropped];
  }

  // ---------------------------------------------------------------- draining by reconnects

  /** The cursor of a client whose last read event was the end of `es`. */
  function CursorAfter(es: seq<Event>): Cursor
    requires es != []
  {
    Some(Last(es).id as real)
  }

  lemma AfterAdvances(buffer: seq<Event>, cursor: Cursor, n: nat)
    requires Ascending(buffer)
    requires 0 < n <= |After(buffer, cursor)|
    ensures After(buffer, CursorAfter(After(buffer, cursor)[..n])) == After(buffer, cursor)[n..]
  {
    var k := SplitExists(buffer, cursor);
    assert Last(After(buffer, cursor)[..n]) == buffer[k + n - 1];
    SplitsAt(buffer, k + n);
    AfterIsSuffix(buffer, Some(buffer[k + n - 1].id as real), k + n);
  }

  /** A cursor on an event splits the buffer right behind it. */
  lemma SplitsAt(buffer: seq<Event>, m: nat)
    requires Ascending(buffer) && 0 < m <= |buffer|
    ensures Splits(buffer, Some(buffer[m - 1].id as real), m)
  {
  }

  /**
   What a client reads from a quiet run over successive connections, reading
   each to its close and reconnecting with the id of the last event it read,
   until a connection brings nothing new.
   */
  function Drain(w: Window, cursor: Cursor, pendingCap: nat): seq<Event>
    requires pendingCap >= 1
    decreases |After(w.buffer, cursor)|
  {
    var got := Replayed(w, cursor, pendingCap);
    if got == [] then []
    else
      var next := CursorAfter(got);
      if |After(w.buffer, next)| < |After(w.buffer, cursor)| then got + Drain(w, next, pendingCap) else got
  }

  lemma WithinWindowNoGap(w: Window, cursor: Cursor, n: nat)
    requires Ascending(w.buffer)
    requires 0 < n <= |After(w.buffer, cursor)|
    ensures !Gap(w, CursorAfter(After(w.buffer, cursor)[..n]))
  {
    var k := SplitExists(w.buffer, cursor);
    assert Last(After(w.buffer, cursor)[..n]) == w.buffer[k + n - 1];
    assert k + n - 1 > 0 ==> w.buffer[0].id < w.buffer[k + n - 1].id;
  }

  /** A connection is replayed the front of the backlog, and none of it only when there is none or no room. */
  lemma ReplayedPrefix(w: Window, cursor: Cursor, pendingCap: nat)
    requires pendingCap >= 1
    ensures var backlog, got := After(w.buffer, cursor), Replayed(w, cursor, pendingCap);
            && |got| <= |backlog| && got == backlog[..|got|]
            && (got == [] <==> backlog == [] || (pendingCap == 1 && Gap(w, cursor)))
  {
  }

  /**
   Reconnecting drains exactly the retained events after the first cursor, in
   order and without repeats, unless the bound is one and the gap comment
   alone fills the queue: then no connection ever makes progress.
   */
  lemma {:induction false} DrainDeliversExactly(w: Window, cursor: Cursor, pendingCap: nat)
    requires pendingCap >= 1 && Ascending(w.buffer)
    ensures Drain(w, cursor, pendingCap)
            == if pendingCap == 1 && Gap(w, cursor) then [] else After(w.buffer, cursor)
    decreases |After(w.buffer, cursor)|
  {
    var backlog, got := After(w.buffer, cursor), Replayed(w, cursor, pendingCap);
    ReplayedPrefix(w, cursor, pendingCap);
    if got != [] {
      AfterAdvances(w.buffer, cursor, |got|);
      WithinWindowNoGap(w, cursor, |got|);
      DrainDeliversExactly(w, CursorAfter(got), pendingCap);
      DrainUnfolds(w, cursor, pendingCap);
      assert backlog[..|got|] + backlog[|got|..] == backlog;
    }
  }

  lemma DrainUnfolds(w: Window, cursor: Cursor, pendingCap: nat)
    requires pendingCap >= 1 && Replayed(w, cursor, pendingCap) != []
    requires |After(w.buffer, CursorAfter(Replayed(w, cursor, pendingCap)))| < |After(w.buffer, cursor)|
    ensures Drain(w, cursor, pendingCap)
            == Replayed(w, cursor, pendingCap) + Drain(w, CursorAfter(Replayed(w, cursor, pendingCap)), pendingCap)
  {
  }

  // ---------------------------------------------------------------- the two edge cases, on one window

  /** Two events through a bound of one: the first was dropped. */
  const OneKept: Window := Window([Event(2, "b")], 1)
  const TwoEvents: seq<Event> := [Event(1, "a"), Event(2, "b")]

  lemma OneKeptIsReached()
    ensures PushAll(1, TwoEvents) == OneKept
  {
    assert Front(TwoEvents) == [Event(1, "a")] && Front([Event(1, "a")]) == [];
    assert PushAll(1, [Event(1, "a")]) == Window([Event(1, "a")], 0);
  }

  /** A client that read the dropped event is told of a gap although it missed nothing. */
  lemma NeedlessGapMark()
    ensures Gap(OneKept, Some(1.0)) && !Missed(TwoEvents, 1, Some(1.0))
    ensures After(OneKept.buffer, Some(1.0)) == [Event(2, "b")]
  {
  }

  /** With a pending bound of one the gap mark fills the queue of every connection, and nothing is ever read. */
  lemma BoundOneStalls()
    ensures Drain(OneKept, None, 1) == [] && After(OneKept.buffer, None) == [Event(2, "b")]
    ensures OpeningQueue(OneKept, Running, None, 1) == [GapMark(Some(2), 1), SlowMark]
  {
    assert GapChunks(OneKept, None) == [GapMark(Some(2), 1)];
    assert Replayed(OneKept, None, 1) == [];
  }
}

/**
 The reference host's guarded effect: the intent row before the effect, the
 outcome row after it, and the effect itself only if its idempotency key has
 not fired yet. Attempts are split at their awaits and interleave freely; the
 in-memory ledger takes a row in the call itself, before the await. An attempt
 that is never advanced again is one that crashed.
 */
module GuardedEffect {
  import opened Prelude

  /** Which await an attempt is in, or that it has returned. */
  datatype Phase = Intended | Recorded | Returned

  datatype Attempt = Attempt(key: string, id: string, phase: Phase, applied: bool)

  /** What the outside world can see, in order: ledger rows and firings, by attempt id. */
  datatype Mark = IntentRow(id: string) | Firing(id: string) | OutcomeRow(id: string)

  datatype State = State(counter: nat, attempts: seq<Attempt>, fired: seq<string>, trace: seq<Mark>)

  const Initial: State := State(0, [], [], [])

  datatype Move = Begin(key: string) | Advance(attempt: nat)

  function AttemptId(key: string, n: nat): string {
    Tagged(key, "", n)
  }

  function BeginAttempt(st: State, key: string): State {
    var id := AttemptId(key, st.counter + 1);
    st.(counter := st.counter + 1,
        attempts := st.attempts + [Attempt(key, id, Intended, false)],
        trace := st.trace + [IntentRow(id)])
  }

  function AdvanceAttempt(st: State, i: nat): State
    requires i < |st.attempts|
  {
    var a := st.attempts[i];
    match a.phase
    case Intended =>
      var already := a.key in st.fired;
      st.(attempts := st.attempts[i := a.(phase := Recorded, applied := !already)],
          fired := if already then st.fired else st.fired + [a.key],
          trace := (if already then st.trace else st.trace + [Firing(a.id)]) + [OutcomeRow(a.id)])
    case Recorded => st.(attempts := st.attempts[i := a.(phase := Returned)])
    case Returned => st
  }

  function Step(st: State, m: Move): State {
    match m
    case Begin(key) => BeginAttempt(st, key)
    case Advance(i) => if i < |st.attempts| then AdvanceAttempt(st, i) else st
  }

  function Run(ms: seq<Move>): State {
    if ms == [] then Initial else Step(Run(Front(ms)), Last(ms))
  }

  // ---------------------------------------------------------------- the shared state

  /** The module counter, the fired list and the ledger that all attempts share. */
  class Host {
    var attemptCounter: nat
    var attempts: seq<Attempt>
    var fired: seq<string>
    var trace: seq<Mark>

    ghost function View(): State
      reads this
    {
      State(attemptCounter, attempts, fired, trace)
    }

    constructor ()
      ensures View() == Initial
    {
      attemptCounter, attempts, fired, trace := 0, [], [], [];
    }

    /** An attempt up to its first await. */
    method Execute(key: string)
      modifies this
      ensures View() == Step(old(View()), Begin(key))
    {
      attemptCounter := attemptCounter + 1;
      var id := AttemptId(key, attemptCounter);
      trace := trace + [IntentRow(id)];
      attempts := attempts + [Attempt(key, id, Intended, false)];
    }

    /** One attempt to its next await, or to its return. */
    method Resume(i: nat)
      requires i < |attempts|
      modifies this
      ensures View() == Step(old(View()), Advance(i))
    {
      var a := attempts[i];
      match a.phase
      case Intended =>
        var alreadyFired := a.key in fired;
        if !alreadyFired {
          fired := fired + [a.key];
          trace := trace + [Firing(a.id)];
        }
        trace := trace + [OutcomeRow(a.id)];
        attempts := attempts[i := a.(phase := Recorded, applied := !alreadyFired)];
      case Recorded =>
        attempts := attempts[i := a.(phase := Returned)];
      case Returned =>
    }
  }

  // ---------------------------------------------------------------- once per key

  function Count(fired: seq<string>, key: string): nat {
    if fired == [] then 0 else Count(Front(fired), key) + if Last(fired) == key then 1 else 0
  }

  /** Attempts of a key that found it unclaimed. */
  function Applied(attempts: seq<Attempt>, key: string): nat {
    if attempts == [] then 0
    else Applied(Front(attempts), key) + if Last(attempts).key == key && Last(attempts).applied then 1 else 0
  }

  lemma CountAppend(fired: seq<string>, k: string, key: string)
    ensures Count(fired + [k], key) == Count(fired, key) + if k == key then 1 else 0
  {
    assert Front(fired + [k]) == fired;
  }

  lemma {:induction false} CountIsMembership(fired: seq<string>, key: string)
    ensures Count(fired, key) > 0 <==> key in fired
  {
    if fired != [] {
      CountIsMembership(Front(fired), key);
      assert fired == Front(fired) + [Last(fired)];
    }
  }

  lemma AppliedAppend(attempts: seq<Attempt>, a: Attempt, key: string)
    ensures Applied(attempts + [a], key) == Applied(attempts, key) + if a.key == key && a.applied then 1 else 0
  {
    assert Front(attempts + [a]) == attempts;
  }

  lemma {:induction false} AppliedUpdate(attempts: seq<Attempt>, i: nat, a: Attempt, key: string)
    requires i < |attempts| && a.key == attempts[i].key
    ensures Applied(attempts[i := a], key)
            == Applied(attempts, key)
               + (if a.key == key && a.applied then 1 else 0)
               - (if a.key == key && attempts[i].applied then 1 else 0)
  {
    if i == |attempts| - 1 {
      assert Front(attempts[i := a]) == Front(attempts);
    } else {
      AppliedUpdate(Front(attempts), i, a, key);
      assert Front(attempts[i := a]) == Front(attempts)[i := a];
    }
  }

  /** Only checked attempts have an answer, and checked attempts have fired keys. */
  ghost predicate Progress(st: State) {
    forall i :: 0 <= i < |st.attempts| ==>
      var a := st.attempts[i];
      if a.phase.Intended? then !a.applied else a.key in st.fired
  }

  ghost predicate OncePerKey(st: State, key: string) {
    Count(st.fired, key) == Applied(st.attempts, key) <= 1
  }

  lemma StepProgress(st: State, m: Move)
    requires Progress(st)
    ensures Progress(Step(st, m))
  {
  }

  lemma StepOncePerKey(st: State, m: Move, key: string)
    requires Progress(st) && OncePerKey(st, key)
    ensures OncePerKey(Step(st, m), key)
  {
    match m
    case Begin(k) => AppliedAppend(st.attempts, Last(Step(st, m).attempts), key);
    case Advance(i) =>
      if i < |st.attempts| && !st.attempts[i].phase.Returned? {
        var a := st.attempts[i];
        AppliedUpdate(st.attempts, i, Step(st, m).attempts[i], key);
        CountAppend(st.fired, a.key, key);
        CountIsMembership(st.fired, a.key);
      }
  }

  lemma {:induction false} RunOncePerKey(ms: seq<Move>, key: string)
    ensures Progress(Run(ms)) && OncePerKey(Run(ms), key)
  {
    if ms != [] {
      RunOncePerKey(Front(ms), key);
      StepProgress(Run(Front(ms)), Last(ms));
      StepOncePerKey(Run(Front(ms)), Last(ms), key);
    }
  }

  lemma {:induction false} NoneApplied(attempts: seq<Attempt>, key: string)
    requires forall i :: 0 <= i < |attempts| ==> attempts[i].key != key
    ensures Applied(attempts, key) == 0
  {
    if attempts != [] {
      NoneApplied(Front(attempts), key);
    }
  }

  /**
   Under every interleaving a key fires at most once, and only attempts that
   fired it report it applied. Once every attempt has finished, each key that
   was attempted has fired exactly once and exactly one of its attempts
   reported applied.
   */
  lemma EffectFiresOnce(ms: seq<Move>, key: string)
    ensures var st := Run(ms);
            && Count(st.fired, key) <= 1 && Applied(st.attempts, key) == Count(st.fired, key)
            && ((forall i :: 0 <= i < |st.attempts| ==> st.attempts[i].phase.Returned?) ==>
                  Count(st.fired, key)
                  == if exists i :: 0 <= i < |st.attempts| && st.attempts[i].key == key then 1 else 0)
  {
    var st := Run(ms);
    RunOncePerKey(ms, key);
    CountIsMembership(st.fired, key);
    if !exists i :: 0 <= i < |st.attempts| && st.attempts[i].key == key {
      NoneApplied(st.attempts, key);
    }
  }

  // ---------------------------------------------------------------- rows and firings

  /** Attempt ids are numbered by the counter, so no two attempts share one. */
  ghost predicate Stamped(st: State) {
    && st.counter == |st.attempts|
    && (forall i :: 0 <= i < |st.attempts| ==> st.attempts[i].id == AttemptId(st.attempts[i].key, i + 1))
  }

  lemma IdsDiffer(k: string, m: nat, k': string, n: nat)
    requires m != n
    ensures AttemptId(k, m) != AttemptId(k', n)
  {
    if AttemptId(k, m) == AttemptId(k', n) { TaggedInjective(k, m, k', n, ""); }
  }

  lemma AttemptIdsDiffer(st: State, i: nat, j: nat)
    requires Stamped(st) && i < j < |st.attempts|
    ensures st.attempts[i].id != st.attempts[j].id
  {
    var a, b := st.attempts[i], st.attempts[j];
    assert a.id == AttemptId(a.key, i + 1) && b.id == AttemptId(b.key, j + 1);
    IdsDiffer(a.key, i + 1, b.key, j + 1);
  }

  function Marks(trace: seq<Mark>, mark: Mark): nat {
    if trace == [] then 0 else Marks(Front(trace), mark) + if Last(trace) == mark then 1 else 0
  }

  lemma MarksAppend(trace: seq<Mark>, m: Mark, mark: Mark)
    ensures Marks(trace + [m], mark) == Marks(trace, mark) + if m == mark then 1 else 0
  {
    assert Front(trace + [m]) == trace;
  }

  /** What an attempt has left in the trace, phase by phase. */
  ghost predicate Traced(trace: seq<Mark>, a: Attempt) {
    && Marks(trace, IntentRow(a.id)) == 1
    && Marks(trace, Firing(a.id)) == (if a.applied then 1 else 0)
    && Marks(trace, OutcomeRow(a.id)) == (if a.phase.Intended? then 0 else 1)
  }

  /** Every firing and every outcome row comes after exactly one intent row of its own attempt. */
  ghost predicate Ordered(trace: seq<Mark>) {
    forall j :: 0 <= j < |trace| && !trace[j].IntentRow? ==> Marks(trace[..j], IntentRow(trace[j].id)) == 1
  }

  ghost predicate Unmarked(trace: seq<Mark>, id: string) {
    Marks(trace, IntentRow(id)) == 0 && Marks(trace, Firing(id)) == 0 && Marks(trace, OutcomeRow(id)) == 0
  }

  ghost predicate Ledgered(st: State) {
    && Stamped(st) && Ordered(st.trace)
    && (forall i :: 0 <= i < |st.attempts| ==> Traced(st.trace, st.attempts[i]))
    && (forall k, n: nat {:trigger AttemptId(k, n)} :: n > st.counter ==> Unmarked(st.trace, AttemptId(k, n)))
  }

  lemma OrderedAppend(trace: seq<Mark>, m: Mark)
    requires Ordered(trace) && (!m.IntentRow? ==> Marks(trace, IntentRow(m.id)) == 1)
    ensures Ordered(trace + [m])
  {
    var more := trace + [m];
    forall j | 0 <= j < |more| && !more[j].IntentRow? ensures Marks(more[..j], IntentRow(more[j].id)) == 1 {
      assert more[..j] == if j < |trace| then trace[..j] else trace;
    }
  }

  /** Marks of one attempt say nothing about another's. */
  lemma OthersUntouched(trace: seq<Mark>, m: Mark, id: string)
    requires m.id != id
    ensures Unmarked(trace, id) ==> Unmarked(trace + [m], id)
    ensures forall a: Attempt :: a.id == id && Traced(trace, a) ==> Traced(trace + [m], a)
  {
    MarksAppend(trace, m, IntentRow(id));
    MarksAppend(trace, m, Firing(id));
    MarksAppend(trace, m, OutcomeRow(id));
  }

  /** Attempt `i` leaves mark `m` and becomes `a`. */
  lemma MarkLeft(st: State, st': State, i: nat, a: Attempt, m: Mark)
    requires Ledgered(st) && i < |st.attempts| && m.id == a.id
    requires a.id == st.attempts[i].id && a.key == st.attempts[i].key
    requires st'.attempts == st.attempts[i := a] && st'.trace == st.trace + [m] && st'.counter == st.counter
    requires (!m.IntentRow? ==> Marks(st.trace, IntentRow(m.id)) == 1)
    requires Traced(st'.trace, a)
    ensures Ledgered(st')
  {
    OrderedAppend(st.trace, m);
    forall j | 0 <= j < |st.attempts| && j != i ensures Traced(st'.trace, st.attempts[j]) {
      AttemptIdsDiffer(st, if i < j then i else j, if i < j then j else i);
      OthersUntouched(st.trace, m, st.attempts[j].id);
    }
    forall k, n: nat | n > st.counter ensures Unmarked(st'.trace, AttemptId(k, n)) {
      IdsDiffer(k, n, a.key, i + 1);
      OthersUntouched(st.trace, m, AttemptId(k, n));
    }
  }

  lemma BeginLedgered(st: State, key: string)
    requires Ledgered(st)
    ensures Ledgered(BeginAttempt(st, key))
  {
    var st' := BeginAttempt(st, key);
    var id := Last(st'.attempts).id;
    assert Unmarked(st.trace, id);
    OrderedAppend(st.trace, IntentRow(id));
    MarksAppend(st.trace, IntentRow(id), IntentRow(id));
    MarksAppend(st.trace, IntentRow(id), Firing(id));
    MarksAppend(st.trace, IntentRow(id), OutcomeRow(id));
    forall i | 0 <= i < |st.attempts| ensures Traced(st'.trace, st'.attempts[i]) {
      var a := st.attempts[i];
      IdsDiffer(a.key, i + 1, key, st.counter + 1);
      OthersUntouched(st.trace, IntentRow(id), a.id);
    }
    forall k, n: nat | n > st.counter + 1 ensures Unmarked(st'.trace, AttemptId(k, n)) {
      IdsDiffer(k, n, key, st.counter + 1);
      OthersUntouched(st.trace, IntentRow(id), AttemptId(k, n));
    }
  }

  lemma OneMoreMark(st: State, i: nat, a: Attempt, m: Mark)
    requires Ledgered(st) && i < |st.attempts| && m.id == a.id
    requires a.id == st.attempts[i].id && a.key == st.attempts[i].key
    requires (m == Firing(a.id) && !st.attempts[i].applied && a == st.attempts[i].(applied := true))
             || (m == OutcomeRow(a.id) && st.attempts[i].phase.Intended? && a == st.attempts[i].(phase := Recorded))
    ensures Ledgered(st.(attempts := st.attempts[i := a], trace := st.trace + [m]))
  {
    assert Traced(st.trace, st.attempts[i]);
    MarksAppend(st.trace, m, IntentRow(a.id));
    MarksAppend(st.trace, m, Firing(a.id));
    MarksAppend(st.trace, m, OutcomeRow(a.id));
    MarkLeft(st, st.(attempts := st.attempts[i := a], trace := st.trace + [m]), i, a, m);
  }

  lemma AdvanceLedgered(st: State, i: nat)
    requires Ledgered(st) && Progress(st) && i < |st.attempts|
    ensures Ledgered(AdvanceAttempt(st, i))
  {
    var st', a := AdvanceAttempt(st, i), st.attempts[i];
    match a.phase
    case Intended =>
      if a.key in st.fired {
        OneMoreMark(st, i, a.(phase := Recorded), OutcomeRow(a.id));
      } else {
        var b := a.(applied := true);
        var mid := st.(fired := st'.fired, attempts := st.attempts[i := b], trace := st.trace + [Firing(a.id)]);
        OneMoreMark(st, i, b, Firing(a.id));
        assert Ledgered(mid) && mid.attempts[i] == b;
        OneMoreMark(mid, i, b.(phase := Recorded), OutcomeRow(a.id));
        assert mid.attempts[i := b.(phase := Recorded)] == st'.attempts;
      }
    case _ => assert Traced(st.trace, a);
  }

  lemma {:induction false} RunLedgered(ms: seq<Move>)
    ensures Ledgered(Run(ms)) && Progress(Run(ms))
  {
    if ms != [] {
      RunLedgered(Front(ms));
      StepProgress(Run(Front(ms)), Last(ms));
      match Last(ms) {
        case Begin(key) => BeginLedgered(Run(Front(ms)), key);
        case Advance(i) => if i < |Run(Front(ms)).attempts| { AdvanceLedgered(Run(Front(ms)), i); }
      }
    }
  }

  /**
   Under every interleaving: attempt ids are unique; every firing and every
   outcome row comes after exactly one intent row of its own attempt; every
   attempt has left its intent row, and one past its first await also one
   outcome row, and one firing exactly if it reports applied.
   */
  lemma IntentBeforeEffect(ms: seq<Move>)
    ensures var st := Run(ms);
            && (forall i, j :: 0 <= i < j < |st.attempts| ==> st.attempts[i].id != st.attempts[j].id)
            && (forall j :: 0 <= j < |st.trace| && !st.trace[j].IntentRow? ==>
                  Marks(st.trace[..j], IntentRow(st.trace[j].id)) == 1)
            && (forall i :: 0 <= i < |st.attempts| ==> Marks(st.trace, IntentRow(st.attempts[i].id)) == 1)
            && (forall i :: 0 <= i < |st.attempts| && !st.attempts[i].phase.Intended? ==>
                  && Marks(st.trace, OutcomeRow(st.attempts[i].id)) == 1
                  && Marks(st.trace, Firing(st.attempts[i].id)) == if st.attempts[i].applied then 1 else 0)
  {
    var st := Run(ms);
    RunLedgered(ms);
    forall i, j | 0 <= i < j < |st.attempts| ensures st.attempts[i].id != st.attempts[j].id {
      AttemptIdsDiffer(st, i, j);
    }
    assert forall i :: 0 <= i < |st.attempts| ==> Traced(st.trace, st.attempts[i]);
  }

  // ---------------------------------------------------------------- the attempts, by the moves

  /** The keys of the attempts, in the order in which they began. */
  function Keys(ms: seq<Move>): seq<string> {
    if ms == [] then [] else Keys(Front(ms)) + if Last(ms).Begin? then [Last(ms).key] else []
  }

  /** How often attempt `i` was advanced since it began. */
  function Advances(ms: seq<Move>, i: nat): nat {
    if ms == [] then 0
    else Advances(Front(ms), i) + if Last(ms) == Advance(i) && i < |Keys(Front(ms))| then 1 else 0
  }

  /** The attempt whose first advance came first among those of the key. */
  function Claimant(ms: seq<Move>, key: string): Option<nat> {
    if ms == [] then None
    else if Claimant(Front(ms), key).Some? then Claimant(Front(ms), key)
    else
      match Last(ms)
      case Advance(i) =>
        if i < |Keys(Front(ms))| && Keys(Front(ms))[i] == key && Advances(Front(ms), i) == 0 then Some(i) else None
      case Begin(_) => None
  }

  function PhaseAfter(advances: nat): Phase {
    if advances == 0 then Intended else if advances == 1 then Recorded else Returned
  }

  ghost predicate AttemptAgrees(ms: seq<Move>, i: nat) {
    && |Run(ms).attempts| == |Keys(ms)|
    && (i < |Keys(ms)| ==>
          var a := Run(ms).attempts[i];
          && a.key == Keys(ms)[i]
          && a.phase == PhaseAfter(Advances(ms, i))
          && (a.applied <==> Claimant(ms, a.key) == Some(i)))
    && (i >= |Keys(ms)| ==> Advances(ms, i) == 0)
  }

  lemma {:induction false} FiredAreClaimed(ms: seq<Move>, key: string)
    ensures key in Run(ms).fired <==> Claimant(ms, key).Some?
    ensures Claimant(ms, key).Some? ==> Claimant(ms, key).value < |Keys(ms)| && Keys(ms)[Claimant(ms, key).value] == key
                                        && Advances(ms, Claimant(ms, key).value) > 0
  {
    if ms != [] {
      FiredAreClaimed(Front(ms), key);
      match Last(ms)
      case Advance(i) => AttemptsAreMoves(Front(ms), i);
      case Begin(_) =>
    }
  }

  /**
   Under every interleaving, the attempts are those that began, in that order;
   each is as far as it was advanced, and returns after two advances; and
   exactly the attempt of a key that was advanced first applied the effect.
   */
  lemma {:induction false} AttemptsAreMoves(ms: seq<Move>, i: nat)
    ensures AttemptAgrees(ms, i)
  {
    if ms != [] {
      AttemptsAreMoves(Front(ms), i);
      if Last(ms).Advance? {
        AttemptsAreMoves(Front(ms), Last(ms).attempt);
        if i < |Keys(Front(ms))| {
          FiredAreClaimed(Front(ms), Keys(Front(ms))[i]);
        }
      } else {
        FiredAreClaimed(Front(ms), Last(ms).key);
        if i < |Keys(Front(ms))| {
          FiredAreClaimed(Front(ms), Keys(Front(ms))[i]);
        }
      }
    }
  }

  /** No outcome row of an attempt stands before its firing. */
  ghost predicate FiresFirst(trace: seq<Mark>) {
    forall j :: 0 <= j < |trace| && trace[j].Firing? ==> Marks(trace[..j], OutcomeRow(trace[j].id)) == 0
  }

  lemma FiresFirstAppend(trace: seq<Mark>, m: Mark)
    requires FiresFirst(trace) && (m.Firing? ==> Marks(trace, OutcomeRow(m.id)) == 0)
    ensures FiresFirst(trace + [m])
  {
    var more := trace + [m];
    forall j | 0 <= j < |more| && more[j].Firing? ensures Marks(more[..j], OutcomeRow(more[j].id)) == 0 {
      assert more[..j] == if j < |trace| then trace[..j] else trace;
    }
  }

  lemma StepFiresFirst(st: State, m: Move)
    requires Ledgered(st) && FiresFirst(st.trace)
    ensures FiresFirst(Step(st, m).trace)
  {
    match m
    case Begin(key) => FiresFirstAppend(st.trace, IntentRow(AttemptId(key, st.counter + 1)));
    case Advance(i) =>
      if i < |st.attempts| && st.attempts[i].phase.Intended? {
        var a := st.attempts[i];
        assert Traced(st.trace, a);
        FiresFirstAppend(st.trace, Firing(a.id));
        var trace := if a.key in st.fired then st.trace else st.trace + [Firing(a.id)];
        FiresFirstAppend(trace, OutcomeRow(a.id));
      }
  }

  /** Under every interleaving, the effect of an attempt is fired before its outcome row is written. */
  lemma {:induction false} FiringBeforeOutcome(ms: seq<Move>)
    ensures FiresFirst(Run(ms).trace)
  {
    if ms != [] {
      FiringBeforeOutcome(Front(ms));
      RunLedgered(Front(ms));
      StepFiresFirst(Run(Front(ms)), Last(ms));
    }
  }
}

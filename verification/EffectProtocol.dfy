/**
 Recovery over the acceptance-closing row: a client that opens attempts,
 transmits each at most once (possibly long after a successor recovered),
 and licenses a fresh attempt only by provider-side evidence about every
 earlier one. Safety is proved over every interleaving with stalls, late
 releases, lookups and closures by anybody.
 */
module EffectProtocol {
  import opened Prelude
  import opened EffectProvider

  // ---------------------------------------------------------------- closure is final, for any client

  /** Closed identities hold no effect, and in-flight sends are fenced by their own identity. */
  ghost predicate ClosureInv(st: State) {
    && st.closed !! st.committed.Keys
    && (forall k :: k in st.order <==> k in st.committed)
    && (forall i :: 0 <= i < |st.stalled| ==> st.stalled[i].fenceKey == st.stalled[i].attemptIdentity)
  }

  /** What a release does to the committed set: only open, captured identities are added. */
  lemma {:induction false} LandAllAdds(d: Descriptor, st: State, sends: seq<StalledSend>)
    requires d.ClosesAcceptance() && ClosureInv(st)
    requires forall i :: 0 <= i < |sends| ==> sends[i].fenceKey == sends[i].attemptIdentity
    ensures var st' := LandAll(d, st, sends);
            && ClosureInv(st')
            && st'.closed == st.closed && st'.stalled == st.stalled
            && forall k :: k in st'.committed && k !in st.committed ==>
                 exists i :: 0 <= i < |sends| && sends[i].fenceKey == k
  {
    if sends != [] {
      LandAllAdds(d, st, Front(sends));
    }
  }

  lemma StepKeepsClosure(d: Descriptor, st: State, e: Event)
    requires d.ClosesAcceptance() && ClosureInv(st)
    ensures ClosureInv(Step(d, st, e))
    ensures st.closed <= Step(d, st, e).closed
  {
    match e {
      case Release =>
        LandAllAdds(d, st.(stalled := []), st.stalled);
      case Close(q) =>
        if q.attemptSeq.Some? {
          IdentityHasPrefix(q.naturalKey, q.attemptSeq.value);
        }
      case _ =>
    }
  }

  lemma IdentityHasPrefix(n: string, s: nat)
    ensures n + "#attempt" <= AttemptIdentity(n, s)
  {
    assert AttemptIdentity(n, s) == n + "#attempt" + Decimal(s);
  }

  lemma {:induction false} RunKeepsClosure(d: Descriptor, st: State, es: seq<Event>)
    requires d.ClosesAcceptance() && ClosureInv(st)
    ensures ClosureInv(Run(d, st, es))
    ensures st.closed <= Run(d, st, es).closed
  {
    if es != [] {
      RunKeepsClosure(d, st, Front(es));
      StepKeepsClosure(d, Run(d, st, Front(es)), Last(es));
    }
  }

  /**
   An acceptance-closing negative is final: once a closure answered
   `found: false` for an attempt, no later run of any client commits it.
   */
  lemma ClosedAttemptNeverCommits(d: Descriptor, es: seq<Event>, q: Query, more: seq<Event>)
    requires d.ClosesAcceptance()
    requires q.attemptSeq.Some?
    requires CloseAcceptance(d, Run(d, Initial, es), q).1 == NotFound(true)
    ensures var closed := CloseAcceptance(d, Run(d, Initial, es), q).0;
            AttemptIdentity(q.naturalKey, q.attemptSeq.value) !in Run(d, closed, more).committed
  {
    var st := Run(d, Initial, es);
    RunKeepsClosure(d, Initial, es);
    StepKeepsClosure(d, st, Close(q));
    RunKeepsClosure(d, CloseAcceptance(d, st, q).0, more);
  }

  // ---------------------------------------------------------------- the recovering client

  /** What the client knows of one attempt it opened. */
  datatype Attempt = Attempt(transmitted: bool, resolved: bool)

  /** One attempt: the intent's natural key and the seq of the attempt record. */
  type AttemptId = (string, nat)

  datatype System = System(provider: State, ledger: map<AttemptId, Attempt>)

  datatype Move =
    | OpenAttempt(id: AttemptId)
    | Transmit(id: AttemptId, logicalKey: string)
    | CloseAttempt(id: AttemptId)
    | World(event: Event)

  /**
   The client's rules, for the natural keys that are its own: an attempt seq
   is used once; a fresh attempt needs every earlier attempt of the same
   natural key resolved; an attempt is transmitted at most once, at any later
   time. The rest of the world may do anything, sends of other clients
   included, but send under one of these natural keys.
   */
  predicate Legal(own: set<string>, sys: System, m: Move) {
    match m
    case OpenAttempt(id) =>
      && id.0 in own && id !in sys.ledger
      && forall other :: other in sys.ledger && other.0 == id.0 ==> sys.ledger[other].resolved
    case Transmit(id, _) => id in sys.ledger && !sys.ledger[id].transmitted
    case CloseAttempt(id) => id in sys.ledger
    case World(e) => e.Send? ==> e.req.naturalKey !in own
  }

  /** The ledger changes only by what the provider answered. */
  function Next(d: Descriptor, sys: System, m: Move): System
    requires m.Transmit? || m.CloseAttempt? ==> m.id in sys.ledger
  {
    match m
    case OpenAttempt(id) => sys.(ledger := sys.ledger[id := Attempt(false, false)])
    case Transmit(id, logicalKey) =>
      var (st, outcome) := Dispatch(d, sys.provider, Request(id.0, logicalKey, id.1, None));
      System(st, sys.ledger[id := Attempt(true, sys.ledger[id].resolved || outcome.Failed?)])
    case CloseAttempt(id) =>
      var (st, answer) := CloseAcceptance(d, sys.provider, Query(id.0, None, Some(id.1)));
      System(st, sys.ledger[id := sys.ledger[id].(resolved := sys.ledger[id].resolved || answer == NotFound(true))])
    case World(e) => sys.(provider := Step(d, sys.provider, e))
  }

  ghost predicate LegalRun(d: Descriptor, own: set<string>, moves: seq<Move>)
    decreases |moves|, 0
  {
    moves == [] || (LegalRun(d, own, Front(moves)) && Legal(own, RunSystem(d, own, Front(moves)), Last(moves)))
  }

  ghost function RunSystem(d: Descriptor, own: set<string>, moves: seq<Move>): System
    requires LegalRun(d, own, moves)
    decreases |moves|, 1
  {
    if moves == [] then System(Initial, map[])
    else Next(d, RunSystem(d, own, Front(moves)), Last(moves))
  }

  function Identity(id: AttemptId): string {
    AttemptIdentity(id.0, id.1)
  }

  /** The attempt was transmitted. */
  predicate Sent(ledger: map<AttemptId, Attempt>, id: AttemptId) {
    id in ledger && ledger[id].transmitted
  }

  ghost predicate InFlight(st: State, key: string) {
    exists i :: 0 <= i < |st.stalled| && st.stalled[i].fenceKey == key
  }

  /** The provider holds an effect of the attempt, or may still come to hold one. */
  ghost predicate AtProvider(st: State, id: AttemptId) {
    Identity(id) in st.committed || InFlight(st, Identity(id))
  }

  /** A resolved attempt can never execute: not committed, and closed or fully spent. */
  ghost predicate Dead(st: State, ledger: map<AttemptId, Attempt>, id: AttemptId)
    requires id in ledger
  {
    && Identity(id) !in st.committed
    && (Identity(id) in st.closed || (ledger[id].transmitted && !InFlight(st, Identity(id))))
  }

  ghost predicate Inv(own: set<string>, sys: System) {
    && ClosureInv(sys.provider)
    && (forall id :: id in sys.ledger ==> id.0 in own)
    && (forall id: AttemptId :: id.0 in own && AtProvider(sys.provider, id) ==> Sent(sys.ledger, id))
    && (forall id :: id in sys.ledger && sys.ledger[id].resolved ==> Dead(sys.provider, sys.ledger, id))
    && (forall a, b ::
          a in sys.ledger && b in sys.ledger && !sys.ledger[a].resolved && !sys.ledger[b].resolved && a.0 == b.0 ==>
            a == b)
  }

  lemma IdentityInjective(a: AttemptId, b: AttemptId)
    requires Identity(a) == Identity(b)
    ensures a == b
  {
    TaggedInjective(a.0, a.1, b.0, b.1, "attempt");
  }

  /** Nothing new of the own attempts reaches the provider, except what was in flight or is being sent as `now`. */
  ghost predicate Quiet(own: set<string>, st: State, st': State, now: Option<AttemptId>) {
    && st.closed <= st'.closed
    && (forall id: AttemptId {:trigger Identity(id)} :: id.0 in own && now != Some(id) ==>
          && (Identity(id) in st'.committed ==> AtProvider(st, id))
          && (InFlight(st', Identity(id)) ==> InFlight(st, Identity(id))))
  }

  lemma OpenKeepsInv(d: Descriptor, own: set<string>, sys: System, id: AttemptId)
    requires d.ClosesAcceptance() && Inv(own, sys) && Legal(own, sys, OpenAttempt(id))
    ensures Inv(own, Next(d, sys, OpenAttempt(id)))
  {
  }

  /** What one send can do to the provider on this row. */
  lemma SendShape(d: Descriptor, st: State, req: Request)
    requires d.ClosesAcceptance()
    ensures var (st', outcome) := Dispatch(d, st, req);
            var key := AttemptIdentity(req.naturalKey, req.attemptSeq);
            && st'.closed == st.closed
            && (forall k :: k in st'.committed ==> k in st.committed || k == key)
            && (forall k :: InFlight(st', k) ==> InFlight(st, k) || k == key)
            && (outcome.Failed? ==> st'.committed == st.committed && st'.stalled == st.stalled)
  {
  }

  /** So a send moves nothing of any other attempt. */
  lemma SendIsQuiet(d: Descriptor, own: set<string>, st: State, req: Request)
    requires d.ClosesAcceptance()
    ensures Quiet(own, st, Dispatch(d, st, req).0, Some((req.naturalKey, req.attemptSeq)))
  {
    SendShape(d, st, req);
    forall id: AttemptId | id != (req.naturalKey, req.attemptSeq)
      ensures Identity(id) != AttemptIdentity(req.naturalKey, req.attemptSeq)
    {
      if Identity(id) == Identity((req.naturalKey, req.attemptSeq)) {
        IdentityInjective(id, (req.naturalKey, req.attemptSeq));
      }
    }
  }

  /** Dead attempts stay dead while nothing new of theirs reaches the provider. */
  lemma StaysDead(own: set<string>, sys: System, st': State, ledger': map<AttemptId, Attempt>, now: Option<AttemptId>,
                  id: AttemptId)
    requires Inv(own, sys) && ClosureInv(st') && Quiet(own, sys.provider, st', now) && now != Some(id)
    requires id in sys.ledger && sys.ledger[id].resolved && id in ledger' && ledger'[id] == sys.ledger[id]
    ensures Dead(st', ledger', id)
  {
    assert Dead(sys.provider, sys.ledger, id);
  }

  lemma TransmittedKeepsInv(own: set<string>, sys: System, st': State, id: AttemptId, failed: bool)
    requires Inv(own, sys) && id in sys.ledger && !sys.ledger[id].transmitted && ClosureInv(st')
    requires Quiet(own, sys.provider, st', Some(id)) && st'.closed == sys.provider.closed
    requires failed ==> st'.committed == sys.provider.committed && st'.stalled == sys.provider.stalled
    ensures Inv(own, System(st', sys.ledger[id := Attempt(true, sys.ledger[id].resolved || failed)]))
  {
    var ledger' := sys.ledger[id := Attempt(true, sys.ledger[id].resolved || failed)];
    assert !AtProvider(sys.provider, id);
    forall other: AttemptId | other.0 in own && AtProvider(st', other) ensures Sent(ledger', other) {
      if other != id { assert AtProvider(sys.provider, other); }
    }
    forall other | other in ledger' && ledger'[other].resolved ensures Dead(st', ledger', other) {
      if other != id {
        StaysDead(own, sys, st', ledger', Some(id), other);
      } else if sys.ledger[id].resolved {
        assert Dead(sys.provider, sys.ledger, id);
      } else {
        assert !InFlight(st', Identity(id));
      }
    }
  }

  lemma TransmitKeepsInv(d: Descriptor, own: set<string>, sys: System, id: AttemptId, logicalKey: string)
    requires d.ClosesAcceptance() && Inv(own, sys) && Legal(own, sys, Transmit(id, logicalKey))
    ensures Inv(own, Next(d, sys, Transmit(id, logicalKey)))
  {
    var req := Request(id.0, logicalKey, id.1, None);
    StepKeepsClosure(d, sys.provider, Send(req));
    SendShape(d, sys.provider, req);
    SendIsQuiet(d, own, sys.provider, req);
    var (st', outcome) := Dispatch(d, sys.provider, req);
    TransmittedKeepsInv(own, sys, st', id, outcome.Failed?);
  }

  /** What a closure does: nothing, or it closes the one identity. */
  lemma CloseShape(d: Descriptor, st: State, id: AttemptId)
    ensures var (st', answer) := CloseAcceptance(d, st, Query(id.0, None, Some(id.1)));
            && st'.committed == st.committed && st'.order == st.order && st'.stalled == st.stalled
            && st.closed <= st'.closed
            && (answer == NotFound(true) ==> Identity(id) in st'.closed)
  {
  }

  lemma ClosedKeepsInv(own: set<string>, sys: System, st': State, id: AttemptId, closed: bool)
    requires Inv(own, sys) && id in sys.ledger && ClosureInv(st')
    requires st'.committed == sys.provider.committed && st'.stalled == sys.provider.stalled
    requires sys.provider.closed <= st'.closed && (closed ==> Identity(id) in st'.closed)
    ensures Inv(own, System(st', sys.ledger[id := sys.ledger[id].(resolved := sys.ledger[id].resolved || closed)]))
  {
    var ledger' := sys.ledger[id := sys.ledger[id].(resolved := sys.ledger[id].resolved || closed)];
    assert forall other: AttemptId :: AtProvider(st', other) <==> AtProvider(sys.provider, other);
    forall other | other in ledger' && ledger'[other].resolved ensures Dead(st', ledger', other) {
      if sys.ledger[other].resolved {
        assert Dead(sys.provider, sys.ledger, other);
        assert InFlight(st', Identity(other)) ==> InFlight(sys.provider, Identity(other));
      }
    }
  }

  lemma CloseKeepsInv(d: Descriptor, own: set<string>, sys: System, id: AttemptId)
    requires d.ClosesAcceptance() && Inv(own, sys) && Legal(own, sys, CloseAttempt(id))
    ensures Inv(own, Next(d, sys, CloseAttempt(id)))
  {
    var q := Query(id.0, None, Some(id.1));
    StepKeepsClosure(d, sys.provider, Close(q));
    CloseShape(d, sys.provider, id);
    var (st', answer) := CloseAcceptance(d, sys.provider, q);
    ClosedKeepsInv(own, sys, st', id, answer == NotFound(true));
  }

  /** Whatever the world does, it moves nothing of the own attempts but what was in flight. */
  lemma WorldIsQuiet(d: Descriptor, own: set<string>, st: State, e: Event)
    requires d.ClosesAcceptance() && ClosureInv(st) && (e.Send? ==> e.req.naturalKey !in own)
    ensures Quiet(own, st, Step(d, st, e), None)
  {
    StepKeepsClosure(d, st, e);
    match e
    case Send(req) => SendIsQuiet(d, own, st, req);
    case Release => LandAllAdds(d, st.(stalled := []), st.stalled);
    case _ =>
  }

  lemma WorldKeepsInv(d: Descriptor, own: set<string>, sys: System, e: Event)
    requires d.ClosesAcceptance() && Inv(own, sys) && Legal(own, sys, World(e))
    ensures Inv(own, sys.(provider := Step(d, sys.provider, e)))
  {
    var st' := Step(d, sys.provider, e);
    StepKeepsClosure(d, sys.provider, e);
    WorldIsQuiet(d, own, sys.provider, e);
    forall id: AttemptId | id.0 in own && AtProvider(st', id) ensures Sent(sys.ledger, id) {
      assert AtProvider(sys.provider, id);
    }
    forall id | id in sys.ledger && sys.ledger[id].resolved ensures Dead(st', sys.ledger, id) {
      StaysDead(own, sys, st', sys.ledger, None, id);
    }
  }

  lemma {:induction false} RunKeepsInv(d: Descriptor, own: set<string>, moves: seq<Move>)
    requires d.ClosesAcceptance() && LegalRun(d, own, moves)
    ensures Inv(own, RunSystem(d, own, moves))
  {
    if moves != [] {
      RunKeepsInv(d, own, Front(moves));
      var sys := RunSystem(d, own, Front(moves));
      match Last(moves) {
        case OpenAttempt(id) => OpenKeepsInv(d, own, sys, id);
        case Transmit(id, logicalKey) => TransmitKeepsInv(d, own, sys, id, logicalKey);
        case CloseAttempt(id) => CloseKeepsInv(d, own, sys, id);
        case World(e) => WorldKeepsInv(d, own, sys, e);
      }
    }
  }

  /**
   At most one effect per natural key of the client, over every legal
   interleaving: stale transmissions, late releases and other clients' sends
   included, elapsed time licensing nothing.
   */
  lemma AtMostOneEffect(d: Descriptor, own: set<string>, moves: seq<Move>, naturalKey: string, s: nat, s': nat)
    requires d.ClosesAcceptance() && LegalRun(d, own, moves) && naturalKey in own
    requires AttemptIdentity(naturalKey, s) in RunSystem(d, own, moves).provider.committed
    requires AttemptIdentity(naturalKey, s') in RunSystem(d, own, moves).provider.committed
    ensures s == s'
  {
    RunKeepsInv(d, own, moves);
    var sys := RunSystem(d, own, moves);
    var a, b: AttemptId := (naturalKey, s), (naturalKey, s');
    assert AtProvider(sys.provider, a) && AtProvider(sys.provider, b);
    assert !sys.ledger[a].resolved && !sys.ledger[b].resolved;
  }

  /** The rule is needed: two transmissions without a closure between them leave two effects. */
  lemma UnlicensedRedispatchDuplicates(d: Descriptor, naturalKey: string, logicalKey: string, s: nat, s': nat)
    requires d.ClosesAcceptance() && s != s'
    ensures var es := [Configure(AcceptTimeout, false),
                       Send(Request(naturalKey, logicalKey, s, None)),
                       Send(Request(naturalKey, logicalKey, s', None))];
            |EffectsOf(Run(d, Initial, es).committed, logicalKey)| == 2
  {
    var e0, e1, e2 := Configure(AcceptTimeout, false), Send(Request(naturalKey, logicalKey, s, None)),
                      Send(Request(naturalKey, logicalKey, s', None));
    var k1, k2 := AttemptIdentity(naturalKey, s), AttemptIdentity(naturalKey, s');
    if k1 == k2 { TaggedInjective(naturalKey, s, naturalKey, s', "attempt"); }
    assert Front([e0, e1, e2]) == [e0, e1] && Front([e0, e1]) == [e0] && Front([e0]) == [];
    assert Run(d, Initial, []) == Initial;
    var st0 := Run(d, Initial, [e0]);
    assert st0 == Initial.(nextBehavior := AcceptTimeout);
    var st1 := Run(d, Initial, [e0, e1]);
    assert st1 == Dispatch(d, st0, e1.req).0;
    assert st1.committed.Keys == {k1} && st1.committed[k1].logicalKey == logicalKey;
    var st2 := Run(d, Initial, [e0, e1, e2]);
    assert st2 == Dispatch(d, st1, e2.req).0;
    assert EffectsOf(st2.committed, logicalKey) == {k1, k2};
  }

  // ---------------------------------------------------------------- what the prefix search finds

  /** `key` is an attempt identity of natural key `n`. */
  ghost predicate IsAttemptOf(key: string, n: string) {
    exists s: nat :: key == AttemptIdentity(n, s)
  }

  ghost predicate IsAttempt(key: string) {
    exists n: string :: IsAttemptOf(key, n)
  }

  /**
   The search for natural key `n` matches an identity exactly when it is one
   of n's attempts or belongs to a natural key that itself starts with
   "n#attempt".
   */
  lemma PrefixMatch(n: string, n': string, s: nat)
    ensures n + "#attempt" <= AttemptIdentity(n', s) <==> n == n' || n + "#attempt" <= n'
  {
    var tag := "#attempt";
    var key, p := AttemptIdentity(n', s), n + tag;
    assert key == n' + tag + Decimal(s);
    assert forall i :: |n'| < i < |key| ==> key[i] != '#' by {
      assert forall i :: |n'| < i < |key| ==>
        key[i] == if i < |n'| + 8 then tag[i - |n'|] else Decimal(s)[i - |n'| - 8];
    }
    assert key[|n'|] == '#' && p[|n|] == '#';
    if p <= key {
      assert key[|n|] == p[|n|];
      assert |n| <= |n'|;
      if |n| == |n'| {
        assert n == p[..|n|] == key[..|n|] == n';
      } else {
        assert forall i :: |n| < i < |p| ==> p[i] == tag[i - |n|] && p[i] != '#';
        assert |p| <= |n'|;
        assert p == key[..|p|] == n'[..|p|];
      }
    }
    if p <= n' {
      assert p == n'[..|p|] == key[..|p|];
    }
    assert n' + tag == key[..|n'| + 8];
  }

  ghost predicate AllAttempts(st: State) {
    && (forall k :: k in st.order <==> k in st.committed)
    && (forall k :: k in st.order ==> IsAttempt(k))
    && (forall i :: 0 <= i < |st.stalled| ==> IsAttempt(st.stalled[i].fenceKey))
  }

  lemma {:induction false} LandAllAttempts(d: Descriptor, st: State, sends: seq<StalledSend>)
    requires AllAttempts(st)
    requires forall i :: 0 <= i < |sends| ==> IsAttempt(sends[i].fenceKey)
    ensures AllAttempts(LandAll(d, st, sends))
  {
    if sends != [] {
      LandAllAttempts(d, st, Front(sends));
      assert IsAttempt(Last(sends).fenceKey);
    }
  }

  lemma AttemptsAfterSend(st: State, st': State, key: string)
    requires AllAttempts(st) && AddsOnly(st, st', key) && IsAttempt(key)
    requires forall k :: k in st'.order <==> k in st'.committed
    ensures AllAttempts(st')
  {
  }

  lemma SendKeepsOrder(d: Descriptor, st: State, req: Request)
    requires forall k :: k in st.order <==> k in st.committed
    ensures forall k :: k in Dispatch(d, st, req).0.order <==> k in Dispatch(d, st, req).0.committed
  {
  }

  lemma StepAllAttempts(d: Descriptor, st: State, e: Event)
    requires d.ClosesAcceptance() && AllAttempts(st)
    ensures AllAttempts(Step(d, st, e))
  {
    if e.Release? {
      LandAllAttempts(d, st.(stalled := []), st.stalled);
    } else if e.Send? {
      var key := AttemptIdentity(e.req.naturalKey, e.req.attemptSeq);
      assert IsAttempt(key) by { assert IsAttemptOf(key, e.req.naturalKey); }
      SendAdds(d, st, e.req);
      SendKeepsOrder(d, st, e.req);
      AttemptsAfterSend(st, Dispatch(d, st, e.req).0, key);
    }
  }

  lemma {:induction false} RunAllAttempts(d: Descriptor, st: State, es: seq<Event>)
    requires d.ClosesAcceptance() && AllAttempts(st)
    ensures AllAttempts(Run(d, st, es))
  {
    if es != [] {
      RunAllAttempts(d, st, Front(es));
      StepAllAttempts(d, Run(d, st, Front(es)), Last(es));
    }
  }

  /** A committed attempt that the search for `n` would answer with. */
  ghost predicate Reported(st: State, n: string, n': string) {
    (n == n' || n + "#attempt" <= n') && exists k :: k in st.committed && IsAttemptOf(k, n')
  }

  /**
   A lookup on the acceptance-closing row finds an effect if and only if one
   was committed for this natural key or for a natural key extending
   "n#attempt". For keys without '#', such as hashes, only the first remains.
   */
  lemma LookupFindsExactly(d: Descriptor, es: seq<Event>, q: Query)
    requires d.ClosesAcceptance()
    ensures var st := Run(d, Initial, es);
            LookUp(d, st, q).1.Found? <==> exists n' :: Reported(st, q.naturalKey, n')
  {
    RunAllAttempts(d, Initial, es);
    var st, p := Run(d, Initial, es), q.naturalKey + "#attempt";
    var hit := FirstWithPrefix(st.order, p);
    if hit.Some? {
      var k := hit.value;
      assert IsAttempt(k);
      var n': string :| IsAttemptOf(k, n');
      var s: nat :| k == AttemptIdentity(n', s);
      PrefixMatch(q.naturalKey, n', s);
      assert Reported(st, q.naturalKey, n');
    } else {
      forall n' ensures !Reported(st, q.naturalKey, n') {
        if Reported(st, q.naturalKey, n') {
          var k :| k in st.committed && IsAttemptOf(k, n');
          var s: nat :| k == AttemptIdentity(n', s);
          PrefixMatch(q.naturalKey, n', s);
        }
      }
    }
  }

  /** A lookup for `n` reports another client's effect whose natural key spells `n` and the attempt marker. */
  lemma LookupCanMisattribute(d: Descriptor, n: string, logicalKey: string)
    requires d.ClosesAcceptance()
    ensures var st := Run(d, Initial, [Send(Request(n + "#attempt", logicalKey, 0, None))]);
            && LookUp(d, st, Query(n, None, None)).1.Found?
            && forall s: nat :: AttemptIdentity(n, s) !in st.committed
  {
    var send := Send(Request(n + "#attempt", logicalKey, 0, None));
    var key := AttemptIdentity(n + "#attempt", 0);
    assert Front([send]) == [];
    var st := Run(d, Initial, [send]);
    assert st == Dispatch(d, Initial, send.req).0 && st.committed.Keys == {key};
    assert IsAttemptOf(key, n + "#attempt");
    LookupFindsExactly(d, [send], Query(n, None, None));
    assert Reported(st, n, n + "#attempt");
    forall s: nat ensures AttemptIdentity(n, s) != key {
      if AttemptIdentity(n, s) == key { TaggedInjective(n, s, n + "#attempt", 0, "attempt"); }
    }
  }
}

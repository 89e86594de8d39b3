/**
 The fake effect provider of the conformance kit: one fence per capability
 row, sends that can stall in flight and be released arbitrarily late,
 lookups, and per-attempt acceptance closure.

 `State` and the step functions say what one call does; the class performs
 it on mutable fields. The lemmas are about whole runs, in any order, of any
 client.
 */
module EffectProvider {
  import opened Prelude

  datatype Row = IdempotencyKey | Lookup | Neither
  datatype Qualification = ConditionalCreate | AcceptanceClosing

  datatype Descriptor = Descriptor(row: Row, qualification: Option<Qualification>) {
    predicate ClosesAcceptance() {
      row == Lookup && qualification == Some(AcceptanceClosing)
    }

    /** Rows on which no send can replace an effect that already committed. */
    predicate WriteOnce() {
      row == IdempotencyKey || row == Neither || qualification == Some(ConditionalCreate)
    }
  }

  datatype Behavior = Commit | AcceptTimeout | DropUnknown | Fail | AcceptNoReceipt {
    predicate Commits() {
      Commit? || AcceptTimeout? || AcceptNoReceipt?
    }
  }

  datatype Receipt = Receipt(transferId: string, providerRef: string)
  datatype Effect = Effect(receipt: Receipt, logicalKey: string)
  datatype StalledSend =
    StalledSend(fenceKey: string, attemptIdentity: string, logicalKey: string, receiptSeed: Receipt)

  /** `naturalKey` is the hash of the intent's arguments. */
  datatype Request =
    Request(naturalKey: string, logicalKey: string, attemptSeq: nat, idempotencyKey: Option<string>)
  datatype Query = Query(naturalKey: string, idempotencyKey: Option<string>, attemptSeq: Option<nat>)

  datatype Outcome =
    | Accepted(providerRef: Option<string>, receipt: Option<Receipt>)
    | Failed
    | Unknown
  datatype Answer = Found(receipt: Receipt) | NotFound(acceptanceClosed: bool)

  /** `order` lists the committed keys by first insertion, as a JavaScript Map iterates them. */
  datatype State = State(
    committed: map<string, Effect>,
    order: seq<string>,
    closed: set<string>,
    stalled: seq<StalledSend>,
    dispatches: nat,
    lookups: nat,
    lateLandings: nat,
    lateFenced: nat,
    nextBehavior: Behavior,
    stallNextSend: bool,
    transfers: nat)

  const Initial: State := State(map[], [], {}, [], 0, 0, 0, 0, Commit, false, 0)

  ghost predicate Listed(committed: map<string, Effect>, order: seq<string>) {
    && (forall i, j :: 0 <= i < j < |order| ==> order[i] != order[j])
    && (forall k :: k in order <==> k in committed)
  }

  // ---------------------------------------------------------------- keys

  function AttemptIdentity(naturalKey: string, attemptSeq: nat): string {
    Tagged(naturalKey, "attempt", attemptSeq)
  }

  function EpochKey(logicalKey: string, epoch: nat): string {
    Tagged(logicalKey, "epoch", epoch)
  }

  function Blind(n: nat): string {
    "blind:" + Decimal(n)
  }

  function FenceKey(d: Descriptor, dispatches: nat, req: Request): string {
    match d.row
    case IdempotencyKey =>
      if req.idempotencyKey.Some? then req.idempotencyKey.value
      else "missing-idempotency-key:" + Decimal(dispatches)
    case Lookup =>
      if d.qualification == Some(ConditionalCreate) then req.naturalKey
      else AttemptIdentity(req.naturalKey, req.attemptSeq)
    case Neither => Blind(dispatches)
  }

  // ---------------------------------------------------------------- steps

  function Mint(logicalKey: string, n: nat): Receipt {
    Receipt("t-" + logicalKey + "-" + Decimal(n), "ref-" + Decimal(n))
  }

  function Put(st: State, key: string, effect: Effect): State {
    st.(committed := st.committed[key := effect],
        order := if key in st.committed then st.order else st.order + [key])
  }

  function CommitNow(st: State, key: string, logicalKey: string): State {
    Put(st.(transfers := st.transfers + 1), key, Effect(Mint(logicalKey, st.transfers + 1), logicalKey))
  }

  function Behave(st: State, key: string, logicalKey: string): (State, Outcome) {
    var receipt := Mint(logicalKey, st.transfers + 1);
    match st.nextBehavior
    case Fail => (st.(nextBehavior := Commit), Failed)
    case DropUnknown => (st.(nextBehavior := Commit), Unknown)
    case AcceptTimeout => (CommitNow(st, key, logicalKey).(nextBehavior := Commit), Unknown)
    case AcceptNoReceipt =>
      (CommitNow(st, key, logicalKey).(nextBehavior := Commit), Accepted(Some(receipt.providerRef), None))
    case Commit =>
      (CommitNow(st, key, logicalKey), Accepted(Some(receipt.providerRef), Some(receipt)))
  }

  /** The provider's own fencing turns this send away before any behaviour runs. */
  predicate Fenced(d: Descriptor, st: State, req: Request) {
    || (d.ClosesAcceptance() && AttemptIdentity(req.naturalKey, req.attemptSeq) in st.closed)
    || (&& FenceKey(d, st.dispatches + 1, req) in st.committed
        && (d.row == IdempotencyKey || d.qualification == Some(ConditionalCreate)))
  }

  /**
   One send. `failed` means provably not executed: nothing committed and
   nothing in flight changed. An accepted send names the effect the provider
   holds under this send's fence key.
   */
  function Dispatch(d: Descriptor, st: State, req: Request): (r: (State, Outcome))
    ensures r.1.Failed? ==> r.0.committed == st.committed && r.0.stalled == st.stalled
    ensures r.1.Accepted? ==>
              var key := FenceKey(d, st.dispatches + 1, req);
              && key in r.0.committed
              && (r.1.receipt.Some? ==> r.1.receipt.value == r.0.committed[key].receipt)
              && (r.1.providerRef.Some? ==> r.1.providerRef.value == r.0.committed[key].receipt.providerRef)
  {
    var st1 := st.(dispatches := st.dispatches + 1);
    var key := FenceKey(d, st1.dispatches, req);
    var identity := AttemptIdentity(req.naturalKey, req.attemptSeq);
    if st1.stallNextSend then
      var send := StalledSend(key, identity, req.logicalKey, Mint(req.logicalKey, st1.transfers + 1));
      (st1.(stallNextSend := false, transfers := st1.transfers + 1, stalled := st1.stalled + [send]), Unknown)
    else if d.ClosesAcceptance() && identity in st1.closed then
      (st1, Failed)
    else if key in st1.committed && d.row == IdempotencyKey then
      (st1, Accepted(None, Some(st1.committed[key].receipt)))
    else if key in st1.committed && d.qualification == Some(ConditionalCreate) then
      (st1, Failed)
    else
      Behave(st1, key, req.logicalKey)
  }

  /** The late bytes of one stalled send reach the provider. */
  function Land(d: Descriptor, st: State, send: StalledSend): State {
    if (d.ClosesAcceptance() && send.attemptIdentity in st.closed) || send.fenceKey in st.committed then
      st.(lateFenced := st.lateFenced + 1)
    else
      Put(st, send.fenceKey, Effect(send.receiptSeed, send.logicalKey)).(lateLandings := st.lateLandings + 1)
  }

  function LandAll(d: Descriptor, st: State, sends: seq<StalledSend>): State {
    if sends == [] then st else Land(d, LandAll(d, st, Front(sends)), Last(sends))
  }

  function ReleaseStalled(d: Descriptor, st: State): State {
    LandAll(d, st.(stalled := []), st.stalled)
  }

  function FirstWithPrefix(order: seq<string>, prefix: string): (key: Option<string>)
    ensures key.Some? ==> key.value in order && prefix <= key.value
    ensures key.None? ==> forall k :: k in order ==> !(prefix <= k)
  {
    if order == [] then None
    else if prefix <= order[0] then Some(order[0])
    else
      assert forall k :: k in order ==> k == order[0] || k in order[1..];
      FirstWithPrefix(order[1..], prefix)
  }

  function Get(committed: map<string, Effect>, key: string): Option<Effect> {
    if key in committed then Some(committed[key]) else None
  }

  function SearchKey(d: Descriptor, st: State, q: Query): Option<string> {
    if d.row == IdempotencyKey then Some(if q.idempotencyKey.Some? then q.idempotencyKey.value else "")
    else if d.qualification == Some(ConditionalCreate) then Some(q.naturalKey)
    else FirstWithPrefix(st.order, q.naturalKey + "#attempt")
  }

  function FindCommitted(d: Descriptor, st: State, q: Query): Option<Effect> {
    var key := SearchKey(d, st, q);
    if key.Some? then Get(st.committed, key.value) else None
  }

  function LookUp(d: Descriptor, st: State, q: Query): (State, Answer) {
    var st1 := st.(lookups := st.lookups + 1);
    match FindCommitted(d, st1, q)
    case Some(effect) => (st1, Found(effect.receipt))
    case None => (st1, NotFound(false))
  }

  function CloseAcceptance(d: Descriptor, st: State, q: Query): (State, Answer) {
    var st1 := st.(lookups := st.lookups + 1);
    match FindCommitted(d, st1, q)
    case Some(effect) => (st1, Found(effect.receipt))
    case None =>
      if q.attemptSeq.Some? then
        (st1.(closed := st1.closed + {AttemptIdentity(q.naturalKey, q.attemptSeq.value)}), NotFound(true))
      else (st1, NotFound(false))
  }

  /** The committed effects of one logical key, by fence key. */
  function EffectsOf(committed: map<string, Effect>, logicalKey: string): set<string> {
    set k | k in committed && committed[k].logicalKey == logicalKey
  }

  function EffectsAmong(committed: map<string, Effect>, keys: seq<string>, logicalKey: string): set<string> {
    set k | k in keys && k in committed && committed[k].logicalKey == logicalKey
  }

  lemma NextEffect(committed: map<string, Effect>, order: seq<string>, i: nat, logicalKey: string)
    requires Listed(committed, order) && i < |order|
    ensures |EffectsAmong(committed, order[..i + 1], logicalKey)|
            == |EffectsAmong(committed, order[..i], logicalKey)|
               + (if committed[order[i]].logicalKey == logicalKey then 1 else 0)
  {
    var k, before := order[i], EffectsAmong(committed, order[..i], logicalKey);
    assert order[..i + 1] == order[..i] + [k];
    assert k !in order[..i];
    if committed[k].logicalKey == logicalKey {
      assert EffectsAmong(committed, order[..i + 1], logicalKey) == before + {k};
    } else {
      assert EffectsAmong(committed, order[..i + 1], logicalKey) == before;
    }
  }

  // ---------------------------------------------------------------- the provider object

  class FakeEffectProvider {
    const descriptor: Descriptor
    var committed: map<string, Effect>
    var order: seq<string>
    var closedAttempts: set<string>
    var stalled: seq<StalledSend>
    var dispatches: nat
    var lookups: nat
    var lateLandings: nat
    var lateFenced: nat
    var nextBehavior: Behavior
    var stallNextSend: bool
    var transferCounter: nat

    ghost predicate Valid()
      reads this
    {
      Listed(committed, order)
    }

    ghost function View(): State
      reads this
    {
      State(committed, order, closedAttempts, stalled, dispatches, lookups, lateLandings, lateFenced,
            nextBehavior, stallNextSend, transferCounter)
    }

    constructor (descriptor: Descriptor)
      ensures Valid() && View() == Initial && this.descriptor == descriptor
    {
      this.descriptor := descriptor;
      committed, order, closedAttempts, stalled := map[], [], {}, [];
      dispatches, lookups, lateLandings, lateFenced, transferCounter := 0, 0, 0, 0, 0;
      nextBehavior, stallNextSend := Commit, false;
    }

    /** How many committed effects exist for one logical key. */
    method EffectCount(logicalKey: string) returns (count: nat)
      requires Valid()
      ensures count == |EffectsOf(committed, logicalKey)|
    {
      count := 0;
      for i := 0 to |order|
        invariant count == |EffectsAmong(committed, order[..i], logicalKey)|
      {
        NextEffect(committed, order, i, logicalKey);
        if committed[order[i]].logicalKey == logicalKey {
          count := count + 1;
        }
      }
      assert order[..|order|] == order;
      assert EffectsAmong(committed, order, logicalKey) == EffectsOf(committed, logicalKey);
    }

    method MintReceipt(logicalKey: string) returns (receipt: Receipt)
      modifies this`transferCounter
      ensures transferCounter == old(transferCounter) + 1
      ensures receipt == Mint(logicalKey, transferCounter)
    {
      transferCounter := transferCounter + 1;
      receipt := Mint(logicalKey, transferCounter);
    }

    method SetCommitted(key: string, effect: Effect)
      requires Valid()
      modifies this`committed, this`order
      ensures Valid()
      ensures View() == Put(old(View()), key, effect)
    {
      if key !in committed {
        order := order + [key];
      }
      committed := committed[key := effect];
    }

    method Send(req: Request) returns (outcome: Outcome)
      requires Valid()
      modifies this
      ensures Valid()
      ensures (View(), outcome) == Dispatch(descriptor, old(View()), req)
    {
      dispatches := dispatches + 1;
      var fenceKey := FenceKey(descriptor, dispatches, req);
      var identity := AttemptIdentity(req.naturalKey, req.attemptSeq);
      if stallNextSend {
        stallNextSend := false;
        var seed := MintReceipt(req.logicalKey);
        stalled := stalled + [StalledSend(fenceKey, identity, req.logicalKey, seed)];
        return Unknown;
      }
      if descriptor.ClosesAcceptance() && identity in closedAttempts {
        return Failed;
      }
      if fenceKey in committed {
        if descriptor.row == IdempotencyKey {
          return Accepted(None, Some(committed[fenceKey].receipt));
        }
        if descriptor.qualification == Some(ConditionalCreate) {
          return Failed;
        }
      }
      outcome := Execute(fenceKey, req.logicalKey);
    }

    method Execute(fenceKey: string, logicalKey: string) returns (outcome: Outcome)
      requires Valid()
      modifies this
      ensures Valid()
      ensures (View(), outcome) == Behave(old(View()), fenceKey, logicalKey)
    {
      var behavior := nextBehavior;
      nextBehavior := Commit;
      if behavior == Fail {
        return Failed;
      }
      if behavior == DropUnknown {
        return Unknown;
      }
      var receipt := MintReceipt(logicalKey);
      SetCommitted(fenceKey, Effect(receipt, logicalKey));
      match behavior {
        case AcceptTimeout => outcome := Unknown;
        case AcceptNoReceipt => outcome := Accepted(Some(receipt.providerRef), None);
        case _ => outcome := Accepted(Some(receipt.providerRef), Some(receipt));
      }
    }

    /** Releases every stalled send, in capture order. */
    method Release()
      requires Valid()
      modifies this
      ensures Valid()
      ensures View() == ReleaseStalled(descriptor, old(View()))
    {
      var sends := stalled;
      stalled := [];
      var i := 0;
      while i < |sends|
        invariant 0 <= i <= |sends| && Valid()
        invariant View() == LandAll(descriptor, old(View()).(stalled := []), sends[..i])
      {
        assert Front(sends[..i + 1]) == sends[..i] && Last(sends[..i + 1]) == sends[i];
        ReleaseOne(sends[i]);
        i := i + 1;
      }
      assert sends[..i] == sends;
    }

    method ReleaseOne(send: StalledSend)
      requires Valid()
      modifies this
      ensures Valid()
      ensures View() == Land(descriptor, old(View()), send)
    {
      if descriptor.ClosesAcceptance() && send.attemptIdentity in closedAttempts {
        lateFenced := lateFenced + 1;
      } else if send.fenceKey in committed {
        lateFenced := lateFenced + 1;
      } else {
        SetCommitted(send.fenceKey, Effect(send.receiptSeed, send.logicalKey));
        lateLandings := lateLandings + 1;
      }
    }

    method Find(q: Query) returns (found: Option<Effect>)
      requires Valid()
      ensures found == FindCommitted(descriptor, View(), q)
    {
      if descriptor.row == IdempotencyKey {
        return Get(committed, if q.idempotencyKey.Some? then q.idempotencyKey.value else "");
      }
      if descriptor.qualification == Some(ConditionalCreate) {
        return Get(committed, q.naturalKey);
      }
      var prefix := q.naturalKey + "#attempt";
      var i := 0;
      while i < |order|
        invariant 0 <= i <= |order|
        invariant FirstWithPrefix(order, prefix) == FirstWithPrefix(order[i..], prefix)
      {
        if prefix <= order[i] {
          return Some(committed[order[i]]);
        }
        assert order[i..][1..] == order[i + 1..];
        i := i + 1;
      }
      found := None;
    }

    method Probe(q: Query) returns (answer: Answer)
      requires Valid()
      modifies this`lookups
      ensures Valid() && (View(), answer) == LookUp(descriptor, old(View()), q)
    {
      lookups := lookups + 1;
      var found := Find(q);
      answer := if found.Some? then Found(found.value.receipt) else NotFound(false);
    }

    method Close(q: Query) returns (answer: Answer)
      requires Valid()
      modifies this`lookups, this`closedAttempts
      ensures Valid() && (View(), answer) == CloseAcceptance(descriptor, old(View()), q)
    {
      lookups := lookups + 1;
      var found := Find(q);
      if found.Some? {
        return Found(found.value.receipt);
      }
      if q.attemptSeq.Some? {
        closedAttempts := closedAttempts + {AttemptIdentity(q.naturalKey, q.attemptSeq.value)};
      }
      answer := NotFound(q.attemptSeq.Some?);
    }
  }

  // ---------------------------------------------------------------- runs

  /** Everything any client or the test harness can do to a provider. */
  datatype Event =
    | Send(req: Request)
    | Release
    | Probe(query: Query)
    | Close(query: Query)
    | Configure(behavior: Behavior, stall: bool)

  function Step(d: Descriptor, st: State, e: Event): State {
    match e
    case Send(req) => Dispatch(d, st, req).0
    case Release => ReleaseStalled(d, st)
    case Probe(q) => LookUp(d, st, q).0
    case Close(q) => CloseAcceptance(d, st, q).0
    case Configure(behavior, stall) => st.(nextBehavior := behavior, stallNextSend := stall)
  }

  function Run(d: Descriptor, st: State, es: seq<Event>): State {
    if es == [] then st else Step(d, Run(d, st, Front(es)), Last(es))
  }

  /** `st'` holds nothing that `st` did not, except possibly an effect or a send in flight under `key`. */
  ghost predicate AddsOnly(st: State, st': State, key: string) {
    && (forall k :: k in st'.committed ==> k in st.committed || k == key)
    && (forall k :: k in st'.order ==> k in st.order || k == key)
    && |st.stalled| <= |st'.stalled| <= |st.stalled| + 1
    && (forall i :: 0 <= i < |st'.stalled| ==>
          if i < |st.stalled| then st'.stalled[i] == st.stalled[i] else st'.stalled[i].fenceKey == key)
    && (|st'.stalled| > |st.stalled| ==> st'.committed == st.committed)
  }

  /** `st'` differs from `st` in nothing but an effect under `key` and what no fence looks at. */
  ghost predicate PutsOnly(st: State, st': State, key: string) {
    && (forall k :: k in st'.committed ==> k in st.committed || k == key)
    && (forall k :: k in st'.order ==> k in st.order || k == key)
    && st'.stalled == st.stalled && st'.dispatches == st.dispatches && st'.closed == st.closed
    && st'.lateLandings == st.lateLandings && st'.lateFenced == st.lateFenced
  }

  lemma CommitPuts(st: State, key: string, logicalKey: string)
    ensures PutsOnly(st, CommitNow(st, key, logicalKey), key)
  {
  }

  lemma BehaveAdds(st: State, key: string, logicalKey: string)
    ensures PutsOnly(st, Behave(st, key, logicalKey).0, key)
  {
    CommitPuts(st, key, logicalKey);
  }

  lemma SendAdds(d: Descriptor, st: State, req: Request)
    ensures var st' := Dispatch(d, st, req).0;
            && AddsOnly(st, st', FenceKey(d, st.dispatches + 1, req))
            && st'.dispatches == st.dispatches + 1 && st'.closed == st.closed
            && st'.lateLandings == st.lateLandings && st'.lateFenced == st.lateFenced
  {
    BehaveAdds(st.(dispatches := st.dispatches + 1), FenceKey(d, st.dispatches + 1, req), req.logicalKey);
  }

  // ---------------------------------------------------------------- blind keys are never reused

  lemma BlindInjective(m: nat, n: nat)
    requires Blind(m) == Blind(n)
    ensures m == n
  {
    assert Blind(m)[6..] == Decimal(m) && Blind(n)[6..] == Decimal(n);
    DecimalInjective(m, n);
  }

  /** No key of a later blind send is in use yet. */
  ghost predicate BlindFresh(st: State) {
    && (forall n: nat {:trigger Blind(n)} :: n > st.dispatches ==> Blind(n) !in st.committed)
    && (forall n: nat, i {:trigger Blind(n), st.stalled[i]} ::
          n > st.dispatches && 0 <= i < |st.stalled| ==> st.stalled[i].fenceKey != Blind(n))
  }

  ghost predicate KeysOk(d: Descriptor, st: State) {
    d.row == Neither ==> BlindFresh(st)
  }

  lemma {:induction false} LandAllKeys(d: Descriptor, st: State, sends: seq<StalledSend>)
    requires d.row == Neither
    requires BlindFresh(st)
    requires forall n: nat, i {:trigger Blind(n), sends[i]} ::
               n > st.dispatches && 0 <= i < |sends| ==> sends[i].fenceKey != Blind(n)
    ensures BlindFresh(LandAll(d, st, sends))
    ensures LandAll(d, st, sends).dispatches == st.dispatches
  {
    if sends != [] {
      LandAllKeys(d, st, Front(sends));
      assert Last(sends) == sends[|sends| - 1];
    }
  }

  lemma BlindAfterSend(st: State, st': State)
    requires BlindFresh(st) && st'.dispatches == st.dispatches + 1
    requires AddsOnly(st, st', Blind(st'.dispatches))
    ensures BlindFresh(st')
  {
    forall n: nat | n > st'.dispatches ensures Blind(n) != Blind(st'.dispatches) {
      if Blind(n) == Blind(st'.dispatches) { BlindInjective(n, st'.dispatches); }
    }
  }

  lemma StepKeepsKeys(d: Descriptor, st: State, e: Event)
    requires KeysOk(d, st)
    ensures KeysOk(d, Step(d, st, e))
  {
    if d.row == Neither {
      if e.Send? {
        SendAdds(d, st, e.req);
        BlindAfterSend(st, Dispatch(d, st, e.req).0);
      } else if e.Release? {
        LandAllKeys(d, st.(stalled := []), st.stalled);
      }
    }
  }

  lemma {:induction false} RunKeepsKeys(d: Descriptor, st: State, es: seq<Event>)
    requires KeysOk(d, st)
    ensures KeysOk(d, Run(d, st, es))
  {
    if es != [] {
      RunKeepsKeys(d, st, Front(es));
      StepKeepsKeys(d, Run(d, st, Front(es)), Last(es));
    }
  }

  // ---------------------------------------------------------------- write-once

  ghost predicate Extends(before: map<string, Effect>, after: map<string, Effect>) {
    forall k :: k in before ==> k in after && after[k] == before[k]
  }

  lemma {:induction false} LandAllExtends(d: Descriptor, st: State, sends: seq<StalledSend>)
    ensures Extends(st.committed, LandAll(d, st, sends).committed)
  {
    if sends != [] {
      LandAllExtends(d, st, Front(sends));
    }
  }

  lemma StepExtends(d: Descriptor, st: State, e: Event)
    requires d.WriteOnce() && KeysOk(d, st)
    ensures Extends(st.committed, Step(d, st, e).committed)
  {
    if e.Release? {
      LandAllExtends(d, st.(stalled := []), st.stalled);
    }
  }

  lemma {:induction false} RunExtends(d: Descriptor, st: State, es: seq<Event>)
    requires d.WriteOnce() && KeysOk(d, st)
    ensures Extends(st.committed, Run(d, st, es).committed)
  {
    if es != [] {
      RunKeepsKeys(d, st, Front(es));
      RunExtends(d, st, Front(es));
      StepExtends(d, Run(d, st, Front(es)), Last(es));
    }
  }

  /** How many of the sends were captured under `key`. */
  function Under(sends: seq<StalledSend>, key: string): nat {
    if sends == [] then 0 else Under(Front(sends), key) + if Last(sends).fenceKey == key then 1 else 0
  }

  /** A release never touches a committed key, and turns away every send captured under it. */
  lemma {:induction false} LandAllFences(d: Descriptor, st: State, sends: seq<StalledSend>, key: string)
    requires key in st.committed
    ensures var st' := LandAll(d, st, sends);
            && key in st'.committed && st'.committed[key] == st.committed[key]
            && st'.lateFenced >= st.lateFenced + Under(sends, key)
  {
    if sends != [] {
      LandAllFences(d, st, Front(sends), key);
    }
  }

  /** Once its key is committed, a direct send changes nothing and gets the row's answer. */
  lemma CommittedKeyAnswers(d: Descriptor, st: State, key: string, req: Request)
    requires d.row == IdempotencyKey || (d.row == Lookup && d.qualification == Some(ConditionalCreate))
    requires key in st.committed
    ensures FenceKey(d, st.dispatches + 1, req) == key && !st.stallNextSend ==>
              Dispatch(d, st, req)
              == (st.(dispatches := st.dispatches + 1),
                  if d.row == IdempotencyKey then Accepted(None, Some(st.committed[key].receipt)) else Failed)
  {
  }

  /**
   The effect that `was` holds under `key` is still the one in `st`. A direct
   send under the key gets its receipt (idempotency-key) or a refusal
   (conditional-create) and changes nothing; a release, whatever else is in
   flight, leaves the effect alone and fences every send captured under the
   key.
   */
  ghost predicate Final(d: Descriptor, was: State, st: State, key: string, req: Request)
    requires key in was.committed
  {
    && Get(st.committed, key) == Some(was.committed[key])
    && (FenceKey(d, st.dispatches + 1, req) == key && !st.stallNextSend ==>
          Dispatch(d, st, req)
          == (st.(dispatches := st.dispatches + 1),
              if d.row == IdempotencyKey then Accepted(None, Some(was.committed[key].receipt)) else Failed))
    && Get(ReleaseStalled(d, st).committed, key) == Some(was.committed[key])
    && ReleaseStalled(d, st).lateFenced >= st.lateFenced + Under(st.stalled, key)
  }

  lemma FinalIn(d: Descriptor, was: State, st: State, key: string, req: Request)
    requires d.row == IdempotencyKey || (d.row == Lookup && d.qualification == Some(ConditionalCreate))
    requires key in was.committed && Extends(was.committed, st.committed)
    ensures Final(d, was, st, key, req)
  {
    CommittedKeyAnswers(d, st, key, req);
    LandAllFences(d, st.(stalled := []), st.stalled, key);
  }

  /**
   A committed key is final on the rows that dedupe or refuse: for the state
   after any run that committed it, and the state after any further run.
   */
  lemma CommittedKeyIsFinal(d: Descriptor, es: seq<Event>, more: seq<Event>, key: string, req: Request)
    requires d.row == IdempotencyKey || (d.row == Lookup && d.qualification == Some(ConditionalCreate))
    requires key in Run(d, Initial, es).committed
    ensures Final(d, Run(d, Initial, es), Run(d, Run(d, Initial, es), more), key, req)
  {
    RunKeepsKeys(d, Initial, es);
    RunExtends(d, Run(d, Initial, es), more);
    FinalIn(d, Run(d, Initial, es), Run(d, Run(d, Initial, es), more), key, req);
  }

  // ---------------------------------------------------------------- one effect per intent key

  /** Every effect and every send in flight for `logicalKey` sits under one of `keys`. */
  ghost predicate KeyedWithin(st: State, logicalKey: string, keys: set<string>) {
    && EffectsOf(st.committed, logicalKey) <= keys
    && (forall i :: 0 <= i < |st.stalled| && st.stalled[i].logicalKey == logicalKey ==>
          st.stalled[i].fenceKey in keys)
  }

  lemma {:induction false} LandAllKeyed(d: Descriptor, st: State, sends: seq<StalledSend>, l: string, keys: set<string>)
    requires KeyedWithin(st, l, keys)
    requires forall i :: 0 <= i < |sends| && sends[i].logicalKey == l ==> sends[i].fenceKey in keys
    ensures KeyedWithin(LandAll(d, st, sends), l, keys)
  {
    if sends != [] {
      LandAllKeyed(d, st, Front(sends), l, keys);
    }
  }

  lemma {:induction false} RunKeyed(d: Descriptor, st: State, es: seq<Event>, l: string, keys: set<string>)
    requires d.row == IdempotencyKey
    requires KeyedWithin(st, l, keys)
    requires forall i :: 0 <= i < |es| && es[i].Send? && es[i].req.logicalKey == l ==>
               es[i].req.idempotencyKey.Some? && es[i].req.idempotencyKey.value in keys
    ensures KeyedWithin(Run(d, st, es), l, keys)
  {
    if es != [] {
      RunKeyed(d, st, Front(es), l, keys);
      var before := Run(d, st, Front(es));
      if Last(es).Release? {
        LandAllKeyed(d, before.(stalled := []), before.stalled, l, keys);
      }
    }
  }

  function EpochKeys(logicalKey: string, epochs: set<nat>): set<string> {
    set e | e in epochs :: EpochKey(logicalKey, e)
  }

  lemma {:induction false} EpochKeysSize(logicalKey: string, epochs: set<nat>)
    ensures |EpochKeys(logicalKey, epochs)| == |epochs|
  {
    if epochs != {} {
      var e :| e in epochs;
      var rest := epochs - {e};
      EpochKeysSize(logicalKey, rest);
      forall e' | e' in rest ensures EpochKey(logicalKey, e') != EpochKey(logicalKey, e) {
        if EpochKey(logicalKey, e') == EpochKey(logicalKey, e) {
          TaggedInjective(logicalKey, e', logicalKey, e, "epoch");
        }
      }
      assert EpochKeys(logicalKey, epochs) == EpochKeys(logicalKey, rest) + {EpochKey(logicalKey, e)};
    }
  }

  lemma SubsetSize<T>(a: set<T>, b: set<T>)
    requires a <= b
    ensures |a| <= |b|
  {
    assert b == a + (b - a);
  }

  /**
   With the stable idempotency key (logical key bound to its epoch), any run
   leaves at most one effect per epoch the intent was dispatched under: one
   effect for one intent, however many sends, stalls and late releases.
   */
  lemma OneEffectPerEpoch(d: Descriptor, es: seq<Event>, logicalKey: string, epochs: set<nat>)
    requires d.row == IdempotencyKey
    requires forall i :: 0 <= i < |es| && es[i].Send? && es[i].req.logicalKey == logicalKey ==>
               exists e :: e in epochs && es[i].req.idempotencyKey == Some(EpochKey(logicalKey, e))
    ensures |EffectsOf(Run(d, Initial, es).committed, logicalKey)| <= |epochs|
  {
    var keys := EpochKeys(logicalKey, epochs);
    RunKeyed(d, Initial, es, logicalKey, keys);
    EpochKeysSize(logicalKey, epochs);
    SubsetSize(EffectsOf(Run(d, Initial, es).committed, logicalKey), keys);
  }

  /** Keys built from different intents never collide, so no intent is deduped into another's effect. */
  lemma EpochKeyInjective(l: string, e: nat, l': string, e': nat)
    requires EpochKey(l, e) == EpochKey(l', e')
    ensures l == l' && e == e'
  {
    TaggedInjective(l, e, l', e', "epoch");
  }

  ghost predicate IsEpochKey(key: string, logicalKey: string) {
    exists e: nat :: key == EpochKey(logicalKey, e)
  }

  ghost predicate UsesOwnKey(req: Request) {
    req.idempotencyKey.Some? && IsEpochKey(req.idempotencyKey.value, req.logicalKey)
  }

  ghost predicate OwnKeys(st: State) {
    && (forall k :: k in st.committed ==> IsEpochKey(k, st.committed[k].logicalKey))
    && (forall i :: 0 <= i < |st.stalled| ==> IsEpochKey(st.stalled[i].fenceKey, st.stalled[i].logicalKey))
  }

  lemma {:induction false} LandAllOwnKeys(d: Descriptor, st: State, sends: seq<StalledSend>)
    requires OwnKeys(st) && OwnKeys(st.(stalled := sends))
    ensures OwnKeys(LandAll(d, st, sends))
    ensures LandAll(d, st, sends).stalled == st.stalled
  {
    if sends != [] {
      assert OwnKeys(st.(stalled := Front(sends)));
      LandAllOwnKeys(d, st, Front(sends));
      assert st.(stalled := sends).stalled[|sends| - 1] == Last(sends);
    }
  }

  lemma SendOwnKeys(d: Descriptor, st: State, req: Request)
    requires d.row == IdempotencyKey && OwnKeys(st) && UsesOwnKey(req)
    ensures OwnKeys(Dispatch(d, st, req).0)
  {
    var st', key := Dispatch(d, st, req).0, FenceKey(d, st.dispatches + 1, req);
    SendAdds(d, st, req);
    forall k | k in st'.committed ensures IsEpochKey(k, st'.committed[k].logicalKey) {
      assert st'.committed[k].logicalKey == req.logicalKey
        || (k in st.committed && st'.committed[k] == st.committed[k]);
    }
  }

  lemma {:induction false} RunOwnKeys(d: Descriptor, st: State, es: seq<Event>)
    requires d.row == IdempotencyKey && OwnKeys(st)
    requires forall i :: 0 <= i < |es| && es[i].Send? ==> UsesOwnKey(es[i].req)
    ensures OwnKeys(Run(d, st, es))
  {
    if es != [] {
      RunOwnKeys(d, st, Front(es));
      var before := Run(d, st, Front(es));
      match Last(es) {
        case Release => LandAllOwnKeys(d, before.(stalled := []), before.stalled);
        case Send(req) => SendOwnKeys(d, before, req);
        case _ =>
      }
    }
  }

  /**
   When every sender uses its own intent's key, the effect found under an
   intent's key belongs to that intent, even if some logical key itself
   contains "#epoch".
   */
  lemma EffectBelongsToIntent(d: Descriptor, es: seq<Event>, logicalKey: string, epoch: nat)
    requires d.row == IdempotencyKey
    requires forall i :: 0 <= i < |es| && es[i].Send? ==> UsesOwnKey(es[i].req)
    ensures var st := Run(d, Initial, es);
            EpochKey(logicalKey, epoch) in st.committed ==>
              st.committed[EpochKey(logicalKey, epoch)].logicalKey == logicalKey
  {
    RunOwnKeys(d, Initial, es);
    var st, k := Run(d, Initial, es), EpochKey(logicalKey, epoch);
    if k in st.committed {
      var e: nat :| k == EpochKey(st.committed[k].logicalKey, e);
      EpochKeyInjective(logicalKey, epoch, st.committed[k].logicalKey, e);
    }
  }

  // ---------------------------------------------------------------- accounting

  /** Sends of the run that were executed rather than captured in flight. */
  function DirectSends(d: Descriptor, st: State, es: seq<Event>): nat {
    if es == [] then 0
    else DirectSends(d, st, Front(es))
         + (if Last(es).Send? && !Run(d, st, Front(es)).stallNextSend then 1 else 0)
  }

  /** Executed sends that passed the fences under a committing behaviour. */
  function DirectCommits(d: Descriptor, st: State, es: seq<Event>): nat {
    if es == [] then 0
    else
      var before := Run(d, st, Front(es));
      DirectCommits(d, st, Front(es))
      + (if && Last(es).Send? && !before.stallNextSend && !Fenced(d, before, Last(es).req)
            && before.nextBehavior.Commits()
         then 1 else 0)
  }

  lemma {:induction false} LandAllAccounts(d: Descriptor, st: State, sends: seq<StalledSend>)
    ensures var st' := LandAll(d, st, sends);
            && st'.lateLandings + st'.lateFenced == st.lateLandings + st.lateFenced + |sends|
            && |st'.committed| - st'.lateLandings == |st.committed| - st.lateLandings
            && st'.dispatches == st.dispatches && st'.stalled == st.stalled
            && st'.closed == st.closed
  {
    if sends != [] {
      LandAllAccounts(d, st, Front(sends));
    }
  }

  lemma SendIsCounted(d: Descriptor, st: State, req: Request)
    ensures var st' := Dispatch(d, st, req).0;
            && st'.dispatches == st.dispatches + 1
            && st'.lateLandings == st.lateLandings && st'.lateFenced == st.lateFenced
            && |st'.stalled| == |st.stalled| + (if st.stallNextSend then 1 else 0)
  {
  }

  lemma {:induction false} RunAccounts(d: Descriptor, st: State, es: seq<Event>)
    ensures var st' := Run(d, st, es);
            st'.dispatches - (|st'.stalled| + st'.lateLandings + st'.lateFenced)
            == st.dispatches - (|st.stalled| + st.lateLandings + st.lateFenced) + DirectSends(d, st, es)
  {
    if es != [] {
      RunAccounts(d, st, Front(es));
      var before := Run(d, st, Front(es));
      match Last(es) {
        case Release => LandAllAccounts(d, before.(stalled := []), before.stalled);
        case Send(req) => SendIsCounted(d, before, req);
        case _ =>
      }
    }
  }

  /** An executed send that passes the fences and commits adds one effect; no other send adds any. */
  lemma SendCommits(d: Descriptor, st: State, req: Request)
    requires d.WriteOnce() && KeysOk(d, st)
    ensures var st' := Dispatch(d, st, req).0;
            && st'.lateLandings == st.lateLandings
            && |st'.committed|
               == |st.committed|
                  + (if !st.stallNextSend && !Fenced(d, st, req) && st.nextBehavior.Commits() then 1 else 0)
  {
  }

  lemma {:induction false} RunCommits(d: Descriptor, st: State, es: seq<Event>)
    requires d.WriteOnce() && KeysOk(d, st)
    ensures var st' := Run(d, st, es);
            |st'.committed| - st'.lateLandings
            == |st.committed| - st.lateLandings + DirectCommits(d, st, es)
  {
    if es != [] {
      RunKeepsKeys(d, st, Front(es));
      RunCommits(d, st, Front(es));
      var before := Run(d, st, Front(es));
      match Last(es) {
        case Release => LandAllAccounts(d, before.(stalled := []), before.stalled);
        case Send(req) => SendCommits(d, before, req);
        case _ =>
      }
    }
  }

  /** Every send of a run is accounted for exactly once, and so is every effect of a write-once row. */
  lemma ProviderAccounting(d: Descriptor, es: seq<Event>)
    ensures var st := Run(d, Initial, es);
            && st.dispatches == |st.stalled| + st.lateLandings + st.lateFenced + DirectSends(d, Initial, es)
            && (d.WriteOnce() ==> |st.committed| == DirectCommits(d, Initial, es) + st.lateLandings)
  {
    RunAccounts(d, Initial, es);
    if d.WriteOnce() { RunCommits(d, Initial, es); }
  }

  // ---------------------------------------------------------------- the blind row

  ghost predicate OnlyBlind(st: State) {
    && BlindFresh(st)
    && (forall k :: k in st.order ==> '#' !in k)
    && (forall i :: 0 <= i < |st.stalled| ==>
          '#' !in st.stalled[i].fenceKey && st.stalled[i].fenceKey !in st.committed)
    && (forall i, j :: 0 <= i < j < |st.stalled| ==> st.stalled[i].fenceKey != st.stalled[j].fenceKey)
  }

  ghost predicate FencedBy(sends: seq<StalledSend>, key: string) {
    exists i :: 0 <= i < |sends| && sends[i].fenceKey == key
  }

  /** Distinct keys that are not yet committed all land. */
  lemma {:induction false} LandAllLands(d: Descriptor, st: State, sends: seq<StalledSend>)
    requires d.row == Neither
    requires forall i :: 0 <= i < |sends| ==> sends[i].fenceKey !in st.committed && '#' !in sends[i].fenceKey
    requires forall i, j :: 0 <= i < j < |sends| ==> sends[i].fenceKey != sends[j].fenceKey
    requires forall k :: k in st.order ==> '#' !in k
    ensures var st' := LandAll(d, st, sends);
            && st'.lateLandings == st.lateLandings + |sends|
            && st'.lateFenced == st.lateFenced
            && st'.stalled == st.stalled
            && (forall k :: k in st'.committed && k !in st.committed ==> FencedBy(sends, k))
            && (forall k :: k in st'.order ==> '#' !in k)
  {
    if sends != [] {
      var front := Front(sends);
      LandAllLands(d, st, front);
      var key := Last(sends).fenceKey;
      assert key !in LandAll(d, st, front).committed;
      assert forall k :: FencedBy(front, k) ==> FencedBy(sends, k);
      assert FencedBy(sends, key);
    }
  }

  lemma BlindHasNoHash(n: nat)
    ensures '#' !in Blind(n)
  {
    assert Blind(n) == "blind:" + Decimal(n);
  }

  lemma OnlyBlindAfterSend(st: State, st': State)
    requires OnlyBlind(st) && st'.dispatches == st.dispatches + 1
    requires AddsOnly(st, st', Blind(st'.dispatches))
    ensures OnlyBlind(st')
  {
    BlindAfterSend(st, st');
    BlindHasNoHash(st'.dispatches);
    var key := Blind(st'.dispatches);
    assert key !in st.committed;
    assert forall i :: 0 <= i < |st.stalled| ==> st.stalled[i].fenceKey != key;
  }

  lemma StepBlind(d: Descriptor, st: State, e: Event)
    requires d.row == Neither && OnlyBlind(st)
    ensures OnlyBlind(Step(d, st, e))
    ensures Step(d, st, e).lateFenced == st.lateFenced
  {
    if e.Send? {
      SendAdds(d, st, e.req);
      OnlyBlindAfterSend(st, Dispatch(d, st, e.req).0);
    } else if e.Release? {
      StepKeepsKeys(d, st, e);
      LandAllLands(d, st.(stalled := []), st.stalled);
    }
  }

  lemma {:induction false} RunBlind(d: Descriptor, st: State, es: seq<Event>)
    requires d.row == Neither && OnlyBlind(st)
    ensures OnlyBlind(Run(d, st, es))
    ensures Run(d, st, es).lateFenced == st.lateFenced
  {
    if es != [] {
      RunBlind(d, st, Front(es));
      StepBlind(d, Run(d, st, Front(es)), Last(es));
    }
  }

  /**
   A provider with neither fence nor lookup: every late send lands as an
   effect of its own, and a lookup never finds any effect.
   */
  lemma BlindRowFencesNothing(d: Descriptor, es: seq<Event>, q: Query)
    requires d.row == Neither && d.qualification != Some(ConditionalCreate)
    ensures var st := Run(d, Initial, es);
            && st.lateFenced == 0
            && LookUp(d, st, q).1 == NotFound(false)
  {
    RunBlind(d, Initial, es);
    var st, prefix := Run(d, Initial, es), q.naturalKey + "#attempt";
    assert prefix[|q.naturalKey|] == '#';
    assert forall k :: k in st.order && |q.naturalKey| < |k| ==> k[|q.naturalKey|] in k;
  }
}

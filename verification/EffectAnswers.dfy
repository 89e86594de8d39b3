/**
 What the fake provider's answers tell a caller: the outcome of every send in
 terms of the fences and the script, what a later lookup finds, what a
 negative answer closes, and which receipts exist.
 */
module EffectAnswers {
  import opened Prelude
  import opened EffectProvider

  // ---------------------------------------------------------------- the answer to a send

  /** The provider refuses: the attempt's acceptance is closed, or conditional create knows the key. */
  predicate Refused(d: Descriptor, st: State, req: Request) {
    || (d.ClosesAcceptance() && AttemptIdentity(req.naturalKey, req.attemptSeq) in st.closed)
    || (&& d.row != IdempotencyKey && d.qualification == Some(ConditionalCreate)
        && FenceKey(d, st.dispatches + 1, req) in st.committed)
  }

  /** The provider knows the idempotency key. */
  predicate Known(d: Descriptor, st: State, req: Request) {
    d.row == IdempotencyKey && FenceKey(d, st.dispatches + 1, req) in st.committed
  }

  /** The send is carried out as scripted. */
  predicate Executed(d: Descriptor, st: State, req: Request) {
    !st.stallNextSend && !Refused(d, st, req) && !Known(d, st, req)
  }

  /** What an accepted answer carries: a known key its receipt alone, a new effect what the script grants of its own. */
  ghost predicate Carries(d: Descriptor, st: State, st': State, req: Request, out: Outcome)
    requires FenceKey(d, st.dispatches + 1, req) in st'.committed
  {
    var receipt := st'.committed[FenceKey(d, st.dispatches + 1, req)].receipt;
    out.Accepted? ==>
      && (out.receipt.Some? <==> Known(d, st, req) || st.nextBehavior.Commit?)
      && (out.providerRef.Some? <==> !Known(d, st, req))
      && (out.receipt.Some? ==> out.receipt.value == receipt)
      && (out.providerRef.Some? ==> out.providerRef.value == receipt.providerRef)
  }

  /**
   The outcome of a send. `Failed` exactly when it was refused, or executed and
   scripted to fail; `Unknown` exactly when it stalled, or was executed and
   scripted to time out or to be dropped; `Accepted` otherwise, and only when an
   effect is there. A new effect is there exactly when the script commits, with
   a receipt of its own; nothing else in the books moves, and only an executed
   send uses up the script.
   */
  lemma SendTells(d: Descriptor, st: State, req: Request)
    ensures var (st', out) := Dispatch(d, st, req);
            var key, runs := FenceKey(d, st.dispatches + 1, req), Executed(d, st, req);
            && (out.Failed? <==> (!st.stallNextSend && Refused(d, st, req)) || (runs && st.nextBehavior.Fail?))
            && (out.Unknown? <==>
                st.stallNextSend || (runs && (st.nextBehavior.AcceptTimeout? || st.nextBehavior.DropUnknown?)))
            && (out.Accepted? ==> key in st'.committed && Carries(d, st, st', req, out))
            && st'.committed
               == (if runs && st.nextBehavior.Commits()
                   then st.committed[key := Effect(Mint(req.logicalKey, st.transfers + 1), req.logicalKey)]
                   else st.committed)
            && st'.nextBehavior == (if runs then Commit else st.nextBehavior)
            && !st'.stallNextSend
  {
  }

  /** A send that stalls is in flight exactly as it was sent, and the next one does not stall. */
  lemma StalledSendIsInFlight(d: Descriptor, st: State, req: Request)
    ensures Dispatch(d, st, req).0.stalled
            == st.stalled
               + (if st.stallNextSend
                  then
                    [StalledSend(FenceKey(d, st.dispatches + 1, req), AttemptIdentity(req.naturalKey, req.attemptSeq),
                                 req.logicalKey, Mint(req.logicalKey, st.transfers + 1))]
                  else [])
  {
  }

  // ---------------------------------------------------------------- what a release lands

  /** The captured send is for the key, and its attempt is not closed. */
  predicate Live(d: Descriptor, closed: set<string>, send: StalledSend, key: string) {
    send.fenceKey == key && !(d.ClosesAcceptance() && send.attemptIdentity in closed)
  }

  /** The first live send for the key, in capture order, is the one that becomes its effect. */
  ghost predicate FirstLive(d: Descriptor, closed: set<string>, sends: seq<StalledSend>, key: string, effect: Effect) {
    exists i :: 0 <= i < |sends| && Live(d, closed, sends[i], key)
      && effect == Effect(sends[i].receiptSeed, sends[i].logicalKey)
      && forall j :: 0 <= j < i ==> !Live(d, closed, sends[j], key)
  }

  lemma {:induction false} LandAllLandsExactly(d: Descriptor, st: State, sends: seq<StalledSend>, key: string)
    ensures var st' := LandAll(d, st, sends);
            && st'.closed == st.closed && st'.stalled == st.stalled
            && (key in st.committed ==> Get(st'.committed, key) == Some(st.committed[key]))
            && (key !in st.committed ==>
                  if key in st'.committed then FirstLive(d, st.closed, sends, key, st'.committed[key])
                  else forall i :: 0 <= i < |sends| ==> !Live(d, st.closed, sends[i], key))
  {
    if sends != [] {
      var front, last := Front(sends), Last(sends);
      LandAllLandsExactly(d, st, front, key);
      LandOne(d, LandAll(d, st, front), last);
      if key !in st.committed && key in LandAll(d, st, sends).committed {
        FirstLiveStays(d, st.closed, sends, key, LandAll(d, st, sends).committed[key],
                       key in LandAll(d, st, front).committed);
      }
    }
  }

  lemma FirstLiveStays(d: Descriptor, closed: set<string>, sends: seq<StalledSend>, key: string, effect: Effect,
                       earlier: bool)
    requires sends != []
    requires earlier ==> FirstLive(d, closed, Front(sends), key, effect)
    requires !earlier ==>
               && (forall i :: 0 <= i < |sends| - 1 ==> !Live(d, closed, Front(sends)[i], key))
               && Live(d, closed, Last(sends), key)
               && effect == Effect(Last(sends).receiptSeed, Last(sends).logicalKey)
    ensures FirstLive(d, closed, sends, key, effect)
  {
    if earlier {
      var i :| 0 <= i < |sends| - 1 && Live(d, closed, Front(sends)[i], key)
        && effect == Effect(Front(sends)[i].receiptSeed, Front(sends)[i].logicalKey)
        && forall j :: 0 <= j < i ==> !Live(d, closed, Front(sends)[j], key);
      assert sends[i] == Front(sends)[i] && forall j :: 0 <= j < i ==> sends[j] == Front(sends)[j];
    } else {
      assert forall j :: 0 <= j < |sends| - 1 ==> sends[j] == Front(sends)[j];
      assert sends[|sends| - 1] == Last(sends);
    }
  }

  /**
   A release leaves nothing in flight and every committed effect as it was; any
   other key is committed exactly if a send under it is live, by the first of
   these, with the receipt and the intent it was captured with.
   */
  lemma ReleaseLandsExactly(d: Descriptor, st: State, key: string)
    ensures var st' := ReleaseStalled(d, st);
            && st'.stalled == [] && st'.closed == st.closed
            && (key in st.committed ==> Get(st'.committed, key) == Some(st.committed[key]))
            && (key !in st.committed ==>
                  if key in st'.committed then FirstLive(d, st.closed, st.stalled, key, st'.committed[key])
                  else forall i :: 0 <= i < |st.stalled| ==> !Live(d, st.closed, st.stalled[i], key))
  {
    LandAllLandsExactly(d, st.(stalled := []), st.stalled, key);
  }

  // ---------------------------------------------------------------- what a lookup finds

  /** The rows whose lookups are by the key the send was fenced with. */
  predicate Keyed(d: Descriptor) {
    d.row == IdempotencyKey || (d.row == Lookup && d.qualification == Some(ConditionalCreate))
  }

  /** The query asks for what the request sends; on the idempotency-key row both give the key. */
  predicate AsksFor(d: Descriptor, q: Query, req: Request) {
    && q.naturalKey == req.naturalKey && q.idempotencyKey == req.idempotencyKey
    && (d.row == IdempotencyKey ==> req.idempotencyKey.Some?)
  }

  /** On a keyed row a lookup or a closure finds exactly the effect under the key a send would be fenced with. */
  lemma KeyedLookupFindsExactly(d: Descriptor, st: State, q: Query, req: Request)
    requires Keyed(d) && AsksFor(d, q, req)
    ensures var key := FenceKey(d, st.dispatches + 1, req);
            && (key in st.committed ==>
                  && LookUp(d, st, q).1 == Found(st.committed[key].receipt)
                  && CloseAcceptance(d, st, q).1 == Found(st.committed[key].receipt))
            && (key !in st.committed ==>
                  LookUp(d, st, q).1.NotFound? && CloseAcceptance(d, st, q).1.NotFound?)
  {
  }

  /**
   Send and lookup are a round trip: on the keyed rows every later lookup for
   an accepted send, after whatever else anybody did, finds its effect, with
   the receipt the answer carried.
   */
  lemma AcceptedIsFound(d: Descriptor, st: State, req: Request, more: seq<Event>, q: Query)
    requires Keyed(d) && AsksFor(d, q, req)
    requires Dispatch(d, st, req).1.Accepted?
    ensures var (st', out) := Dispatch(d, st, req);
            var answer := LookUp(d, Run(d, st', more), q).1;
            && answer.Found?
            && (out.receipt.Some? ==> answer.receipt == out.receipt.value)
            && (out.providerRef.Some? ==> answer.receipt.providerRef == out.providerRef.value)
  {
    var st' := Dispatch(d, st, req).0;
    RunExtends(d, st', more);
    SendTells(d, st, req);
    KeyedLookupFindsExactly(d, Run(d, st', more), q, req);
  }

  /**
   A lookup changes no effect, no closure and nothing in flight, and its
   negative is never final. A closure's negative is final exactly when it
   named an attempt, which it then closes, and it closes nothing else.
   */
  lemma NegativesCloseExactly(d: Descriptor, st: State, q: Query)
    ensures LookUp(d, st, q).0 == st.(lookups := st.lookups + 1)
    ensures LookUp(d, st, q).1.NotFound? ==> !LookUp(d, st, q).1.acceptanceClosed
    ensures LookUp(d, st, q).1.Found? <==> CloseAcceptance(d, st, q).1.Found?
    ensures var (st', answer) := CloseAcceptance(d, st, q);
            && st' == st.(lookups := st.lookups + 1, closed := st'.closed)
            && (answer.Found? ==> st'.closed == st.closed)
            && (answer.NotFound? ==>
                  && (answer.acceptanceClosed <==> q.attemptSeq.Some?)
                  && st'.closed - st.closed
                     <= (if q.attemptSeq.Some? then {AttemptIdentity(q.naturalKey, q.attemptSeq.value)} else {})
                  && st.closed <= st'.closed
                  && (q.attemptSeq.Some? ==> AttemptIdentity(q.naturalKey, q.attemptSeq.value) in st'.closed))
  {
  }

  lemma {:induction false} LandAllAppends(d: Descriptor, st: State, sends: seq<StalledSend>)
    ensures st.order <= LandAll(d, st, sends).order
  {
    if sends != [] {
      LandAllAppends(d, st, Front(sends));
    }
  }

  lemma {:induction false} RunAppends(d: Descriptor, st: State, es: seq<Event>)
    ensures st.order <= Run(d, st, es).order
  {
    if es != [] {
      RunAppends(d, st, Front(es));
      var before := Run(d, st, Front(es));
      if Last(es).Release? {
        LandAllAppends(d, before.(stalled := []), before.stalled);
      } else if Last(es).Send? {
        SendAppends(d, before, Last(es).req);
      }
    }
  }

  lemma SendAppends(d: Descriptor, st: State, req: Request)
    ensures st.order <= Dispatch(d, st, req).0.order
  {
  }

  lemma {:induction false} FirstStays(order: seq<string>, more: seq<string>, prefix: string)
    requires order <= more && FirstWithPrefix(order, prefix).Some?
    ensures FirstWithPrefix(more, prefix) == FirstWithPrefix(order, prefix)
  {
    assert order[0] == more[0];
    if !(prefix <= order[0]) {
      FirstStays(order[1..], more[1..], prefix);
    }
  }

  /** A lookup that found an attempt goes on finding that attempt, whatever anybody does afterwards. */
  lemma FoundAttemptStays(d: Descriptor, st: State, more: seq<Event>, q: Query)
    requires SearchKey(d, st, q).Some?
    ensures SearchKey(d, Run(d, st, more), q) == SearchKey(d, st, q)
  {
    RunAppends(d, st, more);
    if d.row != IdempotencyKey && d.qualification != Some(ConditionalCreate) {
      FirstStays(st.order, Run(d, st, more).order, q.naturalKey + "#attempt");
    }
  }

  // ---------------------------------------------------------------- receipts

  /** A receipt minted for the intent. */
  ghost predicate Minted(receipt: Receipt, logicalKey: string, count: nat) {
    exists n: nat :: n <= count && receipt == Mint(logicalKey, n)
  }

  /** Effects and sends in flight carry receipts minted for their own intents, and no two of them share one. */
  ghost predicate OwnReceipts(committed: map<string, Effect>, sends: seq<StalledSend>, count: nat) {
    && (forall k :: k in committed ==> Minted(committed[k].receipt, committed[k].logicalKey, count))
    && (forall i :: 0 <= i < |sends| ==> Minted(sends[i].receiptSeed, sends[i].logicalKey, count))
    && (forall k, k' :: k in committed && k' in committed && k != k' ==>
          committed[k].receipt.providerRef != committed[k'].receipt.providerRef)
    && (forall k, i :: k in committed && 0 <= i < |sends| ==>
          committed[k].receipt.providerRef != sends[i].receiptSeed.providerRef)
    && (forall i, j :: 0 <= i < j < |sends| ==>
          sends[i].receiptSeed.providerRef != sends[j].receiptSeed.providerRef)
  }

  lemma NextMintIsNew(receipt: Receipt, logicalKey: string, count: nat, other: string)
    requires Minted(receipt, logicalKey, count)
    ensures Minted(receipt, logicalKey, count + 1)
    ensures receipt.providerRef != Mint(other, count + 1).providerRef
  {
    var n: nat :| n <= count && receipt == Mint(logicalKey, n);
    if receipt.providerRef == Mint(other, count + 1).providerRef {
      assert receipt.providerRef[4..] == Decimal(n) && Mint(other, count + 1).providerRef[4..] == Decimal(count + 1);
      DecimalInjective(n, count + 1);
    }
  }

  /** The next number of the counter is on no receipt yet. */
  lemma NextReceiptIsNew(committed: map<string, Effect>, sends: seq<StalledSend>, count: nat, logicalKey: string)
    requires OwnReceipts(committed, sends, count)
    ensures OwnReceipts(committed, sends, count + 1)
    ensures var next := Mint(logicalKey, count + 1);
            && Minted(next, logicalKey, count + 1)
            && (forall k :: k in committed ==> committed[k].receipt.providerRef != next.providerRef)
            && (forall i :: 0 <= i < |sends| ==> sends[i].receiptSeed.providerRef != next.providerRef)
  {
    forall k | k in committed
      ensures Minted(committed[k].receipt, committed[k].logicalKey, count + 1)
              && committed[k].receipt.providerRef != Mint(logicalKey, count + 1).providerRef
    {
      NextMintIsNew(committed[k].receipt, committed[k].logicalKey, count, logicalKey);
    }
    forall i | 0 <= i < |sends|
      ensures Minted(sends[i].receiptSeed, sends[i].logicalKey, count + 1)
              && sends[i].receiptSeed.providerRef != Mint(logicalKey, count + 1).providerRef
    {
      NextMintIsNew(sends[i].receiptSeed, sends[i].logicalKey, count, logicalKey);
    }
  }

  lemma SendKeepsReceipts(d: Descriptor, st: State, req: Request)
    requires OwnReceipts(st.committed, st.stalled, st.transfers)
    ensures var st' := Dispatch(d, st, req).0; OwnReceipts(st'.committed, st'.stalled, st'.transfers)
  {
    NextReceiptIsNew(st.committed, st.stalled, st.transfers, req.logicalKey);
    var st' := Dispatch(d, st, req).0;
    SendTells(d, st, req);
    StalledSendIsInFlight(d, st, req);
    SendCounts(d, st, req);
  }

  lemma SendCounts(d: Descriptor, st: State, req: Request)
    ensures Dispatch(d, st, req).0.transfers
            == st.transfers
               + (if st.stallNextSend || (Executed(d, st, req) && st.nextBehavior.Commits()) then 1 else 0)
  {
  }

  lemma {:induction false} LandAllKeepsReceipts(
      d: Descriptor, st: State, sends: seq<StalledSend>, rest: seq<StalledSend>)
    requires OwnReceipts(st.committed, sends + rest, st.transfers)
    ensures var st' := LandAll(d, st, sends);
            && OwnReceipts(st'.committed, rest, st.transfers)
            && st'.stalled == st.stalled && st'.transfers == st.transfers
  {
    if sends == [] {
      assert sends + rest == rest;
    } else {
      assert Front(sends) + ([Last(sends)] + rest) == sends + rest;
      LandAllKeepsReceipts(d, st, Front(sends), [Last(sends)] + rest);
      LandKeepsReceipts(LandAll(d, st, Front(sends)).committed, Last(sends), rest, st.transfers);
      LandOne(d, LandAll(d, st, Front(sends)), Last(sends));
    }
  }

  lemma LandOne(d: Descriptor, st: State, send: StalledSend)
    ensures var st' := Land(d, st, send);
            && (|| st'.committed == st.committed
                || st'.committed == st.committed[send.fenceKey := Effect(send.receiptSeed, send.logicalKey)])
            && st'.stalled == st.stalled && st'.transfers == st.transfers
  {
  }

  lemma LandKeepsReceipts(committed: map<string, Effect>, send: StalledSend, rest: seq<StalledSend>, count: nat)
    requires OwnReceipts(committed, [send] + rest, count)
    ensures OwnReceipts(committed, rest, count)
    ensures OwnReceipts(committed[send.fenceKey := Effect(send.receiptSeed, send.logicalKey)], rest, count)
  {
    var sends := [send] + rest;
    assert sends[0] == send && forall i :: 0 <= i < |rest| ==> rest[i] == sends[i + 1];
  }

  /**
   Over every run, every effect and every send in flight carries a receipt
   minted for its own intent, and no two of them carry the same reference, late
   landings included.
   */
  lemma {:induction false} ReceiptsAreOwn(d: Descriptor, es: seq<Event>)
    ensures var st := Run(d, Initial, es); OwnReceipts(st.committed, st.stalled, st.transfers)
  {
    if es != [] {
      ReceiptsAreOwn(d, Front(es));
      var st := Run(d, Initial, Front(es));
      match Last(es) {
        case Send(req) => SendKeepsReceipts(d, st, req);
        case Release =>
          assert st.stalled + [] == st.stalled;
          LandAllKeepsReceipts(d, st.(stalled := []), st.stalled, []);
        case _ =>
      }
    }
  }
}

/**
 The tool-call id maps of the two stream adapters: canonical ids on the
 engine's side, wire ids on the provider's. They differ only in the wire id
 derived for a canonical id minted elsewhere.
 */
module IdMaps {
  import opened Prelude

  datatype Dialect = Anthropic | Bridge

  function DerivedWire(dialect: Dialect, canonical: string): string {
    match dialect
    case Anthropic => "toolu_" + canonical
    case Bridge => canonical
  }

  datatype Ids = Ids(toWire: map<string, string>, toCanonical: map<string, string>)

  const NoIds: Ids := Ids(map[], map[])

  function CanonicalFor(ids: Ids, wire: string, minted: string): (Ids, string) {
    if wire in ids.toCanonical then (ids, ids.toCanonical[wire])
    else (Ids(ids.toWire[minted := wire], ids.toCanonical[wire := minted]), minted)
  }

  function WireFor(dialect: Dialect, ids: Ids, canonical: string): (Ids, string) {
    if canonical in ids.toWire then (ids, ids.toWire[canonical])
    else
      var wire := DerivedWire(dialect, canonical);
      (Ids(ids.toWire[canonical := wire], ids.toCanonical[wire := canonical]), wire)
  }

  class IdMap {
    const dialect: Dialect
    var toWire: map<string, string>
    var toCanonical: map<string, string>

    ghost function View(): Ids
      reads this
    {
      Ids(toWire, toCanonical)
    }

    constructor (dialect: Dialect)
      ensures View() == NoIds && this.dialect == dialect
    {
      this.dialect := dialect;
      toWire, toCanonical := map[], map[];
    }

    /** `minted` is the id the minter would produce now. */
    method Canonical(wireId: string, minted: string) returns (id: string)
      modifies this
      ensures (View(), id) == CanonicalFor(old(View()), wireId, minted)
    {
      if wireId in toCanonical {
        return toCanonical[wireId];
      }
      toCanonical := toCanonical[wireId := minted];
      toWire := toWire[minted := wireId];
      id := minted;
    }

    method Wire(canonicalId: string) returns (id: string)
      modifies this
      ensures (View(), id) == WireFor(dialect, old(View()), canonicalId)
    {
      if canonicalId in toWire {
        return toWire[canonicalId];
      }
      id := DerivedWire(dialect, canonicalId);
      toWire := toWire[canonicalId := id];
      toCanonical := toCanonical[id := canonicalId];
    }
  }

  // ---------------------------------------------------------------- the bijection

  /** The two maps are inverse bijections. */
  ghost predicate Inverse(ids: Ids) {
    && (forall c :: c in ids.toWire ==> ids.toWire[c] in ids.toCanonical && ids.toCanonical[ids.toWire[c]] == c)
    && (forall w :: w in ids.toCanonical ==> ids.toCanonical[w] in ids.toWire && ids.toWire[ids.toCanonical[w]] == w)
  }

  datatype Call = ToCanonical(wire: string, minted: string) | ToWire(canonical: string)

  function Step(dialect: Dialect, ids: Ids, call: Call): Ids {
    match call
    case ToCanonical(wire, minted) => CanonicalFor(ids, wire, minted).0
    case ToWire(canonical) => WireFor(dialect, ids, canonical).0
  }

  /** A newly entered id is new on its side: the minted one, or the derived wire id. */
  predicate Fresh(dialect: Dialect, ids: Ids, call: Call) {
    match call
    case ToCanonical(wire, minted) => wire in ids.toCanonical || minted !in ids.toWire
    case ToWire(canonical) => canonical in ids.toWire || DerivedWire(dialect, canonical) !in ids.toCanonical
  }

  /** One call keeps the bijection exactly when the id it enters is fresh. */
  lemma StepKeepsInverseExactly(dialect: Dialect, ids: Ids, call: Call)
    requires Inverse(ids)
    ensures Inverse(Step(dialect, ids, call)) <==> Fresh(dialect, ids, call)
  {
    var ids' := Step(dialect, ids, call);
    if !Fresh(dialect, ids, call) {
      match call {
        case ToCanonical(wire, minted) =>
          assert ids'.toCanonical[ids.toWire[minted]] == minted;
        case ToWire(canonical) =>
          var wire := DerivedWire(dialect, canonical);
          assert ids'.toWire[ids.toCanonical[wire]] == wire;
      }
    }
  }

  function Run(dialect: Dialect, ids: Ids, calls: seq<Call>): Ids {
    if calls == [] then ids else Step(dialect, Run(dialect, ids, Front(calls)), Last(calls))
  }

  ghost predicate FreshRun(dialect: Dialect, ids: Ids, calls: seq<Call>) {
    calls == []
    || (FreshRun(dialect, ids, Front(calls)) && Fresh(dialect, Run(dialect, ids, Front(calls)), Last(calls)))
  }

  ghost predicate Grows(before: Ids, after: Ids) {
    && (forall c :: c in before.toWire ==> c in after.toWire && after.toWire[c] == before.toWire[c])
    && (forall w :: w in before.toCanonical ==>
          w in after.toCanonical && after.toCanonical[w] == before.toCanonical[w])
  }

  lemma {:induction false} RunKeepsInverse(dialect: Dialect, ids: Ids, calls: seq<Call>)
    requires Inverse(ids) && FreshRun(dialect, ids, calls)
    ensures Inverse(Run(dialect, ids, calls))
    ensures Grows(ids, Run(dialect, ids, calls))
  {
    if calls != [] {
      RunKeepsInverse(dialect, ids, Front(calls));
      StepKeepsInverseExactly(dialect, Run(dialect, ids, Front(calls)), Last(calls));
    }
  }

  /**
   Over any interleaving of fresh calls both round trips are the identity, and
   an id answered once is answered the same way ever after, so a tool call and
   its result share one wire id.
   */
  lemma RoundTrips(dialect: Dialect, calls: seq<Call>, canonical: string, more: seq<Call>, minted: string)
    requires FreshRun(dialect, NoIds, calls)
    requires Fresh(dialect, Run(dialect, NoIds, calls), ToWire(canonical))
    requires FreshRun(dialect, WireFor(dialect, Run(dialect, NoIds, calls), canonical).0, more)
    ensures var (ids, wire) := WireFor(dialect, Run(dialect, NoIds, calls), canonical);
            var later := Run(dialect, ids, more);
            && WireFor(dialect, later, canonical) == (later, wire)
            && CanonicalFor(later, wire, minted) == (later, canonical)
            && forall other :: other in later.toWire && WireFor(dialect, later, other).1 == wire ==> other == canonical
  {
    RunKeepsInverse(dialect, NoIds, calls);
    StepKeepsInverseExactly(dialect, Run(dialect, NoIds, calls), ToWire(canonical));
    RunKeepsInverse(dialect, WireFor(dialect, Run(dialect, NoIds, calls), canonical).0, more);
  }

  /**
   The same the other way round: a provider's wire id gets the canonical id the
   minter gave, or the one it has, and both are answered with each other ever
   after.
   */
  lemma CanonicalRoundTrips(
      dialect: Dialect, calls: seq<Call>, wire: string, minted: string, more: seq<Call>, other: string)
    requires FreshRun(dialect, NoIds, calls)
    requires Fresh(dialect, Run(dialect, NoIds, calls), ToCanonical(wire, minted))
    requires FreshRun(dialect, CanonicalFor(Run(dialect, NoIds, calls), wire, minted).0, more)
    ensures var (ids, canonical) := CanonicalFor(Run(dialect, NoIds, calls), wire, minted);
            var later := Run(dialect, ids, more);
            && (wire !in Run(dialect, NoIds, calls).toCanonical ==> canonical == minted)
            && CanonicalFor(later, wire, other) == (later, canonical)
            && WireFor(dialect, later, canonical) == (later, wire)
  {
    RunKeepsInverse(dialect, NoIds, calls);
    StepKeepsInverseExactly(dialect, Run(dialect, NoIds, calls), ToCanonical(wire, minted));
    RunKeepsInverse(dialect, CanonicalFor(Run(dialect, NoIds, calls), wire, minted).0, more);
  }

  /** Without freshness two calls can share a wire id: a foreign canonical id equal to a provider's wire id. */
  lemma BridgeIdsCanCollide(wire: string, minted: string)
    requires wire != minted
    ensures var ids := Run(Bridge, NoIds, [ToCanonical(wire, minted), ToWire(wire)]);
            && minted in ids.toWire && wire in ids.toWire
            && ids.toWire[minted] == ids.toWire[wire] == wire
            && !Inverse(ids)
  {
    var a, b := ToCanonical(wire, minted), ToWire(wire);
    assert Front([a, b]) == [a] && Front([a]) == [];
    assert Run(Bridge, NoIds, []) == NoIds;
    assert Run(Bridge, NoIds, [a]) == CanonicalFor(NoIds, wire, minted).0;
    var ids := Run(Bridge, NoIds, [a, b]);
    assert ids == WireFor(Bridge, Run(Bridge, NoIds, [a]), wire).0;
    assert ids.toCanonical[wire] == wire;
  }
}

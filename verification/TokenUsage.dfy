/**
 Canonical token usage: normalisation of the Messages API counts, and the
 aggregate sum that keeps the cache-write TTL split.
 */
module TokenUsage {
  import opened Prelude

  datatype Usage = Usage(
    input: nat,
    output: nat,
    cacheRead: nat,
    cacheWrite: nat,
    reasoning: Option<nat>,
    write5m: Option<nat>,
    write1h: Option<nat>)

  const NoUsage: Usage := Usage(0, 0, 0, 0, None, None, None)

  /** The provider's own counts; a field the wire did not send as a number is None. */
  datatype RawUsage = RawUsage(
    input: Option<nat>,
    output: Option<nat>,
    cacheRead: Option<nat>,
    flatWrite: Option<nat>,
    write5m: Option<nat>,
    write1h: Option<nat>)

  function Or(o: Option<nat>, default: nat): nat {
    if o.Some? then o.value else default
  }

  function SplitSum(raw: RawUsage): Option<nat> {
    if raw.write5m.None? && raw.write1h.None? then None
    else Some(Or(raw.write5m, 0) + Or(raw.write1h, 0))
  }

  /**
   Cached tokens are part of the input, and a TTL split is either absent or
   accounts for every cache write.
   */
  predicate Canonical(u: Usage) {
    && u.cacheRead + u.cacheWrite <= u.input
    && (u.write5m.Some? <==> u.write1h.Some?)
    && (u.write5m.Some? && u.write1h.Some? ==> u.write5m.value + u.write1h.value == u.cacheWrite)
  }

  /**
   Normalises the wire's additive counts. The flat write total is the billable
   one: a breakdown contradicting it is dropped, and stands in only when the
   flat total is missing.
   */
  function Normalize(raw: RawUsage): (u: Usage)
    ensures Canonical(u)
    ensures u.input == Or(raw.input, 0) + u.cacheRead + u.cacheWrite
    ensures u.output == Or(raw.output, 0) && u.cacheRead == Or(raw.cacheRead, 0) && u.reasoning == None
    ensures u.cacheWrite == Or(raw.flatWrite, Or(raw.write5m, 0) + Or(raw.write1h, 0))
    ensures u.write5m.Some? <==>
              (raw.write5m.Some? || raw.write1h.Some?) && Or(raw.write5m, 0) + Or(raw.write1h, 0) == u.cacheWrite
    ensures u.write5m.Some? ==> u.write5m.value == Or(raw.write5m, 0)
    ensures u.write1h.Some? ==> u.write1h.value == Or(raw.write1h, 0)
  {
    var cacheRead := Or(raw.cacheRead, 0);
    var splitSum := SplitSum(raw);
    var cacheWrite := if raw.flatWrite.Some? then raw.flatWrite.value else Or(splitSum, 0);
    var splitAgrees := splitSum == Some(cacheWrite);
    Usage(
      Or(raw.input, 0) + cacheRead + cacheWrite,
      Or(raw.output, 0),
      cacheRead,
      cacheWrite,
      None,
      if splitAgrees then Some(Or(raw.write5m, 0)) else None,
      if splitAgrees then Some(Or(raw.write1h, 0)) else None)
  }

  function OneHour(u: Usage): nat {
    Or(u.write1h, 0)
  }

  function FiveMinutes(u: Usage): nat {
    if u.write5m.Some? then u.write5m.value
    else if u.cacheWrite >= OneHour(u) then u.cacheWrite - OneHour(u)
    else 0
  }

  predicate HasSplit(u: Usage) {
    u.write5m.Some? || u.write1h.Some?
  }

  /** Aggregate addition: an undifferentiated side's writes count as the five-minute share. */
  function Sum(total: Usage, turn: Usage): Usage {
    var reasoning := Or(total.reasoning, 0) + Or(turn.reasoning, 0);
    var split := HasSplit(total) || HasSplit(turn);
    Usage(
      total.input + turn.input,
      total.output + turn.output,
      total.cacheRead + turn.cacheRead,
      total.cacheWrite + turn.cacheWrite,
      if reasoning > 0 then Some(reasoning) else None,
      if split then Some(FiveMinutes(total) + FiveMinutes(turn)) else None,
      if split then Some(OneHour(total) + OneHour(turn)) else None)
  }

  /** The running total of a non-empty list, first to last. */
  function SumAll(us: seq<Usage>): Usage
    requires us != []
  {
    if |us| == 1 then us[0] else Sum(SumAll(Front(us)), Last(us))
  }

  function Total(us: seq<Usage>, count: Usage -> nat): nat {
    if us == [] then 0 else Total(Front(us), count) + count(Last(us))
  }

  /**
   The running total is the componentwise sum: every count, and the one-hour
   attribution the money is debited under, is exactly conserved; canonical
   inputs give a canonical total, which has a split if any input has one.
   */
  lemma {:induction false} SumAllConserves(us: seq<Usage>)
    requires us != []
    requires forall i :: 0 <= i < |us| ==> Canonical(us[i])
    ensures var t := SumAll(us);
            && Canonical(t)
            && t.input == Total(us, (u: Usage) => u.input)
            && t.output == Total(us, (u: Usage) => u.output)
            && t.cacheRead == Total(us, (u: Usage) => u.cacheRead)
            && t.cacheWrite == Total(us, (u: Usage) => u.cacheWrite)
            && OneHour(t) == Total(us, OneHour)
            && FiveMinutes(t) == Total(us, FiveMinutes)
            && Or(t.reasoning, 0) == Total(us, (u: Usage) => Or(u.reasoning, 0))
            && (HasSplit(t) <==> exists i :: 0 <= i < |us| && HasSplit(us[i]))
  {
    if |us| == 1 {
      assert Front(us) == [];
    } else {
      SumAllConserves(Front(us));
      SplitOneMore(us);
    }
  }

  lemma SplitOneMore(us: seq<Usage>)
    requires us != []
    ensures (exists i :: 0 <= i < |us| && HasSplit(us[i]))
            <==> HasSplit(Last(us)) || exists i :: 0 <= i < |Front(us)| && HasSplit(Front(us)[i])
  {
    assert Last(us) == us[|us| - 1];
    if i :| 0 <= i < |us| && HasSplit(us[i]) && !HasSplit(Last(us)) {
      assert Front(us)[i] == us[i];
    }
    if i :| 0 <= i < |Front(us)| && HasSplit(Front(us)[i]) {
      assert us[i] == Front(us)[i];
    }
  }

  /** `a` is covered by `b` in each of the four required counts. */
  predicate Within(a: Usage, b: Usage) {
    a.input <= b.input && a.output <= b.output && a.cacheRead <= b.cacheRead && a.cacheWrite <= b.cacheWrite
  }
}

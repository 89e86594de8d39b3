/**
 The incremental billing lane of the journal audit: the provider-call rows
 journaled while an agent runs, against the provider calls recorded on its
 terminal entry.
 */
module JournalAudit {
  import opened Prelude

  /** The four counts the audit compares. */
  datatype Tokens = Tokens(input: nat, output: nat, cacheRead: nat, cacheWrite: nat)
  datatype Record = Record(ordinal: int, usage: Tokens)

  /** A well-formed provider-call row, an agent entry, or anything else. */
  datatype Entry =
    | ProviderCall(agentRef: int, record: Record)
    | Agent(running: bool, ref: Option<int>, providerCalls: seq<Record>)
    | Unrelated

  type Rows = map<int, Tokens>
  type KeyedRows = map<int, string>

  // ---------------------------------------------------------------- usage keys

  function UsageKey(u: Tokens): string {
    Decimal(u.input) + ":" + Decimal(u.output) + ":" + Decimal(u.cacheRead) + ":" + Decimal(u.cacheWrite)
  }

  /** The joined key determines all four counts. */
  lemma UsageKeyInjective(u: Tokens, v: Tokens)
    requires UsageKey(u) == UsageKey(v)
    ensures u == v
  {
    var a, b := Decimal(u.input) + ":" + Decimal(u.output), Decimal(v.input) + ":" + Decimal(v.output);
    var a', b' := a + ":" + Decimal(u.cacheRead), b + ":" + Decimal(v.cacheRead);
    SplitUnique(a', Decimal(u.cacheWrite), b', Decimal(v.cacheWrite), ':');
    SplitUnique(a, Decimal(u.cacheRead), b, Decimal(v.cacheRead), ':');
    SplitUnique(Decimal(u.input), Decimal(u.output), Decimal(v.input), Decimal(v.output), ':');
    DecimalInjective(u.input, v.input);
    DecimalInjective(u.output, v.output);
    DecimalInjective(u.cacheRead, v.cacheRead);
    DecimalInjective(u.cacheWrite, v.cacheWrite);
  }

  // ---------------------------------------------------------------- the two sides

  /** The rows of one agent, a later row of an ordinal replacing an earlier one. */
  function RowsOf(entries: seq<Entry>, ref: int): Rows {
    if entries == [] then map[]
    else
      var rows := RowsOf(Front(entries), ref);
      match Last(entries)
      case ProviderCall(agentRef, record) => if agentRef == ref then rows[record.ordinal := record.usage] else rows
      case _ => rows
  }

  /** The terminal's ordinal-to-usage map. */
  function TerminalRows(records: seq<Record>): Rows {
    if records == [] then map[]
    else TerminalRows(Front(records))[Last(records).ordinal := Last(records).usage]
  }

  ghost predicate DistinctOrdinals(records: seq<Record>) {
    forall i, j :: 0 <= i < j < |records| ==> records[i].ordinal != records[j].ordinal
  }

  predicate Agrees(rows: Rows, record: Record) {
    record.ordinal in rows && rows[record.ordinal] == record.usage
  }

  /** What the audit compares: the counts, and every terminal record with its row. */
  predicate Matches(records: seq<Record>, rows: Rows) {
    && |records| == |rows|
    && (forall i :: 0 <= i < |records| ==> Agrees(rows, records[i]))
  }

  lemma {:induction false} TerminalKeys(records: seq<Record>, o: int)
    ensures o in TerminalRows(records) <==> exists i :: 0 <= i < |records| && records[i].ordinal == o
  {
    if records != [] {
      TerminalKeys(Front(records), o);
      assert records == Front(records) + [Last(records)];
      if o == Last(records).ordinal {
        assert records[|records| - 1].ordinal == o;
      } else if o in TerminalRows(records) {
        var i :| 0 <= i < |records| - 1 && Front(records)[i].ordinal == o;
        assert records[i].ordinal == o;
      }
    }
  }

  lemma MapSize(rows: Rows, o: int, u: Tokens)
    ensures |rows[o := u]| == if o in rows then |rows| else |rows| + 1
  {
  }

  /** The terminal map has as many entries as there are records exactly when no ordinal repeats. */
  lemma {:induction false} TerminalSize(records: seq<Record>)
    ensures |TerminalRows(records)| <= |records|
    ensures |TerminalRows(records)| == |records| <==> DistinctOrdinals(records)
  {
    if records != [] {
      var front, last := Front(records), Last(records);
      TerminalSize(front);
      TerminalKeys(front, last.ordinal);
      MapSize(TerminalRows(front), last.ordinal, last.usage);
      assert forall i :: 0 <= i < |front| ==> front[i] == records[i];
      assert DistinctOrdinals(records)
        <==> DistinctOrdinals(front) && forall i :: 0 <= i < |front| ==> front[i].ordinal != last.ordinal;
    }
  }

  /** Records that agree with the rows give a map that does. */
  lemma {:induction false} TerminalWithin(records: seq<Record>, rows: Rows)
    requires forall i :: 0 <= i < |records| ==> Agrees(rows, records[i])
    ensures forall o :: o in TerminalRows(records) ==> o in rows && rows[o] == TerminalRows(records)[o]
  {
    if records != [] {
      TerminalWithin(Front(records), rows);
    }
  }

  lemma {:induction false} TerminalHolds(records: seq<Record>, i: nat)
    requires DistinctOrdinals(records) && i < |records|
    ensures Agrees(TerminalRows(records), records[i])
  {
    if i < |records| - 1 {
      TerminalHolds(Front(records), i);
    }
  }

  lemma SameMap(a: Rows, b: Rows)
    requires (forall o :: o in a ==> o in b && b[o] == a[o]) && |a| == |b|
    ensures a == b
  {
    forall o | o in a.Keys ensures o in b.Keys {
      assert o in a;
    }
    SameSet(a.Keys, b.Keys);
    forall o | o in b ensures o in a && a[o] == b[o] {
      assert o in b.Keys;
    }
  }

  lemma SameSet(a: set<int>, b: set<int>)
    requires a <= b && |a| == |b|
    ensures a == b
  {
    assert b == a + (b - a);
  }

  /**
   For a terminal with distinct ordinals the comparison is map equality; for
   one that repeats an ordinal, it and map equality exclude each other.
   */
  lemma MatchesExactly(records: seq<Record>, rows: Rows)
    ensures DistinctOrdinals(records) ==> (Matches(records, rows) <==> TerminalRows(records) == rows)
    ensures !DistinctOrdinals(records) ==> !(Matches(records, rows) && TerminalRows(records) == rows)
  {
    TerminalSize(records);
    if DistinctOrdinals(records) {
      if Matches(records, rows) {
        TerminalWithin(records, rows);
        SameMap(TerminalRows(records), rows);
      } else if TerminalRows(records) == rows {
        forall i | 0 <= i < |records| ensures Agrees(rows, records[i]) {
          TerminalHolds(records, i);
        }
      }
    }
  }

  /** A repeated ordinal can stand in for a row that has no record at all. */
  lemma RepeatedOrdinalPasses(u: Tokens, v: Tokens)
    ensures var records, rows := [Record(0, u), Record(0, u)], map[0 := u, 1 := v];
            Matches(records, rows) && TerminalRows(records) != rows
  {
    var records, rows := [Record(0, u), Record(0, u)], map[0 := u, 1 := v];
    assert rows.Keys == {0, 1};
    MatchesExactly(records, rows);
    assert records[0].ordinal == records[1].ordinal;
  }

  // ---------------------------------------------------------------- the audit

  ghost predicate Injective(key: Tokens -> string) {
    forall u, v :: key(u) == key(v) ==> u == v
  }

  /** The rows with their usage turned into keys. */
  ghost predicate Keyed(key: Tokens -> string, rows: Rows, keyed: KeyedRows) {
    keyed.Keys == rows.Keys && forall o {:trigger keyed[o]} :: o in keyed.Keys ==> keyed[o] == key(rows[o])
  }

  lemma KeyedPut(key: Tokens -> string, rows: Rows, keyed: KeyedRows, record: Record)
    requires Keyed(key, rows, keyed)
    ensures Keyed(key, rows[record.ordinal := record.usage], keyed[record.ordinal := key(record.usage)])
  {
  }

  /** An agent has an entry exactly when it has rows, and it holds their keys. */
  ghost predicate Built(key: Tokens -> string, entries: seq<Entry>, byAgent: map<int, KeyedRows>) {
    forall ref {:trigger RowsOf(entries, ref)} ::
      if RowsOf(entries, ref) == map[] then ref !in byAgent
      else ref in byAgent && Keyed(key, RowsOf(entries, ref), byAgent[ref])
  }

  lemma BuiltMore(key: Tokens -> string, entries: seq<Entry>, byAgent: map<int, KeyedRows>, e: Entry)
    requires Built(key, entries, byAgent)
    ensures var more := entries + [e];
            if e.ProviderCall? then
              var rows := if e.agentRef in byAgent then byAgent[e.agentRef] else map[];
              Built(key, more, byAgent[e.agentRef := rows[e.record.ordinal := key(e.record.usage)]])
            else Built(key, more, byAgent)
  {
    var more := entries + [e];
    assert Front(more) == entries;
    forall ref ensures RowsOf(more, ref) == if e.ProviderCall? && e.agentRef == ref
                                            then RowsOf(entries, ref)[e.record.ordinal := e.record.usage]
                                            else RowsOf(entries, ref)
    {
    }
    if e.ProviderCall? {
      var rows := RowsOf(entries, e.agentRef);
      assert e.record.ordinal in RowsOf(more, e.agentRef);
      KeyedPut(key, rows, if e.agentRef in byAgent then byAgent[e.agentRef] else map[], e.record);
    }
  }

  method IncrementalByAgent(key: Tokens -> string, entries: seq<Entry>) returns (byAgent: map<int, KeyedRows>)
    ensures Built(key, entries, byAgent)
  {
    byAgent := map[];
    for i := 0 to |entries|
      invariant Built(key, entries[..i], byAgent)
    {
      var entry := entries[i];
      BuiltMore(key, entries[..i], byAgent, entry);
      assert entries[..i] + [entry] == entries[..i + 1];
      if entry.ProviderCall? {
        var byOrdinal := if entry.agentRef in byAgent then byAgent[entry.agentRef] else map[];
        byAgent := byAgent[entry.agentRef := byOrdinal[entry.record.ordinal := key(entry.record.usage)]];
      }
    }
    assert entries[..|entries|] == entries;
  }

  method RecordMatches(key: Tokens -> string, record: Record, incremental: KeyedRows, ghost rows: Rows)
    returns (matches: bool)
    requires Injective(key) && Keyed(key, rows, incremental)
    ensures matches == Agrees(rows, record)
  {
    matches := record.ordinal in incremental && incremental[record.ordinal] == key(record.usage);
  }

  /** The comparison as it is done, on keys. */
  method KeysMatch(key: Tokens -> string, records: seq<Record>, incremental: KeyedRows, ghost rows: Rows)
    returns (matches: bool)
    requires Injective(key) && Keyed(key, rows, incremental)
    ensures matches == Matches(records, rows)
  {
    assert |incremental| == |incremental.Keys| == |rows.Keys| == |rows|;
    if |records| != |incremental| {
      return false;
    }
    for i := 0 to |records|
      invariant forall k {:trigger records[k]} :: 0 <= k < i ==> Agrees(rows, records[k])
    {
      var same := RecordMatches(key, records[i], incremental, rows);
      if !same {
        return false;
      }
    }
    return true;
  }

  /** A settled agent that journaled rows its terminal does not match. */
  predicate Diverges(entries: seq<Entry>, e: Entry) {
    && e.Agent? && !e.running && e.ref.Some?
    && RowsOf(entries, e.ref.value) != map[]
    && !Matches(e.providerCalls, RowsOf(entries, e.ref.value))
  }

  /** The refs of the diverging entries among the first `n`. */
  function Divergent(entries: seq<Entry>, n: nat): seq<int>
    requires n <= |entries|
  {
    if n == 0 then []
    else Divergent(entries, n - 1) + if Diverges(entries, entries[n - 1]) then [entries[n - 1].ref.value] else []
  }

  method IncrementalMismatches(entries: seq<Entry>) returns (mismatches: seq<int>)
    ensures mismatches == Divergent(entries, |entries|)
  {
    forall u, v | UsageKey(u) == UsageKey(v) ensures u == v {
      UsageKeyInjective(u, v);
    }
    var byAgent := IncrementalByAgent(UsageKey, entries);
    mismatches := [];
    for i := 0 to |entries|
      invariant mismatches == Divergent(entries, i)
    {
      var terminal := entries[i];
      if terminal.Agent? && !terminal.running && terminal.ref.Some? {
        ghost var rows := RowsOf(entries, terminal.ref.value);
        if terminal.ref.value in byAgent && byAgent[terminal.ref.value] != map[] {
          var matches := KeysMatch(UsageKey, terminal.providerCalls, byAgent[terminal.ref.value], rows);
          if !matches {
            mismatches := mismatches + [terminal.ref.value];
          }
        }
      }
    }
  }

  /** A settled agent whose terminal map is the map of its rows, if it has any. */
  ghost predicate Reconciled(entries: seq<Entry>, e: Entry) {
    e.Agent? && !e.running && e.ref.Some? && RowsOf(entries, e.ref.value) != map[] ==>
      TerminalRows(e.providerCalls) == RowsOf(entries, e.ref.value)
  }

  lemma {:induction false} NoneDivergent(entries: seq<Entry>, n: nat)
    requires n <= |entries|
    ensures Divergent(entries, n) == [] <==> forall i :: 0 <= i < n ==> !Diverges(entries, entries[i])
  {
    if n > 0 {
      NoneDivergent(entries, n - 1);
    }
  }

  /**
   When no settled agent's terminal repeats an ordinal, the check passes
   exactly when every settled agent with rows has the terminal map they fold
   to.
   */
  lemma CheckIsReconciliation(entries: seq<Entry>)
    requires forall i :: 0 <= i < |entries| && entries[i].Agent? ==> DistinctOrdinals(entries[i].providerCalls)
    ensures Divergent(entries, |entries|) == [] <==> forall i :: 0 <= i < |entries| ==> Reconciled(entries, entries[i])
  {
    NoneDivergent(entries, |entries|);
    forall i | 0 <= i < |entries| ensures Diverges(entries, entries[i]) <==> !Reconciled(entries, entries[i]) {
      var e := entries[i];
      if e.Agent? && e.ref.Some? {
        MatchesExactly(e.providerCalls, RowsOf(entries, e.ref.value));
      }
    }
  }

  // ---------------------------------------------------------------- the rows and the refs, by entry

  /** Entry `i` is a row of the agent's ordinal. */
  predicate RowAt(entries: seq<Entry>, i: nat, ref: int, o: int)
    requires i < |entries|
  {
    entries[i].ProviderCall? && entries[i].agentRef == ref && entries[i].record.ordinal == o
  }

  /** An agent's rows hold, per ordinal, the usage of the last row journaled for it, and no ordinal without a row. */
  lemma {:induction false} RowsAreLast(entries: seq<Entry>, ref: int, o: int)
    ensures o in RowsOf(entries, ref) <==> exists i :: 0 <= i < |entries| && RowAt(entries, i, ref, o)
    ensures forall i ::
              (&& 0 <= i < |entries| && RowAt(entries, i, ref, o)
               && (forall j :: i < j < |entries| ==> !RowAt(entries, j, ref, o))) ==>
                o in RowsOf(entries, ref) && RowsOf(entries, ref)[o] == entries[i].record.usage
  {
    if entries != [] {
      var front, n := Front(entries), |entries| - 1;
      RowsAreLast(front, ref, o);
      assert forall i :: 0 <= i < n ==> (RowAt(front, i, ref, o) <==> RowAt(entries, i, ref, o));
      if exists i :: 0 <= i < n && RowAt(front, i, ref, o) {
        var i :| 0 <= i < n && RowAt(front, i, ref, o);
        assert RowAt(entries, i, ref, o);
      }
      assert RowAt(entries, n, ref, o) ==> o in RowsOf(entries, ref);
    }
  }

  /** The records' map holds, per ordinal, the usage of the last record with it. */
  lemma {:induction false} TerminalRowsAreLast(records: seq<Record>, i: nat)
    requires i < |records| && forall j :: i < j < |records| ==> records[j].ordinal != records[i].ordinal
    ensures Agrees(TerminalRows(records), records[i])
  {
    if i < |records| - 1 {
      assert Front(records)[i] == records[i];
      assert forall j :: i < j < |records| - 1 ==> Front(records)[j] == records[j];
      TerminalRowsAreLast(Front(records), i);
      assert Last(records) == records[|records| - 1];
    }
  }

  /** Every one of the positions, and no other before `n`, holds a diverging entry; they ascend. */
  ghost predicate Diverging(entries: seq<Entry>, n: nat, at: seq<nat>)
    requires n <= |entries|
  {
    && (forall k :: 0 <= k < |at| ==> at[k] < n && Diverges(entries, entries[at[k]]))
    && (forall k, m :: 0 <= k < m < |at| ==> at[k] < at[m])
    && (forall i :: 0 <= i < n && Diverges(entries, entries[i]) ==> i in at)
  }

  /** The reported refs are those of the diverging entries, each once, in entry order. */
  lemma {:induction false} DivergentInOrder(entries: seq<Entry>, n: nat) returns (at: seq<nat>)
    requires n <= |entries|
    ensures Diverging(entries, n, at)
    ensures |Divergent(entries, n)| == |at|
    ensures forall k :: 0 <= k < |at| ==> Divergent(entries, n)[k] == entries[at[k]].ref.value
  {
    at := [];
    if n > 0 {
      var before := DivergentInOrder(entries, n - 1);
      at := before;
      if Diverges(entries, entries[n - 1]) {
        at := before + [n - 1];
        assert at[|before|] == n - 1;
        forall i | 0 <= i < n && Diverges(entries, entries[i]) ensures i in at {
          if i < n - 1 { assert i in before; }
        }
      }
    }
  }
}

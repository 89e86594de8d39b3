/**
 The paginated model-capabilities sweep of the Anthropic adapter, against a
 server that may answer anything, differently each time.
 */
module CapsSweep {
  import opened Prelude

  /** A listed model; fields of the wrong type on the wire are absent here. */
  datatype Model = Model(id: Option<string>, maxInputTokens: Option<real>, maxTokens: Option<real>)
  datatype Page = Page(data: seq<Model>, hasMore: bool, lastId: Option<string>)

  /** The answer to the n-th fetch with a cursor; None when the call throws. */
  type Server = (nat, Option<string>) -> Option<Page>

  datatype Patch = Patch(contextWindow: Option<real>, maxOutputTokens: Option<real>)
  type Table = map<string, Patch>

  datatype Outcome = Done | Threw | Echo(cursor: string) | Revisit(cursor: string) | OverCap

  function Next(page: Page): Option<string> {
    if page.hasMore then page.lastId else None
  }

  function PatchOf(model: Model): Patch {
    Patch(model.maxInputTokens, model.maxTokens)
  }

  /** The model carries an id and something to patch. */
  predicate Patches(model: Model, id: string) {
    model.id == Some(id) && PatchOf(model) != Patch(None, None)
  }

  // ---------------------------------------------------------------- the table

  /** The last patch listed for a model, if any. */
  function LastPatch(models: seq<Model>, id: string): Option<Patch> {
    if models == [] then None
    else if Patches(Last(models), id) then Some(PatchOf(Last(models)))
    else LastPatch(Front(models), id)
  }

  function Get(table: Table, id: string): Option<Patch> {
    if id in table then Some(table[id]) else None
  }

  /** `table` is `before` with the last patch of every listed model. */
  ghost predicate Refreshed(before: Table, models: seq<Model>, table: Table) {
    forall id {:trigger Get(table, id)} ::
      Get(table, id) == if LastPatch(models, id).Some? then LastPatch(models, id) else Get(before, id)
  }

  /** The models of the first `n` answers, in the order they arrived. */
  function Listed(server: Server, queries: seq<Option<string>>): seq<Model> {
    if queries == [] then []
    else
      var page := server(|queries| - 1, Last(queries));
      Listed(server, Front(queries)) + if page.Some? then page.value.data else []
  }

  method ApplyPage(before: Table, ghost base: Table, ghost earlier: seq<Model>, data: seq<Model>) returns (table: Table)
    requires Refreshed(base, earlier, before)
    ensures Refreshed(base, earlier + data, table)
  {
    table := before;
    assert earlier + data[..0] == earlier;
    for i := 0 to |data|
      invariant Refreshed(base, earlier + data[..i], table)
    {
      var model := data[i];
      ghost var so := earlier + data[..i + 1];
      assert Front(so) == earlier + data[..i] && Last(so) == model;
      ghost var was := table;
      if model.id.Some? && PatchOf(model) != Patch(None, None) {
        table := table[model.id.value := PatchOf(model)];
      }
      forall id ensures Get(table, id) == if LastPatch(so, id).Some? then LastPatch(so, id) else Get(base, id) {
        assert Get(was, id) == if LastPatch(Front(so), id).Some? then LastPatch(Front(so), id) else Get(base, id);
      }
    }
    assert data[..|data|] == data;
  }

  // ---------------------------------------------------------------- the sweep

  /** Every query after the first carries the cursor the previous page gave. */
  ghost predicate Follows(server: Server, queries: seq<Option<string>>) {
    && (queries != [] ==> queries[0] == None)
    && (forall i :: 0 < i < |queries| ==> Linked(server, queries, i))
  }

  ghost predicate Linked(server: Server, queries: seq<Option<string>>, i: nat)
    requires 0 < i < |queries|
  {
    var answer := server(i - 1, queries[i - 1]);
    answer.Some? && queries[i].Some? && Next(answer.value) == queries[i]
  }

  ghost predicate Distinct(queries: seq<Option<string>>) {
    forall i, j :: 0 <= i < j < |queries| ==> queries[i] != queries[j]
  }

  /** `afterId` is the cursor to send next: the one the last page gave, not sent before. */
  ghost predicate Awaits(server: Server, queries: seq<Option<string>>, afterId: Option<string>) {
    && afterId !in queries
    && if queries == [] then afterId.None?
       else
         var answer := server(|queries| - 1, Last(queries));
         answer.Some? && afterId.Some? && Next(answer.value) == afterId
  }

  ghost predicate Holds(visited: set<string>, queries: seq<Option<string>>) {
    forall c :: c in visited <==> Some(c) in queries
  }

  lemma Asked(server: Server, queries: seq<Option<string>>, afterId: Option<string>, visited: set<string>)
    requires Follows(server, queries) && Distinct(queries)
    requires Awaits(server, queries, afterId) && Holds(visited, queries)
    ensures Front(queries + [afterId]) == queries && Last(queries + [afterId]) == afterId
    ensures Follows(server, queries + [afterId]) && Distinct(queries + [afterId])
    ensures afterId.Some? ==> afterId.value !in visited
    ensures Holds(if afterId.Some? then visited + {afterId.value} else visited, queries + [afterId])
  {
    var asked := queries + [afterId];
    forall i | 0 < i < |asked| ensures Linked(server, asked, i) {
      assert i < |queries| ==> Linked(server, queries, i);
    }
  }

  /** How the sweep must end, given the answer to its last query. */
  ghost predicate Ends(server: Server, queries: seq<Option<string>>, cap: Option<nat>, outcome: Outcome)
    requires queries != []
  {
    var answer := server(|queries| - 1, Last(queries));
    match outcome
    case Threw => answer.None?
    case Done => answer.Some? && Next(answer.value).None?
    case Echo(c) => answer.Some? && Next(answer.value) == Some(c) && Last(queries) == Some(c)
    case Revisit(c) => answer.Some? && Next(answer.value) == Some(c) && Some(c) in Front(queries)
    case OverCap => answer.Some? && Next(answer.value).Some? && Next(answer.value) !in queries && cap == Some(|queries|)
  }

  /** What the guards make of the cursor a page gives, in their order; None goes on. */
  function Judge(next: Option<string>, afterId: Option<string>, visited: set<string>, pages: nat, cap: Option<nat>)
    : Option<Outcome>
  {
    if next.Some? && next == afterId then Some(Echo(next.value))
    else if next.Some? && next.value in visited then Some(Revisit(next.value))
    else if cap.Some? && pages >= cap.value && next.Some? then Some(OverCap)
    else if next.None? then Some(Done)
    else None
  }

  /** The guards, read against what was asked. */
  lemma Judged(
      server: Server, queries: seq<Option<string>>, visited: set<string>, next: Option<string>, cap: Option<nat>)
    requires queries != [] && Holds(visited, queries) && (cap.Some? ==> |queries| <= cap.value)
    requires server(|queries| - 1, Last(queries)).Some? && Next(server(|queries| - 1, Last(queries)).value) == next
    ensures match Judge(next, Last(queries), visited, |queries|, cap)
            case Some(outcome) => Ends(server, queries, cap, outcome)
            case None => next.Some? && next !in queries && (cap.Some? ==> |queries| < cap.value)
  {
    assert queries == Front(queries) + [Last(queries)];
  }

  lemma InSize(visited: set<string>, cursors: set<string>, c: string)
    requires visited <= cursors && c in cursors && c !in visited
    ensures |visited| < |cursors|
  {
    assert visited + {c} + (cursors - visited - {c}) == cursors;
  }

  lemma ListedGrows(server: Server, queries: seq<Option<string>>, afterId: Option<string>)
    ensures var answer := server(|queries|, afterId);
            Listed(server, queries + [afterId])
            == if answer.Some? then Listed(server, queries) + answer.value.data else Listed(server, queries)
  {
    assert Front(queries + [afterId]) == queries;
  }

  /** All cursors the server can give lie in `cursors`. */
  ghost predicate Within(server: Server, cursors: set<string>) {
    forall n: nat, c :: server(n, c).Some? && Next(server(n, c).value).Some? ==>
      Next(server(n, c).value).value in cursors
  }

  /** The sweep's own bookkeeping, between two fetches. */
  ghost predicate Underway(
      server: Server, queries: seq<Option<string>>, visited: set<string>, afterId: Option<string>)
  {
    && Follows(server, queries) && Distinct(queries)
    && Awaits(server, queries, afterId) && Holds(visited, queries)
    && |visited| == if queries == [] then 0 else |queries| - 1
  }

  lemma Fetched(server: Server, queries: seq<Option<string>>, visited: set<string>, afterId: Option<string>)
    requires Underway(server, queries, visited, afterId)
    ensures var asked, seen := queries + [afterId], if afterId.Some? then visited + {afterId.value} else visited;
            && Follows(server, asked) && Distinct(asked) && Holds(seen, asked) && |seen| == |queries|
            && (server(|queries|, afterId).Some? ==>
                  var next := Next(server(|queries|, afterId).value);
                  next.Some? && next !in asked ==> Underway(server, asked, seen, next))
  {
    Asked(server, queries, afterId, visited);
  }

  /** Finitely many cursors bound the number of fetches. */
  lemma FetchBound(
      server: Server, cursors: set<string>, queries: seq<Option<string>>, visited: set<string>,
      afterId: Option<string>)
    requires Within(server, cursors) && Underway(server, queries, visited, afterId)
    ensures |queries| <= |cursors|
  {
    if queries != [] {
      forall c | c in visited ensures c in cursors {
        var i :| 0 <= i < |queries| && queries[i] == Some(c);
        assert Linked(server, queries, i);
      }
      InSize(visited, cursors, afterId.value);
    }
  }

  /** What the guards decide after one fetch. */
  lemma JudgedStep(
      server: Server, queries: seq<Option<string>>, visited: set<string>, afterId: Option<string>, cap: Option<nat>)
    requires Underway(server, queries, visited, afterId) && (cap.Some? ==> |queries| < cap.value)
    ensures var answer, asked := server(|queries|, afterId), queries + [afterId];
            var seen := if afterId.Some? then visited + {afterId.value} else visited;
            if answer.None? then Ends(server, asked, cap, Threw)
            else
              match Judge(Next(answer.value), afterId, seen, |queries| + 1, cap)
              case Some(outcome) => Ends(server, asked, cap, outcome)
              case None =>
                Underway(server, asked, seen, Next(answer.value)) && (cap.Some? ==> |queries| + 1 < cap.value)
  {
    var answer, asked := server(|queries|, afterId), queries + [afterId];
    Fetched(server, queries, visited, afterId);
    assert Last(asked) == afterId;
    if answer.Some? {
      Judged(server, asked, if afterId.Some? then visited + {afterId.value} else visited, Next(answer.value), cap);
    }
  }

  /** One fetch: the page is applied, then the guards judge the cursor it gives. */
  method Fetch(server: Server, cap: Option<nat>, queries: seq<Option<string>>, visited: set<string>,
               afterId: Option<string>, table: Table, ghost before: Table)
    returns (verdict: Option<Outcome>, visited': set<string>, next: Option<string>, table': Table)
    requires Underway(server, queries, visited, afterId) && (cap.Some? ==> |queries| < cap.value)
    requires Refreshed(before, Listed(server, queries), table)
    ensures verdict.Some? ==> Ends(server, queries + [afterId], cap, verdict.value)
    ensures verdict.None? ==>
              Underway(server, queries + [afterId], visited', next) && (cap.Some? ==> |queries| + 1 < cap.value)
    ensures Refreshed(before, Listed(server, queries + [afterId]), table')
  {
    var answer := server(|queries|, afterId);
    ListedGrows(server, queries, afterId);
    JudgedStep(server, queries, visited, afterId, cap);
    visited', next, table' := visited, None, table;
    if answer.None? {
      verdict := Some(Threw);
    } else {
      table' := ApplyPage(table, before, Listed(server, queries), answer.value.data);
      if afterId.Some? {
        visited' := visited + {afterId.value};
      }
      next := Next(answer.value);
      verdict := Judge(next, afterId, visited', |queries| + 1, cap);
    }
  }

  /**
   One sweep. The table it is given is patched in place, also when it fails.
   `cursors` is any finite set holding all cursors the server can give, if
   there is one; `queries` are the cursors sent, in order.
   */
  method RefreshCaps(server: Server, cap: Option<nat>, before: Table, ghost cursors: Option<set<string>>)
    returns (table: Table, outcome: Outcome, queries: seq<Option<string>>)
    requires cap.Some? ==> cap.value >= 1
    requires cap.Some? || cursors.Some?
    requires cursors.Some? ==> Within(server, cursors.value)
    ensures queries != [] && Follows(server, queries) && Distinct(queries)
    ensures cap.Some? ==> |queries| <= cap.value
    ensures cursors.Some? ==> |queries| <= |cursors.value| + 1
    ensures Ends(server, queries, cap, outcome)
    ensures Refreshed(before, Listed(server, queries), table)
  {
    var afterId: Option<string> := None;
    var visited: set<string> := {};
    queries, table := [], before;
    while true
      invariant Underway(server, queries, visited, afterId)
      invariant cap.Some? ==> |queries| < cap.value
      invariant Refreshed(before, Listed(server, queries), table)
      decreases if cap.Some? then cap.value - |queries| else |cursors.value| + 1 - |queries|
    {
      if cursors.Some? {
        FetchBound(server, cursors.value, queries, visited, afterId);
      }
      Fetched(server, queries, visited, afterId);
      var asked := queries + [afterId];
      var verdict;
      verdict, visited, afterId, table := Fetch(server, cap, queries, visited, afterId, table, before);
      queries := asked;
      if verdict.Some? {
        return table, verdict.value, queries;
      }
    }
  }

  lemma OutcomeIsForced(server: Server, queries: seq<Option<string>>, cap: Option<nat>, a: Outcome, b: Outcome)
    requires queries != [] && Distinct(queries) && Ends(server, queries, cap, a) && Ends(server, queries, cap, b)
    ensures a == b
  {
  }

  // ---------------------------------------------------------------- the sweep, by pages

  /** The page leads on to the cursor: it says there is more, and where. */
  predicate LeadsTo(page: Page, cursor: string) {
    page.hasMore && page.lastId == Some(cursor)
  }

  predicate IsLastPage(page: Page) {
    !page.hasMore || page.lastId.None?
  }

  /** Query `i` asks for the page that the answer before it led to. */
  ghost predicate LedTo(server: Server, queries: seq<Option<string>>, i: nat)
    requires 0 < i < |queries|
  {
    var answer := server(i - 1, queries[i - 1]);
    queries[i].Some? && answer.Some? && LeadsTo(answer.value, queries[i].value)
  }

  /**
   How a sweep ends, by the last answer it got: it threw; it was the last page;
   or it led on to the cursor just sent, to one sent before, or to a new one
   when the cap was used up. Every cursor sent is where the page before led.
   */
  lemma SweepEndsByPages(server: Server, queries: seq<Option<string>>, cap: Option<nat>, outcome: Outcome)
    requires queries != [] && Follows(server, queries) && Ends(server, queries, cap, outcome)
    ensures queries[0] == None
    ensures forall i :: 0 < i < |queries| ==> LedTo(server, queries, i)
    ensures var answer := server(|queries| - 1, Last(queries));
            match outcome
            case Threw => answer.None?
            case Done => answer.Some? && IsLastPage(answer.value)
            case Echo(c) => answer.Some? && LeadsTo(answer.value, c) && Last(queries) == Some(c)
            case Revisit(c) =>
              answer.Some? && LeadsTo(answer.value, c) && exists i :: 0 <= i < |queries| - 1 && queries[i] == Some(c)
            case OverCap =>
              && answer.Some? && !IsLastPage(answer.value) && cap == Some(|queries|)
              && forall i :: 0 <= i < |queries| ==> queries[i] != answer.value.lastId
  {
    forall i | 0 < i < |queries| ensures LedTo(server, queries, i) {
      assert Linked(server, queries, i);
    }
    if outcome.Revisit? {
      var i :| 0 <= i < |Front(queries)| && Front(queries)[i] == Some(outcome.cursor);
      assert queries[i] == Some(outcome.cursor);
    }
  }

  /** The listed model states a limit under the id. */
  predicate States(model: Model, id: string) {
    model.id == Some(id) && (model.maxInputTokens.Some? || model.maxTokens.Some?)
  }

  /** Entry `i` is the last that states a limit under the id. */
  ghost predicate StatesLast(models: seq<Model>, i: nat, id: string) {
    i < |models| && States(models[i], id) && forall j :: i < j < |models| ==> !States(models[j], id)
  }

  lemma {:induction false} LastPatchStates(models: seq<Model>, id: string)
    ensures forall i: nat :: StatesLast(models, i, id) ==>
              LastPatch(models, id) == Some(Patch(models[i].maxInputTokens, models[i].maxTokens))
    ensures LastPatch(models, id).None? <==> forall i :: 0 <= i < |models| ==> !States(models[i], id)
  {
    if models != [] {
      LastPatchStates(Front(models), id);
      forall i: nat | StatesLast(models, i, id)
        ensures LastPatch(models, id) == Some(Patch(models[i].maxInputTokens, models[i].maxTokens))
      {
        if i < |models| - 1 {
          assert StatesLast(Front(models), i, id);
        }
      }
    }
  }

  /**
   The refreshed table, model by model: the context window and the output limit
   of the last entry that states any, as the pages listed them; and the old row
   of a model for which none does.
   */
  lemma TableShowsLimits(before: Table, models: seq<Model>, table: Table, id: string)
    requires Refreshed(before, models, table)
    ensures forall i: nat :: StatesLast(models, i, id) ==>
              && id in table
              && table[id].contextWindow == models[i].maxInputTokens
              && table[id].maxOutputTokens == models[i].maxTokens
    ensures (forall i :: 0 <= i < |models| ==> !States(models[i], id)) ==> Get(table, id) == Get(before, id)
  {
    LastPatchStates(models, id);
    assert Get(table, id) == if LastPatch(models, id).Some? then LastPatch(models, id) else Get(before, id);
  }
}

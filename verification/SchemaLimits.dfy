/**
 Where the constrained-decoding scrub turns an accepting schema into a
 rejecting one: an input for each part of the condition under which it
 preserves acceptance.
 */
module SchemaLimits {
  import opened Prelude
  import opened SchemaScrub
  import opened SchemaMeaning
  import opened SchemaAcceptance

  function Field(key: Key, value: Json): Json {
    Obj(map[key := value])
  }

  /** `{Minimum: 5}`, which 3 fails and everything passes once scrubbed. */
  const AtLeastFive: Json := Field(Minimum, Num(5.0))

  lemma AtLeastFiveMeaning(r: Rules, n: nat)
    requires !r.leaf(None, Minimum, Num(5.0), Num(3.0))
    ensures Scrub(AtLeastFive) == Obj(map[])
    ensures !Valid(r, n, AtLeastFive, Num(3.0))
    ensures forall x :: Valid(r, n, Obj(map[]), x)
  {
    assert Scrub(AtLeastFive).fields == map[];
    assert Minimum in AtLeastFive.fields && !Holds(r, n, AtLeastFive, Minimum, Num(3.0));
  }

  /** Under `not`, the dropped bound makes the scrubbed schema reject what the original accepts. */
  lemma NotCanBreak(r: Rules, n: nat)
    requires !r.leaf(None, Minimum, Num(5.0), Num(3.0))
    ensures Valid(r, n, Field(Not, AtLeastFive), Num(3.0))
    ensures !Valid(Scrubbed(r), n, Scrub(Field(Not, AtLeastFive)), Num(3.0))
  {
    AtLeastFiveMeaning(r, n);
    AtLeastFiveMeaning(Scrubbed(r), n);
    var s := Field(Not, AtLeastFive);
    assert Not in Scrub(s).fields && Scrub(s).fields[Not] == Obj(map[]);
    assert !Holds(Scrubbed(r), n, Scrub(s), Not, Num(3.0));
  }

  /** `{"oneOf": [{"minimum": 5}, {}]}`: 3 matches one branch of the original and both of the copy. */
  lemma OneOfCanBreak(r: Rules, n: nat)
    requires !r.leaf(None, Minimum, Num(5.0), Num(3.0))
    ensures Valid(r, n, Field(OneOf, Arr([AtLeastFive, Obj(map[])])), Num(3.0))
    ensures !Valid(Scrubbed(r), n, Scrub(Field(OneOf, Arr([AtLeastFive, Obj(map[])]))), Num(3.0))
  {
    OneBranchMatches(r, n);
    AtLeastFiveMeaning(r, n);
    var any := Obj(map[]);
    TwoBranchesScrubbed(any);
    if Valid(Scrubbed(r), n, Field(OneOf, Arr([any, any])), Num(3.0)) {
      OneBranchOnly(Scrubbed(r), n, Field(OneOf, Arr([any, any])), OneOf, Num(3.0), any, any);
    }
  }

  lemma TwoBranchesScrubbed(any: Json)
    requires Scrub(AtLeastFive) == any == Obj(map[])
    ensures Scrub(Field(OneOf, Arr([AtLeastFive, any]))) == Field(OneOf, Arr([any, any]))
  {
    assert Scrub(any).fields == map[];
    assert Scrub(Arr([AtLeastFive, any])).items == [any, any];
    assert Scrub(Field(OneOf, Arr([AtLeastFive, any]))).fields == map[OneOf := Arr([any, any])];
  }

  lemma OneBranchOnly(r: Rules, n: nat, schema: Json, key: Key, x: Json, a: Json, b: Json)
    requires schema.Obj? && key == OneOf && key in schema.fields && schema.fields[key] == Arr([a, b])
    requires Holds(r, n, schema, key, x)
    ensures !(Valid(r, n, a, x) && Valid(r, n, b, x))
  {
    assert OneMatches(r, n, schema.fields[key], x);
    var items := schema.fields[key].items;
    assert items[0] == a && items[1] == b;
    var i :| 0 <= i < |items| && forall j :: 0 <= j < |items| && j != i ==> !Valid(r, n, items[j], x);
  }

  lemma OneBranchMatches(r: Rules, n: nat)
    requires !r.leaf(None, Minimum, Num(5.0), Num(3.0))
    ensures Valid(r, n, Field(OneOf, Arr([AtLeastFive, Obj(map[])])), Num(3.0))
  {
    AtLeastFiveMeaning(r, n);
    SecondBranchOnly(r, n, Field(OneOf, Arr([AtLeastFive, Obj(map[])])), OneOf, Num(3.0), AtLeastFive, Obj(map[]));
  }

  lemma SecondBranchOnly(r: Rules, n: nat, schema: Json, key: Key, x: Json, a: Json, b: Json)
    requires schema.Obj? && key == OneOf && schema.fields.Keys == {key} && schema.fields[key] == Arr([a, b])
    requires !Valid(r, n, a, x) && Valid(r, n, b, x)
    ensures Valid(r, n, schema, x)
  {
    SecondMatches(r, n, schema.fields[key], x, a, b);
    SoleKeyword(r, n, schema, key, x);
  }

  lemma SecondMatches(r: Rules, n: nat, list: Json, x: Json, a: Json, b: Json)
    requires list == Arr([a, b]) && !Valid(r, n, a, x) && Valid(r, n, b, x)
    ensures OneMatches(r, n, list, x)
  {
    assert list.items[0] == a && list.items[1] == b;
  }

  lemma SoleKeyword(r: Rules, n: nat, schema: Json, key: Key, x: Json)
    requires schema.Obj? && schema.fields.Keys == {key}
    ensures key in schema.fields && (Valid(r, n, schema, x) <==> Holds(r, n, schema, key, x))
  {
    assert key in schema.fields.Keys;
  }

  /** `{"if": {"minimum": 5}, "then": false}`: 3 escapes the original's branch and not the copy's. */
  lemma IfCanBreak(r: Rules, n: nat)
    requires !r.leaf(None, Minimum, Num(5.0), Num(3.0))
    ensures Valid(r, n, Obj(map[If := AtLeastFive, Then := Bool(false)]), Num(3.0))
    ensures !Valid(Scrubbed(r), n, Scrub(Obj(map[If := AtLeastFive, Then := Bool(false)])), Num(3.0))
  {
    AtLeastFiveMeaning(r, n);
    AtLeastFiveMeaning(Scrubbed(r), n);
    var s := Obj(map[If := AtLeastFive, Then := Bool(false)]);
    BranchEscaped(r, n, s, If, Num(3.0));
    assert Scrub(s).fields == map[If := Obj(map[]), Then := Bool(false)];
    BranchEntered(Scrubbed(r), n, Scrub(s), If, Num(3.0));
  }

  lemma BranchEscaped(r: Rules, n: nat, schema: Json, key: Key, x: Json)
    requires schema.Obj? && schema.fields.Keys == {If, Then} && key == If && !Valid(r, n, schema.fields[key], x)
    ensures Valid(r, n, schema, x)
  {
    assert Holds(r, n, schema, key, x);
    assert Holds(r, n, schema, Then, x);
  }

  lemma BranchEntered(r: Rules, n: nat, schema: Json, key: Key, x: Json)
    requires schema.Obj? && key == If && key in schema.fields && Then in schema.fields
    requires Valid(r, n, schema.fields[key], x) && schema.fields[Then] == Bool(false)
    ensures !Valid(r, n, schema, x)
  {
    assert !Valid(r, n, schema.fields[Then], x);
    assert !Holds(r, n, schema, key, x);
  }

  /** `{"properties": [false]}`: the array says nothing, the object made of it forbids a property "0". */
  lemma PropertyListCanBreak(r: Rules, n: nat)
    ensures var x := Obj(map[Other("0") := Null]);
            && Valid(r, n, Field(Properties, Arr([Bool(false)])), x)
            && !Valid(Scrubbed(r), n, Scrub(Field(Properties, Arr([Bool(false)]))), x)
  {
    var x, list := Obj(map[Other("0") := Null]), Arr([Bool(false)]);
    var s, name := Field(Properties, list), Other("0");
    var copies := seq(|list.items|, i requires 0 <= i < |list.items| => Scrub(list.items[i]));
    assert copies == [Bool(false)] && Front(copies) == [] && Decimal(0) == "0";
    assert Indexed(copies) == map[name := Bool(false)];
    assert Properties in Scrub(s).fields && Scrub(s).fields[Properties] == Obj(map[name := Bool(false)]);
    assert !Valid(Scrubbed(r), n, Bool(false), x.fields[name]);
    assert !Holds(Scrubbed(r), n, Scrub(s), Properties, x);
  }

  /** `{"contains": {"minimum": 5}, "maxContains": 1}` and `[6, 3]`. */
  const OneFive: Json := Obj(map[Contains := AtLeastFive, MaxContains := Num(1.0)])
  const SixThree: Json := Arr([Num(6.0), Num(3.0)])

  lemma OneFiveScrubbed(r: Rules, n: nat)
    requires !r.leaf(None, Minimum, Num(5.0), Num(3.0))
    ensures Scrub(OneFive) == Obj(map[Contains := Obj(map[]), MaxContains := Num(1.0)])
  {
    AtLeastFiveMeaning(r, n);
    assert Scrub(OneFive).fields == map[Contains := Obj(map[]), MaxContains := Num(1.0)];
  }

  lemma TwoMatchesTooMany(r: Rules, n: nat)
    ensures !Valid(r, n, Obj(map[Contains := Obj(map[]), MaxContains := Num(1.0)]), SixThree)
  {
    var s := Obj(map[Contains := Obj(map[]), MaxContains := Num(1.0)]);
    MatchingAny(r, n);
    assert Contains in s.fields && !Holds(r, n, s, Contains, SixThree);
  }

  /** `contains` beside `maxContains`: more items match the scrubbed schema than are allowed. */
  lemma MaxContainsCanBreak(r: Rules, n: nat)
    requires !r.leaf(None, Minimum, Num(5.0), Num(3.0)) && r.leaf(None, Minimum, Num(5.0), Num(6.0))
    requires r.leaf(None, MaxContains, Num(1.0), SixThree)
    ensures Valid(r, n, OneFive, SixThree)
    ensures !Valid(Scrubbed(r), n, Scrub(OneFive), SixThree)
  {
    MatchingFive(r, n);
    Admitted(r, n, OneFive, Contains, MaxContains, SixThree);
    OneFiveScrubbed(r, n);
    TwoMatchesTooMany(Scrubbed(r), n);
  }

  lemma Admitted(r: Rules, n: nat, schema: Json, key: Key, limit: Key, x: Json)
    requires schema.Obj? && key == Contains && limit == MaxContains && schema.fields.Keys == {key, limit} && x.Arr?
    requires Admits(schema.fields, Matching(r, n, schema.fields[key], x.items))
    requires r.Means(n, limit, schema.fields[limit], x)
    ensures Valid(r, n, schema, x)
  {
    assert Holds(r, n, schema, key, x);
    assert Holds(r, n, schema, limit, x);
  }

  lemma MatchingFive(r: Rules, n: nat)
    requires !r.leaf(None, Minimum, Num(5.0), Num(3.0)) && r.leaf(None, Minimum, Num(5.0), Num(6.0))
    ensures Matching(r, n, AtLeastFive, [Num(6.0), Num(3.0)]) == 1
  {
    AtLeastFiveMeaning(r, n);
    assert Holds(r, n, AtLeastFive, Minimum, Num(6.0));
    assert [Num(6.0), Num(3.0)][1..] == [Num(3.0)] && [Num(3.0)][1..] == [];
    assert Matching(r, n, AtLeastFive, []) == 0;
    assert Matching(r, n, AtLeastFive, [Num(3.0)]) == 0;
  }

  lemma MatchingAny(r: Rules, n: nat)
    ensures Matching(r, n, Obj(map[]), [Num(6.0), Num(3.0)]) == 2
  {
    assert [Num(6.0), Num(3.0)][1..] == [Num(3.0)] && [Num(3.0)][1..] == [];
    assert Matching(r, n, Obj(map[]), []) == 0;
    assert Matching(r, n, Obj(map[]), [Num(3.0)]) == 1;
  }

  // ---------------------------------------------------------------- references below copied keywords

  /**
   A copied keyword that holds a reference can break acceptance. In a document
   of definitions and one copied keyword that demands that `y`, a part of the
   instance `x`, not match a definition, whenever the scrub makes that
   definition accept `y`, the copy rejects what the original accepts: the
   definition was scrubbed and the keyword was not.
   */
  lemma CopiedReferenceCanBreak(r: Rules, n: nat, key: Key, name: Key, x: Json, y: Json)
    requires r.doc.Obj? && key.Other? && r.doc.fields.Keys == {Defs, key}
    requires r.doc.fields[Defs].Obj? && name in r.doc.fields[Defs].fields && name != Proto
    requires !NoRef(r.doc.fields[key])
    requires n >= 1 && forall doc: Json :: At(doc, [Defs, name]).Some? ==>
               (r.leaf(Some((doc, n)), key, r.doc.fields[key], x)
                <==> !Valid(r.(doc := doc), n - 1, At(doc, [Defs, name]).value, y))
    requires !Valid(r, n - 1, r.doc.fields[Defs].fields[name], y)
    requires Valid(Scrubbed(r), n - 1, Scrub(r.doc.fields[Defs].fields[name]), y)
    ensures Valid(r, n, r.doc, x)
    ensures !Valid(Scrubbed(r), n, Scrub(r.doc), x)
  {
    var doc, target := r.doc, r.doc.fields[Defs].fields[name];
    assert Defs in doc.fields.Keys && key in doc.fields.Keys;
    DefinitionTarget(doc, name);
    assert r.(doc := doc) == r;
    OriginalAccepts(r, n, key, target, x, y);
    CopyRejects(r, n, key, Scrub(target), x, y);
  }

  lemma OriginalAccepts(r: Rules, n: nat, key: Key, target: Json, x: Json, y: Json)
    requires r.doc.Obj? && key.Other? && r.doc.fields.Keys == {Defs, key} && !NoRef(r.doc.fields[key])
    requires n >= 1 && !Valid(r, n - 1, target, y)
    requires r.leaf(Some((r.doc, n)), key, r.doc.fields[key], x) <==> !Valid(r, n - 1, target, y)
    ensures Valid(r, n, r.doc, x)
  {
    DependentHolds(r, n, r.doc, key, Defs, x);
  }

  lemma CopyRejects(r: Rules, n: nat, key: Key, target: Json, x: Json, y: Json)
    requires r.doc.Obj? && key.Other? && key in r.doc.fields && !NoRef(r.doc.fields[key])
    requires n >= 1 && Valid(Scrubbed(r), n - 1, target, y)
    requires r.leaf(Some((Scrub(r.doc), n)), key, r.doc.fields[key], x) <==> !Valid(Scrubbed(r), n - 1, target, y)
    ensures !Valid(Scrubbed(r), n, Scrub(r.doc), x)
  {
    ScrubKeeps(r.doc, key);
    CopiedFails(Scrubbed(r), n, Scrub(r.doc), key, x);
  }

  /** A definition is found where it was, scrubbed. */
  lemma DefinitionTarget(doc: Json, name: Key)
    requires doc.Obj? && Defs in doc.fields && doc.fields[Defs].Obj? && name in doc.fields[Defs].fields
    requires name != Proto
    ensures At(doc, [Defs, name]) == Some(doc.fields[Defs].fields[name])
    ensures At(Scrub(doc), [Defs, name]) == Some(Scrub(doc.fields[Defs].fields[name]))
  {
    var path := [Defs, name];
    assert path[1..] == [name] && [name][1..] == [];
    assert At(doc.fields[Defs], [name]) == Some(doc.fields[Defs].fields[name]);
    assert RegionAt(NamesAt, doc.fields[Defs], [name]) == SchemaAt;
    ScrubMovesNothing(SchemaAt, doc, path);
  }

  lemma CopiedFails(r: Rules, n: nat, schema: Json, key: Key, x: Json)
    requires schema.Obj? && key.Other? && key in schema.fields && !r.Means(n, key, schema.fields[key], x)
    ensures !Valid(r, n, schema, x)
  {
    assert !Holds(r, n, schema, key, x);
  }

  lemma DependentHolds(r: Rules, n: nat, schema: Json, key: Key, defs: Key, x: Json)
    requires schema.Obj? && key.Other? && defs == Defs && schema.fields.Keys == {defs, key}
    requires r.Means(n, key, schema.fields[key], x)
    ensures Valid(r, n, schema, x)
  {
    assert key in schema.fields.Keys && defs in schema.fields.Keys;
    assert Holds(r, n, schema, key, x) && Holds(r, n, schema, defs, x);
  }

  // ---------------------------------------------------------------- one such document

  const DependentSchemas: Key := Other("dependentSchemas")
  const A: Key := Other("a")
  const M: Key := Other("M")

  /** `{"a": {"properties": {"a": {"not": {"$ref": "#/$defs/M"}}}}}`. */
  const NotM: Json := Field(A, Field(Properties, Field(A, Field(Not, Field(Ref, Str("#/$defs/M"))))))

  lemma NotMHasReference()
    ensures !NoRef(NotM)
  {
    HasReference(Field(Ref, Str("#/$defs/M")), Ref);
    HasReference(Field(Not, Field(Ref, Str("#/$defs/M"))), Not);
    HasReference(Field(A, Field(Not, Field(Ref, Str("#/$defs/M")))), A);
    HasReference(NotM.fields[A], Properties);
    HasReference(NotM, A);
  }

  lemma HasReference(j: Json, key: Key)
    requires j.Obj? && key in j.fields && (key == Ref || !NoRef(j.fields[key]))
    ensures !NoRef(j)
  {
  }

  /**
   `$defs` with M as `{"minimum": 5}`, and `dependentSchemas` as `NotM` or
   any other value with a reference that demands of `{"a": 3}` that 3 not
   match M.
   */
  lemma DependentSchemasCanBreak(r: Rules, n: nat, doc: Json, value: Json)
    requires doc.Obj? && doc.fields == map[Defs := Field(M, AtLeastFive), DependentSchemas := value] && r.doc == doc
    requires !NoRef(value) && !r.leaf(None, Minimum, Num(5.0), Num(3.0))
    requires forall d: Json :: At(d, [Defs, M]).Some? ==>
               (r.leaf(Some((d, n + 1)), DependentSchemas, value, Field(A, Num(3.0)))
                <==> !Valid(r.(doc := d), n, At(d, [Defs, M]).value, Num(3.0)))
    ensures Valid(r, n + 1, doc, Field(A, Num(3.0)))
    ensures !Valid(Scrubbed(r), n + 1, Scrub(doc), Field(A, Num(3.0)))
  {
    AtLeastFiveMeaning(r, n);
    AtLeastFiveMeaning(Scrubbed(r), n);
    CopiedReferenceCanBreak(r, n + 1, DependentSchemas, M, Field(A, Num(3.0)), Num(3.0));
  }

  // ---------------------------------------------------------------- a property name that is spelled like a keyword

  /** The schema rejects `x` and its copy accepts it. */
  ghost predicate Weakened(r: Rules, n: nat, schema: Json, x: Json) {
    !Valid(r, n, schema, x) && Valid(Scrubbed(r), n, Scrub(schema), x)
  }

  /** The schema accepts `x` and its copy rejects it. */
  ghost predicate Broken(r: Rules, n: nat, schema: Json, x: Json) {
    Valid(r, n, schema, x) && !Valid(Scrubbed(r), n, Scrub(schema), x)
  }

  /** In any document with a definition `name`, the copied keyword demands of `x` that its part `y` match it. */
  ghost predicate Demands(r: Rules, n: nat, key: Key, value: Json, name: Key, x: Json, y: Json) {
    forall doc: Json :: At(doc, [Defs, name]).Some? ==>
      (r.leaf(Some((doc, n + 1)), key, value, x) <==> Valid(r.(doc := doc), n, At(doc, [Defs, name]).value, y))
  }

  /**
   The same under `not`, where the copied keyword demands that `y` match the
   definition: the copy of the whole rejects what the original accepts.
   */
  lemma NegatedCopyCanBreak(r: Rules, n: nat, key: Key, value: Json, name: Key, m: Json, x: Json, y: Json)
    requires r.doc.Obj? && r.doc.fields.Keys == {Defs, Not} && Defs in r.doc.fields && Not in r.doc.fields
    requires r.doc.fields[Defs].Obj? && name in r.doc.fields[Defs].fields && r.doc.fields[Defs].fields[name] == m
    requires r.doc.fields[Not] == Field(key, value) && key.Other? && name != Proto && !NoRef(value)
    requires Weakened(r, n, m, y) && Demands(r, n, key, value, name, x, y)
    ensures Broken(r, n + 1, r.doc, x)
  {
    DefinitionTarget(r.doc, name);
    assert r.(doc := r.doc) == r;
    NegatedOriginal(r, n, r.doc.fields[Not], key, m, x, y);
    NegatedCopy(r, n, r.doc.fields[Not], key, Scrub(m), x, y);
  }

  lemma NegatedOriginal(r: Rules, n: nat, negated: Json, key: Key, target: Json, x: Json, y: Json)
    requires r.doc.Obj? && r.doc.fields.Keys == {Defs, Not} && key.Other?
    requires Not in r.doc.fields && r.doc.fields[Not] == negated
    requires negated.Obj? && negated.fields.Keys == {key} && key in negated.fields && !NoRef(negated.fields[key])
    requires !Valid(r, n, target, y)
    requires r.leaf(Some((r.doc, n + 1)), key, negated.fields[key], x) <==> Valid(r, n, target, y)
    ensures Valid(r, n + 1, r.doc, x)
  {
    SoleCopiedMeans(r, n + 1, negated, key, x);
    NegationAccepts(r, n + 1, r.doc, Not, Defs, x);
  }

  lemma SoleCopiedMeans(r: Rules, n: nat, schema: Json, key: Key, x: Json)
    requires schema.Obj? && schema.fields.Keys == {key} && key.Other? && key in schema.fields
    requires !NoRef(schema.fields[key])
    ensures Valid(r, n, schema, x) <==> r.leaf(Some((r.doc, n)), key, schema.fields[key], x)
  {
    SoleKeyword(r, n, schema, key, x);
  }

  lemma NegatedCopy(r: Rules, n: nat, negated: Json, key: Key, target: Json, x: Json, y: Json)
    requires r.doc.Obj? && key.Other? && Not in r.doc.fields && r.doc.fields[Not] == negated
    requires negated.Obj? && negated.fields.Keys == {key} && key in negated.fields && !NoRef(negated.fields[key])
    requires Valid(Scrubbed(r), n, target, y)
    requires r.leaf(Some((Scrub(r.doc), n + 1)), key, negated.fields[key], x) <==> Valid(Scrubbed(r), n, target, y)
    ensures !Valid(Scrubbed(r), n + 1, Scrub(r.doc), x)
  {
    SoleCopiedKeyword(r.doc, Not, key);
    SoleCopiedMeans(Scrubbed(r), n + 1, negated, key, x);
    NegationRejects(Scrubbed(r), n + 1, Scrub(r.doc), Not, x);
  }

  lemma NegationAccepts(r: Rules, n: nat, schema: Json, key: Key, defs: Key, x: Json)
    requires schema.Obj? && key == Not && defs == Defs && schema.fields.Keys == {defs, key}
    requires key in schema.fields && !Valid(r, n, schema.fields[key], x)
    ensures Valid(r, n, schema, x)
  {
    assert key in schema.fields.Keys && defs in schema.fields.Keys;
    assert Holds(r, n, schema, key, x) && Holds(r, n, schema, defs, x);
  }

  lemma NegationRejects(r: Rules, n: nat, schema: Json, key: Key, x: Json)
    requires schema.Obj? && key == Not && key in schema.fields && Valid(r, n, schema.fields[key], x)
    ensures !Valid(r, n, schema, x)
  {
    assert !Holds(r, n, schema, key, x);
  }

  /** A subschema of one copied keyword is left as it is. */
  lemma SoleCopiedKeyword(schema: Json, at: Key, key: Key)
    requires schema.Obj? && at == Not && at in schema.fields && key.Other?
    requires schema.fields[at].Obj? && schema.fields[at].fields.Keys == {key}
    ensures Scrub(schema).Obj? && at in Scrub(schema).fields && Scrub(schema).fields[at] == schema.fields[at]
  {
    ScrubKeeps(schema, at);
    assert forall k :: k in schema.fields[at].fields ==> k in schema.fields[at].fields.Keys;
    assert Scrub(schema.fields[at]).fields == schema.fields[at].fields;
  }

  /** `{"properties": {"$ref": "#/$defs/M"}}`: under `dependentSchemas`, what an instance with "properties" must be. */
  const IfProperties: Json := Field(Properties, Field(Ref, Str("#/$defs/M")))

  lemma IfPropertiesHasReference()
    ensures !NoRef(IfProperties)
  {
    HasReference(Field(Ref, Str("#/$defs/M")), Ref);
    HasReference(IfProperties, Properties);
  }

  /** `{"$defs": {"M": m}, "not": {"dependentSchemas": value}}`. */
  function NotDependent(m: Json, value: Json): Json {
    Obj(map[Defs := Field(M, m), Not := Field(DependentSchemas, value)])
  }

  /**
   With `IfProperties` as `value`, or any other value with a reference that
   demands of `x` to match M: when `x` fails M, and M accepts it once
   scrubbed, the copy of the document rejects what the original accepts.
   */
  lemma PropertyNameIsNoKeyword(r: Rules, n: nat, value: Json, m: Json, x: Json)
    requires r.doc == NotDependent(m, value) && !NoRef(value)
    requires Weakened(r, n, m, x) && Demands(r, n, DependentSchemas, value, M, x, x)
    ensures Broken(r, n + 1, r.doc, x)
    ensures !Safe(r.doc, true)
  {
    NotDependentBreaks(r, n, r.doc, value, m, x);
  }

  lemma NotDependentBreaks(r: Rules, n: nat, doc: Json, value: Json, m: Json, x: Json)
    requires doc.Obj? && r.doc == doc && doc.fields.Keys == {Defs, Not} && Defs in doc.fields && Not in doc.fields
    requires doc.fields[Defs] == Field(M, m) && doc.fields[Not] == Field(DependentSchemas, value) && !NoRef(value)
    requires Weakened(r, n, m, x) && Demands(r, n, DependentSchemas, value, M, x, x)
    ensures Broken(r, n + 1, doc, x)
    ensures !Safe(doc, true)
  {
    NegatedCopyCanBreak(r, n, DependentSchemas, value, M, m, x, x);
    NotInert(doc, value);
  }

  lemma NotInert(doc: Json, value: Json)
    requires doc.Obj? && Not in doc.fields && doc.fields[Not] == Field(DependentSchemas, value) && !NoRef(value)
    ensures !Safe(doc, true)
  {
    assert !SelfContainedField(DependentSchemas, value);
    assert DependentSchemas in doc.fields[Not].fields && !SelfContained(doc.fields[Not]);
    assert !SafeField(doc, Not, true);
  }

  /** What `{"properties": {name: bound}}` says of an object that has only that property. */
  lemma SoleProperty(r: Rules, n: nat, schema: Json, key: Key, name: Key, x: Json)
    requires schema.Obj? && key == Properties && schema.fields.Keys == {key} && key in schema.fields
    requires schema.fields[key].Obj? && schema.fields[key].fields.Keys == {name} && name in schema.fields[key].fields
    requires x.Obj? && x.fields.Keys == {name} && name in x.fields
    ensures Valid(r, n, schema, x) <==> Valid(r, n, schema.fields[key].fields[name], x.fields[name])
  {
    assert forall k :: k in x.fields ==> k in x.fields.Keys;
    SoleKeyword(r, n, schema, key, x);
  }

  lemma SolePropertyScrubbed(schema: Json, key: Key, name: Key)
    requires schema.Obj? && key == Properties && schema.fields.Keys == {key} && key in schema.fields
    requires schema.fields[key].Obj? && schema.fields[key].fields.Keys == {name} && name in schema.fields[key].fields
    requires name != Proto
    ensures Scrub(schema).Obj? && Scrub(schema).fields.Keys == {key} && key in Scrub(schema).fields
    ensures Scrub(schema).fields[key].Obj? && Scrub(schema).fields[key].fields.Keys == {name}
    ensures name in Scrub(schema).fields[key].fields
    ensures Scrub(schema).fields[key].fields[name] == Scrub(schema.fields[key].fields[name])
  {
    ScrubKeeps(schema, key);
    assert key in Scrub(schema).fields.Keys && name in schema.fields[key].fields.Keys;
  }

  /** A property whose schema is weakened weakens the whole. */
  lemma SolePropertyWeakens(r: Rules, n: nat, schema: Json, key: Key, name: Key, x: Json)
    requires schema.Obj? && key == Properties && schema.fields.Keys == {key} && key in schema.fields
    requires schema.fields[key].Obj? && schema.fields[key].fields.Keys == {name} && name in schema.fields[key].fields
    requires name != Proto && x.Obj? && x.fields.Keys == {name} && name in x.fields
    requires Weakened(r, n, schema.fields[key].fields[name], x.fields[name])
    ensures Weakened(r, n, schema, x)
  {
    SoleProperty(r, n, schema, key, name, x);
    SolePropertyScrubbed(schema, key, name);
    SoleProperty(Scrubbed(r), n, Scrub(schema), key, name, x);
  }

  /** `{"properties": {"properties": bound}}`. */
  function PropertyNamedProperties(bound: Json): Json {
    Field(Properties, Field(Properties, bound))
  }

  lemma NestedPropertyWeakens(r: Rules, n: nat, bound: Json, y: Json)
    requires Weakened(r, n, bound, y)
    ensures Weakened(r, n, PropertyNamedProperties(bound), Field(Properties, y))
  {
    SolePropertyWeakens(r, n, PropertyNamedProperties(bound), Properties, Properties, Field(Properties, y));
  }

  /**
   `{"$defs": {"M": {"properties": {"properties": bound}}},
     "not": {"dependentSchemas": {"properties": {"$ref": "#/$defs/M"}}}}`
   and `{"properties": y}`, with `{"minimum": 5}` and 3 as `bound` and `y`, or
   any other value that the bound rejects and its copy accepts; `value` is
   `IfProperties`, or any other value with a reference that demands the same.
   */
  lemma DependentOnPropertiesCanBreak(r: Rules, n: nat, value: Json, bound: Json, y: Json)
    requires r.doc == NotDependent(PropertyNamedProperties(bound), value) && !NoRef(value)
    requires Weakened(r, n, bound, y)
    requires Demands(r, n, DependentSchemas, value, M, Field(Properties, y), Field(Properties, y))
    ensures Broken(r, n + 1, r.doc, Field(Properties, y))
    ensures !Safe(r.doc, true)
  {
    NestedPropertyWeakens(r, n, bound, y);
    PropertyNameIsNoKeyword(r, n, value, PropertyNamedProperties(bound), Field(Properties, y));
  }

  lemma AtLeastFiveWeakens(r: Rules, n: nat)
    requires !r.leaf(None, Minimum, Num(5.0), Num(3.0))
    ensures Weakened(r, n, AtLeastFive, Num(3.0))
  {
    AtLeastFiveMeaning(r, n);
    AtLeastFiveMeaning(Scrubbed(r), n);
  }

  // ---------------------------------------------------------------- the name that is lost

  /**
   `{"properties": {"__proto__": {}}, "additionalProperties": false}` and
   `{"__proto__": null}`: the copy no longer declares the property.
   */
  const DeclaresProto: Json := Obj(map[Properties := Field(Proto, Obj(map[])), AdditionalProperties := Bool(false)])

  lemma LostNameCanBreak(r: Rules, n: nat)
    ensures Valid(r, n, DeclaresProto, Field(Proto, Null))
    ensures !Valid(Scrubbed(r), n, Scrub(DeclaresProto), Field(Proto, Null))
    ensures !Safe(DeclaresProto, true)
  {
    DeclaredHolds(r, n, DeclaresProto, Properties, AdditionalProperties, Proto, Field(Proto, Null));
    CopyDeclaresNothing();
    LostNameRejected(Scrubbed(r), n);
    assert !SafeField(DeclaresProto, Properties, true);
  }

  lemma CopyDeclaresNothing()
    ensures Scrub(DeclaresProto) == Obj(map[Properties := Obj(map[]), AdditionalProperties := Bool(false)])
  {
    assert ScrubField(Properties, Field(Proto, Obj(map[]))).fields == map[];
    assert Scrub(DeclaresProto).fields == map[Properties := Obj(map[]), AdditionalProperties := Bool(false)];
  }

  lemma LostNameRejected(r: Rules, n: nat)
    ensures !Valid(r, n, Obj(map[Properties := Obj(map[]), AdditionalProperties := Bool(false)]), Field(Proto, Null))
  {
    UndeclaredFails(r, n, Obj(map[Properties := Obj(map[]), AdditionalProperties := Bool(false)]), AdditionalProperties,
                    Proto, Field(Proto, Null));
  }

  lemma DeclaredHolds(r: Rules, n: nat, schema: Json, key: Key, rest: Key, name: Key, x: Json)
    requires schema.Obj? && key == Properties && rest == AdditionalProperties && schema.fields.Keys == {key, rest}
    requires key in schema.fields && schema.fields[key].Obj? && name in schema.fields[key].fields
    requires schema.fields[key].fields[name] == Obj(map[]) && x.Obj? && x.fields.Keys == {name}
    ensures Valid(r, n, schema, x)
  {
    assert forall k :: k in x.fields ==> k in x.fields.Keys;
    assert DeclaredIn(schema.fields, key, name);
    assert rest in schema.fields.Keys && Holds(r, n, schema, rest, x) && Holds(r, n, schema, key, x);
  }

  lemma UndeclaredFails(r: Rules, n: nat, schema: Json, rest: Key, name: Key, x: Json)
    requires schema.Obj? && rest == AdditionalProperties && rest in schema.fields && schema.fields[rest] == Bool(false)
    requires x.Obj? && name in x.fields && Undeclared(r, schema.fields, name)
    ensures !Valid(r, n, schema, x)
  {
    assert !Valid(r, n, schema.fields[rest], x.fields[name]);
    assert !Holds(r, n, schema, rest, x);
  }

  /** `{"$defs": {"__proto__": true}, "$ref": "#/$defs/__proto__"}`: the reference of the copy names nothing. */
  lemma LostDefinitionCanBreak(r: Rules, n: nat, ref: string, x: Json)
    requires n >= 1 && r.doc.Obj? && r.doc.fields.Keys == {Defs, Ref}
    requires Defs in r.doc.fields && r.doc.fields[Defs] == Field(Proto, Bool(true))
    requires Ref in r.doc.fields && r.doc.fields[Ref] == Str(ref)
    requires ref in r.refs && r.refs[ref] == [Defs, Proto]
    ensures Valid(r, n, r.doc, x) && !Valid(Scrubbed(r), n, Scrub(r.doc), x)
  {
    LostTarget(r.doc);
    ReferenceHolds(r, n, r.doc, Ref, Defs, x);
    LostReferenceFails(r, n, Ref, ref, x);
  }

  lemma LostReferenceFails(r: Rules, n: nat, key: Key, ref: string, x: Json)
    requires n >= 1 && r.doc.Obj? && key == Ref && key in r.doc.fields && r.doc.fields[key] == Str(ref)
    requires Scrubbed(r).Target(ref).None?
    ensures !Valid(Scrubbed(r), n, Scrub(r.doc), x)
  {
    ScrubKeeps(r.doc, key);
    ReferenceFails(Scrubbed(r), n, Scrub(r.doc), key, x);
  }

  lemma LostTarget(doc: Json)
    requires doc.Obj? && Defs in doc.fields && doc.fields[Defs] == Field(Proto, Bool(true))
    ensures At(doc, [Defs, Proto]) == Some(Bool(true)) && At(Scrub(doc), [Defs, Proto]) == None
  {
    var path := [Defs, Proto];
    assert path[1..] == [Proto] && [Proto][1..] == [];
    assert At(doc.fields[Defs], [Proto]) == Some(Bool(true));
    assert RegionAt(NamesAt, doc.fields[Defs], [Proto]) == RemovedAt;
    ScrubMovesNothing(SchemaAt, doc, path);
  }

  lemma ReferenceHolds(r: Rules, n: nat, schema: Json, key: Key, defs: Key, x: Json)
    requires schema.Obj? && key == Ref && defs == Defs && schema.fields.Keys == {defs, key}
    requires key in schema.fields && schema.fields[key].Str? && n >= 1
    requires r.Target(schema.fields[key].s) == Some(Bool(true))
    ensures Valid(r, n, schema, x)
  {
    assert key in schema.fields.Keys && defs in schema.fields.Keys;
    assert Holds(r, n, schema, key, x) && Holds(r, n, schema, defs, x);
  }

  lemma ReferenceFails(r: Rules, n: nat, schema: Json, key: Key, x: Json)
    requires schema.Obj? && key == Ref && key in schema.fields && schema.fields[key].Str? && n >= 1
    requires r.Target(schema.fields[key].s).None?
    ensures !Valid(r, n, schema, x)
  {
    assert !Holds(r, n, schema, key, x);
  }
}

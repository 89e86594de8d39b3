/**
 The meaning of JSON Schemas, and how one keyword weakens with its subschemas.
 Validity follows JSON Schema 2020-12 (and the older tuple form of `items`).
 Keywords the scrub copies are interpreted by a parameter, which sees the
 keyword's own value, the instance and, where the value holds references at
 any depth, the document they resolve in. Keywords that read the annotations
 of their neighbours, dynamic references and embedded `$id`s are not of this
 form, so schemas that use them are told apart here.
 */
module SchemaMeaning {
  import opened Prelude
  import opened SchemaScrub

  /** No reference keyword at any depth, under any key. */
  ghost predicate NoRef(j: Json) {
    match j
    case Arr(items) => forall i :: 0 <= i < |items| ==> NoRef(items[i])
    case Obj(fields) => forall key :: key in fields ==> !key.IsReference() && NoRef(fields[key])
    case _ => true
  }

  /**
   Nothing at a keyword position, here or below, that refers elsewhere or
   reads its neighbours' annotations. Names in a schema map are no keywords;
   in the values of other keywords nothing is known about the keys, so no key
   there may be spelled like a reference.
   */
  ghost predicate SelfContained(j: Json)
    decreases j, 0
  {
    match j
    case Arr(items) => forall i :: 0 <= i < |items| ==> SelfContained(items[i])
    case Obj(fields) => forall key :: key in fields ==> SelfContainedField(key, fields[key])
    case _ => true
  }

  ghost predicate SelfContainedField(key: Key, value: Json)
    decreases value, 1
  {
    && !key.IsReference() && !key.IsUnevaluated()
    && (if key.IsSchemaMap() && value.Obj? then
          forall name :: name in value.fields ==> SelfContained(value.fields[name])
        else if key.IsSchemaValue() then SelfContained(value)
        else NoRef(value))
  }

  /**
   What is left open: the meaning of copied and dropped keywords, the pattern
   dialect, and which position of the document each reference names. A
   keyword's meaning gets the document, and the depth to which references are
   followed, only where its value holds references.
   */
  datatype Rules = Rules(
    leaf: (Option<(Json, nat)>, Key, Json, Json) -> bool,
    matches: (Key, Key) -> bool,
    refs: map<string, Path>,
    doc: Json)
  {
    function Target(ref: string): Option<Json> {
      if ref in refs then At(doc, refs[ref]) else None
    }

    ghost predicate Means(n: nat, key: Key, value: Json, x: Json) {
      leaf(if NoRef(value) then None else Some((doc, n)), key, value, x)
    }
  }

  /** Validity of an instance, following references up to `n` deep; one that names nothing accepts nothing. */
  ghost predicate Valid(r: Rules, n: nat, schema: Json, x: Json)
    decreases n, schema, 1
  {
    match schema
    case Bool(b) => b
    case Obj(fields) => forall key :: key in fields ==> Holds(r, n, schema, key, x)
    case _ => true
  }

  ghost predicate Holds(r: Rules, n: nat, schema: Json, key: Key, x: Json)
    requires schema.Obj? && key in schema.fields
    decreases n, schema, 0
  {
    var v := schema.fields[key];
    match key
    case Properties =>
      x.Obj? && v.Obj? ==>
        forall name :: name in v.fields && name in x.fields ==> Valid(r, n, v.fields[name], x.fields[name])
    case PatternProperties =>
      x.Obj? && v.Obj? ==>
        forall p, name :: p in v.fields && name in x.fields && r.matches(p, name) ==>
          Valid(r, n, v.fields[p], x.fields[name])
    case AdditionalProperties =>
      x.Obj? ==>
        forall name :: name in x.fields && Undeclared(r, schema.fields, name) ==> Valid(r, n, v, x.fields[name])
    case PropertyNames => x.Obj? ==> forall name :: name in x.fields ==> Valid(r, n, v, Str(Spelling(name)))
    case Items =>
      x.Arr? ==>
        if v.Arr? then forall i :: 0 <= i < |v.items| && i < |x.items| ==> Valid(r, n, v.items[i], x.items[i])
        else forall i :: PrefixLength(schema.fields) <= i < |x.items| ==> Valid(r, n, v, x.items[i])
    case PrefixItems =>
      x.Arr? && v.Arr? ==> forall i :: 0 <= i < |v.items| && i < |x.items| ==> Valid(r, n, v.items[i], x.items[i])
    case AdditionalItems =>
      x.Arr? && Items in schema.fields && schema.fields[Items].Arr? ==>
        forall i :: |schema.fields[Items].items| <= i < |x.items| ==> Valid(r, n, v, x.items[i])
    case Contains => x.Arr? ==> Admits(schema.fields, Matching(r, n, v, x.items))
    case AnyOf => v.Arr? ==> exists i :: 0 <= i < |v.items| && Valid(r, n, v.items[i], x)
    case AllOf => v.Arr? ==> forall i :: 0 <= i < |v.items| ==> Valid(r, n, v.items[i], x)
    case OneOf => OneMatches(r, n, v, x)
    case Not => !Valid(r, n, v, x)
    case If =>
      if Valid(r, n, v, x) then Then in schema.fields ==> Valid(r, n, schema.fields[Then], x)
      else Else in schema.fields ==> Valid(r, n, schema.fields[Else], x)
    case Then => true
    case Else => true
    case Defs => true
    case Definitions => true
    case Id => true
    case Ref => v.Str? && n > 0 ==> r.Target(v.s).Some? && Valid(r, n - 1, r.Target(v.s).value, x)
    case _ => r.Means(n, key, v, x)
  }

  /** Exactly one of the listed schemas accepts. */
  ghost predicate OneMatches(r: Rules, n: nat, list: Json, x: Json)
    decreases n, list, 2
  {
    list.Arr? ==>
      exists i :: && 0 <= i < |list.items|
                  && Valid(r, n, list.items[i], x)
                  && forall j :: 0 <= j < |list.items| && j != i ==> !Valid(r, n, list.items[j], x)
  }

  ghost predicate DeclaredIn(fields: map<Key, Json>, key: Key, name: Key) {
    key in fields && fields[key].Obj? && name in fields[key].fields
  }

  /** A property that neither `properties` nor `patternProperties` speaks for. */
  ghost predicate Undeclared(r: Rules, fields: map<Key, Json>, name: Key) {
    && !DeclaredIn(fields, Properties, name)
    && (forall p :: DeclaredIn(fields, PatternProperties, p) ==> !r.matches(p, name))
  }

  function PrefixLength(fields: map<Key, Json>): nat {
    if PrefixItems in fields && fields[PrefixItems].Arr? then |fields[PrefixItems].items| else 0
  }

  /** How many array items match the `contains` schema. */
  ghost function Matching(r: Rules, n: nat, schema: Json, items: seq<Json>): nat
    decreases n, schema, 2, items
  {
    if items == [] then 0
    else Matching(r, n, schema, items[1..]) + if Valid(r, n, schema, items[0]) then 1 else 0
  }

  /** The siblings `minContains` (one when absent) and `maxContains`. */
  predicate Admits(fields: map<Key, Json>, count: nat) {
    && (if MinContains in fields && fields[MinContains].Num?
        then fields[MinContains].n <= count as real else 1 <= count)
    && (MaxContains in fields && fields[MaxContains].Num? ==> count as real <= fields[MaxContains].n)
  }

  // ---------------------------------------------------------------- one keyword at a time

  /** Whatever `c` accepts, `c'` accepts under the other rules. */
  ghost predicate Weaker(r: Rules, r': Rules, n: nat, c: Json, c': Json) {
    forall y :: Valid(r, n, c, y) ==> Valid(r', n, c', y)
  }

  /** Two rule sets that differ only in the document that references resolve in. */
  ghost predicate SameButDoc(r: Rules, r': Rules) {
    r'.leaf == r.leaf && r'.matches == r.matches && r'.refs == r.refs
  }

  /** Schemas whose sibling keywords read each other the same way. */
  ghost predicate SameSiblings(fields: map<Key, Json>, fields': map<Key, Json>) {
    && (AdditionalProperties in fields ==>
          && (forall name :: DeclaredIn(fields, Properties, name) <==> DeclaredIn(fields', Properties, name))
          && (forall p :: DeclaredIn(fields, PatternProperties, p) <==> DeclaredIn(fields', PatternProperties, p)))
    && PrefixLength(fields') == PrefixLength(fields)
    && ((Items in fields && fields[Items].Arr?) <==> (Items in fields' && fields'[Items].Arr?))
    && (Items in fields && fields[Items].Arr? ==> |fields'[Items].items| == |fields[Items].items|)
    && (forall count: nat :: Admits(fields, count) <==> Admits(fields', count))
    && (Then in fields <==> Then in fields') && (Else in fields <==> Else in fields')
    && (MaxContains in fields <==> MaxContains in fields')
  }

  ghost predicate SameShape(v: Json, v': Json) {
    && (v.Arr? <==> v'.Arr?) && (v.Obj? <==> v'.Obj?)
    && (v.Arr? ==> |v'.items| == |v.items|)
  }

  ghost predicate Related(r: Rules, r': Rules, schema: Json, schema': Json, key: Key) {
    && schema.Obj? && schema'.Obj? && key in schema.fields && key in schema'.fields
    && SameButDoc(r, r') && SameSiblings(schema.fields, schema'.fields)
  }

  lemma NamedMono(r: Rules, r': Rules, n: nat, schema: Json, schema': Json, key: Key, x: Json)
    requires Related(r, r', schema, schema', key) && Holds(r, n, schema, key, x)
    requires key == Properties || key == PatternProperties
    requires var v, v' := schema.fields[key], schema'.fields[key];
             && (v.Obj? <==> v'.Obj?)
             && (v.Obj? ==> v'.fields.Keys <= v.fields.Keys
                            && forall name :: name in v'.fields ==> Weaker(r, r', n, v.fields[name], v'.fields[name]))
    ensures Holds(r', n, schema', key, x)
  {
  }

  lemma ListedMono(r: Rules, r': Rules, n: nat, schema: Json, schema': Json, key: Key, x: Json)
    requires Related(r, r', schema, schema', key) && Holds(r, n, schema, key, x)
    requires key == PrefixItems || key == AnyOf || key == AllOf || key == Items
    requires var v, v' := schema.fields[key], schema'.fields[key];
             && SameShape(v, v')
             && (v.Arr? ==> forall i :: 0 <= i < |v.items| ==> Weaker(r, r', n, v.items[i], v'.items[i]))
             && (!v.Arr? ==> Weaker(r, r', n, v, v'))
    ensures Holds(r', n, schema', key, x)
  {
  }

  lemma {:induction false} MatchingMono(r: Rules, r': Rules, n: nat, c: Json, c': Json, items: seq<Json>)
    requires Weaker(r, r', n, c, c')
    ensures Matching(r, n, c, items) <= Matching(r', n, c', items)
  {
    if items != [] { MatchingMono(r, r', n, c, c', items[1..]); }
  }

  lemma SingleMono(r: Rules, r': Rules, n: nat, schema: Json, schema': Json, key: Key, x: Json)
    requires Related(r, r', schema, schema', key) && Holds(r, n, schema, key, x)
    requires key == AdditionalProperties || key == PropertyNames || key == AdditionalItems
    requires Weaker(r, r', n, schema.fields[key], schema'.fields[key])
    ensures Holds(r', n, schema', key, x)
  {
  }

  lemma ContainsMono(r: Rules, r': Rules, n: nat, schema: Json, schema': Json, key: Key, x: Json)
    requires Related(r, r', schema, schema', key) && Holds(r, n, schema, key, x)
    requires key == Contains
    requires Weaker(r, r', n, schema.fields[key], schema'.fields[key])
    requires MaxContains in schema.fields ==> Weaker(r', r, n, schema'.fields[key], schema.fields[key])
    ensures Holds(r', n, schema', key, x)
  {
    var v, v' := schema.fields[key], schema'.fields[key];
    if x.Arr? {
      MatchingMono(r, r', n, v, v', x.items);
      if MaxContains in schema.fields { MatchingMono(r', r, n, v', v, x.items); }
    }
  }

  lemma NotMono(r: Rules, r': Rules, n: nat, schema: Json, schema': Json, key: Key, x: Json)
    requires Related(r, r', schema, schema', key) && Holds(r, n, schema, key, x)
    requires key == Not && schema'.fields[key] == schema.fields[key]
    requires Valid(r, n, schema.fields[key], x) <==> Valid(r', n, schema.fields[key], x)
    ensures Holds(r', n, schema', key, x)
  {
  }

  lemma OneOfMono(r: Rules, r': Rules, n: nat, schema: Json, schema': Json, key: Key, x: Json)
    requires Related(r, r', schema, schema', key) && Holds(r, n, schema, key, x)
    requires key == OneOf && schema'.fields[key] == schema.fields[key]
    requires var v := schema.fields[key];
             v.Arr? ==> forall i :: 0 <= i < |v.items| ==> (Valid(r, n, v.items[i], x) <==> Valid(r', n, v.items[i], x))
    ensures Holds(r', n, schema', key, x)
  {
    SameOneMatches(r, r', n, schema.fields[key], x);
  }

  lemma SameOneMatches(r: Rules, r': Rules, n: nat, v: Json, x: Json)
    requires v.Arr? ==> forall i :: 0 <= i < |v.items| ==> (Valid(r, n, v.items[i], x) <==> Valid(r', n, v.items[i], x))
    requires OneMatches(r, n, v, x)
    ensures OneMatches(r', n, v, x)
  {
    if v.Arr? {
      var i :| && 0 <= i < |v.items|
               && Valid(r, n, v.items[i], x)
               && forall j :: 0 <= j < |v.items| && j != i ==> !Valid(r, n, v.items[j], x);
      assert Valid(r', n, v.items[i], x);
    }
  }

  lemma BranchMono(r: Rules, r': Rules, n: nat, schema: Json, schema': Json, key: Key, x: Json)
    requires Related(r, r', schema, schema', key) && Holds(r, n, schema, key, x)
    requires key == If
    requires Valid(r, n, schema.fields[key], x) <==> Valid(r', n, schema'.fields[key], x)
    requires Then in schema.fields ==> Weaker(r, r', n, schema.fields[Then], schema'.fields[Then])
    requires Else in schema.fields ==> Weaker(r, r', n, schema.fields[Else], schema'.fields[Else])
    ensures Holds(r', n, schema', key, x)
  {
  }

  lemma ReferenceMono(r: Rules, r': Rules, n: nat, schema: Json, schema': Json, key: Key, x: Json)
    requires schema.Obj? && schema'.Obj? && key in schema.fields && key in schema'.fields
    requires key == Ref && Holds(r, n, schema, key, x) && schema'.fields[key] == schema.fields[key]
    requires var v := schema.fields[key];
             v.Str? && n > 0 && r.Target(v.s).Some? ==>
               r'.Target(v.s).Some? && Weaker(r, r', n - 1, r.Target(v.s).value, r'.Target(v.s).value)
    ensures Holds(r', n, schema', key, x)
  {
  }

  // ---------------------------------------------------------------- self-contained schemas mean the same anywhere

  lemma {:induction false} SelfContainedWeaker(r: Rules, r': Rules, n: nat, c: Json)
    requires SelfContained(c) && SameButDoc(r, r')
    ensures Weaker(r, r', n, c, c)
    decreases c, 2
  {
    forall y | Valid(r, n, c, y) ensures Valid(r', n, c, y) {
      if c.Obj? {
        forall key | key in c.fields ensures Holds(r', n, c, key, y) {
          SelfContainedKeyword(r, r', n, c, key, y);
        }
      }
    }
  }

  lemma {:induction false} SelfContainedBothWays(r: Rules, r': Rules, n: nat, v: Json)
    requires SelfContained(v) && SameButDoc(r, r')
    ensures Weaker(r, r', n, v, v) && Weaker(r', r, n, v, v)
    ensures v.Arr? ==> forall i :: 0 <= i < |v.items| ==>
              Weaker(r, r', n, v.items[i], v.items[i]) && Weaker(r', r, n, v.items[i], v.items[i])
    decreases v, 3
  {
    SelfContainedWeaker(r, r', n, v);
    SelfContainedWeaker(r', r, n, v);
    if v.Arr? {
      forall i | 0 <= i < |v.items|
        ensures Weaker(r, r', n, v.items[i], v.items[i]) && Weaker(r', r, n, v.items[i], v.items[i])
      {
        SelfContainedWeaker(r, r', n, v.items[i]);
        SelfContainedWeaker(r', r, n, v.items[i]);
      }
    }
  }

  lemma {:induction false} SelfContainedKeyword(r: Rules, r': Rules, n: nat, schema: Json, key: Key, x: Json)
    requires schema.Obj? && key in schema.fields && SelfContained(schema) && SameButDoc(r, r')
    requires Holds(r, n, schema, key, x)
    ensures Holds(r', n, schema, key, x)
    decreases schema, 1
  {
    assert SelfContainedField(key, schema.fields[key]);
    if key == Properties || key == PatternProperties {
      SelfContainedNamed(r, r', n, schema, key, x);
    } else if key == If {
      SelfContainedBranch(r, r', n, schema, key, x);
    } else if key.IsSchemaValue() {
      SelfContainedSubschema(r, r', n, schema, key, x);
    } else {
      SameLeaf(r, r', n, schema, key, x);
    }
  }

  lemma {:induction false} SelfContainedSubschema(r: Rules, r': Rules, n: nat, schema: Json, key: Key, x: Json)
    requires schema.Obj? && key in schema.fields && SelfContainedField(key, schema.fields[key]) && SameButDoc(r, r')
    requires key.IsSchemaValue() && key != If && Holds(r, n, schema, key, x)
    ensures Holds(r', n, schema, key, x)
    decreases schema, 0, 0
  {
    SelfContainedBothWays(r, r', n, schema.fields[key]);
    SameSubschema(r, r', n, schema, key, x);
  }

  lemma SameSubschema(r: Rules, r': Rules, n: nat, schema: Json, key: Key, x: Json)
    requires schema.Obj? && key in schema.fields && SameButDoc(r, r') && Holds(r, n, schema, key, x)
    requires key.IsSchemaValue() && key != If
    requires var v := schema.fields[key];
             && Weaker(r, r', n, v, v) && Weaker(r', r, n, v, v)
             && (v.Arr? ==> forall i :: 0 <= i < |v.items| ==>
                  Weaker(r, r', n, v.items[i], v.items[i]) && Weaker(r', r, n, v.items[i], v.items[i]))
    ensures Holds(r', n, schema, key, x)
  {
    if key == AdditionalProperties || key == PropertyNames || key == AdditionalItems {
      SingleMono(r, r', n, schema, schema, key, x);
    } else if key == Items || key == PrefixItems || key == AnyOf || key == AllOf {
      ListedMono(r, r', n, schema, schema, key, x);
    } else if key == Contains {
      ContainsMono(r, r', n, schema, schema, key, x);
    } else if key == Not {
      NotMono(r, r', n, schema, schema, key, x);
    } else if key == OneOf {
      OneOfMono(r, r', n, schema, schema, key, x);
    }
  }

  lemma SameLeaf(r: Rules, r': Rules, n: nat, schema: Json, key: Key, x: Json)
    requires schema.Obj? && key in schema.fields && SameButDoc(r, r') && Holds(r, n, schema, key, x)
    requires NoRef(schema.fields[key]) || key == Defs || key == Definitions
    requires !key.IsSchemaValue() && key != Properties && key != PatternProperties && key != Ref
    ensures Holds(r', n, schema, key, x)
  {
  }

  lemma {:induction false} SelfContainedNamed(r: Rules, r': Rules, n: nat, schema: Json, key: Key, x: Json)
    requires schema.Obj? && key in schema.fields && SelfContainedField(key, schema.fields[key]) && SameButDoc(r, r')
    requires key == Properties || key == PatternProperties
    requires Holds(r, n, schema, key, x)
    ensures Holds(r', n, schema, key, x)
    decreases schema.fields[key], 3
  {
    var v := schema.fields[key];
    if v.Obj? {
      forall name | name in v.fields ensures Weaker(r, r', n, v.fields[name], v.fields[name]) {
        SelfContainedWeaker(r, r', n, v.fields[name]);
      }
    }
    NamedMono(r, r', n, schema, schema, key, x);
  }

  lemma {:induction false} SelfContainedBranch(r: Rules, r': Rules, n: nat, schema: Json, key: Key, x: Json)
    requires schema.Obj? && key in schema.fields && SelfContained(schema) && SameButDoc(r, r')
    requires key == If && Holds(r, n, schema, key, x)
    ensures Holds(r', n, schema, key, x)
    decreases schema, 0, 0
  {
    assert SelfContainedField(key, schema.fields[key]);
    SelfContainedBothWays(r, r', n, schema.fields[key]);
    if Then in schema.fields {
      assert SelfContainedField(Then, schema.fields[Then]);
      SelfContainedWeaker(r, r', n, schema.fields[Then]);
    }
    if Else in schema.fields {
      assert SelfContainedField(Else, schema.fields[Else]);
      SelfContainedWeaker(r, r', n, schema.fields[Else]);
    }
    BranchMono(r, r', n, schema, schema, key, x);
  }
}

/**
 What the constrained-decoding scrub does to the meaning of a schema: under a
 condition on where it weakens subschemas, every accepted instance stays
 accepted, for any meaning of the keywords it copies.
 */
module SchemaAcceptance {
  import opened SchemaScrub
  import opened SchemaMeaning

  /** References name the same positions in the scrubbed document. */
  function Scrubbed(r: Rules): Rules {
    r.(doc := Scrub(r.doc))
  }

  // ---------------------------------------------------------------- schemas whose meaning cannot move

  /** Nothing to scrub and self-contained: neither the scrub nor the scrubbed definitions change it. */
  ghost predicate Inert(schema: Json) {
    Clean(schema) && SelfContained(schema)
  }

  /**
   Positions where weakening a subschema could strengthen the whole (`not`,
   `oneOf`, `if`, and `contains` beside `maxContains`) hold inert subschemas;
   keywords that are copied hold no references; declared properties are given
   as objects, without the name `__proto__` beside `additionalProperties`.
   Keywords whose meaning needs more than their place in the document are
   excluded: dynamic references, unevaluated items and properties, and an
   `$id` below the root.
   */
  ghost predicate Safe(schema: Json, root: bool)
    decreases schema, 1
  {
    match schema
    case Arr(items) => forall i :: 0 <= i < |items| ==> Safe(items[i], false)
    case Obj(fields) => forall key :: key in fields ==> SafeField(schema, key, root)
    case _ => true
  }

  ghost predicate SafeField(schema: Json, key: Key, root: bool)
    requires schema.Obj? && key in schema.fields
    decreases schema, 0
  {
    var v := schema.fields[key];
    match key
    case Properties => SafeNames(schema, v)
    case PatternProperties => SafeNames(schema, v)
    case Not => Inert(v)
    case OneOf => Inert(v)
    case If => Inert(v)
    case Contains => if MaxContains in schema.fields then Inert(v) else Safe(v, false)
    case Ref => true
    case Id => root
    case Defs => true
    case Definitions => true
    case _ =>
      if key.IsSchemaValue() then Safe(v, false)
      else key.IsLost() || (!key.IsReference() && !key.IsUnevaluated() && NoRef(v))
  }

  ghost predicate SafeNames(schema: Json, v: Json)
    requires schema.Obj?
    decreases v, 2
  {
    && !v.Arr?
    && (v.Obj? ==>
          && (Proto in v.fields ==> AdditionalProperties !in schema.fields)
          && (forall name :: name in v.fields && name != Proto ==> Safe(v.fields[name], false)))
  }

  // ---------------------------------------------------------------- the scrub preserves acceptance

  /**
   References name nothing that the scrub removes; at schema positions they
   name safe schemas, and what they name elsewhere is left alone by the scrub
   and self-contained.
   */
  ghost predicate SafeRefs(r: Rules) {
    forall ref :: ref in r.refs ==> SafeTarget(r.doc, r.refs[ref])
  }

  ghost predicate SafeTarget(doc: Json, path: Path) {
    At(doc, path).None?
    || (var target, region := At(doc, path).value, RegionAt(SchemaAt, doc, path);
        match region
        case SchemaAt => Safe(target, path == [])
        case RemovedAt => false
        case _ => CopyOf(region, target) == target && SelfContained(target))
  }

  lemma ScrubKeeps(schema: Json, key: Key)
    requires schema.Obj? && !key.IsLost()
    ensures key in Scrub(schema).fields <==> key in schema.fields
    ensures key in schema.fields ==> Scrub(schema).fields[key] == ScrubField(key, schema.fields[key])
  {
  }

  lemma SafeDeclares(schema: Json, key: Key, root: bool)
    requires schema.Obj? && Safe(schema, root) && key in schema.fields
    requires key == Properties || key == PatternProperties
    ensures SafeNames(schema, schema.fields[key])
  {
    assert SafeField(schema, key, root);
  }

  lemma ScrubKeepsDeclared(schema: Json, key: Key, root: bool)
    requires schema.Obj? && Safe(schema, root) && AdditionalProperties in schema.fields
    requires key == Properties || key == PatternProperties
    ensures forall name :: DeclaredIn(schema.fields, key, name) <==> DeclaredIn(Scrub(schema).fields, key, name)
  {
    ScrubKeeps(schema, key);
    if key in schema.fields {
      SafeDeclares(schema, key, root);
      DeclaredNames(schema, key);
    }
  }

  lemma DeclaredNames(schema: Json, key: Key)
    requires schema.Obj? && key in schema.fields && (key == Properties || key == PatternProperties)
    requires SafeNames(schema, schema.fields[key])
    ensures var v, v' := schema.fields[key], ScrubField(key, schema.fields[key]);
            && (v.Obj? <==> v'.Obj?)
            && (v.Obj? ==>
                  && v'.fields.Keys <= v.fields.Keys
                  && (forall name :: name in v'.fields ==> v'.fields[name] == Scrub(v.fields[name]) && name != Proto)
                  && (AdditionalProperties in schema.fields ==> v'.fields.Keys == v.fields.Keys))
  {
  }

  lemma ScrubKeepsCounts(schema: Json)
    requires schema.Obj?
    ensures PrefixLength(Scrub(schema).fields) == PrefixLength(schema.fields)
    ensures forall count: nat :: Admits(schema.fields, count) <==> Admits(Scrub(schema).fields, count)
    ensures MaxContains in schema.fields <==> MaxContains in Scrub(schema).fields
  {
    ScrubKeeps(schema, PrefixItems);
    ScrubKeeps(schema, MinContains);
    ScrubKeeps(schema, MaxContains);
  }

  lemma ScrubSiblings(schema: Json, root: bool)
    requires schema.Obj? && Safe(schema, root)
    ensures SameSiblings(schema.fields, Scrub(schema).fields)
  {
    if AdditionalProperties in schema.fields {
      ScrubKeepsDeclared(schema, Properties, root);
      ScrubKeepsDeclared(schema, PatternProperties, root);
    }
    ScrubKeepsCounts(schema);
    ScrubKeeps(schema, Items);
    ScrubKeeps(schema, Then);
    ScrubKeeps(schema, Else);
  }

  lemma {:induction false} ScrubWeaker(r: Rules, n: nat, c: Json, root: bool)
    requires Safe(c, root) && SafeRefs(r)
    ensures Weaker(r, Scrubbed(r), n, c, Scrub(c))
    decreases n, c, 2
  {
    forall y | Valid(r, n, c, y) ensures Valid(Scrubbed(r), n, Scrub(c), y) {
      if c.Obj? {
        forall key | key in Scrub(c).fields ensures Holds(Scrubbed(r), n, Scrub(c), key, y) {
          assert key in c.fields && !key.IsLost();
          ScrubKeyword(r, n, c, key, y, root);
        }
      }
    }
  }

  lemma {:induction false} ScrubKeyword(r: Rules, n: nat, schema: Json, key: Key, x: Json, root: bool)
    requires schema.Obj? && key in schema.fields && !key.IsLost()
    requires Safe(schema, root) && SafeRefs(r) && Holds(r, n, schema, key, x)
    ensures key in Scrub(schema).fields && Holds(Scrubbed(r), n, Scrub(schema), key, x)
    decreases n, schema, 1
  {
    if key == Properties || key == PatternProperties {
      ScrubNamed(r, n, schema, key, x, root);
    } else if key == PrefixItems || key == AnyOf || key == AllOf || key == Items {
      ScrubListed(r, n, schema, key, x, root);
    } else if key == AdditionalProperties || key == PropertyNames || key == AdditionalItems {
      ScrubSingle(r, n, schema, key, x, root);
    } else if key == Contains {
      ScrubContains(r, n, schema, key, x, root);
    } else if key == Not || key == OneOf {
      ScrubChoice(r, n, schema, key, x, root);
    } else if key == If {
      ScrubBranch(r, n, schema, key, x, root);
    } else {
      ScrubOther(r, n, schema, key, x, root);
    }
  }

  /** References and copied keywords; definitions and branches say nothing by themselves. */
  lemma {:induction false} ScrubOther(r: Rules, n: nat, schema: Json, key: Key, x: Json, root: bool)
    requires schema.Obj? && key in schema.fields && !key.IsLost()
    requires Safe(schema, root) && SafeRefs(r) && Holds(r, n, schema, key, x)
    requires key == Then || key == Else || !key.IsSchemaValue()
    requires key != Properties && key != PatternProperties
    ensures key in Scrub(schema).fields && Holds(Scrubbed(r), n, Scrub(schema), key, x)
    decreases n, schema, 0
  {
    ScrubKeeps(schema, key);
    if key == Ref {
      ScrubReference(r, n, schema, key, x);
    } else if key != Then && key != Else && key != Defs && key != Definitions {
      assert SafeField(schema, key, root);
    }
  }

  lemma {:induction false} ScrubReference(r: Rules, n: nat, schema: Json, key: Key, x: Json)
    requires schema.Obj? && key == Ref && key in schema.fields && SafeRefs(r) && Holds(r, n, schema, key, x)
    ensures key in Scrub(schema).fields && Holds(Scrubbed(r), n, Scrub(schema), key, x)
    decreases n, schema, 0, 0
  {
    ScrubKeeps(schema, key);
    var v := schema.fields[key];
    if v.Str? && n > 0 && v.s in r.refs {
      TargetWeaker(r, n - 1, v.s);
    }
    ReferenceMono(r, Scrubbed(r), n, schema, Scrub(schema), key, x);
  }

  /** What a reference names in the scrubbed document is there, and weaker than what it named. */
  lemma {:induction false} TargetWeaker(r: Rules, n: nat, ref: string)
    requires SafeRefs(r) && ref in r.refs
    ensures r.Target(ref).Some? ==>
              && Scrubbed(r).Target(ref).Some?
              && Weaker(r, Scrubbed(r), n, r.Target(ref).value, Scrubbed(r).Target(ref).value)
    decreases n
  {
    var path := r.refs[ref];
    assert SafeTarget(r.doc, path);
    ScrubMovesNothing(SchemaAt, r.doc, path);
    if At(r.doc, path).Some? {
      var target := At(r.doc, path).value;
      match RegionAt(SchemaAt, r.doc, path)
      case SchemaAt => ScrubWeaker(r, n, target, path == []);
      case _ => SelfContainedWeaker(r, Scrubbed(r), n, target);
    }
  }

  lemma {:induction false} ScrubSingle(r: Rules, n: nat, schema: Json, key: Key, x: Json, root: bool)
    requires schema.Obj? && key in schema.fields && Safe(schema, root) && SafeRefs(r) && Holds(r, n, schema, key, x)
    requires key == AdditionalProperties || key == PropertyNames || key == AdditionalItems
    ensures key in Scrub(schema).fields && Holds(Scrubbed(r), n, Scrub(schema), key, x)
    decreases n, schema, 0
  {
    ScrubSiblings(schema, root);
    assert SafeField(schema, key, root);
    ScrubKeeps(schema, key);
    ScrubWeaker(r, n, schema.fields[key], false);
    SingleMono(r, Scrubbed(r), n, schema, Scrub(schema), key, x);
  }

  lemma {:induction false} ScrubContains(r: Rules, n: nat, schema: Json, key: Key, x: Json, root: bool)
    requires schema.Obj? && key in schema.fields && Safe(schema, root) && SafeRefs(r) && Holds(r, n, schema, key, x)
    requires key == Contains
    ensures key in Scrub(schema).fields && Holds(Scrubbed(r), n, Scrub(schema), key, x)
    decreases n, schema, 0
  {
    ScrubSiblings(schema, root);
    assert SafeField(schema, key, root);
    ScrubKeeps(schema, key);
    if MaxContains in schema.fields {
      InertBothWays(r, n, schema.fields[key]);
    } else {
      ScrubWeaker(r, n, schema.fields[key], false);
    }
    ContainsMono(r, Scrubbed(r), n, schema, Scrub(schema), key, x);
  }

  lemma ScrubChoice(r: Rules, n: nat, schema: Json, key: Key, x: Json, root: bool)
    requires schema.Obj? && key in schema.fields && Safe(schema, root) && Holds(r, n, schema, key, x)
    requires key == Not || key == OneOf
    ensures key in Scrub(schema).fields && Holds(Scrubbed(r), n, Scrub(schema), key, x)
  {
    ScrubSiblings(schema, root);
    assert SafeField(schema, key, root);
    ScrubKeeps(schema, key);
    InertBothWays(r, n, schema.fields[key]);
    if key == Not {
      NotMono(r, Scrubbed(r), n, schema, Scrub(schema), key, x);
    } else {
      OneOfMono(r, Scrubbed(r), n, schema, Scrub(schema), key, x);
    }
  }

  /** An inert subschema is copied unchanged and means the same in the scrubbed document. */
  lemma InertBothWays(r: Rules, n: nat, v: Json)
    requires Inert(v)
    ensures Scrub(v) == v
    ensures Weaker(r, Scrubbed(r), n, v, v) && Weaker(Scrubbed(r), r, n, v, v)
    ensures v.Arr? ==> forall i :: 0 <= i < |v.items| ==>
              Weaker(r, Scrubbed(r), n, v.items[i], v.items[i]) && Weaker(Scrubbed(r), r, n, v.items[i], v.items[i])
  {
    CleanIsFixed(v);
    SelfContainedBothWays(r, Scrubbed(r), n, v);
  }

  lemma {:induction false} ScrubNamed(r: Rules, n: nat, schema: Json, key: Key, x: Json, root: bool)
    requires schema.Obj? && key in schema.fields && Safe(schema, root) && SafeRefs(r) && Holds(r, n, schema, key, x)
    requires key == Properties || key == PatternProperties
    ensures key in Scrub(schema).fields && Holds(Scrubbed(r), n, Scrub(schema), key, x)
    decreases n, schema.fields[key], 3
  {
    var v := schema.fields[key];
    ScrubSiblings(schema, root);
    SafeDeclares(schema, key, root);
    DeclaredNames(schema, key);
    ScrubKeeps(schema, key);
    if v.Obj? {
      forall name | name in v.fields && name != Proto
        ensures Weaker(r, Scrubbed(r), n, v.fields[name], Scrub(v.fields[name]))
      {
        ScrubWeaker(r, n, v.fields[name], false);
      }
    }
    NamedMono(r, Scrubbed(r), n, schema, Scrub(schema), key, x);
  }

  lemma {:induction false} ScrubListed(r: Rules, n: nat, schema: Json, key: Key, x: Json, root: bool)
    requires schema.Obj? && key in schema.fields && Safe(schema, root) && SafeRefs(r) && Holds(r, n, schema, key, x)
    requires key == PrefixItems || key == AnyOf || key == AllOf || key == Items
    ensures key in Scrub(schema).fields && Holds(Scrubbed(r), n, Scrub(schema), key, x)
    decreases n, schema.fields[key], 4
  {
    ScrubSiblings(schema, root);
    assert SafeField(schema, key, root);
    ScrubKeeps(schema, key);
    ScrubItems(r, n, schema.fields[key]);
    ScrubKeepsShape(schema.fields[key]);
    ListedMono(r, Scrubbed(r), n, schema, Scrub(schema), key, x);
  }

  lemma {:induction false} ScrubItems(r: Rules, n: nat, v: Json)
    requires Safe(v, false) && SafeRefs(r)
    ensures v.Arr? ==> forall i :: 0 <= i < |v.items| ==> Weaker(r, Scrubbed(r), n, v.items[i], Scrub(v).items[i])
    ensures !v.Arr? ==> Weaker(r, Scrubbed(r), n, v, Scrub(v))
    decreases n, v, 3
  {
    if v.Arr? {
      forall i | 0 <= i < |v.items| ensures Weaker(r, Scrubbed(r), n, v.items[i], Scrub(v).items[i]) {
        ScrubWeaker(r, n, v.items[i], false);
      }
    } else {
      ScrubWeaker(r, n, v, false);
    }
  }

  lemma ScrubKeepsShape(v: Json)
    ensures (v.Arr? <==> Scrub(v).Arr?) && (v.Obj? <==> Scrub(v).Obj?)
    ensures v.Arr? ==> |Scrub(v).items| == |v.items|
  {
  }

  /** A `then` or `else` sibling weakens. */
  lemma {:induction false} ScrubSibling(r: Rules, n: nat, schema: Json, key: Key, root: bool)
    requires schema.Obj? && Safe(schema, root) && SafeRefs(r)
    requires (key == Then || key == Else) && key in schema.fields
    ensures key in Scrub(schema).fields
    ensures Weaker(r, Scrubbed(r), n, schema.fields[key], Scrub(schema).fields[key])
    decreases n, schema.fields[key], 3
  {
    ScrubKeeps(schema, key);
    assert SafeField(schema, key, root);
    ScrubWeaker(r, n, schema.fields[key], false);
  }

  lemma {:induction false} ScrubBranch(r: Rules, n: nat, schema: Json, key: Key, x: Json, root: bool)
    requires schema.Obj? && key in schema.fields && Safe(schema, root) && SafeRefs(r) && Holds(r, n, schema, key, x)
    requires key == If
    ensures key in Scrub(schema).fields && Holds(Scrubbed(r), n, Scrub(schema), key, x)
    decreases n, schema, 0, 0
  {
    ScrubSiblings(schema, root);
    assert SafeField(schema, key, root);
    ScrubKeeps(schema, key);
    InertBothWays(r, n, schema.fields[key]);
    if Then in schema.fields { ScrubSibling(r, n, schema, Then, root); }
    if Else in schema.fields { ScrubSibling(r, n, schema, Else, root); }
    BranchMono(r, Scrubbed(r), n, schema, Scrub(schema), key, x);
  }

  /**
   The scrub loses only restrictions: for a safe document, under any meaning of
   the other keywords and any depth of references, every instance the original
   schema accepts is accepted by the scrubbed copy, whose references resolve in
   the scrubbed document.
   */
  lemma ScrubPreservesAcceptance(r: Rules, n: nat, schema: Json, x: Json)
    requires Safe(schema, schema == r.doc) && SafeRefs(r)
    requires Valid(r, n, schema, x)
    ensures Valid(Scrubbed(r), n, Scrub(schema), x)
  {
    ScrubWeaker(r, n, schema, schema == r.doc);
  }
}

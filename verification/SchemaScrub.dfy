/**
 The constrained-decoding scrub of JSON Schemas: what it removes, what it
 leaves where it was, and how keys are spelled.
 */
module SchemaScrub {
  import opened Prelude

  /** An object key: one constructor per keyword spelling that matters here, `Other` for the rest. */
  datatype Key =
    | Minimum | Maximum | ExclusiveMinimum | ExclusiveMaximum | MultipleOf | MaxItems
    | Properties | PatternProperties | Defs | Definitions
    | Items | PrefixItems | AdditionalProperties | AdditionalItems | PropertyNames | Contains
    | AnyOf | OneOf | AllOf | Not | If | Then | Else
    | Ref | DynamicRef | RecursiveRef | Id | MinContains | MaxContains
    | UnevaluatedItems | UnevaluatedProperties
    | Proto
    | Other(name: string)
  {
    /** Keywords the constrained-decoding validator rejects. */
    predicate IsUnsupported() {
      Minimum? || Maximum? || ExclusiveMinimum? || ExclusiveMaximum? || MultipleOf? || MaxItems?
    }

    /** Keys a copied schema lacks: assigning to `__proto__` of a fresh object makes no property. */
    predicate IsLost() {
      IsUnsupported() || Proto?
    }

    /** Keywords whose value names a schema elsewhere. */
    predicate IsReference() {
      Ref? || DynamicRef? || RecursiveRef?
    }

    /** Keywords that read the annotations of their neighbours. */
    predicate IsUnevaluated() {
      UnevaluatedItems? || UnevaluatedProperties?
    }

    /** Keywords whose value maps names to schemas. */
    predicate IsSchemaMap() {
      Properties? || PatternProperties? || Defs? || Definitions?
    }

    /** Keywords whose value is a schema or an array of schemas. */
    predicate IsSchemaValue() {
      || Items? || PrefixItems? || AdditionalProperties? || AdditionalItems? || PropertyNames? || Contains?
      || AnyOf? || OneOf? || AllOf? || Not? || If? || Then? || Else?
    }
  }

  function Spelling(key: Key): string {
    match key
    case Minimum => "minimum" case Maximum => "maximum"
    case ExclusiveMinimum => "exclusiveMinimum" case ExclusiveMaximum => "exclusiveMaximum"
    case MultipleOf => "multipleOf" case MaxItems => "maxItems"
    case Properties => "properties" case PatternProperties => "patternProperties"
    case Defs => "$defs" case Definitions => "definitions"
    case Items => "items" case PrefixItems => "prefixItems"
    case AdditionalProperties => "additionalProperties" case AdditionalItems => "additionalItems"
    case PropertyNames => "propertyNames" case Contains => "contains"
    case AnyOf => "anyOf" case OneOf => "oneOf" case AllOf => "allOf"
    case Not => "not" case If => "if" case Then => "then" case Else => "else"
    case Ref => "$ref" case DynamicRef => "$dynamicRef" case RecursiveRef => "$recursiveRef" case Id => "$id"
    case MinContains => "minContains" case MaxContains => "maxContains"
    case UnevaluatedItems => "unevaluatedItems" case UnevaluatedProperties => "unevaluatedProperties"
    case Proto => "__proto__"
    case Other(name) => name
  }

  datatype Json =
    | Null
    | Bool(b: bool)
    | Num(n: real)
    | Str(s: string)
    | Arr(items: seq<Json>)
    | Obj(fields: map<Key, Json>)

  // ---------------------------------------------------------------- the scrub

  /** An array enumerated as an object: its indices become the names. */
  function Indexed(items: seq<Json>): (fields: map<Key, Json>)
    ensures forall name :: name in fields ==> fields[name] in items
  {
    if items == [] then map[] else Indexed(Front(items))[Other(Decimal(|items| - 1)) := Last(items)]
  }

  /** A deep copy without the unsupported keywords, at schema positions only, built by assignment. */
  function Scrub(schema: Json): Json
    decreases schema, 0
  {
    match schema
    case Arr(items) => Arr(seq(|items|, i requires 0 <= i < |items| => Scrub(items[i])))
    case Obj(fields) =>
      Obj(map key | key in fields && !key.IsLost() :: ScrubField(key, fields[key]))
    case _ => schema
  }

  /** An array under a schema map is copied as an object with its indices as names. */
  function ScrubField(key: Key, value: Json): Json
    decreases value, 1
  {
    if key.IsSchemaMap() && value.Obj? then
      Obj(map name | name in value.fields && name != Proto :: Scrub(value.fields[name]))
    else if key.IsSchemaMap() && value.Arr? then
      Obj(Indexed(seq(|value.items|, i requires 0 <= i < |value.items| => Scrub(value.items[i]))))
    else if key.IsSchemaValue() then Scrub(value)
    else value
  }

  // ---------------------------------------------------------------- shape: what is left

  /** No unsupported keyword at any schema position, no `__proto__` there, and every schema map an object. */
  ghost predicate Clean(schema: Json)
    decreases schema, 0
  {
    match schema
    case Arr(items) => forall i :: 0 <= i < |items| ==> Clean(items[i])
    case Obj(fields) => forall key :: key in fields ==> !key.IsLost() && CleanField(key, fields[key])
    case _ => true
  }

  ghost predicate CleanField(key: Key, value: Json)
    decreases value, 1
  {
    if key.IsSchemaMap() then
      && !value.Arr?
      && (value.Obj? ==> forall name :: name in value.fields ==> name != Proto && Clean(value.fields[name]))
    else key.IsSchemaValue() ==> Clean(value)
  }

  lemma {:induction false} ScrubCleans(schema: Json)
    ensures Clean(Scrub(schema))
    decreases schema, 0
  {
    match schema
    case Arr(items) =>
      forall i | 0 <= i < |items| ensures Clean(Scrub(items[i])) { ScrubCleans(items[i]); }
    case Obj(fields) =>
      forall key | key in fields ensures CleanField(key, ScrubField(key, fields[key])) {
        ScrubFieldCleans(key, fields[key]);
      }
    case _ =>
  }

  lemma {:induction false} ScrubFieldCleans(key: Key, value: Json)
    ensures CleanField(key, ScrubField(key, value))
    decreases value, 1
  {
    if key.IsSchemaMap() && value.Obj? {
      forall name | name in value.fields ensures Clean(Scrub(value.fields[name])) { ScrubCleans(value.fields[name]); }
      CleanNames(key, ScrubField(key, value));
    } else if key.IsSchemaMap() && value.Arr? {
      var copies := seq(|value.items|, i requires 0 <= i < |value.items| => Scrub(value.items[i]));
      forall i | 0 <= i < |copies| ensures Clean(copies[i]) { ScrubCleans(value.items[i]); }
      IndexedCleans(copies);
      CleanNames(key, Obj(Indexed(copies)));
    } else if key.IsSchemaValue() {
      ScrubCleans(value);
    }
  }

  lemma CleanNames(key: Key, names: Json)
    requires key.IsSchemaMap() && names.Obj?
    requires forall name :: name in names.fields ==> name != Proto && Clean(names.fields[name])
    ensures CleanField(key, names)
  {
  }

  lemma {:induction false} IndexedCleans(items: seq<Json>)
    requires forall i :: 0 <= i < |items| ==> Clean(items[i])
    ensures forall name :: name in Indexed(items) ==> name != Proto && Clean(Indexed(items)[name])
  {
    if items != [] { IndexedCleans(Front(items)); }
  }

  lemma {:induction false} CleanIsFixed(schema: Json)
    requires Clean(schema)
    ensures Scrub(schema) == schema
    decreases schema, 0
  {
    match schema
    case Arr(items) =>
      forall i | 0 <= i < |items| ensures Scrub(items[i]) == items[i] { CleanIsFixed(items[i]); }
    case Obj(fields) =>
      forall key | key in fields ensures ScrubField(key, fields[key]) == fields[key] {
        CleanFieldIsFixed(key, fields[key]);
      }
      assert Scrub(schema).fields == fields;
    case _ =>
  }

  lemma {:induction false} CleanFieldIsFixed(key: Key, value: Json)
    requires CleanField(key, value)
    ensures ScrubField(key, value) == value
    decreases value, 1
  {
    if key.IsSchemaMap() && value.Obj? {
      forall name | name in value.fields ensures Scrub(value.fields[name]) == value.fields[name] {
        CleanIsFixed(value.fields[name]);
      }
      assert ScrubField(key, value).fields == value.fields;
    } else if key.IsSchemaValue() {
      CleanIsFixed(value);
    }
  }

  /**
   The scrub removes the unsupported keywords and, at schema positions, keys
   and names spelled `__proto__`, and nothing else: its result has none of
   them, it is the identity exactly on such schemas, and so it is idempotent.
   */
  lemma ScrubIsExact(schema: Json)
    ensures Clean(Scrub(schema))
    ensures Scrub(schema) == schema <==> Clean(schema)
    ensures Scrub(Scrub(schema)) == Scrub(schema)
  {
    ScrubCleans(schema);
    CleanIsFixed(Scrub(schema));
    if Clean(schema) { CleanIsFixed(schema); }
  }

  // ---------------------------------------------------------------- positions in a document

  /** How the scrub treats a position: as a schema, as a map of names, copied as it is, or removed. */
  datatype Region = SchemaAt | NamesAt | CopiedAt | RemovedAt

  function KeyRegion(key: Key, value: Json): Region {
    if key.IsLost() then RemovedAt
    else if key.IsSchemaMap() && (value.Obj? || value.Arr?) then NamesAt
    else if key.IsSchemaValue() then SchemaAt
    else CopiedAt
  }

  function Child(j: Json, token: Key): Option<Json> {
    var fields := if j.Obj? then j.fields else if j.Arr? then Indexed(j.items) else map[];
    if token in fields then Some(fields[token]) else None
  }

  /** The region of a child. */
  function Below(region: Region, j: Json, token: Key): Region
    requires Child(j, token).Some?
  {
    match region
    case SchemaAt => if j.Arr? then SchemaAt else KeyRegion(token, j.fields[token])
    case NamesAt => if token == Proto then RemovedAt else SchemaAt
    case _ => region
  }

  /** A JSON pointer, token by token; array indices are tokens too. */
  type Path = seq<Key>

  function At(j: Json, path: Path): Option<Json>
    decreases |path|
  {
    if path == [] then Some(j)
    else
      var child := Child(j, path[0]);
      if child.None? then None else At(child.value, path[1..])
  }

  function RegionAt(region: Region, j: Json, path: Path): Region
    requires At(j, path).Some?
    decreases |path|
  {
    if path == [] then region
    else RegionAt(Below(region, j, path[0]), Child(j, path[0]).value, path[1..])
  }

  /** What the scrubbed document holds where the original holds `j`. */
  function CopyOf(region: Region, j: Json): Json {
    match region
    case SchemaAt => Scrub(j)
    case NamesAt => ScrubField(Properties, j)
    case _ => j
  }

  lemma {:induction false} IndexedCopy(items: seq<Json>, copies: seq<Json>, token: Key)
    requires |copies| == |items| && forall i :: 0 <= i < |items| ==> copies[i] == Scrub(items[i])
    ensures token in Indexed(copies) <==> token in Indexed(items)
    ensures token in Indexed(items) ==> Indexed(copies)[token] == Scrub(Indexed(items)[token])
  {
    if items != [] { IndexedCopy(Front(items), Front(copies), token); }
  }

  lemma ChildOfCopy(region: Region, j: Json, token: Key)
    requires !region.RemovedAt?
    ensures Child(CopyOf(region, j), token)
            == if Child(j, token).None? || Below(region, j, token).RemovedAt? then None
               else Some(CopyOf(Below(region, j, token), Child(j, token).value))
  {
    if j.Arr? && !region.CopiedAt? {
      IndexedChild(region, j, token);
    } else if j.Obj? && region.SchemaAt? {
      KeywordChild(j, token);
    } else if j.Obj? && region.NamesAt? {
      NamedChild(j, token);
    }
  }

  lemma IndexedChild(region: Region, j: Json, token: Key)
    requires j.Arr? && (region.SchemaAt? || region.NamesAt?)
    ensures Child(CopyOf(region, j), token)
            == if Child(j, token).None? then None else Some(Scrub(Child(j, token).value))
    ensures Child(j, token).Some? ==> Below(region, j, token) == SchemaAt
  {
    IndexedCopy(j.items, seq(|j.items|, i requires 0 <= i < |j.items| => Scrub(j.items[i])), token);
    IndexedNames(j.items);
  }

  lemma {:induction false} IndexedNames(items: seq<Json>)
    ensures Proto !in Indexed(items)
  {
    if items != [] { IndexedNames(Front(items)); }
  }

  lemma KeywordChild(j: Json, token: Key)
    requires j.Obj?
    ensures Child(Scrub(j), token)
            == if token !in j.fields || token.IsLost() then None
               else Some(CopyOf(KeyRegion(token, j.fields[token]), j.fields[token]))
  {
    if token in j.fields && !token.IsLost() {
      FieldCopy(token, j.fields[token]);
    }
  }

  lemma NamedChild(j: Json, token: Key)
    requires j.Obj?
    ensures Child(ScrubField(Properties, j), token)
            == if token !in j.fields || token == Proto then None else Some(Scrub(j.fields[token]))
  {
  }

  lemma FieldCopy(key: Key, value: Json)
    ensures !key.IsLost() ==> ScrubField(key, value) == CopyOf(KeyRegion(key, value), value)
  {
  }

  /** The scrub moves nothing: every position that is not removed holds the copy of what it held. */
  lemma {:induction false} ScrubMovesNothing(region: Region, j: Json, path: Path)
    requires !region.RemovedAt?
    ensures At(CopyOf(region, j), path)
            == if At(j, path).None? || RegionAt(region, j, path).RemovedAt? then None
               else Some(CopyOf(RegionAt(region, j, path), At(j, path).value))
    decreases |path|
  {
    if path != [] {
      ChildOfCopy(region, j, path[0]);
      var child := Child(j, path[0]);
      if child.Some? {
        if Below(region, j, path[0]).RemovedAt? {
          RemovedBelow(child.value, path[1..]);
        } else {
          ScrubMovesNothing(Below(region, j, path[0]), child.value, path[1..]);
        }
      }
    }
  }

  lemma {:induction false} RemovedBelow(j: Json, path: Path)
    ensures At(j, path).Some? ==> RegionAt(RemovedAt, j, path) == RemovedAt
    decreases |path|
  {
    if path != [] && Child(j, path[0]).Some? { RemovedBelow(Child(j, path[0]).value, path[1..]); }
  }

  lemma ScrubKeepsNames(schema: Json)
    requires schema.Obj? && Properties in schema.fields && schema.fields[Properties].Obj?
    ensures var scrubbed := Scrub(schema).fields;
            && Properties in scrubbed && scrubbed[Properties].Obj?
            && scrubbed[Properties].fields.Keys == schema.fields[Properties].fields.Keys - {Proto}
  {
  }

  /**
   At every schema position, properties keep their names, even ones spelled
   like an unsupported keyword, but for the one name `__proto__`: all names
   survive if and only if it is not among them.
   */
  lemma PropertyNamesSurvive(doc: Json, path: Path)
    requires At(doc, path).Some? && RegionAt(SchemaAt, doc, path) == SchemaAt
    requires At(doc, path).value.Obj? && Properties in At(doc, path).value.fields
    requires At(doc, path).value.fields[Properties].Obj?
    ensures At(Scrub(doc), path).Some? && At(Scrub(doc), path).value.Obj?
    ensures var before, after := At(doc, path).value.fields, At(Scrub(doc), path).value.fields;
            && Properties in after && after[Properties].Obj?
            && after[Properties].fields.Keys == before[Properties].fields.Keys - {Proto}
            && (after[Properties].fields.Keys == before[Properties].fields.Keys
                <==> Proto !in before[Properties].fields)
  {
    ScrubMovesNothing(SchemaAt, doc, path);
    ScrubKeepsNames(At(doc, path).value);
  }

  // ---------------------------------------------------------------- spelling

  /** A key that is not a keyword is not spelled like one, so every object key has one representation. */
  ghost predicate WellSpelled(key: Key) {
    key.Other? ==> forall k: Key :: !k.Other? ==> Spelling(k) != key.name
  }

  const NumericBounds: set<string> :=
    {"minimum", "maximum", "exclusiveMinimum", "exclusiveMaximum", "multipleOf", "maxItems"}
  const NameMaps: set<string> := {"properties", "patternProperties", "$defs", "definitions"}
  const Parts: set<string> :=
    {"items", "prefixItems", "additionalProperties", "additionalItems", "propertyNames", "contains"}
  const Choices: set<string> := {"anyOf", "oneOf", "allOf", "not", "if", "then", "else"}

  lemma OtherIsNoBound(key: Key)
    requires WellSpelled(key) && key.Other?
    ensures key.name !in NumericBounds
  {
    assert Spelling(Minimum) != key.name && Spelling(Maximum) != key.name && Spelling(ExclusiveMinimum) != key.name;
    assert Spelling(ExclusiveMaximum) != key.name && Spelling(MultipleOf) != key.name && Spelling(MaxItems) != key.name;
  }

  lemma OtherIsNoMap(key: Key)
    requires WellSpelled(key) && key.Other?
    ensures key.name !in NameMaps
  {
    assert Spelling(Properties) != key.name && Spelling(PatternProperties) != key.name;
    assert Spelling(Defs) != key.name && Spelling(Definitions) != key.name;
  }

  lemma OtherIsNoPart(key: Key)
    requires WellSpelled(key) && key.Other?
    ensures key.name !in Parts
  {
    assert Spelling(Items) != key.name && Spelling(PrefixItems) != key.name && Spelling(Contains) != key.name;
    assert Spelling(AdditionalProperties) != key.name && Spelling(AdditionalItems) != key.name;
    assert Spelling(PropertyNames) != key.name;
  }

  lemma OtherIsNoChoice(key: Key)
    requires WellSpelled(key) && key.Other?
    ensures key.name !in Choices
  {
    assert Spelling(AnyOf) != key.name && Spelling(OneOf) != key.name && Spelling(AllOf) != key.name;
    assert Spelling(Not) != key.name && Spelling(If) != key.name;
    assert Spelling(Then) != key.name && Spelling(Else) != key.name;
  }

  /** The three keyword tables, by spelling: what is dropped, what maps names to schemas, what holds schemas. */
  lemma KeywordTables(key: Key)
    requires WellSpelled(key)
    ensures key.IsUnsupported() <==> Spelling(key) in NumericBounds
    ensures key.IsSchemaMap() <==> Spelling(key) in NameMaps
    ensures key.IsSchemaValue() <==> Spelling(key) in Parts || Spelling(key) in Choices
  {
    if key.Other? {
      OtherIsNoBound(key);
      OtherIsNoMap(key);
      OtherIsNoPart(key);
      OtherIsNoChoice(key);
    }
  }

  ghost predicate WellFormed(j: Json) {
    match j
    case Arr(items) => forall i :: 0 <= i < |items| ==> WellFormed(items[i])
    case Obj(fields) => forall key :: key in fields ==> WellSpelled(key) && WellFormed(fields[key])
    case _ => true
  }

  lemma KeywordIsNoIndex(key: Key, n: nat)
    requires !key.Other?
    ensures Spelling(key) != Decimal(n)
  {
    assert !IsDigit(Spelling(key)[0]);
  }

  lemma IndexedWellFormed(items: seq<Json>)
    requires forall i :: 0 <= i < |items| ==> WellFormed(items[i])
    ensures WellFormed(Obj(Indexed(items)))
  {
    if items != [] {
      IndexedWellFormed(Front(items));
      forall k: Key | !k.Other? ensures Spelling(k) != Decimal(|items| - 1) { KeywordIsNoIndex(k, |items| - 1); }
    }
  }

  /** Documents as JSON text gives them are scrubbed into such documents. */
  lemma {:induction false} ScrubKeepsWellFormed(schema: Json)
    requires WellFormed(schema)
    ensures WellFormed(Scrub(schema))
    decreases schema, 0
  {
    match schema
    case Arr(items) =>
      forall i | 0 <= i < |items| ensures WellFormed(Scrub(items[i])) { ScrubKeepsWellFormed(items[i]); }
    case Obj(fields) =>
      forall key | key in fields ensures WellFormed(ScrubField(key, fields[key])) {
        ScrubFieldKeepsWellFormed(key, fields[key]);
      }
    case _ =>
  }

  lemma {:induction false} ScrubFieldKeepsWellFormed(key: Key, value: Json)
    requires WellFormed(value)
    ensures WellFormed(ScrubField(key, value))
    decreases value, 1
  {
    if key.IsSchemaMap() && value.Obj? {
      forall name | name in value.fields ensures WellFormed(Scrub(value.fields[name])) {
        ScrubKeepsWellFormed(value.fields[name]);
      }
    } else if key.IsSchemaMap() && value.Arr? {
      var copies := seq(|value.items|, i requires 0 <= i < |value.items| => Scrub(value.items[i]));
      forall i | 0 <= i < |copies| ensures WellFormed(copies[i]) { ScrubKeepsWellFormed(value.items[i]); }
      IndexedWellFormed(copies);
    } else if key.IsSchemaValue() {
      ScrubKeepsWellFormed(value);
    }
  }
}

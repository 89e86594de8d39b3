/**
 The allowlist projection of the trace exporter: which fields of an event
 reach the span event, under which attribute keys, and what the drop counter
 counts. Text is a sequence of UTF-16 code units; masking is any total
 function on texts; the allowlist is any allowlist.
 */
module PayloadProjection {
  import opened Prelude

  newtype CodeUnit = x: int | 0 <= x < 0x1_0000
  type Text = seq<CodeUnit>

  function Ascii(s: string): (t: Text)
    requires forall i :: 0 <= i < |s| ==> s[i] < 128 as char
    ensures |t| == |s|
  {
    seq(|s|, i requires 0 <= i < |s| => s[i] as int as CodeUnit)
  }

  /** Null stands for null and undefined; object fields keep their enumeration order. */
  datatype Value =
    | Null
    | Str(text: Text)
    | Num(n: real)
    | NonFinite
    | Bool(b: bool)
    | List(items: seq<Value>)
    | Obj(fields: seq<Field>)
  datatype Field = Field(name: Text, value: Value)

  /** An attribute key, or the allowlist of a nested record. */
  datatype Spec = Key(key: Text) | Record(allow: map<Text, Spec>)
  datatype Attr = TextAttr(text: Text) | NumAttr(n: real) | BoolAttr(b: bool)

  const MaxStringChars: nat := 256
  const MaxKeyChars: nat := 64
  const Star: Text := [42]
  const Dot: Text := [46]

  // ---------------------------------------------------------------- strings

  predicate HighSurrogate(u: CodeUnit) {
    0xd800 <= u <= 0xdbff
  }

  function Marker(n: nat): Text {
    Ascii(" [truncated ") + Ascii(Decimal(n)) + Ascii(" chars]")
  }

  /** What is kept of a text that is too long; never half a surrogate pair. */
  function Head(masked: Text): (head: Text)
    requires |masked| > MaxStringChars
    ensures head <= masked && MaxStringChars - 1 <= |head| <= MaxStringChars
    ensures |head| == MaxStringChars ==> !HighSurrogate(Last(head))
  {
    var cut := masked[..MaxStringChars];
    if HighSurrogate(Last(cut)) then Front(cut) else cut
  }

  /** Masks, then cuts; the flag reports an altered text. */
  function Bounded(mask: Text -> Text, text: Text): (Text, bool) {
    var masked := mask(text);
    if |masked| <= MaxStringChars then (masked, masked != text)
    else (Head(masked) + Marker(|masked| - |Head(masked)|), true)
  }

  /** A string that passes through as it is. */
  predicate Unaltered(mask: Text -> Text, text: Text) {
    mask(text) == text && |text| <= MaxStringChars
  }

  lemma {:induction false} DecimalIsShort(n: nat)
    ensures |Decimal(n)| <= n / 10 + 1
    ensures 10 <= n < 100 ==> |Decimal(n)| == 2
  {
    if n >= 10 {
      DecimalIsShort(n / 10);
    }
  }

  /** The marker is as long as the number it carries for exactly one number. */
  lemma MarkerFixpoint(n: nat)
    ensures |Marker(n)| == n <==> n == 21
  {
    DecimalIsShort(n);
    assert |Marker(n)| == 19 + |Decimal(n)|;
  }

  /** An over-long text that truncation reproduces. */
  ghost predicate LooksTruncated(text: Text) {
    |text| > MaxStringChars && text == Head(text) + Marker(21)
  }

  /** `text` is what truncating the over-long `masked` gives. */
  ghost predicate TruncatesTo(masked: Text, text: Text) {
    |masked| > MaxStringChars && text == Head(masked) + Marker(|masked| - |Head(masked)|)
  }

  /**
   The flag is raised exactly for texts that are masked or too long. An
   unraised flag means the text was exported as it is. A raised flag means it
   was not, except exactly for texts that already are the truncation of their
   over-long masked form: they come out unchanged and are still flagged. When
   masking leaves the text alone, these are the texts that look truncated.
   */
  lemma BoundedFlag(mask: Text -> Text, text: Text)
    ensures var (out, altered) := Bounded(mask, text);
            && (altered <==> !Unaltered(mask, text))
            && (!altered ==> out == text)
            && (altered && out == text <==> TruncatesTo(mask(text), text))
            && (mask(text) == text ==> (altered && out == text <==> LooksTruncated(text)))
  {
    if mask(text) == text && |text| > MaxStringChars {
      var head := Head(text);
      var n := |text| - |head|;
      MarkerFixpoint(n);
      MarkerFixpoint(21);
      assert text == head + text[|head|..];
      if head + Marker(n) == text {
        assert |head| + |Marker(n)| == |text|;
      }
      if LooksTruncated(text) {
        assert n == |Marker(21)|;
      }
    }
  }

  lemma SomeTextLooksTruncated()
    ensures LooksTruncated(seq(256, _ => 97) + Marker(21))
  {
    var head: Text := seq(256, _ => 97);
    assert (head + Marker(21))[..256] == head;
  }

  /** A text that masking changes can come out unchanged too: the masker undoes what the cut did. */
  lemma MaskedTextCanComeOutUnchanged()
    ensures var head: Text, tail: Text := seq(256, _ => 97), seq(30, _ => 98);
            var text := head + Marker(30);
            var mask := (t: Text) => head + tail;
            && mask(text) != text && Bounded(mask, text) == (text, true) && !LooksTruncated(text)
  {
    var head: Text, tail: Text := seq(256, _ => 97), seq(30, _ => 98);
    var text := head + Marker(30);
    assert (head + tail)[..256] == head && Head(head + tail) == head;
    assert text[..256] == head && Head(text) == head;
    DecimalIsShort(30);
    DecimalIsShort(21);
    assert |Marker(30)| == 21 && |text| == 277;
    assert Decimal(30) == "30" && Decimal(21) == "21";
    assert text[256..] == Marker(30) && Marker(30)[12] == 51 && Marker(21)[12] == 50;
  }

  // ---------------------------------------------------------------- the allowlist

  type Allow = map<Text, Spec>

  /** The spec of one field: its own entry, else the wildcard's prefix when the name is short enough. */
  function Find(allow: Allow, name: Text): Option<Spec> {
    if name in allow then Some(allow[name])
    else if Star in allow && allow[Star].Key? && |name| <= MaxKeyChars then Some(Key(allow[Star].key + Dot + name))
    else None
  }

  /** The prefix under which a record allowlist exports a bare value. */
  function Bare(allow: Allow): Option<Text> {
    if Star in allow && allow[Star].Key? then Some(allow[Star].key) else None
  }

  /** A non-empty chain of field names. */
  datatype Path = Path(first: Text, rest: seq<Text>)

  /** The attribute key the allowlist gives to a path, whatever the event holds there. */
  function Target(allow: Allow, skip: set<Text>, path: Path): Option<Text>
    decreases |path.rest|
  {
    if path.first in skip then None
    else
      match Find(allow, path.first)
      case None => None
      case Some(Key(key)) => if path.rest == [] then Some(key) else None
      case Some(Record(inner)) =>
        if path.rest == [] then Bare(inner) else Target(inner, {}, Path(path.rest[0], path.rest[1..]))
  }

  predicate Exportable(v: Value) {
    v.Str? || v.Num? || v.Bool?
  }

  function AttrOf(mask: Text -> Text, v: Value): Attr
    requires Exportable(v)
  {
    match v
    case Str(text) => TextAttr(Bounded(mask, text).0)
    case Num(n) => NumAttr(n)
    case Bool(b) => BoolAttr(b)
  }

  // ---------------------------------------------------------------- what an event holds

  datatype Leaf = Leaf(path: Path, value: Value)

  function Under(name: Text, leaves: seq<Leaf>): seq<Leaf> {
    if leaves == [] then []
    else
      var leaf := Last(leaves);
      Under(name, Front(leaves)) + [Leaf(Path(name, [leaf.path.first] + leaf.path.rest), leaf.value)]
  }

  /** Every value in the first `n` fields that is not itself an object, with its path. */
  function Leaves(v: Value, n: nat): seq<Leaf>
    requires v.Obj? && n <= |v.fields|
    decreases v, n
  {
    if n == 0 then [] else Leaves(v, n - 1) + LeavesAt(v, n - 1)
  }

  function LeavesAt(v: Value, i: nat): seq<Leaf>
    requires v.Obj? && i < |v.fields|
    decreases v, i
  {
    var f := v.fields[i];
    if f.value.Obj? then Under(f.name, Leaves(f.value, |f.value.fields|)) else [Leaf(Path(f.name, []), f.value)]
  }

  /** The fields the walk decides on: it goes into an object only where the allowlist has a record for it. */
  function Visited(v: Value, n: nat, allow: Allow, skip: set<Text>): seq<Leaf>
    requires v.Obj? && n <= |v.fields|
    decreases v, n
  {
    if n == 0 then [] else Visited(v, n - 1, allow, skip) + Visits(v, n - 1, allow, skip)
  }

  /** The fields decided on at, or inside, field `i`. */
  function Visits(v: Value, i: nat, allow: Allow, skip: set<Text>): seq<Leaf>
    requires v.Obj? && i < |v.fields|
    decreases v, i
  {
    var f := v.fields[i];
    if f.name in skip || f.value.Null? then []
    else
      match Find(allow, f.name)
      case Some(Record(inner)) =>
        if f.value.Obj? then Under(f.name, Visited(f.value, |f.value.fields|, inner, {}))
        else [Leaf(Path(f.name, []), f.value)]
      case _ => [Leaf(Path(f.name, []), f.value)]
  }

  // ---------------------------------------------------------------- what leaves the process

  datatype Export = Export(key: Text, value: Value)

  /** The exportable leaves that the allowlist gives a key, in order. */
  function Exports(allow: Allow, skip: set<Text>, leaves: seq<Leaf>): seq<Export> {
    if leaves == [] then []
    else
      var leaf := Last(leaves);
      var key := Target(allow, skip, leaf.path);
      Exports(allow, skip, Front(leaves))
      + if key.Some? && Exportable(leaf.value) then [Export(key.value, leaf.value)] else []
  }

  function PutAll(mask: Text -> Text, attrs: map<Text, Attr>, exports: seq<Export>): map<Text, Attr> {
    if exports == [] then attrs
    else
      var e := Last(exports);
      var before := PutAll(mask, attrs, Front(exports));
      if Exportable(e.value) then before[e.key := AttrOf(mask, e.value)] else before
  }

  /** The value is exported as it is, given a key. */
  predicate AsItIs(mask: Text -> Text, v: Value) {
    Exportable(v) && (v.Str? ==> Unaltered(mask, v.text))
  }

  /** The leaf has a key and is exported as it is. */
  predicate Verbatim(mask: Text -> Text, allow: Allow, skip: set<Text>, leaf: Leaf) {
    Target(allow, skip, leaf.path).Some? && AsItIs(mask, leaf.value)
  }

  function Drops(mask: Text -> Text, allow: Allow, skip: set<Text>, leaves: seq<Leaf>): nat {
    if leaves == [] then 0
    else Drops(mask, allow, skip, Front(leaves)) + if Verbatim(mask, allow, skip, Last(leaves)) then 0 else 1
  }

  lemma {:induction false} ExportsConcat(allow: Allow, skip: set<Text>, a: seq<Leaf>, b: seq<Leaf>)
    ensures Exports(allow, skip, a + b) == Exports(allow, skip, a) + Exports(allow, skip, b)
  {
    if b == [] {
      assert a + b == a;
    } else {
      assert Front(a + b) == a + Front(b) && Last(a + b) == Last(b);
      ExportsConcat(allow, skip, a, Front(b));
    }
  }

  lemma {:induction false} DropsConcat(mask: Text -> Text, allow: Allow, skip: set<Text>, a: seq<Leaf>, b: seq<Leaf>)
    ensures Drops(mask, allow, skip, a + b) == Drops(mask, allow, skip, a) + Drops(mask, allow, skip, b)
  {
    if b == [] {
      assert a + b == a;
    } else {
      assert Front(a + b) == a + Front(b) && Last(a + b) == Last(b);
      DropsConcat(mask, allow, skip, a, Front(b));
    }
  }

  lemma {:induction false} PutConcat(mask: Text -> Text, attrs: map<Text, Attr>, a: seq<Export>, b: seq<Export>)
    ensures PutAll(mask, attrs, a + b) == PutAll(mask, PutAll(mask, attrs, a), b)
  {
    if b == [] {
      assert a + b == a;
    } else {
      assert Front(a + b) == a + Front(b) && Last(a + b) == Last(b);
      PutConcat(mask, attrs, a, Front(b));
    }
  }

  /** Inside a record, paths are judged by the record's own allowlist. */
  lemma {:induction false} UnderRecord(mask: Text -> Text, allow: Allow, skip: set<Text>, name: Text, leaves: seq<Leaf>)
    requires name !in skip
    requires Find(allow, name).Some? && Find(allow, name).value.Record?
    ensures var inner := Find(allow, name).value.allow;
            && Exports(allow, skip, Under(name, leaves)) == Exports(inner, {}, leaves)
            && Drops(mask, allow, skip, Under(name, leaves)) == Drops(mask, inner, {}, leaves)
  {
    if leaves != [] {
      assert Front(Under(name, leaves)) == Under(name, Front(leaves));
      UnderRecord(mask, allow, skip, name, Front(leaves));
      var path := Last(leaves).path;
      assert ([path.first] + path.rest)[1..] == path.rest;
    }
  }

  /** Below a field that is skipped, unlisted or listed as a single attribute, nothing has a key. */
  lemma {:induction false} UnderNothing(allow: Allow, skip: set<Text>, name: Text, leaves: seq<Leaf>)
    requires name in skip || Find(allow, name).None? || Find(allow, name).value.Key?
    ensures Exports(allow, skip, Under(name, leaves)) == []
  {
    if leaves != [] {
      assert Front(Under(name, leaves)) == Under(name, Front(leaves));
      UnderNothing(allow, skip, name, Front(leaves));
    }
  }

  lemma ExportsOne(allow: Allow, skip: set<Text>, leaf: Leaf)
    ensures Exports(allow, skip, [leaf])
            == if Target(allow, skip, leaf.path).Some? && Exportable(leaf.value)
               then [Export(Target(allow, skip, leaf.path).value, leaf.value)] else []
    ensures forall mask: Text -> Text ::
              Drops(mask, allow, skip, [leaf]) == if Verbatim(mask, allow, skip, leaf) then 0 else 1
  {
    assert Front([leaf]) == [];
  }

  predicate Descends(allow: Allow, f: Field) {
    f.value.Obj? && Find(allow, f.name).Some? && Find(allow, f.name).value.Record?
  }

  lemma SameExports(allow: Allow, skip: set<Text>, a: seq<Leaf>, b: seq<Leaf>, c: seq<Leaf>, d: seq<Leaf>)
    requires Exports(allow, skip, a) == Exports(allow, skip, c)
    requires Exports(allow, skip, b) == Exports(allow, skip, d)
    ensures Exports(allow, skip, a + b) == Exports(allow, skip, c + d)
  {
    ExportsConcat(allow, skip, a, b);
    ExportsConcat(allow, skip, c, d);
  }

  lemma FieldSeesAllListed(v: Value, i: nat, allow: Allow, skip: set<Text>)
    requires v.Obj? && i < |v.fields|
    ensures Exports(allow, skip, Visits(v, i, allow, skip)) == Exports(allow, skip, LeavesAt(v, i))
    decreases v, i
  {
    var f := v.fields[i];
    if f.value.Obj? {
      RecordSeesAllListed(f, allow, skip);
    } else {
      ExportsOne(allow, skip, Leaf(Path(f.name, []), f.value));
    }
  }

  /** An object field: walked into where the allowlist has a record, and without exports elsewhere. */
  lemma RecordSeesAllListed(f: Field, allow: Allow, skip: set<Text>)
    requires f.value.Obj?
    ensures var n := |f.value.fields|;
            var leaves := Under(f.name, Leaves(f.value, n));
            if f.name !in skip && Descends(allow, f) then
              Exports(allow, skip, Under(f.name, Visited(f.value, n, Find(allow, f.name).value.allow, {})))
              == Exports(allow, skip, leaves)
            else Exports(allow, skip, leaves) == [] && Exports(allow, skip, [Leaf(Path(f.name, []), f.value)]) == []
    decreases f
  {
    var n := |f.value.fields|;
    if f.name !in skip && Descends(allow, f) {
      var inner := Find(allow, f.name).value.allow;
      WalkSeesAllListed(f.value, n, inner, {});
      UnderRecord(x => x, allow, skip, f.name, Leaves(f.value, n));
      UnderRecord(x => x, allow, skip, f.name, Visited(f.value, n, inner, {}));
    } else {
      UnderNothing(allow, skip, f.name, Leaves(f.value, n));
      ExportsOne(allow, skip, Leaf(Path(f.name, []), f.value));
    }
  }

  /** The walk exports exactly what the allowlist says of all the event's leaves, independently of the walk. */
  lemma {:induction false} WalkSeesAllListed(v: Value, n: nat, allow: Allow, skip: set<Text>)
    requires v.Obj? && n <= |v.fields|
    ensures Exports(allow, skip, Visited(v, n, allow, skip)) == Exports(allow, skip, Leaves(v, n))
    decreases v, n
  {
    if n > 0 {
      WalkSeesAllListed(v, n - 1, allow, skip);
      FieldSeesAllListed(v, n - 1, allow, skip);
      SameExports(allow, skip, Visited(v, n - 1, allow, skip), Visits(v, n - 1, allow, skip),
                  Leaves(v, n - 1), LeavesAt(v, n - 1));
    }
  }

  // ---------------------------------------------------------------- the accumulator

  lemma WalkConcat(
      mask: Text -> Text, attrs: map<Text, Attr>, allow: Allow, skip: set<Text>, a: seq<Leaf>, b: seq<Leaf>)
    ensures PutAll(mask, attrs, Exports(allow, skip, a + b))
            == PutAll(mask, PutAll(mask, attrs, Exports(allow, skip, a)), Exports(allow, skip, b))
    ensures Drops(mask, allow, skip, a + b) == Drops(mask, allow, skip, a) + Drops(mask, allow, skip, b)
  {
    ExportsConcat(allow, skip, a, b);
    DropsConcat(mask, allow, skip, a, b);
    PutConcat(mask, attrs, Exports(allow, skip, a), Exports(allow, skip, b));
  }

  /** The key of a field that is not walked into. */
  function DirectKey(spec: Option<Spec>): Option<Text> {
    match spec
    case None => None
    case Some(Key(key)) => Some(key)
    case Some(Record(inner)) => Bare(inner)
  }

  predicate Heeded(skip: set<Text>, f: Field) {
    f.name !in skip && !f.value.Null?
  }

  lemma RecordVisits(mask: Text -> Text, source: Value, i: nat, allow: Allow, skip: set<Text>)
    requires source.Obj? && i < |source.fields|
    requires Heeded(skip, source.fields[i]) && Descends(allow, source.fields[i])
    ensures var f := source.fields[i];
            var inner := Find(allow, f.name).value.allow;
            var inside, visits := Visited(f.value, |f.value.fields|, inner, {}), Visits(source, i, allow, skip);
            && Exports(allow, skip, visits) == Exports(inner, {}, inside)
            && Drops(mask, allow, skip, visits) == Drops(mask, inner, {}, inside)
  {
    var f := source.fields[i];
    UnderRecord(mask, allow, skip, f.name, Visited(f.value, |f.value.fields|, Find(allow, f.name).value.allow, {}));
  }

  lemma LeafVisits(mask: Text -> Text, attrs: map<Text, Attr>, source: Value, i: nat, allow: Allow, skip: set<Text>)
    requires source.Obj? && i < |source.fields|
    requires Heeded(skip, source.fields[i]) && !Descends(allow, source.fields[i])
    ensures var key, v := DirectKey(Find(allow, source.fields[i].name)), source.fields[i].value;
            && PutAll(mask, attrs, Exports(allow, skip, Visits(source, i, allow, skip)))
               == (if key.Some? && Exportable(v) then attrs[key.value := AttrOf(mask, v)] else attrs)
            && Drops(mask, allow, skip, Visits(source, i, allow, skip))
               == (if key.Some? && AsItIs(mask, v) then 0 else 1)
  {
    var leaf := Leaf(Path(source.fields[i].name, []), source.fields[i].value);
    assert Visits(source, i, allow, skip) == [leaf];
    ExportsOne(allow, skip, leaf);
    var key := Target(allow, skip, leaf.path);
    if key.Some? && Exportable(leaf.value) {
      assert Front([Export(key.value, leaf.value)]) == [];
    }
  }

  class Projection {
    var attrs: map<Text, Attr>
    var dropped: nat

    constructor (attrs: map<Text, Attr>)
      ensures this.attrs == attrs && dropped == 0
    {
      this.attrs, dropped := attrs, 0;
    }

    /** Exports one leaf under one key; says whether the value has an attribute shape. */
    method ProjectLeaf(mask: Text -> Text, key: Text, value: Value) returns (exported: bool)
      modifies this
      ensures exported == Exportable(value)
      ensures attrs == if exported then old(attrs)[key := AttrOf(mask, value)] else old(attrs)
      ensures dropped == old(dropped) + (if value.Str? && !Unaltered(mask, value.text) then 1 else 0)
    {
      match value
      case Str(text) =>
        BoundedFlag(mask, text);
        var (out, altered) := Bounded(mask, text);
        attrs := attrs[key := TextAttr(out)];
        if altered {
          dropped := dropped + 1;
        }
        return true;
      case Num(n) =>
        attrs := attrs[key := NumAttr(n)];
        return true;
      case Bool(b) =>
        attrs := attrs[key := BoolAttr(b)];
        return true;
      case _ =>
        return false;
    }

    /** Walks one object level against its allowlist. */
    method ProjectFields(mask: Text -> Text, source: Value, allow: Allow, skip: set<Text>)
      requires source.Obj?
      modifies this
      ensures attrs == PutAll(mask, old(attrs), Exports(allow, skip, Visited(source, |source.fields|, allow, skip)))
      ensures dropped == old(dropped) + Drops(mask, allow, skip, Visited(source, |source.fields|, allow, skip))
      decreases source
    {
      for i := 0 to |source.fields|
        invariant attrs == PutAll(mask, old(attrs), Exports(allow, skip, Visited(source, i, allow, skip)))
        invariant dropped == old(dropped) + Drops(mask, allow, skip, Visited(source, i, allow, skip))
      {
        WalkConcat(mask, old(attrs), allow, skip, Visited(source, i, allow, skip), Visits(source, i, allow, skip));
        ProjectField(mask, source, i, allow, skip);
      }
    }

    /** One field of the level. */
    method ProjectField(mask: Text -> Text, source: Value, i: nat, allow: Allow, skip: set<Text>)
      requires source.Obj? && i < |source.fields|
      modifies this
      ensures attrs == PutAll(mask, old(attrs), Exports(allow, skip, Visits(source, i, allow, skip)))
      ensures dropped == old(dropped) + Drops(mask, allow, skip, Visits(source, i, allow, skip))
      decreases source, i
    {
      var field, value := source.fields[i].name, source.fields[i].value;
      if field in skip || value.Null? {
        return;
      }
      var spec := Find(allow, field);
      if spec.Some? && spec.value.Record? && value.Obj? {
        RecordVisits(mask, source, i, allow, skip);
        ProjectFields(mask, value, spec.value.allow, {});
        return;
      }
      LeafVisits(mask, attrs, source, i, allow, skip);
      ExportField(mask, DirectKey(spec), value);
    }

    /** A field that is not walked into: exported under its key if it has one and can be, counted unless as it is. */
    method ExportField(mask: Text -> Text, key: Option<Text>, value: Value)
      modifies this
      ensures attrs == if key.Some? && Exportable(value) then old(attrs)[key.value := AttrOf(mask, value)]
                       else old(attrs)
      ensures dropped == old(dropped) + if key.Some? && AsItIs(mask, value) then 0 else 1
    {
      var exported := false;
      if key.Some? {
        exported := ProjectLeaf(mask, key.value, value);
      }
      if !exported {
        dropped := dropped + 1;
      }
    }
  }

  // ---------------------------------------------------------------- the attributes of an event

  const EntrySeq: Text := Ascii("rulvar.entry_seq")
  const AttrsDropped: Text := Ascii("rulvar.attrs_dropped")
  const EnvelopeFields: set<Text> :=
    {Ascii("runId"), Ascii("seq"), Ascii("ts"), Ascii("spanId"), Ascii("parentSpanId"), Ascii("replayed"),
     Ascii("type")}

  /** The exported attributes, before the counter is added. */
  function Payload(mask: Text -> Text, allow: Allow, seqNo: real, event: Value): map<Text, Attr>
    requires event.Obj?
  {
    PutAll(mask, map[EntrySeq := NumAttr(seqNo)], Exports(allow, EnvelopeFields, Leaves(event, |event.fields|)))
  }

  /** The visited fields that were not exported as they are. */
  function DropCount(mask: Text -> Text, allow: Allow, event: Value): nat
    requires event.Obj?
  {
    Drops(mask, allow, EnvelopeFields, Visited(event, |event.fields|, allow, EnvelopeFields))
  }

  /** `allow` is the allowlist of the event's type, absent for a type nobody listed. */
  method PayloadAttributes(mask: Text -> Text, allow: Option<Allow>, seqNo: real, event: Value)
    returns (attrs: map<Text, Attr>)
    requires event.Obj?
    ensures allow.None? ==> attrs == map[EntrySeq := NumAttr(seqNo)]
    ensures allow.Some? ==>
              var payload, drops := Payload(mask, allow.value, seqNo, event), DropCount(mask, allow.value, event);
              attrs == if drops > 0 then payload[AttrsDropped := NumAttr(drops as real)] else payload
  {
    if allow.None? {
      return map[EntrySeq := NumAttr(seqNo)];
    }
    var projection := new Projection(map[EntrySeq := NumAttr(seqNo)]);
    projection.ProjectFields(mask, event, allow.value, EnvelopeFields);
    WalkSeesAllListed(event, |event.fields|, allow.value, EnvelopeFields);
    attrs := projection.attrs;
    if projection.dropped > 0 {
      attrs := attrs[AttrsDropped := NumAttr(projection.dropped as real)];
    }
  }

  // ---------------------------------------------------------------- no leak

  /** What the event holds at paths the allowlist names. */
  function Listed(allow: Allow, skip: set<Text>, leaves: seq<Leaf>): seq<Leaf> {
    if leaves == [] then []
    else if Target(allow, skip, Last(leaves).path).Some? then Listed(allow, skip, Front(leaves)) + [Last(leaves)]
    else Listed(allow, skip, Front(leaves))
  }

  lemma {:induction false} ExportsOfListed(allow: Allow, skip: set<Text>, leaves: seq<Leaf>)
    ensures Exports(allow, skip, Listed(allow, skip, leaves)) == Exports(allow, skip, leaves)
  {
    if leaves != [] {
      var front, leaf := Front(leaves), Last(leaves);
      ExportsOfListed(allow, skip, front);
      if Target(allow, skip, leaf.path).Some? {
        ExportsConcat(allow, skip, Listed(allow, skip, front), [leaf]);
        ExportsConcat(allow, skip, front, [leaf]);
        assert leaves == front + [leaf];
      } else {
        var before := Exports(allow, skip, front);
        assert Exports(allow, skip, leaves) == before + [] == before;
      }
    }
  }

  /**
   Two events that hold the same at the allowlisted paths export the same
   attributes, whatever else they hold, at any depth; only the counter can
   differ.
   */
  lemma NoLeak(mask: Text -> Text, allow: Allow, seqNo: real, event: Value, event': Value)
    requires event.Obj? && event'.Obj?
    requires Listed(allow, EnvelopeFields, Leaves(event, |event.fields|))
             == Listed(allow, EnvelopeFields, Leaves(event', |event'.fields|))
    ensures Payload(mask, allow, seqNo, event) == Payload(mask, allow, seqNo, event')
  {
    ExportsOfListed(allow, EnvelopeFields, Leaves(event, |event.fields|));
    ExportsOfListed(allow, EnvelopeFields, Leaves(event', |event'.fields|));
  }
}

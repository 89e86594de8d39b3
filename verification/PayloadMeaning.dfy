/**
 What the exported attributes of an event say, without the walk that makes
 them: text leaves the process only as its mask, the attributes are exactly the
 listed leaves, and the counter is the number of fields, at any depth, that the
 allowlist decides on and that do not come out as they are.
 */
module PayloadMeaning {
  import opened Prelude
  import opened PayloadProjection

  // ---------------------------------------------------------------- text leaves masked

  /** `out` shows the masked text: all of it, or its first units and the count of the rest, no pair split. */
  ghost predicate Conveys(masked: Text, out: Text) {
    if |masked| <= 256 then out == masked
    else
      var kept := if HighSurrogate(masked[255]) then 255 else 256;
      out == masked[..kept] + Ascii(" [truncated ") + Ascii(Decimal(|masked| - kept)) + Ascii(" chars]")
  }

  /** What is exported of a text is what its mask conveys, whatever the text was. */
  lemma TextLeavesMasked(mask: Text -> Text, text: Text)
    ensures Conveys(mask(text), Bounded(mask, text).0)
  {
    var masked := mask(text);
    if |masked| > 256 {
      var head := Head(masked);
      assert head == masked[..|head|];
      assert masked[..256][255] == masked[255] && Front(masked[..256]) == masked[..255];
    }
  }

  /** The same value, or texts with the same mask. */
  predicate SameMasked(mask: Text -> Text, v: Value, v': Value) {
    v == v' || (v.Str? && v'.Str? && mask(v.text) == mask(v'.text))
  }

  predicate SameLeaves(mask: Text -> Text, a: seq<Leaf>, b: seq<Leaf>) {
    |a| == |b| && forall i :: 0 <= i < |a| ==> a[i].path == b[i].path && SameMasked(mask, a[i].value, b[i].value)
  }

  predicate SameExported(mask: Text -> Text, a: seq<Export>, b: seq<Export>) {
    |a| == |b| && forall i :: 0 <= i < |a| ==> a[i].key == b[i].key && SameMasked(mask, a[i].value, b[i].value)
  }

  lemma SameMaskSameAttr(mask: Text -> Text, v: Value, v': Value)
    requires SameMasked(mask, v, v')
    ensures Exportable(v) <==> Exportable(v')
    ensures Exportable(v) ==> AttrOf(mask, v) == AttrOf(mask, v')
  {
    if v.Str? && v'.Str? {
      TextLeavesMasked(mask, v.text);
      TextLeavesMasked(mask, v'.text);
    }
  }

  lemma {:induction false} SameMaskSamePut(mask: Text -> Text, attrs: map<Text, Attr>, a: seq<Export>, b: seq<Export>)
    requires SameExported(mask, a, b)
    ensures PutAll(mask, attrs, a) == PutAll(mask, attrs, b)
  {
    if a != [] {
      SameMaskSamePut(mask, attrs, Front(a), Front(b));
      SameMaskSameAttr(mask, Last(a).value, Last(b).value);
    }
  }

  lemma {:induction false} SameMaskSameExports(
      mask: Text -> Text, allow: Allow, skip: set<Text>, a: seq<Leaf>, b: seq<Leaf>)
    requires SameLeaves(mask, a, b)
    ensures SameExported(mask, Exports(allow, skip, a), Exports(allow, skip, b))
  {
    if a != [] {
      SameMaskSameExports(mask, allow, skip, Front(a), Front(b));
      SameMaskSameAttr(mask, Last(a).value, Last(b).value);
    }
  }

  /**
   Two events that agree at the allowlisted paths up to masking export the same
   attributes: nothing of a text but its mask leaves the process.
   */
  lemma NoUnmaskedText(mask: Text -> Text, allow: Allow, seqNo: real, event: Value, event': Value)
    requires event.Obj? && event'.Obj?
    requires SameLeaves(mask, Listed(allow, EnvelopeFields, Leaves(event, |event.fields|)),
                        Listed(allow, EnvelopeFields, Leaves(event', |event'.fields|)))
    ensures Payload(mask, allow, seqNo, event) == Payload(mask, allow, seqNo, event')
  {
    var a, b := Leaves(event, |event.fields|), Leaves(event', |event'.fields|);
    ExportsOfListed(allow, EnvelopeFields, a);
    ExportsOfListed(allow, EnvelopeFields, b);
    SameMaskSameExports(mask, allow, EnvelopeFields, Listed(allow, EnvelopeFields, a),
                        Listed(allow, EnvelopeFields, b));
    SameMaskSamePut(mask, map[EntrySeq := NumAttr(seqNo)], Exports(allow, EnvelopeFields, a),
                    Exports(allow, EnvelopeFields, b));
  }

  // ---------------------------------------------------------------- the attributes, by leaf

  /** The attribute shows the value. */
  ghost predicate Shows(mask: Text -> Text, v: Value, attr: Attr) {
    match v
    case Str(text) => attr.TextAttr? && Conveys(mask(text), attr.text)
    case Num(n) => attr == NumAttr(n)
    case Bool(b) => attr == BoolAttr(b)
    case _ => false
  }

  /** Leaf `i` has the key and a shape of its own. */
  predicate Gives(allow: Allow, leaves: seq<Leaf>, i: nat, key: Text)
    requires i < |leaves|
  {
    Target(allow, EnvelopeFields, leaves[i].path) == Some(key)
    && (leaves[i].value.Str? || leaves[i].value.Num? || leaves[i].value.Bool?)
  }

  /** The last leaf that has the key. */
  ghost predicate GivesLast(allow: Allow, leaves: seq<Leaf>, i: nat, key: Text) {
    i < |leaves| && Gives(allow, leaves, i, key) && forall j :: i < j < |leaves| ==> !Gives(allow, leaves, j, key)
  }

  /** After the leaves, the key shows the last leaf that gives it; without one it is as before. */
  ghost predicate KeyShows(mask: Text -> Text, allow: Allow, leaves: seq<Leaf>, before: map<Text, Attr>,
                           after: map<Text, Attr>, key: Text) {
    && (forall i: nat :: GivesLast(allow, leaves, i, key) ==> key in after && Shows(mask, leaves[i].value, after[key]))
    && ((forall i :: 0 <= i < |leaves| ==> !Gives(allow, leaves, i, key)) ==>
          (key in after <==> key in before) && (key in before ==> after[key] == before[key]))
  }

  lemma {:induction false} LeavesShow(
      mask: Text -> Text, allow: Allow, leaves: seq<Leaf>, before: map<Text, Attr>, key: Text)
    ensures KeyShows(mask, allow, leaves, before, PutAll(mask, before, Exports(allow, EnvelopeFields, leaves)), key)
  {
    if leaves != [] {
      LeavesShow(mask, allow, Front(leaves), before, key);
      var mid := PutAll(mask, before, Exports(allow, EnvelopeFields, Front(leaves)));
      OneMoreLeaf(mask, allow, leaves, before);
      LeafShows(mask, allow, Last(leaves), mid);
      var after := PutAll(mask, before, Exports(allow, EnvelopeFields, leaves));
      KeyShowsOneMore(mask, allow, leaves, before, mid, after, key);
    }
  }

  /** What one leaf adds to the attributes. */
  function Plus(mask: Text -> Text, allow: Allow, leaf: Leaf, attrs: map<Text, Attr>): map<Text, Attr> {
    var key := Target(allow, EnvelopeFields, leaf.path);
    if key.Some? && Exportable(leaf.value) then attrs[key.value := AttrOf(mask, leaf.value)] else attrs
  }

  lemma OneMoreLeaf(mask: Text -> Text, allow: Allow, leaves: seq<Leaf>, before: map<Text, Attr>)
    requires leaves != []
    ensures PutAll(mask, before, Exports(allow, EnvelopeFields, leaves))
            == Plus(mask, allow, Last(leaves), PutAll(mask, before, Exports(allow, EnvelopeFields, Front(leaves))))
  {
    var exports, key := Exports(allow, EnvelopeFields, Front(leaves)), Target(allow, EnvelopeFields, Last(leaves).path);
    if key.Some? && Exportable(Last(leaves).value) {
      var one := Export(key.value, Last(leaves).value);
      assert Front(exports + [one]) == exports && Last(exports + [one]) == one;
    } else {
      assert exports + [] == exports;
    }
  }

  lemma LeafShows(mask: Text -> Text, allow: Allow, leaf: Leaf, attrs: map<Text, Attr>)
    ensures var key, after := Target(allow, EnvelopeFields, leaf.path), Plus(mask, allow, leaf, attrs);
            if key.Some? && Exportable(leaf.value)
            then after.Keys == attrs.Keys + {key.value} && Shows(mask, leaf.value, after[key.value])
                 && forall k :: k in attrs && k != key.value ==> after[k] == attrs[k]
            else after == attrs
  {
    if leaf.value.Str? {
      TextLeavesMasked(mask, leaf.value.text);
    }
  }

  lemma KeyShowsOneMore(mask: Text -> Text, allow: Allow, leaves: seq<Leaf>, before: map<Text, Attr>,
                        mid: map<Text, Attr>, after: map<Text, Attr>, key: Text)
    requires leaves != [] && KeyShows(mask, allow, Front(leaves), before, mid, key)
    requires if Gives(allow, leaves, |leaves| - 1, key) then key in after && Shows(mask, Last(leaves).value, after[key])
             else (key in after <==> key in mid) && (key in mid ==> after[key] == mid[key])
    ensures KeyShows(mask, allow, leaves, before, after, key)
  {
    var front, n := Front(leaves), |leaves| - 1;
    assert forall i :: 0 <= i < n ==> front[i] == leaves[i];
    assert forall i :: 0 <= i < n ==> (Gives(allow, front, i, key) <==> Gives(allow, leaves, i, key));
    forall i: nat | GivesLast(allow, leaves, i, key) ensures key in after && Shows(mask, leaves[i].value, after[key]) {
      if i < n {
        assert !Gives(allow, leaves, n, key);
        assert GivesLast(allow, front, i, key);
      }
    }
  }

  /**
   Key by key, the exported attributes are the leaves to whose path the
   allowlist gives the key: a number and a boolean as they are, a text as its
   mask conveys it, the last one where several share a key; the sequence number
   stands unless a leaf takes its key; and there is nothing else.
   */
  lemma PayloadShowsListed(mask: Text -> Text, allow: Allow, seqNo: real, event: Value, key: Text)
    requires event.Obj?
    ensures KeyShows(mask, allow, Leaves(event, |event.fields|), map[EntrySeq := NumAttr(seqNo)],
                     Payload(mask, allow, seqNo, event), key)
  {
    LeavesShow(mask, allow, Leaves(event, |event.fields|), map[EntrySeq := NumAttr(seqNo)], key);
  }

  // ---------------------------------------------------------------- the counter, by path

  /** Every field at every depth, objects included, in the order of enumeration. */
  function Fields(v: Value, n: nat): seq<Leaf>
    requires v.Obj? && n <= |v.fields|
    decreases v, n
  {
    if n == 0 then [] else Fields(v, n - 1) + FieldsAt(v, n - 1)
  }

  function FieldsAt(v: Value, i: nat): seq<Leaf>
    requires v.Obj? && i < |v.fields|
    decreases v, i
  {
    var f := v.fields[i];
    [Leaf(Path(f.name, []), f.value)] + if f.value.Obj? then Under(f.name, Fields(f.value, |f.value.fields|)) else []
  }

  /** What the allowlist says of the last name of a path: nothing unless every name before it is a listed record. */
  function Reached(allow: Allow, skip: set<Text>, path: Path): Option<Option<Spec>>
    decreases |path.rest|
  {
    if path.first in skip then None
    else if path.rest == [] then Some(Find(allow, path.first))
    else
      match Find(allow, path.first)
      case Some(Record(inner)) => Reached(inner, {}, Path(path.rest[0], path.rest[1..]))
      case _ => None
  }

  /** The allowlist decides on the field: it is there, reached, and not an object to look into. */
  predicate Decided(allow: Allow, skip: set<Text>, leaf: Leaf) {
    var spec := Reached(allow, skip, leaf.path);
    && !leaf.value.Null? && spec.Some?
    && !(leaf.value.Obj? && spec.value.Some? && spec.value.value.Record?)
  }

  function DecidedOn(allow: Allow, skip: set<Text>, leaves: seq<Leaf>): seq<Leaf> {
    if leaves == [] then []
    else DecidedOn(allow, skip, Front(leaves)) + if Decided(allow, skip, Last(leaves)) then [Last(leaves)] else []
  }

  lemma {:induction false} DecidedConcat(allow: Allow, skip: set<Text>, a: seq<Leaf>, b: seq<Leaf>)
    ensures DecidedOn(allow, skip, a + b) == DecidedOn(allow, skip, a) + DecidedOn(allow, skip, b)
  {
    if b == [] {
      assert a + b == a;
    } else {
      assert Front(a + b) == a + Front(b) && Last(a + b) == Last(b);
      DecidedConcat(allow, skip, a, Front(b));
    }
  }

  lemma UnderConcat(name: Text, a: seq<Leaf>, leaf: Leaf)
    ensures Under(name, a + [leaf]) == Under(name, a) + Under(name, [leaf])
  {
    assert Front(a + [leaf]) == a && Front([leaf]) == [];
  }

  /** A path that is looked into from outside: judged by the record's own allowlist, or not at all. */
  lemma DecidedInside(allow: Allow, skip: set<Text>, name: Text, leaf: Leaf)
    ensures var outer := Leaf(Path(name, [leaf.path.first] + leaf.path.rest), leaf.value);
            var spec := Find(allow, name);
            Decided(allow, skip, outer)
            <==> name !in skip && spec.Some? && spec.value.Record? && Decided(spec.value.allow, {}, leaf)
  {
    assert ([leaf.path.first] + leaf.path.rest)[1..] == leaf.path.rest;
  }

  lemma {:induction false} DecidedUnder(allow: Allow, skip: set<Text>, name: Text, leaves: seq<Leaf>)
    ensures var spec := Find(allow, name);
            DecidedOn(allow, skip, Under(name, leaves))
            == if name !in skip && spec.Some? && spec.value.Record?
               then Under(name, DecidedOn(spec.value.allow, {}, leaves)) else []
  {
    if leaves != [] {
      var spec, leaf := Find(allow, name), Last(leaves);
      var outer := Leaf(Path(name, [leaf.path.first] + leaf.path.rest), leaf.value);
      assert Under(name, leaves) == Under(name, Front(leaves)) + [outer];
      assert Front(Under(name, leaves)) == Under(name, Front(leaves)) && Last(Under(name, leaves)) == outer;
      DecidedUnder(allow, skip, name, Front(leaves));
      DecidedInside(allow, skip, name, leaf);
      if name !in skip && spec.Some? && spec.value.Record? && Decided(spec.value.allow, {}, leaf) {
        UnderConcat(name, DecidedOn(spec.value.allow, {}, Front(leaves)), leaf);
        assert Front([leaf]) == [] && Under(name, []) == [] && Under(name, [leaf]) == [outer];
      } else if name !in skip && spec.Some? && spec.value.Record? {
        var decided := DecidedOn(spec.value.allow, {}, Front(leaves));
        assert decided + [] == decided;
      }
    }
  }

  lemma {:induction false} WalkDecides(v: Value, n: nat, allow: Allow, skip: set<Text>)
    requires v.Obj? && n <= |v.fields|
    ensures Visited(v, n, allow, skip) == DecidedOn(allow, skip, Fields(v, n))
    decreases v, n
  {
    if n > 0 {
      WalkDecides(v, n - 1, allow, skip);
      FieldDecides(v, n - 1, allow, skip);
      DecidedConcat(allow, skip, Fields(v, n - 1), FieldsAt(v, n - 1));
    }
  }

  lemma FieldDecides(v: Value, i: nat, allow: Allow, skip: set<Text>)
    requires v.Obj? && i < |v.fields|
    ensures Visits(v, i, allow, skip) == DecidedOn(allow, skip, FieldsAt(v, i))
    decreases v, i
  {
    var f := v.fields[i];
    var leaf := Leaf(Path(f.name, []), f.value);
    OneDecided(allow, skip, leaf);
    if f.value.Obj? {
      var inside := Fields(f.value, |f.value.fields|);
      DecidedConcat(allow, skip, [leaf], Under(f.name, inside));
      DecidedUnder(allow, skip, f.name, inside);
      if f.name !in skip && Descends(allow, f) {
        WalkDecides(f.value, |f.value.fields|, Find(allow, f.name).value.allow, {});
      }
      ObjectVisits(v, i, allow, skip, leaf);
    } else {
      assert FieldsAt(v, i) == [leaf];
    }
  }

  lemma OneDecided(allow: Allow, skip: set<Text>, leaf: Leaf)
    ensures DecidedOn(allow, skip, [leaf]) == if Decided(allow, skip, leaf) then [leaf] else []
  {
    assert Front([leaf]) == [];
  }

  lemma ObjectVisits(v: Value, i: nat, allow: Allow, skip: set<Text>, leaf: Leaf)
    requires v.Obj? && i < |v.fields| && v.fields[i].value.Obj?
    requires leaf == Leaf(Path(v.fields[i].name, []), v.fields[i].value)
    ensures var f := v.fields[i];
            Visits(v, i, allow, skip)
            == if f.name !in skip && Descends(allow, f)
               then Under(f.name, Visited(f.value, |f.value.fields|, Find(allow, f.name).value.allow, {}))
               else if Decided(allow, skip, leaf) then [leaf] else []
  {
  }

  /** How many of the fields the allowlist decides on do not come out as they are. */
  function Withheld(mask: Text -> Text, allow: Allow, leaves: seq<Leaf>): nat {
    if leaves == [] then 0
    else
      var leaf := Last(leaves);
      var key := Target(allow, EnvelopeFields, leaf.path);
      var asItIs :=
        match leaf.value
        case Num(_) => key.Some?
        case Bool(_) => key.Some?
        case Str(text) => key.Some? && mask(text) == text && |text| <= 256
        case _ => false;
      Withheld(mask, allow, Front(leaves)) + if Decided(allow, EnvelopeFields, leaf) && !asItIs then 1 else 0
  }

  lemma {:induction false} WithheldIsDrops(mask: Text -> Text, allow: Allow, leaves: seq<Leaf>)
    ensures Withheld(mask, allow, leaves)
            == Drops(mask, allow, EnvelopeFields, DecidedOn(allow, EnvelopeFields, leaves))
  {
    if leaves != [] {
      WithheldIsDrops(mask, allow, Front(leaves));
      var front := DecidedOn(allow, EnvelopeFields, Front(leaves));
      assert Front(front + [Last(leaves)]) == front && Last(front + [Last(leaves)]) == Last(leaves);
      if !Decided(allow, EnvelopeFields, Last(leaves)) {
        assert DecidedOn(allow, EnvelopeFields, leaves) == front;
      }
    }
  }

  /** The counter counts exactly the fields, at every depth, that are decided on and withheld or altered. */
  lemma CounterIsWithheld(mask: Text -> Text, allow: Allow, event: Value)
    requires event.Obj?
    ensures DropCount(mask, allow, event) == Withheld(mask, allow, Fields(event, |event.fields|))
  {
    WalkDecides(event, |event.fields|, allow, EnvelopeFields);
    WithheldIsDrops(mask, allow, Fields(event, |event.fields|));
  }

  // ---------------------------------------------------------------- which keys there are

  /** The prefix that the allowlist's wildcard gives, if it gives one. */
  ghost predicate HasPrefix(allow: Allow, prefix: Text) {
    Star in allow && allow[Star] == Key(prefix)
  }

  /**
   The key of a path of one name: the listed one, the record's own prefix for a
   bare value under a record, or the wildcard's prefix, a dot and the name,
   which then has at most 64 units; none for any other name, and none for the
   envelope's fields.
   */
  lemma KeyOfName(allow: Allow, skip: set<Text>, name: Text)
    ensures var key := Target(allow, skip, Path(name, []));
            if name in skip then key.None?
            else if name in allow then
              match allow[name]
              case Key(k) => key == Some(k)
              case Record(inner) => forall k :: key == Some(k) <==> HasPrefix(inner, k)
            else
              forall k :: key == Some(k) <==>
                |name| <= 64 && exists prefix :: HasPrefix(allow, prefix) && k == prefix + [46] + name
  {
    if name !in skip && name !in allow && Star in allow && allow[Star].Key? {
      assert HasPrefix(allow, allow[Star].key);
    }
  }

  /** A longer path has a key only through a listed record for its first name, and then the record's own. */
  lemma KeyOfPath(allow: Allow, skip: set<Text>, name: Text, rest: seq<Text>)
    requires rest != []
    ensures Target(allow, skip, Path(name, rest))
            == if name !in skip && name in allow && allow[name].Record?
               then Target(allow[name].allow, {}, Path(rest[0], rest[1..])) else None
  {
  }
}

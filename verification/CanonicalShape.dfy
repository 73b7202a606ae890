// What canonical values look like, and exactly which values become the same.

module CanonicalShape {
  import opened Sequences
  import opened Sorting
  import opened Text
  import opened Json
  import opened FieldProofs
  import opened CanonicalProofs
  import opened SchemaMeaning
  import opened SchemaConstants

  /** At every level the keys ascend, so none is there twice. */
  predicate KeysAscend(v: J) {
    match v
    case Arr(items) => forall i :: 0 <= i < |items| ==> KeysAscend(items[i])
    case Obj(fields) => ByKey(fields) && forall i :: 0 <= i < |fields| ==> KeysAscend(fields[i].1)
    case _ => true
  }

  /** Nothing inside is undefined. */
  predicate Present(v: J) {
    match v
    case Arr(items) => forall i :: 0 <= i < |items| ==> items[i] != Undef && Present(items[i])
    case Obj(fields) => forall i :: 0 <= i < |fields| ==> fields[i].1 != Undef && Present(fields[i].1)
    case _ => true
  }

  /** No string value holds a carriage return. */
  predicate NoReturnsIn(v: J) {
    match v
    case Str(s) => NoReturns(s)
    case Arr(items) => forall i :: 0 <= i < |items| ==> NoReturnsIn(items[i])
    case Obj(fields) => forall i :: 0 <= i < |fields| ==> NoReturnsIn(fields[i].1)
    case _ => true
  }

  predicate Tidy(normalizeText: bool, v: J) {
    KeysAscend(v) && Present(v) && (normalizeText ==> NoReturnsIn(v))
  }

  predicate TidyFields(normalizeText: bool, f: Fields) {
    forall i :: 0 <= i < |f| ==> Tidy(normalizeText, f[i].1)
  }

  lemma TidyObject(normalizeText: bool, f: Fields)
    requires DistinctKeys(f) && TidyFields(normalizeText, f)
    ensures Tidy(normalizeText, Obj(Normal(f)))
  {
    DefinedExact(f);
    SortExact(Defined(f));
    SortByKey(Defined(f));
    var g := Normal(f);
    forall j | 0 <= j < |g| ensures g[j].1 != Undef && Tidy(normalizeText, g[j].1) {
      assert g[j] in g;
      assert g[j] in f;
      var i :| 0 <= i < |f| && f[i] == g[j];
    }
  }

  /** `canonicalize` sorts the keys at every level, leaves nothing undefined inside, and, if asked to, no carriage return. */
  lemma {:induction false} CanonTidy(normalizeText: bool, v: J)
    requires WellFormed(v)
    ensures Tidy(normalizeText, Canon(normalizeText, v))
    decreases v
  {
    match v
    case Str(s) => NormalizedHasNoReturns(s);
    case Arr(items) =>
      var c := Canon(normalizeText, v);
      forall i | 0 <= i < |items| ensures c.items[i] != Undef && Tidy(normalizeText, c.items[i]) {
        CanonTidy(normalizeText, items[i]);
        assert c.items[i] == OrNull(Canon(normalizeText, items[i]));
      }
    case Obj(f) =>
      var c := CanonFields(normalizeText, f);
      forall i | 0 <= i < |f| ensures Tidy(normalizeText, c[i].1) {
        CanonTidy(normalizeText, f[i].1);
      }
      CanonObject(normalizeText, f);
      TidyObject(normalizeText, c);
    case _ =>
  }

  /** Two values become the same: equal up to the order of keys, absent against undefined fields, null against undefined
      items, and, if text is normalized, newline style. */
  predicate SameValue(normalizeText: bool, a: J, b: J)
    decreases a, 0
  {
    match a
    case Str(s) => b.Str? && if normalizeText then SameLines(s, b.text) else s == b.text
    case Arr(items) =>
      b.Arr? && |items| == |b.items| && forall i :: 0 <= i < |items| ==> SameEntry(normalizeText, items[i], b.items[i])
    case Obj(fields) =>
      b.Obj?
      && (forall i :: 0 <= i < |fields| ==> SameValue(normalizeText, fields[i].1, Get(b.fields, fields[i].0)))
      && (forall j :: 0 <= j < |b.fields| && b.fields[j].1 != Undef ==> Get(fields, b.fields[j].0) != Undef)
    case _ => a == b
  }

  predicate SameEntry(normalizeText: bool, a: J, b: J)
    decreases a, 1
  {
    SameValue(normalizeText, a, b) || (Nullish(a) && Nullish(b))
  }

  ghost predicate SameEverywhere(normalizeText: bool, f: Fields, g: Fields) {
    forall key :: SameValue(normalizeText, Get(f, key), Get(g, key))
  }

  lemma SameObjectsExactly(normalizeText: bool, f: Fields, g: Fields)
    requires DistinctKeys(f) && DistinctKeys(g)
    ensures SameValue(normalizeText, Obj(f), Obj(g)) <==> SameEverywhere(normalizeText, f, g)
  {
    if SameValue(normalizeText, Obj(f), Obj(g)) {
      forall key ensures SameValue(normalizeText, Get(f, key), Get(g, key)) {
        var i, j := Place(f, key), Place(g, key);
        if i == |f| && j < |g| {
          assert g[j].1 == Undef;
        }
      }
    }
    if SameEverywhere(normalizeText, f, g) {
      EverywhereMeansSame(normalizeText, f, g);
    }
  }

  lemma EverywhereMeansSame(normalizeText: bool, f: Fields, g: Fields)
    requires DistinctKeys(f) && DistinctKeys(g) && SameEverywhere(normalizeText, f, g)
    ensures SameValue(normalizeText, Obj(f), Obj(g))
  {
    var a, b := Obj(f), Obj(g);
    forall i | 0 <= i < |a.fields| ensures SameValue(normalizeText, a.fields[i].1, Get(b.fields, a.fields[i].0)) {
      Listed(f, f[i].0, i);
      assert SameValue(normalizeText, Get(f, f[i].0), Get(g, f[i].0));
    }
    forall j | 0 <= j < |b.fields| && b.fields[j].1 != Undef ensures Get(a.fields, b.fields[j].0) != Undef {
      Listed(g, g[j].0, j);
      assert SameValue(normalizeText, Get(f, g[j].0), Get(g, g[j].0));
    }
  }

  ghost predicate SameCanon(normalizeText: bool, f: Fields, g: Fields) {
    forall key :: Canon(normalizeText, Get(f, key)) == Canon(normalizeText, Get(g, key))
  }

  lemma CanonObjectsExactly(normalizeText: bool, f: Fields, g: Fields)
    requires DistinctKeys(f) && DistinctKeys(g)
    ensures Canon(normalizeText, Obj(f)) == Canon(normalizeText, Obj(g)) <==> SameCanon(normalizeText, f, g)
  {
    CanonObject(normalizeText, f);
    CanonObject(normalizeText, g);
    NormalExact(CanonFields(normalizeText, f), CanonFields(normalizeText, g));
    CanonTables(normalizeText, f, g);
  }

  lemma CanonTables(normalizeText: bool, f: Fields, g: Fields)
    ensures SameTable(CanonFields(normalizeText, f), CanonFields(normalizeText, g)) <==> SameCanon(normalizeText, f, g)
  {
    hide Canon, Get, CanonFields;
    forall key
      ensures Get(CanonFields(normalizeText, f), key) == Canon(normalizeText, Get(f, key))
      ensures Get(CanonFields(normalizeText, g), key) == Canon(normalizeText, Get(g, key))
    {
      MappedTables(f, key, normalizeText);
      MappedTables(g, key, normalizeText);
    }
    if SameTable(CanonFields(normalizeText, f), CanonFields(normalizeText, g)) {
      forall key ensures Canon(normalizeText, Get(f, key)) == Canon(normalizeText, Get(g, key)) {
        assert Get(CanonFields(normalizeText, f), key) == Get(CanonFields(normalizeText, g), key);
      }
    }
  }

  /** The canonical form of values, exactly: two values have the same one if and only if they are equal up to what
      `canonicalize` is for. */
  lemma {:induction false} CanonExact(normalizeText: bool, a: J, b: J)
    requires WellFormed(a) && WellFormed(b)
    ensures Canon(normalizeText, a) == Canon(normalizeText, b) <==> SameValue(normalizeText, a, b)
    decreases a, 1
  {
    match a
    case Str(s) =>
      if b.Str? {
        NormalizeExact(s, b.text);
      }
    case Arr(items) =>
      if b.Arr? {
        CanonArrays(normalizeText, a, b);
        if |items| == |b.items| {
          forall i | 0 <= i < |items|
            ensures OrNull(Canon(normalizeText, items[i])) == OrNull(Canon(normalizeText, b.items[i]))
               <==> SameEntry(normalizeText, items[i], b.items[i])
          {
            CanonExact(normalizeText, items[i], b.items[i]);
          }
        }
      }
    case Obj(f) =>
      if b.Obj? {
        CanonExactFields(normalizeText, a, f, b.fields);
      }
    case _ =>
  }

  lemma CanonArrays(normalizeText: bool, a: J, b: J)
    requires a.Arr? && b.Arr?
    ensures Canon(normalizeText, a) == Canon(normalizeText, b) <==>
      |a.items| == |b.items|
      && forall i :: 0 <= i < |a.items| ==>
           OrNull(Canon(normalizeText, a.items[i])) == OrNull(Canon(normalizeText, b.items[i]))
  {
    var c, d := Canon(normalizeText, a), Canon(normalizeText, b);
    assert |c.items| == |a.items| && |d.items| == |b.items|;
    if c == d {
      forall i | 0 <= i < |a.items|
        ensures OrNull(Canon(normalizeText, a.items[i])) == OrNull(Canon(normalizeText, b.items[i]))
      {
        assert c.items[i] == d.items[i];
      }
    }
  }

  lemma {:induction false} CanonExactFields(normalizeText: bool, a: J, f: Fields, g: Fields)
    requires a == Obj(f) && WellFormed(a) && WellFormed(Obj(g))
    ensures Canon(normalizeText, a) == Canon(normalizeText, Obj(g)) <==> SameValue(normalizeText, a, Obj(g))
    decreases a, 0
  {
    SameObjectsExactly(normalizeText, f, g);
    CanonObjectsExactly(normalizeText, f, g);
    forall key
      ensures Canon(normalizeText, Get(f, key)) == Canon(normalizeText, Get(g, key))
         <==> SameValue(normalizeText, Get(f, key), Get(g, key))
    {
      var i, j := Place(f, key), Place(g, key);
      if i < |f| {
        CanonExact(normalizeText, f[i].1, Get(g, key));
      }
    }
  }

  // ----- Canonical schemas -----

  lemma {:induction false} SchemaAscends(v: J)
    requires WellFormed(v)
    ensures KeysAscend(CanonSchema(v))
    decreases v, 1
  {
    match v
    case Arr(items) =>
      forall i | 0 <= i < |items| ensures KeysAscend(CanonSchema(v).items[i]) {
        SchemaAscends(items[i]);
      }
    case Obj(f) =>
      ObjectForms(f, true);
      FieldsAscend(v, f);
    case _ =>
  }

  lemma {:induction false} FieldsAscend(v: J, f: Fields)
    requires v == Obj(f) && WellFormed(v)
    ensures KeysAscend(Obj(Sort(KeyLeq(), SchemaFields(f))))
    decreases v, 0
  {
    hide CanonSchema, Sort;
    var g := Sort(KeyLeq(), SchemaFields(f));
    SortByKey(SchemaFields(f));
    forall j | 0 <= j < |g| ensures KeysAscend(g[j].1) {
      var i := SortedMembersBack(SchemaFields(f), j);
      if f[i].0 == "required" && StringArray(f[i].1) {
        NamesAscend(f[i].1);
      } else {
        SchemaAscends(f[i].1);
      }
    }
  }

  lemma NamesAscend(v: J)
    requires StringArray(v)
    ensures KeysAscend(SortedRequired(v))
  {
  }

  /** A canonical schema: the keys ascend at every level, every `required` list is sorted and every other string is free of
      carriage returns; and it is the schema it was made from, up to the order of keys and of required names, newline style,
      and undefined fields. */
  lemma SchemaCanonical(v: J)
    requires WellFormed(v)
    ensures KeysAscend(CanonSchema(v)) && Steady(CanonSchema(v))
    ensures Same(AsWritten, CanonSchema(v), v)
  {
    SchemaAscends(v);
    CanonicalSteady(v);
    CanonicalFormed(v);
    SchemaIdempotent(v);
    Pipeline(false, v);
    Pipeline(false, CanonSchema(v));
    FusedExact(false, CanonSchema(v), v);
  }
}

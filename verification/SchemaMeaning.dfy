// What canonicalizing does to the meaning of a tool's parameter schema.

module SchemaMeaning {
  import opened Sequences
  import opened Sorting
  import opened Text
  import opened Json
  import opened FieldProofs
  import opened CanonicalProofs

  predicate HasKey(fields: Fields, key: string) {
    exists i :: 0 <= i < |fields| && fields[i].0 == key
  }

  predicate Integral(literal: string) {
    forall i :: 0 <= i < |literal| ==> literal[i] == '-' || '0' <= literal[i] <= '9'
  }

  predicate TypeName(name: string, x: J) {
    || (name == "null" && x.Null?)
    || (name == "boolean" && x.Bool?)
    || (name == "object" && x.Obj?)
    || (name == "array" && x.Arr?)
    || (name == "string" && x.Str?)
    || (name == "number" && x.Num?)
    || (name == "integer" && x.Num? && Integral(x.literal))
  }

  predicate TypeOk(v: J, x: J) {
    match v
    case Str(name) => TypeName(name, x)
    case Arr(names) => exists i :: 0 <= i < |names| && NamesType(names[i], x)
    case _ => true
  }

  predicate NamesType(v: J, x: J) {
    v.Str? && TypeName(v.text, x)
  }

  /** JSON values are equal up to the order of keys. */
  predicate JsonEqual(a: J, b: J) {
    Canon(false, a) == Canon(false, b)
  }

  predicate AllPresent(names: seq<string>, fields: Fields) {
    forall name :: name in names ==> HasKey(fields, name)
  }

  predicate OneOf(items: seq<J>, x: J) {
    exists i :: 0 <= i < |items| && JsonEqual(items[i], x)
  }

  /** Which values a schema admits, for the keywords `type`, `properties`, `items`, `required`, `const` and `enum` as in
      JSON Schema 2020-12; `required` is a set of names (JSON Schema Validation, section 6.5.3). */
  ghost predicate Accepts(schema: J, x: J)
    decreases schema, 0
  {
    match schema
    case Bool(all) => all
    case Obj(fields) => forall i :: 0 <= i < |fields| ==> Admits(fields[i].0, fields[i].1, x)
    case _ => true
  }

  ghost predicate Admits(keyword: string, v: J, x: J)
    decreases v, 1
  {
    && (keyword == "type" ==> TypeOk(v, x))
    && (keyword == "properties" && v.Obj? && x.Obj? ==>
          forall i :: 0 <= i < |v.fields| && HasKey(x.fields, v.fields[i].0) ==>
            Accepts(v.fields[i].1, Get(x.fields, v.fields[i].0)))
    && (keyword == "items" && x.Arr? ==> forall j :: 0 <= j < |x.items| ==> Accepts(v, x.items[j]))
    && (keyword == "required" && StringArray(v) && x.Obj? ==>
          AllPresent(Strings(v), x.fields))
    && (keyword == "const" && v != Undef ==> JsonEqual(v, x))
    && (keyword == "enum" && v.Arr? ==> OneOf(v.items, x))
  }

  /** A constant that canonicalizing leaves alone: no carriage return, and nothing that looks like an unsorted
      `required` list. */
  predicate Steady(v: J)
    decreases v, 0
  {
    match v
    case Str(s) => NoReturns(s)
    case Arr(items) => forall i :: 0 <= i < |items| ==> Steady(items[i])
    case Obj(fields) => DistinctKeys(fields) && forall i :: 0 <= i < |fields| ==> SteadyField(fields[i].0, fields[i].1)
    case _ => true
  }

  predicate SteadyField(key: string, v: J)
    decreases v, 1
  {
    if key == "required" && StringArray(v) then Sorted(StringLeq, Strings(v)) else Steady(v)
  }

  /** All constants of a schema are steady. */
  predicate SteadyConstants(schema: J)
    decreases schema, 0
  {
    schema.Obj? ==> forall i :: 0 <= i < |schema.fields| ==> SteadyKeyword(schema.fields[i].0, schema.fields[i].1)
  }

  predicate SteadyKeyword(keyword: string, v: J)
    decreases v, 1
  {
    && (keyword == "const" || keyword == "enum" ==> Steady(v))
    && (keyword == "properties" && v.Obj? ==> forall i :: 0 <= i < |v.fields| ==> SteadyConstants(v.fields[i].1))
    && (keyword == "items" ==> SteadyConstants(v))
  }

  // ----- Constants -----

  lemma {:induction false} SteadyCanon(v: J)
    requires Steady(v)
    ensures Canon(false, CanonSchema(v)) == Canon(false, v)
    decreases v, 1
  {
    match v
    case Str(s) => NothingToNormalize(s);
    case Arr(items) =>
      forall i | 0 <= i < |items| ensures Canon(false, CanonSchema(items[i])) == Canon(false, items[i]) {
        SteadyCanon(items[i]);
      }
    case Obj(f) => SteadyObject(v, f);
    case _ =>
  }

  lemma {:induction false} SteadyObject(v: J, f: Fields)
    requires v == Obj(f) && Steady(v)
    ensures Canon(false, CanonSchema(v)) == Canon(false, v)
    decreases v, 0, 1
  {
    hide Sort, Defined, Normal, SameTable;
    var g := Sort(KeyLeq(), SchemaFields(f));
    ObjectForms(f, false);
    ObjectForms(g, false);
    SortExact(SchemaFields(f));
    SteadyFields(v, f);
    NormalExact(CanonFields(false, g), CanonFields(false, f));
  }

  lemma {:induction false} SteadyFields(v: J, f: Fields)
    requires v == Obj(f) && Steady(v)
    ensures SameTable(CanonFields(false, Sort(KeyLeq(), SchemaFields(f))), CanonFields(false, f))
    decreases v, 0, 0
  {
    var g := Sort(KeyLeq(), SchemaFields(f));
    SortKeepsTable(SchemaFields(f));
    forall key ensures Get(CanonFields(false, g), key) == Get(CanonFields(false, f), key) {
      MappedTables(f, key, false);
      MappedTables(g, key, false);
      assert Get(g, key) == Get(SchemaFields(f), key);
      var i := Place(f, key);
      if i < |f| {
        SteadyFieldCanon(f[i].0, f[i].1);
      }
    }
  }

  lemma {:induction false} SteadyFieldCanon(key: string, v: J)
    requires SteadyField(key, v)
    ensures Canon(false, SchemaField(key, v)) == Canon(false, v)
    decreases v, 2
  {
    if key == "required" && StringArray(v) {
      SortOfSorted(StringLeq, Strings(v));
      assert SortedRequired(v) == v;
    } else {
      SteadyCanon(v);
    }
  }

  // ----- Keywords -----

  lemma {:induction false} ReturnsStay(s: string)
    requires !NoReturns(s)
    ensures '\n' in NormalizeNewlines(s)
  {
    if s[0] != '\r' {
      ReturnsStay(s[1..]);
    }
  }

  lemma TypeNameKept(name: string, x: J)
    ensures TypeName(NormalizeNewlines(name), x) <==> TypeName(name, x)
  {
    if NoReturns(name) {
      NothingToNormalize(name);
    } else {
      ReturnsStay(name);
      if TypeName(name, x) {
        KnownName(name, x);
      }
      if TypeName(NormalizeNewlines(name), x) {
        KnownName(NormalizeNewlines(name), x);
      }
    }
  }

  lemma KnownName(name: string, x: J)
    requires TypeName(name, x)
    ensures '\r' !in name && '\n' !in name
  {
  }

  lemma NamesTypeKept(v: J, x: J)
    ensures NamesType(CanonSchema(v), x) <==> NamesType(v, x)
  {
    if v.Str? {
      TypeNameKept(v.text, x);
    }
  }

  lemma TypeKept(v: J, x: J)
    ensures TypeOk(CanonSchema(v), x) <==> TypeOk(v, x)
  {
    match v
    case Str(name) => TypeNameKept(name, x);
    case Arr(names) =>
      var names' := CanonSchema(v).items;
      forall i | 0 <= i < |names| ensures NamesType(names'[i], x) <==> NamesType(names[i], x) {
        NamesTypeKept(names[i], x);
        assert names'[i] == CanonSchema(names[i]);
      }
    case _ =>
  }

  lemma RequiredKept(v: J, x: J)
    requires StringArray(v) && x.Obj?
    ensures AllPresent(Strings(SortedRequired(v)), x.fields) <==> AllPresent(Strings(v), x.fields)
  {
    var before, after := Strings(v), Strings(SortedRequired(v));
    assert after == Sort(StringLeq, before);
    SortPermutes(StringLeq, before);
    forall name ensures name in before <==> name in after {
      assert name in multiset(before) <==> name in multiset(after);
    }
  }

  lemma EnumKept(v: J, x: J)
    requires v.Arr? && Steady(v)
    ensures OneOf(CanonSchema(v).items, x) <==> OneOf(v.items, x)
  {
    var items := CanonSchema(v).items;
    forall i | 0 <= i < |v.items| ensures JsonEqual(items[i], x) <==> JsonEqual(v.items[i], x) {
      SteadyCanon(v.items[i]);
    }
  }

  /** Sorting the fields of an object does not change which fields it has. */
  lemma SortedMembers(f: Fields, i: nat) returns (j: nat)
    requires i < |f|
    ensures j < |Sort(KeyLeq(), f)| && Sort(KeyLeq(), f)[j] == f[i]
  {
    SortPermutes(KeyLeq(), f);
    assert f[i] in multiset(Sort(KeyLeq(), f));
    j := IndexOf(Sort(KeyLeq(), f), f[i]);
  }

  lemma SortedMembersBack(f: Fields, j: nat) returns (i: nat)
    requires j < |Sort(KeyLeq(), f)|
    ensures i < |f| && Sort(KeyLeq(), f)[j] == f[i]
  {
    SortPermutes(KeyLeq(), f);
    assert Sort(KeyLeq(), f)[j] in multiset(f);
    i := IndexOf(f, Sort(KeyLeq(), f)[j]);
  }

  ghost predicate AllAdmit(f: Fields, x: J) {
    forall i :: 0 <= i < |f| ==> Admits(f[i].0, f[i].1, x)
  }

  lemma SortedAdmit(f: Fields, x: J)
    ensures AllAdmit(Sort(KeyLeq(), f), x) <==> AllAdmit(f, x)
  {
    var g := Sort(KeyLeq(), f);
    if AllAdmit(g, x) {
      forall i | 0 <= i < |f| ensures Admits(f[i].0, f[i].1, x) {
        var j := SortedMembers(f, i);
      }
    }
    if AllAdmit(f, x) {
      forall j | 0 <= j < |g| ensures Admits(g[j].0, g[j].1, x) {
        var i := SortedMembersBack(f, j);
      }
    }
  }

  ghost predicate PropertiesOk(f: Fields, x: J)
    requires x.Obj?
  {
    forall i :: 0 <= i < |f| && HasKey(x.fields, f[i].0) ==> Accepts(f[i].1, Get(x.fields, f[i].0))
  }

  lemma SortedProperties(f: Fields, x: J)
    requires x.Obj?
    ensures PropertiesOk(Sort(KeyLeq(), f), x) <==> PropertiesOk(f, x)
  {
    var g := Sort(KeyLeq(), f);
    if PropertiesOk(g, x) {
      forall i | 0 <= i < |f| && HasKey(x.fields, f[i].0) ensures Accepts(f[i].1, Get(x.fields, f[i].0)) {
        var j := SortedMembers(f, i);
      }
    }
    if PropertiesOk(f, x) {
      forall j | 0 <= j < |g| && HasKey(x.fields, g[j].0) ensures Accepts(g[j].1, Get(x.fields, g[j].0)) {
        var i := SortedMembersBack(f, j);
      }
    }
  }

  lemma {:induction false} PropertiesKept(v: J, x: J)
    requires v.Obj? && x.Obj? && forall i :: 0 <= i < |v.fields| ==> SteadyConstants(v.fields[i].1)
    ensures PropertiesOk(CanonSchema(v).fields, x) <==> PropertiesOk(v.fields, x)
    decreases v, 2
  {
    hide Accepts, Sort, HasKey, CanonSchema, Normal, Defined;
    var f := v.fields;
    var g := SchemaFields(f);
    ObjectForms(f, true);
    SortedProperties(g, x);
    forall i | 0 <= i < |f| ensures SamePropertyAt(f, g, x, i) {
      PropertyKept(f[i].0, f[i].1, Get(x.fields, f[i].0));
    }
    SameProperties(f, g, x);
  }

  ghost predicate SamePropertyAt(f: Fields, g: Fields, x: J, i: nat)
    requires x.Obj? && i < |f| == |g|
  {
    g[i].0 == f[i].0 && (Accepts(g[i].1, Get(x.fields, f[i].0)) <==> Accepts(f[i].1, Get(x.fields, f[i].0)))
  }

  lemma {:induction false} SameProperties(f: Fields, g: Fields, x: J)
    requires x.Obj? && |f| == |g| && forall i :: 0 <= i < |f| ==> SamePropertyAt(f, g, x, i)
    ensures PropertiesOk(g, x) <==> PropertiesOk(f, x)
  {
    forall i | 0 <= i < |f| && HasKey(x.fields, f[i].0)
      ensures Accepts(g[i].1, Get(x.fields, g[i].0)) <==> Accepts(f[i].1, Get(x.fields, f[i].0))
    {
      assert SamePropertyAt(f, g, x, i);
    }
    assert forall i :: 0 <= i < |f| ==> SamePropertyAt(f, g, x, i) && g[i].0 == f[i].0;
  }

  lemma {:induction false} PropertyKept(key: string, v: J, x: J)
    requires SteadyConstants(v)
    ensures Accepts(SchemaField(key, v), x) <==> Accepts(v, x)
    decreases v, 2
  {
    if !(key == "required" && StringArray(v)) {
      MeaningKept(v, x);
    }
  }

  lemma {:induction false} ItemsKept(v: J, x: J)
    requires SteadyConstants(v) && x.Arr?
    ensures (forall j :: 0 <= j < |x.items| ==> Accepts(CanonSchema(v), x.items[j]))
       <==> (forall j :: 0 <= j < |x.items| ==> Accepts(v, x.items[j]))
    decreases v, 2
  {
    forall j | 0 <= j < |x.items| ensures Accepts(CanonSchema(v), x.items[j]) <==> Accepts(v, x.items[j]) {
      MeaningKept(v, x.items[j]);
    }
  }

  lemma {:induction false} KeywordKept(keyword: string, v: J, x: J)
    requires SteadyKeyword(keyword, v)
    ensures Admits(keyword, SchemaField(keyword, v), x) <==> Admits(keyword, v, x)
    decreases v, 3
  {
    hide OneOf, SteadyConstants;
    if keyword == "type" {
      TypeKept(v, x);
    } else if keyword == "required" {
      if StringArray(v) {
        if x.Obj? {
          RequiredKept(v, x);
        }
      } else {
        NotRequired(v);
      }
    } else if keyword == "properties" {
      if v.Obj? && x.Obj? {
        PropertiesKept(v, x);
      }
    } else if keyword == "items" {
      if x.Arr? {
        ItemsKept(v, x);
      }
    } else if keyword == "const" {
      SteadyCanon(v);
    } else if keyword == "enum" && v.Arr? {
      EnumKept(v, x);
    }
  }

  lemma NotRequired(v: J)
    requires !StringArray(v)
    ensures !StringArray(CanonSchema(v))
  {
    if v.Arr? {
      var i :| 0 <= i < |v.items| && !v.items[i].Str?;
      assert !CanonSchema(v).items[i].Str?;
    }
  }

  /** The canonical schema accepts exactly the same values, as long as the schema's constants are steady. */
  lemma {:induction false} MeaningKept(schema: J, x: J)
    requires SteadyConstants(schema)
    ensures Accepts(CanonSchema(schema), x) <==> Accepts(schema, x)
    decreases schema, 1
  {
    if schema.Obj? {
      var f := schema.fields;
      ObjectForms(f, true);
      ObjectAccepts(f, x);
      ObjectAccepts(Sort(KeyLeq(), SchemaFields(f)), x);
      SortedAdmit(SchemaFields(f), x);
      KeywordsKept(schema, f, x);
    }
  }

  lemma {:induction false} ObjectAccepts(f: Fields, x: J)
    ensures Accepts(Obj(f), x) <==> AllAdmit(f, x)
  {
  }

  lemma {:induction false} KeywordsKept(schema: J, f: Fields, x: J)
    requires schema == Obj(f) && SteadyConstants(schema)
    ensures AllAdmit(SchemaFields(f), x) <==> AllAdmit(f, x)
    decreases schema, 0
  {
    forall i | 0 <= i < |f| ensures Admits(f[i].0, SchemaFields(f)[i].1, x) <==> Admits(f[i].0, f[i].1, x) {
      KeywordKept(f[i].0, f[i].1, x);
    }
  }

  /** Without that condition the meaning is lost: a `const` with a carriage return no longer accepts its own value. */
  lemma ConstantLost()
    ensures var schema := Obj([("const", Str("a\r\nb"))]);
      Accepts(schema, Str("a\r\nb")) && !Accepts(CanonSchema(schema), Str("a\r\nb"))
  {
    var f := [("const", Str("a\r\nb"))];
    ObjectForms(f, true);
    assert SchemaFields(f) == [("const", Str(NormalizeNewlines("a\r\nb")))];
    NormalizedHasNoReturns("a\r\nb");
    assert Sort(KeyLeq(), SchemaFields(f)) == SchemaFields(f);
    assert Admits("const", SchemaFields(f)[0].1, Str("a\r\nb")) ==> NormalizeNewlines("a\r\nb") == "a\r\nb";
    assert "a\r\nb"[1] == '\r';
  }

  // ----- Once is enough -----

  lemma {:induction false} SchemaIdempotent(v: J)
    ensures CanonSchema(CanonSchema(v)) == CanonSchema(v)
    decreases v, 0
  {
    match v
    case Str(s) => NormalizeExact(s, s);
    case Arr(items) =>
      forall i | 0 <= i < |items| ensures CanonSchema(CanonSchema(items[i])) == CanonSchema(items[i]) {
        SchemaIdempotent(items[i]);
      }
    case Obj(f) =>
      var g := Sort(KeyLeq(), SchemaFields(f));
      ObjectForms(f, true);
      ObjectForms(g, true);
      forall j | 0 <= j < |g| ensures SchemaFields(g)[j] == g[j] {
        var i := SortedMembersBack(SchemaFields(f), j);
        FieldIdempotent(f[i].0, f[i].1);
      }
      assert SchemaFields(g) == g;
      KeyOrder();
      SortSorted(KeyLeq(), SchemaFields(f));
      SortOfSorted(KeyLeq(), g);
    case _ =>
  }

  lemma {:induction false} FieldIdempotent(key: string, v: J)
    ensures SchemaField(key, SchemaField(key, v)) == SchemaField(key, v)
    decreases v, 1
  {
    if key == "required" && StringArray(v) {
      assert Strings(SortedRequired(v)) == Sort(StringLeq, Strings(v));
      StringOrder();
      SortSorted(StringLeq, Strings(v));
      SortOfSorted(StringLeq, Sort(StringLeq, Strings(v)));
    } else {
      if key == "required" {
        NotRequired(v);
      }
      SchemaIdempotent(v);
    }
  }
}

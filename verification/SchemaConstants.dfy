// Which constants keep their meaning when a schema is made canonical.

module SchemaConstants {
  import opened Sorting
  import opened Text
  import opened Json
  import opened FieldProofs
  import opened CanonicalProofs
  import opened SchemaMeaning

  predicate SteadyMembers(f: Fields) {
    forall i :: 0 <= i < |f| ==> SteadyField(f[i].0, f[i].1)
  }

  // ----- The canonical form of a constant is steady -----

  lemma {:induction false} CanonicalSteady(v: J)
    requires WellFormed(v)
    ensures Steady(CanonSchema(v))
    decreases v, 0
  {
    match v
    case Str(s) => NormalizedHasNoReturns(s);
    case Arr(items) =>
      forall i | 0 <= i < |items| ensures Steady(CanonSchema(v).items[i]) {
        CanonicalSteady(items[i]);
      }
    case Obj(f) =>
      var g := Sort(KeyLeq(), SchemaFields(f));
      ObjectForms(f, true);
      SortExact(SchemaFields(f));
      forall j | 0 <= j < |g| ensures SteadyField(g[j].0, g[j].1) {
        var i := SortedMembersBack(SchemaFields(f), j);
        FieldSteady(f[i].0, f[i].1);
      }
    case _ =>
  }

  lemma {:induction false} FieldSteady(key: string, v: J)
    requires WellFormed(v)
    ensures SteadyField(key, SchemaField(key, v))
    decreases v, 1
  {
    if key == "required" && StringArray(v) {
      assert Strings(SortedRequired(v)) == Sort(StringLeq, Strings(v));
      StringOrder();
      SortSorted(StringLeq, Strings(v));
    } else {
      if key == "required" {
        NotRequired(v);
      }
      CanonicalSteady(v);
    }
  }

  // ----- Equal values are steady alike -----

  lemma {:induction false} SteadyForm(v: J)
    requires WellFormed(v)
    ensures Steady(Canon(false, v)) <==> Steady(v)
    decreases v, 1
  {
    match v
    case Arr(items) =>
      forall i | 0 <= i < |items| ensures Steady(Canon(false, v).items[i]) <==> Steady(items[i]) {
        SteadyForm(items[i]);
      }
      if Steady(Canon(false, v)) {
        forall i | 0 <= i < |items| ensures Steady(items[i]) {
          assert Steady(Canon(false, v).items[i]);
        }
      }
    case Obj(f) =>
      CanonObject(false, f);
      DefinedExact(CanonFields(false, f));
      SortExact(Defined(CanonFields(false, f)));
      SteadyFormMembers(v, f);
    case _ =>
  }

  lemma {:induction false} SteadyFormMembers(v: J, f: Fields)
    requires v == Obj(f) && WellFormed(v)
    ensures SteadyMembers(Normal(CanonFields(false, f))) <==> SteadyMembers(f)
    decreases v, 0
  {
    var c := CanonFields(false, f);
    var g := Normal(c);
    DefinedExact(c);
    SortExact(Defined(c));
    forall i | 0 <= i < |f| ensures SteadyField(c[i].0, c[i].1) <==> SteadyField(f[i].0, f[i].1) {
      SteadyFieldForm(f[i].0, f[i].1);
    }
    NormalSteady(c);
    assert SteadyMembers(c) <==> SteadyMembers(f);
  }

  /** Undefined fields are steady, so dropping them and sorting the others changes nothing. */
  lemma NormalSteady(c: Fields)
    requires DistinctKeys(c)
    ensures SteadyMembers(Normal(c)) <==> SteadyMembers(c)
  {
    var g := Normal(c);
    DefinedExact(c);
    SortExact(Defined(c));
    if SteadyMembers(g) {
      forall i | 0 <= i < |c| ensures SteadyField(c[i].0, c[i].1) {
        if c[i].1 != Undef {
          assert c[i] in g;
        }
      }
    }
    if SteadyMembers(c) {
      forall j | 0 <= j < |g| ensures SteadyField(g[j].0, g[j].1) {
        assert g[j] in g && g[j] in c;
      }
    }
  }

  lemma {:induction false} SteadyFieldForm(key: string, v: J)
    requires WellFormed(v)
    ensures SteadyField(key, Canon(false, v)) <==> SteadyField(key, v)
    decreases v, 2
  {
    StringsForm(v);
    SteadyForm(v);
  }

  /** A list of strings is its own canonical form, and no other array becomes one. */
  lemma StringsForm(v: J)
    ensures StringArray(Canon(false, v)) <==> StringArray(v)
    ensures StringArray(v) ==> Canon(false, v) == v
  {
    if v.Arr? {
      var c := Canon(false, v);
      forall i | 0 <= i < |v.items| ensures c.items[i].Str? <==> v.items[i].Str? {
        assert c.items[i] == OrNull(Canon(false, v.items[i]));
      }
      if StringArray(v) {
        assert c.items == v.items;
      } else {
        var i :| 0 <= i < |v.items| && !v.items[i].Str?;
        assert !c.items[i].Str?;
      }
    }
  }

  /** A value that equals the canonical form of some constant is steady. */
  lemma EqualsCanonical(v: J, w: J)
    requires WellFormed(v) && WellFormed(w) && JsonEqual(CanonSchema(v), w)
    ensures Steady(w)
  {
    CanonicalSteady(v);
    CanonicalFormed(v);
    SteadyForm(CanonSchema(v));
    SteadyForm(w);
  }

  lemma {:induction false} CanonicalFormed(v: J)
    requires WellFormed(v)
    ensures WellFormed(CanonSchema(v))
    decreases v, 1
  {
    match v
    case Arr(items) =>
      forall i | 0 <= i < |items| ensures WellFormed(CanonSchema(v).items[i]) {
        CanonicalFormed(items[i]);
      }
    case Obj(f) =>
      ObjectForms(f, true);
      FieldsFormed(v, f);
    case _ =>
  }

  lemma {:induction false} FieldsFormed(v: J, f: Fields)
    requires v == Obj(f) && WellFormed(v)
    ensures WellFormed(Obj(Sort(KeyLeq(), SchemaFields(f))))
    decreases v, 0
  {
    hide CanonSchema, Sort;
    var g := Sort(KeyLeq(), SchemaFields(f));
    SortExact(SchemaFields(f));
    forall j | 0 <= j < |g| ensures WellFormed(g[j].1) {
      var i := SortedMembersBack(SchemaFields(f), j);
      if f[i].0 == "required" && StringArray(f[i].1) {
        RequiredFormed(f[i].1);
      } else {
        CanonicalFormed(f[i].1);
      }
    }
  }

  lemma RequiredFormed(v: J)
    requires StringArray(v)
    ensures WellFormed(SortedRequired(v))
  {
  }

  // ----- One constant, exactly -----

  /** Canonicalizing changes nothing about which values the schema admits. */
  ghost predicate KeepsMeaning(schema: J) {
    forall x :: Accepts(CanonSchema(schema), x) <==> Accepts(schema, x)
  }

  lemma OneKeyword(keyword: string, v: J, x: J)
    ensures Accepts(Obj([(keyword, v)]), x) <==> Admits(keyword, v, x)
    ensures Accepts(CanonSchema(Obj([(keyword, v)])), x) <==> Admits(keyword, SchemaField(keyword, v), x)
  {
    hide Admits, Sort, Defined, Normal, FusedFields, CanonFields;
    var f := [(keyword, v)];
    ObjectForms(f, true);
    ObjectAccepts(f, x);
    ObjectAccepts(SchemaFields(f), x);
    SortedAdmit(SchemaFields(f), x);
    ObjectAccepts(Sort(KeyLeq(), SchemaFields(f)), x);
    assert AllAdmit(f, x) <==> Admits(f[0].0, f[0].1, x);
    assert AllAdmit(SchemaFields(f), x) <==> Admits(keyword, SchemaField(keyword, v), x);
  }

  lemma OneKept(keyword: string, v: J)
    requires SteadyKeyword(keyword, v)
    ensures KeepsMeaning(Obj([(keyword, v)]))
  {
    var schema := Obj([(keyword, v)]);
    assert SteadyConstants(schema);
    forall x ensures Accepts(CanonSchema(schema), x) <==> Accepts(schema, x) {
      MeaningKept(schema, x);
    }
  }

  /** A `const` keeps its meaning if and only if it is steady: no carriage return, and no unsorted `required` list. */
  lemma ConstExactly(v: J)
    requires WellFormed(v) && v != Undef
    ensures KeepsMeaning(Obj([("const", v)])) <==> Steady(v)
  {
    if Steady(v) {
      OneKept("const", v);
    }
    if KeepsMeaning(Obj([("const", v)])) {
      OneKeyword("const", v, v);
      assert Accepts(CanonSchema(Obj([("const", v)])), v);
      assert CanonSchema(v) != Undef;
      EqualsCanonical(v, v);
    }
  }

  /** An `enum` keeps its meaning if and only if all its values are steady. */
  lemma EnumExactly(v: J)
    requires WellFormed(v) && v.Arr?
    ensures KeepsMeaning(Obj([("enum", v)])) <==> Steady(v)
  {
    if Steady(v) {
      OneKept("enum", v);
    }
    if KeepsMeaning(Obj([("enum", v)])) {
      forall k | 0 <= k < |v.items| ensures Steady(v.items[k]) {
        var x := v.items[k];
        OneKeyword("enum", v, x);
        assert JsonEqual(v.items[k], x);
        assert Accepts(CanonSchema(Obj([("enum", v)])), x);
        var i :| 0 <= i < |v.items| && JsonEqual(CanonSchema(v).items[i], x);
        EqualsCanonical(v.items[i], x);
      }
    }
  }

  lemma NullAndString(f: Fields, text: string, x: J)
    requires |f| == 2 && f[0] == ("const", Str(text)) && f[1] == ("type", Str("null"))
    ensures !AllAdmit(f, x)
  {
    if x.Null? {
      assert !JsonEqual(Str(text), x);
      assert !Admits(f[0].0, f[0].1, x);
    } else {
      assert !TypeName("null", x);
      assert !Admits(f[1].0, f[1].1, x);
    }
  }

  function Hidden(text: string): Fields {
    [("const", Str(text)), ("type", Str("null"))]
  }

  lemma HiddenFields(text: string)
    ensures SchemaFields(Hidden(text)) == Hidden(NormalizeNewlines(text))
  {
    NothingToNormalize("null");
    assert SchemaField("const", Str(text)) == Str(NormalizeNewlines(text));
    assert SchemaField("type", Str("null")) == Str("null");
  }

  /** A whole schema can keep its meaning although a constant is lost: here another keyword admits none of the strings
      that the constant could stand for. */
  lemma HiddenConstant(text: string)
    ensures KeepsMeaning(Obj([("const", Str(text)), ("type", Str("null"))]))
  {
    var f := Hidden(text);
    var g := SchemaFields(f);
    HiddenFields(text);
    ObjectForms(f, true);
    forall x ensures !Accepts(Obj(f), x) && !Accepts(CanonSchema(Obj(f)), x) {
      hide Accepts, AllAdmit, Sort;
      NullAndString(f, text, x);
      NullAndString(g, NormalizeNewlines(text), x);
      ObjectAccepts(f, x);
      ObjectAccepts(Sort(KeyLeq(), g), x);
      SortedAdmit(g, x);
    }
  }
}

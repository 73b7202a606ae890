// Canonical JSON is a canonical form: fields are compared by key, whatever their order.

module FieldProofs {
  import opened Sequences
  import opened Sorting
  import opened Text
  import opened Json

  type Fields = seq<(string, J)>

  /** Where a key stands, or past the end. */
  function Place(f: Fields, key: string): (i: nat)
    ensures i <= |f| && (i < |f| ==> f[i].0 == key && Get(f, key) == f[i].1)
    ensures i == |f| ==> Get(f, key) == Undef && forall k :: 0 <= k < |f| ==> f[k].0 != key
  {
    if f == [] then 0 else if f[0].0 == key then 0 else 1 + Place(f[1..], key)
  }

  lemma {:induction false} PlaceAligned(f: Fields, g: Fields, key: string)
    requires |f| == |g| && forall i :: 0 <= i < |f| ==> f[i].0 == g[i].0
    ensures Place(f, key) == Place(g, key)
  {
    if f != [] {
      PlaceAligned(f[1..], g[1..], key);
    }
  }

  lemma Listed(f: Fields, key: string, i: nat)
    requires DistinctKeys(f) && i < |f| && f[i].0 == key
    ensures Get(f, key) == f[i].1
  {
    assert Place(f, key) == i;
  }

  /** With distinct keys a list is a table. */
  lemma GetExact(f: Fields, key: string, v: J)
    requires DistinctKeys(f) && v != Undef
    ensures Get(f, key) == v <==> (key, v) in f
  {
    if (key, v) in f {
      var i :| 0 <= i < |f| && f[i] == (key, v);
      Listed(f, key, i);
    }
    var i := Place(f, key);
    assert i < |f| ==> f[i] in f;
  }

  lemma {:induction false} DefinedExact(f: Fields)
    requires DistinctKeys(f)
    ensures DistinctKeys(Defined(f))
    ensures forall x :: x in Defined(f) <==> x in f && x.1 != Undef
  {
    if f != [] {
      var n := |f| - 1;
      DefinedExact(f[..n]);
      assert f == f[..n] + [f[n]];
      forall i | 0 <= i < |Defined(f[..n])| ensures Defined(f[..n])[i].0 != f[n].0 {
        assert Defined(f[..n])[i] in f[..n];
      }
    }
  }

  lemma {:induction false} InsertDistinct(x: (string, J), f: Fields)
    requires DistinctKeys(f) && forall i :: 0 <= i < |f| ==> f[i].0 != x.0
    ensures DistinctKeys(Insert(KeyLeq(), x, f))
    ensures forall y :: y in Insert(KeyLeq(), x, f) <==> y == x || y in f
  {
    if f != [] && !KeyLeq()(x, f[0]) {
      InsertDistinct(x, f[1..]);
      var rest := Insert(KeyLeq(), x, f[1..]);
      forall i | 0 <= i < |rest| ensures rest[i].0 != f[0].0 {
        assert rest[i] in rest;
      }
      assert f == [f[0]] + f[1..];
    }
  }

  lemma {:induction false} SortExact(f: Fields)
    requires DistinctKeys(f)
    ensures DistinctKeys(Sort(KeyLeq(), f))
    ensures forall y :: y in Sort(KeyLeq(), f) <==> y in f
  {
    if f != [] {
      SortExact(f[1..]);
      var rest := Sort(KeyLeq(), f[1..]);
      forall i | 0 <= i < |rest| ensures rest[i].0 != f[0].0 {
        assert rest[i] in rest;
      }
      InsertDistinct(f[0], rest);
      assert f == [f[0]] + f[1..];
    }
  }

  predicate ByKey(f: Fields) {
    forall i, j :: 0 <= i < j < |f| ==> StringLeq(f[i].0, f[j].0) && f[i].0 != f[j].0
  }

  lemma KeyOrder()
    ensures TotalPreorder(KeyLeq())
  {
    StringOrder();
    forall a, b ensures KeyLeq()(a, b) || KeyLeq()(b, a) {
      StringTotal(a.0, b.0);
    }
    forall a, b, c | KeyLeq()(a, b) && KeyLeq()(b, c) ensures KeyLeq()(a, c) {
      StringTransitive(a.0, b.0, c.0);
    }
  }

  lemma SortByKey(f: Fields)
    requires DistinctKeys(f)
    ensures ByKey(Sort(KeyLeq(), f))
  {
    KeyOrder();
    SortSorted(KeyLeq(), f);
    SortExact(f);
    var s := Sort(KeyLeq(), f);
    forall i, j | 0 <= i < j < |s| ensures StringLeq(s[i].0, s[j].0) {
      assert KeyLeq()(s[i], s[j]);
    }
  }

  ghost predicate SameMembers(f: Fields, g: Fields) {
    forall x :: x in f <==> x in g
  }

  lemma ByKeyHeads(f: Fields, g: Fields)
    requires ByKey(f) && ByKey(g) && SameMembers(f, g) && f != [] && g != []
    ensures f[0] == g[0]
  {
    assert f[0] in g && g[0] in f;
    var j :| 0 <= j < |g| && g[j] == f[0];
    var i :| 0 <= i < |f| && f[i] == g[0];
    StringTotal(f[0].0, g[0].0);
  }

  lemma {:induction false} ByKeyUnique(f: Fields, g: Fields)
    requires ByKey(f) && ByKey(g) && SameMembers(f, g)
    ensures f == g
  {
    if g != [] {
      assert g[0] in g;
    }
    if f != [] {
      assert f[0] in f;
      ByKeyHeads(f, g);
      assert f == [f[0]] + f[1..] && g == [g[0]] + g[1..];
      forall x ensures x in f[1..] <==> x in g[1..] {
        assert x in f <==> x in g;
        HeadNotInTail(f, x);
        HeadNotInTail(g, x);
      }
      ByKeyUnique(f[1..], g[1..]);
    }
  }

  lemma HeadNotInTail(f: Fields, x: (string, J))
    requires ByKey(f) && f != []
    ensures x in f[1..] <==> x in f && x != f[0]
  {
    assert f == [f[0]] + f[1..];
    if x in f[1..] {
      var i :| 0 <= i < |f| - 1 && f[1..][i] == x;
      assert f[i + 1] == x;
    }
  }

  function Normal(f: Fields): Fields {
    Sort(KeyLeq(), Defined(f))
  }

  ghost predicate SameTable(f: Fields, g: Fields) {
    forall key :: Get(f, key) == Get(g, key)
  }

  lemma NormalKeeps(f: Fields)
    requires DistinctKeys(f)
    ensures DistinctKeys(Normal(f)) && ByKey(Normal(f)) && SameTable(Normal(f), f)
  {
    DefinedExact(f);
    SortExact(Defined(f));
    SortByKey(Defined(f));
    forall key ensures Get(Normal(f), key) == Get(f, key) {
      var v, w := Get(f, key), Get(Normal(f), key);
      if v != Undef {
        GetExact(f, key, v);
        GetExact(Normal(f), key, v);
      }
      if w != Undef {
        GetExact(f, key, w);
        GetExact(Normal(f), key, w);
      }
    }
  }

  /** Sorted lists without undefined values are equal exactly when they are the same table. */
  lemma NormalExact(f: Fields, g: Fields)
    requires DistinctKeys(f) && DistinctKeys(g)
    ensures Normal(f) == Normal(g) <==> SameTable(f, g)
  {
    NormalKeeps(f);
    NormalKeeps(g);
    if SameTable(f, g) {
      forall x ensures x in Normal(f) <==> x in Normal(g) {
        NormalMember(f, x);
        NormalMember(g, x);
      }
      ByKeyUnique(Normal(f), Normal(g));
    } else {
      var key :| Get(f, key) != Get(g, key);
      assert Get(Normal(f), key) == Get(f, key) && Get(Normal(g), key) == Get(g, key);
    }
  }

  lemma NormalMember(f: Fields, x: (string, J))
    requires DistinctKeys(f)
    ensures x in Normal(f) <==> x.1 != Undef && Get(f, x.0) == x.1
  {
    DefinedExact(f);
    SortExact(Defined(f));
    if x.1 != Undef {
      GetExact(f, x.0, x.1);
      assert (x.0, x.1) == x;
    }
  }

  /** Sorting alone keeps the table. */
  lemma SortKeepsTable(f: Fields)
    requires DistinctKeys(f)
    ensures SameTable(Sort(KeyLeq(), f), f)
  {
    SortExact(f);
    forall key ensures Get(Sort(KeyLeq(), f), key) == Get(f, key) {
      var s := Sort(KeyLeq(), f);
      var v, w := Get(f, key), Get(s, key);
      if v != Undef {
        GetExact(f, key, v);
        GetExact(s, key, v);
      }
      if w != Undef {
        GetExact(f, key, w);
        GetExact(s, key, w);
      }
    }
  }
}

module CanonicalProofs {
  import opened Sequences
  import opened Sorting
  import opened Text
  import opened Json
  import opened FieldProofs

  function FusedFields(normalizeText: bool, f: Fields): (g: Fields)
    ensures |g| == |f|
    ensures forall i :: 0 <= i < |f| ==> g[i] == (f[i].0, FusedField(normalizeText, f[i].0, f[i].1))
  {
    seq(|f|, i requires 0 <= i < |f| => (f[i].0, FusedField(normalizeText, f[i].0, f[i].1)))
  }

  function SchemaFields(f: Fields): (g: Fields)
    ensures |g| == |f|
    ensures forall i :: 0 <= i < |f| ==> g[i] == (f[i].0, SchemaField(f[i].0, f[i].1))
  {
    seq(|f|, i requires 0 <= i < |f| => (f[i].0, SchemaField(f[i].0, f[i].1)))
  }

  function CanonFields(normalizeText: bool, f: Fields): (g: Fields)
    ensures |g| == |f|
    ensures forall i :: 0 <= i < |f| ==> g[i] == (f[i].0, Canon(normalizeText, f[i].1))
  {
    seq(|f|, i requires 0 <= i < |f| => (f[i].0, Canon(normalizeText, f[i].1)))
  }

  lemma ObjectForms(f: Fields, normalizeText: bool)
    ensures Fused(normalizeText, Obj(f)) == Obj(Normal(FusedFields(normalizeText, f)))
    ensures CanonSchema(Obj(f)) == Obj(Sort(KeyLeq(), SchemaFields(f)))
    ensures Canon(normalizeText, Obj(f)) == Obj(Normal(CanonFields(normalizeText, f)))
  {
    assert seq(|f|, i requires 0 <= i < |f| => (f[i].0, FusedField(normalizeText, f[i].0, f[i].1))) == FusedFields(normalizeText, f);
    assert seq(|f|, i requires 0 <= i < |f| => (f[i].0, SchemaField(f[i].0, f[i].1))) == SchemaFields(f);
    assert seq(|f|, i requires 0 <= i < |f| => (f[i].0, Canon(normalizeText, f[i].1))) == CanonFields(normalizeText, f);
  }

  lemma CanonObject(normalizeText: bool, f: Fields)
    ensures Canon(normalizeText, Obj(f)) == Obj(Normal(CanonFields(normalizeText, f)))
  {
    ObjectForms(f, normalizeText);
  }

  lemma MappedTables(f: Fields, key: string, normalizeText: bool)
    ensures Get(FusedFields(normalizeText, f), key) == FusedField(normalizeText, key, Get(f, key))
    ensures Get(SchemaFields(f), key) == SchemaField(key, Get(f, key))
    ensures Get(CanonFields(normalizeText, f), key) == Canon(normalizeText, Get(f, key))
  {
    PlaceAligned(f, FusedFields(normalizeText, f), key);
    PlaceAligned(f, SchemaFields(f), key);
    PlaceAligned(f, CanonFields(normalizeText, f), key);
    var i := Place(f, key);
  }

  // ----- The two passes are one -----

  lemma RequiredPipeline(normalizeText: bool, v: J)
    requires StringArray(v)
    ensures Canon(normalizeText, SortedRequired(v)) == FusedRequired(normalizeText, v)
  {
  }

  lemma {:induction false} Pipeline(normalizeText: bool, v: J)
    requires WellFormed(v)
    ensures Canon(normalizeText, CanonSchema(v)) == Fused(normalizeText, v)
    decreases v, 1
  {
    match v
    case Str(s) => NormalizeExact(s, s);
    case Arr(items) =>
      forall i | 0 <= i < |items| ensures Canon(normalizeText, CanonSchema(items[i])) == Fused(normalizeText, items[i]) {
        Pipeline(normalizeText, items[i]);
      }
    case Obj(f) =>
      var g := Sort(KeyLeq(), SchemaFields(f));
      ObjectForms(f, normalizeText);
      ObjectForms(g, normalizeText);
      SortExact(SchemaFields(f));
      PipelineFields(normalizeText, v, f);
      NormalExact(CanonFields(normalizeText, g), FusedFields(normalizeText, f));
    case _ =>
  }

  lemma {:induction false} PipelineFields(normalizeText: bool, v: J, f: Fields)
    requires v == Obj(f) && WellFormed(v)
    ensures SameTable(CanonFields(normalizeText, Sort(KeyLeq(), SchemaFields(f))), FusedFields(normalizeText, f))
    decreases v, 0
  {
    var g := Sort(KeyLeq(), SchemaFields(f));
    SortKeepsTable(SchemaFields(f));
    forall key ensures Get(CanonFields(normalizeText, g), key) == Get(FusedFields(normalizeText, f), key) {
      MappedTables(f, key, normalizeText);
      MappedTables(g, key, normalizeText);
      assert Get(g, key) == Get(SchemaFields(f), key);
      var i := Place(f, key);
      if i < |f| {
        FieldPipeline(normalizeText, key, f[i].1);
        Pipeline(normalizeText, f[i].1);
      }
    }
  }

  lemma FieldPipeline(normalizeText: bool, key: string, v: J)
    ensures key == "required" && StringArray(v) ==>
      Canon(normalizeText, SchemaField(key, v)) == FusedField(normalizeText, key, v)
  {
    if StringArray(v) {
      RequiredPipeline(normalizeText, v);
    }
  }

  // ----- Equal fingerprints -----

  lemma StrArrInjective(x: seq<string>, y: seq<string>)
    requires StrArr(x) == StrArr(y)
    ensures x == y
  {
    assert |x| == |StrArr(x).items| == |StrArr(y).items| == |y|;
    forall i | 0 <= i < |x| ensures x[i] == y[i] {
      assert StrArr(x).items[i] == Str(x[i]) && StrArr(y).items[i] == Str(y[i]);
    }
  }

  /** Normalized names are equal exactly when the names pair up. */
  lemma PairUpExact(x: seq<string>, y: seq<string>)
    ensures Map(NormalizeNewlines, x) == Map(NormalizeNewlines, y) <==> PairUp(x, y)
  {
    var p, q := Map(NormalizeNewlines, x), Map(NormalizeNewlines, y);
    if |x| == |y| {
      forall i | 0 <= i < |x| ensures p[i] == q[i] <==> SameLines(x[i], y[i]) {
        NormalizeExact(x[i], y[i]);
      }
      if p == q {
        assert PairUp(x, y);
      }
    } else {
      assert |p| != |q|;
    }
  }

  /** The rule by which required names are compared in a form. */
  function RuleOf(normalizeText: bool): NameRule {
    if normalizeText then Paired else AsWritten
  }

  lemma RequiredExact(normalizeText: bool, a: J, b: J)
    requires StringArray(a) && StringArray(b)
    ensures FusedRequired(normalizeText, a) == FusedRequired(normalizeText, b) <==> SameRequired(RuleOf(normalizeText), a, b)
  {
    var x, y := Sort(StringLeq, Strings(a)), Sort(StringLeq, Strings(b));
    if normalizeText {
      PairUpExact(x, y);
      if FusedRequired(true, a) == FusedRequired(true, b) {
        StrArrInjective(Map(NormalizeNewlines, x), Map(NormalizeNewlines, y));
      }
    } else {
      SortPermutes(StringLeq, Strings(a));
      SortPermutes(StringLeq, Strings(b));
      if FusedRequired(false, a) == FusedRequired(false, b) {
        StrArrInjective(x, y);
      }
      if multiset(Strings(a)) == multiset(Strings(b)) {
        SortsAlike(Strings(a), Strings(b));
      }
    }
  }

  lemma RequiredPaired(a: J, b: J)
    requires StringArray(a) && StringArray(b) && SameRequired(AsWritten, a, b)
    ensures SameRequired(Paired, a, b)
  {
    SortsAlike(Strings(a), Strings(b));
  }

  lemma RequiredLoosely(a: J, b: J)
    requires StringArray(a) && StringArray(b) && SameRequired(Paired, a, b)
    ensures SameRequired(AnyStyle, a, b)
  {
    PairUpExact(Sort(StringLeq, Strings(a)), Sort(StringLeq, Strings(b)));
    SortPermutes(StringLeq, Strings(a));
    SortPermutes(StringLeq, Strings(b));
    MapMultiset(NormalizeNewlines, Strings(a), Sort(StringLeq, Strings(a)));
    MapMultiset(NormalizeNewlines, Strings(b), Sort(StringLeq, Strings(b)));
  }

  lemma MapKeepsPlain(ss: seq<string>)
    requires NoneReturn(ss)
    ensures Map(NormalizeNewlines, ss) == ss
  {
    forall i | 0 <= i < |ss| ensures NormalizeNewlines(ss[i]) == ss[i] {
      NothingToNormalize(ss[i]);
    }
  }

  lemma RequiredPlainly(a: J, b: J)
    requires StringArray(a) && StringArray(b) && SameRequired(AnyStyle, a, b) && NoneReturn(Strings(a)) && NoneReturn(Strings(b))
    ensures SameRequired(AsWritten, a, b)
  {
    MapKeepsPlain(Strings(a));
    MapKeepsPlain(Strings(b));
  }

  lemma SortsAlike(xs: seq<string>, ys: seq<string>)
    requires multiset(xs) == multiset(ys)
    ensures Sort(StringLeq, xs) == Sort(StringLeq, ys)
  {
    StringOrder();
    SortPermutes(StringLeq, xs);
    SortPermutes(StringLeq, ys);
    SortSorted(StringLeq, xs);
    SortSorted(StringLeq, ys);
    SortedUnique(StringLeq, Sort(StringLeq, xs), Sort(StringLeq, ys));
  }

  /** A list of names is never confused with another array. */
  lemma RequiredAlone(rule: NameRule, a: J, b: J)
    requires StringArray(a) && !StringArray(b)
    ensures !Same(rule, a, b) && !Same(rule, b, a)
  {
    if b.Arr? {
      var i :| 0 <= i < |b.items| && !b.items[i].Str?;
      if |a.items| == |b.items| {
        assert a.items[i].Str?;
        StringAlone(rule, a.items[i], b.items[i]);
      }
    }
  }

  lemma FormAlone(normalizeText: bool, a: J, b: J)
    requires StringArray(a) && !StringArray(b)
    ensures FusedRequired(normalizeText, a) != Fused(normalizeText, b)
  {
    if b.Arr? {
      var i :| 0 <= i < |b.items| && !b.items[i].Str?;
      assert !Fused(normalizeText, b).items[i].Str?;
      var form := FusedRequired(normalizeText, a);
      assert i < |form.items| ==> form.items[i].Str?;
    }
  }

  lemma StringAlone(rule: NameRule, a: J, b: J)
    requires a.Str? && !b.Str?
    ensures !SameItem(rule, a, b) && !SameItem(rule, b, a)
  {
    assert !Same(rule, b, a);
  }

  lemma FieldExact(normalizeText: bool, key: string, x: J, y: J)
    requires Fused(normalizeText, x) == Fused(normalizeText, y) <==> Same(RuleOf(normalizeText), x, y)
    ensures FusedField(normalizeText, key, x) == FusedField(normalizeText, key, y)
       <==> SameField(RuleOf(normalizeText), key, x, y)
  {
    if key == "required" {
      if StringArray(x) && StringArray(y) {
        RequiredExact(normalizeText, x, y);
      } else if StringArray(x) {
        RequiredAlone(RuleOf(normalizeText), x, y);
        FormAlone(normalizeText, x, y);
      } else if StringArray(y) {
        RequiredAlone(RuleOf(normalizeText), y, x);
        FormAlone(normalizeText, y, x);
      }
    }
  }

  ghost predicate SameFields(rule: NameRule, f: Fields, g: Fields) {
    forall key :: SameField(rule, key, Get(f, key), Get(g, key))
  }

  ghost predicate SameFusedFields(normalizeText: bool, f: Fields, g: Fields) {
    forall key :: FusedField(normalizeText, key, Get(f, key)) == FusedField(normalizeText, key, Get(g, key))
  }

  /** Objects say the same exactly when their fields do, key by key. */
  lemma SameObjects(rule: NameRule, f: Fields, g: Fields)
    requires DistinctKeys(f) && DistinctKeys(g)
    ensures Same(rule, Obj(f), Obj(g)) <==> SameFields(rule, f, g)
  {
    if Same(rule, Obj(f), Obj(g)) {
      forall key ensures SameField(rule, key, Get(f, key), Get(g, key)) {
        var i, j := Place(f, key), Place(g, key);
        if i == |f| && j < |g| {
          assert g[j].1 == Undef;
        }
      }
    }
    if SameFields(rule, f, g) {
      FieldsSame(rule, f, g);
    }
  }

  lemma FieldsSame(rule: NameRule, f: Fields, g: Fields)
    requires DistinctKeys(f) && DistinctKeys(g) && SameFields(rule, f, g)
    ensures Same(rule, Obj(f), Obj(g))
  {
    var a, b := Obj(f), Obj(g);
    forall i | 0 <= i < |a.fields| ensures SameField(rule, a.fields[i].0, a.fields[i].1, Get(b.fields, a.fields[i].0)) {
      Listed(f, f[i].0, i);
      assert SameField(rule, f[i].0, Get(f, f[i].0), Get(g, f[i].0));
    }
    forall j | 0 <= j < |b.fields| && b.fields[j].1 != Undef ensures Get(a.fields, b.fields[j].0) != Undef {
      Listed(g, g[j].0, j);
      assert SameField(rule, g[j].0, Get(f, g[j].0), Get(g, g[j].0));
    }
  }

  lemma FusedTables(normalizeText: bool, f: Fields, g: Fields)
    ensures SameTable(FusedFields(normalizeText, f), FusedFields(normalizeText, g)) <==> SameFusedFields(normalizeText, f, g)
  {
    FusedTable(normalizeText, f);
    FusedTable(normalizeText, g);
    if SameTable(FusedFields(normalizeText, f), FusedFields(normalizeText, g)) {
      forall key ensures FusedField(normalizeText, key, Get(f, key)) == FusedField(normalizeText, key, Get(g, key)) {
        assert Get(FusedFields(normalizeText, f), key) == Get(FusedFields(normalizeText, g), key);
      }
    }
  }

  lemma FusedObjects(normalizeText: bool, f: Fields, g: Fields)
    requires DistinctKeys(f) && DistinctKeys(g)
    ensures Fused(normalizeText, Obj(f)) == Fused(normalizeText, Obj(g)) <==> SameFusedFields(normalizeText, f, g)
  {
    ObjectForms(f, normalizeText);
    ObjectForms(g, normalizeText);
    NormalExact(FusedFields(normalizeText, f), FusedFields(normalizeText, g));
    FusedTables(normalizeText, f, g);
  }

  lemma FusedTable(normalizeText: bool, f: Fields)
    ensures forall key :: Get(FusedFields(normalizeText, f), key) == FusedField(normalizeText, key, Get(f, key))
  {
    forall key ensures Get(FusedFields(normalizeText, f), key) == FusedField(normalizeText, key, Get(f, key)) {
      MappedTables(f, key, normalizeText);
    }
  }

  /** Canonical form of schemas, exactly. Two schemas have the same form if and only if they are equal up to the order
      of keys, newline style, undefined fields, and required names that pair up once sorted. */
  lemma {:induction false} FusedExact(normalizeText: bool, a: J, b: J)
    requires WellFormed(a) && WellFormed(b)
    ensures Fused(normalizeText, a) == Fused(normalizeText, b) <==> Same(RuleOf(normalizeText), a, b)
    decreases a
  {
    match a
    case Str(s) =>
      if b.Str? {
        NormalizeExact(s, b.text);
      }
    case Arr(items) =>
      if b.Arr? && |items| == |b.items| {
        forall i | 0 <= i < |items|
          ensures OrNull(Fused(normalizeText, items[i])) == OrNull(Fused(normalizeText, b.items[i]))
             <==> SameItem(RuleOf(normalizeText), items[i], b.items[i])
        {
          FusedExact(normalizeText, items[i], b.items[i]);
        }
        ArrayForms(normalizeText, a, b);
      } else if b.Arr? {
        assert |Fused(normalizeText, a).items| == |items| && |Fused(normalizeText, b).items| == |b.items|;
      } else {
        assert Fused(normalizeText, a).Arr? && !Fused(normalizeText, b).Arr?;
      }
    case Obj(f) =>
      if b.Obj? {
        ObjectsExact(normalizeText, f, b.fields, a);
      }
    case _ =>
  }

  lemma ArrayForms(normalizeText: bool, a: J, b: J)
    requires a.Arr? && b.Arr? && |a.items| == |b.items|
    ensures Fused(normalizeText, a) == Fused(normalizeText, b) <==>
      forall i :: 0 <= i < |a.items| ==> OrNull(Fused(normalizeText, a.items[i])) == OrNull(Fused(normalizeText, b.items[i]))
  {
    if Fused(normalizeText, a) == Fused(normalizeText, b) {
      forall i | 0 <= i < |a.items| ensures OrNull(Fused(normalizeText, a.items[i])) == OrNull(Fused(normalizeText, b.items[i])) {
        assert Fused(normalizeText, a).items[i] == Fused(normalizeText, b).items[i];
      }
    }
  }

  lemma {:induction false} ObjectsExact(normalizeText: bool, f: Fields, g: Fields, a: J)
    requires a == Obj(f) && WellFormed(a) && WellFormed(Obj(g))
    ensures Fused(normalizeText, a) == Fused(normalizeText, Obj(g)) <==> Same(RuleOf(normalizeText), a, Obj(g))
    decreases a, 0
  {
    SameObjects(RuleOf(normalizeText), f, g);
    FusedObjects(normalizeText, f, g);
    forall key
      ensures FusedField(normalizeText, key, Get(f, key)) == FusedField(normalizeText, key, Get(g, key))
         <==> SameField(RuleOf(normalizeText), key, Get(f, key), Get(g, key))
    {
      var i, j := Place(f, key), Place(g, key);
      if i < |f| {
        FusedExact(normalizeText, f[i].1, Get(g, key));
      }
      FieldExact(normalizeText, key, Get(f, key), Get(g, key));
    }
  }

  /** Names as they are written pair up, names that pair up are the same in any style, and names without carriage returns
      that are the same in any style are the same as written. */
  predicate Implies(rule: NameRule, weaker: NameRule, plain: bool) {
    || (rule == AsWritten && weaker == Paired)
    || (rule == Paired && weaker == AnyStyle)
    || (plain && rule == AnyStyle && weaker == AsWritten)
  }

  lemma {:induction false} SameImplies(rule: NameRule, weaker: NameRule, a: J, b: J)
    requires Implies(rule, weaker, PlainRequired(a) && PlainRequired(b)) && Same(rule, a, b)
    ensures Same(weaker, a, b)
    decreases a, 0
  {
    match a
    case Arr(items) =>
      forall i | 0 <= i < |items| ensures SameItem(weaker, items[i], b.items[i]) {
        assert SameItem(rule, items[i], b.items[i]);
        if Same(rule, items[i], b.items[i]) {
          SameImplies(rule, weaker, items[i], b.items[i]);
        }
      }
    case Obj(f) =>
      forall i | 0 <= i < |f| ensures SameField(weaker, f[i].0, f[i].1, Get(b.fields, f[i].0)) {
        if PlainRequired(b) {
          PlainGet(b.fields, f[i].0);
        }
        FieldImplies(rule, weaker, f[i].0, f[i].1, Get(b.fields, f[i].0));
      }
    case _ =>
  }

  lemma {:induction false} FieldImplies(rule: NameRule, weaker: NameRule, key: string, x: J, y: J)
    requires Implies(rule, weaker, PlainField(key, x) && PlainField(key, y)) && SameField(rule, key, x, y)
    ensures SameField(weaker, key, x, y)
    decreases x, 1
  {
    if key == "required" && StringArray(x) && StringArray(y) {
      match rule {
        case AsWritten => RequiredPaired(x, y);
        case Paired => RequiredLoosely(x, y);
        case AnyStyle => RequiredPlainly(x, y);
      }
    } else {
      if key == "required" && StringArray(x) {
        RequiredAlone(rule, x, y);
      } else if key == "required" && StringArray(y) {
        RequiredAlone(rule, y, x);
      } else {
        SameImplies(rule, weaker, x, y);
      }
    }
  }

  /** Required names as written pair up once sorted, names that pair up are the same names, and all three are the same
      when no `required` list holds a carriage return. */
  lemma PlainlySame(a: J, b: J)
    ensures Same(AsWritten, a, b) ==> Same(Paired, a, b)
    ensures Same(Paired, a, b) ==> Same(AnyStyle, a, b)
    ensures PlainRequired(a) && PlainRequired(b) && Same(AnyStyle, a, b) ==> Same(AsWritten, a, b)
  {
    if Same(AsWritten, a, b) {
      SameImplies(AsWritten, Paired, a, b);
    }
    if Same(Paired, a, b) {
      SameImplies(Paired, AnyStyle, a, b);
    }
    if PlainRequired(a) && PlainRequired(b) && Same(AnyStyle, a, b) {
      SameImplies(AnyStyle, AsWritten, a, b);
    }
  }

  lemma PlainGet(f: Fields, key: string)
    requires PlainRequired(Obj(f))
    ensures PlainField(key, Get(f, key))
  {
    var i := Place(f, key);
  }

  lemma PairSorted(a: string, b: string)
    ensures Sort(StringLeq, [a, b]) == if StringLeq(a, b) then [a, b] else [b, a]
  {
    assert [a, b][1..] == [b] && [b][1..] == [];
    assert Sort(StringLeq, [b]) == Insert(StringLeq, b, []) == [b];
    assert Insert(StringLeq, a, []) == [a];
    assert [a] + [b] == [a, b] && [b] + [a] == [b, a];
  }

  lemma NewlineOrder()
    ensures !StringLeq("a\rb", "a\nz") && StringLeq("a\nb", "a\nz")
  {
    assert "a\rb"[1..] == "\rb" && "a\nz"[1..] == "\nz" && "a\nb"[1..] == "\nb";
    assert "\nb"[1..] == "b" && "\nz"[1..] == "z";
  }

  lemma NewlineNormal()
    ensures NormalizeNewlines("a\rb") == "a\nb"
    ensures NormalizeNewlines("a\nb") == "a\nb" && NormalizeNewlines("a\nz") == "a\nz"
  {
    NothingToNormalize("a\nb");
    NothingToNormalize("a\nz");
    NothingToNormalize("b");
    assert "a\rb"[1..] == "\rb" && "\rb"[1..] == "b";
  }

  lemma OneRequiredSame(x: seq<string>, y: seq<string>)
    requires multiset(Map(NormalizeNewlines, x)) == multiset(Map(NormalizeNewlines, y))
    ensures SameFields(AnyStyle, [("required", StrArr(x))], [("required", StrArr(y))])
  {
    var a, b := StrArr(x), StrArr(y);
    assert Strings(a) == x && Strings(b) == y;
    FieldsOf("required", a);
    FieldsOf("required", b);
    assert SameField(AnyStyle, "required", a, b);
  }

  lemma RequiredForm(x: seq<string>)
    ensures FusedField(true, "required", StrArr(x)) == StrArr(Map(NormalizeNewlines, Sort(StringLeq, x)))
  {
    assert Strings(StrArr(x)) == x;
  }

  lemma RequiredDiffer(x: seq<string>, y: seq<string>)
    requires Map(NormalizeNewlines, Sort(StringLeq, x)) != Map(NormalizeNewlines, Sort(StringLeq, y))
    ensures FusedField(true, "required", StrArr(x)) != FusedField(true, "required", StrArr(y))
  {
    var p, q := Map(NormalizeNewlines, Sort(StringLeq, x)), Map(NormalizeNewlines, Sort(StringLeq, y));
    RequiredForm(x);
    RequiredForm(y);
    if StrArr(p) == StrArr(q) {
      StrArrInjective(p, q);
    }
  }

  lemma OneFieldDiffers(key: string, a: J, b: J)
    requires FusedField(true, key, a) != FusedField(true, key, b)
    ensures !SameFusedFields(true, [(key, a)], [(key, b)])
  {
    FieldsOf(key, a);
    FieldsOf(key, b);
    assert FusedField(true, key, Get([(key, a)], key)) != FusedField(true, key, Get([(key, b)], key));
  }

  lemma OneRequired(x: seq<string>, y: seq<string>)
    requires multiset(Map(NormalizeNewlines, x)) == multiset(Map(NormalizeNewlines, y))
    requires Map(NormalizeNewlines, Sort(StringLeq, x)) != Map(NormalizeNewlines, Sort(StringLeq, y))
    ensures Same(AnyStyle, Obj([("required", StrArr(x))]), Obj([("required", StrArr(y))]))
    ensures Fused(true, Obj([("required", StrArr(x))])) != Fused(true, Obj([("required", StrArr(y))]))
  {
    var f, g := [("required", StrArr(x))], [("required", StrArr(y))];
    OneRequiredSame(x, y);
    RequiredDiffer(x, y);
    OneFieldDiffers("required", StrArr(x), StrArr(y));
    SameObjects(AnyStyle, f, g);
    FusedObjects(true, f, g);
  }

  /** The condition is needed: a `required` list is sorted before its newlines are normalized, so two schemas that
      differ only in newline style can have different forms. */
  lemma RequiredNewlinesMatter()
    ensures var a, b := Obj([("required", StrArr(["a\rb", "a\nz"]))]), Obj([("required", StrArr(["a\nb", "a\nz"]))]);
      Same(AnyStyle, a, b) && Fused(true, a) != Fused(true, b)
  {
    var x, y := ["a\rb", "a\nz"], ["a\nb", "a\nz"];
    NewlineOrder();
    NewlineNormal();
    PairSorted("a\rb", "a\nz");
    PairSorted("a\nb", "a\nz");
    assert Map(NormalizeNewlines, x) == y == Map(NormalizeNewlines, y);
    assert Map(NormalizeNewlines, Sort(StringLeq, x))[0] == "a\nz";
    assert Map(NormalizeNewlines, Sort(StringLeq, y))[0] == "a\nb";
    assert "a\nz"[2] != "a\nb"[2];
    OneRequired(x, y);
  }

  lemma FieldsOf(key: string, v: J)
    ensures Get([(key, v)], key) == v
    ensures forall other :: other != key ==> Get([(key, v)], other) == Undef
  {
    forall other | other != key ensures Get([(key, v)], other) == Undef {
      assert [(key, v)][1..] == [];
    }
  }
}

// packages/agent/src/context-engine.ts: the stable prefix of a request, its fingerprints, and cache diagnostics.

module Permutations {
  import opened Sequences

  predicate Permutes(p: seq<nat>, n: nat) {
    && |p| == n
    && (forall i :: 0 <= i < n ==> p[i] < n)
    && (forall i, j :: 0 <= i < j < n ==> p[i] != p[j])
  }

  predicate MatchedBy<T(==)>(xs: seq<T>, ys: seq<T>, p: seq<nat>) {
    |xs| == |ys| && Permutes(p, |xs|) && forall i :: 0 <= i < |xs| ==> xs[i] == ys[p[i]]
  }

  function Without<T>(ys: seq<T>, j: nat): seq<T>
    requires j < |ys|
  {
    ys[..j] + ys[j + 1..]
  }

  lemma {:induction false} FindMatching<T>(xs: seq<T>, ys: seq<T>) returns (p: seq<nat>)
    requires multiset(xs) == multiset(ys)
    ensures MatchedBy(xs, ys, p)
    decreases |xs|
  {
    assert |xs| == |multiset(xs)| == |multiset(ys)| == |ys|;
    if xs == [] {
      p := [];
    } else {
      var n := |xs| - 1;
      assert xs[n] in multiset(ys);
      var j := IndexOf(ys, xs[n]);
      RemoveFromBoth(xs, n, ys, j);
      assert xs[..n] + xs[n + 1..] == xs[..n];
      var q := FindMatching(xs[..n], Without(ys, j));
      p := MatchLast(xs, ys, j, q);
    }
  }

  /** A matching of all but the last element, and a place for that one. */
  lemma MatchLast<T>(xs: seq<T>, ys: seq<T>, j: nat, q: seq<nat>) returns (p: seq<nat>)
    requires |xs| == |ys| > 0 && j < |ys| && xs[|xs| - 1] == ys[j]
    requires MatchedBy(xs[..|xs| - 1], Without(ys, j), q)
    ensures MatchedBy(xs, ys, p)
  {
    var n := |xs| - 1;
    var moved := seq(n, k requires 0 <= k < n => if q[k] < j then q[k] else q[k] + 1);
    forall k | 0 <= k < n ensures moved[k] != j && moved[k] <= n && xs[k] == ys[moved[k]] {
      assert xs[..n][k] == Without(ys, j)[q[k]];
    }
    forall i, k | 0 <= i < k < n ensures moved[i] != moved[k] {
      assert q[i] != q[k];
    }
    p := moved + [j];
  }

  lemma {:induction false} MatchedMultisets<T>(xs: seq<T>, ys: seq<T>, p: seq<nat>)
    requires MatchedBy(xs, ys, p)
    ensures multiset(xs) == multiset(ys)
    decreases |xs|
  {
    if xs != [] {
      var n := |xs| - 1;
      var j := p[n];
      assert |xs| == |ys| && xs[n] == ys[j];
      var q := UnmatchLast(xs, ys, p);
      MatchedMultisets(xs[..n], Without(ys, j), q);
      hide MatchedBy;
      SameWithout(xs, ys, j);
    }
  }

  lemma SameWithout<T>(xs: seq<T>, ys: seq<T>, j: nat)
    requires xs != [] && j < |ys| && xs[|xs| - 1] == ys[j] && multiset(xs[..|xs| - 1]) == multiset(Without(ys, j))
    ensures multiset(xs) == multiset(ys)
  {
    RemoveAt(ys, j);
    assert xs == xs[..|xs| - 1] + [xs[|xs| - 1]];
  }

  lemma UnmatchLast<T>(xs: seq<T>, ys: seq<T>, p: seq<nat>) returns (q: seq<nat>)
    requires MatchedBy(xs, ys, p) && xs != []
    ensures MatchedBy(xs[..|xs| - 1], Without(ys, p[|xs| - 1]), q)
  {
    var n := |xs| - 1;
    var j := p[n];
    q := seq(n, k requires 0 <= k < n => if p[k] < j then p[k] else p[k] - 1);
    forall k | 0 <= k < n ensures q[k] < n && xs[..n][k] == Without(ys, j)[q[k]] {
      assert p[k] != p[n];
    }
    forall i, k | 0 <= i < k < n ensures q[i] != q[k] {
      assert p[i] != p[k] && p[i] != p[n] && p[k] != p[n];
    }
  }
}

module ContextPrefix {
  import opened Wrappers
  import opened Sequences
  import opened Sorting
  import opened Text
  import opened Json
  import opened FieldProofs
  import opened CanonicalProofs
  import opened Permutations

  datatype Tool = Tool(name: string, description: string, parameters: J)

  /** What the prefix depends on besides its input: `localeCompare`, `JSON.stringify` and SHA-256. */
  datatype Host = Host(locale: (string, string) -> bool, stringify: J -> string, sha256: string -> string)

  /** String comparison is a total order, and text and digest are injective. */
  ghost predicate Faithful(h: Host) {
    && TotalPreorder(h.locale) && Antisymmetric(h.locale)
    && (forall a, b :: h.stringify(a) == h.stringify(b) ==> a == b)
    && (forall a, b :: h.sha256(a) == h.sha256(b) ==> a == b)
  }

  function Fingerprint(h: Host, v: J): string {
    h.sha256(h.stringify(v))
  }

  function CanonTool(t: Tool): Tool {
    Tool(NormalizeNewlines(t.name), NormalizeNewlines(t.description), CanonSchema(t.parameters))
  }

  /** The comparator of `canonicalizeTools`. */
  function ToolLeq(h: Host): (Tool, Tool) -> bool {
    (a: Tool, b: Tool) =>
      if a.name != b.name then h.locale(a.name, b.name)
      else if a.description != b.description then h.locale(a.description, b.description)
      else h.locale(h.stringify(Canon(false, a.parameters)), h.stringify(Canon(false, b.parameters)))
  }

  function CanonTools(h: Host, tools: Option<seq<Tool>>): seq<Tool> {
    Sort(ToolLeq(h), Map(CanonTool, tools.GetOr([])))
  }

  function ToolFields(t: Tool): Fields {
    [("name", Str(t.name)), ("description", Str(t.description)), ("parameters", t.parameters)]
  }

  function ToolValue(t: Tool): J {
    Obj(ToolFields(t))
  }

  function ToolsValue(h: Host, tools: Option<seq<Tool>>): J {
    Arr(Map(ToolValue, CanonTools(h, tools)))
  }

  function PrefixFields(h: Host, system: string, tools: Option<seq<Tool>>): Fields {
    [("systemPrompt", Str(NormalizeNewlines(system))), ("tools", ToolsValue(h, tools))]
  }

  datatype Snapshot = Snapshot(prefix: string, system: string, tools: string, provider: string, model: string)

  /** The fingerprints of `buildCacheStableContext`. */
  function BuildSnapshot(h: Host, system: string, tools: Option<seq<Tool>>, provider: string, model: string): Snapshot {
    Snapshot(Fingerprint(h, Canon(true, Obj(PrefixFields(h, system, tools)))),
             Fingerprint(h, Canon(true, Str(NormalizeNewlines(system)))),
             Fingerprint(h, Canon(true, ToolsValue(h, tools))),
             provider, model)
  }

  // ----- Equal tool fingerprints -----

  /** What a tool contributes to the fingerprint. */
  function Form(t: Tool): Tool {
    Tool(NormalizeNewlines(t.name), NormalizeNewlines(t.description), Fused(true, t.parameters))
  }

  /** What a tool is compared by when tools are sorted. */
  function SortForm(t: Tool): Tool {
    Tool(NormalizeNewlines(t.name), NormalizeNewlines(t.description), Fused(false, t.parameters))
  }

  /** The same, of a tool that is canonical already. */
  function FormOfCanon(t: Tool): Tool {
    Tool(NormalizeNewlines(t.name), NormalizeNewlines(t.description), Canon(true, t.parameters))
  }

  ghost predicate SameTool(rule: NameRule, a: Tool, b: Tool) {
    SameLines(a.name, b.name) && SameLines(a.description, b.description) && Same(rule, a.parameters, b.parameters)
  }

  /** The same tools, in any order. */
  ghost predicate SameTools(rule: NameRule, xs: seq<Tool>, ys: seq<Tool>) {
    exists p :: SameToolsBy(rule, xs, ys, p)
  }

  ghost predicate SameToolsBy(rule: NameRule, xs: seq<Tool>, ys: seq<Tool>, p: seq<nat>) {
    |xs| == |ys| && Permutes(p, |xs|) && forall i :: 0 <= i < |xs| ==> SameTool(rule, xs[i], ys[p[i]])
  }

  /** The comparator of `canonicalizeTools`, on the tools as they are given. */
  function GivenLeq(h: Host): (Tool, Tool) -> bool {
    (a: Tool, b: Tool) => ToolLeq(h)(CanonTool(a), CanonTool(b))
  }

  /** The same tools, in the order in which they are sorted. */
  ghost predicate ToolsPairUp(h: Host, xs: seq<Tool>, ys: seq<Tool>) {
    var s, t := Sort(GivenLeq(h), xs), Sort(GivenLeq(h), ys);
    |s| == |t| && forall i :: 0 <= i < |s| ==> SameTool(Paired, s[i], t[i])
  }

  predicate ToolsWellFormed(tools: seq<Tool>) {
    forall i :: 0 <= i < |tools| ==> WellFormed(tools[i].parameters)
  }

  predicate ToolsPlain(tools: seq<Tool>) {
    forall i :: 0 <= i < |tools| ==> PlainRequired(tools[i].parameters)
  }

  lemma FormExact(a: Tool, b: Tool)
    requires WellFormed(a.parameters) && WellFormed(b.parameters)
    ensures Form(a) == Form(b) <==> SameTool(Paired, a, b)
    ensures SortForm(a) == SortForm(b) <==> SameTool(AsWritten, a, b)
  {
    NormalizeExact(a.name, b.name);
    NormalizeExact(a.description, b.description);
    FusedExact(true, a.parameters, b.parameters);
    FusedExact(false, a.parameters, b.parameters);
  }

  lemma FormsAgree(t: Tool)
    requires WellFormed(t.parameters)
    ensures FormOfCanon(CanonTool(t)) == Form(t)
  {
    NormalizeExact(t.name, t.name);
    NormalizeExact(t.description, t.description);
    Pipeline(true, t.parameters);
  }

  /** Equal forms, in any order, are forms of the same tools. */
  lemma FormsMatch(xs: seq<Tool>, ys: seq<Tool>)
    requires ToolsWellFormed(xs) && ToolsWellFormed(ys) && multiset(Map(Form, xs)) == multiset(Map(Form, ys))
    ensures SameTools(AnyStyle, xs, ys)
  {
    var p := FindMatching(Map(Form, xs), Map(Form, ys));
    forall i | 0 <= i < |xs| ensures SameTool(AnyStyle, xs[i], ys[p[i]]) {
      assert Map(Form, xs)[i] == Map(Form, ys)[p[i]];
      FormExact(xs[i], ys[p[i]]);
      PlainlySame(xs[i].parameters, ys[p[i]].parameters);
    }
    assert SameToolsBy(AnyStyle, xs, ys, p);
  }

  /** The same tools as written have the same sort forms, in some order. */
  lemma SortFormsMatch(xs: seq<Tool>, ys: seq<Tool>)
    requires ToolsWellFormed(xs) && ToolsWellFormed(ys) && SameTools(AsWritten, xs, ys)
    ensures multiset(Map(SortForm, xs)) == multiset(Map(SortForm, ys))
  {
    var p :| SameToolsBy(AsWritten, xs, ys, p);
    forall i | 0 <= i < |xs| ensures Map(SortForm, xs)[i] == Map(SortForm, ys)[p[i]] {
      FormExact(xs[i], ys[p[i]]);
    }
    MatchedMultisets(Map(SortForm, xs), Map(SortForm, ys), p);
  }

  lemma PlainToolsSame(xs: seq<Tool>, ys: seq<Tool>)
    requires ToolsPlain(xs) && ToolsPlain(ys) && SameTools(AnyStyle, xs, ys)
    ensures SameTools(AsWritten, xs, ys)
  {
    var p :| SameToolsBy(AnyStyle, xs, ys, p);
    forall i | 0 <= i < |xs| ensures SameTool(AsWritten, xs[i], ys[p[i]]) {
      PlainlySame(xs[i].parameters, ys[p[i]].parameters);
    }
    assert SameToolsBy(AsWritten, xs, ys, p);
  }

  // ----- From the fingerprint to the forms -----

  lemma ToolTable(t: Tool, key: string)
    ensures Get(ToolFields(t), key) ==
      if key == "name" then Str(t.name) else if key == "description" then Str(t.description)
      else if key == "parameters" then t.parameters else Undef
  {
    var f := ToolFields(t);
    var i := Place(f, key);
    if key == "name" {
      Listed(f, key, 0);
    } else if key == "description" {
      Listed(f, key, 1);
    } else if key == "parameters" {
      Listed(f, key, 2);
    }
  }

  function CanonToolFields(t: Tool): Fields {
    CanonFields(true, ToolFields(t))
  }

  lemma CanonToolTable(t: Tool, key: string)
    ensures var c := FormOfCanon(t);
      Get(CanonToolFields(t), key) ==
        if key == "name" then Str(c.name) else if key == "description" then Str(c.description)
        else if key == "parameters" then c.parameters else Undef
  {
    MappedTables(ToolFields(t), key, true);
    ToolTable(t, key);
  }

  lemma ToolTablesExact(a: Tool, b: Tool)
    ensures SameTable(CanonToolFields(a), CanonToolFields(b)) <==> FormOfCanon(a) == FormOfCanon(b)
  {
    if FormOfCanon(a) == FormOfCanon(b) {
      forall key ensures Get(CanonToolFields(a), key) == Get(CanonToolFields(b), key) {
        CanonToolTable(a, key);
        CanonToolTable(b, key);
      }
    }
    if SameTable(CanonToolFields(a), CanonToolFields(b)) {
      forall key ensures Get(CanonToolFields(a), key) == Get(CanonToolFields(b), key) {}
      CanonToolTable(a, "name");
      CanonToolTable(b, "name");
      CanonToolTable(a, "description");
      CanonToolTable(b, "description");
      CanonToolTable(a, "parameters");
      CanonToolTable(b, "parameters");
    }
  }

  /** Two tools have equal canonical values exactly when their forms are equal. */
  lemma ToolValueExact(a: Tool, b: Tool)
    ensures Canon(true, ToolValue(a)) == Canon(true, ToolValue(b)) <==> FormOfCanon(a) == FormOfCanon(b)
  {
    CanonObject(true, ToolFields(a));
    CanonObject(true, ToolFields(b));
    NormalExact(CanonToolFields(a), CanonToolFields(b));
    ToolTablesExact(a, b);
  }

  lemma ValuesExact(xs: seq<Tool>, ys: seq<Tool>)
    ensures Canon(true, Arr(Map(ToolValue, xs))) == Canon(true, Arr(Map(ToolValue, ys)))
       <==> Map(FormOfCanon, xs) == Map(FormOfCanon, ys)
  {
    var a, b := Canon(true, Arr(Map(ToolValue, xs))).items, Canon(true, Arr(Map(ToolValue, ys))).items;
    assert |a| == |xs| && |b| == |ys|;
    if |xs| == |ys| {
      forall i | 0 <= i < |xs| ensures a[i] == b[i] <==> Map(FormOfCanon, xs)[i] == Map(FormOfCanon, ys)[i] {
        assert a[i] == Canon(true, ToolValue(xs[i])) && b[i] == Canon(true, ToolValue(ys[i]));
        ToolValueExact(xs[i], ys[i]);
      }
      if a == b {
        assert Map(FormOfCanon, xs) == Map(FormOfCanon, ys);
      }
    } else {
      assert |Map(FormOfCanon, xs)| != |Map(FormOfCanon, ys)|;
    }
  }

  // ----- Sorting tools -----

  /** The comparator seen on forms. */
  function FormLeq(h: Host): (Tool, Tool) -> bool {
    (a: Tool, b: Tool) =>
      if a.name != b.name then h.locale(a.name, b.name)
      else if a.description != b.description then h.locale(a.description, b.description)
      else h.locale(h.stringify(a.parameters), h.stringify(b.parameters))
  }

  lemma FormOrder(h: Host)
    requires Faithful(h)
    ensures TotalPreorder(FormLeq(h)) && Antisymmetric(FormLeq(h))
  {
    forall a, b ensures FormLeq(h)(a, b) || FormLeq(h)(b, a) {
      assert h.locale(a.name, b.name) || h.locale(b.name, a.name);
    }
    forall a, b | FormLeq(h)(a, b) && FormLeq(h)(b, a) ensures a == b {
    }
    forall a, b, c | FormLeq(h)(a, b) && FormLeq(h)(b, c) ensures FormLeq(h)(a, c) {
      LocaleChain(h, a.name, b.name, c.name);
      LocaleChain(h, a.description, b.description, c.description);
      LocaleChain(h, h.stringify(a.parameters), h.stringify(b.parameters), h.stringify(c.parameters));
    }
  }

  lemma LocaleChain(h: Host, a: string, b: string, c: string)
    requires Faithful(h)
    ensures h.locale(a, b) && h.locale(b, c) ==> h.locale(a, c)
    ensures h.locale(a, b) && h.locale(b, c) && a == c ==> a == b
  {
  }

  /** Tools are compared by their sort forms. */
  lemma ComparesAlike(h: Host, a: Tool, b: Tool)
    requires WellFormed(a.parameters) && WellFormed(b.parameters)
    ensures GivenLeq(h)(a, b) == FormLeq(h)(SortForm(a), SortForm(b))
  {
    Pipeline(false, a.parameters);
    Pipeline(false, b.parameters);
    assert GivenLeq(h)(a, b) == ToolLeq(h)(CanonTool(a), CanonTool(b));
    assert SortForm(a).parameters == Canon(false, CanonTool(a).parameters);
    assert SortForm(b).parameters == Canon(false, CanonTool(b).parameters);
  }

  lemma SortedByForm(h: Host, tools: seq<Tool>)
    requires ToolsWellFormed(tools)
    ensures Map(SortForm, Sort(GivenLeq(h), tools)) == Sort(FormLeq(h), Map(SortForm, tools))
  {
    forall a, b | a in tools && b in tools ensures GivenLeq(h)(a, b) == FormLeq(h)(SortForm(a), SortForm(b)) {
      ComparesAlike(h, a, b);
    }
    SortMapped(GivenLeq(h), FormLeq(h), SortForm, tools);
  }

  lemma FormsOfSorted(h: Host, tools: seq<Tool>)
    requires ToolsWellFormed(tools)
    ensures multiset(Map(FormOfCanon, CanonTools(h, Some(tools)))) == multiset(Map(Form, tools))
  {
    var canon := Map(CanonTool, tools);
    forall i | 0 <= i < |tools| ensures Map(FormOfCanon, canon)[i] == Map(Form, tools)[i] {
      FormsAgree(tools[i]);
    }
    assert Map(FormOfCanon, canon) == Map(Form, tools);
    SortPermutes(ToolLeq(h), canon);
    MapMultiset(FormOfCanon, Sort(ToolLeq(h), canon), canon);
  }

  /** The sorted forms are the forms of the tools, sorted as they were given. */
  lemma SortedAsGiven(h: Host, tools: seq<Tool>)
    requires ToolsWellFormed(tools)
    ensures Map(FormOfCanon, CanonTools(h, Some(tools))) == Map(Form, Sort(GivenLeq(h), tools))
    ensures ToolsWellFormed(Sort(GivenLeq(h), tools))
  {
    var sorted := Sort(GivenLeq(h), tools);
    SortMapped(GivenLeq(h), ToolLeq(h), CanonTool, tools);
    SortPermutes(GivenLeq(h), tools);
    forall i | 0 <= i < |sorted| ensures WellFormed(sorted[i].parameters) && FormOfCanon(CanonTool(sorted[i])) == Form(sorted[i]) {
      assert sorted[i] in multiset(tools);
      FormsAgree(sorted[i]);
    }
  }

  lemma PairedForms(xs: seq<Tool>, ys: seq<Tool>)
    requires ToolsWellFormed(xs) && ToolsWellFormed(ys)
    ensures Map(Form, xs) == Map(Form, ys) <==> |xs| == |ys| && forall i :: 0 <= i < |xs| ==> SameTool(Paired, xs[i], ys[i])
  {
    if |xs| == |ys| {
      forall i | 0 <= i < |xs| ensures Map(Form, xs)[i] == Map(Form, ys)[i] <==> SameTool(Paired, xs[i], ys[i]) {
        FormExact(xs[i], ys[i]);
      }
    } else {
      assert |Map(Form, xs)| != |Map(Form, ys)|;
    }
  }

  /** The same tools as written are sorted alike, whatever order they are given in. */
  lemma SortedAlike(h: Host, xs: seq<Tool>, ys: seq<Tool>)
    requires Faithful(h) && ToolsWellFormed(xs) && ToolsWellFormed(ys) && SameTools(AsWritten, xs, ys)
    ensures ToolsPairUp(h, xs, ys)
  {
    var s, t := Sort(GivenLeq(h), xs), Sort(GivenLeq(h), ys);
    SortFormsMatch(xs, ys);
    SortedByForm(h, xs);
    SortedByForm(h, ys);
    SortedForms(h, Map(SortForm, xs), Map(SortForm, ys));
    SortedAsGiven(h, xs);
    SortedAsGiven(h, ys);
    assert |s| == |Map(SortForm, s)| == |Map(SortForm, t)| == |t|;
    forall i | 0 <= i < |s| ensures SameTool(Paired, s[i], t[i]) {
      assert Map(SortForm, s)[i] == Map(SortForm, t)[i];
      FormExact(s[i], t[i]);
      PlainlySame(s[i].parameters, t[i].parameters);
    }
  }

  /** Canonical form of tool lists. Fingerprints are equal exactly when the tools pair up once sorted: up to the order of
      keys and of `required`, newline style, and undefined fields. Equal fingerprints mean the same tools in some order.
      Whatever order the same tools are given in, with required names as written in any order, the fingerprints are
      equal; and in any newline style too when no `required` list holds a carriage return. */
  lemma ToolsExact(h: Host, xs: seq<Tool>, ys: seq<Tool>)
    requires Faithful(h) && ToolsWellFormed(xs) && ToolsWellFormed(ys)
    ensures var a, b := Fingerprint(h, Canon(true, ToolsValue(h, Some(xs)))), Fingerprint(h, Canon(true, ToolsValue(h, Some(ys))));
      && (a == b <==> ToolsPairUp(h, xs, ys))
      && (a == b ==> SameTools(AnyStyle, xs, ys))
      && (SameTools(AsWritten, xs, ys) ==> a == b)
      && (ToolsPlain(xs) && ToolsPlain(ys) && SameTools(AnyStyle, xs, ys) ==> a == b)
  {
    var s, t := CanonTools(h, Some(xs)), CanonTools(h, Some(ys));
    ValuesExact(s, t);
    assert Canon(true, ToolsValue(h, Some(xs))) == Canon(true, ToolsValue(h, Some(ys)))
      <==> Map(FormOfCanon, s) == Map(FormOfCanon, t);
    FormsExact(h, xs, ys);
    if ToolsPlain(xs) && ToolsPlain(ys) && SameTools(AnyStyle, xs, ys) {
      PlainToolsSame(xs, ys);
    }
    if SameTools(AsWritten, xs, ys) {
      SortedAlike(h, xs, ys);
    }
  }

  lemma FormsExact(h: Host, xs: seq<Tool>, ys: seq<Tool>)
    requires Faithful(h) && ToolsWellFormed(xs) && ToolsWellFormed(ys)
    ensures var a, b := Map(FormOfCanon, CanonTools(h, Some(xs))), Map(FormOfCanon, CanonTools(h, Some(ys)));
      && (a == b <==> ToolsPairUp(h, xs, ys))
      && (a == b ==> SameTools(AnyStyle, xs, ys))
  {
    SortedAsGiven(h, xs);
    SortedAsGiven(h, ys);
    PairedForms(Sort(GivenLeq(h), xs), Sort(GivenLeq(h), ys));
    FormsOfSorted(h, xs);
    FormsOfSorted(h, ys);
    if Map(FormOfCanon, CanonTools(h, Some(xs))) == Map(FormOfCanon, CanonTools(h, Some(ys))) {
      FormsMatch(xs, ys);
    }
  }

  lemma SortedForms(h: Host, xs: seq<Tool>, ys: seq<Tool>)
    requires Faithful(h) && multiset(xs) == multiset(ys)
    ensures Sort(FormLeq(h), xs) == Sort(FormLeq(h), ys)
  {
    FormOrder(h);
    SortPermutes(FormLeq(h), xs);
    SortPermutes(FormLeq(h), ys);
    SortSorted(FormLeq(h), xs);
    SortSorted(FormLeq(h), ys);
    SortedUnique(FormLeq(h), Sort(FormLeq(h), xs), Sort(FormLeq(h), ys));
  }

  // ----- The prefix and what changed in it -----

  lemma PrefixTable(h: Host, system: string, tools: Option<seq<Tool>>, key: string)
    ensures Get(CanonFields(true, PrefixFields(h, system, tools)), key) ==
      if key == "systemPrompt" then Canon(true, Str(NormalizeNewlines(system)))
      else if key == "tools" then Canon(true, ToolsValue(h, tools)) else Undef
  {
    hide ToolsValue, NormalizeNewlines, Fingerprint;
    var f := PrefixFields(h, system, tools);
    MappedTables(f, key, true);
    var i := Place(f, key);
    if key == "systemPrompt" {
      Listed(f, key, 0);
    } else if key == "tools" {
      Listed(f, key, 1);
    }
  }

  lemma PrefixTablesExact(h: Host, system: string, tools: Option<seq<Tool>>, system': string, tools': Option<seq<Tool>>)
    ensures SameTable(CanonFields(true, PrefixFields(h, system, tools)), CanonFields(true, PrefixFields(h, system', tools'))) <==>
      && Canon(true, Str(NormalizeNewlines(system))) == Canon(true, Str(NormalizeNewlines(system')))
      && Canon(true, ToolsValue(h, tools)) == Canon(true, ToolsValue(h, tools'))
  {
    hide PrefixFields, Canon, ToolsValue, Get, CanonFields, NormalizeNewlines;
    var f, g := CanonFields(true, PrefixFields(h, system, tools)), CanonFields(true, PrefixFields(h, system', tools'));
    PrefixTable(h, system, tools, "systemPrompt");
    PrefixTable(h, system', tools', "systemPrompt");
    PrefixTable(h, system, tools, "tools");
    PrefixTable(h, system', tools', "tools");
    if Get(f, "systemPrompt") == Get(g, "systemPrompt") && Get(f, "tools") == Get(g, "tools") {
      forall key ensures Get(f, key) == Get(g, key) {
        PrefixTable(h, system, tools, key);
        PrefixTable(h, system', tools', key);
      }
    }
  }

  /** The prefix fingerprint changes exactly when the system's or the tools' does. */
  lemma PrefixExact(h: Host, system: string, tools: Option<seq<Tool>>, system': string, tools': Option<seq<Tool>>,
                    provider: string, model: string, provider': string, model': string)
    requires Faithful(h)
    ensures var a, b := BuildSnapshot(h, system, tools, provider, model), BuildSnapshot(h, system', tools', provider', model');
      a.prefix == b.prefix <==> a.system == b.system && a.tools == b.tools
  {
    hide Canon, ToolsValue, Normal, SameTable;
    var f, g := CanonFields(true, PrefixFields(h, system, tools)), CanonFields(true, PrefixFields(h, system', tools'));
    CanonObject(true, PrefixFields(h, system, tools));
    CanonObject(true, PrefixFields(h, system', tools'));
    NormalExact(f, g);
    PrefixTablesExact(h, system, tools, system', tools');
  }

  datatype Reason = Initial | System | Tools | Provider | Model

  datatype Continuity = First | Continued | Invalidated

  datatype Diagnostics = Diagnostics(current: Snapshot, prefixChanged: bool, changeReasons: seq<Reason>, continuity: Continuity)

  function Rank(r: Reason): nat {
    match r
    case Initial => 0
    case System => 1
    case Tools => 2
    case Provider => 3
    case Model => 4
  }

  /** Every reason is listed once, in a fixed order, exactly when it applies. */
  predicate Explains(d: Diagnostics, current: Snapshot, previous: Option<Snapshot>) {
    && d.current == current
    && (forall i, j :: 0 <= i < j < |d.changeReasons| ==> Rank(d.changeReasons[i]) < Rank(d.changeReasons[j]))
    && (Initial in d.changeReasons <==> previous.None?)
    && (System in d.changeReasons <==> previous.Some? && previous.value.system != current.system)
    && (Tools in d.changeReasons <==> previous.Some? && previous.value.tools != current.tools)
    && (Provider in d.changeReasons <==> previous.Some? && previous.value.provider != current.provider)
    && (Model in d.changeReasons <==> previous.Some? && previous.value.model != current.model)
    && (d.prefixChanged <==> previous.Some? && previous.value.prefix != current.prefix)
    && (d.continuity == First <==> previous.None?)
    && (d.continuity == Invalidated <==> Provider in d.changeReasons || Model in d.changeReasons)
  }

  predicate Applies(r: Reason, current: Snapshot, previous: Snapshot) {
    match r
    case Initial => false
    case System => previous.system != current.system
    case Tools => previous.tools != current.tools
    case Provider => previous.provider != current.provider
    case Model => previous.model != current.model
  }

  /** The reasons up to a rank are listed, and no others. */
  predicate ListedSoFar(reasons: seq<Reason>, rank: nat, current: Snapshot, previous: Snapshot) {
    && (forall i, j :: 0 <= i < j < |reasons| ==> Rank(reasons[i]) < Rank(reasons[j]))
    && (forall r: Reason :: r in reasons <==> Rank(r) <= rank && Applies(r, current, previous))
  }

  lemma NoReasons(current: Snapshot, previous: Snapshot)
    ensures ListedSoFar([], 0, current, previous)
  {
  }

  lemma NextReason(reasons: seq<Reason>, r: Reason, current: Snapshot, previous: Snapshot)
    requires r != Initial && ListedSoFar(reasons, Rank(r) - 1, current, previous)
    ensures ListedSoFar(if Applies(r, current, previous) then reasons + [r] else reasons, Rank(r), current, previous)
  {
    hide Applies;
    assert forall other: Reason :: Rank(other) == Rank(r) ==> other == r;
    assert forall i :: 0 <= i < |reasons| ==> reasons[i] in reasons;
  }

  lemma ReasonsExplain(d: Diagnostics, current: Snapshot, previous: Snapshot)
    requires ListedSoFar(d.changeReasons, 4, current, previous)
    requires d.current == current && (d.prefixChanged <==> previous.prefix != current.prefix)
    requires d.continuity == if previous.provider != current.provider || previous.model != current.model then Invalidated else Continued
    ensures Explains(d, current, Some(previous))
  {
    assert forall r: Reason :: Rank(r) <= 4;
  }

  /** The reasons `createContextCacheDiagnostics` pushes when there is a previous snapshot. */
  method ListReasons(current: Snapshot, previous: Snapshot) returns (changeReasons: seq<Reason>)
    ensures ListedSoFar(changeReasons, 4, current, previous)
  {
    hide ListedSoFar;
    changeReasons := [];
    NoReasons(current, previous);
    NextReason(changeReasons, System, current, previous);
    if previous.system != current.system {
      changeReasons := changeReasons + [System];
    }
    NextReason(changeReasons, Tools, current, previous);
    if previous.tools != current.tools {
      changeReasons := changeReasons + [Tools];
    }
    NextReason(changeReasons, Provider, current, previous);
    if previous.provider != current.provider {
      changeReasons := changeReasons + [Provider];
    }
    NextReason(changeReasons, Model, current, previous);
    if previous.model != current.model {
      changeReasons := changeReasons + [Model];
    }
  }

  /** `createContextCacheDiagnostics`. */
  method CreateDiagnostics(current: Snapshot, previous: Option<Snapshot>) returns (d: Diagnostics)
    ensures Explains(d, current, previous)
  {
    if previous.None? {
      d := Diagnostics(current, false, [Initial], First);
    } else {
      var changeReasons := ListReasons(current, previous.value);
      var providerChanged := previous.value.provider != current.provider;
      var modelChanged := previous.value.model != current.model;
      d := Diagnostics(current, previous.value.prefix != current.prefix, changeReasons,
                       if providerChanged || modelChanged then Invalidated else Continued);
      ReasonsExplain(d, current, previous.value);
    }
  }

  /** A changed prefix is always explained by the system prompt or the tools, and by nothing else. */
  lemma ChangesExplained(h: Host, system: string, tools: Option<seq<Tool>>, system': string, tools': Option<seq<Tool>>,
                         provider: string, model: string, provider': string, model': string, d: Diagnostics)
    requires Faithful(h)
    requires Explains(d, BuildSnapshot(h, system', tools', provider', model'),
                      Some(BuildSnapshot(h, system, tools, provider, model)))
    ensures d.prefixChanged <==> System in d.changeReasons || Tools in d.changeReasons
  {
    PrefixExact(h, system, tools, system', tools', provider, model, provider', model');
  }

  /** And the system prompt has changed exactly when its lines have. */
  lemma SystemExact(h: Host, system: string, system': string, tools: Option<seq<Tool>>, provider: string, model: string)
    requires Faithful(h)
    ensures BuildSnapshot(h, system, tools, provider, model).system == BuildSnapshot(h, system', tools, provider, model).system
       <==> SameLines(system, system')
  {
    NormalizeExact(system, system');
    NormalizeExact(system', system);
  }

  /** The diagnostics between two requests, in terms of what was requested: the system prompt is named exactly when its
      lines differ, the tools exactly when they do not pair up, provider and model exactly when they differ, and the
      continuity is lost exactly with the last two. */
  lemma DiagnosticsExact(h: Host, system: string, tools: seq<Tool>, provider: string, model: string,
                         system': string, tools': seq<Tool>, provider': string, model': string, d: Diagnostics)
    requires Faithful(h) && ToolsWellFormed(tools) && ToolsWellFormed(tools')
    requires Explains(d, BuildSnapshot(h, system', Some(tools'), provider', model'),
                      Some(BuildSnapshot(h, system, Some(tools), provider, model)))
    ensures Initial !in d.changeReasons
    ensures System in d.changeReasons <==> !SameLines(system, system')
    ensures Tools in d.changeReasons <==> !ToolsPairUp(h, tools, tools')
    ensures Provider in d.changeReasons <==> provider != provider'
    ensures Model in d.changeReasons <==> model != model'
    ensures d.prefixChanged <==> !SameLines(system, system') || !ToolsPairUp(h, tools, tools')
    ensures d.continuity == if provider != provider' || model != model' then Invalidated else Continued
  {
    hide ToolsPairUp, ToolsValue, Canon, SameLines;
    ToolsExact(h, tools, tools');
    SystemExact(h, system, system', Some(tools), provider, model);
    ChangesExplained(h, system, Some(tools), system', Some(tools'), provider, model, provider', model', d);
    SameSystem(h, system', Some(tools), Some(tools'), provider, model, provider', model');
  }

  lemma SameSystem(h: Host, system: string, tools: Option<seq<Tool>>, tools': Option<seq<Tool>>,
                   provider: string, model: string, provider': string, model': string)
    ensures BuildSnapshot(h, system, tools, provider, model).system == BuildSnapshot(h, system, tools', provider', model').system
  {
  }
}

// packages/agent/src/context-engine.ts: canonical JSON and canonical tool schemas, on finite values.

module Json {
  import opened Sequences
  import opened Sorting
  import opened Text

  /** A JavaScript value without cycles. `Undef` also stands for functions and symbols; a number is its JSON text; the
      fields of an object are in insertion order. */
  datatype J =
    | Undef
    | Null
    | Bool(flag: bool)
    | Num(literal: string)
    | Str(text: string)
    | Arr(items: seq<J>)
    | Obj(fields: seq<(string, J)>)

  /** No object has a key twice. */
  predicate WellFormed(v: J) {
    match v
    case Arr(items) => forall i :: 0 <= i < |items| ==> WellFormed(items[i])
    case Obj(fields) => DistinctKeys(fields) && forall i :: 0 <= i < |fields| ==> WellFormed(fields[i].1)
    case _ => true
  }

  predicate DistinctKeys(fields: seq<(string, J)>) {
    forall i, j :: 0 <= i < j < |fields| ==> fields[i].0 != fields[j].0
  }

  function KeyLeq(): ((string, J), (string, J)) -> bool {
    (f: (string, J), g: (string, J)) => StringLeq(f.0, g.0)
  }

  /** The fields whose value is not `undefined`. */
  function Defined(fields: seq<(string, J)>): seq<(string, J)> {
    if fields == [] then []
    else
      var last := fields[|fields| - 1];
      Defined(fields[..|fields| - 1]) + if last.1 == Undef then [] else [last]
  }

  function OrNull(v: J): J {
    if v == Undef then Null else v
  }

  /** `canonicalize` on values without cycles. */
  function Canon(normalizeText: bool, v: J): J {
    match v
    case Str(s) => Str(if normalizeText then NormalizeNewlines(s) else s)
    case Arr(items) => Arr(seq(|items|, i requires 0 <= i < |items| => OrNull(Canon(normalizeText, items[i]))))
    case Obj(fields) =>
      Obj(Sort(KeyLeq(), Defined(seq(|fields|, i requires 0 <= i < |fields| => (fields[i].0, Canon(normalizeText, fields[i].1))))))
    case _ => v
  }

  predicate StringArray(v: J) {
    v.Arr? && forall i :: 0 <= i < |v.items| ==> v.items[i].Str?
  }

  function Strings(v: J): (ss: seq<string>)
    requires StringArray(v)
    ensures |ss| == |v.items|
  {
    seq(|v.items|, i requires 0 <= i < |v.items| => v.items[i].text)
  }

  function StrArr(ss: seq<string>): J {
    Arr(seq(|ss|, i requires 0 <= i < |ss| => Str(ss[i])))
  }

  /** `canonicalizeToolSchema`: strings are normalized, except in a `required` list, which is sorted instead. */
  function CanonSchema(v: J): J
    decreases v, 0
  {
    match v
    case Str(s) => Str(NormalizeNewlines(s))
    case Arr(items) => Arr(seq(|items|, i requires 0 <= i < |items| => CanonSchema(items[i])))
    case Obj(fields) =>
      Obj(Sort(KeyLeq(), seq(|fields|, i requires 0 <= i < |fields| => (fields[i].0, SchemaField(fields[i].0, fields[i].1)))))
    case _ => v
  }

  function SchemaField(key: string, v: J): J
    decreases v, 1
  {
    if key == "required" && StringArray(v) then SortedRequired(v) else CanonSchema(v)
  }

  function SortedRequired(v: J): J
    requires StringArray(v)
  {
    StrArr(Sort(StringLeq, Strings(v)))
  }

  /** Both passes at once. With `normalizeText` this is what a schema's fingerprint is made from, and without it what
      tools are compared by when they are sorted. */
  function Fused(normalizeText: bool, v: J): J
    decreases v, 0
  {
    match v
    case Str(s) => Str(NormalizeNewlines(s))
    case Arr(items) => Arr(seq(|items|, i requires 0 <= i < |items| => OrNull(Fused(normalizeText, items[i]))))
    case Obj(fields) =>
      Obj(Sort(KeyLeq(), Defined(seq(|fields|, i requires 0 <= i < |fields| =>
        (fields[i].0, FusedField(normalizeText, fields[i].0, fields[i].1))))))
    case _ => v
  }

  function FusedField(normalizeText: bool, key: string, v: J): J
    decreases v, 1
  {
    if key == "required" && StringArray(v) then FusedRequired(normalizeText, v) else Fused(normalizeText, v)
  }

  function FusedRequired(normalizeText: bool, v: J): J
    requires StringArray(v)
  {
    if normalizeText then StrArr(Map(NormalizeNewlines, Sort(StringLeq, Strings(v)))) else SortedRequired(v)
  }

  // ----- Reference: when two schemas say the same -----

  function Get(fields: seq<(string, J)>, key: string): J {
    if fields == [] then Undef
    else if fields[0].0 == key then fields[0].1
    else Get(fields[1..], key)
  }

  predicate Nullish(v: J) {
    v == Undef || v == Null
  }

  /** How the names of two `required` lists are compared: as they are written, in any order; in raw order, up to newline
      style; or up to newline style, in any order. */
  datatype NameRule = AsWritten | Paired | AnyStyle

  ghost predicate SameRequired(rule: NameRule, a: J, b: J)
    requires StringArray(a) && StringArray(b)
  {
    match rule
    case AsWritten => multiset(Strings(a)) == multiset(Strings(b))
    case Paired => PairUp(Sort(StringLeq, Strings(a)), Sort(StringLeq, Strings(b)))
    case AnyStyle => multiset(Map(NormalizeNewlines, Strings(a))) == multiset(Map(NormalizeNewlines, Strings(b)))
  }

  predicate PairUp(x: seq<string>, y: seq<string>) {
    |x| == |y| && forall i :: 0 <= i < |x| ==> SameLines(x[i], y[i])
  }

  /** Equal up to the order of keys, absent against undefined fields, null against undefined items, newline style, and
      the order of `required`, whose names are compared by `rule`. */
  ghost predicate Same(rule: NameRule, a: J, b: J)
    decreases a, 0
  {
    match a
    case Str(s) => b.Str? && SameLines(s, b.text)
    case Arr(items) =>
      b.Arr? && |items| == |b.items|
      && forall i :: 0 <= i < |items| ==> SameItem(rule, items[i], b.items[i])
    case Obj(fields) =>
      b.Obj?
      && (forall i :: 0 <= i < |fields| ==> SameField(rule, fields[i].0, fields[i].1, Get(b.fields, fields[i].0)))
      && (forall j :: 0 <= j < |b.fields| && b.fields[j].1 != Undef ==> Get(fields, b.fields[j].0) != Undef)
    case _ => a == b
  }

  ghost predicate SameItem(rule: NameRule, a: J, b: J)
    decreases a, 1
  {
    Same(rule, a, b) || (Nullish(a) && Nullish(b))
  }

  ghost predicate SameField(rule: NameRule, key: string, a: J, b: J)
    decreases a, 1
  {
    if key == "required" && StringArray(a) && StringArray(b) then SameRequired(rule, a, b) else Same(rule, a, b)
  }

  predicate NoneReturn(ss: seq<string>) {
    forall i :: 0 <= i < |ss| ==> NoReturns(ss[i])
  }

  /** No `required` list holds a carriage return. */
  predicate PlainRequired(v: J)
    decreases v, 0
  {
    match v
    case Arr(items) => forall i :: 0 <= i < |items| ==> PlainRequired(items[i])
    case Obj(fields) => forall i :: 0 <= i < |fields| ==> PlainField(fields[i].0, fields[i].1)
    case _ => true
  }

  predicate PlainField(key: string, v: J)
    decreases v, 1
  {
    if key == "required" && StringArray(v) then NoneReturn(Strings(v)) else PlainRequired(v)
  }
}

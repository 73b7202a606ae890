// packages/agent/src/context-engine.ts, normalizeNewlines, and the order of keys.

module Text {
  import opened Sorting

  /** Every `\r\n` and every lone `\r` becomes `\n`. */
  function NormalizeNewlines(s: string): string {
    if s == "" then ""
    else if s[0] == '\r' then "\n" + NormalizeNewlines(if |s| > 1 && s[1] == '\n' then s[2..] else s[1..])
    else [s[0]] + NormalizeNewlines(s[1..])
  }

  // ----- Reference: the lines of a text, however they are separated -----

  function SplitLines(s: string): (lines: seq<string>)
    ensures |lines| > 0
    ensures forall i :: 0 <= i < |lines| ==> OneLine(lines[i])
  {
    if s == "" then [""]
    else if |s| > 1 && s[0] == '\r' && s[1] == '\n' then [""] + SplitLines(s[2..])
    else if s[0] == '\r' || s[0] == '\n' then [""] + SplitLines(s[1..])
    else
      var rest := SplitLines(s[1..]);
      [[s[0]] + rest[0]] + rest[1..]
  }

  predicate OneLine(s: string) {
    forall i :: 0 <= i < |s| ==> s[i] != '\r' && s[i] != '\n'
  }

  function JoinLines(lines: seq<string>): string
    requires |lines| > 0
  {
    if |lines| == 1 then lines[0] else lines[0] + "\n" + JoinLines(lines[1..])
  }

  /** Two texts with the same lines differ in newline style only. */
  predicate SameLines(a: string, b: string) {
    SplitLines(a) == SplitLines(b)
  }

  lemma {:induction false} JoinCons(c: char, lines: seq<string>)
    requires |lines| > 0
    ensures JoinLines([[c] + lines[0]] + lines[1..]) == [c] + JoinLines(lines)
  {
    var more := [[c] + lines[0]] + lines[1..];
    assert more[1..] == lines[1..];
    if |lines| > 1 {
      var rest := "\n" + JoinLines(lines[1..]);
      assert ([c] + lines[0]) + rest == [c] + (lines[0] + rest);
      assert JoinLines(lines) == lines[0] + rest;
      assert JoinLines(more) == more[0] + rest;
    }
  }

  lemma JoinBreak(lines: seq<string>)
    requires |lines| > 0
    ensures JoinLines([""] + lines) == "\n" + JoinLines(lines)
  {
    assert ([""] + lines)[1..] == lines;
  }

  lemma {:induction false} NormalizedIsJoined(s: string)
    ensures NormalizeNewlines(s) == JoinLines(SplitLines(s))
  {
    if s != "" {
      if |s| > 1 && s[0] == '\r' && s[1] == '\n' {
        NormalizedIsJoined(s[2..]);
        JoinBreak(SplitLines(s[2..]));
      } else {
        NormalizedIsJoined(s[1..]);
        if s[0] == '\r' || s[0] == '\n' {
          JoinBreak(SplitLines(s[1..]));
        } else {
          JoinCons(s[0], SplitLines(s[1..]));
        }
      }
    }
  }

  lemma {:induction false} SplitOneLine(s: string, rest: string)
    requires OneLine(s)
    ensures SplitLines(s) == [s]
    ensures SplitLines(s + "\n" + rest) == [s] + SplitLines(rest)
  {
    var whole := s + "\n" + rest;
    if s == "" {
      assert whole[1..] == rest;
    } else {
      SplitOneLine(s[1..], rest);
      assert whole[1..] == s[1..] + "\n" + rest;
      assert [s[0]] + s[1..] == s;
    }
  }

  lemma {:induction false} SplitJoined(lines: seq<string>)
    requires |lines| > 0 && forall i :: 0 <= i < |lines| ==> OneLine(lines[i])
    ensures SplitLines(JoinLines(lines)) == lines
  {
    if |lines| == 1 {
      SplitOneLine(lines[0], "");
    } else {
      SplitJoined(lines[1..]);
      SplitOneLine(lines[0], JoinLines(lines[1..]));
    }
  }

  /** Normalizing identifies exactly the texts with the same lines, and picks one of them. */
  lemma NormalizeExact(a: string, b: string)
    ensures NormalizeNewlines(a) == NormalizeNewlines(b) <==> SameLines(a, b)
    ensures SameLines(NormalizeNewlines(a), a)
    ensures NormalizeNewlines(NormalizeNewlines(a)) == NormalizeNewlines(a)
  {
    NormalizedIsJoined(a);
    NormalizedIsJoined(b);
    NormalizedIsJoined(NormalizeNewlines(a));
    SplitJoined(SplitLines(a));
    SplitJoined(SplitLines(b));
  }

  predicate NoReturns(s: string) {
    '\r' !in s
  }

  lemma {:induction false} NothingToNormalize(s: string)
    requires NoReturns(s)
    ensures NormalizeNewlines(s) == s
  {
    if s != "" {
      NothingToNormalize(s[1..]);
    }
  }

  lemma {:induction false} NormalizedHasNoReturns(s: string)
    ensures NoReturns(NormalizeNewlines(s))
  {
    if s != "" {
      NormalizedHasNoReturns(if s[0] == '\r' && |s| > 1 && s[1] == '\n' then s[2..] else s[1..]);
    }
  }

  // ----- The order of keys -----

  predicate StringLeq(a: string, b: string) {
    if a == "" then true
    else if b == "" then false
    else if a[0] == b[0] then StringLeq(a[1..], b[1..])
    else a[0] < b[0]
  }

  lemma {:induction false} StringTotal(a: string, b: string)
    ensures StringLeq(a, b) || StringLeq(b, a)
    ensures StringLeq(a, b) && StringLeq(b, a) ==> a == b
  {
    if a != "" && b != "" && a[0] == b[0] {
      StringTotal(a[1..], b[1..]);
      assert a == [a[0]] + a[1..] && b == [b[0]] + b[1..];
    }
  }

  lemma {:induction false} StringTransitive(a: string, b: string, c: string)
    requires StringLeq(a, b) && StringLeq(b, c)
    ensures StringLeq(a, c)
  {
    if a != "" && b != "" && c != "" && a[0] == b[0] == c[0] {
      StringTransitive(a[1..], b[1..], c[1..]);
    }
  }

  lemma StringOrder()
    ensures TotalPreorder(StringLeq) && Antisymmetric(StringLeq)
  {
    forall a, b ensures (StringLeq(a, b) || StringLeq(b, a)) && (StringLeq(a, b) && StringLeq(b, a) ==> a == b) {
      StringTotal(a, b);
    }
    forall a, b, c | StringLeq(a, b) && StringLeq(b, c) ensures StringLeq(a, c) {
      StringTransitive(a, b, c);
    }
  }
}

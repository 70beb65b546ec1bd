/** Ordinal string operations of the .NET base library that the generator relies on:
    searching, replace-all, trimming, splitting and integer formatting. */
module Strings {

  /** `k` occurs in `s` starting at index `i`. */
  predicate OccursAt(s: string, k: string, i: nat) {
    i + |k| <= |s| && forall m {:trigger k[m]} :: 0 <= m < |k| ==> s[i + m] == k[m]
  }

  predicate Contains(s: string, k: string) {
    exists i: nat | i <= |s| :: OccursAt(s, k, i)
  }

  /** `String.IndexOf(k, from)` with ordinal comparison: the first occurrence at or after `from`, or -1. */
  function IndexOf(s: string, k: string, from: nat): (r: int)
    ensures r == -1 || (from <= r && OccursAt(s, k, r))
    decreases |s| - from
  {
    if from + |k| > |s| then -1
    else if OccursAt(s, k, from) then from
    else IndexOf(s, k, from + 1)
  }

  /** What `IndexOf` finds is the first occurrence, and -1 means there is none. */
  lemma {:induction false} IndexOfIsFirst(s: string, k: string, from: nat)
    ensures IndexOf(s, k, from) >= 0 ==> forall j: nat :: from <= j < IndexOf(s, k, from) ==> !OccursAt(s, k, j)
    ensures IndexOf(s, k, from) == -1 ==> forall j: nat :: from <= j ==> !OccursAt(s, k, j)
    decreases |s| - from
  {
    if from + |k| <= |s| && !OccursAt(s, k, from) {
      IndexOfIsFirst(s, k, from + 1);
    }
  }

  /** An occurrence with none before it is the one `IndexOf` finds. */
  lemma {:induction false} IndexOfFirst(s: string, k: string, from: nat, p: nat)
    requires from <= p && OccursAt(s, k, p)
    requires forall j: nat :: from <= j < p ==> !OccursAt(s, k, j)
    ensures IndexOf(s, k, from) == p
    decreases p - from
  {
    if from < p {
      IndexOfFirst(s, k, from + 1, p);
    }
  }

  /** `String.IndexOf(c, from)`: the first index at or after `from` holding `c`, or -1. */
  function IndexOfChar(s: string, c: char, from: nat): (r: int)
    ensures r == -1 || (from <= r < |s| && s[r] == c)
    decreases |s| - from
  {
    if from >= |s| then -1
    else if s[from] == c then from
    else IndexOfChar(s, c, from + 1)
  }

  /** What `IndexOfChar` finds is the first `c`, and -1 means there is none. */
  lemma {:induction false} IndexOfCharIsFirst(s: string, c: char, from: nat)
    ensures IndexOfChar(s, c, from) >= 0 ==> forall j :: from <= j < IndexOfChar(s, c, from) ==> s[j] != c
    ensures IndexOfChar(s, c, from) == -1 ==> forall j :: from <= j < |s| ==> s[j] != c
    decreases |s| - from
  {
    if from < |s| && s[from] != c {
      IndexOfCharIsFirst(s, c, from + 1);
    }
  }

  /** A `c` with none before it is the one `IndexOfChar` finds. */
  lemma {:induction false} IndexOfCharFirst(s: string, c: char, from: nat, p: nat)
    requires from <= p < |s| && s[p] == c
    requires forall j :: from <= j < p ==> s[j] != c
    ensures IndexOfChar(s, c, from) == p
    decreases p - from
  {
    if from < p {
      IndexOfCharFirst(s, c, from + 1, p);
    }
  }

  /** `String.Replace(k, v)`: every non-overlapping occurrence of `k`, scanning left to right,
      is replaced by `v`. .NET rejects an empty `k`. */
  function Replace(s: string, k: string, v: string): string
    requires |k| > 0
    decreases |s|
  {
    if |s| < |k| then s
    else if s[..|k|] == k then v + Replace(s[|k|..], k, v)
    else [s[0]] + Replace(s[1..], k, v)
  }

  lemma {:induction false} ReplaceAbsent(s: string, k: string, v: string)
    requires |k| > 0 && !Contains(s, k)
    ensures Replace(s, k, v) == s
    decreases |s|
  {
    if |s| >= |k| {
      assert !OccursAt(s, k, 0);
      assert s[..|k|] != k;
      var t := s[1..];
      forall i: nat ensures OccursAt(t, k, i) == OccursAt(s, k, i + 1) {
        if i + |k| <= |t| {
          assert t[i..i + |k|] == s[i + 1..i + 1 + |k|];
        }
      }
      ReplaceAbsent(t, k, v);
      assert [s[0]] + t == s;
    }
  }

  /** A string that is exactly the searched text is replaced wholesale. */
  lemma ReplaceWhole(k: string, v: string)
    requires |k| > 0
    ensures Replace(k, k, v) == v
  {
    assert k[..|k|] == k;
    assert k[|k|..] == [];
    assert v + [] == v;
  }

  /** A search text starting with `c` cannot occur in a string free of `c`. */
  lemma AbsentByFirstChar(s: string, k: string, c: char)
    requires |k| > 0 && k[0] == c
    requires forall i :: 0 <= i < |s| ==> s[i] != c
    ensures !Contains(s, k)
  {
    forall i: nat ensures !OccursAt(s, k, i) {
      if i + |k| <= |s| {
        assert s[i..i + |k|][0] == s[i];
      }
    }
  }

  /** Successive replace-all steps, in list order: result = s.Replace(k0,v0).Replace(k1,v1)... */
  function ApplyAll(s: string, steps: seq<(string, string)>): string
    requires forall i :: 0 <= i < |steps| ==> |steps[i].0| > 0
    decreases |steps|
  {
    if steps == [] then s else ApplyAll(Replace(s, steps[0].0, steps[0].1), steps[1..])
  }

  /** When no step's search text occurs in `s`, the whole chain returns `s` unchanged. */
  lemma {:induction false} ApplyAllAbsent(s: string, steps: seq<(string, string)>)
    requires forall i :: 0 <= i < |steps| ==> |steps[i].0| > 0
    requires forall i :: 0 <= i < |steps| ==> !Contains(s, steps[i].0)
    ensures ApplyAll(s, steps) == s
  {
    if steps != [] {
      ReplaceAbsent(s, steps[0].0, steps[0].1);
      ApplyAllAbsent(s, steps[1..]);
    }
  }

  /** Running two chains one after the other is running their concatenation. */
  lemma {:induction false} ApplyAllAppend(s: string, a: seq<(string, string)>, b: seq<(string, string)>)
    requires forall i :: 0 <= i < |a| ==> |a[i].0| > 0
    requires forall i :: 0 <= i < |b| ==> |b[i].0| > 0
    ensures forall i :: 0 <= i < |a + b| ==> |(a + b)[i].0| > 0
    ensures ApplyAll(s, a + b) == ApplyAll(ApplyAll(s, a), b)
    decreases |a|
  {
    assert forall i :: 0 <= i < |a + b| ==> |(a + b)[i].0| > 0 by {
      forall i | 0 <= i < |a + b| ensures |(a + b)[i].0| > 0 {
        if i < |a| { assert (a + b)[i] == a[i]; } else { assert (a + b)[i] == b[i - |a|]; }
      }
    }
    if a != [] {
      assert (a + b)[1..] == a[1..] + b;
      ApplyAllAppend(Replace(s, a[0].0, a[0].1), a[1..], b);
    } else {
      assert a + b == b;
    }
  }

  /** Running one more step of a chain. */
  lemma ApplyAllPrefix(s: string, steps: seq<(string, string)>, k: nat)
    requires forall i :: 0 <= i < |steps| ==> |steps[i].0| > 0
    requires k < |steps|
    ensures ApplyAll(s, steps[..k + 1]) == Replace(ApplyAll(s, steps[..k]), steps[k].0, steps[k].1)
  {
    assert steps[..k + 1] == steps[..k] + [steps[k]];
    ApplyAllAppend(s, steps[..k], [steps[k]]);
    assert [steps[k]][1..] == [];
  }

  /** A two-step chain is two replace-alls. */
  lemma ApplyTwo(s: string, a: (string, string), b: (string, string))
    requires |a.0| > 0 && |b.0| > 0
    ensures ApplyAll(s, [a, b]) == Replace(Replace(s, a.0, a.1), b.0, b.1)
  {
    var once := Replace(s, a.0, a.1);
    assert [a, b][1..] == [b] && [b][1..] == [];
    assert ApplyAll(s, [a, b]) == ApplyAll(once, [b]);
    assert ApplyAll(once, [b]) == ApplyAll(Replace(once, b.0, b.1), []);
  }

  /** `char.IsWhiteSpace`: the Unicode space separators, line and paragraph separators,
      U+0009..U+000D, U+0085 and U+00A0. */
  predicate IsWhiteSpace(c: char) {
    c == ' ' || ('\t' <= c <= '\r') || c == '\U{0085}' || c == '\U{00A0}' || c == '\U{1680}'
    || ('\U{2000}' <= c <= '\U{200A}') || c == '\U{2028}' || c == '\U{2029}' || c == '\U{202F}'
    || c == '\U{205F}' || c == '\U{3000}'
  }

  /** `String.IsNullOrWhiteSpace` for a non-null string. */
  predicate IsBlank(s: string) {
    forall i :: 0 <= i < |s| ==> IsWhiteSpace(s[i])
  }

  function TrimStart(s: string): (r: string)
    ensures |r| <= |s| && r == s[|s| - |r|..]
    ensures r == [] || !IsWhiteSpace(r[0])
    ensures forall i :: 0 <= i < |s| - |r| ==> IsWhiteSpace(s[i])
  {
    if |s| > 0 && IsWhiteSpace(s[0]) then TrimStart(s[1..]) else s
  }

  function TrimEnd(s: string): (r: string)
    ensures |r| <= |s| && r == s[..|r|]
    ensures r == [] || !IsWhiteSpace(r[|r| - 1])
    ensures forall i :: |r| <= i < |s| ==> IsWhiteSpace(s[i])
  {
    if |s| > 0 && IsWhiteSpace(s[|s| - 1]) then TrimEnd(s[..|s| - 1]) else s
  }

  /** `String.Trim()`: leading and trailing white space removed. */
  function Trim(s: string): (r: string)
    ensures r == [] || (!IsWhiteSpace(r[0]) && !IsWhiteSpace(r[|r| - 1]))
  {
    TrimEnd(TrimStart(s))
  }

  lemma {:induction false} TrimStartKeeps(s: string)
    requires s == [] || !IsWhiteSpace(s[0])
    ensures TrimStart(s) == s
  {
  }

  lemma {:induction false} TrimEndKeeps(s: string)
    requires s == [] || !IsWhiteSpace(s[|s| - 1])
    ensures TrimEnd(s) == s
  {
  }

  /** A string with no white space at either end is its own trim; in particular trimming is idempotent. */
  lemma TrimKeeps(s: string)
    requires s == [] || (!IsWhiteSpace(s[0]) && !IsWhiteSpace(s[|s| - 1]))
    ensures Trim(s) == s
  {
    TrimStartKeeps(s);
    TrimEndKeeps(s);
  }

  /** White space alone trims to nothing. */
  lemma {:induction false} BlankTrimsToEmpty(s: string)
    requires IsBlank(s)
    ensures TrimStart(s) == [] && Trim(s) == []
  {
    if s != [] {
      BlankTrimsToEmpty(s[1..]);
    }
  }

  lemma TrimIdempotent(s: string)
    ensures Trim(Trim(s)) == Trim(s)
  {
    TrimKeeps(Trim(s));
  }

  /** `String.TrimStart(c)`: every leading `c` removed. */
  function TrimStartChar(s: string, c: char): (r: string)
    ensures |r| <= |s| && r == s[|s| - |r|..]
    ensures r == [] || r[0] != c
  {
    if |s| > 0 && s[0] == c then TrimStartChar(s[1..], c) else s
  }

  /** `String.TrimEnd(c)`: every trailing `c` removed. */
  function TrimEndChar(s: string, c: char): (r: string)
    ensures |r| <= |s| && r == s[..|r|]
    ensures r == [] || r[|r| - 1] != c
  {
    if |s| > 0 && s[|s| - 1] == c then TrimEndChar(s[..|s| - 1], c) else s
  }

  /** `String.StartsWith(p)`. */
  predicate StartsWith(s: string, p: string) {
    |p| <= |s| && s[..|p|] == p
  }

  /** ASCII upper-casing, the part of `ToUpper`/`ToUpperInvariant` that the model needs. */
  function UpperChar(c: char): char {
    if 'a' <= c <= 'z' then (c as int - 32) as char else c
  }

  function Upper(s: string): (r: string)
    ensures |r| == |s| && forall i :: 0 <= i < |s| ==> r[i] == UpperChar(s[i])
  {
    seq(|s|, i requires 0 <= i < |s| => UpperChar(s[i]))
  }

  /** `String.Equals(t, StringComparison.OrdinalIgnoreCase)` over ASCII letters. */
  predicate EqualsIgnoreCase(s: string, t: string) {
    Upper(s) == Upper(t)
  }

  /** Number of occurrences of `c` in `s`. */
  function CountChar(s: string, c: char): nat {
    if s == [] then 0 else (if s[0] == c then 1 else 0) + CountChar(s[1..], c)
  }

  /** `String.Split(c)`: the pieces between occurrences of `c`; an empty string gives one empty piece. */
  function Split(s: string, c: char): (parts: seq<string>)
    ensures |parts| == CountChar(s, c) + 1
    decreases |s|
  {
    if |s| == 0 then [""]
    else if s[0] == c then [""] + Split(s[1..], c)
    else var rest := Split(s[1..], c); [[s[0]] + rest[0]] + rest[1..]
  }

  /** Pieces put back together with the separator. */
  function Join(parts: seq<string>, c: char): string
    requires |parts| >= 1
  {
    if |parts| == 1 then parts[0] else parts[0] + [c] + Join(parts[1..], c)
  }

  /** The first piece, the separator, then the rest joined. */
  lemma JoinFirst(parts: seq<string>, c: char)
    requires |parts| > 1
    ensures Join(parts, c) == parts[0] + ([c] + Join(parts[1..], c))
  {
    assert Join(parts, c) == parts[0] + [c] + Join(parts[1..], c);
  }

  /** Splitting gives one more piece than there are separators, no piece holds the separator,
      and joining the pieces restores the string. */
  lemma SplitJoin(s: string, c: char)
    ensures |Split(s, c)| == CountChar(s, c) + 1
    ensures forall p :: p in Split(s, c) ==> c !in p
    ensures Join(Split(s, c), c) == s
  {
    SplitPiecesFree(s, c);
    SplitThenJoin(s, c);
  }

  lemma {:induction false} SplitPiecesFree(s: string, c: char)
    ensures forall p :: p in Split(s, c) ==> c !in p
    decreases |s|
  {
    if |s| > 0 {
      SplitPiecesFree(s[1..], c);
      var rest := Split(s[1..], c);
      if s[0] != c {
        var parts := Split(s, c);
        assert parts == [[s[0]] + rest[0]] + rest[1..];
        forall p | p in parts ensures c !in p {
          if p != parts[0] {
            assert p in rest;
          }
        }
      }
    }
  }

  lemma {:induction false} SplitThenJoin(s: string, c: char)
    ensures Join(Split(s, c), c) == s
    decreases |s|
  {
    if |s| > 0 {
      SplitThenJoin(s[1..], c);
      var rest := Split(s[1..], c);
      if s[0] == c {
        assert Split(s, c) == [""] + rest;
        assert ([""] + rest)[1..] == rest;
      } else {
        var parts := Split(s, c);
        assert parts == [[s[0]] + rest[0]] + rest[1..];
        assert parts[1..] == rest[1..];
        if |rest| == 1 {
          assert Join(parts, c) == [s[0]] + rest[0];
        } else {
          assert Join(rest, c) == rest[0] + [c] + Join(rest[1..], c);
          assert Join(parts, c) == ([s[0]] + rest[0]) + [c] + Join(rest[1..], c);
        }
      }
      assert [s[0]] + s[1..] == s;
    }
  }

  /** Splitting a string made of pieces joined with `c`, where no piece holds `c`, gives the pieces back. */
  lemma {:induction false} JoinSplit(parts: seq<string>, c: char)
    requires |parts| >= 1
    requires forall i :: 0 <= i < |parts| ==> c !in parts[i]
    ensures Split(Join(parts, c), c) == parts
    decreases |parts|, |parts[0]|
  {
    var p := parts[0];
    if p == [] {
      if |parts| == 1 {
      } else {
        var tail := Join(parts[1..], c);
        assert Join(parts, c) == [c] + tail;
        assert ([c] + tail)[1..] == tail;
        JoinSplit(parts[1..], c);
        assert [""] + parts[1..] == parts;
      }
    } else {
      var shorter := [p[1..]] + parts[1..];
      assert shorter[1..] == parts[1..];
      forall i | 0 <= i < |shorter| ensures c !in shorter[i] {
        if i == 0 {
          assert forall x :: x in p[1..] ==> x in p;
        } else {
          assert shorter[i] == parts[i];
        }
      }
      JoinSplit(shorter, c);
      var whole := Join(parts, c);
      assert whole[0] == p[0];
      if |parts| == 1 {
        assert whole[1..] == Join(shorter, c);
      } else {
        assert whole == p + [c] + Join(parts[1..], c);
        assert Join(shorter, c) == p[1..] + [c] + Join(parts[1..], c);
        assert whole[1..] == Join(shorter, c);
      }
      assert p[0] != c;
      assert [p[0]] + p[1..] == p;
      assert [[p[0]] + p[1..]] + parts[1..] == parts;
    }
  }

  function DigitChar(d: nat): char
    requires d < 10
  {
    ('0' as int + d) as char
  }

  function NatToString(n: nat): (r: string)
    ensures |r| > 0 && forall i :: 0 <= i < |r| ==> '0' <= r[i] <= '9'
  {
    if n < 10 then [DigitChar(n)] else NatToString(n / 10) + [DigitChar(n % 10)]
  }

  /** `Int32.ToString()` in decimal, with a leading '-' for negative values. */
  function IntToString(n: int): (r: string)
    ensures |r| > 0 && forall i :: 0 <= i < |r| ==> r[i] == '-' || '0' <= r[i] <= '9'
  {
    if n < 0 then "-" + NatToString(-n) else NatToString(n)
  }

  function DigitValue(c: char): nat
    requires '0' <= c <= '9'
  {
    c as int - '0' as int
  }

  function ParseNat(s: string): nat
    requires forall i :: 0 <= i < |s| ==> '0' <= s[i] <= '9'
  {
    if s == [] then 0 else ParseNat(s[..|s| - 1]) * 10 + DigitValue(s[|s| - 1])
  }

  /** Decimal digits read back give the number that was written. */
  lemma {:induction false} ParseNatToString(n: nat)
    ensures ParseNat(NatToString(n)) == n
  {
    if n >= 10 {
      var r := NatToString(n);
      assert r[..|r| - 1] == NatToString(n / 10);
      ParseNatToString(n / 10);
    }
  }
}

/** `SimpleJsonParser`, the designer's stand-in for a JSON library when it reads the preset
    themes: objects are found by counting braces (quotes are not looked at), and each field is
    found by searching for its quoted key. It is not a JSON parser. */
module SimpleJson {
  import opened Strings
  import opened Platform

  // ---------------------------------------------------------------- brace scanning

  /** The brace depth before index `i`: opening braces minus closing braces in `s[..i]`; a stray
      closing brace drives it below zero. */
  function DepthAt(s: string, i: nat): int
    requires i <= |s|
  {
    if i == 0 then 0
    else DepthAt(s, i - 1) + (if s[i - 1] == '{' then 1 else if s[i - 1] == '}' then -1 else 0)
  }

  /** The most recent opening brace before index `i` that was met at depth 0, or -1. */
  function LastTopOpen(s: string, i: nat): (r: int)
    requires i <= |s|
    ensures -1 <= r < i
    ensures r >= 0 ==> s[r] == '{' && DepthAt(s, r) == 0
  {
    if i == 0 then -1
    else if s[i - 1] == '{' && DepthAt(s, i - 1) == 0 then i - 1
    else LastTopOpen(s, i - 1)
  }

  /** The objects closed within `s[..n]`, in order: each runs from an opening brace met at depth
      0 to the closing brace that brings the depth back to 0. */
  function Blocks(s: string, n: nat): seq<string>
    requires n <= |s|
  {
    if n == 0 then []
    else
      var i := n - 1;
      var open := LastTopOpen(s, i);
      Blocks(s, i) + (if s[i] == '}' && DepthAt(s, i) == 1 && open >= 0 then [s[open..n]] else [])
  }

  /** Every object found starts with an opening brace and ends with a closing one. */
  lemma {:induction false} BlocksAreBraced(s: string, n: nat)
    requires n <= |s|
    ensures forall b :: b in Blocks(s, n) ==> |b| >= 2 && b[0] == '{' && b[|b| - 1] == '}'
  {
    if n > 0 {
      BlocksAreBraced(s, n - 1);
    }
  }

  /** Depth above zero can only be reached through an opening brace met at depth 0. */
  lemma {:induction false} OpenWhileDeep(s: string, i: nat)
    requires i <= |s|
    requires DepthAt(s, i) > 0
    ensures LastTopOpen(s, i) >= 0
  {
    if i > 0 && !(s[i - 1] == '{' && DepthAt(s, i - 1) == 0) {
      OpenWhileDeep(s, i - 1);
    }
  }

  /** `SplitObjects`: one pass over the text keeping the depth and the start of the current
      top-level object. */
  method SplitObjects(json: string) returns (result: seq<string>)
    ensures result == Blocks(json, |json|)
  {
    result := [];
    var depth := 0;
    var start := -1;
    for i := 0 to |json|
      invariant depth == DepthAt(json, i)
      invariant start == if depth > 0 then LastTopOpen(json, i) else -1
      invariant result == Blocks(json, i)
    {
      if json[i] == '{' {
        if depth == 0 {
          start := i;
        }
        depth := depth + 1;
      } else if json[i] == '}' {
        depth := depth - 1;
        if depth == 0 && start >= 0 {
          result := result + [json[start..i + 1]];
          start := -1;
        }
      }
    }
  }

  /** A well-formed object as far as the scanner is concerned: an opening brace whose matching
      closing brace is the last character. */
  ghost predicate IsObject(o: string) {
    |o| >= 2 && o[0] == '{' && DepthAt(o, |o|) == 0 && forall k :: 1 <= k < |o| ==> DepthAt(o, k) > 0
  }

  predicate BraceFree(f: string) {
    '{' !in f && '}' !in f
  }

  lemma {:induction false} BraceFreeScan(f: string, n: nat)
    requires n <= |f| && BraceFree(f)
    ensures DepthAt(f, n) == 0 && Blocks(f, n) == []
  {
    if n > 0 {
      BraceFreeScan(f, n - 1);
      assert f[n - 1] in f;
    }
  }

  lemma {:induction false} ObjectOpensAtZero(o: string, k: nat)
    requires IsObject(o) && 1 <= k < |o|
    ensures LastTopOpen(o, k) == 0
  {
    if k > 1 {
      ObjectOpensAtZero(o, k - 1);
    }
  }

  lemma {:induction false} ObjectClosesLast(o: string, n: nat)
    requires IsObject(o) && n < |o|
    ensures Blocks(o, n) == []
  {
    if n > 0 {
      ObjectClosesLast(o, n - 1);
      assert DepthAt(o, n) > 0;
    }
  }

  /** An object on its own is found as exactly one block. */
  lemma ObjectIsOneBlock(o: string)
    requires IsObject(o)
    ensures Blocks(o, |o|) == [o] && DepthAt(o, |o|) == 0
    ensures o[|o| - 1] == '}'
  {
    var i := |o| - 1;
    ObjectClosesLast(o, i);
    ObjectOpensAtZero(o, i);
    assert DepthAt(o, i) > 0;
    assert o[..] == o[0..|o|];
  }

  /** Scanning a longer text agrees with scanning its prefix up to the prefix's end. */
  lemma {:induction false} ScanPrefix(s: string, t: string, i: nat)
    requires i <= |s|
    ensures DepthAt(s + t, i) == DepthAt(s, i)
    ensures LastTopOpen(s + t, i) == LastTopOpen(s, i)
    ensures Blocks(s + t, i) == Blocks(s, i)
  {
    if i > 0 {
      ScanPrefix(s, t, i - 1);
      assert (s + t)[i - 1] == s[i - 1];
      var open := LastTopOpen(s, i - 1);
      if open >= 0 {
        assert (s + t)[open..i] == s[open..i];
      }
    }
  }

  lemma {:induction false} DepthSuffix(s: string, t: string, k: nat)
    requires DepthAt(s, |s|) == 0 && k <= |t|
    ensures DepthAt(s + t, |s| + k) == DepthAt(t, k)
  {
    if k == 0 {
      ScanPrefix(s, t, |s|);
    } else {
      DepthSuffix(s, t, k - 1);
      assert (s + t)[|s| + k - 1] == t[k - 1];
    }
  }

  lemma {:induction false} OpenSuffix(s: string, t: string, k: nat)
    requires DepthAt(s, |s|) == 0 && k <= |t|
    ensures LastTopOpen(t, k) >= 0 ==> LastTopOpen(s + t, |s| + k) == |s| + LastTopOpen(t, k)
  {
    if k > 0 {
      OpenSuffix(s, t, k - 1);
      DepthSuffix(s, t, k - 1);
      assert (s + t)[|s| + k - 1] == t[k - 1];
    }
  }

  lemma SuffixSlice(s: string, t: string, a: nat, b: nat)
    requires a <= b <= |t|
    ensures (s + t)[|s| + a..|s| + b] == t[a..b]
  {
    var u := s + t;
    var x := u[|s| + a..|s| + b];
    var y := t[a..b];
    forall j | 0 <= j < b - a ensures x[j] == y[j] {
      assert x[j] == u[|s| + a + j];
    }
  }

  /** The step of the scan at one closing brace after a balanced prefix. */
  lemma ScanSuffixStep(s: string, t: string, k: nat)
    requires DepthAt(s, |s|) == 0 && 0 < k <= |t|
    requires DepthAt(s + t, |s| + k - 1) == DepthAt(t, k - 1)
    ensures Blocks(s + t, |s| + k) == Blocks(s + t, |s| + k - 1)
              + (if t[k - 1] == '}' && DepthAt(t, k - 1) == 1 && LastTopOpen(t, k - 1) >= 0
                 then [t[LastTopOpen(t, k - 1)..k]] else [])
  {
    var u := s + t;
    var i := |s| + k - 1;
    assert u[i] == t[k - 1];
    var open := LastTopOpen(u, i);
    assert Blocks(u, i + 1) == Blocks(u, i) + (if u[i] == '}' && DepthAt(u, i) == 1 && open >= 0 then [u[open..i + 1]] else []);
    if t[k - 1] == '}' && DepthAt(t, k - 1) == 1 {
      OpenWhileDeep(t, k - 1);
      OpenSuffix(s, t, k - 1);
      SuffixSlice(s, t, LastTopOpen(t, k - 1), k);
    }
  }

  /** After a prefix that ends at depth 0, the scan of the rest goes on as if it started afresh. */
  lemma {:induction false} ScanSuffix(s: string, t: string, k: nat)
    requires DepthAt(s, |s|) == 0 && k <= |t|
    ensures Blocks(s + t, |s| + k) == Blocks(s, |s|) + Blocks(t, k)
  {
    if k == 0 {
      ScanPrefix(s, t, |s|);
    } else {
      ScanSuffix(s, t, k - 1);
      DepthSuffix(s, t, k - 1);
      ScanSuffixStep(s, t, k);
    }
  }

  /** Blocks of a concatenation whose first part is balanced are the blocks of the parts. */
  lemma BlocksConcat(s: string, t: string)
    requires DepthAt(s, |s|) == 0
    ensures Blocks(s + t, |s + t|) == Blocks(s, |s|) + Blocks(t, |t|)
    ensures DepthAt(s + t, |s + t|) == DepthAt(t, |t|)
  {
    ScanSuffix(s, t, |t|);
    DepthSuffix(s, t, |t|);
  }

  /** Objects separated by commas are split back into exactly those objects. */
  lemma {:induction false} ObjectsRoundTrip(objs: seq<string>)
    requires |objs| >= 1
    requires forall i :: 0 <= i < |objs| ==> IsObject(objs[i])
    ensures Blocks(Join(objs, ','), |Join(objs, ',')|) == objs
    ensures DepthAt(Join(objs, ','), |Join(objs, ',')|) == 0
  {
    var o := objs[0];
    ObjectIsOneBlock(o);
    if |objs| > 1 {
      var rest := Join(objs[1..], ',');
      ObjectsRoundTrip(objs[1..]);
      ObjectThenRest(o, rest);
      JoinFirst(objs, ',');
      assert [o] + objs[1..] == objs;
    }
  }

  /** An object, a comma, then a balanced text: the object is the first block found. */
  lemma ObjectThenRest(o: string, rest: string)
    requires Blocks(o, |o|) == [o] && DepthAt(o, |o|) == 0 && DepthAt(rest, |rest|) == 0
    ensures Blocks(o + ([','] + rest), |o + ([','] + rest)|) == [o] + Blocks(rest, |rest|)
    ensures DepthAt(o + ([','] + rest), |o + ([','] + rest)|) == 0
  {
    var tail := [','] + rest;
    BraceFreeScan([','], 1);
    BlocksConcat([','], rest);
    assert Blocks(tail, |tail|) == Blocks(rest, |rest|);
    BlocksConcat(o, tail);
  }

  // ---------------------------------------------------------------- field lookup

  /** `"key"`, the text searched for. */
  function Pattern(key: string): string {
    "\"" + key + "\""
  }

  /** Where the text between the first two quotes at or after `from` lies, if there are two:
      the positions just after the first quote and at the second. */
  function QuoteSpan(json: string, from: nat): (r: Option<(nat, nat)>)
    requires from <= |json|
    ensures r.Some? ==> from < r.value.0 <= r.value.1 < |json|
  {
    var qStart := IndexOfChar(json, '"', from);
    if qStart < 0 then None
    else
      var qEnd := IndexOfChar(json, '"', qStart + 1);
      if qEnd < 0 then None
      else Some((qStart + 1, qEnd))
  }

  /** The span found lies between two quotes and holds none. */
  lemma QuoteSpanBetweenQuotes(json: string, from: nat)
    requires from <= |json| && QuoteSpan(json, from).Some?
    ensures var span := QuoteSpan(json, from).value;
      json[span.0 - 1] == '"' && json[span.1] == '"'
      && forall j :: span.0 <= j < span.1 ==> json[j] != '"'
  {
    IndexOfCharIsFirst(json, '"', IndexOfChar(json, '"', from) + 1);
  }

  /** `GetString`: the text between the first two quotes after the first colon that follows
      the first `"key"`, or "" when any of these is missing. */
  function GetString(json: string, key: string): string
  {
    QuotedAfter(json, Pattern(key))
  }

  /** The lookup behind `GetString`, for any search pattern. */
  function QuotedAfter(json: string, pattern: string): string
  {
    var idx := IndexOf(json, pattern, 0);
    if idx < 0 then []
    else
      var colon := IndexOfChar(json, ':', idx + |pattern|);
      if colon < 0 then [] else Quoted(json, colon + 1)
  }

  /** The text between the first two quotes at or after `from`, or "". */
  function Quoted(json: string, from: nat): string
    requires from <= |json|
  {
    var span := QuoteSpan(json, from);
    if span.None? then [] else json[span.value.0..span.value.1]
  }

  /** Without the quoted key the value read is empty, and a value read never holds a quote. */
  lemma GetStringShape(json: string, key: string)
    ensures !Contains(json, Pattern(key)) ==> GetString(json, key) == []
    ensures '"' !in GetString(json, key)
  {
    QuotedAfterShape(json, Pattern(key));
  }

  lemma QuotedAfterShape(json: string, pattern: string)
    ensures !Contains(json, pattern) ==> QuotedAfter(json, pattern) == []
    ensures '"' !in QuotedAfter(json, pattern)
  {
    QuotedAfterMissing(json, pattern);
    QuotedAfterQuoteFree(json, pattern);
  }

  /** Without the pattern nothing is read. */
  lemma QuotedAfterMissing(json: string, pattern: string)
    ensures !Contains(json, pattern) ==> QuotedAfter(json, pattern) == []
  {
    var idx := IndexOf(json, pattern, 0);
    if idx >= 0 {
      assert idx <= |json| && OccursAt(json, pattern, idx);
    }
  }

  /** Whatever is read holds no quote. */
  lemma QuotedAfterQuoteFree(json: string, pattern: string)
    ensures '"' !in QuotedAfter(json, pattern)
  {
    var idx := IndexOf(json, pattern, 0);
    if idx >= 0 {
      var colon := IndexOfChar(json, ':', idx + |pattern|);
      if colon >= 0 {
        QuotedAfterFound(json, pattern, idx, colon);
        QuotedShape(json, colon + 1);
      }
    }
  }

  /** A quoted value never holds a quote. */
  lemma QuotedShape(json: string, from: nat)
    requires from <= |json|
    ensures '"' !in Quoted(json, from)
  {
    var span := QuoteSpan(json, from);
    if span.Some? {
      QuoteSpanBetweenQuotes(json, from);
      QuotedIs(json, from, span.value.0, span.value.1);
      var v := json[span.value.0..span.value.1];
      forall j | 0 <= j < |v| ensures v[j] != '"' {
        assert v[j] == json[span.value.0 + j];
      }
    }
  }

  /** A pattern that opens with a quote, after a quote-free start, is found there, with the
      colon right after it. */
  lemma KeyFound(prefix: string, pattern: string, after: string)
    requires '"' !in prefix && |pattern| > 0 && pattern[0] == '"'
    requires |after| > 0 && after[0] == ':'
    ensures IndexOf(prefix + pattern + after, pattern, 0) == |prefix|
    ensures IndexOfChar(prefix + pattern + after, ':', |prefix| + |pattern|) == |prefix| + |pattern|
  {
    var json := prefix + pattern + after;
    var p := |prefix|;
    forall m | 0 <= m < |pattern| ensures json[p + m] == pattern[m] {
    }
    assert OccursAt(json, pattern, p);
    forall j: nat | j < p ensures !OccursAt(json, pattern, j) {
      assert json[j + 0] == prefix[j];
      assert prefix[j] in prefix;
    }
    IndexOfFirst(json, pattern, 0, p);
    assert json[p + |pattern|] == after[0];
  }

  /** A quote-free value between two quotes is what `QuoteSpan` finds. */
  lemma SpanReads(json: string, b: nat, value: string)
    requires '"' !in value
    requires b + |value| + 2 <= |json| && json[b] == '"' && json[b + 1 + |value|] == '"'
    requires forall i :: 0 <= i < |value| ==> json[b + 1 + i] == value[i]
    ensures QuoteSpan(json, b) == Some((b + 1, b + 1 + |value|))
  {
    var e := b + 1 + |value|;
    forall j | b + 1 <= j < e ensures json[j] != '"' {
      assert json[b + 1 + (j - b - 1)] == value[j - b - 1];
    }
    IndexOfCharFirst(json, '"', b + 1, e);
  }

  /** A slice that agrees with `value` position by position is `value`. */
  lemma SliceIs(json: string, a: nat, value: string)
    requires a + |value| <= |json|
    requires forall i :: 0 <= i < |value| ==> json[a + i] == value[i]
    ensures json[a..a + |value|] == value
  {
  }

  /** A field written as `"key":"value"` after a quote-free start is read back. */
  lemma GetStringReadsField(prefix: string, key: string, value: string, rest: string)
    requires '"' !in prefix && '"' !in value
    ensures GetString(prefix + Pattern(key) + ":\"" + value + "\"" + rest, key) == value
  {
    var pattern := Pattern(key);
    assert pattern[0] == '"';
    QuotedAfterReadsField(prefix, pattern, value, rest);
  }

  lemma QuotedAfterReadsField(prefix: string, pattern: string, value: string, rest: string)
    requires '"' !in prefix && '"' !in value && |pattern| > 0 && pattern[0] == '"'
    ensures QuotedAfter(prefix + pattern + ":\"" + value + "\"" + rest, pattern) == value
  {
    var after := ":\"" + value + "\"" + rest;
    var json := prefix + pattern + ":\"" + value + "\"" + rest;
    assert json == prefix + pattern + after;
    KeyFound(prefix, pattern, after);
    var c := |prefix| + |pattern|;
    assert json[c..] == after;
    ValueLayout(json, c, after, value, rest);
    ReadsLaidOutValue(json, pattern, |prefix|, c, value);
  }

  /** Once the key and the colon are found, a quoted value right after the colon is read. */
  lemma ReadsLaidOutValue(json: string, pattern: string, idx: nat, c: nat, value: string)
    requires IndexOf(json, pattern, 0) == idx && IndexOfChar(json, ':', idx + |pattern|) == c
    requires '"' !in value && c + |value| + 3 <= |json|
    requires json[c + 1] == '"' && json[c + 2 + |value|] == '"'
    requires forall i :: 0 <= i < |value| ==> json[c + 2 + i] == value[i]
    ensures QuotedAfter(json, pattern) == value
  {
    SpanReads(json, c + 1, value);
    SliceIs(json, c + 2, value);
    QuotedAfterFound(json, pattern, idx, c);
    QuotedIs(json, c + 1, c + 2, c + 2 + |value|);
  }

  lemma QuotedAfterFound(json: string, pattern: string, idx: nat, colon: nat)
    requires IndexOf(json, pattern, 0) == idx
    requires IndexOfChar(json, ':', idx + |pattern|) == colon
    ensures QuotedAfter(json, pattern) == Quoted(json, colon + 1)
  {
  }

  lemma QuotedIs(json: string, from: nat, a: nat, b: nat)
    requires from <= |json| && QuoteSpan(json, from) == Some((a, b))
    ensures Quoted(json, from) == json[a..b]
  {
  }

  lemma ValueLayout(json: string, c: nat, after: string, value: string, rest: string)
    requires after == ":\"" + value + "\"" + rest
    requires c + |after| == |json| && json[c..] == after
    ensures json[c + 1] == '"' && json[c + 2 + |value|] == '"'
    ensures forall i :: 0 <= i < |value| ==> json[c + 2 + i] == value[i]
  {
    assert json[c + 1] == after[1];
    assert json[c + 2 + |value|] == after[2 + |value|];
    forall i | 0 <= i < |value| ensures json[c + 2 + i] == value[i] {
      assert json[c + 2 + i] == json[c..][2 + i];
      assert after[2 + i] == value[i];
    }
  }

  predicate IsJsonBlank(c: char) {
    c == ' ' || c == '\r' || c == '\n'
  }

  /** The characters `GetDouble` takes into a number. */
  predicate IsNumberChar(c: char) {
    '0' <= c <= '9' || c == '.' || c == '-'
  }

  /** The first index at or after `i` that is not a blank. */
  function SkipBlanks(s: string, i: nat): (r: nat)
    requires i <= |s|
    ensures i <= r <= |s| && (r == |s| || !IsJsonBlank(s[r]))
    ensures forall j :: i <= j < r ==> IsJsonBlank(s[j])
    decreases |s| - i
  {
    if i < |s| && IsJsonBlank(s[i]) then SkipBlanks(s, i + 1) else i
  }

  /** The end of the run of number characters starting at `i`. */
  function NumberEnd(s: string, i: nat): (r: nat)
    requires i <= |s|
    ensures i <= r <= |s| && (r == |s| || !IsNumberChar(s[r]))
    ensures forall j :: i <= j < r ==> IsNumberChar(s[j])
    decreases |s| - i
  {
    if i < |s| && IsNumberChar(s[i]) then NumberEnd(s, i + 1) else i
  }

  /** The value `GetDouble` returns: the number after the first `"key"` and its colon, as
      `double.TryParse` (the `parse` parameter) reads it, and 0 when the key or the colon is
      missing or the text is not a number. */
  function NumberField(json: string, key: string, parse: string -> Option<real>): real {
    NumberAfter(json, Pattern(key), parse)
  }

  /** The lookup behind `NumberField`, for any search pattern. */
  function NumberAfter(json: string, pattern: string, parse: string -> Option<real>): real {
    var idx := IndexOf(json, pattern, 0);
    if idx < 0 then 0.0
    else
      var colon := IndexOfChar(json, ':', idx + |pattern|);
      if colon < 0 then 0.0 else NumberAt(json, colon + 1, parse)
  }

  /** The number read after the blanks at `from`, or 0 when `parse` rejects the text. */
  function NumberAt(json: string, from: nat, parse: string -> Option<real>): real
    requires from <= |json|
  {
    var start := SkipBlanks(json, from);
    var v := parse(json[start..NumberEnd(json, start)]);
    if v.Some? then v.value else 0.0
  }

  /** `GetDouble`: two loops advance past the blanks and over the number. */
  method GetDouble(json: string, key: string, parse: string -> Option<real>) returns (result: real)
    ensures result == NumberField(json, key, parse)
  {
    var pattern := "\"" + key + "\"";
    assert pattern == Pattern(key);
    var idx := IndexOf(json, pattern, 0);
    if idx < 0 {
      return 0.0;
    }
    var colon := IndexOfChar(json, ':', idx + |pattern|);
    if colon < 0 {
      return 0.0;
    }
    NumberAfterFound(json, pattern, idx, colon, parse);
    var start := colon + 1;
    while start < |json| && IsJsonBlank(json[start])
      invariant colon + 1 <= start <= |json|
      invariant SkipBlanks(json, colon + 1) == SkipBlanks(json, start)
    {
      start := start + 1;
    }
    var end := start;
    while end < |json| && IsNumberChar(json[end])
      invariant start <= end <= |json|
      invariant NumberEnd(json, start) == NumberEnd(json, end)
    {
      end := end + 1;
    }
    var val := json[start..end];
    var parsed := parse(val);
    if parsed.Some? {
      result := parsed.value;
    } else {
      result := 0.0;
    }
  }

  lemma NumberAfterFound(json: string, pattern: string, idx: nat, colon: nat,
                         parse: string -> Option<real>)
    requires IndexOf(json, pattern, 0) == idx
    requires IndexOfChar(json, ':', idx + |pattern|) == colon
    ensures NumberAfter(json, pattern, parse) == NumberAt(json, colon + 1, parse)
  {
  }

  /** Blanks from `from` up to `start`, then a run of digits that nothing numeric follows:
      the blanks are skipped and exactly the digits are taken. */
  lemma NumeralAt(json: string, from: nat, start: nat, digits: string)
    requires from <= start && start + |digits| <= |json|
    requires forall j :: from <= j < start ==> IsJsonBlank(json[j])
    requires |digits| > 0 && forall i :: 0 <= i < |digits| ==> '0' <= digits[i] <= '9'
    requires forall i :: 0 <= i < |digits| ==> json[start + i] == digits[i]
    requires start + |digits| == |json| || !IsNumberChar(json[start + |digits|])
    ensures SkipBlanks(json, from) == start && NumberEnd(json, start) == start + |digits|
    ensures json[start..start + |digits|] == digits
  {
    assert json[start + 0] == digits[0];
    SkipsTo(json, from, start);
    forall j | start <= j < start + |digits| ensures IsNumberChar(json[j]) {
      assert json[start + (j - start)] == digits[j - start];
    }
    RunsTo(json, start, start + |digits|);
    SliceIs(json, start, digits);
  }

  /** Where the parts of `pre + blanks + digits + rest` lie. */
  lemma NumeralLayout(pre: string, blanks: string, digits: string, rest: string)
    ensures var json := pre + blanks + digits + rest;
      (forall j :: |pre| <= j < |pre| + |blanks| ==> json[j] == blanks[j - |pre|])
      && (forall i :: 0 <= i < |digits| ==> json[|pre| + |blanks| + i] == digits[i])
      && (|rest| > 0 ==> json[|pre| + |blanks| + |digits|] == rest[0])
  {
  }

  /** A number after blanks at `from` is read as `parse` reads its digits. */
  lemma NumberAtReads(json: string, from: nat, start: nat, digits: string, parse: string -> Option<real>)
    requires from <= start && start + |digits| <= |json|
    requires forall j :: from <= j < start ==> IsJsonBlank(json[j])
    requires |digits| > 0 && forall i :: 0 <= i < |digits| ==> '0' <= digits[i] <= '9'
    requires forall i :: 0 <= i < |digits| ==> json[start + i] == digits[i]
    requires start + |digits| == |json| || !IsNumberChar(json[start + |digits|])
    requires parse(digits).Some?
    ensures NumberAt(json, from, parse) == parse(digits).value
  {
    NumeralAt(json, from, start, digits);
  }

  /** A field written as `"key":` then blanks then a whole number is read back, provided the
      number is not followed by another number character. */
  lemma NumberFieldReadsField(prefix: string, key: string, blanks: string, n: nat, rest: string,
                              parse: string -> Option<real>)
    requires '"' !in prefix && ReadsNumerals(parse)
    requires forall i :: 0 <= i < |blanks| ==> IsJsonBlank(blanks[i])
    requires rest == [] || !IsNumberChar(rest[0])
    ensures NumberField(prefix + Pattern(key) + ":" + blanks + NatToString(n) + rest, key, parse) == n as real
  {
    var pattern := Pattern(key);
    assert pattern[0] == '"';
    var digits := NatToString(n);
    assert parse(digits) == Some(n as real);
    NumberAfterReadsField(prefix, pattern, blanks, digits, rest, parse);
  }

  lemma NumberAfterReadsField(prefix: string, pattern: string, blanks: string, digits: string,
                              rest: string, parse: string -> Option<real>)
    requires '"' !in prefix && |pattern| > 0 && pattern[0] == '"'
    requires forall i :: 0 <= i < |blanks| ==> IsJsonBlank(blanks[i])
    requires |digits| > 0 && forall i :: 0 <= i < |digits| ==> '0' <= digits[i] <= '9'
    requires rest == [] || !IsNumberChar(rest[0])
    requires parse(digits).Some?
    ensures NumberAfter(prefix + pattern + ":" + blanks + digits + rest, pattern, parse)
            == parse(digits).value
  {
    var after := ":" + blanks + digits + rest;
    var json := prefix + pattern + ":" + blanks + digits + rest;
    assert json == prefix + pattern + after;
    KeyFound(prefix, pattern, after);
    var pre := prefix + pattern + ":";
    assert json == pre + blanks + digits + rest;
    NumeralLayout(pre, blanks, digits, rest);
    var c := |prefix| + |pattern|;
    assert |pre| == c + 1;
    forall j | c + 1 <= j < c + 1 + |blanks| ensures IsJsonBlank(json[j]) {
      assert json[j] == blanks[j - (c + 1)];
    }
    ReadsLaidOutNumber(json, pattern, |prefix|, c, c + 1 + |blanks|, digits, parse);
  }

  /** Once the key and the colon are found, blanks and then digits after the colon are read
      as `parse` reads the digits. */
  lemma ReadsLaidOutNumber(json: string, pattern: string, idx: nat, c: nat, start: nat,
                           digits: string, parse: string -> Option<real>)
    requires IndexOf(json, pattern, 0) == idx && IndexOfChar(json, ':', idx + |pattern|) == c
    requires c + 1 <= start && start + |digits| <= |json|
    requires forall j :: c + 1 <= j < start ==> IsJsonBlank(json[j])
    requires |digits| > 0 && forall i :: 0 <= i < |digits| ==> '0' <= digits[i] <= '9'
    requires forall i :: 0 <= i < |digits| ==> json[start + i] == digits[i]
    requires start + |digits| == |json| || !IsNumberChar(json[start + |digits|])
    requires parse(digits).Some?
    ensures NumberAfter(json, pattern, parse) == parse(digits).value
  {
    NumberAfterFound(json, pattern, idx, c, parse);
    NumberAtReads(json, c + 1, start, digits, parse);
  }

  lemma {:induction false} SkipsTo(s: string, i: nat, r: nat)
    requires i <= r <= |s|
    requires forall j :: i <= j < r ==> IsJsonBlank(s[j])
    requires r == |s| || !IsJsonBlank(s[r])
    ensures SkipBlanks(s, i) == r
    decreases r - i
  {
    if i < r {
      SkipsTo(s, i + 1, r);
    }
  }

  lemma {:induction false} RunsTo(s: string, i: nat, r: nat)
    requires i <= r <= |s|
    requires forall j :: i <= j < r ==> IsNumberChar(s[j])
    requires r == |s| || !IsNumberChar(s[r])
    ensures NumberEnd(s, i) == r
    decreases r - i
  {
    if i < r {
      RunsTo(s, i + 1, r);
    }
  }

  /** Without the key the number is 0. */
  lemma NumberFieldMissing(json: string, key: string, parse: string -> Option<real>)
    requires !Contains(json, Pattern(key))
    ensures NumberField(json, key, parse) == 0.0
  {
    forall j: nat ensures !OccursAt(json, Pattern(key), j) {
      if j <= |json| {
        assert !OccursAt(json, Pattern(key), j);
      }
    }
  }

  // ---------------------------------------------------------------- presets

  /** `PresetTheme`: a name and the 22 style values. */
  datatype PresetTheme = PresetTheme(
    name: string,
    controlBackground: string, gradientStart: string, gradientMid: string, gradientEnd: string,
    borderColor: string, borderThickness: real, cornerRadius: real,
    shadowBlur: real, shadowDepth: real, shadowColor: string, shadowOpacity: real,
    highlightColor: string, highlightOpacity: real,
    fontFamily: string, fontSize: real, fontColor: string, caretColor: string,
    labelColor: string, labelFontSize: real,
    focusBorderColor: string, accentColor: string, cardPadding: string)

  /** The theme one block describes, each field looked up by its own key. */
  function ThemeOf(block: string, parse: string -> Option<real>): PresetTheme {
    PresetTheme(
      GetString(block, "Name"),
      GetString(block, "ControlBackground"), GetString(block, "GradientStart"),
      GetString(block, "GradientMid"), GetString(block, "GradientEnd"),
      GetString(block, "BorderColor"), NumberField(block, "BorderThickness", parse),
      NumberField(block, "CornerRadius", parse),
      NumberField(block, "ShadowBlur", parse), NumberField(block, "ShadowDepth", parse),
      GetString(block, "ShadowColor"), NumberField(block, "ShadowOpacity", parse),
      GetString(block, "HighlightColor"), NumberField(block, "HighlightOpacity", parse),
      GetString(block, "FontFamily"), NumberField(block, "FontSize", parse),
      GetString(block, "FontColor"), GetString(block, "CaretColor"),
      GetString(block, "LabelColor"), NumberField(block, "LabelFontSize", parse),
      GetString(block, "FocusBorderColor"), GetString(block, "AccentColor"),
      GetString(block, "CardPadding"))
  }

  /** The themes of the blocks, in block order, keeping only those with a non-empty name. */
  function Presets(blocks: seq<string>, parse: string -> Option<real>): (r: seq<PresetTheme>)
    ensures |r| <= |blocks|
    ensures forall i :: 0 <= i < |r| ==> r[i].name != []
  {
    if blocks == [] then []
    else
      var p := ThemeOf(blocks[|blocks| - 1], parse);
      Presets(blocks[..|blocks| - 1], parse) + (if p.name != [] then [p] else [])
  }

  /** A theme is kept exactly when its block names it. */
  lemma {:induction false} PresetsKeepNamed(blocks: seq<string>, parse: string -> Option<real>)
    ensures forall b :: b in blocks && GetString(b, "Name") != [] ==> ThemeOf(b, parse) in Presets(blocks, parse)
    ensures forall p :: p in Presets(blocks, parse) ==> exists b :: b in blocks && p == ThemeOf(b, parse)
  {
    if blocks != [] {
      var init := blocks[..|blocks| - 1];
      PresetsKeepNamed(init, parse);
      assert blocks == init + [blocks[|blocks| - 1]];
      forall b | b in blocks && GetString(b, "Name") != []
        ensures ThemeOf(b, parse) in Presets(blocks, parse)
      {
        if b != blocks[|blocks| - 1] {
          assert b in init;
        }
      }
      forall p | p in Presets(blocks, parse) ensures exists b :: b in blocks && p == ThemeOf(b, parse) {
        if p in Presets(init, parse) {
          var b :| b in init && p == ThemeOf(b, parse);
          assert b in blocks;
        } else {
          assert p == ThemeOf(blocks[|blocks| - 1], parse);
        }
      }
    }
  }

  lemma PresetsStep(blocks: seq<string>, i: nat, parse: string -> Option<real>)
    requires i < |blocks|
    ensures var p := ThemeOf(blocks[i], parse);
            Presets(blocks[..i + 1], parse) == Presets(blocks[..i], parse) + (if p.name != [] then [p] else [])
  {
    assert blocks[..i + 1][..i] == blocks[..i];
    assert blocks[..i + 1][i] == blocks[i];
  }

  /** The text `ParsePresets` scans: trimmed, then leading '[' and trailing ']' removed. */
  function Unwrapped(json: string): string {
    TrimEndChar(TrimStartChar(Trim(json), '['), ']')
  }

  /** One theme read field by field. */
  method ReadTheme(block: string, parse: string -> Option<real>) returns (p: PresetTheme)
    ensures p == ThemeOf(block, parse)
  {
    var borderThickness := GetDouble(block, "BorderThickness", parse);
    var cornerRadius := GetDouble(block, "CornerRadius", parse);
    var shadowBlur := GetDouble(block, "ShadowBlur", parse);
    var shadowDepth := GetDouble(block, "ShadowDepth", parse);
    var shadowOpacity := GetDouble(block, "ShadowOpacity", parse);
    var highlightOpacity := GetDouble(block, "HighlightOpacity", parse);
    var fontSize := GetDouble(block, "FontSize", parse);
    var labelFontSize := GetDouble(block, "LabelFontSize", parse);
    p := PresetTheme(
      GetString(block, "Name"),
      GetString(block, "ControlBackground"), GetString(block, "GradientStart"),
      GetString(block, "GradientMid"), GetString(block, "GradientEnd"),
      GetString(block, "BorderColor"), borderThickness, cornerRadius,
      shadowBlur, shadowDepth, GetString(block, "ShadowColor"), shadowOpacity,
      GetString(block, "HighlightColor"), highlightOpacity,
      GetString(block, "FontFamily"), fontSize,
      GetString(block, "FontColor"), GetString(block, "CaretColor"),
      GetString(block, "LabelColor"), labelFontSize,
      GetString(block, "FocusBorderColor"), GetString(block, "AccentColor"),
      GetString(block, "CardPadding"));
  }

  /** `ParsePresets`: the named themes of the objects in the text, in order. */
  method ParsePresets(json: string, parse: string -> Option<real>) returns (list: seq<PresetTheme>)
    ensures list == Presets(Blocks(Unwrapped(json), |Unwrapped(json)|), parse)
  {
    var text := TrimEndChar(TrimStartChar(Trim(json), '['), ']');
    var blocks := SplitObjects(text);
    list := ReadThemes(blocks, parse);
  }

  /** The loop of `ParsePresets`: each block read as a theme, the unnamed ones skipped. */
  method ReadThemes(blocks: seq<string>, parse: string -> Option<real>) returns (list: seq<PresetTheme>)
    ensures list == Presets(blocks, parse)
  {
    list := [];
    for i := 0 to |blocks|
      invariant list == Presets(blocks[..i], parse)
    {
      var p := ReadTheme(blocks[i], parse);
      PresetsStep(blocks, i, parse);
      if p.name != [] {
        list := list + [p];
      }
    }
    assert blocks[..|blocks|] == blocks;
  }

  /** A preset file written as a bracketed, comma-separated list of objects is read as the
      named themes of exactly those objects. */
  lemma PresetArrayRoundTrip(objs: seq<string>, parse: string -> Option<real>)
    requires |objs| >= 1
    requires forall i :: 0 <= i < |objs| ==> IsObject(objs[i])
    ensures var json := "[" + Join(objs, ',') + "]";
            Presets(Blocks(Unwrapped(json), |Unwrapped(json)|), parse) == Presets(objs, parse)
  {
    var body := Join(objs, ',');
    var json := "[" + body + "]";
    ObjectsRoundTrip(objs);
    JoinEnds(objs);
    UnwrapBraced(body);
  }

  lemma StripOpen(x: string)
    requires x != [] && x[0] != '['
    ensures TrimStartChar("[" + x, '[') == x
  {
    assert ("[" + x)[1..] == x;
  }

  lemma StripClose(x: string)
    requires x != [] && x[|x| - 1] != ']'
    ensures TrimEndChar(x + "]", ']') == x
  {
    assert (x + "]")[..|x|] == x;
  }

  /** Brackets around a text that opens and closes with braces are trimmed off again. */
  lemma UnwrapBraced(body: string)
    requires |body| >= 2 && body[0] == '{' && body[|body| - 1] == '}'
    ensures Unwrapped("[" + body + "]") == body
  {
    var inner := body + "]";
    var json := "[" + inner;
    assert "[" + body + "]" == json;
    assert json[0] == '[';
    assert json[|json| - 1] == inner[|inner| - 1] == ']';
    TrimKeeps(json);
    assert inner[0] == body[0];
    StripOpen(inner);
    StripClose(body);
  }

  /** A comma-separated list of objects starts with an opening and ends with a closing brace. */
  lemma {:induction false} JoinEnds(objs: seq<string>)
    requires |objs| >= 1
    requires forall i :: 0 <= i < |objs| ==> IsObject(objs[i])
    ensures |Join(objs, ',')| >= 2
    ensures Join(objs, ',')[0] == '{' && Join(objs, ',')[|Join(objs, ',')| - 1] == '}'
  {
    ObjectIsOneBlock(objs[0]);
    if |objs| > 1 {
      JoinEnds(objs[1..]);
    }
  }
}

/**
  Byte strings.  A C string is modelled as a `string` without its terminator,
  one char standing for one byte.
 */
module Text {

  predicate IsUpper(c: char) { 'A' <= c <= 'Z' }

  predicate IsAlpha(c: char) { 'A' <= c <= 'Z' || 'a' <= c <= 'z' }

  predicate IsDigit(c: char) { '0' <= c <= '9' }

  /** g_ascii_isspace: no vertical tab. */
  predicate IsSpace(c: char) {
    c == ' ' || c == '\t' || c == '\n' || c == '\r' || c as int == 0x0c
  }

  /** g_ascii_tolower */
  function ToLower(c: char): char {
    if IsUpper(c) then (c as int + 32) as char else c
  }

  /** g_ascii_strdown */
  function Lower(s: string): (r: string)
    ensures |r| == |s|
    ensures forall i :: 0 <= i < |s| ==> r[i] == ToLower(s[i])
  {
    seq(|s|, i requires 0 <= i < |s| => ToLower(s[i]))
  }

  /** g_ascii_strcasecmp(a, b) == 0 */
  predicate SameIgnoringCase(a: string, b: string) {
    |a| == |b| && forall i :: 0 <= i < |a| ==> ToLower(a[i]) == ToLower(b[i])
  }

  /** Case is that of the 26 ASCII letters, and nothing else. */
  lemma CaseIsAscii(a: string, b: string)
    ensures SameIgnoringCase(a, b) <==> |a| == |b| && forall i :: 0 <= i < |a| ==>
      || a[i] == b[i]
      || (65 <= a[i] as int <= 90 && b[i] as int == a[i] as int + 32)
      || (65 <= b[i] as int <= 90 && a[i] as int == b[i] as int + 32)
  {
    assert forall c, d :: ToLower(c) == ToLower(d) <==>
      c == d || (65 <= c as int <= 90 && d as int == c as int + 32) || (65 <= d as int <= 90 && c as int == d as int + 32);
  }

  lemma LowerDecidesCase(a: string, b: string)
    ensures SameIgnoringCase(a, b) <==> Lower(a) == Lower(b)
  {
    if Lower(a) == Lower(b) {
      forall i | 0 <= i < |a|
        ensures ToLower(a[i]) == ToLower(b[i])
      {
        assert Lower(a)[i] == Lower(b)[i];
      }
    }
  }

  lemma LowerIdempotent(s: string)
    ensures Lower(Lower(s)) == Lower(s)
  {}

  /** Length of the longest prefix of s that avoids the given characters (strcspn). */
  function Span(s: string, stops: set<char>): (n: nat)
    ensures n <= |s|
    ensures forall i :: 0 <= i < n ==> s[i] !in stops
    ensures n < |s| ==> s[n] in stops
  {
    if s == "" || s[0] in stops then 0 else 1 + Span(s[1..], stops)
  }

  /** Span is determined by where the first stop is. */
  lemma SpanIs(s: string, stops: set<char>, n: nat)
    requires n <= |s|
    requires forall i :: 0 <= i < n ==> s[i] !in stops
    requires n < |s| ==> s[n] in stops
    ensures Span(s, stops) == n
  {}

  predicate StartsWith(s: string, p: string) {
    |p| <= |s| && s[..|p|] == p
  }

  /** Decimal digits of n, as %d and %zu print them. */
  function Decimal(n: nat): (r: string)
    ensures r != ""
    ensures forall i :: 0 <= i < |r| ==> IsDigit(r[i])
  {
    if n < 10 then [('0' as int + n) as char] else Decimal(n / 10) + [('0' as int + n % 10) as char]
  }

  function DigitValue(c: char): (v: nat)
    requires IsDigit(c)
    ensures v < 10
  {
    c as int - '0' as int
  }

  /** strtoul on a string of digits. */
  function DigitsValue(s: string): nat
    requires forall i :: 0 <= i < |s| ==> IsDigit(s[i])
  {
    if s == "" then 0
    else DigitsValue(s[..|s| - 1]) * 10 + DigitValue(s[|s| - 1])
  }

  lemma {:induction false} DecimalRoundTrip(n: nat)
    ensures DigitsValue(Decimal(n)) == n
  {
    var d := Decimal(n);
    if n < 10 {
      assert d[..|d| - 1] == "";
    } else {
      assert d[..|d| - 1] == Decimal(n / 10);
      DecimalRoundTrip(n / 10);
    }
  }

  /** Printing a parsed number never adds digits. */
  lemma {:induction false} DecimalNoLonger(s: string)
    requires s != "" && forall i :: 0 <= i < |s| ==> IsDigit(s[i])
    ensures |Decimal(DigitsValue(s))| <= |s|
  {
    var n := DigitsValue(s);
    if |s| > 1 && n >= 10 {
      var front := s[..|s| - 1];
      assert n / 10 == DigitsValue(front);
      DecimalNoLonger(front);
    }
  }

  /** The pieces of s between separators; a string without one is its own only piece. */
  function Split(s: string, sep: char): (r: seq<string>)
    ensures r != []
  {
    var n := Span(s, {sep});
    if n == |s| then [s] else [s[..n]] + Split(s[n + 1..], sep)
  }

  lemma SplitWord(word: string, sep: char)
    requires sep !in word
    ensures Split(word, sep) == [word]
  {
    SpanIs(word, {sep}, |word|);
  }

  lemma SplitFirst(word: string, sep: char, rest: string)
    requires sep !in word
    ensures Split(word + [sep] + rest, sep) == [word] + Split(rest, sep)
  {
    var s := word + [sep] + rest;
    SpanIs(s, {sep}, |word|);
    assert s[..|word|] == word && s[|word| + 1..] == rest;
  }

  lemma Regroup<T>(a: seq<T>, b: seq<T>, c: seq<T>)
    ensures a + b + c == a + (b + c)
  {}

  /** A separator splits at exactly its place, whatever stands on either side. */
  lemma {:induction false} SplitConcat(a: string, sep: char, b: string)
    ensures Split(a + [sep] + b, sep) == Split(a, sep) + Split(b, sep)
    decreases |a|
  {
    hide Split;
    var n := Span(a, {sep});
    var word := a[..n];
    if n == |a| {
      assert a == word;
      SplitFirst(a, sep, b);
      SplitWord(a, sep);
    } else {
      var rest := a[n + 1..];
      assert a == word + [sep] + rest;
      SplitFirst(word, sep, rest);
      SplitFirst(word, sep, rest + [sep] + b);
      assert a + [sep] + b == word + [sep] + (rest + [sep] + b);
      SplitConcat(rest, sep, b);
      Regroup([word], Split(rest, sep), Split(b, sep));
    }
  }

  /** No piece holds the separator. */
  lemma {:induction false} SplitPieces(s: string, sep: char)
    ensures forall i :: 0 <= i < |Split(s, sep)| ==> sep !in Split(s, sep)[i]
    decreases |s|
  {
    var n := Span(s, {sep});
    if n < |s| {
      SplitPieces(s[n + 1..], sep);
    }
  }
}

/** The normalisations of the parser: percent escapes and dot segments reach stable forms. */
module UriTheorems {
  import opened Text
  import opened Wrappers
  import opened UriGrammar

  // ---------- Percent escapes ----------

  lemma {:induction false} UnescapeConcat(a: string, b: string)
    requires Unescape(a).Some? && Unescape(b).Some?
    ensures Unescape(a + b) == Some(Unescape(a).value + Unescape(b).value)
    decreases |a|
  {
    hide UnescapeHead;
    var y := Unescape(b).value;
    if a == "" {
      assert a + b == b && "" + y == y;
    } else {
      var s := a + b;
      var rest := a[HeadLength(a)..];
      HeadIsLocal(a, b);
      assert s[HeadLength(s)..] == rest + b;
      UnescapeConcat(rest, b);
      Associative(UnescapeHead(a), Unescape(rest).value, y);
    }
  }

  lemma Associative(x: string, y: string, z: string)
    ensures x + (y + z) == (x + y) + z
  {}

  lemma HeadIsLocal(a: string, b: string)
    requires a != "" && StartsWell(a)
    ensures StartsWell(a + b) && HeadLength(a + b) == HeadLength(a) && UnescapeHead(a + b) == UnescapeHead(a)
  {
    var s := a + b;
    assert s[..|a|] == a;
    assert s[0] == a[0] && (a[0] == '%' ==> s[1] == a[1] && s[2] == a[2]);
  }

  /** Cutting a string at a delimiter never cuts an escape. */
  lemma {:induction false} UnescapeSplit(a: string, b: string)
    requires Unescape(a + b).Some?
    requires b == "" || b[0] == '/' || b[0] == '?' || b[0] == '#'
    ensures Unescape(a).Some? && Unescape(b).Some?
  {
    if a == "" {
      assert a + b == b;
    } else {
      var s := a + b;
      assert s[0] == a[0] && (|a| < |s| ==> s[|a|] == b[0]);
      assert |s| >= 3 && |a| >= 3 ==> s[1] == a[1] && s[2] == a[2];
      var k := HeadLength(s);
      assert k <= |a| && StartsWell(a) && k == HeadLength(a);
      assert s[k..] == a[k..] + b;
      UnescapeSplit(a[k..], b);
    }
  }

  lemma {:induction false} UnescapeNoLonger(s: string)
    requires Unescape(s).Some?
    ensures |Unescape(s).value| <= |s|
  {
    if s != "" {
      UnescapeNoLonger(s[HeadLength(s)..]);
    }
  }

  predicate Escaped(s: string) { Unescape(s) == Some(s) }

  lemma HeadIdempotent(s: string, rest: string)
    requires s != "" && StartsWell(s)
    ensures var t := UnescapeHead(s) + rest;
      StartsWell(t) && UnescapeHead(t) == UnescapeHead(s) && t[HeadLength(t)..] == rest
  {
    var h := UnescapeHead(s);
    if s[0] == '%' && |h| == 3 {
      assert HexValue(h[1]) == HexValue(s[1]) && HexValue(h[2]) == HexValue(s[2]);
    } else {
      assert h[0] != '%';
    }
    HeadIsLocal(h, rest);
  }

  /** Percent normalisation reaches a fixed point in one pass. */
  lemma {:induction false} UnescapeIdempotent(s: string)
    requires Unescape(s).Some?
    ensures Escaped(Unescape(s).value)
  {
    if s != "" {
      var k := HeadLength(s);
      UnescapeIdempotent(s[k..]);
      HeadIdempotent(s, Unescape(s[k..]).value);
    }
  }

  /** No delimiter is produced by decoding. */
  lemma {:induction false} UnescapeKeepsDelimiters(s: string, stops: set<char>)
    requires Unescape(s).Some?
    requires forall c :: c in stops ==> !IsUnreserved(c)
    requires Avoids(s, stops)
    ensures Avoids(Unescape(s).value, stops)
  {
    if s != "" {
      UnescapeKeepsDelimiters(s[HeadLength(s)..], stops);
      assert Avoids(UnescapeHead(s), stops);
    }
  }

  lemma UnescapeKeepsFirstSlash(s: string)
    requires Unescape(s).Some?
    ensures (Unescape(s).value == "") == (s == "")
    ensures s != "" ==> (Unescape(s).value[0] == '/' <==> s[0] == '/')
  {}

  // ---------- Dot segments ----------

  predicate IsSegment(p: string, i: nat, j: nat) {
    && i <= j <= |p|
    && (i == 0 || p[i - 1] == '/')
    && (j == |p| || p[j] == '/')
    && Avoids(p[i..j], {'/'})
  }

  predicate IsDot(s: string) { s == "." || s == ".." }

  /** No segment of the path is "." or "..". */
  ghost predicate NoDotSegments(p: string) {
    forall i: nat, j: nat :: IsSegment(p, i, j) ==> !IsDot(p[i..j])
  }

  lemma SegmentHasNoSlash(p: string, i: nat, j: nat, k: nat)
    requires IsSegment(p, i, j) && i <= k < j
    ensures p[k] != '/'
  {
    assert p[i..j][k - i] == p[k];
  }

  lemma AppendSegment(p: string, seg: string)
    requires NoDotSegments(p)
    requires Avoids(seg, {'/'}) && !IsDot(seg)
    ensures NoDotSegments(p + "/" + seg)
  {
    var q := p + "/" + seg;
    forall i: nat, j: nat | IsSegment(q, i, j)
      ensures !IsDot(q[i..j])
    {
      if j <= |p| {
        assert q[i..j] == p[i..j];
        assert IsSegment(p, i, j);
      } else if i <= |p| {
        SegmentHasNoSlash(q, i, j, |p|);
        assert false;
      } else {
        assert forall k :: |p| < k < |q| ==> q[k] == seg[k - 1 - |p|];
        assert i == |p| + 1 && j == |q|;
        assert q[i..j] == seg;
      }
    }
  }

  lemma {:induction false} DropLastSegmentClean(p: string)
    requires NoDotSegments(p)
    ensures NoDotSegments(DropLastSegment(p))
    decreases |p|
  {
    var d := DropLastSegment(p);
    DropLastSegmentPrefix(p);
    forall i: nat, j: nat | IsSegment(d, i, j)
      ensures !IsDot(d[i..j])
    {
      assert d[i..j] == p[i..j];
      if d != "" {
        assert IsSegment(p, i, j);
      }
    }
  }

  lemma {:induction false} DropLastSegmentPrefix(p: string)
    ensures |DropLastSegment(p)| <= |p| && DropLastSegment(p) == p[..|DropLastSegment(p)|]
    ensures DropLastSegment(p) != "" ==>
      |DropLastSegment(p)| < |p| && p[|DropLastSegment(p)|] == '/'
    ensures DropLastSegment(p) != "" && p[0] == '/' ==> DropLastSegment(p)[0] == '/'
  {
    if p != "" && p[|p| - 1] != '/' {
      DropLastSegmentPrefix(p[..|p| - 1]);
    }
  }

  /** The loop keeps the input absolute once anything has been output. */
  predicate LoopState(input: string, output: string) {
    input == "" || input[0] == '/' || output == ""
  }

  lemma FirstSegmentShape(input: string)
    requires input != ""
    ensures var n := FirstSegment(input);
      && 0 < n <= |input|
      && (n < |input| ==> input[n] == '/')
      && (if input[0] == '/' then Avoids(input[1..n], {'/'}) else Avoids(input[..n], {'/'}))
  {}

  /** Dot-segment removal leaves no dot segment, whatever it is given. */
  lemma {:induction false} RemoveDotsClean(input: string, output: string)
    requires LoopState(input, output) && NoDotSegments(output)
    ensures NoDotSegments(RemoveDots(input, output))
    decreases |input|
  {
    if input == "" || input == "." || input == ".." {
    } else if StartsWith(input, "../") {
      RemoveDotsClean(input[3..], output);
    } else if StartsWith(input, "./") {
      RemoveDotsClean(input[2..], output);
    } else if StartsWith(input, "/./") {
      StartsWithAt(input, "/./", 2);
      RemoveDotsClean(input[2..], output);
    } else if input == "/." {
      RemoveDotsClean("/", output);
    } else if StartsWith(input, "/../") {
      StartsWithAt(input, "/../", 3);
      DropLastSegmentClean(output);
      RemoveDotsClean(input[3..], DropLastSegment(output));
    } else if input == "/.." {
      DropLastSegmentClean(output);
      RemoveDotsClean("/", DropLastSegment(output));
    } else {
      var n := FirstSegment(input);
      FirstSegmentShape(input);
      FirstSegmentIsNoDot(input);
      if input[0] == '/' {
        AppendSegment(output, input[1..n]);
        assert output + "/" + input[1..n] == output + input[..n];
      } else {
        assert output + input[..n] == input[..n];
        SingleSegment(input[..n]);
      }
      RemoveDotsClean(input[n..], output + input[..n]);
    }
  }

  lemma SingleSegment(s: string)
    requires Avoids(s, {'/'}) && !IsDot(s)
    ensures NoDotSegments(s)
  {
    forall i: nat, j: nat | IsSegment(s, i, j)
      ensures !IsDot(s[i..j])
    {
      assert i == 0 && j == |s|;
      assert s[i..j] == s;
    }
  }

  predicate DotRuleApplies(input: string) {
    || StartsWith(input, "../") || StartsWith(input, "./")
    || StartsWith(input, "/./") || input == "/."
    || StartsWith(input, "/../") || input == "/.."
    || IsDot(input)
  }

  /** A first segment that is a dot segment fires one of the rules. */
  lemma DotSegmentFires(input: string, start: nat, n: nat)
    requires input != "" && n == FirstSegment(input)
    requires start == (if input[0] == '/' then 1 else 0) && start <= n
    requires IsDot(input[start..n])
    ensures DotRuleApplies(input)
  {
    var seg := input[start..n];
    FirstSegmentShape(input);
    assert input[..n] == input[..start] + seg;
    if n < |input| {
      assert input[..n + 1] == input[..start] + seg + "/";
    } else {
      assert input == input[..start] + seg;
    }
    if start == 1 {
      assert input[..1] == "/";
    } else {
      assert input[..0] == "";
    }
  }

  lemma FiringIsDotSegment(input: string, start: nat)
    requires input != "" && DotRuleApplies(input)
    requires start == if input[0] == '/' then 1 else 0
    ensures start <= FirstSegment(input) && IsDot(input[start..FirstSegment(input)])
  {
    hide DotRuleApplies;
    var m := if StartsWith(input, "/../") || input == "/.." then 3
             else if StartsWith(input, "/./") || input == "/." || StartsWith(input, "../") || input == ".." then 2
             else 1;
    RuleSegment(input, m, start);
    assert Avoids(input[start..m], {'/'});
    if start == 1 {
      assert forall k :: 0 <= k < m - 1 ==> input[1..][k] == input[1..m][k];
      SpanIs(input[1..], {'/'}, m - 1);
    } else {
      assert forall k :: 0 <= k < m ==> input[k] == input[..m][k];
      SpanIs(input, {'/'}, m);
    }
  }

  /** Rule E is reached exactly when the first segment is not a dot segment. */
  lemma FirstSegmentIsNoDot(input: string)
    requires input != ""
    ensures var n := FirstSegment(input);
      var seg := if input[0] == '/' then input[1..n] else input[..n];
      DotRuleApplies(input) <==> IsDot(seg)
  {
    hide DotRuleApplies, IsDot;
    var n, start := FirstSegment(input), if input[0] == '/' then 1 else 0;
    FirstSegmentShape(input);
    assert input[0..n] == input[..n];
    if IsDot(input[start..n]) {
      DotSegmentFires(input, start, n);
    }
    if DotRuleApplies(input) {
      FiringIsDotSegment(input, start);
    }
  }

  lemma RuleSegment(input: string, m: nat, start: nat)
    requires input != "" && DotRuleApplies(input)
    requires start == if input[0] == '/' then 1 else 0
    requires m == if StartsWith(input, "/../") || input == "/.." then 3
               else if StartsWith(input, "/./") || input == "/." || StartsWith(input, "../") || input == ".." then 2
               else 1
    ensures start <= m <= |input| && (m < |input| ==> input[m] == '/') && IsDot(input[start..m])
  {
    if StartsWith(input, "/../") {
      assert input[..4][0] == '/' && input[..4][3] == '/';
      assert input[1..3] == input[..4][1..3] == "..";
    } else if input == "/.." {
      assert input[1..3] == "..";
    } else if StartsWith(input, "/./") {
      assert input[..3][0] == '/' && input[..3][2] == '/';
      assert input[1..2] == input[..3][1..2] == ".";
    } else if input == "/." {
      assert input[1..2] == ".";
    } else if StartsWith(input, "../") {
      assert input[..3][0] == '.' && input[..3][2] == '/';
      assert input[0..2] == input[..3][0..2] == "..";
    } else if input == ".." {
      assert input[0..2] == "..";
    } else if StartsWith(input, "./") {
      assert input[..2][0] == '.' && input[..2][1] == '/';
      assert input[0..1] == input[..2][0..1] == ".";
    } else {
      assert input[0..1] == ".";
    }
  }

  /** A path without dot segments passes through unchanged. */
  lemma {:induction false} RemoveDotsIdentity(input: string, output: string)
    requires LoopState(input, output) && NoDotSegments(output + input)
    ensures RemoveDots(input, output) == output + input
    decreases |input|
  {
    if input == "" {
    } else {
      var n := FirstSegment(input);
      var p := output + input;
      var start := if input[0] == '/' then 1 else 0;
      FirstSegmentShape(input);
      FirstSegmentIsNoDot(input);
      assert p[|output| + start..|output| + n] == input[start..n];
      assert IsSegment(p, |output| + start, |output| + n);
      assert (output + input[..n]) + input[n..] == p;
      RemoveDotsIdentity(input[n..], output + input[..n]);
    }
  }

  lemma RemoveDotsIdempotent(p: string)
    ensures RemoveDots(RemoveDots(p, ""), "") == RemoveDots(p, "")
  {
    SingleSegment("");
    RemoveDotsClean(p, "");
    var r := RemoveDots(p, "");
    assert "" + r == r;
    RemoveDotsIdentity(r, "");
  }

  lemma {:induction false} RemoveDotsNoLonger(input: string, output: string)
    ensures |RemoveDots(input, output)| <= |input| + |output|
    decreases |input|
  {
    DropLastSegmentPrefix(output);
    if input == "" || input == "." || input == ".." {
    } else if StartsWith(input, "../") {
      RemoveDotsNoLonger(input[3..], output);
    } else if StartsWith(input, "./") || StartsWith(input, "/./") {
      RemoveDotsNoLonger(input[2..], output);
    } else if input == "/." {
      RemoveDotsNoLonger("/", output);
    } else if StartsWith(input, "/../") {
      RemoveDotsNoLonger(input[3..], DropLastSegment(output));
    } else if input == "/.." {
      RemoveDotsNoLonger("/", DropLastSegment(output));
    } else {
      var n := FirstSegment(input);
      RemoveDotsNoLonger(input[n..], output + input[..n]);
    }
  }

  lemma {:induction false} RemoveDotsKeeps(input: string, output: string, stops: set<char>)
    requires '/' !in stops
    requires Avoids(input, stops) && Avoids(output, stops)
    ensures Avoids(RemoveDots(input, output), stops)
    decreases |input|
  {
    DropLastSegmentPrefix(output);
    if input == "" || input == "." || input == ".." {
    } else if StartsWith(input, "../") {
      RemoveDotsKeeps(input[3..], output, stops);
    } else if StartsWith(input, "./") {
      RemoveDotsKeeps(input[2..], output, stops);
    } else if StartsWith(input, "/./") {
      RemoveDotsKeeps(input[2..], output, stops);
    } else if input == "/." {
      RemoveDotsKeeps("/", output, stops);
    } else if StartsWith(input, "/../") {
      RemoveDotsKeeps(input[3..], DropLastSegment(output), stops);
    } else if input == "/.." {
      RemoveDotsKeeps("/", DropLastSegment(output), stops);
    } else {
      var n := FirstSegment(input);
      RemoveDotsKeeps(input[n..], output + input[..n], stops);
    }
  }

  /** An absolute path stays absolute. */
  lemma StartsWithAt(s: string, p: string, k: nat)
    requires StartsWith(s, p) && k < |p|
    ensures s[k] == p[k]
  {
    assert s[..|p|][k] == s[k];
  }

  /** Moving a segment to the output keeps both sides absolute. */
  lemma SegmentStaysAbsolute(input: string, output: string, n: nat)
    requires input != "" && input[0] == '/' && n == FirstSegment(input)
    requires output == "" || output[0] == '/'
    ensures 0 < n <= |input|
    ensures input[n..] == "" || input[n..][0] == '/'
    ensures output + input[..n] != "" && (output + input[..n])[0] == '/'
  {
    FirstSegmentShape(input);
    assert input[..n][0] == '/';
  }

  lemma {:induction false} RemoveDotsAbsolute(input: string, output: string)
    requires input != "" && input[0] == '/'
    requires output == "" || output[0] == '/'
    ensures RemoveDots(input, output) != "" && RemoveDots(input, output)[0] == '/'
    decreases |input|
  {
    hide FirstSegment, DropLastSegment;
    DropLastSegmentPrefix(output);
    if StartsWith(input, "/./") {
      StartsWithAt(input, "/./", 2);
      RemoveDotsAbsolute(input[2..], output);
    } else if input == "/." {
      RemoveDotsAbsolute("/", output);
    } else if StartsWith(input, "/../") {
      StartsWithAt(input, "/../", 3);
      RemoveDotsAbsolute(input[3..], DropLastSegment(output));
    } else if input == "/.." {
      RemoveDotsAbsolute("/", DropLastSegment(output));
    } else {
      var n := FirstSegment(input);
      SegmentStaysAbsolute(input, output, n);
      if input[n..] != "" {
        RemoveDotsAbsolute(input[n..], output + input[..n]);
      }
    }
  }

  lemma {:induction false} EscapedParts(a: string, b: string)
    requires Escaped(a + b)
    requires b == "" || b[0] == '/'
    ensures Escaped(a) && Escaped(b)
    decreases |a|
  {
    if a == "" {
      assert a + b == b;
    } else {
      var s := a + b;
      UnescapeSplit(a, b);
      UnescapeConcat(a, b);
      UnescapeNoLonger(a);
      UnescapeNoLonger(b);
      assert Unescape(s).value == Unescape(a).value + Unescape(b).value;
      assert |Unescape(a).value| + |Unescape(b).value| == |a| + |b|;
      assert s[..|a|] == a && s[|a|..] == b;
      assert (Unescape(a).value + Unescape(b).value)[..|a|] == Unescape(a).value;
      assert (Unescape(a).value + Unescape(b).value)[|a|..] == Unescape(b).value;
    }
  }

  lemma SlashIsEscaped()
    ensures Escaped("/")
  {
    var s := "/";
    assert s[HeadLength(s)..] == "" && UnescapeHead(s) + "" == s;
  }

  lemma AfterSlashEscaped(s: string)
    requires Escaped(s) && s != "" && s[0] == '/'
    ensures Escaped(s[1..])
  {
    var rest := s[1..];
    assert HeadLength(s) == 1 && UnescapeHead(s) == "/";
    assert (UnescapeHead(s) + Unescape(rest).value)[1..] == Unescape(rest).value;
  }

  /** Removing dot segments from a percent-normal path leaves it percent-normal. */
  lemma {:induction false} RemoveDotsEscaped(input: string, output: string)
    requires LoopState(input, output)
    requires Escaped(input) && Escaped(output)
    ensures Escaped(RemoveDots(input, output))
    decreases |input|
  {
    hide FirstSegment, DropLastSegment, Unescape;
    DropLastSegmentEscaped(output);
    SlashIsEscaped();
    if input == "" || input == "." || input == ".." {
    } else if StartsWith(input, "../") {
      StartsWithAt(input, "../", 2);
      assert input[..2] + input[2..] == input;
      EscapedParts(input[..2], input[2..]);
      AfterSlashEscaped(input[2..]);
      assert input[2..][1..] == input[3..];
      RemoveDotsEscaped(input[3..], output);
    } else if StartsWith(input, "./") {
      StartsWithAt(input, "./", 1);
      assert input[..1] + input[1..] == input;
      EscapedParts(input[..1], input[1..]);
      AfterSlashEscaped(input[1..]);
      assert input[1..][1..] == input[2..];
      RemoveDotsEscaped(input[2..], output);
    } else if StartsWith(input, "/./") {
      StartsWithAt(input, "/./", 2);
      assert input[..2] + input[2..] == input;
      EscapedParts(input[..2], input[2..]);
      RemoveDotsEscaped(input[2..], output);
    } else if input == "/." {
      RemoveDotsEscaped("/", output);
    } else if StartsWith(input, "/../") {
      StartsWithAt(input, "/../", 3);
      assert input[..3] + input[3..] == input;
      EscapedParts(input[..3], input[3..]);
      RemoveDotsEscaped(input[3..], DropLastSegment(output));
    } else if input == "/.." {
      RemoveDotsEscaped("/", DropLastSegment(output));
    } else {
      var n := FirstSegment(input);
      FirstSegmentShape(input);
      assert input[..n] + input[n..] == input;
      EscapedParts(input[..n], input[n..]);
      UnescapeConcat(output, input[..n]);
      RemoveDotsEscaped(input[n..], output + input[..n]);
    }
  }

  lemma DropLastSegmentEscaped(p: string)
    requires Escaped(p)
    ensures Escaped(DropLastSegment(p))
  {
    DropLastSegmentPrefix(p);
    var d := DropLastSegment(p);
    if d != "" {
      assert d + p[|d|..] == p;
      EscapedParts(d, p[|d|..]);
    }
  }

  /** A normal path is a fixed point of the whole normalisation. */
  lemma NormalPathStable(path: string)
    requires NormalPath(path).Some?
    ensures NormalPath(NormalPath(path).value) == NormalPath(path)
    ensures NoDotSegments(NormalPath(path).value)
  {
    var u := Unescape(path).value;
    var p := RemoveDots(u, "");
    UnescapeIdempotent(path);
    RemoveDotsEscaped(u, "");
    SingleSegment("");
    RemoveDotsClean(u, "");
    RemoveDotsIdempotent(u);
  }

  lemma NormalPathNoLonger(path: string)
    requires NormalPath(path).Some?
    ensures |NormalPath(path).value| <= |path|
  {
    UnescapeNoLonger(path);
    RemoveDotsNoLonger(Unescape(path).value, "");
  }

  lemma NormalPathKeeps(path: string, stops: set<char>)
    requires NormalPath(path).Some?
    requires forall c :: c in stops ==> !IsUnreserved(c) && c != '/'
    requires Avoids(path, stops)
    ensures Avoids(NormalPath(path).value, stops)
  {
    UnescapeKeepsDelimiters(path, stops);
    RemoveDotsKeeps(Unescape(path).value, "", stops);
  }

  lemma NormalPathShape(path: string)
    requires NormalPath(path).Some?
    ensures path == "" ==> NormalPath(path).value == ""
    ensures path != "" && path[0] == '/' ==>
      NormalPath(path).value != "" && NormalPath(path).value[0] == '/'
  {
    var u := Unescape(path).value;
    UnescapeKeepsFirstSlash(path);
    if path != "" && path[0] == '/' {
      RemoveDotsAbsolute(u, "");
    }
  }
}

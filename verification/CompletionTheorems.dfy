/** What completion matching means, over all byte strings. */
module CompletionTheorems {
  import opened Text
  import opened Wrappers
  import opened UriGrammar
  import opened UriTheorems
  import opened UriRoundTrip
  import opened Completion

  lemma CheckedAccepts(s: string)
    ensures Checked(Some(s)).Success? <==>
      && 0 < |s| <= MAX_URI_LENGTH
      && (forall i :: 0 <= i < |s| ==> !IsForbidden(s[i]))
      && Parse(s).Some? && Parse(s).value.userinfo.None?
    ensures Checked(Some(s)).Success? ==> Parse(s) == Some(Checked(Some(s)).value)
  {}

  /** A match is equality of canonical forms of two accepted URIs. */
  lemma MatchIsCanonicalEquality(a: Option<string>, b: Option<string>)
    ensures Matches(a, b) <==> CanonicalForm(a).Some? && CanonicalForm(a) == CanonicalForm(b)
  {
    if Checked(a).Success? && Checked(b).Success? {
      var u, v := Checked(a).value, Checked(b).value;
      LowerDecidesCase(v.scheme, u.scheme);
      if HasHost(u) && HasHost(v) {
        LowerDecidesCase(v.host.value, u.host.value);
      }
    }
  }

  /** On accepted URIs, matching is an equivalence relation. */
  lemma MatchIsEquivalence(a: Option<string>, b: Option<string>, c: Option<string>)
    ensures Checked(a).Success? <==> Matches(a, a)
    ensures Matches(a, b) ==> Matches(b, a)
    ensures Matches(a, b) && Matches(b, c) ==> Matches(a, c)
  {
    MatchIsCanonicalEquality(a, a);
    MatchIsCanonicalEquality(a, b);
    MatchIsCanonicalEquality(b, a);
    MatchIsCanonicalEquality(b, c);
    MatchIsCanonicalEquality(a, c);
  }

  /** Whatever matches a valid completion URI would itself be accepted as one. */
  lemma MatchKeepsValidity(a: Option<string>, b: Option<string>)
    requires Matches(a, b) && CompletionUriIsValid(b)
    ensures CompletionUriIsValid(a)
  {
    var u, v := Checked(a).value, Checked(b).value;
    if HasHost(u) {
      SameStars(v.host.value, u.host.value);
    }
  }

  lemma SameStars(a: string, b: string)
    requires SameIgnoringCase(a, b)
    ensures '*' in a <==> '*' in b
  {
    assert forall i :: 0 <= i < |a| ==> (a[i] == '*' <==> b[i] == '*');
    if '*' in a {
      var i :| 0 <= i < |a| && a[i] == '*';
      assert b[i] == '*';
    }
  }

  // ---------- Query and fragment ----------

  predicate IsSuffixPart(tail: string) {
    tail == "" || tail[0] == '?' || tail[0] == '#'
  }

  /** The query and fragment a suffix carries have no malformed escape. */
  predicate SuffixWellFormed(tail: string) {
    var t := SplitTail(tail);
    OptionalUnescape(t.query).Some? && OptionalUnescape(t.fragment).Some?
  }

  lemma SplitSuffix(path: string, tail: string)
    requires Avoids(path, {'?', '#'}) && IsSuffixPart(tail)
    ensures SplitTail(path + tail) == SplitTail(tail).(path := path)
    ensures SplitTail(tail).path == ""
  {
    var s := path + tail;
    var n := |path|;
    var hash := Span(tail, {'#'});
    SpanIs(s, {'#'}, n + hash);
    var mark := Span(tail[..hash], {'?'});
    assert s[..n + hash] == path + tail[..hash];
    SpanIs(s[..n + hash], {'?'}, n + mark);
    assert s[..n] == path;
    assert hash < |tail| ==> s[n + hash + 1..] == tail[hash + 1..];
    assert mark < hash ==> s[n + mark + 1..n + hash] == tail[mark + 1..hash];
  }

  lemma TailWithSuffix(path: string, tail: string)
    requires Avoids(path, {'?', '#'}) && IsSuffixPart(tail)
    ensures ParseTail(path + tail).Some? <==> ParseTail(path).Some? && SuffixWellFormed(tail)
    ensures ParseTail(path + tail).Some? ==>
      ParseTail(path + tail).value.path == ParseTail(path).value.path
  {
    SplitSuffix(path, tail);
    PathOnly(path);
  }

  lemma AuthorityCutWithSuffix(rest: string, tail: string)
    requires StartsWith(rest, "//")
    requires Avoids(rest, {'?', '#'}) && IsSuffixPart(tail)
    ensures var s := rest + tail; var n := 2 + Span(rest[2..], {'/', '?', '#'});
      && StartsWith(s, "//")
      && 2 + Span(s[2..], {'/', '?', '#'}) == n
      && s[2..n] == rest[2..n]
      && s[n..] == rest[n..] + tail
      && Avoids(rest[n..], {'?', '#'})
  {
    var s := rest + tail;
    var n := Span(rest[2..], {'/', '?', '#'});
    assert s[..2] == rest[..2] && s[2..] == rest[2..] + tail;
    assert n < |rest| - 2 ==> s[2..][n] == rest[2..][n];
    assert n == |rest| - 2 && tail != "" ==> s[2..][n] == tail[0];
    SpanIs(s[2..], {'/', '?', '#'}, n);
    assert s[2..n + 2] == rest[2..n + 2];
    assert s[n + 2..] == rest[n + 2..] + tail;
  }

  lemma SameStart(rest: string, tail: string)
    requires IsSuffixPart(tail)
    ensures StartsWith(rest + tail, "//") <==> StartsWith(rest, "//")
  {
    var s := rest + tail;
    if |rest| >= 2 {
      assert s[..2] == rest[..2];
    } else {
      assert |s| > |rest| ==> s[|rest|] == tail[0];
      assert |s| >= 2 ==> s[..2][|rest|] != '/';
    }
  }

  /** ParseHierarchy on a text with an authority, in terms of its two parts. */
  lemma HierarchyFrom(s: string, auth: string, tail: string, n: nat)
    requires StartsWith(s, "//") && n == 2 + Span(s[2..], {'/', '?', '#'})
    requires s[2..n] == auth && s[n..] == tail
    ensures ParseHierarchy(s) ==
      if ParseAuthority(auth).None? || ParseTail(tail).None? then None
      else Some(Hierarchy(ParseAuthority(auth), ParseTail(tail).value))
  {}

  lemma HierarchyWithSuffix(rest: string, tail: string)
    requires Avoids(rest, {'?', '#'}) && IsSuffixPart(tail)
    ensures ParseHierarchy(rest + tail).Some? <==> ParseHierarchy(rest).Some? && SuffixWellFormed(tail)
    ensures ParseHierarchy(rest + tail).Some? ==>
      && ParseHierarchy(rest + tail).value.authority == ParseHierarchy(rest).value.authority
      && ParseHierarchy(rest + tail).value.tail.path == ParseHierarchy(rest).value.tail.path
  {
    hide ParseTail, ParseAuthority, SuffixWellFormed;
    SameStart(rest, tail);
    if StartsWith(rest, "//") {
      var s, n := rest + tail, 2 + Span(rest[2..], {'/', '?', '#'});
      AuthorityCutWithSuffix(rest, tail);
      var auth, cut := rest[2..n], rest[n..];
      TailWithSuffix(cut, tail);
      HierarchyFrom(rest, auth, cut, n);
      HierarchyFrom(s, auth, cut + tail, n);
    } else {
      TailWithSuffix(rest, tail);
    }
  }

  lemma ColonWithSuffix(core: string, tail: string)
    requires Avoids(core, {'?', '#'}) && IsSuffixPart(tail)
    ensures var s := core + tail; var colon := Span(core, {':'});
      if colon < |core| then
        && Span(s, {':'}) == colon && s[..colon] == core[..colon] && s[colon + 1..] == core[colon + 1..] + tail
      else
        Span(s, {':'}) == |s| || !IsScheme(s[..Span(s, {':'})])
  {
    hide Span;
    var s := core + tail;
    var colon := Span(core, {':'});
    if colon < |core| {
      SpanIs(s, {':'}, colon);
    } else {
      var k := Span(s, {':'});
      assert forall i :: 0 <= i < |core| ==> s[i] == core[i];
      if k < |s| {
        assert s[..k][|core|] == tail[0];
      }
    }
  }

  lemma ParseWithSuffix(core: string, tail: string)
    requires Avoids(core, {'?', '#'}) && IsSuffixPart(tail)
    ensures Parse(core + tail).Some? <==> Parse(core).Some? && SuffixWellFormed(tail)
    ensures Parse(core + tail).Some? ==>
      var u, v := Parse(core).value, Parse(core + tail).value;
      v == u.(query := v.query, fragment := v.fragment)
  {
    hide ParseHierarchy, IsScheme;
    var colon := Span(core, {':'});
    ColonWithSuffix(core, tail);
    if colon < |core| {
      HierarchyWithSuffix(core[colon + 1..], tail);
    }
  }

  /**
    The query and fragment never decide a match: appending them to a URI without
    either keeps the answer exactly when the whole text stays within the length
    bound, has no forbidden character, and its escapes are well formed; otherwise
    nothing matches.
   */
  lemma SuffixNeverDecides(core: string, tail: string, requested: Option<string>)
    requires Avoids(core, {'?', '#'}) && IsSuffixPart(tail)
    ensures Matches(Some(core + tail), requested) <==>
      && Matches(Some(core), requested)
      && |core| + |tail| <= MAX_URI_LENGTH
      && (forall i :: 0 <= i < |tail| ==> !IsForbidden(tail[i]))
      && SuffixWellFormed(tail)
  {
    var s := core + tail;
    ParseWithSuffix(core, tail);
    CheckedAccepts(core);
    CheckedAccepts(s);
    assert (forall i :: 0 <= i < |s| ==> !IsForbidden(s[i])) <==>
      (forall i :: 0 <= i < |core| ==> !IsForbidden(core[i])) && (forall i :: 0 <= i < |tail| ==> !IsForbidden(tail[i])) by {
      assert forall i :: 0 <= i < |core| ==> s[i] == core[i];
      assert forall i :: 0 <= i < |tail| ==> s[|core| + i] == tail[i];
    }
    MatchIsCanonicalEquality(Some(core), requested);
    MatchIsCanonicalEquality(Some(s), requested);
    if core == "" {
      assert Parse(core).None?;
    }
    if Parse(s).Some? {
      assert CanonicalOf(Parse(s).value) == CanonicalOf(Parse(core).value);
    }
  }

  // ---------- Normal forms ----------

  lemma NormalPortNoLonger(s: string, port: Option<nat>)
    requires ParsePort(s) == Some(port)
    ensures port.Some? ==> |Decimal(port.value)| <= |s| && Clean(Decimal(port.value))
  {
    if port.Some? {
      DecimalNoLonger(s);
    }
  }

  lemma NormalHostPortNoLonger(s: string, hp: HostPort)
    requires ParseHostPort(s) == Some(hp)
    ensures |PrintHostPort(hp)| <= |s| && Clean(PrintHostPort(hp))
  {
    hide Decimal, ParsePort;
    var colon := Span(s, {':'});
    NormalPortNoLonger(if colon < |s| then s[colon + 1..] else "", hp.port);
    if hp.port.Some? {
      NoPortInNothing(s, colon, hp.port);
      CleanJoin(hp.host, ":" + Decimal(hp.port.value));
      CleanJoin(":", Decimal(hp.port.value));
    }
  }

  lemma NoPortInNothing(s: string, colon: nat, port: Option<nat>)
    requires colon <= |s| && ParsePort(if colon < |s| then s[colon + 1..] else "") == Some(port) && port.Some?
    ensures colon < |s|
  {}

  lemma NormalAuthorityNoLonger(s: string, a: Authority)
    requires ParseAuthority(s) == Some(a) && a.userinfo.None?
    ensures |PrintAuthority(a)| <= |s|
    ensures Clean(PrintAuthority(a))
  {
    hide ParseHostPort, PrintHostPort;
    var hp := HostPort(a.host, a.port);
    NormalHostPortNoLonger(s, hp);
    assert "" + PrintHostPort(hp) == PrintHostPort(hp);
  }

  predicate Clean(s: string) { forall i :: 0 <= i < |s| ==> !IsForbidden(s[i]) }

  /** The forbidden characters, as a set. */
  function ForbiddenSet(): set<char> {
    set c: char | IsForbidden(c)
  }

  lemma ForbiddenSetIs()
    ensures forall c :: c in ForbiddenSet() <==> IsForbidden(c)
  {}

  lemma UnescapeKeepsClean(s: string)
    requires Unescape(s).Some? && Clean(s)
    ensures Clean(Unescape(s).value)
  {
    ForbiddenSetIs();
    UnescapeKeepsDelimiters(s, ForbiddenSet());
  }

  lemma NormalTailNoLonger(s: string, t: Tail)
    requires ParseTail(s) == Some(t)
    ensures |PrintTail(t)| <= |s|
    ensures Clean(s) ==> Clean(PrintTail(t))
  {
    var raw := SplitTail(s);
    NormalPathNoLonger(raw.path);
    if raw.query.Some? { UnescapeNoLonger(raw.query.value); }
    if raw.fragment.Some? { UnescapeNoLonger(raw.fragment.value); }
    if Clean(s) {
      ForbiddenSetIs();
      NormalPathKeeps(raw.path, ForbiddenSet());
      if raw.query.Some? { UnescapeKeepsClean(raw.query.value); }
      if raw.fragment.Some? { UnescapeKeepsClean(raw.fragment.value); }
    }
  }

  lemma NormalHierarchyNoLonger(s: string, h: Hierarchy)
    requires ParseHierarchy(s) == Some(h)
    requires h.authority.Some? ==> h.authority.value.userinfo.None?
    ensures |PrintHierarchy(h)| <= |s|
    ensures Clean(s) ==> Clean(PrintHierarchy(h))
  {
    if StartsWith(s, "//") {
      var n := 2 + Span(s[2..], {'/', '?', '#'});
      NormalAuthorityNoLonger(s[2..n], h.authority.value);
      NormalTailNoLonger(s[n..], h.tail);
      CleanJoin("//" + PrintAuthority(h.authority.value), PrintTail(h.tail));
      CleanJoin("//", PrintAuthority(h.authority.value));
      CleanParts(s, n);
    } else {
      NormalTailNoLonger(s, h.tail);
      assert "" + PrintTail(h.tail) == PrintTail(h.tail);
    }
  }

  lemma CleanJoin(a: string, b: string)
    ensures Clean(a + b) <==> Clean(a) && Clean(b)
  {
    assert forall i :: 0 <= i < |a| ==> (a + b)[i] == a[i];
    assert forall i :: 0 <= i < |b| ==> (a + b)[|a| + i] == b[i];
  }

  lemma CleanParts(s: string, n: nat)
    requires 2 <= n <= |s|
    ensures Clean(s) ==> Clean(s[2..n]) && Clean(s[n..])
  {}

  /** The printed normal form passes the length and character checks its source passed. */
  lemma NormalFormAccepted(s: string)
    requires Checked(Some(s)).Success?
    ensures var p := Print(Checked(Some(s)).value); 0 < |p| <= |s| && Clean(p)
  {
    hide PrintHierarchy, Parse, ParseHierarchy, Checked;
    CheckedAccepts(s);
    var u := Checked(Some(s)).value;
    ParsedParts(s, u);
    var colon := Span(s, {':'});
    NormalHierarchyNoLonger(s[colon + 1..], Hierarchy(AuthorityOf(u), TailOf(u)));
  }

  /**
    A navigation matches a request exactly when its printed normal form does -
    for every request - unless it is hostless and its path normalised to one
    that starts with two slashes.
   */
  lemma NormalFormMatchesExactly(s: string)
    requires Checked(Some(s)).Success?
    ensures var u := Checked(Some(s)).value;
      (forall r :: Matches(Some(Print(u)), r) <==> Matches(Some(s), r))
      <==> (u.host.Some? || !StartsWith(u.path, "//"))
  {
    CheckedAccepts(s);
    var u := Checked(Some(s)).value;
    var p := Print(u);
    NormalFormAccepted(s);
    CheckedAccepts(p);
    ReprintExactly(s, u);
    if u.host.Some? || !StartsWith(u.path, "//") {
      forall r
        ensures Matches(Some(p), r) <==> Matches(Some(s), r)
      {
        MatchIsCanonicalEquality(Some(p), r);
        MatchIsCanonicalEquality(Some(s), r);
      }
    } else {
      DoubleSlashReadsAsAuthority(s, u);
      MatchIsCanonicalEquality(Some(s), Some(s));
      MatchIsCanonicalEquality(Some(p), Some(s));
    }
  }

  lemma DoubleSlashReadsAsAuthority(s: string, u: Uri)
    requires Parse(s) == Some(u) && u.host.None? && StartsWith(u.path, "//")
    ensures Parse(Print(u)).Some? ==> CanonicalOf(Parse(Print(u)).value) != CanonicalOf(u)
  {
    hide Parse, ParseHierarchy, NormalTail;
    ParsedIsNormal(s, u);
    if Parse(Print(u)).Some? {
      ReprintedPath(u);
    }
  }

  lemma ReprintedPath(u: Uri)
    requires IsScheme(u.scheme) && u.host.None? && StartsWith(u.path, "//") && Parse(Print(u)).Some?
    ensures |Parse(Print(u)).value.path| < |u.path|
  {
    hide Parse, ParseHierarchy, NormalTail;
    var rest := PrintTail(TailOf(u));
    PrintTailStart(TailOf(u));
    assert PrintHierarchy(Hierarchy(None, TailOf(u))) == "" + rest == rest;
    PrintedScheme(u.scheme, rest);
    ParsedParts(Print(u), Parse(Print(u)).value);
    ReadBackPathIsShorter(TailOf(u));
  }

  /** After the first two slashes, what is read as a path is shorter than the path printed. */
  lemma ReadBackPathIsShorter(t: Tail)
    requires StartsWith(PrintTail(t), "//") && StartsWith(t.path, "//")
    requires ParseHierarchy(PrintTail(t)).Some?
    ensures |ParseHierarchy(PrintTail(t)).value.tail.path| < |t.path|
  {
    hide ParseAuthority, ParseHierarchy, NormalPath, SplitTail;
    var rest := PrintTail(t);
    var n := 2 + Span(rest[2..], {'/', '?', '#'});
    HierarchyFrom(rest, rest[2..n], rest[n..], n);
    assert forall i :: 2 <= i < n ==> rest[i] == rest[2..][i - 2];
    assert |t.path| < |rest| ==> rest[|t.path|] == '?' || rest[|t.path|] == '#';
    ShorterPath(rest, |t.path|, n);
    NormalPathNoLonger(SplitTail(rest[n..]).path);
  }

  lemma ShorterPath(rest: string, m: nat, n: nat)
    requires 2 <= n <= |rest| && 2 <= m <= |rest|
    requires m < |rest| ==> rest[m] == '?' || rest[m] == '#'
    requires forall i :: 2 <= i < n ==> rest[i] !in {'/', '?', '#'}
    ensures |SplitTail(rest[n..]).path| < m
  {
    var s := rest[n..];
    var path := SplitTail(s).path;
    SplitTailShape(s);
    assert path == s[..|path|];
    assert n <= m;
    assert m - n < |path| ==> path[m - n] == rest[m];
  }
}

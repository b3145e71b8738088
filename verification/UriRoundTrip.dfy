/** Printing and parsing URIs are inverse up to normalisation. */
module UriRoundTrip {
  import opened Text
  import opened Wrappers
  import opened UriGrammar
  import opened UriTheorems

  lemma SpanOfPart(a: string, b: string, c: char)
    requires c !in a && (b != "" ==> b[0] == c)
    ensures Span(a + b, {c}) == |a| && (a + b)[..|a|] == a && (b != "" ==> (a + b)[|a| + 1..] == b[1..])
  {
    SpanIs(a + b, {c}, |a|);
  }

  lemma SplitPrintedTail(t: Tail)
    requires Avoids(t.path, {'?', '#'})
    requires t.query.Some? ==> Avoids(t.query.value, {'#'})
    ensures SplitTail(PrintTail(t)) == t
  {
    hide Span;
    var q := if t.query.Some? then "?" + t.query.value else "";
    var f := if t.fragment.Some? then "#" + t.fragment.value else "";
    SpanOfPart(t.path + q, f, '#');
    SpanOfPart(t.path, q, '?');
    assert f != "" ==> f[1..] == t.fragment.value;
    assert q != "" ==> q[1..] == t.query.value;
    assert (t.path + q + f)[..|t.path|] == t.path;
    assert q != "" ==> (t.path + q + f)[|t.path| + 1..|t.path + q|] == (t.path + q)[|t.path| + 1..];
  }

  lemma ParsePrintedPort(n: nat)
    requires n <= 65535
    ensures ParsePort(Decimal(n)) == Some(Some(n))
  {
    DecimalRoundTrip(n);
  }

  lemma ParsePrintedHostPort(hp: HostPort)
    requires IsHost(hp.host) && (hp.port.Some? ==> hp.port.value <= 65535)
    ensures ParseHostPort(PrintHostPort(hp)) == Some(hp)
    ensures Avoids(PrintHostPort(hp), {'/', '?', '#', '@'})
  {
    var s := PrintHostPort(hp);
    SpanIs(s, {':'}, |hp.host|);
    assert s[..|hp.host|] == hp.host;
    if hp.port.Some? {
      assert s[|hp.host| + 1..] == Decimal(hp.port.value);
      ParsePrintedPort(hp.port.value);
    }
  }

  lemma ParsePrintedAuthority(a: Authority)
    requires WellFormedAuthority(a)
    ensures ParseAuthority(PrintAuthority(a)) == Some(a)
    ensures Avoids(PrintAuthority(a), {'/', '?', '#'})
  {
    hide PrintHostPort, ParseHostPort;
    var hp := HostPort(a.host, a.port);
    var t := PrintHostPort(hp);
    ParsePrintedHostPort(hp);
    var s := PrintAuthority(a);
    if a.userinfo.Some? {
      var n := |a.userinfo.value|;
      assert s == a.userinfo.value + "@" + t;
      SpanIs(s, {'@'}, n);
      assert s[..n] == a.userinfo.value && s[n + 1..] == t;
    } else {
      assert s == t;
      SpanIs(s, {'@'}, |s|);
    }
  }

  lemma SchemeAvoidsColon(scheme: string)
    requires IsScheme(scheme)
    ensures Avoids(scheme, {':', '/', '?', '#'})
    ensures IsScheme(Lower(scheme))
  {}

  lemma PrintedScheme(scheme: string, rest: string)
    requires IsScheme(scheme)
    ensures var s := scheme + ":" + rest;
      Span(s, {':'}) == |scheme| && s[..|scheme|] == scheme && s[|scheme| + 1..] == rest
  {
    var s := scheme + ":" + rest;
    SchemeAvoidsColon(scheme);
    SpanIs(s, {':'}, |scheme|);
  }

  lemma PrintTailStart(t: Tail)
    ensures PrintTail(t) == "" || t.path != "" || PrintTail(t)[0] == '?' || PrintTail(t)[0] == '#'
    ensures t.path != "" ==> PrintTail(t) != "" && PrintTail(t)[0] == t.path[0]
    ensures StartsWith(PrintTail(t), "//") <==> StartsWith(t.path, "//")
  {
    var s := PrintTail(t);
    if StartsWith(s, "//") {
      assert s[..2][0] == '/' && s[..2][1] == '/';
      assert |t.path| >= 2;
      assert t.path[..2] == s[..2];
    }
    if StartsWith(t.path, "//") {
      assert s[..2] == t.path[..2];
    }
  }

  lemma CutAuthority(auth: string, tail: string)
    requires Avoids(auth, {'/', '?', '#'})
    requires tail == "" || tail[0] in {'/', '?', '#'}
    ensures var rest := "//" + auth + tail;
      && StartsWith(rest, "//")
      && Span(rest[2..], {'/', '?', '#'}) == |auth|
      && rest[2..2 + |auth|] == auth
      && rest[2 + |auth|..] == tail
  {
    var rest := "//" + auth + tail;
    assert rest[..2] == "//" && rest[2..] == auth + tail;
    SpanIs(auth + tail, {'/', '?', '#'}, |auth|);
  }

  lemma ParsePrintedHierarchy(h: Hierarchy)
    requires h.authority.Some? ==> WellFormedAuthority(h.authority.value)
    requires WellFormedTail(h.tail)
    requires if h.authority.Some? then h.tail.path == "" || h.tail.path[0] == '/' else !StartsWith(h.tail.path, "//")
    ensures ParseHierarchy(PrintHierarchy(h)) == Some(Hierarchy(h.authority, NormalTail(h.tail).value))
  {
    var tail := PrintTail(h.tail);
    PrintTailStart(h.tail);
    ParsePrintedTail(h.tail);
    if h.authority.Some? {
      var auth := PrintAuthority(h.authority.value);
      assert PrintHierarchy(h) == "//" + auth + tail;
      ParsePrintedAuthority(h.authority.value);
      CutAuthority(auth, tail);
    } else {
      assert PrintHierarchy(h) == tail;
    }
  }

  lemma ParsePrintedTail(t: Tail)
    requires WellFormedTail(t)
    ensures ParseTail(PrintTail(t)) == NormalTail(t)
  {
    SplitPrintedTail(t);
  }

  /** Parsing a printed URI yields its normal form: nothing is lost, moved or reinterpreted. */
  lemma ParsePrinted(u: Uri)
    requires WellFormed(u)
    ensures Parse(Print(u)) == Some(Normalised(u))
  {
    var h := Hierarchy(AuthorityOf(u), TailOf(u));
    ParsePrintedHierarchy(h);
    PrintedScheme(u.scheme, PrintHierarchy(h));
  }

  lemma PartsOfMade(scheme: string, h: Hierarchy)
    ensures var u := MakeUri(scheme, h);
      && Hierarchy(AuthorityOf(u), TailOf(u)) == h && u.scheme == scheme
      && (u.host.None? ==> u.userinfo.None? && u.port.None?)
  {}

  lemma ParsedScheme(s: string, colon: nat)
    requires Parse(s).Some? && colon == Span(s, {':'})
    ensures colon < |s| && IsScheme(s[..colon]) && ParseHierarchy(s[colon + 1..]).Some?
    ensures Parse(s).value == MakeUri(Lower(s[..colon]), ParseHierarchy(s[colon + 1..]).value)
  {
    hide ParseHierarchy, IsScheme, Span, Lower, MakeUri;
  }

  /** The parts a URI was parsed from. */
  lemma ParsedParts(s: string, u: Uri)
    requires Parse(s) == Some(u)
    ensures var colon := Span(s, {':'});
      && colon < |s| && IsScheme(s[..colon]) && u.scheme == Lower(s[..colon])
      && ParseHierarchy(s[colon + 1..]) == Some(Hierarchy(AuthorityOf(u), TailOf(u)))
      && (u.host.None? ==> u.userinfo.None? && u.port.None?)
  {
    hide *;
    var colon := Span(s, {':'});
    ParsedScheme(s, colon);
    PartsOfMade(Lower(s[..colon]), ParseHierarchy(s[colon + 1..]).value);
  }

  /** What every parsed URI looks like; only the hostless "//" path can fail to be printable. */
  lemma ParsedIsNormal(s: string, u: Uri)
    requires Parse(s) == Some(u)
    ensures u.host.Some? || !StartsWith(u.path, "//") ==> WellFormed(u) && Normalised(u) == u
    ensures u.host.None? ==> u.userinfo.None? && u.port.None?
    ensures IsScheme(u.scheme) && Lower(u.scheme) == u.scheme
    ensures NoDotSegments(u.path) && NormalPath(u.path) == Some(u.path)
  {
    hide Parse, ParseHierarchy;
    ParsedParts(s, u);
    var colon := Span(s, {':'});
    SchemeAvoidsColon(s[..colon]);
    LowerIdempotent(s[..colon]);
    ParsedHierarchy(s[colon + 1..], Hierarchy(AuthorityOf(u), TailOf(u)));
  }

  lemma ParsedHierarchy(rest: string, h: Hierarchy)
    requires ParseHierarchy(rest) == Some(h)
    ensures h.authority.Some? ==> WellFormedAuthority(h.authority.value) && (h.tail.path == "" || h.tail.path[0] == '/')
    ensures WellFormedTail(h.tail) && NormalTail(h.tail) == Some(h.tail) && NoDotSegments(h.tail.path)
  {
    if StartsWith(rest, "//") {
      var n := 2 + Span(rest[2..], {'/', '?', '#'});
      assert n < |rest| ==> rest[n] == rest[2..][n - 2];
      ParsedTail(rest[n..], h.tail);
      ParsedAuthority(rest[2..n], h.authority.value);
    } else {
      ParsedTail(rest, h.tail);
    }
  }

  lemma ParsedAuthority(s: string, a: Authority)
    requires ParseAuthority(s) == Some(a)
    requires Avoids(s, {'/', '?', '#'})
    ensures WellFormedAuthority(a)
  {
    var at := Span(s, {'@'});
    if at < |s| {
      assert Avoids(s[..at], {'/', '?', '#', '@'});
    }
  }

  lemma ParsedTail(s: string, t: Tail)
    requires ParseTail(s) == Some(t)
    ensures WellFormedTail(t) && NormalTail(t) == Some(t)
    ensures NoDotSegments(t.path)
    ensures s == "" || s[0] in {'/', '?', '#'} ==> t.path == "" || t.path[0] == '/'
  {
    var raw := SplitTail(s);
    SplitTailShape(s);
    NormalPathStable(raw.path);
    NormalPathShape(raw.path);
    NormalPathKeeps(raw.path, {'?', '#'});
    if raw.query.Some? {
      UnescapeIdempotent(raw.query.value);
      UnescapeKeepsDelimiters(raw.query.value, {'#'});
    }
    if raw.fragment.Some? {
      UnescapeIdempotent(raw.fragment.value);
    }
  }

  lemma SplitTailShape(s: string)
    ensures var t := SplitTail(s);
      && Avoids(t.path, {'?', '#'})
      && (t.query.Some? ==> Avoids(t.query.value, {'#'}))
      && (t.path != "" ==> s != "" && t.path[0] == s[0])
      && (s != "" && s[0] == '/' ==> t.path != "")
  {}

  /**
    Re-printing the normal form of a URI and parsing it again gives the same URI,
    except for a hostless URI whose path normalised to one that starts with two
    slashes: the printed text then names an authority.
   */
  lemma ReprintExactly(s: string, u: Uri)
    requires Parse(s) == Some(u)
    ensures Parse(Print(u)) == Some(u) <==> u.host.Some? || !StartsWith(u.path, "//")
  {
    hide WellFormed, Parse, Print;
    ParsedIsNormal(s, u);
    if u.host.Some? || !StartsWith(u.path, "//") {
      ParsePrinted(u);
    } else {
      ReprintGainsAuthority(u);
    }
  }

  /** Printed without an authority, two leading slashes are read as one. */
  lemma ReprintGainsAuthority(u: Uri)
    requires IsScheme(u.scheme) && u.host.None? && StartsWith(u.path, "//")
    ensures Parse(Print(u)).Some? ==> Parse(Print(u)).value.host.Some?
  {
    hide ParseTail, ParseAuthority;
    var tail := PrintTail(TailOf(u));
    PrintTailStart(TailOf(u));
    assert PrintHierarchy(Hierarchy(None, TailOf(u))) == tail;
    PrintedScheme(u.scheme, tail);
  }

  function Climbing(last: string): string { "/.." + ("//" + last) }

  /** Such URIs exist: for plain names, "x:/name/..//last" normalises to the path "//last". */
  lemma ReprintCanFail(scheme: string, name: string, last: string)
    requires IsScheme(scheme)
    requires Avoids(name, {'/', '?', '#', '%'}) && !IsDot(name) && name != ""
    requires Avoids(last, {'/', '?', '#', '%'}) && !IsDot(last)
    ensures var s := scheme + ":" + ("/" + name + Climbing(last));
      && Parse(s).Some?
      && Parse(s).value.path == "//" + last
      && Parse(Print(Parse(s).value)) != Parse(s)
  {
    var path := "/" + name + Climbing(last);
    var s := scheme + ":" + path;
    PrintedScheme(scheme, path);
    ClimbingTail(name, last);
    NotDoubleSlash(name, Climbing(last));
    assert ParseHierarchy(path) == Some(Hierarchy(None, Tail("//" + last, None, None)));
    var u := Parse(s).value;
    assert u.path[..2] == "//";
    ReprintExactly(s, u);
  }

  lemma ClimbingTail(name: string, last: string)
    requires Avoids(name, {'/', '?', '#', '%'}) && !IsDot(name)
    requires Avoids(last, {'/', '?', '#', '%'}) && !IsDot(last)
    ensures ParseTail("/" + name + Climbing(last)) == Some(Tail("//" + last, None, None))
  {
    var path := "/" + name + Climbing(last);
    PlainIsEscaped(path);
    ClimbToDoubleSlash(name, last);
    PathOnly(path);
  }

  lemma PathOnly(path: string)
    requires Avoids(path, {'?', '#'})
    ensures SplitTail(path) == Tail(path, None, None)
  {
    SpanIs(path, {'#'}, |path|);
    assert path[..|path|] == path;
    SpanIs(path, {'?'}, |path|);
  }

  lemma NotDoubleSlash(name: string, rest: string)
    requires name != "" && name[0] != '/'
    ensures !StartsWith("/" + name + rest, "//")
  {
    var s := "/" + name + rest;
    assert s[1] == name[0];
    assert s[..2][1] == s[1];
  }

  lemma {:induction false} PlainIsEscaped(s: string)
    requires Avoids(s, {'%'})
    ensures Escaped(s)
  {
    if s != "" {
      PlainIsEscaped(s[1..]);
      assert [s[0]] + s[1..] == s;
    }
  }

  lemma ClimbToDoubleSlash(name: string, last: string)
    requires Avoids(name, {'/'}) && !IsDot(name)
    requires Avoids(last, {'/'}) && !IsDot(last)
    ensures RemoveDots("/" + name + Climbing(last), "") == "//" + last
  {
    KeepSegment(name, Climbing(last), "");
    EmptyPrefix("/", name);
    ClimbOnce(name, "//" + last);
    KeepTwo(last);
  }

  lemma EmptyPrefix(a: string, b: string)
    ensures "" + a + b == a + b
  {}

  lemma ClimbOnce(name: string, rest: string)
    requires Avoids(name, {'/'})
    requires rest != "" && rest[0] == '/'
    ensures RemoveDots("/.." + rest, "/" + name) == RemoveDots(rest, "")
  {
    var s := "/.." + rest;
    assert s[..4] == "/../" && s[3..] == rest;
    assert s[0] == '/' && s[1] == '.' && s[2] == '.';
    assert s[..3][2] == '.' && s[..2][0] == '/';
    DropWholeName(name);
  }

  lemma {:induction false} DropWholeName(name: string)
    requires Avoids(name, {'/'})
    ensures DropLastSegment("/" + name) == ""
    decreases |name|
  {
    var s := "/" + name;
    if name == "" {
      assert s[..|s| - 1] == "";
    } else {
      assert s[..|s| - 1] == "/" + name[..|name| - 1];
      DropWholeName(name[..|name| - 1]);
    }
  }

  lemma KeepTwo(last: string)
    requires Avoids(last, {'/'}) && !IsDot(last)
    ensures RemoveDots("//" + last, "") == "//" + last
  {
    var s := "/" + last;
    KeepSegment("", s, "");
    assert "/" + "" + s == "//" + last && "" + "/" + "" == "/";
    KeepSegment(last, "", "/");
    assert "/" + last + "" == s && "/" + "/" + last == "//" + last;
  }

  /** Rule E on an absolute input whose first segment is not a dot segment. */
  lemma KeepSegment(seg: string, rest: string, output: string)
    requires Avoids(seg, {'/'}) && !IsDot(seg)
    requires rest == "" || rest[0] == '/'
    ensures RemoveDots("/" + seg + rest, output) == RemoveDots(rest, output + "/" + seg)
  {
    var s := "/" + seg + rest;
    var n := 1 + |seg|;
    SegmentCut(seg, rest);
    FirstSegmentIsNoDot(s);
    hide FirstSegment, Span;
    assert output + s[..n] == output + "/" + seg;
  }

  lemma SegmentCut(seg: string, rest: string)
    requires Avoids(seg, {'/'})
    requires rest == "" || rest[0] == '/'
    ensures var s := "/" + seg + rest; var n := 1 + |seg|;
      s[0] == '/' && FirstSegment(s) == n && s[1..n] == seg && s[n..] == rest && s[..n] == "/" + seg
  {
    var s := "/" + seg + rest;
    assert s[1..] == seg + rest;
    SpanIs(s[1..], {'/'}, |seg|);
  }

  // ---------- Spellings that mean the same path ----------

  lemma {:induction false} OneEscape(h: char, l: char)
    requires IsHex(h) && IsHex(l)
    ensures var c := (HexValue(h) * 16 + HexValue(l)) as char;
      Unescape(['%', h, l]) == Some(if IsUnreserved(c) then [c] else ['%', ToUpperHex(h), ToUpperHex(l)])
  {
    var s := ['%', h, l];
    assert s[HeadLength(s)..] == "";
    assert UnescapeHead(s) + "" == UnescapeHead(s);
  }

  lemma OneCharacter(c: char)
    requires c != '%'
    ensures Unescape([c]) == Some([c])
  {
    var s := [c];
    assert s[HeadLength(s)..] == "" && UnescapeHead(s) == s && s + "" == s;
  }

  /** An unreserved character and its escape, in either case of hex digits, spell the same path anywhere. */
  lemma EscapesSpellTheSame(a: string, h: char, l: char, b: string)
    requires Unescape(a).Some? && Unescape(b).Some? && IsHex(h) && IsHex(l)
    ensures var c := (HexValue(h) * 16 + HexValue(l)) as char;
      && (IsUnreserved(c) ==> NormalPath(a + ['%', h, l] + b) == NormalPath(a + [c] + b))
      && NormalPath(a + ['%', h, l] + b) == NormalPath(a + ['%', ToUpperHex(h), ToUpperHex(l)] + b)
  {
    hide Unescape, RemoveDots;
    var c := (HexValue(h) * 16 + HexValue(l)) as char;
    OneEscape(h, l);
    OneEscape(ToUpperHex(h), ToUpperHex(l));
    UnescapeConcat(a, ['%', h, l]);
    UnescapeConcat(a + ['%', h, l], b);
    UnescapeConcat(a, ['%', ToUpperHex(h), ToUpperHex(l)]);
    UnescapeConcat(a + ['%', ToUpperHex(h), ToUpperHex(l)], b);
    if IsUnreserved(c) {
      OneCharacter(c);
      UnescapeConcat(a, [c]);
      UnescapeConcat(a + [c], b);
    }
  }

  /** A segment and the parent reference after it vanish together. */
  lemma ParentVanishes(name: string, rest: string)
    requires Avoids(name, {'/'}) && !IsDot(name)
    requires rest != "" && rest[0] == '/'
    ensures RemoveDots("/" + name + ("/.." + rest), "") == RemoveDots(rest, "")
  {
    hide RemoveDots;
    KeepSegment(name, "/.." + rest, "");
    ClimbOnce(name, rest);
    assert "" + "/" + name == "/" + name;
  }
}

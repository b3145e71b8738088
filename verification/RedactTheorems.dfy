/** What redaction promises: no marker, no forged field, and nothing of what it hides. */
module RedactTheorems {
  import opened Text
  import opened Wrappers
  import opened Utf8
  import opened Redact
  import UriGrammar
  import UriRoundTrip
  import CompletionTheorems

  predicate Contains(s: string, mark: string) {
    exists i :: 0 <= i <= |s| && StartsWith(s[i..], mark)
  }

  /** A mark of ASCII characters that sanitise neither writes nor replaces a character by. */
  predicate IsMark(mark: string) {
    mark != "" && forall i :: 0 <= i < |mark| ==> (mark[i] as int) < 0x80 && mark[i] != '?' && mark[i] != '_' && !IsSpace(mark[i])
  }

  lemma MarksAreMarks()
    ensures IsMark(SCHEME_MARK) && IsMark(PKCS11_MARK)
  {}

  /** A piece that starts with a mark's character is that one character of the input. */
  lemma PieceStart(s: string, format: int -> bool, c: char)
    requires s != "" && (c as int) < 0x80 && c != '?' && c != '_'
    ensures Piece(s, format).0[0] == c ==> Piece(s, format) == ([c], 1) && s[0] == c
    ensures forall j :: 0 < j < |Piece(s, format).0| ==> Piece(s, format).0[j] != c
  {
    if Decode(s).Some? {
      assert s[..1] == [s[0]];
      forall j | 0 < j < Decode(s).value.length
        ensures (s[j] as int) >= 0x80 && (s[0] as int) >= 0x80
      {
        TailsAreNotAscii(s, j);
      }
    }
  }

  /** What starts with a mark after sanitising started with it before. */
  lemma {:induction false} MarkWasThere(s: string, used: nat, format: int -> bool, mark: string)
    requires IsMark(mark) && StartsWith(Sanitised(s, used, format), mark)
    ensures StartsWith(s, mark)
    decreases |mark|
  {
    hide Decode, Piece, IsMasked;
    var r := Sanitised(s, used, format);
    var (piece, taken) := Piece(s, format);
    PieceStart(s, format, mark[0]);
    assert r[0] == mark[0] by { assert r[..|mark|][0] == r[0]; }
    var rest := Sanitised(s[1..], used + 1, format);
    assert r == [mark[0]] + rest;
    if |mark| > 1 {
      assert rest[..|mark| - 1] == r[..|mark|][1..] == mark[1..];
      MarkWasThere(s[1..], used + 1, format, mark[1..]);
    }
    assert s == [s[0]] + s[1..] && mark == [mark[0]] + mark[1..];
  }

  lemma {:induction false} ContainedBefore(s: string, used: nat, format: int -> bool, mark: string, i: nat)
    requires IsMark(mark)
    requires i <= |Sanitised(s, used, format)| && StartsWith(Sanitised(s, used, format)[i..], mark)
    ensures Contains(s, mark)
    decreases |s|
  {
    hide Decode, Piece, IsMasked;
    var r := Sanitised(s, used, format);
    assert r[i..][..|mark|][0] == r[i];
    if i == 0 {
      assert r[0..] == r;
      MarkWasThere(s, used, format, mark);
      assert s[0..] == s;
    } else {
      var (piece, taken) := Piece(s, format);
      PieceStart(s, format, mark[0]);
      var rest := Sanitised(s[taken..], used + |piece|, format);
      assert i >= |piece| && r[i..] == rest[i - |piece|..];
      ContainedBefore(s[taken..], used + |piece|, format, mark, i - |piece|);
      var k :| 0 <= k <= |s[taken..]| && StartsWith(s[taken..][k..], mark);
      assert s[taken + k..] == s[taken..][k..];
    }
  }

  lemma DashIsNoMark(mark: string)
    requires mark != "" && Contains("-", mark)
    ensures mark == "-"
  {
    var i :| 0 <= i <= 1 && StartsWith("-"[i..], mark);
    assert mark == "-"[i..][..|mark|];
  }

  lemma SanitiseAddsNoMark(value: string, format: int -> bool, mark: string)
    requires IsMark(mark) && mark != "-" && Contains(Sanitise(Some(value), format), mark)
    ensures Contains(value, mark)
  {
    if Sanitised(value, 0, format) == "" {
      DashIsNoMark(mark);
    } else {
      var r := Sanitised(value, 0, format);
      var i :| 0 <= i <= |r| && StartsWith(r[i..], mark);
      ContainedBefore(value, 0, format, mark, i);
    }
  }

  lemma CutRemovesMark(s: string, n: nat, mark: string)
    requires n <= |s| && mark != ""
    ensures Contains(s[..n], mark) ==> Find(s, mark) < n
  {
    if Contains(s[..n], mark) {
      var i :| 0 <= i <= n && StartsWith(s[..n][i..], mark);
      assert s[i..][..|mark|] == s[..n][i..][..|mark|];
      assert StartsWith(s[i..], mark);
    }
  }

  lemma SuffixAddsNoMark(r: string, mark: string)
    requires mark != "" && mark[|mark| - 1] !in ELIDED
    ensures Contains(r + ELIDED, mark) ==> Contains(r, mark)
  {
    var t, m := r + ELIDED, |mark|;
    if Contains(t, mark) {
      var i :| 0 <= i <= |t| && StartsWith(t[i..], mark);
      assert t[i..][..m][m - 1] == t[i + m - 1];
      assert forall j :: |r| <= j < |t| ==> t[j] == ELIDED[j - |r|];
      assert r[i..][..m] == t[i..][..m];
      assert StartsWith(r[i..], mark);
    }
  }

  /** The part of a message that is logged. */
  function LoggedHead(s: string): (n: nat)
    ensures n <= |s| && n <= FirstMark(s)
  {
    if FirstMark(s) == |s| then |s| else TokenStart(s, FirstMark(s))
  }

  lemma ErrorTextIs(s: string, format: int -> bool)
    ensures ErrorText(Some(s), format) ==
      Sanitise(Some(s[..LoggedHead(s)]), format) + if FirstMark(s) == |s| then "" else ELIDED
  {
    assert s[..|s|] == s;
  }

  /** The redacted text of any message names no URI and no PKCS#11 object, and is at most 143 bytes. */
  lemma ErrorTextHasNoUri(message: Option<string>, format: int -> bool)
    requires KeepsMarks(format)
    ensures var text := ErrorText(message, format);
      && !Contains(text, "://") && !Contains(text, "pkcs11:")
      && 1 <= |text| <= 143
      && ' ' !in text
  {
    hide Sanitise, Find, Decode;
    MarksAreMarks();
    if message.None? {
      var n: nat := 0;
      NoMarkInDash(SCHEME_MARK);
      NoMarkInDash(PKCS11_MARK);
    } else {
      var s := message.value;
      var n := LoggedHead(s);
      ErrorTextIs(s, format);
      var head := Sanitise(Some(s[..n]), format);
      SanitiseIsClean(Some(s[..n]), format);
      CleanHead(s, n, format, SCHEME_MARK);
      CleanHead(s, n, format, PKCS11_MARK);
      SuffixAddsNoMark(head, SCHEME_MARK);
      SuffixAddsNoMark(head, PKCS11_MARK);
      assert head + "" == head;
    }
  }

  lemma NoMarkInDash(mark: string)
    requires IsMark(mark) && mark != "-"
    ensures !Contains("-", mark)
  {
    if Contains("-", mark) {
      DashIsNoMark(mark);
    }
  }

  lemma CleanHead(s: string, n: nat, format: int -> bool, mark: string)
    requires IsMark(mark) && mark != "-" && n <= |s| && n <= Find(s, mark)
    ensures !Contains(Sanitise(Some(s[..n]), format), mark)
  {
    if Contains(Sanitise(Some(s[..n]), format), mark) {
      SanitiseAddsNoMark(s[..n], format, mark);
      CutRemovesMark(s, n, mark);
    }
  }

  // ---------- Independence ----------

  /** A token: no whitespace in it. */
  predicate IsToken(s: string) { forall i :: 0 <= i < |s| ==> !IsSpace(s[i]) }

  predicate EndsAtSpace(s: string) { s == "" || IsSpace(s[|s| - 1]) }

  predicate HasMark(s: string) { Contains(s, "://") || Contains(s, "pkcs11:") }

  lemma FoundIsContained(s: string, mark: string)
    requires mark != ""
    ensures Find(s, mark) < |s| <==> Contains(s, mark)
  {
    var n := Find(s, mark);
    if n < |s| {
      assert StartsWith(s[n..], mark);
    }
  }

  lemma MarkIsFound(s: string)
    ensures HasMark(s) <==> FirstMark(s) < |s|
  {
    FoundIsContained(s, "://");
    FoundIsContained(s, "pkcs11:");
  }

  /** A message without a mark is shown as sanitising leaves it. */
  lemma PlainMessageIsSanitised(s: string, format: int -> bool)
    requires !HasMark(s)
    ensures ErrorText(Some(s), format) == Sanitise(Some(s), format)
  {
    MarkIsFound(s);
  }

  lemma StaysInHead(head: string, tail: string, mark: string, n: nat)
    requires IsMark(mark) && EndsAtSpace(head) && n < |head| && StartsWith((head + tail)[n..], mark)
    ensures StartsWith(head[n..], mark)
  {
    var s, h, m := head + tail, |head|, |mark|;
    assert forall j :: n <= j < n + m ==> s[j] == s[n..][..m][j - n];
    assert IsSpace(s[h - 1]);
    assert n + m <= h;
    assert head[n..][..m] == s[n..][..m];
  }

  lemma MarkInToken(head: string, token: string, rest: string, mark: string)
    requires IsMark(mark) && EndsAtSpace(head) && Find(head, mark) == |head|
    ensures Find(head + (token + rest), mark) >= |head|
    ensures Find(token, mark) < |token| ==> Find(head + (token + rest), mark) < |head| + |token|
  {
    var n := Find(head + (token + rest), mark);
    if n < |head| {
      StaysInHead(head, token + rest, mark, n);
    }
    if Find(token, mark) < |token| {
      MarkShows(head, token, rest, mark);
    }
  }

  lemma MarkShows(head: string, token: string, rest: string, mark: string)
    requires mark != "" && Find(token, mark) < |token|
    ensures Find(head + (token + rest), mark) < |head| + |token|
  {
    var s, h, k := head + (token + rest), |head|, Find(token, mark);
    assert s[h + k..][..|mark|] == token[k..][..|mark|];
    assert StartsWith(s[h + k..], mark);
  }

  /**
    The rendering of a message with a URI depends only on the text before the
    token that holds it: the token, its secrets and all that follows leave no trace.
   */
  lemma UriLeavesNoTrace(head: string, token: string, rest: string, format: int -> bool)
    requires EndsAtSpace(head) && !HasMark(head)
    requires IsToken(token) && HasMark(token)
    ensures ErrorText(Some(head + (token + rest)), format) == Sanitise(Some(head), format) + "<uri-elided>"
  {
    hide Find, Sanitise, Decode, Contains;
    MarksAreMarks();
    MarkIsFound(head);
    MarkIsFound(token);
    var s := head + (token + rest);
    MarkInToken(head, token, rest, SCHEME_MARK);
    MarkInToken(head, token, rest, PKCS11_MARK);
    var cut := FirstMark(s);
    assert |head| <= cut < |head| + |token|;
    StartsAt(s, cut, |head|);
    assert s[..|head|] == head;
  }

  lemma StartsAt(s: string, cut: nat, n: nat)
    requires n <= cut <= |s|
    requires forall i :: n <= i < cut ==> !IsSpace(s[i])
    requires n > 0 ==> IsSpace(s[n - 1])
    ensures TokenStart(s, cut) == n
  {}

  lemma UrisAreIndistinguishable(head: string, a: string, b: string, restA: string, restB: string, format: int -> bool)
    requires EndsAtSpace(head) && !HasMark(head)
    requires IsToken(a) && HasMark(a) && IsToken(b) && HasMark(b)
    ensures ErrorText(Some(head + (a + restA)), format) == ErrorText(Some(head + (b + restB)), format)
  {
    UriLeavesNoTrace(head, a, restA, format);
    UriLeavesNoTrace(head, b, restB, format);
  }

  /** A URI's shape says nothing of its query and fragment. */
  lemma ShapeHidesSuffix(core: string, tail: string, format: int -> bool)
    requires UriGrammar.Avoids(core, {'?', '#'}) && CompletionTheorems.IsSuffixPart(tail)
    ensures UriShape(Some(core + tail), format) ==
      if UriGrammar.Parse(core).Some? && UriGrammar.Parse(core).value.host.Some? && CompletionTheorems.SuffixWellFormed(tail)
      then UriShape(Some(core), format)
      else "<uri:" + Decimal(|core| + |tail|) + ">"
  {
    CompletionTheorems.ParseWithSuffix(core, tail);
  }

  lemma CutAt(a: string, b: string, c: string, d: string, sep: char)
    requires sep !in a && sep !in c && a + [sep] + b == c + [sep] + d
    ensures a == c && b == d
  {
    var s := a + [sep] + b;
    SpanIs(s, {sep}, |a|);
    SpanIs(s, {sep}, |c|);
    assert s[..|a|] == a && s[|a| + 1..] == b;
    assert s[..|c|] == c && s[|c| + 1..] == d;
  }

  lemma ColonOccurs(s: string)
    ensures Contains(s, ":") <==> ':' in s
  {
    if ':' in s {
      var i :| 0 <= i < |s| && s[i] == ':';
      assert s[i..][..1] == ":";
      assert StartsWith(s[i..], ":");
    }
    if Contains(s, ":") {
      var i :| 0 <= i <= |s| && StartsWith(s[i..], ":");
      assert s[i..][..1][0] == s[i];
    }
  }

  /** What the shape is made of: a scheme and a host without colons, a port without a slash. */
  lemma ShapeParts(text: string, u: UriGrammar.Uri, format: int -> bool)
    requires UriGrammar.Parse(text) == Some(u) && u.host.Some?
    ensures ':' !in u.scheme && ':' !in Sanitise(u.host, format) && '/' !in PortText(u.port)
    ensures UriShape(Some(text), format) ==
      u.scheme + [':'] + ("//" + (Sanitise(u.host, format) + [':'] + (PortText(u.port) + ['/'] + ("[" + Decimal(|u.path|) + "]"))))
  {
    hide Sanitise, UriGrammar.Parse, UriGrammar.NormalTail;
    UriRoundTrip.ParsedIsNormal(text, u);
    ColonOccurs(u.host.value);
    ColonOccurs(Sanitise(u.host, format));
    if Contains(Sanitise(u.host, format), ":") {
      SanitiseAddsNoMark(u.host.value, format, ":");
    }
    ShapeGroups(u.scheme, Sanitise(u.host, format), PortText(u.port), Decimal(|u.path|));
  }

  lemma ShapeGroups(scheme: string, host: string, port: string, length: string)
    ensures scheme + "://" + host + ":" + port + "/[" + length + "]" ==
      scheme + [':'] + ("//" + (host + [':'] + (port + ['/'] + ("[" + length + "]"))))
  {
    assert "://" == [':'] + "//" && "/[" == ['/'] + "[";
  }

  lemma PortTextTells(p: Option<nat>, q: Option<nat>)
    requires PortText(p) == PortText(q)
    ensures p == q
  {
    if p.Some? { DecimalRoundTrip(p.value); }
    if q.Some? { DecimalRoundTrip(q.value); }
    assert !IsDigit("-1"[0]);
  }

  /** The shape shows the scheme, the sanitised host, the port and the length of the path, and nothing else. */
  lemma ShapeShowsExactly(a: string, u: UriGrammar.Uri, b: string, v: UriGrammar.Uri, format: int -> bool)
    requires UriGrammar.Parse(a) == Some(u) && u.host.Some?
    requires UriGrammar.Parse(b) == Some(v) && v.host.Some?
    ensures UriShape(Some(a), format) == UriShape(Some(b), format) <==>
      && u.scheme == v.scheme && Sanitise(u.host, format) == Sanitise(v.host, format)
      && u.port == v.port && |u.path| == |v.path|
  {
    hide Sanitise, UriGrammar.Parse, UriShape, PortText, Decimal;
    ShapeParts(a, u, format);
    ShapeParts(b, v, format);
    if UriShape(Some(a), format) == UriShape(Some(b), format) {
      var h, k := Sanitise(u.host, format), Sanitise(v.host, format);
      var m, n := "[" + Decimal(|u.path|) + "]", "[" + Decimal(|v.path|) + "]";
      var x, y := h + [':'] + (PortText(u.port) + ['/'] + m), k + [':'] + (PortText(v.port) + ['/'] + n);
      CutAt(u.scheme, "//" + x, v.scheme, "//" + y, ':');
      assert x == ("//" + x)[2..] == ("//" + y)[2..] == y;
      CutAt(h, PortText(u.port) + ['/'] + m, k, PortText(v.port) + ['/'] + n, ':');
      CutAt(PortText(u.port), m, PortText(v.port), n, '/');
      PortTextTells(u.port, v.port);
      assert Decimal(|u.path|) == m[1..|m| - 1] == n[1..|n| - 1] == Decimal(|v.path|);
      DecimalRoundTrip(|u.path|);
      DecimalRoundTrip(|v.path|);
    }
  }

  /** Values of these kinds leave at most their length in the log, and secrets not even that. */
  lemma ValuesAreHidden(kind: FieldKind, a: Option<string>, b: Option<string>, format: int -> bool)
    requires kind == UriField || kind == QueryField || kind == CertUriField || kind == SecretField
    ensures Field(kind, a, format) == Field(kind, b, format) <==> kind == SecretField || Length(a) == Length(b)
  {
    DecimalRoundTrip(Length(a));
    DecimalRoundTrip(Length(b));
    if kind != SecretField {
      var open := match kind case UriField => "<uri:" case QueryField => "<query:" case _ => "<cert-uri:";
      var x, y := Field(kind, a, format), Field(kind, b, format);
      assert x[|open|..|x| - 1] == Decimal(Length(a));
      assert y[|open|..|y| - 1] == Decimal(Length(b));
    }
  }

  // ---------- Lines cannot be forged ----------

  lemma FieldHasNoSpace(kind: FieldKind, value: Option<string>, format: int -> bool)
    requires KeepsMarks(format)
    ensures ' ' !in Field(kind, value, format)
  {
    hide Sanitise, Decode, UriShape;
    SanitiseIsClean(value, format);
    ShapeHasNoSpace(value, format);
  }

  lemma SchemeHasNoSpace(value: string, uri: UriGrammar.Uri)
    requires UriGrammar.Parse(value) == Some(uri)
    ensures ' ' !in uri.scheme
  {
    hide UriGrammar.Parse, UriGrammar.ParseHierarchy;
    UriRoundTrip.ParsedParts(value, uri);
  }

  lemma ShapeHasNoSpace(value: Option<string>, format: int -> bool)
    requires KeepsMarks(format)
    ensures ' ' !in UriShape(value, format)
  {
    hide Sanitise, Decode, UriGrammar.Parse;
    if value.Some? && UriGrammar.Parse(value.value).Some? {
      var uri := UriGrammar.Parse(value.value).value;
      SanitiseIsClean(uri.host, format);
      SchemeHasNoSpace(value.value, uri);
    }
  }

  function RenderedAll(args: seq<Argument>, format: int -> bool): seq<string> {
    if args == [] then [] else [Rendered(args[0], format)] + RenderedAll(args[1..], format)
  }

  predicate NamesAreWords(args: seq<Argument>) {
    forall i :: 0 <= i < |args| ==> ' ' !in args[i].name
  }

  /** Every line reads back as its event and exactly its fields, in order: no value can add or split one. */
  lemma {:induction false} LineReadsBack(event: string, args: seq<Argument>, format: int -> bool)
    requires KeepsMarks(format) && ' ' !in event && NamesAreWords(args)
    ensures Split(event + LineTail(args, format), ' ') == [event] + RenderedAll(args, format)
    decreases |args|
  {
    hide Field;
    if args == [] {
      assert event + LineTail(args, format) == event;
      SplitWord(event, ' ');
    } else {
      var first := Rendered(args[0], format);
      FieldHasNoSpace(args[0].kind, args[0].value, format);
      var rest := first + LineTail(args[1..], format);
      assert event + LineTail(args, format) == event + " " + rest;
      SplitFirst(event, ' ', rest);
      LineReadsBack(first, args[1..], format);
    }
  }
}

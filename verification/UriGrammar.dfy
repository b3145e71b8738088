/**
  The URI parser the backend depends on: generic syntax of RFC 3986 section 3,
  with the normalisations of sections 5.2.4 (dot segments) and 6.2.2 (case of the
  scheme, percent escapes).  It stands in for g_uri_parse with
  G_URI_FLAGS_ENCODED; the repository's own checks are in module Completion.
 */
module UriGrammar {
  import opened Text
  import opened Wrappers

  datatype Uri = Uri(
    scheme: string,
    userinfo: Option<string>,
    host: Option<string>,
    port: Option<nat>,
    path: string,
    query: Option<string>,
    fragment: Option<string>)

  // ---------- Characters ----------

  predicate IsHex(c: char) {
    IsDigit(c) || 'A' <= c <= 'F' || 'a' <= c <= 'f'
  }

  function HexValue(c: char): (v: nat)
    requires IsHex(c)
    ensures v < 16
  {
    if IsDigit(c) then c as int - '0' as int
    else if 'A' <= c <= 'F' then c as int - 'A' as int + 10
    else c as int - 'a' as int + 10
  }

  function ToUpperHex(c: char): char {
    if 'a' <= c <= 'f' then (c as int - 32) as char else c
  }

  /** Section 2.3. */
  predicate IsUnreserved(c: char) {
    IsAlpha(c) || IsDigit(c) || c == '-' || c == '.' || c == '_' || c == '~'
  }

  /** Section 2.2. */
  predicate IsSubDelim(c: char) {
    c == '!' || c == '$' || c == '&' || c == '\'' || c == '(' || c == ')' ||
    c == '*' || c == '+' || c == ',' || c == ';' || c == '='
  }

  /** Section 3.1. */
  predicate IsScheme(s: string) {
    s != "" && IsAlpha(s[0]) &&
    forall i :: 0 <= i < |s| ==>
      IsAlpha(s[i]) || IsDigit(s[i]) || s[i] == '+' || s[i] == '-' || s[i] == '.'
  }

  /** Section 3.2.2, registered names without percent escapes. */
  predicate IsHost(s: string) {
    forall i :: 0 <= i < |s| ==> IsUnreserved(s[i]) || IsSubDelim(s[i])
  }

  predicate IsDigits(s: string) {
    forall i :: 0 <= i < |s| ==> IsDigit(s[i])
  }

  predicate Avoids(s: string, stops: set<char>) {
    forall i :: 0 <= i < |s| ==> s[i] !in stops
  }

  // ---------- Percent escapes (section 6.2.2) ----------

  predicate StartsWell(s: string)
    requires s != ""
  {
    s[0] == '%' ==> |s| >= 3 && IsHex(s[1]) && IsHex(s[2])
  }

  function HeadLength(s: string): (n: nat)
    requires s != "" && StartsWell(s)
    ensures 0 < n <= |s|
  {
    if s[0] == '%' then 3 else 1
  }

  /** What the first character or escape of s contributes. */
  function UnescapeHead(s: string): (h: string)
    requires s != "" && StartsWell(s)
    ensures 0 < |h| <= HeadLength(s)
  {
    if s[0] != '%' then [s[0]]
    else
      var c := (HexValue(s[1]) * 16 + HexValue(s[2])) as char;
      if IsUnreserved(c) then [c] else ['%', ToUpperHex(s[1]), ToUpperHex(s[2])]
  }

  /** Decodes escapes of unreserved characters and upper-cases the others; a malformed escape is an error. */
  function Unescape(s: string): Option<string> {
    if s == "" then Some("")
    else if !StartsWell(s) then None
    else
      match Unescape(s[HeadLength(s)..])
      case None => None
      case Some(rest) => Some(UnescapeHead(s) + rest)
  }

  // ---------- Dot segments (section 5.2.4) ----------

  /** The output buffer without its last segment and the slash before it. */
  function DropLastSegment(s: string): string {
    if s == "" then ""
    else if s[|s| - 1] == '/' then s[..|s| - 1]
    else DropLastSegment(s[..|s| - 1])
  }

  /** Length of the first path segment, with its leading slash if it has one. */
  function FirstSegment(s: string): (n: nat)
    requires s != ""
    ensures 0 < n <= |s|
  {
    if s[0] == '/' then 1 + Span(s[1..], {'/'}) else Span(s, {'/'})
  }

  /** The loop of section 5.2.4, rules A to E in order. */
  function RemoveDots(input: string, output: string): string
    decreases |input|
  {
    if input == "" then output
    else if StartsWith(input, "../") then RemoveDots(input[3..], output)
    else if StartsWith(input, "./") then RemoveDots(input[2..], output)
    else if StartsWith(input, "/./") then RemoveDots(input[2..], output)
    else if input == "/." then RemoveDots("/", output)
    else if StartsWith(input, "/../") then RemoveDots(input[3..], DropLastSegment(output))
    else if input == "/.." then RemoveDots("/", DropLastSegment(output))
    else if input == "." || input == ".." then output
    else
      var n := FirstSegment(input);
      RemoveDots(input[n..], output + input[..n])
  }

  function NormalPath(path: string): Option<string> {
    match Unescape(path)
    case None => None
    case Some(p) => Some(RemoveDots(p, ""))
  }

  // ---------- Parsing ----------

  datatype Authority = Authority(userinfo: Option<string>, host: string, port: Option<nat>)

  function ParsePort(s: string): Option<Option<nat>> {
    if s == "" then Some(None)
    else if !IsDigits(s) || DigitsValue(s) > 65535 then None
    else Some(Some(DigitsValue(s)))
  }

  datatype HostPort = HostPort(host: string, port: Option<nat>)

  function ParseHostPort(s: string): Option<HostPort> {
    var colon := Span(s, {':'});
    var port := ParsePort(if colon < |s| then s[colon + 1..] else "");
    if !IsHost(s[..colon]) || port.None? then None else Some(HostPort(s[..colon], port.value))
  }

  /** Section 3.2: [ userinfo "@" ] host [ ":" port ]. */
  function ParseAuthority(s: string): Option<Authority> {
    var at := Span(s, {'@'});
    var userinfo := if at < |s| then Some(s[..at]) else None;
    match ParseHostPort(if at < |s| then s[at + 1..] else s)
    case None => None
    case Some(hp) => Some(Authority(userinfo, hp.host, hp.port))
  }

  datatype Tail = Tail(path: string, query: Option<string>, fragment: Option<string>)

  function OptionalUnescape(s: Option<string>): Option<Option<string>> {
    match s
    case None => Some(None)
    case Some(t) =>
      match Unescape(t)
      case None => None
      case Some(u) => Some(Some(u))
  }

  /** Path, query and fragment as they are written. */
  function SplitTail(s: string): Tail {
    var hash := Span(s, {'#'});
    var fragment := if hash < |s| then Some(s[hash + 1..]) else None;
    var mark := Span(s[..hash], {'?'});
    var query := if mark < hash then Some(s[mark + 1..hash]) else None;
    Tail(s[..mark], query, fragment)
  }

  function NormalTail(t: Tail): Option<Tail> {
    var path := NormalPath(t.path);
    var query := OptionalUnescape(t.query);
    var fragment := OptionalUnescape(t.fragment);
    if path.None? || query.None? || fragment.None? then None
    else Some(Tail(path.value, query.value, fragment.value))
  }

  function ParseTail(s: string): Option<Tail> {
    NormalTail(SplitTail(s))
  }

  datatype Hierarchy = Hierarchy(authority: Option<Authority>, tail: Tail)

  /** What follows the scheme and its colon. */
  function ParseHierarchy(rest: string): Option<Hierarchy> {
    if StartsWith(rest, "//") then
      var n := 2 + Span(rest[2..], {'/', '?', '#'});
      var authority := ParseAuthority(rest[2..n]);
      var tail := ParseTail(rest[n..]);
      if authority.None? || tail.None? then None else Some(Hierarchy(authority, tail.value))
    else
      var tail := ParseTail(rest);
      if tail.None? then None else Some(Hierarchy(None, tail.value))
  }

  function MakeUri(scheme: string, h: Hierarchy): Uri {
    var Tail(path, query, fragment) := h.tail;
    match h.authority
    case None => Uri(scheme, None, None, None, path, query, fragment)
    case Some(a) => Uri(scheme, a.userinfo, Some(a.host), a.port, path, query, fragment)
  }

  /** An absolute URI; relative references have no scheme and are refused. */
  function Parse(s: string): Option<Uri> {
    var colon := Span(s, {':'});
    if colon == |s| || !IsScheme(s[..colon]) then None
    else
      match ParseHierarchy(s[colon + 1..])
      case None => None
      case Some(h) => Some(MakeUri(Lower(s[..colon]), h))
  }

  // ---------- Printing (section 5.3) ----------

  function PrintTail(t: Tail): string {
    t.path
    + (if t.query.Some? then "?" + t.query.value else "")
    + (if t.fragment.Some? then "#" + t.fragment.value else "")
  }

  function PrintHostPort(hp: HostPort): string {
    hp.host + (if hp.port.Some? then ":" + Decimal(hp.port.value) else "")
  }

  function PrintAuthority(a: Authority): string {
    (if a.userinfo.Some? then a.userinfo.value + "@" else "") + PrintHostPort(HostPort(a.host, a.port))
  }

  function TailOf(u: Uri): Tail {
    Tail(u.path, u.query, u.fragment)
  }

  function AuthorityOf(u: Uri): Option<Authority> {
    if u.host.Some? then Some(Authority(u.userinfo, u.host.value, u.port)) else None
  }

  function PrintHierarchy(h: Hierarchy): string {
    (if h.authority.Some? then "//" + PrintAuthority(h.authority.value) else "") + PrintTail(h.tail)
  }

  function Print(u: Uri): string {
    u.scheme + ":" + PrintHierarchy(Hierarchy(AuthorityOf(u), TailOf(u)))
  }

  // ---------- Well-formed components ----------

  predicate WellFormedAuthority(a: Authority) {
    && (a.userinfo.Some? ==> Avoids(a.userinfo.value, {'/', '?', '#', '@'}))
    && IsHost(a.host)
    && (a.port.Some? ==> a.port.value <= 65535)
  }

  predicate WellFormedTail(t: Tail) {
    && Avoids(t.path, {'?', '#'})
    && (t.query.Some? ==> Avoids(t.query.value, {'#'}))
    && NormalTail(t).Some?
  }

  /** A hostless path that starts with two slashes would be read back as an authority. */
  predicate PathFits(u: Uri) {
    if u.host.Some? then u.path == "" || u.path[0] == '/' else !StartsWith(u.path, "//")
  }

  predicate WellFormed(u: Uri) {
    && IsScheme(u.scheme)
    && (AuthorityOf(u).Some? ==> WellFormedAuthority(AuthorityOf(u).value))
    && (u.host.None? ==> u.userinfo.None? && u.port.None?)
    && WellFormedTail(TailOf(u))
    && PathFits(u)
  }

  function Normalised(u: Uri): Uri
    requires WellFormed(u)
  {
    var t := NormalTail(TailOf(u)).value;
    u.(scheme := Lower(u.scheme), path := t.path, query := t.query, fragment := t.fragment)
  }
}

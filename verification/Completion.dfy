/** src/completion.c: which URIs a flow accepts, and when a navigation ends it. */
module Completion {
  import opened Text
  import opened Wrappers
  import opened UriGrammar

  const MAX_URI_LENGTH := 4096

  datatype UriError =
    | Required | TooLong | ControlCharacter | Backslash | NotAUri | HasUserinfo
    | NotHttps | NoHost | NoHostOrPath | WildcardHost

  predicate IsControl(c: char) { c as int < 0x20 || c as int == 0x7f }

  predicate IsForbidden(c: char) { IsControl(c) || c == '\\' }

  /** Position of the first character that parse_uri rejects, or the length. */
  function FirstForbidden(s: string): (n: nat)
    ensures n <= |s|
    ensures forall i :: 0 <= i < n ==> !IsForbidden(s[i])
    ensures n < |s| ==> IsForbidden(s[n])
  {
    if s == "" || IsForbidden(s[0]) then 0 else 1 + FirstForbidden(s[1..])
  }

  /** The outcome of parse_uri, error by error in the order the code reports them. */
  function Checked(text: Option<string>): Result<Uri, UriError> {
    if text.None? || text.value == "" then Failure(Required)
    else
      var s := text.value;
      var bad := FirstForbidden(s);
      if |s| > MAX_URI_LENGTH then Failure(TooLong)
      else if bad < |s| then Failure(if IsControl(s[bad]) then ControlCharacter else Backslash)
      else
        match Parse(s)
        case None => Failure(NotAUri)
        case Some(uri) => if uri.userinfo.Some? then Failure(HasUserinfo) else Success(uri)
  }

  method ParseUri(text: Option<string>) returns (r: Result<Uri, UriError>)
    ensures r == Checked(text)
  {
    if text.None? || text.value == "" {
      return Failure(Required);
    }
    var s := text.value;
    if |s| > MAX_URI_LENGTH {
      return Failure(TooLong);
    }
    var i := 0;
    while i < |s|
      invariant 0 <= i <= |s|
      invariant FirstForbidden(s) >= i
    {
      if IsControl(s[i]) {
        return Failure(ControlCharacter);
      }
      if s[i] == '\\' {
        return Failure(Backslash);
      }
      i := i + 1;
    }
    var parsed := Parse(s);
    if parsed.None? {
      return Failure(NotAUri);
    }
    if parsed.value.userinfo.Some? {
      return Failure(HasUserinfo);
    }
    return Success(parsed.value);
  }

  function DefaultPortForScheme(scheme: string): int {
    if SameIgnoringCase(scheme, "https") then 443
    else if SameIgnoringCase(scheme, "http") then 80
    else -1
  }

  function EffectivePort(uri: Uri): int {
    if uri.port.Some? then uri.port.value else DefaultPortForScheme(uri.scheme)
  }

  predicate SchemeRequiresHost(scheme: string) {
    SameIgnoringCase(scheme, "https") || SameIgnoringCase(scheme, "http")
  }

  predicate HasHost(uri: Uri) { uri.host.Some? && uri.host.value != "" }

  function StartUriCheck(text: Option<string>): Result<Uri, UriError> {
    match Checked(text)
    case Failure(e) => Failure(e)
    case Success(uri) =>
      if !SameIgnoringCase(uri.scheme, "https") then Failure(NotHttps)
      else if !HasHost(uri) then Failure(NoHost)
      else Success(uri)
  }

  predicate StartUriIsValid(text: Option<string>) { StartUriCheck(text).Success? }

  function CompletionUriCheck(text: Option<string>): Result<Uri, UriError> {
    match Checked(text)
    case Failure(e) => Failure(e)
    case Success(uri) =>
      if SchemeRequiresHost(uri.scheme) && !HasHost(uri) then Failure(NoHost)
      else if !SchemeRequiresHost(uri.scheme) && !HasHost(uri) && uri.path == "" then Failure(NoHostOrPath)
      else if HasHost(uri) && '*' in uri.host.value then Failure(WildcardHost)
      else Success(uri)
  }

  predicate CompletionUriIsValid(text: Option<string>) { CompletionUriCheck(text).Success? }

  /** webauth_completion_matches, check by check. */
  predicate Matches(candidateText: Option<string>, completionText: Option<string>) {
    && candidateText.Some? && completionText.Some?
    && Checked(completionText).Success?
    && Checked(candidateText).Success?
    && var requested, candidate := Checked(completionText).value, Checked(candidateText).value;
    && SameIgnoringCase(requested.scheme, candidate.scheme)
    && HasHost(requested) == HasHost(candidate)
    && (HasHost(requested) ==> SameIgnoringCase(requested.host.value, candidate.host.value))
    && EffectivePort(requested) == EffectivePort(candidate)
    && candidate.userinfo.None?
    && requested.path == candidate.path
  }

  /** webauth_completion_start_uri_is_valid */
  method CheckStartUri(text: Option<string>) returns (r: Result<Uri, UriError>)
    ensures r == StartUriCheck(text)
  {
    r := ParseUri(text);
    if r.Failure? {
      return;
    }
    if !SameIgnoringCase(r.value.scheme, "https") {
      return Failure(NotHttps);
    }
    if !HasHost(r.value) {
      return Failure(NoHost);
    }
  }

  /** webauth_completion_uri_is_valid */
  method CheckCompletionUri(text: Option<string>) returns (r: Result<Uri, UriError>)
    ensures r == CompletionUriCheck(text)
  {
    r := ParseUri(text);
    if r.Failure? {
      return;
    }
    if SchemeRequiresHost(r.value.scheme) && !HasHost(r.value) {
      return Failure(NoHost);
    }
    if !SchemeRequiresHost(r.value.scheme) && !HasHost(r.value) && r.value.path == "" {
      return Failure(NoHostOrPath);
    }
    if HasHost(r.value) && '*' in r.value.host.value {
      return Failure(WildcardHost);
    }
  }

  /** webauth_completion_matches: the first difference decides. */
  method CheckMatch(candidateText: Option<string>, completionText: Option<string>) returns (matches: bool)
    ensures matches == Matches(candidateText, completionText)
  {
    if candidateText.None? || completionText.None? {
      return false;
    }
    var requested := ParseUri(completionText);
    var candidate := ParseUri(candidateText);
    if requested.Failure? || candidate.Failure? {
      return false;
    }
    var r, c := requested.value, candidate.value;
    if !SameIgnoringCase(r.scheme, c.scheme) {
      return false;
    }
    if HasHost(r) != HasHost(c) {
      return false;
    }
    if HasHost(r) && !SameIgnoringCase(r.host.value, c.host.value) {
      return false;
    }
    if EffectivePort(r) != EffectivePort(c) {
      return false;
    }
    if c.userinfo.Some? {
      return false;
    }
    return r.path == c.path;
  }

  /** host_of in src/webkit-session.c: no length or character checks, only the parser. */
  function HostOf(text: Option<string>): Option<string> {
    if text.None? || Parse(text.value).None? then None else Parse(text.value).value.host
  }

  /** g_ascii_strcasecmp on two hosts. */
  predicate SameHost(a: string, b: string) { SameIgnoringCase(a, b) }

  // ---------- Canonical form ----------

  /** What a match compares. */
  datatype Canonical = Canonical(scheme: string, host: Option<string>, port: int, path: string)

  function CanonicalOf(uri: Uri): Canonical {
    Canonical(Lower(uri.scheme), if HasHost(uri) then Some(Lower(uri.host.value)) else None,
              EffectivePort(uri), uri.path)
  }

  function CanonicalForm(text: Option<string>): Option<Canonical> {
    match Checked(text)
    case Failure(_) => None
    case Success(uri) => Some(CanonicalOf(uri))
  }
}

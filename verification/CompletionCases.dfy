/**
  Which texts are accepted and which match, decided by what is written in them:
  literal lengths, characters, schemes and ports.
 */
module CompletionCases {
  import opened Text
  import opened Wrappers
  import opened UriGrammar
  import UriRoundTrip
  import opened Completion
  import opened CompletionTheorems

  // ---------- Accepted texts ----------

  /** Within the bound, without control characters and backslashes, and parsed without userinfo. */
  predicate Reads(text: string, u: Uri) {
    && |text| <= 4096
    && (forall i :: 0 <= i < |text| ==> text[i] as int >= 32 && text[i] as int != 127 && text[i] != '\\')
    && Parse(text) == Some(u) && u.userinfo.None?
  }

  predicate Is(scheme: string, name: string) { Lower(scheme) == name }

  /** A URI for the start of a sign-in. */
  predicate StartsSignIn(u: Uri) { Is(u.scheme, "https") && u.host.Some? && u.host.value != "" }

  /** A URI that can end one: web schemes need a host, others a host or a path, and no host holds a wildcard. */
  predicate EndsSignIn(u: Uri) {
    && ((u.host.Some? && u.host.value != "") || (!Is(u.scheme, "https") && !Is(u.scheme, "http") && u.path != ""))
    && (u.host.Some? ==> '*' !in u.host.value)
  }

  ghost predicate StartTextIsFit(text: string) { exists u :: Reads(text, u) && StartsSignIn(u) }

  ghost predicate CompletionTextIsFit(text: string) { exists u :: Reads(text, u) && EndsSignIn(u) }

  lemma CheckedReads(text: string, u: Uri)
    ensures Checked(Some(text)) == Success(u) <==> Reads(text, u)
  {
    CheckedAccepts(text);
  }

  lemma SchemeIs(scheme: string, name: string)
    requires Lower(name) == name
    ensures SameIgnoringCase(scheme, name) <==> Is(scheme, name)
  {
    LowerDecidesCase(scheme, name);
  }

  lemma WebSchemes(scheme: string)
    ensures SameIgnoringCase(scheme, "https") <==> Is(scheme, "https")
    ensures SameIgnoringCase(scheme, "http") <==> Is(scheme, "http")
  {
    SchemeIs(scheme, "https");
    SchemeIs(scheme, "http");
  }

  /** A start URI is accepted exactly when it is there and fit. */
  lemma StartAcceptedExactly(text: Option<string>)
    ensures StartUriIsValid(text) <==> text.Some? && StartTextIsFit(text.value)
  {
    hide Parse;
    if text.Some? {
      if Checked(text).Success? {
        CheckedReads(text.value, Checked(text).value);
        WebSchemes(Checked(text).value.scheme);
      }
      if u :| Reads(text.value, u) && StartsSignIn(u) {
        CheckedReads(text.value, u);
      }
    }
  }

  /** So is a completion URI. */
  lemma CompletionAcceptedExactly(text: Option<string>)
    ensures CompletionUriIsValid(text) <==> text.Some? && CompletionTextIsFit(text.value)
  {
    hide Parse;
    if text.Some? {
      if Checked(text).Success? {
        CheckedReads(text.value, Checked(text).value);
        WebSchemes(Checked(text).value.scheme);
      }
      if u :| Reads(text.value, u) && EndsSignIn(u) {
        CheckedReads(text.value, u);
      }
    }
  }

  // ---------- Which error ----------

  predicate IsPlain(c: char) { c as int >= 32 && c as int != 127 && c != '\\' }

  lemma FirstOffence(text: string, i: nat)
    requires i < |text| && !IsPlain(text[i]) && forall k :: 0 <= k < i ==> IsPlain(text[k])
    ensures FirstForbidden(text) == i
  {}

  /** The reason parse_uri gives: the bound before the characters, the first bad character, then the syntax. */
  lemma RefusalReason(text: string)
    ensures var e := Checked(Some(text));
      && (e == Failure(Required) <==> text == "")
      && (e == Failure(TooLong) <==> |text| > 4096)
      && (forall i :: 0 <= i < |text| <= 4096 && !IsPlain(text[i]) && (forall k :: 0 <= k < i ==> IsPlain(text[k])) ==>
            e == Failure(if text[i] == '\\' then Backslash else ControlCharacter))
      && (text != "" && |text| <= 4096 && (forall i :: 0 <= i < |text| ==> IsPlain(text[i])) ==>
            && (e == Failure(NotAUri) <==> Parse(text).None?)
            && (e == Failure(HasUserinfo) <==> Parse(text).Some? && Parse(text).value.userinfo.Some?))
  {
    hide Parse;
    forall i | 0 <= i < |text| <= 4096 && !IsPlain(text[i]) && (forall k :: 0 <= k < i ==> IsPlain(text[k]))
      ensures Checked(Some(text)) == Failure(if text[i] == '\\' then Backslash else ControlCharacter)
    {
      FirstOffence(text, i);
    }
  }

  /** The reason a start URI that reads well is still refused. */
  lemma StartRefusalReason(text: string, u: Uri)
    requires Reads(text, u)
    ensures StartUriCheck(Some(text)) ==
      if !Is(u.scheme, "https") then Failure(NotHttps)
      else if u.host.None? || u.host.value == "" then Failure(NoHost)
      else Success(u)
  {
    hide Parse;
    CheckedReads(text, u);
    WebSchemes(u.scheme);
  }

  lemma CompletionRefusalReason(text: string, u: Uri)
    requires Reads(text, u)
    ensures CompletionUriCheck(Some(text)) ==
      if u.host.None? || u.host.value == "" then
        if Is(u.scheme, "https") || Is(u.scheme, "http") then Failure(NoHost)
        else if u.path == "" then Failure(NoHostOrPath)
        else Success(u)
      else if '*' in u.host.value then Failure(WildcardHost)
      else Success(u)
  {
    hide Parse;
    CheckedReads(text, u);
    WebSchemes(u.scheme);
  }

  // ---------- Matches ----------

  /** The port a URI without one stands for. */
  predicate StandsFor(scheme: string, port: nat) {
    (Is(scheme, "https") && port == 443) || (Is(scheme, "http") && port == 80)
  }

  predicate SamePort(scheme: string, p: Option<nat>, q: Option<nat>) {
    p == q
    || (p.None? && q.Some? && StandsFor(scheme, q.value))
    || (p.Some? && q.None? && StandsFor(scheme, p.value))
  }

  /** A missing host and an empty one are the same. */
  function HostText(u: Uri): string { if u.host.Some? then u.host.value else "" }

  /** Same scheme and host but for ASCII case, same port but for the web's own, same path. */
  predicate Agree(u: Uri, v: Uri) {
    && Lower(u.scheme) == Lower(v.scheme)
    && Lower(HostText(u)) == Lower(HostText(v))
    && SamePort(u.scheme, u.port, v.port)
    && u.path == v.path
  }

  lemma PortsAgree(u: Uri, v: Uri)
    requires Lower(u.scheme) == Lower(v.scheme)
    ensures EffectivePort(u) == EffectivePort(v) <==> SamePort(u.scheme, u.port, v.port)
  {
    WebSchemes(u.scheme);
    WebSchemes(v.scheme);
  }

  /** Two texts match exactly when both read well and agree. */
  lemma MatchesExactly(a: Option<string>, b: Option<string>)
    ensures Matches(a, b) <==>
      a.Some? && b.Some? && exists u, v :: Reads(a.value, u) && Reads(b.value, v) && Agree(u, v)
  {
    hide Parse;
    MatchIsCanonicalEquality(a, b);
    if a.Some? && b.Some? {
      forall u, v | Reads(a.value, u) && Reads(b.value, v)
        ensures Matches(a, b) <==> Agree(u, v)
      {
        CheckedReads(a.value, u);
        CheckedReads(b.value, v);
        AgreeIsCanonical(u, v);
      }
      if Checked(a).Success? { CheckedReads(a.value, Checked(a).value); }
      if Checked(b).Success? { CheckedReads(b.value, Checked(b).value); }
    }
  }

  lemma AgreeIsCanonical(u: Uri, v: Uri)
    ensures CanonicalOf(u) == CanonicalOf(v) <==> Agree(u, v)
  {
    hide EffectivePort, SamePort;
    if Lower(u.scheme) == Lower(v.scheme) {
      PortsAgree(u, v);
    }
    assert Lower(HostText(u)) == "" <==> !HasHost(u);
    assert Lower(HostText(v)) == "" <==> !HasHost(v);
  }

  /**
    Of two accepted URIs that agree but for the port, one without and one with a
    written port match exactly when the scheme is https and the port 443, or http
    and 80; any other scheme without port matches no written port.
   */
  lemma WrittenPortMatchesExactly(a: string, u: Uri, b: string, v: Uri, p: nat)
    requires Reads(a, u) && Reads(b, v) && u.port.None? && v.port == Some(p)
    requires Lower(u.scheme) == Lower(v.scheme) && Lower(HostText(u)) == Lower(HostText(v)) && u.path == v.path
    ensures Matches(Some(a), Some(b)) <==> (Lower(u.scheme) == "https" && p == 443) || (Lower(u.scheme) == "http" && p == 80)
    ensures Matches(Some(b), Some(a)) <==> Matches(Some(a), Some(b))
  {
    hide Parse;
    MatchesExactly(Some(a), Some(b));
    MatchIsEquivalence(Some(a), Some(b), Some(a));
    MatchIsEquivalence(Some(b), Some(a), Some(b));
  }

  // ---------- Hosts of texts ----------

  /** The host a session remembers for a well-formed URI is the one written in it. */
  lemma HostOfPrinted(u: Uri)
    requires WellFormed(u)
    ensures HostOf(Some(Print(u))) == u.host
  {
    hide Parse, Print;
    UriRoundTrip.ParsePrinted(u);
  }
}

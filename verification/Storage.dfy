/** src/storage.c: session modes and the directory that names a persistent store. */
module Storage {
  import opened Text
  import opened Wrappers

  const MAX_DIRECTORY_NAME := 128

  datatype Mode = Shared | Ephemeral

  /** webauth_session_mode_parse; None is the error return. */
  function ModeParse(value: Option<string>): Option<Mode> {
    if value.None? || value.value == "shared" then Some(Shared)
    else if value.value == "ephemeral" then Some(Ephemeral)
    else None
  }

  /** webauth_storage_effective_mode */
  function EffectiveMode(requested: Mode, appId: Option<string>): Mode {
    if appId.None? || appId.value == "" then Ephemeral else requested
  }

  predicate IsNameChar(c: char) {
    IsAlpha(c) || IsDigit(c) || c == '.' || c == '-' || c == '_'
  }

  function NameChar(c: char): char { if IsNameChar(c) then c else '_' }

  function NameChars(s: string): (r: string)
    ensures |r| == |s|
    ensures forall i :: 0 <= i < |s| ==> r[i] == NameChar(s[i])
  {
    seq(|s|, i requires 0 <= i < |s| => NameChar(s[i]))
  }

  function Truncated(s: string): string {
    if |s| <= MAX_DIRECTORY_NAME then s else s[..MAX_DIRECTORY_NAME]
  }

  function LeadingDots(s: string): (k: nat)
    ensures k <= |s|
    ensures forall i :: 0 <= i < k ==> s[i] == '.'
    ensures k < |s| ==> s[k] != '.'
  {
    if s != "" && s[0] == '.' then 1 + LeadingDots(s[1..]) else 0
  }

  function WithoutLeadingDots(s: string): string { s[LeadingDots(s)..] }

  /** webauth_storage_directory_name: substitute, truncate, then strip leading dots. */
  function DirectoryName(appId: Option<string>): Option<string> {
    if appId.None? || appId.value == "" then None
    else
      var name := WithoutLeadingDots(NameChars(Truncated(appId.value)));
      if name == "" then None else Some(name)
  }

  /** The loops of the C function: append while there is room, then erase from the front. */
  method BuildDirectoryName(appId: Option<string>) returns (name: Option<string>)
    ensures name == DirectoryName(appId)
  {
    if appId.None? || appId.value == "" {
      return None;
    }
    var s := appId.value;
    var out := "";
    var p := 0;
    while p < |s| && |out| < MAX_DIRECTORY_NAME
      invariant 0 <= p <= |s| && p == |out| <= MAX_DIRECTORY_NAME
      invariant forall i :: 0 <= i < p ==> out[i] == NameChar(s[i])
    {
      out := out + [if IsNameChar(s[p]) then s[p] else '_'];
      p := p + 1;
    }
    assert out == NameChars(Truncated(s));
    while |out| > 0 && out[0] == '.'
      invariant WithoutLeadingDots(out) == WithoutLeadingDots(NameChars(Truncated(s)))
      decreases |out|
    {
      assert LeadingDots(out) == 1 + LeadingDots(out[1..]);
      out := out[1..];
    }
    return if out == "" then None else Some(out);
  }

  /** What the store may be named after: one path component that is neither hidden nor a parent reference. */
  predicate IsDirectoryName(s: string) {
    && 1 <= |s| <= MAX_DIRECTORY_NAME
    && (forall i :: 0 <= i < |s| ==> IsNameChar(s[i]))
    && s[0] != '.'
  }

  /** Every name produced is a directory name, and the names that are fixed points are exactly those. */
  lemma NameIsFixedPoint(appId: string)
    ensures DirectoryName(Some(appId)).Some? ==> IsDirectoryName(DirectoryName(Some(appId)).value)
    ensures DirectoryName(Some(appId)) == Some(appId) <==> IsDirectoryName(appId)
  {
    if IsDirectoryName(appId) {
      assert NameChars(appId) == appId;
    }
  }

  lemma NameIsIdempotent(appId: string)
    requires DirectoryName(Some(appId)).Some?
    ensures DirectoryName(DirectoryName(Some(appId))) == DirectoryName(Some(appId))
  {
    NameIsFixedPoint(appId);
    NameIsFixedPoint(DirectoryName(Some(appId)).value);
  }

  /** A store is refused exactly when nothing but dots remains within the bound. */
  lemma NoNameExactly(appId: string)
    ensures DirectoryName(Some(appId)).None? <==>
      forall i :: 0 <= i < |appId| && i < MAX_DIRECTORY_NAME ==> appId[i] == '.'
  {
    var t := NameChars(Truncated(appId));
    if DirectoryName(Some(appId)).Some? {
      assert appId[LeadingDots(t)] != '.';
    } else if appId != "" {
      forall i | 0 <= i < |appId| && i < MAX_DIRECTORY_NAME
        ensures appId[i] == '.'
      {
        assert t[i] == '.';
      }
    }
  }

  /** After k leading dots, b reads as the name a. */
  predicate ReadsAs(b: string, k: nat, a: string) {
    && k <= |Truncated(b)|
    && (forall i :: 0 <= i < k ==> b[i] == '.')
    && NameChars(Truncated(b)[k..]) == a
  }

  lemma NamedThenReadsAs(a: string, b: string) returns (k: nat)
    requires DirectoryName(Some(b)) == Some(a)
    ensures ReadsAs(b, k, a)
  {
    var t := NameChars(Truncated(b));
    k := LeadingDots(t);
    assert NameChars(Truncated(b)[k..]) == t[k..];
    assert forall i :: 0 <= i < k ==> t[i] == '.';
  }

  lemma ReadsAsThenNamed(a: string, b: string, k: nat)
    requires IsDirectoryName(a) && ReadsAs(b, k, a)
    ensures DirectoryName(Some(b)) == Some(a)
  {
    var t := NameChars(Truncated(b));
    assert t[k..] == a;
    assert t[k] == a[0];
  }

  /** Two applications share a store exactly when their names agree after substitution, truncation and stripping. */
  lemma SharedStoreExactly(a: string, b: string)
    requires DirectoryName(Some(a)).Some?
    ensures DirectoryName(Some(a)) == DirectoryName(Some(b)) <==>
      exists k: nat :: ReadsAs(b, k, DirectoryName(Some(a)).value)
  {
    hide DirectoryName, ReadsAs;
    NameIsFixedPoint(a);
    var name := DirectoryName(Some(a)).value;
    if DirectoryName(Some(b)) == Some(name) {
      var k := NamedThenReadsAs(name, b);
    }
    if k: nat :| ReadsAs(b, k, name) {
      ReadsAsThenNamed(name, b, k);
    }
  }

  /** The characters a name keeps. */
  predicate StaysInName(c: char) {
    'a' <= c <= 'z' || 'A' <= c <= 'Z' || '0' <= c <= '9' || c == '.' || c == '-' || c == '_'
  }

  /**
    The name, character by character: of the first 128 characters, those after the
    leading dots, each kept or replaced by an underscore.
   */
  lemma NameIsExactly(appId: string, dots: nat)
    requires dots < |appId| && dots < 128 && appId[dots] != '.' && forall i :: 0 <= i < dots ==> appId[i] == '.'
    ensures var name := DirectoryName(Some(appId));
      && name.Some?
      && |name.value| == (if |appId| < 128 then |appId| else 128) - dots
      && forall i :: 0 <= i < |name.value| ==>
           name.value[i] == if StaysInName(appId[dots + i]) then appId[dots + i] else '_'
  {
    var t := NameChars(Truncated(appId));
    assert t[dots] != '.';
    assert LeadingDots(t) == dots;
  }

  /** The two words and an absent option choose a mode, any other word is refused, and only a named application shares. */
  lemma ModeIsExactly(value: Option<string>, appId: string)
    ensures ModeParse(value).None? <==> value.Some? && value.value != "shared" && value.value != "ephemeral"
    ensures ModeParse(value).Some? ==>
      && (EffectiveMode(ModeParse(value).value, Some(appId)) == Shared <==> value != Some("ephemeral") && appId != "")
      && EffectiveMode(ModeParse(value).value, None) == Ephemeral
  {
    assert "shared" != "ephemeral";
  }
}

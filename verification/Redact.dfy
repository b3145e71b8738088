/** src/redact.c: what may appear in the log. */
module Redact {
  import opened Text
  import opened Wrappers
  import opened Utf8
  import UriGrammar

  const MAX_LOGGED_VALUE := 128
  const MAX_SANITISED := 131
  const ELIDED := "<uri-elided>"

  /** General category Cc: g_unichar_iscntrl. */
  predicate IsControlCode(code: int) { 0 <= code < 0x20 || 0x7F <= code < 0xA0 }

  /** What sanitise replaces; `format` says which characters have general category Cf. */
  predicate IsMasked(code: int, format: int -> bool) {
    IsControlCode(code) || format(code) || code == ' ' as int
  }

  /** The characters sanitise writes itself are not format characters. */
  predicate KeepsMarks(format: int -> bool) {
    !format('?' as int) && !format('_' as int) && !format('-' as int)
  }

  /** What is written for the next character of s, and how many bytes of s it stands for. */
  function Piece(s: string, format: int -> bool): (p: (string, nat))
    requires s != ""
    ensures 0 < |p.0| <= 4 && 0 < p.1 <= |s|
  {
    match Decode(s)
    case None => ("?", 1)
    case Some(d) => (if IsMasked(d.code, format) then "_" else s[..d.length], d.length)
  }

  /** What the loop still appends once `used` bytes are written. */
  function Sanitised(s: string, used: nat, format: int -> bool): string {
    if s == "" || used >= MAX_LOGGED_VALUE then ""
    else
      var (piece, taken) := Piece(s, format);
      piece + Sanitised(s[taken..], used + |piece|, format)
  }

  function Sanitise(value: Option<string>, format: int -> bool): (r: string)
    ensures r != ""
  {
    var body := if value.None? then "" else Sanitised(value.value, 0, format);
    if body == "" then "-" else body
  }

  lemma OnePiece(out: string, s: string, p: nat, format: int -> bool)
    requires p < |s| && |out| < MAX_LOGGED_VALUE
    ensures var (piece, taken) := Piece(s[p..], format);
      out + Sanitised(s[p..], |out|, format) == out + piece + Sanitised(s[p + taken..], |out + piece|, format)
  {
    hide Decode, IsMasked;
    var (piece, taken) := Piece(s[p..], format);
    assert s[p..][taken..] == s[p + taken..];
    var rest := Sanitised(s[p + taken..], |out + piece|, format);
    assert out + (piece + rest) == out + piece + rest;
  }

  method SanitiseLoop(value: Option<string>, format: int -> bool) returns (out: string)
    ensures out == Sanitise(value, format)
  {
    hide Decode, IsMasked, Sanitised;
    out := "";
    var p := 0;
    if value.Some? {
      var s := value.value;
      assert s[0..] == s;
      while p < |s| && |out| < MAX_LOGGED_VALUE
        invariant 0 <= p <= |s|
        invariant out + Sanitised(s[p..], |out|, format) == Sanitised(s, 0, format)
        decreases |s| - p
      {
        OnePiece(out, s, p, format);
        var c := Decode(s[p..]);
        if c.None? {
          out := out + "?";
          p := p + 1;
        } else {
          if IsMasked(c.value.code, format) {
            out := out + "_";
          } else {
            out := out + s[p..][..c.value.length];
          }
          p := p + c.value.length;
        }
      }
      SanitisedEnds(s[p..], |out|, format);
    }
    if |out| == 0 {
      out := out + "-";
    }
  }

  lemma SanitisedEnds(s: string, used: nat, format: int -> bool)
    requires s == "" || used >= MAX_LOGGED_VALUE
    ensures Sanitised(s, used, format) == ""
  {}

  // ---------- What sanitised text looks like ----------

  /** Valid UTF-8 of characters that are neither space, control nor format. */
  predicate Printable(s: string, format: int -> bool) {
    s == "" || (Decode(s).Some? && !IsMasked(Decode(s).value.code, format)
                && Printable(s[Decode(s).value.length..], format))
  }

  /** Each piece is one printable character, and is its own piece in any later pass. */
  lemma PieceIsCharacter(s: string, rest: string, format: int -> bool)
    requires s != "" && KeepsMarks(format)
    ensures var piece := Piece(s, format).0;
      && Decode(piece + rest).Some? && Decode(piece + rest).value.length == |piece|
      && !IsMasked(Decode(piece + rest).value.code, format)
      && Piece(piece + rest, format) == (piece, |piece|)
  {
    var piece := Piece(s, format).0;
    if Decode(s).Some? && !IsMasked(Decode(s).value.code, format) {
      DecodesAlone(s, rest);
    }
    assert (piece + rest)[..|piece|] == piece;
  }

  lemma {:induction false} SanitisedIsPrintable(s: string, used: nat, format: int -> bool)
    requires KeepsMarks(format)
    ensures Printable(Sanitised(s, used, format), format)
    decreases |s|
  {
    hide Decode, IsMasked;
    if s != "" && used < MAX_LOGGED_VALUE {
      var (piece, taken) := Piece(s, format);
      var rest := Sanitised(s[taken..], used + |piece|, format);
      SanitisedIsPrintable(s[taken..], used + |piece|, format);
      PieceIsCharacter(s, rest, format);
      assert (piece + rest)[|piece|..] == rest;
    }
  }

  lemma {:induction false} SanitisedIsShort(s: string, used: nat, format: int -> bool)
    requires used <= MAX_SANITISED
    ensures used + |Sanitised(s, used, format)| <= MAX_SANITISED
    decreases |s|
  {
    hide Decode, IsMasked;
    if s != "" && used < MAX_LOGGED_VALUE {
      var (piece, taken) := Piece(s, format);
      SanitisedIsShort(s[taken..], used + |piece|, format);
    }
  }

  lemma {:induction false} PrintableIsValid(s: string, format: int -> bool)
    requires Printable(s, format)
    ensures Valid(s)
    ensures ' ' !in s
    ensures forall i :: 0 <= i < |s| && (s[i] as int) < 0x80 ==> !IsControlCode(s[i] as int)
    decreases |s|
  {
    if s != "" {
      var n := Decode(s).value.length;
      PrintableIsValid(s[n..], format);
      forall i | 0 <= i < |s|
        ensures s[i] != ' ' && ((s[i] as int) < 0x80 ==> !IsControlCode(s[i] as int))
      {
        if 0 < i < n {
          TailsAreNotAscii(s, i);
        } else if i >= n {
          assert s[i] == s[n..][i - n];
        }
      }
    }
  }

  lemma PrintableDash(format: int -> bool)
    requires KeepsMarks(format)
    ensures Printable("-", format)
  {
    assert Decode("-") == Some(Decoded('-' as int, 1));
    assert "-"[1..] == "";
  }

  /** Whatever the bytes, the result is non-empty, at most 131 bytes, valid UTF-8 and printable. */
  lemma SanitiseIsClean(value: Option<string>, format: int -> bool)
    requires KeepsMarks(format)
    ensures var r := Sanitise(value, format);
      && 1 <= |r| <= MAX_SANITISED
      && Valid(r) && Printable(r, format) && ' ' !in r
  {
    if value.Some? {
      SanitisedIsPrintable(value.value, 0, format);
      SanitisedIsShort(value.value, 0, format);
    }
    PrintableDash(format);
    PrintableIsValid(Sanitise(value, format), format);
  }

  lemma {:induction false} SanitisedAgain(s: string, used: nat, format: int -> bool)
    requires KeepsMarks(format)
    ensures Sanitised(Sanitised(s, used, format), used, format) == Sanitised(s, used, format)
    decreases |s|
  {
    hide Decode, IsMasked;
    if s != "" && used < MAX_LOGGED_VALUE {
      var (piece, taken) := Piece(s, format);
      var rest := Sanitised(s[taken..], used + |piece|, format);
      SanitisedAgain(s[taken..], used + |piece|, format);
      PieceIsCharacter(s, rest, format);
      assert (piece + rest)[|piece|..] == rest;
    }
  }

  /** Sanitising twice is sanitising once. */
  lemma SanitiseIsIdempotent(value: Option<string>, format: int -> bool)
    requires KeepsMarks(format)
    ensures Sanitise(Some(Sanitise(value, format)), format) == Sanitise(value, format)
  {
    if value.Some? {
      SanitisedAgain(value.value, 0, format);
    }
    var r := Sanitise(value, format);
    if r == "-" {
      PrintableDash(format);
      PrintableIsKept("-", 0, format);
    }
  }

  lemma PrintablePiece(s: string, format: int -> bool)
    requires s != "" && Printable(s, format)
    ensures var n := Piece(s, format).1;
      0 < n <= |s| && Piece(s, format).0 == s[..n] && Printable(s[n..], format)
  {
    hide Decode, IsMasked;
  }

  /** Text that is short and printable is logged as it is; the bound is on where a character starts. */
  lemma {:induction false} PrintableIsKept(s: string, used: nat, format: int -> bool)
    requires Printable(s, format) && used + |s| <= MAX_LOGGED_VALUE
    ensures Sanitised(s, used, format) == s
    decreases |s|
  {
    hide Piece, Printable;
    if s != "" {
      var n := Piece(s, format).1;
      PrintablePiece(s, format);
      PrintableIsKept(s[n..], used + n, format);
      assert s[..n] + s[n..] == s;
    }
  }

  // ---------- Error messages ----------

  const SCHEME_MARK := "://"
  const PKCS11_MARK := "pkcs11:"

  /** strstr: where the mark first occurs, or the length. */
  function Find(s: string, mark: string): (n: nat)
    ensures n <= |s|
    ensures n < |s| ==> StartsWith(s[n..], mark)
    ensures forall i :: 0 <= i < n ==> !StartsWith(s[i..], mark)
  {
    if s == "" || StartsWith(s, mark) then 0
    else
      var n := 1 + Find(s[1..], mark);
      assert forall i :: 0 < i <= |s| ==> s[i..] == s[1..][i - 1..];
      n
  }

  /** Where the earliest of the two marks is, or the length. */
  function FirstMark(s: string): (n: nat)
    ensures n <= |s|
  {
    var a, b := Find(s, SCHEME_MARK), Find(s, PKCS11_MARK);
    if a <= b then a else b
  }

  /** Start of the whitespace-delimited token that position cut lies in. */
  function TokenStart(s: string, cut: nat): (n: nat)
    requires cut <= |s|
    ensures n <= cut
    ensures forall i :: n <= i < cut ==> !IsSpace(s[i])
    ensures n > 0 ==> IsSpace(s[n - 1])
  {
    if cut > 0 && !IsSpace(s[cut - 1]) then TokenStart(s, cut - 1) else cut
  }

  /** webauth_redact_error_text */
  function ErrorText(message: Option<string>, format: int -> bool): string {
    if message.None? then "-"
    else
      var s := message.value;
      var cut := FirstMark(s);
      if cut == |s| then Sanitise(message, format)
      else Sanitise(Some(s[..TokenStart(s, cut)]), format) + ELIDED
  }

  method RedactErrorText(message: Option<string>, format: int -> bool) returns (text: string)
    ensures text == ErrorText(message, format)
  {
    hide Find, Sanitise, Decode;
    if message.None? {
      return "-";
    }
    var s := message.value;
    var cut := Find(s, SCHEME_MARK);
    var other := Find(s, PKCS11_MARK);
    if other < cut {
      cut := other;
    }
    if cut == |s| {
      text := SanitiseLoop(message, format);
      return;
    }
    while cut > 0 && !IsSpace(s[cut - 1])
      invariant 0 <= cut < |s|
      invariant TokenStart(s, cut) == TokenStart(s, FirstMark(s))
    {
      cut := cut - 1;
    }
    text := SanitiseLoop(Some(s[..cut]), format);
    text := text + ELIDED;
  }

  // ---------- Fields ----------

  datatype FieldKind =
    | OutcomeField | HostField | SchemeField | PortField | AppIdField | CountField | DurationField
    | UriShapeField | UriField | QueryField | CertUriField | SecretField

  function Length(value: Option<string>): nat { if value.Some? then |value.value| else 0 }

  /** The port as %d prints it; g_uri_get_port is -1 when there is none. */
  function PortText(port: Option<nat>): string {
    if port.Some? then Decimal(port.value) else "-1"
  }

  /** uri_shape */
  function UriShape(value: Option<string>, format: int -> bool): string {
    if value.None? then "-"
    else
      var uri := UriGrammar.Parse(value.value);
      if uri.None? || uri.value.host.None? then "<uri:" + Decimal(|value.value|) + ">"
      else
        uri.value.scheme + "://" + Sanitise(uri.value.host, format) + ":" + PortText(uri.value.port)
        + "/[" + Decimal(|uri.value.path|) + "]"
  }

  /** webauth_redact_field */
  function Field(kind: FieldKind, value: Option<string>, format: int -> bool): string {
    match kind
    case UriShapeField => UriShape(value, format)
    case UriField => "<uri:" + Decimal(Length(value)) + ">"
    case QueryField => "<query:" + Decimal(Length(value)) + ">"
    case CertUriField => "<cert-uri:" + Decimal(Length(value)) + ">"
    case SecretField => "<secret>"
    case _ => Sanitise(value, format)
  }

  // ---------- Lines ----------

  datatype Argument = Argument(name: string, kind: FieldKind, value: Option<string>)

  function Rendered(a: Argument, format: int -> bool): string {
    a.name + "=" + Field(a.kind, a.value, format)
  }

  function LineTail(args: seq<Argument>, format: int -> bool): string {
    if args == [] then "" else " " + Rendered(args[0], format) + LineTail(args[1..], format)
  }

  datatype Level = Debug | Message | Warning

  /** webauth_log_event: the line that is written, if one is. */
  function LogLine(level: Level, verbose: bool, event: string, args: seq<Argument>, format: int -> bool): Option<string> {
    if level == Debug && !verbose then None else Some(event + LineTail(args, format))
  }

  method LogEvent(level: Level, verbose: bool, event: string, args: seq<Argument>, format: int -> bool) returns (written: Option<string>)
    ensures written == LogLine(level, verbose, event, args, format)
  {
    hide Field;
    var line := event;
    var i := 0;
    assert args[0..] == args;
    while i < |args|
      invariant 0 <= i <= |args|
      invariant line + LineTail(args[i..], format) == event + LineTail(args, format)
    {
      var rendered := Field(args[i].kind, args[i].value, format);
      ghost var before := line;
      line := line + " " + args[i].name + "=" + rendered;
      assert args[i..][1..] == args[i + 1..];
      assert line == before + (" " + Rendered(args[i], format));
      i := i + 1;
    }
    assert line + LineTail(args[i..], format) == line;
    if level == Debug && !verbose {
      return None;
    }
    return Some(line);
  }
}

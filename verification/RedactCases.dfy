/** What sanitising writes for each character, and which values and lines are shown as they are. */
module RedactCases {
  import opened Text
  import opened Wrappers
  import opened Utf8
  import opened Redact
  import opened RedactTheorems
  import UriGrammar

  // ---------- One character after another ----------

  /** Printable text is passed on as it is, and sanitising goes on behind it. */
  lemma {:induction false} SanitisedBehind(head: string, tail: string, used: nat, format: int -> bool)
    requires Printable(head, format) && used + |head| <= 128
    ensures Sanitised(head + tail, used, format) == head + Sanitised(tail, used + |head|, format)
    decreases |head|
  {
    hide Decode, IsMasked, Piece, Printable, Sanitised;
    if head == "" {
      assert head + tail == tail;
    } else {
      var first, more := FirstPiece(head, tail, format);
      SanitisedStep(head + tail, used, first, more + tail, format);
      SanitisedBehind(more, tail, used + |first|, format);
      Regroup(first, more, Sanitised(tail, used + |head|, format));
    }
  }

  lemma FirstPiece(head: string, tail: string, format: int -> bool) returns (first: string, more: string)
    requires head != "" && Printable(head, format)
    ensures first != "" && head == first + more && Printable(more, format)
    ensures Piece(head + tail, format) == (first, |first|) && (head + tail)[|first|..] == more + tail
  {
    hide Decode, IsMasked;
    var n := Decode(head).value.length;
    first, more := head[..n], head[n..];
    var s := head + tail;
    assert s == first + (more + tail);
    DecodesAlone(head, more + tail);
    assert s[..n] == first;
  }

  lemma SanitisedStep(s: string, used: nat, first: string, rest: string, format: int -> bool)
    requires s != "" && used < 128 && Piece(s, format) == (first, |first|) && s[|first|..] == rest
    ensures Sanitised(s, used, format) == first + Sanitised(rest, used + |first|, format)
  {
    hide Piece;
  }

  /** What sanitise shows as an underscore: controls, spaces and format characters. */
  predicate IsHidden(code: int, format: int -> bool) {
    0 <= code < 32 || 127 <= code < 160 || code == 32 || format(code)
  }

  /**
    What is written behind any printable text: nothing from 128 bytes on, a
    question mark for a malformed byte, an underscore for a hidden character, and
    any other character itself; then the rest in the same way.
   */
  lemma SanitisesExactly(head: string, tail: string, format: int -> bool)
    requires Printable(head, format) && |head| <= 128
    ensures Sanitised(head + tail, 0, format) == head +
      if |head| == 128 || tail == "" then ""
      else if Decode(tail).None? then "?" + Sanitised(tail[1..], |head| + 1, format)
      else
        var d := Decode(tail).value;
        if IsHidden(d.code, format) then "_" + Sanitised(tail[d.length..], |head| + 1, format)
        else tail[..d.length] + Sanitised(tail[d.length..], |head| + d.length, format)
  {
    hide Decode;
    SanitisedBehind(head, tail, 0, format);
  }

  /** An empty or missing value is a dash. */
  lemma NothingIsADash(format: int -> bool)
    ensures Sanitise(None, format) == "-" && Sanitise(Some(""), format) == "-"
  {}

  // ---------- Characters ----------

  /** A tail byte for the last six bits of a number. */
  function TailByte(n: int): char { (0x80 + n % 0x40) as char }

  /** The encoding of section 3 of RFC 3629. */
  function Encode(code: int): string
    requires IsScalar(code)
  {
    var a := code / 0x40;
    var b := a / 0x40;
    var c := b / 0x40;
    if code < 0x80 then [code as char]
    else if code < 0x800 then [(0xC0 + a) as char, TailByte(code)]
    else if code < 0x1_0000 then [(0xE0 + b) as char, TailByte(a), TailByte(code)]
    else [(0xF0 + c) as char, TailByte(b), TailByte(a), TailByte(code)]
  }

  lemma SixBits(n: int)
    requires n >= 0
    ensures n == n / 0x40 * 0x40 + n % 0x40 && n / 0x40 >= 0
    ensures IsTail(TailByte(n)) && Bits(TailByte(n), 0x80) == n % 0x40
  {}

  lemma AppendSix(q: int, r: int)
    requires q >= 0 && 0 <= r < 0x40
    ensures (q * 0x40 + r) / 0x40 == q && (q * 0x40 + r) % 0x40 == r
  {}

  /** Every character is decoded from its encoding, whatever follows. */
  lemma DecodesEncoded(code: int, rest: string)
    requires IsScalar(code)
    ensures Decode(Encode(code) + rest) == Some(Decoded(code, |Encode(code)|))
  {
    hide TailByte;
    SixBits(code);
    SixBits(code / 0x40);
    SixBits(code / 0x40 / 0x40);
  }

  lemma TwoBytes(a: char, b: char)
    requires Within(a, 0xC2, 0xDF) && IsTail(b)
    ensures var code := Bits(a, 0xC0) * 0x40 + Bits(b, 0x80);
      0x80 <= code < 0x800 && Encode(code) == [a, b]
  {
    AppendSix(Bits(a, 0xC0), Bits(b, 0x80));
  }

  lemma ThreeBytes(a: char, b: char, c: char)
    requires ThreeLead(a, b) && IsTail(c)
    ensures var code := Bits(a, 0xE0) * 0x1000 + Bits(b, 0x80) * 0x40 + Bits(c, 0x80);
      IsScalar(code) && 0x800 <= code < 0x1_0000 && Encode(code) == [a, b, c]
  {
    var q := Bits(a, 0xE0) * 0x40 + Bits(b, 0x80);
    AppendSix(Bits(a, 0xE0), Bits(b, 0x80));
    AppendSix(q, Bits(c, 0x80));
    assert Bits(a, 0xE0) * 0x1000 + Bits(b, 0x80) * 0x40 + Bits(c, 0x80) == q * 0x40 + Bits(c, 0x80);
  }

  lemma FourBytes(a: char, b: char, c: char, d: char)
    requires FourLead(a, b) && IsTail(c) && IsTail(d)
    ensures var code := Bits(a, 0xF0) * 0x40000 + Bits(b, 0x80) * 0x1000 + Bits(c, 0x80) * 0x40 + Bits(d, 0x80);
      IsScalar(code) && 0x1_0000 <= code && Encode(code) == [a, b, c, d]
  {
    var p := Bits(a, 0xF0) * 0x40 + Bits(b, 0x80);
    var q := p * 0x40 + Bits(c, 0x80);
    AppendSix(Bits(a, 0xF0), Bits(b, 0x80));
    AppendSix(p, Bits(c, 0x80));
    AppendSix(q, Bits(d, 0x80));
    assert Bits(a, 0xF0) * 0x40000 + Bits(b, 0x80) * 0x1000 + Bits(c, 0x80) * 0x40 + Bits(d, 0x80) == q * 0x40 + Bits(d, 0x80);
  }

  /** And nothing else is decoded. */
  lemma OnlyEncodedDecodes(s: string)
    requires Decode(s).Some?
    ensures IsScalar(Decode(s).value.code) && s[..Decode(s).value.length] == Encode(Decode(s).value.code)
  {
    hide Encode, ThreeLead, FourLead;
    DecodesScalars(s);
    var n := Decode(s).value.length;
    if n == 1 {
      OneByte(s[0]);
      assert s[..1] == [s[0]];
    } else if n == 2 {
      TwoBytes(s[0], s[1]);
      assert s[..2] == [s[0], s[1]];
    } else if n == 3 {
      ThreeBytes(s[0], s[1], s[2]);
      assert s[..3] == [s[0], s[1], s[2]];
    } else {
      FourBytes(s[0], s[1], s[2], s[3]);
      assert s[..4] == [s[0], s[1], s[2], s[3]];
    }
  }

  lemma OneByte(a: char)
    requires Within(a, 0, 0x7F)
    ensures Encode(a as int) == [a]
  {}

  // ---------- Fields and lines ----------

  /** A value of any kind that is not hidden is shown as it is when it is short and printable. */
  lemma PrintableFieldIsShown(kind: FieldKind, text: string, format: int -> bool)
    requires kind !in {UriShapeField, UriField, QueryField, CertUriField, SecretField}
    requires text != "" && Printable(text, format) && |text| <= 128
    ensures Field(kind, Some(text), format) == text
  {
    PrintableIsKept(text, 0, format);
  }

  /** A line is held back exactly at debug level when the log is not verbose, and otherwise says its event and fields. */
  lemma LineIsWritten(level: Level, verbose: bool, event: string, args: seq<Argument>, format: int -> bool)
    requires KeepsMarks(format) && ' ' !in event && NamesAreWords(args)
    ensures var line := LogLine(level, verbose, event, args, format);
      && (line.None? <==> level == Debug && !verbose)
      && (line.Some? ==> Split(line.value, ' ') == [event] + RenderedAll(args, format))
  {
    LineReadsBack(event, args, format);
  }

  /** A number in decimal digits. */
  predicate Shows(digits: string, n: nat) {
    digits != "" && (forall i :: 0 <= i < |digits| ==> IsDigit(digits[i])) && DigitsValue(digits) == n
  }

  /** A hidden value shows its kind and its length, a secret not even that. */
  lemma HiddenFieldShowsLength(value: Option<string>, format: int -> bool) returns (digits: string)
    ensures Shows(digits, if value.Some? then |value.value| else 0)
    ensures Field(UriField, value, format) == "<uri:" + digits + ">"
    ensures Field(QueryField, value, format) == "<query:" + digits + ">"
    ensures Field(CertUriField, value, format) == "<cert-uri:" + digits + ">"
    ensures Field(SecretField, value, format) == "<secret>"
  {
    digits := Decimal(Length(value));
    DecimalRoundTrip(Length(value));
  }

  /** The shape of a URI: its scheme, its host as sanitising leaves it, its port and the length of its path. */
  lemma ShapeIsExactly(text: string, u: UriGrammar.Uri, format: int -> bool) returns (port: string, length: string)
    requires UriGrammar.Parse(text) == Some(u) && u.host.Some?
    ensures UriShape(Some(text), format) == u.scheme + "://" + Sanitise(u.host, format) + ":" + port + "/[" + length + "]"
    ensures if u.port.Some? then Shows(port, u.port.value) else port == "-1"
    ensures Shows(length, |u.path|)
  {
    hide UriGrammar.Parse, Sanitise;
    port, length := PortText(u.port), Decimal(|u.path|);
    DecimalRoundTrip(|u.path|);
    if u.port.Some? {
      DecimalRoundTrip(u.port.value);
    }
  }

  /** What is not a URI with a host shows its length, and a missing value is a dash. */
  lemma OtherShapes(text: string, format: int -> bool) returns (digits: string)
    requires UriGrammar.Parse(text).None? || UriGrammar.Parse(text).value.host.None?
    ensures Shows(digits, |text|) && UriShape(Some(text), format) == "<uri:" + digits + ">"
    ensures UriShape(None, format) == "-" && ErrorText(None, format) == "-"
  {
    hide UriGrammar.Parse;
    digits := Decimal(|text|);
    DecimalRoundTrip(|text|);
  }
}

/**
  src/tls/client_cert_pkcs11.c: the process-wide PIN buffer.  The buffer holds a
  whole file and its terminator; what it means is the C string at its start.
 */
module PinCache {
  import opened Text
  import opened Wrappers

  const NUL := '\0'

  /** g_strchomp, on a string without NUL */
  function Chomped(s: string): (r: string)
    ensures r <= s
  {
    if s != "" && IsSpace(s[|s| - 1]) then Chomped(s[..|s| - 1]) else s
  }

  predicate IsTrailingSpace(s: string) {
    forall i :: 0 <= i < |s| ==> s[i] == ' ' || s[i] == '\t' || s[i] == '\n' || s[i] == '\r' || s[i] as int == 12
  }

  /** Exactly the space at the end is cut: what is left ends in something else. */
  lemma {:induction false} ChompedExactly(kept: string, space: string)
    requires IsTrailingSpace(space) && (kept == "" || !IsTrailingSpace(kept[|kept| - 1..]))
    ensures Chomped(kept + space) == kept
    decreases |space|
  {
    if space == "" {
      assert kept + space == kept;
      assert kept != "" ==> kept[|kept| - 1..] == [kept[|kept| - 1]];
    } else {
      var s, front := kept + space, space[..|space| - 1];
      assert s[..|s| - 1] == kept + front;
      ChompedExactly(kept, front);
    }
  }

  /** strlen, on bytes that need not be terminated */
  function StrLen(bytes: seq<char>): (n: nat)
    ensures n <= |bytes|
    ensures forall i :: 0 <= i < n ==> bytes[i] != NUL
    ensures n < |bytes| ==> bytes[n] == NUL
  {
    if bytes == [] || bytes[0] == NUL then 0 else 1 + StrLen(bytes[1..])
  }

  /** The C string that starts at the first byte. */
  function CString(bytes: seq<char>): string { bytes[..StrLen(bytes)] }

  /** The PIN a file yields. */
  function PinOf(file: string): string { Chomped(CString(file)) }

  function Zeros(n: nat): seq<char> { seq(n, _ => NUL) }

  /** The buffer after reading a file: its bytes and a terminator, with trailing space of the first string cleared. */
  function Loaded(file: string): (r: seq<char>)
    ensures |r| == |file| + 1
  {
    var kept, end := |PinOf(file)|, StrLen(file);
    file[..kept] + Zeros(end - kept) + file[end..] + [NUL]
  }

  /** memset(pin, 0, strlen(pin)) */
  function Wiped(bytes: seq<char>): (r: seq<char>)
    ensures |r| == |bytes|
  {
    Zeros(StrLen(bytes)) + bytes[StrLen(bytes)..]
  }

  predicate IsBlankMemory(bytes: seq<char>) { forall i :: 0 <= i < |bytes| ==> bytes[i] == NUL }

  lemma StrLenIs(bytes: seq<char>, n: nat)
    requires n <= |bytes| && (forall i :: 0 <= i < n ==> bytes[i] != NUL)
    requires n < |bytes| ==> bytes[n] == NUL
    ensures StrLen(bytes) == n
  {}

  /** The string in the buffer is the chomped text of the file up to its first NUL. */
  lemma LoadedHoldsPin(file: string)
    ensures StrLen(Loaded(file)) == |PinOf(file)| && CString(Loaded(file)) == PinOf(file)
  {
    var bytes, kept := Loaded(file), |PinOf(file)|;
    assert forall i :: 0 <= i < kept ==> bytes[i] == file[i];
    StrLenIs(bytes, kept);
  }

  /** Releasing leaves exactly what follows the first NUL of the file. */
  lemma ReleaseLeavesTail(file: string, i: nat)
    requires i < |file| + 1
    ensures Wiped(Loaded(file))[i] == if StrLen(file) <= i < |file| then file[i] else NUL
  {
    LoadedHoldsPin(file);
  }

  /** The released buffer is blank exactly when nothing but NULs follows the first NUL of the file. */
  lemma ReleaseIsCompleteExactly(file: string)
    ensures IsBlankMemory(Wiped(Loaded(file))) <==> IsBlankMemory(file[StrLen(file)..])
  {
    var w, tail := Wiped(Loaded(file)), file[StrLen(file)..];
    forall i: nat | i < |w|
      ensures w[i] == if StrLen(file) <= i < |file| then file[i] else NUL
    {
      ReleaseLeavesTail(file, i);
    }
    if IsBlankMemory(w) {
      forall i | 0 <= i < |tail|
        ensures tail[i] == NUL
      {
        assert tail[i] == file[StrLen(file) + i] == w[StrLen(file) + i];
      }
    }
    if IsBlankMemory(tail) {
      forall i | 0 <= i < |w|
        ensures w[i] == NUL
      {
        assert StrLen(file) <= i < |file| ==> file[i] == tail[i - StrLen(file)];
      }
    }
  }

  /** A file without NUL is wiped completely. */
  lemma PlainFilesAreWiped(file: string)
    requires NUL !in file
    ensures PinOf(file) == Chomped(file) && IsBlankMemory(Wiped(Loaded(file)))
  {
    StrLenIs(file, |file|);
    assert file[..|file|] == file;
    ReleaseIsCompleteExactly(file);
  }

  lemma FirstString(first: string, second: string)
    requires NUL !in first
    ensures var file := first + [NUL] + second; StrLen(file) == |first| && CString(file) == first
  {
    var file := first + [NUL] + second;
    assert file[|first|] == NUL && forall i :: 0 <= i < |first| ==> file[i] == first[i];
    StrLenIs(file, |first|);
  }

  /** A NUL inside a file ends its PIN, and what follows is freed as it was. */
  lemma TextAfterNulIsLeft(first: string, second: string)
    requires NUL !in first
    ensures var file := first + [NUL] + second;
      && PinOf(file) == Chomped(first)
      && Wiped(Loaded(file)) == Zeros(|first| + 1) + second + [NUL]
  {
    hide Loaded, Wiped, StrLen, CString;
    var file := first + [NUL] + second;
    FirstString(first, second);
    var w, z := Wiped(Loaded(file)), Zeros(|first| + 1) + second + [NUL];
    assert |w| == |z| by { WipedLength(file); }
    forall i: nat | i < |w|
      ensures w[i] == z[i]
    {
      ReleaseLeavesTail(file, i);
    }
  }

  lemma WipedLength(file: string)
    ensures |Wiped(Loaded(file))| == |file| + 1
  {}

  /** One such file. */
  lemma TailOfOneFileIsLeft()
    ensures PinOf("12" + [NUL] + "34") == "12"
    ensures Wiped(Loaded("12" + [NUL] + "34")) == Zeros(3) + "34" + [NUL]
  {
    TextAfterNulIsLeft("12", "34");
    assert !IsSpace("12"[1]);
  }

  class PinBuffer {
    var pin: array?<char>

    /** This and the allocation. */
    ghost function Objects(): set<object>
      reads this
    {
      if pin == null then {this} else {this, pin}
    }

    /** The PIN a caller sees. */
    function Contents(): (c: Option<string>)
      reads this, pin
    {
      if pin == null then None else Some(CString(pin[..]))
    }

    constructor ()
      ensures pin == null && Contents() == None
    {
      pin := null;
    }

    /** pkcs11_pin: the cached PIN wins; `file` is what reading the configured file would yield, if it can be read. */
    method Pin(file: Option<string>) returns (answer: Option<string>)
      modifies this
      ensures Contents() == answer
      ensures old(Contents()).Some? ==> answer == old(Contents()) && pin == old(pin)
      ensures old(Contents()).None? && file.None? ==> pin == null
      ensures old(Contents()).None? && file.Some? ==>
        pin != null && fresh(pin) && pin[..] == Loaded(file.value) && answer == Some(PinOf(file.value))
    {
      if pin != null {
        return Contents();
      }
      if file.None? {
        return None;
      }
      var text := file.value;
      var buffer := new char[|text| + 1](i requires 0 <= i < |text| + 1 => if i < |text| then text[i] else NUL);
      assert buffer[..] == text + [NUL];
      TerminatedLength(text);
      Chomp(buffer, text);
      pin := buffer;
      LoadedHoldsPin(text);
      return Contents();
    }

    /** pkcs11_release: the bytes of the string are overwritten before the buffer is given up. */
    method Release()
      modifies this, pin
      ensures Contents() == None && pin == null
      ensures old(pin) != null ==> old(pin)[..] == Wiped(old(pin[..]))
    {
      if pin == null {
        return;
      }
      var buffer := pin;
      ghost var bytes := buffer[..];
      var i := 0;
      while i < buffer.Length && buffer[i] != NUL
        modifies buffer
        invariant 0 <= i <= StrLen(bytes)
        invariant forall k :: 0 <= k < i ==> buffer[k] == NUL
        invariant forall k :: i <= k < buffer.Length ==> buffer[k] == bytes[k]
      {
        buffer[i] := NUL;
        i := i + 1;
      }
      assert i == StrLen(bytes);
      assert buffer[..] == Wiped(bytes);
      pin := null;
    }
  }

  lemma TerminatedLength(text: string)
    ensures StrLen(text + [NUL]) == StrLen(text)
  {
    StrLenIs(text + [NUL], StrLen(text));
  }

  /** Where the first string ends. */
  method StringEnd(buffer: array<char>, text: string) returns (end: nat)
    requires buffer[..] == text + [NUL]
    ensures end == StrLen(text)
  {
    end := 0;
    while buffer[end] != NUL
      invariant 0 <= end <= StrLen(text)
      decreases buffer.Length - end
    {
      end := end + 1;
    }
  }

  /** g_strchomp in place: trailing space of the first string becomes NUL. */
  method Chomp(buffer: array<char>, text: string)
    requires buffer[..] == text + [NUL]
    modifies buffer
    ensures buffer[..] == Loaded(text)
  {
    hide Loaded;
    var end := StringEnd(buffer, text);
    var length := end;
    while length > 0 && IsSpace(buffer[length - 1])
      invariant 0 <= length <= end == StrLen(text)
      invariant Chomped(text[..length]) == PinOf(text)
      invariant forall k :: 0 <= k < length ==> buffer[k] == text[k]
      invariant forall k :: length <= k < end ==> buffer[k] == NUL
      invariant forall k :: end <= k < buffer.Length ==> buffer[k] == (text + [NUL])[k]
    {
      assert text[..length][..length - 1] == text[..length - 1];
      buffer[length - 1] := NUL;
      length := length - 1;
    }
    assert Chomped(text[..length]) == text[..length];
    LoadedBytes(text, buffer[..]);
  }

  /** The loaded bytes, one by one. */
  lemma LoadedBytes(text: string, bytes: seq<char>)
    requires |bytes| == |text| + 1
    requires forall k :: 0 <= k < |PinOf(text)| ==> bytes[k] == text[k]
    requires forall k :: |PinOf(text)| <= k < StrLen(text) ==> bytes[k] == NUL
    requires forall k :: StrLen(text) <= k < |bytes| ==> bytes[k] == (text + [NUL])[k]
    ensures bytes == Loaded(text)
  {}
}

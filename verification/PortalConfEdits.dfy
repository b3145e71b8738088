/** What the two list editors of tools/lib.sh do to a flattened file and to the variable of experimental portals. */
module PortalConfEdits {
  import opened Text
  import opened Wrappers
  import opened PortalConf
  import opened PortalConfTheorems

  // ---------- xdp_conf_set ----------

  /** Setting a key again replaces what was set: no line for it is left behind. */
  lemma {:induction false} LinesWithoutAgain(lines: seq<string>, key: string)
    ensures LinesWithout(LinesWithout(lines, key), key) == LinesWithout(lines, key)
    ensures forall i :: 0 <= i < |LinesWithout(lines, key)| ==> !StartsWith(LinesWithout(lines, key)[i], key + "=")
    decreases |lines|
  {
    if lines != [] {
      LinesWithoutAgain(lines[1..], key);
      var rest := LinesWithout(lines[1..], key);
      assert ([lines[0]] + rest)[1..] == rest && [] + rest == rest;
    }
  }

  lemma {:induction false} LinesWithoutJoin(a: seq<string>, b: seq<string>, key: string)
    ensures LinesWithout(a + b, key) == LinesWithout(a, key) + LinesWithout(b, key)
    decreases |a|
  {
    if a == [] {
      assert a + b == b;
    } else {
      assert (a + b)[1..] == a[1..] + b;
      LinesWithoutJoin(a[1..], b, key);
    }
  }

  lemma SetTwice(lines: seq<string>, key: string, first: string, second: string)
    ensures ConfSet(ConfSet(lines, key, first), key, second) == ConfSet(lines, key, second)
  {
    hide LinesWithout;
    var line := key + "=" + first;
    LinesWithoutJoin(LinesWithout(lines, key), [line], key);
    LinesWithoutAgain(lines, key);
    OwnLineGoes(key, first);
    assert LinesWithout(lines, key) + [] == LinesWithout(lines, key);
  }

  lemma OwnLineGoes(key: string, value: string)
    ensures LinesWithout([key + "=" + value], key) == []
  {
    var line := key + "=" + value;
    assert line[..|key| + 1] == key + "=";
    var one := [line];
    assert one[1..] == [];
  }

  /** The lines of a generated file: a header, then assignments to plain keys. */
  ghost predicate IsAssignment(line: string) {
    ParseLine(line).Pair? && exists value :: line == ParseLine(line).key + "=" + value
  }

  // ---------- The lines of a flattened file ----------

  /** Each line is the one printed for the key it is read as. */
  ghost predicate ArePrinted(c: Conf, lines: seq<string>) {
    forall i :: 0 <= i < |lines| ==>
      IsAssignment(lines[i]) && KeyLine(c, ParseLine(lines[i]).key) == [lines[i]]
  }

  lemma KeyLineIsPrinted(c: Conf, key: string)
    requires PlainKey(key)
    ensures ArePrinted(c, KeyLine(c, key))
  {
    hide ParseLine, Resolve, Shown;
    var shown := Shown(Resolve(c, key));
    if shown != "" {
      ResolvedEntries(c, key);
      ShownPieces(Resolve(c, key));
      ParsePrintedLine(key, shown);
      assert key + "=" + shown + ";" == key + "=" + (shown + ";");
    }
  }

  lemma {:induction false} KeyLinesArePrinted(c: Conf, keys: seq<string>)
    requires forall i :: 0 <= i < |keys| ==> PlainKey(keys[i])
    ensures ArePrinted(c, KeyLines(c, keys))
    decreases |keys|
  {
    hide KeyLine, IsAssignment;
    if keys != [] {
      KeyLineIsPrinted(c, keys[0]);
      KeyLinesArePrinted(c, keys[1..]);
    }
  }

  /** The body of the flattened file. */
  function Body(c: Conf): seq<string> { KeyLines(c, c.keys) + KeyLine(c, "default") }

  lemma BodyIsPrinted(files: seq<seq<string>>)
    ensures ArePrinted(ReadAll(files), Body(ReadAll(files)))
    ensures Printed(ReadAll(files)) == ["[preferred]"] + Body(ReadAll(files))
  {
    hide ReadAll, KeyLine, IsAssignment;
    var c := ReadAll(files);
    ReadAllWell(files);
    DefaultIsPlain();
    KeyLinesArePrinted(c, c.keys);
    KeyLineIsPrinted(c, "default");
  }

  // ---------- Removing lines ----------

  /** The printed line of `other` starts with `key=`, or there is none. */
  predicate IsUnset(c: Conf, key: string, other: string) { LinesWithout(KeyLine(c, other), key) == [] }

  lemma OneLine(line: string, key: string)
    ensures LinesWithout([line], key) == if StartsWith(line, key + "=") then [] else [line]
  {
    var one := [line];
    assert one[1..] == [];
  }

  lemma FirstLine(lines: seq<string>, key: string)
    requires lines != []
    ensures var rest := LinesWithout(lines[1..], key);
      LinesWithout(lines, key) == if StartsWith(lines[0], key + "=") then rest else [lines[0]] + rest
  {}

  /** The removed lines say nothing about a key whose own line stays. */
  lemma {:induction false} ReadKept(c: Conf, base: Conf, d: Conf, lines: seq<string>, key: string, other: string)
    requires ArePrinted(c, lines) && !IsUnset(c, key, other)
    requires base.nf == d.nf && Lookup(base, base.nf, other) == Lookup(d, d.nf, other)
    ensures var full, cut := ReadLines(base, "preferred", lines), ReadLines(d, "preferred", LinesWithout(lines, key));
      full.nf == cut.nf == base.nf && Lookup(full, base.nf, other) == Lookup(cut, base.nf, other)
    decreases |lines|
  {
    hide ParseLine, KeyLine;
    if lines != [] {
      var p := ParseLine(lines[0]);
      var base' := Record(base, p.key, p.value);
      var rest := LinesWithout(lines[1..], key);
      FirstLine(lines, key);
      if StartsWith(lines[0], key + "=") {
        OneLine(lines[0], key);
        ReadKept(c, base', d, lines[1..], key, other);
      } else {
        assert ([lines[0]] + rest)[1..] == rest;
        ReadKept(c, base', Record(d, p.key, p.value), lines[1..], key, other);
      }
    }
  }

  /** Nothing that is left speaks of a key whose own line was removed. */
  lemma {:induction false} ReadRemoved(c: Conf, d: Conf, lines: seq<string>, key: string, other: string)
    requires ArePrinted(c, lines) && IsUnset(c, key, other)
    ensures var cut := ReadLines(d, "preferred", LinesWithout(lines, key));
      cut.nf == d.nf && Lookup(cut, d.nf, other) == Lookup(d, d.nf, other)
    decreases |lines|
  {
    hide ParseLine, KeyLine;
    if lines != [] {
      var p := ParseLine(lines[0]);
      var rest := LinesWithout(lines[1..], key);
      FirstLine(lines, key);
      OneLine(lines[0], key);
      if StartsWith(lines[0], key + "=") {
        ReadRemoved(c, d, lines[1..], key, other);
      } else {
        assert ([lines[0]] + rest)[1..] == rest;
        ReadRemoved(c, Record(d, p.key, p.value), lines[1..], key, other);
      }
    }
  }

  lemma {:induction false} WithoutAreReadable(lines: seq<string>, key: string)
    requires forall i :: 0 <= i < |lines| ==> ParseLine(lines[i]).Pair?
    ensures forall i :: 0 <= i < |LinesWithout(lines, key)| ==> ParseLine(LinesWithout(lines, key)[i]).Pair?
    decreases |lines|
  {
    hide ParseLine;
    if lines != [] {
      WithoutAreReadable(lines[1..], key);
    }
  }

  lemma PrintedAreReadable(c: Conf, lines: seq<string>)
    requires ArePrinted(c, lines)
    ensures forall i :: 0 <= i < |lines| ==> ParseLine(lines[i]).Pair?
  {
    hide ParseLine, KeyLine;
  }

  lemma HeaderIsNoAssignment(key: string)
    ensures !StartsWith("[preferred]", key + "=")
  {
    assert '=' !in "[preferred]";
    assert (key + "=")[|key|] == '=';
  }

  /** The header has no equals sign, so no key removes it. */
  lemma HeaderStays(body: seq<string>, key: string)
    ensures LinesWithout(["[preferred]"] + body, key) == ["[preferred]"] + LinesWithout(body, key)
  {
    hide StartsWith;
    HeaderIsNoAssignment(key);
    var lines := ["[preferred]"] + body;
    assert lines[1..] == body;
  }

  /** A body of assignments is read part by part. */
  lemma {:induction false} ReadJoin(c: Conf, a: seq<string>, b: seq<string>)
    requires forall i :: 0 <= i < |a| ==> ParseLine(a[i]).Pair?
    ensures ReadLines(c, "preferred", a + b) == ReadLines(ReadLines(c, "preferred", a), "preferred", b)
    decreases |a|
  {
    hide ParseLine;
    if a == [] {
      assert a + b == b;
    } else {
      assert (a + b)[1..] == a[1..] + b;
      var p := ParseLine(a[0]);
      ReadJoin(Record(c, p.key, p.value), a[1..], b);
    }
  }

  /** What a value says; the sentinel says nothing. */
  function Said(value: string): Option<string> { if value == NOKEY then None else Some(value) }

  lemma ReadLast(c: Conf, line: string, other: string)
    ensures var r := ReadLines(c, "preferred", [line]); var p := ParseLine(line);
      Lookup(r, c.nf, other) == if p.Pair? && p.key == other then Said(p.value) else Lookup(c, c.nf, other)
  {
    hide ParseLine;
    var one := [line];
    assert one[1..] == [];
    match ParseLine(line)
    case Ignored => ReadNothing(c);
    case Section(name) => assert ReadLines(c, name, []) == c;
    case Pair(k, v) => ReadNothing(Record(c, k, v));
  }

  lemma ReadSet(c: Conf, body: seq<string>, key: string, value: string, other: string)
    requires ArePrinted(c, body)
    ensures var r := ReadAll([ConfSet(["[preferred]"] + body, key, value)]);
      var p := ParseLine(key + "=" + value);
      Lookup(r, 1, other) ==
        if p.Pair? && p.key == other then Said(p.value)
        else if IsUnset(c, key, other) then None
        else Lookup(ReadAll([["[preferred]"] + body]), 1, other)
  {
    hide ReadAll, ReadLines, ParseLine, IsAssignment, IsUnset;
    var start := Conf(1, map[], []);
    var rest := LinesWithout(body, key);
    var last := [key + "=" + value];
    HeaderStays(body, key);
    assert ConfSet(["[preferred]"] + body, key, value) == ["[preferred]"] + (rest + last);
    ReadHeader(rest + last);
    ReadHeader(body);
    PrintedAreReadable(c, body);
    WithoutAreReadable(body, key);
    ReadJoin(start, rest, last);
    var middle := ReadLines(start, "preferred", rest);
    if IsUnset(c, key, other) {
      ReadRemoved(c, start, body, key, other);
    } else {
      ReadKept(c, start, start, body, key, other);
    }
    ReadLast(middle, key + "=" + value, other);
  }

  /**
    What a flattened file says after any setting of any key: the new line decides
    for the key it is read as; a key whose line started with the set one is gone;
    every other key is as it was.
   */
  lemma SetOnFlattened(files: seq<seq<string>>, key: string, value: string, other: string)
    ensures var c := ReadAll(files); var file := Printed(c); var p := ParseLine(key + "=" + value);
      Lookup(ReadAll([ConfSet(file, key, value)]), 1, other) ==
        if p.Pair? && p.key == other then Said(p.value)
        else if IsUnset(c, key, other) then None
        else Lookup(ReadAll([file]), 1, other)
  {
    hide ReadAll, Body, ArePrinted, ParseLine, IsUnset;
    BodyIsPrinted(files);
    ReadSet(ReadAll(files), Body(ReadAll(files)), key, value, other);
  }

  /** The line `key=value` reads as a section header. */
  predicate LooksLikeSection(key: string, value: string) {
    key != "" && key[0] == '[' && Trim(value) != "" && Trim(value)[|Trim(value)| - 1] == ']'
  }

  lemma TrimEnds(value: string)
    ensures Trim(value) == "" <==> TrimRight(value) == ""
    ensures Trim(value) != "" ==> Trim(value)[|Trim(value)| - 1] == TrimRight(value)[|TrimRight(value)| - 1]
  {
    TrimOfTrimRight(value);
    var t := TrimRight(value);
    TrimRightIs(value);
    TrimLeftIs(t);
    TrimRightIs(TrimLeft(t));
    if t != "" {
      LastStays(t);
    }
  }

  /** A text that ends in something keeps its end. */
  lemma {:induction false} LastStays(t: string)
    requires t != "" && !IsBlank(t[|t| - 1])
    ensures TrimLeft(t) != "" && TrimLeft(t)[|TrimLeft(t)| - 1] == t[|t| - 1]
    ensures TrimRight(TrimLeft(t)) == TrimLeft(t)
    decreases |t|
  {
    if IsBlank(t[0]) {
      LastStays(t[1..]);
    }
  }

  lemma ParseNewLine(key: string, value: string)
    requires PlainKey(key)
    ensures var p := ParseLine(key + "=" + value);
      if LooksLikeSection(key, value) then p.Section? else p == Pair(key, Trim(value))
  {
    hide TrimLeft, TrimRight;
    TrimEnds(value);
    TrimAssignment(key, value);
    TrimOfTrimRight(value);
    var line := key + "=" + TrimRight(value);
    if LooksLikeSection(key, value) {
      assert line[|line| - 1] == TrimRight(value)[|TrimRight(value)| - 1];
      assert line[0] == key[0];
    } else {
      hide ParseLine;
      ParseTrimmed(key + "=" + value, key, TrimRight(value));
    }
  }

  lemma OwnLineIsUnset(c: Conf, key: string)
    ensures IsUnset(c, key, key)
  {
    hide Resolve, Shown;
    var shown := Shown(Resolve(c, key));
    if shown != "" {
      OwnLineGoes(key, shown + ";");
      assert key + "=" + (shown + ";") == key + "=" + shown + ";";
    }
  }

  /** A setting is read back exactly when its line is an assignment to that key and its value is not the sentinel. */
  lemma SetTakesEffectExactly(files: seq<seq<string>>, key: string, value: string)
    ensures Lookup(ReadAll([ConfSet(Printed(ReadAll(files)), key, value)]), 1, key) ==
      if PlainKey(key) && !LooksLikeSection(key, value) && Trim(value) != NOKEY then Some(Trim(value)) else None
  {
    hide ReadAll, Printed, ConfSet, ParseLine, Trim, IsUnset, LooksLikeSection, PlainKey;
    if PlainKey(key) {
      SetOnFlattened(files, key, value, key);
      ParseNewLine(key, value);
      OwnLineIsUnset(ReadAll(files), key);
    } else {
      OnlyPlainKeysAreSet([ConfSet(Printed(ReadAll(files)), key, value)], 1, key);
    }
  }

  lemma OnlyPlainKeysAreSet(files: seq<seq<string>>, i: nat, key: string)
    requires !PlainKey(key)
    ensures Lookup(ReadAll(files), i, key).None?
  {
    hide ReadAll, PlainKey;
    ReadAllWell(files);
  }

  /** Setting a plain key leaves every other key of a flattened file as it was. */
  lemma OthersAreKept(files: seq<seq<string>>, key: string, value: string, other: string)
    requires PlainKey(key) && other != key
    ensures Lookup(ReadAll([ConfSet(Printed(ReadAll(files)), key, value)]), 1, other) ==
      Lookup(ReadAll([Printed(ReadAll(files))]), 1, other)
  {
    hide ReadAll, Printed, ConfSet, ParseLine, Trim, IsUnset, LooksLikeSection;
    SetOnFlattened(files, key, value, other);
    ParseNewLine(key, value);
    if IsUnset(ReadAll(files), key, other) {
      NothingPrinted(files, key, other);
    }
  }

  /** A plain key removes no line but its own. */
  lemma NothingPrinted(files: seq<seq<string>>, key: string, other: string)
    requires PlainKey(key) && other != key && IsUnset(ReadAll(files), key, other)
    ensures Lookup(ReadAll([Printed(ReadAll(files))]), 1, other).None?
  {
    hide ReadAll, Printed, ReadLines, Body, ArePrinted;
    var c := ReadAll(files);
    BodyIsPrinted(files);
    ReadHeader(Body(c));
    if PlainKey(other) {
      OtherLineStays(c, key, other);
      ReadUnprinted(c, Conf(1, map[], []), Body(c), other);
    } else {
      OnlyPlainKeysAreSet([Printed(c)], 1, other);
    }
  }

  lemma OtherLineStays(c: Conf, key: string, other: string)
    requires PlainKey(key) && PlainKey(other) && other != key
    ensures LinesWithout(KeyLine(c, other), key) == KeyLine(c, other)
  {
    hide Resolve, Shown;
    var shown := Shown(Resolve(c, other));
    if shown != "" {
      var line := other + "=" + shown + ";";
      OneLine(line, key);
      if StartsWith(line, key + "=") {
        SpanIs(line, {'='}, |other|);
        assert line[..|key| + 1][|key|] == '=' && line[..|key| + 1][..|key|] == key;
        SpanIs(line, {'='}, |key|);
      }
    }
  }

  lemma {:induction false} ReadUnprinted(c: Conf, d: Conf, lines: seq<string>, other: string)
    requires ArePrinted(c, lines) && KeyLine(c, other) == []
    ensures var r := ReadLines(d, "preferred", lines); r.nf == d.nf && Lookup(r, d.nf, other) == Lookup(d, d.nf, other)
    decreases |lines|
  {
    hide ParseLine, KeyLine;
    if lines != [] {
      var p := ParseLine(lines[0]);
      ReadUnprinted(c, Record(d, p.key, p.value), lines[1..], other);
    }
  }

  // ---------- xdp_experimental_portals ----------

  /** `part` stands somewhere in `whole`, without gaps. */
  ghost predicate IsRun(part: seq<string>, whole: seq<string>) {
    exists k: nat :: RunsAt(part, whole, k)
  }

  predicate RunsAt(part: seq<string>, whole: seq<string>, k: nat) {
    k + |part| <= |whole| && whole[k..k + |part|] == part
  }

  lemma SamePrefix(p: string, a: string, b: string)
    requires StartsWith(a, b)
    ensures StartsWith(p + a, p + b)
  {
    assert (p + a)[..|p + b|] == p + a[..|b|];
  }

  lemma StartsLater(p: string, inner: string, j: nat, part: string)
    requires j <= |inner| && StartsWith(inner[j..], part)
    ensures StartsWith((p + inner)[|p| + j..], part)
  {
    assert (p + inner)[|p| + j..] == inner[j..];
  }

  lemma CutAtComma(s: string, n: nat)
    requires n < |s| && s[n] == ','
    ensures s == s[..n] + "," + s[n + 1..]
  {}

  /** The text is one piece, or a first piece, a comma and the rest. */
  lemma FirstPiece(s: string) returns (word: string, rest: string)
    ensures Split(s, ',')[0] == word
    ensures |Split(s, ',')| == 1 ==> s == word
    ensures |Split(s, ',')| > 1 ==> s == word + "," + rest && Split(s, ',')[1..] == Split(rest, ',')
  {
    var n := Span(s, {','});
    word := s[..n];
    if n < |s| {
      rest := s[n + 1..];
      CutAtComma(s, n);
    } else {
      rest := "";
    }
  }

  lemma CommaAfter(word: string, rest: string)
    ensures word + "," + rest + "," == word + "," + (rest + ",")
    ensures StartsWith(word + "," + (rest + ","), word + ",") && StartsWith(word + ",", word + ",")
  {
    var whole := word + "," + (rest + ",");
    assert whole[..|word| + 1] == word + ",";
  }

  /** The pieces of a name that stand first in the text are a prefix of it, up to a comma. */
  lemma {:induction false} FirstPieces(enabled: string, name: string)
    requires Split(name, ',') <= Split(enabled, ',')
    ensures StartsWith(enabled + ",", name + ",")
    decreases |name|
  {
    hide Split, StartsWith;
    var word, more := FirstPiece(enabled);
    var own, rest := FirstPiece(name);
    assert own == word;
    CommaAfter(word, more);
    if |Split(name, ',')| > 1 {
      CommaAfter(own, rest);
      assert Split(name, ',')[1..] <= Split(enabled, ',')[1..];
      FirstPieces(more, rest);
      SamePrefix(word + ",", more + ",", rest + ",");
    }
  }

  lemma {:induction false} RunOccurs(s: string, name: string, k: nat) returns (i: nat)
    requires RunsAt(Split(name, ','), Split(s, ','), k)
    ensures i <= |"," + s + ","| && StartsWith(("," + s + ",")[i..], "," + name + ",")
    decreases k
  {
    hide Split, StartsWith;
    var whole, part := "," + s + ",", "," + name + ",";
    if k == 0 {
      i := 0;
      FirstPieces(s, name);
      SamePrefix(",", s + ",", name + ",");
      assert whole[0..] == "," + (s + ",") && part == "," + (name + ",");
    } else {
      var word, rest := FirstPiece(s);
      var inner := "," + rest + ",";
      RunsLater(Split(name, ','), Split(s, ','), k);
      var j := RunOccurs(rest, name, k - 1);
      i := |"," + word| + j;
      StartsLater("," + word, inner, j, part);
      assert whole == "," + word + inner;
    }
  }

  lemma RunsLater(part: seq<string>, whole: seq<string>, k: nat)
    requires k > 0 && part != [] && RunsAt(part, whole, k)
    ensures |whole| > 1 && RunsAt(part, whole[1..], k - 1)
  {
    assert whole[1..][k - 1..k - 1 + |part|] == whole[k..k + |part|];
  }

  lemma RunInside(e: seq<string>, a: seq<string>, b: seq<string>, c: seq<string>)
    requires [""] + (e + [""]) == a + (b + c) && a != [] && c != []
    ensures RunsAt(b, e, |a| - 1)
  {
    var pieces := [""] + (e + [""]);
    assert pieces[|a|..|a| + |b|] == b;
    assert e[|a| - 1..|a| - 1 + |b|] == pieces[|a|..|a| + |b|];
  }

  lemma RunInPieces(enabled: string, name: string, pre: string, post: string)
    requires "," + enabled + "," == pre + [','] + (name + [','] + post)
    ensures RunsAt(Split(name, ','), Split(enabled, ','), |Split(pre, ',')| - 1)
  {
    hide Split, RunsAt;
    PaddedPieces(enabled);
    SplitConcat(pre, ',', name + [','] + post);
    SplitConcat(name, ',', post);
    RunInside(Split(enabled, ','), Split(pre, ','), Split(name, ','), Split(post, ','));
  }

  lemma PaddedPieces(enabled: string)
    ensures Split("," + enabled + ",", ',') == [""] + (Split(enabled, ',') + [""])
  {
    hide Split;
    SplitFirst("", ',', enabled + ",");
    assert "" + [','] + (enabled + ",") == "," + enabled + ",";
    SplitConcat(enabled, ',', "");
    assert enabled + [','] + "" == enabled + ",";
    SplitWord("", ',');
  }

  /** The shell pattern finds a name exactly when its pieces stand together in the variable. */
  lemma EnabledMeansListed(enabled: string, name: string)
    ensures IsEnabled(enabled, name) <==> IsRun(Split(name, ','), Split(enabled, ','))
  {
    hide Split, RunsAt;
    var whole, part := "," + enabled + ",", "," + name + ",";
    if IsEnabled(enabled, name) {
      var i :| 0 <= i <= |whole| && StartsWith(whole[i..], part);
      var pre, post := whole[..i], whole[i..][|part|..];
      assert whole == pre + [','] + (name + [','] + post);
      RunInPieces(enabled, name, pre, post);
    }
    if k: nat :| RunsAt(Split(name, ','), Split(enabled, ','), k) {
      var i := RunOccurs(enabled, name, k);
      assert StartsWith(whole[i..], part);
    }
  }

  /** For one plain name: exactly when it is one of the names between the commas. */
  lemma PlainNameIsOnePiece(enabled: string, name: string)
    requires ',' !in name
    ensures IsEnabled(enabled, name) <==> name in Split(enabled, ',')
  {
    hide Split;
    EnabledMeansListed(enabled, name);
    SplitWord(name, ',');
    var pieces := Split(enabled, ',');
    if k: nat :| RunsAt([name], pieces, k) {
      assert pieces[k..k + 1][0] == pieces[k];
    }
    if name in pieces {
      var k :| 0 <= k < |pieces| && pieces[k] == name;
      assert RunsAt([name], pieces, k);
    }
  }

  /** The pieces of the variable, with the pieces of each name it lacks appended; an empty variable is replaced. */
  ghost function AddRuns(pieces: seq<string>, names: seq<string>): seq<string>
    decreases |names|
  {
    if names == [] then pieces
    else
      var name := Split(names[0], ',');
      AddRuns(if IsRun(name, pieces) then pieces else if pieces == [""] then name else pieces + name, names[1..])
  }

  lemma EmptyHasOnePiece(s: string)
    ensures s == "" <==> Split(s, ',') == [""]
  {}

  lemma NameIsAdded(enabled: string, name: string)
    ensures var pieces, added := Split(enabled, ','), Split(name, ',');
      Split(WithName(enabled, name), ',') ==
        if IsRun(added, pieces) then pieces else if pieces == [""] then added else pieces + added
  {
    hide Split, IsEnabled, IsRun;
    EnabledMeansListed(enabled, name);
    EmptyHasOnePiece(enabled);
    SplitConcat(enabled, ',', name);
    assert enabled + [','] + name == enabled + "," + name;
  }

  /** Whatever the names hold, the variable's pieces are kept in order and each missing name is appended once. */
  lemma {:induction false} NamesAreAdded(enabled: string, names: seq<string>)
    ensures Split(WithNames(enabled, names), ',') == AddRuns(Split(enabled, ','), names)
    decreases |names|
  {
    hide Split, WithName, IsRun;
    if names != [] {
      NameIsAdded(enabled, names[0]);
      NamesAreAdded(WithName(enabled, names[0]), names[1..]);
    }
  }

  lemma RunStays(part: seq<string>, pieces: seq<string>, more: seq<string>)
    requires IsRun(part, pieces) && pieces <= more
    ensures IsRun(part, more)
  {
    var k: nat :| RunsAt(part, pieces, k);
    assert more[k..k + |part|] == pieces[k..k + |part|];
    assert RunsAt(part, more, k);
  }

  lemma {:induction false} NamesAreKept(enabled: string, names: seq<string>)
    requires enabled != ""
    ensures Split(enabled, ',') <= Split(WithNames(enabled, names), ',')
    decreases |names|
  {
    hide Split, IsRun, IsEnabled;
    if names != [] {
      NameIsAdded(enabled, names[0]);
      EmptyHasOnePiece(enabled);
      NamesAreKept(WithName(enabled, names[0]), names[1..]);
    }
  }

  /** What was enabled stays enabled, and every name asked for is. */
  lemma {:induction false} NamesAreEnabled(enabled: string, names: seq<string>, name: string)
    requires name != "" && (name in names || IsEnabled(enabled, name))
    ensures IsEnabled(WithNames(enabled, names), name)
    decreases |names|
  {
    hide IsEnabled, Split, IsRun;
    if names != [] {
      NameIsEnabled(enabled, names[0], name);
      NamesAreEnabled(WithName(enabled, names[0]), names[1..], name);
    }
  }

  lemma NameIsEnabled(enabled: string, added: string, name: string)
    requires name != ""
    ensures name == added || IsEnabled(enabled, name) ==> IsEnabled(WithName(enabled, added), name)
  {
    hide IsEnabled, Split, IsRun;
    var pieces := Split(enabled, ',');
    EnabledMeansListed(enabled, name);
    EnabledMeansListed(WithName(enabled, added), name);
    NameIsAdded(enabled, added);
    if pieces == [""] {
      EmptyEnablesNothing(enabled, name);
    }
    RunAtEnd(Split(added, ','), pieces);
    if IsRun(Split(name, ','), pieces) {
      RunStays(Split(name, ','), pieces, pieces + Split(added, ','));
    }
  }

  lemma RunAtEnd(part: seq<string>, pieces: seq<string>)
    ensures IsRun(part, pieces + part) && IsRun(part, part)
  {
    assert RunsAt(part, pieces + part, |pieces|);
    assert RunsAt(part, part, 0);
  }

  lemma EmptyEnablesNothing(enabled: string, name: string)
    requires name != "" && Split(enabled, ',') == [""]
    ensures !IsRun(Split(name, ','), Split(enabled, ','))
  {
    EmptyHasOnePiece(name);
  }
}

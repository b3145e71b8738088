/**
  What a chain of files says, told on the lines of each file alone: the files are
  kept apart, and the flattened file follows from them in order.
 */
module PortalConfChain {
  import opened Text
  import opened Wrappers
  import opened PortalConf
  import opened PortalConfTheorems

  // ---------- What a line says ----------

  predicate IsBlankText(s: string) { forall i :: 0 <= i < |s| ==> s[i] == ' ' || s[i] == '\t' }

  lemma {:induction false} LeftBlanksGo(l: string, s: string)
    requires IsBlankText(l)
    ensures TrimLeft(l + s) == TrimLeft(s)
    decreases |l|
  {
    if l == "" {
      assert l + s == s;
    } else {
      assert (l + s)[1..] == l[1..] + s;
      LeftBlanksGo(l[1..], s);
    }
  }

  lemma {:induction false} RightBlanksGo(s: string, r: string)
    requires IsBlankText(r) && (s != "" ==> !IsBlank(s[|s| - 1]))
    ensures TrimRight(s + r) == s
    decreases |r|
  {
    if r == "" {
      assert s + r == s;
    } else {
      assert (s + r)[..|s + r| - 1] == s + r[..|r| - 1];
      RightBlanksGo(s, r[..|r| - 1]);
    }
  }

  /** Trimming removes exactly the blanks at both ends. */
  lemma TrimExactly(l: string, s: string, r: string)
    requires IsBlankText(l) && IsBlankText(r) && Trimmed(s)
    ensures Trim(l + s + r) == s
  {
    hide TrimRight;
    assert l + s + r == l + (s + r);
    LeftBlanksGo(l, s + r);
    if s == "" {
      assert s + r == r + "";
      LeftBlanksGo(r, "");
      RightBlanksGo("", "");
      assert "" + "" == "";
    } else {
      RightBlanksGo(s, r);
    }
  }

  lemma BlankLineIsIgnored(raw: string)
    requires IsBlankText(raw)
    ensures ParseLine(raw) == Ignored
  {
    TrimExactly(raw, "", "");
    assert raw + "" + "" == raw;
  }

  /** A comment is a line whose first character behind blanks is a hash or a semicolon. */
  lemma CommentIsIgnored(l: string, mark: char, text: string, r: string)
    requires IsBlankText(l) && IsBlankText(r) && (mark == '#' || mark == ';') && Trimmed([mark] + text)
    ensures ParseLine(l + ([mark] + text) + r) == Ignored
  {
    hide Trim;
    TrimExactly(l, [mark] + text, r);
  }

  /** A header is a line in brackets. */
  lemma HeaderNamesSection(l: string, name: string, r: string)
    requires IsBlankText(l) && IsBlankText(r)
    ensures ParseLine(l + ("[" + name + "]") + r) == Section(name)
  {
    hide Trim;
    var line := "[" + name + "]";
    TrimExactly(l, line, r);
    assert line[1..|line| - 1] == name;
  }

  lemma AssignmentIsRead(line: string, before: string, after: string, key: string, value: string)
    requires line == before + "=" + after && Trimmed(line) && '=' !in before
    requires line[0] != '#' && line[0] != ';' && !(line[0] == '[' && line[|line| - 1] == ']')
    requires Trim(before) == key && Trim(after) == value
    ensures forall raw :: Trim(raw) == line ==> ParseLine(raw) == Pair(key, value)
  {
    hide Trim;
    SpanIs(line, {'='}, |before|);
    assert line[..|before|] == before && line[|before| + 1..] == after;
  }

  /** Any other line with an equals sign assigns what is behind the first one to what is before it, both trimmed. */
  lemma AssignmentSetsKey(l: string, key: string, m: string, n: string, value: string, r: string)
    requires IsBlankText(l) && IsBlankText(m) && IsBlankText(n) && IsBlankText(r)
    requires PlainKey(key) && Trimmed(value) && (key == "" ==> m == "") && (value == "" ==> n == "")
    requires key != "" && key[0] == '[' && value != "" ==> value[|value| - 1] != ']'
    ensures ParseLine(l + (key + m + "=" + (n + value)) + r) == Pair(key, value)
  {
    hide Trim, ParseLine;
    var before, after := key + m, n + value;
    var line := before + "=" + after;
    AssignmentEnds(key, m, n, value);
    TrimExactly(l, line, r);
    TrimExactly("", key, m);
    TrimExactly(n, value, "");
    assert "" + key + m == before && n + value + "" == after;
    AssignmentIsRead(line, before, after, key, value);
  }

  lemma AssignmentEnds(key: string, m: string, n: string, value: string)
    requires IsBlankText(m) && IsBlankText(n) && PlainKey(key) && Trimmed(value)
    requires (key == "" ==> m == "") && (value == "" ==> n == "")
    ensures var line := key + m + "=" + (n + value);
      && line[0] == (if key != "" then key[0] else '=')
      && line[|line| - 1] == (if value != "" then value[|value| - 1] else '=')
      && Trimmed(line) && '=' !in key + m
  {}

  lemma NoAssignmentIsIgnored(raw: string)
    requires '=' !in raw
    ensures !ParseLine(raw).Pair?
  {
    hide Trim;
    var line := Trim(raw);
    TrimIs(raw);
    assert forall i :: 0 <= i < |line| ==> line[i] in raw;
  }

  // ---------- What a list says ----------

  predicate IsEntry(value: string, e: string) {
    exists k :: 0 <= k < |Split(value, ';')| && Trim(Split(value, ';')[k]) == e
  }

  lemma {:induction false} ItemsExactly(pieces: seq<string>, e: string)
    ensures e in Items(pieces) <==>
      e != "" && e != "none" && exists k :: 0 <= k < |pieces| && Trim(pieces[k]) == e
    decreases |pieces|
  {
    hide Trim;
    if pieces != [] {
      ItemsExactly(pieces[1..], e);
      if k :| 0 <= k < |pieces| && Trim(pieces[k]) == e {
        assert k > 0 ==> pieces[1..][k - 1] == pieces[k];
      }
      if k :| 0 <= k < |pieces[1..]| && Trim(pieces[1..][k]) == e {
        assert pieces[k + 1] == pieces[1..][k];
      }
    }
  }

  /** A list offers its entries between semicolons, trimmed, but neither empty ones nor `none`. */
  lemma ListOffersExactly(value: string, e: string)
    ensures e in ListItems(value) <==> e != "" && e != "none" && IsEntry(value, e)
  {
    ItemsExactly(Split(value, ';'), e);
  }

  /** And stops its key exactly when `none` is one of them, wherever and with whatever blanks around it. */
  lemma NoneStops(before: string, l: string, r: string, after: string)
    requires IsBlankText(l) && IsBlankText(r)
    ensures HasNone(before + [';'] + (l + "none" + r + [';'] + after))
  {
    hide Split, Trim;
    var entry := l + "none" + r;
    TrimExactly(l, "none", r);
    SplitConcat(before, ';', entry + [';'] + after);
    SplitFirst(entry, ';', after);
    var pieces := Split(before + [';'] + (entry + [';'] + after), ';');
    assert pieces == Split(before, ';') + ([entry] + Split(after, ';'));
    assert pieces[|Split(before, ';')|] == entry;
  }

  // ---------- What a file says ----------

  /** The section that line k stands in: the latest header before it. */
  function SectionOf(lines: seq<string>, k: nat): string
    requires k <= |lines|
  {
    if k == 0 then ""
    else match ParseLine(lines[k - 1]) case Section(name) => name case _ => SectionOf(lines, k - 1)
  }

  /** Line k assigns to a key in a `[preferred]` section. */
  predicate Assigns(lines: seq<string>, k: nat, key: string) {
    k < |lines| && ParseLine(lines[k]).Pair? && ParseLine(lines[k]).key == key && SectionOf(lines, k) == "preferred"
  }

  /** What the last such line among the first n assigns. */
  function LastAssigned(lines: seq<string>, n: nat, key: string): Option<string>
    requires n <= |lines|
  {
    if n == 0 then None
    else if Assigns(lines, n - 1, key) then Some(ParseLine(lines[n - 1]).value)
    else LastAssigned(lines, n - 1, key)
  }

  /** What the file says of the key, told by the line that says it. */
  lemma {:induction false} LastAssignedIs(lines: seq<string>, n: nat, key: string)
    requires n <= |lines|
    ensures LastAssigned(lines, n, key).None? <==> forall k: nat :: k < n ==> !Assigns(lines, k, key)
    ensures forall k: nat :: k < n && Assigns(lines, k, key) && (forall j: nat :: k < j < n ==> !Assigns(lines, j, key)) ==>
      LastAssigned(lines, n, key) == Some(ParseLine(lines[k]).value)
    decreases n
  {
    hide Assigns;
    if n > 0 {
      LastAssignedIs(lines, n - 1, key);
    }
  }

  function FileSays(lines: seq<string>, key: string): Option<string> { LastAssigned(lines, |lines|, key) }

  /** The keys the first n lines assign to, in order. */
  function KeysAssigned(lines: seq<string>, n: nat): seq<string>
    requires n <= |lines|
  {
    if n == 0 then []
    else
      KeysAssigned(lines, n - 1)
      + if ParseLine(lines[n - 1]).Pair? && SectionOf(lines, n - 1) == "preferred" then [ParseLine(lines[n - 1]).key] else []
  }

  // ---------- Reading one file ----------

  function ReadLine(c: Conf, section: string, line: string): Conf {
    match ParseLine(line)
    case Pair(key, value) => if section == "preferred" then Record(c, key, value) else c
    case _ => c
  }

  function SectionFrom(section: string, lines: seq<string>): string
    decreases |lines|
  {
    if lines == [] then section
    else match ParseLine(lines[|lines| - 1]) case Section(name) => name case _ => SectionFrom(section, lines[..|lines| - 1])
  }

  lemma {:induction false} SectionFromNext(section: string, lines: seq<string>)
    requires lines != []
    ensures SectionFrom(section, lines) ==
      SectionFrom(match ParseLine(lines[0]) case Section(name) => name case _ => section, lines[1..])
    decreases |lines|
  {
    hide ParseLine;
    if |lines| > 1 {
      var front := lines[..|lines| - 1];
      assert lines[1..][..|lines| - 2] == front[1..] && lines[1..][|lines| - 2] == lines[|lines| - 1];
      SectionFromNext(section, front);
    } else {
      assert lines[..0] == [] && lines[1..] == [];
    }
  }

  /** Reading goes line by line: the last one is read in the section the others lead to. */
  lemma {:induction false} ReadLast(c: Conf, section: string, lines: seq<string>, line: string)
    ensures ReadLines(c, section, lines + [line]) ==
      ReadLine(ReadLines(c, section, lines), SectionFrom(section, lines), line)
    decreases |lines|
  {
    hide ParseLine, Record;
    if lines == [] {
      assert ([] + [line])[1..] == [] && [] + [line] == [line];
      ReadNone(c, section, line);
    } else {
      assert (lines + [line])[1..] == lines[1..] + [line];
      SectionFromNext(section, lines);
      match ParseLine(lines[0])
      case Ignored => ReadLast(c, section, lines[1..], line);
      case Section(name) => ReadLast(c, name, lines[1..], line);
      case Pair(key, value) =>
        ReadLast(if section == "preferred" then Record(c, key, value) else c, section, lines[1..], line);
    }
  }

  lemma ReadNone(c: Conf, section: string, line: string)
    ensures ReadLines(c, section, [line]) == ReadLine(c, section, line)
  {
    hide ParseLine, Record;
    var one := [line];
    assert one[1..] == [];
    forall d: Conf, name: string
      ensures ReadLines(d, name, []) == d
    {}
  }

  lemma {:induction false} SectionOfPrefix(lines: seq<string>, n: nat)
    requires n <= |lines|
    ensures SectionFrom("", lines[..n]) == SectionOf(lines, n)
    decreases n
  {
    hide ParseLine;
    if n > 0 {
      assert lines[..n][..n - 1] == lines[..n - 1];
      SectionOfPrefix(lines, n - 1);
    }
  }

  /** What the table holds after n lines of a file: their assignments, and what was there of other files. */
  ghost predicate HoldsFile(r: Conf, base: Conf, lines: seq<string>, n: nat)
    requires n <= |lines|
  {
    && r.nf == base.nf
    && (forall key :: var said := LastAssigned(lines, n, key);
          && ((r.nf, key) in r.vals <==> said.Some?)
          && (said.Some? ==> r.vals[(r.nf, key)] == said.value))
    && (forall i: nat, key :: i != r.nf ==>
          && ((i, key) in r.vals <==> (i, key) in base.vals)
          && ((i, key) in base.vals ==> r.vals[(i, key)] == base.vals[(i, key)]))
    && r.keys == AddNew(base.keys, KeysAssigned(lines, n))
  }

  lemma AddOne(keys: seq<string>, a: seq<string>, key: string)
    ensures var r := AddNew(keys, a); AddNew(keys, a + [key]) == if key in r then r else r + [key]
  {
    AddNewConcat(keys, a, [key]);
    var one := [key];
    assert one[1..] == [];
  }

  lemma {:induction false} ReadHoldsFile(base: Conf, lines: seq<string>, n: nat)
    requires n <= |lines| && forall key :: (base.nf, key) !in base.vals
    ensures HoldsFile(ReadLines(base, "", lines[..n]), base, lines, n)
    decreases n
  {
    hide HoldsFile, ReadLines, ParseLine;
    if n == 0 {
      assert lines[..0] == [];
      HoldsNothing(base, lines);
    } else {
      ReadHoldsFile(base, lines, n - 1);
      assert lines[..n] == lines[..n - 1] + [lines[n - 1]];
      ReadLast(base, "", lines[..n - 1], lines[n - 1]);
      SectionOfPrefix(lines, n - 1);
      HoldsMore(ReadLines(base, "", lines[..n - 1]), base, lines, n);
    }
  }

  lemma HoldsNothing(base: Conf, lines: seq<string>)
    requires forall key :: (base.nf, key) !in base.vals
    ensures HoldsFile(ReadLines(base, "", []), base, lines, 0)
  {}

  lemma HoldsMore(r: Conf, base: Conf, lines: seq<string>, n: nat)
    requires 0 < n <= |lines| && HoldsFile(r, base, lines, n - 1)
    ensures HoldsFile(ReadLine(r, SectionOf(lines, n - 1), lines[n - 1]), base, lines, n)
  {
    hide ParseLine, AddNew, SectionOf;
    var p := ParseLine(lines[n - 1]);
    if p.Pair? && SectionOf(lines, n - 1) == "preferred" {
      AddOne(base.keys, KeysAssigned(lines, n - 1), p.key);
    } else {
      assert KeysAssigned(lines, n - 1) + [] == KeysAssigned(lines, n - 1);
    }
  }

  // ---------- Reading the chain ----------

  /** awk starts no file without a line. */
  function NonEmpty(files: seq<seq<string>>): seq<seq<string>> {
    if files == [] then [] else (if files[0] == [] then [] else [files[0]]) + NonEmpty(files[1..])
  }

  function KeysOfChain(files: seq<seq<string>>): seq<string> {
    if files == [] then [] else KeysAssigned(files[0], |files[0]|) + KeysOfChain(files[1..])
  }

  /** The table holds what the first files said, and then these. */
  ghost predicate HoldsChain(r: Conf, base: Conf, files: seq<seq<string>>) {
    && r.nf == base.nf + |files|
    && (forall j: nat, key :: j < |files| ==> var said := FileSays(files[j], key); var at := (base.nf + 1 + j, key);
          && (at in r.vals <==> said.Some?)
          && (said.Some? ==> r.vals[at] == said.value))
    && (forall i: nat, key :: i <= base.nf || i > r.nf ==>
          && ((i, key) in r.vals <==> (i, key) in base.vals)
          && ((i, key) in base.vals ==> r.vals[(i, key)] == base.vals[(i, key)]))
    && r.keys == AddNew(base.keys, KeysOfChain(files))
  }

  predicate NothingAbove(c: Conf) { forall p :: p in c.vals ==> p.0 <= c.nf }

  lemma {:induction false} ReadHoldsChain(base: Conf, files: seq<seq<string>>)
    requires NothingAbove(base)
    ensures HoldsChain(ReadFiles(base, files), base, NonEmpty(files))
    decreases |files|
  {
    hide HoldsChain;
    if files == [] {
      ChainOfNothing(base);
    } else if files[0] == [] {
      ReadHoldsChain(base, files[1..]);
      assert [] + NonEmpty(files[1..]) == NonEmpty(files[1..]);
    } else {
      var next := ReadFile(base, files[0]);
      FileOfChain(base, files[0]);
      ReadHoldsChain(next, files[1..]);
      ChainHoldsMore(base, next, ReadFiles(next, files[1..]), files[0], NonEmpty(files[1..]));
    }
  }

  lemma ChainOfNothing(base: Conf)
    ensures HoldsChain(base, base, [])
  {}

  lemma FileOfChain(base: Conf, lines: seq<string>)
    requires NothingAbove(base) && lines != []
    ensures var next := ReadFile(base, lines);
      HoldsFile(next, base.(nf := base.nf + 1), lines, |lines|) && NothingAbove(next)
  {
    assert lines[..|lines|] == lines;
    ReadHoldsFile(base.(nf := base.nf + 1), lines, |lines|);
    var next := ReadFile(base, lines);
    forall p | p in next.vals
      ensures p.0 <= next.nf
    {
      if p.0 != next.nf {
        assert (p.0, p.1) in base.vals;
      }
    }
  }

  lemma ChainHoldsMore(base: Conf, next: Conf, r: Conf, first: seq<string>, rest: seq<seq<string>>)
    requires HoldsFile(next, base.(nf := base.nf + 1), first, |first|)
    requires HoldsChain(r, next, rest)
    ensures HoldsChain(r, base, [first] + rest)
  {
    hide LastAssigned, AddNew;
    var files := [first] + rest;
    assert files[1..] == rest;
    AddNewConcat(base.keys, KeysAssigned(first, |first|), KeysOfChain(rest));
    forall j: nat, key | j < |files|
      ensures var said := FileSays(files[j], key); var at := (base.nf + 1 + j, key);
        (at in r.vals <==> said.Some?) && (said.Some? ==> r.vals[at] == said.value)
    {
      if j > 0 {
        assert files[j] == rest[j - 1];
        assert next.nf + 1 + (j - 1) == base.nf + 1 + j;
      } else {
        assert LastAssigned(first, |first|, key) == FileSays(first, key);
        assert (next.nf, key) in r.vals <==> (next.nf, key) in next.vals;
      }
    }
  }

  /**
    Every file of the chain is kept apart: file i of those with a line says of a
    key what its own last assignment says, whatever the other files say, and the
    keys are those of all files in the order they were first assigned to.
   */
  lemma ChainIsReadApart(files: seq<seq<string>>, i: nat, key: string)
    ensures var c, kept := ReadAll(files), NonEmpty(files);
      && c.nf == |kept|
      && c.keys == AddNew([], KeysOfChain(kept))
      && (1 <= i <= |kept| ==>
          Lookup(c, i, key) == if FileSays(kept[i - 1], key) == Some(NOKEY) then None else FileSays(kept[i - 1], key))
  {
    hide FileSays, AddNew;
    ReadHoldsChain(Conf(0, map[], []), files);
    if 1 <= i <= |NonEmpty(files)| {
      assert (0 + 1 + (i - 1), key) == (i, key);
    }
  }

  // ---------- The candidates, from the files ----------

  /** What a file says of a key; the awk program's own sentinel says nothing. */
  function Says(file: seq<string>, key: string): Option<string> {
    if FileSays(file, key) == Some([1 as char] + "none-such" + [1 as char]) then None else FileSays(file, key)
  }

  function Offers(value: Option<string>): seq<string> { if value.Some? then ListItems(value.value) else [] }

  /** A file stops a key by `none` in its own list or, if it does not name the key, in its default. */
  predicate Ends(file: seq<string>, key: string) {
    var own, def := Says(file, key), Says(file, "default");
    if own.Some? then HasNone(own.value) else def.Some? && HasNone(def.value)
  }

  /** What the files offer for a key, each its own list and then its default, up to the first that stops it. */
  function Offered(files: seq<seq<string>>, key: string): seq<string> {
    if files == [] || Ends(files[0], key) then []
    else Offers(Says(files[0], key)) + Offers(Says(files[0], "default")) + Offered(files[1..], key)
  }

  predicate IsEnded(files: seq<seq<string>>, key: string) {
    exists k :: 0 <= k < |files| && Ends(files[k], key)
  }

  /** The resolution of a key is the first occurrence of each candidate the files offer, and whether one of them stops it. */
  function Chosen(files: seq<seq<string>>, key: string): Resolution {
    Resolution(AddNew([], Offered(files, key)), IsEnded(files, key))
  }

  lemma LookupIsSays(files: seq<seq<string>>, i: nat, key: string)
    requires 1 <= i <= |NonEmpty(files)|
    ensures Lookup(ReadAll(files), i, key) == Says(NonEmpty(files)[i - 1], key)
  {
    hide FileSays, ReadAll;
    ChainIsReadApart(files, i, key);
  }

  lemma {:induction false} OfferedFrom(files: seq<seq<string>>, key: string, i: nat)
    requires var n := |NonEmpty(files)|; 1 <= i <= n + 1 && ReadAll(files).nf == n
    ensures var c, rest := ReadAll(files), NonEmpty(files)[i - 1..]; var n := FirstStop(c, key, i);
      && Contributions(c, key, i, n) == Offered(rest, key)
      && (n <= c.nf <==> IsEnded(rest, key))
    decreases |NonEmpty(files)| + 1 - i
  {
    hide ReadAll, Says, Lookup, HasNone, ListItems;
    var c, kept := ReadAll(files), NonEmpty(files);
    var rest := kept[i - 1..];
    if i <= c.nf {
      LookupIsSays(files, i, key);
      LookupIsSays(files, i, "default");
      assert rest[0] == kept[i - 1] && rest[1..] == kept[i..];
      assert Stops(c, key, i) <==> Ends(rest[0], key);
      EndedNext(rest, key);
      if !Stops(c, key, i) {
        OfferedFrom(files, key, i + 1);
      }
    }
  }

  lemma EndedNext(files: seq<seq<string>>, key: string)
    requires files != []
    ensures IsEnded(files, key) <==> Ends(files[0], key) || IsEnded(files[1..], key)
  {
    hide Ends;
    if k :| 0 <= k < |files| && Ends(files[k], key) {
      if k > 0 { assert files[1..][k - 1] == files[k]; }
    }
    if k :| 0 <= k < |files[1..]| && Ends(files[1..][k], key) {
      assert files[k + 1] == files[1..][k];
    }
  }

  /** Every resolution follows from the files themselves. */
  lemma ResolutionIsChosen(files: seq<seq<string>>, key: string)
    ensures Resolve(ReadAll(files), key) == Chosen(NonEmpty(files), key)
  {
    hide ReadAll, Resolve, Offered, IsEnded, Contributions, AddNew;
    ChainIsReadApart(files, 0, key);
    ResolveIsFirstOccurrences(ReadAll(files), key);
    OfferedFrom(files, key, 1);
    assert NonEmpty(files)[0..] == NonEmpty(files);
  }

  // ---------- The flattened file, from the files ----------

  function LineFor(files: seq<seq<string>>, key: string): seq<string> {
    var r := Chosen(files, key);
    if r.entries == [] && !r.stopped then []
    else [key + "=" + Join(r.entries + if r.stopped then ["none"] else []) + ";"]
  }

  function LinesFor(files: seq<seq<string>>, keys: seq<string>): seq<string> {
    if keys == [] then [] else (if keys[0] == "default" then [] else LineFor(files, keys[0])) + LinesFor(files, keys[1..])
  }

  lemma KeyLineIsLineFor(files: seq<seq<string>>, key: string)
    ensures KeyLine(ReadAll(files), key) == LineFor(NonEmpty(files), key)
  {
    hide ReadAll, Resolve, Chosen, Join;
    var r := Resolve(ReadAll(files), key);
    ResolutionIsChosen(files, key);
    ResolvedEntries(ReadAll(files), key);
    JoinOfNothing();
    assert r.entries + [] == r.entries;
    var es := r.entries + if r.stopped then ["none"] else [];
    if es != [] {
      JoinStart(es);
    }
  }

  lemma {:induction false} KeyLinesAreLinesFor(files: seq<seq<string>>, keys: seq<string>)
    ensures KeyLines(ReadAll(files), keys) == LinesFor(NonEmpty(files), keys)
    decreases |keys|
  {
    hide ReadAll, KeyLine, LineFor;
    if keys != [] {
      KeyLineIsLineFor(files, keys[0]);
      KeyLinesAreLinesFor(files, keys[1..]);
    }
  }

  /**
    The flattened file, told on the files alone: a header, a line for each key in
    the order the files first assign to it, and the default last.
   */
  lemma FlattenedFromFiles(files: seq<seq<string>>)
    ensures var kept := NonEmpty(files);
      Printed(ReadAll(files)) == ["[preferred]"] + LinesFor(kept, AddNew([], KeysOfChain(kept))) + LineFor(kept, "default")
  {
    hide ReadAll, KeyLine, LineFor, AddNew;
    ChainIsReadApart(files, 0, "");
    KeyLinesAreLinesFor(files, AddNew([], KeysOfChain(NonEmpty(files))));
    KeyLineIsLineFor(files, "default");
  }
}

/** What flattening preserves: the printed file, read back as a chain of one, resolves as the whole chain did. */
module PortalConfTheorems {
  import opened Text
  import opened Wrappers
  import opened PortalConf

  // ---------- trim ----------

  predicate Trimmed(s: string) {
    s != "" ==> !IsBlank(s[0]) && !IsBlank(s[|s| - 1])
  }

  lemma {:induction false} TrimLeftIs(s: string)
    ensures var r := TrimLeft(s); |r| <= |s| && r == s[|s| - |r|..] && (r != "" ==> !IsBlank(r[0]))
  {
    if s != "" && IsBlank(s[0]) { TrimLeftIs(s[1..]); }
  }

  lemma {:induction false} TrimRightIs(s: string)
    ensures var r := TrimRight(s); |r| <= |s| && r == s[..|r|] && (r != "" ==> !IsBlank(r[|r| - 1]))
  {
    if s != "" && IsBlank(s[|s| - 1]) { TrimRightIs(s[..|s| - 1]); }
  }

  lemma TrimIs(s: string)
    ensures Trimmed(Trim(s))
    ensures Trimmed(s) ==> Trim(s) == s
    ensures forall i :: 0 <= i < |Trim(s)| ==> Trim(s)[i] in s
  {
    TrimLeftIs(s);
    TrimRightIs(TrimLeft(s));
  }

  // ---------- Items ----------

  predicate IsItem(e: string) { e != "" && e != "none" && Trimmed(e) && ';' !in e }

  predicate Distinct(es: seq<string>) {
    forall i, j :: 0 <= i < j < |es| ==> es[i] != es[j]
  }

  predicate AreItems(es: seq<string>) { forall i :: 0 <= i < |es| ==> IsItem(es[i]) }

  lemma {:induction false} ItemsAreItems(pieces: seq<string>)
    requires forall i :: 0 <= i < |pieces| ==> ';' !in pieces[i]
    ensures AreItems(Items(pieces))
    decreases |pieces|
  {
    if pieces != [] {
      TrimIs(pieces[0]);
      ItemsAreItems(pieces[1..]);
    }
  }

  lemma ListItemsAreItems(value: string)
    ensures AreItems(ListItems(value))
  {
    SplitPieces(value, ';');
    ItemsAreItems(Split(value, ';'));
  }

  lemma {:induction false} AddNewIs(entries: seq<string>, items: seq<string>)
    requires Distinct(entries)
    ensures var r := AddNew(entries, items);
      && Distinct(r) && entries <= r
      && (forall e :: e in r <==> e in entries || e in items)
      && (AreItems(entries) && AreItems(items) ==> AreItems(r))
    decreases |items|
  {
    if items != [] {
      var more := if items[0] in entries then entries else entries + [items[0]];
      AddNewIs(more, items[1..]);
      assert forall e :: e in items <==> e == items[0] || e in items[1..];
    }
  }

  lemma {:induction false} AddKnown(entries: seq<string>, items: seq<string>)
    requires forall i :: 0 <= i < |items| ==> items[i] in entries
    ensures AddNew(entries, items) == entries
    decreases |items|
  {
    if items != [] {
      AddKnown(entries, items[1..]);
    }
  }

  lemma {:induction false} AddFresh(entries: seq<string>, items: seq<string>)
    requires Distinct(entries + items)
    ensures AddNew(entries, items) == entries + items
    decreases |items|
  {
    if items != [] {
      assert (entries + items)[|entries|] == items[0];
      assert forall k :: 0 <= k < |entries| ==> (entries + items)[k] == entries[k];
      assert entries + [items[0]] + items[1..] == entries + items;
      AddFresh(entries + [items[0]], items[1..]);
    }
  }

  /** Adding to nothing keeps first occurrences, in order: what a prefix gives is a prefix of what the whole gives. */
  lemma FirstOccurrences(items: seq<string>, k: nat)
    requires k <= |items|
    ensures var r := AddNew([], items);
      Distinct(r) && (forall e :: e in r <==> e in items) && AddNew([], items[..k]) <= r
  {
    AddNewIs([], items);
    AddNewIs([], items[..k]);
    assert items == items[..k] + items[k..];
    AddNewConcat([], items[..k], items[k..]);
    AddNewIs(AddNew([], items[..k]), items[k..]);
  }

  // ---------- Resolution against its definition ----------

  /** What file i adds to a key, when it does not stop it. */
  function Contribution(c: Conf, key: string, i: nat): seq<string> {
    (if Lookup(c, i, key).Some? then ListItems(Lookup(c, i, key).value) else [])
    + (if Lookup(c, i, "default").Some? then ListItems(Lookup(c, i, "default").value) else [])
  }

  /** A file stops a key by `none` in its own list, or, if it does not name the key, in its default. */
  predicate Stops(c: Conf, key: string, i: nat) {
    if Lookup(c, i, key).Some? then HasNone(Lookup(c, i, key).value)
    else Lookup(c, i, "default").Some? && HasNone(Lookup(c, i, "default").value)
  }

  function FirstStop(c: Conf, key: string, i: nat): (n: nat)
    ensures i <= c.nf + 1 ==> i <= n <= c.nf + 1
    ensures forall k :: i <= k < n ==> !Stops(c, key, k)
    ensures i <= n <= c.nf ==> Stops(c, key, n)
    decreases c.nf + 1 - i
  {
    if i > c.nf || Stops(c, key, i) then i else FirstStop(c, key, i + 1)
  }

  function Contributions(c: Conf, key: string, i: nat, n: nat): seq<string>
    decreases n - i
  {
    if i >= n then [] else Contribution(c, key, i) + Contributions(c, key, i + 1, n)
  }

  lemma {:induction false} ResolveFromIs(c: Conf, key: string, i: nat, entries: seq<string>)
    requires 1 <= i <= c.nf + 1
    ensures var n := FirstStop(c, key, i);
      ResolveFrom(c, key, i, entries) == Resolution(AddNew(entries, Contributions(c, key, i, n)), n <= c.nf)
    decreases c.nf + 1 - i
  {
    hide ListItems, HasNone, AddNew;
    var n := FirstStop(c, key, i);
    if i <= c.nf && !Stops(c, key, i) {
      ResolveStep(c, key, i, entries);
      ResolveFromIs(c, key, i + 1, AddNew(entries, Contribution(c, key, i)));
      AddNewConcat(entries, Contribution(c, key, i), Contributions(c, key, i + 1, n));
    } else {
      AddKnown(entries, []);
    }
  }

  lemma ResolveStep(c: Conf, key: string, i: nat, entries: seq<string>)
    requires i <= c.nf && !Stops(c, key, i)
    ensures ResolveFrom(c, key, i, entries) == ResolveFrom(c, key, i + 1, AddNew(entries, Contribution(c, key, i)))
  {
    hide ListItems, HasNone, AddNew;
    var il, dl := Lookup(c, i, key), Lookup(c, i, "default");
    var a := if il.Some? then ListItems(il.value) else [];
    var b := if dl.Some? then ListItems(dl.value) else [];
    AddNewConcat(entries, a, b);
    AddKnown(entries, []);
  }

  /** The candidates of a key are the first occurrences of what the files before the stopping one list for it. */
  lemma ResolveIsFirstOccurrences(c: Conf, key: string)
    ensures var n := FirstStop(c, key, 1);
      Resolve(c, key) == Resolution(AddNew([], Contributions(c, key, 1, n)), n <= c.nf)
  {
    ResolveFromIs(c, key, 1, []);
  }

  lemma {:induction false} ContributionsAreItems(c: Conf, key: string, i: nat, n: nat)
    ensures AreItems(Contributions(c, key, i, n))
    decreases n - i
  {
    if i < n {
      if Lookup(c, i, key).Some? { ListItemsAreItems(Lookup(c, i, key).value); }
      if Lookup(c, i, "default").Some? { ListItemsAreItems(Lookup(c, i, "default").value); }
      ContributionsAreItems(c, key, i + 1, n);
    }
  }

  lemma ResolvedEntries(c: Conf, key: string)
    ensures Distinct(Resolve(c, key).entries) && AreItems(Resolve(c, key).entries)
  {
    ResolveIsFirstOccurrences(c, key);
    var items := Contributions(c, key, 1, FirstStop(c, key, 1));
    ContributionsAreItems(c, key, 1, FirstStop(c, key, 1));
    AddNewIs([], items);
  }

  // ---------- Keys and the default ----------

  lemma {:induction false} ContributionsHold(c: Conf, key: string, i: nat, n: nat, k: nat, e: string)
    requires i <= k < n && e in Contribution(c, key, k)
    ensures e in Contributions(c, key, i, n)
    decreases k - i
  {
    hide Contribution;
    if i < k {
      ContributionsHold(c, key, i + 1, n, k, e);
    }
  }

  lemma {:induction false} ContributionsFrom(c: Conf, key: string, i: nat, n: nat, e: string) returns (k: nat)
    requires e in Contributions(c, key, i, n)
    ensures i <= k < n && e in Contribution(c, key, k)
    decreases n - i
  {
    hide Contribution;
    if e in Contribution(c, key, i) {
      k := i;
    } else {
      k := ContributionsFrom(c, key, i + 1, n, e);
    }
  }

  /** A key that is not stopped gets every candidate of the default. */
  lemma DefaultsAreIncluded(c: Conf, key: string, e: string)
    requires !Resolve(c, key).stopped && e in Resolve(c, "default").entries
    ensures e in Resolve(c, key).entries
  {
    hide ListItems, HasNone;
    ResolveIsFirstOccurrences(c, key);
    ResolveIsFirstOccurrences(c, "default");
    var n, m := FirstStop(c, key, 1), FirstStop(c, "default", 1);
    AddNewIs([], Contributions(c, key, 1, n));
    AddNewIs([], Contributions(c, "default", 1, m));
    var k := ContributionsFrom(c, "default", 1, m, e);
    assert e in Contribution(c, key, k);
    ContributionsHold(c, key, 1, n, k, e);
  }

  ghost predicate Named(c: Conf, key: string) { exists i: nat :: Lookup(c, i, key).Some? }

  lemma {:induction false} UnnamedFrom(c: Conf, key: string, i: nat, entries: seq<string>)
    requires !Named(c, key) && Distinct(entries)
    ensures ResolveFrom(c, key, i, entries) == ResolveFrom(c, "default", i, entries)
    decreases c.nf + 1 - i
  {
    hide ListItems, HasNone, AddNew;
    assert Lookup(c, i, key).None?;
    var dl := Lookup(c, i, "default");
    if i <= c.nf && !(dl.Some? && HasNone(dl.value)) {
      var defaults := if dl.Some? then ListItems(dl.value) else [];
      AddNewIs(entries, defaults);
      AddKnown(AddNew(entries, defaults), defaults);
      UnnamedFrom(c, key, i + 1, AddNew(entries, defaults));
    }
  }

  // ---------- Reading a shown list back ----------

  lemma {:induction false} JoinStart(es: seq<string>)
    requires es != [] && forall i :: 0 <= i < |es| ==> es[i] != ""
    ensures Join(es) != "" && Join(es)[0] == es[0][0]
    decreases |es|
  {
    if |es| > 1 {
      JoinStart(es[..|es| - 1]);
    }
  }

  lemma {:induction false} SplitJoin(es: seq<string>)
    requires es != [] && forall i :: 0 <= i < |es| ==> ';' !in es[i]
    ensures Split(Join(es), ';') == es
    decreases |es|
  {
    hide Split;
    var last := es[|es| - 1];
    SplitWord(last, ';');
    if |es| > 1 {
      var front := es[..|es| - 1];
      SplitJoin(front);
      SplitConcat(Join(front), ';', last);
      assert es == front + [last];
    } else {
      assert es == [last];
    }
  }

  lemma {:induction false} ItemsOfItems(es: seq<string>, rest: seq<string>)
    requires AreItems(es)
    ensures Items(es + rest) == es + Items(rest)
    decreases |es|
  {
    if es == [] {
      assert es + rest == rest;
    } else {
      TrimIs(es[0]);
      assert (es + rest)[1..] == es[1..] + rest;
      ItemsOfItems(es[1..], rest);
    }
  }

  lemma TrimFixed()
    ensures Trim("none") == "none" && Trim("") == ""
  {
    TrimIs("none");
    TrimIs("");
  }

  lemma ShownPieces(r: Resolution)
    requires AreItems(r.entries) && Shown(r) != ""
    ensures Split(Shown(r) + ";", ';') == r.entries + (if r.stopped then ["none"] else []) + [""]
    ensures !IsBlank(Shown(r)[0])
  {
    hide Split, Join;
    var es := if r.stopped then r.entries + ["none"] else r.entries;
    JoinOfNothing();
    SplitJoin(es);
    ShownStart(r);
    SplitConcat(Shown(r), ';', "");
    SplitWord("", ';');
    assert Shown(r) + [';'] + "" == Shown(r) + ";";
  }

  lemma JoinOfNothing()
    ensures Join([]) == ""
  {}

  lemma ShownStart(r: Resolution)
    requires AreItems(r.entries) && Shown(r) != ""
    ensures !IsBlank(Shown(r)[0])
  {
    hide Join;
    var es := if r.stopped then r.entries + ["none"] else r.entries;
    JoinOfNothing();
    JoinStart(es);
    assert "none"[0] == 'n';
    assert IsItem(es[0]) || es[0] == "none";
  }

  /** What is printed for a key says exactly its candidates and whether it is stopped. */
  lemma ShownReadsBack(r: Resolution)
    requires AreItems(r.entries) && Shown(r) != ""
    ensures ListItems(Shown(r) + ";") == r.entries
    ensures HasNone(Shown(r) + ";") <==> r.stopped
  {
    hide Split, Join, Trim;
    ShownPieces(r);
    TrimFixed();
    var tail := (if r.stopped then ["none"] else []) + [""];
    var pieces := Split(Shown(r) + ";", ';');
    assert pieces == r.entries + tail;
    ItemsOfItems(r.entries, tail);
    TailGivesNothing(r.stopped);
    forall k | 0 <= k < |r.entries|
      ensures Trim(pieces[k]) != "none"
    {
      TrimIs(r.entries[k]);
      assert IsItem(r.entries[k]);
    }
    if r.stopped {
      assert pieces[|r.entries|] == "none";
    }
  }

  lemma TailGivesNothing(stopped: bool)
    ensures Items((if stopped then ["none"] else []) + [""]) == []
  {
    TrimFixed();
    var last := [""];
    assert last[1..] == [] && Items(last) == ItemOf(last[0]) + Items([]);
    if stopped {
      var both := ["none"] + last;
      assert both[1..] == last && Items(both) == ItemOf(both[0]) + Items(last);
    } else {
      assert [] + last == last;
    }
  }

  // ---------- Reading the printed file ----------

  predicate PlainKey(key: string) {
    Trimmed(key) && '=' !in key && (key != "" ==> key[0] != '#' && key[0] != ';')
  }

  predicate PlainKeys(c: Conf) { forall i :: 0 <= i < |c.keys| ==> PlainKey(c.keys[i]) }

  /** Keys are plain, and every value belongs to a listed key. */
  ghost predicate WellRead(c: Conf) {
    PlainKeys(c) && forall p :: p in c.vals ==> p.1 in c.keys
  }

  lemma ParsedPair(raw: string)
    requires ParseLine(raw).Pair?
    ensures PlainKey(ParseLine(raw).key)
  {
    var line := Trim(raw);
    var eq := Span(line, {'='});
    TrimIs(raw);
    TrimIs(line[..eq]);
    TrimLeftIs(line[..eq]);
    TrimRightIs(TrimLeft(line[..eq]));
  }

  lemma {:induction false} ReadLinesWell(c: Conf, section: string, lines: seq<string>)
    requires WellRead(c)
    ensures WellRead(ReadLines(c, section, lines))
    decreases |lines|
  {
    hide ParseLine;
    if lines != [] {
      match ParseLine(lines[0])
      case Ignored => ReadLinesWell(c, section, lines[1..]);
      case Section(name) => ReadLinesWell(c, name, lines[1..]);
      case Pair(key, value) =>
        ParsedPair(lines[0]);
        ReadLinesWell(if section == "preferred" then Record(c, key, value) else c, section, lines[1..]);
    }
  }

  lemma {:induction false} ReadFilesWell(c: Conf, files: seq<seq<string>>)
    requires WellRead(c)
    ensures WellRead(ReadFiles(c, files))
    decreases |files|
  {
    if files != [] {
      if files[0] != [] { ReadLinesWell(c.(nf := c.nf + 1), "", files[0]); }
      ReadFilesWell(ReadFile(c, files[0]), files[1..]);
    }
  }

  lemma ReadAllWell(files: seq<seq<string>>)
    ensures WellRead(ReadAll(files))
  {
    ReadFilesWell(Conf(0, map[], []), files);
  }

  lemma ParseTrimmed(line: string, key: string, value: string)
    requires PlainKey(key) && Trim(line) == key + "=" + value
    requires key != "" && key[0] == '[' && value != "" ==> value[|value| - 1] != ']'
    ensures ParseLine(line) == Pair(key, Trim(value))
  {
    hide TrimLeft, TrimRight;
    var trimmed := key + "=" + value;
    SpanIs(trimmed, {'='}, |key|);
    assert trimmed[..|key|] == key && trimmed[|key| + 1..] == value;
    assert trimmed[0] == if key != "" then key[0] else '=';
    assert value != "" ==> trimmed[|trimmed| - 1] == value[|value| - 1];
    TrimIs(key);
  }

  /** A line that assigns to a plain key, whatever blanks surround its value. */
  lemma ParseAssignment(key: string, value: string)
    requires PlainKey(key) && (key != "" ==> key[0] != '[')
    ensures ParseLine(key + "=" + value) == Pair(key, Trim(value))
  {
    hide ParseLine, TrimLeft, TrimRight;
    TrimAssignment(key, value);
    ParseTrimmed(key + "=" + value, key, TrimRight(value));
    TrimOfTrimRight(value);
  }

  lemma TrimAssignment(key: string, value: string)
    requires PlainKey(key)
    ensures Trim(key + "=" + value) == key + "=" + TrimRight(value)
  {
    var line := key + "=" + value;
    assert line[0] == if key != "" then key[0] else '=';
    assert TrimLeft(line) == line;
    TrimRightTail(key + "=", value);
  }

  lemma {:induction false} TrimRightTail(a: string, b: string)
    requires a != "" && !IsBlank(a[|a| - 1])
    ensures TrimRight(a + b) == a + TrimRight(b)
    decreases |b|
  {
    if b == "" {
      assert a + b == a;
    } else {
      assert (a + b)[..|a + b| - 1] == a + b[..|b| - 1];
      TrimRightTail(a, b[..|b| - 1]);
    }
  }

  lemma {:induction false} TrimLeftSnoc(s: string, c: char)
    requires IsBlank(c)
    ensures TrimLeft(s + [c]) == if TrimLeft(s) == "" then "" else TrimLeft(s) + [c]
    decreases |s|
  {
    var t := s + [c];
    if s == "" {
      assert t[1..] == "";
    } else {
      assert t[1..] == s[1..] + [c];
      if IsBlank(s[0]) {
        TrimLeftSnoc(s[1..], c);
      }
    }
  }

  lemma {:induction false} TrimOfTrimRight(s: string)
    ensures Trim(TrimRight(s)) == Trim(s)
    decreases |s|
  {
    if s != "" && IsBlank(s[|s| - 1]) {
      var front := s[..|s| - 1];
      TrimOfTrimRight(front);
      TrimLeftSnoc(front, s[|s| - 1]);
      assert s == front + [s[|s| - 1]];
      var t := TrimLeft(front) + [s[|s| - 1]];
      assert t[..|t| - 1] == TrimLeft(front);
    }
  }

  /** A printed line ends in a semicolon, so it is never read as a section. */
  lemma ParsePrintedLine(key: string, shown: string)
    requires PlainKey(key) && shown != "" && !IsBlank(shown[0])
    ensures ParseLine(key + "=" + shown + ";") == Pair(key, shown + ";")
  {
    hide ParseLine;
    var value := shown + ";";
    assert value[0] == shown[0] && value[|value| - 1] == ';';
    assert key + "=" + shown + ";" == key + "=" + value;
    TrimAssignment(key, value);
    assert TrimRight(value) == value;
    ParseTrimmed(key + "=" + value, key, value);
    TrimIs(value);
  }

  /** What the printed lines of these keys record. */
  function Recorded(c: Conf, keys: seq<string>, into: Conf): Conf
    decreases |keys|
  {
    if keys == [] then into else Recorded(c, keys[1..], RecordedKey(c, keys[0], into, keys[0] != "default"))
  }

  function RecordedKey(c: Conf, key: string, into: Conf, wanted: bool): Conf {
    var shown := Shown(Resolve(c, key));
    if shown == "" || !wanted then into else Record(into, key, shown + ";")
  }

  lemma ReadKeyLine(c: Conf, key: string, into: Conf, rest: seq<string>)
    requires PlainKey(key)
    ensures ReadLines(into, "preferred", KeyLine(c, key) + rest) == ReadLines(RecordedKey(c, key, into, true), "preferred", rest)
  {
    hide ParseLine, Resolve, Shown;
    var shown := Shown(Resolve(c, key));
    if shown != "" {
      ResolvedEntries(c, key);
      ShownPieces(Resolve(c, key));
      ParsePrintedLine(key, shown);
      assert (KeyLine(c, key) + rest)[1..] == rest;
    } else {
      assert KeyLine(c, key) + rest == rest;
    }
  }

  lemma {:induction false} ReadKeyLines(c: Conf, keys: seq<string>, into: Conf, rest: seq<string>)
    requires forall i :: 0 <= i < |keys| ==> PlainKey(keys[i])
    ensures ReadLines(into, "preferred", KeyLines(c, keys) + rest) == ReadLines(Recorded(c, keys, into), "preferred", rest)
    decreases |keys|
  {
    hide ReadLines, KeyLine, RecordedKey;
    if keys == [] {
      assert KeyLines(c, keys) + rest == rest;
    } else {
      var first := if keys[0] == "default" then [] else KeyLine(c, keys[0]);
      assert KeyLines(c, keys) + rest == first + (KeyLines(c, keys[1..]) + rest);
      if keys[0] == "default" {
        assert first + (KeyLines(c, keys[1..]) + rest) == KeyLines(c, keys[1..]) + rest;
        NotRecorded(c, into);
      } else {
        ReadKeyLine(c, keys[0], into, KeyLines(c, keys[1..]) + rest);
      }
      ReadKeyLines(c, keys[1..], RecordedKey(c, keys[0], into, keys[0] != "default"), rest);
    }
  }

  lemma NotRecorded(c: Conf, into: Conf)
    ensures RecordedKey(c, "default", into, false) == into
  {}

  /** The printed file read back. */
  function Reread(c: Conf): Conf { RecordedKey(c, "default", Recorded(c, c.keys, Conf(1, map[], [])), true) }

  lemma ParseHeader()
    ensures ParseLine("[preferred]") == Section("preferred")
  {
    var h := "[preferred]";
    assert |h| == 11 && h[0] == '[' && h[10] == ']' && h[1..10] == "preferred";
    ParseSection(h);
  }

  lemma ParseSection(line: string)
    requires |line| >= 2 && line[0] == '[' && line[|line| - 1] == ']'
    ensures ParseLine(line) == Section(line[1..|line| - 1])
  {
    TrimIs(line);
  }

  lemma ReadHeader(lines: seq<string>)
    ensures ReadAll([["[preferred]"] + lines]) == ReadLines(Conf(1, map[], []), "preferred", lines)
  {
    hide ParseLine;
    var file := ["[preferred]"] + lines;
    ParseHeader();
    assert file[0] == "[preferred]" && file[1..] == lines;
    assert ReadFiles(Conf(0, map[], []), [file]) == ReadFile(Conf(0, map[], []), file);
    assert ReadFile(Conf(0, map[], []), file) == ReadLines(Conf(1, map[], []), "preferred", lines);
  }

  lemma ReadNothing(c: Conf)
    ensures ReadLines(c, "preferred", []) == c
  {}

  lemma PrintedReadsBack(c: Conf)
    requires PlainKeys(c)
    ensures ReadAll([Printed(c)]) == Reread(c)
  {
    hide ReadLines, ReadAll, KeyLine, RecordedKey, Recorded;
    var lines := KeyLines(c, c.keys) + KeyLine(c, "default");
    var start := Conf(1, map[], []);
    assert Printed(c) == ["[preferred]"] + lines;
    ReadHeader(lines);
    ReadKeyLines(c, c.keys, start, KeyLine(c, "default"));
    DefaultIsPlain();
    var middle := Recorded(c, c.keys, start);
    ReadKeyLine(c, "default", middle, []);
    assert KeyLine(c, "default") + [] == KeyLine(c, "default");
    ReadNothing(RecordedKey(c, "default", middle, true));
  }

  lemma DefaultIsPlain()
    ensures PlainKey("default")
  {}

  lemma {:induction false} RecordedLookup(c: Conf, keys: seq<string>, into: Conf, key: string)
    ensures var r := Recorded(c, keys, into);
      && r.nf == into.nf
      && (forall p :: p in r.vals && p.0 != into.nf ==> p in into.vals)
      && ((into.nf, key) in r.vals <==>
          (into.nf, key) in into.vals || (key in keys && key != "default" && Shown(Resolve(c, key)) != ""))
      && ((into.nf, key) in r.vals && !(key in keys && key != "default") ==> r.vals[(into.nf, key)] == into.vals[(into.nf, key)])
      && (key in keys && key != "default" && Shown(Resolve(c, key)) != "" ==>
          r.vals[(into.nf, key)] == Shown(Resolve(c, key)) + ";")
    decreases |keys|
  {
    hide Resolve, Shown;
    if keys != [] {
      var next := RecordedKey(c, keys[0], into, keys[0] != "default");
      RecordedLookup(c, keys[1..], next, key);
    }
  }

  /** Every printed key, and only it, is found again with what was printed for it. */
  lemma RereadLookup(c: Conf, key: string)
    ensures Reread(c).nf == 1
    ensures Lookup(Reread(c), 1, key) ==
      if (key in c.keys || key == "default") && Shown(Resolve(c, key)) != "" then Some(Shown(Resolve(c, key)) + ";") else None
  {
    hide Resolve, Shown;
    RecordedLookup(c, c.keys, Conf(1, map[], []), key);
    NotTheSentinel(Shown(Resolve(c, key)));
  }

  lemma NotTheSentinel(shown: string)
    ensures shown + ";" != NOKEY
  {
    assert |NOKEY| == 11 && NOKEY[10] == 1 as char;
    assert (shown + ";")[|shown|] == ';';
  }

  // ---------- Flattening preserves resolution ----------

  lemma ResolveOne(r: Conf, key: string)
    requires r.nf == 1
    ensures var il, dl := Lookup(r, 1, key), Lookup(r, 1, "default");
      var defaults := if dl.Some? then ListItems(dl.value) else [];
      Resolve(r, key) ==
        if il.Some? then
          if HasNone(il.value) then Resolution([], true)
          else Resolution(AddNew(AddNew([], ListItems(il.value)), defaults), false)
        else if dl.Some? && HasNone(dl.value) then Resolution([], true)
        else Resolution(AddNew([], defaults), false)
  {
    hide ListItems, HasNone, AddNew;
    assert forall entries :: ResolveFrom(r, key, 2, entries) == Resolution(entries, false);
    AddKnown([], []);
  }

  /** The default's candidates as they are read back. */
  lemma RereadDefaults(c: Conf)
    ensures var d, dl := Resolve(c, "default"), Lookup(Reread(c), 1, "default");
      && (dl.Some? ==> ListItems(dl.value) == d.entries && (HasNone(dl.value) <==> d.stopped))
      && (dl.None? ==> d == Resolution([], false))
  {
    hide ListItems, HasNone, Resolve, Reread;
    RereadLookup(c, "default");
    ResolvedEntries(c, "default");
    var d := Resolve(c, "default");
    if Shown(d) != "" {
      ShownReadsBack(d);
    } else {
      NothingShown(d);
    }
  }

  lemma NothingShown(r: Resolution)
    requires AreItems(r.entries) && Shown(r) == ""
    ensures r == Resolution([], false)
  {
    var es := if r.stopped then r.entries + ["none"] else r.entries;
    if es != [] {
      JoinStart(es);
    }
  }

  /** A printed key. */
  lemma NamedSurvives(c: Conf, key: string)
    requires (key in c.keys || key == "default") && Shown(Resolve(c, key)) != ""
    ensures var was := Resolve(c, key);
      Resolve(Reread(c), key) == if was.stopped then Resolution([], true) else was
  {
    hide ListItems, HasNone, Resolve, Reread, Shown;
    var was := Resolve(c, key);
    RereadLookup(c, key);
    RereadDefaults(c);
    ResolveOne(Reread(c), key);
    ResolvedEntries(c, key);
    ShownReadsBack(was);
    if !was.stopped {
      var d := Resolve(c, "default");
      AddFresh([], was.entries);
      assert [] + was.entries == was.entries;
      forall i | 0 <= i < |d.entries|
        ensures d.entries[i] in was.entries
      {
        DefaultsAreIncluded(c, key, d.entries[i]);
      }
      AddKnown(was.entries, d.entries);
      AddKnown(was.entries, []);
    }
  }

  /** A key that is not printed. */
  lemma UnprintedSurvives(c: Conf, key: string)
    requires WellRead(c)
    requires !((key in c.keys || key == "default") && Shown(Resolve(c, key)) != "")
    ensures var was, d := Resolve(c, key), Resolve(c, "default");
      && Resolve(Reread(c), key) == (if d.stopped then Resolution([], true) else d)
      && (was == d || was == Resolution([], false))
      && (was != d ==> d.stopped || d.entries == [])
  {
    hide ListItems, HasNone, Reread, Shown;
    var was, d := Resolve(c, key), Resolve(c, "default");
    RereadLookup(c, key);
    RereadDefaults(c);
    ResolveOne(Reread(c), key);
    ResolvedEntries(c, key);
    ResolvedEntries(c, "default");
    AddFresh([], d.entries);
    assert [] + d.entries == d.entries;
    AddKnown([], []);
    if key in c.keys || key == "default" {
      NothingShown(was);
      if !d.stopped && d.entries != [] {
        DefaultsAreIncluded(c, key, d.entries[0]);
      }
    } else {
      UnnamedKey(c, key);
    }
  }

  lemma NamedIsListed(c: Conf, key: string)
    requires WellRead(c) && Named(c, key)
    ensures key in c.keys
  {
    var i: nat :| Lookup(c, i, key).Some?;
    assert (i, key) in c.vals;
  }

  lemma UnnamedKey(c: Conf, key: string)
    requires WellRead(c) && key !in c.keys
    ensures Resolve(c, key) == Resolve(c, "default")
  {
    if Named(c, key) {
      NamedIsListed(c, key);
    }
    UnnamedFrom(c, key, 1, []);
  }

  /**
    Flattening any chain of files and reading the result back as a chain of one:
    a key that is not stopped keeps its candidates, in order; a stopped key stays
    stopped but loses the candidates before `none`.  The whole resolution is the
    same exactly when the key is not stopped behind candidates, and is not empty,
    unstopped and under a stopped default.
   */
  lemma FlatteningPreserves(files: seq<seq<string>>, key: string)
    ensures var c := ReadAll(files);
      var was, now, d := Resolve(c, key), Resolve(ReadAll([Printed(c)]), key), Resolve(c, "default");
      && (!was.stopped ==> now.entries == was.entries)
      && (was.stopped ==> now == Resolution([], true))
      && (now == was <==>
          !(was.stopped && was.entries != []) && !(!was.stopped && was.entries == [] && d.stopped))
  {
    hide Resolve, Reread, Shown;
    var c := ReadAll(files);
    ReadAllWell(files);
    PrintedReadsBack(c);
    if (key in c.keys || key == "default") && Shown(Resolve(c, key)) != "" {
      NamedSurvives(c, key);
      ShownIsSomething(c, key);
    } else {
      UnprintedSurvives(c, key);
    }
  }

  lemma ShownIsSomething(c: Conf, key: string)
    requires Shown(Resolve(c, key)) != ""
    ensures Resolve(c, key).stopped || Resolve(c, key).entries != []
  {}

  // ---------- Where the whole resolution is not preserved ----------

  lemma ReadAssignment(c: Conf, key: string, value: string, rest: seq<string>)
    requires PlainKey(key) && (key != "" ==> key[0] != '[')
    ensures ReadLines(c, "preferred", [key + "=" + value] + rest) == ReadLines(Record(c, key, Trim(value)), "preferred", rest)
  {
    hide ParseLine, Trim;
    ParseAssignment(key, value);
    assert ([key + "=" + value] + rest)[1..] == rest;
  }

  /** A key set to nothing above a default of none. */
  function EmptyUnderNone(): Conf {
    Record(Record(Conf(1, map[], []), "k", ""), "default", "none")
  }

  lemma ReadEmptyUnderNone()
    ensures ReadAll([["[preferred]", "k=", "default=none"]]) == EmptyUnderNone()
  {
    hide ReadLines, ReadAll;
    var second := ["default" + "=" + "none"];
    var lines := ["k" + "=" + ""] + second;
    assert "k" + "=" + "" == "k=" && "default" + "=" + "none" == "default=none";
    assert ["[preferred]"] + lines == ["[preferred]", "k=", "default=none"];
    ReadHeader(lines);
    ReadAssignment(Conf(1, map[], []), "k", "", second);
    ReadAssignment(Record(Conf(1, map[], []), "k", ""), "default", "none", []);
    assert second + [] == second;
    TrimFixed();
    ReadNothing(EmptyUnderNone());
  }

  lemma ResolveEmptyUnderNone()
    ensures Resolve(EmptyUnderNone(), "k") == Resolution([], false)
    ensures Resolve(EmptyUnderNone(), "default") == Resolution([], true)
  {
    hide ListItems, HasNone, Resolve;
    var c := EmptyUnderNone();
    EmptyListIsEmpty();
    assert c.vals[(1, "k")] == "" && c.vals[(1, "default")] == "none";
    assert |NOKEY| == 11;
    ResolveOne(c, "k");
    ResolveOne(c, "default");
    AddKnown([], []);
  }

  /** A key set to nothing, under a default of none: it had no candidates and was not stopped, and now it is. */
  lemma EmptyKeyIsStopped()
    ensures var c := ReadAll([["[preferred]", "k=", "default=none"]]);
      Resolve(c, "k") == Resolution([], false) && Resolve(ReadAll([Printed(c)]), "k").stopped
  {
    hide Resolve, Printed, ReadAll;
    ReadEmptyUnderNone();
    ResolveEmptyUnderNone();
    FlatteningPreserves([["[preferred]", "k=", "default=none"]], "k");
  }

  lemma EmptyListIsEmpty()
    ensures !HasNone("") && ListItems("") == []
    ensures HasNone("none") && ListItems("none") == []
  {
    TrimFixed();
    SplitWord("", ';');
    SplitWord("none", ';');
    assert Split("none", ';')[0] == "none";
    var one := ["none"];
    assert one[1..] == [] && Items(one) == ItemOf(one[0]) + Items([]);
    var empty := [""];
    assert empty[1..] == [] && Items(empty) == ItemOf(empty[0]) + Items([]);
  }
}

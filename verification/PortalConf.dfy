/**
  tools/lib.sh: the awk program of xdp_flatten_preferred, which collapses a chain
  of portals.conf files into one, and the two small list editors beside it.
  A file is its sequence of lines.
 */
module PortalConf {
  import opened Text
  import opened Wrappers

  // ---------- trim ----------

  predicate IsBlank(c: char) { c == ' ' || c == '\t' }

  function TrimLeft(s: string): string {
    if s != "" && IsBlank(s[0]) then TrimLeft(s[1..]) else s
  }

  function TrimRight(s: string): string {
    if s != "" && IsBlank(s[|s| - 1]) then TrimRight(s[..|s| - 1]) else s
  }

  function Trim(s: string): string { TrimRight(TrimLeft(s)) }

  // ---------- What one file says ----------

  /** The awk arrays: values by file number and key, and the keys in the order they were first seen. */
  datatype Conf = Conf(nf: nat, vals: map<(nat, string), string>, keys: seq<string>)

  datatype Line = Ignored | Section(name: string) | Pair(key: string, value: string)

  function ParseLine(raw: string): Line {
    var line := Trim(raw);
    if line == "" || line[0] == '#' || line[0] == ';' then Ignored
    else if |line| >= 2 && line[0] == '[' && line[|line| - 1] == ']' then Section(line[1..|line| - 1])
    else
      var eq := Span(line, {'='});
      if eq == |line| then Ignored else Pair(Trim(line[..eq]), Trim(line[eq + 1..]))
  }

  function Record(c: Conf, key: string, value: string): Conf {
    Conf(c.nf, c.vals[(c.nf, key) := value], if key in c.keys then c.keys else c.keys + [key])
  }

  function ReadLines(c: Conf, section: string, lines: seq<string>): Conf
    decreases |lines|
  {
    if lines == [] then c
    else
      match ParseLine(lines[0])
      case Ignored => ReadLines(c, section, lines[1..])
      case Section(name) => ReadLines(c, name, lines[1..])
      case Pair(key, value) =>
        ReadLines(if section == "preferred" then Record(c, key, value) else c, section, lines[1..])
  }

  /** A file without lines is not counted. */
  function ReadFile(c: Conf, lines: seq<string>): Conf {
    if lines == [] then c else ReadLines(c.(nf := c.nf + 1), "", lines)
  }

  function ReadFiles(c: Conf, files: seq<seq<string>>): Conf
    decreases |files|
  {
    if files == [] then c else ReadFiles(ReadFile(c, files[0]), files[1..])
  }

  function ReadAll(files: seq<seq<string>>): Conf { ReadFiles(Conf(0, map[], []), files) }

  // ---------- Resolution ----------

  const NOKEY: string := [1 as char] + "none-such" + [1 as char]

  /** What file i says of a key; the sentinel value reads as nothing. */
  function Lookup(c: Conf, i: nat, key: string): Option<string> {
    if (i, key) in c.vals && c.vals[(i, key)] != NOKEY then Some(c.vals[(i, key)]) else None
  }

  predicate HasNone(value: string) {
    exists k :: 0 <= k < |Split(value, ';')| && Trim(Split(value, ';')[k]) == "none"
  }

  /** What `add` makes of each piece: trimmed, without empty ones and without `none`. */
  function Items(pieces: seq<string>): seq<string> {
    if pieces == [] then [] else ItemOf(pieces[0]) + Items(pieces[1..])
  }

  function ListItems(value: string): seq<string> { Items(Split(value, ';')) }

  /** Entries followed by the items they lack, each once. */
  function AddNew(entries: seq<string>, items: seq<string>): seq<string>
    decreases |items|
  {
    if items == [] then entries
    else AddNew(if items[0] in entries then entries else entries + [items[0]], items[1..])
  }

  lemma {:induction false} AddNewConcat(entries: seq<string>, a: seq<string>, b: seq<string>)
    ensures AddNew(entries, a + b) == AddNew(AddNew(entries, a), b)
    decreases |a|
  {
    if a == [] {
      assert a + b == b;
    } else {
      assert (a + b)[1..] == a[1..] + b;
      AddNewConcat(if a[0] in entries then entries else entries + [a[0]], a[1..], b);
    }
  }

  /** What one piece adds. */
  function ItemOf(piece: string): seq<string> {
    if Trim(piece) == "" || Trim(piece) == "none" then [] else [Trim(piece)]
  }

  lemma NothingToAdd(entries: seq<string>, pieces: seq<string>)
    requires pieces == []
    ensures AddNew(entries, Items(pieces)) == entries
  {}

  lemma AddPiece(entries: seq<string>, a: seq<string>, i: nat)
    requires i < |a|
    ensures AddNew(entries, Items(a[i..])) == AddNew(AddNew(entries, ItemOf(a[i])), Items(a[i + 1..]))
  {
    hide Trim;
    assert a[i..][1..] == a[i + 1..];
    AddNewConcat(entries, ItemOf(a[i]), Items(a[i + 1..]));
  }

  /** The candidates for a key, and whether `none` ends them. */
  datatype Resolution = Resolution(entries: seq<string>, stopped: bool)

  function ResolveFrom(c: Conf, key: string, i: nat, entries: seq<string>): Resolution
    decreases c.nf + 1 - i
  {
    if i > c.nf then Resolution(entries, false)
    else
      var il, dl := Lookup(c, i, key), Lookup(c, i, "default");
      var defaults := if dl.Some? then ListItems(dl.value) else [];
      if il.Some? then
        if HasNone(il.value) then Resolution(entries, true)
        else ResolveFrom(c, key, i + 1, AddNew(AddNew(entries, ListItems(il.value)), defaults))
      else if dl.Some? && HasNone(dl.value) then Resolution(entries, true)
      else ResolveFrom(c, key, i + 1, AddNew(entries, defaults))
  }

  function Resolve(c: Conf, key: string): Resolution { ResolveFrom(c, key, 1, []) }

  // ---------- Printing ----------

  function Join(entries: seq<string>): string {
    if entries == [] then ""
    else if |entries| == 1 then entries[0]
    else Join(entries[..|entries| - 1]) + ";" + entries[|entries| - 1]
  }

  function Shown(r: Resolution): string { Join(if r.stopped then r.entries + ["none"] else r.entries) }

  function KeyLine(c: Conf, key: string): seq<string> {
    var shown := Shown(Resolve(c, key));
    if shown == "" then [] else [key + "=" + shown + ";"]
  }

  function KeyLines(c: Conf, keys: seq<string>): seq<string> {
    if keys == [] then []
    else (if keys[0] == "default" then [] else KeyLine(c, keys[0])) + KeyLines(c, keys[1..])
  }

  /** The flattened file. */
  function Printed(c: Conf): seq<string> {
    ["[preferred]"] + KeyLines(c, c.keys) + KeyLine(c, "default")
  }

  // ---------- The awk program ----------

  class Flattener {
    var nf: nat
    var section: string
    var vals: map<(nat, string), string>
    var allkeys: seq<string>
    var used: set<string>
    var out: string
    /** What `used` and `out` hold, in order. */
    ghost var entries: seq<string>

    function Read(): Conf
      reads this
    {
      Conf(nf, vals, allkeys)
    }

    ghost predicate Holds()
      reads this
    {
      && (forall e :: e in used <==> e in entries)
      && (forall k :: 0 <= k < |entries| ==> entries[k] != "")
      && out == Join(entries)
    }

    constructor ()
      ensures Read() == Conf(0, map[], []) && Holds()
    {
      nf, section, vals, allkeys, used, out, entries := 0, "", map[], [], {}, "", [];
    }

    /** The pattern-action part, for one line. */
    method ReadLine(raw: string)
      modifies this`section, this`vals, this`allkeys
      ensures Read() == match ParseLine(raw)
        case Pair(key, value) => if section == "preferred" then Record(old(Read()), key, value) else old(Read())
        case _ => old(Read())
      ensures section == match ParseLine(raw) case Section(name) => name case _ => old(section)
    {
      var line := Trim(raw);
      if line == "" || line[0] == '#' || line[0] == ';' {
        return;
      }
      if |line| >= 2 && line[0] == '[' && line[|line| - 1] == ']' {
        section := line[1..|line| - 1];
        return;
      }
      if section != "preferred" {
        return;
      }
      var eq := Span(line, {'='});
      if eq == |line| {
        return;
      }
      var key := Trim(line[..eq]);
      if key !in allkeys {
        allkeys := allkeys + [key];
      }
      vals := vals[(nf, key) := Trim(line[eq + 1..])];
    }

    method ReadOne(lines: seq<string>)
      modifies this`nf, this`section, this`vals, this`allkeys
      ensures Read() == ReadFile(old(Read()), lines)
    {
      hide ParseLine, Record;
      var i := 0;
      while i < |lines|
        invariant 0 <= i <= |lines|
        invariant i == 0 ==> Read() == old(Read())
        invariant i > 0 ==> ReadLines(Read(), section, lines[i..]) == ReadFile(old(Read()), lines)
      {
        if i == 0 {
          nf := nf + 1;
          section := "";
          assert lines[0..] == lines;
        }
        assert lines[i..][1..] == lines[i + 1..];
        ReadLine(lines[i]);
        i := i + 1;
      }
    }

    method ReadChain(files: seq<seq<string>>)
      modifies this`nf, this`section, this`vals, this`allkeys
      ensures Read() == ReadFiles(old(Read()), files)
    {
      var i := 0;
      assert files[0..] == files;
      while i < |files|
        invariant 0 <= i <= |files|
        invariant ReadFiles(Read(), files[i..]) == ReadFiles(old(Read()), files)
      {
        assert files[i..][1..] == files[i + 1..];
        ReadOne(files[i]);
        i := i + 1;
      }
    }

    method Add(item: string)
      requires Holds()
      modifies this`used, this`out, this`entries
      ensures Holds()
      ensures entries == AddNew(old(entries), if item == "" || item == "none" then [] else [item])
    {
      if item == "" || item == "none" || item in used {
        return;
      }
      used := used + {item};
      out := if out == "" then item else out + ";" + item;
      JoinMore(entries, item);
      entries := entries + [item];
    }

    method AddList(value: string)
      requires Holds()
      modifies this`used, this`out, this`entries
      ensures Holds()
      ensures entries == AddNew(old(entries), ListItems(value))
    {
      hide Trim, AddNew, Items, Holds;
      var a := Split(value, ';');
      var i := 0;
      assert a[0..] == a;
      while i < |a|
        invariant 0 <= i <= |a| && Holds()
        invariant AddNew(entries, Items(a[i..])) == AddNew(old(entries), Items(a))
      {
        AddPiece(entries, a, i);
        Add(Trim(a[i]));
        i := i + 1;
      }
      NothingToAdd(entries, a[i..]);
    }

    method NoneIn(value: string) returns (found: bool)
      ensures found == HasNone(value)
    {
      var a := Split(value, ';');
      var i := 0;
      while i < |a|
        invariant 0 <= i <= |a|
        invariant forall k :: 0 <= k < i ==> Trim(a[k]) != "none"
      {
        if Trim(a[i]) == "none" {
          return true;
        }
        i := i + 1;
      }
      return false;
    }

    /** terminate */
    method Terminate() returns (r: string)
      requires Holds()
      modifies this`out
      ensures r == Shown(Resolution(entries, true))
    {
      JoinMore(entries, "none");
      out := if out == "" then "none" else out + ";none";
      r := out;
    }

    method Flatten(key: string) returns (r: string)
      modifies this`used, this`out, this`entries
      ensures r == Shown(Resolve(Read(), key))
    {
      hide HasNone, ListItems, Trim;
      used, out, entries := {}, "", [];
      var i := 1;
      while i <= nf
        invariant 1 <= i <= nf + 1 && Holds()
        invariant ResolveFrom(Read(), key, i, entries) == Resolve(Read(), key)
      {
        var il := if (i, key) in vals then vals[(i, key)] else NOKEY;
        var dl := if (i, "default") in vals then vals[(i, "default")] else NOKEY;
        if il != NOKEY {
          var stop := NoneIn(il);
          if stop {
            r := Terminate();
            return;
          }
          AddList(il);
          if dl != NOKEY {
            AddList(dl);
          }
        } else if dl != NOKEY {
          var stop := NoneIn(dl);
          if stop {
            r := Terminate();
            return;
          }
          AddList(dl);
        }
        i := i + 1;
      }
      r := out;
    }

    /** What the END block prints for a key. */
    method PrintKey(key: string) returns (lines: seq<string>)
      modifies this`used, this`out, this`entries
      ensures lines == KeyLine(Read(), key)
    {
      hide Resolve, Shown;
      var r := Flatten(key);
      lines := if r != "" then [key + "=" + r + ";"] else [];
    }

    /** The END block. */
    method Print() returns (lines: seq<string>)
      modifies this`used, this`out, this`entries
      ensures lines == Printed(Read())
    {
      hide KeyLine;
      lines := ["[preferred]"];
      var i := 0;
      while i < |allkeys|
        invariant 0 <= i <= |allkeys|
        invariant lines + KeyLines(Read(), allkeys[i..]) == ["[preferred]"] + KeyLines(Read(), allkeys)
      {
        assert allkeys[i..][1..] == allkeys[i + 1..];
        if allkeys[i] != "default" {
          var printed := PrintKey(allkeys[i]);
          lines := lines + printed;
        }
        i := i + 1;
      }
      var printed := PrintKey("default");
      lines := lines + printed;
    }
  }

  lemma JoinMore(entries: seq<string>, item: string)
    requires forall k :: 0 <= k < |entries| ==> entries[k] != ""
    ensures Join(entries) == "" <==> entries == []
    ensures Join(entries + [item]) == if entries == [] then item else Join(entries) + ";" + item
  {
    assert (entries + [item])[..|entries|] == entries;
  }

  /** xdp_flatten_preferred; no chain, no output. */
  method FlattenPreferred(files: seq<seq<string>>) returns (lines: seq<string>)
    ensures lines == if files == [] then [] else Printed(ReadAll(files))
  {
    if |files| == 0 {
      return [];
    }
    var program := new Flattener();
    program.ReadChain(files);
    lines := program.Print();
  }

  // ---------- xdp_conf_set ----------

  function LinesWithout(lines: seq<string>, key: string): seq<string> {
    if lines == [] then []
    else (if StartsWith(lines[0], key + "=") then [] else [lines[0]]) + LinesWithout(lines[1..], key)
  }

  function ConfSet(lines: seq<string>, key: string, value: string): seq<string> {
    LinesWithout(lines, key) + [key + "=" + value]
  }

  /** The file is rewritten line by line into a temporary one, which then takes its place. */
  class ConfFile {
    var lines: seq<string>

    constructor (initial: seq<string>)
      ensures lines == initial
    {
      lines := initial;
    }

    method Set(key: string, value: string)
      modifies this
      ensures lines == ConfSet(old(lines), key, value)
    {
      var tmp := [];
      var i := 0;
      assert lines[0..] == lines;
      while i < |lines|
        invariant 0 <= i <= |lines| && lines == old(lines)
        invariant tmp + LinesWithout(lines[i..], key) == LinesWithout(lines, key)
      {
        assert lines[i..][1..] == lines[i + 1..];
        if !StartsWith(lines[i], key + "=") {
          tmp := tmp + [lines[i]];
        }
        i := i + 1;
      }
      tmp := tmp + [key + "=" + value];
      lines := tmp;
    }
  }

  // ---------- xdp_experimental_portals ----------

  predicate Occurs(part: string, whole: string) {
    exists i :: 0 <= i <= |whole| && StartsWith(whole[i..], part)
  }

  /** The shell pattern *",$name,"* on ",$enabled,". */
  predicate IsEnabled(enabled: string, name: string) { Occurs("," + name + ",", "," + enabled + ",") }

  function WithName(enabled: string, name: string): string {
    if IsEnabled(enabled, name) then enabled
    else if enabled == "" then name
    else enabled + "," + name
  }

  function WithNames(enabled: string, names: seq<string>): string
    decreases |names|
  {
    if names == [] then enabled else WithNames(WithName(enabled, names[0]), names[1..])
  }

  method ExperimentalPortals(environment: Option<string>, names: seq<string>) returns (enabled: string)
    ensures enabled == WithNames(if environment.Some? then environment.value else "", names)
  {
    enabled := if environment.Some? then environment.value else "";
    var i := 0;
    assert names[0..] == names;
    while i < |names|
      invariant 0 <= i <= |names|
      invariant WithNames(enabled, names[i..]) == WithNames(if environment.Some? then environment.value else "", names)
    {
      assert names[i..][1..] == names[i + 1..];
      if !IsEnabled(enabled, names[i]) {
        if enabled != "" {
          enabled := enabled + "," + names[i];
        } else {
          enabled := names[i];
        }
      }
      i := i + 1;
    }
  }
}

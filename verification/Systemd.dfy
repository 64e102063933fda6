/**
 systemd unit properties: the printer, the parser of "systemctl show" and the check that a unit is
 enabled and running (internal/remoteflight/systemd, internal/remoteflight/vault/checks.go).
 */
module Systemd {
  import opened Wrappers
  import opened Orders

  type UnitProperties = map<string, string>

  const ENABLED_AND_RUNNING: UnitProperties := map[
    "LoadState" := "loaded", "ActiveState" := "active", "SubState" := "running", "UnitFileState" := "enabled"]

  // ---------------------------------------------------------------------------------------------
  // Printing

  function Line(name: string, value: string): string {
    name + "=" + value
  }

  function Printed(p: UnitProperties, names: seq<string>): string
    requires forall k :: k in names ==> k in p
  {
    if names == [] then "" else Line(names[0], p[names[0]]) + "\n" + Printed(p, names[1..])
  }

  lemma {:induction false} PrintedSnoc(p: UnitProperties, names: seq<string>, name: string)
    requires forall k :: k in names + [name] ==> k in p
    ensures Printed(p, names + [name]) == Printed(p, names) + Line(name, p[name]) + "\n"
  {
    if names == [] {
      assert [name][1..] == [];
    } else {
      assert (names + [name])[1..] == names[1..] + [name];
      PrintedSnoc(p, names[1..], name);
    }
  }

  /** String, in whatever order the map yields its keys. */
  method ToString(p: UnitProperties) returns (out: string)
    ensures exists names :: Permutes(names, p.Keys) && out == Printed(p, names)
  {
    out := "";
    ghost var names := [];
    var todo := p.Keys;
    while todo != {}
      invariant todo <= p.Keys && Permutes(names, p.Keys - todo) && out == Printed(p, names)
    {
      var name :| name in todo;
      PrintedSnoc(p, names, name);
      out := out + Line(name, p[name]) + "\n";
      names := names + [name];
      todo := todo - {name};
    }
  }

  // ---------------------------------------------------------------------------------------------
  // Parsing

  /** The first position of c, or the length. */
  function IndexOf(s: string, c: char): (i: nat)
    ensures i <= |s| && c !in s[..i] && (i < |s| ==> s[i] == c)
  {
    if s == "" || s[0] == c then 0 else
      var i := IndexOf(s[1..], c);
      assert s[..i + 1] == [s[0]] + s[1..][..i];
      i + 1
  }

  function DropCR(line: string): string {
    if line != "" && line[|line| - 1] == '\r' then line[..|line| - 1] else line
  }

  /** bufio.ScanLines */
  function Scan(s: string): seq<string> {
    if s == "" then [] else
      var i := IndexOf(s, '\n');
      [DropCR(s[..i])] + (if i < |s| then Scan(s[i + 1..]) else [])
  }

  /** What one line contributes; a line without '=' contributes nothing. */
  function Entry(line: string): UnitProperties {
    var i := IndexOf(line, '=');
    if i < |line| then map[line[..i] := line[i + 1..]] else map[]
  }

  /** All lines together; a later one overrides an earlier one. */
  function Entries(lines: seq<string>): UnitProperties {
    if lines == [] then map[] else Entry(lines[0]) + Entries(lines[1..])
  }

  method DecodeUnitPropertiesFromShow(show: string) returns (props: UnitProperties)
    ensures props == Entries(Scan(show))
  {
    hide Scan, Entries;
    props := map[];
    var lines := Scan(show);
    assert lines[0..] == lines;
    for i := 0 to |lines|
      invariant props + Entries(lines[i..]) == Entries(lines)
    {
      EntriesFrom(lines, i, props);
      if lines[i] != "" {
        var at := IndexOf(lines[i], '=');
        if at < |lines[i]| {
          props := props[lines[i][..at] := lines[i][at + 1..]];
        }
      }
    }
    NoEntries(lines[|lines|..]);
  }

  lemma EntriesFrom(lines: seq<string>, i: nat, props: UnitProperties)
    requires i < |lines|
    ensures props + Entries(lines[i..]) == (props + Entry(lines[i])) + Entries(lines[i + 1..])
  {
    assert lines[i..][1..] == lines[i + 1..];
  }

  lemma NoEntries(lines: seq<string>)
    ensures lines == [] ==> Entries(lines) == map[]
  {
  }

  // ---------------------------------------------------------------------------------------------
  // The round trip

  predicate NameOk(name: string) {
    '=' !in name && '\n' !in name
  }

  predicate ValueOk(value: string) {
    '\n' !in value && (value == "" || value[|value| - 1] != '\r')
  }

  ghost predicate Printable(p: UnitProperties) {
    forall k :: k in p ==> NameOk(k) && ValueOk(p[k])
  }

  ghost predicate OneLineEach(p: UnitProperties) {
    forall k :: k in p ==> NameOk(k) && '\n' !in p[k]
  }

  lemma IndexOfAfter(a: string, c: char, b: string)
    requires c !in a
    ensures IndexOf(a + [c] + b, c) == |a|
  {
    var s := a + [c] + b;
    var i := IndexOf(s, c);
    assert s[|a|] == c;
    assert forall j :: 0 <= j < |a| ==> s[j] == a[j];
    assert forall j :: 0 <= j < i ==> s[j] != c by {
      assert forall j :: 0 <= j < i ==> s[..i][j] == s[j] && s[..i][j] in s[..i];
    }
  }

  lemma ScanLine(line: string, rest: string)
    requires '\n' !in line
    ensures Scan(line + "\n" + rest) == [DropCR(line)] + Scan(rest)
  {
    IndexOfAfter(line, '\n', rest);
    var s := line + "\n" + rest;
    assert s == line + ['\n'] + rest;
    assert s[..|line|] == line && s[|line| + 1..] == rest;
  }

  lemma EntryOfLine(name: string, value: string)
    requires NameOk(name)
    ensures Entry(DropCR(Line(name, value))) == map[name := DropCR(value)]
  {
    var line := Line(name, DropCR(value));
    assert DropCR(Line(name, value)) == line by {
      assert value != "" ==> Line(name, value)[|Line(name, value)| - 1] == value[|value| - 1];
    }
    IndexOfAfter(name, '=', DropCR(value));
    assert line == name + ['='] + DropCR(value);
    assert line[..|name|] == name && line[|name| + 1..] == DropCR(value);
  }

  lemma NothingPrinted()
    ensures Scan("") == []
  {
  }

  /** What comes back when every property fits on a line: everything but a trailing CR. */
  lemma {:induction false} DecodePrinted(p: UnitProperties, names: seq<string>)
    requires OneLineEach(p) && (forall k :: k in names ==> k in p)
    requires forall i, j :: 0 <= i < j < |names| ==> names[i] != names[j]
    ensures Entries(Scan(Printed(p, names))) == map k | k in names :: DropCR(p[k])
  {
    hide Scan, Entry, DropCR, IndexOf;
    NothingPrinted();
    if names != [] {
      var name, rest := names[0], names[1..];
      DecodePrinted(p, rest);
      assert '\n' !in Line(name, p[name]);
      ScanLine(Line(name, p[name]), Printed(p, rest));
      EntryOfLine(name, p[name]);
      assert name !in rest;
    }
  }

  lemma {:induction false} ScanHasNoNewline(s: string)
    ensures forall line :: line in Scan(s) ==> '\n' !in line
  {
    if s != "" {
      var i := IndexOf(s, '\n');
      if i < |s| { ScanHasNoNewline(s[i + 1..]); }
    }
  }

  /** Nothing else can come out of the parser. */
  lemma {:induction false} DecodedFits(lines: seq<string>)
    requires forall line :: line in lines ==> '\n' !in line
    ensures OneLineEach(Entries(lines))
  {
    if lines != [] {
      DecodedFits(lines[1..]);
      assert '\n' !in lines[0];
    }
  }

  /**
   Printing in any order and parsing gives the properties back exactly when no name holds '=' or a
   newline and no value holds a newline or ends with a carriage return.
   */
  lemma RoundTripIff(p: UnitProperties, names: seq<string>)
    requires Permutes(names, p.Keys)
    ensures Entries(Scan(Printed(p, names))) == p <==> Printable(p)
  {
    hide Scan, Entries, Printed, IndexOf;
    if OneLineEach(p) {
      DecodePrinted(p, names);
      forall k | k in p ensures DropCR(p[k]) == p[k] <==> ValueOk(p[k]) {
        assert k in names && NameOk(k);
      }
    } else {
      ScanHasNoNewline(Printed(p, names));
      DecodedFits(Scan(Printed(p, names)));
    }
  }

  /**
   What a line contributes: the text up to its first '=' names the rest of it, less a final carriage
   return; without '=' it contributes nothing, and what a later line says of the same name counts.
   */
  lemma DecodeLine(name: string, value: string, rest: string)
    requires '\n' !in name && '=' !in name && '\n' !in value && (value == "" || value[|value| - 1] != '\r')
    ensures Entries(Scan(name + "=" + value + "\n" + rest)) == map[name := value] + Entries(Scan(rest))
    ensures Entries(Scan(name + "=" + value + "\r\n" + rest)) == map[name := value] + Entries(Scan(rest))
    ensures Entries(Scan(name + "\n" + rest)) == Entries(Scan(rest))
  {
    hide Scan, IndexOf, Entry;
    var line := name + "=" + value;
    IndexOfAfter(name, '=', value);
    assert line == name + ['='] + value && line[..|name|] == name && line[|name| + 1..] == value;
    assert DropCR(line) == line by { assert value != "" ==> line[|line| - 1] == value[|value| - 1]; }
    assert DropCR(line + "\r") == line;
    ScanLine(line, rest);
    ScanLine(line + "\r", rest);
    ScanLine(name, rest);
    assert line + "\r" + "\n" + rest == line + "\r\n" + rest;
    EntryIs(name, value);
    EntryOfNone(DropCR(name));
    OneMore(line, Scan(rest));
    OneMore(DropCR(name), Scan(rest));
  }

  lemma EntryIs(name: string, value: string)
    requires '=' !in name
    ensures Entry(name + "=" + value) == map[name := value]
  {
    var line := name + "=" + value;
    IndexOfAfter(name, '=', value);
    assert line == name + ['='] + value && line[..|name|] == name && line[|name| + 1..] == value;
  }

  lemma EntryOfNone(line: string)
    requires '=' !in line
    ensures Entry(line) == map[]
  {
  }

  lemma OneMore(line: string, lines: seq<string>)
    ensures Entries([line] + lines) == Entry(line) + Entries(lines)
  {
    assert ([line] + lines)[1..] == lines;
  }

  /** A last line counts whether or not a newline follows it. */
  lemma {:induction false} LastLine(s: string)
    requires s != "" && s[|s| - 1] != '\n'
    ensures Scan(s + "\n") == Scan(s)
  {
    hide DropCR;
    var i := IndexOf(s, '\n');
    if i < |s| {
      IndexOfAfter(s[..i], '\n', s[i + 1..] + "\n");
      assert s + "\n" == s[..i] + ['\n'] + (s[i + 1..] + "\n");
      assert (s + "\n")[..i] == s[..i] && (s + "\n")[i + 1..] == s[i + 1..] + "\n";
      LastLine(s[i + 1..]);
    } else {
      IndexOfAfter(s, '\n', "");
      assert s + ['\n'] + "" == s + "\n" && (s + "\n")[..|s|] == s && (s + "\n")[|s| + 1..] == "";
      assert s[..i] == s;
    }
  }

  /** The same without the last newline, which a command's output has lost when it gets here. */
  lemma TrimmedRoundTrip(p: UnitProperties, names: seq<string>, show: string)
    requires Permutes(names, p.Keys) && Printable(p) && Printed(p, names) == show + "\n"
    ensures Entries(Scan(show)) == p
  {
    RoundTripIff(p, names);
    LastOfPrinted(p, names);
    assert Printed(p, names)[|show| - 1] == show[|show| - 1];
    LastLine(show);
  }

  lemma {:induction false} LastOfPrinted(p: UnitProperties, names: seq<string>)
    requires (forall k :: k in names ==> k in p) && OneLineEach(p) && names != []
    ensures var s := Printed(p, names); |s| > 1 && s[|s| - 2] != '\n'
  {
    var line, rest := Line(names[0], p[names[0]]), Printed(p, names[1..]);
    if |names| == 1 {
      assert Printed(p, names) == line + "\n" && line[|line| - 1] in line;
    } else {
      LastOfPrinted(p, names[1..]);
      assert Printed(p, names) == line + "\n" + rest;
    }
  }

  // ---------------------------------------------------------------------------------------------
  // The check

  predicate Includes(p: UnitProperties, q: UnitProperties) {
    forall k :: k in q ==> k in p && p[k] == q[k]
  }

  method HasProperties(p: UnitProperties, q: UnitProperties) returns (b: bool)
    ensures b <==> forall k :: k in q ==> k in p && p[k] == q[k]
  {
    var todo := q.Keys;
    while todo != {}
      invariant todo <= q.Keys && forall k :: k in q.Keys - todo ==> k in p && p[k] == q[k]
    {
      var k :| k in todo;
      if k !in p || p[k] != q[k] { return false; }
      todo := todo - {k};
    }
    return true;
  }

  /** FindProperties: the named properties; a missing one is an error and found empty. */
  method FindProperties(p: UnitProperties, q: UnitProperties) returns (found: UnitProperties, ok: bool)
    ensures found == map k | k in q :: if k in p then p[k] else ""
    ensures ok <==> q.Keys <= p.Keys
  {
    found, ok := map[], true;
    var todo := q.Keys;
    while todo != {}
      invariant todo <= q.Keys && found == map k | k in q.Keys - todo :: if k in p then p[k] else ""
      invariant ok <==> q.Keys - todo <= p.Keys
    {
      var k :| k in todo;
      ok := ok && k in p;
      found := found[k := if k in p then p[k] else ""];
      todo := todo - {k};
    }
  }

  /** CheckStateHasSystemdEnabledAndRunningProperties */
  method CheckEnabledAndRunning(p: UnitProperties) returns (ok: bool)
    ensures ok <==> Includes(p, ENABLED_AND_RUNNING)
  {
    var found, all := FindProperties(p, ENABLED_AND_RUNNING);
    if !all { return false; }
    ok := HasProperties(found, ENABLED_AND_RUNNING);
  }

  /** On what comes back from a printed unit, the check holds iff the four pairs were printed. */
  method CheckPrinted(p: UnitProperties) returns (ok: bool)
    requires Printable(p)
    ensures ok <==> "LoadState" in p && p["LoadState"] == "loaded" && "ActiveState" in p && p["ActiveState"] == "active"
                    && "SubState" in p && p["SubState"] == "running"
                    && "UnitFileState" in p && p["UnitFileState"] == "enabled"
  {
    var show := ToString(p);
    ghost var names :| Permutes(names, p.Keys) && show == Printed(p, names);
    var q := DecodeUnitPropertiesFromShow(show);
    RoundTripIff(p, names);
    ok := CheckEnabledAndRunning(q);
    FourPairs(p);
  }

  lemma FourPairs(p: UnitProperties)
    ensures Includes(p, ENABLED_AND_RUNNING) <==>
            "LoadState" in p && p["LoadState"] == "loaded" && "ActiveState" in p && p["ActiveState"] == "active"
            && "SubState" in p && p["SubState"] == "running" && "UnitFileState" in p && p["UnitFileState"] == "enabled"
  {
    var q := ENABLED_AND_RUNNING;
    assert "LoadState" in q && "ActiveState" in q && "SubState" in q && "UnitFileState" in q;
    assert q["LoadState"] == "loaded" && q["ActiveState"] == "active";
    assert q["SubState"] == "running" && q["UnitFileState"] == "enabled";
  }
}

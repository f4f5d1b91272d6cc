/**
 * The command table of the 4relhat tool and the two walks over it that do
 * not change any state: the case-insensitive lookup `main` uses to pick a
 * handler, and the `-h` handler, which looks one name up and prints help.
 */
module Cli {

  /** One piece of what the program writes, to standard output or to the
      self-test result file. Version and warranty texts are kept abstract. */
  datatype Out = Text(s: string) | Number(n: int) | VersionBanner | WarrantyText

  /** The handler a descriptor points at. */
  datatype Command = Version | Help | Warranty | RelayWrite | RelayRead | RelayTest

  /** A command descriptor (`CliCmdType`): the name, the position in the
      argument vector where the name is expected, the handler, and the
      four help strings. */
  datatype Descriptor = Descriptor(
    name: string,
    namePos: nat,
    handler: Command,
    help: string,
    usage1: string,
    usage2: string,
    example: string)

  /** The number of entries the `-h` handler compares its loop index with. */
  const CmdArraySize: nat := 6

  const CmdVersion := Descriptor("-v", 1, Version,
    "\t-v           Display the version number\n",
    "\tUsage:       4relhat -v\n",
    "",
    "\tExample:     4relhat -v  Display the version number\n")

  const CmdHelp := Descriptor("-h", 1, Help,
    "\t-h           Display the list of command options or one command option details\n",
    "\tUsage:       4relhat -h    Display command options list\n",
    "\tUsage:       4relhat -h <param>   Display help for <param> command option\n",
    "\tExample:     4relhat -h write    Display help for \"write\" command option\n")

  const CmdWarranty := Descriptor("-warranty", 1, Warranty,
    "\t-warranty    Display the warranty\n",
    "\tUsage:       4relhat -warranty\n",
    "",
    "\tExample:     4relhat -warranty  Display the warranty text\n")

  const CmdWrite := Descriptor("write", 1, RelayWrite,
    "\twrite:       Set relays On/Off\n",
    "\tUsage:       4relhat write <channel> <on/off>\n",
    "",
    "\tExample:     4relhat write 2 1; Set Relay #2 on Board #0 On\n")

  const CmdRead := Descriptor("read", 1, RelayRead,
    "\tread:        Read relays status\n",
    "\tUsage:       4relhat read <channel>\n",
    "",
    "\tExample:     4relhat read 2; Read Status of Relay #2 on Board #0\n")

  const CmdTest := Descriptor("test", 1, RelayTest,
    "\ttest:        Turn ON and OFF the relays until press a key\n",
    "\tUsage:       4relhat test\n",
    "",
    "\tExample:     4relhat test\n")

  /** The command table in declared order; the NULL sentinel is the end of the sequence. */
  const Table: seq<Descriptor> := [CmdVersion, CmdHelp, CmdWarranty, CmdWrite, CmdRead, CmdTest]

  /** `tolower` in the C locale. */
  function LowerChar(c: char): char {
    if 'A' <= c <= 'Z' then (c as int + 32) as char else c
  }

  /** `strcasecmp(a, b) == 0`. */
  predicate SameIgnoringCase(a: string, b: string) {
    |a| == |b| && forall k :: 0 <= k < |a| ==> LowerChar(a[k]) == LowerChar(b[k])
  }

  /** The test `main` applies to one descriptor. */
  predicate Matches(d: Descriptor, argv: seq<string>) {
    d.namePos < |argv| && SameIgnoringCase(argv[d.namePos], d.name)
  }

  /** The index of the first entry of `t`, at or after `from`, that matches `argv`. */
  function LookupFrom(t: seq<Descriptor>, argv: seq<string>, from: nat): (r: Option<nat>)
    requires from <= |t|
    decreases |t| - from
    ensures r.Some? ==>
      && from <= r.value < |t|
      && Matches(t[r.value], argv)
      && forall j :: from <= j < r.value ==> !Matches(t[j], argv)
    ensures r.None? ==> forall j :: from <= j < |t| ==> !Matches(t[j], argv)
  {
    if from == |t| then None
    else if Matches(t[from], argv) then Some(from)
    else LookupFrom(t, argv, from + 1)
  }

  /** The entry `main` dispatches to: the first match in declared order. */
  function Lookup(t: seq<Descriptor>, argv: seq<string>): Option<nat> {
    LookupFrom(t, argv, 0)
  }

  /** The index of the first entry of `t`, at or after `from`, whose name is `s` up to case. */
  function LookupNameFrom(t: seq<Descriptor>, s: string, from: nat): (r: Option<nat>)
    requires from <= |t|
    decreases |t| - from
    ensures r.Some? ==>
      && from <= r.value < |t|
      && SameIgnoringCase(s, t[r.value].name)
      && forall j :: from <= j < r.value ==> !SameIgnoringCase(s, t[j].name)
    ensures r.None? ==> forall j :: from <= j < |t| ==> !SameIgnoringCase(s, t[j].name)
  {
    if from == |t| then None
    else if SameIgnoringCase(s, t[from].name) then Some(from)
    else LookupNameFrom(t, s, from + 1)
  }

  /** The usage listing: usage1 then usage2 of every entry, in table order. */
  function UsageListing(t: seq<Descriptor>): seq<Out> {
    if t == [] then []
    else UsageListing(t[..|t| - 1]) + [Text(t[|t| - 1].usage1), Text(t[|t| - 1].usage2)]
  }

  /** What `-h <name>` prints for an entry it found. */
  function HelpBlock(d: Descriptor): seq<Out> {
    [Text(d.help), Text(d.usage1), Text(d.usage2), Text(d.example)]
  }

  /** What `-h <name>` prints before the listing when no entry has that name. */
  function NotFound(s: string): seq<Out> {
    [Text("Option \"" + s + "\" not found\n")]
  }

  datatype Option<T> = None | Some(value: T)

  lemma {:induction false} UsageListingShape(t: seq<Descriptor>)
    ensures |UsageListing(t)| == 2 * |t|
    ensures forall j :: 0 <= j < |t| ==>
      UsageListing(t)[2 * j] == Text(t[j].usage1) && UsageListing(t)[2 * j + 1] == Text(t[j].usage2)
  {
    if t != [] {
      var init := t[..|t| - 1];
      UsageListingShape(init);
      forall j | 0 <= j < |t|
        ensures UsageListing(t)[2 * j] == Text(t[j].usage1) && UsageListing(t)[2 * j + 1] == Text(t[j].usage2)
      {
        if j < |t| - 1 {
          assert t[j] == init[j];
        }
      }
    }
  }

  /** Case-insensitive equality is an equivalence: reflexive, symmetric and transitive. */
  lemma SameIgnoringCaseEquivalence(a: string, b: string, c: string)
    ensures SameIgnoringCase(a, a)
    ensures SameIgnoringCase(a, b) ==> SameIgnoringCase(b, a)
    ensures SameIgnoringCase(a, b) && SameIgnoringCase(b, c) ==> SameIgnoringCase(a, c)
  {
  }

  /** No two names of the table are equal up to case. */
  lemma NamesDistinct()
    ensures forall i, j :: 0 <= i < j < |Table| ==> !SameIgnoringCase(Table[i].name, Table[j].name)
  {
    assert LowerChar(Table[0].name[1]) != LowerChar(Table[1].name[1]);
    assert LowerChar(Table[4].name[0]) != LowerChar(Table[5].name[0]);
  }

  /** Every entry expects its name at position 1, and only `-h` has a second
      usage line. */
  lemma NamesAtPositionOne()
    ensures forall j :: 0 <= j < |Table| ==> Table[j].namePos == 1
    ensures forall j :: 0 <= j < |Table| && j != 1 ==> Table[j].usage2 == ""
  {
  }

  /** At most one entry matches any argument vector, so first-match-wins never
      shadows a later entry: the table order is only a priority in name. */
  lemma MatchIsUnique(argv: seq<string>, i: nat, j: nat)
    requires i < |Table| && j < |Table|
    requires Matches(Table[i], argv) && Matches(Table[j], argv)
    ensures i == j
  {
    NamesDistinct();
    var a := argv[1];
    SameIgnoringCaseEquivalence(Table[i].name, a, Table[j].name);
    SameIgnoringCaseEquivalence(a, Table[i].name, Table[j].name);
    SameIgnoringCaseEquivalence(Table[j].name, a, Table[i].name);
    SameIgnoringCaseEquivalence(a, Table[j].name, Table[i].name);
  }

  /** The walk in `main`: the index of the first entry, in declared order,
      whose name is at its position in `argv` up to case. */
  method FindCommand(argv: seq<string>) returns (found: Option<nat>)
    ensures found.Some? ==>
      && found.value < |Table|
      && Matches(Table[found.value], argv)
      && forall j :: 0 <= j < found.value ==> !Matches(Table[j], argv)
    ensures found.None? ==> forall j :: 0 <= j < |Table| ==> !Matches(Table[j], argv)
    ensures found == Lookup(Table, argv)
  {
    var i := 0;
    while i < |Table|
      invariant 0 <= i <= |Table|
      invariant Lookup(Table, argv) == LookupFrom(Table, argv, i)
    {
      var d := Table[i];
      if d.namePos < |argv| && SameIgnoringCase(argv[d.namePos], d.name) {
        return Some(i);
      }
      i := i + 1;
    }
    return None;
  }

  /** The printing loop used by `main` and `-h`. */
  method PrintUsage() returns (out: seq<Out>)
    ensures out == UsageListing(Table)
  {
    out := [];
    var i := 0;
    while i < |Table|
      invariant 0 <= i <= |Table|
      invariant out == UsageListing(Table[..i])
    {
      assert Table[..i + 1][..i] == Table[..i];
      out := out + [Text(Table[i].usage1), Text(Table[i].usage2)];
      i := i + 1;
    }
    assert Table[..i] == Table;
  }

  /** The search loop of `-h <name>`: it stops at the first entry whose name
      is `s` up to case, or runs off the table. Because the table has exactly
      `CmdArraySize` entries, the handler's test `i == CmdArraySize` holds
      exactly when no entry matched. */
  method ScanHelp(s: string) returns (i: nat)
    ensures i <= |Table|
    ensures i < |Table| ==> SameIgnoringCase(s, Table[i].name)
    ensures forall j :: 0 <= j < i ==> !SameIgnoringCase(s, Table[j].name)
    ensures i == CmdArraySize <==> forall j :: 0 <= j < |Table| ==> !SameIgnoringCase(s, Table[j].name)
  {
    i := 0;
    while i < |Table|
      invariant 0 <= i <= |Table|
      invariant forall j :: 0 <= j < i ==> !SameIgnoringCase(s, Table[j].name)
    {
      if SameIgnoringCase(s, Table[i].name) {
        break;
      }
      i := i + 1;
    }
  }

  /** The `-h` handler. With exactly one extra argument it prints the help of
      the entry with that name, or a not-found line and the whole listing;
      otherwise it prints the listing. */
  method DoHelp(argv: seq<string>) returns (out: seq<Out>)
    ensures |argv| != 3 ==> out == UsageListing(Table)
    ensures |argv| == 3 ==>
      match LookupNameFrom(Table, argv[2], 0)
      case Some(j) => out == HelpBlock(Table[j])
      case None => out == NotFound(argv[2]) + UsageListing(Table)
  {
    if |argv| == 3 {
      var i := ScanHelp(argv[2]);
      if i == CmdArraySize {
        var listing := PrintUsage();
        out := NotFound(argv[2]) + listing;
      } else {
        out := HelpBlock(Table[i]);
      }
    } else {
      out := PrintUsage();
    }
  }
}

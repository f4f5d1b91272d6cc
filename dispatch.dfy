/**
 * `main`: with no argument it prints the usage listing and returns 1;
 * otherwise it runs the handler of the first table entry whose name is at
 * that entry's position in `argv`, up to case, and returns 0, or prints an
 * invalid-option line and the listing and returns 1 when no entry matches.
 * A handler that calls `exit(1)` ends the process with status 1 instead.
 */
module Dispatch {
  import opened Cli
  import opened Gpio
  import opened Relay
  import opened SelfTest

  /** How the process ends: the status `main` returns or `exit` passes, or
      still running, for a self-test whose watcher never answered. */
  datatype Exit = ExitCode(code: int) | StillRunning

  const InvalidOption := "! Invalid command option\n"

  /** What the handler `cmd` did, from driver calls `c0` and levels `l0`:
      its exit, what it printed, what reached the result file, and the
      driver calls and levels it left. */
  ghost predicate Handled(cmd: Command, argv: seq<string>, opens: bool, polls: seq<Poll>,
                          c0: seq<Call>, l0: map<int, int>, calls: seq<Call>, level: map<int, int>,
                          exit: Exit, out: seq<Out>, file: seq<Out>)
    requires |argv| >= 2
  {
    match cmd
    case Version =>
      exit == ExitCode(0) && out == [VersionBanner] && file == [] && calls == c0 && level == l0
    case Warranty =>
      exit == ExitCode(0) && out == [WarrantyText] && file == [] && calls == c0 && level == l0
    case Help =>
      && exit == ExitCode(0) && file == [] && calls == c0 && level == l0
      && (|argv| != 3 ==> out == UsageListing(Table))
      && (|argv| == 3 ==>
        match LookupNameFrom(Table, argv[2], 0)
        case Some(j) => out == HelpBlock(Table[j])
        case None => out == NotFound(argv[2]) + UsageListing(Table))
    case RelayWrite =>
      && file == []
      && (exit == ExitCode(0) || exit == ExitCode(1))
      && Wrote(argv, c0, l0, calls, level, exit == ExitCode(0), out)
    case RelayRead =>
      && file == []
      && (exit == ExitCode(0) || exit == ExitCode(1))
      && ReadBack(argv, c0, l0, calls, level, exit == ExitCode(0), out)
    case RelayTest =>
      && exit == (if Outcome(argv, opens, polls).Finished? then ExitCode(0) else StillRunning)
      && file == VerdictInFile(Outcome(argv, opens, polls))
      && Ran(argv, opens, polls, c0, l0, calls, level, out)
  }

  /** `pFunc(argc, argv)` of a matched entry, with `exit(1)` in a handler as
      status 1 and a normal return as `main`'s `return 0`. */
  method Invoke(cmd: Command, argv: seq<string>, opens: bool, polls: seq<Poll>, gpio: Driver)
      returns (exit: Exit, out: seq<Out>, file: seq<Out>)
    requires |argv| >= 2
    modifies gpio
    ensures Handled(cmd, argv, opens, polls, old(gpio.calls), old(gpio.level), gpio.calls, gpio.level, exit, out, file)
  {
    file := [];
    match cmd
    case Version =>
      exit, out := ExitCode(0), [VersionBanner];
    case Warranty =>
      exit, out := ExitCode(0), [WarrantyText];
    case Help =>
      out := DoHelp(argv);
      exit := ExitCode(0);
    case RelayWrite =>
      var ok;
      ok, out := DoRelayWrite(argv, gpio);
      exit := if ok then ExitCode(0) else ExitCode(1);
    case RelayRead =>
      var ok;
      ok, out := DoRelayRead(argv, gpio);
      exit := if ok then ExitCode(0) else ExitCode(1);
    case RelayTest =>
      var run;
      run, out, file := DoTest(argv, opens, polls, gpio);
      exit := if run.Finished? then ExitCode(0) else StillRunning;
  }

  /** Every table entry sits at position 1, so a match needs a command word. */
  lemma MatchNeedsCommand(argv: seq<string>)
    requires Lookup(Table, argv).Some?
    ensures |argv| >= 2
  {
    NamesAtPositionOne();
  }

  /** The handler's own `strcasecmp(argv[1], "test")` always holds when
      `main` dispatched to it, so the relay loop always runs. */
  lemma DispatchedTestRunsLoop(argv: seq<string>)
    requires Lookup(Table, argv).Some? && Table[Lookup(Table, argv).value].handler == RelayTest
    ensures |argv| >= 2 && RunsLoop(argv)
  {
    var j := Lookup(Table, argv).value;
    assert j == 5 by {
      assert Table[0].handler != RelayTest && Table[1].handler != RelayTest && Table[2].handler != RelayTest;
      assert Table[3].handler != RelayTest && Table[4].handler != RelayTest;
    }
  }

  /** `main`. `opens` says whether a result file named on the command line
      opens, and `polls` are the self-test watcher's answers. `ran` is the
      handler that ran, if any. */
  method Run(argv: seq<string>, opens: bool, polls: seq<Poll>, gpio: Driver)
      returns (exit: Exit, out: seq<Out>, file: seq<Out>, ghost ran: Option<Command>)
    modifies gpio
    ensures |argv| == 1 ==>
      && ran == None && exit == ExitCode(1) && out == UsageListing(Table) && file == []
      && gpio.calls == old(gpio.calls) && gpio.level == old(gpio.level)
    ensures |argv| != 1 && Lookup(Table, argv).None? ==>
      && ran == None && exit == ExitCode(1) && out == [Text(InvalidOption)] + UsageListing(Table) && file == []
      && gpio.calls == old(gpio.calls) && gpio.level == old(gpio.level)
    ensures |argv| != 1 && Lookup(Table, argv).Some? ==>
      && |argv| >= 2
      && ran == Some(Table[Lookup(Table, argv).value].handler)
      && Handled(ran.value, argv, opens, polls, old(gpio.calls), old(gpio.level), gpio.calls, gpio.level, exit, out, file)
  {
    file := [];
    if |argv| == 1 {
      out := PrintUsage();
      return ExitCode(1), out, file, None;
    }
    var found := FindCommand(argv);
    if found.None? {
      var listing := PrintUsage();
      return ExitCode(1), [Text(InvalidOption)] + listing, file, None;
    }
    MatchNeedsCommand(argv);
    var cmd := Table[found.value].handler;
    ran := Some(cmd);
    exit, out, file := Invoke(cmd, argv, opens, polls, gpio);
  }

  /** After a match, `main` ends with status 1 exactly when the `write` or
      `read` handler failed, and keeps running only in a self-test still
      waiting for an answer; every other handler returns and `main` returns 0. */
  lemma ExitStatus(cmd: Command, argv: seq<string>, opens: bool, polls: seq<Poll>,
                   c0: seq<Call>, l0: map<int, int>, calls: seq<Call>, level: map<int, int>,
                   exit: Exit, out: seq<Out>, file: seq<Out>)
    requires |argv| >= 2
    requires Handled(cmd, argv, opens, polls, c0, l0, calls, level, exit, out, file)
    ensures exit == ExitCode(0) || exit == ExitCode(1) || exit == StillRunning
    ensures exit == ExitCode(1) <==>
      || (cmd == RelayWrite && (WriteRequest(argv).Err? || calls[|c0|].result != 0))
      || (cmd == RelayRead && (ReadRequest(argv).Err? || calls[|c0|].result == -1))
    ensures exit == StillRunning <==> cmd == RelayTest && Outcome(argv, opens, polls).Unfinished?
  {
  }
}

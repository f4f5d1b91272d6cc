# 4relhat relay tool — a Dafny model

4relhat is a command-line tool for a Raspberry Pi add-on board with four
relays. A fixed table of six command descriptors (`-v`, `-h`, `-warranty`,
`write`, `read`, `test`) is matched case-insensitively against the command
word. The chosen handler then does one of the following:

- prints text;
- sets one relay through the GPIO driver (channels 1..4 map to pins 22, 23,
  25 and 24);
- reads one relay back;
- runs a production self-test. The test switches the relays on and off in
  sequence while polling a key-watcher thread, then reports PASS or FAIL and
  switches every relay off.

The model has five modules:

- `Cli` (cli.dfy): the descriptor datatype mirroring `CliCmdType` and the
  table. Also the case-insensitive first-match lookup of `main`, the usage
  listing, and the `-h` handler with its `i == CMD_ARRAY_SIZE` not-found
  test.
- `Gpio` (gpio.dfy): the GPIO driver as a class. It holds pin levels and a
  log of every request with its answer. The driver's success or failure is a
  nondeterministic choice. `Replay` computes the levels a stretch of calls
  leaves.
- `Relay` (relay.dfy): the channel-to-pin map, the clamp of the written
  value, `atoi`, and the `write` and `read` handlers. A handler's `exit(1)`
  becomes `ok == false`.
- `SelfTest` (selftest.dfy): the self-test sequencer.
  - `Pass` and `Cycle` are pure specifications of one `for` pass and of the
    `while (relayResult == 0)` loop, over a sequence of watcher polls.
  - `RelayPass`, `CycleRelays`, `ClearRelays` and `DoTest` are the loops
    themselves, as methods proved against those specifications.
  - Lemmas state what a run does to the relays and what verdict it gives.
- `Dispatch` (dispatch.dfy): `main`. It covers the exit status, including a
  handler's `exit(1)`, and what is printed when no command matches.

Output is a sequence of `Out` tokens, with the version and warranty texts
kept abstract. The key-watcher is a sequence of polls, each `Pending`, `Yes`
or `No`. When the polls run out while the watcher is still pending, the run
is `Unfinished`; the tool itself would keep looping. The result file is
reduced to whether it opens and to what is written to it.

## Model

| member | source | states |
|---|---|---|
| `Cli.LookupFrom` | src/relay.c:346-358 | the result is the first entry at or after `from`, in table order, whose name equals the argument at its position up to case; none before it matches; `None` exactly when no entry from `from` on matches |
| `Cli.FindCommand` | src/relay.c:346-358 | the dispatch walk returns the first matching entry in declared order, with no earlier entry matching; it returns none exactly when no entry matches |
| `Cli.SameIgnoringCaseEquivalence` | src/relay.c:351 | `strcasecmp(...) == 0` is reflexive, symmetric and transitive |
| `Cli.NamesDistinct` | src/relay.c:107-115 | no two entries of the table have names equal up to case |
| `Cli.MatchIsUnique` | src/relay.c:107-115 | at most one entry matches any argument vector, so first-match never hides a later entry |
| `Cli.NamesAtPositionOne` | src/relay.c:26-89 | every descriptor expects its name at `argv[1]`, and `usage2` is empty for every entry but `-h` |
| `Cli.PrintUsage` | src/relay.c:339-343 | the printing loop emits the usage listing of the whole table |
| `Cli.UsageListingShape` | src/relay.c:339-343 | the listing holds two strings per entry, `usage1` then `usage2` of entry `j` at positions `2j` and `2j+1`, in table order |
| `Cli.LookupNameFrom` | src/relay.c:179-191 | the first entry at or after `from` whose name equals the argument up to case; none before it matches; `None` exactly when none matches |
| `Cli.ScanHelp` | src/relay.c:179-192 | the search stops at the first entry whose name matches, or at the end of the table; `i == CMD_ARRAY_SIZE` holds exactly when no entry matched |
| `Cli.DoHelp` | src/relay.c:174-212 | with exactly one extra argument it prints the found entry's help, usage1, usage2 and example, or `Option "<arg>" not found` followed by the full listing; otherwise it prints the listing |
| `Gpio.Driver.Write` | src/relay.c:142 | a write is logged with its status; the pin's level becomes the value only when the status is 0 |
| `Gpio.Driver.Read` | src/relay.c:165 | a read is logged with its answer, changes no level, and answers either -1 or the pin's level |
| `Gpio.ReplayLastWrite` | src/relay.c:323-329 | after a stretch of calls, a pin holds the value of its last successful write when no later call writes it |
| `Relay.RelayPin` | src/relay.c:18-23 | a channel in 1..4 maps to a relay pin |
| `Relay.RelayPinBijective` | src/relay.c:18-23 | the channel map is one-to-one from channels 1..4 onto the pins {22, 23, 24, 25} |
| `Relay.Clamp` | src/relay.c:134-141 | the written value is 0 or 1; 0 and 1 are kept; it is 1 exactly when the argument is at least 1 |
| `Relay.ClampIdempotent` | src/relay.c:134-141 | clamping a clamped value changes nothing |
| `Relay.WriteRequest` | src/relay.c:122-142 | a wrong argument count gives the usage line; a channel outside [1,4] gives the invalid-pin error; otherwise it gives exactly one write, of the clamped value, to the channel's pin |
| `Relay.WriteOfClampedValue` | src/relay.c:127-141 | replacing the value argument by one that parses to its clamp gives the same request, so out-of-range values are clamped, not refused |
| `Relay.ReadRequest` | src/relay.c:154-165 | a wrong argument count gives the usage line; a channel outside [1,4] gives the invalid-pin error; otherwise it gives one read of the channel's pin |
| `Relay.DoRelayWrite` | src/relay.c:117-147 | a refused request prints its reason and makes no driver call; an accepted one makes exactly one call, the request's write, and fails exactly when its status is non-zero, printing "! Fail to write" |
| `Relay.DoRelayRead` | src/relay.c:149-172 | a refused request makes no driver call; an accepted one makes one read; -1 is a failure with "! Fail to read"; otherwise it prints the value, which is the pin's level |
| `SelfTest.PassPinsFollowOrder` | src/relay.c:238-243 | step `i` of a pass drives channel `relayOrder[i]`, through `relayGpio[relayOrder[i] - 1]` |
| `SelfTest.PassPinsDistinct` | src/relay.c:18-23 | no pass writes a pin twice |
| `SelfTest.PassPinsCover` | src/relay.c:18-23 | a full pass writes exactly the four relay pins |
| `SelfTest.Pass` | src/relay.c:265-279 | a pass that stops does so within the polls, and a pass over some pins consumes at least one poll |
| `SelfTest.PassWrites` | src/relay.c:265-279 | a pass writes the first pins in order, the `j`-th write going to the `j`-th pin, and every write follows a pending poll |
| `SelfTest.PassEnds` | src/relay.c:265-279 | a pass ends pending only after writing every pin; an answer ends it at once with no further write, leaving that answer as the result; it starves only when the polls run out |
| `SelfTest.PassAfterQuiet` | src/relay.c:265-279 | after `i` pending polls, a pass has written its first `i` pins and continues from the next pin and poll |
| `SelfTest.Cycle` | src/relay.c:263-295 | a loop that ends has consumed at least one poll and stays within the polls |
| `SelfTest.CycleEndsOnAnswer` | src/relay.c:263-295 | the loop ends only on an answer, and its result is the last poll it made |
| `SelfTest.CycleOnRelayPins` | src/relay.c:263-295 | the relay loop writes only relay pins |
| `SelfTest.WriteStep` | src/relay.c:273-277 | exactly one write of the step's pin is appended to the driver log, earlier calls kept, and the levels change as the driver answered; the lines logged so far are kept, a failure appends "! Fail to set pin" for 1 or "! Fail to clear pin" for 0, and nothing else is printed |
| `SelfTest.RelayPass` | src/relay.c:265-294 | the `for` pass makes exactly the writes `Pass` specifies, in order; it starves exactly when `Pass` does, and otherwise stops at the same poll with the same result |
| `SelfTest.CycleRelays` | src/relay.c:263-295 | the `while` loop makes exactly the writes `Cycle` specifies; it starves exactly when `Cycle` does, and otherwise ends at the same poll with the same result |
| `SelfTest.ClearRelays` | src/relay.c:323-329 | the final loop writes 0 to the four relay pins in pass order and logs each failed write |
| `SelfTest.ClearOnRelayPins` | src/relay.c:323-329 | the clean-up writes only relay pins |
| `SelfTest.RelayLoop` | src/relay.c:256-296 | when the command word is "test" up to case, the handler makes the loop's writes; otherwise it makes none and the result stays pending |
| `SelfTest.Announce` | src/relay.c:246-261 | the verdict goes to the file exactly when a file was named and opened; a failed open prints "Fail to open result file"; then, when the command word is "test" up to case, the prompt is printed |
| `SelfTest.Report` | src/relay.c:297-318 | the verdict line goes to the file when it is open, else to standard output |
| `SelfTest.DoTest` | src/relay.c:233-330 | the verdict is PASS exactly when the final result is yes; the driver requests are the loop's followed, when it finished, by the four clean-up writes; the levels are what those calls leave; the output is the preamble, the loop's failure lines, the verdict unless it went to the file, and the clean-up's failure lines |
| `SelfTest.TestOnRelayPins` | src/relay.c:233-330 | every write of a self-test goes to a relay pin |
| `SelfTest.TestKeepsOtherPins` | src/relay.c:233-330 | a self-test leaves every non-relay pin at its level |
| `SelfTest.TestLeavesRelayOff` | src/relay.c:323-329 | after a finished self-test, each relay whose clean-up write succeeded is at 0, whatever the polls were |
| `SelfTest.VerdictIsLastAnswer` | src/relay.c:297-318 | the verdict is PASS exactly when the poll that ended the loop said yes |
| `SelfTest.FirstAnswerSetsNoRelay` | src/relay.c:263-279 | with a watcher that keeps its answer, an answer at the first poll means no relay is ever set on; the only writes are the clean-up's, and the verdict is that answer |
| `SelfTest.WatcherThatForgets` | src/relay.c:280-295 | a watcher that answers yes and then reads pending again gets a full OFF pass and a relay set on, because the OFF pass polls again; a later no then gives FAIL |
| `Dispatch.Invoke` | src/relay.c:353-354 | the handler of a matched entry runs; `exit(1)` in `write` or `read` becomes status 1; any other return is `main`'s `return 0` |
| `Dispatch.MatchNeedsCommand` | src/relay.c:349 | a match needs an argument at position 1 |
| `Dispatch.DispatchedTestRunsLoop` | src/relay.c:256 | when `main` dispatched to the self-test, the handler's own "test" check holds, so the loop always runs |
| `Dispatch.Run` | src/relay.c:332-368 | with no argument it prints the listing and returns 1; with no match it prints "! Invalid command option" and then the listing, and returns 1; both make no driver call; otherwise the handler of the first matching entry runs, with that handler's effect and exit status |
| `Dispatch.ExitStatus` | src/relay.c:332-368 | after a match, status 1 occurs exactly when `write` or `read` was refused or its driver call failed; the process is still running only in an unanswered self-test; otherwise the status is 0 |

## Left out

- The GPIO driver (`GPIOWrite`/`GPIORead`, gpio.h) is not part of this model. It is a class whose calls succeed or fail by a nondeterministic choice. A failed write is assumed to leave the pin's level unchanged, and a successful read returns the pin's current level (the initial level for a pin never written).
- The key-watcher thread (`startThread`, `checkThreadResult`, thread.h) is not part of this model. Its answers are a sequence of polls, and the numeric value of `YES` is replaced by the `Yes` poll. Its concurrency is left out.
- The self-test can loop for ever while the operator does not answer. A finite sequence of polls cannot show that: a run whose polls run out is `Unfinished`, and `main` is then `StillRunning`.
- `busyWait(150)` only delays and is left out.
- `fopen`/`fprintf`/`fclose` and the file path are left out. The model keeps only whether the file opens and which verdict line it receives.
- Standard output is a sequence of tokens, and the version and warranty texts are single tokens. The help and usage strings of the table are kept as they are.
- `Relay.Atoi` models `atoi` (src/relay.c:127-128, 159) for leading white space, a sign and decimal digits, and carries no contract of its own. What it yields matters only through `Relay.WriteRequest` and `Relay.ReadRequest`, whose contracts are stated in terms of it. Overflow of large numbers is not modelled.
- `SelfTest.FirstAnswerSetsNoRelay` holds only for a watcher that keeps its answer once it has one, as the watcher's single result slot suggests. `SelfTest.WatcherThatForgets` shows what happens otherwise.
- `SelfTest.TestLeavesRelayOff` promises a relay is off only when its clean-up write succeeded. The source does not check those writes beyond printing "! Fail to clear pin".

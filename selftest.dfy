/**
 * The production self-test (`test`): ON and OFF passes over the four relays,
 * polling the key-watcher before every write, until the watcher reports an
 * answer; then a PASS/FAIL line and an unconditional switch-off of every relay.
 *
 * The watcher is a sequence of poll results. When the sequence runs out while
 * the operator has still not answered, the run is `Unfinished`: the tool would
 * still be cycling the relays.
 */
module SelfTest {
  import opened Cli
  import opened Gpio
  import opened Relay

  /** What `checkThreadResult` reports; `Pending` is its 0, `Yes` its `YES`. */
  datatype Poll = Pending | Yes | No

  datatype Verdict = Passed | Failed

  /** Where the verdict line goes. */
  datatype Destination = ResultFile | Stdout

  datatype TestRun = Finished(verdict: Verdict, dest: Destination) | Unfinished

  /** The order in which a pass visits the channels (`relayOrder`). */
  const RelayOrder: seq<int> := [1, 2, 3, 4]

  /** The pins a pass writes, in order: `relayGpio[relayOrder[i] - 1]` for each step `i`. */
  const PassPins: seq<int> :=
    [RelayGpio[RelayOrder[0] - 1], RelayGpio[RelayOrder[1] - 1], RelayGpio[RelayOrder[2] - 1], RelayGpio[RelayOrder[3] - 1]]

  const OpenFailed := "Fail to open result file\n"
  const Prompt := "Are all relays and LEDs turning on and off in sequence?\nPress y for Yes or any key for No...."
  const SetFailed := "! Fail to set pin"
  const ClearFailed := "! Fail to clear pin"

  /** Step `i` of a pass writes the pin of channel `relayOrder[i]`. */
  lemma PassPinsFollowOrder()
    ensures |PassPins| == |RelayOrder| == RelayChNrMax
    ensures forall i :: 0 <= i < |PassPins| ==>
      1 <= RelayOrder[i] <= RelayChNrMax && PassPins[i] == RelayGpio[RelayOrder[i] - 1] == RelayPin(RelayOrder[i])
  {
  }

  /** No pass writes a pin twice. */
  lemma PassPinsDistinct()
    ensures forall i, j :: 0 <= i < j < |PassPins| ==> PassPins[i] != PassPins[j]
  {
    forall i, j | 0 <= i < j < |PassPins|
      ensures PassPins[i] != PassPins[j]
    {
      assert PassStep(PassPins[i]) == i && PassStep(PassPins[j]) == j;
    }
  }

  /** A pass writes every relay pin. */
  lemma PassPinsCover()
    ensures forall p :: p in RelayPins <==> p in PassPins
  {
    assert PassPins[0] == 22 && PassPins[1] == 23 && PassPins[2] == 25 && PassPins[3] == 24;
  }

  /** The step of a pass that writes pin `p`. */
  function PassStep(p: int): int {
    if p == 22 then 0 else if p == 23 then 1 else if p == 25 then 2 else if p == 24 then 3 else -1
  }

  /** The pin of step `i` of a pass. */
  lemma PassPinAt(i: nat)
    requires i < RelayChNrMax
    ensures i < |PassPins| && i < |RelayOrder| && 1 <= RelayOrder[i] <= |RelayGpio|
    ensures RelayGpio[RelayOrder[i] - 1] == PassPins[i] && PassPins[i] in RelayPins
  {
    PassPinsFollowOrder();
  }

  /** The result of polling and writing from some poll onwards: either the
      loop stopped, at poll index `next`, with `last` the value of the result
      variable, or the polls ran out while it was still pending. `ops` are
      the driver writes made on the way. */
  datatype Sweep = Swept(next: nat, last: Poll, ops: seq<Op>) | Starved(ops: seq<Op>)

  function Prepend(ops: seq<Op>, r: Sweep): Sweep {
    match r
    case Swept(n, l, o) => Swept(n, l, ops + o)
    case Starved(o) => Starved(ops + o)
  }

  lemma PrependPrepend(a: seq<Op>, b: seq<Op>, r: Sweep)
    ensures Prepend(a, Prepend(b, r)) == Prepend(a + b, r)
  {
    assert a + (b + r.ops) == a + b + r.ops;
  }

  /** One pass of the self-test over the pins `pins`, writing `value`, with
      poll index `k` next: each step polls, stops the pass on an answer, and
      otherwise writes `value` to the step's pin. */
  function Pass(polls: seq<Poll>, k: nat, value: int, pins: seq<int>): (r: Sweep)
    requires k <= |polls|
    decreases |pins|
    ensures r.Swept? ==> k <= r.next <= |polls| && (pins != [] ==> k < r.next)
  {
    if pins == [] then Swept(k, Pending, [])
    else if k == |polls| then Starved([])
    else if polls[k] != Pending then Swept(k + 1, polls[k], [])
    else Prepend([WriteOp(pins[0], value)], Pass(polls, k + 1, value, pins[1..]))
  }

  /** No answer among the polls `from` up to `to`. */
  ghost predicate Quiet(polls: seq<Poll>, from: nat, to: nat)
    requires from <= to <= |polls|
  {
    forall j :: from <= j < to ==> polls[j] == Pending
  }

  /** What a pass writes: the first pins in order, each after a pending poll. */
  lemma {:induction false} PassWrites(polls: seq<Poll>, k: nat, value: int, pins: seq<int>)
    requires k <= |polls|
    decreases |pins|
    ensures var r := Pass(polls, k, value, pins);
      && |r.ops| <= |pins| && k + |r.ops| <= |polls|
      && r.ops == Writes(pins[..|r.ops|], value) && Quiet(polls, k, k + |r.ops|)
  {
    if pins != [] && k < |polls| && polls[k] == Pending {
      PassWrites(polls, k + 1, value, pins[1..]);
      var r' := Pass(polls, k + 1, value, pins[1..]);
      var n := |r'.ops| + 1;
      assert Pass(polls, k, value, pins).ops == [WriteOp(pins[0], value)] + r'.ops;
      assert pins[..n][1..] == pins[1..][..n - 1];
    } else {
      assert pins[..0] == [];
    }
  }

  /** How a pass ends: pending only after writing every pin, on an answer at
      once with no further write, starved when the polls run out first. */
  lemma {:induction false} PassEnds(polls: seq<Poll>, k: nat, value: int, pins: seq<int>)
    requires k <= |polls|
    decreases |pins|
    ensures var r := Pass(polls, k, value, pins);
      && (r.Swept? && r.last == Pending ==> |r.ops| == |pins| && r.next == k + |r.ops|)
      && (r.Swept? && r.last != Pending ==> k + |r.ops| < |polls| && r.next == k + |r.ops| + 1 && polls[k + |r.ops|] == r.last)
      && (r.Starved? ==> k + |r.ops| == |polls| && |r.ops| < |pins|)
  {
    if pins != [] && k < |polls| && polls[k] == Pending {
      PassEnds(polls, k + 1, value, pins[1..]);
      var r' := Pass(polls, k + 1, value, pins[1..]);
      assert Pass(polls, k, value, pins) == Prepend([WriteOp(pins[0], value)], r');
    }
  }

  /** A pass stops where it stands on an answer, or when the polls run out. */
  lemma PassStop(polls: seq<Poll>, whole: Sweep, done: seq<Op>, k: nat, value: int, rest: seq<int>)
    requires k <= |polls|
    requires whole == Prepend(done, Pass(polls, k, value, rest))
    ensures rest == [] ==> whole == Swept(k, Pending, done)
    ensures rest != [] && k == |polls| ==> whole == Starved(done)
    ensures rest != [] && k < |polls| && polls[k] != Pending ==> whole == Swept(k + 1, polls[k], done)
  {
    assert done + [] == done;
  }

  /** The `while (relayResult == 0)` loop from poll index `k`: an ON pass, an
      OFF pass (which polls again even when the ON pass was stopped), and
      another round while the OFF pass ended pending. */
  function Cycle(polls: seq<Poll>, k: nat): (r: Sweep)
    requires k <= |polls|
    decreases |polls| - k
    ensures r.Swept? ==> k < r.next <= |polls|
  {
    var on := Pass(polls, k, 1, PassPins);
    if on.Starved? then on
    else
      var off := Pass(polls, on.next, 0, PassPins);
      if off.Starved? then Starved(on.ops + off.ops)
      else if off.last == Pending then Prepend(on.ops + off.ops, Cycle(polls, off.next))
      else Swept(off.next, off.last, on.ops + off.ops)
  }

  /** A loop that ended did so on an answer, the last poll it made. */
  ghost predicate EndsOnAnswer(polls: seq<Poll>, r: Sweep) {
    r.Swept? ==> 0 < r.next <= |polls| && r.last != Pending && polls[r.next - 1] == r.last
  }

  /** The loop ends only on an answer, and the result it ends with is the
      last poll it made. */
  lemma {:induction false} CycleEndsOnAnswer(polls: seq<Poll>, k: nat)
    requires k <= |polls|
    decreases |polls| - k
    ensures EndsOnAnswer(polls, Cycle(polls, k))
  {
    var on := Pass(polls, k, 1, PassPins);
    if on.Swept? {
      var off := Pass(polls, on.next, 0, PassPins);
      if off.Swept? && off.last == Pending {
        CycleEndsOnAnswer(polls, off.next);
        ContinuedEndsOnAnswer(polls, k, on, off);
      } else if off.Swept? {
        AnsweredEndsOnAnswer(polls, k, on, off);
      }
    }
  }

  lemma ContinuedEndsOnAnswer(polls: seq<Poll>, k: nat, on: Sweep, off: Sweep)
    requires k <= |polls|
    requires on == Pass(polls, k, 1, PassPins) && on.Swept?
    requires off == Pass(polls, on.next, 0, PassPins) && off.Swept? && off.last == Pending
    requires EndsOnAnswer(polls, Cycle(polls, off.next))
    ensures EndsOnAnswer(polls, Cycle(polls, k))
  {
    RoundContinues(polls, k, Cycle(polls, k), [], on, off);
  }

  lemma AnsweredEndsOnAnswer(polls: seq<Poll>, k: nat, on: Sweep, off: Sweep)
    requires k <= |polls|
    requires on == Pass(polls, k, 1, PassPins) && on.Swept?
    requires off == Pass(polls, on.next, 0, PassPins) && off.Swept? && off.last != Pending
    ensures EndsOnAnswer(polls, Cycle(polls, k))
  {
    PassEnds(polls, on.next, 0, PassPins);
    RoundAnswered(polls, k, Cycle(polls, k), [], on, off);
  }

  /** A round whose OFF pass runs out of polls ends the loop starved. */
  lemma RoundStarves(polls: seq<Poll>, k: nat, whole: Sweep, done: seq<Op>, on: Sweep, off: Sweep)
    requires k <= |polls| && whole == Prepend(done, Cycle(polls, k))
    requires on == Pass(polls, k, 1, PassPins) && on.Swept?
    requires off == Pass(polls, on.next, 0, PassPins) && off.Starved?
    ensures whole == Starved(done + on.ops + off.ops)
  {
    assert done + (on.ops + off.ops) == done + on.ops + off.ops;
  }

  /** A round whose OFF pass ends pending leaves the rest of the loop to run. */
  lemma RoundContinues(polls: seq<Poll>, k: nat, whole: Sweep, done: seq<Op>, on: Sweep, off: Sweep)
    requires k <= |polls| && whole == Prepend(done, Cycle(polls, k))
    requires on == Pass(polls, k, 1, PassPins) && on.Swept?
    requires off == Pass(polls, on.next, 0, PassPins) && off.Swept? && off.last == Pending
    ensures whole == Prepend(done + on.ops + off.ops, Cycle(polls, off.next))
  {
    assert done + (on.ops + off.ops) == done + on.ops + off.ops;
    PrependPrepend(done, on.ops + off.ops, Cycle(polls, off.next));
  }

  /** A round whose OFF pass is stopped by an answer ends the loop there. */
  lemma RoundAnswered(polls: seq<Poll>, k: nat, whole: Sweep, done: seq<Op>, on: Sweep, off: Sweep)
    requires k <= |polls| && whole == Prepend(done, Cycle(polls, k))
    requires on == Pass(polls, k, 1, PassPins) && on.Swept?
    requires off == Pass(polls, on.next, 0, PassPins) && off.Swept? && off.last != Pending
    ensures whole == Swept(off.next, off.last, done + on.ops + off.ops)
  {
    assert done + (on.ops + off.ops) == done + on.ops + off.ops;
  }

  /** Whether the handler runs the relay loop at all (`argv[1]` is "test" up to case). */
  predicate RunsLoop(argv: seq<string>)
    requires |argv| >= 2
  {
    SameIgnoringCase(argv[1], "test")
  }

  /** The relay loop of a run; with the loop skipped, the result stays 0. */
  function TestPlan(argv: seq<string>, polls: seq<Poll>): Sweep
    requires |argv| >= 2
  {
    if RunsLoop(argv) then Cycle(polls, 0) else Swept(0, Pending, [])
  }

  function VerdictOf(last: Poll): Verdict {
    if last == Yes then Passed else Failed
  }

  function DestinationOf(argv: seq<string>, opens: bool): Destination {
    if |argv| == 3 && opens then ResultFile else Stdout
  }

  /** How a run ends, given whether the result file opens and the polls. */
  function Outcome(argv: seq<string>, opens: bool, polls: seq<Poll>): TestRun
    requires |argv| >= 2
  {
    match TestPlan(argv, polls)
    case Starved(_) => Unfinished
    case Swept(_, last, _) => Finished(VerdictOf(last), DestinationOf(argv, opens))
  }

  /** A write of `value` to each of `pins`, in order. */
  function Writes(pins: seq<int>, value: int): (ops: seq<Op>)
    ensures |ops| == |pins|
  {
    if pins == [] then [] else [WriteOp(pins[0], value)] + Writes(pins[1..], value)
  }

  lemma {:induction false} WritesAt(pins: seq<int>, value: int, j: nat)
    requires j < |pins|
    ensures Writes(pins, value)[j] == WriteOp(pins[j], value)
    decreases |pins|
  {
    if j > 0 {
      WritesAt(pins[1..], value, j - 1);
    }
  }

  /** The final clean-up: 0 to every relay, in pass order. */
  function ClearOps(): seq<Op> {
    Writes(PassPins, 0)
  }

  /** Every driver request of a run, in order. */
  function TestOps(argv: seq<string>, polls: seq<Poll>): seq<Op>
    requires |argv| >= 2
  {
    var plan := TestPlan(argv, polls);
    if plan.Swept? then plan.ops + ClearOps() else plan.ops
  }

  function VerdictLine(v: Verdict): Out {
    match v
    case Passed => Text("Relay Test ............................ PASS\n")
    case Failed => Text("Relay Test ............................ FAIL!\n")
  }

  function VerdictOnStdout(run: TestRun): seq<Out> {
    if run.Finished? && run.dest == Stdout then [VerdictLine(run.verdict)] else []
  }

  function VerdictInFile(run: TestRun): seq<Out> {
    if run.Finished? && run.dest == ResultFile then [VerdictLine(run.verdict)] else []
  }

  /** What the handler prints before the relay loop. */
  function Preamble(argv: seq<string>, opens: bool): seq<Out>
    requires |argv| >= 2
  {
    (if |argv| == 3 && !opens then [Text(OpenFailed)] else [])
    + (if RunsLoop(argv) then [Text(Prompt)] else [])
  }

  /** The line logged for a failed write; a successful one logs nothing. */
  function Note(c: Call): seq<Out> {
    if c.result == 0 then []
    else if c.op.WriteOp? && c.op.value == 1 then [Text(SetFailed)]
    else [Text(ClearFailed)]
  }

  function Notes(cs: seq<Call>): seq<Out> {
    if cs == [] then [] else Notes(cs[..|cs| - 1]) + Note(cs[|cs| - 1])
  }

  lemma {:induction false} NotesAppend(a: seq<Call>, b: seq<Call>)
    ensures Notes(a + b) == Notes(a) + Notes(b)
    decreases |b|
  {
    if b != [] {
      var b' := b[..|b| - 1];
      assert (a + b)[..|a + b| - 1] == a + b';
      NotesAppend(a, b');
    } else {
      assert a + b == a;
    }
  }


  /** The levels of pins other than the relay pins are kept, and no pin
      other than a relay pin becomes known. */
  ghost predicate OnlyRelayPinsChanged(before: map<int, int>, after: map<int, int>) {
    && after.Keys <= before.Keys + RelayPins
    && forall p :: p in before && p !in RelayPins ==> p in after && after[p] == before[p]
  }

  /** Every write among `ops` goes to a relay pin. */
  ghost predicate OnRelayPins(ops: seq<Op>) {
    forall j :: 0 <= j < |ops| && ops[j].WriteOp? ==> ops[j].pin in RelayPins
  }

  /** Calls whose writes all go to relay pins keep every other pin. */
  lemma {:induction false} ReplayKeepsOtherPins(level: map<int, int>, cs: seq<Call>)
    requires OnRelayPins(Requests(cs))
    ensures OnlyRelayPinsChanged(level, Replay(level, cs))
    decreases |cs|
  {
    if cs != [] {
      var init := cs[..|cs| - 1];
      assert Requests(cs) == Requests(init) + [cs[|cs| - 1].op];
      forall j | 0 <= j < |Requests(init)| && Requests(init)[j].WriteOp?
        ensures Requests(init)[j].pin in RelayPins
      {
        assert Requests(init)[j] == Requests(cs)[j];
      }
      ReplayKeepsOtherPins(level, init);
      assert Requests(cs)[|cs| - 1] == cs[|cs| - 1].op;
    }
  }

  lemma OnRelayPinsAppend(a: seq<Op>, b: seq<Op>)
    requires OnRelayPins(a) && OnRelayPins(b)
    ensures OnRelayPins(a + b)
  {
    forall j | 0 <= j < |a + b| && (a + b)[j].WriteOp?
      ensures (a + b)[j].pin in RelayPins
    {
      if j >= |a| {
        assert (a + b)[j] == b[j - |a|];
      }
    }
  }

  /** A pass writes relay pins only. */
  lemma PassOnRelayPins(polls: seq<Poll>, k: nat, value: int)
    requires k <= |polls|
    ensures OnRelayPins(Pass(polls, k, value, PassPins).ops)
  {
    var ops := Pass(polls, k, value, PassPins).ops;
    PassWrites(polls, k, value, PassPins);
    PassPinsCover();
    forall j | 0 <= j < |ops|
      ensures ops[j] == WriteOp(PassPins[j], value)
    {
      WritesAt(PassPins[..|ops|], value, j);
    }
  }

  /** The relay loop writes relay pins only. */
  lemma {:induction false} CycleOnRelayPins(polls: seq<Poll>, k: nat)
    requires k <= |polls|
    decreases |polls| - k
    ensures OnRelayPins(Cycle(polls, k).ops)
  {
    var on := Pass(polls, k, 1, PassPins);
    PassOnRelayPins(polls, k, 1);
    if on.Swept? {
      var off := Pass(polls, on.next, 0, PassPins);
      PassOnRelayPins(polls, on.next, 0);
      OnRelayPinsAppend(on.ops, off.ops);
      if off.Swept? && off.last == Pending {
        CycleOnRelayPins(polls, off.next);
        OnRelayPinsAppend(on.ops + off.ops, Cycle(polls, off.next).ops);
      }
    }
  }

  /** The clean-up writes relay pins only. */
  lemma ClearOnRelayPins()
    ensures OnRelayPins(ClearOps())
  {
    PassPinsCover();
    forall j | 0 <= j < |ClearOps()|
      ensures ClearOps()[j] == WriteOp(PassPins[j], 0)
    {
      WritesAt(PassPins, 0, j);
    }
  }

  /** Since the driver stood at calls `c0` and levels `l0`, the calls made
      were the requests `done`, in order, `notes` are the lines logged for
      their failures, and the levels are what those calls leave. */
  ghost predicate Logged(calls: seq<Call>, level: map<int, int>, c0: seq<Call>, l0: map<int, int>, done: seq<Op>, notes: seq<Out>) {
    && |c0| <= |calls| && calls[..|c0|] == c0
    && Requests(calls[|c0|..]) == done
    && Notes(calls[|c0|..]) == notes
    && level == Replay(l0, calls[|c0|..])
  }

  lemma LogNothing(calls: seq<Call>, level: map<int, int>)
    ensures Logged(calls, level, calls, level, [], [])
  {
    assert calls[|calls|..] == [];
  }

  /** One more driver call extends the requests, the log lines and the levels. */
  lemma LogCall(c0: seq<Call>, l0: map<int, int>, before: seq<Call>, lb: map<int, int>,
                after: seq<Call>, la: map<int, int>, done: seq<Op>, notes: seq<Out>, c: Call)
    requires Logged(before, lb, c0, l0, done, notes)
    requires after == before + [c] && la == After(lb, c)
    ensures Logged(after, la, c0, l0, done + [c.op], notes + Note(c))
  {
    assert after[..|c0|] == before[..|c0|];
    var log := after[|c0|..];
    assert log == before[|c0|..] + [c];
    assert log[..|log| - 1] == before[|c0|..];
  }

  /** Two stretches of calls, one after the other. */
  lemma LogConcat(c0: seq<Call>, l0: map<int, int>, c1: seq<Call>, l1: map<int, int>, c2: seq<Call>, l2: map<int, int>,
                  a: seq<Op>, b: seq<Op>, na: seq<Out>, nb: seq<Out>)
    requires Logged(c1, l1, c0, l0, a, na) && Logged(c2, l2, c1, l1, b, nb)
    ensures Logged(c2, l2, c0, l0, a + b, na + nb)
    ensures |c0| + |a| == |c1| && c2[|c0|..|c1|] == c1[|c0|..]
  {
    assert c2[..|c0|] == c1[..|c0|];
    assert c2[|c0|..] == c1[|c0|..] + c2[|c1|..];
    assert c2[|c0|..|c1|] == c1[|c0|..];
    NotesAppend(c1[|c0|..], c2[|c1|..]);
    RequestsAppend(c1[|c0|..], c2[|c1|..]);
    ReplayAppend(l0, c1[|c0|..], c2[|c1|..]);
  }

  /** One write of the relay step `i` (pin `relayGpio[relayOrder[i] - 1]`),
      logging "! Fail to set pin" or "! Fail to clear pin" when the driver
      reports failure; the run's log grows by that write. */
  method WriteStep(i: nat, value: int, gpio: Driver, ghost c0: seq<Call>, ghost l0: map<int, int>,
                   ghost done: seq<Op>, notes: seq<Out>) returns (notes': seq<Out>)
    requires i < RelayChNrMax
    requires Logged(gpio.calls, gpio.level, c0, l0, done, notes)
    modifies gpio
    ensures Logged(gpio.calls, gpio.level, c0, l0, done + [WriteOp(PassPins[i], value)], notes')
    ensures |gpio.calls| == |old(gpio.calls)| + 1 && gpio.calls[..|old(gpio.calls)|] == old(gpio.calls)
    ensures gpio.calls[|old(gpio.calls)|].op == WriteOp(PassPins[i], value)
    ensures notes' == notes + Note(gpio.calls[|old(gpio.calls)|])
  {
    ghost var before, levels := gpio.calls, gpio.level;
    PassPinAt(i);
    var status := gpio.Write(RelayGpio[RelayOrder[i] - 1], value);
    var c := Call(WriteOp(PassPins[i], value), status);
    LogCall(c0, l0, before, levels, gpio.calls, gpio.level, done, notes, c);
    notes' := notes + Note(c);
  }

  /** A pass that met `i` silent polls has written the first `i` pins and
      goes on from there. */
  lemma {:induction false} PassAfterQuiet(polls: seq<Poll>, k: nat, value: int, pins: seq<int>, i: nat)
    requires i <= |pins| && k + i <= |polls| && Quiet(polls, k, k + i)
    ensures Pass(polls, k, value, pins) == Prepend(Writes(pins[..i], value), Pass(polls, k + i, value, pins[i..]))
    decreases i
  {
    if i == 0 {
      assert pins[..0] == [] && pins[0..] == pins;
      assert [] + Pass(polls, k, value, pins).ops == Pass(polls, k, value, pins).ops;
    } else {
      var first, rest := [WriteOp(pins[0], value)], Pass(polls, k + i, value, pins[i..]);
      PassAfterQuiet(polls, k + 1, value, pins[1..], i - 1);
      assert pins[1..][..i - 1] == pins[..i][1..] && pins[1..][i - 1..] == pins[i..];
      calc {
        Pass(polls, k, value, pins);
        { assert polls[k] == Pending; }
        Prepend(first, Pass(polls, k + 1, value, pins[1..]));
        Prepend(first, Prepend(Writes(pins[..i][1..], value), rest));
        { PrependPrepend(first, Writes(pins[..i][1..], value), rest); }
        Prepend(first + Writes(pins[..i][1..], value), rest);
        { assert Writes(pins[..i], value) == first + Writes(pins[..i][1..], value); }
        Prepend(Writes(pins[..i], value), rest);
      }
    }
  }

  /** How a pass over the relay pins ended, from where the loop left it. */
  lemma PassEnd(polls: seq<Poll>, k0: nat, value: int, i: nat, k: nat, result: Poll, starved: bool)
    requires i <= RelayChNrMax && k0 + i <= |polls| && Quiet(polls, k0, k0 + i)
    requires starved ==> i < RelayChNrMax && k0 + i == |polls| && k == k0 + i
    requires !starved && result == Pending ==> i == RelayChNrMax && k == k0 + i
    requires result != Pending ==> !starved && i < RelayChNrMax && k == k0 + i + 1 <= |polls| && polls[k0 + i] == result
    ensures Pass(polls, k0, value, PassPins)
         == if starved then Starved(Writes(PassPins[..i], value)) else Swept(k, result, Writes(PassPins[..i], value))
  {
    PassAfterQuiet(polls, k0, value, PassPins, i);
    PassStop(polls, Pass(polls, k0, value, PassPins), Writes(PassPins[..i], value), k0 + i, value, PassPins[i..]);
  }

  /** One `for` loop of the self-test: poll, stop on an answer, otherwise
      write `value` to the step's pin and log a failed write. `starved` says
      the polls ran out with the operator still silent. */
  method RelayPass(polls: seq<Poll>, k0: nat, value: int, gpio: Driver)
      returns (k: nat, result: Poll, starved: bool, notes: seq<Out>)
    requires k0 <= |polls|
    modifies gpio
    ensures Logged(gpio.calls, gpio.level, old(gpio.calls), old(gpio.level), Pass(polls, k0, value, PassPins).ops, notes)
    ensures starved == Pass(polls, k0, value, PassPins).Starved?
    ensures !starved ==> Pass(polls, k0, value, PassPins) == Swept(k, result, Pass(polls, k0, value, PassPins).ops)
  {
    ghost var done: seq<Op> := [];
    k, result, starved, notes := k0, Pending, false, [];
    var i := 0;
    LogNothing(gpio.calls, gpio.level);
    while i < RelayChNrMax
      invariant 0 <= i <= RelayChNrMax && k == k0 + i <= |polls| && Quiet(polls, k0, k)
      invariant Logged(gpio.calls, gpio.level, old(gpio.calls), old(gpio.level), done, notes)
      invariant done == Writes(PassPins[..i], value)
      invariant result == Pending && !starved
    {
      if k == |polls| {
        starved := true;
        break;
      }
      result := polls[k];
      if result != Pending {
        k := k + 1;
        break;
      }
      k := k + 1;
      notes := WriteStep(i, value, gpio, old(gpio.calls), old(gpio.level), done, notes);
      WritesSnoc(PassPins, i, value);
      done := done + [WriteOp(PassPins[i], value)];
      i := i + 1;
    }
    PassEnd(polls, k0, value, i, k, result, starved);
  }

  /** The `while (relayResult == 0)` loop: an ON pass then an OFF pass, again
      while the OFF pass ended with the operator still silent. */
  method CycleRelays(polls: seq<Poll>, gpio: Driver)
      returns (k: nat, result: Poll, starved: bool, notes: seq<Out>)
    modifies gpio
    ensures Logged(gpio.calls, gpio.level, old(gpio.calls), old(gpio.level), Cycle(polls, 0).ops, notes)
    ensures starved == Cycle(polls, 0).Starved?
    ensures !starved ==> Cycle(polls, 0) == Swept(k, result, Cycle(polls, 0).ops)
  {
    ghost var whole := Cycle(polls, 0);
    ghost var done: seq<Op> := [];
    k, result, starved, notes := 0, Pending, false, [];
    LogNothing(gpio.calls, gpio.level);
    assert [] + whole.ops == whole.ops;
    while result == Pending
      invariant k <= |polls|
      invariant Logged(gpio.calls, gpio.level, old(gpio.calls), old(gpio.level), done, notes)
      invariant result == Pending ==> whole == Prepend(done, Cycle(polls, k))
      invariant result != Pending ==> whole == Swept(k, result, done)
      decreases |polls| - k, if result == Pending then 1 else 0
    {
      ghost var kOn, c0, l0 := k, gpio.calls, gpio.level;
      var more;
      k, result, starved, more := RelayPass(polls, k, 1, gpio);
      ghost var on := Pass(polls, kOn, 1, PassPins);
      LogConcat(old(gpio.calls), old(gpio.level), c0, l0, gpio.calls, gpio.level, done, on.ops, notes, more);
      notes := notes + more;
      if starved {
        PrependPrepend(done, on.ops, Starved([]));
        done := done + on.ops;
        return;
      }
      ghost var kOff, c1, l1 := k, gpio.calls, gpio.level;
      k, result, starved, more := RelayPass(polls, k, 0, gpio);
      ghost var off := Pass(polls, kOff, 0, PassPins);
      LogConcat(old(gpio.calls), old(gpio.level), c1, l1, gpio.calls, gpio.level, done + on.ops, off.ops, notes, more);
      notes := notes + more;
      if starved {
        RoundStarves(polls, kOn, whole, done, on, off);
        done := done + on.ops + off.ops;
        return;
      }
      if result == Pending {
        RoundContinues(polls, kOn, whole, done, on, off);
      } else {
        RoundAnswered(polls, kOn, whole, done, on, off);
      }
      done := done + on.ops + off.ops;
    }
    starved := false;
  }

  /** Extending the written pins by one extends the writes by one. */
  lemma WritesSnoc(pins: seq<int>, i: nat, value: int)
    requires i < |pins|
    ensures Writes(pins[..i + 1], value) == Writes(pins[..i], value) + [WriteOp(pins[i], value)]
  {
    var a, b := Writes(pins[..i + 1], value), Writes(pins[..i], value) + [WriteOp(pins[i], value)];
    forall j | 0 <= j < |a|
      ensures a[j] == b[j]
    {
      WritesAt(pins[..i + 1], value, j);
      if j < i {
        WritesAt(pins[..i], value, j);
      }
    }
  }

  /** The final `for` loop: 0 to every relay pin, logging failed writes. */
  method ClearRelays(gpio: Driver) returns (notes: seq<Out>)
    modifies gpio
    ensures Logged(gpio.calls, gpio.level, old(gpio.calls), old(gpio.level), ClearOps(), notes)
  {
    ghost var done: seq<Op> := [];
    notes := [];
    LogNothing(gpio.calls, gpio.level);
    var i := 0;
    while i < RelayChNrMax
      invariant 0 <= i <= RelayChNrMax
      invariant Logged(gpio.calls, gpio.level, old(gpio.calls), old(gpio.level), done, notes)
      invariant done == Writes(PassPins[..i], 0)
    {
      notes := WriteStep(i, 0, gpio, old(gpio.calls), old(gpio.level), done, notes);
      WritesSnoc(PassPins, i, 0);
      done := done + [WriteOp(PassPins[i], 0)];
      i := i + 1;
    }
    assert PassPins[..i] == PassPins;
  }

  /** From driver calls `c0` and levels `l0`, the requests made are `ops`,
      of which the first `|loopOps|` belong to the relay loop; the levels
      are what those calls leave; the lines printed are `pre`, the loop's
      failure lines, `verdict`, and the failure lines of the rest. */
  ghost predicate Reported(c0: seq<Call>, l0: map<int, int>, calls: seq<Call>, level: map<int, int>,
                           loopOps: seq<Op>, ops: seq<Op>, pre: seq<Out>, verdict: seq<Out>, out: seq<Out>)
  {
    var mid := |c0| + |loopOps|;
    && mid <= |calls|
    && Logged(calls, level, c0, l0, ops, Notes(calls[|c0|..mid]) + Notes(calls[mid..]))
    && out == pre + Notes(calls[|c0|..mid]) + verdict + Notes(calls[mid..])
  }

  /** What a run of the `test` handler leaves behind: the requests are the
      relay loop's followed, when the loop finished, by the clean-up's; the
      lines printed are the preamble, the loop's failure lines, the verdict
      unless it went to the file, and the clean-up's failure lines. */
  ghost predicate Ran(argv: seq<string>, opens: bool, polls: seq<Poll>,
                      c0: seq<Call>, l0: map<int, int>, calls: seq<Call>, level: map<int, int>, out: seq<Out>)
    requires |argv| >= 2
  {
    Reported(c0, l0, calls, level, TestPlan(argv, polls).ops, TestOps(argv, polls),
             Preamble(argv, opens), VerdictOnStdout(Outcome(argv, opens, polls)), out)
  }

  /** A run cut short: every call belongs to the loop. */
  lemma ReportStarved(c0: seq<Call>, l0: map<int, int>, c1: seq<Call>, l1: map<int, int>,
                      ops: seq<Op>, notes: seq<Out>, pre: seq<Out>)
    requires Logged(c1, l1, c0, l0, ops, notes)
    ensures Reported(c0, l0, c1, l1, ops, ops, pre, [], pre + notes)
  {
    assert c1[|c0| + |ops|..] == [];
    assert c1[|c0|..|c0| + |ops|] == c1[|c0|..];
    assert pre + notes == pre + notes + [] + [];
  }

  /** A finished run: the loop's calls, then the clean-up's. */
  lemma ReportFinished(c0: seq<Call>, l0: map<int, int>, c1: seq<Call>, l1: map<int, int>, c2: seq<Call>, l2: map<int, int>,
                       a: seq<Op>, b: seq<Op>, na: seq<Out>, nb: seq<Out>, pre: seq<Out>, verdict: seq<Out>)
    requires Logged(c1, l1, c0, l0, a, na) && Logged(c2, l2, c1, l1, b, nb)
    ensures Reported(c0, l0, c2, l2, a, a + b, pre, verdict, pre + na + verdict + nb)
  {
    LogConcat(c0, l0, c1, l1, c2, l2, a, b, na, nb);
    assert c2[|c0| + |a|..] == c2[|c1|..];
  }

  /** The relay loop when `argv[1]` is "test", nothing otherwise. */
  method RelayLoop(argv: seq<string>, polls: seq<Poll>, gpio: Driver) returns (result: Poll, starved: bool, notes: seq<Out>)
    requires |argv| >= 2
    modifies gpio
    ensures Logged(gpio.calls, gpio.level, old(gpio.calls), old(gpio.level), TestPlan(argv, polls).ops, notes)
    ensures starved == TestPlan(argv, polls).Starved?
    ensures !starved ==> result == TestPlan(argv, polls).last
  {
    result, starved, notes := Pending, false, [];
    LogNothing(gpio.calls, gpio.level);
    if RunsLoop(argv) {
      var k;
      k, result, starved, notes := CycleRelays(polls, gpio);
    }
  }

  /** Opening the result file and the prompt: whether the verdict goes to
      the file, and what is printed before the relay loop. */
  method Announce(argv: seq<string>, opens: bool) returns (toFile: bool, out: seq<Out>)
    requires |argv| >= 2
    ensures toFile <==> DestinationOf(argv, opens) == ResultFile
    ensures out == Preamble(argv, opens)
  {
    toFile, out := false, [];
    if |argv| == 3 {
      toFile := opens;
      if !opens {
        out := out + [Text(OpenFailed)];
      }
    }
    if RunsLoop(argv) {
      out := out + [Text(Prompt)];
    }
  }

  /** The verdict line, to the result file when it opened, else to stdout. */
  method Report(run: TestRun, toFile: bool) returns (out: seq<Out>, file: seq<Out>)
    requires run.Finished? && (toFile <==> run.dest == ResultFile)
    ensures out == VerdictOnStdout(run) && file == VerdictInFile(run)
  {
    if toFile {
      out, file := [], [VerdictLine(run.verdict)];
    } else {
      out, file := [VerdictLine(run.verdict)], [];
    }
  }

  /** The `test` handler. `opens` says whether the result file could be
      opened; `polls` are the watcher's answers in order. */
  method DoTest(argv: seq<string>, opens: bool, polls: seq<Poll>, gpio: Driver)
      returns (run: TestRun, out: seq<Out>, file: seq<Out>)
    requires |argv| >= 2
    modifies gpio
    ensures run == Outcome(argv, opens, polls)
    ensures file == VerdictInFile(run)
    ensures Ran(argv, opens, polls, old(gpio.calls), old(gpio.level), gpio.calls, gpio.level, out)
  {
    var toFile;
    toFile, out := Announce(argv, opens);
    var result, starved, notes := RelayLoop(argv, polls, gpio);
    if starved {
      run, file := Unfinished, [];
      ReportStarved(old(gpio.calls), old(gpio.level), gpio.calls, gpio.level, TestPlan(argv, polls).ops, notes, out);
      out := out + notes;
      return;
    }
    ghost var loopCalls, loopLevel, pre := gpio.calls, gpio.level, out;
    run := Finished(if result == Yes then Passed else Failed, if toFile then ResultFile else Stdout);
    var verdictOut;
    verdictOut, file := Report(run, toFile);
    out := out + notes + verdictOut;
    var cleared := ClearRelays(gpio);
    assert TestOps(argv, polls) == TestPlan(argv, polls).ops + ClearOps();
    ReportFinished(old(gpio.calls), old(gpio.level), loopCalls, loopLevel, gpio.calls, gpio.level,
      TestPlan(argv, polls).ops, ClearOps(), notes, cleared, pre, verdictOut);
    out := out + cleared;
  }

  /** Every write of a run goes to a relay pin. */
  lemma TestOnRelayPins(argv: seq<string>, polls: seq<Poll>)
    requires |argv| >= 2
    ensures OnRelayPins(TestOps(argv, polls))
  {
    if RunsLoop(argv) {
      CycleOnRelayPins(polls, 0);
    }
    ClearOnRelayPins();
    if TestPlan(argv, polls).Swept? {
      OnRelayPinsAppend(TestPlan(argv, polls).ops, ClearOps());
    }
  }

  /** A run changes no pin but the four relay pins. */
  lemma TestKeepsOtherPins(argv: seq<string>, polls: seq<Poll>, level: map<int, int>, log: seq<Call>)
    requires |argv| >= 2 && Requests(log) == TestOps(argv, polls)
    ensures OnlyRelayPinsChanged(level, Replay(level, log))
  {
    TestOnRelayPins(argv, polls);
    ReplayKeepsOtherPins(level, log);
  }

  /** A finished run ends with relay `j` (in pass order) off, provided its
      clean-up write, the `j`-th of the last four calls, succeeded: every
      later call writes another pin. */
  lemma TestLeavesRelayOff(argv: seq<string>, polls: seq<Poll>, level: map<int, int>, log: seq<Call>, j: nat)
    requires |argv| >= 2 && TestPlan(argv, polls).Swept? && Requests(log) == TestOps(argv, polls)
    requires j < RelayChNrMax
    ensures |log| >= RelayChNrMax
    ensures log[|log| - RelayChNrMax + j].result == 0 ==>
      PassPins[j] in Replay(level, log) && Replay(level, log)[PassPins[j]] == 0
  {
    var loopOps := TestPlan(argv, polls).ops;
    var base := |loopOps|;
    assert |log| == base + RelayChNrMax;
    var i := base + j;
    RequestsAt(log, i);
    WritesAt(PassPins, 0, j);
    assert log[i].op == WriteOp(PassPins[j], 0);
    PassPinsDistinct();
    forall k | i < k < |log| && log[k].op.WriteOp?
      ensures log[k].op.pin != log[i].op.pin
    {
      RequestsAt(log, k);
      WritesAt(PassPins, 0, k - base);
      assert log[k].op == WriteOp(PassPins[k - base], 0);
    }
    if log[i].result == 0 {
      ReplayLastWrite(level, log, i);
    }
  }

  /** The verdict is PASS exactly when the poll that ended the loop said yes. */
  lemma {:induction false} VerdictIsLastAnswer(argv: seq<string>, opens: bool, polls: seq<Poll>)
    requires |argv| >= 2 && RunsLoop(argv) && Outcome(argv, opens, polls).Finished?
    ensures var r := Cycle(polls, 0);
      && 0 < r.next <= |polls|
      && (Outcome(argv, opens, polls).verdict == Passed <==> polls[r.next - 1] == Yes)
  {
    var r := Cycle(polls, 0);
    CycleEndsOnAnswer(polls, 0);
    assert TestPlan(argv, polls) == r;
    assert r.Swept? && EndsOnAnswer(polls, r);
  }

  /** A watcher that keeps its answer once it has one. */
  ghost predicate Sticky(polls: seq<Poll>) {
    forall i, j :: 0 <= i <= j < |polls| && polls[i] != Pending ==> polls[j] == polls[i]
  }

  /** With a watcher that keeps its answer, an answer at the first poll
      sets no relay on: the only writes are the clean-up's, and the verdict
      is that answer. */
  lemma FirstAnswerSetsNoRelay(argv: seq<string>, opens: bool, polls: seq<Poll>)
    requires |argv| >= 2 && RunsLoop(argv)
    requires Sticky(polls) && |polls| >= 2 && polls[0] != Pending
    ensures TestOps(argv, polls) == ClearOps()
    ensures Outcome(argv, opens, polls) == Finished(VerdictOf(polls[0]), DestinationOf(argv, opens))
  {
    assert Pass(polls, 0, 1, PassPins) == Swept(1, polls[0], []);
    assert polls[1] == polls[0];
    assert Pass(polls, 1, 0, PassPins) == Swept(2, polls[0], []);
    assert Cycle(polls, 0) == Swept(2, polls[0], [] + []);
    assert [] + ClearOps() == ClearOps();
  }

  /** A watcher that answers and then reads pending again keeps the loop
      going: a "yes" at the first poll is followed by a full OFF pass, a
      relay set on, and a FAIL verdict from the later "no". */
  lemma WatcherThatForgets()
    ensures var polls := [Yes, Pending, Pending, Pending, Pending, Pending, No, No];
      Cycle(polls, 0) == Swept(8, No, Writes(PassPins, 0) + [WriteOp(22, 1)])
  {
    var polls := [Yes, Pending, Pending, Pending, Pending, Pending, No, No];
    var clear := Writes(PassPins, 0);
    assert Pass(polls, 0, 1, PassPins) == Swept(1, Yes, []);
    assert Pass(polls, 5, 0, PassPins[4..]) == Swept(5, Pending, []);
    assert Pass(polls, 4, 0, PassPins[3..]) == Swept(5, Pending, [WriteOp(24, 0)]);
    assert Pass(polls, 3, 0, PassPins[2..]) == Swept(5, Pending, [WriteOp(25, 0), WriteOp(24, 0)]);
    assert Pass(polls, 2, 0, PassPins[1..]) == Swept(5, Pending, [WriteOp(23, 0), WriteOp(25, 0), WriteOp(24, 0)]);
    assert Pass(polls, 1, 0, PassPins) == Swept(5, Pending, clear);
    assert Pass(polls, 6, 1, PassPins[1..]) == Swept(7, No, []);
    assert Pass(polls, 5, 1, PassPins) == Swept(7, No, [WriteOp(22, 1)]);
    assert Pass(polls, 7, 0, PassPins) == Swept(8, No, []);
    assert Cycle(polls, 5) == Swept(8, No, [WriteOp(22, 1)] + []);
    assert Cycle(polls, 0) == Prepend([] + clear, Cycle(polls, 5));
  }
}

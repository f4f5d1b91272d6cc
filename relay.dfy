/**
 * The `write` and `read` handlers: argument checks, the channel-to-pin map,
 * the clamping of the written value, and the one driver call each makes.
 * A handler that calls `exit(1)` in the tool returns `ok == false` here.
 */
module Relay {
  import opened Cli
  import opened Gpio

  /** Number of relay channels (`RELAY_CH_NR_MAX`). */
  const RelayChNrMax: nat := 4

  /** The GPIO pin of each channel; channel `ch` uses entry `ch - 1`. */
  const RelayGpio: seq<int> := [22, 23, 25, 24]

  /** The pins that drive relays. */
  const RelayPins: set<int> := {22, 23, 24, 25}

  /** Why a handler stopped with exit status 1. */
  datatype Failure = Usage(usage: string) | InvalidPin | WriteFailed | ReadFailed

  datatype Result<T> = Ok(value: T) | Err(failure: Failure)

  /** The line a handler prints before `exit(1)`. */
  function Message(f: Failure): string {
    match f
    case Usage(u) => u
    case InvalidPin => "! Invalid pin number [1..4]\n"
    case WriteFailed => "! Fail to write\n"
    case ReadFailed => "! Fail to read\n"
  }

  /** The pin that drives relay channel `ch`. */
  function RelayPin(ch: int): (pin: int)
    requires 1 <= ch <= RelayChNrMax
    ensures pin in RelayPins
  {
    RelayGpio[ch - 1]
  }

  /** The channel map is a bijection from channels 1..4 onto the relay pins. */
  lemma RelayPinBijective()
    ensures forall a, b :: 1 <= a <= RelayChNrMax && 1 <= b <= RelayChNrMax && a != b ==> RelayPin(a) != RelayPin(b)
    ensures forall p :: p in RelayPins ==> exists ch :: 1 <= ch <= RelayChNrMax && RelayPin(ch) == p
  {
    forall p | p in RelayPins
      ensures exists ch :: 1 <= ch <= RelayChNrMax && RelayPin(ch) == p
    {
      var ch := if p == 22 then 1 else if p == 23 then 2 else if p == 25 then 3 else 4;
      assert RelayPin(ch) == p;
    }
  }

  /** The value `write` sends: anything below 0 is 0, anything above 1 is 1. */
  function Clamp(v: int): (r: int)
    ensures r == 0 || r == 1
    ensures 0 <= v <= 1 ==> r == v
    ensures r == 1 <==> v >= 1
  {
    var low := if v < 0 then 0 else v;
    if low > 1 then 1 else low
  }

  /** Clamping twice is clamping once. */
  lemma ClampIdempotent(v: int)
    ensures Clamp(Clamp(v)) == Clamp(v)
  {
  }

  /** C whitespace as `atoi` skips it. */
  predicate IsSpace(c: char) {
    c == ' ' || c == '\t' || c == '\n' || c == '\r' || c == '\U{000B}' || c == '\U{000C}'
  }

  /** The value of the run of decimal digits at the start of `s`, appended to `acc`. */
  function DigitsValue(s: string, acc: nat): nat {
    if |s| > 0 && '0' <= s[0] <= '9' then DigitsValue(s[1..], 10 * acc + (s[0] as int - '0' as int))
    else acc
  }

  /** `atoi`: leading white space, an optional sign, then decimal digits; 0 when there are none. */
  function Atoi(s: string): int {
    if |s| > 0 && IsSpace(s[0]) then Atoi(s[1..])
    else if |s| > 0 && s[0] == '-' then -(DigitsValue(s[1..], 0) as int)
    else if |s| > 0 && s[0] == '+' then DigitsValue(s[1..], 0)
    else DigitsValue(s, 0)
  }

  /** The write request `write <channel> <value>` makes, or why it is refused
      before any driver call. */
  function WriteRequest(argv: seq<string>): (r: Result<Op>)
    ensures |argv| != 4 ==> r == Err(Usage(CmdWrite.usage1))
    ensures |argv| == 4 && !(1 <= Atoi(argv[2]) <= RelayChNrMax) ==> r == Err(InvalidPin)
    ensures r.Ok? <==> |argv| == 4 && 1 <= Atoi(argv[2]) <= RelayChNrMax
    ensures r.Ok? ==> r.value == WriteOp(RelayPin(Atoi(argv[2])), Clamp(Atoi(argv[3])))
    ensures r.Ok? ==> r.value.pin in RelayPins && (r.value.value == 0 || r.value.value == 1)
  {
    if |argv| != 4 then Err(Usage(CmdWrite.usage1))
    else
      var ch := Atoi(argv[2]);
      var v := Atoi(argv[3]);
      if ch < 1 || ch > RelayChNrMax then Err(InvalidPin)
      else Ok(WriteOp(RelayPin(ch), Clamp(v)))
  }

  /** `write c v` and `write c v'`, where `v'` parses to the clamped `v`, make
      the same request: out-of-range values are clamped, not refused. */
  lemma WriteOfClampedValue(argv: seq<string>, s: string)
    requires |argv| == 4 && Atoi(s) == Clamp(Atoi(argv[3]))
    ensures WriteRequest(argv[3 := s]) == WriteRequest(argv)
  {
  }

  /** The read request `read <channel>` makes, or why it is refused before any
      driver call. */
  function ReadRequest(argv: seq<string>): (r: Result<Op>)
    ensures |argv| != 3 ==> r == Err(Usage(CmdRead.usage1))
    ensures |argv| == 3 && !(1 <= Atoi(argv[2]) <= RelayChNrMax) ==> r == Err(InvalidPin)
    ensures r.Ok? <==> |argv| == 3 && 1 <= Atoi(argv[2]) <= RelayChNrMax
    ensures r.Ok? ==> r.value == ReadOp(RelayPin(Atoi(argv[2])))
  {
    if |argv| != 3 then Err(Usage(CmdRead.usage1))
    else
      var ch := Atoi(argv[2]);
      if ch < 1 || ch > RelayChNrMax then Err(InvalidPin)
      else Ok(ReadOp(RelayPin(ch)))
  }

  /** What the `write` handler did, from driver calls `c0` and levels `l0`:
      a refused request prints its reason and makes no driver call; an
      accepted one makes exactly one call, the request's write, and fails
      exactly when its status is not 0, the level changing only on success. */
  ghost predicate Wrote(argv: seq<string>, c0: seq<Call>, l0: map<int, int>,
                        calls: seq<Call>, level: map<int, int>, ok: bool, out: seq<Out>)
  {
    && (WriteRequest(argv).Err? ==>
      && !ok
      && out == [Text(Message(WriteRequest(argv).failure))]
      && calls == c0
      && level == l0)
    && (WriteRequest(argv).Ok? ==>
      && |calls| == |c0| + 1
      && calls[..|c0|] == c0
      && var c := calls[|c0|];
      && c.op == WriteRequest(argv).value
      && ok == (c.result == 0)
      && level == (if ok then l0[c.op.pin := c.op.value] else l0)
      && out == if ok then [] else [Text(Message(WriteFailed))])
  }

  /** The `write` handler. */
  method DoRelayWrite(argv: seq<string>, gpio: Driver) returns (ok: bool, out: seq<Out>)
    modifies gpio
    ensures Wrote(argv, old(gpio.calls), old(gpio.level), gpio.calls, gpio.level, ok, out)
  {
    if |argv| != 4 {
      return false, [Text(CmdWrite.usage1)];
    }
    var pin := Atoi(argv[2]);
    var value := Atoi(argv[3]);
    if pin < 1 || pin > RelayChNrMax {
      return false, [Text(Message(InvalidPin))];
    }
    if value < 0 {
      value := 0;
    }
    if value > 1 {
      value := 1;
    }
    var status := gpio.Write(RelayGpio[pin - 1], value);
    if status != 0 {
      return false, [Text(Message(WriteFailed))];
    }
    return true, [];
  }

  /** What the `read` handler did, from driver calls `c0` and levels `l0`:
      a refused request prints its reason and makes no driver call; an
      accepted one makes exactly one call, the request's read, fails exactly
      when it answers -1, and otherwise prints the pin's level. No level
      changes. */
  ghost predicate ReadBack(argv: seq<string>, c0: seq<Call>, l0: map<int, int>,
                           calls: seq<Call>, level: map<int, int>, ok: bool, out: seq<Out>)
  {
    && level == l0
    && (ReadRequest(argv).Err? ==>
      && !ok
      && out == [Text(Message(ReadRequest(argv).failure))]
      && calls == c0)
    && (ReadRequest(argv).Ok? ==>
      && |calls| == |c0| + 1
      && calls[..|c0|] == c0
      && var c := calls[|c0|];
      && c.op == ReadRequest(argv).value
      && ok == (c.result != -1)
      && (ok ==> c.op.pin in level && c.result == level[c.op.pin])
      && out == if ok then [Number(c.result), Text("\n")] else [Text(Message(ReadFailed))])
  }

  /** The `read` handler. */
  method DoRelayRead(argv: seq<string>, gpio: Driver) returns (ok: bool, out: seq<Out>)
    modifies gpio
    ensures ReadBack(argv, old(gpio.calls), old(gpio.level), gpio.calls, gpio.level, ok, out)
  {
    if |argv| != 3 {
      return false, [Text(CmdRead.usage1)];
    }
    var pin := Atoi(argv[2]);
    if pin < 1 || pin > RelayChNrMax {
      return false, [Text(Message(InvalidPin))];
    }
    var value := gpio.Read(RelayGpio[pin - 1]);
    if value == -1 {
      return false, [Text(Message(ReadFailed))];
    }
    return true, [Number(value), Text("\n")];
  }
}

/**
 * The GPIO access layer the relay tool drives (`GPIOWrite`, `GPIORead`).
 * Its implementation is not part of this model: a driver here is the level
 * of each pin, the record of every call made to it, and a failure that may
 * strike any call.
 */
module Gpio {

  /** One request to the driver. */
  datatype Op = WriteOp(pin: int, value: int) | ReadOp(pin: int)

  /** A request and what the driver answered: the status of a write
      (0 is success), or the value of a read (-1 is an error). */
  datatype Call = Call(op: Op, result: int)

  /** The requests of a stretch of calls, in order. */
  function Requests(cs: seq<Call>): (ops: seq<Op>)
    ensures |ops| == |cs|
  {
    if cs == [] then [] else Requests(cs[..|cs| - 1]) + [cs[|cs| - 1].op]
  }

  lemma {:induction false} RequestsAt(cs: seq<Call>, j: nat)
    requires j < |cs|
    ensures Requests(cs)[j] == cs[j].op
    decreases |cs|
  {
    if j < |cs| - 1 {
      RequestsAt(cs[..|cs| - 1], j);
    }
  }

  lemma {:induction false} RequestsAppend(a: seq<Call>, b: seq<Call>)
    ensures Requests(a + b) == Requests(a) + Requests(b)
    decreases |b|
  {
    if b != [] {
      var b' := b[..|b| - 1];
      assert (a + b)[..|a + b| - 1] == a + b';
      RequestsAppend(a, b');
    } else {
      assert a + b == a;
    }
  }

  /** The pin levels after one call: a successful write sets its pin; a
      failed write and a read change nothing. */
  function After(level: map<int, int>, c: Call): map<int, int> {
    if c.op.WriteOp? && c.result == 0 then level[c.op.pin := c.op.value] else level
  }

  /** The pin levels after a stretch of calls, from `level`. */
  function Replay(level: map<int, int>, cs: seq<Call>): map<int, int> {
    if cs == [] then level else After(Replay(level, cs[..|cs| - 1]), cs[|cs| - 1])
  }

  lemma {:induction false} ReplayAppend(level: map<int, int>, a: seq<Call>, b: seq<Call>)
    ensures Replay(level, a + b) == Replay(Replay(level, a), b)
    decreases |b|
  {
    if b != [] {
      var b' := b[..|b| - 1];
      assert (a + b)[..|a + b| - 1] == a + b';
      ReplayAppend(level, a, b');
    } else {
      assert a + b == a;
    }
  }

  /** A successful write that no later call overwrites decides its pin. */
  lemma {:induction false} ReplayLastWrite(level: map<int, int>, cs: seq<Call>, i: nat)
    requires i < |cs| && cs[i].op.WriteOp? && cs[i].result == 0
    requires forall k :: i < k < |cs| && cs[k].op.WriteOp? ==> cs[k].op.pin != cs[i].op.pin
    ensures cs[i].op.pin in Replay(level, cs) && Replay(level, cs)[cs[i].op.pin] == cs[i].op.value
    decreases |cs|
  {
    if i < |cs| - 1 {
      var init := cs[..|cs| - 1];
      assert init[i] == cs[i];
      forall k | i < k < |init| && init[k].op.WriteOp?
        ensures init[k].op.pin != init[i].op.pin
      {
        assert init[k] == cs[k];
      }
      ReplayLastWrite(level, init, i);
    }
  }

  class Driver {
    /** The level of each pin the driver knows. */
    var level: map<int, int>
    /** Every call made to the driver, oldest first. */
    var calls: seq<Call>

    constructor (initial: map<int, int>)
      ensures level == initial && calls == []
    {
      level := initial;
      calls := [];
    }

    /** `GPIOWrite(pin, value)`: may fail for reasons outside the model; on
        success the pin takes the value, on failure nothing changes. */
    method Write(pin: int, value: int) returns (status: int)
      modifies this
      ensures calls == old(calls) + [Call(WriteOp(pin, value), status)]
      ensures level == if status == 0 then old(level)[pin := value] else old(level)
    {
      status :| true;
      calls := calls + [Call(WriteOp(pin, value), status)];
      if status == 0 {
        level := level[pin := value];
      }
    }

    /** `GPIORead(pin)`: the pin's level, or -1 when the driver fails. */
    method Read(pin: int) returns (value: int)
      modifies this
      ensures calls == old(calls) + [Call(ReadOp(pin), value)]
      ensures level == old(level)
      ensures value == -1 || (pin in level && value == level[pin])
    {
      var ok: bool :| true;
      value := if ok && pin in level then level[pin] else -1;
      calls := calls + [Call(ReadOp(pin), value)];
    }
  }
}

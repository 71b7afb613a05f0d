/**
 * The message envelope of pkg/message/message.go and its one-shot
 * acknowledgment: a message is resolved by Ack or Nack, the first of which
 * hands the message id and the verdict to the callback bound by the consumer
 * and marks the message done; every later call does nothing.
 */
module Message {
  import opened Wrappers
  import opened IdGen

  /** The values of the attribute header, whose type lives outside this module. */
  type HeaderValue

  /** Message attributes: unique keys, no order. */
  type Header = map<string, HeaderValue>

  /** Why a byte string could not be decoded into a message. */
  datatype DecodeError = DecodeError(reason: string)

  /** The persistent fields of a message: everything but the resolution state. */
  datatype Fields = Fields(
    id: string,
    data: seq<bv8>,
    orderingKey: string,
    attributes: Header,
    size: int,
    deliveryAttempt: Option<int>)

  /** One invocation of a completion callback. */
  datatype Call = Call(id: string, ack: bool)

  /** What one call of Ack or Nack did. */
  datatype Resolution =
    | Invoked(ack: bool)   // first call: the callback ran with this verdict
    | NoEffect             // the message was already done
    | NilCallPanic         // first call, but no callback was bound: Go panics on the nil call

  /** The completion callback a consumer binds to a message. */
  class DoneCallback {
    /** Every (id, ack) pair this callback has been invoked with, in order. */
    ghost var calls: seq<Call>

    constructor ()
      ensures calls == []
    {
      calls := [];
    }

    method Invoke(id: string, ack: bool)
      modifies this
      ensures calls == old(calls) + [Call(id, ack)]
    {
      calls := calls + [Call(id, ack)];
    }
  }

  // ---------------------------------------------------------------------------
  // The resolution state machine as values.

  /** The part of a message that resolution looks at. */
  datatype DoneState = DoneState(calledDone: bool, bound: bool)

  /** One call of `done(ack)`: the new state and what happened. */
  function DoneStep(s: DoneState, ack: bool): (r: (DoneState, Resolution))
    ensures r.0.calledDone && r.0.bound == s.bound
  {
    if s.calledDone then (s, NoEffect)
    else (s.(calledDone := true), if s.bound then Invoked(ack) else NilCallPanic)
  }

  /** A sequence of Ack (true) and Nack (false) calls, one after the other. */
  function Run(s: DoneState, ops: seq<bool>): (r: (DoneState, seq<Resolution>))
    ensures |r.1| == |ops|
    decreases |ops|
  {
    if ops == [] then (s, [])
    else
      var (s1, o) := DoneStep(s, ops[0]);
      var (s2, os) := Run(s1, ops[1..]);
      (s2, [o] + os)
  }

  /** The verdicts the callback received, in order. */
  function Invocations(rs: seq<Resolution>): (acks: seq<bool>)
    ensures |acks| <= |rs|
  {
    if rs == [] then []
    else (if rs[0].Invoked? then [rs[0].ack] else []) + Invocations(rs[1..])
  }

  /** Once done, a message ignores every further Ack and Nack. */
  lemma {:induction false} NoEffectOnceDone(s: DoneState, ops: seq<bool>)
    requires s.calledDone
    ensures Run(s, ops).0 == s
    ensures forall i | 0 <= i < |ops| :: Run(s, ops).1[i] == NoEffect
    ensures Invocations(Run(s, ops).1) == []
    decreases |ops|
  {
    if ops != [] {
      NoEffectOnceDone(s, ops[1..]);
    }
  }

  /** The flag is set by the first call and never cleared; the binding never changes. */
  lemma {:induction false} CalledDoneMonotone(s: DoneState, ops: seq<bool>)
    ensures Run(s, ops).0.calledDone <==> s.calledDone || ops != []
    ensures Run(s, ops).0.bound == s.bound
    decreases |ops|
  {
    if ops != [] {
      CalledDoneMonotone(DoneStep(s, ops[0]).0, ops[1..]);
    }
  }

  /** With a callback bound, the first of any run of Acks and Nacks wins, and alone. */
  lemma {:induction false} FirstCallWins(s: DoneState, ops: seq<bool>)
    requires !s.calledDone && s.bound && ops != []
    ensures Run(s, ops).1[0] == Invoked(ops[0])
    ensures forall i | 1 <= i < |ops| :: Run(s, ops).1[i] == NoEffect
    ensures Invocations(Run(s, ops).1) == [ops[0]]
  {
    var (s1, o) := DoneStep(s, ops[0]);
    NoEffectOnceDone(s1, ops[1..]);
  }

  /** Without a callback, the first call faults and nothing is ever invoked. */
  lemma {:induction false} UnboundFirstCallPanics(s: DoneState, ops: seq<bool>)
    requires !s.calledDone && !s.bound && ops != []
    ensures Run(s, ops).1[0] == NilCallPanic
    ensures forall i | 1 <= i < |ops| :: Run(s, ops).1[i] == NoEffect
    ensures Invocations(Run(s, ops).1) == []
  {
    var (s1, o) := DoneStep(s, ops[0]);
    NoEffectOnceDone(s1, ops[1..]);
  }

  /** Over any run, the callback is invoked at most once. */
  lemma {:induction false} AtMostOnce(s: DoneState, ops: seq<bool>)
    ensures |Invocations(Run(s, ops).1)| <= 1
  {
    if s.calledDone {
      NoEffectOnceDone(s, ops);
    } else if ops != [] && s.bound {
      FirstCallWins(s, ops);
    } else if ops != [] {
      UnboundFirstCallPanics(s, ops);
    }
  }

  // ---------------------------------------------------------------------------
  // The message object.

  class Message {
    var Id: string
    var Data: seq<bv8>
    var OrderingKey: string
    var Attributes: Header
    var Size: int
    var DeliveryAttempt: Option<int>
    var calledDone: bool
    var DoneFunc: DoneCallback?

    /** The persistent fields, those an encoding carries. */
    function PersistentFields(): Fields
      reads this
    {
      Fields(Id, Data, OrderingKey, Attributes, Size, DeliveryAttempt)
    }

    /** The resolution state. */
    function State(): DoneState
      reads this
    {
      DoneState(calledDone, DoneFunc != null)
    }

    /** A message holding `f`, not yet resolved, with no callback bound. */
    constructor (f: Fields)
      ensures PersistentFields() == f
      ensures !calledDone && DoneFunc == null
    {
      Id, Data, OrderingKey := f.id, f.data, f.orderingKey;
      Attributes, Size, DeliveryAttempt := f.attributes, f.size, f.deliveryAttempt;
      calledDone := false;
      DoneFunc := null;
    }

    /**
     * Resolves the message. The first call sets the flag, then invokes the
     * bound callback with the id and `ack`; later calls do nothing. The flag is
     * set before the callback is called, also when none is bound.
     */
    method Done(ack: bool) returns (r: Resolution)
      modifies this, DoneFunc
      ensures (State(), r) == DoneStep(old(State()), ack)
      ensures calledDone
      ensures old(calledDone) ==> r == NoEffect
      ensures !old(calledDone) && DoneFunc != null ==> r == Invoked(ack)
      ensures !old(calledDone) && DoneFunc == null ==> r == NilCallPanic
      ensures PersistentFields() == old(PersistentFields()) && DoneFunc == old(DoneFunc)
      ensures DoneFunc != null ==>
        DoneFunc.calls == old(DoneFunc.calls) + (if r.Invoked? then [Call(Id, ack)] else [])
    {
      if calledDone {
        return NoEffect;
      }
      calledDone := true;
      if DoneFunc == null {
        return NilCallPanic;
      }
      DoneFunc.Invoke(Id, ack);
      r := Invoked(ack);
    }

    /** Resolves the message as processed. */
    method Ack() returns (r: Resolution)
      modifies this, DoneFunc
      ensures (State(), r) == DoneStep(old(State()), true)
      ensures PersistentFields() == old(PersistentFields()) && DoneFunc == old(DoneFunc)
      ensures DoneFunc != null ==>
        DoneFunc.calls == old(DoneFunc.calls) + (if r.Invoked? then [Call(Id, true)] else [])
    {
      r := Done(true);
    }

    /** Resolves the message as not processed, asking for redelivery. */
    method Nack() returns (r: Resolution)
      modifies this, DoneFunc
      ensures (State(), r) == DoneStep(old(State()), false)
      ensures PersistentFields() == old(PersistentFields()) && DoneFunc == old(DoneFunc)
      ensures DoneFunc != null ==>
        DoneFunc.calls == old(DoneFunc.calls) + (if r.Invoked? then [Call(Id, false)] else [])
    {
      r := Done(false);
    }
  }

  // ---------------------------------------------------------------------------
  // Construction and decoding.

  /** The state a freshly built message is in. */
  ghost predicate Constructed(m: Message, data: seq<bv8>, key: string)
    reads m
  {
    && m.PersistentFields() == Fields(m.Id, data, key, map[], 0, None)
    && !m.calledDone && m.DoneFunc == null
  }

  /** A message with a new id, the payload `data`, the ordering key `key`, empty attributes. */
  method NewEventwithOrderKey(gen: IdGenerator, data: seq<bv8>, key: string) returns (m: Message)
    requires gen.Valid()
    modifies gen
    ensures gen.Valid() && fresh(m)
    ensures Constructed(m, data, key)
    ensures m.Id !in old(gen.issued) && gen.issued == old(gen.issued) + {m.Id}
  {
    var id := gen.Next();
    m := new Message(Fields(id, data, key, map[], 0, None));
  }

  /** A message with a new id, the payload `data`, no ordering key, empty attributes. */
  method NewMessage(gen: IdGenerator, data: seq<bv8>) returns (m: Message)
    requires gen.Valid()
    modifies gen
    ensures gen.Valid() && fresh(m)
    ensures Constructed(m, data, "")
    ensures m.Id !in old(gen.issued) && gen.issued == old(gen.issued) + {m.Id}
  {
    m := NewEventwithOrderKey(gen, data, "");
  }

  /**
   * Decodes `bytes` into a new message. `decode` stands for the encoding
   * library: it yields either the persistent fields or an error. On an error
   * no message comes out; otherwise a fresh, unresolved, unbound message with
   * exactly the decoded fields.
   */
  method ToMessage(bytes: seq<bv8>, decode: seq<bv8> -> Result<Fields, DecodeError>)
    returns (m: Message?, err: Option<DecodeError>)
    ensures m == null <==> err.Some?
    ensures decode(bytes).Failure? ==> m == null && err == Some(decode(bytes).error)
    ensures decode(bytes).Success? ==>
      && m != null && fresh(m)
      && m.PersistentFields() == decode(bytes).value
      && !m.calledDone && m.DoneFunc == null
  {
    var decoded := decode(bytes);
    if decoded.Failure? {
      return null, Some(decoded.error);
    }
    m := new Message(decoded.value);
    err := None;
  }
}

/**
 * Consumer-side uses of the message, proved from the contracts of the
 * message module alone.
 */
module Scenarios {
  import opened IdGen
  import opened Message

  /** Two messages built from one generator never share an id. */
  method TwoMessages(gen: IdGenerator, d1: seq<bv8>, d2: seq<bv8>) returns (m1: Message, m2: Message)
    requires gen.Valid()
    modifies gen
    ensures gen.Valid() && fresh(m1) && fresh(m2)
    ensures m1.Id != m2.Id
    ensures m1.Id in gen.issued && m2.Id in gen.issued
  {
    m1 := NewMessage(gen, d1);
    m2 := NewEventwithOrderKey(gen, d2, "order-42");
  }

  /**
   * A received message with a callback bound: Ack, Ack again, then Nack. The
   * callback hears exactly one verdict, the first.
   */
  method AckAckNack(gen: IdGenerator, cb: DoneCallback, data: seq<bv8>)
    returns (m: Message, r1: Resolution, r2: Resolution, r3: Resolution)
    requires gen.Valid()
    modifies gen, cb
    ensures r1 == Invoked(true) && r2 == NoEffect && r3 == NoEffect
    ensures cb.calls == old(cb.calls) + [Call(m.Id, true)]
    ensures m.calledDone && m.Data == data
  {
    m := NewMessage(gen, data);
    m.DoneFunc := cb;
    r1 := m.Ack();
    r2 := m.Ack();
    r3 := m.Nack();
  }

  /** Nack first: the callback hears `false` once, and a later Ack changes nothing. */
  method NackThenAck(gen: IdGenerator, cb: DoneCallback, data: seq<bv8>)
    returns (m: Message, r1: Resolution, r2: Resolution)
    requires gen.Valid()
    modifies gen, cb
    ensures r1 == Invoked(false) && r2 == NoEffect
    ensures cb.calls == old(cb.calls) + [Call(m.Id, false)]
  {
    m := NewMessage(gen, data);
    m.DoneFunc := cb;
    r1 := m.Nack();
    r2 := m.Ack();
  }

  /**
   * Ack on a message nobody bound a callback to: the flag is set, then the
   * nil callback is called, which faults; a second Ack is ignored.
   */
  method AckUnbound(gen: IdGenerator, data: seq<bv8>)
    returns (m: Message, r1: Resolution, r2: Resolution)
    requires gen.Valid()
    modifies gen
    ensures r1 == NilCallPanic && r2 == NoEffect
    ensures m.calledDone && m.DoneFunc == null
  {
    m := NewMessage(gen, data);
    r1 := m.Ack();
    r2 := m.Ack();
  }
}

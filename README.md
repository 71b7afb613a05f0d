# Message envelope and one-shot acknowledgment (pulse, `pkg/message`)

This project models the message envelope of the pulse pub/sub client:

- how a message is built: a new id, the payload, the ordering key, and an empty attribute header;
- how a consumer resolves it: the first of `Ack`/`Nack` hands `(Id, verdict)` to the bound completion callback, and every later call does nothing;
- the shape of `ToMessage`: a decode error yields no message at all.

Files:

- `wrappers.dfy` holds `Option` (Go's nil for `*int`) and `Result`.
- `idgen.dfy` holds the id generator. It is passed to the constructors as an object. Its ids are a fixed prefix followed by a base-62 sequence number that grows by one on each call. Its `Next` is proved never to return an id it has returned before.
- `message.dfy` holds the `Message` class, with the source's field names, and the completion callback.
  - The callback is a `DoneCallback` object. Its ghost `calls` log records every `(id, ack)` it is invoked with. `DoneFunc == null` is Go's nil func.
  - `DoneStep`/`Run` is a value-level model of the `done` state machine. The lemmas about it cover any sequence of Ack/Nack calls. `Message.Done`, `Ack` and `Nack` are proved to take exactly the step `DoneStep` describes.
- `scenarios.dfy` holds consumer-side call sequences proved from the contracts alone.

The code and the design description disagree on one point, and the model follows the code. The design says an Ack or Nack on a message with no callback bound is a silent no-op. The code sets `calledDone` and then calls `DoneFunc` unconditionally (pkg/message/message.go:101-102). The constructors leave `DoneFunc` nil, so the first Ack of a freshly built message panics in Go, with the flag already set. The model returns the outcome `NilCallPanic` for that call. The flag is set all the same, and later calls are `NoEffect`.

## Model

| member | source | states |
|---|---|---|
| IdGen.FromToBase62 | pkg/message/message.go:71 | reading back the base-62 sequence number written into an id gives the number it was written from |
| IdGen.IdAtSeqOf | pkg/message/message.go:71 | every generated id carries its own sequence number after the prefix, so it can be told apart from ids of other sequence numbers |
| IdGen.IdAtInjective | pkg/message/message.go:12 | different sequence numbers give different ids: the generator cannot repeat an id |
| IdGen.IdGenerator.constructor | pkg/message/message.go:12 | a new generator has issued no ids and satisfies its invariant |
| IdGen.IdGenerator.Next | pkg/message/message.go:71 | the id returned was never issued before; it is added to the issued set and the invariant is kept |
| Message.DoneStep | pkg/message/message.go:97-103 | after any call of `done` the flag is set, and whether a callback is bound does not change |
| Message.NoEffectOnceDone | pkg/message/message.go:98-100 | once `calledDone` holds, every further Ack or Nack leaves the state alone, has no effect and invokes nothing |
| Message.CalledDoneMonotone | pkg/message/message.go:101 | after a run of calls the flag holds exactly when it held before or some call was made: it is never cleared |
| Message.FirstCallWins | pkg/message/message.go:83-103 | with a callback bound and the message unresolved, the first call of any run invokes the callback with its own verdict, every later call has no effect, and the callback gets exactly that one verdict over the whole run |
| Message.UnboundFirstCallPanics | pkg/message/message.go:101-102 | with no callback bound, the first call reaches the nil callback, every later call has no effect, and no verdict is ever delivered |
| Message.AtMostOnce | pkg/message/message.go:83-103 | over any run of Ack/Nack calls from any state the callback is invoked at most once |
| Message.Message.constructor | pkg/message/message.go:70-75 | the message holds exactly the given persistent fields, is unresolved and has no callback |
| Message.Message.Done | pkg/message/message.go:97-103 | takes exactly the `DoneStep` step. An already-done message has no effect. Otherwise the flag is set and the bound callback gets exactly one more `(Id, ack)`, or the nil call faults. Id, data, key, attributes, size, delivery attempt and binding are unchanged |
| Message.Message.Ack | pkg/message/message.go:84-86 | `done(true)`: the `DoneStep` step with verdict true; at most one `(Id, true)` appended to the callback log; persistent fields unchanged |
| Message.Message.Nack | pkg/message/message.go:93-95 | `done(false)`: the `DoneStep` step with verdict false; at most one `(Id, false)` appended to the callback log; persistent fields unchanged |
| Message.NewEventwithOrderKey | pkg/message/message.go:69-76 | a fresh message with a never-issued id from one `Next` call: data and key as given, empty attributes, size 0, no delivery attempt, unresolved, no callback |
| Message.NewMessage | pkg/message/message.go:65-67 | the same state `NewEventwithOrderKey` builds, with the empty ordering key |
| Message.ToMessage | pkg/message/message.go:112-119 | nil message exactly when an error is returned. A decode error is passed through with no message. Otherwise the result is a fresh message with exactly the decoded fields, unresolved and unbound |
| Scenarios.TwoMessages | pkg/message/message.go:65-76 | two messages built from one generator have different ids |
| Scenarios.AckAckNack | pkg/message/message.go:83-86 | Ack, Ack, Nack on a bound message: the callback hears `(Id, true)` once, and the two later calls have no effect |
| Scenarios.NackThenAck | pkg/message/message.go:92-95 | Nack then Ack: the callback hears `(Id, false)` once, and the Ack has no effect |
| Scenarios.AckUnbound | pkg/message/message.go:101-102 | Ack on a freshly built message faults on the nil callback with the flag already set; a second Ack has no effect |

## Left out

- The id generator library (pkg/message/message.go:8, 12) is process-global and foreign to the repository. It is replaced by an injected counter-based generator. Its random prefix, random increment and prefix re-randomisation on sequence overflow are not modelled, so the ids are unique by construction rather than with high probability.
- `Encode`, `Decode` and `ToByte` (pkg/message/message.go:107-135) are wrappers over Go's `encoding/gob`, which is not part of this model. `Decode` appears only as the function parameter of `ToMessage`, which yields fields or an error. No byte-level round trip is stated. `ToByte` also drops the encode error; that is not modelled.
- `String` (pkg/message/message.go:60-62) only formats text.
- The CloudEvents constants and the commented format (pkg/message/message.go:14-34) are not used by any code.
- `utils.Header` is not part of this model. Attributes are a map from strings to an abstract value type.
- driver/nats/sender.go is not modelled. It is a thin client of the NATS library: connect, publish one byte string, close.
- Message.Message.Done: the callback may only append to its own log. A Go callback may run arbitrary code, including a reentrant Ack on the same message. The source makes that reentrant call a no-op by setting the flag before the call, but this model does not exercise it.
- Concurrent Ack/Nack: the source's flag is an unguarded bool, so races between goroutines are not modelled.
- `Data` is a `seq<bv8>` value. The aliasing of the caller's byte slice by the message is not modelled.

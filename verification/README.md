# A verified model of dope-tls

dope-tls puts a TLS record engine (rustls) behind buffers of fixed size: it decrypts in place,
moves ciphertext through one bounded cursor per connection, shares two pools of slots between
all connections, and closes each direction on its own. This project models that code and proves
what it is for.

How the modules build on each other:

- `Records` is the reference for receiving: what a TLS byte stream means, whatever reads it comes
  in. `Direct` is decryption in place, `Receiving` what a call publishes and what sequences of
  calls amount to, `Framing` an encoder that receiving undoes, `Stream` the retained read.
- `Outbox` is the engine's sending half, with a log of everything it ever emitted. `Pipes` says
  what each send call makes of one connection's output, cursor and flags; `PipeLaws` and
  `PipeRuns` prove what holds over every run; `Senders` is the same calls in place, each proved
  to do what `Pipes` says.
- `Emissions` says where everything a connection sends comes from, `AfterClose` what can follow
  close_notify, `Answers` what the send calls tell the driver, `PipeSlots` which of them take a
  slot.
- `Waiters` is the queue of blocked connections, `Policies` the admission of receives,
  `Openings` the opening of connections, `Schedules` every run of an endpoint with all its
  connections, `Idling` how an endpoint comes to rest, and `Serving` when everyone who waits is
  served.
- `Native` and `Buffers` hold the foreign parts with the behaviour the crate relies on, and
  `Connections` the flags. Every method on a class is proved against functions on values, and
  statements over runs are about those functions.

Where each of the harder results is:

- Receiving yields the same plaintext however the stream is cut (`Receiving.FragmentationIndependence`,
  `Receiving.WholeStream`), because one call of the nested loops in place moves the stream on by
  exactly its input (`Direct.Owned`); and what it yields is what the records carry, byte for byte
  (`Framing.ReceivesEncoded`, `Framing.ReceivesUntilTheEnd`).
- One spill suffices and none of the loop's own errors occurs: `Records.LeadBound` is the
  arithmetic, `Direct.CreditSuffices` the step, `Direct.Owned` the result.
- Nothing is lost, reordered or sealed twice on the way out, no application data follows
  close_notify, and sealed data never piles up, over every run (`PipeLaws.EveryRunIsSound`,
  `PipeRuns.RetryCommitsExactPrefix`, `PipeRuns.RecordsPerWrite`); and when a call has nothing
  more to offer, all of it has been sent (`PipeRuns.NothingLeftUnsent`). What goes out is the
  caller's plaintext sealed record by record, and every reply that is called for
  (`Emissions.RetryPutsOutSeals`, `Emissions.EveryRunEmits`).
- Slots, sessions, wakes and waiters are conserved over every run of an endpoint
  (`Schedules.EveryRunConserves`, `Schedules.EveryRunKeepsSessions`, `Waiters.EveryRunIsOrderly`,
  `Openings.EveryRunAccounts`), and from every state such runs lead to everyone who waits is
  served once, exactly if a send slot is free or nobody waits for one or needs one
  (`Serving.EveryWaiterIsServed`).

Three properties one might expect do not hold.

- close_notify need not be the last thing sent, as section 6.1 of RFC 8446 has it. This side goes
  on receiving, and what comes in may call for a reply, and for a KeyUpdate with it.
  `AfterClose.WhatFollowsClose` says exactly when, and `AfterClose.KeyUpdateFollowsClose` is a
  connection to which it happens.
- A connection that waits for a send slot can come by one on its own, by closing its side. Its
  receive would then be admitted, but while the send pool is empty `Runtime::ready` reports
  nobody. `Schedules.StalledExactly` says exactly when, `Schedules.StallHappens` is a run that
  gets there, and the next send slot that comes back ends it (`Schedules.StallEnds`).
- Connections can wait while nobody is reported and nothing is under way that would wake them: an
  opening that was kept for the next caller holds the send slot its hello is in, and no wake
  comes of it. `Schedules.StrandedExactly` says exactly when, `Schedules.StrandingHappens` is a
  run that gets there, committing to the opening ends it (`Schedules.CommittingEnds`), and
  `Serving.EveryWaiterIsServed` takes it into account.

## Model

| member | source | states |
|---|---|---|
| Framing.NextIsFrame | src/staging.rs:2-2 | a record with its size, most significant byte first, in the five-byte header of section 5.1 of RFC 8446 is recognised whole and exactly, whatever follows it |
| Records.Open | src/staging.rs:1-2 | section 5.2 of RFC 8446: an opened record is longer than its content, which is at most 2^14 bytes |
| Records.DeframeAppend | src/state/direct/input.rs:35-55 | parsing can stop after any byte and resume with the carried bytes: same records, same rest, same end |
| Records.RestIsShort | src/state/direct/input.rs:74-85 | after processing, an open stream holds less than one record |
| Records.EndIsLast | src/state/direct/input.rs:74-85 | processing stops with the first bad record or close_notify, and that record says how |
| Records.PlainsBounded | src/state/direct/input.rs:94-102 | every chunk of plaintext is nonempty and one record's at most |
| Records.PlainsFit | src/state/direct/input.rs:12-13 | records that lie wholly in some bytes have no more plaintext than there are bytes |
| Records.LeadBound | src/state/direct/input.rs:87-118 | at every prefix of a call's input, the plaintext completed so far exceeds the prefix by at most the content of the one record left open before the call, and that content comes first |
| Native.Output.WriteVectored | src/state/mod.rs:14-24 | a gather write takes the concatenation of its chunks as far as there is room, and nothing after a short write |
| Buffers.TransferExact | src/state/mod.rs:30-51 | a drain loses and reorders nothing, and leaves either no room or no output |
| Buffers.DrainInto | src/state/mod.rs:30-51 | the drain loop moves exactly min(spare, pending) bytes, whatever number of chunks each gather write offers; the zero-progress error is never returned |
| Buffers.SendState.Reserve | src/tls/mod.rs:214-219 | lends the own cursor or a fresh one; fails only when there is neither, and then nothing has moved |
| Buffers.SendState.TryBuffer | src/tls/mod.rs:221-229 | takes a slot only when it has none |
| Buffers.SendState.FreeEmpty | src/tls/mod.rs:238-245 | gives the slot back, and reports it, exactly when nothing is unsent |
| Buffers.SendState.ConsumeMax | src/tls/mod.rs:206-212 | a completed native send moves the cursor on by what was sent |
| Buffers.Buffered.Complete | src/tls/mod.rs:176-204 | a loan ends with its unsent ciphertext back in its own store unchanged, or with the slot back in the pool, and reports which |
| Connections.Connection.PeerEof | src/tls/mod.rs:115-125 | end of input succeeds after close_notify and otherwise fails the connection; unread plaintext is never found |
| Connections.Connection.Drain | src/tls/mod.rs:150-160 | draining a connection never fails it |
| Connections.Connection.SealClose | src/tls/mod.rs:127-136 | only the first close of a connection that has not failed queues close_notify, behind everything already queued |
| Direct.PlaceHandsOver | src/state/direct/input.rs:103-125 | whichever way a chunk is placed, across compaction too, what was handed over and what is still unread stay the same bytes in the same order |
| Direct.CreditSuffices | src/state/direct/input.rs:103-118 | within the bound, placing never needs a second spill and always fits, and the bound holds again |
| Direct.Staged.Copy | src/state/staged.rs:22-32 | the slot is written once; a second write is refused and changes nothing, and what does not fit loses the slot |
| Direct.Input.Spill | src/state/direct/input.rs:109-117 | the front of the prefix goes to the slot and the rest moves to the front, without touching unread input |
| Direct.Input.CopyChunk | src/state/direct/input.rs:96-125 | one turn of the copy loop is one placement, and consumes the chunk exactly if it was placed |
| Direct.Input.CopyPlain | src/state/direct/input.rs:89-127 | the copy loop ends, keeps len <= used <= the input's length, leaves unread input alone, and within the bound hands over every chunk |
| Direct.Input.PublishQueued | src/state/direct/input.rs:79-83 | an empty write publishes a held-back KeyUpdate and never fails |
| Direct.Input.Process | src/state/direct/input.rs:74-85 | one processing round; only a broken stream is an error, and a queued KeyUpdate is published unless this side closed or the handshake goes on |
| Direct.Turn | src/state/direct/input.rs:51-54 | plaintext authenticated before a bad record is handed over although processing failed |
| Direct.Advance | src/state/direct/input.rs:39-54 | every turn of the read loop takes some input, and hands over what it completes |
| Direct.Run | src/state/direct/input.rs:35-55 | the read loop ends with the input used up or the stream ended, with unread input unchanged at every step |
| Direct.Owned | src/state/direct/input.rs:23-72 | one receive call moves the stream on by exactly its input; spill and prefix together are the plaintext; it fails exactly if the stream is broken, so no second spill and no lack of room occurs; a slot is kept exactly if it holds a chunk of 1 to 2^14 bytes, and only if a record had been left open |
| Receiving.FragmentationIndependence | src/state/direct/input.rs:23-127 | however bytes are cut into receive calls, the calls together yield what one call would |
| Receiving.WholeStream | src/state/direct/input.rs:23-127 | from the start of a connection, the output is the plaintext of the records before the first bad one or close_notify |
| Receiving.EndsOnce | src/state/direct/input.rs:77-78 | a stream counts as closed by its peer exactly when the record that ended it is close_notify, and as broken exactly when it is bad |
| Framing.ReceivesEncoded | src/state/direct/input.rs:35-125 | for any records whose sizes stand in their headers: in whatever reads their frames come, receiving yields exactly what those that are application data carry, in order, nothing for the others, and keeps nothing back |
| Framing.ReceivesUntilTheEnd | src/state/direct/input.rs:35-85 | when behind such records comes a close_notify the stream ends clean, when one comes that is refused, does not open or has a size that is not allowed it breaks; what came before is handed over and what comes after is not |
| Receiving.Batch.Len | src/tls/receive/raw.rs:78-80 | the announced length is the number of chunks still to come, at most two |
| Receiving.Batch.Next | src/tls/receive/raw.rs:82-88 | chunks come in order, each once, and None means there are none |
| Receiving.ReadBatch | src/tls/receive/mod.rs:32-51 | the chunks published are the plaintext of the call, none of them empty, and the slot counts as retained exactly if one of them holds it |
| Receiving.Keep | src/tls/receive/mod.rs:65-83 | a read too long to keep fails the connection and releases the slot; an earlier failure is the one reported |
| Receiving.Retain | src/tls/receive/mod.rs:52-84 | the retained read is the plaintext of the call, and the slot counts as retained exactly if the read holds it |
| Stream.ServeConserves | src/tls/receive/stream.rs:114-156 | over any uses of a retained read, what was committed and what is left are the spilled chunk and then the prefix |
| Stream.ServeNeverCrosses | src/tls/receive/stream.rs:144-155 | no single use crosses from the spilled chunk into the prefix; each only loses from its front |
| Stream.UsesEmptyTheQueue | src/tls/receive/stream.rs:128-155 | as many uses as there are bytes, each for at least one byte, hand out all of them and leave nothing |
| Stream.Retained.TryNew | src/tls/receive/stream.rs:33-54 | an empty read is none, a read over the transfer limit is refused, and the cached length is the sum of both parts |
| Stream.Retained.View | src/tls/receive/stream.rs:74-95 | what can be seen is what is left of the current part |
| Stream.Retained.Next | src/tls/receive/stream.rs:144-155 | there is a head exactly if anything is left, and it shows the view |
| Stream.Retained.TryConsume | src/tls/receive/stream.rs:119-126 | takes exactly that many bytes from the front of the contents if the current part has them, and otherwise nothing |
| Stream.Retained.ConsumeMax | src/tls/receive/stream.rs:128-135 | takes as many bytes as the current part has up to that many from the front of the contents, and says how many |
| Stream.Current.Commit | src/tls/receive/stream.rs:299-308 | committing takes from the queue what the head consumed and keeps the cached length right; dropping the head takes nothing |
| Stream.Head.Commit | src/state/direct/source.rs:153-157 | the cursor loses exactly the consumed prefix |
| Stream.Head.TryConsume | src/state/direct/source.rs:139-143 | consumes within what remains, and otherwise changes nothing |
| PipeLaws.PrepareCommitsWhatItSeals | src/tls/senders.rs:19-52 | one write commits exactly the bytes it sealed; waiting for a slot changes nothing |
| PipeLaws.TransferEvolves | src/tls/mod.rs:144-160 | moving output to the cursor emits nothing and keeps what is held, in order |
| PipeLaws.SealEvolves | src/tls/senders.rs:98-123 | sealing adds exactly its records behind what is held, and never has more than one take waiting in the engine |
| PipeLaws.QueueCloseEvolves | src/tls/mod.rs:131-134 | closing emits one close_notify, last of what it emits |
| PipeLaws.ReceiveEvolves | src/tls/receive/policy.rs:140-190 | a receive transaction adds its output behind what is held, whether it moves to a loaned cursor or waits for the next send |
| PipeLaws.EveryRunIsSound | src/tls/senders.rs:19-288 | over every run of all send calls, closes and receives: wire, cursor and engine together are all ciphertext ever produced, in order; close_notify goes out at most once and no application data after it; and at most 2^14 bytes of application data are sealed and not yet in the cursor |
| Emissions.EveryRunEmits | src/tls/senders.rs:89-171 | over every run: application data is sealed as it was given, each record under its own number; each reply or alert that an incoming record calls for goes out once, in order; a KeyUpdate goes out only if a record asked for it or it was held back from before; what closes is close_notify |
| Emissions.TheWireIsAuthentic | src/tls/senders.rs:19-288 | so wire, cursor and engine together are, in order, seals of the application data, close_notify, replies and KeyUpdates |
| Emissions.RetryPutsOutSeals | src/tls/senders.rs:89-171 | over any retries of a write, with anything in between, what is put out are the seals of exactly the committed prefix |
| Emissions.QuietRound | src/state/direct/input.rs:79-83 | a processing round that calls for no reply publishes a KeyUpdate exactly if one is held back, this side is open, the handshake is over and the stream did not break |
| Emissions.HandshakeEnds | src/tls/mod.rs:112-114 | over every run the handshake goes on exactly until a record comes in that finishes it |
| AfterClose.ClosedRunEchoes | src/state/direct/input.rs:79-83 | once this side closed, over every run it emits what incoming records cause, and nothing of its own accord |
| AfterClose.WhatFollowsClose | src/tls/mod.rs:131-134 | section 6.1 of RFC 8446 would have close_notify be the last thing sent: something follows it exactly if a record that comes in later calls for a reply, an alert included, and that includes a KeyUpdate exactly if such a record comes behind one that asked for a KeyUpdate |
| AfterClose.KeyUpdateFollowsClose | src/state/direct/input.rs:79-83 | a connection to which that happens: after its close comes a record that asks for a KeyUpdate, then one that does not open, and KeyUpdate and alert go out behind close_notify |
| PipeRuns.RetryCommitsExactPrefix | src/tls/senders.rs:40-51 | over any retries of a write, with anything in between and any short writes of the engine, what was sealed is exactly the prefix committed |
| PipeRuns.RetrySeals | src/tls/senders.rs:40-51 | and those records, in order, are what the connection sealed meanwhile |
| PipeRuns.RecordsPerWrite | src/tls/senders.rs:89-171 | if the engine takes whole parts, a write committed in full has made ceil(total / 2^14) records |
| PipeRuns.RunHoldsNothingBack | src/state/direct/input.rs:79-83 | over every run, a side that may write has no KeyUpdate held back: receiving published it |
| PipeRuns.FirstRecordFits | src/staging.rs:1-4 | from an empty cursor and an idle engine, in any state such runs lead to, the first record goes into the cursor whole |
| PipeRuns.CloseIsFinal | src/tls/protocol.rs:131-153 | a close waits, changing nothing, exactly if it needs a slot and there is none; otherwise a connection that has not failed is closed for good; one that has failed or closed says nothing more |
| PipeRuns.WritesNeedAnOpenSide | src/tls/senders.rs:95-110 | before the handshake is over, after a close and after a failure a write seals nothing; a failure is reported once, by the write it happens to, which closes |
| PipeRuns.NothingAfterClose | src/tls/mod.rs:112-114 | after this side closed or failed no write commits a byte, whatever happens in between |
| PipeRuns.NothingStranded | src/tls/senders.rs:185-288 | a call that does not ask to wait for a slot leaves ciphertext to submit or nothing held at all, and no call leaves a slot with nothing to send in it |
| PipeRuns.NothingLeftUnsent | src/tls/senders.rs:19-288 | over every run: when such a call offers nothing more, all ciphertext ever produced is on the wire |
| PipeRuns.SendsRunDry | src/tls/senders.rs:185-206 | complete sends put everything held on the wire, in order, and then give the slot back |
| Answers.EveryCallAnswersWell | src/tls/senders.rs:19-288 | for every call: it asks to wait for a slot exactly if it has something to put in one, holds none and none is free; it orders the close always for an ending connection, never for a close, and otherwise exactly if it handled the cursor of a connection that has failed; it reports a failure exactly if its own write failed; only writes use up plaintext |
| Answers.AdvanceKeepsRoom | src/tls/mod.rs:206-212 | a partly sent cursor is its unsent suffix with the room it had, and an emptied one has its whole slot to offer again |
| Answers.PartialSendKeepsSuffix | src/tls/senders.rs:278-288 | after a partial send the cursor is the unsent suffix, in place, and engine and pool are untouched, ending or not |
| Answers.CompletedSendRefills | src/tls/senders.rs:185-206 | after a complete send the cursor holds as much of the engine's output as fits |
| Answers.SealGoesOn | src/tls/senders.rs:98-123 | sealing stops only for want of plaintext, of room or of an idle engine, or because the writer took nothing, and fails exactly if the writer does |
| Answers.WriteGetsOn | src/tls/senders.rs:95-123 | a write on an open side with an idle engine and room commits at least what the writer takes of its first part |
| PipeSlots.CallKeepsSlots | src/tls/mod.rs:221-245 | a send call moves a slot between the pool and its connection and loses none; one held from earlier goes back only with a completion, which reports it |
| PipeSlots.SlotsAreTakenToSend | src/tls/protocol.rs:131-153 | during the handshake a call of a connection without a slot comes away with one exactly if there is output waiting in the engine, or it is a first close |
| Senders.Input.Take | src/tls/senders.rs:99-99 | a take is the next bytes of the plaintext, still in the caller's chunks |
| Senders.Encrypt | src/tls/senders.rs:89-124 | the loop seals what the pipeline seals and commits exactly that, failing the connection exactly when a write fails |
| Senders.Gather | src/tls/senders.rs:139-148 | with as much room as there are chunks every chunk is offered |
| Senders.EncryptMany | src/tls/senders.rs:127-171 | vectored sealing consumes the same amount and yields the same ciphertext as flat sealing of the concatenation |
| Senders.DoPrepare | src/tls/senders.rs:19-87 | prepare and prepare_many are the pipeline's prepare; what they add to the log are seals of application data, a held-back KeyUpdate and nothing else |
| Senders.DoRefill | src/tls/senders.rs:279-288 | a partly sent cursor is left alone, and so is the engine; an emptied one is filled |
| Senders.DoAfterSend | src/tls/senders.rs:185-206 | a completion is the pipeline's: a partial one leaves the suffix and the engine as they were; it never waits, orders the close exactly for a connection that has failed and held a slot, and reports the slot's release exactly when it happens |
| Senders.DoResume | src/tls/senders.rs:258-276 | an ending connection still sends its output, or waits for a slot |
| Senders.DoPrepareDrain | src/tls/senders.rs:246-256 | draining is the pipeline's: it always orders the close, and waits exactly if an ending connection has output, no slot, and none is free |
| Senders.DoSettle | src/tls/senders.rs:208-220 | settling is a completion followed by a drain: it always orders the close, waits in the same case, leaves the suffix of a partial send, and reports the slot's release exactly when it happens |
| Senders.DoFlush | src/tls/senders.rs:222-244 | flush is the pipeline's, and waits exactly if there is output, no slot, and none is free |
| Senders.DoClose | src/tls/protocol.rs:131-153 | close is the pipeline's |
| Waiters.Queue.Register | src/tls/receive/waiters.rs:49-72 | refused, claiming nothing, exactly if the index is out of range or already in a lane; otherwise the connection enters at the back of the lane named |
| Waiters.Queue.Take | src/tls/receive/waiters.rs:74-79 | the longest waiting of a lane leaves it |
| Waiters.Queue.WakeOne | src/tls/receive/waiters.rs:81-85 | whoever has waited longest in that lane, if anyone, leaves it and is told to retry, and nobody else is touched |
| Waiters.Queue.CancelWaiter | src/tls/receive/waiters.rs:96-102 | looks up by slot and cancels only the occupant named |
| Waiters.Registration.Drop | src/tls/receive/waiters.rs:113-119 | an uncommitted registration takes out its own entry, restoring the lane, and cancels its own credit |
| Waiters.EveryRunIsOrderly | src/tls/receive/waiters.rs:49-134 | over every run: each connection waits at most once over both lanes, each lane serves in the order of registration whatever is cancelled, and claimed credits are exactly those waiting and those settled |
| Waiters.SettledOnce | src/tls/receive/waiters.rs:74-134 | from an empty queue, every credit ever claimed is waiting once or was settled once |
| Waiters.DroppedRegistration | src/tls/receive/waiters.rs:113-119 | a registration dropped before it is committed leaves both lanes as they were |
| Waiters.CancelIsExact | src/tls/receive/waiters.rs:96-102 | a cancel removes that occupant and no other, and notes it as cancelled; a stale epoch changes nothing |
| Waiters.WakeRetries | src/tls/receive/waiters.rs:81-85 | a wake of a lane with waiters settles exactly one, its front, as retried; a wake of an empty lane settles nobody |
| Policies.Runtime.NextReady | src/tls/endpoint/mod.rs:209-220 | receive waiters exactly if there are any and a receive slot is free; egress waiters exactly if nobody waits to receive and slots of both pools are free |
| Policies.Runtime.TakeReady | src/tls/endpoint/mod.rs:228-234 | takes the front of the ready lane, which is then settled as taken, or nothing |
| Policies.Runtime.ReleaseRecv | src/tls/receive/policy.rs:200-206 | a chunk that has been read gives its slot back and wakes one receive waiter |
| Policies.Runtime.ReleaseSend | src/tls/receive/policy.rs:207-213 | a released send slot wakes one egress waiter |
| Policies.Runtime.CancelWaiter | src/tls/receive/policy.rs:191-199 | a cancel reaches the queue and nothing else |
| Policies.TryReserve | src/tls/receive/policy.rs:142-190 | refused for a receive slot exactly if none is free; failing exactly if one is and cannot be allocated; refused for a send slot exactly if one is needed besides and none is free, and then the receive slot goes back and a receive waiter is woken; an admitted receive has its cursor on loan |
| Policies.RefusedFor | src/tls/receive/policy.rs:156-179 | each verdict of an admission, exactly |
| Policies.Transaction.Flush | src/tls/receive/policy.rs:80-85 | output moves to the loaned cursor and otherwise stays in the engine |
| Policies.Transaction.Release | src/tls/receive/policy.rs:92-103 | each slot that comes back wakes one waiter of its lane, and a cursor with unsent bytes returns to its store |
| Policies.Transaction.Drop | src/tls/mod.rs:176-194 | a transaction that is dropped unread gives both slots back, and its ciphertext to its store, and wakes nobody |
| Policies.Finish | src/tls/protocol.rs:228-248 | output is flushed and everything given back before the outcome is reported: the failure if there is one, else the peer's close, else delivery |
| Policies.Process | src/tls/protocol.rs:180-193 | a whole batch receive: the plaintext of the call, one receive step of the pipe, every slot given back that is not in use; and the driver is told of the peer's close exactly if the stream ended clean, of a failure exactly if it broke, and otherwise of delivery |
| Policies.ReadLease | src/tls/protocol.rs:195-208 | the same for a retained receive, where a read that is too long is a failure too |
| Policies.ReceiveBatch | src/tls/receive/policy.rs:142-190 | try_reserve and then process: stock, queue and pipe move by exactly one attempt, whose read keeps its slot exactly if the batch holds it; the batch is the plaintext of the call |
| Policies.ReceiveLease | src/tls/receive/policy.rs:142-190 | the same with a retained read |
| Policies.ReceiveNothing | src/tls/receive/policy.rs:106-114 | the same for an admitted transaction completed without a read, or dropped |
| Schedules.AttemptIsStep | src/tls/receive/policy.rs:140-190 | an admitted receive is the pipe's own receive step; a blocked one, an unread one and a dropped one leave the pipe as it was |
| Schedules.AdmittedTells | src/tls/receive/policy.rs:92-114 | an admitted receive gives its slot back unless a chunk keeps it; each slot that comes back is told of to the front of its lane, and a dropped transaction tells nobody |
| Schedules.EveryRunConserves | src/tls/receive/policy.rs:92-213 | over every run of openings, receives, send calls, departures, reconfigurations and cancellations: each receive slot is free or in a chunk, each send slot free, a connection's or the kept opening's; receive slots ever taken are receive wakes made plus those in chunks plus those of dropped transactions, and send slots ever held likewise egress wakes plus those held plus those of dropped transactions and forgotten openings; the queue stays in order, every connection tidy, and a slot of the table nobody has holds nothing |
| Schedules.EveryRunKeepsSessions | src/tls/endpoint/mod.rs:202-287 | over the same runs, sessions out are the connections and the kept opening |
| Schedules.RefusedKeepsNothing | src/tls/receive/policy.rs:156-179 | a blocked or failed reservation keeps no slot and changes nothing of its connection but the failure; it blocks only on a lane that is not free, and moves a waiter only if a receive slot had been taken and went back |
| Schedules.NoLostWakeups | src/tls/endpoint/mod.rs:208-234 | over every run: while anyone waits someone is reported ready, or a chunk is still being read or a connection holds a send slot, whose return wakes someone, or the kept opening holds one; someone is reported exactly if someone waits in a free lane, and it is who has waited longest there |
| Schedules.EverySettlementHasItsCause | src/tls/receive/waiters.rs:74-134 | over every run of an endpoint: a waiter is cancelled only by a cancel that names it or the drop of its own registration, taken only when reported ready, and told to retry only by an action that can give a slot back |
| Schedules.LeavingGivesUp | src/tls/mod.rs:251-258 | a connection that goes gives back its session and its slot, which is told of |
| Schedules.ReconfiguringForgets | src/tls/endpoint/mod.rs:202-205 | a reconfigured server keeps no opening, and what it held comes back |
| Schedules.CancellingTakesOut | src/tls/receive/policy.rs:191-199 | a cancel takes out the waiter it names and changes nothing else |
| Schedules.StalledExactly | src/tls/endpoint/mod.rs:209-220 | a waiter whose receive would be admitted goes unreported exactly if it waits for a send slot it no longer needs, no send slot is free, a receive slot is free and nobody waits for that |
| Schedules.StallHappens | src/tls/endpoint/mod.rs:209-220 | a run of closes, refused receives and a completion in which that happens |
| Schedules.StallEnds | src/tls/receive/policy.rs:207-213 | once a send slot comes back, whoever is still in the egress lane is reported, if nobody waits for a receive slot |
| Schedules.StrandedExactly | src/tls/endpoint/mod.rs:182-220 | in any state such runs lead to, with every chunk read and no connection holding a send slot: someone waits and nobody is reported exactly if all who wait need a send slot and the kept opening holds the only one |
| Schedules.StrandingHappens | src/tls/endpoint/mod.rs:236-287 | a run from a freshly bound client endpoint in which that happens: an opening is kept, and a connection in its handshake is refused and parks |
| Schedules.CommittingEnds | src/tls/endpoint/mod.rs:242-286 | committing to the kept opening hands it over as it was and leaves everyone who waits in place |
| Idling.QuietingIdles | src/tls/senders.rs:185-206 | in any such state, reading out the kept chunks and completing the held sends brings back every slot of both pools but the one the kept opening may hold, and only lets waiters go |
| Serving.PumpServesAll | src/tls/endpoint/mod.rs:228-234 | from rest, one service for each waiter, however its receive ends, serves everyone once exactly if a send slot is free or nobody waits for one or needs one |
| Serving.EveryWaiterIsServed | src/tls/endpoint/mod.rs:228-234 | from every state an endpoint can get to: once chunks are read and sends complete, serving those told to retry on the way and then those reported ready, with whatever reads and handshake output, serves everyone who waited, once, exactly if a send slot is free or nobody waits for one or needs one; and a slot is free unless the kept opening holds the only one |
| Openings.NewConnection | src/tls/mod.rs:87-110 | first output goes to the cursor, which is given back if it stays empty; output without a cursor is refused |
| Openings.Endpoint.Begin | src/tls/endpoint/mod.rs:244-274 | a new opening takes one session and at most one slot, a refused or failed one neither; it fails exactly if there are both and no engine can be made |
| Openings.Endpoint.Open | src/tls/endpoint/mod.rs:236-287 | a kept opening is offered as it is before a new one is made; committing hands it over and retrying keeps it; a new one fails exactly if no engine can be made though session and slot are there |
| Openings.Endpoint.Reconfigure | src/tls/endpoint/mod.rs:202-205 | drops the kept opening and returns what it held |
| Openings.EveryRunAccounts | src/tls/endpoint/mod.rs:202-287 | over every run, sessions out are the live connections and the kept one, and send slots likewise |
| Openings.OfferedExactly | src/tls/endpoint/mod.rs:242-286 | when an open is unavailable, when it fails, and when it is committed or kept |
| Openings.StartKeepsOutput | src/tls/mod.rs:87-110 | all first output is kept, in order, as much of it in the cursor as fits, and an empty cursor is not kept |
| Openings.RefusedOpenTakesNothing | src/tls/endpoint/mod.rs:246-272 | unavailable and failed openings leave sessions and slots as they were |
| Openings.KeptUntilCommitted | src/tls/endpoint/mod.rs:242-286 | a kept opening, first output included, stays unchanged until someone commits to it and is then what they get |
| Openings.OpeningIsSound | src/tls/mod.rs:87-110 | an opened connection starts in a state the run theorems apply to; a role with output and no slot does not open |

## Left out

- Cryptography, certificates, roots, configuration and time: decryption and sealing are parameters with the size bounds of section 5.2 of RFC 8446.
- rustls, the pools, the lane queue and the driver are not part of this model beyond the behaviour their callers rely on: a read takes any nonempty prefix, a write takes any prefix or fails, a gather write offers any nonempty number of chunks, a new lane entry goes to the back.
- One engine read may take part of a record, but processing always opens every complete record it holds.
- The spilled chunk's own cursor type is taken to behave like the head over the input's prefix.
- Sizing arithmetic in `layout.rs`: pool sizes are arbitrary; the transfer limit of a retained read is a parameter.
- A growing receive pool: whether it can allocate the slot it has left to give is a parameter.
- Range and split views of a retained read (`try_get`, `try_split`), the raw consume and retain delegations, and resident-budget charging.
- Senders.DoPrepare: stands for prepare and prepare_many at once; the two differ only in the sealing call, which is modelled twice.
- The I/O error arm of the drain loop: the writer it drains into never returns one.
- Schedules.EveryRunConserves: a receive transaction is one step, because it borrows the runtime exclusively; the driver is taken to wake the egress lane when a completion or a departure reports a released slot, and to commit to an opening only if a slot of its table is free; which credits it registers, and when it retries, is left open.
- Serving.EveryWaiterIsServed: the driver retries with the send state at hand and lets the endpoint come to rest between services; a receive slot that cannot be allocated is not modelled there.
- Policies.Transaction.Drop: dropping a transaction after its read, which only unwinding does, is not modelled.
- Waiters.EveryRunIsOrderly: retrying and cancelling a credit are entries in a ledger; what the driver does with them is not modelled.
- Sockets, executors, lifetimes, thread binding, size assertions and zeroing on drop.

# Inference Ledger: a verified model

Inference Ledger is an append-only accounting ledger. Workers send events to a
coordinator, which fences them by epoch, worker boot and request authority and
appends the survivors; the ledger is stored through a checksummed binary codec,
sent over framed sockets, and folded into per-request and per-batch accounts.
This project models those parts in Dafny and proves what they guarantee over
every input, every interleaving and every run.

`dafny verify dfyconfig.toml` checks the whole project.

| file | content |
|---|---|
| `Base.dfy`, `Entry.dfy`, `DoubleLaws.dfy`, `Identity.dfy` | fixed-width integers, ascending iteration, the ledger record, IEEE 754 bit patterns and equality of entries, identities as text |
| `Crc.dfy`, `CrcLaws.dfy`, `CrcCheck.dfy`, `Wire.dfy`, `Codec.dfy`, `CodecLaws.dfy`, `CodecDriver.dfy`, `LayoutLaws.dfy` | CRC-32, its burst-error law, its remainder law over GF(2) and its check value; big-endian reader and writer objects; the entry codec as functions and as it runs; where every field lies |
| `Ledger.dfy`, `Store.dfy`, `StoreLaws.dfy`, `ReplayLaws.dfy` | authority fencing, the ledger object, the file format and its laws, replay |
| `Coordinator.dfy`, `CoordinatorLaws.dfy`, `ServiceLaws.dfy`, `RollLaws.dfy`, `FenceLaws.dfy`, `CoordinatorObject.dfy` | the coordinator as a state machine; what every run keeps of the ledger and of its connections; who is told of a loss; exactly what the fence admits; the object whose methods take the steps |
| `Protocol.dfy` | messages over a byte stream that arrives in arbitrary pieces |
| `Account.dfy`, `AccountLaws.dfy`, `OutcomeLaws.dfy`, `TotalsLaws.dfy`, `PeakLaws.dfy`, `OrderLaws.dfy` | reconciling a request, and what its figures mean |
| `Batch.dfy`, `BatchLaws.dfy`, `WeightLaws.dfy`, `Query.dfy`, `QueryLaws.dfy` | shared-cost allocation under rounding, queries, grouping and batch accounts |

## How the model is built

Code that updates state step by step is a method or an object, proved equal to a
function; the laws are then lemmas about that function. The coordinator's
critical sections, queue operations and sends are single steps; reader threads,
outside callers and the one accounting thread interleave between them in any
order, and worker loss is split into its separate critical sections. A run is
any sequence of enabled steps from the initial state.

Assumptions, each visible in a contract:

- Lengths in a frame do not wrap: payloads and metadata strings are shorter than
  2^32 bytes (`FitsFrame`, `Sendable`).
- Laws that order epochs ask for fewer than 2^64 - 1 rolls (`NoWrap`); the rest
  hold with wrapping counters.
- A quantity is its 64-bit pattern in the codec, and the real number it denotes
  in accounts. Accounts add exact nanoseconds and exact reals.
- Shared allocation is proved for every rounding `fl` with
  |fl(x) - x| <= 2^-53 |x|, that is, without overflow or underflow. Every
  operation and every literal is rounded.
- Sends succeed. A step that sends appends to the connection's sent messages.

## Where documentation and code differ

The model follows the code.

- `handle_event` adopts a RequestStart's authority before `append` validates it
  (src/coordinator.cpp:195-201), so a refused start still changes its request's
  records, exactly when `RefusedEventKeepsAuthority` says; generations can go
  down: `RefusedStartLowersGeneration`.
- `validate_authority` accepts events of requests without a record:
  `UnrecordedAcceptedExactlyWhen`, `UnrecordedEntryIsStored`. It never looks at
  `dispatch`, which ARCHITECTURE.md:32-35 lists as a fence: `DispatchIsIgnored`.
- Validation compares the envelope's attempt, reconciliation groups by the
  entry's own attempt (src/request_account.cpp:103); nothing makes them agree:
  `UnrecordedEntryIsStored`, `AttemptGroupsAgree`.
- The decoder accepts fractional Counts, the encoder and the ledger do not:
  `DecodedIsFixedPoint`, `FractionalCountDecodes`, `FractionalCountStopsReplay`.
- "Attempt totals reconcile" (README.md:59) holds under a side condition only:
  `AttemptTotalsReconcile`, `LoneLoserIsMiscounted`.
- `group_by_request` is documented as first-seen order
  (include/inference-ledger/query.hpp:48) and returns ascending order:
  `GroupKeysAreDistinctRequests`, `GroupsAreNotFirstSeen`.
- `reconcile_batch` takes in entries that name no batch, a query for the batch
  does not: `BatchIsQueryWhenLabelled`.
- Shares plus overhead are documented as always equal to the total
  (include/inference-ledger/batch.hpp:4-9); an empty batch and direct ownership
  with an absent or repeated owner are exceptions: `ProportionalReconciles`,
  `DirectReconciles`.
- A disconnect rolls the epoch only if the connection was already registered
  (src/coordinator.cpp:111): `LossesAreDisconnects`, `EarlyDisconnectNeverRolls`,
  `EarlyDisconnectGoesUnnoticed`.

## Model

| member | source | states |
|---|---|---|
| `CoordinatorLaws.EpochCountsRolls` | src/coordinator.cpp:43-47 | In every possible interleaving, epoch and accounting generation are equal and are one plus the number of rolls, modulo 2^64. |
| `CoordinatorLaws.StoredEpochsFenced` | src/coordinator.cpp:191-223 | In every run without counter wrap, epochs of stored entries never decrease in storage order and never exceed the current epoch. |
| `CoordinatorLaws.NoStaleEpochAfterwards` | src/coordinator.cpp:191-223 | Nothing stored after the moment a given epoch is reached carries an earlier epoch. |
| `CoordinatorLaws.EpochOnlyGrows` | src/coordinator.cpp:43-47 | The epoch at any earlier point of a run is at most the present one. |
| `CoordinatorLaws.LedgerOnlyGrows` | src/coordinator.cpp:191-206 | The ledger at any earlier point of a run is a prefix of the present one. |
| `CoordinatorLaws.AcceptedIsCurrent` | include/inference-ledger/authority_state.hpp:63-101 | An accepted entry matches the fence on epoch, accounting generation and boot, on every request-scoped record that exists, and is not a non-start event of a rolled request. |
| `CoordinatorLaws.BootsAgree` | src/coordinator.cpp:170-178 | The boot map holds, for every worker, exactly the boot of the last registration handled in the run. |
| `CoordinatorLaws.GrantsAgree` | src/coordinator.cpp:49-55 | The four per-request maps hold, for every request, exactly the envelope of the last handled RequestStart or outside authority call; requests in flight have one. |
| `CoordinatorLaws.MapsShareOneDomain` | src/coordinator.cpp:195-205 | In every run the four per-request maps have one key set, and it contains every request in flight. |
| `CoordinatorLaws.StoredEntryIsCurrent` | src/coordinator.cpp:191-206 | At the step that stores an entry, the entry carries the epoch in force, the boot last registered for its worker and, where its request was ever granted authority, the generations and attempt of the latest grant. |
| `CoordinatorLaws.EveryEntryWasStored` | src/coordinator.cpp:201-201 | Every stored entry, by position, has a handling step that stored it under those conditions. |
| `CoordinatorLaws.LostRequestIsSealed` | src/coordinator.cpp:215-223 | From the worker-lost step that finds a request in flight until its next grant, whatever else interleaves, the request stays rolled and none of its entries is stored. |
| `CoordinatorLaws.GrantLiftsSeal` | src/coordinator.cpp:195-200 | The next grant ends the seal and installs its own envelope, whether or not the event that carries it is accepted. |
| `CoordinatorLaws.InFlightIsOpen` | src/coordinator.cpp:202-205 | A request is in flight exactly when its last stored start-or-end entry is a start. |
| `CoordinatorLaws.StepRolled` | include/inference-ledger/authority_state.hpp:77-82 | One step of any kind other than a grant keeps a rolled request rolled and stores no entry of it. |
| `CoordinatorLaws.RejectedEventLeavesNoTrace` | src/coordinator.cpp:191-206 | A non-accepted event leaves ledger, in-flight set, queue, connections, epoch, accounting generation and boots alone; it touches per-request records only if it is a RequestStart, and leaves all four records of every other request, roll marks included, as they were. |
| `CoordinatorLaws.RefusedEventKeepsAuthority` | src/coordinator.cpp:195-201 | A refused event leaves the authority unchanged if and only if it is not a RequestStart, or its request already stands exactly as the envelope says and is not rolled. |
| `CoordinatorLaws.StaleIsRefused` | include/inference-ledger/authority_state.hpp:65-73 | An event of another epoch, or of a boot other than the one in force for its worker, is never accepted. |
| `ServiceLaws.QueueIsFifo` | src/coordinator.cpp:78-84 | What the accounting thread has taken followed by what is waiting is, in order, everything ever enqueued. |
| `ServiceLaws.HandledInOrder` | src/coordinator.cpp:150-168 | Registrations, events and losses are carried out in exactly the order in which they are taken. |
| `ServiceLaws.ServedInOrder` | src/coordinator.cpp:78-168 | Carried out, in hand and waiting make up, in order, exactly what was enqueued, in every run. |
| `ServiceLaws.AcksAnswerEvents` | src/coordinator.cpp:191-213 | The EventAcks sent on a connection, followed by the one being sent, are in order the append results of the events handled for it. |
| `ServiceLaws.ConnectionIsServedInOrder` | src/coordinator.cpp:105-168 | Handled, in hand and waiting make up, in order, exactly the events the connection submitted, and its acknowledgements are a prefix of the answers. |
| `ServiceLaws.RegistrationsAreAnswered` | src/coordinator.cpp:170-189 | The RegisterAcks sent on a connection, followed by the one being sent, are in order one per registration handled for it, each with the epoch and generation in force at that moment. |
| `ServiceLaws.EachLossRollsOnce` | src/coordinator.cpp:215-223 | The accounting thread has rolled the epoch exactly once for every loss carried out, save one it has marked and not yet rolled for. |
| `ServiceLaws.ExitDrainsQueue` | src/coordinator.cpp:150-168 | When the accounting thread exits, everything enqueued before has been carried out in order: every event answered and acknowledged, every registration adopted and acknowledged, and one roll made per loss. |
| `ServiceLaws.LossesAreDisconnects` | src/coordinator.cpp:109-119 | The losses ever enqueued are, in order, exactly the disconnects read on connections registered by then. |
| `ServiceLaws.LostOnce` | src/coordinator.cpp:109-119 | No connection is lost twice, and none is lost while it is still read. |
| `ServiceLaws.EarlyDisconnectNeverRolls` | src/coordinator.cpp:111-117 | A connection that disconnects before its registration is handled is never counted as lost, however the run goes on. |
| `ServiceLaws.AnnouncementsAscend` | src/coordinator.cpp:234-248 | The epochs that RegisterAcks and Rolls tell a connection never decrease in send order and never exceed the current epoch, without counter wrap. |
| `RollLaws.SurvivorsAreSpared` | src/coordinator.cpp:228-232 | The targets of a roll are exactly the connections registered to other workers, each once, in connection order. |
| `RollLaws.RollsReachTheSpared` | src/coordinator.cpp:224-248 | When the thread is idle again after a loss, each connection registered to another worker when the targets were gathered has been sent exactly one Roll, with the epoch and accounting generation read for it, and every other connection none, whatever interleaved. |
| `ServiceLaws.NeverStuck` | src/coordinator.cpp:150-168 | In every reachable state the accounting thread can take its next step unless it waits on an empty queue or has exited; every connection it refers to exists. |
| `FenceLaws.SealsAgree` | include/inference-ledger/authority_state.hpp:77-82 | A request is marked rolled exactly when, since its last grant, a worker was lost while it was in flight. |
| `FenceLaws.AcceptedExactlyWhen` | include/inference-ledger/authority_state.hpp:63-101 | After any run an event is stored if and only if its content is valid, its identity new, its epoch, accounting generation and boot the ones in force by the history of the run, and it is a RequestStart, or its request is unsealed and was never granted or last granted with the same generations and attempt. |
| `FenceLaws.StatusExactlyWhen` | include/inference-ledger/ledger.hpp:70-90 | After any run each of the five answers is given exactly when: Invalid for bad content; else Stale when the fence, told by history, does not admit; else Accepted when the identity is new, Duplicate when it is stored with an equal entry, DuplicateConflict when with a different one. |
| `FenceLaws.UnrecordedAcceptedExactlyWhen` | include/inference-ledger/authority_state.hpp:84-98 | An event of a request that was never granted is stored if and only if content, identity, epoch, accounting generation and boot allow: nothing about its request is compared. |
| `FenceLaws.UnrecordedEntryIsStored` | include/inference-ledger/authority_state.hpp:84-98 | A possible run stores an entry of a request never started or granted, whose own attempt differs from the attempt it was fenced by. |
| `FenceLaws.DispatchIsIgnored` | include/inference-ledger/authority_state.hpp:63-101 | Changing the dispatch of an entry or of its envelope changes neither the verdict nor acceptance. |
| `FenceLaws.RefusedStartLowersGeneration` | src/coordinator.cpp:195-201 | A possible run in which a refused RequestStart lowers the generation on record for its request. |
| `FenceLaws.EarlyDisconnectGoesUnnoticed` | src/coordinator.cpp:109-119 | A possible run in which a connection closes while its registration is queued: the worker ends up registered with its boot in force and nobody reading, and no continuation ever counts it as lost. |
| `CoordinatorObject.CoordinatorProcess.constructor` | src/coordinator.cpp:8-12 | A new coordinator stands at the start of the empty run. |
| `CoordinatorObject.CoordinatorProcess.LedgerIsFenced` | src/coordinator.cpp:191-223 | At any moment between calls, stored epochs ascend and do not exceed the current one, without counter wrap. |
| `CoordinatorObject.CoordinatorProcess.InFlightIsExact` | src/coordinator.cpp:202-205 | At any moment a request is in flight exactly when its last stored start or end is a start, and then has a record in all four maps. |
| `CoordinatorObject.CoordinatorProcess.EventsAreAnswered` | src/coordinator.cpp:105-168 | At any moment the answers given to a connection, the event in hand and those waiting are exactly its submissions in order, and its acknowledgements are the answers but at most one. |
| `CoordinatorObject.CoordinatorProcess.AdvanceEpoch` | src/coordinator.cpp:43-47 | From now on every event of the epoch that was in force is refused; the object stands where the longer run leads. |
| `CoordinatorObject.CoordinatorProcess.SetRequestAuthority` | src/coordinator.cpp:49-55 | From now on only a new start, or an event that agrees with this envelope, is accepted for the request. |
| `CoordinatorObject.CoordinatorProcess.Stop` | src/coordinator.cpp:25-41 | Nothing enqueued is lost: the accounting thread may leave exactly when it is idle and has carried out all of it. |
| `CoordinatorObject.CoordinatorProcess.Accept` | src/coordinator.cpp:94-101 | The new connection is read, and nothing enqueued so far refers to it. |
| `CoordinatorObject.CoordinatorProcess.OnRegister` | src/coordinator.cpp:121-128 | The registration joins the end of the work to be carried out, and no worker's boot changes before it is handled. |
| `CoordinatorObject.CoordinatorProcess.OnEvent` | src/coordinator.cpp:129-136 | Answered, in hand and waiting events of the connection are its earlier submissions followed by this one; the ledger is untouched. |
| `CoordinatorObject.CoordinatorProcess.OnPing` | src/coordinator.cpp:137-143 | The ping is answered at once and no connection's acknowledgements change. |
| `CoordinatorObject.CoordinatorProcess.OnDisconnect` | src/coordinator.cpp:109-119 | A loss is queued only for a connection already registered, and its reader ends. |
| `CoordinatorObject.CoordinatorProcess.TakeOrExit` | src/coordinator.cpp:150-159 | Takes the front item, or exits when stopped and drained, everything enqueued having been carried out. |
| `CoordinatorObject.CoordinatorProcess.AdoptBoot` | src/coordinator.cpp:173-178 | From now on events of the worker under any other boot are refused. |
| `CoordinatorObject.CoordinatorProcess.MarkRegistered` | src/coordinator.cpp:179-180 | From now on a disconnect of the connection enqueues the loss of this worker. |
| `CoordinatorObject.CoordinatorProcess.AcknowledgeRegister` | src/coordinator.cpp:181-188 | On every connection the RegisterAcks sent are now exactly the standings at its handled registrations. |
| `CoordinatorObject.CoordinatorProcess.HandleEvent` | src/coordinator.cpp:191-206 | The event is stored, at the end, if and only if the history of the run admits it; the index stays exact. |
| `CoordinatorObject.CoordinatorProcess.AcknowledgeEvent` | src/coordinator.cpp:207-212 | On every connection the EventAcks sent are now exactly the append results of its handled events. |
| `CoordinatorObject.CoordinatorProcess.MarkRolled` | src/coordinator.cpp:219-222 | First critical section of worker loss: from now on no event of a request in flight is accepted except a start. |
| `CoordinatorObject.CoordinatorProcess.RollEpoch` | src/coordinator.cpp:223-223 | Second critical section: every event of the old epoch is refused from now on, and rolls made match losses carried out. |
| `CoordinatorObject.CoordinatorProcess.GatherTargets` | src/coordinator.cpp:224-233 | A connection is a target if and only if it is registered to a worker other than the lost one; targets ascend. |
| `CoordinatorObject.CoordinatorProcess.ReadEpoch` | src/coordinator.cpp:234-240 | Third critical section: the epoch read is not behind any stored entry or any earlier announcement, without counter wrap. |
| `CoordinatorObject.CoordinatorProcess.AnnounceRoll` | src/coordinator.cpp:241-248 | After each Roll the epochs told to every connection still ascend within the current epoch, and one target fewer is left. |
| `CoordinatorObject.MarkAll` | src/coordinator.cpp:221-221 | The marking loop sets the flag of every request of the set, adds missing ones, and leaves all others as they were. |
| `Ledger.LedgerLog.Append` | include/inference-ledger/ledger.hpp:70-90 | The status and the new contents are those of a linear-scan reference, and the index stays exactly the position map of the entries. |
| `Ledger.LedgerLog.Find` | include/inference-ledger/ledger.hpp:104-109 | Lookup through the index finds an entry exactly when a scan would, and the same one. |
| `Ledger.LedgerLog.Snapshot` | include/inference-ledger/ledger.hpp:94-97 | A snapshot is the stored entries: unique identities, all of valid content. |
| `Ledger.LedgerLog.IndexAgrees` | include/inference-ledger/ledger.hpp:79-88 | An exact index answers every identity as scanning from the front does, and implies unique identities. |
| `Ledger.RunsOnlyExtend` | include/inference-ledger/ledger.hpp:70-97 | For every run of appends under a fence that may change each time: identities stay unique, contents valid, and the earlier ledger is a prefix of the later. |
| `Ledger.SecondTimeRefused` | include/inference-ledger/ledger.hpp:79-86 | Once an unfenced append of an entry has been processed, it is never accepted again by any extension of that ledger. |
| `Ledger.ReplayIsNoOp` | include/inference-ledger/ledger.hpp:70-90 | With no fence, appending any selection or reordering of an already-processed stream changes nothing. |
| `Ledger.FreshStreamStored` | include/inference-ledger/ledger.hpp:70-90 | A stream of valid entries with new, distinct identities is stored whole and in order. |
| `Crc.ComputeCrc32` | src/codec.cpp:10-20 | The nested loops compute the register function over 32-bit states whose remainder and check value are given below. |
| `Crc.BitStepInjective` | src/codec.cpp:15-16 | The bit step is one-to-one on 32-bit states. |
| `Crc.RegisterIsFeed` | src/codec.cpp:12-18 | Xor-ing a byte and stepping eight times is the same as feeding its eight bits one at a time. |
| `Crc.FeedIsXor` | src/codec.cpp:13-17 | Feeding up to 32 bits equals xor-ing them in at once and stepping. |
| `Crc.BurstChangesCrc` | src/codec.cpp:10-20 | Two different messages of equal length, any length, that differ only within 32 consecutive bits have different checksums. |
| `Crc.FourBytesAreABurst` | src/codec.cpp:10-20 | Damage confined to four consecutive bytes, at any place, is such a burst. |
| `CrcLaws.RegisterIsRemainder` | src/codec.cpp:10-20 | For every message the register, started from all ones, is the one polynomial of degree under 32 over GF(2) that is congruent to the message times x^32 plus the all-ones start times x^(8 times its length), modulo the generator with exponents 32, 26, 23, 22, 16, 12, 11, 10, 8, 7, 5, 4, 2, 1, 0 of section 3.2.9 of IEEE 802.3. |
| `CrcLaws.RemainderIsUnique` | src/codec.cpp:10-20 | Polynomials of degree under 32 that are congruent modulo the generator are equal. |
| `CrcLaws.BitStepMultiplies` | src/codec.cpp:15-16 | One turn of the inner loop multiplies by x and takes off the generator when the top term falls out. |
| `CrcCheck.TurnIsBitStep` | src/codec.cpp:15-16 | The turn on a 32-bit machine word with the constant 0xEDB88320 is the bit step of the word model. |
| `CrcCheck.ChecksumOfDigits` | src/codec.cpp:10-20 | The checksum of the nine characters 123456789 is 0xCBF43926. |
| `Wire.GetPutId` | include/inference-ledger/identity.hpp:40-80 | Sixteen big-endian bytes read back as the identity, whatever follows. |
| `Wire.GetPutString` | include/inference-ledger/codec.hpp:54-60 | A length-prefixed string reads back, whatever follows. |
| `Wire.GetPutU64` | include/inference-ledger/codec.hpp:40-43 | Eight big-endian bytes read back as the number, whatever follows. |
| `Wire.ByteWriter.Ident` | include/inference-ledger/codec.hpp:49-53 | Appends the sixteen bytes and nothing else. |
| `Wire.ByteWriter.Str` | include/inference-ledger/codec.hpp:54-60 | Appends length and bytes, or nothing for a string too long for the length. |
| `Wire.ByteReader.U32` | include/inference-ledger/codec.hpp:83-90 | Reads what the pure reader reads and leaves the cursor where it does; a failure is remembered. |
| `Wire.ByteReader.Str` | include/inference-ledger/codec.hpp:116-123 | Same, for strings, including the truncated case. |
| `CodecDriver.Encode` | src/codec.cpp:65-135 | The field-by-field writer with its metadata loop produces the specified frame, or refuses, for every entry. |
| `CodecDriver.Decode` | src/codec.cpp:137-231 | The cursor-driven reader returns the specified entry and length, or refuses, for all byte strings. |
| `CodecDriver.WriteMetadata` | src/codec.cpp:112-118 | The metadata loop prints count and pairs in key order. |
| `CodecDriver.ReadPairs` | src/codec.cpp:215-221 | The metadata loop takes in exactly the given number of pairs, the first value of a repeated key staying. |
| `Codec.EntryRoundTrip` | src/codec.cpp:65-135 | Decoding an encoded entry followed by any bytes returns the entry, equal under operator==, and consumes exactly the frame. |
| `Codec.CanonicalEncodesTheSame` | src/codec.cpp:65-135 | Fields switched off by their presence flag leave no trace in the frame. |
| `Codec.PayloadBurstRejected` | src/codec.cpp:149-153 | Any change to a payload within 32 consecutive bits makes the decoder reject the frame, whatever follows. |
| `Codec.ChecksumDamageRejected` | src/codec.cpp:145-153 | Any change to the stored checksum alone makes the decoder reject the frame. |
| `Entry.SameEntryCanonical` | include/inference-ledger/ledger_entry.hpp:71-97 | Blanking switched-off fields keeps an entry equal under operator==. |
| `Entry.IdTotalOrder` | include/inference-ledger/identity.hpp:122-135 | Comparing high half first, then low half, is a strict total order. |
| `LayoutLaws.IdOrderIsNumeric` | include/inference-ledger/identity.hpp:122-135 | Identities sort as the 128-bit numbers they are. |
| `LayoutLaws.LexMeans` | src/codec.cpp:112-118 | Metadata keys sort by their first difference, a proper prefix first. |
| `LayoutLaws.PayloadLayout` | src/codec.cpp:65-118 | Where every field of an entry lies in its payload: the marker and version, each identity, code, number and flag at its offset, optional identities only behind a flag of one, metadata last. |
| `LayoutLaws.EventCodes` | src/codec.cpp:44-47 | Event kinds are numbered from 1 to 37 in declaration order and no other code is accepted. |
| `LayoutLaws.OtherCodes` | src/codec.cpp:48-57 | Resource kinds are numbered from 1, units and provenances from 0, in declaration order, and no other code is accepted. |
| `CodecLaws.FirstValueStays` | src/codec.cpp:217-221 | Of a metadata key that occurs twice in a frame the first value stays. |
| `DoubleLaws.ValueOfPattern` | src/codec.cpp:183-185 | Flipping the sign bit negates a value, one more in the exponent doubles it, and the fraction counts in units of 2^-52. |
| `DoubleLaws.ValueOfOne` | src/codec.cpp:183-185 | The pattern 0x3FF0000000000000 stands for one. |
| `DoubleLaws.FinitePatterns` | src/codec.cpp:67-67 | Exactly the patterns whose exponent bits are not all set are finite. |
| `DoubleLaws.SameDoubleIsSamePattern` | include/inference-ledger/ledger_entry.hpp:78-78 | Finite doubles are equal exactly when their patterns are, zero having one sign. |
| `DoubleLaws.SameEntryIsSameFrame` | include/inference-ledger/ledger_entry.hpp:71-97 | Entries that encode are equal under operator== exactly when they are stored as the same bytes, zero being written with one sign. |
| `DoubleLaws.DuplicateIsSameFrame` | include/inference-ledger/ledger.hpp:79-86 | Appending an entry whose identity is stored is a Duplicate exactly when both would be stored as the same bytes, and a DuplicateConflict otherwise; the ledger is not touched. |
| `DoubleLaws.ContentRule` | include/inference-ledger/ledger.hpp:114-129 | Content is valid exactly when the amount is finite, not negative unless filed as a cost or under the generic kind, and a whole number when it is a count. |
| `CodecLaws.DecodedFits` | src/codec.cpp:137-231 | Whatever decodes fits a frame no longer than the one it came in, repeated metadata keys being dropped. |
| `CodecLaws.DecodedIsFixedPoint` | src/codec.cpp:137-231 | A decoded entry encodes if and only if it is not a Count with a fractional value; what it encodes to decodes back to it unchanged, and is no longer than the frame it came from. |
| `CodecLaws.FractionalCountDecodes` | src/codec.cpp:224-226 | A well-formed frame with a fractional Count decodes, whatever follows it, although the encoder refuses the entry. |
| `CodecLaws.BlankIsEncodable` | src/codec.cpp:65-69 | The default entry meets every condition for encoding. |
| `CodecLaws.HalfCountIsFractional` | src/codec.cpp:224-226 | An entry with a half Count meets every condition of the decoder. |
| `Store.SaveSnapshot` | src/persistence.cpp:80-96 | Succeeds exactly when all entries encode; the file is the header and the frames up to the first failure. |
| `Store.AppendEntries` | src/persistence.cpp:98-133 | Keeps a file that starts with the magic number and adds frames; otherwise starts over with the first entry's ledger identity. |
| `Store.LoadFile` | src/persistence.cpp:135-201 | The frame loop returns the specified entries and fingerprint, or the specified reason for refusal, for all byte strings. |
| `Store.ComputeFingerprint` | src/persistence.cpp:39-54 | The loops compute the two-lane mix of the frames, or the marker for an entry that does not encode. |
| `Store.DecodeTakesAll` | src/persistence.cpp:165-182 | A decoded frame always consumed the announced length, so the length-mismatch branch of the loader cannot be taken. |
| `StoreLaws.SavedFileLoads` | src/persistence.cpp:135-201 | A saved file loads exactly when its identities are pairwise distinct, and returns the same list, ledger identity and fingerprint; otherwise it is refused as a duplicate. |
| `StoreLaws.LoadedEqualsSaved` | src/persistence.cpp:80-96 | Every loaded entry equals the saved one under operator==. |
| `StoreLaws.TruncatedFileLoads` | src/persistence.cpp:156-193 | Cut to k bytes, a file of distinct entries loads if and only if k is the end of the header or of a frame, and then gives exactly that prefix. |
| `StoreLaws.FramesEndingAtMeans` | src/persistence.cpp:160-193 | Byte k is the boundary after j frames exactly when the first j frames take k bytes. |
| `StoreLaws.SaveThenAppend` | src/persistence.cpp:80-133 | Saving a and appending b gives byte for byte the file of saving a followed by b, and succeeds exactly when that does. |
| `StoreLaws.DamagedFileRejected` | src/persistence.cpp:160-193 | A file in which one frame's payload is damaged within 32 consecutive bits is refused, whatever intact frames precede and whatever follows. |
| `StoreLaws.FingerprintIsOfBytes` | src/persistence.cpp:39-49 | The fingerprint takes in every byte of the frames, in order, and nothing else. |
| `StoreLaws.FeedTellsApart` | src/persistence.cpp:17-20 | Whatever was fed before, different next values lead to different digests. |
| `StoreLaws.FeedValues` | src/persistence.cpp:14-20 | The digests after feeding 1, and after feeding 1 and 255. |
| `LayoutLaws.HeaderLayout` | src/persistence.cpp:69-76 | A file begins with the eight letters of the format, version one and the ledger identity. |
| `ReplayLaws.RulesAgree` | include/inference-ledger/ledger.hpp:114-129 | The ledger's content rules and the encoder's accept the same entries. |
| `ReplayLaws.ReplayInto` | src/persistence.cpp:203-218 | An unreadable file fails and leaves the ledger alone; a readable one is replayed exactly as specified, result and ledger, the index staying exact. |
| `ReplayLaws.ReplayStopsAtFirstRefusal` | src/persistence.cpp:208-216 | A replay stores what precedes the first entry that is neither new nor already there, nothing from that entry on, and fails exactly if there is one. |
| `ReplayLaws.ReplaySucceedsWhenHarmless` | src/persistence.cpp:208-217 | A replay succeeds if and only if every entry, when its turn comes, is accepted or a duplicate. |
| `ReplayLaws.ReplayAgain` | src/persistence.cpp:203-218 | After a successful replay into any valid ledger, the same replay succeeds again with every entry a duplicate and the ledger unchanged. |
| `ReplayLaws.LedgerSurvivesReplay` | src/persistence.cpp:203-218 | A ledger built by any run of appends, saved, loaded and replayed into a fresh unfenced ledger is reproduced with an equal fingerprint, and the second replay succeeds and changes nothing. |
| `ReplayLaws.FractionalCountStopsReplay` | src/persistence.cpp:208-214 | A file with a fractional Count in a well-formed frame loads whole, but its replay fails there with exactly the earlier entries stored. |
| `Protocol.MessageRoundTrip` | src/protocol.cpp:25-124 | Every message within the limit decodes from its own content to itself, including the nested entry frame. |
| `Protocol.ConversationRoundTrip` | src/protocol.cpp:191-209 | The concatenated frames of any sequence of messages are received as exactly that sequence, and the stream is left right behind them. |
| `Protocol.WriteMessage` | src/protocol.cpp:25-78 | The buffer-driven encoder produces the specified frame, or refuses when the nested entry does. |
| `Protocol.ReadMessage` | src/protocol.cpp:80-124 | The cursor-driven decoder returns the specified message, or refuses, for all contents. |
| `Protocol.FramedSocket.ReadAll` | src/protocol.cpp:167-182 | However the bytes arrive in pieces, exactly the first n are returned and the rest stays; fails exactly when the stream is shorter. |
| `Protocol.FramedSocket.RecvMessage` | src/protocol.cpp:191-209 | Receives what the stream specification says, independent of how it is cut into pieces. |
| `Protocol.FramedSocket.Deliver` | src/protocol.cpp:184-209 | For every cutting of the sent bytes into positive-size pieces, repeated receiving yields exactly the sent messages and leaves nothing. |
| `LayoutLaws.MessageTypes` | src/protocol.cpp:25-78 | The content of each kind of message begins with its number, one to seven. |
| `LayoutLaws.UnknownTypeReadsAsPing` | src/protocol.cpp:22-22 | A type byte that is none of these, alone in its frame, reads as a Ping. |
| `LayoutLaws.FrameLimits` | src/protocol.cpp:202-203 | An empty frame and one over 16 MiB are refused, however intact. |
| `Account.ReconcileRequest` | src/request_account.cpp:71-332 | The entry loop, winner scan and waste scan compute the reference account. |
| `Account.FindWinner` | src/request_account.cpp:245-258 | The scan in ascending attempt order computes the specified winner. |
| `Account.SumWaste` | src/request_account.cpp:282-292 | The waste scan skips the winner's failed and cancelled work but includes its rejected speculation. |
| `Account.FindOnlyCancelled` | src/request_account.cpp:272-275 | Reports whether some attempt is cancelled and not failed. |
| `AccountLaws.UpdateIsContribution` | src/request_account.cpp:113-154 | The per-attempt effect of the switch, kind by kind, equals an independent field-by-field reading. |
| `AccountLaws.AttemptsAreSeparate` | src/request_account.cpp:99-104 | Each attempt's state is the fold of its own entries alone, and exists exactly when an entry mentions it. |
| `AccountLaws.AttemptsIgnoreOrder` | src/request_account.cpp:99-154 | Attempt state depends on the multiset of entries only. |
| `AccountLaws.ReorderingChangesNothing` | src/request_account.cpp:245-292 | No permutation of the entries changes the winner, the outcome, the work figures or the waste. |
| `AccountLaws.WinnerIsGreatest` | src/request_account.cpp:245-258 | An attempt wins if and only if it is clean and has the greatest (terminal time, identity) among clean ones; there is none exactly when no attempt is clean. |
| `OutcomeLaws.WinnerExactlyWhen` | src/request_account.cpp:245-258 | An attempt wins if and only if some RequestEnd and no Failure or Cancellation entry carries it, and every other such attempt has an earlier latest RequestEnd, or an equally late one and a smaller identity. |
| `OutcomeLaws.OutcomeExactlyWhen` | src/request_account.cpp:260-280 | A request completed exactly when such an attempt exists; otherwise it was cancelled exactly when some attempt has a Cancellation and no Failure entry, and failed exactly when none has. |
| `OutcomeLaws.ReportedWorkIsTheWinners` | src/request_account.cpp:260-269 | Prefill, decode, GPU, CPU, execution and tokens reported are the sums over the winning attempt's own entries of the kinds that count, and zero when none wins. |
| `OutcomeLaws.WasteIsMarkedWork` | src/request_account.cpp:282-290 | Failed work is the executing time of every attempt with a Failure entry, cancelled work that of every attempt with a Cancellation entry. |
| `OutcomeLaws.CountAndPeak` | src/request_account.cpp:313-313 | The account counts the attempts that occur, and its allocation peak is the greater of the two peaks. |
| `OutcomeLaws.DurationMeans` | include/inference-ledger/ledger_entry.hpp:101-105 | The duration takes the start to the end, and is zero without an end or with one before the start. |
| `OutcomeLaws.RoundMeans` | src/request_account.cpp:134-134 | Counts are rounded to the nearest integer, of two equally near to the one further from zero. |
| `OutcomeLaws.HeldBytesMeans` | src/request_account.cpp:177-182 | Byte-seconds are amount times duration, in seconds. |
| `AccountLaws.AttemptsWithout` | src/request_account.cpp:99-104 | Deleting the entries of one attempt removes exactly that attempt's state. |
| `AccountLaws.LosersDoNotCount` | src/request_account.cpp:260-280 | Deleting every entry of any non-winning attempt leaves winner, completion, execution, prefill, decode, GPU, CPU and token figures unchanged. |
| `AccountLaws.AttemptsPartitionTime` | src/request_account.cpp:125-154 | Summed over all attempts, execution and rejected-speculation time are those of the entries. |
| `AccountLaws.ExecutionIsConserved` | src/request_account.cpp:260-292 | Executed time plus losing work marked both equals winner plus failed plus cancelled plus losing work marked neither; wasted speculation is the rejected-speculation time of all attempts. |
| `AccountLaws.AttemptTotalsReconcile` | src/request_account.cpp:284-290 | Attempt totals reconcile to executed time if and only if the losing work marked both ways equals the losing work marked neither way; in particular when each loser is marked exactly one way. |
| `AccountLaws.LoneLoserIsMiscounted` | src/request_account.cpp:284-290 | A request whose only attempt did not win has its work dropped if unmarked and counted twice if marked failed and cancelled. |
| `AccountLaws.ExecutionIsActiveTime` | src/request_account.cpp:260-269 | Reported execution is GPU plus CPU active time. |
| `TotalsLaws.StepIsContribution` | src/request_account.cpp:104-242 | The request-wide effect of the switch, kind by kind, equals an independent reading of every total. |
| `TotalsLaws.TimesAreSums` | src/request_account.cpp:119-230 | Queue, batch-wait, recompute and transfer times are the summed durations of their kinds. |
| `TotalsLaws.AmountsAreSums` | src/request_account.cpp:163-206 | Transfer, reuse and avoided amounts are the summed amounts of their kinds. |
| `TotalsLaws.DerivedAreSums` | src/request_account.cpp:177-238 | Residency byte-seconds are summed amount times duration; energy is summed in joules after conversion. |
| `TotalsLaws.CountsAreSums` | src/request_account.cpp:144-221 | Speculation and retry counters are the rounded amounts of their kinds, wrapped once. |
| `TotalsLaws.ReservationsAreCounted` | src/request_account.cpp:213-218 | Reservations count events, whatever their amounts. |
| `TotalsLaws.HitsAreSums` | src/request_account.cpp:183-212 | Kernel, graph and cache counters are the rounded amounts of their kinds, wrapped once. |
| `TotalsLaws.WallLatencyIsLastToLast` | src/request_account.cpp:294-296 | Wall latency runs from the last recorded start to the last recorded end, zero if out of order or missing. |
| `PeakLaws.PeakIsGreatestRun` | src/request_account.cpp:155-173 | For non-negative amounts the peak kept with clamped releases is the greatest net of any contiguous run, the empty run netting zero, and lies between the level and the total acquired. |
| `PeakLaws.PeaksAreGreatestRuns` | src/request_account.cpp:155-173 | The account's kv and tensor peaks are such maxima over the request's entries, and at most the total allocated. |
| `PeakLaws.LiveIsGreatestSuffix` | src/request_account.cpp:155-173 | The clamped level is the greatest net of a run that ends now. |
| `PeakLaws.MovesMean` | src/request_account.cpp:155-173 | Allocations add their amount to the level, releases take it away, other entries do neither. |
| `PeakLaws.StoredPeaks` | include/inference-ledger/ledger.hpp:116-126 | Entries a ledger has stored meet the sign condition when those that move a level name a physical resource. |
| `PeakLaws.NegativeAmountHidesAPeak` | src/request_account.cpp:155-159 | Two allocations that the ledger accepts under a non-physical kind, one negative, whose reconciled peak misses the greatest run. |
| `OrderLaws.SumsIgnoreOrder` | src/request_account.cpp:99-243 | Times, amounts, byte-seconds, energy, counters, totals allocated and the start and end flags are the same for every order of the entries. |
| `OrderLaws.PeakDependsOnOrder` | src/request_account.cpp:155-162 | Three entries in two orders whose reported peaks differ by a factor of two. |
| `OrderLaws.LatencyDependsOnOrder` | src/request_account.cpp:105-118 | Three entries in two orders whose reported latencies differ. |
| `Batch.AllocateShared` | src/batch.cpp:17-72 | The loops compute the reference allocation, for every rounding. |
| `Batch.ShareOut` | src/batch.cpp:55-64 | The loop yields one share per member in order, and the running sum it keeps equals member_sum of what it produced. |
| `Batch.SumInOrder` | include/inference-ledger/batch.hpp:59-63 | Left-to-right accumulation with rounding at every addition. |
| `Batch.MemberWeightsForPolicy` | src/batch.cpp:74-103 | One weight per account, in order, by policy. |
| `BatchLaws.SumError` | include/inference-ledger/batch.hpp:59-63 | A rounded sum of n non-negative terms is within 2n units of roundoff of the exact sum, relative to it. |
| `BatchLaws.ProportionalReconciles` | src/batch.cpp:43-71 | For every rounding with relative error 2^-53, total at least 0, weights at least 0 and up to 2^20 members, every policy but direct ownership reconciles if and only if there is a member or nothing to share, the cleared remainder notwithstanding. |
| `BatchLaws.DirectReconciles` | src/batch.cpp:26-41 | Under the same rounding, direct ownership reconciles if and only if the total is zero or there are members and the owner occurs exactly once among them. |
| `BatchLaws.ExactSharesSumToTotal` | src/batch.cpp:43-71 | In exact arithmetic shares sum to the total with no overhead, for every total and weights of any sign. |
| `BatchLaws.ExactSharesAreProportional` | src/batch.cpp:55-62 | In exact arithmetic any two shares are in the ratio of their weights. |
| `WeightLaws.ExactSharesFollowWeights` | src/batch.cpp:43-61 | In exact arithmetic, when the policy is not equal share and there is one weight per member with a positive sum, each share times that sum is the total times the caller's weight; otherwise each share times the number of members is the total. |
| `WeightLaws.RoundedSharesFollowWeights` | src/batch.cpp:43-61 | Under any rounding with relative error 2^-53 each share is within 3e-10 of its proportional part, by the caller's weights where they decide and equally where not. |
| `WeightLaws.ResidualIsReported` | src/batch.cpp:66-70 | The overhead is what the shares leave over, to within one rounding, or nothing when that is a hair below zero; a negative overhead is never that small. |
| `WeightLaws.DirectSharesGoToOwner` | src/batch.cpp:29-41 | The whole total goes to every occurrence of the named owner, or of the first member when none is named, and nothing to the others. |
| `WeightLaws.WeightsComeFromEntries` | src/batch.cpp:74-103 | Each policy weighs a member by its entries: bytes allocated, tokens or executing seconds of the winning attempt, reservations made, otherwise one. |
| `BatchLaws.ExactDirectSum` | src/batch.cpp:29-41 | In exact arithmetic direct ownership hands out the total times the owner's occurrences. |
| `BatchLaws.AccountWeightsReconcile` | src/batch.cpp:74-103 | Splitting by weights read off the members' reconciled accounts reconciles, for every policy but direct ownership. |
| `Query.ReconcileBatch` | src/batch.cpp:105-134 | The map-filling loop and the member loop compute the reference batch account. |
| `QueryLaws.BatchTotalsAreMemberSums` | src/batch.cpp:105-134 | Members are exactly the requests of the batch, ascending; totals are the sums of reconciling each member from its own filtered entries; partial completion is exactly some incomplete member, or no member in a non-empty snapshot. |
| `QueryLaws.BatchIsQueryWhenLabelled` | src/batch.cpp:110-118 | A batch account and a query for the batch select the same entries if and only if every entry names a batch. |
| `QueryLaws.LabelledEntryHasOneBatch` | src/batch.cpp:112-116 | An entry that names a batch belongs to that one batch. |
| `QueryLaws.BatchNeverOvercharges` | src/batch.cpp:119-128 | The execution charged over all members is at most the time executed by the entries of the batch. |
| `Query.QueryLedger` | src/query.cpp:8-35 | The loop returns the filtered entries. |
| `Query.DistinctRequests` | src/query.cpp:37-45 | The loop with its seen-set returns the non-zero requests in order of first occurrence. |
| `Query.GroupByRequest` | src/query.cpp:47-59 | The map-filling loop and ascending walk return one group per non-zero request. |
| `QueryLaws.SelectInOrder` | src/query.cpp:8-35 | A query returns the entries at exactly the matching positions, in ledger order. |
| `QueryLaws.EverythingMatches` | src/query.cpp:8-35 | A query that sets no field returns the whole snapshot. |
| `QueryLaws.OwnerConditions` | src/query.cpp:12-16 | Setting request, tenant, model, revision or adapter adds exactly that field's condition to a query. |
| `QueryLaws.OriginConditions` | src/query.cpp:17-21 | Setting attempt, worker, device, event kind or resource kind adds exactly that field's condition. |
| `QueryLaws.TimeConditions` | src/query.cpp:22-23 | Setting a bound keeps exactly the entries that start at or after it, or at or before it. |
| `QueryLaws.LabelConditions` | src/query.cpp:24-31 | Setting a batch or an outcome keeps exactly the entries labelled with it. |
| `QueryLaws.OneMoreCondition` | src/query.cpp:8-35 | Adding a condition to a query filters its answer by that condition, in order. |
| `QueryLaws.LabelsAreAscii` | src/query.cpp:25-29 | The metadata keys are spelled batch and outcome in ASCII. |
| `QueryLaws.GroupsAreQueries` | src/query.cpp:47-59 | Each group equals the query for its request; groups are strictly ascending; a non-zero request has a group exactly when the query finds something. |
| `QueryLaws.GroupKeysAreDistinctRequests` | src/query.cpp:37-59 | Group keys and distinct requests are the same identities without repetition; they are in the same order if and only if first occurrences are already ascending. |
| `QueryLaws.FirstSeenInOrder` | src/query.cpp:37-45 | The distinct requests of a prefix of the snapshot are a prefix of the distinct requests of the whole. |
| `QueryLaws.GroupsAreNotFirstSeen` | src/query.cpp:56-57 | Two entries whose second request is smaller are grouped in the opposite of first-seen order. |
| `QueryLaws.GroupsPartition` | src/query.cpp:47-59 | Together the groups hold every entry with a non-zero request exactly as often as the snapshot. |
| `QueryLaws.AttemptGroupsAgree` | src/request_account.cpp:103-103 | Grouping entries by their own attempt is grouping them by the attempt they were fenced by if and only if the two agree on every entry. |
| `Identity.ParseToString` | include/inference-ledger/identity.hpp:84-114 | Every identity survives printing and parsing. |
| `Identity.ToStringParse` | include/inference-ledger/identity.hpp:84-114 | Parsing succeeds exactly on thirty-two hexadecimal digits of either case, and printing gives them back in lower case. |
| `Identity.ParseHex` | include/inference-ledger/identity.hpp:84-100 | The loop that places nibbles into two halves computes the positional value, or refuses. |
| `Identity.PrintHex` | include/inference-ledger/identity.hpp:103-114 | Two digits per big-endian byte spell the two halves. |
| `Identity.ToStringInjective` | include/inference-ledger/identity.hpp:103-114 | Different identities print differently. |

## Left out

- Sockets, Winsock set-up, `TcpServer`, `connect_tcp`, thread creation and file streams: byte sequences stand for files and streams.
- Failed or partial sends (`write_all`): a send always succeeds, so what a connection receives after a failed send is not described.
- `enqueue_event`: it queues an event without a connection, which the accounting loop then dereferences; only events of connections are modelled.
- Liveness of worker-loss detection and any fencing by dispatch: the code guarantees neither.
- Command-line tools, examples, benchmark, multiprocess driver, CUDA proof and build files.
- `apply_pricing`, `aggregate_accounts`, `PricingPolicyStore`, waste and reuse ratios: straight-line sums and products over the account.
- Name and enum printing, `to_string(Quantity)`, reason strings, error texts, and the unit and provenance tags of account figures.
- Account.ReconcileRequest: leaves out the tenant, workload, model and model revision copied from the first entry, the unit and provenance tag of each figure, the outcome text and the figures that are always zero, because each is a one-branch fact.
- The `pricing_policy` field of a query, which `query_ledger` never consults.
- Collision quality of the fingerprint over whole files, `derive_entry_id`, and the final cut of the two mixer lanes into sixteen bytes.
- Bit-exact double summation in `reconcile_request`, non-finite amounts in accounts (taken as zero) and `llround` outside the 64-bit range.
- `ByteWriter::u16`, `ByteReader::u16` and `ByteReader::reset`, which the codec does not use.
- BatchLaws.ProportionalReconciles: stated for totals of at least 0 and at most 2^20 members; for a negative total the tolerance is absolute, so no relative rounding bound can meet it for all sizes, and with unbounded membership the accumulated relative error exceeds the tolerance. Exact arithmetic has neither restriction.
- BatchLaws.DirectReconciles: stated for the same range of totals and members.
- WeightLaws.RoundedSharesFollowWeights: stated for the same range of totals, weights and members.
- ServiceLaws.AnnouncementsAscend: asks that the 64-bit epoch has not wrapped, for the same reason as the next line.
- CoordinatorLaws.StoredEpochsFenced: asks that the 64-bit epoch has not wrapped, since after 2^64 rolls epochs repeat.
- PeakLaws.PeaksAreGreatestRuns: asks for non-negative amounts on the entries that move a level; `NegativeAmountHidesAPeak` shows why, and `StoredPeaks` when a ledger provides it.
- Batch.AllocateShared: a division by a weight sum of exactly zero yields a zero share in the model; it cannot occur under a rounding with relative error.
- Id tags: the compile-time kinds that keep identities apart are one type here.

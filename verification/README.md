# Blindport data plane: a verified model

This project models the Go data plane of Blindport in Dafny and proves what its protocols and parsers
are for. It covers six parts:

- **The multiplexed tunnel.** `Flow` is a state machine of two honest peers and the wire between them,
  with one step per section that runs under a mutex. `Credit`, `Fidelity`, `Writes` and
  `Datagrams` prove what every run of it keeps, `Recovery` that credit always comes back, `Ending` how
  a stream comes to its end. `Ledger` is a machine of one
  connection with all its streams and the shared receive budget; `Headroom` puts it together with
  `Flow`. `Fairness` is the eviction policy. `Tunnel` has the objects themselves; its methods
  are proved against the functions (`Receive`) that the machines are built from.
- **The routed-plane reconciler.** `Snapshot` validates a desired state, `Reconcile` is a machine with
  one step per dataplane call that keeps a log of the calls made, `Reconciler` has the objects.
- **Bandwidth accounting.** `Bandwidth` adds up batches, `Reporting` is a machine of flushes, ledger
  writes and crashes, `Totals` says when reported totals never decrease, `Reporter` has the reporter.
  `Accounting` and `AccountingCycle` turn kernel counters into bytes of the accumulator, which
  `Attribution` sums over days; `Losses` accounts for every byte that was counted and not attributed.
- **Byte-level parsers.** `ClientHello`, `Sni` and `PeekSni` (TLS), `ProxyV2` (PROXY protocol v2) over
  the shared `Tlv`, and `HeaderLimit` (end of an HTTP header).
- **Hostname routing.** `Claims` and `Routing`: the relay by labels, the agent by string suffix.
- **Limits and supervision.** `TokenBuckets` with `Throttle` (what the limiter never allows) and
  `Allowance` (what it always allows), `SourceLimiter`, and `Supervisor` with `Lifecycle`.

`Bytes` and `Collections` hold what several parts share.

A machine is a total function `Do(state, step)`; a step that is not enabled changes nothing. `Run` folds
it over any sequence of steps, so a lemma about `Run` speaks about every interleaving. Where the source
mutates objects the model has classes, whose methods either perform a run of the machine or are proved
equal to the function the machine uses.

Five properties one might expect are false of the code. The first four have a lemma that exhibits the
failure, the last a contract that says when it fails:

- an honest stream can be aborted with credit to spare, because credit counts bytes and the stream also
  has a frame limit (`Credit.HonestStreamCanBeAborted`); `Credit.RefusedOnlyForFramesOrBudget` says
  exactly when a payload is refused;
- on UDP a DATAGRAM can follow the CLOSE of its own side (`Fidelity.DatagramCanFollowClose`); on TCP
  nothing does;
- a reported total can decrease, when an entry was reported, pruned and then comes back smaller because
  bytes were added with an old clock reading (`Totals.LateAdditionRegresses`, a run from every start);
  `Totals.DecreasesIffUndercut` says exactly which additions lead to this, and without one
  `Totals.TotalsNeverDecrease` holds of every run;
- a flush that crosses midnight can drop bytes (`Totals.MidnightFlushLosesBytes`, a run from every start);
  `Reporting.FlushLosesBytesIff` and `Reporting.PruningLosesLaterBytes` say exactly when and which;
- a plane that was applied and whose accounting table could not be installed is not always closed again:
  `AccountingCycle.Manager.ApplyAndInstall` says that it is closed if and only if it had not failed
  closed before that cycle, because failing closed does nothing the second time and the flag is reset
  only after the installation.

## Model

| member | source | states |
|---|---|---|
| `Credit.EveryRunConserves` | go/internal/tunnel/tunnel.go:499-833 | In every reachable state of two honest peers, in both directions, free credit + payloads taken or in flight + bytes queued (partly read frames included) + pending window + credit held by the flusher or in flight is at most the window, and equal to it while the sender is open and the receiver neither closed nor unregistered |
| `Credit.RefusedOnlyForFramesOrBudget` | go/internal/tunnel/tunnel.go:525-552 | The stream's byte limit never refuses a payload of an honest peer: an arriving payload is queued if and only if the connection budget admits it, the read side is open and the frame limit is not reached |
| `Credit.WindowUpdateAlwaysAccepted` | go/internal/tunnel/tunnel.go:268-281 | Every WINDOW_UPDATE in flight lies in 1..MaxWindowUpdate and an open sender gains exactly that credit, never beyond its cap |
| `Credit.PendingNeverWraps` | go/internal/tunnel/tunnel.go:798-816 | windowPending (a uint32, added modulo 2^32 in the model) never wraps: with all queued and held bytes it stays within the window |
| `Credit.QuiescentSenderHasFullCredit` | go/internal/tunnel/tunnel.go:675-714 | With nothing taken, in flight, queued or on its way back, a live sender is at full credit |
| `Recovery.CreditComesHome` | go/internal/tunnel/tunnel.go:675-833 | From every reachable state of a live stream whose reader has caught up, whatever frames are in flight towards the sender, there is a run of flushes at the receiver and deliveries and reads at the sender's own end to full credit, with the stream still live: no credit is stranded |
| `Recovery.EveryRunIsGood` | go/internal/tunnel/tunnel.go:836-904 | In every run with flow control, besides conservation and fidelity, a CLOSE is due or in flight only from a peer that is done |
| `Headroom.HonestBytesNeverRefused` | go/internal/tunnel/tunnel.go:537-571 | With the default limits, if fewer than 15 other streams hold unread bytes, a payload of an honest peer is refused by stream and connection together only for frames or a closed read side, never for its bytes |
| `Headroom.RoomForHonestBytes` | go/internal/tunnel/tunnel.go:554-571 | In every reachable state of a connection with flow control, a payload its stream has room for fits the bulk limit, if that is worth one window for this stream and each other stream holding bytes |
| `Headroom.EveryRunStaysBelow` | go/internal/tunnel/tunnel.go:537-552 | No stream ever holds more than its own byte limit |
| `Headroom.LoneStreamLimits` | go/internal/tunnel/tunnel.go:525-571 | With the default limits a stream that alone holds anything is given exactly 4 MiB in 512 frames (TCP with flow control), 56 MiB in 3840 frames (TCP without) or 512 KiB in 32 packets (UDP) |
| `Headroom.StepMirrored` | go/internal/tunnel/tunnel.go:537-635 | Every step of a peer in the machine of one stream does to its receive side what at most one step of the connection's machine does to that stream, when the shared budget gives the answers: an arriving payload is queued there, a read is a read there |
| `Credit.HonestStreamCanBeAborted` | go/internal/tunnel/tunnel.go:540 | A concrete family of runs of honest peers in which the frame limit aborts a stream whose sender still has credit |
| `Credit.LocalMoves` | go/internal/tunnel/tunnel.go:643-738 | Each local action moves credit between the places counted and neither makes nor loses any while the stream is open |
| `Credit.OnFrameAbsorbs` | go/internal/tunnel/tunnel.go:213-290 | Each arriving frame carries its bytes or its credit into the receiving peer, exactly while that side is open |
| `Fidelity.EveryRunFaithful` | go/internal/tunnel/tunnel.go:588-738 | Invariant of every run of a TCP stream: what was framed is what was read, is unread or is in flight, in order, unless the receiver itself discarded some; no DATA follows CLOSE_WRITE or CLOSE on the wire |
| `Fidelity.ReaderSeesFrames` | go/internal/tunnel/tunnel.go:588-635 | Bytes returned by Read, with any buffer sizes, are always a prefix of the bytes framed |
| `Fidelity.FramesAreComplete` | go/internal/tunnel/tunnel.go:588-635 | At end of file after the peer's end of stream, with nothing discarded on this side, the reader has every byte the peer has framed or will ever frame, and no Write of the peer is open |
| `Writes.EveryRunFramesWhatWasWritten` | go/internal/tunnel/tunnel.go:643-673 | In every run of a TCP stream, at both ends: the bytes framed are, in order, exactly the fronts of their buffers that ended Writes reported as written, and then the front of the buffer of the Write that is open; the rest of that buffer is what has its credit and what is left |
| `Writes.ReaderSeesAPrefix` | go/internal/tunnel/tunnel.go:588-673 | Bytes returned by Read are always a prefix of the bytes the peer's writers handed over, buffer after buffer |
| `Writes.EndOfFileIsComplete` | go/internal/tunnel/tunnel.go:588-673 | At end of file after the peer's end of stream, with nothing discarded on this side, the reader has exactly the bytes that the peer's Writes reported as written, and no later Write reports more |
| `Writes.ChunkGoesOut` | go/internal/tunnel/tunnel.go:652-671 | With the connection up and credit to spend, the next DATA frame carries the front of the buffer, at least one byte and as much as the frame limit and the credit allow |
| `Writes.ShortWriteHasAReason` | go/internal/tunnel/tunnel.go:643-673 | A Write that ends is listed with its buffer and the number of bytes it framed; that is less than the buffer only if the write side was closed, the credit ran out or the connection was down |
| `Fidelity.NothingWrittenAfterEnd` | go/internal/tunnel/tunnel.go:643-738 | A peer whose CLOSE_WRITE or CLOSE has left never frames another byte, in any continuation |
| `Fidelity.DataFindsReadSideOpen` | go/internal/tunnel/tunnel.go:213-240 | Between honest peers a DATA frame for a registered TCP stream always finds its read side open |
| `Fidelity.DatagramCanFollowClose` | go/internal/tunnel/tunnel.go:779-796 | For every packet a run in which a UDP stream's CLOSE is followed by a DATAGRAM of the same side |
| `Ending.CloseWriteArrives` | go/internal/tunnel/tunnel.go:717-738 | From any state in which the writer is free: CloseWrite closes the write side and nothing else, its frame follows all that was sent, and when that has arrived the peer, if it still has the stream, is at the end of its input |
| `Ending.CloseArrives` | go/internal/tunnel/tunnel.go:836-904 | From any state in which the writer is free: Close ends the stream here at once, its frame follows all that was sent, and when that has arrived the peer, if it still has the stream, is done too |
| `Ending.CloseDropsUnread` | go/internal/tunnel/tunnel.go:836-891 | Close lets go of everything that was not read |
| `Ending.EveryRunEndsOnce` | go/internal/tunnel/tunnel.go:717-873 | In every run, in both directions, CLOSE and CLOSE_WRITE are on the way at most once each, and CLOSE_WRITE never behind CLOSE |
| `Ending.DeadPeerIsSilent` | go/internal/tunnel/tunnel.go:128-140 | Once a side has closed the connection, nothing leaves it and nothing reaches it, in any continuation |
| `Ending.CreditStaysInRange` | go/internal/tunnel/tunnel.go:675-714 | Whatever frames a peer sends, in whatever order, the credit of a stream stays between 0 and its cap |
| `Ending.BadUpdateEndsTheStream` | go/internal/tunnel/tunnel.go:268-281 | A WINDOW_UPDATE of nothing, of more than the maximum or beyond the cap aborts an open stream for good, and CLOSE is due |
| `Datagrams.EveryRunInOrder` | go/internal/tunnel/tunnel.go:741-796 | Invariant of every run of a UDP stream: packets returned, queued and in flight are together a subsequence of those framed |
| `Datagrams.ReaderSeesPacketsInOrder` | go/internal/tunnel/tunnel.go:741-771 | Packets returned by ReadDatagram are a subsequence of those framed: boundaries kept, nothing reordered or duplicated |
| `Datagrams.EveryRunFramesOnlyWritten` | go/internal/tunnel/tunnel.go:779-796 | In every run of a UDP stream, at both ends, the packets framed and those that have their credit are among the packets handed to WriteDatagram, each at most as often |
| `Datagrams.FittingPacketIsHandedOver` | go/internal/tunnel/tunnel.go:741-771 | A packet that fits the buffer is handed over whole, and the packet behind it is next in any case |
| `Ledger.EveryRunBalances` | go/internal/tunnel/tunnel.go:537-578 | In every reachable state of a connection with any streams, evicted ones included, rxBytes and rxFrames are the sums over the streams, both limits hold and so does the reserve: bytes <= bulk limit + sum of min(queued, 64 KiB), frames <= bulk limit + sum of min(frames, 8) |
| `Ledger.EverythingClosedFreesTheBudget` | go/internal/tunnel/tunnel.go:836-898 | Once every stream was closed by its owner both counters are zero: no close path releases twice or not at all |
| `Ledger.NothingQueuedAfterClose` | go/internal/tunnel/tunnel.go:537-552 | After rxClosed a stream's unread bytes only shrink from the front, whatever any stream does |
| `Ledger.SmallStreamRefusedOnBytes` | go/internal/tunnel/tunnel.go:554-571 | With the default limits a small stream is refused for bytes only when at least 64 distinct streams hold bytes |
| `Ledger.SmallStreamRefusedOnFrames` | go/internal/tunnel/tunnel.go:554-571 | Likewise for frames: at least 32 distinct streams hold frames |
| `Ledger.LimitsFixed` | go/internal/tunnel/tunnel.go:554-578 | No run changes the limits of the budget |
| `Fairness.EvictionVictim` | go/internal/tunnel/tunnel.go:354-387 | The victim is the least recently active idle stream; else the least recently active stream of a heaviest group that has at least two more than the requester; and it is refused only if no stream is idle and every group is within one stream of the requester |
| `Fairness.ScanStreams` | go/internal/tunnel/tunnel.go:355-367 | The scan counts every group exactly and finds the least recently active idle stream if there is one |
| `Fairness.Heaviest` | go/internal/tunnel/tunnel.go:368-373 | The group found has the most streams |
| `Fairness.OldestOf` | go/internal/tunnel/tunnel.go:380-386 | The stream found is the least recently active of its group |
| `Fairness.FairShareDecreases` | go/internal/tunnel/tunnel.go:328-387 | A fair-share replacement lowers the sum of squared group counts by at least two and leaves the losing group with at least as many streams as the requester's |
| `Fairness.FairRunsEnd` | go/internal/tunnel/tunnel.go:328-387 | A run of opens admitted only by fair share is finite, whatever traffic changes the streams' activity times in between: at most half the square of the number of streams |
| `Fairness.ImbalanceByGroup` | go/internal/tunnel/tunnel.go:470-472 | Activity does not change the sum of squared group counts |
| `Fairness.ImbalanceBound` | go/internal/tunnel/tunnel.go:328-387 | The sum of squared group counts is at most the square of the number of streams |
| `Receive.EnqueueOk` | go/internal/tunnel/tunnel.go:537-552 | Queueing appends exactly the payload to the unread bytes and keeps the stream's counts exact |
| `Receive.ReadBytesOk` | go/internal/tunnel/tunnel.go:588-635 | Reading hands over the next unread bytes and nothing else; the byte count falls by the frame completed |
| `Receive.ReadPacketOk` | go/internal/tunnel/tunnel.go:741-771 | ReadDatagram takes the first queued packet whole and releases its size |
| `Receive.CloseRxOk` | go/internal/tunnel/tunnel.go:875-891 | Closing keeps the unread bytes, or drops all of them and their counts when it discards |
| `Tunnel.Conn.constructor` | go/internal/tunnel/tunnel.go:64-81 | A new connection has no streams and an empty budget of the default limits |
| `Tunnel.Conn.ReserveReceive` | go/internal/tunnel/tunnel.go:554-571 | Admits and charges exactly as the budget of the ledger machine |
| `Tunnel.Conn.ReleaseReceive` | go/internal/tunnel/tunnel.go:573-578 | Gives back exactly the bytes and frames named |
| `Tunnel.Conn.RemoveStream` | go/internal/tunnel/tunnel.go:416-424 | Removes that stream only |
| `Tunnel.Conn.InsertStream` | go/internal/tunnel/tunnel.go:328-350 | Inserts if and only if the id is new, not zero and there is room or a victim of the policy; the table never exceeds its limit; a refusal changes nothing |
| `Tunnel.Stream.constructor` | go/internal/tunnel/tunnel.go:486-512 | A new stream has nothing queued and full credit for its transport |
| `Tunnel.Stream.QueuePayload` | go/internal/tunnel/tunnel.go:537-552 | Queues if and only if stream and connection accept; then both counts grow by it, else nothing changes |
| `Tunnel.Stream.NextFrame` | go/internal/tunnel/tunnel.go:594-607 | Moves to the next frame with bytes, releasing the empty ones it skips |
| `Tunnel.Stream.Read` | go/internal/tunnel/tunnel.go:588-635 | Returns what the specification of reading returns, releases budget for the completed frame and puts its size into the pending window |
| `Tunnel.Stream.ReadDatagram` | go/internal/tunnel/tunnel.go:741-771 | Takes one packet, also when it does not fit, and releases and returns its credit |
| `Tunnel.Stream.ReturnCredit` | go/internal/tunnel/tunnel.go:798-816 | Adds to the pending window modulo 2^32, and only on an open flow-controlled stream |
| `Tunnel.Stream.TakePendingCredit` | go/internal/tunnel/tunnel.go:818-833 | Takes all pending credit, and stops the flusher exactly when there is none |
| `Tunnel.Stream.TakeSendCredit` | go/internal/tunnel/tunnel.go:675-697 | Takes the smaller of wish and credit, all of the wish when it must be exact, or reports that it has to wait and takes nothing |
| `Tunnel.Stream.AddSendCredit` | go/internal/tunnel/tunnel.go:699-714 | Refuses exactly the credit that would exceed the cap of an open write side |
| `Tunnel.Stream.CloseRead` | go/internal/tunnel/tunnel.go:875-891 | Closes the read side; discarding releases exactly what the stream holds |
| `Tunnel.Stream.MarkClosed` | go/internal/tunnel/tunnel.go:861-873 | The first caller wins and closes both sides; every later call changes nothing |
| `Tunnel.Stream.Close` | go/internal/tunnel/tunnel.go:836-844 | CLOSE is due exactly once; afterwards nothing of the stream is charged to the budget and it is out of the table |
| `Snapshot.Validate` | go/internal/wgnet/state.go:59-113 | Accepts exactly the snapshots whose prefixes are valid and distinct, whose peers have valid distinct keys and own managed prefixes, at least one each and none twice, and whose SMTP prefixes are owned |
| `Snapshot.CheckPrefixes` | go/internal/wgnet/state.go:63-72 | Accepts exactly lists of valid, distinct prefixes and returns their set |
| `Snapshot.CheckPeers` | go/internal/wgnet/state.go:73-95 | Accepts exactly peers with valid distinct keys and distinct managed prefixes, and returns the owned set |
| `Snapshot.ClaimPrefixes` | go/internal/wgnet/state.go:86-94 | Accepts exactly prefixes that are managed and not owned yet |
| `Snapshot.CheckSmtp` | go/internal/wgnet/state.go:96-111 | Accepts exactly valid, distinct, owned SMTP prefixes |
| `Reconcile.EveryRunCovered` | go/internal/wgnet/state.go:149-234 | Over a device in any state, in every run of Apply and FailClosed, at every dataplane call and whatever fails with or without effect, every prefix with an active route is in managedPrefixes or was routed from the start |
| `Reconcile.FailClosedShutsDown` | go/internal/wgnet/state.go:214-234 | A FailClosed that returns nil leaves no peers, an empty policy and no active route of a managed prefix, even after partly applied snapshots; over a device that had no routes, no route at all |
| `Reconcile.EveryLayerIsAttempted` | go/internal/wgnet/state.go:149-234 | In every run, whatever fails: when a FailClosed, or an Apply that could not replace the peers, comes to rest, the policy was to be emptied and every managed prefix to be blackholed; and each of those calls that succeeded has its effect, whatever the others did |
| `Reconcile.AppliedMatchesSnapshot` | go/internal/wgnet/state.go:149-210 | An Apply that returns nil makes peers and policy those of the snapshot and routes, among its managed prefixes, exactly the owned ones, whatever failed before; over a device that had no routes, it routes nothing else |
| `Reconcile.RevokedBeforePeersChange` | go/internal/wgnet/state.go:149-210 | When the new peers are installed every managed prefix the snapshot does not own is already blackholed and nothing new is routed |
| `Reconcile.RoutedOnlyAfterPeers` | go/internal/wgnet/state.go:149-210 | A route is added only while the snapshot's own peers are installed, and only for a prefix one of them owns |
| `Reconciler.Reconciler.constructor` | go/internal/wgnet/state.go:144-146 | A new reconciler manages no prefixes, whatever the device routes |
| `Reconciler.Reconciler.Apply` | go/internal/wgnet/state.go:149-210 | Performs a run of the machine; success means a valid snapshot that the dataplane matches; an invalid one changes nothing; a valid one succeeds if every call does |
| `Reconciler.Reconciler.FailClosed` | go/internal/wgnet/state.go:214-217 | Performs a run of the machine; success means the dataplane is shut down; whatever fails, every call was made and each that succeeded has its effect; if all do, it succeeds |
| `Reconciler.Reconciler.BlackholeRevoked` | go/internal/wgnet/state.go:175-190 | The loop over revoked prefixes and the policy call, as steps of the machine, stopping at the first error |
| `Reconciler.Reconciler.BlackholeAll` | go/internal/wgnet/state.go:177-184 | The loop alone: on success no revoked prefix is left to blackhole |
| `Reconciler.Reconciler.Install` | go/internal/wgnet/state.go:191-199 | Replaces the peers, and closes everything if that fails |
| `Reconciler.Reconciler.ActivateAll` | go/internal/wgnet/state.go:200-210 | The loop over owned prefixes, stopping at the first error |
| `Reconciler.Reconciler.CloseAll` | go/internal/wgnet/state.go:218-234 | Goes on through every call whatever fails, as the machine does, and reports whether all succeeded |
| `Reconciler.Reconciler.CloseRoutes` | go/internal/wgnet/state.go:227-233 | The loop over all managed prefixes, none skipped |
| `Reconciler.Reconciler.CloseRoute` | go/internal/wgnet/state.go:228-232 | One turn of it: one BlackholeRoute, an error remembered |
| `Bandwidth.Collect` | go/cmd/blindport-relay/bandwidth.go:69-106 | Accepts a batch if and only if every increment is well-formed, no total of the whole batch exceeds an int64 and its new keys fit; what it gathers merges to the sums of the batch |
| `Bandwidth.BatchAddsItsBytes` | go/cmd/blindport-relay/bandwidth.go:69-111 | An accepted batch adds to each subscription's totals of the day exactly the bytes it has for it, and leaves other days alone |
| `Bandwidth.Accumulator.constructor` | go/cmd/blindport-relay/bandwidth.go:61-63 | A new accumulator is empty |
| `Bandwidth.Accumulator.AddBatch` | go/cmd/blindport-relay/bandwidth.go:69-111 | All of a batch is added or none of it |
| `Bandwidth.Accumulator.PruneBefore` | go/cmd/blindport-relay/bandwidth.go:131-139 | Exactly the entries of earlier days are deleted |
| `Reporting.SequencesStrictlyIncrease` | go/cmd/blindport-relay/bandwidth.go:221-259 | In every run, with crashes anywhere and ledger writes that fail with or without effect, sequence numbers sent strictly increase and the ledger's number is at least all of them |
| `Totals.TotalsNeverDecrease` | go/cmd/blindport-relay/bandwidth.go:113-259 | In every run in which no addition undercuts (brings back a key that is no longer in memory with less than was already sent for it), crashes included, the totals sent for each subscription and day never decrease; memory, ledger and snapshot have at least what was sent wherever they have the key |
| `Totals.DecreasesIffUndercut` | go/cmd/blindport-relay/bandwidth.go:198-259 | The exact condition: at any moment of such a run, during a flush or not and with sequence numbers to spare, an addition can be followed by a decrease, with no other addition, if and only if it undercuts a key that the flush in progress is not about to prune |
| `Totals.UndercuttingDecreasesAnytime` | go/cmd/blindport-relay/bandwidth.go:221-250 | From every point of a flush there is a continuation in which an addition that undercuts such a key is reported smaller than before |
| `Totals.UndercuttingDecreases` | go/cmd/blindport-relay/bandwidth.go:221-247 | After an addition that undercuts, in either direction, an undisturbed flush sends less than was sent before |
| `Totals.OnTimeNeverUndercuts` | go/cmd/blindport-relay/bandwidth.go:198-204 | In any run, whatever was added late before, an addition whose clock reading is not older than the last pruning does not undercut |
| `Totals.NoneLateNoneUndercuts` | go/cmd/blindport-relay/bandwidth.go:198-204 | So a run without late additions has none that undercuts |
| `Reporting.LedgerDominates` | go/cmd/blindport-relay/bandwidth.go:113-259 | In every run without additions older than the last pruning the ledger on disk dominates everything sent, except entries pruned for good |
| `Totals.LateAdditionRegresses` | go/cmd/blindport-relay/bandwidth.go:198-259 | From every start a run in which a total is reported, pruned after midnight, added to late and then reported smaller |
| `Reporting.PruningLosesLaterBytes` | go/cmd/blindport-relay/bandwidth.go:221-250 | When a flush comes to its pruning, an entry's totals were acknowledged if and only if the entry is as it was in the snapshot |
| `Reporting.SameDayPruningLosesNothing` | go/cmd/blindport-relay/bandwidth.go:221-250 | In runs whose additions read the clock on their own day, every entry of a day before the flush began was acknowledged in full when it comes to pruning |
| `Reporting.FlushLosesBytesIff` | go/cmd/blindport-relay/bandwidth.go:221-250 | Pruning drops bytes that were not acknowledged if and only if some entry of an earlier day differs from the snapshot |
| `Totals.MidnightFlushLosesBytes` | go/cmd/blindport-relay/bandwidth.go:224-248 | From every start a run, all of whose additions read the clock on their own day, in which a flush that crosses midnight prunes bytes it did not report |
| `Reporter.Reporter.constructor` | go/cmd/blindport-relay/bandwidth.go:174-190 | A reporter starts from the ledger's totals and sequence number, as the machine does after a crash |
| `Reporter.Reporter.Snapshot` | go/cmd/blindport-relay/bandwidth.go:113-129 | Lists every key once |
| `Reporter.Reporter.PersistLocked` | go/cmd/blindport-relay/bandwidth.go:252-259 | One step of the machine; success means the ledger holds the current totals and number |
| `Reporter.Reporter.SendAll` | go/cmd/blindport-relay/bandwidth.go:231-247 | The loop is a run of the machine; success means every key of the snapshot was acknowledged with its totals |
| `Reporter.Reporter.Flush` | go/cmd/blindport-relay/bandwidth.go:221-250 | Performs a run of the machine; success means all totals were acknowledged, earlier days are pruned and the ledger holds what is left; it fails only if a ledger write or a request did, or no sequence number is left |
| `Accounting.Current` | go/cmd/blindport-relay/wireguard_accounting.go:101-114 | Accepts exactly one non-negative row per bound subscription and returns them by subscription |
| `Accounting.Increments` | go/cmd/blindport-relay/wireguard_accounting.go:115-149 | The increments add up, for each subscription and direction, to what the counter gained, and to nothing where it went back; none is negative |
| `Accounting.BandwidthBindings` | go/cmd/blindport-relay/wireguard_accounting.go:168-200 | Accepts exactly the bindings that are well-formed, one to one, and as many as the active prefixes, which they cover |
| `Accounting.BindsExactlyTheActive` | go/cmd/blindport-relay/wireguard_accounting.go:172-197 | When the active prefixes are distinct an accepted list binds exactly them |
| `Attribution.BatchAddsOverDays` | go/cmd/blindport-relay/bandwidth.go:69-111 | An accepted batch adds to each subscription and direction, summed over all days, exactly the bytes it has for it |
| `AccountingCycle.CollectionTelescopes` | go/cmd/blindport-relay/wireguard_accounting.go:115-137 | One collection keeps: attributed = last readings of retired tables + current last reading, for each subscription and direction |
| `AccountingCycle.CollectionBooks` | go/cmd/blindport-relay/wireguard_accounting.go:133-136 | The batch of a collection grows the accumulator over all days by exactly what is logged as attributed |
| `AccountingCycle.TotalsAreTheReadings` | go/cmd/blindport-relay/wireguard_accounting.go:38-166 | The accumulator itself telescopes: what it holds over all days and what was pruned from it grew by what others added, the last readings of the retired tables and the current last reading; the readings are no more than the kernel counted |
| `AccountingCycle.RetiringTelescopes` | go/cmd/blindport-relay/wireguard_accounting.go:62-70 | Retiring a table keeps that sum |
| `AccountingCycle.InstallingTelescopes` | go/cmd/blindport-relay/wireguard_accounting.go:81-85 | Installing a table keeps that sum |
| `AccountingCycle.NeverMoreThanCounted` | go/cmd/blindport-relay/wireguard_accounting.go:89-138 | No byte is attributed twice: never more than the kernel counted over all tables |
| `Losses.DestroyedIsExact` | go/cmd/blindport-relay/wireguard_accounting.go:58-70 | A table that is destroyed, by whomever, loses exactly what it counted since its last reading: nothing if it was just read, all if it was never ours |
| `Losses.RetiringIsExact` | go/cmd/blindport-relay/wireguard_accounting.go:64-70 | Retiring a table that is gone keeps: counted by dead tables = their last readings + what was lost |
| `Losses.InstalledIsExact` | go/cmd/blindport-relay/wireguard_accounting.go:81-85 | So does installing one, whatever table was there before |
| `Losses.CountedIsAccountedFor` | go/cmd/blindport-relay/wireguard_accounting.go:38-166 | Over all tables, every byte counted is attributed, lost, or counted since the last reading of the table that exists |
| `AccountingCycle.Accounts.constructor` | go/cmd/blindport-relay/wireguard_accounting.go:32-34 | Nothing is attributed or present at the start |
| `AccountingCycle.Accounts.Collect` | go/cmd/blindport-relay/wireguard_accounting.go:89-138 | One reading of the table. It succeeds if and only if the rows are complete and the accumulator accepts the gains; then exactly the gains since the last reading go into the accumulator's totals of the day and the last reading is what the kernel counted; a failed read or batch changes neither; a missing table is retired |
| `AccountingCycle.Accounts.Attribute` | go/cmd/blindport-relay/wireguard_accounting.go:101-137 | All gains of the rows go into the accumulator and the log if and only if the rows are complete and the gains acceptable; else nothing changes |
| `AccountingCycle.Accounts.Charge` | go/cmd/blindport-relay/wireguard_accounting.go:115-137 | The increments of a reading are its gains, and are added in one batch or not at all |
| `AccountingCycle.Accounts.Prepare` | go/cmd/blindport-relay/wireguard_accounting.go:38-72 | Loses nothing: a table whose bindings change is removed only after a complete, accepted reading, so what is retired is what it had counted; a table that stays carries the wanted bindings and was just read; the skip is decided exactly; a refusal means that a reading or the removal failed |
| `AccountingCycle.Accounts.DrainAndRemove` | go/cmd/blindport-relay/wireguard_accounting.go:58-70 | The branch for changed bindings: a table that is gone afterwards is retired with exactly what it had counted, and no byte is lost |
| `AccountingCycle.Accounts.AppliedState` | go/cmd/blindport-relay/wireguard_accounting.go:74-87 | Records bindings and revision, and succeeds exactly when a table is present for them; only a table that was not its own can be lost by it, and only a failed installation makes it fail |
| `AccountingCycle.Accounts.Close` | go/cmd/blindport-relay/wireguard_accounting.go:153-166 | Keeps the books whatever fails; removes the table unless the kernel refuses; unless the reading failed, no byte is lost and what is retired is what the table had counted; with no table present it does nothing |
| `AccountingCycle.Manager.FailClosed` | go/cmd/blindport-relay/wireguard.go:235-252 | Closes the accounting first and then the plane, once, and nothing if the plane has failed closed already; the table is gone unless its removal failed; keeps the books, and loses bytes only to a failed reading |
| `AccountingCycle.Manager.FailClosedIfStale` | go/cmd/blindport-relay/wireguard.go:228-233 | When the last success is stale and the plane has not failed closed, exactly that; else nothing |
| `AccountingCycle.Manager.ApplyAndInstall` | go/cmd/blindport-relay/wireguard.go:182-214 | The cycle after prepare: applies unless it may skip; when the table cannot be installed the plane is closed again if and only if it had not failed closed before; when applying fails it is closed if stale |
| `AccountingCycle.Manager.Cycle` | go/cmd/blindport-relay/wireguard.go:163-226 | One cycle keeps the books and grows the accumulator by exactly what is attributed, whatever fails; with a coherent state it succeeds unless a reading, a kernel call or the application fails, and leaves a table present that was installed for exactly the bindings fetched and was just read; a failing one closes the plane when stale; bytes are lost only to failed readings and installations that failed with effect |
| `AccountingCycle.Manager.Lives` | go/cmd/blindport-relay/wireguard.go:148-161 | After any sequence of cycles, traffic, removals by others, shutdowns, additions from elsewhere and prunings the attributed bytes telescope; what the accumulator holds over all days and what was pruned from it grew by exactly them and the additions from elsewhere; no byte was attributed twice. Every byte the kernel counted is attributed, not collected yet or lost, and it is lost only in a removal by others, after a reading that failed, was incomplete or was refused, or to an installation that failed with effect |
| `Attribution.PruningShrinks` | go/cmd/blindport-relay/bandwidth.go:131-139 | Pruning adds nothing to any subscription's bytes over all days |
| `ClientHello.ReadClientHello` | go/internal/sniproxy/sniproxy.go:56-107 | Reads the handshake the record specification gives, keeping only announced bytes; replay followed by the unread rest is the original stream |
| `ClientHello.ReadRecords` | go/internal/sniproxy/sniproxy.go:61-106 | The loop, for any number of records it may read |
| `ClientHello.ReadRecord` | go/internal/sniproxy/sniproxy.go:61-103 | One turn of the loop decides what the specification decides from all bytes seen |
| `ClientHello.DecidedStaysDecided` | go/internal/sniproxy/sniproxy.go:81-103 | Once the handshake bytes decide the outcome, more bytes do not change it |
| `ClientHello.RecordsDecide` | go/internal/sniproxy/sniproxy.go:56-107 | If the records' bytes decide, that is the outcome read from them, whatever follows |
| `ClientHello.FragmentationIrrelevant` | go/internal/sniproxy/sniproxy.go:56-107 | Any two splits of the same handshake bytes into at most 64 records of 1 to 16384 bytes give the same outcome and the same handshake |
| `ClientHello.HelloCameInRecords` | go/internal/sniproxy/sniproxy.go:56-107 | What is read came in at most 64 well-formed records, and no record beyond the one that completes it was read |
| `Sni.ParseSNI` | go/internal/sniproxy/sniproxy.go:109-208 | Computes the specified parse |
| `Sni.ScanExtensions` | go/internal/sniproxy/sniproxy.go:156-207 | The loop over the extensions accepts exactly well-formed lists with at most one good host name over all of them |
| `Sni.ScanNames` | go/internal/sniproxy/sniproxy.go:175-198 | The loop over the names accepts exactly well-formed lists that keep the host name unique, not empty and free of NUL |
| `Sni.ParseIsMeaning` | go/internal/sniproxy/sniproxy.go:109-208 | Every well-formed ClientHello message parses to its one host name in lower case, to "no SNI" if it has none, and to an error if it has several, an empty one or one with a NUL |
| `Sni.OnlyHellosParse` | go/internal/sniproxy/sniproxy.go:109-208 | Whatever does not parse to an error is the encoding of some well-formed ClientHello |
| `PeekSni.PeekSNI` | go/internal/sniproxy/sniproxy.go:35-54 | The name of the handshake read, with replay and rest equal to the stream |
| `PeekSni.AnyFragmentationGivesTheName` | go/internal/sniproxy/sniproxy.go:35-54 | However a well-formed hello is cut into at most 64 records, and whatever comes after it, its message is read and its own name found |
| `Tlv.SplitsIffEncoding` | go/internal/proxyproto/proxyproto.go:131-144 | A byte string can be cut into tagged values to its end if and only if it encodes some list of them |
| `Tlv.EncodingSplits` | go/internal/proxyproto/proxyproto.go:131-144 | Cutting an encoded list gives back the list |
| `ProxyV2.ValidateV2TLVs` | go/internal/proxyproto/proxyproto.go:131-144 | Accepts exactly the encodings of TLV lists |
| `ProxyV2.Fill` | go/internal/proxyproto/proxyproto.go:174-199 | The buffer filled at the source's offsets is signature, command, family, length, addresses and ports |
| `ProxyV2.V2` | go/internal/proxyproto/proxyproto.go:162-200 | Fails exactly on addresses that do not parse or an unspecified source; else writes the header of section 2.2 with the destination in the source's family |
| `ProxyV2.ReadsBack` | go/internal/proxyproto/proxyproto.go:75-155 | Reading a header with any TLV list within 4 KiB, followed by any bytes, gives both endpoints and leaves exactly those bytes, or refuses an unusable source |
| `ProxyV2.V2ReadsBack` | go/internal/proxyproto/proxyproto.go:75-200 | What V2 writes reads back as the source and the normalised destination |
| `ProxyV2.AcceptsOnlyHeaders` | go/internal/proxyproto/proxyproto.go:75-155 | The reader accepts nothing but such headers |
| `HeaderLimit.TailSuffices` | go/cmd/blindport-relay/http_challenge.go:354-361 | Three bytes of the past are enough to find an end of header that more bytes complete |
| `HeaderLimit.DetectsExactly` | go/cmd/blindport-relay/http_challenge.go:341-366 | For every chunking, the end is detected exactly when the bytes so far contain CRLFCRLF |
| `HeaderLimit.HeaderLimitReader.constructor` | go/cmd/blindport-relay/http_challenge.go:337-339 | A new reader has seen nothing and may read up to its limit |
| `HeaderLimit.HeaderLimitReader.Read` | go/cmd/blindport-relay/http_challenge.go:341-366 | `done` holds exactly when all bytes read contain CRLFCRLF; before that at most the limit is read, and at the limit only an error is returned; no byte is lost or reordered |
| `Claims.ClaimKeyUnique` | go/cmd/blindport-relay/main.go:760-773 | Valid claims have the same key if and only if they are the same claim, an absent transport standing for tcp |
| `Claims.HostnameHasNoColon` | go/internal/protocol/protocol.go:121-131 | A valid hostname contains no colon |
| `Routing.RelayTunnelKey` | go/cmd/blindport-relay/main.go:1411-1429 | The exact name if registered; else the wildcard of the longest dot-aligned suffix that has one; else nothing, and only then |
| `Routing.LabelsAreSuffix` | go/cmd/blindport-relay/main.go:1421-1427 | The labels from any position on are the name or follow a dot in it |
| `Routing.SuffixIsLabels` | go/cmd/blindportd/main.go:777-779 | Every dot-aligned string suffix is the labels from some position on |
| `Routing.AgentAccepts` | go/cmd/blindportd/main.go:767-781 | The agent takes a destination the relay made for a valid name if and only if the port is the one asked for and its claim covers the name |
| `Routing.ForwardedIsAccepted` | go/cmd/blindport-relay/main.go:1402-1429 | The tunnel a valid name is routed to was registered for a relay claim whose agent accepts the forwarded destination |
| `Routing.RoutedIffSomeAgentAccepts` | go/cmd/blindport-relay/main.go:1402-1429 | A valid name is routed somewhere if and only if some registered claim's agent would accept it |
| `Routing.PortSelectsUpstream` | go/cmd/blindportd/main.go:748-765 | What the relay forwards on 443 goes to the upstream, on 80 to the challenge upstream or an error if there is none |
| `TokenBuckets.SourceTokenBuckets.constructor` | go/cmd/blindport-relay/admission.go:77-82 | A new table is empty |
| `TokenBuckets.SourceTokenBuckets.Sweep` | go/cmd/blindport-relay/admission.go:94-99 | Deletes exactly the stale entries |
| `TokenBuckets.SourceTokenBuckets.Allow` | go/cmd/blindport-relay/admission.go:84-117 | Answers and changes the table as the specification of one call |
| `TokenBuckets.StaleIsFull` | go/cmd/blindport-relay/admission.go:94-98 | An entry as old as the refill time would be full |
| `Throttle.WindowBound` | go/cmd/blindport-relay/admission.go:84-117 | In any window of any run with nondecreasing time a source is allowed at most burst + rate * T calls |
| `Allowance.AllowedIffAToken` | go/cmd/blindport-relay/admission.go:105-116 | A call that finds room is allowed if and only if its source's level, which rises at the rate up to the burst, is at least one |
| `Allowance.HistoryDecides` | go/cmd/blindport-relay/admission.go:84-117 | After any run from an empty table, a call that finds room is allowed if and only if a bucket that was full at first, refilled at the rate up to the burst and gave one token to each earlier allowed call of the source, holds one: the history alone decides |
| `Allowance.RefinesHistories` | go/cmd/blindport-relay/admission.go:84-117 | Apart from turning new sources away when full, the bounded table with its eviction gives every call of every run exactly what the history of its source owes it |
| `Allowance.DeniedHasSpent` | go/cmd/blindport-relay/admission.go:84-117 | The converse bound: a source that is turned down although there is room was allowed, since the beginning or since a moment when its bucket was full, more calls than the tokens it had then + rate * T - 1 |
| `Allowance.TokensAreHonoured` | go/cmd/blindport-relay/admission.go:84-117 | As many calls in a row as a source has tokens are all allowed, once the first finds room |
| `Allowance.SilentSourceGetsItsBurst` | go/cmd/blindport-relay/admission.go:84-117 | A source that is new or was silent for the refill time gets its whole burst, floor(burst) calls in a row |
| `Throttle.SweepKeepsLevels` | go/cmd/blindport-relay/admission.go:94-99 | Deleting stale entries changes no source's tokens |
| `Throttle.RefinesUnbounded` | go/cmd/blindport-relay/admission.go:84-117 | Apart from turning new sources away when full, the bounded table answers every call of every run as an unbounded one without eviction |
| `Throttle.TurnedAwayWhenFull` | go/cmd/blindport-relay/admission.go:92-103 | A new source is turned away if and only if maxSources others called within the refill time |
| `SourceLimiter.SourceLimiter.constructor` | go/cmd/blindport-relay/admission.go:127-129 | Nothing is held at the start |
| `SourceLimiter.SourceLimiter.Acquire` | go/cmd/blindport-relay/admission.go:131-156 | Succeeds if and only if both limits leave room; the counters are always the leases held, in all and per source |
| `SourceLimiter.SourceLimiter.Release` | go/cmd/blindport-relay/admission.go:145-156 | Gives up that lease only; releasing twice is releasing once |
| `Supervisor.RunBodiesNeverOverlap` | go/cmd/blindportd/worker.go:53-125 | Over all interleavings of Reconcile, Shutdown, cancellation and workers that end by themselves, no two active workers have the same key |
| `Supervisor.ReconciledWorkersMatch` | go/cmd/blindportd/worker.go:53-107 | After a Reconcile without error and until the next call all workers match its plans apart from the entitlement |
| `Supervisor.EntitlementChangeRestartsNothing` | go/cmd/blindportd/worker.go:53-107 | From a Reconcile that changes a plan in its entitlement only until the next call, in every interleaving, that worker is not cancelled and no second worker of its key is started, even if it ends by itself |
| `Supervisor.KeptIsLeftAlone` | go/cmd/blindportd/worker.go:66-80 | Such a worker stays in the map, is not waited for, and its new entitlement is stored |
| `Supervisor.OnlyDesiredAreStarted` | go/cmd/blindportd/worker.go:88-106 | The step that starts workers starts exactly the plans left to start, and those are not changed on the way; no other step starts a worker |
| `Supervisor.ReconcileDelivers` | go/cmd/blindportd/worker.go:53-107 | In every interleaving from the beginning of a Reconcile until the next call: every worker that is of none of the plans is cancelled, waited for, and done before anything is started; while it runs every plan had a worker of its kind or is still to be started; and once it has returned without error every plan had such a worker, which was kept, or has one that was started |
| `Supervisor.BeginWantsTheRest` | go/cmd/blindportd/worker.go:66-80 | When Reconcile begins, every plan without a worker of its kind is still to be started |
| `Supervisor.BeginStopsTheUnwanted` | go/cmd/blindportd/worker.go:69-79 | When Reconcile begins, every worker of none of the plans is cancelled and waited for |
| `Supervisor.ReconcileSucceeds` | go/cmd/blindportd/worker.go:82-107 | When the stopped workers are done and nothing was cancelled, the next steps start what is missing and return without error |
| `Lifecycle.EveryRunListsTheLiving` | go/cmd/blindportd/worker.go:88-106 | In every run the map lists only workers that have not cleaned up after themselves |
| `Lifecycle.EndedIsWantedAgain` | go/cmd/blindportd/worker.go:66-106 | In every reachable state, when all workers of a key have ended, a Reconcile with a plan of that key is going to start it |
| `Lifecycle.CallsCanReturn` | go/cmd/blindportd/worker.go:53-125 | From every reachable state in which Reconcile or Shutdown waits there is a continuation by its workers in which it returns: Reconcile without error exactly if the supervisor was not cancelled |
| `Lifecycle.NothingStartsOnceCancelled` | go/cmd/blindportd/worker.go:82-87 | Once the context is cancelled, unless Reconcile is already starting workers, none is ever started |
| `Supervisor.NothingStartsAfterShutdown` | go/cmd/blindportd/worker.go:109-125 | Once Shutdown has begun no worker is started, and once it has returned none is in its run body or on its way there |
| `Supervisor.ShutdownCancelsAll` | go/cmd/blindportd/worker.go:109-125 | Shutdown cancels every worker in the map and waits for it |
| `Supervisor.SamePlanIgnoresEntitlementOnly` | go/cmd/blindportd/worker.go:127-133 | Two plans are the same if and only if they differ in the entitlement at most |
| `Supervisor.Collect` | go/cmd/blindportd/worker.go:54-63 | Accepts exactly plans with distinct keys and returns plans and entitlements by key |
| `Supervisor.Triage` | go/cmd/blindportd/worker.go:69-79 | The loop over the workers keeps, stops and leaves to start what the machine does |

## Left out

- Opening a stream: the flow machine starts with the stream registered at both peers; OPEN and its refusal are not modelled.
- Frames for unknown streams, PING, and the protocol errors of a dishonest peer other than window updates.
- Blocking: a method that would wait on a channel reports that it has to wait; wake-ups, deadlines and contexts are not modelled.
- Fairness.EvictionVictim: works on one snapshot of the streams' activity times; the source reads each time atomically while others may change.
- The flow and ledger machines are tied to the classes of `Tunnel` by the functions they share, not by a run recorded in the objects.
- Sorted orders: prefixes, report batches and bindings are taken in any order; bindings are a map where the source keeps a sorted list.
- Identifiers: UUIDs are numbers, days are numbers in date order, edge and boot IDs and tokens are absent.
- Reporter.Reporter.Flush: additions by other goroutines during a flush are steps of the machine in `Reporting`, not of this method.
- JSON, the ledger's size limit and its validation on load; the ledger file is a value that is replaced atomically.
- The limit on the staleness of the WireGuard plane: whether the last success is stale is an input of a cycle.
- The kernel table: only the relay installs the table, and a reading has the true totals for every subscription it lists.
- Packets that pass between a reading of the table and its removal or replacement in the same call: traffic comes between calls.
- Sni.ParseSNI: lower case is ASCII only.
- ProxyV2.V2: parsing host and port from text is the library's; the model starts from its result.
- Whether a string is an IP address is the library's decision and an arbitrary predicate here.
- TokenBuckets.SourceTokenBuckets.Allow: tokens are real numbers; rounding and saturation of durations are not modelled.
- HeaderLimit.HeaderLimitReader.Read: the buffer is modelled by its size and the bytes returned.
- Registering and unregistering tunnels, authorization, metrics, health and listeners of the relay.
- Netlink and nft commands, ACME, certificates, entitlement signatures, Docker labels, the Python backend and the wallet helpers.

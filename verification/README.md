# EyeQ rate control in Dafny

EyeQ divides a server's network bandwidth between tenants. Each tenant is a *class* with a weight. On
the transmit side every packet passes two token buckets, one per destination and one per class, each
with a queue per CPU. On the receive side a *virtual queue* per class measures its load and advertises
a rate, which travels back to the senders in small feedback packets and becomes the rate of their
destination limiters. This project models those parts and proves what they promise: what is sent
never exceeds what was earned, packets keep their order, no packet is stranded, no queue goes
unserviced and on one CPU none that can pay goes unsent, the control loops converge, a limiter's rate
can always be traced to what a destination said, to its own exactly when no other shares its hash
bucket, and the books the configuration calls keep stay straight.

## How it is organised

| file | about |
|---|---|
| `params.dfy`, `arithmetic.dfy`, `sums.dfy`, `lists.dfy` | constants of params.c and params.h at their shipped values; products and quotients; sums and rounded shares; searches |
| `limiter.dfy`, `queue_bounds.dfy` | one rate limiter as a value, and what one enqueue or dequeue does |
| `limiter_ops.dfy`, `envelope.dfy` | the limiter's elementary actions in any interleaving; tokens, hoards, byte counts |
| `machine.dfy` | the transmit side of a device: all limiters, active lists, timers, tasklets; one step per softirq |
| `machine_envelope.dfy`, `headroom.dfy`, `machine_fifo.dfy`, `flows.dfy`, `device_burst.dfy`, `schedule.dfy`, `counters.dfy` | theorems over every run of that machine |
| `progress.dfy`, `machine_progress.dfy` | when a serviced queue sends its head, and on one CPU by when |
| `limiter_laws.dfy`, `machine_laws.dfy`, `tasklet_exact.dfy` | what a refill, an enqueue, a dequeue, a transmission and a tasklet run do, exactly and in numbers |
| `limiter_objects.dfy`, `tx_path.dfy` | the same limiters, control blocks and list walk as objects changed in place, proved to be those steps |
| `rcp.dfy`, `ewma.dfy`, `sampling.dfy` | the rate control law and its three machine forms, the congestion average, sampled rates |
| `vq.dfy`, `rx_context.dfy`, `tx_context.dfy`, `vq_shares.dfy` | receive and transmit contexts, virtual queues, weights and shares |
| `vq_laws.dfy`, `tx_laws.dfy`, `share_laws.dfy` | caps, loads, lent bandwidth and configuration calls, exactly and in numbers |
| `sampled_machine.dfy`, `sampled_bounds.dfy` | the transmit context sampling the machine, and why no sample overflows |
| `rc.dfy`, `rc_laws.dfy` | the per-destination rate controller, and each of its steps in numbers |
| `feedback.dfy`, `provenance.dfy`, `provenance_limits.dfy`, `receive_laws.dfy` | feedback packets, all hosts over a lossy network, runs that show how far provenance goes, and what one frame does |
| `state_tables.dfy`, `vq_refs.dfy`, `ref_laws.dfy` | free lists, tables, reference counts, teardown |

Operations that change state in place are classes. Each method's contract equates the new state with a
function of the old one, and the theorems are lemmas about those functions, by induction over runs.

## Modelling choices

- A softirq or critical section is one step; `spin_trylock` succeeds or fails as the environment
  pleases, and the time between two clock readings is arbitrary. Where the code reads a value before
  taking a lock and again under it, the first reading is a parameter.
- The clock is in nanoseconds and never runs backwards; `ktime_us_delta` truncates to microseconds.
- 16-, 32- and 64-bit arithmetic is written out where it can matter: the three forms of the control
  law, sampled rates, the 32-bit product in the burst cap, the 16-bit rate field, C `int` conversions.
  Token counts are unbounded; at the rates the code allows, 64 bits last for centuries.
- Queues carry the packets they ever accepted and let go, control blocks what they transmitted, and
  limiters how often they segmented a buffer. These histories exist only to state properties.
- `skb_gso_segment` is an arbitrary function from a packet to segments, `skb_xmit` appends to a
  sequence, hash functions are arbitrary or do not appear, and addresses are compared in wire order.
- The walk over a bucket of per-destination states leaves its loop variable at the last entry when no
  address matches, so it reports a miss only for an empty bucket. `Provenance` models that walk, with the
  hash as an arbitrary function; `StateTables` assumes less, namely that a walk may report any state and
  misses only when none has the address.
- Feedback frames once sent may arrive never, once or many times, in any order.

## Where the code differs from its own words, and properties that fail

- `set_txc_weight` and `set_vq_weight` say the weight must lie in [1, 1024] but take 0. A virtual queue
  of weight 0 makes the drain divide by zero (`EntitledPositive` says exactly when). When all weights
  are 0 no shares are recomputed; uncapped virtual queues can then hold twice the drain rate
  (`WeightlessOvercommits`), and never more than the drain rate otherwise (`RunFair`).
- `set_txc_rate` says the rate must lie in [1, 9800] but takes 0 to 1024.
- The control law wraps when the measured load passes three times the capacity: `TxFormExact`,
  `RxFormExact` and `VqFormExact` say exactly when each form agrees with the law. Only the virtual
  queue clamps its load, and only when some packet was marked.
- A deleted class leaves the hash table but not the class list, so listed weights and the total agree
  if and only if the deleted weights were 0 (`ListedWeights`). The guarantees of the classes that can
  still be found are unaffected (`RunGuaranteed`).
- A deleted virtual queue leaves the list but not its bucket: lookups of its class dangle from then on
  (`LookupStays`).
- Because of the bucket walk described above, a bucket never holds more than one state, and feedback
  from any other destination that hashes there sets that one state's limiter, which that destination's
  packets then pass too (`CollisionMisleads`). A limiter's rate is
  always traced to its own destination if and only if no two of the addresses heard share a bucket
  (`OwnExactlyWhenSeparate`); otherwise it is traced to some destination of the bucket (`RunSound`).
- An advertised rate of 65536 or more does not fit the 16-bit field (`Steering`). Limiter rates stay in
  [2, max(initial, weight * drain)] on every run if and only if the highest one fits
  (`InRangeExactlyWhenFits`).
- The rate controller needs marks of at most 512; above that the 64-bit product wraps
  (`DecreaseValid`).
- Sampled rates are exact to one bit per microsecond if and only if the quotient fits 32 bits
  (`OneSample`).
- The burst bound C + N * (C + L - 1) + R * time / 8 holds when time is counted from the last refill
  before the window (`BurstBounded`). In clock time it does not: the first refill after an idle spell may
  bring one more full pool at once (`OnePoolIsNotEnough`), and one more is all it can bring
  (`ClockBurst`, `LifetimeBurst`).
- A borrow takes the whole pool. With several CPUs a queue that is serviced again and again, each time
  after a refill, may therefore never send (`TwoCpusStarve`). With one CPU what is saved for a head is
  never lost (`SavingsKept`), and the head is sent exactly when it is covered (`SentExactlyWhenSaved`).
- `first_pkt_size` is the size of the head as last looked at, 0 at first. A queue whose head has not been
  looked at may have to be serviced twice before it borrows (`ServeRootSends`).
- On the split path segments that find the queue full are freed one by one while the call reports success:
  `SplitExactly` says which.
- An exhausted free list yields a pointer to the list head, not NULL (`GetPaired` says exactly when).
- The receive statistics overwrite the packet total instead of adding, the feedback counter mixes
  packets and bytes, and the borrow amount is computed and then replaced by the whole pool. All three
  are modelled as the code has them.

## Model

| member | source | states |
|---|---|---|
| `QueueBounds.TakenWholeOrRefused` | rl.c:191-212 | below the split threshold a packet is queued whole exactly when it fits, otherwise dropped with only the clock advanced; trimming is unreachable |
| `QueueBounds.SpaceMeansNoDrop` | rl.c:244-249 | a class limiter never drops a packet that `iso_rl_has_space_for` admitted |
| `QueueBounds.OvershootBelowOneSegment` | rl.c:191-237 | one enqueue, whatever path the packet takes, keeps `bytes_enqueued` less than one segment above the limit |
| `QueueBounds.DrainRootWork` | rl.c:280-310 | a class limiter's send loop sends at most 2 * MIN_BURST_BYTES, returns bytes sent plus the head left, and wants service again exactly when packets remain |
| `QueueBounds.DrainChildWork` | rl.c:280-310 | the same for a destination limiter, whatever the class limiter does with the packets |
| `QueueBounds.DrainRootPrefix` | rl.c:280-310 | the send loop removes a prefix of the list and accounts for it in every counter |
| `QueueBounds.DrainChildPrefix` | rl.c:280-310 | the same when the packets go to the class limiter |
| `QueueBounds.ServeRootWork` | rl.c:252-334 | a whole dequeue of a class queue: prefix taken, work bound, returned sum, who is left to service, other CPUs untouched |
| `QueueBounds.ServeChildWork` | rl.c:252-334 | the same for a destination queue |
| `LimiterLaws.RefillSlows` | rl.c:154-179 | a refill happens only 21 us or more after the last; it halves the rate, down to 2, exactly when feedback is more than a second old, and first drops a rate above 2500 to 2500 after 1000 s without a refill |
| `LimiterLaws.RefillFills` | rl.c:172-176 | the pool keeps all it had and all it earned, up to 150 us of the rate or 64 KB, whichever is more |
| `LimiterLaws.IdleFillsExactly` | rl.c:172-176 | left alone for 150 us or more, a limiter holds exactly 150 us of its rate, if that is at least 64 KB |
| `LimiterLaws.FreshRateHolds` | rl.c:165-170 | a rate set by feedback stands for a second, whatever the limiter does meanwhile |
| `LimiterLaws.WholeExactly` | rl.c:191-212 | above 1000 Mb/s or up to 10000 bytes: refused exactly past 128 KB, otherwise queued whole, and the class limiter sets the codepoint exactly past 100 KB |
| `LimiterLaws.SegmentsKept` | rl.c:227-236 | the segment loop keeps, in order, the longest prefix of which each segment found the queue below 128 KB |
| `LimiterLaws.SplitExactly` | rl.c:213-237 | at up to 1000 Mb/s and above 10000 bytes: an error leaves the queue alone; otherwise it gains exactly those segments, under the buffer's flow |
| `LimiterLaws.DrainRootExactly` | rl.c:280-310 | the class limiter's loop sends packet after packet until one is not covered by the tokens or by 128 KB |
| `LimiterLaws.DrainChildExactly` | rl.c:280-310 | a destination's loop hands on packet after packet until one is not covered or would not leave the class queue below 128 KB, and the class limiter is what those hand-overs make of it |
| `LimiterLaws.ServeRootExactly` | rl.c:252-318 | a whole dequeue of a class queue: it sends the longest prefix its purse and 128 KB cover, pays for it, empties the pool exactly if it had to borrow, and measures the head left |
| `LimiterLaws.ServeChildExactly` | rl.c:252-318 | the same for a destination queue, each packet finding room in the class queue |
| `LimiterOps.EnqueuedOps` | rl.c:181-242 | an enqueue is a sequence of elementary actions, and sets no rate, queues no packet and refills at no time outside the given bounds |
| `LimiterOps.DrainRootOps` | rl.c:280-310 | so is a class limiter's send loop |
| `LimiterOps.DrainChildSelfOps` | rl.c:280-310 | so is a destination limiter's, on itself |
| `LimiterOps.DrainChildRootOps` | rl.c:289-300 | and on its class limiter |
| `LimiterOps.ServeRootOps` | rl.c:252-334 | so is a whole dequeue of a class queue |
| `LimiterOps.ServeChildOps` | rl.c:252-334 | so is a whole dequeue of a destination queue, on both limiters |
| `Envelope.OpConserves` | rl.c:154-179 | only a refill creates tokens, at most rate * time / 8; everything else moves them between pool, hoards and the wire |
| `Envelope.FundsConserved` | rl.c:154-366 | over any interleaving on any CPUs, pool + hoards + bytes sent is at most the start plus the sum of floor(rate * us / 8) |
| `Envelope.EarnedEnvelope` | rl.c:162-178 | if rates stay at or below R, refills earn at most R * elapsed / 8 |
| `Envelope.WindowEnvelope` | rl.c:154-366 | bytes sent fit what was pooled and hoarded at the start plus R * time / 8, the time counted from the last refill before the start |
| `Envelope.EnvelopeSinceInit` | rl.c:86-121 | since creation, sent + hoarded + pooled is at most 15000 + R * elapsed / 8 |
| `Envelope.OpKeepsBounded` | rl.c:265-269 | a queue borrows only when it cannot pay for one packet, so each hoard stays within one pool plus one packet less a byte |
| `Envelope.HoardsBounded` | rl.c:172-366 | so it does over any interleaving |
| `Envelope.BurstBounded` | rl.c:172-359 | N CPUs send at most C + N * (C + L - 1) + R * time / 8, the time counted from the last refill before the first action |
| `Envelope.ClockEnvelope` | rl.c:172-176 | in clock time: if no refill is before t0, pool + hoards + bytes sent grow by at most one full pool plus R * (time since t0) / 8, however long the limiter was idle before |
| `Envelope.ClockBurst` | rl.c:172-359 | in any window of clock time N CPUs send at most 2C + N * (C + L - 1) + R * window / 8 |
| `Envelope.OnePoolIsNotEnough` | rl.c:172-359 | a window of no length in which one CPU sends more than C + (C + L - 1), so the second C is needed |
| `Envelope.NeverSplits` | rl.c:213-237 | buffers of at most GSO_MIN_SPLIT_BYTES are never segmented |
| `Envelope.BooksKept` | rl.c:202-310 | any interleaving keeps each queue in order and both byte counters exact; `bytes_enqueued` never underflows |
| `Machine.DequeueFrame` | rl.c:252-334 | a dequeue touches its own limiter, its class limiter and its CPU's control block, and extends the active list only at its tail |
| `Machine.SweepFrame` | rl.c:68-78 | the tasklet's loop keeps the machine well formed and leaves other CPUs alone |
| `Machine.StepFrame` | rl.c:48-366 | every step keeps the machine well formed, forgets no limiter and never turns the clock back |
| `MachineEnvelope.StepOps` | rl.c:48-366 | every step of the machine acts on each limiter as a sequence of elementary actions within the given bounds on rates, packets and refill times |
| `MachineEnvelope.RunOps` | rl.c:48-366 | so does every run, and none of those actions is a refill before the clock at its start |
| `MachineEnvelope.RunKeepsBounded` | rl.c:172-359 | hoards, pools and packet sizes stay bounded on every run |
| `MachineEnvelope.RunEnvelope` | rl.c:154-366 | rate envelope and burst bound of every limiter over every run, the time counted from the limiter's last refill before the run to its last refill in it |
| `MachineEnvelope.LifetimeEnvelope` | rl.c:86-366 | and from its creation up to the last refill: 15000 + R * elapsed / 8 |
| `MachineEnvelope.RunKeepsBooks` | rl.c:202-310 | every queue's order and counters on every run, whatever is segmented |
| `Headroom.StepRoomy` | rl.c:181-318 | every step keeps every queue less than one segment above its limit and every refill in the past |
| `Headroom.RunOvershoot` | rl.c:191-237 | on every run from boot, every queue of every limiter and CPU stays less than one segment above its limit |
| `Headroom.RunOnTime` | rl.c:161-178 | on every run from boot no limiter was last refilled in the future |
| `Headroom.EnvelopeToNow` | rl.c:86-366 | on every run from boot, what a limiter has sent, hoarded and pooled is by now at most 15000 + R * microseconds since its creation / 8 |
| `Headroom.RunBurst` | rl.c:154-366 | in clock time, from any state whose refills lie in the past: until the clock reads t' each limiter sends at most 2C + N * (C + L - 1) + R * (t' - t) / 8 |
| `Headroom.LifetimeBurst` | rl.c:154-366 | the same between any two moments of any run from boot |
| `DeviceBurst.NewcomerBound` | rl.c:86-366 | a limiter created during a run has sent at most 15000 + R * (t' - t) / 8 by its end |
| `DeviceBurst.DeviceIsRoots` | rl.c:281-288 | summed over the CPUs, the device's bytes are the class limiters' bytes, whatever was segmented |
| `DeviceBurst.DeviceWindow` | rl.c:154-366 | in any window of clock time the device sends at most k * (2C + N * (C + L - 1) + R * window / 8) with k class limiters at its end, old and new |
| `DeviceBurst.LifetimeDeviceWindow` | rl.c:154-366 | the same between any two moments of any run from boot |
| `MachineFifo.EnqueueFeeds` | rl.c:181-242 | an enqueue adds packets of that packet's flow, to that CPU's queue only |
| `MachineFifo.RootTakes` | rl.c:291-296 | the class limiter takes an admitted packet whole or segments it |
| `MachineFifo.DrainChildFeeds` | rl.c:280-310 | a destination's send loop hands the class queue exactly the packets it let go, in order |
| `MachineFifo.StepKeepsLinks` | rl.c:181-318 | every step keeps wire, class queues and destination queues linked flow by flow |
| `MachineFifo.RunKeepsLinks` | rl.c:181-318 | so does every run |
| `MachineFifo.TwoLevelFifo` | rl.c:181-318 | per CPU and destination: wire, then class queue, then destination queue is exactly what was accepted, in order, unless the class limiter segmented a buffer |
| `MachineFifo.RunTwoLevelFifo` | rl.c:181-318 | the same after every run from boot |
| `MachineFifo.RunNeverSplits` | rl.c:213-237 | with buffers of at most GSO_MIN_SPLIT_BYTES no limiter segments, on any run |
| `MachineFifo.QueueLedger` | rl.c:202-204 | each queue: `bytes_enqueued` is the size of its list, accepted = sent + queued |
| `MachineFifo.ClassLedger` | rl.c:289-300 | per CPU, what a class's destination queues sent is what the class queue sent plus holds |
| `MachineFifo.DeviceLedger` | rl.c:281-288 | per CPU, `tx_bytes` is the sum of what the class queues sent |
| `MachineFifo.LifetimeLedgers` | rl.c:281-300 | the three ledgers after every run from boot; the class ledger while the class limiter has not segmented |
| `MachineFifo.SmallBuffersFifo` | rl.c:181-318 | with buffers of at most GSO_MIN_SPLIT_BYTES the FIFO law and the class ledger hold after every run from boot, unconditionally |
| `Schedule.DequeueSettles` | rl.c:320-331 | a dequeue leaves every non-empty queue of its CPU listed, even one that was not before |
| `Schedule.ServiceSettles` | rl.c:75-77 | so does a turn of the tasklet |
| `Schedule.SweepSettles` | rl.c:68-78 | so does its whole loop |
| `Schedule.StepStaysAwake` | rl.c:48-342 | while not exiting, every step leaves every non-empty queue on its active list exactly once, and every non-empty active list with a timer armed or a tasklet pending |
| `Schedule.RunStaysAwake` | rl.c:48-342 | no packet is stranded on any run |
| `Schedule.SweepMovesUp` | rl.c:68-78 | the loop services a prefix of the list as it found it, and what it does not reach moves up by exactly that many places |
| `Schedule.TaskletServicesPrefix` | rl.c:48-84 | a tasklet run services the head, at most 250 queues, in list order |
| `Schedule.FirstTurnHappens` | rl.c:66-73 | the wrap-around test never stops the first turn |
| `Schedule.PositionKept` | rl.c:48-84 | nothing but the CPU's own tasklet moves a listed queue |
| `Schedule.NoStarvation` | rl.c:48-84 | a queue at position p is serviced within p + 1 tasklet runs of its CPU, whatever else happens |
| `Schedule.WaitingIsServiced` | rl.c:48-84 | a queue holding a packet is serviced within as many tasklet runs as its CPU's list is long |
| `Schedule.LifetimeAwake` | rl.c:48-342 | after any run from boot, a queue holding a packet is on its active list exactly once and its CPU is about to be woken |
| `Schedule.LifetimeServiced` | rl.c:48-84 | from any point of any run from boot it is serviced within as many tasklet runs as the list is long |
| `TaskletExact.SweepExactly` | rl.c:68-78 | the walk is turn after turn up to the first point at which 250 are done, more than 128 KB were sent, the next but one entry is the first, or the last entry had no successor |
| `TaskletExact.TaskletStopsExactly` | rl.c:48-84 | a run that services fewer than the list is long has done 250 turns, or sent more than 128 KB, or has one left with the first listed again right behind it; and it goes on as long as none of the three is so |
| `MachineLaws.RootDequeueExactly` | rl.c:252-334 | a class dequeue returns bytes sent plus the head left, lists its queue again exactly if packets are left or the lock was lost, and arms the timer exactly then |
| `MachineLaws.DestDequeueExactly` | rl.c:252-334 | a destination dequeue that is not blocked serves the class queue in the same call, after the hand-over; both are listed as they need, the class first |
| `MachineLaws.TurnHandsOn` | rl.c:75-77 | a turn on a destination queue hands the head on exactly when it is affordable after the refill and leaves the class queue below 128 KB |
| `MachineLaws.PaidHeadIsHandedOn` | rl.c:48-366 | on one CPU, once a destination's tokens cover its measured head, then whatever happens the next turn with that room hands it on |
| `MachineLaws.TxServes` | tx.c:221-229 | a transmission serves the destination's queue in the same call, whatever was waiting: its head is handed on exactly when affordable and the class queue stays below 128 KB |
| `MachineLaws.CutThrough` | tx.c:221-229 | a packet of up to 10000 bytes that finds both queues idle with tokens enough is on the wire when the call returns |
| `MachineLaws.OutsideExactly` | rl.c:86-121 | a tick sets a rate and no clock, feedback the rate and its time, a created limiter has 5000 Mb/s, 15000 tokens and empty queues, a running timer hands over to the tasklet |
| `Progress.ServeRootSends` | rl.c:252-318 | a service of a class queue sends the head exactly when it is at most 2 * MIN_BURST_BYTES and covered by the tokens, or by tokens and pool if they are below the measured size and the lock is won; otherwise nothing leaves, no token is lost and the head is measured unless the lock was lost |
| `Progress.ServeChildSends` | rl.c:252-318 | the same for a destination queue, exactly when moreover the class queue stays below 128 KB with the head |
| `Progress.SavingsKept` | rl.c:154-366 | on one CPU, whatever happens while a head of at most MIN_BURST_BYTES waits, pool and hoard grow by all that is earned until they cover it |
| `Progress.SentExactlyWhenSaved` | rl.c:252-366 | on one CPU, after any actions, a service with the lock leaves a measured head of at most MIN_BURST_BYTES sent if and only if the tokens at hand at the start plus all that was earned cover it |
| `Progress.TwoCpusStarve` | rl.c:344-366 | on two CPUs, for every n, a queue that is serviced with the lock after each of n refills to a full pool and never sends |
| `MachineProgress.TurnSends` | rl.c:75-77 | on any number of CPUs a turn of the tasklet sends a class queue's head exactly when the queue can afford it after the refill |
| `MachineProgress.SweepSendsRipe` | rl.c:68-78 | on one CPU a tasklet walk that reaches a queue whose head is covered sends the head, or measures it if it was not |
| `MachineProgress.ServicedSendsRipe` | rl.c:48-84 | so does any run that services the queue |
| `MachineProgress.PaidHeadIsSent` | rl.c:48-366 | on one CPU, once tokens and pool cover a class queue's head, it is sent within as many tasklet runs as the list is long if measured, and within two such rounds in any case, whatever else happens |
| `MachineProgress.LifetimePaidHeadIsSent` | rl.c:48-366 | the same from any point of any run from boot |
| `Counters.LimiterTotalGrows` | rl.h:154-168 | the total `iso_rl_accum` reads never decreases on any run |
| `Counters.LimiterCountersGrow` | rl.c:287 | no CPU's `bytes_xmit` of any limiter ever decreases |
| `Counters.DeviceCountersGrow` | tx.c:79-89 | nor do the counters `iso_txctx_accum` adds up |
| `LimiterObjects.ControlBlock.Reschedule` | rl.c:320-331 | lists the queue at the tail unless already listed and arms the timer, never while exiting; the step `Schedule` reasons about |
| `LimiterObjects.ControlBlock.Xmit` | rl.c:284-288 | one packet more on the wire and in `tx_bytes`, nothing else changed; the step the device ledger counts |
| `LimiterObjects.RateLimiter.Clock` | rl.c:154-179 | the in-place refill, idle cap and halving equal the refill that `Envelope` and `Provenance` reason about |
| `LimiterObjects.RateLimiter.Enqueue` | rl.c:181-242 | state and verdict of the in-place enqueue, in all four outcomes, equal the one `QueueBounds` reasons about |
| `LimiterObjects.RateLimiter.QueueSegments` | rl.c:227-236 | the loop queues exactly the segments that start below the limit, in order |
| `LimiterObjects.RateLimiter.BorrowTokens` | rl.c:344-366 | fails exactly when the lock is lost; otherwise the whole pool moves to the queue |
| `LimiterObjects.RateLimiter.DrainToWire` | rl.c:280-310 | the in-place loop sends, pays for and counts the same packets as the send loop whose work and order are proved |
| `LimiterObjects.RateLimiter.DrainToParent` | rl.c:280-310 | the same into the class limiter, with both limiters changed at once |
| `LimiterObjects.RateLimiter.Dequeue` | rl.c:252-334 | the recursive dequeue: it terminates at depth two and is the specified step |
| `TxPathObjects.TxPath.DequeueQueue` | rl.c:252-334 | a dequeue on the heap of all limiters is the machine's dequeue |
| `TxPathObjects.TxPath.Transmit` | tx.c:221-229 | enqueue then dequeue on the heap is the machine's transmit step, and the verdict is the enqueue's |
| `TxPathObjects.TxPath.TimerFires` | rl.c:337-342 | on the heap the timer hands over to the tasklet exactly as in the machine |
| `TxPathObjects.TxPath.Turn` | rl.c:68-78 | servicing the current entry leaves the safe walk's saved successor the new head |
| `TxPathObjects.TxPath.WalkActiveList` | rl.c:68-78 | the `list_for_each_entry_safe` walk, although its body unlinks and re-appends, is the specified sweep |
| `TxPathObjects.TxPath.XmitTasklet` | rl.c:48-84 | the whole tasklet is the machine's tasklet run |
| `Rcp.TxFormExact` | tx.c:119-122 | for every 32-bit load and links up to 37837 Mb/s the 32-bit form computes the law at every rate if and only if the load is at most three times the link |
| `Rcp.TxFormLimitIsTight` | tx.c:120 | at 37838 Mb/s it already overflows |
| `Rcp.RxFormExact` | rx.c:124-129 | for every 32-bit load the mixed-width form computes the law if and only if the load is at most three times the drain rate; up to half the range an overload gets the full rate instead of the lowest |
| `Rcp.VqFormExact` | vq.c:229-233 | for every int load, negative ones included, the 64-bit form computes the law if and only if the load is at most three times the capacity or the capacity is at the floor |
| `Rcp.ExcessHalves` | vq.c:229-233 | with n obeying senders one step at least halves the excess over capacity |
| `Rcp.ClimbIsSafe` | vq.c:229-233 | at or below capacity a step never lowers the rate and never overshoots |
| `Rcp.StopsInBand` | vq.c:229-233 | the climb stops exactly when r * (C - n * r) < 2C |
| `Rcp.BandIsBusy` | vq.c:229-233 | there more than four fifths of the capacity is used |
| `Rcp.ExcessVanishes` | vq.c:229-233 | k steps shrink the excess by 2^k |
| `Rcp.ClimbSettles` | vq.c:229-233 | the climb reaches a fixed point in the band and stays |
| `Rcp.Converges` | vq.c:229-233 | from any load up to 3C the iteration ends in the band: no overshoot, at least 80% use, a fixed point |
| `Rcp.FormsFollowTheLaw` | tx.c:119-122 | along that whole trajectory all three machine forms compute the law |
| `Ewma.Fraction` | vq.c:217-220 | the marked fraction is at most 1024, even when the counts race |
| `Ewma.FractionExact` | vq.c:217-220 | below four million packets it is exactly the marked 1024ths, rounded down |
| `Ewma.AverageInRange` | vq.c:215-221 | the estimate stays in [0, 1024] on every run of counts |
| `Ewma.OneStep` | vq.h:34-36 | one step is the 15:1 average rounded down: it moves towards f, never past it, and rests exactly within 15 below |
| `Ewma.HeldSettles` | vq.c:215-221 | under a constant fraction f it reaches [f - 15, f] in at most the initial distance, f exactly from above |
| `Ewma.RestingBand` | vq.c:215-221 | that band is exactly the set of resting points |
| `Sampling.OneSample` | tx.c:117 | one sample claims no more bits than were counted and misses less than one per microsecond, if and only if it fits 32 bits |
| `Sampling.SamplesConserve` | tx.c:99-128 | so do the samples of any run of ticks together |
| `RxContexts.RcpUpdateLaw` | rx.c:105-134 | the device rate stays in [MIN_RFAIR, drain], moves only with the lock and a millisecond after it last did, and then, for every 32-bit load, follows the law exactly when it is at most three times the drain rate |
| `RxContexts.FullRateStays` | rx.c:105-134 | a device that starts at the drain rate and is never loaded beyond it stays there |
| `RxContexts.StatsExactly` | rx.c:59-103 | a packet adds one and its size to its CPU's counters; with the lock and after 200 us the total is read, and the packet count becomes the last CPU's |
| `RxContexts.AllReceived` | rx.c:59-103 | over any run every byte that arrives is counted |
| `RxContexts.RxSamplesConserve` | rx.c:59-103 | over any run of arrivals in which no sample overflows, the sampled receive rates account for the bytes received |
| `RxContexts.RxContext.constructor` | rx.c:25-49 | counters zero, device rate at the drain rate, both clocks at now |
| `RxContexts.RxContext.StatsUpdate` | rx.c:59-103 | counting a packet and, when due, the per-CPU loop leave the state whose samples conserve bytes |
| `RxContexts.RxContext.RcpUpdate` | rx.c:105-134 | at most one law step per interval and only with the lock; the state whose range is proved |
| `TxContexts.Find` | tx.h:138-154 | the lookup finds a class exactly when one is in the table |
| `TxContexts.ChangeAgrees` | params.c:353-357 | every configuration call keeps the total equal to the weights of the classes that can be found |
| `TxContexts.SharesAddUp` | tx.h:156-174 | exact rounded shares sum to more than MAX - n and at most MAX |
| `TxContexts.ConfigureGuaranteed` | tx.h:156-174 | every configuration call keeps the guarantees |
| `TxContexts.TickGuaranteed` | tx.c:91-141 | so does every tick |
| `TxContexts.RunGuaranteed` | tx.h:156-174 | over every run: total = sum of weights, each guarantee its exact rounded share, together at most the link; without deletions less than 1 Mb/s per class is left over |
| `TxContexts.LifetimeGuaranteed` | tx.c:35-55 | the same for every run from a fresh context |
| `TxContexts.ListedWeights` | params.c:613-616 | listed weights exceed the total by exactly the deleted ones |
| `TxContexts.TickedRates` | tx.c:124-137 | after a tick a class's rate is in [min_rate, MAX], or at most its cap |
| `TxContexts.SmoothStaysBetween` | tx.c:129 | the smoothed rate is the true 15:1 average if and only if the sum fits 32 bits, and then lies between its old value and the sample; every tick leaves it below 2^28, and from there samples of up to 2^28 Mb/s fit |
| `TxContexts.TickFollowsLaw` | tx.c:119-122 | the tick follows the control law up to three times the link, and past that not at every rate it might stand at |
| `TxLaws.TickSetsRates` | tx.c:91-137 | a tick that leaves the device at r lets an uncapped class of weight w send at r * w between its guarantee and the link, at its guarantee below and at the link above; a lower cap holds it down; nothing else configured changes, and a tick that is not due does nothing |
| `TxLaws.IdleBandwidthIsLent` | tx.c:119-133 | while a device at the link's rate measures no more than the link, every uncapped class with a weight may send at the link's rate |
| `TxLaws.InstallExactly` | tx.c:381-406 | refused exactly for a name in use; otherwise one class of weight 1 and no cap more, every guarantee its weight's part of the link, every class sending at it or at a lower cap |
| `TxLaws.SetWeightExactly` | params.c:340-359 | 0 to 1024 sets the weight, moves the total by the difference and recomputes; others refused; no other class's setup changes |
| `TxLaws.SetRateExactly` | params.c:405-429 | 1 to 1024 caps there, 0 lifts the cap, others refused; no other class's setup changes |
| `TxLaws.DeleteExactly` | params.c:607-617 | the class leaves the table, its weight the total, and every rate is recomputed |
| `TxLaws.UnknownChangesNothing` | params.c:340-429 | a call that names no class in the table changes nothing |
| `TxContexts.TxSamplesConserve` | tx.c:99-128 | over any run of ticks and configuration the device's and each class's sampled rates account for the bytes counted, if the counters never fall and no sample overflows |
| `SampledMachine.CounterGrows` | tx.c:79-89 | the counters the ticks read never fall, whatever the machine does in between |
| `SampledMachine.ObservedPlausible` | tx.c:99-128 | so ticks that read the machine always see plausible counters, if no sample overflows |
| `SampledMachine.MachineSamplesConserve` | tx.c:99-128 | if no sample overflows, sampled rates account for the bytes the machine sent between ticks, for every run of both |
| `SampledBounds.CounterWindow` | tx.c:79-89 | in any window of clock time a counter the ticks read grows by at most k bursts of one limiter |
| `SampledBounds.ModestFits` | tx.c:117 | for k class limiters, rates up to R and pauses up to a given length, no such growth overflows a sample |
| `SampledBounds.ObservedFits` | tx.c:99-128 | so along any run no sample overflows |
| `SampledBounds.BoundedSamplesConserve` | tx.c:99-128 | with bounded rates, buffers, classes and pauses, and nothing assumed of the samples, sampled rates account for the bytes the machine sent |
| `SampledBounds.ShippedIsModest` | params.c:15-20 | the bounds admit 64 CPUs and 64 classes at the link's rate with 64 KB buffers and pauses of a hundred days |
| `TxContexts.Accumulate` | tx.c:79-89 | the loop returns the sum of the per-CPU counters the samples are taken from |
| `TxContexts.TxContext.Lookup` | tx.h:138-154 | the search loop finds the class that `Find` specifies |
| `TxContexts.TxContext.RecomputeRates` | tx.h:156-174 | the loop gives every listed class its share, or changes nothing at zero total weight |
| `TxContexts.TxContext.Install` | tx.c:381-406 | succeeds exactly when no such class is found, and reaches a state that keeps every guarantee |
| `TxContexts.TxContext.SetWeight` | params.c:340-359 | succeeds exactly for a found class and a weight in [0, 1024], and keeps the total exact |
| `TxContexts.TxContext.SetRate` | params.c:405-429 | succeeds exactly for a found class and a rate in [0, 1024]; 0 lifts the cap |
| `TxContexts.TxContext.Delete` | params.c:607-617 | succeeds exactly for a found class; it leaves the table and the total but not the list |
| `TxContexts.TxContext.TickClasses` | tx.c:124-137 | the loop samples, smooths and sets every class exactly as the tick whose rates are proved |
| `TxContexts.TxContext.Tick` | tx.c:91-141 | the in-place tick, its per-CPU and class loops included, equals the one the run theorems are about |
| `VqShares.FairFits` | vq.c:60-75 | uncapped queues hold at most the drain rate while any queue has a weight |
| `VqShares.CalculatedShares` | vq.c:60-75 | a recomputation hands out at most the drain rate, and without caps all but less than 1 Mb/s per queue |
| `VqShares.ConfiguredFair` | params.c:484-492 | every configuration call keeps each uncapped queue within its weight's part |
| `VqShares.RunFair` | vq.c:60-75 | so does every run of calls, however long, on which the queues at any one time are too few for their weights to overflow 32 bits |
| `VqShares.LifetimeFair` | vq.c:60-75 | the same from no queue at all |
| `VqShares.WeightlessOvercommits` | vq.c:68 | six calls from no queue at all leave every weight zero and the uncapped queues with twice the drain rate |
| `ShareLaws.InstallExactly` | vq.c:34-53 | refused exactly for a class in use; otherwise one queue of weight 1 and no cap more, and every uncapped queue has its weight's part of the drain rate |
| `ShareLaws.SetWeightExactly` | params.c:484-492 | 0 to 1024 sets the weight and gives all shares anew; others refused |
| `ShareLaws.SetRateExactly` | params.c:547-561 | 1 to 9000 caps that queue and changes nothing else; 0 lifts the cap and gives all shares anew; others refused |
| `ShareLaws.DeleteExactly` | params.c:660-677 | the queue is gone, the others stay as they are |
| `ShareLaws.UnknownChangesNothing` | params.c:484-561 | a call that names no queue changes nothing |
| `VqShares.RxQueues.CalculateRates` | vq.c:60-75 | the two loops hand out exactly the shares whose sum is bounded, or nothing at zero total weight |
| `VqShares.RxQueues.Install` | vq.c:34-53 | a duplicate changes nothing; otherwise one queue of weight 1 is added and all shares recomputed |
| `VqShares.RxQueues.SetWeight` | params.c:484-492 | errors change nothing; otherwise the weight is set and all shares recomputed |
| `VqShares.RxQueues.SetRate` | params.c:547-561 | errors change nothing; a positive rate caps, zero uncaps and recomputes |
| `VirtualQueues.EntitledPositive` | vq.c:197-203 | the divisor is positive exactly when the queue has a weight, and a rate if capped |
| `VirtualQueues.DrainInRange` | vq.c:160-239 | a drain keeps the advertised rate in [MIN_RFAIR, weight * drain] and the estimate in [0, 1024], whatever was counted |
| `VirtualQueues.DrainFollowsLaw` | vq.c:229-233 | for a capacity of weight * device rate, or of the cap if that is lower, it follows the law exactly when the load, as an int, is at most three times the capacity or the capacity is at the floor |
| `VirtualQueues.MarksHoldTheLoad` | vq.c:223-226 | a drain that saw a mark always is in that case |
| `VirtualQueues.RunInRange` | vq.c:123-239 | advertised rate and estimate stay in range on every run |
| `VirtualQueues.MarksReadOnce` | vq.c:138-189 | over any run, however long, on which the marks waiting at any one time fit 32 bits: marks read by drains plus marks waiting are the marks that arrived, none lost, none read twice |
| `VirtualQueues.DrainSamples` | vq.c:209-238 | if the rate fits an int, an unmarked drain's rate accounts for the bytes since the last drain to one bit per microsecond, and the next starts from there |
| `VqLaws.DrainCaps` | vq.c:200-233 | a drain leaves a capped queue advertising at most its cap, or 10 |
| `VqLaws.ArrivalCaps` | vq.c:123-157 | any packet keeps it there, and one that starts a drain brings it there |
| `VqLaws.RunCapped` | vq.c:123-239 | so on any run a cap that is left alone is never exceeded once the queue has drained |
| `VqLaws.MarksRaiseLoad` | vq.c:222-226 | with marks the load is the rate received plus the bottleneck's 45000 bytes, and as many again for the marked fraction, over the interval, but at most three times the capacity |
| `VqLaws.UnmarkedLoad` | vq.c:208-222 | without marks the load is the rate received |
| `VqLaws.EarlyDrain` | vq.c:168-170 | a drain that is not due does nothing |
| `VqLaws.DrainReads` | vq.c:160-239 | a drain reads the load of the bytes and marks since the last, takes one averaging step, and clears what counts from drain to drain and nothing else |
| `VqLaws.DrainsSpaced` | vq.c:146-170 | a packet starts a drain exactly with the lock and more than 200 us after the last, and the next is counted from there |
| `VqLaws.SumsAreTotals` | vq.c:178-189 | the sums a drain reads are the counters' sums on 64 and 32 bits |
| `VqLaws.ArrivalSince` | vq.c:123-157 | what one packet leaves in each CPU's counters, with and without a drain |
| `VqLaws.AllCounted` | vq.c:123-157 | over any run every packet and byte is counted once, whatever is drained in between |
| `VirtualQueues.VirtualQueue.constructor` | vq.c:77-111 | counters zero, weight 1, lowest rate advertised |
| `VirtualQueues.VirtualQueue.Drain` | vq.c:160-239 | the in-place drain equals the one whose range, law and accounting are proved |
| `VirtualQueues.VirtualQueue.Assimilate` | vq.c:178-189 | the loop returns the three sums and leaves exactly the reset counters |
| `VirtualQueues.VirtualQueue.Enqueue` | vq.c:123-157 | counting and, when due, draining equal the step of the run theorems |
| `RateControl.CutBounds` | rc.c:70 | a cut never raises the rate for marks up to 512, and wraps above the link speed beyond |
| `RateControl.DecreaseValid` | rc.c:59-75 | a decrease keeps the controller in range if and only if the mark is at most 512, and remembers the rate before it |
| `RateControl.IncreaseValid` | rc.c:93-107 | an increase always does |
| `RateControl.RunValid` | rc.c:35-122 | over every run with marks at most 512: MIN <= rfair <= target <= MAX, count <= 5, and rfair = target while increasing additively |
| `RateControl.LifetimeValid` | rc.c:9-122 | the same from a fresh controller |
| `RateControl.AdditiveClimb` | rc.c:103-126 | n unmarked packets an increase interval apart raise the rate by n increments, up to the link and no further |
| `RateControl.RecoveryHalvesGap` | rc.c:99-107 | recovery keeps the gap at the first gap over 2^count rounded up |
| `RateControl.RecoveryAfterDecrease` | rc.c:59-107 | a decrease and any unmarked run: still recovering means the gap to the old rate is exactly the first gap over 2^k rounded up, never passed |
| `RateControl.DecreasesAreSpaced` | rc.c:49-73 | for a controller in range: decreases are at least the interval apart, and the rate falls for no other reason than a mark or idleness |
| `RcLaws.CutExactly` | rc.c:70 | a mark of m takes m/512ths of the rate away, rounding the rest down |
| `RcLaws.DecreaseExactly` | rc.c:59-75 | a decrease remembers the rate it starts from, 2500 at most after 1000 s without a change, as target, cuts it but not below 10, and begins a recovery |
| `RcLaws.IncreaseExactly` | rc.c:93-107 | the first five increases after it go half way to the target, any other adds 10 up to the link |
| `RcLaws.ReceivedExactly` | rc.c:35-122 | a packet is always counted; a mark cuts, and a packet without one raises, exactly with the lock and more than 120 us after the last, unless another CPU was first |
| `RcLaws.RecoveryTakesFive` | rc.c:93-107 | n steady packets are n steps of a recovery until five are done, each halving the gap to a target that stays |
| `RcLaws.EndOfRecovery` | rc.c:103-107 | the next one ends the recovery and adds 10 |
| `RcLaws.AllCounted` | rc.c:42-49 | over any run every packet and every mark is counted once |
| `RateControl.RateController.constructor` | rc.c:9-28 | both rates initial, increasing additively, nothing counted |
| `RateControl.RateController.Decrease` | rc.c:59-75 | the in-place decrease equals the one proved to stay in range |
| `RateControl.RateController.Increase` | rc.c:93-107 | the in-place increase equals the one proved to halve the gap |
| `RateControl.RateController.Rx` | rc.c:35-122 | the whole handler equals the step of the run theorems; whoever gets the lock moves the change time, others only count |
| `Feedback.Steering` | rx.h:76-95 | feedback goes back to the station it came from, carries the class and state key of the data it answers, is ECN-capable and no congestion mark, and decodes to the advertised rate if and only if that fits 16 bits |
| `Feedback.Generate` | rx.h:54-109 | the frame built field by field is the one that `Steering` follows; none for a frame that is not IP or without memory |
| `Feedback.GateExactly` | rx.c:199-212 | the gate opens exactly more than 100 us after it last did or once 10000 were counted, and then both start over |
| `Feedback.FeedbackOverhead` | rx.c:199-212 | on one CPU every feedback frame is paid for by more than the interval of time or by the byte count of traffic |
| `Provenance.TickedTraced` | rl.c:163-170 | a refill changes a rate only by the idle cap and one halving, and keeps its trace |
| `Provenance.OverwrittenTraced` | rx.c:172-190 | an overwrite starts the history over from a value advertised by whichever host of the bucket the frame came from |
| `Provenance.StepSound` | rx.c:136-217 | every reception, refill, installation or reconfiguration keeps every rate's provenance |
| `Provenance.RunSound` | rx.c:136-217 | under any loss, duplication and reordering, every limiter's rate is the initial one or a value advertised by a destination of its bucket, through idle caps and halvings only, and no bucket holds two states |
| `Provenance.LifetimeSound` | rx.c:136-217 | the same for every run from no host at all |
| `Provenance.OwnIfAlone` | tx.c:266-273 | a limiter whose bucket no other heard address shares is traced to that very destination |
| `ProvenanceLimits.CollisionMisleads` | tx.c:266-273 | any two addresses in one bucket: a run from no host at all, every device at its initial rate, in which the first one's limiter holds a rate only the second advertised |
| `ProvenanceLimits.OwnExactlyWhenSeparate` | tx.c:266-273 | every rate of every reachable world is traced to its own destination if and only if no two heard addresses share a bucket |
| `Provenance.HalvingsClosedForm` | rl.c:165-170 | k feedback timeouts leave max(2, r >> k) |
| `Provenance.RatesInRange` | rx.c:183 | when advertised rates fit 16 bits, limiter rates stay in [2, max(initial, weight * drain)] |
| `ProvenanceLimits.WideRatesEscape` | rx.h:90 | for every top weight of at least 8, a run from no host at all, queues installed at weight 1 and every device at its initial rate, sets a limiter to rate 1 |
| `ProvenanceLimits.InRangeExactlyWhenFits` | rx.h:90 | every rate of every reachable world stays in [2, max(initial, weight * drain)] if and only if weight * drain fits 16 bits |
| `Provenance.OverwritesSpaced` | rx.c:177-190 | overwrites by feedback are at least the decrease interval apart |
| `Provenance.EchoExactly` | rx.c:170-212 | a feedback frame is dropped and triggers nothing where its bucket has a state, whoever's it is; it is answered exactly when the bucket is empty, no state can be made and the gate is open |
| `ReceiveLaws.OverwriteExactly` | rx.c:172-190 | feedback sets the limiter to its 16 bits exactly when they are not 0, the last change is at least 120 us old and the lock is free, and sets both clocks; tokens and queues stay |
| `ReceiveLaws.FeedbackStands` | rx.c:183-184 | that rate is used by every refill of the next second |
| `ReceiveLaws.NotedExactly` | tx.c:266-273 | of a bucket with states a frame changes at most the first with its address, or the last if none has it; no other bucket or state |
| `ReceiveLaws.MadeExactly` | tx.c:275-300 | in an empty bucket it makes a state exactly if it carries a rate and one can be made, with a limiter at the initial rate |
| `ReceiveLaws.AnsweredExactly` | rx.c:150-216 | feedback that reached a state is dropped; anything else is passed on and answered, with the queue's rate, exactly when it is IP, there is memory and the gate is open |
| `ReceiveLaws.UnknownPasses` | rx.c:150-168 | a frame of an unknown class changes nothing |
| `Provenance.StatesStay` | tx.c:287-300 | a bucket once used stays used, on every run |
| `Provenance.ReceivePath.WalkBucket` | tx.c:266-273 | the walk yields the first match, else the last entry, else none |
| `Provenance.ReceivePath.TakeFeedback` | rx.c:170-190 | walk, creation in an empty bucket and overwrite leave exactly the traced states; reports whether a state was found or made |
| `Provenance.ReceivePath.Answer` | rx.c:199-212 | gate, counters and frame leave exactly the world whose provenance is kept |
| `Provenance.ReceivePath.Rx` | rx.c:150-216 | the whole receive path and its verdict equal the step of the run theorems |
| `StateTables.PickExactly` | tx.c:318-343 | the newest limiter hashed under the address, and nothing moves; otherwise the first spare one; the list head itself when none is spare |
| `StateTables.TakePaired` | tx.c:287-300 | a non-empty state list always supplies a limiter, and taking keeps the tables paired |
| `StateTables.GetPaired` | tx.c:236-310 | a hit is returned; otherwise a state is made exactly with the lock, on request and if there still is none, from the first spare state and the first spare limiter; garbage exactly when there is none left; the pairing is kept |
| `StateTables.PreallocPaired` | tx.c:415-451 | allocation adds exactly the successful iterations to both free lists, keeps the pairing whatever memory runs out, and leaks nothing |
| `StateTables.RunPaired` | tx.c:236-451 | over every run: count = length of both free lists, live states and limiters paired by address, every allocated object on exactly one list |
| `StateTables.LifetimePaired` | tx.c:236-451 | the same from empty tables |
| `StateTables.LimitersDistinct` | tx.c:288-295 | no two live states share a limiter or an address |
| `StateTables.TxcTables.Pick` | tx.c:318-343 | finds the limiter with the address, or takes the first spare one |
| `StateTables.TxcTables.TakeFree` | tx.c:287-300 | takes the first free state with a limiter, or runs off an empty list |
| `StateTables.TxcTables.StateGet` | tx.c:236-310 | the whole lookup keeps the pairing, and asks for more memory exactly when it came to create and at most ten are left |
| `StateTables.TxcTables.Preallocate` | tx.c:415-451 | the loop stops at the first failure and has then given back what that iteration took |
| `StateTables.TxcTables.FreeRls` | tx.c:463-488 | every allocated limiter is freed exactly once and none is left |
| `StateTables.TxcTables.FreeStates` | tx.c:472-493 | every allocated state is freed exactly once and none is left |
| `StateTables.TxcTables.FreeAll` | tx.c:454-501 | every allocated object is freed exactly once and none is left |
| `VqRefs.CallValid` | params.c:289-295 | every configuration call keeps refcnt equal to the number of classes pointing at the queue |
| `VqRefs.RunValid` | params.c:246-685 | so does every run: no queue is freed while referenced |
| `VqRefs.LifetimeValid` | params.c:246-685 | the same from boot, and a teardown at any point leaves no queue |
| `VqRefs.FreeCounted` | vq.c:113-121 | a queue with refcnt zero is one nobody points at |
| `VqRefs.LookupStays` | vq.h:102-114 | a lookup yields an allocated queue if and only if it was never deleted, and never changes |
| `RefLaws.CreateVqExactly` | vq.c:34-53 | refused for a class that has or had a queue; otherwise one unused queue more at the end of the list, which a lookup now finds |
| `RefLaws.CreateTxcExactly` | tx.c:381-406 | refused for a class in use; a new one points nowhere |
| `RefLaws.AssociateExactly` | params.c:276-295 | the class points at the queue and no other pointer changes; unknown names change nothing |
| `RefLaws.DeleteTxcExactly` | params.c:607-617 | the class is gone, the others stay |
| `RefLaws.DeleteVqExactly` | params.c:660-677 | refused while a class points there; otherwise exactly that queue is freed and unlisted, and its bucket entry stays |
| `VqRefs.TeardownFreesAll` | qdisc.c:75-79 | transmit then receive frees and unlists every queue |
| `VqRefs.ReverseTeardownLeaks` | vq.c:27-32 | the other order would leave exactly the referenced ones |
| `VqRefs.VqTable.Find` | vq.h:102-114 | the bucket walk yields the newest entry of the class |
| `VqRefs.VqTable.InstallVq` | vq.c:34-53 | a duplicate changes nothing; a new queue starts unreferenced, every count stays exact |
| `VqRefs.VqTable.ReleaseTxc` | tx.c:495-497 | deleting a class lowers its queue's count and keeps every count exact |
| `VqRefs.VqTable.AssociateTxcVq` | params.c:276-295 | errors change nothing; otherwise one count falls, one rises, and every count stays exact |
| `VqRefs.VqTable.FreeVq` | vq.c:113-121 | frees and unlists exactly an unreferenced queue |
| `VqRefs.VqTable.DeleteVq` | params.c:660-677 | succeeds exactly when the queue is gone afterwards; refused while referenced, every count stays exact |
| `VqRefs.VqTable.ExitTx` | tx.c:57-73 | the loop lets go of every class's queue |
| `VqRefs.VqTable.ExitVqs` | vq.c:27-32 | the loop unlists and frees exactly the unreferenced queues |
| `VqRefs.VqTable.Destroy` | qdisc.c:75-79 | after a teardown no queue is left |

## Left out

- qdisc.c, direct.c, bridge.c, main.c: kernel hooks and driver transmission; only the teardown order matters here.
- stats.c and the `*_show` functions: printing.
- String parsing in params.c and class.h: only the state changes after parsing are modelled.
- The DEV, ETHER_SRC, MARK and L4PORT classifications: the Makefile builds IPADDR.
- `iso_rc_do_md`, `iso_rc_do_alpha`, the ECN2 block, `feedback_backlog` and `avg_us`: unused or only printed.
- Weak memory, RCU grace periods and unlocked counter races: steps are atomic.
- Use of a class after it is freed: a deleted class's list entry is modelled as it was.
- Non-IP frames in the transmit path, packets of unknown classes and packets without a state: they bypass the limiters.
- Clearing the ECN bits of a received packet: it changes nothing else that is modelled.
- The 32-bit overflow of a class's total weight, which takes two million classes.
- MachineFifo.TwoLevelFifo: says nothing once the class limiter has segmented a buffer, because segments are not the packets that were accepted.
- MachineFifo.ClassLedger: the same, because segmentation replicates headers.
- VirtualQueues.VirtualQueue.Drain: requires a positive entitlement, because the source divides by it.
- Provenance.ReceivePath.Rx: takes the device-wide counters of RxContexts as a given device rate of at most the drain rate; the runs in ProvenanceLimits use only its initial value.
- MachineProgress.PaidHeadIsSent: for class limiters on one CPU; a destination's head also needs room in the class queue (MachineLaws.PaidHeadIsHandedOn), and on more CPUs the property fails (Progress.TwoCpusStarve).
- SampledBounds.BoundedSamplesConserve: bounds on rates, buffers, classes and pauses are sufficient, not necessary; what is exact is Sampling.OneSample.
- RxContexts.RxSamplesConserve: what a network can deliver between two samples is not bounded, so that no sample overflows is assumed.
- Provenance.ReceivePath.TakeFeedback: a state either can be made or cannot; the garbage pointer of an exhausted free list is left to StateTables.GetPaired.
- VqRefs.CallValid: calls name no class whose queue was deleted, because the source would follow a dangling pointer.

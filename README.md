# MediaTek Bluetooth SDIO driver core, modelled in Dafny

This project models the core of `btmtk_main.c`, the bus-independent part of
the MediaTek Bluetooth-over-SDIO driver:

- **the frame encoder** `btmtk_tx_pkt`. It checks an outbound socket buffer,
  clears the shared scratch buffer `txbuf`, writes the 5-byte SDIO header
  (16-bit little-endian total length, two zero bytes, the HCI packet type),
  copies the payload after it, and hands `len + 5` bytes to the transport's
  `hw_host_to_card` callback.
- **the interrupt notification** `btmtk_interrupt`. It marks the device awake,
  forgets wakeup retries and counts one more pending interrupt.
- **the service thread** `btmtk_service_main_thread`:
  - its bounded wait for the bus probe;
  - the body of its `for (;;)` loop. Each pass checks for a stop request,
    decides whether to sleep, and checks for a stop again. It then claims the
    bus with `DRIVER_OWN` and takes either the interrupt branch or the
    sleep-deferral branch. Next come the transmit checks and at most one
    dequeue and transmit. It hands the bus back with `FW_OWN` when the queue
    is empty.
- **card removal** `btmtk_remove_card`. It stops the thread only when the task
  exists and its `thread_status` flag is set, then purges the queue.

Modules:

- `Frame` (`frame.dfy`) holds the frame layout as functions (`Encode`,
  `Decode`) and the encoder as a method, `TxPkt`. `TxPkt` fills an `array` in
  place with the source's `memset` and `memcpy` loops.
- `Worker` (`worker.dfy`) states one loop pass on values, in the branch order
  of the code:
  - `AdapterState` holds the adapter fields, the transmit-ready flag, the
    thread status flag, the stop request, the scratch buffer, and a trace of
    the calls made into the transport.
  - `Cycle` maps that state and the cycle's `Inputs` to the next state and how
    the pass ended. The inputs are what other contexts did (a `Window`) and
    the results the transport callbacks returned.
  - `Run` iterates `Cycle` for as long as the thread runs.
- `CycleProperties` (`cycle_props.dfy`) proves the guarantees of one cycle and
  of a run. These cover:
  - first-in-first-out drain, one packet per cycle, always the head;
  - the ownership discipline;
  - the interrupt and deferral branches excluding each other;
  - termination on a failed ownership request or a stop request.
- `Scenarios` (`scenarios.dfy`) works out whole behaviours with concrete
  traces: interrupt coalescing, a burst queued while the device sleeps, and a
  failed claim.
- `Driver` (`driver.dfy`) holds the imperative side. It has the probe wait as a
  loop, and `class Adapter` whose fields the interrupt path, the thread and
  card removal update in place. `Interrupt`, `Step`, `Dispatching` and
  `Transmitting` are each proved to have exactly the effect of the
  value-level function they implement (`Notify`, `Cycle`, `Dispatch`,
  `Drain`); the probe wait, `StartWorker` and `RemoveCard` carry direct
  contracts on the object's old and new state.

Concurrency is reduced to a sequential model. Everything that other contexts
(the interrupt handler, the upper layer queuing packets, card removal) do
between the thread's sleep decision (line 226) and its resumption (line 238)
is one `Window` per cycle:

- a number of interrupt notifications;
- the packets queued;
- whether a stop was requested.

The window's interrupts are proved to be exactly that many calls of the
interrupt notification (`Worker.WindowIsNotifications`,
`Driver.Adapter.Step`). The code never re-checks the wait condition after
`schedule()`. A wake-up is therefore always followed by the rest of the pass,
and so is a spurious one. The model follows this.

Behaviour of the code that the model follows, and that a reader might not
expect:

- after the interrupt branch (lines 250-254), the pass goes on to the transmit
  checks at line 266 in the same cycle. It does not go back to the top.
- `DRIVER_OWN` is requested on every pass that gets past the stop checks
  (line 243), not once per burst of packets.
- `FW_OWN` is requested on every pass that passes the transmit checks and
  sees the queue empty (line 297). That includes passes that only handled
  interrupts, so requests and releases are not paired one to one per burst.
- when the probe never becomes ready, the thread returns without entering
  its loop (line 174). Card addition does not see this: it still succeeds.
- a transmit error is ignored, and the packet is freed anyway (lines 287-293).

## Model

| member | source | states |
|---|---|---|
| Frame.Accepts | mtk/mtkbt/bt_driver/btmtk_main.c:70-86 | A null packet is never accepted, and an upload size of 5 or less accepts nothing: an accepted packet leaves room for the header and at least one payload byte. |
| Frame.Encode | mtk/mtkbt/bt_driver/btmtk_main.c:88-95 | The frame is exactly `len + 5` bytes long and carries the payload unchanged after the header. |
| Frame.TxPkt | mtk/mtkbt/bt_driver/btmtk_main.c:65-101 | A null buffer, null data, an empty payload or a frame longer than the upload size gives `-EINVAL`: nothing is handed over and the scratch buffer is untouched. Otherwise the whole buffer becomes header, payload and zeros. The transport receives exactly the `len + 5`-byte frame, and the transport's result is returned, or 0 without a callback. |
| Frame.EncodeLayout | mtk/mtkbt/bt_driver/btmtk_main.c:88-95 | Frame length is `len + 5`. Byte 0 is `total & 0xff` and byte 1 is `(total & 0xff00) >> 8`. Bytes 2 and 3 are 0, byte 4 is the packet type, and the payload follows from byte 5. |
| Frame.LengthFieldWraps | mtk/mtkbt/bt_driver/btmtk_main.c:88-91 | The length field carries the 32-bit total modulo 2^16. |
| Frame.DecodeEncode | mtk/mtkbt/bt_driver/btmtk_main.c:88-97 | Reading back a frame gives its type and payload, also with the buffer's zero padding after it, whenever the total fits in 16 bits. |
| Frame.EncodeDecode | mtk/mtkbt/bt_driver/btmtk_main.c:88-95 | A buffer that decodes begins with exactly the encoding of what it decodes to. |
| Worker.Notify | mtk/mtkbt/bt_driver/btmtk_main.c:28-37 | One notification raises the interrupt count by one, changes nothing but the power state, the retry count and that count, and always lifts the thread's wait. |
| Worker.Blocks | mtk/mtkbt/bt_driver/btmtk_main.c:226-229 | The thread goes on without sleeping only with no back-off pending and with work to do: a pending interrupt, or a packet queued with the transport ready. |
| Worker.NotifyTimes | mtk/mtkbt/bt_driver/btmtk_main.c:28-37 | k notifications raise the interrupt count by k. Nothing but the power state, the retry count and the interrupt count changes. |
| Worker.NotifyTimesCoalesce | mtk/mtkbt/bt_driver/btmtk_main.c:28-37 | Any positive number of notifications leaves the device awake with no wakeup retry pending, and the count raised by their number. |
| Worker.WindowIsNotifications | mtk/mtkbt/bt_driver/btmtk_main.c:28-37 | The window's closed form equals that many interrupt notifications, followed by the queued packets and the stop request. |
| Worker.Transmit | mtk/mtkbt/bt_driver/btmtk_main.c:281-294 | Transmitting a dequeued packet changes only the scratch buffer and the trace. The trace gains the packet first. |
| Worker.Drain | mtk/mtkbt/bt_driver/btmtk_main.c:266-304 | The transmit part leaves the power state, counters, ready flag and stop request alone. The thread keeps running exactly when the pass ends normally. |
| Worker.Dispatch | mtk/mtkbt/bt_driver/btmtk_main.c:243-304 | From the claim on, the upload size, callback presence, ready flag and stop request stay as they were. The trace only grows, and the thread keeps running exactly when the pass ends normally. |
| Worker.Cycle | mtk/mtkbt/bt_driver/btmtk_main.c:219-305 | A pass keeps the upload size, callback presence and ready flag, and only extends the trace. The thread runs on exactly when the pass ends normally. |
| Worker.Run | mtk/mtkbt/bt_driver/btmtk_main.c:195-305 | The loop keeps the upload size, callback presence and ready flag, only extends the trace, and does nothing once the thread has left it. |
| CycleProperties.TransmitTrace | mtk/mtkbt/bt_driver/btmtk_main.c:287-294 | A transmit adds the packet, then the frame when the encoder accepts it and a transport is registered. |
| CycleProperties.DrainTrace | mtk/mtkbt/bt_driver/btmtk_main.c:266-304 | The transmit part's events are nothing when asleep or not ready. Otherwise they are the head's transmission, if any, then `FW_OWN` when at most one packet was queued. |
| CycleProperties.DrainQueueAndEnd | mtk/mtkbt/bt_driver/btmtk_main.c:266-304 | The transmit part drops the head exactly when the checks pass on a non-empty queue. It fails exactly when the `FW_OWN` request is made and fails. |
| CycleProperties.DispatchReachesDrain | mtk/mtkbt/bt_driver/btmtk_main.c:249-266 | After the interrupt branch, or when neither branch applies, the pass continues with the transmit checks in the same cycle. |
| CycleProperties.AtTxChecksFacts | mtk/mtkbt/bt_driver/btmtk_main.c:243-264 | At the transmit checks the trace has the claim and, when interrupts were pending, one status processing. The queue, power state and ready flag are as they were. |
| CycleProperties.DispatchTrace | mtk/mtkbt/bt_driver/btmtk_main.c:243-304 | The events from the claim on are `DRIVER_OWN`, then the interrupt processing if taken, then the transmit part's events if reached. |
| CycleProperties.DispatchQueue | mtk/mtkbt/bt_driver/btmtk_main.c:277-279 | The queue loses its head exactly when the transmit checks are reached and pass on a non-empty queue. |
| CycleProperties.DispatchCounters | mtk/mtkbt/bt_driver/btmtk_main.c:249-264 | The interrupt count drops to zero exactly when the interrupt branch is taken. The retry count rises by one exactly when the deferral branch is taken. |
| CycleProperties.DispatchEnd | mtk/mtkbt/bt_driver/btmtk_main.c:243-304 | The pass ends on a `DRIVER_OWN` failure, or on an `FW_OWN` failure when that request is made. Otherwise it goes on. |
| CycleProperties.StopChecks | mtk/mtkbt/bt_driver/btmtk_main.c:219-241 | A stop seen before the wait ends the thread with nothing else changed. One seen after the wait ends it with only the window applied. Otherwise the pass continues, and whether it slept is the wait condition on the state before the window. |
| CycleProperties.CycleShape | mtk/mtkbt/bt_driver/btmtk_main.c:219-305 | A pass's new events are the reference event list of the pass: none on a stop, else the events from the claim on, taken on the state the window left. |
| CycleProperties.DrainEventsFacts | mtk/mtkbt/bt_driver/btmtk_main.c:266-304 | The transmit part sends at most the head. It never claims or processes interrupts. It releases with `FW_OWN` exactly when the checks pass on a queue of at most one, and then only as its last event. |
| CycleProperties.DispatchEventsPackets | mtk/mtkbt/bt_driver/btmtk_main.c:243-294 | From the claim on, exactly the head packet is sent when the transmit checks are reached and pass on a non-empty queue, and nothing otherwise. |
| CycleProperties.ClaimThenTail | mtk/mtkbt/bt_driver/btmtk_main.c:243-304 | A claim, an optional interrupt processing and a tail without claims that releases only last on an empty queue satisfy the ownership discipline. |
| CycleProperties.DispatchEventsFacts | mtk/mtkbt/bt_driver/btmtk_main.c:243-304 | The events from the claim on start with `DRIVER_OWN` and keep the ownership discipline. Interrupts are processed exactly when the interrupt branch is taken, and `FW_OWN` comes exactly when the queue is drained to empty. A failed claim is the only event of its pass. |
| CycleProperties.CycleDequeuesHead | mtk/mtkbt/bt_driver/btmtk_main.c:266-294 | A pass sends exactly the head of the queue it sees and drops it from the queue, when it gets past the stops with the claim granted, the device awake and the transport ready. Otherwise it sends nothing and the queue is as seen. |
| CycleProperties.NoDequeueAsleepOrNotReady | mtk/mtkbt/bt_driver/btmtk_main.c:266-275 | While the device sleeps or the transport is not ready, nothing is dequeued and `FW_OWN` is not requested. |
| CycleProperties.CycleOwnership | mtk/mtkbt/bt_driver/btmtk_main.c:243-304 | Each pass's events start with `DRIVER_OWN`, claimed once. `FW_OWN` comes at most once, last, and only with the queue left empty. A pass makes no transport call exactly when it stops. |
| CycleProperties.OwnFailureEndsThread | mtk/mtkbt/bt_driver/btmtk_main.c:243-308 | The pass ends on a `DRIVER_OWN` failure exactly when that claim fails, and then nothing else is called. It ends on an `FW_OWN` failure exactly when that request is made and fails, and it stops exactly on a stop request. Any such end clears the status flag. |
| CycleProperties.InterruptOrDeferral | mtk/mtkbt/bt_driver/btmtk_main.c:249-264 | Interrupts are processed exactly when some are pending, and the counter is then reset. Only without them does a sleeping device with queued packets make the pass back off: one more retry, nothing else changed but the claim. |
| CycleProperties.InterruptFallsThrough | mtk/mtkbt/bt_driver/btmtk_main.c:249-294 | A pass with interrupts and a ready transport processes them and sends the head of the queue in the same pass. |
| CycleProperties.DeferralThenInterrupt | mtk/mtkbt/bt_driver/btmtk_main.c:226-264 | After backing off the thread waits on its next pass, and any interrupt notification made after the back-off lifts that wait. |
| CycleProperties.CycleKeepsPackets | mtk/mtkbt/bt_driver/btmtk_main.c:277-294 | Packets sent plus packets queued after a pass equal packets sent plus packets queued as seen before it. |
| CycleProperties.RunWhenStopped | mtk/mtkbt/bt_driver/btmtk_main.c:305-308 | Once out of its loop the thread does nothing more. |
| CycleProperties.RunFifo | mtk/mtkbt/bt_driver/btmtk_main.c:277-294 | Over any number of passes, packets sent then still queued form a prefix of packets sent before, the queue before, and packets queued since. No packet is lost from the middle, duplicated or reordered. While the thread still runs the two are equal: nothing has been dropped. |
| CycleProperties.RunAfterExit | mtk/mtkbt/bt_driver/btmtk_main.c:243-308 | After a pass that ends the loop no later pass runs, and the thread is no longer running. |
| Scenarios.CoalescedInterrupts | mtk/mtkbt/bt_driver/btmtk_main.c:28-37 | Any number of interrupts on an idle thread give one wake, one status processing, the count back at zero, and ownership handed back. |
| Scenarios.BackOff | mtk/mtkbt/bt_driver/btmtk_main.c:255-260 | Packets queued while the device sleeps with no interrupt pending cost one retry, a claim and nothing else. |
| Scenarios.SendHead | mtk/mtkbt/bt_driver/btmtk_main.c:243-304 | An awake pass with a ready transport sends the head as its encoded frame, after any interrupt processing. It releases when the queue is left empty. |
| Scenarios.SendLast | mtk/mtkbt/bt_driver/btmtk_main.c:277-304 | The last queued packet goes out as a frame, followed by `FW_OWN`. |
| Scenarios.SendTwo | mtk/mtkbt/bt_driver/btmtk_main.c:277-304 | Two queued packets go out in two passes, in order, with one release after the second. |
| Scenarios.WakeOne | mtk/mtkbt/bt_driver/btmtk_main.c:249-294 | An interrupt wakes the sleeping device, and the same pass sends the head without releasing. |
| Scenarios.WakeAndSend | mtk/mtkbt/bt_driver/btmtk_main.c:249-304 | After an interrupt, three packets go out in three passes with the exact trace. |
| Scenarios.BackOffStep | mtk/mtkbt/bt_driver/btmtk_main.c:255-260 | The backing-off pass as the first step of a run. |
| Scenarios.DeferredBurst | mtk/mtkbt/bt_driver/btmtk_main.c:219-304 | A burst queued while the device sleeps: first a back-off, then an interrupt that sends the first frame, then one frame per pass. The trace is exact, with four claims and one release. |
| Scenarios.TenByteFrame | mtk/mtkbt/bt_driver/btmtk_main.c:88-94 | A ten-byte payload gives a 15-byte frame with header `[15, 0, 0, 0, type]`. |
| Scenarios.ClaimFailureStopsThread | mtk/mtkbt/bt_driver/btmtk_main.c:243-247 | A failed claim ends the thread at once: nothing is sent and the queue keeps everything, whatever later passes bring. |
| Driver.AwaitProbe | mtk/mtkbt/bt_driver/btmtk_main.c:158-176 | Poll i ends the wait on a stop request or a ready probe, seen for the first time at that poll. Giving up means neither was seen on any of polls 0 to 1000. |
| Driver.Adapter.constructor | mtk/mtkbt/bt_driver/btmtk_main.c:103-127 | A new adapter is awake, with zero counters, an empty queue, the transport ready, and the thread not in its loop. |
| Driver.Adapter.Interrupt | mtk/mtkbt/bt_driver/btmtk_main.c:28-37 | Sets the device awake, clears the retries, raises the interrupt count by exactly one, and changes nothing else. |
| Driver.Adapter.StartWorker | mtk/mtkbt/bt_driver/btmtk_main.c:158-187 | The loop is entered, with the status flag set, exactly when a stop was pending or the probe became ready within the 1001 polls. |
| Driver.Adapter.Step | mtk/mtkbt/bt_driver/btmtk_main.c:219-305 | One pass on the object has exactly the effect of `Cycle`, and reports whether it slept and how it ended. |
| Driver.Adapter.Dispatching | mtk/mtkbt/bt_driver/btmtk_main.c:243-264 | The claim and the branches on the object have exactly the effect of `Dispatch`. |
| Driver.Adapter.Transmitting | mtk/mtkbt/bt_driver/btmtk_main.c:266-304 | The transmit checks, the dequeue, the encoder call on the shared buffer and the release on the object have exactly the effect of `Drain`. |
| Driver.Adapter.RemoveCard | mtk/mtkbt/bt_driver/btmtk_main.c:352-375 | The thread is stopped only when the task exists and its status flag is set. It then leaves its loop, and the queue is purged. |

## Left out

- `btmtk_enable_hs` (lines 40-62) is not modelled. It is a timed wait on a wait queue. Only an interrupted wait returns an error there; a timeout returns 0.
- The `DBUG_FW_DUMP_READ_CR` block (lines 189-218) is left out. It holds wall-clock arithmetic and a register read that only logs.
- Kernel threads, wait queues, `schedule`, `set_current_state`, `set_user_nice` and the spinlocks are left out. Concurrency is reduced to one `Window` per pass, applied between the sleep decision and the resumption. Interleavings at other points are not modelled. One of them breaks a proved property: an interrupt that arrives between the back-off's release of `driver_lock` (line 258) and its increment of `wakeup_tries` (line 259) has its reset of the retry count overwritten, and its wake-up lost because the thread already left the wait queue (line 236); the next pass then sleeps with an interrupt pending. CycleProperties.DeferralThenInterrupt holds for notifications made after the back-off only.
- The 10-15 ms `usleep_range` between probe polls is left out. Only the bound of 1001 polls is kept.
- Allocation and freeing (`kzalloc`, `kfree`, `kfree_skb`, `skb_queue_purge` as memory release) are left out, and so are the `hw_regs_buf` DMA alignment (lines 112-123) and the allocation and `kthread_run` failure paths of `btmtk_add_card` (lines 311-349). The purge is modelled as emptying the queue.
- The null-adapter check after the probe wait (lines 181-186) is left out. The model's thread always has its adapter.
- The transport callbacks are foreign code and are left out:
  - `hw_set_own_back` and `hw_host_to_card` are reduced to the results they return, given per pass.
  - `hw_process_int_status` is recorded in the trace with no effect on the modelled fields.
  - `hw_set_own_back` is assumed to be registered.
- `btmtk_print_buffer_conent` only logs and is left out, as is all logging.
- Worker.Transmit: the encoder's return value is dropped, as the loop drops it (line 287). A rejected or failed packet is freed and not retried.
- Frame.TxPkt: `skb->len + BTM_HEADER_LEN` is computed in unbounded integers, not with the 32-bit wrap-around of the source. In the source, a length from 2^32-5 to 2^32-1 wraps the sum at line 82 to 0..4, passes the size check, and the copy at line 95 would overrun the buffer; the model rejects that length. Socket-buffer lengths stay far below 2^32, so the wrap cannot be reached.
- `wakeup_tries` and `int_count` are declared in `btmtk_drv.h`, which is not part of this model, and are modelled as unbounded naturals. A narrow `wakeup_tries` would wrap back to 0 after enough back-offs and lift the wait; the model does not capture that.
- The model's inputs never put the device to sleep and never clear the transmit-ready flag: this file never writes `PS_SLEEP` and never clears `tx_dnld_rdy`, which the transport's own code does. So in a run that starts from the state card addition leaves, the back-off branch (line 255) and the skips at lines 266 and 272 are never taken; the per-cycle lemmas and scenarios reach them from arbitrary states.
- The scratch buffer `txbuf` is one buffer for the whole module in the source (line 89), shared by all adapters and not touched by card addition. The model gives each adapter its own buffer; no property depends on this, as the encoder clears the buffer before writing it.
- The header constants `BTM_UPLD_SIZE` and `MTK_TXDATA_SIZE` come from `btmtk_drv.h`, which is not part of this model. They are parameters, with the upload size no larger than the buffer. `BTM_HEADER_LEN` is 5, as the copy offset at line 95 implies.
- Driver.Adapter.RemoveCard: the `kthread_stop` wait is modelled as the thread's next pass, which sees the stop at its first check. Removal racing with a thread still in its probe wait (status flag not yet set) is not modelled.

/**
  What one wake cycle, and a run of cycles, of the service thread guarantee:
  the packet queue is drained first in, first out and one packet at a time,
  ownership is claimed before any work and handed back only on an empty queue,
  the interrupt and deferral branches exclude each other, and a failed
  ownership request or a stop request ends the thread.
  Each property is proved for Transmit, then Drain, then Dispatch, then Cycle.
 */
module CycleProperties {
  import opened Frame
  import opened Worker

  /** The packets given to the encoder, in the order of the trace. */
  function Packets(trace: seq<Event>): seq<Skb>
  {
    if trace == [] then []
    else (if trace[0].TxPacket? then [trace[0].skb] else []) + Packets(trace[1..])
  }

  lemma {:induction false} PacketsAppend(a: seq<Event>, b: seq<Event>)
    ensures Packets(a + b) == Packets(a) + Packets(b)
    decreases |a|
  {
    if a == [] {
      assert a + b == b;
    } else {
      var head := if a[0].TxPacket? then [a[0].skb] else [];
      assert (a + b)[0] == a[0] && (a + b)[1..] == a[1..] + b;
      assert Packets(a + b) == head + Packets(a[1..] + b);
      PacketsAppend(a[1..], b);
      assert Packets(a) == head + Packets(a[1..]);
    }
  }

  /** The events the cycle added to the trace. */
  function NewEvents(s: AdapterState, r: CycleResult): seq<Event>
    requires s.trace <= r.next.trace
  {
    r.next.trace[|s.trace|..]
  }

  lemma Suffix(a: seq<Event>, b: seq<Event>)
    ensures (a + b)[|a|..] == b
  {
  }

  /** The queue as the thread finds it once it resumes. */
  function SeenQueue(s: AdapterState, inp: Inputs): seq<Skb>
  {
    if s.stop then s.txQueue else s.txQueue + inp.window.arrivals
  }

  /** No ownership request and no interrupt processing among the events. */
  predicate Quiet(e: seq<Event>)
  {
    OwnRequest(DriverOwn) !in e && OwnRequest(FwOwn) !in e && ProcessInt !in e
  }

  /** Ownership discipline within one cycle's events: DRIVER_OWN comes first and
      only there, FW_OWN comes last and only there, and only with the queue left empty. */
  predicate OwnershipDiscipline(events: seq<Event>, queueAfter: seq<Skb>)
  {
    (events == [] ||
     (events[0] == OwnRequest(DriverOwn) && OwnRequest(DriverOwn) !in events[1..])) &&
    (OwnRequest(FwOwn) in events ==>
       events[|events| - 1] == OwnRequest(FwOwn) &&
       OwnRequest(FwOwn) !in events[..|events| - 1] && queueAfter == [])
  }

  // ----- the events of each part of a cycle, as reference lists

  /** What the encoder hands on after the TxPacket event: the frame, when it
      accepts the packet and the transport registered its callback. */
  function Handed(upldSize: nat, hasHostToCard: bool, skb: Skb): (h: seq<Event>)
    ensures Quiet(h) && Packets(h) == []
  {
    if Accepts(Some(skb), upldSize) && hasHostToCard then
      [HostToCard(Encode(skb.data.value, skb.pktType))]
    else []
  }

  /** The events of transmitting the head of the queue, when there is one. */
  function HeadEvents(q: seq<Skb>, upldSize: nat, hasHostToCard: bool): seq<Event>
  {
    if q == [] then [] else [TxPacket(q[0])] + Handed(upldSize, hasHostToCard, q[0])
  }

  function HeadOf(s: AdapterState): seq<Event>
  {
    HeadEvents(s.txQueue, s.upldSize, s.hasHostToCard)
  }

  /** `tx` is a transmission of the head of the queue: it hands exactly that
      packet to the encoder, with no ownership request or interrupt processing. */
  predicate SendsHead(s: AdapterState, tx: seq<Event>)
  {
    s.txQueue != [] ==> Quiet(tx) && Packets(tx) == [s.txQueue[0]]
  }

  /** The transmit checks pass: the device is awake and the transport ready. */
  predicate Ready(s: AdapterState)
  {
    s.ps == PsAwake && s.txDnldRdy
  }

  /** The events of the transmit checks, the dequeue (its transmission `tx`)
      and the FW_OWN request. */
  function DrainEvents(s: AdapterState, tx: seq<Event>): seq<Event>
  {
    if !Ready(s) then []
    else (if s.txQueue == [] then [] else tx) + (if |s.txQueue| <= 1 then [OwnRequest(FwOwn)] else [])
  }

  /** The interrupt branch is taken: the claim succeeded and interrupts are pending. */
  predicate TakesInterrupts(s: AdapterState, inp: Inputs)
  {
    inp.driverOwnRet == 0 && s.intCount != 0
  }

  /** The deferral branch is taken: the claim succeeded, no interrupt is pending,
      and the device sleeps with packets queued. */
  predicate Defers(s: AdapterState, inp: Inputs)
  {
    inp.driverOwnRet == 0 && s.intCount == 0 && s.ps == PsSleep && s.txQueue != []
  }

  /** The cycle goes on to the transmit checks. */
  predicate ReachesTx(s: AdapterState, inp: Inputs)
  {
    inp.driverOwnRet == 0 && !Defers(s, inp)
  }

  /** The events from the DRIVER_OWN request on. */
  function DispatchEvents(s: AdapterState, inp: Inputs, tx: seq<Event>): seq<Event>
  {
    [OwnRequest(DriverOwn)] + (if TakesInterrupts(s, inp) then [ProcessInt] else []) +
    (if ReachesTx(s, inp) then DrainEvents(s, tx) else [])
  }

  /** The events of a whole cycle: none when it stops, else those of the state
      the window left. */
  function CycleEvents(s: AdapterState, inp: Inputs): seq<Event>
  {
    if s.stop || inp.window.stop then []
    else
      var s1 := ApplyWindow(s, inp.window);
      DispatchEvents(s1, inp, HeadOf(s1))
  }

  // ----- each part of the cycle produces its reference list

  lemma HeadEventsFacts(s: AdapterState)
    ensures SendsHead(s, HeadOf(s))
  {
    if s.txQueue != [] {
      PacketsAppend([TxPacket(s.txQueue[0])], Handed(s.upldSize, s.hasHostToCard, s.txQueue[0]));
    }
  }

  lemma TransmitTrace(s: AdapterState, skb: Skb)
    requires WellFormed(s)
    ensures Transmit(s, skb).trace == s.trace + [TxPacket(skb)] + Handed(s.upldSize, s.hasHostToCard, skb)
  {
  }

  lemma Assoc<T>(a: seq<T>, b: seq<T>, c: seq<T>)
    ensures a + b + c == a + (b + c)
  {
  }

  lemma DrainTrace(s: AdapterState, inp: Inputs)
    requires WellFormed(s) && s.running
    ensures Drain(s, inp).0.trace == s.trace + DrainEvents(s, HeadOf(s))
  {
    if Ready(s) {
      var s1 := if s.txQueue == [] then s
                else Transmit(s.(txQueue := s.txQueue[1..]), s.txQueue[0]);
      if s.txQueue != [] {
        TransmitTrace(s.(txQueue := s.txQueue[1..]), s.txQueue[0]);
        Assoc(s.trace, [TxPacket(s.txQueue[0])], Handed(s.upldSize, s.hasHostToCard, s.txQueue[0]));
      }
      assert s1.trace == s.trace + HeadOf(s);
      if s1.txQueue == [] {
        Assoc(s.trace, HeadOf(s), [OwnRequest(FwOwn)]);
      }
    }
  }

  lemma DrainQueueAndEnd(s: AdapterState, inp: Inputs)
    requires WellFormed(s) && s.running
    ensures Drain(s, inp).0.txQueue == (if Ready(s) && s.txQueue != [] then s.txQueue[1..] else s.txQueue)
    ensures Drain(s, inp).1 ==
      (if Ready(s) && |s.txQueue| <= 1 && inp.fwOwnRet != 0 then OwnFailed(FwOwn) else Continue)
  {
    if Ready(s) && s.txQueue != [] {
      assert Transmit(s.(txQueue := s.txQueue[1..]), s.txQueue[0]).txQueue == s.txQueue[1..];
    }
  }

  /** The state at the transmit checks, when the cycle gets there. */
  function AtTxChecks(s: AdapterState, inp: Inputs): AdapterState
  {
    var s2 := s.(trace := s.trace + [OwnRequest(DriverOwn)]);
    if TakesInterrupts(s, inp) then s2.(intCount := 0, trace := s2.trace + [ProcessInt]) else s2
  }

  lemma DispatchReachesDrain(s: AdapterState, inp: Inputs)
    requires WellFormed(s) && s.running && ReachesTx(s, inp)
    ensures WellFormed(AtTxChecks(s, inp)) && AtTxChecks(s, inp).running
    ensures Dispatch(s, inp) == Drain(AtTxChecks(s, inp), inp)
  {
  }

  lemma AtTxChecksFacts(s: AdapterState, inp: Inputs)
    ensures var a := AtTxChecks(s, inp);
      a.trace == s.trace + ([OwnRequest(DriverOwn)] + (if TakesInterrupts(s, inp) then [ProcessInt] else [])) &&
      HeadOf(a) == HeadOf(s) && Ready(a) == Ready(s) && a.txQueue == s.txQueue &&
      a.ps == s.ps && a.txDnldRdy == s.txDnldRdy &&
      DrainEvents(a, HeadOf(s)) == DrainEvents(s, HeadOf(s))
  {
    if TakesInterrupts(s, inp) {
      Assoc(s.trace, [OwnRequest(DriverOwn)], [ProcessInt]);
    }
  }

  lemma DispatchTrace(s: AdapterState, inp: Inputs)
    requires WellFormed(s) && s.running
    ensures Dispatch(s, inp).0.trace == s.trace + DispatchEvents(s, inp, HeadOf(s))
  {
    var c: seq<Event> := if TakesInterrupts(s, inp) then [ProcessInt] else [];
    if ReachesTx(s, inp) {
      var a := AtTxChecks(s, inp);
      DispatchReachesDrain(s, inp);
      AtTxChecksFacts(s, inp);
      DrainTrace(a, inp);
      Assoc(s.trace, [OwnRequest(DriverOwn)] + c, DrainEvents(s, HeadOf(s)));
    } else {
      assert DispatchEvents(s, inp, HeadOf(s)) == [OwnRequest(DriverOwn)];
    }
  }

  lemma DispatchQueue(s: AdapterState, inp: Inputs)
    requires WellFormed(s) && s.running
    ensures Dispatch(s, inp).0.txQueue ==
      (if ReachesTx(s, inp) && Ready(s) && s.txQueue != [] then s.txQueue[1..] else s.txQueue)
  {
    if ReachesTx(s, inp) {
      DispatchReachesDrain(s, inp);
      AtTxChecksFacts(s, inp);
      DrainQueueAndEnd(AtTxChecks(s, inp), inp);
    }
  }

  lemma DispatchCounters(s: AdapterState, inp: Inputs)
    requires WellFormed(s) && s.running
    ensures var t := Dispatch(s, inp).0;
      t.ps == s.ps &&
      t.intCount == (if TakesInterrupts(s, inp) then 0 else s.intCount) &&
      t.wakeupTries == (if Defers(s, inp) then s.wakeupTries + 1 else s.wakeupTries)
  {
    if ReachesTx(s, inp) {
      DispatchReachesDrain(s, inp);
    }
  }

  lemma DispatchEnd(s: AdapterState, inp: Inputs)
    requires WellFormed(s) && s.running
    ensures Dispatch(s, inp).1 ==
      (if inp.driverOwnRet != 0 then OwnFailed(DriverOwn)
       else if ReachesTx(s, inp) && Ready(s) && |s.txQueue| <= 1 && inp.fwOwnRet != 0 then OwnFailed(FwOwn)
       else Continue)
  {
    if ReachesTx(s, inp) {
      DispatchReachesDrain(s, inp);
      AtTxChecksFacts(s, inp);
      DrainQueueAndEnd(AtTxChecks(s, inp), inp);
    }
  }

  /** The stop checks: a stop request seen before the wait ends the thread
      untouched; one seen after it ends the thread with only the window's
      effects, before any transport call. Otherwise the rest of the cycle runs
      on the state the window left. */
  lemma StopChecks(s: AdapterState, inp: Inputs)
    requires WellFormed(s) && s.running
    ensures s.stop ==> Cycle(s, inp) == CycleResult(s.(running := false), false, Stopped)
    ensures !s.stop && inp.window.stop ==>
      Cycle(s, inp) == CycleResult(ApplyWindow(s, inp.window).(running := false), Blocks(s), Stopped)
    ensures !s.stop && !inp.window.stop ==>
      var s1 := ApplyWindow(s, inp.window);
      s1.running && !s1.stop && s1.txQueue == SeenQueue(s, inp) && s1.trace == s.trace &&
      WellFormed(s1) &&
      Cycle(s, inp) == CycleResult(Dispatch(s1, inp).0, Blocks(s), Dispatch(s1, inp).1)
  {
  }

  lemma CycleShape(s: AdapterState, inp: Inputs)
    requires WellFormed(s) && s.running
    ensures var r := Cycle(s, inp);
      r.next.trace == s.trace + CycleEvents(s, inp) && NewEvents(s, r) == CycleEvents(s, inp)
  {
    StopChecks(s, inp);
    if !s.stop && !inp.window.stop {
      DispatchTrace(ApplyWindow(s, inp.window), inp);
    }
    Suffix(s.trace, CycleEvents(s, inp));
  }

  // ----- what the reference lists say

  lemma DrainEventsFacts(s: AdapterState, tx: seq<Event>)
    requires SendsHead(s, tx)
    ensures var d := DrainEvents(s, tx);
      Packets(d) == (if Ready(s) && s.txQueue != [] then [s.txQueue[0]] else []) &&
      OwnRequest(DriverOwn) !in d && ProcessInt !in d &&
      (OwnRequest(FwOwn) in d <==> Ready(s) && |s.txQueue| <= 1) &&
      (OwnRequest(FwOwn) in d ==>
         d[|d| - 1] == OwnRequest(FwOwn) && OwnRequest(FwOwn) !in d[..|d| - 1])
  {
    if Ready(s) {
      var body := if s.txQueue == [] then [] else tx;
      var fw := if |s.txQueue| <= 1 then [OwnRequest(FwOwn)] else [];
      var d := DrainEvents(s, tx);
      PacketsAppend(body, fw);
      if fw != [] {
        assert d[..|d| - 1] == body;
      }
    }
  }

  lemma DispatchEventsPackets(s: AdapterState, inp: Inputs, tx: seq<Event>)
    requires SendsHead(s, tx)
    ensures Packets(DispatchEvents(s, inp, tx)) ==
      (if ReachesTx(s, inp) && Ready(s) && s.txQueue != [] then [s.txQueue[0]] else [])
  {
    var c := if TakesInterrupts(s, inp) then [ProcessInt] else [];
    var d := if ReachesTx(s, inp) then DrainEvents(s, tx) else [];
    DrainEventsFacts(s, tx);
    PacketsAppend([OwnRequest(DriverOwn)] + c, d);
    PacketsAppend([OwnRequest(DriverOwn)], c);
  }

  /** The DRIVER_OWN request, possibly the interrupt processing, then events
      with no claim and no interrupt processing and at most a final FW_OWN. */
  lemma ClaimThenTail(c: seq<Event>, d: seq<Event>, queueAfter: seq<Skb>)
    requires c == [] || c == [ProcessInt]
    requires OwnRequest(DriverOwn) !in d && ProcessInt !in d
    requires OwnRequest(FwOwn) in d ==>
      d[|d| - 1] == OwnRequest(FwOwn) && OwnRequest(FwOwn) !in d[..|d| - 1] && queueAfter == []
    ensures var e := [OwnRequest(DriverOwn)] + c + d;
      OwnershipDiscipline(e, queueAfter) &&
      (ProcessInt in e <==> c != []) &&
      (OwnRequest(FwOwn) in e <==> OwnRequest(FwOwn) in d)
  {
    var e := [OwnRequest(DriverOwn)] + c + d;
    assert e[1..] == c + d;
    if OwnRequest(FwOwn) in d {
      assert e[..|e| - 1] == [OwnRequest(DriverOwn)] + c + d[..|d| - 1];
    }
  }

  lemma DispatchEventsFacts(s: AdapterState, inp: Inputs, tx: seq<Event>)
    requires SendsHead(s, tx)
    ensures var e := DispatchEvents(s, inp, tx);
      var sends := ReachesTx(s, inp) && Ready(s) && s.txQueue != [];
      |e| > 0 && e[0] == OwnRequest(DriverOwn) &&
      OwnershipDiscipline(e, if sends then s.txQueue[1..] else s.txQueue) &&
      Packets(e) == (if sends then [s.txQueue[0]] else []) &&
      (ProcessInt in e <==> TakesInterrupts(s, inp)) &&
      (OwnRequest(FwOwn) in e <==> ReachesTx(s, inp) && Ready(s) && |s.txQueue| <= 1) &&
      (inp.driverOwnRet != 0 ==> e == [OwnRequest(DriverOwn)])
  {
    var sends := ReachesTx(s, inp) && Ready(s) && s.txQueue != [];
    var after := if sends then s.txQueue[1..] else s.txQueue;
    var c: seq<Event> := if TakesInterrupts(s, inp) then [ProcessInt] else [];
    var d := if ReachesTx(s, inp) then DrainEvents(s, tx) else [];
    DispatchEventsPackets(s, inp, tx);
    if ReachesTx(s, inp) {
      DrainEventsFacts(s, tx);
      if OwnRequest(FwOwn) in d {
        assert after == [];
      }
    }
    ClaimThenTail(c, d, after);
  }

  // ----- one whole cycle

  /** A packet is sent in this cycle exactly when the thread gets past its stop
      checks, DRIVER_OWN is granted, the device is awake once the window has
      passed, the transport is ready, and the queue is not empty. */
  predicate SendsThisCycle(s: AdapterState, inp: Inputs)
  {
    !s.stop && !inp.window.stop && inp.driverOwnRet == 0 &&
    ApplyWindow(s, inp.window).ps == PsAwake && s.txDnldRdy && SeenQueue(s, inp) != []
  }

  /** At most one packet leaves the queue per cycle, always its head, exactly
      when the conditions above hold, and it is given to the encoder once. */
  lemma CycleDequeuesHead(s: AdapterState, inp: Inputs)
    requires WellFormed(s) && s.running
    ensures var r := Cycle(s, inp);
      var q := SeenQueue(s, inp);
      if SendsThisCycle(s, inp) then
        Packets(r.next.trace) == Packets(s.trace) + [q[0]] && r.next.txQueue == q[1..]
      else
        Packets(r.next.trace) == Packets(s.trace) && r.next.txQueue == q
  {
    StopChecks(s, inp);
    CycleShape(s, inp);
    PacketsAppend(s.trace, CycleEvents(s, inp));
    if !s.stop && !inp.window.stop {
      var s1 := ApplyWindow(s, inp.window);
      DispatchQueue(s1, inp);
      HeadEventsFacts(s1);
      DispatchEventsPackets(s1, inp, HeadOf(s1));
    }
  }

  /** Nothing is dequeued, and ownership is not handed back, while the device
      sleeps or the transport is not ready. */
  lemma NoDequeueAsleepOrNotReady(s: AdapterState, inp: Inputs)
    requires WellFormed(s) && s.running
    requires ApplyWindow(s, inp.window).ps == PsSleep || !s.txDnldRdy
    ensures var r := Cycle(s, inp);
      Packets(r.next.trace) == Packets(s.trace) && r.next.txQueue == SeenQueue(s, inp) &&
      OwnRequest(FwOwn) !in NewEvents(s, r)
  {
    CycleDequeuesHead(s, inp);
    CycleShape(s, inp);
    if !s.stop && !inp.window.stop {
      var s1 := ApplyWindow(s, inp.window);
      HeadEventsFacts(s1);
      DispatchEventsFacts(s1, inp, HeadOf(s1));
    }
  }

  /** DRIVER_OWN is requested at the start of every cycle that gets past the stop
      checks, before any interrupt processing or dequeue; FW_OWN only at the end
      of a cycle that leaves the queue empty. */
  lemma CycleOwnership(s: AdapterState, inp: Inputs)
    requires WellFormed(s) && s.running
    ensures var r := Cycle(s, inp);
      OwnershipDiscipline(NewEvents(s, r), r.next.txQueue) &&
      (NewEvents(s, r) == [] <==> r.end == Stopped)
  {
    StopChecks(s, inp);
    CycleShape(s, inp);
    if !s.stop && !inp.window.stop {
      var s1 := ApplyWindow(s, inp.window);
      DispatchQueue(s1, inp);
      DispatchEnd(s1, inp);
      HeadEventsFacts(s1);
      DispatchEventsFacts(s1, inp, HeadOf(s1));
    }
  }

  /** A failed ownership request ends the thread, and only such a failure or a
      stop request does. */
  lemma OwnFailureEndsThread(s: AdapterState, inp: Inputs)
    requires WellFormed(s) && s.running
    ensures var r := Cycle(s, inp);
      var e := NewEvents(s, r);
      (r.end == OwnFailed(DriverOwn) <==>
         !s.stop && !inp.window.stop && inp.driverOwnRet != 0) &&
      (r.end == OwnFailed(DriverOwn) ==> e == [OwnRequest(DriverOwn)]) &&
      (r.end == OwnFailed(FwOwn) <==> OwnRequest(FwOwn) in e && inp.fwOwnRet != 0) &&
      (r.end == Stopped <==> s.stop || inp.window.stop) &&
      (r.end != Continue ==> !r.next.running)
  {
    StopChecks(s, inp);
    CycleShape(s, inp);
    if !s.stop && !inp.window.stop {
      var s1 := ApplyWindow(s, inp.window);
      DispatchEnd(s1, inp);
      HeadEventsFacts(s1);
      DispatchEventsFacts(s1, inp, HeadOf(s1));
    }
  }

  /** The interrupt branch and the deferral branch exclude each other: pending
      interrupts are claimed (the counter drops to zero and the status is
      processed once); only without them does a sleeping device with queued
      packets make the thread back off, which counts a wakeup try and leaves
      the queue alone. */
  lemma InterruptOrDeferral(s: AdapterState, inp: Inputs)
    requires WellFormed(s) && s.running && !s.stop && !inp.window.stop && inp.driverOwnRet == 0
    ensures var s1 := ApplyWindow(s, inp.window);
      var r := Cycle(s, inp);
      (ProcessInt in NewEvents(s, r) <==> s1.intCount != 0) &&
      (s1.intCount != 0 ==> r.next.intCount == 0 && r.next.wakeupTries == s1.wakeupTries) &&
      (s1.intCount == 0 && s1.ps == PsSleep && s1.txQueue != [] ==>
         r.next == s1.(wakeupTries := s1.wakeupTries + 1, trace := s1.trace + [OwnRequest(DriverOwn)]) &&
         r.end == Continue)
  {
    var s1 := ApplyWindow(s, inp.window);
    StopChecks(s, inp);
    CycleShape(s, inp);
    DispatchCounters(s1, inp);
    HeadEventsFacts(s1);
    DispatchEventsFacts(s1, inp, HeadOf(s1));
  }

  /** After claiming interrupts the cycle goes on to the transmit checks: with the
      transport ready, the head of the queue is sent in the same cycle. */
  lemma InterruptFallsThrough(s: AdapterState, inp: Inputs)
    requires WellFormed(s) && s.running && !s.stop && !inp.window.stop && inp.driverOwnRet == 0
    requires inp.window.interrupts > 0 && s.txDnldRdy
    requires SeenQueue(s, inp) != []
    ensures var r := Cycle(s, inp);
      var q := SeenQueue(s, inp);
      r.next.intCount == 0 && r.next.ps == PsAwake && ProcessInt in NewEvents(s, r) &&
      Packets(r.next.trace) == Packets(s.trace) + [q[0]] && r.next.txQueue == q[1..]
  {
    InterruptOrDeferral(s, inp);
    CycleDequeuesHead(s, inp);
    StopChecks(s, inp);
    DispatchCounters(ApplyWindow(s, inp.window), inp);
  }

  /** The thread sleeps on its next pass after backing off, and any interrupt
      notification lifts that wait. */
  lemma DeferralThenInterrupt(s: AdapterState, inp: Inputs)
    requires WellFormed(s) && s.running && !s.stop && !inp.window.stop && inp.driverOwnRet == 0
    requires var s1 := ApplyWindow(s, inp.window);
      s1.intCount == 0 && s1.ps == PsSleep && s1.txQueue != []
    ensures Blocks(Cycle(s, inp).next)
    ensures !Blocks(Notify(Cycle(s, inp).next))
  {
    StopChecks(s, inp);
    DispatchCounters(ApplyWindow(s, inp.window), inp);
  }

  // ----- runs of cycles

  /** All packets queued by the upper layer over a sequence of cycles. */
  function AllArrivals(inputs: seq<Inputs>): seq<Skb>
  {
    if inputs == [] then [] else inputs[0].window.arrivals + AllArrivals(inputs[1..])
  }

  /** One cycle keeps every packet it has seen: sent, or still queued in order. */
  lemma CycleKeepsPackets(s: AdapterState, inp: Inputs)
    requires WellFormed(s) && s.running
    ensures var r := Cycle(s, inp);
      Packets(r.next.trace) + r.next.txQueue == Packets(s.trace) + SeenQueue(s, inp)
    ensures s.stop ==> !Cycle(s, inp).next.running
  {
    var r := Cycle(s, inp);
    var q := SeenQueue(s, inp);
    CycleDequeuesHead(s, inp);
    StopChecks(s, inp);
    if SendsThisCycle(s, inp) {
      assert [q[0]] + q[1..] == q;
    }
  }

  lemma ConcatRegroup<T>(a: seq<T>, b: seq<T>, c: seq<T>, d: seq<T>)
    ensures a + (b + c) + d == a + b + (c + d)
  {
  }

  lemma RunWhenStopped(s: AdapterState, inputs: seq<Inputs>)
    requires WellFormed(s) && !s.running
    ensures Run(s, inputs) == s
  {
  }

  /** First in, first out over any number of cycles: the packets sent followed by
      the packets still queued are a prefix of the packets sent before, the queue
      before, and the packets queued since. Nothing is sent twice, skipped or
      reordered. While the thread still runs, nothing has been dropped either:
      the two are equal. */
  lemma {:induction false} RunFifo(s: AdapterState, inputs: seq<Inputs>)
    requires WellFormed(s)
    ensures var t := Run(s, inputs);
      Packets(t.trace) + t.txQueue <= Packets(s.trace) + s.txQueue + AllArrivals(inputs)
    ensures var t := Run(s, inputs);
      t.running ==> Packets(t.trace) + t.txQueue == Packets(s.trace) + s.txQueue + AllArrivals(inputs)
    decreases |inputs|
  {
    var t := Run(s, inputs);
    var all := Packets(s.trace) + s.txQueue + AllArrivals(inputs);
    if inputs != [] && s.running {
      var inp := inputs[0];
      var next := Cycle(s, inp).next;
      assert t == Run(next, inputs[1..]);
      var rest := AllArrivals(inputs[1..]);
      assert AllArrivals(inputs) == inp.window.arrivals + rest;
      CycleKeepsPackets(s, inp);
      RunFifo(next, inputs[1..]);
      var sent := Packets(t.trace) + t.txQueue;
      var seen := Packets(next.trace) + next.txQueue;
      assert sent <= seen + rest;
      if s.stop {
        RunWhenStopped(next, inputs[1..]);
        assert seen == Packets(s.trace) + s.txQueue;
        assert all == seen + AllArrivals(inputs);
        assert !t.running;
      } else {
        assert seen == Packets(s.trace) + (s.txQueue + inp.window.arrivals);
        ConcatRegroup(Packets(s.trace), s.txQueue, inp.window.arrivals, rest);
      }
    }
  }

  /** Once the thread has left its loop no later cycle runs: the state stays as it was. */
  lemma {:induction false} RunAfterExit(s: AdapterState, inp: Inputs, rest: seq<Inputs>)
    requires WellFormed(s) && s.running
    requires Cycle(s, inp).end != Continue
    ensures Run(s, [inp] + rest) == Cycle(s, inp).next
    ensures !Run(s, [inp] + rest).running
  {
    var inputs := [inp] + rest;
    assert inputs[0] == inp && inputs[1..] == rest;
    RunWhenStopped(Cycle(s, inp).next, rest);
  }
}

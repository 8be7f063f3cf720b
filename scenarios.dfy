/**
  Whole-cycle behaviours of the service thread: interrupt coalescing, a burst
  of packets queued while the device sleeps, and a failed ownership claim.
 */
module Scenarios {
  import opened Frame
  import opened Worker
  import opened CycleProperties

  /** Inputs of a cycle in which nothing else happens and every ownership request succeeds. */
  function AllGranted(w: Window): Inputs
  {
    Inputs(w, 0, 0, 0)
  }

  /** Any number of interrupts notified while the thread sleeps idle are handled
      in one pass: the status is processed once, the counter ends at zero, no
      wakeup try is pending, and ownership goes back to the firmware. */
  lemma CoalescedInterrupts(s: AdapterState, k: nat)
    requires WellFormed(s) && s.running && !s.stop
    requires s.intCount == 0 && s.txQueue == [] && s.txDnldRdy
    requires k > 0
    ensures var r := Cycle(s, AllGranted(Window(k, [], false)));
      r.slept && r.end == Continue &&
      r.next.intCount == 0 && r.next.wakeupTries == 0 && r.next.ps == PsAwake &&
      r.next.trace == s.trace + [OwnRequest(DriverOwn), ProcessInt, OwnRequest(FwOwn)]
  {
    NotifyTimesCoalesce(s, k);
  }

  /** A transmittable packet: ten bytes of payload. */
  predicate TenBytes(p: Skb)
  {
    p.data.Some? && |p.data.value| == 10
  }

  function FrameOf(p: Skb): seq<byte>
    requires p.data.Some?
  {
    Encode(p.data.value, p.pktType)
  }

  /** A cycle with packets queued while the device sleeps and no interrupt
      pending backs off: one more wakeup try, the queue untouched, nothing sent. */
  lemma BackOff(s: AdapterState, arrivals: seq<Skb>)
    requires WellFormed(s) && s.running && !s.stop
    requires s.ps == PsSleep && s.intCount == 0 && s.txQueue + arrivals != []
    ensures var r := Cycle(s, AllGranted(Window(0, arrivals, false)));
      r.end == Continue && r.next.ps == PsSleep && r.next.intCount == 0 &&
      r.next.wakeupTries == s.wakeupTries + 1 && r.next.txQueue == s.txQueue + arrivals &&
      r.next.trace == s.trace + [OwnRequest(DriverOwn)] && r.next.running && !r.next.stop
  {
  }

  /** A cycle that finds the device awake and the transport ready sends the
      head of the queue as a frame, after any interrupt handling, and hands
      ownership back when the queue is left empty. */
  lemma SendHead(s: AdapterState, interrupts: nat)
    requires WellFormed(s) && s.running && !s.stop && s.txDnldRdy && s.hasHostToCard
    requires s.ps == PsAwake || interrupts > 0
    requires s.wakeupTries == 0 || interrupts > 0
    requires s.txQueue != [] && Accepts(Some(s.txQueue[0]), s.upldSize)
    ensures var r := Cycle(s, AllGranted(Window(interrupts, [], false)));
      var p := s.txQueue[0];
      var handled := if s.intCount + interrupts != 0 then [ProcessInt] else [];
      var released := if s.txQueue[1..] == [] then [OwnRequest(FwOwn)] else [];
      r.end == Continue && r.next.running && !r.next.stop &&
      r.next.ps == PsAwake && r.next.intCount == 0 && r.next.wakeupTries == 0 &&
      r.next.txQueue == s.txQueue[1..] &&
      r.next.trace == s.trace + [OwnRequest(DriverOwn)] + handled +
                      [TxPacket(p), HostToCard(Encode(p.data.value, p.pktType))] + released
  {
    if interrupts > 0 {
      NotifyTimesCoalesce(s, interrupts);
    }
  }

  /** A running thread takes the first input, then goes on with the rest. */
  lemma RunStep(s: AdapterState, inp: Inputs, rest: seq<Inputs>)
    requires WellFormed(s) && s.running
    ensures Run(s, [inp] + rest) == Run(Cycle(s, inp).next, rest)
  {
    assert ([inp] + rest)[0] == inp && ([inp] + rest)[1..] == rest;
  }

  /** The state in which the device is awake with nothing pending and the
      transport is ready to take 15-byte frames. */
  predicate Sending(s: AdapterState)
  {
    WellFormed(s) && s.running && !s.stop && s.ps == PsAwake && s.wakeupTries == 0 &&
    s.intCount == 0 && s.txDnldRdy && s.hasHostToCard && s.upldSize >= 15
  }

  /** The last packet of the queue goes out, and ownership goes back to the firmware. */
  lemma SendLast(s: AdapterState, p: Skb)
    requires Sending(s) && s.txQueue == [p] && TenBytes(p)
    ensures var t := Run(s, [AllGranted(Window(0, [], false))]);
      Sending(t) && t.txQueue == [] &&
      t.trace == s.trace + [OwnRequest(DriverOwn), TxPacket(p), HostToCard(FrameOf(p)), OwnRequest(FwOwn)]
  {
    var i := AllGranted(Window(0, [], false));
    SendHead(s, 0);
    RunStep(s, i, []);
    assert [i] == [i] + [];
  }

  /** Two queued packets go out in two cycles, in order. */
  lemma SendTwo(s: AdapterState, p2: Skb, p3: Skb)
    requires Sending(s) && s.txQueue == [p2, p3] && TenBytes(p2) && TenBytes(p3)
    ensures var i := AllGranted(Window(0, [], false));
      var t := Run(s, [i, i]);
      Sending(t) && t.txQueue == [] &&
      t.trace == s.trace + [OwnRequest(DriverOwn), TxPacket(p2), HostToCard(FrameOf(p2)),
                            OwnRequest(DriverOwn), TxPacket(p3), HostToCard(FrameOf(p3)), OwnRequest(FwOwn)]
  {
    var i := AllGranted(Window(0, [], false));
    SendHead(s, 0);
    var s3 := Cycle(s, i).next;
    assert s.txQueue[1..] == [p3];
    RunStep(s, i, [i]);
    assert [i, i] == [i] + [i];
    SendLast(s3, p3);
  }

  /** An interrupt wakes the device and the same cycle sends the head packet;
      `t` is the state that cycle leaves. */
  lemma WakeOne(s: AdapterState, p1: Skb, rest: seq<Skb>, more: seq<Inputs>) returns (t: AdapterState)
    requires WellFormed(s) && s.running && !s.stop && s.intCount == 0
    requires s.txDnldRdy && s.hasHostToCard && s.upldSize >= 15
    requires s.txQueue == [p1] + rest && rest != [] && TenBytes(p1)
    ensures Sending(t) && t.txQueue == rest &&
      t.trace == s.trace + [OwnRequest(DriverOwn), ProcessInt, TxPacket(p1), HostToCard(FrameOf(p1))]
    ensures Run(s, [AllGranted(Window(1, [], false))] + more) == Run(t, more)
  {
    var i := AllGranted(Window(1, [], false));
    SendHead(s, 1);
    assert s.txQueue[1..] == rest;
    t := Cycle(s, i).next;
    RunStep(s, i, more);
  }

  /** Joining two event lists written out element by element. */
  lemma Join<T>(a: seq<T>, b: seq<T>)
    requires |a| == 4 && |b| == 7
    ensures a + b == [a[0], a[1], a[2], a[3], b[0], b[1], b[2], b[3], b[4], b[5], b[6]]
  {
  }

  /** An interrupt wakes the sleeping device: the first packet goes out in that
      cycle, the other two in the next two. */
  lemma WakeAndSend(s: AdapterState, p1: Skb, p2: Skb, p3: Skb)
    requires WellFormed(s) && s.running && !s.stop && s.intCount == 0
    requires s.txDnldRdy && s.hasHostToCard && s.upldSize >= 15
    requires s.txQueue == [p1, p2, p3] && TenBytes(p1) && TenBytes(p2) && TenBytes(p3)
    ensures var i := AllGranted(Window(0, [], false));
      var t := Run(s, [AllGranted(Window(1, [], false)), i, i]);
      Sending(t) && t.txQueue == [] &&
      t.trace == s.trace + [OwnRequest(DriverOwn), ProcessInt, TxPacket(p1), HostToCard(FrameOf(p1)),
                            OwnRequest(DriverOwn), TxPacket(p2), HostToCard(FrameOf(p2)),
                            OwnRequest(DriverOwn), TxPacket(p3), HostToCard(FrameOf(p3)), OwnRequest(FwOwn)]
  {
    var i2, i3 := AllGranted(Window(1, [], false)), AllGranted(Window(0, [], false));
    assert s.txQueue == [p1] + [p2, p3];
    assert [i2, i3, i3] == [i2] + [i3, i3];
    var s2 := WakeOne(s, p1, [p2, p3], [i3, i3]);
    SendTwo(s2, p2, p3);
    var a := [OwnRequest(DriverOwn), ProcessInt, TxPacket(p1), HostToCard(FrameOf(p1))];
    var b := [OwnRequest(DriverOwn), TxPacket(p2), HostToCard(FrameOf(p2)),
              OwnRequest(DriverOwn), TxPacket(p3), HostToCard(FrameOf(p3)), OwnRequest(FwOwn)];
    Assoc(s.trace, a, b);
    Join(a, b);
  }

  /** The backing-off cycle as the first step of a run; `t` is the state it
      leaves. */
  lemma BackOffStep(s: AdapterState, arrivals: seq<Skb>, more: seq<Inputs>) returns (t: AdapterState)
    requires WellFormed(s) && s.running && !s.stop
    requires s.ps == PsSleep && s.intCount == 0 && s.txQueue == [] && arrivals != []
    ensures WellFormed(t) && t.running && !t.stop && t.ps == PsSleep && t.intCount == 0 &&
      t.wakeupTries == s.wakeupTries + 1 && t.txQueue == arrivals &&
      t.txDnldRdy == s.txDnldRdy && t.hasHostToCard == s.hasHostToCard && t.upldSize == s.upldSize &&
      t.trace == s.trace + [OwnRequest(DriverOwn)]
    ensures Run(s, [AllGranted(Window(0, arrivals, false))] + more) == Run(t, more)
  {
    var i := AllGranted(Window(0, arrivals, false));
    BackOff(s, arrivals);
    t := Cycle(s, i).next;
    RunStep(s, i, more);
  }

  /** Putting one event in front of eleven written out element by element. */
  lemma JoinOne<T>(a: T, b: seq<T>)
    requires |b| == 11
    ensures [a] + b == [a, b[0], b[1], b[2], b[3], b[4], b[5], b[6], b[7], b[8], b[9], b[10]]
  {
  }

  /**
    Three ten-byte packets queued while the device sleeps: the thread backs
    off (one wakeup try, nothing sent); an interrupt wakes the device and the
    same cycle sends the first packet; the next two cycles send the others, in
    order, as 15-byte frames; ownership goes back to the firmware once, after
    the third. DRIVER_OWN is requested on each of the four cycles.
   */
  lemma DeferredBurst(s: AdapterState, p1: Skb, p2: Skb, p3: Skb)
    requires WellFormed(s) && s.running && !s.stop
    requires s.ps == PsSleep && s.wakeupTries == 0 && s.intCount == 0 && s.txQueue == []
    requires s.txDnldRdy && s.hasHostToCard && s.upldSize >= 15 && s.trace == []
    requires TenBytes(p1) && TenBytes(p2) && TenBytes(p3)
    ensures var t := Run(s, [AllGranted(Window(0, [p1, p2, p3], false)), AllGranted(Window(1, [], false)),
                             AllGranted(Window(0, [], false)), AllGranted(Window(0, [], false))]);
      t.running && t.txQueue == [] && t.intCount == 0 && t.wakeupTries == 0 &&
      t.trace == [OwnRequest(DriverOwn),
                  OwnRequest(DriverOwn), ProcessInt, TxPacket(p1), HostToCard(FrameOf(p1)),
                  OwnRequest(DriverOwn), TxPacket(p2), HostToCard(FrameOf(p2)),
                  OwnRequest(DriverOwn), TxPacket(p3), HostToCard(FrameOf(p3)), OwnRequest(FwOwn)]
  {
    var i2, i3 := AllGranted(Window(1, [], false)), AllGranted(Window(0, [], false));
    var s1 := BackOffStep(s, [p1, p2, p3], [i2, i3, i3]);
    WakeAndSend(s1, p1, p2, p3);
    var b := [OwnRequest(DriverOwn), ProcessInt, TxPacket(p1), HostToCard(FrameOf(p1)),
              OwnRequest(DriverOwn), TxPacket(p2), HostToCard(FrameOf(p2)),
              OwnRequest(DriverOwn), TxPacket(p3), HostToCard(FrameOf(p3)), OwnRequest(FwOwn)];
    assert s1.trace == [OwnRequest(DriverOwn)];
    JoinOne(OwnRequest(DriverOwn), b);
  }

  /** Each of those packets goes out as a 15-byte frame whose header carries the length 15. */
  lemma TenByteFrame(p: Skb)
    requires TenBytes(p)
    ensures |FrameOf(p)| == 15 && FrameOf(p)[..HEADER_LEN] == [15, 0, 0, 0, p.pktType]
  {
    EncodeLayout(p.data.value, p.pktType);
  }

  /** When the DRIVER_OWN claim fails the thread ends at once: nothing is sent
      and the packets stay queued, whatever later cycles would have brought. */
  lemma ClaimFailureStopsThread(s: AdapterState, inp: Inputs, rest: seq<Inputs>)
    requires WellFormed(s) && s.running && !s.stop && !inp.window.stop
    requires inp.driverOwnRet != 0
    ensures var t := Run(s, [inp] + rest);
      !t.running && t.txQueue == s.txQueue + inp.window.arrivals &&
      Packets(t.trace) == Packets(s.trace) &&
      t.trace == s.trace + [OwnRequest(DriverOwn)]
  {
    OwnFailureEndsThread(s, inp);
    RunAfterExit(s, inp, rest);
    PacketsAppend(s.trace, [OwnRequest(DriverOwn)]);
  }
}

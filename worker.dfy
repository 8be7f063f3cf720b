/**
  One wake cycle of the driver's service thread, stated on values.
  The thread's `for (;;)` body becomes `Cycle`, a function from the adapter
  state and what the outside world did during the cycle to the new state and
  how the cycle ended; `Run` iterates it for as long as the thread runs.
 */
module Worker {
  import opened Frame

  datatype PsState = PsAwake | PsSleep

  /** Bus ownership requested through the set-own-back callback. */
  datatype Owner = DriverOwn | FwOwn

  /** The calls the thread makes into the transport, in order. */
  datatype Event =
    | OwnRequest(owner: Owner)      // hw_set_own_back(owner)
    | ProcessInt                    // hw_process_int_status
    | TxPacket(skb: Skb)            // btmtk_tx_pkt on a dequeued packet, freed right after
    | HostToCard(frame: seq<byte>)  // the bytes the encoder handed to the transport

  /** What the thread sees of the driver: the adapter fields, the transmit-ready
      flag, the thread status flag, the stop request, the scratch buffer and the
      trace of transport calls; `upldSize` and `hasHostToCard` never change. */
  datatype AdapterState = AdapterState(
    ps: PsState,
    wakeupTries: nat,
    intCount: nat,
    txQueue: seq<Skb>,
    txDnldRdy: bool,
    running: bool,
    stop: bool,
    scratch: seq<byte>,
    trace: seq<Event>,
    upldSize: nat,
    hasHostToCard: bool)

  /** The scratch buffer holds the largest frame the encoder accepts. */
  predicate WellFormed(s: AdapterState)
  {
    s.upldSize <= |s.scratch|
  }

  /** What other contexts do while the thread is between its sleep decision and
      its resumption: interrupt notifications, packets queued by the upper layer,
      and a stop request. */
  datatype Window = Window(interrupts: nat, arrivals: seq<Skb>, stop: bool)

  /** The outside world's share of one cycle: the window and the transport's answers. */
  datatype Inputs = Inputs(window: Window, driverOwnRet: int, txRet: int, fwOwnRet: int)

  datatype CycleEnd = Continue | Stopped | OwnFailed(owner: Owner)

  datatype CycleResult = CycleResult(next: AdapterState, slept: bool, end: CycleEnd)

  /** The effect of one interrupt notification. */
  function Notify(s: AdapterState): (t: AdapterState)
    ensures t.intCount == s.intCount + 1 && !Blocks(t)
    ensures t.(ps := s.ps, wakeupTries := s.wakeupTries, intCount := s.intCount) == s
  {
    s.(ps := PsAwake, wakeupTries := 0, intCount := s.intCount + 1)
  }

  /** `k` interrupt notifications in a row. */
  function NotifyTimes(s: AdapterState, k: nat): (t: AdapterState)
    ensures t.intCount == s.intCount + k
    ensures t.(ps := s.ps, wakeupTries := s.wakeupTries, intCount := s.intCount) == s
  {
    if k == 0 then s else Notify(NotifyTimes(s, k - 1))
  }

  /** Notifications coalesce: however many arrive, the thread sees the device
      awake, no pending wakeup retries, and the interrupt counter raised by their number. */
  lemma {:induction false} NotifyTimesCoalesce(s: AdapterState, k: nat)
    requires k > 0
    ensures NotifyTimes(s, k) == s.(ps := PsAwake, wakeupTries := 0, intCount := s.intCount + k)
  {
    if k > 1 {
      NotifyTimesCoalesce(s, k - 1);
    }
  }

  /** The wait condition of the thread: it goes on only with work to do, an
      interrupt or a packet it may send, and no back-off pending. */
  predicate Blocks(s: AdapterState): (b: bool)
    ensures !b ==> s.wakeupTries == 0 && (s.intCount != 0 || (s.txDnldRdy && s.txQueue != []))
  {
    s.wakeupTries > 0 || (s.intCount == 0 && (!s.txDnldRdy || s.txQueue == []))
  }

  /** The state once the window has passed: its interrupt notifications (see
      WindowIsNotifications), then its packets queued and its stop request. */
  function ApplyWindow(s: AdapterState, w: Window): (t: AdapterState)
  {
    var s1 := s.(txQueue := s.txQueue + w.arrivals, stop := s.stop || w.stop);
    if w.interrupts == 0 then s1
    else s1.(ps := PsAwake, wakeupTries := 0, intCount := s.intCount + w.interrupts)
  }

  lemma WindowIsNotifications(s: AdapterState, w: Window)
    ensures var t := NotifyTimes(s, w.interrupts);
      ApplyWindow(s, w) == t.(txQueue := t.txQueue + w.arrivals, stop := t.stop || w.stop)
  {
    if w.interrupts > 0 {
      NotifyTimesCoalesce(s, w.interrupts);
    }
  }

  /** Result of transmitting `skb` from state `s`: the encoder's effect on the
      scratch buffer and the frame it hands to the transport, if any. */
  function Transmit(s: AdapterState, skb: Skb): (t: AdapterState)
    requires WellFormed(s)
    ensures WellFormed(t)
    ensures t.(scratch := s.scratch, trace := s.trace) == s
    ensures s.trace + [TxPacket(skb)] <= t.trace
  {
    var s1 := s.(trace := s.trace + [TxPacket(skb)]);
    if !Accepts(Some(skb), s.upldSize) then s1
    else
      var payload := skb.data.value;
      var s2 := s1.(scratch := Image(payload, skb.pktType, |s.scratch|));
      if s.hasHostToCard then s2.(trace := s2.trace + [HostToCard(Encode(payload, skb.pktType))])
      else s2
  }

  /** The tail of the cycle from the transmit checks on. */
  function Drain(s: AdapterState, inp: Inputs): (r: (AdapterState, CycleEnd))
    requires WellFormed(s) && s.running
    ensures WellFormed(r.0)
    ensures r.0.upldSize == s.upldSize && r.0.hasHostToCard == s.hasHostToCard
    ensures r.0.txDnldRdy == s.txDnldRdy && r.0.ps == s.ps && r.0.stop == s.stop
    ensures r.0.intCount == s.intCount && r.0.wakeupTries == s.wakeupTries
    ensures s.trace <= r.0.trace
    ensures r.0.running <==> r.1 == Continue
  {
    if s.ps == PsSleep || !s.txDnldRdy then (s, Continue)
    else
      var s1 := if s.txQueue == [] then s
                else Transmit(s.(txQueue := s.txQueue[1..]), s.txQueue[0]);
      if s1.txQueue != [] then (s1, Continue)
      else
        var s2 := s1.(trace := s1.trace + [OwnRequest(FwOwn)]);
        if inp.fwOwnRet != 0 then (s2.(running := false), OwnFailed(FwOwn))
        else (s2, Continue)
  }

  /** The cycle once the thread is past its stop checks: the DRIVER_OWN claim,
      then the interrupt branch, the deferral branch or neither, then the
      transmit checks. */
  function Dispatch(s: AdapterState, inp: Inputs): (r: (AdapterState, CycleEnd))
    requires WellFormed(s) && s.running
    ensures WellFormed(r.0)
    ensures r.0.upldSize == s.upldSize && r.0.hasHostToCard == s.hasHostToCard
    ensures r.0.txDnldRdy == s.txDnldRdy && r.0.stop == s.stop
    ensures s.trace <= r.0.trace
    ensures r.0.running <==> r.1 == Continue
  {
    var s2 := s.(trace := s.trace + [OwnRequest(DriverOwn)]);
    if inp.driverOwnRet != 0 then (s2.(running := false), OwnFailed(DriverOwn))
    else if s2.intCount != 0 then Drain(s2.(intCount := 0, trace := s2.trace + [ProcessInt]), inp)
    else if s2.ps == PsSleep && s2.txQueue != [] then (s2.(wakeupTries := s2.wakeupTries + 1), Continue)
    else Drain(s2, inp)
  }

  /** One pass of the service thread's loop body. */
  function Cycle(s: AdapterState, inp: Inputs): (r: CycleResult)
    requires WellFormed(s) && s.running
    ensures WellFormed(r.next)
    ensures r.next.upldSize == s.upldSize && r.next.hasHostToCard == s.hasHostToCard
    ensures r.next.txDnldRdy == s.txDnldRdy
    ensures s.trace <= r.next.trace
    ensures r.next.running <==> r.end == Continue
  {
    if s.stop then CycleResult(s.(running := false), false, Stopped)
    else
      var s1 := ApplyWindow(s, inp.window);
      if s1.stop then CycleResult(s1.(running := false), Blocks(s), Stopped)
      else
        var (t, end) := Dispatch(s1, inp);
        CycleResult(t, Blocks(s), end)
  }

  /** Cycles in a row, one per element of `inputs`, for as long as the thread runs. */
  function Run(s: AdapterState, inputs: seq<Inputs>): (t: AdapterState)
    requires WellFormed(s)
    ensures WellFormed(t)
    ensures t.upldSize == s.upldSize && t.hasHostToCard == s.hasHostToCard && t.txDnldRdy == s.txDnldRdy
    ensures s.trace <= t.trace
    ensures !s.running ==> t == s
    decreases |inputs|
  {
    if inputs == [] || !s.running then s
    else Run(Cycle(s, inputs[0]).next, inputs[1..])
  }
}

/**
  The driver's private state as an object: the adapter fields the interrupt
  path and the service thread update in place, the thread status flag, the
  stop request, the shared transmit scratch buffer and the trace of transport
  calls. Each method is proved against the value-level functions of `Worker`.
 */
module Driver {
  import opened Frame
  import opened Worker

  /** Number of the last probe-ready poll before the thread gives up. */
  const PROBE_POLL_LIMIT: nat := 1000

  datatype ProbeOutcome = Proceed(poll: nat) | GiveUp

  /**
    The wait for the bus probe at the start of the service thread: poll `i`
    (from 0 to 1000) first looks at the stop request, then at the probe-ready
    flag, and either one ends the wait; after poll 1000 the thread gives up.
    `shouldStop(i)` and `probeReady(i)` are what poll `i` observes.
   */
  method AwaitProbe(shouldStop: nat -> bool, probeReady: nat -> bool) returns (r: ProbeOutcome)
    ensures r.Proceed? ==>
      r.poll <= PROBE_POLL_LIMIT && (shouldStop(r.poll) || probeReady(r.poll)) &&
      forall j :: 0 <= j < r.poll ==> !shouldStop(j) && !probeReady(j)
    ensures r.GiveUp? ==>
      forall j :: 0 <= j <= PROBE_POLL_LIMIT ==> !shouldStop(j) && !probeReady(j)
  {
    var i := 0;
    while i <= PROBE_POLL_LIMIT
      invariant 0 <= i <= PROBE_POLL_LIMIT
      invariant forall j :: 0 <= j < i ==> !shouldStop(j) && !probeReady(j)
      decreases PROBE_POLL_LIMIT - i
    {
      if shouldStop(i) {
        return Proceed(i);
      }
      if probeReady(i) {
        return Proceed(i);
      }
      // the 10-15 ms sleep between polls is not modelled
      if i == PROBE_POLL_LIMIT {
        return GiveUp;
      }
      i := i + 1;
    }
    assert false;
    return GiveUp;
  }

  class Adapter {
    var ps: PsState
    var wakeupTries: nat
    var intCount: nat
    var txQueue: seq<Skb>
    var txDnldRdy: bool
    /** The thread status flag: set when the loop starts, cleared when it ends. */
    var threadStatus: bool
    /** The pending kthread stop request. */
    var stop: bool
    /** The transport calls made so far. */
    var trace: seq<Event>
    /** The transmit scratch buffer, MTK_TXDATA_SIZE bytes. */
    const txbuf: array<byte>
    /** BTM_UPLD_SIZE, the largest frame the encoder accepts. */
    const upldSize: nat
    /** Whether the transport registered its host-to-card callback. */
    const hasHostToCard: bool

    ghost predicate Valid()
      reads this
    {
      upldSize <= txbuf.Length
    }

    function View(): AdapterState
      reads this, txbuf
    {
      AdapterState(ps, wakeupTries, intCount, txQueue, txDnldRdy, threadStatus, stop,
                   txbuf[..], trace, upldSize, hasHostToCard)
    }

    /** The adapter as card addition leaves it: zeroed, device awake, empty
        queue, transport ready, thread not yet in its loop. */
    constructor (txdataSize: nat, upldSize: nat, hasHostToCard: bool)
      requires upldSize <= txdataSize
      ensures Valid() && fresh(txbuf)
      ensures View() == AdapterState(PsAwake, 0, 0, [], true, false, false,
                                     Zeros(txdataSize), [], upldSize, hasHostToCard)
    {
      ps := PsAwake;
      wakeupTries := 0;
      intCount := 0;
      txQueue := [];
      txDnldRdy := true;
      threadStatus := false;
      stop := false;
      trace := [];
      txbuf := new byte[txdataSize](_ => 0);
      this.upldSize := upldSize;
      this.hasHostToCard := hasHostToCard;
    }

    /** Interrupt notification: the device is awake, wakeup retries are
        forgotten, one more interrupt is pending; nothing else changes. */
    method Interrupt()
      modifies this
      ensures ps == PsAwake && wakeupTries == 0 && intCount == old(intCount) + 1
      ensures View() == Notify(old(View()))
    {
      ps := PsAwake;
      wakeupTries := 0;
      intCount := intCount + 1;
    }

    /** Start of the service thread: the probe wait, then the loop is entered
        (the status flag set) unless the thread gave up. */
    method StartWorker(probeReady: nat -> bool) returns (entered: bool)
      requires Valid()
      modifies this
      ensures Valid()
      ensures entered <==> old(stop) || exists j :: 0 <= j <= PROBE_POLL_LIMIT && probeReady(j)
      ensures View() == old(View()).(running := old(threadStatus) || entered)
    {
      var stopNow := stop;
      var shouldStop := (_: nat) => stopNow;
      var r := AwaitProbe(shouldStop, probeReady);
      if r.GiveUp? {
        assert !shouldStop(0);
      }
      entered := r.Proceed?;
      if entered {
        threadStatus := true;
      }
    }

    /** One pass of the service thread's loop body (the loop only runs while the
        status flag is set). */
    method Step(inp: Inputs) returns (slept: bool, end: CycleEnd)
      requires Valid() && threadStatus
      modifies this, txbuf
      ensures Valid()
      ensures var r := Cycle(old(View()), inp);
        View() == r.next && slept == r.slept && end == r.end
    {
      ghost var s := View();
      if stop {
        threadStatus := false;
        return false, Stopped;
      }
      slept := wakeupTries > 0 || (intCount == 0 && (!txDnldRdy || txQueue == []));
      assert slept == Blocks(s);

      // while the thread sleeps, or between its check and resuming, other
      // contexts notify interrupts, queue packets and may request a stop
      var i := 0;
      while i < inp.window.interrupts
        invariant 0 <= i <= inp.window.interrupts
        invariant View() == NotifyTimes(s, i)
      {
        Interrupt();
        i := i + 1;
      }
      txQueue := txQueue + inp.window.arrivals;
      stop := stop || inp.window.stop;
      ghost var s1 := View();
      WindowIsNotifications(s, inp.window);
      assert s1 == ApplyWindow(s, inp.window);

      if stop {
        threadStatus := false;
        assert Cycle(s, inp) == CycleResult(s1.(running := false), slept, Stopped);
        return slept, Stopped;
      }
      assert Cycle(s, inp) == CycleResult(Dispatch(s1, inp).0, slept, Dispatch(s1, inp).1);
      end := Dispatching(inp);
    }

    /** The cycle once the thread is past its stop checks. */
    method Dispatching(inp: Inputs) returns (end: CycleEnd)
      requires Valid() && threadStatus
      modifies this, txbuf
      ensures Valid()
      ensures var (next, e) := Dispatch(old(View()), inp);
        View() == next && end == e
    {
      ghost var s1 := View();
      trace := trace + [OwnRequest(DriverOwn)];
      ghost var s2 := View();
      assert s2 == s1.(trace := s1.trace + [OwnRequest(DriverOwn)]);
      if inp.driverOwnRet != 0 {
        threadStatus := false;
        return OwnFailed(DriverOwn);
      }

      ghost var s3 := s2;
      if intCount != 0 {
        intCount := 0;
        trace := trace + [ProcessInt];
        s3 := s2.(intCount := 0, trace := s2.trace + [ProcessInt]);
        assert View() == s3;
      } else if ps == PsSleep && txQueue != [] {
        wakeupTries := wakeupTries + 1;
        return Continue;
      }
      assert Dispatch(s1, inp) == Drain(s3, inp);
      end := Transmitting(inp);
    }

    /** The cycle from the transmit checks on. */
    method Transmitting(inp: Inputs) returns (end: CycleEnd)
      requires Valid() && threadStatus
      modifies this, txbuf
      ensures Valid()
      ensures var (next, e) := Drain(old(View()), inp);
        View() == next && end == e
    {
      if ps == PsSleep {
        return Continue;
      }
      if !txDnldRdy {
        return Continue;
      }
      if txQueue != [] {
        ghost var s := View().(txQueue := txQueue[1..]);
        var skb := txQueue[0];
        txQueue := txQueue[1..];
        trace := trace + [TxPacket(skb)];
        var hostToCard := if hasHostToCard then Some(inp.txRet) else None;
        var ret, handed := TxPkt(txbuf, Some(skb), upldSize, hostToCard);
        if handed.Some? {
          trace := trace + [HostToCard(handed.value)];
        }
        assert View() == Transmit(s, skb);
      }
      if txQueue == [] {
        trace := trace + [OwnRequest(FwOwn)];
        if inp.fwOwnRet != 0 {
          threadStatus := false;
          return OwnFailed(FwOwn);
        }
      }
      return Continue;
    }

    /**
      Card removal: the thread is stopped only when the task exists and its
      status flag says it is in its loop; the stop makes it leave at its next
      check. Then the packet queue is purged.
     */
    method RemoveCard(taskIsErr: bool)
      requires Valid()
      modifies this, txbuf
      ensures Valid()
      ensures var gate := !taskIsErr && old(threadStatus);
        View() == old(View()).(stop := old(stop) || gate, running := old(threadStatus) && !gate,
                               txQueue := [])
    {
      if !taskIsErr && threadStatus {
        stop := true;
        var slept, end := Step(Inputs(Window(0, [], false), 0, 0, 0));
      }
      txQueue := [];
    }
  }
}

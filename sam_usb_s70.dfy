// The SAMS70 USB device (USBHS): what differs from the SAM3X. Its DMA
// transfers set fewer descriptor flags, a VBUS change seen by the interrupt
// is handled later from a flag, and one pass over endpoints 1 to 9 services
// their FIFO and DMA interrupts, finishing each transfer that ended.
// The endpoint size encodings and limits are those of SamUsb.

module SamUsbS70 {

  import opened SamUsb

  /** What one endpoint's interrupt registers show when the pass reaches it. */
  datatype EndpointStatus = EndpointStatus(
    txIn: bool,                 // configured as an IN (device to host) endpoint
    interruptEnabled: bool,     // the endpoint's interrupt is enabled
    inSendEnabled: bool, inSend: bool,           // TXINI enabled and set
    outReceivedEnabled: bool, outReceived: bool, // RXOUTI enabled and set
    byteCount: nat,             // bytes in the current bank
    size: nat,                  // the endpoint's size
    dmaBytesLeft: nat,          // the DMA channel's remaining buffer count
    dmaInterruptEnabled: bool, dmaInterrupt: bool,
    descriptorLoaded: bool,     // DESC_LDST in the DMA status
    endOfBuffer: bool)          // END_BF_ST in the DMA status

  /**
   * The pass's decisions for one endpoint: whether an interrupt was
   * serviced, whether the bank was acknowledged and released (actions A
   * and B), whether the transfer is finished (C and D), and whether the
   * IN interrupt is turned on once the DMA descriptor is loaded.
   */
  datatype Outcome = Outcome(handled: bool, released: bool, completed: bool, enableInSend: bool)

  /** A TXINI interrupt of an IN endpoint. */
  predicate TxInterrupt(st: EndpointStatus)
  {
    st.interruptEnabled && st.txIn && st.inSendEnabled && st.inSend
  }

  /** An RXOUTI interrupt of an OUT endpoint. */
  predicate RxInterrupt(st: EndpointStatus)
  {
    st.interruptEnabled && !st.txIn && st.outReceivedEnabled && st.outReceived
  }

  predicate DmaInterrupt(st: EndpointStatus)
  {
    st.dmaInterruptEnabled && st.dmaInterrupt
  }

  /**
   * One endpoint's part of checkAndHandleEndpoint. An IN bank is sent when
   * it is full or the DMA has nothing left, and the transfer ends when the
   * DMA has nothing left or the bank is empty while the DMA still holds
   * data. An OUT bank emptied by the DMA is released; one still holding
   * data while the DMA buffer is full ends the transfer. The DMA's
   * end-of-buffer status ends it too.
   */
  function Service(st: EndpointStatus): (o: Outcome)
    ensures o.completed ==> o.handled
    ensures o.released ==> TxInterrupt(st) || RxInterrupt(st)
    ensures o.enableInSend ==> st.txIn && DmaInterrupt(st) && st.descriptorLoaded
  {
    var tx := TxInterrupt(st);
    var rx := RxInterrupt(st);
    var dma := DmaInterrupt(st);
    var released := (tx && (st.size == st.byteCount || st.dmaBytesLeft == 0)) || (rx && st.byteCount == 0);
    var completedByFifo :=
      (tx && (st.dmaBytesLeft == 0 || (st.byteCount == 0 && st.dmaBytesLeft > 0)))
      || (rx && st.byteCount != 0 && st.dmaBytesLeft == 0);
    var completed := completedByFifo || (dma && st.endOfBuffer);
    Outcome(tx || rx || dma, released, completed,
            dma && st.descriptorLoaded && !completedByFifo && st.txIn)
  }

  /**
   * The seven cases the driver distinguishes. An OUT bank still holding
   * data is never released (that would lose it); an IN transfer whose DMA
   * ran dry sends its last bank and finishes; a full IN bank with data
   * still in the DMA is sent and the transfer goes on; nothing happens
   * without an enabled interrupt.
   */
  lemma ServiceCases(st: EndpointStatus)
    ensures RxInterrupt(st) && st.byteCount != 0 ==> !Service(st).released
    ensures RxInterrupt(st) && st.byteCount == 0 ==> Service(st).released
    ensures RxInterrupt(st) && st.byteCount != 0 && st.dmaBytesLeft == 0 ==> Service(st).completed
    ensures TxInterrupt(st) && st.dmaBytesLeft == 0 ==> Service(st).released && Service(st).completed
    ensures TxInterrupt(st) && st.byteCount == st.size && st.dmaBytesLeft > 0 && st.byteCount > 0 && !(DmaInterrupt(st) && st.endOfBuffer)
      ==> Service(st).released && !Service(st).completed
    ensures !TxInterrupt(st) && !RxInterrupt(st) && !DmaInterrupt(st) ==> Service(st) == Outcome(false, false, false, false)
  {
  }

  /** The endpoints among first up to last - 1 whose transfer the pass finishes. */
  function Finished(status: seq<EndpointStatus>, first: nat, last: nat): (s: set<nat>)
    requires last <= |status|
    ensures forall ep :: ep in s <==> first <= ep < last && Service(status[ep]).completed
  {
    set ep: nat | first <= ep < last && Service(status[ep]).completed
  }

  /**
   * One endpoint's effect on the TXINI enables: a loaded IN descriptor
   * turns it on, then a finished IN transfer turns it off.
   */
  function InSendStep(enabled: set<nat>, ep: nat, st: EndpointStatus): set<nat>
  {
    var o := Service(st);
    var on := if o.enableInSend then enabled + {ep} else enabled;
    if o.completed && st.txIn then on - {ep} else on
  }

  /** The TXINI enables after the pass has serviced endpoints 1 up to last - 1. */
  function InSendAfter(before: set<nat>, status: seq<EndpointStatus>, last: nat): set<nat>
    requires last <= |status|
  {
    if last <= 1 then before
    else InSendStep(InSendAfter(before, status, last - 1), last - 1, status[last - 1])
  }

  /**
   * After the pass, outside endpoints 1 to 9 the enables are as before;
   * a finished IN endpoint has TXINI off, and a loaded IN descriptor whose
   * transfer goes on has it on.
   */
  lemma {:induction false} InSendAfterMeaning(before: set<nat>, status: seq<EndpointStatus>, last: nat)
    requires last <= |status|
    ensures forall ep :: !(1 <= ep < last) ==> (ep in InSendAfter(before, status, last) <==> ep in before)
    ensures forall ep :: 1 <= ep < last && Service(status[ep]).completed && status[ep].txIn ==> ep !in InSendAfter(before, status, last)
    ensures forall ep :: 1 <= ep < last && Service(status[ep]).enableInSend && !Service(status[ep]).completed ==> ep in InSendAfter(before, status, last)
  {
    if last > 1 {
      InSendAfterMeaning(before, status, last - 1);
    }
  }

  /** The SAMS70 USB device hardware's transfer bookkeeping. */
  class UsbDeviceHardware {
    var configNumber: nat
    var inited: bool
    /** _vbus_changed, set by the VBUS interrupt. */
    var vbusChanged: bool
    /** Whether the device is attached to the bus. */
    var attached: bool
    /** handleConnectionStateChanged calls. */
    var connectionChanges: nat
    /** _dma_used_by_endpoint, and the endpoints reported done in order. */
    var dmaUsed: set<nat>
    var done: seq<nat>
    /** The endpoints whose TXINI interrupt is enabled. */
    var inSendEnabled: set<nat>

    constructor ()
      ensures configNumber == 0 && !inited && vbusChanged && !attached
      ensures connectionChanges == 0 && dmaUsed == {} && done == [] && inSendEnabled == {}
    {
      configNumber, inited, vbusChanged, attached := 0, false, true, false;
      connectionChanges, dmaUsed, done, inSendEnabled := 0, {}, [], {};
    }

    /** handleVbusChange: the change is noted for the main loop. */
    method HandleVbusChange() returns (r: bool)
      modifies this`vbusChanged
      ensures vbusChanged && r
    {
      vbusChanged := true;
      r := true;
    }

    /**
     * transfer: refused before the device is configured; otherwise run and
     * stop with the end-of-buffer interrupt, an IN endpoint also validating
     * the packet at the buffer's end and interrupting when the descriptor
     * is loaded; the endpoint is marked as using DMA.
     */
    method Transfer(ep: nat, txIn: bool, desc: Descriptor) returns (ok: bool, desc': Descriptor)
      modifies this`dmaUsed, this`inSendEnabled
      ensures ok <==> configNumber != 0
      ensures !ok ==> desc' == desc && dmaUsed == old(dmaUsed) && inSendEnabled == old(inSendEnabled)
      ensures ok ==> dmaUsed == old(dmaUsed) + {ep}
      ensures ok ==> inSendEnabled == if txIn then old(inSendEnabled) + {ep} else old(inSendEnabled)
      ensures ok ==> desc' == desc.(command := RunAndStop, endBufferInterrupt := true,
        descriptorLoadedInterrupt := txIn, endBufferEnable := txIn || desc.endBufferEnable)
    {
      desc' := desc;
      if configNumber == 0 {
        return false, desc';
      }
      desc' := desc'.(command := RunAndStop, descriptorLoadedInterrupt := false);
      if txIn {
        desc' := desc'.(endBufferEnable := true, descriptorLoadedInterrupt := true);
      }
      desc' := desc'.(endBufferInterrupt := true);
      dmaUsed := dmaUsed + {ep};
      if txIn {
        inSendEnabled := inSendEnabled + {ep};
      }
      ok := true;
    }

    /**
     * _completeTransfer: an IN endpoint's TXINI interrupt is disabled, the
     * endpoint no longer uses DMA and is reported done.
     */
    method CompleteTransfer(ep: nat, txIn: bool)
      modifies this`dmaUsed, this`done, this`inSendEnabled
      ensures dmaUsed == old(dmaUsed) - {ep} && done == old(done) + [ep]
      ensures inSendEnabled == if txIn then old(inSendEnabled) - {ep} else old(inSendEnabled)
    {
      if txIn {
        inSendEnabled := inSendEnabled - {ep};
      }
      dmaUsed := dmaUsed - {ep};
      done := done + [ep];
    }

    /**
     * The disconnect branch of checkAndHandleVbusChange: each of endpoints
     * 0 to 9 still using DMA is stopped and reported done, in order.
     */
    method StopAllTransfers()
      modifies this`dmaUsed, this`done
      ensures dmaUsed == (set ep | ep in old(dmaUsed) && ep >= 10)
      ensures done == old(done) + Ascending(old(dmaUsed), 0, 10)
    {
      for ep := 0 to 10
        invariant dmaUsed == (set e | e in old(dmaUsed) && e >= ep)
        invariant done == old(done) + Ascending(old(dmaUsed), 0, ep)
      {
        if ep in dmaUsed {
          dmaUsed := dmaUsed - {ep};
          done := done + [ep];
        }
      }
    }

    /**
     * checkAndHandleVbusChange: nothing unless a change was flagged; the
     * flag is always cleared; before init nothing else happens. On
     * disconnect the open transfers are stopped and the device detached, on
     * connect it is attached, and the connection change is reported.
     */
    method CheckAndHandleVbusChange(connected: bool) returns (handled: bool)
      modifies this`vbusChanged, this`dmaUsed, this`done, this`attached, this`connectionChanges
      ensures handled <==> old(vbusChanged) && inited
      ensures !vbusChanged
      ensures !handled ==>
        dmaUsed == old(dmaUsed) && done == old(done) && attached == old(attached) && connectionChanges == old(connectionChanges)
      ensures handled ==> connectionChanges == old(connectionChanges) + 1 && attached == connected
      ensures handled && connected ==> dmaUsed == old(dmaUsed) && done == old(done)
      ensures handled && !connected ==>
        dmaUsed == (set ep | ep in old(dmaUsed) && ep >= 10) && done == old(done) + Ascending(old(dmaUsed), 0, 10)
    {
      if !vbusChanged {
        return false;
      }
      vbusChanged := false;
      if !inited {
        return false;
      }
      if !connected {
        StopAllTransfers();
        attached := false;
      }
      if connected {
        attached := true;
      }
      connectionChanges := connectionChanges + 1;
      handled := true;
    }

    /** The body of checkAndHandleEndpoint's loop for one endpoint. */
    method ServiceEndpoint(st: EndpointStatus, ep: nat) returns (o: Outcome)
      modifies this`dmaUsed, this`done, this`inSendEnabled
      ensures o == Service(st)
      ensures dmaUsed == if o.completed then old(dmaUsed) - {ep} else old(dmaUsed)
      ensures done == if o.completed then old(done) + [ep] else old(done)
      ensures inSendEnabled == InSendStep(old(inSendEnabled), ep, st)
    {
      o := Service(st);
      if o.enableInSend {
        inSendEnabled := inSendEnabled + {ep};
      }
      if o.completed {
        CompleteTransfer(ep, st.txIn);
      }
    }

    /**
     * checkAndHandleEndpoint: one pass over endpoints 1 to 9 in order, each
     * serviced by Service; the finished ones are reported done in order and
     * leave DMA, the loaded IN descriptors turn their interrupt on, and the
     * banks released are returned.
     */
    method CheckAndHandleEndpoint(status: seq<EndpointStatus>) returns (handled: bool, released: set<nat>)
      requires |status| == 10
      modifies this`dmaUsed, this`done, this`inSendEnabled
      ensures handled <==> exists ep :: 1 <= ep < 10 && Service(status[ep]).handled
      ensures released == set ep: nat | 1 <= ep < 10 && Service(status[ep]).released
      ensures dmaUsed == old(dmaUsed) - Finished(status, 1, 10)
      ensures done == old(done) + Ascending(Finished(status, 1, 10), 1, 10)
      ensures inSendEnabled == InSendAfter(old(inSendEnabled), status, 10)
    {
      handled, released := false, {};
      for ep := 1 to 10
        invariant handled <==> exists e :: 1 <= e < ep && Service(status[e]).handled
        invariant released == set e: nat | 1 <= e < ep && Service(status[e]).released
        invariant dmaUsed == old(dmaUsed) - Finished(status, 1, ep)
        invariant done == old(done) + Ascending(Finished(status, 1, 10), 1, ep)
        invariant inSendEnabled == InSendAfter(old(inSendEnabled), status, ep)
      {
        var o := ServiceEndpoint(status[ep], ep);
        if o.released {
          released := released + {ep};
        }
        assert Finished(status, 1, ep + 1) == Finished(status, 1, ep) + (if o.completed then {ep} else {});
        handled := handled || o.handled;
      }
    }
  }

  /**
   * Each endpoint is finished at most once in a pass, and only those with
   * an interrupt serviced: the done list grows by distinct endpoints
   * between 1 and 9, in order.
   */
  lemma FinishedOncePerPass(status: seq<EndpointStatus>)
    requires |status| == 10
    ensures forall i, j :: 0 <= i < j < |Ascending(Finished(status, 1, 10), 1, 10)| ==>
      Ascending(Finished(status, 1, 10), 1, 10)[i] < Ascending(Finished(status, 1, 10), 1, 10)[j]
    ensures forall ep :: ep in Ascending(Finished(status, 1, 10), 1, 10) ==> 1 <= ep < 10 && Service(status[ep]).handled
  {
    AscendingLists(Finished(status, 1, 10), 1, 10);
  }
}

// The SPI bus with arbitration: a singly linked list of the devices on the
// bus and a singly linked queue of messages waiting for the hardware. Each
// list is described by a ghost sequence of its nodes in link order, and the
// bus keeps both sequences in step with the next pointers. The hardware's
// setChannel, startTransfer and deassert calls are recorded in fields; the
// message callbacks are not modelled (they do nothing here), and the service
// call that defers sendNextMessageActual to a lower priority is a direct call.

module MotateSpi {

  import opened Wrappers
  import opened Chains
  import opened MotateCommon

  /** A buffer address handed to the hardware; 0 is the null pointer. */
  type Handle = nat

  /** A message length: uint16_t. */
  type Size = x: nat | x < 0x1_0000

  /** One hardware.startTransfer(tx, rx, size) call. */
  datatype Transfer = Transfer(tx: Handle, rx: Handle, size: Size)

  /** The transfer-done interrupt bits the bus handler reacts to. */
  const TransferDone: InterruptType := Mask(TxTransferDone) | Mask(RxTransferDone)

  /** SPIBusDevice: a chip on the bus, linked into the bus's device list. */
  class Device {
    var next: Device?
    /** The value given to the hardware to select this chip (getChannel). */
    const csValue: nat

    constructor (csValue: nat)
      ensures this.csValue == csValue && next == null
    {
      this.csValue := csValue;
      next := null;
    }
  }

  /** SPIMessage: one transfer and how the bus should treat chip select after it. */
  class Message {
    var tx: Handle
    var rx: Handle
    var size: Size
    var deassertAfter: bool
    var immediateDeassertAfter: bool
    var endsTransaction: bool
    var immediateEndsTransaction: bool
    var device: Device?
    var next: Message?
    var sending: bool

    /** A message with static storage starts zeroed: unlinked, unowned and not sending. */
    constructor ()
      ensures next == null && device == null && !sending
    {
      next := null;
      device := null;
      sending := false;
    }

    /** setup stores its arguments and returns the message itself. */
    method Setup(newTx: Handle, newRx: Handle, newSize: Size, newDeassertAfter: bool, newEndsTransaction: bool)
      returns (self: Message)
      modifies this`tx, this`rx, this`size, this`deassertAfter, this`endsTransaction
      ensures self == this
      ensures tx == newTx && rx == newRx && size == newSize
      ensures deassertAfter == newDeassertAfter && endsTransaction == newEndsTransaction
    {
      tx := newTx;
      rx := newRx;
      size := newSize;
      deassertAfter := newDeassertAfter;
      endsTransaction := newEndsTransaction;
      return this;
    }
  }

  function Owner(d: Device?): Option<Device?>
  {
    if d == null then None else Some(d)
  }

  /**
   * Which queued message sendNextMessageActual starts, given the owners of the
   * queue, whether its head is already sending, the current transaction device
   * and the bus's sending flag; None when it starts nothing.
   */
  function Choice(owners: seq<Device?>, headSending: bool, current: Device?, busy: bool): (r: Option<nat>)
    ensures r.None? <==> busy || owners == [] || headSending || (current != null && current !in owners)
    ensures r.Some? ==> r.value < |owners| && (current == null || owners[r.value] == current)
    ensures r.Some? ==> forall j :: 0 <= j < r.value ==> owners[j] != current
    ensures r.Some? && (current == null || owners[0] == current) ==> r.value == 0
  {
    if busy || owners == [] || headSending then None
    else Affinity(owners, Owner(current))
  }

  /** SPIBus: the device list, the message queue and the arbitration state. */
  class Bus {
    var firstDevice: Device?
    ghost var devices: seq<Device>
    var firstMessage: Message?
    ghost var queue: seq<Message>
    /** The owner of each queued message, in queue order. */
    ghost var owners: seq<Device>
    var currentTransactionDevice: Device?
    var sending: bool
    /** The last value given to hardware.setChannel. */
    var channel: nat
    /** Every hardware.startTransfer call, oldest first. */
    var transfers: seq<Transfer>
    /** How many times hardware.deassert was called. */
    var deasserts: nat

    ghost predicate DeviceList()
      reads this`firstDevice, this`devices, devices`next
    {
      Distinct(devices)
      && (if devices == [] then firstDevice == null
          else firstDevice == devices[0] && devices[|devices| - 1].next == null)
      && forall i :: 0 <= i < |devices| - 1 ==> devices[i].next == devices[i + 1]
    }

    ghost predicate MessageQueue()
      reads this`firstMessage, this`queue, queue`next
    {
      Distinct(queue)
      && (if queue == [] then firstMessage == null
          else firstMessage == queue[0] && queue[|queue| - 1].next == null)
      && forall i :: 0 <= i < |queue| - 1 ==> queue[i].next == queue[i + 1]
    }

    /**
     * The queue is well linked, every queued message has an owner, and the
     * bus is sending exactly when the head of the queue is; no other queued
     * message is sending.
     */
    ghost predicate QueueValid()
      reads this, queue
    {
      MessageQueue() && Owned() && Flags()
    }

    ghost predicate Owned()
      reads this`queue, this`owners, queue`device
    {
      |owners| == |queue| && forall i :: 0 <= i < |queue| ==> queue[i].device == owners[i]
    }

    ghost predicate Flags()
      reads this`queue, this`sending, queue`sending
    {
      (forall i :: 1 <= i < |queue| ==> !queue[i].sending)
      && (sending <==> queue != [] && queue[0].sending)
    }

    /** What sendNextMessageActual would start now. */
    ghost function NextChoice(): Option<nat>
      reads this, queue
    {
      Choice(owners, queue != [] && queue[0].sending, currentTransactionDevice, sending)
    }

    /**
     * The state after sendNextMessageActual ran on queue q with choice c: with
     * no choice nothing changed; otherwise the chosen message was moved to the
     * head, marked sending, made the transaction owner, its chip was selected
     * and its transfer started.
     */
    ghost predicate Sent(q: seq<Message>, c: Option<nat>, wasSending: bool, current0: Device?,
                         channel0: nat, transfers0: seq<Transfer>)
      reads this, queue
    {
      match c
      case None =>
        queue == q && sending == wasSending && currentTransactionDevice == current0
        && channel == channel0 && transfers == transfers0
      case Some(k) =>
        k < |q| && queue == MoveToFront(q, k) && sending && queue[0].sending
        && currentTransactionDevice == queue[0].device && currentTransactionDevice != null
        && channel == currentTransactionDevice.csValue
        && transfers == transfers0 + [Transfer(queue[0].tx, queue[0].rx, queue[0].size)]
    }

    /** A bus with static storage: both lists empty, nothing sending. */
    constructor ()
      ensures DeviceList() && QueueValid() && devices == [] && queue == []
      ensures !sending && currentTransactionDevice == null && transfers == [] && deasserts == 0
    {
      firstDevice := null;
      devices := [];
      firstMessage := null;
      queue := [];
      owners := [];
      currentTransactionDevice := null;
      sending := false;
      channel := 0;
      transfers := [];
      deasserts := 0;
    }

    /** addDevice appends at the tail, and does nothing if the device is already listed. */
    method AddDevice(d: Device)
      requires DeviceList() && d.next == null
      modifies this`firstDevice, this`devices, devices`next
      ensures DeviceList()
      ensures devices == if d in old(devices) then old(devices) else old(devices) + [d]
    {
      if firstDevice == null {
        firstDevice := d;
        devices := [d];
        return;
      }
      var walker: Device? := null;
      var walkerNext: Device? := firstDevice;
      var i := 0;
      while walkerNext != null
        invariant 0 <= i <= |devices|
        invariant walkerNext == if i < |devices| then devices[i] else null
        invariant walker == if i == 0 then null else devices[i - 1]
        invariant d !in devices[..i]
        decreases |devices| - i
      {
        if d == walkerNext {
          return;
        }
        walker := walkerNext;
        walkerNext := walker.next;
        i := i + 1;
      }
      assert devices[..i] == devices;
      walker.next := d;
      devices := devices + [d];
    }

    /** removeDevice unlinks the device; it does nothing when the device is absent. */
    method RemoveDevice(d: Device)
      requires DeviceList()
      modifies this`firstDevice, this`devices, devices`next
      ensures DeviceList()
      ensures devices == Without(old(devices), d)
      ensures d.next == old(d.next)
    {
      if firstDevice == null {
        WithoutAbsent(devices, d);
        return;
      }
      if firstDevice == d {
        WithoutAt(devices, 0);
        UnlinkHead();
        return;
      }
      var walker := firstDevice;
      var walkerNext := firstDevice.next;
      var i := 1;
      while walkerNext != null
        invariant 1 <= i <= |devices|
        invariant walker == devices[i - 1]
        invariant walkerNext == if i < |devices| then devices[i] else null
        invariant d !in devices[..i]
        decreases |devices| - i
      {
        if walkerNext == d {
          WithoutAt(devices, i);
          Unlink(walker, walkerNext, i);
          return;
        }
        walker := walkerNext;
        walkerNext := walker.next;
        i := i + 1;
      }
      assert devices[..i] == devices;
      WithoutAbsent(devices, d);
    }

    /** The pointer write that unlinks the head of the device list. */
    method UnlinkHead()
      requires DeviceList() && devices != []
      modifies this`firstDevice, this`devices
      ensures DeviceList() && devices == old(devices[1..])
    {
      ghost var ds := devices;
      firstDevice := firstDevice.next;
      devices := ds[1..];
      assert Distinct(devices);
      assert forall i :: 0 <= i < |devices| ==> devices[i] == ds[i + 1];
    }

    /** The pointer write that unlinks devices[k] from its predecessor. */
    method Unlink(walker: Device, unlinked: Device, k: nat)
      requires DeviceList() && 1 <= k < |devices| && walker == devices[k - 1] && unlinked == devices[k]
      modifies this`devices, walker`next
      ensures DeviceList() && devices == old(devices[..k] + devices[k + 1..])
      ensures unlinked.next == old(unlinked.next)
    {
      ghost var ds := devices;
      walker.next := unlinked.next;
      devices := ds[..k] + ds[k + 1..];
      forall i | 0 <= i < |devices| - 1
        ensures devices[i].next == devices[i + 1]
      {
        if i < k - 1 {
          assert devices[i] == ds[i] && devices[i + 1] == ds[i + 1];
        } else if i == k - 1 {
          assert devices[i] == walker && devices[i + 1] == ds[k + 1];
        } else {
          assert devices[i] == ds[i + 1] && devices[i + 1] == ds[i + 2];
        }
      }
      forall i, j | 0 <= i < j < |devices|
        ensures devices[i] != devices[j]
      {
        var a := if i < k then i else i + 1;
        var b := if j < k then j else j + 1;
        assert devices[i] == ds[a] && devices[j] == ds[b];
      }
      if devices != [] {
        assert devices[|devices| - 1] == if k == |ds| - 1 then walker else ds[|ds| - 1];
      }
    }

    /** The append half of queueMessage: the message joins the tail, owned by d. */
    method Enqueue(d: Device, msg: Message)
      requires QueueValid() && msg !in queue && msg.next == null && !msg.sending
      modifies this`firstMessage, this`queue, this`owners, queue`next, msg`device
      ensures QueueValid()
      ensures queue == old(queue) + [msg] && owners == old(owners) + [d] && msg.device == d
    {
      msg.device := d;
      owners := owners + [d];
      if firstMessage == null {
        firstMessage := msg;
        queue := [msg];
      } else {
        var walker := firstMessage;
        var i := 0;
        while walker.next != null
          invariant 0 <= i < |queue| && walker == queue[i]
          invariant walker.next == if i < |queue| - 1 then queue[i + 1] else null
          decreases |queue| - i
        {
          walker := walker.next;
          i := i + 1;
        }
        Append(walker, msg);
      }
    }

    /** The pointer write that links msg behind the tail of a non-empty queue. */
    method Append(tail: Message, msg: Message)
      requires MessageQueue() && queue != [] && tail == queue[|queue| - 1]
      requires msg !in queue && msg.next == null
      modifies this`queue, tail`next
      ensures MessageQueue() && queue == old(queue) + [msg]
    {
      ghost var q := queue;
      tail.next := msg;
      queue := q + [msg];
      forall i | 0 <= i < |queue| - 1
        ensures queue[i].next == queue[i + 1]
      {
        if i < |q| - 1 {
          assert queue[i] == q[i] != tail;
        }
      }
    }

    /**
     * queueMessage: the message is owned by d and appended at the tail, then
     * the bus tries to start the next message.
     */
    method QueueMessage(d: Device, msg: Message)
      requires QueueValid() && msg !in queue && msg.next == null && !msg.sending
      modifies this`firstMessage, this`queue, this`owners, this`sending, this`currentTransactionDevice
      modifies this`channel, this`transfers, queue`next, queue`sending, msg
      ensures QueueValid() && msg.device == d
      ensures Sent(old(queue) + [msg],
                   old(Choice(owners + [d], queue != [] && queue[0].sending, currentTransactionDevice, sending)),
                   old(sending), old(currentTransactionDevice), old(channel), old(transfers))
    {
      Enqueue(d, msg);
      SendNextMessageActual();
    }

    /**
     * The affinity search of sendNextMessageActual: the first message after the
     * head that belongs to dev is relinked to the head; found is false, and
     * nothing changes, when there is none.
     */
    method Promote(dev: Device) returns (found: bool)
      requires QueueValid() && !sending && queue != [] && queue[0].device != dev
      modifies this`firstMessage, this`queue, this`owners, queue`next
      ensures QueueValid()
      ensures var c := IndexFrom(old(owners), dev, 1);
        (c.None? ==> !found && queue == old(queue))
        && (c.Some? ==> found && c.value < |old(queue)| && queue == MoveToFront(old(queue), c.value))
    {
      var previous, walker, k := FindFor(dev);
      if walker == null {
        return false;
      }
      Relink(previous, walker, k);
      return true;
    }

    /**
     * The walk of the affinity search: walker is the first message after the
     * head that belongs to dev, at position k, and previous is the message
     * before it; walker is null when dev has no message after the head.
     */
    method FindFor(dev: Device) returns (previous: Message, walker: Message?, ghost k: nat)
      requires MessageQueue() && Owned() && queue != []
      ensures var c := IndexFrom(owners, dev, 1);
        (walker == null <==> c.None?)
        && (walker != null ==> c == Some(k) && 1 <= k < |queue| && walker == queue[k] && previous == queue[k - 1])
    {
      previous := firstMessage;
      walker := firstMessage.next;
      k := 1;
      while walker != null && walker.device != dev
        invariant 1 <= k <= |queue|
        invariant previous == queue[k - 1]
        invariant walker == if k < |queue| then queue[k] else null
        invariant IndexFrom(owners, dev, 1) == IndexFrom(owners, dev, k)
        decreases |queue| - k
      {
        previous := walker;
        walker := walker.next;
        k := k + 1;
      }
    }

    /** Moving queue[k] to the head of a queue that is not sending, with its owner. */
    method Relink(previous: Message, walker: Message, ghost k: nat)
      requires QueueValid() && !sending && 1 <= k < |queue|
      requires previous == queue[k - 1] && walker == queue[k]
      modifies this`firstMessage, this`queue, this`owners, previous`next, walker`next
      ensures QueueValid()
      ensures queue == MoveToFront(old(queue), k) && owners == MoveToFront(old(owners), k)
    {
      ghost var q := queue;
      ghost var o := owners;
      RelinkNext(previous, walker, k);
      assert forall j :: 0 <= j < |q| ==> q[j].device == o[j];
      assert forall j :: 0 <= j < |q| ==> !q[j].sending;
      owners := MoveToFront(o, k);
    }

    /** The three pointer writes that move queue[k] to the head. */
    method RelinkNext(previous: Message, walker: Message, ghost k: nat)
      requires MessageQueue() && 1 <= k < |queue|
      requires previous == queue[k - 1] && walker == queue[k]
      modifies this`firstMessage, this`queue, previous`next, walker`next
      ensures MessageQueue() && queue == MoveToFront(old(queue), k)
    {
      ghost var q := queue;
      MoveToFrontDistinct(q, k);
      previous.next := walker.next;
      walker.next := firstMessage;
      firstMessage := walker;
      queue := MoveToFront(q, k);
      forall i | 0 <= i < |queue| - 1
        ensures queue[i].next == queue[i + 1]
      {
        var j := MoveToFrontNext(q, k, i);
        if i != 0 && i != k {
          assert old(q[j].next) == q[j + 1];
        }
      }
      MoveToFrontAt(q, k, |q| - 1);
    }

    /**
     * sendNextMessageActual: nothing happens while sending, with an empty
     * queue or with a head already sending; with a transaction device the
     * device's first message is moved to the head, and nothing happens when
     * it has none; then the head is started.
     */
    method SendNextMessageActual()
      requires QueueValid()
      modifies this`firstMessage, this`queue, this`owners, this`sending, this`currentTransactionDevice
      modifies this`channel, this`transfers, queue`next, queue`sending
      ensures QueueValid()
      ensures Sent(old(queue), old(NextChoice()), old(sending), old(currentTransactionDevice),
                   old(channel), old(transfers))
    {
      if sending {
        return;
      }
      if firstMessage == null {
        return;
      }
      if firstMessage.sending {
        return;
      }
      if currentTransactionDevice != null && firstMessage.device != currentTransactionDevice {
        StartOwn(currentTransactionDevice);
      } else {
        StartHead();
      }
    }

    /** With a transaction device that does not own the head, its first message is relinked and started. */
    method StartOwn(dev: Device)
      requires QueueValid() && !sending && queue != [] && !queue[0].sending
      requires currentTransactionDevice == dev && owners[0] != dev
      modifies this`firstMessage, this`queue, this`owners, this`sending, this`currentTransactionDevice
      modifies this`channel, this`transfers, queue`next, queue`sending
      ensures QueueValid()
      ensures Sent(old(queue), old(NextChoice()), false, dev, old(channel), old(transfers))
    {
      ghost var q := queue;
      ghost var c := NextChoice();
      assert c == IndexFrom(owners, dev, 1);
      var found := Promote(dev);
      if !found {
        return;
      }
      assert firstMessage == q[c.value];
      Start();
    }

    /** With no transaction device, or one that owns the head, the head is started. */
    method StartHead()
      requires QueueValid() && !sending && queue != [] && !queue[0].sending
      requires currentTransactionDevice == null || owners[0] == currentTransactionDevice
      modifies this`sending, this`currentTransactionDevice, this`channel, this`transfers, firstMessage`sending
      ensures QueueValid()
      ensures Sent(old(queue), old(NextChoice()), false, old(currentTransactionDevice), old(channel), old(transfers))
    {
      assert NextChoice() == Some(0);
      MoveToFrontPermutes(queue, 0);
      Start();
    }

    /** Starting the head: it is sending, owns the transaction, and its transfer begins. */
    method Start()
      requires QueueValid() && queue != [] && !sending && !queue[0].sending
      modifies this`sending, this`currentTransactionDevice, this`channel, this`transfers, firstMessage`sending
      ensures QueueValid() && sending && queue[0].sending
      ensures currentTransactionDevice == queue[0].device && currentTransactionDevice != null
      ensures channel == currentTransactionDevice.csValue
      ensures transfers == old(transfers) + [Transfer(queue[0].tx, queue[0].rx, queue[0].size)]
    {
      sending := true;
      firstMessage.sending := true;
      currentTransactionDevice := firstMessage.device;
      channel := currentTransactionDevice.csValue;
      transfers := transfers + [Transfer(firstMessage.tx, firstMessage.rx, firstMessage.size)];
    }

    /**
     * spiInterruptHandler: on transfer-done, once both directions are done,
     * the head is popped (unlinked, not sending, its immediate flags reset to
     * the configured ones); it ends the transaction and deasserts chip select
     * as those flags say; then the bus is free and the next message starts.
     */
    method SpiInterruptHandler(cause: InterruptType, doneReading: bool, doneWriting: bool)
      requires QueueValid()
      modifies this`firstMessage, this`queue, this`owners, this`sending, this`currentTransactionDevice
      modifies this`channel, this`transfers, this`deasserts, queue
      ensures QueueValid()
      ensures !HasBits(cause, TransferDone) || !doneReading || !doneWriting ==>
        unchanged(this) && unchanged(old(queue))
      ensures HasBits(cause, TransferDone) && doneReading && doneWriting ==>
        var popped := old(queue) != [];
        var rest := if popped then old(queue)[1..] else [];
        var current := if popped && old(queue[0].endsTransaction) then null else old(currentTransactionDevice);
        Sent(rest, old(Choice(if popped then owners[1..] else [], false, current, false)), false, current, old(channel), old(transfers))
        && deasserts == old(deasserts) + (if popped && old(queue[0].deassertAfter) then 1 else 0)
    {
      if HasBits(cause, TransferDone) {
        if !doneReading {
          return;
        }
        if !doneWriting {
          return;
        }
        ghost var count := deasserts + if queue != [] && queue[0].deassertAfter then 1 else 0;
        Retire();
        SendNextMessageActual();
        assert deasserts == count;
      }
    }

    /**
     * The transfer-done bookkeeping before the next send: the head, if any,
     * is popped, and the bus is no longer sending.
     */
    method Retire()
      requires QueueValid()
      modifies this`firstMessage, this`queue, this`owners, this`currentTransactionDevice, this`deasserts, this`sending
      modifies firstMessage
      ensures QueueValid() && !sending
      ensures var popped := old(queue) != [];
        queue == (if popped then old(queue[1..]) else [])
        && NextChoice() == old(Choice(if popped then owners[1..] else [], false,
                                      if popped && queue[0].endsTransaction then null else currentTransactionDevice,
                                      false))
        && deasserts == old(deasserts) + (if popped && old(queue[0].deassertAfter) then 1 else 0)
        && currentTransactionDevice
           == if popped && old(queue[0].endsTransaction) then null else old(currentTransactionDevice)
    {
      if firstMessage != null {
        var m := Pop();
      }
      sending := false;
    }

    /**
     * The pop of a finished head: it is unlinked and no longer sending, its
     * immediate flags take the configured values (the callback, which may
     * change them, does nothing here), and those flags end the transaction
     * and deassert chip select.
     */
    method Pop() returns (m: Message)
      requires QueueValid() && queue != []
      modifies this`firstMessage, this`queue, this`owners, this`currentTransactionDevice, this`deasserts
      modifies firstMessage`next, firstMessage`sending
      modifies firstMessage`immediateEndsTransaction, firstMessage`immediateDeassertAfter
      ensures MessageQueue() && Owned() && forall i :: 0 <= i < |queue| ==> !queue[i].sending
      ensures m == old(queue[0]) && queue == old(queue[1..]) && owners == old(owners[1..])
      ensures forall i :: 0 <= i < |queue| ==> queue[i] != m
      ensures m.next == null && !m.sending
      ensures m.immediateEndsTransaction == m.endsTransaction && m.immediateDeassertAfter == m.deassertAfter
      ensures currentTransactionDevice == if m.endsTransaction then null else old(currentTransactionDevice)
      ensures deasserts == old(deasserts) + if m.deassertAfter then 1 else 0
    {
      m := Unqueue();
      m.sending := false;
      m.immediateEndsTransaction := m.endsTransaction;
      m.immediateDeassertAfter := m.deassertAfter;
      if m.immediateEndsTransaction {
        currentTransactionDevice := null;
      }
      if m.immediateDeassertAfter {
        deasserts := deasserts + 1;
      }
    }

    /** The pointer writes that unlink the head of the queue. */
    method Unqueue() returns (m: Message)
      requires QueueValid() && queue != []
      modifies this`firstMessage, this`queue, this`owners, firstMessage`next
      ensures MessageQueue() && Owned() && forall i :: 0 <= i < |queue| ==> !queue[i].sending
      ensures m == old(queue[0]) && queue == old(queue[1..]) && owners == old(owners[1..])
      ensures forall i :: 0 <= i < |queue| ==> queue[i] != m
      ensures m.next == null
    {
      m := firstMessage;
      firstMessage := m.next;
      queue := queue[1..];
      owners := owners[1..];
      m.next := null;
    }
  }
}

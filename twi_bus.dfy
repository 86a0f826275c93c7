// The TWI (I2C) bus with arbitration. It has the SPI bus's device list and
// message queue, with three differences: each message carries a state (Idle,
// Setup, Sending, Done); a finished message is only marked Done and stays
// linked until the next send drops the Done messages at the head; and
// queueing a message that is already queued does not link it again.
//
// As on the SPI bus, the queue is described by ghost sequences (the messages,
// their owners and their states, in link order); hardware calls are recorded
// in fields, callbacks do nothing, and the service call that runs
// sendNextMessageActual at a lower priority is a direct call.

module MotateTwi {

  import opened Wrappers
  import opened Chains
  import opened MotateCommon
  import MotateSpi

  datatype State = Idle | Setup | Sending | Done

  /** A chip on the bus, linked into the bus's device list. */
  class Device {
    var next: Device?
    /** The value given to hardware.setChannel when this device's message starts. */
    const channel: nat

    constructor (channel: nat)
      ensures this.channel == channel && next == null
    {
      this.channel := channel;
      next := null;
    }
  }

  /** TWIMessage: one transfer, its chip-select handling and its state. */
  class Message {
    var tx: MotateSpi.Handle
    var rx: MotateSpi.Handle
    var size: MotateSpi.Size
    var deassertAfter: bool
    var immediateDeassertAfter: bool
    var endsTransaction: bool
    var immediateEndsTransaction: bool
    var device: Device?
    var next: Message?
    var state: State

    /** A message with static storage starts zeroed and Idle. */
    constructor ()
      ensures next == null && device == null && state == Idle
    {
      next := null;
      device := null;
      state := Idle;
    }

    /** setup stores its arguments, makes the message Setup and returns it. */
    method Setup(newTx: MotateSpi.Handle, newRx: MotateSpi.Handle, newSize: MotateSpi.Size,
                 newDeassertAfter: bool, newEndsTransaction: bool)
      returns (self: Message)
      modifies this`tx, this`rx, this`size, this`deassertAfter, this`endsTransaction, this`state
      ensures self == this && state == State.Setup
      ensures tx == newTx && rx == newRx && size == newSize
      ensures deassertAfter == newDeassertAfter && endsTransaction == newEndsTransaction
    {
      tx := newTx;
      rx := newRx;
      size := newSize;
      deassertAfter := newDeassertAfter;
      endsTransaction := newEndsTransaction;
      state := State.Setup;
      return this;
    }
  }

  /** How many messages at the head of the queue are Done. */
  function DoneRun(states: seq<State>): (n: nat)
    ensures n <= |states|
    ensures forall i :: 0 <= i < n ==> states[i] == Done
    ensures n < |states| ==> states[n] != Done
  {
    if states == [] || states[0] != Done then 0 else 1 + DoneRun(states[1..])
  }

  lemma {:induction false} DoneRunAppend(states: seq<State>, s: State)
    requires DoneRun(states) < |states|
    ensures DoneRun(states + [s]) == DoneRun(states)
  {
    if states[0] == Done {
      assert (states + [s])[1..] == states[1..] + [s];
      DoneRunAppend(states[1..], s);
    }
  }

  function Owner(d: Device?): Option<Device?>
  {
    if d == null then None else Some(d)
  }

  /**
   * Which message sendNextMessageActual starts, as a position in the queue
   * after its leading Done messages are dropped: none when nothing is left or
   * the new head is already Sending; otherwise the transaction device's first
   * message, or the head when there is no transaction device.
   */
  function Choice(owners: seq<Device>, states: seq<State>, current: Device?): (r: Option<nat>)
    requires |owners| == |states|
    ensures var d := DoneRun(states);
      r.None? <==> d == |states| || states[d] == Sending || (current != null && current !in owners[d..])
    ensures var d := DoneRun(states);
      r.Some? ==> d + r.value < |states| && (current == null || owners[d + r.value] == current)
    ensures var d := DoneRun(states);
      r.Some? ==> forall j :: d <= j < d + r.value ==> owners[j] != current
  {
    var d := DoneRun(states);
    if d == |states| || states[d] == Sending then None
    else Affinity(owners[d..], Owner(current))
  }

  /** The handler's bookkeeping: the first message that is not Done becomes Done if it was Sending. */
  function Marked(states: seq<State>): seq<State>
  {
    var j := DoneRun(states);
    if j < |states| && states[j] == Sending then states[j := Done] else states
  }

  /**
   * The sending flag and the states agree: at most one message is Sending,
   * it is the first message that is not Done, and the bus is sending exactly
   * when there is one.
   */
  predicate SendingShape(states: seq<State>, sending: bool)
  {
    (forall i :: 0 <= i < |states| && states[i] == Sending ==> i == DoneRun(states))
    && (sending <==> DoneRun(states) < |states| && states[DoneRun(states)] == Sending)
  }

  /** After the handler's bookkeeping nothing is Sending any more, and the Done run does not shrink. */
  lemma MarkedIdle(states: seq<State>, sending: bool)
    requires SendingShape(states, sending)
    ensures Sending !in Marked(states)
    ensures SendingShape(Marked(states), false)
    ensures DoneRun(Marked(states)) >= DoneRun(states)
    ensures sending ==> DoneRun(Marked(states)) > DoneRun(states)
  {
    var m := Marked(states);
    var j := DoneRun(states);
    if j < |states| && states[j] == Sending {
      MarkedRun(states, j);
    }
  }

  lemma {:induction false} MarkedRun(states: seq<State>, j: nat)
    requires j == DoneRun(states) && j < |states|
    ensures DoneRun(states[j := Done]) > j
  {
    if j > 0 {
      assert states[j := Done][1..] == states[1..][j - 1 := Done];
      MarkedRun(states[1..], j - 1);
    }
  }

  /** The owners with every occurrence of m handed to d. */
  function Reowned(q: seq<Message>, owners: seq<Device>, m: Message, d: Device): (r: seq<Device>)
    ensures |r| == |owners|
    ensures forall i :: 0 <= i < |owners| ==> r[i] == if i < |q| && q[i] == m then d else owners[i]
  {
    seq(|owners|, i requires 0 <= i < |owners| => if i < |q| && q[i] == m then d else owners[i])
  }

  /** The owners and states are those recorded in the messages, position by position. */
  ghost predicate MirroredBy(q: seq<Message>, o: seq<Device>, s: seq<State>)
    reads q`device, q`state
  {
    |o| == |q| && |s| == |q|
    && (forall i {:trigger o[i]} :: 0 <= i < |q| ==> q[i].device == o[i])
    && (forall i {:trigger s[i]} :: 0 <= i < |q| ==> q[i].state == s[i])
  }

  /** Moving a message to the head moves its owner and state with it, and brings no Sending message. */
  lemma MirrorMoved(q: seq<Message>, o: seq<Device>, s: seq<State>, k: nat)
    requires k < |q| && MirroredBy(q, o, s) && Sending !in s
    ensures MirroredBy(MoveToFront(q, k), MoveToFront(o, k), MoveToFront(s, k))
    ensures SendingShape(MoveToFront(s, k), false)
  {
    forall j | 0 <= j < |q|
      ensures MoveToFront(q, k)[j].device == MoveToFront(o, k)[j] && MoveToFront(q, k)[j].state == MoveToFront(s, k)[j]
      ensures MoveToFront(s, k)[j] != Sending
    {
      MoveToFrontAt(q, k, j);
      MoveToFrontAt(o, k, j);
      MoveToFrontAt(s, k, j);
    }
  }

  /**
   * The arbitration state of a bus: the queued messages in link order with
   * their owners and states, the sending flag, the transaction device, the
   * selected channel, the messages whose transfers were started (oldest
   * first) and the number of chip-select deasserts.
   */
  datatype Arbiter = Arbiter(queue: seq<Message>, owners: seq<Device>, states: seq<State>, sending: bool,
                             current: Device?, channel: nat, transfers: seq<Message>, deasserts: nat)
  {
    predicate Shaped()
    {
      |owners| == |queue| && |states| == |queue|
    }
  }

  /** The Done messages at the head are unlinked. */
  function Dropped(a: Arbiter): (r: Arbiter)
    requires a.Shaped()
    ensures r.Shaped() && DoneRun(r.states) == 0
    ensures r.sending == a.sending && r.current == a.current && r.channel == a.channel
    ensures r.transfers == a.transfers && r.deasserts == a.deasserts
    ensures var d := DoneRun(a.states); a.queue == a.queue[..d] + r.queue && a.states[..d] + r.states == a.states
  {
    var d := DoneRun(a.states);
    a.(queue := a.queue[d..], owners := a.owners[d..], states := a.states[d..])
  }

  /** The message at position k, with its owner and state, is moved to the head. */
  function Moved(a: Arbiter, k: nat): (r: Arbiter)
    requires a.Shaped() && k < |a.queue|
    ensures r.Shaped()
  {
    a.(queue := MoveToFront(a.queue, k), owners := MoveToFront(a.owners, k), states := MoveToFront(a.states, k))
  }

  /** The head is started: Sending, owner of the transaction, its channel selected and its transfer begun. */
  function Launched(a: Arbiter): (r: Arbiter)
    requires a.Shaped() && a.queue != []
    ensures r.Shaped() && r.sending && r.current == a.owners[0] && r.queue == a.queue
  {
    a.(states := a.states[0 := Sending], sending := true, current := a.owners[0], channel := a.owners[0].channel,
       transfers := a.transfers + [a.queue[0]])
  }

  /** The start step: the message Choice picks, if any, is moved to the head and started. */
  function StartChoice(a: Arbiter): (r: Arbiter)
    requires a.Shaped()
    ensures r.Shaped()
  {
    match Choice(a.owners, a.states, a.current)
    case None => a
    case Some(k) => Launched(Moved(a, k))
  }

  /**
   * sendNextMessageActual on the arbitration state: nothing while sending;
   * otherwise the Done messages at the head are dropped and the start step runs.
   */
  function SendNext(a: Arbiter): (r: Arbiter)
    requires a.Shaped()
    ensures r.Shaped()
  {
    if a.sending then a else StartChoice(Dropped(a))
  }

  /** The linking half of queueMessage: m is handed to d, and appended unless already queued. */
  ghost function Linked(a: Arbiter, m: Message, d: Device): (r: Arbiter)
    requires a.Shaped()
    reads m`state
    ensures r.Shaped()
  {
    if m in a.queue then a.(owners := Reowned(a.queue, a.owners, m, d))
    else a.(queue := a.queue + [m], owners := a.owners + [d], states := a.states + [m.state])
  }

  /**
   * Linking keeps every queued message in its place with its state, hands m
   * (and only m) to d, and appends m exactly when it was not queued.
   */
  lemma LinkedOwns(a: Arbiter, m: Message, d: Device)
    requires a.Shaped()
    ensures var r := Linked(a, m, d);
      && |r.queue| == |a.queue| + (if m in a.queue then 0 else 1)
      && m in r.queue
      && (forall i :: 0 <= i < |r.queue| && r.queue[i] == m ==> r.owners[i] == d)
      && (forall i :: 0 <= i < |a.queue| ==>
            r.queue[i] == a.queue[i] && r.states[i] == a.states[i] && (a.queue[i] != m ==> r.owners[i] == a.owners[i]))
  {
  }

  /**
   * The handler's bookkeeping: the first message that is not Done becomes
   * Done if it was Sending; it clears the transaction device when it ends the
   * transaction and deasserts chip select when it asks for that; the bus is
   * no longer sending.
   */
  ghost function Finished(a: Arbiter): (r: Arbiter)
    requires a.Shaped()
    reads a.queue`endsTransaction, a.queue`deassertAfter
    ensures r.Shaped() && !r.sending && r.queue == a.queue && r.owners == a.owners
  {
    var j := DoneRun(a.states);
    var marked := j < |a.queue| && a.states[j] == Sending;
    a.(states := Marked(a.states), sending := false,
       current := if marked && a.queue[j].endsTransaction then null else a.current,
       deasserts := if marked && a.queue[j].deassertAfter then a.deasserts + 1 else a.deasserts)
  }

  /** A send right after a send changes nothing: the first one already started what could start. */
  lemma SendNextIdempotent(a: Arbiter)
    requires a.Shaped()
    ensures SendNext(SendNext(a)) == SendNext(a)
  {
    if !a.sending {
      var b := Dropped(a);
      assert Dropped(b) == b;
      match Choice(b.owners, b.states, b.current)
      case None =>
        assert SendNext(a) == b;
      case Some(k) =>
        assert SendNext(a).sending;
    }
  }

  /**
   * Transaction affinity: with a transaction device, a send that starts
   * something starts a message of that device, which keeps the transaction;
   * when the device has nothing queued behind the Done run, the send only
   * drops the Done messages and waits.
   */
  lemma SendNextAffinity(a: Arbiter)
    requires a.Shaped() && !a.sending && a.current != null
    ensures SendNext(a).sending ==> SendNext(a).owners[0] == a.current && SendNext(a).current == a.current
    ensures a.current !in a.owners[DoneRun(a.states)..] ==> SendNext(a) == Dropped(a)
  {
    var b := Dropped(a);
    var d := DoneRun(a.states);
    assert b.owners == a.owners[d..];
    match Choice(b.owners, b.states, b.current)
    case None =>
    case Some(k) =>
      MoveToFrontPermutes(b.owners, k);
  }

  /** Without a transaction device the head left after the Done run starts, and the order is kept. */
  lemma SendNextHead(a: Arbiter)
    requires a.Shaped() && !a.sending && a.current == null
    requires DoneRun(a.states) < |a.queue| && a.states[DoneRun(a.states)] != Sending
    ensures SendNext(a).sending && SendNext(a).queue == a.queue[DoneRun(a.states)..]
    ensures SendNext(a).current == a.owners[DoneRun(a.states)]
  {
    var b := Dropped(a);
    MoveToFrontPermutes(b.queue, 0);
    MoveToFrontPermutes(b.owners, 0);
  }

  /**
   * On a queue without repeats a send drops the Done run and at most moves
   * one message to the head: the others keep their relative order.
   */
  lemma SendNextReorders(a: Arbiter)
    requires a.Shaped() && !a.sending && Distinct(a.queue)
    ensures var rest := a.queue[DoneRun(a.states)..];
      multiset(SendNext(a).queue) == multiset(rest)
      && Distinct(SendNext(a).queue)
      && (SendNext(a).sending ==> SendNext(a).queue[1..] == Without(rest, SendNext(a).queue[0]))
      && (!SendNext(a).sending ==> SendNext(a).queue == rest)
  {
    var b := Dropped(a);
    var d := DoneRun(a.states);
    DistinctSuffix(a.queue, d);
    assert SendNext(a) == StartChoice(b);
    StartChoiceReorders(b);
  }

  lemma StartChoiceReorders(b: Arbiter)
    requires b.Shaped() && !b.sending && Distinct(b.queue)
    ensures var r := StartChoice(b);
      multiset(r.queue) == multiset(b.queue)
      && Distinct(r.queue)
      && (r.sending ==> r.queue[1..] == Without(b.queue, r.queue[0]))
      && (!r.sending ==> r.queue == b.queue)
  {
    var c := Choice(b.owners, b.states, b.current);
    if c.Some? {
      var k := c.value;
      assert StartChoice(b).queue == MoveToFront(b.queue, k);
      MoveToFrontPermutes(b.queue, k);
      MoveToFrontKeepsOrder(b.queue, k);
    }
  }

  /**
   * The message the handler finishes leaves the queue at the next send: once
   * it is Done it belongs to the Done run that the send unlinks.
   */
  lemma FinishedLeaves(a: Arbiter, j: nat)
    requires a.Shaped() && Distinct(a.queue) && a.sending && SendingShape(a.states, a.sending)
    requires j == DoneRun(a.states)
    ensures var r := Finished(a);
      r.states[j] == Done && a.queue[j] !in SendNext(r).queue
  {
    var r := Finished(a);
    MarkedIdle(a.states, a.sending);
    SendNextReorders(r);
    var d := DoneRun(r.states);
    assert j < d;
    assert a.queue[j] !in r.queue[d..] by {
      forall i | d <= i < |r.queue| ensures r.queue[i] != a.queue[j] {
        assert j < i;
      }
    }
    assert multiset(SendNext(r).queue) == multiset(r.queue[d..]);
    assert a.queue[j] !in multiset(SendNext(r).queue);
  }

  /** TWIBus: the device list, the message queue and the arbitration state. */
  class Bus {
    var firstDevice: Device?
    ghost var devices: seq<Device>
    var firstMessage: Message?
    ghost var queue: seq<Message>
    ghost var owners: seq<Device>
    ghost var states: seq<State>
    var currentTransactionDevice: Device?
    var sending: bool
    /** The last value given to hardware.setChannel. */
    var channel: nat
    /**
     * The messages whose tx buffer, rx buffer and size were handed to
     * hardware.startTransfer, oldest first.
     */
    ghost var transfers: seq<Message>
    /** How many times hardware.deassert was called. */
    var deasserts: nat

    ghost predicate DeviceList()
      reads this`firstDevice, this`devices, devices`next
    {
      Distinct(devices)
      && (if devices == [] then firstDevice == null
          else firstDevice == devices[0] && devices[|devices| - 1].next == null)
      && forall i :: 0 <= i < |devices| - 1 ==> devices[i].next == devices[i + 1]
    }

    ghost predicate MessageQueue()
      reads this`firstMessage, this`queue, queue`next
    {
      Distinct(queue)
      && (if queue == [] then firstMessage == null
          else firstMessage == queue[0] && queue[|queue| - 1].next == null)
      && forall i :: 0 <= i < |queue| - 1 ==> queue[i].next == queue[i + 1]
    }

    ghost predicate Mirrored()
      reads this`queue, this`owners, this`states, queue`device, queue`state
    {
      MirroredBy(queue, owners, states)
    }

    /** The queue is well linked, its ghost mirrors are exact, and the sending flag agrees with the states. */
    ghost predicate QueueValid()
      reads this, queue
    {
      MessageQueue() && Mirrored() && SendingShape(states, sending)
    }

    /** The arbitration state this bus holds. */
    ghost function Abstract(): Arbiter
      reads this
    {
      Arbiter(queue, owners, states, sending, currentTransactionDevice, channel, transfers, deasserts)
    }

    /** A bus with static storage: both lists empty, nothing sending. */
    constructor ()
      ensures DeviceList() && QueueValid() && devices == [] && queue == []
      ensures !sending && currentTransactionDevice == null && transfers == [] && deasserts == 0
    {
      firstDevice := null;
      devices := [];
      firstMessage := null;
      queue := [];
      owners := [];
      states := [];
      currentTransactionDevice := null;
      sending := false;
      channel := 0;
      transfers := [];
      deasserts := 0;
    }

    /** addDevice appends at the tail, and does nothing if the device is already listed. */
    method AddDevice(d: Device)
      requires DeviceList() && d.next == null
      modifies this`firstDevice, this`devices, devices`next
      ensures DeviceList()
      ensures devices == if d in old(devices) then old(devices) else old(devices) + [d]
    {
      if firstDevice == null {
        firstDevice := d;
        devices := [d];
        return;
      }
      var walker: Device? := null;
      var walkerNext: Device? := firstDevice;
      var i := 0;
      while walkerNext != null
        invariant 0 <= i <= |devices|
        invariant walkerNext == if i < |devices| then devices[i] else null
        invariant walker == if i == 0 then null else devices[i - 1]
        invariant d !in devices[..i]
        decreases |devices| - i
      {
        if d == walkerNext {
          return;
        }
        walker := walkerNext;
        walkerNext := walker.next;
        i := i + 1;
      }
      assert devices[..i] == devices;
      walker.next := d;
      devices := devices + [d];
    }

    /** removeDevice unlinks the device; it does nothing when the device is absent. */
    method RemoveDevice(d: Device)
      requires DeviceList()
      modifies this`firstDevice, this`devices, devices`next
      ensures DeviceList()
      ensures devices == Without(old(devices), d)
      ensures d.next == old(d.next)
    {
      if firstDevice == null {
        WithoutAbsent(devices, d);
        return;
      }
      if firstDevice == d {
        WithoutAt(devices, 0);
        UnlinkHead();
        return;
      }
      var walker := firstDevice;
      var walkerNext := firstDevice.next;
      var i := 1;
      while walkerNext != null
        invariant 1 <= i <= |devices|
        invariant walker == devices[i - 1]
        invariant walkerNext == if i < |devices| then devices[i] else null
        invariant d !in devices[..i]
        decreases |devices| - i
      {
        if walkerNext == d {
          WithoutAt(devices, i);
          Unlink(walker, walkerNext, i);
          return;
        }
        walker := walkerNext;
        walkerNext := walker.next;
        i := i + 1;
      }
      assert devices[..i] == devices;
      WithoutAbsent(devices, d);
    }

    /** The pointer write that unlinks the head of the device list. */
    method UnlinkHead()
      requires DeviceList() && devices != []
      modifies this`firstDevice, this`devices
      ensures DeviceList() && devices == old(devices[1..])
    {
      ghost var ds := devices;
      firstDevice := firstDevice.next;
      devices := ds[1..];
      assert Distinct(devices);
      assert forall i :: 0 <= i < |devices| ==> devices[i] == ds[i + 1];
    }

    /** The pointer write that unlinks devices[k] from its predecessor. */
    method Unlink(walker: Device, unlinked: Device, k: nat)
      requires DeviceList() && 1 <= k < |devices| && walker == devices[k - 1] && unlinked == devices[k]
      modifies this`devices, walker`next
      ensures DeviceList() && devices == old(devices[..k] + devices[k + 1..])
      ensures unlinked.next == old(unlinked.next)
    {
      ghost var ds := devices;
      walker.next := unlinked.next;
      devices := ds[..k] + ds[k + 1..];
      forall i | 0 <= i < |devices| - 1
        ensures devices[i].next == devices[i + 1]
      {
        if i < k - 1 {
          assert devices[i] == ds[i] && devices[i + 1] == ds[i + 1];
        } else if i == k - 1 {
          assert devices[i] == walker && devices[i + 1] == ds[k + 1];
        } else {
          assert devices[i] == ds[i + 1] && devices[i + 1] == ds[i + 2];
        }
      }
      forall i, j | 0 <= i < j < |devices|
        ensures devices[i] != devices[j]
      {
        var a := if i < k then i else i + 1;
        var b := if j < k then j else j + 1;
        assert devices[i] == ds[a] && devices[j] == ds[b];
      }
      if devices != [] {
        assert devices[|devices| - 1] == if k == |ds| - 1 then walker else ds[|ds| - 1];
      }
    }

    /**
     * The linking half of queueMessage: msg is owned by d; it joins the tail
     * unless it is already queued, in which case it keeps its place.
     */
    method Join(d: Device, msg: Message)
      requires QueueValid() && (msg in queue || (msg.next == null && msg.state != Sending))
      modifies this`firstMessage, this`queue, this`owners, this`states, queue`next, msg`device
      ensures QueueValid() && msg.device == d && Abstract() == old(Linked(Abstract(), msg, d))
    {
      if firstMessage == null {
        msg.device := d;
        firstMessage := msg;
        queue := [msg];
        owners := [d];
        states := [msg.state];
        return;
      }
      var walker, i := Seek(msg);
      if walker != msg {
        AppendOwned(walker, msg, d);
      } else {
        Reown(msg, i, d);
      }
    }

    /** The walk of queueMessage: it stops at msg, or at the tail when msg is not queued. */
    method Seek(msg: Message) returns (walker: Message, ghost i: nat)
      requires MessageQueue() && queue != []
      ensures i < |queue| && walker == queue[i] && msg !in queue[..i]
      ensures walker != msg ==> i == |queue| - 1
    {
      walker := firstMessage;
      i := 0;
      while walker != msg && walker.next != null
        invariant 0 <= i < |queue| && walker == queue[i]
        invariant walker.next == if i < |queue| - 1 then queue[i + 1] else null
        invariant msg !in queue[..i]
        decreases |queue| - i
      {
        walker := walker.next;
        i := i + 1;
      }
    }

    /** A message not yet queued is owned by d and linked behind the tail. */
    method AppendOwned(tail: Message, msg: Message, d: Device)
      requires QueueValid() && queue != [] && tail == queue[|queue| - 1]
      requires msg !in queue && msg.next == null && msg.state != Sending
      modifies this`queue, this`owners, this`states, tail`next, msg`device
      ensures QueueValid() && msg.device == d
      ensures Abstract() == old(Linked(Abstract(), msg, d))
    {
      ghost var s := states;
      if DoneRun(s) < |s| {
        DoneRunAppend(s, msg.state);
      }
      msg.device := d;
      owners := owners + [d];
      states := states + [msg.state];
      Append(tail, msg);
    }

    /** A message already queued at position i keeps its place and is handed to d. */
    method Reown(msg: Message, ghost i: nat, d: Device)
      requires QueueValid() && i < |queue| && msg == queue[i]
      modifies this`owners, msg`device
      ensures QueueValid() && msg.device == d
      ensures Abstract() == old(Linked(Abstract(), msg, d))
    {
      ghost var o := owners;
      msg.device := d;
      owners := owners[i := d];
      forall j | 0 <= j < |o| ensures owners[j] == Reowned(queue, o, msg, d)[j] {
        if j != i {
          assert queue[j] != queue[i];
        }
      }
    }

    /** The pointer write that links msg behind the tail of a non-empty queue. */
    method Append(tail: Message, msg: Message)
      requires MessageQueue() && queue != [] && tail == queue[|queue| - 1]
      requires msg !in queue && msg.next == null
      modifies this`queue, tail`next
      ensures MessageQueue() && queue == old(queue) + [msg]
    {
      ghost var q := queue;
      tail.next := msg;
      queue := q + [msg];
      forall i | 0 <= i < |queue| - 1
        ensures queue[i].next == queue[i + 1]
      {
        if i < |q| - 1 {
          assert queue[i] == q[i] != tail;
        }
      }
    }

    /**
     * queueMessage: msg is owned by d and linked at the tail unless already
     * queued; then the bus tries to start the next message.
     */
    method QueueMessage(d: Device, msg: Message)
      requires QueueValid() && (msg in queue || (msg.next == null && msg.state != Sending))
      modifies this`firstMessage, this`queue, this`owners, this`states, this`sending
      modifies this`currentTransactionDevice, this`channel, this`transfers, queue`next, queue`state
      modifies msg`next, msg`state, msg`device
      ensures QueueValid()
      ensures Abstract() == old(SendNext(Linked(Abstract(), msg, d)))
    {
      Join(d, msg);
      SendNextMessageActual();
    }

    /**
     * sendNextMessageActual: nothing happens while sending; otherwise the
     * Done messages at the head are unlinked and the next message is started.
     */
    method SendNextMessageActual()
      requires QueueValid()
      modifies this`firstMessage, this`queue, this`owners, this`states, this`sending
      modifies this`currentTransactionDevice, this`channel, this`transfers, queue`next, queue`state
      ensures QueueValid() && Abstract() == old(SendNext(Abstract()))
    {
      if sending {
        return;
      }
      DropDone();
      StartNext();
    }

    /**
     * The rest of sendNextMessageActual, once no Done message heads the
     * queue: nothing happens when the queue is empty or its head is Sending;
     * the transaction device's first message is moved to the head (nothing
     * more happens when it has none), and the head is started.
     */
    method StartNext()
      requires QueueValid() && !sending && DoneRun(states) == 0
      modifies this`firstMessage, this`queue, this`owners, this`states, this`sending
      modifies this`currentTransactionDevice, this`channel, this`transfers, queue`next, queue`state
      ensures QueueValid()
      ensures Abstract() == old(StartChoice(Abstract()))
    {
      if firstMessage == null {
        return;
      }
      if firstMessage.state == Sending {
        return;
      }
      StartChosen();
    }

    /**
     * The start step on a queue whose head is neither Done nor Sending: the
     * transaction device's first message is moved to the head (nothing more
     * happens when it has none), and the head is started.
     */
    method StartChosen()
      requires QueueValid() && !sending && queue != [] && states[0] != Done && states[0] != Sending
      modifies this`firstMessage, this`queue, this`owners, this`states, this`sending
      modifies this`currentTransactionDevice, this`channel, this`transfers, queue`next, queue`state
      ensures QueueValid()
      ensures Abstract() == old(StartChoice(Abstract()))
    {
      if currentTransactionDevice != null && firstMessage.device != currentTransactionDevice {
        StartOwn(currentTransactionDevice);
      } else {
        StartHead();
      }
    }

    /** With a transaction device that does not own the head, its first message is relinked and started. */
    method StartOwn(dev: Device)
      requires QueueValid() && !sending && queue != [] && states[0] != Done && states[0] != Sending
      requires currentTransactionDevice == dev && owners[0] != dev
      modifies this`firstMessage, this`queue, this`owners, this`states, this`sending
      modifies this`currentTransactionDevice, this`channel, this`transfers, queue`next, queue`state
      ensures QueueValid()
      ensures Abstract() == old(StartChoice(Abstract()))
    {
      ghost var c := Choice(owners, states, dev);
      assert c == IndexFrom(owners, dev, 1);
      var found := Promote(dev);
      if !found {
        return;
      }
      Start();
    }

    /** With no transaction device, or one that owns the head, the head is started. */
    method StartHead()
      requires QueueValid() && !sending && queue != [] && states[0] != Done && states[0] != Sending
      requires currentTransactionDevice == null || owners[0] == currentTransactionDevice
      modifies this`states, this`sending, this`currentTransactionDevice, this`channel, this`transfers
      modifies firstMessage`state
      ensures QueueValid()
      ensures Abstract() == old(StartChoice(Abstract()))
    {
      assert Choice(owners, states, currentTransactionDevice) == Some(0);
      MoveToFrontPermutes(queue, 0);
      MoveToFrontPermutes(owners, 0);
      MoveToFrontPermutes(states, 0);
      Start();
    }

    /** The loop of sendNextMessageActual that unlinks the Done messages at the head. */
    method DropDone()
      requires QueueValid() && !sending
      modifies this`firstMessage, this`queue, this`owners, this`states, queue`next
      ensures QueueValid() && !sending && DoneRun(states) == 0
      ensures var d := old(DoneRun(states));
        queue == old(queue[d..]) && owners == old(owners[d..]) && states == old(states[d..])
        && forall i :: 0 <= i < d ==> old(queue[i]).next == null
    {
      ghost var q0 := queue;
      ghost var o0 := owners;
      ghost var s0 := states;
      ghost var d := DoneRun(states);
      ghost var i := 0;
      while firstMessage != null && firstMessage.state == Done
        invariant 0 <= i <= d
        invariant queue == q0[i..] && owners == o0[i..] && states == s0[i..]
        invariant MessageQueue() && Mirrored()
        invariant forall j :: 0 <= j < i ==> q0[j].next == null
        decreases |queue|
      {
        DropHead();
        i := i + 1;
      }
      assert Sending !in s0;
    }

    /** One step of that loop: the head is unlinked and its next pointer cleared. */
    method DropHead()
      requires MessageQueue() && Mirrored() && queue != []
      modifies this`firstMessage, this`queue, this`owners, this`states, firstMessage`next
      ensures MessageQueue() && Mirrored()
      ensures queue == old(queue[1..]) && owners == old(owners[1..]) && states == old(states[1..])
      ensures old(firstMessage).next == null
    {
      var doneMessage := firstMessage;
      assert doneMessage !in queue[1..];
      firstMessage := firstMessage.next;
      doneMessage.next := null;
      queue := queue[1..];
      owners := owners[1..];
      states := states[1..];
    }

    /**
     * The affinity search of sendNextMessageActual: the first message after the
     * head that belongs to dev is relinked to the head; found is false, and
     * nothing changes, when there is none.
     */
    method Promote(dev: Device) returns (found: bool)
      requires QueueValid() && !sending && queue != [] && queue[0].device != dev
      requires Sending !in states
      modifies this`firstMessage, this`queue, this`owners, this`states, queue`next
      ensures QueueValid() && !sending
      ensures var c := IndexFrom(old(owners), dev, 1);
        (c.None? ==> !found && Abstract() == old(Abstract()))
        && (c.Some? ==> found && c.value < |old(queue)| && Abstract() == old(Moved(Abstract(), c.value)))
    {
      var previous, walker, k := FindFor(dev);
      if walker == null {
        return false;
      }
      Relink(previous, walker, k);
      return true;
    }

    /**
     * The walk of the affinity search: walker is the first message after the
     * head that belongs to dev, at position k, and previous is the message
     * before it; walker is null when dev has no message after the head.
     */
    method FindFor(dev: Device) returns (previous: Message, walker: Message?, ghost k: nat)
      requires MessageQueue() && Mirrored() && queue != []
      ensures var c := IndexFrom(owners, dev, 1);
        (walker == null <==> c.None?)
        && (walker != null ==> c == Some(k) && 1 <= k < |queue| && walker == queue[k] && previous == queue[k - 1])
    {
      previous := firstMessage;
      walker := firstMessage.next;
      k := 1;
      while walker != null && walker.device != dev
        invariant 1 <= k <= |queue|
        invariant previous == queue[k - 1]
        invariant walker == if k < |queue| then queue[k] else null
        invariant IndexFrom(owners, dev, 1) == IndexFrom(owners, dev, k)
        decreases |queue| - k
      {
        previous := walker;
        walker := walker.next;
        k := k + 1;
      }
    }

    /** Moving queue[k] to the head, its owner and state moving with it. */
    method Relink(previous: Message, walker: Message, ghost k: nat)
      requires MessageQueue() && Mirrored() && Sending !in states && 1 <= k < |queue|
      requires previous == queue[k - 1] && walker == queue[k]
      modifies this`firstMessage, this`queue, this`owners, this`states, previous`next, walker`next
      ensures MessageQueue() && Mirrored() && SendingShape(states, false)
      ensures queue == MoveToFront(old(queue), k) && owners == MoveToFront(old(owners), k)
      ensures states == MoveToFront(old(states), k)
    {
      ghost var q := queue;
      RelinkNext(previous, walker, k);
      assert MirroredBy(q, owners, states);
      MirrorMoved(q, owners, states, k);
      owners := MoveToFront(owners, k);
      states := MoveToFront(states, k);
    }

    /** The three pointer writes that move queue[k] to the head. */
    method RelinkNext(previous: Message, walker: Message, ghost k: nat)
      requires MessageQueue() && 1 <= k < |queue|
      requires previous == queue[k - 1] && walker == queue[k]
      modifies this`firstMessage, this`queue, previous`next, walker`next
      ensures MessageQueue() && queue == MoveToFront(old(queue), k)
    {
      ghost var q := queue;
      MoveToFrontDistinct(q, k);
      previous.next := walker.next;
      walker.next := firstMessage;
      firstMessage := walker;
      queue := MoveToFront(q, k);
      forall i | 0 <= i < |queue| - 1
        ensures queue[i].next == queue[i + 1]
      {
        var j := MoveToFrontNext(q, k, i);
        if i != 0 && i != k {
          assert old(q[j].next) == q[j + 1];
        }
      }
      MoveToFrontAt(q, k, |q| - 1);
    }

    /** Starting the head: it is Sending, owns the transaction, and its transfer begins. */
    method Start()
      requires QueueValid() && !sending && queue != []
      modifies this`states, this`sending, this`currentTransactionDevice, this`channel, this`transfers
      modifies firstMessage`state
      ensures QueueValid() && Abstract() == old(Launched(Abstract()))
    {
      sending := true;
      firstMessage.state := Sending;
      states := states[0 := Sending];
      assert DoneRun(states) == 0;
      assert firstMessage.device == owners[0];
      currentTransactionDevice := firstMessage.device;
      channel := currentTransactionDevice.channel;
      transfers := transfers + [firstMessage];
    }

    /**
     * twiInterruptHandler: on transfer-done, once both directions are done,
     * the first message that is not Done is marked Done if it was Sending
     * (its immediate flags take the configured values, and they end the
     * transaction and deassert as they say); then the bus is free and the
     * next message starts.
     */
    method TwiInterruptHandler(cause: InterruptType, doneReading: bool, doneWriting: bool)
      requires QueueValid()
      modifies this`firstMessage, this`queue, this`owners, this`states, this`sending
      modifies this`currentTransactionDevice, this`channel, this`transfers, this`deasserts, queue
      ensures QueueValid()
      ensures !HasBits(cause, MotateSpi.TransferDone) || !doneReading || !doneWriting ==>
        unchanged(this) && unchanged(old(queue))
      ensures HasBits(cause, MotateSpi.TransferDone) && doneReading && doneWriting ==>
        Abstract() == old(SendNext(Finished(Abstract())))
    {
      if HasBits(cause, MotateSpi.TransferDone) {
        if !doneReading {
          return;
        }
        if !doneWriting {
          return;
        }
        Finish();
        SendNextMessageActual();
      }
    }

    /** The bookkeeping of the handler before the next send. */
    method Finish()
      requires QueueValid()
      modifies this`states, this`sending, this`currentTransactionDevice, this`deasserts
      modifies queue`state, queue`immediateEndsTransaction, queue`immediateDeassertAfter
      ensures QueueValid() && Abstract() == old(Finished(Abstract()))
      ensures var j := old(DoneRun(states));
        j < |queue| && old(states[j]) == Sending ==>
          queue[j].immediateEndsTransaction == queue[j].endsTransaction
          && queue[j].immediateDeassertAfter == queue[j].deassertAfter
    {
      MarkedIdle(states, sending);
      var thisMessage, j := FirstPending();
      if thisMessage != null && thisMessage.state == Sending {
        MarkDone(thisMessage, j);
      }
      sending := false;
    }

    /** The walk of the handler past the Done messages at the head. */
    method FirstPending() returns (thisMessage: Message?, ghost j: nat)
      requires MessageQueue() && Mirrored()
      ensures j == DoneRun(states) && thisMessage == if j < |queue| then queue[j] else null
    {
      thisMessage := firstMessage;
      j := 0;
      while thisMessage != null && thisMessage.state == Done
        invariant 0 <= j <= |queue|
        invariant thisMessage == if j < |queue| then queue[j] else null
        invariant forall i :: 0 <= i < j ==> states[i] == Done
        decreases |queue| - j
      {
        thisMessage := thisMessage.next;
        j := j + 1;
      }
      if j < |queue| {
        assert states[j] == thisMessage.state;
      }
    }

    /** The Sending message at position j becomes Done and applies its flags. */
    method MarkDone(m: Message, ghost j: nat)
      requires Distinct(queue) && Mirrored() && j < |queue| && m == queue[j]
      modifies this`states, this`currentTransactionDevice, this`deasserts
      modifies m`state, m`immediateEndsTransaction, m`immediateDeassertAfter
      ensures Mirrored() && states == old(states)[j := Done]
      ensures m.immediateEndsTransaction == m.endsTransaction && m.immediateDeassertAfter == m.deassertAfter
      ensures currentTransactionDevice == if m.endsTransaction then null else old(currentTransactionDevice)
      ensures deasserts == old(deasserts) + if m.deassertAfter then 1 else 0
    {
      m.state := Done;
      states := states[j := Done];
      m.immediateEndsTransaction := m.endsTransaction;
      m.immediateDeassertAfter := m.deassertAfter;
      if m.immediateEndsTransaction {
        currentTransactionDevice := null;
      }
      if m.immediateDeassertAfter {
        deasserts := deasserts + 1;
      }
    }
  }
}

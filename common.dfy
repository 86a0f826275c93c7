// Interrupt flag constants and the InterruptCause flag set shared by every
// peripheral driver. Interrupt::Type is a 16-bit unsigned value, modelled as
// bv16 so that the |=, &= ~ and & operations are the source's own.

module MotateCommon {

  type InterruptType = bv16

  const Off: InterruptType := 0
  const Unknown: InterruptType := 0

  /** The eight event flags, one per bit 0..7. */
  datatype Event = TxReady | TxDone | TxError | RxReady | RxDone | RxError | TxTransferDone | RxTransferDone
  {
    /** InterruptCause has is/set/clear accessors for every event but RxDone. */
    predicate HasAccessor() { this != RxDone }
  }

  function Bit(e: Event): nat
  {
    match e
    case TxReady => 0
    case TxDone => 1
    case TxError => 2
    case RxReady => 3
    case RxDone => 4
    case RxError => 5
    case TxTransferDone => 6
    case RxTransferDone => 7
  }

  /** Interrupt::OnTxReady ... Interrupt::OnRxTransferDone. */
  function Mask(e: Event): InterruptType
  {
    match e
    case TxReady => 0x01
    case TxDone => 0x02
    case TxError => 0x04
    case RxReady => 0x08
    case RxDone => 0x10
    case RxError => 0x20
    case TxTransferDone => 0x40
    case RxTransferDone => 0x80
  }

  /** The five priority levels, bits 11..15. */
  datatype Priority = Highest | High | Medium | Low | Lowest

  function PriorityMask(p: Priority): (m: InterruptType)
  {
    match p
    case Highest => 0x0800
    case High => 0x1000
    case Medium => 0x2000
    case Low => 0x4000
    case Lowest => 0x8000
  }

  /** Distinct events have disjoint masks, and no priority shares a bit with an event. */
  lemma MasksDisjoint(e: Event, f: Event, p: Priority)
    ensures e != f ==> Mask(e) & Mask(f) == 0
    ensures Mask(e) & PriorityMask(p) == 0
    ensures Mask(e) < 0x100 && PriorityMask(p) >= 0x800
  {
  }

  /** isX: the flag's bit is set in the cause value. */
  predicate IsSet(v: InterruptType, e: Event)
  {
    HasBits(v, Mask(e))
  }

  predicate HasBits(v: InterruptType, m: InterruptType)
  {
    v & m != 0
  }

  lemma OrDisjoint(v: InterruptType, a: InterruptType, b: InterruptType)
    requires a & b == 0
    ensures HasBits(v | a, b) <==> HasBits(v, b)
    ensures HasBits(v & !a, b) <==> HasBits(v, b)
  {
    assert (v | a) & b == v & b;
    assert (v & !a) & b == v & b;
  }

  lemma OrFrame(v: InterruptType, e: Event)
    ensures forall f :: f != e ==> (IsSet(v | Mask(e), f) <==> IsSet(v, f))
  {
    forall f | f != e
      ensures IsSet(v | Mask(e), f) <==> IsSet(v, f)
    {
      var a, b := Mask(e), Mask(f);
      MasksDisjoint(e, f, Highest);
      OrDisjoint(v, a, b);
    }
  }

  lemma AndNotFrame(v: InterruptType, e: Event)
    ensures forall f :: f != e ==> (IsSet(v & !Mask(e), f) <==> IsSet(v, f))
  {
    forall f | f != e
      ensures IsSet(v & !Mask(e), f) <==> IsSet(v, f)
    {
      var a, b := Mask(e), Mask(f);
      MasksDisjoint(e, f, Highest);
      OrDisjoint(v, a, b);
    }
  }

  /** The value after setX (value_ |= mask). */
  function WithFlag(v: InterruptType, e: Event): (r: InterruptType)
    ensures IsSet(r, e)
    ensures forall f :: f != e ==> (IsSet(r, f) <==> IsSet(v, f))
  {
    OrFrame(v, e);
    v | Mask(e)
  }

  /** The value after clearX (value_ &= ~mask). */
  function WithoutFlag(v: InterruptType, e: Event): (r: InterruptType)
    ensures !IsSet(r, e)
    ensures forall f :: f != e ==> (IsSet(r, f) <==> IsSet(v, f))
  {
    AndNotFrame(v, e);
    v & !Mask(e)
  }

  /** Clearing a flag undoes setting it when it was clear before. */
  lemma SetThenClear(v: InterruptType, e: Event)
    requires !IsSet(v, e)
    ensures WithoutFlag(WithFlag(v, e), e) == v
  {
  }

  /** The interrupt cause reported by a peripheral: a set of event flags. */
  class InterruptCause {
    var value: InterruptType

    /** InterruptCause(c = 0). */
    constructor (c: InterruptType)
      ensures value == c
    {
      value := c;
    }

    /** A cause built with the default argument is empty. */
    constructor Empty()
      ensures IsEmpty()
      ensures forall e :: !Is(e)
    {
      value := 0;
    }

    predicate IsEmpty()
      reads this
    {
      value == 0
    }

    predicate Is(e: Event)
      reads this
    {
      IsSet(value, e)
    }

    method Clear()
      modifies this
      ensures IsEmpty()
      ensures forall e :: !Is(e)
    {
      value := 0;
    }

    /** setTxReady, setTxDone, ... */
    method Set(e: Event)
      requires e.HasAccessor()
      modifies this
      ensures value == WithFlag(old(value), e)
      ensures Is(e)
      ensures forall f :: f != e ==> (Is(f) <==> old(Is(f)))
    {
      value := WithFlag(value, e);
    }

    /** clearTxReady, clearTxDone, ... */
    method ClearFlag(e: Event)
      requires e.HasAccessor()
      modifies this
      ensures value == WithoutFlag(old(value), e)
      ensures !Is(e)
      ensures forall f :: f != e ==> (Is(f) <==> old(Is(f)))
    {
      value := WithoutFlag(value, e);
    }
  }
}

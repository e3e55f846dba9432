/**
 * The machines' stacks. Both grow upwards through a list of slots and keep
 * their top in a stack-pointer register they were handed at construction:
 * `VHdwStack` overwrites a slot on push, the older `VStack` inserts one.
 */
module Stacks {
  import opened JavaInt
  import opened DataTypes
  import opened Exceptions
  import opened Instructions

  /** Slots added each time the stack grows. */
  const ALLOC_SZ: nat := 10

  /** The content of a fresh slot. */
  const ZERO: Cell := Cell(IntV(0), Imm_Int4)

  /** The stack and base pointers at construction: -1, typed Imm_Int4. */
  const EMPTY_SP: Cell := Cell(IntV(-1), Imm_Int4)

  function Zeros(n: nat): (r: seq<Cell>)
    ensures |r| == n && forall i :: 0 <= i < n ==> r[i] == ZERO
  {
    seq(n, _ => ZERO)
  }

  /** The stack pointer a push or pop leaves: an address typed Imm_Int4. */
  function Pointer(addr: int32): Cell { Cell(IntV(addr), Imm_Int4) }

  /** The slots and stack pointer after a push, and what it threw. */
  datatype Pushed = Pushed(slots: seq<Cell>, sp: Cell, e: Option<Exception>)

  /** The stack pointer after a pop, and the popped content or what was thrown;
      a pop never changes the slots. */
  datatype Popped = Popped(sp: Cell, r: Try<Cell>)

  /** `VHdwStack.push`: read the stack pointer as an int; grow by ten slots
      when it is at or past the last slot; raise it by one (as a Java int);
      store the object there. An address outside the slots fails after the
      pointer was raised. */
  function PushOn(slots: seq<Cell>, sp: Cell, obj: Cell): Pushed
  {
    match AsInt(sp.value)
    case Thrown(e) => Pushed(slots, sp, Some(e))
    case Ok(addr) =>
      var grown := if addr >= |slots| - 1 then slots + Zeros(ALLOC_SZ) else slots;
      var next := Wrap(addr + 1);
      if 0 <= next < |grown| then Pushed(grown[next := obj], Pointer(next), None)
      else Pushed(grown, Pointer(next), Some(IndexOutOfBounds(next)))
  }

  /** `pop` of either stack: a negative stack pointer is an underflow; otherwise
      the slot at the pointer is returned and the pointer lowered by one. */
  function PopOff(slots: seq<Cell>, sp: Cell): Popped
  {
    match AsInt(sp.value)
    case Thrown(e) => Popped(sp, Thrown(e))
    case Ok(addr) =>
      if addr < 0 then Popped(sp, Thrown(RuntimeException("Stack underflow")))
      else if addr >= |slots| then Popped(sp, Thrown(IndexOutOfBounds(addr)))
      else Popped(Pointer(addr - 1), Ok(slots[addr]))
  }

  /** A stack pointer that is an address from -1 to the last slot. */
  predicate Sound(slots: seq<Cell>, sp: Cell)
  {
    sp.dtype == Imm_Int4 && sp.value.IntV? && -1 <= sp.value.n < |slots|
  }

  /** On a sound stack whose pointer can still rise as a Java int, a push cannot fail: the pointer rises by exactly one, the
      object sits at the new pointer, which is below the capacity, every other
      slot keeps its content and the capacity never shrinks. */
  lemma PushOnSound(slots: seq<Cell>, sp: Cell, obj: Cell)
    requires Sound(slots, sp) && sp.value.n < MAX_INT
    ensures var p := PushOn(slots, sp, obj);
      && p.e.None? && p.sp == Pointer(sp.value.n + 1) && Sound(p.slots, p.sp)
      && p.slots[sp.value.n + 1] == obj
      && |p.slots| >= |slots|
      && (forall i :: 0 <= i < |slots| && i != sp.value.n + 1 ==> p.slots[i] == slots[i])
      && (forall i :: |slots| <= i < |p.slots| && i != sp.value.n + 1 ==> p.slots[i] == ZERO)
  {
    var k: int := sp.value.n;
    assert Wrap(k + 1) == k + 1;
  }

  /** Growth: when the pointer is at or past the last slot, a push adds ten. */
  lemma PushGrowsAtTop(slots: seq<Cell>, sp: Cell, obj: Cell)
    requires sp.value.IntV? && sp.value.n >= |slots| - 1
    ensures |PushOn(slots, sp, obj).slots| == |slots| + ALLOC_SZ
  {
  }

  /** A pop below the bottom is an underflow and changes nothing. */
  lemma PopUnderflow(slots: seq<Cell>, sp: Cell)
    requires sp.value.IntV? && sp.value.n < 0
    ensures PopOff(slots, sp) == Popped(sp, Thrown(RuntimeException("Stack underflow")))
  {
  }

  /** A pop of a sound, non-empty stack returns the top slot and leaves a sound
      stack one lower. */
  lemma PopOnSound(slots: seq<Cell>, sp: Cell)
    requires Sound(slots, sp) && sp.value.n >= 0
    ensures PopOff(slots, sp) == Popped(Pointer(sp.value.n - 1), Ok(slots[sp.value.n]))
    ensures Sound(slots, Pointer(sp.value.n - 1))
  {
  }

  /** push(x) then pop returns x and restores the stack pointer. */
  lemma PushThenPop(slots: seq<Cell>, sp: Cell, x: Cell)
    requires Sound(slots, sp) && sp.value.n < MAX_INT
    ensures var p := PushOn(slots, sp, x);
      PopOff(p.slots, p.sp) == Popped(sp, Ok(x))
  {
    PushOnSound(slots, sp, x);
  }

  /** `VStack.push`: grow by ten slots when the pointer is at or past the list's
      size, raise the pointer by one and insert the object there, shifting the
      slots above it up by one. An index past the end fails after the pointer
      was raised. */
  function Insert(slots: seq<Cell>, sp: Cell, obj: Cell): Pushed
  {
    match AsInt(sp.value)
    case Thrown(e) => Pushed(slots, sp, Some(e))
    case Ok(addr) =>
      var grown := if addr >= |slots| then slots + Zeros(ALLOC_SZ) else slots;
      var next := Wrap(addr + 1);
      if 0 <= next <= |grown| then Pushed(grown[..next] + [obj] + grown[next..], Pointer(next), None)
      else Pushed(grown, Pointer(next), Some(IndexOutOfBounds(next)))
  }

  /** On a sound stack the older push never takes its growth branch: the list
      grows by exactly one, the object sits at the new pointer, the slots
      below keep their place and those above move up by one. */
  lemma InsertOnSound(slots: seq<Cell>, sp: Cell, obj: Cell)
    requires Sound(slots, sp) && sp.value.n < MAX_INT
    ensures var p := Insert(slots, sp, obj);
      && p.e.None? && p.sp == Pointer(sp.value.n + 1) && Sound(p.slots, p.sp)
      && |p.slots| == |slots| + 1 && p.slots[sp.value.n + 1] == obj
      && (forall i :: 0 <= i <= sp.value.n ==> p.slots[i] == slots[i])
      && (forall i :: sp.value.n + 1 <= i < |slots| ==> p.slots[i + 1] == slots[i])
  {
    var k: int := sp.value.n;
    assert Wrap(k + 1) == k + 1;
  }

  /** The older stack's push(x) then pop returns x and restores the pointer. */
  lemma InsertThenPop(slots: seq<Cell>, sp: Cell, x: Cell)
    requires Sound(slots, sp) && sp.value.n < MAX_INT
    ensures var p := Insert(slots, sp, x);
      PopOff(p.slots, p.sp) == Popped(sp, Ok(x))
  {
    InsertOnSound(slots, sp, x);
  }

  /** `VHdwStack`: the slots, and the stack and base pointer registers it shares
      with the machine. */
  class VHdwStack {
    var slots: seq<Cell>
    var sp: Cell
    var bp: Cell

    /** Both pointers start at -1 and ten zero slots are allocated. */
    constructor ()
      ensures slots == Zeros(ALLOC_SZ) && sp == EMPTY_SP && bp == EMPTY_SP
      ensures Sound(slots, sp)
    {
      bp := EMPTY_SP;
      sp := EMPTY_SP;
      var storage: seq<Cell> := [];
      var i := 0;
      while i < ALLOC_SZ
        invariant 0 <= i <= ALLOC_SZ && storage == Zeros(i)
      {
        storage := storage + [ZERO];
        i := i + 1;
      }
      slots := storage;
    }

    method Push(obj: Cell) returns (e: Option<Exception>)
      modifies this
      ensures Pushed(slots, sp, e) == PushOn(old(slots), old(sp), obj)
      ensures bp == old(bp)
    {
      var addr := AsInt(sp.value);
      if addr.Thrown? {
        return Some(addr.e);
      }
      var stackAddr := addr.value;
      if stackAddr >= |slots| - 1 {
        var i := 0;
        ghost var before := slots;
        while i < ALLOC_SZ
          invariant 0 <= i <= ALLOC_SZ && slots == before + Zeros(i)
          invariant bp == old(bp) && sp == old(sp)
        {
          slots := slots + [ZERO];
          i := i + 1;
        }
      }
      var next := Wrap(stackAddr + 1);
      sp := Pointer(next);
      if !(0 <= next < |slots|) {
        return Some(IndexOutOfBounds(next));
      }
      slots := slots[next := obj];
      return None;
    }

    method Pop() returns (r: Try<Cell>)
      modifies this
      ensures Popped(sp, r) == PopOff(old(slots), old(sp))
      ensures slots == old(slots) && bp == old(bp)
    {
      var addr := AsInt(sp.value);
      if addr.Thrown? {
        return Thrown(addr.e);
      }
      var stackAddr := addr.value;
      if stackAddr < 0 {
        return Thrown(RuntimeException("Stack underflow"));
      }
      if stackAddr >= |slots| {
        return Thrown(IndexOutOfBounds(stackAddr));
      }
      r := Ok(slots[stackAddr]);
      sp := Pointer(stackAddr - 1);
    }
  }

  /** `VStack`, the older stack: the same layout, with an inserting push. */
  class VStack {
    var slots: seq<Cell>
    var sp: Cell
    var bp: Cell

    constructor ()
      ensures slots == Zeros(ALLOC_SZ) && sp == EMPTY_SP && bp == EMPTY_SP
      ensures Sound(slots, sp)
    {
      bp := EMPTY_SP;
      sp := EMPTY_SP;
      var storage: seq<Cell> := [];
      var i := 0;
      while i < ALLOC_SZ
        invariant 0 <= i <= ALLOC_SZ && storage == Zeros(i)
      {
        storage := storage + [ZERO];
        i := i + 1;
      }
      slots := storage;
    }

    method Push(obj: Cell) returns (e: Option<Exception>)
      modifies this
      ensures Pushed(slots, sp, e) == Insert(old(slots), old(sp), obj)
      ensures bp == old(bp)
    {
      var addr := AsInt(sp.value);
      if addr.Thrown? {
        return Some(addr.e);
      }
      var stackAddr := addr.value;
      if stackAddr >= |slots| {
        var i := 0;
        ghost var before := slots;
        while i < ALLOC_SZ
          invariant 0 <= i <= ALLOC_SZ && slots == before + Zeros(i)
          invariant bp == old(bp) && sp == old(sp)
        {
          slots := slots + [ZERO];
          i := i + 1;
        }
      }
      var next := Wrap(stackAddr + 1);
      sp := Pointer(next);
      if !(0 <= next <= |slots|) {
        return Some(IndexOutOfBounds(next));
      }
      slots := slots[..next] + [obj] + slots[next..];
      return None;
    }

    method Pop() returns (r: Try<Cell>)
      modifies this
      ensures Popped(sp, r) == PopOff(old(slots), old(sp))
      ensures slots == old(slots) && bp == old(bp)
    {
      var addr := AsInt(sp.value);
      if addr.Thrown? {
        return Thrown(addr.e);
      }
      var stackAddr := addr.value;
      if stackAddr < 0 {
        return Thrown(RuntimeException("Stack underflow"));
      }
      if stackAddr >= |slots| {
        return Thrown(IndexOutOfBounds(stackAddr));
      }
      r := Ok(slots[stackAddr]);
      sp := Pointer(stackAddr - 1);
    }
  }
}

/** The flow-control window in 32-bit arithmetic, against a window of unbounded integers. */
module FlowWindow {
  const MAX := 0x7fff_ffff
  const MIN := -0x8000_0000

  predicate IsInt32(x: int) { MIN <= x <= MAX }

  predicate IsUint32(x: int) { 0 <= x < 0x1_0000_0000 }

  /** Signed arithmetic, whose overflow has no defined result. */
  function Signed(x: int): int
    requires IsInt32(x)
  {
    x
  }

  function Unsigned(x: int): (y: int)
    ensures IsUint32(y)
  {
    x % 0x1_0000_0000
  }

  /** A 32-bit pattern read as a signed number. */
  function ToSigned(x: int): (y: int)
    requires IsUint32(x)
    ensures IsInt32(y)
  {
    if x <= MAX then x else x - 0x1_0000_0000
  }

  /** Mixed arithmetic is unsigned; the result is exact if it fits. */
  lemma MixedIsExact(x: int)
    requires IsInt32(x)
    ensures ToSigned(Unsigned(x)) == x
  {
    if x < 0 { assert x % 0x1_0000_0000 == x + 0x1_0000_0000; }
  }

  class Window {
    var outstanding: int
    var capacity: int
    ghost var reserved: int
    ghost var freed: int

    /** The size fits, and is what all calls so far add up to. */
    ghost predicate Valid()
      reads this
    {
      && 0 <= capacity <= MAX && outstanding <= MAX && capacity - outstanding <= MAX
      && capacity - outstanding == capacity + freed - reserved
    }

    constructor (c: int)
      requires IsUint32(c) && c <= MAX
      ensures Valid() && capacity == c && outstanding == 0 && reserved == 0 && freed == 0
    {
      outstanding, capacity, reserved, freed := 0, 0, 0, 0;
      new;
      var ok := SetCapacity(c);
    }

    method GetSize() returns (size: int)
      requires Valid()
      ensures size == capacity + freed - reserved && IsInt32(size)
    {
      size := Signed(capacity - outstanding);
    }

    method GetNonNegativeSize() returns (size: int)
      requires Valid()
      ensures size == if capacity + freed - reserved > 0 then capacity + freed - reserved else 0
    {
      size := GetSize();
      size := if size > 0 then size else 0;
    }

    method GetOutstanding() returns (n: int)
      requires Valid()
      ensures n == if reserved - freed < 0 then 0 else reserved - freed
    {
      n := if outstanding < 0 then 0 else outstanding;
    }

    /** Fails exactly when the ideal count of outstanding bytes leaves the range, or the capacity if that is asked. */
    method Reserve(amount: int, strict: bool) returns (ok: bool)
      requires Valid() && IsUint32(amount)
      modifies this
      ensures Valid() && capacity == old(capacity) && freed == old(freed)
      ensures ok <==> amount <= MAX && old(outstanding) + amount <= (if strict then capacity else MAX)
      ensures reserved == old(reserved) + if ok then amount else 0
    {
      if amount > MAX { return false; }
      var limit := Signed(MAX - Signed(amount));
      if outstanding > 0 && limit < outstanding { return false; }
      MixedIsExact(outstanding + amount);
      var newOutstanding := ToSigned(Unsigned(outstanding + amount));
      if strict && newOutstanding > capacity { return false; }
      outstanding, reserved := newOutstanding, reserved + amount;
      ok := true;
    }

    /** Fails exactly when the ideal size leaves the range. */
    method Free(amount: int) returns (ok: bool)
      requires Valid() && IsUint32(amount)
      modifies this
      ensures Valid() && capacity == old(capacity) && reserved == old(reserved)
      ensures ok <==> amount <= MAX && old(capacity - outstanding) + amount <= MAX
      ensures freed == old(freed) + if ok then amount else 0
    {
      if amount > MAX { return false; }
      var limit := Signed(MIN + Signed(amount));
      if outstanding < 0 && limit > outstanding { return false; }
      MixedIsExact(outstanding - amount);
      var newOutstanding := ToSigned(Unsigned(outstanding - amount));
      if newOutstanding < Signed(capacity - MAX) { return false; }
      outstanding, freed := newOutstanding, freed + amount;
      ok := true;
    }

    /** Fails exactly when the new capacity or the size that it gives leaves the range. */
    method SetCapacity(c: int) returns (ok: bool)
      requires Valid() && IsUint32(c)
      modifies this
      ensures Valid() && reserved == old(reserved) && freed == old(freed)
      ensures ok <==> c <= MAX && c - old(outstanding) <= MAX
      ensures capacity == if ok then c else old(capacity)
    {
      if c > MAX { return false; }
      var diff := Signed(Signed(c) - capacity);
      if diff > 0 {
        var size := GetSize();
        if size > 0 && diff > Signed(MAX - size) { return false; }
      }
      capacity := Signed(c);
      ok := true;
    }
  }

  // ----- Runs -----

  datatype Call = DoReserve(amount: nat, strict: bool) | DoFree(amount: nat) | DoSetCapacity(capacity: nat)

  /** A window of unbounded integers that keeps within its limits. */
  datatype Ideal = Ideal(size: int, capacity: int)

  predicate Fits(w: Ideal) { 0 <= w.capacity <= MAX && w.size <= MAX && w.capacity - w.size <= MAX }

  function Amount(c: Call): nat {
    match c
    case DoReserve(n, _) => n
    case DoFree(n) => n
    case DoSetCapacity(n) => n
  }

  /** What a call would do without limits. */
  function Would(w: Ideal, c: Call): Ideal {
    match c
    case DoReserve(n, _) => w.(size := w.size - n)
    case DoFree(n) => w.(size := w.size + n)
    case DoSetCapacity(n) => Ideal(w.size + n - w.capacity, n)
  }

  function Ideally(w: Ideal, c: Call): Ideal {
    var w' := Would(w, c);
    if Amount(c) <= MAX && Fits(w') && (c.DoReserve? && c.strict ==> w'.size >= 0) then w' else w
  }

  function IdeallyAll(w: Ideal, cs: seq<Call>): Ideal {
    if cs == [] then w else Ideally(IdeallyAll(w, cs[..|cs| - 1]), cs[|cs| - 1])
  }

  /** On every run the 32-bit window is the ideal one: a call takes effect exactly when the ideal result is in range. */
  method Run(w: Window, cs: seq<Call>)
    requires w.Valid() && forall i :: 0 <= i < |cs| ==> IsUint32(Amount(cs[i]))
    modifies w
    ensures w.Valid()
    ensures Ideal(w.capacity - w.outstanding, w.capacity) ==
            IdeallyAll(old(Ideal(w.capacity - w.outstanding, w.capacity)), cs)
  {
    var i := 0;
    while i < |cs|
      invariant 0 <= i <= |cs| && w.Valid()
      invariant Ideal(w.capacity - w.outstanding, w.capacity) ==
                IdeallyAll(old(Ideal(w.capacity - w.outstanding, w.capacity)), cs[..i])
    {
      assert cs[..i + 1][..i] == cs[..i];
      match cs[i] {
        case DoReserve(n, strict) => var _ := w.Reserve(n, strict);
        case DoFree(n) => var _ := w.Free(n);
        case DoSetCapacity(n) => var _ := w.SetCapacity(n);
      }
      i := i + 1;
    }
    assert cs[..i] == cs;
  }
}

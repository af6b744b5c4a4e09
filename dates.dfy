/**
 * Dates (`SkriptDate`): a point in time held as a mutable Java `long` count of milliseconds.
 *
 * Java's `long` arithmetic wraps around modulo 2^64; the model writes that wrap-around out with
 * `Wrap`. A duration is its millisecond count. The time zone is a function giving the zone's
 * offset, in milliseconds, at an instant; the process-wide default zone is passed in wherever
 * the source reads it.
 */
module Dates {
  import opened Wrappers

  const LongMin: int := -0x8000_0000_0000_0000
  const LongMax: int := 0x7FFF_FFFF_FFFF_FFFF
  const LongModulus: int := 0x1_0000_0000_0000_0000

  /** A Java `long`. */
  type Long = x: int | LongMin <= x <= LongMax

  /** A Java `int`. */
  type Int32 = x: int | -0x8000_0000 <= x <= 0x7FFF_FFFF

  /** `TimeZone.getOffset(long)`: the zone's offset from UTC at an instant. */
  type Zone = Long -> Int32

  predicate InLong(x: int)
  {
    LongMin <= x <= LongMax
  }

  /** The `long` that Java's two's-complement arithmetic leaves for the exact value x. */
  function Wrap(x: int): (r: Long)
    ensures (x - r) % LongModulus == 0
    ensures InLong(x) ==> r == x
  {
    (x - LongMin) % LongModulus + LongMin
  }

  /** Two numbers that differ by a multiple of 2^64 wrap to the same `long`. */
  lemma WrapCongruent(x: int, y: int)
    requires (x - y) % LongModulus == 0
    ensures Wrap(x) == Wrap(y)
  {
    var rx, ry := Wrap(x), Wrap(y);
    assert (rx - ry) % LongModulus == 0 by {
      assert rx - ry == (x - y) - (x - rx) + (y - ry);
    }
  }

  function Sign(x: int): (r: int)
    ensures r == -1 || r == 0 || r == 1
    ensures r < 0 <==> x < 0
    ensures r == 0 <==> x == 0
  {
    if x < 0 then -1 else if x > 0 then 1 else 0
  }

  function Abs(x: int): nat
  {
    if x < 0 then -x else x
  }

  /** `timestamp - zone.getOffset(timestamp)`: the stored timestamp of a date built from an
      instant, shifted by the zone's offset at that instant. */
  function Shifted(timestamp: Long, zone: Zone): (r: Long)
    ensures InLong(timestamp - zone(timestamp)) ==> r == timestamp - zone(timestamp)
    ensures zone(timestamp) == 0 ==> r == timestamp
  {
    Wrap(timestamp - zone(timestamp))
  }

  /** `compareTo` as written: the sign of the wrapped difference of the timestamps, or of the
      receiver's own timestamp when the other date is null. */
  function CompareAsWritten(t: Long, other: Option<Long>): (r: int)
    ensures r == -1 || r == 0 || r == 1
    ensures other.Some? && InLong(t - other.value) ==> r == Sign(t - other.value)
  {
    if other.None? then Sign(t) else Sign(Wrap(t - other.value))
  }

  /** The wrapped difference of two timestamps, and so `compareTo` as written, is zero exactly
      when they are equal. */
  lemma CompareAsWrittenZero(t: Long, o: Long)
    ensures CompareAsWritten(t, Some(o)) == 0 <==> t == o
  {
    if Wrap(t - o) == 0 {
      assert (t - o) % LongModulus == 0;
      assert -LongModulus < t - o < LongModulus;
    }
  }

  /** `compareTo` as written is not antisymmetric: `Long.MIN_VALUE` and 0 are each "smaller"
      than the other, because 0 - `Long.MIN_VALUE` overflows to `Long.MIN_VALUE`. */
  lemma CompareAsWrittenNotAntisymmetric()
    ensures CompareAsWritten(LongMin, Some(0)) == -1
    ensures CompareAsWritten(0, Some(LongMin)) == -1
  {
    assert Wrap(0 - LongMin) == LongMin;
  }

  /** The comparison `compareTo` evidently intends (`Long.compare`): the sign of the exact
      difference of the timestamps. */
  function Compare(t: Long, o: Long): (r: int)
    ensures r == -1 || r == 0 || r == 1
    ensures r < 0 <==> t < o
    ensures r == 0 <==> t == o
    ensures r > 0 <==> t > o
  {
    Sign(t - o)
  }

  /** The intended comparison is a total order: antisymmetric and transitive. */
  lemma CompareIsTotalOrder(a: Long, b: Long, c: Long)
    ensures Compare(a, b) == -Compare(b, a)
    ensures Compare(a, b) <= 0 && Compare(b, c) <= 0 ==> Compare(a, c) <= 0
  {
  }

  /** `difference`: the absolute value of the wrapped difference of the timestamps. */
  function Distance(a: Long, b: Long): (r: nat)
    ensures InLong(a - b) ==> r == Abs(a - b)
  {
    Abs(Wrap(a - b))
  }

  /** The difference of two dates does not depend on their order, even when the subtraction
      overflows. */
  lemma DistanceSymmetric(a: Long, b: Long)
    ensures Distance(a, b) == Distance(b, a)
  {
    var d, e := Wrap(a - b), Wrap(b - a);
    assert (d + e) % LongModulus == 0 by {
      assert d + e == (a - b) - (a - b - d) + (b - a) - (b - a - e);
    }
    if d == LongMin {
      assert e == LongMin;
    } else {
      assert e == -d;
    }
  }

  /** Adding a span and then subtracting it restores the timestamp, overflow or not. */
  lemma AddThenSubtract(t: Long, span: Long)
    ensures Wrap(Wrap(t + span) - span) == t
  {
    WrapCongruent(Wrap(t + span) - span, t);
  }

  function Pow2(n: nat): (r: nat)
    ensures r >= 1
  {
    if n == 0 then 1 else 2 * Pow2(n - 1)
  }

  lemma {:induction false} Pow2Add(m: nat, n: nat)
    ensures Pow2(m + n) == Pow2(m) * Pow2(n)
    decreases m
  {
    if m > 0 {
      Pow2Add(m - 1, n);
    }
  }

  lemma Pow2Of32()
    ensures Pow2(32) == 0x1_0000_0000
  {
    assert Pow2(8) == 0x100;
    Pow2Add(8, 8);
    Pow2Add(16, 16);
  }

  /** Bitwise exclusive or of two non-negative numbers, bit by bit from the lowest. */
  function Xor(a: nat, b: nat): nat
    decreases a + b
  {
    if a == 0 then b
    else if b == 0 then a
    else 2 * Xor(a / 2, b / 2) + (a + b) % 2
  }

  /** The exclusive or of two n-bit numbers is an n-bit number. */
  lemma {:induction false} XorBound(a: nat, b: nat, n: nat)
    requires a < Pow2(n) && b < Pow2(n)
    ensures Xor(a, b) < Pow2(n)
    decreases n
  {
    if a != 0 && b != 0 {
      XorBound(a / 2, b / 2, n - 1);
    }
  }

  /** `(int) (t ^ (t >>> 32))`: the low 32 bits of the timestamp xor its high 32 bits, read as a
      signed `int`. */
  function FoldHalves(t: Long): (r: Int32)
    ensures 0 <= t < 0x8000_0000 ==> r == t
  {
    var u := if t < 0 then t + LongModulus else t;
    var low, high := u % 0x1_0000_0000, u / 0x1_0000_0000;
    Pow2Of32();
    XorBound(low, high, 32);
    var x := Xor(low, high);
    if x >= 0x8000_0000 then x - 0x1_0000_0000 else x
  }

  /** `hashCode`: 31 * 1 plus the folded timestamp, wrapped to an `int`. */
  function HashOf(t: Long): (r: Int32)
    ensures 0 <= t <= 0x7FFF_FFFF - 31 ==> r == t + 31
  {
    var x := 31 + FoldHalves(t);
    if x > 0x7FFF_FFFF then x - 0x1_0000_0000 else x
  }

  class SkriptDate {
    var timestamp: Long

    /** `SkriptDate(timestamp, zone)`: stores the instant shifted back by the zone's offset. */
    constructor (timestamp: Long, zone: Zone)
      ensures this.timestamp == Shifted(timestamp, zone)
    {
      this.timestamp := Shifted(timestamp, zone);
    }

    /** `of(timestamp, zone)`, and `of(timestamp)` with the default zone passed in. */
    static method Of(timestamp: Long, zone: Zone) returns (d: SkriptDate)
      ensures fresh(d)
      ensures d.timestamp == Shifted(timestamp, zone)
    {
      d := new SkriptDate(timestamp, zone);
    }

    /** `add(span)`: moves this date forward in place. */
    method Add(span: Long)
      modifies this
      ensures timestamp == Wrap(old(timestamp) + span)
      ensures InLong(old(timestamp) + span) ==> timestamp == old(timestamp) + span
    {
      timestamp := Wrap(timestamp + span);
    }

    /** `subtract(span)`: moves this date backward in place. */
    method Subtract(span: Long)
      modifies this
      ensures timestamp == Wrap(old(timestamp) - span)
      ensures InLong(old(timestamp) - span) ==> timestamp == old(timestamp) - span
    {
      timestamp := Wrap(timestamp - span);
    }

    /** `plus(span)`: a new date built through `of` from the moved timestamp, so the zone's
        offset is subtracted once more; this date is left as it was. */
    method Plus(span: Long, zone: Zone) returns (d: SkriptDate)
      ensures fresh(d)
      ensures d.timestamp == Shifted(Wrap(timestamp + span), zone)
      ensures timestamp == old(timestamp)
    {
      d := Of(Wrap(timestamp + span), zone);
    }

    /** `minus(span)`: as `plus`, moving backward. */
    method Minus(span: Long, zone: Zone) returns (d: SkriptDate)
      ensures fresh(d)
      ensures d.timestamp == Shifted(Wrap(timestamp - span), zone)
      ensures timestamp == old(timestamp)
    {
      d := Of(Wrap(timestamp - span), zone);
    }

    /** `difference(other)`: a non-negative duration, the same in both directions, and the
        exact distance whenever the subtraction does not overflow. */
    function Difference(other: SkriptDate): (r: nat)
      reads this, other
      ensures r == Distance(other.timestamp, timestamp)
      ensures InLong(timestamp - other.timestamp) ==> r == Abs(timestamp - other.timestamp)
    {
      DistanceSymmetric(timestamp, other.timestamp);
      Distance(timestamp, other.timestamp)
    }

    /** `compareTo(other)` as written: the sign of the wrapped difference of the timestamps, and
        the sign of this date's own timestamp when the other date is null. It answers 0 exactly
        for equal timestamps and follows their order whenever the subtraction does not overflow;
        `Compare` is the order it evidently intends. */
    function CompareTo(other: SkriptDate?): (r: int)
      reads this, other
      ensures r == -1 || r == 0 || r == 1
      ensures other == null ==> r == Sign(timestamp)
      ensures other != null ==> (r == 0 <==> timestamp == other.timestamp)
      ensures other != null && InLong(timestamp - other.timestamp) ==>
                r == Compare(timestamp, other.timestamp)
    {
      if other == null then CompareAsWritten(timestamp, None)
      else
        CompareAsWrittenZero(timestamp, other.timestamp);
        CompareAsWritten(timestamp, Some(other.timestamp))
    }

    /** `equals(obj)`: `obj` is None when it is not a date (null included); a date is equal
        exactly when it holds the same timestamp. */
    function Equals(obj: Option<SkriptDate>): (r: bool)
      reads this, if obj.Some? then {obj.value} else {}
      ensures r <==> obj.Some? && obj.value.timestamp == timestamp
      ensures obj.Some? ==> (r <==> CompareAsWritten(timestamp, Some(obj.value.timestamp)) == 0)
    {
      if obj.None? then false
      else
        CompareAsWrittenZero(timestamp, obj.value.timestamp);
        CompareTo(obj.value) == 0
    }

    /** `hashCode`: for a timestamp that fits in an `int` with room for 31, the timestamp plus 31. */
    function HashCode(): (r: Int32)
      reads this
      ensures 0 <= timestamp <= 0x7FFF_FFFF - 31 ==> r == timestamp + 31
    {
      HashOf(timestamp)
    }
  }

  /** Equal dates have equal hash codes. */
  lemma EqualDatesHashEqually(a: SkriptDate, b: SkriptDate)
    requires a.Equals(Some(b))
    ensures a.HashCode() == b.HashCode()
  {
  }

  /** `add` then `subtract` of the same span leaves a date as it was. */
  method AddThenSubtractRestores(d: SkriptDate, span: Long)
    modifies d
    ensures d.timestamp == old(d.timestamp)
  {
    d.Add(span);
    d.Subtract(span);
    AddThenSubtract(old(d.timestamp), span);
  }
}

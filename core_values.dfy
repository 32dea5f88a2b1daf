/**
 * The value types of the C++ layer (include/ocilib_core.hpp): `Enum`, a
 * typed wrapper around an enumeration value; `Flags`, a set of enumeration
 * bits stored in an `unsigned int`; and `ConcurrentPool`, a process-wide
 * key/value map.
 */
module CoreValues {
  import opened OciTypes

  /**
   * An enumeration value. Equality of two Enum values (operator== and
   * operator!=) is, by definition of the datatype, equality of the values.
   */
  datatype Enum<T> = Enum(value: T)
  {
    /** GetValue and the conversion to T: constructing from the result gives this Enum back. */
    function GetValue(): (r: T)
      ensures Enum(r) == this
    {
      value
    }
  }

  /** A bit set over a 32-bit `unsigned int` (`_flags`). */
  datatype Flags = Flags(flags: bv32)
  {
    /** operator~: every bit flipped. */
    function Not(): (r: Flags)
      ensures r.flags & flags == 0 && r.flags | flags == 0xFFFF_FFFF
    {
      Flags(!flags)
    }

    /** operator| and operator|=: the smallest set holding both operands. */
    function Or(other: bv32): (r: Flags)
      ensures Covers(r.flags, other) && Covers(r.flags, flags)
      ensures forall x: bv32 :: Covers(x, flags) && Covers(x, other) ==> Covers(x, r.flags)
    {
      var r := Flags(flags | other);
      UnionHoldsBoth(flags, other);
      UnionIsLeast(flags, other);
      r
    }

    /** operator& and operator&=: the largest set inside both operands. */
    function And(other: bv32): (r: Flags)
      ensures Covers(other, r.flags) && Covers(flags, r.flags)
      ensures forall x: bv32 :: Covers(flags, x) && Covers(other, x) ==> Covers(r.flags, x)
    {
      var r := Flags(flags & other);
      IntersectionInsideBoth(flags, other);
      IntersectionIsGreatest(flags, other);
      r
    }

    /** operator^ and operator^=. */
    function Xor(other: bv32): (r: Flags)
      ensures r.flags ^ other == flags
    {
      Flags(flags ^ other)
    }

    /** GetValues: the underlying unsigned int. */
    function GetValues(): (v: nat)
      ensures v < 0x1_0000_0000 && v as bv32 == flags
    {
      flags as nat
    }

    /** IsSet: every bit of `other` is set. */
    predicate IsSet(other: bv32)
    {
      Covers(flags, other)
    }
  }

  /** Every bit of `b` is set in `a`. */
  predicate Covers(a: bv32, b: bv32)
  {
    a & b == b
  }

  /** `a | b` holds both `a` and `b`. */
  lemma UnionHoldsBoth(a: bv32, b: bv32)
    ensures Covers(a | b, a) && Covers(a | b, b)
  {
  }

  /** Any set holding both `a` and `b` holds `a | b`. */
  lemma UnionIsLeast(a: bv32, b: bv32)
    ensures forall x: bv32 :: Covers(x, a) && Covers(x, b) ==> Covers(x, a | b)
  {
    forall x: bv32 | Covers(x, a) && Covers(x, b)
      ensures Covers(x, a | b)
    {
      assert x & a == a && x & b == b;
    }
  }

  /** `a & b` is inside both `a` and `b`. */
  lemma IntersectionInsideBoth(a: bv32, b: bv32)
    ensures Covers(a, a & b) && Covers(b, a & b)
  {
  }

  /** Any set inside both `a` and `b` is inside `a & b`. */
  lemma IntersectionIsGreatest(a: bv32, b: bv32)
    ensures forall x: bv32 :: Covers(a, x) && Covers(b, x) ==> Covers(a & b, x)
  {
    forall x: bv32 | Covers(a, x) && Covers(b, x)
      ensures Covers(a & b, x)
    {
      assert a & x == x && b & x == x;
    }
  }

  /** The empty set, Flags(). */
  const NO_FLAGS := Flags(0)

  /** After `|= f`, `f` is set, and every flag set before still is. */
  lemma SetAfterOr(f: Flags, x: bv32, y: bv32)
    ensures f.Or(x).IsSet(x)
    ensures f.IsSet(y) ==> f.Or(x).IsSet(y)
  {
  }

  /** After `&= ~f`, no bit of `f` is set any more. */
  lemma ClearedAfterAndNot(f: Flags, x: bv32)
    ensures f.And(Flags(x).Not().flags).flags & x == 0
    ensures x != 0 ==> !f.And(Flags(x).Not().flags).IsSet(x)
  {
  }

  /** Nothing is set in Flags() but the empty set, and operator~ undoes itself. */
  lemma EmptyAndComplement(f: Flags, x: bv32)
    ensures NO_FLAGS.IsSet(x) <==> x == 0
    ensures f.Not().Not() == f
  {
  }

  /**
   * ConcurrentPool: a map guarded by a mutex. The model keeps the map;
   * `Get` of a missing key returns None, which stands for the
   * value-initialised `TValue` the C++ map yields.
   */
  class ConcurrentPool<K(==), V> {
    var entries: map<K, V>

    constructor ()
      ensures entries == map[]
    {
      entries := map[];
    }

    /** Get: the value stored under `key`. */
    function Get(key: K): Option<V>
      reads this
    {
      if key in entries then Some(entries[key]) else None
    }

    /** Set: `key` now maps to `value`; every other key keeps its value. */
    method Set(key: K, value: V)
      modifies this
      ensures entries == old(entries)[key := value]
      ensures Get(key) == Some(value)
    {
      entries := entries[key := value];
    }

    /** Remove: `key` is no longer stored; every other key keeps its value. */
    method Remove(key: K)
      modifies this
      ensures entries == old(entries) - {key}
      ensures Get(key) == None
    {
      entries := entries - {key};
    }
  }
}

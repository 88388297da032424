/** C integer types as the generators see them: a storage width and a
    signedness, plus the few C conversions the type probe goes through.

    An object of integer type holds `Bits()` bits. The model records those bits
    as their unsigned reading, a natural number below `Modulus()`; complementing
    every bit is then `Modulus() - 1 - r`, and storing a value into the object
    keeps it modulo `Modulus()`, which is how a store back into a narrower
    object truncates. */
module CTypes {

  /** The storage widths the platforms in scope give their integer types. */
  datatype Width = W8 | W16 | W32 | W64 {

    function Bytes(): nat {
      match this
      case W8 => 1
      case W16 => 2
      case W32 => 4
      case W64 => 8
    }

    function Bits(): nat {
      8 * Bytes()
    }

    /** 2 to the power `Bits()`. */
    function Modulus(): nat {
      match this
      case W8 => 0x100
      case W16 => 0x1_0000
      case W32 => 0x1_0000_0000
      case W64 => 0x1_0000_0000_0000_0000
    }
  }

  /** An integer type of the host C compiler: `int`, `time_t`, the type of the
      field `tv_sec` of `struct timeval`, and so on. */
  datatype CInt = CInt(width: Width, signed: bool) {

    function Min(): int {
      if signed then -(width.Modulus() / 2) else 0
    }

    function Max(): int {
      if signed then width.Modulus() / 2 - 1 else width.Modulus() - 1
    }

    predicate Holds(v: int) {
      Min() <= v <= Max()
    }
  }

  /** The C `int` type of a platform whose `int` is `w` wide. */
  function IntOfWidth(w: Width): CInt {
    CInt(w, true)
  }

  /** The value an object of type `t` holds when its bits read `r` unsigned:
      two's complement for signed types. */
  function Read(t: CInt, r: nat): (v: int)
    ensures t.Holds(v)
    ensures (v - r) % t.width.Modulus() == 0
  {
    var m := t.width.Modulus();
    var u := r % m;
    if t.signed && u >= m / 2 then u - m else u
  }

  /** The bits of an object of type `t` after the value `v` is stored into it:
      reduction modulo 2^width (ISO C section 6.3.1.3 for unsigned types; the
      wrap-around the usual compilers choose for signed ones). */
  function Store(t: CInt, v: int): (r: nat)
    ensures r < t.width.Modulus()
    ensures (v - r) % t.width.Modulus() == 0
  {
    v % t.width.Modulus()
  }

  /** Reading back a stored value gives it back exactly when the type can
      represent it; otherwise the store changed it. */
  lemma StoreThenRead(t: CInt, v: int)
    ensures Read(t, Store(t, v)) == v <==> t.Holds(v)
  {
    var m := t.width.Modulus();
    var r := Store(t, v);
    if t.Holds(v) {
      if v >= 0 {
        assert r == v;
      } else {
        assert v + m == r by {
          assert 0 <= v + m < m;
        }
      }
    }
  }

  /** Storing the value just read leaves the bits as they were. */
  lemma ReadThenStore(t: CInt, r: nat)
    requires r < t.width.Modulus()
    ensures Store(t, Read(t, r)) == r
  {
  }

  /** The integer promotions (ISO C section 6.3.1.1): an operand whose type is
      narrower than `int` is converted to `int` before `~` or `<` applies. */
  function Promote(t: CInt, intWidth: Width): (pt: CInt)
    ensures pt.width.Bytes() >= t.width.Bytes()
    ensures t.width.Bytes() < intWidth.Bytes() ==> pt == IntOfWidth(intWidth)
    ensures t.width.Bytes() >= intWidth.Bytes() ==> pt == t
  {
    if t.width.Bytes() < intWidth.Bytes() then IntOfWidth(intWidth) else t
  }

  /** The value of `~v` computed in type `t` (`v` already of type `t`). */
  function BitNot(t: CInt, v: int): int {
    Read(t, t.width.Modulus() - 1 - Store(t, v))
  }

  /** Facts about the all-ones pattern of a type. */
  lemma AllOnes(t: CInt)
    ensures Store(t, 0) == 0
    ensures Read(t, 0) == 0
    ensures Store(t, -1) == t.width.Modulus() - 1
    ensures Store(t, t.width.Modulus() - 1) == t.width.Modulus() - 1
    ensures Read(t, t.width.Modulus() - 1) == if t.signed then -1 else t.width.Modulus() - 1
  {
    var m := t.width.Modulus();
    assert m >= 256;
    assert (-1) % m == m - 1;
    assert (m - 1) % m == m - 1;
  }

  /** `~0` in type `t` is -1 for a signed type and the largest value otherwise. */
  lemma BitNotZero(t: CInt)
    ensures BitNot(t, 0) == if t.signed then -1 else t.width.Modulus() - 1
  {
    AllOnes(t);
  }

  /** The bits an object of type `t` holds after `lval = 0; lval = ~lval`:
      `~` applies to the promoted value, and the assignment stores the result
      back at the object's own width. */
  function SetAllBits(t: CInt, intWidth: Width): nat {
    var zero := Store(t, 0);
    Store(t, BitNot(Promote(t, intWidth), Read(t, zero)))
  }

  /** The probe's verdict: whether the object compares below zero once every
      bit is set. Promotion keeps values, so the comparison is on the value the
      object holds. */
  predicate ProbeNegative(t: CInt, intWidth: Width) {
    Read(t, SetAllBits(t, intWidth)) < 0
  }

  /** The probe sets exactly the object's own bits, whatever the width of `int`,
      and it reports "negative" exactly for the signed types. */
  lemma ProbeIsExact(t: CInt, intWidth: Width)
    ensures SetAllBits(t, intWidth) == t.width.Modulus() - 1
    ensures ProbeNegative(t, intWidth) <==> t.signed
  {
    var pt := Promote(t, intWidth);
    AllOnes(t);
    AllOnes(pt);
    BitNotZero(pt);
  }

  /** `IS_SIGNED(type)` of the newer generator: `(type)(~(type)0) < (type)0`,
      the complement cast back to the type before the comparison. */
  predicate IsSignedCastBack(t: CInt, intWidth: Width) {
    Read(t, Store(t, BitNot(Promote(t, intWidth), 0))) < 0
  }

  /** `IS_SIGNED(type)` of the older generator: `~(type)0 < (type)0`, compared
      at the promoted type without a cast back. */
  predicate IsSignedPromoted(t: CInt, intWidth: Width) {
    BitNot(Promote(t, intWidth), 0) < 0
  }

  lemma CastBackIsExact(t: CInt, intWidth: Width)
    ensures IsSignedCastBack(t, intWidth) <==> t.signed
  {
    var pt := Promote(t, intWidth);
    BitNotZero(pt);
    AllOnes(t);
  }

  /** Without the cast back, every type narrower than `int` is reported
      signed, the unsigned ones included. */
  lemma PromotedReportsNarrowAsSigned(t: CInt, intWidth: Width)
    ensures IsSignedPromoted(t, intWidth) <==> t.signed || t.width.Bytes() < intWidth.Bytes()
  {
    BitNotZero(Promote(t, intWidth));
  }

  /** `unsigned short` on a platform with a 32-bit `int`: the two macros
      disagree. */
  lemma PromotedMisjudgesUnsignedShort()
    ensures IsSignedPromoted(CInt(W16, false), W32)
    ensures !IsSignedCastBack(CInt(W16, false), W32)
  {
    PromotedReportsNarrowAsSigned(CInt(W16, false), W32);
    CastBackIsExact(CInt(W16, false), W32);
  }
}

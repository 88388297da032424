/** The opaque-type tiling of the newer generator: a type whose layout is not
    to be interpreted is described as a tuple of equal machine words covering
    its size exactly. */
module OpaqueTypes {

  /** `NTuple{count, UInt<bits>}` (or `Int<bits>` when not unsigned). */
  datatype Tiling = Tiling(count: nat, bits: nat, unsigned: bool) {

    function WordBytes(): nat {
      bits / 8
    }
  }

  /** The word sizes, in bytes, the tiling may use. */
  const TileBytes: set<nat> := {1, 2, 4, 8}

  /** `b` is the widest word size that divides `size` evenly. */
  ghost predicate IsWidestTile(size: nat, b: nat) {
    && b in TileBytes
    && size % b == 0
    && (forall b' :: b' in TileBytes && b' > b ==> size % b' != 0)
  }

  /** At most one word size is the widest one. */
  lemma WidestTileIsUnique(size: nat, b1: nat, b2: nat)
    requires IsWidestTile(size, b1) && IsWidestTile(size, b2)
    ensures b1 == b2
  {
  }

  /** `t` covers `size` bytes exactly with the widest word size that can. */
  ghost predicate Covers(t: Tiling, size: nat) {
    && t.bits in {8, 16, 32, 64}
    && t.count * t.WordBytes() == size
    && IsWidestTile(size, t.WordBytes())
  }

  /** `setofbits(output, name, size, isunsigned)`: tries 64-, 32-, 16- and
      finally 8-bit words. The words cover `size` exactly, the word size is the
      widest possible, and the signedness is the caller's. */
  function SetOfBits(size: nat, isUnsigned: bool): (r: Tiling)
    ensures Covers(r, size)
    ensures r.unsigned == isUnsigned
  {
    if size % 8 == 0 then Tiling(size / 8, 64, isUnsigned)
    else if size % 4 == 0 then Tiling(size / 4, 32, isUnsigned)
    else if size % 2 == 0 then Tiling(size / 2, 16, isUnsigned)
    else Tiling(size, 8, isUnsigned)
  }

  /** The tiling is the only one with the widest word: any covering tiling
      with the widest word size has the same shape. */
  lemma SetOfBitsIsTheWidestCover(size: nat, isUnsigned: bool, t: Tiling)
    requires Covers(t, size)
    requires t.unsigned == isUnsigned
    ensures t == SetOfBits(size, isUnsigned)
  {
    var r := SetOfBits(size, isUnsigned);
    WidestTileIsUnique(size, t.WordBytes(), r.WordBytes());
    assert t.bits == r.bits;
    assert t.count * t.WordBytes() == r.count * t.WordBytes();
  }

  /** A 16-byte opaque type becomes two unsigned 64-bit words, not sixteen
      bytes nor four 32-bit words. */
  lemma SixteenBytesIsTwoWords()
    ensures SetOfBits(16, true) == Tiling(2, 64, true)
    ensures SetOfBits(16, true) != Tiling(16, 8, true)
    ensures SetOfBits(16, true) != Tiling(4, 32, true)
  {
  }

  /** Sizes that are not multiples of 2 fall back to single bytes. */
  lemma OddSizesUseBytes(size: nat, isUnsigned: bool)
    requires size % 2 == 1
    ensures SetOfBits(size, isUnsigned) == Tiling(size, 8, isUnsigned)
  {
  }
}

/** Fixed-width integers and byte helpers shared by the descriptor model. */
module UsbTypes {

  /** C `uint8_t`. */
  newtype uint8 = x: int | 0 <= x < 0x100

  /** C `uint16_t`. */
  newtype uint16 = x: int | 0 <= x < 0x1_0000

  /** The bytes of a descriptor as they are laid out in memory and sent on the wire. */
  type Bytes = seq<uint8>

  datatype Option<+T> = None | Some(value: T)

  /** Low byte of a 16-bit field; multi-byte fields are little-endian (section 8.1 of USB 2.0). */
  function Lo(w: uint16): uint8
  {
    (w % 0x100) as uint8
  }

  /** High byte of a 16-bit field. */
  function Hi(w: uint16): uint8
  {
    (w / 0x100) as uint8
  }

  /** Reassembles a 16-bit field from its low and high bytes. */
  function Word(lo: uint8, hi: uint8): (w: uint16)
    ensures Lo(w) == lo && Hi(w) == hi
  {
    (lo as int + 0x100 * hi as int) as uint16
  }

  lemma WordOfBytes(w: uint16)
    ensures Word(Lo(w), Hi(w)) == w
  {
    assert w as int == Lo(w) as int + 0x100 * Hi(w) as int;
  }

  /** C `a | b` on two byte-wide flag sets. */
  function BitOr(a: uint8, b: uint8): uint8
  {
    ((a as bv8) | (b as bv8)) as uint8
  }

  /** Every bit of `mask` is set in `x`. */
  predicate HasBits(x: uint8, mask: uint8)
  {
    (x as bv8) & (mask as bv8) == mask as bv8
  }
}

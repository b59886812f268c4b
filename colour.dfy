/** The colour words sent to the board's single WS2812 RGB LED. The LED
    takes a 32-bit word with green in the third byte, red in the second
    and blue in the lowest; the top byte is unused. */
module Colour {

  /** `urgb_u32`: packs the red, green and blue intensities into one word. */
  function Urgb(r: bv8, g: bv8, b: bv8): (w: bv32)
    ensures w & 0xFF == b as bv32
    ensures (w >> 8) & 0xFF == r as bv32
    ensures (w >> 16) & 0xFF == g as bv32
    ensures w >> 24 == 0
  {
    (r as bv32 << 8) | (g as bv32 << 16) | b as bv32
  }

  /** The red byte of a colour word. */
  function RedOf(w: bv32): bv8
  {
    ((w >> 8) & 0xFF) as bv8
  }

  /** The green byte of a colour word. */
  function GreenOf(w: bv32): bv8
  {
    ((w >> 16) & 0xFF) as bv8
  }

  /** The blue byte of a colour word. */
  function BlueOf(w: bv32): bv8
  {
    (w & 0xFF) as bv8
  }

  /** Each intensity comes back out of the packed word unchanged. */
  lemma UnpackPack(r: bv8, g: bv8, b: bv8)
    ensures RedOf(Urgb(r, g, b)) == r
    ensures GreenOf(Urgb(r, g, b)) == g
    ensures BlueOf(Urgb(r, g, b)) == b
  {
  }

  /** Every word whose top byte is clear is the packing of its own three bytes,
      so `Urgb` is a bijection onto those words. */
  lemma PackUnpack(w: bv32)
    requires w >> 24 == 0
    ensures Urgb(RedOf(w), GreenOf(w), BlueOf(w)) == w
  {
  }

  /** The four colours the game shows, at intensity 0x3F. */
  const Green: bv32 := Urgb(0x00, 0x3F, 0x00)
  const Yellow: bv32 := Urgb(0x3F, 0x3F, 0x00)
  const Red: bv32 := Urgb(0x3F, 0x00, 0x00)
  const Blue: bv32 := Urgb(0x00, 0x00, 0x3F)

  /** The four game colours are pairwise different words. */
  lemma ColoursDistinct()
    ensures Green != Yellow && Green != Red && Green != Blue
    ensures Yellow != Red && Yellow != Blue && Red != Blue
  {
  }
}

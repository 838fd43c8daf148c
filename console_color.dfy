/**
 * console_color, Windows branch: text colour of the console as the low four bits of the
 * console's character attribute (a WORD). The console's attribute is the one piece of
 * state; GetConsoleScreenBufferInfo reads it and SetConsoleTextAttribute writes it.
 */
module ConsoleColor {

  /** WORD. */
  type Word = bv16

  /** console_color::color. */
  datatype Color = Color(value: Word)

  const LowNibble: Word := 0xF

  /** `~0xf` as it reaches the 16-bit attribute: every bit but the low nibble. */
  const HighBits: Word := 0xFFF0

  const Black := Color(0)
  const DarkBlue := Color(1)
  const DarkGreen := Color(2)
  const DarkCyan := Color(3)
  const DarkRed := Color(4)
  const DarkMagenta := Color(5)
  const DarkYellow := Color(6)
  const DarkGrey := Color(7)
  const Grey := Color(8)
  const Blue := Color(9)
  const Green := Color(10)
  const Cyan := Color(11)
  const Red := Color(12)
  const Magenta := Color(13)
  const Yellow := Color(14)
  const White := Color(15)

  const NamedColors: seq<Color> :=
    [Black, DarkBlue, DarkGreen, DarkCyan, DarkRed, DarkMagenta, DarkYellow, DarkGrey,
     Grey, Blue, Green, Cyan, Red, Magenta, Yellow, White]

  /** The attribute set_color writes: the colour's low nibble over the old attribute's other bits. */
  function Recolor(attributes: Word, c: Color): (r: Word)
    ensures r & LowNibble == c.value & LowNibble
    ensures r & HighBits == attributes & HighBits
  {
    (c.value & LowNibble) | (attributes & HighBits)
  }

  /** Setting back the colour that was in effect restores the attribute exactly, whatever colour was set
    * in between. */
  lemma RecolorRestores(attributes: Word, c: Color)
    ensures Recolor(Recolor(attributes, c), Color(attributes)) == attributes
  {
  }

  /** Every named colour lies in 0..15, so it fits in the nibble set_color replaces. */
  lemma NamedColorsFitNibble()
    ensures |NamedColors| == 16
    ensures forall k | 0 <= k < |NamedColors| :: NamedColors[k].value <= 15
  {
  }

  /** A value of 0..15 is its own low nibble. */
  lemma SmallValueIsNibble(v: Word)
    requires v <= 15
    ensures v & LowNibble == v
  {
  }

  /** A named colour written over any attribute reads back as that colour in the low nibble. */
  lemma NamedColorReadsBack(attributes: Word, c: Color)
    requires c in NamedColors
    ensures Recolor(attributes, c) & LowNibble == c.value
  {
    NamedColorsFitNibble();
    SmallValueIsNibble(c.value);
  }

  /** The console output buffer, reduced to its character attribute. */
  class Console {
    var attributes: Word

    constructor (attributes: Word)
      ensures this.attributes == attributes
    {
      this.attributes := attributes;
    }

    /** console_color::get_color: the current attribute, unchanged. */
    method GetColor() returns (c: Color)
      ensures c == Color(attributes)
    {
      c := Color(attributes);
    }

    /** console_color::set_color: replaces the low nibble of the attribute by the colour's and returns the
      * attribute in effect before the call. */
    method SetColor(c: Color) returns (previous: Color)
      modifies this
      ensures previous == Color(old(attributes))
      ensures attributes & LowNibble == c.value & LowNibble
      ensures attributes & HighBits == old(attributes) & HighBits
      ensures attributes == Recolor(old(attributes), c)
    {
      previous := Color(attributes);
      attributes := Recolor(previous.value, c);
    }

    /** The pattern of load_vulkan: set a colour, write a message, set the returned colour back. The
      * attribute afterwards is the one before. */
    method Highlight(c: Color)
      modifies this
      ensures attributes == old(attributes)
    {
      var previous := SetColor(c);
      var _ := SetColor(previous);
      RecolorRestores(old(attributes), c);
    }
  }
}

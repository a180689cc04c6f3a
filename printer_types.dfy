/** Value types shared by the encoder: the unsigned C integer ranges its
    parameters use, the two enumerations of ThermalPrinter.h, and the way a
    C string is handed to the byte sink. */
module PrinterTypes {

  datatype Option<T> = None | Some(value: T)

  /** An unsigned 8-bit value (`uint8_t`). */
  type byte = x: int | 0 <= x < 0x100

  /** An unsigned 16-bit value (`uint16_t`). */
  type u16 = x: int | 0 <= x < 0x1_0000

  // ---------------------------------------------------------------------
  // PrinterAlign
  // ---------------------------------------------------------------------

  /** Paragraph alignment: ALIGN_LEFT, ALIGN_CENTER, ALIGN_RIGHT. */
  datatype Align = Left | Center | Right

  /** The alignment a parameter byte stands for, if any. */
  function AlignOf(b: byte): (r: Option<Align>)
    ensures r.Some? <==> b <= 2
  {
    if b == 0 then Some(Left)
    else if b == 1 then Some(Center)
    else if b == 2 then Some(Right)
    else None
  }

  /** The enumerator value of an alignment, which is also the byte it is sent
      as. The three values are distinct because AlignOf inverts the encoding. */
  function AlignByte(a: Align): (b: byte)
    ensures b <= 2
    ensures AlignOf(b) == Some(a)
  {
    match a
    case Left => 0
    case Center => 1
    case Right => 2
  }

  /** Decoding then encoding gives the byte back. */
  lemma AlignOfInverse(b: byte)
    requires AlignOf(b).Some?
    ensures AlignByte(AlignOf(b).value) == b
  {
  }

  // ---------------------------------------------------------------------
  // PrinterFontSize: two independent flag bits
  // ---------------------------------------------------------------------

  /** A character size: bit 0 doubles the height, bit 4 doubles the width. */
  datatype FontSize = FontSize(doubleHeight: bool, doubleWidth: bool)

  const Normal := FontSize(false, false)
  const DoubleHeight := FontSize(true, false)
  const DoubleWidth := FontSize(false, true)
  const Big := FontSize(true, true)

  /** The font size a parameter byte stands for, if it is one of the four
      enumerators. */
  function FontSizeOf(b: byte): (r: Option<FontSize>)
    ensures r.Some? <==> b in {0x00, 0x01, 0x10, 0x11}
  {
    if b as bv8 & 0xEE == 0 then Some(FontSize(b % 2 == 1, b / 0x10 == 1)) else None
  }

  /** The byte a font size is sent as: its height flag is bit 0, its width
      flag is bit 4 and no other bit is set. */
  function FontSizeByte(f: FontSize): (b: byte)
    ensures (b as bv8 & 0x01 != 0) == f.doubleHeight
    ensures (b as bv8 & 0x10 != 0) == f.doubleWidth
    ensures b as bv8 & 0xEE == 0
    ensures FontSizeOf(b) == Some(f)
  {
    (if f.doubleHeight then 0x01 else 0) + (if f.doubleWidth then 0x10 else 0)
  }

  /** The enumerator values FNT_NORMAL, FNT_DOUBLE_HEIGHT, FNT_DOUBLE_WIDTH
      and FNT_BIG, and FNT_BIG being the union of the two single flags. */
  lemma FontSizeEnumerators()
    ensures FontSizeByte(Normal) == 0x00
    ensures FontSizeByte(DoubleHeight) == 0x01
    ensures FontSizeByte(DoubleWidth) == 0x10
    ensures FontSizeByte(Big) == 0x11
    ensures FontSizeByte(Big) as bv8
         == FontSizeByte(DoubleHeight) as bv8 | FontSizeByte(DoubleWidth) as bv8
  {
  }

  // ---------------------------------------------------------------------
  // C strings and the sink's length parameter
  // ---------------------------------------------------------------------

  /** A text whose every character fits in one `char`, as a C string holds. */
  predicate IsByteString(s: seq<char>)
  {
    forall i | 0 <= i < |s| :: s[i] as int < 0x100
  }

  /** The bytes of a text, as the `(uint8_t*)` cast of a `char` buffer
      exposes them. */
  function Bytes(s: seq<char>): (r: seq<byte>)
    requires IsByteString(s)
    ensures |r| == |s|
    ensures forall i | 0 <= i < |s| :: r[i] == s[i] as int
  {
    seq(|s|, i requires 0 <= i < |s| => s[i] as int)
  }

  /** Regrouping the bytes of consecutive writes. */
  lemma Concat3(a: seq<byte>, b: seq<byte>, c: seq<byte>)
    ensures a + b + c == a + (b + c)
  {
  }

  /** What the sink receives when `data` is written with its own length passed
      through the `uint16_t len` parameter: the length is taken modulo 65536,
      so the whole of `data` arrives only when it is shorter than that. */
  function Truncated(data: seq<byte>): (r: seq<byte>)
    ensures |r| == |data| % 0x1_0000
    ensures r <= data
    ensures |data| < 0x1_0000 ==> r == data
    ensures |data| == 0x1_0000 ==> r == []
  {
    data[..|data| % 0x1_0000]
  }
}

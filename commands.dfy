/** The binary escape-command protocol: each command is a prefix byte (ESC or
    GS, or the bare line feed), one mnemonic character and its parameter bytes.
    `Encode` is the byte layout the driver sends; `Decode` reads one command
    back from the front of a byte stream, as the printer's firmware does, and
    `Apply` is the formatting state a command leaves the printer in. */
module Commands {
  import opened PrinterTypes

  const ESC: byte := 0x1B
  const GS: byte := 0x1D
  const LF: byte := 0x0A

  /** The byte of an ASCII mnemonic character. */
  function Ascii(c: char): (b: byte)
    requires c as int < 0x80
    ensures b < 0x80
  {
    c as int
  }

  /** One protocol unit. `RasterHeader` is the 8-byte header of the raster
      bitmap command; its pixel rows follow it as raw data. */
  datatype Command =
    | Init
    | LineFeed
    | SetAlign(align: Align)
    | SetFontSize(size: FontSize)
    | SetBold(bold: bool)
    | SetInvert(invert: bool)
    | RasterHeader(widthBytes: u16, height: u16)

  /** `enable ? 1 : 0` */
  function Flag(on: bool): (b: byte)
    ensures b <= 1 && (b == 1 <==> on)
  {
    if on then 1 else 0
  }

  /** A 16-bit field, low byte first (`x & 0xFF`, `(x >> 8) & 0xFF`). */
  function LittleEndian16(x: u16): (r: seq<byte>)
    ensures |r| == 2 && r[0] as int + 0x100 * r[1] as int == x
  {
    [x % 0x100, (x / 0x100) % 0x100]
  }

  /** The bytes of a command. The four setters are exactly three bytes long. */
  function Encode(c: Command): (r: seq<byte>)
    ensures 1 <= |r| <= 8
    ensures r[0] in {ESC, GS, LF}
    ensures |r| == 3 <==> c.SetAlign? || c.SetFontSize? || c.SetBold? || c.SetInvert?
  {
    match c
    case Init => [ESC, Ascii('@')]
    case LineFeed => [LF]
    case SetAlign(a) => [ESC, Ascii('a'), AlignByte(a)]
    case SetFontSize(s) => [GS, Ascii('!'), FontSizeByte(s)]
    case SetBold(on) => [ESC, Ascii('E'), Flag(on)]
    case SetInvert(on) => [GS, Ascii('B'), Flag(on)]
    case RasterHeader(x, h) => [GS, Ascii('v'), Ascii('0'), 0] + LittleEndian16(x) + LittleEndian16(h)
  }

  /** The command at the front of `s`, and how many bytes it takes. */
  function Decode(s: seq<byte>): (r: Option<(Command, nat)>)
    ensures r.Some? ==> 0 < r.value.1 <= |s|
  {
    if |s| == 0 then None
    else if s[0] == LF then Some((LineFeed, 1))
    else if s[0] == ESC && |s| >= 2 then
      if s[1] == Ascii('@') then Some((Init, 2))
      else if |s| < 3 then None
      else if s[1] == Ascii('a') && AlignOf(s[2]).Some? then Some((SetAlign(AlignOf(s[2]).value), 3))
      else if s[1] == Ascii('E') && s[2] <= 1 then Some((SetBold(s[2] == 1), 3))
      else None
    else if s[0] == GS && |s| >= 3 then
      if s[1] == Ascii('!') && FontSizeOf(s[2]).Some? then Some((SetFontSize(FontSizeOf(s[2]).value), 3))
      else if s[1] == Ascii('B') && s[2] <= 1 then Some((SetInvert(s[2] == 1), 3))
      else if s[1] == Ascii('v') && |s| >= 8 && s[2] == Ascii('0') && s[3] == 0 then
        Some((RasterHeader(s[4] as int + 0x100 * s[5] as int, s[6] as int + 0x100 * s[7] as int), 8))
      else None
    else None
  }

  /** Every command is read back whole from the front of any stream that
      starts with it, so a concatenation of commands is unambiguous. */
  lemma DecodeEncode(c: Command, rest: seq<byte>)
    ensures Decode(Encode(c) + rest) == Some((c, |Encode(c)|))
  {
    var s := Encode(c) + rest;
    match c
    case RasterHeader(x, h) =>
      var lx, lh := LittleEndian16(x), LittleEndian16(h);
      assert s[4] == lx[0] && s[5] == lx[1] && s[6] == lh[0] && s[7] == lh[1];
    case _ =>
  }

  /** No two commands share an encoding. */
  lemma EncodeInjective(c: Command, d: Command)
    requires Encode(c) == Encode(d)
    ensures c == d
  {
    DecodeEncode(c, []);
    DecodeEncode(d, []);
  }

  /** `n` line feeds, as `Printer_LineFeed(n)` sends them one at a time. */
  function LineFeeds(n: nat): (r: seq<byte>)
    ensures |r| == n
    ensures forall i | 0 <= i < n :: r[i] == LF
  {
    if n == 0 then [] else LineFeeds(n - 1) + Encode(LineFeed)
  }

  // ---------------------------------------------------------------------
  // Formatting state on the printer
  // ---------------------------------------------------------------------

  /** The formatting a printer applies to the text it receives. */
  datatype Format = Format(align: Align, size: FontSize, bold: bool, invert: bool)

  /** The power-on formatting that `Init` restores. */
  const Default := Format(Left, Normal, false, false)

  /** The formatting in force after the printer executes `c`. */
  function Apply(f: Format, c: Command): (g: Format)
    ensures c.Init? ==> g == Default
    ensures c.SetAlign? ==> g.align == c.align && g.(align := f.align) == f
    ensures c.SetFontSize? ==> g.size == c.size && g.(size := f.size) == f
    ensures c.SetBold? ==> g.bold == c.bold && g.(bold := f.bold) == f
    ensures c.SetInvert? ==> g.invert == c.invert && g.(invert := f.invert) == f
    ensures c.LineFeed? || c.RasterHeader? ==> g == f
  {
    match c
    case Init => Default
    case LineFeed => f
    case SetAlign(a) => f.(align := a)
    case SetFontSize(s) => f.(size := s)
    case SetBold(on) => f.(bold := on)
    case SetInvert(on) => f.(invert := on)
    case RasterHeader(_, _) => f
  }
}

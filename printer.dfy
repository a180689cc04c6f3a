/** The driver's entry points. A `Printer` stands for the byte sink:
    `out` is everything handed to `Printer_WriteBytes` so far, in order, and
    every operation appends to it and does nothing else. */
module ThermalPrinter {
  import opened PrinterTypes
  import opened Commands
  import opened Markup
  import opened VendorConfig

  /** The bytes of the raster bitmap command as it is meant to be sent: the
      8-byte header announcing `ceil(width / 8)` bytes per row and `height`
      rows, then every pixel byte. */
  function BitmapBytes(width: u16, height: u16, data: seq<byte>): (r: seq<byte>)
    ensures |r| == 8 + |data| && r[8..] == data
  {
    Encode(RasterHeader(WidthBytes(width), height)) + data
  }

  /** Bytes per bitmap row: `(width + 7) / 8`, the width rounded up to whole
      bytes. */
  function WidthBytes(width: u16): (x: u16)
    ensures 8 * x >= width && 8 * (x - 1) < width
    ensures x <= 0x2000
  {
    (width + 7) / 8
  }

  /** The header of a bitmap carries its row width and height, little-endian,
      and the pixel data follows it unchanged. */
  lemma BitmapLayout(width: u16, height: u16, data: seq<byte>)
    ensures var s := BitmapBytes(width, height, data);
      |s| == 8 + |data| && s[8..] == data &&
      s[..4] == [0x1D, 0x76, 0x30, 0] &&
      s[4] as int + 0x100 * s[5] as int == WidthBytes(width) &&
      s[6] as int + 0x100 * s[7] as int == height &&
      Decode(s) == Some((RasterHeader(WidthBytes(width), height), 8))
  {
    var h := Encode(RasterHeader(WidthBytes(width), height));
    var lx, lh := LittleEndian16(WidthBytes(width)), LittleEndian16(height);
    assert h[4] == lx[0] && h[5] == lx[1] && h[6] == lh[0] && h[7] == lh[1];
    DecodeEncode(RasterHeader(WidthBytes(width), height), data);
  }

  /** A 16 x 2 bitmap: two bytes per row, two rows, then its four data
      bytes. */
  lemma SixteenByTwo(data: seq<byte>)
    requires |data| == 4
    ensures BitmapBytes(16, 2, data) == [0x1D, 0x76, 0x30, 0, 2, 0, 2, 0] + data
    ensures SentBitmap(16, 2, data) == BitmapBytes(16, 2, data)
  {
  }

  /** How the driver sends a bitmap: the pixel data goes out with the
      length `xBytes * height` passed through the sink's `uint16_t len`. */
  function SentBitmap(width: u16, height: u16, data: seq<byte>): (r: seq<byte>)
    ensures r <= BitmapBytes(width, height, data)
    ensures |r| == 8 + |data| % 0x1_0000
  {
    Encode(RasterHeader(WidthBytes(width), height)) + Truncated(data)
  }

  /** While the data is shorter than 65536 bytes the whole bitmap is sent. */
  lemma SmallBitmapSentWhole(width: u16, height: u16, data: seq<byte>)
    requires |data| == WidthBytes(width) * height < 0x1_0000
    ensures SentBitmap(width, height, data) == BitmapBytes(width, height, data)
  {
  }

  /** From 65536 bytes on, data is lost although the header still announces
      all of it: a 512 x 1024 bitmap goes out as its header alone. */
  lemma LargeBitmapTruncated(width: u16, height: u16, data: seq<byte>)
    requires |data| == WidthBytes(width) * height >= 0x1_0000
    ensures |SentBitmap(width, height, data)| < |BitmapBytes(width, height, data)|
    ensures width == 512 && height == 1024 ==>
      SentBitmap(width, height, data) == Encode(RasterHeader(64, 1024))
  {
  }

  class Printer {
    /** Every byte handed to the sink so far, in order. */
    var out: seq<byte>

    constructor ()
      ensures out == []
    {
      out := [];
    }

    /** `Printer_WriteBytes(data, len)`: the sink takes the first `len`
        bytes, in order, and never fails. */
    method WriteBytes(data: seq<byte>, len: u16)
      requires len <= |data|
      modifies this
      ensures out == old(out) + data[..len]
    {
      out := out + data[..len];
    }

    /** `Printer_WriteBytes((uint8_t*)s, strlen(s))`. */
    method WriteString(s: seq<char>)
      requires IsByteString(s)
      modifies this
      ensures out == old(out) + Truncated(Bytes(s))
    {
      WriteBytes(Bytes(s), |s| % 0x1_0000);
    }

    /** ESC @ */
    method Init()
      modifies this
      ensures out == old(out) + Encode(Command.Init)
    {
      var cmd := [ESC, Ascii('@')];
      WriteBytes(cmd, 2);
    }

    /** One LF byte per line, each in its own write. */
    method LineFeed(lines: byte)
      modifies this
      ensures out == old(out) + LineFeeds(lines)
    {
      for i := 0 to lines
        invariant out == old(out) + LineFeeds(i)
      {
        var cmd := [LF];
        WriteBytes(cmd, 1);
      }
    }

    /** ESC a n */
    method SetAlign(align: Align)
      modifies this
      ensures out == old(out) + Encode(Command.SetAlign(align))
    {
      var cmd := [ESC, Ascii('a'), AlignByte(align)];
      WriteBytes(cmd, 3);
    }

    /** GS ! n */
    method SetFontSize(size: FontSize)
      modifies this
      ensures out == old(out) + Encode(Command.SetFontSize(size))
    {
      var cmd := [GS, Ascii('!'), FontSizeByte(size)];
      WriteBytes(cmd, 3);
    }

    /** ESC E n, with any non-zero `enable` sent as 1. */
    method SetBold(enable: byte)
      modifies this
      ensures out == old(out) + Encode(Command.SetBold(enable != 0))
    {
      var cmd := [ESC, Ascii('E'), if enable != 0 then 1 else 0];
      WriteBytes(cmd, 3);
    }

    /** GS B n, with any non-zero `enable` sent as 1. */
    method SetInvert(enable: byte)
      modifies this
      ensures out == old(out) + Encode(Command.SetInvert(enable != 0))
    {
      var cmd := [GS, Ascii('B'), if enable != 0 then 1 else 0];
      WriteBytes(cmd, 3);
    }

    /** GS v 0: the 8-byte header, then the pixel data in a second write
        whose length is truncated to 16 bits. */
    method PrintBitmap(width: u16, height: u16, bitmap: seq<byte>)
      requires |bitmap| == WidthBytes(width) * height
      modifies this
      ensures out == old(out) + SentBitmap(width, height, bitmap)
    {
      var xBytes := (width + 7) / 8;
      var header := [GS, Ascii('v'), Ascii('0'), 0,
                     xBytes % 0x100, (xBytes / 0x100) % 0x100,
                     height % 0x100, (height / 0x100) % 0x100];
      WriteBytes(header, 8);
      WriteBytes(bitmap, (xBytes * height) % 0x1_0000);
    }

    /** The bitmap command with the pixel data sent in pieces of at most
        65535 bytes, so that none of it is lost. */
    method PrintBitmapWhole(width: u16, height: u16, bitmap: seq<byte>)
      requires |bitmap| == WidthBytes(width) * height
      modifies this
      ensures out == old(out) + BitmapBytes(width, height, bitmap)
    {
      var header := Encode(RasterHeader(WidthBytes(width), height));
      WriteBytes(header, 8);
      var sent := 0;
      while sent < |bitmap|
        invariant sent <= |bitmap|
        invariant out == old(out) + header + bitmap[..sent]
      {
        var n := if |bitmap| - sent < 0xFFFF then |bitmap| - sent else 0xFFFF;
        WriteBytes(bitmap[sent..], n);
        assert bitmap[..sent] + bitmap[sent..][..n] == bitmap[..sent + n];
        sent := sent + n;
      }
      assert bitmap[..sent] == bitmap;
    }

    /** One line of markup, by the first rule that matches: heading,
        divider, quote, plain text. */
    method PrintMarkdown(line: seq<char>)
      requires IsLine(line)
      modifies this
      ensures out == old(out) + LineBytes(line)
    {
      if |line| > 0 && line[0] == '#' {
        PrintHeading(line);
      } else if |line| >= 3 && line[..3] == "---" {
        PrintDivider(line);
      } else if |line| > 0 && line[0] == '>' {
        PrintQuote(line);
      } else {
        PrintPlain(line);
      }
    }

    /** Centred, big and bold text without its leading `#` and spaces, then
        the formatting set back to its defaults. */
    method PrintHeading(line: seq<char>)
      requires IsLine(line) && |line| > 0 && line[0] == '#'
      modifies this
      ensures out == old(out) + LineBytes(line)
    {
      ghost var before := out;
      OpenHeading();
      ghost var styled := out;
      var k := SkipHeadingMarkers(line);
      MarkerRunUnique(line, k);
      WriteString(line[k..]);
      ghost var written := out;
      CloseHeading();
      HeadingParts(line);
      Concat3(before, Render(HeadingOpen), Truncated(Bytes(line[k..])));
      Concat3(before, Render(HeadingOpen) + Truncated(Bytes(line[k..])), Render(HeadingClose));
    }

    /** The start of a heading: centred, big and bold. */
    method OpenHeading()
      modifies this
      ensures out == old(out) + Render(HeadingOpen)
    {
      ghost var before := out;
      ghost var center, big, bold := Emit(Command.SetAlign(Center)), Emit(Command.SetFontSize(Big)), Emit(Command.SetBold(true));
      SetAlign(Center);
      Appended(before, [], center);
      assert out == before + Render([] + [center]);
      SetFontSize(Big);
      Appended(before, [] + [center], big);
      assert out == before + Render([] + [center] + [big]);
      SetBold(1);
      Appended(before, [] + [center] + [big], bold);
      assert [] + [center] + [big] + [bold] == HeadingOpen;
    }

    /** The end of a heading: a line feed, then size, bold and alignment set
        back to their defaults. */
    method CloseHeading()
      modifies this
      ensures out == old(out) + Render(HeadingClose)
    {
      ghost var before := out;
      ghost var feed, normal, plain, left := Emit(Command.LineFeed), Emit(Command.SetFontSize(Normal)),
        Emit(Command.SetBold(false)), Emit(Command.SetAlign(Left));
      LineFeed(1);
      assert LineFeeds(1) == OpBytes(feed);
      Appended(before, [], feed);
      assert out == before + Render([] + [feed]);
      SetFontSize(Normal);
      Appended(before, [] + [feed], normal);
      assert out == before + Render([] + [feed] + [normal]);
      SetBold(0);
      Appended(before, [] + [feed] + [normal], plain);
      assert out == before + Render([] + [feed] + [normal] + [plain]);
      SetAlign(Left);
      Appended(before, [] + [feed] + [normal] + [plain], left);
      assert [] + [feed] + [normal] + [plain] + [left] == HeadingClose;
    }

    /** 32 dashes and a line feed. */
    method PrintDivider(line: seq<char>)
      requires IsLine(line) && |line| >= 3 && line[..3] == "---"
      modifies this
      ensures out == old(out) + LineBytes(line)
    {
      RuleIsDashes();
      var rule := Bytes(Rule);
      assert |rule| == 32 && rule[..32] == rule;
      WriteBytes(rule, 32);
      ghost var written := out;
      LineFeed(1);
      assert LineFeeds(1) == [LF];
      assert out == written + [LF];
      DividerLine(line);
    }

    /** The rest of the line in reverse video, then a line feed. */
    method PrintQuote(line: seq<char>)
      requires IsLine(line) && |line| > 0 && line[0] == '>'
      modifies this
      ensures out == old(out) + LineBytes(line)
    {
      ghost var before := out;
      ghost var text := WriteText(line[1..]);
      ghost var on, off, feed := Emit(Command.SetInvert(true)), Emit(Command.SetInvert(false)), Emit(Command.LineFeed);
      SetInvert(1);
      Appended(before, [], on);
      assert out == before + Render([] + [on]);
      WriteString(line[1..]);
      Appended(before, [] + [on], text);
      assert out == before + Render([] + [on] + [text]);
      SetInvert(0);
      Appended(before, [] + [on] + [text], off);
      assert out == before + Render([] + [on] + [text] + [off]);
      LineFeed(1);
      assert LineFeeds(1) == OpBytes(feed);
      Appended(before, [] + [on] + [text] + [off], feed);
      assert out == before + Render([] + [on] + [text] + [off] + [feed]);
      assert [] + [on] + [text] + [off] + [feed] == QuoteOps(text);
      QuoteOpsOf(line);
    }

    /** The line verbatim, then a line feed. */
    method PrintPlain(line: seq<char>)
      requires IsLine(line)
      requires |line| == 0 || (line[0] != '#' && line[0] != '>')
      requires |line| < 3 || line[..3] != "---"
      modifies this
      ensures out == old(out) + LineBytes(line)
    {
      WriteString(line);
      LineFeed(1);
      assert LineFeeds(1) == [LF];
      PlainLine(line);
    }

    /** `RS#PTDP=<density>;`, the value written in decimal whatever it is. */
    method CfgSetDensity(density: byte)
      modifies this
      ensures out == old(out) + Bytes(Frame(VendorConfig.SetDensity(density)))
    {
      DensityFrame(density);
      FrameShape(VendorConfig.SetDensity(density));
      var buf := "RS#PTDP=" + Decimal(density) + ";";
      WriteBytes(Bytes(buf), |buf|);
    }

    /** `RS#RTFA*;` */
    method CfgReset()
      modifies this
      ensures out == old(out) + Bytes(Frame(VendorConfig.Reset()))
    {
      ResetFrame();
      var cmd := "RS#RTFA*;";
      WriteBytes(Bytes(cmd), |cmd|);
    }
  }

  /** `Printer_Init` keeps no state: called twice, it sends the same two bytes
      twice. */
  method InitTwice(p: Printer)
    modifies p
    ensures p.out == old(p.out) + [0x1B, 0x40] + [0x1B, 0x40]
  {
    p.Init();
    p.Init();
  }
}

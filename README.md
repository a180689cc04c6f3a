# Thermal printer command encoder, modelled in Dafny

This project models the command encoder of a thermal receipt printer driver
(`ThermalPrinter.c`, `ThermalPrinter.h`). The driver turns print requests into
exact byte sequences. It hands them to a single external sink,
`Printer_WriteBytes`. The model has three parts:

- the **binary command encoder**: ESC/GS escape commands for init, line feed,
  alignment, font size, bold and reverse video, and the raster bitmap command
  with its little-endian 16-bit width and height fields;
- the **markup line interpreter**: one text line is classified as heading,
  divider, quote or plain text (the first rule that matches wins) and sent as
  a sequence of encoder calls;
- the **vendor configuration encoder**: ASCII frames `RS#<CMD>=<decimal>;` and
  `RS#<CMD>*;`.

Layout:

- `printer_types.dfy` (module `PrinterTypes`) holds what the header file
  defines. This is `PrinterAlign`, and `PrinterFontSize` as two independent
  flag bits. It also holds the `uint8_t`/`uint16_t` ranges and the
  `(uint8_t*)` view of a C string. `Truncated` is what the sink receives when
  a length goes through its `uint16_t len` parameter.
- `commands.dfy` (module `Commands`) holds the byte layout of every binary
  command (`Encode`). Its partner is a decoder (`Decode`) that reads one
  command back from the front of a byte stream. `Apply` gives the formatting
  state each command leaves the printer in.
- `config.dfy` (module `VendorConfig`) holds the `%d` numeral (`Decimal`),
  the RS# frames and a frame parser (`ParseFrame`).
- `markup.dfy` (module `Markup`) holds line classification, the calls each
  line makes (`LineOps`), the bytes they produce (`LineBytes`) and the
  formatting state they leave behind (`Run`). It also holds the heading's
  marker-skipping loop.
- `printer.dfy` (module `ThermalPrinter`) holds the class `Printer`. Its
  field `out` is everything handed to the sink so far. Each C function is a
  method that appends to `out` and does nothing else.

Assumptions about the C platform: `int` is 32 bits wide, so `width + 7` in
the bitmap command does not wrap. A `char` is one byte: a markup line is a
sequence of characters below 256 with no NUL inside.

## Model

| member | source | states |
|---|---|---|
| PrinterTypes.AlignByte | ThermalPrinter.h:9-13 | Left, Center and Right are sent as 0, 1 and 2, and decoding the byte gives the same alignment back, so the three values are distinct |
| PrinterTypes.AlignOfInverse | ThermalPrinter.h:9-13 | every byte that names an alignment is that alignment's encoding |
| PrinterTypes.FontSizeByte | ThermalPrinter.h:15-20 | a font size byte has double height in bit 0 and double width in bit 4, no other bit set, and decodes back to the same size |
| PrinterTypes.FontSizeEnumerators | ThermalPrinter.h:15-20 | Normal 0x00, DoubleHeight 0x01, DoubleWidth 0x10, Big 0x11, and Big is DoubleHeight OR DoubleWidth |
| PrinterTypes.Truncated | ThermalPrinter.h:24 | a write whose length passes through `uint16_t len` delivers the first `length mod 65536` bytes of the data: all of it below 65536 bytes, none of it at exactly 65536 |
| Commands.LittleEndian16 | ThermalPrinter.c:70-72 | a 16-bit field is two bytes, low byte first, whose value is low + 256 * high |
| Commands.Encode | ThermalPrinter.c:11-72 | every command starts with ESC, GS or LF and is 1 to 8 bytes long; exactly the four setters (align, size, bold, invert) are 3 bytes |
| Commands.Decode | ThermalPrinter.c:11-72 | a decoded command takes a non-empty prefix of the stream |
| Commands.DecodeEncode | ThermalPrinter.c:11-76 | each command is read back whole from the front of any stream that starts with it, so commands sent back to back are unambiguous |
| Commands.EncodeInjective | ThermalPrinter.c:11-72 | no two commands have the same bytes |
| Commands.LineFeeds | ThermalPrinter.c:20-25 | n line feeds are exactly n bytes, each 0x0A |
| Commands.Apply | ThermalPrinter.c:30-58 | Init restores the default formatting; each setter changes only its own formatting attribute, to the value sent; line feeds and bitmaps change none |
| VendorConfig.Decimal | ThermalPrinter.c:122 | `%d` of a non-negative value is a non-empty run of digits with no sign and no leading zero |
| VendorConfig.ParseDecimalInverse | ThermalPrinter.c:122 | reading the numeral back gives the value |
| VendorConfig.Frame | ThermalPrinter.c:119-129 | a frame is at least 9 characters: `RS#`, the 4-letter mnemonic, `=` for a setting or `*` for an action, and a final `;` |
| VendorConfig.SetDensity | ThermalPrinter.c:119-122 | the density command is a well-formed `PTDP` setting whose value is the density byte |
| VendorConfig.Reset | ThermalPrinter.c:126-127 | the reset command is the well-formed `RTFA` action |
| VendorConfig.DecimalLength | ThermalPrinter.c:119-124 | values below 10, 100 and 1000 take 1, 2 and 3 digits |
| VendorConfig.FrameShape | ThermalPrinter.c:119-129 | a frame starts with `RS#`, is printable ASCII, and its only `;` is its last character |
| VendorConfig.ParseFrame | ThermalPrinter.c:119-129 | a parsed frame has a 4-letter mnemonic and ends at a `;` inside the input |
| VendorConfig.ParseFrameInverse | ThermalPrinter.c:119-129 | every frame is parsed back whole from the front of any text that starts with it, so frames can be concatenated without a separator |
| VendorConfig.DigitRunStops | ThermalPrinter.c:122 | the digits of a numeral end at the first non-digit |
| VendorConfig.DensityFrame | ThermalPrinter.c:119-124 | every density byte 0..255 is sent as `RS#PTDP=` + its decimal + `;`, 10 to 12 characters, with no range check |
| VendorConfig.DensitySeven | ThermalPrinter.c:119-124 | density 7 is `RS#PTDP=7;` |
| VendorConfig.ResetFrame | ThermalPrinter.c:126-129 | reset is the fixed 9 characters `RS#RTFA*;` |
| Markup.MarkerRun | ThermalPrinter.c:89-90 | the stripped prefix of a heading is all `#` and spaces, and it is followed by another character or the end of the line |
| Markup.MarkerRunUnique | ThermalPrinter.c:90 | that prefix is the only one with this property, so the strip is maximal |
| Markup.SkipHeadingMarkers | ThermalPrinter.c:89-90 | the pointer-advancing loop stops after the maximal run of `#` and spaces |
| Markup.Classify | ThermalPrinter.c:84-111 | a line is a heading exactly when it starts with `#`, a divider exactly when it starts with `---`, a quote exactly when it starts with `>`, and plain text exactly when none of these holds |
| Markup.LineOps | ThermalPrinter.c:82-115 | a heading makes 8 calls, a quote 4, a divider or plain line 2; a heading's fifth call and every other line's last call is a single line feed; only headings and quotes start with a formatting command |
| Markup.RuleIsDashes | ThermalPrinter.c:100 | the separator is 32 dashes |
| Markup.RenderAppend | ThermalPrinter.h:24 | the bytes sent by two consecutive groups of calls are the first group's bytes followed by the second's |
| Markup.RunAppend | ThermalPrinter.c:82-115 | executing two consecutive groups of calls is executing the first and then the second |
| Markup.HeadingParts | ThermalPrinter.c:84-97 | a heading's bytes are its three opening commands, its stripped text, and its four closing commands |
| Markup.HeadingOpsBytes | ThermalPrinter.c:85-96 | whatever its text, a heading sends the bytes of its opening commands, then the text, then the bytes of its closing commands |
| Markup.HeadingFrameBytes | ThermalPrinter.c:85-96 | the heading opens with ESC a 1, GS ! 0x11, ESC E 1 and closes with LF, GS ! 0, ESC E 0, ESC a 0 |
| Markup.HeadingLine | ThermalPrinter.c:84-97 | a line starting with `#` sends centre/big/bold, the line without its leading `#`/space run, a line feed, then size, bold and alignment back to their defaults |
| Markup.DividerLine | ThermalPrinter.c:99-102 | a line starting with `---` sends 32 dashes and one line feed, the same bytes whatever follows `---` |
| Markup.QuoteLine | ThermalPrinter.c:104-109 | a line starting with `>` sends invert on, the rest of the line unstripped, invert off, one line feed |
| Markup.PlainLine | ThermalPrinter.c:111-114 | any other line is sent verbatim followed by one line feed |
| Markup.HeadingRun | ThermalPrinter.c:84-97 | from any formatting, the commands a heading issues leave it left-aligned, normal size and not bold whatever its text, and leave reverse video unchanged |
| Markup.QuoteRun | ThermalPrinter.c:104-109 | from any formatting, the commands a quote issues leave reverse video off and change nothing else |
| Markup.FormattingRestored | ThermalPrinter.c:82-115 | whichever rule applies, the commands a line issues bring a printer that starts in default formatting back to default formatting |
| Markup.HeadingTextFormat | ThermalPrinter.c:84-91 | the commands before a heading's text set centred, big and bold |
| Markup.QuoteTextFormat | ThermalPrinter.c:104-106 | the command before a quote's text sets reverse video |
| Markup.TextCarriesCommand | ThermalPrinter.c:111-112 | the plain line ESC `E` 0x01 is sent verbatim and reads back as the bold-on command, while `Run`, which takes text as inert, reports default formatting after it |
| Markup.HelloHeading | ThermalPrinter.c:84-97 | `## Hello` sends the heading frame around the five bytes of `Hello` |
| Markup.NoteQuote | ThermalPrinter.c:104-109 | `>note` sends invert on, `note`, invert off, line feed |
| ThermalPrinter.WidthBytes | ThermalPrinter.c:67 | the row width is ceil(width / 8) bytes, at most 8192 |
| ThermalPrinter.BitmapBytes | ThermalPrinter.c:66-76 | a bitmap is 8 header bytes followed by the data, unchanged |
| ThermalPrinter.SentBitmap | ThermalPrinter.c:74-75 | what the driver sends is a prefix of the bitmap: its 8 header bytes and `length mod 65536` data bytes |
| ThermalPrinter.BitmapLayout | ThermalPrinter.c:66-76 | a bitmap is `GS v 0 0`, the row width and height little-endian, then the data unchanged; the header decodes back to the same width and height |
| ThermalPrinter.SixteenByTwo | ThermalPrinter.c:66-76 | a 16 x 2 bitmap has header `1D 76 30 00 02 00 02 00` followed by its 4 data bytes, and the driver sends all of it |
| ThermalPrinter.SmallBitmapSentWhole | ThermalPrinter.c:74-75 | below 65536 data bytes the driver sends the whole bitmap |
| ThermalPrinter.LargeBitmapTruncated | ThermalPrinter.c:75 | from 65536 data bytes on the driver sends fewer bytes than the bitmap has; a 512 x 1024 bitmap goes out as its header alone |
| ThermalPrinter.Printer.WriteBytes | ThermalPrinter.h:24 | the sink appends the first `len` bytes, in order, and never fails |
| ThermalPrinter.Printer.WriteString | ThermalPrinter.c:91 | writing a C string with `strlen` appends its bytes, truncated through the 16-bit length |
| ThermalPrinter.Printer.Init | ThermalPrinter.c:11-14 | appends exactly the Init command, ESC @ |
| ThermalPrinter.InitTwice | ThermalPrinter.c:11-14 | two calls of Init append two identical 2-byte sequences |
| ThermalPrinter.Printer.LineFeed | ThermalPrinter.c:20-25 | appends exactly `lines` bytes 0x0A, nothing for 0 |
| ThermalPrinter.Printer.SetAlign | ThermalPrinter.c:30-33 | appends exactly ESC a with the alignment's byte |
| ThermalPrinter.Printer.SetFontSize | ThermalPrinter.c:39-42 | appends exactly GS ! with the size's byte |
| ThermalPrinter.Printer.SetBold | ThermalPrinter.c:47-50 | appends exactly ESC E with 1 if `enable` is non-zero, else 0 |
| ThermalPrinter.Printer.SetInvert | ThermalPrinter.c:55-58 | appends exactly GS B with 1 if `enable` is non-zero, else 0 |
| ThermalPrinter.Printer.PrintBitmap | ThermalPrinter.c:66-76 | appends the 8-byte raster header, then the data as cut by the 16-bit length parameter |
| ThermalPrinter.Printer.PrintBitmapWhole | ThermalPrinter.c:66-76 | appends the 8-byte raster header and then all of the data, unchanged and in order |
| ThermalPrinter.Printer.PrintMarkdown | ThermalPrinter.c:82-115 | appends exactly the bytes of the one rule that applies to the line |
| ThermalPrinter.Printer.PrintHeading | ThermalPrinter.c:84-97 | appends exactly the heading's bytes |
| ThermalPrinter.Printer.OpenHeading | ThermalPrinter.c:85-87 | appends exactly the centre, big-font and bold-on commands, in that order |
| ThermalPrinter.Printer.CloseHeading | ThermalPrinter.c:92-96 | appends exactly a line feed and the normal-size, bold-off and left-align commands, in that order |
| ThermalPrinter.Printer.PrintDivider | ThermalPrinter.c:99-102 | appends exactly the divider's bytes |
| ThermalPrinter.Printer.PrintQuote | ThermalPrinter.c:104-109 | appends exactly the quote's bytes |
| ThermalPrinter.Printer.PrintPlain | ThermalPrinter.c:111-114 | appends exactly the plain line's bytes |
| ThermalPrinter.Printer.CfgSetDensity | ThermalPrinter.c:119-124 | appends exactly the density frame for the given byte |
| ThermalPrinter.Printer.CfgReset | ThermalPrinter.c:126-129 | appends exactly the reset frame |

## Left out

- The body of `Printer_WriteBytes` (ThermalPrinter.h:24) is hardware-specific and not part of this model. It is modelled as an infallible append to `Printer.out`.
- `Printer_SetUnderline` (ThermalPrinter.h:31) and `Printer_Cfg_SetSpeed` (ThermalPrinter.h:43) are declared but have no implementation, so their byte layout is not modelled.
- The `FS` macro (ThermalPrinter.c:6) is never used.
- `sprintf`, `strlen` and `strncmp` are replaced by functions over character sequences (`Decimal`, `|line|`, a prefix test). NUL termination and pointer arithmetic are not modelled: a line is its characters without the terminator.
- Thread safety of the shared sink is the caller's concern; the code has no concurrency.
- A markup line is required to hold characters below 256 and no NUL (`Markup.IsLine`). That is what a C `char` string can hold.
- The printer's handling of the received bytes is not modelled beyond `Decode` and `Apply`: the formatting attributes each command sets, and Init restoring the defaults.
- `Printer_PrintMarkdown` is one C function. Here each of its four branches is its own method (`PrintHeading`, `PrintDivider`, `PrintQuote`, `PrintPlain`). The heading's opening calls (ThermalPrinter.c:85-87) and closing calls (ThermalPrinter.c:92-96) are the methods `OpenHeading` and `CloseHeading`. The calls made and their order are unchanged.
- Markup.Run: it and the lemmas over it (`HeadingRun`, `QuoteRun`, `FormattingRestored`, `HeadingTextFormat`, `QuoteTextFormat`) track only the commands the interpreter itself issues. Text writes are taken to leave the formatting alone. A line whose text holds ESC or GS bytes can carry commands of its own, which the printer would execute (`TextCarriesCommand` shows one), so these lemmas say nothing about such lines.
- PrinterTypes.Align, PrinterTypes.FontSize: only the enumerators are modelled. C lets any value of the enum's underlying type reach the `(uint8_t)` casts (ThermalPrinter.c:31, 40), and the byte sent for an out-of-range value is not modelled.
- Platforms with a 16-bit `int` are not modelled: there `width + 7` would wrap for widths above 65528.

## Findings

| source | as written | input that shows it | evidently intended | confidence | as-written member | corrected member |
|---|---|---|---|---|---|---|
| ThermalPrinter.c:75 | the data length `xBytes * height` is passed to the `uint16_t len` parameter, so it is taken modulo 65536 | width 512, height 1024: the header announces 64 bytes x 1024 rows (65536 bytes), and 0 data bytes are sent | all `xBytes * height` data bytes follow the header | not executed; high | ThermalPrinter.LargeBitmapTruncated | ThermalPrinter.Printer.PrintBitmapWhole |

/** The markup line interpreter: one line of text is classified by the first
    rule that matches (heading, divider, quote, plain) and rendered as a
    sequence of encoder commands and direct text writes. */
module Markup {
  import opened PrinterTypes
  import opened Commands

  /** A line as a C string holds it: byte-sized characters and no NUL
      inside (the terminator is not part of the sequence). */
  predicate IsLine(line: seq<char>)
  {
    forall i | 0 <= i < |line| :: line[i] != '\0' && line[i] as int < 0x100
  }

  /** The characters a heading's prefix is made of. */
  predicate IsMarker(c: char)
  {
    c == '#' || c == ' '
  }

  /** The length of the maximal run of `#` and space that starts `line`. */
  function MarkerRun(line: seq<char>): (k: nat)
    ensures k <= |line|
    ensures forall i | 0 <= i < k :: IsMarker(line[i])
    ensures k == |line| || !IsMarker(line[k])
  {
    if |line| > 0 && IsMarker(line[0]) then 1 + MarkerRun(line[1..]) else 0
  }

  /** The run of markers is the only prefix that is all markers and is
      followed by a non-marker or the end of the line. */
  lemma {:induction false} MarkerRunUnique(line: seq<char>, k: nat)
    requires k <= |line|
    requires forall i | 0 <= i < k :: IsMarker(line[i])
    requires k == |line| || !IsMarker(line[k])
    ensures MarkerRun(line) == k
  {
    if k > 0 {
      MarkerRunUnique(line[1..], k - 1);
    }
  }

  /** The heading loop: advance past every leading `#` and space. */
  method SkipHeadingMarkers(line: seq<char>) returns (k: nat)
    ensures k <= |line|
    ensures forall i | 0 <= i < k :: IsMarker(line[i])
    ensures k == |line| || !IsMarker(line[k])
  {
    k := 0;
    while k < |line| && IsMarker(line[k])
      invariant k <= |line|
      invariant forall i | 0 <= i < k :: IsMarker(line[i])
    {
      k := k + 1;
    }
  }

  datatype LineKind = Heading | Divider | Quote | Plain

  /** The rule that applies to a line; the first match wins. The three
      tests exclude one another (`#`, `-` and `>` differ), so each rule
      applies exactly when its own test holds. */
  function Classify(line: seq<char>): (k: LineKind)
    ensures k == Heading <==> |line| > 0 && line[0] == '#'
    ensures k == Divider <==> |line| >= 3 && line[..3] == "---"
    ensures k == Quote <==> |line| > 0 && line[0] == '>'
    ensures k == Plain <==> !(|line| > 0 && line[0] in "#>") && !(|line| >= 3 && line[..3] == "---")
  {
    if |line| > 0 && line[0] == '#' then Heading
    else if |line| >= 3 && line[..3] == "---" then Divider
    else if |line| > 0 && line[0] == '>' then Quote
    else Plain
  }

  /** One call into the encoder, or a direct write of bytes to the sink. */
  datatype Op = Emit(cmd: Command) | Write(data: seq<byte>)

  /** `Printer_WriteBytes((uint8_t*)s, strlen(s))`. */
  function WriteText(s: seq<char>): Op
    requires IsByteString(s)
  {
    Write(Truncated(Bytes(s)))
  }

  /** The 32-dash separator line. */
  const Rule: seq<char> := "--------------------------------"

  lemma RuleIsDashes()
    ensures |Rule| == 32 && forall i | 0 <= i < |Rule| :: Rule[i] == '-'
  {
  }

  /** The calls that open a heading: centred, big, bold. */
  const HeadingOpen: seq<Op> := [Emit(SetAlign(Center)), Emit(SetFontSize(Big)), Emit(SetBold(true))]

  /** The calls that close a heading: a line feed, then size, bold and
      alignment set back to their defaults. */
  const HeadingClose: seq<Op> :=
    [Emit(LineFeed), Emit(SetFontSize(Normal)), Emit(SetBold(false)), Emit(SetAlign(Left))]

  function HeadingOps(text: Op): seq<Op>
  {
    HeadingOpen + [text] + HeadingClose
  }

  const DividerOps: seq<Op> := [Write(Bytes(Rule)), Emit(LineFeed)]

  function QuoteOps(text: Op): seq<Op>
  {
    [Emit(SetInvert(true)), text, Emit(SetInvert(false)), Emit(LineFeed)]
  }

  function PlainOps(text: Op): seq<Op>
  {
    [text, Emit(LineFeed)]
  }

  /** The calls one line makes, in order: eight for a heading, four for a
      quote, two otherwise. Every line ends its text with one line feed, and
      only headings and quotes begin with a formatting command. */
  function LineOps(line: seq<char>): (ops: seq<Op>)
    requires IsLine(line)
    ensures |ops| == match Classify(line) case Heading => 8 case Quote => 4 case _ => 2
    ensures ops[if Classify(line) == Heading then 4 else |ops| - 1] == Emit(LineFeed)
    ensures ops[0].Emit? <==> Classify(line) in {Heading, Quote}
  {
    match Classify(line)
    case Heading => HeadingOps(WriteText(line[MarkerRun(line)..]))
    case Divider => DividerOps
    case Quote => QuoteOps(WriteText(line[1..]))
    case Plain => PlainOps(WriteText(line))
  }

  lemma HeadingOpsOf(line: seq<char>)
    requires IsLine(line) && |line| > 0 && line[0] == '#'
    ensures LineOps(line) == HeadingOps(WriteText(line[MarkerRun(line)..]))
  {
  }

  lemma HeadingBytesOf(line: seq<char>)
    requires IsLine(line) && |line| > 0 && line[0] == '#'
    ensures LineBytes(line) == Render(HeadingOps(WriteText(line[MarkerRun(line)..])))
  {
    HeadingOpsOf(line);
  }

  lemma DividerOpsOf(line: seq<char>)
    requires IsLine(line) && |line| >= 3 && line[..3] == "---"
    ensures LineOps(line) == DividerOps
  {
  }

  lemma QuoteOpsOf(line: seq<char>)
    requires IsLine(line) && |line| > 0 && line[0] == '>'
    ensures LineOps(line) == QuoteOps(WriteText(line[1..]))
  {
  }

  lemma PlainOpsOf(line: seq<char>)
    requires IsLine(line)
    requires |line| == 0 || (line[0] != '#' && line[0] != '>')
    requires |line| < 3 || line[..3] != "---"
    ensures LineOps(line) == PlainOps(WriteText(line))
  {
  }

  function OpBytes(op: Op): seq<byte>
  {
    match op
    case Emit(c) => Encode(c)
    case Write(data) => data
  }

  /** The bytes a sequence of calls hands to the sink. */
  function Render(ops: seq<Op>): seq<byte>
  {
    if ops == [] then [] else Render(ops[..|ops| - 1]) + OpBytes(ops[|ops| - 1])
  }

  /** The formatting in force after the printer executes one call; text
      writes do not change it. */
  function Step(f: Format, op: Op): Format
  {
    match op
    case Emit(c) => Apply(f, c)
    case Write(_) => f
  }

  /** The formatting in force after the printer executes a sequence of calls. */
  function Run(f: Format, ops: seq<Op>): Format
  {
    if ops == [] then f else Step(Run(f, ops[..|ops| - 1]), ops[|ops| - 1])
  }

  /** The bytes `Printer_PrintMarkdown(line)` sends. */
  function LineBytes(line: seq<char>): seq<byte>
    requires IsLine(line)
  {
    Render(LineOps(line))
  }

  // ---------------------------------------------------------------------
  // Rendering a sequence of calls piece by piece
  // ---------------------------------------------------------------------

  lemma RenderSnoc(ops: seq<Op>, op: Op)
    ensures Render(ops + [op]) == Render(ops) + OpBytes(op)
  {
    assert (ops + [op])[..|ops|] == ops;
  }

  lemma RunSnoc(f: Format, ops: seq<Op>, op: Op)
    ensures Run(f, ops + [op]) == Step(Run(f, ops), op)
  {
    assert (ops + [op])[..|ops|] == ops;
  }

  /** The bytes of consecutive groups of calls are the groups' bytes in
      order. */
  lemma {:induction false} RenderAppend(xs: seq<Op>, ys: seq<Op>)
    ensures Render(xs + ys) == Render(xs) + Render(ys)
    decreases |ys|
  {
    if ys == [] {
      assert xs + ys == xs;
    } else {
      var zs, y := ys[..|ys| - 1], ys[|ys| - 1];
      assert ys == zs + [y];
      assert xs + ys == (xs + zs) + [y];
      RenderAppend(xs, zs);
      RenderSnoc(xs + zs, y);
      RenderSnoc(zs, y);
      Concat3(Render(xs), Render(zs), OpBytes(y));
    }
  }

  /** Executing consecutive groups of calls is executing one after the
      other. */
  lemma {:induction false} RunAppend(f: Format, xs: seq<Op>, ys: seq<Op>)
    ensures Run(f, xs + ys) == Run(Run(f, xs), ys)
    decreases |ys|
  {
    if ys == [] {
      assert xs + ys == xs;
    } else {
      var zs, y := ys[..|ys| - 1], ys[|ys| - 1];
      assert ys == zs + [y];
      assert xs + ys == (xs + zs) + [y];
      RunSnoc(f, xs + zs, y);
      RunAppend(f, xs, zs);
    }
  }

  /** A sink holding `before` and the bytes of `ops` that receives the bytes
      of `op` holds `before` and the bytes of `ops + [op]`. */
  lemma Appended(before: seq<byte>, ops: seq<Op>, op: Op)
    ensures before + Render(ops) + OpBytes(op) == before + Render(ops + [op])
  {
    RenderSnoc(ops, op);
    Concat3(before, Render(ops), OpBytes(op));
  }

  lemma Unfold2(a: Op, b: Op)
    ensures Render([a, b]) == OpBytes(a) + OpBytes(b)
  {
    assert [a][..0] == [];
    assert Render([a]) == Render([]) + OpBytes(a) == OpBytes(a);
    assert [a, b][..1] == [a];
    assert Render([a, b]) == Render([a]) + OpBytes(b);
  }

  lemma Unfold3(a: Op, b: Op, c: Op)
    ensures Render([a, b, c]) == OpBytes(a) + OpBytes(b) + OpBytes(c)
  {
    Unfold2(a, b);
    RenderSnoc([a, b], c);
    assert [a, b] + [c] == [a, b, c];
  }

  lemma Unfold4(a: Op, b: Op, c: Op, d: Op)
    ensures Render([a, b, c, d]) == OpBytes(a) + OpBytes(b) + OpBytes(c) + OpBytes(d)
  {
    Unfold3(a, b, c);
    RenderSnoc([a, b, c], d);
    assert [a, b, c] + [d] == [a, b, c, d];
  }

  lemma Run2(f: Format, a: Op, b: Op)
    ensures Run(f, [a, b]) == Step(Step(f, a), b)
  {
    RunSnoc(f, [], a);
    RunSnoc(f, [a], b);
    assert [] + [a] == [a];
    assert [a] + [b] == [a, b];
  }

  lemma Run3(f: Format, a: Op, b: Op, c: Op)
    ensures Run(f, [a, b, c]) == Step(Step(Step(f, a), b), c)
  {
    Run2(f, a, b);
    RunSnoc(f, [a, b], c);
    assert [a, b] + [c] == [a, b, c];
  }

  lemma Run4(f: Format, a: Op, b: Op, c: Op, d: Op)
    ensures Run(f, [a, b, c, d]) == Step(Step(Step(Step(f, a), b), c), d)
  {
    Run3(f, a, b, c);
    RunSnoc(f, [a, b, c], d);
    assert [a, b, c] + [d] == [a, b, c, d];
  }

  // ---------------------------------------------------------------------
  // What each rule sends, byte for byte
  // ---------------------------------------------------------------------

  /** The commands that open and close a heading, byte for byte. */
  lemma HeadingFrameBytes()
    ensures Render(HeadingOpen) == [0x1B, 0x61, 1, 0x1D, 0x21, 0x11, 0x1B, 0x45, 1]
    ensures Render(HeadingClose) == [0x0A, 0x1D, 0x21, 0, 0x1B, 0x45, 0, 0x1B, 0x61, 0]
  {
    Unfold3(Emit(SetAlign(Center)), Emit(SetFontSize(Big)), Emit(SetBold(true)));
    Unfold4(Emit(LineFeed), Emit(SetFontSize(Normal)), Emit(SetBold(false)), Emit(SetAlign(Left)));
    FontSizeEnumerators();
  }

  /** Whatever its text, a heading's calls send the opening commands, the
      text and the closing commands. */
  lemma HeadingOpsBytes(text: Op)
    ensures Render(HeadingOps(text)) == Render(HeadingOpen) + OpBytes(text) + Render(HeadingClose)
  {
    RenderAppend(HeadingOpen + [text], HeadingClose);
    RenderAppend(HeadingOpen, [text]);
    RenderSnoc([], text);
    assert [] + [text] == [text];
  }

  /** A heading's bytes are those of its opening calls, its text and its
      closing calls. */
  lemma HeadingParts(line: seq<char>)
    requires IsLine(line) && |line| > 0 && line[0] == '#'
    ensures LineBytes(line)
         == Render(HeadingOpen) + Truncated(Bytes(line[MarkerRun(line)..])) + Render(HeadingClose)
  {
    var text := WriteText(line[MarkerRun(line)..]);
    HeadingBytesOf(line);
    HeadingOpsBytes(text);
  }

  /** A heading is centred, big and bold around its text, which is the line
      without its leading `#` and space characters; alignment, size and bold
      are set back to their defaults afterwards. */
  lemma HeadingLine(line: seq<char>)
    requires IsLine(line) && |line| > 0 && line[0] == '#'
    ensures 1 <= MarkerRun(line)
    ensures LineBytes(line)
         == [0x1B, 0x61, 1, 0x1D, 0x21, 0x11, 0x1B, 0x45, 1]
          + Truncated(Bytes(line[MarkerRun(line)..]))
          + [0x0A, 0x1D, 0x21, 0, 0x1B, 0x45, 0, 0x1B, 0x61, 0]
  {
    HeadingParts(line);
    HeadingFrameBytes();
  }

  /** A divider sends 32 dashes and a line feed, whatever follows `---`. */
  lemma DividerLine(line: seq<char>)
    requires IsLine(line) && |line| >= 3 && line[..3] == "---"
    ensures LineBytes(line) == Bytes(Rule) + [LF]
    ensures LineBytes(line) == seq(32, _ => 0x2D) + [0x0A]
    ensures LineBytes(line) == LineBytes("---")
  {
    assert Classify(line) == Divider && Classify("---") == Divider;
    Unfold2(Write(Bytes(Rule)), Emit(LineFeed));
    assert Bytes(Rule) == seq(32, _ => 0x2D) by {
      RuleIsDashes();
    }
  }

  /** A quote sends the rest of the line after `>`, unstripped, in reverse
      video, then ends reverse video and feeds one line. */
  lemma QuoteLine(line: seq<char>)
    requires IsLine(line) && |line| > 0 && line[0] == '>'
    ensures LineBytes(line)
         == [0x1D, 0x42, 1] + Truncated(Bytes(line[1..])) + [0x1D, 0x42, 0, 0x0A]
  {
    assert Classify(line) == Quote;
    var text := WriteText(line[1..]);
    Unfold4(Emit(SetInvert(true)), text, Emit(SetInvert(false)), Emit(LineFeed));
    var on, t, off := OpBytes(Emit(SetInvert(true))), OpBytes(text), OpBytes(Emit(SetInvert(false)));
    assert on == [0x1D, 0x42, 1] && off + [0x0A] == [0x1D, 0x42, 0, 0x0A];
    assert on + t + off + [0x0A] == on + t + (off + [0x0A]);
  }

  /** Any other line is sent verbatim and followed by one line feed. */
  lemma PlainLine(line: seq<char>)
    requires IsLine(line)
    requires |line| == 0 || (line[0] != '#' && line[0] != '>')
    requires |line| < 3 || line[..3] != "---"
    ensures LineBytes(line) == Truncated(Bytes(line)) + [0x0A]
  {
    assert Classify(line) == Plain;
    Unfold2(WriteText(line), Emit(LineFeed));
  }

  // ---------------------------------------------------------------------
  // Formatting never leaks from one line into the next
  // ---------------------------------------------------------------------

  /** From any formatting, a heading ends left-aligned, normal size and not
      bold, whatever its text; reverse video is left as it was. */
  lemma HeadingRun(f: Format, text: Op)
    requires text.Write?
    ensures Run(f, HeadingOps(text)) == f.(align := Left, size := Normal, bold := false)
  {
    RunAppend(f, HeadingOpen + [text], HeadingClose);
    RunAppend(f, HeadingOpen, [text]);
    Run3(f, Emit(SetAlign(Center)), Emit(SetFontSize(Big)), Emit(SetBold(true)));
    RunSnoc(Run(f, HeadingOpen), [], text);
    assert [] + [text] == [text];
    var g := Run(f, HeadingOpen + [text]);
    Run4(g, Emit(LineFeed), Emit(SetFontSize(Normal)), Emit(SetBold(false)), Emit(SetAlign(Left)));
  }

  /** From any formatting, a quote ends with reverse video off and nothing
      else changed. */
  lemma QuoteRun(f: Format, text: Op)
    requires text.Write?
    ensures Run(f, QuoteOps(text)) == f.(invert := false)
  {
    Run4(f, Emit(SetInvert(true)), text, Emit(SetInvert(false)), Emit(LineFeed));
  }

  /** From the default formatting, every line leaves the printer in the
      default formatting again. */
  lemma FormattingRestored(line: seq<char>)
    requires IsLine(line)
    ensures Run(Default, LineOps(line)) == Default
  {
    match Classify(line)
    case Heading =>
      HeadingRun(Default, WriteText(line[MarkerRun(line)..]));
    case Divider =>
      Run2(Default, Write(Bytes(Rule)), Emit(LineFeed));
    case Quote =>
      QuoteRun(Default, WriteText(line[1..]));
    case Plain =>
      Run2(Default, WriteText(line), Emit(LineFeed));
  }

  /** A heading's text is printed centred, in the big font and in bold. */
  lemma HeadingTextFormat(line: seq<char>)
    requires IsLine(line) && |line| > 0 && line[0] == '#'
    ensures LineOps(line)[3].Write?
    ensures Run(Default, LineOps(line)[..3]) == Format(Center, Big, true, false)
  {
    assert Classify(line) == Heading;
    var ops := LineOps(line);
    assert ops[..3] == HeadingOpen;
    Run3(Default, Emit(SetAlign(Center)), Emit(SetFontSize(Big)), Emit(SetBold(true)));
  }

  /** A quote's text is printed in reverse video. */
  lemma QuoteTextFormat(line: seq<char>)
    requires IsLine(line) && |line| > 0 && line[0] == '>'
    ensures LineOps(line)[1].Write?
    ensures Run(Default, LineOps(line)[..1]) == Default.(invert := true)
  {
    var ops := LineOps(line);
    RunSnoc(Default, [], ops[0]);
    assert [] + [ops[0]] == ops[..1];
  }

  /** Line text is sent verbatim, so an escape sequence inside it reaches
      the printer as a command: `ESC E 1` as a plain line leaves the
      interpreter's own formatting at the default while its bytes turn bold
      on. */
  lemma TextCarriesCommand(line: seq<char>)
    requires line == [0x1B as char, 'E', 0x01 as char]
    ensures IsLine(line) && Classify(line) == Plain
    ensures Run(Default, LineOps(line)) == Default
    ensures Decode(LineBytes(line)) == Some((SetBold(true), 3))
  {
    PlainLine(line);
    FormattingRestored(line);
    assert Truncated(Bytes(line)) == [0x1B, 0x45, 0x01];
  }

  // ---------------------------------------------------------------------
  // Worked lines
  // ---------------------------------------------------------------------

  /** `## Hello`: both `#` and the space are stripped. */
  lemma HelloHeading()
    ensures LineBytes("## Hello")
         == [0x1B, 0x61, 1, 0x1D, 0x21, 0x11, 0x1B, 0x45, 1]
          + [0x48, 0x65, 0x6C, 0x6C, 0x6F]
          + [0x0A, 0x1D, 0x21, 0, 0x1B, 0x45, 0, 0x1B, 0x61, 0]
  {
    HeadingLine("## Hello");
    HelloText();
  }

  lemma HelloText()
    ensures MarkerRun("## Hello") == 3
    ensures Truncated(Bytes("## Hello"[3..])) == [0x48, 0x65, 0x6C, 0x6C, 0x6F]
  {
    var line := "## Hello";
    assert line[..3] == "## " && line[3] == 'H';
    MarkerRunUnique(line, 3);
    assert line[3..] == "Hello";
  }

  /** `>note`: the four text bytes in reverse video. */
  lemma NoteQuote()
    ensures LineBytes(">note") == [0x1D, 0x42, 1] + [0x6E, 0x6F, 0x74, 0x65] + [0x1D, 0x42, 0, 0x0A]
  {
    var line := ">note";
    assert line[1..] == "note";
    var t := Truncated(Bytes("note"));
    assert t == [0x6E, 0x6F, 0x74, 0x65];
    QuoteLine(line);
  }
}

/** The vendor's ASCII configuration sub-protocol. A command is framed as
    `RS#` + a 4-letter mnemonic + `=` + an unsigned decimal + `;`, or, for a
    command without a value, `RS#` + mnemonic + `*;`. */
module VendorConfig {
  import opened PrinterTypes

  // ---------------------------------------------------------------------
  // Unsigned decimal numerals (`%d` of a non-negative value)
  // ---------------------------------------------------------------------

  predicate IsDigit(c: char)
  {
    '0' <= c <= '9'
  }

  function Digit(d: nat): (c: char)
    requires d < 10
    ensures IsDigit(c)
  {
    ('0' as int + d) as char
  }

  function DigitValue(c: char): (d: nat)
    requires IsDigit(c)
    ensures d < 10 && Digit(d) == c
  {
    c as int - '0' as int
  }

  /** The base-10 numeral of `n`: only digits, no sign and no leading zero. */
  function Decimal(n: nat): (s: seq<char>)
    ensures 1 <= |s|
    ensures forall i | 0 <= i < |s| :: IsDigit(s[i])
    ensures s[0] == '0' <==> n == 0
    ensures n == 0 ==> s == "0"
  {
    if n < 10 then [Digit(n)] else Decimal(n / 10) + [Digit(n % 10)]
  }

  /** The value of a numeral, most significant digit first. */
  function ParseDecimal(s: seq<char>): nat
    requires forall i | 0 <= i < |s| :: IsDigit(s[i])
  {
    if s == [] then 0 else 10 * ParseDecimal(s[..|s| - 1]) + DigitValue(s[|s| - 1])
  }

  lemma {:induction false} ParseDecimalInverse(n: nat)
    ensures ParseDecimal(Decimal(n)) == n
  {
    var s := Decimal(n);
    if n >= 10 {
      assert s[..|s| - 1] == Decimal(n / 10);
      ParseDecimalInverse(n / 10);
    }
  }

  /** A byte value takes one to three digits. */
  lemma {:induction false} DecimalLength(n: nat)
    requires n < 1000
    ensures |Decimal(n)| == if n < 10 then 1 else if n < 100 then 2 else 3
  {
    if n >= 10 {
      DecimalLength(n / 10);
    }
  }

  // ---------------------------------------------------------------------
  // Frames
  // ---------------------------------------------------------------------

  /** A command mnemonic: four upper-case letters. */
  predicate IsMnemonic(m: seq<char>)
  {
    |m| == 4 && forall i | 0 <= i < 4 :: 'A' <= m[i] <= 'Z'
  }

  datatype CfgCommand =
    | Assign(mnemonic: seq<char>, value: nat)
    | Action(mnemonic: seq<char>)

  predicate WellFormed(c: CfgCommand)
  {
    IsMnemonic(c.mnemonic)
  }

  /** The characters of a frame: the start marker, the mnemonic, then the
      value or the action mark, closed by `;`. */
  function Frame(c: CfgCommand): (s: seq<char>)
    requires WellFormed(c)
    ensures 9 <= |s| && s[..3] == "RS#" && s[3..7] == c.mnemonic && s[|s| - 1] == ';'
    ensures s[7] == (if c.Assign? then '=' else '*')
  {
    match c
    case Assign(m, v) => "RS#" + m + "=" + Decimal(v) + ";"
    case Action(m) => "RS#" + m + "*;"
  }

  /** Print density (`PTDP`), sent without range check. */
  function SetDensity(density: byte): (c: CfgCommand)
    ensures WellFormed(c) && c.Assign? && c.mnemonic == "PTDP" && c.value == density
  {
    Assign("PTDP", density)
  }

  /** Restore factory settings (`RTFA`). */
  function Reset(): (c: CfgCommand)
    ensures WellFormed(c) && c.Action? && c.mnemonic == "RTFA"
  {
    Action("RTFA")
  }

  /** A frame is printable ASCII and holds exactly one `;`, its last
      character, so frames can be sent back to back without a separator. */
  lemma FrameShape(c: CfgCommand)
    requires WellFormed(c)
    ensures var s := Frame(c);
      9 <= |s| && s[..3] == "RS#" && s[|s| - 1] == ';' &&
      (forall i | 0 <= i < |s| - 1 :: s[i] != ';') &&
      (forall i | 0 <= i < |s| :: ' ' <= s[i] <= '~')
  {
    var s := Frame(c);
    match c
    case Assign(m, v) =>
      var d := Decimal(v);
      assert s == "RS#" + m + "=" + d + ";";
      forall i | 0 <= i < |s| ensures ' ' <= s[i] <= '~' && (i < |s| - 1 ==> s[i] != ';') {
        if 8 <= i < |s| - 1 {
          assert s[i] == d[i - 8];
        }
      }
    case Action(m) =>
  }

  /** The index of the first non-digit at or after `i`. */
  function DigitRun(s: seq<char>, i: nat): (j: nat)
    requires i <= |s|
    ensures i <= j <= |s|
    ensures forall k | i <= k < j :: IsDigit(s[k])
    ensures j == |s| || !IsDigit(s[j])
    decreases |s| - i
  {
    if i < |s| && IsDigit(s[i]) then DigitRun(s, i + 1) else i
  }

  /** The frame at the front of `s`, and how many characters it takes. */
  function ParseFrame(s: seq<char>): (r: Option<(CfgCommand, nat)>)
    ensures r.Some? ==> WellFormed(r.value.0) && 9 <= r.value.1 <= |s| && s[r.value.1 - 1] == ';'
  {
    if |s| < 9 || s[..3] != "RS#" || !IsMnemonic(s[3..7]) then None
    else if s[7] == '*' then
      if s[8] == ';' then Some((Action(s[3..7]), 9)) else None
    else if s[7] != '=' then None
    else
      var j := DigitRun(s, 8);
      if j == 8 || j == |s| || s[j] != ';' || (s[8] == '0' && j > 9) then None
      else Some((Assign(s[3..7], ParseDecimal(s[8..j])), j + 1))
  }

  /** Every frame is read back whole, and only its own characters are used,
      from the front of any text that starts with it. */
  lemma ParseFrameInverse(c: CfgCommand, rest: seq<char>)
    requires WellFormed(c)
    ensures ParseFrame(Frame(c) + rest) == Some((c, |Frame(c)|))
  {
    match c
    case Assign(m, v) => ParseAssign(m, v, rest);
    case Action(m) => ParseAction(m, rest);
  }

  lemma ParseAssign(m: seq<char>, v: nat, rest: seq<char>)
    requires IsMnemonic(m)
    ensures ParseFrame(Frame(Assign(m, v)) + rest) == Some((Assign(m, v), |Frame(Assign(m, v))|))
  {
    var d := Decimal(v);
    var head := "RS#" + m + "=";
    var s := head + d + (";" + rest);
    assert Frame(Assign(m, v)) + rest == s;
    assert |head| == 8;
    var j := 8 + |d|;
    assert s[..3] == "RS#" && s[3..7] == m && s[7] == '=';
    assert s[8..j] == d;
    assert s[j] == ';';
    DigitRunStops(s, 8, j);
    ParseDecimalInverse(v);
  }

  lemma ParseAction(m: seq<char>, rest: seq<char>)
    requires IsMnemonic(m)
    ensures ParseFrame(Frame(Action(m)) + rest) == Some((Action(m), 9))
  {
    var s := Frame(Action(m)) + rest;
    assert s[..3] == "RS#" && s[3..7] == m && s[7] == '*' && s[8] == ';';
  }

  lemma {:induction false} DigitRunStops(s: seq<char>, i: nat, j: nat)
    requires i <= j < |s|
    requires forall k | i <= k < j :: IsDigit(s[k])
    requires !IsDigit(s[j])
    ensures DigitRun(s, i) == j
    decreases j - i
  {
    if i < j {
      DigitRunStops(s, i + 1, j);
    }
  }

  /** `RS#PTDP=<d>;` for every byte value, ten to twelve characters long. */
  lemma DensityFrame(density: byte)
    ensures WellFormed(SetDensity(density))
    ensures Frame(SetDensity(density)) == "RS#PTDP=" + Decimal(density) + ";"
    ensures 10 <= |Frame(SetDensity(density))| <= 12
  {
    DecimalLength(density);
  }

  /** The reset frame is the nine characters `RS#RTFA*;`. */
  lemma ResetFrame()
    ensures WellFormed(Reset())
    ensures Frame(Reset()) == "RS#RTFA*;"
  {
  }

  /** Density 7 is sent as the ten characters `RS#PTDP=7;`. */
  lemma DensitySeven()
    ensures Frame(SetDensity(7)) == "RS#PTDP=7;"
  {
    DensityFrame(7);
  }
}

/**
 * adjustColor (player.js): brighten or darken a hex colour by adding the same
 * amount to each channel and clamping it, written with the JavaScript
 * conversions it relies on spelled out: parseInt with radix 16, the 32-bit
 * shifts and masks, and toString(16) padded to six digits.
 */
module Colors {

  import opened Wrappers

  /** The whitespace and line terminators parseInt skips at the front. */
  predicate IsJsSpace(c: char)
  {
    c == '\t' || c == '\n' || c == '\U{000B}' || c == '\U{000C}' || c == '\r' ||
    c == ' ' || c == '\U{00A0}' || c == '\U{1680}' || ('\U{2000}' <= c <= '\U{200A}') ||
    c == '\U{2028}' || c == '\U{2029}' || c == '\U{202F}' || c == '\U{205F}' ||
    c == '\U{3000}' || c == '\U{FEFF}'
  }

  predicate IsHexDigit(c: char)
  {
    ('0' <= c <= '9') || ('a' <= c <= 'f') || ('A' <= c <= 'F')
  }

  function DigitValue(c: char): (v: nat)
    requires IsHexDigit(c)
    ensures v < 16
  {
    if '0' <= c <= '9' then (c - '0') as nat
    else if 'a' <= c <= 'f' then (c - 'a') as nat + 10
    else (c - 'A') as nat + 10
  }

  predicate AllHex(s: seq<char>)
  {
    forall i :: 0 <= i < |s| ==> IsHexDigit(s[i])
  }

  /** The digits toString(16) writes: lower case. */
  function HexChar(v: nat): (c: char)
    requires v < 16
    ensures IsHexDigit(c) && DigitValue(c) == v
    ensures !('A' <= c <= 'F')
  {
    "0123456789abcdef"[v]
  }

  predicate IsLowerHex(s: seq<char>)
  {
    forall i :: 0 <= i < |s| ==> ('0' <= s[i] <= '9') || ('a' <= s[i] <= 'f')
  }

  /** The value of a string of hex digits, most significant first. */
  function HexValue(ds: seq<char>): nat
    requires AllHex(ds)
  {
    if ds == [] then 0
    else HexValue(ds[..|ds| - 1]) * 16 + DigitValue(ds[|ds| - 1])
  }

  function Pow16(k: nat): (p: nat)
    ensures p >= 1
  {
    if k == 0 then 1 else 16 * Pow16(k - 1)
  }

  lemma {:induction false} HexValueBound(ds: seq<char>)
    requires AllHex(ds)
    ensures HexValue(ds) < Pow16(|ds|)
  {
    if ds != [] {
      HexValueBound(ds[..|ds| - 1]);
    }
  }

  /** Leading zeros do not change the value. */
  lemma {:induction false} LeadingZeros(k: nat, ds: seq<char>)
    requires AllHex(ds)
    ensures AllHex(seq(k, _ => '0') + ds)
    ensures HexValue(seq(k, _ => '0') + ds) == HexValue(ds)
    decreases |ds|
  {
    var zs: seq<char> := seq(k, _ => '0');
    if ds == [] {
      assert zs + ds == zs;
      ZerosValue(k);
    } else {
      var init := ds[..|ds| - 1];
      assert (zs + ds)[..|zs + ds| - 1] == zs + init;
      LeadingZeros(k, init);
    }
  }

  lemma {:induction false} ZerosValue(k: nat)
    ensures AllHex(seq(k, _ => '0'))
    ensures HexValue(seq(k, _ => '0')) == 0
  {
    if k > 0 {
      var zs: seq<char> := seq(k, _ => '0');
      assert zs[..k - 1] == seq(k - 1, _ => '0');
      ZerosValue(k - 1);
    }
  }

  /**
   * The digits parseInt reads: the longest prefix of hex digits (an empty
   * prefix is NaN).
   */
  function LeadingHexDigits(s: seq<char>): (ds: seq<char>)
    ensures |ds| <= |s| && ds == s[..|ds|] && AllHex(ds)
    ensures |ds| < |s| ==> !IsHexDigit(s[|ds|])
  {
    if s == [] || !IsHexDigit(s[0]) then []
    else [s[0]] + LeadingHexDigits(s[1..])
  }

  function TrimStart(s: seq<char>): (t: seq<char>)
    ensures |t| <= |s| && t == s[|s| - |t|..]
    ensures t != [] ==> !IsJsSpace(t[0])
  {
    if s != [] && IsJsSpace(s[0]) then TrimStart(s[1..]) else s
  }

  /** After an optional sign. */
  function AfterSign(t: seq<char>): seq<char>
  {
    if t != [] && (t[0] == '-' || t[0] == '+') then t[1..] else t
  }

  /** After an optional 0x or 0X, which radix 16 allows. */
  function AfterPrefix(t: seq<char>): seq<char>
  {
    if |t| >= 2 && t[0] == '0' && (t[1] == 'x' || t[1] == 'X') then t[2..] else t
  }

  /**
   * parseInt(s, 16): leading whitespace, an optional sign, an optional 0x
   * prefix, then the longest run of hex digits; None stands for NaN, which
   * is what parseInt gives when no digit follows.
   */
  function ParseIntHex(s: seq<char>): (p: Option<int>)
    ensures p.None? <==> var d := AfterPrefix(AfterSign(TrimStart(s))); d == [] || !IsHexDigit(d[0])
    ensures p.Some? && p.value < 0 ==> TrimStart(s)[0] == '-'
    ensures s != [] && AllHex(s) ==> p == Some(HexValue(s))
  {
    var t := TrimStart(s);
    var ds := LeadingHexDigits(AfterPrefix(AfterSign(t)));
    var v: int := HexValue(ds);
    var p := if ds == [] then None else if t != [] && t[0] == '-' then Some(-v) else Some(v);
    if s != [] && AllHex(s) then
      NothingToSkip(s);
      LeadingHexDigitsAll(s);
      assert IsHexDigit(s[0]);
      p
    else
      p
  }

  /** ToInt32, applied by >> and &; NaN becomes 0. */
  function ToInt32(n: Option<int>): (x: int)
    ensures -0x8000_0000 <= x < 0x8000_0000
    ensures n.Some? && -0x8000_0000 <= n.value < 0x8000_0000 ==> x == n.value
    ensures n.None? ==> x == 0
    ensures n.Some? ==> (n.value - x) % 0x1_0000_0000 == 0
  {
    if n.None? then 0
    else
      var m := n.value % 0x1_0000_0000;
      if m >= 0x8000_0000 then m - 0x1_0000_0000 else m
  }

  /** Math.max(0, Math.min(255, v)). */
  function Clamp(v: int): (c: int)
    ensures 0 <= c <= 255
    ensures 0 <= v <= 255 ==> c == v
    ensures v < 0 ==> c == 0
    ensures v > 255 ==> c == 255
  {
    if v < 0 then 0 else if v > 255 then 255 else v
  }

  lemma DivMod16(q: int, rem: int)
    requires 0 <= rem < 16
    ensures (q * 16 + rem) / 16 == q && (q * 16 + rem) % 16 == rem
  {
  }

  lemma DivMod256(q: int, rem: int)
    requires 0 <= rem < 0x100
    ensures (q * 0x100 + rem) / 0x100 == q && (q * 0x100 + rem) % 0x100 == rem
  {
  }

  lemma DivMod65536(q: int, rem: int)
    requires 0 <= rem < 0x1_0000
    ensures (q * 0x1_0000 + rem) / 0x1_0000 == q
  {
  }

  /** The three channels of a 32-bit value: (num >> 16), (num >> 8) & 0xFF and num & 0xFF. */
  function Red(x: int): int { x / 0x1_0000 }
  function Green(x: int): int { (x / 0x100) % 0x100 }
  function Blue(x: int): int { x % 0x100 }

  /** Number.prototype.toString(16) on a non-negative integer. */
  function ToHexString(n: nat): (s: seq<char>)
    ensures s != [] && AllHex(s) && IsLowerHex(s)
    ensures HexValue(s) == n
    decreases n
  {
    if n < 16 then [HexChar(n)]
    else
      var s := ToHexString(n / 16) + [HexChar(n % 16)];
      assert s[..|s| - 1] == ToHexString(n / 16);
      s
  }

  lemma {:induction false} ToHexStringLength(n: nat, k: nat)
    requires k >= 1 && n < Pow16(k)
    ensures |ToHexString(n)| <= k
    decreases n
  {
    if n >= 16 {
      ToHexStringLength(n / 16, k - 1);
    }
  }

  /** String.prototype.padStart(len, '0'). */
  function PadStart(s: seq<char>, len: nat): (t: seq<char>)
    ensures |s| >= len ==> t == s
    ensures |s| < len ==> t == seq(len - |s|, _ => '0') + s
  {
    if |s| >= len then s else seq(len - |s|, _ => '0') + s
  }

  /** Padding a lower-case hex string with zeros keeps its value and its digits. */
  lemma PadStartDigits(ds: seq<char>, len: nat)
    requires AllHex(ds) && IsLowerHex(ds) && |ds| <= len
    ensures |PadStart(ds, len)| == len
    ensures AllHex(PadStart(ds, len)) && IsLowerHex(PadStart(ds, len))
    ensures HexValue(PadStart(ds, len)) == HexValue(ds)
  {
    if |ds| < len {
      var zs: seq<char> := seq(len - |ds|, _ => '0');
      LeadingZeros(len - |ds|, ds);
      assert forall i :: 0 <= i < |zs + ds| ==> (zs + ds)[i] == if i < |zs| then '0' else ds[i - |zs|];
    }
  }

  lemma Pow16Six()
    ensures Pow16(6) == 0x100_0000
  {
    assert Pow16(2) == 0x100;
    assert Pow16(4) == 0x1_0000;
  }

  /** The colour written back: six lower-case hex digits for any 24-bit value. */
  function Hex6(n: nat): (s: seq<char>)
    requires n < 0x100_0000
    ensures |s| == 6 && AllHex(s) && IsLowerHex(s)
    ensures HexValue(s) == n
  {
    Pow16Six();
    ToHexStringLength(n, 6);
    PadStartDigits(ToHexString(n), 6);
    PadStart(ToHexString(n), 6)
  }

  /** The packed colour b | (g << 8) | (r << 16) for clamped channels. */
  function Pack(r: int, g: int, b: int): (n: nat)
    requires 0 <= r <= 255 && 0 <= g <= 255 && 0 <= b <= 255
    ensures n < 0x100_0000
    ensures Red(n) == r && Green(n) == g && Blue(n) == b
  {
    var n := r * 0x1_0000 + g * 0x100 + b;
    DivMod65536(r, g * 0x100 + b);
    assert n == (r * 0x100 + g) * 0x100 + b;
    DivMod256(r * 0x100 + g, b);
    DivMod256(r, g);
    n
  }

  /** A 24-bit value splits into three channels that pack back into it. */
  lemma Unpack(n: int)
    requires 0 <= n < 0x100_0000
    ensures 0 <= Red(n) <= 255 && 0 <= Green(n) <= 255 && 0 <= Blue(n) <= 255
    ensures Pack(Red(n), Green(n), Blue(n)) == n
  {
    var q := n / 0x100;
    assert n == q * 0x100 + Blue(n);
    assert q == (q / 0x100) * 0x100 + q % 0x100;
    assert n / 0x1_0000 == q / 0x100;
  }

  predicate HasPound(color: seq<char>)
  {
    |color| > 0 && color[0] == '#'
  }

  /** The text handed to parseInt: the colour without its leading '#'. */
  function HexPart(color: seq<char>): seq<char>
  {
    if HasPound(color) then color[1..] else color
  }

  /** A colour as three channel values. */
  datatype Rgb = Rgb(r: int, g: int, b: int)

  /** The channels the input colour starts from, after parseInt and the 32-bit conversion. */
  function Channels(color: seq<char>): Rgb
  {
    var x := ToInt32(ParseIntHex(HexPart(color)));
    Rgb(Red(x), Green(x), Blue(x))
  }

  /** Text with no digit for parseInt (NaN) starts from black. */
  lemma NaNStartsFromBlack(color: seq<char>)
    requires ParseIntHex(HexPart(color)).None?
    ensures Channels(color) == Rgb(0, 0, 0)
  {
    var x := ToInt32(ParseIntHex(HexPart(color)));
    assert x == 0;
    assert Red(x) == 0 && Green(x) == 0 && Blue(x) == 0;
  }

  /** Each channel moved by amount and clamped to [0, 255]. */
  function Adjusted(c: Rgb, amount: int): (a: Rgb)
    ensures 0 <= a.r <= 255 && 0 <= a.g <= 255 && 0 <= a.b <= 255
  {
    Rgb(Clamp(c.r + amount), Clamp(c.g + amount), Clamp(c.b + amount))
  }

  /** The packed channels as six hex digits, after a '#' when pound is set. */
  function Written(pound: bool, c: Rgb): seq<char>
    requires 0 <= c.r <= 255 && 0 <= c.g <= 255 && 0 <= c.b <= 255
  {
    (if pound then "#" else "") + Hex6(Pack(c.r, c.g, c.b))
  }

  /** adjustColor(color, amount). */
  function AdjustColor(color: seq<char>, amount: int): (out: seq<char>)
    ensures |out| == (if HasPound(color) then 7 else 6) && (HasPound(out) <==> HasPound(color))
    ensures var digits := if HasPound(color) then out[1..] else out;
            AllHex(digits) && IsLowerHex(digits) &&
            Rgb(Red(HexValue(digits)), Green(HexValue(digits)), Blue(HexValue(digits))) ==
            Adjusted(Channels(color), amount)
  {
    WrittenSpec(HasPound(color), Adjusted(Channels(color), amount));
    Written(HasPound(color), Adjusted(Channels(color), amount))
  }

  /** What Written produces: the '#' exactly when asked for, then six digits holding the channels. */
  lemma WrittenSpec(pound: bool, c: Rgb)
    requires 0 <= c.r <= 255 && 0 <= c.g <= 255 && 0 <= c.b <= 255
    ensures var out := Written(pound, c);
            var digits := if pound then out[1..] else out;
            |out| == (if pound then 7 else 6) &&
            (HasPound(out) <==> pound) &&
            |digits| == 6 && AllHex(digits) && IsLowerHex(digits) &&
            Red(HexValue(digits)) == c.r && Green(HexValue(digits)) == c.g && Blue(HexValue(digits)) == c.b
  {
    var hex := Hex6(Pack(c.r, c.g, c.b));
    var out := Written(pound, c);
    if pound {
      assert out[1..] == hex;
    } else {
      assert out == hex;
    }
  }

  /** Two lower-case hex strings of the same length and value are equal. */
  lemma {:induction false} LowerHexInjective(s: seq<char>, t: seq<char>)
    requires |s| == |t| && AllHex(s) && AllHex(t) && IsLowerHex(s) && IsLowerHex(t)
    requires HexValue(s) == HexValue(t)
    ensures s == t
  {
    if s != [] {
      var n := |s| - 1;
      DivMod16(HexValue(s[..n]), DigitValue(s[n]));
      DivMod16(HexValue(t[..n]), DigitValue(t[n]));
      LowerDigitInjective(s[n], t[n]);
      LowerHexInjective(s[..n], t[..n]);
      assert s == s[..n] + [s[n]];
      assert t == t[..n] + [t[n]];
    }
  }

  lemma LowerDigitInjective(c: char, d: char)
    requires IsHexDigit(c) && IsHexDigit(d)
    requires ('0' <= c <= '9' || 'a' <= c <= 'f') && ('0' <= d <= '9' || 'a' <= d <= 'f')
    requires DigitValue(c) == DigitValue(d)
    ensures c == d
  {
  }

  lemma {:induction false} LeadingHexDigitsAll(ds: seq<char>)
    requires AllHex(ds)
    ensures LeadingHexDigits(ds) == ds
  {
    if ds != [] {
      LeadingHexDigitsAll(ds[1..]);
    }
  }

  /** A string of hex digits has no leading space, sign or 0x prefix to skip. */
  lemma NothingToSkip(ds: seq<char>)
    requires ds != [] && AllHex(ds)
    ensures TrimStart(ds) == ds
    ensures AfterPrefix(AfterSign(ds)) == ds
  {
    assert IsHexDigit(ds[0]);
    assert !IsJsSpace(ds[0]);
    if |ds| >= 2 {
      assert IsHexDigit(ds[1]);
    }
  }

  /** A "#rrggbb" colour starts from the channels of its six digits. */
  lemma ChannelsOfSixDigits(ds: seq<char>)
    requires |ds| == 6 && AllHex(ds)
    ensures HexValue(ds) < 0x100_0000
    ensures Channels("#" + ds) == Rgb(Red(HexValue(ds)), Green(HexValue(ds)), Blue(HexValue(ds)))
  {
    var n := HexValue(ds);
    Pow16Six();
    HexValueBound(ds);
    assert HexPart("#" + ds) == ds;
    assert ToInt32(Some(n)) == n;
    assert ToInt32(ParseIntHex(HexPart("#" + ds))) == n;
  }

  /**
   * Adjusting a "#rrggbb" colour written in lower case by nothing gives it
   * back unchanged.
   */
  lemma AdjustByZeroIsIdentity(ds: seq<char>)
    requires |ds| == 6 && AllHex(ds) && IsLowerHex(ds)
    ensures AdjustColor("#" + ds, 0) == "#" + ds
  {
    var n := HexValue(ds);
    ChannelsOfSixDigits(ds);
    Unpack(n);
    var c := Channels("#" + ds);
    assert Adjusted(c, 0) == c;
    assert Pack(c.r, c.g, c.b) == n;
    LowerHexInjective(Hex6(n), ds);
    assert Written(true, c) == "#" + ds;
  }
}

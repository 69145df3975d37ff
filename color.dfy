/**
 * `_hexToRgb`: a lenient reader of the 3- and 6-digit hexadecimal colour
 * notation of CSS (section 5.2 of CSS Color Module Level 4). It drops the
 * first `#`, trims white space, doubles each digit of a 3-character body,
 * reads the body with `parseInt(c, 16)` and takes bits 16-23, 8-15 and 0-7
 * of the result as red, green and blue.
 */
module HexColor {
  import opened Js

  datatype Rgb = Rgb(r: int, g: int, b: int)

  /** ECMAScript WhiteSpace and LineTerminator code points, which `trim` removes. */
  predicate IsSpace(c: char)
  {
    c == '\t' || c == '\n' || c == '\U{B}' || c == '\U{C}' || c == '\r' || c == ' ' ||
    c == '\U{A0}' || c == '\U{1680}' || ('\U{2000}' <= c <= '\U{200A}') ||
    c == '\U{2028}' || c == '\U{2029}' || c == '\U{202F}' || c == '\U{205F}' ||
    c == '\U{3000}' || c == '\U{FEFF}'
  }

  function TrimStart(s: string): (t: string)
    ensures |t| <= |s| && t == s[|s| - |t|..]
    ensures t == [] || !IsSpace(t[0])
    ensures forall k :: 0 <= k < |s| - |t| ==> IsSpace(s[k])
  {
    if s != [] && IsSpace(s[0]) then TrimStart(s[1..]) else s
  }

  function TrimEnd(s: string): (t: string)
    ensures |t| <= |s| && t == s[..|t|]
    ensures t == [] || !IsSpace(t[|t| - 1])
    ensures forall k :: |t| <= k < |s| ==> IsSpace(s[k])
  {
    if s != [] && IsSpace(s[|s| - 1]) then TrimEnd(s[..|s| - 1]) else s
  }

  /** `String.prototype.trim`. */
  function Trim(s: string): string
  {
    TrimEnd(TrimStart(s))
  }

  /** `s.replace('#', '')`: only the first `#` goes. */
  function DropFirstHash(s: string): (t: string)
    ensures '#' !in s ==> t == s
    ensures '#' in s ==> |t| == |s| - 1
  {
    if s == [] then []
    else if s[0] == '#' then s[1..]
    else [s[0]] + DropFirstHash(s[1..])
  }

  /** `s.indexOf('#')` for a string that has one. */
  function FirstHash(s: string): (i: nat)
    requires '#' in s
    ensures i < |s| && s[i] == '#'
    ensures forall k :: 0 <= k < i ==> s[k] != '#'
  {
    if s[0] == '#' then 0 else 1 + FirstHash(s[1..])
  }

  /** The `#` removed is the first one: the text around it is kept, in order. */
  lemma {:induction false} DropsFirstHash(s: string)
    requires '#' in s
    ensures DropFirstHash(s) == s[..FirstHash(s)] + s[FirstHash(s) + 1..]
  {
    if s[0] != '#' {
      assert '#' in s[1..] by {
        var k :| 0 <= k < |s| && s[k] == '#';
        assert s[1..][k - 1] == '#';
      }
      DropsFirstHash(s[1..]);
      var i := FirstHash(s[1..]);
      assert s[..i + 1] == [s[0]] + s[1..][..i];
      assert s[i + 2..] == s[1..][i + 1..];
    }
  }

  /** `c.split('').map(h => h + h).join('')` on a 3-character body. */
  function Doubled(c: string): (d: string)
    requires |c| == 3
    ensures |d| == 6
    ensures forall k :: 0 <= k < 3 ==> d[2 * k] == c[k] && d[2 * k + 1] == c[k]
  {
    [c[0], c[0], c[1], c[1], c[2], c[2]]
  }

  function DigitValue(c: char): (v: Option<nat>)
    ensures v.Some? ==> v.value < 16
  {
    if '0' <= c <= '9' then Some(c as nat - '0' as nat)
    else if 'a' <= c <= 'f' then Some(c as nat - 'a' as nat + 10)
    else if 'A' <= c <= 'F' then Some(c as nat - 'A' as nat + 10)
    else None
  }

  predicate IsDigit(c: char)
  {
    DigitValue(c).Some?
  }

  predicate AllDigits(s: string)
  {
    forall k :: 0 <= k < |s| ==> IsDigit(s[k])
  }

  /** The length of the longest prefix of hexadecimal digits. */
  function DigitRun(s: string): (n: nat)
    ensures n <= |s| && AllDigits(s[..n])
    ensures n < |s| ==> !IsDigit(s[n])
  {
    if s != [] && IsDigit(s[0]) then
      var n := 1 + DigitRun(s[1..]);
      assert forall k :: 1 <= k < n ==> s[..n][k] == s[1..][..n - 1][k - 1];
      n
    else 0
  }

  /** The number a string of hexadecimal digits denotes, most significant first. */
  function DigitsValue(s: string): (v: nat)
    requires AllDigits(s)
  {
    if s == [] then 0
    else DigitsValue(s[..|s| - 1]) * 16 + DigitValue(s[|s| - 1]).value
  }

  /**
   * `parseInt(s, 16)`: skips leading white space, reads an optional sign and
   * an optional `0x`/`0X`, then the longest run of hexadecimal digits. No
   * digit at all gives NaN, here `None`.
   */
  function ParseHex(s: string): (r: Option<int>)
  {
    var t := TrimStart(s);
    var negative := t != [] && t[0] == '-';
    var u := if t != [] && (t[0] == '-' || t[0] == '+') then t[1..] else t;
    var w := if |u| >= 2 && u[0] == '0' && (u[1] == 'x' || u[1] == 'X') then u[2..] else u;
    var n := DigitRun(w);
    if n == 0 then None
    else
      var m: int := DigitsValue(w[..n]);
      Some(if negative then -m else m)
  }

  /** The channels `(num >> 16) & 255`, `(num >> 8) & 255` and `num & 255` of an integer. */
  function Channels(num: int): (c: Rgb)
    ensures 0 <= c.r < 256 && 0 <= c.g < 256 && 0 <= c.b < 256
  {
    Rgb((num / 65536) % 256, (num / 256) % 256, num % 256)
  }

  /** The string `parseInt` is given: first `#` dropped, trimmed, a 3-character body doubled. */
  function Body(h: string): (body: string)
  {
    var c := Trim(DropFirstHash(h));
    if |c| == 3 then Doubled(c) else c
  }

  function HexToRgb(hex: Option<string>): (c: Option<Rgb>)
    ensures hex == None || hex == Some("") ==> c == None
    ensures c.Some? ==> 0 <= c.value.r < 256 && 0 <= c.value.g < 256 && 0 <= c.value.b < 256
    ensures hex.Some? && hex.value != "" ==> (c.None? <==> ParseHex(Body(hex.value)).None?)
    ensures c.Some? ==> c.value == Channels(ParseHex(Body(hex.value)).value)
  {
    if hex.None? || hex.value == "" then None
    else ParsedChannels(ParseHex(Body(hex.value)))
  }

  /** `null` for NaN, otherwise the channels of the parsed number. */
  function ParsedChannels(parsed: Option<int>): (c: Option<Rgb>)
    ensures c.None? <==> parsed.None?
    ensures c.Some? ==> c.value == Channels(parsed.value)
  {
    match parsed
    case None => None
    case Some(num) => Some(Channels(num))
  }

  /** The lower-case hexadecimal digit of `d`. */
  function HexChar(d: nat): (c: char)
    requires d < 16
    ensures DigitValue(c) == Some(d)
  {
    if d < 10 then ('0' as int + d) as char else ('a' as int + d - 10) as char
  }

  /** The two lower-case hexadecimal digits of a byte: the inverse direction. */
  function HexByte(v: nat): (s: string)
    requires v < 256
    ensures |s| == 2 && AllDigits(s)
  {
    [HexChar(v / 16), HexChar(v % 16)]
  }

  /** `rrggbb`. */
  function HexDigits(c: Rgb): (s: string)
    requires 0 <= c.r < 256 && 0 <= c.g < 256 && 0 <= c.b < 256
    ensures |s| == 6
  {
    HexByte(c.r) + HexByte(c.g) + HexByte(c.b)
  }

  /** `#rrggbb`. */
  function FormatHex(c: Rgb): string
    requires 0 <= c.r < 256 && 0 <= c.g < 256 && 0 <= c.b < 256
  {
    "#" + HexDigits(c)
  }

  function Pow16(n: nat): nat
  {
    if n == 0 then 1 else 16 * Pow16(n - 1)
  }

  lemma TwoDigits(x: char, y: char)
    requires IsDigit(x) && IsDigit(y)
    ensures DigitsValue([x, y]) == 16 * DigitValue(x).value + DigitValue(y).value
  {
    var s := [x, y];
    assert s[..1] == [x];
    assert [x][..0] == [];
    assert DigitsValue([x]) == DigitsValue([]) * 16 + DigitValue(x).value;
    assert DigitsValue(s) == DigitsValue(s[..1]) * 16 + DigitValue(y).value;
  }

  lemma HexByteValue(v: nat)
    requires v < 256
    ensures DigitsValue(HexByte(v)) == v
  {
    TwoDigits(HexChar(v / 16), HexChar(v % 16));
  }

  lemma {:induction false} DigitsValueAppend(s: string, t: string)
    requires AllDigits(s) && AllDigits(t)
    ensures AllDigits(s + t)
    ensures DigitsValue(s + t) == DigitsValue(s) * Pow16(|t|) + DigitsValue(t)
    decreases |t|
  {
    var u := s + t;
    if t == [] {
      assert u == s;
    } else {
      var t' := t[..|t| - 1];
      assert u[..|u| - 1] == s + t';
      DigitsValueAppend(s, t');
      assert u[|u| - 1] == t[|t| - 1];
      assert t[..|t| - 1] == t';
      Regroup(DigitsValue(s), Pow16(|t'|), DigitsValue(t'), DigitValue(t[|t| - 1]).value);
    }
  }

  lemma Regroup(a: int, p: int, b: int, d: int)
    ensures (a * p + b) * 16 + d == a * (16 * p) + (b * 16 + d)
  {
  }

  /** Six digits in three pairs: the pairs weigh 65536, 256 and 1. */
  lemma SixDigits(a: string, b: string, c: string)
    requires |a| == 2 && |b| == 2 && |c| == 2 && AllDigits(a) && AllDigits(b) && AllDigits(c)
    ensures AllDigits(a + b + c)
    ensures DigitsValue(a + b + c) == DigitsValue(a) * 65536 + DigitsValue(b) * 256 + DigitsValue(c)
  {
    assert Pow16(2) == 256 by { assert Pow16(1) == 16; }
    DigitsValueAppend(a, b);
    DigitsValueAppend(a + b, c);
    var x, y, z := DigitsValue(a), DigitsValue(b), DigitsValue(c);
    assert DigitsValue(a + b) == x * 256 + y;
    assert DigitsValue(a + b + c) == (x * 256 + y) * 256 + z;
    ShiftPair(x, y, z);
  }

  lemma ShiftPair(x: int, y: int, z: int)
    ensures (x * 256 + y) * 256 + z == x * 65536 + y * 256 + z
  {
  }

  /** The integer `0xRRGGBB` whose channels are those of `c`. */
  function Pack(c: Rgb): int
  {
    c.r * 65536 + c.g * 256 + c.b
  }

  /** Channels undoes Pack. */
  lemma ChannelsOf(c: Rgb)
    requires 0 <= c.r < 256 && 0 <= c.g < 256 && 0 <= c.b < 256
    ensures Channels(Pack(c)) == c
  {
    var r, g, b := c.r, c.g, c.b;
    var num := Pack(c);
    assert num / 65536 == r;
    assert num / 256 == r * 256 + g;
    assert (r * 256 + g) % 256 == g;
  }

  lemma TrimDigits(s: string)
    requires AllDigits(s)
    ensures Trim(s) == s
  {
    assert s == [] || !IsSpace(s[0]);
    assert TrimStart(s) == s;
    assert s == [] || !IsSpace(s[|s| - 1]);
  }

  lemma ParseDigits(s: string)
    requires s != [] && AllDigits(s)
    ensures ParseHex(s) == Some(DigitsValue(s))
  {
    assert !IsSpace(s[0]) && s[0] != '-' && s[0] != '+';
    assert TrimStart(s) == s;
    assert |s| >= 2 ==> s[1] != 'x' && s[1] != 'X';
    var n := DigitRun(s);
    assert n == |s|;
    assert s[..n] == s;
  }

  /** After one `#`, a run of digits is the body itself, doubled when it has three. */
  lemma HashThenDigits(d: string)
    requires AllDigits(d)
    ensures Body("#" + d) == if |d| == 3 then Doubled(d) else d
  {
    assert DropFirstHash("#" + d) == d;
    TrimDigits(d);
  }

  /** `#` and a run of digits other than three reads as the channels of the number the run denotes. */
  lemma ReadsDigits(body: string, n: int)
    requires body != [] && |body| != 3 && AllDigits(body) && DigitsValue(body) == n
    ensures HexToRgb(Some("#" + body)) == Some(Channels(n))
  {
    HashThenDigits(body);
    ParseDigits(body);
  }

  /** `#` and three digits reads as the channels of the number the doubled digits denote. */
  lemma ReadsThreeDigits(x: char, y: char, z: char, n: int)
    requires IsDigit(x) && IsDigit(y) && IsDigit(z)
    requires AllDigits([x, x] + [y, y] + [z, z]) && DigitsValue([x, x] + [y, y] + [z, z]) == n
    ensures HexToRgb(Some(['#', x, y, z])) == Some(Channels(n))
  {
    var body := [x, y, z];
    assert ['#', x, y, z] == "#" + body;
    HashThenDigits(body);
    var d := [x, x] + [y, y] + [z, z];
    assert Doubled(body) == d;
    assert AllDigits(d);
    ParseDigits(d);
  }

  lemma FormatValue(c: Rgb)
    requires 0 <= c.r < 256 && 0 <= c.g < 256 && 0 <= c.b < 256
    ensures AllDigits(HexDigits(c))
    ensures DigitsValue(HexDigits(c)) == Pack(c)
  {
    SixDigits(HexByte(c.r), HexByte(c.g), HexByte(c.b));
    HexByteValue(c.r);
    HexByteValue(c.g);
    HexByteValue(c.b);
  }

  lemma FormatReads(c: Rgb)
    requires 0 <= c.r < 256 && 0 <= c.g < 256 && 0 <= c.b < 256
    ensures HexToRgb(Some(FormatHex(c))) == Some(Channels(Pack(c)))
  {
    FormatValue(c);
    ReadsDigits(HexDigits(c), Pack(c));
  }

  /** Reading back the `#rrggbb` form of a colour gives the colour. */
  lemma RoundTrip(c: Rgb)
    requires 0 <= c.r < 256 && 0 <= c.g < 256 && 0 <= c.b < 256
    ensures HexToRgb(Some(FormatHex(c))) == Some(c)
  {
    FormatReads(c);
    ChannelsOf(c);
  }

  function ShortColor(x: char, y: char, z: char): Rgb
    requires IsDigit(x) && IsDigit(y) && IsDigit(z)
  {
    Rgb(17 * DigitValue(x).value, 17 * DigitValue(y).value, 17 * DigitValue(z).value)
  }

  lemma ShortValue(x: char, y: char, z: char)
    requires IsDigit(x) && IsDigit(y) && IsDigit(z)
    ensures AllDigits([x, x] + [y, y] + [z, z])
    ensures DigitsValue([x, x] + [y, y] + [z, z]) == Pack(ShortColor(x, y, z))
  {
    TwoDigits(x, x);
    TwoDigits(y, y);
    TwoDigits(z, z);
    SixDigits([x, x], [y, y], [z, z]);
  }

  lemma ShortReads(x: char, y: char, z: char)
    requires IsDigit(x) && IsDigit(y) && IsDigit(z)
    ensures HexToRgb(Some(['#', x, y, z])) == Some(Channels(Pack(ShortColor(x, y, z))))
  {
    ShortValue(x, y, z);
    ReadsThreeDigits(x, y, z, Pack(ShortColor(x, y, z)));
  }

  /** A 3-digit body `#abc` reads as `#aabbcc`: each channel is 17 times its digit. */
  lemma ShortForm(x: char, y: char, z: char)
    requires IsDigit(x) && IsDigit(y) && IsDigit(z)
    ensures HexToRgb(Some(['#', x, y, z])) ==
            Some(Rgb(17 * DigitValue(x).value, 17 * DigitValue(y).value, 17 * DigitValue(z).value))
  {
    ShortReads(x, y, z);
    ChannelsOf(ShortColor(x, y, z));
  }

  /** A body that starts with a character `parseInt` cannot read yields NaN. */
  lemma ParseRejects(s: string)
    requires s != [] && !IsSpace(s[0]) && !IsDigit(s[0]) && s[0] != '-' && s[0] != '+'
    ensures ParseHex(s) == None
  {
    assert TrimStart(s) == s;
    assert DigitRun(s) == 0;
  }

  /** Only the first `#` is dropped: a second one leaves a body `parseInt` cannot read. */
  lemma SecondHashRejected(s: string)
    ensures HexToRgb(Some("##" + s)) == None
  {
    var h := "##" + s;
    assert DropFirstHash(h) == "#" + s;
    assert !IsSpace('#');
    var c := Trim("#" + s);
    assert TrimStart("#" + s) == "#" + s;
    assert c != [] && c[0] == '#';
    assert Body(h)[0] == '#';
    ParseRejects(Body(h));
  }
}

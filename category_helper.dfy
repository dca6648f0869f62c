/**
 * The category tables (SF Symbol name and colour per category) and the
 * integer part of `Color(hex:)`: trim the string, scan its leading hex
 * digits, and split the value into alpha, red, green and blue according to
 * the trimmed length (3, 6 or 8 characters).
 */
module CategoryHelper {

  /** The categories the add form offers. */
  const KnownCategories: seq<string> := ["Food", "Transport", "Shopping", "Bills", "Entertainment", "Health", "Other"]

  const DefaultIcon := "tag.fill"

  /** `CategoryHelper.icon(for:)`. */
  function Icon(category: string): (icon: string)
    ensures category !in KnownCategories <==> icon == DefaultIcon
  {
    match category
    case "Food" => "fork.knife"
    case "Transport" => "car.fill"
    case "Shopping" => "bag.fill"
    case "Bills" => "doc.text.fill"
    case "Entertainment" => "tv.fill"
    case "Health" => "heart.fill"
    case "Other" => "ellipsis.circle.fill"
    case _ => DefaultIcon
  }

  /** The seven known categories have seven different symbols. */
  lemma IconsDistinct(c: string, d: string)
    requires c in KnownCategories && d in KnownCategories && c != d
    ensures Icon(c) != Icon(d)
  {
  }

  /** The colour of "Other", which every unknown category shares. */
  const OtherHex := "94a3b8"

  /** The hex string `CategoryHelper.color(for:)` hands to `Color(hex:)`. */
  function ColorHex(category: string): (hex: string)
    ensures |hex| == 6 && AllHexDigits(hex)
    ensures category !in KnownCategories || category == "Other" ==> hex == OtherHex
  {
    match category
    case "Food" => "ff6b6b"
    case "Transport" => "4ecdc4"
    case "Shopping" => "ff6bcb"
    case "Bills" => "ffa500"
    case "Entertainment" => "a78bfa"
    case "Health" => "51cf66"
    case "Other" => OtherHex
    case _ => OtherHex
  }

  /** The colour of a category: `Color(hex: ColorHex(category))`, as integer components. */
  function CategoryColor(category: string): (c: Argb)
    ensures c.a == 255 && c.r <= 255 && c.g <= 255 && c.b <= 255
    ensures c == Argb(255, HexByte(ColorHex(category), 0), HexByte(ColorHex(category), 2), HexByte(ColorHex(category), 4))
  {
    var hex := ColorHex(category);
    TrimAlphanumeric(hex);
    Decode6Bytes(hex);
    DecodeHex(hex)
  }

  // ---------------------------------------------------------------------
  // Characters

  /** Membership in `CharacterSet.alphanumerics`, restricted to ASCII. */
  predicate IsAlphanumeric(c: char) {
    ('0' <= c <= '9') || ('a' <= c <= 'z') || ('A' <= c <= 'Z')
  }

  predicate IsHexDigit(c: char) {
    ('0' <= c <= '9') || ('a' <= c <= 'f') || ('A' <= c <= 'F')
  }

  predicate AllHexDigits(s: string) {
    forall i :: 0 <= i < |s| ==> IsHexDigit(s[i])
  }

  function HexDigitValue(c: char): (d: nat)
    requires IsHexDigit(c)
    ensures d < 16
  {
    if '0' <= c <= '9' then c as int - '0' as int
    else if 'a' <= c <= 'f' then c as int - 'a' as int + 10
    else c as int - 'A' as int + 10
  }

  // ---------------------------------------------------------------------
  // Trimming

  /** Number of non-alphanumeric characters at the start of `s`. */
  function LeadingJunk(s: string): (n: nat)
    ensures n <= |s|
    ensures forall k :: 0 <= k < n ==> !IsAlphanumeric(s[k])
    ensures n < |s| ==> IsAlphanumeric(s[n])
  {
    if s == [] || IsAlphanumeric(s[0]) then 0 else 1 + LeadingJunk(s[1..])
  }

  /** Number of non-alphanumeric characters at the end of `s`. */
  function TrailingJunk(s: string): (n: nat)
    ensures n <= |s|
    ensures forall k :: |s| - n <= k < |s| ==> !IsAlphanumeric(s[k])
    ensures n < |s| ==> IsAlphanumeric(s[|s| - n - 1])
  {
    if s == [] || IsAlphanumeric(s[|s| - 1]) then 0 else 1 + TrailingJunk(s[..|s| - 1])
  }

  /**
   * `trimmingCharacters(in: CharacterSet.alphanumerics.inverted)`: the
   * result is the part of `s` left after dropping non-alphanumerics at both
   * ends, and it starts and ends with an alphanumeric unless it is empty.
   */
  function Trim(s: string): (t: string)
    ensures LeadingJunk(s) + |t| <= |s|
    ensures t == s[LeadingJunk(s)..LeadingJunk(s) + |t|]
    ensures forall k :: LeadingJunk(s) + |t| <= k < |s| ==> !IsAlphanumeric(s[k])
    ensures t != [] ==> IsAlphanumeric(t[0]) && IsAlphanumeric(t[|t| - 1])
  {
    var rest := s[LeadingJunk(s)..];
    rest[..|rest| - TrailingJunk(rest)]
  }

  /** A string without surrounding junk is left as it is. */
  lemma TrimAlphanumeric(s: string)
    requires s == [] || (IsAlphanumeric(s[0]) && IsAlphanumeric(s[|s| - 1]))
    ensures Trim(s) == s
  {
  }

  // ---------------------------------------------------------------------
  // Scanning hex digits

  function Pow16(n: nat): nat {
    if n == 0 then 1 else 16 * Pow16(n - 1)
  }

  /** Positional value of a string of hex digits, most significant first. */
  function HexValue(s: string): (v: nat)
    requires AllHexDigits(s)
    ensures v < Pow16(|s|)
  {
    if s == [] then 0 else HexValue(s[..|s| - 1]) * 16 + HexDigitValue(s[|s| - 1])
  }

  /** Length of the longest prefix of `s` made of hex digits. */
  function HexPrefixLength(s: string): (n: nat)
    ensures n <= |s| && AllHexDigits(s[..n])
    ensures n < |s| ==> !IsHexDigit(s[n])
  {
    if s == [] || !IsHexDigit(s[0]) then 0
    else
      var n := 1 + HexPrefixLength(s[1..]);
      assert s[..n] == [s[0]] + s[1..][..n - 1];
      n
  }

  lemma {:induction false} HexPrefixAll(s: string)
    requires AllHexDigits(s)
    ensures HexPrefixLength(s) == |s|
  {
    if s != [] {
      HexPrefixAll(s[1..]);
    }
  }

  /** `Scanner(string: s).scanHexInt64(&int)` starting from `int = 0`. */
  function ScanHex(s: string): (v: nat)
    ensures v < Pow16(|s|)
  {
    var n := HexPrefixLength(s);
    PowMonotone(n, |s|);
    HexValue(s[..n])
  }

  lemma {:induction false} PowMonotone(m: nat, n: nat)
    requires m <= n
    ensures Pow16(m) <= Pow16(n)
  {
    if m < n {
      PowMonotone(m, n - 1);
    }
  }

  // ---------------------------------------------------------------------
  // Decoding

  datatype Argb = Argb(a: nat, r: nat, g: nat, b: nat)

  /**
   * `Color.init(hex:)` up to the division by 255: `>> k` is division by
   * 2^k and `& 0xF`, `& 0xFF` are remainders by 16 and 256 (the scanned value
   * is never negative).
   */
  function DecodeHex(hex: string): Argb {
    var h := Trim(hex);
    var v := ScanHex(h);
    match |h|
    case 3 => Argb(255, (v / 256) * 17, (v / 16 % 16) * 17, (v % 16) * 17)
    case 6 => Argb(255, v / 65536, v / 256 % 256, v % 256)
    case 8 => Argb(v / 16777216, v / 65536 % 256, v / 256 % 256, v % 256)
    case _ => Argb(1, 1, 1, 0)
  }

  /** Short form "rgb": opaque, each component a nibble times 17, so a multiple of 17 within a byte. */
  lemma Decode3Range(hex: string)
    requires |Trim(hex)| == 3
    ensures var c := DecodeHex(hex);
      c.a == 255 && c.r <= 255 && c.g <= 255 && c.b <= 255 && c.r % 17 == 0 && c.g % 17 == 0 && c.b % 17 == 0
  {
    var v := ScanHex(Trim(hex));
    assert Pow16(3) == 4096;
    assert DecodeHex(hex) == Argb(255, (v / 256) * 17, (v / 16 % 16) * 17, (v % 16) * 17);
    Nibble17(v / 256);
    Nibble17(v / 16 % 16);
    Nibble17(v % 16);
  }

  lemma Nibble17(n: nat)
    requires n < 16
    ensures n * 17 <= 255 && (n * 17) % 17 == 0
  {
  }

  /** Form "rrggbb": opaque, each component within a byte, whatever the characters are. */
  lemma Decode6Range(hex: string)
    requires |Trim(hex)| == 6
    ensures var c := DecodeHex(hex); c.a == 255 && c.r <= 255 && c.g <= 255 && c.b <= 255
  {
    assert Pow16(6) == 16777216;
  }

  /** Form "aarrggbb": every component within a byte. */
  lemma Decode8Range(hex: string)
    requires |Trim(hex)| == 8
    ensures var c := DecodeHex(hex); c.a <= 255 && c.r <= 255 && c.g <= 255 && c.b <= 255
  {
    assert Pow16(8) == 4294967296;
  }

  /** Any other trimmed length gives the fallback components (1, 1, 1, 0). */
  lemma DecodeOtherLength(hex: string)
    requires |Trim(hex)| != 3 && |Trim(hex)| != 6 && |Trim(hex)| != 8
    ensures DecodeHex(hex) == Argb(1, 1, 1, 0)
  {
  }

  lemma ByteSplit(x: nat, y: nat, z: nat)
    requires x < 256 && y < 256 && z < 256
    ensures (x * 65536 + y * 256 + z) / 65536 == x
    ensures (x * 65536 + y * 256 + z) / 256 % 256 == y
    ensures (x * 65536 + y * 256 + z) % 256 == z
  {
  }

  /** Value of the two hex digits at `s[i]`, `s[i + 1]`. */
  function HexByte(s: string, i: nat): (v: nat)
    requires i + 2 <= |s| && AllHexDigits(s)
    ensures v < 256
  {
    HexDigitValue(s[i]) * 16 + HexDigitValue(s[i + 1])
  }

  /** A six-digit colour "rrggbb" decodes to opaque red, green, blue from its three digit pairs. */
  lemma {:induction false} Decode6Bytes(s: string)
    requires |s| == 6 && AllHexDigits(s) && Trim(s) == s
    ensures DecodeHex(s) == Argb(255, HexByte(s, 0), HexByte(s, 2), HexByte(s, 4))
  {
    var v := ScanHex(s);
    ScanAll(s);
    HexValue6(s);
    ByteSplit(HexByte(s, 0), HexByte(s, 2), HexByte(s, 4));
    assert DecodeHex(s) == Argb(255, v / 65536, v / 256 % 256, v % 256);
  }

  /** Reading two more hex digits shifts the value by a byte. */
  lemma PrefixPair(s: string, k: nat)
    requires AllHexDigits(s) && k + 2 <= |s|
    ensures HexValue(s[..k + 2]) == HexValue(s[..k]) * 256 + HexByte(s, k)
  {
    assert s[..k + 2][..k + 1] == s[..k + 1];
    assert s[..k + 1][..k] == s[..k];
  }

  lemma HexValue6(s: string)
    requires |s| == 6 && AllHexDigits(s)
    ensures HexValue(s) == HexByte(s, 0) * 65536 + HexByte(s, 2) * 256 + HexByte(s, 4)
  {
    PrefixPair(s, 0);
    PrefixPair(s, 2);
    PrefixPair(s, 4);
    assert s[..0] == [] && s[..6] == s;
  }

  lemma ByteSplit4(w: nat, x: nat, y: nat, z: nat)
    requires w < 256 && x < 256 && y < 256 && z < 256
    ensures (w * 16777216 + x * 65536 + y * 256 + z) / 16777216 == w
    ensures (w * 16777216 + x * 65536 + y * 256 + z) / 65536 % 256 == x
    ensures (w * 16777216 + x * 65536 + y * 256 + z) / 256 % 256 == y
    ensures (w * 16777216 + x * 65536 + y * 256 + z) % 256 == z
  {
    Split16777216(w, x * 65536 + y * 256 + z);
    Split65536(w * 256 + x, y * 256 + z);
    Split256(w, x);
    Split256(w * 65536 + x * 256 + y, z);
    Split256(w * 256 + x, y);
  }

  lemma Split256(hi: nat, lo: nat)
    requires lo < 256
    ensures (hi * 256 + lo) / 256 == hi && (hi * 256 + lo) % 256 == lo
  {
  }

  lemma Split65536(hi: nat, lo: nat)
    requires lo < 65536
    ensures (hi * 65536 + lo) / 65536 == hi
  {
  }

  lemma Split16777216(hi: nat, lo: nat)
    requires lo < 16777216
    ensures (hi * 16777216 + lo) / 16777216 == hi
  {
  }

  lemma NibbleSplit(x: nat, y: nat, z: nat)
    requires x < 16 && y < 16 && z < 16
    ensures (x * 256 + y * 16 + z) / 256 == x
    ensures (x * 256 + y * 16 + z) / 16 % 16 == y
    ensures (x * 256 + y * 16 + z) % 16 == z
  {
  }

  lemma ScanAll(s: string)
    requires AllHexDigits(s)
    ensures ScanHex(s) == HexValue(s)
  {
    HexPrefixAll(s);
    assert s[..|s|] == s;
  }

  lemma HexValue8(s: string)
    requires |s| == 8 && AllHexDigits(s)
    ensures HexValue(s) == HexByte(s, 0) * 16777216 + HexByte(s, 2) * 65536 + HexByte(s, 4) * 256 + HexByte(s, 6)
  {
    PrefixPair(s, 0);
    PrefixPair(s, 2);
    PrefixPair(s, 4);
    PrefixPair(s, 6);
    assert s[..0] == [] && s[..8] == s;
  }

  /** An eight-digit colour "aarrggbb" decodes to alpha from its first digit pair, then red, green, blue. */
  lemma {:induction false} Decode8Bytes(s: string)
    requires |s| == 8 && AllHexDigits(s) && Trim(s) == s
    ensures DecodeHex(s) == Argb(HexByte(s, 0), HexByte(s, 2), HexByte(s, 4), HexByte(s, 6))
  {
    var v := ScanHex(s);
    ScanAll(s);
    HexValue8(s);
    ByteSplit4(HexByte(s, 0), HexByte(s, 2), HexByte(s, 4), HexByte(s, 6));
    assert DecodeHex(s) == Argb(v / 16777216, v / 65536 % 256, v / 256 % 256, v % 256);
  }

  /** A three-digit colour "rgb" decodes to opaque components, each its digit times 17. */
  lemma {:induction false} Decode3Digits(s: string)
    requires |s| == 3 && AllHexDigits(s) && Trim(s) == s
    ensures DecodeHex(s) == Argb(255, HexDigitValue(s[0]) * 17, HexDigitValue(s[1]) * 17, HexDigitValue(s[2]) * 17)
  {
    ScanAll(s);
    var s2 := s[..2];
    var s1 := s2[..1];
    assert s1[..0] == [];
    assert HexValue(s1) == HexDigitValue(s[0]);
    assert HexValue(s2) == HexValue(s1) * 16 + HexDigitValue(s[1]);
    var v := HexValue(s);
    assert v == HexDigitValue(s[0]) * 256 + HexDigitValue(s[1]) * 16 + HexDigitValue(s[2]);
    NibbleSplit(HexDigitValue(s[0]), HexDigitValue(s[1]), HexDigitValue(s[2]));
    assert DecodeHex(s) == Argb(255, (v / 256) * 17, (v / 16 % 16) * 17, (v % 16) * 17);
  }

  predicate AllJunk(s: string) {
    forall i :: 0 <= i < |s| ==> !IsAlphanumeric(s[i])
  }

  lemma {:induction false} LeadingJunkPrefix(p: string, s: string)
    requires AllJunk(p) && s != [] && IsAlphanumeric(s[0])
    ensures LeadingJunk(p + s) == |p|
  {
    if p != [] {
      assert (p + s)[1..] == p[1..] + s;
      LeadingJunkPrefix(p[1..], s);
    }
  }

  lemma {:induction false} TrailingJunkSuffix(s: string, q: string)
    requires AllJunk(q) && s != [] && IsAlphanumeric(s[|s| - 1])
    ensures TrailingJunk(s + q) == |q|
  {
    if q != [] {
      assert (s + q)[..|s + q| - 1] == s + q[..|q| - 1];
      TrailingJunkSuffix(s, q[..|q| - 1]);
    }
  }

  /**
   * Trimming strips only non-alphanumerics at the two ends: "#ff6b6b" and
   * "ff6b6b" are the same colour.
   */
  lemma DecodeIgnoresJunk(p: string, s: string, q: string)
    requires AllJunk(p) && AllJunk(q)
    requires s != [] && IsAlphanumeric(s[0]) && IsAlphanumeric(s[|s| - 1])
    ensures Trim(p + s + q) == s
    ensures DecodeHex(p + s + q) == DecodeHex(s)
  {
    TrimJunk(p, s, q);
    TrimAlphanumeric(s);
  }

  lemma TrimJunk(p: string, s: string, q: string)
    requires AllJunk(p) && AllJunk(q)
    requires s != [] && IsAlphanumeric(s[0]) && IsAlphanumeric(s[|s| - 1])
    ensures Trim(p + s + q) == s
  {
    LeadingJunkPrefix(p, s + q);
    assert p + s + q == p + (s + q);
    var rest := (p + s + q)[|p|..];
    assert rest == s + q;
    TrailingJunkSuffix(s, q);
    assert rest[..|rest| - |q|] == s;
  }

  /** A leading '#' is dropped before decoding: "#ff6b6b" decodes like "ff6b6b". */
  lemma HashPrefixIgnored(s: string)
    requires s != [] && IsAlphanumeric(s[0]) && IsAlphanumeric(s[|s| - 1])
    ensures DecodeHex("#" + s) == DecodeHex(s)
  {
    DecodeIgnoresJunk("#", s, "");
    assert "#" + s + "" == "#" + s;
  }
}

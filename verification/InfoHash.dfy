/**
 Info hashes of magnet links: 20 bytes, spelled as 40 hexadecimal digits or as 32
 base32 characters (internal/api/router.go, normalizeBTIH).
 */
module InfoHash {
  import opened Wrappers
  import opened Text

  type byte = b: int | 0 <= b < 256

  // Hexadecimal, section 8 of RFC 4648.

  function HexDigit(n: nat): char
    requires n < 16
  { if n < 10 then ('0' as int + n) as char else ('a' as int + n - 10) as char }

  /** The value of a lower-case hexadecimal digit. */
  function HexValue(c: char): Option<nat>
  {
    if '0' <= c <= '9' then Some(c as int - '0' as int)
    else if 'a' <= c <= 'f' then Some(c as int - 'a' as int + 10)
    else None
  }

  function HexEncode(bytes: seq<byte>): (s: string)
    ensures |s| == 2 * |bytes|
  {
    if bytes == [] then ""
    else [HexDigit(bytes[0] / 16), HexDigit(bytes[0] % 16)] + HexEncode(bytes[1..])
  }

  /** Decodes lower-case digits; None on any other character. */
  function HexDecode(s: string): (r: Option<seq<byte>>)
    requires |s| % 2 == 0
    ensures r.Some? ==> 2 * |r.value| == |s|
  {
    if s == "" then Some([])
    else
      var hi, lo, rest := HexValue(s[0]), HexValue(s[1]), HexDecode(s[2..]);
      if hi.None? || lo.None? || rest.None? then None
      else Some([16 * hi.value + lo.value] + rest.value)
  }

  // Base32 without padding, section 6 of RFC 4648.

  const ALPHABET: string := "ABCDEFGHIJKLMNOPQRSTUVWXYZ234567"

  function Base32Char(n: nat): char
    requires n < 32
  { if n < 26 then ('A' as int + n) as char else ('2' as int + n - 26) as char }

  function Base32Value(c: char): (r: Option<nat>)
    ensures r.Some? ==> r.value < 32 && ALPHABET[r.value] == c
  {
    if 'A' <= c <= 'Z' then Some(c as int - 'A' as int)
    else if '2' <= c <= '7' then Some(c as int - '2' as int + 26)
    else None
  }

  /** Five bytes as eight values of five bits, most significant first. */
  function BitFields(b: seq<byte>): (d: seq<nat>)
    requires |b| == 5
    ensures |d| == 8 && forall i | 0 <= i < 8 :: d[i] < 32
  {
    [b[0] / 8, b[0] % 8 * 4 + b[1] / 64, b[1] / 2 % 32, b[1] % 2 * 16 + b[2] / 16,
     b[2] % 16 * 2 + b[3] / 128, b[3] / 4 % 32, b[3] % 4 * 8 + b[4] / 32, b[4] % 32]
  }

  function EncodeGroup(b: seq<byte>): (s: string)
    requires |b| == 5
    ensures |s| == 8
  {
    var d := BitFields(b);
    seq(8, i requires 0 <= i < 8 => Base32Char(d[i]))
  }

  /** Packs eight 5-bit values into five bytes. */
  function PackGroup(d: seq<nat>): (b: seq<byte>)
    requires |d| == 8 && forall i | 0 <= i < 8 :: d[i] < 32
    ensures |b| == 5
  {
    [d[0] * 8 + d[1] / 4,
     d[1] % 4 * 64 + d[2] * 2 + d[3] / 16,
     d[3] % 16 * 16 + d[4] / 2,
     d[4] % 2 * 128 + d[5] * 4 + d[6] / 8,
     d[6] % 8 * 32 + d[7]]
  }

  function GroupValues(s: string): (r: Option<seq<nat>>)
    ensures r.Some? ==> |r.value| == |s| && forall i | 0 <= i < |s| :: r.value[i] < 32
  {
    if s == "" then Some([])
    else
      var first, rest := Base32Value(s[0]), GroupValues(s[1..]);
      if first.None? || rest.None? then None else Some([first.value] + rest.value)
  }

  lemma {:induction false} GroupValuesAre(s: string)
    ensures GroupValues(s).Some? <==> forall i | 0 <= i < |s| :: Base32Value(s[i]).Some?
    ensures GroupValues(s).Some? ==> |GroupValues(s).value| == |s|
    ensures GroupValues(s).Some? ==> forall i | 0 <= i < |s| :: Some(GroupValues(s).value[i]) == Base32Value(s[i])
  {
    if s != "" {
      GroupValuesAre(s[1..]);
      assert forall i | 0 < i < |s| :: s[i] == s[1..][i - 1];
    }
  }

  function Base32Encode(bytes: seq<byte>): (s: string)
    requires |bytes| % 5 == 0
    ensures 5 * |s| == 8 * |bytes|
  {
    if bytes == [] then "" else EncodeGroup(bytes[..5]) + Base32Encode(bytes[5..])
  }

  /** How many bytes a group of n characters stands for: bits short of a byte are dropped, and the
      lengths 1, 3 and 6, which no encoder writes, stand for nothing. */
  function GroupBytes(n: nat): (k: nat)
    requires n <= 8
    ensures k <= 5 && (k == 5 <==> n == 8)
  {
    if n == 8 then 5 else if n == 7 then 4 else if n == 5 then 3 else if n == 4 then 2 else if n == 2 then 1 else 0
  }

  /** How many bytes n characters without padding stand for. */
  function TextBytes(n: nat): nat { 5 * (n / 8) + GroupBytes(n % 8) }

  function UnpackValues(d: seq<nat>): (b: seq<byte>)
    requires |d| <= 8 && forall i | 0 <= i < |d| :: d[i] < 32
    ensures |b| == GroupBytes(|d|)
    ensures |d| == 8 ==> b == PackGroup(d)
  {
    assert |d| == 8 ==> d + seq(8 - |d|, _ => 0) == d;
    PackGroup(d + seq(8 - |d|, _ => 0))[..GroupBytes(|d|)]
  }

  /** Decodes upper-case characters, the last group of which may be short; None on a character
      outside the alphabet. */
  function Base32Decode(s: string): (r: Option<seq<byte>>)
    ensures r.Some? ==> |r.value| == TextBytes(|s|)
  {
    if s == "" then Some([])
    else
      var k := if |s| < 8 then |s| else 8;
      TextBytesStep(|s|);
      var group, rest := GroupValues(s[..k]), Base32Decode(s[k..]);
      if group.None? || rest.None? then None else Some(UnpackValues(group.value) + rest.value)
  }

  lemma TextBytesStep(n: nat)
    ensures n >= 8 ==> TextBytes(n) == 5 + TextBytes(n - 8)
  {
  }

  lemma {:induction false} DecodesLetters(s: string)
    ensures Base32Decode(s).Some? <==> GroupValues(s).Some?
  {
    if s != "" {
      var k := if |s| < 8 then |s| else 8;
      DecodesLetters(s[k..]);
      GroupValuesJoin(s, k);
    }
  }

  lemma {:induction false} GroupValuesJoin(s: string, k: nat)
    requires k <= |s|
    ensures GroupValues(s).Some? <==> GroupValues(s[..k]).Some? && GroupValues(s[k..]).Some?
  {
    GroupValuesAre(s);
    GroupValuesAre(s[..k]);
    GroupValuesAre(s[k..]);
    assert forall i | 0 <= i < k :: s[i] == s[..k][i];
    assert forall i | k <= i < |s| :: s[i] == s[k..][i - k];
  }

  // What stands between a text and its base32 characters: upper case, and dropped line breaks.

  /** The two letters beyond ASCII whose upper case is a letter of the alphabet: dotless i and long s. */
  predicate WideLetter(s: string)
  {
    |s| >= 2 && ((s[0] as int == 0xC4 && s[1] as int == 0xB1) || (s[0] as int == 0xC5 && s[1] as int == 0xBF))
  }

  /** strings.ToUpper, as far as a decoder can tell: other bytes beyond ASCII stay outside ASCII. */
  function Raised(s: string): string
  {
    if s == "" then ""
    else if WideLetter(s) then [if s[0] as int == 0xC4 then 'I' else 'S'] + Raised(s[2..])
    else Upper(s[..1]) + Raised(s[1..])
  }

  predicate LineBreak(c: char) { c == '\r' || c == '\n' }

  /** The decoder skips line breaks. */
  function Stripped(s: string): string
  {
    if s == "" then "" else (if LineBreak(s[0]) then "" else s[..1]) + Stripped(s[1..])
  }

  /** Whether a text has a byte that its base32 characters do not: of a line break, or one of the
      two of a wide letter. */
  predicate DropsSome(s: string)
  {
    s != "" && (LineBreak(s[0]) || WideLetter(s) || DropsSome(s[1..]))
  }

  function Letters(s: string): string { Stripped(Raised(s)) }

  /** The normal form of an info hash, or "" when the text is not one. */
  function NormalizeBTIH(v: string): string
  {
    NormalizeTrimmed(TrimSpace(v))
  }

  function NormalizeTrimmed(v: string): string
  {
    if |v| == 40 then
      var lowered := Lower(v);
      if HexDecode(lowered).Some? then lowered else ""
    else if |v| == 32 then
      var decoded := Base32Decode(Letters(v));
      if decoded.Some? then HexEncode(decoded.value) else ""
    else ""
  }

  /** The text spells the hash in hexadecimal or in base32, in any mixture of letter cases. */
  ghost predicate Spells(text: string, h: seq<byte>)
    requires |h| == 20
  {
    Lower(text) == HexEncode(h) || Upper(text) == Base32Encode(h)
  }

  // Each decoder accepts exactly what its encoder writes.

  lemma HexPair(hi: char, lo: char, b: byte)
    ensures HexValue(hi).Some? && HexValue(lo).Some? && 16 * HexValue(hi).value + HexValue(lo).value == b
            <==> hi == HexDigit(b / 16) && lo == HexDigit(b % 16)
  {
  }

  lemma {:induction false} HexExact(s: string, bytes: seq<byte>)
    requires |s| % 2 == 0
    ensures HexDecode(s) == Some(bytes) <==> s == HexEncode(bytes)
  {
    if s != "" && bytes != [] {
      HexExact(s[2..], bytes[1..]);
      HexPair(s[0], s[1], bytes[0]);
      var e := HexEncode(bytes);
      assert e[2..] == HexEncode(bytes[1..]);
      assert s == e <==> s[0] == e[0] && s[1] == e[1] && s[2..] == e[2..] by {
        assert s == [s[0], s[1]] + s[2..] && e == [e[0], e[1]] + e[2..];
      }
      assert bytes == [bytes[0]] + bytes[1..];
    }
  }

  lemma DigitExact(c: char, n: nat)
    requires n < 32
    ensures Base32Value(c) == Some(n) <==> c == Base32Char(n)
  {
  }

  // What each byte says about the bits of the values it is packed from.

  lemma Bits53(n: nat, x: nat, y: nat)
    requires y < 8
    ensures n == x * 8 + y <==> n / 8 == x && n % 8 == y
  {}

  lemma Bits44(n: nat, x: nat, y: nat)
    requires y < 16
    ensures n == x * 16 + y <==> n / 16 == x && n % 16 == y
  {}

  lemma Bits35(n: nat, x: nat, y: nat)
    requires y < 32
    ensures n == x * 32 + y <==> n / 32 == x && n % 32 == y
  {}

  lemma Bits2(n: nat, x: nat, y: nat)
    requires y < 4
    ensures n == x * 4 + y <==> n / 4 == x && n % 4 == y
  {}

  lemma Bits1(n: nat, x: nat, y: nat)
    requires y < 2
    ensures n == x * 2 + y <==> n / 2 == x && n % 2 == y
  {}

  lemma Bits251(n: nat, x: nat, y: nat, z: nat)
    requires y < 32 && z < 2
    ensures n == x * 64 + y * 2 + z <==> n / 64 == x && n / 2 % 32 == y && n % 2 == z
  {
    Bits1(n, x * 32 + y, z);
    Bits35(n / 2, x, y);
    assert n / 2 / 32 == n / 64;
  }

  lemma Bits152(n: nat, x: nat, y: nat, z: nat)
    requires y < 32 && z < 4
    ensures n == x * 128 + y * 4 + z <==> n / 128 == x && n / 4 % 32 == y && n % 4 == z
  {
    Bits2(n, x * 32 + y, z);
    Bits35(n / 4, x, y);
    assert n / 4 / 32 == n / 128;
  }

  /** Packing eight values gives b exactly when the values are the bit fields of b. */
  lemma UnpackGroup(d: seq<nat>, b: seq<byte>)
    requires |d| == 8 && |b| == 5 && forall i | 0 <= i < 8 :: d[i] < 32
    ensures PackGroup(d) == b <==> d == BitFields(b)
  {
    Bits53(b[0], d[0], d[1] / 4);
    Bits251(b[1], d[1] % 4, d[2], d[3] / 16);
    Bits44(b[2], d[3] % 16, d[4] / 2);
    Bits152(b[3], d[4] % 2, d[5], d[6] / 8);
    Bits35(b[4], d[6] % 8, d[7]);
    Bits2(d[1], b[0] % 8, b[1] / 64);
    Bits44(d[3], b[1] % 2, b[2] / 16);
    Bits1(d[4], b[2] % 16, b[3] / 128);
    Bits53(d[6], b[3] % 4, b[4] / 32);
    var p := PackGroup(d);
    assert p == b <==> p[0] == b[0] && p[1] == b[1] && p[2] == b[2] && p[3] == b[3] && p[4] == b[4];
    var f := BitFields(b);
    assert d == f <==> forall i | 0 <= i < 8 :: d[i] == f[i];
  }

  ghost predicate GroupSpells(s: string, b: seq<byte>)
    requires |s| == 8 && |b| == 5
  {
    GroupValuesAre(s);
    GroupValues(s).Some? && PackGroup(GroupValues(s).value) == b
  }

  lemma GroupExact(s: string, b: seq<byte>)
    requires |s| == 8 && |b| == 5
    ensures GroupSpells(s, b) <==> s == EncodeGroup(b)
  {
    GroupValuesAre(s);
    var e := EncodeGroup(b);
    var f := BitFields(b);
    forall i | 0 <= i < 8 ensures Base32Value(s[i]) == Some(f[i]) <==> s[i] == e[i] {
      DigitExact(s[i], f[i]);
    }
    if GroupValues(s).Some? {
      var d := GroupValues(s).value;
      UnpackGroup(d, b);
      assert forall i | 0 <= i < 8 :: Some(d[i]) == Base32Value(s[i]);
      if PackGroup(d) == b {
        assert d == f;
      }
    }
  }

  /** On whole groups of characters. */
  lemma {:induction false} Base32Exact(s: string, bytes: seq<byte>)
    requires |s| % 8 == 0 && |bytes| % 5 == 0
    ensures Base32Decode(s) == Some(bytes) <==> s == Base32Encode(bytes)
  {
    if s == "" || bytes == [] {
    } else {
      Base32Exact(s[8..], bytes[5..]);
      GroupExact(s[..8], bytes[..5]);
      GroupValuesAre(s[..8]);
      DecodeGroup(s);
      assert s == s[..8] + s[8..] && bytes == bytes[..5] + bytes[5..];
      var e := Base32Encode(bytes);
      assert e[..8] == EncodeGroup(bytes[..5]) && e[8..] == Base32Encode(bytes[5..]);
    }
  }

  lemma DecodeGroup(s: string)
    requires |s| >= 8
    ensures var group, rest := GroupValues(s[..8]), Base32Decode(s[8..]);
            Base32Decode(s) == if group.None? || rest.None? then None else Some(PackGroup(group.value) + rest.value)
  {
    hide TextBytes, PackGroup;
  }

  /** A text has fewer base32 characters than bytes exactly when some byte is dropped, and otherwise
      they are the text in upper case. */
  lemma {:induction false} LettersKept(s: string)
    ensures |Letters(s)| <= |s| && (|Letters(s)| < |s| <==> DropsSome(s))
    ensures !DropsSome(s) ==> Letters(s) == Upper(s)
  {
    if s == "" {
    } else if WideLetter(s) {
      LettersKept(s[2..]);
      var first := [if s[0] as int == 0xC4 then 'I' else 'S'];
      assert (first + Raised(s[2..]))[1..] == Raised(s[2..]);
    } else {
      LettersKept(s[1..]);
      assert (Upper(s[..1]) + Raised(s[1..]))[1..] == Raised(s[1..]);
      assert Upper(s) == Upper(s[..1]) + Upper(s[1..]);
    }
  }

  /** Taken byte for byte, such a text is in no alphabet. */
  lemma {:induction false} DroppedRefused(s: string)
    requires DropsSome(s)
    ensures GroupValues(Upper(s)).None?
  {
    assert Upper(s)[1..] == Upper(s[1..]);
    if !LineBreak(s[0]) && !WideLetter(s) {
      DroppedRefused(s[1..]);
    }
  }

  lemma NormalizesTrimmed(t: string, h: seq<byte>)
    requires |h| == 20
    ensures NormalizeTrimmed(t) == HexEncode(h) <==> Spells(t, h)
  {
    hide Letters, HexDecode, Base32Decode, HexEncode, Base32Encode;
    if |t| == 40 {
      HexExact(Lower(t), h);
    } else if |t| == 32 {
      Base32Reads(t, h);
      var decoded := Base32Decode(Letters(t));
      if decoded.Some? {
        HexExact(HexEncode(decoded.value), h);
        HexExact(HexEncode(decoded.value), decoded.value);
      }
    }
  }

  /** A text of 32 bytes decodes to 20 bytes exactly when it spells them in base32, without a byte to
      drop. */
  lemma Base32Reads(t: string, h: seq<byte>)
    requires |t| == 32 && |h| == 20
    ensures Base32Decode(Letters(t)) == Some(h) <==> Upper(t) == Base32Encode(h)
  {
    hide Letters, DropsSome, GroupValues, Base32Encode;
    LettersKept(t);
    TextBytesGrow(|Letters(t)|);
    Base32Exact(Upper(t), h);
    if DropsSome(t) {
      DroppedRefused(t);
      DecodesLetters(Upper(t));
    }
  }

  /** The normal form of a text is the hash h exactly when the text, apart from white space around
      it, spells h. */
  lemma NormalizesExactly(v: string, h: seq<byte>)
    requires |h| == 20
    ensures NormalizeBTIH(v) == HexEncode(h) <==> Spells(TrimSpace(v), h)
  {
    NormalizesTrimmed(TrimSpace(v), h);
  }

  predicate IsLowerHex(c: char) { '0' <= c <= '9' || 'a' <= c <= 'f' }

  lemma {:induction false} HexIsLower(bytes: seq<byte>)
    ensures forall i | 0 <= i < |HexEncode(bytes)| :: IsLowerHex(HexEncode(bytes)[i])
  {
    if bytes != [] {
      HexIsLower(bytes[1..]);
    }
  }

  /** Lower-case hexadecimal is unchanged by lower-casing and by trimming. */
  lemma HexUnchanged(s: string)
    requires forall i | 0 <= i < |s| :: IsLowerHex(s[i])
    ensures Lower(s) == s && TrimSpace(s) == s
  {
    TrimKeeps(s);
  }

  lemma HashIsFixed(h: seq<byte>)
    requires |h| == 20
    ensures NormalizeBTIH(HexEncode(h)) == HexEncode(h)
  {
    HexIsLower(h);
    HexUnchanged(HexEncode(h));
    NormalizesExactly(HexEncode(h), h);
  }

  /** A text of 32 bytes that decodes to something, with fewer base32 characters than bytes. */
  predicate Shortens(t: string)
  {
    |t| == 32 && DropsSome(t) && GroupValues(Letters(t)).Some? && TextBytes(|Letters(t)|) > 0
  }

  lemma TextBytesGrow(n: nat)
    requires n <= 32
    ensures TextBytes(n) <= 20 && (TextBytes(n) == 20 <==> n == 32)
  {
  }

  /** A normal form is empty or the hex of a 20-byte hash, except exactly for texts that shorten. */
  lemma NormalFormLength(t: string)
    ensures NormalizeTrimmed(t) == "" || |NormalizeTrimmed(t)| == 40 <==> !Shortens(t)
    ensures Shortens(t) ==> |NormalizeTrimmed(t)| == 2 * TextBytes(|Letters(t)|) < 40
    ensures forall i | 0 <= i < |NormalizeTrimmed(t)| :: IsLowerHex(NormalizeTrimmed(t)[i])
  {
    if |t| == 40 {
      var decoded := HexDecode(Lower(t));
      if decoded.Some? {
        HexExact(Lower(t), decoded.value);
        HexIsLower(decoded.value);
      }
    } else if |t| == 32 {
      LettersKept(t);
      TextBytesGrow(|Letters(t)|);
      DecodesLetters(Letters(t));
      var decoded := Base32Decode(Letters(t));
      if decoded.Some? {
        HexIsLower(decoded.value);
      }
    }
  }

  /** A normal form is its own normal form, except exactly for texts that shorten. */
  lemma NormalFormFixed(v: string)
    ensures NormalizeBTIH(NormalizeBTIH(v)) == NormalizeBTIH(v) <==> !Shortens(TrimSpace(v))
    ensures NormalizeBTIH(v) == "" || |NormalizeBTIH(v)| == 40 <==> !Shortens(TrimSpace(v))
  {
    var r := NormalizeBTIH(v);
    NormalFormLength(TrimSpace(v));
    HexUnchanged(r);
    if |r| == 40 {
      FortyIsHash(r);
    } else if |r| == 32 {
      NormalFormLength(r);
      LettersKept(r);
      NoBreaksInHex(r);
      TextBytesGrow(|Letters(r)|);
    }
  }

  lemma FortyIsHash(r: string)
    requires |r| == 40 && forall i | 0 <= i < 40 :: IsLowerHex(r[i])
    ensures NormalizeTrimmed(r) == r
  {
    HexUnchanged(r);
    HexReads(r);
  }

  lemma {:induction false} HexReads(s: string)
    requires |s| % 2 == 0 && forall i | 0 <= i < |s| :: IsLowerHex(s[i])
    ensures HexDecode(s).Some?
  {
    if s != "" {
      HexReads(s[2..]);
    }
  }

  lemma {:induction false} NoBreaksInHex(s: string)
    requires forall i | 0 <= i < |s| :: IsLowerHex(s[i])
    ensures !DropsSome(s)
  {
    if s != "" {
      NoBreaksInHex(s[1..]);
    }
  }

  predicate Capitals(s: string) { forall i | 0 <= i < |s| :: 'A' <= s[i] <= 'Z' }

  /** One more character in front, that is no part of a wide letter. */
  lemma LettersStep(c: char, rest: string)
    requires 'A' <= c <= 'Z' || c == '\n'
    ensures Letters([c] + rest) == (if c == '\n' then "" else [c]) + Letters(rest)
    ensures DropsSome([c] + rest) <==> c == '\n' || DropsSome(rest)
  {
    var s := [c] + rest;
    assert s[1..] == rest && Upper(s[..1]) == [c];
    assert Raised(s) == [c] + Raised(rest);
    assert ([c] + Raised(rest))[1..] == Raised(rest);
  }

  lemma {:induction false} LettersPlain(b: string)
    requires Capitals(b)
    ensures Letters(b) == b
  {
    if b != "" {
      LettersPlain(b[1..]);
      LettersStep(b[0], b[1..]);
      assert b == [b[0]] + b[1..];
    }
  }

  lemma {:induction false} LettersAround(a: string, b: string)
    requires Capitals(a) && Capitals(b)
    ensures Letters(a + "\n" + b) == a + b && DropsSome(a + "\n" + b)
  {
    hide Letters, DropsSome;
    if a != "" {
      LettersAround(a[1..], b);
      LettersStep(a[0], a[1..] + "\n" + b);
      assert a + "\n" + b == [a[0]] + (a[1..] + "\n" + b);
      assert [a[0]] + (a[1..] + b) == a + b;
    } else {
      LettersPlain(b);
      LettersStep('\n', b);
      assert a + "\n" + b == ['\n'] + b;
      assert a + b == b == "" + b;
    }
  }

  /** Such texts: 31 letters with a line break between them lose a character, and the 38 digits that
      come out are no info hash. */
  lemma LineBreakShortens(a: string, b: string)
    requires |a| + |b| == 31 && a != "" && b != ""
    requires Capitals(a) && Capitals(b)
    ensures |NormalizeBTIH(a + "\n" + b)| == 38 && NormalizeBTIH(NormalizeBTIH(a + "\n" + b)) == ""
  {
    hide Letters, DropsSome, NormalizeTrimmed;
    var t := a + "\n" + b;
    assert t[0] == a[0] && t[|t| - 1] == b[|b| - 1];
    TrimKeeps(t);
    LettersAround(a, b);
    CapitalsDecode(a + b);
    NormalFormLength(t);
    var r := NormalizeTrimmed(t);
    HexUnchanged(r);
    OtherLengths(r);
  }

  lemma OtherLengths(t: string)
    requires |t| != 32 && |t| != 40
    ensures NormalizeTrimmed(t) == ""
  {
  }

  lemma CapitalsDecode(s: string)
    requires Capitals(s)
    ensures GroupValues(s).Some?
  {
    GroupValuesAre(s);
  }

  /** Distinct hashes have distinct normal forms, whatever spellings they came in. */
  lemma DistinctHashesStayApart(v: string, w: string, g: seq<byte>, h: seq<byte>)
    requires |g| == 20 && |h| == 20 && g != h
    requires Spells(TrimSpace(v), g) && Spells(TrimSpace(w), h)
    ensures NormalizeBTIH(v) != NormalizeBTIH(w)
  {
    NormalizesExactly(v, g);
    NormalizesExactly(w, h);
    HexExact(HexEncode(g), g);
    HexExact(HexEncode(g), h);
  }
}

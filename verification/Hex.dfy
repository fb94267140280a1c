/**
  Addresses and hashes as text (`Display`, `from_hex` and `hex_decode` in crates/common/src/types.rs).
  Text is ASCII, so that its length in bytes is its length in characters.
 */
module Hex {
  import opened Types

  type Text = s: string | forall c :: c in s ==> c < 128 as char witness ""

  datatype HexError = WrongLength(text: string) | BadDigits(text: string)

  function Digit(c: char): Option<nat> {
    if '0' <= c <= '9' then Some((c - '0') as nat)
    else if 'a' <= c <= 'f' then Some((c - 'a') as nat + 10)
    else if 'A' <= c <= 'F' then Some((c - 'A') as nat + 10)
    else None
  }

  /** `u8::from_str_radix` on two characters: two digits, or a plus sign and one digit. */
  function ByteFromPair(high: char, low: char): Option<Byte> {
    if high == '+' then Digit(low)
    else
      match (Digit(high), Digit(low))
      case (Some(h), Some(l)) => Some(16 * h + l)
      case _ => None
  }

  function HexDecode(s: string): (r: Option<seq<Byte>>)
    requires |s| % 2 == 0
    ensures r.Some? ==> 2 * |r.value| == |s|
  {
    if s == [] then Some([])
    else
      match (ByteFromPair(s[0], s[1]), HexDecode(s[2..]))
      case (Some(b), Some(rest)) => Some([b] + rest)
      case _ => None
  }

  function StripPrefix(s: string): string {
    if "0x" <= s then s[2..] else s
  }

  /** `from_hex` for a value of `width` bytes: 20 for an address, 32 for a hash. */
  function FromHex(s: Text, width: nat): (r: Result<seq<Byte>, HexError>)
    ensures r.Ok? ==> |r.value| == width
  {
    var digits := StripPrefix(s);
    if |digits| != 2 * width then Err(WrongLength(digits))
    else
      match HexDecode(digits)
      case Some(bytes) => Ok(bytes)
      case None => Err(BadDigits(digits))
  }

  function LowerDigit(n: nat): char
    requires n < 16
  {
    if n < 10 then '0' + n as char else 'a' + (n - 10) as char
  }

  function Digits(bytes: seq<Byte>): string {
    if bytes == [] then "" else Digits(bytes[..|bytes| - 1]) + PairOf(bytes[|bytes| - 1])
  }

  function PairOf(b: Byte): (pair: string)
    ensures |pair| == 2
  {
    [LowerDigit(b / 16), LowerDigit(b % 16)]
  }

  /** `Display`: the prefix, then two lower-case digits for each byte. */
  method Display(bytes: seq<Byte>) returns (text: string)
    ensures text == "0x" + Digits(bytes)
  {
    text := "0x";
    for i := 0 to |bytes|
      invariant text == "0x" + Digits(bytes[..i])
    {
      text := text + [LowerDigit(bytes[i] / 16), LowerDigit(bytes[i] % 16)];
      assert bytes[..i + 1][..i] == bytes[..i];
    }
    assert bytes[..|bytes|] == bytes;
  }

  predicate IsLowerDigit(c: char) {
    '0' <= c <= '9' || 'a' <= c <= 'f'
  }

  ghost predicate LowerHex(s: string) {
    forall c :: c in s ==> IsLowerDigit(c)
  }

  lemma PairRoundTrip(b: Byte)
    ensures LowerHex(PairOf(b)) && ByteFromPair(PairOf(b)[0], PairOf(b)[1]) == Some(b)
  {}

  lemma PairOfLower(high: char, low: char)
    requires IsLowerDigit(high) && IsLowerDigit(low)
    ensures ByteFromPair(high, low).Some? && PairOf(ByteFromPair(high, low).value) == [high, low]
  {
    var h, l := Digit(high).value, Digit(low).value;
    assert (16 * h + l) / 16 == h && (16 * h + l) % 16 == l;
  }

  lemma {:induction false} DigitsFront(bytes: seq<Byte>)
    requires bytes != []
    ensures Digits(bytes) == PairOf(bytes[0]) + Digits(bytes[1..])
  {
    if |bytes| > 1 {
      var front := bytes[..|bytes| - 1];
      DigitsFront(front);
      assert front[1..] == bytes[1..][..|bytes| - 2];
    } else {
      assert Digits(bytes[..0]) == "" && Digits(bytes[1..]) == "";
    }
  }

  lemma {:induction false} DigitsRoundTrip(bytes: seq<Byte>)
    ensures |Digits(bytes)| == 2 * |bytes| && LowerHex(Digits(bytes)) && HexDecode(Digits(bytes)) == Some(bytes)
  {
    if bytes != [] {
      DigitsFront(bytes);
      DigitsRoundTrip(bytes[1..]);
      PairRoundTrip(bytes[0]);
      assert Digits(bytes)[2..] == Digits(bytes[1..]);
      assert [bytes[0]] + bytes[1..] == bytes;
    }
  }

  lemma DigitsAreNoPrefix(s: string)
    requires LowerHex(s)
    ensures StripPrefix(s) == s
  {
    if |s| >= 2 {
      assert s[1] in s;
    }
  }

  /** Reading what was displayed gives the value back, with and without the prefix. */
  lemma FromHexOfDisplay(bytes: seq<Byte>, text: Text, bare: Text)
    requires text == "0x" + Digits(bytes) && bare == Digits(bytes)
    ensures FromHex(text, |bytes|) == Ok(bytes) && FromHex(bare, |bytes|) == Ok(bytes)
  {
    DigitsRoundTrip(bytes);
    assert text[2..] == Digits(bytes);
    DigitsAreNoPrefix(bare);
  }

  lemma {:induction false} LowerDecodes(s: string)
    requires |s| % 2 == 0 && LowerHex(s)
    ensures HexDecode(s).Some? && Digits(HexDecode(s).value) == s
  {
    if s != [] {
      LowerDecodes(s[2..]);
      PairOfLower(s[0], s[1]);
      var bytes := HexDecode(s).value;
      DigitsFront(bytes);
      assert bytes[1..] == HexDecode(s[2..]).value;
      assert s == [s[0], s[1]] + s[2..];
    }
  }

  /** Displaying what was read gives the text back exactly for prefixed lower-case text of the right length. */
  lemma DisplayOfFromHex(s: Text, width: nat)
    ensures FromHex(s, width).Ok? && "0x" + Digits(FromHex(s, width).value) == s <==>
            "0x" <= s && |s| == 2 * width + 2 && LowerHex(s[2..])
  {
    if "0x" <= s && |s| == 2 * width + 2 && LowerHex(s[2..]) {
      LowerDecodes(s[2..]);
      assert s == "0x" + s[2..];
    }
    if FromHex(s, width).Ok? && "0x" + Digits(FromHex(s, width).value) == s {
      DigitsRoundTrip(FromHex(s, width).value);
      assert s[2..] == Digits(FromHex(s, width).value);
    }
  }

  ghost predicate OneDigitEach(bytes: seq<Byte>) {
    forall i :: 0 <= i < |bytes| ==> bytes[i] < 16
  }

  /** Each byte below sixteen written as a plus sign and a digit. */
  ghost function PlusDigits(bytes: seq<Byte>): string
    requires OneDigitEach(bytes)
  {
    if bytes == [] then "" else ['+', LowerDigit(bytes[0])] + PlusDigits(bytes[1..])
  }

  lemma {:induction false} PlusDigitsDecode(bytes: seq<Byte>)
    requires OneDigitEach(bytes)
    ensures |PlusDigits(bytes)| == 2 * |bytes| && HexDecode(PlusDigits(bytes)) == Some(bytes)
  {
    if bytes != [] {
      PlusDigitsDecode(bytes[1..]);
      assert PlusDigits(bytes)[2..] == PlusDigits(bytes[1..]);
      assert [bytes[0]] + bytes[1..] == bytes;
    }
  }

  /** Texts full of plus signs are read, at every width, though no value is ever displayed like that. */
  lemma PlusSignsAreRead(bytes: seq<Byte>, text: Text)
    requires bytes != [] && OneDigitEach(bytes) && text == PlusDigits(bytes)
    ensures FromHex(text, |bytes|) == Ok(bytes) && text != Digits(bytes) && text != "0x" + Digits(bytes)
  {
    PlusDigitsDecode(bytes);
    DigitsRoundTrip(bytes);
    assert text[0] == '+';
    assert Digits(bytes)[0] in Digits(bytes);
  }

  /** Reading fails for the wrong length, and else for a pair that stands for no byte; the text without its prefix is named. */
  lemma FailuresExactly(s: Text, width: nat)
    ensures var digits := StripPrefix(s);
            && (|digits| != 2 * width ==> FromHex(s, width) == Err(WrongLength(digits)))
            && (|digits| == 2 * width && !AllReadable(digits) ==> FromHex(s, width) == Err(BadDigits(digits)))
            && (|digits| == 2 * width && AllReadable(digits) ==> FromHex(s, width).Ok?)
    ensures StripPrefix(s) == if |s| >= 2 && s[0] == '0' && s[1] == 'x' then s[2..] else s
  {
    if |StripPrefix(s)| == 2 * width {
      DecodeReadsPairs(StripPrefix(s));
    }
  }

  /** The digits and their values, in either case. */
  lemma DigitsMean(c: char, n: nat)
    ensures Digit(c) == Some(n) <==> n < 16 && ("0123456789abcdef"[n] == c || "0123456789ABCDEF"[n] == c)
  {}

  lemma LowerDigitsMean(n: nat)
    requires n < 16
    ensures LowerDigit(n) == "0123456789abcdef"[n]
  {}

  /** Two characters that stand for a byte: digits, or a plus sign and a digit. */
  predicate Readable(high: char, low: char) {
    (high == '+' || Digit(high).Some?) && Digit(low).Some?
  }

  /** Which byte: the first digit is the high one. */
  function Meaning(high: char, low: char): (n: nat)
    requires Readable(high, low)
  {
    if high == '+' then Digit(low).value else 16 * Digit(high).value + Digit(low).value
  }

  ghost predicate AllReadable(s: string) {
    forall i :: 0 <= i < |s| / 2 ==> Readable(s[2 * i], s[2 * i + 1])
  }

  lemma PairsAfterFirst(s: string, i: nat)
    requires |s| % 2 == 0 && 0 < i < |s| / 2
    ensures s[2..][2 * (i - 1)] == s[2 * i] && s[2..][2 * (i - 1) + 1] == s[2 * i + 1]
  {}

  /** Text of even length is read exactly when every pair of characters is, and byte by byte. */
  lemma {:induction false} DecodeReadsPairs(s: string)
    requires |s| % 2 == 0
    ensures HexDecode(s).Some? <==> AllReadable(s)
    ensures HexDecode(s).Some? ==> forall i :: 0 <= i < |s| / 2 ==> HexDecode(s).value[i] == Meaning(s[2 * i], s[2 * i + 1])
  {
    if s != [] {
      var rest := s[2..];
      DecodeReadsPairs(rest);
      if AllReadable(s) {
        var first := 0;
        assert Readable(s[2 * first], s[2 * first + 1]);
        forall i | 0 <= i < |rest| / 2 ensures Readable(rest[2 * i], rest[2 * i + 1]) {
          PairsAfterFirst(s, i + 1);
        }
      }
      if HexDecode(s).Some? {
        forall i | 0 <= i < |s| / 2
          ensures Readable(s[2 * i], s[2 * i + 1]) && HexDecode(s).value[i] == Meaning(s[2 * i], s[2 * i + 1])
        {
          if i > 0 {
            PairsAfterFirst(s, i);
          }
        }
      }
    }
  }
}

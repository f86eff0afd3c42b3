/** Base 32 as in section 6 of RFC 4648: the bits of the input, in groups of five. */
module Base32 {
  import opened Wrappers
  import opened Bytes

  function Pow2(n: nat): nat {
    if n == 0 then 1 else 2 * Pow2(n - 1)
  }

  /** The `width` lowest bits of `n`, the highest first. */
  function ToBits(n: nat, width: nat): (bits: seq<bool>)
    ensures |bits| == width
  {
    if width == 0 then [] else ToBits(n / 2, width - 1) + [n % 2 == 1]
  }

  function FromBits(bits: seq<bool>): nat {
    if bits == [] then 0 else 2 * FromBits(bits[..|bits| - 1]) + if bits[|bits| - 1] then 1 else 0
  }

  lemma {:induction false} FromToBits(n: nat, width: nat)
    requires n < Pow2(width)
    ensures FromBits(ToBits(n, width)) == n
  {
    if width > 0 {
      FromToBits(n / 2, width - 1);
      assert ToBits(n, width)[..width - 1] == ToBits(n / 2, width - 1);
    }
  }

  lemma {:induction false} ToFromBits(bits: seq<bool>)
    ensures FromBits(bits) < Pow2(|bits|) && ToBits(FromBits(bits), |bits|) == bits
    decreases |bits|
  {
    if bits != [] {
      ToFromBits(bits[..|bits| - 1]);
    }
  }

  /** All bits of the digits, each `width` bits wide. */
  function Spread(digits: seq<nat>, width: nat): (bits: seq<bool>)
    ensures |bits| == |digits| * width
  {
    if digits == [] then [] else ToBits(digits[0], width) + Spread(digits[1..], width)
  }

  /** Groups of `width` bits, as many as are complete. */
  function Gather(bits: seq<bool>, width: nat): seq<nat>
    requires width > 0
    decreases |bits|
  {
    if |bits| < width then [] else [FromBits(bits[..width])] + Gather(bits[width..], width)
  }

  lemma {:induction false} GatherSpread(digits: seq<nat>, width: nat, rest: seq<bool>)
    requires width > |rest| && forall d <- digits :: d < Pow2(width)
    ensures Gather(Spread(digits, width) + rest, width) == digits
    decreases |digits|
  {
    var bits := Spread(digits, width) + rest;
    if digits != [] {
      var tail := Spread(digits[1..], width) + rest;
      assert bits == ToBits(digits[0], width) + tail;
      assert bits[..width] == ToBits(digits[0], width) && bits[width..] == tail;
      assert digits[0] in digits && forall d <- digits[1..] :: d in digits;
      FromToBits(digits[0], width);
      GatherSpread(digits[1..], width, rest);
      assert [digits[0]] + digits[1..] == digits;
    } else {
      assert bits == rest;
    }
  }

  /** Gathered digits hold all bits but fewer than `width` at the end. */
  lemma {:induction false} SpreadGather(bits: seq<bool>, width: nat)
    requires width > 0
    ensures var digits := Gather(bits, width);
            && Spread(digits, width) <= bits && |bits| - |Spread(digits, width)| < width
            && forall d <- digits :: d < Pow2(width)
    decreases |bits|
  {
    if |bits| >= width {
      ToFromBits(bits[..width]);
      SpreadGather(bits[width..], width);
      var rest := Gather(bits[width..], width);
      assert Gather(bits, width)[1..] == rest;
      assert bits == bits[..width] + bits[width..];
      assert Spread(Gather(bits, width), width) == bits[..width] + Spread(rest, width);
    }
  }

  function Octets(bytes: seq<byte>): seq<nat> {
    seq(|bytes|, i requires 0 <= i < |bytes| => bytes[i] as nat)
  }

  function FromOctets(octets: seq<nat>): seq<byte>
    requires forall o <- octets :: o < 256
  {
    seq(|octets|, i requires 0 <= i < |octets| => assert octets[i] in octets; octets[i] as byte)
  }

  /** The zero bits that fill up the last group of five. */
  function Spare(length: nat): nat {
    (5 - 8 * length % 5) % 5
  }

  /** The digits of the encoding, without padding. */
  function Digits(bytes: seq<byte>): seq<nat> {
    Gather(Spread(Octets(bytes), 8) + Repeated(false, Spare(|bytes|)), 5)
  }

  /** The whole bytes that the digits hold; bits left over are ignored. */
  function FromDigits(digits: seq<nat>): seq<byte> {
    var bits := Spread(digits, 5);
    SpreadGather(bits, 8);
    assert Pow2(8) == 256;
    FromOctets(Gather(bits, 8))
  }

  lemma {:induction false} DigitsCount(bytes: seq<byte>)
    ensures |Digits(bytes)| == (8 * |bytes| + 4) / 5
    ensures forall d <- Digits(bytes) :: d < 32
    ensures Spread(Digits(bytes), 5) == Spread(Octets(bytes), 8) + Repeated(false, Spare(|bytes|))
  {
    var bits := Spread(Octets(bytes), 8) + Repeated(false, Spare(|bytes|));
    SpreadGather(bits, 5);
    assert Pow2(5) == 32;
    hide Gather, Spread, Octets;
    SpareFills(|bytes|);
  }

  lemma {:induction false} SpareFills(n: nat)
    ensures (8 * n + Spare(n)) % 5 == 0 && (8 * n + Spare(n)) / 5 == (8 * n + 4) / 5
  {
  }

  lemma {:induction false} DigitsRoundTrip(bytes: seq<byte>)
    ensures FromDigits(Digits(bytes)) == bytes
  {
    DigitsCount(bytes);
    assert Pow2(8) == 256;
    GatherSpread(Octets(bytes), 8, Repeated(false, Spare(|bytes|)));
  }

  /** Digits that were not cut short come back from their bytes, if the bits left over are zero. */
  lemma {:induction false} DigitsCanonical(digits: seq<nat>)
    requires forall d <- digits :: d < 32
    requires var bytes := FromDigits(digits);
             8 * |bytes| + Spare(|bytes|) == 5 * |digits|
    ensures var bytes := FromDigits(digits);
            Digits(bytes) == digits <==> Spread(digits, 5)[8 * |bytes|..] == Repeated(false, Spare(|bytes|))
  {
    var bytes := FromDigits(digits);
    var bits := Spread(digits, 5);
    SpreadGather(bits, 8);
    assert Octets(bytes) == Gather(bits, 8);
    assert bits == bits[..8 * |bytes|] + bits[8 * |bytes|..];
    assert Spread(Octets(bytes), 8) == bits[..8 * |bytes|];
    assert Pow2(5) == 32;
    DigitsCount(bytes);
    hide Digits, FromDigits;
    if bits[8 * |bytes|..] == Repeated(false, Spare(|bytes|)) {
      SameDigits(digits, Digits(bytes));
    }
  }

  lemma {:induction false} SameDigits(a: seq<nat>, b: seq<nat>)
    requires (forall d <- a :: d < 32) && forall d <- b :: d < 32
    requires Spread(a, 5) == Spread(b, 5)
    ensures a == b
  {
    assert Pow2(5) == 32;
    GatherSpread(a, 5, []);
    GatherSpread(b, 5, []);
  }

  // ----- text

  /** The alphabet: `A` to `Z`, then `2` to `7`. */
  function Letter(d: nat): char
    requires d < 32
  {
    if d < 26 then 'A' + d as char else '2' + (d - 26) as char
  }

  function ValueOf(c: char): Option<nat> {
    if 'A' <= c <= 'Z' then Some(c as nat - 'A' as nat)
    else if '2' <= c <= '7' then Some(c as nat - '2' as nat + 26)
    else None
  }

  /** Position in the alphabet and letter at a position are inverse. */
  lemma {:induction false} LetterValues(c: char, d: nat)
    requires d < 32
    ensures ValueOf(Letter(d)) == Some(d)
    ensures ValueOf(c).Some? ==> ValueOf(c).value < 32 && Letter(ValueOf(c).value) == c
  {
  }

  function Text(digits: seq<nat>): string
    requires forall d <- digits :: d < 32
  {
    seq(|digits|, i requires 0 <= i < |digits| => assert digits[i] in digits; Letter(digits[i]))
  }

  function Padding(n: nat): string {
    Repeated('=', (8 - n % 8) % 8)
  }

  function Encode(bytes: seq<byte>): string {
    DigitsCount(bytes);
    Text(Digits(bytes)) + Padding(|Digits(bytes)|)
  }

  function Trim(text: string): string {
    if text != "" && text[|text| - 1] == '=' then Trim(text[..|text| - 1]) else text
  }

  function Values(text: string): seq<nat>
    requires forall c <- text :: ValueOf(c).Some?
  {
    seq(|text|, i requires 0 <= i < |text| => assert text[i] in text; ValueOf(text[i]).value)
  }

  /** Trailing padding is dropped; what is left must be alphabet characters that end at a byte. */
  function Decode(text: string): Option<seq<byte>> {
    var data := Trim(text);
    if |data| % 8 !in {0, 2, 4, 5, 7} then None
    else if exists c <- data :: ValueOf(c).None? then None
    else Some(FromDigits(Values(data)))
  }

  lemma {:induction false} TrimPadding(text: string, n: nat)
    requires text != "" ==> text[|text| - 1] != '='
    ensures Trim(text + Repeated('=', n)) == text
  {
    var whole := text + Repeated('=', n);
    if n > 0 {
      assert whole[..|whole| - 1] == text + Repeated('=', n - 1);
      TrimPadding(text, n - 1);
    } else {
      assert whole == text;
    }
  }

  lemma {:induction false} TextValues(digits: seq<nat>)
    requires forall d <- digits :: d < 32
    ensures forall c <- Text(digits) :: ValueOf(c).Some?
    ensures Values(Text(digits)) == digits
  {
    forall i | 0 <= i < |digits| ensures ValueOf(Text(digits)[i]) == Some(digits[i]) {
      assert digits[i] in digits;
      LetterValues('A', digits[i]);
    }
  }

  lemma {:induction false} TextTrims(digits: seq<nat>, n: nat)
    requires forall d <- digits :: d < 32
    ensures Trim(Text(digits) + Repeated('=', n)) == Text(digits)
  {
    if digits != [] {
      assert digits[|digits| - 1] in digits;
      LetterValues('=', digits[|digits| - 1]);
      assert ValueOf('=').None?;
    }
    TrimPadding(Text(digits), n);
  }

  lemma {:induction false} Base32RoundTrip(bytes: seq<byte>)
    ensures Decode(Encode(bytes)) == Some(bytes)
  {
    DigitsCount(bytes);
    var digits := Digits(bytes);
    TextValues(digits);
    DigitsRoundTrip(bytes);
    LengthModulo(|bytes|);
    TextTrims(digits, (8 - |digits| % 8) % 8);
    assert Trim(Encode(bytes)) == Text(digits) && |Text(digits)| % 8 in {0, 2, 4, 5, 7} by {
      hide Digits, Text, Trim, Repeated;
      assert |Text(digits)| == |digits|;
    }
    hide *;
    DecodesTo(Encode(bytes), Text(digits));
  }

  lemma {:induction false} DecodesTo(text: string, data: string)
    requires Trim(text) == data && |data| % 8 in {0, 2, 4, 5, 7} && forall c <- data :: ValueOf(c).Some?
    ensures Decode(text) == Some(FromDigits(Values(data)))
  {
    hide FromDigits, Values, ValueOf, Trim;
  }

  lemma {:induction false} LengthModulo(n: nat)
    ensures (8 * n + 4) / 5 % 8 in {0, 2, 4, 5, 7}
  {
    var q, r := n / 5, n % 5;
    assert (8 * n + 4) / 5 == 8 * q + (8 * r + 4) / 5;
  }
}

/** Device ids: a 32-byte hash as eight groups of seven characters, with a check character per thirteen. */
module DeviceId {
  import opened Wrappers
  import opened Bytes
  import opened Base32
  import opened Luhn

  const HASH_LENGTH := 32

  /** The pieces of `n` characters, the last one shorter if it has to be. */
  function FixedLength(n: nat, text: string): seq<string>
    requires n > 0
    decreases |text|
  {
    if |text| <= n then [text] else [text[..n]] + FixedLength(n, text[n..])
  }

  function WithChecksums(parts: seq<string>): Outcome<seq<string>> {
    if parts == [] then Done([])
    else
      var check := Checksum(parts[0]);
      var rest := WithChecksums(parts[1..]);
      if check.Thrown? || rest.Thrown? then Thrown else Done([parts[0] + [check.value]] + rest.value)
  }

  /** `hashDataToDeviceIdString`. */
  function Print(hash: seq<byte>): Outcome<string> {
    if |hash| != HASH_LENGTH then Thrown
    else
      var parts := WithChecksums(FixedLength(13, Trim(Encode(hash))));
      if parts.Thrown? then Thrown else Done(Join("-", FixedLength(7, Join("", parts.value))))
  }

  predicate IdCharacter(c: char) {
    'A' <= c <= 'Z' || '0' <= c <= '9'
  }

  /** Eight groups of seven capital letters or digits, with dashes between them. */
  predicate Syntax(id: string) {
    |id| == 63 && forall i :: 0 <= i < 63 ==> if i % 8 == 7 then id[i] == '-' else IdCharacter(id[i])
  }

  /** What the expression of the replacement keeps: all but the dashes and every fourteenth character. */
  function DataOf(id: string): string
    requires |id| == 63
  {
    id[0..7] + id[8..14] + id[16..23] + id[24..30] + id[32..39] + id[40..46] + id[48..55] + id[56..62]
  }

  /** `deviceIdStringToHashData`. */
  function Parse(id: string): Outcome<seq<byte>> {
    if !Syntax(id) then Thrown
    else
      var data := Decode(DataOf(id) + "===");
      if data.None? || |data.value| != HASH_LENGTH then Thrown else Done(data.value)
  }

  predicate Validates(id: string) {
    var hash := Parse(id);
    hash.Done? && Print(hash.value) == Done(id)
  }

  // ----- the layout of an id

  /** Where character `j` of the data of part `k` stands, and where the check character of the part. */
  function DataAt(k: nat, j: nat): nat {
    16 * k + j + (if j >= 7 then 1 else 0)
  }

  function CheckAt(k: nat): nat {
    16 * k + 14
  }

  function Part(id: string, k: nat): string
    requires |id| == 63 && k < 4
  {
    seq(13, j requires 0 <= j < 13 => id[DataAt(k, j)])
  }

  lemma {:induction false} DataParts(id: string, k: nat)
    requires |id| == 63 && k < 4
    ensures |DataOf(id)| == 52 && DataOf(id)[13 * k..13 * k + 13] == Part(id, k)
  {
    var blocks := [id[0..7] + id[8..14], id[16..23] + id[24..30], id[32..39] + id[40..46], id[48..55] + id[56..62]];
    assert DataOf(id) == blocks[0] + blocks[1] + blocks[2] + blocks[3];
    assert blocks[k] == Part(id, k);
  }

  /** An id is laid out from `data` when every part holds its data and its check character, and dashes stand between groups. */
  predicate LaidOut(id: string, data: string)
    requires |data| == 52 && InAlphabet(data)
  {
    && |id| == 63
    && (forall m :: 0 <= m < 7 ==> id[8 * m + 7] == '-')
    && forall k :: 0 <= k < 4 ==> Part(id, k) == data[13 * k..13 * k + 13] && Done(id[CheckAt(k)]) == Checksum(data[13 * k..13 * k + 13])
  }

  lemma {:induction false} PartsCover(i: nat)
    requires i < 63
    ensures i % 8 == 7 || i == CheckAt(i / 16) || (i / 16 < 4 && i % 16 - (if i % 16 > 7 then 1 else 0) < 13
            && i == DataAt(i / 16, i % 16 - (if i % 16 > 7 then 1 else 0)))
  {
  }

  /** Two ids laid out from the same data are the same. */
  lemma {:induction false} LayoutUnique(id: string, other: string, data: string)
    requires |data| == 52 && InAlphabet(data) && LaidOut(id, data) && LaidOut(other, data)
    ensures id == other
  {
    forall i | 0 <= i < 63 ensures id[i] == other[i] {
      PartsCover(i);
      var k, j := i / 16, i % 16 - (if i % 16 > 7 then 1 else 0);
      if i % 8 == 7 {
        assert i == 8 * (i / 8) + 7 && i / 8 < 7;
      } else if i != CheckAt(k) {
        assert Part(id, k)[j] == Part(other, k)[j];
      }
    }
  }

  lemma {:induction false} LayoutData(id: string, data: string)
    requires |data| == 52 && InAlphabet(data) && LaidOut(id, data)
    ensures DataOf(id) == data
  {
    forall i | 0 <= i < 52 ensures DataOf(id)[i] == data[i] {
      var k, j := i / 13, i % 13;
      DataParts(id, k);
      assert DataOf(id)[13 * k..13 * k + 13][j] == data[13 * k..13 * k + 13][j];
    }
    DataParts(id, 0);
  }

  // ----- printing

  lemma {:induction false} PieceAt(n: nat, text: string, q: nat, m: nat)
    requires n > 0 && |text| == n * q && m < q
    ensures |FixedLength(n, text)| == q
    ensures 0 <= n * m && n * m + n <= |text| && FixedLength(n, text)[m] == text[n * m..n * m + n]
    decreases q
  {
    if q == 1 {
      assert FixedLength(n, text) == [text] && text[0..n] == text;
    } else {
      var rest := text[n..];
      assert n * q == n + n * (q - 1);
      assert n * (q - 1) >= n;
      PieceAt(n, rest, q - 1, if m == 0 then 0 else m - 1);
      if m > 0 {
        assert n * m == n + n * (m - 1);
        assert rest[n * (m - 1)..n * (m - 1) + n] == text[n * m..n * m + n];
      }
    }
  }

  predicate Groups(parts: seq<string>) {
    forall m :: 0 <= m < |parts| ==> |parts[m]| == 7
  }

  lemma {:induction false} JoinedAt(parts: seq<string>, m: nat)
    requires m < |parts| && Groups(parts)
    ensures var id := Join("-", parts);
            && |id| == 8 * |parts| - 1 && id[8 * m..8 * m + 7] == parts[m]
            && (m + 1 < |parts| ==> id[8 * m + 7] == '-')
    decreases |parts|
  {
    if |parts| > 1 {
      var rest := Join("-", parts[1..]);
      assert Join("-", parts) == parts[0] + "-" + rest;
      hide Join;
      assert Groups(parts[1..]) by {
        forall i | 0 <= i < |parts[1..]| ensures |parts[1..][i]| == 7 {
          assert parts[1..][i] == parts[i + 1];
        }
      }
      JoinedAt(parts[1..], if m == 0 then 0 else m - 1);
      Behind(parts[0], rest, m);
    }
  }

  lemma {:induction false} Behind(first: string, rest: string, m: nat)
    requires |first| == 7 && (m > 0 ==> 8 * m - 1 <= |rest|)
    ensures (first + "-" + rest)[0..7] == first && (first + "-" + rest)[7] == '-'
    ensures m > 0 && 8 * m - 1 < |rest| ==> (first + "-" + rest)[8 * m + 7] == rest[8 * (m - 1) + 7]
    ensures m > 0 ==> (first + "-" + rest)[8 * m..8 * m + 7] == rest[8 * (m - 1)..8 * (m - 1) + 7]
  {
    if m > 0 {
      var whole := first + "-" + rest;
      assert forall i :: 0 <= i < |rest| ==> whole[8 + i] == rest[i];
    }
  }

  /** The 52 characters of data, each thirteen followed by their check character. */
  function Checked(data: string, checks: string): string
    requires |data| == 52 && |checks| == 4
  {
    data[0..13] + [checks[0]] + (data[13..26] + [checks[1]]) + (data[26..39] + [checks[2]]) + (data[39..52] + [checks[3]])
  }

  lemma {:induction false} FourParts(data: string) returns (checks: string)
    requires |data| == 52 && InAlphabet(data)
    ensures |checks| == 4
    ensures forall k :: 0 <= k < 4 ==> Done(checks[k]) == Checksum(data[13 * k..13 * k + 13])
    ensures var parts := WithChecksums(FixedLength(13, data));
            parts.Done? && Join("", parts.value) == Checked(data, checks)
  {
    var p := [data[0..13], data[13..26], data[26..39], data[39..52]];
    PieceAt(13, data, 4, 0);
    PieceAt(13, data, 4, 1);
    PieceAt(13, data, 4, 2);
    PieceAt(13, data, 4, 3);
    assert FixedLength(13, data) == p;
    assert forall k :: 0 <= k < 4 ==> p[k] == data[13 * k..13 * k + 13] && InAlphabet(p[k]);
    checks := [Checksum(p[0]).value, Checksum(p[1]).value, Checksum(p[2]).value, Checksum(p[3]).value];
    var q := [p[0] + [checks[0]], p[1] + [checks[1]], p[2] + [checks[2]], p[3] + [checks[3]]];
    ChecksumsOf(p, checks, q);
    JoinFour(q[0], q[1], q[2], q[3]);
  }

  lemma {:induction false} ChecksumsOf(p: seq<string>, checks: string, q: seq<string>)
    requires |p| == |checks| == |q|
    requires forall k :: 0 <= k < |p| ==> Checksum(p[k]) == Done(checks[k]) && q[k] == p[k] + [checks[k]]
    ensures WithChecksums(p) == Done(q)
    decreases |p|
  {
    hide Checksum;
    if p != [] {
      ChecksumsOf(p[1..], checks[1..], q[1..]);
      assert [q[0]] + q[1..] == q;
    }
  }

  lemma {:induction false} JoinFour(a: string, b: string, c: string, d: string)
    ensures Join("", [a, b, c, d]) == a + b + c + d
  {
    assert [a, b, c, d][1..] == [b, c, d] && [b, c, d][1..] == [c, d] && [c, d][1..] == [d];
    assert Join("", [c, d]) == c + d;
    assert Join("", [b, c, d]) == b + (c + d);
    assert a + (b + (c + d)) == a + b + c + d;
  }

  /** A printed id is laid out from the digits of the hash. */
  lemma {:induction false} PrintLayout(hash: seq<byte>)
    requires |hash| == HASH_LENGTH
    ensures (forall d <- Digits(hash) :: d < 32) && |Text(Digits(hash))| == 52 && InAlphabet(Text(Digits(hash)))
    ensures Print(hash).Done? && LaidOut(Print(hash).value, Text(Digits(hash)))
  {
    DigitsCount(hash);
    var data := Text(Digits(hash));
    TextValues(Digits(hash));
    TextTrims(Digits(hash), (8 - |data| % 8) % 8);
    assert Trim(Encode(hash)) == data;
    var checks := FourParts(data);
    hide Text, Digits, Trim, Encode, WithChecksums;
    GroupedLayout(data, checks);
  }

  lemma {:induction false} GroupedLayout(data: string, checks: string)
    requires |data| == 52 && InAlphabet(data) && |checks| == 4
    requires forall k :: 0 <= k < 4 ==> Done(checks[k]) == Checksum(data[13 * k..13 * k + 13])
    ensures LaidOut(Join("-", FixedLength(7, Checked(data, checks))), data)
  {
    var text := Checked(data, checks);
    CheckedAt(data, checks, 0);
    var groups := FixedLength(7, text);
    var id := Join("-", groups);
    PieceAt(7, text, 8, 0);
    forall m | 0 <= m < 8 ensures groups[m] == text[7 * m..7 * m + 7] {
      PieceAt(7, text, 8, m);
    }
    assert Groups(groups);
    JoinedAt(groups, 0);
    hide Join, FixedLength;
    forall m | 0 <= m < 8 ensures GroupAt(id, text, m) {
      JoinedAt(groups, m);
    }
    forall m | 0 <= m < 7 ensures id[8 * m + 7] == '-' {
      JoinedAt(groups, m);
    }
    hide Checksum;
    forall k | 0 <= k < 4
      ensures Part(id, k) == data[13 * k..13 * k + 13] && id[CheckAt(k)] == checks[k]
    {
      PartOfGroups(id, data, checks, k);
    }
  }

  predicate GroupAt(id: string, text: string, m: nat)
    requires |id| == 63 && |text| == 56 && m < 8
  {
    id[8 * m..8 * m + 7] == text[7 * m..7 * m + 7]
  }

  lemma {:induction false} PartOfGroups(id: string, data: string, checks: string, k: nat)
    requires |data| == 52 && |checks| == 4 && |id| == 63 && k < 4
    requires |Checked(data, checks)| == 56 && forall m :: 0 <= m < 8 ==> GroupAt(id, Checked(data, checks), m)
    ensures Part(id, k) == data[13 * k..13 * k + 13] && id[CheckAt(k)] == checks[k]
  {
    var text := Checked(data, checks);
    CheckedAt(data, checks, k);
    assert GroupAt(id, text, 2 * k) && GroupAt(id, text, 2 * k + 1);
    forall j | 0 <= j < 14 ensures id[DataAt(k, j)] == text[14 * k + j] {
      if j < 7 {
        assert id[16 * k..16 * k + 7][j] == text[14 * k..14 * k + 7][j];
      } else {
        assert id[16 * k + 8..16 * k + 15][j - 7] == text[14 * k + 7..14 * k + 14][j - 7];
      }
    }
    forall j | 0 <= j < 13 ensures Part(id, k)[j] == data[13 * k..13 * k + 13][j] {
      assert text[14 * k..14 * k + 13][j] == text[14 * k + j];
    }
    assert id[CheckAt(k)] == id[DataAt(k, 13)];
  }

  lemma {:induction false} CheckedAt(data: string, checks: string, k: nat)
    requires |data| == 52 && |checks| == 4 && k < 4
    ensures var text := Checked(data, checks);
            && |text| == 56 && text[14 * k + 13] == checks[k]
            && text[14 * k..14 * k + 13] == data[13 * k..13 * k + 13]
  {
  }

  // ----- parsing

  lemma {:induction false} LaidOutSyntax(id: string, data: string)
    requires |data| == 52 && InAlphabet(data) && LaidOut(id, data)
    ensures Syntax(id)
  {
    forall i | 0 <= i < 63 ensures if i % 8 == 7 then id[i] == '-' else IdCharacter(id[i]) {
      PartsCover(i);
      var k, j := i / 16, i % 16 - (if i % 16 > 7 then 1 else 0);
      if i % 8 == 7 {
        assert i == 8 * (i / 8) + 7 && i / 8 < 7;
      } else if i == CheckAt(k) {
        LetterIsId(CheckValue(Values(data[13 * k..13 * k + 13])));
      } else {
        assert Part(id, k)[j] == data[13 * k..13 * k + 13][j] == data[13 * k + j];
        assert data[13 * k + j] in data;
      }
    }
  }

  lemma {:induction false} LetterIsId(d: nat)
    requires d < 32
    ensures IdCharacter(Letter(d)) && ValueOf(Letter(d)).Some?
  {
  }

  lemma {:induction false} ValuesBelow(data: string)
    requires InAlphabet(data)
    ensures forall d <- Values(data) :: d < 32
    ensures Text(Values(data)) == data
  {
    forall i | 0 <= i < |data| ensures ValueOf(data[i]).value < 32 && Letter(ValueOf(data[i]).value) == data[i] {
      assert data[i] in data;
      LetterValues(data[i], 0);
    }
  }

  /** Parsing succeeds on everything with the right syntax and alphabet: it looks neither at the check characters
      nor at the bits left over. */
  lemma {:induction false} ParseIs(id: string)
    requires Syntax(id)
    ensures |DataOf(id)| == 52
    ensures Parse(id) == if InAlphabet(DataOf(id)) then Done(FromDigits(Values(DataOf(id)))) else Thrown
  {
    var data := DataOf(id);
    DataParts(id, 0);
    LastIsId(id);
    assert data + "===" == data + Repeated('=', 3);
    TrimPadding(data, 3);
    if InAlphabet(data) {
      FromDigitsCount(Values(data));
    }
  }

  lemma {:induction false} LastIsId(id: string)
    requires Syntax(id)
    ensures |DataOf(id)| == 52 && IdCharacter(DataOf(id)[51])
  {
    assert DataOf(id)[51] == id[61];
  }

  lemma {:induction false} FromDigitsCount(digits: seq<nat>)
    requires |digits| == 52
    ensures |FromDigits(digits)| == HASH_LENGTH
  {
    var bits := Spread(digits, 5);
    SpreadGather(bits, 8);
  }

  /** For every hash of 32 bytes the printed id has the right syntax, and parsing it gives the hash back. */
  lemma {:induction false} DeviceIdRoundTrip(hash: seq<byte>)
    requires |hash| == HASH_LENGTH
    ensures Print(hash).Done? && Syntax(Print(hash).value) && Parse(Print(hash).value) == Done(hash)
  {
    PrintLayout(hash);
    hide Print, FromDigits;
    var id, data := Print(hash).value, Text(Digits(hash));
    LaidOutSyntax(id, data);
    LayoutData(id, data);
    ParseIs(id);
    TextValues(Digits(hash));
    DigitsRoundTrip(hash);
  }

  // ----- validation

  predicate ChecksFit(id: string)
    requires |id| == 63
  {
    forall k :: 0 <= k < 4 ==> Done(id[CheckAt(k)]) == Checksum(Part(id, k))
  }

  /** What makes an id valid, said without printing: right characters, four right check characters, and the four
      bits that the last data character has to spare are zero. */
  predicate WellFormed(id: string) {
    && Syntax(id) && InAlphabet(DataOf(id)) && |DataOf(id)| == 52
    && ChecksFit(id)
    && Values(DataOf(id))[51] % 16 == 0
  }

  lemma {:induction false} LastBits(digits: seq<nat>)
    requires |digits| == 52 && forall d <- digits :: d < 32
    ensures Spread(digits, 5)[256..] == Repeated(false, 4) <==> digits[51] % 16 == 0
  {
    SpreadLast(digits[..51], digits[51]);
    assert digits == digits[..51] + [digits[51]];
    assert digits[51] in digits;
    var bits := ToBits(digits[51], 5);
    assert Spread(digits, 5)[256..] == bits[1..];
    FiveBits(digits[51]);
    assert bits[1..] == Repeated(false, 4) <==> !bits[1] && !bits[2] && !bits[3] && !bits[4];
  }

  lemma {:induction false} SpreadLast(digits: seq<nat>, d: nat)
    ensures Spread(digits + [d], 5) == Spread(digits, 5) + ToBits(d, 5)
    decreases |digits|
  {
    if digits == [] {
      assert digits + [d] == [d] && [d][1..] == [];
      assert ToBits(d, 5) + [] == ToBits(d, 5);
    } else {
      assert (digits + [d])[1..] == digits[1..] + [d];
      SpreadLast(digits[1..], d);
      assert ToBits(digits[0], 5) + (Spread(digits[1..], 5) + ToBits(d, 5)) == ToBits(digits[0], 5) + Spread(digits[1..], 5) + ToBits(d, 5);
    }
  }

  lemma {:induction false} FiveBits(d: nat)
    requires d < 32
    ensures var bits := ToBits(d, 5);
            !bits[1] && !bits[2] && !bits[3] && !bits[4] <==> d % 16 == 0
  {
    var bits := ToBits(d, 5);
    assert bits == ToBits(d / 2, 4) + [d % 2 == 1];
    assert ToBits(d / 2, 4) == ToBits(d / 4, 3) + [d / 2 % 2 == 1] by { assert d / 2 / 2 == d / 4; }
    assert ToBits(d / 4, 3) == ToBits(d / 8, 2) + [d / 4 % 2 == 1] by { assert d / 4 / 2 == d / 8; }
    assert ToBits(d / 8, 2) == ToBits(d / 16, 1) + [d / 8 % 2 == 1] by { assert d / 8 / 2 == d / 16; }
    hide ToBits;
    LowBits(d);
  }

  lemma {:induction false} LowBits(d: nat)
    ensures d % 2 == 0 && d / 2 % 2 == 0 && d / 4 % 2 == 0 && d / 8 % 2 == 0 <==> d % 16 == 0
  {
    var q, r := d / 16, d % 16;
    assert d == 16 * q + r;
    assert d / 2 == 8 * q + r / 2 && d / 4 == 4 * q + r / 4 && d / 8 == 2 * q + r / 8;
  }

  lemma {:induction false} SameParts(id: string)
    requires Syntax(id) && |DataOf(id)| == 52 && InAlphabet(DataOf(id))
    ensures LaidOut(id, DataOf(id)) <==> ChecksFit(id)
  {
    forall k | 0 <= k < 4 ensures Part(id, k) == DataOf(id)[13 * k..13 * k + 13] {
      DataParts(id, k);
    }
    forall m | 0 <= m < 7 ensures id[8 * m + 7] == '-' {
      assert (8 * m + 7) % 8 == 7;
    }
  }

  /** Validation accepts exactly the well-formed ids, which are exactly the printed ones. */
  lemma {:induction false} ValidExactly(id: string)
    ensures Validates(id) <==> WellFormed(id)
    ensures Validates(id) <==> exists hash: seq<byte> :: |hash| == HASH_LENGTH && Print(hash) == Done(id)
  {
    if Syntax(id) {
      ParseIs(id);
      var data := DataOf(id);
      if InAlphabet(data) {
        var digits, hash := Values(data), FromDigits(Values(data));
        ValuesBelow(data);
        FromDigitsCount(digits);
        DigitsCanonical(digits);
        LastBits(digits);
        SameParts(id);
        PrintLayout(hash);
        PrintedExactly(id, hash);
      }
    }
    if hash: seq<byte> :| |hash| == HASH_LENGTH && Print(hash) == Done(id) {
      DeviceIdRoundTrip(hash);
    }
  }

  lemma {:induction false} PrintedExactly(id: string, hash: seq<byte>)
    requires Syntax(id) && |DataOf(id)| == 52 && InAlphabet(DataOf(id))
    requires |hash| == HASH_LENGTH
    requires Digits(hash) == Values(DataOf(id)) <==> Values(DataOf(id))[51] % 16 == 0
    ensures Print(hash) == Done(id) <==> ChecksFit(id) && Values(DataOf(id))[51] % 16 == 0
  {
    var data := DataOf(id);
    ValuesBelow(data);
    SameParts(id);
    PrintLayout(hash);
    hide Print, Digits;
    var printed := Print(hash).value;
    TextValues(Digits(hash));
    if printed == id {
      LayoutData(id, Text(Digits(hash)));
    } else if ChecksFit(id) && Values(data)[51] % 16 == 0 {
      LayoutUnique(id, printed, data);
    }
  }

  // ----- errors in an id

  /** Of the parts, only the one that holds a data position sees a change there. */
  lemma {:induction false} PartChanged(id: string, k: nat, j: nat, c: char, other: nat)
    requires |id| == 63 && k < 4 && j < 13 && other < 4
    ensures DataAt(k, j) < 63 && CheckAt(other) < 63 && id[DataAt(k, j) := c][CheckAt(other)] == id[CheckAt(other)]
    ensures Part(id[DataAt(k, j) := c], other) == if other == k then Part(id, k)[j := c] else Part(id, other)
  {
  }

  lemma {:induction false} PartAlphabet(id: string, k: nat)
    requires |id| == 63 && k < 4 && |DataOf(id)| == 52 && InAlphabet(DataOf(id))
    ensures InAlphabet(Part(id, k)) && |Values(Part(id, k))| == 13
    ensures forall j :: 0 <= j < 13 ==> Values(Part(id, k))[j] < 32
  {
    DataParts(id, k);
    var part := Part(id, k);
    forall j | 0 <= j < 13 ensures ValueOf(part[j]).Some? && ValueOf(part[j]).value < 32 {
      assert part[j] == DataOf(id)[13 * k..13 * k + 13][j] == DataOf(id)[13 * k + j];
      assert DataOf(id)[13 * k + j] in DataOf(id);
      LetterValues(part[j], 0);
    }
  }

  /** Changing any one character of a valid id, to whatever else, makes it invalid. */
  lemma {:induction false} SingleErrorDetected(id: string, i: nat, c: char)
    requires Validates(id) && i < 63 && |id| == 63 && c != id[i]
    ensures !Validates(id[i := c])
  {
    ValidExactly(id);
    ValidExactly(id[i := c]);
    PartsCover(i);
    hide Validates, WellFormed;
    var k, j := i / 16, i % 16 - (if i % 16 > 7 then 1 else 0);
    if i % 8 == 7 {
      DashErrorDetected(id, i, c);
    } else if i == CheckAt(k) {
      CheckErrorDetected(id, k, c);
    } else {
      DataErrorDetected(id, k, j, c);
    }
  }

  lemma {:induction false} DashErrorDetected(id: string, i: nat, c: char)
    requires WellFormed(id) && i < 63 && i % 8 == 7 && c != id[i]
    ensures !WellFormed(id[i := c])
  {
    assert id[i] == '-' && !Syntax(id[i := c]) by {
      assert id[i := c][i] == c;
    }
  }

  lemma {:induction false} CheckErrorDetected(id: string, k: nat, c: char)
    requires WellFormed(id) && k < 4 && c != id[CheckAt(k)]
    ensures !WellFormed(id[CheckAt(k) := c])
  {
    var changed := id[CheckAt(k) := c];
    assert Part(changed, k) == Part(id, k);
    assert Done(id[CheckAt(k)]) == Checksum(Part(id, k)) && changed[CheckAt(k)] == c;
    assert !ChecksFit(changed);
  }

  lemma {:induction false} DataErrorDetected(id: string, k: nat, j: nat, c: char)
    requires WellFormed(id) && k < 4 && j < 13 && c != id[DataAt(k, j)]
    ensures !WellFormed(id[DataAt(k, j) := c])
  {
    var changed := id[DataAt(k, j) := c];
    if WellFormed(changed) {
      PartChanged(id, k, j, c, k);
      PartAlphabet(id, k);
      PartAlphabet(changed, k);
      var was, now := Part(id, k), Part(changed, k);
      assert was[j] in was && now[j] in now;
      LetterValues(was[j], 0);
      LetterValues(now[j], 0);
      assert Values(now) == Values(was)[j := ValueOf(c).value];
      ChangeDetected(Values(was), j, ValueOf(c).value);
      SameLetter(CheckValue(Values(was)), CheckValue(Values(now)));
      assert false;
    }
  }

  lemma {:induction false} SameLetter(a: nat, b: nat)
    requires a < 32 && b < 32
    ensures Letter(a) == Letter(b) ==> a == b
  {
    LetterValues('A', a);
    LetterValues('A', b);
  }

  function SwappedAt(id: string, k: nat, j: nat): string
    requires |id| == 63 && k < 4 && j < 12
  {
    id[DataAt(k, j) := id[DataAt(k, j + 1)]][DataAt(k, j + 1) := id[DataAt(k, j)]]
  }

  /** Swapping two different neighbouring data characters of a part is noticed, unless they are `A` and `7`;
      and if these stand at the very end, the bits left over give them away. */
  lemma {:induction false} SwapErrorDetected(id: string, k: nat, j: nat)
    requires Validates(id) && |id| == 63 && k < 4 && j < 12 && id[DataAt(k, j)] != id[DataAt(k, j + 1)]
    ensures Validates(SwappedAt(id, k, j)) <==> SwapsAand7(id, k, j) && !(k == 3 && j == 11)
  {
    var swapped := SwappedAt(id, k, j);
    ValidExactly(id);
    ValidExactly(swapped);
    hide Validates;
    SwapSyntax(id, k, j);
    SwapData(id, k, j);
    SwapChecks(id, k, j);
    SwapLast(id, k, j);
  }

  predicate SwapsAand7(id: string, k: nat, j: nat)
    requires |id| == 63 && k < 4 && j < 12
  {
    var (a, b) := (id[DataAt(k, j)], id[DataAt(k, j + 1)]);
    (a == 'A' && b == '7') || (a == '7' && b == 'A')
  }

  lemma {:induction false} SwapSyntax(id: string, k: nat, j: nat)
    requires Syntax(id) && k < 4 && j < 12
    ensures Syntax(SwappedAt(id, k, j))
  {
    var swapped := SwappedAt(id, k, j);
    forall i | 0 <= i < 63 ensures if i % 8 == 7 then swapped[i] == '-' else IdCharacter(swapped[i]) {
      assert DataAt(k, j) % 8 != 7 && DataAt(k, j + 1) % 8 != 7;
    }
  }

  /** The data of the swapped id is the data swapped at the place of the two characters. */
  lemma {:induction false} SwapData(id: string, k: nat, j: nat)
    requires |id| == 63 && k < 4 && j < 12
    ensures |DataOf(id)| == 52 == |DataOf(SwappedAt(id, k, j))|
    ensures DataOf(SwappedAt(id, k, j)) == Swapped(DataOf(id), 13 * k + j)
    ensures InAlphabet(DataOf(id)) ==> InAlphabet(DataOf(SwappedAt(id, k, j)))
    ensures Part(SwappedAt(id, k, j), k) == Swapped(Part(id, k), j)
  {
    var swapped := SwappedAt(id, k, j);
    DataParts(id, 0);
    DataParts(swapped, 0);
    hide DataOf;
    forall i | 0 <= i < 52 ensures DataOf(swapped)[i] == Swapped(DataOf(id), 13 * k + j)[i] {
      SwapDataAt(id, k, j, i);
    }
  }

  lemma {:induction false} SwapDataAt(id: string, k: nat, j: nat, i: nat)
    requires |id| == 63 && k < 4 && j < 12 && i < 52
    ensures |DataOf(id)| == 52 == |DataOf(SwappedAt(id, k, j))|
    ensures DataOf(SwappedAt(id, k, j))[i] == Swapped(DataOf(id), 13 * k + j)[i]
  {
    hide DataOf;
    DataPosition(id, i);
    DataPosition(SwappedAt(id, k, j), i);
    DataPosition(id, 13 * k + j);
    DataPosition(id, 13 * k + j + 1);
    DataPositions(i / 13, i % 13, k, j);
    DataPositions(i / 13, i % 13, k, j + 1);
  }

  lemma {:induction false} DataPosition(id: string, i: nat)
    requires |id| == 63 && i < 52
    ensures |DataOf(id)| == 52 && DataOf(id)[i] == id[DataAt(i / 13, i % 13)]
  {
    var k, j := i / 13, i % 13;
    DataParts(id, k);
    assert DataOf(id)[13 * k..13 * k + 13][j] == DataOf(id)[i];
  }

  lemma {:induction false} DataPositions(k: nat, j: nat, k': nat, j': nat)
    requires k < 4 && k' < 4 && j < 13 && j' < 13
    ensures DataAt(k, j) == DataAt(k', j') <==> k == k' && j == j'
  {
  }

  lemma {:induction false} SwapChecks(id: string, k: nat, j: nat)
    requires WellFormed(id) && k < 4 && j < 12 && id[DataAt(k, j)] != id[DataAt(k, j + 1)]
    ensures ChecksFit(SwappedAt(id, k, j)) <==> SwapsAand7(id, k, j)
  {
    var swapped := SwappedAt(id, k, j);
    SwapData(id, k, j);
    PartAlphabet(id, k);
    PartAlphabet(swapped, k);
    forall other | 0 <= other < 4
      ensures swapped[CheckAt(other)] == id[CheckAt(other)] && (other != k ==> Part(swapped, other) == Part(id, other))
    {
      PartChanged(id, k, j, id[DataAt(k, j + 1)], other);
      PartChanged(id[DataAt(k, j) := id[DataAt(k, j + 1)]], k, j + 1, id[DataAt(k, j)], other);
    }
    var was, now := Part(id, k), Part(swapped, k);
    assert was[j] in was && was[j + 1] in was;
    assert Values(now) == Swapped(Values(was), j);
    SwapDetected(Values(was), j);
    SameLetter(CheckValue(Values(was)), CheckValue(Values(now)));
    LetterValues(was[j], 0);
    LetterValues(was[j + 1], 0);
  }

  /** After a swap of `A` and `7` the spare bits are zero unless the swap put the `7` last. */
  lemma {:induction false} SwapLast(id: string, k: nat, j: nat)
    requires WellFormed(id) && k < 4 && j < 12
    ensures InAlphabet(DataOf(SwappedAt(id, k, j))) && |DataOf(SwappedAt(id, k, j))| == 52
    ensures SwapsAand7(id, k, j) ==> (Values(DataOf(SwappedAt(id, k, j)))[51] % 16 == 0 <==> !(k == 3 && j == 11))
  {
    SwapData(id, k, j);
    DataPosition(id, 13 * k + j);
    DataPosition(id, 13 * k + j + 1);
    assert DataOf(id)[51] in DataOf(id);
  }
}

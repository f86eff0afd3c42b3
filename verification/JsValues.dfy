/** JavaScript values as far as templates meet them: truth, texts, and what `+` makes of two of them. */
module JsValues {

  datatype Value = Undefined | Null | Boolean(flag: bool) | Number(number: int) | NaN | Str(text: string) | Ref(id: nat)

  /** What an object is turned into before it is added to something. */
  type Primitive = v: Value | !v.Ref? witness Undefined

  predicate IsNull(v: Value) {
    v.Undefined? || v.Null?
  }

  predicate Truthy(v: Value) {
    match v
    case Undefined => false
    case Null => false
    case Boolean(b) => b
    case Number(n) => n != 0
    case NaN => false
    case Str(s) => s != ""
    case Ref(_) => true
  }

  // ----- numerals

  predicate IsDigit(c: char) {
    '0' <= c <= '9'
  }

  predicate AllDigits(s: string) {
    forall i :: 0 <= i < |s| ==> IsDigit(s[i])
  }

  function Decimal(s: string): nat
    requires AllDigits(s)
  {
    if s == "" then 0 else 10 * Decimal(s[..|s| - 1]) + (s[|s| - 1] as int - '0' as int)
  }

  function Digit(d: nat): char
    requires d < 10
  {
    ('0' as int + d) as char
  }

  /** The decimal digits of a number, which begin with a zero only for 0. */
  function Digits(n: nat): (s: string)
    ensures s != "" && AllDigits(s) && Decimal(s) == n
    ensures s[0] == '0' ==> n == 0 && |s| == 1
  {
    if n < 10 then
      var s := [Digit(n)];
      assert s[..|s| - 1] == "";
      s
    else
      var s := Digits(n / 10) + [Digit(n % 10)];
      assert s[..|s| - 1] == Digits(n / 10);
      s
  }

  function Numeral(n: int): string {
    if n < 0 then "-" + Digits(-n) else Digits(n)
  }

  // ----- texts and sums

  function PrimitiveText(v: Primitive): string {
    match v
    case Undefined => "undefined"
    case Null => "null"
    case Boolean(b) => if b then "true" else "false"
    case Number(n) => Numeral(n)
    case NaN => "NaN"
    case Str(s) => s
  }

  /** The number that a primitive counts as; `None` is not a number. */
  datatype Numeric = Exact(number: int) | NotANumber

  function NumberOf(v: Primitive): Numeric
    requires !v.Str?
  {
    match v
    case Undefined => NotANumber
    case Null => Exact(0)
    case Boolean(b) => Exact(if b then 1 else 0)
    case Number(n) => Exact(n)
    case NaN => NotANumber
  }

  /** `+`: texts are joined as soon as one side is a text, and anything else is added as numbers. */
  function Added(a: Primitive, b: Primitive): Primitive {
    if a.Str? || b.Str? then Str(PrimitiveText(a) + PrimitiveText(b))
    else match (NumberOf(a), NumberOf(b))
      case (Exact(m), Exact(n)) => Number(m + n)
      case _ => NaN
  }

  function Total(first: Primitive, rest: seq<Primitive>): Primitive
    decreases |rest|
  {
    if rest == [] then first else Total(Added(first, rest[0]), rest[1..])
  }

  function Texts(vs: seq<Primitive>): string {
    if vs == [] then "" else PrimitiveText(vs[0]) + Texts(vs[1..])
  }

  // ----- when a sum is the joined text

  lemma {:induction false} TextTotal(first: string, rest: seq<Primitive>)
    ensures Total(Str(first), rest) == Str(first + Texts(rest))
    decreases |rest|
  {
    if rest == [] {
      assert first + "" == first;
    } else {
      TextTotal(first + PrimitiveText(rest[0]), rest[1..]);
      assert first + PrimitiveText(rest[0]) + Texts(rest[1..]) == first + (PrimitiveText(rest[0]) + Texts(rest[1..]));
    }
  }

  predicate NoText(vs: seq<Primitive>) {
    forall i :: 0 <= i < |vs| ==> !vs[i].Str?
  }

  /** Whether a text holds one of the letters that the names of the values that are no numbers hold. */
  predicate Named(s: string) {
    'u' in s || 'f' in s
  }

  lemma {:induction false} NumeralsUnnamed(n: int)
    ensures !Named(Numeral(n)) && Numeral(n) != ""
    ensures forall i :: 1 <= i < |Numeral(n)| ==> IsDigit(Numeral(n)[i])
    ensures n >= 0 ==> IsDigit(Numeral(n)[0])
  {
    var s := Digits(if n < 0 then -n else n);
    assert forall c :: c in s ==> IsDigit(c);
    assert Numeral(n) == if n < 0 then "-" + s else s;
  }

  /** A sum of values none of which is a text is a number, and `NaN` if one of them is. */
  lemma {:induction false} NumberTotal(first: Primitive, rest: seq<Primitive>)
    requires first.Number? || first.NaN?
    requires NoText(rest)
    ensures var t := Total(first, rest); t.Number? || t.NaN?
    ensures first.NaN? || NaN in rest ==> Total(first, rest).NaN?
    decreases |rest|
  {
    if rest != [] {
      NumberTotal(Added(first, rest[0]), rest[1..]);
      assert NaN in rest ==> rest[0].NaN? || NaN in rest[1..];
    }
  }

  lemma {:induction false} TextsNamed(vs: seq<Primitive>, i: nat)
    requires i < |vs|
    ensures Named(PrimitiveText(vs[i])) ==> Named(Texts(vs))
    ensures PrimitiveText(vs[i]) != "" ==> Texts(vs) != ""
    ensures |PrimitiveText(vs[i])| <= |Texts(vs)|
    decreases |vs|
  {
    hide PrimitiveText;
    NamedJoin(PrimitiveText(vs[0]), Texts(vs[1..]));
    if i > 0 {
      assert vs[1..][i - 1] == vs[i];
      TextsNamed(vs[1..], i - 1);
    }
  }

  lemma {:induction false} NamedJoin(a: string, b: string)
    ensures Named(a + b) <==> Named(a) || Named(b)
  {
  }

  lemma {:induction false} NamesNamed()
    ensures Named("undefined") && Named("null") && Named("true") && Named("false") && !Named("NaN")
  {
    assert "undefined"[0] == 'u' && "null"[1] == 'u' && "true"[2] == 'u' && "false"[0] == 'f';
  }

  // ----- sums of numbers

  predicate AllNumbers(vs: seq<Primitive>) {
    forall i :: 0 <= i < |vs| ==> vs[i].Number?
  }

  function SumOfNumbers(vs: seq<Primitive>): int
    requires AllNumbers(vs)
  {
    if vs == [] then 0 else vs[0].number + SumOfNumbers(vs[1..])
  }

  lemma {:induction false} TotalIsSum(first: int, rest: seq<Primitive>)
    requires AllNumbers(rest)
    ensures Total(Number(first), rest) == Number(first + SumOfNumbers(rest))
    decreases |rest|
  {
    if rest != [] {
      TotalIsSum(first + rest[0].number, rest[1..]);
    }
  }

  lemma {:induction false} DigitsJoin(a: string, b: string)
    requires AllDigits(a) && AllDigits(b)
    ensures AllDigits(a + b)
    ensures Decimal(a + b) >= Decimal(a) + Decimal(b)
    ensures Decimal(a) > 0 && b != "" ==> Decimal(a + b) > Decimal(a) + Decimal(b)
    decreases |b|
  {
    if b == "" {
      assert a + b == a;
    } else {
      var init := b[..|b| - 1];
      assert AllDigits(init);
      DigitsJoin(a, init);
      assert (a + b)[..|a + b| - 1] == a + init;
    }
  }

  /** Numerals of numbers that are not negative, written one after the other, read as at least their sum. */
  lemma {:induction false} TextsOfNumbers(vs: seq<Primitive>)
    requires AllNumbers(vs) && forall i :: 0 <= i < |vs| ==> vs[i].number >= 0
    ensures AllDigits(Texts(vs)) && Decimal(Texts(vs)) >= SumOfNumbers(vs) >= 0
    ensures vs != [] ==> Texts(vs) != ""
    decreases |vs|
  {
    if vs != [] {
      TextsOfNumbers(vs[1..]);
      DigitsJoin(Digits(vs[0].number), Texts(vs[1..]));
    }
  }

  lemma {:induction false} MinusInside(vs: seq<Primitive>, i: nat) returns (k: nat)
    requires AllNumbers(vs) && 0 < i < |vs| && vs[i].number < 0
    ensures 1 <= k < |Texts(vs)| && Texts(vs)[k] == '-'
    decreases |vs|
  {
    var (first, rest) := (PrimitiveText(vs[0]), vs[1..]);
    NumeralsUnnamed(vs[0].number);
    hide Numeral;
    assert rest[i - 1] == vs[i];
    if i == 1 {
      k := |first|;
      BeginsWithMinus(rest);
    } else {
      assert AllNumbers(rest);
      k := MinusInside(rest, i - 1);
      k := |first| + k;
    }
    hide Texts, PrimitiveText;
    assert (first + Texts(rest))[k] == Texts(rest)[k - |first|];
  }

  lemma {:induction false} BeginsWithMinus(vs: seq<Primitive>)
    requires vs != [] && vs[0].Number? && vs[0].number < 0
    ensures Texts(vs) != "" && Texts(vs)[0] == '-'
  {
  }

  /** The numeral of a sum of two or more numbers is never their numerals joined. */
  lemma {:induction false} NumbersNotJoined(vs: seq<Primitive>)
    requires AllNumbers(vs) && |vs| >= 2
    ensures Numeral(SumOfNumbers(vs)) != Texts(vs)
  {
    var (n, rest) := (vs[0].number, vs[1..]);
    if i :| 0 < i < |vs| && vs[i].number < 0 {
      NumeralsUnnamed(SumOfNumbers(vs));
      var k := MinusInside(vs, i);
      hide *;
      assert !IsDigit('-') by { NoDigit(); }
    } else {
      TextsOfNumbers(rest);
      NotJoined(n, SumOfNumbers(rest), Texts(rest));
    }
  }

  lemma {:induction false} NoDigit()
    ensures !IsDigit('-')
  {
  }

  lemma {:induction false} NotJoined(n: int, more: nat, tail: string)
    requires AllDigits(tail) && tail != "" && Decimal(tail) >= more
    ensures Numeral(n + more) != Numeral(n) + tail
  {
    var digits := Digits(if n < 0 then -n else n);
    LargerRead(digits, more, tail);
    if n < 0 {
      NumeralsUnnamed(n + more);
      Negative(n + more, digits, tail);
    } else {
      assert Numeral(n + more) == Digits(n + more) && Numeral(n) == digits;
    }
  }

  /** A numeral with more digits behind it reads as another number than with that many added, unless it starts with 0. */
  lemma {:induction false} LargerRead(digits: string, more: nat, tail: string)
    requires AllDigits(digits) && AllDigits(tail) && tail != "" && digits != "" && Decimal(tail) >= more
    requires digits[0] == '0' ==> Decimal(digits) == 0
    requires Decimal(digits) == 0 ==> digits[0] == '0'
    ensures Digits(Decimal(digits) + more) != digits + tail
    ensures forall k: nat :: k <= Decimal(digits) && Decimal(digits) > 0 ==> Digits(k) != digits + tail
  {
    DigitsJoin(digits, tail);
    hide Digits;
    var d := Digits(Decimal(digits) + more);
    assert Decimal(digits) > 0 ==> Decimal(digits + tail) > Decimal(digits) + more;
    if Decimal(digits) == 0 {
      assert (digits + tail)[0] == '0' && |digits + tail| >= 2;
      assert d[0] == '0' ==> |d| == 1;
    }
  }

  lemma {:induction false} Negative(sum: int, digits: string, tail: string)
    requires AllDigits(digits) && digits != "" && Decimal(digits) > 0
    requires sum + Decimal(digits) >= 0
    requires forall k: nat :: k <= Decimal(digits) && Decimal(digits) > 0 ==> Digits(k) != digits + tail
    ensures Numeral(sum) != "-" + digits + tail
  {
    assert "-" + digits + tail == "-" + (digits + tail);
    if sum < 0 {
      assert Digits(-sum) != digits + tail;
      MinusCancels(Digits(-sum), digits + tail);
    } else {
      NumeralsUnnamed(sum);
      NoDigit();
      hide *;
      assert ("-" + digits + tail)[0] == '-';
    }
  }

  lemma {:induction false} MinusCancels(a: string, b: string)
    ensures "-" + a == "-" + b <==> a == b
  {
    assert ("-" + a)[1..] == a && ("-" + b)[1..] == b;
  }

  /** What two or more values that are no texts add up to never reads like their texts joined. */
  lemma {:induction false} NumericReads(vs: seq<Primitive>)
    requires |vs| >= 2 && NoText(vs)
    ensures var t := Total(vs[0], vs[1..]); !t.Str? && PrimitiveText(t) != Texts(vs)
  {
    NumericTotal(vs);
    if AllNumbers(vs) {
      TotalIsSum(vs[0].number, vs[1..]);
      NumbersNotJoined(vs);
      hide *;
    } else {
      var i :| 0 <= i < |vs| && !vs[i].Number?;
      assert !vs[i].Str?;
      hide *;
      if vs[i].NaN? {
        NaNRead(vs, i);
      } else {
        NameRead(vs, i);
      }
    }
  }

  lemma {:induction false} NameRead(vs: seq<Primitive>, i: nat)
    requires i < |vs| && !vs[i].Number? && !vs[i].NaN? && !vs[i].Str?
    ensures Named(Texts(vs))
  {
    NamesNamed();
    TextsNamed(vs, i);
  }

  lemma {:induction false} NumericTotal(vs: seq<Primitive>)
    requires |vs| >= 2 && NoText(vs)
    ensures var t := Total(vs[0], vs[1..]); (t.Number? || t.NaN?) && !Named(PrimitiveText(t))
  {
    assert vs[1..][1..] == vs[2..] && vs[1..][0] == vs[1];
    NumberTotal(Added(vs[0], vs[1]), vs[2..]);
    var t := Total(vs[0], vs[1..]);
    if t.Number? {
      NumeralsUnnamed(t.number);
    }
    NamesNamed();
    hide Named, Numeral, Digits;
  }

  lemma {:induction false} NaNRead(vs: seq<Primitive>, i: nat)
    requires |vs| >= 2 && NoText(vs) && i < |vs| && vs[i].NaN?
    ensures Total(vs[0], vs[1..]).NaN? && "NaN" != Texts(vs)
  {
    var rest := vs[2..];
    assert vs[1..][1..] == rest && vs[1..][0] == vs[1];
    assert i >= 2 ==> rest[i - 2] == NaN;
    NumberTotal(Added(vs[0], vs[1]), rest);
    var j := if i == 0 then 1 else 0;
    NonEmpty(vs[j]);
    if i == 0 {
      TextsNamed(vs[1..], 0);
    } else {
      assert vs[1..][i - 1] == vs[i];
      TextsNamed(vs[1..], i - 1);
    }
  }

  lemma {:induction false} NonEmpty(v: Primitive)
    requires !v.Str?
    ensures PrimitiveText(v) != ""
  {
    if v.Number? {
      NumeralsUnnamed(v.number);
    }
  }

  /** The position of the first text. */
  function FirstText(vs: seq<Primitive>): (k: nat)
    ensures k <= |vs| && NoText(vs[..k]) && (k < |vs| ==> vs[k].Str?)
  {
    if vs == [] || vs[0].Str? then 0
    else
      var k := FirstText(vs[1..]) + 1;
      assert forall i :: 1 <= i < k ==> vs[i] == vs[1..][..k - 1][i - 1];
      k
  }

  lemma {:induction false} TotalSplits(first: Primitive, a: seq<Primitive>, b: seq<Primitive>)
    ensures Total(first, a + b) == Total(Total(first, a), b)
    decreases |a|
  {
    if a == [] {
      assert a + b == b;
    } else {
      assert (a + b)[1..] == a[1..] + b;
      TotalSplits(Added(first, a[0]), a[1..], b);
    }
  }

  lemma {:induction false} TextsSplit(a: seq<Primitive>, b: seq<Primitive>)
    ensures Texts(a + b) == Texts(a) + Texts(b)
    decreases |a|
  {
    if a == [] {
      assert a + b == b;
    } else {
      assert (a + b)[1..] == a[1..] + b;
      TextsSplit(a[1..], b);
    }
  }

  /** Two or more values in a row add up to their joined texts if and only if one of the first two is a text. */
  lemma {:induction false} TotalIsText(vs: seq<Primitive>)
    requires |vs| >= 2
    ensures PrimitiveText(Total(vs[0], vs[1..])) == Texts(vs) <==> vs[0].Str? || vs[1].Str?
    ensures Total(vs[0], vs[1..]) == Str(Texts(vs)) <==> vs[0].Str? || vs[1].Str?
  {
    var k := FirstText(vs);
    if k < 2 {
      assert k == 0 ==> vs[0].Str?;
      EarlyText(vs);
    } else {
      assert vs[0] == vs[..k][0] && vs[1] == vs[..k][1];
      LateText(vs, k);
    }
  }

  lemma {:induction false} Unfold(first: Primitive, rest: seq<Primitive>)
    requires rest != []
    ensures Total(first, rest) == Total(Added(first, rest[0]), rest[1..])
    ensures Texts(rest) == PrimitiveText(rest[0]) + Texts(rest[1..])
    ensures first.Str? || rest[0].Str? ==> Added(first, rest[0]) == Str(PrimitiveText(first) + PrimitiveText(rest[0]))
  {
  }

  /** From the first text on everything is joined. */
  lemma {:induction false} JoinsFrom(first: Primitive, rest: seq<Primitive>)
    requires rest != [] && (first.Str? || rest[0].Str?)
    ensures Total(first, rest) == Str(PrimitiveText(first) + Texts(rest))
  {
    var (x, y, z) := (PrimitiveText(first), PrimitiveText(rest[0]), Texts(rest[1..]));
    Unfold(first, rest);
    TextTotal(x + y, rest[1..]);
    hide *;
    assert x + y + z == x + (y + z);
  }

  lemma {:induction false} EarlyText(vs: seq<Primitive>)
    requires |vs| >= 2 && (vs[0].Str? || vs[1].Str?)
    ensures Total(vs[0], vs[1..]) == Str(Texts(vs))
  {
    JoinsFrom(vs[0], vs[1..]);
    Unfold(vs[0], vs);
    hide *;
  }

  /** Before the first text there are two or more values that are none. */
  lemma {:induction false} LateText(vs: seq<Primitive>, k: nat)
    requires 2 <= k <= |vs| && NoText(vs[..k]) && (k < |vs| ==> vs[k].Str?)
    ensures PrimitiveText(Total(vs[0], vs[1..])) != Texts(vs) && Total(vs[0], vs[1..]) != Str(Texts(vs))
  {
    var (a, b) := (vs[..k], vs[k..]);
    assert vs == a + b && vs[0] == a[0] && vs[1..] == a[1..] + b;
    NumericReads(a);
    TotalSplits(a[0], a[1..], b);
    TextsSplit(a, b);
    assert b != [] ==> b[0].Str?;
    hide *;
    AfterNumbers(Total(a[0], a[1..]), Texts(a), b);
  }

  lemma {:induction false} AfterNumbers(t: Primitive, read: string, b: seq<Primitive>)
    requires !t.Str? && PrimitiveText(t) != read && (b != [] ==> b[0].Str?)
    ensures PrimitiveText(Total(t, b)) != read + Texts(b) && Total(t, b) != Str(read + Texts(b))
  {
    if b == [] {
      assert Texts(b) == "" && Total(t, b) == t;
      hide *;
      assert read + "" == read;
    } else {
      JoinsFrom(t, b);
      hide *;
      if PrimitiveText(t) + Texts(b) == read + Texts(b) {
        SuffixCancels(PrimitiveText(t), read, Texts(b));
        assert false;
      }
      TextOfText(PrimitiveText(t) + Texts(b));
    }
  }

  lemma {:induction false} TextOfText(s: string)
    ensures PrimitiveText(Str(s)) == s
  {
  }

  lemma {:induction false} SuffixCancels(a: string, b: string, c: string)
    requires a + c == b + c
    ensures a == b
  {
    assert |a + c| == |a| + |c| && |b + c| == |b| + |c|;
    assert a == (a + c)[..|a|] && b == (b + c)[..|b|];
  }
}

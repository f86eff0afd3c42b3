/** Luhn check characters over the base 32 alphabet. */
module Luhn {
  import opened Wrappers
  import opened Base32

  /** What a value adds to the sum where its weight is two: twice the value, its two digits added. */
  function Doubled(v: nat): nat {
    2 * v / 32 + 2 * v % 32
  }

  function Halved(w: nat): nat {
    if w % 2 == 0 then w / 2 else (w + 31) / 2
  }

  lemma {:induction false} DoubledIs(v: nat)
    requires v < 32
    ensures Doubled(v) == if v < 16 then 2 * v else 2 * v - 31
  {
  }

  /** Doubling permutes the values. */
  lemma {:induction false} DoubledPermutes(v: nat, w: nat)
    requires v < 32 && w < 32
    ensures Doubled(v) < 32 && Halved(v) < 32
    ensures Halved(Doubled(v)) == v && Doubled(Halved(w)) == w
  {
    DoubledIs(v);
    DoubledIs(Halved(w));
  }

  lemma {:induction false} SameCheck(a: seq<nat>, b: seq<nat>)
    ensures CheckValue(a) == CheckValue(b) <==> (WeightedSum(a) - WeightedSum(b)) % 32 == 0
  {
    Congruent(WeightedSum(a), WeightedSum(b));
  }

  lemma {:induction false} Congruent(x: nat, y: nat)
    ensures (32 - x % 32) % 32 == (32 - y % 32) % 32 <==> (x - y) % 32 == 0
  {
  }

  /** Weights one and two take turns, starting with one. */
  function Added(v: nat, i: nat): nat {
    if i % 2 == 0 then v else Doubled(v)
  }

  function WeightedSum(values: seq<nat>): nat {
    if values == [] then 0 else WeightedSum(values[..|values| - 1]) + Added(values[|values| - 1], |values| - 1)
  }

  function CheckValue(values: seq<nat>): (check: nat)
    ensures check < 32
  {
    (32 - WeightedSum(values) % 32) % 32
  }

  /** The check value is the only one that makes the sum a multiple of 32. */
  lemma {:induction false} CheckCompletes(values: seq<nat>, check: nat)
    requires check < 32
    ensures check == CheckValue(values) <==> (WeightedSum(values) + check) % 32 == 0
  {
  }

  lemma {:induction false} SumChanged(values: seq<nat>, i: nat, v: nat)
    requires i < |values|
    ensures WeightedSum(values[i := v]) == WeightedSum(values) - Added(values[i], i) + Added(v, i)
    decreases |values|
  {
    var n := |values| - 1;
    var changed := values[i := v];
    if i == n {
      assert changed[..n] == values[..n];
    } else {
      assert changed[..n] == values[..n][i := v];
      SumChanged(values[..n], i, v);
    }
  }

  /** Any single change is detected. */
  lemma {:induction false} ChangeDetected(values: seq<nat>, i: nat, v: nat)
    requires i < |values| && values[i] < 32 && v < 32 && v != values[i]
    ensures CheckValue(values[i := v]) != CheckValue(values)
  {
    var was := values[i];
    SumChanged(values, i, v);
    SameCheck(values[i := v], values);
    hide WeightedSum, CheckValue;
    DoubledIs(was);
    DoubledIs(v);
    hide Doubled;
    assert -32 < Added(v, i) - Added(was, i) < 32 && Added(v, i) != Added(was, i);
  }

  function Swapped<T>(s: seq<T>, i: nat): (r: seq<T>)
    requires i + 1 < |s|
    ensures |r| == |s|
  {
    s[i := s[i + 1]][i + 1 := s[i]]
  }

  /** The two values that a swap exchanges unnoticed. */
  predicate Blind(a: nat, b: nat) {
    (a == 0 && b == 31) || (a == 31 && b == 0)
  }

  /** Of all swaps of two different neighbours, only that of the values 0 and 31 goes unnoticed. */
  lemma {:induction false} SwapDetected(values: seq<nat>, i: nat)
    requires i + 1 < |values| && values[i] < 32 && values[i + 1] < 32
    ensures CheckValue(Swapped(values, i)) == CheckValue(values)
       <==> values[i] == values[i + 1] || Blind(values[i], values[i + 1])
  {
    var (a, b) := (values[i], values[i + 1]);
    SameCheck(Swapped(values, i), values);
    SwapSum(values, i);
    hide WeightedSum, CheckValue, Doubled;
    if i % 2 == 0 {
      WeightGap(a, b);
    } else {
      WeightGap(b, a);
    }
  }

  lemma {:induction false} SwapSum(values: seq<nat>, i: nat)
    requires i + 1 < |values|
    ensures var (a, b) := (values[i], values[i + 1]);
            WeightedSum(Swapped(values, i)) - WeightedSum(values)
            == if i % 2 == 0 then Doubled(a) - a - (Doubled(b) - b) else Doubled(b) - b - (Doubled(a) - a)
  {
    hide WeightedSum, Doubled;
    SumChanged(values, i, values[i + 1]);
    SumChanged(values[i := values[i + 1]], i + 1, values[i]);
  }

  /** How much a value gains by the heavier weight tells it apart from all others, but for 0 and 31. */
  lemma {:induction false} WeightGap(a: nat, b: nat)
    requires a < 32 && b < 32
    ensures (Doubled(a) - a - (Doubled(b) - b)) % 32 == 0 <==> a == b || Blind(a, b)
  {
    DoubledIs(a);
    DoubledIs(b);
    hide Doubled;
  }

  predicate InAlphabet(text: string) {
    forall c <- text :: ValueOf(c).Some?
  }

  function Checksum(text: string): Outcome<char> {
    if InAlphabet(text) then Done(Letter(CheckValue(Values(text)))) else Thrown
  }

  lemma {:induction false} NoSum(text: string)
    ensures WeightedSum(Values(text[..0])) == 0
  {
  }

  lemma {:induction false} NextSum(text: string, i: nat)
    requires i < |text| && InAlphabet(text[..i]) && ValueOf(text[i]).Some?
    ensures InAlphabet(text[..i + 1]) && WeightedSum(Values(text[..i + 1])) == WeightedSum(Values(text[..i])) + Added(ValueOf(text[i]).value, i)
  {
    assert text[..i + 1] == text[..i] + [text[i]];
    assert Values(text[..i + 1])[..i] == Values(text[..i]);
  }

  lemma {:induction false} Weighted(v: nat, i: nat)
    requires v < 32
    ensures var add := if i % 2 == 0 then v else 2 * v;
            Added(v, i) == add / 32 + add % 32
  {
  }

  method GenerateLuhn32Checksum(text: string) returns (r: Outcome<char>)
    ensures r == Checksum(text)
  {
    hide WeightedSum, Doubled, Values;
    var factor, sum, n := 1, 0, 32;
    var i := 0;
    NoSum(text);
    while i < |text|
      invariant 0 <= i <= |text| && n == 32
      invariant factor == if i % 2 == 0 then 1 else 2
      invariant InAlphabet(text[..i]) && sum == WeightedSum(Values(text[..i]))
    {
      var index := ValueOf(text[i]);
      if index.None? {
        return Thrown;
      }
      LetterValues(text[i], 0);
      NextSum(text, i);
      Weighted(index.value, i);
      var add := factor * index.value;
      factor := if factor == 2 then 1 else 2;
      add := add / n + add % n;
      sum := sum + add;
      i := i + 1;
    }
    assert text[..i] == text;
    var remainder := sum % n;
    r := Done(Letter((n - remainder) % n));
  }
}

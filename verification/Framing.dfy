/** Message framing of the block exchange protocol: a 16-bit header length, the header, a 32-bit body length, the body. */
module Framing {
  import opened Wrappers
  import opened Bytes

  datatype Frame = Frame(header: seq<byte>, body: seq<byte>)

  const SHORT_LIMIT: nat := 0x8000
  const INT_LIMIT: nat := 0x8000_0000

  function ShortBytes(n: nat): (b: seq<byte>)
    ensures |b| == 2
  {
    [(n / 0x100 % 0x100) as byte, (n % 0x100) as byte]
  }

  function IntBytes(n: nat): (b: seq<byte>)
    ensures |b| == 4
  {
    [(n / 0x100_0000 % 0x100) as byte, (n / 0x1_0000 % 0x100) as byte, (n / 0x100 % 0x100) as byte, (n % 0x100) as byte]
  }

  /** Both numbers are signed when they are read. */
  function ShortOf(b: seq<byte>): int
    requires |b| == 2
  {
    var n := b[0] as int * 0x100 + b[1] as int;
    if n < SHORT_LIMIT then n else n - 0x1_0000
  }

  function IntOf(b: seq<byte>): int
    requires |b| == 4
  {
    var n := b[0] as int * 0x100_0000 + b[1] as int * 0x1_0000 + b[2] as int * 0x100 + b[3] as int;
    if n < INT_LIMIT then n else n - 0x1_0000_0000
  }

  lemma {:induction false} ShortRoundTrip(n: nat)
    ensures var m := n % 0x1_0000;
            ShortOf(ShortBytes(n)) == if m < SHORT_LIMIT then m else m - 0x1_0000
  {
    var (h, l) := (n / 0x100, n % 0x100);
    assert n == 0x100 * h + l;
    assert h == 0x100 * (h / 0x100) + h % 0x100;
    assert n == 0x1_0000 * (h / 0x100) + (0x100 * (h % 0x100) + l);
  }

  lemma {:induction false} IntRoundTrip(n: nat)
    ensures var m := n % 0x1_0000_0000;
            IntOf(IntBytes(n)) == if m < INT_LIMIT then m else m - 0x1_0000_0000
  {
    var (a, b, c) := (n / 0x100, n / 0x1_0000, n / 0x100_0000);
    Quotients(n);
    FourDigits(n, a, b, c, c / 0x100, n % 0x100, a % 0x100, b % 0x100, c % 0x100);
  }

  lemma {:induction false} Quotients(n: nat)
    ensures n / 0x100 / 0x100 == n / 0x1_0000 && n / 0x1_0000 / 0x100 == n / 0x100_0000
  {
  }

  lemma {:induction false} FourDigits(n: nat, a: nat, b: nat, c: nat, e: nat, d0: nat, d1: nat, d2: nat, d3: nat)
    requires n == 0x100 * a + d0 && a == 0x100 * b + d1 && b == 0x100 * c + d2 && c == 0x100 * e + d3
    requires d0 < 0x100 && d1 < 0x100 && d2 < 0x100 && d3 < 0x100
    ensures n % 0x1_0000_0000 == 0x100_0000 * d3 + 0x1_0000 * d2 + 0x100 * d1 + d0
  {
    var low := 0x100_0000 * d3 + 0x1_0000 * d2 + 0x100 * d1 + d0;
    Remainder(e, low);
    assert n == 0x1_0000_0000 * e + low;
  }

  lemma {:induction false} Remainder(e: nat, low: nat)
    requires low < 0x1_0000_0000
    ensures (0x1_0000_0000 * e + low) % 0x1_0000_0000 == low
  {
  }

  // ----- sending and receiving

  function Sent(f: Frame): seq<byte> {
    ShortBytes(|f.header|) + f.header + (IntBytes(|f.body|) + f.body)
  }

  datatype Received = Received(frame: Frame, rest: seq<byte>)

  /** The first length that is not zero, with what follows it; running out of bytes is an exception. */
  function SkipShorts(input: seq<byte>): Outcome<(int, seq<byte>)>
    decreases |input|
  {
    if |input| < 2 then Thrown
    else if ShortOf(input[..2]) == 0 then SkipShorts(input[2..])
    else Done((ShortOf(input[..2]), input[2..]))
  }

  function SkipInts(input: seq<byte>): Outcome<(int, seq<byte>)>
    decreases |input|
  {
    if |input| < 4 then Thrown
    else if IntOf(input[..4]) == 0 then SkipInts(input[4..])
    else Done((IntOf(input[..4]), input[4..]))
  }

  function Receive(input: seq<byte>): Outcome<Received> {
    var h := SkipShorts(input);
    if h.Thrown? || h.value.0 < 0 || h.value.0 > |h.value.1| then Thrown
    else
      var (header, after) := (h.value.1[..h.value.0], h.value.1[h.value.0..]);
      var b := SkipInts(after);
      if b.Thrown? || b.value.0 < 0 || b.value.0 > |b.value.1| then Thrown
      else Done(Received(Frame(header, b.value.1[..b.value.0]), b.value.1[b.value.0..]))
  }

  /** The frames that the lengths can carry and that the receiver does not take for filling. */
  predicate Carried(f: Frame) {
    1 <= |f.header| < SHORT_LIMIT && 1 <= |f.body| < INT_LIMIT
  }

  /** A frame on the wire, with zero shorts before it and zero ints before its body. */
  datatype Padded = Padded(frame: Frame, shorts: nat, ints: nat)

  function Wire(p: Padded): seq<byte> {
    Repeated(0, 2 * p.shorts) + (ShortBytes(|p.frame.header|) + p.frame.header + (Repeated(0, 4 * p.ints) + (IntBytes(|p.frame.body|) + p.frame.body)))
  }

  lemma {:induction false} ShortsSkipped(n: nat, input: seq<byte>)
    ensures SkipShorts(Repeated(0, 2 * n) + input) == SkipShorts(input)
  {
    var all := Repeated(0, 2 * n) + input;
    if n == 0 {
      assert all == input;
    } else {
      assert all[2..] == Repeated(0, 2 * (n - 1)) + input;
      ShortsSkipped(n - 1, input);
    }
  }

  lemma {:induction false} IntsSkipped(n: nat, input: seq<byte>)
    ensures SkipInts(Repeated(0, 4 * n) + input) == SkipInts(input)
  {
    var all := Repeated(0, 4 * n) + input;
    if n == 0 {
      assert all == input;
    } else {
      assert all[4..] == Repeated(0, 4 * (n - 1)) + input;
      IntsSkipped(n - 1, input);
    }
  }

  lemma {:induction false} LengthsRead(f: Frame, x: seq<byte>, y: seq<byte>)
    requires Carried(f)
    ensures SkipShorts(ShortBytes(|f.header|) + x) == Done((|f.header|, x))
    ensures SkipInts(IntBytes(|f.body|) + y) == Done((|f.body|, y))
  {
    ShortRoundTrip(|f.header|);
    IntRoundTrip(|f.body|);
    var (s, i) := (ShortBytes(|f.header|) + x, IntBytes(|f.body|) + y);
    assert s[..2] == ShortBytes(|f.header|) && s[2..] == x;
    assert i[..4] == IntBytes(|f.body|) && i[4..] == y;
    hide ShortBytes, IntBytes, ShortOf, IntOf;
  }

  lemma {:induction false} FrameRegroups(a: seq<byte>, b: seq<byte>, c: seq<byte>, d: seq<byte>, e: seq<byte>, f: seq<byte>, g: seq<byte>)
    ensures a + (b + c + (d + (e + f))) + g == a + (b + (c + (d + (e + (f + g)))))
  {
    assert e + f + g == e + (f + g);
    assert d + (e + f) + g == d + (e + f + g);
    assert b + c + (d + (e + f)) + g == b + (c + (d + (e + f) + g));
    assert a + (b + c + (d + (e + f))) + g == a + (b + c + (d + (e + f)) + g);
  }

  /** One frame, with any filling, is received as it was sent, and what follows it is left. */
  lemma {:induction false} WireReceived(p: Padded, tail: seq<byte>)
    requires Carried(p.frame)
    ensures Receive(Wire(p) + tail) == Done(Received(p.frame, tail))
  {
    var f := p.frame;
    var body := f.body + tail;
    var rest := Repeated(0, 4 * p.ints) + (IntBytes(|f.body|) + body);
    var head := f.header + rest;
    LengthsRead(f, head, body);
    ShortsSkipped(p.shorts, ShortBytes(|f.header|) + head);
    IntsSkipped(p.ints, IntBytes(|f.body|) + body);
    hide SkipShorts, SkipInts, ShortBytes, IntBytes;
    FrameRegroups(Repeated(0, 2 * p.shorts), ShortBytes(|f.header|), f.header, Repeated(0, 4 * p.ints), IntBytes(|f.body|), f.body, tail);
    assert head[..|f.header|] == f.header && head[|f.header|..] == rest;
    assert body[..|f.body|] == f.body && body[|f.body|..] == tail;
  }

  function WireAll(ps: seq<Padded>): seq<byte> {
    if ps == [] then [] else Wire(ps[0]) + WireAll(ps[1..])
  }

  function ReceiveMany(n: nat, input: seq<byte>): Outcome<(seq<Frame>, seq<byte>)> {
    if n == 0 then Done(([], input))
    else
      var first := Receive(input);
      if first.Thrown? then Thrown
      else
        var rest := ReceiveMany(n - 1, first.value.rest);
        if rest.Thrown? then Thrown else Done(([first.value.frame] + rest.value.0, rest.value.1))
  }

  function Frames(ps: seq<Padded>): seq<Frame> {
    seq(|ps|, i requires 0 <= i < |ps| => ps[i].frame)
  }

  /** Any sequence of carried frames, framed and joined with any filling between them, is received exactly. */
  lemma {:induction false} FramingRoundTrip(ps: seq<Padded>, tail: seq<byte>)
    requires forall p <- ps :: Carried(p.frame)
    ensures ReceiveMany(|ps|, WireAll(ps) + tail) == Done((Frames(ps), tail))
    decreases |ps|
  {
    hide Receive, Wire;
    if ps == [] {
      assert WireAll(ps) + tail == tail;
    } else {
      assert ps[0] in ps;
      WireReceived(ps[0], WireAll(ps[1..]) + tail);
      assert WireAll(ps) + tail == Wire(ps[0]) + (WireAll(ps[1..]) + tail);
      FramingRoundTrip(ps[1..], tail);
      assert Frames(ps) == [ps[0].frame] + Frames(ps[1..]);
    }
  }

  lemma {:induction false} SkippedIsShort(input: seq<byte>)
    ensures SkipShorts(input).Done? ==> SkipShorts(input).value.0 != 0 && SkipShorts(input).value.0 < SHORT_LIMIT
    decreases |input|
  {
    if |input| >= 2 {
      SkippedIsShort(input[2..]);
    }
  }

  lemma {:induction false} SkippedIsInt(input: seq<byte>)
    ensures SkipInts(input).Done? ==> SkipInts(input).value.0 != 0 && SkipInts(input).value.0 < INT_LIMIT
    decreases |input|
  {
    if |input| >= 4 {
      SkippedIsInt(input[4..]);
    }
  }

  /** A sent frame arrives whatever follows it exactly if it is carried: an empty body, as a ping has, a longer header
      or a longer body never does. */
  lemma {:induction false} ArrivesExactly(f: Frame)
    ensures Carried(f) <==> forall tail: seq<byte> :: Receive(Sent(f) + tail) == Done(Received(f, tail))
  {
    if Carried(f) {
      forall tail: seq<byte> ensures Receive(Sent(f) + tail) == Done(Received(f, tail)) {
        WireReceived(Padded(f, 0, 0), tail);
        assert Wire(Padded(f, 0, 0)) == Sent(f) by {
          assert Repeated(0, 0) + (IntBytes(|f.body|) + f.body) == IntBytes(|f.body|) + f.body;
        }
      }
    } else {
      var tail: seq<byte> := [];
      var r := Receive(Sent(f) + tail);
      SkippedIsShort(Sent(f) + tail);
      var h := SkipShorts(Sent(f) + tail);
      if r.Done? {
        SkippedIsInt(h.value.1[h.value.0..]);
        assert Carried(r.value.frame);
      }
      assert r != Done(Received(f, tail));
    }
  }

  // ----- the connection's two ends

  class Sender {
    var output: seq<byte>

    constructor ()
      ensures output == []
    {
      output := [];
    }

    method SendMessage(f: Frame)
      modifies this
      ensures output == old(output) + Sent(f)
    {
      output := output + ShortBytes(|f.header|);
      output := output + f.header;
      output := output + IntBytes(|f.body|);
      output := output + f.body;
      assert output == old(output) + (ShortBytes(|f.header|) + f.header + (IntBytes(|f.body|) + f.body));
    }
  }

  class Receiver {
    var input: seq<byte>

    constructor (input: seq<byte>)
      ensures this.input == input
    {
      this.input := input;
    }

    method ReadShort() returns (n: Outcome<int>)
      modifies this
      ensures if |old(input)| < 2 then n == Thrown && input == [] else n == Done(ShortOf(old(input)[..2])) && input == old(input)[2..]
    {
      if |input| < 2 {
        input := [];
        return Thrown;
      }
      n := Done(ShortOf(input[..2]));
      input := input[2..];
    }

    method ReadInt() returns (n: Outcome<int>)
      modifies this
      ensures if |old(input)| < 4 then n == Thrown && input == [] else n == Done(IntOf(old(input)[..4])) && input == old(input)[4..]
    {
      if |input| < 4 {
        input := [];
        return Thrown;
      }
      n := Done(IntOf(input[..4]));
      input := input[4..];
    }

    method ReceiveMessage() returns (r: Outcome<Frame>)
      modifies this
      ensures var received := Receive(old(input));
              && r.Done? == received.Done?
              && (r.Done? ==> r.value == received.value.frame && input == received.value.rest)
    {
      hide ShortOf, IntOf;
      var length := ReadShort();
      while length == Done(0)
        invariant SkipShorts(old(input)) == if length == Done(0) then SkipShorts(input) else if length.Thrown? then Thrown else Done((length.value, input))
        decreases |input|, if length == Done(0) then 1 else 0
      {
        length := ReadShort();
      }
      if length.Thrown? || length.value < 0 || length.value > |input| {
        return Thrown;
      }
      var header := input[..length.value];
      input := input[length.value..];
      ghost var body := input;
      length := ReadInt();
      while length == Done(0)
        invariant SkipInts(body) == if length == Done(0) then SkipInts(input) else if length.Thrown? then Thrown else Done((length.value, input))
        decreases |input|, if length == Done(0) then 1 else 0
      {
        length := ReadInt();
      }
      if length.Thrown? || length.value < 0 || length.value > |input| {
        return Thrown;
      }
      r := Done(Frame(header, input[..length.value]));
      input := input[length.value..];
    }
  }
}

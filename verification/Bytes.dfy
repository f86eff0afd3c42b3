/** Bytes, and the joining of chunks of them. */
module Bytes {

  newtype byte = b: int | 0 <= b < 256

  function Flatten<T>(chunks: seq<seq<T>>): seq<T> {
    if chunks == [] then [] else chunks[0] + Flatten(chunks[1..])
  }

  lemma {:induction false} FlattenAppend<T>(a: seq<seq<T>>, b: seq<seq<T>>)
    ensures Flatten(a + b) == Flatten(a) + Flatten(b)
    decreases |a|
  {
    if a == [] {
      assert a + b == b;
    } else {
      assert (a + b)[0] == a[0] && (a + b)[1..] == a[1..] + b;
      FlattenAppend(a[1..], b);
      assert a[0] + (Flatten(a[1..]) + Flatten(b)) == a[0] + Flatten(a[1..]) + Flatten(b);
    }
  }

  lemma {:induction false} FlattenSnoc<T>(a: seq<seq<T>>, x: seq<T>)
    ensures Flatten(a + [x]) == Flatten(a) + x
  {
    FlattenAppend(a, [x]);
    assert [x][1..] == [] && x + [] == x;
    assert Flatten([x]) == x;
  }

  /** Joining fewer chunks gives a prefix, also when part of the next chunk follows. */
  lemma {:induction false} FlattenPrefix<T>(chunks: seq<seq<T>>, n: nat, part: seq<T>)
    requires n <= |chunks|
    requires part == [] || (n < |chunks| && part <= chunks[n])
    ensures Flatten(chunks[..n]) + part <= Flatten(chunks)
  {
    assert chunks == chunks[..n] + chunks[n..];
    FlattenAppend(chunks[..n], chunks[n..]);
    if n < |chunks| {
      assert chunks[n..][0] == chunks[n];
      assert part <= Flatten(chunks[n..]);
    }
  }
}

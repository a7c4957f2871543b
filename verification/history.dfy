/**
 * The bounded history of sc.util.apen as a sequence value: the samples
 * retained in `test_value[0 .. series_length)`, oldest first.
 */
module History {

  function Min(a: int, b: int): int { if a < b then a else b }

  /** The last `n` elements of `x` (all of `x` when it is shorter). */
  function LastN(x: seq<real>, n: nat): (t: seq<real>)
    ensures |t| == Min(|x|, n)
  {
    if |x| <= n then x else x[|x| - n..]
  }

  /** One sample arriving at a buffer of the given capacity: written after
      the retained samples when there is room, otherwise the oldest sample
      is dropped and the rest move one place towards the front. */
  function Push(s: seq<real>, capacity: int, v: real): (t: seq<real>)
    requires 0 < capacity && |s| <= capacity
    ensures |t| == Min(|s| + 1, capacity)
    ensures t[|t| - 1] == v
  {
    if |s| < capacity then s + [v] else s[1..] + [v]
  }

  /** A run of samples arriving one after another. */
  function Feed(s: seq<real>, capacity: int, vs: seq<real>): (t: seq<real>)
    requires 0 < capacity && |s| <= capacity
    ensures |t| <= capacity
    decreases |vs|
  {
    if vs == [] then s else Feed(Push(s, capacity, vs[0]), capacity, vs[1..])
  }

  /** A push keeps the newest `capacity` samples of what arrived so far. */
  lemma PushKeepsNewest(s: seq<real>, capacity: int, v: real)
    requires 0 < capacity && |s| <= capacity
    ensures Push(s, capacity, v) == LastN(s + [v], capacity)
  {
  }

  lemma LastNAbsorbs(x: seq<real>, y: seq<real>, n: nat)
    ensures LastN(LastN(x, n) + y, n) == LastN(x + y, n)
  {
  }

  /** Any run of samples leaves the newest `capacity` of the old contents
      followed by the run, in arrival order. */
  lemma {:induction false} FeedKeepsNewest(s: seq<real>, capacity: int, vs: seq<real>)
    requires 0 < capacity && |s| <= capacity
    ensures Feed(s, capacity, vs) == LastN(s + vs, capacity)
    decreases |vs|
  {
    if vs == [] {
      assert s + vs == s;
    } else {
      var s' := Push(s, capacity, vs[0]);
      FeedKeepsNewest(s', capacity, vs[1..]);
      PushKeepsNewest(s, capacity, vs[0]);
      LastNAbsorbs(s + [vs[0]], vs[1..], capacity);
      assert s + [vs[0]] + vs[1..] == s + vs;
    }
  }

  /** After N appends to an empty buffer of capacity C the buffer holds the
      last min(N, C) inputs in arrival order. */
  lemma AppendsFromEmpty(capacity: int, vs: seq<real>)
    requires 0 < capacity
    ensures |Feed([], capacity, vs)| == Min(|vs|, capacity)
    ensures Feed([], capacity, vs) == vs[|vs| - Min(|vs|, capacity)..]
  {
    FeedKeepsNewest([], capacity, vs);
    assert [] + vs == vs;
  }
}

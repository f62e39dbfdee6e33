/** The beginning and the rest of a sequence, as SQL's LIMIT and OFFSET and Python's slices give them. */
module Slices {

  function Take<T>(s: seq<T>, n: nat): seq<T> { if n < |s| then s[..n] else s }

  function Drop<T>(s: seq<T>, n: nat): seq<T> { if n < |s| then s[n..] else [] }

  /** The two parts make up the sequence, and the first has n elements if there are as many. */
  lemma TakeDrop<T>(s: seq<T>, n: nat)
    ensures Take(s, n) + Drop(s, n) == s && |Take(s, n)| == if n <= |s| then n else |s|
  {
  }
}

/**
 What the release digest is taken over (tools/release.py, `_release_input_digest`): for each source file
 the length of its path in four bytes, the path, and the 32 bytes of its hash.
 */
module InputDigest {
  import opened Wrappers
  import opened Base64Url

  datatype Input = Input(path: seq<byte>, hash: seq<byte>)

  const HASH_SIZE := 32

  predicate WellFormed(inputs: seq<Input>) {
    forall i :: 0 <= i < |inputs| ==> |inputs[i].path| < 0x1_0000_0000 && |inputs[i].hash| == HASH_SIZE
  }

  /** `len(path).to_bytes(4, "big")`. */
  function Length4(n: nat): (r: seq<byte>)
    requires n < 0x1_0000_0000
    ensures |r| == 4
  {
    var q1 := n / 0x100;
    var q2 := q1 / 0x100;
    [q2 / 0x100, q2 % 0x100, q1 % 0x100, n % 0x100]
  }

  function ReadLength(b: seq<byte>): nat
    requires |b| >= 4
  {
    ((b[0] as int * 0x100 + b[1] as int) * 0x100 + b[2] as int) * 0x100 + b[3] as int
  }

  lemma LengthRoundTrip(n: nat)
    requires n < 0x1_0000_0000
    ensures ReadLength(Length4(n)) == n
  {
  }

  function One(input: Input): seq<byte>
    requires |input.path| < 0x1_0000_0000
  {
    Length4(|input.path|) + input.path + input.hash
  }

  /** The bytes the digest is updated with, in order. */
  function Stream(inputs: seq<Input>): seq<byte>
    requires WellFormed(inputs)
  {
    if inputs == [] then [] else One(inputs[0]) + Stream(inputs[1..])
  }

  /** Reads back what was streamed. */
  function Parse(b: seq<byte>): Option<seq<Input>>
    decreases |b|
  {
    if b == [] then Some([])
    else if |b| < 4 || |b| < 4 + ReadLength(b) + HASH_SIZE then None
    else
      var n := 4 + ReadLength(b);
      match Parse(b[n + HASH_SIZE..])
      case None => None
      case Some(rest) => Some([Input(b[4..n], b[n..n + HASH_SIZE])] + rest)
  }

  lemma ParseOne(input: Input, rest: seq<byte>)
    requires |input.path| < 0x1_0000_0000 && |input.hash| == HASH_SIZE
    ensures var b, n := One(input) + rest, 4 + |input.path|;
      && |b| == n + HASH_SIZE + |rest| && ReadLength(b) == |input.path|
      && b[4..n] == input.path && b[n..n + HASH_SIZE] == input.hash && b[n + HASH_SIZE..] == rest
  {
    var b := One(input) + rest;
    LengthRoundTrip(|input.path|);
    assert b[..4] == Length4(|input.path|);
    assert b[0] == b[..4][0] && b[1] == b[..4][1] && b[2] == b[..4][2] && b[3] == b[..4][3];
  }

  lemma {:induction false} ParseStream(inputs: seq<Input>)
    requires WellFormed(inputs)
    ensures Parse(Stream(inputs)) == Some(inputs)
  {
    if inputs != [] {
      ParseStream(inputs[1..]);
      ParseOne(inputs[0], Stream(inputs[1..]));
      assert inputs == [inputs[0]] + inputs[1..];
    }
  }

  /** Two lists of (path, hash) that feed the digest the same bytes are the same list. */
  lemma StreamIsInjective(xs: seq<Input>, ys: seq<Input>)
    requires WellFormed(xs) && WellFormed(ys) && Stream(xs) == Stream(ys)
    ensures xs == ys
  {
    ParseStream(xs);
    ParseStream(ys);
  }

  lemma Regroup(stream: seq<byte>, input: Input, rest: seq<byte>)
    requires |input.path| < 0x1_0000_0000
    ensures stream + Length4(|input.path|) + input.path + input.hash + rest == stream + (One(input) + rest)
  {
  }

  /** The loop that updates the digest. */
  method Digest(inputs: seq<Input>) returns (stream: seq<byte>)
    requires WellFormed(inputs)
    ensures stream == Stream(inputs)
  {
    stream := [];
    for i := 0 to |inputs|
      invariant stream + Stream(inputs[i..]) == Stream(inputs)
    {
      Regroup(stream, inputs[i], Stream(inputs[i + 1..]));
      stream := stream + Length4(|inputs[i].path|);
      stream := stream + inputs[i].path;
      stream := stream + inputs[i].hash;
      assert inputs[i..][0] == inputs[i] && inputs[i..][1..] == inputs[i + 1..];
    }
  }
}

/** Streaming 16 kHz to 24 kHz linear interpolation. Positions are counted in thirds of
    an input sample, so output number k sits at position 2k. */
module Resampler {
  import opened Texts
  import opened Wrappers

  type Byte = b: int | 0 <= b < 256
  type Sample = s: int | -32768 <= s < 32768

  function ReadInt16(low: Byte, high: Byte): Sample {
    if high < 128 then low + 256 * high else low + 256 * high - 65536
  }

  function WriteInt16(s: Sample): seq<Byte> {
    var u := if s < 0 then s + 65536 else s;
    [u % 256, u / 256]
  }

  function Decode(pcm: seq<Byte>): (r: seq<Sample>)
    requires |pcm| % 2 == 0
    ensures |r| == |pcm| / 2
    ensures forall i :: 0 <= i < |r| ==> r[i] == ReadInt16(pcm[2 * i], pcm[2 * i + 1])
  {
    seq(|pcm| / 2, i requires 0 <= i < |pcm| / 2 => ReadInt16(pcm[2 * i], pcm[2 * i + 1]))
  }

  function Encode(samples: seq<Sample>): seq<Byte> {
    if samples == [] then [] else WriteInt16(samples[0]) + Encode(samples[1..])
  }

  lemma {:induction false} EncodeConcat(a: seq<Sample>, b: seq<Sample>)
    ensures Encode(a + b) == Encode(a) + Encode(b)
  {
    if a == [] {
      assert a + b == b;
    } else {
      assert (a + b)[1..] == a[1..] + b;
      EncodeConcat(a[1..], b);
    }
  }

  lemma {:induction false} DecodeEncode(samples: seq<Sample>)
    ensures |Encode(samples)| == 2 * |samples| && Decode(Encode(samples)) == samples
  {
    if samples != [] {
      DecodeEncode(samples[1..]);
      var rest := Encode(samples[1..]);
      forall i | 0 <= i < |samples|
        ensures Decode(Encode(samples))[i] == samples[i]
      {
        if i > 0 {
          assert Encode(samples)[2 * i] == rest[2 * (i - 1)] && Encode(samples)[2 * i + 1] == rest[2 * (i - 1) + 1];
          assert Decode(rest)[i - 1] == samples[1..][i - 1];
        }
      }
    }
  }

  // ----- The batch definition -----

  /** Math.round of thirds / 3: half up, though a third is never a half. */
  function RoundThird(thirds: int): int {
    (2 * thirds + 3) / 6
  }

  function Interpolate(a: Sample, b: Sample, third: nat): (r: Sample)
    requires third < 3
    ensures a <= r <= b || b <= r <= a
    ensures -3 < 2 * (3 * r - (3 * a + (b - a) * third)) < 3
  {
    RoundThird(3 * a + (b - a) * third)
  }

  /** The input sample at `i`, or the last one held once past the end. */
  function Held(input: seq<Sample>, i: nat): Sample
    requires input != []
  {
    if i < |input| then input[i] else input[|input| - 1]
  }

  function Output(input: seq<Sample>, k: nat): Sample
    requires 2 * k < 3 * |input|
  {
    Interpolate(input[2 * k / 3], Held(input, 2 * k / 3 + 1), 2 * k % 3)
  }

  /** How many outputs can be written: a non-final push waits for the next sample. */
  function Ready(n: nat, final: bool): nat {
    if final then (3 * n + 1) / 2 else if n == 0 then 0 else (3 * n - 2) / 2
  }

  function Outputs(input: seq<Sample>, from: nat, to: nat): (r: seq<Sample>)
    requires from <= to <= Ready(|input|, true)
    ensures |r| == to - from
    ensures forall j :: 0 <= j < |r| ==> r[j] == Output(input, from + j)
  {
    seq<Sample>(to - from, j requires 0 <= j < to - from => Output(input, from + j))
  }

  function Batch(input: seq<Sample>): (r: seq<Sample>)
    ensures |r| == (3 * |input| + 1) / 2
  {
    Outputs(input, 0, Ready(|input|, true))
  }

  /** Every output lies between its two neighbouring inputs, so a 16-bit write never
      overflows, and every even third output is an input sample unchanged. */
  lemma OutputBetweenNeighbours(input: seq<Sample>, k: nat)
    requires 2 * k < 3 * |input|
    ensures var a, b, r := input[2 * k / 3], Held(input, 2 * k / 3 + 1), Output(input, k);
            (a <= r <= b || b <= r <= a) && (k % 3 == 0 ==> r == input[2 * (k / 3)])
  {
    assert k % 3 == 0 ==> 2 * k / 3 == 2 * (k / 3) && 2 * k % 3 == 0;
  }

  /** Three outputs to two samples: the first is a sample itself, the second two thirds of the way to the next
      sample, the third one third of the way on from there, each the nearest whole number; past the end the last
      sample is held. */
  lemma OutputsAreThirds(input: seq<Sample>, j: nat, a: Sample, b: Sample, c: Sample)
    requires 2 * j < |input| && a == input[2 * j]
    requires b == if 2 * j + 1 < |input| then input[2 * j + 1] else a
    requires c == if 2 * j + 2 < |input| then input[2 * j + 2] else b
    ensures Output(input, 3 * j) == a
    ensures -1 <= 3 * Output(input, 3 * j + 1) - (a + 2 * b) <= 1
    ensures 2 * j + 1 < |input| ==> -1 <= 3 * Output(input, 3 * j + 2) - (2 * b + c) <= 1
  {
    var k := 3 * j;
    assert 2 * k / 3 == 2 * j && 2 * k % 3 == 0;
    assert 2 * (k + 1) / 3 == 2 * j && 2 * (k + 1) % 3 == 2;
    assert 2 * (k + 2) / 3 == 2 * j + 1 && 2 * (k + 2) % 3 == 1;
    hide RoundThird;
  }

  /** An output is written as soon as the sample after it is there, and on the last push when its own is. */
  lemma ReadyIff(n: nat, k: nat)
    ensures k < Ready(n, false) <==> 2 * k + 3 < 3 * n
    ensures k < Ready(n, true) <==> 2 * k < 3 * n
  {
  }

  /** Samples are little-endian two's complement. */
  lemma SamplesAreLittleEndian(low: Byte, high: Byte)
    ensures ReadInt16(low, high) % 65_536 == low + 256 * high
    ensures WriteInt16(ReadInt16(low, high)) == [low, high]
  {
  }

  lemma OutputIsStable(input: seq<Sample>, more: seq<Sample>, k: nat)
    requires 2 * k + 3 < 3 * |input|
    ensures Output(input + more, k) == Output(input, k)
  {
  }

  // ----- Chunked runs -----

  /** What pushing `chunks` writes, only the last push being final. */
  function Streamed(fed: seq<Sample>, emitted: nat, chunks: seq<seq<Sample>>): seq<Sample>
    requires emitted <= Ready(|fed|, false)
    decreases |chunks|
  {
    if chunks == [] then []
    else
      var all := fed + chunks[0];
      var upTo := Ready(|all|, |chunks| == 1);
      Outputs(all, emitted, upTo) + if |chunks| == 1 then [] else Streamed(all, upTo, chunks[1..])
  }

  lemma OutputsArePrefix(all: seq<Sample>, rest: seq<Sample>, from: nat, to: nat)
    requires from <= to <= Ready(|all|, false)
    ensures Outputs(all, from, to) == Outputs(all + rest, from, to)
  {
  }

  lemma OutputsJoin(input: seq<Sample>, from: nat, mid: nat, to: nat)
    requires from <= mid <= to <= Ready(|input|, true)
    ensures Outputs(input, from, mid) + Outputs(input, mid, to) == Outputs(input, from, to)
  {
  }

  lemma {:induction false} StreamedIsBatchTail(fed: seq<Sample>, emitted: nat, chunks: seq<seq<Sample>>)
    requires emitted <= Ready(|fed|, false) && chunks != []
    ensures var input := fed + Flatten(chunks);
            Streamed(fed, emitted, chunks) == Outputs(input, emitted, Ready(|input|, true))
    decreases |chunks|
  {
    var all := fed + chunks[0];
    var input := fed + Flatten(chunks);
    assert input == all + Flatten(chunks[1..]);
    if |chunks| == 1 {
      assert input == all;
    } else {
      var upTo := Ready(|all|, false);
      StreamedIsBatchTail(all, upTo, chunks[1..]);
      OutputsArePrefix(all, Flatten(chunks[1..]), emitted, upTo);
      OutputsJoin(input, emitted, upTo, Ready(|input|, true));
    }
  }

  /** Any chunking, empty chunks included, writes exactly the batch result. */
  lemma ChunkInvariance(chunks: seq<seq<Sample>>)
    requires chunks != []
    ensures Streamed([], 0, chunks) == Batch(Flatten(chunks))
  {
    StreamedIsBatchTail([], 0, chunks);
    assert [] + Flatten(chunks) == Flatten(chunks);
  }

  // ----- The resampler object -----

  method Serialize(output: seq<Sample>) returns (buffer: seq<Byte>)
    ensures buffer == Encode(output)
  {
    buffer := [];
    var j := 0;
    while j < |output|
      invariant 0 <= j <= |output|
      invariant buffer == Encode(output[..j])
    {
      EncodeConcat(output[..j], [output[j]]);
      assert output[..j + 1] == output[..j] + [output[j]];
      buffer := buffer + WriteInt16(output[j]);
      j := j + 1;
    }
    assert output[..j] == output;
  }

  lemma PositionSplit(dropped: nat, position: nat, emitted: nat)
    requires 3 * dropped + position == 2 * emitted
    ensures 2 * emitted / 3 == dropped + position / 3 && 2 * emitted % 3 == position % 3
  {
  }

  class Resampler {
    var samples: seq<Sample>
    var position: nat
    ghost var fed: seq<Sample>
    ghost var emitted: nat
    ghost var dropped: nat

    ghost predicate Valid()
      reads this
    {
      && dropped <= |fed| && samples == fed[dropped..]
      && 3 * dropped + position == 2 * emitted
      && emitted <= Ready(|fed|, true)
    }

    constructor ()
      ensures Valid() && fed == [] && emitted == 0
    {
      samples, position := [], 0;
      fed, emitted, dropped := [], 0, 0;
    }

    method Load(pcm: seq<Byte>)
      requires Valid() && |pcm| % 2 == 0
      modifies this`samples, this`fed
      ensures Valid() && fed == old(fed) + Decode(pcm)
    {
      var i := 0;
      while i < |pcm|
        invariant 0 <= i <= |pcm| && i % 2 == 0
        invariant samples == old(samples) + Decode(pcm)[..i / 2]
        invariant fed == old(fed)
      {
        samples := samples + [ReadInt16(pcm[i], pcm[i + 1])];
        i := i + 2;
      }
      assert Decode(pcm)[..i / 2] == Decode(pcm);
      fed := fed + Decode(pcm);
    }

    method Produce(final: bool) returns (output: seq<Sample>)
      requires Valid()
      modifies this`position, this`emitted
      ensures Valid() && emitted == Max(old(emitted), Ready(|fed|, final))
      ensures output == Outputs(fed, old(emitted), emitted)
    {
      output := [];
      while position < |samples| * 3 && (final || position + 3 < |samples| * 3)
        invariant Valid()
        invariant old(emitted) <= emitted <= Max(old(emitted), Ready(|fed|, final))
        invariant output == Outputs(fed, old(emitted), emitted)
        decreases |samples| * 3 - position
      {
        var i := position / 3;
        var fraction := position % 3;
        var a := samples[i];
        var b := if i + 1 < |samples| then samples[i + 1] else a;
        PositionSplit(dropped, position, emitted);
        var sample := Interpolate(a, b, fraction);
        assert sample == Output(fed, emitted);
        output := output + [sample];
        position := position + 2;
        emitted := emitted + 1;
      }
    }

    /** Drop the input samples that no later output needs. */
    method Trim()
      requires Valid()
      modifies this`samples, this`position, this`dropped
      ensures Valid() && (samples == [] || position < 3)
    {
      var consumed := Min(position / 3, |samples|);
      samples := samples[consumed..];
      position := position - consumed * 3;
      dropped := dropped + consumed;
    }

    /** None is the error for a buffer that is not made of whole samples. */
    method Push(pcm: seq<Byte>, final: bool) returns (r: Option<seq<Byte>>)
      requires Valid()
      modifies this
      ensures Valid()
      ensures r == None <==> |pcm| % 2 != 0
      ensures r == None ==> fed == old(fed) && emitted == old(emitted)
      ensures r.Some? ==> fed == old(fed) + Decode(pcm)
      ensures r.Some? ==> emitted == Max(old(emitted), Ready(|fed|, final))
      ensures r.Some? ==> r.value == Encode(Outputs(fed, old(emitted), emitted))
      ensures r.Some? ==> samples == [] || position < 3
    {
      if |pcm| % 2 != 0 { return None; }
      Load(pcm);
      var output := Produce(final);
      Trim();
      var buffer := Serialize(output);
      return Some(buffer);
    }
  }

  // ----- A whole stream through one object -----

  lemma DecodeConcat(a: seq<Byte>, b: seq<Byte>)
    requires |a| % 2 == 0 && |b| % 2 == 0
    ensures Decode(a + b) == Decode(a) + Decode(b)
  {
    forall i | 0 <= i < |Decode(a + b)| ensures Decode(a + b)[i] == (Decode(a) + Decode(b))[i] {
      if i >= |Decode(a)| { assert (a + b)[2 * i] == b[2 * (i - |Decode(a)|)]; }
    }
  }

  lemma {:induction false} FlattenLast<T>(chunks: seq<seq<T>>, last: seq<T>)
    ensures Flatten(chunks + [last]) == Flatten(chunks) + last
  {
    if chunks == [] {
      assert chunks + [last] == [last];
    } else {
      assert (chunks + [last])[1..] == chunks[1..] + [last];
      FlattenLast(chunks[1..], last);
    }
  }

  /** One more push continues the encoded output. */
  lemma PushContinues(fed: seq<Sample>, more: seq<Sample>, to: nat)
    requires Ready(|fed|, false) <= to <= Ready(|fed + more|, true)
    ensures Encode(Outputs(fed, 0, Ready(|fed|, false))) + Encode(Outputs(fed + more, Ready(|fed|, false), to))
         == Encode(Outputs(fed + more, 0, to))
  {
    var emitted := Ready(|fed|, false);
    OutputsArePrefix(fed, more, 0, emitted);
    OutputsJoin(fed + more, 0, emitted, to);
    EncodeConcat(Outputs(fed + more, 0, emitted), Outputs(fed + more, emitted, to));
  }

  predicate WholeSamples(chunks: seq<seq<Byte>>) {
    forall k :: 0 <= k < |chunks| ==> |chunks[k]| % 2 == 0
  }

  lemma {:induction false} WholeInAll(chunks: seq<seq<Byte>>)
    requires WholeSamples(chunks)
    ensures |Flatten(chunks)| % 2 == 0
  {
    if chunks != [] {
      assert |chunks[0]| % 2 == 0;
      WholeInAll(chunks[1..]);
    }
  }

  lemma NothingYet()
    ensures Flatten<Byte>([]) == [] && Decode([]) == [] && Encode(Outputs([], 0, 0)) == []
  {
  }

  lemma BatchIsAll(input: seq<Sample>)
    ensures Batch(input) == Outputs(input, 0, Ready(|input|, true))
  {
  }

  /** The life of one stream: every buffer is pushed as it arrives and an empty final push ends it.
      However the input was cut, what was written is the batch result of the whole input; a cut
      inside a sample is the only error. */
  method Transcode(chunks: seq<seq<Byte>>) returns (r: Option<seq<Byte>>)
    ensures r == None <==> !WholeSamples(chunks)
    ensures WholeSamples(chunks) ==>
              |Flatten(chunks)| % 2 == 0 && r == Some(Encode(Batch(Decode(Flatten(chunks)))))
  {
    hide Outputs, Encode, Decode, Flatten, Batch;
    var resampler := new Resampler();
    var pending: seq<Byte> := [];
    NothingYet();
    for k := 0 to |chunks|
      invariant resampler.Valid() && fresh(resampler)
      invariant WholeSamples(chunks[..k]) && |Flatten(chunks[..k])| % 2 == 0
      invariant resampler.fed == Decode(Flatten(chunks[..k])) && resampler.emitted == Ready(|resampler.fed|, false)
      invariant pending == Encode(Outputs(resampler.fed, 0, resampler.emitted))
    {
      ghost var fed := resampler.fed;
      var written := resampler.Push(chunks[k], false);
      if written.None? { return None; }
      assert chunks[..k + 1] == chunks[..k] + [chunks[k]];
      FlattenLast(chunks[..k], chunks[k]);
      DecodeConcat(Flatten(chunks[..k]), chunks[k]);
      PushContinues(fed, Decode(chunks[k]), resampler.emitted);
      pending := pending + written.value;
    }
    assert chunks[..|chunks|] == chunks;
    ghost var fed := resampler.fed;
    var last := resampler.Push([], true);
    assert fed + Decode([]) == fed;
    PushContinues(fed, Decode([]), resampler.emitted);
    BatchIsAll(fed);
    r := Some(pending + last.value);
  }
}

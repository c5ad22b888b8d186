/**
 * What `get_xyz_touch_points` reads from the touch FIFO (touch811.py, lines 176-205), as a
 * function of the bytes the device answers with: one FIFO_SIZE byte, then, while that count is
 * nonzero, two bytes each of X, Y and pressure followed by a fresh FIFO_SIZE byte.
 */
module Fifo {
  import opened Wrappers
  import opened ByteOrder

  /** One sample as read from TSC_DATA_X, TSC_DATA_Y and TSC_DATA_Z (2 bytes each). */
  datatype RawSample = RawSample(x: nat, y: nat, z: nat)

  /** The sample whose six data bytes start at `i`: three 2-byte big-endian values. */
  function SampleAt(s: seq<Byte>, i: nat): RawSample
    requires i + 6 <= |s|
  {
    RawSample(Word(s[i], s[i + 1]), Word(s[i + 2], s[i + 3]), Word(s[i + 4], s[i + 5]))
  }

  /** The first `k` samples of a stream laid out as a drain reads it. */
  function SamplesAt(s: seq<Byte>, k: nat): (raws: seq<RawSample>)
    requires 7 * k <= |s|
    ensures |raws| == k
    ensures forall i :: 0 <= i < k ==> raws[i] == SampleAt(s, 7 * i + 1)
  {
    if k == 0 then [] else SamplesAt(s, k - 1) + [SampleAt(s, 7 * (k - 1) + 1)]
  }

  /** Puts `raws` and `used` bytes in front of a drain's outcome. */
  function Prepend(raws: seq<RawSample>, used: nat, rest: Option<(seq<RawSample>, nat)>): Option<(seq<RawSample>, nat)>
  {
    match rest
    case None => None
    case Some((more, n)) => Some((raws + more, used + n))
  }

  /**
   * The samples a drain reads from the reply stream `s`, with the number of bytes it consumes;
   * None when the stream runs out first (the bus fails a read).
   */
  function Drain(s: seq<Byte>): (r: Option<(seq<RawSample>, nat)>)
    ensures r.Some? ==> 1 <= r.value.1 <= |s|
    decreases |s|
  {
    if |s| == 0 then None
    else if s[0] == 0 then Some(([], 1))
    else if |s| < 8 then None
    else Prepend([SampleAt(s, 1)], 7, Drain(s[7..]))
  }

  lemma SampleAtTail(s: seq<Byte>, j: nat)
    requires 7 + j + 6 <= |s|
    ensures SampleAt(s[7..], j) == SampleAt(s, 7 + j)
  {
  }

  lemma SuffixStep(s: seq<Byte>, used: nat, rest: seq<Byte>)
    requires used <= |s| && rest == s[used..] && |rest| >= 7
    ensures used + 7 <= |s| && rest[7..] == s[used + 7..]
  {
  }

  lemma PrependPrepend(a: seq<RawSample>, m: nat, b: seq<RawSample>, n: nat, rest: Option<(seq<RawSample>, nat)>)
    ensures Prepend(a, m, Prepend(b, n, rest)) == Prepend(a + b, m + n, rest)
  {
    if rest.Some? {
      assert a + (b + rest.value.0) == (a + b) + rest.value.0;
    }
  }

  /**
   * The rest of a drain once a FIFO_SIZE byte `count` has been read and `rest` are the replies
   * still to come: the loop's own view of the drain, used and consumed bytes counted from `rest`.
   */
  function DrainFrom(count: nat, rest: seq<Byte>): (r: Option<(seq<RawSample>, nat)>)
    ensures r.Some? ==> r.value.1 <= |rest|
    decreases |rest|
  {
    if count == 0 then Some(([], 0))
    else if |rest| < 7 then None
    else Prepend([SampleAt(rest, 0)], 7, DrainFrom(rest[6], rest[7..]))
  }

  /**
   * One more pass of a drain in progress: with a nonzero count it fails when fewer than seven
   * replies remain, and otherwise reads the sample at the front and the count right after it.
   */
  lemma DrainAdvance(outcome: Option<(seq<RawSample>, nat)>, raws: seq<RawSample>, used: nat, count: nat, rest: seq<Byte>)
    requires count > 0 && outcome == Prepend(raws, used, DrainFrom(count, rest))
    ensures |rest| < 7 ==> outcome == None
    ensures |rest| >= 7 ==>
      outcome == Prepend(raws + [SampleAt(rest, 0)], used + 7, DrainFrom(rest[6], rest[7..]))
  {
    if |rest| >= 7 {
      PrependPrepend(raws, used, [SampleAt(rest, 0)], 7, DrainFrom(rest[6], rest[7..]));
    }
  }

  /** A drain in progress whose latest count is zero is complete. */
  lemma DrainFinish(outcome: Option<(seq<RawSample>, nat)>, raws: seq<RawSample>, used: nat, rest: seq<Byte>)
    requires outcome == Prepend(raws, used, DrainFrom(0, rest))
    ensures outcome == Some((raws, used))
  {
    assert raws + [] == raws;
  }

  /** A drain is its first count byte followed by the rest of the drain from that count. */
  lemma {:induction false} DrainIsDrainFrom(s: seq<Byte>)
    requires |s| > 0
    ensures Drain(s) == Prepend([], 1, DrainFrom(s[0], s[1..]))
    decreases |s|
  {
    if s[0] != 0 && |s| >= 8 {
      var t := s[1..];
      var x := SampleAt(s, 1);
      assert t[6] == s[7] && t[7..] == s[8..] && SampleAt(t, 0) == x;
      var d := DrainFrom(s[7], s[8..]);
      assert DrainFrom(s[0], t) == Prepend([x], 7, d);
      DrainIsDrainFrom(s[7..]);
      assert s[7..][1..] == s[8..];
      assert Drain(s) == Prepend([x], 7, Prepend([], 1, d));
      PrependPrepend([x], 7, [], 1, d);
      PrependPrepend([], 1, [x], 7, d);
      assert [x] + [] == [] + [x];
    } else if s[0] == 0 {
      var none: seq<RawSample> := [];
      assert DrainFrom(s[0], s[1..]) == Some((none, 0));
      assert none + none == none;
    } else {
      assert |s[1..]| < 7;
    }
  }

  /**
   * A completed drain read one point per nonzero FIFO_SIZE byte, in read order, and stopped at
   * the first zero: sample i's count byte sits at 7i, its data bytes right after it, and the
   * final count byte is 0.
   */
  lemma {:induction false} DrainShape(s: seq<Byte>)
    requires Drain(s).Some?
    ensures var (raws, used) := Drain(s).value;
      used == 7 * |raws| + 1 && used <= |s| && s[used - 1] == 0
      && forall i :: 0 <= i < |raws| ==> s[7 * i] > 0 && raws[i] == SampleAt(s, 7 * i + 1)
    decreases |s|
  {
    if s[0] != 0 {
      DrainShape(s[7..]);
      var (more, n) := Drain(s[7..]).value;
      var (raws, used) := Drain(s).value;
      assert raws == [SampleAt(s, 1)] + more && used == 7 + n;
      forall i | 1 <= i < |raws|
        ensures s[7 * i] > 0 && raws[i] == SampleAt(s, 7 * i + 1)
      {
        assert raws[i] == more[i - 1];
        assert s[7..][7 * (i - 1)] == s[7 * i];
        SampleAtTail(s, 7 * (i - 1) + 1);
      }
    }
  }

  /** The samples of a stream are its first sample followed by the samples of what follows it. */
  lemma {:induction false} SamplesAtTail(s: seq<Byte>, k: nat)
    requires 7 * (k + 1) <= |s|
    ensures SamplesAt(s, k + 1) == [SampleAt(s, 1)] + SamplesAt(s[7..], k)
    decreases k
  {
    if k > 0 {
      SamplesAtTail(s, k - 1);
      SampleAtTail(s, 7 * (k - 1) + 1);
      var head := [SampleAt(s, 1)];
      var rest := SamplesAt(s[7..], k - 1);
      var last := [SampleAt(s, 7 * k + 1)];
      assert head + rest + last == head + (rest + last);
    }
  }

  /** Conversely, a stream of that shape drains to exactly those samples. */
  lemma {:induction false} DrainOfShape(s: seq<Byte>, k: nat)
    requires 7 * k + 1 <= |s| && s[7 * k] == 0
    requires forall i :: 0 <= i < k ==> s[7 * i] > 0
    ensures Drain(s) == Some((SamplesAt(s, k), 7 * k + 1))
    decreases k
  {
    if k > 0 {
      var t := s[7..];
      assert Drain(s) == Prepend([SampleAt(s, 1)], 7, Drain(t)) by {
        assert s[7 * 0] > 0;
      }
      forall i | 0 <= i < k - 1
        ensures t[7 * i] > 0
      {
        assert t[7 * i] == s[7 * (i + 1)];
      }
      DrainOfShape(t, k - 1);
      SamplesAtTail(s, k - 1);
    }
  }
}

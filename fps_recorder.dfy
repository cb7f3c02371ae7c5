/**
 * FpsRecorder: a running frame-rate estimate over a ring buffer of the last
 * bufferLength timestamps. The rate itself is a floating-point division; the model
 * returns the two numbers it is computed from instead.
 */
module FpsRecording {
  import opened Wrappers

  const LONG_MIN: int := -0x8000_0000_0000_0000
  const LONG_MAX: int := 0x7fff_ffff_ffff_ffff
  const LONG_RANGE: int := 0x1_0000_0000_0000_0000

  predicate IsLong(x: int) { LONG_MIN <= x <= LONG_MAX }

  /** Kotlin's Long subtraction: the mathematical difference, wrapped into 64 bits. */
  function LongSub(a: int, b: int): (d: int)
    requires IsLong(a) && IsLong(b)
    ensures IsLong(d)
    ensures (a - b - d) % LONG_RANGE == 0
    ensures IsLong(a - b) ==> d == a - b
  {
    var x := a - b;
    if x > LONG_MAX then x - LONG_RANGE else if x < LONG_MIN then x + LONG_RANGE else x
  }

  function Min(a: int, b: int): int { if a <= b then a else b }

  /**
   * What recordTimestamp returns: NaN while too few samples have been recorded,
   * otherwise the rate NANOS_IN_SECOND * frames / durationNs.
   */
  datatype Sample = NotEnoughSamples | Rate(frames: nat, durationNs: int)

  /** The exception of the constructor's require. */
  datatype IllegalArgument = InvalidBufferLength(bufferLength: int)

  /**
   * The reference answer after the timestamps `history` were recorded since the
   * recorder was made or last reset: a rate over bufferLength frames, measured from
   * the timestamp recorded bufferLength calls before the newest one, once there is one.
   */
  ghost function ExpectedSample(history: seq<int>, bufferLength: nat): Sample
    requires |history| >= 1 && forall j :: 0 <= j < |history| ==> IsLong(history[j])
  {
    if |history| >= bufferLength + 1 then
      Rate(bufferLength, LongSub(history[|history| - 1], history[|history| - 1 - bufferLength]))
    else
      NotEnoughSamples
  }

  /**
   * With a clock that starts at zero and never runs backwards (as frame timestamps
   * do), every rate is measured over the true, non-negative duration: no 64-bit
   * wrap-around can occur in it.
   */
  lemma MonotonicClockGivesTrueDuration(history: seq<int>, bufferLength: nat)
    requires |history| >= 1 && forall j :: 0 <= j < |history| ==> IsLong(history[j])
    requires forall i, j :: 0 <= i <= j < |history| ==> 0 <= history[i] <= history[j]
    ensures ExpectedSample(history, bufferLength).Rate? ==>
      ExpectedSample(history, bufferLength).durationNs == history[|history| - 1] - history[|history| - 1 - bufferLength] >= 0
  {
    if |history| >= bufferLength + 1 {
      var newest, oldest := history[|history| - 1], history[|history| - 1 - bufferLength];
      assert oldest <= newest;
      assert IsLong(newest - oldest);
    }
  }

  /** The slot written `back` calls before the next one, when the next one is `index`. */
  function Behind(index: nat, back: nat, n: nat): nat
    requires index < n && 1 <= back <= n
  {
    if back <= index then index - back else index + n - back
  }

  /** Advancing an index by one modulo the length wraps only at the last slot. */
  lemma NextIndex(index: nat, n: nat)
    requires index < n
    ensures (index + 1) % n == if index + 1 < n then index + 1 else 0
  {
  }

  class FpsRecorder {
    const timestamps: array<int>
    var index: nat
    var numSamples: nat
    /** The timestamps recorded since construction or the last reset, oldest first. */
    ghost var history: seq<int>

    ghost predicate Valid()
      reads this, timestamps
    {
      timestamps.Length >= 1 &&
      index < timestamps.Length &&
      numSamples == Min(|history|, timestamps.Length + 1) &&
      (forall j :: 0 <= j < |history| ==> IsLong(history[j])) &&
      (forall k :: 0 <= k < timestamps.Length ==> IsLong(timestamps[k])) &&
      // the newest bufferLength recorded timestamps sit in the slots behind `index`
      (forall back :: 1 <= back <= timestamps.Length && back <= |history| ==>
         timestamps[Behind(index, back, timestamps.Length)] == history[|history| - back])
    }

    /** Allocates exactly bufferLength zeroed slots; the source rejects a length below 1. */
    constructor (bufferLength: int)
      requires bufferLength >= 1
      ensures Valid() && fresh(timestamps)
      ensures timestamps.Length == bufferLength && timestamps[..] == seq(bufferLength, _ => 0)
      ensures history == [] && index == 0 && numSamples == 0
    {
      timestamps := new int[bufferLength](_ => 0);
      index, numSamples := 0, 0;
      history := [];
    }

    /** The constructor with its argument check: a length below 1 is an IllegalArgumentException. */
    static method Create(bufferLength: int) returns (r: Result<FpsRecorder, IllegalArgument>)
      ensures r.Failure? <==> bufferLength < 1
      ensures r.Failure? ==> r.error == InvalidBufferLength(bufferLength)
      ensures r.Success? ==>
        fresh(r.value) && fresh(r.value.timestamps) && r.value.Valid() &&
        r.value.timestamps.Length == bufferLength && r.value.history == []
    {
      if bufferLength < 1 {
        return Failure(InvalidBufferLength(bufferLength));
      }
      var recorder := new FpsRecorder(bufferLength);
      return Success(recorder);
    }

    /**
     * Overwrites the oldest slot with the new timestamp and answers with the rate over
     * the buffer, or NotEnoughSamples until bufferLength + 1 timestamps were recorded.
     */
    method RecordTimestamp(timestampNs: int) returns (r: Sample)
      requires Valid() && IsLong(timestampNs)
      modifies this, timestamps
      ensures Valid()
      ensures history == old(history) + [timestampNs]
      ensures r == ExpectedSample(history, timestamps.Length)
      ensures r.Rate? ==> r.durationNs == LongSub(timestampNs, old(timestamps[index]))
      ensures timestamps[..] == old(timestamps[..])[old(index) := timestampNs]
      ensures index == (old(index) + 1) % timestamps.Length
      ensures numSamples == Min(old(numSamples) + 1, timestamps.Length + 1)
    {
      var n := timestamps.Length;
      ghost var h := history;
      ghost var oldIndex := index;
      var nextIndex := (index + 1) % n;
      NextIndex(index, n);
      var duration := LongSub(timestampNs, timestamps[index]);
      assert |h| >= n ==> Behind(index, n, n) == index;
      timestamps[index] := timestampNs;
      index := nextIndex;
      numSamples := Min(numSamples + 1, n + 1);
      history := h + [timestampNs];
      forall back | 1 <= back <= n && back <= |history|
        ensures timestamps[Behind(index, back, n)] == history[|history| - back]
      {
        if back > 1 {
          assert Behind(index, back, n) == Behind(oldIndex, back - 1, n) != oldIndex;
        }
      }
      if numSamples == n + 1 {
        r := Rate(n, duration);
      } else {
        r := NotEnoughSamples;
      }
    }

    /**
     * Forgets every recorded timestamp without clearing the buffer: the next
     * bufferLength calls answer NotEnoughSamples, and no earlier timestamp enters a
     * later duration, since the answers depend on `history` alone.
     */
    method Reset()
      requires Valid()
      modifies this
      ensures Valid() && history == [] && index == 0 && numSamples == 0
      ensures timestamps[..] == old(timestamps[..])
    {
      numSamples := 0;
      index := 0;
      history := [];
    }
  }
}

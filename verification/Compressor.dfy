/**
 The volume compressor: 32-bit fixed-point gain (1024 is a gain of one) that follows the peaks of
 the last blocks, moves slowly from block to block and is ramped within a block.
 */
module Compressors {
  type int16 = x: int | -0x8000 <= x < 0x8000
  type int32 = x: int | -0x8000_0000 <= x < 0x8000_0000

  const TARGET: int32 := 16384
  const GAINMAX: int32 := 32
  const GAINSMOOTH: int32 := 8
  const BUCKETS: nat := 400
  /** A gain of one. */
  const ONE: int32 := 1024

  // ---------------------------------------------------------------------------------------------
  // The gain of a block
  // ---------------------------------------------------------------------------------------------

  function Abs(x: int): nat {
    if x < 0 then -x else x
  }

  /** Division in C: towards zero. */
  function DivC(a: int, b: int): int
    requires b > 0
  {
    if a < 0 then -((-a) / b) else a / b
  }

  predicate IsPeak(peak: int) {
    1 <= peak <= 0x8000
  }

  /** A gain that was recorded for a block, or zero if there was none. */
  predicate IsGain(gain: int) {
    gain == 0 || 1023 <= gain <= 0x8000
  }

  /** The gain aimed at, averaged with the previous one and kept within the limits. */
  function SmoothGain(previous: int, peak: int): int
    requires IsPeak(peak)
  {
    var gain := (previous * 255 + 1024 * TARGET / peak) / 256;
    if gain > GAINMAX * 1024 then GAINMAX * 1024 else if gain < ONE then ONE else gain
  }

  /** Would this gain bring the peak above the largest sample? */
  predicate Clips(peak: int, gain: int) {
    peak * gain / 1024 > 32767
  }

  /** The gain of a block whose peak, and that of the blocks before it, is `peak`. */
  function NewGain(previous: int, peak: int): int
    requires IsPeak(peak)
  {
    var gain := SmoothGain(previous, peak);
    if Clips(peak, gain) then 32767 * 1024 / peak else gain
  }

  lemma MulMonotone(a: int, b: int, c: int)
    requires 0 <= a <= b && 0 <= c
    ensures 0 <= a * c <= b * c
  {
  }

  lemma DivisionBounds(a: int, b: int)
    requires a >= 0 && b > 0
    ensures 0 <= a / b <= a && (a / b) * b <= a < (a / b) * b + b
  {
    var q := a / b;
    assert q * b <= a < q * b + b;
    if q < 0 {
      MulMonotone(1, -q, b);
      NegatedProduct(b, q);
    } else {
      MulMonotone(1, b, q);
      assert q * b == b * q;
    }
  }

  lemma NegatedProduct(i: int, x: int)
    ensures i * -x == -(i * x) && -x * i == -(i * x)
  {
  }

  /** The new gain is a gain, does not bring the peak above the largest sample, and is no larger than the smooth one. */
  lemma NewGainOk(previous: int, peak: int)
    requires IsGain(previous) && IsPeak(peak)
    ensures var gain := NewGain(previous, peak);
            && 1023 <= gain <= 0x8000 && peak * gain < 0x8000 * 1024 && gain <= SmoothGain(previous, peak)
  {
    var smooth := SmoothGain(previous, peak);
    if Clips(peak, smooth) {
      var gain := 32767 * 1024 / peak;
      DivisionBounds(32767 * 1024, peak);
      if gain < 1023 {
        MulMonotone(gain + 1, 1023, peak);
      }
      if gain > smooth {
        MulMonotone(smooth, gain, peak);
      }
    }
  }

  /** The gain is lowered only as far as needed: one more would clip. */
  lemma LimitedGainIsLargest(previous: int, peak: int, gain: int)
    requires IsGain(previous) && IsPeak(peak) && Clips(peak, SmoothGain(previous, peak)) && gain > NewGain(previous, peak)
    ensures peak * gain > 32767 * 1024
  {
    DivisionBounds(32767 * 1024, peak);
    MulMonotone(NewGain(previous, peak) + 1, gain, peak);
  }

  // ---------------------------------------------------------------------------------------------
  // The gain of a sample
  // ---------------------------------------------------------------------------------------------

  /** The gain before the first block is one. */
  function StartGain(previous: int): int {
    if previous == 0 then ONE else previous
  }

  /** Steps of the same size up to index `ramp`, then the new gain. */
  function GainAt(start: int, end: int, ramp: int, i: nat): int
    requires ramp > 0
  {
    if i <= ramp then start + i * DivC(end - start, ramp) else end
  }

  function Clamp(sample: int): int16 {
    if sample < -0x8000 then -0x8000 else if sample > 0x7FFF then 0x7FFF else sample
  }

  function Amplified(sample: int, gain: int): int {
    sample * gain / 1024
  }

  lemma StepSum(d: int, ramp: int, i: nat)
    requires 0 <= d && 0 < ramp && i <= ramp
    ensures 0 <= i * (d / ramp) <= d && d / ramp <= d
  {
    DivisionBounds(d, ramp);
    MulMonotone(i, ramp, d / ramp);
  }

  /** The ramped gain is always between the old and the new gain. */
  lemma GainBetween(start: int, end: int, ramp: int, i: nat)
    requires 0 < ramp
    ensures var gain := GainAt(start, end, ramp, i);
            if start <= end then start <= gain <= end else end <= gain <= start
  {
    if i <= ramp {
      StepSum(Abs(end - start), ramp, i);
      NegatedProduct(i, Abs(end - start) / ramp);
    }
  }

  /** Behind the ramp nothing is clipped. */
  lemma NoClipping(sample: int, previous: int, peak: int)
    requires IsGain(previous) && IsPeak(peak) && Abs(sample) <= peak
    ensures -0x8000 <= Amplified(sample, NewGain(previous, peak)) <= 0x7FFF
  {
    NewGainOk(previous, peak);
    var gain := NewGain(previous, peak);
    MulMonotone(Abs(sample), peak, gain);
    NegatedProduct(gain, Abs(sample));
  }

  lemma ProductBound(a: int, b: int, m: int, n: int)
    requires Abs(a) <= m && 0 <= b <= n
    ensures -(m * n) <= a * b <= m * n
  {
    MulMonotone(Abs(a), m, b);
    MulMonotone(b, n, m);
    NegatedProduct(b, Abs(a));
    NegatedProduct(m, n);
  }

  /** The largest amplitude among the samples, but at least one. */
  ghost predicate IsPeakOf(peak: int, samples: seq<int16>) {
    && 1 <= peak
    && (forall i :: 0 <= i < |samples| ==> Abs(samples[i]) <= peak)
    && (peak == 1 || exists i :: 0 <= i < |samples| && Abs(samples[i]) == peak)
  }

  /** The largest of the history, but at least `peak`. */
  ghost predicate IsPeakWith(total: int, peak: int, history: seq<int32>) {
    && peak <= total && (forall k :: 0 <= k < |history| ==> history[k] <= total)
    && (total == peak || total in history)
  }

  /** By how much a sample is out of range. */
  function Excess(sample: int): nat {
    Abs(sample - Clamp(sample))
  }

  /** By how much the first n samples are clipped together. */
  ghost function TotalExcess(samples: seq<int16>, start: int, end: int, ramp: int, n: nat): nat
    requires ramp > 0 && n <= |samples|
  {
    if n == 0 then 0
    else TotalExcess(samples, start, end, ramp, n - 1) + Excess(Amplified(samples[n - 1], GainAt(start, end, ramp, n - 1)))
  }

  class Compressor {
    /** Peaks, gains and clipped amounts of the last blocks. */
    var peaks: array<int32>
    var gain: array<int32>
    var clipped: array<int>
    var pos: nat
    var bufsz: nat

    ghost predicate Valid()
      reads this, peaks, gain, clipped
    {
      && pos < bufsz && peaks.Length == gain.Length == clipped.Length == bufsz
      && peaks != gain
      && (forall k :: 0 <= k < bufsz ==> 0 <= peaks[k] <= 0x8000)
      && (forall k :: 0 <= k < bufsz ==> IsGain(gain[k]))
    }

    /** A history of zero blocks stands for the default. */
    constructor (history: nat)
      ensures Valid() && fresh(peaks) && fresh(gain) && fresh(clipped)
      ensures bufsz == (if history == 0 then BUCKETS else history) && pos == 0
      ensures forall k :: 0 <= k < bufsz ==> peaks[k] == gain[k] == 0
    {
      var size := if history == 0 then BUCKETS else history;
      bufsz, pos := size, 0;
      peaks := new int32[size](_ => 0);
      gain := new int32[size](_ => 0);
      clipped := new int[size](_ => 0);
    }

    /** The first of the loudest samples. */
    method FindPeak(audio: array<int16>) returns (peakVal: int32, peakPos: nat)
      ensures IsPeakOf(peakVal, audio[..]) && peakVal <= 0x8000
      ensures peakPos == 0 || (peakPos < audio.Length && Abs(audio[peakPos]) == peakVal)
      ensures forall i :: 0 <= i < peakPos ==> Abs(audio[i]) < peakVal
    {
      peakVal, peakPos := 1, 0;
      var i := 0;
      while i < audio.Length
        invariant i <= audio.Length && IsPeakOf(peakVal, audio[..i]) && peakVal <= 0x8000
        invariant peakPos == 0 || (peakPos < i && Abs(audio[peakPos]) == peakVal)
        invariant forall j :: 0 <= j < peakPos ==> Abs(audio[j]) < peakVal
      {
        var val: int32 := audio[i];
        if val < 0 {
          val := -val;
        }
        assert audio[..i + 1][i] == audio[i] && forall j :: 0 <= j < i ==> audio[..i][j] == audio[..i + 1][j];
        if val > peakVal {
          peakVal := val;
          peakPos := i;
        }
        i := i + 1;
      }
      assert audio[..i] == audio[..];
    }

    /** The peak of the last blocks; a peak of an earlier block is taken to be at the beginning. */
    method FindTotal(peakVal: int32, peakPos: nat) returns (total: int32, totalPos: nat)
      requires Valid() && IsPeak(peakVal)
      ensures IsPeakWith(total, peakVal, peaks[..]) && IsPeak(total)
      ensures totalPos == if total == peakVal then peakPos else 0
    {
      total, totalPos := peakVal, peakPos;
      var i := 0;
      while i < bufsz
        invariant i <= bufsz && IsPeakWith(total, peakVal, peaks[..i]) && IsPeak(total)
        invariant totalPos == if total == peakVal then peakPos else 0
      {
        assert peaks[..i + 1] == peaks[..i] + [peaks[i]];
        if peaks[i] > total {
          total := peaks[i];
          totalPos := 0;
        }
        i := i + 1;
      }
      assert peaks[..i] == peaks[..];
    }

    /** The gain of the new block, computed in 32 bits. */
    method ComputeGain(curGain: int32, peakVal: int32) returns (newGain: int32, limited: bool)
      requires IsGain(curGain) && IsPeak(peakVal)
      ensures newGain == NewGain(curGain, peakVal) && limited == Clips(peakVal, SmoothGain(curGain, peakVal))
    {
      var scaled: int32 := 1024 * TARGET;
      newGain := scaled / peakVal;
      DivisionBounds(scaled, peakVal);
      var inertia: int32 := curGain * 255;
      var sum: int32 := inertia + newGain;
      newGain := sum / 256;
      if newGain > GAINMAX * 1024 {
        newGain := GAINMAX * 1024;
      }
      if newGain < ONE {
        newGain := ONE;
      }
      assert newGain == SmoothGain(curGain, peakVal);
      ProductBound(peakVal, newGain, 0x8000, 0x8000);
      var product: int32 := peakVal * newGain;
      limited := product / 1024 > 32767;
      if limited {
        var largest: int32 := 32767 * 1024;
        DivisionBounds(largest, peakVal);
        newGain := largest / peakVal;
      }
    }

    /** Amplify the samples with a gain that moves from `start` to `newGain`. */
    method Amplify(audio: array<int16>, start: int32, newGain: int32, ramp: int32, slot: nat)
      requires slot < clipped.Length && 0 < ramp
      requires 0 < start <= 0x8000 && 0 < newGain <= 0x8000
      modifies audio, clipped
      ensures forall i :: 0 <= i < audio.Length ==>
                audio[i] == Clamp(Amplified(old(audio[i]), GainAt(start, newGain, ramp, i)))
      ensures clipped[..] == old(clipped[..])[slot := TotalExcess(old(audio[..]), start, newGain, ramp, audio.Length)]
    {
      ghost var samples := audio[..];
      StepSum(Abs(newGain - start), ramp, 1);
      var delta: int32 := DivC(newGain - start, ramp);
      var curGain: int32 := start;
      clipped[slot] := 0;
      var i := 0;
      while i < audio.Length
        invariant i <= audio.Length && curGain == GainAt(start, newGain, ramp, i)
        invariant clipped[slot] == TotalExcess(samples, start, newGain, ramp, i)
        invariant forall j :: 0 <= j < i ==> audio[j] == Clamp(Amplified(old(audio[j]), GainAt(start, newGain, ramp, j)))
        invariant forall j :: i <= j < audio.Length ==> audio[j] == old(audio[j])
        invariant forall k :: 0 <= k < clipped.Length && k != slot ==> clipped[k] == old(clipped[k])
      {
        GainBetween(start, newGain, ramp, i);
        GainBetween(start, newGain, ramp, i + 1);
        NextGain(start, newGain, ramp, i);
        ProductBound(audio[i], curGain, 0x8000, 0x8000);
        var product: int32 := audio[i] * curGain;
        var sample: int32 := product / 1024;
        if sample < -0x8000 {
          clipped[slot] := clipped[slot] + (-0x8000 - sample);
          sample := -0x8000;
        } else if sample > 0x7FFF {
          clipped[slot] := clipped[slot] + (sample - 0x7FFF);
          sample := 0x7FFF;
        }
        audio[i] := sample;
        if i < ramp {
          curGain := curGain + delta;
        } else {
          curGain := newGain;
        }
        i := i + 1;
      }
    }

    /**
     Process one block.  The history is a ring: the new values go to the slot after `pos`.  Every
     sample is multiplied by a gain that moves from that of the last block to the new one, which
     is reached at index `ramp`; all intermediate gains and products fit in 32 bits.
     */
    method ProcessInt16(audio: array<int16>) returns (ghost peak: int, ghost total: int, ghost ramp: int)
      requires Valid() && audio.Length < 0x8000_0000
      requires audio as object != peaks && audio as object != gain && audio as object != clipped
      requires clipped as object != peaks && clipped as object != gain
      modifies this`pos, audio, peaks, gain, clipped
      ensures Valid() && pos == (old(pos) + 1) % bufsz
      ensures IsPeakOf(peak, old(audio[..])) && peaks[..] == old(peaks[..])[pos := peak]
      ensures IsPeakWith(total, peak, peaks[..]) && IsPeak(total)
      ensures gain[..] == old(gain[..])[pos := NewGain(old(gain[pos]), total)]
      ensures 0 < ramp && (!Clips(total, SmoothGain(old(gain[pos]), total)) ==> ramp == if audio.Length == 0 then 1 else audio.Length)
      ensures Clips(total, SmoothGain(old(gain[pos]), total)) && ramp > 1 ==>
                ramp < audio.Length && Abs(old(audio[ramp])) == total == peak
      ensures forall i :: 0 <= i < audio.Length ==>
                audio[i] == Clamp(Amplified(old(audio[i]), GainAt(StartGain(old(gain[pos])), gain[pos], ramp, i)))
      ensures clipped[..] ==
              old(clipped[..])[pos := TotalExcess(old(audio[..]), StartGain(old(gain[pos])), gain[pos], ramp, audio.Length)]
    {
      hide IsPeakOf, IsPeakWith, TotalExcess, GainAt, Clamp, Amplified;
      ghost var samples := audio[..];
      var curGain := gain[pos];
      var slot := (pos + 1) % bufsz;
      var peakVal, peakPos := FindPeak(audio);
      peak := peakVal;
      peaks[slot] := peakVal;
      peakVal, peakPos := FindTotal(peakVal, peakPos);
      total := peakVal;
      var newGain, limited := ComputeGain(curGain, peakVal);
      NewGainOk(curGain, peakVal);
      var rampLength: int32 := if limited then peakPos else audio.Length;
      gain[slot] := newGain;
      if rampLength == 0 {
        rampLength := 1;
      }
      ramp := rampLength;
      if curGain == 0 {
        curGain := ONE;
      }
      Amplify(audio, curGain, newGain, rampLength, slot);
      pos := slot;
    }
  }

  lemma NextGain(start: int, end: int, ramp: int, i: nat)
    requires 0 < ramp
    ensures GainAt(start, end, ramp, i + 1) ==
            if i < ramp then GainAt(start, end, ramp, i) + DivC(end - start, ramp) else end
  {
    Distribute(i, DivC(end - start, ramp));
  }

  lemma Distribute(i: int, d: int)
    ensures (i + 1) * d == i * d + d
  {
  }

  /** In a block, every sample behind index `ramp` comes out unclipped. */
  lemma UnclippedBehindRamp(samples: seq<int16>, previous: int, peak: int, total: int, history: seq<int32>, ramp: int, i: nat)
    requires IsGain(previous) && IsPeakOf(peak, samples) && IsPeakWith(total, peak, history) && IsPeak(total)
    requires 0 < ramp < i < |samples|
    ensures var end := NewGain(previous, total);
            var amplified := Amplified(samples[i], GainAt(StartGain(previous), end, ramp, i));
            Clamp(amplified) == amplified == Amplified(samples[i], end)
  {
    NoClipping(samples[i], previous, total);
  }
}

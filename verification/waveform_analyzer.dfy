/**
 * The waveform analyzer: a window over the most recent samples, five
 * frequency-band levels normalized into [0, 1], and the registry of
 * callbacks that receive them.
 *
 * The spectrum is not modelled: the energy of a band of spectrum bins is
 * the function `bandEnergy` of the analysed samples and the bin range, and
 * the power curve applied before clamping is the function `curve`.
 */
module Waveform {
  import opened Common

  const MinSamples: nat := 512
  const MaxSamples: nat := 2 * MinSamples
  /** `np.fft.rfft` of 512 samples has 257 bins. */
  const Bins: nat := MinSamples / 2 + 1
  const BandEdges: seq<int> := [20, 150, 400, 1000, 3000, 8000]
  const Silence: seq<real> := [0.0, 0.0, 0.0, 0.0, 0.0]

  /** The buffer after a chunk arrives: the newest at most 1024 samples. */
  function Window(buffer: seq<int>, samples: seq<int>): (w: seq<int>)
    ensures |w| == if |buffer| + |samples| > MaxSamples then MaxSamples else |buffer| + |samples|
    ensures w == (buffer + samples)[|buffer| + |samples| - |w|..]
  {
    var all := buffer + samples;
    if |all| > MaxSamples then all[|all| - MaxSamples..] else all
  }

  /** Python's `int(x / y)` for integers: division truncated toward zero. */
  function TruncDiv(a: int, b: int): (q: int)
    requires b != 0
    ensures a >= 0 && b > 0 ==> q == a / b
  {
    if (a >= 0) == (b > 0) then (if a >= 0 then a / b else (-a) / (-b))
    else -((if a >= 0 then a else -a) / (if b > 0 then b else -b))
  }

  /** `int(freq / (sample_rate / 512))`, computed exactly. */
  function BinOf(freq: int, sampleRate: int): int
    requires sampleRate != 0
  {
    TruncDiv(freq * MinSamples, sampleRate)
  }

  /** The clamped bin range of one band. */
  function ClampBand(lowRaw: int, highRaw: int): (r: (int, int))
    ensures 0 <= r.0 < r.1 <= Bins
    ensures 0 <= lowRaw < Bins ==> r.0 == lowRaw
    ensures r.0 < highRaw <= Bins ==> r.1 == highRaw
  {
    var low := if lowRaw < 0 then 0 else if lowRaw > Bins - 1 then Bins - 1 else lowRaw;
    var high := if highRaw < Bins then highRaw else Bins;
    (low, if high < low + 1 then low + 1 else high)
  }

  /** The bin range of band `i`. */
  function BandRange(i: nat, sampleRate: int): (r: (int, int))
    requires i < |BandEdges| - 1 && sampleRate != 0
    ensures 0 <= r.0 < r.1 <= Bins
  {
    ClampBand(BinOf(BandEdges[i], sampleRate), BinOf(BandEdges[i + 1], sampleRate))
  }

  /** At the default 16 kHz the bands cover bins [0,4), [4,12), [12,32), [32,96), [96,256). */
  lemma DefaultBands()
    ensures BandRange(0, 16000) == (0, 4) && BandRange(1, 16000) == (4, 12)
    ensures BandRange(2, 16000) == (12, 32) && BandRange(3, 16000) == (32, 96)
    ensures BandRange(4, 16000) == (96, 256)
  {
  }

  /** The energy of each of the five bands of the analysed samples. */
  function BandEnergies(recent: seq<int>, sampleRate: int, bandEnergy: (seq<int>, int, int) -> real): (e: seq<real>)
    requires sampleRate != 0
    ensures |e| == |BandEdges| - 1
  {
    seq(|BandEdges| - 1, i requires 0 <= i < |BandEdges| - 1 =>
      bandEnergy(recent, BandRange(i, sampleRate).0, BandRange(i, sampleRate).1))
  }

  function Clamp01(x: real): (r: real)
    ensures 0.0 <= r <= 1.0
    ensures 0.0 <= x <= 1.0 ==> r == x
  {
    if x > 1.0 then 1.0 else if x < 0.0 then 0.0 else x
  }

  function MaxOf(s: seq<real>): (m: real)
    requires s != []
    ensures forall i :: 0 <= i < |s| ==> s[i] <= m
    ensures exists i :: 0 <= i < |s| && s[i] == m
  {
    if |s| == 1 then s[0]
    else
      var m := MaxOf(s[..|s| - 1]);
      assert forall i :: 0 <= i < |s| - 1 ==> s[..|s| - 1][i] == s[i];
      if s[|s| - 1] > m then s[|s| - 1] else m
  }

  /** Levels in [0, 1] relative to the loudest band; all zeros when the loudest is not positive. */
  function Normalize(levels: seq<real>, curve: real -> real): (r: seq<real>)
    requires levels != []
    ensures |r| == |levels|
    ensures forall i :: 0 <= i < |r| ==> 0.0 <= r[i] <= 1.0
    ensures MaxOf(levels) <= 0.0 ==> r == seq(|levels|, _ => 0.0)
    ensures MaxOf(levels) > 0.0 ==> forall i :: 0 <= i < |r| ==> r[i] == Clamp01(curve(levels[i] / MaxOf(levels)))
  {
    var m := MaxOf(levels);
    if m > 0.0 then seq(|levels|, i requires 0 <= i < |levels| => Clamp01(curve(levels[i] / m)))
    else seq(|levels|, _ => 0.0)
  }

  class WaveformAnalyzer {
    const sampleRate: int
    var buffer: seq<int>
    const bandEnergy: (seq<int>, int, int) -> real
    const curve: real -> real

    constructor (sampleRate: int, bandEnergy: (seq<int>, int, int) -> real, curve: real -> real)
      ensures this.sampleRate == sampleRate && buffer == []
      ensures this.bandEnergy == bandEnergy && this.curve == curve
    {
      this.sampleRate := sampleRate;
      buffer := [];
      this.bandEnergy := bandEnergy;
      this.curve := curve;
    }

    /**
     * `analyze`: the window moves on; with fewer than 512 samples, five
     * zeros; otherwise one level per band of the newest 512 samples,
     * normalized into [0, 1].
     */
    method Analyze(bytes: seq<byte>) returns (levels: seq<real>)
      requires |bytes| % 2 == 0
      requires sampleRate != 0
      modifies this
      ensures buffer == Window(old(buffer), DecodePcm16(bytes))
      ensures |levels| == 5
      ensures forall i :: 0 <= i < 5 ==> 0.0 <= levels[i] <= 1.0
      ensures |buffer| < MinSamples ==> levels == Silence
      ensures |buffer| >= MinSamples ==>
        var recent := buffer[|buffer| - MinSamples..];
        levels == Normalize(BandEnergies(recent, sampleRate, bandEnergy), curve)
    {
      buffer := Window(buffer, DecodePcm16(bytes));
      if |buffer| < MinSamples {
        return Silence;
      }
      var recent := buffer[|buffer| - MinSamples..];
      ghost var all := BandEnergies(recent, sampleRate, bandEnergy);
      var energies: seq<real> := [];
      var i := 0;
      while i < |BandEdges| - 1
        invariant 0 <= i <= |BandEdges| - 1
        invariant energies == all[..i]
      {
        var lowIdx := BinOf(BandEdges[i], sampleRate);
        var highIdx := BinOf(BandEdges[i + 1], sampleRate);
        var band := ClampBand(lowIdx, highIdx);
        assert band == BandRange(i, sampleRate);
        assert all[..i + 1] == all[..i] + [all[i]];
        energies := energies + [bandEnergy(recent, band.0, band.1)];
        i := i + 1;
      }
      assert energies == all;
      levels := Normalize(energies, curve);
    }

    /** `reset`: the window is emptied. */
    method Reset()
      modifies this
      ensures buffer == []
    {
      buffer := [];
    }
  }

  /** A registered callback, by identity. */
  type Callback = int

  class CallbackRegistry {
    var callbacks: seq<Callback>

    ghost predicate Valid()
      reads this
    {
      forall i, j :: 0 <= i < j < |callbacks| ==> callbacks[i] != callbacks[j]
    }

    constructor ()
      ensures Valid() && callbacks == []
    {
      callbacks := [];
    }

    /** `register_waveform_callback`: appended unless already present. */
    method Register(cb: Callback)
      requires Valid()
      modifies this
      ensures Valid()
      ensures cb in old(callbacks) ==> callbacks == old(callbacks)
      ensures cb !in old(callbacks) ==> callbacks == old(callbacks) + [cb]
    {
      if cb !in callbacks {
        callbacks := callbacks + [cb];
      }
    }

    /** `unregister_waveform_callback`: removed if present, the others keep their order. */
    method Unregister(cb: Callback)
      requires Valid()
      modifies this
      ensures Valid()
      ensures cb !in callbacks
      ensures cb !in old(callbacks) ==> callbacks == old(callbacks)
      ensures cb in old(callbacks) ==>
        exists k :: 0 <= k < |old(callbacks)| && old(callbacks)[k] == cb
          && callbacks == old(callbacks)[..k] + old(callbacks)[k + 1..]
    {
      if cb in callbacks {
        var k :| 0 <= k < |callbacks| && callbacks[k] == cb;
        ghost var before := callbacks;
        callbacks := callbacks[..k] + callbacks[k + 1..];
        assert forall i :: 0 <= i < |callbacks| ==> callbacks[i] == (if i < k then before[i] else before[i + 1]);
      }
    }

    /**
     * `broadcast_waveform`: every callback is called with the levels, in
     * registration order. An exception a callback raises is swallowed, so
     * it never keeps the later callbacks from their call.
     */
    method Broadcast(levels: seq<real>) returns (calls: seq<(Callback, seq<real>)>)
      ensures |calls| == |callbacks|
      ensures forall i :: 0 <= i < |calls| ==> calls[i] == (callbacks[i], levels)
    {
      calls := [];
      var i := 0;
      while i < |callbacks|
        invariant 0 <= i <= |callbacks|
        invariant |calls| == i
        invariant forall j :: 0 <= j < i ==> calls[j] == (callbacks[j], levels)
      {
        calls := calls + [(callbacks[i], levels)];
        i := i + 1;
      }
    }
  }
}

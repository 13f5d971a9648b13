/// The maximum search over one V1720 channel that both
/// `TV1720Correlations::UpdateHistograms` and
/// `TAnaManager::ProcessMidasEvent` run: it starts from value -1 with no
/// index, takes a sample only when it is strictly greater, and reports the
/// time of the maximum at 4 ns per sample.
module V1720Peak {

  /// The nanoseconds per V1720 sample.
  const NanosecsPerSample: real := 4.0

  /// The value and index the search holds after the samples: (-1, -1) when
  /// no sample exceeds -1.
  function Scan(samples: seq<real>): (r: (real, int))
    ensures -1 <= r.1 < |samples|
    decreases |samples|
  {
    if samples == [] then (-1.0, -1)
    else
      var prev := Scan(samples[..|samples| - 1]);
      if samples[|samples| - 1] > prev.0 then (samples[|samples| - 1], |samples| - 1) else prev
  }

  /// `max_adc_value`.
  function PeakValue(samples: seq<real>): real {
    Scan(samples).0
  }

  /// `max_adc_time`: -1 when no index was taken, else 4 ns per sample.
  function PeakTime(samples: seq<real>): real {
    if Scan(samples).1 < 0 then -1.0 else NanosecsPerSample * Scan(samples).1 as real
  }

  /// The search finds the first maximum: no sample exceeds the value, the
  /// value is at the index, and every earlier sample is strictly smaller.
  /// With no index every sample is at most -1.
  lemma {:induction false} ScanIsFirstMaximum(samples: seq<real>)
    ensures Scan(samples).0 >= -1.0
    ensures forall j :: 0 <= j < |samples| ==> samples[j] <= Scan(samples).0
    ensures Scan(samples).1 >= 0 ==>
              && samples[Scan(samples).1] == Scan(samples).0
              && forall j :: 0 <= j < Scan(samples).1 ==> samples[j] < Scan(samples).0
    ensures Scan(samples).1 < 0 ==> Scan(samples).0 == -1.0
    decreases |samples|
  {
    if samples != [] {
      ScanIsFirstMaximum(samples[..|samples| - 1]);
    }
  }

  /// Conversely, the first index of a maximum above -1 is the index found.
  lemma FirstMaximumIsFound(samples: seq<real>, k: nat)
    requires k < |samples| && samples[k] > -1.0
    requires forall j :: 0 <= j < |samples| ==> samples[j] <= samples[k]
    requires forall j :: 0 <= j < k ==> samples[j] < samples[k]
    ensures Scan(samples).1 == k && PeakValue(samples) == samples[k]
    ensures PeakTime(samples) == NanosecsPerSample * k as real
  {
    ScanIsFirstMaximum(samples);
  }

  /// A peak earlier than 400 ns is one in the first 100 samples, or no
  /// sample above -1 at all (time -1).
  lemma EarlyPeak(samples: seq<real>)
    ensures PeakTime(samples) < 400.0 <==> Scan(samples).1 < 100
  {
  }

  /// The search loop of both callers.
  method FindPeak(samples: seq<real>) returns (time: real, value: real)
    ensures time == PeakTime(samples) && value == PeakValue(samples)
  {
    value := -1.0;
    time := -1.0;
    ghost var index := -1;
    for j := 0 to |samples|
      invariant (value, index) == Scan(samples[..j])
      invariant time == if index < 0 then -1.0 else NanosecsPerSample * index as real
    {
      assert samples[..j + 1][..j] == samples[..j];
      var adc := samples[j];
      if adc > value {
        value := adc;
        time := j as real * NanosecsPerSample;
        index := j;
      }
    }
    assert samples[..|samples|] == samples;
  }
}

/// `TDT724Waveform`: one waveform histogram per channel of the DT724
/// digitizer, rewritten from the "D724" measurements of each event.
module DT724Waveform {
  import opened Base
  import opened Events
  import opened Histograms

  const Prefix: string := "DT724"

  /// `CreateHistograms` makes one histogram for each of 2 channels.
  const NumChannels: nat := 2

  /// The waveform length in nanoseconds `CreateHistograms` assumes.
  const WaveformLength: int := 2000

  /// The name `CreateHistograms` looks up before creating anything; it is
  /// the name of the first histogram it creates.
  const GuardName: string := HistName(Prefix, 0)

  /// C's `int` division, which truncates toward zero.
  function CDiv(a: int, b: int): (q: int)
    requires b != 0
    ensures a >= 0 && b > 0 ==> q * b <= a < q * b + b
    ensures a >= 0 && b < 0 ==> q <= 0
  {
    if (a >= 0) == (b > 0) then
      (if a >= 0 then a / b else (-a) / (-b))
    else
      -((if a >= 0 then a else -a) / (if b > 0 then b else -b))
  }

  /// The number of bins of the histograms: one per sample of a 2000 ns
  /// waveform, and ROOT's single bin when that count is not positive.
  function NumBins(nanosecsPerSample: int): (n: nat)
    requires nanosecsPerSample != 0
    ensures n >= 1
    ensures 0 < nanosecsPerSample <= WaveformLength ==>
              n * nanosecsPerSample <= WaveformLength < (n + 1) * nanosecsPerSample
    ensures nanosecsPerSample < 0 || nanosecsPerSample > WaveformLength ==> n == 1
  {
    var q := CDiv(WaveformLength, nanosecsPerSample);
    BinCount(q)
  }

  /// With the 10 ns clock of the DT724 the histograms have 200 bins.
  lemma DefaultBins()
    ensures NumBins(10) == 200
  {
    assert CDiv(WaveformLength, 10) == 200;
  }

  class TDT724Waveform {
    var nanosecsPerSample: int
    /// The histogram array: row h is histogram h.
    var hists: array2<real>
    /// The names of the histograms in the array, in order.
    var names: seq<string>
    const dir: Directory

    ghost predicate Valid()
      reads this
    {
      hists.Length0 == |names|
    }

    /// The histograms `CreateHistograms` has just made: 2 empty histograms
    /// named "DT724_0" and "DT724_1".
    ghost predicate JustCreated()
      reads this, hists
      requires nanosecsPerSample != 0
    {
      && hists.Length0 == NumChannels
      && hists.Length1 == NumBins(nanosecsPerSample) + 2
      && names == HistNames(Prefix, NumChannels)
      && forall h, j :: 0 <= h < hists.Length0 && 0 <= j < hists.Length1 ==> hists[h, j] == 0.0
    }

    /// Sets the 10 ns clock, then creates the histograms.
    constructor (dir: Directory)
      modifies dir
      ensures fresh(hists)
      ensures this.dir == dir && Valid() && nanosecsPerSample == 10
      ensures GuardName in old(dir.names) ==> hists.Length0 == 0 && dir.names == old(dir.names)
      ensures GuardName !in old(dir.names) ==>
                JustCreated() && hists.Length1 == 202 && dir.names == old(dir.names) + NameSet(names)
      ensures GuardName in dir.names || hists.Length0 == 0
    {
      nanosecsPerSample := 10;
      this.dir := dir;
      hists := new real[0, 0];
      names := [];
      new;
      DefaultBins();
      CreateHistograms();
    }

    /// Creates the 2 histograms unless "DT724_0" exists. The first call
    /// creates that name, so every later call leaves everything as it is.
    method CreateHistograms()
      requires Valid() && (GuardName !in dir.names ==> nanosecsPerSample != 0)
      modifies this`hists, this`names, dir
      ensures Valid()
      ensures GuardName in old(dir.names) ==>
                hists == old(hists) && names == old(names) && dir.names == old(dir.names)
      ensures GuardName !in old(dir.names) ==>
                && fresh(hists) && JustCreated()
                && dir.names == old(dir.names) + NameSet(names)
      ensures GuardName in dir.names || (hists == old(hists) && names == old(names))
    {
      if GuardName in dir.names {
        return;
      }
      var created: seq<string> := [];
      for i := 0 to NumChannels
        invariant created == HistNames(Prefix, NumChannels)[..i]
        invariant dir.names == old(dir.names) + NameSet(created)
      {
        var name := HistName(Prefix, i);
        dir.Register(name);
        created := created + [name];
      }
      assert created[0] == GuardName;
      hists := new real[NumChannels, NumBins(nanosecsPerSample) + 2]((h, j) => 0.0);
      names := created;
    }

    /// Each measurement of the "D724" bank clears every bin of its
    /// channel's histogram, then writes its samples from bin 1 on; no bank,
    /// no change.
    method UpdateHistograms(event: Event)
      requires event.d724.Some? ==>
                 forall i :: 0 <= i < |event.d724.value| ==> 0 <= event.d724.value[i].channel < hists.Length0
      modifies hists
      ensures event.d724.None? ==> Contents(hists) == old(Contents(hists))
      ensures event.d724.Some? ==>
                Contents(hists) == ApplyMeasurements(old(Contents(hists)), event.d724.value, hists.Length1 - 2, _ => 0.0)
    {
      if event.d724.None? {
        return;
      }
      var ms := event.d724.value;
      for i := 0 to |ms|
        invariant Contents(hists) == ApplyMeasurements(old(Contents(hists)), ms[..i], hists.Length1 - 2, _ => 0.0)
      {
        var chan := ms[i].channel;
        ZeroBins(hists, chan, 1, hists.Length1 - 1);
        WriteWaveform(hists, chan, ms[i].samples, 0.0);
        assert ms[..i + 1][..i] == ms[..i];
      }
      assert ms[..|ms|] == ms;
    }

    /// `Reset` as written: it visits indices 0 to 7, clearing bins 0 to
    /// nbins - 1 and resetting each histogram. Past the last histogram
    /// `GetHistogram` is out of range; the model stops there and returns
    /// the index.
    method ResetAsWritten() returns (outOfRange: Option<int>)
      modifies hists
      ensures outOfRange == if hists.Length0 < 8 then Some(hists.Length0) else None
      ensures forall h, j :: 0 <= h < hists.Length0 && h < 8 && 0 <= j < hists.Length1 ==> hists[h, j] == 0.0
    {
      for index := 0 to 8
        invariant index <= hists.Length0
        invariant forall h, j :: 0 <= h < index && 0 <= j < hists.Length1 ==> hists[h, j] == 0.0
      {
        if index >= hists.Length0 {
          return Some(index);
        }
        ZeroBins(hists, index, 0, hists.Length1 - 2);
        ResetHistogram(hists, index);
      }
      return None;
    }

    /// `Reset` as evidently intended: every histogram of the array, and
    /// only those, back to zero.
    method Reset()
      modifies hists
      ensures forall h, j :: 0 <= h < hists.Length0 && 0 <= j < hists.Length1 ==> hists[h, j] == 0.0
    {
      for index := 0 to hists.Length0
        invariant forall h, j :: 0 <= h < index && 0 <= j < hists.Length1 ==> hists[h, j] == 0.0
      {
        ResetHistogram(hists, index);
      }
    }

    method BeginRun(transition: int, run: int, time: int)
      requires Valid() && (GuardName !in dir.names ==> nanosecsPerSample != 0)
      modifies this`hists, this`names, dir
      ensures Valid()
      ensures GuardName in old(dir.names) ==>
                hists == old(hists) && names == old(names) && dir.names == old(dir.names)
      ensures GuardName !in old(dir.names) ==>
                && fresh(hists) && JustCreated()
                && dir.names == old(dir.names) + NameSet(names)
    {
      CreateHistograms();
    }

    function GetNsecsPerSample(): int
      reads this
    {
      nanosecsPerSample
    }

    /// Changes only the bin count of histograms created later.
    method SetNanosecsPerSample(n: int)
      modifies this`nanosecsPerSample
      ensures GetNsecsPerSample() == n
      ensures hists == old(hists) && names == old(names)
    {
      nanosecsPerSample := n;
    }
  }

  /// Once the histograms exist, the last measurement of a channel in an
  /// event decides every bin of its histogram: the update leaves nothing
  /// of an earlier waveform behind, however short the new one is.
  lemma {:induction false} NoStaleBins(rows: seq<seq<real>>, ms: seq<Measurement>, width: nat, i: nat, j: nat)
    requires width >= 2 && Rectangular(rows, width)
    requires forall k :: 0 <= k < |ms| ==> 0 <= ms[k].channel < |rows|
    requires i < |ms| && forall k :: i < k < |ms| ==> ms[k].channel != ms[i].channel
    requires 1 <= j < width - 1
    ensures ApplyMeasurements(rows, ms, width - 2, _ => 0.0)[ms[i].channel][j]
            == if j <= |ms[i].samples| then ms[i].samples[j - 1] else 0.0
  {
    LastMeasurementDecides(rows, ms, width - 2, _ => 0.0, i, j);
  }
}

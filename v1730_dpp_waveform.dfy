/// `TV1730DppWaveform`: one waveform histogram per channel of a V1730
/// board, rewritten from the DPP-encoded "V730" measurements of each event.
module V1730DppWaveform {
  import opened Base
  import opened Events
  import opened Histograms
  import V1730RawWaveform

  const Prefix: string := "V1730Dpp"

  /// `CreateHistograms` makes one histogram for each of 16 channels.
  const NumChannels: nat := 16

  /// The name `CreateHistograms` looks up before creating anything.
  const GuardName: string := HistName(HistName(Prefix, 0), 0)

  /// The same "Hack!" pedestal as the raw waveforms: channel 1 less 35.
  function Offset(chan: int): real {
    V1730RawWaveform.Offset(chan)
  }

  class TV1730DppWaveform {
    var numSamples: int
    var nanosecsPerSample: int
    /// The histogram array: row h is histogram h.
    var hists: array2<real>
    /// The names of the histograms in the array, in order.
    var names: seq<string>
    const dir: Directory

    ghost predicate Valid()
      reads this
    {
      hists.Length0 == |names|
    }

    /// The histograms `CreateHistograms` has just made: 16 empty histograms
    /// of `numSamples` bins named "V1730Dpp_0" to "V1730Dpp_15".
    ghost predicate JustCreated()
      reads this, hists
    {
      && hists.Length0 == NumChannels
      && hists.Length1 == BinCount(numSamples) + 2
      && names == HistNames(Prefix, NumChannels)
      && forall h, j :: 0 <= h < hists.Length0 && 0 <= j < hists.Length1 ==> hists[h, j] == 0.0
    }

    /// Sets 64 samples of 2 ns, then creates the histograms.
    constructor (dir: Directory)
      modifies dir
      ensures fresh(hists)
      ensures this.dir == dir && Valid()
      ensures numSamples == 64 && nanosecsPerSample == 2
      ensures GuardName in old(dir.names) ==> hists.Length0 == 0 && dir.names == old(dir.names)
      ensures GuardName !in old(dir.names) ==>
                JustCreated() && dir.names == old(dir.names) + NameSet(names) && GuardName !in dir.names
    {
      numSamples := 64;
      nanosecsPerSample := 2;
      this.dir := dir;
      hists := new real[0, 0];
      names := [];
      new;
      CreateHistograms();
    }

    /// Creates the 16 histograms unless "V1730Dpp_0_0" exists. No histogram
    /// ever has that name, so every call builds a new set of empty histograms.
    method CreateHistograms()
      requires Valid()
      modifies this`hists, this`names, dir
      ensures Valid()
      ensures GuardName in old(dir.names) ==>
                hists == old(hists) && names == old(names) && dir.names == old(dir.names)
      ensures GuardName !in old(dir.names) ==>
                && fresh(hists) && JustCreated()
                && dir.names == old(dir.names) + NameSet(names)
                && GuardName !in dir.names
    {
      if GuardName in dir.names {
        return;
      }
      var created: seq<string> := [];
      for i := 0 to NumChannels
        invariant created == HistNames(Prefix, NumChannels)[..i]
        invariant dir.names == old(dir.names) + NameSet(created)
      {
        var name := HistName(Prefix, i);
        dir.Register(name);
        created := created + [name];
      }
      assert created == HistNames(Prefix, NumChannels);
      DoubleIndexNeverCreated(Prefix, NumChannels);
      hists := new real[NumChannels, BinCount(numSamples) + 2]((h, j) => 0.0);
      names := created;
    }

    /// Each measurement of the "V730" bank clears bins 1 to `numSamples` of
    /// its channel's histogram, then writes its samples less the offset from
    /// bin 1 on; no bank, no change.
    method UpdateHistograms(event: Event)
      requires Valid()
      requires event.v730Dpp.Some? ==>
                 forall i :: 0 <= i < |event.v730Dpp.value| ==> 0 <= event.v730Dpp.value[i].channel < hists.Length0
      modifies hists
      ensures event.v730Dpp.None? ==> Contents(hists) == old(Contents(hists))
      ensures event.v730Dpp.Some? ==>
                Contents(hists) == ApplyMeasurements(old(Contents(hists)), event.v730Dpp.value, numSamples, Offset)
    {
      if event.v730Dpp.None? {
        return;
      }
      var ms := event.v730Dpp.value;
      for i := 0 to |ms|
        invariant Contents(hists) == ApplyMeasurements(old(Contents(hists)), ms[..i], numSamples, Offset)
      {
        var chan := ms[i].channel;
        ZeroBins(hists, chan, 1, numSamples + 1);
        var offset := if chan == 1 then 35.0 else 0.0;
        WriteWaveform(hists, chan, ms[i].samples, offset);
        assert ms[..i + 1][..i] == ms[..i];
      }
      assert ms[..|ms|] == ms;
    }

    /// `Reset` as written: it visits index iBoard * 8 + i for 32 boards of 8
    /// channels, clearing bins 0 to 2499 and resetting each histogram. Past
    /// the last histogram `GetHistogram` is out of range; the model stops
    /// there and returns the index.
    method ResetAsWritten() returns (outOfRange: Option<int>)
      modifies hists
      ensures outOfRange == if hists.Length0 < 256 then Some(hists.Length0) else None
      ensures forall h, j :: 0 <= h < hists.Length0 && h < 256 && 0 <= j < hists.Length1 ==> hists[h, j] == 0.0
    {
      for iBoard := 0 to 32
        invariant iBoard * 8 <= hists.Length0
        invariant forall h, j :: 0 <= h < iBoard * 8 && 0 <= j < hists.Length1 ==> hists[h, j] == 0.0
      {
        for i := 0 to 8
          invariant iBoard * 8 + i <= hists.Length0
          invariant forall h, j :: 0 <= h < iBoard * 8 + i && 0 <= j < hists.Length1 ==> hists[h, j] == 0.0
        {
          var index := iBoard * 8 + i;
          if index >= hists.Length0 {
            return Some(index);
          }
          ZeroBins(hists, index, 0, 2500);
          ResetHistogram(hists, index);
        }
      }
      return None;
    }

    /// `Reset` as evidently intended: every histogram of the array, and
    /// only those, back to zero.
    method Reset()
      modifies hists
      ensures forall h, j :: 0 <= h < hists.Length0 && 0 <= j < hists.Length1 ==> hists[h, j] == 0.0
    {
      for index := 0 to hists.Length0
        invariant forall h, j :: 0 <= h < index && 0 <= j < hists.Length1 ==> hists[h, j] == 0.0
      {
        ResetHistogram(hists, index);
      }
    }

    method BeginRun(transition: int, run: int, time: int)
      requires Valid()
      modifies this`hists, this`names, dir
      ensures Valid()
      ensures GuardName in old(dir.names) ==>
                hists == old(hists) && names == old(names) && dir.names == old(dir.names)
      ensures GuardName !in old(dir.names) ==>
                && fresh(hists) && JustCreated()
                && dir.names == old(dir.names) + NameSet(names)
                && GuardName !in dir.names
    {
      CreateHistograms();
    }

    /// Does nothing.
    method EndRun(transition: int, run: int, time: int) {
    }

    function GetNumSamples(): int
      reads this
    {
      numSamples
    }

    /// Changes only the number of bins later updates clear and later
    /// histograms get: existing histograms keep their size.
    method SetNumSamples(n: int)
      modifies this`numSamples
      ensures GetNumSamples() == n
      ensures nanosecsPerSample == old(nanosecsPerSample) && hists == old(hists)
    {
      numSamples := n;
    }

    function GetNsecsPerSample(): int
      reads this
    {
      nanosecsPerSample
    }

    method SetNanosecsPerSample(n: int)
      modifies this`nanosecsPerSample
      ensures GetNsecsPerSample() == n
      ensures numSamples == old(numSamples) && hists == old(hists)
    {
      nanosecsPerSample := n;
    }
  }
}

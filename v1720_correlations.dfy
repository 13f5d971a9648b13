/// `TV1720Correlations`: for each of the first 8 channels of the V1720
/// "W200" bank, a 2-D histogram of the time of the maximum sample against
/// its value, and the shared "interesting event" flag.
module V1720Correlations {
  import opened Base
  import opened Events
  import opened Histograms
  import opened V1720Peak

  /// The number of histograms, one per channel.
  const NumChannels: nat := 8

  const Prefix: string := "V1720_Correlations"

  /// The name `CreateHistograms` looks up before creating anything; it is
  /// the name of the first histogram it creates.
  const GuardName: string := HistName(Prefix, 0)

  /// A peak earlier than this, in ns, marks the event as interesting.
  const InterestingBefore: real := 400.0

  /// The channels of the bank the update works on: uncompressed data only.
  predicate Processed(event: Event) {
    event.w200.Some? && !event.w200.value.zleCompressed
  }

  /// Whether the update fills histogram i: channel i has samples.
  predicate HasSamples(d: V1720Data, i: nat) {
    |ChannelSamples(d, i)| > 0
  }

  /// The (time, value) fill of channel i.
  function PeakOf(d: V1720Data, i: nat): (real, real) {
    (PeakTime(ChannelSamples(d, i)), PeakValue(ChannelSamples(d, i)))
  }

  /// The histograms after one processed event: each of the first 8
  /// channels with samples adds its peak to its histogram.
  function Filled(fills: seq<seq<(real, real)>>, d: V1720Data): (r: seq<seq<(real, real)>>)
    requires forall i :: 0 <= i < NumChannels && HasSamples(d, i) ==> i < |fills|
    ensures |r| == |fills|
  {
    seq(|fills|, h requires 0 <= h < |fills| =>
      if h < NumChannels && HasSamples(d, h) then fills[h] + [PeakOf(d, h)] else fills[h])
  }

  /// Some processed channel peaks before 400 ns.
  predicate MarksInteresting(d: V1720Data) {
    exists i :: 0 <= i < NumChannels && HasSamples(d, i) && PeakOf(d, i).0 < InterestingBefore
  }

  class TV1720Correlations {
    /// The (time, value) pairs filled into each histogram.
    var fills: seq<seq<(real, real)>>
    /// The names of the histograms in the array, in order.
    var names: seq<string>
    /// `iem_t::instance()`'s interesting flag; this module only sets it.
    var interesting: bool
    const dir: Directory

    ghost predicate Valid()
      reads this
    {
      |fills| == |names|
    }

    constructor (dir: Directory)
      modifies dir
      ensures this.dir == dir && Valid() && !interesting
      ensures GuardName in old(dir.names) ==> fills == [] && dir.names == old(dir.names)
      ensures GuardName !in old(dir.names) ==>
                && fills == NoFills(NumChannels) && names == HistNames(Prefix, NumChannels)
                && dir.names == old(dir.names) + NameSet(names)
    {
      this.dir := dir;
      fills := [];
      names := [];
      interesting := false;
      new;
      CreateHistograms();
    }

    /// Creates the 8 histograms unless "V1720_Correlations_0" exists. The
    /// first call creates that name, so every later call changes nothing.
    method CreateHistograms()
      requires Valid()
      modifies this`fills, this`names, dir
      ensures Valid()
      ensures GuardName in old(dir.names) ==>
                fills == old(fills) && names == old(names) && dir.names == old(dir.names)
      ensures GuardName !in old(dir.names) ==>
                && fills == NoFills(NumChannels) && names == HistNames(Prefix, NumChannels)
                && dir.names == old(dir.names) + NameSet(names)
      ensures GuardName in dir.names || (fills == old(fills) && names == old(names))
    {
      if GuardName in dir.names {
        return;
      }
      fills := [];
      names := [];
      for i := 0 to NumChannels
        invariant names == HistNames(Prefix, NumChannels)[..i]
        invariant fills == NoFills(i)
        invariant dir.names == old(dir.names) + NameSet(names)
      {
        var name := HistName(Prefix, i);
        dir.Register(name);
        fills := fills + [[]];
        names := names + [name];
      }
      assert names[0] == GuardName;
    }

    /// For uncompressed "W200" data, each of the first 8 channels with
    /// samples fills its peak time and value into its histogram, and a peak
    /// before 400 ns sets the interesting flag; otherwise nothing changes.
    method UpdateHistograms(event: Event)
      requires Processed(event) ==>
                 forall i :: 0 <= i < NumChannels && HasSamples(event.w200.value, i) ==> i < |fills|
      modifies this`fills, this`interesting
      ensures !Processed(event) ==> fills == old(fills) && interesting == old(interesting)
      ensures Processed(event) ==>
                && fills == Filled(old(fills), event.w200.value)
                && (interesting <==> old(interesting) || MarksInteresting(event.w200.value))
    {
      if !Processed(event) {
        return;
      }
      var d := event.w200.value;
      ghost var before := fills;
      for i := 0 to NumChannels
        invariant |fills| == |before|
        invariant forall h :: 0 <= h < |fills| ==>
                    fills[h] == if h < i && HasSamples(d, h) then before[h] + [PeakOf(d, h)] else before[h]
        invariant interesting <==>
                    old(interesting) ||
                    exists k :: 0 <= k < i && HasSamples(d, k) && PeakOf(d, k).0 < InterestingBefore
      {
        var channelData := ChannelSamples(d, i);
        if |channelData| <= 0 {
          continue;
        }
        assert HasSamples(d, i);
        var time, value := FindPeak(channelData);
        fills := fills[i := fills[i] + [(time, value)]];
        if time < InterestingBefore {
          interesting := true;
        }
      }
    }

    /// Empties the 8 histograms.
    method Reset()
      requires |fills| >= NumChannels
      modifies this`fills
      ensures |fills| == |old(fills)|
      ensures forall h :: 0 <= h < |fills| ==> fills[h] == if h < NumChannels then [] else old(fills[h])
    {
      for i := 0 to NumChannels
        invariant |fills| == |old(fills)|
        invariant forall h :: 0 <= h < |fills| ==> fills[h] == if h < i then [] else old(fills[h])
      {
        fills := fills[i := []];
      }
    }
  }

  /// A histogram gets exactly one entry from a processed event when its
  /// channel has samples, and none otherwise.
  lemma OneFillPerChannel(fills: seq<seq<(real, real)>>, d: V1720Data, i: nat)
    requires forall k :: 0 <= k < NumChannels && HasSamples(d, k) ==> k < |fills|
    requires i < |fills|
    ensures |Filled(fills, d)[i]| == |fills[i]| + (if i < NumChannels && HasSamples(d, i) then 1 else 0)
    ensures Filled(fills, d)[i][..|fills[i]|] == fills[i]
  {
  }

  /// The flag is set by an event exactly when a channel with samples has
  /// its first maximum within the first 100 samples, or has no sample above
  /// -1 (time -1).
  lemma InterestingIffEarlyMaximum(d: V1720Data)
    ensures MarksInteresting(d) <==>
              exists i :: 0 <= i < NumChannels && HasSamples(d, i) && Scan(ChannelSamples(d, i)).1 < 100
  {
    forall i | 0 <= i < NumChannels
      ensures PeakOf(d, i).0 < InterestingBefore <==> Scan(ChannelSamples(d, i)).1 < 100
    {
      EarlyPeak(ChannelSamples(d, i));
    }
  }
}

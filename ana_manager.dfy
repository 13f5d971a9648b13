/// `TAnaManager`: builds the analysis modules that the build enables and
/// hands every MIDAS event to each of them in a fixed order, then compares
/// the peaks of V1720 channels 0 and 1.
module AnaManager {
  import opened Base
  import opened Events
  import opened Histograms
  import opened V1720Peak
  import L2249Histogram
  import AgilentHistogram
  import V1720Correlations
  import V1730DppWaveform
  import V1730RawWaveform
  import DT724Waveform

  /// The analysis modules the manager can hold. V792, V1190 and the V1720
  /// waveform module are held and called too, but their classes are not
  /// part of this model.
  datatype ModuleKind = V792 | V1190 | L2249 | Agilent | V1720 | V1720Corr | V1730Dpp | V1730Raw | DT724

  /// The compile flags `USE_V792`, `USE_V1190`, `USE_L2249`,
  /// `USE_AGILENT`, `USE_V1720` (waveforms and correlations),
  /// `USE_V1730DPP`, `USE_V1730RAW` and `USE_DT724`.
  datatype Config = Config(useV792: bool, useV1190: bool, useL2249: bool, useAgilent: bool,
                           useV1720: bool, useV1730Dpp: bool, useV1730Raw: bool, useDT724: bool)

  /// Whether the build creates module k.
  predicate Enabled(c: Config, k: ModuleKind) {
    match k
    case V792 => c.useV792
    case V1190 => c.useV1190
    case L2249 => c.useL2249
    case Agilent => c.useAgilent
    case V1720 => c.useV1720
    case V1720Corr => c.useV1720
    case V1730Dpp => c.useV1730Dpp
    case V1730Raw => c.useV1730Raw
    case DT724 => c.useDT724
  }

  /// The order in which `ProcessMidasEvent` calls the modules.
  const DispatchOrder: seq<ModuleKind> := [V792, V1190, L2249, Agilent, V1720, V1720Corr, V1730Dpp, V1730Raw, DT724]

  /// A module's position in `DispatchOrder`.
  function Rank(k: ModuleKind): (r: nat)
    ensures r < |DispatchOrder| && DispatchOrder[r] == k
  {
    match k
    case V792 => 0
    case V1190 => 1
    case L2249 => 2
    case Agilent => 3
    case V1720 => 4
    case V1720Corr => 5
    case V1730Dpp => 6
    case V1730Raw => 7
    case DT724 => 8
  }

  /// The enabled modules among ks, in the order of ks.
  function EnabledOf(c: Config, ks: seq<ModuleKind>): (r: seq<ModuleKind>)
    ensures |r| <= |ks|
    decreases |ks|
  {
    if ks == [] then []
    else EnabledOf(c, ks[..|ks| - 1]) + (if Enabled(c, ks[|ks| - 1]) then [ks[|ks| - 1]] else [])
  }

  /// The modules one event is handed to, in call order.
  function Dispatched(c: Config): seq<ModuleKind> {
    EnabledOf(c, DispatchOrder)
  }

  /// Filtering keeps exactly the enabled members, and keeps an increasing
  /// order increasing.
  lemma {:induction false} EnabledOfFilters(c: Config, ks: seq<ModuleKind>)
    requires forall i, j :: 0 <= i < j < |ks| ==> Rank(ks[i]) < Rank(ks[j])
    ensures forall k :: k in EnabledOf(c, ks) <==> k in ks && Enabled(c, k)
    ensures forall i, j :: 0 <= i < j < |EnabledOf(c, ks)| ==> Rank(EnabledOf(c, ks)[i]) < Rank(EnabledOf(c, ks)[j])
    decreases |ks|
  {
    if ks != [] {
      var init := ks[..|ks| - 1];
      EnabledOfFilters(c, init);
      forall k | k in init
        ensures Rank(k) < Rank(ks[|ks| - 1])
      {
        var i :| 0 <= i < |init| && init[i] == k;
      }
    }
  }

  /// Every enabled module, and no other, is called exactly once per event,
  /// in the fixed order V792, V1190, L2249, Agilent, V1720 waveforms, V1720
  /// correlations, V1730 DPP, V1730 raw, DT724.
  lemma DispatchRespectsOrder(c: Config)
    ensures forall k :: k in Dispatched(c) <==> Enabled(c, k)
    ensures forall i, j :: 0 <= i < j < |Dispatched(c)| ==> Rank(Dispatched(c)[i]) < Rank(Dispatched(c)[j])
    ensures forall i, j :: 0 <= i < j < |Dispatched(c)| ==> Dispatched(c)[i] != Dispatched(c)[j]
  {
    forall i | 0 <= i < |DispatchOrder|
      ensures Rank(DispatchOrder[i]) == i
    {
    }
    EnabledOfFilters(c, DispatchOrder);
    forall k
      ensures k in DispatchOrder
    {
      assert DispatchOrder[Rank(k)] == k;
    }
  }

  /// The modules `ProcessMidasEvent` calls, walked in dispatch order.
  method DispatchList(c: Config) returns (calls: seq<ModuleKind>)
    ensures calls == Dispatched(c)
  {
    calls := [];
    for n := 0 to |DispatchOrder|
      invariant calls == EnabledOf(c, DispatchOrder[..n])
    {
      assert DispatchOrder[..n + 1][..n] == DispatchOrder[..n];
      if Enabled(c, DispatchOrder[n]) {
        calls := calls + [DispatchOrder[n]];
      }
    }
    assert DispatchOrder[..|DispatchOrder|] == DispatchOrder;
  }

  // ---------------------------------------------------------------------
  // The V1720 channel 0 / channel 1 comparison

  /// The comparison as written: `time[2]` and `ph[2]` are uninitialised, and
  /// a channel without samples is skipped but its entries are still read.
  /// `stale` stands for whatever the stack held: (time0, time1, ph0, ph1).
  /// The result is the (ph0, ph1) and (time0, time1) fills.
  function CompareAsWritten(d: V1720Data, stale: (real, real, real, real)): ((real, real), (real, real)) {
    var s0 := ChannelSamples(d, 0);
    var s1 := ChannelSamples(d, 1);
    var t0 := if |s0| > 0 then PeakTime(s0) else stale.0;
    var t1 := if |s1| > 0 then PeakTime(s1) else stale.1;
    var p0 := if |s0| > 0 then PeakValue(s0) else stale.2;
    var p1 := if |s1| > 0 then PeakValue(s1) else stale.3;
    ((p0, p1), (t0, t1))
  }

  /// An event whose channel 0 has no samples fills the comparison with
  /// whatever the stack held.
  lemma AsWrittenFillsUninitialised()
    ensures var d := V1720Data(false, [[], [5.0]]);
            CompareAsWritten(d, (0.0, 0.0, 0.0, 0.0)) != CompareAsWritten(d, (1.0, 1.0, 1.0, 1.0))
  {
    var d := V1720Data(false, [[], [5.0]]);
    assert ChannelSamples(d, 0) == [];
    assert |ChannelSamples(d, 1)| > 0;
  }

  /// The comparison as evidently intended: both fills happen only when
  /// channels 0 and 1 both have samples, with their peaks.
  function CompareFill(d: V1720Data): (fill: Option<((real, real), (real, real))>)
    ensures fill.Some? <==> |ChannelSamples(d, 0)| > 0 && |ChannelSamples(d, 1)| > 0
  {
    var s0 := ChannelSamples(d, 0);
    var s1 := ChannelSamples(d, 1);
    if |s0| > 0 && |s1| > 0 then
      Some(((PeakValue(s0), PeakValue(s1)), (PeakTime(s0), PeakTime(s1))))
    else None
  }

  /// Where the as-written comparison reads only what the loop wrote, the
  /// corrected one fills the same values, whatever the stack held.
  lemma CorrectedAgreesWhenInitialised(d: V1720Data, stale: (real, real, real, real))
    requires |ChannelSamples(d, 0)| > 0 && |ChannelSamples(d, 1)| > 0
    ensures CompareFill(d) == Some(CompareAsWritten(d, stale))
  {
  }

  /// The peak loop over channels 0 and 1.
  method ComparePeaks(d: V1720Data) returns (fill: Option<((real, real), (real, real))>)
    ensures fill == CompareFill(d)
  {
    var times: seq<real> := [];
    var heights: seq<real> := [];
    var complete := true;
    for i := 0 to 2
      invariant complete <==> forall k :: 0 <= k < i ==> |ChannelSamples(d, k)| > 0
      invariant complete ==> |times| == i && |heights| == i
      invariant complete ==> forall k :: 0 <= k < i ==>
                  times[k] == PeakTime(ChannelSamples(d, k)) && heights[k] == PeakValue(ChannelSamples(d, k))
    {
      var channelData := ChannelSamples(d, i);
      if |channelData| <= 0 {
        complete := false;
        continue;
      }
      var time, value := FindPeak(channelData);
      times := times + [time];
      heights := heights + [value];
    }
    if complete {
      fill := Some(((heights[0], heights[1]), (times[0], times[1])));
    } else {
      fill := None;
    }
  }

  /// The histograms of a module whose prefix starts with neither 'V' nor
  /// 'D' never carry the guard name of a V1720, V1730 or DT724 module.
  lemma FirstModulesAvoidGuards(prefix: string, n: nat)
    requires |prefix| > 0 && prefix[0] != 'V' && prefix[0] != 'D'
    ensures V1720Correlations.GuardName !in NameSet(HistNames(prefix, n))
    ensures V1730DppWaveform.GuardName !in NameSet(HistNames(prefix, n))
    ensures V1730RawWaveform.GuardName !in NameSet(HistNames(prefix, n))
    ensures DT724Waveform.GuardName !in NameSet(HistNames(prefix, n))
  {
    NamesAvoidGuards(prefix, n, V1720Correlations.Prefix, 0);
    NamesAvoidGuards(prefix, n, V1730DppWaveform.Prefix, 0);
    NamesAvoidGuards(prefix, n, V1730RawWaveform.Prefix, 0);
    NamesAvoidGuards(prefix, n, DT724Waveform.Prefix, 0);
  }

  /// Whether a directory holds guard name g is the same before and after.
  ghost predicate GuardKept(g: string, before: set<string>, after: set<string>) {
    g in before <==> g in after
  }

  /// `new TL2249Histograms()` when enabled.
  method NewL2249(enabled: bool, dir: Directory) returns (m: L2249Histogram.TL2249Histograms?)
    modifies dir
    ensures (m != null) == enabled
    ensures m != null ==>
              && fresh(m) && m.dir == dir
              && m.fills == NoFills(L2249Histogram.NumChannels)
              && m.names == HistNames(L2249Histogram.Prefix, L2249Histogram.NumChannels)
    ensures old(dir.names) <= dir.names
    ensures GuardKept(V1720Correlations.GuardName, old(dir.names), dir.names)
    ensures GuardKept(V1730DppWaveform.GuardName, old(dir.names), dir.names)
    ensures GuardKept(V1730RawWaveform.GuardName, old(dir.names), dir.names)
    ensures GuardKept(DT724Waveform.GuardName, old(dir.names), dir.names)
  {
    m := null;
    if enabled {
      m := new L2249Histogram.TL2249Histograms(dir);
      FirstModulesAvoidGuards(L2249Histogram.Prefix, L2249Histogram.NumChannels);
    }
  }

  /// `new TAgilentHistograms()` when enabled.
  method NewAgilent(enabled: bool, dir: Directory) returns (m: AgilentHistogram.TAgilentHistograms?)
    modifies dir
    ensures (m != null) == enabled
    ensures m != null ==>
              && fresh(m) && m.dir == dir
              && m.fills == NoFills(AgilentHistogram.NumChannels)
              && m.names == HistNames(AgilentHistogram.Prefix, AgilentHistogram.NumChannels)
    ensures old(dir.names) <= dir.names
    ensures GuardKept(V1720Correlations.GuardName, old(dir.names), dir.names)
    ensures GuardKept(V1730DppWaveform.GuardName, old(dir.names), dir.names)
    ensures GuardKept(V1730RawWaveform.GuardName, old(dir.names), dir.names)
    ensures GuardKept(DT724Waveform.GuardName, old(dir.names), dir.names)
  {
    m := null;
    if enabled {
      m := new AgilentHistogram.TAgilentHistograms(dir);
      FirstModulesAvoidGuards(AgilentHistogram.Prefix, AgilentHistogram.NumChannels);
    }
  }

  /// `new TV1720Correlations()` when enabled.
  method NewCorrelations(enabled: bool, dir: Directory) returns (m: V1720Correlations.TV1720Correlations?)
    modifies dir
    ensures (m != null) == enabled
    ensures m != null ==>
              && fresh(m) && m.dir == dir && !m.interesting
              && (V1720Correlations.GuardName in old(dir.names) ==> m.fills == [])
              && (V1720Correlations.GuardName !in old(dir.names) ==>
                    && m.fills == NoFills(V1720Correlations.NumChannels)
                    && m.names == HistNames(V1720Correlations.Prefix, V1720Correlations.NumChannels))
    ensures old(dir.names) <= dir.names
    ensures GuardKept(V1730DppWaveform.GuardName, old(dir.names), dir.names)
    ensures GuardKept(V1730RawWaveform.GuardName, old(dir.names), dir.names)
    ensures GuardKept(DT724Waveform.GuardName, old(dir.names), dir.names)
  {
    m := null;
    if enabled {
      m := new V1720Correlations.TV1720Correlations(dir);
      NamesAvoidGuards(V1720Correlations.Prefix, V1720Correlations.NumChannels, V1730DppWaveform.Prefix, 3);
      NamesAvoidGuards(V1720Correlations.Prefix, V1720Correlations.NumChannels, V1730RawWaveform.Prefix, 3);
      NamesAvoidGuards(V1720Correlations.Prefix, V1720Correlations.NumChannels, DT724Waveform.Prefix, 0);
    }
  }

  /// `new TV1730DppWaveform()` when enabled.
  method NewV1730Dpp(enabled: bool, dir: Directory) returns (m: V1730DppWaveform.TV1730DppWaveform?)
    modifies dir
    ensures (m != null) == enabled
    ensures m != null ==>
              && fresh(m) && fresh(m.hists) && m.dir == dir && m.Valid()
              && m.numSamples == 64 && m.nanosecsPerSample == 2
              && (V1730DppWaveform.GuardName in old(dir.names) ==> m.hists.Length0 == 0)
              && (V1730DppWaveform.GuardName !in old(dir.names) ==> m.JustCreated())
    ensures old(dir.names) <= dir.names
    ensures GuardKept(V1730RawWaveform.GuardName, old(dir.names), dir.names)
    ensures GuardKept(DT724Waveform.GuardName, old(dir.names), dir.names)
  {
    m := null;
    if enabled {
      m := new V1730DppWaveform.TV1730DppWaveform(dir);
      NamesAvoidGuards(V1730DppWaveform.Prefix, V1730DppWaveform.NumChannels, V1730RawWaveform.Prefix, 5);
      NamesAvoidGuards(V1730DppWaveform.Prefix, V1730DppWaveform.NumChannels, DT724Waveform.Prefix, 0);
    }
  }

  /// `new TV1730RawWaveform()` when enabled.
  method NewV1730Raw(enabled: bool, dir: Directory) returns (m: V1730RawWaveform.TV1730RawWaveform?)
    modifies dir
    ensures (m != null) == enabled
    ensures m != null ==>
              && fresh(m) && fresh(m.hists) && m.dir == dir && m.Valid()
              && m.numSamples == 64 && m.nanosecsPerSample == 2
              && (V1730RawWaveform.GuardName in old(dir.names) ==> m.hists.Length0 == 0)
              && (V1730RawWaveform.GuardName !in old(dir.names) ==> m.JustCreated())
    ensures old(dir.names) <= dir.names
    ensures GuardKept(DT724Waveform.GuardName, old(dir.names), dir.names)
  {
    m := null;
    if enabled {
      m := new V1730RawWaveform.TV1730RawWaveform(dir);
      NamesAvoidGuards(V1730RawWaveform.Prefix, V1730RawWaveform.NumChannels, DT724Waveform.Prefix, 0);
    }
  }

  /// `new TDT724Waveform()` when enabled.
  method NewDT724(enabled: bool, dir: Directory) returns (m: DT724Waveform.TDT724Waveform?)
    modifies dir
    ensures (m != null) == enabled
    ensures m != null ==>
              && fresh(m) && fresh(m.hists) && m.dir == dir && m.Valid() && m.nanosecsPerSample == 10
              && (DT724Waveform.GuardName in old(dir.names) ==> m.hists.Length0 == 0)
              && (DT724Waveform.GuardName !in old(dir.names) ==> m.JustCreated() && m.hists.Length1 == 202)
    ensures old(dir.names) <= dir.names
  {
    m := null;
    if enabled {
      m := new DT724Waveform.TDT724Waveform(dir);
    }
  }

  class TAnaManager {
    const config: Config
    const l2249: L2249Histogram.TL2249Histograms?
    const agilent: AgilentHistogram.TAgilentHistograms?
    const correlations: V1720Correlations.TV1720Correlations?
    const v1730Dpp: V1730DppWaveform.TV1730DppWaveform?
    const v1730Raw: V1730RawWaveform.TV1730RawWaveform?
    const dt724: DT724Waveform.TDT724Waveform?
    /// The (channel 0, channel 1) pulse-height fills of "V1720PHCompare".
    var phCompare: seq<(real, real)>
    /// The (channel 0, channel 1) peak-time fills of "V1720TimeCompare".
    var timeCompare: seq<(real, real)>

    /// A module exists exactly when its flag is set, and the waveform
    /// modules have histogram arrays of their own.
    ghost predicate Valid()
      reads l2249, agilent, correlations, v1730Dpp, v1730Raw, dt724
    {
      && (l2249 != null <==> config.useL2249)
      && (agilent != null <==> config.useAgilent)
      && (correlations != null <==> config.useV1720)
      && (v1730Dpp != null <==> config.useV1730Dpp)
      && (v1730Raw != null <==> config.useV1730Raw)
      && (dt724 != null <==> config.useDT724)
      && (v1730Dpp != null ==> v1730Dpp.Valid())
      && (v1730Raw != null ==> v1730Raw.Valid())
      && (v1730Dpp != null && v1730Raw != null ==> v1730Dpp.hists != v1730Raw.hists)
      && (v1730Dpp != null && dt724 != null ==> v1730Dpp.hists != dt724.hists)
      && (v1730Raw != null && dt724 != null ==> v1730Raw.hists != dt724.hists)
    }

    /// The histogram arrays of the waveform modules.
    ghost function Arrays(): set<object>
      reads v1730Dpp, v1730Raw, dt724
    {
      (if v1730Dpp != null then {v1730Dpp.hists} else {})
      + (if v1730Raw != null then {v1730Raw.hists} else {})
      + (if dt724 != null then {dt724.hists} else {})
    }

    /// What each module's update demands of the event.
    ghost predicate Accepts(event: Event)
      reads l2249, agilent, correlations, v1730Dpp, v1730Raw, dt724
    {
      AcceptsCounting(event) && AcceptsV1720(event) && AcceptsWaveforms(event)
    }

    ghost predicate AcceptsCounting(event: Event)
      reads l2249, agilent
    {
      && (l2249 != null && event.adc0.Some? ==> |event.adc0.value| <= |l2249.fills|)
      && (agilent != null && event.bert.Some? ==>
            |event.bert.value| >= AgilentHistogram.NumChannels && |agilent.fills| >= AgilentHistogram.NumChannels)
    }

    ghost predicate AcceptsV1720(event: Event)
      reads correlations
    {
      correlations != null && V1720Correlations.Processed(event) ==>
        forall i :: 0 <= i < V1720Correlations.NumChannels && V1720Correlations.HasSamples(event.w200.value, i) ==>
          i < |correlations.fills|
    }

    ghost predicate AcceptsWaveforms(event: Event)
      reads v1730Dpp, v1730Raw, dt724
    {
      && (v1730Dpp != null && event.v730Dpp.Some? ==>
            forall i :: 0 <= i < |event.v730Dpp.value| ==> 0 <= event.v730Dpp.value[i].channel < v1730Dpp.hists.Length0)
      && (v1730Raw != null && event.v730Raw.Some? ==>
            forall i :: 0 <= i < |event.v730Raw.value| ==> 0 <= event.v730Raw.value[i].channel < v1730Raw.hists.Length0)
      && (dt724 != null && event.d724.Some? ==>
            forall i :: 0 <= i < |event.d724.value| ==> 0 <= event.d724.value[i].channel < dt724.hists.Length0)
    }

    /// The comparison fill of an event, if any.
    function CompareOf(event: Event): Option<((real, real), (real, real))>
    {
      if config.useV1720 && V1720Correlations.Processed(event) then CompareFill(event.w200.value) else None
    }

    /// Creates the module of every enabled flag, in dispatch order. Each
    /// module makes its histograms as its own constructor does; the guard a
    /// module looks up is one no earlier module creates, so whether a guarded
    /// module creates its histograms depends only on the directory as it was.
    constructor (config: Config, dir: Directory)
      modifies dir
      ensures this.config == config && Valid()
      ensures phCompare == [] && timeCompare == []
      ensures old(dir.names) <= dir.names
      ensures l2249 != null ==>
                && fresh(l2249) && l2249.dir == dir
                && l2249.fills == NoFills(L2249Histogram.NumChannels)
                && l2249.names == HistNames(L2249Histogram.Prefix, L2249Histogram.NumChannels)
      ensures agilent != null ==>
                && fresh(agilent) && agilent.dir == dir
                && agilent.fills == NoFills(AgilentHistogram.NumChannels)
                && agilent.names == HistNames(AgilentHistogram.Prefix, AgilentHistogram.NumChannels)
      ensures correlations != null ==>
                && fresh(correlations) && correlations.dir == dir && !correlations.interesting
                && (V1720Correlations.GuardName in old(dir.names) ==> correlations.fills == [])
                && (V1720Correlations.GuardName !in old(dir.names) ==>
                      && correlations.fills == NoFills(V1720Correlations.NumChannels)
                      && correlations.names == HistNames(V1720Correlations.Prefix, V1720Correlations.NumChannels))
      ensures v1730Dpp != null ==>
                && fresh(v1730Dpp) && fresh(v1730Dpp.hists) && v1730Dpp.dir == dir
                && v1730Dpp.numSamples == 64 && v1730Dpp.nanosecsPerSample == 2
                && (V1730DppWaveform.GuardName in old(dir.names) ==> v1730Dpp.hists.Length0 == 0)
                && (V1730DppWaveform.GuardName !in old(dir.names) ==> v1730Dpp.JustCreated())
      ensures v1730Raw != null ==>
                && fresh(v1730Raw) && fresh(v1730Raw.hists) && v1730Raw.dir == dir
                && v1730Raw.numSamples == 64 && v1730Raw.nanosecsPerSample == 2
                && (V1730RawWaveform.GuardName in old(dir.names) ==> v1730Raw.hists.Length0 == 0)
                && (V1730RawWaveform.GuardName !in old(dir.names) ==> v1730Raw.JustCreated())
      ensures dt724 != null ==>
                && fresh(dt724) && fresh(dt724.hists) && dt724.dir == dir && dt724.nanosecsPerSample == 10
                && (DT724Waveform.GuardName in old(dir.names) ==> dt724.hists.Length0 == 0)
                && (DT724Waveform.GuardName !in old(dir.names) ==> dt724.JustCreated() && dt724.hists.Length1 == 202)
    {
      this.config := config;
      var l := NewL2249(config.useL2249, dir);
      var a := NewAgilent(config.useAgilent, dir);
      var c := NewCorrelations(config.useV1720, dir);
      var dpp := NewV1730Dpp(config.useV1730Dpp, dir);
      var raw := NewV1730Raw(config.useV1730Raw, dir);
      var d := NewDT724(config.useDT724, dir);
      l2249, agilent, correlations := l, a, c;
      v1730Dpp, v1730Raw, dt724 := dpp, raw, d;
      phCompare := [];
      timeCompare := [];
    }

    /// `Have*`: whether the build created module k.
    function Have(k: ModuleKind): (b: bool)
      reads l2249, agilent, correlations, v1730Dpp, v1730Raw, dt724
      requires Valid()
      ensures b <==> Enabled(config, k)
    {
      match k
      case V792 => config.useV792
      case V1190 => config.useV1190
      case L2249 => l2249 != null
      case Agilent => agilent != null
      case V1720 => config.useV1720
      case V1720Corr => correlations != null
      case V1730Dpp => v1730Dpp != null
      case V1730Raw => v1730Raw != null
      case DT724 => dt724 != null
    }

    /// The L2249 and Agilent histograms got this event's fills and kept their names.
    twostate predicate CountingUpdated(event: Event)
      requires old(AcceptsCounting(event))
      reads l2249, agilent
    {
      && (l2249 != null ==>
            l2249.fills == FillEach(old(l2249.fills), L2249Histogram.Reading(event)) && l2249.names == old(l2249.names))
      && (agilent != null ==>
            agilent.fills == FillEach(old(agilent.fills), AgilentHistogram.Reading(event)) && agilent.names == old(agilent.names))
    }

    /// The V1720 correlations got this event's fills and flag and kept their names.
    twostate predicate V1720Updated(event: Event)
      requires old(AcceptsV1720(event))
      reads correlations
    {
      && (correlations != null ==> correlations.names == old(correlations.names))
      && (correlations != null && !V1720Correlations.Processed(event) ==>
            correlations.fills == old(correlations.fills) && correlations.interesting == old(correlations.interesting))
      && (correlations != null && V1720Correlations.Processed(event) ==>
            && correlations.fills == V1720Correlations.Filled(old(correlations.fills), event.w200.value)
            && (correlations.interesting <==>
                  old(correlations.interesting) || V1720Correlations.MarksInteresting(event.w200.value)))
    }

    /// The V1730 DPP waveforms were rewritten from this event's "V730" bank.
    twostate predicate DppUpdated(event: Event)
      requires old(AcceptsWaveforms(event))
      reads v1730Dpp, if v1730Dpp != null then {v1730Dpp.hists} else {}
    {
      v1730Dpp != null ==>
        && old(v1730Dpp.hists) == v1730Dpp.hists
        && (event.v730Dpp.None? ==> Contents(v1730Dpp.hists) == old(Contents(v1730Dpp.hists)))
        && (event.v730Dpp.Some? ==>
              Contents(v1730Dpp.hists)
              == ApplyMeasurements(old(Contents(v1730Dpp.hists)), event.v730Dpp.value, v1730Dpp.numSamples,
                                   V1730DppWaveform.Offset))
    }

    /// The V1730 raw waveforms were rewritten from this event's "V730" bank.
    twostate predicate RawUpdated(event: Event)
      requires old(AcceptsWaveforms(event))
      reads v1730Raw, if v1730Raw != null then {v1730Raw.hists} else {}
    {
      v1730Raw != null ==>
        && old(v1730Raw.hists) == v1730Raw.hists
        && (event.v730Raw.None? ==> Contents(v1730Raw.hists) == old(Contents(v1730Raw.hists)))
        && (event.v730Raw.Some? ==>
              Contents(v1730Raw.hists)
              == ApplyMeasurements(old(Contents(v1730Raw.hists)), event.v730Raw.value, v1730Raw.numSamples,
                                   V1730RawWaveform.Offset))
    }

    /// The DT724 waveforms were rewritten from this event's "D724" bank.
    twostate predicate DT724Updated(event: Event)
      requires old(AcceptsWaveforms(event))
      reads dt724, if dt724 != null then {dt724.hists} else {}
    {
      dt724 != null ==>
        && old(dt724.hists) == dt724.hists
        && (event.d724.None? ==> Contents(dt724.hists) == old(Contents(dt724.hists)))
        && (event.d724.Some? ==>
              Contents(dt724.hists)
              == ApplyMeasurements(old(Contents(dt724.hists)), event.d724.value, dt724.hists.Length1 - 2, _ => 0.0))
    }

    /// Every module this model holds got this event's update.
    twostate predicate ModulesUpdated(event: Event)
      requires old(Accepts(event))
      reads l2249, agilent, correlations, v1730Dpp, v1730Raw, dt724, Arrays()
    {
      && CountingUpdated(event) && V1720Updated(event)
      && DppUpdated(event) && RawUpdated(event) && DT724Updated(event)
    }

    /// The V1730 DPP, V1730 raw and DT724 updates (dispatch steps 6 to 8).
    method UpdateWaveforms(event: Event)
      requires Valid() && AcceptsWaveforms(event)
      modifies Arrays()
      ensures DppUpdated(event) && RawUpdated(event) && DT724Updated(event)
    {
      UpdateDpp(event);
      UpdateRaw(event);
      UpdateDT724(event);
    }

    /// The dispatch to the modules of this model, in order.
    method UpdateModules(event: Event)
      requires Valid() && Accepts(event)
      modifies l2249, agilent, correlations, Arrays()
      ensures ModulesUpdated(event)
    {
      label Start:
      UpdateHistogramModules(event);
      assert unchanged@Start(Arrays());
      assert Valid() && AcceptsWaveforms(event);
      UpdateWaveforms(event);
      assert CountingUpdated(event) && V1720Updated(event);
    }

    /// The L2249, Agilent and V1720 correlations updates (dispatch steps 2
    /// to 5).
    method UpdateHistogramModules(event: Event)
      requires AcceptsCounting(event) && AcceptsV1720(event)
      modifies l2249, agilent, correlations
      ensures CountingUpdated(event) && V1720Updated(event)
    {
      UpdateCounting(event);
      UpdateV1720(event);
    }

    /// The L2249 and Agilent updates (dispatch steps 2 and 3; the V792
    /// and V1190 modules of steps 0 and 1 are not part of this model).
    method UpdateCounting(event: Event)
      requires AcceptsCounting(event)
      modifies l2249, agilent
      ensures CountingUpdated(event)
    {
      if l2249 != null {
        l2249.UpdateHistograms(event);
      }
      if agilent != null {
        agilent.UpdateHistograms(event);
      }
    }

    /// The V1720 correlations update (dispatch step 5; the V1720 waveform
    /// module of step 4 is not part of this model).
    method UpdateV1720(event: Event)
      requires AcceptsV1720(event)
      modifies correlations
      ensures V1720Updated(event)
    {
      if correlations != null {
        correlations.UpdateHistograms(event);
      }
    }

    /// Step 6 of the dispatch: V1730 DPP.
    method UpdateDpp(event: Event)
      requires AcceptsWaveforms(event)
      requires v1730Dpp != null ==> v1730Dpp.Valid()
      modifies if v1730Dpp != null then {v1730Dpp.hists} else {}
      ensures DppUpdated(event)
    {
      if v1730Dpp != null {
        v1730Dpp.UpdateHistograms(event);
      }
    }

    /// Step 7 of the dispatch: V1730 raw.
    method UpdateRaw(event: Event)
      requires AcceptsWaveforms(event)
      requires v1730Raw != null ==> v1730Raw.Valid()
      modifies if v1730Raw != null then {v1730Raw.hists} else {}
      ensures RawUpdated(event)
    {
      if v1730Raw != null {
        v1730Raw.UpdateHistograms(event);
      }
    }

    /// Step 8 of the dispatch: DT724.
    method UpdateDT724(event: Event)
      requires AcceptsWaveforms(event)
      modifies if dt724 != null then {dt724.hists} else {}
      ensures DT724Updated(event)
    {
      if dt724 != null {
        dt724.UpdateHistograms(event);
      }
    }

    /// The two comparison histograms get a fill when the V1720 modules
    /// exist and "W200" holds uncompressed data with samples on channels 0
    /// and 1.
    method FillCompare(event: Event)
      modifies this`phCompare, this`timeCompare
      ensures var fill := CompareOf(event);
              && phCompare == old(phCompare) + (if fill.Some? then [fill.value.0] else [])
              && timeCompare == old(timeCompare) + (if fill.Some? then [fill.value.1] else [])
    {
      if config.useV1720 && V1720Correlations.Processed(event) {
        var fill := ComparePeaks(event.w200.value);
        if fill.Some? {
          phCompare := phCompare + [fill.value.0];
          timeCompare := timeCompare + [fill.value.1];
        }
      }
    }

    /// Hands the event to every module present, in dispatch order (`calls`
    /// lists them), then, when the V1720 modules exist and "W200" holds
    /// uncompressed data, fills the two comparison histograms. Returns 1.
    method ProcessMidasEvent(event: Event) returns (result: int, calls: seq<ModuleKind>)
      requires Valid() && Accepts(event)
      modifies l2249, agilent, correlations, Arrays(), this`phCompare, this`timeCompare
      ensures Valid()
      ensures result == 1 && calls == Dispatched(config)
      ensures ModulesUpdated(event)
      ensures var fill := CompareOf(event);
              && phCompare == old(phCompare) + (if fill.Some? then [fill.value.0] else [])
              && timeCompare == old(timeCompare) + (if fill.Some? then [fill.value.1] else [])
    {
      UpdateModules(event);
      FillCompare(event);
      calls := DispatchList(config);
      result := 1;
    }
  }

  /// A build with every module, made in an empty directory, takes the first
  /// event whose banks its modules can index, and the counting and
  /// correlation histograms hold exactly that event's fills.
  method BuildAndProcess(dir: Directory, event: Event) returns (m: TAnaManager, result: int)
    requires dir.names == {}
    requires event.adc0.Some? ==> |event.adc0.value| <= L2249Histogram.NumChannels
    requires event.bert.Some? ==> |event.bert.value| >= AgilentHistogram.NumChannels
    requires event.v730Dpp.Some? ==>
               forall i :: 0 <= i < |event.v730Dpp.value| ==> 0 <= event.v730Dpp.value[i].channel < V1730DppWaveform.NumChannels
    requires event.v730Raw.Some? ==>
               forall i :: 0 <= i < |event.v730Raw.value| ==> 0 <= event.v730Raw.value[i].channel < V1730RawWaveform.NumChannels
    requires event.d724.Some? ==>
               forall i :: 0 <= i < |event.d724.value| ==> 0 <= event.d724.value[i].channel < DT724Waveform.NumChannels
    modifies dir
    ensures result == 1 && m.Valid()
    ensures m.l2249 != null && m.agilent != null && m.correlations != null
    ensures m.l2249.fills == FillEach(NoFills(L2249Histogram.NumChannels), L2249Histogram.Reading(event))
    ensures m.agilent.fills == FillEach(NoFills(AgilentHistogram.NumChannels), AgilentHistogram.Reading(event))
    ensures !V1720Correlations.Processed(event) ==>
              m.correlations.fills == NoFills(V1720Correlations.NumChannels) && !m.correlations.interesting
    ensures V1720Correlations.Processed(event) ==>
              && m.correlations.fills == V1720Correlations.Filled(NoFills(V1720Correlations.NumChannels), event.w200.value)
              && (m.correlations.interesting <==> V1720Correlations.MarksInteresting(event.w200.value))
    ensures V1720Correlations.Processed(event) && CompareFill(event.w200.value).Some? ==>
              && m.phCompare == [CompareFill(event.w200.value).value.0]
              && m.timeCompare == [CompareFill(event.w200.value).value.1]
    ensures !V1720Correlations.Processed(event) ==> m.phCompare == [] && m.timeCompare == []
  {
    m := new TAnaManager(Config(true, true, true, true, true, true, true, true), dir);
    var calls;
    result, calls := m.ProcessMidasEvent(event);
  }

  /// A module is present exactly when `ProcessMidasEvent` calls it.
  lemma HaveIffCalled(m: TAnaManager, k: ModuleKind)
    requires m.Valid()
    ensures m.Have(k) <==> k in Dispatched(m.config)
  {
    DispatchRespectsOrder(m.config);
  }
}

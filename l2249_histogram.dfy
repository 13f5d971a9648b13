/// `TL2249Histograms`: one counting histogram per channel of the LeCroy
/// 2249 ADC, filled from the "ADC0" bank.
module L2249Histogram {
  import opened Base
  import opened Events
  import opened Histograms

  /// The number of histograms, one per channel.
  const NumChannels: nat := 4

  /// The histograms are named "L2249_0_0" to "L2249_0_3".
  const Prefix: string := "L2249_0"

  /// The values one event fills in, by histogram: the "ADC0" measurements
  /// in bank order, or none when the bank is absent.
  function Reading(event: Event): (values: seq<real>)
    ensures event.adc0.None? ==> values == []
    ensures event.adc0.Some? ==> values == event.adc0.value
  {
    if event.adc0.Some? then event.adc0.value else []
  }

  /// The readings of a run of events, event by event.
  function Readings(events: seq<Event>): (rs: seq<seq<real>>)
    ensures |rs| == |events|
    ensures forall k :: 0 <= k < |events| ==> rs[k] == Reading(events[k])
  {
    seq(|events|, k requires 0 <= k < |events| => Reading(events[k]))
  }

  class TL2249Histograms {
    /// The values filled into each histogram, histogram by histogram.
    var fills: seq<seq<real>>
    /// The names of the histograms in the array, in order.
    var names: seq<string>
    const dir: Directory

    ghost predicate Valid()
      reads this
    {
      |fills| == |names|
    }

    constructor (dir: Directory)
      modifies dir
      ensures this.dir == dir && Valid()
      ensures fills == NoFills(NumChannels) && names == HistNames(Prefix, NumChannels)
      ensures dir.names == old(dir.names) + NameSet(names)
    {
      this.dir := dir;
      fills := [];
      names := [];
      new;
      CreateHistograms();
    }

    /// Replaces the histograms by 4 empty ones, deleting any histogram of
    /// the same name first.
    method CreateHistograms()
      modifies this`fills, this`names, dir
      ensures Valid()
      ensures fills == NoFills(NumChannels) && names == HistNames(Prefix, NumChannels)
      ensures dir.names == old(dir.names) + NameSet(names)
    {
      fills := [];
      names := [];
      for i := 0 to NumChannels
        invariant names == HistNames(Prefix, NumChannels)[..i]
        invariant fills == NoFills(i)
        invariant dir.names == old(dir.names) + NameSet(names)
      {
        var name := HistName(Prefix, i);
        if name in dir.names {
          dir.Delete(name);
        }
        dir.Register(name);
        fills := fills + [[]];
        names := names + [name];
      }
    }

    /// Measurement i of the "ADC0" bank is filled into histogram i.
    method UpdateHistograms(event: Event)
      requires event.adc0.Some? ==> |event.adc0.value| <= |fills|
      modifies this`fills
      ensures fills == FillEach(old(fills), Reading(event))
    {
      if event.adc0.None? {
        assert FillEach(fills, []) == fills;
        return;
      }
      var measurements := event.adc0.value;
      ghost var before := fills;
      for i := 0 to |measurements|
        invariant |fills| == |before|
        invariant forall h :: 0 <= h < |fills| ==>
                    fills[h] == if h < i then before[h] + [measurements[h]] else before[h]
      {
        fills := fills[i := fills[i] + [measurements[i]]];
      }
    }

    method BeginRun(transition: int, run: int, time: int)
      modifies this`fills, this`names, dir
      ensures Valid()
      ensures fills == NoFills(NumChannels) && names == HistNames(Prefix, NumChannels)
      ensures dir.names == old(dir.names) + NameSet(names)
    {
      CreateHistograms();
    }

    /// Does nothing.
    method EndRun(transition: int, run: int, time: int) {
    }
  }

  /// Over a run, histogram i holds measurement i of every event that has
  /// an "ADC0" bank with that many measurements, in event order.
  lemma RunFillsChannelHistory(events: seq<Event>, i: nat)
    requires forall k :: 0 <= k < |events| ==> |Reading(events[k])| <= NumChannels
    requires i < NumChannels
    ensures FillAll(NoFills(NumChannels), Readings(events))[i] == History(Readings(events), i)
  {
    FillAllIsHistory(NoFills<real>(NumChannels), Readings(events), i);
  }
}

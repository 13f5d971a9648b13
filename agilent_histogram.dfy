/// `TAgilentHistograms`: one counting histogram per Agilent current
/// channel, filled from the "BERT" bank.
module AgilentHistogram {
  import opened Base
  import opened Events
  import opened Histograms

  /// The number of histograms, one per channel.
  const NumChannels: nat := 5

  /// The histograms are named "Agilent_0_0" to "Agilent_0_4".
  const Prefix: string := "Agilent_0"

  /// The values one event fills in, by histogram: the first 5 doubles of
  /// the "BERT" bank times 100, or none when the bank is absent.
  function Reading(event: Event): (values: seq<real>)
    requires event.bert.Some? ==> |event.bert.value| >= NumChannels
    ensures event.bert.None? ==> values == []
    ensures event.bert.Some? ==>
              |values| == NumChannels && forall i :: 0 <= i < NumChannels ==> values[i] == 100.0 * event.bert.value[i]
  {
    if event.bert.Some? then seq(NumChannels, i requires 0 <= i < NumChannels => 100.0 * event.bert.value[i]) else []
  }

  /// Every "BERT" bank carries the 5 currents the update reads.
  ghost predicate WellFormed(events: seq<Event>) {
    forall k :: 0 <= k < |events| ==> (events[k].bert.Some? ==> |events[k].bert.value| >= NumChannels)
  }

  /// The readings of a run of events, event by event.
  function Readings(events: seq<Event>): (rs: seq<seq<real>>)
    requires WellFormed(events)
    ensures |rs| == |events|
    ensures forall k :: 0 <= k < |events| ==> rs[k] == Reading(events[k])
  {
    seq(|events|, k requires 0 <= k < |events| => Reading(events[k]))
  }

  /// The number of events that carry a "BERT" bank.
  function BankCount(events: seq<Event>): (n: nat)
    ensures n <= |events|
  {
    if events == [] then 0
    else BankCount(events[..|events| - 1]) + (if events[|events| - 1].bert.Some? then 1 else 0)
  }

  class TAgilentHistograms {
    /// The values filled into each histogram, histogram by histogram.
    var fills: seq<seq<real>>
    /// The names of the histograms in the array, in order.
    var names: seq<string>
    const dir: Directory

    ghost predicate Valid()
      reads this
    {
      |fills| == |names|
    }

    constructor (dir: Directory)
      modifies dir
      ensures this.dir == dir && Valid()
      ensures fills == NoFills(NumChannels) && names == HistNames(Prefix, NumChannels)
      ensures dir.names == old(dir.names) + NameSet(names)
    {
      this.dir := dir;
      fills := [];
      names := [];
      new;
      CreateHistograms();
    }

    /// Replaces the histograms by 5 empty ones, deleting any histogram of
    /// the same name first.
    method CreateHistograms()
      modifies this`fills, this`names, dir
      ensures Valid()
      ensures fills == NoFills(NumChannels) && names == HistNames(Prefix, NumChannels)
      ensures dir.names == old(dir.names) + NameSet(names)
    {
      fills := [];
      names := [];
      for i := 0 to NumChannels
        invariant names == HistNames(Prefix, NumChannels)[..i]
        invariant fills == NoFills(i)
        invariant dir.names == old(dir.names) + NameSet(names)
      {
        var name := HistName(Prefix, i);
        if name in dir.names {
          dir.Delete(name);
        }
        dir.Register(name);
        fills := fills + [[]];
        names := names + [name];
      }
    }

    /// Histogram i is filled with 100 times double i of the "BERT" bank.
    method UpdateHistograms(event: Event)
      requires event.bert.Some? ==> |event.bert.value| >= NumChannels
      requires event.bert.Some? ==> |fills| >= NumChannels
      modifies this`fills
      ensures fills == FillEach(old(fills), Reading(event))
    {
      if event.bert.None? {
        assert FillEach(fills, []) == fills;
        return;
      }
      var data := event.bert.value;
      ghost var before := fills;
      for i := 0 to NumChannels
        invariant |fills| == |before|
        invariant forall h :: 0 <= h < |fills| ==>
                    fills[h] == if h < i then before[h] + [100.0 * data[h]] else before[h]
      {
        fills := fills[i := fills[i] + [100.0 * data[i]]];
      }
    }

    method BeginRun(transition: int, run: int, time: int)
      modifies this`fills, this`names, dir
      ensures Valid()
      ensures fills == NoFills(NumChannels) && names == HistNames(Prefix, NumChannels)
      ensures dir.names == old(dir.names) + NameSet(names)
    {
      CreateHistograms();
    }

    /// Does nothing.
    method EndRun(transition: int, run: int, time: int) {
    }
  }

  /// Channel i's history has one entry per event with a "BERT" bank.
  lemma {:induction false} HistoryCountsBanks(events: seq<Event>, i: nat)
    requires WellFormed(events) && i < NumChannels
    ensures |History(Readings(events), i)| == BankCount(events)
    decreases |events|
  {
    if events != [] {
      var init := events[..|events| - 1];
      HistoryCountsBanks(init, i);
      assert Readings(events)[..|events| - 1] == Readings(init);
    }
  }

  /// Over a run, every histogram gets one entry per event with a "BERT"
  /// bank: 100 times that channel's current, in event order.
  lemma RunFillsEveryChannel(events: seq<Event>, i: nat)
    requires WellFormed(events) && i < NumChannels
    ensures FillAll(NoFills(NumChannels), Readings(events))[i] == History(Readings(events), i)
    ensures |FillAll(NoFills(NumChannels), Readings(events))[i]| == BankCount(events)
  {
    FillAllIsHistory(NoFills<real>(NumChannels), Readings(events), i);
    HistoryCountsBanks(events, i);
  }
}

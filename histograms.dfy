/// The ROOT pieces the analyzer modules use, reduced to what they observe.
///
/// `gDirectory` is the set of histogram names it holds. A module's array of
/// waveform histograms is one `array2<real>`: row h is histogram h, and its
/// cells are bin 0 (underflow), bins 1 to nbins, and bin nbins + 1
/// (overflow), as `SetBinContent` numbers them. A counting histogram is the
/// sequence of values filled into it since it was created.
module Histograms {
  import opened Base
  import opened Events

  class Directory {
    var names: set<string>

    constructor ()
      ensures names == {}
    {
      names := {};
    }

    /// A new histogram registers its name.
    method Register(name: string)
      modifies this
      ensures names == old(names) + {name}
    {
      names := names + {name};
    }

    /// `delete` of the histogram found under `name`.
    method Delete(name: string)
      modifies this
      ensures names == old(names) - {name}
    {
      names := names - {name};
    }
  }

  /// `sprintf(name, "%s_%i", prefix, i)` for a non-negative i.
  function HistName(prefix: string, i: nat): (name: string)
    ensures |name| > |prefix| + 1
    ensures name[..|prefix| + 1] == prefix + "_"
    ensures name[|prefix| + 1..] == NatToString(i)
  {
    prefix + "_" + NatToString(i)
  }

  /// The names of histograms 0 to n - 1 of a module.
  function HistNames(prefix: string, n: nat): (names: seq<string>)
    ensures |names| == n
  {
    seq(n, i requires 0 <= i < n => HistName(prefix, i))
  }

  /// Different indices give different names.
  lemma HistNameInjective(prefix: string, i: nat, j: nat)
    requires i != j
    ensures HistName(prefix, i) != HistName(prefix, j)
  {
    NatToStringInjective(i, j);
  }

  /// After "prefix_", a name holds only digits.
  lemma DigitsAfterPrefix(prefix: string, i: nat)
    ensures forall k :: |prefix| + 1 <= k < |HistName(prefix, i)| ==> IsDigit(HistName(prefix, i)[k])
  {
    var name := HistName(prefix, i);
    forall k | |prefix| + 1 <= k < |name|
      ensures IsDigit(name[k])
    {
      assert name[k] == name[|prefix| + 1..][k - |prefix| - 1];
    }
  }

  /// The first |prefix| characters of a name are its prefix.
  lemma PrefixChar(prefix: string, i: nat, k: nat)
    requires k < |prefix|
    ensures k < |HistName(prefix, i)| && HistName(prefix, i)[k] == prefix[k]
  {
    assert HistName(prefix, i)[k] == HistName(prefix, i)[..|prefix| + 1][k];
  }

  /// Names made from a prefix that differs from another at position k
  /// never include the other prefix's guard names "other_0" and
  /// "other_0_0".
  lemma NamesAvoidGuards(prefix: string, n: nat, other: string, k: nat)
    requires k < |prefix| && k < |other| && prefix[k] != other[k]
    ensures HistName(other, 0) !in NameSet(HistNames(prefix, n))
    ensures HistName(HistName(other, 0), 0) !in NameSet(HistNames(prefix, n))
  {
    PrefixChar(other, 0, k);
    PrefixChar(HistName(other, 0), 0, k);
    forall i | 0 <= i < n
      ensures HistNames(prefix, n)[i][k] == prefix[k]
    {
      PrefixChar(prefix, i, k);
    }
  }

  /// "prefix_0_0" is never among the names "prefix_i".
  lemma DoubleIndexNeverCreated(prefix: string, n: nat)
    ensures HistName(HistName(prefix, 0), 0) !in HistNames(prefix, n)
  {
    var guard := HistName(HistName(prefix, 0), 0);
    assert guard == prefix + "_" + "0" + "_" + "0";
    assert |guard| == |prefix| + 4 && guard[|prefix| + 2] == '_';
    forall i | 0 <= i < n
      ensures HistNames(prefix, n)[i] != guard
    {
      DigitsAfterPrefix(prefix, i);
    }
  }

  // ---------------------------------------------------------------------
  // Waveform histograms

  /// The bins of `TH1D(name, title, nbins, lo, hi)`: ROOT makes one bin
  /// when asked for none or fewer.
  function BinCount(nbins: int): (n: nat)
    ensures n >= 1
    ensures nbins >= 1 ==> n == nbins
  {
    if nbins <= 0 then 1 else nbins
  }

  /// The set of names in a list.
  function NameSet(names: seq<string>): set<string> {
    set n | n in names
  }

  /// The cells of histogram h.
  ghost function Row(hists: array2<real>, h: nat): (row: seq<real>)
    requires h < hists.Length0
    reads hists
    ensures |row| == hists.Length1
  {
    seq(hists.Length1, j requires 0 <= j < hists.Length1 reads hists => hists[h, j])
  }

  /// The cells of every histogram of the array.
  ghost function Contents(hists: array2<real>): (rows: seq<seq<real>>)
    reads hists
    ensures |rows| == hists.Length0
    ensures forall h :: 0 <= h < hists.Length0 ==> rows[h] == Row(hists, h)
  {
    seq(hists.Length0, h requires 0 <= h < hists.Length0 reads hists => Row(hists, h))
  }

  /// Every histogram has the same number of cells.
  ghost predicate Rectangular(rows: seq<seq<real>>, width: nat) {
    forall h :: 0 <= h < |rows| ==> |rows[h]| == width
  }

  lemma ContentsAre(hists: array2<real>, rows: seq<seq<real>>)
    requires |rows| == hists.Length0 && Rectangular(rows, hists.Length1)
    requires forall h, j :: 0 <= h < hists.Length0 && 0 <= j < hists.Length1 ==> hists[h, j] == rows[h][j]
    ensures Contents(hists) == rows
  {
    forall h | 0 <= h < hists.Length0
      ensures Row(hists, h) == rows[h]
    {
    }
  }

  /// Cells lo to hi - 1 of a histogram set to zero.
  function ZeroCells(row: seq<real>, lo: int, hi: int): (r: seq<real>)
    ensures |r| == |row|
  {
    seq(|row|, j requires 0 <= j < |row| => if lo <= j < hi then 0.0 else row[j])
  }

  /// Bins 1 to |samples| set to the samples less `offset`; a sample past
  /// the overflow bin has no cell and is dropped.
  function WriteCells(row: seq<real>, samples: seq<real>, offset: real): (r: seq<real>)
    ensures |r| == |row|
  {
    seq(|row|, j requires 0 <= j < |row| => if 1 <= j <= |samples| then samples[j - 1] - offset else row[j])
  }

  /// The waveform update of one measurement: bins 1 to `zeroCount` are
  /// cleared, then the samples are written from bin 1 on.
  function Overwritten(row: seq<real>, zeroCount: int, samples: seq<real>, offset: real): (r: seq<real>)
    ensures |r| == |row|
  {
    WriteCells(ZeroCells(row, 1, zeroCount + 1), samples, offset)
  }

  /// `for (ib = lo; ib < hi; ib++) GetHistogram(h)->SetBinContent(ib, 0)`:
  /// `SetBinContent` ignores a bin the histogram does not have.
  method ZeroBins(hists: array2<real>, h: nat, lo: int, hi: int)
    requires h < hists.Length0
    modifies hists
    ensures Contents(hists) == old(Contents(hists))[h := ZeroCells(old(Row(hists, h)), lo, hi)]
    ensures forall g, j :: 0 <= g < hists.Length0 && g != h && 0 <= j < hists.Length1 ==> hists[g, j] == old(hists[g, j])
  {
    ghost var before := Contents(hists);
    var ib := lo;
    while ib < hi
      invariant lo <= hi ==> lo <= ib <= hi
      invariant lo > hi ==> ib == lo
      invariant forall g, j :: 0 <= g < hists.Length0 && 0 <= j < hists.Length1 ==>
                  hists[g, j] == if g == h && lo <= j < ib then 0.0 else before[g][j]
      decreases hi - ib
    {
      if 0 <= ib < hists.Length1 {
        hists[h, ib] := 0.0;
      }
      ib := ib + 1;
    }
    ContentsAre(hists, before[h := ZeroCells(before[h], lo, hi)]);
    forall g, j | 0 <= g < hists.Length0 && g != h && 0 <= j < hists.Length1
      ensures hists[g, j] == old(hists[g, j])
    {
      assert before[g][j] == old(hists[g, j]);
    }
  }

  /// `SetBinContent(ib + 1, samples[ib] - offset)` for every sample.
  method WriteWaveform(hists: array2<real>, h: nat, samples: seq<real>, offset: real)
    requires h < hists.Length0
    modifies hists
    ensures Contents(hists) == old(Contents(hists))[h := WriteCells(old(Row(hists, h)), samples, offset)]
  {
    ghost var before := Contents(hists);
    for ib := 0 to |samples|
      invariant forall g, j :: 0 <= g < hists.Length0 && 0 <= j < hists.Length1 ==>
                  hists[g, j] == if g == h && 1 <= j <= ib then samples[j - 1] - offset else before[g][j]
    {
      if ib + 1 < hists.Length1 {
        hists[h, ib + 1] := samples[ib] - offset;
      }
    }
    ContentsAre(hists, before[h := WriteCells(before[h], samples, offset)]);
  }

  /// `TH1::Reset`: every cell of histogram h back to zero.
  method ResetHistogram(hists: array2<real>, h: nat)
    requires h < hists.Length0
    modifies hists
    ensures Contents(hists) == old(Contents(hists))[h := ZeroCells(old(Row(hists, h)), 0, hists.Length1)]
    ensures forall g, j :: 0 <= g < hists.Length0 && 0 <= j < hists.Length1 ==>
              hists[g, j] == if g == h then 0.0 else old(hists[g, j])
  {
    ghost var before := Contents(hists);
    ZeroBins(hists, h, 0, hists.Length1);
    forall g, j | 0 <= g < hists.Length0 && 0 <= j < hists.Length1
      ensures hists[g, j] == if g == h then 0.0 else old(hists[g, j])
    {
      assert Row(hists, g)[j] == hists[g, j];
      assert before[g][j] == old(hists[g, j]);
    }
  }

  /// The waveform update of one event: each measurement overwrites the
  /// histogram of its channel, in order, with that channel's offset.
  function ApplyMeasurements(rows: seq<seq<real>>, ms: seq<Measurement>, zeroCount: int, offset: int -> real)
    : (r: seq<seq<real>>)
    requires forall i :: 0 <= i < |ms| ==> 0 <= ms[i].channel < |rows|
    ensures |r| == |rows|
    ensures forall h :: 0 <= h < |rows| ==> |r[h]| == |rows[h]|
  {
    if ms == [] then rows
    else
      var m := ms[|ms| - 1];
      var front := ApplyMeasurements(rows, ms[..|ms| - 1], zeroCount, offset);
      front[m.channel := Overwritten(front[m.channel], zeroCount, m.samples, offset(m.channel))]
  }

  /// A histogram whose channel has no measurement in the event keeps all its cells.
  lemma {:induction false} UnmeasuredChannelUnchanged(rows: seq<seq<real>>, ms: seq<Measurement>, zeroCount: int,
                                                       offset: int -> real, c: nat)
    requires forall i :: 0 <= i < |ms| ==> 0 <= ms[i].channel < |rows|
    requires c < |rows| && forall i :: 0 <= i < |ms| ==> ms[i].channel != c
    ensures ApplyMeasurements(rows, ms, zeroCount, offset)[c] == rows[c]
  {
    if ms != [] {
      UnmeasuredChannelUnchanged(rows, ms[..|ms| - 1], zeroCount, offset, c);
    }
  }

  /// When the cleared range covers every bin, the last measurement of a
  /// channel alone decides that histogram's bins 1 to nbins: its samples
  /// less the offset, then zeros.
  lemma {:induction false} LastMeasurementDecides(rows: seq<seq<real>>, ms: seq<Measurement>, zeroCount: int,
                                                  offset: int -> real, i: nat, j: nat)
    requires forall k :: 0 <= k < |ms| ==> 0 <= ms[k].channel < |rows|
    requires i < |ms| && forall k :: i < k < |ms| ==> ms[k].channel != ms[i].channel
    requires 1 <= j < |rows[ms[i].channel]| - 1 <= zeroCount + 1
    ensures ApplyMeasurements(rows, ms, zeroCount, offset)[ms[i].channel][j]
            == if j <= |ms[i].samples| then ms[i].samples[j - 1] - offset(ms[i].channel) else 0.0
  {
    var n := |ms| - 1;
    if i < n {
      LastMeasurementDecides(rows, ms[..n], zeroCount, offset, i, j);
    }
  }

  /// When fewer bins are cleared than the histogram has, a bin above the
  /// cleared range that the new samples do not reach keeps the previous
  /// event's value.
  lemma StaleBinKept(rows: seq<seq<real>>, m: Measurement, zeroCount: int, offset: int -> real, j: nat)
    requires 0 <= m.channel < |rows|
    requires zeroCount < j < |rows[m.channel]| && |m.samples| < j
    ensures ApplyMeasurements(rows, [m], zeroCount, offset)[m.channel][j] == rows[m.channel][j]
  {
    assert [m][..0] == [];
  }

  // ---------------------------------------------------------------------
  // Counting histograms

  /// Freshly created counting histograms: nothing filled yet.
  function NoFills<T>(n: nat): (fills: seq<seq<T>>)
    ensures |fills| == n && forall h :: 0 <= h < n ==> fills[h] == []
  {
    seq(n, h => [])
  }

  /// One `Fill` of histogram h with `values[h]` for each h the values
  /// reach; the histograms beyond them keep their fills.
  function FillEach<T>(fills: seq<seq<T>>, values: seq<T>): (r: seq<seq<T>>)
    requires |values| <= |fills|
    ensures |r| == |fills|
  {
    seq(|fills|, h requires 0 <= h < |fills| => if h < |values| then fills[h] + [values[h]] else fills[h])
  }

  /// The fills after one `FillEach` per event, in event order.
  function FillAll<T>(fills: seq<seq<T>>, readings: seq<seq<T>>): (r: seq<seq<T>>)
    requires forall k :: 0 <= k < |readings| ==> |readings[k]| <= |fills|
    ensures |r| == |fills|
    decreases |readings|
  {
    if readings == [] then fills
    else FillEach(FillAll(fills, readings[..|readings| - 1]), readings[|readings| - 1])
  }

  /// Channel h's values over a run of events: its value in each event that
  /// has one, in event order.
  function History<T>(readings: seq<seq<T>>, h: nat): (values: seq<T>)
    ensures |values| <= |readings|
    decreases |readings|
  {
    if readings == [] then []
    else
      var last := readings[|readings| - 1];
      History(readings[..|readings| - 1], h) + (if h < |last| then [last[h]] else [])
  }

  /// Histogram h holds what it held before followed by channel h's
  /// history: every value filled is kept, in order, and nothing else.
  lemma {:induction false} FillAllIsHistory<T>(fills: seq<seq<T>>, readings: seq<seq<T>>, h: nat)
    requires forall k :: 0 <= k < |readings| ==> |readings[k]| <= |fills|
    requires h < |fills|
    ensures FillAll(fills, readings)[h] == fills[h] + History(readings, h)
    decreases |readings|
  {
    if readings != [] {
      FillAllIsHistory(fills, readings[..|readings| - 1], h);
    }
  }

  /// When every event has a value for channel h, histogram h gets exactly
  /// one entry per event.
  lemma {:induction false} FullReadingsCounted<T>(readings: seq<seq<T>>, h: nat)
    requires forall k :: 0 <= k < |readings| ==> h < |readings[k]|
    ensures |History(readings, h)| == |readings|
    ensures forall k :: 0 <= k < |readings| ==> History(readings, h)[k] == readings[k][h]
    decreases |readings|
  {
    if readings != [] {
      FullReadingsCounted(readings[..|readings| - 1], h);
    }
  }

  /// A channel no event reaches has an empty history.
  lemma {:induction false} ShortReadingsEmpty<T>(readings: seq<seq<T>>, h: nat)
    requires forall k :: 0 <= k < |readings| ==> |readings[k]| <= h
    ensures History(readings, h) == []
    decreases |readings|
  {
    if readings != [] {
      ShortReadingsEmpty(readings[..|readings| - 1], h);
    }
  }
}

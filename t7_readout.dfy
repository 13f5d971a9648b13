/// The `t7_readout.py` script: configures 32 differential inputs of a T7
/// behind a MUX80 multiplexer, streams 50 reads and keeps running totals of
/// the scans read and the samples the device reports as skipped.
///
/// The script is Python 2 (`range(..) + range(..)` concatenates lists), so
/// `/` on integers is floor division. Device calls are inputs: a stream read
/// is its flat sample list, and `eWriteNames` is modelled by the
/// (name, value) pairs it sends.
module T7Readout {
  import opened Base

  /// `MAX_REQUESTS`: the number of `eStreamRead` calls.
  const MaxRequests: nat := 50

  const NumChannels: nat := 32

  /// `numFrames = numChannels*3`, as written.
  const AsWrittenNumFrames: nat := NumChannels * 3

  /// The requested `scanRate`, in Hz.
  const ScanRate: nat := 1500

  /// `int(scanRate/2)`.
  const ScansPerRead: nat := ScanRate / 2

  /// The value `eStreamRead` puts in place of a skipped sample.
  const SkipMarker: real := -9999.0

  // ---------------------------------------------------------------------
  // The MUX80 channel pairing (pure)

  /// Python 2's `range(lo, hi)`.
  function Range(lo: nat, hi: nat): (r: seq<nat>)
    ensures |r| == if hi > lo then hi - lo else 0
    ensures forall k :: 0 <= k < |r| ==> r[k] == lo + k
  {
    if hi > lo then seq(hi - lo, k requires 0 <= k < hi - lo => lo + k) else []
  }

  /// `pChan`: the positive inputs of the differential pairs.
  const PChan: seq<nat> := Range(48, 56) + Range(64, 72) + Range(80, 88) + Range(96, 104)

  /// `nChan`: the negative inputs, in the same order.
  const NChan: seq<nat> := Range(56, 64) + Range(72, 80) + Range(88, 96) + Range(104, 112)

  function Shifted(s: seq<nat>, d: nat): (r: seq<nat>)
    ensures |r| == |s|
    ensures forall k :: 0 <= k < |s| ==> r[k] == s[k] + d
  {
    seq(|s|, k requires 0 <= k < |s| => s[k] + d)
  }

  lemma ShiftedAppend(a: seq<nat>, b: seq<nat>, d: nat)
    ensures Shifted(a + b, d) == Shifted(a, d) + Shifted(b, d)
  {
  }

  lemma RangeShifted(lo: nat, hi: nat, d: nat)
    ensures Shifted(Range(lo, hi), d) == Range(lo + d, hi + d)
  {
  }

  /// Every positive input k is paired with negative input k + 8, as the
  /// MUX80 data sheet lays out its differential pairs.
  lemma MuxPairing()
    ensures |PChan| == |NChan| == NumChannels
    ensures forall k :: 0 <= k < NumChannels ==> NChan[k] == PChan[k] + 8
  {
    var a, b, c, e := Range(48, 56), Range(64, 72), Range(80, 88), Range(96, 104);
    RangeShifted(48, 56, 8);
    RangeShifted(64, 72, 8);
    RangeShifted(80, 88, 8);
    RangeShifted(96, 104, 8);
    ShiftedAppend(a + b + c, e, 8);
    ShiftedAppend(a + b, c, 8);
    ShiftedAppend(a, b, 8);
    assert NChan == Shifted(PChan, 8);
  }

  /// Positive inputs lie in the even blocks of eight, negative ones in the
  /// odd blocks, so no input is used as both.
  lemma PositiveNegativeDisjoint()
    ensures forall v :: v in PChan ==> v !in NChan
  {
    forall v | v in PChan
      ensures (v / 8) % 2 == 0
    {
    }
    forall v | v in NChan
      ensures (v / 8) % 2 == 1
    {
    }
  }

  lemma PChanDistinct()
    ensures forall j, k :: 0 <= j < k < |PChan| ==> PChan[j] < PChan[k]
  {
    var a, b, c, e := Range(48, 56), Range(64, 72), Range(80, 88), Range(96, 104);
    assert forall j, k :: 0 <= j < k < |a + b| ==> (a + b)[j] < (a + b)[k];
    assert forall j, k :: 0 <= j < k < |a + b + c| ==> (a + b + c)[j] < (a + b + c)[k];
  }

  // ---------------------------------------------------------------------
  // The configuration lists

  /// `ChanNames` for a list of positive inputs.
  function ChanNamesOf(pChan: seq<nat>): (names: seq<string>)
    ensures |names| == |pChan|
  {
    seq(|pChan|, k requires 0 <= k < |pChan| => AinName(pChan[k]))
  }

  /// The loop that builds `ChanNames` one name at a time.
  method BuildChanNames(pChan: seq<nat>) returns (chanNames: seq<string>)
    ensures chanNames == ChanNamesOf(pChan)
  {
    chanNames := [];
    for j := 0 to |pChan|
      invariant chanNames == ChanNamesOf(pChan[..j])
    {
      chanNames := chanNames + [AinName(pChan[j])];
    }
    assert pChan[..|pChan|] == pChan;
  }

  /// The 32 stream addresses are 32 different inputs.
  lemma ChanNamesDistinct()
    ensures |ChanNamesOf(PChan)| == NumChannels
    ensures forall j, k :: 0 <= j < k < NumChannels ==> ChanNamesOf(PChan)[j] != ChanNamesOf(PChan)[k]
  {
    MuxPairing();
    PChanDistinct();
    forall j, k | 0 <= j < k < NumChannels
      ensures ChanNamesOf(PChan)[j] != ChanNamesOf(PChan)[k]
    {
      AinNameInjective(PChan[j], PChan[k]);
    }
  }

  /// The four settings written for positive input p.
  function SettingNames(p: nat): seq<string> {
    [AinName(p) + "_NEGATIVE_CH", AinName(p) + "_RANGE", "STREAM_SETTLING_US", "STREAM_RESOLUTION_INDEX"]
  }

  /// Their values: negative input n, the +/-10 V range, default settling and resolution.
  function SettingValues(n: nat): seq<int> {
    [n, 10, 0, 0]
  }

  /// `names`: four setting names per positive input.
  function SettingNamesOf(pChan: seq<nat>): (names: seq<string>)
    ensures |names| == 4 * |pChan|
  {
    if pChan == [] then [] else SettingNamesOf(pChan[..|pChan| - 1]) + SettingNames(pChan[|pChan| - 1])
  }

  /// `aValues`: four setting values per negative input.
  function SettingValuesOf(nChan: seq<nat>): (values: seq<int>)
    ensures |values| == 4 * |nChan|
  {
    if nChan == [] then [] else SettingValuesOf(nChan[..|nChan| - 1]) + SettingValues(nChan[|nChan| - 1])
  }

  /// The two loops that build `names` from `pChan` and `aValues` from `nChan`.
  method BuildSettings(pChan: seq<nat>, nChan: seq<nat>) returns (names: seq<string>, aValues: seq<int>)
    ensures names == SettingNamesOf(pChan)
    ensures aValues == SettingValuesOf(nChan)
  {
    names := [];
    for j := 0 to |pChan|
      invariant names == SettingNamesOf(pChan[..j])
    {
      assert pChan[..j + 1][..j] == pChan[..j];
      names := names + SettingNames(pChan[j]);
    }
    assert pChan[..|pChan|] == pChan;
    aValues := [];
    for j := 0 to |nChan|
      invariant aValues == SettingValuesOf(nChan[..j])
    {
      assert nChan[..j + 1][..j] == nChan[..j];
      aValues := aValues + SettingValues(nChan[j]);
    }
    assert nChan[..|nChan|] == nChan;
  }

  /// Entry i of `names` is setting i % 4 of positive input i / 4.
  lemma {:induction false} SettingNameAt(pChan: seq<nat>, i: nat)
    requires i < 4 * |pChan|
    ensures SettingNamesOf(pChan)[i] == SettingNames(pChan[i / 4])[i % 4]
    decreases |pChan|
  {
    var n := |pChan| - 1;
    if i < 4 * n {
      SettingNameAt(pChan[..n], i);
    }
  }

  /// Entry i of `aValues` is value i % 4 of negative input i / 4.
  lemma {:induction false} SettingValueAt(nChan: seq<nat>, i: nat)
    requires i < 4 * |nChan|
    ensures SettingValuesOf(nChan)[i] == SettingValues(nChan[i / 4])[i % 4]
    decreases |nChan|
  {
    var n := |nChan| - 1;
    if i < 4 * n {
      SettingValueAt(nChan[..n], i);
    }
  }

  // ---------------------------------------------------------------------
  // What eWriteNames sends

  /// `eWriteNames(handle, numFrames, names, aValues)` writes the first
  /// `numFrames` names with the values at the same positions.
  function Written(numFrames: nat, names: seq<string>, values: seq<int>): (w: seq<(string, int)>)
    requires numFrames <= |names| && numFrames <= |values|
    ensures |w| == numFrames
  {
    seq(numFrames, i requires 0 <= i < numFrames => (names[i], values[i]))
  }

  /// Positive input p has its negative input set to n by some written pair.
  predicate NegativeSet(w: seq<(string, int)>, p: nat, n: int) {
    exists i :: 0 <= i < |w| && w[i] == (AinName(p) + "_NEGATIVE_CH", n)
  }

  /// No written pair names the negative-input setting of p at all.
  predicate NegativeUntouched(w: seq<(string, int)>, p: nat) {
    forall i :: 0 <= i < |w| ==> w[i].0 != AinName(p) + "_NEGATIVE_CH"
  }

  /// `numFrames` as evidently intended: one frame per name built, 4 per channel.
  const NumFrames: nat := 4 * NumChannels

  lemma NumFramesIsListLength()
    ensures NumFrames == |SettingNamesOf(PChan)| == |SettingValuesOf(NChan)| == 128
    ensures AsWrittenNumFrames == 96
  {
    MuxPairing();
  }

  /// Negative-input settings of different inputs have different names.
  lemma NegativeNameInjective(a: nat, b: nat)
    requires a != b
    ensures AinName(a) + "_NEGATIVE_CH" != AinName(b) + "_NEGATIVE_CH"
  {
    AinNameInjective(a, b);
    var sa, sb := AinName(a) + "_NEGATIVE_CH", AinName(b) + "_NEGATIVE_CH";
    assert sa[..|sa| - 12] == AinName(a);
    assert sb[..|sb| - 12] == AinName(b);
  }

  /// Only the first setting of each group can be a negative-input setting.
  lemma OnlyFirstSettingIsNegative(p: nat, q: nat, r: nat)
    requires 0 < r < 4
    ensures SettingNames(q)[r] != AinName(p) + "_NEGATIVE_CH"
  {
    var s := AinName(p) + "_NEGATIVE_CH";
    assert s[0] == 'A' && s[|s| - 1] == 'H';
    if r == 1 {
      var t := AinName(q) + "_RANGE";
      assert t[|t| - 1] == 'E';
    }
  }

  /// As written, `eWriteNames` sends 96 of the 128 pairs: the last eight
  /// positive inputs (AIN96 to AIN103) never get their negative input set,
  /// so they are read single-ended instead of differentially.
  lemma AsWrittenLastChannelsUnpaired(k: nat)
    requires 24 <= k < NumChannels
    ensures NegativeUntouched(Written(AsWrittenNumFrames, SettingNamesOf(PChan), SettingValuesOf(NChan)), PChan[k])
  {
    NumFramesIsListLength();
    PChanDistinct();
    var w := Written(AsWrittenNumFrames, SettingNamesOf(PChan), SettingValuesOf(NChan));
    forall i | 0 <= i < |w|
      ensures w[i].0 != AinName(PChan[k]) + "_NEGATIVE_CH"
    {
      SettingNameAt(PChan, i);
      if i % 4 == 0 {
        NegativeNameInjective(PChan[i / 4], PChan[k]);
      } else {
        OnlyFirstSettingIsNegative(PChan[k], PChan[i / 4], i % 4);
      }
    }
  }

  /// Corrected, with one frame per name: every positive input gets its
  /// paired negative input.
  lemma CorrectedEveryChannelPaired(k: nat)
    requires k < NumChannels
    ensures NegativeSet(Written(NumFrames, SettingNamesOf(PChan), SettingValuesOf(NChan)), PChan[k], PChan[k] + 8)
  {
    NumFramesIsListLength();
    MuxPairing();
    var w := Written(NumFrames, SettingNamesOf(PChan), SettingValuesOf(NChan));
    SettingNameAt(PChan, 4 * k);
    SettingValueAt(NChan, 4 * k);
    assert w[4 * k] == (AinName(PChan[k]) + "_NEGATIVE_CH", PChan[k] + 8);
  }

  // ---------------------------------------------------------------------
  // The stream loop

  /// `int(scanRate/2)`: 750 scans per read.
  lemma ScansPerReadValue()
    ensures ScansPerRead == 750
  {
  }

  /// `data.count(x)`.
  function Count(data: seq<real>, x: real): (c: nat)
    ensures c <= |data|
  {
    if data == [] then 0
    else Count(data[..|data| - 1], x) + (if data[|data| - 1] == x then 1 else 0)
  }

  /// `totScans` after the reads `rs`: each read adds its length over 32.
  function TotalScans(rs: seq<seq<real>>): nat {
    if rs == [] then 0 else TotalScans(rs[..|rs| - 1]) + |rs[|rs| - 1]| / NumChannels
  }

  /// `totSkip` after the reads `rs`: each read adds its skipped samples.
  function TotalSkipped(rs: seq<seq<real>>): nat {
    if rs == [] then 0 else TotalSkipped(rs[..|rs| - 1]) + Count(rs[|rs| - 1], SkipMarker)
  }

  /// The samples of all reads `rs`.
  function TotalSamples(rs: seq<seq<real>>): nat {
    if rs == [] then 0 else TotalSamples(rs[..|rs| - 1]) + |rs[|rs| - 1]|
  }

  /// "Scans Skipped" of each read: its skipped samples over 32.
  function SkippedScans(rs: seq<seq<real>>): (s: seq<nat>)
    ensures |s| == |rs|
  {
    seq(|rs|, k requires 0 <= k < |rs| => Count(rs[k], SkipMarker) / NumChannels)
  }

  /// The first read too short to hold a scan of all 32 inputs, or |rs|.
  function FirstShort(rs: seq<seq<real>>): (i: nat)
    ensures i <= |rs|
    ensures forall k :: 0 <= k < i ==> |rs[k]| >= NumChannels
    ensures i < |rs| ==> |rs[i]| < NumChannels
  {
    if rs == [] then 0
    else if |rs[0]| < NumChannels then 0
    else 1 + FirstShort(rs[1..])
  }

  /// How the script ends: the totals it prints, or the read whose first
  /// scan could not be printed (`data[j]` raises IndexError, which the
  /// catch-all handler reports before the stream is stopped).
  datatype Outcome = Completed(totScans: nat, totSkip: nat) | Failed(read: nat)

  function Summarize(rs: seq<seq<real>>): Outcome {
    var f := FirstShort(rs);
    if f == |rs| then Completed(TotalScans(rs), TotalSkipped(rs)) else Failed(f + 1)
  }

  /// The `while i <= MAX_REQUESTS` loop over the reads the device returns.
  method StreamReads(stream: seq<seq<real>>) returns (outcome: Outcome, skipped: seq<nat>)
    requires |stream| >= MaxRequests
    ensures outcome == Summarize(stream[..MaxRequests])
    ensures |skipped| == (if outcome.Completed? then MaxRequests else outcome.read - 1)
    ensures skipped == SkippedScans(stream[..|skipped|])
  {
    var totScans, totSkip := 0, 0;
    skipped := [];
    var i := 1;
    while i <= MaxRequests
      invariant 1 <= i <= MaxRequests + 1
      invariant forall k :: 0 <= k < i - 1 ==> |stream[k]| >= NumChannels
      invariant totScans == TotalScans(stream[..i - 1])
      invariant totSkip == TotalSkipped(stream[..i - 1])
      invariant skipped == SkippedScans(stream[..i - 1])
    {
      var data := stream[i - 1];
      assert stream[..i][..i - 1] == stream[..i - 1];
      var scans := |data| / NumChannels;
      totScans := totScans + scans;
      var curSkip := Count(data, SkipMarker);
      totSkip := totSkip + curSkip;
      if |data| < NumChannels {
        assert FirstShort(stream[..MaxRequests]) == i - 1;
        return Failed(i), skipped;
      }
      skipped := skipped + [curSkip / NumChannels];
      i := i + 1;
    }
    assert stream[..MaxRequests] == stream[..i - 1];
    outcome := Completed(totScans, totSkip);
  }

  /// A read never reports more skipped scans than it holds scans.
  lemma SkippedWithinScans(data: seq<real>)
    ensures Count(data, SkipMarker) / NumChannels <= |data| / NumChannels
  {
  }

  /// Over all reads, the skipped samples are at most the samples read.
  lemma {:induction false} TotalSkippedWithinSamples(rs: seq<seq<real>>)
    ensures TotalSkipped(rs) <= TotalSamples(rs)
  {
    if rs != [] {
      TotalSkippedWithinSamples(rs[..|rs| - 1]);
    }
  }

  /// When every read is a full read of 750 scans, `totScans` is 750 per read.
  lemma {:induction false} FullReadsScans(rs: seq<seq<real>>)
    requires forall k :: 0 <= k < |rs| ==> |rs[k]| == ScansPerRead * NumChannels
    ensures TotalScans(rs) == ScansPerRead * |rs|
  {
    if rs != [] {
      FullReadsScans(rs[..|rs| - 1]);
    }
  }

  /// Fifty full reads complete with 37500 scans.
  lemma FullStreamCompletes(stream: seq<seq<real>>)
    requires |stream| == MaxRequests
    requires forall k :: 0 <= k < |stream| ==> |stream[k]| == ScansPerRead * NumChannels
    ensures Summarize(stream) == Completed(37500, TotalSkipped(stream))
  {
    FullReadsScans(stream);
    assert FirstShort(stream) == |stream|;
  }
}

/// The feLabjack02 MIDAS frontend: streams fifteen fluxgate channels from a
/// LabJack, reduces every read window to a per-channel mean and population
/// standard deviation, and packs them behind a timestamp into an LBJK bank.
///
/// The LabJack library (`LJM_eStreamRead`, `LJM_eStreamStart`, ...) is not
/// part of this model: what a call returns is a parameter. `ErrorCheck` from
/// LJM_Utilities.h is modelled as "any non-zero code ends the program".
module FeLabjack02 {
  import opened Base
  import opened LjmFrontend

  /// The fifteen analog inputs, in the order they are streamed and banked.
  const ChannelNames: seq<string> := [
    "AIN72", "AIN74", "AIN76",
    "AIN79", "AIN81", "AIN83",
    "AIN96", "AIN98", "AIN100",
    "AIN107", "AIN109", "AIN110",
    "AIN108", "AIN111", "AIN113"
  ]

  /// `sizeof(CHANNEL_NAMES) / sizeof(CHANNEL_NAMES[0])`.
  const NumAddresses: nat := 15

  /// LJME_NO_SCANS_RETURNED, the one stream-read error that is retried.
  const NoScansReturned: int := 1221

  /// How many 1221 errors are tolerated before `ErrorCheck` is reached.
  const ErrorLimit: nat := 100

  /// The extra scans per read handed to `LJM_eStreamStart`.
  const StartPadding: nat := 5

  lemma NumAddressesIsChannelCount()
    ensures |ChannelNames| == NumAddresses
  {
  }

  // ---------------------------------------------------------------------
  // Strided aggregation (pure specification)

  /// The samples of channel `c` in the first `n` scans of a scan-major,
  /// channel-minor buffer: indices c, c + N, ..., c + N*(n-1).
  function ChannelSamples(buf: seq<real>, c: nat, n: nat): (r: seq<real>)
    requires c < NumAddresses && NumAddresses * n <= |buf|
    ensures |r| == n
  {
    if n == 0 then [] else ChannelSamples(buf, c, n - 1) + [buf[c + NumAddresses * (n - 1)]]
  }

  /// Channel `c` of scan `i` is exactly buffer element `c + N*i`.
  lemma {:induction false} ChannelSamplesAt(buf: seq<real>, c: nat, n: nat)
    requires c < NumAddresses && NumAddresses * n <= |buf|
    ensures forall i :: 0 <= i < n ==> ChannelSamples(buf, c, n)[i] == buf[c + NumAddresses * i]
  {
    if n > 0 {
      ChannelSamplesAt(buf, c, n - 1);
    }
  }

  /// Every element of the first `n` scans lies in a channel window:
  /// element p is sample p / N of channel p % N.
  lemma ChannelWindowsCover(buf: seq<real>, n: nat, p: nat)
    requires NumAddresses * n <= |buf| && p < NumAddresses * n
    ensures p / NumAddresses < n
    ensures ChannelSamples(buf, p % NumAddresses, n)[p / NumAddresses] == buf[p]
  {
    ChannelSamplesAt(buf, p % NumAddresses, n);
  }

  /// ... and in no other window: sample i of channel c is element c + N*i only.
  lemma ChannelWindowsDisjoint(c: nat, i: nat, p: nat)
    requires c < NumAddresses && c + NumAddresses * i == p
    ensures c == p % NumAddresses && i == p / NumAddresses
  {
  }

  /// Left-to-right sum, in the order the frontend accumulates.
  function Sum(xs: seq<real>): real {
    if xs == [] then 0.0 else Sum(xs[..|xs| - 1]) + xs[|xs| - 1]
  }

  function Mean(xs: seq<real>): real
    requires |xs| > 0
  {
    Sum(xs) / (|xs| as real)
  }

  function Square(x: real): real { x * x }

  /// The sum of squared deviations from `m`, accumulated left to right.
  function SquaredDeviations(xs: seq<real>, m: real): real {
    if xs == [] then 0.0
    else SquaredDeviations(xs[..|xs| - 1], m) + Square(xs[|xs| - 1] - m)
  }

  /// Population variance: the squared deviations divided by N, not N - 1.
  function Variance(xs: seq<real>): real
    requires |xs| > 0
  {
    SquaredDeviations(xs, Mean(xs)) / (|xs| as real)
  }

  predicate Constant(xs: seq<real>) {
    forall i, j :: 0 <= i < |xs| && 0 <= j < |xs| ==> xs[i] == xs[j]
  }

  lemma {:induction false} SquaredDeviationsNonNegative(xs: seq<real>, m: real)
    ensures SquaredDeviations(xs, m) >= 0.0
  {
    if xs != [] {
      SquaredDeviationsNonNegative(xs[..|xs| - 1], m);
      var d := xs[|xs| - 1] - m;
      assert Square(d) >= 0.0;
    }
  }

  lemma VarianceNonNegative(xs: seq<real>)
    requires |xs| > 0
    ensures Variance(xs) >= 0.0
  {
    SquaredDeviationsNonNegative(xs, Mean(xs));
  }

  lemma {:induction false} SumOfConstant(xs: seq<real>, v: real)
    requires forall i :: 0 <= i < |xs| ==> xs[i] == v
    ensures Sum(xs) == (|xs| as real) * v
  {
    if xs != [] {
      SumOfConstant(xs[..|xs| - 1], v);
    }
  }

  lemma {:induction false} SquaredDeviationsOfConstant(xs: seq<real>, v: real)
    requires forall i :: 0 <= i < |xs| ==> xs[i] == v
    ensures SquaredDeviations(xs, v) == 0.0
  {
    if xs != [] {
      SquaredDeviationsOfConstant(xs[..|xs| - 1], v);
    }
  }

  lemma ProductOfPositives(a: real, b: real)
    requires a > 0.0 && b > 0.0
    ensures a * b > 0.0
  {
  }

  /// A non-zero deviation has a strictly positive square.
  lemma SquareOfNonZero(d: real)
    requires d != 0.0
    ensures Square(d) > 0.0
  {
    var e := if d > 0.0 then d else -d;
    calc {
      Square(d);
      e * e;
    > { ProductOfPositives(e, e); }
      0.0;
    }
  }

  /// One sample away from `m` makes the sum of squared deviations positive.
  lemma {:induction false} DeviatingSampleIsPositive(xs: seq<real>, m: real, i: nat)
    requires i < |xs| && xs[i] != m
    ensures SquaredDeviations(xs, m) > 0.0
  {
    var front, d := xs[..|xs| - 1], xs[|xs| - 1] - m;
    if i == |xs| - 1 {
      SquaredDeviationsNonNegative(front, m);
      SquareOfNonZero(d);
    } else {
      assert front[i] == xs[i];
      DeviatingSampleIsPositive(front, m, i);
      assert Square(d) >= 0.0;
    }
  }

  lemma ZeroDeviationsMeansAllEqual(xs: seq<real>, m: real)
    requires SquaredDeviations(xs, m) == 0.0
    ensures forall i :: 0 <= i < |xs| ==> xs[i] == m
  {
    forall i | 0 <= i < |xs|
      ensures xs[i] == m
    {
      if xs[i] != m {
        DeviatingSampleIsPositive(xs, m, i);
      }
    }
  }

  /// The mean of a window whose samples are all `v` is `v`.
  lemma MeanOfConstant(xs: seq<real>, v: real)
    requires |xs| > 0
    requires forall i :: 0 <= i < |xs| ==> xs[i] == v
    ensures Mean(xs) == v
  {
    SumOfConstant(xs, v);
  }

  /// The variance of a window is zero exactly when all its samples are equal.
  lemma VarianceZeroIffConstant(xs: seq<real>)
    requires |xs| > 0
    ensures Variance(xs) == 0.0 <==> Constant(xs)
  {
    var m := Mean(xs);
    if Constant(xs) {
      MeanOfConstant(xs, xs[0]);
      SquaredDeviationsOfConstant(xs, xs[0]);
    }
    if Variance(xs) == 0.0 {
      assert SquaredDeviations(xs, m) == 0.0;
      ZeroDeviationsMeansAllEqual(xs, m);
    }
  }

  /// A one-scan window: the mean is the sample and the variance is zero.
  lemma SingleScanWindow(xs: seq<real>)
    requires |xs| == 1
    ensures Mean(xs) == xs[0] && Variance(xs) == 0.0
  {
    VarianceZeroIffConstant(xs);
    MeanOfConstant(xs, xs[0]);
  }

  /// `std[c]` as `read_labjack_event` reports it, for an arbitrary square
  /// root: it is non-negative, and zero when the channel was constant.
  lemma StdOfWindow(xs: seq<real>, sqrt: real -> real)
    requires |xs| > 0
    requires forall x :: x >= 0.0 ==> sqrt(x) >= 0.0
    requires sqrt(0.0) == 0.0
    ensures sqrt(Variance(xs)) >= 0.0
    ensures Constant(xs) ==> sqrt(Variance(xs)) == 0.0
  {
    VarianceNonNegative(xs);
    VarianceZeroIffConstant(xs);
  }

  /// The per-channel means of the first `n` scans.
  function WindowMeans(buf: seq<real>, n: nat): (r: seq<real>)
    requires 0 < n && NumAddresses * n <= |buf|
    ensures |r| == NumAddresses
  {
    seq(NumAddresses, c requires 0 <= c < NumAddresses => Mean(ChannelSamples(buf, c, n)))
  }

  /// The per-channel standard deviations of the first `n` scans, given the square root.
  function WindowStds(buf: seq<real>, n: nat, sqrt: real -> real): (r: seq<real>)
    requires 0 < n && NumAddresses * n <= |buf|
    ensures |r| == NumAddresses
  {
    seq(NumAddresses, c requires 0 <= c < NumAddresses => sqrt(Variance(ChannelSamples(buf, c, n))))
  }

  // ---------------------------------------------------------------------
  // The LBJK bank: time, mean0, std0, mean1, std1, ...

  function Interleave(means: seq<real>, stds: seq<real>): seq<real>
    requires |means| == |stds|
  {
    if means == [] then []
    else Interleave(means[..|means| - 1], stds[..|stds| - 1]) + [means[|means| - 1], stds[|stds| - 1]]
  }

  lemma {:induction false} InterleaveAt(means: seq<real>, stds: seq<real>)
    requires |means| == |stds|
    ensures |Interleave(means, stds)| == 2 * |means|
    ensures forall c :: 0 <= c < |means| ==>
              Interleave(means, stds)[2 * c] == means[c] && Interleave(means, stds)[2 * c + 1] == stds[c]
  {
    if means != [] {
      InterleaveAt(means[..|means| - 1], stds[..|stds| - 1]);
    }
  }

  function PackBank(time: real, means: seq<real>, stds: seq<real>): seq<real>
    requires |means| == |stds|
  {
    [time] + Interleave(means, stds)
  }

  /// Reading the bank back with its fixed layout.
  function UnpackBank(bank: seq<real>): (r: (real, seq<real>, seq<real>))
    requires |bank| == 1 + 2 * NumAddresses
  {
    (bank[0],
     seq(NumAddresses, c requires 0 <= c < NumAddresses => bank[1 + 2 * c]),
     seq(NumAddresses, c requires 0 <= c < NumAddresses => bank[2 + 2 * c]))
  }

  /// The bank holds 1 + 2N values and decodes back to what was packed.
  lemma BankRoundTrip(time: real, means: seq<real>, stds: seq<real>)
    requires |means| == NumAddresses && |stds| == NumAddresses
    ensures |PackBank(time, means, stds)| == 1 + 2 * NumAddresses
    ensures UnpackBank(PackBank(time, means, stds)) == (time, means, stds)
  {
    InterleaveAt(means, stds);
    var bank := PackBank(time, means, stds);
    var (t, m, s) := UnpackBank(bank);
    assert m == means;
    assert s == stds;
  }

  // ---------------------------------------------------------------------
  // 1221 retry policy

  /// Whether a series of stream-read codes passes `read_labjack_event`
  /// without reaching `ErrorCheck`, starting from `count` earlier 1221 errors.
  predicate SurvivesReads(count: nat, codes: seq<int>)
    decreases |codes|
  {
    codes == [] ||
    (if codes[0] == NoScansReturned then count + 1 <= ErrorLimit && SurvivesReads(count + 1, codes[1..])
     else codes[0] == 0 && SurvivesReads(count, codes[1..]))
  }

  /// The counter is never reset: a run of 1221 errors is survived exactly
  /// while the total stays within the limit of 100.
  lemma {:induction false} RetryBudget(count: nat, n: nat)
    requires count <= ErrorLimit
    decreases n
    ensures SurvivesReads(count, seq(n, _ => NoScansReturned)) <==> count + n <= ErrorLimit
  {
    var codes := seq(n, _ => NoScansReturned);
    if n > 0 {
      assert codes[1..] == seq(n - 1, _ => NoScansReturned);
      if count + 1 <= ErrorLimit {
        RetryBudget(count + 1, n - 1);
      }
    }
  }

  // ---------------------------------------------------------------------
  // Buffer sizing

  /// The buffer size as written: `NumAddresses * ScansPerRead`.
  function AsWrittenStreamDataSize(scansPerRead: nat): nat {
    NumAddresses * scansPerRead
  }

  /// The scans per read given to `LJM_eStreamStart`, and hence the scans
  /// every `LJM_eStreamRead` writes into `streamData`.
  function StartedScans(scansPerRead: nat): nat {
    scansPerRead + StartPadding
  }

  /// As written, every stream read writes 75 doubles past the end of `streamData`:
  /// `frontend_init` allocates `AsWrittenStreamDataSize` doubles, yet starts the
  /// stream with `StartedScans` scans per read. `Frontend.FrontendInit` below
  /// allocates the corrected `StreamDataSize` instead.
  lemma AsWrittenBufferTooSmall(scansPerRead: nat)
    ensures AsWrittenStreamDataSize(scansPerRead) + NumAddresses * StartPadding
         == NumAddresses * StartedScans(scansPerRead)
    ensures AsWrittenStreamDataSize(scansPerRead) < NumAddresses * StartedScans(scansPerRead)
  {
  }

  /// The buffer size the stream needs: one slot per sample of a started read.
  function StreamDataSize(scansPerRead: nat): (size: nat)
    ensures size >= NumAddresses * StartedScans(scansPerRead)
    ensures size >= NumAddresses * scansPerRead + NumAddresses * StartPadding
  {
    NumAddresses * StartedScans(scansPerRead)
  }

  // ---------------------------------------------------------------------
  // The frontend's global state

  class Frontend {
    var scanRate: real
    var scansPerRead: int
    var streamDataSize: int
    var streamData: array<real>
    /// Scans per read given to `LJM_eStreamStart`; meaningful while `streaming`.
    var startedScans: int
    var streaming: bool
    /// The function-static `error_count` of `read_labjack_event`.
    var errorCount: nat

    ghost predicate Valid()
      reads this
    {
      && streamData.Length == streamDataSize
      && scansPerRead >= 0
      && (streaming ==> startedScans == StartedScans(scansPerRead)
                        && streamDataSize >= NumAddresses * startedScans)
    }

    /// The static initialisers, before `frontend_init`: ScansPerRead is 0,
    /// so `streamData` is a zero-length allocation.
    constructor ()
      ensures Valid() && !streaming && errorCount == 0
      ensures scansPerRead == 0 && streamDataSize == 0
    {
      scanRate := 0.0;
      scansPerRead := 0;
      streamDataSize := 0;
      streamData := new real[0];
      startedScans := 0;
      streaming := false;
      errorCount := 0;
    }

    /// `frontend_init`: read ScanRate and ScansPerRead from the ODB, size and
    /// clear `streamData`, map the channel names and start the stream. The
    /// buffer gets the corrected `StreamDataSize`, room for every started
    /// scan, not the as-written `AsWrittenStreamDataSize`.
    method FrontendInit(odbScanRate: real, odbScansPerRead: int, namesErr: int, startErr: int, actualRate: real)
      returns (status: Status)
      requires odbScansPerRead >= 0
      modifies this
      ensures Valid() && fresh(streamData) && errorCount == old(errorCount)
      ensures scansPerRead == odbScansPerRead
      ensures streamDataSize == StreamDataSize(odbScansPerRead)
      ensures forall k :: 0 <= k < streamData.Length ==> streamData[k] == 0.0
      ensures status == (if namesErr != 0 then Abort(namesErr) else ErrorCheck(startErr))
      ensures streaming <==> status == Continue
      ensures streaming ==> startedScans == odbScansPerRead + StartPadding && scanRate == actualRate
    {
      scanRate := odbScanRate;
      scansPerRead := odbScansPerRead;
      streamDataSize := StreamDataSize(scansPerRead);
      streamData := new real[streamDataSize](_ => 0.0);
      streaming := false;
      status := ErrorCheck(namesErr);
      if status.Abort? {
        return;
      }
      startedScans := scansPerRead + StartPadding;
      status := ErrorCheck(startErr);
      if status == Continue {
        scanRate := actualRate;
        streaming := true;
      }
    }

    /// `read_labjack_event`: drain one window, apply the 1221 retry policy,
    /// aggregate each channel over ScansPerRead scans and pack the LBJK bank.
    /// `read` is what `LJM_eStreamRead` did: the samples it wrote, or its error code.
    method ReadEvent(now: int, read: Result<seq<real>, int>, sqrt: real -> real)
      returns (status: Status, bank: seq<real>)
      requires Valid() && streaming && scansPerRead > 0
      requires read.Ok? ==> |read.value| == NumAddresses * startedScans
      requires read.Err? ==> read.error != 0
      modifies this`errorCount, streamData
      ensures errorCount == old(errorCount) + (if read == Err(NoScansReturned) then 1 else 0)
      ensures read.Ok? ==> streamData[..|read.value|] == read.value
      ensures read.Ok? ==> streamData[|read.value|..] == old(streamData[|read.value|..])
      ensures read.Err? ==> streamData[..] == old(streamData[..])
      ensures status == Continue <==>
                (read.Ok? || (read == Err(NoScansReturned) && errorCount <= ErrorLimit))
      ensures status == Continue ==>
                bank == PackBank(now as real, WindowMeans(streamData[..], scansPerRead),
                                 WindowStds(streamData[..], scansPerRead, sqrt))
      ensures status.Abort? ==> bank == []
    {
      bank := [];
      // LJM_eStreamRead writes the started number of scans into streamData.
      if read.Ok? {
        StreamReadInto(streamData, read.value);
      }
      var err := if read.Ok? then 0 else read.error;
      if err == NoScansReturned {
        errorCount := errorCount + 1;
        if errorCount > ErrorLimit {
          status := ErrorCheck(err);
          return;
        }
      } else {
        status := ErrorCheck(err);
        if status.Abort? {
          return;
        }
      }
      status := Continue;

      var mean, std := AggregateWindow(streamData, scansPerRead, sqrt);
      bank := AssembleBank(now as real, mean, std);
    }
  }

  /// `LJM_eStreamRead` writing its samples at the front of the buffer.
  method StreamReadInto(buffer: array<real>, data: seq<real>)
    requires |data| <= buffer.Length
    modifies buffer
    ensures buffer[..|data|] == data
    ensures buffer[|data|..] == old(buffer[|data|..])
  {
    var k := 0;
    while k < |data|
      invariant 0 <= k <= |data|
      invariant buffer[..k] == data[..k]
      invariant buffer[k..] == old(buffer[k..])
    {
      buffer[k] := data[k];
      k := k + 1;
    }
  }

  /// The per-channel loop of `read_labjack_event`, filling `mean[]` and `std[]`.
  method AggregateWindow(buffer: array<real>, n: nat, sqrt: real -> real)
    returns (means: seq<real>, stds: seq<real>)
    requires 0 < n && NumAddresses * n <= buffer.Length
    ensures means == WindowMeans(buffer[..], n)
    ensures stds == WindowStds(buffer[..], n, sqrt)
  {
    var mean := new real[NumAddresses];
    var std := new real[NumAddresses];
    var channel := 0;
    while channel < NumAddresses
      invariant 0 <= channel <= NumAddresses
      invariant forall c :: 0 <= c < channel ==> mean[c] == Mean(ChannelSamples(buffer[..], c, n))
      invariant forall c :: 0 <= c < channel ==> std[c] == sqrt(Variance(ChannelSamples(buffer[..], c, n)))
    {
      mean[channel], std[channel] := WindowStatistics(buffer, channel, n, sqrt);
      channel := channel + 1;
    }
    means, stds := mean[..], std[..];
  }

  /// The two passes of `read_labjack_event` over one channel: the sum for
  /// the mean, then the squared deviations from that mean.
  method WindowStatistics(buffer: array<real>, channel: nat, n: nat, sqrt: real -> real)
    returns (mean: real, std: real)
    requires channel < NumAddresses && 0 < n && NumAddresses * n <= buffer.Length
    ensures mean == Mean(ChannelSamples(buffer[..], channel, n))
    ensures std == sqrt(Variance(ChannelSamples(buffer[..], channel, n)))
  {
    var sum := WindowSum(buffer, channel, n);
    mean := sum / (n as real);
    var acc := WindowSquaredDeviations(buffer, channel, n, mean);
    std := sqrt(acc / (n as real));
  }

  /// `sum[channel] += streamData[channel + NumAddresses*i]` for i < n.
  method WindowSum(buffer: array<real>, channel: nat, n: nat) returns (sum: real)
    requires channel < NumAddresses && NumAddresses * n <= buffer.Length
    ensures sum == Sum(ChannelSamples(buffer[..], channel, n))
  {
    ghost var buf := buffer[..];
    sum := 0.0;
    var i := 0;
    while i < n
      invariant 0 <= i <= n
      invariant sum == Sum(ChannelSamples(buf, channel, i))
    {
      ghost var w := ChannelSamples(buf, channel, i + 1);
      assert w[..i] == ChannelSamples(buf, channel, i);
      sum := sum + buffer[channel + NumAddresses * i];
      i := i + 1;
    }
  }

  /// `std[channel] += pow(streamData[channel + NumAddresses*i] - mean, 2)` for i < n.
  method WindowSquaredDeviations(buffer: array<real>, channel: nat, n: nat, mean: real) returns (acc: real)
    requires channel < NumAddresses && NumAddresses * n <= buffer.Length
    ensures acc == SquaredDeviations(ChannelSamples(buffer[..], channel, n), mean)
  {
    ghost var buf := buffer[..];
    acc := 0.0;
    var i := 0;
    while i < n
      invariant 0 <= i <= n
      invariant acc == SquaredDeviations(ChannelSamples(buf, channel, i), mean)
    {
      ghost var w := ChannelSamples(buf, channel, i + 1);
      assert w[..i] == ChannelSamples(buf, channel, i);
      var d := buffer[channel + NumAddresses * i] - mean;
      acc := acc + d * d;
      i := i + 1;
    }
  }

  /// The `*pdata++` writes: the time, then each channel's mean and std.
  method AssembleBank(time: real, mean: seq<real>, std: seq<real>) returns (bank: seq<real>)
    requires |mean| == |std|
    ensures bank == PackBank(time, mean, std)
  {
    bank := [time];
    var channel := 0;
    while channel < |mean|
      invariant 0 <= channel <= |mean|
      invariant bank == [time] + Interleave(mean[..channel], std[..channel])
    {
      assert mean[..channel + 1][..channel] == mean[..channel];
      assert std[..channel + 1][..channel] == std[..channel];
      bank := bank + [mean[channel], std[channel]];
      channel := channel + 1;
    }
    assert mean[..channel] == mean && std[..channel] == std;
  }

}

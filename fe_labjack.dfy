/// The first feLabjack MIDAS frontend: streams fifteen analog inputs from a
/// LabJack and banks the first scan of every read, scaled by 100.
///
/// Its two buffers, `aData` and `aScanList`, are allocated by global
/// initialisers when the program is loaded, freed by `end_of_run` and freed
/// again by `frontend_exit`. The pure `Run` below replays a sequence of
/// MIDAS transitions against that allocation state, as written and as
/// corrected; the `Frontend` class is the corrected frontend.
module FeLabjack {
  import opened Base
  import opened LjmFrontend

  const ChannelNames: seq<string> := [
    "AIN96", "AIN97", "AIN98", "AIN3", "AIN4",
    "AIN5", "AIN6", "AIN7", "AIN8", "AIN9",
    "AIN10", "AIN11", "AIN12", "AIN13", "AIN14"
  ]

  /// The `NUM_CHANNELS` enum.
  const NumChannels: nat := 15

  /// A C conversion from double to integer: the fraction is dropped, toward zero.
  function TruncateToInt(x: real): (i: int)
    ensures x >= 0.0 ==> i as real <= x < i as real + 1.0
    ensures x < 0.0 ==> i as real - 1.0 < x <= i as real
  {
    if x >= 0.0 then x.Floor else -((-x).Floor)
  }

  /// `100000/NUM_CHANNELS*0.9`: an integer division, then a double product.
  const InitScanRate: real := ((100000 / NumChannels) as real) * 0.9

  /// `INT SCANS_PER_READ = INIT_SCAN_RATE/NUM_CHANNELS`.
  const ScansPerRead: int := TruncateToInt(InitScanRate / (NumChannels as real))

  /// `aDataSize`: one double per channel of every scan of a read.
  const ADataSize: int := NumChannels * ScansPerRead

  lemma NumChannelsIsChannelCount()
    ensures |ChannelNames| == NumChannels
  {
  }

  /// 100000/15 truncates to 6666, so the rate is 5999.4 Hz and a read
  /// holds 399 scans (399.96 truncated), 5985 doubles in all.
  lemma ScanConstants()
    ensures InitScanRate == 5999.4
    ensures ScansPerRead == 399
    ensures ADataSize == 5985
  {
    assert 100000 / NumChannels == 6666;
    var q := InitScanRate / (NumChannels as real);
    assert q == 399.96;
    assert 399.0 <= q < 400.0;
  }

  // ---------------------------------------------------------------------
  // The buffer lifecycle across MIDAS transitions

  /// The frontend entry points MIDAS calls.
  datatype Transition = Init | BeginOfRun | Read | EndOfRun | Exit

  /// What goes wrong with the buffers.
  datatype Fault = DoubleFree | UseAfterFree

  /// One transition against the allocation state `live` of `aData` and
  /// `aScanList` (they are allocated and freed together). `frontend_init`
  /// clears `aData` and `read_labjack_event` writes it, so both need it
  /// live; `frontend_exit`, and `end_of_run` when `freesAtEndOfRun`, free it.
  function Step(freesAtEndOfRun: bool, live: bool, t: Transition): (r: Result<bool, Fault>)
    ensures r.Err? ==> !live
    ensures r.Ok? && t == Exit ==> !r.value
  {
    match t
    case Init => if live then Ok(live) else Err(UseAfterFree)
    case BeginOfRun => Ok(live)
    case Read => if live then Ok(live) else Err(UseAfterFree)
    case EndOfRun =>
      if !freesAtEndOfRun then Ok(live)
      else if live then Ok(false) else Err(DoubleFree)
    case Exit => if live then Ok(false) else Err(DoubleFree)
  }

  /// Replays `trace` from allocation state `live`, stopping at the first fault.
  function Run(freesAtEndOfRun: bool, live: bool, trace: seq<Transition>): Result<bool, Fault>
    decreases |trace|
  {
    if trace == [] then Ok(live)
    else
      match Step(freesAtEndOfRun, live, trace[0])
      case Err(f) => Err(f)
      case Ok(next) => Run(freesAtEndOfRun, next, trace[1..])
  }

  /// A session MIDAS can drive: any transitions, with `frontend_exit` only as the last.
  predicate ExitOnlyLast(trace: seq<Transition>) {
    forall k :: 0 <= k < |trace| - 1 ==> trace[k] != Exit
  }

  /// As written, one run followed by the program's exit frees the buffers twice.
  lemma AsWrittenDoubleFree()
    ensures Run(true, true, [Init, BeginOfRun, Read, EndOfRun, Exit]) == Err(DoubleFree)
  {
  }

  /// As written, a second run reads into the buffer the first run freed.
  lemma AsWrittenUseAfterFree()
    ensures Run(true, true, [Init, BeginOfRun, Read, EndOfRun, BeginOfRun, Read]) == Err(UseAfterFree)
  {
  }

  /// As written, every session that ends a run and later exits faults.
  lemma {:induction false} AsWrittenEndOfRunThenExitFaults(live: bool, trace: seq<Transition>, i: nat, j: nat)
    requires i < j < |trace| && trace[i] == EndOfRun && trace[j] == Exit
    ensures Run(true, live, trace).Err?
    decreases |trace|
  {
    match Step(true, live, trace[0])
    case Err(_) =>
    case Ok(next) =>
      if i == 0 {
        assert !next;
        FreedStaysFaulty(trace[1..], j - 1);
      } else {
        AsWrittenEndOfRunThenExitFaults(next, trace[1..], i - 1, j - 1);
      }
  }

  /// Once freed, reaching `frontend_exit` faults whatever comes before it.
  lemma {:induction false} FreedStaysFaulty(trace: seq<Transition>, j: nat)
    requires j < |trace| && trace[j] == Exit
    ensures Run(true, false, trace).Err?
    decreases |trace|
  {
    match Step(true, false, trace[0])
    case Err(_) =>
    case Ok(next) =>
      assert !next && j > 0;
      FreedStaysFaulty(trace[1..], j - 1);
  }

  /// Corrected (`end_of_run` stops the stream but keeps the buffers): no
  /// session faults, and the buffers are released exactly when it ends with
  /// `frontend_exit`.
  lemma {:induction false} CorrectedNeverFaults(trace: seq<Transition>)
    requires ExitOnlyLast(trace)
    ensures Run(false, true, trace) == Ok(!(trace != [] && trace[|trace| - 1] == Exit))
    decreases |trace|
  {
    if trace != [] {
      var rest := trace[1..];
      if rest == [] {
      } else {
        assert trace[0] != Exit;
        assert ExitOnlyLast(rest) by {
          forall k | 0 <= k < |rest| - 1
            ensures rest[k] != Exit
          {
            assert rest[k] == trace[k + 1];
          }
        }
        CorrectedNeverFaults(rest);
        assert rest[|rest| - 1] == trace[|trace| - 1];
      }
    }
  }

  // ---------------------------------------------------------------------
  // The LBJK bank

  /// The bank of one read: the first scan's channels in CHANNEL_NAMES order,
  /// scaled by 100.
  function FirstScanBank(data: seq<real>): (bank: seq<real>)
    requires |data| >= NumChannels
    ensures |bank| == NumChannels
  {
    seq(NumChannels, c requires 0 <= c < NumChannels => 100.0 * data[c])
  }

  /// Only the first scan reaches the bank: the other 398 are discarded.
  lemma OnlyFirstScanBanked(a: seq<real>, b: seq<real>)
    requires |a| >= NumChannels && |b| >= NumChannels
    ensures FirstScanBank(a) == FirstScanBank(b) <==> a[..NumChannels] == b[..NumChannels]
  {
    if FirstScanBank(a) == FirstScanBank(b) {
      forall c | 0 <= c < NumChannels
        ensures a[c] == b[c]
      {
        assert FirstScanBank(a)[c] == FirstScanBank(b)[c];
      }
      assert a[..NumChannels] == b[..NumChannels];
    } else {
      var c :| 0 <= c < NumChannels && FirstScanBank(a)[c] != FirstScanBank(b)[c];
      assert a[..NumChannels][c] != b[..NumChannels][c];
    }
  }

  // ---------------------------------------------------------------------
  // The frontend's global state, with the corrected `end_of_run`

  class Frontend {
    var aData: array<real>
    /// Whether `aData` and `aScanList` are still allocated.
    var buffersLive: bool
    /// `INIT_SCAN_RATE`, which `LJM_eStreamStart` overwrites with the actual rate.
    var scanRate: real
    var streaming: bool

    ghost predicate Valid()
      reads this
    {
      buffersLive ==> aData.Length == ADataSize
    }

    /// The global initialisers: both buffers are allocated at load time.
    constructor ()
      ensures Valid() && buffersLive && !streaming && scanRate == InitScanRate
      ensures fresh(aData)
    {
      ScanConstants();
      aData := new real[ADataSize];
      buffersLive := true;
      scanRate := InitScanRate;
      streaming := false;
    }

    /// `frontend_init`: clear `aData`, map the names, start the stream with
    /// SCANS_PER_READ scans per read, the size `aData` was allocated for.
    method FrontendInit(namesErr: int, startErr: int, actualRate: real) returns (status: Status)
      requires Valid() && buffersLive
      modifies this`scanRate, this`streaming, aData
      ensures Valid() && buffersLive
      ensures forall k :: 0 <= k < aData.Length ==> aData[k] == 0.0
      ensures status == (if namesErr != 0 then Abort(namesErr) else ErrorCheck(startErr))
      ensures streaming <==> status == Continue
      ensures scanRate == (if status == Continue then actualRate else old(scanRate))
    {
      var k := 0;
      while k < aData.Length
        invariant 0 <= k <= aData.Length
        invariant forall m :: 0 <= m < k ==> aData[m] == 0.0
        invariant scanRate == old(scanRate)
      {
        aData[k] := 0.0;
        k := k + 1;
      }
      streaming := false;
      status := ErrorCheck(namesErr);
      if status.Abort? {
        return;
      }
      status := ErrorCheck(startErr);
      if status == Continue {
        scanRate := actualRate;
        streaming := true;
      }
    }

    /// `read_labjack_event`: the read fills `aData`; any error ends the
    /// program; otherwise the bank is the first scan times 100.
    method ReadEvent(read: Result<seq<real>, int>) returns (status: Status, bank: seq<real>)
      requires Valid() && buffersLive
      requires read.Ok? ==> |read.value| == aData.Length
      requires read.Err? ==> read.error != 0
      modifies aData
      ensures read.Ok? ==> aData[..] == read.value
      ensures read.Err? ==> aData[..] == old(aData[..])
      ensures status == Continue <==> read.Ok?
      ensures status == Continue ==> bank == FirstScanBank(aData[..])
      ensures status.Abort? ==> bank == []
    {
      bank := [];
      if read.Err? {
        return ErrorCheck(read.error), [];
      }
      ScanConstants();
      var k := 0;
      while k < aData.Length
        invariant 0 <= k <= aData.Length
        invariant aData[..k] == read.value[..k]
      {
        aData[k] := read.value[k];
        k := k + 1;
      }
      assert aData[..] == read.value;
      status := Continue;
      var channel := 0;
      while channel < NumChannels
        invariant 0 <= channel <= NumChannels
        invariant bank == FirstScanBank(aData[..])[..channel]
      {
        bank := bank + [aData[channel] * 100.0];
        channel := channel + 1;
      }
    }

    /// `end_of_run`, corrected: stop the stream and keep the buffers for
    /// the next run; `frontend_exit` releases them.
    method EndOfRun(stopErr: int) returns (status: Status)
      requires Valid()
      modifies this`streaming
      ensures Valid() && !streaming
      ensures status == ErrorCheck(stopErr)
    {
      streaming := false;
      status := ErrorCheck(stopErr);
    }

    /// `frontend_exit`: free both buffers, once.
    method FrontendExit()
      requires buffersLive
      modifies this`buffersLive
      ensures !buffersLive
    {
      buffersLive := false;
    }
  }
}

/// The `ana` event loop: writes one text line per event that carries an
/// "LBJK" bank, the MIDAS time stamp followed by the first 15 doubles of
/// the bank.
module Ana {
  import opened Base
  import opened Events
  import FeLabjack
  import FeLabjack02

  /// The file `Initialize` opens.
  const FileName: string := "run01208.txt"

  /// The number of bank values written per line.
  const ValuesPerLine: nat := 15

  /// One line of the file: `timestamp, v0, v1, ..., v14`.
  datatype Line = Line(timestamp: int, values: seq<real>)

  /// The comma-separated fields of a line.
  function Fields(line: Line): (fields: seq<real>)
    ensures |fields| == 1 + |line.values|
    ensures fields[0] == line.timestamp as real && fields[1..] == line.values
  {
    [line.timestamp as real] + line.values
  }

  /// The first 15 doubles of the bank, read one by one.
  method ReadValues(data: seq<real>) returns (values: seq<real>)
    requires |data| >= ValuesPerLine
    ensures values == data[..ValuesPerLine]
  {
    values := [];
    for i := 0 to ValuesPerLine
      invariant values == data[..i]
    {
      values := values + [data[i]];
    }
  }

  class Analyzer {
    /// Whether `myfile` is open; writes to a closed stream are lost.
    var open: bool
    /// The lines written to the file since it was opened.
    var file: seq<Line>

    /// Nothing is open before `Initialize`.
    constructor ()
      ensures !open && file == []
    {
      open := false;
      file := [];
    }

    /// Opens "run01208.txt" for writing, discarding what it held.
    method Initialize()
      modifies this
      ensures open && file == []
    {
      open := true;
      file := [];
    }

    /// Does nothing.
    method BeginRun(transition: int, run: int, time: int) {
    }

    /// Closes the file; its lines stay as written.
    method EndRun(transition: int, run: int, time: int)
      modifies this`open
      ensures !open
    {
      open := false;
    }

    /// Returns false, writing nothing, when the event has no "LBJK" bank;
    /// otherwise appends the line of the time stamp and the first 15 bank
    /// values (if the file is open) and returns true.
    method ProcessMidasEvent(event: Event) returns (processed: bool)
      requires event.lbjk.Some? ==> |event.lbjk.value| >= ValuesPerLine
      modifies this`file
      ensures processed <==> event.lbjk.Some?
      ensures file == old(file) + LineOf(event, open)
    {
      if event.lbjk.None? {
        return false;
      }
      var values := ReadValues(event.lbjk.value);
      if open {
        file := file + [Line(event.timestamp, values)];
      }
      return true;
    }
  }

  /// The lines one event adds to the file.
  function LineOf(event: Event, open: bool): (lines: seq<Line>)
    requires event.lbjk.Some? ==> |event.lbjk.value| >= ValuesPerLine
    ensures |lines| <= 1
  {
    if event.lbjk.Some? && open then [Line(event.timestamp, event.lbjk.value[..ValuesPerLine])] else []
  }

  /// The file after a run of events with the file open: one line per event
  /// with an "LBJK" bank, in event order.
  function FileOf(events: seq<Event>): (lines: seq<Line>)
    requires forall k :: 0 <= k < |events| ==> (events[k].lbjk.Some? ==> |events[k].lbjk.value| >= ValuesPerLine)
    ensures |lines| <= |events|
    decreases |events|
  {
    if events == [] then []
    else FileOf(events[..|events| - 1]) + LineOf(events[|events| - 1], true)
  }

  /// `line` is the time stamp and first 15 bank values of an event of the
  /// run that has an "LBJK" bank.
  ghost predicate FromEvent(events: seq<Event>, line: Line)
  {
    exists k :: 0 <= k < |events| && events[k].lbjk.Some? && |events[k].lbjk.value| >= ValuesPerLine &&
      line == Line(events[k].timestamp, events[k].lbjk.value[..ValuesPerLine])
  }

  /// Every line has 16 fields, and its first field is the time stamp of an
  /// event of the run, not a bank value.
  lemma {:induction false} LinesHaveSixteenFields(events: seq<Event>)
    requires forall k :: 0 <= k < |events| ==> (events[k].lbjk.Some? ==> |events[k].lbjk.value| >= ValuesPerLine)
    ensures forall j :: 0 <= j < |FileOf(events)| ==> |Fields(FileOf(events)[j])| == 16
    ensures forall j :: 0 <= j < |FileOf(events)| ==> FromEvent(events, FileOf(events)[j])
    decreases |events|
  {
    if events != [] {
      var n := |events| - 1;
      LinesHaveSixteenFields(events[..n]);
      forall j | 0 <= j < |FileOf(events)|
        ensures FromEvent(events, FileOf(events)[j])
        ensures |Fields(FileOf(events)[j])| == 16
      {
        if j < |FileOf(events[..n])| {
          assert FromEvent(events[..n], FileOf(events[..n])[j]);
          var k :| 0 <= k < n && events[..n][k].lbjk.Some? && |events[..n][k].lbjk.value| >= ValuesPerLine &&
                   FileOf(events[..n])[j] == Line(events[..n][k].timestamp, events[..n][k].lbjk.value[..ValuesPerLine]);
          assert events[k] == events[..n][k];
          assert FileOf(events)[j] == FileOf(events[..n])[j];
        } else {
          assert events[n].lbjk.Some?;
          assert FileOf(events)[j] == Line(events[n].timestamp, events[n].lbjk.value[..ValuesPerLine]);
        }
      }
    } else {
      assert FileOf(events) == [];
    }
  }

  /// A bank from the single-read front end (15 channels, first scan, times
  /// 100) is written whole: the line holds the bank unchanged.
  lemma FeLabjackBankWrittenWhole(data: seq<real>, timestamp: int)
    requires |data| >= FeLabjack.NumChannels
    ensures var bank := FeLabjack.FirstScanBank(data);
            Fields(Line(timestamp, bank[..ValuesPerLine]))[1..] == bank
  {
  }

  /// A bank from the averaging front end holds 31 values: the time, then
  /// (mean, std) for each of 15 channels. The line keeps the time and the
  /// pairs of channels 0 to 6; channels 7 to 14 are not written.
  lemma FeLabjack02BankTruncated(time: real, means: seq<real>, stds: seq<real>)
    requires |means| == FeLabjack02.NumAddresses && |stds| == FeLabjack02.NumAddresses
    ensures var bank := FeLabjack02.PackBank(time, means, stds);
            && |bank| == 31
            && bank[..ValuesPerLine] == [time] + FeLabjack02.Interleave(means[..7], stds[..7])
  {
    var bank := FeLabjack02.PackBank(time, means, stds);
    FeLabjack02.BankRoundTrip(time, means, stds);
    FeLabjack02.InterleaveAt(means, stds);
    FeLabjack02.InterleaveAt(means[..7], stds[..7]);
    var line := [time] + FeLabjack02.Interleave(means[..7], stds[..7]);
    assert |FeLabjack02.Interleave(means[..7], stds[..7])| == 14;
    var all := FeLabjack02.Interleave(means, stds);
    var front := FeLabjack02.Interleave(means[..7], stds[..7]);
    forall c | 0 <= c < 7
      ensures bank[1 + 2 * c] == line[1 + 2 * c] && bank[2 + 2 * c] == line[2 + 2 * c]
    {
      assert bank[1 + 2 * c] == all[2 * c] && bank[2 + 2 * c] == all[2 * c + 1];
      assert line[1 + 2 * c] == front[2 * c] && line[2 + 2 * c] == front[2 * c + 1];
    }
    forall i | 0 <= i < ValuesPerLine
      ensures bank[i] == line[i]
    {
      if i > 0 {
        var c := (i - 1) / 2;
        assert i == 1 + 2 * c || i == 2 + 2 * c;
      }
    }
    assert bank[..ValuesPerLine] == line;
  }
}

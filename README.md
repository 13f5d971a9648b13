# Fluxgate readout: LabJack frontends, T7 helpers and online analyzer, in Dafny

This project models the data path of a small MIDAS data-acquisition setup
that reads fluxgate magnetometers through LabJack T7 devices, and proves
properties of that model. The path has three layers.

- **Acquisition frontends** (`feLabjack02.c`, `feLabjack.c`).
  - The device streams a flat, scan-major buffer: channel c of scan i is element `c + N*i`.
  - feLabjack02 reduces each channel of a read window to a mean and a population standard deviation.
    It packs the LBJK bank `[time, mean0, std0, mean1, std1, ...]` and tolerates up to 100 `1221` (no scans returned) errors.
  - feLabjack banks the first scan of each read, scaled by 100.
    Its buffers are allocated at load time and freed by `end_of_run` and `frontend_exit`.
- **Python helpers** (`LabJackT7.py`, `t7_readout.py`).
  - `LabJackT7` selects three inputs per probe and names them `CHkx`/`CHky`/`CHkz`.
    It de-interleaves each read into columns (`data[i::n]`) and keeps the reads keyed by start time.
    `from_csv` recovers the probe list from a CSV header.
  - `t7_readout.py` pairs 32 MUX80 inputs for differential reading, writes their settings, and counts scans and skipped scans over 50 stream reads.
- **Online analyzer** (`analyzer/`).
  - `TAnaManager` builds the modules a build enables and hands each event to them in a fixed order.
    It then compares the peaks of V1720 channels 0 and 1.
  - The waveform modules (V1730 raw, V1730 DPP, DT724) overwrite histogram bins in place.
  - The counting modules (L2249, Agilent) accumulate fills, and are recreated at begin-of-run.
  - The V1720 correlation module fills peak time and amplitude, and flags early peaks as interesting.
  - `ana.cxx` writes one text line per LBJK bank.

## How the model is built

Each source file is its own module: `FeLabjack02`, `FeLabjack`, `LabJackT7`, `T7Readout`, `AnaManager`,
`V1720Correlations`, `V1730RawWaveform`, `V1730DppWaveform`, `DT724Waveform`,
`L2249Histogram`, `AgilentHistogram` and `Ana`. Shared modules hold what several files use:

- `Base`: Option/Result, decimal rendering and `AIN` names.
- `LjmFrontend`: `ErrorCheck` and `poll_event`.
- `Events`: the banks of one MIDAS event.
- `Histograms`: the ROOT directory, histogram names, bin updates and fill histories.
- `V1720Peak`: the peak search both V1720 users share.

State the source changes in place is a class with fields and `modifies` clauses:

- the frontends' globals;
- the `LabJackT7` object;
- every analyzer module;
- `gDirectory`, as a `Directory` class holding the set of existing names.

The waveform histograms are one `array2<real>` per module. Row h is histogram h, and its `nbins + 2` cells run from the underflow bin to the overflow bin. A `SetBinContent` outside a row is ignored, as ROOT does.
Counting histograms are the sequences of values filled into them.
Each loop of the source is a method proved equal to a specification function, and the source's promises are lemmas about those functions.

Device and framework calls are parameters:

- what `LJM_eStreamRead` delivered, or its error code;
- the return codes of `LJM_NamesToAddresses`, `LJM_eStreamStart` and `LJM_eStreamStop`;
- the start times and samples of the Python reads;
- the square root.

Samples are `real`. `ErrorCheck` (from LJM_Utilities.h, which is not part of this model) is taken to end the program on any non-zero code.

Three behaviours of the code are worth knowing:

- **Stale waveform bins.** A V1730 update clears only bins 1 to `numSamples`. Once `SetNumSamples` shrinks that count, bins above it keep an earlier event's value (`Histograms.StaleBinKept`). DT724 clears every bin (`DT724Waveform.NoStaleBins`).
- **Zero scans per read.** feLabjack02 does not refuse `ScansPerRead = 0` at configuration time. The read then divides by zero.
- **Device release.** feLabjack releases its buffers twice, not once (Findings).

## Model

| member | source | states |
|---|---|---|
| Base.NatToStringInjective | analyzer/TV1730RawWaveform.cxx:34 | different indices render as different decimal strings, so `%i` names never collide |
| Base.AinNameInjective | t7_readout.py:38 | `"AIN%d"` names different inputs differently |
| LjmFrontend.PollEvent | feLabjack02.c:554-575 | returns 1 exactly when count > 0 and test is false, else 0 |
| FeLabjack02.NumAddressesIsChannelCount | feLabjack02.c:82-98 | NumAddresses (15) is the number of CHANNEL_NAMES |
| FeLabjack02.ChannelSamples | feLabjack02.c:674-676 | the window of channel c over n scans holds n samples |
| FeLabjack02.ChannelSamplesAt | feLabjack02.c:674-676 | sample i of channel c's window is buffer element c + 15·i |
| FeLabjack02.ChannelWindowsCover | feLabjack02.c:674-695 | every element p of the first n scans is sample p/15 of channel p%15 |
| FeLabjack02.ChannelWindowsDisjoint | feLabjack02.c:674-695 | an element belongs to one channel window only, at one position |
| FeLabjack02.SquaredDeviationsNonNegative | feLabjack02.c:693-698 | the accumulated squared deviations are never negative |
| FeLabjack02.VarianceNonNegative | feLabjack02.c:693-700 | the population variance of a window is never negative |
| FeLabjack02.SumOfConstant | feLabjack02.c:674-676 | a window of n equal samples v sums to n·v |
| FeLabjack02.SquaredDeviationsOfConstant | feLabjack02.c:693-698 | equal samples have no deviation from their value |
| FeLabjack02.DeviatingSampleIsPositive | feLabjack02.c:693-698 | one sample away from the mean makes the squared deviations positive |
| FeLabjack02.ZeroDeviationsMeansAllEqual | feLabjack02.c:693-698 | zero squared deviations from m means every sample is m |
| FeLabjack02.MeanOfConstant | feLabjack02.c:669-690 | the mean of a constant window is that constant |
| FeLabjack02.VarianceZeroIffConstant | feLabjack02.c:693-700 | the variance is zero if and only if all samples of the window are equal |
| FeLabjack02.SingleScanWindow | feLabjack02.c:666-702 | with one scan per read the mean is the sample and the variance zero |
| FeLabjack02.StdOfWindow | feLabjack02.c:700 | for any square root that is non-negative with sqrt(0) = 0, std is ≥ 0, and 0 for a constant channel |
| FeLabjack02.InterleaveAt | feLabjack02.c:722-732 | the interleaved pairs have 2N values: mean c at 2c and std c at 2c+1 |
| FeLabjack02.BankRoundTrip | feLabjack02.c:716-732 | the LBJK bank holds 1 + 2·15 values and unpacks back to (time, means, stds) |
| FeLabjack02.RetryBudget | feLabjack02.c:645-662 | the never-reset counter survives n consecutive 1221 errors exactly when count + n ≤ 100 |
| FeLabjack02.AsWrittenBufferTooSmall | feLabjack02.c:313-318 | as written, streamData is 15·5 = 75 doubles short of a read of ScansPerRead + 5 scans |
| FeLabjack02.StreamDataSize | feLabjack02.c:386-388 | corrected size: room for 15 channels times the scans given to eStreamStart |
| FeLabjack02.Frontend.constructor | feLabjack02.c:166-172 | before init, ScansPerRead is 0 and the buffer is empty; not streaming, no errors counted |
| FeLabjack02.Frontend.FrontendInit | feLabjack02.c:273-397 | corrected buffer size (Findings): sizes streamData for every started scan and zeroes it; ends with the names or start code; streams with ScansPerRead + 5 exactly when both succeed |
| FeLabjack02.Frontend.ReadEvent | feLabjack02.c:596-739 | counts 1221s; continues exactly on success or a 1221 within budget; the bank packs per-channel mean and std of the buffer, stale on a tolerated 1221 |
| FeLabjack02.StreamReadInto | feLabjack02.c:634 | the read's samples land at the front of streamData, the rest is untouched |
| FeLabjack02.AggregateWindow | feLabjack02.c:666-702 | mean[c] and std[c] are the mean and sqrt(population variance) of channel c's window, for every c |
| FeLabjack02.WindowStatistics | feLabjack02.c:669-700 | one channel's mean and std over its ScansPerRead samples |
| FeLabjack02.WindowSum | feLabjack02.c:674-676 | the sum loop adds exactly the channel's window, in order |
| FeLabjack02.WindowSquaredDeviations | feLabjack02.c:693-698 | the pow loop adds the squared deviations of exactly the channel's window |
| FeLabjack02.AssembleBank | feLabjack02.c:716-732 | the `*pdata++` writes produce time then (mean, std) per channel in CHANNEL_NAMES order |
| FeLabjack.TruncateToInt | feLabjack.c:63 | a double converted to INT loses its fraction toward zero |
| FeLabjack.NumChannelsIsChannelCount | feLabjack.c:54-58 | NUM_CHANNELS (15) is the number of CHANNEL_NAMES |
| FeLabjack.ScanConstants | feLabjack.c:61-87 | INIT_SCAN_RATE = 6666·0.9 = 5999.4, SCANS_PER_READ = 399, aDataSize = 5985 |
| FeLabjack.Step | feLabjack.c:203-250 | a transition faults only on a freed buffer, and exit always leaves it freed |
| FeLabjack.AsWrittenDoubleFree | feLabjack.c:246-247 | as written, init, run, end_of_run, exit frees the buffers twice |
| FeLabjack.AsWrittenUseAfterFree | feLabjack.c:221-230 | as written, a second run's read writes into the buffer end_of_run freed |
| FeLabjack.AsWrittenEndOfRunThenExitFaults | feLabjack.c:209-210 | as written, every session with an end_of_run before an exit faults |
| FeLabjack.FreedStaysFaulty | feLabjack.c:209-210 | once freed, reaching frontend_exit faults whatever happens before it |
| FeLabjack.CorrectedNeverFaults | feLabjack.c:234-250 | with end_of_run keeping the buffers, no session faults and the buffers are released exactly when it ends with exit |
| FeLabjack.FirstScanBank | feLabjack.c:405-409 | the bank holds NUM_CHANNELS values |
| FeLabjack.OnlyFirstScanBanked | feLabjack.c:405-409 | two reads give the same bank exactly when their first scans agree; the other 398 scans are discarded |
| FeLabjack.Frontend.constructor | feLabjack.c:85-87 | both buffers are allocated at load time, at the initial rate, not streaming |
| FeLabjack.Frontend.FrontendInit | feLabjack.c:156-198 | zeroes aData; ends with the names or start code; streams exactly when both succeed |
| FeLabjack.Frontend.ReadEvent | feLabjack.c:382-421 | the read fills aData; any error ends the program; otherwise the bank is 100 times the first scan |
| FeLabjack.Frontend.EndOfRun | feLabjack.c:234-250 | corrected end_of_run: stops the stream with ErrorCheck of the stop code and keeps the buffers |
| FeLabjack.Frontend.FrontendExit | feLabjack.c:203-217 | frees the live buffers, once |
| LabJackT7.ChannelTableShape | LabJackT7.py:64-73 | CHANNEL_NAMES lists 27 different inputs, three per probe |
| LabJackT7.SliceBound | LabJackT7.py:83 | Python slice bounds: negative counts from the end, then clamped to the length |
| LabJackT7.ChannelNamesOf | LabJackT7.py:83-84 | every selected name comes from CHANNEL_NAMES |
| LabJackT7.ProbeNamesOfProbe | LabJackT7.py:83 | probe k in 1..9 selects its own three table entries |
| LabJackT7.ProbeNamesOutOfRange | LabJackT7.py:83 | entries -8..-1 select probe k+9; 0 and out-of-table entries select nothing |
| LabJackT7.ChannelNamesOfProbes | LabJackT7.py:83-84 | for probes 1 to 9, channel_names has 3·len(channel_list) entries |
| LabJackT7.IndexOf | LabJackT7.py:87 | `list.index`: the first position holding the value |
| LabJackT7.IndexInTable | LabJackT7.py:87 | every table entry is found at its own position |
| LabJackT7.ChannelId | LabJackT7.py:88-90 | every id has four characters |
| LabJackT7.ChannelIdIsFormatted | LabJackT7.py:88-90 | the id of position i is "CH" + str(i//3+1) + "xyz"[i%3] |
| LabJackT7.ChannelIdsOf | LabJackT7.py:85-90 | one id per selected name |
| LabJackT7.ProbeIds | LabJackT7.py:85-90 | probe k's three inputs are named CHkx, CHky, CHkz |
| LabJackT7.ChannelIdsFor | LabJackT7.py:85-90 | the `__init__` id loop computes the ids of every selected name, in order |
| LabJackT7.InsertKeepsSorted | LabJackT7.py:305 | inserting keeps the list strictly sorted and adds exactly the new value |
| LabJackT7.UniqueIsSortedSet | LabJackT7.py:305 | np.unique gives a strictly sorted list of exactly the values given |
| LabJackT7.ProbeDigits | LabJackT7.py:304 | when the parse succeeds it gives one number per header field |
| LabJackT7.RecoverChannels | LabJackT7.py:303-305 | the recovered probe list is strictly sorted |
| LabJackT7.ProbeDigitsOfIds | LabJackT7.py:304 | character 2 of each id written for probes 1 to 9 reads back as its probe, three times per probe |
| LabJackT7.RecoverChannelsInvertsIds | LabJackT7.py:299-306 | from_csv's recovery gives back any increasing list of probes 1 to 9 that named the columns |
| LabJackT7.ColumnAt | LabJackT7.py:215 | row r of column i is flat sample i + r·n, for every such sample |
| LabJackT7.ColumnOnlyAt | LabJackT7.py:215 | a column holds nothing but those samples |
| LabJackT7.EveryElementInItsColumn | LabJackT7.py:215 | flat sample p lands in column p mod n at row p div n |
| LabJackT7.ColumnPlaceUnique | LabJackT7.py:215 | that column and row are the only place sample p lands |
| LabJackT7.ColumnDict | LabJackT7.py:215 | the dict's keys are selected input names, with one value each |
| LabJackT7.DeInterleaveColumns | LabJackT7.py:215-217 | with distinct inputs, frame column j is `data[j::n]` labelled with input j's id |
| LabJackT7.ColumnDictOfDistinct | LabJackT7.py:215 | with distinct inputs the dict maps input j to `data[j::n]`, in order |
| LabJackT7.Collect | LabJackT7.py:203 | every key of all_data has one value |
| LabJackT7.CollectKeepsLastPerKey | LabJackT7.py:171-203 | one entry per distinct start time, no more than the reads made, each the last read at that time |
| LabJackT7.CollectReads | LabJackT7.py:171-203 | the acquisition loop stores the reads as `all_data[str(start_date)] = data` does |
| LabJackT7.Frames | LabJackT7.py:214-221 | one frame per stored read |
| LabJackT7.BuildFrames | LabJackT7.py:214-221 | the processing loop builds the de-interleaved frame of every stored read, in order |
| LabJackT7.LabJackT7.Open | LabJackT7.py:75-99 | an empty list raises, a list selecting no input divides by zero, else an object with the selected names and no data |
| LabJackT7.LabJackT7.constructor | LabJackT7.py:75-99 | channel_names is the selection; ids, n_addresses and max_scan_rate follow from it; no data yet |
| LabJackT7.LabJackT7.Read | LabJackT7.py:134-226 | raises exactly when scan_rate > max_scan_rate, changing nothing; else appends the stored times and their frames to stream_times and data |
| LabJackT7.LabJackT7.Reset | LabJackT7.py:228-233 | data and stream_times are emptied |
| LabJackT7.LabJackT7.ToCsvPlan | LabJackT7.py:235-283 | no data raises; a lone stream is written singly; with several, all are written exactly when idx < 0, stream idx when 0 <= idx < len(data), and a larger idx fails on `stream_times[idx]` |
| T7Readout.RangeShifted | t7_readout.py:32-33 | a shifted range is the range of the shifted bounds |
| T7Readout.MuxPairing | t7_readout.py:32-33 | pChan and nChan have 32 entries and nChan[k] = pChan[k] + 8 |
| T7Readout.PositiveNegativeDisjoint | t7_readout.py:32-33 | no input is both a positive and a negative input |
| T7Readout.PChanDistinct | t7_readout.py:32 | the positive inputs increase strictly |
| T7Readout.ChanNamesOf | t7_readout.py:36-38 | one name per positive input |
| T7Readout.BuildChanNames | t7_readout.py:36-38 | the loop builds "AIN"+p for each p in order |
| T7Readout.ChanNamesDistinct | t7_readout.py:36-41 | numAddresses is 32, and the 32 stream names are different |
| T7Readout.SettingNamesOf | t7_readout.py:49-51 | four setting names per positive input |
| T7Readout.SettingValuesOf | t7_readout.py:52-53 | four setting values per negative input |
| T7Readout.BuildSettings | t7_readout.py:47-53 | the two loops build names from pChan and aValues from nChan |
| T7Readout.SettingNameAt | t7_readout.py:49-51 | names[i] is setting i%4 of positive input i/4 |
| T7Readout.SettingValueAt | t7_readout.py:52-53 | aValues[i] is value i%4 ([n, 10, 0, 0]) of negative input i/4 |
| T7Readout.Written | t7_readout.py:54 | eWriteNames writes numFrames (name, value) pairs |
| T7Readout.NumFramesIsListLength | t7_readout.py:28-29 | both lists hold 128 entries, but numFrames is 96 |
| T7Readout.NegativeNameInjective | t7_readout.py:50 | each input has its own `_NEGATIVE_CH` setting name |
| T7Readout.OnlyFirstSettingIsNegative | t7_readout.py:50-51 | only the first of each group of four settings sets a negative input |
| T7Readout.AsWrittenLastChannelsUnpaired | t7_readout.py:54 | as written, AIN96 to AIN103 never get their negative input written |
| T7Readout.CorrectedEveryChannelPaired | t7_readout.py:54 | with one frame per name, every positive input gets its negative input p + 8 |
| T7Readout.ScansPerReadValue | t7_readout.py:43-44 | scansPerRead = int(1500/2) = 750 |
| T7Readout.Count | t7_readout.py:77 | `data.count(x)` is at most the read's length |
| T7Readout.SkippedScans | t7_readout.py:85-86 | one skipped-scan report per read |
| T7Readout.FirstShort | t7_readout.py:82-83 | the first read too short for `data[j]`, j < 32, where the loop ends in an exception |
| T7Readout.StreamReads | t7_readout.py:66-87 | the while loop performs exactly 50 reads unless a short read raises; it accumulates totScans and totSkip and reports count(-9999)/32 skipped scans per read |
| T7Readout.SkippedWithinScans | t7_readout.py:71-86 | a read never reports more skipped scans than it holds scans |
| T7Readout.TotalSkippedWithinSamples | t7_readout.py:72-78 | totSkip never exceeds the samples read |
| T7Readout.FullReadsScans | t7_readout.py:71-72 | full reads add 750 scans each to totScans |
| T7Readout.FullStreamCompletes | t7_readout.py:66-97 | fifty full reads complete with 37500 scans |
| Histograms.Directory.Register | analyzer/TL2249Histogram.cxx:37 | a new histogram adds its name to the directory |
| Histograms.Directory.Delete | analyzer/TL2249Histogram.cxx:29-32 | deleting removes that name |
| Histograms.HistNameInjective | analyzer/TV1730RawWaveform.cxx:34 | histograms of different indices have different names |
| Histograms.DigitsAfterPrefix | analyzer/TV1730RawWaveform.cxx:34 | after "prefix_" a name holds only digits |
| Histograms.DoubleIndexNeverCreated | analyzer/TV1730RawWaveform.cxx:22-34 | "prefix_0_0" is never one of the names "prefix_i" |
| Histograms.BinCount | analyzer/TV1730RawWaveform.cxx:38 | TH1D has the bins asked for, and one when asked for none |
| Histograms.ZeroBins | analyzer/TV1730RawWaveform.cxx:69-70 | bins lo..hi-1 of histogram h are zero, other histograms untouched |
| Histograms.WriteWaveform | analyzer/TV1730RawWaveform.cxx:77-80 | bin ib+1 of histogram h becomes sample ib less the offset |
| Histograms.ResetHistogram | analyzer/TV1730RawWaveform.cxx:102 | TH1::Reset: every cell of histogram h is zero, others unchanged |
| Histograms.ApplyMeasurements | analyzer/TV1730RawWaveform.cxx:64-85 | the event's update keeps the number and size of the histograms |
| Histograms.UnmeasuredChannelUnchanged | analyzer/TV1730RawWaveform.cxx:64-85 | a channel without a measurement in the event keeps all its bins |
| Histograms.LastMeasurementDecides | analyzer/TV1730RawWaveform.cxx:64-85 | when the cleared range covers the histogram, its bins are the channel's last waveform less the offset, then zeros |
| Histograms.StaleBinKept | analyzer/TV1730RawWaveform.cxx:69-70 | a bin above the cleared range that the new samples do not reach keeps the earlier event's value |
| Histograms.FillAllIsHistory | analyzer/TL2249Histogram.cxx:55-59 | fills accumulate: histogram h holds its earlier fills followed by channel h's values, in event order |
| Histograms.FullReadingsCounted | analyzer/TAgilentHistogram.cxx:53-55 | a channel present in every event gets exactly one fill per event |
| Histograms.ShortReadingsEmpty | analyzer/TL2249Histogram.cxx:55-59 | a channel no event reaches is never filled |
| V1720Peak.Scan | analyzer/TV1720Correlations.cxx:58-69 | the index held is -1 or a sample index |
| V1720Peak.ScanIsFirstMaximum | analyzer/TV1720Correlations.cxx:58-69 | the strict `>` search finds the first maximum: no sample exceeds it and every earlier sample is smaller; with no index every sample is ≤ -1 |
| V1720Peak.FirstMaximumIsFound | analyzer/TV1720Correlations.cxx:58-69 | conversely, the first index of a maximum above -1 is found, at time 4·index |
| V1720Peak.EarlyPeak | analyzer/TV1720Correlations.cxx:74 | the peak time is below 400 ns exactly when the index is below 100 (or none) |
| V1720Peak.FindPeak | analyzer/TAnaManager.cxx:102-110 | the search loop returns the first maximum's time and value |
| V1720Correlations.Filled | analyzer/TV1720Correlations.cxx:53-76 | an event keeps the number of histograms |
| V1720Correlations.TV1720Correlations.constructor | analyzer/TV1720Correlations.cxx:10-38 | not interesting; histograms created unless the guard name exists |
| V1720Correlations.TV1720Correlations.CreateHistograms | analyzer/TV1720Correlations.cxx:10-38 | no change if "V1720_Correlations_0" exists; else 8 empty histograms, which makes later calls no-ops |
| V1720Correlations.TV1720Correlations.UpdateHistograms | analyzer/TV1720Correlations.cxx:41-80 | nothing changes without uncompressed W200; else each channel with samples fills its peak and an early peak sets the flag, never clearing it |
| V1720Correlations.TV1720Correlations.Reset | analyzer/TV1720Correlations.cxx:84-91 | the 8 histograms are emptied, any others kept |
| V1720Correlations.OneFillPerChannel | analyzer/TV1720Correlations.cxx:56-71 | a histogram gains exactly one entry when its channel has samples and none otherwise, earlier entries kept |
| V1720Correlations.InterestingIffEarlyMaximum | analyzer/TV1720Correlations.cxx:74 | an event sets the flag exactly when a channel with samples peaks in its first 100 samples |
| V1730RawWaveform.TV1730RawWaveform.constructor | analyzer/TV1730RawWaveform.cxx:7-13 | 64 samples of 2 ns, then the histograms are created |
| V1730RawWaveform.TV1730RawWaveform.CreateHistograms | analyzer/TV1730RawWaveform.cxx:16-48 | the guard "V1730Raw_0_0" is never created, so each call makes 16 new empty histograms V1730Raw_0..15 of numSamples bins |
| V1730RawWaveform.TV1730RawWaveform.UpdateHistograms | analyzer/TV1730RawWaveform.cxx:53-89 | no V730 bank, no change; else each measurement clears bins 1..numSamples of its channel and writes samples less the offset |
| V1730RawWaveform.TV1730RawWaveform.ResetAsWritten | analyzer/TV1730RawWaveform.cxx:92-105 | as written, index 16 of 256 is out of range; the histograms before it are zero |
| V1730RawWaveform.TV1730RawWaveform.Reset | analyzer/TV1730RawWaveform.cxx:92-105 | corrected: every histogram, and only those, back to zero |
| V1730RawWaveform.TV1730RawWaveform.BeginRun | analyzer/TV1730RawWaveform.cxx:108-112 | exactly CreateHistograms |
| V1730RawWaveform.TV1730RawWaveform.SetNumSamples | analyzer/TV1730RawWaveform.h:23-24 | GetNumSamples returns the value set; nanosecsPerSample and the histograms are unchanged |
| V1730RawWaveform.TV1730RawWaveform.SetNanosecsPerSample | analyzer/TV1730RawWaveform.h:25-26 | GetNsecsPerSample returns the value set; numSamples and the histograms are unchanged |
| V1730DppWaveform.TV1730DppWaveform.constructor | analyzer/TV1730DppWaveform.cxx:8-14 | 64 samples of 2 ns, then the histograms are created |
| V1730DppWaveform.TV1730DppWaveform.CreateHistograms | analyzer/TV1730DppWaveform.cxx:17-46 | the guard "V1730Dpp_0_0" is never created, so each call makes 16 new empty histograms |
| V1730DppWaveform.TV1730DppWaveform.UpdateHistograms | analyzer/TV1730DppWaveform.cxx:51-89 | no V730 bank, no change; else each measurement clears bins 1..numSamples and writes samples less the offset |
| V1730DppWaveform.TV1730DppWaveform.ResetAsWritten | analyzer/TV1730DppWaveform.cxx:92-105 | as written, index 16 of 256 is out of range; the histograms before it are zero |
| V1730DppWaveform.TV1730DppWaveform.Reset | analyzer/TV1730DppWaveform.cxx:92-105 | corrected: every histogram back to zero |
| V1730DppWaveform.TV1730DppWaveform.BeginRun | analyzer/TV1730DppWaveform.cxx:108-112 | exactly CreateHistograms |
| V1730DppWaveform.TV1730DppWaveform.SetNumSamples | analyzer/TV1730DppWaveform.h:23-24 | the getter returns the value set; the other field and the histograms are unchanged |
| V1730DppWaveform.TV1730DppWaveform.SetNanosecsPerSample | analyzer/TV1730DppWaveform.h:25-26 | the getter returns the value set; the other field and the histograms are unchanged |
| DT724Waveform.CDiv | analyzer/TDT724Waveform.cxx:26-27 | C integer division: truncates toward zero |
| DT724Waveform.NumBins | analyzer/TDT724Waveform.cxx:26-27 | 2000/nanosecsPerSample whole samples per waveform, or ROOT's one bin |
| DT724Waveform.DefaultBins | analyzer/TDT724Waveform.cxx:26-27 | with 10 ns samples the histograms have 200 bins |
| DT724Waveform.TDT724Waveform.constructor | analyzer/TDT724Waveform.cxx:8-14 | 10 ns samples, then two 200-bin histograms unless DT724_0 exists |
| DT724Waveform.TDT724Waveform.CreateHistograms | analyzer/TDT724Waveform.cxx:17-48 | no change if "DT724_0" exists, whatever the sample period; else 2 empty histograms DT724_0, DT724_1, after which every call is a no-op |
| DT724Waveform.TDT724Waveform.UpdateHistograms | analyzer/TDT724Waveform.cxx:51-80 | no D724 bank, no change; else each measurement clears all bins of its channel and writes its samples |
| DT724Waveform.NoStaleBins | analyzer/TDT724Waveform.cxx:63-76 | a channel's histogram is exactly its last waveform then zeros; nothing of an earlier event survives |
| DT724Waveform.TDT724Waveform.ResetAsWritten | analyzer/TDT724Waveform.cxx:84-98 | as written, index 2 of 8 is out of range; the histograms before it are zero |
| DT724Waveform.TDT724Waveform.Reset | analyzer/TDT724Waveform.cxx:84-98 | corrected: every histogram back to zero |
| DT724Waveform.TDT724Waveform.BeginRun | analyzer/TDT724Waveform.h:25-27 | exactly CreateHistograms, so after construction it changes nothing |
| DT724Waveform.TDT724Waveform.SetNanosecsPerSample | analyzer/TDT724Waveform.h:16-17 | the getter returns the value set; existing histograms keep their size |
| L2249Histogram.TL2249Histograms.constructor | analyzer/TL2249Histogram.cxx:9-13 | four empty histograms L2249_0_0..3, registered |
| L2249Histogram.TL2249Histograms.CreateHistograms | analyzer/TL2249Histogram.cxx:16-43 | deletes same-named histograms and makes exactly 4 empty ones |
| L2249Histogram.TL2249Histograms.UpdateHistograms | analyzer/TL2249Histogram.cxx:47-60 | measurement i is filled once into histogram i; no bank, no change |
| L2249Histogram.TL2249Histograms.BeginRun | analyzer/TL2249Histogram.cxx:65-70 | the histograms are recreated empty |
| L2249Histogram.RunFillsChannelHistory | analyzer/TL2249Histogram.cxx:55-59 | over a run, histogram i holds measurement i of every event that has one, in event order |
| AgilentHistogram.BankCount | analyzer/TAgilentHistogram.cxx:51-52 | at most one bank per event |
| AgilentHistogram.TAgilentHistograms.constructor | analyzer/TAgilentHistogram.cxx:8-11 | five empty histograms Agilent_0_0..4, registered |
| AgilentHistogram.TAgilentHistograms.CreateHistograms | analyzer/TAgilentHistogram.cxx:14-40 | deletes same-named histograms and makes exactly 5 empty ones |
| AgilentHistogram.TAgilentHistograms.UpdateHistograms | analyzer/TAgilentHistogram.cxx:47-58 | histogram i gets one fill of 100·data[i]; no bank, no change |
| AgilentHistogram.TAgilentHistograms.BeginRun | analyzer/TAgilentHistogram.cxx:63-66 | the histograms are recreated empty, so a previous run's fills are gone |
| AgilentHistogram.HistoryCountsBanks | analyzer/TAgilentHistogram.cxx:51-55 | each channel's history has one entry per event with a BERT bank |
| AgilentHistogram.RunFillsEveryChannel | analyzer/TAgilentHistogram.cxx:53-55 | over a run every histogram holds one entry per BERT event, 100 times its current, in order |
| AnaManager.Rank | analyzer/TAnaManager.cxx:76-86 | each module has one place in the call order |
| AnaManager.EnabledOf | analyzer/TAnaManager.cxx:76-86 | filtering never adds modules |
| AnaManager.EnabledOfFilters | analyzer/TAnaManager.cxx:76-86 | filtering keeps exactly the enabled modules and their order |
| AnaManager.DispatchRespectsOrder | analyzer/TAnaManager.cxx:76-86 | every enabled module and no other is called once per event, in the order V792, V1190, L2249, Agilent, V1720, correlations, V1730 DPP, V1730 raw, DT724 |
| AnaManager.DispatchList | analyzer/TAnaManager.cxx:76-86 | the `if (module)` chain calls exactly the dispatch list |
| AnaManager.AsWrittenFillsUninitialised | analyzer/TAnaManager.cxx:95-116 | as written, a channel without samples fills the comparison with whatever the stack held |
| AnaManager.CompareFill | analyzer/TAnaManager.cxx:95-116 | corrected: a comparison fill happens exactly when channels 0 and 1 both have samples |
| AnaManager.CorrectedAgreesWhenInitialised | analyzer/TAnaManager.cxx:95-116 | where both channels have samples, the corrected fill equals the as-written one for any stack contents |
| AnaManager.ComparePeaks | analyzer/TAnaManager.cxx:97-112 | the two-channel peak loop computes the corrected comparison fill |
| AnaManager.TAnaManager.constructor | analyzer/TAnaManager.cxx:5-69 | each module exists exactly when its build flag is set, fresh and holding what its own constructor makes: empty L2249 and Agilent histograms, V1720 correlation histograms unless their guard name already existed, and fresh waveform arrays, just created unless their guard name already existed; comparison histograms empty |
| AnaManager.BuildAndProcess | analyzer/TAnaManager.cxx:5-120 | a manager built with every module in an empty directory accepts any event its modules can index, and afterwards the counting and correlation histograms hold exactly that event's fills and the comparison histograms its comparison fill |
| AnaManager.TAnaManager.Have | analyzer/TAnaManager.cxx:124-159 | `Have*` is true exactly when the build enabled the module |
| AnaManager.HaveIffCalled | analyzer/TAnaManager.cxx:124-159 | a module is present exactly when ProcessMidasEvent calls it |
| AnaManager.TAnaManager.UpdateCounting | analyzer/TAnaManager.cxx:78-79 | L2249 and Agilent get this event's fills when present, keep their histogram names, and are unchanged when absent |
| AnaManager.TAnaManager.UpdateV1720 | analyzer/TAnaManager.cxx:81 | the correlations module gets this event's fills and flag when present and keeps its histogram names |
| AnaManager.TAnaManager.UpdateDpp | analyzer/TAnaManager.cxx:82 | the V1730 DPP module updated when present |
| AnaManager.TAnaManager.UpdateRaw | analyzer/TAnaManager.cxx:83 | the V1730 raw module updated when present |
| AnaManager.TAnaManager.UpdateDT724 | analyzer/TAnaManager.cxx:86 | the DT724 module updated when present |
| AnaManager.TAnaManager.UpdateWaveforms | analyzer/TAnaManager.cxx:82-86 | the three waveform modules updated in order |
| AnaManager.TAnaManager.UpdateModules | analyzer/TAnaManager.cxx:76-86 | every present module of this model updated, keeping its histogram names; absent ones untouched |
| AnaManager.TAnaManager.FillCompare | analyzer/TAnaManager.cxx:89-117 | corrected fill (Findings): the comparison histograms gain one fill each only with V1720 modules and uncompressed W200 data on both channels |
| AnaManager.TAnaManager.ProcessMidasEvent | analyzer/TAnaManager.cxx:73-120 | calls the present modules in order, each keeping its histogram names, then the corrected comparison fill (Findings); returns 1 |
| Ana.ReadValues | analyzer/ana.cxx:62-65 | exactly the first 15 bank doubles are read |
| Ana.Analyzer.constructor | analyzer/ana.cxx:24-27 | no file open |
| Ana.Analyzer.Initialize | analyzer/ana.cxx:31-33 | the output file is open and empty |
| Ana.Analyzer.EndRun | analyzer/ana.cxx:45-48 | the file is closed, its lines kept |
| Ana.Analyzer.ProcessMidasEvent | analyzer/ana.cxx:51-71 | returns true exactly when LBJK is present; appends that event's line when the file is open, nothing otherwise |
| Ana.LineOf | analyzer/ana.cxx:54-66 | one event writes at most one line |
| Ana.FileOf | analyzer/ana.cxx:51-71 | a run writes at most one line per event |
| Ana.LinesHaveSixteenFields | analyzer/ana.cxx:59-66 | every line has 16 fields, the first being an event's header time stamp, not a bank value |
| Ana.FeLabjackBankWrittenWhole | analyzer/ana.cxx:62-65 | a 15-value bank from feLabjack is written unchanged |
| Ana.FeLabjack02BankTruncated | analyzer/ana.cxx:62-65 | a 31-value feLabjack02 bank loses channels 7 to 14: the line holds the time and the first 7 (mean, std) pairs |

## Left out

- LJM device I/O. This covers opening and closing the device, `LJM_eStreamStart/Read/Stop`, `LJM_NamesToAddresses`, `LJM_eWriteName(s)` and the Python `ljm` module. Their results are parameters, and the backlogs they report are not modelled.
- `HardcodedConfigureStream` in both frontends, because it only writes constants to the device and prints.
- `frontend_loop`, `interrupt_configure`, and the feLabjack02 `begin_of_run`, `end_of_run`, `pause_run` and `resume_run`. None of them changes state the model keeps. feLabjack02's `frontend_exit` stops the stream and closes the device, which are both device calls.
- MIDAS plumbing: `bk_init32`, `bk_create`, `bk_close`, `bk_size`, `db_get_value`, `cm_msg` and the EQUIPMENT tables. A bank is a sequence of reals.
- The ODB strings. `frontend_init` of feLabjack02 reads ScanRate and ScansPerRead, and these are the parameters of `FeLabjack02.Frontend.FrontendInit`.
- FeLabjack02.Frontend.ReadEvent: requires ScansPerRead > 0. With 0 the source divides 0.0 by 0 and banks NaN, which `real` cannot represent.
- FeLabjack.Frontend.FrontendInit, FeLabjack.Frontend.ReadEvent: require live buffers. The use of freed buffers that the source allows is exposed by `FeLabjack.Step`/`FeLabjack.Run` instead.
- `LabJackT7.connect`, `disconnect`, `get_data` and `get_stream_times`. These are device I/O or plain field reads. The reconnect-and-retry path of `read` on error 1224 is a device call too.
- The pandas DataFrame index (`np.arange` times), tqdm, the DEBUG prints and the `datetime`/`getHostTick` timing. A frame is the id list with its columns.
- `to_csv`'s file writing. Only its guards are modelled, in `LabJackT7.LabJackT7.ToCsvPlan`.
- `from_csv` beyond recovering the probe list, which is pandas CSV parsing and file I/O. Its single-stream path cannot run as written. A single-stream file has the line `#` after `# START stream …`, so the header read at LabJackT7.py:302-305 yields no probes. `LabJackT7([])` at LabJackT7.py:309 then raises in `np.concatenate` (LabJackT7.py:84), the empty-list case of `LabJackT7.LabJackT7.Open`. The `.strip()` on a list and the misspelt `steam_times` at LabJackT7.py:328 are never reached.
- LabJackT7.RecoverChannelsInvertsIds: stated for increasing lists of probes 1 to 9. Unsorted or repeated lists come back sorted and unique, as `UniqueIsSortedSet` states.
- LabJackT7.LabJackT7.constructor: requires a selection of at least one input. The failing cases are the results of `LabJackT7.LabJackT7.Open`.
- t7_readout.py's device open and handle print, the timing and rate prints, and the stream stop and close. The exception handlers are modelled only as ending the loop at a short read.
- T7Readout.StreamReads: requires at least 50 reads from the device. A device error inside `eStreamRead` is not modelled.
- `LabJackT7.py` is Python 3 and `t7_readout.py` is Python 2, because `range + range` only works there. The model uses Python 2's floor division in the scan counts.
- The V792, V1190 and V1720 waveform module classes, which are not part of this model. The manager's order, `Have*` and skip-when-absent behaviour cover them through `AnaManager.Rank` and `AnaManager.DispatchRespectsOrder`.
- The `TAnaManager` `Get*` accessors (analyzer/TAnaManager.cxx:161-169), which return the module fields. In the model those fields are public constants of the class.
- The TV1720Correlations header is not part of this model. Its constructor is taken to create the histograms.
- ROOT histogram axes, titles and ranges, TH2D binning, and where ROOT puts a filled value. Counting and correlation histograms are the sequences of values filled into them.
- `TInterestingEventManager` (`iem_t`) reduces to the `interesting` flag. Clearing it between events is the framework's job and is not modelled.
- The text formatting of doubles in `ana.cxx`, and the file name. A line is the time stamp and the values.
- `ana.cxx` `InitManager` is empty, and `BeginRun` does nothing.
- Floating-point rounding: `pow`/`sqrt`, `float offset`, the 100× scaling and `max_scan_rate` are exact `real` arithmetic. The square root is any function that is non-negative on non-negative input with sqrt(0) = 0.
- L2249Histogram.TL2249Histograms.UpdateHistograms: requires at most 4 measurements. More would index past the 4 histograms, which the source does not check.
- AgilentHistogram.TAgilentHistograms.UpdateHistograms: requires a BERT bank of at least 5 doubles. The source reads 5 without checking.
- V1730RawWaveform.TV1730RawWaveform.UpdateHistograms, V1730DppWaveform.TV1730DppWaveform.UpdateHistograms, DT724Waveform.TDT724Waveform.UpdateHistograms: require every measured channel to have a histogram. The source indexes without checking.
- V1720Correlations.TV1720Correlations.UpdateHistograms: requires histograms for the channels with samples. When the guard skipped creation, the source indexes an empty array.
- Ana.Analyzer.ProcessMidasEvent: requires an LBJK bank of at least 15 doubles. The source reads 15 without checking.
- LjmFrontend.ErrorCheck: its behaviour is assumed. LJM_Utilities.h is not part of this model; the model takes `ErrorCheck` to end the program with the code exactly when the code is non-zero.
- Events.ChannelSamples: its behaviour is assumed. `TV1720RawData::GetChannelData` is not part of this model; the model takes a channel the bank does not carry to have no samples.
- FeLabjack02.Frontend.FrontendInit: allocates the corrected `StreamDataSize`, 15·(ScansPerRead + 5) doubles. feLabjack02.c:313 allocates 15·ScansPerRead, and the overrun that follows is stated by `FeLabjack02.AsWrittenBufferTooSmall` (Findings).
- AnaManager.TAnaManager.FillCompare: fills the comparison histograms only when V1720 channels 0 and 1 both have samples. analyzer/TAnaManager.cxx:93-116 fills on every uncompressed W200 event, from uninitialised values when a channel is empty; that behaviour is `AnaManager.AsWrittenFillsUninitialised` (Findings).
- AnaManager.TAnaManager.ProcessMidasEvent: uses the corrected comparison fill of `AnaManager.TAnaManager.FillCompare` above.
- V1720Correlations.TV1720Correlations.Reset: requires the 8 histograms. When the guard skipped creation, analyzer/TV1720Correlations.cxx:88 calls `Reset` through a null histogram pointer, which the model does not represent.
- DT724Waveform.TDT724Waveform.CreateHistograms, DT724Waveform.TDT724Waveform.BeginRun: require a non-zero sample period when "DT724_0" does not exist yet. On that path the source divides 2000 by `nanosecsPerSample`, and an integer division by zero has no value to model.

## Findings

| source | as written | input that shows it | evidently intended | confidence | as-written member | corrected member |
|---|---|---|---|---|---|---|
| feLabjack02.c:313-318 | `streamDataSize = NumAddresses * ScansPerRead`, but the stream starts with `ScansPerRead + 5` scans per read (feLabjack02.c:386) | any ScansPerRead: each `LJM_eStreamRead` writes 75 doubles past the buffer | size the buffer for the scans given to eStreamStart | not executed | FeLabjack02.AsWrittenBufferTooSmall | FeLabjack02.StreamDataSize |
| feLabjack.c:246-247 | `end_of_run` frees `aData`/`aScanList`, and `frontend_exit` (feLabjack.c:209-210) frees them again; `begin_of_run` does not reallocate | init, begin_of_run, read, end_of_run, exit (double free); or a second begin_of_run and read (use after free) | end_of_run stops the stream and keeps the buffers; exit frees once | not executed | FeLabjack.AsWrittenDoubleFree | FeLabjack.CorrectedNeverFaults |
| t7_readout.py:54 | `eWriteNames(handle, numFrames, ...)` with `numFrames = numChannels*3 = 96` (t7_readout.py:29) against 128 names and values | the script itself: AIN96..AIN103 never get `_NEGATIVE_CH` and stay single-ended | write all 128 settings (`numFrames = len(names)`) | not executed | T7Readout.AsWrittenLastChannelsUnpaired | T7Readout.CorrectedEveryChannelPaired |
| analyzer/TV1730RawWaveform.cxx:95-104 | `Reset` visits `iBoard*8+i` for 32 boards, 256 indices, over 16 histograms | any call: `GetHistogram(16)` is out of range | reset each of the 16 histograms | not executed | V1730RawWaveform.TV1730RawWaveform.ResetAsWritten | V1730RawWaveform.TV1730RawWaveform.Reset |
| analyzer/TV1730DppWaveform.cxx:95-104 | the same 256-index loop over 16 histograms | any call: `GetHistogram(16)` is out of range | reset each of the 16 histograms | not executed | V1730DppWaveform.TV1730DppWaveform.ResetAsWritten | V1730DppWaveform.TV1730DppWaveform.Reset |
| analyzer/TDT724Waveform.cxx:87-97 | `Reset` loops over 8 indices, but only 2 histograms exist | any call: `GetHistogram(2)` is out of range | reset each of the 2 histograms | not executed | DT724Waveform.TDT724Waveform.ResetAsWritten | DT724Waveform.TDT724Waveform.Reset |
| analyzer/TAnaManager.cxx:95-116 | a channel with no samples is skipped with `continue`, yet `time[i]`/`ph[i]` are still filled | W200 uncompressed, channel 0 empty, channel 1 = [5.0]: the fill depends on stack contents | fill only when both channels have samples | not executed | AnaManager.AsWrittenFillsUninitialised | AnaManager.CompareFill |

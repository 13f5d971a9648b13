/// The banks of one MIDAS event, as the analyzer modules receive them from
/// `TDataContainer::GetEventData`: a bank that is absent is `None`, and a
/// present bank is already decoded into the values the modules read.
module Events {
  import opened Base

  /// One channel's readout from a V1730 or DT724 digitizer: its channel
  /// number and its samples (`GetNSamples` is their count).
  datatype Measurement = Measurement(channel: int, samples: seq<real>)

  /// The V1720 "W200" bank: whether it is ZLE-compressed, and the samples
  /// of each channel.
  datatype V1720Data = V1720Data(zleCompressed: bool, channels: seq<seq<real>>)

  /// `GetChannelData(i)`: a channel the bank does not carry has no samples.
  function ChannelSamples(d: V1720Data, i: nat): (s: seq<real>)
    ensures i < |d.channels| ==> s == d.channels[i]
    ensures i >= |d.channels| ==> s == []
  {
    if i < |d.channels| then d.channels[i] else []
  }

  datatype Event = Event(
    /// The MIDAS header time stamp, in seconds.
    timestamp: int,
    w200: Option<V1720Data>,
    /// The "V730" bank decoded as raw waveforms (`TV1730RawData`). Both
    /// V1730 modules look up the same bank, so in a real event this and
    /// `v730Dpp` are present together; they are kept apart because each
    /// module decodes the bank its own way, and no statement of the model
    /// relates the two decodings.
    v730Raw: Option<seq<Measurement>>,
    /// The "V730" bank decoded with the DPP encoding (`TV1730DppData`).
    v730Dpp: Option<seq<Measurement>>,
    /// The "D724" bank.
    d724: Option<seq<Measurement>>,
    /// The "ADC0" bank: the L2249 measurements in bank order.
    adc0: Option<seq<real>>,
    /// The "BERT" bank read as doubles: the Agilent currents.
    bert: Option<seq<real>>,
    /// The "LBJK" bank read as doubles.
    lbjk: Option<seq<real>>)
}

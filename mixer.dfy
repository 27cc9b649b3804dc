/**
 * What the bridge exchanges with the mixing application: the requests it
 * issues (logged, never executed), the answers it is given, and the state
 * change events the mixer pushes.  Floating-point quantities arrive already
 * converted to the integers the bridge stores.
 */
module Mixer {
  import opened Sources

  /** The mixer's monitor types: NONE, MONITOR_ONLY and MONITOR_AND_OUTPUT. */
  datatype Monitoring = MonitorNone | MonitorOnly | MonitorAndOutput

  datatype Request =
    | SetInputAudioTracks(uuid: string, track2: bool)
    | SetInputAudioMonitorType(uuid: string, monitoring: Monitoring)
    | SetInputMute(uuid: string, muted: bool)
      /** Balance in tenths; the mixer receives it divided by 10. */
    | SetInputAudioBalance(uuid: string, tenths: int)
      /** Fader position 0..127; the mixer receives its cube-law gain (fire-and-forget). */
    | SetInputVolume(uuid: string, position: int)
    | GetInputList
    | GetInputAudioMonitorType(uuid: string)
    | GetInputMute(uuid: string)
    | GetInputAudioBalance(uuid: string)
    | GetInputVolume(uuid: string)
    | GetInputAudioTracks(uuid: string)
      /** Requests sent together, without halting on a failure. */
    | Batch(requests: seq<Request>)

  /** The probe issued for each candidate of a refresh, in input order. */
  function ProbeRequests(inputs: seq<Entry>): (r: seq<Request>)
    ensures |r| == |inputs|
    ensures forall i :: 0 <= i < |inputs| ==> r[i] == GetInputAudioMonitorType(inputs[i].id)
  {
    seq(|inputs|, i requires 0 <= i < |inputs| => GetInputAudioMonitorType(inputs[i].id))
  }

  /** One more input adds its probe at the end. */
  lemma ProbeStep(inputs: seq<Entry>, e: Entry)
    ensures ProbeRequests(inputs + [e]) == ProbeRequests(inputs) + [GetInputAudioMonitorType(e.id)]
  {
    assert ProbeRequests(inputs + [e])[..|inputs|] == ProbeRequests(inputs);
  }

  /** The five values read for a newly assigned source, already converted. */
  datatype SourceReport = SourceReport(
    monitoring: Monitoring,
    muted: bool,
    /** balance fraction times ten */
    balance: int,
    /** volume mapped to fader position */
    position: int,
    track2: bool)

  /** Everything a select press may wait for: the input list, one probe result per input, and the report. */
  datatype Replies = Replies(inputs: seq<Entry>, probes: seq<bool>, report: SourceReport)

  /** A state-change event pushed by the mixer, keyed by source id. */
  datatype MixerEvent =
    | VolumeChanged(uuid: string, position: int)
    | MuteChanged(uuid: string, muted: bool)
    | TracksChanged(uuid: string, track2: bool)
    | BalanceChanged(uuid: string, tenths: int)
    | MonitorChanged(uuid: string, monitoring: Monitoring)
}

/**
 * `eject_drive_api`: sets the transient state to `ejecting`, calls the eject
 * capability of the core DLL on the volume path, and reconciles the boolean result
 * into both stores.
 */
module Eject {
  import opened Wrappers
  import opened Registry

  /** What one call of `EjectVolumeByPath` did: it returned a boolean, or it raised. */
  datatype CallOutcome = Returned(ok: bool) | Raised

  /** The DLL as loaded at import time: missing, or a callable from a volume path to an outcome. */
  datatype EjectCapability = DllMissing | DllLoaded(call: string -> CallOutcome)

  /** The prefix `\\.\` of a Win32 device path. */
  const DevicePrefix: string := "\\\\.\\"

  /** The device path handed to the DLL: `\\.\` followed by the drive letter. */
  function VolumePath(drive: string): (p: string)
    ensures |p| == |drive| + 4
    ensures p[..4] == ['\\', '\\', '.', '\\'] && p[4..] == drive
  {
    DevicePrefix + drive
  }

  /** The success flag: only a call that returns true succeeds; a missing DLL or an exception is a failure. */
  function Succeeded(cap: EjectCapability, path: string): (ok: bool)
    ensures ok <==> cap.DllLoaded? && cap.call(path) == Returned(true)
  {
    match cap
    case DllMissing => false
    case DllLoaded(call) => call(path) == Returned(true)
  }

  /** The outcome label written to both stores. */
  function OutcomeState(success: bool): (s: State)
    ensures s == Ejected || s == FailedEjectDll
    ensures s == Ejected <==> success
  {
    if success then Ejected else FailedEjectDll
  }

  /** The record after an eject attempt: the outcome, the time, and one eject counter. */
  function RecordEjectOutcome(r: DeviceRecord, success: bool, now: Stamp): (r': DeviceRecord)
    ensures r'.lastState == Some(OutcomeState(success)) && r'.lastSeen == Some(now)
    ensures success ==> Count(r'.totalEjectSuccess) == Count(r.totalEjectSuccess) + 1
                        && r'.totalEjectFailure == r.totalEjectFailure
    ensures !success ==> Count(r'.totalEjectFailure) == Count(r.totalEjectFailure) + 1
                         && r'.totalEjectSuccess == r.totalEjectSuccess
    ensures r'.(lastState := r.lastState, lastSeen := r.lastSeen,
                totalEjectSuccess := r.totalEjectSuccess, totalEjectFailure := r.totalEjectFailure) == r
  {
    var r1 := r.(lastState := Some(OutcomeState(success)), lastSeen := Some(now));
    if success then r1.(totalEjectSuccess := Some(Count(r.totalEjectSuccess) + 1))
    else r1.(totalEjectFailure := Some(Count(r.totalEjectFailure) + 1))
  }

  /** The summary after an eject attempt: the record is updated if there is one, else nothing changes. */
  function SummaryAfterEject(summary: map<DeviceId, DeviceRecord>, id: DeviceId, success: bool, now: Stamp)
    : (s: map<DeviceId, DeviceRecord>)
    ensures s.Keys == summary.Keys
    ensures forall other :: other in summary && other != id ==> s[other] == summary[other]
    ensures id in summary ==> s[id] == RecordEjectOutcome(summary[id], success, now)
  {
    if id in summary then summary[id := RecordEjectOutcome(summary[id], success, now)] else summary
  }

  /**
   * `eject_drive_api(drive_letter, device_id, unique_devices_summary, processed_volumes)`.
   * `now` is the timestamp taken after the call.
   */
  method EjectDriveApi(drive: string, id: DeviceId, st: Stores, cap: EjectCapability, now: Stamp)
    returns (success: bool)
    modifies st
    ensures success == Succeeded(cap, VolumePath(drive))
    ensures st.trail == old(st.trail) + [(id, Ejecting), (id, OutcomeState(success))]
    ensures st.processed == old(st.processed)[id := OutcomeState(success)]
    ensures st.summary == SummaryAfterEject(old(st.summary), id, success, now)
    ensures st.saves == old(st.saves)
  {
    st.SetTransient(id, Ejecting);
    var volumePath := VolumePath(drive);
    success := false;
    match cap {
      case DllLoaded(call) =>
        match call(volumePath) {
          case Returned(ok) => success := ok;
          case Raised =>
        }
      case DllMissing =>
    }
    var outcome := OutcomeState(success);
    if id in st.summary {
      var entry := st.summary[id];
      entry := entry.(lastState := Some(outcome), lastSeen := Some(now));
      if success {
        entry := entry.(totalEjectSuccess := Some(Count(entry.totalEjectSuccess) + 1));
      } else {
        entry := entry.(totalEjectFailure := Some(Count(entry.totalEjectFailure) + 1));
      }
      st.summary := st.summary[id := entry];
    }
    st.SetTransient(id, outcome);
  }
}

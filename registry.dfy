/**
 * The two in-memory stores of the USB logger and the values they hold:
 * `processed_volumes` (device id to transient state label) and
 * `unique_devices_summary` (device id to the device's summary record).
 */
module Registry {
  import opened Wrappers

  /** The volume identifier reported by the OS; the key of both stores. */
  type DeviceId = string

  /** A timestamp produced by `datetime.now().isoformat()`: opaque, never empty. */
  type Stamp = s: string | s != "" witness "0"

  /** The state labels written to `processed_volumes` and to a record's `last_state`. */
  datatype State =
    | Checking
    | Removed
    | Allowed
    | FailedAuth
    | AccessError
    | Ejecting
    | Ejected
    | FailedEjectDll
  {
    /** The label as the program writes it. */
    function Label(): string {
      match this
      case Checking => "checking"
      case Removed => "removed"
      case Allowed => "allowed"
      case FailedAuth => "failed_auth"
      case AccessError => "access_error"
      case Ejecting => "ejecting"
      case Ejected => "ejected"
      case FailedEjectDll => "failed_eject_dll"
    }
  }

  /** The `auth_reason` strings; the exception-type suffixes are opaque. */
  datatype Reason =
    | PendingCheck
    | Ok
    | ContentMismatch
    | FileNotFound
    | FileReadError(errorKind: string)
    | DriveAccessError(errorKind: string)
  {
    function Text(): (t: string)
      ensures FileReadError? ==> |t| == |errorKind| + 18
      ensures FileReadError? ==> t[..17] == "File Read Error (" && t[17..|t| - 1] == errorKind
      ensures DriveAccessError? ==> |t| == |errorKind| + 21
      ensures DriveAccessError? ==> t[..20] == "Drive Access Error (" && t[20..|t| - 1] == errorKind
    {
      match this
      case PendingCheck => "Pending Check"
      case Ok => "OK"
      case ContentMismatch => "Content Mismatch"
      case FileNotFound => "File Not Found"
      case FileReadError(k) => "File Read Error (" + k + ")"
      case DriveAccessError(k) => "Drive Access Error (" + k + ")"
    }
  }

  /** Distinct states are written as distinct labels, so a stored label names one state. */
  lemma LabelInjective(a: State, b: State)
    ensures a.Label() == b.Label() <==> a == b
  {
  }

  /** Distinct reasons are written as distinct texts; the exception type is recoverable from its text. */
  lemma TextInjective(a: Reason, b: Reason)
    ensures a.Text() == b.Text() <==> a == b
  {
    // The two parametric texts differ from each other at their first character, and
    // "File Read Error (" differs from "File Not Found" at its sixth.
    if a.FileReadError? {
      assert a.Text()[0] == 'F' && a.Text()[5] == 'R';
    } else if a.DriveAccessError? {
      assert a.Text()[0] == 'D';
    }
    if b.FileReadError? {
      assert b.Text()[0] == 'F' && b.Text()[5] == 'R';
    } else if b.DriveAccessError? {
      assert b.Text()[0] == 'D';
    }
  }

  /** `volume_details`: the empty dictionary, or what the volume query returned. */
  datatype Volume =
    | NoDetails
    | Details(volumeName: Option<string>, fileSystem: Option<string>,
              size: Option<string>, freeSpace: Option<string>)

  /** The metadata recorded for one root entry whose stat succeeded. */
  datatype FileInfo = FileInfo(size: nat, created: string, modified: string, accessed: string, isDir: bool)

  /** A value of the `files_enumeration` dictionary. */
  datatype EnumValue =
    | Entry(info: FileInfo)
    | EntryError(message: string)
    | TruncatedFlag

  /** The key under which the truncation marker `True` is stored. */
  const TruncatedKey: string := "_truncated_"

  /** `extra_data`: the enumeration map and the scan-level error, each possibly missing. */
  datatype ExtraData = ExtraData(filesEnumeration: Option<map<string, EnumValue>>,
                                 enumerationError: Option<string>)

  /**
   * One entry of `unique_devices_summary`. Every field is optional because a record
   * read back from the summary file may lack any key; `None` is a missing key.
   */
  datatype DeviceRecord = DeviceRecord(
    firstSeen: Option<string>,
    lastSeen: Option<string>,
    lastDriveLetter: Option<string>,
    lastState: Option<State>,
    arrivalCount: Option<nat>,
    totalAuthSuccess: Option<nat>,
    totalAuthFailure: Option<nat>,
    totalEjectSuccess: Option<nat>,
    totalEjectFailure: Option<nat>,
    authReason: Option<Reason>,
    volumeDetails: Option<Volume>,
    extraData: Option<ExtraData>)

  /** The `{}` that `setdefault` inserts for a device seen for the first time. */
  const EmptyRecord: DeviceRecord :=
    DeviceRecord(None, None, None, None, None, None, None, None, None, None, None, None)

  /** A counter read with `entry.get(key, 0)`. */
  function Count(c: Option<nat>): nat {
    c.GetOr(0)
  }

  /** `not entry.get('first_seen')`: the key is missing or holds the empty string. */
  predicate IsFirstRecord(r: DeviceRecord) {
    r.firstSeen == None || r.firstSeen == Some("")
  }

  /** `d.get(key)` on a store. */
  function Find<V>(m: map<DeviceId, V>, id: DeviceId): Option<V> {
    if id in m then Some(m[id]) else None
  }

  /** One write to `processed_volumes`. */
  type Write = (DeviceId, State)

  /** The two stores as values. */
  datatype Tables = Tables(processed: map<DeviceId, State>, summary: map<DeviceId, DeviceRecord>)

  /**
   * What one handler does: the stores afterwards, the writes it made to
   * `processed_volumes` in order, and whether it called `save_summary`.
   */
  datatype Outcome = Outcome(tables: Tables, trail: seq<Write>, saved: bool)

  /** An outcome that changes nothing. */
  function Unchanged(t: Tables): Outcome {
    Outcome(t, [], false)
  }

  /**
   * The module-level dictionaries `processed_volumes` and `unique_devices_summary`.
   * `trail` records every write to `processed_volumes`; `saves` records the summary
   * handed to each `save_summary` call.
   */
  class Stores {
    var processed: map<DeviceId, State>
    var summary: map<DeviceId, DeviceRecord>
    ghost var trail: seq<Write>
    ghost var saves: seq<map<DeviceId, DeviceRecord>>

    constructor ()
      ensures processed == map[] && summary == map[]
      ensures trail == [] && saves == []
    {
      processed := map[];
      summary := map[];
      trail := [];
      saves := [];
    }

    /** The stores, as values. */
    function Snapshot(): Tables
      reads this
    {
      Tables(processed, summary)
    }

    /** The stores and logs show outcome `o` applied after logs `trail0` and `saves0`. */
    ghost predicate Applied(o: Outcome, trail0: seq<Write>, saves0: seq<map<DeviceId, DeviceRecord>>)
      reads this
    {
      && processed == o.tables.processed
      && summary == o.tables.summary
      && trail == trail0 + o.trail
      && saves == saves0 + (if o.saved then [summary] else [])
    }

    /** `processed_volumes[id] = s`. */
    method SetTransient(id: DeviceId, s: State)
      modifies this
      ensures processed == old(processed)[id := s]
      ensures trail == old(trail) + [(id, s)]
      ensures summary == old(summary) && saves == old(saves)
    {
      processed := processed[id := s];
      trail := trail + [(id, s)];
    }

    /** `save_summary(unique_devices_summary)`: the file write is abstracted to a log entry. */
    method SaveSummary()
      modifies this
      ensures saves == old(saves) + [summary]
      ensures processed == old(processed) && summary == old(summary) && trail == old(trail)
    {
      saves := saves + [summary];
    }
  }
}

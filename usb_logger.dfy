/**
 * The dispatcher and the two handlers of `usb_logger_win.py`: `handle_usb_arrival`,
 * `handle_usb_removal` and the dispatch branch of `main`. Every effect of the
 * outside world (the mount delay and the presence probe, the volume query, the
 * token file, the root listing, the eject DLL, the clock) is an oracle argument.
 *
 * Each handler is a method on the stores, and the effect function beside it says
 * what the stores hold afterwards; lifecycle.dfy proves the handlers' rules from them.
 */
module UsbLogger {
  import opened Wrappers
  import opened Registry
  import opened Authorization
  import opened Enumeration
  import opened Eject

  /** `ENUM_LEVEL`, already validated to `none` or `root`. */
  datatype EnumLevel = NoEnumeration | RootLevel

  /** The configuration the handlers read: `ENUM_LEVEL`, `MAX_ROOT`, `EXPECTED_KEY`. */
  datatype Config = Config(enumLevel: EnumLevel, maxRoot: int, expectedKey: string)

  /** The three clock readings one arrival takes: on arrival, after the eject call, at the end. */
  datatype Times = Times(arrive: Stamp, eject: Stamp, final: Stamp)

  /**
   * What the world does while one arrival is handled:
   * `present`: the drive root still exists after the mount delay;
   * `volume`: what the volume query returned;
   * `accessFault`: an `OSError` (of the given type) raised anywhere in the `try` block of the check,
   *   placed at the block's start, before any of its writes;
   * `token`, `listing`, `eject`: the token file, the root listing and the eject DLL.
   */
  datatype ArrivalEnv = ArrivalEnv(
    present: bool,
    volume: Volume,
    accessFault: Option<string>,
    token: TokenFile,
    listing: Listing,
    eject: EjectCapability,
    times: Times)

  /** A queue entry: `('arrival', drive_letter, device_id)` or `('removal', device_id)`. */
  datatype Event =
    | Arrival(drive: string, id: DeviceId, env: ArrivalEnv)
    | Removal(id: DeviceId, now: Stamp)

  // ---------------------------------------------------------------------------
  // The record updates of the handlers

  /** The re-entrancy guard: the transient states under which an arrival is processed. */
  predicate AcceptsArrival(current: Option<State>) {
    current.None? || !(current.value == Checking || current.value == Ejecting)
  }

  /** `extra_data.setdefault('files_enumeration', {})` on a possibly missing `extra_data`. */
  function WithFilesSlot(x: Option<ExtraData>): (y: ExtraData)
    ensures y.filesEnumeration == Some(if x.Some? && x.value.filesEnumeration.Some? then x.value.filesEnumeration.value else map[])
    ensures x.Some? && x.value.filesEnumeration.Some? ==> y == x.value
    ensures y.enumerationError == if x.Some? then x.value.enumerationError else None
  {
    var d := x.GetOr(ExtraData(None, None));
    d.(filesEnumeration := Some(d.filesEnumeration.GetOr(map[])))
  }

  /** The arrival bookkeeping: `setdefault` of the record and of its counters and fields. */
  function RecordArrival(r0: Option<DeviceRecord>, drive: string, now: Stamp, level: EnumLevel): (r: DeviceRecord)
    ensures var prev := r0.GetOr(EmptyRecord);
      && r.arrivalCount == Some(if IsFirstRecord(prev) then 1 else Count(prev.arrivalCount) + 1)
      && r.firstSeen == (if IsFirstRecord(prev) then Some(now) else prev.firstSeen)
      && !IsFirstRecord(r)
      && r.lastSeen == Some(now) && r.lastDriveLetter == Some(drive) && r.lastState == Some(Checking)
      && r.totalAuthSuccess == Some(Count(prev.totalAuthSuccess))
      && r.totalAuthFailure == Some(Count(prev.totalAuthFailure))
      && r.totalEjectSuccess == Some(Count(prev.totalEjectSuccess))
      && r.totalEjectFailure == Some(Count(prev.totalEjectFailure))
      && r.authReason == Some(prev.authReason.GetOr(PendingCheck))
      && r.volumeDetails == Some(prev.volumeDetails.GetOr(NoDetails))
      && (level == NoEnumeration ==> r.extraData == prev.extraData)
      && (level == RootLevel ==> r.extraData == Some(WithFilesSlot(prev.extraData)))
  {
    var r := r0.GetOr(EmptyRecord);
    var r1 := if IsFirstRecord(r) then r.(firstSeen := Some(now), arrivalCount := Some(1))
              else r.(arrivalCount := Some(Count(r.arrivalCount) + 1));
    var r2 := r1.(lastSeen := Some(now), lastDriveLetter := Some(drive), lastState := Some(Checking),
                  totalAuthSuccess := Some(Count(r1.totalAuthSuccess)),
                  totalAuthFailure := Some(Count(r1.totalAuthFailure)),
                  totalEjectSuccess := Some(Count(r1.totalEjectSuccess)),
                  totalEjectFailure := Some(Count(r1.totalEjectFailure)),
                  authReason := Some(r1.authReason.GetOr(PendingCheck)),
                  volumeDetails := Some(r1.volumeDetails.GetOr(NoDetails)));
    if level == NoEnumeration then r2 else r2.(extraData := Some(WithFilesSlot(r2.extraData)))
  }

  /** A record marked `removed` (the drive vanished during the delay, or a removal arrived). */
  function MarkRemoved(r: DeviceRecord, now: Stamp): (r': DeviceRecord)
    ensures r'.lastState == Some(Removed) && r'.lastSeen == Some(now)
    ensures r'.(lastState := r.lastState, lastSeen := r.lastSeen) == r
  {
    r.(lastState := Some(Removed), lastSeen := Some(now))
  }

  /** The volume details are stored only when the query returned something. */
  function WithVolume(r: DeviceRecord, v: Volume): (r': DeviceRecord)
    ensures r'.volumeDetails == if v.Details? then Some(v) else r.volumeDetails
    ensures r'.(volumeDetails := r.volumeDetails) == r
  {
    if v.Details? then r.(volumeDetails := Some(v)) else r
  }

  /** The enumeration replaces `files_enumeration`; a scan error overwrites the old one, if any. */
  function WithEnumeration(r: DeviceRecord, e: Enumerated): (r': DeviceRecord)
    ensures r'.extraData.Some? && r'.extraData.value.filesEnumeration == Some(e.files)
    ensures r'.extraData.value.enumerationError
            == if e.scanError.Some? then e.scanError else WithFilesSlot(r.extraData).enumerationError
    ensures r'.(extraData := r.extraData) == r
  {
    var d := WithFilesSlot(r.extraData);
    r.(extraData := Some(ExtraData(Some(e.files), if e.scanError.Some? then e.scanError else d.enumerationError)))
  }

  /** The final update: the state unless an eject set it, the time, and at most one auth counter. */
  function Finalize(r: DeviceRecord, final: State, now: Stamp): (r': DeviceRecord)
    ensures r'.lastState == if (final == Ejecting || final == Ejected || final == FailedEjectDll) then r.lastState else Some(final)
    ensures r'.lastSeen == Some(now)
    ensures r'.totalAuthSuccess == if final == Allowed then Some(Count(r.totalAuthSuccess) + 1) else r.totalAuthSuccess
    ensures r'.totalAuthFailure
            == if (final == FailedAuth || final == AccessError) then Some(Count(r.totalAuthFailure) + 1) else r.totalAuthFailure
    ensures r'.(lastState := r.lastState, lastSeen := r.lastSeen,
                totalAuthSuccess := r.totalAuthSuccess, totalAuthFailure := r.totalAuthFailure) == r
  {
    var r1 := r.(lastState := if (final == Ejecting || final == Ejected || final == FailedEjectDll) then r.lastState else Some(final),
                 lastSeen := Some(now));
    if final == Allowed then r1.(totalAuthSuccess := Some(Count(r.totalAuthSuccess) + 1))
    else if (final == FailedAuth || final == AccessError) then r1.(totalAuthFailure := Some(Count(r.totalAuthFailure) + 1))
    else r1
  }

  // ---------------------------------------------------------------------------
  // Effect functions

  /**
   * The way an admitted arrival ends, as the branches of `handle_usb_arrival` decide it:
   * the drive vanished during the mount delay, the probe raised an `OSError`, the token
   * check passed, or it failed and the eject was attempted (with its outcome).
   */
  datatype Path = Vanished | Faulted(errorKind: string) | Authorized | Rejected(ejected: bool)

  /** The path an admitted arrival takes in world `env`. */
  function Decide(cfg: Config, drive: string, env: ArrivalEnv): Path {
    if !env.present then Vanished
    else match env.accessFault
      case Some(kind) => Faulted(kind)
      case None => Verdict(cfg.expectedKey, drive, env)
  }

  /** The token check's decision, and the eject's outcome when it fails. */
  function Verdict(expected: string, drive: string, env: ArrivalEnv): Path {
    if Classify(env.token, expected).authorized then Authorized
    else Rejected(Succeeded(env.eject, VolumePath(drive)))
  }

  /** The writes to `processed_volumes` after `checking`, along path `p`. */
  function Writes(id: DeviceId, p: Path): seq<Write> {
    match p
    case Vanished => [(id, Removed)]
    case Faulted(_) => [(id, AccessError)]
    case Authorized => [(id, Allowed)]
    case Rejected(ejected) => [(id, FailedAuth), (id, Ejecting), (id, OutcomeState(ejected))]
  }

  /** The state path `p` leaves in `processed_volumes`. */
  function Rest(p: Path): State {
    match p
    case Vanished => Removed
    case Faulted(_) => AccessError
    case Authorized => Allowed
    case Rejected(ejected) => OutcomeState(ejected)
  }

  /** The record after the token check and, at level `root`, the enumeration. */
  function CheckedRecord(r: DeviceRecord, cfg: Config, env: ArrivalEnv): DeviceRecord {
    var r3 := r.(authReason := Some(Classify(env.token, cfg.expectedKey).reason));
    if cfg.enumLevel == RootLevel then WithEnumeration(r3, Enumerate(env.listing, cfg.maxRoot)) else r3
  }

  /** From the checked record `c`: the eject's record update when rejected, then the final update. */
  function Close(c: DeviceRecord, env: ArrivalEnv, p: Path): DeviceRecord {
    match p
    case Rejected(ejected) =>
      Finalize(RecordEjectOutcome(c, ejected, env.times.eject), OutcomeState(ejected), env.times.final)
    case _ => Finalize(c, Allowed, env.times.final)
  }

  /** The record path `p` makes of the bookkept record `r`. */
  function Settle(r: DeviceRecord, cfg: Config, env: ArrivalEnv, p: Path): DeviceRecord {
    match p
    case Vanished => MarkRemoved(r, env.times.final)
    case Faulted(kind) =>
      Finalize(WithVolume(r, env.volume).(authReason := Some(DriveAccessError(kind))), AccessError, env.times.final)
    case _ => Close(CheckedRecord(WithVolume(r, env.volume), cfg, env), env, p)
  }

  /** What `handle_usb_arrival(drive, id)` does to the stores. */
  function ArrivalEffect(t: Tables, cfg: Config, stopped: bool, drive: string, id: DeviceId, env: ArrivalEnv): Outcome {
    if stopped || !AcceptsArrival(Find(t.processed, id)) then Unchanged(t)
    else
      var r1 := RecordArrival(Find(t.summary, id), drive, env.times.arrive, cfg.enumLevel);
      var o := CheckEffect(Tables(t.processed[id := Checking], t.summary[id := r1]), cfg, drive, id, env);
      Outcome(o.tables, [(id, Checking)] + o.trail, o.saved)
  }

  /** The arrival from the mount delay on, once `id` is `checking` and its record bookkept. */
  function CheckEffect(t: Tables, cfg: Config, drive: string, id: DeviceId, env: ArrivalEnv): Outcome
    requires id in t.summary
  {
    var p := Decide(cfg, drive, env);
    Outcome(Tables(t.processed[id := Rest(p)], t.summary[id := Settle(t.summary[id], cfg, env, p)]),
            Writes(id, p), p != Vanished)
  }

  /** From the token check's decision on, with the checked record `c`. */
  function FinishEffect(t: Tables, drive: string, id: DeviceId, c: DeviceRecord, authorized: bool, env: ArrivalEnv): Outcome {
    var p := if authorized then Authorized else Rejected(Succeeded(env.eject, VolumePath(drive)));
    Outcome(Tables(t.processed[id := Rest(p)], t.summary[id := Close(c, env, p)]), Writes(id, p), true)
  }

  /** What `handle_usb_removal(id)` does to the stores. */
  function RemovalEffect(t: Tables, stopped: bool, id: DeviceId, now: Stamp): (o: Outcome)
    ensures !stopped ==> o.tables.processed == t.processed[id := Removed] && o.trail == [(id, Removed)]
    ensures !stopped ==> (o.saved <==> id in t.summary)
    ensures !stopped && id in t.summary ==> o.tables.summary == t.summary[id := MarkRemoved(t.summary[id], now)]
    ensures stopped || id !in t.summary ==> o.tables.summary == t.summary
  {
    if stopped then Unchanged(t)
    else
      Outcome(Tables(t.processed[id := Removed],
                     if id in t.summary then t.summary[id := MarkRemoved(t.summary[id], now)] else t.summary),
              [(id, Removed)], id in t.summary)
  }

  // ---------------------------------------------------------------------------
  // The handlers

  /** `handle_usb_arrival(drive_letter, device_id)`; `stopped` is the stop event's flag. */
  method HandleUsbArrival(st: Stores, cfg: Config, stopped: bool, drive: string, id: DeviceId, env: ArrivalEnv)
    modifies st
    ensures st.Applied(ArrivalEffect(old(st.Snapshot()), cfg, stopped, drive, id, env), old(st.trail), old(st.saves))
  {
    if stopped {
      return;
    }
    var current := Find(st.processed, id);
    if !AcceptsArrival(current) {
      return;
    }
    ghost var trail0 := st.trail;
    st.SetTransient(id, Checking);
    var entry := RecordArrival(Find(st.summary, id), drive, env.times.arrive, cfg.enumLevel);
    st.summary := st.summary[id := entry];
    CheckDevice(st, cfg, drive, id, env);
    assert st.trail == trail0 + ([(id, Checking)] + (st.trail[|trail0| + 1..]));
  }

  /** The mount-still-present check and what follows it. */
  method CheckDevice(st: Stores, cfg: Config, drive: string, id: DeviceId, env: ArrivalEnv)
    requires id in st.summary
    modifies st
    ensures st.Applied(CheckEffect(old(st.Snapshot()), cfg, drive, id, env), old(st.trail), old(st.saves))
  {
    if !env.present {
      st.SetTransient(id, Removed);
      st.summary := st.summary[id := MarkRemoved(st.summary[id], env.times.final)];
      return;
    }
    var entry := WithVolume(st.summary[id], env.volume);
    match env.accessFault {
      case Some(kind) =>
        st.SetTransient(id, AccessError);
        var finalState := AccessError;
        entry := entry.(authReason := Some(DriveAccessError(kind)));
        st.summary := st.summary[id := Finalize(entry, finalState, env.times.final)];
        st.SaveSummary();
      case None =>
        AuthorizeDevice(st, cfg, drive, id, entry, env);
    }
  }

  /** The token-file check and the optional enumeration, then the rest of the arrival. */
  method AuthorizeDevice(st: Stores, cfg: Config, drive: string, id: DeviceId, entry: DeviceRecord, env: ArrivalEnv)
    modifies st
    ensures st.Applied(FinishEffect(old(st.Snapshot()), drive, id, CheckedRecord(entry, cfg, env),
                                    Classify(env.token, cfg.expectedKey).authorized, env), old(st.trail), old(st.saves))
  {
    var auth := Classify(env.token, cfg.expectedKey);
    var record := entry.(authReason := Some(auth.reason));
    if cfg.enumLevel == RootLevel {
      var files, scanError := EnumerateRoot(env.listing, cfg.maxRoot);
      record := WithEnumeration(record, Enumerated(files, scanError));
    }
    FinishArrival(st, drive, id, record, auth.authorized, env);
  }

  /**
   * The transient decision, the eject attempt when not authorized, and the final update.
   * (The code writes the decision before it enumerates; enumeration touches only the record.)
   */
  method FinishArrival(st: Stores, drive: string, id: DeviceId, record: DeviceRecord, authorized: bool, env: ArrivalEnv)
    modifies st
    ensures st.Applied(FinishEffect(old(st.Snapshot()), drive, id, record, authorized, env), old(st.trail), old(st.saves))
  {
    if authorized {
      st.SetTransient(id, Allowed);
      st.summary := st.summary[id := record];
    } else {
      RejectDevice(st, drive, id, record, env);
    }
    FinalUpdate(st, id, env.times.final);
  }

  /** A failed token check: the `failed_auth` write, then the eject attempt on the record. */
  method RejectDevice(st: Stores, drive: string, id: DeviceId, record: DeviceRecord, env: ArrivalEnv)
    modifies st
    ensures var success := Succeeded(env.eject, VolumePath(drive));
      && st.processed == old(st.processed)[id := OutcomeState(success)]
      && st.summary == old(st.summary)[id := RecordEjectOutcome(record, success, env.times.eject)]
      && st.trail == old(st.trail) + [(id, FailedAuth), (id, Ejecting), (id, OutcomeState(success))]
      && st.saves == old(st.saves)
  {
    st.SetTransient(id, FailedAuth);
    st.summary := st.summary[id := record];
    var success := EjectDriveApi(drive, id, st, env.eject, env.times.eject);
  }

  /** The last step of an arrival: the final state read back, the record's last update, and the save. */
  method FinalUpdate(st: Stores, id: DeviceId, now: Stamp)
    requires id in st.processed && id in st.summary
    modifies st
    ensures st.summary == old(st.summary)[id := Finalize(old(st.summary)[id], old(st.processed)[id], now)]
    ensures st.processed == old(st.processed) && st.trail == old(st.trail)
    ensures st.saves == old(st.saves) + [st.summary]
  {
    var finalState := st.processed[id];
    st.summary := st.summary[id := Finalize(st.summary[id], finalState, now)];
    st.SaveSummary();
  }

  /** `handle_usb_removal(device_id)`. */
  method HandleUsbRemoval(st: Stores, stopped: bool, id: DeviceId, now: Stamp)
    modifies st
    ensures st.Applied(RemovalEffect(old(st.Snapshot()), stopped, id, now), old(st.trail), old(st.saves))
  {
    if stopped {
      return;
    }
    // Every branch of the code, tracked or not, ejected or not, writes `removed`.
    st.SetTransient(id, Removed);
    if id in st.summary {
      st.summary := st.summary[id := MarkRemoved(st.summary[id], now)];
      st.SaveSummary();
    }
  }

  // ---------------------------------------------------------------------------
  // Dispatch

  /** The stores after a run of events, every write to `processed_volumes`, and every saved summary. */
  datatype History = History(tables: Tables, trail: seq<Write>, snapshots: seq<map<DeviceId, DeviceRecord>>)

  /** One handler's effect, as the dispatcher runs it (the stop event is clear). */
  function StepEffect(t: Tables, cfg: Config, ev: Event): Outcome {
    match ev
    case Arrival(drive, id, env) => ArrivalEffect(t, cfg, false, drive, id, env)
    case Removal(id, now) => RemovalEffect(t, false, id, now)
  }

  function Apply(h: History, cfg: Config, ev: Event): History {
    var o := StepEffect(h.tables, cfg, ev);
    History(o.tables, h.trail + o.trail, h.snapshots + if o.saved then [o.tables.summary] else [])
  }

  /** The events handled in queue order. */
  function Replay(h: History, cfg: Config, events: seq<Event>): History
    decreases |events|
  {
    if events == [] then h else Apply(Replay(h, cfg, events[..|events| - 1]), cfg, events[|events| - 1])
  }

  /** The stores and logs are those of history `h`, after logs `trail0` and `saves0`. */
  ghost predicate Reflects(st: Stores, h: History, trail0: seq<Write>, saves0: seq<map<DeviceId, DeviceRecord>>)
    reads st
  {
    && st.processed == h.tables.processed && st.summary == h.tables.summary
    && st.trail == trail0 + h.trail && st.saves == saves0 + h.snapshots
  }

  /** One iteration of the dispatch loop: route the event to its handler. */
  method HandleEvent(st: Stores, cfg: Config, ev: Event, ghost h: History, ghost trail0: seq<Write>, ghost saves0: seq<map<DeviceId, DeviceRecord>>)
    requires Reflects(st, h, trail0, saves0)
    modifies st
    ensures Reflects(st, Apply(h, cfg, ev), trail0, saves0)
  {
    match ev {
      case Arrival(drive, id, env) => HandleUsbArrival(st, cfg, false, drive, id, env);
      case Removal(id, now) => HandleUsbRemoval(st, false, id, now);
    }
  }

  /** The body of the dispatch loop of `main`, over the events dequeued before the stop event is set. */
  method Dispatch(st: Stores, cfg: Config, events: seq<Event>)
    modifies st
    ensures Reflects(st, Replay(History(old(st.Snapshot()), [], []), cfg, events), old(st.trail), old(st.saves))
  {
    ghost var h0 := History(st.Snapshot(), [], []);
    ghost var trail0, saves0 := st.trail, st.saves;
    var i := 0;
    while i < |events|
      invariant 0 <= i <= |events|
      invariant Reflects(st, Replay(h0, cfg, events[..i]), trail0, saves0)
    {
      HandleEvent(st, cfg, events[i], Replay(h0, cfg, events[..i]), trail0, saves0);
      assert events[..i + 1][..i] == events[..i];
      i := i + 1;
    }
    assert events[..i] == events;
  }

  /**
   * `main`: the summary loaded at startup, an empty `processed_volumes`, the dispatch
   * loop, and the `save_summary` registered with `atexit`.
   */
  method StartMonitoring(st: Stores, loaded: map<DeviceId, DeviceRecord>, cfg: Config, events: seq<Event>)
    modifies st
    ensures var h := Replay(History(Tables(map[], loaded), [], []), cfg, events);
      && st.processed == h.tables.processed && st.summary == h.tables.summary
      && st.trail == old(st.trail) + h.trail && st.saves == old(st.saves) + h.snapshots + [h.tables.summary]
  {
    st.summary := loaded;
    st.processed := map[];
    Dispatch(st, cfg, events);
    st.SaveSummary();
  }
}

/**
 * The rules of the device lifecycle, proved of the handlers' effect functions:
 * the re-entrancy guard, the arrival bookkeeping, the vanished-drive path, the
 * authorization decision and the eject it triggers, the final counters, the
 * removal handler, and what the dispatch loop keeps true over any run of events.
 */
module Lifecycle {
  import opened Wrappers
  import opened Registry
  import opened Authorization
  import opened Enumeration
  import opened Eject
  import opened UsbLogger

  /** The record an arrival starts from: the stored one, or the `{}` that `setdefault` inserts. */
  function Prior(t: Tables, id: DeviceId): DeviceRecord {
    Find(t.summary, id).GetOr(EmptyRecord)
  }

  /** The arrival passes the stop check and the re-entrancy guard. */
  predicate Admitted(t: Tables, stopped: bool, id: DeviceId) {
    !stopped && AcceptsArrival(Find(t.processed, id))
  }

  /** The transient states that mean a handler is still at work on the device. */
  predicate InFlight(s: State) {
    s == Checking || s == Ejecting
  }

  /** No device is left in flight. */
  predicate Quiescent(p: map<DeviceId, State>) {
    forall id :: id in p ==> !InFlight(p[id])
  }

  /** The per-arrival state machine: checking, then a decision, then possibly an eject. */
  predicate Transition(a: State, b: State) {
    || (a == Checking && (b == Removed || b == Allowed || b == FailedAuth || b == AccessError))
    || (a == FailedAuth && b == Ejecting)
    || (a == Ejecting && (b == Ejected || b == FailedEjectDll))
  }

  /** The trail of one arrival is a walk of the state machine from `checking` to a state at rest. */
  predicate LifecyclePath(trail: seq<Write>, id: DeviceId) {
    && trail != []
    && (forall k :: 0 <= k < |trail| ==> trail[k].0 == id)
    && trail[0].1 == Checking
    && (forall k :: 0 <= k < |trail| - 1 ==> Transition(trail[k].1, trail[k + 1].1))
    && !InFlight(trail[|trail| - 1].1)
  }

  // ---------------------------------------------------------------------------
  // The paths of an admitted arrival

  /** Every path is a walk of the state machine from `checking` to the state it rests in. */
  lemma PathFollowsLifecycle(id: DeviceId, p: Path)
    ensures LifecyclePath([(id, Checking)] + Writes(id, p), id)
    ensures ([(id, Checking)] + Writes(id, p))[|Writes(id, p)|].1 == Rest(p)
  {
    var trail := [(id, Checking)] + Writes(id, p);
    match p
    case Rejected(ejected) =>
      assert trail == [(id, Checking), (id, FailedAuth), (id, Ejecting), (id, OutcomeState(ejected))];
      assert Transition(trail[0].1, trail[1].1) && Transition(trail[1].1, trail[2].1) && Transition(trail[2].1, trail[3].1);
    case _ =>
      assert |trail| == 2 && Transition(trail[0].1, trail[1].1);
  }

  /** The whole trail of each path, written out. */
  lemma PathTrail(id: DeviceId, p: Path)
    ensures [(id, Checking)] + Writes(id, p) == match p
      case Vanished => [(id, Checking), (id, Removed)]
      case Faulted(_) => [(id, Checking), (id, AccessError)]
      case Authorized => [(id, Checking), (id, Allowed)]
      case Rejected(ejected) => [(id, Checking), (id, FailedAuth), (id, Ejecting), (id, OutcomeState(ejected))]
  {
  }

  /** Only the path of a failed token check passes through `ejecting`. */
  lemma PathEjects(id: DeviceId, p: Path)
    ensures (id, Ejecting) in [(id, Checking)] + Writes(id, p) <==> p.Rejected?
  {
    var trail := [(id, Checking)] + Writes(id, p);
    if !p.Rejected? {
      assert |trail| == 2 && trail[0] != (id, Ejecting) && trail[1] != (id, Ejecting);
    } else {
      assert trail[2] == (id, Ejecting);
    }
  }

  /** The final update never touches the bookkeeping of the arrival, and stamps the final time. */
  lemma SettleKeepsBookkeeping(r: DeviceRecord, cfg: Config, env: ArrivalEnv, p: Path)
    ensures var s := Settle(r, cfg, env, p);
      && s.arrivalCount == r.arrivalCount && s.firstSeen == r.firstSeen
      && s.lastDriveLetter == r.lastDriveLetter && s.lastSeen == Some(env.times.final)
  {
    match p
    case Vanished =>
    case Faulted(_) =>
    case Authorized =>
    case Rejected(_) =>
  }

  /**
   * The record's `last_state` is the state the path rests in (an eject outcome is not
   * overwritten), and `auth_reason` and `extra_data` are what the path's checks found.
   */
  lemma SettleStatus(r: DeviceRecord, cfg: Config, env: ArrivalEnv, p: Path)
    ensures var s := Settle(r, cfg, env, p);
      && s.lastState == Some(Rest(p))
      && s.authReason == (match p
                          case Vanished => r.authReason
                          case Faulted(kind) => Some(DriveAccessError(kind))
                          case _ => Some(Classify(env.token, cfg.expectedKey).reason))
      && (p.Vanished? || p.Faulted? || cfg.enumLevel == NoEnumeration ==> s.extraData == r.extraData)
      && (!p.Vanished? && !p.Faulted? && cfg.enumLevel == RootLevel ==>
            s.extraData.Some? && s.extraData.value.filesEnumeration == Some(Enumerate(env.listing, cfg.maxRoot).files))
  {
    match p
    case Vanished =>
    case Faulted(_) =>
    case Authorized =>
    case Rejected(_) =>
  }

  /**
   * The counters along each path: `total_auth_success` grows on `allowed`, `total_auth_failure`
   * only on the access-error path, and one eject counter on the eject path. None goes missing.
   */
  lemma SettleCounters(r: DeviceRecord, cfg: Config, env: ArrivalEnv, p: Path)
    ensures var s := Settle(r, cfg, env, p);
      && Count(s.totalAuthSuccess) == Count(r.totalAuthSuccess) + (if p.Authorized? then 1 else 0)
      && Count(s.totalAuthFailure) == Count(r.totalAuthFailure) + (if p.Faulted? then 1 else 0)
      && Count(s.totalEjectSuccess) == Count(r.totalEjectSuccess) + (if p == Rejected(true) then 1 else 0)
      && Count(s.totalEjectFailure) == Count(r.totalEjectFailure) + (if p == Rejected(false) then 1 else 0)
      && (r.totalAuthSuccess.Some? ==> s.totalAuthSuccess.Some?)
      && (r.totalAuthFailure.Some? ==> s.totalAuthFailure.Some?)
      && (r.totalEjectSuccess.Some? ==> s.totalEjectSuccess.Some?)
      && (r.totalEjectFailure.Some? ==> s.totalEjectFailure.Some?)
  {
    match p
    case Vanished =>
    case Faulted(_) =>
    case Authorized =>
    case Rejected(_) =>
  }

  // ---------------------------------------------------------------------------
  // An admitted arrival

  /** An admitted arrival: the path decides the writes, the resting state, the record and the save. */
  lemma ArrivalShape(t: Tables, cfg: Config, stopped: bool, drive: string, id: DeviceId, env: ArrivalEnv)
    requires Admitted(t, stopped, id)
    ensures var p := Decide(cfg, drive, env);
      var r1 := RecordArrival(Find(t.summary, id), drive, env.times.arrive, cfg.enumLevel);
      ArrivalEffect(t, cfg, stopped, drive, id, env)
        == Outcome(Tables(t.processed[id := Rest(p)], t.summary[id := Settle(r1, cfg, env, p)]),
                   [(id, Checking)] + Writes(id, p), p != Vanished)
  {
    var p := Decide(cfg, drive, env);
    var r1 := RecordArrival(Find(t.summary, id), drive, env.times.arrive, cfg.enumLevel);
    assert t.processed[id := Checking][id := Rest(p)] == t.processed[id := Rest(p)];
    assert t.summary[id := r1][id := Settle(r1, cfg, env, p)] == t.summary[id := Settle(r1, cfg, env, p)];
  }

  // ---------------------------------------------------------------------------
  // The guard

  /** The guard drops exactly the arrivals of a device in flight, and a dropped arrival changes nothing. */
  lemma ArrivalGuard(t: Tables, cfg: Config, stopped: bool, drive: string, id: DeviceId, env: ArrivalEnv)
    ensures !stopped ==> (Admitted(t, stopped, id) <==> !(id in t.processed && InFlight(t.processed[id])))
    ensures !Admitted(t, stopped, id) ==> ArrivalEffect(t, cfg, stopped, drive, id, env) == Unchanged(t)
    ensures Admitted(t, stopped, id) ==>
      var o := ArrivalEffect(t, cfg, stopped, drive, id, env);
      && o.tables.summary.Keys == t.summary.Keys + {id}
      && o.tables.processed.Keys == t.processed.Keys + {id}
      && (forall other :: other in t.summary && other != id ==> o.tables.summary[other] == t.summary[other])
      && (forall other :: other in t.processed && other != id ==> o.tables.processed[other] == t.processed[other])
  {
    if Admitted(t, stopped, id) {
      ArrivalShape(t, cfg, stopped, drive, id, env);
    }
  }

  // ---------------------------------------------------------------------------
  // The record an admitted arrival leaves behind

  /** The writes an admitted arrival makes to `processed_volumes`, by path. */
  lemma ArrivalTrail(t: Tables, cfg: Config, stopped: bool, drive: string, id: DeviceId, env: ArrivalEnv)
    requires Admitted(t, stopped, id)
    ensures var o := ArrivalEffect(t, cfg, stopped, drive, id, env);
      var ejected := OutcomeState(Succeeded(env.eject, VolumePath(drive)));
      && (!env.present ==> o.trail == [(id, Checking), (id, Removed)])
      && (env.present && env.accessFault.Some? ==> o.trail == [(id, Checking), (id, AccessError)])
      && (env.present && env.accessFault.None? && Classify(env.token, cfg.expectedKey).authorized ==>
            o.trail == [(id, Checking), (id, Allowed)])
      && (env.present && env.accessFault.None? && !Classify(env.token, cfg.expectedKey).authorized ==>
            o.trail == [(id, Checking), (id, FailedAuth), (id, Ejecting), (id, ejected)])
      && o.tables.processed[id] == o.trail[|o.trail| - 1].1
  {
    var p := Decide(cfg, drive, env);
    ArrivalShape(t, cfg, stopped, drive, id, env);
    PathFollowsLifecycle(id, p);
    PathTrail(id, p);
    if !env.present {
      assert p == Vanished;
    } else if env.accessFault.Some? {
      assert p == Faulted(env.accessFault.value);
    } else {
      assert p == Verdict(cfg.expectedKey, drive, env);
    }
  }

  /** Every arrival follows the state machine, and what it leaves in `processed_volumes` is at rest. */
  lemma ArrivalFollowsLifecycle(t: Tables, cfg: Config, stopped: bool, drive: string, id: DeviceId, env: ArrivalEnv)
    requires Admitted(t, stopped, id)
    ensures var o := ArrivalEffect(t, cfg, stopped, drive, id, env);
      && LifecyclePath(o.trail, id)
      && o.tables.processed[id] == o.trail[|o.trail| - 1].1
      && o.tables.summary[id].lastState == Some(o.tables.processed[id])
  {
    var p := Decide(cfg, drive, env);
    ArrivalShape(t, cfg, stopped, drive, id, env);
    PathFollowsLifecycle(id, p);
    SettleStatus(RecordArrival(Find(t.summary, id), drive, env.times.arrive, cfg.enumLevel), cfg, env, p);
  }

  /**
   * The arrival bookkeeping survives to the end of the arrival: the first arrival
   * sets `first_seen` and an `arrival_count` of 1; a later one adds exactly 1 and
   * keeps `first_seen`. The drive letter is the event's.
   */
  lemma ArrivalCounted(t: Tables, cfg: Config, stopped: bool, drive: string, id: DeviceId, env: ArrivalEnv)
    requires Admitted(t, stopped, id)
    ensures var r := ArrivalEffect(t, cfg, stopped, drive, id, env).tables.summary[id];
      var p := Prior(t, id);
      && r.arrivalCount == Some(if IsFirstRecord(p) then 1 else Count(p.arrivalCount) + 1)
      && r.firstSeen == (if IsFirstRecord(p) then Some(env.times.arrive) else p.firstSeen)
      && !IsFirstRecord(r)
      && r.lastDriveLetter == Some(drive)
      && r.lastSeen.Some?
  {
    ArrivalShape(t, cfg, stopped, drive, id, env);
    SettleKeepsBookkeeping(RecordArrival(Find(t.summary, id), drive, env.times.arrive, cfg.enumLevel),
                           cfg, env, Decide(cfg, drive, env));
  }

  /**
   * A drive gone after the mount delay: `removed` in both places, the reason and
   * every counter as the bookkeeping left them, no eject and no save.
   */
  lemma VanishedDrive(t: Tables, cfg: Config, stopped: bool, drive: string, id: DeviceId, env: ArrivalEnv)
    requires Admitted(t, stopped, id) && !env.present
    ensures var o := ArrivalEffect(t, cfg, stopped, drive, id, env);
      var r := o.tables.summary[id];
      var p := Prior(t, id);
      && o.tables.processed[id] == Removed && r.lastState == Some(Removed)
      && r.lastSeen == Some(env.times.final)
      && r.authReason == Some(p.authReason.GetOr(PendingCheck))
      && r.totalAuthSuccess == Some(Count(p.totalAuthSuccess))
      && r.totalAuthFailure == Some(Count(p.totalAuthFailure))
      && r.totalEjectSuccess == Some(Count(p.totalEjectSuccess))
      && r.totalEjectFailure == Some(Count(p.totalEjectFailure))
      && (id, Ejecting) !in o.trail
      && !o.saved
  {
    ArrivalShape(t, cfg, stopped, drive, id, env);
    PathEjects(id, Vanished);
  }

  /**
   * With the drive present and the token file probed: `auth_reason` is the
   * classification's, the device is `allowed` exactly when it is authorized, and
   * the enumeration runs at level `root` whatever the decision.
   */
  lemma AuthorizationDecides(t: Tables, cfg: Config, stopped: bool, drive: string, id: DeviceId, env: ArrivalEnv)
    requires Admitted(t, stopped, id) && env.present && env.accessFault.None?
    ensures var o := ArrivalEffect(t, cfg, stopped, drive, id, env);
      var r := o.tables.summary[id];
      var auth := Classify(env.token, cfg.expectedKey);
      && r.authReason == Some(auth.reason)
      && (o.tables.processed[id] == Allowed <==> auth.authorized)
      && o.trail[1] == (id, if auth.authorized then Allowed else FailedAuth)
      && (cfg.enumLevel == RootLevel ==>
            r.extraData.Some? && r.extraData.value.filesEnumeration == Some(Enumerate(env.listing, cfg.maxRoot).files))
      && (cfg.enumLevel == NoEnumeration ==> r.extraData == Prior(t, id).extraData)
      && o.saved
  {
    var p := Decide(cfg, drive, env);
    var r1 := RecordArrival(Find(t.summary, id), drive, env.times.arrive, cfg.enumLevel);
    assert p == Verdict(cfg.expectedKey, drive, env);
    ArrivalShape(t, cfg, stopped, drive, id, env);
    PathTrail(id, p);
    SettleStatus(r1, cfg, env, p);
  }

  /**
   * An eject is attempted exactly when the token check ran and failed. Its outcome
   * is the final transient state and the final `last_state` (the last step does not
   * overwrite it), and exactly one eject counter grows.
   */
  lemma EjectOnlyWhenUnauthorized(t: Tables, cfg: Config, stopped: bool, drive: string, id: DeviceId, env: ArrivalEnv)
    requires Admitted(t, stopped, id) && env.present
    ensures var o := ArrivalEffect(t, cfg, stopped, drive, id, env);
      var r := o.tables.summary[id];
      var p := Prior(t, id);
      var unauthorized := env.accessFault.None? && !Classify(env.token, cfg.expectedKey).authorized;
      var success := Succeeded(env.eject, VolumePath(drive));
      && ((id, Ejecting) in o.trail <==> unauthorized)
      && (unauthorized ==>
            && o.tables.processed[id] == OutcomeState(success)
            && r.lastState == Some(OutcomeState(success))
            && Count(r.totalEjectSuccess) == Count(p.totalEjectSuccess) + (if success then 1 else 0)
            && Count(r.totalEjectFailure) == Count(p.totalEjectFailure) + (if success then 0 else 1))
      && (!unauthorized ==>
            && r.lastState == Some(o.tables.processed[id])
            && Count(r.totalEjectSuccess) == Count(p.totalEjectSuccess)
            && Count(r.totalEjectFailure) == Count(p.totalEjectFailure))
  {
    var p := Decide(cfg, drive, env);
    var r1 := RecordArrival(Find(t.summary, id), drive, env.times.arrive, cfg.enumLevel);
    ArrivalShape(t, cfg, stopped, drive, id, env);
    PathEjects(id, p);
    SettleStatus(r1, cfg, env, p);
    SettleCounters(r1, cfg, env, p);
  }

  /**
   * The final auth counters as written: `total_auth_success` grows by one exactly when
   * the device ends `allowed`; `total_auth_failure` grows by one exactly on the
   * access-error path, because after an eject the final state read back is the eject
   * outcome, which neither counter branch matches.
   */
  lemma FinalAuthCounters(t: Tables, cfg: Config, stopped: bool, drive: string, id: DeviceId, env: ArrivalEnv)
    requires Admitted(t, stopped, id) && env.present
    ensures var o := ArrivalEffect(t, cfg, stopped, drive, id, env);
      var r := o.tables.summary[id];
      var p := Prior(t, id);
      var allowed := env.accessFault.None? && Classify(env.token, cfg.expectedKey).authorized;
      && (o.tables.processed[id] == Allowed <==> allowed)
      && (o.tables.processed[id] == AccessError <==> env.accessFault.Some?)
      && Count(r.totalAuthSuccess) == Count(p.totalAuthSuccess) + (if allowed then 1 else 0)
      && Count(r.totalAuthFailure) == Count(p.totalAuthFailure) + (if env.accessFault.Some? then 1 else 0)
      && (env.accessFault.Some? ==> r.authReason == Some(DriveAccessError(env.accessFault.value)) && (id, Ejecting) !in o.trail)
  {
    var p := Decide(cfg, drive, env);
    var r1 := RecordArrival(Find(t.summary, id), drive, env.times.arrive, cfg.enumLevel);
    ArrivalShape(t, cfg, stopped, drive, id, env);
    PathEjects(id, p);
    SettleStatus(r1, cfg, env, p);
    SettleCounters(r1, cfg, env, p);
  }

  /** A failed token check followed by an eject leaves both auth counters as they were. */
  lemma RejectedArrivalCountsNoAuthFailure(t: Tables, cfg: Config, drive: string, id: DeviceId, env: ArrivalEnv)
    requires Admitted(t, false, id) && env.present && env.accessFault.None?
    requires !Classify(env.token, cfg.expectedKey).authorized
    ensures var r := ArrivalEffect(t, cfg, false, drive, id, env).tables.summary[id];
      && Count(r.totalAuthFailure) == Count(Prior(t, id).totalAuthFailure)
      && Count(r.totalAuthSuccess) == Count(Prior(t, id).totalAuthSuccess)
  {
    FinalAuthCounters(t, cfg, false, drive, id, env);
  }

  // ---------------------------------------------------------------------------
  // The dispatch loop

  /** A record as the engine leaves it: seen, counted at least once, with a state and all four counters. */
  predicate WellFormed(r: DeviceRecord) {
    && !IsFirstRecord(r)
    && r.lastState.Some?
    && Count(r.arrivalCount) >= 1
    && r.totalAuthSuccess.Some? && r.totalAuthFailure.Some?
    && r.totalEjectSuccess.Some? && r.totalEjectFailure.Some?
  }

  predicate AllWellFormed(s: map<DeviceId, DeviceRecord>) {
    forall id :: id in s ==> WellFormed(s[id])
  }

  /**
   * `b` is `a` with no record deleted and none of the four `total_*` counters of an existing
   * record decreased. `arrival_count` is not among them: it restarts at 1 on a record taken
   * for a first record.
   */
  predicate Grows(a: map<DeviceId, DeviceRecord>, b: map<DeviceId, DeviceRecord>) {
    && a.Keys <= b.Keys
    && forall id :: id in a ==>
         && Count(a[id].totalAuthSuccess) <= Count(b[id].totalAuthSuccess)
         && Count(a[id].totalAuthFailure) <= Count(b[id].totalAuthFailure)
         && Count(a[id].totalEjectSuccess) <= Count(b[id].totalEjectSuccess)
         && Count(a[id].totalEjectFailure) <= Count(b[id].totalEjectFailure)
  }

  /** The number of arrival events of `id` in `events`. */
  function Arrivals(events: seq<Event>, id: DeviceId): nat
    decreases |events|
  {
    if events == [] then 0
    else Arrivals(events[..|events| - 1], id) + (if events[|events| - 1].Arrival? && events[|events| - 1].id == id then 1 else 0)
  }

  /** The arrival count a record contributes before any event: 0 when there is no record. */
  function CountBefore(s: map<DeviceId, DeviceRecord>, id: DeviceId): nat {
    if id in s then Count(s[id].arrivalCount) else 0
  }

  /** Between events no device is in flight, so the dispatcher's arrivals all pass the guard. */
  lemma QuiescentAdmits(t: Tables, id: DeviceId)
    requires Quiescent(t.processed)
    ensures Admitted(t, false, id)
  {
  }

  /** Writing a state at rest keeps `processed_volumes` quiescent. */
  lemma RestKeepsQuiescent(p: map<DeviceId, State>, id: DeviceId, s: State)
    requires Quiescent(p) && !InFlight(s)
    ensures Quiescent(p[id := s])
  {
  }

  lemma StepKeepsQuiescent(t: Tables, cfg: Config, ev: Event)
    requires Quiescent(t.processed)
    ensures Quiescent(StepEffect(t, cfg, ev).tables.processed)
  {
    match ev
    case Arrival(drive, id, env) =>
      var p := Decide(cfg, drive, env);
      ArrivalShape(t, cfg, false, drive, id, env);
      assert !InFlight(Rest(p));
      RestKeepsQuiescent(t.processed, id, Rest(p));
    case Removal(id, now) =>
      RestKeepsQuiescent(t.processed, id, Removed);
  }

  /** `r` has each of the four `total_*` counters of `a` at least as large. */
  predicate CountersGrow(a: DeviceRecord, r: DeviceRecord) {
    && Count(a.totalAuthSuccess) <= Count(r.totalAuthSuccess)
    && Count(a.totalAuthFailure) <= Count(r.totalAuthFailure)
    && Count(a.totalEjectSuccess) <= Count(r.totalEjectSuccess)
    && Count(a.totalEjectFailure) <= Count(r.totalEjectFailure)
  }

  /** Replacing one record by one with no smaller `total_*` counter deletes nothing and lowers no such counter. */
  lemma UpdateGrows(s: map<DeviceId, DeviceRecord>, id: DeviceId, r: DeviceRecord)
    requires id in s ==> CountersGrow(s[id], r)
    ensures Grows(s, s[id := r])
  {
  }

  /** Replacing one record by a well-formed one keeps every record well formed. */
  lemma UpdateKeepsWellFormed(s: map<DeviceId, DeviceRecord>, id: DeviceId, r: DeviceRecord)
    requires AllWellFormed(s) && WellFormed(r)
    ensures AllWellFormed(s[id := r])
  {
  }

  lemma GrowsTransitive(a: map<DeviceId, DeviceRecord>, b: map<DeviceId, DeviceRecord>, c: map<DeviceId, DeviceRecord>)
    requires Grows(a, b) && Grows(b, c)
    ensures Grows(a, c)
  {
  }

  /** An admitted arrival leaves a well-formed record none of whose `total_*` counters went down. */
  lemma ArrivalRecordGrows(t: Tables, cfg: Config, drive: string, id: DeviceId, env: ArrivalEnv)
    requires Admitted(t, false, id)
    ensures var r := ArrivalEffect(t, cfg, false, drive, id, env).tables.summary[id];
      WellFormed(r) && CountersGrow(Prior(t, id), r)
  {
    var p := Decide(cfg, drive, env);
    var r1 := RecordArrival(Find(t.summary, id), drive, env.times.arrive, cfg.enumLevel);
    ArrivalShape(t, cfg, false, drive, id, env);
    SettleKeepsBookkeeping(r1, cfg, env, p);
    SettleStatus(r1, cfg, env, p);
    SettleCounters(r1, cfg, env, p);
  }

  /** One dispatched event, from any summary, deletes no record and lowers no `total_*` counter. */
  lemma StepGrows(t: Tables, cfg: Config, ev: Event)
    ensures Grows(t.summary, StepEffect(t, cfg, ev).tables.summary)
  {
    match ev
    case Arrival(drive, id, env) =>
      if Admitted(t, false, id) {
        var p := Decide(cfg, drive, env);
        var r1 := RecordArrival(Find(t.summary, id), drive, env.times.arrive, cfg.enumLevel);
        ArrivalShape(t, cfg, false, drive, id, env);
        ArrivalRecordGrows(t, cfg, drive, id, env);
        assert id in t.summary ==> Prior(t, id) == t.summary[id];
        UpdateGrows(t.summary, id, Settle(r1, cfg, env, p));
      }
    case Removal(id, now) =>
      if id in t.summary {
        UpdateGrows(t.summary, id, MarkRemoved(t.summary[id], now));
      }
  }

  /** One dispatched event keeps every record well formed. */
  lemma StepKeepsWellFormed(t: Tables, cfg: Config, ev: Event)
    requires AllWellFormed(t.summary)
    ensures AllWellFormed(StepEffect(t, cfg, ev).tables.summary)
  {
    match ev
    case Arrival(drive, id, env) =>
      if Admitted(t, false, id) {
        var p := Decide(cfg, drive, env);
        var r1 := RecordArrival(Find(t.summary, id), drive, env.times.arrive, cfg.enumLevel);
        ArrivalShape(t, cfg, false, drive, id, env);
        ArrivalRecordGrows(t, cfg, drive, id, env);
        UpdateKeepsWellFormed(t.summary, id, Settle(r1, cfg, env, p));
      }
    case Removal(id, now) =>
      if id in t.summary {
        UpdateKeepsWellFormed(t.summary, id, MarkRemoved(t.summary[id], now));
      }
  }

  lemma StepCounts(t: Tables, cfg: Config, ev: Event, id: DeviceId)
    requires Quiescent(t.processed)
    requires id in t.summary ==> !IsFirstRecord(t.summary[id])
    ensures var s := StepEffect(t, cfg, ev).tables.summary;
      var n := if ev.Arrival? && ev.id == id then 1 else 0;
      && (id in s <==> id in t.summary || n == 1)
      && (id in s ==> !IsFirstRecord(s[id]) && Count(s[id].arrivalCount) == CountBefore(t.summary, id) + n)
  {
    match ev
    case Arrival(drive, id', env) =>
      ArrivalShape(t, cfg, false, drive, id', env);
      if id' == id {
        ArrivalCounted(t, cfg, false, drive, id, env);
      }
    case Removal(id', now) =>
  }

  /** Dispatch never leaves a device in flight between events. */
  lemma {:induction false} ReplayKeepsQuiescent(h: History, cfg: Config, events: seq<Event>)
    requires Quiescent(h.tables.processed)
    ensures Quiescent(Replay(h, cfg, events).tables.processed)
    decreases |events|
  {
    if events != [] {
      ReplayKeepsQuiescent(h, cfg, events[..|events| - 1]);
      StepKeepsQuiescent(Replay(h, cfg, events[..|events| - 1]).tables, cfg, events[|events| - 1]);
    }
  }

  /** From any loaded summary, records are never deleted and no `total_*` counter ever decreases. */
  lemma {:induction false} ReplayGrows(h: History, cfg: Config, events: seq<Event>)
    ensures Grows(h.tables.summary, Replay(h, cfg, events).tables.summary)
    decreases |events|
  {
    if events != [] {
      var mid := Replay(h, cfg, events[..|events| - 1]);
      ReplayGrows(h, cfg, events[..|events| - 1]);
      StepGrows(mid.tables, cfg, events[|events| - 1]);
      GrowsTransitive(h.tables.summary, mid.tables.summary, Replay(h, cfg, events).tables.summary);
    }
  }

  /** Starting from well-formed records, every record stays well formed. */
  lemma {:induction false} ReplayKeepsWellFormed(h: History, cfg: Config, events: seq<Event>)
    requires AllWellFormed(h.tables.summary)
    ensures AllWellFormed(Replay(h, cfg, events).tables.summary)
    decreases |events|
  {
    if events != [] {
      var mid := Replay(h, cfg, events[..|events| - 1]);
      ReplayKeepsWellFormed(h, cfg, events[..|events| - 1]);
      StepKeepsWellFormed(mid.tables, cfg, events[|events| - 1]);
    }
  }

  /**
   * Starting with no device in flight and a record that is not marked first, the
   * arrival count after a run of events is the count before plus the number of
   * arrivals of the device (a device with no record ends with exactly that number).
   */
  lemma {:induction false} ReplayCountsArrivals(h: History, cfg: Config, events: seq<Event>, id: DeviceId)
    requires Quiescent(h.tables.processed)
    requires id in h.tables.summary ==> !IsFirstRecord(h.tables.summary[id])
    ensures var s := Replay(h, cfg, events).tables.summary;
      && (id in s <==> id in h.tables.summary || Arrivals(events, id) > 0)
      && (id in s ==> !IsFirstRecord(s[id])
                      && Count(s[id].arrivalCount) == CountBefore(h.tables.summary, id) + Arrivals(events, id))
    decreases |events|
  {
    if events != [] {
      var init := events[..|events| - 1];
      var mid := Replay(h, cfg, init);
      ReplayCountsArrivals(h, cfg, init, id);
      ReplayKeepsQuiescent(h, cfg, init);
      StepCounts(mid.tables, cfg, events[|events| - 1], id);
    }
  }

  /** A device first met by the dispatcher has an arrival count equal to its number of arrivals. */
  lemma FreshDeviceCountsArrivals(loaded: map<DeviceId, DeviceRecord>, cfg: Config, events: seq<Event>, id: DeviceId)
    requires id !in loaded && Arrivals(events, id) > 0
    ensures var s := Replay(History(Tables(map[], loaded), [], []), cfg, events).tables.summary;
      id in s && s[id].arrivalCount == Some(Arrivals(events, id))
  {
    ReplayCountsArrivals(History(Tables(map[], loaded), [], []), cfg, events, id);
  }
}

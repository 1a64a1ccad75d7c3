# USB logger device lifecycle, in Dafny

This project models the per-device bookkeeping of the Windows USB logger. The logger watches USB volumes
arrive and leave, checks each arriving volume for a token file, ejects volumes that fail the check, and keeps
a summary record per device. The model covers the two arrival/removal handlers and the dispatch loop of
`usb_logger_win.py`, and `eject_drive_api` of `utils/eject.py`. The model then proves the lifecycle rules
those functions implement.

The program keeps two stores:

- `processed_volumes` maps a device id to a transient state label (`checking`, `removed`, `allowed`,
  `failed_auth`, `access_error`, `ejecting`, `ejected`, `failed_eject_dll`).
- `unique_devices_summary` maps a device id to a record with `first_seen`, `last_seen`,
  `last_drive_letter`, `last_state`, `arrival_count`, four `total_*` counters, `auth_reason`,
  `volume_details` and `extra_data`.

Both are fields of the class `Registry.Stores`. Every field of a record is an `Option`, because a record
loaded from the summary file may lack any key. The class also has two ghost logs:

- `trail` holds every write to `processed_volumes`, in order. It shows the short-lived `ejecting` and
  `failed_auth` writes that the final state hides.
- `saves` holds the summary as it stood at each `save_summary` call.

Files:

- `registry.dfy`: labels, reasons, the record, and the class `Stores`.
- `authorization.dfy`: Python's `str.strip()` and the token-file classification.
- `enumeration.dfy`: the bounded root listing loop, as a method proved against the recursive function `Walk`.
- `eject.dfy`: `eject_drive_api` as a method on the stores.
- `usb_logger.dfy`: the handlers as methods on the stores, and the dispatch loop.
- `lifecycle.dfy`: lemmas about the arrival and removal effects, and about whole runs of the dispatch loop.

Each handler method is proved against an *effect function* over the stores as values (`ArrivalEffect`,
`RemovalEffect`, `StepEffect`, `Replay`). The lemmas in `lifecycle.dfy` state the program's rules about those
functions. An admitted arrival ends along one `Path`:

- `Vanished`: the drive disappeared during the mount delay.
- `Faulted`: an `OSError` reached the outer handler.
- `Authorized`: the token check passed.
- `Rejected(ejected)`: the check failed and an eject was attempted.

The path chosen by `Decide` fixes the writes (`Writes`), the resting state (`Rest`), the final record
(`Settle`) and whether the summary is saved.

Inputs from the outside world are oracle arguments, grouped in `ArrivalEnv`:

- whether the drive root still exists after `time.sleep(MOUNT_DELAY)`;
- the volume query's result;
- an `OSError` raised anywhere in the `try` block of the check (usb_logger_win.py:178-265), placed at the block's start;
- the token file (absent, unreadable, or its text);
- the root listing, one stat result per entry, plus an optional failure of the scan;
- the eject DLL (missing, or a function from the volume path to a return value or an exception);
- the three timestamps taken by `datetime.now()`.

`ENUM_LEVEL`, `MAX_ROOT` and `EXPECTED_KEY` form the `Config` argument.

The model follows the code in three places where the intended behaviour differs:

- After a failed token check, the final step re-reads the state from `processed_volumes`. That state is
  then the eject outcome (`ejected` or `failed_eject_dll`), so neither auth counter moves.
  `total_auth_failure` grows only on the access-error path. A rejected, ejected device is counted in no
  auth counter (`FinalAuthCounters`, `RejectedArrivalCountsNoAuthFailure`).
- The access-error path does not call the eject (`EjectOnlyWhenUnauthorized`).
- `arrival_count` is not monotone in general. A record whose `first_seen` is missing or empty is taken for a
  first record, and its `arrival_count` restarts at 1 whatever it held. The count grows by one per arrival
  only from a record that is not taken for a first record (the requires of `ReplayCountsArrivals`).
  The growth lemmas (`StepGrows`, `ReplayGrows`) are therefore about the four `total_*` counters.

## Model

| member | source | states |
|---|---|---|
| Registry.Stores.SetTransient | usb_logger_win.py:107 | one write `processed_volumes[id] = s`: that key is updated, the write is appended to the trail, and the summary and the save log are untouched |
| Registry.Stores.SaveSummary | usb_logger_win.py:290 | `save_summary` records the summary as it stands and changes neither store |
| Registry.LabelInjective | usb_logger_win.py:96 | the eight transient-state labels are pairwise distinct, so a stored label names exactly one state |
| Registry.TextInjective | usb_logger_win.py:181-204 | the `auth_reason` texts are pairwise distinct, and the exception type can be read back from "File Read Error (…)" and "Drive Access Error (…)" |
| Authorization.TrimStart | usb_logger_win.py:187 | `lstrip`: the result is a suffix of the input, everything dropped is whitespace, and the result does not start with whitespace |
| Authorization.TrimEnd | usb_logger_win.py:187 | `rstrip`: the result is a prefix of the input, everything dropped is whitespace, and the result does not end with whitespace |
| Authorization.Strip | usb_logger_win.py:187 | the stripped text has no whitespace at either end |
| Authorization.StripIsInfix | usb_logger_win.py:187 | the stripped text is an infix of the content, and the parts removed on both sides are all whitespace |
| Authorization.StripPadded | usb_logger_win.py:187 | whitespace on both sides of a core that is already stripped is exactly what `strip()` removes |
| Authorization.StripIdempotent | usb_logger_win.py:187 | stripping twice is stripping once |
| Authorization.Classify | usb_logger_win.py:179-204 | the classification is total: absent file gives "File Not Found", a read error gives "File Read Error (type)", the stripped content equal to the key is authorized with "OK" and anything else is "Content Mismatch"; authorized exactly when the reason is OK |
| Authorization.PaddedTokenAuthorizes | usb_logger_win.py:186-192 | a token file holding the key with surrounding whitespace, such as a trailing newline, authorizes |
| Authorization.UnstrippedKeyNeverAuthorizes | usb_logger_win.py:187-190 | a key that itself begins or ends with whitespace can never be matched. The program cannot reach this case with the key it reads: `configparser` strips option values (utils/config.py:46), so the configured key is always stripped. The lemma shows the key must be stripped for the comparison to succeed at all |
| Enumeration.ValueOf | usb_logger_win.py:231-247 | an entry is recorded as an entry with its own stat metadata exactly when its stat succeeded, otherwise as an error carrying the stat's message, and never as the truncation marker |
| Enumeration.EnumerateRoot | usb_logger_win.py:218-255 | the loop, starting from the cleared map, computes the walk `Enumerate` describes: the map and the scan error |
| Enumeration.ProcessedIsFirstAtLimit | usb_logger_win.py:226-247 | the walk processes entries while fewer than `MAX_ROOT` stats have succeeded and stops at the first entry met after that; failed stats do not count |
| Enumeration.EnumerateRecords | usb_logger_win.py:221-255 | the map holds exactly the processed entries' names, plus `_truncated_` exactly when an entry remained after `MAX_ROOT` successes; a scan error is kept exactly when the listing ran out and then failed |
| Enumeration.EnumerateRecordsEntry | usb_logger_win.py:231-247 | a processed entry is recorded with its stat metadata, or with an error value when its stat failed, without aborting the walk |
| Enumeration.EnumerateBound | usb_logger_win.py:227-241 | at most `MAX_ROOT` successfully stat'ed entries are recorded, and none when `MAX_ROOT` is not positive |
| Enumeration.LargeRootIsTruncated | usb_logger_win.py:227-230 | a root with more than `MAX_ROOT` entries, all stat'ed successfully, processes exactly the first `MAX_ROOT` entries; the map's keys are those entries' names plus `_truncated_`, and there is no scan error |
| Eject.VolumePath | utils/eject.py:27 | the path handed to the DLL is `\\.\` followed by the drive letter |
| Eject.Succeeded | utils/eject.py:30-37 | success exactly when the DLL is loaded and its call returns true; a missing DLL or an exception is a failure |
| Eject.OutcomeState | utils/eject.py:39 | the outcome is `ejected` exactly on success and `failed_eject_dll` otherwise |
| Eject.RecordEjectOutcome | utils/eject.py:43-50 | the record's `last_state` is the outcome and `last_seen` is now; exactly one eject counter, chosen by the result, grows by one; no other field changes |
| Eject.SummaryAfterEject | utils/eject.py:43-53 | the same keys; only the device's record changes, and only when it exists |
| Eject.EjectDriveApi | utils/eject.py:17-63 | the result is the success flag; `processed_volumes` passes through `ejecting` to the outcome; the summary is as `SummaryAfterEject` says; nothing is saved |
| UsbLogger.WithFilesSlot | usb_logger_win.py:140 | `setdefault('extra_data', {}).setdefault('files_enumeration', {})`: an existing slot is kept, a created one is the empty map; the stored scan error is kept, and a missing `extra_data` has none |
| UsbLogger.RecordArrival | usb_logger_win.py:116-140 | the bookkeeping: `arrival_count` starts at 1 and sets `first_seen` on a first record, otherwise grows by one; `last_seen`, the drive letter and `last_state = checking` are set; the counters, `auth_reason` and `volume_details` exist with defaults 0, "Pending Check" and `{}`; `extra_data` gets its slot only at level root |
| UsbLogger.MarkRemoved | usb_logger_win.py:155-157 | `last_state` becomes `removed` and `last_seen` now, and nothing else changes |
| UsbLogger.WithVolume | usb_logger_win.py:163-170 | the volume details are replaced only when the query returned some |
| UsbLogger.WithEnumeration | usb_logger_win.py:221-255 | `files_enumeration` becomes the walk's map; a scan error overwrites the stored one, otherwise that one stays |
| UsbLogger.Finalize | usb_logger_win.py:273-287 | `last_state` is the final state unless that is an eject state; `last_seen` is set; `total_auth_success` grows on `allowed` and `total_auth_failure` on `failed_auth` or `access_error`, and nothing else changes |
| UsbLogger.RemovalEffect | usb_logger_win.py:301-338 | a removal always writes `removed`; it marks and saves the record exactly when there is one, otherwise the summary is unchanged; a stopped monitor changes nothing |
| UsbLogger.HandleUsbArrival | usb_logger_win.py:80-293 | the handler leaves the stores, the trail and the save log as `ArrivalEffect` says |
| UsbLogger.CheckDevice | usb_logger_win.py:144-171 | from the mount delay on, the stores are as `CheckEffect` says: the vanished drive, the access error, or the token check |
| UsbLogger.AuthorizeDevice | usb_logger_win.py:172-257 | the reason and, at level root, the enumeration are written into the record before the decision is finished |
| UsbLogger.FinishArrival | usb_logger_win.py:209-265 | the decision's transient state, the eject on failure, and the final update, as `FinishEffect` says |
| UsbLogger.RejectDevice | usb_logger_win.py:212-214 | `failed_auth`, then the eject: the trail is `failed_auth, ejecting, outcome` and the record carries the eject's update |
| UsbLogger.FinalUpdate | usb_logger_win.py:273-290 | the final state is read back from `processed_volumes`, the record gets its final update, and the summary is saved |
| UsbLogger.HandleUsbRemoval | usb_logger_win.py:301-338 | the handler leaves the stores as `RemovalEffect` says |
| UsbLogger.HandleEvent | usb_logger_win.py:393-397 | an `arrival` tuple goes to the arrival handler and anything else to the removal handler; the stores advance by one step of the history |
| UsbLogger.Dispatch | usb_logger_win.py:385-397 | after the loop, the stores, the trail and the save log are those of `Replay` over the events in order |
| UsbLogger.StartMonitoring | usb_logger_win.py:356-359 | `main` starts from the loaded summary and an empty `processed_volumes`, dispatches, and saves once more on exit |
| Lifecycle.PathFollowsLifecycle | usb_logger_win.py:107-214 | every path is a walk of the state machine `checking -> {removed, allowed, failed_auth, access_error}`, `failed_auth -> ejecting -> {ejected, failed_eject_dll}`, ending at rest |
| Lifecycle.PathEjects | usb_logger_win.py:259-263 | a path passes through `ejecting` exactly when the token check failed |
| Lifecycle.SettleKeepsBookkeeping | usb_logger_win.py:149-281 | after the bookkeeping no step touches `arrival_count`, `first_seen` or `last_drive_letter`, and `last_seen` ends at the final time |
| Lifecycle.SettleStatus | usb_logger_win.py:149-279 | on every path `last_state` ends equal to the state at rest; `auth_reason` is untouched when the drive vanished, "Drive Access Error" on the access error, and the classification's otherwise; `extra_data` gets the enumeration exactly when the check ran at level root |
| Lifecycle.SettleCounters | usb_logger_win.py:283-288 | along each path: `total_auth_success` grows by one only on `allowed`, `total_auth_failure` only on the access error, and the eject counter chosen by the result only on the eject path; no counter goes missing |
| Lifecycle.ArrivalShape | usb_logger_win.py:80-293 | an admitted arrival writes `checking` and then the path's writes, rests in the path's state, leaves the path's record, and saves unless the drive vanished |
| Lifecycle.ArrivalGuard | usb_logger_win.py:88-98 | an arrival is dropped exactly when the monitor is stopped or the device is `checking` or `ejecting`; a dropped one changes nothing; an admitted one touches only its own device's key in both stores |
| Lifecycle.ArrivalTrail | usb_logger_win.py:107-271 | the writes of an admitted arrival: `checking, removed` if the drive vanished; `checking, access_error` on an access error; `checking, allowed` if authorized; `checking, failed_auth, ejecting, outcome` otherwise |
| Lifecycle.ArrivalFollowsLifecycle | usb_logger_win.py:107-279 | every admitted arrival follows the state machine, and both stores end in the same state at rest |
| Lifecycle.ArrivalCounted | usb_logger_win.py:116-127 | at the end of the arrival, `arrival_count` is 1 with `first_seen` set on a first record, and otherwise one more with `first_seen` kept; the drive letter is the event's |
| Lifecycle.VanishedDrive | usb_logger_win.py:149-160 | a drive gone after the delay: `removed` in both stores, `last_seen` set, the reason and every counter as the bookkeeping left them, no eject, no save |
| Lifecycle.AuthorizationDecides | usb_logger_win.py:179-221 | with the drive present and probed, `auth_reason` is the classification's, the device is `allowed` exactly when authorized (`failed_auth` otherwise), and at level root the enumeration is recorded whatever the decision |
| Lifecycle.EjectOnlyWhenUnauthorized | usb_logger_win.py:259-279 | an eject is attempted exactly when the token check ran and failed; its outcome is the final transient state and `last_state`, and exactly one eject counter grows |
| Lifecycle.FinalAuthCounters | usb_logger_win.py:265-287 | `total_auth_success` grows by one exactly when the device ends `allowed`, and `total_auth_failure` exactly on the access-error path |
| Lifecycle.RejectedArrivalCountsNoAuthFailure | usb_logger_win.py:265-287 | a failed token check followed by an eject leaves both auth counters as they were |
| Lifecycle.QuiescentAdmits | usb_logger_win.py:95-98 | when no device is in flight, the dispatcher's arrivals all pass the guard |
| Lifecycle.StepKeepsQuiescent | usb_logger_win.py:385-397 | one dispatched event leaves no device in flight |
| Lifecycle.ArrivalRecordGrows | usb_logger_win.py:116-290 | an admitted arrival leaves a complete record (seen, counted, with a state and all four counters), none of whose four `total_*` counters went down |
| Lifecycle.StepGrows | usb_logger_win.py:385-397 | from any summary, one dispatched event deletes no record and lowers none of the four `total_*` counters |
| Lifecycle.StepKeepsWellFormed | usb_logger_win.py:385-397 | one dispatched event keeps every record complete |
| Lifecycle.StepCounts | usb_logger_win.py:116-124 | with no device in flight and a record whose `first_seen` is present and non-empty (or no record), one dispatched event adds one to the device's arrival count exactly when it is an arrival of that device |
| Lifecycle.ReplayKeepsQuiescent | usb_logger_win.py:385-397 | over any run of events, no device is left in flight between events |
| Lifecycle.ReplayGrows | usb_logger_win.py:385-397 | from any loaded summary, including records with missing keys, over any run of events records are never deleted and none of the four `total_*` counters ever decreases |
| Lifecycle.ReplayKeepsWellFormed | usb_logger_win.py:385-397 | starting from complete records, over any run of events every record stays complete |
| Lifecycle.ReplayCountsArrivals | usb_logger_win.py:116-124 | with no device in flight and a record whose `first_seen` is present and non-empty (or no record), over any run of events a device's arrival count is its count before the run plus its number of arrival events |
| Lifecycle.FreshDeviceCountsArrivals | usb_logger_win.py:357-358 | a device absent from the loaded summary ends a run with an arrival count equal to its number of arrivals |

## Left out

- The WMI watcher threads, COM initialisation, the `queue.Queue` and the `threading.Event`. Dispatch is a loop over a finite sequence of dequeued events. The stop flag is an argument of the handlers, and the dispatch loop passes false.
- `time.sleep`, `os.path.exists`, `os.scandir`, `open`, `datetime.now()` and the volume query (`utils/device.py`). Each is an oracle value in `ArrivalEnv`, so a file read is the text after Python's newline translation.
- The eject DLL and its loading. The DLL is missing, or it is a function from the volume path to a boolean or an exception; the Win32 calls behind it are not part of this model, and neither is `GetLastError`.
- `save_summary` and `load_summary` (`utils/summary.py`): the JSON file. A save appends the summary to the ghost log `saves`, and the loaded summary is an argument of `StartMonitoring`.
- Records loaded from the file are taken as well typed. `last_state` holds one of the eight labels, and the counters are natural numbers. `auth_reason` holds one of the six reason texts. `volume_details` and `extra_data` have their typed shapes (`Volume`, `ExtraData` with its file map and scan error).
- Configuration parsing, logging setup, log messages, the GUI and the key generator.
- The exception-type text inside "File Read Error (…)", "Drive Access Error (…)" and the enumeration error messages is opaque.
- An `OSError` that reaches the access-error handler (usb_logger_win.py:267-271) may come from anywhere in the `try` block of usb_logger_win.py:178-265. The model places it at the block's start, before any of the block's writes. The writes such an error would leave behind when raised later in the block are not modelled (the `auth_reason` text, the enumeration, the transient `allowed` or `failed_auth`). Most later `OSError`s are caught inside the block in any case: file reads, stats and the directory scan.
- The intermediate reason "File Found, Validating Content..." is not modelled, because every path overwrites it before the record is read again.
- Concurrency between the dispatcher and the watcher threads; only the dispatcher touches the stores.

/**
 * The optional root enumeration of `handle_usb_arrival` (enumeration level `root`):
 * a walk over the immediate children of the drive root that records up to
 * `MAX_ROOT` successfully stat'ed entries, an error marker for each entry whose
 * stat fails, and the `_truncated_` marker when the limit cuts the walk short.
 */
module Enumeration {
  import opened Wrappers
  import opened Registry

  /** What `entry.stat()` (with the timestamp conversions and `is_dir()`) produced. */
  datatype StatResult = StatOk(info: FileInfo) | StatFailed(message: string)

  /** One entry yielded by `os.scandir`. */
  datatype DirEntry = DirEntry(name: string, stat: StatResult)

  /**
   * The behaviour of `os.scandir(drive + '\\')`: it yields `entries` and then, when
   * `failure` is present, raises an `OSError` with that message instead of the next
   * entry (a scan that fails to open yields no entries).
   */
  datatype Listing = Listing(entries: seq<DirEntry>, failure: Option<string>)

  /** The state of the walk when it stops: the map built and whether the entries ran out. */
  datatype Walked = Walked(files: map<string, EnumValue>, exhausted: bool)

  /** What the enumeration leaves in the record: `files_enumeration` and the scan error, if any. */
  datatype Enumerated = Enumerated(files: map<string, EnumValue>, scanError: Option<string>)

  /** The value recorded for an entry that is processed. */
  function ValueOf(e: DirEntry): (v: EnumValue)
    ensures v.Entry? <==> e.stat.StatOk?
    ensures e.stat.StatOk? ==> v.info == e.stat.info
    ensures e.stat.StatFailed? ==> v == EntryError(e.stat.message)
    ensures v != TruncatedFlag
  {
    match e.stat
    case StatOk(info) => Entry(info)
    case StatFailed(m) => EntryError(m)
  }

  /** 1 for an entry whose stat succeeds (the only entries counted against `MAX_ROOT`). */
  function Success(e: DirEntry): nat {
    if e.stat.StatOk? then 1 else 0
  }

  /** The number of entries of `s` whose stat succeeds. */
  function Successes(s: seq<DirEntry>): nat
    decreases |s|
  {
    if s == [] then 0 else Success(s[0]) + Successes(s[1..])
  }

  /** The `for` loop: `count` successes so far, `acc` the map built so far. */
  function Walk(entries: seq<DirEntry>, count: int, maxRoot: int, acc: map<string, EnumValue>): Walked
    decreases |entries|
  {
    if entries == [] then Walked(acc, true)
    else if count >= maxRoot then Walked(acc[TruncatedKey := TruncatedFlag], false)
    else Walk(entries[1..], count + Success(entries[0]), maxRoot, acc[entries[0].name := ValueOf(entries[0])])
  }

  /** The enumeration of one listing, starting from the cleared map. */
  function Enumerate(listing: Listing, maxRoot: int): Enumerated {
    var w := Walk(listing.entries, 0, maxRoot, map[]);
    Enumerated(w.files, if w.exhausted then listing.failure else None)
  }

  /** The root enumeration loop, with `files_enum_dict` cleared first. */
  method EnumerateRoot(listing: Listing, maxRoot: int) returns (files: map<string, EnumValue>, scanError: Option<string>)
    ensures Enumerated(files, scanError) == Enumerate(listing, maxRoot)
  {
    var entries := listing.entries;
    files := map[];
    var count := 0;
    var i := 0;
    var exhausted := true;
    while i < |entries|
      invariant 0 <= i <= |entries|
      invariant Walk(entries[i..], count, maxRoot, files) == Walk(entries, 0, maxRoot, map[])
    {
      if count >= maxRoot {
        files := files[TruncatedKey := TruncatedFlag];
        exhausted := false;
        break;
      }
      var entry := entries[i];
      match entry.stat {
        case StatOk(info) =>
          files := files[entry.name := Entry(info)];
          count := count + 1;
        case StatFailed(message) =>
          files := files[entry.name := EntryError(message)];
      }
      assert entries[i..][1..] == entries[i + 1..];
      i := i + 1;
    }
    scanError := if exhausted then listing.failure else None;
  }

  // ---------------------------------------------------------------------------
  // What the walk records

  /** The number of entries the walk processes before it stops. */
  function Processed(entries: seq<DirEntry>, count: int, maxRoot: int): (p: nat)
    ensures p <= |entries|
    decreases |entries|
  {
    if entries == [] || count >= maxRoot then 0
    else 1 + Processed(entries[1..], count + Success(entries[0]), maxRoot)
  }

  /** The map updates of the processed entries, in order. */
  function Fill(acc: map<string, EnumValue>, s: seq<DirEntry>): map<string, EnumValue>
    decreases |s|
  {
    if s == [] then acc else Fill(acc[s[0].name := ValueOf(s[0])], s[1..])
  }

  predicate HasMarker(files: map<string, EnumValue>) {
    TruncatedKey in files && files[TruncatedKey] == TruncatedFlag
  }

  function Names(s: seq<DirEntry>): set<string> {
    set k | 0 <= k < |s| :: s[k].name
  }

  lemma SuccessesCons(s: seq<DirEntry>, k: nat)
    requires 0 < k <= |s|
    ensures Successes(s[..k]) == Success(s[0]) + Successes(s[1..][..k - 1])
  {
    assert s[..k][1..] == s[1..][..k - 1];
  }

  /**
   * The walk stops at the first entry met after `MAX_ROOT` successes: entries whose
   * stat fails do not count toward the limit.
   */
  lemma {:induction false} ProcessedIsFirstAtLimit(entries: seq<DirEntry>, count: int, maxRoot: int)
    ensures var p := Processed(entries, count, maxRoot);
      && (forall k :: 0 <= k < p ==> count + Successes(entries[..k]) < maxRoot)
      && (p < |entries| ==> count + Successes(entries[..p]) >= maxRoot)
    decreases |entries|
  {
    var p := Processed(entries, count, maxRoot);
    if entries != [] && count < maxRoot {
      var c' := count + Success(entries[0]);
      ProcessedIsFirstAtLimit(entries[1..], c', maxRoot);
      forall k | 0 <= k < p ensures count + Successes(entries[..k]) < maxRoot {
        if k > 0 {
          SuccessesCons(entries, k);
        }
      }
      if p < |entries| {
        SuccessesCons(entries, p);
      }
    }
  }

  /** The walk is exactly the processed entries' updates, plus the marker when it stopped early. */
  lemma {:induction false} WalkShape(entries: seq<DirEntry>, count: int, maxRoot: int, acc: map<string, EnumValue>)
    ensures var p := Processed(entries, count, maxRoot);
      && Walk(entries, count, maxRoot, acc).exhausted == (p == |entries|)
      && Walk(entries, count, maxRoot, acc).files
         == if p == |entries| then Fill(acc, entries[..p]) else Fill(acc, entries[..p])[TruncatedKey := TruncatedFlag]
    decreases |entries|
  {
    if entries != [] && count < maxRoot {
      var e := entries[0];
      WalkShape(entries[1..], count + Success(e), maxRoot, acc[e.name := ValueOf(e)]);
      var p := Processed(entries, count, maxRoot);
      assert entries[..p][1..] == entries[1..][..p - 1];
    }
  }

  lemma {:induction false} FillKeys(acc: map<string, EnumValue>, s: seq<DirEntry>)
    ensures Fill(acc, s).Keys == acc.Keys + Names(s)
    decreases |s|
  {
    if s != [] {
      FillKeys(acc[s[0].name := ValueOf(s[0])], s[1..]);
      assert Names(s) == {s[0].name} + Names(s[1..]) by {
        forall n | n in Names(s) ensures n in {s[0].name} + Names(s[1..]) {
          var k :| 0 <= k < |s| && s[k].name == n;
          if k > 0 { assert s[1..][k - 1].name == n; }
        }
      }
    }
  }

  /** A name written by the fill holds the value of the last entry that carries it. */
  lemma {:induction false} FillValue(acc: map<string, EnumValue>, s: seq<DirEntry>, j: nat)
    requires j < |s|
    requires forall k :: j < k < |s| ==> s[k].name != s[j].name
    ensures s[j].name in Fill(acc, s) && Fill(acc, s)[s[j].name] == ValueOf(s[j])
    decreases |s|
  {
    var acc' := acc[s[0].name := ValueOf(s[0])];
    if j == 0 {
      FillKeep(acc', s[1..], s[0].name);
    } else {
      FillValue(acc', s[1..], j - 1);
    }
  }

  lemma {:induction false} FillKeep(acc: map<string, EnumValue>, s: seq<DirEntry>, n: string)
    requires n in acc
    requires forall k :: 0 <= k < |s| ==> s[k].name != n
    ensures n in Fill(acc, s) && Fill(acc, s)[n] == acc[n]
    decreases |s|
  {
    if s != [] {
      FillKeep(acc[s[0].name := ValueOf(s[0])], s[1..], n);
    }
  }

  lemma {:induction false} FillHasNoMarker(acc: map<string, EnumValue>, s: seq<DirEntry>)
    requires !HasMarker(acc)
    ensures !HasMarker(Fill(acc, s))
    decreases |s|
  {
    if s != [] {
      FillHasNoMarker(acc[s[0].name := ValueOf(s[0])], s[1..]);
    }
  }

  /**
   * The enumeration map: cleared, then every processed entry's name, then the
   * marker exactly when an entry remains after `MAX_ROOT` successful stats.
   * The scan error is kept only when the walk ran out of entries.
   */
  lemma EnumerateRecords(listing: Listing, maxRoot: int)
    ensures var r := Enumerate(listing, maxRoot);
      var e := listing.entries;
      var p := Processed(e, 0, maxRoot);
      && (HasMarker(r.files) <==> p < |e|)
      && (p < |e| ==> Successes(e[..p]) >= maxRoot)
      && (forall k :: 0 <= k < p ==> Successes(e[..k]) < maxRoot)
      && r.files.Keys == Names(e[..p]) + (if p < |e| then {TruncatedKey} else {})
      && (r.scanError.Some? <==> (p == |e| && listing.failure.Some?))
  {
    var e := listing.entries;
    var p := Processed(e, 0, maxRoot);
    WalkShape(e, 0, maxRoot, map[]);
    ProcessedIsFirstAtLimit(e, 0, maxRoot);
    FillKeys(map[], e[..p]);
    FillHasNoMarker(map[], e[..p]);
  }

  /**
   * An entry processed before the walk stopped is recorded with its stat result
   * or, when the stat failed, with an error marker (names in one directory are distinct).
   */
  lemma EnumerateRecordsEntry(listing: Listing, maxRoot: int, j: nat)
    requires j < Processed(listing.entries, 0, maxRoot)
    requires forall k :: 0 <= k < |listing.entries| && k != j ==> listing.entries[k].name != listing.entries[j].name
    requires listing.entries[j].name == TruncatedKey ==> Processed(listing.entries, 0, maxRoot) == |listing.entries|
    ensures var files := Enumerate(listing, maxRoot).files;
      var e := listing.entries[j];
      && e.name in files
      && (e.stat.StatOk? ==> files[e.name] == Entry(e.stat.info))
      && (e.stat.StatFailed? ==> files[e.name] == EntryError(e.stat.message))
  {
    var e := listing.entries;
    var p := Processed(e, 0, maxRoot);
    WalkShape(e, 0, maxRoot, map[]);
    FillValue(map[], e[..p], j);
  }

  function StatKeys(m: map<string, EnumValue>): set<string> {
    set k | k in m && m[k].Entry?
  }

  lemma {:induction false} SubsetSize(a: set<string>, b: set<string>)
    requires a <= b
    ensures |a| <= |b|
    decreases |a|
  {
    if a != {} {
      var x :| x in a;
      SubsetSize(a - {x}, b - {x});
    }
  }

  lemma {:induction false} WalkBound(entries: seq<DirEntry>, count: int, maxRoot: int, acc: map<string, EnumValue>)
    requires 0 <= count && |StatKeys(acc)| <= count
    ensures |StatKeys(Walk(entries, count, maxRoot, acc).files)| <= if count < maxRoot then maxRoot else count
    decreases |entries|
  {
    if entries == [] {
    } else if count >= maxRoot {
      SubsetSize(StatKeys(acc[TruncatedKey := TruncatedFlag]), StatKeys(acc));
    } else {
      var e := entries[0];
      var acc' := acc[e.name := ValueOf(e)];
      if e.stat.StatOk? {
        SubsetSize(StatKeys(acc'), StatKeys(acc) + {e.name});
        assert |StatKeys(acc) + {e.name}| <= |StatKeys(acc)| + 1;
      } else {
        SubsetSize(StatKeys(acc'), StatKeys(acc));
      }
      WalkBound(entries[1..], count + Success(e), maxRoot, acc');
    }
  }

  /** At most `MAX_ROOT` successfully stat'ed entries are recorded (none when it is not positive). */
  lemma EnumerateBound(listing: Listing, maxRoot: int)
    ensures |StatKeys(Enumerate(listing, maxRoot).files)| <= if maxRoot < 0 then 0 else maxRoot
  {
    assert StatKeys(map[]) == {};
    WalkBound(listing.entries, 0, maxRoot, map[]);
  }

  lemma {:induction false} AllSuccessesCount(s: seq<DirEntry>)
    requires forall k :: 0 <= k < |s| ==> s[k].stat.StatOk?
    ensures Successes(s) == |s|
    decreases |s|
  {
    if s != [] {
      AllSuccessesCount(s[1..]);
    }
  }

  /**
   * A root with more entries than `MAX_ROOT`, every stat succeeding, yields exactly
   * the first `MAX_ROOT` entries and the truncation marker.
   */
  lemma LargeRootIsTruncated(listing: Listing, maxRoot: int)
    requires 0 <= maxRoot < |listing.entries|
    requires forall k :: 0 <= k < |listing.entries| ==> listing.entries[k].stat.StatOk?
    ensures Processed(listing.entries, 0, maxRoot) == maxRoot
    ensures HasMarker(Enumerate(listing, maxRoot).files)
    ensures Enumerate(listing, maxRoot).files.Keys == Names(listing.entries[..maxRoot]) + {TruncatedKey}
    ensures Enumerate(listing, maxRoot).scanError == None
  {
    var e := listing.entries;
    var p := Processed(e, 0, maxRoot);
    EnumerateRecords(listing, maxRoot);
    AllSuccessesCount(e[..maxRoot]);
    if p < maxRoot {
      AllSuccessesCount(e[..p]);
    }
  }
}

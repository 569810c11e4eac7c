/**
 * The bounded alert store both receivers keep in memory: a rolling window of
 * at most `maxStore` alerts with ids handed out from a counter. The audit
 * receiver also persists the window as a snapshot file, reloads it on
 * request and rotates it into a time-stamped archive.
 */
module Store {
  import opened Wrappers
  import opened Records

  /** The window size the receiver uses: its store is `new AlertStore(MaxStore)`. */
  const MaxStore := 500

  /** A window size; eviction needs room for at least one alert. */
  type Capacity = n: int | n >= 1 witness 1

  /** What the snapshot file holds: the alerts and the next id to hand out. */
  datatype Snapshot = Snapshot(alerts: seq<Alert>, nextID: int)

  /** The state of a freshly started receiver. */
  const Empty := Snapshot([], 1)

  /** Ids strictly increase along the window and all lie below the counter. */
  predicate IdsIncreasing(s: Snapshot) {
    && (forall i, j :: 0 <= i < j < |s.alerts| ==> s.alerts[i].id < s.alerts[j].id)
    && (forall i :: 0 <= i < |s.alerts| ==> s.alerts[i].id < s.nextID)
  }

  /**
   * One append: when the window is full its oldest alert (index 0) is
   * dropped; the record goes last, stamped with the current counter, and the
   * counter moves on by one.
   */
  function Appended(s: Snapshot, cap: Capacity, rec: Alert): (r: Snapshot)
    ensures r.nextID == s.nextID + 1
    ensures |r.alerts| > 0 && r.alerts[|r.alerts| - 1] == rec.(id := s.nextID)
    ensures |s.alerts| >= cap ==> r.alerts[..|r.alerts| - 1] == s.alerts[1..]
    ensures |s.alerts| < cap ==> r.alerts[..|r.alerts| - 1] == s.alerts
    ensures |s.alerts| >= cap ==> |r.alerts| == |s.alerts|
    ensures |s.alerts| <= cap ==> |r.alerts| <= cap
  {
    var kept := if |s.alerts| >= cap then s.alerts[1..] else s.alerts;
    var r := Snapshot(kept + [rec.(id := s.nextID)], s.nextID + 1);
    assert r.alerts[..|r.alerts| - 1] == kept;
    r
  }

  /** An append keeps ids strictly increasing along the window and below the counter. */
  lemma AppendKeepsIdsIncreasing(s: Snapshot, cap: Capacity, rec: Alert)
    requires IdsIncreasing(s)
    ensures IdsIncreasing(Appended(s, cap, rec))
  {
    var r := Appended(s, cap, rec);
    var n := |r.alerts|;
    forall i | 0 <= i < n - 1
      ensures r.alerts[i].id < s.nextID
    {
      assert r.alerts[i] == r.alerts[..n - 1][i];
    }
  }

  /** A run of appends, in order. */
  function AppendAll(s: Snapshot, cap: Capacity, recs: seq<Alert>): Snapshot
  {
    if recs == [] then s
    else Appended(AppendAll(s, cap, recs[..|recs| - 1]), cap, recs[|recs| - 1])
  }

  /** The last append of a run comes after all the others. */
  lemma AppendAllLast(s: Snapshot, cap: Capacity, recs: seq<Alert>)
    requires recs != []
    ensures AppendAll(s, cap, recs) == Appended(AppendAll(s, cap, recs[..|recs| - 1]), cap, recs[|recs| - 1])
  {
  }

  /** `recs[lo..hi]`, each stamped with its one-based position in `recs`. */
  function Stamped(recs: seq<Alert>, lo: nat, hi: nat): (r: seq<Alert>)
    requires lo <= hi <= |recs|
    ensures |r| == hi - lo
    ensures forall k :: 0 <= k < |r| ==> r[k] == recs[lo + k].(id := lo + k + 1)
  {
    seq(hi - lo, k requires 0 <= k < hi - lo => recs[lo + k].(id := lo + k + 1))
  }

  /** Stamping only looks at the records it covers. */
  lemma StampedPrefix(recs: seq<Alert>, m: nat, lo: nat, hi: nat)
    requires lo <= hi <= m <= |recs|
    ensures Stamped(recs[..m], lo, hi) == Stamped(recs, lo, hi)
  {
  }

  /** Dropping the first stamped record moves the window's start by one. */
  lemma StampedDropFirst(recs: seq<Alert>, lo: nat, hi: nat)
    requires lo < hi <= |recs|
    ensures Stamped(recs, lo, hi)[1..] == Stamped(recs, lo + 1, hi)
  {
  }

  /** Stamping the next record extends the window's end by one. */
  lemma StampedExtend(recs: seq<Alert>, lo: nat, hi: nat)
    requires lo <= hi < |recs|
    ensures Stamped(recs, lo, hi) + [recs[hi].(id := hi + 1)] == Stamped(recs, lo, hi + 1)
  {
  }

  /** The start of the window after `n` appends to an empty store. */
  function WindowStart(cap: Capacity, n: nat): (lo: nat)
    ensures lo <= n && n - lo <= cap
    ensures n <= cap ==> lo == 0
    ensures n > cap ==> n - lo == cap
  {
    if n > cap then n - cap else 0
  }

  /** One append moves the window of the first `n - 1` records on to the first `n`. */
  lemma AppendStamped(cap: Capacity, recs: seq<Alert>, n: nat)
    requires 1 <= n <= |recs|
    ensures Appended(Snapshot(Stamped(recs, WindowStart(cap, n - 1), n - 1), n), cap, recs[n - 1])
            == Snapshot(Stamped(recs, WindowStart(cap, n), n), n + 1)
  {
    var lo', lo := WindowStart(cap, n - 1), WindowStart(cap, n);
    var prev := Stamped(recs, lo', n - 1);
    var kept := if |prev| >= cap then prev[1..] else prev;
    if n > cap {
      StampedDropFirst(recs, lo', n - 1);
    }
    assert kept == Stamped(recs, lo, n - 1);
    StampedExtend(recs, lo, n - 1);
  }

  /**
   * The rolling window: starting from an empty store, after any run of
   * appends the store holds exactly the last `cap` records (all of them when
   * there are fewer), in arrival order, with ids 1, 2, ... by arrival, and
   * the counter one past the number of records seen.
   */
  lemma {:induction false} AppendAllWindow(cap: Capacity, recs: seq<Alert>)
    ensures AppendAll(Empty, cap, recs) == Snapshot(Stamped(recs, WindowStart(cap, |recs|), |recs|), |recs| + 1)
  {
    if recs != [] {
      var n := |recs|;
      var init := recs[..n - 1];
      AppendAllWindow(cap, init);
      assert |init| == n - 1;
      StampedPrefix(recs, n - 1, WindowStart(cap, n - 1), n - 1);
      var prev := Snapshot(Stamped(recs, WindowStart(cap, n - 1), n - 1), n);
      assert AppendAll(Empty, cap, init) == prev;
      AppendAllLast(Empty, cap, recs);
      AppendStamped(cap, recs, n);
    }
  }

  /** What reading the snapshot file gave. */
  datatype HistoryRead =
    | Missing
    | ReadFailed(readErr: string)
    | Undecodable(decodeErr: string)
    | Loaded(snap: Snapshot)

  /**
   * The state after `loadHistory`: a missing or unreadable file leaves it
   * as it was; a decoded snapshot replaces the window wholesale (no cap is
   * applied) and sets the counter from the file when it is positive, else
   * one past the number of alerts loaded.
   */
  function Reloaded(s: Snapshot, f: HistoryRead): (r: Snapshot)
    ensures !f.Loaded? ==> r == s
    ensures f.Loaded? ==> r.alerts == f.snap.alerts && r.nextID >= 1
    ensures f.Loaded? && f.snap.nextID > 0 ==> r.nextID == f.snap.nextID
    ensures f.Loaded? && f.snap.nextID <= 0 ==> r.nextID == |f.snap.alerts| + 1
  {
    match f
    case Loaded(snap) =>
      Snapshot(snap.alerts, if snap.nextID > 0 then snap.nextID else |snap.alerts| + 1)
    case _ => s
  }

  /** The error `loadHistory` reports: none for a missing file. */
  function ReloadError(f: HistoryRead): (r: Option<string>)
    ensures r.None? <==> f.Missing? || f.Loaded?
  {
    match f
    case ReadFailed(e) => Some(e)
    case Undecodable(e) => Some(e)
    case _ => None
  }

  /** Reloading a saved snapshot gives back exactly the state that was saved. */
  lemma ReloadSaved(s: Snapshot, saved: Snapshot)
    requires saved.nextID >= 1
    ensures Reloaded(s, Loaded(saved)) == saved
  {
  }

  /**
   * A reloaded window is not trimmed: an oversized file stays oversized, and
   * the appends after it only keep its size, never bring it back under the cap.
   */
  lemma ReloadKeepsOversize(s: Snapshot, cap: Capacity, big: Snapshot, rec: Alert)
    requires |big.alerts| > cap
    ensures |Reloaded(s, Loaded(big)).alerts| > cap
    ensures |Appended(Reloaded(s, Loaded(big)), cap, rec).alerts| == |big.alerts|
  {
  }

  /** One file write: the path and the snapshot written there. */
  datatype Write = Write(path: string, snap: Snapshot)

  /** A file system, as the snapshots its files hold. */
  type Disk = map<string, Snapshot>

  /** The disk after the writes that succeeded, in order. */
  function Apply(disk: Disk, writes: seq<Write>): (r: Disk)
    ensures forall p :: p in disk ==> p in r
    ensures forall w :: w in writes ==> w.path in r
  {
    if writes == [] then disk
    else Apply(disk, writes[..|writes| - 1])[writes[|writes| - 1].path := writes[|writes| - 1].snap]
  }

  /** The live snapshot file. */
  const DataFileName := "alerts_history.json"

  /** The archive file of a rotation, named by its time stamp. */
  function ArchiveName(stamp: string): (r: string)
    ensures |r| == |stamp| + 20 && r[15..15 + |stamp|] == stamp
    ensures "alerts_history_" <= r && r[|r| - 5..] == ".json"
  {
    "alerts_history_" + stamp + ".json"
  }

  /** No archive name is the live file's name. */
  lemma ArchiveNameIsNotDataFile(stamp: string)
    ensures ArchiveName(stamp) != DataFileName
  {
    assert ArchiveName(stamp)[14] == '_';
    assert DataFileName[14] == '.';
  }

  /**
   * The writes `rotateHistory` makes as written: the archive goes to the new
   * file, the data file is switched to that same file, and the save that
   * follows writes the empty state there.
   */
  function RotateWritesAsWritten(s: Snapshot, newFile: string, saved: bool): seq<Write>
  {
    [Write(newFile, s)] + (if saved then [Write(newFile, Empty)] else [])
  }

  /**
   * The writes of a rotation that keeps its archive: the archive goes to the
   * new file and the empty state to the live file.
   */
  function RotateWrites(s: Snapshot, dataFile: string, newFile: string, saved: bool): seq<Write>
  {
    [Write(newFile, s)] + (if saved then [Write(dataFile, Empty)] else [])
  }

  /**
   * As written, a rotation whose save succeeds leaves the archive file
   * holding the empty state, whatever the store held before.
   */
  lemma RotateAsWrittenLosesArchive(disk: Disk, s: Snapshot, newFile: string)
    ensures Apply(disk, RotateWritesAsWritten(s, newFile, true))[newFile] == Empty
  {
    var ws := RotateWritesAsWritten(s, newFile, true);
    assert ws[..|ws| - 1] == [Write(newFile, s)];
  }

  /** For instance, a store holding one alert archives nothing. */
  lemma RotateAsWrittenExample(disk: Disk)
    ensures var s := Snapshot([EmptyAlert.(id := 1)], 2);
            Apply(disk, RotateWritesAsWritten(s, ArchiveName("20260215-010203"), true))[ArchiveName("20260215-010203")] != s
  {
    RotateAsWrittenLosesArchive(disk, Snapshot([EmptyAlert.(id := 1)], 2), ArchiveName("20260215-010203"));
  }

  /**
   * A rotation that keeps its archive: the archive file holds the state
   * before the rotation, and reloading it restores that state; the live
   * file holds the empty state when the save succeeds.
   */
  lemma RotateKeepsArchive(disk: Disk, s: Snapshot, dataFile: string, newFile: string, saved: bool)
    requires newFile != dataFile && s.nextID >= 1
    ensures Apply(disk, RotateWrites(s, dataFile, newFile, saved))[newFile] == s
    ensures saved ==> Apply(disk, RotateWrites(s, dataFile, newFile, saved))[dataFile] == Empty
    ensures forall t :: Reloaded(t, Loaded(Apply(disk, RotateWrites(s, dataFile, newFile, saved))[newFile])) == s
  {
    var ws := RotateWrites(s, dataFile, newFile, saved);
    assert ws[..1] == [Write(newFile, s)];
    if saved {
      assert ws[..|ws| - 1] == [Write(newFile, s)];
    }
  }

  /**
   * The store itself. `alerts`, `nextID` and `dataFile` are the receiver's
   * package-level variables; every method runs as one step, as it does under
   * the receiver's mutex.
   */
  class AlertStore {
    var alerts: seq<Alert>
    var nextID: int
    var dataFile: string
    const maxStore: Capacity

    /** The state a snapshot file records. */
    function State(): Snapshot
      reads this
    {
      Snapshot(alerts, nextID)
    }

    /** Ids handed out are positive: the counter never falls below 1. */
    predicate Valid()
      reads this
    {
      nextID >= 1
    }

    /**
     * A store as the receiver starts: empty, ids from 1, saving to the live
     * file. The receiver's own store is `new AlertStore(MaxStore)`.
     */
    constructor (capacity: Capacity)
      ensures Valid()
      ensures State() == Empty && maxStore == capacity && dataFile == DataFileName
    {
      alerts := [];
      nextID := 1;
      maxStore := capacity;
      dataFile := DataFileName;
    }

    /** The append inside both webhook handlers; returns the id given to the record. */
    method Append(rec: Alert) returns (id: int)
      requires Valid()
      modifies this
      ensures Valid()
      ensures State() == Appended(old(State()), maxStore, rec)
      ensures id == old(nextID) && dataFile == old(dataFile)
    {
      if |alerts| >= maxStore {
        alerts := alerts[1..];
      }
      id := nextID;
      nextID := nextID + 1;
      alerts := alerts + [rec.(id := id)];
    }

    /** `saveHistoryLocked`: the write it makes (whether it succeeds is the caller's input). */
    method Save() returns (w: Write)
      ensures w.path == dataFile && w.snap == State()
    {
      w := Write(dataFile, Snapshot(alerts, nextID));
    }

    /** `loadHistory`, given what reading `dataFile` gave. */
    method Reload(f: HistoryRead) returns (err: Option<string>)
      requires Valid()
      modifies this
      ensures Valid()
      ensures State() == Reloaded(old(State()), f)
      ensures err == ReloadError(f) && dataFile == old(dataFile)
    {
      match f {
        case Missing =>
          return None;
        case ReadFailed(e) =>
          return Some(e);
        case Undecodable(e) =>
          return Some(e);
        case Loaded(snap) =>
          alerts := snap.alerts;
          if snap.nextID > 0 {
            nextID := snap.nextID;
          } else {
            nextID := |alerts| + 1;
          }
          return None;
      }
    }

    /**
     * `rotateHistory` as written, given whether the archive write and the
     * save after it succeed; returns whether it rotated and the writes that
     * reached the disk. A failed archive write changes nothing. Otherwise
     * the store is emptied, ids restart at 1 and the data file becomes the
     * archive file, even when the save fails.
     */
    method RotateAsWritten(stamp: string, archived: bool, saved: bool) returns (ok: bool, writes: seq<Write>)
      requires Valid()
      modifies this
      ensures Valid()
      ensures !archived ==> !ok && writes == [] && State() == old(State()) && dataFile == old(dataFile)
      ensures archived ==> ok && State() == Empty && dataFile == ArchiveName(stamp)
      ensures archived ==> writes == RotateWritesAsWritten(old(State()), ArchiveName(stamp), saved)
    {
      var newFile := ArchiveName(stamp);
      if !archived {
        return false, [];
      }
      writes := [Write(newFile, State())];
      alerts := [];
      nextID := 1;
      dataFile := newFile;
      var w := Save();
      if saved {
        writes := writes + [w];
      }
      ok := true;
    }

    /**
     * A rotation that keeps its archive: the same reset, but the live file
     * stays the data file, so the save writes the empty state there.
     */
    method Rotate(stamp: string, archived: bool, saved: bool) returns (ok: bool, writes: seq<Write>)
      requires Valid()
      modifies this
      ensures Valid()
      ensures !archived ==> !ok && writes == [] && State() == old(State())
      ensures archived ==> ok && State() == Empty
      ensures dataFile == old(dataFile)
      ensures archived ==> writes == RotateWrites(old(State()), dataFile, ArchiveName(stamp), saved)
      ensures archived && dataFile != ArchiveName(stamp) ==>
                forall disk: Disk :: Apply(disk, writes)[ArchiveName(stamp)] == old(State())
    {
      var newFile := ArchiveName(stamp);
      if !archived {
        return false, [];
      }
      var before := State();
      writes := [Write(newFile, before)];
      alerts := [];
      nextID := 1;
      var w := Save();
      if saved {
        writes := writes + [w];
      }
      ok := true;
      if dataFile != newFile {
        forall disk: Disk
          ensures Apply(disk, writes)[newFile] == before
        {
          RotateKeepsArchive(disk, before, dataFile, newFile, saved);
        }
      }
    }
  }
}

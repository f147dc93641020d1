/**
 * The temp-file janitor: an age-based sweep of the temp directory, run once
 * at start-up and then on every tick until stopped.
 */
module Cleanup {
  import opened TempFiles

  /** Nanoseconds in an hour (time.Hour). */
  const NanosPerHour: int := 3600 * 1000000000

  /** time.Duration(maxAgeHours) * time.Hour, in nanoseconds. */
  function MaxAge(maxAgeHours: int): int {
    maxAgeHours * NanosPerHour
  }

  /**
   * What the walk reports for one entry under the temp directory: whether
   * its stat succeeded, whether it is a directory, its modification time
   * (nanoseconds) and size, and whether removing it would succeed.
   */
  datatype WalkEntry = WalkEntry(path: string, statOk: bool, isDir: bool, modTime: int, size: int, removeOk: bool)

  /** An entry the sweep tries to delete: a readable non-directory strictly older than the maximum age. */
  predicate Expired(e: WalkEntry, now: int, maxAge: int) {
    e.statOk && !e.isDir && now - e.modTime > maxAge
  }

  /** The entries the sweep deletes, in walk order. */
  function Deleted(entries: seq<WalkEntry>, now: int, maxAge: int): seq<WalkEntry>
    decreases |entries|
  {
    if entries == [] then []
    else
      var rest := Deleted(entries[..|entries| - 1], now, maxAge);
      var e := entries[|entries| - 1];
      if Expired(e, now, maxAge) && e.removeOk then rest + [e] else rest
  }

  /** The bytes freed by deleting `es`. */
  function TotalSize(es: seq<WalkEntry>): int
    decreases |es|
  {
    if es == [] then 0 else TotalSize(es[..|es| - 1]) + es[|es| - 1].size
  }

  function PathsOf(es: seq<WalkEntry>): set<string> {
    set e | e in es :: e.path
  }

  /** Walking one more entry. */
  lemma DeletedStep(entries: seq<WalkEntry>, i: nat, now: int, maxAge: int)
    requires i < |entries|
    ensures var e := entries[i];
            Deleted(entries[..i + 1], now, maxAge)
            == if Expired(e, now, maxAge) && e.removeOk then Deleted(entries[..i], now, maxAge) + [e]
               else Deleted(entries[..i], now, maxAge)
  {
    assert entries[..i + 1][..i] == entries[..i];
  }

  lemma PathsOfSnoc(es: seq<WalkEntry>, e: WalkEntry)
    ensures PathsOf(es + [e]) == PathsOf(es) + {e.path}
  {
    assert forall x :: x in es + [e] <==> x in es || x == e;
  }

  /**
   * An entry is deleted iff the walk reached it, it is an expired file (so
   * never a directory, never one whose stat failed, never one exactly at the
   * age limit) and its removal succeeded.
   */
  lemma {:induction false} DeletedIff(entries: seq<WalkEntry>, now: int, maxAge: int, e: WalkEntry)
    ensures e in Deleted(entries, now, maxAge) <==> e in entries && Expired(e, now, maxAge) && e.removeOk
    decreases |entries|
  {
    if entries != [] {
      var init := entries[..|entries| - 1];
      DeletedIff(init, now, maxAge, e);
      assert entries == init + [entries[|entries| - 1]];
    }
  }

  /** A sweep never deletes more entries than the walk visits, and frees no negative space. */
  lemma {:induction false} DeletedBounds(entries: seq<WalkEntry>, now: int, maxAge: int)
    requires forall i :: 0 <= i < |entries| ==> entries[i].size >= 0
    ensures |Deleted(entries, now, maxAge)| <= |entries|
    ensures TotalSize(Deleted(entries, now, maxAge)) >= 0
    decreases |entries|
  {
    if entries != [] {
      DeletedBounds(entries[..|entries| - 1], now, maxAge);
    }
  }

  /**
   * The janitor. `running` says the ticker loop exists; `stopped` that the
   * stop channel has been closed; `sweeps` counts the sweeps run so far.
   */
  class Scheduler {
    const tempDir: string
    const intervalMinutes: int
    const maxAgeHours: int
    const temp: TempDir
    var running: bool
    var stopped: bool
    var sweeps: nat

    /** The ticker runs only after the initial sweep. */
    predicate Valid()
      reads this
    {
      running ==> sweeps >= 1
    }

    /** NewScheduler */
    constructor (tempDir: string, intervalMinutes: int, maxAgeHours: int, temp: TempDir)
      ensures Valid() && !running && !stopped && sweeps == 0
      ensures this.tempDir == tempDir && this.intervalMinutes == intervalMinutes
      ensures this.maxAgeHours == maxAgeHours && this.temp == temp
    {
      this.tempDir := tempDir;
      this.intervalMinutes := intervalMinutes;
      this.maxAgeHours := maxAgeHours;
      this.temp := temp;
      running, stopped, sweeps := false, false, 0;
    }

    /**
     * cleanOldFiles at time `now` over the entries the walk visits: delete
     * every expired file whose removal succeeds, count the deletions and the
     * bytes freed, and report whether the summary line is logged.
     */
    method CleanOldFiles(now: int, entries: seq<WalkEntry>) returns (deletedCount: int, deletedSize: int, summary: bool)
      modifies temp
      ensures deletedCount == |Deleted(entries, now, MaxAge(maxAgeHours))|
      ensures deletedSize == TotalSize(Deleted(entries, now, MaxAge(maxAgeHours)))
      ensures temp.files == old(temp.files) - PathsOf(Deleted(entries, now, MaxAge(maxAgeHours)))
      ensures summary <==> deletedCount > 0
    {
      var maxAge := MaxAge(maxAgeHours);
      deletedCount, deletedSize := 0, 0;
      var i := 0;
      while i < |entries|
        invariant 0 <= i <= |entries|
        invariant deletedCount == |Deleted(entries[..i], now, maxAge)|
        invariant deletedSize == TotalSize(Deleted(entries[..i], now, maxAge))
        invariant temp.files == old(temp.files) - PathsOf(Deleted(entries[..i], now, maxAge))
      {
        var e := entries[i];
        DeletedStep(entries, i, now, maxAge);
        ghost var done := Deleted(entries[..i], now, maxAge);
        if e.statOk && !e.isDir {
          var age := now - e.modTime;
          if age > maxAge {
            var size := e.size;
            if e.removeOk {
              PathsOfSnoc(done, e);
              temp.files := temp.files - {e.path};
              deletedCount := deletedCount + 1;
              deletedSize := deletedSize + size;
              assert Deleted(entries[..i + 1], now, maxAge) == done + [e];
              assert TotalSize(done + [e]) == TotalSize(done) + size by {
                assert (done + [e])[..|done|] == done;
                assert (done + [e])[|done|] == e;
              }
            }
          }
        }
        i := i + 1;
      }
      assert entries[..i] == entries;
      summary := deletedCount > 0;
    }

    /** Start: one sweep straight away, then the ticker loop. */
    method Start(now: int, entries: seq<WalkEntry>) returns (deletedCount: int, deletedSize: int, summary: bool)
      requires Valid() && !running && !stopped
      modifies this, temp
      ensures Valid() && running && !stopped && sweeps == old(sweeps) + 1
      ensures deletedCount == |Deleted(entries, now, MaxAge(maxAgeHours))|
      ensures temp.files == old(temp.files) - PathsOf(Deleted(entries, now, MaxAge(maxAgeHours)))
    {
      deletedCount, deletedSize, summary := CleanOldFiles(now, entries);
      sweeps := sweeps + 1;
      running := true;
    }

    /** One tick of the ticker: another sweep. */
    method Tick(now: int, entries: seq<WalkEntry>) returns (deletedCount: int, deletedSize: int, summary: bool)
      requires Valid() && running && !stopped
      modifies this, temp
      ensures Valid() && running && !stopped && sweeps == old(sweeps) + 1
      ensures deletedCount == |Deleted(entries, now, MaxAge(maxAgeHours))|
      ensures temp.files == old(temp.files) - PathsOf(Deleted(entries, now, MaxAge(maxAgeHours)))
    {
      deletedCount, deletedSize, summary := CleanOldFiles(now, entries);
      sweeps := sweeps + 1;
    }

    /** Stop: close the stop channel; the ticker loop ends. Closing it twice would panic. */
    method Stop()
      requires Valid() && !stopped
      modifies this
      ensures Valid() && stopped && !running && sweeps == old(sweeps)
    {
      stopped := true;
      running := false;
    }
  }
}

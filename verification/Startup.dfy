/** What the service does with jobs and staging directories when it starts
    (internal/worker/orchestrator.go, internal/files/layout.go). */
module Startup {
  import opened Wrappers
  import opened Jobs
  import opened Assets
  import opened Content
  import opened Store
  import opened Remove
  import T = TimeText

  predicate NeedsWakeup(s: JobState)
  {
    || s == SubmitPending || s == SubmitRetry || s == RemoteQueued || s == RemoteActive
    || s == LocalDownloadPending || s == LocalDownloading || s == LocalVerify || s == RemovePending
  }

  /** The states a start-up wakes jobs in are those that some worker claims, and no two workers claim the
      same; every other open job is one just accepted or completed. */
  lemma WokenAreClaimed(s: JobState)
    ensures NeedsWakeup(s) <==> exists w :: s in ClaimSet(w)
    ensures NeedsWakeup(s) <==> !Closed(s) && s != Accepted && s != Completed
    ensures forall v, w | s in ClaimSet(v) && s in ClaimSet(w) :: v == w
  {
    assert s in ClaimSet(Submitter) || s in ClaimSet(Poller) || s in ClaimSet(Downloader) || s in ClaimSet(Finalizer)
           || s in ClaimSet(Remover) || !NeedsWakeup(s);
  }

  predicate Local(s: JobState) { s == LocalDownloadPending || s == LocalDownloading || s == LocalVerify }

  predicate Present(files: Files, path: Option<Path>) { path.Some? && path.value in files }

  /** The job with a staging path, if it had none. */
  function Named(row: Row, roots: Roots): (r: Row)
    ensures r == row.(stagingPath := r.stagingPath)
  {
    if row.stagingPath.None? then row.(stagingPath := Some(roots.staging + [row.id])) else row
  }

  /** What becomes of one open job. */
  function ReconcileWrite(row: Row, roots: Roots, parts: seq<Part>, files: Files, now: T.Time): Option<Write>
  {
    var job := Named(row, roots);
    var done := job.state == Completed || job.state == RemovePending;
    if Present(files, job.completedPath) then (if done then None else Some(SaveState(job, Completed)))
    else if Present(files, job.stagingPath) && Local(job.state) && AllCompleted(parts) then
      Some(SaveState(job.(nextRunAt := Some(now)), LocalVerify))
    else if NeedsWakeup(job.state) && job.nextRunAt.None? then Some(Save(job.(nextRunAt := Some(now))))
    else None
  }

  /** The row of a job after the start-up, whatever its state before. */
  function Reconciled(row: Row, roots: Roots, parts: seq<Part>, files: Files, now: T.Time): Row
  {
    var write := ReconcileWrite(Unclaimed(row), roots, parts, files, now);
    if Closed(row.state) || write.None? then Unclaimed(row) else Unclaimed(write.value.row)
  }

  function WriteLogged(logs: Logs, id: Id, write: Option<Write>): Logs
  {
    if write.None? then logs else Logged(logs, id, write.value.event)
  }

  // Orphaned staging directories.

  /** A directory directly below the staging root that no open job is named after. */
  predicate Orphan(files: Files, staging: Path, valid: set<Id>, e: Path)
  {
    && e in files && |e| == |staging| + 1 && staging <= e && files[e].Dir? && e[|staging|] !in valid
  }

  predicate InOrphan(files: Files, staging: Path, valid: set<Id>, p: Path)
  {
    |p| > |staging| && Orphan(files, staging, valid, p[..|staging| + 1])
  }

  function WithoutOrphans(files: Files, staging: Path, valid: set<Id>): Files
  {
    map p | p in files && !InOrphan(files, staging, valid, p) :: files[p]
  }

  /** Nothing but orphans has gone. */
  ghost predicate OnlyOrphansGone(before: Files, after: Files, staging: Path, valid: set<Id>)
  {
    && (forall p | p in after :: p in before && after[p] == before[p])
    && (forall p | p in before && !InOrphan(before, staging, valid, p) :: p in after)
  }

  method RemoveOrphanStagingDirs(d: Disk, staging: Path, valid: set<Id>) returns (ok: bool)
    modifies d`files
    ensures ok <==> staging in old(d.files) && old(d.files)[staging].Dir?
                    && forall e | Orphan(old(d.files), staging, valid, e) :: e !in d.stuck
    ensures ok ==> d.files == WithoutOrphans(old(d.files), staging, valid)
    ensures ok ==> forall p | p in old(d.files) ::
              p in d.files <==> !(&& |p| > |staging| && staging <= p && p[|staging|] !in valid
                                  && p[..|staging| + 1] in old(d.files) && old(d.files)[p[..|staging| + 1]].Dir?)
    ensures OnlyOrphansGone(old(d.files), d.files, staging, valid)
  {
    if staging !in d.files || d.files[staging].File? {
      return false;
    }
    ghost var start := d.files;
    var entries := set p | p in d.files && Orphan(d.files, staging, valid, p);
    var rest := entries;
    while rest != {}
      invariant rest <= entries && OnlyOrphansGone(start, d.files, staging, valid)
      invariant forall p | p in d.files :: |p| > |staging| ==> p[..|staging| + 1] !in entries - rest
      invariant forall e | e in entries - rest :: e !in d.stuck
      decreases rest
    {
      var e :| e in rest;
      ghost var before := d.files;
      ok := d.RemovePath(e);
      OrphanGone(start, before, d.files, staging, valid, e);
      if !ok {
        return false;
      }
      forall p | p in d.files && |p| > |staging| ensures p[..|staging| + 1] != e {
        assert p[..|staging| + 1] <= p;
      }
      rest := rest - {e};
    }
    AllOrphansGone(start, d.files, staging, valid, entries);
    return true;
  }

  lemma OrphanGone(start: Files, before: Files, after: Files, staging: Path, valid: set<Id>, e: Path)
    requires OnlyOrphansGone(start, before, staging, valid) && TreeEroded(before, after, e)
    requires Orphan(start, staging, valid, e)
    ensures OnlyOrphansGone(start, after, staging, valid)
  {
    forall p | p in start && !InOrphan(start, staging, valid, p) ensures p in after {
      assert e <= p ==> p[..|staging| + 1] == e;
    }
  }

  lemma AllOrphansGone(start: Files, now: Files, staging: Path, valid: set<Id>, entries: set<Path>)
    requires OnlyOrphansGone(start, now, staging, valid)
    requires entries == set p | p in start && Orphan(start, staging, valid, p)
    requires forall p | p in now :: |p| > |staging| ==> p[..|staging| + 1] !in entries
    ensures now == WithoutOrphans(start, staging, valid)
  {
  }

  // The start-up.

  /** UpdateJob or UpdateJobState on an open job: the index lets a job keep its own key. */
  method Update(st: JobStore, job: Row, next: Option<JobState>)
    requires Keyed(st.table) && UniqueOpen(st.table) && job.id in st.table
    requires !Closed(st.table[job.id].state) && job.key == st.table[job.id].key
    modifies st
    ensures Keyed(st.table) && UniqueOpen(st.table)
    ensures var w := if next.Some? then SaveState(job, next.value) else Save(job);
            st.table == old(st.table)[job.id := Unclaimed(w.row)] && st.logs == Logged(old(st.logs), job.id, w.event)
  {
    if next.Some? {
      OwnKeyAllowed(st.table, job.(state := next.value));
      var ok := st.UpdateJobState(job, next.value);
    } else {
      OwnKeyAllowed(st.table, job);
      var ok := st.UpdateJob(job);
    }
  }

  lemma ClaimsDoNotMatter(row: Row, roots: Roots, parts: seq<Part>, files: Files, now: T.Time)
    ensures var r := Reconciled(row, roots, parts, files, now);
            && r == Reconciled(Unclaimed(row), roots, parts, files, now)
            && r.claimedBy.None? && r.id == row.id && (Closed(row.state) ==> r == Unclaimed(row))
  {
  }

  lemma ReconciledInTable(table: Table, id: Id, roots: Roots, parts: seq<Part>, files: Files, now: T.Time)
    requires id in table && !Closed(table[id].state) && table[id].claimedBy.None?
    ensures var write := ReconcileWrite(table[id], roots, parts, files, now);
            table[id := Reconciled(table[id], roots, parts, files, now)] ==
            if write.None? then table else table[id := Unclaimed(write.value.row)]
  {
    hide ReconcileWrite;
    assert Unclaimed(table[id]) == table[id] && table[id := table[id]] == table;
  }

  /** The loop body for one open job. */
  method ReconcileJob(st: JobStore, id: Id, roots: Roots, parts: seq<Part>, files: Files, now: T.Time)
    requires Keyed(st.table) && UniqueOpen(st.table)
    requires id in st.table && !Closed(st.table[id].state) && st.table[id].claimedBy.None?
    modifies st
    ensures Keyed(st.table) && UniqueOpen(st.table)
    ensures st.table == old(st.table)[id := Reconciled(old(st.table)[id], roots, parts, files, now)]
    ensures st.logs == WriteLogged(old(st.logs), id, ReconcileWrite(old(st.table)[id], roots, parts, files, now))
  {
    ReconciledInTable(st.table, id, roots, parts, files, now);
    hide UniqueOpen, AllCompleted, Logged, Reconciled, NeedsWakeup, Local;
    var job := st.table[id];
    if job.stagingPath.None? {
      job := job.(stagingPath := Some(roots.staging + [id]));
    }
    if job.state == Completed || job.state == RemovePending {
      if job.completedPath.Some? && job.completedPath.value in files {
        return;
      }
    }
    if job.completedPath.Some? && job.completedPath.value in files {
      Update(st, job, Some(Completed));
      return;
    }
    if job.stagingPath.value in files && Local(job.state) && AllCompleted(parts) {
      Update(st, job.(nextRunAt := Some(now)), Some(LocalVerify));
      return;
    }
    if NeedsWakeup(job.state) && job.nextRunAt.None? {
      Update(st, job.(nextRunAt := Some(now)), None);
    }
  }

  /** The start-up over the whole table and the staging root. */
  method ReconcileStartup(st: JobStore, d: Disk, roots: Roots, parts: map<Id, seq<Part>>, now: T.Time) returns (ok: bool)
    requires Keyed(st.table) && UniqueOpen(st.table)
    modifies st, d`files
    ensures Keyed(st.table) && UniqueOpen(st.table)
    ensures st.table == AfterStart(old(st.table), roots, parts, old(d.files), now)
    ensures st.table.Keys == old(st.table).Keys
    ensures forall id | id in st.table ::
              && st.table[id] == Reconciled(old(st.table)[id], roots, if id in parts then parts[id] else [],
                                            old(d.files), now)
              && st.table[id].claimedBy.None?
    ensures ok <==> roots.staging in old(d.files) && old(d.files)[roots.staging].Dir?
                    && forall e | Orphan(old(d.files), roots.staging, OpenIds(old(st.table)), e) :: e !in d.stuck
    ensures ok ==> d.files == WithoutOrphans(old(d.files), roots.staging, OpenIds(old(st.table)))
    ensures OnlyOrphansGone(old(d.files), d.files, roots.staging, OpenIds(old(st.table)))
  {
    hide UniqueOpen, AfterStart, OnlyOrphansGone, WithoutOrphans;
    ghost var before := st.table;
    st.ReleaseAllClaims();
    ReleasedStaysUnique(before);
    var open := OpenIds(st.table);
    ReconcileJobs(st, open, roots, parts, d.files, now, before);
    NothingClaimed(before, roots, parts, d.files, now);
    ok := RemoveOrphanStagingDirs(d, roots.staging, open);
  }

  /** The loop over the open jobs. */
  method ReconcileJobs(st: JobStore, open: set<Id>, roots: Roots, parts: map<Id, seq<Part>>, files: Files, now: T.Time,
                       ghost before: Table)
    requires st.table == ReleaseAll(before) && Keyed(st.table) && UniqueOpen(st.table) && open == OpenIds(before)
    modifies st
    ensures Keyed(st.table) && UniqueOpen(st.table) && st.table == AfterStart(before, roots, parts, files, now)
  {
    hide UniqueOpen, Reconciled, Midway, ReleaseAll, AfterStart;
    var rest := open;
    Edges(before, roots, parts, files, now);
    while rest != {}
      invariant rest <= open && Keyed(st.table) && UniqueOpen(st.table)
      invariant st.table == Midway(before, rest, roots, parts, files, now)
      decreases rest
    {
      var id :| id in rest;
      OneReconciled(before, rest, id, roots, parts, files, now);
      ReconcileJob(st, id, roots, PartsOf(parts, id), files, now);
      rest := rest - {id};
    }
  }

  /** The table when the jobs in `rest` are still to be looked at. */
  function Midway(table: Table, rest: set<Id>, roots: Roots, parts: map<Id, seq<Part>>, files: Files, now: T.Time): Table
  {
    map id | id in table :: if id in rest then Unclaimed(table[id])
                            else Reconciled(table[id], roots, PartsOf(parts, id), files, now)
  }

  lemma Edges(table: Table, roots: Roots, parts: map<Id, seq<Part>>, files: Files, now: T.Time)
    ensures Midway(table, OpenIds(table), roots, parts, files, now) == ReleaseAll(table)
    ensures Midway(table, {}, roots, parts, files, now) == AfterStart(table, roots, parts, files, now)
  {
    hide Reconciled;
    forall id | id in table && Closed(table[id].state)
      ensures Reconciled(table[id], roots, PartsOf(parts, id), files, now) == Unclaimed(table[id])
    {
      ClaimsDoNotMatter(table[id], roots, PartsOf(parts, id), files, now);
    }
  }

  lemma OneReconciled(table: Table, rest: set<Id>, id: Id, roots: Roots, parts: map<Id, seq<Part>>, files: Files, now: T.Time)
    requires id in rest && rest <= OpenIds(table)
    ensures var mid := Midway(table, rest, roots, parts, files, now);
            && id in mid && !Closed(mid[id].state) && mid[id].claimedBy.None?
            && mid[id := Reconciled(mid[id], roots, PartsOf(parts, id), files, now)] ==
               Midway(table, rest - {id}, roots, parts, files, now)
  {
    hide Reconciled;
    ClaimsDoNotMatter(table[id], roots, PartsOf(parts, id), files, now);
  }

  lemma NothingClaimed(table: Table, roots: Roots, parts: map<Id, seq<Part>>, files: Files, now: T.Time)
    ensures var after := AfterStart(table, roots, parts, files, now);
            && after.Keys == table.Keys
            && forall id | id in after ::
                 && after[id].claimedBy.None?
                 && after[id] == Reconciled(table[id], roots, if id in parts then parts[id] else [], files, now)
  {
    hide Reconciled;
    forall id | id in table ensures Reconciled(table[id], roots, PartsOf(parts, id), files, now).claimedBy.None? {
      ClaimsDoNotMatter(table[id], roots, PartsOf(parts, id), files, now);
    }
  }

  function AfterStart(table: Table, roots: Roots, parts: map<Id, seq<Part>>, files: Files, now: T.Time): Table
  {
    map id | id in table :: Reconciled(table[id], roots, PartsOf(parts, id), files, now)
  }

  function PartsOf(parts: map<Id, seq<Part>>, id: Id): seq<Part> { if id in parts then parts[id] else [] }

  function OpenIds(table: Table): set<Id> { set id | id in table && !Closed(table[id].state) }

  lemma ReleasedStaysUnique(table: Table)
    requires Keyed(table) && UniqueOpen(table)
    ensures Keyed(ReleaseAll(table)) && UniqueOpen(ReleaseAll(table)) && OpenIds(ReleaseAll(table)) == OpenIds(table)
  {
  }

  // What this amounts to.

  /** Paths as the service hands them out: an open job stages in the directory named after it, and
      completed paths are elsewhere. */
  ghost predicate PlacedWell(row: Row, roots: Roots)
  {
    && (row.stagingPath.Some? ==> row.stagingPath.value == roots.staging + [row.id])
    && (row.completedPath.Some? ==> !(roots.staging <= row.completedPath.value))
  }

  /** A state changes only to LocalVerify, with the staging directory there and every part
      completed, or to Completed, with the completed path there. */
  lemma StateChangesOnly(row: Row, roots: Roots, parts: seq<Part>, files: Files, now: T.Time)
    ensures var after := Reconciled(row, roots, parts, files, now);
            after.state == row.state
            || (after.state == LocalVerify && Local(row.state) && AllCompleted(parts)
                && Present(files, Named(row, roots).stagingPath))
            || (after.state == Completed && Present(files, row.completedPath) && row.state != RemovePending && !Closed(row.state))
  {
  }

  /** The write of a start-up has an event exactly when it promotes a job or sends it to be verified; one that only
      wakes the job has none. */
  lemma ReconcileEvents(row: Row, roots: Roots, parts: seq<Part>, files: Files, now: T.Time)
    ensures var write := ReconcileWrite(row, roots, parts, files, now);
            var whole := Present(files, Named(row, roots).stagingPath) && Local(row.state) && AllCompleted(parts);
            write.Some? ==>
              if Present(files, row.completedPath) || whole then
                write.value.event == Some(Event(Some(row.state), write.value.row.state))
              else write.value.event == None && write.value.row.state == row.state && row.nextRunAt == None
  {
    hide AllCompleted;
  }

  /** What a start-up does to an open job, field by field: a job that waits for a worker and has no time set
      is due at once, one that is set to be verified too, and every other time stays as it is. */
  lemma ReconciledFields(row: Row, roots: Roots, parts: seq<Part>, files: Files, now: T.Time)
    requires !Closed(row.state)
    ensures var after := Reconciled(row, roots, parts, files, now);
            var home := if row.stagingPath.None? then roots.staging + [row.id] else row.stagingPath.value;
            var placed := row.completedPath.Some? && row.completedPath.value in files;
            var promoted := placed && row.state != Completed && row.state != RemovePending;
            var whole := !placed && home in files && parts != [] && (forall i | 0 <= i < |parts| :: parts[i].completed)
                         && (row.state == LocalDownloadPending || row.state == LocalDownloading || row.state == LocalVerify);
            var woken := !placed && !whole && row.nextRunAt.None?
                         && (|| row.state == SubmitPending || row.state == SubmitRetry || row.state == RemoteQueued
                             || row.state == RemoteActive || row.state == LocalDownloadPending
                             || row.state == LocalDownloading || row.state == LocalVerify || row.state == RemovePending);
            && after.state == (if promoted then Completed else if whole then LocalVerify else row.state)
            && after.nextRunAt == (if whole || woken then Some(now) else row.nextRunAt)
            && after.stagingPath == (if promoted || whole || woken then Some(home) else row.stagingPath)
  {
    hide Named;
    NamedFields(row, roots);
  }

  lemma NamedFields(row: Row, roots: Roots)
    ensures var job := Named(Unclaimed(row), roots);
            && job.stagingPath == Some(if row.stagingPath.None? then roots.staging + [row.id] else row.stagingPath.value)
            && job.state == row.state && job.nextRunAt == row.nextRunAt && job.completedPath == row.completedPath
  {
  }

  /** Nothing else of a job changes, but that its claim is gone. */
  lemma ReconciledKeeps(row: Row, roots: Roots, parts: seq<Part>, files: Files, now: T.Time)
    ensures var after := Reconciled(row, roots, parts, files, now);
            after == row.(state := after.state, nextRunAt := after.nextRunAt, stagingPath := after.stagingPath,
                          claimedBy := None)
  {
    hide AllCompleted, Present, NeedsWakeup, Local;
  }

  /** The directory of an open job is untouched. */
  lemma OpenJobKeepsItsDirectory(before: Files, after: Files, staging: Path, valid: set<Id>, id: Id)
    requires OnlyOrphansGone(before, after, staging, valid) && id in valid
    ensures Untouched(before, after, staging + [id])
  {
    forall q | staging + [id] <= q && q in before ensures q in after {
      assert q[..|staging| + 1] == staging + [id];
    }
  }

  /** So is every tree outside the staging root. */
  lemma OutsideIsKept(before: Files, after: Files, staging: Path, valid: set<Id>, root: Path)
    requires OnlyOrphansGone(before, after, staging, valid) && !(staging <= root) && !(root <= staging)
    ensures Untouched(before, after, root)
  {
    forall q | root <= q && q in before ensures q in after {
      if staging <= q {
        PrefixesNest(staging, root, q);
        assert false;
      }
      OutsideStaging(before, staging, valid, q);
    }
  }

  /** Seen from an open job, a start-up is a legal act: it only changes the disk elsewhere. */
  lemma OrphansAreElsewhere(remote: Remote, p: Pipe, after: Files, roots: Roots, valid: set<Id>)
    requires p.row.id in valid && OnlyOrphansGone(p.files, after, roots.staging, valid)
    requires forall root | p.row.completedPath == Some(root) || p.moved == Some(root) ::
               !(roots.staging <= root) && !(root <= roots.staging)
    ensures Enabled(remote, roots.staging + [p.row.id], p, Other(after))
  {
    OpenJobKeepsItsDirectory(p.files, after, roots.staging, valid, p.row.id);
    if p.row.completedPath.Some? {
      OutsideIsKept(p.files, after, roots.staging, valid, p.row.completedPath.value);
    }
    if p.moved.Some? {
      OutsideIsKept(p.files, after, roots.staging, valid, p.moved.value);
    }
  }

  /** So is the row write of a start-up, for a job that is being downloaded or verified. */
  lemma ReconcileIsLegal(remote: Remote, roots: Roots, p: Pipe, now: T.Time)
    requires Active(p) && PlacedWell(p.row, roots) && p.row.completedPath.None?
    ensures var write := ReconcileWrite(p.row, roots, p.parts, p.files, now);
            write.Some? ==> Enabled(remote, roots.staging + [p.row.id], p, SaveRow(write.value.row))
  {
  }

  /** A second start-up right after the first changes no state and removes no directory. */
  lemma SecondStartIsQuiet(table: Table, roots: Roots, parts: map<Id, seq<Part>>, files: Files, now: T.Time, later: T.Time)
    requires Keyed(table) && forall id | id in table :: PlacedWell(table[id], roots)
    ensures var once := AfterStart(table, roots, parts, files, now);
            var left := WithoutOrphans(files, roots.staging, OpenIds(table));
            var twice := AfterStart(once, roots, parts, left, later);
            && OpenIds(once) == OpenIds(table) && WithoutOrphans(left, roots.staging, OpenIds(once)) == left
            && forall id | id in table :: twice[id].state == once[id].state
  {
    hide Reconciled, WithoutOrphans, PlacedWell;
    var once := AfterStart(table, roots, parts, files, now);
    var left := WithoutOrphans(files, roots.staging, OpenIds(table));
    forall id | id in table
      ensures Closed(once[id].state) <==> Closed(table[id].state)
      ensures Reconciled(once[id], roots, PartsOf(parts, id), left, later).state == once[id].state
    {
      ClaimsDoNotMatter(table[id], roots, PartsOf(parts, id), files, now);
      ClaimsDoNotMatter(once[id], roots, PartsOf(parts, id), left, later);
      if !Closed(table[id].state) {
        SecondLookIsQuiet(table[id], roots, PartsOf(parts, id), files, OpenIds(table), now, later);
      }
    }
    assert OpenIds(once) == OpenIds(table);
    NoOrphansLeft(files, roots.staging, OpenIds(table));
  }

  lemma SecondLookIsQuiet(row: Row, roots: Roots, parts: seq<Part>, files: Files, valid: set<Id>, now: T.Time, later: T.Time)
    requires PlacedWell(row, roots) && !Closed(row.state) && row.id in valid
    ensures var once := Reconciled(row, roots, parts, files, now);
            var left := WithoutOrphans(files, roots.staging, valid);
            Reconciled(once, roots, parts, left, later).state == once.state && !Closed(once.state)
  {
    hide Reconciled;
    var left := WithoutOrphans(files, roots.staging, valid);
    var home := roots.staging + [row.id];
    assert home[..|roots.staging| + 1] == home;
    if row.completedPath.Some? {
      OutsideStaging(files, roots.staging, valid, row.completedPath.value);
    }
    QuietRow(row, roots, parts, files, left, now, later);
  }

  lemma NoOrphansLeft(files: Files, staging: Path, valid: set<Id>)
    ensures WithoutOrphans(WithoutOrphans(files, staging, valid), staging, valid) == WithoutOrphans(files, staging, valid)
  {
  }

  /** A row that a start-up has nothing to tell about its state. */
  predicate Settled(row: Row, roots: Roots, parts: seq<Part>, files: Files)
  {
    if Present(files, row.completedPath) then row.state == Completed || row.state == RemovePending
    else Present(files, Named(row, roots).stagingPath) && Local(row.state) && AllCompleted(parts) ==> row.state == LocalVerify
  }

  lemma SettlesInOne(row: Row, roots: Roots, parts: seq<Part>, files: Files, now: T.Time)
    requires !Closed(row.state)
    ensures var once := Reconciled(row, roots, parts, files, now);
            && Settled(once, roots, parts, files) && !Closed(once.state) && once.completedPath == row.completedPath
            && Named(once, roots).stagingPath == Named(row, roots).stagingPath
  {
    hide AllCompleted, Present;
  }

  lemma SettledStays(row: Row, roots: Roots, parts: seq<Part>, files: Files, now: T.Time)
    requires !Closed(row.state)
    ensures Settled(row, roots, parts, files) <==> Reconciled(row, roots, parts, files, now).state == row.state
  {
    assert Named(Unclaimed(row), roots).stagingPath == Named(row, roots).stagingPath;
    hide AllCompleted, Present, Named;
  }

  /** Where the two paths of a job are as they were, reconciling it again leaves its state. */
  lemma QuietRow(row: Row, roots: Roots, parts: seq<Part>, files: Files, left: Files, now: T.Time, later: T.Time)
    requires !Closed(row.state) && Present(files, row.completedPath) == Present(left, row.completedPath)
    requires Present(files, Named(row, roots).stagingPath) == Present(left, Named(row, roots).stagingPath)
    ensures var once := Reconciled(row, roots, parts, files, now);
            Reconciled(once, roots, parts, left, later).state == once.state && !Closed(once.state)
  {
    hide Reconciled, AllCompleted, Named;
    SettlesInOne(row, roots, parts, files, now);
    SettledStays(Reconciled(row, roots, parts, files, now), roots, parts, left, later);
  }

  lemma OutsideStaging(files: Files, staging: Path, valid: set<Id>, p: Path)
    requires !(staging <= p)
    ensures !InOrphan(files, staging, valid, p)
  {
    if |p| > |staging| {
      assert staging <= p[..|staging| + 1] ==> staging <= p;
    }
  }
}

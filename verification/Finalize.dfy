/** Verifying and promoting a downloaded job (internal/worker/finalize.go). */
module Finalize {
  import opened Wrappers
  import opened Text
  import opened Jobs
  import opened Assets
  import opened Content
  import opened Session
  import D = Download
  import L = Layout
  import P = Paths
  import T = TimeText

  /** The completed path of a job, by components (Layout.CompletedPathShape). */
  function Target(root: Path, job: Row): (r: Path)
    ensures |r| == |root| + 2 && root <= r
  {
    root + [L.Sanitize(TrimSpace(job.category)), L.LastComponent(job.displayName, job.id)]
  }

  /** It is the path that the layout gives for the category, the display name and the id of the job. */
  lemma TargetIsCompletedPath(cwd: string, completed: string, job: Row)
    requires P.Rooted(cwd) && L.IsJobID(job.id)
    ensures Target(P.AbsComps(cwd, completed), job)
            == P.AbsComps(cwd, L.CompletedPathForJob(completed, job.category, job.displayName, job.id))
    ensures |L.Sanitize(TrimSpace(job.displayName))| <= 222 ==>
              Target(P.AbsComps(cwd, completed), job) == P.AbsComps(cwd, completed)
                + [L.Sanitize(TrimSpace(job.category)), L.Sanitize(TrimSpace(job.displayName)) + "-" + job.id]
  {
    L.CompletedPathShape(cwd, completed, job.category, job.displayName, job.id);
  }

  datatype Verdict = NoParts | Lacking(message: string) | NotPromoted(message: string) | Promoted

  const NO_PARTS := "no transfer parts available for verification"

  /** The one write of a pass. */
  predicate FinalizeWrites(job: Row, ws: seq<Write>)
  {
    && |ws| == 1 && ws[0].event == Some(Event(Some(job.state), ws[0].row.state))
    && D.Kept(job.(completedPath := ws[0].row.completedPath), ws[0].row)
    && (if ws[0].row.state == Completed then ws[0].row.completedPath.Some?
        else ws[0].row.completedPath == job.completedPath
             && (ws[0].row.state == LocalDownloading || ws[0].row.state == Failed))
  }

  /** The row each verdict leaves. */
  function Result(job: Row, parts: seq<Part>, v: Verdict, target: Path, next: T.Time): Row
  {
    match v
    case NoParts => job.(error := Some(NO_PARTS), state := Failed)
    case Lacking(message) => job.(error := Some(message), nextRunAt := Some(next), state := LocalDownloading)
    case NotPromoted(message) => job.(error := Some(message), state := Failed)
    case Promoted =>
      D.Synced(job, parts).(completedPath := Some(target), error := None, nextRunAt := None, state := Completed)
  }

  /** Field by field: where a job goes, what is recorded, and when it is looked at again. */
  lemma ResultFields(job: Row, parts: seq<Part>, v: Verdict, target: Path, next: T.Time)
    ensures var row := Result(job, parts, v, target, next);
            && row.state == (if v.Promoted? then Completed else if v.Lacking? then LocalDownloading else Failed)
            && row.nextRunAt == (if v.Promoted? then None else if v.Lacking? then Some(next) else job.nextRunAt)
            && row.completedPath == (if v.Promoted? then Some(target) else job.completedPath)
            && (row.error.None? <==> v.Promoted?) && (v.NoParts? || v.Promoted? || row.error == Some(v.message))
            && row.bytesDone == (if v.Promoted? then D.TotalDone(parts) else job.bytesDone)
            && row.bytesTotal == (if v.Promoted? && D.TotalLength(parts) > 0 then D.TotalLength(parts)
                                  else job.bytesTotal)
            && row == job.(state := row.state, nextRunAt := row.nextRunAt, completedPath := row.completedPath,
                           error := row.error, bytesDone := row.bytesDone, bytesTotal := row.bytesTotal)
  {
  }

  function Parent(path: Path): Path
    requires path != []
  {
    path[..|path| - 1]
  }

  /** When the promotion goes through. */
  ghost predicate Promotable(files: Files, staging: Option<Path>, target: Path)
    requires target != []
  {
    staging.Some? && DirsFit(files, Parent(target)) && CanRename(WithDirs(files, Parent(target)), staging.value, target)
  }

  /** The first part that is missing or too short, if any. */
  method CheckParts(files: Files, parts: seq<Part>) returns (message: Option<string>)
    ensures message.None? <==> forall i | 0 <= i < |parts| :: LooksComplete(files, parts[i])
    ensures message.None? <==>
              forall i | 0 <= i < |parts| ::
                parts[i].temp in files
                && (parts[i].contentLength > 0 ==> Size(files, parts[i].temp) >= parts[i].contentLength)
  {
    for i := 0 to |parts|
      invariant forall j | 0 <= j < i :: LooksComplete(files, parts[j])
    {
      var path := Assets.P.Render(parts[i].temp);
      if parts[i].temp !in files {
        return Some("missing downloaded part /" + path);
      }
      if parts[i].contentLength > 0 && Size(files, parts[i].temp) < parts[i].contentLength {
        return Some("part /" + path + " is incomplete");
      }
    }
    return None;
  }

  /** MkdirAll of the parent, then the rename. */
  method Promote(s: Pass, target: Path) returns (failure: Option<string>)
    requires s.Valid() && s.h.job.state == s.h.stored.state == LocalVerify && s.parts != []
    requires s.h.job.stagingPath == s.h.stored.stagingPath
    requires s.h.job.stagingPath.Some? ==> s.h.job.stagingPath.value == s.staging
    requires target != [] && !(s.staging <= target) && s.Wasted() == s.Gained() == 0
    requires forall i | 0 <= i < |s.parts| :: LooksComplete(s.files, s.parts[i])
    modifies s`files, s`acts, s`moved, s`since, s`listed
    ensures s.Valid() && (failure.None? <==> Promotable(old(s.files), s.h.job.stagingPath, target))
    ensures failure.None? ==> s.moved == Some(target) && DeliveredTo(s.remote, s.parts, s.files, target)
    ensures failure.None? ==> s.files == Renamed(WithDirs(old(s.files), Parent(target)), s.staging, target)
    ensures failure.Some? ==> s.files == old(s.files) || s.files == WithDirs(old(s.files), Parent(target))
    ensures failure.Some? ==> s.since == old(s.since) && s.listed == old(s.listed)
    ensures s.Wasted() == s.Gained() == 0
  {
    hide Inv, Legal, Run, Transfers, TotalDropped, TotalReceived, DeliveredTo, Renamed, CanRename, LooksComplete;
    if s.h.job.stagingPath.None? {
      return Some("both stagingPath and completedPath are required");
    }
    forall i | 0 <= i < |s.parts| ensures !(s.parts[i].temp <= Parent(target)) {
      NotAbove(s, i, target);
    }
    ghost var before := s.files;
    var made := s.MakeDirs(Parent(target));
    if !made {
      return Some("ensure completed parent");
    }
    StillComplete(before, s.parts, Parent(target));
    var can := MayRename(s.files, s.staging, target);
    if !can {
      return Some("rename staging to completed");
    }
    s.Rename(target);
    Arrived(s, target);
    return None;
  }

  /** Directories that are made do not make parts look incomplete. */
  lemma StillComplete(files: Files, parts: seq<Part>, path: Path)
    requires forall i | 0 <= i < |parts| :: LooksComplete(files, parts[i])
    ensures forall i | 0 <= i < |parts| :: LooksComplete(WithDirs(files, path), parts[i])
  {
  }

  /** What was just moved lies at the target. */
  lemma Arrived(s: Pass, target: Path)
    requires s.Valid() && s.moved == Some(target)
    ensures DeliveredTo(s.remote, s.parts, s.files, target)
  {
  }

  /** A part below the staging directory is no parent of a target outside it. */
  lemma NotAbove(s: Pass, i: nat, target: Path)
    requires s.Valid() && i < |s.parts| && target != [] && !(s.staging <= target)
    ensures !(s.parts[i].temp <= Parent(target))
  {
    assert PartOk(s.remote, s.staging, s.files, s.parts[i]);
    var temp, staging := s.parts[i].temp, s.staging;
    assert staging <= temp;
    assert temp <= Parent(target) ==> staging <= target;
  }

  /** The system's check of a rename. */
  method MayRename(files: Files, from: Path, to: Path) returns (ok: bool)
    ensures ok <==> CanRename(files, from, to)
    ensures ok <==> from in files && to !in files && !(from <= to) && !(to <= from)
  {
    ok := CanRename(files, from, to);
  }

  /** The write that ends a pass. */
  method Close(s: Pass, job: Row, state: JobState)
    requires s.Valid() && s.h.writes == [] && s.h.stored.state == LocalVerify
    requires D.Kept(s.entry.(completedPath := job.completedPath), job)
    requires s.entry.state == job.state && job.stagingPath == Some(s.staging)
    requires s.h.stored.completedPath == s.entry.completedPath
    requires if state == Completed then job.completedPath.Some? && job.completedPath == s.moved
             else (state == LocalDownloading || state == Failed) && job.completedPath == s.entry.completedPath
    modifies s`acts, s`moved, s.h
    ensures s.Valid() && FinalizeWrites(s.entry, s.h.writes) && s.h.stored == Unclaimed(job.(state := state))
    ensures s.Wasted() == old(s.Wasted()) && s.Gained() == old(s.Gained())
  {
    hide Inv, Legal, Run, Transfers, TotalDropped;
    s.h.job := job;
    s.WriteState(state);
  }

  method Succeed(s: Pass, target: Path)
    requires s.Valid() && s.h.writes == [] && s.h.stored.state == LocalVerify && s.h.job == s.entry
    requires s.entry.state == LocalVerify && s.entry.stagingPath == Some(s.staging)
    requires s.h.stored.completedPath == s.entry.completedPath && s.moved == Some(target)
    modifies s`acts, s`moved, s.h
    ensures s.Valid() && FinalizeWrites(s.entry, s.h.writes)
    ensures s.h.stored == Unclaimed(Result(s.entry, s.parts, Promoted, target, 0))
    ensures s.Wasted() == old(s.Wasted()) && s.Gained() == old(s.Gained())
  {
    hide Inv, Legal, Run, Transfers, TotalDropped;
    D.SyncJobBytesFromParts(s.h, s.parts);
    Close(s, s.h.job.(completedPath := Some(target), error := None, nextRunAt := None), Completed);
  }

  /** The downloader has left its staging directory on record. */
  lemma StagingKnown(s: Pass)
    requires s.Valid() && s.h.job.state == LocalVerify && Same(s.h.job, s.h.stored) && s.acts == []
    ensures s.h.job.stagingPath == Some(s.staging) && s.Wasted() == s.Gained() == 0
  {
  }

  /** One pass of the finalizer over the job in hand. */
  method ProcessFinalizeJob(s: Pass, root: Path, next: T.Time) returns (v: Verdict)
    requires s.Valid() && s.acts == [] && s.h.writes == [] && s.h.job == s.entry && Same(s.h.job, s.h.stored)
    requires s.h.job.state == LocalVerify
    requires !(s.staging <= Target(root, s.h.job))
    modifies s`files, s`acts, s`moved, s`since, s`listed, s.h
    ensures s.Valid() && FinalizeWrites(s.entry, s.h.writes)
    ensures s.h.stored == Unclaimed(Result(s.entry, s.parts, v, Target(root, s.entry), next))
    ensures v.NoParts? <==> s.parts == []
    ensures v.Lacking? <==> s.parts != [] && exists i | 0 <= i < |s.parts| :: !LooksComplete(old(s.files), s.parts[i])
    ensures v.Promoted? <==>
              && s.parts != [] && (forall i | 0 <= i < |s.parts| :: LooksComplete(old(s.files), s.parts[i]))
              && Promotable(old(s.files), Some(s.staging), Target(root, s.entry))
    ensures v.Promoted? ==> DeliveredTo(s.remote, s.parts, s.files, Target(root, s.entry))
    ensures v.NoParts? || v.Lacking? ==> s.files == old(s.files)
    ensures s.Wasted() == s.Gained() == 0 && (!v.Promoted? ==> s.listed == old(s.listed))
  {
    hide Pass.Valid, Inv, Legal, Run, Promotable, DeliveredTo, FinalizeWrites, Target;
    hide LooksComplete, WithDirs, Renamed, D.TotalLength, D.TotalDone;
    StagingKnown(s);
    if s.parts == [] {
      Close(s, s.h.job.(error := Some(NO_PARTS)), Failed);
      return NoParts;
    }
    var lacking := CheckParts(s.files, s.parts);
    if lacking.Some? {
      Close(s, s.h.job.(error := lacking, nextRunAt := Some(next)), LocalDownloading);
      return Lacking(lacking.value);
    }
    var target := Target(root, s.h.job);
    var failure := Promote(s, target);
    if failure.Some? {
      Close(s, s.h.job.(error := failure), Failed);
      return NotPromoted(failure.value);
    }
    Succeed(s, target);
    return Promoted;
  }
}

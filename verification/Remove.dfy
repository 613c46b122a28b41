/** Removing what a job left on disk (internal/worker/remove.go). */
module Remove {
  import opened Wrappers
  import opened Jobs
  import opened Content
  import P = Paths

  datatype Roots = Roots(staging: Path, completed: Path, payloads: Path)

  /** filepath.Dir. */
  function Dir(path: Path): Path { if path == [] then [] else path[..|path| - 1] }

  function PayloadDir(job: Row): Option<Path>
  {
    if job.payloadRef.None? then None else Some(Dir(job.payloadRef.value))
  }

  predicate Below(path: Option<Path>, p: Path) { path.Some? && path.value <= p }

  /** What lies in one of the three trees of a job. */
  predicate Owned(job: Row, p: Path)
  {
    Below(job.completedPath, p) || Below(job.stagingPath, p) || Below(PayloadDir(job), p)
  }

  function WithoutTree(files: Files, path: Path): Files
  {
    map p | p in files && !(path <= p) :: files[p]
  }

  /** The disk without the three trees of a job. */
  function Cleared(files: Files, job: Row): Files
  {
    map p | p in files && !Owned(job, p) :: files[p]
  }

  /** Whether each of the three is absent or below its root; the guard of the source compares just
      these components (Paths.GuardExact). */
  predicate Safe(job: Row, roots: Roots)
  {
    && (job.completedPath.Some? ==> roots.completed <= job.completedPath.value)
    && (job.stagingPath.Some? ==> roots.staging <= job.stagingPath.value)
    && (job.payloadRef.Some? ==> roots.payloads <= PayloadDir(job).value)
  }

  /** Which of the three is the first that is not safe to remove; 3 when all are. */
  function FirstUnsafe(job: Row, roots: Roots): (step: nat)
    ensures step == 3 <==> Safe(job, roots)
  {
    if job.completedPath.Some? && !(roots.completed <= job.completedPath.value) then 0
    else if job.stagingPath.Some? && !(roots.staging <= job.stagingPath.value) then 1
    else if job.payloadRef.Some? && !(roots.payloads <= PayloadDir(job).value) then 2
    else 3
  }

  /** Some of the three trees may have gone, in part or whole, and nothing else has. */
  ghost predicate Eroded(before: Files, after: Files, job: Row)
  {
    && (forall p | p in after :: p in before && after[p] == before[p])
    && (forall p | p in before && !Owned(job, p) :: p in after)
  }

  ghost predicate TreeEroded(before: Files, after: Files, path: Path)
  {
    && (forall p | p in after :: p in before && after[p] == before[p])
    && (forall p | p in before && !(path <= p) :: p in after)
  }

  lemma NotEroded(files: Files, job: Row, roots: Roots, stuck: set<Path>)
    ensures Eroded(files, files, job) && ClearedTo(files, job, 0) == files && Passes(job, roots, stuck, 0)
  {
  }

  /** One more tree of the job, unless it was refused. */
  lemma ErodeSafe(start: Files, before: Files, after: Files, job: Row, path: Path, root: Path)
    requires Eroded(start, before, job) && (if root <= path then TreeEroded(before, after, path) else after == before)
    requires job.completedPath == Some(path) || job.stagingPath == Some(path) || PayloadDir(job) == Some(path)
    ensures Eroded(start, after, job)
  {
  }

  /** The files after each of the three steps. */
  function ClearedTo(files: Files, job: Row, steps: nat): Files
  {
    var one := if steps > 0 && job.completedPath.Some? then WithoutTree(files, job.completedPath.value) else files;
    var two := if steps > 1 && job.stagingPath.Some? then WithoutTree(one, job.stagingPath.value) else one;
    if steps > 2 && job.payloadRef.Some? then WithoutTree(two, PayloadDir(job).value) else two
  }

  lemma ClearedInSteps(files: Files, job: Row)
    ensures ClearedTo(files, job, 3) == Cleared(files, job)
  {
  }

  /** The job with the fields of the trees that went first cleared. */
  function Emptied(job: Row, steps: nat): Row
  {
    job.(completedPath := if steps > 0 then None else job.completedPath,
         stagingPath := if steps > 1 then None else job.stagingPath,
         payloadRef := if steps > 2 then None else job.payloadRef)
  }

  function Refusal(what: string, path: Path): string
  {
    "refusing to remove " + what + " outside configured root: /" + P.Render(path)
  }

  function RefusedRow(job: Row, message: string): Row { job.(error := Some(message), nextRunAt := None) }

  /** How a removal ends: refused at one of the three trees, stuck at one of them, or done. */
  datatype End = Refused(step: nat, message: string) | Stuck | Done

  /** What each ending writes. */
  function RemoveTrace(job: Row, end: End): seq<Write>
  {
    match end
    case Refused(step, message) => [SaveState(RefusedRow(Emptied(job, step), message), Failed)]
    case Stuck => []
    case Done => [SaveState(Emptied(job, 3).(error := None, nextRunAt := None), Removed)]
  }

  /** The disk. Removing a tree fails half-way when something in it is stuck. */
  class Disk {
    var files: Files
    const stuck: set<Path>

    constructor (contents: Files, stuckTrees: set<Path>)
      ensures files == contents && stuck == stuckTrees
    {
      files, stuck := contents, stuckTrees;
    }

    method RemovePath(path: Path) returns (ok: bool)
      modifies this`files
      ensures ok <==> path !in stuck
      ensures ok ==> files == WithoutTree(old(files), path)
      ensures TreeEroded(old(files), files, path)
    {
      ok := path !in stuck;
      if ok {
        files := WithoutTree(files, path);
      } else {
        var left: set<Path> := *;
        files := map p | p in files && (!(path <= p) || p in left) :: files[p];
      }
    }
  }

  method FailUnsafeRemoval(h: Handle, what: string, path: Path)
    modifies h
    ensures h.Wrote([SaveState(RefusedRow(old(h.job), Refusal(what, path)), Failed)])
  {
    h.job := h.job.(error := Some(Refusal(what, path)), nextRunAt := None);
    h.UpdateJobState(Failed);
  }

  /** One of the three trees: refused outside its root, else removed as far as the system lets it. */
  method Drop(h: Handle, d: Disk, step: nat, what: string, root: Path, path: Path) returns (end: Option<End>)
    modifies h, d`files
    ensures !(root <= path) ==>
              && end == Some(Refused(step, Refusal(what, path))) && d.files == old(d.files)
              && h.Wrote([SaveState(RefusedRow(old(h.job), Refusal(what, path)), Failed)])
    ensures root <= path ==>
              && end == (if path in d.stuck then Some(Stuck) else None) && TreeEroded(old(d.files), d.files, path)
              && h.job == old(h.job) && h.Wrote([]) && h.stored == old(h.stored)
    ensures end.None? ==> d.files == WithoutTree(old(d.files), path)
  {
    if !(root <= path) {
      FailUnsafeRemoval(h, what, path);
      return Some(Refused(step, Refusal(what, path)));
    }
    var ok := d.RemovePath(path);
    return if ok then None else Some(Stuck);
  }

  /** Whether a tree goes: there is none, or it lies below its root and nothing in it is stuck. */
  predicate Goes(tree: Option<Path>, root: Path, stuck: set<Path>)
  {
    tree.Some? ==> root <= tree.value && tree.value !in stuck
  }

  /** Whether the first steps go through. */
  predicate Passes(job: Row, roots: Roots, stuck: set<Path>, steps: nat)
  {
    && (steps > 0 ==> Goes(job.completedPath, roots.completed, stuck))
    && (steps > 1 ==> Goes(job.stagingPath, roots.staging, stuck))
    && (steps > 2 ==> Goes(PayloadDir(job), roots.payloads, stuck))
  }

  /** How the removal of three trees, each allowed below its root only, ends and what it leaves on disk: the
      trees go one after the other, up to the first that is refused or stuck. */
  ghost predicate Removes(completed: Option<Path>, staging: Option<Path>, payload: Option<Path>, roots: Roots,
                          stuck: set<Path>, before: Files, after: Files, end: End)
  {
    && (end.Done? <==> Goes(completed, roots.completed, stuck) && Goes(staging, roots.staging, stuck)
                       && Goes(payload, roots.payloads, stuck))
    && (end.Refused? && end.step == 0 <==> completed.Some? && !(roots.completed <= completed.value))
    && (end.Refused? && end.step == 1 <==>
          Goes(completed, roots.completed, stuck) && staging.Some? && !(roots.staging <= staging.value))
    && (end.Refused? && end.step == 2 <==>
          Goes(completed, roots.completed, stuck) && Goes(staging, roots.staging, stuck)
          && payload.Some? && !(roots.payloads <= payload.value))
    && (end.Refused? ==> end.step < 3)
    && (forall p | p in after :: p in before && after[p] == before[p])
    && (!end.Stuck? ==>
          var steps := if end.Done? then 3 else end.step;
          forall p | p in before ::
            p in after <==> !(steps > 0 && Below(completed, p)) && !(steps > 1 && Below(staging, p))
                            && !(steps > 2 && Below(payload, p)))
    && forall p | p in before && !Below(completed, p) && !Below(staging, p) && !Below(payload, p) :: p in after
  }

  /** After the first steps, all of which went through. */
  ghost predicate At(h: Handle, d: Disk, roots: Roots, start: Files, job: Row, steps: nat)
    reads h, d
  {
    && h.job == Emptied(job, steps) && d.files == ClearedTo(start, job, steps)
    && Eroded(start, d.files, job) && FirstUnsafe(job, roots) >= steps
    && Passes(job, roots, d.stuck, steps)
  }

  /** After a step that ended the pass early. */
  ghost predicate Over(d: Disk, roots: Roots, start: Files, job: Row, end: End, step: nat)
    reads d
  {
    && !end.Done? && Eroded(start, d.files, job) && Passes(job, roots, d.stuck, step)
    && (end.Refused? ==> end.step == step == FirstUnsafe(job, roots) < 3 && d.files == ClearedTo(start, job, step))
    && (end.Stuck? ==> step < 3 && step < FirstUnsafe(job, roots)
                       && !Passes(job, roots, d.stuck, step + 1))
  }

  method DropCompleted(h: Handle, d: Disk, roots: Roots, ghost start: Files, ghost job: Row) returns (failed: Option<End>)
    requires At(h, d, roots, start, job, 0)
    modifies h, d`files
    ensures failed.None? ==> At(h, d, roots, start, job, 1) && h.Wrote([])
    ensures failed.Some? ==> Over(d, roots, start, job, failed.value, 0) && h.Wrote(RemoveTrace(job, failed.value))
  {
    hide Refusal, Eroded, TreeEroded, WithoutTree;
    if h.job.completedPath.Some? {
      ghost var before := d.files;
      var path := h.job.completedPath.value;
      failed := Drop(h, d, 0, "completed path", roots.completed, path);
      ErodeSafe(start, before, d.files, job, path, roots.completed);
      if failed.Some? {
        return;
      }
      h.job := h.job.(completedPath := None);
    }
    return None;
  }

  method DropStaging(h: Handle, d: Disk, roots: Roots, ghost start: Files, ghost job: Row) returns (failed: Option<End>)
    requires At(h, d, roots, start, job, 1)
    modifies h, d`files
    ensures failed.None? ==> At(h, d, roots, start, job, 2) && h.Wrote([])
    ensures failed.Some? ==> Over(d, roots, start, job, failed.value, 1) && h.Wrote(RemoveTrace(job, failed.value))
  {
    hide Refusal, Eroded, TreeEroded, WithoutTree;
    if h.job.stagingPath.Some? {
      ghost var before := d.files;
      var path := h.job.stagingPath.value;
      failed := Drop(h, d, 1, "staging path", roots.staging, path);
      ErodeSafe(start, before, d.files, job, path, roots.staging);
      if failed.Some? {
        return;
      }
      h.job := h.job.(stagingPath := None);
    }
    return None;
  }

  method DropPayload(h: Handle, d: Disk, roots: Roots, ghost start: Files, ghost job: Row) returns (failed: Option<End>)
    requires At(h, d, roots, start, job, 2)
    modifies h, d`files
    ensures failed.None? ==> At(h, d, roots, start, job, 3) && h.Wrote([])
    ensures failed.Some? ==> Over(d, roots, start, job, failed.value, 2) && h.Wrote(RemoveTrace(job, failed.value))
  {
    hide Refusal, Eroded, TreeEroded, WithoutTree;
    if h.job.payloadRef.Some? {
      ghost var before := d.files;
      var path := Dir(h.job.payloadRef.value);
      failed := Drop(h, d, 2, "payload path", roots.payloads, path);
      ErodeSafe(start, before, d.files, job, path, roots.payloads);
      if failed.Some? {
        return;
      }
      h.job := h.job.(payloadRef := None);
    }
    return None;
  }

  lemma EndsEarly(d: Disk, roots: Roots, start: Files, job: Row, end: End, step: nat)
    requires Over(d, roots, start, job, end, step)
    ensures Removes(job.completedPath, job.stagingPath, PayloadDir(job), roots, d.stuck, start, d.files, end)
  {
  }

  lemma EndsDone(h: Handle, d: Disk, roots: Roots, start: Files, job: Row)
    requires At(h, d, roots, start, job, 3)
    ensures Removes(job.completedPath, job.stagingPath, PayloadDir(job), roots, d.stuck, start, d.files, Done)
  {
  }

  lemma DirOf(dir: Path, name: string)
    ensures Dir(dir + [name]) == dir
  {
  }

  /** One pass of the remover over the job in hand. */
  method ProcessRemoveJob(h: Handle, d: Disk, roots: Roots) returns (end: End)
    modifies h, d`files
    ensures forall dir, name | old(h.job).payloadRef == Some(dir + [name]) ::
              Removes(old(h.job).completedPath, old(h.job).stagingPath, Some(dir), roots, d.stuck,
                      old(d.files), d.files, end)
    ensures old(h.job).payloadRef.None? ==>
              Removes(old(h.job).completedPath, old(h.job).stagingPath, None, roots, d.stuck,
                      old(d.files), d.files, end)
    ensures end.Done? ==> h.stored == old(h.job).(completedPath := None, stagingPath := None, payloadRef := None,
                                                  error := None, nextRunAt := None, state := Removed, claimedBy := None)
    ensures end.Refused? ==>
              h.stored == old(h.job).(completedPath := if end.step > 0 then None else old(h.job).completedPath,
                                      stagingPath := if end.step > 1 then None else old(h.job).stagingPath,
                                      error := Some(end.message), nextRunAt := None, state := Failed, claimedBy := None)
    ensures h.Wrote(RemoveTrace(old(h.job), end))
    ensures end.Done? ==> d.files == Cleared(old(d.files), old(h.job))
    ensures end.Refused? ==> end.step == FirstUnsafe(old(h.job), roots) && !Safe(old(h.job), roots)
    ensures end.Done? ==> Safe(old(h.job), roots)
    ensures end.Stuck? ==> h.stored == old(h.stored)
    ensures Eroded(old(d.files), d.files, old(h.job))
  {
    hide Eroded, Cleared, ClearedTo, Removes, Goes, Passes;
    ghost var job, start := h.job, d.files;
    NotEroded(start, job, roots, d.stuck);
    forall dir, name | job.payloadRef == Some(dir + [name]) ensures PayloadDir(job) == Some(dir) {
      DirOf(dir, name);
    }
    var failed := DropCompleted(h, d, roots, start, job);
    if failed.Some? {
      EndsEarly(d, roots, start, job, failed.value, 0);
      return failed.value;
    }
    failed := DropStaging(h, d, roots, start, job);
    if failed.Some? {
      EndsEarly(d, roots, start, job, failed.value, 1);
      return failed.value;
    }
    failed := DropPayload(h, d, roots, start, job);
    if failed.Some? {
      EndsEarly(d, roots, start, job, failed.value, 2);
      return failed.value;
    }
    EndsDone(h, d, roots, start, job);
    h.job := h.job.(error := None, nextRunAt := None);
    h.UpdateJobState(Removed);
    ClearedInSteps(start, job);
    return Done;
  }

  /** A removal stopped anywhere, any number of times, and then run to its end leaves the disk as
      one that was never stopped. */
  lemma {:induction false} RerunCompletes(disks: seq<Files>, job: Row)
    requires disks != []
    requires forall i | 0 <= i < |disks| - 1 :: Eroded(disks[i], disks[i + 1], job)
    ensures Cleared(disks[|disks| - 1], job) == Cleared(disks[0], job)
    ensures forall p | p in Cleared(disks[|disks| - 1], job) :: !Owned(job, p)
  {
    var last := |disks| - 1;
    if last > 0 {
      RerunCompletes(disks[..last], job);
      assert Eroded(disks[last - 1], disks[last], job);
    }
  }
}

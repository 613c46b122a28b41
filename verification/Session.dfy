/**
 One pass of the downloader or the finalizer over one job: the job in hand, the rows of its parts,
 and the disk. The operations here are the only ones that leave something behind, one atomic
 change each, and every one is checked to be legal where it is made.
 */
module Session {
  import opened Wrappers
  import opened Jobs
  import opened Assets
  import opened Content

  class Pass {
    const remote: Remote
    const staging: Path
    const h: Handle
    var parts: seq<Part>
    var files: Files

    ghost const entry: Row
    ghost const log: seq<Event>
    ghost const start: Pipe
    ghost var moved: Option<Path>
    ghost var acts: seq<Act>
    /** The act from which on parts are only transferred, not registered, and how things stood then. */
    ghost var since: nat
    ghost var listed: Pipe

    ghost function Now(): Pipe
      reads this, h
    {
      Pipe(h.stored, parts, files, moved)
    }

    /** What the pass did so far is a legal run from where it started, and it wrote the row and
        the log by its recorded writes only. */
    ghost predicate Valid()
      reads this, h
    {
      && Inv(remote, staging, start) && Legal(remote, staging, start, acts)
      && Run(start, acts) == Now() && Inv(remote, staging, Now())
      && since <= |acts| && Transfers(remote, start, acts, since) && listed == Run(start, acts[..since])
      && TotalDropped(start, acts[..since]) == TotalReceived(acts[..since]) == 0
      && h.stored == StoredAfter(start.row, h.writes) && h.events == EventsAfter(log, h.writes)
      && h.stored.id == entry.id
      && (h.stored.completedPath == entry.completedPath || h.stored.state == Completed)
    }

    /** Bytes the pass has thrown away by starting files over. */
    ghost function Wasted(): nat
      reads `acts
    {
      TotalDropped(start, acts)
    }

    /** Bytes the pass has received. */
    ghost function Gained(): nat
      reads `acts
    {
      TotalReceived(acts)
    }

    /** A handler that has fetched its job and read the parts of the job and the disk. */
    constructor (handle: Handle, content: Remote, dir: Path, rows: seq<Part>, disk: Files, ghost renamed: Option<Path>)
      requires handle.writes == [] && Same(handle.job, handle.stored)
      requires Inv(content, dir, Pipe(handle.stored, rows, disk, renamed))
      ensures Valid() && h == handle && remote == content && staging == dir && parts == rows && files == disk
      ensures start == Now() && entry == handle.job && log == handle.events && acts == [] && moved == renamed
      ensures since == 0 && listed == start
    {
      h, remote, staging, parts, files := handle, content, dir, rows, disk;
      entry, log, start := handle.job, handle.events, Pipe(handle.stored, rows, disk, renamed);
      moved, acts, since, listed := renamed, [], 0, Pipe(handle.stored, rows, disk, renamed);
    }

    /** One more legal act that registers and promotes nothing. */
    lemma GoesOn(act: Act)
      requires Valid() && Enabled(remote, staging, Now(), act) && !act.Promote?
      requires act.SavePart? ==> Progresses(remote, Now(), act.part)
      ensures var more := acts + [act];
              && Legal(remote, staging, start, more) && Run(start, more) == After(Now(), act)
              && Inv(remote, staging, After(Now(), act)) && Transfers(remote, start, more, since)
              && more[..since] == acts[..since]
              && TotalReceived(more) == TotalReceived(acts) + Content.Received(act)
              && TotalDropped(start, more) == TotalDropped(start, acts) + Content.Dropped(Now(), act)
    {
      hide Inv, Legal, Run, Transfers, TotalDropped, TotalReceived, Enabled;
      OneMore(remote, staging, start, acts, act);
    }

    /** UpdateJobState. */
    method WriteState(next: JobState)
      requires Valid() && Enabled(remote, staging, Now(), SaveRow(h.job.(state := next)))
      requires h.job.completedPath == entry.completedPath || next == Completed
      modifies this`acts, this`moved, h
      ensures Valid() && acts == old(acts) + [SaveRow(old(h.job).(state := next))]
      ensures h.job == old(h.job).(state := next) && h.stored == Unclaimed(h.job)
      ensures h.writes == old(h.writes) + [SaveState(old(h.job), next)]
      ensures Wasted() == old(Wasted()) && Gained() == old(Gained())
    {
      hide Inv, Legal, Run, Transfers, TotalDropped, TotalReceived, Progresses;
      var act := SaveRow(h.job.(state := next));
      GoesOn(act);
      WritesCompose(start.row, log, h.writes, [SaveState(h.job, next)]);
      h.UpdateJobState(next);
      acts, moved := acts + [act], None;
    }

    /** UpsertTransferPart on a part that is being downloaded. */
    method WritePart(part: Part)
      requires Valid() && Downloading(Now()) && Progresses(remote, Now(), part)
      modifies this`parts, this`acts, this`moved
      ensures Valid() && acts == old(acts) + [SavePart(part)] && parts == PutPart(old(parts), part)
      ensures Wasted() == old(Wasted()) && Gained() == old(Gained())
    {
      hide Inv, Legal, Run, Transfers, TotalDropped, TotalReceived, Progresses;
      GoesOn(SavePart(part));
      parts := PutPart(parts, part);
      acts, moved := acts + [SavePart(part)], None;
    }

    /** UpsertTransferPart on a part that is new. */
    method RegisterPart(part: Part)
      requires Valid() && Downloading(Now()) && Registers(staging, Now(), part) && Wasted() == Gained() == 0
      modifies this`parts, this`acts, this`moved, this`since, this`listed
      ensures Valid() && acts == old(acts) + [SavePart(part)] && parts == PutPart(old(parts), part)
      ensures since == |acts| && listed == Now() && Wasted() == Gained() == 0
    {
      hide Inv, Legal, Run, TotalDropped;
      OneMore(remote, staging, start, acts, SavePart(part));
      assert (acts + [SavePart(part)])[..since] == acts[..since];
      parts := PutPart(parts, part);
      acts, moved := acts + [SavePart(part)], None;
      since, listed := |acts|, Now();
      assert acts[..since] == acts;
    }

    /** MkdirAll: fails when a file is in the way. */
    method MakeDirs(path: Path) returns (ok: bool)
      requires Valid() && Active(Now())
      requires forall i | 0 <= i < |parts| :: !(parts[i].temp <= path)
      requires parts == [] ==> !(staging < path)
      modifies this`files, this`acts, this`moved
      ensures Valid() && ok == DirsFit(old(files), path)
      ensures Wasted() == old(Wasted()) && Gained() == old(Gained())
      ensures files == if ok then WithDirs(old(files), path) else old(files)
      ensures acts == if ok then old(acts) + [Act.MakeDirs(path)] else old(acts)
    {
      hide Inv, Legal, Run, Transfers, TotalDropped, TotalReceived;
      ok := DirsFit(files, path);
      if !ok {
        return;
      }
      GoesOn(Act.MakeDirs(path));
      files := WithDirs(files, path);
      acts, moved := acts + [Act.MakeDirs(path)], None;
    }

    /** Opening the file of a part with truncation. */
    method TruncateFile(i: nat)
      requires Valid() && Downloading(Now()) && i < |parts| && !parts[i].completed
      modifies this`files, this`acts, this`moved
      ensures Valid() && acts == old(acts) + [Truncate(i)]
      ensures files == old(files)[parts[i].temp := File([])]
      ensures Wasted() == old(Wasted()) + Size(old(files), parts[i].temp) && Gained() == old(Gained())
    {
      hide Inv, Legal, Run, Transfers, TotalDropped, TotalReceived;
      GoesOn(Truncate(i));
      files := files[parts[i].temp := File([])];
      acts, moved := acts + [Truncate(i)], None;
    }

    /** Writing at the end of the file of a part. */
    method AppendFile(i: nat, data: Bytes)
      requires Valid() && Downloading(Now()) && i < |parts| && !parts[i].completed
      requires parts[i].temp in files && files[parts[i].temp].File?
      requires files[parts[i].temp].data + data <= remote(parts[i].key)
      modifies this`files, this`acts, this`moved
      ensures Valid() && acts == old(acts) + [Append(i, data)]
      ensures files == old(files)[parts[i].temp := File(old(files)[parts[i].temp].data + data)]
      ensures Wasted() == old(Wasted()) && Gained() == old(Gained()) + |data|
    {
      hide Inv, Legal, Run, Transfers, TotalDropped, TotalReceived;
      GoesOn(Append(i, data));
      files := files[parts[i].temp := File(files[parts[i].temp].data + data)];
      acts, moved := acts + [Append(i, data)], None;
    }

    /** The promoting rename. */
    method Rename(target: Path)
      requires Valid() && Enabled(remote, staging, Now(), Promote(target)) && Wasted() == Gained() == 0
      modifies this`files, this`acts, this`moved, this`since, this`listed
      ensures Valid() && acts == old(acts) + [Promote(target)]
      ensures files == Renamed(old(files), staging, target) && moved == Some(target) && Wasted() == Gained() == 0
    {
      hide Inv, Legal, Run, TotalDropped;
      OneMore(remote, staging, start, acts, Promote(target));
      files := Renamed(files, staging, target);
      acts, moved := acts + [Promote(target)], Some(target);
      since, listed := |acts|, Now();
      assert acts[..since] == acts;
    }

    /** What was missing when the parts were listed plus what was thrown away since is what is missing
        now plus what was received. */
    lemma Balance()
      requires Valid()
      ensures Missing(remote, listed.parts, listed.files) + Wasted() == Missing(remote, parts, files) + Gained()
    {
      MissingBalance(remote, staging, start, acts, since);
    }

    /** The sizes of all parts add up to what they did when the parts were listed. */
    lemma SameSizes()
      requires Valid()
      ensures Missing(remote, parts, map[]) == Missing(remote, listed.parts, map[])
    {
      TransfersKeepKeys(remote, staging, start, acts, since);
      MissingFramed(remote, listed.parts, parts, map[], map[]);
    }

    /** Conservation over a pass that found some parts and files: what was missing, which is everything
        if the pass had to list the parts itself, plus what it threw away is what is missing now plus
        what it received. */
    ghost predicate Conserves(before: seq<Part>, disk: Files)
      reads `parts, `files, `acts
    {
      && (if before == [] then Missing(remote, parts, map[]) else Missing(remote, before, disk)) + Wasted()
         == Missing(remote, parts, files) + Gained()
      && (before != [] ==> parts != [] && Missing(remote, parts, map[]) == Missing(remote, before, map[]))
      && (parts == [] ==> Wasted() == Gained() == 0)
    }

    /** When nothing was staged as the parts were listed, all their bytes were missing then. */
    lemma AllWasMissing()
      requires Valid() && NothingStaged(listed.files, staging)
      ensures Missing(remote, listed.parts, listed.files) == Missing(remote, parts, map[])
    {
      assert acts == acts[..since] + acts[since..];
      LegalRunsJoin(remote, staging, start, acts[..since], acts[since..]);
      RunKeeps(remote, staging, start, acts[..since]);
      TransfersKeepKeys(remote, staging, start, acts, since);
      forall i | 0 <= i < |listed.parts| ensures listed.parts[i].temp !in listed.files {
        assert PartOk(remote, staging, listed.files, listed.parts[i]);
        assert staging < listed.parts[i].temp;
      }
      MissingFramed(remote, listed.parts, parts, listed.files, map[]);
    }
  }
}

/**
 The local phase of a job as a whole: any number of download and finalize passes, from the moment
 the poller hands the job over, with successful database writes and no crash. The passes are those
 of Download.dfy and Finalize.dfy, each started on what the one before it left.
 */
module LocalPhase {
  import opened Wrappers
  import opened Jobs
  import opened Assets
  import opened Content
  import opened Session
  import D = Download
  import F = Finalize
  import T = TimeText

  /** No attempt but the last completed a run of 5xx answers that is long enough to give up. */
  ghost predicate NotBefore(attempts: seq<D.Outcome>)
  {
    forall k | 0 <= k < |attempts| :: D.Trailing(attempts[..k]) < 3
  }

  /** A pass whose attempts all end well but for the last adds no earlier run. */
  lemma StillNotBefore(before: seq<D.Outcome>, after: seq<D.Outcome>)
    requires NotBefore(before) && D.Trailing(before) < 3 && before <= after
    requires forall k | |before| <= k < |after| - 1 :: after[k].Done?
    ensures NotBefore(after)
  {
    forall k | 0 <= k < |after| ensures D.Trailing(after[..k]) < 3 {
      if k <= |before| {
        assert after[..k] == before[..k];
        assert before[..|before|] == before;
      } else {
        assert after[..k][k - 1] == after[k - 1];
      }
    }
  }

  /** What a pass runs up against: the time and the time of the next pass, what the service lists if the parts
      are not registered yet, and what an attempt at the part of each row meets. */
  datatype Round = Round(now: T.Time, next: T.Time, listing: D.Links, trials: nat -> D.Trial)

  /** How things stand between two passes, and what the attempts so far have met. */
  datatype Point = Point(pipe: Pipe, met: seq<D.Exchange>, attempts: seq<D.Outcome>)

  /** Bytes received or thrown away in two stages. */
  lemma {:induction false} TotalsAppend(a: seq<D.Exchange>, b: seq<D.Exchange>)
    ensures D.ReceivedIn(a + b) == D.ReceivedIn(a) + D.ReceivedIn(b)
    ensures D.DroppedIn(a + b) == D.DroppedIn(a) + D.DroppedIn(b)
  {
    hide D.Body, D.Lost;
    if b == [] {
      assert a + b == a;
    } else {
      assert (a + b)[..|a + b| - 1] == a + b[..|b| - 1];
      TotalsAppend(a, b[..|b| - 1]);
    }
  }

  ghost predicate Tally(met: seq<D.Exchange>, attempts: seq<D.Outcome>, received: nat, dropped: nat)
  {
    && |met| == |attempts| && (forall k | 0 <= k < |met| :: D.Decides(met[k], attempts[k]))
    && received == D.ReceivedIn(met) && dropped == D.DroppedIn(met)
  }

  lemma TallyNext(a: seq<D.Exchange>, b: seq<D.Exchange>, before: seq<D.Outcome>, after: seq<D.Outcome>, received: nat,
                  dropped: nat)
    requires Tally(a, before, received, dropped) && before <= after && |after| == |before| + |b|
    requires forall k | 0 <= k < |b| :: D.Decides(b[k], after[|before| + k])
    ensures Tally(a + b, after, received + D.ReceivedIn(b), dropped + D.DroppedIn(b))
  {
    hide D.Decides, D.ReceivedIn, D.DroppedIn;
    TotalsAppend(a, b);
    forall k | 0 <= k < |a + b| ensures D.Decides((a + b)[k], after[k]) {
      if k < |a| {
        assert after[k] == before[k];
      } else {
        assert D.Decides(b[k - |a|], after[|before| + (k - |a|)]);
      }
    }
  }

  class LocalJob {
    const remote: Remote
    const staging: Path
    const root: Path
    const strict: bool
    const honest: bool
    var row: Row
    var log: seq<Event>
    var parts: seq<Part>
    var files: Files

    ghost const start: Pipe
    ghost var moved: Option<Path>
    /** Every atomic change since the poller handed the job over. */
    ghost var acts: seq<Act>
    /** How every attempt at any part of the job ended. */
    ghost var attempts: seq<D.Outcome>
    /** What every attempt met. */
    ghost var met: seq<D.Exchange>
    /** Whether the job was failed for repeated 5xx answers. */
    ghost var gaveUp: bool

    ghost function Now(): Pipe
      reads `row, `parts, `files, `moved
    {
      Pipe(row, parts, files, moved)
    }

    /** One legal run leads from the handover to here. */
    ghost predicate Reached()
      reads `row, `parts, `files, `moved, `acts
    {
      && Fresh(staging, start) && Legal(remote, staging, start, acts)
      && Run(start, acts) == Now() && Inv(remote, staging, Now())
    }

    /** The stored retry count is the length of the trailing run of 5xx attempts, and the job was
        failed for 5xx answers exactly when that run has reached three, which is the first time. */
    ghost predicate Counted()
      reads this
    {
      && row.retryCount == D.Trailing(attempts) <= 3 && NotBefore(attempts)
      && (gaveUp <==> D.Trailing(attempts) == 3) && (gaveUp ==> row.state == Failed)
    }

    /** Bytes of the job received so far, and those thrown away by starting files over. */
    ghost function Received(): nat
      reads `acts
    {
      TotalReceived(acts)
    }

    ghost function Dropped(): nat
      reads `acts
    {
      TotalDropped(start, acts)
    }

    /** Every attempt ended as what it met decides, and all bytes received came in the bodies met. */
    ghost predicate Tallied()
      reads `acts, `attempts, `met
    {
      Tally(met, attempts, Received(), Dropped())
    }

    /** The rows that a pass attempts, and the disk as it is when it starts on them. */
    ghost function RowsOf(rows: seq<Part>, links: D.Links): seq<Part>
    {
      if rows == [] && links.Links? then D.RegisteredAll(links.assets, staging, |links.assets|) else rows
    }

    ghost function DiskOf(rows: seq<Part>, disk: Files): Files
    {
      if rows == [] then WithDirs(disk, staging) else disk
    }

    /** How a download pass over a row, its parts and a disk ends, and what it leaves; claims aside. */
    ghost predicate Fetched(job: Row, rows: seq<Part>, disk: Files, left: Row, leftRows: seq<Part>, leftDisk: Files,
                            outcomes: seq<D.Outcome>, exchanges: seq<D.Exchange>, r: Round, end: D.End)
    {
      var links := D.Heeded(remote, r.listing, honest);
      && (end == D.NoDirectory <==> !DirsFit(disk, staging))
      && (end == D.NoDirectory ==> left == job && leftRows == rows)
      && (end == D.LinksFailed <==> end != D.NoDirectory && rows == [] && links.NoLinks?)
      && (end == D.NoAssets <==> end != D.NoDirectory && rows == [] && links == D.Links([]))
      && (leftRows == [] ==> end == D.NoDirectory || end == D.LinksFailed || end == D.NoAssets)
      && D.Ended(end, left, r.now, r.next) && (end == D.Verified ==> AllCompleted(leftRows))
      && (if end == D.NoDirectory || leftRows == [] then exchanges == []
          else D.PassOf(exchanges, outcomes, r.trials, D.World(remote, strict, honest, job.remoteId),
                        RowsOf(rows, links), DiskOf(rows, disk), leftRows, leftDisk, left.retryCount, end))
    }

    /** How a finalize pass ends and what it leaves. */
    ghost predicate Finalized(before: Pipe, after: Pipe, r: Round, v: F.Verdict)
    {
      && after.row == F.Result(before.row, before.parts, v, F.Target(root, before.row), r.next).(claimedBy := None)
      && (v.NoParts? <==> before.parts == [])
      && (v.Promoted? <==>
            && before.parts != [] && (forall i | 0 <= i < |before.parts| :: LooksComplete(before.files,
                before.parts[i]))
            && F.Promotable(before.files, Some(staging), F.Target(root, before.row)))
    }

    /** The pass that the state calls for has been made. */
    ghost predicate Passed(before: Point, after: Point, r: Round)
    {
      var job, state := before.pipe, before.pipe.row.state;
      if state == LocalDownloadPending || state == LocalDownloading then
        && before.met <= after.met && before.attempts <= after.attempts
        && exists end :: Fetched(Unclaimed(job.row), job.parts, job.files, after.pipe.row, after.pipe.parts,
                                 after.pipe.files, after.attempts[|before.attempts|..], after.met[|before.met|..],
                                 r, end)
      else if state == LocalVerify then
        after.met == before.met && after.attempts == before.attempts && exists v :: Finalized(job, after.pipe, r, v)
      else after == before
    }

    ghost function Here(): Point
      reads `row, `parts, `files, `moved, `met, `attempts
    {
      Point(Now(), met, attempts)
    }

    /** The sizes of all parts together. */
    ghost function FullSize(): int
      reads `parts
    {
      Missing(remote, parts, map[])
    }

    /** Every byte of the parts is still to come, unless the job is completed, or was received and kept,
        and a strict server sends none twice. */
    ghost predicate Evens(rows: seq<Part>, disk: Files, completed: bool, received: nat, dropped: nat)
    {
      && (strict ==> dropped == 0) && (rows == [] ==> received == dropped == 0)
      && Missing(remote, rows, map[]) + dropped == (if completed then 0 else Missing(remote, rows, disk)) + received
    }

    ghost predicate Balanced()
      reads `row, `parts, `files, `acts
    {
      Evens(parts, files, row.state == Completed, Received(), Dropped())
    }

    lemma EvensAfter(pass: Pass, before: seq<Part>, disk: Files, received: nat, dropped: nat)
      requires Evens(before, disk, false, received, dropped) && pass.remote == remote
      requires pass.Conserves(before, disk) && (strict ==> pass.Wasted() == 0)
      ensures Evens(pass.parts, pass.files, false, received + pass.Gained(), dropped + pass.Wasted())
    {
    }

    ghost predicate Valid()
      reads this
    {
      && Reached() && Counted() && Balanced() && Tallied() && !(staging <= root) && !(root <= staging)
      && SizesOk(parts)
    }

    /** A job as the poller hands it over: without retries and with nothing staged. */
    constructor (handed: Row, events: seq<Event>, content: Remote, dir: Path, completedRoot: Path, disk: Files,
                 strictly: bool, honestly: bool)
      requires Fresh(dir, Pipe(handed, [], disk, None)) && handed.retryCount == 0
      requires !(dir <= completedRoot) && !(completedRoot <= dir)
      ensures Valid() && acts == [] && attempts == [] && met == [] && !gaveUp && start == Pipe(handed, [], disk, None)
      ensures row == handed && parts == [] && files == disk && remote == content && staging == dir
    {
      remote, staging, root, strict, honest := content, dir, completedRoot, strictly, honestly;
      row, log, parts, files := handed, events, [], disk;
      start, moved, acts, attempts, met, gaveUp := Pipe(handed, [], disk, None), None, [], [], [], false;
    }

    /** More legal acts from here. */
    lemma Joined(more: seq<Act>, after: Pipe)
      requires Reached() && Legal(remote, staging, Now(), more) && Run(Now(), more) == after
      ensures Legal(remote, staging, start, acts + more) && Run(start, acts + more) == after
      ensures Inv(remote, staging, after)
    {
      LegalRunsJoin(remote, staging, start, acts, more);
      RunKeeps(remote, staging, Now(), more);
    }

    /** A claim that is set or cleared. */
    method Mark(claim: Option<Worker>)
      requires Reached()
      modifies `row, `acts
      ensures Reached() && row == old(row).(claimedBy := claim) && acts == old(acts) + [Act.Mark(claim)]
      ensures Received() == old(Received()) && Dropped() == old(Dropped())
    {
      ghost var after := Now().(row := row.(claimedBy := claim));
      MarkIsLegal(claim);
      Joined([Act.Mark(claim)], after);
      row := row.(claimedBy := claim);
      acts := acts + [Act.Mark(claim)];
    }

    lemma MarkIsLegal(claim: Option<Worker>)
      requires Reached()
      ensures Legal(remote, staging, Now(), [Act.Mark(claim)])
      ensures Run(Now(), [Act.Mark(claim)]) == Now().(row := row.(claimedBy := claim))
    {
      assert [Act.Mark(claim)][..0] == [];
      assert Enabled(remote, staging, Now(), Act.Mark(claim));
    }

    /** A worker claims the job, fetches it and reads its parts. */
    method TakeUp(w: Worker) returns (pass: Pass)
      requires Reached()
      modifies `row, `acts
      ensures Reached() && row == old(row).(claimedBy := Some(w)) && old(acts) <= acts
      ensures fresh(pass) && fresh(pass.h) && pass.Valid() && pass.start == pass.listed == pass.Now() == Now()
      ensures pass.remote == remote && pass.staging == staging && pass.acts == [] && pass.h.writes == []
      ensures pass.h.job == pass.h.stored == pass.entry == row && pass.parts == parts && pass.files == files
      ensures Received() == old(Received()) && Dropped() == old(Dropped())
    {
      hide Inv, Legal, Run, Fresh;
      Mark(Some(w));
      var h := new Handle(row, log);
      pass := new Pass(h, remote, staging, parts, files, moved);
    }

    /** What a pass has left, and the release of the claim. */
    method LayDown(pass: Pass)
      requires Reached() && pass.Valid() && pass.start == Now() && pass.remote == remote && pass.staging == staging
      modifies `row, `log, `parts, `files, `moved, `acts
      ensures Reached() && old(acts) <= acts && parts == pass.parts && files == pass.files
      ensures row == pass.h.stored.(claimedBy := None)
      ensures Received() == old(Received()) + pass.Gained() && Dropped() == old(Dropped()) + pass.Wasted()
    {
      hide Inv, Legal, Run, Fresh, Transfers, TotalDropped, TotalReceived;
      Joined(pass.acts, pass.Now());
      TotalsJoin(start, acts, pass.acts);
      row, log, parts, files := pass.h.stored, pass.h.events, pass.parts, pass.files;
      moved, acts := pass.moved, acts + pass.acts;
      Mark(None);
    }

    ghost predicate SizesOk(rows: seq<Part>)
    {
      honest ==> forall j | 0 <= j < |rows| :: rows[j].contentLength <= |remote(rows[j].key)|
    }

    /** The download handler on a job taken up. */
    method Transfer(pass: Pass, r: Round)
      returns (end: D.End, ghost history: seq<D.Outcome>, ghost exchanges: seq<D.Exchange>)
      requires pass.Valid() && pass.acts == [] && pass.start == pass.listed == pass.Now() && Downloading(pass.Now())
      requires pass.h.writes == [] && pass.h.job == pass.h.stored == pass.entry
      requires pass.remote == remote && pass.staging == staging
      requires SizesOk(pass.parts) && pass.h.stored.retryCount == D.Trailing(attempts) < 3
      modifies pass, pass.h
      ensures pass.Valid() && SizesOk(pass.parts) && attempts <= history
      ensures pass.h.stored.retryCount == D.Trailing(history) <= 3
      ensures end == D.Repeated5xx <==> D.Trailing(history) == 3
      ensures Fetched(Unclaimed(old(pass.h.stored)), old(pass.parts), old(pass.files), Unclaimed(pass.h.stored),
                      pass.parts, pass.files, history[|attempts|..], exchanges, r, end)
      ensures pass.h.stored.state != Completed
      ensures end == D.Repeated5xx ==> pass.h.stored.state == Failed
      ensures forall k | |attempts| <= k < |history| - 1 :: history[k].Done?
      ensures |history| == |attempts| + |exchanges|
      ensures forall k | 0 <= k < |exchanges| :: D.Decides(exchanges[k], history[|attempts| + k])
      ensures pass.Gained() == D.ReceivedIn(exchanges) && pass.Wasted() == D.DroppedIn(exchanges)
      ensures strict ==> pass.Wasted() == 0
      ensures pass.Conserves(old(pass.parts), old(pass.files))
    {
      hide Inv, Legal, Run, Transfers, TotalDropped, TotalReceived, Pass.Conserves, DirsFit, AllCompleted;
      hide Pass.Valid, Pass.Gained, Pass.Wasted, D.ReceivedIn, D.DroppedIn;
      hide D.Ended, D.Heeded, D.Failing, D.AllEnough, D.Stopped, D.DownloadWrites, D.TotalDone, D.Decides, D.Trailing;
      hide D.Transfer.Accounts, D.Transfer.LastOf, D.Transfer.Lists, D.Transfer.SeenBefore;
      hide D.PassOf, D.RegisteredAll, WithDirs, NothingStaged;
      var t := new D.Transfer(pass, strict, honest, attempts);
      StartsClean(pass);
      assert t.Opening();
      hide D.Transfer.Opening, Downloading;
      end := t.ProcessDownloadJob(r.listing, r.trials, r.now, r.next);
      history, exchanges := t.attempts, t.met;
      D.EndedUnclaimed(end, pass.h.stored, r.now, r.next);
      EndOfTransfer(end, old(pass.h.stored), pass.h.stored, r.now, r.next);
    }
    lemma StartsClean(pass: Pass)
      requires pass.Valid() && pass.acts == []
      ensures pass.Wasted() == 0
    {
    }

    lemma EndOfTransfer(end: D.End, before: Row, after: Row, now: T.Time, next: T.Time)
      requires D.Ended(end, after, now, next) && (end == D.NoDirectory ==> after == before) && before.state != Completed
      ensures after.state != Completed && (end == D.Repeated5xx ==> after.state == Failed)
    {
    }

    /** Claim, download handler and release. */
    method Download(r: Round) returns (end: D.End, ghost history: seq<D.Outcome>, ghost exchanges: seq<D.Exchange>)
      requires Reached() && Downloading(Now()) && SizesOk(parts) && Balanced()
      requires row.retryCount == D.Trailing(attempts) < 3
      modifies `row, `log, `parts, `files, `moved, `acts
      ensures Reached() && SizesOk(parts) && Balanced() && attempts <= history && old(acts) <= acts
      ensures row.retryCount == D.Trailing(history) <= 3
      ensures end == D.Repeated5xx <==> D.Trailing(history) == 3
      ensures Fetched(Unclaimed(old(row)), old(parts), old(files), row, parts, files, history[|attempts|..], exchanges,
                      r, end)
            && (end == D.Repeated5xx ==> row.state == Failed)
      ensures forall k | |attempts| <= k < |history| - 1 :: history[k].Done?
      ensures |history| == |attempts| + |exchanges|
      ensures forall k | 0 <= k < |exchanges| :: D.Decides(exchanges[k], history[|attempts| + k])
      ensures Received() == old(Received()) + D.ReceivedIn(exchanges)
            && Dropped() == old(Dropped()) + D.DroppedIn(exchanges)
    {
      hide Reached, Pass.Valid, TotalDropped, TotalReceived, Evens, Pass.Conserves, Fetched, D.Trailing, D.Decides;
      hide D.ReceivedIn, D.DroppedIn, Pass.Gained, Pass.Wasted, SizesOk, Received, Dropped, AllCompleted, DirsFit;
      var pass := TakeUp(Downloader);
      end, history, exchanges := Transfer(pass, r);
      EvensAfter(pass, parts, files, Received(), Dropped());
      LayDown(pass);
    }

    /** One pass of the downloader. */
    method DownloadPass(r: Round) returns (end: D.End)
      requires Valid() && Downloading(Now())
      modifies this
      ensures Valid() && old(attempts) <= attempts && old(acts) <= acts && old(met) <= met
      ensures gaveUp <==> end == D.Repeated5xx
      ensures Fetched(Unclaimed(old(row)), old(parts), old(files), row, parts, files, attempts[|old(attempts)|..],
                      met[|old(met)|..], r, end)
      ensures Passed(old(Here()), Here(), r)
    {
      hide Reached, Balanced, NotBefore, Fetched, D.ReceivedIn, D.DroppedIn, D.Decides, Received, Dropped, Tally;
      ghost var history, exchanges;
      end, history, exchanges := Download(r);
      StillNotBefore(attempts, history);
      TallyNext(met, exchanges, attempts, history, old(Received()), old(Dropped()));
      assert (met + exchanges)[|met|..] == exchanges;
      attempts, met := history, met + exchanges;
      gaveUp := end == D.Repeated5xx;
    }

    /** One pass of the finalizer. */
    method FinalizePass(r: Round) returns (v: F.Verdict)
      requires Valid() && row.state == LocalVerify
      modifies this
      ensures Valid() && attempts == old(attempts) && old(acts) <= acts && met == old(met)
      ensures v.Promoted? <==> row.state == Completed
      ensures Finalized(old(Now()), Now(), r, v) && Passed(old(Here()), Here(), r)
    {
      hide Reached, Pass.Valid, NotBefore, F.Target, F.Promotable, LooksComplete, TotalDropped, TotalReceived, Evens;
      hide D.ReceivedIn, D.DroppedIn, D.Decides, F.Result, Finalized, D.Trailing, F.FinalizeWrites, DeliveredTo,
          SizesOk;
      hide Pass.Gained, Pass.Wasted, Received, Dropped, Tally, Passed;
      var pass := TakeUp(Finalizer);
      TargetApart(F.Target(root, row));
      VerifiedIsWhole();
      v := F.ProcessFinalizeJob(pass, root, r.next);
      EvensFinal(pass, v.Promoted?);
      LayDown(pass);
      FinalizedRow(old(Now()), pass, Now(), r, v);
      FinalizedPasses(old(Here()), Here(), r, v);
    }

    lemma FinalizedPasses(before: Point, after: Point, r: Round, v: F.Verdict)
      requires Finalized(before.pipe, after.pipe, r, v) && before.pipe.row.state == LocalVerify
      requires after.met == before.met && after.attempts == before.attempts
      ensures Passed(before, after, r)
    {
    }

    lemma SameTarget(job: Row, claim: Option<Worker>)
      ensures F.Target(root, job.(claimedBy := claim)) == F.Target(root, job)
    {
    }

    lemma FinalizedRow(before: Pipe, pass: Pass, after: Pipe, r: Round, v: F.Verdict)
      requires pass.entry == before.row.(claimedBy := Some(Finalizer)) && pass.parts == before.parts
      requires pass.h.stored == Unclaimed(F.Result(pass.entry, pass.parts, v, F.Target(root, pass.entry), r.next))
      requires after.row == pass.h.stored.(claimedBy := None)
      requires v.NoParts? <==> before.parts == []
      requires v.Promoted? <==>
                 && before.parts != [] && (forall i | 0 <= i < |before.parts| :: LooksComplete(before.files,
                     before.parts[i]))
                 && F.Promotable(before.files, Some(staging), F.Target(root, pass.entry))
      ensures Finalized(before, after, r, v) && (v.Promoted? <==> after.row.state == Completed)
      ensures after.row.retryCount == before.row.retryCount && (before.row.state == LocalVerify && !v.Promoted? ==>
                after.row.state == LocalDownloading || after.row.state == Failed)
    {
      hide LooksComplete, F.Promotable, D.TotalLength, D.TotalDone, F.Target;
      SameTarget(before.row, Some(Finalizer));
    }

    /** A finalize pass receives nothing. It promotes only when nothing is missing, and otherwise leaves
        what is missing. */
    lemma EvensFinal(pass: Pass, promoted: bool)
      requires Evens(parts, files, false, Received(), Dropped())
      requires pass.Valid() && pass.remote == remote && pass.parts == parts && pass.Wasted() == pass.Gained() == 0
      requires if promoted then Missing(remote, parts, files) == 0
               else pass.listed.parts == parts && pass.listed.files == files
      ensures Evens(parts, pass.files, promoted, Received(), Dropped())
    {
      hide Pass.Valid;
      pass.Balance();
    }

    /** When every part looks complete to the finalizer, no byte is missing. */
    lemma VerifiedIsWhole()
      requires Reached() && row.state == LocalVerify
      ensures (forall i | 0 <= i < |parts| :: LooksComplete(files, parts[i])) ==> Missing(remote, parts, files) == 0
    {
      NothingMissing(remote, staging, parts, files);
      forall i | 0 <= i < |parts| && LooksComplete(files, parts[i]) ensures Whole(remote, files, parts[i]) {
        assert PartOk(remote, staging, files, parts[i]);
      }
    }

    lemma TargetApart(target: Path)
      requires !(staging <= root) && !(root <= staging) && root <= target
      ensures !(staging <= target)
    {
      if staging <= target {
        PrefixesNest(staging, root, target);
        assert false;
      }
    }

    /** Any number of passes, as the states call for them. In every run of this kind the retry count
        is the length of the trailing run of 5xx attempts over all parts and passes, the job fails
        for 5xx exactly at the third in a row, and whenever it is completed it is delivered. A strict
        server sends every byte of a completed job once. */
    method RunPasses(rounds: seq<Round>) returns (ghost trace: seq<Point>)
      requires Valid()
      modifies this
      ensures Valid() && old(attempts) <= attempts && old(acts) <= acts && old(met) <= met
      ensures |trace| == |rounds| + 1 && trace[0] == old(Here()) && trace[|rounds|] == Here()
      ensures forall i | 0 <= i < |rounds| :: Passed(trace[i], trace[i + 1], rounds[i])
      ensures row.retryCount == D.Trailing(attempts) && NotBefore(attempts)
      ensures gaveUp <==> D.Trailing(attempts) == 3
      ensures gaveUp ==> row.state == Failed
      ensures row.state == Completed ==> Delivered(remote, Now())
      ensures |met| == |attempts| && forall k | 0 <= k < |met| :: D.Decides(met[k], attempts[k])
      ensures FullSize() + D.DroppedIn(met) ==
              (if row.state == Completed then 0 else Missing(remote, parts, files)) + D.ReceivedIn(met)
      ensures strict ==> D.DroppedIn(met) == 0
      ensures row.state == Completed && strict ==> D.ReceivedIn(met) == FullSize()
    {
      hide Valid, Passed, D.Decides, Delivered;
      trace := [Here()];
      for i := 0 to |rounds|
        invariant Valid() && old(attempts) <= attempts && old(acts) <= acts && old(met) <= met
        invariant |trace| == i + 1 && trace[0] == old(Here()) && trace[i] == Here()
        invariant forall k | 0 <= k < i :: Passed(trace[k], trace[k + 1], rounds[k])
      {
        NextPass(rounds[i]);
        trace := trace + [Here()];
      }
      WhatValidMeans();
    }

    lemma WhatValidMeans()
      requires Valid()
      ensures row.retryCount == D.Trailing(attempts) && NotBefore(attempts)
      ensures (gaveUp <==> D.Trailing(attempts) == 3) && (gaveUp ==> row.state == Failed)
      ensures row.state == Completed ==> Delivered(remote, Now())
      ensures |met| == |attempts| && forall k | 0 <= k < |met| :: D.Decides(met[k], attempts[k])
      ensures FullSize() + D.DroppedIn(met) ==
              (if row.state == Completed then 0 else Missing(remote, parts, files)) + D.ReceivedIn(met)
      ensures strict ==> D.DroppedIn(met) == 0
    {
      hide D.Decides, D.ReceivedIn, D.DroppedIn, D.Trailing, Legal, Run, Fresh;
    }

    /** The pass the state of the job calls for, if any. */
    method NextPass(r: Round)
      requires Valid()
      modifies this
      ensures Valid() && old(attempts) <= attempts && old(acts) <= acts && old(met) <= met
      ensures Passed(old(Here()), Here(), r)
    {
      hide Valid, Fetched, Finalized;
      if row.state == LocalDownloadPending || row.state == LocalDownloading {
        var end := DownloadPass(r);
      } else if row.state == LocalVerify {
        var v := FinalizePass(r);
      }
    }
  }
}

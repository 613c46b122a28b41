/**
 What the database and the disk hold for one job while it is downloaded and finalized, as a
 transition system. One `Act` is one atomic change: a row write, a part write, one call that changes
 the disk, a claim set or cleared, or anything other jobs and the start-up do to the disk outside
 this job's directories. Nothing else survives a crash, so the states a crash can leave are the states
 between two acts, and a run with crashes, restarts and retries is simply a sequence of acts.

 The handlers in Download.dfy and Finalize.dfy are proved to perform legal acts only.
 */
module Content {
  import opened Wrappers
  import opened Jobs
  import opened Assets

  newtype Byte = b: int | 0 <= b < 256
  type Bytes = seq<Byte>

  datatype Node = Dir | File(data: Bytes)
  type Files = map<Path, Node>

  /** The content of each part, by part key; links may change, the content behind them does not. */
  type Remote = string -> Bytes

  /** `moved` is the target of the promoting rename while that is the latest act. */
  datatype Pipe = Pipe(row: Row, parts: seq<Part>, files: Files, moved: Option<Path>)

  datatype Act =
    | SaveRow(row: Row)
    | SavePart(part: Part)
    | MakeDirs(path: Path)
    | Truncate(idx: nat)
    | Append(idx: nat, data: Bytes)
    | Promote(target: Path)
    | Other(files: Files)
    | Mark(claim: Option<Worker>)

  // The disk.

  function Size(files: Files, path: Path): nat
  {
    if path in files && files[path].File? then |files[path].data| else 0
  }

  function Data(files: Files, path: Path): (data: Bytes)
    ensures |data| == Size(files, path)
  {
    if path in files && files[path].File? then files[path].data else []
  }

  function WithDirs(files: Files, path: Path): (r: Files)
    ensures forall p | p in files :: p in r && r[p] == files[p]
    ensures forall p | p in r && p !in files :: p <= path && r[p].Dir?
    ensures path in r
  {
    var prefixes := set n | 0 <= n <= |path| :: path[..n];
    assert path[..|path|] == path;
    (map p | p in prefixes :: Dir) + files
  }

  /** Whether making a directory and its parents meets no file on the way. */
  predicate DirsFit(files: Files, path: Path)
  {
    forall n | 0 <= n <= |path| :: path[..n] in files ==> files[path[..n]].Dir?
  }

  /** Renaming a directory moves everything in it. */
  function Renamed(files: Files, from: Path, to: Path): Files
  {
    var arriving := set p | p in files && from <= p :: to + p[|from|..];
    (map p | p in files && !(from <= p) && !(to <= p) :: files[p]) +
    (map q | q in arriving && from + q[|to|..] in files :: files[from + q[|to|..]])
  }

  /** When os.Rename moves a directory: it exists, nothing is at the target (an existing directory
      is an error even when it is empty, and so is a file), and neither contains the other. */
  predicate CanRename(files: Files, from: Path, to: Path)
  {
    from in files && to !in files && !(from <= to) && !(to <= from)
  }

  /** A directory and all its parents can be made exactly when none of them is a file. */
  lemma FitsExactly(files: Files, path: Path)
    ensures DirsFit(files, path) <==> forall p | p in files && p <= path :: files[p].Dir?
  {
    if DirsFit(files, path) {
      forall p | p in files && p <= path ensures files[p].Dir? {
        assert p == path[..|p|];
      }
    }
  }

  /** Afterwards all of them are there, and nothing else has changed. */
  lemma DirsExactly(files: Files, path: Path, p: Path)
    ensures p in WithDirs(files, path) <==> p in files || p <= path
    ensures p in WithDirs(files, path) ==> WithDirs(files, path)[p] == if p in files then files[p] else Dir
  {
    if p <= path {
      assert p == path[..|p|];
    }
  }

  /** A rename takes away what was in the directory, puts it below the target, and leaves everything else. */
  lemma RenamedExactly(files: Files, from: Path, to: Path, p: Path)
    requires CanRename(files, from, to)
    ensures var after := Renamed(files, from, to);
            && (from <= p ==> p !in after)
            && (to <= p ==> (p in after <==> from + p[|to|..] in files)
                            && (p in after ==> after[p] == files[from + p[|to|..]]))
            && (!(from <= p) && !(to <= p) ==> (p in after <==> p in files) && (p in after ==> after[p] == files[p]))
  {
    if from <= p && to <= p {
      PrefixesNest(from, to, p);
      assert false;
    }
    if to <= p {
      var was := from + p[|to|..];
      assert was[|from|..] == p[|to|..] && to + was[|from|..] == p;
    }
  }

  // The parts table.

  function FindPart(parts: seq<Part>, key: string): (found: Option<nat>)
    ensures found.Some? ==> found.value < |parts| && parts[found.value].key == key
    ensures found.None? ==> forall i | 0 <= i < |parts| :: parts[i].key != key
  {
    if parts == [] then None
    else if parts[|parts| - 1].key == key then Some(|parts| - 1)
    else FindPart(parts[..|parts| - 1], key)
  }

  /** UpsertTransferPart: a part with a known key replaces the row of that key. */
  function PutPart(parts: seq<Part>, part: Part): (r: seq<Part>)
    ensures |parts| <= |r| <= |parts| + 1
  {
    var found := FindPart(parts, part.key);
    if found.Some? then parts[found.value := part] else parts + [part]
  }

  predicate AllCompleted(parts: seq<Part>)
  {
    parts != [] && forall i | 0 <= i < |parts| :: parts[i].completed
  }

  // The system.

  function FilesAfter(p: Pipe, act: Act): Files
  {
    match act
    case SaveRow(_) => p.files
    case SavePart(_) => p.files
    case MakeDirs(path) => WithDirs(p.files, path)
    case Truncate(i) => if i < |p.parts| then p.files[p.parts[i].temp := File([])] else p.files
    case Append(i, data) =>
      if i < |p.parts| && p.parts[i].temp in p.files && p.files[p.parts[i].temp].File? then
        p.files[p.parts[i].temp := File(p.files[p.parts[i].temp].data + data)]
      else p.files
    case Promote(target) =>
      if p.row.stagingPath.Some? then Renamed(p.files, p.row.stagingPath.value, target) else p.files
    case Other(files) => files
    case Mark(_) => p.files
  }

  function After(p: Pipe, act: Act): Pipe
  {
    Pipe(if act.SaveRow? then Unclaimed(act.row) else if act.Mark? then p.row.(claimedBy := act.claim) else p.row,
         if act.SavePart? then PutPart(p.parts, act.part) else p.parts,
         FilesAfter(p, act),
         if act.Promote? then Some(act.target) else if act.Other? || act.Mark? then p.moved else None)
  }

  ghost predicate Apart(parts: seq<Part>)
  {
    forall i, j | 0 <= i < |parts| && 0 <= j < |parts| && i != j ::
      parts[i].key != parts[j].key && !(parts[i].temp <= parts[j].temp)
  }

  ghost predicate NothingStaged(files: Files, staging: Path)
  {
    forall q | q in files :: !(staging < q)
  }

  ghost predicate Whole(remote: Remote, files: Files, part: Part)
  {
    part.temp in files && files[part.temp] == File(remote(part.key))
  }

  /** Every part lies under a directory, at its relative path, byte for byte. */
  ghost predicate DeliveredTo(remote: Remote, parts: seq<Part>, files: Files, target: Path)
  {
    && parts != []
    && forall i | 0 <= i < |parts| ::
         target + parts[i].rel in files && files[target + parts[i].rel] == File(remote(parts[i].key))
  }

  ghost predicate Delivered(remote: Remote, p: Pipe)
  {
    p.row.completedPath.Some? && DeliveredTo(remote, p.parts, p.files, p.row.completedPath.value)
  }

  /** What the finalizer looks at before it promotes: the part is there and not shorter than known. */
  predicate LooksComplete(files: Files, part: Part)
  {
    part.temp in files && (part.contentLength > 0 ==> Size(files, part.temp) >= part.contentLength)
  }

  predicate Active(p: Pipe)
  {
    p.row.state == LocalDownloadPending || p.row.state == LocalDownloading || p.row.state == LocalVerify
  }

  predicate Downloading(p: Pipe)
  {
    p.row.state == LocalDownloadPending || p.row.state == LocalDownloading
  }

  /** A part write of a running download: same file, and marked completed only when it is whole. */
  ghost predicate Progresses(remote: Remote, p: Pipe, part: Part)
  {
    exists i | 0 <= i < |p.parts| ::
      && p.parts[i].key == part.key && p.parts[i].temp == part.temp && p.parts[i].rel == part.rel
      && !p.parts[i].completed && (part.completed ==> Whole(remote, p.files, part))
  }

  /** A part write of the registration, before anything is downloaded. */
  ghost predicate Registers(staging: Path, p: Pipe, part: Part)
  {
    && NothingStaged(p.files, staging) && !part.completed
    && part.rel != [] && part.temp == staging + part.rel && Apart(PutPart(p.parts, part))
  }

  /** A tree is the same on two disks. */
  ghost predicate Untouched(before: Files, after: Files, root: Path)
  {
    forall q | root <= q :: (q in before <==> q in after) && (q in before ==> before[q] == after[q])
  }

  ghost predicate Enabled(remote: Remote, staging: Path, p: Pipe, act: Act)
  {
    && (act.Other? || act.Mark? || Active(p))
    && match act
       case SaveRow(row) =>
         && row.id == p.row.id && row.stagingPath == Some(staging)
         && (|| ((row.state == p.row.state || row.state == LocalDownloading || row.state == Failed)
                 && row.completedPath == p.row.completedPath)
             || (row.state == LocalVerify && AllCompleted(p.parts))
             || (row.state == Completed && p.row.state == LocalVerify
                 && p.moved.Some? && row.completedPath == p.moved))
       case SavePart(part) => Downloading(p) && (Progresses(remote, p, part) || Registers(staging, p, part))
       case MakeDirs(path) =>
         && DirsFit(p.files, path) && (forall i | 0 <= i < |p.parts| :: !(p.parts[i].temp <= path))
         && (p.parts == [] ==> !(staging < path))
       case Truncate(i) => Downloading(p) && i < |p.parts| && !p.parts[i].completed
       case Append(i, data) =>
         && Downloading(p) && i < |p.parts| && !p.parts[i].completed
         && p.parts[i].temp in p.files && p.files[p.parts[i].temp].File?
         && p.files[p.parts[i].temp].data + data <= remote(p.parts[i].key)
       case Promote(target) =>
         && p.row.state == LocalVerify && p.row.stagingPath == Some(staging) && CanRename(p.files, staging, target)
         && forall i | 0 <= i < |p.parts| :: LooksComplete(p.files, p.parts[i])
       case Other(files) =>
         && Untouched(p.files, files, staging)
         && (p.row.completedPath.Some? ==> Untouched(p.files, files, p.row.completedPath.value))
         && (p.moved.Some? ==> Untouched(p.files, files, p.moved.value))
       case Mark(_) => true
  }

  function Run(p: Pipe, acts: seq<Act>): Pipe
  {
    if acts == [] then p else After(Run(p, acts[..|acts| - 1]), acts[|acts| - 1])
  }

  ghost predicate Legal(remote: Remote, staging: Path, p: Pipe, acts: seq<Act>)
  {
    acts == [] ||
    (Legal(remote, staging, p, acts[..|acts| - 1])
     && Enabled(remote, staging, Run(p, acts[..|acts| - 1]), acts[|acts| - 1]))
  }

  // Safety.

  ghost predicate PartOk(remote: Remote, staging: Path, files: Files, part: Part)
  {
    && part.rel != [] && part.temp == staging + part.rel
    && (part.temp in files ==>
          && files[part.temp].File? && files[part.temp].data <= remote(part.key)
          && (part.completed ==> files[part.temp].data == remote(part.key)))
  }

  /** A job that is being downloaded or verified has its staging directory on record; one that has
      just come from the poller may have none yet. */
  ghost predicate Placed(staging: Path, row: Row)
  {
    && (row.state == LocalDownloading || row.state == LocalVerify ==> row.stagingPath == Some(staging))
    && (row.state == LocalDownloadPending ==> row.stagingPath.None? || row.stagingPath == Some(staging))
  }

  /** On disk a part is absent or a prefix of its remote file, and the whole of it once completed. */
  ghost predicate Inv(remote: Remote, staging: Path, p: Pipe)
  {
    && Apart(p.parts) && Placed(staging, p.row)
    && (forall i | 0 <= i < |p.parts| :: PartOk(remote, staging, p.files, p.parts[i]))
    && (p.parts == [] ==> NothingStaged(p.files, staging))
    && (p.row.state == LocalVerify ==> AllCompleted(p.parts))
    && (p.row.state == Completed ==> Delivered(remote, p))
    && (p.moved.Some? ==> DeliveredTo(remote, p.parts, p.files, p.moved.value))
  }

  /** A job that has just come from the poller. */
  ghost predicate Fresh(staging: Path, p: Pipe)
  {
    && p.row.state == LocalDownloadPending && Placed(staging, p.row)
    && p.parts == [] && NothingStaged(p.files, staging) && p.moved.None?
  }

  lemma RegisterKeeps(remote: Remote, staging: Path, p: Pipe, part: Part)
    requires Inv(remote, staging, p) && Downloading(p) && Registers(staging, p, part)
    ensures Inv(remote, staging, After(p, SavePart(part)))
  {
    var parts := PutPart(p.parts, part);
    assert part.temp !in p.files by {
      assert staging < part.temp;
    }
    forall i | 0 <= i < |parts| ensures PartOk(remote, staging, p.files, parts[i]) {
      assert parts[i] == part || (i < |p.parts| && parts[i] == p.parts[i]);
    }
  }

  /** A download's part write replaces the row of its part. */
  lemma ProgressPuts(remote: Remote, p: Pipe, part: Part) returns (i: nat)
    requires Apart(p.parts) && Progresses(remote, p, part)
    ensures i < |p.parts| && PutPart(p.parts, part) == p.parts[i := part]
    ensures p.parts[i].key == part.key && p.parts[i].temp == part.temp && p.parts[i].rel == part.rel
    ensures !p.parts[i].completed && (part.completed ==> Whole(remote, p.files, part))
  {
    i :| 0 <= i < |p.parts| && p.parts[i].key == part.key && p.parts[i].temp == part.temp
         && p.parts[i].rel == part.rel && !p.parts[i].completed
         && (part.completed ==> Whole(remote, p.files, part));
    assert FindPart(p.parts, part.key) == Some(i);
  }

  lemma ProgressKeeps(remote: Remote, staging: Path, p: Pipe, part: Part)
    requires Inv(remote, staging, p) && Downloading(p) && Progresses(remote, p, part)
    ensures Inv(remote, staging, After(p, SavePart(part)))
  {
    var i := ProgressPuts(remote, p, part);
    var parts := PutPart(p.parts, part);
    assert PartOk(remote, staging, p.files, p.parts[i]);
    forall j | 0 <= j < |parts| ensures PartOk(remote, staging, p.files, parts[j]) {
      assert j != i ==> parts[j] == p.parts[j];
    }
  }

  lemma MakeDirsKeeps(remote: Remote, staging: Path, p: Pipe, path: Path)
    requires Inv(remote, staging, p) && Enabled(remote, staging, p, MakeDirs(path))
    ensures Inv(remote, staging, After(p, MakeDirs(path)))
  {
    var q := After(p, MakeDirs(path));
    forall i | 0 <= i < |p.parts| ensures PartOk(remote, staging, q.files, p.parts[i]) {
      assert PartOk(remote, staging, p.files, p.parts[i]);
      assert p.parts[i].temp in q.files ==> p.parts[i].temp in p.files;
    }
    if p.parts == [] {
      forall t | t in q.files ensures !(staging < t) {
        if t !in p.files {
          assert t <= path;
        }
      }
    }
  }

  lemma FileWriteKeeps(remote: Remote, staging: Path, p: Pipe, i: nat, data: Bytes)
    requires Inv(remote, staging, p) && Downloading(p) && i < |p.parts| && !p.parts[i].completed
    requires data <= remote(p.parts[i].key)
    ensures Inv(remote, staging, p.(files := p.files[p.parts[i].temp := File(data)], moved := None))
  {
    var q := p.(files := p.files[p.parts[i].temp := File(data)], moved := None);
    forall j | 0 <= j < |p.parts| ensures PartOk(remote, staging, q.files, p.parts[j]) {
      assert PartOk(remote, staging, p.files, p.parts[j]);
      assert j != i ==> p.parts[j].temp != p.parts[i].temp;
    }
  }

  /** What was at a place below the old directory is at the same place below the new one. */
  lemma RenamedHolds(files: Files, from: Path, to: Path, rel: Path)
    requires from + rel in files
    ensures to + rel in Renamed(files, from, to) && Renamed(files, from, to)[to + rel] == files[from + rel]
  {
    var p, q := from + rel, to + rel;
    assert p[|from|..] == rel && q[|to|..] == rel;
  }

  lemma PromoteKeeps(remote: Remote, staging: Path, p: Pipe, target: Path)
    requires Inv(remote, staging, p) && Enabled(remote, staging, p, Promote(target))
    ensures Inv(remote, staging, After(p, Promote(target)))
  {
    var q := After(p, Promote(target));
    forall i | 0 <= i < |p.parts|
      ensures PartOk(remote, staging, q.files, p.parts[i])
      ensures target + p.parts[i].rel in q.files && q.files[target + p.parts[i].rel] == File(remote(p.parts[i].key))
    {
      assert PartOk(remote, staging, p.files, p.parts[i]) && LooksComplete(p.files, p.parts[i]);
      RenamedHolds(p.files, staging, target, p.parts[i].rel);
      var temp := p.parts[i].temp;
      assert staging <= temp;
      if target <= temp {
        PrefixesNest(staging, target, temp);
        assert false;
      }
    }
  }

  /** Two prefixes of one path are nested. */
  lemma PrefixesNest(a: Path, b: Path, p: Path)
    requires a <= p && b <= p
    ensures a <= b || b <= a
  {
    if |a| <= |b| {
      assert a == p[..|a|] == b[..|a|];
    } else {
      assert b == p[..|b|] == a[..|b|];
    }
  }

  lemma OtherKeeps(remote: Remote, staging: Path, p: Pipe, files: Files)
    requires Inv(remote, staging, p) && Enabled(remote, staging, p, Other(files))
    ensures Inv(remote, staging, After(p, Other(files)))
  {
    forall i | 0 <= i < |p.parts| ensures PartOk(remote, staging, files, p.parts[i]) {
      assert PartOk(remote, staging, p.files, p.parts[i]);
      assert staging <= p.parts[i].temp;
    }
    DeliveredStays(remote, p, files);
  }

  lemma DeliveredStays(remote: Remote, p: Pipe, files: Files)
    requires p.row.completedPath.Some? ==> Untouched(p.files, files, p.row.completedPath.value)
    requires p.moved.Some? ==> Untouched(p.files, files, p.moved.value)
    ensures Delivered(remote, p) ==> Delivered(remote, p.(files := files))
    ensures p.moved.Some? && DeliveredTo(remote, p.parts, p.files, p.moved.value) ==>
              DeliveredTo(remote, p.parts, files, p.moved.value)
  {
    forall root: Path, i | Untouched(p.files, files, root) && 0 <= i < |p.parts|
      ensures root + p.parts[i].rel in p.files ==>
                root + p.parts[i].rel in files && files[root + p.parts[i].rel] == p.files[root + p.parts[i].rel]
    {
      assert root <= root + p.parts[i].rel;
    }
  }

  lemma ActKeeps(remote: Remote, staging: Path, p: Pipe, act: Act)
    requires Inv(remote, staging, p) && Enabled(remote, staging, p, act)
    ensures Inv(remote, staging, After(p, act))
  {
    match act {
      case SaveRow(row) =>
      case SavePart(part) =>
        if Registers(staging, p, part) {
          RegisterKeeps(remote, staging, p, part);
        } else {
          ProgressKeeps(remote, staging, p, part);
        }
      case MakeDirs(path) => MakeDirsKeeps(remote, staging, p, path);
      case Truncate(i) => FileWriteKeeps(remote, staging, p, i, []);
      case Append(i, data) =>
        FileWriteKeeps(remote, staging, p, i, p.files[p.parts[i].temp].data + data);
      case Promote(target) => PromoteKeeps(remote, staging, p, target);
      case Other(files) => OtherKeeps(remote, staging, p, files);
      case Mark(_) =>
    }
  }

  lemma {:induction false} RunKeeps(remote: Remote, staging: Path, p: Pipe, acts: seq<Act>)
    requires Inv(remote, staging, p) && Legal(remote, staging, p, acts)
    ensures Inv(remote, staging, Run(p, acts))
  {
    if acts != [] {
      RunKeeps(remote, staging, p, acts[..|acts| - 1]);
      ActKeeps(remote, staging, Run(p, acts[..|acts| - 1]), acts[|acts| - 1]);
    }
  }

  /** A run may stop anywhere and be taken up again by another. */
  lemma {:induction false} LegalRunsJoin(remote: Remote, staging: Path, p: Pipe, a: seq<Act>, b: seq<Act>)
    ensures Run(p, a + b) == Run(Run(p, a), b)
    ensures Legal(remote, staging, p, a + b) <==>
            Legal(remote, staging, p, a) && Legal(remote, staging, Run(p, a), b)
  {
    if b == [] {
      assert a + b == a;
    } else {
      assert (a + b)[..|a + b| - 1] == a + b[..|b| - 1];
      LegalRunsJoin(remote, staging, p, a, b[..|b| - 1]);
    }
  }

  /** Whatever a job went through since it came from the poller: whenever it is Completed, every
      registered part lies under its completed path with exactly the remote bytes. */
  lemma CompletedMeansDelivered(remote: Remote, staging: Path, p: Pipe, acts: seq<Act>)
    requires Fresh(staging, p) && Legal(remote, staging, p, acts)
    ensures Run(p, acts).row.state == Completed ==> Delivered(remote, Run(p, acts))
  {
    RunKeeps(remote, staging, p, acts);
  }

  /** At every point of such a run, also between the acts of one download: what is staged of a part
      is a prefix of its remote file, and a completed part that is still staged is all of it. */
  lemma StagedIsPrefix(remote: Remote, staging: Path, p: Pipe, acts: seq<Act>, cut: nat)
    requires Fresh(staging, p) && Legal(remote, staging, p, acts) && cut <= |acts|
    ensures var q := Run(p, acts[..cut]);
            forall i | 0 <= i < |q.parts| && q.parts[i].temp in q.files ::
              && q.files[q.parts[i].temp].File? && q.files[q.parts[i].temp].data <= remote(q.parts[i].key)
              && (q.parts[i].completed ==> q.files[q.parts[i].temp].data == remote(q.parts[i].key))
  {
    assert acts == acts[..cut] + acts[cut..];
    LegalRunsJoin(remote, staging, p, acts[..cut], acts[cut..]);
    RunKeeps(remote, staging, p, acts[..cut]);
    var q := Run(p, acts[..cut]);
    assert forall i | 0 <= i < |q.parts| :: PartOk(remote, staging, q.files, q.parts[i]);
  }

  // Progress.

  /** Bytes still missing from the parts on disk. */
  function Missing(remote: Remote, parts: seq<Part>, files: Files): int
  {
    if parts == [] then 0
    else
      var last := parts[|parts| - 1];
      Missing(remote, parts[..|parts| - 1], files) + |remote(last.key)| - Size(files, last.temp)
  }

  function Received(act: Act): nat { if act.Append? then |act.data| else 0 }

  /** Bytes thrown away by starting a file over. */
  function Dropped(p: Pipe, act: Act): nat
  {
    if act.Truncate? && act.idx < |p.parts| then Size(p.files, p.parts[act.idx].temp) else 0
  }

  function TotalReceived(acts: seq<Act>): nat
  {
    if acts == [] then 0 else TotalReceived(acts[..|acts| - 1]) + Received(acts[|acts| - 1])
  }

  function TotalDropped(p: Pipe, acts: seq<Act>): nat
  {
    if acts == [] then 0
    else TotalDropped(p, acts[..|acts| - 1]) + Dropped(Run(p, acts[..|acts| - 1]), acts[|acts| - 1])
  }

  /** What two stretches receive and throw away adds up. */
  lemma {:induction false} TotalsJoin(p: Pipe, a: seq<Act>, b: seq<Act>)
    ensures TotalReceived(a + b) == TotalReceived(a) + TotalReceived(b)
    ensures TotalDropped(p, a + b) == TotalDropped(p, a) + TotalDropped(Run(p, a), b)
    ensures Run(p, a + b) == Run(Run(p, a), b)
  {
    hide After;
    if b == [] {
      assert a + b == a;
    } else {
      assert (a + b)[..|a + b| - 1] == a + b[..|b| - 1];
      TotalsJoin(p, a, b[..|b| - 1]);
    }
  }

  /** From act number `since` on, parts are only downloaded, not registered or promoted. */
  ghost predicate Transfers(remote: Remote, p: Pipe, acts: seq<Act>, since: nat)
  {
    |acts| <= since ||
    (var front, act := acts[..|acts| - 1], acts[|acts| - 1];
     && Transfers(remote, p, front, since) && !act.Promote?
     && (act.SavePart? ==> Progresses(remote, Run(p, front), act.part)))
  }

  lemma {:induction false} MissingFramed(remote: Remote, parts: seq<Part>, other: seq<Part>, f: Files, g: Files)
    requires |parts| == |other|
    requires forall i | 0 <= i < |parts| ::
               parts[i].key == other[i].key && Size(f, parts[i].temp) == Size(g, other[i].temp)
    ensures Missing(remote, parts, f) == Missing(remote, other, g)
  {
    if parts != [] {
      MissingFramed(remote, parts[..|parts| - 1], other[..|other| - 1], f, g);
    }
  }

  /** Changing one file changes what is missing by just as much. */
  lemma {:induction false} MissingShifts(remote: Remote, parts: seq<Part>, f: Files, i: nat, data: Bytes)
    requires Apart(parts) && i < |parts|
    ensures var g := f[parts[i].temp := File(data)];
            Missing(remote, parts, g) == Missing(remote, parts, f) + Size(f, parts[i].temp) - |data|
  {
    var g := f[parts[i].temp := File(data)];
    var top := |parts| - 1;
    if i == top {
      assert forall j | 0 <= j < top :: parts[j].temp != parts[i].temp;
      MissingFramed(remote, parts[..top], parts[..top], f, g);
    } else {
      MissingShifts(remote, parts[..top], f, i, data);
      assert parts[top].temp != parts[i].temp;
    }
  }

  lemma ActBalance(remote: Remote, staging: Path, p: Pipe, act: Act)
    requires Inv(remote, staging, p) && Enabled(remote, staging, p, act) && !act.Promote?
    requires act.SavePart? ==> Progresses(remote, p, act.part)
    ensures var q := After(p, act);
            Missing(remote, p.parts, p.files) + Dropped(p, act) == Missing(remote, q.parts, q.files) + Received(act)
  {
    var q := After(p, act);
    match act {
      case SaveRow(_) =>
      case SavePart(part) =>
        var i := ProgressPuts(remote, p, part);
        MissingFramed(remote, p.parts, q.parts, p.files, p.files);
      case MakeDirs(path) =>
        MissingFramed(remote, p.parts, p.parts, p.files, q.files);
      case Other(files) =>
        forall i | 0 <= i < |p.parts| ensures Size(p.files, p.parts[i].temp) == Size(files, p.parts[i].temp) {
          assert PartOk(remote, staging, p.files, p.parts[i]);
          assert staging <= p.parts[i].temp;
        }
        MissingFramed(remote, p.parts, p.parts, p.files, files);
      case Mark(_) =>
      case Truncate(i) => MissingShifts(remote, p.parts, p.files, i, []);
      case Append(i, data) => MissingShifts(remote, p.parts, p.files, i, p.files[p.parts[i].temp].data + data);
    }
  }

  /** Conservation: over any stretch of downloading, what was missing plus what was thrown away is
      what is missing still plus what was received. With nothing thrown away, which a server that
      honours Range ensures, the missing bytes fall by exactly the bytes received. */
  lemma {:induction false} MissingBalance(remote: Remote, staging: Path, p: Pipe, acts: seq<Act>, since: nat)
    requires Inv(remote, staging, p) && Legal(remote, staging, p, acts)
    requires since <= |acts| && Transfers(remote, p, acts, since)
    ensures var a, b := Run(p, acts[..since]), Run(p, acts);
            Missing(remote, a.parts, a.files) + TotalDropped(p, acts) - TotalDropped(p, acts[..since])
            == Missing(remote, b.parts, b.files) + TotalReceived(acts) - TotalReceived(acts[..since])
  {
    if since == |acts| {
      assert acts[..since] == acts;
    } else {
      var front := acts[..|acts| - 1];
      assert front[..since] == acts[..since];
      MissingBalance(remote, staging, p, front, since);
      RunKeeps(remote, staging, p, front);
      ActBalance(remote, staging, Run(p, front), acts[|acts| - 1]);
    }
  }

  /** A transfer keeps the parts and their keys. */
  lemma {:induction false} TransfersKeepKeys(remote: Remote, staging: Path, p: Pipe, acts: seq<Act>, since: nat)
    requires Inv(remote, staging, p) && Legal(remote, staging, p, acts)
    requires since <= |acts| && Transfers(remote, p, acts, since)
    ensures var a, b := Run(p, acts[..since]).parts, Run(p, acts).parts;
            |a| == |b| && forall i | 0 <= i < |a| :: a[i].key == b[i].key
  {
    if since == |acts| {
      assert acts[..since] == acts;
    } else {
      var front, act := acts[..|acts| - 1], acts[|acts| - 1];
      assert front[..since] == acts[..since];
      TransfersKeepKeys(remote, staging, p, front, since);
      RunKeeps(remote, staging, p, front);
      if act.SavePart? {
        var i := ProgressPuts(remote, Run(p, front), act.part);
      }
    }
  }

  lemma {:induction false} TransfersLater(remote: Remote, p: Pipe, acts: seq<Act>, since: nat, later: nat)
    requires Transfers(remote, p, acts, since) && since <= later
    ensures Transfers(remote, p, acts, later)
  {
    if |acts| > later {
      TransfersLater(remote, p, acts[..|acts| - 1], since, later);
    }
  }

  /** One more legal act. */
  lemma OneMore(remote: Remote, staging: Path, p: Pipe, acts: seq<Act>, act: Act)
    requires Inv(remote, staging, Run(p, acts)) && Legal(remote, staging, p, acts)
    requires Enabled(remote, staging, Run(p, acts), act)
    ensures Legal(remote, staging, p, acts + [act]) && Run(p, acts + [act]) == After(Run(p, acts), act)
    ensures Inv(remote, staging, Run(p, acts + [act]))
    ensures TotalReceived(acts + [act]) == TotalReceived(acts) + Received(act)
    ensures TotalDropped(p, acts + [act]) == TotalDropped(p, acts) + Dropped(Run(p, acts), act)
    ensures forall since: nat | Transfers(remote, p, acts, since) && !act.Promote?
              && (act.SavePart? ==> Progresses(remote, Run(p, acts), act.part)) ::
              Transfers(remote, p, acts + [act], since)
  {
    var more := acts + [act];
    assert more[..|more| - 1] == acts && more[|more| - 1] == act;
    ActKeeps(remote, staging, Run(p, acts), act);
  }

  /** Nothing missing means every part is whole on disk. */
  lemma {:induction false} NothingMissing(remote: Remote, staging: Path, parts: seq<Part>, files: Files)
    requires forall i | 0 <= i < |parts| :: PartOk(remote, staging, files, parts[i])
    ensures Missing(remote, parts, files) >= 0
    ensures Missing(remote, parts, files) == 0 <==>
            forall i | 0 <= i < |parts| :: Whole(remote, files, parts[i]) || remote(parts[i].key) == []
  {
    if parts != [] {
      var top := |parts| - 1;
      NothingMissing(remote, staging, parts[..top], files);
      assert PartOk(remote, staging, files, parts[top]);
      assert Size(files, parts[top].temp) <= |remote(parts[top].key)|;
      assert Size(files, parts[top].temp) == |remote(parts[top].key)| <==>
             Whole(remote, files, parts[top]) || remote(parts[top].key) == [];
      assert forall i | 0 <= i < top :: parts[..top][i] == parts[i];
    }
  }
}

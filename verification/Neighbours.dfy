/**
 Many jobs on one disk. Each has its own staging directory, completed path and payload directory
 (internal/files/layout.go), and what is done to one job changes nothing in those of another. A run of
 all jobs together is thus, seen from each of them, a run of Content with `Other` acts in between.
 */
module Neighbours {
  import opened Wrappers
  import opened Jobs
  import opened Assets
  import opened Content
  import opened Remove
  import F = Finalize
  import L = Layout
  import P = Paths
  import Startup

  // The places of a job.

  /** None of the three roots lies inside another. */
  predicate RootsApart(roots: Roots)
  {
    && !(roots.staging <= roots.completed) && !(roots.completed <= roots.staging)
    && !(roots.staging <= roots.payloads) && !(roots.payloads <= roots.staging)
    && !(roots.completed <= roots.payloads) && !(roots.payloads <= roots.completed)
  }

  /** A completed path: two components below the root, the last ending in the id of its job
      (Layout.CompletedPathShape). */
  predicate TargetOf(roots: Roots, id: Id, path: Path)
  {
    && roots.completed <= path && |path| == |roots.completed| + 2
    && |path[|path| - 1]| >= 32 && path[|path| - 1][|path[|path| - 1]| - 32..] == id
  }

  predicate Home(roots: Roots, id: Id, root: Path)
  {
    root == roots.staging + [id] || root == roots.payloads + [id] || TargetOf(roots, id, root)
  }

  /** The target the finalizer computes is such a path. */
  lemma TargetIsHome(roots: Roots, job: Row)
    requires L.IsJobID(job.id)
    ensures TargetOf(roots, job.id, F.Target(roots.completed, job))
  {
    L.LastComponentOrdinary(job.displayName, job.id);
  }

  /** So is the path of the layout, by components. */
  lemma CompletedPathIsHome(cwd: string, completed: string, category: string, displayName: string, id: string,
                            roots: Roots)
    requires P.Rooted(cwd) && L.IsJobID(id) && roots.completed == P.AbsComps(cwd, completed)
    ensures TargetOf(roots, id, P.AbsComps(cwd, L.CompletedPathForJob(completed, category, displayName, id)))
  {
    L.CompletedPathShape(cwd, completed, category, displayName, id);
    L.LastComponentOrdinary(displayName, id);
  }

  /** Places of two jobs are neither equal nor nested. */
  lemma HomesApart(roots: Roots, a: Id, b: Id, x: Path, y: Path)
    requires RootsApart(roots) && a != b && Home(roots, a, x) && Home(roots, b, y)
    ensures !(x <= y)
  {
    var rootX, rootY := RootOf(roots, a, x), RootOf(roots, b, y);
    if rootX == rootY {
      assert |x| == |y| && x[|x| - 1] != y[|y| - 1];
    } else if x <= y {
      PrefixesNest(rootX, rootY, y);
      assert false;
    }
  }

  function RootOf(roots: Roots, id: Id, x: Path): (root: Path)
    requires RootsApart(roots) && Home(roots, id, x)
    ensures root <= x && (root == roots.staging || root == roots.payloads || root == roots.completed)
    ensures if root == roots.completed then TargetOf(roots, id, x) else x == root + [id]
  {
    if x == roots.staging + [id] then roots.staging
    else if x == roots.payloads + [id] then roots.payloads
    else roots.completed
  }

  // What is done to one job.

  /** In one of the places of a job, or below. */
  predicate InHome(roots: Roots, id: Id, q: Path)
  {
    || roots.staging + [id] <= q || roots.payloads + [id] <= q
    || (|q| >= |roots.completed| + 2 && TargetOf(roots, id, q[..|roots.completed| + 2]))
  }

  /** A directory above the places of jobs. */
  predicate AboveHomes(roots: Roots, q: Path)
  {
    || q <= roots.staging || q <= roots.payloads || q <= roots.completed
    || (|q| == |roots.completed| + 1 && roots.completed <= q)
  }

  /** Nothing changed but in the places of a job and in the directories above. */
  ghost predicate Confined(before: Files, after: Files, roots: Roots, id: Id)
  {
    forall q | !InHome(roots, id, q) && !AboveHomes(roots, q) ::
      (q in before <==> q in after) && (q in before ==> before[q] == after[q])
  }

  lemma HomeOf(roots: Roots, id: Id, q: Path) returns (home: Path)
    requires InHome(roots, id, q)
    ensures Home(roots, id, home) && home <= q
  {
    home := if roots.staging + [id] <= q then roots.staging + [id]
            else if roots.payloads + [id] <= q then roots.payloads + [id]
            else q[..|roots.completed| + 2];
  }

  lemma HomeIsNotAbove(roots: Roots, id: Id, root: Path, q: Path)
    requires RootsApart(roots) && Home(roots, id, root) && root <= q
    ensures !AboveHomes(roots, q)
  {
    var top := RootOf(roots, id, root);
    assert top <= q;
    assert |q| > |top| && !(q <= top);
    if |q| == |roots.completed| + 1 && roots.completed <= q {
      PrefixesNest(top, roots.completed, q);
      assert false;
    }
  }

  /** The places of another job are untouched. */
  lemma ConfinedElsewhere(before: Files, after: Files, roots: Roots, a: Id, b: Id, root: Path)
    requires RootsApart(roots) && a != b && Home(roots, a, root) && Confined(before, after, roots, b)
    ensures Untouched(before, after, root)
  {
    forall q | root <= q ensures (q in before <==> q in after) && (q in before ==> before[q] == after[q]) {
      HomeIsNotAbove(roots, a, root, q);
      if InHome(roots, b, q) {
        var home := HomeOf(roots, b, q);
        PrefixesNest(root, home, q);
        HomesApart(roots, a, b, root, home);
        HomesApart(roots, b, a, home, root);
      }
    }
  }

  /** The paths the handlers use for a job: directories in or above its places, and a target of its
      own. */
  predicate InPlace(roots: Roots, id: Id, act: Act)
  {
    match act
    case MakeDirs(path) => InHome(roots, id, path) || AboveHomes(roots, path)
    case Promote(target) => TargetOf(roots, id, target)
    case SaveRow(row) => row.completedPath.Some? ==> TargetOf(roots, id, row.completedPath.value)
    case _ => true
  }

  /** The directories made by the downloader and the finalizer, and the target of the rename. */
  lemma HandlersInPlace(remote: Remote, roots: Roots, p: Pipe, i: nat)
    requires L.IsJobID(p.row.id) && Inv(remote, roots.staging + [p.row.id], p) && i < |p.parts|
    ensures var id, target, temp := p.row.id, F.Target(roots.completed, p.row), p.parts[i].temp;
            && InPlace(roots, id, MakeDirs(roots.staging + [id])) && InPlace(roots, id, MakeDirs(temp[..|temp| - 1]))
            && InPlace(roots, id, MakeDirs(F.Parent(target))) && InPlace(roots, id, Promote(target))
  {
    hide F.Target, L.IsJobID, Inv;
    TargetIsHome(roots, p.row);
    PartsInPlace(remote, roots, p, i);
  }

  lemma PartsInPlace(remote: Remote, roots: Roots, p: Pipe, i: nat)
    requires Inv(remote, roots.staging + [p.row.id], p) && i < |p.parts|
    ensures var temp := p.parts[i].temp; temp != [] && InHome(roots, p.row.id, temp[..|temp| - 1])
  {
    assert PartOk(remote, roots.staging + [p.row.id], p.files, p.parts[i]);
    var temp, rel := p.parts[i].temp, p.parts[i].rel;
    assert temp[..|temp| - 1] == roots.staging + [p.row.id] + rel[..|rel| - 1];
  }

  lemma DirsConfined(files: Files, roots: Roots, id: Id, path: Path)
    requires InHome(roots, id, path) || AboveHomes(roots, path)
    ensures Confined(files, WithDirs(files, path), roots, id)
  {
    forall q | q <= path ensures InHome(roots, id, q) || AboveHomes(roots, q) {
      if InHome(roots, id, path) {
        var home := HomeOf(roots, id, path);
        PrefixesNest(q, home, path);
        HomeReaches(roots, id, home, q);
      }
    }
  }

  lemma HomeReaches(roots: Roots, id: Id, home: Path, q: Path)
    requires Home(roots, id, home)
    ensures home <= q ==> InHome(roots, id, q)
    ensures q <= home ==> InHome(roots, id, q) || AboveHomes(roots, q)
  {
    if home <= q {
      assert q[..|home|] == home;
    }
    if q <= home && q != home {
      assert q <= home[..|home| - 1];
    }
  }

  lemma RenameConfined(files: Files, roots: Roots, id: Id, target: Path)
    requires TargetOf(roots, id, target)
    ensures Confined(files, Renamed(files, roots.staging + [id], target), roots, id)
  {
    var from := roots.staging + [id];
    var after := Renamed(files, from, target);
    forall q | !InHome(roots, id, q) && !AboveHomes(roots, q)
      ensures (q in files <==> q in after) && (q in files ==> files[q] == after[q])
    {
      HomeReaches(roots, id, target, q);
      assert !(from <= q) && !(target <= q);
    }
  }

  /** Whatever a pass over a job does stays in the places of the job. */
  lemma ActIsConfined(remote: Remote, roots: Roots, p: Pipe, act: Act)
    requires Inv(remote, roots.staging + [p.row.id], p) && Enabled(remote, roots.staging + [p.row.id], p, act)
    requires !act.Other? && InPlace(roots, p.row.id, act)
    ensures Confined(p.files, After(p, act).files, roots, p.row.id)
  {
    var id := p.row.id;
    match act {
      case MakeDirs(path) => DirsConfined(p.files, roots, id, path);
      case Promote(target) => RenameConfined(p.files, roots, id, target);
      case Truncate(i) => assert PartOk(remote, roots.staging + [id], p.files, p.parts[i]);
      case Append(i, _) => assert PartOk(remote, roots.staging + [id], p.files, p.parts[i]);
      case _ =>
    }
  }

  /** So does its removal, finished or not. */
  lemma RemovalIsConfined(before: Files, after: Files, roots: Roots, job: Row)
    requires Eroded(before, after, job)
    requires job.completedPath.Some? ==> TargetOf(roots, job.id, job.completedPath.value)
    requires job.stagingPath.Some? ==> job.stagingPath.value == roots.staging + [job.id]
    requires job.payloadRef.Some? ==> PayloadDir(job).value == roots.payloads + [job.id]
    ensures Confined(before, after, roots, job.id)
  {
    forall q | !InHome(roots, job.id, q) ensures !Owned(job, q) {
      if job.completedPath.Some? {
        HomeReaches(roots, job.id, job.completedPath.value, q);
      }
    }
  }

  // All jobs together.

  datatype Entry = Entry(row: Row, parts: seq<Part>, moved: Option<Path>)

  datatype World = World(jobs: map<Id, Entry>, files: Files)

  /** One atomic change to one job; whatever the API and the remover do to the directories of a job,
      which from then on is not followed any more; or the clean-up of a start-up, after which only the
      jobs are followed that are open. */
  datatype Move = Do(id: Id, act: Act) | Leave(id: Id, disk: Files) | Tidy(open: set<Id>, disk: Files)

  function View(w: World, id: Id): Pipe
    requires id in w.jobs
  {
    Pipe(w.jobs[id].row, w.jobs[id].parts, w.files, w.jobs[id].moved)
  }

  function Step(w: World, m: Move): World
  {
    match m
    case Do(id, act) =>
      if id in w.jobs then
        var q := After(View(w, id), act);
        World(w.jobs[id := Entry(q.row, q.parts, q.moved)], q.files)
      else w
    case Leave(id, disk) => World(w.jobs - {id}, disk)
    case Tidy(open, disk) => World(map id | id in w.jobs && id in open :: w.jobs[id], disk)
  }

  ghost predicate May(remotes: Id -> Remote, roots: Roots, w: World, m: Move)
  {
    match m
    case Do(id, act) =>
      && id in w.jobs && !act.Other? && InPlace(roots, id, act)
      && Enabled(remotes(id), roots.staging + [id], View(w, id), act)
    case Leave(id, disk) => L.IsJobID(id) && Confined(w.files, disk, roots, id)
    case Tidy(open, disk) => Startup.OnlyOrphansGone(w.files, disk, roots.staging, open)
  }

  function Steps(w: World, moves: seq<Move>): World
  {
    if moves == [] then w else Step(Steps(w, moves[..|moves| - 1]), moves[|moves| - 1])
  }

  ghost predicate MayAll(remotes: Id -> Remote, roots: Roots, w: World, moves: seq<Move>)
  {
    moves == [] ||
    (MayAll(remotes, roots, w, moves[..|moves| - 1])
     && May(remotes, roots, Steps(w, moves[..|moves| - 1]), moves[|moves| - 1]))
  }

  /** What one job sees of a run of all. */
  function Seen(w: World, moves: seq<Move>, id: Id): seq<Act>
  {
    if moves == [] then []
    else
      var front, m := moves[..|moves| - 1], moves[|moves| - 1];
      Seen(w, front, id) + [if m.Do? && m.id == id then m.act else Other(Step(Steps(w, front), m).files)]
  }

  /** Each job under its id, with its rows in place. */
  ghost predicate Housed(roots: Roots, w: World)
  {
    forall id | id in w.jobs ::
      && L.IsJobID(id) && w.jobs[id].row.id == id
      && (w.jobs[id].row.completedPath.Some? ==> TargetOf(roots, id, w.jobs[id].row.completedPath.value))
      && (w.jobs[id].moved.Some? ==> TargetOf(roots, id, w.jobs[id].moved.value))
  }

  ghost predicate AllFresh(roots: Roots, w: World)
  {
    forall id | id in w.jobs :: Fresh(roots.staging + [id], View(w, id))
  }

  /** Completed paths lie outside the staging root. */
  lemma TargetsOutside(roots: Roots, id: Id, path: Path)
    requires RootsApart(roots) && TargetOf(roots, id, path)
    ensures !(roots.staging <= path) && !(path <= roots.staging)
  {
    if roots.staging <= path {
      PrefixesNest(roots.staging, roots.completed, path);
      assert false;
    }
  }

  /** The clean-up of a start-up is a legal `Other` for every open job. */
  lemma TidyIsOther(remotes: Id -> Remote, roots: Roots, w: World, m: Move, id: Id)
    requires RootsApart(roots) && Housed(roots, w) && May(remotes, roots, w, m) && m.Tidy? && id in Step(w, m).jobs
    ensures Enabled(remotes(id), roots.staging + [id], View(w, id), Other(m.disk))
    ensures View(Step(w, m), id) == After(View(w, id), Other(m.disk))
  {
    hide TargetOf, RootsApart, Startup.OnlyOrphansGone;
    forall root | w.jobs[id].row.completedPath == Some(root) || w.jobs[id].moved == Some(root)
      ensures !(roots.staging <= root) && !(root <= roots.staging)
    {
      TargetsOutside(roots, id, root);
    }
    Startup.OrphansAreElsewhere(remotes(id), View(w, id), m.disk, roots, m.open);
  }

  /** An act of one job is a legal `Other` for every other job, and a leaving one is, too. */
  lemma MoveIsOther(remotes: Id -> Remote, roots: Roots, w: World, m: Move, id: Id)
    requires RootsApart(roots) && Housed(roots, w) && May(remotes, roots, w, m) && id in w.jobs
    requires !m.Tidy? && id != m.id
    requires m.Do? ==> Inv(remotes(m.id), roots.staging + [m.id], View(w, m.id))
    ensures Enabled(remotes(id), roots.staging + [id], View(w, id), Other(Step(w, m).files))
    ensures id in Step(w, m).jobs && View(Step(w, m), id) == After(View(w, id), Other(Step(w, m).files))
  {
    hide Confined, Untouched, TargetOf;
    var files := Step(w, m).files;
    if m.Do? {
      ActIsConfined(remotes(m.id), roots, View(w, m.id), m.act);
    }
    assert Confined(w.files, files, roots, m.id);
    ConfinedElsewhere(w.files, files, roots, id, m.id, roots.staging + [id]);
    if w.jobs[id].row.completedPath.Some? {
      ConfinedElsewhere(w.files, files, roots, id, m.id, w.jobs[id].row.completedPath.value);
    }
    if w.jobs[id].moved.Some? {
      ConfinedElsewhere(w.files, files, roots, id, m.id, w.jobs[id].moved.value);
    }
  }

  lemma StaysHoused(remotes: Id -> Remote, roots: Roots, w: World, m: Move)
    requires Housed(roots, w) && May(remotes, roots, w, m)
    ensures Housed(roots, Step(w, m))
  {
    hide TargetOf;
  }

  lemma FreshIsOk(remote: Remote, staging: Path, p: Pipe)
    requires Fresh(staging, p)
    ensures Inv(remote, staging, p)
  {
  }

  /** What a job sees of a run of all jobs is a legal run of that job, and it sees it rightly. */
  lemma {:induction false} SeenIsLegal(remotes: Id -> Remote, roots: Roots, w: World, moves: seq<Move>, id: Id)
    requires RootsApart(roots) && Housed(roots, w) && AllFresh(roots, w) && MayAll(remotes, roots, w, moves)
    requires id in Steps(w, moves).jobs
    ensures Housed(roots, Steps(w, moves)) && id in w.jobs
    ensures var staging := roots.staging + [id];
            && Content.Legal(remotes(id), staging, View(w, id), Seen(w, moves, id))
            && Content.Run(View(w, id), Seen(w, moves, id)) == View(Steps(w, moves), id)
            && Inv(remotes(id), staging, View(Steps(w, moves), id))
  {
    hide Inv, Enabled, Housed, InPlace, Confined;
    if moves == [] {
      FreshIsOk(remotes(id), roots.staging + [id], View(w, id));
    } else {
      var front, m := moves[..|moves| - 1], moves[|moves| - 1];
      var before := Steps(w, front);
      SeenIsLegal(remotes, roots, w, front, id);
      StaysHoused(remotes, roots, before, m);
      if m.Do? && m.id == id {
        OneMore(remotes(id), roots.staging + [id], View(w, id), Seen(w, front, id), m.act);
      } else if m.Tidy? {
        TidyIsOther(remotes, roots, before, m, id);
        OneMore(remotes(id), roots.staging + [id], View(w, id), Seen(w, front, id), Other(m.disk));
      } else {
        if m.Do? {
          SeenIsLegal(remotes, roots, w, front, m.id);
        }
        MoveIsOther(remotes, roots, before, m, id);
        OneMore(remotes(id), roots.staging + [id], View(w, id), Seen(w, front, id), Other(Step(before, m).files));
      }
    }
  }

  /** In every run of any number of jobs that start from the poller on one disk: whenever one of them
      is Completed, every registered part of it lies under its completed path byte for byte. */
  lemma AllDelivered(remotes: Id -> Remote, roots: Roots, w: World, moves: seq<Move>, id: Id)
    requires RootsApart(roots) && Housed(roots, w) && AllFresh(roots, w) && MayAll(remotes, roots, w, moves)
    requires id in Steps(w, moves).jobs
    ensures var p := View(Steps(w, moves), id); p.row.state == Completed ==> Delivered(remotes(id), p)
  {
    SeenIsLegal(remotes, roots, w, moves, id);
  }
}

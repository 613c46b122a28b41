/**
 What follows for every run of the service: who has a job in hand, what may be lost, what the event
 log tells, and what a delete request comes to.
 */
module Outcomes {
  import opened Wrappers
  import opened Api
  import opened Jobs
  import opened Store
  import opened Protocol
  import Assets
  import Content
  import Download
  import Finalize
  import Poll
  import Remove
  import Startup
  import Submit
  import T = TimeText

  // Jobs that no delete request was too late for.

  /** No delete request wrote back the row of the job when somebody had it in hand, or when it was
      not as read any more. */
  ghost predicate Undisturbed(s: Sys, steps: seq<Step>, id: Id)
  {
    forall k | 0 <= k < |steps| :: !Untimely(Run(s, steps[..k]), steps[k], id)
  }

  lemma UndisturbedFront(s: Sys, steps: seq<Step>, id: Id)
    requires steps != [] && Undisturbed(s, steps, id)
    ensures Undisturbed(s, steps[..|steps| - 1], id)
    ensures !Untimely(Run(s, steps[..|steps| - 1]), steps[|steps| - 1], id)
  {
    hide Untimely, Run;
    var front := steps[..|steps| - 1];
    forall k | 0 <= k < |front| ensures !Untimely(Run(s, front[..k]), front[k], id) {
      assert front[..k] == steps[..k];
    }
  }

  lemma {:induction false} NotStale(s: Sys, steps: seq<Step>, id: Id)
    requires id !in s.stale && Undisturbed(s, steps, id)
    ensures id !in Run(s, steps).stale
  {
    hide After, Untimely, Undisturbed;
    if steps != [] {
      UndisturbedFront(s, steps, id);
      NotStale(s, steps[..|steps| - 1], id);
      StaleByDelete(Run(s, steps[..|steps| - 1]), steps[|steps| - 1], id);
    }
  }

  lemma StaleByDelete(s: Sys, step: Step, id: Id)
    requires id !in s.stale && !Untimely(s, step, id)
    ensures id !in After(s, step).stale
  {
    hide Timely;
  }

  /** Every state of a run in which no delete request is too late for the job. */
  lemma ReachableFor(carry: bool, steps: seq<Step>, id: Id)
    requires Legal(Initial(carry), steps) && Undisturbed(Initial(carry), steps, id)
    ensures var s := Run(Initial(carry), steps); Inv(s) && s.carry == carry && id !in s.stale
  {
    hide Inv, Run, Legal, Undisturbed;
    Reachable(carry, steps);
    NotStale(Initial(carry), steps, id);
  }

  /** A job in hand of a worker is in hand of nobody else, and is stored in a state its worker
      claims, whatever the claim column says. */
  lemma InHandOfOne(carry: bool, steps: seq<Step>, id: Id, w: Worker)
    requires Legal(Initial(carry), steps) && Undisturbed(Initial(carry), steps, id)
    requires InHandOf(Run(Initial(carry), steps), w, id)
    ensures var s := Run(Initial(carry), steps);
            && id in s.table && s.table[id].state in ClaimSet(w) && id !in s.requests
            && forall v: Worker | InHandOf(s, v, id) :: v == w
  {
    var s := Run(Initial(carry), steps);
    ReachableFor(carry, steps, id);
    HandsClaimable(s, w, id);
    OthersDoNotHold(s, w, id);
    forall v: Worker | InHandOf(s, v, id) ensures v == w {
    }
  }

  /** No lost update: a job further on in the batch of a worker is as it is stored, and so is the job
      a worker is about to write, unless the statement before was one that failed and was passed
      over. The index never refuses the write. */
  lemma NoLostUpdate(carry: bool, steps: seq<Step>, w: Worker, id: Id)
    requires Legal(Initial(carry), steps) && Undisturbed(Initial(carry), steps, id)
    ensures var s := Run(Initial(carry), steps);
            && w in s.phase
            && var p := s.phase[w];
               && (p.Between? || p.Releasing? || p.Running? ==>
                     forall i | 0 <= i < |p.rest| && p.rest[i].id == id :: id in s.table && Same(s.table[id], p.rest[i]))
               && (p.Running? && p.todo != [] && p.mem.id == id ==>
                     && p.todo[0].row.id == id && id in s.table && IndexAllows(s.table, p.todo[0].row)
                     && (if p.skipped then w == Downloader && |p.todo| == 1 && p.todo[0].row.state == LocalDownloading
                         else Same(s.table[id], p.mem)))
  {
    hide Initial, JobsOk, RequestsOk, CopiesOk, OwedOk, IndexAllows, Run, Legal, Plan;
    var s := Run(Initial(carry), steps);
    ReachableFor(carry, steps, id);
    assert WorkerOk(s.table, s.stale, s.carry, w, s.phase[w]);
    var p := s.phase[w];
    if p.Between? || p.Releasing? || p.Running? {
      forall i | 0 <= i < |p.rest| && p.rest[i].id == id ensures id in s.table && Same(s.table[id], p.rest[i]) {
        assert Fresh(s.table, s.stale, w, p.rest[i]);
      }
    }
    if p.Running? && p.todo != [] && p.mem.id == id {
      WriteFits(s, w);
    }
  }

  /** At most one open job has a given submission key, in every state of every run. */
  lemma OpenKeysUnique(carry: bool, steps: seq<Step>)
    requires Legal(Initial(carry), steps)
    ensures UniqueOpen(Run(Initial(carry), steps).table)
  {
    Reachable(carry, steps);
  }

  /** A queued job can be followed: it has a queued id, an auth id, a hash or a task id. */
  lemma QueuedCanBeFollowed(carry: bool, steps: seq<Step>, id: Id)
    requires Legal(Initial(carry), steps) && Undisturbed(Initial(carry), steps, id)
    requires id in Run(Initial(carry), steps).table
    ensures var row := Run(Initial(carry), steps).table[id]; row.state == RemoteQueued ==> !Submit.Untracked(row)
  {
    ReachableFor(carry, steps, id);
    StoredOk(Run(Initial(carry), steps), id);
  }

  /** If active statuses carry an id, a job that ever came through local_download_pending keeps a
      task id and has no queued id, whatever becomes of it. */
  lemma CameThroughKeepsId(steps: seq<Step>, id: Id)
    requires Legal(Initial(true), steps) && Undisturbed(Initial(true), steps, id)
    requires id in Run(Initial(true), steps).table && CameThrough(LogOf(Run(Initial(true), steps).logs, id))
    ensures Carried(Run(Initial(true), steps).table[id])
  {
    ReachableFor(true, steps, id);
    StoredOk(Run(Initial(true), steps), id);
  }

  /** The local phase starts without retries. */
  lemma LocalStartsAfresh(carry: bool, steps: seq<Step>, id: Id)
    requires Legal(Initial(carry), steps) && Undisturbed(Initial(carry), steps, id)
    requires id in Run(Initial(carry), steps).table
    requires Run(Initial(carry), steps).table[id].state == LocalDownloadPending
    ensures Run(Initial(carry), steps).table[id].retryCount == 0
  {
    ReachableFor(carry, steps, id);
    StoredOk(Run(Initial(carry), steps), id);
  }

  // Event logs.

  /** Each event starts where the one before it ended. */
  predicate Chain(log: seq<Event>)
  {
    log != [] && log[0].from.None? && forall k | 0 < k < |log| :: log[k].from == Some(log[k - 1].to)
  }

  /** The state a log replays to. */
  function Replayed(log: seq<Event>): JobState
    requires log != []
  {
    log[|log| - 1].to
  }

  /** No event of the job is still to be logged. */
  ghost predicate Quiet(s: Sys, id: Id) { forall n | n in s.owed :: s.owed[n].id != id }

  /** The log of a job is a chain that replays to its stored state, and all is logged. */
  ghost predicate Told(s: Sys, id: Id)
  {
    id in s.table && Quiet(s, id) && Chain(LogOf(s.logs, id)) && Replayed(LogOf(s.logs, id)) == s.table[id].state
  }

  /** It will be, once the one event is logged that is still to be. */
  ghost predicate Telling(s: Sys, id: Id, n: nat)
  {
    && id in s.table && n in s.owed && s.owed[n].id == id
    && (forall m | m in s.owed && s.owed[m].id == id :: m == n)
    && Chain(LogOf(s.logs, id) + [s.owed[n].event]) && s.owed[n].event.to == s.table[id].state
  }

  ghost predicate Follows(s: Sys, id: Id) { Told(s, id) || exists n :: Telling(s, id, n) }

  /** A chain goes on exactly from where it ends. */
  lemma ChainStep(log: seq<Event>, e: Event)
    requires Chain(log)
    ensures Chain(log + [e]) <==> e.from == Some(Replayed(log))
  {
    var longer := log + [e];
    assert longer[|log| - 1] == log[|log| - 1];
    assert Chain(longer) ==> longer[|log|].from == Some(longer[|log| - 1].to);
  }

  /** A log that is no chain never becomes one again. */
  lemma BrokenForGood(log: seq<Event>, more: seq<Event>)
    requires log != [] && Chain(log + more)
    ensures Chain(log)
  {
    var longer := log + more;
    assert log[0] == longer[0];
    forall k | 0 < k < |log| ensures log[k].from == Some(log[k - 1].to) {
      assert log[k] == longer[k] && log[k - 1] == longer[k - 1];
    }
  }

  /** The row write of a step to a job, if any. */
  function RowWrite(s: Sys, step: Step, id: Id): Option<Jobs.Write>
  {
    match step
    case Write(w, _) =>
      if w in s.phase && s.phase[w].Running? && s.phase[w].todo != [] && s.phase[w].todo[0].row.id == id then
        Some(s.phase[w].todo[0]) else None
    case Queue(i, now, _) =>
      if i in s.requests && s.requests[i].row.id == id then Some(Queued(s.requests[i].row, now)) else None
    case Delete(d, now, _) =>
      if d in s.deletes && s.deletes[d].id == id then Some(Removal(s.deletes[d], now)) else None
    case _ => None
  }

  /** An event that stands for a change of state. */
  predicate Changes(e: Event) { e.from != Some(e.to) }

  /** A step leaves the log of a job behind: a row is written with an event while another event of the
      job is still to be logged; an event of a change of state is lost, by itself or in a crash; a
      delete request writes back a row it read in another state; or a handler that went on after the
      write failed that makes a job local_downloading writes that state as the one before. */
  ghost predicate Mistold(s: Sys, step: Step, id: Id)
  {
    var write := RowWrite(s, step, id);
    || (write.Some? && write.value.event.Some? && !Quiet(s, id))
    || match step
       case Write(w, _) => write.Some? && id in s.table && s.phase[w].skipped && s.table[id].state != LocalDownloading
       case Delete(d, _, _) => write.Some? && id in s.table && s.deletes[d].state != s.table[id].state
       case Lose(n) => n in s.owed && s.owed[n].id == id && Changes(s.owed[n].event)
       case Crash => exists n :: n in s.owed && s.owed[n].id == id && Changes(s.owed[n].event)
       case _ => false
  }

  /** The events of a job that are still to be logged. */
  ghost function OwedOf(s: Sys, id: Id): map<nat, Owed> { map n | n in s.owed && s.owed[n].id == id :: s.owed[n] }

  /** What nothing happens to is told as before. */
  lemma FollowsSame(s: Sys, t: Sys, id: Id)
    requires Follows(s, id) && id in t.table && t.table[id].state == s.table[id].state
    requires LogOf(t.logs, id) == LogOf(s.logs, id) && OwedOf(t, id) == OwedOf(s, id)
    ensures Follows(t, id)
  {
    hide Chain, Replayed;
    forall n ensures n in OwedOf(s, id) <==> n in OwedOf(t, id) {
    }
    if Told(s, id) {
      QuietMeans(s, id);
      QuietMeans(t, id);
    } else {
      var n :| Telling(s, id, n);
      assert n in OwedOf(s, id);
      forall m | m in t.owed && t.owed[m].id == id ensures m == n {
        assert m in OwedOf(t, id);
      }
      assert n in t.owed && t.owed[n] == OwedOf(t, id)[n];
      assert Telling(t, id, n);
    }
  }

  lemma QuietMeans(s: Sys, id: Id)
    ensures Quiet(s, id) <==> OwedOf(s, id) == map[]
  {
    if n: nat :| n in s.owed && s.owed[n].id == id {
      assert n in OwedOf(s, id);
    }
  }

  /** An event that is logged last, and one that is not. */
  lemma LogEnds(log: seq<Event>, e: Event)
    requires Chain(log + [e])
    ensures Replayed(log + [e]) == e.to
    ensures log != [] ==> Chain(log) && e.from == Some(Replayed(log))
    ensures log == [] ==> e.from.None? && !Chain(log)
  {
    var longer := log + [e];
    assert longer[|log|] == e;
    if log != [] {
      BrokenForGood(log, [e]);
      ChainStep(log, e);
    }
  }

  /** Once its one event is logged a job is told; if the event is lost, it is exactly if nothing
      changed. */
  lemma TellingEnds(s: Sys, t: Sys, id: Id, n: nat)
    requires Telling(s, id, n) && id in t.table && t.table[id].state == s.table[id].state && Quiet(t, id)
    ensures LogOf(t.logs, id) == LogOf(s.logs, id) + [s.owed[n].event] ==> Told(t, id)
    ensures LogOf(t.logs, id) == LogOf(s.logs, id) ==> (Told(t, id) <==> !Changes(s.owed[n].event))
  {
    hide Chain, Replayed;
    LogEnds(LogOf(s.logs, id), s.owed[n].event);
  }

  /** A row write with an event is told exactly if it starts from the stored state and nothing else is
      still to be logged; one without, if it leaves the state. */
  lemma WrittenFollows(s: Sys, write: Jobs.Write, n: nat, writer: Option<Worker>, t: Sys, id: Id)
    requires Follows(s, id) && n !in s.owed
    requires var u := Written(s, write, n, writer); t.table == u.table && t.logs == u.logs && t.owed == u.owed
    requires write.row.id == id && write.event.Some? ==> write.event.value.to == write.row.state
    ensures write.row.id != id ==> Follows(t, id)
    ensures write.row.id == id ==>
              (Follows(t, id) <==>
               if write.event.Some? then Quiet(s, id) && write.event.value.from == Some(s.table[id].state)
               else write.row.state == s.table[id].state)
  {
    hide Follows, Quiet;
    FollowsStored(s, id);
    if write.row.id != id {
      FollowsElsewhere(s, write, n, writer, t, id);
    } else if write.event.Some? {
      NewEvent(s, write, n, writer, t);
    } else {
      SilentWrite(s, write, t);
    }
  }

  lemma FollowsElsewhere(s: Sys, write: Jobs.Write, n: nat, writer: Option<Worker>, t: Sys, id: Id)
    requires Follows(s, id) && n !in s.owed && write.row.id != id
    requires var u := Written(s, write, n, writer); t.table == u.table && t.logs == u.logs && t.owed == u.owed
    ensures Follows(t, id)
  {
    hide Follows, OwedOf;
    FollowsStored(s, id);
    OwedElsewhere(s, write, n, writer, t, id);
    FollowsSame(s, t, id);
  }

  lemma OwedElsewhere(s: Sys, write: Jobs.Write, n: nat, writer: Option<Worker>, t: Sys, id: Id)
    requires n !in s.owed && write.row.id != id && id in s.table
    requires var u := Written(s, write, n, writer); t.table == u.table && t.logs == u.logs && t.owed == u.owed
    ensures id in t.table && t.table[id] == s.table[id] && LogOf(t.logs, id) == LogOf(s.logs, id)
    ensures OwedOf(t, id) == OwedOf(s, id)
  {
    if write.row.id in s.table && write.event.Some? {
      OwedPlusOther(s, t, n, id);
    } else {
      SameOwed(s, t, id);
    }
  }

  lemma OwedPlusOther(s: Sys, t: Sys, n: nat, id: Id)
    requires n !in s.owed && n in t.owed && t.owed == s.owed[n := t.owed[n]] && t.owed[n].id != id
    ensures OwedOf(t, id) == OwedOf(s, id)
  {
  }

  lemma NewEvent(s: Sys, write: Jobs.Write, n: nat, writer: Option<Worker>, t: Sys)
    requires Follows(s, write.row.id) && n !in s.owed && write.event.Some? && write.event.value.to == write.row.state
    requires write.row.id in t.table && t.table[write.row.id].state == write.row.state && t.logs == s.logs
    requires t.owed == s.owed[n := Owed(write.row.id, write.event.value, writer)]
    ensures var id := write.row.id;
            Follows(t, id) <==> Quiet(s, id) && write.event.value.from == Some(s.table[id].state)
  {
    hide Chain;
    var id := write.row.id;
    assert n in t.owed && t.owed[n].id == id && !Quiet(t, id);
    if Quiet(s, id) {
      ChainStep(LogOf(s.logs, id), write.event.value);
      assert Follows(t, id) ==> Telling(t, id, n);
      assert Chain(LogOf(s.logs, id) + [write.event.value]) ==> Telling(t, id, n);
    } else {
      var m :| m in s.owed && s.owed[m].id == id;
      assert m in t.owed && t.owed[m] == s.owed[m] && m != n;
    }
  }

  lemma SilentWrite(s: Sys, write: Jobs.Write, t: Sys)
    requires Follows(s, write.row.id) && write.row.id in t.table && t.table[write.row.id].state == write.row.state
    requires t.logs == s.logs && t.owed == s.owed
    ensures Follows(t, write.row.id) <==> write.row.state == s.table[write.row.id].state
  {
    hide Chain;
    var id := write.row.id;
    if !Told(s, id) {
      var n :| Telling(s, id, n);
      assert Telling(t, id, n) <==> write.row.state == s.table[id].state;
    }
  }

  /** Where the write of a worker starts from. */
  lemma WriteStarts(s: Sys, w: Worker)
    requires WorkersOk(s) && w in s.phase && s.phase[w].Running? && s.phase[w].todo != []
    requires s.phase[w].mem.id !in s.stale
    ensures var p := s.phase[w];
            var write := p.todo[0];
            && write.row.id == p.mem.id && p.mem.id in s.table
            && (if write.event.Some? then write.event.value == Event(Some(p.mem.state), write.row.state)
                else write.row.state == p.mem.state)
            && (if p.skipped then p.mem.state == LocalDownloading && write.row.state == LocalDownloading
                else p.mem.state == s.table[p.mem.id].state)
  {
    hide Fetched, RowOk;
    assert WorkerOk(s.table, s.stale, s.carry, w, s.phase[w]);
  }

  lemma WriteTells(s: Sys, w: Worker, n: nat, id: Id)
    requires Inv(s) && Enabled(s, Step.Write(w, n)) && id !in s.stale && Follows(s, id)
    ensures Follows(After(s, Step.Write(w, n)), id) <==> !Mistold(s, Step.Write(w, n), id)
  {
    hide JobsOk, WorkersOk, RequestsOk, CopiesOk, OwedOk, Follows, Quiet, Accepts, Written, After;
    var p, t := s.phase[w], After(s, Step.Write(w, n));
    WriteResult(s, w, n);
    if p.mem.id == id {
      WriteStarts(s, w);
    } else {
      AtTheRow(s, w);
    }
    WrittenFollows(s, p.todo[0], n, Some(w), t, id);
  }

  lemma QueueTells(s: Sys, i: Id, now: T.Time, n: nat, id: Id)
    requires Inv(s) && Enabled(s, Queue(i, now, n)) && id !in s.stale && Follows(s, id)
    ensures Follows(After(s, Queue(i, now, n)), id) <==> !Mistold(s, Queue(i, now, n), id)
  {
    hide JobsOk, WorkersOk, CopiesOk, OwedOk, Follows, Quiet, Fits, IndexAllows, RowOk, Written, Created;
    QueueFits(s, i, now);
    assert RequestOk(s.table, s.stale, i, s.requests[i]);
    WrittenFollows(s, Queued(s.requests[i].row, now), n, None, After(s, Queue(i, now, n)), id);
  }

  lemma DeleteTells(s: Sys, d: nat, now: T.Time, n: nat, id: Id)
    requires Enabled(s, Delete(d, now, n)) && Follows(s, id)
    ensures Follows(After(s, Delete(d, now, n)), id) <==> !Mistold(s, Delete(d, now, n), id)
  {
    hide Follows, Quiet, IndexAllows, Written, Timely;
    WrittenFollows(s, Removal(s.deletes[d], now), n, None, After(s, Delete(d, now, n)), id);
    FollowsStored(s, id);
  }

  lemma FollowsStored(s: Sys, id: Id)
    requires Follows(s, id)
    ensures id in s.table
  {
  }

  lemma ReconcileTells(s: Sys, step: Step, id: Id)
    requires JobsOk(s) && Enabled(s, step) && step.Reconcile? && Follows(s, id)
    ensures Follows(After(s, step), id)
  {
    hide UniqueOpen, JobOk, Follows, Written, Startup.ReconcileWrite;
    var row := s.table[step.id];
    var write := Startup.ReconcileWrite(row, step.roots, step.parts, step.files, step.now);
    if !Closed(row.state) && write.Some? {
      ReconcileOwnKey(row, write.value, step.roots, step.parts, step.files, step.now);
      WrittenFollows(s, write.value, step.n, None, After(s, step), id);
    }
  }

  lemma InsertTells(s: Sys, i: Id, n: nat, id: Id)
    requires Inv(s) && Enabled(s, Insert(i, n)) && (id in s.table ==> Follows(s, id))
    requires id in After(s, Insert(i, n)).table
    ensures Follows(After(s, Insert(i, n)), id)
  {
    RequestKnown(s, i);
    LogsOfJobs(s);
    hide JobsOk, WorkersOk, RequestsOk, CopiesOk, IndexAllows, Follows, OwedOf;
    var t := After(s, Insert(i, n));
    if id == i {
      NotCome(s, id);
      NewcomerTells(t, id, n);
    } else {
      OwedPlusOther(s, t, n, id);
      FollowsSame(s, t, id);
    }
  }

  lemma NewcomerTells(t: Sys, id: Id, n: nat)
    requires id in t.table && t.table[id].state == Accepted && LogOf(t.logs, id) == []
    requires n in t.owed && t.owed[n] == Owed(id, Event(None, Accepted), None)
    requires forall m | m in t.owed && t.owed[m].id == id :: m == n
    ensures Follows(t, id)
  {
    FirstOfChain(Accepted);
    assert LogOf(t.logs, id) + [t.owed[n].event] == [Event(None, Accepted)];
    assert Telling(t, id, n);
  }

  lemma FirstOfChain(state: JobState)
    ensures Chain([Event(None, state)])
  {
  }

  lemma RequestKnown(s: Sys, id: Id)
    requires RequestsOk(s) && id in s.requests
    ensures id in s.used && RequestOk(s.table, s.stale, id, s.requests[id])
  {
  }

  lemma LogTells(s: Sys, n: nat, id: Id)
    requires n in s.owed && Follows(s, id)
    ensures Follows(Logging(s, n), id)
  {
    hide Chain;
    var t := Logging(s, n);
    if s.owed[n].id == id {
      var m :| Telling(s, id, m);
      TellingEnds(s, t, id, n);
    } else {
      assert OwedOf(t, id) == OwedOf(s, id);
      FollowsSame(s, t, id);
    }
  }

  lemma LoseTells(s: Sys, n: nat, id: Id)
    requires n in s.owed && Follows(s, id)
    ensures Follows(Losing(s, n), id) <==> !(s.owed[n].id == id && Changes(s.owed[n].event))
  {
    hide Chain, Changes;
    var t := Losing(s, n);
    if s.owed[n].id == id {
      var m :| Telling(s, id, m);
      TellingEnds(s, t, id, n);
    } else {
      assert OwedOf(t, id) == OwedOf(s, id);
      FollowsSame(s, t, id);
    }
  }

  lemma CrashTells(s: Sys, id: Id)
    requires Follows(s, id)
    ensures Follows(After(s, Crash), id) <==> !Mistold(s, Crash, id)
  {
    hide Chain, Changes;
    var t := After(s, Crash);
    if Quiet(s, id) {
      assert OwedOf(t, id) == OwedOf(s, id);
      FollowsSame(s, t, id);
    } else {
      var m :| Telling(s, id, m);
      TellingEnds(s, t, id, m);
    }
  }

  predicate WritesOrLogs(step: Step)
  {
    || step.Write? || step.Queue? || step.Delete? || step.Reconcile? || step.Insert?
    || step.Log? || step.Lose? || step.Crash?
  }

  lemma OthersLeaveLogs(s: Sys, step: Step, id: Id)
    requires !WritesOrLogs(step)
    ensures After(s, step).owed == s.owed && (step.Prune? || After(s, step).logs == s.logs)
  {
    hide Timely, Writes;
  }

  lemma OthersLeaveStates(s: Sys, step: Step, id: Id)
    requires !WritesOrLogs(step) && id in After(s, step).table
    ensures id in s.table && After(s, step).table[id].state == s.table[id].state
    ensures step.Prune? ==> LogOf(After(s, step).logs, id) == LogOf(s.logs, id)
  {
    hide Timely, Writes;
  }

  /** Other steps leave the state and the log of a job and what is still to be logged of it. */
  lemma QuietTells(s: Sys, step: Step, id: Id)
    requires Follows(s, id) && id in After(s, step).table && !WritesOrLogs(step)
    ensures Follows(After(s, step), id)
  {
    hide After, Follows, OwedOf;
    OthersLeaveLogs(s, step, id);
    OthersLeaveStates(s, step, id);
    SameOwed(s, After(s, step), id);
    FollowsSame(s, After(s, step), id);
  }

  lemma SameOwed(s: Sys, t: Sys, id: Id)
    requires t.owed == s.owed
    ensures OwedOf(t, id) == OwedOf(s, id)
  {
  }

  lemma NeverMistold(s: Sys, step: Step, id: Id)
    requires !step.Write? && !step.Queue? && !step.Delete? && !step.Lose? && !step.Crash?
    ensures !Mistold(s, step, id)
  {
  }

  /** Only an insert makes a job known. */
  lemma InsertedOnly(s: Sys, step: Step, id: Id)
    requires id !in s.table && id in After(s, step).table
    ensures step == Insert(id, step.n)
  {
    hide Timely, Startup.ReconcileWrite;
  }

  lemma ToldExactlyKnown(s: Sys, step: Step, id: Id)
    requires Inv(s) && Enabled(s, step) && id !in s.stale && id in After(s, step).table && Follows(s, id)
    ensures Follows(After(s, step), id) <==> !Mistold(s, step, id)
  {
    hide Follows, Mistold, After, Inv, Enabled, WritesOrLogs;
    if step.Write? {
      WriteTells(s, step.w, step.n, id);
    } else if step.Queue? {
      QueueTells(s, step.id, step.now, step.n, id);
    } else if step.Delete? {
      DeleteTells(s, step.d, step.now, step.n, id);
    } else if step.Log? || step.Lose? {
      LogStepTells(s, step.n, id);
    } else if step.Crash? {
      CrashTells(s, id);
    } else {
      RestTells(s, step, id);
    }
  }

  lemma RestTells(s: Sys, step: Step, id: Id)
    requires Inv(s) && Enabled(s, step) && id in After(s, step).table && Follows(s, id)
    requires !step.Write? && !step.Queue? && !step.Delete? && !step.Log? && !step.Lose? && !step.Crash?
    ensures Follows(After(s, step), id) && !Mistold(s, step, id)
  {
    assert JobsOk(s);
    hide Follows, Mistold, After, Inv, Enabled, JobsOk;
    NeverMistold(s, step, id);
    if step.Reconcile? {
      ReconcileTells(s, step, id);
    } else if step.Insert? {
      InsertTells(s, step.id, step.n, id);
    } else {
      QuietTells(s, step, id);
    }
  }

  /** Exactly what leaves the log of a job behind. */
  lemma ToldExactly(s: Sys, step: Step, id: Id)
    requires Inv(s) && Enabled(s, step) && id !in s.stale
    requires id in After(s, step).table && (id in s.table ==> Follows(s, id))
    ensures Follows(After(s, step), id) <==> !Mistold(s, step, id)
  {
    hide Follows, Mistold, After, Inv, Enabled;
    if id in s.table {
      ToldExactlyKnown(s, step, id);
    } else {
      InsertedOnly(s, step, id);
      NeverMistold(s, step, id);
      InsertTells(s, step.id, step.n, id);
    }
  }

  lemma LogStepTells(s: Sys, n: nat, id: Id)
    requires Follows(s, id)
    ensures Enabled(s, Log(n)) ==> Follows(After(s, Log(n)), id) && !Mistold(s, Log(n), id)
    ensures Enabled(s, Lose(n)) ==> (Follows(After(s, Lose(n)), id) <==> !Mistold(s, Lose(n), id))
  {
    hide Follows, Changes, Logging, Losing;
    if n in s.owed {
      LogTells(s, n, id);
      LoseTells(s, n, id);
    }
  }

  /** No step of the run leaves the log of the job behind. */
  ghost predicate AllTold(s: Sys, steps: seq<Step>, id: Id)
  {
    forall k | 0 <= k < |steps| :: !Mistold(Run(s, steps[..k]), steps[k], id)
  }

  /** The event log of a job, with the one event that may be still to be logged, is a chain from its
      insertion that replays to its stored state, in every state of every run that does not leave it
      behind. */
  lemma {:induction false} LogsReplay(carry: bool, steps: seq<Step>, id: Id)
    requires Legal(Initial(carry), steps) && Undisturbed(Initial(carry), steps, id)
    requires AllTold(Initial(carry), steps, id) && id in Run(Initial(carry), steps).table
    ensures Follows(Run(Initial(carry), steps), id)
    ensures Quiet(Run(Initial(carry), steps), id) ==> Told(Run(Initial(carry), steps), id)
  {
    hide After, Enabled, Mistold, Inv, Undisturbed, Told, Telling, Quiet, Untimely;
    if steps != [] {
      var front := steps[..|steps| - 1];
      var s, last := Run(Initial(carry), front), steps[|steps| - 1];
      UndisturbedFront(Initial(carry), steps, id);
      forall k | 0 <= k < |front| ensures !Mistold(Run(Initial(carry), front[..k]), front[k], id) {
        assert front[..k] == steps[..k];
      }
      if id in s.table {
        LogsReplay(carry, front, id);
      }
      ReachableFor(carry, front, id);
      ToldExactly(s, last, id);
      assert steps[..|steps| - 1] == front && !Mistold(Run(Initial(carry), steps[..|steps| - 1]), last, id);
    }
    QuietIsTold(Run(Initial(carry), steps), id);
  }

  lemma QuietIsTold(s: Sys, id: Id)
    ensures Follows(s, id) && Quiet(s, id) ==> Told(s, id)
  {
  }

  // What a delete request writes back.

  /** Written back, the row of a delete request continues the log exactly when the state is as read;
      if not, the log is broken for good. */
  lemma DeleteContinuesLog(s: Sys, d: nat, now: T.Time, n: nat, more: seq<Event>)
    requires Enabled(s, Delete(d, now, n)) && Told(s, s.deletes[d].id)
    ensures var id, t := s.deletes[d].id, After(After(s, Delete(d, now, n)), Log(n));
            && (Told(t, id) <==> s.deletes[d].state == s.table[id].state)
            && (s.deletes[d].state != s.table[id].state ==> !Chain(LogOf(t.logs, id) + more))
  {
    assert LogOf(s.logs, s.deletes[d].id) != [];
    hide IndexAllows, Chain, Timely, After;
    var id, t := s.deletes[d].id, After(After(s, Delete(d, now, n)), Log(n));
    var log := LogOf(s.logs, id);
    DeleteLogged(s, d, now, n);
    ChainStep(log, Event(Some(s.deletes[d].state), RemovePending));
    if Chain(LogOf(t.logs, id) + more) {
      BrokenForGood(LogOf(t.logs, id), more);
    }
  }

  lemma DeleteLogged(s: Sys, d: nat, now: T.Time, n: nat)
    requires Enabled(s, Delete(d, now, n))
    ensures var id, t := s.deletes[d].id, After(After(s, Delete(d, now, n)), Log(n));
            && id in t.table && t.table[id] == Unclaimed(Removal(s.deletes[d], now).row) && t.owed == s.owed
            && LogOf(t.logs, id) == LogOf(s.logs, id) + [Event(Some(s.deletes[d].state), RemovePending)]
  {
    hide IndexAllows, Timely;
    assert s.owed[n := Owed(s.deletes[d].id, Removal(s.deletes[d], now).event.value, None)] - {n} == s.owed;
  }

  /** It leaves what a delete request that reads the row only now would leave exactly when the row
      is as read: otherwise something that was written in between is lost. */
  lemma DeleteLosesNothing(s: Sys, d: nat, now: T.Time, n: nat)
    requires Enabled(s, Delete(d, now, n))
    ensures var id, t := s.deletes[d].id, After(s, Delete(d, now, n));
            AsRead(s.table[id], s.deletes[d]) <==>
            && id in t.table && t.table[id] == Unclaimed(Removal(s.table[id], now).row)
            && t.owed == s.owed[n := Owed(id, Removal(s.table[id], now).event.value, None)]
  {
    hide IndexAllows, Timely, AsRead;
    var id, t := s.deletes[d].id, After(s, Delete(d, now, n));
    assert t.owed[n] == Owed(id, Removal(s.deletes[d], now).event.value, None);
    SameButForDelete(s.table[id], s.deletes[d], now);
  }

  lemma SameButForDelete(stored: Row, copy: Row, now: T.Time)
    ensures AsRead(stored, copy) <==>
            copy.state == stored.state && Unclaimed(Removal(copy, now).row) == Unclaimed(Removal(stored, now).row)
  {
    var c, r := copy, stored;
    var a, b := Unclaimed(Removal(copy, now).row), Unclaimed(Removal(stored, now).row);
    if a == b && copy.state == stored.state {
      assert a.(state := r.state, nextRunAt := r.nextRunAt, deleteRequested := r.deleteRequested) == Unclaimed(r);
      assert b.(state := r.state, nextRunAt := r.nextRunAt, deleteRequested := r.deleteRequested) == Unclaimed(r);
      assert a.(state := r.state, nextRunAt := r.nextRunAt, deleteRequested := r.deleteRequested)
          == Unclaimed(c.(nextRunAt := r.nextRunAt, deleteRequested := r.deleteRequested));
    }
    if AsRead(stored, copy) {
      assert Unclaimed(c.(nextRunAt := r.nextRunAt, deleteRequested := r.deleteRequested)) == Unclaimed(r);
      assert Unclaimed(r).(state := RemovePending, nextRunAt := Some(now), deleteRequested := true) == b;
    }
  }

  // A write passed over.

  lemma AllInOrder(s: Sys)
    requires Inv(s)
    ensures JobsOk(s) && WorkersOk(s)
  {
  }

  /** After the write passed over the next one goes through. */
  lemma SkippedCanWrite(s: Sys, n: nat)
    requires Inv(s) && Enabled(s, Skip(Downloader)) && s.phase[Downloader].mem.id !in s.stale && n !in s.owed
    ensures Enabled(After(s, Skip(Downloader)), Step.Write(Downloader, n))
  {
    hide Inv, JobsOk, WorkersOk, AtWork, IndexAllows, Fits, Link;
    StepKeeps(s, Skip(Downloader));
    AllInOrder(s);
    AtTheRow(s, Downloader);
    AllInOrder(After(s, Skip(Downloader)));
    WriteFits(After(s, Skip(Downloader)), Downloader);
  }

  /** The state after the write passed over and the next one, of which the event is logged. */
  ghost function AfterSkip(s: Sys, n: nat): Sys
  {
    After(After(After(s, Skip(Downloader)), Step.Write(Downloader, n)), Log(n))
  }

  /** When the write that makes a download visible fails and the handler goes on, the log stays a
      chain exactly if the job was downloading already. */
  lemma SkipBreaksChain(s: Sys, n: nat)
    requires Inv(s) && Enabled(s, Skip(Downloader)) && s.phase[Downloader].mem.id !in s.stale && n !in s.owed
    requires Told(s, s.phase[Downloader].mem.id) && s.phase[Downloader].todo[1].event.Some?
    ensures Enabled(After(s, Skip(Downloader)), Step.Write(Downloader, n))
    ensures Enabled(After(After(s, Skip(Downloader)), Step.Write(Downloader, n)), Log(n))
    ensures var id := s.phase[Downloader].mem.id;
            Chain(LogOf(AfterSkip(s, n).logs, id)) <==> s.table[id].state == LocalDownloading
  {
    hide Inv, After, Chain;
    SkippedCanWrite(s, n);
    SkippedWrites(s, n);
    ChainStep(LogOf(s.logs, s.phase[Downloader].mem.id), s.phase[Downloader].todo[1].event.value);
  }

  lemma SkippedWrites(s: Sys, n: nat)
    requires Inv(s) && Enabled(s, Skip(Downloader)) && s.phase[Downloader].mem.id !in s.stale && n !in s.owed
    requires s.phase[Downloader].todo[1].event.Some?
    ensures Enabled(After(After(s, Skip(Downloader)), Step.Write(Downloader, n)), Log(n))
    ensures var p := s.phase[Downloader];
            LogOf(AfterSkip(s, n).logs, p.mem.id) == LogOf(s.logs, p.mem.id) + [p.todo[1].event.value]
            && p.todo[1].event.value.from == Some(LocalDownloading)
  {
    hide Inv, JobsOk, WorkersOk, AtWork, After, Accepts;
    var p, u := s.phase[Downloader], After(s, Skip(Downloader));
    StepKeeps(s, Skip(Downloader));
    AllInOrder(s);
    AtTheRow(s, Downloader);
    SkipResult(s, Downloader);
    AllInOrder(u);
    WriteStarts(u, Downloader);
    WriteResult(u, Downloader, n);
    LogResult(After(u, Step.Write(Downloader, n)), n);
  }

  lemma SkipResult(s: Sys, w: Worker)
    requires w in s.phase && s.phase[w].Running? && s.phase[w].todo != []
    ensures var p := s.phase[w]; After(s, Skip(w)) == Moved(s, w, Running(p.todo[0].row, p.todo[1..], p.rest, true))
  {
  }

  lemma LogResult(s: Sys, n: nat)
    requires n in s.owed && s.owed[n].id in s.table
    ensures Enabled(s, Log(n))
    ensures LogOf(After(s, Log(n)).logs, s.owed[n].id) == LogOf(s.logs, s.owed[n].id) + [s.owed[n].event]
  {
  }

  // Claims are not what keeps a job in one hand.

  /** What a write of a worker finds and leaves. */
  lemma WriteStates(s: Sys, w: Worker)
    requires JobsOk(s) && WorkersOk(s) && w in s.phase && s.phase[w].Running? && s.phase[w].todo != []
    requires s.phase[w].mem.id !in s.stale
    ensures var row := s.phase[w].todo[0].row;
            && row.id == s.phase[w].mem.id && row.id in s.table && s.table[row.id].state in ClaimSet(w)
            && !Closed(s.table[row.id].state)
            && (s.table[row.id].state == RemovePending <==> w == Remover)
            && row.deleteRequested == s.table[row.id].deleteRequested && row.key == s.table[row.id].key
            && (if w == Remover then row.state == Removed || row.state == Failed
                else row.state != RemovePending && row.state != Removed)
  {
    hide JobsOk, WorkersOk, IndexAllows, RowOk, Fits;
    WriteFits(s, w);
    ClaimSetsDisjoint(w, w, s.table[s.phase[w].mem.id].state);
  }

  /** The first of two writes of a handler clears the claim of the job it still has in hand. */
  lemma WriteDropsClaim(s: Sys, w: Worker, n: nat)
    requires Inv(s) && Enabled(s, Step.Write(w, n)) && |s.phase[w].todo| > 1 && s.phase[w].mem.id in s.table
    ensures var id, t := s.phase[w].mem.id, After(s, Step.Write(w, n));
            InHandOf(t, w, id) && id in t.table && t.table[id].claimedBy.None?
  {
    hide JobsOk, WorkersOk, RequestsOk, CopiesOk, OwedOk, AtWork, After, IndexAllows;
    AtTheRow(s, w);
    WriteResult(s, w, n);
  }

  /** A worker that releases a job wipes the claim of the worker that has it by then. */
  lemma ReleaseWipesClaim(s: Sys, w: Worker, v: Worker, id: Id)
    requires Enabled(s, Release(w, true)) && s.phase[w].id == id && w != v && InHandOf(s, v, id) && id in s.table
    ensures var t := After(s, Release(w, true));
            InHandOf(t, v, id) && id in t.table && t.table[id].claimedBy.None?
  {
    assert After(s, Release(w, true)).phase[v] == s.phase[v];
  }

  // Removal.

  /** What a step may do to a job that is being removed, is removed or has failed. */
  predicate RemovalHolds(before: Table, after: Table, step: Step, id: Id)
    requires id in before
  {
    var was := before[id].state;
    && (id in after ==>
          && (was == RemovePending ==>
                after[id].state == RemovePending
                || (step.Write? && step.w == Remover && (after[id].state == Removed || after[id].state == Failed)))
          && (was == Removed ==> after[id].state == Removed)
          && (before[id].deleteRequested ==> after[id].deleteRequested)
          && (was == Failed ==> after[id].state == Failed || step.Delete?)
          && (Ending(was) ==> Ending(after[id].state)))
    && (id !in after && Ending(was) ==> step.Prune? && was == Removed)
  }

  lemma RemovalByWrite(s: Sys, w: Worker, n: nat, id: Id)
    requires Inv(s) && Enabled(s, Step.Write(w, n)) && id in s.table && id !in s.stale
    ensures RemovalHolds(s.table, After(s, Step.Write(w, n)).table, Step.Write(w, n), id)
  {
    hide JobsOk, WorkersOk, RequestsOk, CopiesOk, OwedOk, After, Accepts, AtWork;
    WriteResult(s, w, n);
    AtTheRow(s, w);
    if s.phase[w].mem.id == id {
      WriteStates(s, w);
    }
  }

  lemma RemovalByQueue(s: Sys, other: Id, now: T.Time, n: nat, id: Id)
    requires Inv(s) && Enabled(s, Queue(other, now, n)) && id in s.table && id !in s.stale
    ensures RemovalHolds(s.table, After(s, Queue(other, now, n)).table, Queue(other, now, n), id)
  {
    hide JobsOk, WorkersOk, RequestsOk, CopiesOk, OwedOk, Accepts, Fits, IndexAllows, Created;
    QueueFits(s, other, now);
  }

  lemma ReconcileResult(s: Sys, step: Step)
    requires step.Reconcile? && step.id in s.table
    ensures var write := Startup.ReconcileWrite(s.table[step.id], step.roots, step.parts, step.files, step.now);
            var t := After(s, step);
            && t.table == (if Closed(s.table[step.id].state) || write.None? then s.table
                           else PutRow(s.table, write.value.row))
            && t.phase == s.phase && t.requests == s.requests && t.used == s.used
  {
    hide Startup.ReconcileWrite;
  }

  lemma RemovalByReconcile(s: Sys, step: Step, id: Id)
    requires JobsOk(s) && step.Reconcile? && step.id in s.table && id in s.table && id !in s.stale
    ensures RemovalHolds(s.table, After(s, step).table, step, id)
  {
    hide UniqueOpen, JobOk, Startup.ReconcileWrite, RowOk, Startup.Local, After;
    var row := s.table[step.id];
    var write := Startup.ReconcileWrite(row, step.roots, step.parts, step.files, step.now);
    ReconcileResult(s, step);
    if !Closed(row.state) && write.Some? {
      ReconcileOwnKey(row, write.value, step.roots, step.parts, step.files, step.now);
      if step.id == id {
        StoredOk(s, id);
        NothingToPromote(row, step.roots, step.parts, step.files, step.now);
        EndingIsNotLocal(row.state);
      }
    }
  }

  lemma EndingIsNotLocal(state: JobState)
    ensures Ending(state) ==> !Startup.Local(state)
  {
  }

  lemma RemovalByDelete(s: Sys, d: nat, now: T.Time, n: nat, id: Id)
    requires CopiesOk(s) && Enabled(s, Delete(d, now, n)) && id in s.table && !Untimely(s, Delete(d, now, n), id)
    ensures RemovalHolds(s.table, After(s, Delete(d, now, n)).table, Delete(d, now, n), id)
  {
    hide IndexAllows, InHand, After, AsRead;
    var copy := s.deletes[d];
    assert CopyOk(s, copy);
    DeleteResult(s, d, now, n);
    if copy.id == id {
      assert AsRead(s.table[id], copy);
      SameButForDelete(s.table[id], copy, now);
    }
  }

  predicate LeavesTable(step: Step)
  {
    !step.Write? && !step.Queue? && !step.Reconcile? && !step.Delete? && !step.Insert? && !step.Prune?
    && !step.Claim? && !step.Release? && !step.ReleaseClaims? && !step.Log? && !step.Lose?
  }

  lemma TableStays(s: Sys, step: Step)
    requires LeavesTable(step)
    ensures After(s, step).table == s.table
  {
    hide Writes;
  }

  /** Steps that write no row change claims at most, and prune. */
  lemma RowsStay(s: Sys, step: Step, id: Id)
    requires Enabled(s, step) && id in s.table
    requires !step.Write? && !step.Queue? && !step.Reconcile? && !step.Delete?
    ensures id in After(s, step).table ==> Same(After(s, step).table[id], s.table[id])
    ensures id !in After(s, step).table ==> step.Prune? && s.table[id].state == Removed
  {
    hide IndexAllows, Handles, InHand, Logging, Losing;
    if LeavesTable(step) {
      hide After, Enabled;
      TableStays(s, step);
    } else if step.Log? || step.Lose? {
      LogsNoRow(s, step.n);
    }
  }

  lemma LogsNoRow(s: Sys, n: nat)
    requires n in s.owed
    ensures Logging(s, n).table == s.table && Losing(s, n).table == s.table
  {
  }

  lemma RemovalByRest(s: Sys, step: Step, id: Id)
    requires Enabled(s, step) && id in s.table
    requires !step.Write? && !step.Queue? && !step.Reconcile? && !step.Delete?
    ensures RemovalHolds(s.table, After(s, step).table, step, id)
  {
    hide Enabled, After;
    RowsStay(s, step, id);
  }

  lemma ReconcilesKnown(s: Sys, step: Step)
    requires step.Reconcile? && Enabled(s, step)
    ensures step.id in s.table
  {
  }

  /** From remove_pending only the remover moves a job, to removed or to failed; removed is left only
      by pruning, and failed only by another delete. */
  lemma RemovalStep(s: Sys, step: Step, id: Id)
    requires Inv(s) && Enabled(s, step) && id in s.table && id !in s.stale && !Untimely(s, step, id)
    ensures RemovalHolds(s.table, After(s, step).table, step, id)
  {
    hide JobsOk, WorkersOk, RequestsOk, CopiesOk, OwedOk, Enabled, After, RemovalHolds, Untimely;
    match step {
      case Write(w, n) => RemovalByWrite(s, w, n, id);
      case Queue(other, now, n) => RemovalByQueue(s, other, now, n, id);
      case Delete(d, now, n) => RemovalByDelete(s, d, now, n, id);
      case Reconcile(other, _, _, _, _, _) =>
        ReconcilesKnown(s, step);
        RemovalByReconcile(s, step, id);
      case _ => RemovalByRest(s, step, id);
    }
  }

  // What becomes of a job after a delete request.

  /** A job that is being removed, or gone for good. */
  predicate Deleted(s: Sys, id: Id)
  {
    && id in s.used
    && if id in s.table then s.table[id].deleteRequested && Ending(s.table[id].state) else id !in s.requests
  }

  /** Nobody but the remover has the job in hand. */
  ghost predicate Unheld(s: Sys, id: Id)
  {
    id !in s.requests && forall w: Worker | w != Remover :: !InHandOf(s, w, id)
  }

  /** What the remover has in hand of the job carries the delete request. */
  predicate Removes(p: Phase, id: Id)
  {
    match p
    case Idle => true
    case Claimed(_) => true
    case Between(rest) => RestRemoves(rest, id)
    case Running(_, todo, rest, _) =>
      RestRemoves(rest, id)
      && forall k | 0 <= k < |todo| && todo[k].row.id == id :: todo[k].row.deleteRequested && Ending(todo[k].row.state)
    case Releasing(_, rest) => RestRemoves(rest, id)
  }

  predicate RestRemoves(rest: seq<Row>, id: Id)
  {
    forall i | 0 <= i < |rest| && rest[i].id == id :: rest[i].deleteRequested
  }

  /** Deleted, with nobody left to undo it. */
  ghost predicate Doomed(s: Sys, id: Id)
  {
    Deleted(s, id) && Unheld(s, id) && Remover in s.phase && Removes(s.phase[Remover], id)
  }

  lemma DoomedByClaim(s: Sys, w: Worker, ids: seq<Id>, id: Id)
    requires Doomed(s, id) && Enabled(s, Claim(w, ids))
    ensures Doomed(After(s, Claim(w, ids)), id)
  {
    var t := After(s, Claim(w, ids));
    forall v: Worker | v != Remover ensures !InHandOf(t, v, id) {
      assert !InHandOf(s, v, id);
    }
  }

  lemma DoomedByFetch(s: Sys, w: Worker, batch: seq<Row>, id: Id)
    requires Doomed(s, id) && Enabled(s, Fetch(w, batch)) && Keyed(s.table)
    ensures Doomed(After(s, Fetch(w, batch)), id)
  {
    var t := After(s, Fetch(w, batch));
    forall v: Worker | v != Remover ensures !InHandOf(t, v, id) {
      assert !InHandOf(s, v, id);
    }
  }

  lemma DoomedByBegin(s: Sys, w: Worker, handling: Handling, id: Id)
    requires Doomed(s, id) && Enabled(s, Begin(w, handling))
    ensures Doomed(After(s, Begin(w, handling)), id)
  {
    hide Submit.Trace, Poll.Trace, Download.DownloadWrites, Finalize.FinalizeWrites;
    var t, rest := After(s, Begin(w, handling)), s.phase[w].rest;
    forall v: Worker | v != Remover ensures !InHandOf(t, v, id) {
      assert !InHandOf(s, v, id);
      assert rest[0].id in Ids(rest) && Ids(rest[1..]) <= Ids(rest);
    }
  }

  lemma DoomedByWrite(s: Sys, w: Worker, n: nat, id: Id)
    requires Doomed(s, id) && WorkersOk(s) && Enabled(s, Step.Write(w, n))
    ensures Doomed(After(s, Step.Write(w, n)), id)
  {
    hide WorkersOk, After, Accepts, AtWork;
    var p, t := s.phase[w], After(s, Step.Write(w, n));
    WriteResult(s, w, n);
    AtTheRow(s, w);
    assert w != Remover ==> !InHandOf(s, w, id);
    forall v: Worker | v != Remover ensures !InHandOf(t, v, id) {
      assert !InHandOf(s, v, id);
    }
  }

  /** Phases that hold no more than before. */
  lemma DoomedByMove(s: Sys, w: Worker, p: Phase, t: Sys, id: Id)
    requires Doomed(s, id) && w in s.phase && t.phase == s.phase[w := p] && Deleted(t, id)
    requires t.requests.Keys <= s.requests.Keys
    requires Hands(p) <= Hands(s.phase[w]) && (Removes(s.phase[w], id) ==> Removes(p, id))
    ensures Doomed(t, id)
  {
    hide Deleted, Removes;
    forall v: Worker | v != Remover ensures !InHandOf(t, v, id) {
      assert !InHandOf(s, v, id);
    }
  }

  lemma DoomedByMemory(s: Sys, step: Step, id: Id)
    requires Doomed(s, id) && WorkersOk(s) && Enabled(s, step)
    requires step.FetchFails? || step.Fail? || step.Skip? || step.Finish? || step.Release? || step.EndBatch?
    ensures Doomed(After(s, step), id)
  {
    hide WorkersOk, AtWork;
    var w, t := step.w, After(s, step);
    assert Deleted(t, id);
    if step.Skip? {
      AtTheRow(s, w);
    }
    DoomedByMove(s, w, t.phase[w], t, id);
  }

  lemma DoomedByLose(s: Sys, n: nat, id: Id)
    requires Doomed(s, id) && n in s.owed
    ensures Doomed(Losing(s, n), id)
  {
    var o, t := s.owed[n], Losing(s, n);
    assert Deleted(t, id) && id !in t.requests;
    if o.writer.Some? && o.writer.value in s.phase {
      var w := o.writer.value;
      DoomedByMove(s, w, Stopped(w, s.phase[w]), t, id);
    } else {
      DoomedByApi(s, t, id);
    }
  }

  /** No worker moves. */
  lemma DoomedByApi(s: Sys, t: Sys, id: Id)
    requires Doomed(s, id) && t.phase == s.phase && Deleted(t, id) && id !in t.requests
    ensures Doomed(t, id)
  {
    hide Deleted, Removes;
    forall v: Worker | v != Remover ensures !InHandOf(t, v, id) {
      assert !InHandOf(s, v, id);
    }
  }

  lemma DoomedByDown(s: Sys, t: Sys, id: Id)
    requires Doomed(s, id) && t.phase == STOPPED && t.requests == map[] && Deleted(t, id)
    ensures Doomed(t, id)
  {
  }

  lemma DeletedByRequest(s: Sys, step: Step, id: Id)
    requires Doomed(s, id) && RequestsOk(s) && Enabled(s, step)
    requires step.Queue? || step.Insert? || step.Abandon? || step.LookUp?
    ensures Deleted(After(s, step), id) && id !in After(s, step).requests
  {
    assert id !in s.requests;
    hide Unheld, Removes, IndexAllows, NewRow;
    if step.Queue? || step.Insert? {
      assert RequestOk(s.table, s.stale, step.id, s.requests[step.id]);
    }
  }

  lemma DeletedByDelete(s: Sys, step: Step, id: Id)
    requires Doomed(s, id) && Enabled(s, step)
    requires step.ReadDelete? || step.Delete? || step.DropDelete? || step.Prune? || step.Log?
    ensures Deleted(After(s, step), id) && id !in After(s, step).requests
  {
    hide Removes, IndexAllows, Timely;
  }

  /** The start-up leaves a job alone that is being removed. */
  lemma ReconcileEnding(row: Row, roots: Remove.Roots, parts: seq<Assets.Part>, files: Content.Files, now: T.Time)
    requires Ending(row.state) && !Closed(row.state)
    ensures var write := Startup.ReconcileWrite(row, roots, parts, files, now);
            write.Some? ==> write.value.row.state == row.state && write.value.row.deleteRequested == row.deleteRequested
  {
  }

  lemma DeletedByReconcile(s: Sys, step: Step, id: Id)
    requires Deleted(s, id) && step.Reconcile? && Enabled(s, step) && Keyed(s.table)
    ensures Deleted(After(s, step), id) && After(s, step).phase == s.phase && After(s, step).requests == s.requests
  {
    hide Startup.ReconcileWrite, Ending, After;
    var row := s.table[step.id];
    var write := Startup.ReconcileWrite(row, step.roots, step.parts, step.files, step.now);
    ReconcileResult(s, step);
    if !Closed(row.state) && write.Some? {
      ReconcileOwnKey(row, write.value, step.roots, step.parts, step.files, step.now);
      if step.id == id {
        ReconcileEnding(row, step.roots, step.parts, step.files, step.now);
      }
    }
  }

  lemma LoseResult(s: Sys, n: nat)
    requires Enabled(s, Lose(n))
    ensures n in s.owed && After(s, Lose(n)) == Losing(s, n)
  {
  }

  lemma CrashStops(s: Sys)
    ensures After(s, Crash).phase == STOPPED && After(s, Crash).requests == map[]
  {
  }

  lemma DoomedStays(s: Sys, step: Step, id: Id)
    requires Inv(s) && Enabled(s, step) && Doomed(s, id)
    ensures Doomed(After(s, step), id)
  {
    assert Keyed(s.table) && Deleted(s, id) && id !in s.requests;
    hide JobsOk, WorkersOk, RequestsOk, CopiesOk, OwedOk, Enabled, After, Doomed, Deleted, Losing;
    if step.Claim? {
      DoomedByClaim(s, step.w, step.ids, id);
    } else if step.Fetch? {
      DoomedByFetch(s, step.w, step.batch, id);
    } else if step.Begin? {
      DoomedByBegin(s, step.w, step.handling, id);
    } else if step.Write? {
      DoomedByWrite(s, step.w, step.n, id);
    } else if OfWorker(step) {
      DoomedByMemory(s, step, id);
    } else if step.Lose? {
      LoseResult(s, step.n);
      DoomedByLose(s, step.n, id);
    } else if step.Crash? {
      DeletedWhenDown(s, step, id);
      CrashStops(s);
      DoomedByDown(s, After(s, step), id);
    } else {
      DoomedByRest(s, step, id);
    }
  }

  lemma PhasesStay(s: Sys, step: Step)
    requires step.LookUp? || step.Insert? || step.Queue? || step.Abandon? || step.ReadDelete? || step.Delete?
             || step.DropDelete? || step.Prune? || step.Log? || step.ReleaseClaims? || step.Start?
    ensures After(s, step).phase == s.phase
  {
    hide Timely;
  }

  lemma DeletedWhenDown(s: Sys, step: Step, id: Id)
    requires Deleted(s, id) && id !in s.requests && (step.Crash? || step.ReleaseClaims? || step.Start?)
    ensures Deleted(After(s, step), id) && id !in After(s, step).requests
  {
  }

  lemma DoomedByRest(s: Sys, step: Step, id: Id)
    requires Inv(s) && Enabled(s, step) && Doomed(s, id)
    requires step.LookUp? || step.Insert? || step.Queue? || step.Abandon? || step.ReadDelete? || step.Delete?
             || step.DropDelete? || step.Prune? || step.Log? || step.ReleaseClaims? || step.Reconcile? || step.Start?
    ensures Doomed(After(s, step), id)
  {
    assert id !in s.requests;
    hide WorkersOk, RequestsOk, CopiesOk, OwedOk, UniqueOpen, JobOk, Enabled, Unheld, Removes, After, Deleted;
    if step.Reconcile? {
      DeletedByReconcile(s, step, id);
    } else {
      PhasesStay(s, step);
      if step.Delete? || step.ReadDelete? || step.DropDelete? || step.Prune? || step.Log? {
        DeletedByDelete(s, step, id);
      } else if step.ReleaseClaims? || step.Start? {
        DeletedWhenDown(s, step, id);
      } else {
        DeletedByRequest(s, step, id);
      }
    }
    DoomedByApi(s, After(s, step), id);
  }

  /** What the remover has in hand of a job that is stored as it should be. */
  lemma RemoverRemoves(s: Sys, id: Id)
    requires Inv(s) && id in s.table && id !in s.stale
    ensures Remover in s.phase && Removes(s.phase[Remover], id)
  {
    hide JobsOk, RequestsOk, CopiesOk, OwedOk, RowOk;
    var p := s.phase[Remover];
    assert WorkerOk(s.table, s.stale, s.carry, Remover, p);
    if p.Between? || p.Running? || p.Releasing? {
      forall i | 0 <= i < |p.rest| && p.rest[i].id == id ensures p.rest[i].deleteRequested {
        assert Fresh(s.table, s.stale, Remover, p.rest[i]);
        RemovingIsRequested(s, id);
      }
    }
    if p.Running? && p.todo != [] && p.mem.id == id {
      RemovingIsRequested(s, id);
    }
  }

  lemma RemovingIsRequested(s: Sys, id: Id)
    requires JobsOk(s) && id in s.table && id !in s.stale
    ensures s.table[id].state == RemovePending ==> s.table[id].deleteRequested
  {
    StoredOk(s, id);
  }

  lemma DeleteTakes(s: Sys, d: nat, now: T.Time, n: nat)
    requires Inv(s) && Enabled(s, Delete(d, now, n)) && s.deletes[d].id !in s.stale && Unheld(s, s.deletes[d].id)
    ensures Doomed(After(s, Delete(d, now, n)), s.deletes[d].id)
  {
    hide JobsOk, WorkersOk, RequestsOk, CopiesOk, OwedOk, IndexAllows, Timely, Removes;
    var id, t := s.deletes[d].id, After(s, Delete(d, now, n));
    RemoverRemoves(s, id);
    UsedCovers(s);
    forall v: Worker | v != Remover ensures !InHandOf(t, v, id) {
      assert !InHandOf(s, v, id);
    }
  }

  lemma {:induction false} DoomedFor(d: Sys, id: Id, steps: seq<Step>)
    requires Inv(d) && Doomed(d, id) && Legal(d, steps)
    ensures Doomed(Run(d, steps), id)
  {
    hide Inv, Enabled, After, Doomed;
    if steps != [] {
      DoomedFor(d, id, steps[..|steps| - 1]);
      RunKeeps(d, steps[..|steps| - 1]);
      DoomedStays(Run(d, steps[..|steps| - 1]), steps[|steps| - 1], id);
    }
  }

  /** A delete that is written when nobody but the remover has the job in hand is final: in every
      state of every run that follows, the job is being removed, is removed, was refused by the
      remover, or is gone. What the row was when it was read does not matter for that. */
  lemma DeleteIsFinal(s: Sys, d: nat, now: T.Time, n: nat, steps: seq<Step>)
    requires Inv(s) && Enabled(s, Delete(d, now, n)) && Legal(After(s, Delete(d, now, n)), steps)
    requires s.deletes[d].id !in s.stale && Unheld(s, s.deletes[d].id)
    ensures Deleted(Run(After(s, Delete(d, now, n)), steps), s.deletes[d].id)
  {
    hide Inv, After, Legal, Run, Unheld;
    var t := After(s, Delete(d, now, n));
    StepKeeps(s, Delete(d, now, n));
    DeleteTakes(s, d, now, n);
    DoomedFor(t, s.deletes[d].id, steps);
  }

  /** Why the job must not be in hand: a delete that lands on a job some worker other than the
      remover is about to write is undone by that write. */
  lemma DeleteInHandIsLost(s: Sys, w: Worker, d: nat, now: T.Time, n: nat, m: nat)
    requires Inv(s) && w in s.phase && s.phase[w].Running? && s.phase[w].todo != [] && w != Remover
    requires Enabled(s, Delete(d, now, n)) && s.deletes[d].id == s.phase[w].mem.id && s.deletes[d].id !in s.stale
    requires Settled(s, w) && m !in s.owed && m != n
    ensures var id, u := s.phase[w].mem.id, After(s, Delete(d, now, n));
            var t := After(u, Step.Write(w, m));
            && Enabled(u, Step.Write(w, m))
            && id in u.table && u.table[id].state == RemovePending && u.table[id].deleteRequested
            && id in t.table && !t.table[id].deleteRequested
            && t.table[id].state != RemovePending && t.table[id].state != Removed
  {
    hide JobsOk, RequestsOk, WorkersOk, CopiesOk, OwedOk, IndexAllows, Timely, After;
    var u := After(s, Delete(d, now, n));
    WriteStates(s, w);
    NotYetDeleted(s, w, s.phase[w].mem.id);
    DeleteResult(s, d, now, n);
    StillAllowed(s, w, d, now, n);
    WriteResult(u, w, m);
  }

  lemma DeleteResult(s: Sys, d: nat, now: T.Time, n: nat)
    requires d in s.deletes && s.deletes[d].id in s.table
    ensures var t := After(s, Delete(d, now, n));
            && t.table == PutRow(s.table, Removal(s.deletes[d], now).row) && t.phase == s.phase && t.up == s.up
            && t.requests == s.requests && t.carry == s.carry
            && t.owed == s.owed[n := Owed(s.deletes[d].id, Removal(s.deletes[d], now).event.value, None)]
  {
    hide Timely;
  }

  /** A job that a worker other than the remover may claim has no delete request. */
  lemma NotYetDeleted(s: Sys, w: Worker, id: Id)
    requires JobsOk(s) && w != Remover && id in s.table && id !in s.stale && s.table[id].state in ClaimSet(w)
    ensures !s.table[id].deleteRequested
  {
    StoredOk(s, id);
  }

  /** The row as read has the key of the job, so that the index does not stop the write after it. */
  lemma StillAllowed(s: Sys, w: Worker, d: nat, now: T.Time, n: nat)
    requires Inv(s) && w in s.phase && s.phase[w].Running? && s.phase[w].todo != []
    requires Enabled(s, Delete(d, now, n)) && s.deletes[d].id == s.phase[w].mem.id && s.deletes[d].id !in s.stale
    ensures IndexAllows(PutRow(s.table, Removal(s.deletes[d], now).row), s.phase[w].todo[0].row)
  {
    hide IndexAllows, UniqueOpen, RequestsOk, WorkersOk, OwedOk, JobOk;
    var deleted := Removal(s.deletes[d], now).row;
    WriteStates(s, w);
    assert CopyOk(s, s.deletes[d]);
    OwnKeyAllowed(s.table, deleted);
    OwnKeyAllowed(PutRow(s.table, deleted), s.phase[w].todo[0].row);
  }
}

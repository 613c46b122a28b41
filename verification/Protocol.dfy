/**
 The whole service as an interleaved transition system: the jobs table and the event log, five
 worker loops with their batches of in-memory jobs, API requests in flight, and crashes followed by
 a start-up. One `Step` is one statement on the database, or one step of a worker in memory. The
 event of a row write is logged by a statement of its own, with whatever else comes in between.

 Exclusion does not rest on claims here: every row write clears the claim of its row, and a worker
 that is done with a job clears whatever claim the row has by then. Nor does anything keep a delete
 request from writing back the row it read a while ago.
 */
module Protocol {
  import opened Wrappers
  import opened Api
  import opened Jobs
  import opened Content
  import opened Assets
  import opened Store
  import Download
  import Finalize
  import Poll
  import Remove
  import Startup
  import Submit
  import Text
  import T = TimeText

  /** A worker loop: idle, with ids claimed but not fetched yet, between two jobs of a batch, at a
      job with the writes its handler is still going to make, or about to release a claim. `mem` is
      the job in memory as last fetched or written, or as it would be had a write not just failed
      and been passed over (`skipped`). */
  datatype Phase =
    | Idle
    | Claimed(ids: seq<Id>)
    | Between(rest: seq<Row>)
    | Running(mem: Row, todo: seq<Write>, rest: seq<Row>, skipped: bool)
    | Releasing(id: Id, rest: seq<Row>)

  /** A submission that found no duplicate, and one that has been inserted as accepted. */
  datatype Request = Looked(row: Row) | Inserted(row: Row)

  /** An event that goes with a row write that was made, and is not logged yet. */
  datatype Owed = Owed(id: Id, event: Event, writer: Option<Worker>)

  /** `deletes` are the delete requests that have read a row and not written it back yet, `stale` the
      jobs to which one wrote back a row that was not as read, or that somebody had in hand. With
      `carry`, active statuses always carry an id. */
  datatype Sys = Sys(
    table: Table, logs: Logs, owed: map<nat, Owed>, phase: map<Worker, Phase>, requests: map<Id, Request>,
    deletes: map<nat, Row>, used: set<Id>, stale: set<Id>, up: bool, carry: bool)

  /** What a handler meets, which decides what it writes. */
  datatype Handling =
    | Submitting(answer: Submit.Answer, pollAt: T.Time, retryAt: T.Time)
    | Polling(answers: Poll.Answers)
    | Downloading(downloads: seq<Write>)
    | Finalizing(results: seq<Write>)
    | Removing(end: Remove.End)

  datatype Step =
    | Claim(w: Worker, ids: seq<Id>)
    | Fetch(w: Worker, batch: seq<Row>)
    | FetchFails(w: Worker)
    | Begin(w: Worker, handling: Handling)
    | Write(w: Worker, n: nat)
    | Fail(w: Worker)
    | Skip(w: Worker)
    | Finish(w: Worker)
    | Release(w: Worker, ok: bool)
    | EndBatch(w: Worker)
    | LookUp(row: Row)
    | Insert(id: Id, n: nat)
    | Queue(id: Id, now: T.Time, n: nat)
    | Abandon(id: Id)
    | ReadDelete(d: nat, id: Id)
    | Delete(d: nat, now: T.Time, n: nat)
    | DropDelete(d: nat)
    | Log(n: nat)
    | Lose(n: nat)
    | Prune(gone: set<Id>)
    | Crash
    | ReleaseClaims
    | Reconcile(id: Id, roots: Remove.Roots, parts: seq<Part>, files: Files, now: T.Time, n: nat)
    | Start

  // The steps.

  function Writes(row: Row, handling: Handling): seq<Jobs.Write>
  {
    match handling
    case Submitting(a, pollAt, retryAt) => Submit.Trace(row, a, pollAt, retryAt)
    case Polling(a) => Poll.Trace(row, a)
    case Downloading(ws) => ws
    case Finalizing(ws) => ws
    case Removing(end) => Remove.RemoveTrace(row, end)
  }

  predicate CarriesId(reply: Poll.Reply)
  {
    reply.Found? && reply.status.ready ==> reply.status.remoteId != ""
  }

  predicate Handles(w: Worker, row: Row, handling: Handling, carry: bool)
  {
    match handling
    case Submitting(_, _, _) => w == Submitter
    case Polling(a) => w == Poller && (carry ==> CarriesId(a.task) && CarriesId(a.active))
    case Downloading(ws) => w == Downloader && Download.DownloadWrites(row, ws)
    case Finalizing(ws) => w == Finalizer && Finalize.FinalizeWrites(row, ws)
    case Removing(_) => w == Remover
  }

  /** Jobs a worker has in hand: those it is still going to write. */
  function Hands(p: Phase): set<Id>
  {
    match p
    case Idle => {}
    case Claimed(ids) => set i | 0 <= i < |ids| :: ids[i]
    case Between(rest) => Ids(rest)
    case Running(mem, todo, rest, _) => (if todo == [] then {} else {mem.id}) + Ids(rest)
    case Releasing(_, rest) => Ids(rest)
  }

  function Ids(rows: seq<Row>): set<Id> { set i | 0 <= i < |rows| :: rows[i].id }

  predicate InHandOf(s: Sys, w: Worker, id: Id) { w in s.phase && id in Hands(s.phase[w]) }

  ghost predicate InHand(s: Sys, id: Id)
  {
    id in s.requests || exists w: Worker :: InHandOf(s, w, id)
  }

  /** A row as the API makes it. */
  predicate NewRow(row: Row)
  {
    row.state == Accepted && row.completedPath.None? && row.claimedBy.None? && !row.deleteRequested
  }

  /** Updating a row by its id fails only at the index, and without effect where there is no row. */
  ghost predicate Accepts(table: Table, row: Row) { row.id in table ==> IndexAllows(table, row) }

  /** What a handler can still do after a statement of a write has failed: only the downloader goes
      on, to the one write that ends its attempt. */
  predicate GoesOn(w: Worker, left: seq<Jobs.Write>)
  {
    w == Downloader && |left| == 1 && left[0].row.state == LocalDownloading
  }

  /** A worker goes on when the event of its last write is logged. */
  predicate Settled(s: Sys, w: Worker) { forall n | n in s.owed :: s.owed[n].writer != Some(w) }

  /** A submission is queued when its creation is logged. */
  predicate Created(s: Sys, id: Id) { forall n | n in s.owed && s.owed[n].id == id :: s.owed[n].event.from.Some? }

  ghost predicate Enabled(s: Sys, step: Step)
  {
    match step
    case Claim(w, ids) =>
      && s.up && w in s.phase && s.phase[w].Idle?
      && (forall i, j | 0 <= i < j < |ids| :: ids[i] != ids[j])
      && (forall i | 0 <= i < |ids| ::
            ids[i] in s.table && s.table[ids[i]].state in ClaimSet(w) && s.table[ids[i]].claimedBy.None?)
    case Fetch(w, batch) =>
      && s.up && w in s.phase && s.phase[w].Claimed?
      && (forall i, j | 0 <= i < j < |batch| :: batch[i].id != batch[j].id)
      && (forall i | 0 <= i < |batch| ::
            batch[i].id in Hands(s.phase[w]) && batch[i].id in s.table && s.table[batch[i].id] == batch[i])
    case FetchFails(w) => s.up && w in s.phase && s.phase[w].Claimed?
    case Begin(w, handling) =>
      && s.up && w in s.phase && s.phase[w].Between? && s.phase[w].rest != []
      && Handles(w, s.phase[w].rest[0], handling, s.carry)
    case Write(w, n) =>
      && s.up && w in s.phase && s.phase[w].Running? && s.phase[w].todo != []
      && Accepts(s.table, s.phase[w].todo[0].row) && Settled(s, w) && n !in s.owed
    case Fail(w) => s.up && w in s.phase && s.phase[w].Running? && Settled(s, w)
    case Skip(w) =>
      && s.up && w in s.phase && s.phase[w].Running? && s.phase[w].todo != []
      && GoesOn(w, s.phase[w].todo[1..]) && Settled(s, w)
    case Finish(w) => s.up && w in s.phase && s.phase[w].Running? && s.phase[w].todo == [] && Settled(s, w)
    case Release(w, _) => s.up && w in s.phase && s.phase[w].Releasing?
    case EndBatch(w) => s.up && w in s.phase && s.phase[w].Between? && s.phase[w].rest == []
    case LookUp(row) =>
      && s.up && NewRow(row) && row.id !in s.used
      && (forall id | id in s.table && s.table[id].key == row.key :: Closed(s.table[id].state))
    case Insert(id, n) =>
      && s.up && id in s.requests && s.requests[id].Looked?
      && id !in s.table && IndexAllows(s.table, s.requests[id].row) && n !in s.owed
    case Queue(id, now, n) =>
      && s.up && id in s.requests && s.requests[id].Inserted? && Created(s, id)
      && Accepts(s.table, Queued(s.requests[id].row, now).row) && n !in s.owed
    case Abandon(id) => s.up && id in s.requests
    case ReadDelete(d, id) =>
      s.up && d !in s.deletes && id in s.table && s.table[id].state != Removed && s.table[id].state != RemovePending
    case Delete(d, now, n) =>
      && s.up && d in s.deletes && s.deletes[d].id in s.table
      && IndexAllows(s.table, Removal(s.deletes[d], now).row) && n !in s.owed
    case DropDelete(d) => s.up && d in s.deletes
    case Log(n) => n in s.owed
    case Lose(n) => n in s.owed
    case Prune(gone) => s.up && forall id | id in gone :: id in s.table && s.table[id].state == Removed
    case Crash => true
    case ReleaseClaims => !s.up
    case Reconcile(id, _, _, _, _, _) => !s.up && id in s.table && s.owed == map[]
    case Start => !s.up && s.owed == map[]
  }

  function Moved(s: Sys, w: Worker, p: Phase): Sys { s.(phase := s.phase[w := p]) }

  /** A row write, after which its event is to be logged; where there is no row it cannot be. */
  function Written(s: Sys, write: Jobs.Write, n: nat, writer: Option<Worker>): Sys
  {
    if write.row.id in s.table then
      s.(table := PutRow(s.table, write.row),
         owed := if write.event.Some? then s.owed[n := Owed(write.row.id, write.event.value, writer)] else s.owed)
    else s
  }

  const STOPPED: map<Worker, Phase> :=
    map[Submitter := Idle, Poller := Idle, Downloader := Idle, Finalizer := Idle, Remover := Idle]

  /** The stored row is as it was read, apart from what the delete request sets itself. */
  predicate AsRead(stored: Row, copy: Row)
  {
    Same(copy.(nextRunAt := stored.nextRunAt, deleteRequested := stored.deleteRequested), stored)
  }

  /** The row a delete request writes back is as it was read, and nobody has the job in hand. */
  ghost predicate Timely(s: Sys, d: nat)
    requires d in s.deletes
  {
    var copy := s.deletes[d];
    copy.id in s.table && AsRead(s.table[copy.id], copy) && !InHand(s, copy.id)
  }

  /** What is left of a handler of which the event of a write is lost. */
  function Stopped(w: Worker, p: Phase): Phase
  {
    if p.Running? && !GoesOn(w, p.todo) then p.(todo := [], skipped := false) else p
  }

  /** An event is logged, if its job is still there. */
  function Logging(s: Sys, n: nat): Sys
    requires n in s.owed
  {
    var o := s.owed[n];
    s.(logs := if o.id in s.table then Logged(s.logs, o.id, Some(o.event)) else s.logs, owed := s.owed - {n})
  }

  /** An event is not logged: the handler stops, or the submission is answered with an error. */
  function Losing(s: Sys, n: nat): Sys
    requires n in s.owed
  {
    var o := s.owed[n];
    s.(owed := s.owed - {n},
       phase := if o.writer.Some? && o.writer.value in s.phase then
                  s.phase[o.writer.value := Stopped(o.writer.value, s.phase[o.writer.value])] else s.phase,
       requests := if o.event.from.None? then s.requests - {o.id} else s.requests)
  }

  ghost function After(s: Sys, step: Step): (t: Sys)
    ensures t.carry == s.carry
  {
    match step
    case Claim(w, ids) => Moved(s, w, Claimed(ids)).(table := ClaimRows(s.table, ids, w))
    case Fetch(w, batch) => Moved(s, w, Between(batch))
    case FetchFails(w) => Moved(s, w, Idle)
    case Begin(w, handling) =>
      if w in s.phase && s.phase[w].Between? && s.phase[w].rest != [] then
        var rest := s.phase[w].rest;
        Moved(s, w, Running(rest[0], Writes(rest[0], handling), rest[1..], false))
      else s
    case Write(w, n) =>
      if w in s.phase && s.phase[w].Running? && s.phase[w].todo != [] then
        var p := s.phase[w];
        Moved(Written(s, p.todo[0], n, Some(w)), w, Running(p.todo[0].row, p.todo[1..], p.rest, false))
      else s
    case Fail(w) =>
      if w in s.phase && s.phase[w].Running? then Moved(s, w, s.phase[w].(todo := [], skipped := false)) else s
    case Skip(w) =>
      if w in s.phase && s.phase[w].Running? && s.phase[w].todo != [] then
        var p := s.phase[w];
        Moved(s, w, Running(p.todo[0].row, p.todo[1..], p.rest, true))
      else s
    case Finish(w) =>
      if w in s.phase && s.phase[w].Running? then Moved(s, w, Releasing(s.phase[w].mem.id, s.phase[w].rest)) else s
    case Release(w, ok) =>
      if w in s.phase && s.phase[w].Releasing? then
        Moved(s, w, Between(s.phase[w].rest)).(table := if ok then ReleaseRow(s.table, s.phase[w].id) else s.table)
      else s
    case EndBatch(w) => Moved(s, w, Idle)
    case LookUp(row) => s.(requests := s.requests[row.id := Looked(row)], used := s.used + {row.id})
    case Insert(id, n) =>
      if id in s.requests then
        var row := s.requests[id].row;
        s.(table := s.table[id := Unclaimed(row)], owed := s.owed[n := Owed(id, Event(None, row.state), None)],
           requests := s.requests[id := Inserted(row)])
      else s
    case Queue(id, now, n) =>
      if id in s.requests then Written(s, Queued(s.requests[id].row, now), n, None).(requests := s.requests - {id}) else s
    case Abandon(id) => s.(requests := s.requests - {id})
    case ReadDelete(d, id) => if id in s.table then s.(deletes := s.deletes[d := s.table[id]]) else s
    case Delete(d, now, n) =>
      if d in s.deletes then
        Written(s, Removal(s.deletes[d], now), n, None).(
          deletes := s.deletes - {d}, stale := if Timely(s, d) then s.stale else s.stale + {s.deletes[d].id})
      else s
    case DropDelete(d) => s.(deletes := s.deletes - {d})
    case Log(n) => if n in s.owed then Logging(s, n) else s
    case Lose(n) => if n in s.owed then Losing(s, n) else s
    case Prune(gone) => s.(table := s.table - gone, logs := s.logs - gone)
    case Crash => s.(owed := map[], phase := STOPPED, requests := map[], deletes := map[], up := false)
    case ReleaseClaims => s.(table := ReleaseAll(s.table))
    case Reconcile(id, roots, parts, files, now, n) =>
      if id in s.table && !Closed(s.table[id].state) then
        var write := Startup.ReconcileWrite(s.table[id], roots, parts, files, now);
        if write.Some? then Written(s, write.value, n, None) else s
      else s
    case Start => s.(up := true)
  }

  ghost function Run(s: Sys, steps: seq<Step>): Sys
  {
    if steps == [] then s else After(Run(s, steps[..|steps| - 1]), steps[|steps| - 1])
  }

  ghost predicate Legal(s: Sys, steps: seq<Step>)
  {
    steps == [] ||
    (Legal(s, steps[..|steps| - 1]) && Enabled(Run(s, steps[..|steps| - 1]), steps[|steps| - 1]))
  }

  /** The service before its first start. */
  function Initial(carry: bool): Sys {
    Sys(map[], map[], map[], STOPPED, map[], map[], {}, {}, false, carry)
  }

  /** A delete request writes back the row of a job when it is too late for that. */
  ghost predicate Untimely(s: Sys, step: Step, id: Id)
  {
    step.Delete? && step.d in s.deletes && s.deletes[step.d].id == id && !Timely(s, step.d)
  }

  // The invariant.

  predicate Past(s: JobState)
  {
    || s == LocalDownloadPending || s == LocalDownloading || s == LocalVerify || s == Completed
    || s == RemovePending || s == Removed || s == Failed
  }

  predicate Carried(row: Row) { row.remoteId.Some? && row.queuedId.None? }

  predicate Ending(s: JobState) { s == RemovePending || s == Removed || s == Failed }

  predicate RowOk(row: Row)
  {
    && (row.deleteRequested ==> Ending(row.state))
    && (row.state == RemovePending || row.state == Removed ==> row.deleteRequested)
    && (row.state == RemoteQueued ==> !Submit.Untracked(row))
    && (row.completedPath.Some? ==> row.state == Completed || row.state == RemovePending || row.state == Failed)
    && (row.state == RemoteQueued || row.state == RemoteActive || row.state == LocalDownloadPending ==>
          row.retryCount == 0)
  }

  /** What one write may do to the row it was made from. */
  predicate Link(mem: Row, write: Jobs.Write, carry: bool)
  {
    && write.row.id == mem.id && write.row.key == mem.key && RowOk(write.row)
    && write.row.deleteRequested == mem.deleteRequested
    && (if write.event.Some? then write.event.value == Event(Some(mem.state), write.row.state)
        else write.row.state == mem.state)
    && (Past(mem.state) ==>
          && Past(write.row.state) && write.row.state != LocalDownloadPending
          && write.row.remoteId == mem.remoteId && write.row.queuedId == mem.queuedId)
    && (if mem.state == RemovePending then write.row.state == Removed || write.row.state == Failed
        else write.row.state != RemovePending && write.row.state != Removed)
    && (carry && write.row.state == LocalDownloadPending ==> Carried(write.row))
  }

  /** Every write of a handler is linked to the one before, and only the last may leave the states
      that its worker claims. */
  predicate Plan(w: Worker, mem: Row, todo: seq<Jobs.Write>, carry: bool)
    decreases |todo|
  {
    todo == [] ||
    (mem.state in ClaimSet(w) && Link(mem, todo[0], carry)
     && (|todo| > 1 ==> todo[0].row.state in ClaimSet(w)) && Plan(w, todo[0].row, todo[1..], carry))
  }

  predicate OwnRows(id: Id, todo: seq<Jobs.Write>) { forall k | 0 <= k < |todo| :: todo[k].row.id == id }

  /** A row in memory that equals its row in the table, in a state the worker claims; nothing is said
      of stale jobs. */
  predicate Fresh(table: Table, stale: set<Id>, w: Worker, row: Row)
  {
    row.id !in stale ==> row.id in table && Same(table[row.id], row) && row.state in ClaimSet(w)
  }

  predicate Fetched(table: Table, stale: set<Id>, w: Worker, rows: seq<Row>)
  {
    && (forall i, j | 0 <= i < j < |rows| :: rows[i].id != rows[j].id)
    && (forall i | 0 <= i < |rows| :: Fresh(table, stale, w, rows[i]))
  }

  /** A job in memory against its row in the table. Only right after a write was passed over may
      the two differ. */
  predicate Current(table: Table, skipped: bool, mem: Row)
  {
    && mem.id in table
    && (|| Same(table[mem.id], mem)
        || (skipped
            && table[mem.id].key == mem.key && table[mem.id].deleteRequested == mem.deleteRequested
            && table[mem.id].remoteId == mem.remoteId && table[mem.id].queuedId == mem.queuedId
            && table[mem.id].state in ClaimSet(Downloader) && mem.state == LocalDownloading))
  }

  /** A handler at a job that is not stale. */
  predicate AtWork(table: Table, carry: bool, w: Worker, mem: Row, todo: seq<Jobs.Write>, skipped: bool)
  {
    && Plan(w, mem, todo, carry) && (skipped ==> mem.state == LocalDownloading)
    && (todo != [] ==> Current(table, skipped, mem) && table[mem.id].state in ClaimSet(w))
  }

  predicate WorkerOk(table: Table, stale: set<Id>, carry: bool, w: Worker, p: Phase)
  {
    match p
    case Idle => true
    case Claimed(ids) =>
      && (forall i, j | 0 <= i < j < |ids| :: ids[i] != ids[j])
      && (forall i | 0 <= i < |ids| && ids[i] !in stale :: ids[i] in table && table[ids[i]].state in ClaimSet(w))
    case Between(rest) => Fetched(table, stale, w, rest)
    case Running(mem, todo, rest, skipped) =>
      && Fetched(table, stale, w, rest) && mem.id !in Ids(rest) && OwnRows(mem.id, todo)
      && (skipped ==> w == Downloader && |todo| == 1 && todo[0].row.state == LocalDownloading)
      && (mem.id !in stale ==> AtWork(table, carry, w, mem, todo, skipped))
    case Releasing(_, rest) => Fetched(table, stale, w, rest)
  }

  predicate RequestOk(table: Table, stale: set<Id>, id: Id, r: Request)
  {
    && r.row.id == id && NewRow(r.row)
    && if r.Looked? then id !in table && id !in stale else id !in stale ==> id in table && Same(table[id], r.row)
  }

  /** A row read by a delete request: never of a job that is not inserted yet, or being removed. */
  predicate CopyOk(s: Sys, copy: Row)
  {
    && copy.id in s.used && copy.state != Removed && copy.state != RemovePending
    && (copy.id in s.requests ==> s.requests[copy.id].Inserted?)
    && (copy.id in s.table && copy.id !in s.stale ==> s.table[copy.id].key == copy.key)
  }

  function LogOf(logs: Logs, id: Id): seq<Event> { if id in logs then logs[id] else [] }

  predicate CameThrough(log: seq<Event>)
  {
    exists k | 0 <= k < |log| :: log[k].to == LocalDownloadPending
  }

  /** The log shows that the job came through local_download_pending, or is going to. */
  ghost predicate Came(s: Sys, id: Id)
  {
    || CameThrough(LogOf(s.logs, id))
    || exists n :: n in s.owed && s.owed[n].id == id && s.owed[n].event.to == LocalDownloadPending
  }

  predicate JobOk(row: Row, came: bool, carry: bool)
  {
    && RowOk(row)
    && (row.state == LocalDownloadPending && carry ==> Carried(row))
    && (came ==> Past(row.state) && (carry ==> Carried(row)))
  }

  ghost predicate JobsOk(s: Sys)
  {
    && Keyed(s.table) && UniqueOpen(s.table) && s.table.Keys <= s.used && s.stale <= s.used && s.logs.Keys <= s.table.Keys
    && forall id | id in s.table && id !in s.stale :: JobOk(s.table[id], Came(s, id), s.carry)
  }

  /** An event is of a job that has been inserted. */
  ghost predicate OwedOk(s: Sys)
  {
    forall n | n in s.owed ::
      s.owed[n].id in s.used && (s.owed[n].id in s.requests ==> s.requests[s.owed[n].id].Inserted?)
  }

  ghost predicate WorkersOk(s: Sys)
  {
    forall w: Worker :: w in s.phase && WorkerOk(s.table, s.stale, s.carry, w, s.phase[w])
  }

  ghost predicate RequestsOk(s: Sys)
  {
    forall id | id in s.requests :: id in s.used && RequestOk(s.table, s.stale, id, s.requests[id])
  }

  ghost predicate CopiesOk(s: Sys) { forall d | d in s.deletes :: CopyOk(s, s.deletes[d]) }

  ghost predicate Inv(s: Sys)
  {
    && JobsOk(s) && WorkersOk(s) && RequestsOk(s) && CopiesOk(s) && OwedOk(s)
    && (!s.up ==> s.phase == STOPPED && s.requests == map[] && s.deletes == map[])
  }

  // What handlers write is linked.

  lemma SubmitPlans(row: Row, a: Submit.Answer, pollAt: T.Time, retryAt: T.Time, carry: bool)
    requires RowOk(row) && row.state in ClaimSet(Submitter)
    ensures Plan(Submitter, row, Submit.Trace(row, a, pollAt, retryAt), carry)
  {
    hide Submit.TakeRemoteName, Text.TrimSpace;
  }

  /** What a status leaves of a row. */
  lemma RefreshedKeeps(row: Row, s: Poll.Status)
    ensures var known := Poll.Refreshed(row, s);
            && known.id == row.id && known.key == row.key && known.state == row.state && known.queuedId == row.queuedId
            && known.deleteRequested == row.deleteRequested && known.completedPath == row.completedPath
            && known.retryCount == row.retryCount
            && (s.remoteId != "" || row.remoteId.Some? ==> known.remoteId.Some?)
  {
    hide Submit.Placeholder;
  }

  lemma ApplyPlans(row: Row, status: Option<Poll.Status>, now: T.Time, next: T.Time, carry: bool)
    requires RowOk(row) && row.state == RemoteActive
    requires carry && status.Some? && status.value.ready ==> status.value.remoteId != ""
    ensures Plan(Poller, row, Poll.ApplyTrace(row, status, now, next), carry)
  {
    hide Poll.Refreshed, Poll.StatusError, Submit.Untracked;
    if status.Some? {
      RefreshedKeeps(row, status.value);
    }
  }

  /** A status applied to a job that is not active yet comes after the write that makes it active,
      so that the silent assignment of the state never changes it. */
  lemma RecoverPlans(row: Row, a: Poll.Answers, carry: bool)
    requires RowOk(row) && row.state in ClaimSet(Poller) && (carry ==> CarriesId(a.active))
    ensures Plan(Poller, row, Poll.RecoverTrace(row, a), carry)
  {
    if a.active.Found? {
      var status := a.active.status;
      var known := if status.remoteId != "" then row.(remoteId := Some(status.remoteId)) else row;
      ApplyPlans(known.(state := RemoteActive), Some(status), a.now, a.next, carry);
      if row.state == RemoteActive {
        assert known.(state := RemoteActive) == known;
        PlanFrom(row, known, Poll.ApplyTrace(known, Some(status), a.now, a.next), carry);
      } else {
        PlanAfter(row, SaveState(known, RemoteActive),
                  Poll.ApplyTrace(known.(state := RemoteActive), Some(status), a.now, a.next), carry);
      }
    }
  }

  /** Another id learnt in memory before the first write makes no difference. */
  lemma PlanFrom(row: Row, known: Row, todo: seq<Jobs.Write>, carry: bool)
    requires Plan(Poller, known, todo, carry) && row.state == known.state == RemoteActive
    requires row.id == known.id && row.key == known.key && row.deleteRequested == known.deleteRequested
    ensures Plan(Poller, row, todo, carry)
  {
  }

  lemma PlanAfter(row: Row, first: Jobs.Write, more: seq<Jobs.Write>, carry: bool)
    requires row.state in ClaimSet(Poller) && Link(row, first, carry) && first.row.state == RemoteActive
    requires Plan(Poller, first.row, more, carry)
    ensures Plan(Poller, row, [first] + more, carry)
  {
    assert ([first] + more)[1..] == more;
  }

  lemma PollPlans(row: Row, a: Poll.Answers, carry: bool)
    requires RowOk(row) && row.state in ClaimSet(Poller) && (carry ==> CarriesId(a.task) && CarriesId(a.active))
    ensures Plan(Poller, row, Poll.Trace(row, a), carry)
  {
    if row.state == RemoteQueued || row.remoteId.None? {
      QueuedPlans(row, a, carry);
    } else if a.task.Missing? {
      ApplyPlans(row, None, a.now, a.next, carry);
    } else if a.task.Found? {
      ApplyPlans(row, Some(a.task.status), a.now, a.next, carry);
    }
  }

  lemma QueuedPlans(row: Row, a: Poll.Answers, carry: bool)
    requires RowOk(row) && row.state in ClaimSet(Poller) && (carry ==> CarriesId(a.active))
    ensures Plan(Poller, row, Poll.QueuedTrace(row, a), carry)
  {
    if !a.queued.Found? {
      RecoverPlans(row, a, carry);
    } else {
      var q := a.queued.status;
      var known := row.(authId := if q.authId != "" then Some(q.authId) else row.authId,
                        remoteHash := if q.hash != "" then Some(q.hash) else row.remoteHash);
      if q.remoteId != "" {
        PromotedPlans(row, known.(remoteId := Some(q.remoteId)), a, carry);
      }
    }
  }

  lemma PromotedPlans(row: Row, known: Row, a: Poll.Answers, carry: bool)
    requires RowOk(row) && row.state in ClaimSet(Poller) && (carry ==> CarriesId(a.active))
    requires known == row.(authId := known.authId, remoteHash := known.remoteHash, remoteId := known.remoteId)
    ensures Plan(Poller, row, Poll.PromotedTrace(known, a), carry)
  {
    var active := known.(state := RemoteActive);
    match a.active {
      case Broken(_, _) => PlanAfter(row, SaveState(known, RemoteActive), [], carry);
      case Missing => PlanAfter(row, SaveState(known, RemoteActive), [Save(active.(nextRunAt := Some(a.next)))], carry);
      case Found(status) =>
        ApplyPlans(active, Some(status), a.now, a.next, carry);
        PlanAfter(row, SaveState(known, RemoteActive), Poll.ApplyTrace(active, Some(status), a.now, a.next), carry);
    }
  }

  lemma DownloadPlans(row: Row, ws: seq<Jobs.Write>, carry: bool)
    requires RowOk(row) && row.state in ClaimSet(Downloader) && Download.DownloadWrites(row, ws)
    ensures Plan(Downloader, row, ws, carry)
  {
  }

  lemma FinalizePlans(row: Row, ws: seq<Jobs.Write>, carry: bool)
    requires RowOk(row) && row.state in ClaimSet(Finalizer) && Finalize.FinalizeWrites(row, ws)
    ensures Plan(Finalizer, row, ws, carry)
  {
  }

  lemma RemovePlans(row: Row, end: Remove.End, carry: bool)
    requires RowOk(row) && row.state in ClaimSet(Remover)
    ensures Plan(Remover, row, Remove.RemoveTrace(row, end), carry)
  {
  }

  lemma HandlersPlan(w: Worker, row: Row, handling: Handling, carry: bool)
    requires RowOk(row) && row.state in ClaimSet(w) && Handles(w, row, handling, carry)
    ensures Plan(w, row, Writes(row, handling), carry)
  {
    match handling {
      case Submitting(a, pollAt, retryAt) => SubmitPlans(row, a, pollAt, retryAt, carry);
      case Polling(a) => PollPlans(row, a, carry);
      case Downloading(ws) => DownloadPlans(row, ws, carry);
      case Finalizing(ws) => FinalizePlans(row, ws, carry);
      case Removing(end) => RemovePlans(row, end, carry);
    }
  }

  lemma ApplyOwnRows(row: Row, status: Option<Poll.Status>, a: Poll.Answers)
    ensures OwnRows(row.id, Poll.ApplyTrace(row, status, a.now, a.next))
  {
  }

  lemma RecoverOwnRows(row: Row, a: Poll.Answers)
    ensures OwnRows(row.id, Poll.RecoverTrace(row, a)) && OwnRows(row.id, Poll.PromotedTrace(row, a))
  {
    hide Poll.ApplyTrace;
    if a.active.Found? {
      var s := a.active.status;
      var known := if s.remoteId != "" then row.(remoteId := Some(s.remoteId)) else row;
      ApplyOwnRows(known, Some(s), a);
      ApplyOwnRows(known.(state := RemoteActive), Some(s), a);
      ApplyOwnRows(row.(state := RemoteActive), Some(s), a);
    }
  }

  lemma PollOwnRows(row: Row, a: Poll.Answers)
    ensures OwnRows(row.id, Poll.Trace(row, a))
  {
    hide Poll.RecoverTrace, Poll.PromotedTrace, Poll.ApplyTrace;
    RecoverOwnRows(row, a);
    ApplyOwnRows(row, None, a);
    if a.task.Found? {
      ApplyOwnRows(row, Some(a.task.status), a);
    }
    if a.queued.Found? {
      var q := a.queued.status;
      RecoverOwnRows(row.(authId := if q.authId != "" then Some(q.authId) else row.authId,
                          remoteHash := if q.hash != "" then Some(q.hash) else row.remoteHash,
                          remoteId := Some(q.remoteId)), a);
    }
  }

  lemma SubmitOwnRows(row: Row, a: Submit.Answer, pollAt: T.Time, retryAt: T.Time)
    ensures OwnRows(row.id, Submit.Trace(row, a, pollAt, retryAt))
  {
    hide Text.TrimSpace, Submit.Placeholder;
  }

  /** The writes of a handler are all to the row of its job, whatever that holds. */
  lemma WritesOwnRows(w: Worker, row: Row, handling: Handling, carry: bool)
    requires Handles(w, row, handling, carry)
    ensures OwnRows(row.id, Writes(row, handling))
  {
    hide Poll.Trace, Submit.Trace;
    match handling {
      case Submitting(a, pollAt, retryAt) => SubmitOwnRows(row, a, pollAt, retryAt);
      case Polling(a) => PollOwnRows(row, a);
      case _ =>
    }
  }

  // What a step leaves alone.

  /** Two tables that differ, but for claims, at most in some rows. */
  ghost predicate Elsewhere(a: Table, b: Table, touched: set<Id>)
  {
    forall id | id !in touched :: (id in a <==> id in b) && (id in a ==> Same(a[id], b[id]))
  }

  lemma FetchedFrame(a: Table, b: Table, stale: set<Id>, more: set<Id>, w: Worker, rows: seq<Row>, touched: set<Id>)
    requires Fetched(a, stale, w, rows) && Elsewhere(a, b, touched) && stale <= more && touched * Ids(rows) <= more
    ensures Fetched(b, more, w, rows)
  {
    forall i | 0 <= i < |rows| ensures Fresh(b, more, w, rows[i]) {
      assert rows[i].id in Ids(rows);
      assert Fresh(a, stale, w, rows[i]);
    }
  }

  lemma WorkerFrame(s: Sys, t: Sys, w: Worker, p: Phase, touched: set<Id>)
    requires WorkerOk(s.table, s.stale, s.carry, w, p) && Elsewhere(s.table, t.table, touched)
    requires s.stale <= t.stale && touched * Hands(p) <= t.stale && t.carry == s.carry
    ensures WorkerOk(t.table, t.stale, t.carry, w, p)
  {
    hide Fetched, Plan, OwnRows;
    match p {
      case Idle =>
      case Claimed(ids) => ClaimedFrame(s, t, w, ids, touched);
      case Between(rest) => FetchedFrame(s.table, t.table, s.stale, t.stale, w, rest, touched);
      case Running(mem, todo, rest, skipped) =>
        FetchedFrame(s.table, t.table, s.stale, t.stale, w, rest, touched);
        if mem.id !in t.stale && todo != [] {
          assert mem.id in Hands(p);
        }
      case Releasing(_, rest) => FetchedFrame(s.table, t.table, s.stale, t.stale, w, rest, touched);
    }
  }

  lemma ClaimedFrame(s: Sys, t: Sys, w: Worker, ids: seq<Id>, touched: set<Id>)
    requires WorkerOk(s.table, s.stale, s.carry, w, Claimed(ids)) && Elsewhere(s.table, t.table, touched)
    requires s.stale <= t.stale && touched * Hands(Claimed(ids)) <= t.stale
    ensures WorkerOk(t.table, t.stale, t.carry, w, Claimed(ids))
  {
    forall i | 0 <= i < |ids| && ids[i] !in t.stale ensures ids[i] in t.table && t.table[ids[i]].state in ClaimSet(w) {
      assert ids[i] in Hands(Claimed(ids));
      assert ids[i] !in touched;
    }
  }

  /** A job in hand of a worker, unless it is stale, is stored in a state the worker claims. */
  lemma HandsClaimable(s: Sys, w: Worker, id: Id)
    requires WorkersOk(s) && InHandOf(s, w, id) && id !in s.stale
    ensures id in s.table && s.table[id].state in ClaimSet(w)
  {
    hide Plan;
    var p := s.phase[w];
    assert WorkerOk(s.table, s.stale, s.carry, w, p);
    match p {
      case Idle =>
      case Claimed(ids) =>
      case Between(rest) => RestClaimable(s.table, s.stale, w, rest, id);
      case Running(mem, todo, rest, _) =>
        if id in Ids(rest) {
          RestClaimable(s.table, s.stale, w, rest, id);
        }
      case Releasing(_, rest) => RestClaimable(s.table, s.stale, w, rest, id);
    }
  }

  lemma RestClaimable(table: Table, stale: set<Id>, w: Worker, rest: seq<Row>, id: Id)
    requires Fetched(table, stale, w, rest) && id in Ids(rest) && id !in stale
    ensures id in table && table[id].state in ClaimSet(w)
  {
    var i :| 0 <= i < |rest| && rest[i].id == id;
    assert Fresh(table, stale, w, rest[i]);
  }

  lemma ClaimSetsDisjoint(w: Worker, v: Worker, state: JobState)
    requires state in ClaimSet(w) && state in ClaimSet(v)
    ensures w == v && state != Accepted && state != Removed && !Closed(state)
  {
  }

  /** A change to jobs that are stale or in hand of no other worker leaves the other workers' jobs
      alone. */
  lemma OthersFrame(s: Sys, t: Sys, w: Worker, touched: set<Id>)
    requires WorkersOk(s) && Elsewhere(s.table, t.table, touched) && t.carry == s.carry && s.stale <= t.stale
    requires forall v: Worker | v != w ::
               v in t.phase && v in s.phase && t.phase[v] == s.phase[v] && touched * Hands(s.phase[v]) <= t.stale
    requires w in t.phase && WorkerOk(t.table, t.stale, t.carry, w, t.phase[w])
    ensures WorkersOk(t)
  {
    hide WorkerOk, Elsewhere;
    forall v: Worker | v != w ensures WorkerOk(t.table, t.stale, t.carry, v, t.phase[v]) {
      WorkerFrame(s, t, v, s.phase[v], touched);
    }
  }

  /** A change to jobs that are stale or that nobody has in hand leaves all workers' jobs alone. */
  lemma WorkersFrame(s: Sys, t: Sys, touched: set<Id>)
    requires WorkersOk(s) && Elsewhere(s.table, t.table, touched) && t.carry == s.carry && s.stale <= t.stale
    requires t.phase == s.phase && forall v: Worker :: v in s.phase ==> touched * Hands(s.phase[v]) <= t.stale
    ensures WorkersOk(t)
  {
    hide WorkerOk, Elsewhere;
    forall v: Worker ensures v in t.phase && WorkerOk(t.table, t.stale, t.carry, v, t.phase[v]) {
      assert v in s.phase;
      WorkerFrame(s, t, v, s.phase[v], touched);
    }
  }

  lemma RequestsFrame(s: Sys, t: Sys, touched: set<Id>)
    requires RequestsOk(s) && Elsewhere(s.table, t.table, touched) && s.used <= t.used && s.stale <= t.stale
    requires forall id | id in t.requests :: id in s.requests && t.requests[id] == s.requests[id]
    requires forall id | id in t.requests && id in touched :: id in t.stale && t.requests[id].Inserted?
    requires forall id | id in t.requests && id in t.stale && id !in s.stale :: t.requests[id].Inserted?
    ensures RequestsOk(t)
  {
    hide NewRow;
    forall id | id in t.requests ensures id in t.used && RequestOk(t.table, t.stale, id, t.requests[id]) {
      assert RequestOk(s.table, s.stale, id, s.requests[id]);
    }
  }

  /** Rows read by delete requests keep their keys. */
  lemma CopiesFrame(s: Sys, t: Sys)
    requires CopiesOk(s) && s.used <= t.used && s.stale <= t.stale
    requires forall n | n in t.deletes :: n in s.deletes && t.deletes[n] == s.deletes[n]
    requires forall id | id in t.requests && t.requests[id].Looked? ::
               id !in s.used || (id in s.requests && s.requests[id].Looked?)
    requires forall id | id in t.table && id !in t.stale && id in s.used ::
               (id in s.table && t.table[id].key == s.table[id].key) || (id in s.requests && s.requests[id].Looked?)
    ensures CopiesOk(t)
  {
    forall n | n in t.deletes ensures CopyOk(t, t.deletes[n]) {
      assert CopyOk(s, s.deletes[n]);
    }
  }

  lemma KeysElsewhere(s: Sys, t: Sys)
    requires Elsewhere(s.table, t.table, {})
    ensures forall id | id in t.table :: id in s.table && t.table[id].key == s.table[id].key
  {
  }

  /** Events only go, from the owed ones to the logs or for good. */
  lemma OwedFrame(s: Sys, t: Sys)
    requires OwedOk(s) && s.used <= t.used
    requires forall n | n in t.owed :: n in s.owed && t.owed[n] == s.owed[n]
    requires forall id | id in t.requests && t.requests[id].Looked? ::
               id !in s.used || (id in s.requests && s.requests[id].Looked?)
    ensures OwedOk(t)
  {
  }

  /** Claims play no part in the jobs' own invariant. */
  lemma ClaimsFrame(s: Sys, t: Sys)
    requires JobsOk(s) && t.table.Keys == s.table.Keys && Elsewhere(s.table, t.table, {})
    requires t.logs == s.logs && t.owed == s.owed && t.stale == s.stale && t.carry == s.carry && s.used <= t.used
    ensures JobsOk(t)
  {
    forall id | id in t.table
      ensures t.table[id].id == id && t.table[id].key == s.table[id].key && t.table[id].state == s.table[id].state
      ensures id !in t.stale ==> JobOk(t.table[id], Came(t, id), t.carry)
    {
      assert Same(s.table[id], t.table[id]);
      assert id !in s.stale ==> JobOk(s.table[id], Came(s, id), s.carry);
      CameNoMore(s, t, id);
    }
  }

  lemma CameNoMore(s: Sys, t: Sys, id: Id)
    requires LogOf(t.logs, id) == LogOf(s.logs, id) && forall n | n in t.owed :: n in s.owed && t.owed[n] == s.owed[n]
    ensures Came(t, id) ==> Came(s, id)
  {
    if Came(t, id) && !CameThrough(LogOf(t.logs, id)) {
      var n :| n in t.owed && t.owed[n].id == id && t.owed[n].event.to == LocalDownloadPending;
      assert n in s.owed;
    }
  }

  /** The jobs' own invariant looks at no phase and no request, and asks less of stale jobs. */
  lemma JobsFrame(s: Sys, t: Sys)
    requires JobsOk(s) && t.table == s.table && t.logs == s.logs && s.stale <= t.stale <= t.used
    requires forall n | n in t.owed :: n in s.owed && t.owed[n] == s.owed[n]
    requires t.carry == s.carry && s.used <= t.used
    ensures JobsOk(t)
  {
    hide UniqueOpen, Came, RowOk;
    forall id | id in t.table && id !in t.stale ensures JobOk(t.table[id], Came(t, id), t.carry) {
      CameNoMore(s, t, id);
    }
  }

  /** How a row that is written must fit the one that is stored. */
  predicate Fits(stored: Row, write: Jobs.Write, carry: bool)
  {
    && RowOk(write.row) && (write.event.Some? ==> write.event.value.to == write.row.state)
    && (Past(stored.state) ==>
          Past(write.row.state) && write.row.remoteId == stored.remoteId && write.row.queuedId == stored.queuedId)
    && (carry && write.row.state == LocalDownloadPending ==> Carried(write.row))
  }

  lemma StillOk(stored: Row, write: Jobs.Write, came: bool, carry: bool)
    requires JobOk(stored, came, carry) && Fits(stored, write, carry)
    ensures var still := came || (write.event.Some? && write.event.value.to == LocalDownloadPending);
            JobOk(Unclaimed(write.row), still, carry)
  {
    ClaimIsNoMatter(write.row, map[]);
  }

  lemma ClaimIsNoMatter(row: Row, table: Table)
    ensures RowOk(row) <==> RowOk(Unclaimed(row))
    ensures IndexAllows(table, row) <==> IndexAllows(table, Unclaimed(row))
  {
  }

  /** What an event that is new among the owed ones says. */
  lemma CameByWrite(s: Sys, t: Sys, n: nat, o: Owed, id: Id)
    requires n !in s.owed && t.logs == s.logs && (t.owed == s.owed || t.owed == s.owed[n := o])
    ensures t.owed == s.owed ==> (Came(t, id) <==> Came(s, id))
    ensures t.owed == s.owed[n := o] ==>
              (Came(t, id) <==> Came(s, id) || (o.id == id && o.event.to == LocalDownloadPending))
  {
    if t.owed == s.owed[n := o] {
      assert t.owed[n] == o;
      forall m | m in s.owed ensures t.owed[m] == s.owed[m] {
      }
    }
  }

  /** A row write that the index allows, and that fits the stored row if the job is not stale. */
  lemma WriteKeepsJobs(s: Sys, write: Jobs.Write, n: nat, writer: Option<Worker>)
    requires JobsOk(s) && Accepts(s.table, write.row) && n !in s.owed
    requires write.row.id in s.table && write.row.id !in s.stale ==> Fits(s.table[write.row.id], write, s.carry)
    ensures JobsOk(Written(s, write, n, writer))
    ensures Elsewhere(s.table, Written(s, write, n, writer).table, {write.row.id})
  {
    hide RowOk, JobOk, IndexAllows, UniqueOpen, Fits, Came;
    var id, t := write.row.id, Written(s, write, n, writer);
    if id in s.table {
      ClaimIsNoMatter(write.row, s.table);
      IndexIsUniqueness(s.table, Unclaimed(write.row));
      if id !in s.stale {
        StillOk(s.table[id], write, Came(s, id), s.carry);
      }
      var o := if write.event.Some? then Owed(id, write.event.value, writer) else Owed(id, Event(None, Accepted), writer);
      forall other | other in t.table && other !in t.stale ensures JobOk(t.table[other], Came(t, other), t.carry) {
        CameByWrite(s, t, n, o, other);
        assert other != id ==> t.table[other] == s.table[other];
      }
    }
  }

  /** A new event is of a job that has been inserted. */
  lemma WriteKeepsOwed(s: Sys, write: Jobs.Write, n: nat, writer: Option<Worker>)
    requires OwedOk(s) && RequestsOk(s) && JobsOk(s) && n !in s.owed
    ensures OwedOk(Written(s, write, n, writer))
  {
    hide Came, JobOk, UniqueOpen;
    var id := write.row.id;
    if id in s.table && id in s.requests {
      assert RequestOk(s.table, s.stale, id, s.requests[id]);
    }
  }

  // Every step keeps the invariant.

  /** A worker moves on in memory only. */
  lemma MoveKeeps(s: Sys, w: Worker, p: Phase)
    requires Inv(s) && s.up && WorkerOk(s.table, s.stale, s.carry, w, p)
    ensures Inv(Moved(s, w, p))
  {
    hide JobsOk, WorkerOk, RequestsOk, OwedOk;
    NowhereElse(s.table, {});
    OthersFrame(s, Moved(s, w, p), w, {});
    RequestsFrame(s, Moved(s, w, p), {});
    ApiUnmoved(s, Moved(s, w, p));
  }

  lemma NowhereElse(table: Table, touched: set<Id>)
    ensures Elsewhere(table, table, touched)
  {
  }

  /** What a step of a worker in memory has nothing to do with. */
  lemma ApiUnmoved(s: Sys, t: Sys)
    requires JobsOk(s) && CopiesOk(s) && OwedOk(s) && t == s.(phase := t.phase)
    ensures JobsOk(t) && CopiesOk(t) && OwedOk(t)
  {
    hide JobOk, UniqueOpen;
    JobsFrame(s, t);
    CopiesFrame(s, t);
    OwedFrame(s, t);
  }

  /** Only claims change, and phases. */
  lemma ClaimingKeeps(s: Sys, t: Sys, w: Worker)
    requires Inv(s) && s.up && w in t.phase && t == s.(table := t.table, phase := s.phase[w := t.phase[w]])
    requires t.table.Keys == s.table.Keys && Elsewhere(s.table, t.table, {})
    requires WorkerOk(t.table, t.stale, t.carry, w, t.phase[w])
    ensures Inv(t)
  {
    hide JobsOk, WorkerOk, RequestsOk, CopiesOk, OwedOk, Elsewhere;
    OthersFrame(s, t, w, {});
    RequestsFrame(s, t, {});
    ClaimsFrame(s, t);
    KeysElsewhere(s, t);
    CopiesFrame(s, t);
    OwedFrame(s, t);
  }

  lemma ClaimKeeps(s: Sys, w: Worker, ids: seq<Id>)
    requires Inv(s) && Enabled(s, Claim(w, ids))
    ensures Inv(After(s, Claim(w, ids)))
  {
    hide Inv;
    ClaimingKeeps(s, After(s, Claim(w, ids)), w);
  }

  lemma FetchKeeps(s: Sys, w: Worker, batch: seq<Row>)
    requires Inv(s) && Enabled(s, Fetch(w, batch))
    ensures Inv(After(s, Fetch(w, batch)))
  {
    hide JobsOk, RequestsOk, CopiesOk, OwedOk;
    assert WorkerOk(s.table, s.stale, s.carry, w, s.phase[w]);
    forall i | 0 <= i < |batch| ensures Fresh(s.table, s.stale, w, batch[i]) {
      if batch[i].id !in s.stale {
        assert InHandOf(s, w, batch[i].id);
        HandsClaimable(s, w, batch[i].id);
      }
    }
    hide Inv;
    MoveKeeps(s, w, Between(batch));
  }

  lemma BeginKeeps(s: Sys, w: Worker, handling: Handling)
    requires Inv(s) && Enabled(s, Begin(w, handling))
    ensures Inv(After(s, Begin(w, handling)))
  {
    hide JobsOk, RequestsOk, CopiesOk, OwedOk, Handles, Writes, OwnRows, Plan;
    var rest := s.phase[w].rest;
    assert WorkerOk(s.table, s.stale, s.carry, w, s.phase[w]);
    assert Fresh(s.table, s.stale, w, rest[0]);
    WritesOwnRows(w, rest[0], handling, s.carry);
    if rest[0].id !in s.stale {
      RowFetched(s, rest[0]);
      HandlersPlan(w, rest[0], handling, s.carry);
    }
    forall i | 0 <= i < |rest[1..]| ensures Fresh(s.table, s.stale, w, rest[1..][i]) {
      assert rest[1..][i] == rest[i + 1];
    }
    MoveKeeps(s, w, Running(rest[0], Writes(rest[0], handling), rest[1..], false));
  }

  lemma RowFetched(s: Sys, row: Row)
    requires JobsOk(s) && row.id in s.table && row.id !in s.stale && Same(s.table[row.id], row)
    ensures RowOk(row)
  {
    hide UniqueOpen;
    assert JobOk(s.table[row.id], Came(s, row.id), s.carry);
  }

  /** What is linked to a job in memory fits the row in the table that the job stands for. */
  lemma LinkedFits(table: Table, skipped: bool, mem: Row, write: Jobs.Write, carry: bool)
    requires Current(table, skipped, mem) && Link(mem, write, carry)
    ensures write.row.id == mem.id && mem.id in table && write.row.key == table[mem.id].key
    ensures write.row.deleteRequested == table[mem.id].deleteRequested && Fits(table[mem.id], write, carry)
  {
    hide RowOk;
  }

  /** What a worker at a job is about to write. */
  lemma AtTheRow(s: Sys, w: Worker)
    requires WorkersOk(s) && w in s.phase && s.phase[w].Running? && s.phase[w].todo != []
    ensures var p := s.phase[w];
            && p.todo[0].row.id == p.mem.id && p.mem.id in Hands(p)
            && (p.mem.id !in s.stale ==>
                  && AtWork(s.table, s.carry, w, p.mem, p.todo, p.skipped)
                  && p.mem.id in s.table && s.table[p.mem.id].state in ClaimSet(w)
                  && p.mem.state in ClaimSet(w) && Link(p.mem, p.todo[0], s.carry))
  {
    hide Link, Fetched;
    assert WorkerOk(s.table, s.stale, s.carry, w, s.phase[w]);
  }

  /** The row a worker is about to write fits what is stored, and the index lets it pass. */
  lemma WriteFits(s: Sys, w: Worker)
    requires JobsOk(s) && WorkersOk(s) && w in s.phase && s.phase[w].Running? && s.phase[w].todo != []
    requires s.phase[w].mem.id !in s.stale
    ensures var mem, write := s.phase[w].mem, s.phase[w].todo[0];
            && write.row.id == mem.id && mem.id in s.table && IndexAllows(s.table, write.row)
            && write.row.key == s.table[mem.id].key && Fits(s.table[mem.id], write, s.carry)
            && s.table[mem.id].state in ClaimSet(w) && mem.state in ClaimSet(w) && Link(mem, write, s.carry)
            && write.row.deleteRequested == s.table[mem.id].deleteRequested
  {
    hide IndexAllows, UniqueOpen, Link, Fits, Plan, Current, WorkersOk, JobOk;
    var mem, write := s.phase[w].mem, s.phase[w].todo[0];
    AtTheRow(s, w);
    LinkedFits(s.table, s.phase[w].skipped, mem, write, s.carry);
    ClaimSetsDisjoint(w, w, s.table[mem.id].state);
    OwnKeyAllowed(s.table, write.row);
  }

  lemma OthersDoNotHold(s: Sys, w: Worker, id: Id)
    requires WorkersOk(s) && RequestsOk(s) && id !in s.stale && id in s.table && s.table[id].state in ClaimSet(w)
    ensures id !in s.requests && forall v: Worker | v != w :: v in s.phase && id !in Hands(s.phase[v])
  {
    hide WorkerOk;
    forall v: Worker | v != w ensures v in s.phase && id !in Hands(s.phase[v]) {
      assert v in s.phase;
      if id in Hands(s.phase[v]) {
        assert InHandOf(s, v, id);
        HandsClaimable(s, v, id);
        ClaimSetsDisjoint(w, v, s.table[id].state);
        assert false;
      }
    }
    if id in s.requests {
      assert RequestOk(s.table, s.stale, id, s.requests[id]);
      ClaimSetsDisjoint(w, w, s.table[id].state);
      assert false;
    }
  }

  /** The worker that writes is in order afterwards. */
  lemma WriterOk(s: Sys, w: Worker, n: nat)
    requires Inv(s) && Enabled(s, Step.Write(w, n))
    ensures var p, t := s.phase[w], Written(s, s.phase[w].todo[0], n, Some(w));
            WorkerOk(t.table, s.stale, s.carry, w, Running(p.todo[0].row, p.todo[1..], p.rest, false))
  {
    hide JobsOk, RequestsOk, CopiesOk, OwedOk, Accepts, Fetched, Link, AtWork, Written;
    var p, t := s.phase[w], Written(s, s.phase[w].todo[0], n, Some(w));
    var row := p.todo[0].row;
    assert WorkerOk(s.table, s.stale, s.carry, w, p);
    AtTheRow(s, w);
    WriteResult(s, w, n);
    assert Elsewhere(s.table, t.table, {p.mem.id});
    FetchedFrame(s.table, t.table, s.stale, s.stale, w, p.rest, {p.mem.id});
    assert OwnRows(row.id, p.todo[1..]);
    if p.mem.id !in s.stale {
      GoesOnAtWork(s.table, s.carry, w, p);
    }
  }

  lemma GoesOnAtWork(table: Table, carry: bool, w: Worker, p: Phase)
    requires p.Running? && p.todo != [] && AtWork(table, carry, w, p.mem, p.todo, p.skipped)
    ensures AtWork(PutRow(table, p.todo[0].row), carry, w, p.todo[0].row, p.todo[1..], false)
  {
    hide RowOk;
  }

  /** A write by a worker, as far as the table goes. */
  lemma WriteKeepsTable(s: Sys, w: Worker, n: nat)
    requires Inv(s) && Enabled(s, Step.Write(w, n))
    ensures var t := Written(s, s.phase[w].todo[0], n, Some(w));
            && JobsOk(t) && Elsewhere(s.table, t.table, {s.phase[w].mem.id}) && t.stale == s.stale
            && KeysKept(s, t) && OwedOk(t)
  {
    hide JobsOk, WorkersOk, RequestsOk, CopiesOk, OwedOk, IndexAllows, Fits, Link, Elsewhere, Plan, Current;
    var write := s.phase[w].todo[0];
    AtTheRow(s, w);
    if s.phase[w].mem.id !in s.stale {
      WriteFits(s, w);
    }
    WriteKeepsJobs(s, write, n, Some(w));
    WriteKeepsOwed(s, write, n, Some(w));
    PutKeepsKeys(s, write, n, Some(w));
  }

  /** Jobs that are not stale have the keys they had. */
  ghost predicate KeysKept(s: Sys, t: Sys)
  {
    forall id | id in t.table && id !in t.stale :: id in s.table && t.table[id].key == s.table[id].key
  }

  lemma PutKeepsKeys(s: Sys, write: Jobs.Write, n: nat, writer: Option<Worker>)
    requires write.row.id in s.table && write.row.id !in s.stale ==> write.row.key == s.table[write.row.id].key
    ensures KeysKept(s, Written(s, write, n, writer))
  {
  }

  lemma WriteKeeps(s: Sys, w: Worker, n: nat)
    requires Inv(s) && Enabled(s, Step.Write(w, n))
    ensures Inv(After(s, Step.Write(w, n)))
  {
    hide JobsOk, WorkersOk, RequestsOk, CopiesOk, OwedOk, WorkerOk, Elsewhere, Link, AtWork, After, Accepts, Written;
    var p := s.phase[w];
    var t := Written(s, p.todo[0], n, Some(w));
    var u := Moved(t, w, Running(p.todo[0].row, p.todo[1..], p.rest, false));
    AtTheRow(s, w);
    WriteResult(s, w, n);
    WriterOk(s, w, n);
    WriteKeepsTable(s, w, n);
    if p.mem.id !in s.stale {
      OthersDoNotHold(s, w, p.mem.id);
    }
    AllHavePhases(s);
    WriterFrame(s, u, w, p.mem.id);
    UsedCovers(s);
    JobsFrame(t, u);
    CopiesFrame(s, u);
    OwedFrame(t, u);
  }

  lemma WriteResult(s: Sys, w: Worker, n: nat)
    requires w in s.phase && s.phase[w].Running? && s.phase[w].todo != []
    ensures var p := s.phase[w];
            var t := Written(s, p.todo[0], n, Some(w));
            && After(s, Step.Write(w, n)) == Moved(t, w, Running(p.todo[0].row, p.todo[1..], p.rest, false))
            && t == s.(table := PutRow(s.table, p.todo[0].row), owed := t.owed)
  {
  }

  lemma AllHavePhases(s: Sys)
    requires WorkersOk(s)
    ensures forall v: Worker :: v in s.phase
  {
  }

  lemma WriterFrame(s: Sys, u: Sys, w: Worker, id: Id)
    requires WorkersOk(s) && RequestsOk(s) && Elsewhere(s.table, u.table, {id}) && u.carry == s.carry
    requires u.stale == s.stale && u.used == s.used && u.requests == s.requests
    requires forall v: Worker | v != w :: v in u.phase && v in s.phase && u.phase[v] == s.phase[v]
    requires w in u.phase && WorkerOk(u.table, u.stale, u.carry, w, u.phase[w])
    requires id !in s.stale ==> id !in s.requests && forall v: Worker | v != w :: v in s.phase && id !in Hands(s.phase[v])
    ensures WorkersOk(u) && RequestsOk(u)
  {
    hide WorkerOk, Elsewhere;
    OthersFrame(s, u, w, {id});
    if id in s.requests {
      assert RequestOk(s.table, s.stale, id, s.requests[id]);
    }
    RequestsFrame(s, u, {id});
  }

  lemma SkipKeeps(s: Sys, w: Worker)
    requires Inv(s) && Enabled(s, Skip(w))
    ensures Inv(After(s, Skip(w)))
  {
    hide JobsOk, RequestsOk, CopiesOk, OwedOk;
    var p := s.phase[w];
    assert WorkerOk(s.table, s.stale, s.carry, w, p);
    SkipperGoesOn(s, p);
    MoveKeeps(s, w, Running(p.todo[0].row, p.todo[1..], p.rest, true));
  }

  lemma SkipperGoesOn(s: Sys, p: Phase)
    requires WorkerOk(s.table, s.stale, s.carry, Downloader, p) && p.Running? && p.todo != []
    requires GoesOn(Downloader, p.todo[1..])
    ensures WorkerOk(s.table, s.stale, s.carry, Downloader, Running(p.todo[0].row, p.todo[1..], p.rest, true))
  {
    hide RowOk, Fetched;
  }

  lemma ReleaseKeeps(s: Sys, w: Worker, ok: bool)
    requires Inv(s) && Enabled(s, Release(w, ok))
    ensures Inv(After(s, Release(w, ok)))
  {
    hide JobsOk, RequestsOk, CopiesOk, OwedOk;
    var p, t := s.phase[w], After(s, Release(w, ok));
    assert WorkerOk(s.table, s.stale, s.carry, w, p);
    FetchedFrame(s.table, t.table, s.stale, s.stale, w, p.rest, {});
    hide Inv, WorkerOk;
    ClaimingKeeps(s, t, w);
  }

  lemma LookUpKeeps(s: Sys, row: Row)
    requires Inv(s) && Enabled(s, LookUp(row))
    ensures Inv(After(s, LookUp(row)))
  {
    hide JobOk, UniqueOpen, WorkerOk, CopiesOk, OwedOk;
    var t := After(s, LookUp(row));
    assert row.id !in s.table;
    forall id | id in t.requests ensures id in t.used && RequestOk(t.table, t.stale, id, t.requests[id]) {
      if id != row.id {
        assert RequestOk(s.table, s.stale, id, s.requests[id]);
      }
    }
    CopiesFrame(s, t);
    OwedFrame(s, t);
    JobsFrame(s, t);
    assert WorkersOk(t);
  }

  lemma NewcomerFits(row: Row, carry: bool)
    requires NewRow(row)
    ensures JobOk(row, false, carry)
  {
  }

  lemma InsertedJobs(s: Sys, t: Sys, row: Row, n: nat)
    requires JobsOk(s) && OwedOk(s) && row.id in s.used && row.id !in s.table && NewRow(row) && IndexAllows(s.table, row)
    requires n !in s.owed && row.id in s.requests && s.requests[row.id].Looked?
    requires t == s.(table := s.table[row.id := row], owed := s.owed[n := Owed(row.id, Event(None, row.state), None)])
    ensures JobsOk(t) && Elsewhere(s.table, t.table, {row.id})
  {
    hide JobOk, IndexAllows, UniqueOpen, Came;
    NewcomerFits(row, s.carry);
    IndexIsUniqueness(s.table, row);
    NotCome(s, row.id);
    forall other | other in t.table && other !in t.stale ensures JobOk(t.table[other], Came(t, other), t.carry) {
      CameByWrite(s, t, n, Owed(row.id, Event(None, row.state), None), other);
      assert other != row.id ==> t.table[other] == s.table[other];
    }
  }

  /** Of a job that is not inserted yet nothing is logged or going to be. */
  lemma NotCome(s: Sys, id: Id)
    requires s.logs.Keys <= s.table.Keys && OwedOk(s) && id !in s.table && id in s.requests && s.requests[id].Looked?
    ensures !Came(s, id) && LogOf(s.logs, id) == [] && forall n | n in s.owed :: s.owed[n].id != id
  {
  }

  lemma InsertKeeps(s: Sys, id: Id, n: nat)
    requires Inv(s) && Enabled(s, Insert(id, n))
    ensures Inv(After(s, Insert(id, n)))
  {
    hide JobsOk, WorkerOk, WorkersOk, IndexAllows, Elsewhere, CopiesOk, OwedOk;
    var t, row := After(s, Insert(id, n)), s.requests[id].row;
    assert RequestOk(s.table, s.stale, id, s.requests[id]);
    var u := s.(table := s.table[id := row], owed := s.owed[n := Owed(id, Event(None, row.state), None)]);
    InsertedJobs(s, u, row, n);
    assert Unclaimed(row) == row;
    UsedCovers(s);
    JobsFrame(u, t);
    NobodyHasIt(s, id);
    WorkersFrame(s, t, {id});
    forall other | other in t.requests ensures other in t.used && RequestOk(t.table, t.stale, other, t.requests[other]) {
      assert other != id ==> RequestOk(s.table, s.stale, other, s.requests[other]);
    }
    CopiesFrame(s, t);
    InsertKeepsOwed(s, t, id, n);
  }

  lemma InsertKeepsOwed(s: Sys, t: Sys, id: Id, n: nat)
    requires OwedOk(s) && id in s.used && id in s.requests && t.used == s.used
    requires t.requests == s.requests[id := Inserted(s.requests[id].row)]
    requires t.owed == s.owed[n := Owed(id, Event(None, s.requests[id].row.state), None)]
    ensures OwedOk(t)
  {
  }

  lemma LogsOfJobs(s: Sys)
    requires JobsOk(s)
    ensures s.logs.Keys <= s.table.Keys
  {
  }

  lemma UsedCovers(s: Sys)
    requires JobsOk(s)
    ensures s.table.Keys <= s.used && s.stale <= s.used
  {
  }

  /** Nobody has a job in hand that is not stored and not stale. */
  lemma NobodyHasIt(s: Sys, id: Id)
    requires WorkersOk(s) && id !in s.table && id !in s.stale
    ensures forall v: Worker :: v in s.phase && id !in Hands(s.phase[v])
  {
    hide WorkerOk;
    forall v: Worker ensures v in s.phase && id !in Hands(s.phase[v]) {
      assert v in s.phase;
      if id in Hands(s.phase[v]) {
        assert InHandOf(s, v, id);
        HandsClaimable(s, v, id);
        assert false;
      }
    }
  }

  /** A write by the API, to a job that is stale by then or that nobody else has in hand. */
  lemma ApiWriteKeeps(s: Sys, t: Sys, write: Jobs.Write, n: nat)
    requires Inv(s) && s.up && JobsOk(Written(s, write, n, None)) && n !in s.owed && s.stale <= t.stale <= s.used
    requires Elsewhere(s.table, Written(s, write, n, None).table, {write.row.id})
    requires t == Written(s, write, n, None).(requests := t.requests, deletes := t.deletes, stale := t.stale)
    requires forall id | id in t.requests :: id in s.requests && t.requests[id] == s.requests[id]
    requires t.stale - s.stale <= {write.row.id}
    requires write.row.id in s.table || t == s.(requests := t.requests, deletes := t.deletes)
    requires write.row.id !in t.stale && write.row.id in s.table ==>
               && write.row.id !in t.requests && write.row.key == s.table[write.row.id].key
               && forall v: Worker | v in s.phase :: write.row.id !in Hands(s.phase[v])
    requires forall d | d in t.deletes :: d in s.deletes && t.deletes[d] == s.deletes[d]
    ensures Inv(t)
  {
    hide JobsOk, WorkersOk, Elsewhere, CopiesOk, OwedOk;
    var id := write.row.id;
    if id in s.table {
      JobsFrame(Written(s, write, n, None), t);
      if id in t.requests {
        assert RequestOk(s.table, s.stale, id, s.requests[id]);
      }
      RequestsFrame(s, t, {id});
      WorkersFrame(s, t, {id});
    } else {
      NowhereElse(s.table, {});
      UsedCovers(s);
      JobsFrame(s, t);
      RequestsFrame(s, t, {});
      WorkersFrame(s, t, {});
    }
    CopiesFrame(s, t);
    WriteKeepsOwed(s, write, n, None);
    OwedFrame(Written(s, write, n, None), t);
  }

  lemma QueueKeeps(s: Sys, id: Id, now: T.Time, n: nat)
    requires Inv(s) && Enabled(s, Queue(id, now, n))
    ensures Inv(After(s, Queue(id, now, n)))
  {
    hide WorkersOk, IndexAllows, JobsOk, CopiesOk, OwedOk, Elsewhere;
    var write := Queued(s.requests[id].row, now);
    assert RequestOk(s.table, s.stale, id, s.requests[id]);
    UsedCovers(s);
    QueueFits(s, id, now);
    WriteKeepsJobs(s, write, n, None);
    if id !in s.stale {
      NobodyClaims(s, id);
    }
    ApiWriteKeeps(s, After(s, Queue(id, now, n)), write, n);
  }

  lemma NobodyClaims(s: Sys, id: Id)
    requires WorkersOk(s) && id !in s.stale && id in s.table && s.table[id].state == Accepted
    ensures forall v: Worker :: v in s.phase && id !in Hands(s.phase[v])
  {
    hide WorkerOk;
    forall v: Worker ensures v in s.phase && id !in Hands(s.phase[v]) {
      assert v in s.phase;
      if id in Hands(s.phase[v]) {
        assert InHandOf(s, v, id);
        HandsClaimable(s, v, id);
        ClaimSetsDisjoint(v, v, s.table[id].state);
        assert false;
      }
    }
  }

  /** The queueing of an accepted request fits the row as it was inserted, and the index lets it
      pass. */
  lemma QueueFits(s: Sys, id: Id, now: T.Time)
    requires JobsOk(s) && RequestsOk(s) && id in s.requests && s.requests[id].Inserted?
    ensures var write := Queued(s.requests[id].row, now);
            && write.row.id == id && !write.row.deleteRequested
            && (id !in s.stale ==>
                  && id in s.table && s.table[id].state == Accepted && !s.table[id].deleteRequested
                  && write.row.key == s.table[id].key && Fits(s.table[id], write, s.carry)
                  && IndexAllows(s.table, write.row))
  {
    hide UniqueOpen, IndexAllows, Came, JobOk;
    assert RequestOk(s.table, s.stale, id, s.requests[id]);
    if id !in s.stale {
      OwnKeyAllowed(s.table, Queued(s.requests[id].row, now).row);
    }
  }

  lemma ReadDeleteKeeps(s: Sys, d: nat, id: Id)
    requires Inv(s) && Enabled(s, ReadDelete(d, id))
    ensures Inv(After(s, ReadDelete(d, id)))
  {
    hide JobsOk, UniqueOpen, WorkerOk, OwedOk;
    var t := After(s, ReadDelete(d, id));
    if id in s.requests {
      assert RequestOk(s.table, s.stale, id, s.requests[id]);
    }
    UsedCovers(s);
    RowIsOwn(s, id);
    forall m | m in t.deletes ensures CopyOk(t, t.deletes[m]) {
      assert m != d ==> CopyOk(s, s.deletes[m]);
    }
    JobsFrame(s, t);
    OwedFrame(s, t);
    assert RequestsOk(t) && WorkersOk(t);
  }

  lemma RowIsOwn(s: Sys, id: Id)
    requires JobsOk(s) && id in s.table
    ensures s.table[id].id == id
  {
  }

  /** The row as it was read fits the row as it is stored, if they are the same. */
  lemma RemovalFits(stored: Row, copy: Row, now: T.Time, carry: bool)
    requires AsRead(stored, copy) && RowOk(stored)
    ensures Fits(stored, Removal(copy, now), carry) && Removal(copy, now).row.key == stored.key
    ensures copy.state == stored.state
  {
  }

  lemma DeleteKeeps(s: Sys, d: nat, now: T.Time, n: nat)
    requires Inv(s) && Enabled(s, Delete(d, now, n))
    ensures Inv(After(s, Delete(d, now, n)))
  {
    hide JobsOk, WorkersOk, RequestsOk, CopiesOk, OwedOk, IndexAllows, AsRead, RowOk, Elsewhere;
    var copy, t := s.deletes[d], After(s, Delete(d, now, n));
    UsedCovers(s);
    if Timely(s, d) {
      if copy.id !in s.stale {
        StoredOk(s, copy.id);
        RemovalFits(s.table[copy.id], copy, now, s.carry);
      }
      WriteKeepsJobs(s, Removal(copy, now), n, None);
      forall v: Worker | v in s.phase ensures copy.id !in Hands(s.phase[v]) {
        assert !InHandOf(s, v, copy.id);
      }
      ApiWriteKeeps(s, t, Removal(copy, now), n);
    } else {
      UntimelyKeeps(s, d, now, n);
    }
  }

  lemma StoredOk(s: Sys, id: Id)
    requires JobsOk(s) && id in s.table && id !in s.stale
    ensures s.table[id].id == id && RowOk(s.table[id]) && JobOk(s.table[id], Came(s, id), s.carry)
  {
  }

  /** Whatever a delete request writes back, open keys stay unique and other jobs are unaffected. */
  lemma UntimelyKeeps(s: Sys, d: nat, now: T.Time, n: nat)
    requires Inv(s) && Enabled(s, Delete(d, now, n)) && !Timely(s, d)
    ensures Inv(After(s, Delete(d, now, n)))
  {
    hide JobsOk, WorkersOk, RequestsOk, CopiesOk, OwedOk, IndexAllows, Timely, Elsewhere, RowOk;
    var copy, t := s.deletes[d], After(s, Delete(d, now, n));
    var u := s.(stale := s.stale + {copy.id});
    UsedCovers(s);
    JobsFrame(s, u);
    WriteKeepsJobs(u, Removal(copy, now), n, None);
    StaleKeeps(s, copy.id);
    ApiWriteKeeps(u, t, Removal(copy, now), n);
  }

  /** Of a job that is stored, less may be asked. */
  lemma StaleKeeps(s: Sys, id: Id)
    requires Inv(s) && id in s.table
    ensures Inv(s.(stale := s.stale + {id}))
  {
    hide JobsOk, WorkersOk, CopiesOk, OwedOk;
    var u := s.(stale := s.stale + {id});
    NowhereElse(s.table, {});
    UsedCovers(s);
    JobsFrame(s, u);
    WorkersFrame(s, u, {});
    if id in s.requests {
      assert RequestOk(s.table, s.stale, id, s.requests[id]);
    }
    RequestsFrame(s, u, {});
    CopiesFrame(s, u);
    OwedFrame(s, u);
  }

  /** A request is given up. */
  lemma DropKeeps(s: Sys, t: Sys)
    requires Inv(s) && s.up && t == s.(requests := t.requests, deletes := t.deletes)
    requires forall id | id in t.requests :: id in s.requests && t.requests[id] == s.requests[id]
    requires forall d | d in t.deletes :: d in s.deletes && t.deletes[d] == s.deletes[d]
    ensures Inv(t)
  {
    hide JobsOk, WorkersOk, CopiesOk, RequestsOk, OwedOk;
    NowhereElse(s.table, {});
    UsedCovers(s);
    JobsFrame(s, t);
    WorkersFrame(s, t, {});
    RequestsFrame(s, t, {});
    CopiesFrame(s, t);
    OwedFrame(s, t);
  }

  lemma PruneKeeps(s: Sys, gone: set<Id>)
    requires Inv(s) && Enabled(s, Prune(gone))
    ensures Inv(After(s, Prune(gone)))
  {
    hide JobsOk, WorkersOk, RequestsOk, CopiesOk, OwedOk;
    var t := After(s, Prune(gone));
    PrunedJobs(s, t, gone);
    forall v: Worker | v in s.phase ensures gone * Hands(s.phase[v]) <= t.stale {
      PrunedNotInHand(s, v, gone);
    }
    WorkersFrame(s, t, gone);
    PrunedNotRequested(s, gone);
    RequestsFrame(s, t, gone);
    CopiesFrame(s, t);
    OwedFrame(s, t);
  }

  lemma PrunedJobs(s: Sys, t: Sys, gone: set<Id>)
    requires JobsOk(s) && t == s.(table := s.table - gone, logs := s.logs - gone)
    ensures JobsOk(t)
  {
    hide JobOk, Came;
    forall id | id in t.table ensures t.table[id] == s.table[id] && (Came(t, id) <==> Came(s, id)) {
      CameNoMore(s, t, id);
      CameNoMore(t, s, id);
    }
  }

  lemma PrunedNotInHand(s: Sys, v: Worker, gone: set<Id>)
    requires WorkersOk(s) && v in s.phase && forall id | id in gone :: id in s.table && s.table[id].state == Removed
    ensures gone * Hands(s.phase[v]) <= s.stale
  {
    hide WorkersOk;
    forall id | id in gone && id in Hands(s.phase[v]) ensures id in s.stale {
      if id !in s.stale {
        assert InHandOf(s, v, id);
        HandsClaimable(s, v, id);
        ClaimSetsDisjoint(v, v, s.table[id].state);
      }
    }
  }

  lemma PrunedNotRequested(s: Sys, gone: set<Id>)
    requires RequestsOk(s) && forall id | id in gone :: id in s.table && s.table[id].state == Removed
    ensures forall id | id in s.requests && id in gone :: id in s.stale && s.requests[id].Inserted?
  {
    forall id | id in s.requests && id in gone ensures id in s.stale && s.requests[id].Inserted? {
      assert RequestOk(s.table, s.stale, id, s.requests[id]);
    }
  }

  lemma DownKeeps(s: Sys, t: Sys)
    requires JobsOk(t) && OwedOk(t) && t.phase == STOPPED && t.requests == map[] && t.deletes == map[]
    ensures Inv(t)
  {
    hide JobsOk;
    forall v: Worker ensures v in t.phase && t.phase[v] == Idle {
      match v {
        case Submitter =>
        case Poller =>
        case Downloader =>
        case Finalizer =>
        case Remover =>
      }
    }
  }

  /** The start-up never promotes a job by its completed path: no job that could be has one. */
  lemma NothingToPromote(row: Row, roots: Remove.Roots, parts: seq<Part>, files: Files, now: T.Time)
    requires RowOk(row) && !Closed(row.state)
    ensures var write := Startup.ReconcileWrite(row, roots, parts, files, now);
            write.Some? ==> && (write.value.row.state == row.state
                                || (write.value.row.state == LocalVerify && Startup.Local(row.state)))
                            && write.value.row.id == row.id && write.value.row.deleteRequested == row.deleteRequested
                            && RowOk(write.value.row)
  {
  }

  lemma ReconcileKeeps(s: Sys, step: Step)
    requires Inv(s) && Enabled(s, step) && step.Reconcile?
    ensures Inv(After(s, step))
  {
    hide JobsOk, OwedOk, Startup.ReconcileWrite;
    var write := Startup.ReconcileWrite(s.table[step.id], step.roots, step.parts, step.files, step.now);
    if !Closed(s.table[step.id].state) && write.Some? {
      ReconciledJobs(s, step, write.value);
      WriteKeepsOwed(s, write.value, step.n, None);
      DownKeeps(s, Written(s, write.value, step.n, None));
    }
  }

  lemma ReconciledJobs(s: Sys, step: Step, write: Jobs.Write)
    requires JobsOk(s) && step.Reconcile? && step.id in s.table && !Closed(s.table[step.id].state) && step.n !in s.owed
    requires Startup.ReconcileWrite(s.table[step.id], step.roots, step.parts, step.files, step.now) == Some(write)
    ensures JobsOk(Written(s, write, step.n, None))
  {
    hide IndexAllows, UniqueOpen, JobOk, AllCompleted, Startup.ReconcileWrite, Came;
    var row := s.table[step.id];
    ReconcileOwnKey(row, write, step.roots, step.parts, step.files, step.now);
    OwnKeyAllowed(s.table, write.row);
    if step.id !in s.stale {
      StoredOk(s, step.id);
      ReconcileFits(row, Came(s, step.id), write, s.carry, step.roots, step.parts, step.files, step.now);
    }
    WriteKeepsJobs(s, write, step.n, None);
  }

  lemma ReconcileOwnKey(row: Row, write: Jobs.Write, roots: Remove.Roots, parts: seq<Part>, files: Files, now: T.Time)
    requires Startup.ReconcileWrite(row, roots, parts, files, now) == Some(write)
    ensures write.row.id == row.id && write.row.key == row.key
    ensures write.event.Some? ==> write.event.value == Event(Some(row.state), write.row.state)
    ensures write.event.None? ==> write.row.state == row.state
  {
    hide AllCompleted;
  }

  lemma ReconcileFits(row: Row, came: bool, write: Jobs.Write, carry: bool,
                      roots: Remove.Roots, parts: seq<Part>, files: Files, now: T.Time)
    requires JobOk(row, came, carry) && !Closed(row.state)
    requires Startup.ReconcileWrite(row, roots, parts, files, now) == Some(write)
    ensures Fits(row, write, carry)
  {
    hide AllCompleted;
    NothingToPromote(row, roots, parts, files, now);
  }

  /** Logging an event says no more than that it is going to be logged. */
  lemma LoggedSays(s: Sys, n: nat, id: Id)
    requires n in s.owed
    ensures Came(Logging(s, n), id) ==> Came(s, id)
  {
    var o, t := s.owed[n], Logging(s, n);
    if Came(t, id) && !CameThrough(LogOf(s.logs, id)) {
      if k: nat :| k < |LogOf(t.logs, id)| && LogOf(t.logs, id)[k].to == LocalDownloadPending {
        LogGrows(s, n, id, k);
      } else {
        var m :| m in t.owed && t.owed[m].id == id && t.owed[m].event.to == LocalDownloadPending;
        assert m in s.owed && s.owed[m] == t.owed[m];
      }
    }
  }

  lemma LogGrows(s: Sys, n: nat, id: Id, k: nat)
    requires n in s.owed && k < |LogOf(Logging(s, n).logs, id)|
    ensures || (k < |LogOf(s.logs, id)| && LogOf(s.logs, id)[k] == LogOf(Logging(s, n).logs, id)[k])
            || (s.owed[n].id == id && LogOf(Logging(s, n).logs, id)[k] == s.owed[n].event)
  {
  }

  lemma LogKeeps(s: Sys, n: nat)
    requires Inv(s) && n in s.owed
    ensures Inv(Logging(s, n))
  {
    hide WorkersOk, RequestsOk, CopiesOk, OwedOk, UniqueOpen, Came, RowOk, JobsOk;
    var t := Logging(s, n);
    LoggedJobs(s, n);
    NowhereElse(s.table, {});
    WorkersFrame(s, t, {});
    RequestsFrame(s, t, {});
    CopiesFrame(s, t);
    OwedFrame(s, t);
  }

  lemma LoggedJobs(s: Sys, n: nat)
    requires JobsOk(s) && n in s.owed
    ensures JobsOk(Logging(s, n))
  {
    hide UniqueOpen, Came, RowOk;
    var t := Logging(s, n);
    forall id | id in t.table && id !in t.stale ensures JobOk(t.table[id], Came(t, id), t.carry) {
      LoggedSays(s, n, id);
    }
  }

  lemma LoseKeeps(s: Sys, n: nat)
    requires Inv(s) && n in s.owed
    ensures Inv(Losing(s, n))
  {
    hide JobsOk, RequestsOk, CopiesOk, OwedOk, WorkerOk;
    var o, t := s.owed[n], Losing(s, n);
    NowhereElse(s.table, {});
    UsedCovers(s);
    JobsFrame(s, t);
    RequestsFrame(s, t, {});
    CopiesFrame(s, t);
    OwedFrame(s, t);
    LosersOk(s, n);
  }

  lemma LosersOk(s: Sys, n: nat)
    requires WorkersOk(s) && n in s.owed && (!s.up ==> s.phase == STOPPED)
    ensures WorkersOk(Losing(s, n)) && (!s.up ==> Losing(s, n).phase == STOPPED)
  {
    hide WorkerOk;
    var t := Losing(s, n);
    forall w: Worker ensures w in t.phase && WorkerOk(t.table, t.stale, t.carry, w, t.phase[w]) {
      assert WorkerOk(s.table, s.stale, s.carry, w, s.phase[w]);
      StoppedOk(s.table, s.stale, s.carry, w, s.phase[w]);
    }
    if !s.up && s.owed[n].writer.Some? {
      var w := s.owed[n].writer.value;
      assert STOPPED[w] == Idle && STOPPED[w := Idle] == STOPPED;
    }
  }

  lemma StoppedOk(table: Table, stale: set<Id>, carry: bool, w: Worker, p: Phase)
    requires WorkerOk(table, stale, carry, w, p)
    ensures WorkerOk(table, stale, carry, w, Stopped(w, p))
  {
    hide Fetched;
  }

  predicate OfWorker(step: Step)
  {
    || step.Claim? || step.Fetch? || step.FetchFails? || step.Begin? || step.Write? || step.Fail? || step.Skip?
    || step.Finish? || step.Release? || step.EndBatch?
  }

  lemma WorkerStepKeeps(s: Sys, step: Step)
    requires Inv(s) && Enabled(s, step) && OfWorker(step)
    ensures Inv(After(s, step))
  {
    hide Inv;
    if step.Claim? {
      ClaimKeeps(s, step.w, step.ids);
    } else if step.Fetch? {
      FetchKeeps(s, step.w, step.batch);
    } else if step.Begin? {
      BeginKeeps(s, step.w, step.handling);
    } else if step.Write? {
      WriteKeeps(s, step.w, step.n);
    } else if step.Skip? {
      SkipKeeps(s, step.w);
    } else if step.Release? {
      ReleaseKeeps(s, step.w, step.ok);
    } else {
      MemoryKeeps(s, step.w);
    }
  }

  predicate OfApi(step: Step)
  {
    step.LookUp? || step.Insert? || step.Queue? || step.Abandon? || step.ReadDelete? || step.Delete? || step.DropDelete?
  }

  lemma ApiStepKeeps(s: Sys, step: Step)
    requires Inv(s) && Enabled(s, step) && OfApi(step)
    ensures Inv(After(s, step))
  {
    hide Inv;
    if step.LookUp? {
      LookUpKeeps(s, step.row);
    } else if step.Insert? {
      InsertKeeps(s, step.id, step.n);
    } else if step.Queue? {
      QueueKeeps(s, step.id, step.now, step.n);
    } else if step.ReadDelete? {
      ReadDeleteKeeps(s, step.d, step.id);
    } else if step.Delete? {
      DeleteKeeps(s, step.d, step.now, step.n);
    } else {
      DropKeeps(s, After(s, step));
    }
  }

  lemma StepKeeps(s: Sys, step: Step)
    requires Inv(s) && Enabled(s, step)
    ensures Inv(After(s, step))
  {
    hide Inv, Logging, Losing;
    if OfWorker(step) {
      WorkerStepKeeps(s, step);
    } else if OfApi(step) {
      ApiStepKeeps(s, step);
    } else {
      match step {
        case Log(n) => LogKeeps(s, n);
        case Lose(n) => LoseKeeps(s, n);
        case Prune(gone) => PruneKeeps(s, gone);
        case Reconcile(_, _, _, _, _, _) => ReconcileKeeps(s, step);
        case Crash => CrashKeeps(s);
        case ReleaseClaims => ReleaseClaimsKeeps(s);
        case _ => StartKeeps(s);
      }
    }
  }

  lemma MemoryKeeps(s: Sys, w: Worker)
    requires Inv(s)
    ensures s.up && w in s.phase ==> Inv(Moved(s, w, Idle))
    ensures s.up && w in s.phase && s.phase[w].Running? ==>
              && Inv(Moved(s, w, s.phase[w].(todo := [], skipped := false)))
              && Inv(Moved(s, w, Releasing(s.phase[w].mem.id, s.phase[w].rest)))
  {
    hide JobsOk, RequestsOk, CopiesOk, OwedOk, Fetched;
    if s.up && w in s.phase {
      assert WorkerOk(s.table, s.stale, s.carry, w, s.phase[w]);
      MoveKeeps(s, w, Idle);
      if s.phase[w].Running? {
        MoveKeeps(s, w, s.phase[w].(todo := [], skipped := false));
        MoveKeeps(s, w, Releasing(s.phase[w].mem.id, s.phase[w].rest));
      }
    }
  }

  lemma CrashKeeps(s: Sys)
    requires Inv(s)
    ensures Inv(After(s, Crash))
  {
    hide JobsOk, OwedOk;
    UsedCovers(s);
    OwedFrame(s, After(s, Crash));
    JobsFrame(s, After(s, Crash));
    DownKeeps(s, After(s, Crash));
  }

  lemma ReleaseClaimsKeeps(s: Sys)
    requires Inv(s) && !s.up
    ensures Inv(After(s, ReleaseClaims))
  {
    hide JobsOk, OwedOk;
    var t := s.(table := ReleaseAll(s.table));
    ClaimsFrame(s, t);
    OwedFrame(s, t);
    DownKeeps(s, t);
  }

  lemma StartKeeps(s: Sys)
    requires Inv(s) && !s.up
    ensures Inv(After(s, Start))
  {
    hide JobsOk, OwedOk;
    var t := s.(up := true);
    UsedCovers(s);
    OwedFrame(s, t);
    JobsFrame(s, t);
    DownKeeps(s, t);
  }

  lemma {:induction false} RunKeeps(s: Sys, steps: seq<Step>)
    requires Inv(s) && Legal(s, steps)
    ensures Inv(Run(s, steps))
  {
    if steps != [] {
      RunKeeps(s, steps[..|steps| - 1]);
      StepKeeps(Run(s, steps[..|steps| - 1]), steps[|steps| - 1]);
    }
  }

  lemma InitiallyOk(carry: bool)
    ensures Inv(Initial(carry))
  {
    DownKeeps(Initial(carry), Initial(carry));
  }

  /** Every state of every run is in order. */
  lemma Reachable(carry: bool, steps: seq<Step>)
    requires Legal(Initial(carry), steps)
    ensures Inv(Run(Initial(carry), steps)) && Run(Initial(carry), steps).carry == carry
  {
    InitiallyOk(carry);
    RunKeeps(Initial(carry), steps);
    CarryStays(Initial(carry), steps);
  }

  lemma {:induction false} CarryStays(s: Sys, steps: seq<Step>)
    ensures Run(s, steps).carry == s.carry
  {
    hide After;
    if steps != [] {
      CarryStays(s, steps[..|steps| - 1]);
    }
  }
}

/**
 Jobs and their states (internal/store/model.go), and the way a worker writes the row of a job:
 whole rows, with an event for every write that names a next state
 (internal/store/store.go, UpdateJob and UpdateJobState).
 */
module Jobs {
  import opened Wrappers
  import T = TimeText

  /** A path by its cleaned components; Paths.dfy relates these to path strings. */
  type Path = seq<string>

  type Id = string

  datatype JobState =
    | Accepted | SubmitPending | SubmitRetry | RemoteQueued | RemoteActive | RemoteFailed
    | LocalDownloadPending | LocalDownloading | LocalVerify | Completed
    | RemovePending | Removed | Failed

  predicate Closed(s: JobState) { s == RemoteFailed || s == Removed || s == Failed }

  datatype Worker = Submitter | Poller | Downloader | Finalizer | Remover

  /** The states each worker loop claims. */
  function ClaimSet(w: Worker): set<JobState>
  {
    match w
    case Submitter => {SubmitPending, SubmitRetry}
    case Poller => {RemoteQueued, RemoteActive}
    case Downloader => {LocalDownloadPending, LocalDownloading}
    case Finalizer => {LocalVerify}
    case Remover => {RemovePending}
  }

  datatype Row = Row(
    id: Id, createdAt: T.Time, key: string, category: string, displayName: string, infoHash: Option<string>,
    state: JobState,
    remoteId: Option<string>, queuedId: Option<string>, authId: Option<string>, remoteHash: Option<string>,
    remoteStatus: Option<string>,
    payloadRef: Option<Path>, stagingPath: Option<Path>, completedPath: Option<Path>,
    bytesTotal: int, bytesDone: int,
    error: Option<string>, retryCount: nat, nextRunAt: Option<T.Time>,
    deleteRequested: bool, claimedBy: Option<Worker>)

  /** What UpdateJob leaves in the table: the whole row, and no claim. */
  function Unclaimed(row: Row): Row { row.(claimedBy := None) }

  /** Equal rows apart from the claim. */
  predicate Same(a: Row, b: Row) { Unclaimed(a) == Unclaimed(b) }

  datatype Event = Event(from: Option<JobState>, to: JobState)

  /** One write of a job row, with the event logged beside it, if any. */
  datatype Write = Write(row: Row, event: Option<Event>)

  function Save(row: Row): Write { Write(row, None) }

  function SaveState(row: Row, next: JobState): Write
  {
    Write(row.(state := next), Some(Event(Some(row.state), next)))
  }

  function StoredAfter(stored: Row, writes: seq<Write>): Row
  {
    if writes == [] then stored else Unclaimed(writes[|writes| - 1].row)
  }

  function EventsAfter(events: seq<Event>, writes: seq<Write>): seq<Event>
  {
    if writes == [] then events
    else
      var before := EventsAfter(events, writes[..|writes| - 1]);
      if writes[|writes| - 1].event.Some? then before + [writes[|writes| - 1].event.value] else before
  }

  /** Writes in two stages leave what they leave in one. */
  lemma {:induction false} WritesCompose(stored: Row, events: seq<Event>, a: seq<Write>, b: seq<Write>)
    ensures StoredAfter(StoredAfter(stored, a), b) == StoredAfter(stored, a + b)
    ensures EventsAfter(EventsAfter(events, a), b) == EventsAfter(events, a + b)
  {
    if b == [] {
      assert a + b == a;
    } else {
      assert (a + b)[..|a + b| - 1] == a + b[..|b| - 1];
      WritesCompose(stored, events, a, b[..|b| - 1]);
    }
  }

  /** A worker's hold on one job: the copy in memory, and the row and event log in the database. */
  class Handle {
    var job: Row
    var stored: Row
    var events: seq<Event>
    ghost var writes: seq<Write>

    /** The job as fetched, just before a handler starts on it. */
    constructor (row: Row, log: seq<Event>)
      ensures job == row && stored == row && events == log && writes == []
    {
      job, stored, events, writes := row, row, log, [];
    }

    method UpdateJob()
      modifies `stored, `writes
      ensures stored == job.(claimedBy := None) && writes == old(writes) + [Save(job)]
    {
      stored := Unclaimed(job);
      writes := writes + [Save(job)];
    }

    method UpdateJobState(next: JobState)
      modifies this
      ensures job == old(job).(state := next) && stored == job.(claimedBy := None)
      ensures events == old(events) + [Event(Some(old(job).state), next)]
      ensures writes == old(writes) + [SaveState(old(job), next)]
    {
      var prev := job.state;
      writes := writes + [SaveState(job, next)];
      job := job.(state := next);
      stored := Unclaimed(job);
      events := events + [Event(Some(prev), next)];
    }

    /** The handler wrote exactly this, in this order, and nothing else reached the database. */
    twostate predicate Wrote(trace: seq<Write>)
      reads this
    {
      && writes == old(writes) + trace
      && stored == StoredAfter(old(stored), trace)
      && events == EventsAfter(old(events), trace)
    }
  }
}

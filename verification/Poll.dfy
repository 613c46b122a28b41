/** Following a job on the remote service (internal/worker/poll.go). */
module Poll {
  import opened Wrappers
  import opened Jobs
  import opened Submit
  import T = TimeText

  /** What the service tells about a task; the name as it is after trimming and unescaping. */
  datatype Status = Status(
    remoteId: string, authId: string, hash: string, name: string, state: string, taskLabel: string,
    bytesTotal: int, bytesDone: int,
    ready: bool, failed: bool, inactive: bool, error: string)

  /** A call that looks a task up. */
  datatype Reply = Broken(retryable: bool, message: string) | Missing | Found(status: Status)

  /** What the three calls a poll may make come back with, and the times it uses. */
  datatype Answers = Answers(task: Reply, queued: Reply, active: Reply, now: T.Time, next: T.Time)

  /** The identifiers and figures of an active status, taken into the row. */
  function Refreshed(row: Row, s: Status): Row
  {
    var named := TakeRemoteName(row, s.name);
    named.(remoteId := if s.remoteId != "" then Some(s.remoteId) else row.remoteId,
           authId := if s.authId != "" then Some(s.authId) else row.authId,
           remoteHash := if s.hash != "" then Some(s.hash) else row.remoteHash,
           remoteStatus := if s.state != "" then Some(s.state) else row.remoteStatus,
           bytesTotal := if s.bytesTotal > 0 then s.bytesTotal else row.bytesTotal,
           bytesDone := if s.bytesDone > row.bytesDone then s.bytesDone else row.bytesDone)
  }

  function StatusError(s: Status): string
  {
    if s.error == "" then "remote task ended in state=" + s.state + " label=" + s.taskLabel else s.error
  }

  function ApplyTrace(row: Row, s: Option<Status>, now: T.Time, next: T.Time): seq<Write>
  {
    if s.None? then [Save(row.(nextRunAt := Some(next)))]
    else
      var known := Refreshed(row, s.value);
      if s.value.ready then
        [SaveState(known.(nextRunAt := Some(now), error := None, queuedId := None), LocalDownloadPending)]
      else if s.value.failed || s.value.inactive then
        [SaveState(known.(error := Some(StatusError(s.value)), nextRunAt := None), RemoteFailed)]
      else [Save(known.(nextRunAt := Some(next), state := RemoteActive))]
  }

  function RecoverTrace(row: Row, a: Answers): seq<Write>
  {
    match a.active
    case Broken(retryable, message) =>
      if retryable then [Save(row.(nextRunAt := Some(a.next)))]
      else [SaveState(row.(error := Some(message), nextRunAt := None), RemoteFailed)]
    case Missing => [Save(row.(nextRunAt := Some(a.next)))]
    case Found(s) =>
      var known := if s.remoteId != "" then row.(remoteId := Some(s.remoteId)) else row;
      if row.state == RemoteActive then ApplyTrace(known, Some(s), a.now, a.next)
      else [SaveState(known, RemoteActive)] + ApplyTrace(known.(state := RemoteActive), Some(s), a.now, a.next)
  }

  function QueuedTrace(row: Row, a: Answers): seq<Write>
  {
    match a.queued
    case Broken(_, _) => RecoverTrace(row, a)
    case Missing => RecoverTrace(row, a)
    case Found(q) =>
      var known := row.(authId := if q.authId != "" then Some(q.authId) else row.authId,
                        remoteHash := if q.hash != "" then Some(q.hash) else row.remoteHash);
      if q.remoteId == "" then [Save(known.(nextRunAt := Some(a.next)))]
      else
        PromotedTrace(known.(remoteId := Some(q.remoteId)), a)
  }

  /** A queued task that got its id: the new state first, then what the active list says. */
  function PromotedTrace(row: Row, a: Answers): seq<Write>
  {
    [SaveState(row, RemoteActive)] +
    match a.active
    case Broken(_, _) => []
    case Missing => [Save(row.(state := RemoteActive, nextRunAt := Some(a.next)))]
    case Found(s) => ApplyTrace(row.(state := RemoteActive), Some(s), a.now, a.next)
  }

  function Trace(row: Row, a: Answers): seq<Write>
  {
    if row.state == RemoteQueued || row.remoteId.None? then QueuedTrace(row, a)
    else
      match a.task
      case Broken(retryable, message) =>
        if retryable then [Save(row.(nextRunAt := Some(a.next)))]
        else [SaveState(row.(error := Some(message), nextRunAt := None), RemoteFailed)]
      case Missing => ApplyTrace(row, None, a.now, a.next)
      case Found(s) => ApplyTrace(row, Some(s), a.now, a.next)
  }

  // What a poll leaves, field by field.

  /** A text on record after an answer, which tells nothing when it is empty. */
  function Told(told: string, before: Option<string>): Option<string>
  {
    if told == "" then before else Some(told)
  }

  /** Nothing of a row has changed but what a poll may change. */
  predicate Polled(before: Row, row: Row)
  {
    row == before.(remoteId := row.remoteId, authId := row.authId, remoteHash := row.remoteHash,
                   queuedId := row.queuedId, remoteStatus := row.remoteStatus, displayName := row.displayName,
                   bytesTotal := row.bytesTotal, bytesDone := row.bytesDone, state := row.state,
                   error := row.error, nextRunAt := row.nextRunAt, claimedBy := None)
  }

  /** The row that the status of an active task leaves. */
  predicate Applied(before: Row, s: Status, now: T.Time, next: T.Time, row: Row)
  {
    && row.remoteId == Told(s.remoteId, before.remoteId) && row.authId == Told(s.authId, before.authId)
    && row.remoteHash == Told(s.hash, before.remoteHash) && row.remoteStatus == Told(s.state, before.remoteStatus)
    && row.bytesTotal == (if s.bytesTotal > 0 then s.bytesTotal else before.bytesTotal)
    && row.bytesDone == (if s.bytesDone > before.bytesDone then s.bytesDone else before.bytesDone)
    && row.displayName == TakeRemoteName(before, s.name).displayName
    && (if s.ready then
          row.state == LocalDownloadPending && row.nextRunAt == Some(now) && row.error == None && row.queuedId == None
        else if s.failed || s.inactive then
          && row.state == RemoteFailed && row.nextRunAt == None && row.queuedId == before.queuedId
          && row.error == Some(if s.error != "" then s.error
                               else "remote task ended in state=" + s.state + " label=" + s.taskLabel)
        else
          && row.state == RemoteActive && row.nextRunAt == Some(next)
          && row.error == before.error && row.queuedId == before.queuedId)
    && Polled(before, row)
  }

  /** The row that a call leaves which comes back without a status: the job is looked at again, or it is
      given up when the error is final. */
  predicate PutOff(before: Row, r: Reply, next: T.Time, row: Row)
    requires !r.Found?
  {
    if r.Missing? || r.retryable then row == before.(nextRunAt := Some(next), claimedBy := None)
    else row == before.(error := Some(r.message), nextRunAt := None, state := RemoteFailed, claimedBy := None)
  }

  /** The row that a look at the queue leaves: a task still queued, one that has got its id, and one that
      is not found and looked for in the list of active ones. */
  predicate AfterQueue(before: Row, a: Answers, row: Row)
  {
    if a.queued.Found? then
      var q := a.queued.status;
      var known := before.(authId := Told(q.authId, before.authId), remoteHash := Told(q.hash, before.remoteHash),
                           remoteId := Told(q.remoteId, before.remoteId));
      if q.remoteId == "" then row == known.(nextRunAt := Some(a.next), claimedBy := None)
      else
        match a.active
        case Broken(_, _) => row == known.(state := RemoteActive, claimedBy := None)
        case Missing => row == known.(state := RemoteActive, nextRunAt := Some(a.next), claimedBy := None)
        case Found(s) => Applied(known, s, a.now, a.next, row)
    else if a.active.Found? then Applied(before, a.active.status, a.now, a.next, row)
    else PutOff(before, a.active, a.next, row)
  }

  lemma ApplyLeaves(row: Row, s: Status, now: T.Time, next: T.Time, stored: Row)
    ensures Applied(row, s, now, next, StoredAfter(stored, ApplyTrace(row, Some(s), now, next)))
  {
    hide Submit.Placeholder;
  }

  lemma RecoverLeaves(row: Row, a: Answers, stored: Row)
    ensures var after := StoredAfter(stored, RecoverTrace(row, a));
            if a.active.Found? then Applied(row, a.active.status, a.now, a.next, after)
            else PutOff(row, a.active, a.next, after)
  {
    hide Submit.Placeholder;
    if a.active.Found? {
      var s := a.active.status;
      var known := if s.remoteId != "" then row.(remoteId := Some(s.remoteId)) else row;
      ApplyLeaves(known.(state := RemoteActive), s, a.now, a.next, stored);
      StateDoesNotMatter(row, known, s, a.now, a.next, StoredAfter(stored, RecoverTrace(row, a)));
    }
  }

  /** Applying a status to a row that has its id already. */
  lemma StateDoesNotMatter(row: Row, known: Row, s: Status, now: T.Time, next: T.Time, after: Row)
    requires Applied(known.(state := RemoteActive), s, now, next, after)
    requires known == row || known == (if s.remoteId != "" then row.(remoteId := Some(s.remoteId)) else row)
    ensures Applied(row, s, now, next, after)
  {
    hide Text.TrimSpace, Text.Lower;
  }

  lemma QueueLeaves(row: Row, a: Answers, stored: Row)
    ensures AfterQueue(row, a, StoredAfter(stored, QueuedTrace(row, a)))
  {
    hide Submit.Placeholder, Applied;
    if a.queued.Found? {
      var q := a.queued.status;
      var known := row.(authId := Told(q.authId, row.authId), remoteHash := Told(q.hash, row.remoteHash),
                        remoteId := Told(q.remoteId, row.remoteId));
      if q.remoteId != "" {
        PromotedLeaves(known, a, stored);
      }
    } else {
      RecoverLeaves(row, a, stored);
    }
  }

  lemma PromotedLeaves(row: Row, a: Answers, stored: Row)
    ensures var after := StoredAfter(stored, PromotedTrace(row, a));
            match a.active
            case Broken(_, _) => after == row.(state := RemoteActive, claimedBy := None)
            case Missing => after == row.(state := RemoteActive, nextRunAt := Some(a.next), claimedBy := None)
            case Found(s) => Applied(row, s, a.now, a.next, after)
  {
    hide Submit.Placeholder;
    if a.active.Found? {
      var s := a.active.status;
      ApplyLeaves(row.(state := RemoteActive), s, a.now, a.next, stored);
      StateDoesNotMatter(row, row, s, a.now, a.next, StoredAfter(stored, PromotedTrace(row, a)));
    }
  }

  method TakeStatus(h: Handle, status: Status)
    modifies h`job
    ensures h.job == Refreshed(old(h.job), status)
  {
    var job := TakeRemoteName(h.job, status.name);
    if status.remoteId != "" {
      job := job.(remoteId := Some(status.remoteId));
    }
    if status.authId != "" {
      job := job.(authId := Some(status.authId));
    }
    if status.hash != "" {
      job := job.(remoteHash := Some(status.hash));
    }
    if status.state != "" {
      job := job.(remoteStatus := Some(status.state));
    }
    if status.bytesTotal > 0 {
      job := job.(bytesTotal := status.bytesTotal);
    }
    if status.bytesDone > job.bytesDone {
      job := job.(bytesDone := status.bytesDone);
    }
    h.job := job;
  }

  method ApplyActiveStatus(h: Handle, s: Option<Status>, now: T.Time, next: T.Time)
    modifies h
    ensures h.Wrote(ApplyTrace(old(h.job), s, now, next))
    ensures if s.Some? then Applied(old(h.job), s.value, now, next, h.stored)
            else h.stored == old(h.job).(nextRunAt := Some(next), claimedBy := None)
  {
    if s.Some? {
      ApplyLeaves(h.job, s.value, now, next, h.stored);
    }
    if s.None? {
      h.job := h.job.(nextRunAt := Some(next));
      h.UpdateJob();
      return;
    }
    var status := s.value;
    TakeStatus(h, status);
    if status.ready {
      h.job := h.job.(nextRunAt := Some(now), error := None, queuedId := None);
      h.UpdateJobState(LocalDownloadPending);
    } else if status.failed || status.inactive {
      h.job := h.job.(error := Some(StatusError(status)), nextRunAt := None);
      h.UpdateJobState(RemoteFailed);
    } else {
      h.job := h.job.(nextRunAt := Some(next));
      if h.job.state != RemoteActive {
        h.job := h.job.(state := RemoteActive);
      }
      h.UpdateJob();
    }
  }

  method TryRecoverActiveStatus(h: Handle, a: Answers)
    modifies h
    ensures h.Wrote(RecoverTrace(old(h.job), a))
    ensures if a.active.Found? then Applied(old(h.job), a.active.status, a.now, a.next, h.stored)
            else PutOff(old(h.job), a.active, a.next, h.stored)
  {
    RecoverLeaves(h.job, a, h.stored);
    match a.active {
      case Broken(retryable, message) =>
        if retryable {
          h.job := h.job.(nextRunAt := Some(a.next));
          h.UpdateJob();
          return;
        }
        h.job := h.job.(error := Some(message), nextRunAt := None);
        h.UpdateJobState(RemoteFailed);
      case Missing =>
        h.job := h.job.(nextRunAt := Some(a.next));
        h.UpdateJob();
      case Found(_) =>
        FollowRecovered(h, a);
    }
  }

  method FollowRecovered(h: Handle, a: Answers)
    requires a.active.Found?
    modifies h
    ensures h.Wrote(RecoverTrace(old(h.job), a))
  {
    var s := a.active.status;
    if s.remoteId != "" {
      h.job := h.job.(remoteId := Some(s.remoteId));
    }
    ghost var first: seq<Write> := [];
    if h.job.state != RemoteActive {
      first := [SaveState(h.job, RemoteActive)];
      h.UpdateJobState(RemoteActive);
    }
    assert h.Wrote(first);
    WritesCompose(old(h.stored), old(h.events), first, ApplyTrace(h.job, Some(s), a.now, a.next));
    ApplyActiveStatus(h, Some(s), a.now, a.next);
  }

  method FollowPromoted(h: Handle, a: Answers)
    modifies h
    ensures h.Wrote(PromotedTrace(old(h.job), a))
  {
    ghost var first := [SaveState(h.job, RemoteActive)];
    h.UpdateJobState(RemoteActive);
    assert h.Wrote(first);
    match a.active {
      case Broken(_, _) =>
        assert first + [] == first;
      case Missing =>
        h.job := h.job.(nextRunAt := Some(a.next));
        WritesCompose(old(h.stored), old(h.events), first, [Save(h.job)]);
        h.UpdateJob();
      case Found(s) =>
        WritesCompose(old(h.stored), old(h.events), first, ApplyTrace(h.job, Some(s), a.now, a.next));
        ApplyActiveStatus(h, Some(s), a.now, a.next);
    }
  }

  method ProcessQueuedPollJob(h: Handle, a: Answers)
    modifies h
    ensures h.Wrote(QueuedTrace(old(h.job), a))
    ensures AfterQueue(old(h.job), a, h.stored)
  {
    QueueLeaves(h.job, a, h.stored);
    match a.queued {
      case Broken(_, _) =>
        TryRecoverActiveStatus(h, a);
      case Missing =>
        TryRecoverActiveStatus(h, a);
      case Found(q) =>
        if q.authId != "" {
          h.job := h.job.(authId := Some(q.authId));
        }
        if q.hash != "" {
          h.job := h.job.(remoteHash := Some(q.hash));
        }
        if q.remoteId != "" {
          h.job := h.job.(remoteId := Some(q.remoteId));
          FollowPromoted(h, a);
          return;
        }
        h.job := h.job.(nextRunAt := Some(a.next));
        h.UpdateJob();
    }
  }

  method ProcessPollJob(h: Handle, a: Answers)
    modifies h
    ensures h.Wrote(Trace(old(h.job), a))
    ensures var job := old(h.job);
            if job.state == RemoteQueued || job.remoteId.None? then AfterQueue(job, a, h.stored)
            else if a.task.Found? then Applied(job, a.task.status, a.now, a.next, h.stored)
            else PutOff(job, a.task, a.next, h.stored)
  {
    if h.job.state == RemoteQueued || h.job.remoteId.None? {
      ProcessQueuedPollJob(h, a);
      return;
    }
    match a.task {
      case Broken(retryable, message) =>
        if retryable {
          h.job := h.job.(nextRunAt := Some(a.next));
          h.UpdateJob();
          return;
        }
        h.job := h.job.(error := Some(message), nextRunAt := None);
        h.UpdateJobState(RemoteFailed);
      case Missing =>
        ApplyActiveStatus(h, None, a.now, a.next);
      case Found(s) =>
        ApplyActiveStatus(h, Some(s), a.now, a.next);
    }
  }
}

/** Handing a job to the remote service (internal/worker/submit.go). */
module Submit {
  import opened Wrappers
  import opened Text
  import opened Jobs
  import T = TimeText

  /** An empty identifier counts as none. */
  function Ptr(s: string): Option<string> { if s == "" then None else Some(s) }

  function OrEmpty(v: Option<string>): string { if v.Some? then v.value else "" }

  /** A display name that stands for none: blank, or an info hash. */
  predicate Placeholder(row: Row)
  {
    var current := TrimSpace(row.displayName);
    || current == ""
    || (row.infoHash.Some? && Lower(current) == Lower(row.infoHash.value))
    || (row.remoteHash.Some? && Lower(current) == Lower(row.remoteHash.value))
  }

  /** The remote name, which comes trimmed and unescaped, replaces only a placeholder. */
  function TakeRemoteName(row: Row, given: string): (r: Row)
    ensures r == row.(displayName := r.displayName)
    ensures r.displayName == row.displayName || r.displayName == given != ""
    ensures Placeholder(row) && given != "" ==> r.displayName == given
    ensures !Placeholder(row) ==> r == row
  {
    if given == "" then row
    else if Placeholder(row) then row.(displayName := given)
    else row
  }

  /** So a name is given exactly when the job has none, or has one of its hashes for a name, whatever the case
      of its letters. */
  lemma NamedExactly(row: Row, given: string)
    requires given != "" && given != row.displayName
    ensures var current := TrimSpace(row.displayName);
            TakeRemoteName(row, given).displayName == given <==>
              || current == "" || (row.infoHash.Some? && SameLetters(current, row.infoHash.value))
              || (row.remoteHash.Some? && SameLetters(current, row.remoteHash.value))
  {
    var current := TrimSpace(row.displayName);
    if row.infoHash.Some? {
      LowerFolds(current, row.infoHash.value);
    }
    if row.remoteHash.Some? {
      LowerFolds(current, row.remoteHash.value);
    }
    hide Lower, TrimSpace, SameLetters;
  }

  /** What the create call of the remote service comes back with; the name as it is after trimming
      and unescaping. */
  datatype Answer =
    | CreateFailed(retryable: bool, message: string)
    | NoResponse
    | Created(remoteId: string, queuedId: string, authId: string, remoteHash: string, name: string)

  const EMPTY_RESPONSE := "torbox create returned empty response"
  const NO_IDENTIFIERS := "torbox create returned no remote id or queue tracking identifiers"

  /** handleSubmitFailure; retryAt is the time after the back-off. */
  function FailureTrace(row: Row, retryable: bool, message: string, retryAt: T.Time): seq<Write>
  {
    var noted := row.(error := Some(message));
    if retryable then [SaveState(noted.(retryCount := row.retryCount + 1, nextRunAt := Some(retryAt)), SubmitRetry)]
    else [SaveState(noted.(nextRunAt := None), RemoteFailed)]
  }

  /** The row with the identifiers of a response. */
  function Identified(row: Row, a: Answer): Row
    requires a.Created?
  {
    TakeRemoteName(row.(remoteId := Ptr(TrimSpace(a.remoteId)), queuedId := Ptr(TrimSpace(a.queuedId)),
                        authId := Ptr(TrimSpace(a.authId)), remoteHash := Ptr(TrimSpace(a.remoteHash))), a.name)
  }

  predicate Untracked(row: Row)
  {
    row.remoteId.None? && row.queuedId.None? && row.authId.None? && row.remoteHash.None?
  }

  function Trace(row: Row, a: Answer, pollAt: T.Time, retryAt: T.Time): seq<Write>
  {
    match a
    case CreateFailed(retryable, message) => FailureTrace(row, retryable, message, retryAt)
    case NoResponse => FailureTrace(row, true, EMPTY_RESPONSE, retryAt)
    case Created(_, _, _, _, _) =>
      var named := Identified(row, a);
      if Untracked(named) then FailureTrace(named, true, NO_IDENTIFIERS, retryAt)
      else
        var ready := named.(error := None, retryCount := 0, nextRunAt := Some(pollAt));
        [SaveState(ready, if ready.remoteId.Some? then RemoteActive else RemoteQueued)]
  }

  /** An identifier as it is kept: without white space around it, and not at all if it is blank. */
  predicate Keeps(kept: Option<string>, given: string)
  {
    if TrimSpace(given) == "" then kept == None else kept == Some(TrimSpace(given))
  }

  /** A response without any identifier. */
  predicate Nameless(a: Answer)
    requires a.Created?
  {
    TrimSpace(a.remoteId) == "" && TrimSpace(a.queuedId) == "" && TrimSpace(a.authId) == ""
        && TrimSpace(a.remoteHash) == ""
  }

  /** The row that each answer leaves, field by field. */
  predicate Handed(job: Row, a: Answer, pollAt: T.Time, retryAt: T.Time, row: Row)
  {
    && (if a.Created? then
          && Keeps(row.remoteId, a.remoteId) && Keeps(row.queuedId, a.queuedId)
          && Keeps(row.authId, a.authId) && Keeps(row.remoteHash, a.remoteHash)
          && row.displayName == TakeRemoteName(job.(remoteHash := row.remoteHash), a.name).displayName
        else
          && row.remoteId == job.remoteId && row.queuedId == job.queuedId
          && row.authId == job.authId && row.remoteHash == job.remoteHash && row.displayName == job.displayName)
    && (if a.Created? && !Nameless(a) then
          && row.state == (if TrimSpace(a.remoteId) != "" then RemoteActive else RemoteQueued)
          && row.error == None && row.retryCount == 0 && row.nextRunAt == Some(pollAt)
        else if a.CreateFailed? && !a.retryable then
          && row.state == RemoteFailed && row.error == Some(a.message)
          && row.retryCount == job.retryCount && row.nextRunAt == None
        else
          && row.state == SubmitRetry && row.error.Some? && (a.CreateFailed? ==> row.error == Some(a.message))
          && row.retryCount == job.retryCount + 1 && row.nextRunAt == Some(retryAt))
    && row.claimedBy == None
    && row == job.(remoteId := row.remoteId, queuedId := row.queuedId, authId := row.authId,
                   remoteHash := row.remoteHash,
                   displayName := row.displayName, state := row.state, error := row.error,
                   retryCount := row.retryCount, nextRunAt := row.nextRunAt, claimedBy := row.claimedBy)
  }

  /** That is what the trace comes to. */
  lemma LeavesHanded(job: Row, a: Answer, pollAt: T.Time, retryAt: T.Time, stored: Row)
    ensures Handed(job, a, pollAt, retryAt, StoredAfter(stored, Trace(job, a, pollAt, retryAt)))
  {
    hide TrimSpace, Placeholder;
    if a.Created? {
      NameBeforeIds(job, a);
    }
  }

  /** Of the identifiers only the remote hash matters for the name. */
  lemma NameBeforeIds(job: Row, a: Answer)
    requires a.Created?
    ensures Identified(job, a).displayName ==
            TakeRemoteName(job.(remoteHash := Ptr(TrimSpace(a.remoteHash))), a.name).displayName
  {
    hide TrimSpace, Lower;
  }

  method HandleSubmitFailure(h: Handle, retryable: bool, message: string, retryAt: T.Time)
    modifies h
    ensures h.Wrote(FailureTrace(old(h.job), retryable, message, retryAt))
  {
    h.job := h.job.(error := Some(message));
    if retryable {
      h.job := h.job.(retryCount := h.job.retryCount + 1);
      h.job := h.job.(nextRunAt := Some(retryAt));
      h.UpdateJobState(SubmitRetry);
      return;
    }
    h.job := h.job.(nextRunAt := None);
    h.UpdateJobState(RemoteFailed);
  }

  method ProcessSubmitJob(h: Handle, a: Answer, pollAt: T.Time, retryAt: T.Time)
    modifies h
    ensures h.Wrote(Trace(old(h.job), a, pollAt, retryAt))
    ensures Handed(old(h.job), a, pollAt, retryAt, h.stored)
  {
    LeavesHanded(h.job, a, pollAt, retryAt, h.stored);
    match a {
      case CreateFailed(retryable, message) =>
        HandleSubmitFailure(h, retryable, message, retryAt);
      case NoResponse =>
        HandleSubmitFailure(h, true, EMPTY_RESPONSE, retryAt);
      case Created(remoteId, queuedId, authId, remoteHash, name) =>
        h.job := h.job.(remoteId := Ptr(TrimSpace(remoteId)));
        h.job := h.job.(queuedId := Ptr(TrimSpace(queuedId)));
        h.job := h.job.(authId := Ptr(TrimSpace(authId)));
        h.job := h.job.(remoteHash := Ptr(TrimSpace(remoteHash)));
        h.job := TakeRemoteName(h.job, name);
        if Untracked(h.job) {
          HandleSubmitFailure(h, true, NO_IDENTIFIERS, retryAt);
          return;
        }
        h.job := h.job.(error := None, retryCount := 0, nextRunAt := Some(pollAt));
        if h.job.remoteId.Some? {
          h.UpdateJobState(RemoteActive);
        } else {
          h.UpdateJobState(RemoteQueued);
        }
    }
  }
}

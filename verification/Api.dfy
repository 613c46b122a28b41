/** What the HTTP API does to the jobs table (internal/api/router.go). */
module Api {
  import opened Wrappers
  import opened Jobs
  import opened Store
  import T = TimeText

  datatype Outcome = Duplicate(job: Row) | Enqueued(job: Row) | Refused

  /** What the first update of a submission writes. */
  function Queued(row: Row, now: T.Time): Write { SaveState(row.(nextRunAt := Some(now)), SubmitPending) }

  /** Look-up, insert and first update of a submission, with nobody else acting in between. */
  method EnqueueSubmission(st: JobStore, accepted: Row, now: T.Time) returns (r: Outcome)
    requires accepted.state == Accepted && accepted.id !in st.table && Keyed(st.table) && UniqueOpen(st.table)
    modifies st
    ensures Keyed(st.table) && UniqueOpen(st.table)
    ensures r.Duplicate? <==> exists id | id in old(st.table) ::
                old(st.table)[id].key == accepted.key && !Closed(old(st.table)[id].state)
    ensures r.Duplicate? ==> st.table == old(st.table) && st.logs == old(st.logs)
                             && r.job in st.table.Values && r.job.key == accepted.key && !Closed(r.job.state)
    ensures !r.Refused?
    ensures r.Enqueued? ==> st.table == old(st.table)[accepted.id :=
                              accepted.(nextRunAt := Some(now), state := SubmitPending, claimedBy := None)]
    ensures r.Enqueued? ==> st.table == old(st.table)[accepted.id := Unclaimed(Queued(accepted, now).row)]
    ensures r.Enqueued? ==> st.logs == old(st.logs)[accepted.id :=
                              [Event(None, Accepted), Event(Some(Accepted), SubmitPending)]]
  {
    hide UniqueOpen;
    var active := st.FindActiveBySubmissionKey(accepted.key);
    if active.Some? {
      return Duplicate(active.value);
    }
    forall id | id in st.table ensures st.table[id].state in LISTED_STATES ==> st.table[id].key != accepted.key {
      ListedIsOpen(st.table[id].state);
    }
    IndexIsUniqueness(st.table, Unclaimed(accepted));
    var ok := st.CreateJob(accepted);
    if !ok {
      return Refused;
    }
    var job := accepted.(nextRunAt := Some(now));
    ghost var before := st.table;
    ok := st.UpdateJobState(job, SubmitPending);
    if !ok {
      return Refused;
    }
    IndexIsUniqueness(before, Unclaimed(job.(state := SubmitPending)));
    assert [Event(None, Accepted)] + [Event(Some(Accepted), SubmitPending)] ==
           [Event(None, Accepted), Event(Some(Accepted), SubmitPending)];
    return Enqueued(job.(state := SubmitPending));
  }

  /** What a delete request writes, from the row it has read. */
  function Removal(row: Row, now: T.Time): Write
  {
    SaveState(row.(deleteRequested := true, nextRunAt := Some(now)), RemovePending)
  }

  /** A delete request, with nobody else acting between its read and its write (Protocol.Delete has
      both apart). A job already removed or being removed is left alone, and re-opening a
      closed job is refused while another open job has its submission key. */
  method MarkRemovePending(st: JobStore, id: Id, now: T.Time) returns (ok: bool)
    requires Keyed(st.table) && UniqueOpen(st.table)
    modifies st
    ensures Keyed(st.table) && UniqueOpen(st.table)
    ensures id !in old(st.table) || old(st.table)[id].state in {Removed, RemovePending} ==>
              ok && st.table == old(st.table) && st.logs == old(st.logs)
    ensures id in old(st.table) && old(st.table)[id].state !in {Removed, RemovePending} ==>
              (ok <==> forall other | other in old(st.table) && other != id && !Closed(old(st.table)[other].state) ::
                         old(st.table)[other].key != old(st.table)[id].key)
    ensures id in old(st.table) && old(st.table)[id].state !in {Removed, RemovePending} && ok ==>
              st.table == old(st.table)[id := old(st.table)[id].(deleteRequested := true, nextRunAt := Some(now),
                                                                 state := RemovePending, claimedBy := None)]
              && st.table == PutRow(old(st.table), Removal(old(st.table)[id], now).row)
              && st.logs == Logged(old(st.logs), id, Some(Event(Some(old(st.table)[id].state), RemovePending)))
    ensures !ok ==> st.table == old(st.table) && st.logs == old(st.logs)
  {
    if id !in st.table {
      return true;
    }
    var job := st.table[id];
    if job.state == Removed || job.state == RemovePending {
      return true;
    }
    job := job.(deleteRequested := true, nextRunAt := Some(now));
    ghost var before := st.table;
    forall other | other in st.table { ListedIsOpen(st.table[other].state); }
    ok := st.UpdateJobState(job, RemovePending);
    IndexIsUniqueness(before, job.(state := RemovePending));
    IndexIsUniqueness(before, Unclaimed(job.(state := RemovePending)));
  }
}

/**
 How the steps of different actors get in each other's way: runs of the service that lead into the
 cases Protocol.dfy speaks of, and exactly when a delete survives whatever comes after it.
 */
module Interference {
  import opened Wrappers
  import opened Api
  import opened Jobs
  import opened Store
  import opened Protocol
  import opened Outcomes
  import Poll
  import Remove
  import Submit
  import Text
  import T = TimeText

  // Runs put together.

  lemma {:induction false} RunsJoin(s: Sys, a: seq<Step>, b: seq<Step>)
    ensures Run(s, a + b) == Run(Run(s, a), b)
    ensures Legal(s, a + b) <==> Legal(s, a) && Legal(Run(s, a), b)
  {
    hide Enabled, After;
    if b == [] {
      assert a + b == a;
    } else {
      assert (a + b)[..|a + b| - 1] == a + b[..|b| - 1];
      RunsJoin(s, a, b[..|b| - 1]);
    }
  }

  /** A run from one state to another. */
  ghost predicate Leads(s: Sys, steps: seq<Step>, t: Sys) { Legal(s, steps) && Run(s, steps) == t }

  lemma NoStep(s: Sys)
    ensures Leads(s, [], s)
  {
  }

  lemma Then(s: Sys, steps: seq<Step>, t: Sys, step: Step, u: Sys)
    requires Leads(s, steps, t) && Enabled(t, step) && After(t, step) == u
    ensures Leads(s, steps + [step], u)
  {
    hide Enabled, After;
    Extend(s, steps, step);
  }

  lemma Joined(s: Sys, a: seq<Step>, t: Sys, b: seq<Step>, u: Sys)
    requires Leads(s, a, t) && Leads(t, b, u)
    ensures Leads(s, a + b, u)
  {
    RunsJoin(s, a, b);
  }

  // Such runs exist: a submission gets into the submitter's hands.

  lemma Extend(s: Sys, steps: seq<Step>, step: Step)
    requires Legal(s, steps) && Enabled(Run(s, steps), step)
    ensures Legal(s, steps + [step]) && Run(s, steps + [step]) == After(Run(s, steps), step)
  {
    hide Enabled, After;
    var more := steps + [step];
    assert more[..|more| - 1] == steps && more[|more| - 1] == step;
  }

  /** The service with one job waiting to be submitted. */
  function OneQueued(row: Row, now: T.Time, carry: bool): Sys
  {
    var queued := Unclaimed(Queued(row, now).row);
    Sys(map[row.id := queued], map[row.id := [Event(None, Accepted), Event(Some(Accepted), SubmitPending)]], map[],
        STOPPED, map[], map[], {row.id}, {}, true, carry)
  }

  /** The steps of a submission from the first start on. */
  function Enqueue(row: Row, now: T.Time): seq<Step>
  {
    [Start, LookUp(row), Insert(row.id, 0), Log(0), Queue(row.id, now, 0), Log(0)]
  }

  lemma AnEnqueueRuns(row: Row, now: T.Time, carry: bool)
    requires NewRow(row)
    ensures Leads(Initial(carry), Enqueue(row, now), OneQueued(row, now, carry))
  {
    var s0 := Initial(carry);
    var s1 := s0.(up := true);
    var s2 := s1.(requests := map[row.id := Looked(row)], used := {row.id});
    var s3 := s2.(table := map[row.id := row], owed := map[0 := Owed(row.id, Event(None, Accepted), None)],
                  requests := map[row.id := Inserted(row)]);
    var s4 := s3.(owed := map[], logs := map[row.id := [Event(None, Accepted)]]);
    var s5 := s4.(table := map[row.id := Unclaimed(Queued(row, now).row)], requests := map[],
                  owed := map[0 := Owed(row.id, Event(Some(Accepted), SubmitPending), None)]);
    FirstSteps(row, now, s0, s1, s2, s3);
    LastSteps(row, now, s3, s4, s5);
    hide Enabled, After, Initial, OneQueued, Leads;
    NoStep(s0);
    Then(s0, [], s0, Start, s1);
    var steps := [] + [Start];
    Then(s0, steps, s1, LookUp(row), s2);
    steps := steps + [LookUp(row)];
    Then(s0, steps, s2, Insert(row.id, 0), s3);
    steps := steps + [Insert(row.id, 0)];
    Then(s0, steps, s3, Log(0), s4);
    steps := steps + [Log(0)];
    Then(s0, steps, s4, Queue(row.id, now, 0), s5);
    steps := steps + [Queue(row.id, now, 0)];
    Then(s0, steps, s5, Log(0), OneQueued(row, now, carry));
    assert steps + [Log(0)] == Enqueue(row, now);
  }

  lemma FirstSteps(row: Row, now: T.Time, s0: Sys, s1: Sys, s2: Sys, s3: Sys)
    requires NewRow(row) && s0 == Initial(s0.carry) && s1 == s0.(up := true)
    requires s2 == s1.(requests := map[row.id := Looked(row)], used := {row.id})
    requires s3 == s2.(table := map[row.id := row], owed := map[0 := Owed(row.id, Event(None, Accepted), None)],
                       requests := map[row.id := Inserted(row)])
    ensures Enabled(s0, Start) && After(s0, Start) == s1
    ensures Enabled(s1, LookUp(row)) && After(s1, LookUp(row)) == s2
    ensures Enabled(s2, Insert(row.id, 0)) && After(s2, Insert(row.id, 0)) == s3
  {
    hide Enabled, After;
    StartsUp(s0, s1);
    LooksUp(row, s1, s2);
    Inserts(row, s2, s3);
  }

  lemma LastSteps(row: Row, now: T.Time, s3: Sys, s4: Sys, s5: Sys)
    requires NewRow(row) && s3 == Sys(map[row.id := row], map[], map[0 := Owed(row.id, Event(None, Accepted), None)],
                                      STOPPED, map[row.id := Inserted(row)], map[], {row.id}, {}, true, s3.carry)
    requires s4 == s3.(owed := map[], logs := map[row.id := [Event(None, Accepted)]])
    requires s5 == s4.(table := map[row.id := Unclaimed(Queued(row, now).row)], requests := map[],
                       owed := map[0 := Owed(row.id, Event(Some(Accepted), SubmitPending), None)])
    ensures Enabled(s3, Log(0)) && After(s3, Log(0)) == s4
    ensures Enabled(s4, Queue(row.id, now, 0)) && After(s4, Queue(row.id, now, 0)) == s5
    ensures Enabled(s5, Log(0)) && After(s5, Log(0)) == OneQueued(row, now, s3.carry)
  {
    hide Enabled, After;
    LogsOne(s3, 0);
    assert LogOf(s3.logs, row.id) + [Event(None, Accepted)] == [Event(None, Accepted)];
    Queues(row, now, s4, s5);
    LogsOne(s5, 0);
    assert [Event(None, Accepted)] + [Event(Some(Accepted), SubmitPending)] ==
           [Event(None, Accepted), Event(Some(Accepted), SubmitPending)];
  }

  lemma LogsOne(s: Sys, n: nat)
    requires n in s.owed && s.owed == map[n := s.owed[n]] && s.owed[n].id in s.table
    ensures var o := s.owed[n];
            && Enabled(s, Log(n))
            && After(s, Log(n)) == s.(owed := map[], logs := s.logs[o.id := LogOf(s.logs, o.id) + [o.event]])
  {
    assert s.owed - {n} == map[];
  }

  lemma StartsUp(s: Sys, t: Sys)
    requires !s.up && s.owed == map[] && t == s.(up := true)
    ensures Enabled(s, Start) && After(s, Start) == t
  {
  }

  lemma LooksUp(row: Row, s: Sys, t: Sys)
    requires NewRow(row) && s.up && s.table == map[] && s.requests == map[] && s.used == {}
    requires t == s.(requests := map[row.id := Looked(row)], used := {row.id})
    ensures Enabled(s, LookUp(row)) && After(s, LookUp(row)) == t
  {
  }

  lemma Inserts(row: Row, s: Sys, t: Sys)
    requires NewRow(row) && s.up && s.table == map[] && s.owed == map[] && s.requests == map[row.id := Looked(row)]
    requires t == s.(table := map[row.id := row], owed := map[0 := Owed(row.id, Event(None, Accepted), None)],
                     requests := map[row.id := Inserted(row)])
    ensures Enabled(s, Insert(row.id, 0)) && After(s, Insert(row.id, 0)) == t
  {
    assert Unclaimed(row) == row;
  }

  lemma Queues(row: Row, now: T.Time, s: Sys, t: Sys)
    requires NewRow(row) && s.up && s.table == map[row.id := row] && s.owed == map[]
    requires s.requests == map[row.id := Inserted(row)]
    requires t == s.(table := map[row.id := Unclaimed(Queued(row, now).row)], requests := map[],
                     owed := map[0 := Owed(row.id, Event(Some(Accepted), SubmitPending), None)])
    ensures Enabled(s, Queue(row.id, now, 0)) && After(s, Queue(row.id, now, 0)) == t
  {
    assert s.requests - {row.id} == map[];
    var u := Written(s, Queued(row, now), 0, None);
    assert u.table == map[row.id := Unclaimed(Queued(row, now).row)];
    assert u.owed == map[0 := Owed(row.id, Event(Some(Accepted), SubmitPending), None)];
  }

  lemma ASubmissionIsTakenUp(row: Row, now: T.Time, carry: bool)
    requires NewRow(row)
    ensures var steps := Enqueue(row, now) + [Claim(Submitter, [row.id])];
            Legal(Initial(carry), steps) && InHandOf(Run(Initial(carry), steps), Submitter, row.id)
  {
    AnEnqueueRuns(row, now, carry);
    var s := OneQueued(row, now, carry);
    assert Enabled(s, Claim(Submitter, [row.id]));
    TakenUp(s, row.id);
    LedThere(Initial(carry), Enqueue(row, now), s);
    hide Enabled, After, Initial, OneQueued, Enqueue;
    Extend(Initial(carry), Enqueue(row, now), Claim(Submitter, [row.id]));
  }

  lemma LedThere(s: Sys, steps: seq<Step>, t: Sys)
    requires Leads(s, steps, t)
    ensures Legal(s, steps) && Run(s, steps) == t
  {
  }

  lemma TakenUp(s: Sys, id: Id)
    ensures InHandOf(After(s, Claim(Submitter, [id])), Submitter, id)
  {
    assert [id][0] == id;
  }

  /** All events that are owed get logged. */
  lemma {:induction false} AllLogged(d: Sys) returns (steps: seq<Step>, logs: Logs)
    ensures Leads(d, steps, d.(logs := logs, owed := map[]))
    decreases d.owed.Keys
  {
    hide Enabled, After, Leads;
    NoStep(d);
    steps, logs := [], d.logs;
    if d.owed.Keys == {} {
      assert d.owed == map[] && d.(logs := logs, owed := map[]) == d;
    } else {
      var n :| n in d.owed;
      var e := Logging(d, n);
      LogsNext(d, n);
      Then(d, [], d, Log(n), e);
      assert e.owed.Keys == d.owed.Keys - {n};
      var more;
      more, logs := AllLogged(e);
      assert e.(logs := logs, owed := map[]) == d.(logs := logs, owed := map[]);
      Joined(d, [] + [Log(n)], e, more, d.(logs := logs, owed := map[]));
      steps := [] + [Log(n)] + more;
    }
  }

  lemma LogsNext(d: Sys, n: nat)
    requires n in d.owed
    ensures Enabled(d, Log(n)) && After(d, Log(n)) == Logging(d, n)
  {
  }

  // A worker comes to a job it has in hand, and writes it.

  const PENDING := Poll.Status("", "", "", "", "", "", 0, 0, false, false, false, "")

  /** A way for a worker other than the remover to write any job at once. */
  function Overwriting(w: Worker, row: Row): Handling
    requires w != Remover
  {
    match w
    case Submitter => Submitting(Submit.CreateFailed(true, ""), 0, 0)
    case Poller => Polling(Poll.Answers(Poll.Found(PENDING), Poll.Missing, Poll.Found(PENDING), 0, 0))
    case Downloader => Handling.Downloading([SaveState(row, LocalDownloading)])
    case Finalizer => Finalizing([SaveState(row, LocalDownloading)])
  }

  lemma OverwritingWrites(w: Worker, row: Row, carry: bool)
    requires w != Remover
    ensures Handles(w, row, Overwriting(w, row), carry)
    ensures var ws := Writes(row, Overwriting(w, row));
            && ws != [] && ws[0].row.id == row.id && ws[0].row.key == row.key && !Ending(ws[0].row.state)
  {
  }

  /** The worker at its next job, which it overwrites. */
  lemma Overwrites(d: Sys, w: Worker, rest: seq<Row>, id: Id) returns (steps: seq<Step>)
    requires d.up && w in d.phase && d.phase[w] == Between(rest) && rest != [] && rest[0].id == id && w != Remover
    requires d.owed == map[]
    requires Keyed(d.table) && UniqueOpen(d.table) && id in d.table && !Closed(d.table[id].state)
    requires rest[0].key == d.table[id].key
    ensures Legal(d, steps) && !Deleted(Run(d, steps), id)
  {
    var handling := Overwriting(w, rest[0]);
    OverwritingWrites(w, rest[0], d.carry);
    var ws := Writes(rest[0], handling);
    var e := Moved(d, w, Running(rest[0], ws, rest[1..], false));
    var f := Moved(Written(e, ws[0], 0, Some(w)), w, Running(ws[0].row, ws[1..], rest[1..], false));
    BeginsTo(d, w, handling, e);
    OwnKeyAllowed(d.table, ws[0].row);
    WritesTo(e, w, f);
    hide Enabled, After, Overwriting, Writes;
    NoStep(d);
    Then(d, [], d, Begin(w, handling), e);
    Then(d, [] + [Begin(w, handling)], e, Step.Write(w, 0), f);
    steps := [] + [Begin(w, handling)] + [Step.Write(w, 0)];
  }

  lemma BeginsTo(d: Sys, w: Worker, handling: Handling, e: Sys)
    requires d.up && w in d.phase && d.phase[w].Between? && d.phase[w].rest != []
    requires Handles(w, d.phase[w].rest[0], handling, d.carry)
    requires var rest := d.phase[w].rest; e == Moved(d, w, Running(rest[0], Writes(rest[0], handling), rest[1..], false))
    ensures Enabled(d, Begin(w, handling)) && After(d, Begin(w, handling)) == e
  {
  }

  lemma WritesTo(e: Sys, w: Worker, f: Sys)
    requires e.up && w in e.phase && e.phase[w].Running? && e.phase[w].todo != [] && e.owed == map[]
    requires Accepts(e.table, e.phase[w].todo[0].row)
    requires var p := e.phase[w];
             f == Moved(Written(e, p.todo[0], 0, Some(w)), w, Running(p.todo[0].row, p.todo[1..], p.rest, false))
    ensures Enabled(e, Step.Write(w, 0)) && After(e, Step.Write(w, 0)) == f
  {
  }

  lemma FailsTo(d: Sys, w: Worker)
    requires d.up && w in d.phase && d.phase[w].Running? && d.owed == map[]
    ensures var p := d.phase[w];
            && Enabled(d, Fail(w)) && After(d, Fail(w)) == Moved(d, w, p.(todo := [], skipped := false))
            && (p.todo == [] ==> Enabled(d, Finish(w)) && After(d, Finish(w)) == Moved(d, w, Releasing(p.mem.id, p.rest)))
  {
  }

  lemma ReleasesTo(d: Sys, w: Worker)
    requires d.up && w in d.phase && d.phase[w].Releasing?
    ensures Enabled(d, Release(w, false)) && After(d, Release(w, false)) == Moved(d, w, Between(d.phase[w].rest))
  {
  }

  /** A worker that fails at its job, or is past it, gets to the rest of its batch. */
  lemma GetsOn(d: Sys, w: Worker) returns (steps: seq<Step>)
    requires d.up && w in d.phase && (d.phase[w].Running? || d.phase[w].Releasing?) && d.owed == map[]
    ensures Leads(d, steps, Moved(d, w, Between(d.phase[w].rest)))
  {
    hide Enabled, After, Leads;
    var p := d.phase[w];
    NoStep(d);
    if p.Releasing? {
      ReleasesTo(d, w);
      Then(d, [], d, Release(w, false), Moved(d, w, Between(p.rest)));
      steps := [] + [Release(w, false)];
    } else {
      var e, f := Moved(d, w, p.(todo := [], skipped := false)), Moved(d, w, Releasing(p.mem.id, p.rest));
      FailsTo(d, w);
      FailsTo(e, w);
      ReleasesTo(f, w);
      assert Moved(e, w, Releasing(p.mem.id, p.rest)) == f;
      assert Moved(f, w, Between(p.rest)) == Moved(d, w, Between(p.rest));
      Then(d, [], d, Fail(w), e);
      Then(d, [] + [Fail(w)], e, Finish(w), f);
      Then(d, [] + [Fail(w)] + [Finish(w)], f, Release(w, false), Moved(d, w, Between(p.rest)));
      steps := [] + [Fail(w)] + [Finish(w)] + [Release(w, false)];
    }
  }

  /** A worker passes over the first k jobs of the rest of its batch. */
  lemma {:induction false} PassesOver(d: Sys, w: Worker, rest: seq<Row>, k: nat) returns (steps: seq<Step>)
    requires d.up && w in d.phase && d.phase[w] == Between(rest) && w != Remover && k <= |rest| && d.owed == map[]
    ensures Leads(d, steps, Moved(d, w, Between(rest[k..])))
    decreases k
  {
    hide Enabled, After, Overwriting, Writes, Leads;
    NoStep(d);
    steps := [];
    if k == 0 {
      assert rest[0..] == rest && Moved(d, w, Between(rest)) == d;
    } else {
      var handling := Overwriting(w, rest[0]);
      OverwritingWrites(w, rest[0], d.carry);
      var e := Moved(d, w, Running(rest[0], Writes(rest[0], handling), rest[1..], false));
      BeginsTo(d, w, handling, e);
      Then(d, [], d, Begin(w, handling), e);
      var f := Moved(e, w, Between(rest[1..]));
      var on := GetsOn(e, w);
      Joined(d, [] + [Begin(w, handling)], e, on, f);
      var more := PassesOver(f, w, rest[1..], k - 1);
      assert rest[1..][k - 1..] == rest[k..];
      assert Moved(f, w, Between(rest[k..])) == Moved(d, w, Between(rest[k..]));
      Joined(d, [] + [Begin(w, handling)] + on, f, more, Moved(d, w, Between(rest[k..])));
      steps := [] + [Begin(w, handling)] + on + more;
    }
  }

  /** From between two jobs the worker gets to any job of its batch and overwrites it. */
  lemma OverwritesLater(d: Sys, w: Worker, rest: seq<Row>, k: nat) returns (steps: seq<Step>)
    requires d.up && w in d.phase && d.phase[w] == Between(rest) && w != Remover && k < |rest| && d.owed == map[]
    requires Keyed(d.table) && UniqueOpen(d.table) && rest[k].id in d.table && !Closed(d.table[rest[k].id].state)
    requires rest[k].key == d.table[rest[k].id].key
    ensures Legal(d, steps) && !Deleted(Run(d, steps), rest[k].id)
  {
    hide Enabled, After, Deleted;
    var first := PassesOver(d, w, rest, k);
    var e := Moved(d, w, Between(rest[k..]));
    var last := Overwrites(e, w, rest[k..], rest[k].id);
    RunsJoin(d, first, last);
    steps := first + last;
  }

  // Deletes.

  /** The state after a delete, whoever has the job in hand. */
  lemma DeletedState(s: Sys, d: nat, now: T.Time, n: nat)
    requires Inv(s) && Enabled(s, Delete(d, now, n)) && s.deletes[d].id !in s.stale
    ensures var t, id := After(s, Delete(d, now, n)), s.deletes[d].id;
            && t.table == PutRow(s.table, Removal(s.deletes[d], now).row) && Keyed(t.table) && UniqueOpen(t.table)
            && id in t.table && t.table[id].state == RemovePending && t.table[id].key == s.table[id].key
            && t.phase == s.phase && t.requests == s.requests && t.carry == s.carry && t.up
  {
    hide UniqueOpen, IndexAllows, JobOk, WorkersOk, RequestsOk, OwedOk, After;
    DeleteResult(s, d, now, n);
    assert CopyOk(s, s.deletes[d]);
    var removal := Unclaimed(Removal(s.deletes[d], now).row);
    ClaimIsNoMatter(Removal(s.deletes[d], now).row, s.table);
    IndexIsUniqueness(s.table, removal);
  }

  /** Where a job is in the hands of a worker. */
  lemma WhereHeld(s: Sys, w: Worker, id: Id)
    requires WorkersOk(s) && InHandOf(s, w, id)
    ensures var p := s.phase[w];
            p.Claimed? || (p.Running? && p.todo != [] && p.mem.id == id)
            || ((p.Between? || p.Running? || p.Releasing?) && Fetched(s.table, s.stale, w, p.rest) && id in Ids(p.rest))
  {
    hide Fetched, AtWork;
    assert WorkerOk(s.table, s.stale, s.carry, w, s.phase[w]);
  }

  lemma PlaceInBatch(table: Table, stale: set<Id>, w: Worker, rest: seq<Row>, id: Id) returns (k: nat)
    requires Fetched(table, stale, w, rest) && id in Ids(rest) && id !in stale
    ensures k < |rest| && rest[k].id == id && id in table && rest[k].key == table[id].key
  {
    k :| 0 <= k < |rest| && rest[k].id == id;
    assert Fresh(table, stale, w, rest[k]);
  }

  /** While a worker other than the remover has the job in hand, some run undoes the delete. */
  lemma UndoneByWorker(s: Sys, d: nat, now: T.Time, n: nat, w: Worker) returns (steps: seq<Step>)
    requires Inv(s) && Enabled(s, Delete(d, now, n)) && s.deletes[d].id !in s.stale
    requires w != Remover && InHandOf(s, w, s.deletes[d].id)
    ensures Legal(After(s, Delete(d, now, n)), steps)
    ensures !Deleted(Run(After(s, Delete(d, now, n)), steps), s.deletes[d].id)
  {
    hide After, Deleted, JobsOk, RequestsOk, CopiesOk, OwedOk, IndexAllows, WorkersOk, Fetched, Legal, UniqueOpen, Leads;
    var id := s.deletes[d].id;
    DeletedState(s, d, now, n);
    HandsClaimable(s, w, id);
    var first, logs := AllLogged(After(s, Delete(d, now, n)));
    var t := After(s, Delete(d, now, n)).(logs := logs, owed := map[]);
    var more := UndoneQuietly(s, t, w, id);
    LedThere(After(s, Delete(d, now, n)), first, t);
    RunsJoin(After(s, Delete(d, now, n)), first, more);
    steps := first + more;
  }

  lemma UndoneQuietly(s: Sys, t: Sys, w: Worker, id: Id) returns (steps: seq<Step>)
    requires Inv(s) && w != Remover && InHandOf(s, w, id) && id !in s.stale && id in s.table
    requires t.up && t.owed == map[] && t.phase == s.phase && Keyed(t.table) && UniqueOpen(t.table)
    requires id in t.table && t.table[id].state == RemovePending && t.table[id].key == s.table[id].key
    ensures Legal(t, steps) && !Deleted(Run(t, steps), id)
  {
    hide Deleted, JobsOk, RequestsOk, CopiesOk, OwedOk, WorkersOk, Fetched, Legal, UniqueOpen;
    WhereHeld(s, w, id);
    var p := s.phase[w];
    if p.Claimed? {
      steps := UndoneAfterFetch(t, w, id);
    } else if p.Running? && p.todo != [] && p.mem.id == id {
      steps := UndoneByWrite(s, t, w, id);
    } else {
      var k := PlaceInBatch(s.table, s.stale, w, p.rest, id);
      steps := UndoneLater(t, w, p.rest, k);
    }
  }

  lemma UndoneLater(d: Sys, w: Worker, rest: seq<Row>, k: nat) returns (steps: seq<Step>)
    requires d.up && w in d.phase && (d.phase[w].Between? || d.phase[w].Running? || d.phase[w].Releasing?)
    requires d.phase[w].rest == rest && d.owed == map[]
    requires w != Remover && k < |rest|
    requires Keyed(d.table) && UniqueOpen(d.table) && rest[k].id in d.table && !Closed(d.table[rest[k].id].state)
    requires rest[k].key == d.table[rest[k].id].key
    ensures Legal(d, steps) && !Deleted(Run(d, steps), rest[k].id)
  {
    hide Enabled, After, Deleted;
    if d.phase[w].Between? {
      steps := OverwritesLater(d, w, rest, k);
      return;
    }
    var first := GetsOn(d, w);
    var last := OverwritesLater(Moved(d, w, Between(rest)), w, rest, k);
    RunsJoin(d, first, last);
    steps := first + last;
  }

  /** The fetch after a claim reads the row again, but not its state. */
  lemma UndoneAfterFetch(d: Sys, w: Worker, id: Id) returns (steps: seq<Step>)
    requires d.up && w in d.phase && d.phase[w].Claimed? && id in Hands(d.phase[w]) && w != Remover && d.owed == map[]
    requires Keyed(d.table) && UniqueOpen(d.table) && id in d.table && !Closed(d.table[id].state)
    ensures Legal(d, steps) && !Deleted(Run(d, steps), id)
  {
    var batch := [d.table[id]];
    var e := Moved(d, w, Between(batch));
    assert Enabled(d, Fetch(w, batch)) && After(d, Fetch(w, batch)) == e;
    hide Enabled, After, Deleted;
    NoStep(d);
    Then(d, [], d, Fetch(w, batch), e);
    var last := Overwrites(e, w, batch, id);
    RunsJoin(d, [] + [Fetch(w, batch)], last);
    steps := [] + [Fetch(w, batch)] + last;
  }

  /** A write that was made from the job as it was before the delete. */
  lemma UndoneByWrite(s: Sys, d: Sys, w: Worker, id: Id) returns (steps: seq<Step>)
    requires Inv(s) && w in s.phase && s.phase[w].Running? && s.phase[w].todo != [] && s.phase[w].mem.id == id
    requires d.up && d.phase == s.phase && Keyed(d.table) && UniqueOpen(d.table) && w != Remover && id !in s.stale
    requires d.owed == map[]
    requires id in s.table && id in d.table && d.table[id].key == s.table[id].key && !Closed(d.table[id].state)
    ensures Legal(d, steps) && !Deleted(Run(d, steps), id)
  {
    hide Enabled, JobsOk, WorkersOk, RequestsOk, CopiesOk, OwedOk, IndexAllows, UniqueOpen;
    WriteStates(s, w);
    var p := d.phase[w];
    NotYetDeleted(s, w, id);
    OwnKeyAllowed(d.table, p.todo[0].row);
    var e := Moved(Written(d, p.todo[0], 0, Some(w)), w, Running(p.todo[0].row, p.todo[1..], p.rest, false));
    WritesTo(d, w, e);
    hide After;
    NoStep(d);
    Then(d, [], d, Step.Write(w, 0), e);
    steps := [] + [Step.Write(w, 0)];
  }

  /** So does the queueing of a request that was accepted before. */
  lemma UndoneByApi(s: Sys, d: nat, now: T.Time, n: nat) returns (steps: seq<Step>)
    requires Inv(s) && Enabled(s, Delete(d, now, n)) && s.deletes[d].id !in s.stale
    requires s.deletes[d].id in s.requests
    ensures Legal(After(s, Delete(d, now, n)), steps)
    ensures !Deleted(Run(After(s, Delete(d, now, n)), steps), s.deletes[d].id)
  {
    RequestKnown(s, s.deletes[d].id);
    hide After, JobsOk, WorkersOk, RequestsOk, CopiesOk, OwedOk, Written, IndexAllows, UniqueOpen, Leads;
    var id := s.deletes[d].id;
    DeletedState(s, d, now, n);
    var first, logs := AllLogged(After(s, Delete(d, now, n)));
    var t := After(s, Delete(d, now, n)).(logs := logs, owed := map[]);
    OwnKeyAllowed(t.table, Queued(s.requests[id].row, now).row);
    var e := Written(t, Queued(s.requests[id].row, now), 0, None).(requests := t.requests - {id});
    QueuesTo(t, id, now, e);
    hide Enabled, Deleted;
    Then(After(s, Delete(d, now, n)), first, t, Queue(id, now, 0), e);
    steps := first + [Queue(id, now, 0)];
    LedThere(After(s, Delete(d, now, n)), steps, e);
  }

  lemma QueuesTo(d: Sys, id: Id, now: T.Time, e: Sys)
    requires d.up && id in d.requests && d.requests[id].Inserted? && d.requests[id].row.id == id && id in d.table
    requires NewRow(d.requests[id].row) && d.owed == map[]
    requires IndexAllows(d.table, Queued(d.requests[id].row, now).row)
    requires e == Written(d, Queued(d.requests[id].row, now), 0, None).(requests := d.requests - {id})
    ensures Enabled(d, Queue(id, now, 0)) && After(d, Queue(id, now, 0)) == e && !Deleted(e, id)
  {
  }

  /** A delete survives whatever comes after it exactly when nobody but the remover has the job in
      hand as it is written. */
  lemma DeleteSurvivesExactly(s: Sys, d: nat, now: T.Time, n: nat)
    requires Inv(s) && Enabled(s, Delete(d, now, n)) && s.deletes[d].id !in s.stale
    ensures var t := After(s, Delete(d, now, n));
            Unheld(s, s.deletes[d].id) <==> forall steps | Legal(t, steps) :: Deleted(Run(t, steps), s.deletes[d].id)
  {
    hide Inv, After, Deleted, Legal, Run, IndexAllows;
    var t, id := After(s, Delete(d, now, n)), s.deletes[d].id;
    if Unheld(s, id) {
      forall steps | Legal(t, steps) ensures Deleted(Run(t, steps), id) {
        DeleteIsFinal(s, d, now, n, steps);
      }
    } else if id in s.requests {
      var steps := UndoneByApi(s, d, now, n);
    } else {
      var w: Worker :| w != Remover && InHandOf(s, w, id);
      var steps := UndoneByWorker(s, d, now, n, w);
    }
  }

  /** In every run of the service. */
  lemma DeletesOfRuns(carry: bool, run: seq<Step>, d: nat, now: T.Time, n: nat)
    requires Legal(Initial(carry), run) && Enabled(Run(Initial(carry), run), Delete(d, now, n))
    requires Undisturbed(Initial(carry), run, Run(Initial(carry), run).deletes[d].id)
    ensures var s := Run(Initial(carry), run);
            var t := After(s, Delete(d, now, n));
            Unheld(s, s.deletes[d].id) <==> forall steps | Legal(t, steps) :: Deleted(Run(t, steps), s.deletes[d].id)
  {
    hide After, Deleted, Unheld, Undisturbed, IndexAllows;
    ReachableFor(carry, run, Run(Initial(carry), run).deletes[d].id);
    DeleteSurvivesExactly(Run(Initial(carry), run), d, now, n);
  }

  // Runs that lead there, with one job in the service.

  /** One job, with one worker at it and the others idle, and delete requests that have read it. */
  function Busy(row: Row, log: seq<Event>, w: Worker, p: Phase, copies: map<nat, Row>, carry: bool): Sys
  {
    Sys(map[row.id := row], map[row.id := log], map[], STOPPED[w := p], map[], copies, {row.id}, {}, true, carry)
  }

  function ClaimedBy(row: Row, w: Worker): Row { row.(claimedBy := Some(w)) }

  lemma AllIdle(w: Worker)
    ensures STOPPED[w := Idle] == STOPPED
  {
  }

  lemma OneClaims(row: Row, log: seq<Event>, w: Worker, copies: map<nat, Row>, carry: bool)
    requires row.state in ClaimSet(w) && row.claimedBy.None?
    ensures var s, t := Busy(row, log, w, Idle, copies, carry),
                        Busy(ClaimedBy(row, w), log, w, Claimed([row.id]), copies, carry);
            Enabled(s, Claim(w, [row.id])) && After(s, Claim(w, [row.id])) == t
  {
    var s := Busy(row, log, w, Idle, copies, carry);
    assert ClaimRows(s.table, [row.id], w) == map[row.id := ClaimedBy(row, w)];
    assert STOPPED[w := Idle][w := Claimed([row.id])] == STOPPED[w := Claimed([row.id])];
  }

  lemma OneFetches(row: Row, log: seq<Event>, w: Worker, copies: map<nat, Row>, carry: bool)
    ensures var s, t := Busy(row, log, w, Claimed([row.id]), copies, carry),
                        Busy(row, log, w, Between([row]), copies, carry);
            Enabled(s, Fetch(w, [row])) && After(s, Fetch(w, [row])) == t
  {
    assert [row.id][0] == row.id;
    assert STOPPED[w := Claimed([row.id])][w := Between([row])] == STOPPED[w := Between([row])];
  }

  lemma OneBegins(row: Row, log: seq<Event>, w: Worker, handling: Handling, copies: map<nat, Row>, carry: bool)
    requires Handles(w, row, handling, carry)
    ensures var s, t := Busy(row, log, w, Between([row]), copies, carry),
                        Busy(row, log, w, Running(row, Writes(row, handling), [], false), copies, carry);
            Enabled(s, Begin(w, handling)) && After(s, Begin(w, handling)) == t
  {
    var p := Running(row, Writes(row, handling), [], false);
    assert [row][1..] == [];
    assert STOPPED[w := Between([row])][w := p] == STOPPED[w := p];
  }

  /** The taking up of the job by a worker. */
  lemma TakesUp(row: Row, log: seq<Event>, w: Worker, handling: Handling, copies: map<nat, Row>, carry: bool)
    returns (steps: seq<Step>)
    requires row.state in ClaimSet(w) && row.claimedBy.None? && Handles(w, ClaimedBy(row, w), handling, carry)
    ensures var c := ClaimedBy(row, w);
            Leads(Busy(row, log, w, Idle, copies, carry), steps,
                  Busy(c, log, w, Running(c, Writes(c, handling), [], false), copies, carry))
  {
    hide Enabled, After, Leads, Busy, Writing, Writes, Handles;
    var c, s := ClaimedBy(row, w), Busy(row, log, w, Idle, copies, carry);
    OneClaims(row, log, w, copies, carry);
    OneFetches(c, log, w, copies, carry);
    OneBegins(c, log, w, handling, copies, carry);
    NoStep(s);
    Then(s, [], s, Claim(w, [row.id]), Busy(c, log, w, Claimed([row.id]), copies, carry));
    Then(s, [] + [Claim(w, [row.id])], Busy(c, log, w, Claimed([row.id]), copies, carry), Fetch(w, [c]),
         Busy(c, log, w, Between([c]), copies, carry));
    Then(s, [] + [Claim(w, [row.id])] + [Fetch(w, [c])], Busy(c, log, w, Between([c]), copies, carry), Begin(w, handling),
         Busy(c, log, w, Running(c, Writes(c, handling), [], false), copies, carry));
    steps := [] + [Claim(w, [row.id])] + [Fetch(w, [c])] + [Begin(w, handling)];
  }

  /** The worker has written a row, and its event is still to be logged. */
  function Writing(row: Row, log: seq<Event>, w: Worker, p: Phase, e: Event, writer: Option<Worker>,
                   copies: map<nat, Row>, carry: bool): Sys
  {
    Busy(row, log, w, p, copies, carry).(owed := map[0 := Owed(row.id, e, writer)])
  }

  lemma OneWrites(row: Row, log: seq<Event>, w: Worker, todo: seq<Jobs.Write>, copies: map<nat, Row>, carry: bool)
    requires todo != [] && todo[0].row.id == row.id && todo[0].event.Some?
    ensures var write := todo[0];
            var p := Running(write.row, todo[1..], [], false);
            var s := Busy(row, log, w, Running(row, todo, [], false), copies, carry);
            var t := Writing(Unclaimed(write.row), log, w, p, write.event.value, Some(w), copies, carry);
            Enabled(s, Step.Write(w, 0)) && After(s, Step.Write(w, 0)) == t
  {
    var s, write := Busy(row, log, w, Running(row, todo, [], false), copies, carry), todo[0];
    var p := Running(write.row, todo[1..], [], false);
    assert STOPPED[w := Running(row, todo, [], false)][w := p] == STOPPED[w := p];
    var t := Written(s, write, 0, Some(w));
    assert t.table == map[row.id := Unclaimed(write.row)];
    assert t.owed == map[0 := Owed(row.id, write.event.value, Some(w))];
  }

  lemma OneLogs(row: Row, log: seq<Event>, w: Worker, p: Phase, e: Event, writer: Option<Worker>,
                copies: map<nat, Row>, carry: bool)
    ensures var s, t := Writing(row, log, w, p, e, writer, copies, carry), Busy(row, log + [e], w, p, copies, carry);
            Enabled(s, Log(0)) && After(s, Log(0)) == t
  {
    LogsOne(Writing(row, log, w, p, e, writer, copies, carry), 0);
    assert map[row.id := log][row.id := log + [e]] == map[row.id := log + [e]];
  }

  lemma OneFinishes(row: Row, log: seq<Event>, w: Worker, mem: Row, copies: map<nat, Row>, carry: bool)
    requires mem.id == row.id
    ensures var s, t := Busy(row, log, w, Running(mem, [], [], false), copies, carry),
                        Busy(row, log, w, Releasing(row.id, []), copies, carry);
            Enabled(s, Finish(w)) && After(s, Finish(w)) == t
  {
    assert STOPPED[w := Running(mem, [], [], false)][w := Releasing(row.id, [])] == STOPPED[w := Releasing(row.id, [])];
  }

  lemma OneReleases(row: Row, log: seq<Event>, w: Worker, copies: map<nat, Row>, carry: bool)
    requires row.claimedBy.None?
    ensures var s, t := Busy(row, log, w, Releasing(row.id, []), copies, carry),
                        Busy(row, log, w, Between([]), copies, carry);
            Enabled(s, Release(w, true)) && After(s, Release(w, true)) == t
  {
    assert map[row.id := row][row.id := Unclaimed(row)] == map[row.id := row];
    assert STOPPED[w := Releasing(row.id, [])][w := Between([])] == STOPPED[w := Between([])];
  }

  lemma OneEnds(row: Row, log: seq<Event>, w: Worker, copies: map<nat, Row>, carry: bool)
    ensures var s, t := Busy(row, log, w, Between([]), copies, carry), Busy(row, log, w, Idle, copies, carry);
            Enabled(s, EndBatch(w)) && After(s, EndBatch(w)) == t
  {
    assert STOPPED[w := Between([])][w := Idle] == STOPPED[w := Idle];
  }

  /** A pass of a worker over the job, up to where it is about to release the job. */
  lemma Handled(row: Row, log: seq<Event>, w: Worker, handling: Handling, copies: map<nat, Row>, carry: bool)
    returns (steps: seq<Step>)
    requires row.state in ClaimSet(w) && row.claimedBy.None? && Handles(w, ClaimedBy(row, w), handling, carry)
    requires var ws := Writes(ClaimedBy(row, w), handling);
             |ws| == 1 && ws[0].row.id == row.id && ws[0].event.Some?
    ensures var write := Writes(ClaimedBy(row, w), handling)[0];
            Leads(Busy(row, log, w, Idle, copies, carry), steps,
                  Busy(Unclaimed(write.row), log + [write.event.value], w, Releasing(row.id, []), copies, carry))
  {
    hide Enabled, After, Leads, Busy, Writing, Writes, Handles;
    var c, s := ClaimedBy(row, w), Busy(row, log, w, Idle, copies, carry);
    var ws := Writes(c, handling);
    var next, longer := Unclaimed(ws[0].row), log + [ws[0].event.value];
    assert ws[1..] == [];
    var first := TakesUp(row, log, w, handling, copies, carry);
    var p, e := Running(ws[0].row, [], [], false), ws[0].event.value;
    OneWrites(c, log, w, ws, copies, carry);
    OneLogs(next, log, w, p, e, Some(w), copies, carry);
    OneFinishes(next, longer, w, ws[0].row, copies, carry);
    Then(s, first, Busy(c, log, w, Running(c, ws, [], false), copies, carry), Step.Write(w, 0),
         Writing(next, log, w, p, e, Some(w), copies, carry));
    Then(s, first + [Step.Write(w, 0)], Writing(next, log, w, p, e, Some(w), copies, carry), Log(0),
         Busy(next, longer, w, p, copies, carry));
    Then(s, first + [Step.Write(w, 0)] + [Log(0)], Busy(next, longer, w, p, copies, carry), Finish(w),
         Busy(next, longer, w, Releasing(row.id, []), copies, carry));
    steps := first + [Step.Write(w, 0)] + [Log(0)] + [Finish(w)];
  }

  /** A whole pass of a worker over the job, after which another may take it up. */
  lemma Passed(row: Row, log: seq<Event>, w: Worker, handling: Handling, v: Worker, copies: map<nat, Row>, carry: bool)
    returns (steps: seq<Step>)
    requires row.state in ClaimSet(w) && row.claimedBy.None? && Handles(w, ClaimedBy(row, w), handling, carry)
    requires var ws := Writes(ClaimedBy(row, w), handling);
             |ws| == 1 && ws[0].row.id == row.id && ws[0].event.Some?
    ensures var write := Writes(ClaimedBy(row, w), handling)[0];
            Leads(Busy(row, log, w, Idle, copies, carry), steps,
                  Busy(Unclaimed(write.row), log + [write.event.value], v, Idle, copies, carry))
  {
    hide Enabled, After, Leads, Writes, Handles;
    var s, write := Busy(row, log, w, Idle, copies, carry), Writes(ClaimedBy(row, w), handling)[0];
    var next, longer := Unclaimed(write.row), log + [write.event.value];
    var first := Handled(row, log, w, handling, copies, carry);
    OneReleases(next, longer, w, copies, carry);
    OneEnds(next, longer, w, copies, carry);
    Then(s, first, Busy(next, longer, w, Releasing(row.id, []), copies, carry), Release(w, true),
         Busy(next, longer, w, Between([]), copies, carry));
    Then(s, first + [Release(w, true)], Busy(next, longer, w, Between([]), copies, carry), EndBatch(w),
         Busy(next, longer, w, Idle, copies, carry));
    AllIdle(w);
    AllIdle(v);
    assert Busy(next, longer, w, Idle, copies, carry) == Busy(next, longer, v, Idle, copies, carry);
    steps := first + [Release(w, true)] + [EndBatch(w)];
  }

  /** A delete request copies the job. */
  lemma OneReads(row: Row, log: seq<Event>, w: Worker, p: Phase, copies: map<nat, Row>, carry: bool, n: nat)
    requires n !in copies && row.state != Removed && row.state != RemovePending
    ensures var s, t := Busy(row, log, w, p, copies, carry), Busy(row, log, w, p, copies[n := row], carry);
            Enabled(s, ReadDelete(n, row.id)) && After(s, ReadDelete(n, row.id)) == t
  {
  }

  /** A delete request writes the job back, in time. */
  lemma OneDeletes(row: Row, log: seq<Event>, w: Worker, copies: map<nat, Row>, carry: bool, d: nat, now: T.Time)
    requires d in copies && copies[d] == row
    ensures var removal := Removal(row, now);
            var s, t := Busy(row, log, w, Idle, copies, carry),
                        Writing(Unclaimed(removal.row), log, w, Idle, removal.event.value, None, copies - {d}, carry);
            Enabled(s, Delete(d, now, 0)) && After(s, Delete(d, now, 0)) == t
  {
    var s, removal := Busy(row, log, w, Idle, copies, carry), Removal(row, now);
    AllIdle(w);
    assert !InHand(s, row.id);
    assert Timely(s, d);
    var t := Written(s, removal, 0, None);
    assert t.table == map[row.id := Unclaimed(removal.row)];
    assert t.owed == map[0 := Owed(row.id, removal.event.value, None)];
  }

  const CREATED := Submit.Created("1", "", "", "", "")
  const READY := Poll.Status("1", "", "", "", "", "", 0, 0, true, false, false, "")
  const ANSWERS := Poll.Answers(Poll.Found(READY), Poll.Missing, Poll.Missing, 0, 0)

  lemma IdTrimmed()
    ensures Submit.Ptr(Text.TrimSpace("1")) == Some("1")
  {
    Text.TrimKeeps("1");
    hide Text.TrimSpace;
  }

  /** The remote service takes the job at once. */
  lemma SubmitterWrites(row: Row, carry: bool)
    requires row.state == SubmitPending
    ensures Handles(Submitter, row, Submitting(CREATED, 0, 0), carry)
    ensures var ws := Writes(row, Submitting(CREATED, 0, 0));
            && |ws| == 1 && ws[0].row.id == row.id && ws[0].event == Some(Event(Some(SubmitPending), RemoteActive))
            && ws[0].row.state == RemoteActive && ws[0].row.remoteId.Some? && ws[0].row.completedPath == row.completedPath
  {
    hide Text.TrimSpace, Submit.Placeholder;
    IdTrimmed();
  }

  /** It has the files at once, too. */
  lemma PollerWrites(row: Row, carry: bool)
    requires row.state == RemoteActive && row.remoteId.Some?
    ensures Handles(Poller, row, Polling(ANSWERS), carry)
    ensures var ws := Writes(row, Polling(ANSWERS));
            && |ws| == 1 && ws[0].row.id == row.id
            && ws[0].event == Some(Event(Some(RemoteActive), LocalDownloadPending))
            && ws[0].row.state == LocalDownloadPending && ws[0].row.completedPath == row.completedPath
  {
  }

  /** The log of a job as it is handed over to the downloader at once. */
  const HANDED_OVER: seq<Event> :=
    [Event(None, Accepted), Event(Some(Accepted), SubmitPending), Event(Some(SubmitPending), RemoteActive),
     Event(Some(RemoteActive), LocalDownloadPending)]

  /** A new job gets as far as the downloader. */
  lemma HandedOver(row: Row, now: T.Time, carry: bool) returns (steps: seq<Step>, ready: Row)
    requires NewRow(row)
    ensures Leads(Initial(carry), steps, Busy(ready, HANDED_OVER, Downloader, Idle, map[], carry))
    ensures ready.id == row.id && ready.state == LocalDownloadPending
    ensures ready.claimedBy.None? && ready.completedPath.None?
  {
    hide Enabled, After, Leads, Legal, Run, Writes, Handles;
    AnEnqueueRuns(row, now, carry);
    steps := Enqueue(row, now);
    ready := Unclaimed(Queued(row, now).row);
    var log := [Event(None, Accepted), Event(Some(Accepted), SubmitPending)];
    AllIdle(Submitter);
    assert OneQueued(row, now, carry) == Busy(ready, log, Submitter, Idle, map[], carry);

    var c := ClaimedBy(ready, Submitter);
    SubmitterWrites(c, carry);
    var write := Writes(c, Submitting(CREATED, 0, 0))[0];
    var more := Passed(ready, log, Submitter, Submitting(CREATED, 0, 0), Poller, map[], carry);
    Joined(Initial(carry), steps, Busy(ready, log, Submitter, Idle, map[], carry), more,
           Busy(Unclaimed(write.row), log + [write.event.value], Poller, Idle, map[], carry));
    steps, ready, log := steps + more, Unclaimed(write.row), log + [write.event.value];

    c := ClaimedBy(ready, Poller);
    PollerWrites(c, carry);
    write := Writes(c, Polling(ANSWERS))[0];
    more := Passed(ready, log, Poller, Polling(ANSWERS), Downloader, map[], carry);
    assert log + [write.event.value] == HANDED_OVER;
    Joined(Initial(carry), steps, Busy(ready, log, Poller, Idle, map[], carry), more,
           Busy(Unclaimed(write.row), HANDED_OVER, Downloader, Idle, map[], carry));
    steps, ready := steps + more, Unclaimed(write.row);
  }

  /** A downloader about to make a download visible, and then to give its attempt up. */
  function Appearing(c: Row): seq<Jobs.Write>
  {
    var first := SaveState(c, LocalDownloading);
    [first, SaveState(first.row, LocalDownloading)]
  }

  lemma AppearsAtOnce(c: Row, carry: bool)
    ensures var handling := Handling.Downloading(Appearing(c));
            Handles(Downloader, c, handling, carry) && Writes(c, handling) == Appearing(c)
  {
  }

  /** Any new job can get there. */
  lemma AboutToAppear(row: Row, now: T.Time, carry: bool) returns (steps: seq<Step>)
    requires NewRow(row)
    ensures Legal(Initial(carry), steps)
    ensures var s := Run(Initial(carry), steps);
            && Downloader in s.phase && s.phase[Downloader].Running? && s.phase[Downloader].mem.id == row.id
            && s.phase[Downloader].todo == Appearing(s.phase[Downloader].mem)
            && Enabled(s, Skip(Downloader)) && Enabled(s, Step.Write(Downloader, 0)) && s.owed == map[]
            && row.id in s.table && s.table[row.id].state == LocalDownloadPending && row.id !in s.stale && Told(s, row.id)
  {
    hide Enabled, After, Legal, Run;
    var ready;
    steps, ready := HandedOver(row, now, carry);
    var c := ClaimedBy(ready, Downloader);
    AppearsAtOnce(c, carry);
    var more := TakesUp(ready, HANDED_OVER, Downloader, Handling.Downloading(Appearing(c)), map[], carry);
    var s := Busy(c, HANDED_OVER, Downloader, Running(c, Appearing(c), [], false), map[], carry);
    Joined(Initial(carry), steps, Busy(ready, HANDED_OVER, Downloader, Idle, map[], carry), more, s);
    steps := steps + more;
    AtTheDownloader(c, carry);
  }

  lemma AtTheDownloader(c: Row, carry: bool)
    requires c.state == LocalDownloadPending
    ensures var s := Busy(c, HANDED_OVER, Downloader, Running(c, Appearing(c), [], false), map[], carry);
            Enabled(s, Skip(Downloader)) && Enabled(s, Step.Write(Downloader, 0)) && s.owed == map[] && Told(s, c.id)
  {
  }

  /** A log breaks in a run of the service. */
  lemma AChainBreaks(row: Row, now: T.Time, carry: bool) returns (steps: seq<Step>)
    requires NewRow(row)
    ensures Legal(Initial(carry), steps)
    ensures !Chain(LogOf(Run(Initial(carry), steps).logs, row.id))
  {
    hide Enabled, After, Inv, Told, Chain;
    var front := AboutToAppear(row, now, carry);
    var s := Run(Initial(carry), front);
    Reachable(carry, front);
    SkipBreaksChain(s, 0);
    Extend(Initial(carry), front, Skip(Downloader));
    Extend(Initial(carry), front + [Skip(Downloader)], Step.Write(Downloader, 0));
    Extend(Initial(carry), front + [Skip(Downloader)] + [Step.Write(Downloader, 0)], Log(0));
    steps := front + [Skip(Downloader)] + [Step.Write(Downloader, 0)] + [Log(0)];
  }

  /** A delete request reads a job before the downloader takes it up. */
  lemma TakenAfterRead(row: Row, now: T.Time, carry: bool) returns (idle: seq<Step>, taken: seq<Step>, ready: Row)
    requires NewRow(row)
    ensures ready.id == row.id && ready.state == LocalDownloadPending
    ensures Leads(Initial(carry), idle, Busy(ready, HANDED_OVER, Downloader, Idle, map[], carry))
    ensures Leads(Initial(carry), idle + [ReadDelete(0, row.id)] + taken, Taken(ready, carry))
  {
    hide Enabled, After, Leads, Handles, Writes;
    idle, ready := HandedOver(row, now, carry);
    var c := ClaimedBy(ready, Downloader);
    var handling := Handling.Downloading(Appearing(c));
    AppearsAtOnce(c, carry);
    OneReads(ready, HANDED_OVER, Downloader, Idle, map[], carry, 0);
    var copies: map<nat, Row> := map[0 := ready];
    assert map[][0 := ready] == copies;
    taken := TakesUp(ready, HANDED_OVER, Downloader, handling, copies, carry);
    Then(Initial(carry), idle, Busy(ready, HANDED_OVER, Downloader, Idle, map[], carry), ReadDelete(0, row.id),
         Busy(ready, HANDED_OVER, Downloader, Idle, copies, carry));
    Joined(Initial(carry), idle + [ReadDelete(0, row.id)],
           Busy(ready, HANDED_OVER, Downloader, Idle, copies, carry), taken,
           Taken(ready, carry));
  }

  /** The downloader at the job, with a delete request that has read it before. */
  function Taken(ready: Row, carry: bool): Sys
  {
    var c := ClaimedBy(ready, Downloader);
    Busy(c, HANDED_OVER, Downloader, Running(c, Appearing(c), [], false), map[0 := ready], carry)
  }

  // Events logged out of turn.

  /** One job, the submitter and the poller at it, and the other workers idle. */
  function Pair(row: Row, log: seq<Event>, owed: map<nat, Owed>, p: Phase, q: Phase, carry: bool): Sys
  {
    Sys(map[row.id := row], map[row.id := log], owed, STOPPED[Submitter := p][Poller := q], map[], map[], {row.id}, {},
        true, carry)
  }

  lemma PollerTakesUp(row: Row, log: seq<Event>, owed: map<nat, Owed>, p: Phase, carry: bool)
    requires row.state == RemoteActive && row.remoteId.Some? && row.claimedBy.None?
    ensures var c := ClaimedBy(row, Poller);
            var s0, s1 := Pair(row, log, owed, p, Idle, carry), Pair(c, log, owed, p, Claimed([row.id]), carry);
            var s2 := Pair(c, log, owed, p, Between([c]), carry);
            var s3 := Pair(c, log, owed, p, Running(c, Writes(c, Polling(ANSWERS)), [], false), carry);
            && Enabled(s0, Claim(Poller, [row.id])) && After(s0, Claim(Poller, [row.id])) == s1
            && Enabled(s1, Fetch(Poller, [c])) && After(s1, Fetch(Poller, [c])) == s2
            && Enabled(s2, Begin(Poller, Polling(ANSWERS))) && After(s2, Begin(Poller, Polling(ANSWERS))) == s3
  {
    hide Writes;
    var c := ClaimedBy(row, Poller);
    PairClaims(row, log, owed, p, carry);
    PairFetches(c, log, owed, p, carry);
    PollerWrites(c, carry);
    PairBegins(c, log, owed, p, carry);
  }

  lemma PairClaims(row: Row, log: seq<Event>, owed: map<nat, Owed>, p: Phase, carry: bool)
    requires row.state == RemoteActive && row.claimedBy.None?
    ensures var s, t := Pair(row, log, owed, p, Idle, carry),
                        Pair(ClaimedBy(row, Poller), log, owed, p, Claimed([row.id]), carry);
            Enabled(s, Claim(Poller, [row.id])) && After(s, Claim(Poller, [row.id])) == t
  {
    var s := Pair(row, log, owed, p, Idle, carry);
    assert ClaimRows(s.table, [row.id], Poller) == map[row.id := ClaimedBy(row, Poller)];
    assert s.phase[Poller := Claimed([row.id])] == STOPPED[Submitter := p][Poller := Claimed([row.id])];
  }

  lemma PairFetches(c: Row, log: seq<Event>, owed: map<nat, Owed>, p: Phase, carry: bool)
    ensures var s, t := Pair(c, log, owed, p, Claimed([c.id]), carry), Pair(c, log, owed, p, Between([c]), carry);
            Enabled(s, Fetch(Poller, [c])) && After(s, Fetch(Poller, [c])) == t
  {
    assert [c.id][0] == c.id;
    var s := Pair(c, log, owed, p, Claimed([c.id]), carry);
    assert s.phase[Poller := Between([c])] == STOPPED[Submitter := p][Poller := Between([c])];
  }

  lemma PairBegins(c: Row, log: seq<Event>, owed: map<nat, Owed>, p: Phase, carry: bool)
    requires Handles(Poller, c, Polling(ANSWERS), carry)
    ensures var s := Pair(c, log, owed, p, Between([c]), carry);
            var t := Pair(c, log, owed, p, Running(c, Writes(c, Polling(ANSWERS)), [], false), carry);
            Enabled(s, Begin(Poller, Polling(ANSWERS))) && After(s, Begin(Poller, Polling(ANSWERS))) == t
  {
    hide Writes;
    var s, q := Pair(c, log, owed, p, Between([c]), carry), Running(c, Writes(c, Polling(ANSWERS)), [], false);
    assert [c][1..] == [];
    assert s.phase[Poller := q] == STOPPED[Submitter := p][Poller := q];
  }

  lemma PairWrites(c: Row, log: seq<Event>, o: Owed, p: Phase, write: Jobs.Write, carry: bool)
    requires o.writer == Some(Submitter) && write.row.id == c.id && write.event.Some?
    ensures var s := Pair(c, log, map[0 := o], p, Running(c, [write], [], false), carry);
            var owed := map[0 := o, 1 := Owed(c.id, write.event.value, Some(Poller))];
            var t := Pair(Unclaimed(write.row), log, owed, p, Running(write.row, [], [], false), carry);
            Enabled(s, Step.Write(Poller, 1)) && After(s, Step.Write(Poller, 1)) == t
  {
    var s, q := Pair(c, log, map[0 := o], p, Running(c, [write], [], false), carry), Running(write.row, [], [], false);
    assert [write][1..] == [];
    assert s.phase[Poller := q] == STOPPED[Submitter := p][Poller := q];
    var t := Written(s, write, 1, Some(Poller));
    assert t.table == map[c.id := Unclaimed(write.row)];
    assert t.owed == map[0 := o, 1 := Owed(c.id, write.event.value, Some(Poller))];
  }

  lemma PairLogs(row: Row, log: seq<Event>, a: Owed, b: Owed, p: Phase, q: Phase, carry: bool)
    requires a.id == b.id == row.id
    ensures var s, t := Pair(row, log, map[0 := a, 1 := b], p, q, carry),
                        Pair(row, log + [b.event], map[0 := a], p, q, carry);
            Enabled(s, Log(1)) && After(s, Log(1)) == t
  {
    assert map[0 := a, 1 := b] - {1} == map[0 := a];
    assert map[row.id := log][row.id := log + [b.event]] == map[row.id := log + [b.event]];
  }

  /** Two events of a chain in the wrong order make none, if they change the state. */
  lemma OutOfTurn(log: seq<Event>, a: Event, b: Event)
    requires Chain(log) && a.from == Some(Replayed(log)) && b.from == Some(a.to) && Changes(a)
    ensures Chain(log + [a] + [b]) && !Chain(log + [b] + [a])
  {
    ChainStep(log, a);
    LogEnds(log + [a], b);
    assert Replayed(log + [a]) == a.to;
    ChainStep(log + [a], b);
    ChainStep(log, b);
    if Chain(log + [b] + [a]) {
      BrokenForGood(log + [b], [a]);
    }
  }
  /** A submitter that has written the row of a new job, but not logged it, with the poller at the job. */
  lemma PollerCatchesUp(row: Row, now: T.Time, carry: bool)
    returns (steps: seq<Step>, c: Row, p: Phase, a: Owed)
    requires NewRow(row)
    ensures c.id == row.id && a == Owed(row.id, Event(Some(SubmitPending), RemoteActive), Some(Submitter))
    ensures c.state == RemoteActive && c.remoteId.Some?
    ensures Leads(Initial(carry), steps,
                  Pair(c, QUEUED, map[0 := a], p, Running(c, Writes(c, Polling(ANSWERS)), [], false), carry))
  {
    hide Enabled, After, Leads, Busy, Pair, Writing, Writes, Handles, Enqueue;
    AnEnqueueRuns(row, now, carry);
    var ready := Unclaimed(Queued(row, now).row);
    QueuedIsBusy(row, now, carry);
    var s := ClaimedBy(ready, Submitter);
    SubmitterWrites(s, carry);
    var ws := Writes(s, Submitting(CREATED, 0, 0));
    var more := TakesUp(ready, QUEUED, Submitter, Submitting(CREATED, 0, 0), map[], carry);
    OneWrites(s, QUEUED, Submitter, ws, map[], carry);
    steps := Enqueue(row, now) + more;
    Joined(Initial(carry), Enqueue(row, now), OneQueued(row, now, carry), more,
           Busy(s, QUEUED, Submitter, Running(s, ws, [], false), map[], carry));
    var next := Unclaimed(ws[0].row);
    p, a := Running(ws[0].row, ws[1..], [], false), Owed(row.id, ws[0].event.value, Some(Submitter));
    WritingIsPair(next, p, a, carry);
    Then(Initial(carry), steps, Busy(s, QUEUED, Submitter, Running(s, ws, [], false), map[], carry),
         Step.Write(Submitter, 0), Pair(next, QUEUED, map[0 := a], p, Idle, carry));
    steps := steps + [Step.Write(Submitter, 0)];
    c := ClaimedBy(next, Poller);
    PollerTakesUp(next, QUEUED, map[0 := a], p, carry);
    Then(Initial(carry), steps, Pair(next, QUEUED, map[0 := a], p, Idle, carry), Claim(Poller, [row.id]),
         Pair(c, QUEUED, map[0 := a], p, Claimed([row.id]), carry));
    steps := steps + [Claim(Poller, [row.id])];
    Then(Initial(carry), steps, Pair(c, QUEUED, map[0 := a], p, Claimed([row.id]), carry), Fetch(Poller, [c]),
         Pair(c, QUEUED, map[0 := a], p, Between([c]), carry));
    steps := steps + [Fetch(Poller, [c])];
    Then(Initial(carry), steps, Pair(c, QUEUED, map[0 := a], p, Between([c]), carry), Begin(Poller, Polling(ANSWERS)),
         Pair(c, QUEUED, map[0 := a], p, Running(c, Writes(c, Polling(ANSWERS)), [], false), carry));
    steps := steps + [Begin(Poller, Polling(ANSWERS))];
  }

  /** The log of a job as it is queued. */
  const QUEUED: seq<Event> := [Event(None, Accepted), Event(Some(Accepted), SubmitPending)]

  lemma QueuedIsBusy(row: Row, now: T.Time, carry: bool)
    ensures OneQueued(row, now, carry) == Busy(Unclaimed(Queued(row, now).row), QUEUED, Submitter, Idle, map[], carry)
  {
    AllIdle(Submitter);
  }

  lemma WritingIsPair(row: Row, p: Phase, a: Owed, carry: bool)
    requires a.id == row.id
    ensures Writing(row, QUEUED, Submitter, p, a.event, a.writer, map[], carry) ==
            Pair(row, QUEUED, map[0 := a], p, Idle, carry)
  {
    assert STOPPED[Submitter := p] == STOPPED[Submitter := p][Poller := Idle];
  }

  /** In a run of the service the events of a job are logged out of turn: the submitter has written its
      row, the poller takes the job up, writes it and logs that, and only then the submitter does. No
      statement fails, and there is no delete. */
  lemma EventsOutOfTurn(row: Row, now: T.Time, carry: bool) returns (steps: seq<Step>)
    requires NewRow(row)
    ensures Legal(Initial(carry), steps)
    ensures var s := Run(Initial(carry), steps);
            s.owed == map[] && s.stale == {} && row.id in s.table && !Chain(LogOf(s.logs, row.id))
  {
    hide Enabled, After, Leads, Pair, Writes, Handles, Chain;
    var c, p, a;
    steps, c, p, a := PollerCatchesUp(row, now, carry);
    PollerWrites(c, carry);
    var write := Writes(c, Polling(ANSWERS))[0];
    assert Writes(c, Polling(ANSWERS)) == [write];
    var b := Owed(row.id, write.event.value, Some(Poller));
    var q, next := Running(write.row, [], [], false), Unclaimed(write.row);
    PairWrites(c, QUEUED, a, p, write, carry);
    PairLogs(next, QUEUED, a, b, p, q, carry);
    LastLogs(next, QUEUED + [b.event], a, p, q, carry);
    Then(Initial(carry), steps, Pair(c, QUEUED, map[0 := a], p, Running(c, [write], [], false), carry),
         Step.Write(Poller, 1), Pair(next, QUEUED, map[0 := a, 1 := b], p, q, carry));
    steps := steps + [Step.Write(Poller, 1)];
    Then(Initial(carry), steps, Pair(next, QUEUED, map[0 := a, 1 := b], p, q, carry), Log(1),
         Pair(next, QUEUED + [b.event], map[0 := a], p, q, carry));
    steps := steps + [Log(1)];
    Then(Initial(carry), steps, Pair(next, QUEUED + [b.event], map[0 := a], p, q, carry), Log(0),
         Pair(next, QUEUED + [b.event] + [a.event], map[], p, q, carry));
    steps := steps + [Log(0)];
    LedThere(Initial(carry), steps, Pair(next, QUEUED + [b.event] + [a.event], map[], p, q, carry));
    PairHas(next, QUEUED + [b.event] + [a.event], p, q, carry);
    QueuedIsChain();
    OutOfTurn(QUEUED, a.event, b.event);
  }

  lemma LastLogs(row: Row, log: seq<Event>, a: Owed, p: Phase, q: Phase, carry: bool)
    requires a.id == row.id
    ensures var s, t := Pair(row, log, map[0 := a], p, q, carry), Pair(row, log + [a.event], map[], p, q, carry);
            Enabled(s, Log(0)) && After(s, Log(0)) == t
  {
    LogsOne(Pair(row, log, map[0 := a], p, q, carry), 0);
    assert map[row.id := log][row.id := log + [a.event]] == map[row.id := log + [a.event]];
  }

  lemma PairHas(row: Row, log: seq<Event>, p: Phase, q: Phase, carry: bool)
    ensures var s := Pair(row, log, map[], p, q, carry);
            s.owed == map[] && s.stale == {} && row.id in s.table && LogOf(s.logs, row.id) == log
  {
  }

  lemma QueuedIsChain()
    ensures Chain(QUEUED) && Replayed(QUEUED) == SubmitPending
  {
  }

  /** A delete is undone in a run of the service, although nobody had the job in hand when the request
      read it: the downloader took it up before the write. */
  lemma ADeleteIsUndone(row: Row, now: T.Time, carry: bool)
    returns (idle: seq<Step>, taken: seq<Step>, after: seq<Step>)
    requires NewRow(row)
    ensures Legal(Initial(carry), idle) && !InHand(Run(Initial(carry), idle), row.id)
    ensures var steps := idle + [ReadDelete(0, row.id)] + taken;
            var s := Run(Initial(carry), steps);
            && Legal(Initial(carry), steps) && Enabled(s, Delete(0, now, 0)) && s.deletes[0].id == row.id
            && AsRead(s.table[row.id], s.deletes[0])
            && Legal(After(s, Delete(0, now, 0)), after) && !Deleted(Run(After(s, Delete(0, now, 0)), after), row.id)
  {
    hide Enabled, After, Deleted, Inv, Legal, Run, Leads, Taken, AsRead, InHand;
    var ready;
    idle, taken, ready := TakenAfterRead(row, now, carry);
    var steps := idle + [ReadDelete(0, row.id)] + taken;
    LedThere(Initial(carry), idle, Busy(ready, HANDED_OVER, Downloader, Idle, map[], carry));
    LedThere(Initial(carry), steps, Taken(ready, carry));
    IdleHoldsNothing(ready, Downloader, map[], carry);
    Reachable(carry, steps);
    DeletableThen(ready, now, carry);
    after := UndoneByWorker(Taken(ready, carry), 0, now, 0, Downloader);
  }

  lemma IdleHoldsNothing(row: Row, w: Worker, copies: map<nat, Row>, carry: bool)
    ensures !InHand(Busy(row, HANDED_OVER, w, Idle, copies, carry), row.id)
  {
    AllIdle(w);
  }

  lemma DeletableThen(ready: Row, now: T.Time, carry: bool)
    requires ready.state == LocalDownloadPending
    ensures var s := Taken(ready, carry);
            && Enabled(s, Delete(0, now, 0)) && InHandOf(s, Downloader, ready.id) && s.stale == {}
            && s.deletes[0].id == ready.id && AsRead(s.table[ready.id], s.deletes[0])
  {
  }

  /** A claim is wiped in a run of the service: the downloader is about to release the job, and the
      finalizer has claimed it. */
  lemma AClaimIsWiped(row: Row, now: T.Time, carry: bool) returns (steps: seq<Step>)
    requires NewRow(row)
    ensures Legal(Initial(carry), steps)
    ensures var s := Run(Initial(carry), steps);
            && Downloader in s.phase && s.phase[Downloader].Releasing? && s.phase[Downloader].id == row.id
            && Enabled(s, Release(Downloader, true)) && InHandOf(s, Finalizer, row.id)
            && row.id in s.table && s.table[row.id].claimedBy == Some(Finalizer)
  {
    hide Enabled, After, Legal, Run, Handles, Writes;
    var ready;
    steps, ready := HandedOver(row, now, carry);
    var c := ClaimedBy(ready, Downloader);
    var handling := Handling.Downloading([SaveState(c, LocalVerify)]);
    VerifiesAtOnce(c, carry);
    var more := Handled(ready, HANDED_OVER, Downloader, handling, map[], carry);
    var done := Unclaimed(SaveState(c, LocalVerify).row);
    var longer := HANDED_OVER + [Event(Some(c.state), LocalVerify)];
    var s := Busy(done, longer, Downloader, Releasing(row.id, []), map[], carry);
    Joined(Initial(carry), steps, Busy(ready, HANDED_OVER, Downloader, Idle, map[], carry), more, s);
    FinalizerClaims(done, longer, carry);
    Extend(Initial(carry), steps + more, Claim(Finalizer, [row.id]));
    steps := steps + more + [Claim(Finalizer, [row.id])];
  }

  lemma VerifiesAtOnce(c: Row, carry: bool)
    requires c.state == LocalDownloadPending
    ensures var handling := Handling.Downloading([SaveState(c, LocalVerify)]);
            Handles(Downloader, c, handling, carry) && Writes(c, handling) == [SaveState(c, LocalVerify)]
  {
  }

  lemma FinalizerClaims(row: Row, log: seq<Event>, carry: bool)
    requires row.state == LocalVerify && row.claimedBy.None?
    ensures var s := Busy(row, log, Downloader, Releasing(row.id, []), map[], carry);
            var t := After(s, Claim(Finalizer, [row.id]));
            && Enabled(s, Claim(Finalizer, [row.id]))
            && Downloader in t.phase && t.phase[Downloader] == Releasing(row.id, [])
            && Enabled(t, Release(Downloader, true))
            && InHandOf(t, Finalizer, row.id) && row.id in t.table && t.table[row.id].claimedBy == Some(Finalizer)
  {
    assert [row.id][0] == row.id;
  }

  // Delete requests that write back what they read too long ago.

  /** The write that completes a job. */
  function Completing(c: Row, path: Path): Jobs.Write { SaveState(c.(completedPath := Some(path)), Completed) }

  lemma CompletesAtOnce(c: Row, path: Path, carry: bool)
    requires c.state == LocalVerify
    ensures var handling := Finalizing([Completing(c, path)]);
            Handles(Finalizer, c, handling, carry) && Writes(c, handling) == [Completing(c, path)]
  {
  }

  const VERIFIED: seq<Event> := HANDED_OVER + [Event(Some(LocalDownloadPending), LocalVerify)]

  /** A new job gets as far as the finalizer, which is about to complete it. */
  lemma AboutToComplete(row: Row, now: T.Time, path: Path, carry: bool) returns (steps: seq<Step>, c: Row)
    requires NewRow(row)
    ensures c.id == row.id && c.state == LocalVerify && c.completedPath.None?
    ensures Leads(Initial(carry), steps,
                  Busy(c, VERIFIED, Finalizer, Running(c, [Completing(c, path)], [], false), map[], carry))
  {
    hide Enabled, After, Legal, Run, Handles, Writes, Leads;
    var ready;
    steps, ready := HandedOver(row, now, carry);
    var s := Busy(ready, HANDED_OVER, Downloader, Idle, map[], carry);
    var d := ClaimedBy(ready, Downloader);
    VerifiesAtOnce(d, carry);
    var more := Passed(ready, HANDED_OVER, Downloader, Handling.Downloading([SaveState(d, LocalVerify)]), Finalizer,
                       map[], carry);
    var verified := Unclaimed(SaveState(d, LocalVerify).row);
    var t := Busy(verified, VERIFIED, Finalizer, Idle, map[], carry);
    Joined(Initial(carry), steps, s, more, t);
    c := ClaimedBy(verified, Finalizer);
    CompletesAtOnce(c, path, carry);
    var last := TakesUp(verified, VERIFIED, Finalizer, Finalizing([Completing(c, path)]), map[], carry);
    Joined(Initial(carry), steps + more, t, last,
           Busy(c, VERIFIED, Finalizer, Running(c, [Completing(c, path)], [], false), map[], carry));
    steps := steps + more + last;
  }

  /** A delete request reads a job that is about to be completed, and writes it back once it is. Nobody
      has the job in hand then, and no event was lost, but the log breaks, and where the completed
      files lie is forgotten. */
  lemma ALateDelete(row: Row, now: T.Time, path: Path, carry: bool) returns (before: seq<Step>)
    requires NewRow(row)
    ensures var steps := before + [ReadDelete(0, row.id)] + [Step.Write(Finalizer, 0)] + [Log(0)];
            var s := Run(Initial(carry), steps);
            var t := After(After(s, Delete(0, now, 0)), Log(0));
            && Legal(Initial(carry), steps)
            && Enabled(s, Delete(0, now, 0)) && Enabled(After(s, Delete(0, now, 0)), Log(0))
            && !InHand(s, row.id) && Told(s, row.id) && s.table[row.id].completedPath == Some(path)
            && row.id in t.table && t.table[row.id].state == RemovePending && t.table[row.id].completedPath == None
            && !Chain(LogOf(t.logs, row.id))
  {
    hide Enabled, After, Legal, Run, Leads, Busy, Writing;
    var c;
    before, c := AboutToComplete(row, now, path, carry);
    var write := Completing(c, path);
    var p, q := Running(c, [write], [], false), Running(write.row, [write][1..], [], false);
    var copies: map<nat, Row> := map[0 := c];
    assert map[][0 := c] == copies;
    OneReads(c, VERIFIED, Finalizer, p, map[], carry, 0);
    OneWrites(c, VERIFIED, Finalizer, [write], copies, carry);
    OneLogs(Unclaimed(write.row), VERIFIED, Finalizer, q, write.event.value, Some(Finalizer), copies, carry);
    Then(Initial(carry), before, Busy(c, VERIFIED, Finalizer, p, map[], carry), ReadDelete(0, row.id),
         Busy(c, VERIFIED, Finalizer, p, copies, carry));
    Then(Initial(carry), before + [ReadDelete(0, row.id)], Busy(c, VERIFIED, Finalizer, p, copies, carry),
         Step.Write(Finalizer, 0),
         Writing(Unclaimed(write.row), VERIFIED, Finalizer, q, write.event.value, Some(Finalizer), copies, carry));
    Then(Initial(carry), before + [ReadDelete(0, row.id)] + [Step.Write(Finalizer, 0)],
         Writing(Unclaimed(write.row), VERIFIED, Finalizer, q, write.event.value, Some(Finalizer), copies, carry), Log(0),
         AsCompleted(c, path, copies, carry));
    LedThere(Initial(carry), before + [ReadDelete(0, row.id)] + [Step.Write(Finalizer, 0)] + [Log(0)],
             AsCompleted(c, path, copies, carry));
    TooLate(c, path, now, copies, carry);
  }

  function AsCompleted(c: Row, path: Path, copies: map<nat, Row>, carry: bool): Sys
  {
    var write := Completing(c, path);
    Busy(Unclaimed(write.row), VERIFIED + [write.event.value], Finalizer,
         Running(write.row, [Completing(c, path)][1..], [], false), copies, carry)
  }

  lemma CompletedMeanwhile(c: Row, path: Path, now: T.Time, copies: map<nat, Row>, carry: bool)
    requires copies == map[0 := c] && c.state == LocalVerify && c.completedPath.None?
    ensures var s := AsCompleted(c, path, copies, carry);
            && Enabled(s, Delete(0, now, 0)) && s.deletes[0] == c && c.id in s.table && !InHand(s, c.id)
            && s.table[c.id].state == Completed && s.table[c.id].completedPath == Some(path) && Told(s, c.id)
  {
    hide Chain;
    VerifiedThenCompleted();
    var write := Completing(c, path);
    assert write.event.value == Event(Some(LocalVerify), Completed);
    assert [write][1..] == [];
  }

  lemma VerifiedThenCompleted()
    ensures var log := VERIFIED + [Event(Some(LocalVerify), Completed)]; Chain(log) && Replayed(log) == Completed
  {
  }

  lemma TooLate(c: Row, path: Path, now: T.Time, copies: map<nat, Row>, carry: bool)
    requires copies == map[0 := c] && c.state == LocalVerify && c.completedPath.None?
    ensures var s := AsCompleted(c, path, copies, carry);
            var t := After(After(s, Delete(0, now, 0)), Log(0));
            && Enabled(s, Delete(0, now, 0)) && Enabled(After(s, Delete(0, now, 0)), Log(0))
            && !InHand(s, c.id) && Told(s, c.id) && s.table[c.id].completedPath == Some(path)
            && c.id in t.table && t.table[c.id].state == RemovePending && t.table[c.id].completedPath == None
            && !Chain(LogOf(t.logs, c.id))
  {
    hide Timely, AsCompleted, Told, Chain, InHand, After, IndexAllows;
    var s := AsCompleted(c, path, copies, carry);
    CompletedMeanwhile(c, path, now, copies, carry);
    DeleteResult(s, 0, now, 0);
    DeleteLogged(s, 0, now, 0);
    DeleteContinuesLog(s, 0, now, 0, []);
    var t := After(After(s, Delete(0, now, 0)), Log(0));
    assert LogOf(t.logs, c.id) + [] == LogOf(t.logs, c.id);
  }

  /** Two delete requests read a job, and the first writes it back in time. */
  lemma ReadTwice(row: Row, now: T.Time, carry: bool) returns (steps: seq<Step>, ready: Row)
    requires NewRow(row)
    ensures ready.id == row.id && ready.state == LocalDownloadPending
    ensures Leads(Initial(carry), steps, Leaving(ready, now, carry))
  {
    hide Enabled, After, Leads;
    steps, ready := HandedOver(row, now, carry);
    var none: map<nat, Row>, one: map<nat, Row> := map[], map[0 := ready];
    var both := one[1 := ready];
    assert none[0 := ready] == one && both - {0} == map[1 := ready];
    OneReads(ready, HANDED_OVER, Downloader, Idle, none, carry, 0);
    OneReads(ready, HANDED_OVER, Downloader, Idle, one, carry, 1);
    OneDeletes(ready, HANDED_OVER, Downloader, both, carry, 0, now);
    var removal := Removal(ready, now);
    OneLogs(Unclaimed(removal.row), HANDED_OVER, Downloader, Idle, removal.event.value, None, map[1 := ready], carry);
    AllIdle(Downloader);
    AllIdle(Remover);
    Then(Initial(carry), steps, Busy(ready, HANDED_OVER, Downloader, Idle, none, carry), ReadDelete(0, row.id),
         Busy(ready, HANDED_OVER, Downloader, Idle, one, carry));
    Then(Initial(carry), steps + [ReadDelete(0, row.id)], Busy(ready, HANDED_OVER, Downloader, Idle, one, carry),
         ReadDelete(1, row.id), Busy(ready, HANDED_OVER, Downloader, Idle, both, carry));
    Then(Initial(carry), steps + [ReadDelete(0, row.id)] + [ReadDelete(1, row.id)],
         Busy(ready, HANDED_OVER, Downloader, Idle, both, carry), Delete(0, now, 0),
         Writing(Unclaimed(removal.row), HANDED_OVER, Downloader, Idle, removal.event.value, None, map[1 := ready],
                 carry));
    Then(Initial(carry), steps + [ReadDelete(0, row.id)] + [ReadDelete(1, row.id)] + [Delete(0, now, 0)],
         Writing(Unclaimed(removal.row), HANDED_OVER, Downloader, Idle, removal.event.value, None, map[1 := ready],
                 carry),
         Log(0), Leaving(ready, now, carry));
    steps := steps + [ReadDelete(0, row.id)] + [ReadDelete(1, row.id)] + [Delete(0, now, 0)] + [Log(0)];
  }

  /** A job that waits for the remover, with a delete request that has read it before. */
  function Leaving(ready: Row, now: T.Time, carry: bool): Sys
  {
    var removal := Removal(ready, now);
    Busy(Unclaimed(removal.row), HANDED_OVER + [removal.event.value], Remover, Idle, map[1 := ready], carry)
  }

  /** Of two delete requests for a job, the second writes it back when it has been removed. */
  lemma ARemovedJobComesBack(row: Row, now: T.Time, carry: bool) returns (steps: seq<Step>)
    requires NewRow(row)
    ensures var s := Run(Initial(carry), steps);
            var t := After(s, Delete(1, now, 0));
            && Legal(Initial(carry), steps) && Enabled(s, Delete(1, now, 0))
            && row.id in s.table && s.table[row.id].state == Removed
            && row.id in t.table && t.table[row.id].state == RemovePending
  {
    hide Enabled, After, Legal, Run, Leads, Handles, Writes;
    var ready;
    steps, ready := ReadTwice(row, now, carry);
    var removal := Removal(ready, now);
    var leaving, log := Unclaimed(removal.row), HANDED_OVER + [removal.event.value];
    var c := ClaimedBy(leaving, Remover);
    RemovesAtOnce(c, carry);
    var more := Handled(leaving, log, Remover, Removing(Remove.Done), map[1 := ready], carry);
    var write := Writes(c, Removing(Remove.Done))[0];
    var s := Busy(Unclaimed(write.row), log + [write.event.value], Remover, Releasing(row.id, []), map[1 := ready],
                  carry);
    Joined(Initial(carry), steps, Leaving(ready, now, carry), more, s);
    steps := steps + more;
    LedThere(Initial(carry), steps, s);
    BackAgain(Unclaimed(write.row), log + [write.event.value], ready, now, map[1 := ready], carry);
  }

  lemma RemovesAtOnce(c: Row, carry: bool)
    requires c.state == RemovePending
    ensures Handles(Remover, c, Removing(Remove.Done), carry)
    ensures var ws := Writes(c, Removing(Remove.Done));
            |ws| == 1 && ws[0].row.id == c.id && ws[0].event.Some? && ws[0].row.state == Removed
  {
  }

  lemma BackAgain(gone: Row, log: seq<Event>, ready: Row, now: T.Time, copies: map<nat, Row>, carry: bool)
    requires copies == map[1 := ready] && gone.id == ready.id
    ensures var s := Busy(gone, log, Remover, Releasing(gone.id, []), copies, carry);
            var t := After(s, Delete(1, now, 0));
            Enabled(s, Delete(1, now, 0)) && ready.id in t.table && t.table[ready.id].state == RemovePending
  {
    hide Timely;
    DeleteResult(Busy(gone, log, Remover, Releasing(gone.id, []), copies, carry), 1, now, 0);
  }
}

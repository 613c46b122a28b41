/**
 What keeps two workers from working at one job whatever the delete requests do: of all workers, only
 the remover can come to have a job that another one has in hand.
 */
module Exclusion {
  import opened Wrappers
  import opened Jobs
  import opened Store
  import opened Protocol
  import opened Outcomes
  import Poll
  import Startup
  import Submit
  import Text
  import T = TimeText

  /** The states in which a job may be stored that a worker has in hand: its own, and those that lead
      out, into which deletes and the remover may bring it. */
  predicate HeldIn(table: Table, w: Worker, id: Id)
  {
    id in table ==> table[id].state in ClaimSet(w) || Ending(table[id].state)
  }

  ghost predicate HeldAlone(s: Sys, w: Worker, id: Id)
  {
    && id in s.used && id !in s.requests && HeldIn(s.table, w, id)
    && forall v: Worker | v != w && v != Remover :: !InHandOf(s, v, id)
  }

  /** Only the last write of a handler leaves the states its worker claims, and what the remover
      writes leads out. */
  predicate Stays(w: Worker, todo: seq<Jobs.Write>)
  {
    if w == Remover then forall k | 0 <= k < |todo| :: Ending(todo[k].row.state)
    else forall k | 0 <= k < |todo| - 1 :: todo[k].row.state in ClaimSet(w)
  }

  predicate PhaseStays(w: Worker, p: Phase) { p.Running? ==> Stays(w, p.todo) }

  /** A job whose submission is not through yet is accepted or on its way out. */
  predicate Waits(table: Table, id: Id) { id in table ==> table[id].state == Accepted || Ending(table[id].state) }

  ghost predicate AllWait(s: Sys)
  {
    forall id | id in s.requests && s.requests[id].Inserted? :: Waits(s.table, id)
  }

  ghost predicate AllAlone(s: Sys)
  {
    forall w: Worker, id | w != Remover && InHandOf(s, w, id) :: HeldAlone(s, w, id)
  }

  ghost predicate AllStay(s: Sys) { forall w: Worker | w in s.phase :: PhaseStays(w, s.phase[w]) }

  ghost predicate Apart(s: Sys) { AllAlone(s) && AllWait(s) && AllStay(s) }

  // What handlers write, whatever the row.

  lemma ApplyStays(row: Row, status: Option<Poll.Status>, a: Poll.Answers)
    ensures |Poll.ApplyTrace(row, status, a.now, a.next)| == 1
  {
  }

  lemma PollStays(row: Row, a: Poll.Answers)
    ensures Stays(Poller, Poll.Trace(row, a))
  {
    hide Poll.ApplyTrace;
    if a.active.Found? {
      var s := a.active.status;
      var known := if s.remoteId != "" then row.(remoteId := Some(s.remoteId)) else row;
      ApplyStays(known, Some(s), a);
      ApplyStays(known.(state := RemoteActive), Some(s), a);
    }
    ApplyStays(row, None, a);
    if a.task.Found? {
      ApplyStays(row, Some(a.task.status), a);
    }
    if a.queued.Found? {
      var q := a.queued.status;
      PromotedStays(row.(authId := if q.authId != "" then Some(q.authId) else row.authId,
                         remoteHash := if q.hash != "" then Some(q.hash) else row.remoteHash,
                         remoteId := Some(q.remoteId)), a);
    }
  }

  lemma PromotedStays(row: Row, a: Poll.Answers)
    ensures Stays(Poller, Poll.PromotedTrace(row, a))
  {
    hide Poll.ApplyTrace;
    if a.active.Found? {
      ApplyStays(row.(state := RemoteActive), Some(a.active.status), a);
    }
  }

  lemma WritesStay(w: Worker, row: Row, handling: Handling, carry: bool)
    requires Handles(w, row, handling, carry)
    ensures Stays(w, Writes(row, handling))
  {
    hide Poll.Trace, Text.TrimSpace, Submit.Placeholder;
    if handling.Polling? {
      PollStays(row, handling.answers);
    }
  }

  // Every step keeps hands apart.

  /** Hands that do not grow. */
  lemma ApartStep(s: Sys, t: Sys)
    requires AllAlone(s) && s.used <= t.used
    requires forall w: Worker, id | w != Remover && InHandOf(t, w, id) ::
               InHandOf(s, w, id) && id !in t.requests && HeldIn(t.table, w, id)
    ensures AllAlone(t)
  {
    hide HeldIn;
    forall w: Worker, id | w != Remover && InHandOf(t, w, id) ensures HeldAlone(t, w, id) {
      assert HeldAlone(s, w, id);
    }
  }

  /** Only claims change in the table, if anything. */
  lemma ApartByMove(s: Sys, w: Worker, p: Phase, table: Table)
    requires Apart(s) && w in s.phase && Hands(p) <= Hands(s.phase[w]) && PhaseStays(w, p)
    requires forall id | id in table :: id in s.table && table[id].state == s.table[id].state
    ensures Apart(Moved(s, w, p).(table := table))
  {
    hide ClaimSet, Ending, PhaseStays;
    var t := Moved(s, w, p).(table := table);
    forall v: Worker, id | v != Remover && InHandOf(t, v, id)
      ensures InHandOf(s, v, id) && id !in t.requests && HeldIn(t.table, v, id)
    {
      assert InHandOf(s, v, id);
      assert HeldAlone(s, v, id);
    }
    ApartStep(s, t);
    forall id | id in t.requests && t.requests[id].Inserted? ensures Waits(t.table, id) {
      assert Waits(s.table, id);
    }
    forall v: Worker | v in t.phase ensures PhaseStays(v, t.phase[v]) {
      assert v != w ==> PhaseStays(v, s.phase[v]);
    }
  }

  lemma ApartByMemory(s: Sys, step: Step)
    requires Apart(s) && WorkersOk(s) && Enabled(s, step)
    requires step.Fetch? || step.FetchFails? || step.Fail? || step.Skip? || step.Finish? || step.Release?
             || step.EndBatch?
    ensures Apart(After(s, step))
  {
    hide WorkersOk, AtWork, AllAlone, AllWait;
    var w, t := step.w, After(s, step);
    assert PhaseStays(w, s.phase[w]);
    if step.Skip? {
      AtTheRow(s, w);
    }
    ApartByMove(s, w, t.phase[w], t.table);
  }

  lemma ApartByBegin(s: Sys, w: Worker, handling: Handling)
    requires Apart(s) && Enabled(s, Begin(w, handling))
    ensures Apart(After(s, Begin(w, handling)))
  {
    hide AllAlone, AllWait, Handles, Writes, Stays;
    var rest, t := s.phase[w].rest, After(s, Begin(w, handling));
    WritesStay(w, rest[0], handling, s.carry);
    assert rest[0].id in Ids(rest) && Ids(rest[1..]) <= Ids(rest);
    ApartByMove(s, w, t.phase[w], s.table);
    assert t == Moved(s, w, t.phase[w]).(table := s.table);
  }

  /** Nobody has a job in hand that a worker other than the remover can claim. */
  lemma ClaimedAlone(s: Sys, w: Worker, id: Id)
    requires Apart(s) && Inv(s) && w != Remover && id in s.table && s.table[id].state in ClaimSet(w)
    ensures id !in s.requests && forall v: Worker | v != w && v != Remover :: !InHandOf(s, v, id)
  {
    hide JobsOk, WorkersOk, CopiesOk, OwedOk;
    assert !Ending(s.table[id].state) && s.table[id].state != Accepted;
    forall v: Worker | v != w && v != Remover ensures !InHandOf(s, v, id) {
      if InHandOf(s, v, id) {
        assert HeldAlone(s, v, id);
        ClaimSetsDisjoint(w, v, s.table[id].state);
        assert false;
      }
    }
    forall other | other in s.requests ensures other != id {
      assert RequestOk(s.table, s.stale, other, s.requests[other]);
    }
  }

  lemma ClaimResult(s: Sys, w: Worker, ids: seq<Id>)
    ensures var t := After(s, Claim(w, ids));
            && t.phase == s.phase[w := Claimed(ids)] && t.requests == s.requests && t.used == s.used
            && t.table.Keys == s.table.Keys && forall id | id in t.table :: t.table[id].state == s.table[id].state
  {
  }

  lemma ClaimedIds(s: Sys, w: Worker, ids: seq<Id>, id: Id)
    requires Enabled(s, Claim(w, ids)) && id in Hands(Claimed(ids))
    ensures id in s.table && s.table[id].state in ClaimSet(w)
  {
  }

  lemma ClaimantAlone(s: Sys, w: Worker, ids: seq<Id>, v: Worker, id: Id)
    requires Apart(s) && Inv(s) && Enabled(s, Claim(w, ids))
    requires v != Remover && InHandOf(After(s, Claim(w, ids)), v, id)
    ensures HeldAlone(After(s, Claim(w, ids)), v, id)
  {
    hide Inv, Enabled, Hands, ClaimSet, Ending, After, AllStay, AllWait;
    var t := After(s, Claim(w, ids));
    ClaimResult(s, w, ids);
    if id in Hands(Claimed(ids)) {
      ClaimedIds(s, w, ids, id);
      UsedKnows(s, id);
      if w != Remover {
        ClaimedAlone(s, w, id);
      }
    }
    if v != w {
      assert InHandOf(s, v, id) && HeldAlone(s, v, id);
    }
    forall u: Worker | u != v && u != Remover ensures !InHandOf(t, u, id) {
      assert u != w && InHandOf(t, u, id) ==> InHandOf(s, u, id);
    }
  }

  lemma UsedKnows(s: Sys, id: Id)
    requires Inv(s) && id in s.table
    ensures id in s.used
  {
    UsedCovers(s);
  }

  lemma ApartByClaim(s: Sys, w: Worker, ids: seq<Id>)
    requires Apart(s) && Inv(s) && Enabled(s, Claim(w, ids))
    ensures Apart(After(s, Claim(w, ids)))
  {
    hide JobsOk, WorkersOk, RequestsOk, CopiesOk, OwedOk, ClaimSet, Ending;
    var t := After(s, Claim(w, ids));
    UsedCovers(s);
    forall v: Worker, id | v != Remover && InHandOf(t, v, id) ensures HeldAlone(t, v, id) {
      ClaimantAlone(s, w, ids, v, id);
    }
    forall id | id in t.requests && t.requests[id].Inserted? ensures Waits(t.table, id) {
      assert Waits(s.table, id);
    }
    forall v: Worker | v in t.phase ensures PhaseStays(v, t.phase[v]) {
      assert v != w ==> PhaseStays(v, s.phase[v]);
    }
  }

  /** What a write changes of hands and states. */
  lemma WriteSeen(s: Sys, w: Worker, n: nat)
    requires WorkersOk(s) && AllStay(s) && Enabled(s, Step.Write(w, n))
    ensures w in s.phase && s.phase[w].Running? && s.phase[w].todo != []
    ensures var id, state, t := s.phase[w].mem.id, s.phase[w].todo[0].row.state, After(s, Step.Write(w, n));
            && id in Hands(s.phase[w]) && t.requests == s.requests && t.used == s.used
            && (forall v: Worker | v in t.phase :: v in s.phase && Hands(t.phase[v]) <= Hands(s.phase[v]))
            && (w in t.phase && id in Hands(t.phase[w]) && w != Remover ==> state in ClaimSet(w))
            && (w == Remover ==> Ending(state))
            && forall other | other in t.table ::
                 other in s.table && t.table[other].state == if other == id then state else s.table[other].state
  {
    assert PhaseStays(w, s.phase[w]);
    hide WorkersOk, After, Accepts, AtWork, ClaimSet, Ending, AllStay;
    WriteResult(s, w, n);
    AtTheRow(s, w);
    MemNotInRest(s, w);
  }

  /** What another worker, or the same one later in its batch, has in hand after a write. */
  lemma HeldAfterWrite(s: Sys, w: Worker, n: nat, v: Worker, id: Id)
    requires AllAlone(s) && AllStay(s) && WorkersOk(s) && Enabled(s, Step.Write(w, n))
    requires v != Remover && InHandOf(After(s, Step.Write(w, n)), v, id)
    ensures var t := After(s, Step.Write(w, n));
            InHandOf(s, v, id) && id !in t.requests && HeldIn(t.table, v, id)
  {
    hide WorkersOk, Enabled, After, ClaimSet, Ending, AllStay, Hands;
    WriteSeen(s, w, n);
    assert InHandOf(s, v, id) && HeldAlone(s, v, id);
    if v != w && s.phase[w].mem.id == id {
      assert InHandOf(s, w, id) && (w != Remover ==> HeldAlone(s, w, id));
    }
  }

  lemma WaitsAfterWrite(s: Sys, w: Worker, n: nat, id: Id)
    requires Apart(s) && WorkersOk(s) && Enabled(s, Step.Write(w, n))
    requires id in s.requests && s.requests[id].Inserted?
    ensures After(s, Step.Write(w, n)).requests == s.requests && Waits(After(s, Step.Write(w, n)).table, id)
  {
    assert Waits(s.table, id);
    hide WorkersOk, Enabled, After, ClaimSet, Ending, AllStay, AllWait, Hands;
    WriteSeen(s, w, n);
    assert w != Remover && s.phase[w].mem.id == id ==> InHandOf(s, w, id);
  }

  /** A write of a worker. */
  lemma ApartByWrite(s: Sys, w: Worker, n: nat)
    requires Apart(s) && WorkersOk(s) && Enabled(s, Step.Write(w, n))
    ensures Apart(After(s, Step.Write(w, n)))
  {
    hide WorkersOk, Enabled, HeldIn, Waits, AllAlone, AllStay;
    var t := After(s, Step.Write(w, n));
    forall v: Worker, id | v != Remover && InHandOf(t, v, id)
      ensures InHandOf(s, v, id) && id !in t.requests && HeldIn(t.table, v, id)
    {
      HeldAfterWrite(s, w, n, v, id);
    }
    ApartStep(s, t);
    forall id | id in t.requests && t.requests[id].Inserted? ensures Waits(t.table, id) {
      assert t.requests == s.requests;
      WaitsAfterWrite(s, w, n, id);
    }
    WriteSeen(s, w, n);
    StaysOnward(s, w, n);
  }

  lemma MemNotInRest(s: Sys, w: Worker)
    requires WorkersOk(s) && w in s.phase && s.phase[w].Running?
    ensures s.phase[w].mem.id !in Ids(s.phase[w].rest)
  {
    hide Fetched, AtWork, OwnRows;
    assert WorkerOk(s.table, s.stale, s.carry, w, s.phase[w]);
  }

  lemma StaysOnward(s: Sys, w: Worker, n: nat)
    requires AllStay(s) && w in s.phase && s.phase[w].Running? && s.phase[w].todo != []
    ensures AllStay(After(s, Step.Write(w, n)))
  {
    WriteResult(s, w, n);
    var t := After(s, Step.Write(w, n));
    assert PhaseStays(w, s.phase[w]);
    forall v: Worker | v in t.phase ensures PhaseStays(v, t.phase[v]) {
      assert v != w ==> PhaseStays(v, s.phase[v]);
    }
  }

  lemma StoppedStays(w: Worker, p: Phase)
    requires PhaseStays(w, p)
    ensures PhaseStays(w, Stopped(w, p)) && Hands(Stopped(w, p)) <= Hands(p)
  {
  }

  /** The event of a write is lost. */
  lemma ApartByLose(s: Sys, n: nat)
    requires Apart(s) && n in s.owed
    ensures Apart(Losing(s, n))
  {
    hide ClaimSet, Ending, PhaseStays, Stopped, Hands;
    var t := Losing(s, n);
    forall w: Worker | w in t.phase
      ensures w in s.phase && PhaseStays(w, t.phase[w]) && Hands(t.phase[w]) <= Hands(s.phase[w])
    {
      assert PhaseStays(w, s.phase[w]);
      StoppedStays(w, s.phase[w]);
    }
    forall w: Worker, id | w != Remover && InHandOf(t, w, id)
      ensures InHandOf(s, w, id) && id !in t.requests && HeldIn(t.table, w, id)
    {
      assert InHandOf(s, w, id);
      assert HeldAlone(s, w, id);
    }
    ApartStep(s, t);
    forall id | id in t.requests && t.requests[id].Inserted? ensures Waits(t.table, id) {
      assert Waits(s.table, id);
    }
  }

  /** The API and the pruning: jobs go, or are on their way out, or have been nobody's yet. */
  lemma ApartByApi(s: Sys, t: Sys)
    requires Apart(s) && t.phase == s.phase && s.used <= t.used
    requires forall id | id in t.requests && id !in s.requests :: id !in s.used && t.requests[id].Looked?
    requires forall id | id in t.requests && t.requests[id].Inserted? :: Waits(t.table, id)
    requires forall id | id in t.table ::
               || (id in s.table && t.table[id].state == s.table[id].state) || Ending(t.table[id].state)
               || id in s.requests
    ensures Apart(t)
  {
    assert AllStay(t);
    hide ClaimSet, Ending, AllStay;
    forall w: Worker, id | w != Remover && InHandOf(t, w, id)
      ensures InHandOf(s, w, id) && id !in t.requests && HeldIn(t.table, w, id)
    {
      assert InHandOf(s, w, id);
      assert HeldAlone(s, w, id);
    }
    ApartStep(s, t);
  }

  lemma ApartByLookUp(s: Sys, row: Row)
    requires Apart(s) && Enabled(s, LookUp(row))
    ensures Apart(After(s, LookUp(row)))
  {
    hide AllAlone, AllStay;
    var t := After(s, LookUp(row));
    forall id | id in t.requests && t.requests[id].Inserted? ensures Waits(t.table, id) {
      assert id in s.requests && s.requests[id].Inserted?;
    }
    ApartByApi(s, t);
  }

  lemma ApartByInsert(s: Sys, i: Id, n: nat)
    requires Apart(s) && RequestsOk(s) && Enabled(s, Insert(i, n))
    ensures Apart(After(s, Insert(i, n)))
  {
    RequestKnown(s, i);
    hide AllAlone, AllStay, IndexAllows, RequestsOk;
    var t := After(s, Insert(i, n));
    forall id | id in t.requests && t.requests[id].Inserted? ensures Waits(t.table, id) {
      assert id != i ==> Waits(s.table, id);
    }
    ApartByApi(s, t);
  }

  lemma ApartByQueue(s: Sys, i: Id, now: T.Time, n: nat)
    requires Apart(s) && RequestsOk(s) && Enabled(s, Queue(i, now, n))
    ensures Apart(After(s, Queue(i, now, n)))
  {
    RequestKnown(s, i);
    hide AllAlone, AllStay, IndexAllows, RequestsOk, Created;
    var t := After(s, Queue(i, now, n));
    forall id | id in t.requests && t.requests[id].Inserted? ensures Waits(t.table, id) {
      assert Waits(s.table, id);
    }
    ApartByApi(s, t);
  }

  lemma ApartByAbandon(s: Sys, i: Id)
    requires Apart(s)
    ensures Apart(After(s, Abandon(i)))
  {
    hide AllAlone, AllStay;
    var t := After(s, Abandon(i));
    forall id | id in t.requests && t.requests[id].Inserted? ensures Waits(t.table, id) {
      assert Waits(s.table, id);
    }
    ApartByApi(s, t);
  }

  lemma ApartByDelete(s: Sys, step: Step)
    requires Apart(s) && Enabled(s, step)
    requires step.ReadDelete? || step.Delete? || step.DropDelete? || step.Prune? || step.Log?
    ensures Apart(After(s, step))
  {
    hide AllAlone, AllStay, IndexAllows, Timely;
    var t := After(s, step);
    forall id | id in t.requests && t.requests[id].Inserted? ensures Waits(t.table, id) {
      assert Waits(s.table, id);
    }
    ApartByApi(s, t);
  }

  lemma ApartByDown(s: Sys, step: Step)
    requires Inv(s) && Enabled(s, step) && (step.Crash? || step.ReleaseClaims? || step.Reconcile? || step.Start?)
    ensures Apart(After(s, step))
  {
    hide JobsOk, WorkersOk, RequestsOk, CopiesOk, OwedOk, Startup.ReconcileWrite;
    var t := After(s, step);
    assert t.phase == STOPPED && t.requests == map[];
    forall w: Worker | w in t.phase ensures t.phase[w] == Idle {
    }
  }

  lemma ApartKeeps(s: Sys, step: Step)
    requires Apart(s) && Inv(s) && Enabled(s, step)
    ensures Apart(After(s, step))
  {
    hide Apart, JobsOk, WorkersOk, RequestsOk, CopiesOk, Enabled, After;
    match step {
      case Claim(w, ids) => ApartByClaim(s, w, ids);
      case Begin(w, handling) => ApartByBegin(s, w, handling);
      case Write(w, n) => ApartByWrite(s, w, n);
      case LookUp(row) => ApartByLookUp(s, row);
      case Insert(i, n) => ApartByInsert(s, i, n);
      case Queue(i, now, n) => ApartByQueue(s, i, now, n);
      case Log(_) => ApartByDelete(s, step);
      case Lose(n) =>
        LoseResult(s, n);
        ApartByLose(s, n);
      case Abandon(i) => ApartByAbandon(s, i);
      case ReadDelete(_, _) => ApartByDelete(s, step);
      case Delete(_, _, _) => ApartByDelete(s, step);
      case DropDelete(_) => ApartByDelete(s, step);
      case Prune(_) => ApartByDelete(s, step);
      case Crash => ApartByDown(s, step);
      case ReleaseClaims => ApartByDown(s, step);
      case Reconcile(_, _, _, _, _, _) => ApartByDown(s, step);
      case Start => ApartByDown(s, step);
      case _ => ApartByMemory(s, step);
    }
  }

  lemma InitiallyApart(carry: bool)
    ensures Apart(Initial(carry))
  {
    var s := Initial(carry);
    forall w: Worker | w in s.phase ensures s.phase[w] == Idle {
    }
  }

  lemma {:induction false} ApartThrough(carry: bool, steps: seq<Step>)
    requires Legal(Initial(carry), steps)
    ensures Apart(Run(Initial(carry), steps))
  {
    hide Inv, Enabled, After, Apart;
    if steps == [] {
      InitiallyApart(carry);
    } else {
      ApartThrough(carry, steps[..|steps| - 1]);
      Reachable(carry, steps[..|steps| - 1]);
      ApartKeeps(Run(Initial(carry), steps[..|steps| - 1]), steps[|steps| - 1]);
    }
  }

  /** In every run, whatever delete requests do: of the workers that bring jobs forward no two ever
      have the same job in hand, nor has one while its submission is not through; and such a job is
      stored in a state its worker claims, unless it is being removed or has ended. */
  lemma NeverTwoAtWork(carry: bool, steps: seq<Step>, id: Id, w: Worker)
    requires Legal(Initial(carry), steps) && w != Remover && InHandOf(Run(Initial(carry), steps), w, id)
    ensures var s := Run(Initial(carry), steps);
            && id !in s.requests
            && (id in s.table ==> s.table[id].state in ClaimSet(w) || Ending(s.table[id].state))
            && forall v: Worker | v != Remover && InHandOf(s, v, id) :: v == w
  {
    hide Initial, Run, Legal, AllStay, AllWait;
    ApartThrough(carry, steps);
    assert HeldAlone(Run(Initial(carry), steps), w, id);
  }
}

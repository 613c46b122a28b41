/**
 The jobs table (internal/store/store.go) with the partial unique index on submission keys
 (internal/store/migrations/0003_queue_tracking.sql). Statements are atomic.
 */
module Store {
  import opened Wrappers
  import opened Jobs
  import T = TimeText

  type Table = map<Id, Row>
  type Logs = map<Id, seq<Event>>

  /** The states the unique index and the duplicate look-up list by name. */
  const LISTED_STATES: set<JobState> :=
    {Accepted, SubmitPending, SubmitRetry, RemoteQueued, RemoteActive,
     LocalDownloadPending, LocalDownloading, LocalVerify, Completed, RemovePending}

  /** The listed states are exactly those that Closed leaves open. */
  lemma ListedIsOpen(s: JobState)
    ensures s in LISTED_STATES <==> !Closed(s)
    ensures Closed(s) <==> s == RemoteFailed || s == Removed || s == Failed
  {
  }

  /** Whether the index lets a row stand beside the other rows. */
  ghost predicate IndexAllows(table: Table, row: Row)
  {
    row.state in LISTED_STATES ==>
      forall id | id in table && id != row.id && table[id].state in LISTED_STATES :: table[id].key != row.key
  }

  /** No two open jobs share a submission key. */
  ghost predicate UniqueOpen(table: Table)
  {
    forall a, b | a in table && b in table && a != b && !Closed(table[a].state) && !Closed(table[b].state) ::
      table[a].key != table[b].key
  }

  ghost predicate Keyed(table: Table) { forall id | id in table :: table[id].id == id }

  /** A row the index allows keeps open keys unique; one it refuses would break that. */
  lemma IndexIsUniqueness(table: Table, row: Row)
    requires Keyed(table) && UniqueOpen(table)
    ensures IndexAllows(table, row) <==> UniqueOpen(table[row.id := row])
  {
    var next := table[row.id := row];
    forall id | id in table { ListedIsOpen(table[id].state); }
    ListedIsOpen(row.state);
    if UniqueOpen(next) {
      forall id | id in table && id != row.id && table[id].state in LISTED_STATES && row.state in LISTED_STATES
        ensures table[id].key != row.key
      {
        assert next[id] == table[id] && next[row.id] == row;
      }
    }
  }

  /** Writing back an open job under its own key is never refused. */
  lemma OwnKeyAllowed(table: Table, row: Row)
    requires Keyed(table) && UniqueOpen(table) && row.id in table
    requires !Closed(table[row.id].state) && row.key == table[row.id].key
    ensures IndexAllows(table, row) && UniqueOpen(PutRow(table, row)) && Keyed(PutRow(table, row))
  {
    forall id | id in table { ListedIsOpen(table[id].state); }
    ListedIsOpen(row.state);
  }

  // Claims.

  /** The due test compares stored text. */
  predicate Due(row: Row, states: set<JobState>, now: T.Time)
  {
    && row.state in states
    && (row.nextRunAt.None?
        || (T.InRange(row.nextRunAt.value) && T.InRange(now) && T.TextAtMost(T.FormatTime(row.nextRunAt.value), T.FormatTime(now))))
    && row.claimedBy.None?
  }

  ghost predicate TimesInRange(table: Table)
  {
    forall id | id in table ::
      T.InRange(table[id].createdAt) && (table[id].nextRunAt.Some? ==> T.InRange(table[id].nextRunAt.value))
  }

  /** The creation time as it is stored and compared. */
  function CreatedText(row: Row): string
    requires T.InRange(row.createdAt)
  {
    T.FormatTime(row.createdAt)
  }

  /** Whether a row may come before another when rows are listed by creation time. */
  predicate Listed(a: Row, b: Row)
  {
    T.InRange(a.createdAt) && T.InRange(b.createdAt) && T.TextAtMost(CreatedText(a), CreatedText(b))
  }

  ghost predicate InOrder(table: Table, ids: seq<Id>)
  {
    forall i, j | 0 <= i < j < |ids| ::
      ids[i] in table && ids[j] in table && ids[i] != ids[j] && Listed(table[ids[i]], table[ids[j]])
  }

  ghost predicate AllAhead(table: Table, ids: seq<Id>, rest: set<Id>)
  {
    forall i | 0 <= i < |ids| :: ids[i] in table && Ahead(table, table[ids[i]], rest)
  }

  ghost predicate Ahead(table: Table, row: Row, rest: set<Id>)
  {
    forall id | id in rest :: id in table && Listed(row, table[id])
  }

  /** The due, unclaimed rows that come first in the stored order, at most limit of them. */
  ghost predicate Selected(table: Table, states: set<JobState>, now: T.Time, limit: nat, ids: seq<Id>)
    requires T.InRange(now) && TimesInRange(table)
  {
    && |ids| <= limit
    && (forall i | 0 <= i < |ids| :: ids[i] in table && Due(table[ids[i]], states, now))
    && InOrder(table, ids)
    && (forall id | id in table && id !in ids && Due(table[id], states, now) ::
          |ids| == limit && forall i | 0 <= i < |ids| :: Listed(table[ids[i]], table[id]))
  }

  /** Rows picked so far, in order and ahead of the due rows that are left. */
  ghost predicate Picking(table: Table, states: set<JobState>, now: T.Time, limit: nat, ids: seq<Id>, rest: set<Id>)
    requires T.InRange(now) && TimesInRange(table)
  {
    && |ids| <= limit
    && (forall id :: id in rest <==> id in table && id !in ids && Due(table[id], states, now))
    && (forall i | 0 <= i < |ids| :: ids[i] in table && Due(table[ids[i]], states, now))
    && InOrder(table, ids) && AllAhead(table, ids, rest)
  }

  lemma PickingStarts(table: Table, states: set<JobState>, now: T.Time, limit: nat, rest: set<Id>)
    requires T.InRange(now) && TimesInRange(table)
    requires rest == set id | id in table && Due(table[id], states, now)
    ensures Picking(table, states, now, limit, [], rest) && rest <= table.Keys
  {
    hide Due;
  }

  lemma PickOne(table: Table, states: set<JobState>, now: T.Time, limit: nat, ids: seq<Id>, rest: set<Id>, id: Id)
    requires T.InRange(now) && TimesInRange(table) && Picking(table, states, now, limit, ids, rest)
    requires |ids| < limit && id in rest && rest <= table.Keys
    requires Ahead(table, table[id], rest)
    ensures Picking(table, states, now, limit, ids + [id], rest - {id})
  {
    hide Due, Listed, InOrder, AllAhead;
    var more := ids + [id];
    assert forall x :: x in more <==> x in ids || x == id;
    OneMoreInOrder(table, ids, rest, id);
  }

  lemma OneMoreInOrder(table: Table, ids: seq<Id>, rest: set<Id>, id: Id)
    requires InOrder(table, ids) && AllAhead(table, ids, rest) && id in rest && id !in ids
    requires id in table && Ahead(table, table[id], rest)
    ensures InOrder(table, ids + [id]) && AllAhead(table, ids + [id], rest - {id})
  {
    hide Listed;
  }

  lemma Picked(table: Table, states: set<JobState>, now: T.Time, limit: nat, ids: seq<Id>, rest: set<Id>)
    requires T.InRange(now) && TimesInRange(table) && Picking(table, states, now, limit, ids, rest)
    requires |ids| == limit || rest == {}
    ensures Selected(table, states, now, limit, ids)
  {
    hide Due, Listed;
  }

  /** When the stored order of two times is the wrong one: both lie in one second, and the fraction
      digits of the earlier are a proper prefix of those of the later. */
  ghost predicate Swapped(s: T.Time, t: T.Time)
    requires T.InRange(s) && T.InRange(t)
  {
    s / T.SECOND == t / T.SECOND && T.ProperPrefix(T.FractionDigits(s % T.SECOND), T.FractionDigits(t % T.SECOND))
  }

  lemma ListedSwapped(older: Row, younger: Row)
    requires T.InRange(older.createdAt) && T.InRange(younger.createdAt) && older.createdAt < younger.createdAt
    ensures Listed(younger, older) <==> Swapped(older.createdAt, younger.createdAt)
    ensures Listed(older, younger) <==> !Swapped(older.createdAt, younger.createdAt)
  {
    hide T.FormatTime, T.FractionDigits, T.TextBefore;
    T.TextDisagreesExactly(older.createdAt, younger.createdAt);
    T.Antisymmetric(CreatedText(older), CreatedText(younger));
    T.TextRoundTrip(older.createdAt);
    T.TextRoundTrip(younger.createdAt);
  }

  /** Of two due rows and room for one, the older one loses exactly when the two are swapped. */
  lemma OlderLosesExactly(table: Table, states: set<JobState>, now: T.Time, ids: seq<Id>, older: Id, younger: Id)
    requires T.InRange(now) && TimesInRange(table) && Selected(table, states, now, 1, ids)
    requires older in table && younger in table && table[older].createdAt < table[younger].createdAt
    requires forall id | id in table :: Due(table[id], states, now) <==> id == older || id == younger
    ensures ids == [older] || ids == [younger]
    ensures ids == [younger] <==> Swapped(table[older].createdAt, table[younger].createdAt)
  {
    hide Due, Listed, Swapped;
    ListedSwapped(table[older], table[younger]);
    assert older !in ids ==> |ids| == 1;
    assert younger !in ids ==> |ids| == 1;
    assert |ids| == 1 && (ids[0] == older || ids[0] == younger);
  }

  /** That happens: a row created on the second loses to one created half a second later. */
  lemma OlderLoses(table: Table, states: set<JobState>, now: T.Time, ids: seq<Id>, older: Id, younger: Id)
    requires T.InRange(now) && TimesInRange(table) && Selected(table, states, now, 1, ids)
    requires older in table && younger in table
    requires table[older].createdAt == 0 && table[younger].createdAt == 500_000_000
    requires forall id | id in table :: Due(table[id], states, now) <==> id == older || id == younger
    ensures ids == [younger]
  {
    hide Due, Listed, T.FormatTime, T.FractionDigits, T.TextBefore;
    T.TextOrderWitness();
    T.TextDisagreesExactly(0, 500_000_000);
    T.Antisymmetric(T.FormatTime(0), T.FormatTime(500_000_000));
    OlderLosesExactly(table, states, now, ids, older, younger);
  }

  function ClaimRows(table: Table, ids: seq<Id>, w: Worker): Table
  {
    map id | id in table :: if id in ids then table[id].(claimedBy := Some(w)) else table[id]
  }

  function ReleaseRow(table: Table, id: Id): Table
  {
    if id in table then table[id := Unclaimed(table[id])] else table
  }

  function ReleaseAll(table: Table): Table
  {
    map id | id in table :: Unclaimed(table[id])
  }

  /** Updating the whole row of a job that is there. */
  function PutRow(table: Table, row: Row): Table
  {
    if row.id in table then table[row.id := Unclaimed(row)] else table
  }

  function Logged(logs: Logs, id: Id, event: Option<Event>): Logs
  {
    if event.Some? then logs[id := (if id in logs then logs[id] else []) + [event.value]] else logs
  }

  /** An unclaimed row of some states whose time is not after a limit. */
  predicate DueAround(row: Row, states: set<JobState>, limit: int)
  {
    row.state in states && row.claimedBy.None? && (row.nextRunAt.Some? ==> row.nextRunAt.value <= limit)
  }

  /** The due test is right up to a second. */
  lemma DueWithin(table: Table, states: set<JobState>, now: T.Time)
    requires T.InRange(now) && TimesInRange(table)
    ensures forall id | id in table && Due(table[id], states, now) :: DueAround(table[id], states, now + T.SECOND - 1)
    ensures forall id | id in table && DueAround(table[id], states, now - T.SECOND) :: Due(table[id], states, now)
  {
    forall id | id in table
      ensures Due(table[id], states, now) ==> DueAround(table[id], states, now + T.SECOND - 1)
      ensures DueAround(table[id], states, now - T.SECOND) ==> Due(table[id], states, now)
    {
      if table[id].nextRunAt.Some? {
        T.DueWithinASecond(table[id].nextRunAt.value, now);
      }
    }
  }

  /** So is the order of rows. */
  lemma ListedWithin(table: Table)
    requires TimesInRange(table)
    ensures forall x, y | x in table && y in table && Listed(table[x], table[y]) ::
              table[x].createdAt < table[y].createdAt + T.SECOND
  {
    forall x, y | x in table && y in table && Listed(table[x], table[y])
      ensures table[x].createdAt < table[y].createdAt + T.SECOND
    {
      T.DueWithinASecond(table[x].createdAt, table[y].createdAt);
    }
  }

  lemma SelectedWithin(table: Table, states: set<JobState>, now: T.Time, limit: nat, ids: seq<Id>)
    requires T.InRange(now) && TimesInRange(table) && Selected(table, states, now, limit, ids)
    ensures forall i | 0 <= i < |ids| :: ids[i] in table && DueAround(table[ids[i]], states, now + T.SECOND - 1)
    ensures forall i, j | 0 <= i < j < |ids| :: table[ids[i]].createdAt < table[ids[j]].createdAt + T.SECOND
    ensures forall id | id in table && id !in ids && DueAround(table[id], states, now - T.SECOND) ::
              |ids| == limit && forall i | 0 <= i < |ids| :: table[ids[i]].createdAt < table[id].createdAt + T.SECOND
  {
    hide Due, DueAround, Listed;
    DueWithin(table, states, now);
    ListedWithin(table);
  }

  class JobStore {
    var table: Table
    var logs: Logs

    constructor ()
      ensures table == map[] && logs == map[]
    {
      table, logs := map[], map[];
    }

    /** An insert that repeats an id or an open submission key is an error. */
    method CreateJob(row: Row) returns (ok: bool)
      modifies this
      ensures ok <==> row.id !in old(table) && IndexAllows(old(table), row)
      ensures ok ==> table == old(table)[row.id := row.(claimedBy := None)]
                     && logs == old(logs)[row.id := [Event(None, row.state)]]
      ensures !ok ==> table == old(table) && logs == old(logs)
    {
      var allowed := CheckIndex(row);
      if row.id in table || !allowed {
        return false;
      }
      table := table[row.id := Unclaimed(row)];
      logs := logs[row.id := [Event(None, row.state)]];
      return true;
    }

    /** The index, row by row. */
    method CheckIndex(row: Row) returns (allowed: bool)
      ensures allowed <==> IndexAllows(table, row)
    {
      if row.state !in LISTED_STATES {
        return true;
      }
      var rest := table.Keys;
      while rest != {}
        invariant rest <= table.Keys
        invariant forall id | id in table && id !in rest && id != row.id && table[id].state in LISTED_STATES ::
                    table[id].key != row.key
        decreases rest
      {
        var id :| id in rest;
        if id != row.id && table[id].state in LISTED_STATES && table[id].key == row.key {
          return false;
        }
        rest := rest - {id};
      }
      return true;
    }

    /** UpdateJob on a row in hand. */
    method UpdateJob(row: Row) returns (ok: bool)
      requires row.id in table
      modifies `table
      ensures ok <==> IndexAllows(old(table), row)
      ensures table == if ok then PutRow(old(table), row) else old(table)
      ensures ok ==> table == old(table)[row.id := row.(claimedBy := None)]
    {
      ok := CheckIndex(row);
      if ok {
        table := table[row.id := Unclaimed(row)];
      }
    }

    /** UpdateJobState on a row in hand: refused by the index, or stored and logged as one step. */
    method UpdateJobState(row: Row, next: JobState) returns (ok: bool)
      requires row.id in table
      modifies this
      ensures ok <==> IndexAllows(old(table), row.(state := next))
      ensures ok ==> table == PutRow(old(table), row.(state := next))
                     && logs == Logged(old(logs), row.id, Some(Event(Some(row.state), next)))
      ensures ok ==> table == old(table)[row.id := row.(state := next, claimedBy := None)]
                     && logs == old(logs)[row.id := (if row.id in old(logs) then old(logs)[row.id] else [])
                                                    + [Event(Some(row.state), next)]]
      ensures !ok ==> table == old(table) && logs == old(logs)
    {
      ok := CheckIndex(row.(state := next));
      if ok {
        table := table[row.id := Unclaimed(row.(state := next))];
        logs := logs[row.id := (if row.id in logs then logs[row.id] else []) + [Event(Some(row.state), next)]];
      }
    }

    /** The open job with a submission key, if there is one. */
    method FindActiveBySubmissionKey(key: string) returns (found: Option<Row>)
      ensures found.Some? ==> found.value in table.Values && found.value.key == key && !Closed(found.value.state)
      ensures found.None? ==> forall id | id in table && table[id].key == key :: Closed(table[id].state)
    {
      var rest := table.Keys;
      while rest != {}
        invariant rest <= table.Keys
        invariant forall id | id in table && id !in rest && table[id].key == key :: Closed(table[id].state)
        decreases rest
      {
        var id :| id in rest;
        ListedIsOpen(table[id].state);
        if table[id].key == key && table[id].state in LISTED_STATES {
          return Some(table[id]);
        }
        rest := rest - {id};
      }
      return None;
    }

    /** The row that comes first among some rows in the stored order. */
    method Oldest(ids: set<Id>) returns (oldest: Id)
      requires ids != {} && ids <= table.Keys && TimesInRange(table)
      ensures oldest in ids && Ahead(table, table[oldest], ids)
    {
      hide T.FormatTime, T.TextBefore;
      oldest :| oldest in ids;
      var rest := ids - {oldest};
      while rest != {}
        invariant rest <= ids && oldest in ids
        invariant forall id | id in ids - rest :: Listed(table[oldest], table[id])
        decreases rest
      {
        var id :| id in rest;
        if T.TextBefore(CreatedText(table[id]), CreatedText(table[oldest])) {
          forall other | other in ids - rest ensures Listed(table[id], table[other]) {
            T.TextSorts(CreatedText(table[id]), CreatedText(table[oldest]), CreatedText(table[other]));
          }
          oldest := id;
        } else {
          T.TextSorts(CreatedText(table[oldest]), CreatedText(table[id]), "");
        }
        rest := rest - {id};
      }
    }

    method SelectDue(states: set<JobState>, now: T.Time, limit: nat) returns (ids: seq<Id>)
      requires T.InRange(now) && TimesInRange(table)
      ensures Selected(table, states, now, limit, ids)
    {
      hide Due, Listed, Picking, Selected;
      var rest := set id | id in table && Due(table[id], states, now);
      ids := [];
      PickingStarts(table, states, now, limit, rest);
      while |ids| < limit && rest != {}
        invariant |ids| <= limit && rest <= table.Keys && Picking(table, states, now, limit, ids, rest)
        decreases rest
      {
        var id := Oldest(rest);
        PickOne(table, states, now, limit, ids, rest, id);
        ids := ids + [id];
        rest := rest - {id};
      }
      Picked(table, states, now, limit, ids, rest);
    }

    /** Claims the first due rows for a worker and fetches them. Due test and order compare text: up
        to a second of error in each, these are the rows whose time has come, oldest first. */
    method ClaimJobsDue(w: Worker, states: set<JobState>, now: T.Time, limit: nat) returns (ids: seq<Id>, jobs: seq<Row>)
      requires T.InRange(now) && TimesInRange(table)
      modifies this
      ensures Selected(old(table), states, now, limit, ids)
      ensures table == ClaimRows(old(table), ids, w) && logs == old(logs)
      ensures table.Keys == old(table).Keys && forall id | id in table ::
                table[id] == if id in ids then old(table)[id].(claimedBy := Some(w)) else old(table)[id]
      ensures |jobs| == |ids| && forall i | 0 <= i < |ids| :: ids[i] in table && jobs[i] == table[ids[i]]
      ensures forall i | 0 <= i < |ids| :: ids[i] in old(table) && DueAround(old(table)[ids[i]], states, now + T.SECOND - 1)
      ensures forall i, j | 0 <= i < j < |ids| :: jobs[i].createdAt < jobs[j].createdAt + T.SECOND
      ensures forall id | id in old(table) && id !in ids && DueAround(old(table)[id], states, now - T.SECOND) ::
                |ids| == limit && forall i | 0 <= i < |ids| :: jobs[i].createdAt < old(table)[id].createdAt + T.SECOND
    {
      hide Selected, Due, DueAround, TimesInRange;
      ids := SelectDue(states, now, limit);
      SelectedWithin(table, states, now, limit, ids);
      table := ClaimRows(table, ids, w);
      jobs := seq(|ids|, i requires 0 <= i < |ids| && ids[i] in table reads this => table[ids[i]]);
    }

    /** Clears the claim of a job, whoever holds it. */
    method ReleaseJobClaim(id: Id)
      modifies `table
      ensures table == ReleaseRow(old(table), id)
      ensures table == if id in old(table) then old(table)[id := old(table)[id].(claimedBy := None)] else old(table)
    {
      if id in table {
        table := table[id := table[id].(claimedBy := None)];
      }
    }

    method ReleaseAllClaims()
      modifies `table
      ensures table == ReleaseAll(old(table))
      ensures table.Keys == old(table).Keys && forall id | id in table :: table[id] == old(table)[id].(claimedBy := None)
    {
      table := map id | id in table :: table[id].(claimedBy := None);
    }
  }
}

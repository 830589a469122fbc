/**
 * The poller's tick and the worker's job handler as code over the shared tables.
 * The tables keep, as ghost state, the protocol steps taken so far: every state the
 * code can reach is the end of a protocol run, so the protocol lemmas hold of it.
 */
module Outbox {
  import opened Common
  import opened OutboxProtocol

  /** What the queue and the database answer while one event is enqueued. */
  datatype Answer = Accepted | Refused(added: bool, releaseFails: bool)

  /** The executor's verdict on a job. */
  datatype Outcome = CleanRun | ThrowsRun

  /** The shared tables; `holds`, `clean` and `drained` only record who is in the middle of what. */
  class Store {
    var now: int
    var rows: map<Id, Row>
    var jobs: map<Id, Job>
    ghost var holds: map<Id, map<Id, Hold>>
    ghost var clean: set<Id>
    ghost var drained: set<Id>
    ghost const start: int
    ghost var history: seq<Step>

    constructor (now: int)
      ensures Valid() && history == [] && State() == Empty(now)
    {
      this.now, start, rows, jobs := now, now, map[], map[];
      holds, clean, drained, history := map[], {}, {}, [];
    }

    ghost function State(): System
      reads this
    {
      System(now, rows, holds, jobs, clean, drained)
    }

    /** The tables are where the steps so far have brought them. */
    ghost predicate Valid()
      reads this
    {
      State() == Run(Empty(start), history)
    }

    lemma Reached()
      requires Valid()
      ensures Inv(State())
    {
      RunKeepsInv(Empty(start), history);
    }

    ghost method Log(before: System, step: Step)
      requires before == Run(Empty(start), history) && State() == Next(before, step)
      modifies this`history
      ensures Valid() && history == old(history) + [step]
    {
      RunSnoc(Empty(start), history, step);
      history := history + [step];
    }

    /** SELECT .. FOR UPDATE SKIP LOCKED and the lease update, in one transaction. */
    method ClaimBatch(poller: Id, ids: set<Id>, ghost locked: set<Id>)
      requires Valid() && poller !in holds && IsBatch(State(), now, ids, locked)
      modifies this
      ensures Valid() && history == old(history) + [Claim(poller, now, ids, locked)]
      ensures now == old(now) && rows == LeaseRows(old(rows), poller, now, ids) && jobs == old(jobs) && ids <= rows.Keys
      ensures poller in holds <==> ids != {}
      ensures ids != {} ==> holds[poller].Keys == ids && forall id :: id in ids ==> !holds[poller][id].threw
    {
      ghost var before := State();
      WriteLeases(poller, ids);
      Log(before, Claim(poller, now, ids, locked));
    }

    method WriteLeases(poller: Id, ids: set<Id>)
      modifies this`rows, this`holds
      ensures State() == ClaimRows(old(State()), poller, now, ids)
    {
      rows := map id | id in rows :: if id in ids then Claimed(rows[id], poller, now + LEASE_TTL_MS) else rows[id];
      if ids != {} {
        holds := holds[poller := map id | id in ids :: Hold(now + LEASE_TTL_MS, false)];
      }
    }

    /** The kill-switch update: every claimed row, by id. */
    method DrainAll(poller: Id, ids: set<Id>)
      requires Valid() && poller in holds && ids == holds[poller].Keys
      modifies this
      ensures Valid() && history == old(history) + [Drain(poller)]
      ensures poller !in holds && rows.Keys == old(rows).Keys && jobs == old(jobs)
      ensures forall id :: id in rows ==> if id in ids then rows[id].status == Processed else rows[id] == old(rows)[id]
    {
      ghost var before := State();
      rows := map id | id in rows :: if id in ids then rows[id].(status := Processed) else rows[id];
      holds, drained := holds - {poller}, drained + ids;
      Log(before, Drain(poller));
    }

    /** A queue call that succeeds: the job is there, new or known. */
    method QueueAdd(poller: Id, id: Id)
      requires Valid() && Holds(State(), poller, id) && !holds[poller][id].threw
      modifies this
      ensures Valid() && history == old(history) + [Add(poller, id)]
      ensures rows == old(rows) && jobs == AddJob(old(jobs), id) && holds == DropHold(old(holds), poller, id)
    {
      ghost var before := State();
      if id !in jobs { jobs := jobs[id := Waiting(JOB_ATTEMPTS)]; }
      holds := DropHold(holds, poller, id);
      Log(before, Add(poller, id));
    }

    /** A queue call that reports an error; the job may have been added all the same. */
    method QueueAddThrows(poller: Id, id: Id, added: bool)
      requires Valid() && Holds(State(), poller, id) && !holds[poller][id].threw
      modifies this
      ensures Valid() && history == old(history) + [AddThrows(poller, id, added)]
      ensures rows == old(rows) && jobs == if added then AddJob(old(jobs), id) else old(jobs)
      ensures holds == old(holds)[poller := old(holds)[poller][id := old(holds)[poller][id].(threw := true)]]
    {
      ghost var before := State();
      if added && id !in jobs { jobs := jobs[id := Waiting(JOB_ATTEMPTS)]; }
      holds := holds[poller := holds[poller][id := holds[poller][id].(threw := true)]];
      Log(before, AddThrows(poller, id, added));
    }

    /** Back to PENDING, if the row is still leased by this poller. */
    method ReleaseLease(poller: Id, id: Id)
      requires Valid() && Holds(State(), poller, id) && holds[poller][id].threw
      modifies this
      ensures Valid() && history == old(history) + [Release(poller, id)]
      ensures jobs == old(jobs) && rows == ReleaseRow(old(rows), poller, id)
      ensures holds == DropHold(old(holds), poller, id)
    {
      ghost var before := State();
      if id in rows && rows[id].leasedBy == Some(poller) {
        rows := rows[id := rows[id].(status := Pending, leasedBy := None, leasedUntil := None,
                                     attemptCount := rows[id].attemptCount + 1)];
      }
      holds := DropHold(holds, poller, id);
      Log(before, Release(poller, id));
    }

    /** The rest of a batch stays leased; the poller just stops. */
    method GiveUp(poller: Id)
      requires Valid() && poller in holds
      modifies this
      ensures Valid() && history == old(history) + [GivesUp(poller)]
      ensures jobs == old(jobs) && rows == old(rows) && holds == old(holds) - {poller}
    {
      ghost var before := State();
      holds := holds - {poller};
      Log(before, GivesUp(poller));
    }

    /** The kill switch is off: the row is marked and the job is done. */
    method SwitchOff(worker: Id, id: Id)
      requires Valid() && Enabled(State(), SwitchedOff(worker, id)) && id in rows
      modifies this
      ensures Valid() && history == old(history) + [SwitchedOff(worker, id)]
      ensures rows == MarkRow(old(rows), id)
    {
      ghost var before := State();
      rows := rows[id := rows[id].(status := Processed)];
      jobs, drained := jobs[id := Completed], drained + {id};
      Log(before, SwitchedOff(worker, id));
    }

    method ExitCleanly(worker: Id, id: Id)
      requires Valid() && Enabled(State(), CleanExit(worker, id))
      modifies this
      ensures Valid() && history == old(history) + [CleanExit(worker, id)]
      ensures rows == old(rows) && Enabled(State(), OutboxProtocol.Mark(worker, id))
    {
      ghost var before := State();
      jobs, clean := jobs[id := Ran(worker, jobs[id].tries)], clean + {id};
      Log(before, CleanExit(worker, id));
    }

    /** A throwing job is tried again while attempts are left. */
    method ThrowOut(worker: Id, id: Id)
      requires Valid() && Enabled(State(), Throws(worker, id))
      modifies this
      ensures Valid() && history == old(history) + [Throws(worker, id)] && rows == old(rows)
    {
      ghost var before := State();
      jobs := jobs[id := if jobs[id].tries > 1 then Waiting(jobs[id].tries - 1) else Failed];
      Log(before, Throws(worker, id));
    }

    method MarkProcessed(worker: Id, id: Id)
      requires Valid() && Enabled(State(), OutboxProtocol.Mark(worker, id)) && id in rows
      modifies this
      ensures Valid() && history == old(history) + [OutboxProtocol.Mark(worker, id)]
      ensures rows == MarkRow(old(rows), id)
    {
      ghost var before := State();
      rows := rows[id := rows[id].(status := Processed)];
      jobs := jobs[id := Completed];
      Log(before, OutboxProtocol.Mark(worker, id));
    }
  }

  /** Rows differ only where an event was settled, and then it is known to the queue or pending again. */
  ghost predicate OnlySettled(before: map<Id, Row>, rows: map<Id, Row>, jobs: map<Id, Job>, settled: set<Id>) {
    && before.Keys == rows.Keys
    && forall id :: id in rows && rows[id] != before[id] ==> id in settled && (id in jobs || rows[id].status == Pending)
  }

  ghost predicate KnownJobsKept(before: map<Id, Job>, jobs: map<Id, Job>) {
    forall id :: id in before ==> id in jobs && jobs[id] == before[id]
  }

  /** Settling one more event keeps what was settled before. */
  lemma SettlesOneMore(before: map<Id, Row>, rows: map<Id, Row>, jobs: map<Id, Job>, settled: set<Id>,
                       rows': map<Id, Row>, jobs': map<Id, Job>, id: Id)
    requires OnlySettled(before, rows, jobs, settled) && KnownJobsKept(jobs, jobs')
    requires OnlySettled(rows, rows', jobs', {id})
    ensures OnlySettled(before, rows', jobs', settled + {id})
  {
    forall x | x in rows' && rows'[x] != before[x]
      ensures x in settled + {id} && (x in jobs' || rows'[x].status == Pending)
    {
      if x != id { assert rows'[x] == rows[x]; }
    }
  }

  lemma JobsStayKept(a: map<Id, Job>, b: map<Id, Job>, c: map<Id, Job>)
    requires KnownJobsKept(a, b) && KnownJobsKept(b, c)
    ensures KnownJobsKept(a, c)
  {
  }

  /**
   * How a tick leaves a claimed event: processed if the kill switch is off, otherwise known to the
   * queue, back in PENDING, or still under the lease it was claimed with.
   */
  predicate DealtWith(before: Row, row: Row, known: bool, poller: Id, read: int, enabled: bool) {
    if !enabled then row.status == Processed
    else known || row.status == Pending || row == Claimed(before, poller, read + LEASE_TTL_MS)
  }

  /** Every claimed event is dealt with and no other row is touched. */
  ghost predicate TickLeaves(before: map<Id, Row>, rows: map<Id, Row>, jobs: map<Id, Job>,
                             ids: set<Id>, poller: Id, read: int, enabled: bool) {
    && before.Keys == rows.Keys && ids <= rows.Keys
    && (forall id :: id in ids ==> DealtWith(before[id], rows[id], id in jobs, poller, read, enabled))
    && (forall id :: id in before && id !in ids ==> rows[id] == before[id])
  }

  lemma ClaimThenSettle(before: map<Id, Row>, rows: map<Id, Row>, jobs: map<Id, Job>,
                        ids: set<Id>, poller: Id, read: int)
    requires ids <= before.Keys && OnlySettled(LeaseRows(before, poller, read, ids), rows, jobs, ids)
    ensures TickLeaves(before, rows, jobs, ids, poller, read, true)
  {
  }

  lemma ClaimThenDrain(before: map<Id, Row>, rows: map<Id, Row>, jobs: map<Id, Job>,
                       ids: set<Id>, poller: Id, read: int)
    requires ids <= before.Keys && rows.Keys == before.Keys
    requires var claimed := LeaseRows(before, poller, read, ids);
      forall id :: id in rows ==> if id in ids then rows[id].status == Processed else rows[id] == claimed[id]
    ensures TickLeaves(before, rows, jobs, ids, poller, read, false)
  {
  }

  class OutboxPoller {
    const workerId: Id
    const store: Store
    var inFlight: bool

    constructor (workerId: Id, store: Store)
      ensures this.workerId == workerId && this.store == store && !inFlight
    {
      this.workerId, this.store, inFlight := workerId, store, false;
    }

    /**
     * One tick. `ids` is what the claim query returns, `answer` how enqueueing each event
     * goes, and `enabled` whether the kill switch lets automations run. A claimed event stays
     * leased only if a release failed and the tick was abandoned. No known job is touched.
     */
    method Tick(ids: set<Id>, ghost locked: set<Id>, answer: Id -> Answer, enabled: bool)
      requires store.Valid()
      requires !inFlight ==> workerId !in store.holds && IsBatch(store.State(), store.now, ids, locked)
      modifies this`inFlight, store
      ensures store.Valid() && inFlight == old(inFlight)
      ensures old(inFlight) ==> store.State() == old(store.State())
      ensures !old(inFlight) ==> workerId !in store.holds && old(store.history) < store.history
      ensures !old(inFlight) ==>
        TickLeaves(old(store.rows), store.rows, store.jobs, ids, workerId, old(store.now), enabled)
      ensures !old(inFlight) && enabled && (forall id :: id in ids ==> answer(id).Accepted?) ==> ids <= store.jobs.Keys
      ensures KnownJobsKept(old(store.jobs), store.jobs)
    {
      if inFlight { return; }
      inFlight := true;
      store.ClaimBatch(workerId, ids, locked);
      if ids != {} {
        if enabled {
          EnqueueAll(ids, answer);
          ClaimThenSettle(old(store.rows), store.rows, store.jobs, ids, workerId, old(store.now));
        } else {
          store.DrainAll(workerId, ids);
          ClaimThenDrain(old(store.rows), store.rows, store.jobs, ids, workerId, old(store.now));
        }
      }
      inFlight := false;
    }

    /** Enqueues one event; a failed call releases its row. Tells whether the tick is abandoned. */
    method EnqueueOne(id: Id, answer: Answer) returns (gaveUp: bool)
      requires store.Valid() && id in store.rows
      requires Holds(store.State(), workerId, id) && !store.holds[workerId][id].threw
      modifies store
      ensures store.Valid() && old(store.history) <= store.history
      ensures gaveUp <==> answer.Refused? && answer.releaseFails
      ensures gaveUp || old(store.holds)[workerId].Keys == {id} ==> workerId !in store.holds
      ensures !gaveUp && old(store.holds)[workerId].Keys != {id} ==>
        workerId in store.holds && store.holds[workerId] == old(store.holds)[workerId] - {id}
      ensures OnlySettled(old(store.rows), store.rows, store.jobs, {id})
      ensures answer.Accepted? ==> id in store.jobs
      ensures KnownJobsKept(old(store.jobs), store.jobs)
    {
      ghost var rest := store.holds[workerId] - {id};
      assert rest.Keys == store.holds[workerId].Keys - {id};
      assert store.holds[workerId].Keys == {id} <==> rest.Keys == {};
      gaveUp := false;
      if answer.Accepted? {
        store.QueueAdd(workerId, id);
      } else {
        store.QueueAddThrows(workerId, id, answer.added);
        assert store.holds[workerId] - {id} == rest;
        if answer.releaseFails {
          store.GiveUp(workerId);
          gaveUp := true;
        } else {
          store.ReleaseLease(workerId, id);
        }
      }
    }

    /** Enqueues event by event. */
    method EnqueueAll(ids: set<Id>, answer: Id -> Answer)
      requires store.Valid() && workerId in store.holds && store.holds[workerId].Keys == ids
      requires ids != {} && ids <= store.rows.Keys && forall id :: id in ids ==> !store.holds[workerId][id].threw
      modifies store
      ensures store.Valid() && old(store.history) <= store.history
      ensures workerId !in store.holds && store.rows.Keys == old(store.rows).Keys
      ensures OnlySettled(old(store.rows), store.rows, store.jobs, ids)
      ensures (forall id :: id in ids ==> answer(id).Accepted?) ==> ids <= store.jobs.Keys
      ensures KnownJobsKept(old(store.jobs), store.jobs)
    {
      var left, done := ids, {};
      while left != {}
        invariant left + done == ids && left !! done
        invariant store.Valid() && old(store.history) <= store.history
        invariant left == {} ==> workerId !in store.holds
        invariant left != {} ==> workerId in store.holds && store.holds[workerId].Keys == left
        invariant left != {} ==> forall id :: id in left ==> !store.holds[workerId][id].threw
        invariant store.rows.Keys == old(store.rows).Keys
        invariant OnlySettled(old(store.rows), store.rows, store.jobs, done)
        invariant forall id :: id in done && answer(id).Accepted? ==> id in store.jobs
        invariant KnownJobsKept(old(store.jobs), store.jobs)
        decreases left
      {
        var id :| id in left;
        ghost var rows, jobs := store.rows, store.jobs;
        var gaveUp := EnqueueOne(id, answer(id));
        SettlesOneMore(old(store.rows), rows, jobs, done, store.rows, store.jobs, id);
        JobsStayKept(old(store.jobs), jobs, store.jobs);
        done := done + {id};
        if gaveUp { return; }
        left := left - {id};
      }
    }
  }

  class AutomationEventProcessor {
    const store: Store

    constructor (store: Store)
      ensures this.store == store
    {
      this.store := store;
    }

    /** Marking the row is the last thing a clean run does; a throwing run leaves the row alone. */
    method Process(worker: Id, id: Id, outcome: Outcome, enabled: bool) returns (threw: bool)
      requires store.Valid() && id in store.rows
      requires id in store.jobs && store.jobs[id].Running? && store.jobs[id].worker == worker
      modifies store
      ensures store.Valid()
      ensures threw <==> enabled && outcome.ThrowsRun?
      ensures store.rows == if threw then old(store.rows) else MarkRow(old(store.rows), id)
      ensures store.history == old(store.history) +
        if !enabled then [SwitchedOff(worker, id)]
        else if threw then [Throws(worker, id)]
        else [CleanExit(worker, id), OutboxProtocol.Mark(worker, id)]
    {
      threw := enabled && outcome.ThrowsRun?;
      if !enabled {
        store.SwitchOff(worker, id);
      } else if outcome.ThrowsRun? {
        store.ThrowOut(worker, id);
      } else {
        store.ExitCleanly(worker, id);
        store.MarkProcessed(worker, id);
      }
    }
  }
}

/**
 * The bridge from outbox rows to queue jobs to executed events: several pollers
 * with leases, a queue that drops a job whose id it already knows, and workers
 * that may throw, stall or die. Every database statement and every queue call is
 * one step, so a run is any interleaving of them.
 */
module OutboxProtocol {
  import opened Common

  type Id = nat

  const BATCH_SIZE := 50
  const LEASE_TTL_MS := 60_000
  const JOB_ATTEMPTS: nat := 3

  datatype Status = Pending | Processing | Processed

  datatype Row = Row(status: Status, leasedBy: Option<Id>, leasedUntil: Option<int>, attemptCount: nat, createdAt: int)

  /** A claimed event a poller has not dealt with yet; `threw`: the queue call failed and the row must be released. */
  datatype Hold = Hold(until: int, threw: bool)

  /** `tries` counts the attempts that are left. */
  datatype Job =
    | Waiting(tries: nat)
    | Running(worker: Id, tries: nat)
    | Ran(worker: Id, tries: nat)
    | Completed
    | Failed

  /** `clean` and `drained` remember which events left an executor cleanly or met a disabled kill switch. */
  datatype System = System(
    now: int,
    rows: map<Id, Row>,
    holds: map<Id, map<Id, Hold>>,
    jobs: map<Id, Job>,
    clean: set<Id>,
    drained: set<Id>
  )

  datatype Step =
    | Tick(ms: nat)
    | Emit(id: Id)
    | Claim(poller: Id, read: int, ids: set<Id>, locked: set<Id>)
    | Drain(poller: Id)
    | Add(poller: Id, id: Id)
    | AddThrows(poller: Id, id: Id, added: bool)
    | Release(poller: Id, id: Id)
    | GivesUp(poller: Id)
    | Start(worker: Id, id: Id)
    | SwitchedOff(worker: Id, id: Id)
    | CleanExit(worker: Id, id: Id)
    | Throws(worker: Id, id: Id)
    | Mark(worker: Id, id: Id)
    | Stalls(worker: Id, id: Id)
    | Evict(id: Id)

  // ------------------------------------------------------------------ steps

  /** The claim query's condition on a row, at clock reading `t`. */
  predicate Claimable(r: Row, t: int) {
    r.status == Pending || (r.status == Processing && r.leasedUntil.Some? && r.leasedUntil.value < t)
  }

  predicate Holds(s: System, poller: Id, id: Id) {
    poller in s.holds && id in s.holds[poller]
  }

  /** Oldest first, at most a batch, skipping rows locked by another claim. */
  predicate IsBatch(s: System, t: int, ids: set<Id>, locked: set<Id>) {
    var open := set id | id in s.rows && Claimable(s.rows[id], t) && id !in locked;
    && ids <= open && |ids| <= BATCH_SIZE
    && (|ids| < BATCH_SIZE ==> ids == open)
    && forall x, y :: x in ids && y in open - ids ==> s.rows[x].createdAt <= s.rows[y].createdAt
  }

  predicate Enabled(s: System, step: Step) {
    match step
    case Tick(_) => true
    case Emit(id) => id !in s.rows
    case Claim(p, read, ids, locked) => p !in s.holds && read <= s.now && IsBatch(s, read, ids, locked)
    case Drain(p) => p in s.holds
    case Add(p, id) => Holds(s, p, id) && !s.holds[p][id].threw
    case AddThrows(p, id, _) => Holds(s, p, id) && !s.holds[p][id].threw
    case Release(p, id) => Holds(s, p, id) && s.holds[p][id].threw
    case GivesUp(p) => p in s.holds
    case Start(_, id) => id in s.jobs && s.jobs[id].Waiting? && s.jobs[id].tries > 0
    case SwitchedOff(w, id) => id in s.jobs && s.jobs[id].Running? && s.jobs[id].worker == w
    case CleanExit(w, id) => id in s.jobs && s.jobs[id].Running? && s.jobs[id].worker == w
    case Throws(w, id) => id in s.jobs && (s.jobs[id].Running? || s.jobs[id].Ran?) && s.jobs[id].worker == w
    case Mark(w, id) => id in s.jobs && s.jobs[id].Ran? && s.jobs[id].worker == w
    case Stalls(w, id) => id in s.jobs && (s.jobs[id].Running? || s.jobs[id].Ran?) && s.jobs[id].worker == w
    case Evict(id) => id in s.jobs && (s.jobs[id].Completed? || s.jobs[id].Failed?)
  }

  function Claimed(r: Row, poller: Id, until: int): Row {
    r.(status := Processing, leasedBy := Some(poller), leasedUntil := Some(until), attemptCount := r.attemptCount + 1)
  }

  function LeaseRows(rows: map<Id, Row>, poller: Id, read: int, ids: set<Id>): map<Id, Row> {
    map id | id in rows :: if id in ids then Claimed(rows[id], poller, read + LEASE_TTL_MS) else rows[id]
  }

  function ClaimRows(s: System, poller: Id, read: int, ids: set<Id>): System {
    s.(rows := LeaseRows(s.rows, poller, read, ids),
       holds := if ids == {} then s.holds
                else s.holds[poller := map id | id in ids :: Hold(read + LEASE_TTL_MS, false)])
  }

  /** The drain writes by id alone; it does not look at the lease. */
  function DrainRows(s: System, poller: Id): System
    requires poller in s.holds
  {
    var ids := s.holds[poller].Keys;
    s.(rows := map id | id in s.rows :: if id in ids then s.rows[id].(status := Processed) else s.rows[id],
       holds := s.holds - {poller}, drained := s.drained + ids)
  }

  /** A job id the queue still knows, in whatever state, makes the call a no-op. */
  function AddJob(jobs: map<Id, Job>, id: Id): map<Id, Job> {
    if id in jobs then jobs else jobs[id := Waiting(JOB_ATTEMPTS)]
  }

  /** The poller is done with the event; with its last event it is done with the batch. */
  function DropHold(holds: map<Id, map<Id, Hold>>, poller: Id, id: Id): map<Id, map<Id, Hold>>
    requires poller in holds
  {
    var rest := holds[poller] - {id};
    if rest == map[] then holds - {poller} else holds[poller := rest]
  }

  /** The release writes only a row that is still leased by this poller. */
  function ReleaseRow(rows: map<Id, Row>, poller: Id, id: Id): map<Id, Row> {
    if id in rows && rows[id].leasedBy == Some(poller)
    then rows[id := rows[id].(status := Pending, leasedBy := None, leasedUntil := None,
                              attemptCount := rows[id].attemptCount + 1)]
    else rows
  }

  function MarkRow(rows: map<Id, Row>, id: Id): map<Id, Row> {
    if id in rows then rows[id := rows[id].(status := Processed)] else rows
  }

  function Retried(job: Job): Job
    requires job.Running? || job.Ran?
  {
    if job.tries > 1 then Waiting(job.tries - 1) else Failed
  }

  function Next(s: System, step: Step): System {
    if !Enabled(s, step) then s
    else match step
      case Tick(ms) => s.(now := s.now + ms)
      case Emit(id) => s.(rows := s.rows[id := Row(Pending, None, None, 0, s.now)])
      case Claim(p, read, ids, _) => ClaimRows(s, p, read, ids)
      case Drain(p) => DrainRows(s, p)
      case Add(p, id) => s.(jobs := AddJob(s.jobs, id), holds := DropHold(s.holds, p, id))
      case AddThrows(p, id, added) =>
        s.(jobs := if added then AddJob(s.jobs, id) else s.jobs,
           holds := s.holds[p := s.holds[p][id := s.holds[p][id].(threw := true)]])
      case Release(p, id) => s.(rows := ReleaseRow(s.rows, p, id), holds := DropHold(s.holds, p, id))
      case GivesUp(p) => s.(holds := s.holds - {p})
      case Start(w, id) => s.(jobs := s.jobs[id := Running(w, s.jobs[id].tries)])
      case SwitchedOff(w, id) =>
        s.(rows := MarkRow(s.rows, id), jobs := s.jobs[id := Completed], drained := s.drained + {id})
      case CleanExit(w, id) => s.(jobs := s.jobs[id := Ran(w, s.jobs[id].tries)], clean := s.clean + {id})
      case Throws(w, id) => s.(jobs := s.jobs[id := Retried(s.jobs[id])])
      case Mark(w, id) => s.(rows := MarkRow(s.rows, id), jobs := s.jobs[id := Completed])
      case Stalls(w, id) => s.(jobs := s.jobs[id := Waiting(s.jobs[id].tries)])
      case Evict(id) => s.(jobs := s.jobs - {id})
  }

  function Run(s: System, steps: seq<Step>): System
    decreases |steps|
  {
    if steps == [] then s else Run(Next(s, steps[0]), steps[1..])
  }

  function Empty(now: int): System {
    System(now, map[], map[], map[], {}, {})
  }

  lemma RunCons(s: System, step: Step, rest: seq<Step>)
    ensures Run(s, [step] + rest) == Run(Next(s, step), rest)
  {
    assert ([step] + rest)[1..] == rest;
  }

  lemma {:induction false} RunSnoc(s: System, steps: seq<Step>, last: Step)
    ensures Run(s, steps + [last]) == Next(Run(s, steps), last)
    decreases |steps|
  {
    if steps == [] {
      RunCons(s, last, []);
      assert [] + [last] == [last] + [];
    } else {
      RunSnoc(Next(s, steps[0]), steps[1..], last);
      assert (steps + [last])[1..] == steps[1..] + [last];
    }
  }

  // -------------------------------------------------------------- invariant

  /** Status and lease columns agree, and no lease reaches further than one lease from now. */
  ghost predicate RowsOk(s: System) {
    forall id :: id in s.rows ==>
      var r := s.rows[id];
      && (r.status == Pending ==> r.leasedBy.None? && r.leasedUntil.None?)
      && (r.status == Processing ==> r.leasedBy.Some? && r.leasedUntil.Some?)
      && (r.leasedUntil.Some? ==> r.leasedUntil.value <= s.now + LEASE_TTL_MS)
  }

  /** A poller whose lease has not run out is the one the row names. */
  ghost predicate LeasesOk(s: System) {
    forall p, id :: Holds(s, p, id) ==>
      && id in s.rows
      && (s.holds[p][id].until >= s.now ==>
            && s.rows[id].leasedBy == Some(p)
            && s.rows[id].leasedUntil == Some(s.holds[p][id].until)
            && s.rows[id].status != Pending)
  }

  /** Only a clean exit or a drain marks an event processed, and only claimed events become jobs. */
  ghost predicate JobsOk(s: System) {
    && (forall id :: id in s.jobs ==> id in s.rows && s.rows[id].attemptCount > 0)
    && (forall p, id :: Holds(s, p, id) && id in s.rows ==> s.rows[id].attemptCount > 0)
    && (forall id :: id in s.jobs && s.jobs[id].Ran? ==> id in s.clean)
    && (forall id :: id in s.rows && s.rows[id].status == Processed ==> id in s.clean + s.drained)
  }

  ghost predicate Inv(s: System) {
    RowsOk(s) && LeasesOk(s) && JobsOk(s)
  }

  lemma ClaimKeepsLeases(s: System, p: Id, read: int, ids: set<Id>, locked: set<Id>)
    requires Inv(s) && Enabled(s, Claim(p, read, ids, locked))
    ensures LeasesOk(ClaimRows(s, p, read, ids))
  {
    var v := ClaimRows(s, p, read, ids);
    forall q, id | Holds(v, q, id)
      ensures id in v.rows
      ensures v.holds[q][id].until >= v.now ==>
        && v.rows[id].leasedBy == Some(q) && v.rows[id].leasedUntil == Some(v.holds[q][id].until)
        && v.rows[id].status != Pending
    {
      if q != p {
        assert Holds(s, q, id);
      }
    }
  }

  lemma DropKeepsHolds(s: System, p: Id, id: Id, q: Id, x: Id)
    requires p in s.holds && Holds(s.(holds := DropHold(s.holds, p, id)), q, x)
    ensures Holds(s, q, x) && DropHold(s.holds, p, id)[q][x] == s.holds[q][x] && !(q == p && x == id)
  {
  }

  lemma ReleaseKeepsInv(s: System, p: Id, id: Id)
    requires Inv(s) && Enabled(s, Release(p, id))
    ensures Inv(Next(s, Release(p, id)))
  {
    var v := Next(s, Release(p, id));
    forall q, x | Holds(v, q, x)
      ensures x in v.rows && v.rows[x].attemptCount > 0
      ensures v.holds[q][x].until >= v.now ==>
        && v.rows[x].leasedBy == Some(q) && v.rows[x].leasedUntil == Some(v.holds[q][x].until)
        && v.rows[x].status != Pending
    {
      DropKeepsHolds(s, p, id, q, x);
    }
  }

  lemma AddKeepsInv(s: System, p: Id, id: Id)
    requires Inv(s) && Enabled(s, Add(p, id))
    ensures Inv(Next(s, Add(p, id)))
  {
    var v := Next(s, Add(p, id));
    forall q, x | Holds(v, q, x)
      ensures Holds(s, q, x) && v.holds[q][x] == s.holds[q][x]
    {
      DropKeepsHolds(s, p, id, q, x);
    }
  }

  lemma AddThrowsKeepsInv(s: System, p: Id, id: Id, added: bool)
    requires Inv(s) && Enabled(s, AddThrows(p, id, added))
    ensures Inv(Next(s, AddThrows(p, id, added)))
  {
    var v := Next(s, AddThrows(p, id, added));
    forall q, x | Holds(v, q, x)
      ensures Holds(s, q, x) && v.holds[q][x].until == s.holds[q][x].until
    {
    }
  }

  lemma DrainKeepsInv(s: System, p: Id)
    requires Inv(s) && Enabled(s, Drain(p))
    ensures Inv(Next(s, Drain(p)))
  {
    var v := Next(s, Drain(p));
    forall q, x | Holds(v, q, x)
      ensures Holds(s, q, x) && v.holds[q][x] == s.holds[q][x]
    {
    }
  }

  lemma ClaimKeepsInv(s: System, p: Id, read: int, ids: set<Id>, locked: set<Id>)
    requires Inv(s) && Enabled(s, Claim(p, read, ids, locked))
    ensures Inv(Next(s, Claim(p, read, ids, locked)))
  {
    ClaimKeepsLeases(s, p, read, ids, locked);
    var v := ClaimRows(s, p, read, ids);
    forall q, x | Holds(v, q, x)
      ensures v.rows[x].attemptCount > 0
    {
      if q != p { assert Holds(s, q, x); }
    }
  }

  /** A worker's step touches no hold, no lease column and no claim count. */
  lemma WorkerKeepsInv(s: System, v: System, id: Id)
    requires Inv(s) && id in s.jobs && v.now == s.now && v.holds == s.holds
    requires v.rows == s.rows || (v.rows == MarkRow(s.rows, id) && id in v.clean + v.drained)
    requires s.clean <= v.clean && s.drained <= v.drained
    requires forall x :: x in v.jobs ==> x in s.jobs && (x == id || v.jobs[x] == s.jobs[x])
    requires id in v.jobs && v.jobs[id].Ran? ==> id in v.clean
    ensures Inv(v)
  {
    assert forall q, x :: Holds(v, q, x) ==> Holds(s, q, x);
  }

  /** Time passes, events are born, pollers go away. */
  lemma QuietKeepsInv(s: System, v: System)
    requires Inv(s) && v.now >= s.now && v.jobs == s.jobs && v.clean == s.clean && v.drained == s.drained
    requires forall p :: p in v.holds ==> p in s.holds && v.holds[p] == s.holds[p]
    requires forall id :: id in s.rows ==> id in v.rows && v.rows[id] == s.rows[id]
    requires forall id :: id in v.rows && id !in s.rows ==> v.rows[id] == Row(Pending, None, None, 0, v.now)
    ensures Inv(v)
  {
    assert forall q, x :: Holds(v, q, x) ==> Holds(s, q, x);
  }

  lemma NextKeepsInv(s: System, step: Step)
    requires Inv(s)
    ensures Inv(Next(s, step))
  {
    if Enabled(s, step) {
      match step
      case Tick(_) => QuietKeepsInv(s, Next(s, step));
      case Emit(id) => QuietKeepsInv(s, Next(s, step));
      case Claim(p, read, ids, locked) => ClaimKeepsInv(s, p, read, ids, locked);
      case Drain(p) => DrainKeepsInv(s, p);
      case Add(p, id) => AddKeepsInv(s, p, id);
      case AddThrows(p, id, added) => AddThrowsKeepsInv(s, p, id, added);
      case Release(p, id) => ReleaseKeepsInv(s, p, id);
      case GivesUp(p) => QuietKeepsInv(s, Next(s, step));
      case _ => WorkerKeepsInv(s, Next(s, step), step.id);
    }
  }

  lemma {:induction false} RunKeepsInv(s: System, steps: seq<Step>)
    requires Inv(s)
    ensures Inv(Run(s, steps))
    decreases |steps|
  {
    if steps != [] {
      NextKeepsInv(s, steps[0]);
      RunKeepsInv(Next(s, steps[0]), steps[1..]);
    }
  }

  // -------------------------------------------------------------- the claims

  /** Two pollers never both hold an unexpired lease on one event. */
  lemma LeaseIsExclusive(s0: System, steps: seq<Step>, p: Id, q: Id, id: Id)
    requires Inv(s0)
    ensures var s := Run(s0, steps);
      (Holds(s, p, id) && s.holds[p][id].until >= s.now && Holds(s, q, id) && s.holds[q][id].until >= s.now)
        ==> p == q
  {
    RunKeepsInv(s0, steps);
  }

  /** Releasing changes the row exactly when the poller still is the one the row names. */
  lemma ReleaseTouchesOwnLeaseOnly(s: System, p: Id, id: Id)
    requires Inv(s) && Enabled(s, Release(p, id))
    ensures Next(s, Release(p, id)).rows != s.rows <==> s.rows[id].leasedBy == Some(p)
    ensures forall x :: x != id && x in s.rows ==> Next(s, Release(p, id)).rows[x] == s.rows[x]
  {
    if s.rows[id].leasedBy == Some(p) {
      assert Next(s, Release(p, id)).rows[id].attemptCount != s.rows[id].attemptCount;
    }
  }

  /** An event that is not processed can be claimed now, or as soon as its lease ends: at most one lease from now. */
  lemma NothingIsLost(s0: System, steps: seq<Step>, id: Id)
    requires Inv(s0)
    ensures var s := Run(s0, steps);
      id in s.rows && s.rows[id].status != Processed ==>
        && forall t: int :: t > s.now + 60_000 ==> Claimable(s.rows[id], t)
    ensures var s := Run(s0, steps);
      id in s.rows && s.rows[id].status == Processing ==>
        && s.rows[id].leasedBy.Some? && s.rows[id].leasedUntil.Some?
        && forall t: int :: Claimable(s.rows[id], t) <==> t > s.rows[id].leasedUntil.value
  {
    RunKeepsInv(s0, steps);
  }

  /** A claim gives every row it takes sixty seconds from its reading, and takes at most fifty. */
  lemma ClaimLeasesAMinute(s: System, p: Id, read: int, ids: set<Id>, locked: set<Id>)
    requires Enabled(s, Claim(p, read, ids, locked))
    ensures var v := Next(s, Claim(p, read, ids, locked));
      && |ids| <= 50 && v.rows.Keys == s.rows.Keys
      && forall id :: id in s.rows ==>
           if id in ids then
             && (s.rows[id].status == Pending
                 || (s.rows[id].status == Processing && s.rows[id].leasedUntil.value < read))
             && v.rows[id] == Row(Processing, Some(p), Some(read + 60_000), s.rows[id].attemptCount + 1,
                                  s.rows[id].createdAt)
           else v.rows[id] == s.rows[id]
  {
    assert forall id :: id in ids ==> Claimable(s.rows[id], read);
  }

  /** The oldest row that may be claimed is in every claim that does not find it locked. */
  lemma OldestIsClaimed(s: System, p: Id, read: int, ids: set<Id>, locked: set<Id>, id: Id)
    requires Enabled(s, Claim(p, read, ids, locked))
    requires id in s.rows && Claimable(s.rows[id], read) && id !in locked
    requires forall x :: x in s.rows && x != id && Claimable(s.rows[x], read) ==>
      s.rows[x].createdAt > s.rows[id].createdAt
    ensures id in ids
  {
    var open := set x | x in s.rows && Claimable(s.rows[x], read) && x !in locked;
    assert id in open;
  }

  /** With at most fifty rows that may be claimed and are not locked, a claim takes them all. */
  lemma FewAreAllClaimed(s: System, p: Id, read: int, ids: set<Id>, locked: set<Id>)
    requires Enabled(s, Claim(p, read, ids, locked))
    requires |set x | x in s.rows && Claimable(s.rows[x], read) && x !in locked| <= 50
    ensures forall x :: x in s.rows && Claimable(s.rows[x], read) && x !in locked ==> x in ids
  {
    var open := set x | x in s.rows && Claimable(s.rows[x], read) && x !in locked;
    assert open == set x | x in s.rows && Claimable(s.rows[x], read) && x !in locked;
    if |ids| == BATCH_SIZE { SubsetOfSameSize(ids, open); }
  }

  lemma SubsetOfSameSize(a: set<Id>, b: set<Id>)
    requires a <= b && |a| >= |b|
    ensures a == b
  {
    assert b == a + (b - a);
    assert |b| == |a| + |b - a|;
  }

  predicate Drains(step: Step) {
    step.Drain? || step.SwitchedOff?
  }

  lemma {:induction false} UndrainedRun(s: System, steps: seq<Step>)
    requires forall x :: x in steps ==> !Drains(x)
    ensures Run(s, steps).drained == s.drained
    decreases |steps|
  {
    if steps != [] {
      assert !Drains(steps[0]);
      UndrainedRun(Next(s, steps[0]), steps[1..]);
    }
  }

  /** A processed event has left an executor cleanly or was drained; if nothing drains, it ran cleanly. */
  lemma ProcessedMeansCleanExit(s0: System, steps: seq<Step>, id: Id)
    requires Inv(s0)
    ensures var s := Run(s0, steps);
      id in s.rows && s.rows[id].status == Processed ==>
        && id in s.clean + s.drained
        && (s0.drained == {} && (forall x :: x in steps ==> !Drains(x)) ==> id in s.clean)
  {
    RunKeepsInv(s0, steps);
    if forall x :: x in steps ==> !Drains(x) { UndrainedRun(s0, steps); }
  }

  // -------------------------------------------------------- what does not hold

  /** PROCESSED is left by exactly one kind of step: a release by the poller whose lease the row still shows. */
  lemma ProcessedIsLeftOnlyByRelease(s: System, step: Step, id: Id)
    requires Inv(s) && id in s.rows && s.rows[id].status == Processed && Enabled(s, step)
    ensures id in Next(s, step).rows
    ensures Next(s, step).rows[id].status != Processed <==>
      step.Release? && step.id == id && s.rows[id].leasedBy == Some(step.poller)
  {
    if step.Claim? {
      assert forall x :: x in step.ids ==> Claimable(s.rows[x], step.read);
    }
  }

  /** A claimed event whose queue call reported an error after the job was taken. */
  lemma AddedButThrew(p: Id, id: Id) returns (s: System)
    ensures s == Run(Empty(0), [Emit(id), Claim(p, 0, {id}, {}), AddThrows(p, id, true)])
    ensures s.rows == map[id := Row(Processing, Some(p), Some(LEASE_TTL_MS), 1, 0)]
    ensures s.jobs == map[id := Waiting(JOB_ATTEMPTS)]
    ensures Holds(s, p, id) && s.holds[p][id].threw && s.holds[p].Keys == {id}
  {
    var s0 := Empty(0);
    var a, b, c := Emit(id), Claim(p, 0, {id}, {}), AddThrows(p, id, true);
    var s1 := Next(s0, a);
    assert s1 == s0.(rows := map[id := Row(Pending, None, None, 0, 0)]);
    assert (set x | x in s1.rows && Claimable(s1.rows[x], 0) && x !in {}) == {id};
    assert Enabled(s1, b);
    var s2 := Next(s1, b);
    assert s2.jobs == map[] && Holds(s2, p, id) && !s2.holds[p][id].threw;
    s := Next(s2, c);
    RunCons(s0, a, [b, c]);
    RunCons(s1, b, [c]);
    RunCons(s2, c, []);
  }

  lemma WorkerMarks(s: System, w: Id, id: Id)
    requires id in s.rows && id in s.jobs && s.jobs[id] == Waiting(JOB_ATTEMPTS)
    ensures var v := Run(s, [Start(w, id), CleanExit(w, id), Mark(w, id)]);
      && v.holds == s.holds && v.rows == s.rows[id := s.rows[id].(status := Processed)]
      && v.jobs == s.jobs[id := Completed] && v.clean == s.clean + {id}
    ensures Executions(s, [Start(w, id), CleanExit(w, id), Mark(w, id)], id) == 1
  {
    var d, e, f := Start(w, id), CleanExit(w, id), Mark(w, id);
    var s1 := s.(jobs := s.jobs[id := Running(w, JOB_ATTEMPTS)]);
    var s2 := s1.(jobs := s1.jobs[id := Ran(w, JOB_ATTEMPTS)], clean := s1.clean + {id});
    assert Next(s, d) == s1;
    assert Next(s1, e) == s2;
    RunCons(s, d, [e, f]);
    RunCons(s1, e, [f]);
    RunCons(s2, f, []);
    TakenCons(s, d, [e, f], CleanExitsOf(id));
    TakenCons(s1, e, [f], CleanExitsOf(id));
    TakenCons(s2, f, [], CleanExitsOf(id));
  }

  /** A worker that dies costs the job no attempt: starting and stalling leave everything as it was. */
  lemma StallCostsNothing(s: System, w: Id, id: Id)
    requires Enabled(s, Start(w, id))
    ensures Run(s, [Start(w, id), Stalls(w, id)]) == s
  {
    var started := s.(jobs := s.jobs[id := Running(w, s.jobs[id].tries)]);
    assert Next(s, Start(w, id)) == started;
    RunCons(s, Start(w, id), [Stalls(w, id)]);
    RunCons(started, Stalls(w, id), []);
    assert started.jobs[id := Waiting(s.jobs[id].tries)] == s.jobs;
  }

  function Deaths(w: Id, id: Id, n: nat): seq<Step> {
    if n == 0 then [] else [Start(w, id), Stalls(w, id)] + Deaths(w, id, n - 1)
  }

  /** However many workers die on it, an event that waits is processed by the first one that ends cleanly. */
  lemma {:induction false} StalledEventStillRuns(s: System, w: Id, id: Id, n: nat)
    requires id in s.rows && id in s.jobs && s.jobs[id] == Waiting(JOB_ATTEMPTS)
    ensures var v := Run(s, Deaths(w, id, n) + [Start(w, id), CleanExit(w, id), Mark(w, id)]);
      id in v.rows && v.rows[id].status == Processed && id in v.clean
    decreases n
  {
    var work := [Start(w, id), CleanExit(w, id), Mark(w, id)];
    RunAppends(s, Deaths(w, id, n), work);
    WorkerMarks(s, w, id);
    DeathsCostNothing(s, w, id, n);
  }

  lemma {:induction false} DeathsCostNothing(s: System, w: Id, id: Id, n: nat)
    requires Enabled(s, Start(w, id))
    ensures Run(s, Deaths(w, id, n)) == s
    decreases n
  {
    if n > 0 {
      StallCostsNothing(s, w, id);
      RunAppends(s, [Start(w, id), Stalls(w, id)], Deaths(w, id, n - 1));
      DeathsCostNothing(s, w, id, n - 1);
    }
  }

  /** Such a release does happen: the poller then undoes the mark of an event that ran cleanly. */
  lemma ProcessedCanBeUndone(p: Id, w: Id, id: Id)
    ensures var s := Run(Run(Empty(0), [Emit(id), Claim(p, 0, {id}, {}), AddThrows(p, id, true)]),
                         [Start(w, id), CleanExit(w, id), Mark(w, id)]);
      && id in s.rows && s.rows[id].status == Processed
      && Enabled(s, Release(p, id)) && Next(s, Release(p, id)).rows[id].status == Pending
  {
    var s := AddedButThrew(p, id);
    WorkerMarks(s, w, id);
    var v := Run(s, [Start(w, id), CleanExit(w, id), Mark(w, id)]);
    assert Holds(v, p, id);
  }

  /** The queue is through with the event's job, one way or the other, and the row is not processed. */
  predicate Stranded(s: System, id: Id) {
    && id in s.jobs && (s.jobs[id].Failed? || s.jobs[id].Completed?)
    && id in s.rows && s.rows[id].status != Processed
  }

  /** The queue forgets the finished job, or a disabled kill switch drains this very event. */
  predicate Frees(s: System, step: Step, id: Id) {
    Enabled(s, step) && (step == Evict(id) || (step.Drain? && Holds(s, step.poller, id)))
  }

  predicate NeverFreed(s: System, steps: seq<Step>, id: Id)
    decreases |steps|
  {
    steps != [] ==> !Frees(s, steps[0], id) && NeverFreed(Next(s, steps[0]), steps[1..], id)
  }

  predicate StrandedThroughout(s: System, steps: seq<Step>, id: Id)
    decreases |steps|
  {
    Stranded(s, id) && (steps != [] ==> StrandedThroughout(Next(s, steps[0]), steps[1..], id))
  }

  lemma StrandedNextIff(s: System, step: Step, id: Id)
    requires Inv(s) && Stranded(s, id)
    ensures Stranded(Next(s, step), id) <==> !Frees(s, step, id)
  {
  }

  /**
   * A failed or completed job is kept by the queue under the event's id. However often pollers claim
   * and enqueue the event again, it never runs and is never processed, exactly until its job is
   * evicted or the event itself is drained.
   */
  lemma {:induction false} FinishedJobStrandsEvent(s: System, steps: seq<Step>, id: Id)
    requires Inv(s) && Stranded(s, id)
    ensures StrandedThroughout(s, steps, id) <==> NeverFreed(s, steps, id)
    ensures NeverFreed(s, steps, id) ==> Stranded(Run(s, steps), id)
    decreases |steps|
  {
    if steps != [] {
      NextKeepsInv(s, steps[0]);
      StrandedNextIff(s, steps[0], id);
      if Stranded(Next(s, steps[0]), id) { FinishedJobStrandsEvent(Next(s, steps[0]), steps[1..], id); }
    }
  }

  /** One failing execution: the job waits again with a try less, or has failed. */
  lemma FailsOnce(s: System, w: Id, id: Id, tries: nat)
    requires id in s.jobs && s.jobs[id] == Waiting(tries) && tries > 0
    ensures Run(s, [Start(w, id), Throws(w, id)]) ==
      s.(jobs := s.jobs[id := if tries > 1 then Waiting(tries - 1) else Failed])
  {
    var s1 := s.(jobs := s.jobs[id := Running(w, tries)]);
    assert Next(s, Start(w, id)) == s1;
    RunCons(s, Start(w, id), [Throws(w, id)]);
    RunCons(s1, Throws(w, id), []);
    assert s1.jobs[id := Retried(Running(w, tries))] == s.jobs[id := Retried(Running(w, tries))];
  }

  lemma {:induction false} RunAppends(s: System, a: seq<Step>, b: seq<Step>)
    ensures Run(s, a + b) == Run(Run(s, a), b)
    decreases |a|
  {
    if a == [] {
      assert a + b == b;
    } else {
      assert (a + b)[1..] == a[1..] + b;
      RunAppends(Next(s, a[0]), a[1..], b);
    }
  }

  lemma FailsThreeTimes(s: System, w: Id, id: Id)
    requires id in s.jobs && s.jobs[id] == Waiting(JOB_ATTEMPTS)
    ensures var fails := [Start(w, id), Throws(w, id)];
      Run(s, fails + (fails + fails)) == s.(jobs := s.jobs[id := Failed])
  {
    var fails := [Start(w, id), Throws(w, id)];
    FailsOnce(s, w, id, 3);
    var s1 := Run(s, fails);
    FailsOnce(s1, w, id, 2);
    var s2 := Run(s1, fails);
    FailsOnce(s2, w, id, 1);
    RunAppends(s1, fails, fails);
    RunAppends(s, fails, fails + fails);
  }

  /** Three throwing executions in a row: the job has failed and the event is stranded. */
  lemma JobsDoFail(p: Id, w: Id, id: Id) returns (steps: seq<Step>)
    ensures Stranded(Run(Empty(0), steps), id) && Run(Empty(0), steps).jobs[id].Failed?
    ensures Inv(Run(Empty(0), steps))
    ensures forall step :: step in steps ==> !Drains(step)
  {
    var fails := [Start(w, id), Throws(w, id)];
    var opening := [Emit(id), Claim(p, 0, {id}, {}), Add(p, id)];
    var s := AddedCleanly(p, id);
    FailsThreeTimes(s, w, id);
    RunAppends(Empty(0), opening, fails + (fails + fails));
    steps := opening + (fails + (fails + fails));
    RunKeepsInv(Empty(0), steps);
  }

  lemma AddedCleanly(p: Id, id: Id) returns (s: System)
    ensures s == Run(Empty(0), [Emit(id), Claim(p, 0, {id}, {}), Add(p, id)])
    ensures s.rows == map[id := Row(Processing, Some(p), Some(LEASE_TTL_MS), 1, 0)]
    ensures s.jobs == map[id := Waiting(JOB_ATTEMPTS)]
  {
    var s0 := Empty(0);
    var a, b, c := Emit(id), Claim(p, 0, {id}, {}), Add(p, id);
    var s1 := Next(s0, a);
    assert s1 == s0.(rows := map[id := Row(Pending, None, None, 0, 0)]);
    assert (set x | x in s1.rows && Claimable(s1.rows[x], 0) && x !in {}) == {id};
    assert Enabled(s1, b);
    var s2 := Next(s1, b);
    assert s2.jobs == map[] && Holds(s2, p, id) && !s2.holds[p][id].threw;
    s := Next(s2, c);
    RunCons(s0, a, [b, c]);
    RunCons(s1, b, [c]);
    RunCons(s2, c, []);
  }

  /** Any poller that is free can claim a claimable event alone, while others lock the rest. */
  lemma ClaimAlone(s: System, p: Id, id: Id)
    requires id in s.rows && Claimable(s.rows[id], s.now) && p !in s.holds
    ensures var step := Claim(p, s.now, {id}, s.rows.Keys - {id});
      Enabled(s, step) && Holds(Next(s, step), p, id) && !Next(s, step).holds[p][id].threw
      && Next(s, step).rows.Keys == s.rows.Keys && Next(s, step).jobs == s.jobs
  {
    var locked := s.rows.Keys - {id};
    assert (set x | x in s.rows && Claimable(s.rows[x], s.now) && x !in locked) == {id};
  }

  /** The queue forgets a finished job, the lease ends, and a free poller enqueues the event once more. */
  function Rescue(s: System, p: Id, id: Id): seq<Step> {
    var later := s.now + LEASE_TTL_MS + 1;
    [Evict(id), Tick(LEASE_TTL_MS + 1), Claim(p, later, {id}, s.rows.Keys - {id}), Add(p, id)]
  }

  lemma ClaimThenAdd(s: System, p: Id, id: Id)
    requires id in s.rows && Claimable(s.rows[id], s.now) && p !in s.holds && id !in s.jobs
    ensures var v := Next(Next(s, Claim(p, s.now, {id}, s.rows.Keys - {id})), Add(p, id));
      id in v.rows && id in v.jobs && v.jobs[id] == Waiting(JOB_ATTEMPTS)
  {
    ClaimAlone(s, p, id);
  }

  lemma RunFour(s: System, a: Step, b: Step, c: Step, d: Step)
    ensures Run(s, [a, b, c, d]) == Next(Next(Next(Next(s, a), b), c), d)
  {
    RunCons(s, a, [b, c, d]);
    RunCons(Next(s, a), b, [c, d]);
    RunCons(Next(Next(s, a), b), c, [d]);
    RunCons(Next(Next(Next(s, a), b), c), d, []);
  }

  lemma RescuedWaits(s: System, p: Id, id: Id)
    requires Stranded(s, id) && Claimable(s.rows[id], s.now + LEASE_TTL_MS + 1) && p !in s.holds
    ensures var v := Run(s, Rescue(s, p, id));
      id in v.rows && id in v.jobs && v.jobs[id] == Waiting(JOB_ATTEMPTS)
  {
    var later := s.now + LEASE_TTL_MS + 1;
    var s2 := Next(Next(s, Evict(id)), Tick(LEASE_TTL_MS + 1));
    assert s2 == s.(jobs := s.jobs - {id}, now := later);
    ClaimThenAdd(s2, p, id);
    RunFour(s, Evict(id), Tick(LEASE_TTL_MS + 1), Claim(p, later, {id}, s.rows.Keys - {id}), Add(p, id));
  }

  /** Once evicted, the event can be claimed, executed and processed: only the kept job id stood in the way. */
  lemma EvictedEventRuns(s: System, p: Id, w: Id, id: Id)
    requires Inv(s) && Stranded(s, id) && p !in s.holds
    ensures var steps := Rescue(s, p, id) + [Start(w, id), CleanExit(w, id), Mark(w, id)];
      && Run(s, steps).rows.Keys >= {id} && Run(s, steps).rows[id].status == Processed
      && Executions(s, steps, id) >= 1
  {
    var rescue, work := Rescue(s, p, id), [Start(w, id), CleanExit(w, id), Mark(w, id)];
    assert Claimable(s.rows[id], s.now + LEASE_TTL_MS + 1);
    RescuedWaits(s, p, id);
    WorkerMarks(Run(s, rescue), w, id);
    RunAppends(s, rescue, work);
    TakenAppends(s, rescue, work, CleanExitsOf(id));
  }

  /** The worker marks the event, and then the poller whose queue call failed releases it. */
  lemma MarkThenRelease(s: System, p: Id, w: Id, id: Id)
    requires id in s.rows && s.rows[id].leasedBy == Some(p) && id in s.jobs && s.jobs[id] == Waiting(JOB_ATTEMPTS)
    requires Holds(s, p, id) && s.holds[p][id].threw && s.holds[p].Keys == {id}
    ensures var steps := [Start(w, id), CleanExit(w, id), Mark(w, id)] + [Release(p, id)];
      var v := Run(s, steps);
      && Stranded(v, id) && v.jobs[id].Completed? && id in v.clean && p !in v.holds
      && Executions(s, steps, id) >= 1
  {
    var work, release := [Start(w, id), CleanExit(w, id), Mark(w, id)], Release(p, id);
    WorkerMarks(s, w, id);
    RunSnoc(s, work, release);
    TakenAppends(s, work, [release], CleanExitsOf(id));
  }

  /** A release that undoes the mark of an event that has run strands it under its completed job. */
  lemma UndoneMarkStrands(p: Id, w: Id, id: Id) returns (steps: seq<Step>)
    ensures var s := Run(Empty(0), steps);
      Inv(s) && Stranded(s, id) && s.jobs[id].Completed? && id in s.clean && p !in s.holds
    ensures Executions(Empty(0), steps, id) >= 1
    ensures forall step :: step in steps ==> !Drains(step) && !step.Stalls? && !step.Throws?
  {
    var opening := [Emit(id), Claim(p, 0, {id}, {}), AddThrows(p, id, true)];
    var undo := [Start(w, id), CleanExit(w, id), Mark(w, id)] + [Release(p, id)];
    var s := AddedButThrew(p, id);
    MarkThenRelease(s, p, w, id);
    RunAppends(Empty(0), opening, undo);
    TakenAppends(Empty(0), opening, undo, CleanExitsOf(id));
    steps := opening + undo;
    RunKeepsInv(Empty(0), steps);
  }

  /**
   * PROCESSED is not final: with no failure but one queue call whose answer was lost, an event that
   * has run and was marked can run a second time.
   */
  lemma ProcessedEventRunsTwice(p: Id, w: Id, id: Id) returns (steps: seq<Step>)
    ensures Executions(Empty(0), steps, id) >= 2
    ensures forall step :: step in steps ==> !Drains(step) && !step.Stalls? && !step.Throws?
  {
    var undone := UndoneMarkStrands(p, w, id);
    var s := Run(Empty(0), undone);
    EvictedEventRuns(s, p, w, id);
    var again := Rescue(s, p, id) + [Start(w, id), CleanExit(w, id), Mark(w, id)];
    TakenAppends(Empty(0), undone, again, CleanExitsOf(id));
    steps := undone + again;
  }

  // ----------------------------------------------------- executions of an event

  /** How often a step of this kind about the event is taken in the run. */
  function Taken(s: System, steps: seq<Step>, kind: Step -> bool): nat
    decreases |steps|
  {
    if steps == [] then 0
    else (if Enabled(s, steps[0]) && kind(steps[0]) then 1 else 0) + Taken(Next(s, steps[0]), steps[1..], kind)
  }

  function StartsOf(id: Id): Step -> bool {
    (step: Step) => step.Start? && step.id == id
  }

  function StallsOf(id: Id): Step -> bool {
    (step: Step) => step.Stalls? && step.id == id
  }

  function EvictionsOf(id: Id): Step -> bool {
    (step: Step) => step == Evict(id)
  }

  function CleanExitsOf(id: Id): Step -> bool {
    (step: Step) => step.CleanExit? && step.id == id
  }

  /** How often an executor runs the event to a clean end. */
  function Executions(s: System, steps: seq<Step>, id: Id): nat {
    Taken(s, steps, CleanExitsOf(id))
  }

  lemma TakenCons(s: System, step: Step, rest: seq<Step>, kind: Step -> bool)
    ensures Taken(s, [step] + rest, kind) ==
      (if Enabled(s, step) && kind(step) then 1 else 0) + Taken(Next(s, step), rest, kind)
  {
    assert ([step] + rest)[1..] == rest;
  }

  lemma {:induction false} TakenAppends(s: System, a: seq<Step>, b: seq<Step>, kind: Step -> bool)
    ensures Taken(s, a + b, kind) == Taken(s, a, kind) + Taken(Run(s, a), b, kind)
    decreases |a|
  {
    if a == [] {
      assert a + b == b;
    } else {
      assert (a + b)[1..] == a[1..] + b;
      TakenAppends(Next(s, a[0]), a[1..], b, kind);
    }
  }

  /** Executions the queue still allows the event if nothing stalls or is evicted. */
  function Left(s: System, id: Id): nat {
    if id !in s.jobs then JOB_ATTEMPTS
    else
      match s.jobs[id]
      case Waiting(tries) => tries
      case Running(_, tries) => if tries > 0 then tries - 1 else 0
      case Ran(_, tries) => if tries > 0 then tries - 1 else 0
      case Completed => 0
      case Failed => 0
  }

  lemma OneStepUsesUp(s: System, step: Step, id: Id)
    ensures var v := Next(s, step);
      Left(v, id) + Taken(s, [step], StartsOf(id))
      <= Left(s, id) + JOB_ATTEMPTS * Taken(s, [step], EvictionsOf(id)) + Taken(s, [step], StallsOf(id))
  {
    assert [step][1..] == [];
  }

  lemma {:induction false} ExecutionsUseUp(s: System, steps: seq<Step>, id: Id)
    ensures Left(Run(s, steps), id) + Taken(s, steps, StartsOf(id))
      <= Left(s, id) + JOB_ATTEMPTS * Taken(s, steps, EvictionsOf(id)) + Taken(s, steps, StallsOf(id))
    decreases |steps|
  {
    if steps != [] {
      var step := steps[0];
      assert [step][1..] == [];
      OneStepUsesUp(s, step, id);
      ExecutionsUseUp(Next(s, step), steps[1..], id);
    }
  }

  /** An event is started at most three times, three more per eviction of its job, and once more per stall. */
  lemma ExecutionsAreBounded(now: int, steps: seq<Step>, id: Id)
    ensures Taken(Empty(now), steps, StartsOf(id)) <=
      JOB_ATTEMPTS * (1 + Taken(Empty(now), steps, EvictionsOf(id))) + Taken(Empty(now), steps, StallsOf(id))
  {
    ExecutionsUseUp(Empty(now), steps, id);
  }
}

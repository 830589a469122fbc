/**
 * Round-robin assignment: one cursor for each organization and department, advanced
 * on every assignment.
 */
module Router {
  import opened Common

  type Id = nat

  datatype Error = NotFound | NoDepartment | NoAgents

  /** An active agent of the department; `user` is who the conversation goes to. */
  datatype Agent = Agent(user: Id, online: bool)

  /** Online agents, or all active ones when nobody is online. */
  function Candidates(agents: seq<Agent>): (pool: seq<Agent>)
    ensures agents != [] ==> pool != []
  {
    var online := Online(agents);
    if online != [] then online else agents
  }

  function Online(agents: seq<Agent>): seq<Agent> {
    if agents == [] then []
    else (if agents[0].online then [agents[0]] else []) + Online(agents[1..])
  }

  lemma {:induction false} OnlineMembers(agents: seq<Agent>)
    ensures forall a :: a in Online(agents) <==> a in agents && a.online
  {
    if agents != [] {
      OnlineMembers(agents[1..]);
      assert agents == [agents[0]] + agents[1..];
    }
  }

  class RouterService {
    var rrIndex: map<string, nat>

    constructor ()
      ensures rrIndex == map[]
    {
      rrIndex := map[];
    }

    /** Agents are those of the department, in id order. */
    method AssignConversation(found: bool, org: string, department: Option<string>, agents: seq<Agent>)
      returns (r: Result<Id, Error>)
      modifies this
      ensures r == Answer(old(rrIndex), Call(found, org, department, agents))
      ensures rrIndex == After(old(rrIndex), Call(found, org, department, agents))
      ensures r.Ok? <==> found && department.Some? && agents != []
      ensures r.Err? ==> r.error == if !found then NotFound else if department.None? then NoDepartment else NoAgents
      ensures r.Ok? ==>
        exists a :: a in agents && a.user == r.value && (a.online || forall b :: b in agents ==> !b.online)
    {
      if !found { return Err(NotFound); }
      if department.None? { return Err(NoDepartment); }
      var pool := Online(agents);
      if pool == [] { pool := agents; }
      if pool == [] { return Err(NoAgents); }
      var key := Key(org, department.value);
      var idx := if key in rrIndex then rrIndex[key] else 0;
      var pick := pool[idx % |pool|];
      rrIndex := rrIndex[key := idx + 1];
      OnlineMembers(agents);
      assert pick in pool;
      return Ok(pick.user);
    }
  }

  /** A request to assign a conversation: whether it exists, whose it is, and the agents there are. */
  datatype Call = Call(found: bool, org: string, department: Option<string>, agents: seq<Agent>)

  predicate Assigns(c: Call) {
    c.found && c.department.Some? && c.agents != []
  }

  function KeyOf(c: Call): string
    requires c.department.Some?
  {
    Key(c.org, c.department.value)
  }

  function Answer(rrIndex: map<string, nat>, c: Call): Result<Id, Error> {
    if !c.found then Err(NotFound)
    else if c.department.None? then Err(NoDepartment)
    else if c.agents == [] then Err(NoAgents)
    else
      var pool := Candidates(c.agents);
      Ok(pool[CursorOf(rrIndex, KeyOf(c)) % |pool|].user)
  }

  function After(rrIndex: map<string, nat>, c: Call): map<string, nat> {
    if Assigns(c) then rrIndex[KeyOf(c) := CursorOf(rrIndex, KeyOf(c)) + 1] else rrIndex
  }

  // ---------------------------------------------------------------- fairness

  /** How many of the `m` assignments from `cursor` on go to position `j` of `n`. */
  function Share(cursor: nat, m: nat, n: nat, j: nat): nat
    requires n > 0
  {
    if m == 0 then 0 else Share(cursor, m - 1, n, j) + if Hits(cursor + m - 1, n, j) then 1 else 0
  }

  predicate Hits(cursor: nat, n: nat, j: nat)
    requires n > 0
  {
    cursor % n == j
  }

  /** Of n consecutive numbers exactly one has remainder j: the first `r` from `cursor` on have it iff it is near. */
  lemma {:induction false} ShareOfPart(cursor: nat, r: nat, n: nat, j: nat)
    requires 0 < n && j < n && r <= n
    ensures Share(cursor, r, n, j) ==
      if (if j >= cursor % n then j - cursor % n else j + n - cursor % n) < r then 1 else 0
  {
    if r > 0 {
      ShareOfPart(cursor, r - 1, n, j);
      Remainder(cursor, r - 1, n);
    }
  }

  lemma Remainder(cursor: nat, d: nat, n: nat)
    requires 0 < n && d < n
    ensures (cursor + d) % n == if cursor % n + d < n then cursor % n + d else cursor % n + d - n
  {
    var q, r := cursor / n, cursor % n;
    assert cursor == q * n + r;
    if r + d < n {
      Unique(cursor + d, n, q, r + d);
    } else {
      assert (q + 1) * n == q * n + n;
      Unique(cursor + d, n, q + 1, r + d - n);
    }
  }

  lemma Unique(x: int, n: int, q: int, r: int)
    requires 0 <= r < n && x == q * n + r
    ensures x % n == r && x / n == q
  {
    var d := x / n - q;
    assert x == (x / n) * n + x % n;
    assert (x / n) * n == q * n + d * n;
    assert d >= 1 ==> d * n >= n;
    assert d <= -1 ==> d * n <= -n;
  }

  lemma {:induction false} ShareSplits(cursor: nat, a: nat, b: nat, n: nat, j: nat)
    requires n > 0
    ensures Share(cursor, a + b, n, j) == Share(cursor, a, n, j) + Share(cursor + a, b, n, j)
  {
    if b > 0 { ShareSplits(cursor, a, b - 1, n, j); }
  }

  lemma {:induction false} ShareOfRounds(cursor: nat, k: nat, n: nat, j: nat)
    requires 0 < n && j < n
    ensures Share(cursor, k * n, n, j) == k
  {
    if k > 0 {
      assert k * n == (k - 1) * n + n;
      ShareSplits(cursor, (k - 1) * n, n, n, j);
      ShareOfRounds(cursor, k - 1, n, j);
      ShareOfPart(cursor + (k - 1) * n, n, n, j);
    }
  }

  lemma ShareIsFair(cursor: nat, m: nat, n: nat, j: nat)
    requires 0 < n && j < n
    ensures m / n <= Share(cursor, m, n, j) <= m / n + (if m % n == 0 then 0 else 1)
  {
    var k, r := m / n, m % n;
    assert m == k * n + r;
    ShareSplits(cursor, k * n, r, n, j);
    ShareOfRounds(cursor, k, n, j);
    ShareOfPart(cursor + k * n, r, n, j);
  }

  /** A successful assignment: the department it was for and how many agents could take it. */
  datatype Request = Request(key: string, n: nat)

  function CursorOf(rrIndex: map<string, nat>, key: string): nat {
    if key in rrIndex then rrIndex[key] else 0
  }

  /** How many assignments of a department go to the agent at position `j`, over a run through all departments. */
  function Received(rrIndex: map<string, nat>, run: seq<Request>, key: string, j: nat): nat
    requires forall q :: q in run ==> q.n > 0
    decreases |run|
  {
    if run == [] then 0
    else
      var q, cursor := run[0], CursorOf(rrIndex, run[0].key);
      (if q.key == key && cursor % q.n == j then 1 else 0) + Received(rrIndex[q.key := cursor + 1], run[1..], key, j)
  }

  function RequestsOf(run: seq<Request>, key: string): nat {
    if run == [] then 0 else (if run[0].key == key then 1 else 0) + RequestsOf(run[1..], key)
  }

  lemma {:induction false} OnlyOwnRequestsCount(rrIndex: map<string, nat>, run: seq<Request>, key: string,
                                                n: nat, j: nat)
    requires n > 0 && forall q :: q in run ==> q.n > 0 && (q.key == key ==> q.n == n)
    ensures Received(rrIndex, run, key, j) == Share(CursorOf(rrIndex, key), RequestsOf(run, key), n, j)
    decreases |run|
  {
    if run != [] {
      assert run[0] in run && forall q :: q in run[1..] ==> q in run;
      var cursor, rest := CursorOf(rrIndex, key), RequestsOf(run[1..], key);
      OnlyOwnRequestsCount(rrIndex[run[0].key := CursorOf(rrIndex, run[0].key) + 1], run[1..], key, n, j);
      if run[0].key == key {
        ShareSplits(cursor, 1, rest, n, j);
        assert Share(cursor, 1, n, j) == Share(cursor, 0, n, j) + if cursor % n == j then 1 else 0;
      }
    }
  }

  /**
   * Over any interleaving of assignments in all departments, as long as a department keeps its n
   * agents, each of them has received floor(m/n) or ceil(m/n) of its m assignments.
   */
  lemma EveryoneGetsTheirShare(rrIndex: map<string, nat>, run: seq<Request>, key: string, n: nat, j: nat)
    requires j < n && forall q :: q in run ==> q.n > 0 && (q.key == key ==> q.n == n)
    ensures var m := RequestsOf(run, key);
      m / n <= Received(rrIndex, run, key, j) <= m / n + (if m % n == 0 then 0 else 1)
  {
    OnlyOwnRequestsCount(rrIndex, run, key, n, j);
    ShareIsFair(CursorOf(rrIndex, key), RequestsOf(run, key), n, j);
  }

  // ------------------------------------------------------------ who is picked

  /** The call assigns a conversation in this department. */
  predicate IsFor(c: Call, key: string) {
    Assigns(c) && KeyOf(c) == key
  }

  /** How many of the calls for a department were answered with this user. */
  function Given(rrIndex: map<string, nat>, calls: seq<Call>, key: string, user: Id): nat
    decreases |calls|
  {
    if calls == [] then 0
    else
      var c := calls[0];
      (if IsFor(c, key) && Answer(rrIndex, c) == Ok(user) then 1 else 0)
      + Given(After(rrIndex, c), calls[1..], key, user)
  }

  function AssignedTo(calls: seq<Call>, key: string): nat {
    if calls == [] then 0
    else (if IsFor(calls[0], key) then 1 else 0) + AssignedTo(calls[1..], key)
  }

  /** The department's agents stay who they are throughout the calls. */
  ghost predicate Keeps(calls: seq<Call>, key: string, pool: seq<Agent>) {
    forall c :: c in calls && IsFor(c, key) ==> Candidates(c.agents) == pool
  }

  ghost predicate DistinctUsers(pool: seq<Agent>) {
    forall i, j :: 0 <= i < j < |pool| ==> pool[i].user != pool[j].user
  }

  lemma OneCall(rrIndex: map<string, nat>, c: Call, key: string, pool: seq<Agent>, j: nat)
    requires DistinctUsers(pool) && j < |pool| && (IsFor(c, key) ==> Candidates(c.agents) == pool)
    ensures CursorOf(After(rrIndex, c), key) == CursorOf(rrIndex, key) + if IsFor(c, key) then 1 else 0
    ensures IsFor(c, key) ==> (Answer(rrIndex, c) == Ok(pool[j].user) <==> Hits(CursorOf(rrIndex, key), |pool|, j))
  {
    PicksOne(pool, CursorOf(rrIndex, key), j);
  }

  lemma ShareOfFirst(cursor: nat, rest: nat, n: nat, j: nat)
    requires n > 0
    ensures Share(cursor, rest + 1, n, j) == (if Hits(cursor, n, j) then 1 else 0) + Share(cursor + 1, rest, n, j)
  {
    ShareSplits(cursor, 1, rest, n, j);
    assert Share(cursor, 1, n, j) == Share(cursor, 0, n, j) + if cursor % n == j then 1 else 0;
  }

  /** What one more call at the front adds to both sides. */
  lemma FirstCallShares(rrIndex: map<string, nat>, c: Call, key: string, pool: seq<Agent>, j: nat, rest: nat)
    requires DistinctUsers(pool) && j < |pool| && (IsFor(c, key) ==> Candidates(c.agents) == pool)
    ensures Share(CursorOf(rrIndex, key), rest + (if IsFor(c, key) then 1 else 0), |pool|, j) ==
      (if IsFor(c, key) && Answer(rrIndex, c) == Ok(pool[j].user) then 1 else 0)
      + Share(CursorOf(After(rrIndex, c), key), rest, |pool|, j)
  {
    OneCall(rrIndex, c, key, pool, j);
    ShareOfFirst(CursorOf(rrIndex, key), rest, |pool|, j);
  }

  lemma {:induction false} GivenIsShare(rrIndex: map<string, nat>, calls: seq<Call>, key: string, pool: seq<Agent>,
                                        j: nat)
    requires Keeps(calls, key, pool) && DistinctUsers(pool) && j < |pool|
    ensures Given(rrIndex, calls, key, pool[j].user) ==
      Share(CursorOf(rrIndex, key), AssignedTo(calls, key), |pool|, j)
    decreases |calls|
  {
    if calls != [] {
      var c, rest := calls[0], calls[1..];
      assert c in calls && forall x :: x in rest ==> x in calls;
      GivenIsShare(After(rrIndex, c), rest, key, pool, j);
      FirstCallShares(rrIndex, c, key, pool, j, AssignedTo(rest, key));
      assert AssignedTo(calls, key) == AssignedTo(rest, key) + if IsFor(c, key) then 1 else 0;
    }
  }

  lemma PicksOne(pool: seq<Agent>, cursor: nat, j: nat)
    requires DistinctUsers(pool) && j < |pool|
    ensures pool[cursor % |pool|].user == pool[j].user <==> cursor % |pool| == j
  {
    var i := cursor % |pool|;
    assert i < j ==> pool[i].user != pool[j].user;
    assert j < i ==> pool[j].user != pool[i].user;
  }

  /**
   * Over any run of requests in all departments, as long as a department's agents stay who they are, each
   * of its n candidates is the answer to floor(m/n) or ceil(m/n) of its m assignments.
   */
  lemma AnswersAreShared(rrIndex: map<string, nat>, calls: seq<Call>, key: string, pool: seq<Agent>, j: nat)
    requires Keeps(calls, key, pool) && DistinctUsers(pool) && j < |pool|
    ensures var m, n := AssignedTo(calls, key), |pool|;
      m / n <= Given(rrIndex, calls, key, pool[j].user) <= m / n + (if m % n == 0 then 0 else 1)
  {
    GivenIsShare(rrIndex, calls, key, pool, j);
    ShareIsFair(CursorOf(rrIndex, key), AssignedTo(calls, key), |pool|, j);
  }

  /** The candidates are the agents online if there are any, and otherwise all, in the order of the list. */
  lemma {:induction false} CandidatesAre(agents: seq<Agent>)
    ensures (exists a :: a in agents && a.online) ==>
      forall a :: a in Candidates(agents) <==> a in agents && a.online
    ensures (forall a :: a in agents ==> !a.online) ==> Candidates(agents) == agents
    ensures (forall a :: a in agents ==> a.online) ==> Candidates(agents) == agents
  {
    OnlineMembers(agents);
    AllOnline(agents);
    assert Online(agents) == [] || Online(agents)[0] in Online(agents);
    if a :| a in agents && a.online { assert a in Online(agents); }
  }

  lemma {:induction false} AllOnline(agents: seq<Agent>)
    ensures (forall a :: a in agents ==> a.online) ==> Online(agents) == agents
  {
    if agents != [] { AllOnline(agents[1..]); }
  }

  // --------------------------------------------------------------------- keys

  function Key(org: string, department: string): string {
    org + ":" + department
  }

  lemma FirstColon(org: string, department: string)
    requires ':' !in org
    ensures Key(org, department)[|org|] == ':'
    ensures forall i :: 0 <= i < |org| ==> Key(org, department)[i] != ':'
  {
    assert forall i :: 0 <= i < |org| ==> Key(org, department)[i] == org[i];
  }

  /** Ids without a colon give different keys, so departments never share a cursor. */
  lemma KeysAreSeparate(org: string, department: string, org': string, department': string)
    requires ':' !in org && ':' !in org'
    ensures Key(org, department) == Key(org', department') <==> org == org' && department == department'
  {
    var k, k' := Key(org, department), Key(org', department');
    FirstColon(org, department);
    FirstColon(org', department');
    if k == k' {
      assert |org| == |org'|;
      assert k[..|org|] == org && k'[..|org|] == org';
      assert k[|org| + 1..] == department && k'[|org| + 1..] == department';
    }
  }
}

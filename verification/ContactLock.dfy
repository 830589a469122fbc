/**
 * The per-contact lock: a key with an owner token and a time to live, taken with
 * SET NX PX and released by a compare-and-delete script. Chains of actions run
 * while they believe to hold it; a chain may outlive its key.
 */
module ContactLock {
  type Id = nat

  const CONTACT_LOCK_TTL_MS := 30_000

  datatype Key = Key(token: Id, expiresAt: int)

  datatype Chain = Chain(contact: Id, since: int)

  /** `running` has the chains between acquire and release, by token. */
  datatype Locks = Locks(now: int, keys: map<Id, Key>, running: map<Id, Chain>, issued: set<Id>)

  datatype Step =
    | Tick(ms: nat)
    | Acquire(contact: Id, token: Id)
    | Release(token: Id)
    | ReleaseLost(token: Id)

  /** A key past its time to live is gone. */
  predicate Live(keys: map<Id, Key>, contact: Id, now: int) {
    contact in keys && now < keys[contact].expiresAt
  }

  predicate Owns(keys: map<Id, Key>, contact: Id, token: Id, now: int) {
    Live(keys, contact, now) && keys[contact].token == token
  }

  predicate Enabled(s: Locks, step: Step) {
    match step
    case Tick(_) => true
    case Acquire(_, token) => token !in s.issued
    case Release(token) => token in s.running
    case ReleaseLost(token) => token in s.running
  }

  function Next(s: Locks, step: Step): Locks {
    if !Enabled(s, step) then s
    else match step
      case Tick(ms) => s.(now := s.now + ms)
      case Acquire(contact, token) =>
        if Live(s.keys, contact, s.now) then s.(issued := s.issued + {token})
        else s.(keys := s.keys[contact := Key(token, s.now + CONTACT_LOCK_TTL_MS)],
                running := s.running[token := Chain(contact, s.now)],
                issued := s.issued + {token})
      case Release(token) =>
        var contact := s.running[token].contact;
        s.(keys := if Owns(s.keys, contact, token, s.now) then s.keys - {contact} else s.keys,
           running := s.running - {token})
      case ReleaseLost(token) => s.(running := s.running - {token})
  }

  function Run(s: Locks, steps: seq<Step>): Locks
    decreases |steps|
  {
    if steps == [] then s else Run(Next(s, steps[0]), steps[1..])
  }

  /** Chains on one contact start at least one time to live apart. */
  ghost predicate Apart(running: map<Id, Chain>) {
    forall t, u :: t in running && u in running && t != u && running[t].contact == running[u].contact ==>
      || running[u].since >= running[t].since + CONTACT_LOCK_TTL_MS
      || running[t].since >= running[u].since + CONTACT_LOCK_TTL_MS
  }

  /** A chain within its time to live has its key; a chain's key runs out with it. */
  ghost predicate Keyed(s: Locks) {
    forall t :: t in s.running ==>
      var c := s.running[t];
      && t in s.issued && c.since <= s.now
      && (s.now < c.since + CONTACT_LOCK_TTL_MS ==>
            c.contact in s.keys && s.keys[c.contact] == Key(t, c.since + CONTACT_LOCK_TTL_MS))
      && (c.contact in s.keys && s.keys[c.contact].token == t ==>
            s.keys[c.contact].expiresAt == c.since + CONTACT_LOCK_TTL_MS)
  }

  ghost predicate Inv(s: Locks) {
    && Apart(s.running) && Keyed(s)
    && forall c :: c in s.keys ==> s.keys[c].token in s.issued
  }

  lemma AcquireKeepsApart(s: Locks, contact: Id, token: Id)
    requires Inv(s) && token !in s.issued && !Live(s.keys, contact, s.now)
    ensures Apart(s.running[token := Chain(contact, s.now)])
  {
    forall t | t in s.running && s.running[t].contact == contact
      ensures s.now >= s.running[t].since + CONTACT_LOCK_TTL_MS
    {
    }
  }

  lemma AcquireKeepsKeyed(s: Locks, contact: Id, token: Id)
    requires Inv(s) && token !in s.issued && !Live(s.keys, contact, s.now)
    ensures Keyed(Next(s, Acquire(contact, token)))
  {
    var v := Next(s, Acquire(contact, token));
    forall t | t in s.running
      ensures s.now < s.running[t].since + CONTACT_LOCK_TTL_MS ==> s.running[t].contact != contact
    {
    }
  }

  lemma NextKeepsInv(s: Locks, step: Step)
    requires Inv(s)
    ensures Inv(Next(s, step))
  {
    match step
    case Acquire(contact, token) =>
      if token !in s.issued && !Live(s.keys, contact, s.now) {
        AcquireKeepsApart(s, contact, token);
        AcquireKeepsKeyed(s, contact, token);
      }
    case Release(token) =>
    case Tick(_) =>
    case ReleaseLost(_) =>
  }

  lemma {:induction false} RunKeepsInv(s: Locks, steps: seq<Step>)
    requires Inv(s)
    ensures Inv(Run(s, steps))
    decreases |steps|
  {
    if steps != [] {
      NextKeepsInv(s, steps[0]);
      RunKeepsInv(Next(s, steps[0]), steps[1..]);
    }
  }

  /** Two chains on one contact run at once only if the earlier one had outlived its lock when the later one began. */
  lemma OverlapMeansOutlived(now: int, steps: seq<Step>, t: Id, u: Id)
    ensures var s := Run(Locks(now, map[], map[], {}), steps);
      (t in s.running && u in s.running && t != u
        && s.running[t].contact == s.running[u].contact && s.running[t].since <= s.running[u].since)
      ==> s.running[t].since + CONTACT_LOCK_TTL_MS <= s.running[u].since <= s.now
  {
    RunKeepsInv(Locks(now, map[], map[], {}), steps);
  }

  /** A chain within its time to live is alone on its contact, and nobody else gets the lock. */
  lemma HolderIsAlone(now: int, steps: seq<Step>, t: Id, contact: Id, token: Id)
    ensures var s := Run(Locks(now, map[], map[], {}), steps);
      t in s.running && s.running[t].contact == contact && s.now < s.running[t].since + CONTACT_LOCK_TTL_MS ==>
        && (forall u :: u in s.running && s.running[u].contact == contact && u != t ==>
              s.running[u].since + CONTACT_LOCK_TTL_MS <= s.running[t].since)
        && Next(s, Acquire(contact, token)).running == s.running
  {
    RunKeepsInv(Locks(now, map[], map[], {}), steps);
  }

  /** Releasing removes exactly the chain's own live key; a chain whose key ran out removes nobody's. */
  lemma ReleaseRemovesOwnKeyOnly(s: Locks, token: Id)
    requires Inv(s) && token in s.running
    ensures var v, contact := Next(s, Release(token)), s.running[token].contact;
      && (contact in s.keys && contact !in v.keys <==> s.now < s.running[token].since + CONTACT_LOCK_TTL_MS)
      && (forall c :: c in s.keys && c != contact ==> c in v.keys && v.keys[c] == s.keys[c])
      && (forall u :: u in v.running && Owns(s.keys, s.running[u].contact, u, s.now) ==>
            Owns(v.keys, s.running[u].contact, u, v.now))
  {
  }

  /** Without the owner check a late release could free a lock that was taken again: the overlap is real. */
  lemma OutlivedChainsDoOverlap(contact: Id)
    ensures var s := Run(Locks(0, map[], map[], {}), [Acquire(contact, 0), Tick(30_000), Acquire(contact, 1)]);
      0 in s.running && 1 in s.running && Owns(s.keys, contact, 1, s.now) && Next(s, Release(0)).keys == s.keys
  {
    var a, b, c := Acquire(contact, 0), Tick(30_000), Acquire(contact, 1);
    var s0 := Locks(0, map[], map[], {});
    assert [a, b, c][1..] == [b, c] && [b, c][1..] == [c];
    assert Run(s0, [a, b, c]) == Run(Next(s0, a), [b, c]);
    var s2 := Next(Next(s0, a), b);
    assert Run(Next(s0, a), [b, c]) == Run(s2, [c]);
    assert Run(s2, [c]) == Run(Next(s2, c), []);
  }
}

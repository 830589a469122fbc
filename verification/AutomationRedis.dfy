/**
 * The Redis service of the automation engine as code: lock keys and sorted sets
 * are changed command by command. Fresh tokens and members come from outside.
 */
module AutomationRedis {
  import opened Common
  import Lock = ContactLock
  import Rate = RateLimit

  type Id = nat

  class AutomationRedisService {
    var now: int
    var keys: map<Id, Lock.Key>
    ghost var running: map<Id, Lock.Chain>
    ghost var issued: set<Id>

    constructor (now: int)
      ensures Locks() == Lock.Locks(now, map[], map[], {})
    {
      this.now, keys, running, issued := now, map[], map[], {};
    }

    ghost function Locks(): Lock.Locks
      reads this
    {
      Lock.Locks(now, keys, running, issued)
    }

    /** SET key token PX ttl NX. */
    method SetIfAbsent(key: Id, token: Id) returns (ok: bool)
      modifies this`keys
      ensures ok <==> !Lock.Live(old(keys), key, now)
      ensures keys == if ok then old(keys)[key := Lock.Key(token, now + Lock.CONTACT_LOCK_TTL_MS)] else old(keys)
    {
      ok := !(key in keys && now < keys[key].expiresAt);
      if ok { keys := keys[key := Lock.Key(token, now + Lock.CONTACT_LOCK_TTL_MS)]; }
    }

    /** The lock's token, or none if another chain holds it. */
    method AcquireContactLock(contact: Id, token: Id) returns (lock: Option<Id>)
      requires token !in issued
      modifies this
      ensures Locks() == Lock.Next(old(Locks()), Lock.Acquire(contact, token))
      ensures lock == if contact in old(keys) && now < old(keys)[contact].expiresAt then None else Some(token)
      ensures keys == if lock.Some? then old(keys)[contact := Lock.Key(token, now + 30_000)] else old(keys)
    {
      var ok := SetIfAbsent(contact, token);
      issued := issued + {token};
      if ok {
        running := running[token := Lock.Chain(contact, now)];
        return Some(token);
      }
      return None;
    }

    /** The release script: delete the key if it still carries the token. `answered`: whether Redis answers. */
    method ReleaseContactLock(contact: Id, token: Id, answered: bool)
      requires token in running && running[token].contact == contact
      modifies this
      ensures Locks() == Lock.Next(old(Locks()), if answered then Lock.Release(token) else Lock.ReleaseLost(token))
      ensures keys == if answered && contact in old(keys) && now < old(keys)[contact].expiresAt
                         && old(keys)[contact].token == token
                      then old(keys) - {contact} else old(keys)
    {
      if answered && contact in keys && now < keys[contact].expiresAt && keys[contact].token == token {
        keys := keys - {contact};
      }
      running := running - {token};
    }
  }

  /** The sorted set of one automation in one conversation. */
  class SlidingWindow {
    var now: int
    var scores: map<Id, int>
    ghost var touched: int
    ghost var latest: int
    ghost var admitted: map<Id, int>
    ghost var rejected: set<Id>

    constructor (now: int)
      ensures State() == Rate.Fresh(now)
    {
      this.now, scores := now, map[];
      touched, latest, admitted, rejected := now, now, map[], {};
    }

    ghost function State(): Rate.Limiter
      reads this
    {
      Rate.Limiter(now, scores, touched, latest, admitted, rejected)
    }

    /**
     * Trim, add, count, and take the own member back when over the limit. No conversation, a
     * limit of zero or less, and a Redis that does not answer all let the call pass uncounted.
     * `read` is what the caller's clock showed before the pipeline ran.
     */
    method TryConsumeRateLimit(hasConversation: bool, perMinute: int, answered: bool, member: Id, read: int)
      returns (ok: bool)
      requires member !in scores && member !in admitted && member !in rejected && read <= now
      modifies this
      ensures !hasConversation || perMinute <= 0 || !answered ==> ok && State() == old(State())
      ensures hasConversation && perMinute > 0 && answered ==>
        && State() == Rate.Run(old(State()),
             if ok then [Rate.Call(member, read, perMinute)]
             else [Rate.Call(member, read, perMinute), Rate.TakeBack(member)])
        && (ok <==> member in admitted)
      ensures hasConversation && perMinute > 0 && answered ==>
        && (ok <==> |Rate.Recent(old(scores), read)| < perMinute)
        && scores.Keys == Rate.Recent(old(scores), read) + (if ok then {member} else {})
        && (ok ==> scores[member] == read)
        && forall m :: m in scores && m != member ==> scores[m] == old(scores)[m]
    {
      if !hasConversation || perMinute <= 0 || !answered { return true; }
      Rate.CallLeaves(State(), member, read, perMinute);
      ok := Consume(perMinute, member, read);
    }

    method Consume(perMinute: int, member: Id, read: int) returns (ok: bool)
      requires Rate.Enabled(State(), Rate.Call(member, read, perMinute))
      modifies this
      ensures State() == Rate.Run(old(State()),
        if ok then [Rate.Call(member, read, perMinute)]
        else [Rate.Call(member, read, perMinute), Rate.TakeBack(member)])
      ensures var called := Rate.Next(old(State()), Rate.Call(member, read, perMinute));
        && (ok <==> member in called.admitted)
        && State() == if ok then called else Rate.Next(called, Rate.TakeBack(member))
    {
      ghost var before := State();
      ghost var call, back := Rate.Call(member, read, perMinute), Rate.TakeBack(member);
      scores := map m | m in scores && scores[m] > read - Rate.WINDOW_MS :: scores[m];
      scores := scores[member := read];
      touched, latest := now, read;
      var card := |scores|;
      ok := card <= perMinute;
      if ok {
        admitted := admitted[member := read];
        assert State() == Rate.Next(before, call);
      } else {
        rejected := rejected + {member};
        assert State() == Rate.Next(before, call);
        ghost var called := State();
        scores := scores - {member};
        assert State() == Rate.Next(called, back);
        assert [call, back][1..] == [back];
        assert Rate.Run(called, [back]) == Rate.Run(State(), []);
      }
    }
  }
}

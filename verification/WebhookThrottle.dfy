/**
 * The in-memory sliding-window throttle of the webhook endpoint. Hits are trimmed on
 * every call and garbage-collected now and then; the reference is a guard that keeps
 * every call for ever and counts those of the last ten seconds.
 */
module WebhookThrottle {
  const WINDOW_MS := 10_000
  const MAX_HITS := 600
  const GC_EVERY_MS := 30_000

  datatype Call = Call(key: string, at: int)

  // --------------------------------------------------------- reference guard

  function Since(times: seq<int>, start: int): (r: seq<int>)
    ensures forall t :: t in r ==> t >= start
  {
    if times == [] then []
    else
      var front, last := times[..|times| - 1], times[|times| - 1];
      if last >= start then Since(front, start) + [last] else Since(front, start)
  }

  /** All the times a key was called, in order. */
  function Times(log: seq<Call>, key: string): seq<int> {
    if log == [] then []
    else
      var front, last := log[..|log| - 1], log[|log| - 1];
      if last.key == key then Times(front, key) + [last.at] else Times(front, key)
  }

  /** Is call `i` let through: at most 600 calls of its key in the ten seconds up to and including it. */
  predicate Admits(log: seq<Call>, i: nat)
    requires i < |log|
  {
    |Since(Times(log[..i + 1], log[i].key), log[i].at - WINDOW_MS)| <= MAX_HITS
  }

  ghost predicate Monotone(log: seq<Call>) {
    forall i, j :: 0 <= i < j < |log| ==> log[i].at <= log[j].at
  }

  // ------------------------------------------------------------------ trimming

  lemma SinceAppend(times: seq<int>, t: int, start: int)
    ensures Since(times + [t], start) == if t >= start then Since(times, start) + [t] else Since(times, start)
  {
    assert (times + [t])[..|times|] == times;
  }

  lemma TimesAppend(log: seq<Call>, c: Call, key: string)
    ensures Times(log + [c], key) == if c.key == key then Times(log, key) + [c.at] else Times(log, key)
  {
    assert (log + [c])[..|log|] == log;
  }

  /** Trimming at an earlier bound first changes nothing. */
  lemma {:induction false} SinceTwice(times: seq<int>, early: int, late: int)
    requires early <= late
    ensures Since(Since(times, early), late) == Since(times, late)
  {
    if times != [] {
      var n := |times| - 1;
      SinceTwice(times[..n], early, late);
      if times[n] >= early {
        SinceAppend(Since(times[..n], early), times[n], late);
      }
    }
  }

  function Kept(hits: map<string, seq<int>>, key: string): seq<int> {
    if key in hits then hits[key] else []
  }

  /** For every bound that can still be asked, the kept times and the full history leave the same calls. */
  ghost predicate KeepsEnough(hits: map<string, seq<int>>, log: seq<Call>) {
    forall key, start :: (log != [] ==> start >= log[|log| - 1].at - WINDOW_MS) ==>
      SameSince(Kept(hits, key), log, key, start)
  }

  predicate SameSince(kept: seq<int>, log: seq<Call>, key: string, start: int) {
    Since(kept, start) == Since(Times(log, key), start)
  }

  lemma KeyRecorded(kept: seq<int>, log: seq<Call>, key: string, now: int, start: int)
    requires start >= now - WINDOW_MS && SameSince(kept, log, key, start)
    ensures SameSince(Since(kept, now - WINDOW_MS) + [now], log + [Call(key, now)], key, start)
  {
    TimesAppend(log, Call(key, now), key);
    SinceAppend(Since(kept, now - WINDOW_MS), now, start);
    SinceTwice(kept, now - WINDOW_MS, start);
    SinceAppend(Times(log, key), now, start);
  }

  lemma AnyKeyRecorded(hits: map<string, seq<int>>, log: seq<Call>, key: string, now: int, k: string, start: int)
    requires start >= now - WINDOW_MS && SameSince(Kept(hits, k), log, k, start)
    ensures SameSince(Kept(Recorded(hits, key, now), k), log + [Call(key, now)], k, start)
  {
    if k == key {
      KeyRecorded(Kept(hits, k), log, key, now, start);
    } else {
      TimesAppend(log, Call(key, now), k);
    }
  }

  function Recorded(hits: map<string, seq<int>>, key: string, now: int): map<string, seq<int>> {
    hits[key := Since(Kept(hits, key), now - WINDOW_MS) + [now]]
  }

  lemma CallRecorded(hits: map<string, seq<int>>, log: seq<Call>, key: string, now: int)
    requires KeepsEnough(hits, log) && forall c :: c in log ==> c.at <= now
    ensures KeepsEnough(Recorded(hits, key, now), log + [Call(key, now)])
  {
    assert log != [] ==> log[|log| - 1] in log;
    forall k, start | start >= now - WINDOW_MS
      ensures SameSince(Kept(Recorded(hits, key, now), k), log + [Call(key, now)], k, start)
    {
      AnyKeyRecorded(hits, log, key, now, k, start);
    }
  }

  lemma CallDecided(kept: seq<int>, log: seq<Call>, key: string, now: int)
    requires SameSince(kept, log, key, now - WINDOW_MS)
    ensures |Since(kept, now - WINDOW_MS) + [now]| <= MAX_HITS <==> Admits(log + [Call(key, now)], |log|)
  {
    assert (log + [Call(key, now)])[..|log| + 1] == log + [Call(key, now)];
    TimesAppend(log, Call(key, now), key);
    SinceAppend(Times(log, key), now, now - WINDOW_MS);
  }

  /** Trimming one key, or dropping it when nothing of it is left. */
  lemma KeyTrimmed(hits: map<string, seq<int>>, hits': map<string, seq<int>>, log: seq<Call>, k: string)
    requires KeepsEnough(hits, log) && log != []
    requires Kept(hits', k) == Since(Kept(hits, k), log[|log| - 1].at - WINDOW_MS)
    requires forall key :: key != k ==> Kept(hits', key) == Kept(hits, key)
    ensures KeepsEnough(hits', log)
  {
    var start0 := log[|log| - 1].at - WINDOW_MS;
    forall key, start | start >= start0
      ensures SameSince(Kept(hits', key), log, key, start)
    {
      assert SameSince(Kept(hits, key), log, key, start);
      if key == k { SinceTwice(Kept(hits, k), start0, start); }
    }
  }

  class WebhookThrottleGuard {
    var hits: map<string, seq<int>>
    var lastGc: int
    ghost var log: seq<Call>

    constructor ()
      ensures Valid() && log == []
    {
      hits, lastGc, log := map[], 0, [];
    }

    ghost predicate Valid()
      reads this
    {
      Monotone(log) && KeepsEnough(hits, log)
    }

    /** Decides exactly as the reference guard, whatever was trimmed or collected before. */
    method CanActivate(key: string, now: int) returns (ok: bool)
      requires Valid() && forall c :: c in log ==> c.at <= now
      modifies this
      ensures Valid() && log == old(log) + [Call(key, now)]
      ensures ok <==> Admits(log, |log| - 1)
    {
      var windowStart := now - WINDOW_MS;
      var recent := Since(if key in hits then hits[key] else [], windowStart);
      recent := recent + [now];
      assert forall i :: 0 <= i < |log| ==> log[i] in log;
      assert SameSince(Kept(hits, key), log, key, windowStart);
      CallDecided(Kept(hits, key), log, key, now);
      CallRecorded(hits, log, key, now);
      hits := hits[key := recent];
      log := log + [Call(key, now)];

      if now - lastGc > GC_EVERY_MS {
        lastGc := now;
        Collect(windowStart);
      }
      ok := |recent| <= MAX_HITS;
    }

    /** Trims every key and drops the empty ones; nothing that can still be asked is lost. */
    method Collect(windowStart: int)
      requires Valid() && log != [] && windowStart == log[|log| - 1].at - WINDOW_MS
      modifies this`hits
      ensures Valid()
    {
      var left := hits.Keys;
      while left != {}
        invariant left <= hits.Keys
        invariant Valid()
        decreases left
      {
        var k :| k in left;
        left := left - {k};
        var trimmed := Since(hits[k], windowStart);
        ghost var before := hits;
        if trimmed == [] { hits := hits - {k}; } else { hits := hits[k := trimmed]; }
        KeyTrimmed(before, hits, log, k);
      }
    }
  }

  // ------------------------------------------------------------- what it gives

  /** Calls of a key at or after `from` among the first `n`, and those of them that were let through. */
  function CallsFrom(log: seq<Call>, key: string, from: int, n: nat): nat
    requires n <= |log|
  {
    if n == 0 then 0
    else CallsFrom(log, key, from, n - 1) + if log[n - 1].key == key && log[n - 1].at >= from then 1 else 0
  }

  function AdmittedIn(log: seq<Call>, key: string, from: int, until: int, n: nat): nat
    requires n <= |log|
  {
    if n == 0 then 0
    else AdmittedIn(log, key, from, until, n - 1)
         + if log[n - 1].key == key && from <= log[n - 1].at <= until && Admits(log, n - 1) then 1 else 0
  }

  lemma {:induction false} CallsAreCounted(log: seq<Call>, key: string, from: int, n: nat)
    requires n <= |log|
    ensures CallsFrom(log, key, from, n) == |Since(Times(log[..n], key), from)|
  {
    if n > 0 {
      CallsAreCounted(log, key, from, n - 1);
      assert log[..n] == log[..n - 1] + [log[n - 1]];
      TimesAppend(log[..n - 1], log[n - 1], key);
      if log[n - 1].key == key { SinceAppend(Times(log[..n - 1], key), log[n - 1].at, from); }
    }
  }

  lemma {:induction false} AdmittedAtMostCalls(log: seq<Call>, key: string, from: int, until: int, n: nat)
    requires n <= |log|
    ensures AdmittedIn(log, key, from, until, n) <= CallsFrom(log, key, from, n)
  {
    if n > 0 { AdmittedAtMostCalls(log, key, from, until, n - 1); }
  }

  lemma {:induction false} CallsFewerFromLater(log: seq<Call>, key: string, early: int, late: int, n: nat)
    requires n <= |log| && early <= late
    ensures CallsFrom(log, key, late, n) <= CallsFrom(log, key, early, n)
  {
    if n > 0 { CallsFewerFromLater(log, key, early, late, n - 1); }
  }

  /** In any ten-second window at most 600 calls of a key are let through. */
  lemma {:induction false} WindowAdmitsAtMost600(log: seq<Call>, key: string, from: int, n: nat)
    requires n <= |log|
    ensures AdmittedIn(log, key, from, from + WINDOW_MS, n) <= MAX_HITS
  {
    if n > 0 {
      var c := log[n - 1];
      if c.key == key && from <= c.at <= from + WINDOW_MS && Admits(log, n - 1) {
        AdmittedAtMostCalls(log, key, from, from + WINDOW_MS, n);
        CallsFewerFromLater(log, key, c.at - WINDOW_MS, from, n);
        CallsAreCounted(log, key, c.at - WINDOW_MS, n);
      } else {
        WindowAdmitsAtMost600(log, key, from, n - 1);
      }
    }
  }

  /** Exactly the calls that find six hundred or more of their key in the ten seconds before them are refused. */
  lemma RefusedIff(log: seq<Call>, i: nat)
    requires i < |log|
    ensures !Admits(log, i) <==> CallsFrom(log, log[i].key, log[i].at - 10_000, i) >= 600
  {
    CallsAreCounted(log, log[i].key, log[i].at - WINDOW_MS, i + 1);
  }
}

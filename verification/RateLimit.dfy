/**
 * The sliding 60-second limit of one automation in one conversation, kept in a
 * Redis sorted set. The add-trim-count pipeline is one step; taking back a
 * rejected call is a later step, and other callers may come in between.
 */
module RateLimit {
  type Id = nat

  const WINDOW_MS := 60_000

  /**
   * `scores` is the sorted set (member to score), `touched` when a pipeline last ran and `latest` the clock
   * reading it came with; `admitted` remembers the reading of each admitted call.
   */
  datatype Limiter =
    Limiter(now: int, scores: map<Id, int>, touched: int, latest: int, admitted: map<Id, int>, rejected: set<Id>)

  /** A caller reads the clock first and sends its pipeline with that reading. */
  datatype Step =
    | Tick(ms: nat)
    | Call(member: Id, read: int, perMinute: int)
    | TakeBack(member: Id)
    | Expire

  function Trimmed(scores: map<Id, int>, read: int): map<Id, int> {
    map m | m in scores && scores[m] > read - WINDOW_MS :: scores[m]
  }

  function Counted(s: Limiter, member: Id, read: int): map<Id, int> {
    Trimmed(s.scores, read)[member := read]
  }

  predicate Enabled(s: Limiter, step: Step) {
    match step
    case Tick(_) => true
    case Call(m, read, perMinute) =>
      m !in s.scores && m !in s.admitted && m !in s.rejected && read <= s.now && perMinute > 0
    case TakeBack(m) => m in s.rejected
    case Expire => s.now >= s.touched + 2 * WINDOW_MS
  }

  function Next(s: Limiter, step: Step): Limiter {
    if !Enabled(s, step) then s
    else match step
      case Tick(ms) => s.(now := s.now + ms)
      case Call(m, read, perMinute) =>
        var counted := s.(scores := Counted(s, m, read), touched := s.now, latest := read);
        if |Counted(s, m, read)| > perMinute then counted.(rejected := s.rejected + {m})
        else counted.(admitted := s.admitted[m := read])
      case TakeBack(m) => s.(scores := s.scores - {m})
      case Expire => s.(scores := map[])
  }

  function Run(s: Limiter, steps: seq<Step>): Limiter
    decreases |steps|
  {
    if steps == [] then s else Run(Next(s, steps[0]), steps[1..])
  }

  function Fresh(now: int): Limiter {
    Limiter(now, map[], now, now, map[], {})
  }

  /** Calls admitted in the window that ends at `t`. */
  function Within(admitted: map<Id, int>, t: int): set<Id> {
    set m | m in admitted && t - WINDOW_MS < admitted[m] <= t
  }

  // ------------------------------------------------------------- one call

  /** A call is rejected exactly when enough other calls, admitted or not yet taken back, are in the window. */
  lemma RejectedIff(s: Limiter, m: Id, read: int, perMinute: int)
    requires Enabled(s, Call(m, read, perMinute))
    ensures m in Next(s, Call(m, read, perMinute)).rejected <==> |Trimmed(s.scores, read)| >= perMinute
    ensures m in Next(s, Call(m, read, perMinute)).admitted <==> |Trimmed(s.scores, read)| < perMinute
  {
    assert Counted(s, m, read).Keys == Trimmed(s.scores, read).Keys + {m};
  }

  /** The members that are less than a minute old at the reading. */
  function Recent(scores: map<Id, int>, read: int): set<Id> {
    set m | m in scores && scores[m] > read - 60_000
  }

  lemma TrimmedAreRecent(scores: map<Id, int>, read: int)
    ensures Trimmed(scores, read).Keys == Recent(scores, read)
    ensures forall x :: x in Trimmed(scores, read) ==> Trimmed(scores, read)[x] == scores[x]
  {
  }

  /**
   * A call is admitted exactly when fewer than the limit are recent. It leaves the recent members and itself;
   * once taken back, a rejected call leaves the recent members alone.
   */
  lemma CallLeaves(s: Limiter, m: Id, read: int, perMinute: int)
    requires Enabled(s, Call(m, read, perMinute))
    ensures var v := Next(s, Call(m, read, perMinute));
      && (m in v.admitted <==> |Recent(s.scores, read)| < perMinute) && (m in v.rejected <==> m !in v.admitted)
      && v.scores.Keys == Recent(s.scores, read) + {m} && v.scores[m] == read
      && (forall x :: x in v.scores && x != m ==> v.scores[x] == s.scores[x])
      && (m in v.rejected ==> Next(v, TakeBack(m)).scores == v.scores - {m})
  {
    RejectedIff(s, m, read, perMinute);
    TrimmedAreRecent(s.scores, read);
    assert Counted(s, m, read).Keys == Recent(s.scores, read) + {m};
  }

  /** The window that ends at `t` contains the reading. */
  predicate Joins(read: int, t: int) {
    read <= t < read + WINDOW_MS
  }

  lemma WithinAdds(admitted: map<Id, int>, m: Id, read: int, t: int)
    requires m !in admitted
    ensures |Within(admitted[m := read], t)| == |Within(admitted, t)| + if Joins(read, t) then 1 else 0
  {
    if Joins(read, t) {
      assert Within(admitted[m := read], t) == Within(admitted, t) + {m};
    } else {
      assert Within(admitted[m := read], t) == Within(admitted, t);
    }
  }

  lemma WindowAfterCall(s: Limiter, m: Id, read: int, perMinute: int, t: int)
    requires Enabled(s, Call(m, read, perMinute))
    ensures var v := Next(s, Call(m, read, perMinute));
      |Within(v.admitted, t)| ==
        |Within(s.admitted, t)| + if m in v.admitted && Joins(read, t) then 1 else 0
  {
    WithinAdds(s.admitted, m, read, t);
  }

  /** What the pipeline counts is no less than what any window it joins already holds. */
  ghost predicate Covers(s: Limiter, read: int) {
    forall t :: Joins(read, t) ==> |Within(s.admitted, t)| <= |Trimmed(s.scores, read)|
  }

  /** The call leaves every window it joins within its limit. */
  ghost predicate KeepsWindows(s: Limiter, m: Id, read: int, perMinute: int) {
    var v := Next(s, Call(m, read, perMinute));
    m in v.admitted ==> forall t :: Joins(read, t) ==> |Within(v.admitted, t)| <= perMinute
  }

  /** A call keeps every window it joins within the limit, whatever the limit, exactly when its pipeline covers them. */
  lemma CallKeepsWindowsIff(s: Limiter, m: Id, read: int)
    requires Enabled(s, Call(m, read, 1))
    ensures (forall perMinute: int :: perMinute > 0 ==> KeepsWindows(s, m, read, perMinute)) <==> Covers(s, read)
  {
    var n := |Trimmed(s.scores, read)|;
    if Covers(s, read) {
      forall perMinute: int | perMinute > 0 ensures KeepsWindows(s, m, read, perMinute) {
        CoveredCallKeepsWindows(s, m, read, perMinute);
      }
    } else {
      var t :| Joins(read, t) && |Within(s.admitted, t)| > n;
      RejectedIff(s, m, read, n + 1);
      WindowAfterCall(s, m, read, n + 1, t);
      assert !KeepsWindows(s, m, read, n + 1);
    }
  }

  lemma CoveredCallKeepsWindows(s: Limiter, m: Id, read: int, perMinute: int)
    requires Enabled(s, Call(m, read, perMinute)) && Covers(s, read)
    ensures KeepsWindows(s, m, read, perMinute)
  {
    RejectedIff(s, m, read, perMinute);
    forall t | Joins(read, t)
      ensures m in Next(s, Call(m, read, perMinute)).admitted ==>
        |Within(Next(s, Call(m, read, perMinute)).admitted, t)| <= perMinute
    {
      WindowAfterCall(s, m, read, perMinute, t);
    }
  }

  // ------------------------------------------------------------ over all runs

  ghost predicate CoveredRun(s: Limiter, steps: seq<Step>)
    decreases |steps|
  {
    steps != [] ==>
      && (steps[0].Call? && Enabled(s, steps[0]) ==> Covers(s, steps[0].read))
      && CoveredRun(Next(s, steps[0]), steps[1..])
  }

  ghost predicate Bounded(s: Limiter, limit: int) {
    forall t: int :: |Within(s.admitted, t)| <= limit
  }

  lemma NextKeepsBounded(s: Limiter, step: Step, limit: int)
    requires Bounded(s, limit) && (step.Call? && Enabled(s, step) ==> Covers(s, step.read) && step.perMinute <= limit)
    ensures Bounded(Next(s, step), limit)
  {
    if step.Call? && Enabled(s, step) {
      CoveredCallKeepsWindows(s, step.member, step.read, step.perMinute);
      forall t: int ensures |Within(Next(s, step).admitted, t)| <= limit {
        WindowAfterCall(s, step.member, step.read, step.perMinute, t);
      }
    }
  }

  lemma {:induction false} RunKeepsBounded(s: Limiter, steps: seq<Step>, limit: int)
    requires Bounded(s, limit) && CoveredRun(s, steps)
    requires forall x :: x in steps && x.Call? ==> x.perMinute <= limit
    ensures Bounded(Run(s, steps), limit)
    decreases |steps|
  {
    if steps != [] {
      assert steps[0] in steps && forall x :: x in steps[1..] ==> x in steps;
      NextKeepsBounded(s, steps[0], limit);
      RunKeepsBounded(Next(s, steps[0]), steps[1..], limit);
    }
  }

  /**
   * However calls, take-backs and key expiry interleave, no 60-second window admits more than the limit,
   * if every pipeline covers the windows its call joins.
   */
  lemma WindowNeverExceeds(now: int, steps: seq<Step>, limit: nat, t: int)
    requires CoveredRun(Fresh(now), steps) && forall x :: x in steps && x.Call? ==> x.perMinute <= limit
    ensures |Within(Run(Fresh(now), steps).admitted, t)| <= limit
  {
    RunKeepsBounded(Fresh(now), steps, limit);
  }

  // ------------------------------------------------ when a pipeline covers

  /** The sorted set still holds every admitted call that the reading does not trim. */
  ghost predicate Sees(s: Limiter, read: int) {
    forall a :: a in s.admitted && s.admitted[a] > read - WINDOW_MS ==> a in s.scores && s.scores[a] == s.admitted[a]
  }

  lemma SubsetSize<T>(a: set<T>, b: set<T>)
    requires a <= b
    ensures |a| <= |b|
  {
    assert |b| == |a| + |b - a| by { assert b == a + (b - a); }
  }

  lemma SeeingCovers(s: Limiter, read: int)
    requires Sees(s, read)
    ensures Covers(s, read)
  {
    forall t | Joins(read, t) ensures |Within(s.admitted, t)| <= |Trimmed(s.scores, read)| {
      SubsetSize(Within(s.admitted, t), Trimmed(s.scores, read).Keys);
    }
  }

  ghost predicate SeeingRun(s: Limiter, steps: seq<Step>)
    decreases |steps|
  {
    steps != [] ==>
      (steps[0].Call? && Enabled(s, steps[0]) ==> Sees(s, steps[0].read)) && SeeingRun(Next(s, steps[0]), steps[1..])
  }

  /** It is enough that every pipeline still sees the admitted calls, in whatever order readings arrive. */
  lemma {:induction false} SeeingRunsAreCovered(s: Limiter, steps: seq<Step>)
    requires SeeingRun(s, steps)
    ensures CoveredRun(s, steps)
    decreases |steps|
  {
    if steps != [] {
      if steps[0].Call? && Enabled(s, steps[0]) { SeeingCovers(s, steps[0].read); }
      SeeingRunsAreCovered(Next(s, steps[0]), steps[1..]);
    }
  }

  /** The pipeline runs within a window of its reading, and readings arrive in order. */
  predicate Prompt(s: Limiter, step: Step) {
    step.Call? ==> s.latest <= step.read && s.now - WINDOW_MS < step.read
  }

  predicate PromptRun(s: Limiter, steps: seq<Step>)
    decreases |steps|
  {
    steps != [] ==> Prompt(s, steps[0]) && PromptRun(Next(s, steps[0]), steps[1..])
  }

  /** Every admitted call that a prompt call does not trim is in the sorted set with its own reading. */
  ghost predicate Inv(s: Limiter) {
    && s.latest <= s.touched <= s.now
    && (forall m :: m in s.admitted ==> s.admitted[m] <= s.latest && m !in s.rejected)
    && (forall m :: m in s.admitted && s.admitted[m] > s.latest - WINDOW_MS && s.admitted[m] > s.now - 2 * WINDOW_MS ==>
          m in s.scores && s.scores[m] == s.admitted[m])
  }

  lemma NextKeepsInv(s: Limiter, step: Step)
    requires Inv(s) && Prompt(s, step)
    ensures Inv(Next(s, step))
  {
  }

  /** Prompt calls see: order and promptness are enough. */
  lemma {:induction false} PromptRunsSee(s: Limiter, steps: seq<Step>)
    requires Inv(s) && PromptRun(s, steps)
    ensures SeeingRun(s, steps)
    decreases |steps|
  {
    if steps != [] {
      NextKeepsInv(s, steps[0]);
      PromptRunsSee(Next(s, steps[0]), steps[1..]);
    }
  }

  /** So with readings in order and pipelines less than a window after them no window exceeds the limit. */
  lemma PromptWindowNeverExceeds(now: int, steps: seq<Step>, limit: nat, t: int)
    requires PromptRun(Fresh(now), steps) && forall x :: x in steps && x.Call? ==> x.perMinute <= limit
    ensures |Within(Run(Fresh(now), steps).admitted, t)| <= limit
  {
    PromptRunsSee(Fresh(now), steps);
    SeeingRunsAreCovered(Fresh(now), steps);
    WindowNeverExceeds(now, steps, limit, t);
  }

  // ------------------------------------------------------ what goes wrong

  lemma RunCons(s: Limiter, step: Step, rest: seq<Step>)
    ensures Run(s, [step] + rest) == Run(Next(s, step), rest)
  {
    assert ([step] + rest)[1..] == rest;
  }

  /** Two calls at one moment, and a minute passes. */
  lemma TwoCallsAgo(rest: seq<Step>)
    ensures var full := map[0 := 0, 1 := 0];
      Run(Fresh(0), [Call(0, 0, 2)] + ([Call(1, 0, 2)] + ([Tick(60_001)] + rest)))
      == Run(Limiter(60_001, full, 0, 0, full, {}), rest)
  {
    var s0 := Fresh(0);
    var s1 := Limiter(0, map[0 := 0], 0, 0, map[0 := 0], {});
    assert Counted(s0, 0, 0) == map[0 := 0];
    assert Next(s0, Call(0, 0, 2)) == s1;
    var s2 := Limiter(0, map[0 := 0, 1 := 0], 0, 0, map[0 := 0, 1 := 0], {});
    assert Counted(s1, 1, 0) == map[0 := 0, 1 := 0];
    assert Next(s1, Call(1, 0, 2)) == s2;
    RunCons(s0, Call(0, 0, 2), [Call(1, 0, 2)] + ([Tick(60_001)] + rest));
    RunCons(s1, Call(1, 0, 2), [Tick(60_001)] + rest);
    RunCons(s2, Tick(60_001), rest);
  }

  /** The later reading trims both; the one it overtook then finds room. */
  lemma LateThenOvertaken()
    ensures var full := map[0 := 0, 1 := 0];
      var s := Limiter(60_001, full, 0, 0, full, {});
      Within(Run(s, [Call(2, 60_001, 2)] + [Call(3, 59_999, 2)]).admitted, 59_999) == {0, 1, 3}
  {
    var full := map[0 := 0, 1 := 0];
    var late, overtaken := Call(2, 60_001, 2), Call(3, 59_999, 2);
    var s := Limiter(60_001, full, 0, 0, full, {});
    var s1 := Limiter(60_001, map[2 := 60_001], 60_001, 60_001, full[2 := 60_001], {});
    assert Counted(s, 2, 60_001) == map[2 := 60_001];
    assert Next(s, late) == s1;
    assert Counted(s1, 3, 59_999) == map[2 := 60_001, 3 := 59_999];
    RunCons(s, late, [overtaken]);
    RunCons(s1, overtaken, []);
    assert Next(s1, overtaken).admitted == full[2 := 60_001][3 := 59_999];
  }

  /** A reading overtaken by a later one can be the third of two in its window. */
  lemma OvertakenReadingExceeds()
    ensures var steps :=
        [Call(0, 0, 2)] + ([Call(1, 0, 2)] + ([Tick(60_001)] + ([Call(2, 60_001, 2)] + [Call(3, 59_999, 2)])));
      |Within(Run(Fresh(0), steps).admitted, 59_999)| == 3
  {
    TwoCallsAgo([Call(2, 60_001, 2)] + [Call(3, 59_999, 2)]);
    LateThenOvertaken();
  }

  /** Readings in order do not suffice: a pipeline two windows late finds its set expired. */
  lemma LateReadingExceeds()
    ensures var steps := [Call(0, 0, 1)] + ([Tick(120_000)] + ([Expire] + [Call(1, 59_999, 1)]));
      |Within(Run(Fresh(0), steps).admitted, 59_999)| == 2
  {
    var first, tick, expire, late := Call(0, 0, 1), Tick(120_000), Expire, Call(1, 59_999, 1);
    var s0 := Fresh(0);
    var s1 := Limiter(0, map[0 := 0], 0, 0, map[0 := 0], {});
    assert Counted(s0, 0, 0) == map[0 := 0];
    assert Next(s0, first) == s1;
    var s2 := s1.(now := 120_000);
    var s3 := s2.(scores := map[]);
    assert Counted(s3, 1, 59_999) == map[1 := 59_999];
    RunCons(s0, first, [tick] + ([expire] + [late]));
    RunCons(s1, tick, [expire] + [late]);
    RunCons(s2, expire, [late]);
    RunCons(s3, late, []);
    assert Next(s3, late).admitted == map[0 := 0, 1 := 59_999];
    assert Within(map[0 := 0, 1 := 59_999], 59_999) == {0, 1};
  }
}

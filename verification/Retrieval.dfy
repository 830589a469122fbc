/**
 * Reranking and retrieval: the order a model proposes is taken only when it is a
 * permutation of the candidates, so what is retrieved is what was found.
 */
module Retrieval {
  import opened Common
  import opened VectorStore

  /** What the ranking model answered: nothing usable, or an array of values with the integers among them. */
  datatype Answer = LlmFailed | NotAnArray | Indices(values: seq<Option<int>>)

  /** The values are all integers and, as they stand, a permutation of 0 to n-1. */
  ghost predicate Acceptable(values: seq<Option<int>>, n: nat) {
    && |values| == n
    && (forall i :: 0 <= i < n ==> values[i].Some? && 0 <= values[i].value < n)
    && forall i, j :: 0 <= i < j < n ==> values[i] != values[j]
  }

  /** Checks length, range and repeats, one value after the other. */
  method ParseOrder(values: seq<Option<int>>, expectedLength: nat) returns (order: Option<seq<nat>>)
    ensures order.Some? <==> Acceptable(values, expectedLength)
    ensures order.Some? ==> |order.value| == expectedLength && Distinct(order.value, expectedLength)
    ensures order.Some? ==> forall i :: 0 <= i < expectedLength ==> values[i] == Some(order.value[i])
  {
    if |values| != expectedLength { return None; }
    var seen: set<int> := {};
    var out: seq<nat> := [];
    for i := 0 to |values|
      invariant |out| == i
      invariant forall j :: 0 <= j < i ==> values[j] == Some(out[j]) && out[j] < expectedLength
      invariant forall j :: 0 <= j < i ==> out[j] in seen
      invariant forall n :: n in seen ==> n in out
      invariant forall j, k :: 0 <= j < k < i ==> out[j] != out[k]
    {
      if values[i].None? { return None; }
      var n := values[i].value;
      if n < 0 || n >= expectedLength { return None; }
      if n in seen {
        ghost var j :| 0 <= j < i && out[j] == n;
        assert values[j] == values[i];
        return None;
      }
      seen := seen + {n};
      out := out + [n];
    }
    return Some(out);
  }

  // ------------------------------------------------------------- permutations

  function Permuted<T>(items: seq<T>, order: seq<nat>): seq<T>
    requires forall i :: 0 <= i < |order| ==> order[i] < |items|
  {
    seq(|order|, i requires 0 <= i < |order| => items[order[i]])
  }

  /** The order without the item at position `j`. */
  function Without(order: seq<nat>, j: nat): seq<nat>
    requires j < |order|
  {
    order[..j] + order[j + 1..]
  }

  ghost predicate Distinct(order: seq<nat>, n: nat) {
    && (forall i :: 0 <= i < |order| ==> order[i] < n)
    && forall i, j :: 0 <= i < j < |order| ==> order[i] != order[j]
  }

  lemma WithoutLargest(order: seq<nat>, n: nat, j: nat)
    requires Distinct(order, n) && j < |order| && order[j] == n - 1
    ensures Distinct(Without(order, j), n - 1)
  {
    var rest := Without(order, j);
    assert forall i :: 0 <= i < |rest| ==> rest[i] == order[if i < j then i else i + 1];
  }

  /** There are at most n distinct numbers below n. */
  lemma {:induction false} DistinctAreFew(order: seq<nat>, n: nat)
    requires Distinct(order, n)
    ensures |order| <= n
  {
    if order != [] {
      assert order[0] < n;
      if j :| 0 <= j < |order| && order[j] == n - 1 {
        WithoutLargest(order, n, j);
        DistinctAreFew(Without(order, j), n - 1);
      } else {
        DistinctAreFew(order, n - 1);
      }
    }
  }

  /** In a permutation of n > 0 numbers the largest occurs. */
  lemma LargestOccurs(order: seq<nat>, n: nat) returns (j: nat)
    requires Distinct(order, n) && |order| == n > 0
    ensures j < n && order[j] == n - 1
  {
    if i :| 0 <= i < n && order[i] == n - 1 {
      j := i;
    } else {
      DistinctAreFew(order, n - 1);
      assert false;
    }
  }

  lemma PermutedSplits<T>(items: seq<T>, order: seq<nat>, j: nat)
    requires Distinct(order, |items|) && j < |order| && order[j] == |items| - 1
    ensures Distinct(Without(order, j), |items| - 1)
    ensures var rest := Permuted(items[..|items| - 1], Without(order, j));
      Permuted(items, order) == rest[..j] + [items[|items| - 1]] + rest[j..]
  {
    WithoutLargest(order, |items|, j);
    var front := items[..|items| - 1];
    var rest := Permuted(front, Without(order, j));
    assert |rest| == |order| - 1;
    forall i | 0 <= i < |order|
      ensures Permuted(items, order)[i] == (rest[..j] + [items[|items| - 1]] + rest[j..])[i]
    {
      if i != j { assert rest[if i < j then i else i - 1] == front[order[i]]; }
    }
  }

  /** Reordering by a permutation keeps every item as often as it was. */
  lemma {:induction false} PermutedKeepsItems<T>(items: seq<T>, order: seq<nat>)
    requires Distinct(order, |items|) && |order| == |items|
    ensures multiset(Permuted(items, order)) == multiset(items)
    decreases |items|
  {
    var n := |items|;
    if n > 0 {
      var j := LargestOccurs(order, n);
      PermutedSplits(items, order, j);
      PermutedKeepsItems(items[..n - 1], Without(order, j));
      var rest := Permuted(items[..n - 1], Without(order, j));
      Inserted(rest, j, items[n - 1]);
      assert items == items[..n - 1] + [items[n - 1]];
    }
  }

  lemma Inserted<T>(rest: seq<T>, j: nat, x: T)
    requires j <= |rest|
    ensures multiset(rest[..j] + [x] + rest[j..]) == multiset(rest) + multiset{x}
  {
    assert rest == rest[..j] + rest[j..];
  }

  /** An answer is acceptable exactly when it has one value per candidate and every candidate's number occurs. */
  lemma AcceptableIff(values: seq<Option<int>>, n: nat)
    ensures Acceptable(values, n) <==> |values| == n && forall m: int :: 0 <= m < n ==> Some(m) in values
  {
    if Acceptable(values, n) {
      var order := seq(n, i requires 0 <= i < n => values[i].value as nat);
      forall m: int | 0 <= m < n ensures Some(m) in values {
        var j := Occurs(order, n, m);
        assert values[j] == Some(m);
      }
    }
    if |values| == n && forall m: int :: 0 <= m < n ==> Some(m) in values {
      AllOccurOnce(values, n);
    }
  }

  /** In a permutation of n numbers each occurs. */
  lemma {:induction false} Occurs(order: seq<nat>, n: nat, m: nat) returns (j: nat)
    requires Distinct(order, n) && |order| == n && m < n
    ensures j < n && order[j] == m
  {
    j := LargestOccurs(order, n);
    if order[j] != m {
      WithoutLargest(order, n, j);
      var i := Occurs(Without(order, j), n - 1, m);
      j := if i < j then i else i + 1;
    }
  }

  /** A list has no more different values than places. */
  lemma {:induction false} FewNumbers(values: seq<Option<int>>)
    ensures |(set v | v in values)| <= |values|
  {
    if values != [] {
      var n := |values| - 1;
      FewNumbers(values[..n]);
      assert (set v | v in values) == (set v | v in values[..n]) + {values[n]};
    }
  }

  lemma {:induction false} ManyNumbers(s: set<Option<int>>, n: nat)
    requires forall m: int :: 0 <= m < n ==> Some(m) in s
    ensures |s| >= n
  {
    if n > 0 {
      ManyNumbers(s - {Some(n - 1)}, n - 1);
    }
  }

  /** If all n numbers occur among n values, each does once and nothing else does. */
  lemma AllOccurOnce(values: seq<Option<int>>, n: nat)
    requires |values| == n && forall m: int :: 0 <= m < n ==> Some(m) in values
    ensures Acceptable(values, n)
  {
    forall i | 0 <= i < n ensures values[i].Some? && 0 <= values[i].value < n {
      if !(values[i].Some? && 0 <= values[i].value < n) { OneTooFew(values, n, i); }
    }
    forall i, j | 0 <= i < j < n ensures values[i] != values[j] {
      if values[i] == values[j] { OneTooFew(values, n, i); }
    }
  }

  lemma OneTooFew(values: seq<Option<int>>, n: nat, i: nat)
    requires |values| == n && i < n && forall m: int :: 0 <= m < n ==> Some(m) in values
    ensures values[i].Some? && 0 <= values[i].value < n && values[i] !in values[..i] + values[i + 1..]
  {
    var rest := values[..i] + values[i + 1..];
    assert forall v :: v in values && v != values[i] ==> v in rest;
    FewNumbers(rest);
    if !(values[i].Some? && 0 <= values[i].value < n && values[i] !in rest) {
      ManyNumbers((set v | v in rest), n);
    }
  }

  // ------------------------------------------------------------------ service

  ghost predicate Accepted(answer: Answer, n: nat) {
    answer.Indices? && Acceptable(answer.values, n)
  }

  ghost predicate FollowsAnswer(candidates: seq<Row>, values: seq<Option<int>>, r: seq<Row>)
    requires Acceptable(values, |candidates|)
  {
    |r| == |candidates| && forall i :: 0 <= i < |r| ==> r[i] == candidates[values[i].value]
  }

  /** Takes the model's order if it is a permutation, and otherwise leaves the candidates as they are. */
  method Rerank(candidates: seq<Row>, answer: Answer) returns (r: seq<Row>)
    ensures multiset(r) == multiset(candidates)
    ensures if Accepted(answer, |candidates|) then FollowsAnswer(candidates, answer.values, r) else r == candidates
  {
    if |candidates| <= 1 {
      assert Accepted(answer, |candidates|) ==> forall i :: 0 <= i < |candidates| ==> answer.values[i] == Some(0);
      return candidates;
    }
    if !answer.Indices? { return candidates; }
    var order := ParseOrder(answer.values, |candidates|);
    if order.None? { return candidates; }
    PermutedKeepsItems(candidates, order.value);
    return Permuted(candidates, order.value);
  }

  /** Up to reranking, exactly the k best rows in scope that reach the score. */
  method Retrieve(order: seq<Row>, s: Scope, k: nat, minScore: real, rerank: bool, answer: Answer)
    returns (r: Result<seq<Row>, Error>)
    requires Nearest(order)
    ensures r.Err? <==> s.organization == ""
    ensures r.Ok? ==> multiset(r.value) == multiset(Prefix(Qualifying(order, s, minScore), k))
    ensures r.Ok? ==> IsTopK(r.value, order, s, k, minScore)
    ensures r.Ok? && !rerank ==> Nearest(r.value)
  {
    r := Search(order, s, k, minScore);
    if r.Ok? && rerank && |r.value| > 1 {
      var results := Rerank(r.value, answer);
      TopKInAnyOrder(r.value, results, order, s, k, minScore);
      r := Ok(results);
    }
  }

  lemma TopKInAnyOrder(a: seq<Row>, b: seq<Row>, table: seq<Row>, s: Scope, k: nat, minScore: real)
    requires IsTopK(a, table, s, k, minScore) && multiset(a) == multiset(b)
    ensures IsTopK(b, table, s, k, minScore)
  {
    assert forall r :: r in b ==> r in multiset(a);
    assert |multiset(a)| == |a| && |multiset(b)| == |b|;
    var rest: seq<Row> :| LeavesOut(a, rest, Qualifying(table, s, minScore), k);
    assert multiset(b + rest) == multiset(b) + multiset(rest) == multiset(a + rest);
    assert LeavesOut(b, rest, Qualifying(table, s, minScore), k);
  }
}

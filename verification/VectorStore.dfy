/**
 * Similarity search over the indexed entries: the WHERE clause with its numbered
 * placeholders, the over-fetching LIMIT, and the cut by score and count.
 */
module VectorStore {
  import opened Common

  /** An indexed entry, with its cosine distance to the query at hand. */
  datatype Row = Row(
    id: string,
    organization: string,
    agent: Option<string>,
    contact: Option<string>,
    conversation: Option<string>,
    ownerType: string,
    distance: real
  )

  datatype AgentScope = AgentScope(agent: string, includeOrgWide: bool)

  /** An absent field and an empty one mean the same; both are written as the empty string here. */
  datatype Scope = Scope(
    organization: string,
    agentScope: Option<AgentScope>,
    agent: string,
    contact: string,
    conversation: string,
    ownerType: string
  )

  datatype Error = NoOrganization

  function Score(r: Row): real {
    1.0 - r.distance
  }

  /** One thing a scope asks of a row. */
  predicate Asked(s: Scope, c: Column, r: Row) {
    match c
    case OrganizationId => r.organization == s.organization
    case AgentId =>
      (match s.agentScope
       case Some(a) => r.agent == Some(a.agent) || (r.agent.None? && a.includeOrgWide)
       case None => s.agent != "" ==> r.agent == Some(s.agent))
    case ContactId => s.contact != "" ==> r.contact == Some(s.contact)
    case ConversationId => s.conversation != "" ==> r.conversation == Some(s.conversation)
    case OwnerType => s.ownerType != "" && s.ownerType != "any" ==> r.ownerType == s.ownerType
  }

  predicate InScope(s: Scope, r: Row) {
    forall c: Column :: Asked(s, c, r)
  }

  /**
   * A row in scope is the organization's, and of the agent, contact, conversation and owner type wherever the
   * scope names one; rows of no agent are in scope if it names none, or asks for organization-wide ones.
   */
  lemma InScopeMeans(s: Scope, r: Row)
    ensures InScope(s, r) <==>
      && r.organization == s.organization
      && (s.contact != "" ==> r.contact == Some(s.contact))
      && (s.conversation != "" ==> r.conversation == Some(s.conversation))
      && (s.ownerType !in {"", "any"} ==> r.ownerType == s.ownerType)
      && (s.agentScope.None? && s.agent != "" ==> r.agent == Some(s.agent))
      && (s.agentScope.Some? ==>
            r.agent == Some(s.agentScope.value.agent) || (s.agentScope.value.includeOrgWide && r.agent == None))
  {
    assert InScope(s, r) <==>
      && Asked(s, OrganizationId, r) && Asked(s, AgentId, r) && Asked(s, ContactId, r)
      && Asked(s, ConversationId, r) && Asked(s, OwnerType, r);
  }

  // -------------------------------------------------------------- SQL filters

  datatype Column = OrganizationId | AgentId | ContactId | ConversationId | OwnerType

  datatype Param = Vector | Limit(n: nat) | Text(text: string) | Flag(flag: bool)

  /** `AgentOrWide` is `(agent_id = $p OR (agent_id IS NULL AND $q::boolean))`. Placeholders count from 1. */
  datatype Filter = Equals(column: Column, p: nat) | AgentOrWide(p: nat, q: nat)

  datatype Truth = True | False | Unknown

  function Value(r: Row, c: Column): Option<string> {
    match c
    case OrganizationId => Some(r.organization)
    case AgentId => r.agent
    case ContactId => r.contact
    case ConversationId => r.conversation
    case OwnerType => Some(r.ownerType)
  }

  predicate IsText(params: seq<Param>, p: nat) {
    1 <= p <= |params| && params[p - 1].Text?
  }

  /** Every placeholder is bound to a parameter of its kind. */
  predicate Bound(f: Filter, params: seq<Param>) {
    IsText(params, f.p) && (f.AgentOrWide? ==> 1 <= f.q <= |params| && params[f.q - 1].Flag?)
  }

  /** Comparing with NULL is unknown. */
  function Compare(v: Option<string>, text: string): Truth {
    if v.None? then Unknown else if v.value == text then True else False
  }

  function And(a: Truth, b: Truth): Truth {
    if a == False || b == False then False else if a == True && b == True then True else Unknown
  }

  function Or(a: Truth, b: Truth): Truth {
    if a == True || b == True then True else if a == False && b == False then False else Unknown
  }

  function Holds(f: Filter, params: seq<Param>, r: Row): Truth
    requires Bound(f, params)
  {
    match f
    case Equals(c, p) => Compare(Value(r, c), params[p - 1].text)
    case AgentOrWide(p, q) =>
      Or(Compare(r.agent, params[p - 1].text),
         And(if r.agent.None? then True else False, if params[q - 1].flag then True else False))
  }

  /** The conjunction of the filters; a row is selected when it is true. */
  function Where(filters: seq<Filter>, params: seq<Param>, r: Row): Truth
    requires forall f :: f in filters ==> Bound(f, params)
  {
    if filters == [] then True
    else And(Where(filters[..|filters| - 1], params, r), Holds(filters[|filters| - 1], params, r))
  }

  /** Later parameters do not change what earlier filters say. */
  lemma {:induction false} WhereGrows(filters: seq<Filter>, params: seq<Param>, more: seq<Param>, r: Row)
    requires forall f :: f in filters ==> Bound(f, params)
    ensures forall f :: f in filters ==> Bound(f, params + more)
    ensures Where(filters, params + more, r) == Where(filters, params, r)
  {
    if filters != [] {
      var last := filters[|filters| - 1];
      assert last in filters;
      WhereGrows(filters[..|filters| - 1], params, more, r);
    }
  }

  lemma WhereAdds(filters: seq<Filter>, f: Filter, params: seq<Param>, more: seq<Param>, r: Row)
    requires (forall g :: g in filters ==> Bound(g, params)) && Bound(f, params + more)
    ensures forall g :: g in filters + [f] ==> Bound(g, params + more)
    ensures Where(filters + [f], params + more, r) == And(Where(filters, params, r), Holds(f, params + more, r))
  {
    WhereGrows(filters, params, more, r);
    assert (filters + [f])[..|filters|] == filters;
  }

  ghost predicate AllBound(filters: seq<Filter>, params: seq<Param>) {
    forall f :: f in filters ==> Bound(f, params)
  }

  /** The clause so far selects the rows that meet what the scope asks of these columns. */
  ghost predicate Selects(filters: seq<Filter>, params: seq<Param>, s: Scope, columns: set<Column>) {
    && AllBound(filters, params)
    && forall r: Row :: Where(filters, params, r) == True <==> forall c :: c in columns ==> Asked(s, c, r)
  }

  method AddEquals(filters: seq<Filter>, params: seq<Param>, p: nat, c: Column, text: string,
                   ghost s: Scope, ghost columns: set<Column>)
    returns (filters': seq<Filter>, params': seq<Param>, p': nat)
    requires p == |params| + 1 && Selects(filters, params, s, columns)
    requires forall r: Row :: Asked(s, c, r) <==> Value(r, c) == Some(text)
    ensures params' == params + [Text(text)] && p' == |params'| + 1
    ensures Selects(filters', params', s, columns + {c})
  {
    filters', params', p' := filters + [Equals(c, p)], params + [Text(text)], p + 1;
    forall r: Row
      ensures AllBound(filters', params')
      ensures Where(filters', params', r) == True <==> forall x :: x in columns + {c} ==> Asked(s, x, r)
    {
      WhereAdds(filters, Equals(c, p), params, [Text(text)], r);
      AskedOneMore(s, columns, c, r);
    }
  }

  lemma AskedOneMore(s: Scope, columns: set<Column>, c: Column, r: Row)
    ensures (forall x :: x in columns + {c} ==> Asked(s, x, r))
      <==> (forall x :: x in columns ==> Asked(s, x, r)) && Asked(s, c, r)
  {
    if forall x :: x in columns + {c} ==> Asked(s, x, r) {
      assert c in columns + {c};
    }
  }

  /** A column the scope does not ask about needs no filter. */
  lemma NothingAsked(filters: seq<Filter>, params: seq<Param>, s: Scope, columns: set<Column>, c: Column)
    requires Selects(filters, params, s, columns) && forall r: Row :: Asked(s, c, r)
    ensures Selects(filters, params, s, columns + {c})
  {
    forall r: Row
      ensures Where(filters, params, r) == True <==> forall x :: x in columns + {c} ==> Asked(s, x, r)
    {
      AskedOneMore(s, columns, c, r);
    }
  }

  method AddAgentScope(filters: seq<Filter>, params: seq<Param>, p: nat, a: AgentScope,
                       ghost s: Scope, ghost columns: set<Column>)
    returns (filters': seq<Filter>, params': seq<Param>, p': nat)
    requires p == |params| + 1 && Selects(filters, params, s, columns) && s.agentScope == Some(a)
    ensures params' == params + [Text(a.agent), Flag(a.includeOrgWide)] && p' == |params'| + 1
    ensures Selects(filters', params', s, columns + {AgentId})
  {
    var more := [Text(a.agent), Flag(a.includeOrgWide)];
    filters', params', p' := filters + [AgentOrWide(p, p + 1)], params + more, p + 2;
    forall r: Row
      ensures AllBound(filters', params')
      ensures Where(filters', params', r) == True <==> forall x :: x in columns + {AgentId} ==> Asked(s, x, r)
    {
      WhereAdds(filters, AgentOrWide(p, p + 1), params, more, r);
      AskedOneMore(s, columns, AgentId, r);
    }
  }

  ghost predicate Leads(params: seq<Param>, fetchK: nat) {
    |params| >= 2 && params[0] == Vector && params[1] == Limit(fetchK)
  }

  /** The clause selects exactly the rows in scope; the first two parameters are the vector and the limit. */
  method BuildWhere(s: Scope, fetchK: nat) returns (filters: seq<Filter>, params: seq<Param>)
    ensures Leads(params, fetchK) && AllBound(filters, params)
    ensures forall r: Row :: Where(filters, params, r) == True <==> InScope(s, r)
  {
    filters, params := [], [Vector, Limit(fetchK)];
    var p := 3;
    filters, params, p := AddEquals(filters, params, p, OrganizationId, s.organization, s, {});
    ghost var done := {} + {OrganizationId};
    if s.agentScope.Some? {
      filters, params, p := AddAgentScope(filters, params, p, s.agentScope.value, s, done);
    } else if s.agent != "" {
      filters, params, p := AddEquals(filters, params, p, AgentId, s.agent, s, done);
    } else {
      NothingAsked(filters, params, s, done, AgentId);
    }
    done := done + {AgentId};
    filters, params, p := AddUnlessEmpty(filters, params, p, ContactId, s.contact, s, done);
    done := done + {ContactId};
    filters, params, p := AddUnlessEmpty(filters, params, p, ConversationId, s.conversation, s, done);
    done := done + {ConversationId};
    if s.ownerType != "any" {
      filters, params, p := AddUnlessEmpty(filters, params, p, OwnerType, s.ownerType, s, done);
    } else {
      NothingAsked(filters, params, s, done, OwnerType);
    }
    done := done + {OwnerType};
    forall c: Column ensures c in done {
      assert c == OrganizationId || c == AgentId || c == ContactId || c == ConversationId || c == OwnerType;
    }
  }

  method AddUnlessEmpty(filters: seq<Filter>, params: seq<Param>, p: nat, c: Column, text: string,
                        ghost s: Scope, ghost columns: set<Column>)
    returns (filters': seq<Filter>, params': seq<Param>, p': nat)
    requires p == |params| + 1 && Selects(filters, params, s, columns)
    requires forall r: Row :: Asked(s, c, r) <==> (text != "" ==> Value(r, c) == Some(text))
    ensures params <= params' && p' == |params'| + 1
    ensures Selects(filters', params', s, columns + {c})
  {
    filters', params', p' := filters, params, p;
    if text != "" {
      filters', params', p' := AddEquals(filters, params, p, c, text, s, columns);
    } else {
      NothingAsked(filters, params, s, columns, c);
    }
  }

  // --------------------------------------------------------------- the search

  /** Nearest first. */
  ghost predicate Nearest(rows: seq<Row>) {
    forall i, j :: 0 <= i < j < |rows| ==> rows[i].distance <= rows[j].distance
  }

  function Matching(order: seq<Row>, filters: seq<Filter>, params: seq<Param>): seq<Row>
    requires forall f :: f in filters ==> Bound(f, params)
  {
    if order == [] then []
    else
      var front, last := Matching(order[..|order| - 1], filters, params), order[|order| - 1];
      if Where(filters, params, last) == True then front + [last] else front
  }

  function Prefix(rows: seq<Row>, n: nat): seq<Row> {
    if n <= |rows| then rows[..n] else rows
  }

  /** The database's answer, for the order it puts rows in, ties included. */
  function Query(order: seq<Row>, filters: seq<Filter>, params: seq<Param>): seq<Row>
    requires (forall f :: f in filters ==> Bound(f, params)) && |params| >= 2 && params[1].Limit?
  {
    Prefix(Matching(order, filters, params), params[1].n)
  }

  function AtLeast(rows: seq<Row>, minScore: real): seq<Row> {
    if rows == [] then []
    else
      var front, last := AtLeast(rows[..|rows| - 1], minScore), rows[|rows| - 1];
      if Score(last) >= minScore then front + [last] else front
  }

  function Qualifying(rows: seq<Row>, s: Scope, minScore: real): seq<Row> {
    if rows == [] then []
    else
      var front, last := Qualifying(rows[..|rows| - 1], s, minScore), rows[|rows| - 1];
      if InScope(s, last) && Score(last) >= minScore then front + [last] else front
  }

  lemma {:induction false} MatchingQualifies(order: seq<Row>, filters: seq<Filter>, params: seq<Param>, s: Scope,
                                             minScore: real)
    requires AllBound(filters, params) && forall r: Row :: Where(filters, params, r) == True <==> InScope(s, r)
    ensures AtLeast(Matching(order, filters, params), minScore) == Qualifying(order, s, minScore)
  {
    if order != [] {
      var n := |order| - 1;
      MatchingQualifies(order[..n], filters, params, s, minScore);
      var front := Matching(order[..n], filters, params);
      assert (front + [order[n]])[..|front|] == front;
    }
  }

  lemma {:induction false} MatchingIsNearest(order: seq<Row>, filters: seq<Filter>, params: seq<Param>)
    requires AllBound(filters, params) && Nearest(order)
    ensures Nearest(Matching(order, filters, params))
    ensures forall r :: r in Matching(order, filters, params) ==> r in order
  {
    if order != [] {
      var n := |order| - 1;
      MatchingIsNearest(order[..n], filters, params);
      forall r | r in order[..n] ensures r.distance <= order[n].distance {
        var i :| 0 <= i < n && order[..n][i] == r;
      }
      assert forall i :: 0 <= i < |Matching(order[..n], filters, params)| ==>
        Matching(order[..n], filters, params)[i] in order[..n];
    }
  }

  /** Nearest first, the rows that reach a score come before all others. */
  lemma {:induction false} AtLeastIsPrefix(rows: seq<Row>, minScore: real)
    requires Nearest(rows)
    ensures var q := AtLeast(rows, minScore);
      && |q| <= |rows| && q == rows[..|q|]
      && (forall i :: 0 <= i < |q| ==> Score(rows[i]) >= minScore)
      && (|q| < |rows| ==> Score(rows[|q|]) < minScore)
  {
    if rows != [] { AtLeastIsPrefix(rows[..|rows| - 1], minScore); }
  }

  /** Cutting to the limit before looking at scores loses none of the first k, whatever limit of at least k. */
  lemma LimitThenFilter(rows: seq<Row>, limit: nat, k: nat, minScore: real)
    requires Nearest(rows) && k <= limit
    ensures Prefix(AtLeast(Prefix(rows, limit), minScore), k) == Prefix(AtLeast(rows, minScore), k)
  {
    AtLeastIsPrefix(rows, minScore);
    AtLeastIsPrefix(Prefix(rows, limit), minScore);
    var q, q' := AtLeast(rows, minScore), AtLeast(Prefix(rows, limit), minScore);
    var cut := Prefix(rows, limit);
    assert |q'| < |cut| ==> cut[|q'|] == rows[|q'|];
    assert |q| < |cut| ==> cut[|q|] == rows[|q|];
    assert |q'| == if |q| <= |cut| then |q| else |cut|;
  }

  lemma {:induction false} QualifyingRows(rows: seq<Row>, s: Scope, minScore: real)
    ensures forall r :: r in Qualifying(rows, s, minScore) <==> r in rows && InScope(s, r) && Score(r) >= minScore
  {
    if rows != [] {
      var n := |rows| - 1;
      QualifyingRows(rows[..n], s, minScore);
      assert rows == rows[..n] + [rows[n]];
    }
  }

  /**
   * The k best rows in scope: only qualifying rows, as many as there are up to k, and none left
   * out scores higher than one returned.
   */
  ghost predicate IsTopK(result: seq<Row>, table: seq<Row>, s: Scope, k: nat, minScore: real) {
    && |result| <= k
    && (forall r :: r in result ==> r in table && InScope(s, r) && Score(r) >= minScore)
    && exists rest: seq<Row> :: LeavesOut(result, rest, Qualifying(table, s, minScore), k)
  }

  ghost predicate LeavesOut(result: seq<Row>, rest: seq<Row>, qualifying: seq<Row>, k: nat) {
    && multiset(result + rest) == multiset(qualifying)
    && (rest != [] ==> |result| == k)
    && forall r, q :: r in result && q in rest ==> Score(q) <= Score(r)
  }

  method Search(order: seq<Row>, s: Scope, k: nat, minScore: real) returns (r: Result<seq<Row>, Error>)
    requires Nearest(order)
    ensures r.Err? <==> s.organization == ""
    ensures r.Ok? ==> r.value == Prefix(Qualifying(order, s, minScore), k)
    ensures r.Ok? ==> IsTopK(r.value, order, s, k, minScore) && Nearest(r.value)
    ensures r.Ok? ==> forall row :: row in r.value ==>
      row in order && row.organization == s.organization && 1.0 - row.distance >= minScore
  {
    if s.organization == "" { return Err(NoOrganization); }
    var rows := FindRows(order, s, k, minScore);
    QualifyingRows(order, s, minScore);
    forall row | row in rows ensures row in Qualifying(order, s, minScore) && row.organization == s.organization {
      InScopeMeans(s, row);
    }
    return Ok(rows);
  }

  /** Fetches four times k rows, and keeps the first k that reach the score. */
  method FindRows(order: seq<Row>, s: Scope, k: nat, minScore: real) returns (rows: seq<Row>)
    requires Nearest(order)
    ensures rows == Prefix(Qualifying(order, s, minScore), k)
    ensures IsTopK(rows, order, s, k, minScore) && Nearest(rows)
  {
    var fetchK := k * 4;
    var filters, params := BuildWhere(s, fetchK);
    rows := Query(order, filters, params);
    MatchingQualifies(order, filters, params, s, minScore);
    MatchingIsNearest(order, filters, params);
    LimitThenFilter(Matching(order, filters, params), fetchK, k, minScore);
    AtLeastIsPrefix(Matching(order, filters, params), minScore);
    rows := Prefix(AtLeast(rows, minScore), k);
    FirstAreBest(Qualifying(order, s, minScore), order, s, k, minScore);
  }

  lemma FirstAreBest(q: seq<Row>, order: seq<Row>, s: Scope, k: nat, minScore: real)
    requires q == Qualifying(order, s, minScore) && Nearest(q)
    ensures IsTopK(Prefix(q, k), order, s, k, minScore)
  {
    QualifyingRows(order, s, minScore);
    var rest := PrefixLeavesOut(q, k);
    assert forall r :: r in Prefix(q, k) ==> r in q;
  }

  lemma PrefixLeavesOut(q: seq<Row>, k: nat) returns (rest: seq<Row>)
    requires Nearest(q)
    ensures LeavesOut(Prefix(q, k), rest, q, k)
  {
    rest := if k <= |q| then q[k..] else [];
    LaterIsWorse(q, k);
    assert Prefix(q, k) + rest == q;
  }

  lemma LaterIsWorse(q: seq<Row>, k: nat)
    requires Nearest(q)
    ensures k <= |q| ==> forall r, x :: r in q[..k] && x in q[k..] ==> Score(x) <= Score(r)
  {
    if k <= |q| {
      forall r, x | r in q[..k] && x in q[k..] ensures Score(x) <= Score(r) {
        var i :| 0 <= i < k && q[i] == r;
        var j :| k <= j < |q| && q[j] == x;
      }
    }
  }
}

/**
 * Conditions of automation rules: groups of rules over the fields of an event,
 * evaluated from the JSON they are stored as.
 */
module Conditions {
  datatype Json =
    | Undefined
    | Null
    | Bool(b: bool)
    | Num(n: real)
    | Str(s: string)
    | Arr(items: seq<Json>)
    | Obj(fields: map<string, Json>)

  datatype Trigger = TagAdded | TagRemoved | MessageReceived | ConversationStatusChanged | ConversationAssigned

  /** What resolvers find in an event, by field name; `lower` is how the host lower-cases text. */
  datatype Event = Event(read: string -> Json, lower: string -> string)

  function FieldsOf(t: Trigger): set<string> {
    match t
    case TagAdded => {"tagId", "target", "contactId", "conversationId", "channelId"}
    case TagRemoved => {"tagId", "target", "contactId", "conversationId", "channelId"}
    case MessageReceived => {"body", "type", "hasAttachment", "channelId", "contactId", "conversationId"}
    case ConversationStatusChanged => {"fromStatus", "toStatus", "channelId", "contactId", "conversationId"}
    case ConversationAssigned => {"fromAssigneeId", "toAssigneeId", "channelId", "contactId", "conversationId"}
  }

  function Get(j: Json, key: string): Json {
    if j.Obj? && key in j.fields then j.fields[key] else Undefined
  }

  function Items(j: Json): seq<Json> {
    if j.Arr? then j.items else []
  }

  // --------------------------------------------------------------- operators

  /** Strict equality: values from an event and from a stored condition are never the same array or object. */
  predicate SameValue(a: Json, b: Json) {
    a == b && !a.Arr? && !a.Obj?
  }

  predicate Includes(text: string, part: string) {
    exists i :: 0 <= i <= |text| && StartsAt(text, part, i)
  }

  predicate StartsAt(text: string, part: string, i: nat) {
    i + |part| <= |text| && text[i..i + |part|] == part
  }

  predicate Contains(e: Event, actual: Json, expected: Json) {
    actual.Str? && expected.Str? && Includes(e.lower(actual.s), e.lower(expected.s))
  }

  predicate IsIn(actual: Json, expected: Json) {
    expected.Arr? && exists i :: 0 <= i < |expected.items| && SameValue(actual, expected.items[i])
  }

  predicate IsSet(actual: Json) {
    actual != Null && actual != Undefined && actual != Str("")
  }

  /** An operator nobody knows is no match. */
  predicate ApplyOperator(e: Event, op: Json, actual: Json, expected: Json) {
    if op == Str("equals") then SameValue(actual, expected)
    else if op == Str("not_equals") then !SameValue(actual, expected)
    else if op == Str("contains") then Contains(e, actual, expected)
    else if op == Str("not_contains")
    then !actual.Str? || !expected.Str? || !Includes(e.lower(actual.s), e.lower(expected.s))
    else if op == Str("in") then IsIn(actual, expected)
    else if op == Str("not_in") then !expected.Arr? || !IsIn(actual, expected)
    else if op == Str("is_set") then IsSet(actual)
    else if op == Str("is_not_set") then actual == Null || actual == Undefined || actual == Str("")
    else false
  }

  // -------------------------------------------------------------- evaluation

  predicate KnownField(t: Trigger, field: Json) {
    field.Str? && field.s in FieldsOf(t)
  }

  /** Fails closed on a field the trigger does not have. */
  predicate EvaluateRule(t: Trigger, rule: Json, e: Event) {
    var field := Get(rule, "field");
    KnownField(t, field) && ApplyOperator(e, Get(rule, "op"), e.read(field.s), Get(rule, "value"))
  }

  predicate EvaluateGroup(t: Trigger, group: Json, e: Event) {
    var rules := Items(Get(group, "rules"));
    if rules == [] then true
    else if Get(group, "match") == Str("AND") then forall i :: 0 <= i < |rules| ==> EvaluateRule(t, rules[i], e)
    else exists i :: 0 <= i < |rules| && EvaluateRule(t, rules[i], e)
  }

  predicate IsMatch(j: Json) {
    j == Str("AND") || j == Str("OR")
  }

  predicate IsRoot(c: Json) {
    IsMatch(Get(c, "match")) && Get(c, "groups").Arr?
  }

  /** Anything that is not a root with a group in it matches every event. */
  predicate Evaluate(t: Trigger, c: Json, e: Event) {
    var groups := Items(Get(c, "groups"));
    if !IsRoot(c) || groups == [] then true
    else if Get(c, "match") == Str("AND") then forall i :: 0 <= i < |groups| ==> EvaluateGroup(t, groups[i], e)
    else exists i :: 0 <= i < |groups| && EvaluateGroup(t, groups[i], e)
  }

  // -------------------------------------------------------------- well formed

  predicate KnownOp(op: Json) {
    op in {Str("equals"), Str("not_equals"), Str("contains"), Str("not_contains"),
           Str("in"), Str("not_in"), Str("is_set"), Str("is_not_set")}
  }

  predicate NeedsValue(op: Json) {
    op != Str("is_set") && op != Str("is_not_set")
  }

  predicate NeedsArray(op: Json) {
    op == Str("in") || op == Str("not_in")
  }

  ghost predicate RuleOk(t: Trigger, rule: Json) {
    && (rule.Obj? || rule.Arr?)
    && KnownField(t, Get(rule, "field"))
    && KnownOp(Get(rule, "op"))
    && (NeedsValue(Get(rule, "op")) ==> Get(rule, "value") != Undefined)
    && (NeedsArray(Get(rule, "op")) ==> Get(rule, "value").Arr?)
  }

  ghost predicate GroupOk(t: Trigger, group: Json) {
    && (group.Obj? || group.Arr?)
    && IsMatch(Get(group, "match"))
    && Get(group, "rules").Arr? && Get(group, "rules").items != []
    && forall i :: 0 <= i < |Get(group, "rules").items| ==> RuleOk(t, Get(group, "rules").items[i])
  }

  /** A root all of whose groups and rules can be evaluated for the trigger. */
  ghost predicate RootOk(t: Trigger, c: Json) {
    IsRoot(c) && forall i :: 0 <= i < |Get(c, "groups").items| ==> GroupOk(t, Get(c, "groups").items[i])
  }

  // ----------------------------------------------------------------- negation

  function OtherMatch(j: Json): Json {
    if j == Str("AND") then Str("OR") else Str("AND")
  }

  function Twin(op: Json): Json {
    if op == Str("equals") then Str("not_equals")
    else if op == Str("not_equals") then Str("equals")
    else if op == Str("contains") then Str("not_contains")
    else if op == Str("not_contains") then Str("contains")
    else if op == Str("in") then Str("not_in")
    else if op == Str("not_in") then Str("in")
    else if op == Str("is_set") then Str("is_not_set")
    else Str("is_set")
  }

  function NegateRule(rule: Json): Json {
    if rule.Obj? then Obj(rule.fields["op" := Twin(Get(rule, "op"))]) else rule
  }

  function NegateGroup(group: Json): Json {
    var rules := Items(Get(group, "rules"));
    if group.Obj?
    then Obj(group.fields["match" := OtherMatch(Get(group, "match"))]
                         ["rules" := Arr(seq(|rules|, i requires 0 <= i < |rules| => NegateRule(rules[i])))])
    else group
  }

  /** AND for OR at both levels, and every operator for its twin. */
  function Negate(c: Json): Json {
    var groups := Items(Get(c, "groups"));
    if c.Obj?
    then Obj(c.fields["match" := OtherMatch(Get(c, "match"))]
                     ["groups" := Arr(seq(|groups|, i requires 0 <= i < |groups| => NegateGroup(groups[i])))])
    else c
  }

  predicate Opposite(e: Event, op: Json, actual: Json, expected: Json) {
    ApplyOperator(e, Twin(op), actual, expected) != ApplyOperator(e, op, actual, expected)
  }

  lemma EqualsNegates(e: Event, actual: Json, expected: Json)
    ensures Opposite(e, Str("equals"), actual, expected) && Opposite(e, Str("not_equals"), actual, expected)
  {
  }

  lemma ContainsNegates(e: Event, actual: Json, expected: Json)
    ensures Opposite(e, Str("contains"), actual, expected) && Opposite(e, Str("not_contains"), actual, expected)
  {
  }

  lemma InNegates(e: Event, actual: Json, expected: Json)
    ensures Opposite(e, Str("in"), actual, expected) && Opposite(e, Str("not_in"), actual, expected)
  {
  }

  lemma IsSetNegates(e: Event, actual: Json, expected: Json)
    ensures Opposite(e, Str("is_set"), actual, expected) && Opposite(e, Str("is_not_set"), actual, expected)
  {
  }

  lemma TwinNegates(e: Event, op: Json, actual: Json, expected: Json)
    requires KnownOp(op)
    ensures Opposite(e, op, actual, expected)
  {
    EqualsNegates(e, actual, expected);
    ContainsNegates(e, actual, expected);
    InNegates(e, actual, expected);
    IsSetNegates(e, actual, expected);
  }

  lemma NegatedRule(t: Trigger, rule: Json, e: Event)
    requires RuleOk(t, rule)
    ensures EvaluateRule(t, NegateRule(rule), e) <==> !EvaluateRule(t, rule, e)
  {
    var r := NegateRule(rule);
    assert Get(r, "field") == Get(rule, "field") && Get(r, "value") == Get(rule, "value");
    TwinNegates(e, Get(rule, "op"), e.read(Get(rule, "field").s), Get(rule, "value"));
  }

  lemma NegatedGroup(t: Trigger, group: Json, e: Event)
    requires GroupOk(t, group)
    ensures EvaluateGroup(t, NegateGroup(group), e) <==> !EvaluateGroup(t, group, e)
  {
    var rules := Items(Get(group, "rules"));
    var negated := Items(Get(NegateGroup(group), "rules"));
    assert |negated| == |rules|;
    forall i | 0 <= i < |rules|
      ensures EvaluateRule(t, negated[i], e) <==> !EvaluateRule(t, rules[i], e)
    {
      assert RuleOk(t, Get(group, "rules").items[i]);
      NegatedRule(t, rules[i], e);
    }
  }

  /**
   * For well-formed conditions the negated conditions hold of exactly the other events,
   * if and only if there is a group; without one both match everything.
   */
  lemma NegationIsComplementIff(t: Trigger, c: Json, e: Event)
    requires RootOk(t, c)
    ensures Evaluate(t, Negate(c), e) == !Evaluate(t, c, e) <==> Get(c, "groups").items != []
  {
    var groups := Items(Get(c, "groups"));
    var negated := Items(Get(Negate(c), "groups"));
    assert |negated| == |groups| && IsRoot(Negate(c));
    forall i | 0 <= i < |groups|
      ensures EvaluateGroup(t, negated[i], e) <==> !EvaluateGroup(t, groups[i], e)
    {
      assert GroupOk(t, Get(c, "groups").items[i]);
      NegatedGroup(t, groups[i], e);
    }
  }
}

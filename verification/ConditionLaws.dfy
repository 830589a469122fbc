/**
 * What stored conditions mean, said of whole conditions and events: each operator by the
 * events it matches, and AND and OR by what a further group or rule does.
 */
module ConditionLaws {
  import opened Conditions

  // ------------------------------------------------------------ writing them

  function RuleOf(field: string, op: string, value: Json): Json {
    Obj(map["field" := Str(field), "op" := Str(op), "value" := value])
  }

  function Match(all: bool): Json {
    if all then Str("AND") else Str("OR")
  }

  function GroupOf(all: bool, rules: seq<Json>): Json {
    Obj(map["match" := Match(all), "rules" := Arr(rules)])
  }

  function RootOf(all: bool, groups: seq<Json>): Json {
    Obj(map["match" := Match(all), "groups" := Arr(groups)])
  }

  /** A condition of one rule. */
  function Single(field: string, op: string, value: Json): Json {
    RootOf(true, [GroupOf(true, [RuleOf(field, op, value)])])
  }

  predicate Scalar(j: Json) {
    !j.Arr? && !j.Obj?
  }

  lemma SingleIs(t: Trigger, field: string, op: string, value: Json, e: Event)
    ensures Evaluate(t, Single(field, op, value), e) <==>
      field in FieldsOf(t) && ApplyOperator(e, Str(op), e.read(field), value)
  {
    var rule := RuleOf(field, op, value);
    assert Get(rule, "field") == Str(field) && Get(rule, "op") == Str(op) && Get(rule, "value") == value;
    var group := GroupOf(true, [rule]);
    assert Items(Get(group, "rules")) == [rule] && Get(group, "match") == Str("AND");
    assert Items(Get(RootOf(true, [group]), "groups")) == [group];
    assert EvaluateRule(t, [rule][0], e) <==> EvaluateRule(t, rule, e);
    assert EvaluateGroup(t, [group][0], e) <==> EvaluateGroup(t, group, e);
  }

  // ------------------------------------------------------------- the operators

  lemma ComparesEqual(e: Event, actual: Json, value: Json)
    ensures ApplyOperator(e, Str("equals"), actual, value) <==> actual == value && Scalar(actual)
    ensures ApplyOperator(e, Str("not_equals"), actual, value) <==> !(actual == value && Scalar(actual))
  {
  }

  lemma LooksUp(e: Event, actual: Json, values: seq<Json>)
    ensures ApplyOperator(e, Str("in"), actual, Arr(values)) <==> actual in values && Scalar(actual)
    ensures ApplyOperator(e, Str("not_in"), actual, Arr(values)) <==> !(actual in values && Scalar(actual))
  {
    assert IsIn(actual, Arr(values)) <==> actual in values && Scalar(actual);
  }

  lemma LooksSet(e: Event, actual: Json, value: Json)
    ensures ApplyOperator(e, Str("is_set"), actual, value) <==> actual !in {Undefined, Null, Str("")}
    ensures ApplyOperator(e, Str("is_not_set"), actual, value) <==> actual in {Undefined, Null, Str("")}
  {
  }

  /** A field the trigger does not have matches nothing, whatever the operator. */
  lemma UnknownFieldFails(t: Trigger, field: string, op: string, value: Json, e: Event)
    requires field !in FieldsOf(t)
    ensures !Evaluate(t, Single(field, op, value), e)
  {
    SingleIs(t, field, op, value, e);
  }

  /** equals matches exactly the events whose field reads the value; not_equals exactly the others. */
  lemma EqualsMatches(t: Trigger, field: string, value: Json, e: Event)
    requires field in FieldsOf(t) && Scalar(value)
    ensures Evaluate(t, Single(field, "equals", value), e) <==> e.read(field) == value
    ensures Evaluate(t, Single(field, "not_equals", value), e) <==> e.read(field) != value
  {
    SingleIs(t, field, "equals", value, e);
    SingleIs(t, field, "not_equals", value, e);
    ComparesEqual(e, e.read(field), value);
  }

  /** in matches exactly when equals does for some value of the list; not_in exactly when for none. */
  lemma InMatches(t: Trigger, field: string, values: seq<Json>, e: Event)
    requires field in FieldsOf(t) && forall v :: v in values ==> Scalar(v)
    ensures Evaluate(t, Single(field, "in", Arr(values)), e) <==>
      exists v :: v in values && Evaluate(t, Single(field, "equals", v), e)
    ensures Evaluate(t, Single(field, "not_in", Arr(values)), e) <==>
      forall v :: v in values ==> Evaluate(t, Single(field, "not_equals", v), e)
  {
    SingleIs(t, field, "in", Arr(values), e);
    SingleIs(t, field, "not_in", Arr(values), e);
    forall v | v in values
      ensures Evaluate(t, Single(field, "equals", v), e) <==> e.read(field) == v
      ensures Evaluate(t, Single(field, "not_equals", v), e) <==> e.read(field) != v
    {
      EqualsMatches(t, field, v, e);
    }
    LooksUp(e, e.read(field), values);
  }

  /** Text occurs in text if there is something before and something after it. */
  ghost predicate Occurs(part: string, text: string) {
    exists before: string, after: string :: text == before + part + after
  }

  lemma OccursIff(part: string, text: string)
    ensures Includes(text, part) <==> Occurs(part, text)
  {
    if i :| 0 <= i <= |text| && StartsAt(text, part, i) {
      assert text == text[..i] + part + text[i + |part|..];
    }
    if before: string, after: string :| text == before + part + after {
      assert text[|before|..|before| + |part|] == part;
      assert StartsAt(text, part, |before|);
    }
  }

  /** contains matches exactly when both are text and the one occurs in the other, in lower case. */
  lemma ContainsMatches(t: Trigger, field: string, value: Json, e: Event)
    requires field in FieldsOf(t)
    ensures Evaluate(t, Single(field, "contains", value), e) <==>
      e.read(field).Str? && value.Str? && Occurs(e.lower(value.s), e.lower(e.read(field).s))
    ensures Evaluate(t, Single(field, "not_contains", value), e) <==>
      !(e.read(field).Str? && value.Str? && Occurs(e.lower(value.s), e.lower(e.read(field).s)))
  {
    SingleIs(t, field, "contains", value, e);
    SingleIs(t, field, "not_contains", value, e);
    if e.read(field).Str? && value.Str? { OccursIff(e.lower(value.s), e.lower(e.read(field).s)); }
  }

  /** The event `e'` is `e` with more text around one field. */
  ghost predicate Grows(e: Event, e': Event, field: string) {
    && e.read(field).Str? && e'.read(field).Str?
    && Occurs(e.lower(e.read(field).s), e'.lower(e'.read(field).s))
    && forall text: string :: e'.lower(text) == e.lower(text)
  }

  /** contains matches the text itself, and goes on matching when there is more text. */
  lemma ContainsGrows(t: Trigger, field: string, value: string, e: Event, e': Event)
    requires field in FieldsOf(t)
    ensures e.read(field) == Str(value) ==> Evaluate(t, Single(field, "contains", Str(value)), e)
    ensures Grows(e, e', field) && Evaluate(t, Single(field, "contains", Str(value)), e) ==>
      Evaluate(t, Single(field, "contains", Str(value)), e')
  {
    ContainsMatches(t, field, Str(value), e);
    ContainsMatches(t, field, Str(value), e');
    var v := e.lower(value);
    assert v == [] + v + [];
    if Grows(e, e', field) && Occurs(v, e.lower(e.read(field).s)) {
      OccursThrough(v, e.lower(e.read(field).s), e'.lower(e'.read(field).s));
    }
  }

  lemma OccursThrough(a: string, b: string, c: string)
    requires Occurs(a, b) && Occurs(b, c)
    ensures Occurs(a, c)
  {
    var x: string, y: string :| b == x + a + y;
    var p: string, q: string :| c == p + b + q;
    assert c == (p + x) + a + (y + q);
  }

  /** is_set fails exactly on what is missing, null or empty; is_not_set holds exactly there. */
  lemma IsSetMatches(t: Trigger, field: string, value: Json, e: Event)
    requires field in FieldsOf(t)
    ensures Evaluate(t, Single(field, "is_set", value), e) <==> e.read(field) !in {Undefined, Null, Str("")}
    ensures Evaluate(t, Single(field, "is_not_set", value), e) <==> e.read(field) in {Undefined, Null, Str("")}
  {
    SingleIs(t, field, "is_set", value, e);
    SingleIs(t, field, "is_not_set", value, e);
    LooksSet(e, e.read(field), value);
  }

  /** An operator that is none of the eight matches nothing. */
  lemma UnknownOperatorFails(t: Trigger, field: string, op: string, value: Json, e: Event)
    requires op !in {"equals", "not_equals", "contains", "not_contains", "in", "not_in", "is_set", "is_not_set"}
    ensures !Evaluate(t, Single(field, op, value), e)
  {
    SingleIs(t, field, op, value, e);
  }

  // ---------------------------------------------------------- groups and roots

  lemma GroupsOfRoot(groups: seq<Json>)
    ensures forall all: bool ::
      IsRoot(RootOf(all, groups)) && Get(RootOf(all, groups), "match") == Match(all)
      && Items(Get(RootOf(all, groups), "groups")) == groups
  {
  }

  lemma RootIs(t: Trigger, all: bool, groups: seq<Json>, e: Event)
    requires groups != []
    ensures Evaluate(t, RootOf(all, groups), e) <==>
      if all then forall i :: 0 <= i < |groups| ==> EvaluateGroup(t, groups[i], e)
      else exists i :: 0 <= i < |groups| && EvaluateGroup(t, groups[i], e)
  {
    GroupsOfRoot(groups);
  }

  /** One more group: an AND root also asks it, an OR root is also content with it. */
  lemma OneMoreGroup(t: Trigger, groups: seq<Json>, group: Json, e: Event)
    requires groups != []
    ensures Evaluate(t, RootOf(true, groups + [group]), e) <==>
      Evaluate(t, RootOf(true, groups), e) && Evaluate(t, RootOf(true, [group]), e)
    ensures Evaluate(t, RootOf(false, groups + [group]), e) <==>
      Evaluate(t, RootOf(false, groups), e) || Evaluate(t, RootOf(false, [group]), e)
    ensures Evaluate(t, RootOf(true, [group]), e) <==> Evaluate(t, RootOf(false, [group]), e)
  {
    OneMoreGroupOf(t, true, groups, group, e);
    OneMoreGroupOf(t, false, groups, group, e);
    RootIs(t, true, [group], e);
    RootIs(t, false, [group], e);
    assert [group][0] == group;
  }

  lemma OneMoreGroupOf(t: Trigger, all: bool, groups: seq<Json>, group: Json, e: Event)
    requires groups != []
    ensures Evaluate(t, RootOf(all, groups + [group]), e) <==>
      if all then Evaluate(t, RootOf(all, groups), e) && Evaluate(t, RootOf(all, [group]), e)
      else Evaluate(t, RootOf(all, groups), e) || Evaluate(t, RootOf(all, [group]), e)
  {
    var more := groups + [group];
    assert more[|groups|] == group && forall i :: 0 <= i < |groups| ==> more[i] == groups[i];
    assert [group][0] == group;
    RootIs(t, all, groups, e);
    RootIs(t, all, [group], e);
    RootIs(t, all, more, e);
  }

  /** One more rule in a group, likewise. */
  lemma OneMoreRule(t: Trigger, rules: seq<Json>, rule: Json, e: Event)
    requires rules != []
    ensures Evaluate(t, OneGroupOf(true, rules + [rule]), e) <==>
      Evaluate(t, OneGroupOf(true, rules), e) && Evaluate(t, OneGroupOf(true, [rule]), e)
    ensures Evaluate(t, OneGroupOf(false, rules + [rule]), e) <==>
      Evaluate(t, OneGroupOf(false, rules), e) || Evaluate(t, OneGroupOf(false, [rule]), e)
    ensures Evaluate(t, OneGroupOf(true, [rule]), e) <==> Evaluate(t, OneGroupOf(false, [rule]), e)
  {
    OneMoreRuleOf(t, true, rules, rule, e);
    OneMoreRuleOf(t, false, rules, rule, e);
    OneGroup(t, true, [rule], e);
    OneGroup(t, false, [rule], e);
    assert [rule][0] == rule;
  }

  /** A condition of one group. */
  function OneGroupOf(all: bool, rules: seq<Json>): Json {
    RootOf(true, [GroupOf(all, rules)])
  }

  lemma OneMoreRuleOf(t: Trigger, all: bool, rules: seq<Json>, rule: Json, e: Event)
    requires rules != []
    ensures Evaluate(t, OneGroupOf(all, rules + [rule]), e) <==>
      if all then Evaluate(t, OneGroupOf(all, rules), e) && Evaluate(t, OneGroupOf(all, [rule]), e)
      else Evaluate(t, OneGroupOf(all, rules), e) || Evaluate(t, OneGroupOf(all, [rule]), e)
  {
    var more := rules + [rule];
    assert more[|rules|] == rule && forall i :: 0 <= i < |rules| ==> more[i] == rules[i];
    assert [rule][0] == rule;
    OneGroup(t, all, rules, e);
    OneGroup(t, all, [rule], e);
    OneGroup(t, all, more, e);
  }

  lemma OneGroup(t: Trigger, all: bool, rules: seq<Json>, e: Event)
    requires rules != []
    ensures Evaluate(t, OneGroupOf(all, rules), e) <==>
      if all then forall i :: 0 <= i < |rules| ==> EvaluateRule(t, rules[i], e)
      else exists i :: 0 <= i < |rules| && EvaluateRule(t, rules[i], e)
  {
    var group := GroupOf(all, rules);
    GroupsOfRoot([group]);
    assert Items(Get(group, "rules")) == rules && Get(group, "match") == Match(all);
    assert [group][0] == group;
  }

  /** No groups, no rules in a group, or nothing that is a root: every event matches. */
  lemma NothingAskedMatches(t: Trigger, all: bool, c: Json, e: Event)
    ensures Evaluate(t, RootOf(all, []), e)
    ensures Evaluate(t, OneGroupOf(all, []), e)
    ensures !IsRoot(c) ==> Evaluate(t, c, e)
  {
    GroupsOfRoot([]);
    var group := GroupOf(all, []);
    GroupsOfRoot([group]);
    assert Items(Get(group, "rules")) == [];
    assert [group][0] == group;
  }

  // -------------------------------------------------------------------- fields

  /** Which triggers have a field, field by field. */
  lemma FieldsByName(t: Trigger)
    ensures "contactId" in FieldsOf(t) && "conversationId" in FieldsOf(t) && "channelId" in FieldsOf(t)
    ensures "tagId" in FieldsOf(t) <==> t.TagAdded? || t.TagRemoved?
    ensures "target" in FieldsOf(t) <==> t.TagAdded? || t.TagRemoved?
    ensures "body" in FieldsOf(t) <==> t.MessageReceived?
    ensures "type" in FieldsOf(t) <==> t.MessageReceived?
    ensures "hasAttachment" in FieldsOf(t) <==> t.MessageReceived?
    ensures "fromStatus" in FieldsOf(t) <==> t.ConversationStatusChanged?
    ensures "toStatus" in FieldsOf(t) <==> t.ConversationStatusChanged?
    ensures "fromAssigneeId" in FieldsOf(t) <==> t.ConversationAssigned?
    ensures "toAssigneeId" in FieldsOf(t) <==> t.ConversationAssigned?
  {
  }
}

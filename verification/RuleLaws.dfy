/**
 * Which conditions can be stored, said of whole conditions: rule by rule for a single
 * rule, and part by part for groups and roots.
 */
module RuleLaws {
  import opened Common
  import opened Conditions
  import opened ConditionLaws
  import opened AutomationRules

  /** The operator and its value go together. */
  predicate ValueFits(op: string, value: Json) {
    || op in {"is_set", "is_not_set"}
    || (op in {"equals", "not_equals", "contains", "not_contains"} && value != Undefined)
    || (op in {"in", "not_in"} && value.Arr?)
  }

  lemma RuleOkIff(t: Trigger, field: string, op: string, value: Json)
    ensures RuleOk(t, RuleOf(field, op, value)) <==> field in FieldsOf(t) && ValueFits(op, value)
  {
    var rule := RuleOf(field, op, value);
    assert Get(rule, "field") == Str(field) && Get(rule, "op") == Str(op) && Get(rule, "value") == value;
  }

  lemma GroupOkIff(t: Trigger, all: bool, rules: seq<Json>)
    ensures GroupOk(t, GroupOf(all, rules)) <==> rules != [] && forall i :: 0 <= i < |rules| ==> RuleOk(t, rules[i])
  {
    var group := GroupOf(all, rules);
    assert Get(group, "match") == Match(all) && Get(group, "rules") == Arr(rules);
  }

  lemma RootAcceptedIff(t: Trigger, all: bool, groups: seq<Json>)
    ensures ValidateConditions(t, RootOf(all, groups)).Ok? <==>
      forall i :: 0 <= i < |groups| ==> GroupOk(t, groups[i])
  {
    var root := RootOf(all, groups);
    assert Get(root, "match") == Match(all) && Get(root, "groups") == Arr(groups);
  }

  /** A single rule is accepted exactly with a field of the trigger and an operator with the value it needs. */
  lemma SingleIsAcceptedIff(t: Trigger, field: string, op: string, value: Json)
    ensures ValidateConditions(t, Single(field, op, value)).Ok? <==> field in FieldsOf(t) && ValueFits(op, value)
  {
    RuleOkIff(t, field, op, value);
    GroupOkIff(t, true, [RuleOf(field, op, value)]);
    RootAcceptedIff(t, true, [GroupOf(true, [RuleOf(field, op, value)])]);
  }

  /** Groups are accepted together exactly when each is; a root without groups is accepted. */
  lemma GroupsAreAcceptedOneByOne(t: Trigger, all: bool, groups: seq<Json>, group: Json)
    ensures ValidateConditions(t, RootOf(all, groups + [group])).Ok? <==>
      ValidateConditions(t, RootOf(all, groups)).Ok? && ValidateConditions(t, RootOf(all, [group])).Ok?
    ensures ValidateConditions(t, RootOf(all, [])).Ok?
  {
    var more := groups + [group];
    assert more[|groups|] == group && forall i :: 0 <= i < |groups| ==> more[i] == groups[i];
    assert [group][0] == group;
    RootAcceptedIff(t, all, more);
    RootAcceptedIff(t, all, groups);
    RootAcceptedIff(t, all, [group]);
    RootAcceptedIff(t, all, []);
  }

  /** And rules of a group likewise, but a group without rules is refused. */
  lemma RulesAreAcceptedOneByOne(t: Trigger, all: bool, rules: seq<Json>, rule: Json)
    ensures rules != [] ==> (
      ValidateConditions(t, OneGroupOf(all, rules + [rule])).Ok? <==>
        ValidateConditions(t, OneGroupOf(all, rules)).Ok? && ValidateConditions(t, OneGroupOf(all, [rule])).Ok?)
    ensures ValidateConditions(t, OneGroupOf(all, [])).Err?
  {
    var more := rules + [rule];
    assert more[|rules|] == rule && forall i :: 0 <= i < |rules| ==> more[i] == rules[i];
    assert [rule][0] == rule;
    OneGroupAcceptedIff(t, all, more);
    OneGroupAcceptedIff(t, all, rules);
    OneGroupAcceptedIff(t, all, [rule]);
    OneGroupAcceptedIff(t, all, []);
  }

  lemma OneGroupAcceptedIff(t: Trigger, all: bool, rules: seq<Json>)
    ensures ValidateConditions(t, OneGroupOf(all, rules)).Ok? <==>
      rules != [] && forall i :: 0 <= i < |rules| ==> RuleOk(t, rules[i])
  {
    GroupOkIff(t, all, rules);
    RootAcceptedIff(t, true, [GroupOf(all, rules)]);
    assert [GroupOf(all, rules)][0] == GroupOf(all, rules);
  }

  /** What is no object is refused; what is nothing, or says neither match nor groups, is accepted as no conditions. */
  lemma NothingIsAccepted(t: Trigger, raw: Json)
    ensures !raw.Obj? && !raw.Arr? && raw != Undefined && raw != Null ==> ValidateConditions(t, raw).Err?
    ensures raw == Undefined || raw == Null || raw == Obj(map[]) ==> ValidateConditions(t, raw) == Ok(Obj(map[]))
  {
  }
}

/**
 * Saving automation rules: the validator every create and update goes through, and
 * what therefore holds of every stored rule.
 */
module AutomationRules {
  import opened Common
  import opened Conditions

  type Id = nat

  const MAX_AUTOMATIONS_PER_ORG := 100
  const MAX_ACTIONS := 20

  datatype Why = NotAnObject | BadMatch | NotAnArray | Empty | UnknownField | UnknownOp | ValueRequired | ArrayRequired

  datatype Error =
    | ConditionsNotAnObject
    | ConditionsMatch
    | ConditionsGroups
    | InGroup(index: nat, why: Why)
    | InRule(index: nat, rule: nat, why: Why)
    | ActionsNotAnArray
    | NoActions
    | TooManyActions
    | InAction(index: nat)
    | LimitReached
    | NotFound

  datatype Action = Action(kind: string, params: Json, continueOnError: bool)

  /** The action types with a handler, what each accepts, and its default for going on after an error. */
  datatype Registry = Registry(types: set<string>, accepts: (string, Json) -> bool, goesOn: string -> bool)

  // ---------------------------------------------------------------- validator

  predicate IsObject(j: Json) {
    j.Obj? || j.Arr?
  }

  function ValidateRule(t: Trigger, rule: Json, i: nat, j: nat): Option<Error> {
    var op := Get(rule, "op");
    if !IsObject(rule) then Some(InRule(i, j, NotAnObject))
    else if !KnownField(t, Get(rule, "field")) then Some(InRule(i, j, UnknownField))
    else if !KnownOp(op) then Some(InRule(i, j, UnknownOp))
    else if !NeedsValue(op) then None
    else if Get(rule, "value") == Undefined then Some(InRule(i, j, ValueRequired))
    else if NeedsArray(op) && !Get(rule, "value").Arr? then Some(InRule(i, j, ArrayRequired))
    else None
  }

  /** The first rule from `j` on that is not in order. */
  ghost predicate IsFirstBadRule(t: Trigger, rules: seq<Json>, j: nat, bad: nat) {
    j <= bad < |rules| && !RuleOk(t, rules[bad]) && forall k :: j <= k < bad ==> RuleOk(t, rules[k])
  }

  /** The first rule from `j` on that is refused. */
  function ValidateRules(t: Trigger, rules: seq<Json>, i: nat, j: nat): (r: Option<Error>)
    ensures r.None? <==> forall k :: j <= k < |rules| ==> RuleOk(t, rules[k])
    ensures r.Some? ==> r.value.InRule? && r.value.index == i && IsFirstBadRule(t, rules, j, r.value.rule)
    decreases |rules| - j
  {
    if j >= |rules| then None
    else
      var e := ValidateRule(t, rules[j], i, j);
      if e.Some? then e else ValidateRules(t, rules, i, j + 1)
  }

  function ValidateGroup(t: Trigger, group: Json, i: nat): (r: Option<Error>)
    ensures r.None? <==> GroupOk(t, group)
    ensures r.Some? ==> (r.value.InGroup? || r.value.InRule?) && r.value.index == i
    ensures r.Some? && r.value.InRule? ==> IsFirstBadRule(t, Items(Get(group, "rules")), 0, r.value.rule)
  {
    var rules := Get(group, "rules");
    if !IsObject(group) then Some(InGroup(i, NotAnObject))
    else if !IsMatch(Get(group, "match")) then Some(InGroup(i, BadMatch))
    else if !rules.Arr? then Some(InGroup(i, NotAnArray))
    else if rules.items == [] then Some(InGroup(i, Empty))
    else ValidateRules(t, rules.items, i, 0)
  }

  ghost predicate IsFirstBadGroup(t: Trigger, groups: seq<Json>, i: nat, bad: nat) {
    i <= bad < |groups| && !GroupOk(t, groups[bad]) && forall k :: i <= k < bad ==> GroupOk(t, groups[k])
  }

  function ValidateGroups(t: Trigger, groups: seq<Json>, i: nat): (r: Option<Error>)
    ensures r.None? <==> forall k :: i <= k < |groups| ==> GroupOk(t, groups[k])
    ensures r.Some? ==> (r.value.InGroup? || r.value.InRule?) && IsFirstBadGroup(t, groups, i, r.value.index)
    decreases |groups| - i
  {
    if i >= |groups| then None
    else
      var e := ValidateGroup(t, groups[i], i);
      if e.Some? then e else ValidateGroups(t, groups, i + 1)
  }

  const NO_CONDITIONS := Obj(map[])

  predicate Has(j: Json, key: string) {
    j.Obj? && key in j.fields
  }

  /** Nothing given, or an object about neither match nor groups: no conditions. */
  predicate AsksNothing(raw: Json) {
    raw == Undefined || raw == Null || (IsObject(raw) && !Has(raw, "match") && !Has(raw, "groups"))
  }

  function ValidateConditions(t: Trigger, raw: Json): (r: Result<Json, Error>)
    ensures r.Ok? <==> AsksNothing(raw) || RootOk(t, raw)
    ensures r.Ok? ==> r.value == if AsksNothing(raw) then NO_CONDITIONS else raw
  {
    if raw == Undefined || raw == Null then Ok(NO_CONDITIONS)
    else if !IsObject(raw) then Err(ConditionsNotAnObject)
    else if !Has(raw, "match") && !Has(raw, "groups") then Ok(NO_CONDITIONS)
    else if !IsMatch(Get(raw, "match")) then Err(ConditionsMatch)
    else if !Get(raw, "groups").Arr? then Err(ConditionsGroups)
    else
      var e := ValidateGroups(t, Get(raw, "groups").items, 0);
      if e.Some? then Err(e.value) else Ok(raw)
  }

  function ValidateAction(g: Registry, raw: Json, i: nat): Result<Action, Error> {
    var kind, given, goesOn := Get(raw, "type"), Get(raw, "params"), Get(raw, "continueOnError");
    if !IsObject(raw) || !kind.Str? || kind.s !in g.types then Err(InAction(i))
    else
      var params := if IsObject(given) then given else Obj(map[]);
      if !g.accepts(kind.s, params) then Err(InAction(i))
      else Ok(Action(kind.s, params, if goesOn.Bool? then goesOn.b else g.goesOn(kind.s)))
  }

  /** A handler exists and takes the parameters. */
  predicate ActionOk(g: Registry, a: Action) {
    a.kind in g.types && g.accepts(a.kind, a.params) && IsObject(a.params)
  }

  /** Names a registered type whose handler takes the parameters given, or none at all. */
  predicate ActionAccepted(g: Registry, raw: Json) {
    && IsObject(raw) && Get(raw, "type").Str? && Get(raw, "type").s in g.types
    && g.accepts(Get(raw, "type").s, if IsObject(Get(raw, "params")) then Get(raw, "params") else Obj(map[]))
  }

  function ValidateEach(g: Registry, raw: seq<Json>, i: nat): (r: Result<seq<Action>, Error>)
    requires i <= |raw|
    ensures r.Ok? <==> forall k :: i <= k < |raw| ==> ActionAccepted(g, raw[k])
    ensures r.Ok? ==> |r.value| == |raw| - i && forall k :: 0 <= k < |r.value| ==>
      ActionOk(g, r.value[k]) && Ok(r.value[k]) == ValidateAction(g, raw[i + k], i + k)
    decreases |raw| - i
  {
    if i == |raw| then Ok([])
    else
      var first := ValidateAction(g, raw[i], i);
      if first.Err? then Err(first.error)
      else
        var rest := ValidateEach(g, raw, i + 1);
        if rest.Err? then rest else Ok([first.value] + rest.value)
  }

  function ValidateActions(g: Registry, raw: Json): (r: Result<seq<Action>, Error>)
    ensures r.Ok? <==>
      && raw.Arr? && 1 <= |raw.items| <= MAX_ACTIONS
      && forall k :: 0 <= k < |raw.items| ==> ActionAccepted(g, raw.items[k])
    ensures r.Ok? ==> 1 <= |r.value| <= MAX_ACTIONS && forall a :: a in r.value ==> ActionOk(g, a)
  {
    if !raw.Arr? then Err(ActionsNotAnArray)
    else if raw.items == [] then Err(NoActions)
    else if |raw.items| > MAX_ACTIONS then Err(TooManyActions)
    else ValidateEach(g, raw.items, 0)
  }

  // ---------------------------------------------------------------- the table

  datatype Rule = Rule(trigger: Trigger, conditions: Json, actions: seq<Action>, enabled: bool, deleted: bool)

  type Rules = map<Id, Rule>

  /** Absent parts of an update are Undefined or None. */
  datatype Step =
    | Create(id: Id, trigger: Trigger, conditions: Json, actions: Json, enabled: bool)
    | Update(rule: Id, newTrigger: Option<Trigger>, newConditions: Json, newActions: Json, newEnabled: Option<bool>)
    | Remove(gone: Id)

  function Live(t: Rules): set<Id> {
    set id | id in t && !t[id].deleted
  }

  /** What is kept of the conditions given: nothing at all becomes an empty object. */
  predicate KeepsConditions(raw: Json, kept: Json) {
    if raw == Undefined || raw == Null || ((raw.Obj? || raw.Arr?) && !Has(raw, "match") && !Has(raw, "groups"))
    then kept == Obj(map[]) else kept == raw
  }

  /** What is kept of one action: its type, its parameters if they are an object, and whether to go on. */
  predicate KeepsAction(g: Registry, raw: Json, a: Action) {
    && Get(raw, "type") == Str(a.kind)
    && (if Get(raw, "params").Obj? || Get(raw, "params").Arr? then a.params == Get(raw, "params")
        else a.params == Obj(map[]))
    && (if Get(raw, "continueOnError").Bool? then Get(raw, "continueOnError") == Bool(a.continueOnError)
        else a.continueOnError == g.goesOn(a.kind))
  }

  ghost predicate KeepsActions(g: Registry, raw: Json, actions: seq<Action>) {
    raw.Arr? && |actions| == |raw.items| && forall k :: 0 <= k < |actions| ==> KeepsAction(g, raw.items[k], actions[k])
  }

  lemma ValidKeeps(g: Registry, t: Trigger, conditions: Json, actions: Json)
    ensures var c := ValidateConditions(t, conditions); c.Ok? ==> KeepsConditions(conditions, c.value)
    ensures var a := ValidateActions(g, actions); a.Ok? ==> KeepsActions(g, actions, a.value)
  {
    if ValidateActions(g, actions).Ok? {
      var a := ValidateActions(g, actions).value;
      forall k | 0 <= k < |a| ensures KeepsAction(g, actions.items[k], a[k]) {
        assert Ok(a[k]) == ValidateAction(g, actions.items[0 + k], 0 + k);
      }
    }
  }

  function Created(g: Registry, t: Rules, trigger: Trigger, conditions: Json, actions: Json, enabled: bool)
    : Result<Rule, Error>
  {
    if |Live(t)| >= MAX_AUTOMATIONS_PER_ORG then Err(LimitReached)
    else
      var c := ValidateConditions(trigger, conditions);
      if c.Err? then Err(c.error)
      else
        var a := ValidateActions(g, actions);
        if a.Err? then Err(a.error) else Ok(Rule(trigger, c.value, a.value, enabled, false))
  }

  /** A new trigger re-checks the conditions there are; nothing at all counts as keeping them. */
  function Updated(g: Registry, r: Rule, trigger: Option<Trigger>, conditions: Json, actions: Json,
                   enabled: Option<bool>)
    : Result<Rule, Error>
  {
    var t := if trigger.Some? then trigger.value else r.trigger;
    var raw := if conditions == Undefined || conditions == Null then r.conditions else conditions;
    var c := if conditions == Undefined && trigger.None? then Ok(r.conditions) else ValidateConditions(t, raw);
    if c.Err? then Err(c.error)
    else
      var a := if actions == Undefined then Ok(r.actions) else ValidateActions(g, actions);
      if a.Err? then Err(a.error)
      else Ok(r.(trigger := t, conditions := c.value, actions := a.value,
                 enabled := if enabled.Some? then enabled.value else r.enabled))
  }

  /** Every part that is given is taken over, and every other part stays. */
  ghost predicate Changes(g: Registry, was: Rule, now: Rule, trigger: Option<Trigger>, conditions: Json, actions: Json,
                          enabled: Option<bool>) {
    && now.trigger == (if trigger.Some? then trigger.value else was.trigger)
    && now.enabled == (if enabled.Some? then enabled.value else was.enabled)
    && now.deleted == was.deleted
    && (if actions == Undefined then now.actions == was.actions else KeepsActions(g, actions, now.actions))
    && (if conditions == Undefined && trigger.None? then now.conditions == was.conditions
        else if conditions == Undefined || conditions == Null then KeepsConditions(was.conditions, now.conditions)
        else KeepsConditions(conditions, now.conditions))
  }

  lemma UpdatedChanges(g: Registry, id: Id, t: Rules, trigger: Option<Trigger>, conditions: Json, actions: Json,
                       enabled: Option<bool>)
    ensures id in t ==>
      var u := Updated(g, t[id], trigger, conditions, actions, enabled);
      u.Ok? ==> Changes(g, t[id], u.value, trigger, conditions, actions, enabled)
  {
    if id in t {
      var newTrigger := if trigger.Some? then trigger.value else t[id].trigger;
      ValidKeeps(g, newTrigger, conditions, actions);
      ValidKeeps(g, newTrigger, t[id].conditions, actions);
    }
  }

  /** Ids are never given out twice. */
  function Next(g: Registry, t: Rules, step: Step): Rules {
    match step
    case Create(id, trigger, conditions, actions, enabled) =>
      var r := Created(g, t, trigger, conditions, actions, enabled);
      if id !in t && r.Ok? then t[id := r.value] else t
    case Update(id, trigger, conditions, actions, enabled) =>
      if id in t && !t[id].deleted && Updated(g, t[id], trigger, conditions, actions, enabled).Ok?
      then t[id := Updated(g, t[id], trigger, conditions, actions, enabled).value] else t
    case Remove(id) =>
      if id in t && !t[id].deleted then t[id := t[id].(deleted := true, enabled := false)] else t
  }

  function Run(g: Registry, t: Rules, steps: seq<Step>): Rules
    decreases |steps|
  {
    if steps == [] then t else Run(g, Next(g, t, steps[0]), steps[1..])
  }

  // ------------------------------------------------------- what is always true

  /** The rule passes the validator as it is, for the trigger it has now. */
  ghost predicate Passes(g: Registry, r: Rule) {
    && ValidateConditions(r.trigger, r.conditions) == Ok(r.conditions)
    && 1 <= |r.actions| <= MAX_ACTIONS
    && forall a :: a in r.actions ==> ActionOk(g, a)
  }

  ghost predicate Inv(g: Registry, t: Rules) {
    && (forall id :: id in t ==> Passes(g, t[id]))
    && |Live(t)| <= MAX_AUTOMATIONS_PER_ORG
  }

  lemma CreatedPasses(g: Registry, t: Rules, trigger: Trigger, conditions: Json, actions: Json, enabled: bool)
    ensures var r := Created(g, t, trigger, conditions, actions, enabled);
      r.Ok? ==> Passes(g, r.value) && !r.value.deleted
  {
  }

  lemma UpdatedPasses(g: Registry, r: Rule, trigger: Option<Trigger>, conditions: Json, actions: Json,
                      enabled: Option<bool>)
    requires Passes(g, r)
    ensures var u := Updated(g, r, trigger, conditions, actions, enabled);
      u.Ok? ==> Passes(g, u.value) && u.value.deleted == r.deleted
  {
  }

  lemma {:induction false} FewerLive(a: set<Id>, b: set<Id>)
    requires a <= b
    ensures |a| <= |b|
  {
    if a != {} {
      var x :| x in a;
      FewerLive(a - {x}, b - {x});
    }
  }

  lemma WriteKeepsInv(g: Registry, t: Rules, id: Id, r: Rule)
    requires Inv(g, t) && Passes(g, r)
    requires if r.deleted || (id in t && !t[id].deleted) then true else |Live(t)| < MAX_AUTOMATIONS_PER_ORG
    ensures Inv(g, t[id := r])
  {
    if r.deleted || (id in t && !t[id].deleted) {
      FewerLive(Live(t[id := r]), Live(t));
    } else {
      assert Live(t[id := r]) == Live(t) + {id};
    }
  }

  lemma NextKeepsInv(g: Registry, t: Rules, step: Step)
    requires Inv(g, t)
    ensures Inv(g, Next(g, t, step))
  {
    match step
    case Create(id, trigger, conditions, actions, enabled) =>
      var r := Created(g, t, trigger, conditions, actions, enabled);
      CreatedPasses(g, t, trigger, conditions, actions, enabled);
      if id !in t && r.Ok? { WriteKeepsInv(g, t, id, r.value); }
    case Update(id, trigger, conditions, actions, enabled) =>
      if id in t && !t[id].deleted {
        var r := Updated(g, t[id], trigger, conditions, actions, enabled);
        UpdatedPasses(g, t[id], trigger, conditions, actions, enabled);
        if r.Ok? { WriteKeepsInv(g, t, id, r.value); }
      }
    case Remove(id) =>
      if id in t && !t[id].deleted { WriteKeepsInv(g, t, id, t[id].(deleted := true, enabled := false)); }
  }

  /** Every stored rule passes the validator for its current trigger, and no more than 100 are live, after any run. */
  lemma {:induction false} RunKeepsInv(g: Registry, t: Rules, steps: seq<Step>)
    requires Inv(g, t)
    ensures Inv(g, Run(g, t, steps))
    decreases |steps|
  {
    if steps != [] {
      NextKeepsInv(g, t, steps[0]);
      RunKeepsInv(g, Next(g, t, steps[0]), steps[1..]);
    }
  }

  /** So evaluating a stored rule never meets a field or an operator it does not know. */
  lemma StoredRulesAreKnown(g: Registry, steps: seq<Step>, id: Id, i: nat, j: nat)
    requires var t := Run(g, map[], steps); id in t
    requires var groups := Items(Get(Run(g, map[], steps)[id].conditions, "groups"));
      i < |groups| && j < |Items(Get(groups[i], "rules"))|
    ensures var r := Run(g, map[], steps)[id];
      var rule := Items(Get(Items(Get(r.conditions, "groups"))[i], "rules"))[j];
      KnownField(r.trigger, Get(rule, "field")) && KnownOp(Get(rule, "op"))
  {
    assert Live(map[]) == {};
    RunKeepsInv(g, map[], steps);
    var t := Run(g, map[], steps);
    assert Passes(g, t[id]);
    var c := t[id].conditions;
    assert RootOk(t[id].trigger, c);
    assert GroupOk(t[id].trigger, Get(c, "groups").items[i]);
    assert RuleOk(t[id].trigger, Get(Get(c, "groups").items[i], "rules").items[j]);
  }

  /** And swapping AND with OR and every operator with its twin gives exactly the other events. */
  lemma StoredRulesNegate(g: Registry, steps: seq<Step>, id: Id, e: Event)
    requires var t := Run(g, map[], steps); id in t && Items(Get(t[id].conditions, "groups")) != []
    ensures var r := Run(g, map[], steps)[id];
      Evaluate(r.trigger, Negate(r.conditions), e) <==> !Evaluate(r.trigger, r.conditions, e)
  {
    assert Live(map[]) == {};
    RunKeepsInv(g, map[], steps);
    var r := Run(g, map[], steps)[id];
    assert Passes(g, r) && RootOk(r.trigger, r.conditions);
    NegationIsComplementIff(r.trigger, r.conditions, e);
  }

  // ------------------------------------------------------------------ service

  class AutomationsService {
    const registry: Registry
    var rules: Rules

    constructor (registry: Registry)
      ensures rules == map[] && this.registry == registry
    {
      this.registry, rules := registry, map[];
    }

    method Create(id: Id, trigger: Trigger, conditions: Json, actions: Json, enabled: bool)
      returns (r: Result<Id, Error>)
      requires id !in rules
      modifies this
      ensures rules == Next(registry, old(rules), Step.Create(id, trigger, conditions, actions, enabled))
      ensures r == match Created(registry, old(rules), trigger, conditions, actions, enabled)
                   case Ok(_) => Ok(id) case Err(e) => Err(e)
      ensures r.Ok? <==>
        && |set x | x in old(rules) && !old(rules)[x].deleted| < 100
        && (AsksNothing(conditions) || RootOk(trigger, conditions))
        && actions.Arr? && 1 <= |actions.items| <= 20
        && forall k :: 0 <= k < |actions.items| ==> ActionAccepted(registry, actions.items[k])
      ensures if r.Err? then rules == old(rules)
              else
                && id in rules && rules == old(rules)[id := rules[id]]
                && rules[id].trigger == trigger && rules[id].enabled == enabled && !rules[id].deleted
                && KeepsConditions(conditions, rules[id].conditions)
                && KeepsActions(registry, actions, rules[id].actions)
    {
      ValidKeeps(registry, trigger, conditions, actions);
      assert Live(rules) == set x | x in rules && !rules[x].deleted;
      if |Live(rules)| >= MAX_AUTOMATIONS_PER_ORG { return Err(LimitReached); }
      var c := ValidateConditions(trigger, conditions);
      if c.Err? { return Err(c.error); }
      var a := ValidateActions(registry, actions);
      if a.Err? { return Err(a.error); }
      rules := rules[id := Rule(trigger, c.value, a.value, enabled, false)];
      return Ok(id);
    }

    /** Builds the change part by part; nothing is written when a part is refused. */
    method Update(id: Id, trigger: Option<Trigger>, conditions: Json, actions: Json, enabled: Option<bool>)
      returns (r: Result<Id, Error>)
      modifies this
      ensures rules == Next(registry, old(rules), Step.Update(id, trigger, conditions, actions, enabled))
      ensures r.Ok? <==>
        (id in old(rules) && !old(rules)[id].deleted
         && Updated(registry, old(rules)[id], trigger, conditions, actions, enabled).Ok?)
      ensures if r.Err? then rules == old(rules)
              else
                && id in rules && rules == old(rules)[id := rules[id]]
                && Changes(registry, old(rules)[id], rules[id], trigger, conditions, actions, enabled)
    {
      UpdatedChanges(registry, id, rules, trigger, conditions, actions, enabled);
      if id !in rules || rules[id].deleted { return Err(NotFound); }
      var data := rules[id];
      if trigger.Some? { data := data.(trigger := trigger.value); }
      if conditions != Undefined || trigger.Some? {
        var raw := if conditions == Undefined || conditions == Null then rules[id].conditions else conditions;
        var c := ValidateConditions(data.trigger, raw);
        if c.Err? { return Err(c.error); }
        data := data.(conditions := c.value);
      }
      if actions != Undefined {
        var a := ValidateActions(registry, actions);
        if a.Err? { return Err(a.error); }
        data := data.(actions := a.value);
      }
      if enabled.Some? { data := data.(enabled := enabled.value); }
      rules := rules[id := data];
      return Ok(id);
    }

    method Remove(id: Id) returns (found: bool)
      modifies this
      ensures rules == Next(registry, old(rules), Step.Remove(id))
      ensures found <==> id in old(rules) && !old(rules)[id].deleted
      ensures rules == if !found then old(rules)
                       else old(rules)[id := old(rules)[id].(deleted := true, enabled := false)]
    {
      if id !in rules || rules[id].deleted { return false; }
      rules := rules[id := rules[id].(deleted := true, enabled := false)];
      return true;
    }
  }
}

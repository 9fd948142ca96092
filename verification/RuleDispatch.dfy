/**
  Which actions a feed puts on the schedule, said without the functions that compute it: by the
  events that have happened, the conditions of the listed rules, and positions in the lists.
*/
module RuleDispatch {
  import opened Wrappers
  import opened Contracts
  import opened StableSort
  import opened BindingEngine
  import opened Scheduler
  import opened Replay

  // --------------------------------------------------------------- following a path

  /** One segment leads from a value to a field of it, and from anything else to nothing. */
  predicate LeadsTo(value: Value, segment: string, next: Value) {
    if value.Node? && segment in value.fields then next == value.fields[segment] else next == Undefined
  }

  /** The segments lead through these values, one after the other. */
  predicate Chain(values: seq<Value>, path: seq<string>) {
    |values| == |path| + 1 && forall i | 0 <= i < |path| :: LeadsTo(values[i], path[i], values[i + 1])
  }

  /** The value of a named field of an event. */
  predicate FieldIs(event: VisualEvent, name: string, value: Value) {
    && (name == "eventId" ==> value == Text(event.eventId))
    && (name == "ts" ==> value == Num(event.ts))
    && (name == "type" ==> value == Text(event.kind))
    && (name == "offsetMs" ==> value == match event.offsetMs case Some(ms) => Num(ms) case None => Undefined)
    && (name !in {"eventId", "ts", "type", "offsetMs"} ==>
          if name in event.data then value == event.data[name] else value == Undefined)
  }

  /** The path leads from the event's named fields to the value. */
  ghost predicate Found(event: VisualEvent, path: seq<string>, value: Value) {
    if path == [] then value == Undefined
    else exists values ::
        Chain(values, path[1..]) && FieldIs(event, path[0], values[0]) && values[|values| - 1] == value
  }

  lemma {:induction false} ChainEnds(value: Value, path: seq<string>) returns (values: seq<Value>)
    ensures Chain(values, path) && values[0] == value && values[|values| - 1] == GetValueAtPath(value, path)
    decreases |path|
  {
    if path == [] {
      values := [value];
    } else {
      var next := if value.Node? && path[0] in value.fields then value.fields[path[0]] else Undefined;
      var rest := ChainEnds(next, path[1..]);
      values := [value] + rest;
      if !value.Node? {
        NothingBelow(path[1..]);
      }
      forall i | 0 <= i < |path| ensures LeadsTo(values[i], path[i], values[i + 1]) {
        assert i > 0 ==> LeadsTo(rest[i - 1], path[1..][i - 1], rest[i]);
      }
    }
  }

  lemma {:induction false} ChainDetermined(values: seq<Value>, others: seq<Value>, path: seq<string>, k: nat)
    requires Chain(values, path) && Chain(others, path) && values[0] == others[0] && k <= |path|
    ensures values[k] == others[k]
  {
    if k > 0 {
      ChainDetermined(values, others, path, k - 1);
      assert LeadsTo(values[k - 1], path[k - 1], values[k]) && LeadsTo(others[k - 1], path[k - 1], others[k]);
    }
  }

  lemma FieldIsOne(event: VisualEvent, name: string, value: Value)
    ensures FieldIs(event, name, value) <==> value == EventField(event, name)
  {
  }

  /** Following a path finds the one value it leads to. */
  lemma PathIsFollowed(event: VisualEvent, path: seq<string>, value: Value)
    ensures Found(event, path, value) <==> value == ValueOfEvent(event, path)
  {
    if path != [] {
      var root := EventField(event, path[0]);
      FieldIsOne(event, path[0], root);
      var chain := ChainEnds(root, path[1..]);
      if Found(event, path, value) {
        var values :| Chain(values, path[1..]) && FieldIs(event, path[0], values[0]) && values[|values| - 1] == value;
        FieldIsOne(event, path[0], values[0]);
        ChainDetermined(values, chain, path[1..], |path| - 1);
      }
    }
  }

  // ------------------------------------------------------------------ when a rule fires

  /** `Object.is`: one and the same object, or equal values that are not objects. */
  predicate Is(a: Value, b: Value) {
    if a.Node? || b.Node? then a.Node? && b.Node? && a.ref == b.ref else a == b
  }

  /** The value is the expected one, or one of those listed. */
  predicate Meets(value: Value, expected: Expected) {
    || (expected.Exactly? && Is(value, expected.value))
    || (expected.OneOf? && exists k | 0 <= k < |expected.values| :: Is(value, expected.values[k]))
  }

  ghost predicate Holds(event: VisualEvent, condition: Condition) {
    exists value :: Found(event, condition.path, value) && Meets(value, condition.expected)
  }

  /** Every condition of the rule holds of the event. */
  ghost predicate Fires(event: VisualEvent, rule: BindingRule) {
    forall k | 0 <= k < |rule.conditions| :: Holds(event, rule.conditions[k])
  }

  lemma ConditionHolds(event: VisualEvent, condition: Condition)
    ensures Holds(event, condition) <==> MatchesExpectedValue(ValueOfEvent(event, condition.path), condition.expected)
  {
    var value := ValueOfEvent(event, condition.path);
    PathIsFollowed(event, condition.path, value);
    forall other | Found(event, condition.path, other) ensures other == value {
      PathIsFollowed(event, condition.path, other);
    }
    hide Found, ValueOfEvent;
  }

  /** A rule matches an event exactly when all its conditions hold of it. */
  lemma FiresIffMatches(event: VisualEvent, rule: BindingRule)
    ensures Fires(event, rule) <==> DoesRuleMatchEvent(rule, event)
  {
    forall k | 0 <= k < |rule.conditions|
      ensures Holds(event, rule.conditions[k]) <==>
              MatchesExpectedValue(ValueOfEvent(event, rule.conditions[k].path), rule.conditions[k].expected)
    {
      ConditionHolds(event, rule.conditions[k]);
    }
    hide Holds, MatchesExpectedValue, ValueOfEvent;
  }

  // --------------------------------------------------------------- positions in lists

  /** The places, in ascending order, are all places of the list at which `p` holds. */
  ghost predicate AllPlaces<T>(places: seq<nat>, list: seq<T>, p: T -> bool) {
    && (forall i, j | 0 <= i < j < |places| :: places[i] < places[j])
    && (forall k: nat :: k in places <==> k < |list| && p(list[k]))
  }

  lemma {:induction false} KeptPlaces<T>(list: seq<T>, p: T -> bool) returns (places: seq<nat>)
    ensures AllPlaces(places, list, p)
    ensures |places| == |Keep(list, p)|
    ensures forall i | 0 <= i < |places| :: places[i] < |list| && Keep(list, p)[i] == list[places[i]]
  {
    hide AllPlaces, Keep;
    if list == [] {
      places := [];
      NoPlaces(p);
      KeepNone(list, p);
    } else {
      var n := |list| - 1;
      var front := KeptPlaces(list[..n], p);
      assert list[..n] + [list[n]] == list;
      KeepSnoc(list[..n], list[n], p);
      places := if p(list[n]) then front + [n] else front;
      PlacesGrow(front, places, list, p);
    }
  }

  lemma PlacesGrow<T>(front: seq<nat>, places: seq<nat>, list: seq<T>, p: T -> bool)
    requires list != [] && AllPlaces(front, list[..|list| - 1], p)
    requires places == if p(list[|list| - 1]) then front + [|list| - 1] else front
    ensures AllPlaces(places, list, p)
  {
    var n := |list| - 1;
    forall k: nat ensures k in places <==> k < |list| && p(list[k]) {
      assert k in front <==> k < n && p(list[..n][k]);
      assert k in places <==> k in front || (k == n && p(list[n]));
    }
    forall i, j | 0 <= i < j < |places| ensures places[i] < places[j] {
      if j == |front| {
        assert front[i] in front;
      }
    }
  }

  /** Where a scheduled action comes from: the event, the rule and the action, by position. */
  datatype Origin = Origin(event: nat, rule: nat, action: nat)

  predicate Before(a: Origin, b: Origin) {
    || a.event < b.event
    || (a.event == b.event && (a.rule < b.rule || (a.rule == b.rule && a.action < b.action)))
  }

  /** The event has happened and the rule fires for it. */
  ghost predicate Triggers(o: Origin, events: seq<VisualEvent>, rules: seq<BindingRule>, timeMs: real) {
    && o.event < |events| && events[o.event].ts <= timeMs
    && o.rule < |rules| && Fires(events[o.event], rules[o.rule])
    && o.action < |rules[o.rule].actions|
  }

  /** The scheduled action of an origin. */
  function JobOf(o: Origin, events: seq<VisualEvent>, rules: seq<BindingRule>): ScheduledAction
    requires o.event < |events| && o.rule < |rules| && o.action < |rules[o.rule].actions|
  {
    var event, rule := events[o.event], rules[o.rule];
    var delay := rule.actions[o.action].delayMs;
    ScheduledAction(rule.actions[o.action].action, o.action as real, event, rule.id,
                    event.ts + if delay.Some? then delay.value else 0.0)
  }

  ghost predicate Exists(o: Origin, events: seq<VisualEvent>, rules: seq<BindingRule>) {
    o.event < |events| && o.rule < |rules| && o.action < |rules[o.rule].actions|
  }

  /** The origins, in order, are exactly those of this kind, and the jobs are theirs. */
  ghost predicate Accounts(origins: seq<Origin>, jobs: seq<ScheduledAction>, events: seq<VisualEvent>,
                           rules: seq<BindingRule>, kind: Origin -> bool) {
    && (forall i, j | 0 <= i < j < |origins| :: Before(origins[i], origins[j]))
    && (forall o: Origin :: o in origins <==> kind(o))
    && |jobs| == |origins|
    && (forall i | 0 <= i < |origins| ::
          Exists(origins[i], events, rules) && jobs[i] == JobOf(origins[i], events, rules))
  }

  lemma AccountsJoin(events: seq<VisualEvent>, rules: seq<BindingRule>, a: seq<Origin>, jobs: seq<ScheduledAction>,
                     p: Origin -> bool, b: seq<Origin>, more: seq<ScheduledAction>, q: Origin -> bool,
                         both: Origin -> bool)
    requires Accounts(a, jobs, events, rules, p) && Accounts(b, more, events, rules, q)
    requires forall o, o' | p(o) && q(o') :: Before(o, o')
    requires forall o :: both(o) <==> p(o) || q(o)
    ensures Accounts(a + b, jobs + more, events, rules, both)
  {
    AccountsJoinOrder(events, rules, a, jobs, p, b, more, q);
    AccountsJoinMembers(events, rules, a, jobs, p, b, more, q, both);
    hide Before, JobOf, Exists;
  }

  lemma AccountsJoinOrder(events: seq<VisualEvent>, rules: seq<BindingRule>, a: seq<Origin>, jobs: seq<ScheduledAction>,
                          p: Origin -> bool, b: seq<Origin>, more: seq<ScheduledAction>, q: Origin -> bool)
    requires Accounts(a, jobs, events, rules, p) && Accounts(b, more, events, rules, q)
    requires forall o, o' | p(o) && q(o') :: Before(o, o')
    ensures forall i, j | 0 <= i < j < |a + b| :: Before((a + b)[i], (a + b)[j])
  {
    hide Before, JobOf, Exists;
    var joined := a + b;
    forall i, j | 0 <= i < j < |joined| ensures Before(joined[i], joined[j]) {
      if i < |a| <= j {
        assert a[i] in a && b[j - |a|] in b;
      }
    }
  }

  lemma AccountsJoinMembers(events: seq<VisualEvent>, rules: seq<BindingRule>, a: seq<Origin>,
                            jobs: seq<ScheduledAction>,
                            p: Origin -> bool, b: seq<Origin>, more: seq<ScheduledAction>, q: Origin -> bool,
                            both: Origin -> bool)
    requires Accounts(a, jobs, events, rules, p) && Accounts(b, more, events, rules, q)
    requires forall o :: both(o) <==> p(o) || q(o)
    ensures forall o: Origin :: o in a + b <==> both(o)
  {
    hide Before, JobOf, Exists;
    forall o: Origin ensures o in a + b <==> both(o) {
      assert o in a + b <==> o in a || o in b;
    }
  }

  lemma OneRuleAccounts(events: seq<VisualEvent>, rules: seq<BindingRule>, e: nat, r: nat)
    returns (origins: seq<Origin>)
    requires e < |events| && r < |rules|
    ensures Accounts(origins, ActionsOfRule(events[e], rules[r]), events, rules,
                     (o: Origin) => o.event == e && o.rule == r && o.action < |rules[r].actions|)
  {
    origins := seq(|rules[r].actions|, c requires 0 <= c < |rules[r].actions| => Origin(e, r, c));
    forall o: Origin ensures o in origins <==> o.event == e && o.rule == r && o.action < |rules[r].actions| {
      if o.event == e && o.rule == r && o.action < |rules[r].actions| {
        assert origins[o.action] == o;
      }
    }
  }

  lemma MatchingSnoc(event: VisualEvent, rules: seq<BindingRule>, last: BindingRule)
    ensures GetMatchingBindingRules(event, rules + [last]) ==
            GetMatchingBindingRules(event, rules) + if Fires(event, last) then [last] else []
  {
    FiresIffMatches(event, last);
    hide Fires, DoesRuleMatchEvent;
    KeepSnoc(rules, last, rule => DoesRuleMatchEvent(rule, event));
  }

  lemma ActionsSnoc(event: VisualEvent, matching: seq<BindingRule>, last: BindingRule)
    ensures ActionsOfRules(event, matching + [last]) == ActionsOfRules(event, matching) + ActionsOfRule(event, last)
  {
    assert (matching + [last])[..|matching|] == matching;
  }

  /** The actions one event schedules: those of the rules that fire, rule by rule. */
  lemma {:induction false} EventAccounts(events: seq<VisualEvent>, rules: seq<BindingRule>, e: nat, m: nat)
    returns (origins: seq<Origin>)
    requires e < |events| && m <= |rules|
    ensures Accounts(origins, ActionsOfRules(events[e], GetMatchingBindingRules(events[e], rules[..m])), events, rules,
                     (o: Origin) => o.event == e && o.rule < m && Fires(events[e], rules[o.rule])
                                    && o.action < |rules[o.rule].actions|)
    decreases m
  {
    hide Fires, ActionsOfRule, GetMatchingBindingRules;
    if m == 0 {
      origins := [];
      NothingMatches(events[e]);
      assert rules[..0] == [];
    } else {
      var front := EventAccounts(events, rules, e, m - 1);
      assert rules[..m] == rules[..m - 1] + [rules[m - 1]];
      MatchingSnoc(events[e], rules[..m - 1], rules[m - 1]);
      var matching := GetMatchingBindingRules(events[e], rules[..m - 1]);
      if Fires(events[e], rules[m - 1]) {
        var more := OneRuleAccounts(events, rules, e, m - 1);
        ActionsSnoc(events[e], matching, rules[m - 1]);
        hide ActionsOfRules;
        AccountsJoin(events, rules, front, ActionsOfRules(events[e], matching),
          (o: Origin) => o.event == e && o.rule < m - 1 && Fires(events[e], rules[o.rule])
              && o.action < |rules[o.rule].actions|,
          more, ActionsOfRule(events[e], rules[m - 1]),
          (o: Origin) => o.event == e && o.rule == m - 1 && o.action < |rules[m - 1].actions|,
          (o: Origin) => o.event == e && o.rule < m && Fires(events[e], rules[o.rule])
              && o.action < |rules[o.rule].actions|);
        origins := front + more;
      } else {
        assert matching + [] == matching;
        origins := front;
        AccountsAlike(events, rules, origins, ActionsOfRules(events[e], matching),
          (o: Origin) => o.event == e && o.rule < m - 1 && Fires(events[e], rules[o.rule])
              && o.action < |rules[o.rule].actions|,
          (o: Origin) => o.event == e && o.rule < m && Fires(events[e], rules[o.rule])
              && o.action < |rules[o.rule].actions|);
      }
    }
  }

  lemma NothingMatches(event: VisualEvent)
    ensures GetMatchingBindingRules(event, []) == [] && ActionsOfRules(event, []) == []
  {
  }

  lemma AccountsAlike(events: seq<VisualEvent>, rules: seq<BindingRule>, origins: seq<Origin>,
                      jobs: seq<ScheduledAction>,
                      p: Origin -> bool, q: Origin -> bool)
    requires Accounts(origins, jobs, events, rules, p) && forall o :: p(o) <==> q(o)
    ensures Accounts(origins, jobs, events, rules, q)
  {
  }

  /** The schedule of a feed: exactly the actions of rules that fire for events that have
      happened, by event, then rule, then action. */
  lemma {:induction false} ScheduleAccounts(events: seq<VisualEvent>, rules: seq<BindingRule>, timeMs: real, n: nat)
    returns (origins: seq<Origin>)
    requires n <= |events|
    ensures Accounts(origins, Schedule(events[..n], rules, timeMs), events, rules,
                     (o: Origin) => o.event < n && Triggers(o, events, rules, timeMs))
    decreases n
  {
    hide Fires, ActionsOfRules, GetMatchingBindingRules;
    if n == 0 {
      origins := [];
      assert events[..0] == [];
    } else {
      var front := ScheduleAccounts(events, rules, timeMs, n - 1);
      assert events[..n][..n - 1] == events[..n - 1];
      var before := (o: Origin) => o.event < n - 1 && Triggers(o, events, rules, timeMs);
      var upTo := (o: Origin) => o.event < n && Triggers(o, events, rules, timeMs);
      if events[n - 1].ts > timeMs {
        origins := front;
        assert Schedule(events[..n - 1], rules, timeMs) + [] == Schedule(events[..n - 1], rules, timeMs);
        AccountsAlike(events, rules, front, Schedule(events[..n - 1], rules, timeMs), before, upTo);
      } else {
        var more := EventAccounts(events, rules, n - 1, |rules|);
        assert rules[..|rules|] == rules;
        var here := (o: Origin) => o.event == n - 1 && o.rule < |rules| && Fires(events[n - 1], rules[o.rule])
                                   && o.action < |rules[o.rule].actions|;
        hide Accounts;
        AccountsJoin(events, rules, front, Schedule(events[..n - 1], rules, timeMs), before,
          more, ActionsOfRules(events[n - 1], GetMatchingBindingRules(events[n - 1], rules)), here, upTo);
        origins := front + more;
      }
    }
  }

  /** A scheduled action is there exactly when an event has happened, all conditions of a
      listed rule hold of it, and it is an action of that rule, at the event's time plus its
      delay. */
  lemma ScheduledIff(events: seq<VisualEvent>, rules: seq<BindingRule>, timeMs: real, x: ScheduledAction)
    ensures x in Schedule(events, rules, timeMs) <==>
            exists o: Origin :: Triggers(o, events, rules, timeMs) && x == JobOf(o, events, rules)
  {
    var jobs := Schedule(events, rules, timeMs);
    var origins := ScheduleAccounts(events, rules, timeMs, |events|);
    assert events[..|events|] == events;
    hide Fires, Schedule, JobOf;
    if x in jobs {
      var i :| 0 <= i < |jobs| && jobs[i] == x;
      assert origins[i] in origins;
    }
    if o: Origin :| Triggers(o, events, rules, timeMs) && x == JobOf(o, events, rules) {
      assert o in origins;
      var i :| 0 <= i < |origins| && origins[i] == o;
      assert jobs[i] == x;
    }
  }

  /** The schedule lists all such actions, one for each event, rule and action, in this order. */
  lemma ScheduleInOrder(events: seq<VisualEvent>, rules: seq<BindingRule>, timeMs: real) returns (origins: seq<Origin>)
    ensures Accounts(origins, Schedule(events, rules, timeMs), events, rules,
                     (o: Origin) => Triggers(o, events, rules, timeMs))
  {
    origins := ScheduleAccounts(events, rules, timeMs, |events|);
    assert events[..|events|] == events;
    hide Fires, Schedule, Accounts;
    AccountsAlike(events, rules, origins, Schedule(events, rules, timeMs),
      (o: Origin) => o.event < |events| && Triggers(o, events, rules, timeMs),
      (o: Origin) => Triggers(o, events, rules, timeMs));
  }

  // ------------------------------------------------------------------- dispatched events

  function ActionsAt(rules: seq<BindingRule>, places: seq<nat>): nat
    requires forall i | 0 <= i < |places| :: places[i] < |rules|
  {
    if places == [] then 0
    else ActionsAt(rules, places[..|places| - 1]) + |rules[places[|places| - 1]].actions|
  }

  /** The record names the event, the ids of the rules that fire for it, in list order, and
      the number of their actions. */
  ghost predicate Records(record: DispatchedEvent, event: VisualEvent, rules: seq<BindingRule>) {
    && record.event == event
    && exists places: seq<nat> ::
         && AllPlaces(places, rules, (rule: BindingRule) => Fires(event, rule))
         && (forall i | 0 <= i < |places| :: places[i] < |rules|)
         && |record.matchedRuleIds| == |places|
         && (forall i | 0 <= i < |places| :: record.matchedRuleIds[i] == rules[places[i]].id)
         && record.actionCount == ActionsAt(rules, places)
  }

  lemma {:induction false} CountAt(rules: seq<BindingRule>, matching: seq<BindingRule>, places: seq<nat>)
    requires |places| == |matching| && forall i | 0 <= i < |places| ::
             places[i] < |rules| && matching[i] == rules[places[i]]
    ensures ActionsAt(rules, places) == ActionCount(matching)
  {
    if places != [] {
      CountAt(rules, matching[..|matching| - 1], places[..|places| - 1]);
    }
  }

  lemma RecordIsTrue(event: VisualEvent, rules: seq<BindingRule>)
    ensures var matching := GetMatchingBindingRules(event, rules);
            Records(DispatchedEvent(event, RuleIds(matching), ActionCount(matching)), event, rules)
  {
    hide Fires, DoesRuleMatchEvent, AllPlaces, ActionCount, ActionsAt, Keep;
    var matching := GetMatchingBindingRules(event, rules);
    var places := KeptPlaces(rules, rule => DoesRuleMatchEvent(rule, event));
    CountAt(rules, matching, places);
    forall rule: BindingRule ensures DoesRuleMatchEvent(rule, event) <==> Fires(event, rule) {
      FiresIffMatches(event, rule);
    }
    PlacesAlike(places, rules, rule => DoesRuleMatchEvent(rule, event), (rule: BindingRule) => Fires(event, rule));
  }

  lemma PlacesAlike<T>(places: seq<nat>, list: seq<T>, p: T -> bool, q: T -> bool)
    requires AllPlaces(places, list, p) && forall x :: p(x) <==> q(x)
    ensures AllPlaces(places, list, q)
  {
  }

  /** The events dispatched are exactly those that have happened, in order, each recorded
      truly. */
  lemma {:induction false} DispatchedInOrder(events: seq<VisualEvent>, rules: seq<BindingRule>, timeMs: real)
    returns (places: seq<nat>)
    ensures AllPlaces(places, events, (event: VisualEvent) => event.ts <= timeMs)
    ensures var records := Dispatched(events, rules, timeMs);
            |records| == |places|
            && forall i | 0 <= i < |places| :: places[i] < |events| && Records(records[i], events[places[i]], rules)
  {
    hide Records, AllPlaces, Dispatched, GetMatchingBindingRules, ActionCount, RuleIds;
    if events == [] {
      NothingDispatched(rules, timeMs);
      places := [];
      NoPlaces((event: VisualEvent) => event.ts <= timeMs);
    } else {
      var n := |events| - 1;
      var front := DispatchedInOrder(events[..n], rules, timeMs);
      RecordIsTrue(events[n], rules);
      DispatchedSnoc(events[..n], events[n], rules, timeMs);
      assert events == events[..n] + [events[n]];
      places := if events[n].ts <= timeMs then front + [n] else front;
      PlacesGrow(front, places, events, (event: VisualEvent) => event.ts <= timeMs);
    }
  }

  lemma NothingDispatched(rules: seq<BindingRule>, timeMs: real)
    ensures Dispatched([], rules, timeMs) == []
  {
  }

  lemma DispatchedSnoc(events: seq<VisualEvent>, event: VisualEvent, rules: seq<BindingRule>, timeMs: real)
    ensures var matching := GetMatchingBindingRules(event, rules);
            Dispatched(events + [event], rules, timeMs) == Dispatched(events, rules, timeMs)
              + if event.ts <= timeMs then [DispatchedEvent(event, RuleIds(matching), ActionCount(matching))] else []
  {
    hide GetMatchingBindingRules, ActionCount, RuleIds;
    assert (events + [event])[..|events|] == events;
  }

  lemma NoPlaces<T>(p: T -> bool)
    ensures AllPlaces([], [], p)
  {
  }
}

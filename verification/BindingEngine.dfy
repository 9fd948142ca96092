/** Which rules an event triggers (`bindingEngine.ts`). */
module BindingEngine {
  import opened Wrappers
  import opened Contracts
  import opened StableSort

  /** A property of an event, or `Undefined`. */
  function EventField(event: VisualEvent, segment: string): Value {
    if segment == "eventId" then Text(event.eventId)
    else if segment == "ts" then Num(event.ts)
    else if segment == "offsetMs" then
      if event.offsetMs.Some? then Num(event.offsetMs.value) else Undefined
    else if segment == "type" then Text(event.kind)
    else if segment in event.data then event.data[segment]
    else Undefined
  }

  /** Walks down a value; anything that is not an object or array ends the walk. */
  function GetValueAtPath(value: Value, path: seq<string>): Value
    decreases |path|
  {
    if path == [] then value
    else
      match value
      case Node(_, fields) =>
        GetValueAtPath(if path[0] in fields then fields[path[0]] else Undefined, path[1..])
      case _ => Undefined
  }

  function ValueOfEvent(event: VisualEvent, path: seq<string>): Value {
    if path == [] then Undefined else GetValueAtPath(EventField(event, path[0]), path[1..])
  }

  predicate MatchesExpectedValue(actual: Value, expected: Expected) {
    match expected
    case Exactly(value) => SameValue(actual, value)
    case OneOf(values) => exists i | 0 <= i < |values| :: SameValue(actual, values[i])
  }

  predicate DoesRuleMatchEvent(rule: BindingRule, event: VisualEvent) {
    forall i | 0 <= i < |rule.conditions| ::
      MatchesExpectedValue(ValueOfEvent(event, rule.conditions[i].path), rule.conditions[i].expected)
  }

  function GetMatchingBindingRules(event: VisualEvent, rules: seq<BindingRule>): seq<BindingRule> {
    Keep(rules, rule => DoesRuleMatchEvent(rule, event))
  }

  /** A path is followed segment by segment: following its start and then the rest from
      there is following it whole, also where the walk has already ended. */
  lemma {:induction false} PathsCompose(value: Value, path: seq<string>, more: seq<string>)
    ensures GetValueAtPath(value, path + more) == GetValueAtPath(GetValueAtPath(value, path), more)
    decreases |path|
  {
    if path == [] {
      assert path + more == more;
    } else {
      assert (path + more)[1..] == path[1..] + more;
      if value.Node? {
        PathsCompose(if path[0] in value.fields then value.fields[path[0]] else Undefined, path[1..], more);
      } else {
        NothingBelow(path[1..]);
        NothingBelow(more);
      }
    }
  }

  lemma NothingBelow(path: seq<string>)
    ensures GetValueAtPath(Undefined, path) == Undefined
  {
  }
}

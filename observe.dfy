/** `observe(events, target)`: a proxy over the viewer's shared state that only lets existing
    properties be assigned and fires `<property>:changed` with the new and the previous value
    when an assignment changes one. */
module Observe {
  import opened Wrappers

  /** The property an assignment names: a string key or a symbol. */
  datatype Key = Name(name: string) | Symbol

  /** One `<property>:changed` event: the property, the new value and the previous one. */
  datatype Change<V> = Change(property: string, value: V, prev: V)

  /** What an assignment returns and leaves behind: whether the proxy accepted it, the target's
      properties afterwards, and the event it fired, if any. */
  datatype Outcome<V> = Outcome(accepted: bool, values: map<string, V>, fired: Option<Change<V>>)

  /** The proxy's `set` trap. Values are compared with `!==`; `V`'s equality stands for it. */
  function Assign<V(==)>(values: map<string, V>, members: set<string>, key: Key, value: V): Outcome<V>
    requires values.Keys == members
  {
    match key
    case Symbol => Outcome(false, values, None)
    case Name(p) =>
      if p !in members then Outcome(false, values, None)
      else if values[p] != value then Outcome(true, values[p := value], Some(Change(p, value, values[p])))
      else Outcome(true, values, None)
  }

  /** A symbol or a property the target did not have when it was wrapped is refused, and nothing
      changes or fires. */
  lemma RefusesUnknown<V>(values: map<string, V>, members: set<string>, key: Key, value: V)
    requires values.Keys == members
    requires key.Symbol? || key.name !in members
    ensures Assign(values, members, key, value) == Outcome(false, values, None)
  {
  }

  /** Assigning a property its current value is accepted and fires nothing. */
  lemma SameValueIsSilent<V>(values: map<string, V>, members: set<string>, p: string)
    requires values.Keys == members && p in members
    ensures Assign(values, members, Name(p), values[p]) == Outcome(true, values, None)
  {
  }

  /** Assigning a different value updates that property alone and fires exactly one event
      carrying the new and the previous value. */
  lemma ChangeFiresOnce<V>(values: map<string, V>, members: set<string>, p: string, value: V)
    requires values.Keys == members && p in members && values[p] != value
    ensures var o := Assign(values, members, Name(p), value);
      && o.accepted && o.fired == Some(Change(p, value, values[p]))
      && o.values.Keys == members && o.values[p] == value
      && (forall q :: q in members && q != p ==> o.values[q] == values[q])
  {
  }

  /** The wrapped target never gains or loses a property. */
  lemma KeepsMembers<V>(values: map<string, V>, members: set<string>, key: Key, value: V)
    requires values.Keys == members
    ensures Assign(values, members, key, value).values.Keys == members
  {
  }

  /** Assigning the same value twice fires at most once: the second assignment is silent. */
  lemma AssignIdempotent<V>(values: map<string, V>, members: set<string>, key: Key, value: V)
    requires values.Keys == members
    ensures var once := Assign(values, members, key, value);
      var twice := Assign(once.values, members, key, value);
      twice.values == once.values && twice.fired.None?
  {
  }

  /** Changing a property and then assigning back its previous value restores the target, firing
      one event each way. */
  lemma ChangeAndRestore<V>(values: map<string, V>, members: set<string>, p: string, value: V)
    requires values.Keys == members && p in members && values[p] != value
    ensures var there := Assign(values, members, Name(p), value);
      var back := Assign(there.values, members, Name(p), values[p]);
      && back.values == values
      && there.fired == Some(Change(p, value, values[p]))
      && back.fired == Some(Change(p, values[p], value))
  {
    var there := Assign(values, members, Name(p), value);
    assert there.values[p := values[p]] == values;
  }

  /** The proxy: the wrapped target's properties, the set of names it had when wrapped, and the
      events it has fired. */
  class Observed<V(==)> {
    var values: map<string, V>
    const members: set<string>
    var events: seq<Change<V>>

    ghost predicate Valid()
      reads this
    {
      values.Keys == members
    }

    constructor (target: map<string, V>)
      ensures Valid() && values == target && members == target.Keys && events == []
    {
      values := target;
      members := target.Keys;
      events := [];
    }

    /** `proxy[key] = value`; the result is the trap's return value. */
    method Set(key: Key, value: V) returns (accepted: bool)
      requires Valid()
      modifies this
      ensures Valid()
      ensures var o := Assign(old(values), members, key, value);
        && accepted == o.accepted && values == o.values
        && events == old(events) + (if o.fired.Some? then [o.fired.value] else [])
    {
      if key.Symbol? {
        return false;
      }
      var p := key.name;
      if p !in members {
        return false;
      }
      if values[p] != value {
        var prev := values[p];
        values := values[p := value];
        events := events + [Change(p, value, prev)];
      }
      return true;
    }
  }
}

/**
 * The event-name composition of lib/emitter.ts: whether a lifecycle event is
 * published at a job's emit level, the name it is published under, and the
 * arguments listeners receive. The event bus itself is not modelled: an
 * emission is the `Event` value handed to it.
 */
module Emitter {
  import opened Helpers
  import opened Wrappers

  /**
   * The levels of lib/emit-level.ts: 0 errors only, 1 bare event name,
   * 2 with namespace, 3 with reference, 4 with namespace and reference.
   */
  type EmitLevel = x: int | 0 <= x <= 4

  /** An argument passed to listeners: the job itself, a value, or the job's error history. */
  datatype Arg = ThisJob | Value(value: JsValue) | ErrorHistory(errors: seq<JsValue>)

  /** The extra arguments a job's `done(err, ...args)` passes on to listeners. */
  function Values(args: seq<JsValue>): (r: seq<Arg>)
    ensures |r| == |args| && forall i :: 0 <= i < |r| ==> r[i] == Value(args[i])
  {
    seq(|args|, i requires 0 <= i < |args| => Value(args[i]))
  }

  /** One publication on the event bus. */
  datatype Event = Event(name: string, args: seq<Arg>)

  /** The options the emitter reads. */
  datatype EmitOptions = EmitOptions(emitLevel: EmitLevel, delimiter: string, namespace: string, reference: string)

  /** `shouldEmit(level, error)`: `Boolean(level) || Boolean(error)`. */
  function ShouldEmit(level: EmitLevel, error: JsValue): (r: bool)
    ensures Truthy(error) ==> r
    ensures level != 0 ==> r
    ensures level == 0 ==> (r <==> Truthy(error))
  {
    level != 0 || Truthy(error)
  }

  /** The level `buildEvent` names an event at: an error at level 0 is named at level 1. */
  function ActualLevel(level: EmitLevel, error: JsValue): (actual: EmitLevel)
    ensures ShouldEmit(level, error) ==> actual != 0
    ensures actual != level ==> level == 0 && Truthy(error) && actual == 1
  {
    if level == 0 && Truthy(error) then 1 else level
  }

  /** The `levels` getter: the suffix appended to an action name at each level. */
  function Levels(o: EmitOptions): (r: map<int, string>)
    ensures r.Keys == {1, 2, 3, 4}
    ensures r[1] == ""
    ensures forall k | 2 <= k <= 4 :: o.delimiter <= r[k]
    ensures r[4] == r[2] + r[3]
  {
    map[1 := "",
        2 := o.delimiter + o.namespace,
        3 := o.delimiter + o.reference,
        4 := o.delimiter + o.namespace + o.delimiter + o.reference]
  }

  /** `getLevel(level)`; `None` is the `undefined` a lookup outside the table gives. */
  function GetLevel(o: EmitOptions, level: int): (r: Option<string>)
    ensures r.Some? <==> 1 <= level <= 4
  {
    if level in Levels(o) then Some(Levels(o)[level]) else None
  }

  /** `buildEvent(event, level, error)`; only ever called once `shouldEmit` holds. */
  function BuildEvent(o: EmitOptions, action: string, level: EmitLevel, error: JsValue): (r: string)
    requires ShouldEmit(level, error)
    ensures action <= r
    ensures level <= 1 ==> r == action
    ensures level >= 2 ==> r == action + Levels(o)[level]
  {
    action + GetLevel(o, ActualLevel(level, error)).value
  }

  /**
   * `emit(action, {error, args})`: the event handed to the bus, if any. A
   * truthy error is put in front of the arguments.
   */
  function Emit(o: EmitOptions, action: string, error: JsValue, args: seq<Arg>): (r: Option<Event>)
    ensures r.Some? <==> o.emitLevel != 0 || Truthy(error)
    ensures r.Some? ==> r.value.args == (if Truthy(error) then [Value(error)] + args else args)
    ensures r.Some? ==> |r.value.name| >= |action| && r.value.name[..|action|] == action
  {
    if ShouldEmit(o.emitLevel, error) then
      Some(Event(BuildEvent(o, action, o.emitLevel, error), if Truthy(error) then [Value(error)] + args else args))
    else
      None
  }

  /** The events an emission appends to the bus: none or one. */
  function Emission(o: EmitOptions, action: string, error: JsValue, args: seq<Arg>): (r: seq<Event>)
    ensures |r| <= 1
    ensures |r| == 1 <==> o.emitLevel != 0 || Truthy(error)
  {
    match Emit(o, action, error, args)
    case None => []
    case Some(e) => [e]
  }

  /** The name an emitted event gets at each level; an error at level 0 is named at level 1. */
  lemma EventNameTable(o: EmitOptions, action: string, error: JsValue)
    requires ShouldEmit(o.emitLevel, error)
    ensures var name := BuildEvent(o, action, o.emitLevel, error);
      && (o.emitLevel <= 1 ==> name == action)
      && (o.emitLevel == 2 ==> name == action + o.delimiter + o.namespace)
      && (o.emitLevel == 3 ==> name == action + o.delimiter + o.reference)
      && (o.emitLevel == 4 ==> name == action + o.delimiter + o.namespace + o.delimiter + o.reference)
  {
    var d, ns, ref := o.delimiter, o.namespace, o.reference;
    assert action + (d + ns) == action + d + ns;
    assert action + (d + ref) == action + d + ref;
    assert action + (d + ns + d + ref) == action + d + ns + d + ref;
  }

  /**
   * Every event `emit` hands to the bus is named by one of the four forms of
   * the levels table, chosen by the job's level (level 1 for an error at
   * level 0), and carries the arguments it was given, the error first.
   */
  lemma EmitNames(o: EmitOptions, action: string, error: JsValue, args: seq<Arg>)
    ensures var r := Emit(o, action, error, args);
      r.Some? ==>
        && ((o.emitLevel == 0 || o.emitLevel == 1) ==> r.value.name == action)
        && (o.emitLevel == 2 ==> r.value.name == action + o.delimiter + o.namespace)
        && (o.emitLevel == 3 ==> r.value.name == action + o.delimiter + o.reference)
        && (o.emitLevel == 4 ==> r.value.name == action + o.delimiter + o.namespace + o.delimiter + o.reference)
        && (Truthy(error) ==> r.value.args[0] == Value(error) && r.value.args[1..] == args)
  {
    if ShouldEmit(o.emitLevel, error) {
      EventNameTable(o, action, error);
    }
  }

  /**
   * A log that extends `before + events` holds every event of `before` and,
   * on top of those, every event of `events`: later copies are counted apart
   * from earlier ones.
   */
  lemma LaterEventsKept(before: seq<Event>, events: seq<Event>, after: seq<Event>)
    ensures before + events <= after ==> multiset(before) + multiset(events) <= multiset(after)
  {
    if before + events <= after {
      assert after == before + events + after[|before + events|..];
    }
  }

  /** Nothing but errors is published at level 0. */
  lemma SilentAtLevelZero(o: EmitOptions, action: string, args: seq<Arg>)
    requires o.emitLevel == 0
    ensures Emit(o, action, Null, args) == None
  {
  }
}

/**
 * The event-name table of the two older job variants (index.ts and
 * src/timerjobs.ts): the `LEVEL` table built once at construction, the
 * namespace demotion applied before it, and the two ways those variants
 * normalise a configured emit level.
 */
module LevelTable {
  import opened Helpers
  import Emitter

  type EmitLevel = Emitter.EmitLevel

  /**
   * The `LEVEL` table. Unlike lib/emitter.ts, level 3 carries namespace and
   * reference and level 4 the reference alone.
   */
  function Table(delimiter: string, namespace: string, reference: string): (r: map<int, string>)
    ensures r.Keys == {1, 2, 3, 4}
    ensures r[1] == ""
    ensures forall k | 2 <= k <= 4 :: delimiter <= r[k]
    ensures r[3] == r[2] + r[4]
  {
    map[1 := "",
        2 := delimiter + namespace,
        3 := delimiter + namespace + delimiter + reference,
        4 := delimiter + reference]
  }

  /**
   * `action + LEVEL[level]`: string concatenation with a level outside the
   * table appends the text "undefined".
   */
  function EventName(table: map<int, string>, action: string, level: int): string
  {
    action + (if level in table then table[level] else "undefined")
  }

  /**
   * The constructor's "protecting you from yourself" step: without a
   * namespace, level 2 falls back to 1 and level 3 to 4.
   */
  function ProtectLevel(level: EmitLevel, namespace: string): (r: EmitLevel)
    ensures namespace != "" ==> r == level
    ensures namespace == "" ==> r != 2 && r != 3
    ensures namespace == "" && level == 2 ==> r == 1
    ensures namespace == "" && level == 3 ==> r == 4
    ensures level != 2 && level != 3 ==> r == level
  {
    if |namespace| == 0 then
      if level == 2 then 1 else if level == 3 then 4 else level
    else
      level
  }

  /**
   * After demotion, an event name of a job without namespace is the bare
   * action or the action and reference: it never has an empty namespace
   * segment.
   */
  lemma ProtectedNamesWellFormed(delimiter: string, reference: string, level: EmitLevel, action: string)
    requires level != 0
    ensures var name := EventName(Table(delimiter, "", reference), action, ProtectLevel(level, ""));
      name == action || name == action + delimiter + reference
  {
    assert action + "" == action;
    assert action + (delimiter + reference) == action + delimiter + reference;
  }

  /** The root variant's `emitLevel` setter: `isInteger(value) && inRange(value, 0, 5) ? value : 1`. */
  function NormalizeEmitLevel(v: JsValue): (r: EmitLevel)
    ensures IsInteger(v) && 0 <= IntegerValue(v) <= 4 ==> r == IntegerValue(v)
    ensures !(IsInteger(v) && 0 <= IntegerValue(v) <= 4) ==> r == 1
  {
    if IsInteger(v) && InRange(v.n.value, 0.0, 5.0) then
      var k := IntegerValue(v);
      assert 0 <= k <= 4 by { assert v.n.value == k as real; }
      k
    else
      1
  }

  /** The legacy constructor's clamp: `isInteger(x) && x >= 0 && x <= 4 ? x : 1`. */
  function ClampEmitLevel(v: JsValue): (r: EmitLevel)
    ensures IsInteger(v) && 0 <= IntegerValue(v) <= 4 ==> r == IntegerValue(v)
    ensures r != 1 ==> IsInteger(v) && r == IntegerValue(v)
  {
    if IsInteger(v) && v.n.value >= 0.0 && v.n.value <= 4.0 then IntegerValue(v) else 1
  }

  /** The two normalisations agree on every input. */
  lemma EmitLevelNormalisersAgree(v: JsValue)
    ensures NormalizeEmitLevel(v) == ClampEmitLevel(v)
  {
    if IsInteger(v) {
      assert v.n.value == IntegerValue(v) as real;
    }
  }

  /**
   * This table and the one of lib/emitter.ts agree on levels 1 and 2 and
   * exchange levels 3 and 4.
   */
  lemma TableAgainstEmitterLevels(o: Emitter.EmitOptions)
    ensures var t := Table(o.delimiter, o.namespace, o.reference);
      var l := Emitter.Levels(o);
      t[1] == l[1] && t[2] == l[2] && t[3] == l[4] && t[4] == l[3]
  {
  }

  /** The table the option tests inspect. */
  lemma TableExamples()
    ensures Table("::", "", "timer")[1] == ""
    ensures Table("##", "mynamespace", "noDefaults")[3] == "##mynamespace##noDefaults"
  {
  }
}

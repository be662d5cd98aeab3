/**
 * `ConfigEntity<T>` (Monitor/Monitor/Models/MqttEntity.cs): a value
 * mirrored to MQTT that either changes at once or, for an entity changed
 * with acknowledgement, is only staged until the device confirms it.
 *
 * `T?` is `Option<T>`.  `default(T?)` is `zero`, given when the entity is
 * built: `None` for a reference or nullable type, the type's zero value
 * otherwise.  The two subjects are the sequences of events pushed so far;
 * the subscribers that filter them are pure functions of those sequences.
 */
module MonConfigEntity {
  import opened Wrappers
  import opened DotNet

  /** An event of the value subject: the value before and after. */
  datatype Change<T> = Change(before: Option<T>, after: Option<T>)

  /** An event of the value-to-change subject: the current value and the staged one. */
  datatype Staging<T> = Staging(value: Option<T>, valueToChange: Option<T>)

  /** What `ValueChanges` emits: the change and the entity's id. */
  datatype Notice<T> = Notice(before: Option<T>, after: Option<T>, id: string)

  /** `a?.Equals(b) != true`: a null `a` never equals anything, not even null. */
  predicate Differs<T(==)>(a: Option<T>, b: Option<T>)
  {
    !(a.Some? && a == b)
  }

  datatype EntityState<T> = EntityState(
    value: Option<T>,
    valueToChange: Option<T>,
    oldValue: Option<T>,
    valueEvents: seq<Change<T>>,
    stagingEvents: seq<Staging<T>>)

  /** `SetValue(state, force)` on an entity with or without acknowledgement. */
  function SetValueStep<T>(s: EntityState<T>, changeWithAck: bool, zero: Option<T>, state: Option<T>, force: bool): (r: EntityState<T>)
    ensures changeWithAck && !force ==>
      && r.value == s.value && r.oldValue == s.oldValue && r.valueToChange == state
      && r.valueEvents == s.valueEvents && r.stagingEvents == s.stagingEvents + [Staging(s.value, state)]
    ensures !changeWithAck || force ==>
      && r.value == state && r.oldValue == s.value && r.valueToChange == zero
      && r.valueEvents == s.valueEvents + [Change(s.value, state)] && r.stagingEvents == s.stagingEvents
  {
    if changeWithAck && !force then
      s.(valueToChange := state, stagingEvents := s.stagingEvents + [Staging(s.value, state)])
    else
      s.(oldValue := s.value, value := state, valueToChange := zero, valueEvents := s.valueEvents + [Change(s.value, state)])
  }

  /** The value a payload stands for: a blank payload is `default(T?)`, anything else is deserialized. */
  function PayloadValue<T>(payload: Option<string>, deserialize: string -> Option<T>, zero: Option<T>): Option<T>
  {
    if IsNullOrWhiteSpace(payload) then zero else deserialize(payload.value)
  }

  /**
   * `SetFromStringPayload`: the answer and the new state after a payload
   * whose value is `v`; the value is set (unforced) only when it differs
   * from the current one.
   */
  function PayloadStep<T(==)>(s: EntityState<T>, changeWithAck: bool, zero: Option<T>, v: Option<T>): (r: (bool, EntityState<T>))
  {
    if Differs(v, s.value) then (true, SetValueStep(s, changeWithAck, zero, v, false)) else (false, s)
  }

  /** `ValueChanges(onlyIfDifferent)`: the value events, without those whose old value equals the new one when asked. */
  function ValueChanges<T(==)>(events: seq<Change<T>>, id: string, onlyIfDifferent: bool): (r: seq<Notice<T>>)
    ensures |r| <= |events|
    ensures !onlyIfDifferent ==> |r| == |events|
    ensures forall k :: 0 <= k < |r| ==> onlyIfDifferent ==> Differs(r[k].before, r[k].after)
  {
    if |events| == 0 then []
    else
      var e := events[|events| - 1];
      var kept := ValueChanges(events[..|events| - 1], id, onlyIfDifferent);
      if !onlyIfDifferent || Differs(e.before, e.after) then kept + [Notice(e.before, e.after, id)] else kept
  }

  /** An event is notified exactly when it passes the filter. */
  lemma {:induction false} ValueChangesKeeps<T>(events: seq<Change<T>>, id: string, onlyIfDifferent: bool, e: Change<T>)
    ensures Notice(e.before, e.after, id) in ValueChanges(events, id, onlyIfDifferent)
        <==> e in events && (!onlyIfDifferent || Differs(e.before, e.after))
    decreases |events|
  {
    if |events| > 0 {
      ValueChangesKeeps(events[..|events| - 1], id, onlyIfDifferent, e);
      assert events == events[..|events| - 1] + [events[|events| - 1]];
    }
  }

  /** `ValueToChange(onlyIfDifferent)`: the staging events, without those staging the current value when asked. */
  function StagedChanges<T(==)>(events: seq<Staging<T>>, onlyIfDifferent: bool): (r: seq<Staging<T>>)
    ensures |r| <= |events|
    ensures forall k :: 0 <= k < |r| ==> r[k] in events && (onlyIfDifferent ==> Differs(r[k].value, r[k].valueToChange))
  {
    if |events| == 0 then []
    else
      var e := events[|events| - 1];
      var kept := StagedChanges(events[..|events| - 1], onlyIfDifferent);
      if !onlyIfDifferent || Differs(e.value, e.valueToChange) then kept + [e] else kept
  }

  /** For a `bool` entity, `bool.ToString` gives "True" and "False". */
  function BoolToString(b: bool): string
  {
    if b then "True" else "False"
  }

  class ConfigEntity<T(==)> {
    const id: string
    const changeWithAck: bool
    const initialValue: Option<T>
    /** `default(T?)`. */
    const zero: Option<T>

    var value: Option<T>
    var valueToChange: Option<T>
    var oldValue: Option<T>
    var valueEvents: seq<Change<T>>
    var stagingEvents: seq<Staging<T>>

    function State(): EntityState<T>
      reads this
    {
      EntityState(value, valueToChange, oldValue, valueEvents, stagingEvents)
    }

    /** The constructor: value and old value start as the initial value, which is then set once more. */
    constructor (id: string, initialValue: Option<T>, zero: Option<T>, changeWithAck: bool)
      ensures this.id == id && this.initialValue == initialValue && this.zero == zero && this.changeWithAck == changeWithAck
      ensures value == initialValue && oldValue == initialValue
      ensures changeWithAck ==> valueToChange == initialValue && valueEvents == [] && stagingEvents == [Staging(initialValue, initialValue)]
      ensures !changeWithAck ==> valueToChange == zero && valueEvents == [Change(initialValue, initialValue)] && stagingEvents == []
    {
      this.id := id;
      this.changeWithAck := changeWithAck;
      this.zero := zero;
      this.initialValue := initialValue;
      value := initialValue;
      oldValue := initialValue;
      valueToChange := zero;
      valueEvents := [];
      stagingEvents := [];
      new;
      SetValue(initialValue, false);
    }

    /** `SetValue(state, force)`: staged when changed with acknowledgement and not forced, applied otherwise. */
    method SetValue(state: Option<T>, force: bool)
      modifies this
      ensures State() == SetValueStep(old(State()), changeWithAck, zero, state, force)
    {
      if changeWithAck && !force {
        valueToChange := state;
        stagingEvents := stagingEvents + [Staging(value, valueToChange)];
        return;
      }
      oldValue := value;
      value := state;
      valueToChange := zero;
      valueEvents := valueEvents + [Change(oldValue, value)];
    }

    /**
     * `SetFromStringPayload`: sets the payload's value (not forced) and answers
     * true unless that value is the current one; a blank payload stands for
     * `default(T?)`.
     */
    method SetFromStringPayload(payload: Option<string>, deserialize: string -> Option<T>) returns (changed: bool)
      modifies this
      ensures var v := PayloadValue(payload, deserialize, zero);
        && (changed <==> Differs(v, old(value)))
        && (changed, State()) == PayloadStep(old(State()), changeWithAck, zero, v)
    {
      var newValue := if IsNullOrWhiteSpace(payload) then zero else deserialize(payload.value);
      if Differs(newValue, value) {
        SetValue(newValue, false);
        return true;
      }
      return false;
    }

    /** `SetValueToInitialValue`: the `Value` setter, that is an unforced `SetValue`, with the initial value. */
    method SetValueToInitialValue()
      modifies this
      ensures State() == SetValueStep(old(State()), changeWithAck, zero, initialValue, false)
    {
      SetValue(initialValue, false);
    }

    /** `ClearValueToChange`: only the staged value is reset. */
    method ClearValueToChange()
      modifies this`valueToChange
      ensures State() == old(State()).(valueToChange := zero)
    {
      valueToChange := zero;
    }

    /** `IsTrue`: the value prints as "True". */
    function IsTrue(toString: T -> string): (r: bool)
      reads this
      ensures r ==> value.Some?
    {
      value.Some? && toString(value.value) == "True"
    }

    /** `IsFalse`: the value prints as "False". */
    function IsFalse(toString: T -> string): (r: bool)
      reads this
      ensures r ==> value.Some?
    {
      value.Some? && toString(value.value) == "False"
    }

    /** An entity is never both true and false; a `bool` one is true or false exactly as its value. */
    lemma TrueFalseExclusive(toString: T -> string)
      ensures !(IsTrue(toString) && IsFalse(toString))
    {
    }
  }

  /** For a `bool` entity, `IsTrue` and `IsFalse` are the value itself. */
  lemma BoolEntity(e: ConfigEntity<bool>)
    ensures e.IsTrue(BoolToString) <==> e.value == Some(true)
    ensures e.IsFalse(BoolToString) <==> e.value == Some(false)
  {
  }

  /**
   * An unacknowledged set is undone by nothing but a later set: a staged
   * value never reaches `Value`, and the value events hold every value the
   * entity took, in order.
   */
  lemma {:induction false} StagingKeepsValue<T>(s: EntityState<T>, zero: Option<T>, states: seq<Option<T>>)
    ensures var r := StageAll(s, zero, states);
      && r.value == s.value && r.oldValue == s.oldValue && r.valueEvents == s.valueEvents
      && (|states| > 0 ==> r.valueToChange == states[|states| - 1])
      && |r.stagingEvents| == |s.stagingEvents| + |states|
    decreases |states|
  {
    if |states| > 0 {
      StagingKeepsValue(s, zero, states[..|states| - 1]);
    }
  }

  /** Several unforced sets on an entity changed with acknowledgement. */
  function StageAll<T>(s: EntityState<T>, zero: Option<T>, states: seq<Option<T>>): EntityState<T>
  {
    if |states| == 0 then s else SetValueStep(StageAll(s, zero, states[..|states| - 1]), true, zero, states[|states| - 1], false)
  }

  /**
   * Delivering the same payload twice to an entity without acknowledgement
   * changes it at most once: when the payload's value is not null (which
   * `Equals` never matches), the second delivery answers false and leaves
   * the entity as the first one left it.
   */
  lemma PayloadIdempotent<T>(s: EntityState<T>, zero: Option<T>, payload: Option<string>, deserialize: string -> Option<T>)
    requires PayloadValue(payload, deserialize, zero).Some?
    ensures var v := PayloadValue(payload, deserialize, zero);
      var once := PayloadStep(s, false, zero, v).1;
      once.value == v && PayloadStep(once, false, zero, v) == (false, once)
  {
    var v := PayloadValue(payload, deserialize, zero);
    if Differs(v, s.value) {
      assert PayloadStep(s, false, zero, v).1.value == v;
    }
  }

  /**
   * With acknowledgement the value does not move, so a payload that differs
   * from it is staged again on every delivery, each time with one more
   * staging event.
   */
  lemma PayloadStagedAgain<T>(s: EntityState<T>, zero: Option<T>, payload: Option<string>, deserialize: string -> Option<T>)
    requires Differs(PayloadValue(payload, deserialize, zero), s.value)
    ensures var v := PayloadValue(payload, deserialize, zero);
      var once := PayloadStep(s, true, zero, v);
      var twice := PayloadStep(once.1, true, zero, v);
      && once.0 && twice.0 && twice.1.value == s.value && twice.1.valueToChange == v
      && twice.1.stagingEvents == s.stagingEvents + [Staging(s.value, v), Staging(s.value, v)]
  {
  }

  /** After an applied set, the event just pushed is notified unless it repeats the old value. */
  lemma SetValueNotifies<T>(s: EntityState<T>, zero: Option<T>, state: Option<T>, id: string)
    ensures var r := SetValueStep(s, false, zero, state, false);
      Notice(s.value, state, id) in ValueChanges(r.valueEvents, id, true) <==> Differs(s.value, state)
  {
    var r := SetValueStep(s, false, zero, state, false);
    ValueChangesKeeps(r.valueEvents, id, true, Change(s.value, state));
  }
}

/** Event assembly and the property maps it draws on: the right-biased map
    merge (`+=`), the property-type allow-list, building and enqueuing an
    event record, super properties and timed events.  The Swift `Tracking`
    object only holds an immutable API token, so its operations are modelled
    as procedures that take the token and the `inout` collections as values
    and return the updated collections. */
module Tracking {
  import opened Values
  import Queues

  /** Capacity of the events queue. */
  const EventsQueueCapacity: nat := 5000

  /** Name recorded for an event tracked with a nil or empty name. */
  const DefaultEventName: string := "mp_event"

  /** `left += right`: every pair of `right` is written into `left`, one
      `updateValue` at a time. */
  method MergeInto<K, V>(left: map<K, V>, right: map<K, V>) returns (merged: map<K, V>)
    ensures merged.Keys == left.Keys + right.Keys
    ensures forall k :: k in right ==> merged[k] == right[k]
    ensures forall k :: k in left && k !in right ==> merged[k] == left[k]
    ensures merged == left + right
  {
    merged := left;
    var pending := right.Keys;
    while pending != {}
      invariant pending <= right.Keys
      invariant merged.Keys == left.Keys + (right.Keys - pending)
      invariant forall k :: k in right && k !in pending ==> merged[k] == right[k]
      invariant forall k :: k in left && k !in right ==> merged[k] == left[k]
      invariant forall k :: k in left && k in pending ==> merged[k] == left[k]
      decreases pending
    {
      var k :| k in pending;
      merged := merged[k := right[k]];
      pending := pending - {k};
    }
  }

  /** The allow-list of property value types: strings, integers, unsigned
      integers, doubles (a bridged boolean is an NSNumber and passes as a
      number), arrays, dictionaries, dates, URLs and null. */
  predicate IsAllowedType(v: Value) {
    v.Str? || v.Int? || v.UInt? || v.Double? || v.Bool? || v.Array? || v.Dict?
    || v.Date? || v.Url? || v.Null?
  }

  /** `assertPropertyTypes`: true when the assertion holds for every value; a
      nil map passes. */
  function PropertyTypesValid(properties: Option<Properties>): (ok: bool)
    ensures ok <==> (properties.None? || forall k :: k in properties.value ==> !properties.value[k].Data?)
  {
    match properties
    case None => true
    case Some(p) => forall k :: k in p ==> IsAllowedType(p[k])
  }

  /** `v as? Int` on a bridged value: integers, unsigned integers, doubles
      (truncated towards zero) and booleans read as integers. */
  function AsInt(v: Value): Option<int> {
    match v
    case Int(i) => Some(i)
    case UInt(u) => Some(u)
    case Double(d) => Some(if d >= 0.0 then d.Floor else -((-d).Floor))
    case Bool(b) => Some(if b then 1 else 0)
    case _ => None
  }

  /** The name an event is recorded under. */
  function EventName(event: Option<string>): (name: string)
    ensures name != []
    ensures event.Some? && event.value != [] ==> name == event.value
    ensures event.None? || event.value == [] ==> name == DefaultEventName
  {
    if event.None? || event.value == [] then DefaultEventName else event.value
  }

  /** The start time recorded for `name` by `timeEvent`, when it reads as an
      integer. */
  function StartTime(timedEvents: Properties, name: string): Option<int> {
    if name in timedEvents then AsInt(timedEvents[name]) else None
  }

  /** The properties the library itself adds to every event: token, time,
      `$duration` (for a timed event) and `distinct_id` (when known). */
  function CoreProperties(apiToken: string, now: int, start: Option<int>, distinctId: Option<string>): Properties {
    var p := map["token" := Str(apiToken), "time" := Int(now)];
    var p := if start.Some? then p["$duration" := Double((now - start.value) as real)] else p;
    if distinctId.Some? then p["distinct_id" := Str(distinctId.value)] else p
  }

  /** The properties of a tracked event, by precedence from lowest to
      highest: automatic, core, super, per-call. */
  function EventProperties(apiToken: string, name: string, properties: Option<Properties>,
                           timedEvents: Properties, automaticProperties: Properties,
                           superProperties: Properties, distinctId: Option<string>, now: int): Properties
  {
    automaticProperties
      + CoreProperties(apiToken, now, StartTime(timedEvents, name), distinctId)
      + superProperties
      + properties.GetOr(map[])
  }

  /** The top layers of an event's properties: per-call properties win
      over everything, super properties over everything below them. */
  lemma EventPropertiesPrecedence(apiToken: string, name: string, properties: Option<Properties>,
                                  timedEvents: Properties, automaticProperties: Properties,
                                  superProperties: Properties, distinctId: Option<string>, now: int)
    ensures var p := EventProperties(apiToken, name, properties, timedEvents, automaticProperties,
                                     superProperties, distinctId, now);
      && (properties.Some? ==> forall k :: k in properties.value ==> k in p && p[k] == properties.value[k])
      && (forall k :: k in superProperties && (properties.None? || k !in properties.value) ==>
            k in p && p[k] == superProperties[k])
  {
    var lower := automaticProperties + CoreProperties(apiToken, now, StartTime(timedEvents, name), distinctId);
    var p := lower + superProperties + properties.GetOr(map[]);
    assert p == EventProperties(apiToken, name, properties, timedEvents, automaticProperties,
                                superProperties, distinctId, now);
  }

  /** The library's own keys: `token` and `time` are always present, and
      each of `token`, `time` and `distinct_id` holds the library's value
      unless a higher layer has the key. */
  lemma EventPropertiesLibraryKeys(apiToken: string, name: string, properties: Option<Properties>,
                                   timedEvents: Properties, automaticProperties: Properties,
                                   superProperties: Properties, distinctId: Option<string>, now: int)
    ensures var p := EventProperties(apiToken, name, properties, timedEvents, automaticProperties,
                                     superProperties, distinctId, now);
      && "token" in p && "time" in p
      && ("token" !in superProperties && (properties.None? || "token" !in properties.value) ==>
            p["token"] == Str(apiToken))
      && ("time" !in superProperties && (properties.None? || "time" !in properties.value) ==>
            p["time"] == Int(now))
      && (distinctId.Some? && "distinct_id" !in superProperties
          && (properties.None? || "distinct_id" !in properties.value) ==>
            "distinct_id" in p && p["distinct_id"] == Str(distinctId.value))
  {
    var core := CoreProperties(apiToken, now, StartTime(timedEvents, name), distinctId);
    assert core["token"] == Str(apiToken) && core["time"] == Int(now);
    assert distinctId.Some? ==> core["distinct_id"] == Str(distinctId.value);
    var upper := superProperties + properties.GetOr(map[]);
    assert EventProperties(apiToken, name, properties, timedEvents, automaticProperties,
                           superProperties, distinctId, now) == automaticProperties + core + upper;
  }

  /** The automatic properties show through wherever neither the library
      nor a higher layer has the key. */
  lemma EventPropertiesAutomatic(apiToken: string, name: string, properties: Option<Properties>,
                                 timedEvents: Properties, automaticProperties: Properties,
                                 superProperties: Properties, distinctId: Option<string>, now: int)
    ensures var p := EventProperties(apiToken, name, properties, timedEvents, automaticProperties,
                                     superProperties, distinctId, now);
      forall k :: (k in automaticProperties && k !in superProperties
                   && k !in {"token", "time", "$duration", "distinct_id"}
                   && (properties.None? || k !in properties.value)) ==>
        k in p && p[k] == automaticProperties[k]
  {
    var core := CoreProperties(apiToken, now, StartTime(timedEvents, name), distinctId);
    assert core.Keys <= {"token", "time", "$duration", "distinct_id"};
    var upper := superProperties + properties.GetOr(map[]);
    assert EventProperties(apiToken, name, properties, timedEvents, automaticProperties,
                           superProperties, distinctId, now) == automaticProperties + core + upper;
  }

  /** The record appended to the events queue. */
  function EventRecord(name: string, properties: Properties): Properties {
    map["event" := Str(name), "properties" := Dict(properties)]
  }

  /** The timed events left after tracking `name`: its entry is consumed when
      it holds a start time. */
  function TimedEventsAfterTrack(timedEvents: Properties, name: string): Properties {
    if StartTime(timedEvents, name).Some? then timedEvents - {name} else timedEvents
  }

  /** The property-building part of `track`: layer the automatic
      properties, the library's own keys, the super properties and the
      per-call properties, each `+=` overriding the previous layers. */
  method AssembleEventProperties(apiToken: string, properties: Option<Properties>,
                                 eventStartTime: Option<int>, automaticProperties: Properties,
                                 superProperties: Properties, distinctId: Option<string>, now: int)
    returns (p: Properties)
    ensures p == automaticProperties + CoreProperties(apiToken, now, eventStartTime, distinctId)
                 + superProperties + properties.GetOr(map[])
  {
    p := map[];
    p := MergeInto(p, automaticProperties);
    ghost var core: Properties := map[];
    assert p == automaticProperties + core;
    UnionUpdate(automaticProperties, core, "token", Str(apiToken));
    p, core := p["token" := Str(apiToken)], core["token" := Str(apiToken)];
    UnionUpdate(automaticProperties, core, "time", Int(now));
    p, core := p["time" := Int(now)], core["time" := Int(now)];
    if eventStartTime.Some? {
      var duration := Double((now - eventStartTime.value) as real);
      UnionUpdate(automaticProperties, core, "$duration", duration);
      p, core := p["$duration" := duration], core["$duration" := duration];
    }
    if distinctId.Some? {
      UnionUpdate(automaticProperties, core, "distinct_id", Str(distinctId.value));
      p, core := p["distinct_id" := Str(distinctId.value)], core["distinct_id" := Str(distinctId.value)];
    }
    assert core == CoreProperties(apiToken, now, eventStartTime, distinctId);
    p := MergeInto(p, superProperties);
    if properties.Some? {
      p := MergeInto(p, properties.value);
    } else {
      assert p == p + map[];
    }
  }

  /** `track`: build the event record and append it to the bounded events
      queue, consuming the event's timer if it has one. */
  method Track(apiToken: string, event: Option<string>, properties: Option<Properties>,
               eventsQueue: Queue, timedEvents: Properties,
               automaticProperties: Properties, superProperties: Properties,
               distinctId: Option<string>, now: int)
    returns (eventsQueue': Queue, timedEvents': Properties)
    ensures var name := EventName(event);
      eventsQueue' == Queues.BoundedAppend(eventsQueue,
        EventRecord(name, EventProperties(apiToken, name, properties, timedEvents,
                                          automaticProperties, superProperties, distinctId, now)),
        EventsQueueCapacity)
    ensures timedEvents' == TimedEventsAfterTrack(timedEvents, EventName(event))
    ensures |eventsQueue| <= EventsQueueCapacity ==> |eventsQueue'| <= EventsQueueCapacity
  {
    var ev := if event.None? || |event.value| == 0 then DefaultEventName else event.value;
    var eventStartTime := if ev in timedEvents then AsInt(timedEvents[ev]) else None;
    timedEvents' := timedEvents;
    if eventStartTime.Some? {
      timedEvents' := timedEvents' - {ev};
    }
    assert ev == EventName(event) && eventStartTime == StartTime(timedEvents, ev);
    var p := AssembleEventProperties(apiToken, properties, eventStartTime, automaticProperties,
                                     superProperties, distinctId, now);
    assert p == EventProperties(apiToken, ev, properties, timedEvents, automaticProperties,
                                superProperties, distinctId, now);
    var trackEvent: Properties := map["event" := Str(ev), "properties" := Dict(p)];
    assert trackEvent == EventRecord(ev, p);
    eventsQueue' := eventsQueue + [trackEvent];
    if |eventsQueue'| > EventsQueueCapacity {
      eventsQueue' := eventsQueue'[1..];
    }
    assert eventsQueue' == Queues.BoundedAppend(eventsQueue, trackEvent, EventsQueueCapacity);
  }

  /** Updating one key of a right-biased union updates its right operand. */
  lemma UnionUpdate<K, V>(a: map<K, V>, c: map<K, V>, k: K, v: V)
    ensures (a + c)[k := v] == a + c[k := v]
  {
  }

  /** `registerSuperProperties`: merge `properties` over the super properties. */
  method RegisterSuperProperties(properties: Properties, superProperties: Properties)
    returns (superProperties': Properties)
    ensures superProperties'.Keys == superProperties.Keys + properties.Keys
    ensures forall k :: k in properties ==> superProperties'[k] == properties[k]
    ensures forall k :: k in superProperties && k !in properties ==> superProperties'[k] == superProperties[k]
  {
    superProperties' := MergeInto(superProperties, properties);
  }

  /** Whether `registerSuperPropertiesOnce` may write key `k`: it is absent, or
      its current value is `isEqual:` to the given default. */
  predicate MayOverwrite(superProperties: Properties, k: string, defaultValue: Option<Value>) {
    k !in superProperties || (defaultValue.Some? && SameObject(superProperties[k], defaultValue.value))
  }

  /** `registerSuperPropertiesOnce`: write each pair only where the key is
      absent or still holds `defaultValue`. */
  method RegisterSuperPropertiesOnce(properties: Properties, superProperties: Properties,
                                     defaultValue: Option<Value>)
    returns (superProperties': Properties)
    ensures superProperties'.Keys == superProperties.Keys + properties.Keys
    ensures forall k :: k in properties ==>
      superProperties'[k] == if MayOverwrite(superProperties, k, defaultValue) then properties[k] else superProperties[k]
    ensures forall k :: k in superProperties && k !in properties ==> superProperties'[k] == superProperties[k]
  {
    superProperties' := superProperties;
    var pending := properties.Keys;
    while pending != {}
      invariant pending <= properties.Keys
      invariant superProperties'.Keys == superProperties.Keys + (properties.Keys - pending)
      invariant forall k :: k in properties && k !in pending ==>
        superProperties'[k] == if MayOverwrite(superProperties, k, defaultValue) then properties[k] else superProperties[k]
      invariant forall k :: k in superProperties && k in pending ==> superProperties'[k] == superProperties[k]
      invariant forall k :: k in superProperties && k !in properties ==> superProperties'[k] == superProperties[k]
      decreases pending
    {
      var k :| k in pending;
      var val := if k in superProperties' then Some(superProperties'[k]) else None;
      if val.None? || (defaultValue.Some? && SameObject(val.value, defaultValue.value)) {
        superProperties' := superProperties'[k := properties[k]];
      }
      pending := pending - {k};
    }
  }

  /** A key that still holds the default itself is always rewritten. */
  lemma MayOverwriteOwnDefault(superProperties: Properties, k: string, defaultValue: Option<Value>)
    requires k in superProperties && defaultValue == Some(superProperties[k])
    ensures MayOverwrite(superProperties, k, defaultValue)
  {
    SameObjectReflexive(superProperties[k]);
  }

  /** The comparison with the default is `isEqual:`: a stored 1.0 matches a
      default of 1, while the string "1" does not, and without a default
      only an absent key is written. */
  lemma MayOverwriteComparesObjects()
    ensures MayOverwrite(map["a" := Double(1.0)], "a", Some(Int(1)))
    ensures !MayOverwrite(map["a" := Str("1")], "a", Some(Int(1)))
    ensures !MayOverwrite(map["a" := Int(1)], "a", None) && MayOverwrite(map[], "a", None)
  {
  }

  /** `unregisterSuperProperty`: remove exactly the named key. */
  function UnregisterSuperProperty(propertyName: string, superProperties: Properties): (r: Properties)
    ensures r.Keys == superProperties.Keys - {propertyName}
    ensures forall k :: k in r ==> r[k] == superProperties[k]
    ensures propertyName !in superProperties ==> r == superProperties
  {
    superProperties - {propertyName}
  }

  /** `timeEvent`: record the start time of a named event; a nil or empty
      name changes nothing. */
  function TimeEvent(event: Option<string>, timedEvents: Properties, now: int): (r: Properties)
    ensures event.None? || event.value == [] ==> r == timedEvents
    ensures event.Some? && event.value != [] ==>
      && r.Keys == timedEvents.Keys + {event.value}
      && r[event.value] == Double(now as real) && StartTime(r, event.value) == Some(now)
    ensures forall k :: k in timedEvents && (event.None? || k != event.value) ==> k in r && r[k] == timedEvents[k]
  {
    match event
    case None => timedEvents
    case Some(e) => if |e| > 0 then timedEvents[e := Double(now as real)] else timedEvents
  }

  /** Timing an event and then tracking it gives the record a `$duration` of
      the elapsed seconds and consumes the timer, so tracking the same event
      again carries no `$duration`; other timers are untouched. */
  lemma TimedEventIsConsumedOnce(apiToken: string, name: string, timedEvents: Properties,
                                 automaticProperties: Properties, superProperties: Properties,
                                 distinctId: Option<string>, start: int, now: int)
    requires name != []
    requires "$duration" !in superProperties
    ensures var timed := TimeEvent(Some(name), timedEvents, start);
      var first := EventProperties(apiToken, name, None, timed, automaticProperties,
                                   superProperties, distinctId, now);
      var rest := TimedEventsAfterTrack(timed, name);
      var second := EventProperties(apiToken, name, None, rest, automaticProperties,
                                    superProperties, distinctId, now);
      && first["$duration"] == Double((now - start) as real)
      && rest == timedEvents - {name}
      && ("$duration" in second <==> "$duration" in automaticProperties)
  {
    var timed := TimeEvent(Some(name), timedEvents, start);
    assert StartTime(timed, name) == Some(start);
    assert (start as real).Floor == start;
    var rest := TimedEventsAfterTrack(timed, name);
    assert rest == timedEvents - {name};
    assert StartTime(rest, name) == None;
  }
}

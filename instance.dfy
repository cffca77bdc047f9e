/** One tracking instance: identity, super properties, the events queue,
    timed events, the people object, the flusher and persistence.  Each
    public operation is one atomic step of the instance's serial queue.
    The device-provided values (automatic properties, the default distinct
    id), the clock and the flush delegate's answer are inputs. */
module MixpanelInstance {
  import opened Values
  import Queues
  import Tracking
  import Flusher = Flush
  import People
  import Persistence

  /** The app-link notifications that are tracked, and their event names. */
  const AppLinkEventNames: map<string, string> :=
    map["al_nav_out" := "$al_nav_out", "al_nav_in" := "$al_nav_in", "al_ref_back_out" := "$al_ref_back_out"]

  /** `r["$distinct_id"] = distinctId` */
  function Stamp(r: Properties, distinctId: string): Properties {
    r["$distinct_id" := Str(distinctId)]
  }

  /** Every staged record stamped with the identity, in order. */
  function StampAll(staged: Queue, distinctId: string): (q: Queue)
    ensures |q| == |staged|
    ensures forall i :: 0 <= i < |staged| ==>
      q[i].Keys == staged[i].Keys + {"$distinct_id"}
      && q[i]["$distinct_id"] == Str(distinctId)
      && forall k :: k in staged[i] && k != "$distinct_id" ==> q[i][k] == staged[i][k]
  {
    if staged == [] then []
    else StampAll(staged[..|staged| - 1], distinctId) + [Stamp(staged[|staged| - 1], distinctId)]
  }

  /** The properties of `$create_alias`. */
  function AliasProperties(distinctId: string, alias: string): Properties {
    map["distinct_id" := Str(distinctId), "alias" := Str(alias)]
  }

  /** The push payload check: `userInfo["mp"]` must be a dictionary holding
      both `m` and `c`; the event then carries campaign id `c`, message id
      `m` and message type "push". */
  function PushProperties(userInfo: Option<Properties>): (p: Option<Properties>)
    ensures p.Some? <==>
      && userInfo.Some? && "mp" in userInfo.value && userInfo.value["mp"].Dict?
      && "m" in userInfo.value["mp"].entries && "c" in userInfo.value["mp"].entries
    ensures p.Some? ==>
      var mp := userInfo.value["mp"].entries;
      p.value.Keys == {"campaign_id", "message_id", "message_type"}
      && p.value["campaign_id"] == mp["c"] && p.value["message_id"] == mp["m"]
      && p.value["message_type"] == Str("push")
  {
    if userInfo.None? || "mp" !in userInfo.value || !userInfo.value["mp"].Dict? then None
    else
      var mp := userInfo.value["mp"].entries;
      if "m" in mp && "c" in mp then
        Some(map["campaign_id" := mp["c"], "message_id" := mp["m"], "message_type" := Str("push")])
      else None
  }

  /** The event an app-link notification is tracked as: one of the three
      known names, prefixed with "$", with the notification's arguments as
      properties; nothing for any other notification. */
  function AppLinkEvent(userInfo: Option<Properties>): (e: Option<(string, Properties)>)
    ensures e.Some? <==>
      && userInfo.Some?
      && "event_name" in userInfo.value && userInfo.value["event_name"].Str?
      && "event_args" in userInfo.value && userInfo.value["event_args"].Dict?
      && userInfo.value["event_name"].s in {"al_nav_out", "al_nav_in", "al_ref_back_out"}
    ensures e.Some? ==>
      e.value.0 == "$" + userInfo.value["event_name"].s
      && e.value.1 == userInfo.value["event_args"].entries
  {
    if userInfo.None? then None
    else
      var info := userInfo.value;
      if "event_name" in info && info["event_name"].Str?
         && "event_args" in info && info["event_args"].Dict?
         && info["event_name"].s in AppLinkEventNames
      then Some((AppLinkEventNames[info["event_name"].s], info["event_args"].entries))
      else None
  }

  class MixpanelInstance {
    const apiToken: string
    var distinctId: Option<string>
    var superProperties: Properties
    var eventsQueue: Queue
    var timedEvents: Properties
    const automaticProperties: Properties
    const people: People.People
    const flushInstance: Flusher.Flush
    const persistence: Persistence.Persistence

    /** The state archived in the Properties entry. */
    function Snapshot(): Persistence.ArchivedProperties
      reads this, people
    {
      Persistence.ArchivedProperties(superProperties, timedEvents, distinctId,
                                     people.distinctId, people.unidentifiedQueue)
    }

    /** Where this instance's entry of the given kind is stored. */
    function PathOf(kind: Persistence.ArchiveType): Option<string> {
      persistence.FilePathWithType(kind)
    }

    /** The events queue and timed events after tracking `event` from
        `queue0` and `timed0`, with the instance's other state. */
    ghost predicate TrackedFrom(queue0: Queue, timed0: Properties, event: Option<string>,
                                properties: Option<Properties>, now: int)
      reads this
    {
      var name := Tracking.EventName(event);
      && eventsQueue == Queues.BoundedAppend(queue0,
           Tracking.EventRecord(name, Tracking.EventProperties(apiToken, name, properties, timed0,
                                automaticProperties, superProperties, distinctId, now)),
           Tracking.EventsQueueCapacity)
      && timedEvents == Tracking.TimedEventsAfterTrack(timed0, name)
    }

    /** A nil or empty token is replaced by the empty string; the state is
        then loaded from the store and a launch push notification, if any,
        is tracked as `$app_open`. */
    constructor (apiToken: Option<string>, launchNotification: Option<Properties>, flushInterval: real,
                 automaticProperties: Properties, automaticPeopleProperties: Properties,
                 defaultId: string, store: Persistence.Store, now: int)
      modifies store
      ensures this.apiToken == if apiToken.Some? && |apiToken.value| > 0 then apiToken.value else ""
      ensures people.apiToken == this.apiToken && persistence.apiToken == this.apiToken
      ensures persistence.store == store
      ensures this.automaticProperties == automaticProperties
      ensures people.automaticPeopleProperties == automaticPeopleProperties
      ensures flushInstance.flushInterval == flushInterval && flushInstance.State() == Flusher.Backoff(0, 0)
      ensures fresh(people) && fresh(flushInstance) && fresh(persistence)
      ensures var (u, after) := Persistence.UnarchiveAll(old(store.entries), store.libraryDirectory, this.apiToken);
        && distinctId == (if u.properties.distinctId.Some? then u.properties.distinctId else Some(defaultId))
        && superProperties == u.properties.superProperties
        && people.peopleQueue == u.peopleQueue
        && people.distinctId == u.properties.peopleDistinctId
        && people.unidentifiedQueue == u.properties.peopleUnidentifiedQueue
        && (PushProperties(launchNotification).None? ==>
              && eventsQueue == u.eventsQueue && timedEvents == u.properties.timedEvents
              && store.entries == after)
        && (PushProperties(launchNotification).Some? ==>
              && TrackedFrom(u.eventsQueue, u.properties.timedEvents, Some("$app_open"),
                             PushProperties(launchNotification), now)
              && store.entries == Persistence.Written(after, PathOf(Persistence.EventsArchive),
                                    store.writable, Persistence.EncodeQueue(eventsQueue)))
    {
      var token := if apiToken.Some? && |apiToken.value| > 0 then apiToken.value else "";
      this.apiToken := token;
      this.automaticProperties := automaticProperties;
      people := new People.People(token, automaticPeopleProperties);
      var f := new Flusher.Flush();
      f.flushInterval := flushInterval;
      flushInstance := f;
      persistence := new Persistence.Persistence(token, store);
      distinctId := Some(defaultId);
      superProperties := map[];
      eventsQueue := [];
      timedEvents := map[];
      new;
      Launch(defaultId, launchNotification, now);
    }

    /** The end of `init`: load the state from the store, then track a
        well-formed launch push notification as `$app_open`. */
    method Launch(defaultId: string, launchNotification: Option<Properties>, now: int)
      modifies this`eventsQueue, this`superProperties, this`timedEvents, this`distinctId,
               people`peopleQueue, people`distinctId, people`unidentifiedQueue, persistence.store
      ensures var (u, after) := Persistence.UnarchiveAll(old(persistence.store.entries),
                                  persistence.store.libraryDirectory, persistence.apiToken);
        && distinctId == (if u.properties.distinctId.Some? then u.properties.distinctId else Some(defaultId))
        && superProperties == u.properties.superProperties
        && people.peopleQueue == u.peopleQueue
        && people.distinctId == u.properties.peopleDistinctId
        && people.unidentifiedQueue == u.properties.peopleUnidentifiedQueue
        && (PushProperties(launchNotification).None? ==>
              && eventsQueue == u.eventsQueue && timedEvents == u.properties.timedEvents
              && persistence.store.entries == after)
        && (PushProperties(launchNotification).Some? ==>
              && TrackedFrom(u.eventsQueue, u.properties.timedEvents, Some("$app_open"),
                             PushProperties(launchNotification), now)
              && persistence.store.entries ==
                   Persistence.Written(after, PathOf(Persistence.EventsArchive),
                     persistence.store.writable, Persistence.EncodeQueue(eventsQueue)))
    {
      ghost var loaded := Persistence.UnarchiveAll(persistence.store.entries,
                                                   persistence.store.libraryDirectory, persistence.apiToken);
      Unarchive(defaultId);
      ghost var queue0, timed0, entries0 := eventsQueue, timedEvents, persistence.store.entries;
      assert queue0 == loaded.0.eventsQueue && timed0 == loaded.0.properties.timedEvents;
      assert entries0 == loaded.1;
      if PushProperties(launchNotification).Some? {
        TrackPushNotification(launchNotification, "$app_open", now);
        assert TrackedFrom(queue0, timed0, Some("$app_open"), PushProperties(launchNotification), now);
      }
    }

    /** `identify`: a nil or empty id changes nothing.  Otherwise both ids
        become `distinctId`, every staged people record is appended to the
        people queue with `$distinct_id` set, in order, and the staging
        queue is emptied. */
    method Identify(distinctId: Option<string>)
      modifies this`distinctId, people`distinctId, people`peopleQueue, people`unidentifiedQueue, persistence.store
      ensures distinctId.None? || distinctId.value == [] ==>
        && this.distinctId == old(this.distinctId) && people.distinctId == old(people.distinctId)
        && people.peopleQueue == old(people.peopleQueue) && people.unidentifiedQueue == old(people.unidentifiedQueue)
        && persistence.store.entries == old(persistence.store.entries)
      ensures distinctId.Some? && distinctId.value != [] ==>
        && this.distinctId == distinctId && people.distinctId == distinctId
        && people.peopleQueue == old(people.peopleQueue) + StampAll(old(people.unidentifiedQueue), distinctId.value)
        && people.unidentifiedQueue == []
        && persistence.store.entries ==
             Persistence.Written(
               if |old(people.unidentifiedQueue)| > 0 then
                 Persistence.Written(old(persistence.store.entries), PathOf(Persistence.PeopleArchive),
                   persistence.store.writable, Persistence.EncodeQueue(people.peopleQueue))
               else old(persistence.store.entries),
               PathOf(Persistence.PropertiesArchive), persistence.store.writable,
               Dict(Persistence.PropertiesMap(Snapshot())))
    {
      if distinctId.None? || |distinctId.value| == 0 {
        return;
      }
      var id := distinctId.value;
      this.distinctId := distinctId;
      people.distinctId := distinctId;
      if |people.unidentifiedQueue| > 0 {
        PromoteStaged(id);
        persistence.ArchivePeople(people.peopleQueue);
      }
      ArchiveProperties();
    }

    /** The loop of `identify`: each staged record, stamped with the
        identity, moves to the end of the people queue, in order. */
    method PromoteStaged(id: string)
      modifies people`peopleQueue, people`unidentifiedQueue
      ensures people.peopleQueue == old(people.peopleQueue) + StampAll(old(people.unidentifiedQueue), id)
      ensures people.unidentifiedQueue == []
    {
      var staged := people.unidentifiedQueue;
      ghost var queue0 := people.peopleQueue;
      for i := 0 to |staged|
        invariant people.peopleQueue == queue0 + StampAll(staged[..i], id)
      {
        assert staged[..i + 1][..i] == staged[..i];
        people.peopleQueue := people.peopleQueue + [Stamp(staged[i], id)];
      }
      assert staged[..|staged|] == staged;
      people.unidentifiedQueue := [];
    }

    /** `createAlias`: a blank id or alias changes nothing; otherwise
        `$create_alias` is tracked with both and a flush follows. */
    method CreateAlias(alias: Option<string>, distinctId: Option<string>, now: int,
                       willFlush: Option<bool>, env: Flusher.Environment)
      modifies this`eventsQueue, this`timedEvents, people`peopleQueue, persistence.store,
               flushInstance`networkConsecutiveFailures, flushInstance`networkRequestsAllowedAfterTime
      ensures distinctId.None? || distinctId.value == [] || alias.None? || alias.value == [] ==>
        && eventsQueue == old(eventsQueue) && timedEvents == old(timedEvents)
        && people.peopleQueue == old(people.peopleQueue)
        && persistence.store.entries == old(persistence.store.entries)
        && flushInstance.State() == old(flushInstance.State())
      ensures distinctId.Some? && distinctId.value != [] && alias.Some? && alias.value != [] ==>
        var name := "$create_alias";
        var tracked := Queues.BoundedAppend(old(eventsQueue),
          Tracking.EventRecord(name, Tracking.EventProperties(apiToken, name,
            Some(AliasProperties(distinctId.value, alias.value)), old(timedEvents),
            automaticProperties, superProperties, this.distinctId, now)),
          Tracking.EventsQueueCapacity);
        var trackedStore := Persistence.Written(old(persistence.store.entries), PathOf(Persistence.EventsArchive),
                              persistence.store.writable, Persistence.EncodeQueue(tracked));
        && timedEvents == Tracking.TimedEventsAfterTrack(old(timedEvents), name)
        && (willFlush == Some(false) ==>
              && eventsQueue == tracked && people.peopleQueue == old(people.peopleQueue)
              && flushInstance.State() == old(flushInstance.State())
              && persistence.store.entries == trackedStore)
        && (willFlush != Some(false) ==>
              var e := Flusher.GatedFlush(tracked, old(flushInstance.State()), Flusher.Events, env);
              var p := Flusher.GatedFlush(old(people.peopleQueue), e.backoff, Flusher.People, env);
              && eventsQueue == e.rest && people.peopleQueue == p.rest
              && flushInstance.State() == p.backoff
              && persistence.store.entries ==
                   Persistence.ArchiveAll(trackedStore, persistence.store.libraryDirectory,
                     persistence.store.writable, persistence.apiToken, e.rest, p.rest, Snapshot()))
    {
      if distinctId.None? || |distinctId.value| == 0 {
        return;
      }
      if alias.None? || |alias.value| == 0 {
        return;
      }
      Track(Some("$create_alias"), Some(AliasProperties(distinctId.value, alias.value)), now);
      Flush(willFlush, env);
    }

    /** `reset`: a fresh default identity and empty state, then archive. */
    method Reset(defaultId: string)
      modifies this`distinctId, this`superProperties, this`eventsQueue, this`timedEvents,
               people`distinctId, people`peopleQueue, people`unidentifiedQueue, persistence.store
      ensures distinctId == Some(defaultId)
      ensures superProperties == map[] && eventsQueue == [] && timedEvents == map[]
      ensures people.distinctId == None && people.peopleQueue == [] && people.unidentifiedQueue == []
      ensures persistence.store.entries ==
        Persistence.ArchiveAll(old(persistence.store.entries), persistence.store.libraryDirectory,
          persistence.store.writable, persistence.apiToken, [], [],
          Persistence.ArchivedProperties(map[], map[], Some(defaultId), None, []))
    {
      distinctId := Some(defaultId);
      superProperties := map[];
      eventsQueue := [];
      timedEvents := map[];
      people.distinctId := None;
      people.peopleQueue := [];
      people.unidentifiedQueue := [];
      Archive();
    }

    /** `archive`: all three entries. */
    method Archive()
      modifies persistence.store
      ensures persistence.store.entries ==
        Persistence.ArchiveAll(old(persistence.store.entries), persistence.store.libraryDirectory,
          persistence.store.writable, persistence.apiToken, eventsQueue, people.peopleQueue, Snapshot())
    {
      persistence.Archive(eventsQueue, people.peopleQueue, Snapshot());
    }

    /** `unarchive`: load every field; a missing distinct id is replaced by
        the default one, so the instance always has an identity. */
    method Unarchive(defaultId: string)
      modifies this`eventsQueue, this`superProperties, this`timedEvents, this`distinctId,
               people`peopleQueue, people`distinctId, people`unidentifiedQueue, persistence.store
      ensures distinctId.Some?
      ensures var (u, after) := Persistence.UnarchiveAll(old(persistence.store.entries),
                                  persistence.store.libraryDirectory, persistence.apiToken);
        && eventsQueue == u.eventsQueue && people.peopleQueue == u.peopleQueue
        && superProperties == u.properties.superProperties && timedEvents == u.properties.timedEvents
        && distinctId == (if u.properties.distinctId.Some? then u.properties.distinctId else Some(defaultId))
        && people.distinctId == u.properties.peopleDistinctId
        && people.unidentifiedQueue == u.properties.peopleUnidentifiedQueue
        && persistence.store.entries == after
    {
      var u := persistence.Unarchive();
      eventsQueue := u.eventsQueue;
      people.peopleQueue := u.peopleQueue;
      superProperties := u.properties.superProperties;
      timedEvents := u.properties.timedEvents;
      distinctId := u.properties.distinctId;
      people.distinctId := u.properties.peopleDistinctId;
      people.unidentifiedQueue := u.properties.peopleUnidentifiedQueue;
      if distinctId.None? {
        distinctId := Some(defaultId);
      }
    }

    /** `archiveProperties`: only the Properties entry. */
    method ArchiveProperties()
      modifies persistence.store
      ensures persistence.store.entries ==
        Persistence.Written(old(persistence.store.entries), PathOf(Persistence.PropertiesArchive),
          persistence.store.writable, Dict(Persistence.PropertiesMap(Snapshot())))
    {
      persistence.ArchiveProperties(Snapshot());
    }

    /** `flush`: when the delegate answers no, nothing changes; otherwise
        the events queue is flushed, then the people queue (behind the
        back-off the first flush left), then everything is archived. */
    method Flush(willFlush: Option<bool>, env: Flusher.Environment)
      modifies this`eventsQueue, people`peopleQueue, persistence.store,
               flushInstance`networkConsecutiveFailures, flushInstance`networkRequestsAllowedAfterTime
      ensures willFlush == Some(false) ==>
        && eventsQueue == old(eventsQueue) && people.peopleQueue == old(people.peopleQueue)
        && flushInstance.State() == old(flushInstance.State())
        && persistence.store.entries == old(persistence.store.entries)
      ensures willFlush != Some(false) ==>
        var e := Flusher.GatedFlush(old(eventsQueue), old(flushInstance.State()), Flusher.Events, env);
        var p := Flusher.GatedFlush(old(people.peopleQueue), e.backoff, Flusher.People, env);
        && eventsQueue == e.rest && people.peopleQueue == p.rest
        && flushInstance.State() == p.backoff
        && persistence.store.entries ==
             Persistence.ArchiveAll(old(persistence.store.entries), persistence.store.libraryDirectory,
               persistence.store.writable, persistence.apiToken, e.rest, p.rest, Snapshot())
    {
      if willFlush == Some(false) {
        return;
      }
      eventsQueue := flushInstance.FlushEventsQueue(eventsQueue, env);
      people.peopleQueue := flushInstance.FlushPeopleQueue(people.peopleQueue, env);
      Archive();
    }

    /** `track`, then archive the events queue. */
    method Track(event: Option<string>, properties: Option<Properties>, now: int)
      modifies this`eventsQueue, this`timedEvents, persistence.store
      ensures TrackedFrom(old(eventsQueue), old(timedEvents), event, properties, now)
      ensures persistence.store.entries ==
        Persistence.Written(old(persistence.store.entries), PathOf(Persistence.EventsArchive),
          persistence.store.writable, Persistence.EncodeQueue(eventsQueue))
    {
      eventsQueue, timedEvents := Tracking.Track(apiToken, event, properties, eventsQueue, timedEvents,
                                                 automaticProperties, superProperties, distinctId, now);
      persistence.ArchiveEvents(eventsQueue);
    }

    /** `trackPushNotification`: tracks only a well-formed Mixpanel push
        payload. */
    method TrackPushNotification(userInfo: Option<Properties>, event: string, now: int)
      modifies this`eventsQueue, this`timedEvents, persistence.store
      ensures PushProperties(userInfo).None? ==>
        eventsQueue == old(eventsQueue) && timedEvents == old(timedEvents)
        && persistence.store.entries == old(persistence.store.entries)
      ensures PushProperties(userInfo).Some? ==>
        && TrackedFrom(old(eventsQueue), old(timedEvents), Some(event), PushProperties(userInfo), now)
        && persistence.store.entries ==
             Persistence.Written(old(persistence.store.entries), PathOf(Persistence.EventsArchive),
               persistence.store.writable, Persistence.EncodeQueue(eventsQueue))
    {
      var properties := PushProperties(userInfo);
      if properties.Some? {
        Track(Some(event), properties, now);
      }
    }

    /** `trackPushNotification` called without `event:`, which takes the
        default event name `$campaign_received`. */
    method TrackPushNotificationDefault(userInfo: Option<Properties>, now: int)
      modifies this`eventsQueue, this`timedEvents, persistence.store
      ensures PushProperties(userInfo).None? ==>
        eventsQueue == old(eventsQueue) && timedEvents == old(timedEvents)
        && persistence.store.entries == old(persistence.store.entries)
      ensures PushProperties(userInfo).Some? ==>
        && TrackedFrom(old(eventsQueue), old(timedEvents), Some("$campaign_received"), PushProperties(userInfo), now)
        && persistence.store.entries ==
             Persistence.Written(old(persistence.store.entries), PathOf(Persistence.EventsArchive),
               persistence.store.writable, Persistence.EncodeQueue(eventsQueue))
    {
      TrackPushNotification(userInfo, "$campaign_received", now);
    }

    /** `appLinksNotificationRaised`: tracks the three app-link events. */
    method AppLinksNotificationRaised(userInfo: Option<Properties>, now: int)
      modifies this`eventsQueue, this`timedEvents, persistence.store
      ensures AppLinkEvent(userInfo).None? ==>
        eventsQueue == old(eventsQueue) && timedEvents == old(timedEvents)
        && persistence.store.entries == old(persistence.store.entries)
      ensures AppLinkEvent(userInfo).Some? ==>
        var (name, args) := AppLinkEvent(userInfo).value;
        && TrackedFrom(old(eventsQueue), old(timedEvents), Some(name), Some(args), now)
        && persistence.store.entries ==
             Persistence.Written(old(persistence.store.entries), PathOf(Persistence.EventsArchive),
               persistence.store.writable, Persistence.EncodeQueue(eventsQueue))
    {
      var e := AppLinkEvent(userInfo);
      if e.Some? {
        Track(Some(e.value.0), Some(e.value.1), now);
      }
    }

    /** `time(event:)` */
    method Time(event: Option<string>, now: int)
      modifies this`timedEvents
      ensures timedEvents == Tracking.TimeEvent(event, old(timedEvents), now)
    {
      timedEvents := Tracking.TimeEvent(event, timedEvents, now);
    }

    method ClearTimedEvents()
      modifies this`timedEvents
      ensures timedEvents == map[]
    {
      timedEvents := map[];
    }

    function CurrentSuperProperties(): Properties
      reads this
    {
      superProperties
    }

    method ClearSuperProperties()
      modifies this`superProperties, persistence.store
      ensures superProperties == map[]
      ensures persistence.store.entries ==
        Persistence.Written(old(persistence.store.entries), PathOf(Persistence.PropertiesArchive),
          persistence.store.writable, Dict(Persistence.PropertiesMap(Snapshot())))
    {
      superProperties := map[];
      ArchiveProperties();
    }

    /** `registerSuperProperties`: a nil map changes nothing. */
    method RegisterSuperProperties(properties: Option<Properties>)
      modifies this`superProperties, persistence.store
      ensures properties.None? ==>
        superProperties == old(superProperties) && persistence.store.entries == old(persistence.store.entries)
      ensures properties.Some? ==>
        && superProperties == old(superProperties) + properties.value
        && persistence.store.entries ==
             Persistence.Written(old(persistence.store.entries), PathOf(Persistence.PropertiesArchive),
               persistence.store.writable, Dict(Persistence.PropertiesMap(Snapshot())))
    {
      if properties.None? {
        return;
      }
      superProperties := Tracking.RegisterSuperProperties(properties.value, superProperties);
      ArchiveProperties();
    }

    /** `registerSuperPropertiesOnce`: a nil map changes nothing. */
    method RegisterSuperPropertiesOnce(properties: Option<Properties>, defaultValue: Option<Value>)
      modifies this`superProperties, persistence.store
      ensures properties.None? ==>
        superProperties == old(superProperties) && persistence.store.entries == old(persistence.store.entries)
      ensures properties.Some? ==>
        && superProperties.Keys == old(superProperties).Keys + properties.value.Keys
        && (forall k :: k in properties.value ==>
              superProperties[k] == if Tracking.MayOverwrite(old(superProperties), k, defaultValue)
                                    then properties.value[k] else old(superProperties)[k])
        && (forall k :: k in old(superProperties) && k !in properties.value ==>
              superProperties[k] == old(superProperties)[k])
        && persistence.store.entries ==
             Persistence.Written(old(persistence.store.entries), PathOf(Persistence.PropertiesArchive),
               persistence.store.writable, Dict(Persistence.PropertiesMap(Snapshot())))
    {
      if properties.None? {
        return;
      }
      superProperties := Tracking.RegisterSuperPropertiesOnce(properties.value, superProperties, defaultValue);
      ArchiveProperties();
    }

    method UnregisterSuperProperty(propertyName: string)
      modifies this`superProperties, persistence.store
      ensures superProperties == Tracking.UnregisterSuperProperty(propertyName, old(superProperties))
      ensures persistence.store.entries ==
        Persistence.Written(old(persistence.store.entries), PathOf(Persistence.PropertiesArchive),
          persistence.store.writable, Dict(Persistence.PropertiesMap(Snapshot())))
    {
      superProperties := Tracking.UnregisterSuperProperty(propertyName, superProperties);
      ArchiveProperties();
    }
  }
}

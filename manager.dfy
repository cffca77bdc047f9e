/** The registry of instances: every instance created is stored under its
    name and becomes the main instance. */
module MixpanelManager {
  import opened Values
  import Persistence
  import MixpanelInstance

  class MixpanelManager {
    var instances: map<string, MixpanelInstance.MixpanelInstance>
    var mainInstance: MixpanelInstance.MixpanelInstance?

    constructor ()
      ensures instances == map[] && mainInstance == null
    {
      instances := map[];
      mainInstance := null;
    }

    /** Create an instance for `apiToken`, register it under `instanceName`
        (replacing any instance of that name) and make it the main one;
        every other name keeps its instance. */
    method InitWithToken(apiToken: string, launchNotification: Option<Properties>, flushInterval: real,
                         instanceName: string, automaticProperties: Properties,
                         automaticPeopleProperties: Properties, defaultId: string,
                         store: Persistence.Store, now: int)
      returns (instance: MixpanelInstance.MixpanelInstance)
      modifies this, store
      ensures fresh(instance)
      ensures instance.apiToken == if |apiToken| > 0 then apiToken else ""
      ensures instance.persistence.store == store
      ensures mainInstance == instance
      ensures instances == old(instances)[instanceName := instance]
      ensures instanceName in instances && instances[instanceName] == instance
      ensures forall name :: name in old(instances) && name != instanceName ==>
        name in instances && instances[name] == old(instances)[name]
    {
      instance := new MixpanelInstance.MixpanelInstance(Some(apiToken), launchNotification, flushInterval,
                                                        automaticProperties, automaticPeopleProperties,
                                                        defaultId, store, now);
      mainInstance := instance;
      instances := instances[instanceName := instance];
    }

    /** The instance registered under `instanceName`, if any. */
    method GetInstanceWithName(instanceName: string) returns (instance: Option<MixpanelInstance.MixpanelInstance>)
      ensures instance.Some? <==> instanceName in instances
      ensures instance.Some? ==> instance.value == instances[instanceName]
    {
      if instanceName !in instances {
        return None;
      }
      instance := Some(instances[instanceName]);
    }

    method GetMainInstance() returns (instance: MixpanelInstance.MixpanelInstance?)
      ensures instance == mainInstance
    {
      instance := mainInstance;
    }

    /** Only the main instance changes; the registry stays as it was. */
    method SetMainInstance(newMainInstance: MixpanelInstance.MixpanelInstance)
      modifies this`mainInstance
      ensures mainInstance == newMainInstance
      ensures instances == old(instances)
    {
      mainInstance := newMainInstance;
    }
  }
}

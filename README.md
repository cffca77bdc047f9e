# mixpanel-swift record pipeline, modelled in Dafny

This project models the in-memory record pipeline of the Mixpanel Swift SDK.

- **Producers** build records and append them to bounded queues:
  - `track` adds events to a 5000-record events queue;
  - the People API adds profile updates to a 500-record staging queue, or hands them to a delegate once the user is identified.
- **Super properties and timed events** are edited as property maps.
- **A flusher** drains the queues in batches of 50 behind a time gate. It keeps a consecutive-failure counter and an "allowed after" time, fed by Retry-After and a clamped exponential back-off.
- **Persistence** mirrors the queues and properties into three token-named entries of a store.
- **A registry** maps instance names to instances.
- **A logger** fans messages of enabled levels out to its sinks.

Each block that the SDK runs on its serial dispatch queue is modelled as one atomic step.

Modules follow the Swift files:

| file | module | Swift source |
|---|---|---|
| `values.dfy` | `Values` | property values, `Properties`, `Queue` (shared types) |
| `queues.dfy` | `Queues` | append with drop-oldest, shared by the events and staging queues |
| `tracking.dfy` | `Tracking` | `Tracking.swift` |
| `flush.dfy` | `Flush` | `Flush.swift` (the drain specification and the `Flush` class) |
| `flushing.dfy` | `Flushing` | `Flushing.swift` (the earlier flusher, proved against the same specification) |
| `people.dfy` | `People` | `People.swift` |
| `persistence.dfy` | `Persistence` | `Persistence.swift`, over an abstract store |
| `instance.dfy` | `MixpanelInstance` | `MixpanelInstance.swift` |
| `manager.dfy` | `MixpanelManager` | `Mixpanel.swift` |
| `logmessage.dfy` | `LogMessages` | `LogMessage.swift` |
| `logger.dfy` | `Logger` | `Logger.swift` |

The model represents the outside world as follows:

- **Network.** Each request is answered by an input `Exchange`. It carries an outcome (`Success` or `Failure`, each with an optional Retry-After in seconds), the clock reading, and the back-off jitter in `[0, 29]`.
- **JSON encoder.** An abstract partial function from a batch to a body.
- **Clock.** A parameter `now`, in whole seconds.
- **File system.** A `Store` object: a map from paths to blobs that either decode or are corrupt, the library directory (if any), and whether writes succeed.

## Model

| member | source | states |
|---|---|---|
| Queues.BoundedAppend | Mixpanel/Tracking.swift:75-80 | The new record is last; below capacity it is appended, at capacity the oldest is dropped; a queue within its bound stays within it |
| Queues.AppendAllKeepsNewest | Mixpanel/People.swift:77-80 | Appending any number of records to a bounded queue keeps exactly the newest `capacity` of old-plus-new, in order |
| Tracking.MergeInto | Mixpanel/Tracking.swift:11-15 | `+=`: every key of the right map takes its value there, keys only on the left keep theirs, nothing else appears |
| Tracking.PropertyTypesValid | Mixpanel/Tracking.swift:24-40 | Properties are acceptable iff absent or no value is `Data` (the other value kinds are the allow-list) |
| Tracking.EventName | Mixpanel/Tracking.swift:50-53 | A nil or empty event name becomes `mp_event`; any other name is kept; the result is never empty |
| Tracking.EventPropertiesPrecedence | Mixpanel/Tracking.swift:69-72 | Per-call properties win over every other layer; super properties win over the library's keys and the automatic properties |
| Tracking.EventPropertiesLibraryKeys | Mixpanel/Tracking.swift:61-68 | `token` and `time` are always present; `token`, `time` and `distinct_id` hold the library's values unless a super or per-call property has the key |
| Tracking.EventPropertiesAutomatic | Mixpanel/Tracking.swift:59-60 | An automatic property shows through wherever neither the library nor a higher layer has the key |
| Tracking.AssembleEventProperties | Mixpanel/Tracking.swift:58-73 | The layering loop builds exactly automatic + core + super + per-call properties, each layer overriding the earlier ones |
| Tracking.Track | Mixpanel/Tracking.swift:42-81 | The record `{event, properties}` is appended with drop-oldest at 5000; a timer holding a start time is consumed; the 5000 bound is preserved |
| Tracking.TimedEventIsConsumedOnce | Mixpanel/Tracking.swift:58-66 | Timing then tracking an event gives `$duration = now - start` and removes that timer only, so a second track carries no `$duration` of its own |
| Tracking.RegisterSuperProperties | Mixpanel/Tracking.swift:83-86 | The new keys overwrite, old keys not mentioned keep their values |
| Tracking.RegisterSuperPropertiesOnce | Mixpanel/Tracking.swift:88-99 | A key is written only if absent or `isEqual:` to the default value; other keys are untouched |
| Values.SameObjectReflexive | Mixpanel/Tracking.swift:95 | The `isEqual:` comparison holds between a value and itself, including nested arrays and dictionaries |
| Values.SameObjectSymmetric | Mixpanel/Tracking.swift:95 | The `isEqual:` comparison gives the same answer in either order |
| Values.NumbersMatchAcrossKinds | Mixpanel/Tracking.swift:95 | 1, 1.0 and `true` are `isEqual:` though structurally different, and a number never equals a string |
| Tracking.MayOverwriteOwnDefault | Mixpanel/Tracking.swift:93-97 | A key that holds the default itself is always rewritten |
| Tracking.MayOverwriteComparesObjects | Mixpanel/Tracking.swift:93-97 | A stored 1.0 is rewritten under a default of 1, a stored "1" is not, and without a default only an absent key is written |
| Tracking.UnregisterSuperProperty | Mixpanel/Tracking.swift:101-103 | Only the named key is removed; a missing key changes nothing |
| Tracking.TimeEvent | Mixpanel/Tracking.swift:109-116 | A nil or empty name changes nothing; otherwise the name maps to the start time, stored as a `Double` of seconds, and other timers are untouched |
| Flush.RetryBackOffTime | Mixpanel/Flush.swift:176-179 | The back-off lies in [60, 600]; from the first failure on it is between `min(600, 2^(f-1)*60)` and that plus the jitter |
| Flush.RetryBackOffTimeMonotonic | Mixpanel/Flush.swift:176-179 | More consecutive failures never give a shorter back-off |
| Flush.RetryDeadline | Mixpanel/Flush.swift:163-174 | The next allowed time is `now + Retry-After` (zero when absent), raised to at least `now + back-off` only when there were more than one consecutive failures |
| Flush.HandleResponse | Mixpanel/Flush.swift:141-161 | A failure adds exactly one to the failure counter, a success resets it to zero; the retry delay is then recomputed |
| Flush.DrainShape | Mixpanel/Flush.swift:89-112 | At most one request fails per drain, each request uses the next attempt number, and what stays queued is exactly the suffix after the acknowledged batches |
| Flush.GatedFlush | Mixpanel/Flush.swift:54-60 | Before the allowed time nothing is sent and the queue and back-off are unchanged |
| Flush.DrainSendsChunks | Mixpanel/Flush.swift:90-95 | The i-th request carries exactly the i-th batch of 50 records of the queue, in queue order |
| Flush.DrainRemovesOnlyAcknowledged | Mixpanel/Flush.swift:98-104 | Every batch that was removed was answered with success |
| Flush.DrainStopsAtFirstFailure | Mixpanel/Flush.swift:95-110 | After a failed request its batch heads what stays queued; when the drain stops without a failure, the head batch could not be encoded |
| Flush.DrainBackoff | Mixpanel/Flush.swift:141-174 | Nothing sent leaves the back-off as it was; all acknowledged resets the counter; a final failure leaves the counter one above its value before that request and the deadline recomputed from that response |
| Flush.AlwaysSuccessEmptiesQueue | Mixpanel/Flush.swift:89-112 | When every request succeeds, K records go out in ceil(K/50) requests and the queue ends empty |
| Flush.SixtyRecordsTakeTwoRequests | Mixpanel/Flush.swift:89-112 | Sixty records go out as the first 50 and then the last 10, and the queue ends empty |
| Flush.TwoServerErrorsBackOff | Mixpanel/Flush.swift:147-174 | After two consecutive failures the counter is 2, the next allowed time is at least 120 seconds away, and the record is still queued |
| Flush.RetryAfterHonouredOnSuccess | MixpanelDemo/MixpanelDemoTests/MixpanelDemoTests.swift:39-57 | A successful response with Retry-After 60 empties the queue and still delays the next request by 60 seconds |
| Flush.SingleFailureImposesNoDelay | Mixpanel/Flush.swift:163-174 | A single failure without Retry-After sets the counter to 1 and imposes no delay |
| Flush.Flush.FlushEventsQueue | Mixpanel/Flush.swift:46-48 | The events queue and back-off become those of the gated drain |
| Flush.Flush.FlushPeopleQueue | Mixpanel/Flush.swift:50-52 | The people queue and back-off become those of the gated drain |
| Flush.Flush.FlushQueue | Mixpanel/Flush.swift:54-60 | The gate, then the drain loop: the result is the gated drain |
| Flush.Flush.DrainQueue | Mixpanel/Flush.swift:89-112 | The drain loop computes exactly the remaining queue and back-off of the drain specification |
| Flush.Flush.FlushRequestHandler | Mixpanel/Flush.swift:141-161 | Reports success exactly for a success, and updates the counter and allowed time as the response handler specifies |
| Flush.Flush.UpdateRetryDelay | Mixpanel/Flush.swift:163-174 | The allowed time becomes the retry deadline for the current counter |
| Flushing.Flushing.FlushEventsQueue | Mixpanel/Flushing.swift:46-48 | The events queue and back-off become those of the gated drain |
| Flushing.Flushing.FlushPeopleQueue | Mixpanel/Flushing.swift:50-52 | The people queue and back-off become those of the gated drain |
| Flushing.Flushing.FlushQueue | Mixpanel/Flushing.swift:54-60 | Before the allowed time nothing is sent; otherwise the drain runs |
| Flushing.Flushing.FlushQueueAsync | Mixpanel/Flushing.swift:89-112 | The earlier drain loop computes the same remaining queue and back-off as the drain specification |
| Flushing.Flushing.FlushRequestHandler | Mixpanel/Flushing.swift:140-157 | Failure counter plus one on failure, reset on success, then the retry delay |
| Flushing.Flushing.UpdateRetryDelay | Mixpanel/Flushing.swift:159-175 | The allowed time is `now + max(Retry-After, back-off)` past one failure, `now + Retry-After` otherwise |
| People.ActionPayload | Mixpanel/People.swift:61-71 | `$unset` stores `properties["$properties"]`; `$set`/`$set_once` store the automatic people properties overridden by the user's; other actions store the user's properties only |
| People.PeopleRecord | Mixpanel/People.swift:54-71 | Every record has `$token` and `$time` (milliseconds), `$ignore_time` exactly when set, and the action's payload |
| People.AllNumbersIffEveryValueNumeric | Mixpanel/People.swift:145-152 | `increment`'s filter keeps no value (so the record goes ahead) exactly when every value is a number, a bridged boolean included; one non-number anywhere stops it |
| People.AllArraysIffEveryValueArray | Mixpanel/People.swift:177-184 | `union`'s filter keeps no value (so the record goes ahead) exactly when every value is an array; one non-array anywhere stops it |
| People.ChargeTransaction | Mixpanel/People.swift:194-204 | The transaction holds `$amount` and `$time` unless the supplied properties override them, and every supplied property |
| People.HexEncode | Mixpanel/People.swift:88-98 | Two characters per byte |
| People.HexRoundTrip | Mixpanel/People.swift:88-98 | Decoding the hex string gives back the token bytes, so distinct tokens give distinct strings |
| People.HexEncodeAppend | Mixpanel/People.swift:91-93 | The encoding of a concatenation is the concatenation of the encodings |
| People.HexEncodeFourPieces | Mixpanel/People.swift:91-93 | A token cut into four pieces encodes as the four encodings, in order |
| People.SampleDeviceToken | MixpanelDemo/MixpanelDemoTests/MixpanelPeopleTests.swift:98-111 | The bytes of "0123456789abcdef" encode as "30313233343536373839616263646566" |
| People.StagingKeepsNewest | Mixpanel/People.swift:77-80 | After 505 records are staged into an empty queue it holds the last 500, records 5 to 504 |
| People.People.AddPeopleRecordToQueueWithAction | Mixpanel/People.swift:49-85 | When identified, the record with `$distinct_id` goes to the delegate and the staging queue is unchanged; otherwise it is appended with drop-oldest at 500 |
| People.People.AddPushDeviceToken | Mixpanel/People.swift:88-98 | `$union` of `$ios_devices: [hex token]` |
| People.People.PushTokenString | Mixpanel/People.swift:91-93 | The loop builds exactly the hex encoding of the token |
| People.People.RemovePushDeviceToken | Mixpanel/People.swift:100-103 | `$unset` of `$ios_devices` |
| People.People.Set | Mixpanel/People.swift:105-112 | Nil records nothing; otherwise a `$set` record |
| People.People.SetProperty | Mixpanel/People.swift:114-121 | A nil name or value records nothing; otherwise `$set` of the one pair |
| People.People.SetOnce | Mixpanel/People.swift:123-130 | Nil records nothing; otherwise a `$set_once` record |
| People.People.Unset | Mixpanel/People.swift:132-138 | Nil records nothing; otherwise `$unset` of the names |
| People.People.Increment | Mixpanel/People.swift:140-152 | Nil or any non-numeric value records nothing; otherwise an `$add` record |
| People.People.IncrementBy | Mixpanel/People.swift:154-161 | A nil name or amount records nothing; otherwise `$add` of the one pair |
| People.People.Append | Mixpanel/People.swift:163-170 | Nil records nothing; otherwise an `$append` record |
| People.People.Union | Mixpanel/People.swift:172-184 | Nil or any non-array value records nothing; otherwise a `$union` record |
| People.People.Merge | Mixpanel/People.swift:186-192 | Nil records nothing; otherwise a `$merge` record |
| People.People.TrackCharge | Mixpanel/People.swift:194-204 | A nil amount records nothing; otherwise `$append` of the transaction to `$transactions` |
| People.People.ClearCharges | Mixpanel/People.swift:206-208 | `$set` of an empty `$transactions` |
| People.People.DeleteUser | Mixpanel/People.swift:210-212 | `$delete` with an empty map |
| Persistence.FileName | Mixpanel/Persistence.swift:37-38 | The name reads as `mixpanel-`, the token, `-`, then the raw type name (Events, People or Properties) |
| Persistence.FileNameInjective | Mixpanel/Persistence.swift:33-38 | Distinct (token, type) pairs get distinct names |
| Persistence.FilePath | Mixpanel/Persistence.swift:33-47 | No path when the library directory cannot be found; otherwise the path is the directory, `/`, then the entry's file name. `Persistence.Persistence.FilePathWithType` is this path for the instance's token and store |
| Persistence.FilePathInjective | Mixpanel/Persistence.swift:37-47 | Within one directory, distinct (token, type) pairs get distinct paths |
| Persistence.QueueRoundTrip | Mixpanel/Persistence.swift:124-130 | An archived queue reads back as the same queue |
| Persistence.PropertiesMap | Mixpanel/Persistence.swift:63-71 | The Properties entry holds the two maps and the staged queue, and each id exactly when it is set |
| Persistence.DecodeProperties | Mixpanel/Persistence.swift:132-150 | A missing or non-dictionary entry gives every default |
| Persistence.DecodePropertiesWithoutKey | Mixpanel/Persistence.swift:132-150 | Each field defaults on its own: dropping one key resets only that key's field to its default, and every other field reads as before |
| Persistence.DecodePropertiesWrongKind | Mixpanel/Persistence.swift:132-150 | A value of the wrong kind under one key resets only that key's field to its default, and every other field reads as before |
| Persistence.PropertiesRoundTrip | Mixpanel/Persistence.swift:63-71 | What `archiveProperties` stores reads back as the same five fields |
| Persistence.QueueOrEmpty | Mixpanel/Persistence.swift:124-130 | A missing or wrongly shaped entry gives an empty queue |
| Persistence.Load | Mixpanel/Persistence.swift:111-122 | A decodable entry is returned; a corrupt one is deleted and reads as absent |
| Persistence.Written | Mixpanel/Persistence.swift:73-84 | A write without a directory, or one that fails, leaves the store as it was |
| Persistence.Persistence.Archive | Mixpanel/Persistence.swift:49-53 | Writes the Events, People and Properties entries in that order |
| Persistence.Persistence.ArchiveEvents | Mixpanel/Persistence.swift:55-57 | Writes the Events entry only |
| Persistence.Persistence.ArchivePeople | Mixpanel/Persistence.swift:59-61 | Writes the People entry only |
| Persistence.Persistence.ArchiveProperties | Mixpanel/Persistence.swift:63-71 | Writes the five-field Properties entry only |
| Persistence.Persistence.ArchiveToFile | Mixpanel/Persistence.swift:73-84 | A missing path or failed write changes nothing |
| Persistence.Persistence.Unarchive | Mixpanel/Persistence.swift:86-109 | Reads Events, People and Properties in that order, deleting corrupt entries on the way |
| Persistence.Persistence.UnarchiveWithFilePath | Mixpanel/Persistence.swift:111-122 | A corrupt entry is deleted and reads as absent |
| Persistence.Persistence.UnarchiveWithType | Mixpanel/Persistence.swift:152-165 | The load of the entry of that type |
| Persistence.Persistence.UnarchiveEvents | Mixpanel/Persistence.swift:124-126 | The events entry as a queue, or empty |
| Persistence.Persistence.UnarchivePeople | Mixpanel/Persistence.swift:128-130 | The people entry as a queue, or empty |
| Persistence.Persistence.UnarchiveProperties | Mixpanel/Persistence.swift:132-150 | The five fields, each with its own default |
| Persistence.ArchiveThenUnarchive | Mixpanel/Persistence.swift:49-150 | With a directory and working writes, unarchiving what was just archived gives back both queues and all five fields and deletes nothing |
| Persistence.GarbageGivesDefaults | Mixpanel/Persistence.swift:111-150 | Three corrupt entries give every default and are all deleted |
| MixpanelInstance.StampAll | Mixpanel/MixpanelInstance.swift:239-242 | Each staged record, in order, gains `$distinct_id` and keeps its other keys |
| MixpanelInstance.PushProperties | Mixpanel/MixpanelInstance.swift:358-371 | A push is tracked iff `mp` is a map holding both `m` and `c`; the properties are `campaign_id = c`, `message_id = m`, `message_type = "push"` |
| MixpanelInstance.AppLinkEvent | Mixpanel/MixpanelInstance.swift:181-192 | Exactly the three app-link names are tracked, as `$` + name with the event arguments as properties |
| MixpanelInstance.MixpanelInstance.constructor | Mixpanel/MixpanelInstance.swift:72-95 | A nil or empty token leaves the token empty; the automatic properties and automatic people properties are the ones given; the flusher is new, with the given interval and a zero failure count and allowed-after time; every field is what unarchiving the store gives, with the default distinct id when none is stored; a well-formed launch push is then tracked as `$app_open` and the events entry archived, while any other launch notification leaves the loaded state as it is |
| MixpanelInstance.MixpanelInstance.Launch | Mixpanel/MixpanelInstance.swift:89-94 | Every field becomes what unarchiving the store gives, with the default distinct id when none is stored; a well-formed launch push is then tracked as `$app_open` and the events entry archived, and any other launch notification changes nothing further |
| MixpanelInstance.MixpanelInstance.Identify | Mixpanel/MixpanelInstance.swift:229-249 | A nil or empty id changes nothing; otherwise both ids are set, the staged records move in order to the people queue stamped with the id, staging is emptied, and the state is archived |
| MixpanelInstance.MixpanelInstance.PromoteStaged | Mixpanel/MixpanelInstance.swift:239-243 | The loop appends the stamped staged records to the people queue and empties staging |
| MixpanelInstance.MixpanelInstance.CreateAlias | Mixpanel/MixpanelInstance.swift:251-266 | A blank id or alias changes nothing; otherwise `$create_alias` with both is tracked (consuming its timer) and the events entry archived; then, unless the delegate vetoes, both queues are flushed behind the shared back-off and everything is archived |
| MixpanelInstance.MixpanelInstance.Reset | Mixpanel/MixpanelInstance.swift:268-279 | The default id, empty maps and queues, no people id, then everything is archived |
| MixpanelInstance.MixpanelInstance.Archive | Mixpanel/MixpanelInstance.swift:285-295 | All three entries from the current state |
| MixpanelInstance.MixpanelInstance.Unarchive | Mixpanel/MixpanelInstance.swift:297-309 | Every field from the store; a missing distinct id becomes the default, so it is never nil |
| MixpanelInstance.MixpanelInstance.ArchiveProperties | Mixpanel/MixpanelInstance.swift:311-318 | The Properties entry from the current state |
| MixpanelInstance.MixpanelInstance.Flush | Mixpanel/MixpanelInstance.swift:324-338 | A delegate veto changes nothing; otherwise events then people are flushed, the second behind the back-off the first left, then everything is archived |
| MixpanelInstance.MixpanelInstance.Track | Mixpanel/MixpanelInstance.swift:344-356 | The event is tracked with the instance's state, then the events entry is archived |
| MixpanelInstance.MixpanelInstance.TrackPushNotification | Mixpanel/MixpanelInstance.swift:358-371 | A malformed payload changes nothing; a well-formed one is tracked with its campaign, message and type, and the events entry is archived |
| MixpanelInstance.MixpanelInstance.TrackPushNotificationDefault | Mixpanel/MixpanelInstance.swift:358-359 | Without an event name, a well-formed payload is tracked as `$campaign_received`; a malformed one changes nothing |
| MixpanelInstance.MixpanelInstance.AppLinksNotificationRaised | Mixpanel/MixpanelInstance.swift:181-192 | Any other notification changes nothing; the three app-link events are tracked with their arguments, and the events entry is archived |
| MixpanelInstance.MixpanelInstance.Time | Mixpanel/MixpanelInstance.swift:373-377 | Starts the event's timer |
| MixpanelInstance.MixpanelInstance.ClearTimedEvents | Mixpanel/MixpanelInstance.swift:379-383 | No timers remain |
| MixpanelInstance.MixpanelInstance.ClearSuperProperties | Mixpanel/MixpanelInstance.swift:389-393 | Empty super properties, then the Properties entry is archived |
| MixpanelInstance.MixpanelInstance.RegisterSuperProperties | Mixpanel/MixpanelInstance.swift:395-404 | Nil changes nothing; otherwise the merge, then the Properties entry is archived |
| MixpanelInstance.MixpanelInstance.RegisterSuperPropertiesOnce | Mixpanel/MixpanelInstance.swift:406-418 | Nil changes nothing; otherwise keys are written only where absent or equal to the default, then archived |
| MixpanelInstance.MixpanelInstance.UnregisterSuperProperty | Mixpanel/MixpanelInstance.swift:420-425 | The key is removed, then the Properties entry is archived |
| MixpanelManager.MixpanelManager.InitWithToken | Mixpanel/Mixpanel.swift:44-55 | The new instance is registered under its name, replacing only that entry, and becomes the main instance |
| MixpanelManager.MixpanelManager.GetInstanceWithName | Mixpanel/Mixpanel.swift:57-63 | The registered instance, or nothing for a name never registered |
| MixpanelManager.MixpanelManager.GetMainInstance | Mixpanel/Mixpanel.swift:65-67 | The most recently initialised or set instance |
| MixpanelManager.MixpanelManager.SetMainInstance | Mixpanel/Mixpanel.swift:69-71 | Only the main instance changes; the registry is untouched |
| LogMessages.Components | Mixpanel/LogMessage.swift:27-28 | At least one component, none containing "/" |
| LogMessages.JoinComponents | Mixpanel/LogMessage.swift:27-28 | Splitting on "/" loses nothing: joining the components gives back the path |
| LogMessages.FileOf | Mixpanel/LogMessage.swift:26-31 | The file name never contains "/" |
| LogMessages.FileIsSuffixAfterLastSlash | Mixpanel/LogMessage.swift:26-31 | The file name is the suffix of the path after its last "/" |
| LogMessages.FileOfStep | Mixpanel/LogMessage.swift:26-31 | Dropping a leading character keeps the file name unless the path has no "/" at all |
| LogMessages.FileOfPlainName | Mixpanel/LogMessage.swift:27-31 | A path without "/" is its own file name |
| LogMessages.FileOfDirectory | Mixpanel/LogMessage.swift:27-31 | A path ending in "/" has an empty file name |
| LogMessages.NewLogMessage | Mixpanel/LogMessage.swift:26-35 | The file name from the path; the other fields as given |
| Logger.NewLogMessage | Mixpanel/Logger.swift:42-51 | The file name is the last component of the path and contains no "/" |
| Logger.FanOut | Mixpanel/Logger.swift:108-111 | One delivery per sink, in order |
| Logger.Logger.AddLogging | Mixpanel/Logger.swift:64-66 | The sink is added at the end |
| Logger.Logger.EnableLevel | Mixpanel/Logger.swift:69-71 | Exactly that level is added |
| Logger.Logger.DisableLevel | Mixpanel/Logger.swift:74-76 | Exactly that level is removed |
| Logger.Logger.Deliveries | Mixpanel/Logger.swift:80-111 | A message is delivered iff its level is enabled, then once to every sink in order, carrying its level, text, function name and the file name of its path |
| Logger.Logger.LogDebug | Mixpanel/Logger.swift:80-84 | Delivered iff Debug is enabled, tagged Debug |
| Logger.Logger.LogInfo | Mixpanel/Logger.swift:87-91 | Delivered iff Info is enabled, tagged Info |
| Logger.Logger.LogWarn | Mixpanel/Logger.swift:94-98 | Delivered iff Warning is enabled, tagged Warning |
| Logger.Logger.LogError | Mixpanel/Logger.swift:101-105 | Delivered iff Error is enabled, tagged Error |
| Logger.Logger.ForwardLogMessage | Mixpanel/Logger.swift:108-111 | The loop delivers the message once to each sink, in registration order |

## Where the code and its documented behaviour differ

The SDK's documented behaviour and its code disagree in two places. The model follows the code in each case.

- **Back-off after a single failure.** The documented behaviour is that one failure waits 60 to 90 seconds, because the back-off applies on every failure. The code adds the exponential back-off only when there has been more than one consecutive failure (`Mixpanel/Flush.swift:167`). `Flush.SingleFailureImposesNoDelay` states the consequence: one failure without Retry-After imposes no delay.
- **Validation.** The documented behaviour is that a disallowed property value is rejected before enqueueing. The code only asserts in debug builds, and the event is still tracked. `Tracking.PropertyTypesValid` is the check, and `Tracking.Track` does not depend on it.

## Left out

- Timers: the periodic flush timer, `flushInterval` side effects, and the application lifecycle notifications. Background tasks and the network activity indicator are left out too. None of these changes the queues except through `flush`, which is modelled.
- The HTTP client.
  - The request body, gzip and the `ip` flag are left out. `Network.swift` and `NetworkingLayer.swift` are not part of this model.
  - A request is summarised by its outcome and its Retry-After header.
  - A Retry-After header is taken as whole non-negative seconds (`Option<nat>`). Fractional or negative values, which `Double(...)` accepts (`Mixpanel/Flush.swift:165`), are not modelled. A header that does not parse as a number crashes the source (a forced unwrap) and is not modelled either.
  - `Flush.Drain`, `Flush.Flush.DrainQueue` and `Flushing.Flushing.FlushQueueAsync` assume every encoded batch gets a response. In the source, a request that cannot be built (a malformed server URL) returns without calling its completion (`Mixpanel/Network.swift:49-51`, `Mixpanel/NetworkingLayer.swift:46-48`). The flush then waits forever on its semaphore and the serial queue stalls. That hang is not modelled.
  - The server URL (`Flushing.serverURL`, and `BasePath.MixpanelAPI` behind `MixpanelInstance.serverURL`) only picks the request's base address. The environment's responses stand for whichever server is configured, so the URL is not part of the state.
- JSON encoding is an abstract partial function. The keyed archiver is modelled as a lossless codec: an entry decodes or is corrupt.
- Times are whole seconds. `$duration` is the exact difference rather than a `%.3f`-rounded single-precision float. `$time` in people records is `now * 1000` rather than a rounded floating-point value.
- `MPAssert` traps only in debug builds. Every call is modelled by the release path that follows it, never as a crash:
  - The nil-argument asserts of `set`, `set(property:to:)`, `setOnce`, `unset`, `increment`, `increment(property:by:)`, `append`, `union`, `merge` and `trackCharge` (`Mixpanel/People.swift:106`, 115-116, 124, 133, 141, 155-156, 164, 173, 187, 195). `People.People.Set`, `People.People.SetProperty`, `People.People.SetOnce`, `People.People.Unset`, `People.People.Increment`, `People.People.IncrementBy`, `People.People.Append`, `People.People.Union`, `People.People.Merge` and `People.People.TrackCharge` take the `guard` that follows and record nothing.
  - `increment`'s `MPAssert(false, …)` (`Mixpanel/People.swift:148`) fires in debug builds when a value is not a number. `People.People.Increment` models the `return` after it.
  - `union`'s `MPAssert(true, …)` (`Mixpanel/People.swift:180`) never fires. `People.People.Union` silently records nothing, as the code does.
  - `assertPropertyTypes` (`Mixpanel/Tracking.swift:24-39`) is modelled as the predicate it checks, `Tracking.PropertyTypesValid`. It does not stop the record.
- The device's automatic properties and `defaultDistinctId()` (vendor identifier or UUID) are inputs.
- The People delegate.
  - `addPeopleObject` has no implementation in these sources. `People.People` methods therefore return the record they hand to it, as `delegated`.
  - The `archivePeople` callback is not modelled.
- `peopleQueue` is declared on `People.People`, because `MixpanelInstance.swift` reads and clears `people.peopleQueue`.
- Persistence is called statically with a token in `MixpanelInstance.swift`. The model calls it through the instance's `Persistence` object, which holds the same token.
- Serial dispatch queues and concurrency. Each async block is one atomic step, and interleavings between blocks are not modelled.
- The Flush delegate's `updateNetworkActivityIndicator` and completion callbacks are left out. The delegate's `mixpanelWillFlush` answer is an input to `MixpanelInstance.MixpanelInstance.Flush`.
- Logger state is static in the source and is one `Logger.Logger` object here. Messages are strings: the `@autoclosure` is evaluated by the caller.
- Sinks are known by identity only. What a sink does with a message (`Logging.swift`) is not part of this model.
- `Flush.Flush.FlushQueue`: `flushOnBackground` and the background-task wrapper are left out.
- `MixpanelInstance.MixpanelInstance.Time`: `Tracking.swift` calls this operation `timeEvent`, while `MixpanelInstance.swift` calls it as `time(event:)`. The model uses the `Tracking.swift` definition.

# Event composition and gating of the Sensors Analytics Android SDK

This project models, in Dafny, the core of `AbstractSensorsDataAPI`: how the SDK
turns a tracking call into the record it hands to its persistent message queue.
It covers:

- **The event-timer registry** (`mTrackTimer`). A track call reads the timer for
  its name and removes it. Going to the background banks the running time of
  every unpaused timer except `$AppEnd`'s, less the session interval. Coming to
  the foreground restarts every timer's clock. Pause and resume act only when
  the timer's state differs from the request.
- **Record assembly** (`trackEvent`, `trackEventInternal`). This covers:
  - trimming the `_SATimer` decoration from event names;
  - the `event_time` rules of `$AppStart` and `$AppEnd`;
  - lifting `$project`, `$token` and `$time` out of the properties;
  - the identity fields;
  - the library block and `$lib_method`;
  - forcing `$device_id` back to the device's value;
  - the once-only `$lib_plugin_version` tag.
- **Web-view events** (`trackEventH5`). The SDK reconciles a ready-made JSON
  document: it strips the transport keys, lifts the same reserved keys, and
  runs the signup transition. That transition commits a new login id only when
  the id differs from both the stored login id and the anonymous id. A
  track-kind signup takes the `$lib_plugin_version` tag before that decision,
  so one that does not commit still uses up the once-only tag.
- **The property sanitiser** (`isEnterDb`). It runs only when a track callback is
  registered. It rejects bad keys and value kinds, caps long strings (8191
  characters, or 16382 for `app_crashed_reason`) with a trailing `$`, and
  formats dates.
- **Consent gating** (`transformEventTaskQueue`, `transformH5TaskQueue`,
  `transformItemTaskQueue`). While data collection is disabled, calls are
  stamped with the call instant where the source does so and queued for
  replay. Replaying them runs the same composition.
- **Item events** (`trackItemEvent`): the argument checks and the `$project`
  lift.
- **Small flag logic**: `enableAutoTrack`, `isFirstDay` and `getPluginVersion`.

Layout, one module per file:

| module | file | holds |
|---|---|---|
| `Wrappers`, `Json`, `Names` | `wrappers.dfy`, `json.dfy`, `names.dfy` | `Option`, the JSON value model, the reserved names |
| `Timers` | `timers.dfy` | the timer registry as values and its sweeps |
| `Collab` | `collab.dfy` | the collaborators whose code is not modelled, as uninterpreted functions |
| `Events` | `events.dfy` | event kinds, configuration, per-call context, records and queue entries |
| `Sanitizer` | `sanitizer.dfy` | `isEnterDb`: its specification `EnterDb` and the looping method `IsEnterDb` |
| `Flags` | `flags.dfy` | first-day flag, plugin-version tag, auto-track mask |
| `Records` | `records.dfy` | `trackEvent`'s request and `trackEventInternal`'s record |
| `Web` | `web.dfy` | `trackEventH5` |
| `Items` | `items.dfy` | `trackItemEvent` |
| `Api` | `api.dfy` | the `SensorsDataAPI` class, whose methods change the registry, the login id, the flags and the two queues; each method is proved against a step function on `Effects` |

The rest of the SDK is left out; see "Left out" below. That includes the
collaborators `assertKey`, `assertPropertyTypes`, `mergeJSONObject`,
`mergeSuperJSONObject`, `mergeDistinctProperty`, the remote `ignoreEvent`, the
user's track callback, `isDateValid`, the date formatters and
`EventTimer.duration`. They appear as function-valued fields of `Collab.Env`,
and every proof holds for all of their behaviours. The clock, the carrier, the
network type, the screen orientation, the referrer title, the latest channel
properties, the dynamic super properties and the stack-trace call site are
inputs (`Events.Context`).

All source paths below are relative to
`SensorsAnalyticsSDK/src/main/java/com/sensorsdata/analytics/android/sdk/`;
the table cells spell them out in full.

## Model

| member | source | states |
|---|---|---|
| Timers.TimerFor | SensorsAnalyticsSDK/src/main/java/com/sensorsdata/analytics/android/sdk/AbstractSensorsDataAPI.java:590-594 | a timer is found exactly when one is registered under the name, and it is that timer |
| Timers.Foreground | SensorsAnalyticsSDK/src/main/java/com/sensorsdata/analytics/android/sdk/AbstractSensorsDataAPI.java:410-425 | the foreground sweep keeps the set of names, every accumulated duration and every paused flag, and restarts every clock at `now` |
| Timers.BackgroundTimer | SensorsAnalyticsSDK/src/main/java/com/sensorsdata/analytics/android/sdk/AbstractSensorsDataAPI.java:437-447 | a timer that is not `$AppEnd`'s and not paused gains `now - start - gap`, restarts at `now` and stays running; any other timer is unchanged |
| Timers.Background | SensorsAnalyticsSDK/src/main/java/com/sensorsdata/analytics/android/sdk/AbstractSensorsDataAPI.java:432-453 | the background sweep keeps the set of names, leaves paused timers and `$AppEnd`'s untouched, and banks `now - start - gap` into every other timer, restarting it at `now` |
| Timers.Sweeps | SensorsAnalyticsSDK/src/main/java/com/sensorsdata/analytics/android/sdk/AbstractSensorsDataAPI.java:432-453 | any sequence of background sweeps keeps the set of timer names; what it does to each timer is stated by `RunningTimerSweeps` and `PausedTimerSurvivesSweeps` |
| Timers.SetState | SensorsAnalyticsSDK/src/main/java/com/sensorsdata/analytics/android/sdk/AbstractSensorsDataAPI.java:1055 | a timer takes the requested paused flag and restarts its clock; pausing banks the time run since the last start, resuming banks nothing |
| Timers.WithTimerState | SensorsAnalyticsSDK/src/main/java/com/sensorsdata/analytics/android/sdk/AbstractSensorsDataAPI.java:1052-1056 | the registry is unchanged when no timer has the name or it already has the requested flag; no other timer changes; otherwise the named timer becomes `SetState` of itself at `now`, so it ends with the requested flag |
| Timers.TimerStateIdempotent | SensorsAnalyticsSDK/src/main/java/com/sensorsdata/analytics/android/sdk/AbstractSensorsDataAPI.java:1052-1056 | a repeated pause (or resume) request, at any later instant, leaves the registry as the first request left it |
| Timers.ForegroundIdempotent | SensorsAnalyticsSDK/src/main/java/com/sensorsdata/analytics/android/sdk/AbstractSensorsDataAPI.java:410-425 | two foreground sweeps equal the second one alone |
| Timers.SessionAccumulation | SensorsAnalyticsSDK/src/main/java/com/sensorsdata/analytics/android/sdk/AbstractSensorsDataAPI.java:410-453 | a foreground stretch from `t1` to `t2` adds exactly `t2 - t1 - gap` to a running timer other than `$AppEnd`'s |
| Timers.PausedTimerSurvivesSweeps | SensorsAnalyticsSDK/src/main/java/com/sensorsdata/analytics/android/sdk/AbstractSensorsDataAPI.java:441-446 | a paused timer is unchanged by any sequence of background sweeps (`Sweeps` over any list of instants) |
| Timers.RunningTimerSweeps | SensorsAnalyticsSDK/src/main/java/com/sensorsdata/analytics/android/sdk/AbstractSensorsDataAPI.java:432-453 | a running timer other than `$AppEnd`'s swept at a non-empty list of instants ends running, with its clock at the last instant and `last - start - n * gap` added to its accumulated duration for `n` sweeps |
| Timers.TrimTimerSuffix | SensorsAnalyticsSDK/src/main/java/com/sensorsdata/analytics/android/sdk/AbstractSensorsDataAPI.java:597-599 | a name ending in `_SATimer` and longer than 45 characters loses exactly its last 45 characters; any other name is kept; the result is always a prefix |
| Timers.TrimRecoversBaseName | SensorsAnalyticsSDK/src/main/java/com/sensorsdata/analytics/android/sdk/AbstractSensorsDataAPI.java:597-599 | round trip: a non-empty base name plus a 45-character decoration ending in `_SATimer` trims back to the base name |
| Collab.OptString | SensorsAnalyticsSDK/src/main/java/com/sensorsdata/analytics/android/sdk/AbstractSensorsDataAPI.java:793 | optString: "" for a missing key, the text of a string, the rendering of any other value |
| Collab.GetString | SensorsAnalyticsSDK/src/main/java/com/sensorsdata/analytics/android/sdk/AbstractSensorsDataAPI.java:841 | getString fails exactly on a missing key and otherwise agrees with optString |
| Events.ParseEventType | SensorsAnalyticsSDK/src/main/java/com/sensorsdata/analytics/android/sdk/AbstractSensorsDataAPI.java:708-709 | a parsed kind's wire name is the parsed text |
| Json.OptLong | SensorsAnalyticsSDK/src/main/java/com/sensorsdata/analytics/android/sdk/AbstractSensorsDataAPI.java:1233 | a number yields its value, anything else 0 |
| Json.OptObject | SensorsAnalyticsSDK/src/main/java/com/sensorsdata/analytics/android/sdk/AbstractSensorsDataAPI.java:730 | an object is found exactly when the key holds an object, and it is that object |
| Events.ParseName | SensorsAnalyticsSDK/src/main/java/com/sensorsdata/analytics/android/sdk/AbstractSensorsDataAPI.java:708-709 | round trip: every kind's wire name parses back to that kind |
| Sanitizer.Cap | SensorsAnalyticsSDK/src/main/java/com/sensorsdata/analytics/android/sdk/AbstractSensorsDataAPI.java:1186-1197 | the cap is 16382 for `app_crashed_reason` and 8191 for every other key |
| Sanitizer.Truncate | SensorsAnalyticsSDK/src/main/java/com/sensorsdata/analytics/android/sdk/AbstractSensorsDataAPI.java:1187-1197 | a string within the cap is kept; a longer one becomes its first `cap` characters followed by `$` |
| Sanitizer.SanitizeValue | SensorsAnalyticsSDK/src/main/java/com/sensorsdata/analytics/android/sdk/AbstractSensorsDataAPI.java:1186-1203 | strings are capped (at most cap + 1 characters, kept when short, prefix plus `$` when long), dates become their formatted text, other values are kept |
| Sanitizer.EnterDb | SensorsAnalyticsSDK/src/main/java/com/sensorsdata/analytics/android/sdk/AbstractSensorsDataAPI.java:1158-1211 | with no callback the properties pass untouched; with one, the event is accepted exactly when the callback does not answer false and every property has a valid key and an allowed kind, and then every value is sanitised and the key set is kept |
| Sanitizer.IsEnterDb | SensorsAnalyticsSDK/src/main/java/com/sensorsdata/analytics/android/sdk/AbstractSensorsDataAPI.java:1158-1211 | the key-by-key loop accepts exactly when `EnterDb` does and then returns `EnterDb`'s properties |
| Sanitizer.SanitizeStringIdempotent | SensorsAnalyticsSDK/src/main/java/com/sensorsdata/analytics/android/sdk/AbstractSensorsDataAPI.java:1186-1197 | sanitising a string twice equals sanitising it once |
| Sanitizer.CrashReasonKeepsLongerText | SensorsAnalyticsSDK/src/main/java/com/sensorsdata/analytics/android/sdk/AbstractSensorsDataAPI.java:1186-1197 | every string longer than 8191 and at most 16382 characters is cut to its first 8191 characters plus `$` under any other key, and is kept whole as `app_crashed_reason` |
| Sanitizer.SanitizedKeepsKinds | SensorsAnalyticsSDK/src/main/java/com/sensorsdata/analytics/android/sdk/AbstractSensorsDataAPI.java:1178-1203 | an accepted property had an allowed kind; strings and dates come out as strings, everything else unchanged |
| Flags.IsFirstDay | SensorsAnalyticsSDK/src/main/java/com/sensorsdata/analytics/android/sdk/AbstractSensorsDataAPI.java:507-522 | with no stored first day the event counts as first-day; otherwise it does exactly when its day equals the stored day |
| Flags.PluginVersion | SensorsAnalyticsSDK/src/main/java/com/sensorsdata/analytics/android/sdk/AbstractSensorsDataAPI.java:1513-1525 | no tag exactly when the plugin version is empty; otherwise the one-element array `"android:<version>"` |
| Flags.AttachPluginVersion | SensorsAnalyticsSDK/src/main/java/com/sensorsdata/analytics/android/sdk/AbstractSensorsDataAPI.java:1408-1421 | the flag ends set exactly when it was set or the properties lacked a tag; the properties change only when the flag was clear, they had no tag and a version exists, and then gain just that tag |
| Flags.PluginVersionAtMostOnce | SensorsAnalyticsSDK/src/main/java/com/sensorsdata/analytics/android/sdk/AbstractSensorsDataAPI.java:1408-1421 | of two consecutive records, at most one receives the tag |
| Flags.AutoTrackMask | SensorsAnalyticsSDK/src/main/java/com/sensorsdata/analytics/android/sdk/AbstractSensorsDataAPI.java:365-375 | a type outside 1..15 changes nothing; otherwise the mask keeps every bit it had and gains the type's bits |
| Records.AddTimeProperty | SensorsAnalyticsSDK/src/main/java/com/sensorsdata/analytics/android/sdk/AbstractSensorsDataAPI.java:497-505 | the result always has `$time`; an existing one is kept; otherwise the current date is added and nothing else changes |
| Records.AddTimePropertyIdempotent | SensorsAnalyticsSDK/src/main/java/com/sensorsdata/analytics/android/sdk/AbstractSensorsDataAPI.java:497-505 | stamping twice equals stamping once: the first instant wins |
| Records.StampDeferred | SensorsAnalyticsSDK/src/main/java/com/sensorsdata/analytics/android/sdk/AbstractSensorsDataAPI.java:1446-1448 | only the send properties change; `$AppStart` and `$AppEnd` are not stamped; any other call gains `$time` at the call instant unless it has one, and keeps every property it had |
| Records.TrackBaseProperties | SensorsAnalyticsSDK/src/main/java/com/sensorsdata/analytics/android/sdk/AbstractSensorsDataAPI.java:614-665 | a track call's base properties carry `$referrer_title` when enabled and known, `$wifi` and `$network_type` from the current network, and `$screen_orientation` when known |
| Records.CarrierFacts | SensorsAnalyticsSDK/src/main/java/com/sensorsdata/analytics/android/sdk/AbstractSensorsDataAPI.java:615-630 | the base starts from the device facts, every one kept; `$carrier` is added with the carrier fetched now exactly when the device facts have no carrier text, collection is enabled and the carrier is known |
| Records.SuperPropertiesFor | SensorsAnalyticsSDK/src/main/java/com/sensorsdata/analytics/android/sdk/AbstractSensorsDataAPI.java:1107-1121 | the dynamic super properties take part in the merge only when present and of valid types; otherwise only the static super properties do |
| Records.MergeSuperProperties | SensorsAnalyticsSDK/src/main/java/com/sensorsdata/analytics/android/sdk/AbstractSensorsDataAPI.java:1107-1121 | for a `mergeJSONObject` that keeps keys the source lacks, every property absent from the super properties survives the merge with its value |
| Records.TrackBaseKeepsDeviceFacts | SensorsAnalyticsSDK/src/main/java/com/sensorsdata/analytics/android/sdk/AbstractSensorsDataAPI.java:614-665 | for such a merge, a device fact (with the late carrier) that no channel, super, referrer, network or orientation property overrides reaches the base properties with its value |
| Records.TrackRequest | SensorsAnalyticsSDK/src/main/java/com/sensorsdata/analytics/android/sdk/AbstractSensorsDataAPI.java:596-683 | a request is made exactly when the trimmed name and the properties pass the checks and the kind is track or profile; it carries the trimmed name, the kind, the caller's properties, timer, original id, distinct id and login id; its send properties are `TrackBaseProperties` for a track kind and empty for a profile kind |
| Records.AppEventStamp | SensorsAnalyticsSDK/src/main/java/com/sensorsdata/analytics/android/sdk/AbstractSensorsDataAPI.java:1231-1259 | `$AppEnd` takes `event_time` when above 2000 and its non-empty `$lib_version`/`$app_version` overrides, which stay among the properties while the empty ones are removed; `$AppStart` takes `event_time` when positive; both lose exactly `event_time` (and `$AppEnd` its empty version overrides), every other property kept with its value; other events keep the call instant, versions and properties |
| Records.LiftReserved | SensorsAnalyticsSDK/src/main/java/com/sensorsdata/analytics/android/sdk/AbstractSensorsDataAPI.java:1316-1342 | the properties lose exactly `$project`, `$token` and `$time`; project and token appear exactly when present; the instant changes only to a valid `$time` |
| Records.SelectDistinctId | SensorsAnalyticsSDK/src/main/java/com/sensorsdata/analytics/android/sdk/AbstractSensorsDataAPI.java:1344-1348 | an empty distinct id is replaced by the anonymous id; a non-empty one is kept |
| Records.LibMethod | SensorsAnalyticsSDK/src/main/java/com/sensorsdata/analytics/android/sdk/AbstractSensorsDataAPI.java:1263-1279 | the method is `code` or `autoTrack`, and `autoTrack` exactly for a track kind whose properties say so |
| Records.SuperAppVersion | SensorsAnalyticsSDK/src/main/java/com/sensorsdata/analytics/android/sdk/AbstractSensorsDataAPI.java:1296-1301 | the super properties' `$app_version`, when present, overrides the library block's |
| Records.ForceDeviceId | SensorsAnalyticsSDK/src/main/java/com/sensorsdata/analytics/android/sdk/AbstractSensorsDataAPI.java:1396-1401 | a `$device_id` property is replaced by the device's own when the device has one; otherwise nothing changes |
| Records.RecordLiftsReservedKeys | SensorsAnalyticsSDK/src/main/java/com/sensorsdata/analytics/android/sdk/AbstractSensorsDataAPI.java:1316-1342 | no emitted record keeps `$project`, `$token` or `$time` among its properties; project and token fields appear exactly when the properties had them, with their text |
| Records.RecordTime | SensorsAnalyticsSDK/src/main/java/com/sensorsdata/analytics/android/sdk/AbstractSensorsDataAPI.java:1327-1339 | the record instant is a valid `$time` date when there is one, and the `$AppStart`/`$AppEnd`/call instant otherwise |
| Records.RecordIdentity | SensorsAnalyticsSDK/src/main/java/com/sensorsdata/analytics/android/sdk/AbstractSensorsDataAPI.java:1344-1364 | the distinct id falls back to the anonymous id exactly when empty; a login id appears exactly when non-empty; the anonymous id is always present; only a signup names an original id; only track kinds name an event |
| Records.RecordLibMethod | SensorsAnalyticsSDK/src/main/java/com/sensorsdata/analytics/android/sdk/AbstractSensorsDataAPI.java:1263-1292 | the library block says `code` or `autoTrack` and `Android`; a code-originated track record also says `code` in its properties |
| Records.DraftLibMethod | SensorsAnalyticsSDK/src/main/java/com/sensorsdata/analytics/android/sdk/AbstractSensorsDataAPI.java:1263-1292 | the drafted library block carries the chosen method and `Android`; a code-originated track draft has `$lib_method` = `code` |
| Records.RecordDeviceId | SensorsAnalyticsSDK/src/main/java/com/sensorsdata/analytics/android/sdk/AbstractSensorsDataAPI.java:1396-1406 | a record's `$device_id` is the device's own whenever the device has one, passed through the sanitiser when a track callback is registered |
| Records.DraftRecord | SensorsAnalyticsSDK/src/main/java/com/sensorsdata/analytics/android/sdk/AbstractSensorsDataAPI.java:1213-1401 | the drafted record keeps the call's kind, names the anonymous id, takes the distinct id or the anonymous id for an empty one, names the event exactly for track kinds, keeps no reserved key among its properties, carries `$is_first_day` for a `track` event computed at the stamp instant (`event_time` for `$AppStart`/`$AppEnd`, the call instant otherwise), and forces `$device_id` to the device's |
| Records.ComposeRecord | SensorsAnalyticsSDK/src/main/java/com/sensorsdata/analytics/android/sdk/AbstractSensorsDataAPI.java:1213-1438 | a record is emitted exactly when it is not a track kind or passes the sanitiser; it is the draft with only its properties changed: unchanged for other kinds, for track kinds the sanitised properties with the plugin-version tag and flag as `AttachPluginVersion` gives |
| Web.StampWebTime | SensorsAnalyticsSDK/src/main/java/com/sensorsdata/analytics/android/sdk/AbstractSensorsDataAPI.java:1472-1478 | a document whose properties object lacks `$time` gets the current instant there as a number; any other document is unchanged |
| Web.LibAppVersion | SensorsAnalyticsSDK/src/main/java/com/sensorsdata/analytics/android/sdk/AbstractSensorsDataAPI.java:736-749 | the web library block's `$app_version` is the super properties', else the device's, else unchanged |
| Web.WebTrackProperties | SensorsAnalyticsSDK/src/main/java/com/sensorsdata/analytics/android/sdk/AbstractSensorsDataAPI.java:751-776 | for a `mergeJSONObject` that keeps keys the source lacks, a track kind's web properties carry `$is_first_day` unless a channel property overrides it, and every device fact no super or channel property or network field overrides |
| Web.DeviceFacts | SensorsAnalyticsSDK/src/main/java/com/sensorsdata/analytics/android/sdk/AbstractSensorsDataAPI.java:752-762 | every device fact except the empty key, `$lib` and `$lib_version`, with its value |
| Web.StripTransport | SensorsAnalyticsSDK/src/main/java/com/sensorsdata/analytics/android/sdk/AbstractSensorsDataAPI.java:780-790 | the document loses exactly `_nocache`, `server_url` and `_flush_time` |
| Web.WithReservedFields | SensorsAnalyticsSDK/src/main/java/com/sensorsdata/analytics/android/sdk/AbstractSensorsDataAPI.java:792-812 | the document gains `time` and, when lifted, `project` and `token`; other fields are kept |
| Web.WebIdentity | SensorsAnalyticsSDK/src/main/java/com/sensorsdata/analytics/android/sdk/AbstractSensorsDataAPI.java:711-721 | a signup gets the anonymous id as its original id and keeps its own distinct id; other kinds get the login id, or the anonymous id when logged out; all get the anonymous id and the arrival instant |
| Web.Hybrid | SensorsAnalyticsSDK/src/main/java/com/sensorsdata/analytics/android/sdk/AbstractSensorsDataAPI.java:707 | the document gains `_hybrid_h5` = true and keeps every other field |
| Web.WebType | SensorsAnalyticsSDK/src/main/java/com/sensorsdata/analytics/android/sdk/AbstractSensorsDataAPI.java:708-709 | a kind is found exactly when `type` is a string naming a known kind, and it is that kind |
| Web.WebLib | SensorsAnalyticsSDK/src/main/java/com/sensorsdata/analytics/android/sdk/AbstractSensorsDataAPI.java:736-749 | the key set and every field but `lib` are kept; a `lib` object gets its `$app_version` from `LibAppVersion`; a document without a `lib` object is unchanged |
| Web.Finalize | SensorsAnalyticsSDK/src/main/java/com/sensorsdata/analytics/android/sdk/AbstractSensorsDataAPI.java:780-812 | no transport key remains; `time` is the lifted instant and `project`/`token` the lifted values when present; every other field is the document's own |
| Web.WebDocument | SensorsAnalyticsSDK/src/main/java/com/sensorsdata/analytics/android/sdk/AbstractSensorsDataAPI.java:711-812 | the reconciled document has no transport key; it carries the anonymous id and the identity a signup or any other kind is owed, the lifted `time`, `project` and `token`, and the `lib` block with its `$app_version` override; every other field is the caller's |
| Web.WebReconcile | SensorsAnalyticsSDK/src/main/java/com/sensorsdata/analytics/android/sdk/AbstractSensorsDataAPI.java:711-823 | a draft exists exactly when the properties pass the type check and a track kind's `event` passes the key check; it keeps the type name and kind, names the caller's `event`, and holds the lifted properties and the reconciled document |
| Web.WebPrepare | SensorsAnalyticsSDK/src/main/java/com/sensorsdata/analytics/android/sdk/AbstractSensorsDataAPI.java:706-823 | a draft exists exactly when `type` names a known kind and that kind's checks pass; the draft names that kind and type, the caller's `event`, the lifted properties and the reconciled web-marked document |
| Web.WebFinish | SensorsAnalyticsSDK/src/main/java/com/sensorsdata/analytics/android/sdk/AbstractSensorsDataAPI.java:838-877 | non-signups are always emitted, never commit, and carry the stored login id when there is one; a signup commits and is emitted exactly when `SignupCommits` holds, committing its own distinct id, which then becomes `login_id`; the emitted document keeps every draft field, sets the final `properties`, and adds only `login_id` |
| Web.WebSettle | SensorsAnalyticsSDK/src/main/java/com/sensorsdata/analytics/android/sdk/AbstractSensorsDataAPI.java:815-877 | a prepared draft is emitted exactly when `WebEmits` holds (a track kind passes the sanitiser, a signup commits), and commits exactly when it is an emitted signup; a track kind that passes the sanitiser sets the plugin-version flag as `AttachPluginVersion` does on the sanitised properties, whether or not it then commits, and an emitted one carries those tagged properties; every other draft keeps the flag, and an emitted non-track draft carries its own properties |
| Web.ComposeWeb | SensorsAnalyticsSDK/src/main/java/com/sensorsdata/analytics/android/sdk/AbstractSensorsDataAPI.java:694-883 | a web event is emitted exactly when it is prepared and `WebEmits` holds, and commits exactly when it is an emitted signup; an unprepared document keeps the plugin-version flag; for a prepared one the flag and the emitted properties are those `WebSettle` states (sanitised and tagged for a track kind, unchanged otherwise) |
| Web.WebDocumentClean | SensorsAnalyticsSDK/src/main/java/com/sensorsdata/analytics/android/sdk/AbstractSensorsDataAPI.java:780-812 | an emitted web document keeps no transport key, and its properties keep no reserved key |
| Web.FinishedClean | SensorsAnalyticsSDK/src/main/java/com/sensorsdata/analytics/android/sdk/AbstractSensorsDataAPI.java:838-877 | finishing adds no transport key and installs the final properties |
| Web.ComposeWebFinishes | SensorsAnalyticsSDK/src/main/java/com/sensorsdata/analytics/android/sdk/AbstractSensorsDataAPI.java:814-839 | any web outcome that emits or commits comes from finishing the prepared draft, free of transport keys, with properties free of reserved keys that are, for a track kind, the sanitiser's output tagged by `AttachPluginVersion` together with its new flag, and otherwise the draft's own properties and the old flag |
| Web.WebOutcomeShape | SensorsAnalyticsSDK/src/main/java/com/sensorsdata/analytics/android/sdk/AbstractSensorsDataAPI.java:840-860 | an emitted event names a known kind; an outcome commits exactly when it emits a signup; it commits the caller's own distinct id, which differs from the stored login id and the anonymous id |
| Web.SignupCommitsWhenNew | SensorsAnalyticsSDK/src/main/java/com/sensorsdata/analytics/android/sdk/AbstractSensorsDataAPI.java:840-860 | the converse: a prepared signup that passes the sanitiser, whose distinct id is new and not the anonymous id, is emitted and commits that id |
| Web.SignupKeepsDistinctId | SensorsAnalyticsSDK/src/main/java/com/sensorsdata/analytics/android/sdk/AbstractSensorsDataAPI.java:711-721 | a prepared signup's document carries the caller's distinct id unchanged |
| Web.WebLiftedFields | SensorsAnalyticsSDK/src/main/java/com/sensorsdata/analytics/android/sdk/AbstractSensorsDataAPI.java:792-812 | an emitted web document carries the lifted `time`, and `project` and `token` when lifted |
| Web.PreparedClean | SensorsAnalyticsSDK/src/main/java/com/sensorsdata/analytics/android/sdk/AbstractSensorsDataAPI.java:780-812 | a prepared draft holds no transport key, and its properties no reserved key |
| Web.SignupIdempotent | SensorsAnalyticsSDK/src/main/java/com/sensorsdata/analytics/android/sdk/AbstractSensorsDataAPI.java:840-860 | sending a committed signup again, with the committed id as the login id, emits and commits nothing |
| Web.UncommittedSignupConsumesTag | SensorsAnalyticsSDK/src/main/java/com/sensorsdata/analytics/android/sdk/AbstractSensorsDataAPI.java:824-860 | a prepared signup that passes the sanitiser, carries no plugin version and names the stored login id as its distinct id emits and commits nothing, yet sets the plugin-version flag |
| Items.LookupProject | SensorsAnalyticsSDK/src/main/java/com/sensorsdata/analytics/android/sdk/AbstractSensorsDataAPI.java:536-540 | no project without a `$project`; a string project exactly when `$project` is a string, with its text |
| Items.ItemLib | SensorsAnalyticsSDK/src/main/java/com/sensorsdata/analytics/android/sdk/AbstractSensorsDataAPI.java:542-567 | the item library block says `Android`, the SDK version and `code`; its `$app_version` is the super properties', else the device's, else absent; it has `$lib_detail` exactly when a call site is known |
| Items.ComposeItem | SensorsAnalyticsSDK/src/main/java/com/sensorsdata/analytics/android/sdk/AbstractSensorsDataAPI.java:524-585 | an item is emitted exactly when its arguments pass the checks and any `$project` is a string; it carries the call's type, item and time; it names a project exactly when `$project` is a non-empty string; its properties are present exactly when given and lose `$project` |
| Api.ReplayArgs | SensorsAnalyticsSDK/src/main/java/com/sensorsdata/analytics/android/sdk/AbstractSensorsDataAPI.java:1452-1463 | a replayed call changes only its send properties and original id; a track kind merges the device facts into its send properties with `mergeDistinctProperty`, other kinds keep theirs; a `$SignUp` takes the anonymous id as its original id, any other call keeps its own |
| Api.InternalEffect | SensorsAnalyticsSDK/src/main/java/com/sensorsdata/analytics/android/sdk/AbstractSensorsDataAPI.java:1213-1438 | a record joins the output queue exactly when `ComposeRecord` emits one, and it is exactly `ComposeRecord`'s record, with the call's kind, its distinct id (or the anonymous id) and the anonymous id; the plugin flag becomes `ComposeRecord`'s; a dropped record changes nothing; the replay queue and login id are untouched, and non-track kinds leave the plugin flag alone |
| Api.RequestEffect | SensorsAnalyticsSDK/src/main/java/com/sensorsdata/analytics/android/sdk/AbstractSensorsDataAPI.java:673-683 | no request changes nothing; while disabled a request is deferred, stamped, as the only change; while enabled a request goes to `InternalEffect` (`trackEventInternal`) and nothing is deferred; the login id never changes and at most one entry is appended |
| Api.EventEffect | SensorsAnalyticsSDK/src/main/java/com/sensorsdata/analytics/android/sdk/AbstractSensorsDataAPI.java:587-687 | a track call never changes the login id and appends at most one entry; while enabled it defers nothing, a failed `TrackRequest` changes nothing, a checked request goes to `InternalEffect`, and a record is enqueued exactly when the request passes and `ComposeRecord` emits, that record being `ComposeRecord`'s; while disabled it enqueues nothing and defers exactly when its trimmed name and properties pass the checks |
| Api.WebEffect | SensorsAnalyticsSDK/src/main/java/com/sensorsdata/analytics/android/sdk/AbstractSensorsDataAPI.java:694-705 | no document changes nothing; while disabled it only defers the document; while enabled it defers nothing, takes the plugin-version flag `ComposeWeb` computes, appends exactly `ComposeWeb`'s message when there is one, and takes the login id `ComposeWeb` commits (else keeps it); the login id changes only on an emitted signup, to the caller's own distinct id, never the anonymous id |
| Api.ItemEffect | SensorsAnalyticsSDK/src/main/java/com/sensorsdata/analytics/android/sdk/AbstractSensorsDataAPI.java:524-585 | failed checks change nothing; while disabled an admitted item is deferred unstamped as the only change; while enabled nothing is deferred and exactly `ComposeItem`'s message is enqueued when there is one; the login id and plugin flag never change |
| Api.DeferredEffect | SensorsAnalyticsSDK/src/main/java/com/sensorsdata/analytics/android/sdk/AbstractSensorsDataAPI.java:1452-1510 | a replayed call appends at most one entry; a replayed track call is exactly `InternalEffect` on the `ReplayArgs` of the call, so it never defers again whatever the switch, keeps the login id and enqueues exactly when composition emits; a replayed web document is exactly `WebEffect` and a replayed item exactly `ItemEffect` under the current switch; only a replayed web document can change the login id, and only while enabled |
| Api.Step | SensorsAnalyticsSDK/src/main/java/com/sensorsdata/analytics/android/sdk/AbstractSensorsDataAPI.java:587-883 | every call appends at most one record or one deferred call, never both, and rewrites nothing queued; with collection enabled nothing is deferred; only a web document, with collection enabled, changes the login id |
| Api.DisabledCollectsNothing | SensorsAnalyticsSDK/src/main/java/com/sensorsdata/analytics/android/sdk/AbstractSensorsDataAPI.java:680-683 | with collection disabled, a call enqueues nothing and leaves the plugin flag and login id alone; a track call defers exactly when its trimmed name and properties pass the checks, a web call exactly when it has a document, an item call exactly when its checks pass |
| Api.DeferredEventStamped | SensorsAnalyticsSDK/src/main/java/com/sensorsdata/analytics/android/sdk/AbstractSensorsDataAPI.java:1443-1448 | a deferred track call carries the trimmed name, and, unless it is `$AppStart`/`$AppEnd`, a `$time` that is the call instant or came from its base properties |
| Api.LoginChangesOnlyOnSignup | SensorsAnalyticsSDK/src/main/java/com/sensorsdata/analytics/android/sdk/AbstractSensorsDataAPI.java:840-860 | only a web signup, with collection enabled, changes the login id: to the document's own distinct id, never the anonymous id, with one record enqueued |
| Api.SignupCallIdempotent | SensorsAnalyticsSDK/src/main/java/com/sensorsdata/analytics/android/sdk/AbstractSensorsDataAPI.java:840-860 | a web signup that committed, sent again, enqueues nothing and leaves the login id and replay queue alone |
| Api.SensorsDataAPI.constructor | SensorsAnalyticsSDK/src/main/java/com/sensorsdata/analytics/android/sdk/AbstractSensorsDataAPI.java:155-209 | a new SDK object holds the given configuration, collection switch and login id, an empty timer registry, empty queues, auto-tracking off and the plugin-version flag clear |
| Api.SensorsDataAPI.DistinctId | SensorsAnalyticsSDK/src/main/java/com/sensorsdata/analytics/android/sdk/AbstractSensorsDataAPI.java:677-680 | the distinct id a track call passes on is the login id, or the anonymous id when logged out |
| Api.SensorsDataAPI.AppBecomeActive | SensorsAnalyticsSDK/src/main/java/com/sensorsdata/analytics/android/sdk/AbstractSensorsDataAPI.java:410-425 | the loop over the registry leaves it equal to `Foreground` of the old one |
| Api.SensorsDataAPI.AppEnterBackground | SensorsAnalyticsSDK/src/main/java/com/sensorsdata/analytics/android/sdk/AbstractSensorsDataAPI.java:432-453 | the loop over the registry leaves it equal to `Background` of the old one with the session interval |
| Api.SensorsDataAPI.TrackTimerState | SensorsAnalyticsSDK/src/main/java/com/sensorsdata/analytics/android/sdk/AbstractSensorsDataAPI.java:1045-1063 | an invalid name changes nothing; otherwise the registry becomes `WithTimerState` of the old one |
| Api.SensorsDataAPI.EnableAutoTrack | SensorsAnalyticsSDK/src/main/java/com/sensorsdata/analytics/android/sdk/AbstractSensorsDataAPI.java:365-375 | out-of-range types change nothing; otherwise auto-tracking is on and the mask is `AutoTrackMask` of the old one |
| Api.SensorsDataAPI.TagPluginVersion | SensorsAnalyticsSDK/src/main/java/com/sensorsdata/analytics/android/sdk/AbstractSensorsDataAPI.java:1408-1421 | the properties and the once-flag become what `AttachPluginVersion` gives |
| Api.SensorsDataAPI.TrackEventInternal | SensorsAnalyticsSDK/src/main/java/com/sensorsdata/analytics/android/sdk/AbstractSensorsDataAPI.java:1213-1438 | the queue and the flag change as `ComposeRecord` says: unchanged when dropped, one record appended and the new flag otherwise |
| Api.SensorsDataAPI.TransformEventTaskQueue | SensorsAnalyticsSDK/src/main/java/com/sensorsdata/analytics/android/sdk/AbstractSensorsDataAPI.java:1443-1470 | the stamped call joins the end of the replay queue |
| Api.SensorsDataAPI.TrackEvent | SensorsAnalyticsSDK/src/main/java/com/sensorsdata/analytics/android/sdk/AbstractSensorsDataAPI.java:587-687 | a non-empty name's timer is removed, so none remains under that name, and the name's timer is passed on; the queues and flag change as the step for this call says |
| Api.SensorsDataAPI.Dispatch | SensorsAnalyticsSDK/src/main/java/com/sensorsdata/analytics/android/sdk/AbstractSensorsDataAPI.java:673-683 | a checked request is deferred while collection is disabled and composed otherwise |
| Api.SensorsDataAPI.TransformH5TaskQueue | SensorsAnalyticsSDK/src/main/java/com/sensorsdata/analytics/android/sdk/AbstractSensorsDataAPI.java:1472-1495 | the document, stamped by `StampWebTime`, joins the end of the replay queue |
| Api.SensorsDataAPI.TrackEventH5 | SensorsAnalyticsSDK/src/main/java/com/sensorsdata/analytics/android/sdk/AbstractSensorsDataAPI.java:694-705 | the queues, flag and login id change as the web step says: nothing for no document, deferral while disabled, composition otherwise |
| Api.SensorsDataAPI.ReconcileWeb | SensorsAnalyticsSDK/src/main/java/com/sensorsdata/analytics/android/sdk/AbstractSensorsDataAPI.java:706-883 | the queue, flag and login id change exactly as `ComposeWeb` says |
| Api.SensorsDataAPI.SettleWeb | SensorsAnalyticsSDK/src/main/java/com/sensorsdata/analytics/android/sdk/AbstractSensorsDataAPI.java:815-877 | the queue, flag and login id change exactly as `WebSettle` says |
| Api.SensorsDataAPI.EnqueueWeb | SensorsAnalyticsSDK/src/main/java/com/sensorsdata/analytics/android/sdk/AbstractSensorsDataAPI.java:838-877 | the queue and login id change exactly as `WebFinish` says |
| Api.SensorsDataAPI.TransformItemTaskQueue | SensorsAnalyticsSDK/src/main/java/com/sensorsdata/analytics/android/sdk/AbstractSensorsDataAPI.java:1497-1511 | the unstamped item call joins the end of the replay queue |
| Api.SensorsDataAPI.TrackItemEvent | SensorsAnalyticsSDK/src/main/java/com/sensorsdata/analytics/android/sdk/AbstractSensorsDataAPI.java:524-585 | the queues change as the item step says: nothing when checks fail, deferral while disabled, the composed item otherwise |
| Api.SensorsDataAPI.RunDeferred | SensorsAnalyticsSDK/src/main/java/com/sensorsdata/analytics/android/sdk/AbstractSensorsDataAPI.java:1452-1510 | a deferred call replays as its closure does: track calls straight into `trackEventInternal` with the replay arguments, web and item calls through their entry points |

## Left out

- Construction and configuration (`initSAConfig`, `applySAConfigOptions`, the manifest and the `Bundle`) and `setupDeviceInfo` are left out. The device facts, anonymous id, super properties, first day, SDK and plugin versions and session interval are fixed inputs (`Events.Config`).
- The debug-mode Toast, the content observers, the JavaScript bridge and the event listeners (`trackEvent`/`login` fan-out) are left out. They are foreign callbacks with no effect on the records.
- The random `_track_id`, GPS latitude and longitude (floating point) and the stack-trace `$lib_detail` are left out. The call site is an input string. The auto-track screen-name `$lib_detail` override in `trackEventInternal` is not modelled.
- Threads, `TrackTaskManager` and the `synchronized` blocks are left out. Calls run one at a time. The replay queue is a FIFO sequence, and draining it is left to the caller of `RunDeferred`, because the drain trigger lives in `TrackTaskManager`, which is not part of this model.
- `mMessages`, `DbAdapter` and the persistent stores are left out. Enqueueing appends to `messages`, and the stored login id is the field `loginId`.
- `EventTimer.java` and `EventType.java` are not part of this model. `setTimerState` is taken to set the flag, bank the running time when pausing and restart the clock. The event kinds' wire names are taken as `track`, `track_signup`, `profile_set` and so on. `EventTimer.duration` is an uninterpreted integer function, not the string parsed as a double.
- Timers.Background: follows the code, which banks `now - start - gap` even when that is negative, so a short foreground stretch can lower a timer's accumulated duration.
- Web.WebPrepare, Web.WebType, Events.ParseEventType: the `type` field is matched against the wire names exactly (`ParseEventType`, called by `WebType`); the code's upper-casing with the default locale is not modelled.
- Records.LiftReserved: `getLong` coercion of a string `$time` in a web document is not modelled; only a number counts.
- Json.OptLong: only a number counts; the coercion of numeric strings by `optLong` is not modelled.
- Records.DraftRecord: `$lib_detail` is always set, to "" when no call site is known, where the code would leave it out.
- Edits the user's track callback makes to the properties object it is handed are not modelled; the callback only answers.
- `trackItemEvent` removing `$project` from the caller's own object, and other mutations of caller-owned JSON objects, are not modelled; the model copies values.
- Exceptions other than the ones the code turns into dropped events (a failed check, a failed cast, a missing `distinct_id`) are not modelled.
- `trackTimerStart`, `trackTimerEnd`, `login`, `logout`, `getDistinctId`, `getLoginId` and the switch for data collection live in `SensorsDataAPI.java`, which is not part of this model. The fields they change are public in the model. The distinct id is taken to be the login id, or the anonymous id when logged out.
- `trackTimerState` in the code runs as a queued task with the instant captured at the call; the model runs it at once with that instant.
- Records.CarrierFacts: the device facts are one fixed map (`Events.Config.deviceInfo`). In the code, `mDeviceInfo` stays null when the SDK is constructed with collection disabled (`AbstractSensorsDataAPI.java:204-206`). A track call made then starts from an empty object (615-618), and only its replay merges the device facts in (1456-1457). The model always starts from `deviceInfo`, so it does not capture facts that are absent at call time and filled in at replay.
- Sanitizer.Truncate: lengths and the cut are counted in Dafny characters. Java's `String.length()` and `substring` count UTF-16 code units, so for text outside the Basic Multilingual Plane the cut falls elsewhere, and a cut that splits a surrogate pair is not modelled.
- Timers.TrimTimerSuffix: the 45-character decoration is counted in Dafny characters, not in UTF-16 code units as `String.length()` counts it.
- Records.MergeSuperProperties: `mergeJSONObject` is not part of this model. Properties survive the merge only under the stated assumption that it keeps keys its source lacks (`Collab.MergeKeepsDest`); other behaviours of the collaborator are left open.
- Records.TrackBaseKeepsDeviceFacts: the device facts reach the base properties only under the same assumption about `mergeJSONObject`.
- Web.WebTrackProperties: `$is_first_day` and the device facts are stated only under the same assumption about `mergeJSONObject`.

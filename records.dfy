/**
 * Composition of a code-originated track or profile record: the properties
 * a track call layers under the caller's, the special timing of $AppStart and
 * $AppEnd, the lift of the reserved keys into top-level fields, identity
 * fields, the library block and the final sanitiser and plugin-version tag.
 */
module Records {
  import opened Wrappers
  import opened Json
  import opened Names
  import opened Timers
  import opened Collab
  import opened Sanitizer
  import opened Flags
  import opened Events

  /**
   * addTimeProperty: a document without "$time" is stamped with the current
   * instant as a date; one that has it is left alone.
   */
  function AddTimeProperty(p: Props, now: int): (r: Props)
    ensures TimeKey in r
    ensures TimeKey in p ==> r == p
    ensures TimeKey !in p ==> r.Keys == p.Keys + {TimeKey} && r[TimeKey] == Date(now)
    ensures forall k :: k in p ==> r[k] == p[k]
  {
    if TimeKey in p then p else p[TimeKey := Date(now)]
  }

  /** Stamping twice is stamping once: the first instant wins. */
  lemma AddTimePropertyIdempotent(p: Props, t1: int, t2: int)
    ensures AddTimeProperty(AddTimeProperty(p, t1), t2) == AddTimeProperty(p, t1)
  {
  }

  /**
   * The time-sensitive part of a deferred track call (transformEventTaskQueue):
   * the properties get "$time" stamped now, except for $AppStart and $AppEnd,
   * which carry their own instant.
   */
  function StampDeferred(a: EventArgs, now: int): (r: EventArgs)
    ensures r == a.(sendProperties := r.sendProperties)
    ensures a.eventName == AppStart || a.eventName == AppEnd ==> r == a
    ensures a.eventName != AppStart && a.eventName != AppEnd ==>
      TimeKey in r.sendProperties
      && (TimeKey !in a.sendProperties ==> r.sendProperties[TimeKey] == Date(now))
      && forall k :: k in a.sendProperties ==> k in r.sendProperties && r.sendProperties[k] == a.sendProperties[k]
  {
    if a.eventName == AppStart || a.eventName == AppEnd then a
    else a.(sendProperties := AddTimeProperty(a.sendProperties, now))
  }

  /**
   * The super properties mergerDynamicAndSuperProperties merges in: the
   * dynamic ones count only when they pass the type check, and they are
   * de-duplicated against the persisted ones.
   */
  function SuperPropertiesFor(cfg: Config, ctx: Context): (r: Props)
    ensures ctx.dynamicSuperProperties.Some? && cfg.env.arePropertyTypesValid(ctx.dynamicSuperProperties.value) ==>
      r == cfg.env.mergeSuper(ctx.dynamicSuperProperties, cfg.superProperties)
    ensures !(ctx.dynamicSuperProperties.Some? && cfg.env.arePropertyTypesValid(ctx.dynamicSuperProperties.value)) ==>
      r == cfg.env.mergeSuper(None, cfg.superProperties)
  {
    var dynamic :=
      if ctx.dynamicSuperProperties.Some? && cfg.env.arePropertyTypesValid(ctx.dynamicSuperProperties.value)
      then ctx.dynamicSuperProperties else None;
    cfg.env.mergeSuper(dynamic, cfg.superProperties)
  }

  /**
   * mergerDynamicAndSuperProperties: the super properties are merged into
   * `p`; when the merge behaves as documented, every property of `p` that
   * the super properties do not name keeps its value.
   */
  function MergeSuperProperties(cfg: Config, ctx: Context, p: Props): (r: Props)
    ensures MergeKeepsDest(cfg.env.merge) ==>
      forall k :: k in p && k !in SuperPropertiesFor(cfg, ctx) ==> k in r && r[k] == p[k]
  {
    cfg.env.merge(SuperPropertiesFor(cfg, ctx), p)
  }

  /**
   * The device facts a track call starts from, with the carrier fetched late
   * when the facts lack one and collection is enabled.
   */
  function CarrierFacts(cfg: Config, ctx: Context, collectEnabled: bool): (r: Props)
    ensures r.Keys <= cfg.deviceInfo.Keys + {"$carrier"}
    ensures forall k :: k in cfg.deviceInfo && k != "$carrier" ==> k in r && r[k] == cfg.deviceInfo[k]
    ensures OptString(cfg.env, cfg.deviceInfo, "$carrier") == "" && collectEnabled && ctx.carrier != "" ==>
      "$carrier" in r && r["$carrier"] == Str(ctx.carrier)
    ensures OptString(cfg.env, cfg.deviceInfo, "$carrier") != "" || !collectEnabled || ctx.carrier == "" ==>
      r == cfg.deviceInfo
  {
    if OptString(cfg.env, cfg.deviceInfo, "$carrier") == "" && collectEnabled && ctx.carrier != ""
    then cfg.deviceInfo["$carrier" := Str(ctx.carrier)] else cfg.deviceInfo
  }

  /**
   * The properties a track-kind call starts from (trackEvent): device facts,
   * a carrier fetched late when the device facts lack one, the latest
   * channel properties except for $AppEnd, the super properties, the
   * referrer title, the network type and the screen orientation.
   */
  function TrackBaseProperties(cfg: Config, ctx: Context, collectEnabled: bool, name: string): (r: Props)
    ensures "$wifi" in r && r["$wifi"] == Bool(ctx.networkType == "WIFI")
    ensures "$network_type" in r && r["$network_type"] == Str(ctx.networkType)
    ensures ctx.screenOrientation != "" ==> "$screen_orientation" in r && r["$screen_orientation"] == Str(ctx.screenOrientation)
    ensures cfg.enableReferrerTitle && ctx.referrerTitle.Some? ==>
      "$referrer_title" in r && r["$referrer_title"] == Str(ctx.referrerTitle.value)
  {
    var p1 := CarrierFacts(cfg, ctx, collectEnabled);
    var p2 := if name != AppEnd then cfg.env.merge(ctx.latestUtm, p1) else p1;
    var p3 := MergeSuperProperties(cfg, ctx, p2);
    var p4 :=
      if cfg.enableReferrerTitle && ctx.referrerTitle.Some?
      then p3["$referrer_title" := Str(ctx.referrerTitle.value)] else p3;
    var p5 := p4["$wifi" := Bool(ctx.networkType == "WIFI")]["$network_type" := Str(ctx.networkType)];
    if ctx.screenOrientation != "" then p5["$screen_orientation" := Str(ctx.screenOrientation)] else p5
  }

  /** The keys a track call's base properties set after the merges. */
  const NetworkAndScreenKeys: set<string> := {"$referrer_title", "$wifi", "$network_type", "$screen_orientation"}

  /**
   * A track call's base properties start from the device facts: when the
   * merges behave as documented, a fact that neither the channel properties
   * (consulted for every event but $AppEnd) nor the super properties name,
   * and that the call does not set itself, keeps its value.
   */
  lemma TrackBaseKeepsDeviceFacts(cfg: Config, ctx: Context, collectEnabled: bool, name: string, k: string)
    requires MergeKeepsDest(cfg.env.merge)
    requires k in CarrierFacts(cfg, ctx, collectEnabled)
    requires name != AppEnd ==> k !in ctx.latestUtm
    requires k !in SuperPropertiesFor(cfg, ctx) && k !in NetworkAndScreenKeys
    ensures var r := TrackBaseProperties(cfg, ctx, collectEnabled, name);
      k in r && r[k] == CarrierFacts(cfg, ctx, collectEnabled)[k]
  {
    var p1 := CarrierFacts(cfg, ctx, collectEnabled);
    var p2 := if name != AppEnd then cfg.env.merge(ctx.latestUtm, p1) else p1;
    assert k in p2 && p2[k] == p1[k];
    var p3 := MergeSuperProperties(cfg, ctx, p2);
    assert k in p3 && p3[k] == p1[k];
  }

  /**
   * Whether trackEvent goes on to compose: a track kind needs a valid,
   * unsuppressed name; the properties must pass the type check; and only
   * track and profile kinds are composed.
   */
  predicate TrackAdmits(cfg: Config, eventType: EventType, name: string, properties: Option<Props>) {
    (eventType.IsTrack() ==> cfg.env.isKeyValid(name) && !cfg.env.isIgnored(name))
    && (properties.Some? ==> cfg.env.arePropertyTypesValid(properties.value))
    && (eventType.IsTrack() || eventType.IsProfile())
  }

  /**
   * The arguments trackEvent passes on, or None when it drops the call. The
   * reported name is the given one with any timer decoration trimmed; `timer`
   * is the timer registered under the untrimmed name.
   */
  function TrackRequest(cfg: Config, ctx: Context, collectEnabled: bool, eventType: EventType,
                        eventName: string, properties: Option<Props>, originalDistinctId: string,
                        distinctId: string, loginId: string, timer: Option<Timer>): (r: Option<EventArgs>)
    ensures r.Some? <==> TrackAdmits(cfg, eventType, if eventName != "" then TrimTimerSuffix(eventName) else eventName, properties)
    ensures r.Some? ==> r.value.eventName == (if eventName != "" then TrimTimerSuffix(eventName) else eventName)
    ensures r.Some? && !eventType.IsTrack() ==> r.value.sendProperties == map[]
    ensures r.Some? ==> r.value.timer == timer && r.value.properties == properties
    ensures r.Some? ==>
      r.value.eventType == eventType && r.value.originalDistinctId == originalDistinctId
      && r.value.distinctId == distinctId && r.value.loginId == loginId
    ensures r.Some? && eventType.IsTrack() ==>
      r.value.sendProperties == TrackBaseProperties(cfg, ctx, collectEnabled, r.value.eventName)
  {
    var name := if eventName != "" then TrimTimerSuffix(eventName) else eventName;
    if !TrackAdmits(cfg, eventType, name, properties) then None
    else
      var send := if eventType.IsTrack() then TrackBaseProperties(cfg, ctx, collectEnabled, name) else map[];
      Some(EventArgs(eventType, name, properties, send, originalDistinctId, distinctId, loginId, timer))
  }

  /** The record instant, versions and properties after the $AppStart/$AppEnd special cases. */
  datatype Stamp = Stamp(time: int, libVersion: string, appVersion: string, properties: Props)

  /**
   * $AppEnd takes its instant from "event_time" when that exceeds 2000, and
   * its versions from non-empty "$lib_version"/"$app_version" properties
   * (an empty one is dropped); $AppStart takes "event_time" when positive.
   * Both lose "event_time"; every other event keeps `now` and its properties.
   */
  function AppEventStamp(env: Env, name: string, p: Props, now: int, libVersion: string, appVersion: string): (r: Stamp)
    ensures name == AppEnd ==> r.time == (if OptLong(p, EventTimeKey) > 2000 then OptLong(p, EventTimeKey) else now)
    ensures name == AppStart ==> r.time == (if OptLong(p, EventTimeKey) > 0 then OptLong(p, EventTimeKey) else now)
    ensures name == AppEnd || name == AppStart ==> EventTimeKey !in r.properties
    ensures name == AppEnd ==>
      r.libVersion == (if OptString(env, p, LibVersionKey) != "" then OptString(env, p, LibVersionKey) else libVersion)
      && r.appVersion == (if OptString(env, p, AppVersionKey) != "" then OptString(env, p, AppVersionKey) else appVersion)
    ensures name != AppEnd && name != AppStart ==> r == Stamp(now, libVersion, appVersion, p)
    ensures name == AppStart ==> r.properties == p - {EventTimeKey}
    ensures name == AppEnd ==>
      r.properties == p - {EventTimeKey}
                        - (if OptString(env, p, LibVersionKey) == "" then {LibVersionKey} else {})
                        - (if OptString(env, p, AppVersionKey) == "" then {AppVersionKey} else {})
    ensures r.properties.Keys <= p.Keys
    ensures forall k :: k in r.properties ==> r.properties[k] == p[k]
  {
    if name == AppEnd then
      var eventTime := OptLong(p, EventTimeKey);
      var libV := OptString(env, p, LibVersionKey);
      var appV := OptString(env, p, AppVersionKey);
      var p1 := if libV != "" then p else p - {LibVersionKey};
      var p2 := if appV != "" then p1 else p1 - {AppVersionKey};
      Stamp(if eventTime > 2000 then eventTime else now,
            if libV != "" then libV else libVersion,
            if appV != "" then appV else appVersion,
            p2 - {EventTimeKey})
    else if name == AppStart then
      var eventTime := OptLong(p, EventTimeKey);
      Stamp(if eventTime > 0 then eventTime else now, libVersion, appVersion, p - {EventTimeKey})
    else Stamp(now, libVersion, appVersion, p)
  }

  /** The reserved keys, which never stay among a record's properties. */
  const ReservedKeys: set<string> := {ProjectKey, TokenKey, TimeKey}

  /** A document after the reserved keys are lifted out, with the fields they yield. */
  datatype Lifted = Lifted(properties: Props, project: Option<string>, token: Option<string>, time: int)

  /**
   * The instant a "$time" value carries: a Date for code-originated events,
   * a number for embedded-web ones.
   */
  function ReservedTime(v: Value, fromWeb: bool): Option<int> {
    if fromWeb && v.Num? then Some(v.n)
    else if !fromWeb && v.Date? then Some(v.millis)
    else None
  }

  /**
   * The lift of "$project", "$token" and "$time": the first two become the
   * project and token fields, "$time" replaces the instant only when it
   * carries a valid date, and all three leave the properties.
   */
  function LiftReserved(env: Env, p: Props, time: int, fromWeb: bool): (r: Lifted)
    ensures r.properties == p - ReservedKeys
    ensures r.project.Some? <==> ProjectKey in p
    ensures r.project.Some? ==> r.project.value == OptString(env, p, ProjectKey)
    ensures r.token.Some? <==> TokenKey in p
    ensures r.token.Some? ==> r.token.value == OptString(env, p, TokenKey)
    ensures TimeKey in p && ReservedTime(p[TimeKey], fromWeb).Some?
            && env.isDateValid(ReservedTime(p[TimeKey], fromWeb).value)
            ==> r.time == ReservedTime(p[TimeKey], fromWeb).value
    ensures r.time != time ==>
      TimeKey in p && ReservedTime(p[TimeKey], fromWeb) == Some(r.time) && env.isDateValid(r.time)
  {
    var project := if ProjectKey in p then Some(OptString(env, p, ProjectKey)) else None;
    var token := if TokenKey in p then Some(OptString(env, p, TokenKey)) else None;
    var given := if TimeKey in p then ReservedTime(p[TimeKey], fromWeb) else None;
    var t := if given.Some? && env.isDateValid(given.value) then given.value else time;
    Lifted(p - ReservedKeys, project, token, t)
  }

  /** A record's distinct id: the given one, or the anonymous id when it is empty. */
  function SelectDistinctId(distinctId: string, anonymousId: string): (r: string)
    ensures distinctId == "" ==> r == anonymousId
    ensures distinctId != "" ==> r == distinctId
  {
    if distinctId == "" then anonymousId else distinctId
  }

  /** "$lib_method" of the library block: "autoTrack" only for a track kind whose properties say so. */
  function LibMethod(env: Env, eventType: EventType, properties: Option<Props>): (r: string)
    ensures r == "autoTrack" || r == "code"
    ensures r == "autoTrack" <==>
      eventType.IsTrack() && properties.Some? && OptString(env, properties.value, LibMethodKey) == "autoTrack"
  {
    if eventType.IsTrack() && properties.Some? && OptString(env, properties.value, LibMethodKey) == "autoTrack"
    then "autoTrack" else "code"
  }

  /** The "$app_version" of the persisted super properties, when present, overrides the library block's. */
  function SuperAppVersion(cfg: Config, lib: Props): (r: Props)
    ensures AppVersionKey in cfg.superProperties ==> r == lib[AppVersionKey := cfg.superProperties[AppVersionKey]]
    ensures AppVersionKey !in cfg.superProperties ==> r == lib
  {
    if AppVersionKey in cfg.superProperties then lib[AppVersionKey := cfg.superProperties[AppVersionKey]] else lib
  }

  /** A "$device_id" the properties carry is forced back to the device's own, when the device has one. */
  function ForceDeviceId(p: Props, deviceInfo: Props): (r: Props)
    ensures DeviceIdKey in p && DeviceIdKey in deviceInfo ==> r == p[DeviceIdKey := deviceInfo[DeviceIdKey]]
    ensures !(DeviceIdKey in p && DeviceIdKey in deviceInfo) ==> r == p
  {
    if DeviceIdKey in p && DeviceIdKey in deviceInfo then p[DeviceIdKey := deviceInfo[DeviceIdKey]] else p
  }

  /** The caller's properties with "$lib_detail" taken out, then the $AppStart/$AppEnd special cases. */
  function RecordStamp(cfg: Config, ctx: Context, a: EventArgs): Stamp {
    var appVersion := OptString(cfg.env, cfg.deviceInfo, AppVersionKey);
    match a.properties
    case None => Stamp(ctx.now, cfg.version, appVersion, map[])
    case Some(p) => AppEventStamp(cfg.env, a.eventName, p - {LibDetailKey}, ctx.now, cfg.version, appVersion)
  }

  /**
   * The properties before the reserved keys are lifted: the call's own
   * properties merged over the prepared ones, "$lib_method" set to "code"
   * unless the call is auto-tracked, and the timer's duration when positive.
   */
  function PreLiftProperties(cfg: Config, ctx: Context, a: EventArgs): Props {
    var stamp := RecordStamp(cfg, ctx, a);
    var p1 := if a.properties.Some? then cfg.env.merge(stamp.properties, a.sendProperties) else a.sendProperties;
    var p2 :=
      if a.eventType.IsTrack() && LibMethod(cfg.env, a.eventType, a.properties) == "code"
      then p1[LibMethodKey := Str("code")] else p1;
    if a.timer.Some? && cfg.env.duration(a.timer.value, ctx.now) > 0
    then p2["event_duration" := Num(cfg.env.duration(a.timer.value, ctx.now))] else p2
  }

  /**
   * The record trackEventInternal builds before the sanitiser and the
   * plugin-version tag run.
   */
  function DraftRecord(cfg: Config, ctx: Context, a: EventArgs): (r: EventRecord)
    ensures r.eventType == a.eventType && r.anonymousId == cfg.anonymousId
    ensures r.distinctId == SelectDistinctId(a.distinctId, cfg.anonymousId)
    ensures r.event == (if a.eventType.IsTrack() then Some(a.eventName) else None)
    ensures ReservedKeys !! r.properties.Keys
    ensures a.eventType == Track ==>
      "$is_first_day" in r.properties
      && r.properties["$is_first_day"] == Bool(IsFirstDay(cfg.firstDay, RecordStamp(cfg, ctx, a).time, cfg.env.formatDay))
    ensures DeviceIdKey in r.properties && DeviceIdKey in cfg.deviceInfo ==>
      r.properties[DeviceIdKey] == cfg.deviceInfo[DeviceIdKey]
  {
    var stamp := RecordStamp(cfg, ctx, a);
    var given := if a.properties.Some? then OptString(cfg.env, a.properties.value, LibDetailKey) else "";
    var libDetail := if given != "" then given else ctx.callSite;
    var lib0 := map[LibMethodKey := Str(LibMethod(cfg.env, a.eventType, a.properties)),
                    "$lib" := Str("Android"),
                    LibVersionKey := Str(stamp.libVersion),
                    AppVersionKey := Str(stamp.appVersion)];
    var lib := SuperAppVersion(cfg, lib0)[LibDetailKey := Str(libDetail)];
    var lifted := LiftReserved(cfg.env, PreLiftProperties(cfg, ctx, a), stamp.time, false);
    var props :=
      if a.eventType == Track
      then lifted.properties["$is_first_day" := Bool(IsFirstDay(cfg.firstDay, stamp.time, cfg.env.formatDay))]
      else lifted.properties;
    EventRecord(
      lifted.time, a.eventType, lifted.project, lifted.token,
      SelectDistinctId(a.distinctId, cfg.anonymousId),
      if a.loginId == "" then None else Some(a.loginId),
      cfg.anonymousId, lib,
      if a.eventType.IsTrack() then Some(a.eventName) else None,
      if a.eventType == TrackSignup then Some(a.originalDistinctId) else None,
      ForceDeviceId(props, cfg.deviceInfo))
  }

  /** The outcome of composing a record: dropped by the sanitiser, or emitted with the new plugin-tag flag. */
  datatype Composition = Dropped | Emitted(record: EventRecord, tagged: bool)

  /**
   * trackEventInternal as a function: a track kind passes the sanitiser and
   * takes the plugin-version tag; a profile kind is emitted as drafted.
   */
  function ComposeRecord(cfg: Config, ctx: Context, tagged: bool, a: EventArgs): (r: Composition)
    ensures r.Emitted? <==>
      !a.eventType.IsTrack() || EnterDb(cfg.env, a.eventName, DraftRecord(cfg, ctx, a).properties).Some?
    ensures r.Emitted? ==> r.record == DraftRecord(cfg, ctx, a).(properties := r.record.properties)
    ensures r.Emitted? && !a.eventType.IsTrack() ==> r.record == DraftRecord(cfg, ctx, a) && r.tagged == tagged
    ensures r.Emitted? && a.eventType.IsTrack() ==>
      (r.record.properties, r.tagged)
      == AttachPluginVersion(tagged, EnterDb(cfg.env, a.eventName, DraftRecord(cfg, ctx, a).properties).value,
                             cfg.pluginVersionName)
  {
    var draft := DraftRecord(cfg, ctx, a);
    if !a.eventType.IsTrack() then Emitted(draft, tagged)
    else match EnterDb(cfg.env, a.eventName, draft.properties)
      case None => Dropped
      case Some(clean) =>
        var (props, tagged') := AttachPluginVersion(tagged, clean, cfg.pluginVersionName);
        Emitted(draft.(properties := props), tagged')
  }

  /**
   * No emitted record keeps "$project", "$token" or "$time" among its
   * properties; "$project" and "$token" appear as the project and token
   * fields exactly when the properties carried them.
   */
  lemma RecordLiftsReservedKeys(cfg: Config, ctx: Context, tagged: bool, a: EventArgs)
    requires ComposeRecord(cfg, ctx, tagged, a).Emitted?
    ensures var r := ComposeRecord(cfg, ctx, tagged, a).record;
      var pre := PreLiftProperties(cfg, ctx, a);
      ProjectKey !in r.properties && TokenKey !in r.properties && TimeKey !in r.properties
      && (r.project.Some? <==> ProjectKey in pre)
      && (r.project.Some? ==> r.project.value == OptString(cfg.env, pre, ProjectKey))
      && (r.token.Some? <==> TokenKey in pre)
      && (r.token.Some? ==> r.token.value == OptString(cfg.env, pre, TokenKey))
  {
    var draft := DraftRecord(cfg, ctx, a);
    var stamp := RecordStamp(cfg, ctx, a);
    var lifted := LiftReserved(cfg.env, PreLiftProperties(cfg, ctx, a), stamp.time, false);
    assert draft.properties.Keys <= lifted.properties.Keys + {"$is_first_day"};
    assert ProjectKey !in draft.properties && TokenKey !in draft.properties && TimeKey !in draft.properties;
    if a.eventType.IsTrack() {
      var clean := EnterDb(cfg.env, a.eventName, draft.properties).value;
      assert clean.Keys == draft.properties.Keys;
    }
  }

  /**
   * The record instant is the "$time" date when that is present and valid,
   * and otherwise the instant from the $AppStart/$AppEnd rules (the call
   * instant for any other event).
   */
  lemma RecordTime(cfg: Config, ctx: Context, tagged: bool, a: EventArgs)
    requires ComposeRecord(cfg, ctx, tagged, a).Emitted?
    ensures var r := ComposeRecord(cfg, ctx, tagged, a).record;
      var pre := PreLiftProperties(cfg, ctx, a);
      var stamp := RecordStamp(cfg, ctx, a);
      if TimeKey in pre && pre[TimeKey].Date? && cfg.env.isDateValid(pre[TimeKey].millis)
      then r.time == pre[TimeKey].millis
      else r.time == stamp.time
  {
    var pre := PreLiftProperties(cfg, ctx, a);
    var stamp := RecordStamp(cfg, ctx, a);
    var lifted := LiftReserved(cfg.env, pre, stamp.time, false);
    assert DraftRecord(cfg, ctx, a).time == lifted.time;
  }

  /**
   * Identity fields: the distinct id is the anonymous id when the given one
   * is empty and the given one otherwise; a login id appears only when
   * non-empty; the anonymous id is always attached; a signup names the
   * original id.
   */
  lemma RecordIdentity(cfg: Config, ctx: Context, tagged: bool, a: EventArgs)
    requires ComposeRecord(cfg, ctx, tagged, a).Emitted?
    ensures var r := ComposeRecord(cfg, ctx, tagged, a).record;
      (a.distinctId == "" ==> r.distinctId == cfg.anonymousId)
      && (a.distinctId != "" ==> r.distinctId == a.distinctId)
      && (r.loginId.Some? <==> a.loginId != "")
      && (r.loginId.Some? ==> r.loginId.value == a.loginId)
      && r.anonymousId == cfg.anonymousId
      && (r.originalId.Some? <==> a.eventType == TrackSignup)
      && (r.event.Some? <==> a.eventType.IsTrack())
  {
    var draft := DraftRecord(cfg, ctx, a);
    assert draft.distinctId == SelectDistinctId(a.distinctId, cfg.anonymousId);
  }

  /**
   * The library block says "code" or "autoTrack"; a track record composed
   * by code also says "code" in its properties, which the sanitiser keeps
   * as it is.
   */
  lemma RecordLibMethod(cfg: Config, ctx: Context, tagged: bool, a: EventArgs)
    requires ComposeRecord(cfg, ctx, tagged, a).Emitted?
    ensures var r := ComposeRecord(cfg, ctx, tagged, a).record;
      LibMethodKey in r.lib && (r.lib[LibMethodKey] == Str("code") || r.lib[LibMethodKey] == Str("autoTrack"))
      && r.lib["$lib"] == Str("Android")
      && (a.eventType.IsTrack() && r.lib[LibMethodKey] == Str("code") ==>
            LibMethodKey in r.properties && r.properties[LibMethodKey] == Str("code"))
  {
    var draft := DraftRecord(cfg, ctx, a);
    DraftLibMethod(cfg, ctx, a);
    if a.eventType.IsTrack() && LibMethod(cfg.env, a.eventType, a.properties) == "code" && cfg.env.trackCallback.Some? {
      var clean := EnterDb(cfg.env, a.eventName, draft.properties).value;
      assert clean[LibMethodKey] == SanitizeValue(cfg.env, LibMethodKey, Str("code"));
    }
  }

  /** The drafted record's library block and "$lib_method" property. */
  lemma DraftLibMethod(cfg: Config, ctx: Context, a: EventArgs)
    ensures var draft := DraftRecord(cfg, ctx, a);
      LibMethodKey in draft.lib && draft.lib[LibMethodKey] == Str(LibMethod(cfg.env, a.eventType, a.properties))
      && "$lib" in draft.lib && draft.lib["$lib"] == Str("Android")
      && (a.eventType.IsTrack() && LibMethod(cfg.env, a.eventType, a.properties) == "code" ==>
            LibMethodKey in draft.properties && draft.properties[LibMethodKey] == Str("code"))
  {
    var pre := PreLiftProperties(cfg, ctx, a);
    if a.eventType.IsTrack() && LibMethod(cfg.env, a.eventType, a.properties) == "code" {
      assert pre[LibMethodKey] == Str("code");
    }
  }

  /**
   * A "$device_id" among a record's properties is the device's own when the
   * device has one; for a track kind with a registered callback it is that
   * value as the sanitiser leaves it.
   */
  lemma RecordDeviceId(cfg: Config, ctx: Context, tagged: bool, a: EventArgs)
    requires ComposeRecord(cfg, ctx, tagged, a).Emitted?
    requires DeviceIdKey in cfg.deviceInfo
    ensures var r := ComposeRecord(cfg, ctx, tagged, a).record;
      DeviceIdKey in r.properties ==>
        r.properties[DeviceIdKey]
        == if a.eventType.IsTrack() && cfg.env.trackCallback.Some?
           then SanitizeValue(cfg.env, DeviceIdKey, cfg.deviceInfo[DeviceIdKey])
           else cfg.deviceInfo[DeviceIdKey]
  {
    var draft := DraftRecord(cfg, ctx, a);
    var r := ComposeRecord(cfg, ctx, tagged, a).record;
    if a.eventType.IsTrack() && DeviceIdKey in r.properties {
      var clean := EnterDb(cfg.env, a.eventName, draft.properties).value;
      assert r.properties.Keys <= clean.Keys + {PluginVersionKey};
      assert DeviceIdKey in clean && r.properties[DeviceIdKey] == clean[DeviceIdKey];
    }
  }
}

/** The kinds of event, the configuration and per-call inputs, and the records handed to the durable queue. */
module Events {
  import opened Wrappers
  import opened Json
  import opened Timers
  import opened Collab

  /** EventType, with the wire name each kind carries in a record's "type" field. */
  datatype EventType =
    | Track | TrackSignup
    | ProfileSet | ProfileSetOnce | ProfileUnset | ProfileIncrement | ProfileAppend | ProfileDelete
    | RegisterSuperProperties | UnregisterSuperProperties | ClearSuperProperties
  {
    predicate IsTrack() {
      Track? || TrackSignup?
    }

    predicate IsProfile() {
      ProfileSet? || ProfileSetOnce? || ProfileUnset? || ProfileIncrement? || ProfileAppend? || ProfileDelete?
    }

    function Name(): string {
      match this
      case Track => "track"
      case TrackSignup => "track_signup"
      case ProfileSet => "profile_set"
      case ProfileSetOnce => "profile_set_once"
      case ProfileUnset => "profile_unset"
      case ProfileIncrement => "profile_increment"
      case ProfileAppend => "profile_append"
      case ProfileDelete => "profile_delete"
      case RegisterSuperProperties => "register_super_properties"
      case UnregisterSuperProperties => "unregister_super_properties"
      case ClearSuperProperties => "clear_super_properties"
    }
  }

  /** The event kind an embedded-web document names in its "type" field; None for an unknown name. */
  function ParseEventType(s: string): (r: Option<EventType>)
    ensures r.Some? ==> r.value.Name() == s
  {
    if s == "track" then Some(Track)
    else if s == "track_signup" then Some(TrackSignup)
    else if s == "profile_set" then Some(ProfileSet)
    else if s == "profile_set_once" then Some(ProfileSetOnce)
    else if s == "profile_unset" then Some(ProfileUnset)
    else if s == "profile_increment" then Some(ProfileIncrement)
    else if s == "profile_append" then Some(ProfileAppend)
    else if s == "profile_delete" then Some(ProfileDelete)
    else if s == "register_super_properties" then Some(RegisterSuperProperties)
    else if s == "unregister_super_properties" then Some(UnregisterSuperProperties)
    else if s == "clear_super_properties" then Some(ClearSuperProperties)
    else None
  }

  /** Every kind's wire name parses back to that kind. */
  lemma ParseName(t: EventType)
    ensures ParseEventType(t.Name()) == Some(t)
  {
  }

  /** What the SDK holds fixed while composing: collaborators, device facts, identity and versions. */
  datatype Config = Config(
    env: Env,
    /** VERSION, the SDK version. */
    version: string,
    /** SensorsDataAPI.ANDROID_PLUGIN_VERSION ("" when no build plugin is present). */
    pluginVersionName: string,
    /** mDeviceInfo. */
    deviceInfo: Props,
    /** getAnonymousId(). */
    anonymousId: string,
    /** The persisted super properties (mSuperProperties.get()). */
    superProperties: Props,
    /** The stored first day (mFirstDay.get()), None when never stored. */
    firstDay: Option<string>,
    /** getSessionIntervalTime(). */
    sessionIntervalTime: int,
    /** mSAConfigOptions.mEnableReferrerTitle. */
    enableReferrerTitle: bool
  )

  /** What one composition reads from the world: the clock and the device's current state. */
  datatype Context = Context(
    now: int,
    /** SensorsDataUtils.getCarrier ("" when unknown). */
    carrier: string,
    /** NetworkUtils.networkType. */
    networkType: string,
    /** getScreenOrientation ("" when unknown). */
    screenOrientation: string,
    /** mReferrerScreenTitle. */
    referrerTitle: Option<string>,
    /** ChannelUtils.getLatestUtmProperties. */
    latestUtm: Props,
    /** The dynamic super-properties callback's result; None when unset or when it throws. */
    dynamicSuperProperties: Option<Props>,
    /** The "class##method##file##line" call-site tag the source takes from a stack trace. */
    callSite: string
  )

  /** The arguments trackEventInternal receives, captured as they are when a deferred call is queued. */
  datatype EventArgs = EventArgs(
    eventType: EventType,
    eventName: string,
    properties: Option<Props>,
    sendProperties: Props,
    originalDistinctId: string,
    distinctId: string,
    loginId: string,
    timer: Option<Timer>
  )

  /** The arguments of an item event. */
  datatype ItemArgs = ItemArgs(
    itemType: string, itemId: string, eventType: string, time: int, properties: Option<Props>)

  /** A composed track or profile record (the dataObj of trackEventInternal). */
  datatype EventRecord = EventRecord(
    time: int,
    eventType: EventType,
    project: Option<string>,
    token: Option<string>,
    distinctId: string,
    loginId: Option<string>,
    anonymousId: string,
    lib: Props,
    event: Option<string>,
    originalId: Option<string>,
    properties: Props
  )

  /** What the pipeline hands to the durable queue (enqueueEventMessage). */
  datatype Message =
    | Event(record: EventRecord)
    | Web(typeName: string, document: Props)
    | Item(typeName: string, itemType: string, itemId: string, time: int,
           project: Option<string>, lib: Props, properties: Option<Props>)

  /** A composition request held back while data collection is disabled. */
  datatype Deferred =
    | DeferredEvent(args: EventArgs)
    | DeferredWeb(document: Props)
    | DeferredItem(item: ItemArgs)
}

/** Small pieces of flag logic: the first-day check, the plugin-version tag and the auto-track mask. */
module Flags {
  import opened Wrappers
  import opened Json
  import opened Names

  /**
   * isFirstDay: true when no first day has been stored, otherwise whether
   * the event's day (as the day format renders it) is the stored one.
   */
  function IsFirstDay(firstDay: Option<string>, eventTime: int, formatDay: int -> string): (r: bool)
    ensures firstDay.None? ==> r
    ensures firstDay.Some? ==> (r <==> formatDay(eventTime) == firstDay.value)
  {
    match firstDay
    case None => true
    case Some(day) => day == formatDay(eventTime)
  }

  /** getPluginVersion: ["android:<version>"] when a plugin version is known, None otherwise. */
  function PluginVersion(pluginVersionName: string): (r: Option<Value>)
    ensures r.None? <==> pluginVersionName == ""
    ensures r.Some? ==> r.value == Arr([Str("android:" + pluginVersionName)])
  {
    if pluginVersionName == "" then None else Some(Arr([Str("android:" + pluginVersionName)]))
  }

  /**
   * The once-only plugin-version tag (isTrackEventWithPluginVersion): until
   * the flag is set, the first properties without a tag of their own get the
   * plugin version (when there is one) and the flag is set.
   */
  function AttachPluginVersion(tagged: bool, props: Props, pluginVersionName: string): (r: (Props, bool))
    ensures r.1 == (tagged || PluginVersionKey !in props)
    ensures r.0.Keys == props.Keys + (if r.0 != props then {PluginVersionKey} else {})
    ensures r.0 != props ==>
      !tagged && PluginVersionKey !in props && pluginVersionName != ""
      && r.0 == props[PluginVersionKey := PluginVersion(pluginVersionName).value]
    ensures !tagged && PluginVersionKey !in props && pluginVersionName != "" ==> r.0 != props
  {
    if !tagged && PluginVersionKey !in props then
      match PluginVersion(pluginVersionName)
      case None => (props, true)
      case Some(v) => (props[PluginVersionKey := v], true)
    else (props, tagged)
  }

  /** Of two consecutive records, at most one receives the plugin-version tag. */
  lemma PluginVersionAtMostOnce(tagged: bool, first: Props, second: Props, pluginVersionName: string)
    ensures var (a, t) := AttachPluginVersion(tagged, first, pluginVersionName);
      var (b, _) := AttachPluginVersion(t, second, pluginVersionName);
      a == first || b == second
  {
  }

  /**
   * enableAutoTrack on the event-type mask: a type outside 1..15 changes
   * nothing (None); otherwise its bits are added and no bit is removed.
   */
  function AutoTrackMask(mask: bv32, eventType: int): (r: Option<bv32>)
    ensures r.None? <==> eventType <= 0 || eventType > 15
    ensures r.Some? ==> r.value & mask == mask && r.value & TypeBits(eventType) == TypeBits(eventType)
    ensures r.Some? ==> r.value == mask | TypeBits(eventType)
  {
    if eventType <= 0 || eventType > 15 then None else Some(mask | TypeBits(eventType))
  }

  /** The bits of an auto-track event type in 1..15 (the low four bits of the int). */
  function TypeBits(eventType: int): (b: bv32)
    requires 0 < eventType <= 15
    ensures b != 0
  {
    (eventType as bv8) as bv32
  }
}

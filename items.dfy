/** Item events (trackItemEvent): a typed item record with its own library block and optional project. */
module Items {
  import opened Wrappers
  import opened Json
  import opened Names
  import opened Collab
  import opened Events
  import opened Records

  /** The item property that names a project instead of being sent as a property. */
  const ProjectProperty: string := "$project"

  /** trackItemEvent's argument checks: the item type is a valid key, the id a valid value, the properties well typed. */
  predicate ItemAdmits(env: Env, a: ItemArgs) {
    env.isKeyValid(a.itemType) && env.isValueValid(a.itemId)
    && (a.properties.Some? ==> env.arePropertyTypesValid(a.properties.value))
  }

  /**
   * What an item's "$project" property holds: nothing, a string, or a value
   * of another kind, whose cast to a string fails and drops the event.
   */
  datatype ProjectLookup = NoProject | Project(name: string) | NotAString

  /** The "$project" lookup of an item's properties. */
  function LookupProject(properties: Option<Props>): (r: ProjectLookup)
    ensures r.NoProject? <==> properties.None? || ProjectProperty !in properties.value
    ensures r.Project? <==> properties.Some? && ProjectProperty in properties.value
                            && properties.value[ProjectProperty].Str?
    ensures r.Project? ==> properties.value[ProjectProperty] == Str(r.name)
  {
    if properties.None? || ProjectProperty !in properties.value then NoProject
    else match properties.value[ProjectProperty]
      case Str(s) => Project(s)
      case _ => NotAString
  }

  /**
   * The library block of an item event: the platform, the SDK version, the
   * "code" method, the app version (the device's, overridden by the super
   * properties'), and the call site when there is one.
   */
  function ItemLib(cfg: Config, ctx: Context): (r: Props)
    ensures "$lib" in r && r["$lib"] == Str("Android")
    ensures LibVersionKey in r && r[LibVersionKey] == Str(cfg.version)
    ensures LibMethodKey in r && r[LibMethodKey] == Str("code")
    ensures AppVersionKey in cfg.superProperties ==>
      AppVersionKey in r && r[AppVersionKey] == cfg.superProperties[AppVersionKey]
    ensures AppVersionKey !in cfg.superProperties && AppVersionKey in cfg.deviceInfo ==>
      AppVersionKey in r && r[AppVersionKey] == cfg.deviceInfo[AppVersionKey]
    ensures AppVersionKey !in cfg.superProperties && AppVersionKey !in cfg.deviceInfo ==> AppVersionKey !in r
    ensures LibDetailKey in r <==> ctx.callSite != ""
  {
    var l0 := map["$lib" := Str("Android"), LibVersionKey := Str(cfg.version), LibMethodKey := Str("code")];
    var l1 := if AppVersionKey in cfg.deviceInfo then l0[AppVersionKey := cfg.deviceInfo[AppVersionKey]] else l0;
    var l2 := SuperAppVersion(cfg, l1);
    if ctx.callSite != "" then l2[LibDetailKey := Str(ctx.callSite)] else l2
  }

  /**
   * trackItemEvent with data collection enabled: None where the source
   * drops the event (an argument check fails, or "$project" is not a
   * string); otherwise the item record. "$project" is lifted out: the
   * record names it as its project exactly when it is a non-empty string,
   * and the properties handed to the date formatter no longer hold it. The
   * library block always reports the "code" method and the SDK version.
   */
  function ComposeItem(cfg: Config, ctx: Context, a: ItemArgs): (r: Option<Message>)
    ensures r.Some? <==>
      ItemAdmits(cfg.env, a)
      && (a.properties.Some? && ProjectProperty in a.properties.value ==> a.properties.value[ProjectProperty].Str?)
    ensures r.Some? ==>
      r.value.Item? && r.value.typeName == a.eventType
      && r.value.itemType == a.itemType && r.value.itemId == a.itemId && r.value.time == a.time
    ensures r.Some? ==>
      (r.value.project.Some? <==>
        a.properties.Some? && ProjectProperty in a.properties.value
        && a.properties.value[ProjectProperty] != Str(""))
    ensures r.Some? && r.value.project.Some? ==> a.properties.value[ProjectProperty] == Str(r.value.project.value)
    ensures r.Some? ==> (r.value.properties.None? <==> a.properties.None?)
    ensures r.Some? && a.properties.Some? ==>
      r.value.properties == Some(cfg.env.formatDates(a.properties.value - {ProjectProperty}))
    ensures r.Some? ==>
      LibMethodKey in r.value.lib && r.value.lib[LibMethodKey] == Str("code")
      && LibVersionKey in r.value.lib && r.value.lib[LibVersionKey] == Str(cfg.version)
  {
    if !ItemAdmits(cfg.env, a) then None
    else
      var lookup := LookupProject(a.properties);
      if lookup.NotAString? then None
      else
        var project := if lookup.Project? && lookup.name != "" then Some(lookup.name) else None;
        var properties := match a.properties
          case None => None
          case Some(p) => Some(cfg.env.formatDates(p - {ProjectProperty}));
        Some(Item(a.eventType, a.itemType, a.itemId, a.time, project, ItemLib(cfg, ctx), properties))
  }
}

/**
 * Reconciliation of events that arrive from an embedded web view as a
 * ready-made JSON document (trackEventH5), including the signup transition
 * from anonymous to logged-in identity.
 */
module Web {
  import opened Wrappers
  import opened Json
  import opened Names
  import opened Collab
  import opened Sanitizer
  import opened Flags
  import opened Events
  import opened Records

  /** Keys the web view uses for transport, which a reconciled document never keeps. */
  const TransportKeys: set<string> := {"_nocache", "server_url", "_flush_time"}

  /**
   * transformH5TaskQueue's stamp: a document whose properties lack "$time"
   * gets the current instant there, as a number; otherwise it is unchanged.
   */
  function StampWebTime(doc: Props, now: int): (r: Props)
    ensures OptObject(doc, "properties").None? ==> r == doc
    ensures OptObject(doc, "properties").Some? ==>
      var p := OptObject(doc, "properties").value;
      OptObject(r, "properties").Some?
      && (TimeKey in p ==> r == doc)
      && (TimeKey !in p ==> r == doc["properties" := Obj(p[TimeKey := Num(now)])])
  {
    match OptObject(doc, "properties")
    case None => doc
    case Some(p) => if TimeKey in p then doc else doc["properties" := Obj(p[TimeKey := Num(now)])]
  }

  /** The device's "$app_version", then the super properties', override the web document's library block. */
  function LibAppVersion(cfg: Config, lib: Props): (r: Props)
    ensures AppVersionKey in cfg.superProperties ==>
      AppVersionKey in r && r[AppVersionKey] == cfg.superProperties[AppVersionKey]
    ensures AppVersionKey !in cfg.superProperties && AppVersionKey in cfg.deviceInfo ==>
      AppVersionKey in r && r[AppVersionKey] == cfg.deviceInfo[AppVersionKey]
    ensures AppVersionKey !in cfg.superProperties && AppVersionKey !in cfg.deviceInfo ==> r == lib
  {
    var l := if AppVersionKey in cfg.deviceInfo then lib[AppVersionKey := cfg.deviceInfo[AppVersionKey]] else lib;
    SuperAppVersion(cfg, l)
  }

  /** The device facts a web track event takes: all but "$lib", "$lib_version" and the empty key. */
  function DeviceFacts(deviceInfo: Props): (r: Props)
    ensures r.Keys == deviceInfo.Keys - {"", "$lib", LibVersionKey}
    ensures forall k :: k in r ==> r[k] == deviceInfo[k]
  {
    map k | k in deviceInfo && k != "" && k != "$lib" && k != LibVersionKey :: deviceInfo[k]
  }

  /**
   * The properties of a web track event: the device facts over the page's,
   * the network type, the super properties, the first-day flag for the
   * arrival instant, and the latest channel properties.
   */
  function WebTrackProperties(cfg: Config, ctx: Context, p: Props): (r: Props)
    ensures MergeKeepsDest(cfg.env.merge) && FirstDayKey !in ctx.latestUtm ==>
      FirstDayKey in r && r[FirstDayKey] == Bool(IsFirstDay(cfg.firstDay, ctx.now, cfg.env.formatDay))
    ensures MergeKeepsDest(cfg.env.merge) ==>
      forall k :: k in DeviceFacts(cfg.deviceInfo) && k !in SuperPropertiesFor(cfg, ctx) && k !in ctx.latestUtm
                  && k != "$wifi" && k != "$network_type" && k != FirstDayKey ==>
        k in r && r[k] == cfg.deviceInfo[k]
  {
    var p1 := p + DeviceFacts(cfg.deviceInfo);
    var p2 := p1["$wifi" := Bool(ctx.networkType == "WIFI")]["$network_type" := Str(ctx.networkType)];
    var p3 := MergeSuperProperties(cfg, ctx, p2);
    var p4 := p3[FirstDayKey := Bool(IsFirstDay(cfg.firstDay, ctx.now, cfg.env.formatDay))];
    cfg.env.merge(ctx.latestUtm, p4)
  }

  /** The first-day flag a web track event carries. */
  const FirstDayKey := "$is_first_day"

  /**
   * The properties a web event goes on with: a track kind's are completed by
   * WebTrackProperties, any other kind's are the page's own; a document
   * without a properties object starts from an empty one.
   */
  function WebProperties(cfg: Config, ctx: Context, eventType: EventType, given: Option<Props>): Props {
    if eventType.IsTrack() then WebTrackProperties(cfg, ctx, given.GetOr(map[])) else given.GetOr(map[])
  }

  /** The web properties after "$project", "$token" and "$time" are lifted out; "$time" counts as a number. */
  function WebLifted(cfg: Config, ctx: Context, eventType: EventType, given: Option<Props>): Lifted {
    LiftReserved(cfg.env, WebProperties(cfg, ctx, eventType, given), ctx.now, true)
  }

  /** The document without the transport keys. */
  function StripTransport(doc: Props): (r: Props)
    ensures r.Keys == doc.Keys - TransportKeys
    ensures forall k :: k in r ==> r[k] == doc[k]
  {
    map k | k in doc && k !in TransportKeys :: doc[k]
  }

  /** The top-level fields the lifted reserved keys yield in a web document. */
  function WithReservedFields(doc: Props, lifted: Lifted): (r: Props)
    ensures r.Keys == doc.Keys + {"time"}
      + (if lifted.project.Some? then {"project"} else {}) + (if lifted.token.Some? then {"token"} else {})
    ensures r["time"] == Num(lifted.time)
    ensures lifted.project.Some? ==> r["project"] == Str(lifted.project.value)
    ensures lifted.token.Some? ==> r["token"] == Str(lifted.token.value)
    ensures forall k :: k in doc && k != "time" && k != "project" && k != "token" ==> r[k] == doc[k]
  {
    var d1 := if lifted.project.Some? then doc["project" := Str(lifted.project.value)] else doc;
    var d2 := if lifted.token.Some? then d1["token" := Str(lifted.token.value)] else d1;
    d2["time" := Num(lifted.time)]
  }

  /** A web document ready for the sanitiser: its type, the document without properties, and the properties. */
  datatype WebDraft = WebDraft(typeName: string, eventType: EventType, document: Props,
                               properties: Props, eventName: string)

  /**
   * The identity and arrival fields of a web document: a signup names the
   * anonymous id as its original id and keeps its own distinct id; any
   * other kind takes the login id, or the anonymous id when there is none.
   * Both carry the anonymous id and the arrival instant.
   */
  function WebIdentity(cfg: Config, ctx: Context, loginId: string, eventType: EventType, doc: Props): (r: Props)
    ensures r.Keys == doc.Keys + {"anonymous_id", "time"}
      + (if eventType == TrackSignup then {"original_id"} else {"distinct_id"})
    ensures r["anonymous_id"] == Str(cfg.anonymousId) && r["time"] == Num(ctx.now)
    ensures eventType == TrackSignup ==> r["original_id"] == Str(cfg.anonymousId)
    ensures eventType != TrackSignup ==>
      r["distinct_id"] == Str(if loginId != "" then loginId else cfg.anonymousId)
    ensures forall k :: k in doc && k != "anonymous_id" && k != "time" && k != "original_id" && k != "distinct_id" ==>
      r[k] == doc[k]
    ensures eventType == TrackSignup && "distinct_id" in doc ==> r["distinct_id"] == doc["distinct_id"]
  {
    var anon := cfg.anonymousId;
    var d := if eventType == TrackSignup then doc["original_id" := Str(anon)]
             else doc["distinct_id" := Str(if loginId != "" then loginId else anon)];
    d["anonymous_id" := Str(anon)]["time" := Num(ctx.now)]
  }

  /** The web document with its library block's "$app_version" overridden, when it has a library block. */
  function WebLib(cfg: Config, doc: Props): (r: Props)
    ensures r.Keys == doc.Keys
    ensures forall k :: k in doc && k != "lib" ==> r[k] == doc[k]
    ensures OptObject(doc, "lib").Some? ==> r["lib"] == Obj(LibAppVersion(cfg, OptObject(doc, "lib").value))
    ensures OptObject(doc, "lib").None? ==> r == doc
  {
    match OptObject(doc, "lib")
    case Some(lib) => doc["lib" := Obj(LibAppVersion(cfg, lib))]
    case None => doc
  }

  /** The identity fields of a web document. */
  const IdentityKeys: set<string> := {"anonymous_id", "original_id", "distinct_id"}

  /** The top-level fields the lifted reserved keys set: always "time", and "project" and "token" when lifted. */
  function LiftedFields(lifted: Lifted): set<string> {
    {"time"} + (if lifted.project.Some? then {"project"} else {}) + (if lifted.token.Some? then {"token"} else {})
  }

  /** Every top-level key the reconciliation may write or remove. */
  const ReconciledKeys: set<string> := TransportKeys + IdentityKeys + {"time", "project", "token", "lib"}

  /**
   * The lifted reserved fields added and the transport keys dropped; every
   * other field, the identity fields among them, is untouched.
   */
  function Finalize(doc: Props, lifted: Lifted): (r: Props)
    ensures TransportKeys !! r.Keys
    ensures "time" in r && r["time"] == Num(lifted.time)
    ensures lifted.project.Some? ==> "project" in r && r["project"] == Str(lifted.project.value)
    ensures lifted.token.Some? ==> "token" in r && r["token"] == Str(lifted.token.value)
    ensures forall k :: k !in TransportKeys && k !in LiftedFields(lifted) ==>
      (k in r <==> k in doc) && (k in doc ==> r[k] == doc[k])
  {
    StripTransport(WithReservedFields(doc, lifted))
  }

  /**
   * The top-level fields of a reconciled web document: identity, library
   * block, lifted reserved fields, and no transport keys; every field the
   * reconciliation does not name is the page's own.
   */
  function WebDocument(cfg: Config, ctx: Context, loginId: string, eventType: EventType, doc: Props,
                       lifted: Lifted): (r: Props)
    ensures TransportKeys !! r.Keys
    ensures "anonymous_id" in r && r["anonymous_id"] == Str(cfg.anonymousId)
    ensures eventType == TrackSignup ==>
      "original_id" in r && r["original_id"] == Str(cfg.anonymousId)
      && ("distinct_id" in r <==> "distinct_id" in doc)
      && ("distinct_id" in doc ==> r["distinct_id"] == doc["distinct_id"])
    ensures eventType != TrackSignup ==>
      "distinct_id" in r && r["distinct_id"] == Str(if loginId != "" then loginId else cfg.anonymousId)
    ensures "time" in r && r["time"] == Num(lifted.time)
    ensures lifted.project.Some? ==> "project" in r && r["project"] == Str(lifted.project.value)
    ensures lifted.token.Some? ==> "token" in r && r["token"] == Str(lifted.token.value)
    ensures OptObject(doc, "lib").Some? ==>
      "lib" in r && r["lib"] == Obj(LibAppVersion(cfg, OptObject(doc, "lib").value))
    ensures forall k :: k !in ReconciledKeys ==> (k in r <==> k in doc) && (k in doc ==> r[k] == doc[k])
  {
    WebDocumentIdentity(cfg, ctx, loginId, eventType, doc, lifted);
    WebDocumentLib(cfg, ctx, loginId, eventType, doc, lifted);
    WebDocumentOthers(cfg, ctx, loginId, eventType, doc, lifted);
    Finalize(WebLib(cfg, WebIdentity(cfg, ctx, loginId, eventType, doc)), lifted)
  }

  /** The keys the reconciliation names are distinct from one another. */
  lemma ReconciledKeysDistinct()
    ensures TransportKeys !! IdentityKeys
    ensures "lib" !in TransportKeys && "lib" !in IdentityKeys && "lib" !in {"time", "project", "token"}
    ensures "time" !in IdentityKeys && "project" !in IdentityKeys && "token" !in IdentityKeys
  {
  }

  /** The event name is not among the fields the reconciliation rewrites. */
  lemma EventNotReconciled()
    ensures "event" !in ReconciledKeys
  {
  }

  /** The identity fields of WebDocument, as WebIdentity sets them. */
  lemma WebDocumentIdentity(cfg: Config, ctx: Context, loginId: string, eventType: EventType, doc: Props,
                            lifted: Lifted)
    ensures var r := Finalize(WebLib(cfg, WebIdentity(cfg, ctx, loginId, eventType, doc)), lifted);
      forall k :: k in IdentityKeys ==>
        var i := WebIdentity(cfg, ctx, loginId, eventType, doc);
        (k in r <==> k in i) && (k in i ==> r[k] == i[k])
  {
    ReconciledKeysDistinct();
    var i := WebIdentity(cfg, ctx, loginId, eventType, doc);
    var l := WebLib(cfg, i);
    assert forall k :: k in IdentityKeys ==> k !in TransportKeys && k !in LiftedFields(lifted) && k != "lib";
  }

  /** The library block of WebDocument. */
  lemma WebDocumentLib(cfg: Config, ctx: Context, loginId: string, eventType: EventType, doc: Props,
                       lifted: Lifted)
    ensures var r := Finalize(WebLib(cfg, WebIdentity(cfg, ctx, loginId, eventType, doc)), lifted);
      OptObject(doc, "lib").Some? ==>
        "lib" in r && r["lib"] == Obj(LibAppVersion(cfg, OptObject(doc, "lib").value))
  {
    ReconciledKeysDistinct();
    var i := WebIdentity(cfg, ctx, loginId, eventType, doc);
    assert OptObject(i, "lib") == OptObject(doc, "lib");
    assert "lib" !in LiftedFields(lifted);
  }

  /** Every field of WebDocument the reconciliation does not name is the page's own. */
  lemma WebDocumentOthers(cfg: Config, ctx: Context, loginId: string, eventType: EventType, doc: Props,
                          lifted: Lifted)
    ensures var r := Finalize(WebLib(cfg, WebIdentity(cfg, ctx, loginId, eventType, doc)), lifted);
      forall k :: k !in ReconciledKeys ==> (k in r <==> k in doc) && (k in doc ==> r[k] == doc[k])
  {
    var i := WebIdentity(cfg, ctx, loginId, eventType, doc);
    var l := WebLib(cfg, i);
    assert LiftedFields(lifted) <= ReconciledKeys;
  }

  /**
   * Whether trackEventH5 gets past its checks for a parsed kind: the
   * properties object, when there is one, passes the type check, and a
   * track kind's "event" name passes assertKey.
   */
  predicate WebAdmits(cfg: Config, eventType: EventType, doc: Props) {
    (OptObject(doc, "properties").None? || cfg.env.arePropertyTypesValid(OptObject(doc, "properties").value))
    && (eventType.IsTrack() ==> cfg.env.isKeyValid(OptString(cfg.env, doc, "event")))
  }

  /**
   * trackEventH5 from the parsed kind up to the sanitiser, or None where the
   * source drops the event: properties failing the type check, or a track
   * kind whose "event" name fails assertKey.
   */
  function WebReconcile(cfg: Config, ctx: Context, loginId: string, typeName: string, eventType: EventType,
                        doc: Props): (r: Option<WebDraft>)
    ensures r.Some? <==> WebAdmits(cfg, eventType, doc)
    ensures r.Some? ==>
      r.value.typeName == typeName && r.value.eventType == eventType
      && r.value.eventName == OptString(cfg.env, doc, "event")
    ensures r.Some? ==>
      var lifted := WebLifted(cfg, ctx, eventType, OptObject(doc, "properties"));
      r.value.properties == lifted.properties
      && r.value.document == WebDocument(cfg, ctx, loginId, eventType, doc, lifted)
  {
    var given := OptObject(doc, "properties");
    if given.Some? && !cfg.env.arePropertyTypesValid(given.value) then None
    else
      var lifted := WebLifted(cfg, ctx, eventType, given);
      var document := WebDocument(cfg, ctx, loginId, eventType, doc, lifted);
      var eventName := OptString(cfg.env, document, "event");
      EventNotReconciled();
      assert eventName == OptString(cfg.env, doc, "event");
      if eventType.IsTrack() && !cfg.env.isKeyValid(eventName) then None
      else Some(WebDraft(typeName, eventType, document, lifted.properties, eventName))
  }

  /** The document trackEventH5 works on: the caller's, marked as coming from a web view. */
  function Hybrid(doc: Props): (r: Props)
    ensures r.Keys == doc.Keys + {"_hybrid_h5"} && r["_hybrid_h5"] == Bool(true)
    ensures forall k :: k in doc && k != "_hybrid_h5" ==> r[k] == doc[k]
  {
    doc["_hybrid_h5" := Bool(true)]
  }

  /** The event kind a web document names in its "type" field, if it names a known one. */
  function WebType(doc: Props): (r: Option<EventType>)
    ensures r.Some? <==> "type" in doc && doc["type"].Str? && ParseEventType(doc["type"].s).Some?
    ensures r.Some? ==> r == ParseEventType(doc["type"].s)
  {
    if "type" in doc && doc["type"].Str? then ParseEventType(doc["type"].s) else None
  }

  /**
   * trackEventH5 up to the sanitiser: a draft exists exactly when the
   * document names a known kind and passes that kind's checks.
   */
  function WebPrepare(cfg: Config, ctx: Context, loginId: string, doc: Props): (r: Option<WebDraft>)
    ensures r.Some? <==> WebType(doc).Some? && WebAdmits(cfg, WebType(doc).value, doc)
    ensures r.Some? ==>
      r.value.typeName == doc["type"].s && WebType(doc) == Some(r.value.eventType)
      && r.value.eventName == OptString(cfg.env, doc, "event")
    ensures r.Some? ==>
      var lifted := WebLifted(cfg, ctx, r.value.eventType, OptObject(doc, "properties"));
      r.value.properties == lifted.properties
      && r.value.document == WebDocument(cfg, ctx, loginId, r.value.eventType, Hybrid(doc), lifted)
  {
    match WebType(doc)
    case None => None
    case Some(eventType) =>
      var hybrid := Hybrid(doc);
      assert OptObject(hybrid, "properties") == OptObject(doc, "properties");
      assert OptString(cfg.env, hybrid, "event") == OptString(cfg.env, doc, "event");
      WebReconcile(cfg, ctx, loginId, doc["type"].s, eventType, hybrid)
  }

  /** What a web event does: the document it emits, the new plugin-tag flag, and the login id it commits. */
  datatype WebOutcome = WebOutcome(message: Option<Message>, tagged: bool, committed: Option<string>)

  /**
   * Whether a signup document commits: it carries a distinct id (read as
   * text) that differs from both the stored login id and the anonymous id.
   */
  predicate SignupCommits(cfg: Config, document: Props, loginId: string) {
    var id := GetString(cfg.env, document, "distinct_id");
    id.Some? && id.value != loginId && id.value != cfg.anonymousId
  }

  /**
   * The end of trackEventH5 once the properties are final. A signup commits
   * and emits exactly when SignupCommits holds, committing its distinct id;
   * any other kind is emitted with the stored login id when there is one.
   */
  function WebFinish(cfg: Config, draft: WebDraft, props: Props, tagged: bool, loginId: string): (r: WebOutcome)
    ensures r.tagged == tagged
    ensures draft.eventType != TrackSignup ==> r.message.Some? && r.committed.None?
    ensures draft.eventType == TrackSignup ==>
      (r.committed.Some? <==> SignupCommits(cfg, draft.document, loginId))
      && (r.message.Some? <==> r.committed.Some?)
    ensures r.committed.Some? ==>
      GetString(cfg.env, draft.document, "distinct_id") == Some(r.committed.value)
      && r.committed.value != loginId && r.committed.value != cfg.anonymousId
    ensures r.message.Some? ==>
      r.message.value.Web? && r.message.value.typeName == draft.typeName
      && r.message.value.document.Keys <= draft.document.Keys + {"properties", "login_id"}
      && "properties" in r.message.value.document && r.message.value.document["properties"] == Obj(props)
      && forall k :: k in draft.document && k != "properties" && k != "login_id" ==>
           k in r.message.value.document && r.message.value.document[k] == draft.document[k]
    ensures r.committed.Some? ==>
      r.message.Some? && "login_id" in r.message.value.document
      && r.message.value.document["login_id"] == Str(r.committed.value)
    ensures draft.eventType != TrackSignup && loginId != "" ==>
      r.message.Some? && "login_id" in r.message.value.document
      && r.message.value.document["login_id"] == Str(loginId)
  {
    var doc := draft.document["properties" := Obj(props)];
    if draft.eventType == TrackSignup then
      match GetString(cfg.env, draft.document, "distinct_id")
      case None => WebOutcome(None, tagged, None)
      case Some(newLoginId) =>
        if newLoginId != loginId && newLoginId != cfg.anonymousId then
          WebOutcome(Some(Web(draft.typeName, doc["login_id" := Str(newLoginId)])), tagged, Some(newLoginId))
        else WebOutcome(None, tagged, None)
    else
      var doc' := if loginId != "" then doc["login_id" := Str(loginId)] else doc;
      WebOutcome(Some(Web(draft.typeName, doc')), tagged, None)
  }

  /**
   * Whether a prepared web event is emitted: a track kind must pass the
   * sanitiser, and a signup must commit.
   */
  predicate WebEmits(cfg: Config, draft: WebDraft, loginId: string) {
    (draft.eventType.IsTrack() ==> EnterDb(cfg.env, draft.eventName, draft.properties).Some?)
    && (draft.eventType == TrackSignup ==> SignupCommits(cfg, draft.document, loginId))
  }

  /**
   * trackEventH5 as a function of the parsed document (collection enabled):
   * an event is emitted exactly when it is prepared and WebEmits holds, and
   * only an emitted signup commits.
   */
  function ComposeWeb(cfg: Config, ctx: Context, tagged: bool, loginId: string, doc: Props): (r: WebOutcome)
    ensures r.message.Some? <==>
      WebPrepare(cfg, ctx, loginId, doc).Some? && WebEmits(cfg, WebPrepare(cfg, ctx, loginId, doc).value, loginId)
    ensures r.committed.Some? <==> r.message.Some? && WebPrepare(cfg, ctx, loginId, doc).value.eventType == TrackSignup
    ensures WebPrepare(cfg, ctx, loginId, doc).None? ==> r.tagged == tagged
    ensures WebPrepare(cfg, ctx, loginId, doc).Some? ==>
      var draft := WebPrepare(cfg, ctx, loginId, doc).value;
      var clean := EnterDb(cfg.env, draft.eventName, draft.properties);
      (draft.eventType.IsTrack() && clean.Some? ==>
         r.tagged == AttachPluginVersion(tagged, clean.value, cfg.pluginVersionName).1
         && (r.message.Some? ==>
               r.message.value.Web? && "properties" in r.message.value.document
               && r.message.value.document["properties"] == Obj(AttachPluginVersion(tagged, clean.value, cfg.pluginVersionName).0)))
      && (!(draft.eventType.IsTrack() && clean.Some?) ==> r.tagged == tagged)
      && (!draft.eventType.IsTrack() && r.message.Some? ==>
            r.message.value.Web? && "properties" in r.message.value.document && r.message.value.document["properties"] == Obj(draft.properties))
  {
    match WebPrepare(cfg, ctx, loginId, doc)
    case None => WebOutcome(None, tagged, None)
    case Some(draft) => WebSettle(cfg, draft, tagged, loginId)
  }

  /**
   * The end of trackEventH5 for a prepared draft: a track kind must pass
   * the sanitiser and takes the plugin-version tag once, then WebFinish.
   * It emits exactly when WebEmits holds, and commits only an emitted signup.
   */
  function WebSettle(cfg: Config, draft: WebDraft, tagged: bool, loginId: string): (r: WebOutcome)
    ensures r.message.Some? <==> WebEmits(cfg, draft, loginId)
    ensures r.committed.Some? <==> r.message.Some? && draft.eventType == TrackSignup
    ensures draft.eventType.IsTrack() && EnterDb(cfg.env, draft.eventName, draft.properties).Some? ==>
      var tag := AttachPluginVersion(tagged, EnterDb(cfg.env, draft.eventName, draft.properties).value, cfg.pluginVersionName);
      r.tagged == tag.1
      && (r.message.Some? ==>
            r.message.value.Web? && "properties" in r.message.value.document
            && r.message.value.document["properties"] == Obj(tag.0))
    ensures !(draft.eventType.IsTrack() && EnterDb(cfg.env, draft.eventName, draft.properties).Some?) ==>
      r.tagged == tagged
    ensures !draft.eventType.IsTrack() && r.message.Some? ==>
      r.message.value.Web? && "properties" in r.message.value.document
      && r.message.value.document["properties"] == Obj(draft.properties)
  {
    if draft.eventType.IsTrack() then
      match EnterDb(cfg.env, draft.eventName, draft.properties)
      case None => WebOutcome(None, tagged, None)
      case Some(clean) =>
        var (props, tagged') := AttachPluginVersion(tagged, clean, cfg.pluginVersionName);
        WebFinish(cfg, draft, props, tagged', loginId)
    else WebFinish(cfg, draft, draft.properties, tagged, loginId)
  }

  /**
   * An emitted web document keeps none of the transport keys, and its
   * properties keep none of the reserved keys.
   */
  lemma WebDocumentClean(cfg: Config, ctx: Context, tagged: bool, loginId: string, doc: Props)
    requires ComposeWeb(cfg, ctx, tagged, loginId, doc).message.Some?
    ensures var m := ComposeWeb(cfg, ctx, tagged, loginId, doc).message.value;
      m.Web? && TransportKeys !! m.document.Keys
      && "properties" in m.document && m.document["properties"].Obj?
      && ReservedKeys !! m.document["properties"].fields.Keys
  {
    var draft, props, tagged' := ComposeWebFinishes(cfg, ctx, tagged, loginId, doc);
    FinishedClean(cfg, draft, props, tagged', loginId);
  }

  /** WebFinish adds no transport key and no reserved property. */
  lemma FinishedClean(cfg: Config, draft: WebDraft, props: Props, tagged: bool, loginId: string)
    requires TransportKeys !! draft.document.Keys && ReservedKeys !! props.Keys
    ensures var o := WebFinish(cfg, draft, props, tagged, loginId);
      o.message.Some? ==>
        o.message.value.Web? && TransportKeys !! o.message.value.document.Keys
        && "properties" in o.message.value.document && o.message.value.document["properties"] == Obj(props)
  {
    assert "properties" !in TransportKeys && "login_id" !in TransportKeys;
  }

  /**
   * A web outcome that emits or commits anything comes from WebFinish on
   * the prepared draft, with the sanitised (and possibly tagged) properties.
   */
  lemma ComposeWebFinishes(cfg: Config, ctx: Context, tagged: bool, loginId: string, doc: Props)
    returns (draft: WebDraft, props: Props, tagged': bool)
    requires ComposeWeb(cfg, ctx, tagged, loginId, doc).message.Some?
          || ComposeWeb(cfg, ctx, tagged, loginId, doc).committed.Some?
    ensures WebPrepare(cfg, ctx, loginId, doc) == Some(draft)
    ensures TransportKeys !! draft.document.Keys && ReservedKeys !! props.Keys
    ensures draft.eventType.IsTrack() ==>
      EnterDb(cfg.env, draft.eventName, draft.properties).Some?
      && (props, tagged') == AttachPluginVersion(tagged, EnterDb(cfg.env, draft.eventName, draft.properties).value, cfg.pluginVersionName)
    ensures !draft.eventType.IsTrack() ==> props == draft.properties && tagged' == tagged
    ensures ComposeWeb(cfg, ctx, tagged, loginId, doc) == WebFinish(cfg, draft, props, tagged', loginId)
  {
    draft := WebPrepare(cfg, ctx, loginId, doc).value;
    PreparedClean(cfg, ctx, loginId, doc);
    if draft.eventType.IsTrack() {
      var clean := EnterDb(cfg.env, draft.eventName, draft.properties).value;
      props, tagged' := AttachPluginVersion(tagged, clean, cfg.pluginVersionName).0, AttachPluginVersion(tagged, clean, cfg.pluginVersionName).1;
      TaggedClean(draft, clean, tagged, cfg.pluginVersionName);
    } else {
      props, tagged' := draft.properties, tagged;
    }
  }

  /** A prepared web draft holds no transport key, and its properties no reserved key. */
  lemma PreparedClean(cfg: Config, ctx: Context, loginId: string, doc: Props)
    requires WebPrepare(cfg, ctx, loginId, doc).Some?
    ensures TransportKeys !! WebPrepare(cfg, ctx, loginId, doc).value.document.Keys
    ensures ReservedKeys !! WebPrepare(cfg, ctx, loginId, doc).value.properties.Keys
  {
  }

  /** Tagging the sanitised properties of a prepared draft adds no reserved key. */
  lemma TaggedClean(draft: WebDraft, clean: Props, tagged: bool, pluginVersionName: string)
    requires ReservedKeys !! draft.properties.Keys && clean.Keys <= draft.properties.Keys
    ensures ReservedKeys !! AttachPluginVersion(tagged, clean, pluginVersionName).0.Keys
  {
    assert PluginVersionKey !in ReservedKeys;
  }

  /**
   * An emitted web document carries the reconciled "time" and, when the
   * properties named them, the lifted "project" and "token".
   */
  lemma WebLiftedFields(cfg: Config, ctx: Context, tagged: bool, loginId: string, doc: Props)
    requires ComposeWeb(cfg, ctx, tagged, loginId, doc).message.Some?
    ensures WebType(doc).Some?
    ensures var m := ComposeWeb(cfg, ctx, tagged, loginId, doc).message.value;
      var lifted := WebLifted(cfg, ctx, WebType(doc).value, OptObject(doc, "properties"));
      "time" in m.document && m.document["time"] == Num(lifted.time)
      && (lifted.project.Some? ==> "project" in m.document && m.document["project"] == Str(lifted.project.value))
      && (lifted.token.Some? ==> "token" in m.document && m.document["token"] == Str(lifted.token.value))
  {
    var draft, props, tagged' := ComposeWebFinishes(cfg, ctx, tagged, loginId, doc);
    var lifted := WebLifted(cfg, ctx, draft.eventType, OptObject(doc, "properties"));
    var document := WebDocument(cfg, ctx, loginId, draft.eventType, Hybrid(doc), lifted);
    assert draft.document == document;
    FinishKeeps(cfg, draft, props, tagged', loginId, "time");
    if lifted.project.Some? {
      FinishKeeps(cfg, draft, props, tagged', loginId, "project");
    }
    if lifted.token.Some? {
      FinishKeeps(cfg, draft, props, tagged', loginId, "token");
    }
  }

  /** WebFinish keeps every field of the draft document other than the properties and the login id. */
  lemma FinishKeeps(cfg: Config, draft: WebDraft, props: Props, tagged: bool, loginId: string, k: string)
    requires k in draft.document && k != "properties" && k != "login_id"
    requires WebFinish(cfg, draft, props, tagged, loginId).message.Some?
    ensures var m := WebFinish(cfg, draft, props, tagged, loginId).message.value;
      k in m.document && m.document[k] == draft.document[k]
  {
  }

  /**
   * The signup transition in both directions: an event is a committing
   * signup exactly when it is a signup that is emitted; it commits the
   * document's own distinct id, which differs from the stored login id and
   * the anonymous id; and a prepared signup that passes the sanitiser with
   * such an id always commits it.
   */
  lemma WebOutcomeShape(cfg: Config, ctx: Context, tagged: bool, loginId: string, doc: Props)
    ensures var o := ComposeWeb(cfg, ctx, tagged, loginId, doc);
      (o.message.Some? ==> WebType(doc).Some?)
      && (o.committed.Some? <==> o.message.Some? && WebType(doc) == Some(TrackSignup))
      && (o.committed.Some? ==>
            GetString(cfg.env, doc, "distinct_id") == Some(o.committed.value)
            && o.committed.value != loginId && o.committed.value != cfg.anonymousId)
  {
    var o := ComposeWeb(cfg, ctx, tagged, loginId, doc);
    if o.message.Some? || o.committed.Some? {
      var draft, props, tagged' := ComposeWebFinishes(cfg, ctx, tagged, loginId, doc);
      if draft.eventType == TrackSignup {
        SignupKeepsDistinctId(cfg, ctx, loginId, doc);
      }
    }
  }

  /** A prepared signup's document carries the caller's own distinct id. */
  lemma SignupKeepsDistinctId(cfg: Config, ctx: Context, loginId: string, doc: Props)
    requires WebPrepare(cfg, ctx, loginId, doc).Some?
    requires WebPrepare(cfg, ctx, loginId, doc).value.eventType == TrackSignup
    ensures GetString(cfg.env, WebPrepare(cfg, ctx, loginId, doc).value.document, "distinct_id")
         == GetString(cfg.env, doc, "distinct_id")
  {
    var draft := WebPrepare(cfg, ctx, loginId, doc).value;
    var lifted := WebLifted(cfg, ctx, draft.eventType, OptObject(doc, "properties"));
    HybridSignupDistinctId(cfg, ctx, loginId, doc, lifted);
  }

  /** The reconciled document of a signup keeps the distinct id of the page's document. */
  lemma HybridSignupDistinctId(cfg: Config, ctx: Context, loginId: string, doc: Props, lifted: Lifted)
    ensures GetString(cfg.env, WebDocument(cfg, ctx, loginId, TrackSignup, Hybrid(doc), lifted), "distinct_id")
         == GetString(cfg.env, doc, "distinct_id")
  {
    var hybrid := Hybrid(doc);
    assert ("distinct_id" in hybrid <==> "distinct_id" in doc)
        && ("distinct_id" in doc ==> hybrid["distinct_id"] == doc["distinct_id"]);
  }

  /**
   * The converse: a signup that is prepared and passes the sanitiser, and
   * whose distinct id is new to the stored login id and is not the anonymous
   * id, commits that id and is emitted.
   */
  lemma SignupCommitsWhenNew(cfg: Config, ctx: Context, tagged: bool, loginId: string, doc: Props)
    requires WebPrepare(cfg, ctx, loginId, doc).Some? && WebType(doc) == Some(TrackSignup)
    requires EnterDb(cfg.env, WebPrepare(cfg, ctx, loginId, doc).value.eventName,
                     WebPrepare(cfg, ctx, loginId, doc).value.properties).Some?
    requires GetString(cfg.env, doc, "distinct_id").Some?
    requires GetString(cfg.env, doc, "distinct_id").value != loginId
    requires GetString(cfg.env, doc, "distinct_id").value != cfg.anonymousId
    ensures var o := ComposeWeb(cfg, ctx, tagged, loginId, doc);
      o.message.Some? && o.committed == GetString(cfg.env, doc, "distinct_id")
  {
    var draft := WebPrepare(cfg, ctx, loginId, doc).value;
    assert GetString(cfg.env, draft.document, "distinct_id") == GetString(cfg.env, doc, "distinct_id");
    WebOutcomeShape(cfg, ctx, tagged, loginId, doc);
  }

  /**
   * A track signup that passes the sanitiser takes the plugin-version tag
   * before the commit decision, so a signup that does not commit still
   * consumes the once-only tag although nothing is emitted.
   */
  lemma UncommittedSignupConsumesTag(cfg: Config, ctx: Context, loginId: string, doc: Props)
    requires WebPrepare(cfg, ctx, loginId, doc).Some? && WebType(doc) == Some(TrackSignup)
    requires EnterDb(cfg.env, WebPrepare(cfg, ctx, loginId, doc).value.eventName,
                     WebPrepare(cfg, ctx, loginId, doc).value.properties).Some?
    requires PluginVersionKey !in WebPrepare(cfg, ctx, loginId, doc).value.properties
    requires GetString(cfg.env, doc, "distinct_id") == Some(loginId)
    ensures var o := ComposeWeb(cfg, ctx, false, loginId, doc);
      o.message.None? && o.committed.None? && o.tagged
  {
    var draft := WebPrepare(cfg, ctx, loginId, doc).value;
    SignupKeepsDistinctId(cfg, ctx, loginId, doc);
    assert !SignupCommits(cfg, draft.document, loginId);
  }

  /**
   * Repeating a signup after it committed its id emits nothing and commits
   * nothing, whatever the plugin-tag flag and the clock say.
   */
  lemma SignupIdempotent(cfg: Config, ctx1: Context, ctx2: Context, tagged1: bool, tagged2: bool,
                         loginId: string, doc: Props)
    requires ComposeWeb(cfg, ctx1, tagged1, loginId, doc).committed.Some?
    ensures var id := ComposeWeb(cfg, ctx1, tagged1, loginId, doc).committed.value;
      var again := ComposeWeb(cfg, ctx2, tagged2, id, doc);
      again.message.None? && again.committed.None?
  {
    var id := ComposeWeb(cfg, ctx1, tagged1, loginId, doc).committed.value;
    WebOutcomeShape(cfg, ctx1, tagged1, loginId, doc);
    WebOutcomeShape(cfg, ctx2, tagged2, id, doc);
  }
}

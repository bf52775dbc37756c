/**
 * The SDK object: the timer registry, the stored login id, the auto-track
 * switches, the plugin-version once-flag, the output queue and the replay
 * queue that holds calls made while data collection is disabled.
 */
module Api {
  import opened Wrappers
  import opened Json
  import opened Names
  import opened Timers
  import opened Collab
  import opened Sanitizer
  import opened Flags
  import opened Events
  import opened Records
  import opened Web
  import opened Items

  /** The part of the SDK's state a tracking call can change, apart from the timers. */
  datatype Effects = Effects(messages: seq<Message>, replay: seq<Deferred>, tagged: bool, loginId: string)

  /** A tracking entry point with its arguments. */
  datatype Call =
    | TrackCall(eventType: EventType, eventName: string, properties: Option<Props>, originalDistinctId: string)
    | WebCall(document: Option<Props>)
    | ItemCall(item: ItemArgs)
    | ReplayCall(deferred: Deferred)

  /**
   * Going from `s` to `r`, at most one record joined the output queue or at
   * most one deferred call joined the replay queue, never both, and nothing
   * already queued was rewritten.
   */
  predicate AppendsAtMostOne(s: Effects, r: Effects) {
    s.messages <= r.messages && |r.messages| <= |s.messages| + 1
    && s.replay <= r.replay && |r.replay| <= |s.replay| + 1
    && (r.messages == s.messages || r.replay == s.replay)
  }

  /**
   * trackEventInternal: a record joins the output queue exactly when the
   * composition emits one, carrying the call's kind and the identity the
   * call names; the replay queue and the login id are untouched.
   */
  function InternalEffect(cfg: Config, ctx: Context, s: Effects, a: EventArgs): (r: Effects)
    ensures r.replay == s.replay && r.loginId == s.loginId && AppendsAtMostOne(s, r)
    ensures |r.messages| == |s.messages| + 1 <==> ComposeRecord(cfg, ctx, s.tagged, a).Emitted?
    ensures |r.messages| == |s.messages| + 1 ==>
      r.messages[|s.messages|].Event? && r.messages[|s.messages|].record.eventType == a.eventType
      && r.messages[|s.messages|].record.distinctId == SelectDistinctId(a.distinctId, cfg.anonymousId)
      && r.messages[|s.messages|].record.anonymousId == cfg.anonymousId
    ensures !a.eventType.IsTrack() ==> r.tagged == s.tagged
    ensures ComposeRecord(cfg, ctx, s.tagged, a).Dropped? ==> r == s
    ensures ComposeRecord(cfg, ctx, s.tagged, a).Emitted? ==>
      r.messages == s.messages + [Event(ComposeRecord(cfg, ctx, s.tagged, a).record)]
      && r.tagged == ComposeRecord(cfg, ctx, s.tagged, a).tagged
  {
    match ComposeRecord(cfg, ctx, s.tagged, a)
    case Dropped => s
    case Emitted(record, tagged) => s.(messages := s.messages + [Event(record)], tagged := tagged)
  }

  /**
   * trackEvent after the timer lookup: a request that passes the checks is
   * deferred, stamped, while collection is disabled and composed otherwise.
   */
  function EventEffect(cfg: Config, ctx: Context, enabled: bool, timers: Registry, s: Effects,
                       eventType: EventType, eventName: string, properties: Option<Props>,
                       originalDistinctId: string): (r: Effects)
    ensures r.loginId == s.loginId && AppendsAtMostOne(s, r)
    ensures enabled ==> r.replay == s.replay
    ensures !enabled ==>
      r.messages == s.messages && r.tagged == s.tagged
      && (r.replay != s.replay <==>
            TrackAdmits(cfg, eventType, if eventName != "" then TrimTimerSuffix(eventName) else eventName, properties))
    ensures enabled ==>
      var req := TrackRequest(cfg, ctx, enabled, eventType, eventName, properties, originalDistinctId,
                              SelectDistinctId(s.loginId, cfg.anonymousId), s.loginId,
                              if eventName != "" then TimerFor(timers, eventName) else None);
      (req.None? ==> r == s)
      && (req.Some? ==> r == InternalEffect(cfg, ctx, s, req.value))
      && (|r.messages| == |s.messages| + 1 <==> req.Some? && ComposeRecord(cfg, ctx, s.tagged, req.value).Emitted?)
      && (|r.messages| == |s.messages| + 1 ==>
            r.messages[|s.messages|] == Event(ComposeRecord(cfg, ctx, s.tagged, req.value).record))
  {
    var timer := if eventName != "" then TimerFor(timers, eventName) else None;
    var distinctId := SelectDistinctId(s.loginId, cfg.anonymousId);
    RequestEffect(cfg, ctx, enabled, s,
                  TrackRequest(cfg, ctx, enabled, eventType, eventName, properties, originalDistinctId, distinctId, s.loginId, timer))
  }

  /** The checked request of a track call, deferred with its stamp while collection is disabled, composed otherwise. */
  function RequestEffect(cfg: Config, ctx: Context, enabled: bool, s: Effects, request: Option<EventArgs>): (r: Effects)
    ensures request.None? ==> r == s
    ensures r.loginId == s.loginId && AppendsAtMostOne(s, r)
    ensures enabled ==> r.replay == s.replay
    ensures !enabled ==>
      r.messages == s.messages && r.tagged == s.tagged
      && (r.replay != s.replay <==> request.Some?)
      && (request.Some? ==> r.replay[|s.replay|] == DeferredEvent(StampDeferred(request.value, ctx.now)))
    ensures enabled && request.Some? ==> r == InternalEffect(cfg, ctx, s, request.value)
  {
    match request
    case None => s
    case Some(a) =>
      if enabled then InternalEffect(cfg, ctx, s, a)
      else s.(replay := s.replay + [DeferredEvent(StampDeferred(a, ctx.now))])
  }

  /**
   * trackEventH5 on a parsed document (None for an empty or unparsable one):
   * deferred with its "$time" stamped while collection is disabled, composed
   * otherwise, committing the signup's login id when it has one. The login
   * id changes only on an emitted signup, to the document's own distinct id.
   */
  function WebEffect(cfg: Config, ctx: Context, enabled: bool, s: Effects, doc: Option<Props>): (r: Effects)
    ensures doc.None? ==> r == s
    ensures AppendsAtMostOne(s, r)
    ensures enabled ==> r.replay == s.replay
    ensures !enabled ==>
      r.messages == s.messages && r.tagged == s.tagged && r.loginId == s.loginId
      && (r.replay != s.replay <==> doc.Some?)
    ensures r.loginId != s.loginId ==>
      enabled && doc.Some? && WebType(doc.value) == Some(TrackSignup)
      && GetString(cfg.env, doc.value, "distinct_id") == Some(r.loginId) && r.loginId != cfg.anonymousId
      && |r.messages| == |s.messages| + 1
    ensures enabled && doc.Some? ==>
      var o := ComposeWeb(cfg, ctx, s.tagged, s.loginId, doc.value);
      r.tagged == o.tagged
      && (|r.messages| == |s.messages| + 1 <==> o.message.Some?)
      && (o.message.Some? ==> r.messages[|s.messages|] == o.message.value)
      && r.loginId == o.committed.GetOr(s.loginId)
  {
    match doc
    case None => s
    case Some(d) =>
      if !enabled then s.(replay := s.replay + [DeferredWeb(StampWebTime(d, ctx.now))])
      else
        var o := ComposeWeb(cfg, ctx, s.tagged, s.loginId, d);
        WebOutcomeShape(cfg, ctx, s.tagged, s.loginId, d);
        s.(messages := s.messages + (if o.message.Some? then [o.message.value] else []),
           tagged := o.tagged, loginId := o.committed.GetOr(s.loginId))
  }

  /** trackItemEvent: checked first, then deferred unstamped while collection is disabled, composed otherwise. */
  function ItemEffect(cfg: Config, ctx: Context, enabled: bool, s: Effects, a: ItemArgs): (r: Effects)
    ensures !ItemAdmits(cfg.env, a) ==> r == s
    ensures r.tagged == s.tagged && r.loginId == s.loginId && AppendsAtMostOne(s, r)
    ensures enabled ==> r.replay == s.replay
    ensures !enabled ==> r.messages == s.messages && (r.replay != s.replay <==> ItemAdmits(cfg.env, a))
    ensures !enabled && ItemAdmits(cfg.env, a) ==> r.replay == s.replay + [DeferredItem(a)]
    ensures enabled ==>
      r.messages == s.messages + (if ComposeItem(cfg, ctx, a).Some? then [ComposeItem(cfg, ctx, a).value] else [])
  {
    if !ItemAdmits(cfg.env, a) then s
    else if !enabled then s.(replay := s.replay + [DeferredItem(a)])
    else match ComposeItem(cfg, ctx, a)
      case None => s
      case Some(m) => s.(messages := s.messages + [m])
  }

  /**
   * The arguments a deferred track call replays with: track kinds take the
   * device facts into their send properties, and a "$SignUp" names the
   * anonymous id of the replay instant as its original id.
   */
  function ReplayArgs(cfg: Config, a: EventArgs): (r: EventArgs)
    ensures r == a.(sendProperties := r.sendProperties, originalDistinctId := r.originalDistinctId)
    ensures a.eventName == SignUp ==> r.originalDistinctId == cfg.anonymousId
    ensures a.eventName != SignUp ==> r.originalDistinctId == a.originalDistinctId
    ensures a.eventType.IsTrack() ==> r.sendProperties == cfg.env.mergeDistinct(cfg.deviceInfo, a.sendProperties)
    ensures !a.eventType.IsTrack() ==> r.sendProperties == a.sendProperties
  {
    var send := if a.eventType.IsTrack() then cfg.env.mergeDistinct(cfg.deviceInfo, a.sendProperties) else a.sendProperties;
    var original := if a.eventName == SignUp then cfg.anonymousId else a.originalDistinctId;
    a.(sendProperties := send, originalDistinctId := original)
  }

  /**
   * A deferred call run from the replay queue: a track call goes straight to
   * trackEventInternal, whatever the collection switch, and so never defers
   * again; a web or item call re-enters its entry point, which checks the
   * switch again.
   */
  function DeferredEffect(cfg: Config, ctx: Context, enabled: bool, s: Effects, d: Deferred): (r: Effects)
    ensures AppendsAtMostOne(s, r)
    ensures r.loginId != s.loginId ==> enabled && d.DeferredWeb?
    ensures enabled || d.DeferredEvent? ==> r.replay == s.replay
    ensures d.DeferredEvent? ==>
      r.loginId == s.loginId
      && (|r.messages| == |s.messages| + 1 <==> ComposeRecord(cfg, ctx, s.tagged, ReplayArgs(cfg, d.args)).Emitted?)
    ensures d.DeferredEvent? ==> r == InternalEffect(cfg, ctx, s, ReplayArgs(cfg, d.args))
    ensures d.DeferredWeb? ==> r == WebEffect(cfg, ctx, enabled, s, Some(d.document))
    ensures d.DeferredItem? ==> r == ItemEffect(cfg, ctx, enabled, s, d.item)
  {
    match d
    case DeferredEvent(a) => InternalEffect(cfg, ctx, s, ReplayArgs(cfg, a))
    case DeferredWeb(doc) => WebEffect(cfg, ctx, enabled, s, Some(doc))
    case DeferredItem(it) => ItemEffect(cfg, ctx, enabled, s, it)
  }

  /** The web document a call carries, directly or through the replay queue. */
  function WebDocumentOf(c: Call): Option<Props> {
    match c
    case WebCall(doc) => doc
    case ReplayCall(DeferredWeb(doc)) => Some(doc)
    case _ => None
  }

  /**
   * One tracking call, given the collection switch and the timer registry
   * it sees: it appends at most one record or one deferred call, rewrites
   * nothing already queued, defers nothing while collection is enabled,
   * and changes the login id only through a web document.
   */
  function Step(cfg: Config, ctx: Context, enabled: bool, timers: Registry, s: Effects, c: Call): (r: Effects)
    ensures AppendsAtMostOne(s, r)
    ensures enabled ==> r.replay == s.replay
    ensures r.loginId != s.loginId ==> enabled && WebDocumentOf(c).Some?
  {
    match c
    case TrackCall(t, name, props, original) => EventEffect(cfg, ctx, enabled, timers, s, t, name, props, original)
    case WebCall(doc) => WebEffect(cfg, ctx, enabled, s, doc)
    case ItemCall(a) => ItemEffect(cfg, ctx, enabled, s, a)
    case ReplayCall(d) =>
      assert d.DeferredWeb? ==> WebDocumentOf(c) == Some(d.document);
      DeferredEffect(cfg, ctx, enabled, s, d)
  }

  /**
   * While data collection is disabled, a tracking call enqueues nothing,
   * leaves the plugin-version flag and the login id alone, and defers
   * exactly the calls that pass their checks.
   */
  lemma DisabledCollectsNothing(cfg: Config, ctx: Context, timers: Registry, s: Effects, c: Call)
    requires !c.ReplayCall?
    ensures var r := Step(cfg, ctx, false, timers, s, c);
      r.messages == s.messages && r.tagged == s.tagged && r.loginId == s.loginId
      && (c.WebCall? ==> (r.replay == s.replay <==> c.document.None?))
      && (c.ItemCall? ==> (r.replay == s.replay <==> !ItemAdmits(cfg.env, c.item)))
      && (c.TrackCall? ==>
            (r.replay != s.replay <==>
               TrackAdmits(cfg, c.eventType, if c.eventName != "" then TrimTimerSuffix(c.eventName) else c.eventName,
                           c.properties)))
  {
  }

  /**
   * A track call deferred while collection is disabled carries a "$time"
   * stamp of the call instant in its send properties, unless it is
   * $AppStart or $AppEnd, whose own "event_time" decides their instant.
   */
  lemma DeferredEventStamped(cfg: Config, ctx: Context, timers: Registry, s: Effects, c: Call)
    requires c.TrackCall?
    requires Step(cfg, ctx, false, timers, s, c).replay != s.replay
    ensures var r := Step(cfg, ctx, false, timers, s, c);
      |r.replay| == |s.replay| + 1 && r.replay[|s.replay|].DeferredEvent?
      && var a := r.replay[|s.replay|].args;
      a.eventName == (if c.eventName != "" then TrimTimerSuffix(c.eventName) else c.eventName)
      && (a.eventName != AppStart && a.eventName != AppEnd ==>
            TimeKey in a.sendProperties
            && (a.sendProperties[TimeKey] == Date(ctx.now)
                || TimeKey in TrackBaseProperties(cfg, ctx, false, a.eventName)))
  {
    var timer := if c.eventName != "" then TimerFor(timers, c.eventName) else None;
    var req := TrackRequest(cfg, ctx, false, c.eventType, c.eventName, c.properties, c.originalDistinctId,
                            SelectDistinctId(s.loginId, cfg.anonymousId), s.loginId, timer);
    assert req.Some?;
    var a := req.value;
    assert !a.eventType.IsTrack() ==> a.sendProperties == map[];
    assert a.eventType.IsTrack() ==> a.sendProperties == TrackBaseProperties(cfg, ctx, false, a.eventName);
  }

  /**
   * Only a web signup changes the stored login id, and only with collection
   * enabled: the new id is the document's own distinct id, it differs from
   * the old login id and from the anonymous id, and the signup record is
   * enqueued with it.
   */
  lemma LoginChangesOnlyOnSignup(cfg: Config, ctx: Context, enabled: bool, timers: Registry, s: Effects, c: Call)
    requires Step(cfg, ctx, enabled, timers, s, c).loginId != s.loginId
    ensures var r := Step(cfg, ctx, enabled, timers, s, c);
      enabled && WebDocumentOf(c).Some?
      && var doc := WebDocumentOf(c).value;
      WebType(doc) == Some(TrackSignup)
      && GetString(cfg.env, doc, "distinct_id") == Some(r.loginId)
      && r.loginId != cfg.anonymousId
      && |r.messages| == |s.messages| + 1
  {
    if c.ReplayCall? {
      assert c.deferred.DeferredWeb?;
    }
  }

  /**
   * A web signup that committed its login id, sent again, enqueues nothing
   * and commits nothing: the stored login id now equals its distinct id.
   */
  lemma SignupCallIdempotent(cfg: Config, ctx1: Context, ctx2: Context, timers: Registry, s: Effects, doc: Props)
    requires Step(cfg, ctx1, true, timers, s, WebCall(Some(doc))).loginId != s.loginId
    ensures var r := Step(cfg, ctx1, true, timers, s, WebCall(Some(doc)));
      var again := Step(cfg, ctx2, true, timers, r, WebCall(Some(doc)));
      again.messages == r.messages && again.loginId == r.loginId && again.replay == r.replay
  {
    var o1 := ComposeWeb(cfg, ctx1, s.tagged, s.loginId, doc);
    var r := Step(cfg, ctx1, true, timers, s, WebCall(Some(doc)));
    assert r.loginId == o1.committed.GetOr(s.loginId) && r.tagged == o1.tagged;
    SignupIdempotent(cfg, ctx1, ctx2, s.tagged, r.tagged, s.loginId, doc);
    var o2 := ComposeWeb(cfg, ctx2, r.tagged, r.loginId, doc);
    assert o2.message.None? && o2.committed.None?;
  }

  /** The SDK object (AbstractSensorsDataAPI) as far as event composition and gating go. */
  class SensorsDataAPI {
    /** Collaborators, device facts, identity and versions. */
    const cfg: Config
    /** mSAConfigOptions.isDataCollectEnable. */
    var dataCollectEnable: bool
    /** mTrackTimer. */
    var trackTimer: Registry
    /** The stored login id (DbAdapter's), "" when logged out. */
    var loginId: string
    /** mAutoTrack. */
    var autoTrack: bool
    /** mSAConfigOptions.mAutoTrackEventType. */
    var autoTrackEventType: bv32
    /** isTrackEventWithPluginVersion. */
    var trackedPluginVersion: bool
    /** The records handed to mMessages, oldest first. */
    var messages: seq<Message>
    /** The calls mTrackTaskManager holds for replay, oldest first. */
    var replay: seq<Deferred>

    constructor(cfg: Config, dataCollectEnable: bool, loginId: string)
      ensures this.cfg == cfg && this.dataCollectEnable == dataCollectEnable && this.loginId == loginId
      ensures trackTimer == map[] && messages == [] && replay == []
      ensures !autoTrack && autoTrackEventType == 0 && !trackedPluginVersion
    {
      this.cfg := cfg;
      this.dataCollectEnable := dataCollectEnable;
      this.loginId := loginId;
      trackTimer := map[];
      autoTrack := false;
      autoTrackEventType := 0;
      trackedPluginVersion := false;
      messages := [];
      replay := [];
    }

    /** The state a tracking call can change. */
    function State(): Effects
      reads this`messages, this`replay, this`trackedPluginVersion, this`loginId
    {
      Effects(messages, replay, trackedPluginVersion, loginId)
    }

    /** getDistinctId: the login id, or the anonymous id when logged out. */
    function DistinctId(): (r: string)
      reads this`loginId
      ensures loginId != "" ==> r == loginId
      ensures loginId == "" ==> r == cfg.anonymousId
    {
      SelectDistinctId(loginId, cfg.anonymousId)
    }

    /** appBecomeActive: every timer's clock restarts now. */
    method AppBecomeActive(now: int)
      modifies this`trackTimer
      ensures trackTimer == Foreground(old(trackTimer), now)
    {
      ghost var before := trackTimer;
      var todo := trackTimer.Keys;
      while todo != {}
        invariant todo <= before.Keys && trackTimer.Keys == before.Keys
        invariant forall k :: k in before ==>
          trackTimer[k] == (if k in todo then before[k] else before[k].(start := now))
        decreases todo
      {
        var k :| k in todo;
        trackTimer := trackTimer[k := trackTimer[k].(start := now)];
        todo := todo - {k};
      }
      assert trackTimer == Foreground(before, now);
    }

    /** appEnterBackground: every running timer but $AppEnd's banks its time, less the session interval. */
    method AppEnterBackground(now: int)
      modifies this`trackTimer
      ensures trackTimer == Background(old(trackTimer), now, cfg.sessionIntervalTime)
    {
      ghost var before := trackTimer;
      var todo := trackTimer.Keys;
      while todo != {}
        invariant todo <= before.Keys && trackTimer.Keys == before.Keys
        invariant forall k :: k in before ==>
          trackTimer[k] == (if k in todo then before[k] else BackgroundTimer(k, before[k], now, cfg.sessionIntervalTime))
        decreases todo
      {
        var k :| k in todo;
        if k != AppEnd {
          var t := trackTimer[k];
          if !t.paused {
            var accumulated := t.accumulated + now - t.start - cfg.sessionIntervalTime;
            trackTimer := trackTimer[k := t.(accumulated := accumulated, start := now)];
          }
        }
        todo := todo - {k};
      }
      assert trackTimer == Background(before, now, cfg.sessionIntervalTime);
    }

    /** trackTimerState: pause or resume a timer by name; an invalid name changes nothing. */
    method TrackTimerState(eventName: string, isPause: bool, now: int)
      modifies this`trackTimer
      ensures !cfg.env.isKeyValid(eventName) ==> trackTimer == old(trackTimer)
      ensures cfg.env.isKeyValid(eventName) ==> trackTimer == WithTimerState(old(trackTimer), eventName, isPause, now)
    {
      if !cfg.env.isKeyValid(eventName) {
        return;
      }
      if eventName in trackTimer && trackTimer[eventName].paused != isPause {
        trackTimer := trackTimer[eventName := SetState(trackTimer[eventName], isPause, now)];
      }
    }

    /** enableAutoTrack: an event-type mask in 1..15 switches auto-tracking on and is ORed in. */
    method EnableAutoTrack(eventType: int)
      modifies this`autoTrack, this`autoTrackEventType
      ensures AutoTrackMask(old(autoTrackEventType), eventType).None? ==>
        autoTrack == old(autoTrack) && autoTrackEventType == old(autoTrackEventType)
      ensures AutoTrackMask(old(autoTrackEventType), eventType).Some? ==>
        autoTrack && autoTrackEventType == AutoTrackMask(old(autoTrackEventType), eventType).value
    {
      if eventType <= 0 || eventType > 15 {
        return;
      }
      autoTrack := true;
      autoTrackEventType := autoTrackEventType | TypeBits(eventType);
    }

    /** The once-only plugin-version tag on a track record's sanitised properties. */
    method TagPluginVersion(properties: Props) returns (tagged: Props)
      modifies this`trackedPluginVersion
      ensures (tagged, trackedPluginVersion) == AttachPluginVersion(old(trackedPluginVersion), properties, cfg.pluginVersionName)
    {
      tagged := properties;
      if !trackedPluginVersion && PluginVersionKey !in properties {
        var version := PluginVersion(cfg.pluginVersionName);
        if version.Some? {
          tagged := properties[PluginVersionKey := version.value];
        }
        trackedPluginVersion := true;
      }
    }

    /** trackEventInternal: compose the record, sanitise track kinds, tag the plugin version once, enqueue. */
    method TrackEventInternal(a: EventArgs, ctx: Context)
      modifies this`messages, this`trackedPluginVersion
      ensures State() == InternalEffect(cfg, ctx, old(State()), a)
    {
      var record := DraftRecord(cfg, ctx, a);
      if !a.eventType.IsTrack() {
        messages := messages + [Event(record)];
        return;
      }
      var enter, clean := IsEnterDb(cfg.env, a.eventName, record.properties);
      if !enter {
        return;
      }
      var properties := TagPluginVersion(clean);
      messages := messages + [Event(record.(properties := properties))];
    }

    /** transformEventTaskQueue: stamp the call instant and queue the call for replay. */
    method TransformEventTaskQueue(a: EventArgs, now: int)
      modifies this`replay
      ensures replay == old(replay) + [DeferredEvent(StampDeferred(a, now))]
    {
      replay := replay + [DeferredEvent(StampDeferred(a, now))];
    }

    /**
     * trackEvent: the timer under the name as called is taken out of the
     * registry, then the request is checked and either deferred or composed.
     */
    method TrackEvent(eventType: EventType, eventName: string, properties: Option<Props>,
                      originalDistinctId: string, ctx: Context)
      modifies this`trackTimer, this`messages, this`replay, this`trackedPluginVersion
      ensures eventName != "" ==> trackTimer == old(trackTimer) - {eventName} && eventName !in trackTimer
      ensures eventName == "" ==> trackTimer == old(trackTimer)
      ensures State() == EventEffect(cfg, ctx, dataCollectEnable, old(trackTimer), old(State()),
                                     eventType, eventName, properties, originalDistinctId)
    {
      var timer: Option<Timer> := None;
      if eventName != "" {
        timer := TimerFor(trackTimer, eventName);
        trackTimer := trackTimer - {eventName};
      }
      var request := TrackRequest(cfg, ctx, dataCollectEnable, eventType, eventName, properties,
                                  originalDistinctId, DistinctId(), loginId, timer);
      Dispatch(request, ctx);
    }

    /** The rest of trackEvent: a checked request is deferred while collection is disabled and composed otherwise. */
    method Dispatch(request: Option<EventArgs>, ctx: Context)
      modifies this`messages, this`replay, this`trackedPluginVersion
      ensures State() == RequestEffect(cfg, ctx, dataCollectEnable, old(State()), request)
    {
      if request.None? {
        return;
      }
      if !dataCollectEnable {
        TransformEventTaskQueue(request.value, ctx.now);
        return;
      }
      TrackEventInternal(request.value, ctx);
    }

    /** transformH5TaskQueue: stamp "$time" into the document's properties and queue it for replay. */
    method TransformH5TaskQueue(doc: Props, now: int)
      modifies this`replay
      ensures replay == old(replay) + [DeferredWeb(StampWebTime(doc, now))]
    {
      var stamped := doc;
      var properties := OptObject(doc, "properties");
      if properties.Some? && TimeKey !in properties.value {
        stamped := doc["properties" := Obj(properties.value[TimeKey := Num(now)])];
      }
      replay := replay + [DeferredWeb(stamped)];
    }

    /**
     * trackEventH5: reconcile the web document, sanitise track kinds, tag
     * the plugin version once, and enqueue; a signup commits its distinct id
     * as the login id when that is new.
     */
    method TrackEventH5(doc: Option<Props>, ctx: Context)
      modifies this`messages, this`replay, this`trackedPluginVersion, this`loginId
      ensures State() == WebEffect(cfg, ctx, dataCollectEnable, old(State()), doc)
    {
      if doc.None? {
        return;
      }
      if !dataCollectEnable {
        TransformH5TaskQueue(doc.value, ctx.now);
        return;
      }
      ReconcileWeb(doc.value, ctx);
    }

    /** trackEventH5 with collection enabled, on a parsed document. */
    method ReconcileWeb(doc: Props, ctx: Context)
      modifies this`messages, this`trackedPluginVersion, this`loginId
      ensures var o := ComposeWeb(cfg, ctx, old(trackedPluginVersion), old(loginId), doc);
        messages == old(messages) + (if o.message.Some? then [o.message.value] else [])
        && trackedPluginVersion == o.tagged && loginId == o.committed.GetOr(old(loginId))
    {
      var prepared := WebPrepare(cfg, ctx, loginId, doc);
      if prepared.None? {
        return;
      }
      SettleWeb(prepared.value);
    }

    /** trackEventH5 for a prepared draft: sanitise track kinds, tag the plugin version once, and finish. */
    method SettleWeb(draft: WebDraft)
      modifies this`messages, this`trackedPluginVersion, this`loginId
      ensures var o := WebSettle(cfg, draft, old(trackedPluginVersion), old(loginId));
        messages == old(messages) + (if o.message.Some? then [o.message.value] else [])
        && trackedPluginVersion == o.tagged && loginId == o.committed.GetOr(old(loginId))
    {
      var properties := draft.properties;
      if draft.eventType.IsTrack() {
        var enter, clean := IsEnterDb(cfg.env, draft.eventName, properties);
        if !enter {
          return;
        }
        properties := TagPluginVersion(clean);
      }
      EnqueueWeb(draft, properties);
    }

    /**
     * The end of trackEventH5: a signup commits its distinct id as the login
     * id, under the login lock, and is enqueued only when that id is new and
     * not the anonymous id; any other kind is enqueued with the login id.
     */
    method EnqueueWeb(draft: WebDraft, properties: Props)
      modifies this`messages, this`loginId
      ensures var o := WebFinish(cfg, draft, properties, trackedPluginVersion, old(loginId));
        messages == old(messages) + (if o.message.Some? then [o.message.value] else [])
        && loginId == o.committed.GetOr(old(loginId))
    {
      var document := draft.document["properties" := Obj(properties)];
      if draft.eventType == TrackSignup {
        var newLoginId := GetString(cfg.env, draft.document, "distinct_id");
        if newLoginId.Some? && newLoginId.value != loginId && newLoginId.value != cfg.anonymousId {
          loginId := newLoginId.value;
          messages := messages + [Web(draft.typeName, document["login_id" := Str(newLoginId.value)])];
        }
      } else {
        if loginId != "" {
          document := document["login_id" := Str(loginId)];
        }
        messages := messages + [Web(draft.typeName, document)];
      }
    }

    /** transformItemTaskQueue: queue the item call for replay, unstamped. */
    method TransformItemTaskQueue(a: ItemArgs)
      modifies this`replay
      ensures replay == old(replay) + [DeferredItem(a)]
    {
      replay := replay + [DeferredItem(a)];
    }

    /** trackItemEvent: check the arguments, then defer or compose and enqueue. */
    method TrackItemEvent(a: ItemArgs, ctx: Context)
      modifies this`messages, this`replay
      ensures State() == ItemEffect(cfg, ctx, dataCollectEnable, old(State()), a)
    {
      if !ItemAdmits(cfg.env, a) {
        return;
      }
      if !dataCollectEnable {
        TransformItemTaskQueue(a);
        return;
      }
      var message := ComposeItem(cfg, ctx, a);
      if message.Some? {
        messages := messages + [message.value];
      }
    }

    /** Run one deferred call, as the closures queued by the transform methods do. */
    method RunDeferred(d: Deferred, ctx: Context)
      modifies this`messages, this`replay, this`trackedPluginVersion, this`loginId
      ensures State() == DeferredEffect(cfg, ctx, dataCollectEnable, old(State()), d)
    {
      match d
      case DeferredEvent(a) =>
        TrackEventInternal(ReplayArgs(cfg, a), ctx);
      case DeferredWeb(document) =>
        TrackEventH5(Some(document), ctx);
      case DeferredItem(item) =>
        TrackItemEvent(item, ctx);
    }
  }
}

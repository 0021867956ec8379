/** The media kit's event handling: `logBaseEvent` turns an mParticle media
    event into calls on the Adobe media tracker of the event's session, and
    keeps the map from session id to tracker and the last playhead position
    seen.

    The Adobe SDK is not part of this model. A tracker is a number handed
    out when `Media.createTracker()` would be called, and the calls made on
    trackers are values of `TrackerCall`. Numbers that the source turns into
    doubles are kept as integers, tagged with whether `toSeconds` (divide by
    1000) or a plain conversion was applied. */
module MediaKit {
  import opened Nullable
  import opened Seqs
  import opened MediaAttributes

  datatype EventName =
    | SessionStart | SessionEnd | Play | Pause
    | AdBreakEnd | AdBreakStart | AdStart | AdSkip | AdEnd | AdClick
    | UpdateQos | BufferEnd | BufferStart | SeekStart | SeekEnd
    | SegmentStart | SegmentSkip | SegmentEnd | UpdatePlayheadPosition
    | Unlisted(name: string)  // any other name: no branch of the `when` matches it

  /** mParticle's content type and Adobe's media type. */
  datatype ContentType = Audio | Video
  datatype MediaType = AudioMedia | VideoMedia

  /** A number handed to the Adobe SDK as a double: `toSeconds()` of a
      millisecond count, or the plain value. */
  datatype Number = SecondsOf(millis: int) | Plain(n: int)

  datatype MediaContent = MediaContent(
    name: Option<string>, contentId: Option<string>, duration: Option<int>,
    streamType: Option<string>, contentType: Option<ContentType>)
  datatype MediaAd = MediaAd(title: Option<string>, id: Option<string>, position: Option<int>, duration: Option<int>)
  datatype MediaAdBreak = MediaAdBreak(title: Option<string>)
  datatype MediaSegment = MediaSegment(title: Option<string>, index: Option<int>, duration: Option<int>)
  datatype MediaQos = MediaQos(bitRate: Option<int>, startupTime: Option<int>, fps: Option<int>, droppedFrames: Option<int>)

  /** A map of custom attributes together with the order a `HashMap` hands
      its entries out in. */
  datatype CustomAttributes = CustomAttributes(attrs: map<Key, AttrValue>, order: seq<AttrEntry>)

  datatype MediaEvent = MediaEvent(
    name: EventName,
    sessionId: Option<string>,
    playhead: Option<int>,
    content: MediaContent,
    ad: Option<MediaAd>,
    adBreak: Option<MediaAdBreak>,
    segment: Option<MediaSegment>,
    qos: Option<MediaQos>,
    customAttributes: Option<CustomAttributes>)

  /** What the kit is handed: a media event or any other mParticle event. */
  datatype BaseEvent = Media(event: MediaEvent) | OtherEvent

  ghost predicate WellFormed(e: BaseEvent) {
    e.Media? && e.event.customAttributes.Some?
    ==> IsIterationOrder(e.event.customAttributes.value.order, e.event.customAttributes.value.attrs)
  }

  // ---------------------------------------------------------------------------
  // The objects built for the Adobe SDK
  // ---------------------------------------------------------------------------

  /** `getMediaType`: audio and video map across, anything else to null. */
  function GetMediaType(c: Option<ContentType>): (t: Option<MediaType>)
    ensures t.None? <==> c.None?
    ensures t.Some? ==> ContentTypeOf(t.value) == c.value
  {
    match c
    case Some(Audio) => Some(AudioMedia)
    case Some(Video) => Some(VideoMedia)
    case None => None
  }

  /** The content type a media type comes from. */
  function ContentTypeOf(t: MediaType): ContentType {
    match t
    case AudioMedia => Audio
    case VideoMedia => Video
  }

  /** `getMediaType` is one-to-one and reaches both media types. */
  lemma MediaTypeRoundTrip(t: MediaType)
    ensures GetMediaType(Some(ContentTypeOf(t))) == Some(t)
  {
    match t
    case AudioMedia =>
    case VideoMedia =>
  }

  datatype Info =
    | MediaInfo(name: Option<string>, id: Option<string>, length: Number, streamType: Option<string>, mediaType: Option<MediaType>)
    | AdBreakInfo(title: Option<string>, breakPosition: int, startTime: Number)
    | AdInfo(title: Option<string>, id: Option<string>, position: int, length: Number)
    | ChapterInfo(title: Option<string>, position: int, length: Number, startTime: Number)

  datatype QoeInfo = QoeInfo(bitRate: int, startupTime: Number, fps: Number, droppedFrames: int)

  /** `getMediaObject`. */
  function MediaObject(c: MediaContent): (i: Info)
    ensures i.MediaInfo? && i.mediaType == GetMediaType(c.contentType)
    ensures i.length == SecondsOf(c.duration.GetOr(0))
  {
    MediaInfo(c.name, c.contentId, SecondsOf(c.duration.GetOr(0)), c.streamType, GetMediaType(c.contentType))
  }

  /** `getAdBreakObject`: position 1, starting at the kit's playhead. */
  function AdBreakObject(b: MediaAdBreak, playhead: int): (i: Info)
    ensures i.AdBreakInfo? && i.startTime == SecondsOf(playhead)
  {
    AdBreakInfo(b.title, 1, SecondsOf(playhead))
  }

  /** `getAdObject`. */
  function AdObject(a: MediaAd): (i: Info)
    ensures i.AdInfo? && i.position == a.position.GetOr(0)
  {
    AdInfo(a.title, a.id, a.position.GetOr(0), Plain(a.duration.GetOr(0)))
  }

  /** `getChapterObject`: starting at the kit's playhead. */
  function ChapterObject(s: MediaSegment, playhead: int): (i: Info)
    ensures i.ChapterInfo? && i.startTime == Plain(playhead)
  {
    ChapterInfo(s.title, s.index.GetOr(0), Plain(s.duration.GetOr(0)), Plain(playhead))
  }

  /** `Media.createQoEObject` as `updateQos` calls it: missing fields are 0,
      and only the startup time is converted to seconds. */
  function QoeObject(q: MediaQos): (i: QoeInfo)
    ensures i.bitRate == q.bitRate.GetOr(0) && i.droppedFrames == q.droppedFrames.GetOr(0)
    ensures i.startupTime == SecondsOf(q.startupTime.GetOr(0)) && i.fps == Plain(q.fps.GetOr(0))
  {
    QoeInfo(q.bitRate.GetOr(0), SecondsOf(q.startupTime.GetOr(0)), Plain(q.fps.GetOr(0)), q.droppedFrames.GetOr(0))
  }

  // ---------------------------------------------------------------------------
  // Tracker calls
  // ---------------------------------------------------------------------------

  /** The `Media.Event` kinds passed to `trackEvent`. */
  datatype AdobeEvent =
    | AdBreakStartEvent | AdBreakCompleteEvent | AdStartEvent | AdCompleteEvent
    | SeekStartEvent | SeekCompleteEvent | BufferStartEvent | BufferCompleteEvent
    | ChapterStartEvent | ChapterSkipEvent | ChapterCompleteEvent

  datatype TrackerCall =
    | UpdateCurrentPlayhead(position: Number)
    | TrackSessionStart(mediaInfo: Info, metadata: Option<map<Key, string>>)
    | TrackSessionEnd
    | TrackPlay
    | TrackPause
    | UpdateQoeObject(qoe: QoeInfo)
    | TrackEvent(kind: AdobeEvent, info: Option<Info>, metadata: Option<map<Key, string>>)

  type TrackerId = nat

  datatype VendorCall = VendorCall(tracker: TrackerId, call: TrackerCall)

  /** `mediaTrackers`, the next tracker `Media.createTracker()` hands out,
      and `currentPlayheadPosition`. */
  datatype Kit = Kit(trackers: map<string, TrackerId>, nextTracker: TrackerId, playhead: int)

  const NewKit := Kit(map[], 0, 0)

  /** `mediaTrackers[sessionId]`, null for a null or unknown session. */
  function TrackerOf(trackers: map<string, TrackerId>, sessionId: Option<string>): (t: Option<TrackerId>)
    ensures t.Some? <==> sessionId.Some? && sessionId.value in trackers
  {
    if sessionId.Some? && sessionId.value in trackers then Some(trackers[sessionId.value]) else None
  }

  /** `mediaTrackers[sessionId]?.call(...)`: the call, if the session has a tracker. */
  function OnSession(kit: Kit, sessionId: Option<string>, call: TrackerCall): (calls: seq<VendorCall>)
    ensures TrackerOf(kit.trackers, sessionId).None? ==> calls == []
    ensures TrackerOf(kit.trackers, sessionId).Some?
            ==> calls == [VendorCall(TrackerOf(kit.trackers, sessionId).value, call)]
  {
    match TrackerOf(kit.trackers, sessionId)
    case None => []
    case Some(t) => [VendorCall(t, call)]
  }

  /** `customAttributes?.toAdobeAttributes()`. */
  function Metadata(e: MediaEvent): Option<map<Key, string>>
    requires WellFormed(Media(e))
  {
    match e.customAttributes
    case None => None
    case Some(c) => Some(ToAdobeAttributes(c.attrs, c.order))
  }

  /** The kit after a handler, and the tracker calls it made. */
  datatype Step = Step(kit: Kit, calls: seq<VendorCall>)

  /** `sessionStart`: a session id gets a fresh tracker, replacing any it
      had, and the session start is tracked on it. */
  function StartSession(kit: Kit, e: MediaEvent): (s: Step)
    requires WellFormed(Media(e))
    ensures e.sessionId.None? ==> s == Step(kit, [])
    ensures e.sessionId.Some? ==> s.kit.trackers == kit.trackers[e.sessionId.value := kit.nextTracker]
    ensures e.sessionId.Some? ==> s.calls == [VendorCall(kit.nextTracker, TrackSessionStart(MediaObject(e.content), Metadata(e)))]
    ensures s.kit.playhead == kit.playhead
  {
    match e.sessionId
    case None => Step(kit, [])
    case Some(id) =>
      var t := kit.nextTracker;
      Step(kit.(trackers := kit.trackers[id := t], nextTracker := t + 1),
           [VendorCall(t, TrackSessionStart(MediaObject(e.content), Metadata(e)))])
  }

  /** `sessionEnd`: the session end is tracked and the session's tracker is
      dropped. */
  function EndSession(kit: Kit, e: MediaEvent): (s: Step)
    ensures e.sessionId.None? ==> s == Step(kit, [])
    ensures e.sessionId.Some? ==> s.kit.trackers == kit.trackers - {e.sessionId.value}
    ensures s.calls == OnSession(kit, e.sessionId, TrackSessionEnd)
    ensures s.kit.playhead == kit.playhead && s.kit.nextTracker == kit.nextTracker
  {
    match e.sessionId
    case None => Step(kit, [])
    case Some(id) => Step(kit.(trackers := kit.trackers - {id}), OnSession(kit, e.sessionId, TrackSessionEnd))
  }

  /** The `Media.Event` and info object of the events that go to `trackEvent`. */
  function TrackedEvent(kit: Kit, e: MediaEvent): Option<(AdobeEvent, Option<Info>)> {
    match e.name
    case AdBreakStart => Some((AdBreakStartEvent, if e.adBreak.Some? then Some(AdBreakObject(e.adBreak.value, kit.playhead)) else None))
    case AdBreakEnd => Some((AdBreakCompleteEvent, if e.adBreak.Some? then Some(AdBreakObject(e.adBreak.value, kit.playhead)) else None))
    case AdStart => Some((AdStartEvent, if e.ad.Some? then Some(AdObject(e.ad.value)) else None))
    case AdSkip => Some((AdCompleteEvent, if e.ad.Some? then Some(AdObject(e.ad.value)) else None))
    case AdEnd => Some((AdCompleteEvent, if e.ad.Some? then Some(AdObject(e.ad.value)) else None))
    case SeekStart => Some((SeekStartEvent, Some(MediaObject(e.content))))
    case SeekEnd => Some((SeekCompleteEvent, Some(MediaObject(e.content))))
    case BufferStart => Some((BufferStartEvent, Some(MediaObject(e.content))))
    case BufferEnd => Some((BufferCompleteEvent, Some(MediaObject(e.content))))
    case SegmentStart => Some((ChapterStartEvent, if e.segment.Some? then Some(ChapterObject(e.segment.value, kit.playhead)) else None))
    case SegmentSkip => Some((ChapterSkipEvent, if e.segment.Some? then Some(ChapterObject(e.segment.value, kit.playhead)) else None))
    case SegmentEnd => Some((ChapterCompleteEvent, if e.segment.Some? then Some(ChapterObject(e.segment.value, kit.playhead)) else None))
    case _ => None
  }

  /** The `when (event.eventName)` of `logBaseEvent`. */
  function Dispatch(kit: Kit, e: MediaEvent): Step
    requires WellFormed(Media(e))
  {
    match e.name
    case SessionStart => StartSession(kit, e)
    case SessionEnd => EndSession(kit, e)
    case Play => Step(kit, OnSession(kit, e.sessionId, TrackPlay))
    case Pause => Step(kit, OnSession(kit, e.sessionId, TrackPause))
    case UpdateQos =>
      Step(kit, if e.qos.Some? then OnSession(kit, e.sessionId, UpdateQoeObject(QoeObject(e.qos.value))) else [])
    case UpdatePlayheadPosition => Step(kit, [])
    case AdClick => Step(kit, [])
    case _ =>
      match TrackedEvent(kit, e)
      case Some((kind, info)) => Step(kit, OnSession(kit, e.sessionId, TrackEvent(kind, info, Metadata(e))))
      case None => Step(kit, [])
  }

  /** The first lines of `logBaseEvent`: a playhead carried by the event is
      recorded and passed to the session's tracker. */
  function RecordPlayhead(kit: Kit, e: MediaEvent): (s: Step)
    ensures s.kit.trackers == kit.trackers && s.kit.nextTracker == kit.nextTracker
    ensures s.kit.playhead == e.playhead.GetOr(kit.playhead)
    ensures e.playhead.None? ==> s.calls == []
  {
    match e.playhead
    case None => Step(kit, [])
    case Some(p) => Step(kit.(playhead := p), OnSession(kit, e.sessionId, UpdateCurrentPlayhead(SecondsOf(p))))
  }

  /** What `logBaseEvent` does and returns: the kit afterwards, the tracker
      calls, and the reporting messages (always null). */
  datatype Outcome = Outcome(kit: Kit, calls: seq<VendorCall>, messages: Option<seq<string>>)

  function LogBaseEvent(kit: Kit, be: BaseEvent): (r: Outcome)
    requires WellFormed(be)
    ensures r.messages.None?
    ensures be.OtherEvent? ==> r == Outcome(kit, [], None)
    ensures be.Media? ==> r.kit.playhead == be.event.playhead.GetOr(kit.playhead)
  {
    match be
    case OtherEvent => Outcome(kit, [], None)
    case Media(e) =>
      var first := RecordPlayhead(kit, e);
      var second := Dispatch(first.kit, e);
      Outcome(second.kit, first.calls + second.calls, None)
  }

  // ---------------------------------------------------------------------------
  // Properties
  // ---------------------------------------------------------------------------

  /** An event for a session without a tracker makes no tracker call, unless
      it starts that session. */
  lemma NoTrackerNoCalls(kit: Kit, e: MediaEvent)
    requires WellFormed(Media(e))
    requires TrackerOf(kit.trackers, e.sessionId).None?
    requires e.name != SessionStart || e.sessionId.None?
    ensures LogBaseEvent(kit, Media(e)).calls == []
  {
  }

  /** Every call goes to the tracker the event's session has before or
      after the event: a session start replaces the tracker only after the
      playhead update went to the old one. */
  lemma CallsGoToSessionTracker(kit: Kit, e: MediaEvent)
    requires WellFormed(Media(e))
    ensures var r := LogBaseEvent(kit, Media(e));
      forall c :: c in r.calls
        ==> Some(c.tracker) == TrackerOf(kit.trackers, e.sessionId) || Some(c.tracker) == TrackerOf(r.kit.trackers, e.sessionId)
  {
  }

  /** Only the event's own session gains, loses or changes its tracker. */
  lemma OtherSessionsUntouched(kit: Kit, e: MediaEvent, other: string)
    requires WellFormed(Media(e))
    requires e.sessionId != Some(other)
    ensures TrackerOf(LogBaseEvent(kit, Media(e)).kit.trackers, Some(other)) == TrackerOf(kit.trackers, Some(other))
  {
  }

  /** The tracker map only changes on session start and end. */
  lemma TrackersChangeOnlyOnSessions(kit: Kit, e: MediaEvent)
    requires WellFormed(Media(e))
    requires e.name != SessionStart && e.name != SessionEnd
    ensures LogBaseEvent(kit, Media(e)).kit.trackers == kit.trackers
  {
  }

  /** Skipping an ad is reported exactly as ending it: after the playhead
      update, `AdComplete` with the ad object goes to the session's tracker. */
  lemma AdSkipIsAdEnd(kit: Kit, e: MediaEvent)
    requires WellFormed(Media(e))
    ensures LogBaseEvent(kit, Media(e.(name := AdSkip))) == LogBaseEvent(kit, Media(e.(name := AdEnd)))
    ensures e.name == AdSkip || e.name == AdEnd ==>
              var first := RecordPlayhead(kit, e);
              LogBaseEvent(kit, Media(e)).calls
                == first.calls + OnSession(first.kit, e.sessionId,
                                           TrackEvent(AdCompleteEvent, if e.ad.Some? then Some(AdObject(e.ad.value)) else None, Metadata(e)))
  {
  }

  /** Ad clicks, playhead updates and events with an unlisted name call
      nothing beyond the playhead update every event carrying a playhead
      makes. */
  lemma SilentEvents(kit: Kit, e: MediaEvent)
    requires WellFormed(Media(e))
    requires e.name == AdClick || e.name == UpdatePlayheadPosition || e.name.Unlisted?
    ensures var r := LogBaseEvent(kit, Media(e));
      && r.kit == kit.(playhead := e.playhead.GetOr(kit.playhead))
      && r.calls == RecordPlayhead(kit, e).calls
  {
  }

  /** The playhead is recorded before dispatch: the ad-break and chapter
      objects of an event carrying a playhead start at that playhead. */
  lemma PlayheadFirst(kit: Kit, e: MediaEvent)
    requires WellFormed(Media(e))
    requires e.playhead.Some? && TrackerOf(kit.trackers, e.sessionId).Some?
    requires (e.name == AdBreakStart && e.adBreak.Some?) || (e.name == SegmentStart && e.segment.Some?)
    ensures var r := LogBaseEvent(kit, Media(e));
      var t := TrackerOf(kit.trackers, e.sessionId).value;
      r.calls == [VendorCall(t, UpdateCurrentPlayhead(SecondsOf(e.playhead.value))),
                  VendorCall(t, if e.name == AdBreakStart
                                then TrackEvent(AdBreakStartEvent, Some(AdBreakObject(e.adBreak.value, e.playhead.value)), Metadata(e))
                                else TrackEvent(ChapterStartEvent, Some(ChapterObject(e.segment.value, e.playhead.value)), Metadata(e)))]
  {
  }

  // ---------------------------------------------------------------------------
  // The dispatch table, event by event
  // ---------------------------------------------------------------------------

  /** The playhead calls of an event, followed by `call` on its session's
      tracker if it has one once the playhead is recorded. */
  function AfterPlayhead(kit: Kit, e: MediaEvent, call: TrackerCall): seq<VendorCall> {
    var first := RecordPlayhead(kit, e);
    first.calls + OnSession(first.kit, e.sessionId, call)
  }

  /** Every media event makes at most two tracker calls: the playhead
      update, then the call of its handler. */
  lemma AtMostTwoCalls(kit: Kit, e: MediaEvent)
    requires WellFormed(Media(e))
    ensures |LogBaseEvent(kit, Media(e)).calls| <= 2
  {
  }

  /** Session start and end: after the playhead calls, the calls of
      `sessionStart` and `sessionEnd`. */
  lemma SessionCalls(kit: Kit, e: MediaEvent)
    requires WellFormed(Media(e))
    ensures var first := RecordPlayhead(kit, e);
      && (e.name == SessionStart ==> LogBaseEvent(kit, Media(e)).calls == first.calls + StartSession(first.kit, e).calls)
      && (e.name == SessionEnd ==> LogBaseEvent(kit, Media(e)).calls == first.calls + EndSession(first.kit, e).calls)
  {
  }

  /** Play, pause and QoS updates. An update without QoS data calls
      nothing beyond the playhead update. */
  lemma PlayerCalls(kit: Kit, e: MediaEvent)
    requires WellFormed(Media(e))
    ensures var calls := LogBaseEvent(kit, Media(e)).calls;
      && (e.name == Play ==> calls == AfterPlayhead(kit, e, TrackPlay))
      && (e.name == Pause ==> calls == AfterPlayhead(kit, e, TrackPause))
      && (e.name == UpdateQos && e.qos.Some? ==> calls == AfterPlayhead(kit, e, UpdateQoeObject(QoeObject(e.qos.value))))
      && (e.name == UpdateQos && e.qos.None? ==> calls == RecordPlayhead(kit, e).calls)
  {
  }

  /** Ad-break start and end, and ad start: the break object starts at the
      recorded playhead. */
  lemma AdCalls(kit: Kit, e: MediaEvent)
    requires WellFormed(Media(e))
    ensures var calls := LogBaseEvent(kit, Media(e)).calls;
      var breakInfo := if e.adBreak.Some? then Some(AdBreakObject(e.adBreak.value, e.playhead.GetOr(kit.playhead))) else None;
      && (e.name == AdBreakStart ==> calls == AfterPlayhead(kit, e, TrackEvent(AdBreakStartEvent, breakInfo, Metadata(e))))
      && (e.name == AdBreakEnd ==> calls == AfterPlayhead(kit, e, TrackEvent(AdBreakCompleteEvent, breakInfo, Metadata(e))))
      && (e.name == AdStart ==> calls == AfterPlayhead(kit, e, TrackEvent(AdStartEvent, if e.ad.Some? then Some(AdObject(e.ad.value)) else None, Metadata(e))))
  {
  }

  /** Seeking and buffering carry the media object. */
  lemma ContentCalls(kit: Kit, e: MediaEvent)
    requires WellFormed(Media(e))
    ensures var calls := LogBaseEvent(kit, Media(e)).calls;
      var info := Some(MediaObject(e.content));
      && (e.name == SeekStart ==> calls == AfterPlayhead(kit, e, TrackEvent(SeekStartEvent, info, Metadata(e))))
      && (e.name == SeekEnd ==> calls == AfterPlayhead(kit, e, TrackEvent(SeekCompleteEvent, info, Metadata(e))))
      && (e.name == BufferStart ==> calls == AfterPlayhead(kit, e, TrackEvent(BufferStartEvent, info, Metadata(e))))
      && (e.name == BufferEnd ==> calls == AfterPlayhead(kit, e, TrackEvent(BufferCompleteEvent, info, Metadata(e))))
  {
  }

  /** Segment start, skip and end: the chapter object starts at the recorded
      playhead. */
  lemma SegmentCalls(kit: Kit, e: MediaEvent)
    requires WellFormed(Media(e))
    ensures var calls := LogBaseEvent(kit, Media(e)).calls;
      var info := if e.segment.Some? then Some(ChapterObject(e.segment.value, e.playhead.GetOr(kit.playhead))) else None;
      && (e.name == SegmentStart ==> calls == AfterPlayhead(kit, e, TrackEvent(ChapterStartEvent, info, Metadata(e))))
      && (e.name == SegmentSkip ==> calls == AfterPlayhead(kit, e, TrackEvent(ChapterSkipEvent, info, Metadata(e))))
      && (e.name == SegmentEnd ==> calls == AfterPlayhead(kit, e, TrackEvent(ChapterCompleteEvent, info, Metadata(e))))
  {
  }

  /** Tracker numbers in the map are below the next one to be handed out,
      and no two sessions share a tracker. */
  ghost predicate TrackersFresh(kit: Kit) {
    && (forall s :: s in kit.trackers ==> kit.trackers[s] < kit.nextTracker)
    && (forall s1, s2 :: s1 in kit.trackers && s2 in kit.trackers && s1 != s2 ==> kit.trackers[s1] != kit.trackers[s2])
  }

  lemma TrackersFreshKept(kit: Kit, be: BaseEvent)
    requires WellFormed(be)
    requires TrackersFresh(kit)
    ensures TrackersFresh(LogBaseEvent(kit, be).kit)
  {
  }

  /** The state after a run of events. */
  function LogAll(kit: Kit, events: seq<BaseEvent>): Kit
    requires forall i :: 0 <= i < |events| ==> WellFormed(events[i])
    decreases |events|
  {
    if |events| == 0 then kit else LogAll(LogBaseEvent(kit, events[0]).kit, events[1..])
  }

  lemma {:induction false} TrackersFreshAlways(kit: Kit, events: seq<BaseEvent>)
    requires forall i :: 0 <= i < |events| ==> WellFormed(events[i])
    requires TrackersFresh(kit)
    ensures TrackersFresh(LogAll(kit, events))
    decreases |events|
  {
    if |events| > 0 {
      TrackersFreshKept(kit, events[0]);
      TrackersFreshAlways(LogBaseEvent(kit, events[0]).kit, events[1..]);
    }
  }

  /** Starting a new session and ending it leaves the tracker map as it was,
      with the start and end tracked on one fresh tracker. */
  lemma StartThenEnd(kit: Kit, start: MediaEvent, end: MediaEvent, id: string)
    requires WellFormed(Media(start)) && WellFormed(Media(end))
    requires start.name == SessionStart && end.name == SessionEnd
    requires start.sessionId == Some(id) && end.sessionId == Some(id)
    requires start.playhead.None? && end.playhead.None?
    requires id !in kit.trackers
    ensures var mid := LogBaseEvent(kit, Media(start));
      var fin := LogBaseEvent(mid.kit, Media(end));
      && fin.kit.trackers == kit.trackers
      && mid.calls + fin.calls
         == [VendorCall(kit.nextTracker, TrackSessionStart(MediaObject(start.content), Metadata(start))),
             VendorCall(kit.nextTracker, TrackSessionEnd)]
  {
    var mid := LogBaseEvent(kit, Media(start));
    assert mid.kit.trackers - {id} == kit.trackers;
  }
}

/**
 * Which recorded events invalidate the score of which shift sessions. World holds every table the
 * relation reads except the event log itself.
 */
module BonusSources {
  import opened Prelude
  import opened Ordering

  datatype EventType =
    // sources that name their session
    | ShiftClosed | EmergencyExit | ShiftAutoClosed | ShiftCorrected | ShiftSummaryComputed
    | ShiftFlaggedForReview | ShiftAutoCloseProjected | ShiftPlanRecovered | ShiftPlanInvalid
    | ShiftPlanUnrecoverable | DowntimeUnregisteredConfirmed | SystemIncidentApplied
    | BonusAdjusted | BonusAdjustmentUpdated | BonusAdjustmentCancelled | BonusScoreReviewed
    | BonusAdjustmentSecondDecided | BonusRecalculationRecovered
    // sources that name a handover
    | ChecklistAnswered | HandoverPhotoAttached | CleaningNotCompleted | HandoverSubmitted
    | HandoverAccepted | HandoverDisputed | HandoverResolved
    // sources that name a request, an incident or a presence
    | RequestSubmitted | RequestCancelled | RequestDecided
    | IncidentReported | IncidentStatusChanged | IncidentUpdated
    | PresenceArrived | PresenceDeparted | PresenceDepartureUnknown
    | MediaProcessed
    | BonusPeriodReopened
    | OtherEvent(name: string)

  predicate DirectSource(t: EventType) {
    || t.ShiftClosed? || t.EmergencyExit? || t.ShiftAutoClosed? || t.ShiftCorrected? || t.ShiftSummaryComputed?
    || t.ShiftFlaggedForReview? || t.ShiftAutoCloseProjected? || t.ShiftPlanRecovered? || t.ShiftPlanInvalid?
    || t.ShiftPlanUnrecoverable? || t.DowntimeUnregisteredConfirmed? || t.SystemIncidentApplied?
    || t.BonusAdjusted? || t.BonusAdjustmentUpdated? || t.BonusAdjustmentCancelled? || t.BonusScoreReviewed?
    || t.BonusAdjustmentSecondDecided? || t.BonusRecalculationRecovered?
  }

  predicate HandoverSource(t: EventType) {
    || t.ChecklistAnswered? || t.HandoverPhotoAttached? || t.CleaningNotCompleted? || t.HandoverSubmitted?
    || t.HandoverAccepted? || t.HandoverDisputed? || t.HandoverResolved?
  }

  predicate RequestSource(t: EventType) {
    t.RequestSubmitted? || t.RequestCancelled? || t.RequestDecided?
  }

  predicate IncidentSource(t: EventType) {
    t.IncidentReported? || t.IncidentStatusChanged? || t.IncidentUpdated?
  }

  predicate PresenceSource(t: EventType) {
    t.PresenceArrived? || t.PresenceDeparted? || t.PresenceDepartureUnknown?
  }

  datatype Month = Month(year: int, month: int)

  datatype Day = Day(month: Month, day: int)

  predicate DayAtMost(a: Day, b: Day) {
    || a.month.year < b.month.year
    || (a.month.year == b.month.year && (a.month.month < b.month.month || (a.month.month == b.month.month && a.day <= b.day)))
  }

  /** payload is the JSON object: a key may be absent, null, or hold text. */
  datatype Event = Event(
    kind: EventType, occurredAt: int, receivedAt: int, sessionId: Option<Uuid>, incidentId: Option<Uuid>,
    payload: map<string, Option<string>>, idempotencyKey: Option<string>)

  datatype Session = Session(
    employeeId: Uuid, assignmentId: Option<Uuid>, presenceId: Option<Uuid>, businessDate: Day,
    terminal: bool, startedAt: Option<int>, createdAt: int)

  datatype Handover = Handover(sessionId: Uuid, superseded: bool)

  datatype Attachment = Attachment(handoverId: Uuid, mediaId: Uuid)

  datatype Request = Request(
    employeeId: Uuid, sessionId: Option<Uuid>, assignmentId: Option<Uuid>, from: Option<Day>, until: Option<Day>)

  datatype Downtime = Downtime(incidentId: Option<Uuid>, sessionId: Option<Uuid>)

  datatype Presence = Presence(employeeId: Uuid, arrivedAt: int)

  datatype Period = Period(siteId: Uuid, month: Month)

  datatype World = World(
    sessions: map<Uuid, Session>, handovers: map<Uuid, Handover>, attachments: set<Attachment>,
    requests: map<Uuid, Request>, downtimes: set<Downtime>, presences: map<Uuid, Presence>,
    periods: map<Uuid, Period>, assignments: map<Uuid, Option<Uuid>>, units: map<Uuid, Option<Uuid>>,
    scored: set<Uuid>)

  /** payload ->> key: the text, or null when the key is absent or null. */
  function Text(payload: map<string, Option<string>>, key: string): Option<string> {
    if key in payload then payload[key] else None
  }

  predicate Names(e: Event, key: string, id: Uuid) {
    Text(e.payload, key) == Some(id)
  }

  function Anchor(s: Session): int {
    if s.startedAt.Some? then s.startedAt.value else s.createdAt
  }

  predicate ArrivedBy(w: World, p: Uuid, employee: Uuid, anchor: int) {
    p in w.presences && w.presences[p].employeeId == employee && w.presences[p].arrivedAt <= anchor
  }

  /** The presence with the latest arrival up to the anchor, the greatest identifier breaking ties. */
  predicate LatestPresence(w: World, p: Uuid, employee: Uuid, anchor: int) {
    && ArrivedBy(w, p, employee, anchor)
    && forall q :: q in w.presences && ArrivedBy(w, q, employee, anchor) && q != p ==>
         Before(SortKey(w.presences[q].arrivedAt, q, ""), SortKey(w.presences[p].arrivedAt, p, ""))
  }

  /** The session's own presence, else the fallback. */
  predicate PresenceOf(w: World, s: Session, p: Uuid) {
    if s.presenceId.Some? then s.presenceId == Some(p) else LatestPresence(w, p, s.employeeId, Anchor(s))
  }

  predicate RequestCovers(r: Request, sid: Uuid, s: Session) {
    || r.sessionId == Some(sid)
    || (r.assignmentId.Some? && r.assignmentId == s.assignmentId)
    || (r.employeeId == s.employeeId && r.from.Some? && r.until.Some?
        && DayAtMost(r.from.value, s.businessDate) && DayAtMost(s.businessDate, r.until.value))
  }

  /** The site of the session's planned unit; None when any link is missing. */
  function SiteOf(w: World, s: Session): Option<Uuid> {
    if s.assignmentId.Some? && s.assignmentId.value in w.assignments then
      var unit := w.assignments[s.assignmentId.value];
      if unit.Some? && unit.value in w.units then w.units[unit.value] else None
    else None
  }

  predicate PeriodCovers(w: World, p: Period, s: Session) {
    s.businessDate.month == p.month && (SiteOf(w, s) == Some(p.siteId) || SiteOf(w, s).None?)
  }

  /** The join of the event log with the sessions it invalidates. */
  predicate Related(w: World, e: Event, sid: Uuid) {
    sid in w.sessions && RelatedTo(w, e, sid, w.sessions[sid])
  }

  predicate RelatedTo(w: World, e: Event, sid: Uuid, s: Session) {
    || (DirectSource(e.kind) && e.sessionId == Some(sid))
    || (HandoverSource(e.kind) && exists h :: h in w.handovers && Names(e, "handoverId", h) && w.handovers[h].sessionId == sid)
    || (e.kind.HandoverSubmitted? && "handoverId" !in e.payload && e.sessionId == Some(sid))
    || (RequestSource(e.kind) && exists r :: r in w.requests && Names(e, "requestId", r) && RequestCovers(w.requests[r], sid, s))
    || (IncidentSource(e.kind) && exists d :: d in w.downtimes && d.incidentId.Some? && d.incidentId == e.incidentId && d.sessionId == Some(sid))
    || (PresenceSource(e.kind) && PresenceNamed(w, e, s))
    || (e.kind.MediaProcessed? && exists m :: m in w.attachments && MediaLinks(w, m, sid) && Names(e, "mediaObjectId", m.mediaId))
    || (e.kind.BonusPeriodReopened? && exists p :: p in w.periods && Names(e, "periodId", p) && PeriodCovers(w, w.periods[p], s))
  }

  predicate PresenceNamed(w: World, e: Event, s: Session) {
    if s.presenceId.Some? then Names(e, "presenceId", s.presenceId.value)
    else exists p :: p in w.presences && PresenceOf(w, s, p) && Names(e, "presenceId", p)
  }

  /** An attachment of a handover that is not superseded. */
  predicate MediaLinks(w: World, m: Attachment, sid: Uuid) {
    m.handoverId in w.handovers && w.handovers[m.handoverId].sessionId == sid && !w.handovers[m.handoverId].superseded
  }

  /** Foreign keys: a handover belongs to a stored session. */
  predicate HandoversHaveSessions(w: World) {
    forall h :: h in w.handovers ==> w.handovers[h].sessionId in w.sessions
  }

  function EventTargets(w: World, e: Event): set<Uuid> {
    set sid | sid in w.sessions && Related(w, e, sid)
  }

  /** The media path's own query: the distinct sessions of the object's live handovers. */
  function MediaTargets(w: World, mediaId: Uuid): set<Uuid> {
    set m | m in w.attachments && m.mediaId == mediaId && m.handoverId in w.handovers && !w.handovers[m.handoverId].superseded
      :: w.handovers[m.handoverId].sessionId
  }

  predicate IsMediaEvent(e: Event, mediaId: Uuid) {
    e.kind.MediaProcessed? && Names(e, "mediaObjectId", mediaId)
  }

  /** Both queries for a processed photo name the same sessions, in every database state. */
  lemma MediaPathAgrees(w: World, e: Event, mediaId: Uuid)
    requires HandoversHaveSessions(w) && IsMediaEvent(e, mediaId)
    ensures MediaTargets(w, mediaId) == EventTargets(w, e)
  {
    forall sid | sid in MediaTargets(w, mediaId) ensures sid in EventTargets(w, e) {
      var m :| m in w.attachments && m.mediaId == mediaId && m.handoverId in w.handovers
        && !w.handovers[m.handoverId].superseded && w.handovers[m.handoverId].sessionId == sid;
      assert MediaLinks(w, m, sid) && Names(e, "mediaObjectId", m.mediaId);
      assert RelatedTo(w, e, sid, w.sessions[sid]);
    }
    forall sid | sid in EventTargets(w, e) ensures sid in MediaTargets(w, mediaId) {
      var m :| m in w.attachments && MediaLinks(w, m, sid) && Names(e, "mediaObjectId", m.mediaId);
      assert m.mediaId == mediaId;
    }
  }

  /** A marker event relates to its own session and to no other. */
  lemma MarkerTargets(w: World, e: Event, owner: Uuid, sid: Uuid)
    requires e.kind.BonusRecalculationRecovered? && e.sessionId == Some(owner)
    ensures Related(w, e, sid) <==> sid == owner && sid in w.sessions
  {}

  /** The fallback names at most one presence, so every presence event has one reading. */
  lemma LatestPresenceUnique(w: World, p: Uuid, q: Uuid, employee: Uuid, anchor: int)
    requires LatestPresence(w, p, employee, anchor) && LatestPresence(w, q, employee, anchor)
    ensures p == q
  {
    if p != q {
      BeforeTotal(SortKey(w.presences[q].arrivedAt, q, ""), SortKey(w.presences[p].arrivedAt, p, ""));
      assert false;
    }
  }

  function Arrivals(w: World, employee: Uuid, anchor: int): set<SortKey> {
    set p | p in w.presences && ArrivedBy(w, p, employee, anchor) :: SortKey(w.presences[p].arrivedAt, p, "")
  }

  /** It names one whenever the employee arrived at all by then. */
  lemma LatestPresenceExists(w: World, q: Uuid, employee: Uuid, anchor: int)
    requires ArrivedBy(w, q, employee, anchor)
    ensures exists p :: LatestPresence(w, p, employee, anchor)
  {
    hide Before;
    var keys := Arrivals(w, employee, anchor);
    assert SortKey(w.presences[q].arrivedAt, q, "") in keys;
    GreatestExists(keys);
    var m :| IsGreatest(m, keys);
    var p :| p in w.presences && ArrivedBy(w, p, employee, anchor) && m == SortKey(w.presences[p].arrivedAt, p, "");
    forall r | r in w.presences && ArrivedBy(w, r, employee, anchor) && r != p
      ensures Before(SortKey(w.presences[r].arrivedAt, r, ""), m)
    {
      assert SortKey(w.presences[r].arrivedAt, r, "") in keys;
    }
    assert LatestPresence(w, p, employee, anchor);
  }
}

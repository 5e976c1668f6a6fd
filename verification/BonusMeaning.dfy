/**
 * The words in which the promises of score recalculation are stated: for every class of events a
 * query from the event forward to the sessions it invalidates, and the tasks, markers and waiting
 * lists by their columns; and the lemmas that the modelled join and anti-joins are what they say.
 */
module BonusMeaning {
  import opened Prelude
  import opened Ordering
  import opened TaskTable
  import opened BonusSources
  import opened BonusAdmission

  // ---------------------------------------------------------------- from an event to its sessions

  /** The payload has this identifier under this key. */
  predicate Says(e: Event, key: string, id: Uuid) {
    key in e.payload && e.payload[key] == Some(id)
  }

  /** The session the event was recorded in. */
  function OwnSession(w: World, e: Event): set<Uuid> {
    if e.sessionId.Some? && e.sessionId.value in w.sessions then {e.sessionId.value} else {}
  }

  /** The session that handed over. */
  function HandoverSessions(w: World, e: Event): set<Uuid> {
    set h | h in w.handovers && Says(e, "handoverId", h) && w.handovers[h].sessionId in w.sessions :: w.handovers[h].sessionId
  }

  /** The request's own session, those of its assignment, and its employee's in its period. */
  function RequestSessions(w: World, e: Event): set<Uuid> {
    (set r | r in w.requests && Says(e, "requestId", r) && w.requests[r].sessionId.Some? && w.requests[r].sessionId.value in w.sessions
      :: w.requests[r].sessionId.value)
    + (set r, sid | r in w.requests && Says(e, "requestId", r) && sid in w.sessions
        && w.requests[r].assignmentId.Some? && w.sessions[sid].assignmentId == w.requests[r].assignmentId :: sid)
    + (set r, sid | r in w.requests && Says(e, "requestId", r) && sid in w.sessions
        && w.sessions[sid].employeeId == w.requests[r].employeeId && w.requests[r].from.Some? && w.requests[r].until.Some?
        && !Later(w.requests[r].from.value, w.sessions[sid].businessDate)
        && !Later(w.sessions[sid].businessDate, w.requests[r].until.value) :: sid)
  }

  predicate Later(a: Day, b: Day) {
    if a.month.year != b.month.year then a.month.year > b.month.year
    else if a.month.month != b.month.month then a.month.month > b.month.month
    else a.day > b.day
  }

  /** The sessions that reported downtime of the event's incident. */
  function IncidentSessions(w: World, e: Event): set<Uuid> {
    set d | d in w.downtimes && d.incidentId.Some? && d.incidentId == e.incidentId && d.sessionId.Some? && d.sessionId.value in w.sessions
      :: d.sessionId.value
  }

  /** The sessions of the presence, and those that name none and began during it as their employee's latest. */
  function PresenceSessions(w: World, e: Event): set<Uuid> {
    (set sid | sid in w.sessions && w.sessions[sid].presenceId.Some? && Says(e, "presenceId", w.sessions[sid].presenceId.value))
    + (set p, sid | p in w.presences && Says(e, "presenceId", p) && sid in w.sessions && w.sessions[sid].presenceId.None?
        && LatestArrival(w, p, sid) :: sid)
  }

  /** Nobody of them arrived later by then, nor at the same time under a greater identifier. */
  predicate LatestArrival(w: World, p: Uuid, sid: Uuid)
    requires p in w.presences && sid in w.sessions
  {
    && Arrived(w, p, sid)
    && forall q :: q in w.presences && Arrived(w, q, sid) && q != p ==>
         w.presences[q].arrivedAt < w.presences[p].arrivedAt || (w.presences[q].arrivedAt == w.presences[p].arrivedAt && TextLess(q, p))
  }

  /** The session's employee had arrived when it started, or was created if it never started. */
  predicate Arrived(w: World, p: Uuid, sid: Uuid)
    requires p in w.presences && sid in w.sessions
  {
    && w.presences[p].employeeId == w.sessions[sid].employeeId
    && match w.sessions[sid].startedAt
       case Some(start) => w.presences[p].arrivedAt <= start
       case None => w.presences[p].arrivedAt <= w.sessions[sid].createdAt
  }

  /** The sessions whose live handovers show the photo. */
  function PhotoSessions(w: World, e: Event): set<Uuid> {
    set m | m in w.attachments && Says(e, "mediaObjectId", m.mediaId) && m.handoverId in w.handovers
      && !w.handovers[m.handoverId].superseded && w.handovers[m.handoverId].sessionId in w.sessions
      :: w.handovers[m.handoverId].sessionId
  }

  /** The sessions of the period's month, unless they are known to be at another site. */
  function PeriodSessions(w: World, e: Event): set<Uuid> {
    set p, sid | p in w.periods && Says(e, "periodId", p) && sid in w.sessions
      && w.sessions[sid].businessDate.month.year == w.periods[p].month.year
      && w.sessions[sid].businessDate.month.month == w.periods[p].month.month
      && !Elsewhere(w, w.sessions[sid], w.periods[p].siteId) :: sid
  }

  predicate Elsewhere(w: World, s: Session, site: Uuid) {
    && s.assignmentId.Some? && s.assignmentId.value in w.assignments
    && w.assignments[s.assignmentId.value].Some? && w.assignments[s.assignmentId.value].value in w.units
    && w.units[w.assignments[s.assignmentId.value].value].Some?
    && w.units[w.assignments[s.assignmentId.value].value].value != site
  }

  /** The sessions whose score an event invalidates, class by class. */
  function SourceSessions(w: World, e: Event): set<Uuid> {
    match e.kind
    case ShiftClosed | EmergencyExit | ShiftAutoClosed | ShiftCorrected | ShiftSummaryComputed
       | ShiftFlaggedForReview | ShiftAutoCloseProjected | ShiftPlanRecovered | ShiftPlanInvalid
       | ShiftPlanUnrecoverable | DowntimeUnregisteredConfirmed | SystemIncidentApplied
       | BonusAdjusted | BonusAdjustmentUpdated | BonusAdjustmentCancelled | BonusScoreReviewed
       | BonusAdjustmentSecondDecided | BonusRecalculationRecovered => OwnSession(w, e)
    case HandoverSubmitted => if "handoverId" in e.payload then HandoverSessions(w, e) else OwnSession(w, e)
    case ChecklistAnswered | HandoverPhotoAttached | CleaningNotCompleted | HandoverAccepted
       | HandoverDisputed | HandoverResolved => HandoverSessions(w, e)
    case RequestSubmitted | RequestCancelled | RequestDecided => RequestSessions(w, e)
    case IncidentReported | IncidentStatusChanged | IncidentUpdated => IncidentSessions(w, e)
    case PresenceArrived | PresenceDeparted | PresenceDepartureUnknown => PresenceSessions(w, e)
    case MediaProcessed => PhotoSessions(w, e)
    case BonusPeriodReopened => PeriodSessions(w, e)
    case OtherEvent(_) => {}
  }

  lemma SaysIsNames(e: Event, key: string, id: Uuid)
    ensures Says(e, key, id) <==> Names(e, key, id)
  {}

  lemma LaterIsNotAtMost(a: Day, b: Day)
    ensures Later(a, b) <==> !DayAtMost(a, b)
  {}

  lemma RequestTargets(w: World, e: Event, sid: Uuid)
    requires RequestSource(e.kind) && sid in w.sessions
    ensures Related(w, e, sid) <==> sid in RequestSessions(w, e)
  {
    hide DayAtMost, Later, Text;
    forall r | r in w.requests ensures Says(e, "requestId", r) <==> Names(e, "requestId", r) { SaysIsNames(e, "requestId", r); }
    forall a, b ensures Later(a, b) <==> !DayAtMost(a, b) { LaterIsNotAtMost(a, b); }
    if r :| r in w.requests && Names(e, "requestId", r) && RequestCovers(w.requests[r], sid, w.sessions[sid]) {
      assert sid in RequestSessions(w, e);
    }
    if sid in RequestSessions(w, e) {
      var r :| r in w.requests && Says(e, "requestId", r) && RequestCovers(w.requests[r], sid, w.sessions[sid]);
      assert Names(e, "requestId", r);
    }
  }

  lemma ArrivedIsArrivedBy(w: World, p: Uuid, sid: Uuid)
    requires p in w.presences && sid in w.sessions
    ensures Arrived(w, p, sid) <==> ArrivedBy(w, p, w.sessions[sid].employeeId, Anchor(w.sessions[sid]))
  {}

  lemma LatestArrivalIsLatestPresence(w: World, p: Uuid, sid: Uuid)
    requires p in w.presences && sid in w.sessions
    ensures LatestArrival(w, p, sid) <==> LatestPresence(w, p, w.sessions[sid].employeeId, Anchor(w.sessions[sid]))
  {
    hide Arrived, ArrivedBy, TextLess;
    forall q | q in w.presences
      ensures Arrived(w, q, sid) <==> ArrivedBy(w, q, w.sessions[sid].employeeId, Anchor(w.sessions[sid]))
    {
      ArrivedIsArrivedBy(w, q, sid);
    }
  }

  lemma PresenceTargets(w: World, e: Event, sid: Uuid)
    requires PresenceSource(e.kind) && sid in w.sessions
    ensures Related(w, e, sid) <==> sid in PresenceSessions(w, e)
  {
    hide LatestArrival, LatestPresence, Anchor, Says, Names;
    var s := w.sessions[sid];
    forall p: Uuid ensures Says(e, "presenceId", p) <==> Names(e, "presenceId", p) { SaysIsNames(e, "presenceId", p); }
    forall p | p in w.presences ensures LatestArrival(w, p, sid) <==> LatestPresence(w, p, s.employeeId, Anchor(s)) {
      LatestArrivalIsLatestPresence(w, p, sid);
    }
  }

  lemma PeriodTargets(w: World, e: Event, sid: Uuid)
    requires e.kind.BonusPeriodReopened? && sid in w.sessions
    ensures Related(w, e, sid) <==> sid in PeriodSessions(w, e)
  {
    hide Text;
    forall p | p in w.periods ensures Says(e, "periodId", p) <==> Names(e, "periodId", p) { SaysIsNames(e, "periodId", p); }
    forall p | p in w.periods
      ensures PeriodCovers(w, w.periods[p], w.sessions[sid]) <==>
        (w.sessions[sid].businessDate.month == w.periods[p].month && !Elsewhere(w, w.sessions[sid], w.periods[p].siteId)) {}
  }

  lemma OtherTargets(w: World, e: Event, sid: Uuid)
    requires !RequestSource(e.kind) && !PresenceSource(e.kind) && !e.kind.BonusPeriodReopened? && sid in w.sessions
    ensures Related(w, e, sid) <==> sid in SourceSessions(w, e)
  {
  }

  lemma EveryClass(w: World, e: Event, sid: Uuid)
    requires sid in w.sessions
    ensures Related(w, e, sid) <==> sid in SourceSessions(w, e)
  {
    hide Related, OwnSession, HandoverSessions, RequestSessions, IncidentSessions, PresenceSessions, PhotoSessions, PeriodSessions;
    if RequestSource(e.kind) { RequestTargets(w, e, sid); }
    else if PresenceSource(e.kind) { PresenceTargets(w, e, sid); }
    else if e.kind.BonusPeriodReopened? { PeriodTargets(w, e, sid); }
    else { OtherTargets(w, e, sid); }
  }

  lemma SourcesAreStored(w: World, e: Event)
    ensures SourceSessions(w, e) <= w.sessions.Keys
  {}

  /** The modelled join names, for every event and every state of the tables, exactly these sessions. */
  lemma SourcesMean(w: World, e: Event)
    ensures EventTargets(w, e) == SourceSessions(w, e)
  {
    hide Related, SourceSessions;
    forall sid | sid in w.sessions ensures Related(w, e, sid) <==> sid in SourceSessions(w, e) { EveryClass(w, e, sid); }
    SourcesAreStored(w, e);
  }

  /** The media path's own query names the photo's sessions. */
  lemma PhotosMean(w: World, e: Event, mediaId: Uuid)
    requires HandoversHaveSessions(w) && IsMediaEvent(e, mediaId)
    ensures MediaTargets(w, mediaId) == PhotoSessions(w, e)
  {
    hide HandoversHaveSessions, MediaTargets, EventTargets, PhotoSessions;
    MediaPathAgrees(w, e, mediaId);
    SourcesMean(w, e);
  }

  // ---------------------------------------------------------------- tasks and waiting lists

  /** The recalculation of a pair, due at this time, column by column. */
  predicate Recalculates(intent: Intent, e: Uuid, sid: Uuid, due: int) {
    intent == Intent(BonusRecalculate, 1, "bonus:" + e + ":" + sid, Object(map["sessionId" := sid]), due, Some(e), Some(sid))
  }

  /** Some row recalculates this pair and is due at this time. */
  ghost predicate Has(rows: map<Uuid, Row>, e: Uuid, sid: Uuid, due: int) {
    exists i :: i in rows && Recalculates(rows[i].intent, e, sid, due)
  }

  /** No row is bound to the pair. */
  predicate Unserved(rows: map<Uuid, Row>, e: Uuid, sid: Uuid) {
    forall i :: i in rows && rows[i].intent.kind == BonusRecalculate ==>
      !(rows[i].intent.sourceEventId == Some(e) && rows[i].intent.targetSessionId == Some(sid))
  }

  /** The unserved pairs, by the arrival of the event, the event and the session. */
  function Backlog(w: World, events: map<Uuid, Event>, rows: map<Uuid, Row>): set<SortKey> {
    set e, sid | e in events && sid in SourceSessions(w, events[e]) && Unserved(rows, e, sid) :: SortKey(events[e].receivedAt, e, sid)
  }

  /** Finished sessions without a score that no event invalidates, by creation and identifier. */
  function Unscored(w: World, events: map<Uuid, Event>): set<SortKey> {
    set sid | sid in w.sessions && w.sessions[sid].terminal && sid !in w.scored && Sourceless(w, events, sid)
      :: SortKey(w.sessions[sid].createdAt, sid, "")
  }

  predicate Sourceless(w: World, events: map<Uuid, Event>, sid: Uuid) {
    forall e :: e in events ==> sid !in SourceSessions(w, events[e])
  }

  /** No event holds the session's marker key. */
  predicate KeyFree(events: map<Uuid, Event>, sid: string) {
    forall e :: e in events ==> events[e].idempotencyKey != Some("bonus-recovery:" + sid)
  }

  /** A marker event of this session. */
  predicate IsMarker(ev: Event, sid: Uuid) {
    && ev.kind == BonusRecalculationRecovered && ev.sessionId == Some(sid)
    && ev.payload == map["reason" := Some("TERMINAL_SCORE_MISSING_WITHOUT_SOURCE")]
    && ev.idempotencyKey == Some("bonus-recovery:" + sid)
  }

  /** The key is on the list with fewer than n keys before it. */
  predicate InTurn(keys: set<SortKey>, k: SortKey, n: int) {
    k in keys && |Earlier(keys, k)| < n
  }

  lemma PendingIsInTurn(w: World, events: map<Uuid, Event>, rows: map<Uuid, Row>, limit: nat, k: SortKey)
    ensures k in First(Missing(w, events, rows), limit) <==> InTurn(Backlog(w, events, rows), k, limit)
    ensures |First(Missing(w, events, rows), limit)| == Min(limit, |Backlog(w, events, rows)|)
  {
    hide Missing, Backlog, First, Earlier;
    var keys := Missing(w, events, rows);
    MissingIsBacklog(w, events, rows);
    FirstIsPart(keys, limit);
    FirstSize(keys, limit);
    if k in keys { FirstIsRankBelow(keys, limit, k); }
  }

  lemma SelectedIsInTurn(w: World, events: map<Uuid, Event>, room: nat, k: SortKey)
    ensures k in First(Orphans(w, events), room) <==> InTurn(Unscored(w, events), k, room)
  {
    hide Orphans, Unscored, First, Earlier;
    var keys := Orphans(w, events);
    OrphansAreUnscored(w, events);
    FirstIsPart(keys, room);
    if k in keys { FirstIsRankBelow(keys, room, k); }
  }

  lemma PairMeans(w: World, events: map<Uuid, Event>, rows: map<Uuid, Row>, e: Uuid, sid: Uuid)
    ensures MissingPair(w, events, rows, e, sid) <==> e in events && sid in SourceSessions(w, events[e]) && Unserved(rows, e, sid)
  {
    hide SourceSessions, RelatedTo;
    if e in events {
      SourcesMean(w, events[e]);
      assert Related(w, events[e], sid) <==> sid in EventTargets(w, events[e]);
    }
  }

  /** The modelled anti-joins are these lists. */
  lemma MissingIsBacklog(w: World, events: map<Uuid, Event>, rows: map<Uuid, Row>)
    ensures Missing(w, events, rows) == Backlog(w, events, rows)
  {
    hide MissingPair, SourceSessions, Unserved;
    forall e, sid ensures MissingPair(w, events, rows, e, sid) <==> e in events && sid in SourceSessions(w, events[e]) && Unserved(rows, e, sid) {
      PairMeans(w, events, rows, e, sid);
    }
    forall e | e in events ensures SourceSessions(w, events[e]) <= w.sessions.Keys { SourcesAreStored(w, events[e]); }
  }

  lemma OrphansAreUnscored(w: World, events: map<Uuid, Event>)
    ensures Orphans(w, events) == Unscored(w, events)
  {
    hide SourceSessions, RelatedTo, EventTargets;
    forall sid | sid in w.sessions ensures HasSource(w, events, sid) <==> !Sourceless(w, events, sid) {
      forall e | e in events ensures Related(w, events[e], sid) <==> sid in SourceSessions(w, events[e]) { EveryClass(w, events[e], sid); }
    }
  }

  lemma KeyFreeMeans(events: map<Uuid, Event>, sid: string)
    ensures KeyFree(events, sid) <==> !MarkerTaken(events, sid)
  {}

  lemma MarkerMeans(sid: Uuid, at: int, received: int)
    ensures IsMarker(Marker(sid, at, received), sid) && Marker(sid, at, received).occurredAt == at && Marker(sid, at, received).receivedAt == received
  {}

  /** In a table that agrees with the log a pair has a task exactly when a row recalculates it, due when its event occurred. */
  lemma CanonicalHas(events: map<Uuid, Event>, rows: map<Uuid, Row>, e: Uuid, sid: Uuid, due: int)
    requires Canonical(events, rows)
    ensures Has(rows, e, sid, due) <==> HasTask(rows, e, sid) && e in events && due == events[e].occurredAt
  {
    hide CanonicalIntent;
    if HasTask(rows, e, sid) {
      var i :| i in rows && IsTaskOf(rows, i, e, sid);
      CanonicalTask(events, rows, i, e, sid);
      assert Recalculates(rows[i].intent, e, sid, events[e].occurredAt);
    }
    if Has(rows, e, sid, due) {
      var i :| i in rows && Recalculates(rows[i].intent, e, sid, due);
      assert IsTaskOf(rows, i, e, sid);
      CanonicalTask(events, rows, i, e, sid);
    }
  }
}

/**
 * Admission of score recalculations: one task per source event and target session, under a key
 * made of both identifiers. Every path of the program admits the same intent for the same pair.
 */
module BonusAdmission {
  import opened Prelude
  import opened Ordering
  import opened TaskTable
  import opened BonusSources

  const MAX_RECOVERY := 100

  function BonusKey(e: Uuid, sid: Uuid): string {
    "bonus:" + e + ":" + sid
  }

  function BonusInput(e: Uuid, sid: Uuid, dueAt: int): TaskInput {
    TaskInput(BonusRecalculate, 1, BonusKey(e, sid), Object(map["sessionId" := sid]), Some(dueAt), Some(e), Some(sid))
  }

  function MediaKey(mediaId: Uuid): string {
    "media." + mediaId
  }

  function MediaInput(mediaId: Uuid, receivedAt: int): TaskInput {
    TaskInput(MediaProcess, 1, MediaKey(mediaId), Object(map["mediaObjectId" := mediaId]), Some(receivedAt), None, None)
  }

  function MarkerKey(sid: string): string {
    "bonus-recovery:" + sid
  }

  /** The keys are injective, and the two kinds never share one. */
  lemma BonusKeyInjective(e: Uuid, sid: Uuid, e': Uuid, sid': Uuid)
    requires BonusKey(e, sid) == BonusKey(e', sid')
    ensures e == e' && sid == sid'
  {
    assert e == BonusKey(e, sid)[6..42] && sid == BonusKey(e, sid)[43..];
    assert e' == BonusKey(e', sid')[6..42] && sid' == BonusKey(e', sid')[43..];
  }

  lemma MarkerKeyInjective(a: string, b: string)
    requires MarkerKey(a) == MarkerKey(b)
    ensures a == b
  {
    assert a == MarkerKey(a)[15..] && b == MarkerKey(b)[15..];
  }

  lemma MediaIsNotBonus(m: Uuid, e: Uuid, sid: Uuid)
    ensures MediaKey(m) != BonusKey(e, sid)
  {
    assert MediaKey(m)[0] == 'm' && BonusKey(e, sid)[0] == 'b';
  }

  /** Both kinds of intent pass the queue's own checks. */
  lemma InputsAreValid(e: Uuid, sid: Uuid, due: int)
    ensures ValidInput(BonusInput(e, sid, due)) && TableAccepts(IntentOf(BonusInput(e, sid, due)))
    ensures ValidInput(MediaInput(e, due)) && TableAccepts(IntentOf(MediaInput(e, due)))
  {}

  ghost predicate IsBonusKey(key: string) {
    exists e: Uuid, sid: Uuid :: key == BonusKey(e, sid)
  }

  /** A recalculation under its pair's own key and payload, or another task under another key. */
  ghost predicate KeyedIntent(intent: Intent) {
    if intent.kind.BonusRecalculate? then
      && intent.sourceEventId.Some? && intent.targetSessionId.Some?
      && intent == IntentOf(BonusInput(intent.sourceEventId.value, intent.targetSessionId.value, intent.dueAt))
    else !IsBonusKey(intent.dedupeKey)
  }

  /** It also agrees with the event log: a recorded event, due when that event occurred. */
  ghost predicate CanonicalIntent(events: map<Uuid, Event>, intent: Intent) {
    && KeyedIntent(intent)
    && (intent.kind.BonusRecalculate? ==>
          intent.sourceEventId.value in events && intent.dueAt == events[intent.sourceEventId.value].occurredAt)
  }

  ghost predicate Keyed(rows: map<Uuid, Row>) {
    forall i :: i in rows ==> KeyedIntent(rows[i].intent)
  }

  ghost predicate Canonical(events: map<Uuid, Event>, rows: map<Uuid, Row>) {
    forall i :: i in rows ==> CanonicalIntent(events, rows[i].intent)
  }

  predicate IsTaskOf(rows: map<Uuid, Row>, id: Uuid, e: Uuid, sid: Uuid) {
    && id in rows && rows[id].intent.kind.BonusRecalculate?
    && rows[id].intent.sourceEventId == Some(e) && rows[id].intent.targetSessionId == Some(sid)
  }

  predicate HasTask(rows: map<Uuid, Row>, e: Uuid, sid: Uuid) {
    exists i :: i in rows && IsTaskOf(rows, i, e, sid)
  }

  /** The second table has a task for this pair and otherwise for the same pairs as the first. */
  ghost predicate Adds(rows: map<Uuid, Row>, rows': map<Uuid, Row>, e: Uuid, sid: string) {
    forall x, y :: HasTask(rows', x, y) <==> HasTask(rows, x, y) || (x == e && y == sid)
  }

  lemma MediaIsCanonical(events: map<Uuid, Event>, m: Uuid, receivedAt: int)
    ensures CanonicalIntent(events, IntentOf(MediaInput(m, receivedAt)))
  {
    forall e: Uuid, sid: Uuid ensures MediaKey(m) != BonusKey(e, sid) { MediaIsNotBonus(m, e, sid); }
  }

  lemma BonusIsCanonical(events: map<Uuid, Event>, e: Uuid, sid: Uuid)
    requires e in events
    ensures CanonicalIntent(events, IntentOf(BonusInput(e, sid, events[e].occurredAt)))
  {}

  lemma BonusIsKeyed(e: Uuid, sid: Uuid, due: int)
    ensures KeyedIntent(IntentOf(BonusInput(e, sid, due)))
  {}

  /** Two keyed intents clash only over the same pair. */
  lemma ClashIsSamePair(a: Intent, b: Intent)
    requires KeyedIntent(a) && KeyedIntent(b) && b.kind.BonusRecalculate? && Clash(a, b)
    ensures a == b.(dueAt := a.dueAt)
  {
    assert IsBonusKey(b.dedupeKey);
    if a.kind.BonusRecalculate? && a.dedupeKey == b.dedupeKey {
      BonusKeyInjective(a.sourceEventId.value, a.targetSessionId.value, b.sourceEventId.value, b.targetSessionId.value);
    }
  }

  lemma CanonicalIsKeyed(events: map<Uuid, Event>, rows: map<Uuid, Row>)
    requires Canonical(events, rows)
    ensures Keyed(rows)
  {
    hide KeyedIntent;
    forall i | i in rows ensures KeyedIntent(rows[i].intent) { assert CanonicalIntent(events, rows[i].intent); }
  }

  lemma PairIsTaken(rows: map<Uuid, Row>, e: Uuid, sid: Uuid, due: int)
    requires Keyed(rows)
    ensures Taken(rows, IntentOf(BonusInput(e, sid, due))) <==> HasTask(rows, e, sid)
  {
    var intent := IntentOf(BonusInput(e, sid, due));
    BonusIsKeyed(e, sid, due);
    forall i | i in rows ensures Clash(rows[i].intent, intent) <==> IsTaskOf(rows, i, e, sid) {
      if Clash(rows[i].intent, intent) { ClashIsSamePair(rows[i].intent, intent); }
    }
  }

  /**
   * The admission of a pair: it creates the pair's task when there is none; when there is, it finds
   * it, in whatever state, exactly when it was admitted for the same time, and conflicts otherwise.
   */
  lemma AdmitPairAt(rows: map<Uuid, Row>, e: Uuid, sid: Uuid, due: int, newId: Uuid)
    requires Unique(rows) && Keyed(rows)
    ensures var input := BonusInput(e, sid, due);
      && (Creates(rows, input) <==> !HasTask(rows, e, sid))
      && (Admit(rows, input, newId).Success? <==> !HasTask(rows, e, sid) || Holds(rows, IntentOf(input)))
      && (Admit(rows, input, newId).Success? ==> Admit(rows, input, newId).value.created == !HasTask(rows, e, sid))
      && (Admit(rows, input, newId).Failure? ==> Admit(rows, input, newId).error.IntentConflict?)
  {
    hide HasTask, Taken, Holds, Clash, Keyed;
    InputsAreValid(e, sid, due);
    PairIsTaken(rows, e, sid, due);
  }

  /** Against a table that agrees with the log, a recorded pair is never refused. */
  lemma AdmitPair(events: map<Uuid, Event>, rows: map<Uuid, Row>, e: Uuid, sid: Uuid, newId: Uuid)
    requires Unique(rows) && Canonical(events, rows) && e in events
    ensures var input := BonusInput(e, sid, events[e].occurredAt);
      && Admit(rows, input, newId).Success?
      && Admit(rows, input, newId).value.created == !HasTask(rows, e, sid)
      && (Creates(rows, input) <==> !HasTask(rows, e, sid))
  {
    hide CanonicalIntent, Clash, Taken, Unique;
    CanonicalIsKeyed(events, rows);
    AdmitPairAt(rows, e, sid, events[e].occurredAt, newId);
    if HasTask(rows, e, sid) {
      var i :| i in rows && IsTaskOf(rows, i, e, sid);
      CanonicalTask(events, rows, i, e, sid);
    }
  }

  lemma CanonicalTask(events: map<Uuid, Event>, rows: map<Uuid, Row>, id: Uuid, e: Uuid, sid: Uuid)
    requires Canonical(events, rows) && IsTaskOf(rows, id, e, sid)
    ensures e in events && rows[id].intent == IntentOf(BonusInput(e, sid, events[e].occurredAt))
  {
    assert CanonicalIntent(events, rows[id].intent);
  }

  /** The new row keeps the table keyed and unique, canonical at the recorded time, and adds exactly this pair. */
  lemma AdmittedPair(events: map<Uuid, Event>, rows: map<Uuid, Row>, e: Uuid, sid: Uuid, due: int, newId: Uuid)
    requires Unique(rows) && Keyed(rows) && e in events && newId !in rows && !HasTask(rows, e, sid)
    ensures ValidInput(BonusInput(e, sid, due))
    ensures var rows' := Plus(rows, BonusInput(e, sid, due), newId);
      && Unique(rows') && Keyed(rows') && Adds(rows, rows', e, sid)
      && (due == events[e].occurredAt && Canonical(events, rows) ==> Canonical(events, rows'))
  {
    hide HasTask, Unique, Clash, Taken;
    var input := BonusInput(e, sid, due);
    InputsAreValid(e, sid, due);
    PairIsTaken(rows, e, sid, due);
    BonusIsKeyed(e, sid, due);
    PlusUnique(rows, input, newId);
    PlusIntent(rows, input, newId);
    forall x, y { PlusHasTask(rows, input, newId, x, y); }
  }

  lemma PlusHasTask(rows: map<Uuid, Row>, input: TaskInput, newId: Uuid, x: Uuid, y: Uuid)
    requires ValidInput(input) && newId !in rows
    ensures HasTask(Plus(rows, input, newId), x, y) <==>
      HasTask(rows, x, y) || (input.kind.BonusRecalculate? && input.sourceEventId == Some(x) && input.targetSessionId == Some(y))
  {
    var rows' := Plus(rows, input, newId);
    if HasTask(rows, x, y) {
      var i :| i in rows && IsTaskOf(rows, i, x, y);
      assert IsTaskOf(rows', i, x, y);
    }
    assert rows'[newId] == NewRow(IntentOf(input));
    if input.kind.BonusRecalculate? && input.sourceEventId == Some(x) && input.targetSessionId == Some(y) {
      assert IsTaskOf(rows', newId, x, y);
    }
    if HasTask(rows', x, y) {
      var i :| i in rows' && IsTaskOf(rows', i, x, y);
      if i != newId { assert IsTaskOf(rows, i, x, y); }
    }
  }

  // ---------------------------------------------------------------- what is left to admit

  predicate MissingPair(w: World, events: map<Uuid, Event>, rows: map<Uuid, Row>, e: Uuid, sid: Uuid) {
    e in events && Related(w, events[e], sid) && !HasTask(rows, e, sid)
  }

  /** The anti-join: source pairs without a task, by the columns recovery orders them by. */
  function Missing(w: World, events: map<Uuid, Event>, rows: map<Uuid, Row>): set<SortKey> {
    set e, sid | e in events && sid in w.sessions && MissingPair(w, events, rows, e, sid) :: SortKey(events[e].receivedAt, e, sid)
  }

  predicate HasSource(w: World, events: map<Uuid, Event>, sid: Uuid) {
    exists e :: e in events && Related(w, events[e], sid)
  }

  predicate Orphan(w: World, events: map<Uuid, Event>, sid: Uuid) {
    sid in w.sessions && w.sessions[sid].terminal && sid !in w.scored && !HasSource(w, events, sid)
  }

  /** Terminal sessions without a score and without any source. */
  function Orphans(w: World, events: map<Uuid, Event>): set<SortKey> {
    set sid | sid in w.sessions && Orphan(w, events, sid) :: SortKey(w.sessions[sid].createdAt, sid, "")
  }

  predicate HoldsKey(events: map<Uuid, Event>, key: string) {
    exists e :: e in events && events[e].idempotencyKey == Some(key)
  }

  predicate MarkerTaken(events: map<Uuid, Event>, sid: string) {
    HoldsKey(events, MarkerKey(sid))
  }

  /** Admitting a missing pair removes exactly it from the anti-join. */
  lemma AdmittedIsNoLongerMissing(w: World, events: map<Uuid, Event>, rows: map<Uuid, Row>, rows': map<Uuid, Row>, e: Uuid, sid: Uuid)
    requires e in events
    requires Adds(rows, rows', e, sid)
    ensures Missing(w, events, rows') == Missing(w, events, rows) - {SortKey(events[e].receivedAt, e, sid)}
  {
    forall k | k in Missing(w, events, rows') ensures k in Missing(w, events, rows) && k != SortKey(events[e].receivedAt, e, sid) {
      var x, y :| x in events && y in w.sessions && MissingPair(w, events, rows', x, y) && k == SortKey(events[x].receivedAt, x, y);
      assert MissingPair(w, events, rows, x, y);
    }
    forall k | k in Missing(w, events, rows) && k != SortKey(events[e].receivedAt, e, sid) ensures k in Missing(w, events, rows') {
      var x, y :| x in events && y in w.sessions && MissingPair(w, events, rows, x, y) && k == SortKey(events[x].receivedAt, x, y);
      assert MissingPair(w, events, rows', x, y);
    }
  }

  // ---------------------------------------------------------------- marker events

  function Marker(sid: Uuid, occurredAt: int, receivedAt: int): Event {
    Event(BonusRecalculationRecovered, occurredAt, receivedAt, Some(sid), None,
          map["reason" := Some("TERMINAL_SCORE_MISSING_WITHOUT_SOURCE")], Some(MarkerKey(sid)))
  }

  /** A new event changes no admitted intent and has no task of its own yet. */
  lemma NewEventIsUnadmitted(events: map<Uuid, Event>, rows: map<Uuid, Row>, eid: Uuid, ev: Event)
    requires Canonical(events, rows) && eid !in events
    ensures Canonical(events[eid := ev], rows)
    ensures forall sid :: !HasTask(rows, eid, sid)
  {
    forall i | i in rows ensures CanonicalIntent(events[eid := ev], rows[i].intent) {
      assert CanonicalIntent(events, rows[i].intent);
    }
    forall i, sid | i in rows ensures !IsTaskOf(rows, i, eid, sid) {
      assert CanonicalIntent(events, rows[i].intent);
    }
  }

  /** A session's marker key is held by that session's marker event and by no other event. */
  ghost predicate OwnKey(ev: Event) {
    forall sid: Uuid :: ev.idempotencyKey == Some(MarkerKey(sid)) ==> ev.kind.BonusRecalculationRecovered? && ev.sessionId == Some(sid)
  }

  ghost predicate OwnKeys(events: map<Uuid, Event>) {
    forall e :: e in events ==> OwnKey(events[e])
  }

  lemma MarkerOwnsKey(sid: Uuid, at: int, received: int)
    ensures OwnKey(Marker(sid, at, received))
  {
    forall other: Uuid | MarkerKey(sid) == MarkerKey(other) ensures sid == other { MarkerKeyInjective(sid, other); }
  }

  lemma HasSourceWithMarker(w: World, events: map<Uuid, Event>, eid: Uuid, owner: Uuid, at: int, received: int, sid: Uuid)
    requires eid !in events && owner in w.sessions
    ensures HasSource(w, events[eid := Marker(owner, at, received)], sid) <==> HasSource(w, events, sid) || sid == owner
  {
    var events' := events[eid := Marker(owner, at, received)];
    MarkerTargets(w, Marker(owner, at, received), owner, sid);
    if HasSource(w, events, sid) {
      var e :| e in events && Related(w, events[e], sid);
      assert e in events' && events'[e] == events[e];
    }
    assert eid in events' && events'[eid] == Marker(owner, at, received);
    if HasSource(w, events', sid) {
      var e :| e in events' && Related(w, events'[e], sid);
      if e != eid { assert e in events && events'[e] == events[e]; }
    }
  }

  /** The marker gives its session a source and touches no other session. */
  lemma MarkerAdopts(w: World, events: map<Uuid, Event>, eid: Uuid, owner: Uuid, at: int, received: int)
    requires eid !in events && Orphan(w, events, owner)
    ensures Orphans(w, events[eid := Marker(owner, at, received)]) == Orphans(w, events) - {SortKey(w.sessions[owner].createdAt, owner, "")}
  {
    hide HasSource, Related;
    var events' := events[eid := Marker(owner, at, received)];
    forall sid | sid in w.sessions ensures Orphan(w, events', sid) <==> Orphan(w, events, sid) && sid != owner {
      HasSourceWithMarker(w, events, eid, owner, at, received, sid);
    }
    forall k | k in Orphans(w, events') ensures k in Orphans(w, events) - {SortKey(w.sessions[owner].createdAt, owner, "")} {
      var sid :| sid in w.sessions && Orphan(w, events', sid) && k == SortKey(w.sessions[sid].createdAt, sid, "");
    }
    forall k | k in Orphans(w, events) - {SortKey(w.sessions[owner].createdAt, owner, "")} ensures k in Orphans(w, events') {
      var sid :| sid in w.sessions && Orphan(w, events, sid) && k == SortKey(w.sessions[sid].createdAt, sid, "");
    }
  }

  /** Its own pair aside, the marker creates no missing pair anywhere. */
  lemma MarkerCreatesNoGap(w: World, events: map<Uuid, Event>, rows: map<Uuid, Row>, rows': map<Uuid, Row>, eid: Uuid, owner: Uuid, at: int, received: int)
    requires eid !in events && owner in w.sessions
    requires Adds(rows, rows', eid, owner)
    ensures Missing(w, events[eid := Marker(owner, at, received)], rows') == Missing(w, events, rows)
  {
    hide HasTask, Related;
    var events' := events[eid := Marker(owner, at, received)];
    forall y ensures Related(w, events'[eid], y) ==> y == owner { MarkerTargets(w, Marker(owner, at, received), owner, y); }
    forall k | k in Missing(w, events', rows') ensures k in Missing(w, events, rows) {
      var x, y :| x in events' && y in w.sessions && MissingPair(w, events', rows', x, y) && k == SortKey(events'[x].receivedAt, x, y);
      assert x != eid;
      assert events'[x] == events[x] && MissingPair(w, events, rows, x, y);
    }
    forall k | k in Missing(w, events, rows) ensures k in Missing(w, events', rows') {
      var x, y :| x in events && y in w.sessions && MissingPair(w, events, rows, x, y) && k == SortKey(events[x].receivedAt, x, y);
      assert events'[x] == events[x] && MissingPair(w, events', rows', x, y);
    }
  }

  lemma MarkerTakesOneKey(events: map<Uuid, Event>, eid: Uuid, owner: Uuid, at: int, received: int, sid: string)
    requires eid !in events
    ensures MarkerTaken(events[eid := Marker(owner, at, received)], sid) <==> MarkerTaken(events, sid) || sid == owner
  {
    var events' := events[eid := Marker(owner, at, received)];
    if MarkerTaken(events, sid) {
      var e :| e in events && events[e].idempotencyKey == Some(MarkerKey(sid));
      assert events'[e] == events[e];
    }
    assert events'[eid].idempotencyKey == Some(MarkerKey(owner));
    if MarkerTaken(events', sid) {
      var e :| e in events' && events'[e].idempotencyKey == Some(MarkerKey(sid));
      if e == eid { MarkerKeyInjective(owner, sid); } else { assert events[e] == events'[e]; }
    }
  }

  lemma MissingKey(w: World, events: map<Uuid, Event>, rows: map<Uuid, Row>, k: SortKey)
    requires k in Missing(w, events, rows)
    ensures |k.id| == 36 && |k.sub| == 36 && MissingPair(w, events, rows, k.id, k.sub)
    ensures k.id in events && !HasTask(rows, k.id, k.sub) && k == SortKey(events[k.id].receivedAt, k.id, k.sub)
  {
    var e, sid :| e in events && sid in w.sessions && MissingPair(w, events, rows, e, sid) && k == SortKey(events[e].receivedAt, e, sid);
  }

  lemma OrphanKey(w: World, events: map<Uuid, Event>, k: SortKey)
    requires k in Orphans(w, events)
    ensures |k.id| == 36 && Orphan(w, events, k.id) && k == SortKey(w.sessions[k.id].createdAt, k.id, "")
  {
    var sid :| sid in w.sessions && Orphan(w, events, sid) && k == SortKey(w.sessions[sid].createdAt, sid, "");
  }
}

/**
 * What every interleaving of the admission paths keeps: tables and log agree, no two events share a
 * key, a marker key belongs to its session's marker, and every marker has its task.
 */
module AdmissionInvariant {
  import opened Prelude
  import opened Ordering
  import opened TaskTable
  import opened LeaseProtocol
  import opened LeaseInvariant
  import opened LeaseTheorems
  import opened BonusSources
  import opened BonusAdmission
  import opened AdmissionProtocol

  /** The event holds this session's marker key. */
  predicate KeyFor(ev: Event, sid: Uuid) {
    ev.idempotencyKey == Some(MarkerKey(sid))
  }

  predicate SameKey(a: Event, b: Event) {
    a.idempotencyKey.Some? && a.idempotencyKey == b.idempotencyKey
  }

  predicate UniqueKeys(events: map<Uuid, Event>) {
    forall x, y :: x in events && y in events && SameKey(events[x], events[y]) ==> x == y
  }

  predicate Extends(events: map<Uuid, Event>, more: map<Uuid, Event>) {
    forall e :: e in events ==> e in more && more[e] == events[e]
  }

  /** The committed log against the committed tasks. */
  ghost predicate LogOk(events: map<Uuid, Event>, rows: map<Uuid, Row>) {
    && UniqueKeys(events) && OwnKeys(events) && Canonical(events, rows)
    && forall e, sid :: e in events && KeyFor(events[e], sid) ==> HasTask(rows, e, sid)
  }

  predicate SessionKeys(keys: set<SortKey>) {
    forall k :: k in keys ==> |k.id| == 36
  }

  /** What is left to do names recorded events and sessions. */
  predicate PathOk(events: map<Uuid, Event>, path: Path) {
    match path
    case NoPath => true
    case Admitting(event, _) => event in events
    case Repairing(_, pairs) => forall k :: k in pairs ==> |k.id| == 36 && |k.sub| == 36 && k.id in events
    case Marking(orphans) => SessionKeys(orphans)
    case Adopting(marker, owner, orphans) => marker in events && KeyFor(events[marker], owner) && SessionKeys(orphans)
  }

  /** A new marker has its task, or its task is what the pass enqueues next. */
  ghost predicate MarkersOk(draft: Draft, rows: map<Uuid, Row>) {
    forall e, sid :: e in draft.events && KeyFor(draft.events[e], sid) ==>
      HasTask(rows, e, sid) || (draft.path.Adopting? && draft.path.marker == e && draft.path.owner == sid)
  }

  /** One transaction's uncommitted part, against what is committed. */
  ghost predicate DraftOk(events: map<Uuid, Event>, rows: map<Uuid, Row>, inserts: map<Uuid, Row>, draft: Draft) {
    && draft.events.Keys !! events.Keys
    && UniqueKeys(events + draft.events) && OwnKeys(draft.events)
    && Canonical(events + draft.events, inserts)
    && PathOk(events + draft.events, draft.path)
    && MarkersOk(draft, rows + inserts)
  }

  predicate DraftsApart(a: Draft, b: Draft) {
    && a.events.Keys !! b.events.Keys
    && forall x, y :: x in a.events && y in b.events ==> !SameKey(a.events[x], b.events[y])
  }

  ghost predicate AllDraftsOk(s: System) {
    forall w :: w in s.queue.txs ==> DraftOk(s.events, s.queue.rows, s.queue.txs[w].inserts, DraftOf(s, w))
  }

  predicate AllDraftsApart(s: System) {
    forall v, w :: v in s.queue.txs && w in s.queue.txs && v != w ==> DraftsApart(DraftOf(s, v), DraftOf(s, w))
  }

  ghost predicate SysInv(s: System) {
    && Inv(s.queue) && s.drafts.Keys <= s.queue.txs.Keys
    && LogOk(s.events, s.queue.rows) && AllDraftsOk(s) && AllDraftsApart(s)
  }

  lemma StartInv(s: System)
    requires Starts(s)
    ensures SysInv(s)
  {
    InitialInv(s.queue);
  }

  // ---------------------------------------------------------------- growing logs and tables

  lemma CanonicalGrows(events: map<Uuid, Event>, more: map<Uuid, Event>, rows: map<Uuid, Row>)
    requires Canonical(events, rows) && Extends(events, more)
    ensures Canonical(more, rows)
  {
    hide KeyedIntent;
    forall i | i in rows ensures CanonicalIntent(more, rows[i].intent) { assert CanonicalIntent(events, rows[i].intent); }
  }

  lemma TaskKept(rows: map<Uuid, Row>, rows': map<Uuid, Row>, e: Uuid, sid: Uuid)
    requires HasTask(rows, e, sid) && forall id :: id in rows ==> id in rows' && rows'[id].intent == rows[id].intent
    ensures HasTask(rows', e, sid)
  {
    var id :| id in rows && IsTaskOf(rows, id, e, sid);
    assert IsTaskOf(rows', id, e, sid);
  }

  predicate RowsKept(rows: map<Uuid, Row>, rows': map<Uuid, Row>) {
    forall id :: id in rows ==> id in rows' && rows'[id].intent == rows[id].intent
  }

  lemma MarkersKept(draft: Draft, rows: map<Uuid, Row>, rows': map<Uuid, Row>)
    requires MarkersOk(draft, rows) && RowsKept(rows, rows')
    ensures MarkersOk(draft, rows')
  {
    hide HasTask, KeyFor;
    forall e, sid | e in draft.events && KeyFor(draft.events[e], sid) && HasTask(rows, e, sid) ensures HasTask(rows', e, sid) {
      TaskKept(rows, rows', e, sid);
    }
  }

  lemma ApartSymmetric(a: Draft, b: Draft)
    requires DraftsApart(a, b)
    ensures DraftsApart(b, a)
  {
    assert forall x, y :: SameKey(x, y) ==> SameKey(y, x);
  }

  // ---------------------------------------------------------------- what a step does to inserts

  /** The uncommitted inserts of a transaction change only by its own successful enqueue. */
  ghost predicate InsertsAfter(s: State, l: Label, v: Worker, after: map<Uuid, Row>) {
    || (v in s.txs && after == s.txs[v].inserts)
    || (v !in s.txs && after == map[])
    || (l.Enqueue? && l.w == v && v in s.txs && ValidInput(l.input) && l.newId !in s.txs[v].inserts
        && after == Plus(s.txs[v].inserts, l.input, l.newId))
  }

  lemma EnqueueApplies(s: State, w: Worker, input: TaskInput, newId: Uuid)
    requires Enabled(s, Enqueue(w, input, newId))
    ensures w in s.txs && newId !in s.txs[w].inserts && newId !in s.rows
    ensures Apply(s, Enqueue(w, input, newId)) ==
      if Creates(Visible(s.rows, s.txs[w]), input)
      then Put(s, w, s.txs[w].(inserts := Plus(s.txs[w].inserts, input, newId))) else s
  {
    hide Creates, Visible;
    assert newId !in s.txs[w].inserts by { assert !Unborn(s, newId); }
  }

  lemma CreatesIsValid(rows: map<Uuid, Row>, input: TaskInput)
    ensures Creates(rows, input) ==> ValidInput(input)
  {}

  lemma InsertsStep(s: State, l: Label, v: Worker)
    requires Enabled(s, l) && v in Apply(s, l).txs
    ensures InsertsAfter(s, l, v, Apply(s, l).txs[v].inserts)
  {
    if !By(l, v) {
      hide Enabled, Apply;
      if v in s.txs { OthersKeepTx(s, l, v); } else { OthersOpenNoTx(s, l, v); }
    } else if l.Enqueue? {
      hide Creates, Visible, Enabled, Apply;
      EnqueueApplies(s, v, l.input, l.newId);
      CreatesIsValid(Visible(s.rows, s.txs[v]), l.input);
    } else {
      OwnInserts(s, l);
    }
  }

  lemma OwnInserts(s: State, l: Label)
    requires Enabled(s, l) && !l.Tick? && !l.Enqueue? && l.w in Apply(s, l).txs
    ensures if l.w in s.txs then Apply(s, l).txs[l.w].inserts == s.txs[l.w].inserts else Apply(s, l).txs[l.w].inserts == map[]
  {
    if Progresses(l) {
      hide Progressed;
      if Progressed(s, l).Some? { ProgressFrame(s, l); }
    } else if Opens(l) {
      hide Candidates;
    }
  }

  // ---------------------------------------------------------------- everything but commits

  /** Nothing is committed and only one worker's transaction and draft change. */
  ghost predicate Only(s: System, t: System, w: Worker) {
    && t.queue.rows == s.queue.rows && t.events == s.events && t.drafts.Keys <= t.queue.txs.Keys
    && forall v :: v in t.queue.txs && v != w ==>
         v in s.queue.txs && t.queue.txs[v].inserts == s.queue.txs[v].inserts && DraftOf(t, v) == DraftOf(s, v)
  }

  lemma OneAdvances(s: System, t: System, w: Worker)
    requires SysInv(s) && Inv(t.queue) && Only(s, t, w)
    requires w in t.queue.txs ==> DraftOk(t.events, t.queue.rows, t.queue.txs[w].inserts, DraftOf(t, w))
    requires w in t.queue.txs ==> forall v :: v in t.queue.txs && v != w ==> DraftsApart(DraftOf(t, w), DraftOf(t, v))
    ensures SysInv(t)
  {
    hide Inv, LogOk, DraftOk, DraftsApart, DraftOf;
    forall x, y | x in t.queue.txs && y in t.queue.txs && x != y ensures DraftsApart(DraftOf(t, x), DraftOf(t, y)) {
      if y == w { ApartSymmetric(DraftOf(t, w), DraftOf(t, x)); }
    }
  }

  /** More inserts of a transaction that agree with what it sees. */
  lemma InsertOk(events: map<Uuid, Event>, rows: map<Uuid, Row>, inserts: map<Uuid, Row>, draft: Draft, input: TaskInput, newId: Uuid)
    requires DraftOk(events, rows, inserts, draft) && ValidInput(input) && newId !in inserts && newId !in rows
    requires CanonicalIntent(events + draft.events, IntentOf(input))
    ensures DraftOk(events, rows, Plus(inserts, input, newId), draft)
  {
    hide CanonicalIntent, UniqueKeys, OwnKeys, PathOk, HasTask;
    PlusIntent(inserts, input, newId);
    MarkersKept(draft, rows + inserts, rows + Plus(inserts, input, newId));
  }

  lemma OtherIsCanonical(events: map<Uuid, Event>, input: TaskInput)
    requires OtherTask(input) && ValidInput(input)
    ensures CanonicalIntent(events, IntentOf(input))
  {}

  lemma EmptyDraftOk(events: map<Uuid, Event>, rows: map<Uuid, Row>)
    requires UniqueKeys(events)
    ensures DraftOk(events, rows, map[], Draft(map[], NoPath))
    ensures forall d :: DraftsApart(Draft(map[], NoPath), d) && DraftsApart(d, Draft(map[], NoPath))
  {
    assert events + map[] == events;
  }

  lemma QueuedOnly(s: System, l: Label)
    requires SysInv(s) && Can(s, Queued(l)) && !l.Commit?
    ensures var t := Do(s, Queued(l));
      && t.queue == Apply(s.queue, l) && t.queue.rows == s.queue.rows && t.events == s.events
      && t.drafts.Keys <= t.queue.txs.Keys
      && forall v :: v in t.queue.txs ==> DraftOf(t, v) == DraftOf(s, v) && (v !in s.queue.txs ==> DraftOf(t, v) == Draft(map[], NoPath))
  {
    hide Inv, LogOk, AllDraftsOk, AllDraftsApart, Enabled, Apply;
    OnlyCommitsWrite(s.queue, l);
  }

  lemma QueuedKeepsInv(s: System, l: Label)
    requires SysInv(s) && Can(s, Queued(l)) && !l.Commit?
    ensures SysInv(Do(s, Queued(l)))
  {
    hide Inv, LogOk, DraftOk, DraftsApart, Enabled, Apply, Do, InsertsAfter, DraftOf, OtherTask, CanonicalIntent;
    var t := Do(s, Queued(l));
    StepKeepsInv(s.queue, l);
    QueuedOnly(s, l);
    LogKeys(s);
    EmptyDraftOk(s.events, s.queue.rows);
    forall v | v in t.queue.txs ensures DraftOk(t.events, t.queue.rows, t.queue.txs[v].inserts, DraftOf(t, v)) {
      InsertsStep(s.queue, l, v);
      QueuedDraft(s, l, v, t.queue.txs[v].inserts, DraftOf(t, v));
    }
  }

  lemma LogKeys(s: System)
    requires SysInv(s)
    ensures UniqueKeys(s.events) && OwnKeys(s.events) && Canonical(s.events, s.queue.rows)
  {}

  lemma QueuedDraft(s: System, l: Label, v: Worker, after: map<Uuid, Row>, draft: Draft)
    requires SysInv(s) && Can(s, Queued(l)) && InsertsAfter(s.queue, l, v, after)
    requires draft == DraftOf(s, v) && (v !in s.queue.txs ==> draft == Draft(map[], NoPath))
    ensures DraftOk(s.events, s.queue.rows, after, draft)
  {
    hide Inv, LogOk, DraftOk, DraftOf, OtherTask, Enabled, CanonicalIntent;
    if v !in s.queue.txs {
      LogKeys(s);
      EmptyDraftOk(s.events, s.queue.rows);
    } else if after != s.queue.txs[v].inserts {
      EnqueueApplies(s.queue, v, l.input, l.newId);
      OtherIsCanonical(s.events + draft.events, l.input);
      InsertOk(s.events, s.queue.rows, s.queue.txs[v].inserts, draft, l.input, l.newId);
    }
  }

  // ---------------------------------------------------------------- statements of the paths

  /** A path's statement without an enqueue touches its worker's draft only. */
  lemma DraftStep(s: System, step: Step)
    requires SysInv(s) && Can(s, step) && !step.Queued? && !step.Admitted?
    ensures var t := Do(s, step);
      && t.queue == s.queue && Only(s, t, step.w) && step.w in s.queue.txs && DraftOf(t, step.w) == Redraft(s, step)
  {
    hide Inv, LogOk, AllDraftsOk, AllDraftsApart, Redraft, OwnKeys, First, Orphans, Missing;
  }

  lemma DraftAt(s: System, w: Worker)
    requires SysInv(s) && w in s.queue.txs
    ensures DraftOk(s.events, s.queue.rows, s.queue.txs[w].inserts, DraftOf(s, w))
  {
    hide Inv, LogOk, DraftOk, DraftOf;
  }

  lemma DraftsApartAt(s: System, v: Worker, w: Worker)
    requires SysInv(s) && v in s.queue.txs && w in s.queue.txs && v != w
    ensures DraftsApart(DraftOf(s, v), DraftOf(s, w))
  {
    hide Inv, LogOk, DraftOk, DraftOf, DraftsApart;
  }

  /** A select only replaces a path that owes no marker its task. */
  lemma PathReplaced(events: map<Uuid, Event>, rows: map<Uuid, Row>, inserts: map<Uuid, Row>, draft: Draft, path: Path)
    requires DraftOk(events, rows, inserts, draft) && !draft.path.Adopting? && PathOk(events + draft.events, path)
    ensures DraftOk(events, rows, inserts, draft.(path := path))
  {
    hide Canonical, UniqueKeys, OwnKeys, PathOk, HasTask, KeyFor;
  }

  lemma PathIsOk(s: System, step: Step)
    requires SysInv(s) && Can(s, step) && (step.SelectTargets? || step.SelectMedia? || step.SelectMissing? || step.SelectOrphans?)
    ensures Redraft(s, step) == DraftOf(s, step.w).(path := Redraft(s, step).path)
    ensures !PathOf(s, step.w).Adopting? && PathOk(SeenEvents(s, step.w), Redraft(s, step).path)
  {
    hide Inv, LogOk, AllDraftsOk, AllDraftsApart, EventTargets, MediaTargets, Missing, Orphans, First;
    if step.SelectMissing? {
      PendingPairs(step.seen, SeenEvents(s, step.w), SeenRows(s, step.w), step.limit);
    } else if step.SelectOrphans? {
      PendingOrphans(step.seen, SeenEvents(s, step.w), PathOf(s, step.w).room);
    }
  }

  lemma PendingPairs(w: World, events: map<Uuid, Event>, rows: map<Uuid, Row>, limit: nat)
    ensures forall k :: k in First(Missing(w, events, rows), limit) ==> |k.id| == 36 && |k.sub| == 36 && k.id in events
  {
    hide Missing, HasTask;
    FirstIsPart(Missing(w, events, rows), limit);
    forall k | k in First(Missing(w, events, rows), limit) ensures |k.id| == 36 && |k.sub| == 36 && k.id in events {
      MissingKey(w, events, rows, k);
    }
  }

  lemma PendingOrphans(w: World, events: map<Uuid, Event>, room: nat)
    ensures SessionKeys(First(Orphans(w, events), room))
  {
    hide Orphans;
    FirstIsPart(Orphans(w, events), room);
    forall k | k in First(Orphans(w, events), room) ensures |k.id| == 36 { OrphanKey(w, events, k); }
  }

  lemma SelectKeepsInv(s: System, step: Step)
    requires SysInv(s) && Can(s, step) && (step.SelectTargets? || step.SelectMedia? || step.SelectMissing? || step.SelectOrphans?)
    ensures SysInv(Do(s, step))
  {
    hide SysInv, Can, Do, Redraft, DraftOk, PathOk;
    var w, t := step.w, Do(s, step);
    DraftStep(s, step);
    DraftAt(s, w);
    PathIsOk(s, step);
    PathReplaced(s.events, s.queue.rows, s.queue.txs[w].inserts, DraftOf(s, w), Redraft(s, step).path);
    SameEventsApart(s, w, DraftOf(s, w), Redraft(s, step));
    QueueInv(s);
    OneAdvances(s, t, w);
  }

  lemma QueueInv(s: System)
    requires SysInv(s)
    ensures Inv(s.queue)
  {
    hide Inv, LogOk, AllDraftsOk, AllDraftsApart;
  }

  lemma SameEventsApart(s: System, w: Worker, draft: Draft, draft': Draft)
    requires SysInv(s) && w in s.queue.txs && draft == DraftOf(s, w) && draft'.events == draft.events
    ensures forall v :: v in s.queue.txs && v != w ==> DraftsApart(draft', DraftOf(s, v))
  {
    hide SysInv, DraftOf, SameKey;
    forall v | v in s.queue.txs && v != w ensures DraftsApart(draft', DraftOf(s, v)) { DraftsApartAt(s, w, v); }
  }

  // ---------------------------------------------------------------- new events

  /** An event with a new identifier and a free key, of the producer's own or its session's marker. */
  ghost predicate Fits(s: System, w: Worker, eid: Uuid, ev: Event) {
    && w in s.queue.txs && NewEvent(s, eid) && OwnKey(ev)
    && (ev.idempotencyKey.Some? ==>
          !HoldsKey(SeenEvents(s, w), ev.idempotencyKey.value) && !KeyAwaited(s, w, ev.idempotencyKey.value))
  }

  lemma UniqueWith(events: map<Uuid, Event>, eid: Uuid, ev: Event)
    requires UniqueKeys(events) && (ev.idempotencyKey.Some? ==> !HoldsKey(events, ev.idempotencyKey.value))
    ensures UniqueKeys(events[eid := ev])
  {
    var more := events[eid := ev];
    forall x | x in events ensures !SameKey(events[x], ev) && !SameKey(ev, events[x]) {
      assert ev.idempotencyKey.Some? ==> events[x].idempotencyKey != ev.idempotencyKey;
    }
    forall x, y | x in more && y in more && x != y ensures !SameKey(more[x], more[y]) {}
  }

  lemma PathGrows(events: map<Uuid, Event>, more: map<Uuid, Event>, path: Path)
    requires PathOk(events, path) && Extends(events, more)
    ensures PathOk(more, path)
  {}

  /** The draft with one more event: everything but its markers' tasks is as before. */
  lemma EventOk(s: System, w: Worker, eid: Uuid, ev: Event)
    requires SysInv(s) && Fits(s, w, eid, ev)
    ensures var draft := DraftOf(s, w);
      var events' := draft.events[eid := ev];
      && eid !in draft.events && events'.Keys !! s.events.Keys && UniqueKeys(s.events + events') && OwnKeys(events')
      && Extends(s.events + draft.events, s.events + events')
      && Canonical(s.events + events', s.queue.txs[w].inserts)
      && forall v :: v in s.queue.txs && v != w ==> DraftsApart(Draft(events', draft.path), DraftOf(s, v))
  {
    hide SysInv, OwnKey, UniqueKeys, Canonical, HoldsKey, PathOk, MarkersOk;
    var draft := DraftOf(s, w);
    DraftAt(s, w);
    assert eid !in draft.events;
    assert s.events + draft.events[eid := ev] == (s.events + draft.events)[eid := ev];
    UniqueWith(s.events + draft.events, eid, ev);
    CanonicalGrows(s.events + draft.events, s.events + draft.events[eid := ev], s.queue.txs[w].inserts);
    forall v | v in s.queue.txs && v != w ensures DraftsApart(Draft(draft.events[eid := ev], draft.path), DraftOf(s, v)) {
      DraftsApartAt(s, w, v);
      EventApart(s, w, eid, ev, v);
    }
  }

  lemma EventApart(s: System, w: Worker, eid: Uuid, ev: Event, v: Worker)
    requires NewEvent(s, eid) && v != w && DraftsApart(DraftOf(s, w), DraftOf(s, v))
    requires ev.idempotencyKey.Some? ==> !KeyAwaited(s, w, ev.idempotencyKey.value)
    ensures DraftsApart(Draft(DraftOf(s, w).events[eid := ev], DraftOf(s, w).path), DraftOf(s, v))
  {
    forall y | y in DraftOf(s, v).events ensures !SameKey(ev, DraftOf(s, v).events[y]) {
      if ev.idempotencyKey.Some? { assert !HoldsKey(s.drafts[v].events, ev.idempotencyKey.value); }
    }
  }

  lemma RecordKeepsInv(s: System, w: Worker, eid: Uuid, ev: Event)
    requires SysInv(s) && Can(s, Record(w, eid, ev))
    ensures SysInv(Do(s, Record(w, eid, ev)))
  {
    hide SysInv, Do, OwnKeys, UniqueKeys, Canonical, PathOk, NewEvent, KeyAwaited, HoldsKey, Finished;
    var t, draft := Do(s, Record(w, eid, ev)), DraftOf(s, w);
    DraftStep(s, Record(w, eid, ev));
    DraftAt(s, w);
    EventOk(s, w, eid, ev);
    PathGrows(s.events + draft.events, s.events + draft.events[eid := ev], draft.path);
    ProducerMarksNobody(draft, eid, ev, s.queue.rows + s.queue.txs[w].inserts);
    QueueInv(s);
    hide DraftOf, DraftsApart;
    OneAdvances(s, t, w);
  }

  lemma ProducerMarksNobody(draft: Draft, eid: Uuid, ev: Event, rows: map<Uuid, Row>)
    requires MarkersOk(draft, rows) && ProducerKey(ev)
    ensures MarkersOk(Draft(draft.events[eid := ev], draft.path), rows)
  {
    hide HasTask;
  }

  lemma MarkerWritten(draft: Draft, eid: Uuid, owner: Uuid, at: int, received: int, rows: map<Uuid, Row>, rest: set<SortKey>)
    requires MarkersOk(draft, rows) && !draft.path.Adopting?
    ensures MarkersOk(Draft(draft.events[eid := Marker(owner, at, received)], Adopting(eid, owner, rest)), rows)
  {
    hide HasTask;
    forall sid: Uuid ensures KeyFor(Marker(owner, at, received), sid) ==> sid == owner {
      if MarkerKey(owner) == MarkerKey(sid) { MarkerKeyInjective(owner, sid); }
    }
  }

  lemma MarkerKeepsInv(s: System, step: Step)
    requires SysInv(s) && Can(s, step) && step.WriteMarker?
    ensures SysInv(Do(s, step))
  {
    hide SysInv, Do, OwnKeys, UniqueKeys, Canonical, NewEvent, KeyAwaited, HoldsKey, Finished, Marker, MarkersOk, SameKey, Only;
    var w, t, draft := step.w, Do(s, step), DraftOf(s, step.w);
    var rest := draft.path.orphans - {step.k};
    DraftStep(s, step);
    DraftAt(s, w);
    QueueInv(s);
    OnlyOthers(s, t, w);
    if HoldsKey(SeenEvents(s, w), MarkerKey(step.k.id)) {
      PathReplaced(s.events, s.queue.rows, s.queue.txs[w].inserts, draft, Marking(rest));
      SameEventsApart(s, w, draft, Redraft(s, step));
    } else {
      var ev := Marker(step.k.id, step.clock, step.received);
      MarkerOwnsKey(step.k.id, step.clock, step.received);
      MarkerHoldsKey(step.k.id, step.clock, step.received);
      EventOk(s, w, step.eid, ev);
      MarkerWritten(draft, step.eid, step.k.id, step.clock, step.received, s.queue.rows + s.queue.txs[w].inserts, rest);
    }
    hide DraftOf, DraftsApart;
    OneAdvances(s, t, w);
  }

  lemma MarkerHoldsKey(sid: Uuid, at: int, received: int)
    ensures Marker(sid, at, received).idempotencyKey == Some(MarkerKey(sid)) && KeyFor(Marker(sid, at, received), sid)
  {}

  // ---------------------------------------------------------------- the enqueue of a pair

  lemma SeenIsCanonical(s: System, w: Worker)
    requires SysInv(s) && w in s.queue.txs
    ensures Unique(SeenRows(s, w)) && Canonical(SeenEvents(s, w), SeenRows(s, w))
  {
    hide Inv, UniqueKeys, OwnKeys, PathOk, MarkersOk, KeyedIntent, Unique, HasTask;
    QueueInv(s);
    VisibleRows(s.queue, w);
    DraftAt(s, w);
    CanonicalGrows(s.events, SeenEvents(s, w), s.queue.rows);
    hide CanonicalIntent;
  }

  /** No path ever raises the conflict: every pair it enqueues is found or created. */
  lemma NeverRefused(s: System, w: Worker, e: Uuid, sid: Uuid, newId: Uuid)
    requires SysInv(s) && w in s.queue.txs && e in SeenEvents(s, w)
    ensures !Refused(SeenRows(s, w), PairInput(s, w, e, sid))
    ensures Unique(SeenRows(s, w)) && Admit(SeenRows(s, w), PairInput(s, w, e, sid), newId).Success?
    ensures Admit(SeenRows(s, w), PairInput(s, w, e, sid), newId).value.created == !HasTask(SeenRows(s, w), e, sid)
    ensures ValidInput(PairInput(s, w, e, sid)) && (Creates(SeenRows(s, w), PairInput(s, w, e, sid)) <==> !HasTask(SeenRows(s, w), e, sid))
  {
    hide SysInv, Canonical, HasTask, Unique, Taken, SeenRows, SeenEvents;
    SeenIsCanonical(s, w);
    InputsAreValid(e, sid, SeenEvents(s, w)[e].occurredAt);
    AdmitPair(SeenEvents(s, w), SeenRows(s, w), e, sid, newId);
  }

  lemma AdmittedIssues(s: System, step: Step)
    requires SysInv(s) && step.Admitted? && Can(s, step)
    ensures step.e in SeenEvents(s, step.w) && Owes(PathOf(s, step.w), step.e, step.sid)
    ensures Enabled(s.queue, Enqueue(step.w, PairInput(s, step.w, step.e, step.sid), step.newId))
    ensures NextQueue(s, step) == Apply(s.queue, Enqueue(step.w, PairInput(s, step.w, step.e, step.sid), step.newId))
  {
    hide SysInv, Enabled, Apply, Refused, PairInput, Owes;
    NeverRefused(s, step.w, step.e, step.sid, step.newId);
  }

  /** A step of a path that leaves its own transaction open: drafts change at its worker only. */
  lemma DoDrafts(s: System, step: Step, queue: State)
    requires Can(s, step) && !step.Queued? && queue == NextQueue(s, step) && step.w in queue.txs
    requires queue.rows == s.queue.rows && s.drafts.Keys <= s.queue.txs.Keys
    requires forall v :: v in queue.txs && v != step.w ==> v in s.queue.txs && queue.txs[v].inserts == s.queue.txs[v].inserts
    ensures Do(s, step).queue == queue && Only(s, Do(s, step), step.w) && DraftOf(Do(s, step), step.w) == Redraft(s, step)
  {
    hide Can, NextQueue, Redraft;
  }

  /** What the enqueue of a pair leaves: its task is there, the path owes it no more. */
  lemma AdmittedStep(s: System, w: Worker, e: Uuid, sid: Uuid, newId: Uuid)
    requires SysInv(s) && Can(s, Admitted(w, e, sid, newId))
    ensures var t := Do(s, Admitted(w, e, sid, newId));
      var inserts := s.queue.txs[w].inserts;
      && t.queue == Apply(s.queue, Enqueue(w, PairInput(s, w, e, sid), newId))
      && Only(s, t, w) && w in t.queue.txs && ValidInput(PairInput(s, w, e, sid))
      && newId !in inserts && newId !in s.queue.rows
      && t.queue.txs[w].inserts == (if HasTask(SeenRows(s, w), e, sid) then inserts else Plus(inserts, PairInput(s, w, e, sid), newId))
      && DraftOf(t, w) == DraftOf(s, w).(path := Paid(PathOf(s, w), e, sid))
  {
    hide Inv, LogOk, AllDraftsOk, AllDraftsApart, Enabled, Apply, HasTask, Paid, Owes, Creates, NextQueue, PairInput, Do, Only, Plus, Visible;
    var step := Admitted(w, e, sid, newId);
    AdmittedIssues(s, step);
    NeverRefused(s, w, e, sid, newId);
    EnqueueApplies(s.queue, w, PairInput(s, w, e, sid), newId);
    DoDrafts(s, step, NextQueue(s, step));
  }

  lemma PairInserted(events: map<Uuid, Event>, rows: map<Uuid, Row>, inserts: map<Uuid, Row>, e: Uuid, sid: Uuid, newId: Uuid)
    requires e in events && newId !in rows && newId !in inserts && ValidInput(BonusInput(e, sid, events[e].occurredAt))
    ensures var inserts' := Plus(inserts, BonusInput(e, sid, events[e].occurredAt), newId);
      HasTask(rows + inserts', e, sid) && RowsKept(rows + inserts, rows + inserts')
  {
    var inserts' := Plus(inserts, BonusInput(e, sid, events[e].occurredAt), newId);
    assert IsTaskOf(rows + inserts', newId, e, sid);
  }

  lemma PaidPath(events: map<Uuid, Event>, path: Path, e: Uuid, sid: Uuid)
    requires PathOk(events, path) && Owes(path, e, sid)
    ensures PathOk(events, Paid(path, e, sid)) && !Paid(path, e, sid).Adopting?
    ensures path.Adopting? ==> path.marker == e && path.owner == sid
  {}

  lemma MarkerPaid(draft: Draft, rows: map<Uuid, Row>, e: Uuid, sid: Uuid)
    requires MarkersOk(draft, rows) && Owes(draft.path, e, sid) && HasTask(rows, e, sid)
    ensures MarkersOk(draft.(path := Paid(draft.path, e, sid)), rows)
  {
    hide HasTask, KeyFor;
  }

  /** The draft after the enqueue, whether it created the task or found it. */
  lemma AdmittedDraft(s: System, w: Worker, e: Uuid, sid: Uuid, newId: Uuid, inserts: map<Uuid, Row>)
    requires SysInv(s) && w in s.queue.txs && e in SeenEvents(s, w) && Owes(PathOf(s, w), e, sid)
    requires newId !in s.queue.rows && newId !in s.queue.txs[w].inserts && ValidInput(PairInput(s, w, e, sid))
    requires inserts == if HasTask(SeenRows(s, w), e, sid) then s.queue.txs[w].inserts
                        else Plus(s.queue.txs[w].inserts, PairInput(s, w, e, sid), newId)
    ensures HasTask(s.queue.rows + inserts, e, sid)
    ensures DraftOk(s.events, s.queue.rows, inserts, DraftOf(s, w).(path := Paid(PathOf(s, w), e, sid)))
  {
    hide SysInv, UniqueKeys, OwnKeys, Canonical, PathOk, HasTask, MarkersOk, Owes, Paid, Plus, BonusInput, IntentOf;
    var draft := DraftOf(s, w);
    DraftAt(s, w);
    if !HasTask(SeenRows(s, w), e, sid) {
      BonusIsCanonical(s.events + draft.events, e, sid);
      PairInserted(s.events + draft.events, s.queue.rows, s.queue.txs[w].inserts, e, sid, newId);
      InsertOk(s.events, s.queue.rows, s.queue.txs[w].inserts, draft, PairInput(s, w, e, sid), newId);
    }
    PaidPath(s.events + draft.events, draft.path, e, sid);
    MarkerPaid(draft, s.queue.rows + inserts, e, sid);
  }

  lemma AdmittedKeepsInv(s: System, w: Worker, e: Uuid, sid: Uuid, newId: Uuid)
    requires SysInv(s) && Can(s, Admitted(w, e, sid, newId))
    ensures SysInv(Do(s, Admitted(w, e, sid, newId)))
  {
    hide SysInv, Do, DraftOk, Paid, HasTask, PairInput, Enabled, Apply, Plus, Only;
    var step := Admitted(w, e, sid, newId);
    var t := Do(s, step);
    AdmittedStep(s, w, e, sid, newId);
    AdmittedDraft(s, w, e, sid, newId, t.queue.txs[w].inserts);
    SameEventsApart(s, w, DraftOf(s, w), DraftOf(t, w));
    QueueInv(s);
    StepKeepsInv(s.queue, Enqueue(w, PairInput(s, w, e, sid), newId));
    OnlyOthers(s, t, w);
    OneAdvances(s, t, w);
  }

  lemma OnlyOthers(s: System, t: System, w: Worker)
    requires Only(s, t, w)
    ensures t.queue.rows == s.queue.rows && t.events == s.events
    ensures forall v :: v in t.queue.txs && v != w ==> v in s.queue.txs && DraftOf(t, v) == DraftOf(s, v)
  {}

  // ---------------------------------------------------------------- commits

  lemma CommitStep(s: System, w: Worker)
    requires SysInv(s) && Can(s, Queued(Commit(w)))
    ensures var t := Do(s, Queued(Commit(w)));
      && w in s.queue.txs && t.queue == Committed(s.queue, w) && t.events == SeenEvents(s, w)
      && t.queue.txs == s.queue.txs - {w} && t.drafts.Keys <= t.queue.txs.Keys
      && forall v :: v in t.queue.txs ==> DraftOf(t, v) == DraftOf(s, v)
  {
    hide Inv, LogOk, AllDraftsOk, AllDraftsApart;
  }

  lemma CommitRowsKept(s: State, w: Worker)
    requires Inv(s) && w in s.txs
    ensures RowsKept(Visible(s.rows, s.txs[w]), Committed(s, w).rows) && RowsKept(s.rows, Committed(s, w).rows)
    ensures forall id :: id in Committed(s, w).rows ==>
      id in Visible(s.rows, s.txs[w]) && Committed(s, w).rows[id].intent == Visible(s.rows, s.txs[w])[id].intent
  {
    hide Inv, PhaseOk, InsertsOk;
    VisibleRows(s, w);
    forall id | id in Committed(s, w).rows || id in Visible(s.rows, s.txs[w])
      ensures id in Committed(s, w).rows && id in Visible(s.rows, s.txs[w])
        && Committed(s, w).rows[id].intent == Visible(s.rows, s.txs[w])[id].intent
    {
      CommittedIntent(s, w, id);
    }
  }

  lemma CommittedIntent(s: State, w: Worker, id: Uuid)
    requires Inv(s) && w in s.txs && (id in Committed(s, w).rows || id in Visible(s.rows, s.txs[w]))
    ensures id in Committed(s, w).rows && id in Visible(s.rows, s.txs[w])
    ensures Committed(s, w).rows[id].intent == Visible(s.rows, s.txs[w])[id].intent
  {
    hide PhaseOk, InsertsOk;
    assert TxOk(s.rows, s.now, s.tokens, s.txs[w]);
    VisibleRows(s, w);
    MergedIntent(s.rows, s.now, s.tokens, s.txs[w], id);
  }

  lemma CanonicalSame(events: map<Uuid, Event>, rows: map<Uuid, Row>, rows': map<Uuid, Row>)
    requires Canonical(events, rows) && forall id :: id in rows' ==> id in rows && rows'[id].intent == rows[id].intent
    ensures Canonical(events, rows')
  {
    hide CanonicalIntent;
  }

  /** The log with the transaction's events against the tables with its rows. */
  lemma CommittedLog(s: System, w: Worker)
    requires SysInv(s) && w in s.queue.txs && Finished(PathOf(s, w))
    ensures LogOk(SeenEvents(s, w), Committed(s.queue, w).rows)
  {
    hide Inv, UniqueKeys, Canonical, HasTask, KeyFor, OwnKey, Visible, Committed, PathOk;
    var draft := DraftOf(s, w);
    var rows, seen, rows' := s.queue.rows, SeenRows(s, w), Committed(s.queue, w).rows;
    QueueInv(s);
    DraftAt(s, w);
    SeenIsCanonical(s, w);
    CommitRowsKept(s.queue, w);
    CanonicalSame(SeenEvents(s, w), seen, rows');
    SeenUnion(s, w);
    forall e, sid | e in SeenEvents(s, w) && KeyFor(SeenEvents(s, w)[e], sid) ensures HasTask(rows', e, sid) {
      if e in draft.events {
        TaskKept(seen, rows', e, sid);
      } else {
        TaskKept(rows, rows', e, sid);
      }
    }
  }

  lemma SeenUnion(s: System, w: Worker)
    requires w in s.queue.txs
    ensures SeenRows(s, w) == s.queue.rows + s.queue.txs[w].inserts
  {}

  lemma UniqueOfThree(a: map<Uuid, Event>, b: map<Uuid, Event>, c: map<Uuid, Event>)
    requires UniqueKeys(a + b) && UniqueKeys(a + c) && a.Keys !! b.Keys && a.Keys !! c.Keys
    requires b.Keys !! c.Keys && forall x, y :: x in b && y in c ==> !SameKey(b[x], c[y])
    ensures UniqueKeys(a + b + c)
  {
    var all := a + b + c;
    forall x, y | x in all && y in all && SameKey(all[x], all[y]) ensures x == y {
      assert SameKey(all[y], all[x]);
      assert x in a && y in a ==> (a + b)[x] == a[x] && (a + b)[y] == a[y];
      if x in a + b && y in a + b {
        assert SameKey((a + b)[x], (a + b)[y]);
      } else if x in a + c && y in a + c {
        assert SameKey((a + c)[x], (a + c)[y]);
      }
    }
  }

  /** Another transaction's draft against the log and the tables after the commit. */
  lemma CommittedDraft(events: map<Uuid, Event>, rows: map<Uuid, Row>, inserts: map<Uuid, Row>, draft: Draft, other: Draft, rows': map<Uuid, Row>)
    requires DraftOk(events, rows, inserts, draft) && DraftsApart(other, draft) && RowsKept(rows, rows')
    requires other.events.Keys !! events.Keys && UniqueKeys(events + other.events)
    ensures DraftOk(events + other.events, rows', inserts, draft)
  {
    hide CanonicalIntent, OwnKeys, MarkersOk, PathOk, UniqueKeys, SameKey;
    var more := events + other.events;
    assert Extends(events + draft.events, more + draft.events);
    UniqueOfThree(events, other.events, draft.events);
    CanonicalGrows(events + draft.events, more + draft.events, inserts);
    PathGrows(events + draft.events, more + draft.events, draft.path);
    assert RowsKept(rows + inserts, rows' + inserts);
    MarkersKept(draft, rows + inserts, rows' + inserts);
  }

  lemma CommitKeepsSysInv(s: System, w: Worker)
    requires SysInv(s) && Can(s, Queued(Commit(w)))
    ensures SysInv(Do(s, Queued(Commit(w))))
  {
    hide Inv, LogOk, UniqueKeys, OwnKeys, Canonical, PathOk, MarkersOk, DraftsApart, Do, Committed, DraftOf;
    var t := Do(s, Queued(Commit(w)));
    CommitStep(s, w);
    QueueInv(s);
    CommitKeepsInv(s.queue, w);
    CommittedLog(s, w);
    CommitRowsKept(s.queue, w);
    DraftAt(s, w);
    forall v | v in t.queue.txs ensures DraftOk(t.events, t.queue.rows, t.queue.txs[v].inserts, DraftOf(t, v)) {
      DraftAt(s, v);
      DraftsApartAt(s, w, v);
      CommittedDraft(s.events, s.queue.rows, s.queue.txs[v].inserts, DraftOf(s, v), DraftOf(s, w), t.queue.rows);
    }
    forall v, x | v in t.queue.txs && x in t.queue.txs && v != x ensures DraftsApart(DraftOf(t, v), DraftOf(t, x)) {
      DraftsApartAt(s, v, x);
    }
  }

  // ---------------------------------------------------------------- every step, every run

  lemma StepKeepsSysInv(s: System, step: Step)
    requires SysInv(s) && Can(s, step)
    ensures SysInv(Do(s, step))
  {
    hide SysInv, Can, Do;
    match step
    case Queued(l) => if l.Commit? { CommitKeepsSysInv(s, l.w); } else { QueuedKeepsInv(s, l); }
    case Record(w, eid, ev) => RecordKeepsInv(s, w, eid, ev);
    case Admitted(w, e, sid, newId) => AdmittedKeepsInv(s, w, e, sid, newId);
    case WriteMarker(_, _, _, _, _) => MarkerKeepsInv(s, step);
    case _ => SelectKeepsInv(s, step);
  }

  /** Whatever the paths, the producers and the workers do, tables and log agree in every state. */
  lemma {:induction false} RunKeepsSysInv(s: System, run: seq<Step>)
    requires SysInv(s) && CanAll(s, run)
    ensures SysInv(DoAll(s, run))
    decreases |run|
  {
    hide SysInv, Can, Do;
    if run != [] {
      StepKeepsSysInv(s, run[0]);
      RunKeepsSysInv(Do(s, run[0]), run[1..]);
    }
  }

  /** A step is one statement of the task queue or none. */
  lemma StepIsLabel(s: System, step: Step)
    requires SysInv(s) && Can(s, step)
    ensures LabelOf(s, step).Some? ==> Enabled(s.queue, LabelOf(s, step).value) && Do(s, step).queue == Apply(s.queue, LabelOf(s, step).value)
    ensures LabelOf(s, step).None? ==> Do(s, step).queue == s.queue
  {
    hide SysInv, Enabled, Apply, Redraft;
    if step.Admitted? { AbortEnabled(s.queue, step.w); }
  }

  lemma AbortEnabled(s: State, w: Worker)
    ensures w in s.txs ==> Enabled(s, Abort(w))
  {}

  ghost function Labels(s: System, run: seq<Step>): seq<Label>
    requires CanAll(s, run)
    decreases |run|
  {
    if run == [] then []
    else (match LabelOf(s, run[0]) case None => [] case Some(l) => [l]) + Labels(Do(s, run[0]), run[1..])
  }

  /** The task queue inside is the protocol's queue: everything proved of its runs holds here. */
  lemma {:induction false} QueueRuns(s: System, run: seq<Step>)
    requires SysInv(s) && CanAll(s, run)
    ensures Possible(s.queue, Labels(s, run)) && After(s.queue, Labels(s, run)) == DoAll(s, run).queue
    decreases |run|
  {
    hide SysInv, Can, Do, Enabled, Apply, LabelOf;
    if run != [] {
      var next := Do(s, run[0]);
      StepKeepsSysInv(s, run[0]);
      StepIsLabel(s, run[0]);
      QueueRuns(next, run[1..]);
      if LabelOf(s, run[0]).Some? {
        var l := LabelOf(s, run[0]).value;
        assert ([l] + Labels(next, run[1..]))[1..] == Labels(next, run[1..]);
      } else {
        assert [] + Labels(next, run[1..]) == Labels(next, run[1..]);
      }
    }
  }
}

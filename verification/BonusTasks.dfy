/**
 * The admission paths over the stored tables: a producer's live admission, the media path and the
 * bounded repair pass. Identifiers are drawn by the database and supplied by the caller here.
 */
module BonusTasks {
  import opened Prelude
  import opened Ordering
  import opened TaskTable
  import opened BonusSources
  import opened BonusAdmission
  import opened BonusMeaning
  import opened QueueMeaning

  datatype AuditRecord = AuditRecord(sessionId: string, sourceEventId: Uuid, at: int)

  datatype RecoveryError = InvalidLimit

  datatype Recovery = Recovery(admitted: nat, markers: nat)

  /** Supplied identifiers from position i on are distinct and not yet in use. */
  ghost predicate Unused(ids: seq<Uuid>, i: nat, used: set<Uuid>) {
    && (forall x :: i <= x < |ids| ==> ids[x] !in used)
    && (forall x, y :: i <= x < y < |ids| ==> ids[x] != ids[y])
  }

  lemma NextUnused(ids: seq<Uuid>, i: nat, used: set<Uuid>, more: set<Uuid>)
    requires Unused(ids, i, used) && i < |ids| && more == used + {ids[i]}
    ensures Unused(ids, i + 1, more)
  {}

  lemma UnusedAt(ids: seq<Uuid>, i: nat, used: set<Uuid>)
    requires Unused(ids, i, used) && i < |ids|
    ensures ids[i] !in used
  {}

  /** Every stored row is still there, unchanged, and n new ones are. */
  predicate Grew<T(==)>(before: map<Uuid, T>, after: map<Uuid, T>, n: nat) {
    && (forall id :: id in before ==> id in after && after[id] == before[id])
    && |after| == |before| + n
  }

  lemma GrewMore<T>(a: map<Uuid, T>, m: nat, b: map<Uuid, T>, n: nat, c: map<Uuid, T>)
    requires Grew(a, b, m) && Grew(b, c, n)
    ensures Grew(a, c, m + n)
  {}

  lemma GrewByKey<T>(a: map<Uuid, T>, done: set<SortKey>, b: map<Uuid, T>, k: SortKey, c: map<Uuid, T>, more: set<SortKey>)
    requires Grew(a, b, |done|) && Grew(b, c, 1) && k !in done && more == done + {k}
    ensures |more| == |done| + 1 && Grew(a, c, |more|)
  {
    hide Grew;
    SizeAdd(done, k);
    GrewMore(a, |done|, b, 1, c);
  }

  lemma GrewNothing<T>(a: map<Uuid, T>)
    ensures Grew(a, a, 0)
  {}

  lemma GrewByOne<T>(a: map<Uuid, T>, id: Uuid, row: T)
    requires id !in a
    ensures Grew(a, a[id := row], 1) && Grew(a, a, 0)
  {}

  /** The sessions of a set that have no task for this event yet. */
  function Unadmitted(rows: map<Uuid, Row>, e: Uuid, targets: set<Uuid>): set<Uuid> {
    set sid | sid in targets && !HasTask(rows, e, sid)
  }

  /** The second table has a task for these sessions and otherwise for the same pairs as the first. */
  ghost predicate AddsAll(rows: map<Uuid, Row>, rows': map<Uuid, Row>, e: Uuid, sessions: set<Uuid>) {
    forall x, y :: HasTask(rows', x, y) <==> HasTask(rows, x, y) || (x == e && y in sessions)
  }

  /** What the shared loop has done so far. */
  ghost predicate AdmitsTargets(before: map<Uuid, Row>, rows: map<Uuid, Row>, e: Uuid, done: set<Uuid>, created: nat) {
    Grew(before, rows, created) && created == |Unadmitted(before, e, done)| && AddsAll(before, rows, e, done)
  }

  lemma NothingUnadmitted(rows: map<Uuid, Row>, e: Uuid, targets: set<Uuid>)
    ensures targets - targets == {} && AdmitsTargets(rows, rows, e, targets - targets, 0)
    ensures Unadmitted(rows, e, targets - targets) == targets - targets
  {
    hide HasTask;
    assert targets - targets == {} && Unadmitted(rows, e, {}) == {};
  }

  lemma AdmittedTargets(before: map<Uuid, Row>, rows: map<Uuid, Row>, e: Uuid, targets: set<Uuid>, created: nat)
    requires AdmitsTargets(before, rows, e, targets, created)
    ensures created == |Unadmitted(before, e, targets)| && Grew(before, rows, created) && AddsAll(before, rows, e, targets)
  {}

  /**
   * The next session has a task exactly when it had one before the loop, and that one is found
   * exactly at the recorded time.
   */
  lemma NotYetAdmitted(events: map<Uuid, Event>, before: map<Uuid, Row>, rows: map<Uuid, Row>, e: Uuid, targets: set<Uuid>, todo: set<Uuid>, sid: Uuid, created: nat, due: int)
    requires Unique(rows) && Canonical(events, before) && e in events && sid in todo && todo <= targets
    requires AdmitsTargets(before, rows, e, targets - todo, created)
    ensures HasTask(rows, e, sid) <==> HasTask(before, e, sid)
    ensures HasTask(rows, e, sid) ==> (Holds(rows, IntentOf(BonusInput(e, sid, due))) <==> due == events[e].occurredAt)
    ensures HasTask(rows, e, sid) ==> Unadmitted(before, e, targets) != targets
  {
    hide Unique, Canonical, HasTask, AddsAll, Grew, Clash;
    assert HasTask(rows, e, sid) <==> HasTask(before, e, sid) by { AddsAllAt(before, rows, e, targets - todo, sid); }
    if HasTask(before, e, sid) {
      assert sid in targets && sid !in Unadmitted(before, e, targets);
      StoredTask(events, before, rows, e, sid, created, due);
    }
  }

  lemma AddsAllAt(before: map<Uuid, Row>, rows: map<Uuid, Row>, e: Uuid, done: set<Uuid>, sid: Uuid)
    requires AddsAll(before, rows, e, done) && sid !in done
    ensures HasTask(rows, e, sid) <==> HasTask(before, e, sid)
  {
    hide HasTask;
  }

  lemma StoredTask(events: map<Uuid, Event>, before: map<Uuid, Row>, rows: map<Uuid, Row>, e: Uuid, sid: Uuid, n: nat, due: int)
    requires Unique(rows) && Canonical(events, before) && e in events && HasTask(before, e, sid) && Grew(before, rows, n)
    ensures Holds(rows, IntentOf(BonusInput(e, sid, due))) <==> due == events[e].occurredAt
  {
    hide Canonical;
    var i :| i in before && IsTaskOf(before, i, e, sid);
    CanonicalTask(events, before, i, e, sid);
    assert i in rows && rows[i] == before[i];
    if Holds(rows, IntentOf(BonusInput(e, sid, due))) {
      var j :| j in rows && rows[j].intent == IntentOf(BonusInput(e, sid, due));
      assert Clash(rows[i].intent, rows[j].intent);
    }
  }

  lemma OneMoreTarget(before: map<Uuid, Row>, rows: map<Uuid, Row>, rows': map<Uuid, Row>, e: Uuid, targets: set<Uuid>, todo: set<Uuid>, sid: Uuid, created: nat, isNew: bool)
    requires sid in todo && todo <= targets && AdmitsTargets(before, rows, e, targets - todo, created)
    requires isNew == !HasTask(rows, e, sid) && (HasTask(rows, e, sid) <==> HasTask(before, e, sid))
    requires Adds(rows, rows', e, sid) && Grew(rows, rows', if isNew then 1 else 0)
    ensures AdmitsTargets(before, rows', e, targets - (todo - {sid}), if isNew then created + 1 else created)
    ensures isNew && Unadmitted(before, e, targets - todo) == targets - todo ==>
      Unadmitted(before, e, targets - (todo - {sid})) == targets - (todo - {sid})
  {
    hide HasTask, Grew, Unadmitted, Adds, AddsAll;
    var done, more := targets - todo, targets - (todo - {sid});
    assert more == done + {sid};
    AddsAllMore(before, rows, rows', e, done, sid, more);
    UnadmittedMore(before, e, done, sid, more);
    GrewMore(before, created, rows, if isNew then 1 else 0, rows');
  }

  lemma AddsAllMore(before: map<Uuid, Row>, rows: map<Uuid, Row>, rows': map<Uuid, Row>, e: Uuid, done: set<Uuid>, sid: Uuid, more: set<Uuid>)
    requires AddsAll(before, rows, e, done) && Adds(rows, rows', e, sid) && more == done + {sid}
    ensures AddsAll(before, rows', e, more)
  {
    hide HasTask;
  }

  lemma UnadmittedMore(rows: map<Uuid, Row>, e: Uuid, done: set<Uuid>, sid: Uuid, more: set<Uuid>)
    requires sid !in done && more == done + {sid}
    ensures Unadmitted(rows, e, more) == if HasTask(rows, e, sid) then Unadmitted(rows, e, done) else Unadmitted(rows, e, done) + {sid}
    ensures |Unadmitted(rows, e, more)| == |Unadmitted(rows, e, done)| + (if HasTask(rows, e, sid) then 0 else 1)
  {
    hide HasTask;
  }

  /** What is added are the tasks of these sessions, each due when the event occurred. */
  lemma AddedTasks(events: map<Uuid, Event>, before: map<Uuid, Row>, rows: map<Uuid, Row>, e: Uuid, sessions: set<Uuid>)
    requires Canonical(events, before) && Canonical(events, rows) && e in events && AddsAll(before, rows, e, sessions)
    ensures forall x, y, due :: Has(rows, x, y, due) <==> Has(before, x, y, due) || (x == e && y in sessions && due == events[x].occurredAt)
  {
    hide Has, HasTask, Canonical;
    forall x, y, due ensures Has(rows, x, y, due) <==> Has(before, x, y, due) || (x == e && y in sessions && due == events[x].occurredAt) {
      CanonicalHas(events, rows, x, y, due);
      CanonicalHas(events, before, x, y, due);
    }
  }

  lemma MediaReachesRelated(w: World, ev: Event, mediaId: Uuid, before: map<Uuid, Row>, rows: map<Uuid, Row>, e: Uuid)
    requires HandoversHaveSessions(w) && IsMediaEvent(ev, mediaId) && AddsAll(before, rows, e, MediaTargets(w, mediaId))
    ensures forall sid :: Related(w, ev, sid) ==> HasTask(rows, e, sid)
  {
    hide HasTask, MediaTargets, IsMediaEvent, HandoversHaveSessions, RelatedTo;
    MediaPathAgrees(w, ev, mediaId);
  }

  lemma PhotoTargets(w: World, ev: Event, mediaId: Uuid)
    requires HandoversHaveSessions(w)
    ensures ev.kind == MediaProcessed && Says(ev, "mediaObjectId", mediaId) ==> MediaTargets(w, mediaId) == PhotoSessions(w, ev)
  {
    hide HandoversHaveSessions, MediaTargets, EventTargets, PhotoSessions;
    if ev.kind == MediaProcessed && Says(ev, "mediaObjectId", mediaId) {
      SaysIsNames(ev, "mediaObjectId", mediaId);
      PhotosMean(w, ev, mediaId);
    }
  }

  /** The processing of a photo, column by column. */
  predicate Processes(intent: Intent, mediaId: Uuid, receivedAt: int) {
    intent == Intent(MediaProcess, 1, "media." + mediaId, Object(map["mediaObjectId" := mediaId]), receivedAt, None, None)
  }

  lemma MediaRival(rows: map<Uuid, Row>, mediaId: Uuid, receivedAt: int)
    requires exists id :: id in rows && Rivals(rows[id].intent, MediaInput(mediaId, receivedAt)) && !Asks(MediaInput(mediaId, receivedAt), rows[id].intent)
    ensures exists id :: id in rows && rows[id].intent.dedupeKey == "media." + mediaId && !Processes(rows[id].intent, mediaId, receivedAt)
  {
    var id :| id in rows && Rivals(rows[id].intent, MediaInput(mediaId, receivedAt)) && !Asks(MediaInput(mediaId, receivedAt), rows[id].intent);
    assert rows[id].intent.dedupeKey == "media." + mediaId;
  }

  lemma AddsNothing(rows: map<Uuid, Row>, e: Uuid, sid: Uuid)
    requires HasTask(rows, e, sid)
    ensures Adds(rows, rows, e, sid)
  {
    hide HasTask;
  }

  /** Using up a position, with the identifier at it or without. */
  lemma StillUnused(ids: seq<Uuid>, i: nat, used: set<Uuid>, more: set<Uuid>)
    requires Unused(ids, i, used) && i < |ids| && (more == used + {ids[i]} || more == used)
    ensures Unused(ids, i + 1, more)
  {}

  /** The markers a pass writes: of the selected orphans those whose marker key is free. */
  function Marked(events: map<Uuid, Event>, selected: set<SortKey>): set<SortKey> {
    set k | k in selected && !MarkerTaken(events, k.id)
  }

  lemma TakeLeast(keys: set<SortKey>)
    requires keys != {}
    ensures Least(keys) in keys && |keys| == |keys - {Least(keys)}| + 1
  {}

  /** Progress through a set: what is done and what is left. */
  predicate Splits(all: set<SortKey>, todo: set<SortKey>, done: set<SortKey>) {
    todo <= all && done == all - todo
  }

  lemma SplitsAll(all: set<SortKey>)
    ensures Splits(all, all, {})
  {}

  lemma SplitsMore(all: set<SortKey>, todo: set<SortKey>, done: set<SortKey>, k: SortKey)
    requires Splits(all, todo, done) && k in todo
    ensures k in all && k !in done && Splits(all, todo - {k}, done + {k}) && |done| < |all|
  {
    assert done + {k} == all - (todo - {k});
    SizeOfPart(done + {k}, all);
    SizeAdd(done, k);
  }

  lemma SplitsNone(all: set<SortKey>, done: set<SortKey>)
    requires Splits(all, {}, done)
    ensures done == all
  {}

  lemma SizeAdd(keys: set<SortKey>, k: SortKey)
    requires k !in keys
    ensures |keys + {k}| == |keys| + 1
  {
  }

  class BonusStore {
    const world: World
    var events: map<Uuid, Event>
    var tasks: map<Uuid, Row>
    var audit: seq<AuditRecord>

    ghost predicate Valid()
      reads this
    {
      Unique(tasks) && Canonical(events, tasks)
    }

    lemma ValidIs()
      ensures Valid() <==> Unique(tasks) && Canonical(events, tasks)
      ensures Valid() ==> Keyed(tasks)
    {
      if Canonical(events, tasks) { CanonicalIsKeyed(events, tasks); }
    }

    constructor (w: World, events: map<Uuid, Event>, tasks: map<Uuid, Row>)
      requires Unique(tasks) && Canonical(events, tasks)
      ensures Valid() && this.world == w && this.events == events && this.tasks == tasks && audit == []
    {
      this.world, this.events, this.tasks, this.audit := w, events, tasks, [];
    }

    /** The enqueue of an intent in the caller's transaction. */
    method Insert(input: TaskInput, newId: Uuid) returns (r: Result<Admission, EnqueueError>)
      requires Unique(tasks)
      modifies this`tasks
      ensures r == Admit(old(tasks), input, newId)
      ensures tasks == if Creates(old(tasks), input) then Plus(old(tasks), input, newId) else old(tasks)
    {
      r := Admit(tasks, input, newId);
      if r.Success? && r.value.created {
        tasks := tasks[newId := NewRow(IntentOf(input))];
      }
    }

    /** Admits the processing of a photo: it ends with exactly this task, or another one holds its key. */
    method EnqueueMediaProcessing(mediaId: Uuid, receivedAt: int, newId: Uuid) returns (r: Result<Admission, EnqueueError>)
      requires Valid() && newId !in tasks
      modifies this`tasks
      ensures Valid()
      ensures r.Success? ==> r.value.id in tasks && Processes(tasks[r.value.id].intent, mediaId, receivedAt)
      ensures r.Success? ==> r.value.created == (r.value.id !in old(tasks))
      ensures r.Success? ==> tasks == if r.value.created
                then old(tasks)[newId := Row(tasks[r.value.id].intent, receivedAt, Pending, 0, None, None, None, None)] else old(tasks)
      ensures r.Success? && r.value.created ==> (
        r.value.id == newId && forall now :: Waits(now, tasks, map[], [MediaProcess], newId) <==> now >= receivedAt)
      ensures r.Failure? ==> r.error.IntentConflict? && tasks == old(tasks)
      ensures r.Failure? ==> exists id :: id in tasks && tasks[id].intent.dedupeKey == "media." + mediaId && !Processes(tasks[id].intent, mediaId, receivedAt)
      ensures forall e, sid :: HasTask(tasks, e, sid) <==> HasTask(old(tasks), e, sid)
    {
      hide HasTask, Unique, KeyedIntent;
      var input := MediaInput(mediaId, receivedAt);
      ghost var rows := tasks;
      MediaIsCanonical(events, mediaId, receivedAt);
      InputsAreValid(mediaId, mediaId, receivedAt);
      AdmissionMeans(rows, input, newId);
      GrewByOne(rows, newId, NewRow(IntentOf(input)));
      if Creates(rows, input) {
        PlusUnique(rows, input, newId);
        PlusIntent(rows, input, newId);
        forall e, sid { PlusHasTask(rows, input, newId, e, sid); }
      }
      r := Insert(input, newId);
      if r.Failure? {
        MediaRival(rows, mediaId, receivedAt);
      }
    }

    /** One recalculation per source event and target session, whatever time the caller passes. */
    method EnqueueBonusRecalculation(e: Uuid, sid: Uuid, dueAt: int, newId: Uuid) returns (r: Result<Admission, EnqueueError>)
      requires Unique(tasks) && Keyed(tasks) && newId !in tasks && e in events
      modifies this`tasks
      ensures Unique(tasks) && Keyed(tasks)
      ensures old(Valid()) && dueAt == events[e].occurredAt ==> Valid() && r.Success?
      ensures r.Success? <==> !HasTask(old(tasks), e, sid) || Holds(old(tasks), IntentOf(BonusInput(e, sid, dueAt)))
      ensures r.Failure? ==> r.error.IntentConflict? && tasks == old(tasks)
      ensures r.Success? ==> r.value.created == !HasTask(old(tasks), e, sid) && Adds(old(tasks), tasks, e, sid)
      ensures r.Success? ==> tasks == if r.value.created
                then old(tasks)[newId := Row(Intent(BonusRecalculate, 1, "bonus:" + e + ":" + sid, Object(map["sessionId" := sid]), dueAt, Some(e), Some(sid)),
                                             dueAt, Pending, 0, None, None, None, None)]
                else old(tasks)
      ensures r.Success? ==> tasks.Keys == if r.value.created then old(tasks).Keys + {newId} else old(tasks).Keys
      ensures r.Success? ==> Grew(old(tasks), tasks, if r.value.created then 1 else 0)
    {
      hide HasTask, Unique, Canonical, Keyed, Holds, Taken, Grew;
      ghost var rows := tasks;
      AdmitPairAt(rows, e, sid, dueAt, newId);
      GrewByOne(rows, newId, NewRow(IntentOf(BonusInput(e, sid, dueAt))));
      if Canonical(events, rows) && dueAt == events[e].occurredAt { AdmitPair(events, rows, e, sid, newId); }
      if !HasTask(rows, e, sid) { AdmittedPair(events, rows, e, sid, dueAt, newId); } else { AddsNothing(rows, e, sid); }
      r := Insert(BonusInput(e, sid, dueAt), newId);
    }

    /** Live admission: every session the stored event relates to, counted whether new or not. */
    method EnqueueEventBonusRecalculations(eventId: Uuid, ids: seq<Uuid>) returns (count: nat)
      requires Valid() && Unused(ids, 0, tasks.Keys)
      requires eventId in events ==> |EventTargets(world, events[eventId])| <= |ids|
      modifies this`tasks
      ensures Valid()
      ensures count == if eventId in events then |EventTargets(world, events[eventId])| else 0
      ensures eventId !in events ==> tasks == old(tasks)
      ensures eventId in events ==> (
        var targets := EventTargets(world, events[eventId]);
        AddsAll(old(tasks), tasks, eventId, targets) && Grew(old(tasks), tasks, |Unadmitted(old(tasks), eventId, targets)|))
      ensures eventId in events ==> count == |SourceSessions(world, events[eventId])|
      ensures forall e, sid, due :: Has(tasks, e, sid, due) <==> (
        || Has(old(tasks), e, sid, due)
        || (e == eventId && e in events && sid in SourceSessions(world, events[e]) && due == events[e].occurredAt))
    {
      hide *;
      count := 0;
      if eventId !in events {
        return;
      }
      SourcesMean(world, events[eventId]);
      var conflict;
      ghost var created: nat;
      ghost var before := tasks;
      ValidIs();
      conflict, count, created := AdmitTargets(eventId, events[eventId].occurredAt, EventTargets(world, events[eventId]), ids);
      ValidIs();
      AddedTasks(events, before, tasks, eventId, EventTargets(world, events[eventId]));
    }

    /**
     * The loop both live paths share: one enqueue per target, in whatever order the query returns.
     * A conflict is thrown, so the rest of the targets are not reached.
     */
    method AdmitTargets(eventId: Uuid, dueAt: int, targets: set<Uuid>, ids: seq<Uuid>) returns (conflict: bool, count: nat, created: nat)
      requires Valid() && Unused(ids, 0, tasks.Keys) && eventId in events && |targets| <= |ids|
      modifies this`tasks
      ensures conflict <==> dueAt != events[eventId].occurredAt && Unadmitted(old(tasks), eventId, targets) != targets
      ensures dueAt == events[eventId].occurredAt ==> Valid()
      ensures !conflict ==> count == |targets| && created == |Unadmitted(old(tasks), eventId, targets)| && Grew(old(tasks), tasks, created)
      ensures !conflict ==> AddsAll(old(tasks), tasks, eventId, targets)
    {
      hide *;
      conflict, count, created := false, 0, 0;
      var todo := targets;
      ghost var before := tasks;
      ValidIs();
      NothingUnadmitted(before, eventId, targets);
      while todo != {}
        invariant Unique(tasks) && Keyed(tasks) && (dueAt == events[eventId].occurredAt ==> Valid())
        invariant todo <= targets && count == |targets| - |todo| && Unused(ids, count, tasks.Keys)
        invariant AdmitsTargets(before, tasks, eventId, targets - todo, created)
        invariant dueAt != events[eventId].occurredAt ==> Unadmitted(before, eventId, targets - todo) == targets - todo
        decreases |todo|
      {
        var sid :| sid in todo;
        ghost var rows := tasks;
        UnusedAt(ids, count, tasks.Keys);
        NotYetAdmitted(events, before, rows, eventId, targets, todo, sid, created, dueAt);
        var r := EnqueueBonusRecalculation(eventId, sid, dueAt, ids[count]);
        if r.Failure? {
          return true, count, created;
        }
        OneMoreTarget(before, rows, tasks, eventId, targets, todo, sid, created, r.value.created);
        StillUnused(ids, count, rows.Keys, tasks.Keys);
        todo := todo - {sid};
        count := count + 1;
        if r.value.created {
          created := created + 1;
        }
      }
      assert targets - todo == targets;
      AdmittedTargets(before, tasks, eventId, targets, created);
    }

    /**
     * The media path: its own query for the sessions, counting only the tasks it created. For the
     * stored event of the object that is every session the event relates to.
     */
    method EnqueueMediaBonusRecalculations(mediaId: Uuid, eventId: Uuid, occurredAt: int, ids: seq<Uuid>) returns (r: Result<nat, EnqueueError>)
      requires Valid() && Unused(ids, 0, tasks.Keys) && eventId in events && |MediaTargets(world, mediaId)| <= |ids|
      modifies this`tasks
      ensures r.Failure? <==> (
        occurredAt != events[eventId].occurredAt && Unadmitted(old(tasks), eventId, MediaTargets(world, mediaId)) != MediaTargets(world, mediaId))
      ensures occurredAt == events[eventId].occurredAt ==> Valid()
      ensures r.Success? ==> r.value == |Unadmitted(old(tasks), eventId, MediaTargets(world, mediaId))| && Grew(old(tasks), tasks, r.value)
      ensures r.Success? ==> AddsAll(old(tasks), tasks, eventId, MediaTargets(world, mediaId))
      ensures r.Success? && HandoversHaveSessions(world) && IsMediaEvent(events[eventId], mediaId) ==>
        forall sid :: Related(world, events[eventId], sid) ==> HasTask(tasks, eventId, sid)
      ensures occurredAt == events[eventId].occurredAt && HandoversHaveSessions(world) ==>
        (events[eventId].kind == MediaProcessed && Says(events[eventId], "mediaObjectId", mediaId) ==>
          r.Success? && forall e, sid, due :: Has(tasks, e, sid, due) <==> (
            || Has(old(tasks), e, sid, due)
            || (e == eventId && sid in PhotoSessions(world, events[e]) && due == occurredAt)))
    {
      hide *;
      ghost var before := tasks;
      ValidIs();
      var conflict, count, created := AdmitTargets(eventId, occurredAt, MediaTargets(world, mediaId), ids);
      if conflict {
        return Failure(IntentConflict);
      }
      if HandoversHaveSessions(world) && IsMediaEvent(events[eventId], mediaId) {
        MediaReachesRelated(world, events[eventId], mediaId, old(tasks), tasks, eventId);
      }
      if occurredAt == events[eventId].occurredAt {
        ValidIs();
        AddedTasks(events, before, tasks, eventId, MediaTargets(world, mediaId));
        if HandoversHaveSessions(world) { PhotoTargets(world, events[eventId], mediaId); }
      }
      r := Success(created);
    }

    /**
     * The bounded anti-join: missing pairs by arrival, event and session. A missing pair is returned
     * exactly when fewer than limit missing pairs sort before it.
     */
    method PendingBonusSourceTargets(limit: int) returns (r: Result<set<SortKey>, RecoveryError>)
      ensures r == Failure(InvalidLimit) <==> limit < 1 || limit > 100
      ensures r.Success? ==> (
        var waiting := Backlog(world, events, tasks);
        && 1 <= limit <= 100 && r.value <= waiting && |r.value| == Min(limit, |waiting|)
        && forall k :: k in waiting ==> (k in r.value <==> |Earlier(waiting, k)| < limit))
    {
      hide Missing, First, Earlier, Backlog;
      MissingIsBacklog(world, events, tasks);
      if !Bounded(limit, MAX_RECOVERY) {
        return Failure(InvalidLimit);
      }
      ghost var missing := Missing(world, events, tasks);
      FirstIsPart(missing, limit);
      FirstSize(missing, limit);
      forall k | k in missing ensures k in First(missing, limit) <==> |Earlier(missing, k)| < limit { FirstIsRankBelow(missing, limit, k); }
      return Success(First(Missing(world, events, tasks), limit));
    }

    /** First loop of the pass: admits the pending pairs, counting the tasks created. */
    method AdmitPending(pending: set<SortKey>, ids: seq<Uuid>) returns (admitted: nat)
      requires Valid() && pending <= Missing(world, events, tasks)
      requires Unused(ids, 0, tasks.Keys) && |pending| <= |ids|
      modifies this`tasks
      ensures Valid() && admitted == |pending| && Unused(ids, admitted, tasks.Keys)
      ensures Admits(Stock(world, events, old(tasks)), tasks, pending) && AddsKeys(old(tasks), tasks, pending)
    {
      hide *;
      admitted := 0;
      var todo := pending;
      ghost var s := Stock(world, events, tasks);
      ghost var done: set<SortKey> := {};
      AdmitsNothing(s);
      AddsNoKeys(tasks);
      SplitsAll(pending);
      while todo != {}
        invariant Valid() && Splits(pending, todo, done) && admitted == |done| && Admits(s, tasks, done)
        invariant Unused(ids, admitted, tasks.Keys) && AddsKeys(s.tasks, tasks, done)
        decreases |todo|
      {
        var k := Least(todo);
        TakeLeast(todo);
        SplitsMore(pending, todo, done, k);
        StillMissing(s, tasks, done, k);
        UnusedAt(ids, admitted, tasks.Keys);
        ValidIs();
        ghost var rows := tasks;
        var r := EnqueueBonusRecalculation(k.id, k.sub, events[k.id].occurredAt, ids[admitted]);
        AdmitsMore(s, rows, done, k, tasks, done + {k});
        AddsMoreKeys(s.tasks, rows, done, k, tasks);
        NextUnused(ids, admitted, rows.Keys, tasks.Keys);
        if r.value.created {
          admitted := admitted + 1;
        }
        done := done + {k};
        todo := todo - {k};
      }
      SplitsNone(pending, done);
    }

    /** One marker: a stable audited source for a session that has none, admitted with its task. */
    method AddMarker(k: SortKey, eid: Uuid, taskId: Uuid, clock: int, received: int) returns (created: bool)
      requires Valid() && k in Orphans(world, events) && !MarkerTaken(events, k.id) && eid !in events && taskId !in tasks
      modifies this
      ensures Valid() && created
      ensures |k.id| == 36 && events == old(events)[eid := Marker(k.id, clock, received)]
      ensures tasks.Keys == old(tasks).Keys + {taskId}
      ensures audit == old(audit) + [AuditRecord(k.id, eid, clock)]
      ensures Adds(old(tasks), tasks, eid, k.id)
      ensures Marks(Stock(world, old(events), old(tasks)), Stock(world, events, tasks), {k})
    {
      hide *;
      ValidIs();
      OrphanKey(world, events, k);
      var sid: Uuid := k.id;
      var marker := Marker(sid, clock, received);
      MarkerFields(sid, clock, received);
      ghost var events0, rows0 := events, tasks;
      NewEventIsUnadmitted(events, tasks, eid, marker);
      events := events[eid := marker];
      audit := audit + [AuditRecord(k.id, eid, clock)];
      ValidIs();
      var r := EnqueueBonusRecalculation(eid, sid, clock, taskId);
      assert r.value.created;
      MarkerAdmitted(world, events0, rows0, tasks, eid, k, clock, received);
      created := true;
    }

    /** Second loop of the pass: skips a session whose marker key is already in the event log. */
    method AddMarkers(selected: set<SortKey>, eventIds: seq<Uuid>, ids: seq<Uuid>, first: nat, clocks: seq<int>, received: int) returns (markers: nat)
      requires Valid() && selected <= Orphans(world, events)
      requires Unused(eventIds, 0, events.Keys) && Unused(ids, first, tasks.Keys)
      requires |selected| <= |eventIds| && first + |selected| <= |ids| && |selected| <= |clocks|
      modifies this
      ensures Valid() && markers == |Marked(old(events), selected)|
      ensures Marks(Stock(world, old(events), old(tasks)), Stock(world, events, tasks), Marked(old(events), selected))
      ensures |audit| == |old(audit)| + markers && NewAreAudited(old(events), events, audit, |old(audit)|, clocks, received)
      ensures Wrote(old(events), events, Marked(old(events), selected), clocks, received)
      ensures AddsMarkers(old(tasks), tasks, old(events), events)
    {
      hide *;
      markers := 0;
      NothingToAudit(events, audit, clocks, received);
      var todo, next, turn := selected, first, 0;
      ghost var s := Stock(world, events, tasks);
      ghost var made: set<SortKey> := {};
      NothingMarked(s, selected);
      NothingWritten(events, tasks, clocks, received);
      while todo != {}
        invariant Valid() && todo <= selected && next == first + markers && turn + |todo| == |selected| && |audit| == |old(audit)| + markers
        invariant made == Marked(s.events, selected - todo) && markers == |made| && markers + |todo| <= |selected|
        invariant Unused(eventIds, markers, events.Keys) && Unused(ids, next, tasks.Keys)
        invariant Marks(s, Stock(world, events, tasks), made)
        invariant NewAreAudited(s.events, events, audit, |old(audit)|, clocks, received)
        invariant Wrote(s.events, events, made, clocks, received) && AddsMarkers(s.tasks, tasks, s.events, events)
        decreases |todo|
      {
        var k := Least(todo);
        TakeLeast(todo);
        ghost var t := Stock(world, events, tasks);
        OneMoreMarked(s, t, selected, todo, k);
        if !MarkerTaken(events, k.id) {
          UnusedAt(eventIds, markers, events.Keys);
          UnusedAt(ids, next, tasks.Keys);
          OneMoreAudited(s.events, events, audit, |old(audit)|, eventIds[markers], k.id, clocks, turn, received);
          var created := AddMarker(k, eventIds[markers], ids[next], clocks[turn], received);
          MarksMore(s, made, t, k, Stock(world, events, tasks), made + {k});
          MarksKeeps(s, t, made);
          WroteMore(s.events, t.events, made, k, eventIds[markers], clocks, turn, received);
          AddsMoreMarkers(s.tasks, t.tasks, tasks, s.events, t.events, k, eventIds[markers], clocks[turn], received);
          NextUnused(eventIds, markers, t.events.Keys, events.Keys);
          NextUnused(ids, next, t.tasks.Keys, tasks.Keys);
          made := made + {k};
          markers, next := markers + 1, next + 1;
        }
        todo := todo - {k};
        turn := turn + 1;
      }
      assert selected - todo == selected;
    }

    /**
     * One repair pass: first missing pairs, then, with what is left of the limit, markers for
     * terminal unscored sessions that have no source at all.
     */
    method RecoverBonusTasks(limit: int, eventIds: seq<Uuid>, ids: seq<Uuid>, clocks: seq<int>, received: int) returns (r: Result<Recovery, RecoveryError>)
      requires Valid() && Unused(eventIds, 0, events.Keys) && Unused(ids, 0, tasks.Keys)
      requires 100 <= |eventIds| && 100 <= |ids| && 100 <= |clocks|
      modifies this
      ensures Valid()
      ensures r == Failure(InvalidLimit) <==> limit < 1 || limit > 100
      ensures r.Failure? ==> events == old(events) && tasks == old(tasks) && audit == old(audit)
      ensures r.Success? ==> 0 <= limit && Passed(Stock(world, old(events), old(tasks)), Stock(world, events, tasks), limit)
      ensures r.Success? ==> r.value == UnitsOf(Stock(world, old(events), old(tasks)), limit) && |audit| == |old(audit)| + r.value.markers
      ensures r.Success? ==> NewAreAudited(old(events), events, audit, |old(audit)|, clocks, received)
      ensures r.Success? ==> Repaired(Stock(world, old(events), old(tasks)), Stock(world, events, tasks), limit, clocks, received)
      ensures r.Success? ==> r.value.markers == |events| - |old(events)| && r.value.admitted == |tasks| - |old(tasks)|
    {
      hide *;
      var found := PendingBonusSourceTargets(limit);
      if found.Failure? {
        return Failure(found.error);
      }
      var pending := found.value;
      ValidIs();
      MissingIsBacklog(world, events, tasks);
      PickedByRank(Missing(world, events, tasks), limit, pending);
      FirstIsPart(Missing(world, events, tasks), limit);
      ghost var s := Stock(world, events, tasks);
      FirstSize(Missing(world, events, tasks), limit);
      var admitted := AdmitPending(pending, ids);
      var remaining := limit - |pending|;
      FirstSize(Orphans(world, events), remaining);
      FirstIsPart(Orphans(world, events), remaining);
      var selected := First(Orphans(world, events), remaining);
      ghost var tasks1 := tasks;
      Selections(s, limit);
      ValidIs();
      if remaining == 0 {
        NoRoom(s, tasks1, limit);
        NothingToAudit(events, audit, clocks, received);
        NothingWritten(events, tasks, clocks, received);
        Repairs(s, tasks1, Stock(world, events, tasks), limit, clocks, received);
        PassGrows(s, Stock(world, events, tasks), limit);
        return Success(Recovery(admitted, 0));
      }
      var markers := AddMarkers(selected, eventIds, ids, admitted, clocks, received);
      BothLoops(s, tasks1, Stock(world, events, tasks), limit);
      ValidIs();
      Repairs(s, tasks1, Stock(world, events, tasks), limit, clocks, received);
      PassGrows(s, Stock(world, events, tasks), limit);
      r := Success(Recovery(admitted + markers, markers));
    }
  }

  /** The tables a pass works on. */
  datatype Stock = Stock(world: World, events: map<Uuid, Event>, tasks: map<Uuid, Row>)

  function PendingOf(s: Stock, limit: nat): set<SortKey> {
    First(Missing(s.world, s.events, s.tasks), limit)
  }

  function SelectedBy(s: Stock, limit: nat): set<SortKey> {
    First(Orphans(s.world, s.events), Max(0, limit - |PendingOf(s, limit)|))
  }

  function MarkedBy(s: Stock, limit: nat): set<SortKey> {
    Marked(s.events, SelectedBy(s, limit))
  }

  /** The counters a pass reports: a marker is also an admission. */
  function UnitsOf(s: Stock, limit: nat): Recovery {
    Recovery(|PendingOf(s, limit)| + |MarkedBy(s, limit)|, |MarkedBy(s, limit)|)
  }

  /** What a pass does: it admits the first missing pairs and marks the first markable orphans. */
  ghost predicate Passed(s: Stock, t: Stock, limit: nat) {
    && t.world == s.world
    && Grew(s.events, t.events, |MarkedBy(s, limit)|)
    && Grew(s.tasks, t.tasks, |PendingOf(s, limit)| + |MarkedBy(s, limit)|)
    && Missing(t.world, t.events, t.tasks) == Missing(s.world, s.events, s.tasks) - PendingOf(s, limit)
    && Orphans(t.world, t.events) == Orphans(s.world, s.events) - MarkedBy(s, limit)
    && Takes(s.events, t.events, MarkedBy(s, limit)) && NewOwnKeys(s.events, t.events)
  }

  /** A new event holds no other session's marker key. */
  ghost predicate NewOwnKeys(before: map<Uuid, Event>, after: map<Uuid, Event>) {
    forall e :: e in after && e !in before ==> OwnKey(after[e])
  }

  lemma NoNewKeys(events: map<Uuid, Event>)
    ensures NewOwnKeys(events, events)
  {}

  lemma MoreOwnKeys(before: map<Uuid, Event>, mid: map<Uuid, Event>, n: nat, after: map<Uuid, Event>)
    requires NewOwnKeys(before, mid) && NewOwnKeys(mid, after) && Grew(mid, after, n)
    ensures NewOwnKeys(before, after)
  {
    hide OwnKey;
  }

  lemma MarkerIsOwn(events: map<Uuid, Event>, eid: Uuid, sid: Uuid, at: int, received: int)
    ensures NewOwnKeys(events, events[eid := Marker(sid, at, received)])
  {
    hide OwnKey, Marker;
    MarkerOwnsKey(sid, at, received);
  }

  /** A limit used up by the first loop leaves the event log alone. */
  lemma NoRoom(s: Stock, tasks: map<Uuid, Row>, limit: nat)
    requires limit == |PendingOf(s, limit)| && Admits(s, tasks, PendingOf(s, limit))
    ensures Passed(s, Stock(s.world, s.events, tasks), limit) && UnitsOf(s, limit) == Recovery(limit, 0) && MarkedBy(s, limit) == {}
  {
    hide Missing, Orphans, HasTask, MarkerTaken, Grew;
    assert SelectedBy(s, limit) == {} && MarkedBy(s, limit) == {};
    TakesNothing(s.events);
    NoNewKeys(s.events);
    GrewNothing(s.events);
    assert Orphans(s.world, s.events) - {} == Orphans(s.world, s.events);
  }

  lemma Selections(s: Stock, limit: nat)
    ensures PendingOf(s, limit) == First(Missing(s.world, s.events, s.tasks), limit)
    ensures |PendingOf(s, limit)| <= limit ==>
      MarkedBy(s, limit) == Marked(s.events, First(Orphans(s.world, s.events), limit - |PendingOf(s, limit)|))
  {
    hide Missing, Orphans, First, Marked;
  }

  lemma BothLoops(s: Stock, tasks: map<Uuid, Row>, t: Stock, limit: nat)
    requires |PendingOf(s, limit)| <= limit && Admits(s, tasks, PendingOf(s, limit))
    requires Marks(Stock(s.world, s.events, tasks), t, MarkedBy(s, limit))
    ensures Passed(s, t, limit)
    ensures UnitsOf(s, limit) == Recovery(|PendingOf(s, limit)| + |MarkedBy(s, limit)|, |MarkedBy(s, limit)|)
  {
    hide Missing, Orphans, Grew, Takes, PendingOf, MarkedBy;
    GrewMore(s.tasks, |PendingOf(s, limit)|, tasks, |MarkedBy(s, limit)|, t.tasks);
  }

  // ---------------------------------------------------------------- what a pass leaves

  predicate NamesPair(keys: set<SortKey>, x: Uuid, y: Uuid) {
    exists k :: k in keys && k.id == x && k.sub == y
  }

  /** The second table has a task for the pairs of these keys and otherwise for the same pairs as the first. */
  ghost predicate AddsKeys(before: map<Uuid, Row>, rows: map<Uuid, Row>, keys: set<SortKey>) {
    forall x, y :: HasTask(rows, x, y) <==> HasTask(before, x, y) || NamesPair(keys, x, y)
  }

  lemma AddsNoKeys(rows: map<Uuid, Row>)
    ensures AddsKeys(rows, rows, {})
  {
    hide HasTask;
  }

  lemma AddsMoreKeys(before: map<Uuid, Row>, rows: map<Uuid, Row>, done: set<SortKey>, k: SortKey, rows': map<Uuid, Row>)
    requires AddsKeys(before, rows, done) && |k.id| == 36 && Adds(rows, rows', k.id, k.sub)
    ensures AddsKeys(before, rows', done + {k})
  {
    hide HasTask;
    forall x, y ensures NamesPair(done + {k}, x, y) <==> NamesPair(done, x, y) || (x == k.id && y == k.sub) {
      if NamesPair(done, x, y) {
        var j :| j in done && j.id == x && j.sub == y;
        assert j in done + {k};
      }
      assert k in done + {k};
    }
  }

  /** A new event that is this session's marker, at a clock reading of the pass. */
  predicate IsNewMarker(before: map<Uuid, Event>, after: map<Uuid, Event>, e: Uuid, sid: string, clocks: seq<int>, received: int) {
    e in after && e !in before && |sid| == 36 && IsMarker(after[e], sid) && after[e].occurredAt in clocks && after[e].receivedAt == received
  }

  ghost predicate Marked1(before: map<Uuid, Event>, after: map<Uuid, Event>, sid: string, clocks: seq<int>, received: int) {
    exists e :: IsNewMarker(before, after, e, sid, clocks, received)
  }

  predicate MarksOne(before: map<Uuid, Event>, after: map<Uuid, Event>, e: Uuid, made: set<SortKey>, clocks: seq<int>, received: int) {
    exists k :: k in made && IsNewMarker(before, after, e, k.id, clocks, received)
  }

  /** No two new events name the same session. */
  predicate OneEach(before: map<Uuid, Event>, after: map<Uuid, Event>) {
    forall e, f :: e in after && f in after && e !in before && f !in before && e != f ==> SessionOf(after, e) != SessionOf(after, f)
  }

  function SessionOf(events: map<Uuid, Event>, e: Uuid): Option<Uuid>
    requires e in events
  {
    events[e].sessionId
  }

  /** The new events are markers of these sessions, one each. */
  ghost predicate Wrote(before: map<Uuid, Event>, after: map<Uuid, Event>, made: set<SortKey>, clocks: seq<int>, received: int) {
    && (forall e :: e in after && e !in before ==> MarksOne(before, after, e, made, clocks, received))
    && (forall k :: k in made ==> Marked1(before, after, k.id, clocks, received))
    && OneEach(before, after)
  }

  /** The second table also has a task for each new event and the session it names. */
  ghost predicate AddsMarkers(before: map<Uuid, Row>, rows: map<Uuid, Row>, events: map<Uuid, Event>, after: map<Uuid, Event>) {
    forall x, y :: HasTask(rows, x, y) <==> HasTask(before, x, y) || (x in after && x !in events && after[x].sessionId == Some(y))
  }

  lemma NothingWritten(events: map<Uuid, Event>, rows: map<Uuid, Row>, clocks: seq<int>, received: int)
    ensures Wrote(events, events, {}, clocks, received) && AddsMarkers(rows, rows, events, events)
  {
    hide HasTask;
  }

  lemma MarksKeeps(s: Stock, t: Stock, made: set<SortKey>)
    requires Marks(s, t, made)
    ensures s.events.Keys <= t.events.Keys
  {
    hide Missing, Orphans, Takes, NewOwnKeys;
  }

  lemma StillNewMarker(before: map<Uuid, Event>, events: map<Uuid, Event>, after: map<Uuid, Event>, e: Uuid, sid: string, clocks: seq<int>, received: int)
    requires IsNewMarker(before, events, e, sid, clocks, received) && e in after && after[e] == events[e]
    ensures IsNewMarker(before, after, e, sid, clocks, received) && SessionOf(events, e) == SessionOf(after, e)
    ensures |sid| == 36 && SessionOf(after, e) == Some(sid)
  {}

  lemma NewMarker(before: map<Uuid, Event>, events: map<Uuid, Event>, eid: Uuid, sid: Uuid, clocks: seq<int>, turn: nat, received: int)
    requires eid !in before && turn < |clocks|
    ensures IsNewMarker(before, events[eid := Marker(sid, clocks[turn], received)], eid, sid, clocks, received)
    ensures SessionOf(events[eid := Marker(sid, clocks[turn], received)], eid) == Some(sid)
  {
    MarkerMeans(sid, clocks[turn], received);
  }

  lemma WroteMore(before: map<Uuid, Event>, events: map<Uuid, Event>, made: set<SortKey>, k: SortKey, eid: Uuid, clocks: seq<int>, turn: nat, received: int)
    requires Wrote(before, events, made, clocks, received) && (forall x :: x in made ==> x.id != k.id)
    requires |k.id| == 36 && eid !in events && eid !in before && turn < |clocks|
    ensures Wrote(before, events[eid := Marker(k.id, clocks[turn], received)], made + {k}, clocks, received)
  {
    hide Marker, IsNewMarker, SessionOf;
    var after := events[eid := Marker(k.id, clocks[turn], received)];
    NewMarker(before, events, eid, k.id, clocks, turn, received);
    assert k in made + {k};
    forall x | x in made ensures Marked1(before, after, x.id, clocks, received) {
      var e :| IsNewMarker(before, events, e, x.id, clocks, received);
      OldMarker(before, events, eid, e, x.id, clocks, received);
      StillNewMarker(before, events, after, e, x.id, clocks, received);
    }
    forall e | e in events && e !in before
      ensures MarksOne(before, after, e, made + {k}, clocks, received) && SessionOf(after, e) == SessionOf(events, e) && SessionOf(after, e) != Some(k.id)
    {
      assert MarksOne(before, events, e, made, clocks, received);
      var x :| x in made && IsNewMarker(before, events, e, x.id, clocks, received);
      StillNewMarker(before, events, after, e, x.id, clocks, received);
      assert x in made + {k};
    }
  }

  lemma OldMarker(before: map<Uuid, Event>, events: map<Uuid, Event>, eid: Uuid, e: Uuid, sid: string, clocks: seq<int>, received: int)
    requires IsNewMarker(before, events, e, sid, clocks, received) && eid !in events
    ensures e in events && e !in before && e != eid
  {}

  lemma AddsMoreMarkers(before: map<Uuid, Row>, rows: map<Uuid, Row>, rows': map<Uuid, Row>, log: map<Uuid, Event>, events: map<Uuid, Event>, k: SortKey, eid: Uuid, at: int, received: int)
    requires AddsMarkers(before, rows, log, events) && |k.id| == 36 && Adds(rows, rows', eid, k.id) && eid !in events && eid !in log
    ensures AddsMarkers(before, rows', log, events[eid := Marker(k.id, at, received)])
  {
    hide HasTask;
  }

  /** A marker that a pass over these tables may write: of a session in its turn whose key is free. */
  predicate Due(s: Stock, k: SortKey, limit: nat) {
    InTurn(Unscored(s.world, s.events), k, limit - Min(limit, |Backlog(s.world, s.events, s.tasks)|)) && KeyFree(s.events, k.id)
  }

  ghost predicate MarksDue(s: Stock, t: Stock, e: Uuid, limit: nat, clocks: seq<int>, received: int) {
    exists k :: Due(s, k, limit) && IsNewMarker(s.events, t.events, e, k.id, clocks, received)
  }

  /** The task of a waiting pair that is in its turn. */
  predicate AdmittedInTurn(s: Stock, limit: nat, e: Uuid, sid: Uuid, due: int) {
    && e in s.events && due == s.events[e].occurredAt
    && InTurn(Backlog(s.world, s.events, s.tasks), SortKey(s.events[e].receivedAt, e, sid), limit)
  }

  /** The task of a new event and the session it names. */
  predicate AdmittedWithMarker(s: Stock, t: Stock, e: Uuid, sid: Uuid, due: int) {
    e in t.events && e !in s.events && SessionOf(t.events, e) == Some(sid) && due == t.events[e].occurredAt
  }

  /**
   * What a pass does, by columns: it keeps every event; its new events are markers, one for each
   * unscored finished session without a source that is in its turn and whose key is free; and its
   * new tasks are those of the waiting pairs in their turn and of its own markers.
   */
  ghost predicate Repaired(s: Stock, t: Stock, limit: nat, clocks: seq<int>, received: int) {
    && (forall e :: e in s.events ==> e in t.events && t.events[e] == s.events[e])
    && (forall e :: e in t.events && e !in s.events ==> MarksDue(s, t, e, limit, clocks, received))
    && (forall k :: Due(s, k, limit) ==> Marked1(s.events, t.events, k.id, clocks, received))
    && OneEach(s.events, t.events)
    && forall e, sid, due :: Has(t.tasks, e, sid, due) <==>
         Has(s.tasks, e, sid, due) || AdmittedInTurn(s, limit, e, sid, due) || AdmittedWithMarker(s, t, e, sid, due)
  }

  lemma DueIsMarked(s: Stock, k: SortKey, limit: nat)
    ensures k in MarkedBy(s, limit) <==> Due(s, k, limit)
  {
    hide Missing, Orphans, Backlog, Unscored, First, KeyFree, MarkerTaken, Earlier;
    MissingIsBacklog(s.world, s.events, s.tasks);
    OrphansAreUnscored(s.world, s.events);
    KeyFreeMeans(s.events, k.id);
    FirstSize(Missing(s.world, s.events, s.tasks), limit);
    var room, orphans := Max(0, limit - |PendingOf(s, limit)|), Orphans(s.world, s.events);
    FirstIsPart(orphans, room);
    if k in orphans { FirstIsRankBelow(orphans, room, k); }
  }

  lemma PendingInTurn(s: Stock, e: Uuid, sid: Uuid, limit: nat)
    ensures NamesPair(PendingOf(s, limit), e, sid) <==>
      e in s.events && InTurn(Backlog(s.world, s.events, s.tasks), SortKey(s.events[e].receivedAt, e, sid), limit)
  {
    hide Missing, Backlog, First, Earlier, MissingPair, HasTask;
    var missing := Missing(s.world, s.events, s.tasks);
    MissingIsBacklog(s.world, s.events, s.tasks);
    FirstIsPart(missing, limit);
    if k :| k in PendingOf(s, limit) && k.id == e && k.sub == sid {
      MissingKey(s.world, s.events, s.tasks, k);
      FirstIsRankBelow(missing, limit, k);
    }
    if e in s.events && InTurn(Backlog(s.world, s.events, s.tasks), SortKey(s.events[e].receivedAt, e, sid), limit) {
      FirstIsRankBelow(missing, limit, SortKey(s.events[e].receivedAt, e, sid));
      assert SortKey(s.events[e].receivedAt, e, sid) in PendingOf(s, limit);
    }
  }

  lemma TasksOfPass(s: Stock, mid: map<Uuid, Row>, t: Stock, limit: nat, e: Uuid, sid: Uuid, due: int)
    requires Canonical(s.events, s.tasks) && Canonical(t.events, t.tasks)
    requires forall e :: e in s.events ==> e in t.events && t.events[e] == s.events[e]
    requires AddsKeys(s.tasks, mid, PendingOf(s, limit)) && AddsMarkers(mid, t.tasks, s.events, t.events)
    ensures Has(t.tasks, e, sid, due) <==>
      Has(s.tasks, e, sid, due) || AdmittedInTurn(s, limit, e, sid, due) || AdmittedWithMarker(s, t, e, sid, due)
  {
    hide Has, HasTask, Canonical, InTurn, PendingOf, NamesPair, Backlog;
    CanonicalHas(t.events, t.tasks, e, sid, due);
    CanonicalHas(s.events, s.tasks, e, sid, due);
    if HasTask(s.tasks, e, sid) { TaskIsRecorded(s.events, s.tasks, e, sid); }
    PendingInTurn(s, e, sid, limit);
  }

  lemma TaskIsRecorded(events: map<Uuid, Event>, rows: map<Uuid, Row>, e: Uuid, sid: Uuid)
    requires Canonical(events, rows) && HasTask(rows, e, sid)
    ensures e in events
  {
    hide CanonicalIntent;
    var i :| i in rows && IsTaskOf(rows, i, e, sid);
    CanonicalTask(events, rows, i, e, sid);
  }

  lemma MarkersAreDue(s: Stock, t: Stock, limit: nat, clocks: seq<int>, received: int)
    requires Wrote(s.events, t.events, MarkedBy(s, limit), clocks, received)
    ensures forall e :: e in t.events && e !in s.events ==> MarksDue(s, t, e, limit, clocks, received)
    ensures forall k :: Due(s, k, limit) ==> Marked1(s.events, t.events, k.id, clocks, received)
  {
    hide Due, MarkedBy, IsNewMarker, Marked1;
    forall k ensures k in MarkedBy(s, limit) <==> Due(s, k, limit) { DueIsMarked(s, k, limit); }
    forall e | e in t.events && e !in s.events ensures MarksDue(s, t, e, limit, clocks, received) {
      assert MarksOne(s.events, t.events, e, MarkedBy(s, limit), clocks, received);
    }
  }

  lemma Repairs(s: Stock, mid: map<Uuid, Row>, t: Stock, limit: nat, clocks: seq<int>, received: int)
    requires Canonical(s.events, s.tasks) && Canonical(t.events, t.tasks) && t.world == s.world && Passed(s, t, limit)
    requires AddsKeys(s.tasks, mid, PendingOf(s, limit)) && AddsMarkers(mid, t.tasks, s.events, t.events)
    requires Wrote(s.events, t.events, MarkedBy(s, limit), clocks, received)
    ensures Repaired(s, t, limit, clocks, received)
  {
    hide Canonical, Missing, Orphans, Takes, NewOwnKeys, AddsKeys, AddsMarkers, Has, Due, MarkedBy, PendingOf;
    hide AdmittedInTurn, AdmittedWithMarker, MarksDue, Marked1, MarksOne, OneEach;
    MarkersAreDue(s, t, limit, clocks, received);
    forall e: Uuid, sid: Uuid, due: int
      ensures Has(t.tasks, e, sid, due) <==>
        Has(s.tasks, e, sid, due) || AdmittedInTurn(s, limit, e, sid, due) || AdmittedWithMarker(s, t, e, sid, due)
    {
      TasksOfPass(s, mid, t, limit, e, sid, due);
    }
  }

  lemma PassGrows(s: Stock, t: Stock, limit: nat)
    requires Passed(s, t, limit)
    ensures UnitsOf(s, limit).markers == |t.events| - |s.events| && UnitsOf(s, limit).admitted == |t.tasks| - |s.tasks|
  {
    hide Missing, Orphans, Takes, NewOwnKeys, MarkedBy, PendingOf;
  }

  /** The log has a record, from position n on, of this marker event, at one of the clock readings. */
  ghost predicate Audited(audit: seq<AuditRecord>, n: nat, eid: Uuid, ev: Event, clocks: seq<int>, received: int) {
    exists i :: n <= i < |audit| && RecordOf(audit[i], eid, ev, clocks, received)
  }

  predicate RecordOf(record: AuditRecord, eid: Uuid, ev: Event, clocks: seq<int>, received: int) {
    && record.sourceEventId == eid && record.at in clocks
    && |record.sessionId| == 36 && ev == Marker(record.sessionId, record.at, received)
  }

  /** Every new event is an audited marker of this pass. */
  ghost predicate NewAreAudited(before: map<Uuid, Event>, after: map<Uuid, Event>, audit: seq<AuditRecord>, n: nat, clocks: seq<int>, received: int) {
    forall e :: e in after && e !in before ==> Audited(audit, n, e, after[e], clocks, received)
  }

  lemma NothingToAudit(events: map<Uuid, Event>, audit: seq<AuditRecord>, clocks: seq<int>, received: int)
    ensures NewAreAudited(events, events, audit, |audit|, clocks, received)
  {}

  lemma OneMoreAudited(before: map<Uuid, Event>, events: map<Uuid, Event>, audit: seq<AuditRecord>, n: nat, eid: Uuid, sid: string, clocks: seq<int>, turn: nat, received: int)
    requires NewAreAudited(before, events, audit, n, clocks, received) && n <= |audit| && |sid| == 36 && turn < |clocks|
    ensures NewAreAudited(before, events[eid := Marker(sid, clocks[turn], received)], audit + [AuditRecord(sid, eid, clocks[turn])], n, clocks, received)
  {
    hide Marker;
    var audit', after := audit + [AuditRecord(sid, eid, clocks[turn])], events[eid := Marker(sid, clocks[turn], received)];
    forall e | e in after && e !in before ensures Audited(audit', n, e, after[e], clocks, received) {
      if e == eid {
        assert RecordOf(audit'[|audit|], e, after[e], clocks, received);
      } else {
        assert Audited(audit, n, e, events[e], clocks, received);
        var i :| n <= i < |audit| && RecordOf(audit[i], e, events[e], clocks, received);
        assert RecordOf(audit'[i], e, after[e], clocks, received);
      }
    }
  }

  /** What the first loop has done so far: these pairs admitted, nothing else touched. */
  ghost predicate Admits(s: Stock, tasks: map<Uuid, Row>, done: set<SortKey>) {
    && Missing(s.world, s.events, tasks) == Missing(s.world, s.events, s.tasks) - done
    && Grew(s.tasks, tasks, |done|)
  }

  lemma AdmitsNothing(s: Stock)
    ensures Admits(s, s.tasks, {})
  {
    hide Missing;
  }

  lemma StillMissing(s: Stock, tasks: map<Uuid, Row>, done: set<SortKey>, k: SortKey)
    requires Admits(s, tasks, done) && k in Missing(s.world, s.events, s.tasks) && k !in done
    ensures |k.id| == 36 && |k.sub| == 36 && k.id in s.events && !HasTask(tasks, k.id, k.sub)
    ensures k == SortKey(s.events[k.id].receivedAt, k.id, k.sub)
  {
    hide Missing, Grew, HasTask;
    MissingKey(s.world, s.events, tasks, k);
  }

  lemma AdmitsMore(s: Stock, tasks: map<Uuid, Row>, done: set<SortKey>, k: SortKey, tasks': map<Uuid, Row>, more: set<SortKey>)
    requires Admits(s, tasks, done) && k !in done && more == done + {k}
    requires |k.id| == 36 && |k.sub| == 36 && k.id in s.events && k == SortKey(s.events[k.id].receivedAt, k.id, k.sub)
    requires Adds(tasks, tasks', k.id, k.sub) && Grew(tasks, tasks', 1)
    ensures Admits(s, tasks', more) && |more| == |done| + 1
  {
    hide Missing, Grew, Adds;
    GrewByKey(s.tasks, done, tasks, k, tasks', more);
    AdmittedIsNoLongerMissing(s.world, s.events, tasks, tasks', k.id, k.sub);
    MinusMore(Missing(s.world, s.events, s.tasks), done, Missing(s.world, s.events, tasks), k, Missing(s.world, s.events, tasks'), more);
  }

  /** What the second loop has done so far: these sessions marked, nothing else touched. */
  ghost predicate Marks(s: Stock, t: Stock, made: set<SortKey>) {
    && t.world == s.world
    && Missing(t.world, t.events, t.tasks) == Missing(s.world, s.events, s.tasks)
    && Orphans(t.world, t.events) == Orphans(s.world, s.events) - made
    && Takes(s.events, t.events, made) && NewOwnKeys(s.events, t.events)
    && Grew(s.events, t.events, |made|) && Grew(s.tasks, t.tasks, |made|)
  }

  lemma MarksMore(s: Stock, made: set<SortKey>, t: Stock, k: SortKey, u: Stock, more: set<SortKey>)
    requires Marks(s, t, made) && Marks(t, u, {k}) && k !in made && more == made + {k}
    ensures Marks(s, u, more) && |more| == |made| + 1
  {
    hide Missing, Orphans, Grew, Takes, NewOwnKeys;
    OneKey(k);
    GrewByKey(s.events, made, t.events, k, u.events, more);
    GrewByKey(s.tasks, made, t.tasks, k, u.tasks, more);
    TakesMore(s.events, made, t.events, {k}, u.events);
    MoreOwnKeys(s.events, t.events, 1, u.events);
    MinusMore(Orphans(s.world, s.events), made, Orphans(t.world, t.events), k, Orphans(u.world, u.events), more);
  }

  lemma MinusMore(a: set<SortKey>, made: set<SortKey>, b: set<SortKey>, k: SortKey, c: set<SortKey>, more: set<SortKey>)
    requires b == a - made && c == b - {k} && more == made + {k}
    ensures c == a - more
  {}


  /** Some key of the set belongs to this session. */
  ghost predicate Holder(keys: set<SortKey>, sid: string) {
    exists k :: k in keys && k.id == sid
  }

  /** The marker keys taken afterwards are those taken before and those of the marked sessions. */
  ghost predicate Takes(before: map<Uuid, Event>, after: map<Uuid, Event>, made: set<SortKey>) {
    forall sid :: MarkerTaken(after, sid) <==> MarkerTaken(before, sid) || Holder(made, sid)
  }

  lemma MarkerFields(sid: Uuid, at: int, received: int)
    ensures Marker(sid, at, received).occurredAt == at
  {}

  lemma OneKey(k: SortKey)
    ensures |{k}| == 1
  {
  }

  /** The marker and its task together: the session is no orphan any more, no gap appears. */
  lemma MarkerAdmitted(w: World, events: map<Uuid, Event>, rows: map<Uuid, Row>, rows': map<Uuid, Row>, eid: Uuid, k: SortKey, at: int, received: int)
    requires eid !in events && k in Orphans(w, events)
    requires |k.id| == 36 && Adds(rows, rows', eid, k.id)
    requires Grew(rows, rows', 1)
    ensures Marks(Stock(w, events, rows), Stock(w, events[eid := Marker(k.id, at, received)], rows'), {k})
  {
    hide Missing, Orphans, HasTask, Takes, Grew, Orphan, Marker, MarkerTaken, Adds;
    OneKey(k);
    OrphanKey(w, events, k);
    OrphanIsSession(w, events, k.id);
    MarkerAdopts(w, events, eid, k.id, at, received);
    MarkerTakes(events, eid, k, at, received);
    MarkerIsOwn(events, eid, k.id, at, received);
    MarkerCreatesNoGap(w, events, rows, rows', eid, k.id, at, received);
    GrewByOne(events, eid, Marker(k.id, at, received));
  }

  lemma MarkerTakes(events: map<Uuid, Event>, eid: Uuid, k: SortKey, at: int, received: int)
    requires eid !in events && |k.id| == 36
    ensures Takes(events, events[eid := Marker(k.id, at, received)], {k})
  {
    hide MarkerTaken;
    forall sid: string ensures Holder({k}, sid) <==> sid == k.id { assert k in {k}; }
    forall sid: string { MarkerTakesOneKey(events, eid, k.id, at, received, sid); }
  }

  lemma TakesNothing(events: map<Uuid, Event>)
    ensures Takes(events, events, {})
  {}

  lemma TakesMore(before: map<Uuid, Event>, made: set<SortKey>, mid: map<Uuid, Event>, more: set<SortKey>, after: map<Uuid, Event>)
    requires Takes(before, mid, made) && Takes(mid, after, more)
    ensures Takes(before, after, made + more)
  {
    hide MarkerTaken;
    forall sid ensures Holder(made + more, sid) <==> Holder(made, sid) || Holder(more, sid) {
      forall x | x in made || x in more ensures x in made + more {}
    }
  }

  lemma NothingMarked(s: Stock, selected: set<SortKey>)
    ensures Marked(s.events, selected - selected) == {} && Marks(s, s, {})
  {
    hide Missing, Orphans, Takes, MarkerTaken;
    TakesNothing(s.events);
    NoNewKeys(s.events);
  }

  /** The next orphan is marked exactly when its key was free before the pass, and is not yet. */
  lemma OneMoreMarked(s: Stock, t: Stock, selected: set<SortKey>, todo: set<SortKey>, k: SortKey)
    requires k in todo && todo <= selected <= Orphans(s.world, s.events)
    requires Marks(s, t, Marked(s.events, selected - todo))
    ensures |k.id| == 36
    ensures var made := Marked(s.events, selected - todo);
      && k !in made && k in Orphans(t.world, t.events) && (forall x :: x in made ==> x.id != k.id)
      && Marked(s.events, selected - (todo - {k})) == if MarkerTaken(t.events, k.id) then made else made + {k}
  {
    hide Missing, Orphans, MarkerTaken, Grew, Takes, Holder, NewOwnKeys, Marked;
    var done := selected - todo;
    OrphanKey(s.world, s.events, k);
    assert selected - (todo - {k}) == done + {k};
    MarkedWith(s.events, done, k);
    forall x | x in Marked(s.events, done) ensures x.id != k.id {
      MarkedIsPart(s.events, done);
      if x.id == k.id { SameSession(s, x, k); }
    }
    TakesAt(s.events, t.events, Marked(s.events, done), k.id);
  }

  lemma SameSession(s: Stock, a: SortKey, b: SortKey)
    requires a in Orphans(s.world, s.events) && b in Orphans(s.world, s.events) && a.id == b.id
    ensures a == b
  {
    hide Orphans;
    OrphanKey(s.world, s.events, a);
    OrphanKey(s.world, s.events, b);
  }

  lemma MarkedIsPart(events: map<Uuid, Event>, selected: set<SortKey>)
    ensures Marked(events, selected) <= selected
  {}

  lemma MarkedWith(events: map<Uuid, Event>, done: set<SortKey>, k: SortKey)
    requires k !in done
    ensures k !in Marked(events, done)
    ensures Marked(events, done + {k}) == if MarkerTaken(events, k.id) then Marked(events, done) else Marked(events, done) + {k}
  {
    hide MarkerTaken;
  }

  lemma TakesAt(before: map<Uuid, Event>, after: map<Uuid, Event>, made: set<SortKey>, sid: string)
    requires Takes(before, after, made) && forall x :: x in made ==> x.id != sid
    ensures MarkerTaken(after, sid) == MarkerTaken(before, sid)
  {
    hide MarkerTaken;
  }

  lemma OrphanIsSession(w: World, events: map<Uuid, Event>, sid: Uuid)
    requires Orphan(w, events, sid)
    ensures sid in w.sessions
  {}
}

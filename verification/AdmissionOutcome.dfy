/** Which tasks a log ends with, whatever paths admitted them and in whatever order. */
module AdmissionOutcome {
  import opened Prelude
  import opened Ordering
  import opened TaskTable
  import opened LeaseProtocol
  import opened LeaseInvariant
  import opened BonusSources
  import opened BonusAdmission
  import opened BonusMeaning
  import opened AdmissionProtocol
  import opened AdmissionInvariant
  import opened BonusConfluence

  predicate RelatedPair(world: World, events: map<Uuid, Event>, e: Uuid, sid: Uuid) {
    e in events && Related(world, events[e], sid)
  }

  /**
   * What a select read still stands in these tables: they may have changed since, but no relation it
   * saw was withdrawn and no session removed.
   */
  ghost predicate Stands(seen: World, events: map<Uuid, Event>, world: World) {
    && seen.sessions.Keys <= world.sessions.Keys
    && forall e, sid :: RelatedPair(seen, events, e, sid) ==> RelatedPair(world, events, e, sid)
  }

  ghost predicate Saw(s: System, step: Step, world: World) {
    step.SelectTargets? || step.SelectMedia? || step.SelectMissing? || step.SelectOrphans? ==>
      Stands(step.seen, SeenEvents(s, step.w), world)
  }

  /** So it does for every select of the run, each over the tables as they were at its instant. */
  ghost predicate SawAll(s: System, run: seq<Step>, world: World)
    requires CanAll(s, run)
    decreases |run|
  {
    run != [] ==> Saw(s, run[0], world) && SawAll(Do(s, run[0]), run[1..], world)
  }

  // ---------------------------------------------------------------- only related pairs are admitted

  ghost predicate TasksRelated(world: World, events: map<Uuid, Event>, rows: map<Uuid, Row>) {
    forall e, sid :: HasTask(rows, e, sid) ==> RelatedPair(world, events, e, sid)
  }

  /** What a path will enqueue is related, and the sessions it will mark exist. */
  ghost predicate PathRelated(world: World, events: map<Uuid, Event>, path: Path) {
    && (forall e, sid :: Owes(path, e, sid) ==> RelatedPair(world, events, e, sid))
    && forall k :: k in OrphansLeft(path) ==> |k.id| == 36 && k.id in world.sessions
  }

  ghost predicate WorkerRelated(world: World, s: System, w: Worker)
    requires w in s.queue.txs
  {
    TasksRelated(world, SeenEvents(s, w), SeenRows(s, w)) && PathRelated(world, SeenEvents(s, w), PathOf(s, w))
  }

  ghost predicate AllRelated(world: World, s: System) {
    && TasksRelated(world, s.events, s.queue.rows)
    && forall w :: w in s.queue.txs ==> WorkerRelated(world, s, w)
  }

  lemma RelatedGrows(world: World, events: map<Uuid, Event>, more: map<Uuid, Event>, rows: map<Uuid, Row>, path: Path)
    requires Extends(events, more)
    ensures TasksRelated(world, events, rows) ==> TasksRelated(world, more, rows)
    ensures PathRelated(world, events, path) ==> PathRelated(world, more, path)
  {
    hide Related, HasTask, Owes;
  }

  /** Rows that are kept and new rows of one related pair. */
  lemma SameTasks(world: World, events: map<Uuid, Event>, rows: map<Uuid, Row>, rows': map<Uuid, Row>)
    requires TasksRelated(world, events, rows) && RowsKept(rows', rows)
    ensures TasksRelated(world, events, rows')
  {
    hide HasTask, RelatedPair;
    forall e, sid | HasTask(rows', e, sid) ensures RelatedPair(world, events, e, sid) { TaskKept(rows', rows, e, sid); }
  }

  lemma TaskOfUnion(rows: map<Uuid, Row>, inserts: map<Uuid, Row>, e: Uuid, sid: Uuid)
    requires HasTask(rows + inserts, e, sid)
    ensures HasTask(rows, e, sid) || HasTask(inserts, e, sid)
  {
    var id :| id in rows + inserts && IsTaskOf(rows + inserts, id, e, sid);
    assert if id in inserts then IsTaskOf(inserts, id, e, sid) else IsTaskOf(rows, id, e, sid);
  }

  lemma TaskOfInserts(rows: map<Uuid, Row>, inserts: map<Uuid, Row>, e: Uuid, sid: Uuid)
    requires HasTask(inserts, e, sid)
    ensures HasTask(rows + inserts, e, sid)
  {
    var id :| id in inserts && IsTaskOf(inserts, id, e, sid);
    assert IsTaskOf(rows + inserts, id, e, sid);
  }

  /** Tables whose parts hold related pairs only. */
  lemma UnionRelated(world: World, events: map<Uuid, Event>, rows: map<Uuid, Row>, inserts: map<Uuid, Row>)
    requires TasksRelated(world, events, rows) && TasksRelated(world, events, inserts)
    ensures TasksRelated(world, events, rows + inserts)
  {
    hide HasTask, RelatedPair;
    forall e, sid | HasTask(rows + inserts, e, sid) ensures RelatedPair(world, events, e, sid) {
      TaskOfUnion(rows, inserts, e, sid);
    }
  }

  lemma InsertsRelated(world: World, events: map<Uuid, Event>, rows: map<Uuid, Row>, inserts: map<Uuid, Row>)
    requires TasksRelated(world, events, rows + inserts)
    ensures TasksRelated(world, events, inserts)
  {
    hide HasTask, RelatedPair;
    forall e, sid | HasTask(inserts, e, sid) ensures RelatedPair(world, events, e, sid) { TaskOfInserts(rows, inserts, e, sid); }
  }

  /** One more insert: another producer's task, or the task of a related pair. */
  lemma PlusRelated(world: World, events: map<Uuid, Event>, inserts: map<Uuid, Row>, input: TaskInput, newId: Uuid)
    requires TasksRelated(world, events, inserts) && ValidInput(input) && newId !in inserts
    requires input.kind.BonusRecalculate? && input.sourceEventId.Some? && input.targetSessionId.Some? ==>
      RelatedPair(world, events, input.sourceEventId.value, input.targetSessionId.value)
    ensures TasksRelated(world, events, Plus(inserts, input, newId))
  {
    hide HasTask, Plus, RelatedPair;
    forall e, sid | HasTask(Plus(inserts, input, newId), e, sid) ensures RelatedPair(world, events, e, sid) {
      PlusHasTask(inserts, input, newId, e, sid);
    }
  }

  // ---------------------------------------------------------------- paths

  lemma OwesNothingRelated(world: World, events: map<Uuid, Event>, path: Path)
    requires Finished(path)
    ensures PathRelated(world, events, path)
  {}

  lemma TargetsRelated(world: World, events: map<Uuid, Event>, eid: Uuid, sessions: set<Uuid>)
    requires eid in events && sessions <= EventTargets(world, events[eid])
    ensures PathRelated(world, events, Admitting(eid, sessions))
  {
    hide RelatedTo;
  }

  lemma MissingRelated(world: World, events: map<Uuid, Event>, rows: map<Uuid, Row>, room: nat, pairs: set<SortKey>)
    requires pairs <= Missing(world, events, rows)
    ensures PathRelated(world, events, Repairing(room, pairs))
  {
    hide Missing, HasTask, Related;
    forall e, sid | Owes(Repairing(room, pairs), e, sid) ensures RelatedPair(world, events, e, sid) {
      var k :| k in pairs && k.id == e && k.sub == sid;
      MissingKey(world, events, rows, k);
    }
  }

  lemma OrphansRelated(world: World, events: map<Uuid, Event>, orphans: set<SortKey>)
    requires orphans <= Orphans(world, events)
    ensures PathRelated(world, events, Marking(orphans))
  {
    hide Orphans, HasSource;
    forall k | k in orphans ensures |k.id| == 36 && k.id in world.sessions {
      OrphanKey(world, events, k);
    }
  }

  lemma PaidRelated(world: World, events: map<Uuid, Event>, path: Path, e: Uuid, sid: Uuid)
    requires PathRelated(world, events, path) && Owes(path, e, sid)
    ensures PathRelated(world, events, Paid(path, e, sid))
  {
    hide RelatedPair;
    forall x, y | Owes(Paid(path, e, sid), x, y) ensures Owes(path, x, y) { PaidOwes(path, e, sid, x, y); }
    PaidOrphans(path, e, sid);
  }

  lemma PaidOwes(path: Path, e: Uuid, sid: Uuid, x: Uuid, y: Uuid)
    requires Owes(path, e, sid) && Owes(Paid(path, e, sid), x, y)
    ensures Owes(path, x, y)
  {
    if path.Repairing? {
      var k :| k in Paid(path, e, sid).pairs && k.id == x && k.sub == y;
      assert k in path.pairs;
    }
  }

  lemma AdoptionRelated(world: World, events: map<Uuid, Event>, orphans: set<SortKey>, k: SortKey, eid: Uuid, at: int, received: int)
    requires PathRelated(world, events, Marking(orphans)) && k in orphans && |k.id| == 36
    ensures PathRelated(world, events[eid := Marker(k.id, at, received)], Adopting(eid, k.id, orphans - {k}))
  {
    assert k in OrphansLeft(Marking(orphans));
    MarkerTargets(world, Marker(k.id, at, received), k.id, k.id);
  }

  lemma FewerOrphans(world: World, events: map<Uuid, Event>, orphans: set<SortKey>, k: SortKey)
    requires PathRelated(world, events, Marking(orphans))
    ensures PathRelated(world, events, Marking(orphans - {k}))
  {
    assert forall x :: x in OrphansLeft(Marking(orphans - {k})) ==> x in OrphansLeft(Marking(orphans));
  }

  lemma StandingPath(seen: World, events: map<Uuid, Event>, world: World, path: Path)
    requires Stands(seen, events, world) && PathRelated(seen, events, path)
    ensures PathRelated(world, events, path)
  {
    hide RelatedPair, Owes;
  }

  /** A select's own path is related, in the tables it saw and so in these. */
  lemma SelectRelated(world: World, s: System, step: Step)
    requires SysInv(s) && Can(s, step) && Saw(s, step, world)
    requires step.SelectTargets? || step.SelectMedia? || step.SelectMissing? || step.SelectOrphans?
    ensures PathRelated(world, SeenEvents(s, step.w), Redraft(s, step).path)
  {
    hide SysInv, PathRelated, Stands, First, Missing, Orphans, EventTargets, MediaTargets, HandoversHaveSessions, IsMediaEvent, Finished, SeenEvents;
    var w, events := step.w, SeenEvents(s, step.w);
    match step {
      case SelectTargets(_, eid, seen) => TargetsRelated(seen, events, eid, EventTargets(seen, events[eid]));
      case SelectMedia(_, mediaId, eid, seen) =>
        MediaPathAgrees(seen, events[eid], mediaId);
        TargetsRelated(seen, events, eid, MediaTargets(seen, mediaId));
      case SelectMissing(_, limit, seen) =>
        FirstIsPart(Missing(seen, events, SeenRows(s, w)), limit);
        MissingRelated(seen, events, SeenRows(s, w), Redraft(s, step).path.room, Redraft(s, step).path.pairs);
      case SelectOrphans(_, seen) =>
        FirstIsPart(Orphans(seen, events), PathOf(s, w).room);
        OrphansRelated(seen, events, Redraft(s, step).path.orphans);
    }
    StandingPath(step.seen, events, world, Redraft(s, step).path);
  }

  lemma RedraftRelated(world: World, s: System, step: Step)
    requires SysInv(s) && Can(s, step) && !step.Queued? && Saw(s, step, world)
    requires PathRelated(world, SeenEvents(s, step.w), PathOf(s, step.w))
    ensures PathRelated(world, s.events + Redraft(s, step).events, Redraft(s, step).path)
  {
    hide SysInv, PathRelated, Finished, NewEvent, KeyAwaited, HoldsKey, ProducerKey, Paid, Owes, Enabled, PairInput, Marker;
    var w, draft := step.w, DraftOf(s, step.w);
    match step
    case Record(_, eid, ev) => OwesNothingRelated(world, s.events + draft.events[eid := ev], draft.path);
    case Admitted(_, e, sid, _) => PaidRelated(world, SeenEvents(s, w), draft.path, e, sid);
    case WriteMarker(_, k, eid, clock, received) =>
      if HoldsKey(SeenEvents(s, w), MarkerKey(k.id)) {
        FewerOrphans(world, SeenEvents(s, w), draft.path.orphans, k);
      } else {
        AdoptionRelated(world, SeenEvents(s, w), draft.path.orphans, k, eid, clock, received);
        assert s.events + draft.events[eid := Marker(k.id, clock, received)] == SeenEvents(s, w)[eid := Marker(k.id, clock, received)];
      }
    case _ => { SelectRelated(world, s, step); SelectKeepsEvents(s, step); }
  }

  lemma SelectKeepsEvents(s: System, step: Step)
    requires Can(s, step) && (step.SelectTargets? || step.SelectMedia? || step.SelectMissing? || step.SelectOrphans?)
    ensures s.events + Redraft(s, step).events == SeenEvents(s, step.w)
  {
    hide First, Missing, Orphans, EventTargets, MediaTargets, IsMediaEvent, HandoversHaveSessions, Finished;
  }

  // ---------------------------------------------------------------- every step, every run

  lemma SeenSplit(s: System, w: Worker)
    requires w in s.queue.txs
    ensures SeenRows(s, w) == s.queue.rows + s.queue.txs[w].inserts
  {}

  lemma WorkerParts(world: World, s: System, w: Worker)
    requires AllRelated(world, s) && w in s.queue.txs
    ensures TasksRelated(world, s.events, s.queue.rows) && PathRelated(world, SeenEvents(s, w), PathOf(s, w))
    ensures TasksRelated(world, SeenEvents(s, w), s.queue.txs[w].inserts)
  {
    hide TasksRelated, PathRelated, SeenEvents, SeenRows;
    assert WorkerRelated(world, s, w);
    SeenSplit(s, w);
    InsertsRelated(world, SeenEvents(s, w), s.queue.rows, s.queue.txs[w].inserts);
  }

  lemma WorkerFromParts(world: World, t: System, w: Worker)
    requires w in t.queue.txs && TasksRelated(world, t.events, t.queue.rows) && Extends(t.events, SeenEvents(t, w))
    requires TasksRelated(world, SeenEvents(t, w), t.queue.txs[w].inserts) && PathRelated(world, SeenEvents(t, w), PathOf(t, w))
    ensures WorkerRelated(world, t, w)
  {
    hide TasksRelated, PathRelated, SeenEvents, SeenRows, Extends;
    SeenSplit(t, w);
    RelatedGrows(world, t.events, SeenEvents(t, w), t.queue.rows, NoPath);
    UnionRelated(world, SeenEvents(t, w), t.queue.rows, t.queue.txs[w].inserts);
  }

  lemma SeenExtends(s: System, w: Worker)
    requires SysInv(s) && w in s.queue.txs
    ensures Extends(s.events, SeenEvents(s, w))
  {
    hide SysInv, UniqueKeys, OwnKeys, Canonical, PathOk, MarkersOk;
    DraftAt(s, w);
  }

  /** What the transaction inserted this step is related. */
  lemma StepInserts(world: World, s: System, step: Step, w: Worker)
    requires SysInv(s) && Can(s, step) && AllRelated(world, s) && w in Do(s, step).queue.txs
    ensures w in s.queue.txs ==> TasksRelated(world, SeenEvents(s, w), Do(s, step).queue.txs[w].inserts)
    ensures w !in s.queue.txs ==> Do(s, step).queue.txs[w].inserts == map[]
  {
    hide SysInv, Can, Do, AllRelated, TasksRelated, PathRelated, SeenEvents, LabelOf, Enabled, Apply, PathOf;
    StepIsLabel(s, step);
    if LabelOf(s, step).Some? {
      InsertsStep(s.queue, LabelOf(s, step).value, w);
    }
    if w in s.queue.txs {
      WorkerParts(world, s, w);
      if LabelOf(s, step).Some? && Do(s, step).queue.txs[w].inserts != s.queue.txs[w].inserts {
        EnqueuedRelated(world, s, step);
        PlusRelated(world, SeenEvents(s, w), s.queue.txs[w].inserts, LabelOf(s, step).value.input, LabelOf(s, step).value.newId);
      }
    }
  }

  lemma EnqueuedRelated(world: World, s: System, step: Step)
    requires Can(s, step) && LabelOf(s, step).Some? && LabelOf(s, step).value.Enqueue? && LabelOf(s, step).value.w in s.queue.txs
    requires PathRelated(world, SeenEvents(s, LabelOf(s, step).value.w), PathOf(s, LabelOf(s, step).value.w))
    ensures var input := LabelOf(s, step).value.input;
      ValidInput(input) && input.kind.BonusRecalculate? && input.sourceEventId.Some? && input.targetSessionId.Some? ==>
        RelatedPair(world, SeenEvents(s, LabelOf(s, step).value.w), input.sourceEventId.value, input.targetSessionId.value)
  {
    hide RelatedPair, Owes, Refused, SeenEvents, PathOf, Enabled, Finished;
    if step.Admitted? { assert Owes(PathOf(s, step.w), step.e, step.sid); }
  }

  lemma StepPath(world: World, s: System, step: Step, w: Worker)
    requires SysInv(s) && Can(s, step) && Saw(s, step, world) && AllRelated(world, s) && w in Do(s, step).queue.txs
    ensures PathRelated(world, SeenEvents(Do(s, step), w), PathOf(Do(s, step), w))
  {
    hide SysInv, Can, Do, AllRelated, TasksRelated, PathRelated, Redraft, Saw, Extends;
    var t := Do(s, step);
    if w !in s.queue.txs {
      OpenedPath(s, step, w);
      OwesNothingRelated(world, SeenEvents(t, w), PathOf(t, w));
    } else {
      WorkerParts(world, s, w);
      if step.Queued? || step.w != w {
        StepEventsKept(s, step, w);
        OthersPath(s, step, w);
        RelatedGrows(world, SeenEvents(s, w), SeenEvents(t, w), map[], PathOf(s, w));
      } else {
        RedraftRelated(world, s, step);
        OwnDraft(s, step);
      }
    }
  }

  lemma OwnDraft(s: System, step: Step)
    requires SysInv(s) && Can(s, step) && !step.Queued? && step.w in Do(s, step).queue.txs
    ensures SeenEvents(Do(s, step), step.w) == s.events + Redraft(s, step).events && PathOf(Do(s, step), step.w) == Redraft(s, step).path
  {
    hide SysInv, Do, Enabled, Apply, Paid, Owes, PairInput, First, Missing, Orphans, EventTargets, MediaTargets;
    if step.Admitted? { AdmittedStep(s, step.w, step.e, step.sid, step.newId); OnlyOthers(s, Do(s, step), step.w); }
    else { DraftStep(s, step); OnlyOthers(s, Do(s, step), step.w); }
  }

  lemma OpenedPath(s: System, step: Step, w: Worker)
    requires SysInv(s) && Can(s, step) && w !in s.queue.txs && w in Do(s, step).queue.txs
    ensures PathOf(Do(s, step), w) == NoPath
  {
    hide SysInv, Can, Do;
    if step.Queued? && step.l.Commit? { CommitStep(s, step.l.w); }
    else if step.Queued? { QueuedOnly(s, step.l); }
    else if step.Admitted? { AdmittedStep(s, step.w, step.e, step.sid, step.newId); AdmittedOpensNothing(s, step, w); }
    else { DraftStep(s, step); }
  }

  lemma AdmittedOpensNothing(s: System, step: Step, w: Worker)
    requires Can(s, step) && step.Admitted? && Only(s, Do(s, step), step.w) && w in Do(s, step).queue.txs
    ensures w in s.queue.txs
  {
    hide Do, Enabled, Owes;
  }

  lemma CommittedTasks(world: World, s: System, step: Step)
    requires SysInv(s) && Can(s, step) && AllRelated(world, s)
    ensures TasksRelated(world, Do(s, step).events, Do(s, step).queue.rows)
  {
    hide SysInv, Can, Do, TasksRelated, PathRelated, SeenEvents, SeenRows, Committed, Enabled;
    if step.Queued? && step.l.Commit? {
      var w := step.l.w;
      CommitStep(s, w);
      QueueInv(s);
      CommitRowsKept(s.queue, w);
      assert WorkerRelated(world, s, w);
      SeenSplit(s, w);
      SameTasks(world, SeenEvents(s, w), SeenRows(s, w), Committed(s.queue, w).rows) by { CommittedIn(s, w); }
    } else {
      NothingCommitted(s, step);
    }
  }

  lemma CommittedIn(s: System, w: Worker)
    requires SysInv(s) && w in s.queue.txs
    ensures RowsKept(Committed(s.queue, w).rows, SeenRows(s, w))
  {
    hide SysInv, Committed;
    QueueInv(s);
    CommitRowsKept(s.queue, w);
  }

  lemma NothingCommitted(s: System, step: Step)
    requires SysInv(s) && Can(s, step) && !(step.Queued? && step.l.Commit?)
    ensures Do(s, step).events == s.events && Do(s, step).queue.rows == s.queue.rows
  {
    hide SysInv, Can, Do;
    if step.Queued? { QueuedOnly(s, step.l); }
    else if step.Admitted? { AdmittedStep(s, step.w, step.e, step.sid, step.newId); OnlyOthers(s, Do(s, step), step.w); }
    else { DraftStep(s, step); }
  }

  lemma StepRelated(world: World, s: System, step: Step)
    requires SysInv(s) && Can(s, step) && Saw(s, step, world) && AllRelated(world, s)
    ensures AllRelated(world, Do(s, step))
  {
    hide SysInv, Can, Do, Saw, TasksRelated, PathRelated, WorkerRelated, SeenEvents, Extends;
    var t := Do(s, step);
    StepKeepsSysInv(s, step);
    CommittedTasks(world, s, step);
    forall w | w in t.queue.txs ensures WorkerRelated(world, t, w) {
      StepInserts(world, s, step, w);
      StepPath(world, s, step, w);
      SeenExtends(t, w);
      if w in s.queue.txs {
        StepEventsKept(s, step, w);
        RelatedGrows(world, SeenEvents(s, w), SeenEvents(t, w), t.queue.txs[w].inserts, NoPath);
      } else {
        NoTasks(world, SeenEvents(t, w));
      }
      WorkerFromParts(world, t, w);
    }
  }

  lemma NoTasks(world: World, events: map<Uuid, Event>)
    ensures TasksRelated(world, events, map[])
  {}

  /** Only pairs related in these tables are admitted, as long as what the selects saw stands in them. */
  lemma {:induction false} RunRelated(world: World, s: System, run: seq<Step>)
    requires SysInv(s) && CanAll(s, run) && SawAll(s, run, world) && AllRelated(world, s)
    ensures SysInv(DoAll(s, run)) && AllRelated(world, DoAll(s, run))
    decreases |run|
  {
    hide SysInv, Can, Do, Saw, AllRelated;
    if run != [] {
      assert run[0] in run && forall step :: step in run[1..] ==> step in run;
      StepRelated(world, s, run[0]);
      StepKeepsSysInv(s, run[0]);
      RunRelated(world, Do(s, run[0]), run[1..]);
    }
  }

  // ---------------------------------------------------------------- the tasks of a log

  /** The recalculations the table holds. */
  function BonusIntents(rows: map<Uuid, Row>): set<Intent> {
    set i | i in rows && rows[i].intent.kind.BonusRecalculate? :: rows[i].intent
  }

  /** One recalculation per related pair, due when its event occurred. */
  function RelatedIntents(world: World, events: map<Uuid, Event>): set<Intent> {
    set e, sid | e in events && sid in world.sessions && Related(world, events[e], sid)
      :: IntentOf(BonusInput(e, sid, events[e].occurredAt))
  }

  lemma IntentIsRelated(world: World, s: System, i: Uuid)
    requires SysInv(s) && AllRelated(world, s) && i in s.queue.rows && s.queue.rows[i].intent.kind.BonusRecalculate?
    ensures s.queue.rows[i].intent in RelatedIntents(world, s.events)
  {
    hide Inv, AllDraftsOk, AllDraftsApart, UniqueKeys, OwnKeys, RelatedTo;
    var intent := s.queue.rows[i].intent;
    assert CanonicalIntent(s.events, intent);
    var e, sid := intent.sourceEventId.value, intent.targetSessionId.value;
    assert IsTaskOf(s.queue.rows, i, e, sid);
    assert HasTask(s.queue.rows, e, sid) && RelatedPair(world, s.events, e, sid);
  }

  lemma RelatedIsAdmitted(world: World, s: System, e: Uuid, sid: Uuid)
    requires SysInv(s) && Missing(world, s.events, s.queue.rows) == {} && e in s.events && Related(world, s.events[e], sid)
    ensures IntentOf(BonusInput(e, sid, s.events[e].occurredAt)) in BonusIntents(s.queue.rows)
    ensures OneTask(s.queue.rows, e, sid)
  {
    hide Inv, AllDraftsOk, AllDraftsApart, UniqueKeys, OwnKeys, RelatedTo, HasTask, Canonical, OneTask;
    if !HasTask(s.queue.rows, e, sid) {
      MissingIsListed(world, s.events, s.queue.rows, e, sid);
    }
    NeverTwoTasks(s, e, sid);
    AdmittedIntent(s, e, sid);
  }

  lemma MissingIsListed(w: World, events: map<Uuid, Event>, rows: map<Uuid, Row>, e: Uuid, sid: Uuid)
    requires e in events && Related(w, events[e], sid) && !HasTask(rows, e, sid)
    ensures Missing(w, events, rows) != {}
  {
    hide RelatedTo, HasTask;
    assert MissingPair(w, events, rows, e, sid);
    assert SortKey(events[e].receivedAt, e, sid) in Missing(w, events, rows);
  }

  lemma AdmittedIntent(s: System, e: Uuid, sid: Uuid)
    requires SysInv(s) && e in s.events && HasTask(s.queue.rows, e, sid)
    ensures IntentOf(BonusInput(e, sid, s.events[e].occurredAt)) in BonusIntents(s.queue.rows)
  {
    hide Inv, AllDraftsOk, AllDraftsApart, UniqueKeys, OwnKeys, KeyedIntent;
    var i :| i in s.queue.rows && IsTaskOf(s.queue.rows, i, e, sid);
    CanonicalTask(s.events, s.queue.rows, i, e, sid);
  }

  /**
   * When nothing is missing the tasks are decided by the log alone: one per related pair, due when
   * its event occurred, however live, media and repair admission came to create them.
   */
  lemma LogDecidesTasks(world: World, s: System, run: seq<Step>)
    requires Starts(s) && CanAll(s, run) && SawAll(s, run, world)
    requires Backlog(world, DoAll(s, run).events, DoAll(s, run).queue.rows) == {}
    ensures var t := DoAll(s, run);
      && (forall e, sid, due :: Has(t.queue.rows, e, sid, due) <==> e in t.events && sid in SourceSessions(world, t.events[e]) && due == t.events[e].occurredAt)
      && (forall e, sid :: e in t.events && sid in SourceSessions(world, t.events[e]) ==> OneTask(t.queue.rows, e, sid))
  {
    hide SysInv, DoAll, CanAll, Backlog, SourceSessions, HasTask, Has, BonusIntents, RelatedIntents, Missing, Related;
    var t := DoAll(s, run);
    MissingIsBacklog(world, t.events, t.queue.rows);
    LogDecidesIntents(world, s, run);
    StartInv(s);
    RunKeepsSysInv(s, run);
    forall e, sid | e in t.events ensures Related(world, t.events[e], sid) <==> sid in SourceSessions(world, t.events[e]) {
      RelatedIsSource(world, t.events[e], sid);
    }
    forall e, sid, due
      ensures Has(t.queue.rows, e, sid, due) <==> e in t.events && sid in SourceSessions(world, t.events[e]) && due == t.events[e].occurredAt
    {
      CanonicalLog(t);
      assert e in t.events ==> (RelatedPair(world, t.events, e, sid) <==> Related(world, t.events[e], sid));
      CanonicalHas(t.events, t.queue.rows, e, sid, due);
    }
  }

  lemma RelatedIsSource(world: World, e: Event, sid: Uuid)
    ensures Related(world, e, sid) <==> sid in SourceSessions(world, e)
  {
    hide RelatedTo, SourceSessions;
    SourcesMean(world, e);
    assert Related(world, e, sid) <==> sid in EventTargets(world, e);
  }

  lemma CanonicalLog(s: System)
    requires SysInv(s)
    ensures Canonical(s.events, s.queue.rows)
  {}

  /** The same on intents and the modelled join. */
  lemma LogDecidesIntents(world: World, s: System, run: seq<Step>)
    requires Starts(s) && CanAll(s, run) && SawAll(s, run, world)
    requires Missing(world, DoAll(s, run).events, DoAll(s, run).queue.rows) == {}
    ensures var t := DoAll(s, run);
      && BonusIntents(t.queue.rows) == RelatedIntents(world, t.events)
      && (forall e, sid :: RelatedPair(world, t.events, e, sid) ==> OneTask(t.queue.rows, e, sid))
      && (forall e, sid :: HasTask(t.queue.rows, e, sid) ==> RelatedPair(world, t.events, e, sid))
  {
    hide SysInv, CanAll, DoAll, SawAll, AllRelated, Missing, RelatedTo, OneTask;
    var t := DoAll(s, run);
    StartInv(s);
    StartRelated(world, s);
    RunRelated(world, s, run);
    forall intent | intent in BonusIntents(t.queue.rows) ensures intent in RelatedIntents(world, t.events) {
      var i :| i in t.queue.rows && t.queue.rows[i].intent.kind.BonusRecalculate? && intent == t.queue.rows[i].intent;
      IntentIsRelated(world, t, i);
    }
    forall e, sid | RelatedPair(world, t.events, e, sid)
      ensures IntentOf(BonusInput(e, sid, t.events[e].occurredAt)) in BonusIntents(t.queue.rows) && OneTask(t.queue.rows, e, sid)
    {
      RelatedIsAdmitted(world, t, e, sid);
    }
    RelatedListed(world, t.events, BonusIntents(t.queue.rows));
    CommittedRelated(world, t);
  }

  lemma CommittedRelated(world: World, s: System)
    requires AllRelated(world, s)
    ensures TasksRelated(world, s.events, s.queue.rows)
  {}

  lemma RelatedListed(world: World, events: map<Uuid, Event>, intents: set<Intent>)
    requires forall e, sid :: RelatedPair(world, events, e, sid) ==> IntentOf(BonusInput(e, sid, events[e].occurredAt)) in intents
    ensures RelatedIntents(world, events) <= intents
  {
    hide RelatedTo;
    forall intent | intent in RelatedIntents(world, events) ensures intent in intents {
      var e, sid :| e in events && sid in world.sessions && Related(world, events[e], sid) && intent == IntentOf(BonusInput(e, sid, events[e].occurredAt));
      assert RelatedPair(world, events, e, sid);
    }
  }

  lemma StartRelated(world: World, s: System)
    requires Starts(s)
    ensures AllRelated(world, s)
  {}

  /**
   * Confluence: any two interleavings that end with the same log and nothing missing end with the
   * same recalculations.
   */
  lemma AdmissionIsConfluent(world: World, s: System, one: seq<Step>, other: seq<Step>)
    requires Starts(s) && CanAll(s, one) && CanAll(s, other) && SawAll(s, one, world) && SawAll(s, other, world)
    requires DoAll(s, one).events == DoAll(s, other).events
    requires Backlog(world, DoAll(s, one).events, DoAll(s, one).queue.rows) == {}
    requires Backlog(world, DoAll(s, other).events, DoAll(s, other).queue.rows) == {}
    ensures BonusIntents(DoAll(s, one).queue.rows) == BonusIntents(DoAll(s, other).queue.rows)
  {
    hide Starts, CanAll, DoAll, SawAll, Missing, Backlog, BonusIntents, RelatedIntents, OneTask;
    MissingIsBacklog(world, DoAll(s, one).events, DoAll(s, one).queue.rows);
    MissingIsBacklog(world, DoAll(s, other).events, DoAll(s, other).queue.rows);
    LogDecidesIntents(world, s, one);
    LogDecidesIntents(world, s, other);
  }
}

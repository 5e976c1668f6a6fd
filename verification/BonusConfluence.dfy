/**
 * Live, media and repair admission agree, under any interleaving with each other, with producers and
 * with the workers that run the tasks.
 */
module BonusConfluence {
  import opened Prelude
  import opened Ordering
  import opened TaskTable
  import opened LeaseProtocol
  import opened LeaseInvariant
  import opened LeaseTheorems
  import opened BonusSources
  import opened BonusAdmission
  import opened BonusMeaning
  import opened AdmissionProtocol
  import opened AdmissionInvariant

  /** The pair has a task, and only one. */
  ghost predicate OneTask(rows: map<Uuid, Row>, e: Uuid, sid: Uuid) {
    HasTask(rows, e, sid) && forall i, j :: IsTaskOf(rows, i, e, sid) && IsTaskOf(rows, j, e, sid) ==> i == j
  }

  lemma NeverTwoTasks(s: System, e: Uuid, sid: Uuid)
    requires SysInv(s) && HasTask(s.queue.rows, e, sid)
    ensures OneTask(s.queue.rows, e, sid)
  {
    hide LogOk, AllDraftsOk, AllDraftsApart;
    var rows := s.queue.rows;
    assert Unique(rows);
    forall i, j | IsTaskOf(rows, i, e, sid) && IsTaskOf(rows, j, e, sid) ensures i == j {
      assert Clash(rows[i].intent, rows[j].intent);
    }
  }

  // ---------------------------------------------------------------- what a step keeps

  lemma StepRowsKept(s: System, step: Step)
    requires SysInv(s) && Can(s, step)
    ensures RowsKept(s.queue.rows, Do(s, step).queue.rows)
  {
    hide SysInv, Can, Do, Enabled, Apply, LabelOf, Inv;
    QueueInv(s);
    StepIsLabel(s, step);
    if LabelOf(s, step).Some? {
      forall id | id in s.queue.rows { RowStep(s.queue, LabelOf(s, step).value, id); }
    }
  }

  lemma {:induction false} RunRowsKept(s: System, run: seq<Step>)
    requires SysInv(s) && CanAll(s, run)
    ensures RowsKept(s.queue.rows, DoAll(s, run).queue.rows)
    decreases |run|
  {
    hide SysInv, Can, Do;
    if run != [] {
      StepRowsKept(s, run[0]);
      StepKeepsSysInv(s, run[0]);
      RunRowsKept(Do(s, run[0]), run[1..]);
    }
  }

  lemma InsertsGrow(s: State, l: Label, w: Worker, after: map<Uuid, Row>)
    requires InsertsAfter(s, l, w, after) && w in s.txs
    ensures InsertsKept(s.txs[w].inserts, after)
  {
    hide NewRow;
  }

  predicate InsertsKept(inserts: map<Uuid, Row>, more: map<Uuid, Row>) {
    forall id :: id in inserts ==> id in more && more[id] == inserts[id]
  }

  lemma VisibleGrows(rows: map<Uuid, Row>, inserts: map<Uuid, Row>, rows': map<Uuid, Row>, inserts': map<Uuid, Row>)
    requires RowsKept(rows, rows') && InsertsKept(inserts, inserts') && rows'.Keys !! inserts'.Keys
    ensures RowsKept(rows + inserts, rows' + inserts')
  {}

  lemma InsertsAreNew(s: State, w: Worker)
    requires Inv(s) && w in s.txs
    ensures s.rows.Keys !! s.txs[w].inserts.Keys
  {
    hide PhaseOk, RowsOk, AllApart;
    assert TxOk(s.rows, s.now, s.tokens, s.txs[w]);
  }

  /** What an open transaction sees of the tasks only grows. */
  lemma StepSeenKept(s: System, step: Step, w: Worker)
    requires SysInv(s) && Can(s, step) && w in s.queue.txs && w in Do(s, step).queue.txs
    ensures RowsKept(SeenRows(s, w), SeenRows(Do(s, step), w))
  {
    hide SysInv, Can, Do, Enabled, Apply, LabelOf, Inv, RowsKept, InsertsKept, InsertsAfter;
    var t := Do(s, step);
    StepIsLabel(s, step);
    StepRowsKept(s, step);
    StepKeepsSysInv(s, step);
    QueueInv(t);
    InsertsAreNew(t.queue, w);
    if LabelOf(s, step).Some? {
      InsertsStep(s.queue, LabelOf(s, step).value, w);
      InsertsGrow(s.queue, LabelOf(s, step).value, w, t.queue.txs[w].inserts);
    } else {
      InsertsSame(s.queue.txs[w].inserts);
    }
    VisibleGrows(s.queue.rows, s.queue.txs[w].inserts, t.queue.rows, t.queue.txs[w].inserts);
  }

  lemma InsertsSame(inserts: map<Uuid, Row>)
    ensures InsertsKept(inserts, inserts)
  {}

  /** The log it sees only grows, too. */
  lemma StepEventsKept(s: System, step: Step, w: Worker)
    requires SysInv(s) && Can(s, step)
    ensures Extends(s.events, Do(s, step).events)
    ensures w in s.queue.txs && w in Do(s, step).queue.txs ==> Extends(SeenEvents(s, w), SeenEvents(Do(s, step), w))
  {
    hide SysInv, Can, Do, LabelOf;
    if step.Queued? && step.l.Commit? {
      CommitEventsKept(s, step.l.w, w);
    } else if step.Queued? {
      QueuedOnly(s, step.l);
    } else if step.Admitted? {
      AdmittedStep(s, step.w, step.e, step.sid, step.newId);
      OnlyOthers(s, Do(s, step), step.w);
    } else {
      DraftStep(s, step);
      OnlyOthers(s, Do(s, step), step.w);
      RedraftEvents(s, step);
    }
  }

  lemma CommitEventsKept(s: System, v: Worker, w: Worker)
    requires SysInv(s) && Can(s, Queued(Commit(v)))
    ensures Extends(s.events, Do(s, Queued(Commit(v))).events)
    ensures w in s.queue.txs && w in Do(s, Queued(Commit(v))).queue.txs ==> Extends(SeenEvents(s, w), SeenEvents(Do(s, Queued(Commit(v))), w))
  {
    hide SysInv, Can, Do, SameKey, Canonical, UniqueKeys, OwnKeys, PathOk, MarkersOk, DraftOf;
    CommitStep(s, v);
    DraftAt(s, v);
    if w in s.queue.txs && w != v {
      DraftAt(s, w);
      DraftsApartAt(s, v, w);
    }
  }

  lemma RedraftEvents(s: System, step: Step)
    requires SysInv(s) && Can(s, step) && !step.Queued?
    ensures Extends(SeenEvents(s, step.w), s.events + Redraft(s, step).events)
  {
    hide SysInv, Paid, First, Missing, Orphans, EventTargets, MediaTargets, Marker, Owes, ProducerKey;
    if step.Record? {
      assert NewEvent(s, step.eid);
    } else if step.WriteMarker? {
      assert NewEvent(s, step.eid);
    }
  }

  lemma {:induction false} RunEventsKept(s: System, run: seq<Step>)
    requires SysInv(s) && CanAll(s, run)
    ensures Extends(s.events, DoAll(s, run).events)
    decreases |run|
  {
    hide SysInv, Can, Do;
    if run != [] {
      StepEventsKept(s, run[0], 0);
      StepKeepsSysInv(s, run[0]);
      RunEventsKept(Do(s, run[0]), run[1..]);
    }
  }

  // ---------------------------------------------------------------- selected pairs get their tasks

  /** The transaction sees the pair's task or its path will still enqueue it. */
  predicate Secured(s: System, w: Worker, e: Uuid, sid: Uuid) {
    w in s.queue.txs && (HasTask(SeenRows(s, w), e, sid) || Owes(PathOf(s, w), e, sid))
  }

  lemma OthersPath(s: System, step: Step, w: Worker)
    requires SysInv(s) && Can(s, step) && w in s.queue.txs && w in Do(s, step).queue.txs
    requires step.Queued? || step.w != w
    ensures DraftOf(Do(s, step), w) == DraftOf(s, w)
  {
    hide SysInv, Can, Do;
    if step.Queued? && step.l.Commit? { CommitStep(s, step.l.w); }
    else if step.Queued? { QueuedOnly(s, step.l); }
    else if step.Admitted? { AdmittedStep(s, step.w, step.e, step.sid, step.newId); OnlyOthers(s, Do(s, step), step.w); }
    else { DraftStep(s, step); OnlyOthers(s, Do(s, step), step.w); }
  }

  /** A select, a recording and a marker happen only where the path owes no pair. */
  lemma OwesNothing(s: System, step: Step, e: Uuid, sid: Uuid)
    requires Can(s, step) && !step.Queued? && !step.Admitted?
    ensures !Owes(PathOf(s, step.w), e, sid)
  {
    hide Writes, NewEvent, ProducerKey, SeenEvents, HoldsKey, KeyAwaited, IsMediaEvent, HandoversHaveSessions;
  }

  lemma StillOwed(path: Path, e: Uuid, sid: Uuid, e': Uuid, sid': Uuid)
    requires Owes(path, e, sid) && Owes(path, e', sid') && !(e == e' && sid == sid')
    ensures Owes(Paid(path, e', sid'), e, sid)
  {
    if path.Repairing? {
      var k :| k in path.pairs && k.id == e && k.sub == sid;
      assert k in Paid(path, e', sid').pairs;
    }
  }

  lemma SecuredStep(s: System, step: Step, w: Worker, e: Uuid, sid: Uuid)
    requires SysInv(s) && Can(s, step) && Secured(s, w, e, sid) && w in Do(s, step).queue.txs
    ensures Secured(Do(s, step), w, e, sid)
  {
    hide SysInv, Can, Do, HasTask, Owes, SeenRows, PathOf;
    StepSeenKept(s, step, w);
    if HasTask(SeenRows(s, w), e, sid) {
      TaskKept(SeenRows(s, w), SeenRows(Do(s, step), w), e, sid);
    } else if step.Queued? || step.w != w {
      OthersPath(s, step, w);
      SamePath(s, Do(s, step), w);
    } else if step.Admitted? {
      AdmittedSecures(s, step, e, sid);
    } else {
      OwesNothing(s, step, e, sid);
    }
  }

  lemma SamePath(s: System, t: System, w: Worker)
    requires DraftOf(t, w) == DraftOf(s, w)
    ensures PathOf(t, w) == PathOf(s, w)
  {}

  lemma AdmittedSecures(s: System, step: Step, e: Uuid, sid: Uuid)
    requires SysInv(s) && Can(s, step) && step.Admitted? && Owes(PathOf(s, step.w), e, sid)
    ensures Secured(Do(s, step), step.w, e, sid)
  {
    hide SysInv, Do, HasTask, Owes, Paid, DraftOk, Enabled, Apply, Plus, Only, PairInput;
    var w, t := step.w, Do(s, step);
    AdmittedStep(s, w, step.e, step.sid, step.newId);
    OnlyOthers(s, t, w);
    if e == step.e && sid == step.sid {
      AdmittedDraft(s, w, e, sid, step.newId, t.queue.txs[w].inserts);
    } else {
      StillOwed(PathOf(s, w), e, sid, step.e, step.sid);
    }
  }

  /** The worker's transaction stays open all along the run. */
  ghost predicate StaysOpen(s: System, run: seq<Step>, w: Worker)
    requires CanAll(s, run)
    decreases |run|
  {
    w in s.queue.txs && (run != [] ==> StaysOpen(Do(s, run[0]), run[1..], w))
  }

  lemma {:induction false} SecuredRun(s: System, run: seq<Step>, w: Worker, e: Uuid, sid: Uuid)
    requires SysInv(s) && CanAll(s, run) && StaysOpen(s, run, w) && Secured(s, w, e, sid)
    ensures SysInv(DoAll(s, run)) && Secured(DoAll(s, run), w, e, sid)
    decreases |run|
  {
    hide SysInv, Can, Do, Secured;
    if run != [] {
      OpenNext(s, run, w);
      StepKeepsSysInv(s, run[0]);
      SecuredStep(s, run[0], w, e, sid);
      SecuredRun(Do(s, run[0]), run[1..], w, e, sid);
    }
  }

  lemma OpenNext(s: System, run: seq<Step>, w: Worker)
    requires CanAll(s, run) && StaysOpen(s, run, w) && run != []
    ensures w in s.queue.txs && w in Do(s, run[0]).queue.txs && StaysOpen(Do(s, run[0]), run[1..], w)
  {
    hide Can, Do;
  }

  lemma CommitSecures(s: System, w: Worker, e: Uuid, sid: Uuid)
    requires SysInv(s) && Can(s, Queued(Commit(w))) && Secured(s, w, e, sid)
    ensures HasTask(Do(s, Queued(Commit(w))).queue.rows, e, sid)
  {
    hide SysInv, Do, HasTask, Committed, Enabled;
    CommitStep(s, w);
    QueueInv(s);
    CommitRowsKept(s.queue, w);
    TaskKept(SeenRows(s, w), Do(s, Queued(Commit(w))).queue.rows, e, sid);
  }

  /** From here on the transaction stays open for a run, then commits, then anything happens. */
  ghost predicate Commits(s: System, run: seq<Step>, w: Worker, rest: seq<Step>) {
    && CanAll(s, run) && StaysOpen(s, run, w) && Can(DoAll(s, run), Queued(Commit(w)))
    && CanAll(Do(DoAll(s, run), Queued(Commit(w))), rest)
  }

  ghost function Outcome(s: System, run: seq<Step>, w: Worker, rest: seq<Step>): System
    requires Commits(s, run, w, rest)
  {
    DoAll(Do(DoAll(s, run), Queued(Commit(w))), rest)
  }

  lemma SecuredForGood(s: System, run: seq<Step>, w: Worker, rest: seq<Step>, e: Uuid, sid: Uuid)
    requires SysInv(s) && Commits(s, run, w, rest) && Secured(s, w, e, sid)
    ensures SysInv(Outcome(s, run, w, rest)) && OneTask(Outcome(s, run, w, rest).queue.rows, e, sid)
  {
    hide SysInv, Can, Do, HasTask, OneTask, Secured, CanAll, DoAll, StaysOpen;
    var t := DoAll(s, run);
    var u := Do(t, Queued(Commit(w)));
    SecuredRun(s, run, w, e, sid);
    CommitSecures(t, w, e, sid);
    StepKeepsSysInv(t, Queued(Commit(w)));
    RunRowsKept(u, rest);
    RunKeepsSysInv(u, rest);
    TaskKept(u.queue.rows, DoAll(u, rest).queue.rows, e, sid);
    NeverTwoTasks(DoAll(u, rest), e, sid);
  }

  /**
   * Live admission is complete: when the transaction that asked for an event's targets commits,
   * whatever ran in between, every session the event related to has exactly one task, for good.
   */
  lemma LiveAdmissionIsComplete(s: System, w: Worker, eid: Uuid, seen: World, run: seq<Step>, rest: seq<Step>, sid: Uuid)
    requires SysInv(s) && Can(s, SelectTargets(w, eid, seen)) && Commits(Do(s, SelectTargets(w, eid, seen)), run, w, rest)
    requires sid in SourceSessions(seen, SeenEvents(s, w)[eid])
    ensures OneTask(Outcome(Do(s, SelectTargets(w, eid, seen)), run, w, rest).queue.rows, eid, sid)
  {
    hide SysInv, Do, EventTargets, SourceSessions, Commits, Outcome, OneTask;
    SourcesMean(seen, SeenEvents(s, w)[eid]);
    DraftStep(s, SelectTargets(w, eid, seen));
    StepKeepsSysInv(s, SelectTargets(w, eid, seen));
    SecuredForGood(Do(s, SelectTargets(w, eid, seen)), run, w, rest, eid, sid);
  }

  /** So is the media path, for every session related to the object's event. */
  lemma MediaAdmissionIsComplete(s: System, w: Worker, mediaId: Uuid, eid: Uuid, seen: World, run: seq<Step>, rest: seq<Step>, sid: Uuid)
    requires SysInv(s) && Can(s, SelectMedia(w, mediaId, eid, seen)) && Commits(Do(s, SelectMedia(w, mediaId, eid, seen)), run, w, rest)
    requires sid in PhotoSessions(seen, SeenEvents(s, w)[eid])
    ensures OneTask(Outcome(Do(s, SelectMedia(w, mediaId, eid, seen)), run, w, rest).queue.rows, eid, sid)
  {
    hide SysInv, Do, EventTargets, PhotoSessions, Commits, Outcome, OneTask, MediaTargets, HandoversHaveSessions, IsMediaEvent;
    PhotosMean(seen, SeenEvents(s, w)[eid], mediaId);
    DraftStep(s, SelectMedia(w, mediaId, eid, seen));
    StepKeepsSysInv(s, SelectMedia(w, mediaId, eid, seen));
    SecuredForGood(Do(s, SelectMedia(w, mediaId, eid, seen)), run, w, rest, eid, sid);
  }

  /** And a repair pass, for the first limit pairs missing from what it saw at its select. */
  lemma RepairAdmitsItsPairs(s: System, w: Worker, limit: nat, seen: World, run: seq<Step>, rest: seq<Step>, k: SortKey)
    requires SysInv(s) && Can(s, SelectMissing(w, limit, seen)) && Commits(Do(s, SelectMissing(w, limit, seen)), run, w, rest)
    requires w in s.queue.txs && InTurn(Backlog(seen, SeenEvents(s, w), SeenRows(s, w)), k, limit)
    ensures |k.id| == 36 && |k.sub| == 36 && OneTask(Outcome(Do(s, SelectMissing(w, limit, seen)), run, w, rest).queue.rows, k.id, k.sub)
  {
    hide SysInv, Do, Commits, Outcome, OneTask, Missing, Backlog, First, InTurn;
    PendingIsInTurn(seen, SeenEvents(s, w), SeenRows(s, w), limit, k);
    DraftStep(s, SelectMissing(w, limit, seen));
    StepKeepsSysInv(s, SelectMissing(w, limit, seen));
    PendingPairs(seen, SeenEvents(s, w), SeenRows(s, w), limit);
    SecuredForGood(Do(s, SelectMissing(w, limit, seen)), run, w, rest, k.id, k.sub);
  }

  // ---------------------------------------------------------------- conflicts and replays

  /** In every state any run reaches, enqueuing a pair of a recorded event is answered, never refused. */
  lemma AdmissionNeverConflicts(s: System, run: seq<Step>, w: Worker, e: Uuid, sid: Uuid, newId: Uuid)
    requires Starts(s) && CanAll(s, run) && w in DoAll(s, run).queue.txs && e in SeenEvents(DoAll(s, run), w)
    ensures var t := DoAll(s, run);
      && !Refused(SeenRows(t, w), PairInput(t, w, e, sid)) && Unique(SeenRows(t, w))
      && Admit(SeenRows(t, w), PairInput(t, w, e, sid), newId).Success?
      && Admit(SeenRows(t, w), PairInput(t, w, e, sid), newId).value.created == !HasTask(SeenRows(t, w), e, sid)
  {
    hide SysInv, CanAll, DoAll, Refused, SeenEvents, SeenRows, HasTask, Unique;
    StartInv(s);
    RunKeepsSysInv(s, run);
    NeverRefused(DoAll(s, run), w, e, sid, newId);
  }

  /** A completed pair is never admitted again: every later enqueue of it changes nothing. */
  lemma CompletedPairStays(s: System, run: seq<Step>, id: Uuid, e: Uuid, sid: Uuid, w: Worker, newId: Uuid)
    requires SysInv(s) && CanAll(s, run) && IsTaskOf(s.queue.rows, id, e, sid) && s.queue.rows[id].status == Completed
    requires Can(DoAll(s, run), Admitted(w, e, sid, newId))
    ensures var t := DoAll(s, run);
      id in t.queue.rows && t.queue.rows[id] == s.queue.rows[id] && Do(t, Admitted(w, e, sid, newId)).queue == t.queue
  {
    hide SysInv, CanAll, DoAll, Do, Inv, Possible, After, HasTask, Enabled, Apply, PairInput, SeenEvents, Owes;
    var t := DoAll(s, run);
    QueueInv(s);
    QueueRuns(s, run);
    RowHistory(s.queue, Labels(s, run), id);
    RunKeepsSysInv(s, run);
    QueueInv(t);
    VisibleRows(t.queue, w);
    assert HasTask(SeenRows(t, w), e, sid) by { SeenTask(t, w, id, e, sid); }
    AdmittedStep(t, w, e, sid, newId);
    NeverRefused(t, w, e, sid, newId);
    EnqueueApplies(t.queue, w, PairInput(t, w, e, sid), newId);
  }

  lemma SeenTask(t: System, w: Worker, id: Uuid, e: Uuid, sid: Uuid)
    requires w in t.queue.txs && IsTaskOf(t.queue.rows, id, e, sid)
    requires id in SeenRows(t, w) && SeenRows(t, w)[id] == t.queue.rows[id]
    ensures HasTask(SeenRows(t, w), e, sid)
  {
    assert IsTaskOf(SeenRows(t, w), id, e, sid);
  }

  // ---------------------------------------------------------------- selected sessions get their markers

  /** The transaction sees the session's marker key taken or its path will still try to write it. */
  predicate Awaited(s: System, w: Worker, k: SortKey) {
    HoldsKey(SeenEvents(s, w), MarkerKey(k.id)) || k in OrphansLeft(PathOf(s, w))
  }

  function OrphansLeft(path: Path): set<SortKey> {
    if path.Marking? || path.Adopting? then path.orphans else {}
  }

  lemma KeyKept(events: map<Uuid, Event>, more: map<Uuid, Event>, key: string)
    requires HoldsKey(events, key) && Extends(events, more)
    ensures HoldsKey(more, key)
  {
    var e :| e in events && events[e].idempotencyKey == Some(key);
    assert more[e].idempotencyKey == Some(key);
  }

  lemma MarkerStepKeeps(s: System, step: Step, k: SortKey)
    requires SysInv(s) && Can(s, step) && !step.Queued? && k in OrphansLeft(PathOf(s, step.w))
    requires step.w in Do(s, step).queue.txs
    ensures Awaited(Do(s, step), step.w, k)
  {
    hide SysInv, Do, Owes, HoldsKey, NewEvent, KeyAwaited, ProducerKey, First, Missing, Orphans, Enabled, Apply, PairInput;
    if step.Admitted? {
      AdmittedStep(s, step.w, step.e, step.sid, step.newId);
      PaidOrphans(PathOf(s, step.w), step.e, step.sid);
    } else {
      DraftStep(s, step);
      if step.WriteMarker? && step.k == k { WrittenKey(s, step); }
    }
  }

  lemma PaidOrphans(path: Path, e: Uuid, sid: Uuid)
    requires Owes(path, e, sid)
    ensures OrphansLeft(Paid(path, e, sid)) == OrphansLeft(path)
  {}

  lemma WrittenKey(s: System, step: Step)
    requires Can(s, step) && step.WriteMarker?
    requires Do(s, step).events == s.events && DraftOf(Do(s, step), step.w) == Redraft(s, step)
    ensures HoldsKey(SeenEvents(Do(s, step), step.w), MarkerKey(step.k.id))
  {
    hide Do, Can, NewEvent, KeyAwaited;
    if HoldsKey(SeenEvents(s, step.w), MarkerKey(step.k.id)) {
      assert SeenEvents(Do(s, step), step.w) == SeenEvents(s, step.w);
    } else {
      MarkerHoldsKey(step.k.id, step.clock, step.received);
      assert step.eid in SeenEvents(Do(s, step), step.w);
    }
  }

  lemma AwaitedStep(s: System, step: Step, w: Worker, k: SortKey)
    requires SysInv(s) && Can(s, step) && Awaited(s, w, k) && w in s.queue.txs && w in Do(s, step).queue.txs
    ensures Awaited(Do(s, step), w, k)
  {
    hide SysInv, Can, Do, HoldsKey, SeenEvents, PathOf;
    StepEventsKept(s, step, w);
    if HoldsKey(SeenEvents(s, w), MarkerKey(k.id)) {
      KeyKept(SeenEvents(s, w), SeenEvents(Do(s, step), w), MarkerKey(k.id));
    } else if step.Queued? || step.w != w {
      OthersPath(s, step, w);
      SamePath(s, Do(s, step), w);
    } else {
      MarkerStepKeeps(s, step, k);
    }
  }

  lemma {:induction false} AwaitedRun(s: System, run: seq<Step>, w: Worker, k: SortKey)
    requires SysInv(s) && CanAll(s, run) && StaysOpen(s, run, w) && Awaited(s, w, k)
    ensures SysInv(DoAll(s, run)) && w in DoAll(s, run).queue.txs && Awaited(DoAll(s, run), w, k)
    decreases |run|
  {
    hide SysInv, Can, Do, Awaited;
    if run != [] {
      OpenNext(s, run, w);
      StepKeepsSysInv(s, run[0]);
      AwaitedStep(s, run[0], w, k);
      AwaitedRun(Do(s, run[0]), run[1..], w, k);
    }
  }

  /** The log holds exactly one marker of the session, and that marker has exactly one task. */
  ghost predicate OneMarker(s: System, sid: Uuid) {
    exists e :: MarkerOf(s.events, e, sid) && OneTask(s.queue.rows, e, sid) && forall x :: MarkerOf(s.events, x, sid) ==> x == e
  }

  predicate MarkerOf(events: map<Uuid, Event>, e: Uuid, sid: Uuid) {
    e in events && KeyFor(events[e], sid)
  }

  lemma KeyIsOneMarker(s: System, sid: Uuid)
    requires SysInv(s) && HoldsKey(s.events, MarkerKey(sid))
    ensures OneMarker(s, sid)
  {
    hide Inv, AllDraftsOk, AllDraftsApart, HasTask, Canonical, OneTask;
    var e :| e in s.events && s.events[e].idempotencyKey == Some(MarkerKey(sid));
    assert KeyFor(s.events[e], sid);
    NeverTwoTasks(s, e, sid);
    assert MarkerOf(s.events, e, sid);
    forall x | MarkerOf(s.events, x, sid) ensures x == e { assert SameKey(s.events[x], s.events[e]); }
  }

  /**
   * However passes race, every session a pass selected ends with exactly one marker and that marker
   * with exactly one task, whichever pass wrote it.
   */
  lemma RepairMarksItsOrphans(s: System, w: Worker, room: nat, seen: World, run: seq<Step>, rest: seq<Step>, k: SortKey)
    requires PathOf(s, w) == Repairing(room, {}) && InTurn(Unscored(seen, SeenEvents(s, w)), k, room)
    requires SysInv(s) && Can(s, SelectOrphans(w, seen)) && Commits(Do(s, SelectOrphans(w, seen)), run, w, rest)
    ensures |k.id| == 36 && OneMarker(Outcome(Do(s, SelectOrphans(w, seen)), run, w, rest), k.id)
  {
    hide SysInv, Do, Orphans, First, DoAll, CanAll, StaysOpen, OneMarker, HoldsKey, InTurn, Unscored;
    SelectedIsInTurn(seen, SeenEvents(s, w), room, k);
    var step := SelectOrphans(w, seen);
    var s1 := Do(s, step);
    DraftStep(s, step);
    StepKeepsSysInv(s, step);
    PendingOrphans(seen, SeenEvents(s, w), room);
    assert Awaited(s1, w, k);
    AwaitedForGood(s1, run, w, rest, k);
  }

  lemma AwaitedForGood(s: System, run: seq<Step>, w: Worker, rest: seq<Step>, k: SortKey)
    requires SysInv(s) && Commits(s, run, w, rest) && Awaited(s, w, k) && |k.id| == 36
    ensures OneMarker(Outcome(s, run, w, rest), k.id)
  {
    hide SysInv, Do, DoAll, CanAll, StaysOpen, OneMarker, HoldsKey, Enabled, Committed, SeenEvents;
    var t := DoAll(s, run);
    var u := Do(t, Queued(Commit(w)));
    AwaitedRun(s, run, w, k);
    CommitStep(t, w);
    StepKeepsSysInv(t, Queued(Commit(w)));
    RunKeepsSysInv(u, rest);
    RunEventsKept(u, rest);
    KeyKept(u.events, DoAll(u, rest).events, MarkerKey(k.id));
    KeyIsOneMarker(DoAll(u, rest), k.id);
  }

  /** At most one marker per session is ever written, by any number of interleaved passes. */
  lemma OneMarkerPerSession(s: System, run: seq<Step>, sid: Uuid, a: Uuid, b: Uuid)
    requires Starts(s) && CanAll(s, run)
    requires MarkerOf(DoAll(s, run).events, a, sid) && MarkerOf(DoAll(s, run).events, b, sid)
    ensures a == b && DoAll(s, run).events[a].sessionId == Some(sid) && OneTask(DoAll(s, run).queue.rows, a, sid)
  {
    hide Inv, AllDraftsOk, AllDraftsApart, HasTask, Canonical, OneTask, CanAll, DoAll;
    var t := DoAll(s, run);
    StartInv(s);
    RunKeepsSysInv(s, run);
    assert SameKey(t.events[a], t.events[b]) && OwnKey(t.events[a]);
    NeverTwoTasks(t, a, sid);
  }

  /** Every reachable log meets the condition under which repeated passes converge. */
  lemma ReachableLogsConverge(s: System, run: seq<Step>)
    requires Starts(s) && CanAll(s, run)
    ensures OwnKeys(DoAll(s, run).events)
  {
    hide SysInv, CanAll, DoAll;
    StartInv(s);
    RunKeepsSysInv(s, run);
    LogKeys(DoAll(s, run));
  }
}

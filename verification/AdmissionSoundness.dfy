/** A repair pass marks nobody it should not, admits no more than its limit and leaves out none it should reach. */
module AdmissionSoundness {
  import opened Prelude
  import opened Ordering
  import opened TaskTable
  import opened LeaseProtocol
  import opened BonusSources
  import opened BonusAdmission
  import opened BonusMeaning
  import opened AdmissionProtocol
  import opened AdmissionInvariant
  import opened BonusConfluence
  import opened AdmissionOutcome

  // ---------------------------------------------------------------- every marker has been earned

  function RoomOf(path: Path): nat {
    if path.Repairing? then path.room else 0
  }

  /** The step is a pass's select, which finds the session finished, unscored, without a source and in its turn. */
  ghost predicate Finds(s: System, step: Step, sid: string) {
    step.SelectOrphans? && exists k :: InTurn(Unscored(step.seen, SeenEvents(s, step.w)), k, RoomOf(PathOf(s, step.w))) && k.id == sid
  }

  /** Some select of the run did. */
  ghost predicate Found(s: System, run: seq<Step>, sid: string)
    requires CanAll(s, run)
    decreases |run|
  {
    run != [] && (Finds(s, run[0], sid) || Found(Do(s, run[0]), run[1..], sid))
  }

  ghost predicate LogEarned(events: map<Uuid, Event>, found: iset<string>) {
    forall e, sid :: MarkerOf(events, e, sid) ==> sid in found
  }

  ghost predicate PathEarned(path: Path, found: iset<string>) {
    forall k :: k in OrphansLeft(path) ==> k.id in found
  }

  ghost predicate AllEarned(s: System, found: iset<string>) {
    && LogEarned(s.events, found)
    && forall w :: w in s.queue.txs ==> LogEarned(SeenEvents(s, w), found) && PathEarned(PathOf(s, w), found)
  }

  lemma EarnedParts(a: map<Uuid, Event>, b: map<Uuid, Event>, found: iset<string>)
    ensures LogEarned(a + b, found) ==> LogEarned(b, found)
    ensures LogEarned(a, found) && LogEarned(b, found) ==> LogEarned(a + b, found)
  {
    hide KeyFor;
    if LogEarned(a + b, found) {
      forall e, sid | MarkerOf(b, e, sid) ensures sid in found { assert MarkerOf(a + b, e, sid); }
    }
    if LogEarned(a, found) && LogEarned(b, found) {
      forall e, sid | MarkerOf(a + b, e, sid) ensures sid in found { assert MarkerOf(b, e, sid) || MarkerOf(a, e, sid); }
    }
  }

  lemma ProducerEarnsNothing(events: map<Uuid, Event>, eid: Uuid, ev: Event, found: iset<string>)
    requires LogEarned(events, found) && ProducerKey(ev)
    ensures LogEarned(events[eid := ev], found)
  {
    var after := events[eid := ev];
    forall e, sid | MarkerOf(after, e, sid) ensures sid in found {
      if e != eid { assert MarkerOf(events, e, sid); }
    }
  }

  lemma MarkerIsEarned(events: map<Uuid, Event>, eid: Uuid, owner: Uuid, at: int, received: int, found: iset<string>)
    requires LogEarned(events, found) && owner in found
    ensures LogEarned(events[eid := Marker(owner, at, received)], found)
  {
    var after := events[eid := Marker(owner, at, received)];
    forall e: Uuid, sid: Uuid | MarkerOf(after, e, sid) ensures sid in found {
      if e != eid { assert MarkerOf(events, e, sid); } else { MarkerKeyInjective(owner, sid); }
    }
  }

  lemma SelectEarns(s: System, step: Step, found: iset<string>)
    requires SysInv(s) && Can(s, step) && step.SelectOrphans? && forall sid :: Finds(s, step, sid) ==> sid in found
    ensures PathEarned(Redraft(s, step).path, found)
  {
    hide SysInv, Orphans, First, InTurn, Unscored, SeenEvents;
    var w := step.w;
    forall k | k in First(Orphans(step.seen, SeenEvents(s, w)), PathOf(s, w).room) ensures k.id in found {
      SelectedIsInTurn(step.seen, SeenEvents(s, w), PathOf(s, w).room, k);
      assert Finds(s, step, k.id);
    }
  }

  lemma RedraftEarned(s: System, step: Step, found: iset<string>)
    requires SysInv(s) && Can(s, step) && !step.Queued? && (forall sid :: Finds(s, step, sid) ==> sid in found)
    requires LogEarned(SeenEvents(s, step.w), found) && PathEarned(PathOf(s, step.w), found)
    ensures LogEarned(s.events + Redraft(s, step).events, found) && PathEarned(Redraft(s, step).path, found)
  {
    hide SysInv, LogEarned, Finds, Finished, NewEvent, KeyAwaited, HoldsKey, ProducerKey, Paid, Owes, Enabled, PairInput, Marker;
    hide First, Missing, Orphans, EventTargets, MediaTargets, IsMediaEvent, HandoversHaveSessions;
    var w, draft := step.w, DraftOf(s, step.w);
    match step
    case Record(_, eid, ev) =>
      ProducerEarnsNothing(SeenEvents(s, w), eid, ev, found);
      assert s.events + draft.events[eid := ev] == SeenEvents(s, w)[eid := ev];
    case Admitted(_, e, sid, _) => PaidOrphans(draft.path, e, sid);
    case WriteMarker(_, k, eid, clock, received) =>
      assert k in OrphansLeft(draft.path);
      MarkerIsEarned(SeenEvents(s, w), eid, k.id, clock, received, found);
      assert s.events + draft.events[eid := Marker(k.id, clock, received)] == SeenEvents(s, w)[eid := Marker(k.id, clock, received)];
    case SelectOrphans(_, _) => { SelectEarns(s, step, found); SelectKeepsEvents(s, step); }
    case _ => SelectKeepsEvents(s, step);
  }

  lemma OpenedDraft(s: System, step: Step, w: Worker)
    requires SysInv(s) && Can(s, step) && w !in s.queue.txs && w in Do(s, step).queue.txs
    ensures DraftOf(Do(s, step), w) == Draft(map[], NoPath)
  {
    hide SysInv, Can, Do;
    if step.Queued? && step.l.Commit? { CommitStep(s, step.l.w); }
    else if step.Queued? { QueuedOnly(s, step.l); }
    else if step.Admitted? { AdmittedStep(s, step.w, step.e, step.sid, step.newId); AdmittedOpensNothing(s, step, w); }
    else { DraftStep(s, step); }
  }

  lemma LogStaysEarned(s: System, step: Step, found: iset<string>)
    requires SysInv(s) && Can(s, step) && AllEarned(s, found)
    ensures LogEarned(Do(s, step).events, found)
  {
    hide SysInv, Can, Do, LogEarned, PathEarned, SeenEvents;
    if step.Queued? && step.l.Commit? {
      CommitStep(s, step.l.w);
      CommitterIsOpen(s, step.l.w);
    } else {
      NothingCommitted(s, step);
    }
  }

  lemma CommitterIsOpen(s: System, w: Worker)
    requires Can(s, Queued(Commit(w)))
    ensures w in s.queue.txs
  {}

  lemma WorkerStaysEarned(s: System, step: Step, w: Worker, found: iset<string>)
    requires SysInv(s) && Can(s, step) && AllEarned(s, found) && (forall sid :: Finds(s, step, sid) ==> sid in found)
    requires w in Do(s, step).queue.txs && LogEarned(Do(s, step).events, found)
    ensures LogEarned(SeenEvents(Do(s, step), w), found) && PathEarned(PathOf(Do(s, step), w), found)
  {
    hide SysInv, Can, Do, LogEarned, Finds, Redraft;
    var t := Do(s, step);
    if w !in s.queue.txs {
      OpenedDraft(s, step, w);
      assert SeenEvents(t, w) == t.events;
    } else if step.Queued? || step.w != w {
      OthersPath(s, step, w);
      EarnedParts(s.events, DraftOf(s, w).events, found);
      EarnedParts(t.events, DraftOf(s, w).events, found);
    } else {
      RedraftEarned(s, step, found);
      OwnDraft(s, step);
    }
  }

  lemma StepEarned(s: System, step: Step, found: iset<string>)
    requires SysInv(s) && Can(s, step) && AllEarned(s, found) && (forall sid :: Finds(s, step, sid) ==> sid in found)
    ensures AllEarned(Do(s, step), found)
  {
    hide SysInv, Can, Do, LogEarned, PathEarned, Finds, SeenEvents, PathOf;
    LogStaysEarned(s, step, found);
    forall w | w in Do(s, step).queue.txs ensures LogEarned(SeenEvents(Do(s, step), w), found) && PathEarned(PathOf(Do(s, step), w), found) {
      WorkerStaysEarned(s, step, w, found);
    }
  }

  lemma {:induction false} RunEarned(s: System, run: seq<Step>, found: iset<string>)
    requires SysInv(s) && CanAll(s, run) && AllEarned(s, found) && (forall sid :: Found(s, run, sid) ==> sid in found)
    ensures AllEarned(DoAll(s, run), found)
    decreases |run|
  {
    hide SysInv, Can, Do, AllEarned, Finds;
    if run != [] {
      forall sid | Finds(s, run[0], sid) ensures sid in found { assert Found(s, run, sid); }
      forall sid | Found(Do(s, run[0]), run[1..], sid) ensures sid in found { assert Found(s, run, sid); }
      StepEarned(s, run[0], found);
      StepKeepsSysInv(s, run[0]);
      RunEarned(Do(s, run[0]), run[1..], found);
    }
  }

  lemma StartEarned(s: System, found: iset<string>)
    requires Starts(s)
    ensures AllEarned(s, found)
  {}

  /**
   * A marker in the log of any reachable state is of a session that some pass, at its select, found
   * finished, unscored, without a source, and among the first ones its limit left room for.
   */
  lemma MarkersAreEarned(s: System, run: seq<Step>, e: Uuid, sid: Uuid)
    requires Starts(s) && CanAll(s, run) && e in DoAll(s, run).events
    requires DoAll(s, run).events[e].idempotencyKey == Some("bonus-recovery:" + sid)
    ensures Found(s, run, sid)
  {
    hide SysInv, CanAll, DoAll, Found;
    var found := iset x: string | Found(s, run, x);
    StartInv(s);
    StartEarned(s, found);
    RunEarned(s, run, found);
    assert MarkerOf(DoAll(s, run).events, e, sid);
  }

  // ---------------------------------------------------------------- a pass stays within its limit

  /** The steps by which a worker begins a path. */
  predicate Begins(step: Step, w: Worker) {
    (step.SelectTargets? || step.SelectMedia? || step.SelectMissing?) && step.w == w
  }

  /** What the pass may still admit and mark. */
  function Left(path: Path): nat {
    match path
    case NoPath => 0
    case Admitting(_, _) => 0
    case Repairing(room, pairs) => room + |pairs|
    case Marking(orphans) => |orphans|
    case Adopting(_, _, orphans) => |orphans|
  }

  /** One for the admission of a waiting pair and for a marker, whose own admission is not counted again. */
  function Unit(s: System, step: Step, w: Worker): nat {
    if (step.Admitted? && step.w == w && PathOf(s, w).Repairing?) || (step.WriteMarker? && step.w == w) then 1 else 0
  }

  ghost function Units(s: System, run: seq<Step>, w: Worker): nat
    requires CanAll(s, run)
    decreases |run|
  {
    if run == [] then 0 else Unit(s, run[0], w) + Units(Do(s, run[0]), run[1..], w)
  }

  lemma PaysOne(path: Path, e: Uuid, sid: Uuid)
    requires Owes(path, e, sid)
    ensures Left(Paid(path, e, sid)) + (if path.Repairing? then 1 else 0) <= Left(path)
    ensures Paid(path, e, sid).Repairing? ==> path.Repairing? && Paid(path, e, sid).room == path.room
  {
    if path.Repairing? {
      var k :| k in path.pairs && k.id == e && k.sub == sid;
      var rest := Paid(path, e, sid).pairs;
      assert rest <= path.pairs - {k};
      SizeOfPart(rest, path.pairs - {k});
      OneLess(path.pairs, k);
    }
  }

  lemma MarksOne(orphans: set<SortKey>, k: SortKey)
    requires k in orphans
    ensures |orphans - {k}| + 1 == |orphans|
  {
    OneLess(orphans, k);
  }

  lemma RedraftSpends(s: System, step: Step)
    requires Can(s, step) && !step.Queued? && !Begins(step, step.w)
    ensures var path, path' := PathOf(s, step.w), Redraft(s, step).path;
      && Left(path') + Unit(s, step, step.w) <= Left(path)
      && (path'.Repairing? ==> path.Repairing? && path'.room == path.room)
      && (path.Repairing? && !step.SelectOrphans? ==> path'.Repairing?)
  {
    hide Finished, NewEvent, KeyAwaited, HoldsKey, ProducerKey, Paid, Owes, Enabled, PairInput, Marker, Orphans, First, Left, SeenEvents;
    var path := PathOf(s, step.w);
    match step
    case Admitted(_, e, sid, _) => { PaysOne(path, e, sid); StillRepairs(path, e, sid); }
    case WriteMarker(_, k, _, _, _) => { MarksOne(path.orphans, k); LeftOf(path); LeftOf(Redraft(s, step).path); }
    case SelectOrphans(w, seen) => {
      FirstIsPart(Orphans(seen, SeenEvents(s, w)), path.room);
      LeftOf(path);
      LeftOf(Redraft(s, step).path);
    }
    case _ => {}
  }

  lemma StillRepairs(path: Path, e: Uuid, sid: Uuid)
    requires Owes(path, e, sid)
    ensures path.Repairing? ==> Paid(path, e, sid).Repairing?
  {}

  lemma LeftOf(path: Path)
    ensures path.Repairing? ==> Left(path) == path.room + |path.pairs|
    ensures path.Marking? || path.Adopting? ==> Left(path) == |path.orphans|
  {}

  lemma StepSpends(s: System, step: Step, w: Worker)
    requires SysInv(s) && Can(s, step) && w in s.queue.txs && w in Do(s, step).queue.txs && !Begins(step, w)
    ensures var path, path' := PathOf(s, w), PathOf(Do(s, step), w);
      && Left(path') + Unit(s, step, w) <= Left(path)
      && (path'.Repairing? ==> path.Repairing? && path'.room == path.room)
      && (path.Repairing? && !(step.SelectOrphans? && step.w == w) ==> path'.Repairing?)
  {
    hide SysInv, Can, Do, Left, Redraft, Finished;
    if step.Queued? || step.w != w {
      OthersPath(s, step, w);
    } else {
      RedraftSpends(s, step);
      OwnDraft(s, step);
    }
  }

  /** Along a transaction that begins no other path, the pass spends what it has and keeps its room. */
  lemma {:induction false} RunSpends(s: System, run: seq<Step>, w: Worker)
    requires SysInv(s) && CanAll(s, run) && StaysOpen(s, run, w) && forall step :: step in run ==> !Begins(step, w)
    ensures var path, path' := PathOf(s, w), PathOf(DoAll(s, run), w);
      && Left(path') + Units(s, run, w) <= Left(path)
      && (path'.Repairing? ==> path.Repairing? && path'.room == path.room)
      && (path.Repairing? && (forall step :: step in run ==> !(step.SelectOrphans? && step.w == w)) ==> path'.Repairing?)
    decreases |run|
  {
    hide SysInv, Can, Do, Left, Unit, Begins;
    if run != [] {
      assert run[0] in run && forall step :: step in run[1..] ==> step in run;
      OpenNext(s, run, w);
      StepSpends(s, run[0], w);
      StepKeepsSysInv(s, run[0]);
      RunSpends(Do(s, run[0]), run[1..], w);
    }
  }

  /** The pass begins with the first waiting pairs and, for markers, with what they leave of the limit. */
  lemma PassBegins(s: System, w: Worker, limit: nat, seen: World)
    requires SysInv(s) && Can(s, SelectMissing(w, limit, seen)) && w in s.queue.txs
    ensures var path := PathOf(Do(s, SelectMissing(w, limit, seen)), w);
      && path.Repairing? && Left(path) == limit
      && path.room == limit - Min(limit, |Backlog(seen, SeenEvents(s, w), SeenRows(s, w))|)
  {
    hide SysInv, Do, Missing, Backlog, First, Finished, SeenEvents, SeenRows;
    var step := SelectMissing(w, limit, seen);
    DraftStep(s, step);
    PendingIsInTurn(seen, SeenEvents(s, w), SeenRows(s, w), limit, SortKey(0, "", ""));
  }

  /** From its select on a pass admits and marks no more than its limit, whatever the others do. */
  lemma PassIsBounded(s: System, w: Worker, limit: nat, seen: World, run: seq<Step>)
    requires SysInv(s) && Can(s, SelectMissing(w, limit, seen)) && w in s.queue.txs && CanAll(Do(s, SelectMissing(w, limit, seen)), run)
    requires StaysOpen(Do(s, SelectMissing(w, limit, seen)), run, w) && forall step :: step in run ==> !Begins(step, w)
    ensures Units(Do(s, SelectMissing(w, limit, seen)), run, w) <= limit
  {
    hide SysInv, Can, Do, CanAll, DoAll, StaysOpen, Units, Left, Backlog, Begins;
    StepKeepsSysInv(s, SelectMissing(w, limit, seen));
    PassBegins(s, w, limit, seen);
    RunSpends(Do(s, SelectMissing(w, limit, seen)), run, w);
  }

  /**
   * A pass that saw fewer waiting pairs than its limit goes on to its second select before it can
   * commit, with exactly the rest of its limit.
   */
  lemma PassGoesOn(s: System, w: Worker, limit: nat, seen: World, run: seq<Step>)
    requires SysInv(s) && Can(s, SelectMissing(w, limit, seen)) && w in s.queue.txs && CanAll(Do(s, SelectMissing(w, limit, seen)), run)
    requires StaysOpen(Do(s, SelectMissing(w, limit, seen)), run, w) && forall step :: step in run ==> !Begins(step, w)
    requires |Backlog(seen, SeenEvents(s, w), SeenRows(s, w))| < limit
    requires Can(DoAll(Do(s, SelectMissing(w, limit, seen)), run), Queued(Commit(w)))
    ensures exists step :: step in run && step.SelectOrphans? && step.w == w
  {
    hide SysInv, Do, CanAll, DoAll, StaysOpen, Units, Left, Backlog, Begins, Enabled, SeenEvents, SeenRows;
    StepKeepsSysInv(s, SelectMissing(w, limit, seen));
    PassBegins(s, w, limit, seen);
    RunSpends(Do(s, SelectMissing(w, limit, seen)), run, w);
  }

  /**
   * When a pass commits, however passes raced, every unscored finished session without a source that
   * its second select saw, among the first ones the rest of its limit has room for, has exactly one
   * marker and that marker exactly one task, for good.
   */
  lemma PassMarksItsSessions(s: System, w: Worker, limit: nat, seen: World, first: seq<Step>, later: World, run: seq<Step>, rest: seq<Step>, k: SortKey)
    requires SysInv(s) && Can(s, SelectMissing(w, limit, seen)) && w in s.queue.txs && CanAll(Do(s, SelectMissing(w, limit, seen)), first)
    requires StaysOpen(Do(s, SelectMissing(w, limit, seen)), first, w) && forall step :: step in first ==> !Begins(step, w)
    requires var t := DoAll(Do(s, SelectMissing(w, limit, seen)), first);
      && Can(t, SelectOrphans(w, later)) && Commits(Do(t, SelectOrphans(w, later)), run, w, rest)
      && InTurn(Unscored(later, SeenEvents(t, w)), k, limit - Min(limit, |Backlog(seen, SeenEvents(s, w), SeenRows(s, w))|))
    ensures var t := DoAll(Do(s, SelectMissing(w, limit, seen)), first);
      |k.id| == 36 && OneMarker(Outcome(Do(t, SelectOrphans(w, later)), run, w, rest), k.id)
  {
    hide SysInv, Do, CanAll, DoAll, StaysOpen, Units, Left, Backlog, Unscored, Begins, Enabled, SeenEvents, SeenRows, Commits, Outcome, OneMarker, InTurn;
    var s1 := Do(s, SelectMissing(w, limit, seen));
    StepKeepsSysInv(s, SelectMissing(w, limit, seen));
    PassBegins(s, w, limit, seen);
    RunSpends(s1, first, w);
    RunKeepsSysInv(s1, first);
    RepairMarksItsOrphans(DoAll(s1, first), w, PathOf(DoAll(s1, first), w).room, later, run, rest, k);
  }
}

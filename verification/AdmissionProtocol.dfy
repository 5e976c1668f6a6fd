/**
 * The admission paths as transactions. Live, media and repair admission are statements of workers
 * that interleave with each other, with all other producers and with the whole task queue. Each
 * SELECT sees the committed log and tables and its own transaction's writes at its own instant;
 * whatever happens between it and the enqueues that follow is up to the others.
 */
module AdmissionProtocol {
  import opened Prelude
  import opened Ordering
  import opened TaskTable
  import opened LeaseProtocol
  import opened BonusSources
  import opened BonusAdmission

  /** How far a transaction's path has come: what its loops have not reached yet. */
  datatype Path =
    | NoPath
    | Admitting(event: Uuid, sessions: set<Uuid>)                 // live and media admission
    | Repairing(room: nat, pairs: set<SortKey>)                   // first loop of a pass; room is left for markers
    | Marking(orphans: set<SortKey>)                              // second loop of a pass
    | Adopting(marker: Uuid, owner: Uuid, orphans: set<SortKey>)  // marker written, its task is next

  /** An open transaction's uncommitted events and its path. */
  datatype Draft = Draft(events: map<Uuid, Event>, path: Path)

  /** The task queue, the committed event log and the drafts of open transactions. */
  datatype System = System(queue: State, events: map<Uuid, Event>, drafts: map<Worker, Draft>)

  /** Every select carries the other tables as it sees them. */
  datatype Step =
    | Queued(l: Label)                                            // any statement of the queue protocol
    | Record(w: Worker, eid: Uuid, ev: Event)                     // a producer records an event
    | SelectTargets(w: Worker, eid: Uuid, seen: World)            // live admission of an event
    | SelectMedia(w: Worker, mediaId: Uuid, eid: Uuid, seen: World)
    | SelectMissing(w: Worker, limit: int, seen: World)           // a repair pass starts
    | SelectOrphans(w: Worker, seen: World)
    | Admitted(w: Worker, e: Uuid, sid: Uuid, newId: Uuid)        // the enqueue of one pair of the path
    | WriteMarker(w: Worker, k: SortKey, eid: Uuid, clock: int, received: int)

  function DraftOf(s: System, w: Worker): Draft {
    if w in s.drafts then s.drafts[w] else Draft(map[], NoPath)
  }

  function PathOf(s: System, w: Worker): Path {
    DraftOf(s, w).path
  }

  function SeenEvents(s: System, w: Worker): map<Uuid, Event> {
    s.events + DraftOf(s, w).events
  }

  function SeenRows(s: System, w: Worker): map<Uuid, Row>
    requires w in s.queue.txs
  {
    Visible(s.queue.rows, s.queue.txs[w])
  }

  /** The path still has to enqueue this pair. */
  predicate Owes(path: Path, e: Uuid, sid: Uuid) {
    || (path.Admitting? && e == path.event && sid in path.sessions)
    || (path.Repairing? && exists k :: k in path.pairs && k.id == e && k.sub == sid)
    || (path.Adopting? && e == path.marker && sid == path.owner)
  }

  function Paid(path: Path, e: Uuid, sid: Uuid): Path
    requires Owes(path, e, sid)
  {
    match path
    case Admitting(event, sessions) => Admitting(event, sessions - {sid})
    case Repairing(room, pairs) => Repairing(room, set k | k in pairs && !(k.id == e && k.sub == sid))
    case Adopting(_, _, orphans) => Marking(orphans)
  }

  /** The path's function has returned. */
  predicate Finished(path: Path) {
    || path.NoPath?
    || (path.Admitting? && path.sessions == {})
    || (path.Repairing? && path.pairs == {} && path.room == 0)
    || (path.Marking? && path.orphans == {})
  }

  /** Between its statements: a producer's transaction, or the effect of a running task. */
  predicate Writes(s: System, w: Worker) {
    w in s.queue.txs && (s.queue.txs[w].phase.Source? || s.queue.txs[w].phase.RunChecked?)
  }

  ghost predicate NewEvent(s: System, eid: Uuid) {
    eid !in s.events && forall v :: v in s.drafts ==> eid !in s.drafts[v].events
  }

  /** The unique index on keys makes an insert wait for another transaction's uncommitted event. */
  ghost predicate KeyAwaited(s: System, w: Worker, key: string) {
    exists v :: v in s.drafts && v != w && HoldsKey(s.drafts[v].events, key)
  }

  /** Producers' keys are made of other prefixes; only the repair pass writes marker keys. */
  ghost predicate ProducerKey(ev: Event) {
    forall sid: Uuid :: ev.idempotencyKey != Some(MarkerKey(sid))
  }

  /** Other producers' tasks are of other kinds and under other keys. */
  ghost predicate OtherTask(input: TaskInput) {
    ValidInput(input) ==> !input.kind.BonusRecalculate? && !IsBonusKey(input.dedupeKey)
  }

  function PairInput(s: System, w: Worker, e: Uuid, sid: Uuid): TaskInput
    requires e in SeenEvents(s, w)
  {
    BonusInput(e, sid, SeenEvents(s, w)[e].occurredAt)
  }

  predicate Refused(rows: map<Uuid, Row>, input: TaskInput) {
    !Creates(rows, input) && !(ValidInput(input) && Holds(rows, IntentOf(input)))
  }

  ghost predicate Can(s: System, step: Step) {
    match step
    case Queued(l) =>
      && Enabled(s.queue, l)
      && (l.Enqueue? ==> OtherTask(l.input))
      && (l.Commit? ==> Finished(PathOf(s, l.w)))
    case Record(w, eid, ev) =>
      && Writes(s, w) && Finished(PathOf(s, w)) && NewEvent(s, eid) && ProducerKey(ev)
      && (ev.idempotencyKey.Some? ==>
            !HoldsKey(SeenEvents(s, w), ev.idempotencyKey.value) && !KeyAwaited(s, w, ev.idempotencyKey.value))
    case SelectTargets(w, eid, seen) => Writes(s, w) && Finished(PathOf(s, w)) && eid in SeenEvents(s, w)
    case SelectMedia(w, mediaId, eid, seen) =>
      && Writes(s, w) && Finished(PathOf(s, w)) && HandoversHaveSessions(seen)
      && eid in SeenEvents(s, w) && IsMediaEvent(SeenEvents(s, w)[eid], mediaId)
    case SelectMissing(w, limit, seen) => Writes(s, w) && Finished(PathOf(s, w)) && Bounded(limit, MAX_RECOVERY)
    case SelectOrphans(w, seen) =>
      Writes(s, w) && PathOf(s, w).Repairing? && PathOf(s, w).pairs == {} && PathOf(s, w).room > 0
    case Admitted(w, e, sid, newId) =>
      && w in s.queue.txs && Owes(PathOf(s, w), e, sid) && e in SeenEvents(s, w)
      && Enabled(s.queue, Enqueue(w, PairInput(s, w, e, sid), newId))
    case WriteMarker(w, k, eid, clock, received) =>
      && Writes(s, w) && PathOf(s, w).Marking? && k in PathOf(s, w).orphans && |k.id| == 36
      && NewEvent(s, eid) && !KeyAwaited(s, w, MarkerKey(k.id))
  }

  /** The statement of the queue a step issues, if any; a refused enqueue throws and rolls back. */
  ghost function LabelOf(s: System, step: Step): Option<Label>
    requires Can(s, step)
  {
    match step
    case Queued(l) => Some(l)
    case Admitted(w, e, sid, newId) =>
      if Refused(SeenRows(s, w), PairInput(s, w, e, sid)) then Some(Abort(w))
      else Some(Enqueue(w, PairInput(s, w, e, sid), newId))
    case _ => None
  }

  /** What the worker's own draft becomes. */
  ghost function Redraft(s: System, step: Step): Draft
    requires Can(s, step) && !step.Queued?
  {
    var draft := DraftOf(s, step.w);
    match step
    case Record(_, eid, ev) => draft.(events := draft.events[eid := ev])
    case SelectTargets(w, eid, seen) => draft.(path := Admitting(eid, EventTargets(seen, SeenEvents(s, w)[eid])))
    case SelectMedia(_, mediaId, eid, seen) => draft.(path := Admitting(eid, MediaTargets(seen, mediaId)))
    case SelectMissing(w, limit, seen) =>
      var pairs := First(Missing(seen, SeenEvents(s, w), SeenRows(s, w)), limit);
      draft.(path := Repairing(if |pairs| <= limit then limit - |pairs| else 0, pairs))
    case SelectOrphans(w, seen) => draft.(path := Marking(First(Orphans(seen, SeenEvents(s, w)), draft.path.room)))
    case Admitted(_, e, sid, _) => draft.(path := Paid(draft.path, e, sid))
    case WriteMarker(w, k, eid, clock, received) =>
      var rest := draft.path.orphans - {k};
      if HoldsKey(SeenEvents(s, w), MarkerKey(k.id)) then draft.(path := Marking(rest))
      else Draft(draft.events[eid := Marker(k.id, clock, received)], Adopting(eid, k.id, rest))
  }

  /** Drafts of transactions that are over are gone. */
  function Open(drafts: map<Worker, Draft>, txs: map<Worker, Tx>): map<Worker, Draft> {
    map v | v in drafts && v in txs :: drafts[v]
  }

  ghost function NextQueue(s: System, step: Step): State
    requires Can(s, step)
  {
    match LabelOf(s, step)
    case None => s.queue
    case Some(l) => Apply(s.queue, l)
  }

  ghost function Do(s: System, step: Step): System
    requires Can(s, step)
  {
    var queue := NextQueue(s, step);
    if step.Queued? then
      System(queue, if step.l.Commit? then SeenEvents(s, step.l.w) else s.events, Open(s.drafts, queue.txs))
    else
      System(queue, s.events, Open(s.drafts[step.w := Redraft(s, step)], queue.txs))
  }

  ghost predicate CanAll(s: System, run: seq<Step>)
    decreases |run|
  {
    run == [] || (Can(s, run[0]) && CanAll(Do(s, run[0]), run[1..]))
  }

  ghost function DoAll(s: System, run: seq<Step>): System
    requires CanAll(s, run)
    decreases |run|
  {
    if run == [] then s else DoAll(Do(s, run[0]), run[1..])
  }

  ghost predicate Starts(s: System) {
    Initial(s.queue) && s.events == map[] && s.drafts == map[]
  }
}

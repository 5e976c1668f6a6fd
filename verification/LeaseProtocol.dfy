/**
 * Transactions over the task table, one label per SQL statement. Any number of workers interleave
 * their statements under read committed: a statement sees committed rows and its own transaction's
 * writes, FOR NO KEY UPDATE waits for a row lock (the label is not enabled while another
 * transaction holds it), SKIP LOCKED passes over locked rows, and locks end with the transaction.
 */
module LeaseProtocol {
  import opened Prelude
  import opened Ordering
  import opened TaskTable

  type Worker = nat

  /** How far a worker's open transaction has come. */
  datatype Phase =
    | Source                                                                  // a producer's transaction
    | ClaimSelected(ids: set<Uuid>, leaseMs: int)                             // candidates locked
    | ClaimUpdated(ids: set<Uuid>, leaseMs: int, at: int, tokens: map<Uuid, Uuid>)
    | RunLocked(lease: Identity)                                              // row lock acquired
    | RunChecked(lease: Identity)                                             // lease verified, effect running
    | RunStaged(lease: Identity)                                              // effect written
    | RunCompleted(lease: Identity, at: int)                                  // completion written
    | RetryLocked(lease: Identity, ms: int, code: ErrorCode)
    | RetryUpdated(lease: Identity, ms: int, code: ErrorCode, at: int)
    | RenewLocked(lease: Identity, ms: int)
    | RenewUpdated(lease: Identity, ms: int, at: int)
  {
    predicate Named() {
      !Source? && !ClaimSelected? && !ClaimUpdated?
    }
  }

  /** An open transaction: its row locks and its uncommitted inserts and updates. */
  datatype Tx = Tx(phase: Phase, locks: set<Uuid>, inserts: map<Uuid, Row>, updates: map<Uuid, Row>)

  /**
   * The database. rows is what is committed. claims and effects log, for every task, the committed
   * claims that included it and the committed runs of its effect; tokens are all tokens ever drawn.
   */
  datatype State = State(
    now: int, rows: map<Uuid, Row>, txs: map<Worker, Tx>,
    claims: multiset<Uuid>, effects: multiset<Uuid>, tokens: set<Uuid>)

  datatype Label =
    | Tick(d: nat)
    | OpenSource(w: Worker)
    | Enqueue(w: Worker, input: TaskInput, newId: Uuid)
    | ClaimSelect(w: Worker, kinds: seq<Kind>, limit: int, leaseMs: int)
    | ClaimUpdate(w: Worker, tokens: map<Uuid, Uuid>)
    | RunLock(w: Worker, lease: Identity)
    | RunCheck(w: Worker)
    | RunStage(w: Worker)
    | RunComplete(w: Worker)
    | RetryLock(w: Worker, lease: Identity, ms: int, code: ErrorCode)
    | RetryUpdate(w: Worker)
    | RenewLock(w: Worker, lease: Identity, ms: int)
    | RenewUpdate(w: Worker)
    | Commit(w: Worker)
    | Abort(w: Worker)  // an error, a crash or a lost connection

  /** The tokens a claim's update has drawn. */
  function DrawnBy(phase: Phase): set<Uuid> {
    if phase.ClaimUpdated? then phase.tokens.Values else {}
  }

  /** Rows some transaction holds a lock on. */
  predicate LockedBy(txs: map<Worker, Tx>, id: Uuid) {
    exists w :: w in txs && id in txs[w].locks
  }

  predicate Locked(s: State, id: Uuid) {
    LockedBy(s.txs, id)
  }

  /** Identifiers inserted by a transaction that has not committed. */
  ghost predicate Unborn(s: State, id: Uuid) {
    exists w :: w in s.txs && id in s.txs[w].inserts
  }

  /** Identifiers named by the lease of an open transaction. */
  ghost predicate Mentioned(s: State, id: Uuid) {
    exists w :: w in s.txs && s.txs[w].phase.Named() && s.txs[w].phase.lease.id == id
  }

  /** The unique indexes make an insert wait for another transaction's uncommitted insert. */
  ghost predicate MustWait(s: State, w: Worker, intent: Intent) {
    exists v :: v in s.txs && v != w && Taken(s.txs[v].inserts, intent)
  }

  /** What the transaction's own statements see. */
  function Visible(rows: map<Uuid, Row>, tx: Tx): map<Uuid, Row> {
    rows + tx.inserts
  }

  function TaskKey(rows: map<Uuid, Row>, id: Uuid): SortKey
    requires id in rows
  {
    SortKey(rows[id].availableAt, id, "")
  }

  /** Rows a claim may return, by the columns it orders them by. */
  function EligibleRows(now: int, rows: map<Uuid, Row>, txs: map<Worker, Tx>, kinds: seq<Kind>): set<SortKey> {
    set id | id in rows && rows[id].intent.kind in kinds && Claimable(rows[id], now) && !LockedBy(txs, id)
      :: TaskKey(rows, id)
  }

  function CandidateRows(now: int, rows: map<Uuid, Row>, txs: map<Worker, Tx>, kinds: seq<Kind>, limit: nat): (ids: set<Uuid>)
    ensures forall id :: id in ids ==> id in rows && Claimable(rows[id], now) && !LockedBy(txs, id)
  {
    set id | id in rows && TaskKey(rows, id) in First(EligibleRows(now, rows, txs, kinds), limit)
  }

  function Eligible(s: State, kinds: seq<Kind>): set<SortKey> {
    EligibleRows(s.now, s.rows, s.txs, kinds)
  }

  function Candidates(s: State, kinds: seq<Kind>, limit: nat): set<Uuid> {
    CandidateRows(s.now, s.rows, s.txs, kinds, limit)
  }

  ghost predicate CanLock(s: State, w: Worker, lease: Identity) {
    w !in s.txs && !Locked(s, lease.id) && !Unborn(s, lease.id)
  }

  predicate FreshTokens(s: State, ids: set<Uuid>, tokens: map<Uuid, Uuid>) {
    tokens.Keys == ids && forall id :: id in ids ==> tokens[id] !in s.tokens
  }

  predicate Committable(phase: Phase) {
    || phase.Source? || phase.ClaimUpdated? || phase.RunCompleted? || phase.RetryUpdated? || phase.RenewUpdated?
    || (phase.ClaimSelected? && phase.ids == {})
  }

  ghost predicate Enabled(s: State, l: Label) {
    match l
    case Tick(_) => true
    case OpenSource(w) => w !in s.txs
    case Enqueue(w, input, newId) =>
      && w in s.txs && (s.txs[w].phase.Source? || s.txs[w].phase.RunChecked?)
      && (ValidInput(input) ==> !MustWait(s, w, IntentOf(input)))
      && newId !in s.rows && !Unborn(s, newId) && !Mentioned(s, newId)
    case ClaimSelect(w, kinds, limit, leaseMs) =>
      w !in s.txs && ValidKinds(kinds) && Bounded(limit, MAX_CLAIM) && Bounded(leaseMs, MAX_LEASE_MS)
    case ClaimUpdate(w, tokens) =>
      && w in s.txs && s.txs[w].phase.ClaimSelected? && s.txs[w].phase.ids != {}
      && s.txs[w].phase.ids <= s.rows.Keys && FreshTokens(s, s.txs[w].phase.ids, tokens)
    case RunLock(w, lease) => CanLock(s, w, lease)
    case RunCheck(w) => w in s.txs && s.txs[w].phase.RunLocked?
    case RunStage(w) => w in s.txs && s.txs[w].phase.RunChecked?
    case RunComplete(w) => w in s.txs && s.txs[w].phase.RunStaged?
    case RetryLock(w, lease, ms, code) => CanLock(s, w, lease) && Bounded(ms, MAX_RETRY_MS) && !code.UnknownCode?
    case RetryUpdate(w) => w in s.txs && s.txs[w].phase.RetryLocked?
    case RenewLock(w, lease, ms) => CanLock(s, w, lease) && Bounded(ms, MAX_LEASE_MS)
    case RenewUpdate(w) => w in s.txs && s.txs[w].phase.RenewLocked?
    case Commit(w) => w in s.txs && Committable(s.txs[w].phase)
    case Abort(w) => w in s.txs
  }

  function Put(s: State, w: Worker, tx: Tx): State {
    s.(txs := s.txs[w := tx])
  }

  function End(s: State, w: Worker): State {
    s.(txs := s.txs - {w})
  }

  function LockFor(s: State, id: Uuid): set<Uuid> {
    if id in s.rows then {id} else {}
  }

  function ClaimUpdates(rows: map<Uuid, Row>, phase: Phase): map<Uuid, Row>
    requires phase.ClaimUpdated? && phase.ids <= rows.Keys && phase.tokens.Keys == phase.ids
  {
    map id | id in phase.ids :: ClaimedRow(rows[id], phase.tokens[id], phase.at + phase.leaseMs * MILLISECOND)
  }

  predicate Opens(l: Label) {
    l.OpenSource? || l.ClaimSelect? || l.RunLock? || l.RetryLock? || l.RenewLock?
  }

  predicate Progresses(l: Label) {
    l.ClaimUpdate? || l.RunCheck? || l.RunStage? || l.RunComplete? || l.RetryUpdate? || l.RenewUpdate?
  }

  /** The first statement of a transaction: lock the candidates or the named row. */
  ghost function Opened(s: State, l: Label): Tx
    requires Enabled(s, l) && Opens(l)
  {
    match l
    case OpenSource(_) => Tx(Source, {}, map[], map[])
    case ClaimSelect(_, kinds, limit, leaseMs) =>
      var ids := Candidates(s, kinds, limit);
      Tx(ClaimSelected(ids, leaseMs), ids, map[], map[])
    case RunLock(_, lease) => Tx(RunLocked(lease), LockFor(s, lease.id), map[], map[])
    case RetryLock(_, lease, ms, code) => Tx(RetryLocked(lease, ms, code), LockFor(s, lease.id), map[], map[])
    case RenewLock(_, lease, ms) => Tx(RenewLocked(lease, ms), LockFor(s, lease.id), map[], map[])
  }

  /** The statements that follow the lock. None: the statement threw and the transaction rolled back. */
  ghost function Progressed(s: State, l: Label): Option<Tx>
    requires Enabled(s, l) && Progresses(l)
  {
    var tx := s.txs[l.w];
    match l
    case ClaimUpdate(_, tokens) =>
      var phase := ClaimUpdated(tx.phase.ids, tx.phase.leaseMs, s.now, tokens);
      Some(tx.(phase := phase, updates := ClaimUpdates(s.rows, phase)))
    case RunCheck(_) =>
      if LeaseHolds(s.rows, tx.phase.lease, s.now) then Some(tx.(phase := RunChecked(tx.phase.lease))) else None
    case RunStage(_) => Some(tx.(phase := RunStaged(tx.phase.lease)))
    case RunComplete(_) =>
      var lease := tx.phase.lease;
      if LeaseHolds(s.rows, lease, s.now)
      then Some(tx.(phase := RunCompleted(lease, s.now), updates := map[lease.id := CompletedRow(s.rows[lease.id], s.now)]))
      else None
    case RetryUpdate(_) =>
      var RetryLocked(lease, ms, code) := tx.phase;
      Some(tx.(phase := RetryUpdated(lease, ms, code, s.now),
               updates := if LeaseHolds(s.rows, lease, s.now)
               then map[lease.id := RetriedRow(s.rows[lease.id], s.now, ms, code)] else map[]))
    case RenewUpdate(_) =>
      var RenewLocked(lease, ms) := tx.phase;
      Some(tx.(phase := RenewUpdated(lease, ms, s.now),
               updates := if LeaseHolds(s.rows, lease, s.now)
               then map[lease.id := RenewedRow(s.rows[lease.id], s.now, ms)] else map[]))
  }

  function Drawn(l: Label): set<Uuid> {
    if l.ClaimUpdate? then l.tokens.Values else {}
  }

  function Committed(s: State, w: Worker): State
    requires w in s.txs
  {
    var tx := s.txs[w];
    End(s, w).(
      rows := s.rows + tx.updates + tx.inserts,
      claims := if tx.phase.ClaimUpdated? then s.claims + multiset(tx.phase.ids) else s.claims,
      effects := if tx.phase.RunCompleted? then s.effects + multiset{tx.phase.lease.id} else s.effects)
  }

  ghost function Enqueued(s: State, w: Worker, input: TaskInput, newId: Uuid): State
    requires w in s.txs
  {
    var tx := s.txs[w];
    if Creates(Visible(s.rows, tx), input) then Put(s, w, tx.(inserts := Plus(tx.inserts, input, newId))) else s
  }

  ghost function Apply(s: State, l: Label): State
    requires Enabled(s, l)
  {
    if l.Tick? then s.(now := s.now + l.d)
    else if Opens(l) then Put(s, l.w, Opened(s, l))
    else if Progresses(l) then
      match Progressed(s, l)
      case None => End(s, l.w)
      case Some(tx) => Put(s, l.w, tx).(tokens := s.tokens + Drawn(l))
    else if l.Enqueue? then Enqueued(s, l.w, l.input, l.newId)
    else if l.Commit? then Committed(s, l.w)
    else End(s, l.w)
  }

  lemma CommitApplies(s: State, w: Worker)
    requires w in s.txs
    ensures Enabled(s, Commit(w)) <==> Committable(s.txs[w].phase)
    ensures Enabled(s, Commit(w)) ==> Apply(s, Commit(w)) == Committed(s, w)
  {}

  /** The labels can be taken one after another. */
  ghost predicate Possible(s: State, run: seq<Label>)
    decreases |run|
  {
    run == [] || (Enabled(s, run[0]) && Possible(Apply(s, run[0]), run[1..]))
  }

  ghost function After(s: State, run: seq<Label>): State
    requires Possible(s, run)
    decreases |run|
  {
    if run == [] then s else After(Apply(s, run[0]), run[1..])
  }

  ghost predicate Initial(s: State) {
    s.rows == map[] && s.txs == map[] && s.claims == multiset{} && s.effects == multiset{} && s.tokens == {}
  }

  /** The worker whose statement a label is; the clock's labels belong to nobody. */
  predicate By(l: Label, w: Worker) {
    !l.Tick? && l.w == w
  }
}

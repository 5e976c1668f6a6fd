/** The invariant of the task table and of every open transaction, kept by every label. */
module LeaseInvariant {
  import opened Prelude
  import opened TaskTable
  import opened LeaseProtocol

  /** A row on its own: state and lease columns agree, nothing runs early, leases are bounded. */
  predicate RowShape(row: Row, now: int) {
    && (row.status == Running <==> row.leaseToken.Some?)
    && (row.status == Running <==> row.leaseUntil.Some?)
    && (row.status == Completed <==> row.completedAt.Some?)
    && (row.status != Pending ==> row.attempts > 0 && row.intent.dueAt <= now)
    && row.availableAt >= row.intent.dueAt
    && (row.leaseUntil.Some? ==> row.leaseUntil.value <= now + MAX_LEASE_MS * MILLISECOND)
    && (row.completedAt.Some? ==> row.completedAt.value <= now)
    && IntentChecks(row.intent) && (row.lastErrorCode.Some? ==> !row.lastErrorCode.value.UnknownCode?)
  }

  /** The row agrees with the log: one claim per attempt, one effect exactly when completed. */
  predicate RowLogged(s: State, id: Uuid)
    requires id in s.rows
  {
    && s.rows[id].attempts == s.claims[id]
    && s.effects[id] == (if s.rows[id].status == Completed then 1 else 0)
    && (s.rows[id].leaseToken.Some? ==> s.rows[id].leaseToken.value in s.tokens)
  }

  predicate RowsOk(s: State) {
    && (forall id :: id in s.rows ==> RowShape(s.rows[id], s.now) && RowLogged(s, id))
    && (forall id :: id in s.claims ==> id in s.rows)
    && (forall id :: id in s.effects ==> id in s.rows)
    && Unique(s.rows)
  }

  /** What a transaction knows at its program counter, thanks to the locks it holds. */
  predicate PhaseOk(rows: map<Uuid, Row>, now: int, tokens: set<Uuid>, tx: Tx) {
    match tx.phase
    case Source => tx.locks == {} && tx.updates == map[]
    case ClaimSelected(ids, leaseMs) =>
      && tx.locks == ids <= rows.Keys && tx.updates == map[] && Bounded(leaseMs, MAX_LEASE_MS)
      && (forall id :: id in ids ==> Claimable(rows[id], now))
    case ClaimUpdated(ids, leaseMs, at, drawn) =>
      && tx.locks == ids <= rows.Keys && drawn.Keys == ids && drawn.Values <= tokens
      && Bounded(leaseMs, MAX_LEASE_MS) && at <= now
      && tx.updates == ClaimUpdates(rows, tx.phase)
      && (forall id :: id in ids ==> Claimable(rows[id], at) && rows[id].leaseToken != Some(drawn[id]))
    case RunLocked(lease) => tx.locks == (if lease.id in rows then {lease.id} else {}) && tx.updates == map[]
    case RunChecked(lease) => tx.locks == {lease.id} && tx.updates == map[] && OwnedBy(rows, lease)
    case RunStaged(lease) => tx.locks == {lease.id} && tx.updates == map[] && OwnedBy(rows, lease)
    case RunCompleted(lease, at) =>
      && tx.locks == {lease.id} && at <= now && LeaseHolds(rows, lease, at)
      && tx.updates == map[lease.id := CompletedRow(rows[lease.id], at)]
    case RetryLocked(lease, ms, code) =>
      && tx.locks == (if lease.id in rows then {lease.id} else {}) && tx.updates == map[] && Bounded(ms, MAX_RETRY_MS) && !code.UnknownCode?
    case RetryUpdated(lease, ms, code, at) =>
      && tx.locks == (if lease.id in rows then {lease.id} else {}) && at <= now && Bounded(ms, MAX_RETRY_MS) && !code.UnknownCode?
      && (LeaseHolds(rows, lease, at) ==> tx.updates == map[lease.id := RetriedRow(rows[lease.id], at, ms, code)])
      && (!LeaseHolds(rows, lease, at) ==> tx.updates == map[])
    case RenewLocked(lease, ms) =>
      && tx.locks == (if lease.id in rows then {lease.id} else {}) && tx.updates == map[] && Bounded(ms, MAX_LEASE_MS)
    case RenewUpdated(lease, ms, at) =>
      && tx.locks == (if lease.id in rows then {lease.id} else {}) && at <= now && Bounded(ms, MAX_LEASE_MS)
      && (LeaseHolds(rows, lease, at) ==> tx.updates == map[lease.id := RenewedRow(rows[lease.id], at, ms)])
      && (!LeaseHolds(rows, lease, at) ==> tx.updates == map[])
  }

  predicate MayInsert(phase: Phase) {
    phase.Source? || phase.RunChecked? || phase.RunStaged? || phase.RunCompleted?
  }

  /** Uncommitted inserts are new rows that no unique index rejects. */
  predicate InsertsOk(rows: map<Uuid, Row>, tx: Tx) {
    && (tx.inserts != map[] ==> MayInsert(tx.phase))
    && (forall id :: id in tx.inserts ==>
      && id !in rows && tx.inserts[id] == NewRow(tx.inserts[id].intent) && IntentChecks(tx.inserts[id].intent)
      && !Taken(rows, tx.inserts[id].intent))
    && Unique(tx.inserts)
  }

  /** Two open transactions never touch the same row, key, unborn identifier or drawn token. */
  predicate Apart(a: Tx, b: Tx) {
    && a.locks !! b.locks
    && a.inserts.Keys !! b.inserts.Keys
    && (forall id :: id in a.inserts ==> !Taken(b.inserts, a.inserts[id].intent))
    && (b.phase.Named() ==> b.phase.lease.id !in a.inserts)
    && DrawnBy(a.phase) !! DrawnBy(b.phase)
  }

  predicate TxOk(rows: map<Uuid, Row>, now: int, tokens: set<Uuid>, tx: Tx) {
    PhaseOk(rows, now, tokens, tx) && InsertsOk(rows, tx) && (tx.phase.Named() ==> tx.phase.lease.id !in tx.inserts)
  }

  predicate TxsOk(rows: map<Uuid, Row>, now: int, tokens: set<Uuid>, txs: map<Worker, Tx>) {
    forall w :: w in txs ==> TxOk(rows, now, tokens, txs[w])
  }

  predicate AllApart(txs: map<Worker, Tx>) {
    forall v, w :: v in txs && w in txs && v != w ==> Apart(txs[v], txs[w])
  }

  predicate Inv(s: State) {
    RowsOk(s) && TxsOk(s.rows, s.now, s.tokens, s.txs) && AllApart(s.txs)
  }

  lemma InitialInv(s: State)
    requires Initial(s)
    ensures Inv(s)
  {}

  /** A transaction keeps what it knows while its rows stay and time passes. */
  lemma PhaseStable(rows: map<Uuid, Row>, now: int, tokens: set<Uuid>, rows': map<Uuid, Row>, now': int, tokens': set<Uuid>, tx: Tx)
    requires PhaseOk(rows, now, tokens, tx)
    requires rows.Keys <= rows'.Keys && now <= now' && tokens <= tokens'
    requires forall id :: id in tx.locks ==> id in rows && rows'[id] == rows[id]
    requires tx.phase.Named() && tx.phase.lease.id in rows' ==> tx.phase.lease.id in rows
    ensures PhaseOk(rows', now', tokens', tx)
  {
    if tx.phase.ClaimUpdated? {
      assert ClaimUpdates(rows', tx.phase) == ClaimUpdates(rows, tx.phase);
    }
  }

  lemma TxsStable(rows: map<Uuid, Row>, now: int, tokens: set<Uuid>, now': int, tokens': set<Uuid>, txs: map<Worker, Tx>)
    requires TxsOk(rows, now, tokens, txs) && now <= now' && tokens <= tokens'
    ensures TxsOk(rows, now', tokens', txs)
  {
    forall w | w in txs ensures PhaseOk(rows, now', tokens', txs[w]) {
      PhaseStable(rows, now, tokens, rows, now', tokens', txs[w]);
    }
  }

  lemma RowsStable(s: State, s': State)
    requires RowsOk(s) && s'.rows == s.rows && s.now <= s'.now && s.tokens <= s'.tokens
    requires s'.claims == s.claims && s'.effects == s.effects
    ensures RowsOk(s')
  {}

  lemma TickKeepsInv(s: State, d: nat)
    requires Inv(s)
    ensures Inv(s.(now := s.now + d))
  {
    RowsStable(s, s.(now := s.now + d));
    TxsStable(s.rows, s.now, s.tokens, s.now + d, s.tokens, s.txs);
  }

  /** Opening or replacing one worker's transaction. */
  lemma PutKeepsInv(s: State, w: Worker, tx: Tx, tokens: set<Uuid>)
    requires Inv(s) && s.tokens <= tokens
    requires TxOk(s.rows, s.now, tokens, tx)
    requires forall v :: v in s.txs && v != w ==> Apart(s.txs[v], tx) && Apart(tx, s.txs[v])
    ensures Inv(Put(s, w, tx).(tokens := tokens))
  {
    RowsStable(s, Put(s, w, tx).(tokens := tokens));
    TxsStable(s.rows, s.now, s.tokens, s.now, tokens, s.txs);
  }

  lemma EndKeepsInv(s: State, w: Worker)
    requires Inv(s)
    ensures Inv(End(s, w))
  {
    RowsStable(s, End(s, w));
  }

  /** A transaction that has only locked free rows is apart from every other. */
  lemma OpenApart(s: State, tx: Tx, v: Worker)
    requires v in s.txs && tx.inserts == map[] && !tx.phase.ClaimUpdated?
    requires forall id :: id in tx.locks ==> !Locked(s, id)
    requires tx.phase.Named() ==> !Unborn(s, tx.phase.lease.id)
    ensures Apart(s.txs[v], tx) && Apart(tx, s.txs[v])
  {
    hide Clash;
    forall id | id in tx.locks ensures id !in s.txs[v].locks { assert !Locked(s, id); }
  }

  lemma OpenKeepsInv(s: State, w: Worker, tx: Tx)
    requires Inv(s) && w !in s.txs && tx.inserts == map[] && !tx.phase.ClaimUpdated?
    requires forall id :: id in tx.locks ==> !Locked(s, id)
    requires tx.phase.Named() ==> !Unborn(s, tx.phase.lease.id)
    requires PhaseOk(s.rows, s.now, s.tokens, tx)
    ensures Inv(Put(s, w, tx))
  {
    hide Inv, PhaseOk, Apart, Locked, Unborn, Clash;
    forall v | v in s.txs ensures Apart(s.txs[v], tx) && Apart(tx, s.txs[v]) { OpenApart(s, tx, v); }
    PutKeepsInv(s, w, tx, s.tokens);
    assert Put(s, w, tx).(tokens := s.tokens) == Put(s, w, tx);
  }

  lemma DrawnKnown(rows: map<Uuid, Row>, now: int, tokens: set<Uuid>, tx: Tx)
    requires PhaseOk(rows, now, tokens, tx)
    ensures DrawnBy(tx.phase) <= tokens
  {}

  /** The next statement of a transaction leaves it apart: same locks and inserts, fresh tokens. */
  lemma AdvanceApart(a: Tx, b: Tx, b': Tx, tokens: set<Uuid>)
    requires Apart(a, b) && Apart(b, a) && DrawnBy(a.phase) <= tokens
    requires b'.locks == b.locks && b'.inserts == b.inserts && b'.phase.Named() == b.phase.Named()
    requires b'.phase.Named() ==> b'.phase.lease == b.phase.lease
    requires DrawnBy(b'.phase) !! (tokens - DrawnBy(b.phase))
    ensures Apart(a, b') && Apart(b', a)
  {
    hide Taken;
    forall t | t in DrawnBy(b'.phase) ensures t !in DrawnBy(a.phase) {
      if t in tokens { assert t in DrawnBy(b.phase); }
    }
  }

  lemma AdvanceKeepsInv(s: State, w: Worker, tx: Tx, tokens: set<Uuid>)
    requires Inv(s) && w in s.txs && s.tokens <= tokens
    requires tx.locks == s.txs[w].locks && tx.inserts == s.txs[w].inserts
    requires tx.phase.Named() == s.txs[w].phase.Named()
    requires tx.phase.Named() ==> tx.phase.lease == s.txs[w].phase.lease
    requires DrawnBy(tx.phase) !! (s.tokens - DrawnBy(s.txs[w].phase))
    requires TxOk(s.rows, s.now, tokens, tx)
    ensures Inv(Put(s, w, tx).(tokens := tokens))
  {
    hide RowsOk, PhaseOk, InsertsOk, Apart, DrawnBy;
    forall v | v in s.txs && v != w ensures Apart(s.txs[v], tx) && Apart(tx, s.txs[v]) {
      assert Apart(s.txs[v], s.txs[w]) && Apart(s.txs[w], s.txs[v]);
      assert TxOk(s.rows, s.now, s.tokens, s.txs[v]);
      DrawnKnown(s.rows, s.now, s.tokens, s.txs[v]);
      AdvanceApart(s.txs[v], s.txs[w], tx, s.tokens);
    }
    PutKeepsInv(s, w, tx, tokens);
  }

  lemma VisibleIsFree(rows: map<Uuid, Row>, tx: Tx, intent: Intent)
    requires rows.Keys !! tx.inserts.Keys && !Taken(Visible(rows, tx), intent)
    ensures !Taken(rows, intent) && !Taken(tx.inserts, intent)
  {
    forall i | i in rows ensures !Clash(rows[i].intent, intent) { assert Visible(rows, tx)[i] == rows[i]; }
    forall i | i in tx.inserts ensures !Clash(tx.inserts[i].intent, intent) { assert Visible(rows, tx)[i] == tx.inserts[i]; }
  }

  lemma CreatedIntent(rows: map<Uuid, Row>, input: TaskInput)
    requires Creates(rows, input)
    ensures ValidInput(input) && IntentChecks(IntentOf(input)) && !Taken(rows, IntentOf(input))
  {
    hide Taken;
  }

  lemma EnqueueInserts(rows: map<Uuid, Row>, tx: Tx, input: TaskInput, newId: Uuid)
    requires InsertsOk(rows, tx) && Creates(Visible(rows, tx), input) && newId !in rows && MayInsert(tx.phase)
    ensures InsertsOk(rows, tx.(inserts := Plus(tx.inserts, input, newId)))
  {
    hide Clash, Creates, IntentChecks, Taken, Unique, NewRow;
    CreatedIntent(Visible(rows, tx), input);
    VisibleIsFree(rows, tx, IntentOf(input));
    PlusUnique(tx.inserts, input, newId);
    PlusIntent(tx.inserts, input, newId);
  }

  lemma EnqueueKeepsInv(s: State, w: Worker, input: TaskInput, newId: Uuid)
    requires Inv(s) && Enabled(s, Enqueue(w, input, newId))
    ensures Inv(Enqueued(s, w, input, newId))
  {
    var tx := s.txs[w];
    if Creates(Visible(s.rows, tx), input) {
      var tx' := tx.(inserts := Plus(tx.inserts, input, newId));
      EnqueueInserts(s.rows, tx, input, newId);
      assert TxOk(s.rows, s.now, s.tokens, tx') by {
        assert !Mentioned(s, newId);
      }
      forall v | v in s.txs && v != w ensures Apart(s.txs[v], tx') && Apart(tx', s.txs[v]) {
        EnqueueApart(s, w, input, newId, v);
      }
      PutKeepsInv(s, w, tx', s.tokens);
      assert Put(s, w, tx').(tokens := s.tokens) == Put(s, w, tx');
    }
  }

  lemma EnqueueApart(s: State, w: Worker, input: TaskInput, newId: Uuid, v: Worker)
    requires AllApart(s.txs) && Enabled(s, Enqueue(w, input, newId)) && ValidInput(input) && v in s.txs && v != w
    ensures Apart(s.txs[v], s.txs[w].(inserts := Plus(s.txs[w].inserts, input, newId)))
    ensures Apart(s.txs[w].(inserts := Plus(s.txs[w].inserts, input, newId)), s.txs[v])
  {
    hide Clash, AllApart, NewRow;
    var a, b := s.txs[v], s.txs[w];
    ApartAt(s, w, v);
    assert !Unborn(s, newId) && !Mentioned(s, newId) && !MustWait(s, w, IntentOf(input));
    assert newId !in a.inserts && !Taken(a.inserts, IntentOf(input));
    var inserts := Plus(b.inserts, input, newId);
    PlusIntent(b.inserts, input, newId);
    forall id | id in a.inserts ensures !Taken(inserts, a.inserts[id].intent) {
      TakenPlus(a.inserts, b.inserts, input, newId, id);
    }
    forall id | id in inserts ensures !Taken(a.inserts, inserts[id].intent) {
      if id != newId { assert id in b.inserts; }
    }
  }

  lemma TakenPlus(a: map<Uuid, Row>, b: map<Uuid, Row>, input: TaskInput, newId: Uuid, id: Uuid)
    requires ValidInput(input) && id in a && !Taken(b, a[id].intent) && !Taken(a, IntentOf(input))
    ensures !Taken(Plus(b, input, newId), a[id].intent)
  {
    ClashSymmetric(a[id].intent, IntentOf(input));
    hide Clash;
    var more := Plus(b, input, newId);
    PlusIntent(b, input, newId);
    forall i | i in more ensures !Clash(more[i].intent, a[id].intent) {
      if i != newId { assert more[i] == b[i]; }
    }
  }

  function Merged(rows: map<Uuid, Row>, tx: Tx): map<Uuid, Row> {
    rows + tx.updates + tx.inserts
  }

  /** A staged update belongs to a locked row and leaves its intent alone. */
  lemma UpdatesAreLocked(rows: map<Uuid, Row>, now: int, tokens: set<Uuid>, tx: Tx, id: Uuid)
    requires PhaseOk(rows, now, tokens, tx) && id in tx.updates
    ensures id in tx.locks && id in rows && tx.updates[id].intent == rows[id].intent
  {}

  lemma MergedIntent(rows: map<Uuid, Row>, now: int, tokens: set<Uuid>, tx: Tx, id: Uuid)
    requires TxOk(rows, now, tokens, tx) && id in Merged(rows, tx)
    ensures id in rows ==> id !in tx.inserts && Merged(rows, tx)[id].intent == rows[id].intent
    ensures id !in rows ==> id in tx.inserts && Merged(rows, tx)[id] == tx.inserts[id]
  {
    if id in tx.updates { UpdatesAreLocked(rows, now, tokens, tx, id); }
  }

  lemma MergedUnique(rows: map<Uuid, Row>, now: int, tokens: set<Uuid>, tx: Tx)
    requires TxOk(rows, now, tokens, tx) && Unique(rows)
    ensures Unique(Merged(rows, tx))
  {
    var m := Merged(rows, tx);
    forall i, j | i in m && j in m && i != j ensures !Clash(m[i].intent, m[j].intent) {
      MergedIntent(rows, now, tokens, tx, i);
      MergedIntent(rows, now, tokens, tx, j);
      if i in rows && j in tx.inserts { assert !Taken(rows, tx.inserts[j].intent); }
      if j in rows && i in tx.inserts { assert !Taken(rows, tx.inserts[i].intent); }
    }
  }

  /** Every staged row has a good shape, and only a claim counts an attempt, only a run completes. */
  lemma UpdateShape(rows: map<Uuid, Row>, now: int, tokens: set<Uuid>, tx: Tx, id: Uuid)
    requires PhaseOk(rows, now, tokens, tx) && id in tx.updates
    requires id in rows && RowShape(rows[id], now)
    ensures RowShape(tx.updates[id], now) && rows[id].status != Completed
    ensures tx.updates[id].attempts == rows[id].attempts + (if tx.phase.ClaimUpdated? then 1 else 0)
    ensures tx.updates[id].status == Completed <==> tx.phase.RunCompleted?
    ensures tx.updates[id].leaseToken.Some? ==> tx.updates[id].leaseToken.value in tokens || tx.updates[id].leaseToken == rows[id].leaseToken
    ensures tx.phase.ClaimUpdated? ==> id in tx.phase.ids
    ensures tx.phase.RunCompleted? ==> id == tx.phase.lease.id
  {}

  lemma UpdatesOfPhase(rows: map<Uuid, Row>, now: int, tokens: set<Uuid>, tx: Tx)
    requires PhaseOk(rows, now, tokens, tx)
    ensures tx.phase.ClaimUpdated? ==> tx.updates.Keys == tx.phase.ids
    ensures tx.phase.RunCompleted? ==> tx.updates.Keys == {tx.phase.lease.id}
  {}

  /** A commit logs exactly the rows it stages. */
  lemma CommitCounts(s: State, w: Worker, id: Uuid)
    requires w in s.txs && PhaseOk(s.rows, s.now, s.tokens, s.txs[w])
    ensures Committed(s, w).claims[id] == s.claims[id] + (if s.txs[w].phase.ClaimUpdated? && id in s.txs[w].updates then 1 else 0)
    ensures Committed(s, w).effects[id] == s.effects[id] + (if s.txs[w].phase.RunCompleted? && id in s.txs[w].updates then 1 else 0)
  {
    UpdatesOfPhase(s.rows, s.now, s.tokens, s.txs[w]);
  }

  /** A stored row after the commit: as it was, or as staged. */
  lemma CommitStored(s: State, w: Worker, id: Uuid)
    requires Inv(s) && w in s.txs && id in s.rows
    ensures id in Committed(s, w).rows && RowShape(Committed(s, w).rows[id], s.now) && RowLogged(Committed(s, w), id)
  {
    hide PhaseOk, InsertsOk, RowShape, Unique, AllApart;
    var tx := s.txs[w];
    assert TxOk(s.rows, s.now, s.tokens, tx);
    MergedIntent(s.rows, s.now, s.tokens, tx, id);
    CommitCounts(s, w, id);
    assert RowShape(s.rows[id], s.now) && RowLogged(s, id);
    if id in tx.updates {
      UpdatesAreLocked(s.rows, s.now, s.tokens, tx, id);
      UpdateShape(s.rows, s.now, s.tokens, tx, id);
    }
  }

  lemma NewRowShape(intent: Intent, now: int)
    requires IntentChecks(intent)
    ensures RowShape(NewRow(intent), now)
  {}

  lemma NewRowLog(intent: Intent)
    ensures NewRow(intent).attempts == 0 && NewRow(intent).status == Pending && NewRow(intent).leaseToken.None?
  {}

  /** An inserted row after the commit: new, unclaimed and without effect. */
  lemma CommitInserted(s: State, w: Worker, id: Uuid)
    requires Inv(s) && w in s.txs && id in Committed(s, w).rows && id !in s.rows
    ensures RowShape(Committed(s, w).rows[id], s.now) && RowLogged(Committed(s, w), id)
  {
    hide PhaseOk, RowShape, IntentChecks, Unique, AllApart, Taken, NewRow, MayInsert;
    var tx := s.txs[w];
    assert TxOk(s.rows, s.now, s.tokens, tx);
    MergedIntent(s.rows, s.now, s.tokens, tx, id);
    CommitCounts(s, w, id);
    NewRowLog(tx.inserts[id].intent);
    NewRowShape(tx.inserts[id].intent, s.now);
    assert s.claims[id] == 0 && s.effects[id] == 0;
    if id in tx.updates { UpdatesAreLocked(s.rows, s.now, s.tokens, tx, id); }
  }

  /** What another transaction knows of its locked rows survives the commit. */
  lemma CommitPhase(s: State, w: Worker, v: Worker)
    requires Inv(s) && w in s.txs && v in s.txs && v != w
    ensures PhaseOk(Merged(s.rows, s.txs[w]), s.now, s.tokens, s.txs[v])
  {
    hide RowsOk, PhaseOk, InsertsOk, AllApart;
    var a, b := s.txs[w], s.txs[v];
    var rows' := Merged(s.rows, a);
    assert Apart(a, b) && Apart(b, a) by { ApartAt(s, w, v); }
    assert TxOk(s.rows, s.now, s.tokens, a) && TxOk(s.rows, s.now, s.tokens, b);
    forall id | id in b.locks ensures id in s.rows && rows'[id] == s.rows[id] {
      LocksStored(s.rows, s.now, s.tokens, b, id);
      MergedIntent(s.rows, s.now, s.tokens, a, id);
      if id in a.updates { UpdatesAreLocked(s.rows, s.now, s.tokens, a, id); }
    }
    forall id | id in rows' ensures id in s.rows || id in a.inserts { MergedIntent(s.rows, s.now, s.tokens, a, id); }
    PhaseStable(s.rows, s.now, s.tokens, rows', s.now, s.tokens, b);
  }

  lemma ApartAt(s: State, w: Worker, v: Worker)
    requires AllApart(s.txs) && w in s.txs && v in s.txs && v != w
    ensures Apart(s.txs[w], s.txs[v]) && Apart(s.txs[v], s.txs[w])
  {}

  lemma LocksStored(rows: map<Uuid, Row>, now: int, tokens: set<Uuid>, tx: Tx, id: Uuid)
    requires PhaseOk(rows, now, tokens, tx) && id in tx.locks
    ensures id in rows
  {}

  /** Its uncommitted inserts still break no unique index. */
  lemma CommitInserts(s: State, w: Worker, v: Worker)
    requires Inv(s) && w in s.txs && v in s.txs && v != w
    ensures InsertsOk(Merged(s.rows, s.txs[w]), s.txs[v])
  {
    hide RowsOk, PhaseOk, AllApart, Clash, IntentChecks;
    var a, b := s.txs[w], s.txs[v];
    var rows' := Merged(s.rows, a);
    ApartAt(s, w, v);
    assert TxOk(s.rows, s.now, s.tokens, a) && TxOk(s.rows, s.now, s.tokens, b);
    forall id | id in b.inserts ensures id !in rows' && !Taken(rows', b.inserts[id].intent) {
      assert !Taken(s.rows, b.inserts[id].intent) && !Taken(a.inserts, b.inserts[id].intent);
      forall i | i in rows' ensures i != id && !Clash(rows'[i].intent, b.inserts[id].intent) {
        MergedIntent(s.rows, s.now, s.tokens, a, i);
      }
    }
  }

  lemma CommitTx(s: State, w: Worker, v: Worker)
    requires Inv(s) && w in s.txs && v in s.txs && v != w
    ensures TxOk(Merged(s.rows, s.txs[w]), s.now, s.tokens, s.txs[v])
  {
    hide PhaseOk, InsertsOk, RowsOk, AllApart;
    CommitPhase(s, w, v);
    CommitInserts(s, w, v);
    assert TxOk(s.rows, s.now, s.tokens, s.txs[v]);
  }

  lemma CommitKeepsRows(s: State, w: Worker)
    requires Inv(s) && w in s.txs
    ensures RowsOk(Committed(s, w))
  {
    var s' := Committed(s, w);
    MergedUnique(s.rows, s.now, s.tokens, s.txs[w]);
    forall id | id in s'.rows ensures RowShape(s'.rows[id], s'.now) && RowLogged(s', id) {
      if id in s.rows { CommitStored(s, w, id); } else { CommitInserted(s, w, id); }
    }
    UpdatesOfPhase(s.rows, s.now, s.tokens, s.txs[w]);
  }

  lemma CommitKeepsInv(s: State, w: Worker)
    requires Inv(s) && w in s.txs
    ensures Inv(Committed(s, w))
  {
    var s' := Committed(s, w);
    CommitKeepsRows(s, w);
    forall v | v in s'.txs ensures TxOk(s'.rows, s'.now, s'.tokens, s'.txs[v]) {
      CommitTx(s, w, v);
    }
  }

  lemma OpensKeepsInv(s: State, l: Label)
    requires Inv(s) && Enabled(s, l) && Opens(l)
    ensures Inv(Apply(s, l))
  {
    hide Inv, PhaseOk, Opened, Locked, Unborn;
    OpenedLocks(s, l);
    OpenedPhase(s, l);
    OpenKeepsInv(s, l.w, Opened(s, l));
  }

  lemma OpenedLocks(s: State, l: Label)
    requires Enabled(s, l) && Opens(l)
    ensures var tx := Opened(s, l);
      && l.w !in s.txs && tx.inserts == map[] && !tx.phase.ClaimUpdated?
      && (forall id :: id in tx.locks ==> !Locked(s, id))
      && (tx.phase.Named() ==> !Unborn(s, tx.phase.lease.id))
  {
    hide Unborn, LockedBy, CandidateRows;
  }

  lemma OpenedPhase(s: State, l: Label)
    requires Enabled(s, l) && Opens(l)
    ensures PhaseOk(s.rows, s.now, s.tokens, Opened(s, l))
  {
    hide Unborn, LockedBy, CandidateRows, Claimable;
  }

  lemma ClaimPhase(s: State, l: Label)
    requires Inv(s) && Enabled(s, l) && l.ClaimUpdate?
    ensures PhaseOk(s.rows, s.now, s.tokens + Drawn(l), Progressed(s, l).value)
  {
    assert PhaseOk(s.rows, s.now, s.tokens, s.txs[l.w]) by { assert TxOk(s.rows, s.now, s.tokens, s.txs[l.w]); }
    forall id | id in l.tokens.Keys ensures s.rows[id].leaseToken != Some(l.tokens[id]) {
      assert RowLogged(s, id);
    }
  }

  lemma LeasePhase(s: State, l: Label)
    requires Enabled(s, l) && Progresses(l) && !l.ClaimUpdate? && Progressed(s, l).Some?
    requires PhaseOk(s.rows, s.now, s.tokens, s.txs[l.w])
    ensures PhaseOk(s.rows, s.now, s.tokens + Drawn(l), Progressed(s, l).value)
  {}

  lemma ProgressPhase(s: State, l: Label)
    requires Inv(s) && Enabled(s, l) && Progresses(l) && Progressed(s, l).Some?
    ensures PhaseOk(s.rows, s.now, s.tokens + Drawn(l), Progressed(s, l).value)
  {
    assert TxOk(s.rows, s.now, s.tokens, s.txs[l.w]);
    if l.ClaimUpdate? { ClaimPhase(s, l); } else { LeasePhase(s, l); }
  }

  lemma ProgressFrame(s: State, l: Label)
    requires Enabled(s, l) && Progresses(l) && Progressed(s, l).Some?
    ensures var tx, tx' := s.txs[l.w], Progressed(s, l).value;
      && tx'.locks == tx.locks && tx'.inserts == tx.inserts
      && tx'.phase.Named() == tx.phase.Named() && (tx.phase.Named() ==> tx'.phase.lease == tx.phase.lease)
      && (MayInsert(tx.phase) ==> MayInsert(tx'.phase))
  {}

  lemma ProgressTxOk(s: State, l: Label)
    requires Inv(s) && Enabled(s, l) && Progresses(l) && Progressed(s, l).Some?
    ensures TxOk(s.rows, s.now, s.tokens + Drawn(l), Progressed(s, l).value)
  {
    ProgressPhase(s, l);
    ProgressFrame(s, l);
    assert TxOk(s.rows, s.now, s.tokens, s.txs[l.w]);
  }

  /** Only a claim's update draws tokens, and only new ones. */
  lemma ProgressDraws(s: State, l: Label)
    requires Enabled(s, l) && Progresses(l) && Progressed(s, l).Some?
    ensures l.w in s.txs && DrawnBy(Progressed(s, l).value.phase) !! (s.tokens - DrawnBy(s.txs[l.w].phase))
  {
    hide LeaseHolds, ClaimUpdates, RetriedRow, RenewedRow, CompletedRow;
  }

  /** The statements a transaction issues on rows it has locked. */
  lemma ProgressKeepsInv(s: State, l: Label)
    requires Inv(s) && Enabled(s, l) && Progresses(l)
    ensures Inv(Apply(s, l))
  {
    hide Inv, Progressed, TxOk;
    var next := Progressed(s, l);
    if next.None? {
      EndKeepsInv(s, l.w);
    } else {
      ProgressTxOk(s, l);
      ProgressFrame(s, l);
      ProgressDraws(s, l);
      AdvanceKeepsInv(s, l.w, next.value, s.tokens + Drawn(l));
    }
  }

  /** Every statement of every worker keeps the invariant. */
  lemma StepKeepsInv(s: State, l: Label)
    requires Inv(s) && Enabled(s, l)
    ensures Inv(Apply(s, l))
  {
    hide Inv, Opened, Progressed, Committed, Enqueued;
    if l.Tick? { TickKeepsInv(s, l.d); }
    else if Opens(l) { OpensKeepsInv(s, l); }
    else if Progresses(l) { ProgressKeepsInv(s, l); }
    else if l.Enqueue? { EnqueueKeepsInv(s, l.w, l.input, l.newId); }
    else if l.Commit? { CommitKeepsInv(s, l.w); }
    else { EndKeepsInv(s, l.w); }
  }

  /** So it holds in every state any run reaches. */
  lemma {:induction false} RunKeepsInv(s: State, run: seq<Label>)
    requires Inv(s) && Possible(s, run)
    ensures Inv(After(s, run))
    decreases |run|
  {
    if run != [] {
      StepKeepsInv(s, run[0]);
      RunKeepsInv(Apply(s, run[0]), run[1..]);
    }
  }
}

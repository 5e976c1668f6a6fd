/**
 * The task operations as a worker calls them: each issues its statements in order against the
 * shared tables, and between any two statements every other worker may do whatever it likes.
 */
module TaskDatabase {
  import opened Prelude
  import opened Ordering
  import opened TaskTable
  import opened LeaseProtocol
  import opened LeaseInvariant
  import opened LeaseTheorems
  import opened QueueMeaning

  datatype CallError = InvalidOption | LeaseLost | EffectThrew | Cancelled

  /** A run that starts at s and has reached t. */
  ghost predicate Reached(s: State, run: seq<Label>, t: State) {
    Inv(s) && Possible(s, run) && After(s, run) == t && Inv(t)
  }

  lemma NotStarted(s: State)
    requires Inv(s)
    ensures Reached(s, [], s)
  {}

  /** No label of the run is a commit of this worker: the call left nothing behind. */
  predicate CommitsNothing(run: seq<Label>, w: Worker) {
    forall l :: l in run ==> !(l.Commit? && l.w == w)
  }

  /** The run ends with this worker's commit, from the state before it. */
  ghost predicate EndsInCommit(s: State, run: seq<Label>, w: Worker) {
    && |run| > 0 && run[|run| - 1] == Commit(w) && Possible(s, run[..|run| - 1])
    && w in BeforeCommit(s, run).txs
  }

  ghost function BeforeCommit(s: State, run: seq<Label>): State
    requires |run| > 0 && Possible(s, run[..|run| - 1])
  {
    After(s, run[..|run| - 1])
  }

  /** This worker's own transaction checked the lease, staged the effect and committed it, logging it once. */
  ghost predicate Effected(s: State, run: seq<Label>, w: Worker, lease: Identity) {
    EndsInCommit(s, run, w) && Possible(s, run) && EffectedBy(BeforeCommit(s, run), w, lease, After(s, run))
  }

  predicate EffectedBy(t: State, w: Worker, lease: Identity, after: State)
    requires w in t.txs
  {
    var phase := t.txs[w].phase;
    && phase.RunCompleted? && phase.lease == lease && Owns(t.rows, lease, phase.at)
    && lease.id in after.rows && after.rows[lease.id] == Done(t.rows[lease.id], phase.at)
    && after.effects == t.effects + multiset{lease.id}
  }

  /** This worker's own update, made under the lease, is what the row is left as. */
  ghost predicate Returned(s: State, run: seq<Label>, w: Worker, lease: Identity, ms: int, code: ErrorCode) {
    EndsInCommit(s, run, w) && Possible(s, run) && ReturnedBy(BeforeCommit(s, run), w, lease, ms, code, After(s, run))
  }

  predicate ReturnedBy(t: State, w: Worker, lease: Identity, ms: int, code: ErrorCode, after: State)
    requires w in t.txs
  {
    var phase := t.txs[w].phase;
    && phase.RetryUpdated? && phase.lease == lease && phase.ms == ms && phase.code == code && Owns(t.rows, lease, phase.at)
    && lease.id in after.rows && after.rows[lease.id] == GivenBack(t.rows[lease.id], phase.at, ms, code)
  }

  ghost predicate Extended(s: State, run: seq<Label>, w: Worker, lease: Identity, ms: int) {
    EndsInCommit(s, run, w) && Possible(s, run) && ExtendedBy(BeforeCommit(s, run), w, lease, ms, After(s, run))
  }

  predicate ExtendedBy(t: State, w: Worker, lease: Identity, ms: int, after: State)
    requires w in t.txs
  {
    var phase := t.txs[w].phase;
    && phase.RenewUpdated? && phase.lease == lease && phase.ms == ms && Owns(t.rows, lease, phase.at)
    && lease.id in after.rows && after.rows[lease.id] == Kept(t.rows[lease.id], phase.at, ms)
  }

  lemma CommitIsLast(s: State, run: seq<Label>, t: State, w: Worker)
    requires Reached(s, run, t) && w in t.txs
    ensures EndsInCommit(s, run + [Commit(w)], w) && BeforeCommit(s, run + [Commit(w)]) == t
  {
    assert (run + [Commit(w)])[..|run|] == run;
  }

  lemma CompletionStands(s: State, w: Worker)
    requires Inv(s) && w in s.txs && s.txs[w].phase.RunCompleted?
    ensures EffectedBy(s, w, s.txs[w].phase.lease, Committed(s, w))
  {
    assert TxOk(s.rows, s.now, s.tokens, s.txs[w]);
    CompletedRun(s, w);
  }

  /** A staged update of the owner's row: what it is, and that the commit leaves it. */
  lemma StagedUpdate(s: State, w: Worker)
    requires Inv(s) && w in s.txs && (s.txs[w].phase.RetryUpdated? || s.txs[w].phase.RenewUpdated?)
    requires s.txs[w].updates != map[]
    ensures var phase := s.txs[w].phase;
      && Owns(s.rows, phase.lease, phase.at) && phase.lease.id in Committed(s, w).rows
      && Committed(s, w).rows[phase.lease.id] ==
           if phase.RetryUpdated? then RetriedRow(s.rows[phase.lease.id], phase.at, phase.ms, phase.code)
           else RenewedRow(s.rows[phase.lease.id], phase.at, phase.ms)
  {
    hide RetriedRow, RenewedRow, Committed;
    assert TxOk(s.rows, s.now, s.tokens, s.txs[w]);
    CommittedRow(s, w, s.txs[w].phase.lease.id);
  }

  lemma UpdateStands(s: State, w: Worker)
    requires Inv(s) && w in s.txs && (s.txs[w].phase.RetryUpdated? || s.txs[w].phase.RenewUpdated?)
    requires s.txs[w].updates != map[]
    ensures var phase := s.txs[w].phase;
      && (phase.RetryUpdated? ==> ReturnedBy(s, w, phase.lease, phase.ms, phase.code, Committed(s, w)))
      && (phase.RenewUpdated? ==> ExtendedBy(s, w, phase.lease, phase.ms, Committed(s, w)))
  {
    hide RetriedRow, RenewedRow, Committed, Inv;
    StagedUpdate(s, w);
    var phase := s.txs[w].phase;
    RowsMean(s.rows[phase.lease.id], phase.at, phase.ms, if phase.RetryUpdated? then phase.code else ExecutionFailed);
  }

  /** A committed renewal leaves the worker owning the row for at least the new duration. */
  lemma RenewalStands(s: State, w: Worker, lease: Identity, ms: int)
    requires w in s.txs && ExtendedBy(s, w, lease, ms, Committed(s, w))
    ensures OwnedBy(Committed(s, w).rows, lease)
    ensures Committed(s, w).rows[lease.id].leaseUntil.value >= s.txs[w].phase.at + ms * 1000
  {
    hide Committed;
  }

  ghost predicate Undrawn(mine: iset<Uuid>, tokens: set<Uuid>) {
    forall t :: t in mine ==> t !in tokens
  }

  /** A statement that locks the row a lease names, with options in range. */
  predicate Locks(l: Label) {
    || l.RunLock?
    || (l.RetryLock? && Bounded(l.ms, MAX_RETRY_MS) && !l.code.UnknownCode?)
    || (l.RenewLock? && Bounded(l.ms, MAX_LEASE_MS))
  }

  function PhaseOf(l: Label): Phase
    requires Locks(l)
  {
    match l
    case RunLock(_, lease) => RunLocked(lease)
    case RetryLock(_, lease, ms, code) => RetryLocked(lease, ms, code)
    case RenewLock(_, lease, ms) => RenewLocked(lease, ms)
  }

  class Database {
    var now: int
    var rows: map<Uuid, Row>
    var txs: map<Worker, Tx>
    ghost var claims: multiset<Uuid>
    ghost var effects: multiset<Uuid>
    ghost var tokens: set<Uuid>

    ghost function Db(): State
      reads this
    {
      State(now, rows, txs, claims, effects, tokens)
    }

    /** An empty database. */
    constructor (start: int)
      ensures Db() == State(start, map[], map[], multiset{}, multiset{}, {}) && Inv(Db())
    {
      now, rows, txs := start, map[], map[];
      claims, effects, tokens := multiset{}, multiset{}, {};
    }

    /**
     * Any number of statements of other workers and any passage of time; nobody else draws the
     * random tokens this worker is about to draw. The body is the empty run; callers rely only on
     * the contract.
     */
    method Others(w: Worker, ghost s: State, ghost run: seq<Label>, ghost mine: iset<Uuid>) returns (ghost run': seq<Label>, ghost others: seq<Label>)
      requires Reached(s, run, Db())
      modifies this
      requires Undrawn(mine, tokens)
      ensures run' == run + others && Reached(s, run', Db()) && Undrawn(mine, tokens)
      ensures Possible(old(Db()), others) && After(old(Db()), others) == Db()
      ensures forall l :: l in others ==> !By(l, w)
      ensures forall l :: l in run' ==> l in run || !By(l, w)
    {
      run', others := run, [];
      assert run + [] == run;
    }

    /** Interference while this worker's transaction is open: its locked rows stay as they are. */
    method Meanwhile(w: Worker, ghost s: State, ghost run: seq<Label>, ghost mine: iset<Uuid>) returns (ghost run': seq<Label>)
      requires Reached(s, run, Db()) && w in txs && Undrawn(mine, tokens)
      modifies this
      ensures Reached(s, run', Db()) && Undrawn(mine, tokens)
      ensures w in txs && txs[w] == old(txs[w]) && old(now) <= now
      ensures forall id :: id in txs[w].locks && id in old(rows) ==> id in rows && rows[id] == old(rows[id])
      ensures forall l :: l in run' ==> l in run || !By(l, w)
    {
      ghost var t := Db();
      ghost var others;
      run', others := Others(w, s, run, mine);
      OthersRun(t, others, w);
    }

    /** Records a statement of this call. */
    lemma Did(s: State, run: seq<Label>, t: State, l: Label)
      requires Reached(s, run, t) && Enabled(t, l)
      ensures Reached(s, run + [l], Apply(t, l))
    {
      StepKeepsInv(t, l);
      assert [l][1..] == [];
      RunThen(s, run, [l]);
    }

    method EnqueueBackgroundTask(w: Worker, input: TaskInput, newId: Uuid) returns (r: Result<Admission, EnqueueError>)
      requires Inv(Db()) && Enabled(Db(), Enqueue(w, input, newId))
      modifies this`txs
      ensures Inv(Db()) && Db() == Apply(old(Db()), Enqueue(w, input, newId))
      ensures Unique(Visible(old(rows), old(txs[w])))
      ensures r == Admit(Visible(old(rows), old(txs[w])), input, newId)
      ensures Answers(old(rows) + old(txs[w]).inserts, input, newId, r, rows + txs[w].inserts)
    {
      hide Inv, Possible, After, Answers, Clash;
      StepKeepsInv(Db(), Enqueue(w, input, newId));
      VisibleRows(Db(), w);
      FreshToVisible(Db(), w, newId);
      AdmissionMeans(Visible(rows, txs[w]), input, newId);
      if ValidInput(input) { VisiblePlus(rows, txs[w], input, newId); }
      if !ValidInput(input) {
        return Failure(InvalidIntent);
      }
      var intent := IntentOf(input);
      var visible := rows + txs[w].inserts;
      if !TableAccepts(intent) {
        return Failure(RejectedByTable);
      }
      if forall i :: i in visible ==> !Clash(visible[i].intent, intent) {
        txs := txs[w := txs[w].(inserts := txs[w].inserts[newId := NewRow(intent)])];
        return Success(Admission(newId, true));
      }
      if exists i :: i in visible && visible[i].intent == intent {
        return Success(Admission(Existing(visible, intent), false));
      }
      return Failure(IntentConflict);
    }

    /** Another transaction holds the row, or has inserted it and not committed. */
    ghost predicate Blocked(id: Uuid)
      reads this
    {
      Locked(Db(), id) || Unborn(Db(), id)
    }

    /**
     * SELECT ... FOR NO KEY UPDATE on the named row, after whatever others did while it waited.
     * A wait that never ends is a cancelled statement.
     */
    method LockRow(w: Worker, l: Label, ghost s: State) returns (acquired: bool, ghost run: seq<Label>)
      requires Inv(s) && s == Db() && w !in txs && Locks(l) && l.w == w
      modifies this
      ensures Reached(s, run, Db()) && old(now) <= now && CommitsNothing(run, w)
      ensures acquired ==> w in txs && txs[w] == Tx(PhaseOf(l), if l.lease.id in rows then {l.lease.id} else {}, map[], map[])
      ensures !acquired ==> w !in txs && Blocked(l.lease.id)
    {
      hide Inv, Possible, After, Enabled, Apply;
      NotStarted(s);
      ghost var others;
      run, others := Others(w, s, [], iset{});
      OthersOpenNothing(s, others, w);
      if exists v :: v in txs && (l.lease.id in txs[v].locks || l.lease.id in txs[v].inserts) {
        return false, run;
      }
      ghost var t := Db();
      LockApplies(t, l);
      txs := txs[w := Tx(PhaseOf(l), if l.lease.id in rows then {l.lease.id} else {}, map[], map[])];
      Did(s, run, t, l);
      run := run + [l];
      acquired := true;
    }

    /** The lease check after the lock; a lost lease rolls back. */
    method CheckLease(w: Worker, lease: Identity, ghost s: State, ghost run: seq<Label>) returns (held: bool, ghost run': seq<Label>)
      requires Reached(s, run, Db()) && w in txs && txs[w].phase == RunLocked(lease)
      modifies this`txs
      ensures Reached(s, run', Db()) && run' == run + [RunCheck(w)]
      ensures held <==> LeaseHolds(rows, lease, now)
      ensures txs == if held then old(txs)[w := old(txs[w]).(phase := RunChecked(lease))] else old(txs) - {w}
    {
      hide Inv, Possible, After;
      Did(s, run, Db(), RunCheck(w));
      assert tokens + {} == tokens;
      held := LeaseHolds(rows, lease, now);
      txs := if held then txs[w := txs[w].(phase := RunChecked(lease))] else txs - {w};
      run' := run + [RunCheck(w)];
    }

    method StageEffect(w: Worker, lease: Identity, ghost s: State, ghost run: seq<Label>) returns (ghost run': seq<Label>)
      requires Reached(s, run, Db()) && w in txs && txs[w].phase == RunChecked(lease)
      modifies this`txs
      ensures Reached(s, run', Db()) && run' == run + [RunStage(w)]
      ensures txs == old(txs)[w := old(txs[w]).(phase := RunStaged(lease))]
    {
      hide Inv, Possible, After;
      Did(s, run, Db(), RunStage(w));
      assert tokens + {} == tokens;
      txs := txs[w := txs[w].(phase := RunStaged(lease))];
      run' := run + [RunStage(w)];
    }

    /** The final wall-clock check and the completion, in one statement. */
    method WriteCompletion(w: Worker, lease: Identity, ghost s: State, ghost run: seq<Label>) returns (held: bool, ghost run': seq<Label>)
      requires Reached(s, run, Db()) && w in txs && txs[w].phase == RunStaged(lease)
      modifies this`txs
      ensures Reached(s, run', Db()) && run' == run + [RunComplete(w)]
      ensures held <==> LeaseHolds(rows, lease, now)
      ensures !held ==> txs == old(txs) - {w}
      ensures held ==> w in txs && txs[w].phase == RunCompleted(lease, now)
    {
      hide Inv, Possible, After;
      Did(s, run, Db(), RunComplete(w));
      assert tokens + {} == tokens;
      held := LeaseHolds(rows, lease, now);
      if held {
        var done := CompletedRow(rows[lease.id], now);
        txs := txs[w := txs[w].(phase := RunCompleted(lease, now), updates := map[lease.id := done])];
      } else {
        txs := txs - {w};
      }
      run' := run + [RunComplete(w)];
    }

    method WriteRetry(w: Worker, lease: Identity, ms: int, code: ErrorCode, ghost s: State, ghost run: seq<Label>) returns (held: bool, ghost run': seq<Label>)
      requires Reached(s, run, Db()) && w in txs && txs[w].phase == RetryLocked(lease, ms, code)
      modifies this`txs
      ensures Reached(s, run', Db()) && run' == run + [RetryUpdate(w)]
      ensures held <==> LeaseHolds(rows, lease, now)
      ensures w in txs && txs[w].phase == RetryUpdated(lease, ms, code, now)
      ensures txs[w].updates == if held then map[lease.id := RetriedRow(rows[lease.id], now, ms, code)] else map[]
    {
      hide Inv, Possible, After;
      Did(s, run, Db(), RetryUpdate(w));
      assert tokens + {} == tokens;
      held := LeaseHolds(rows, lease, now);
      var updates := if held then map[lease.id := RetriedRow(rows[lease.id], now, ms, code)] else map[];
      txs := txs[w := txs[w].(phase := RetryUpdated(lease, ms, code, now), updates := updates)];
      run' := run + [RetryUpdate(w)];
    }

    method WriteRenewal(w: Worker, lease: Identity, ms: int, ghost s: State, ghost run: seq<Label>) returns (held: bool, ghost run': seq<Label>)
      requires Reached(s, run, Db()) && w in txs && txs[w].phase == RenewLocked(lease, ms)
      modifies this`txs
      ensures Reached(s, run', Db()) && run' == run + [RenewUpdate(w)]
      ensures held <==> LeaseHolds(rows, lease, now)
      ensures w in txs && txs[w].phase == RenewUpdated(lease, ms, now)
      ensures txs[w].updates == if held then map[lease.id := RenewedRow(rows[lease.id], now, ms)] else map[]
    {
      hide Inv, Possible, After;
      Did(s, run, Db(), RenewUpdate(w));
      assert tokens + {} == tokens;
      held := LeaseHolds(rows, lease, now);
      var updates := if held then map[lease.id := RenewedRow(rows[lease.id], now, ms)] else map[];
      txs := txs[w := txs[w].(phase := RenewUpdated(lease, ms, now), updates := updates)];
      run' := run + [RenewUpdate(w)];
    }

    /** The claim's SELECT: eligible rows in order, skipping locked ones, at most limit of them. */
    method SelectCandidates(w: Worker, kinds: seq<Kind>, limit: int, leaseMs: int, ghost s: State) returns (ids: set<Uuid>, ghost run: seq<Label>)
      requires Inv(s) && s == Db() && w !in txs
      requires ValidKinds(kinds) && Bounded(limit, MAX_CLAIM) && Bounded(leaseMs, MAX_LEASE_MS)
      modifies this`txs
      ensures Reached(s, run, Db()) && run == [ClaimSelect(w, kinds, limit, leaseMs)]
      ensures ids == CandidateRows(s.now, s.rows, s.txs, kinds, limit) && ids <= rows.Keys
      ensures txs == old(txs)[w := Tx(ClaimSelected(ids, leaseMs), ids, map[], map[])]
    {
      hide Inv, Possible, After;
      NotStarted(s);
      Did(s, [], Db(), ClaimSelect(w, kinds, limit, leaseMs));
      ids := CandidateRows(now, rows, txs, kinds, limit);
      txs := txs[w := Tx(ClaimSelected(ids, leaseMs), ids, map[], map[])];
      run := [] + [ClaimSelect(w, kinds, limit, leaseMs)];
    }

    /** The claim's UPDATE ... RETURNING: a fresh token and a new deadline for every candidate. */
    method WriteClaim(w: Worker, ids: set<Uuid>, leaseMs: int, draw: Uuid -> Uuid, ghost s: State, ghost run: seq<Label>) returns (leased: map<Uuid, Row>, ghost run': seq<Label>)
      requires Reached(s, run, Db()) && w in txs && txs[w].phase == ClaimSelected(ids, leaseMs) && ids != {} && ids <= rows.Keys
      requires forall id :: id in ids ==> draw(id) !in tokens
      modifies this`txs, this`tokens
      ensures Reached(s, run', Db()) && run' == run + [ClaimUpdate(w, map id | id in ids :: draw(id))]
      ensures w in txs && txs[w].phase.ClaimUpdated? && txs[w].locks == old(txs[w]).locks && txs[w].updates == leased
      ensures leased.Keys == ids
      ensures forall id :: id in ids ==> leased[id] == ClaimedRow(rows[id], draw(id), now + leaseMs * MILLISECOND)
    {
      hide Inv, Possible, After, Enabled, Apply;
      var drawn := map id | id in ids :: draw(id);
      ClaimUpdateApplies(Db(), w, drawn);
      Did(s, run, Db(), ClaimUpdate(w, drawn));
      leased := ClaimUpdates(rows, ClaimUpdated(ids, leaseMs, now, drawn));
      txs := txs[w := txs[w].(phase := ClaimUpdated(ids, leaseMs, now, drawn), updates := leased)];
      tokens := tokens + drawn.Values;
      run' := run + [ClaimUpdate(w, drawn)];
    }

    /** A returned row is a lease: running, with its token and a deadline of leaseMs from the update. */
    ghost predicate Leased(id: Uuid, row: Row, before: Row, token: Uuid, leaseMs: int, since: int)
      reads this
    {
      && row.leaseUntil.Some? && since + leaseMs * 1000 <= row.leaseUntil.value <= now + leaseMs * 1000
      && row == Row(before.intent, before.availableAt, Running, before.attempts + 1, Some(token), row.leaseUntil,
                    before.lastErrorCode, before.completedAt)
      && id in rows && rows[id] == row
    }

    /**
     * Claims a batch. draw gives the token drawn for each row. Every returned row is committed as
     * returned, so the check that it carries a lease never fails.
     */
    method ClaimBackgroundTasks(w: Worker, kinds: seq<Kind>, limit: int, leaseMs: int, draw: Uuid -> Uuid, ghost mine: iset<Uuid>)
      returns (r: Result<map<Uuid, Row>, CallError>, ghost run: seq<Label>)
      requires Inv(Db()) && w !in txs && Undrawn(mine, tokens) && forall id :: draw(id) in mine
      modifies this
      ensures Reached(old(Db()), run, Db()) && w !in txs
      ensures r.Failure? <==> (
        || limit < 1 || limit > 100 || leaseMs < 1 || leaseMs > 300_000
        || |kinds| < 1 || |kinds| > 16 || exists k :: k in kinds && k.UnknownKind?)
      ensures r.Failure? ==> r.error.InvalidOption? && Db() == old(Db())
      ensures r.Success? ==> forall id :: id in r.value <==> Next(old(now), old(rows), old(txs), kinds, limit, id)
      ensures r.Success? ==> forall id :: id in r.value ==>
        id in old(rows) && Leased(id, r.value[id], old(rows)[id], draw(id), leaseMs, old(now))
    {
      hide Inv, Possible, After, Enabled, Apply, CandidateRows, Next, Committed;
      ghost var s := Db();
      if !Bounded(limit, MAX_CLAIM) || !Bounded(leaseMs, MAX_LEASE_MS) || !ValidKinds(kinds) {
        NotStarted(s);
        return Failure(InvalidOption), [];
      }
      forall id ensures id in CandidateRows(now, rows, txs, kinds, limit) <==> Next(now, rows, txs, kinds, limit, id) {
        CandidatesAreNext(now, rows, txs, kinds, limit, id);
      }
      var ids;
      ids, run := SelectCandidates(w, kinds, limit, leaseMs, s);
      run := Meanwhile(w, s, run, mine);
      if ids == {} {
        EmptyClaimCommits(Db(), w);
        run := CommitTx(w, s, run);
        return Success(map[]), run;
      }
      var leased;
      leased, run := WriteClaim(w, ids, leaseMs, draw, s, run);
      run := Meanwhile(w, s, run, iset{});
      run := CommitClaim(w, leased, s, run);
      r := Success(leased);
    }

    method CommitClaim(w: Worker, leased: map<Uuid, Row>, ghost s: State, ghost run: seq<Label>) returns (ghost run': seq<Label>)
      requires Reached(s, run, Db()) && w in txs && txs[w].phase.ClaimUpdated? && txs[w].updates == leased
      modifies this
      ensures Reached(s, run', Db()) && w !in txs && now == old(now)
      ensures forall id :: id in leased ==> id in rows && rows[id] == leased[id]
    {
      hide Inv, Possible, After, Enabled, Apply;
      ClaimCommits(Db(), w);
      run' := CommitTx(w, s, run);
    }

    /** An error thrown by the effect. */
    method Rollback(w: Worker, ghost s: State, ghost run: seq<Label>) returns (ghost run': seq<Label>)
      requires Reached(s, run, Db()) && w in txs
      modifies this`txs
      ensures Reached(s, run', Db()) && txs == old(txs) - {w} && run' == run + [Abort(w)]
    {
      hide Inv, Possible, After;
      Did(s, run, Db(), Abort(w));
      txs := txs - {w};
      run' := run + [Abort(w)];
    }

    /** Commits this worker's transaction and releases its locks. */
    method CommitTx(w: Worker, ghost s: State, ghost run: seq<Label>) returns (ghost run': seq<Label>)
      requires Reached(s, run, Db()) && w in txs && Committable(txs[w].phase)
      modifies this
      ensures Reached(s, run', Db()) && Db() == Committed(old(Db()), w)
      ensures run' == run + [Commit(w)] && w !in txs && now == old(now)
    {
      hide Inv, Possible, After;
      Did(s, run, Db(), Commit(w));
      var tx := txs[w];
      claims := if tx.phase.ClaimUpdated? then claims + multiset(tx.phase.ids) else claims;
      effects := if tx.phase.RunCompleted? then effects + multiset{tx.phase.lease.id} else effects;
      rows := rows + tx.updates + tx.inserts;
      txs := txs - {w};
      run' := run + [Commit(w)];
    }

    /** A refusal is never arbitrary: the lease is not held, or the wait for the row was given up. */
    ghost predicate Excused(e: CallError, lease: Identity)
      reads this
    {
      (e.LeaseLost? && !Owns(rows, lease, now)) || (e.Cancelled? && Blocked(lease.id))
    }

    /** Locks the row and checks the lease in a separate statement. */
    method EnterRun(w: Worker, lease: Identity, ghost s: State) returns (r: Result<(), CallError>, ghost run: seq<Label>)
      requires Inv(s) && s == Db() && w !in txs
      modifies this
      ensures Reached(s, run, Db()) && CommitsNothing(run, w) && old(now) <= now
      ensures r.Success? ==> w in txs && txs[w].phase == RunChecked(lease) && LeaseHolds(rows, lease, now)
      ensures r.Failure? ==> w !in txs && Excused(r.error, lease)
    {
      hide Inv, Possible, After, Enabled, Apply;
      var acquired, held;
      acquired, run := LockRow(w, RunLock(w, lease), s);
      if !acquired {
        return Failure(Cancelled), run;
      }
      run := Meanwhile(w, s, run, iset{});
      held, run := CheckLease(w, lease, s, run);
      r := if held then Success(()) else Failure(LeaseLost);
    }

    /** Checks the wall clock again, writes the completion and commits, or rolls everything back. */
    method LeaveRun(w: Worker, lease: Identity, ghost s: State, ghost run: seq<Label>) returns (r: Result<(), CallError>, ghost run': seq<Label>)
      requires Reached(s, run, Db()) && CommitsNothing(run, w) && w in txs && txs[w].phase == RunStaged(lease)
      modifies this
      ensures Reached(s, run', Db()) && w !in txs && old(now) <= now
      ensures r.Success? ==> Finished(lease, old(now)) && Effected(s, run', w, lease)
      ensures r.Failure? ==> CommitsNothing(run', w) && Excused(r.error, lease)
    {
      hide Inv, Possible, After, Enabled, Apply;
      var held;
      held, run' := WriteCompletion(w, lease, s, run);
      if !held {
        return Failure(LeaseLost), run';
      }
      run' := Meanwhile(w, s, run', iset{});
      CompletedRun(Db(), w);
      CompletionStands(Db(), w);
      CommitIsLast(s, run', Db(), w);
      run' := CommitTx(w, s, run');
      r := Success(());
    }

    /** The task is completed, no earlier than this instant, and its effect is logged once. */
    ghost predicate Finished(lease: Identity, since: int)
      reads this
    {
      && lease.id in rows && rows[lease.id].status == Completed && effects[lease.id] == 1
      && rows[lease.id].completedAt.Some? && since <= rows[lease.id].completedAt.value <= now
    }

    /**
     * Runs the effect of a claimed task in one transaction. throws says whether the effect fails;
     * what it writes is the log entry committed with the completion.
     */
    method RunBackgroundTask(w: Worker, lease: Identity, throws: bool) returns (r: Result<(), CallError>, ghost run: seq<Label>)
      requires Inv(Db()) && w !in txs
      modifies this
      ensures Reached(old(Db()), run, Db()) && w !in txs
      ensures r.Success? ==> Effected(old(Db()), run, w, lease) && Finished(lease, old(now))
      ensures r.Failure? ==> CommitsNothing(run, w) && ((throws && r.error.EffectThrew?) || Excused(r.error, lease))
      ensures throws || old(Dead(Db(), lease)) ==> r.Failure?
    {
      hide Inv, Possible, After, Enabled, Apply;
      ghost var s := Db();
      r, run := EnterRun(w, lease, s);
      if r.Failure? {
        return;
      }
      if Dead(s, lease) { DeadForever(s, run, lease); }
      run := Meanwhile(w, s, run, iset{});
      if throws {
        run := Rollback(w, s, run);
        return Failure(EffectThrew), run;
      }
      run := StageEffect(w, lease, s, run);
      run := Meanwhile(w, s, run, iset{});
      r, run := LeaveRun(w, lease, s, run);
    }

    /** Gives a failed task back with a delay, unless the lease is no longer held. */
    method RetryBackgroundTask(w: Worker, lease: Identity, delayMs: int, code: ErrorCode) returns (r: Result<bool, CallError>, ghost run: seq<Label>)
      requires Inv(Db()) && w !in txs
      modifies this
      ensures Reached(old(Db()), run, Db()) && w !in txs
      ensures r == Failure(InvalidOption) <==> delayMs < 1 || delayMs > 86_400_000 || code.UnknownCode?
      ensures r.Failure? ==> CommitsNothing(run, w) && (r.error.InvalidOption? || Excused(r.error, lease))
      ensures r == Success(true) ==> (
        lease.id in rows && rows[lease.id].status == Pending && rows[lease.id].lastErrorCode == Some(code)
        && rows[lease.id].availableAt >= old(now) + delayMs * 1000)
      ensures r == Success(true) ==> Returned(old(Db()), run, w, lease, delayMs, code)
      ensures r == Success(false) ==> !Owns(rows, lease, now)
    {
      hide Inv, Possible, After, Enabled, Apply;
      ghost var s := Db();
      if !Bounded(delayMs, MAX_RETRY_MS) || code.UnknownCode? {
        NotStarted(s);
        return Failure(InvalidOption), [];
      }
      var acquired, held;
      acquired, run := LockRow(w, RetryLock(w, lease, delayMs, code), s);
      if !acquired {
        return Failure(Cancelled), run;
      }
      run := Meanwhile(w, s, run, iset{});
      held, run := WriteRetry(w, lease, delayMs, code, s, run);
      run := Meanwhile(w, s, run, iset{});
      FencedCommit(Db(), w, lease);
      if held { UpdateStands(Db(), w); }
      CommitIsLast(s, run, Db(), w);
      run := CommitTx(w, s, run);
      r := Success(held);
    }

    /** Extends a lease during external work, unless it is no longer held. */
    method RenewBackgroundTaskLease(w: Worker, lease: Identity, leaseMs: int) returns (r: Result<bool, CallError>, ghost run: seq<Label>)
      requires Inv(Db()) && w !in txs
      modifies this
      ensures Reached(old(Db()), run, Db()) && w !in txs
      ensures r == Failure(InvalidOption) <==> leaseMs < 1 || leaseMs > 300_000
      ensures r.Failure? ==> CommitsNothing(run, w) && (r.error.InvalidOption? || Excused(r.error, lease))
      ensures r == Success(true) ==> Extended(old(Db()), run, w, lease, leaseMs)
      ensures r == Success(true) ==> OwnedBy(rows, lease) && rows[lease.id].leaseUntil.value >= old(now) + leaseMs * 1000
      ensures r == Success(false) ==> !Owns(rows, lease, now)
    {
      hide Inv, Possible, After, Enabled, Apply, LeaseHolds, Owns, ExtendedBy, OwnedBy, Committed;
      ghost var s := Db();
      if !Bounded(leaseMs, MAX_LEASE_MS) {
        NotStarted(s);
        return Failure(InvalidOption), [];
      }
      var acquired, held;
      acquired, run := LockRow(w, RenewLock(w, lease, leaseMs), s);
      if !acquired {
        return Failure(Cancelled), run;
      }
      run := Meanwhile(w, s, run, iset{});
      held, run := WriteRenewal(w, lease, leaseMs, s, run);
      run := Meanwhile(w, s, run, iset{});
      FencedCommit(Db(), w, lease);
      OwnsIsLeaseHolds(rows, lease, now);
      if held {
        UpdateStands(Db(), w);
        RenewalStands(Db(), w, lease, leaseMs);
      }
      CommitIsLast(s, run, Db(), w);
      run := CommitTx(w, s, run);
      r := Success(held);
    }
  }

  lemma VisiblePlus(rows: map<Uuid, Row>, tx: Tx, input: TaskInput, newId: Uuid)
    requires ValidInput(input)
    ensures Visible(rows, tx.(inserts := Plus(tx.inserts, input, newId))) == Plus(Visible(rows, tx), input, newId)
  {}

  lemma FreshToVisible(s: State, w: Worker, newId: Uuid)
    requires w in s.txs && newId !in s.rows && !Unborn(s, newId)
    ensures newId !in Visible(s.rows, s.txs[w])
  {}

  lemma LockApplies(s: State, l: Label)
    requires Locks(l) && l.w !in s.txs && !Locked(s, l.lease.id) && !Unborn(s, l.lease.id)
    ensures Enabled(s, l)
    ensures Apply(s, l) == Put(s, l.w, Tx(PhaseOf(l), LockFor(s, l.lease.id), map[], map[]))
  {}

  lemma ClaimCommits(s: State, w: Worker)
    requires Inv(s) && w in s.txs && s.txs[w].phase.ClaimUpdated?
    ensures forall id :: id in s.txs[w].updates ==> id in Committed(s, w).rows && Committed(s, w).rows[id] == s.txs[w].updates[id]
  {
    assert TxOk(s.rows, s.now, s.tokens, s.txs[w]);
    assert s.txs[w].inserts == map[];
  }

  lemma EmptyClaimCommits(s: State, w: Worker)
    requires Inv(s) && w in s.txs && s.txs[w].phase.ClaimSelected? && s.txs[w].phase.ids == {}
    ensures Committable(s.txs[w].phase)
  {}

  /** What the commit of a retry or a renewal leaves of the row. */
  lemma FencedCommit(s: State, w: Worker, lease: Identity)
    requires Inv(s) && w in s.txs && (s.txs[w].phase.RetryUpdated? || s.txs[w].phase.RenewUpdated?) && s.txs[w].phase.lease == lease
    ensures var t := Committed(s, w);
      && (s.txs[w].updates == map[] ==> t.rows == s.rows && !LeaseHolds(s.rows, lease, s.now))
      && (lease.id in s.txs[w].updates ==> lease.id in t.rows && t.rows[lease.id] == s.txs[w].updates[lease.id])
  {
    hide PhaseOk, InsertsOk, RowShape, RowsOk, AllApart;
    assert TxOk(s.rows, s.now, s.tokens, s.txs[w]);
    FencedUpdate(s.rows, s.now, s.tokens, s.txs[w]);
    if s.txs[w].updates == map[] { assert s.rows + s.txs[w].updates + s.txs[w].inserts == s.rows; }
  }

  lemma FencedUpdate(rows: map<Uuid, Row>, now: int, tokens: set<Uuid>, tx: Tx)
    requires TxOk(rows, now, tokens, tx) && (tx.phase.RetryUpdated? || tx.phase.RenewUpdated?)
    ensures tx.inserts == map[]
    ensures tx.updates == map[] ==> !LeaseHolds(rows, tx.phase.lease, now)
  {}
}

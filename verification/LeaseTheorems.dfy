/** What the queue promises, over every interleaving of any number of workers. */
module LeaseTheorems {
  import opened Prelude
  import opened Ordering
  import opened TaskTable
  import opened LeaseProtocol
  import opened LeaseInvariant
  import opened QueueMeaning

  // ---------------------------------------------------------------- exactly once

  /** A task's effect commits at most once, exactly when its row is COMPLETED. */
  lemma ExactlyOnce(s: State, run: seq<Label>, id: Uuid)
    requires Initial(s) && Possible(s, run)
    ensures var t := After(s, run);
      && t.effects[id] <= 1
      && (t.effects[id] == 1 <==> id in t.rows && t.rows[id].status == Completed)
  {
    InitialInv(s);
    RunKeepsInv(s, run);
    var t := After(s, run);
    if id in t.rows { assert RowLogged(t, id); } else { assert id !in t.effects; }
  }

  /** Every row of every reachable state has a coherent lease and one attempt per claim. */
  lemma ReachableRow(s: State, run: seq<Label>, id: Uuid)
    requires Initial(s) && Possible(s, run) && id in After(s, run).rows
    ensures var t := After(s, run);
      var row := t.rows[id];
      && (row.status == Running <==> row.leaseToken.Some?)
      && (row.status == Running <==> row.leaseUntil.Some?)
      && (row.status == Completed <==> row.completedAt.Some?)
      && row.attempts == t.claims[id]
      && row.intent.dueAt <= row.availableAt
      && (row.status != Pending ==> row.intent.dueAt <= t.now && row.attempts > 0)
      && (row.status == Running ==> row.leaseUntil.value <= t.now + 300_000_000)
      && !row.intent.kind.UnknownKind? && 1 <= row.intent.payloadVersion <= 2147483647
      && 1 <= |row.intent.dedupeKey| <= 250 && row.intent.payload.Object?
      && (row.intent.kind == BonusRecalculate <==> row.intent.sourceEventId.Some?)
      && (row.intent.kind == BonusRecalculate <==> row.intent.targetSessionId.Some?)
      && (row.lastErrorCode.Some? ==> !row.lastErrorCode.value.UnknownCode?)
  {
    InitialInv(s);
    RunKeepsInv(s, run);
    assert RowShape(After(s, run).rows[id], After(s, run).now) && RowLogged(After(s, run), id);
  }

  // ---------------------------------------------------------------- one run after another

  lemma {:induction false} RunThen(s: State, run: seq<Label>, rest: seq<Label>)
    requires Possible(s, run) && Possible(After(s, run), rest)
    ensures Possible(s, run + rest) && After(s, run + rest) == After(After(s, run), rest)
    decreases |run|
  {
    if run == [] {
      assert [] + rest == rest;
    } else {
      RunThen(Apply(s, run[0]), run[1..], rest);
      assert (run + rest)[1..] == run[1..] + rest;
    }
  }

  // ---------------------------------------------------------------- one row, one step

  lemma CommittedRow(s: State, w: Worker, id: Uuid)
    requires Inv(s) && w in s.txs && id in s.rows
    ensures id in Committed(s, w).rows && Committed(s, w).rows[id].intent == s.rows[id].intent
    ensures if id in s.txs[w].updates then id in s.txs[w].locks && Committed(s, w).rows[id] == s.txs[w].updates[id]
            else Committed(s, w).rows[id] == s.rows[id]
  {
    var tx := s.txs[w];
    assert TxOk(s.rows, s.now, s.tokens, tx);
    MergedIntent(s.rows, s.now, s.tokens, tx, id);
    if id in tx.updates { UpdatesAreLocked(s.rows, s.now, s.tokens, tx, id); }
  }

  /** Only a commit writes: until then rows and logs are as they were. */
  lemma OnlyCommitsWrite(s: State, l: Label)
    requires Enabled(s, l) && !l.Commit?
    ensures Apply(s, l).rows == s.rows && Apply(s, l).claims == s.claims && Apply(s, l).effects == s.effects
  {}

  /** A committed row changes only when a transaction that locked it commits an update of it. */
  lemma RowStep(s: State, l: Label, id: Uuid)
    requires Inv(s) && Enabled(s, l) && id in s.rows
    ensures id in Apply(s, l).rows
    ensures Apply(s, l).rows[id] != s.rows[id] ==>
      l.Commit? && id in s.txs[l.w].updates && id in s.txs[l.w].locks && Apply(s, l).rows[id] == s.txs[l.w].updates[id]
    ensures Apply(s, l).rows[id].intent == s.rows[id].intent
  {
    if l.Commit? { CommittedRow(s, l.w, id); } else { OnlyCommitsWrite(s, l); }
  }

  lemma ClockStep(s: State, l: Label)
    requires Enabled(s, l)
    ensures s.now <= Apply(s, l).now && s.tokens <= Apply(s, l).tokens
  {}

  /** Intents are immutable, completed rows are final, attempts never decrease. */
  lemma {:induction false} RowHistory(s: State, run: seq<Label>, id: Uuid)
    requires Inv(s) && Possible(s, run) && id in s.rows
    ensures id in After(s, run).rows
    ensures After(s, run).rows[id].intent == s.rows[id].intent
    ensures s.rows[id].status == Completed ==> After(s, run).rows[id] == s.rows[id]
    ensures s.rows[id].attempts <= After(s, run).rows[id].attempts
    ensures s.now <= After(s, run).now
    decreases |run|
  {
    if run != [] {
      RowStep(s, run[0], id);
      ClockStep(s, run[0]);
      StepKeepsInv(s, run[0]);
      RowStepHistory(s, run[0], id);
      RowHistory(Apply(s, run[0]), run[1..], id);
    }
  }

  lemma RowStepHistory(s: State, l: Label, id: Uuid)
    requires Inv(s) && Enabled(s, l) && id in s.rows
    ensures id in Apply(s, l).rows
    ensures s.rows[id].status == Completed ==> Apply(s, l).rows[id] == s.rows[id]
    ensures s.rows[id].attempts <= Apply(s, l).rows[id].attempts
  {
    RowStep(s, l, id);
    if Apply(s, l).rows[id] != s.rows[id] {
      assert TxOk(s.rows, s.now, s.tokens, s.txs[l.w]) && RowShape(s.rows[id], s.now);
      UpdateShape(s.rows, s.now, s.tokens, s.txs[l.w], id);
    }
  }

  /** What the claim's update stages and draws. */
  lemma ClaimUpdateApplies(s: State, w: Worker, drawn: map<Uuid, Uuid>)
    requires w in s.txs && s.txs[w].phase.ClaimSelected? && s.txs[w].phase.ids != {} && s.txs[w].phase.ids <= s.rows.Keys
    requires FreshTokens(s, s.txs[w].phase.ids, drawn)
    ensures Enabled(s, ClaimUpdate(w, drawn))
    ensures var tx := s.txs[w];
      var phase := ClaimUpdated(tx.phase.ids, tx.phase.leaseMs, s.now, drawn);
      Apply(s, ClaimUpdate(w, drawn)) == s.(txs := s.txs[w := tx.(phase := phase, updates := ClaimUpdates(s.rows, phase))], tokens := s.tokens + drawn.Values)
  {}

  // ---------------------------------------------------------------- the row lock

  lemma OthersKeepTx(s: State, l: Label, w: Worker)
    requires Enabled(s, l) && w in s.txs && !By(l, w)
    ensures w in Apply(s, l).txs && Apply(s, l).txs[w] == s.txs[w]
  {}

  /** No statement of another worker touches an open transaction or a row it has locked. */
  lemma OthersStep(s: State, l: Label, w: Worker)
    requires Inv(s) && Enabled(s, l) && w in s.txs && !By(l, w)
    ensures w in Apply(s, l).txs && Apply(s, l).txs[w] == s.txs[w]
    ensures forall id :: id in s.txs[w].locks && id in s.rows ==> id in Apply(s, l).rows && Apply(s, l).rows[id] == s.rows[id]
  {
    OthersKeepTx(s, l, w);
    forall id | id in s.txs[w].locks && id in s.rows
      ensures id in Apply(s, l).rows && Apply(s, l).rows[id] == s.rows[id]
    {
      RowStep(s, l, id);
      if l.Commit? { assert Apart(s.txs[l.w], s.txs[w]); }
    }
  }

  lemma {:induction false} OthersRun(s: State, run: seq<Label>, w: Worker)
    requires Inv(s) && Possible(s, run) && w in s.txs
    requires forall l :: l in run ==> !By(l, w)
    ensures Inv(After(s, run)) && s.now <= After(s, run).now
    ensures w in After(s, run).txs && After(s, run).txs[w] == s.txs[w]
    ensures forall id :: id in s.txs[w].locks && id in s.rows ==> id in After(s, run).rows && After(s, run).rows[id] == s.rows[id]
    decreases |run|
  {
    if run != [] {
      OthersStep(s, run[0], w);
      ClockStep(s, run[0]);
      StepKeepsInv(s, run[0]);
      OthersRun(Apply(s, run[0]), run[1..], w);
    }
  }

  lemma OthersOpenNoTx(s: State, l: Label, w: Worker)
    requires Enabled(s, l) && w !in s.txs && !By(l, w)
    ensures w !in Apply(s, l).txs
  {}

  /** Nor does it open a transaction for this one. */
  lemma {:induction false} OthersOpenNothing(s: State, run: seq<Label>, w: Worker)
    requires Inv(s) && Possible(s, run) && w !in s.txs
    requires forall l :: l in run ==> !By(l, w)
    ensures Inv(After(s, run)) && s.now <= After(s, run).now && w !in After(s, run).txs
    decreases |run|
  {
    if run != [] {
      StepKeepsInv(s, run[0]);
      ClockStep(s, run[0]);
      OthersOpenNoTx(s, run[0], w);
      OthersOpenNothing(Apply(s, run[0]), run[1..], w);
    }
  }

  lemma LockedExcludes(s: State, v: Worker, id: Uuid, token: Uuid)
    requires Locked(s, id)
    ensures !Enabled(s, RunLock(v, Identity(id, token)))
    ensures forall ms, code :: !Enabled(s, RetryLock(v, Identity(id, token), ms, code))
    ensures forall ms :: !Enabled(s, RenewLock(v, Identity(id, token), ms))
    ensures forall kinds, limit: nat :: id !in Candidates(s, kinds, limit)
  {}

  /** While a transaction holds a row, whatever others do and for however long, nobody else can lock or claim it. */
  lemma LockExcludes(s: State, run: seq<Label>, w: Worker, v: Worker, id: Uuid, token: Uuid)
    requires Inv(s) && Possible(s, run) && w in s.txs && id in s.txs[w].locks
    requires forall l :: l in run ==> !By(l, w)
    ensures var t := After(s, run);
      && !Enabled(t, RunLock(v, Identity(id, token)))
      && (forall ms, code :: !Enabled(t, RetryLock(v, Identity(id, token), ms, code)))
      && (forall ms :: !Enabled(t, RenewLock(v, Identity(id, token), ms)))
      && forall kinds, limit: nat :: id !in Candidates(t, kinds, limit)
  {
    hide Inv, Possible, After, Enabled, Candidates;
    OthersRun(s, run, w);
    LockedExcludes(After(s, run), v, id, token);
  }

  lemma CompletedRun(s: State, w: Worker)
    requires Inv(s) && w in s.txs && s.txs[w].phase.RunCompleted?
    ensures var lease := s.txs[w].phase.lease;
      && lease.id in s.rows && s.txs[w].locks == {lease.id} && s.effects[lease.id] == 0
      && Committed(s, w).rows[lease.id] == CompletedRow(s.rows[lease.id], s.txs[w].phase.at)
      && Committed(s, w).effects == s.effects + multiset{lease.id}
  {
    var lease := s.txs[w].phase.lease;
    assert TxOk(s.rows, s.now, s.tokens, s.txs[w]);
    CommittedRow(s, w, lease.id);
    assert RowLogged(s, lease.id);
  }

  /**
   * After the final lease check the clock may pass the deadline and every other worker may run
   * for as long as it likes: the row is still exactly as checked, and the commit completes it and
   * logs its effect once.
   */
  lemma LockCoversTheGap(s: State, w: Worker, run: seq<Label>)
    requires Inv(s) && Possible(s, run) && w in s.txs && s.txs[w].phase.RunCompleted?
    requires forall l :: l in run ==> !By(l, w)
    ensures var lease := s.txs[w].phase.lease;
      var t := After(s, run);
      && lease.id in s.rows && lease.id in t.rows && t.rows[lease.id] == s.rows[lease.id] && Locked(t, lease.id)
      && Enabled(t, Commit(w)) && lease.id in Apply(t, Commit(w)).rows
      && Apply(t, Commit(w)).rows[lease.id] == Done(s.rows[lease.id], s.txs[w].phase.at)
      && t.effects[lease.id] == 0 && Apply(t, Commit(w)).effects[lease.id] == 1
  {
    CompletedRun(s, w);
    OthersRun(s, run, w);
    CompletedRun(After(s, run), w);
  }

  // ---------------------------------------------------------------- fencing

  /** An identity that was issued, no longer owns its row and is staged by nobody. */
  predicate Dead(s: State, lease: Identity) {
    && lease.leaseToken in s.tokens
    && !OwnedBy(s.rows, lease)
    && forall w :: w in s.txs && lease.id in s.txs[w].updates ==> s.txs[w].updates[lease.id].leaseToken != Some(lease.leaseToken)
  }

  lemma ProgressedToken(s: State, l: Label, lease: Identity)
    requires Inv(s) && Enabled(s, l) && Progresses(l) && Progressed(s, l).Some?
    requires Dead(s, lease) && lease.id in Progressed(s, l).value.updates
    ensures Progressed(s, l).value.updates[lease.id].leaseToken != Some(lease.leaseToken)
  {
    assert TxOk(s.rows, s.now, s.tokens, s.txs[l.w]);
  }

  lemma CommitKeepsDead(s: State, w: Worker, lease: Identity)
    requires Inv(s) && w in s.txs && Dead(s, lease)
    ensures Dead(Committed(s, w), lease)
  {
    if lease.id in s.rows {
      CommittedRow(s, w, lease.id);
    } else {
      assert TxOk(s.rows, s.now, s.tokens, s.txs[w]);
      if lease.id in Merged(s.rows, s.txs[w]) { MergedIntent(s.rows, s.now, s.tokens, s.txs[w], lease.id); }
    }
  }

  lemma PutKeepsDead(s: State, w: Worker, tx: Tx, tokens: set<Uuid>, lease: Identity)
    requires Dead(s, lease) && s.tokens <= tokens
    requires lease.id in tx.updates ==> tx.updates[lease.id].leaseToken != Some(lease.leaseToken)
    ensures Dead(Put(s, w, tx).(tokens := tokens), lease)
  {}

  lemma OpenedStagesNothing(s: State, l: Label)
    requires Enabled(s, l) && Opens(l)
    ensures Opened(s, l).updates == map[]
  {
    hide Candidates;
  }

  lemma StepKeepsDead(s: State, l: Label, lease: Identity)
    requires Inv(s) && Enabled(s, l) && Dead(s, lease)
    ensures Dead(Apply(s, l), lease)
  {
    hide Inv, Opened, Progressed, OwnedBy;
    if l.Commit? {
      CommitKeepsDead(s, l.w, lease);
    } else if Opens(l) {
      OpenedStagesNothing(s, l);
      PutKeepsDead(s, l.w, Opened(s, l), s.tokens, lease);
    } else if Progresses(l) {
      if Progressed(s, l).Some? {
        if lease.id in Progressed(s, l).value.updates { ProgressedToken(s, l, lease); }
        PutKeepsDead(s, l.w, Progressed(s, l).value, s.tokens + Drawn(l), lease);
      }
    } else if l.Enqueue? && l.w in Enqueued(s, l.w, l.input, l.newId).txs {
      PutKeepsDead(s, l.w, Enqueued(s, l.w, l.input, l.newId).txs[l.w], s.tokens, lease);
    }
  }

  /** Once dead, dead in every continuation. */
  lemma {:induction false} DeadForever(s: State, run: seq<Label>, lease: Identity)
    requires Inv(s) && Possible(s, run) && Dead(s, lease)
    ensures Dead(After(s, run), lease)
    decreases |run|
  {
    if run != [] {
      StepKeepsDead(s, run[0], lease);
      StepKeepsInv(s, run[0]);
      DeadForever(Apply(s, run[0]), run[1..], lease);
    }
  }

  /** Whatever step takes the row away from its owner kills the identity. */
  lemma LosingIsDying(s: State, l: Label, lease: Identity)
    requires Inv(s) && Enabled(s, l) && OwnedBy(s.rows, lease) && !OwnedBy(Apply(s, l).rows, lease)
    ensures Dead(Apply(s, l), lease)
  {
    RowStep(s, l, lease.id);
    assert RowLogged(s, lease.id);
    forall v | v in s.txs && v != l.w ensures lease.id !in s.txs[v].updates {
      assert Apart(s.txs[l.w], s.txs[v]);
      assert TxOk(s.rows, s.now, s.tokens, s.txs[v]);
      if lease.id in s.txs[v].updates { UpdatesAreLocked(s.rows, s.now, s.tokens, s.txs[v], lease.id); }
    }
  }

  /** Ownership, once lost along a run, is never regained. */
  lemma {:induction false} NeverRegained(s: State, first: seq<Label>, rest: seq<Label>, lease: Identity)
    requires Inv(s) && Possible(s, first) && OwnedBy(s.rows, lease)
    requires !OwnedBy(After(s, first).rows, lease) && Possible(After(s, first), rest)
    ensures Dead(After(After(s, first), rest), lease)
    decreases |first|
  {
    var next := Apply(s, first[0]);
    StepKeepsInv(s, first[0]);
    if OwnedBy(next.rows, lease) {
      NeverRegained(next, first[1..], rest, lease);
    } else {
      LosingIsDying(s, first[0], lease);
      DeadForever(next, first[1..], lease);
      RunKeepsInv(next, first[1..]);
      DeadForever(After(s, first), rest, lease);
    }
  }

  /** Leases of a task never interleave: once another identity owns it the first is fenced for good. */
  lemma OneOwner(s: State, run: seq<Label>, rest: seq<Label>, first: Identity, next: Identity)
    requires Inv(s) && Possible(s, run) && Possible(After(s, run), rest)
    requires first.id == next.id && first != next && OwnedBy(s.rows, first) && OwnedBy(After(s, run).rows, next)
    ensures Dead(After(After(s, run), rest), first)
  {
    NeverRegained(s, run, rest, first);
  }

  /** A fenced statement of a dead identity does nothing, now or after any continuation. */
  lemma StaleIdentityIsNoOp(s: State, run: seq<Label>, l: Label, lease: Identity)
    requires Inv(s) && Possible(s, run) && Dead(s, lease) && Enabled(After(s, run), l)
    requires l.RunCheck? || l.RunComplete? || l.RetryUpdate? || l.RenewUpdate?
    requires After(s, run).txs[l.w].phase.lease == lease
    ensures var t := After(s, run);
      var t' := Apply(t, l);
      && t'.rows == t.rows && t'.effects == t.effects && t'.claims == t.claims
      && (l.w in t'.txs ==> (l.RetryUpdate? || l.RenewUpdate?) && t'.txs[l.w].updates == map[])
  {
    DeadForever(s, run, lease);
  }

  /** A claim replaces the token of every row it takes, so it fences off every earlier owner. */
  lemma ClaimFencesEarlierOwners(s: State, w: Worker, lease: Identity)
    requires Inv(s) && w in s.txs && s.txs[w].phase.ClaimUpdated?
    requires lease.id in s.txs[w].phase.ids && OwnedBy(s.rows, lease)
    ensures Dead(Apply(s, Commit(w)), lease)
    ensures OwnedBy(Apply(s, Commit(w)).rows, Identity(lease.id, s.txs[w].phase.tokens[lease.id]))
  {
    assert TxOk(s.rows, s.now, s.tokens, s.txs[w]);
    CommittedRow(s, w, lease.id);
    LosingIsDying(s, Commit(w), lease);
  }

  // ---------------------------------------------------------------- abandonment

  predicate NoRenewal(s: State, id: Uuid) {
    forall w :: w in s.txs && (s.txs[w].phase.RenewLocked? || s.txs[w].phase.RenewUpdated?) ==> s.txs[w].phase.lease.id != id
  }

  predicate Renews(l: Label, id: Uuid) {
    l.RenewLock? && l.lease.id == id
  }

  lemma NoRenewalStep(s: State, l: Label, id: Uuid)
    requires Enabled(s, l) && NoRenewal(s, id) && !Renews(l, id)
    ensures NoRenewal(Apply(s, l), id)
  {
    if Progresses(l) && Progressed(s, l).Some? { ProgressFrame(s, l); }
  }

  /** Without a renewal every update of a running row takes it from its owner. */
  lemma UnrenewedUpdate(rows: map<Uuid, Row>, now: int, tokens: set<Uuid>, tx: Tx, lease: Identity)
    requires PhaseOk(rows, now, tokens, tx) && OwnedBy(rows, lease) && lease.id in tx.updates && !tx.phase.RenewUpdated?
    ensures tx.updates[lease.id].leaseToken != Some(lease.leaseToken)
  {}

  lemma RenewalOfRow(rows: map<Uuid, Row>, now: int, tokens: set<Uuid>, tx: Tx, id: Uuid)
    requires PhaseOk(rows, now, tokens, tx) && id in tx.updates && tx.phase.RenewUpdated?
    ensures tx.phase.lease.id == id
    ensures id in rows && rows[id].leaseUntil.Some? && tx.updates[id].leaseUntil.Some?
    ensures tx.updates[id] == rows[id].(leaseUntil := tx.updates[id].leaseUntil)
    ensures rows[id].leaseUntil.value <= tx.updates[id].leaseUntil.value
  {}

  lemma UnrenewedStep(s: State, l: Label, lease: Identity)
    requires Inv(s) && Enabled(s, l) && OwnedBy(s.rows, lease) && NoRenewal(s, lease.id)
    ensures OwnedBy(Apply(s, l).rows, lease) ==> Apply(s, l).rows[lease.id] == s.rows[lease.id]
  {
    RowStep(s, l, lease.id);
    if Apply(s, l).rows[lease.id] != s.rows[lease.id] {
      var tx := s.txs[l.w];
      assert TxOk(s.rows, s.now, s.tokens, tx);
      if tx.phase.RenewUpdated? { RenewalOfRow(s.rows, s.now, s.tokens, tx, lease.id); }
      UnrenewedUpdate(s.rows, s.now, s.tokens, tx, lease);
    }
  }

  lemma {:induction false} UnrenewedRun(s: State, run: seq<Label>, lease: Identity)
    requires Inv(s) && Possible(s, run) && OwnedBy(s.rows, lease) && NoRenewal(s, lease.id)
    requires forall l :: l in run ==> !Renews(l, lease.id)
    ensures OwnedBy(After(s, run).rows, lease) ==> After(s, run).rows[lease.id] == s.rows[lease.id]
    decreases |run|
  {
    if run != [] {
      var next := Apply(s, run[0]);
      UnrenewedStep(s, run[0], lease);
      NoRenewalStep(s, run[0], lease.id);
      StepKeepsInv(s, run[0]);
      if OwnedBy(next.rows, lease) {
        UnrenewedRun(next, run[1..], lease);
      } else {
        LosingIsDying(s, run[0], lease);
        DeadForever(next, run[1..], lease);
      }
    }
  }

  /**
   * A worker that stops renewing loses its task within the longest lease: 300000 ms later the row
   * is claimable unless it already left the worker, and a claim sees it unless a transaction
   * still holds its lock.
   */
  lemma AbandonedTaskIsClaimable(s: State, run: seq<Label>, lease: Identity, kinds: seq<Kind>)
    requires Inv(s) && Possible(s, run) && OwnedBy(s.rows, lease) && NoRenewal(s, lease.id)
    requires forall l :: l in run ==> !Renews(l, lease.id)
    requires After(s, run).now >= s.now + 300_000_000
    ensures var t := After(s, run);
      OwnedBy(t.rows, lease) ==>
        && t.rows[lease.id].leaseUntil.value <= t.now && !LeaseHolds(t.rows, lease, t.now)
        && (t.rows[lease.id].intent.kind in kinds && !Locked(t, lease.id) ==> TaskKey(t.rows, lease.id) in Eligible(t, kinds))
  {
    UnrenewedRun(s, run, lease);
    assert RowShape(s.rows[lease.id], s.now);
  }

  /** A committed renewal never shortens a lease and changes nothing else. */
  lemma RenewNeverShortens(s: State, w: Worker, id: Uuid)
    requires Inv(s) && w in s.txs && s.txs[w].phase.RenewUpdated? && id in s.rows
    ensures var row, row' := s.rows[id], Apply(s, Commit(w)).rows[id];
      row' != row ==> && row.leaseUntil.Some? && row'.leaseUntil.Some? && row.leaseUntil.value <= row'.leaseUntil.value
                      && row' == row.(leaseUntil := row'.leaseUntil)
  {
    CommitApplies(s, w);
    hide RowsOk, PhaseOk, InsertsOk, AllApart, Apply;
    assert TxOk(s.rows, s.now, s.tokens, s.txs[w]);
    CommittedRow(s, w, id);
    if id in s.txs[w].updates { RenewalOfRow(s.rows, s.now, s.tokens, s.txs[w], id); }
  }

  // ---------------------------------------------------------------- never early

  lemma PendingUpdate(rows: map<Uuid, Row>, now: int, tokens: set<Uuid>, tx: Tx, id: Uuid)
    requires PhaseOk(rows, now, tokens, tx) && id in tx.updates
    ensures id in rows && (rows[id].status == Pending ==> rows[id].availableAt <= now)
  {}

  /** A pending task is left alone until its time comes, whatever the workers do. */
  lemma {:induction false} PendingUntilAvailable(s: State, run: seq<Label>, id: Uuid)
    requires Inv(s) && Possible(s, run) && id in s.rows && s.rows[id].status == Pending
    requires After(s, run).now < s.rows[id].availableAt
    ensures id in After(s, run).rows && After(s, run).rows[id] == s.rows[id]
    decreases |run|
  {
    if run != [] {
      var next := Apply(s, run[0]);
      StepKeepsInv(s, run[0]);
      RowStep(s, run[0], id);
      ClockStep(s, run[0]);
      RowHistory(next, run[1..], id);
      if next.rows[id] != s.rows[id] {
        assert TxOk(s.rows, s.now, s.tokens, s.txs[run[0].w]);
        PendingUpdate(s.rows, s.now, s.tokens, s.txs[run[0].w], id);
        assert false;
      }
      PendingUntilAvailable(next, run[1..], id);
    }
  }

  /** A retry with delay d keeps the task from everybody until d has elapsed since the update. */
  lemma RetryWaitsOutItsDelay(s: State, w: Worker, run: seq<Label>)
    requires Inv(s) && w in s.txs && s.txs[w].phase.RetryUpdated? && s.txs[w].updates != map[]
    requires Possible(Apply(s, Commit(w)), run)
    requires After(Apply(s, Commit(w)), run).now < s.txs[w].phase.at + s.txs[w].phase.ms * 1000
    ensures var id := s.txs[w].phase.lease.id;
      var t := After(Apply(s, Commit(w)), run);
      id in t.rows && t.rows[id].status == Pending && t.rows[id].lastErrorCode == Some(s.txs[w].phase.code)
  {
    CommitApplies(s, w);
    hide RowsOk, InsertsOk, AllApart, Apply, Possible, After;
    var id := s.txs[w].phase.lease.id;
    assert TxOk(s.rows, s.now, s.tokens, s.txs[w]);
    CommittedRow(s, w, id);
    StepKeepsInv(s, Commit(w));
    PendingUntilAvailable(Apply(s, Commit(w)), run, id);
  }

  // ---------------------------------------------------------------- enqueue

  lemma MapsUnique(rows: map<Uuid, Row>, tx: Tx)
    requires Unique(rows) && InsertsOk(rows, tx)
    ensures Unique(Visible(rows, tx))
  {
    var m := Visible(rows, tx);
    forall i, j | i in m && j in m && i != j ensures !Clash(m[i].intent, m[j].intent) {
      if i in tx.inserts && j !in tx.inserts { assert !Taken(rows, tx.inserts[i].intent); }
      if j in tx.inserts && i !in tx.inserts { assert !Taken(rows, tx.inserts[j].intent); }
    }
  }

  /** What a transaction sees never breaks a unique index, and shows committed rows as they are. */
  lemma VisibleRows(s: State, w: Worker)
    requires Inv(s) && w in s.txs
    ensures Unique(Visible(s.rows, s.txs[w]))
    ensures forall id :: id in s.rows ==> id in Visible(s.rows, s.txs[w]) && Visible(s.rows, s.txs[w])[id] == s.rows[id]
  {
    assert TxOk(s.rows, s.now, s.tokens, s.txs[w]);
    MapsUnique(s.rows, s.txs[w]);
  }

  lemma EnqueueWithoutInsert(s: State, w: Worker, input: TaskInput, newId: Uuid)
    requires Enabled(s, Enqueue(w, input, newId)) && !Creates(Visible(s.rows, s.txs[w]), input)
    ensures Apply(s, Enqueue(w, input, newId)) == s
  {}

  /**
   * A committed intent answers every later enqueue of the same intent with the same identifier,
   * in whatever state the task is by then, and the replay changes nothing.
   */
  lemma EnqueueReplays(s: State, run: seq<Label>, id: Uuid, w: Worker, input: TaskInput, newId: Uuid)
    requires Inv(s) && Possible(s, run) && id in s.rows
    requires !Malformed(input) && Asks(input, s.rows[id].intent)
    requires Enabled(After(s, run), Enqueue(w, input, newId))
    ensures var t := After(s, run);
      && Unique(Visible(t.rows, t.txs[w]))
      && Admit(Visible(t.rows, t.txs[w]), input, newId) == Success(Admission(id, false))
      && Apply(t, Enqueue(w, input, newId)) == t
  {
    var t := After(s, run);
    assert RowShape(s.rows[id], s.now);
    InputMeans(input);
    RunKeepsInv(s, run);
    RowHistory(s, run, id);
    VisibleRows(t, w);
    AdmitKnown(Visible(t.rows, t.txs[w]), id, input, newId);
    EnqueueWithoutInsert(t, w, input, newId);
  }

  /** A different intent under a stored key or bonus pair is refused and changes nothing, for the task's whole life. */
  lemma EnqueueConflicts(s: State, run: seq<Label>, id: Uuid, w: Worker, input: TaskInput, newId: Uuid)
    requires Inv(s) && Possible(s, run) && id in s.rows
    requires !Malformed(input) && !Unstorable(input)
    requires Rivals(s.rows[id].intent, input) && !Asks(input, s.rows[id].intent)
    requires Enabled(After(s, run), Enqueue(w, input, newId))
    ensures var t := After(s, run);
      && Unique(Visible(t.rows, t.txs[w]))
      && Admit(Visible(t.rows, t.txs[w]), input, newId) == Failure(IntentConflict)
      && Apply(t, Enqueue(w, input, newId)) == t
  {
    var t := After(s, run);
    InputMeans(input);
    RivalsMeans(input, s.rows[id].intent);
    RunKeepsInv(s, run);
    RowHistory(s, run, id);
    VisibleRows(t, w);
    AdmitConflicting(Visible(t.rows, t.txs[w]), id, input, newId);
    EnqueueWithoutInsert(t, w, input, newId);
  }

  /** At most one row per deduplication key, and one per bonus source and target, ever. */
  lemma OneRowPerKey(s: State, run: seq<Label>, i: Uuid, j: Uuid)
    requires Initial(s) && Possible(s, run)
    requires i in After(s, run).rows && j in After(s, run).rows
    ensures var a, b := After(s, run).rows[i].intent, After(s, run).rows[j].intent;
      && (a.dedupeKey == b.dedupeKey ==> i == j)
      && (a.kind == b.kind == BonusRecalculate && a.sourceEventId == b.sourceEventId && a.targetSessionId == b.targetSessionId ==> i == j)
  {
    InitialInv(s);
    RunKeepsInv(s, run);
    assert Unique(After(s, run).rows);
  }
}

/** Whole transactions: one that does not commit is as if it had never been, and an owner can finish. */
module LeaseRuns {
  import opened Prelude
  import opened Ordering
  import opened TaskTable
  import opened LeaseProtocol
  import opened LeaseInvariant
  import opened QueueMeaning
  import opened LeaseTheorems

  lemma OneStep(s: State, l: Label, t: State, rest: seq<Label>)
    requires Enabled(s, l) && Apply(s, l) == t && Possible(t, rest)
    ensures Possible(s, [l] + rest) && After(s, [l] + rest) == After(t, rest)
  {
    assert ([l] + rest)[1..] == rest;
  }

  lemma LastStep(s: State, l: Label, t: State)
    requires Enabled(s, l) && Apply(s, l) == t
    ensures Possible(s, [l]) && After(s, [l]) == t
  {
    assert [l][1..] == [];
  }

  // ---------------------------------------------------------------- a run that does not commit

  /** The statements of an attempt to run a task: everything but the commit. */
  predicate AttemptOf(l: Label, w: Worker, lease: Identity) {
    By(l, w) ==> l == RunLock(w, lease) || l.RunCheck? || l.Enqueue? || l.RunStage? || l.RunComplete? || l.Abort?
  }

  /** Another worker's claim finds the row locked only if it would otherwise have taken it. */
  predicate Overlooks(s: State, l: Label, w: Worker, id: Uuid) {
    !By(l, w) && l.ClaimSelect? && l.limit >= 0 && w in s.txs ==> id !in Candidates(End(s, w), l.kinds, l.limit)
  }

  /** No claim of the run would have taken the row while this worker's transaction was open. */
  ghost predicate Unnoticed(s: State, run: seq<Label>, w: Worker, id: Uuid)
    requires Possible(s, run)
    decreases |run|
  {
    run != [] ==> Overlooks(s, run[0], w, id) && Unnoticed(Apply(s, run[0]), run[1..], w, id)
  }

  /** The run without the statements of one worker. */
  function Without(run: seq<Label>, w: Worker): seq<Label> {
    if run == [] then [] else (if By(run[0], w) then [] else [run[0]]) + Without(run[1..], w)
  }

  /** The worker holds nothing but the named row. */
  predicate HoldsOnly(s: State, w: Worker, lease: Identity) {
    w in s.txs ==>
      (s.txs[w].locks <= {lease.id} && s.txs[w].phase.Named() && s.txs[w].phase.lease == lease && !s.txs[w].phase.ClaimUpdated?)
  }

  lemma AttemptStep(s: State, l: Label, w: Worker, lease: Identity)
    requires Enabled(s, l) && By(l, w) && AttemptOf(l, w, lease) && HoldsOnly(s, w, lease)
    ensures End(Apply(s, l), w) == End(s, w) && HoldsOnly(Apply(s, l), w, lease)
  {
    if Progresses(l) && Progressed(s, l).Some? { ProgressFrame(s, l); }
    if w in Apply(s, l).txs { EndOfPut(s.txs, w, Apply(s, l).txs[w]); }
    assert s.tokens + {} == s.tokens && s.txs - {w} - {w} == s.txs - {w};
  }

  lemma EndOfPut(txs: map<Worker, Tx>, w: Worker, tx: Tx)
    ensures txs[w := tx] - {w} == txs - {w}
  {}

  /** Rows other than the worker's one are as locked without its transaction as with it. */
  lemma LocksWithout(s: State, w: Worker, lease: Identity, id: Uuid)
    requires HoldsOnly(s, w, lease) && id != lease.id
    ensures LockedBy(End(s, w).txs, id) <==> LockedBy(s.txs, id)
  {
    if v :| v in s.txs && id in s.txs[v].locks { assert v in End(s, w).txs && id in End(s, w).txs[v].locks; }
  }

  /** The lock takes the row itself, and nothing else, from the rows a claim may return. */
  lemma EligibleWithout(s: State, w: Worker, lease: Identity, kinds: seq<Kind>)
    requires HoldsOnly(s, w, lease)
    ensures Eligible(s, kinds) <= Eligible(End(s, w), kinds)
    ensures forall k :: k in Eligible(End(s, w), kinds) && k.id != lease.id ==> k in Eligible(s, kinds)
  {
    hide Claimable, LockedBy;
    forall id | id in s.rows && id != lease.id ensures LockedBy(End(s, w).txs, id) <==> LockedBy(s.txs, id) {
      LocksWithout(s, w, lease, id);
    }
    FewerLocks(s, w, lease.id);
  }

  lemma FewerLocks(s: State, w: Worker, id: Uuid)
    ensures LockedBy(End(s, w).txs, id) ==> LockedBy(s.txs, id)
  {}

  /** A row a claim leaves out anyway may as well be locked. */
  lemma SameCandidates(s: State, w: Worker, lease: Identity, kinds: seq<Kind>, limit: nat)
    requires HoldsOnly(s, w, lease) && lease.id !in Candidates(End(s, w), kinds, limit)
    ensures Candidates(End(s, w), kinds, limit) == Candidates(s, kinds, limit)
  {
    hide HoldsOnly, First, Claimable, LockedBy;
    var all, less := Eligible(End(s, w), kinds), Eligible(s, kinds);
    EligibleWithout(s, w, lease, kinds);
    if lease.id in s.rows && TaskKey(s.rows, lease.id) in all && less != all {
      assert less == all - {TaskKey(s.rows, lease.id)};
      FirstWithout(all, limit, TaskKey(s.rows, lease.id));
    } else {
      assert less == all;
    }
  }

  lemma OtherStaysEnabled(s: State, l: Label, w: Worker, lease: Identity)
    requires Enabled(s, l) && !By(l, w)
    ensures Enabled(End(s, w), l)
  {
    var t := End(s, w);
    assert forall id :: Locked(t, id) ==> Locked(s, id);
    assert forall id :: Unborn(t, id) ==> Unborn(s, id);
    assert forall id :: Mentioned(t, id) ==> Mentioned(s, id);
    assert forall v, intent :: MustWait(t, v, intent) ==> MustWait(s, v, intent);
  }

  lemma OtherOpens(s: State, l: Label, w: Worker, lease: Identity)
    requires Enabled(s, l) && Opens(l) && l.w != w && HoldsOnly(s, w, lease) && Overlooks(s, l, w, lease.id)
    ensures Enabled(End(s, w), l) && Apply(End(s, w), l) == End(Apply(s, l), w)
  {
    hide Candidates, Locked, Unborn, MustWait, Mentioned, HoldsOnly;
    OtherStaysEnabled(s, l, w, lease);
    if w !in s.txs {
      assert s.txs - {w} == s.txs;
    } else if l.ClaimSelect? {
      SameCandidates(s, w, lease, l.kinds, l.limit);
    }
    PutThenEnd(s.txs, l.w, w, Opened(s, l));
  }

  lemma OtherProgresses(s: State, l: Label, w: Worker)
    requires Enabled(s, l) && Progresses(l) && l.w != w
    ensures Enabled(End(s, w), l) && Apply(End(s, w), l) == End(Apply(s, l), w)
  {
    hide LeaseHolds, ClaimUpdates, CompletedRow, RetriedRow, RenewedRow;
    EndsCommute(s.txs, l.w, w);
    if Progressed(s, l).Some? { PutThenEnd(s.txs, l.w, w, Progressed(s, l).value); }
  }

  lemma OtherWrites(s: State, l: Label, w: Worker, lease: Identity)
    requires Enabled(s, l) && !By(l, w) && !Opens(l) && !Progresses(l)
    ensures Enabled(End(s, w), l) && Apply(End(s, w), l) == End(Apply(s, l), w)
  {
    hide Unborn, MustWait, Mentioned, Creates, Plus, Visible;
    OtherStaysEnabled(s, l, w, lease);
    if !l.Tick? {
      EndsCommute(s.txs, l.w, w);
      if l.w in Apply(s, l).txs { PutThenEnd(s.txs, l.w, w, Apply(s, l).txs[l.w]); }
    }
  }

  lemma OtherStep(s: State, l: Label, w: Worker, lease: Identity)
    requires Enabled(s, l) && !By(l, w) && HoldsOnly(s, w, lease) && Overlooks(s, l, w, lease.id)
    ensures Enabled(End(s, w), l) && Apply(End(s, w), l) == End(Apply(s, l), w)
    ensures HoldsOnly(Apply(s, l), w, lease)
  {
    hide Enabled, Apply;
    OtherKeepsHold(s, l, w, lease);
    if Opens(l) { OtherOpens(s, l, w, lease); }
    else if Progresses(l) { OtherProgresses(s, l, w); }
    else { OtherWrites(s, l, w, lease); }
  }

  lemma EndsCommute(txs: map<Worker, Tx>, v: Worker, w: Worker)
    ensures txs - {w} - {v} == txs - {v} - {w}
  {}

  lemma PutThenEnd(txs: map<Worker, Tx>, v: Worker, w: Worker, tx: Tx)
    requires v != w
    ensures (txs - {w})[v := tx] == txs[v := tx] - {w}
  {}

  /**
   * Whatever ends an attempt without a commit, a lease lost at either check, an effect that throws,
   * a crash, the database is what the other workers' statements alone leave, from the opening of the
   * transaction on, unless a claim would have taken the row meanwhile.
   */
  lemma {:induction false} UncommittedRunIsInvisible(s: State, run: seq<Label>, w: Worker, lease: Identity)
    requires Possible(s, run) && HoldsOnly(s, w, lease) && Unnoticed(s, run, w, lease.id)
    requires forall l :: l in run ==> AttemptOf(l, w, lease)
    ensures Possible(End(s, w), Without(run, w))
    ensures After(End(s, w), Without(run, w)) == End(After(s, run), w)
    decreases |run|
  {
    hide Enabled, Apply, HoldsOnly, AttemptOf, Overlooks;
    if run != [] {
      var l, next, rest := run[0], Apply(s, run[0]), run[1..];
      assert l in run && forall x :: x in rest ==> x in run;
      if By(l, w) {
        AttemptStep(s, l, w, lease);
        UncommittedRunIsInvisible(next, rest, w, lease);
        assert Without(run, w) == Without(rest, w);
      } else {
        OtherStep(s, l, w, lease);
        UncommittedRunIsInvisible(next, rest, w, lease);
        OneStep(End(s, w), l, End(next, w), Without(rest, w));
      }
    }
  }

  /** In particular a run whose transaction is over leaves exactly what it found and others did. */
  lemma FailedRunLeavesNothing(s: State, run: seq<Label>, w: Worker, lease: Identity)
    requires Possible(s, run) && w !in s.txs && w !in After(s, run).txs && Unnoticed(s, run, w, lease.id)
    requires forall l :: l in run ==> AttemptOf(l, w, lease)
    ensures Possible(s, Without(run, w)) && After(s, Without(run, w)) == After(s, run)
  {
    hide Possible, After, AttemptOf, Unnoticed;
    assert s.txs - {w} == s.txs && After(s, run).txs - {w} == After(s, run).txs;
    UncommittedRunIsInvisible(s, run, w, lease);
  }

  /** A lease that has run out at either check ends the attempt there, and so leaves nothing of it. */
  lemma ExpiredRunLeavesNothing(s: State, run: seq<Label>, w: Worker, lease: Identity, check: Label)
    requires Possible(s, run) && w !in s.txs && Unnoticed(s, run, w, lease.id)
    requires forall l :: l in run ==> AttemptOf(l, w, lease)
    requires check in {RunCheck(w), RunComplete(w)} && Enabled(After(s, run), check)
    requires !Owns(After(s, run).rows, lease, After(s, run).now)
    ensures Possible(s, Without(run, w)) && After(s, Without(run, w)) == Apply(After(s, run), check)
  {
    hide Possible, After, AttemptOf, Unnoticed;
    assert s.txs - {w} == s.txs;
    UncommittedRunIsInvisible(s, run, w, lease);
    AttemptNames(s, run, w, lease);
  }

  lemma OtherKeepsHold(s: State, l: Label, w: Worker, lease: Identity)
    requires Enabled(s, l) && !By(l, w) && HoldsOnly(s, w, lease)
    ensures HoldsOnly(Apply(s, l), w, lease)
  {
    if w in s.txs { OthersKeepTx(s, l, w); } else { OthersOpenNoTx(s, l, w); }
  }

  /** An open attempt is one under the lease it was made with. */
  lemma {:induction false} AttemptNames(s: State, run: seq<Label>, w: Worker, lease: Identity)
    requires Possible(s, run) && HoldsOnly(s, w, lease)
    requires forall l :: l in run ==> AttemptOf(l, w, lease)
    ensures HoldsOnly(After(s, run), w, lease)
    decreases |run|
  {
    hide Enabled, Apply, HoldsOnly, AttemptOf;
    if run != [] {
      assert run[0] in run && forall x :: x in run[1..] ==> x in run;
      if By(run[0], w) { AttemptStep(s, run[0], w, lease); } else { OtherKeepsHold(s, run[0], w, lease); }
      AttemptNames(Apply(s, run[0]), run[1..], w, lease);
    }
  }

  /** A claim notices the lock exactly when it would have taken the row. */
  lemma NoticedExactlyWhen(s: State, w: Worker, lease: Identity, kinds: seq<Kind>, limit: nat)
    requires HoldsOnly(s, w, lease) && w in s.txs && lease.id in s.txs[w].locks
    ensures Candidates(s, kinds, limit) == Candidates(End(s, w), kinds, limit) <==> lease.id !in Candidates(End(s, w), kinds, limit)
  {
    hide HoldsOnly, First, Claimable;
    if lease.id !in Candidates(End(s, w), kinds, limit) { SameCandidates(s, w, lease, kinds, limit); }
    assert Locked(s, lease.id);
  }

  /** While the lease lasts no claim can notice: any number of workers may poll for the row's kind. */
  lemma {:induction false} LiveLeaseIsUnnoticed(s: State, run: seq<Label>, w: Worker, lease: Identity)
    requires Inv(s) && Possible(s, run) && w in s.txs && HoldsOnly(s, w, lease) && s.txs[w].locks == {lease.id}
    requires forall l :: l in run ==> AttemptOf(l, w, lease) && l != RunLock(w, lease)
    requires Owns(s.rows, lease, After(s, run).now)
    ensures Unnoticed(s, run, w, lease.id)
    decreases |run|
  {
    hide Inv, Enabled, Apply, HoldsOnly, AttemptOf;
    if run != [] {
      var l, next := run[0], Apply(s, run[0]);
      assert l in run && forall x :: x in run[1..] ==> x in run;
      RowHistory(s, run, lease.id);
      LiveIsOverlooked(s, l, w, lease);
      StepKeepsInv(s, l);
      LockedRowStays(s, l, w, lease);
      if w in next.txs {
        LiveLeaseIsUnnoticed(next, run[1..], w, lease);
      } else {
        ClosedIsUnnoticed(next, run[1..], w, lease);
      }
    }
  }

  lemma LiveIsOverlooked(s: State, l: Label, w: Worker, lease: Identity)
    requires lease.id in s.rows && !Claimable(s.rows[lease.id], s.now)
    ensures Overlooks(s, l, w, lease.id)
  {
    hide First, Claimable, LockedBy;
  }

  lemma LockedRowStays(s: State, l: Label, w: Worker, lease: Identity)
    requires Inv(s) && Enabled(s, l) && w in s.txs && HoldsOnly(s, w, lease) && s.txs[w].locks == {lease.id} && lease.id in s.rows
    requires AttemptOf(l, w, lease) && l != RunLock(w, lease)
    ensures lease.id in Apply(s, l).rows && Apply(s, l).rows[lease.id] == s.rows[lease.id]
    ensures w in Apply(s, l).txs ==> HoldsOnly(Apply(s, l), w, lease) && Apply(s, l).txs[w].locks == {lease.id}
  {
    hide Inv, LeaseHolds, Creates, Plus, Visible;
    if By(l, w) {
      OnlyCommitsWrite(s, l);
    } else {
      OthersStep(s, l, w);
    }
  }

  lemma {:induction false} ClosedIsUnnoticed(s: State, run: seq<Label>, w: Worker, lease: Identity)
    requires Possible(s, run) && w !in s.txs
    requires forall l :: l in run ==> AttemptOf(l, w, lease) && l != RunLock(w, lease)
    ensures Unnoticed(s, run, w, lease.id)
    decreases |run|
  {
    hide Apply;
    if run != [] {
      assert run[0] in run && forall x :: x in run[1..] ==> x in run;
      OthersOpenNoTx(s, run[0], w);
      ClosedIsUnnoticed(Apply(s, run[0]), run[1..], w, lease);
    }
  }

  // ---------------------------------------------------------------- an owner can finish

  /** One run of a task by its owner, its effect taking this long. */
  function RunLabels(w: Worker, lease: Identity, effect: nat): seq<Label> {
    [RunLock(w, lease), RunCheck(w), RunStage(w), Tick(effect), RunComplete(w), Commit(w)]
  }

  function Running(s: State, w: Worker, lease: Identity, phase: Phase, updates: map<Uuid, Row>): State {
    Put(s, w, Tx(phase, {lease.id}, map[], updates))
  }

  lemma RunOpens(s: State, w: Worker, lease: Identity)
    requires Inv(s) && w !in s.txs && !Locked(s, lease.id) && lease.id in s.rows
    ensures Enabled(s, RunLock(w, lease)) && Apply(s, RunLock(w, lease)) == Running(s, w, lease, RunLocked(lease), map[])
  {
    forall v | v in s.txs ensures lease.id !in s.txs[v].inserts { assert TxOk(s.rows, s.now, s.tokens, s.txs[v]); }
  }

  lemma Replaced(txs: map<Worker, Tx>, w: Worker, a: Tx, b: Tx, tokens: set<Uuid>)
    ensures txs[w := a][w := b] == txs[w := b] && txs[w := b] - {w} == txs - {w} && tokens + {} == tokens
  {}

  lemma RunChecks(s: State, w: Worker, lease: Identity)
    requires LeaseHolds(s.rows, lease, s.now)
    ensures var t := Running(s, w, lease, RunLocked(lease), map[]);
      Enabled(t, RunCheck(w)) && Apply(t, RunCheck(w)) == Running(s, w, lease, RunChecked(lease), map[])
  {
    Replaced(s.txs, w, Tx(RunLocked(lease), {lease.id}, map[], map[]), Tx(RunChecked(lease), {lease.id}, map[], map[]), s.tokens);
  }

  lemma RunStages(s: State, w: Worker, lease: Identity)
    ensures var t := Running(s, w, lease, RunChecked(lease), map[]);
      Enabled(t, RunStage(w)) && Apply(t, RunStage(w)) == Running(s, w, lease, RunStaged(lease), map[])
  {
    Replaced(s.txs, w, Tx(RunChecked(lease), {lease.id}, map[], map[]), Tx(RunStaged(lease), {lease.id}, map[], map[]), s.tokens);
  }

  lemma RunCompletes(s: State, w: Worker, lease: Identity)
    requires LeaseHolds(s.rows, lease, s.now)
    ensures var t := Running(s, w, lease, RunStaged(lease), map[]);
      && Enabled(t, RunComplete(w))
      && Apply(t, RunComplete(w)) == Running(s, w, lease, RunCompleted(lease, s.now), map[lease.id := CompletedRow(s.rows[lease.id], s.now)])
  {
    Replaced(s.txs, w, Tx(RunStaged(lease), {lease.id}, map[], map[]),
             Tx(RunCompleted(lease, s.now), {lease.id}, map[], map[lease.id := CompletedRow(s.rows[lease.id], s.now)]), s.tokens);
  }

  lemma RunCommits(s: State, w: Worker, lease: Identity)
    requires w !in s.txs && lease.id in s.rows
    ensures var done := CompletedRow(s.rows[lease.id], s.now);
      var t := Running(s, w, lease, RunCompleted(lease, s.now), map[lease.id := done]);
      && Enabled(t, Commit(w))
      && Apply(t, Commit(w)) == s.(rows := s.rows[lease.id := done], effects := s.effects + multiset{lease.id})
  {
    var done := CompletedRow(s.rows[lease.id], s.now);
    assert s.txs[w := Tx(RunCompleted(lease, s.now), {lease.id}, map[], map[lease.id := done])] - {w} == s.txs;
    assert s.rows + map[lease.id := done] + map[] == s.rows[lease.id := done];
  }

  lemma RunEnds(s: State, w: Worker, lease: Identity)
    requires w !in s.txs && Owns(s.rows, lease, s.now)
    ensures var t := Running(s, w, lease, RunStaged(lease), map[]);
      && Possible(t, [RunComplete(w)] + [Commit(w)])
      && After(t, [RunComplete(w)] + [Commit(w)]) ==
           s.(rows := s.rows[lease.id := Done(s.rows[lease.id], s.now)], effects := s.effects + multiset{lease.id})
  {
    hide Enabled, Apply, Possible, After, Running;
    RunCompletes(s, w, lease);
    RunCommits(s, w, lease);
    var done := map[lease.id := CompletedRow(s.rows[lease.id], s.now)];
    var end := s.(rows := s.rows[lease.id := CompletedRow(s.rows[lease.id], s.now)], effects := s.effects + multiset{lease.id});
    LastStep(Running(s, w, lease, RunCompleted(lease, s.now), done), Commit(w), end);
    OneStep(Running(s, w, lease, RunStaged(lease), map[]), RunComplete(w), Running(s, w, lease, RunCompleted(lease, s.now), done), [Commit(w)]);
  }

  /**
   * A worker whose lease outlasts the effect, acting alone on an unlocked row, finishes the task:
   * its statements are all possible and leave the row completed and the effect logged once more.
   */
  lemma OwnerCanFinish(s: State, w: Worker, lease: Identity, effect: nat)
    requires Inv(s) && w !in s.txs && !Locked(s, lease.id) && Owns(s.rows, lease, s.now + effect)
    ensures Possible(s, RunLabels(w, lease, effect))
    ensures After(s, RunLabels(w, lease, effect)) ==
      s.(now := s.now + effect, rows := s.rows[lease.id := Done(s.rows[lease.id], s.now + effect)],
         effects := s.effects + multiset{lease.id})
  {
    hide Inv, Enabled, Apply, Possible, After, Running, Done, Locked;
    var later := s.(now := s.now + effect);
    RunOpens(s, w, lease);
    RunChecks(s, w, lease);
    RunStages(s, w, lease);
    TickRunning(s, w, lease, effect);
    RunEnds(later, w, lease);
    OneStep(Running(s, w, lease, RunStaged(lease), map[]), Tick(effect), Running(later, w, lease, RunStaged(lease), map[]), [RunComplete(w)] + [Commit(w)]);
    OneStep(Running(s, w, lease, RunChecked(lease), map[]), RunStage(w), Running(s, w, lease, RunStaged(lease), map[]), [Tick(effect)] + ([RunComplete(w)] + [Commit(w)]));
    OneStep(Running(s, w, lease, RunLocked(lease), map[]), RunCheck(w), Running(s, w, lease, RunChecked(lease), map[]), [RunStage(w)] + ([Tick(effect)] + ([RunComplete(w)] + [Commit(w)])));
    OneStep(s, RunLock(w, lease), Running(s, w, lease, RunLocked(lease), map[]), [RunCheck(w)] + ([RunStage(w)] + ([Tick(effect)] + ([RunComplete(w)] + [Commit(w)]))));
    assert RunLabels(w, lease, effect) == [RunLock(w, lease)] + ([RunCheck(w)] + ([RunStage(w)] + ([Tick(effect)] + ([RunComplete(w)] + [Commit(w)]))));
  }

  lemma TickRunning(s: State, w: Worker, lease: Identity, effect: nat)
    ensures var t := Running(s, w, lease, RunStaged(lease), map[]);
      Enabled(t, Tick(effect)) && Apply(t, Tick(effect)) == Running(s.(now := s.now + effect), w, lease, RunStaged(lease), map[])
  {}

  // ---------------------------------------------------------------- nobody can keep it from finishing

  /** The owner's statements before the completion; its effect may enqueue follow-up tasks. */
  predicate Working(l: Label, w: Worker) {
    By(l, w) ==> l.RunCheck? || l.RunStage? || l.Enqueue?
  }

  /** The transaction holds the owner's row and has not come to the completion. */
  predicate AtWork(s: State, w: Worker, lease: Identity) {
    && w in s.txs && lease.id in s.rows && s.txs[w].locks == {lease.id}
    && s.txs[w].phase in {RunLocked(lease), RunChecked(lease), RunStaged(lease)}
  }

  /** The owner's next statement is possible and succeeds, at any instant at which the lease holds. */
  ghost predicate CanProceed(s: State, w: Worker, lease: Identity)
    requires w in s.txs
  {
    && (s.txs[w].phase.RunLocked? ==> Proceeds(s, RunCheck(w), RunChecked(lease)))
    && (s.txs[w].phase.RunChecked? ==> Proceeds(s, RunStage(w), RunStaged(lease)))
    && (s.txs[w].phase.RunStaged? ==> Proceeds(s, RunComplete(w), RunCompleted(lease, s.now)))
  }

  ghost predicate Proceeds(s: State, l: Label, phase: Phase)
    requires !l.Tick?
  {
    Enabled(s, l) && l.w in Apply(s, l).txs && Apply(s, l).txs[l.w].phase == phase
  }

  lemma WorkStep(s: State, l: Label, w: Worker, lease: Identity)
    requires Inv(s) && Enabled(s, l) && AtWork(s, w, lease) && Working(l, w) && LeaseHolds(s.rows, lease, s.now)
    ensures AtWork(Apply(s, l), w, lease)
    ensures lease.id in Apply(s, l).rows && Apply(s, l).rows[lease.id] == s.rows[lease.id]
  {
    hide Inv, Creates, Plus, Visible;
    if By(l, w) { OnlyCommitsWrite(s, l); } else { OthersStep(s, l, w); }
  }

  /**
   * From the lock on, with any statements of any workers in between, the row stays as it was and each
   * statement of the owner is possible and succeeds, as long as the clock has not reached the deadline.
   */
  lemma {:induction false} OwnerCanProceed(s: State, run: seq<Label>, w: Worker, lease: Identity)
    requires Inv(s) && Possible(s, run) && AtWork(s, w, lease)
    requires forall l :: l in run ==> Working(l, w)
    requires Owns(s.rows, lease, After(s, run).now)
    ensures var t := After(s, run);
      Inv(t) && AtWork(t, w, lease) && t.rows[lease.id] == s.rows[lease.id] && CanProceed(t, w, lease)
    decreases |run|
  {
    hide Inv, Enabled, Apply, Working, CanProceed;
    if run == [] {
      ProceedsNow(s, w, lease);
    } else {
      assert run[0] in run && forall x :: x in run[1..] ==> x in run;
      StepKeepsInv(s, run[0]);
      RowHistory(s, run, lease.id);
      WorkStep(s, run[0], w, lease);
      OwnerCanProceed(Apply(s, run[0]), run[1..], w, lease);
    }
  }

  lemma ProceedsNow(s: State, w: Worker, lease: Identity)
    requires AtWork(s, w, lease) && LeaseHolds(s.rows, lease, s.now)
    ensures CanProceed(s, w, lease)
  {}

  /**
   * So a transaction whose effect is staged when the clock is short of the deadline finishes the task:
   * it completes the row at that instant, and its commit, whatever others and the clock do before it,
   * stores the completion and logs the effect once.
   */
  lemma OwnerFinishes(s: State, rest: seq<Label>, w: Worker, lease: Identity)
    requires Inv(s) && AtWork(s, w, lease) && s.txs[w].phase.RunStaged? && Owns(s.rows, lease, s.now)
    requires Possible(Apply(s, RunComplete(w)), rest)
    requires forall l :: l in rest ==> !By(l, w)
    ensures Enabled(s, RunComplete(w)) && Enabled(After(Apply(s, RunComplete(w)), rest), Commit(w))
    ensures var t := After(Apply(s, RunComplete(w)), rest);
      && lease.id in Apply(t, Commit(w)).rows && Apply(t, Commit(w)).rows[lease.id] == Done(s.rows[lease.id], s.now)
      && t.effects[lease.id] == 0 && Apply(t, Commit(w)).effects[lease.id] == 1
  {
    hide Inv, Possible, After, Enabled, Apply, LeaseHolds;
    ProceedsNow(s, w, lease);
    var done := Apply(s, RunComplete(w));
    StepKeepsInv(s, RunComplete(w));
    OnlyCommitsWrite(s, RunComplete(w));
    LockCoversTheGap(done, w, rest);
  }
}

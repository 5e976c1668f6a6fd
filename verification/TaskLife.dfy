/** A task from its admission to its completion. */
module TaskLife {
  import opened Prelude
  import opened TaskTable
  import opened LeaseProtocol
  import opened LeaseInvariant
  import opened QueueMeaning
  import opened LeaseTheorems
  import opened LeaseRuns
  import opened Draining

  /** The next claim of its kind takes it, and its owner then completes it. */
  ghost function WorkRun(s: State, c: Call, o: Options, w: Worker, id: Uuid, effect: nat): seq<Label>
    requires id in c.tokens
  {
    CallRun(s, c, o) + RunLabels(w, Identity(id, c.tokens[id]), effect)
  }

  lemma ClaimedRowIsOwned(s: State, c: Call, o: Options, id: Uuid, effect: nat)
    requires Callable(s, c, o) && id in Batch(s, o) && effect < o.leaseMs * 1000
    ensures var t := Called(s, c, o);
      && t.txs == s.txs && t.now == s.now && t.effects == s.effects && id in c.tokens && id in s.rows
      && Owns(t.rows, Identity(id, c.tokens[id]), s.now + effect)
      && Done(t.rows[id], s.now + effect) ==
           Row(s.rows[id].intent, s.rows[id].availableAt, Completed, s.rows[id].attempts + 1, None, None, None, Some(s.now + effect))
  {
    hide Candidates;
    BatchRow(s, c, o, id);
  }

  /**
   * A waiting task with fewer than limit others before it is in the batch of the next claim of its
   * kind, and a worker whose lease outlasts the effect completes it: one more attempt, no error
   * left, its effect logged once.
   */
  lemma WaitingTaskGetsDone(s: State, c: Call, o: Options, w: Worker, id: Uuid, effect: nat)
    requires Inv(s) && Callable(s, c, o) && w !in s.txs && effect < o.leaseMs * 1000
    requires Next(s.now, s.rows, s.txs, o.kinds, o.limit, id)
    ensures id in Batch(s, o) && id in c.tokens && Possible(s, WorkRun(s, c, o, w, id, effect))
    ensures var t := After(s, WorkRun(s, c, o, w, id, effect));
      && id in t.rows && t.effects[id] == 1
      && t.rows[id] == Row(s.rows[id].intent, s.rows[id].availableAt, Completed, s.rows[id].attempts + 1,
                           None, None, None, Some(s.now + effect))
  {
    hide Inv, Callable, Batch, Called, Possible, After, CallRun, RunLabels, WaitingBefore, Owns;
    BatchByRank(s, o, id);
    ClaimedRowIsOwned(s, c, o, id, effect);
    CallIsRun(s, c, o);
    RunKeepsInv(s, CallRun(s, c, o));
    var t, lease := Called(s, c, o), Identity(id, c.tokens[id]);
    forall v | v in t.txs ensures id !in t.txs[v].locks {}
    OwnerCanFinish(t, w, lease, effect);
    RunThen(s, CallRun(s, c, o), RunLabels(w, lease, effect));
    NotYetLogged(s, id);
  }

  lemma NotYetLogged(s: State, id: Uuid)
    requires Inv(s) && id in s.rows && s.rows[id].status != Completed
    ensures s.effects[id] == 0
  {
    assert RowLogged(s, id);
  }

  // ---------------------------------------------------------------- from the beginning

  /** A producer's transaction that enqueues one intent, and the wait until it is due. */
  function AdmitRun(w: Worker, input: TaskInput, newId: Uuid, d: nat): seq<Label> {
    [OpenSource(w), Enqueue(w, input, newId), Commit(w), Tick(d)]
  }

  /** The table with the new row, waiting for its due time, and the clock moved on. */
  function Admitted(s: State, input: TaskInput, newId: Uuid, d: nat): State
    requires input.dueAt.Some?
  {
    var intent := Intent(input.kind, input.payloadVersion, input.dedupeKey, input.payload, input.dueAt.value,
                         input.sourceEventId, input.targetSessionId);
    s.(now := s.now + d, rows := s.rows[newId := Row(intent, input.dueAt.value, Pending, 0, None, None, None, None)])
  }

  lemma Stages(s: State, w: Worker, input: TaskInput, newId: Uuid)
    requires s.txs == map[] && newId !in s.rows && !Malformed(input) && !Unstorable(input)
    requires forall id :: id in s.rows ==> !Rivals(s.rows[id].intent, input)
    ensures var t := Put(s, w, Tx(Source, {}, map[], map[]));
      Enabled(t, Enqueue(w, input, newId))
      && Apply(t, Enqueue(w, input, newId)) ==
           Put(s, w, Tx(Source, {}, map[newId := Admitted(s, input, newId, 0).rows[newId]], map[]))
  {
    hide Rivals, Clash, Malformed, Unstorable;
    InputMeans(input);
    forall id | id in s.rows ensures !Clash(s.rows[id].intent, IntentOf(input)) { RivalsMeans(input, s.rows[id].intent); }
    assert s.rows + map[] == s.rows;
  }

  lemma CommitsNew(s: State, w: Worker, newId: Uuid, row: Row)
    requires s.txs == map[]
    ensures var t := Put(s, w, Tx(Source, {}, map[newId := row], map[]));
      Enabled(t, Commit(w)) && Apply(t, Commit(w)) == s.(rows := s.rows[newId := row])
  {
    assert s.txs[w := Tx(Source, {}, map[newId := row], map[])] - {w} == s.txs;
    assert s.rows + map[] + map[newId := row] == s.rows[newId := row];
  }

  lemma OpensSource(s: State, w: Worker)
    requires s.txs == map[]
    ensures Enabled(s, OpenSource(w)) && Apply(s, OpenSource(w)) == Put(s, w, Tx(Source, {}, map[], map[]))
  {}

  lemma Ticks(s: State, d: nat)
    ensures Enabled(s, Tick(d)) && Apply(s, Tick(d)) == s.(now := s.now + d)
  {}

  /** An intent the queue accepts and no stored row rivals is admitted by the producer's commit. */
  lemma AdmissionRuns(s: State, w: Worker, input: TaskInput, newId: Uuid, d: nat)
    requires s.txs == map[] && newId !in s.rows && !Malformed(input) && !Unstorable(input)
    requires forall id :: id in s.rows ==> !Rivals(s.rows[id].intent, input)
    ensures Possible(s, AdmitRun(w, input, newId, d)) && After(s, AdmitRun(w, input, newId, d)) == Admitted(s, input, newId, d)
  {
    hide Enabled, Apply, Possible, After, Rivals;
    var row := Admitted(s, input, newId, 0).rows[newId];
    var s1, s2, s3 := Put(s, w, Tx(Source, {}, map[], map[])), Put(s, w, Tx(Source, {}, map[newId := row], map[])), s.(rows := s.rows[newId := row]);
    OpensSource(s, w);
    Stages(s, w, input, newId);
    CommitsNew(s, w, newId, row);
    Ticks(s3, d);
    LastStep(s3, Tick(d), Admitted(s, input, newId, d));
    OneStep(s2, Commit(w), s3, [Tick(d)]);
    OneStep(s1, Enqueue(w, input, newId), s2, [Commit(w)] + [Tick(d)]);
    OneStep(s, OpenSource(w), s1, [Enqueue(w, input, newId)] + ([Commit(w)] + [Tick(d)]));
    assert AdmitRun(w, input, newId, d) == [OpenSource(w)] + ([Enqueue(w, input, newId)] + ([Commit(w)] + [Tick(d)]));
  }

  /**
   * From admission to completion: once its due time has passed, a task that is next in line is
   * claimed and completed at its first attempt.
   */
  lemma AdmittedTaskGetsDone(s: State, p: Worker, input: TaskInput, newId: Uuid, d: nat, c: Call, o: Options, w: Worker, effect: nat)
    requires Inv(s) && s.txs == map[] && newId !in s.rows && !Malformed(input) && !Unstorable(input)
    requires forall id :: id in s.rows ==> !Rivals(s.rows[id].intent, input)
    requires input.dueAt.value <= s.now + d && input.kind in o.kinds && effect < o.leaseMs * 1000
    requires var t := Admitted(s, input, newId, d);
      Callable(t, c, o) && |WaitingBefore(t.now, t.rows, t.txs, o.kinds, newId)| < o.limit
    ensures newId in c.tokens
    ensures var run := AdmitRun(p, input, newId, d) + WorkRun(Admitted(s, input, newId, d), c, o, w, newId, effect);
      && Possible(s, run) && newId in After(s, run).rows && After(s, run).effects[newId] == 1
      && Asks(input, After(s, run).rows[newId].intent)
      && After(s, run).rows[newId] ==
           Row(After(s, run).rows[newId].intent, input.dueAt.value, Completed, 1, None, None, None, Some(s.now + d + effect))
  {
    hide Inv, Possible, After, Callable, WaitingBefore, AdmitRun, WorkRun, Rivals;
    var t := Admitted(s, input, newId, d);
    AdmissionRuns(s, p, input, newId, d);
    RunKeepsInv(s, AdmitRun(p, input, newId, d));
    WaitingTaskGetsDone(t, c, o, w, newId, effect);
    RunThen(s, AdmitRun(p, input, newId, d), WorkRun(t, c, o, w, newId, effect));
  }
}

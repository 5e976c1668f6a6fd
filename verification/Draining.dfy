/** Claims one after another, with the clock standing still, sort the eligible rows. */
module Draining {
  import opened Prelude
  import opened Ordering
  import opened TaskTable
  import opened LeaseProtocol
  import opened LeaseInvariant
  import opened QueueMeaning
  import opened LeaseTheorems
  import opened LeaseRuns

  datatype Options = Options(kinds: seq<Kind>, limit: nat, leaseMs: int)

  /** One call of the claim by a worker, with the tokens it draws. */
  datatype Call = Call(w: Worker, tokens: map<Uuid, Uuid>)

  ghost function Batch(s: State, o: Options): set<Uuid> {
    Candidates(s, o.kinds, o.limit)
  }

  ghost predicate Callable(s: State, c: Call, o: Options) {
    && c.w !in s.txs && ValidKinds(o.kinds) && Bounded(o.limit, MAX_CLAIM) && Bounded(o.leaseMs, MAX_LEASE_MS)
    && FreshTokens(s, Batch(s, o), c.tokens)
  }

  /** The statements of one uninterrupted call. */
  ghost function CallRun(s: State, c: Call, o: Options): seq<Label> {
    if Batch(s, o) == {} then [ClaimSelect(c.w, o.kinds, o.limit, o.leaseMs), Commit(c.w)]
    else [ClaimSelect(c.w, o.kinds, o.limit, o.leaseMs), ClaimUpdate(c.w, c.tokens), Commit(c.w)]
  }

  /** What the call leaves: its batch runs under new tokens, everything else is as it was. */
  ghost function Called(s: State, c: Call, o: Options): State
    requires Callable(s, c, o)
  {
    var ids := Batch(s, o);
    s.(rows := s.rows + ClaimUpdates(s.rows, ClaimUpdated(ids, o.leaseMs, s.now, c.tokens)),
       claims := s.claims + multiset(ids), tokens := s.tokens + c.tokens.Values)
  }

  lemma PutThenEnd(txs: map<Worker, Tx>, w: Worker, tx: Tx)
    requires w !in txs
    ensures txs[w := tx] - {w} == txs
  {}

  lemma NothingInserted(rows: map<Uuid, Row>)
    ensures rows + map[] == rows
  {}

  lemma CallCommits(s: State, c: Call, o: Options)
    requires Callable(s, c, o)
    ensures var ids := Batch(s, o);
      var phase := ClaimUpdated(ids, o.leaseMs, s.now, c.tokens);
      Committed(Put(s, c.w, Tx(phase, ids, map[], ClaimUpdates(s.rows, phase))).(tokens := s.tokens + c.tokens.Values), c.w) == Called(s, c, o)
  {
    var ids := Batch(s, o);
    var phase := ClaimUpdated(ids, o.leaseMs, s.now, c.tokens);
    PutThenEnd(s.txs, c.w, Tx(phase, ids, map[], ClaimUpdates(s.rows, phase)));
    NothingInserted(s.rows + ClaimUpdates(s.rows, phase));
  }

  lemma NothingClaimed(claims: multiset<Uuid>, tokens: map<Uuid, Uuid>, ids: set<Uuid>)
    requires ids == {} && tokens.Keys == ids
    ensures claims + multiset(ids) == claims && tokens.Values == {}
  {}

  lemma EmptyCall(s: State, c: Call, o: Options)
    requires Callable(s, c, o) && Batch(s, o) == {}
    ensures Called(s, c, o) == s
  {
    NothingClaimed(s.claims, c.tokens, Batch(s, o));
    assert ClaimUpdates(s.rows, ClaimUpdated(Batch(s, o), o.leaseMs, s.now, c.tokens)) == map[];
    NothingInserted(s.rows);
  }

  lemma EmptyCallCommits(s: State, w: Worker, leaseMs: int)
    requires w !in s.txs
    ensures Committed(Put(s, w, Tx(ClaimSelected({}, leaseMs), {}, map[], map[])), w) == s
  {
    PutThenEnd(s.txs, w, Tx(ClaimSelected({}, leaseMs), {}, map[], map[]));
    NothingInserted(s.rows);
  }

  lemma CallSelects(s: State, c: Call, o: Options)
    requires Callable(s, c, o)
    ensures var select := ClaimSelect(c.w, o.kinds, o.limit, o.leaseMs);
      Enabled(s, select) && Apply(s, select) == Put(s, c.w, Tx(ClaimSelected(Batch(s, o), o.leaseMs), Batch(s, o), map[], map[]))
  {}

  lemma EmptyCallRuns(s: State, c: Call, o: Options)
    requires Callable(s, c, o) && Batch(s, o) == {}
    ensures var s1 := Put(s, c.w, Tx(ClaimSelected({}, o.leaseMs), {}, map[], map[]));
      Possible(s1, [Commit(c.w)]) && After(s1, [Commit(c.w)]) == Called(s, c, o)
  {
    EmptyCall(s, c, o);
    EmptyCallCommits(s, c.w, o.leaseMs);
    LastStep(Put(s, c.w, Tx(ClaimSelected({}, o.leaseMs), {}, map[], map[])), Commit(c.w), s);
  }

  /** The call is a run of the protocol, and Called is where it ends. */
  lemma CallIsRun(s: State, c: Call, o: Options)
    requires Callable(s, c, o)
    ensures Possible(s, CallRun(s, c, o)) && After(s, CallRun(s, c, o)) == Called(s, c, o)
  {
    var run := CallRun(s, c, o);
    var s1 := Put(s, c.w, Tx(ClaimSelected(Batch(s, o), o.leaseMs), Batch(s, o), map[], map[]));
    CallSelects(s, c, o);
    if Batch(s, o) == {} { EmptyCallRuns(s, c, o); } else { CallUpdates(s, c, o); }
    assert run == [run[0]] + run[1..];
    OneStep(s, run[0], s1, run[1..]);
  }

  lemma CallUpdates(s: State, c: Call, o: Options)
    requires Callable(s, c, o) && Batch(s, o) != {}
    ensures var s1 := Put(s, c.w, Tx(ClaimSelected(Batch(s, o), o.leaseMs), Batch(s, o), map[], map[]));
      var run := [ClaimUpdate(c.w, c.tokens), Commit(c.w)];
      Possible(s1, run) && After(s1, run) == Called(s, c, o)
  {
    hide Enabled, Apply, Possible, After, Candidates, ClaimUpdates;
    BatchExists(s, o);
    var ids := Batch(s, o);
    var s1 := Put(s, c.w, Tx(ClaimSelected(ids, o.leaseMs), ids, map[], map[]));
    var phase := ClaimUpdated(ids, o.leaseMs, s.now, c.tokens);
    var tx := Tx(phase, ids, map[], ClaimUpdates(s.rows, phase));
    var s2 := Put(s, c.w, tx).(tokens := s.tokens + c.tokens.Values);
    ClaimUpdateApplies(s1, c.w, c.tokens);
    Overwritten(s.txs, c.w, s1.txs[c.w], tx);
    CallCommits(s, c, o);
    CommitApplies(s2, c.w);
    LastStep(s2, Commit(c.w), Called(s, c, o));
    OneStep(s1, ClaimUpdate(c.w, c.tokens), s2, [Commit(c.w)]);
    assert [ClaimUpdate(c.w, c.tokens)] + [Commit(c.w)] == [ClaimUpdate(c.w, c.tokens), Commit(c.w)];
  }

  lemma BatchExists(s: State, o: Options)
    ensures Batch(s, o) <= s.rows.Keys
  {}

  lemma Overwritten(txs: map<Worker, Tx>, w: Worker, a: Tx, b: Tx)
    ensures txs[w := a][w := b] == txs[w := b]
  {}

  /** A claim at this instant may take the row. */
  predicate Takeable(s: State, kinds: seq<Kind>, id: Uuid) {
    Waits(s.now, s.rows, s.txs, kinds, id)
  }

  function Rank(s: State, kinds: seq<Kind>, id: Uuid): nat
    requires id in s.rows
  {
    |WaitingBefore(s.now, s.rows, s.txs, kinds, id)|
  }

  /** A claim takes exactly the waiting rows with fewer than limit waiting rows sorting before them. */
  lemma BatchByRank(s: State, o: Options, id: Uuid)
    ensures id in Batch(s, o) <==> Takeable(s, o.kinds, id) && Rank(s, o.kinds, id) < o.limit
  {
    CandidatesAreNext(s.now, s.rows, s.txs, o.kinds, o.limit, id);
  }

  /**
   * With any rows locked by others, the claim takes the first waiting rows: a row it leaves sorts
   * after every row it takes, and it leaves one only when the batch is full.
   */
  lemma ClaimTakesFirst(s: State, o: Options, taken: Uuid, left: Uuid)
    requires taken in Batch(s, o) && Takeable(s, o.kinds, left) && left !in Batch(s, o)
    ensures Sooner(s.rows, taken, left) && |Batch(s, o)| == o.limit
  {
    hide Claimable, First, LockedBy;
    var e := Eligible(s, o.kinds);
    WaitsIsEligible(s.now, s.rows, s.txs, o.kinds, left);
    FirstSortBeforeRest(e, o.limit, TaskKey(s.rows, taken), TaskKey(s.rows, left));
    FirstSize(e, o.limit);
    CandidateCount(s.now, s.rows, s.txs, o.kinds, o.limit);
    SoonerIsBefore(s.rows, taken, left);
  }

  lemma BatchRow(s: State, c: Call, o: Options, id: Uuid)
    requires Callable(s, c, o) && id in Batch(s, o)
    ensures id in s.rows && id in Called(s, c, o).rows
    ensures Called(s, c, o).rows[id] == ClaimedRow(s.rows[id], c.tokens[id], s.now + o.leaseMs * MILLISECOND)
  {
    hide EligibleRows, First, LockedBy, Claimable, ClaimedRow;
  }

  lemma OtherRow(s: State, c: Call, o: Options, id: Uuid)
    requires Callable(s, c, o) && id in s.rows && id !in Batch(s, o)
    ensures id in Called(s, c, o).rows && Called(s, c, o).rows[id] == s.rows[id]
  {
    hide EligibleRows, First, LockedBy, Claimable, ClaimedRow;
  }

  lemma ClaimedIsTaken(row: Row, token: Uuid, leaseMs: int, now: int)
    requires Bounded(leaseMs, MAX_LEASE_MS)
    ensures var row' := ClaimedRow(row, token, now + leaseMs * MILLISECOND);
      row'.status == Running && row'.leaseUntil.Some? && row'.leaseUntil.value > now && row'.availableAt == row.availableAt && row'.intent == row.intent && row'.attempts == row.attempts + 1
  {}

  lemma CallRow(s: State, c: Call, o: Options, id: Uuid)
    requires Callable(s, c, o) && id in s.rows
    ensures var t := Called(s, c, o);
      && id in t.rows && TaskKey(t.rows, id) == TaskKey(s.rows, id)
      && t.rows[id].attempts == s.rows[id].attempts + (if id in Batch(s, o) then 1 else 0)
      && (Takeable(t, o.kinds, id) <==> Takeable(s, o.kinds, id) && id !in Batch(s, o))
  {
    hide Candidates, LockedBy, Claimable, ClaimedRow, ClaimUpdates;
    if id in Batch(s, o) {
      BatchRow(s, c, o, id);
      ClaimedIsTaken(s.rows[id], c.tokens[id], o.leaseMs, s.now);
    } else {
      OtherRow(s, c, o, id);
    }
  }

  lemma EligibleId(s: State, kinds: seq<Kind>, k: SortKey) returns (id: Uuid)
    requires k in Eligible(s, kinds)
    ensures Takeable(s, kinds, id) && k == TaskKey(s.rows, id)
  {
    id :| id in s.rows && Takeable(s, kinds, id) && k == TaskKey(s.rows, id);
  }

  lemma StillEligible(s: State, c: Call, o: Options, k: SortKey)
    requires Callable(s, c, o) && k in Eligible(s, o.kinds) && k !in First(Eligible(s, o.kinds), o.limit)
    ensures k in Eligible(Called(s, c, o), o.kinds)
  {
    var id := EligibleId(s, o.kinds, k);
    CallRow(s, c, o, id);
  }

  lemma NoneNewlyEligible(s: State, c: Call, o: Options, k: SortKey)
    requires Callable(s, c, o) && k in Eligible(Called(s, c, o), o.kinds)
    ensures k in Eligible(s, o.kinds) && k !in First(Eligible(s, o.kinds), o.limit)
  {
    var id := EligibleId(Called(s, c, o), o.kinds, k);
    assert id in s.rows;
    CallRow(s, c, o, id);
  }

  /** After a call the rows it took are no longer eligible and the others still are. */
  lemma CallShrinksEligible(s: State, c: Call, o: Options)
    requires Callable(s, c, o)
    ensures Eligible(Called(s, c, o), o.kinds) == Eligible(s, o.kinds) - First(Eligible(s, o.kinds), o.limit)
  {
    var e := Eligible(s, o.kinds);
    forall k | k in e && k !in First(e, o.limit) ensures k in Eligible(Called(s, c, o), o.kinds) { StillEligible(s, c, o, k); }
    forall k | k in Eligible(Called(s, c, o), o.kinds) ensures k in e && k !in First(e, o.limit) { NoneNewlyEligible(s, c, o, k); }
  }

  /** States reached by one call after another, nothing happening in between. */
  ghost predicate Drains(states: seq<State>, calls: seq<Call>, o: Options) {
    && |states| == |calls| + 1
    && forall i :: 0 <= i < |calls| ==> CallStep(states[i], calls[i], o, states[i + 1])
  }

  ghost predicate CallStep(s: State, c: Call, o: Options, t: State) {
    Callable(s, c, o) && t == Called(s, c, o)
  }

  /** One for a row among the first n, zero for any other. */
  function Share(keys: set<SortKey>, n: nat, k: SortKey): nat {
    if k in First(keys, n) then 1 else 0
  }

  /** The first m + n rows are the first m and, apart from them, the next n. */
  lemma ShareSplits(keys: set<SortKey>, m: nat, n: nat, k: SortKey)
    ensures Share(keys, m + n, k) == Share(keys, m, k) + Share(keys - First(keys, m), n, k)
  {
    FirstThenNext(keys, m, n);
  }

  lemma NextRows(keys: set<SortKey>, m: nat, n: nat)
    ensures keys - First(keys, m) - First(keys - First(keys, m), n) == keys - First(keys, m + n)
  {
    FirstThenNext(keys, m, n);
  }

  lemma DrainStep(s: State, c: Call, o: Options, t: State, id: Uuid)
    requires CallStep(s, c, o, t) && id in s.rows
    ensures id in t.rows && TaskKey(t.rows, id) == TaskKey(s.rows, id)
    ensures t.rows[id].attempts == s.rows[id].attempts + Share(Eligible(s, o.kinds), o.limit, TaskKey(s.rows, id))
    ensures Eligible(t, o.kinds) == Eligible(s, o.kinds) - First(Eligible(s, o.kinds), o.limit)
  {
    CallRow(s, c, o, id);
    CallShrinksEligible(s, c, o);
  }

  /** The same on the keys the rows are ordered by. */
  lemma {:induction false} DrainedKeys(states: seq<State>, calls: seq<Call>, o: Options, k: nat, id: Uuid)
    requires Drains(states, calls, o) && k <= |calls| && id in states[0].rows
    ensures var s, t := states[0], states[k];
      var taken := k * o.limit;
      && id in t.rows && TaskKey(t.rows, id) == TaskKey(s.rows, id)
      && t.rows[id].attempts == s.rows[id].attempts + Share(Eligible(s, o.kinds), taken, TaskKey(s.rows, id))
      && Eligible(t, o.kinds) == Eligible(s, o.kinds) - First(Eligible(s, o.kinds), taken)
  {
    hide First, Eligible, Callable, Called, Share;
    if k == 0 {
      NoneTaken(Eligible(states[0], o.kinds), TaskKey(states[0].rows, id));
    } else {
      DrainedKeys(states, calls, o, k - 1, id);
      DrainStep(states[k - 1], calls[k - 1], o, states[k], id);
      var e := Eligible(states[0], o.kinds);
      assert k * o.limit == (k - 1) * o.limit + o.limit;
      ShareSplits(e, (k - 1) * o.limit, o.limit, TaskKey(states[0].rows, id));
      NextRows(e, (k - 1) * o.limit, o.limit);
    }
  }

  lemma NoneTaken(keys: set<SortKey>, k: SortKey)
    ensures Share(keys, 0, k) == 0 && keys - First(keys, 0) == keys
  {}

  /**
   * k calls of limit n take the first k * n waiting rows by (available_at, id), each exactly once:
   * those rows gain one attempt and wait no longer, no other row gains any and all others still wait.
   */
  lemma DrainingSorts(states: seq<State>, calls: seq<Call>, o: Options, k: nat, id: Uuid)
    requires Drains(states, calls, o) && k <= |calls| && id in states[0].rows
    ensures var s, t := states[0], states[k];
      var taken := Takeable(s, o.kinds, id) && Rank(s, o.kinds, id) < k * o.limit;
      && id in t.rows && t.rows[id].attempts == s.rows[id].attempts + (if taken then 1 else 0)
      && (Takeable(t, o.kinds, id) <==> Takeable(s, o.kinds, id) && !taken)
  {
    hide First, Earlier, Waits, EligibleRows, WaitingBefore, CallStep;
    var s, t := states[0], states[k];
    DrainedKeys(states, calls, o, k, id);
    WaitsIsEligible(s.now, s.rows, s.txs, o.kinds, id);
    WaitsIsEligible(t.now, t.rows, t.txs, o.kinds, id);
    SameRank(s.now, s.rows, s.txs, o.kinds, id);
    if Takeable(s, o.kinds, id) { FirstIsRankBelow(Eligible(s, o.kinds), k * o.limit, TaskKey(s.rows, id)); }
    FirstIsPart(Eligible(s, o.kinds), k * o.limit);
  }
}

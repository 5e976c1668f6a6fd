/**
 * The queue as its users understand it: admit, take a batch, finish, back off and extend, each in
 * one indivisible step. Every run of the interleaved protocol is a run of this queue; an operation
 * takes effect at its transaction's commit.
 */
module AtomicQueue {
  import opened Prelude
  import opened TaskTable
  import opened LeaseProtocol
  import opened LeaseInvariant

  datatype Entry =
    | Waiting(intent: Intent, attempts: nat, availableAt: int)
    | Leased(intent: Intent, attempts: nat, availableAt: int, token: Uuid, until: int)
    | Done(intent: Intent, attempts: nat, at: int)

  /** tokens are those of batches ever taken or thrown away. */
  datatype Queue = Queue(now: int, entries: map<Uuid, Entry>, done: multiset<Uuid>, tokens: set<Uuid>)

  datatype Op =
    | Pass(d: nat)
    | Add(added: map<Uuid, Entry>)
    | Take(batch: map<Uuid, Uuid>, at: int, leaseMs: int)
    | Finish(lease: Identity, at: int, added: map<Uuid, Entry>)
    | Backoff(lease: Identity, at: int, ms: int)
    | Extend(lease: Identity, at: int, ms: int)
    | Discard(unused: set<Uuid>)  // tokens drawn for a batch that was given up
    | Nothing

  predicate Ready(e: Entry, now: int) {
    (e.Waiting? && e.availableAt <= now) || (e.Leased? && e.until <= now)
  }

  predicate OwnsAt(q: Queue, lease: Identity, at: int) {
    && lease.id in q.entries && at <= q.now
    && q.entries[lease.id].Leased? && q.entries[lease.id].token == lease.leaseToken && q.entries[lease.id].until > at
  }

  /** New entries wait for their due time, under new identifiers and keys nobody uses. */
  predicate Addable(entries: map<Uuid, Entry>, added: map<Uuid, Entry>) {
    && added.Keys !! entries.Keys
    && (forall id :: id in added ==> added[id] == Waiting(added[id].intent, 0, added[id].intent.dueAt))
    && (forall i, j :: i in added && j in entries ==> !Clash(entries[j].intent, added[i].intent))
    && (forall i, j :: i in added && j in added && i != j ==> !Clash(added[i].intent, added[j].intent))
  }

  predicate Allowed(q: Queue, op: Op) {
    match op
    case Pass(_) => true
    case Nothing => true
    case Discard(unused) => unused !! q.tokens
    case Add(added) => Addable(q.entries, added)
    case Take(batch, at, leaseMs) =>
      && at <= q.now && Bounded(leaseMs, MAX_LEASE_MS)
      && (forall id :: id in batch ==> id in q.entries && Ready(q.entries[id], at))
      && batch.Values !! q.tokens
    case Finish(lease, at, added) => OwnsAt(q, lease, at) && Addable(q.entries, added)
    case Backoff(lease, at, ms) => OwnsAt(q, lease, at) && Bounded(ms, MAX_RETRY_MS)
    case Extend(lease, at, ms) => OwnsAt(q, lease, at) && Bounded(ms, MAX_LEASE_MS)
  }

  function Perform(q: Queue, op: Op): Queue
    requires Allowed(q, op)
  {
    match op
    case Pass(d) => q.(now := q.now + d)
    case Nothing => q
    case Discard(unused) => q.(tokens := q.tokens + unused)
    case Add(added) => q.(entries := q.entries + added)
    case Take(batch, at, leaseMs) =>
      q.(entries := q.entries + map id | id in batch ::
           Leased(q.entries[id].intent, q.entries[id].attempts + 1, TimeOf(q.entries[id]), batch[id], at + leaseMs * MILLISECOND),
         tokens := q.tokens + batch.Values)
    case Finish(lease, at, added) =>
      var e := q.entries[lease.id];
      q.(entries := q.entries[lease.id := Done(e.intent, e.attempts, at)] + added, done := q.done + multiset{lease.id})
    case Backoff(lease, at, ms) =>
      var e := q.entries[lease.id];
      q.(entries := q.entries[lease.id := Waiting(e.intent, e.attempts, Max(e.intent.dueAt, at + ms * MILLISECOND))])
    case Extend(lease, at, ms) =>
      var e := q.entries[lease.id];
      q.(entries := q.entries[lease.id := e.(until := Max(e.until, at + ms * MILLISECOND))])
  }

  function TimeOf(e: Entry): int {
    if e.Done? then e.at else e.availableAt
  }

  // ---------------------------------------------------------------- the committed table as a queue

  function EntryOf(row: Row): Entry {
    match row.status
    case Pending => Waiting(row.intent, row.attempts, row.availableAt)
    case Running => if row.leaseToken.Some? && row.leaseUntil.Some?
      then Leased(row.intent, row.attempts, row.availableAt, row.leaseToken.value, row.leaseUntil.value)
      else Waiting(row.intent, row.attempts, row.availableAt)
    case Completed => Done(row.intent, row.attempts, if row.completedAt.Some? then row.completedAt.value else 0)
  }

  function Entries(rows: map<Uuid, Row>): map<Uuid, Entry> {
    map id | id in rows :: EntryOf(rows[id])
  }

  /** Tokens drawn by transactions that are over. */
  function Issued(s: State): set<Uuid> {
    set t | t in s.tokens && !BeingDrawn(s.txs, t)
  }

  predicate BeingDrawn(txs: map<Worker, Tx>, t: Uuid) {
    exists w :: w in txs && t in DrawnBy(txs[w].phase)
  }

  function Abs(s: State): Queue {
    Queue(s.now, Entries(s.rows), s.effects, Issued(s))
  }

  /** The queue operation a label performs: that of its transaction, when it commits. */
  function CommitOp(tx: Tx): Op {
    match tx.phase
    case Source => Add(Entries(tx.inserts))
    case ClaimUpdated(_, leaseMs, at, tokens) => Take(tokens, at, leaseMs)
    case RunCompleted(lease, at) => Finish(lease, at, Entries(tx.inserts))
    case RetryUpdated(lease, ms, _, at) => if tx.updates == map[] then Nothing else Backoff(lease, at, ms)
    case RenewUpdated(lease, ms, at) => if tx.updates == map[] then Nothing else Extend(lease, at, ms)
    case _ => Nothing
  }

  function OpOf(s: State, l: Label): Op {
    if l.Tick? then Pass(l.d)
    else if l.Commit? && l.w in s.txs then CommitOp(s.txs[l.w])
    else if l.Abort? && l.w in s.txs then Discard(DrawnBy(s.txs[l.w].phase))
    else Nothing
  }

  lemma InsertsAddable(rows: map<Uuid, Row>, tx: Tx)
    requires InsertsOk(rows, tx)
    ensures Addable(Entries(rows), Entries(tx.inserts))
  {
    var e, a := Entries(rows), Entries(tx.inserts);
    forall i, j | i in a && j in e ensures !Clash(e[j].intent, a[i].intent) {
      assert !Taken(rows, tx.inserts[i].intent);
    }
  }

  /** The queue shows these rows, and the transaction's tokens are new to it. */
  predicate Shows(q: Queue, rows: map<Uuid, Row>, now: int, tx: Tx) {
    q.entries == Entries(rows) && q.now == now && DrawnBy(tx.phase) !! q.tokens
  }

  predicate Refines(q: Queue, rows: map<Uuid, Row>, tx: Tx) {
    Allowed(q, CommitOp(tx)) && Perform(q, CommitOp(tx)).entries == Entries(Merged(rows, tx))
  }

  lemma SourceRefines(q: Queue, rows: map<Uuid, Row>, now: int, tokens: set<Uuid>, tx: Tx)
    requires TxOk(rows, now, tokens, tx) && tx.phase.Source? && Shows(q, rows, now, tx)
    ensures Refines(q, rows, tx)
  {
    hide EntryOf, Entries, Addable, InsertsOk;
    InsertsAddable(rows, tx);
    EntriesOfInserts(rows, tx.inserts);
  }

  lemma EntriesOfInserts(rows: map<Uuid, Row>, added: map<Uuid, Row>)
    ensures Entries(rows + map[] + added) == Entries(rows) + Entries(added)
  {
    hide EntryOf;
  }

  lemma ReadyEntry(row: Row, now: int, at: int)
    requires Claimable(row, at) && RowShape(row, now)
    ensures Ready(EntryOf(row), at)
  {}

  lemma ClaimAllowed(q: Queue, rows: map<Uuid, Row>, now: int, tokens: set<Uuid>, tx: Tx)
    requires PhaseOk(rows, now, tokens, tx) && tx.phase.ClaimUpdated? && Shows(q, rows, now, tx)
    requires forall id :: id in rows ==> RowShape(rows[id], now)
    ensures Allowed(q, Take(tx.phase.tokens, tx.phase.at, tx.phase.leaseMs))
  {
    hide EntryOf, Ready, RowShape;
    forall id | id in tx.phase.ids ensures Ready(EntryOf(rows[id]), tx.phase.at) {
      ReadyEntry(rows[id], now, tx.phase.at);
    }
  }

  lemma ClaimedEntry(row: Row, token: Uuid, until: int, at: int)
    requires Claimable(row, at)
    ensures EntryOf(ClaimedRow(row, token, until)) ==
            Leased(EntryOf(row).intent, EntryOf(row).attempts + 1, TimeOf(EntryOf(row)), token, until)
  {}

  lemma ClaimEntries(rows: map<Uuid, Row>, q: Queue, ids: set<Uuid>, leaseMs: int, at: int, drawn: map<Uuid, Uuid>)
    requires ids <= rows.Keys && drawn.Keys == ids && q.entries == Entries(rows) && Allowed(q, Take(drawn, at, leaseMs))
    requires forall id :: id in ids ==> Claimable(rows[id], at)
    ensures Perform(q, Take(drawn, at, leaseMs)).entries == Entries(rows + ClaimUpdates(rows, ClaimUpdated(ids, leaseMs, at, drawn)))
  {
    hide EntryOf, Ready, Claimable;
    var updates := ClaimUpdates(rows, ClaimUpdated(ids, leaseMs, at, drawn));
    var after := Perform(q, Take(drawn, at, leaseMs)).entries;
    forall id | id in rows ensures id in after && after[id] == EntryOf((rows + updates)[id]) {
      if id in ids { ClaimedEntry(rows[id], drawn[id], at + leaseMs * MILLISECOND, at); }
    }
  }

  lemma ClaimRefines(q: Queue, rows: map<Uuid, Row>, now: int, tokens: set<Uuid>, tx: Tx)
    requires PhaseOk(rows, now, tokens, tx) && tx.phase.ClaimUpdated? && tx.inserts == map[] && Shows(q, rows, now, tx)
    requires forall id :: id in rows ==> RowShape(rows[id], now)
    ensures Refines(q, rows, tx)
  {
    hide Entries, RowShape;
    ClaimAllowed(q, rows, now, tokens, tx);
    ClaimEntries(rows, q, tx.phase.ids, tx.phase.leaseMs, tx.phase.at, tx.phase.tokens);
    assert Merged(rows, tx) == rows + tx.updates;
  }

  lemma EntriesOfUpdate(rows: map<Uuid, Row>, id: Uuid, row: Row, added: map<Uuid, Row>)
    ensures Entries(rows + map[id := row] + added) == Entries(rows)[id := EntryOf(row)] + Entries(added)
  {}

  lemma RunRefinesFinish(q: Queue, rows: map<Uuid, Row>, now: int, tokens: set<Uuid>, tx: Tx)
    requires TxOk(rows, now, tokens, tx) && tx.phase.RunCompleted? && Shows(q, rows, now, tx)
    ensures Refines(q, rows, tx)
  {
    hide Addable, InsertsOk;
    InsertsAddable(rows, tx);
    var RunCompleted(lease, at) := tx.phase;
    EntriesOfUpdate(rows, lease.id, CompletedRow(rows[lease.id], at), tx.inserts);
  }

  lemma FenceRefines(q: Queue, rows: map<Uuid, Row>, now: int, tokens: set<Uuid>, tx: Tx)
    requires PhaseOk(rows, now, tokens, tx) && (tx.phase.RetryUpdated? || tx.phase.RenewUpdated?) && tx.inserts == map[]
    requires Shows(q, rows, now, tx)
    ensures Refines(q, rows, tx)
  {
    assert Merged(rows, tx) == rows + tx.updates;
  }

  lemma EmptyClaimRefines(q: Queue, rows: map<Uuid, Row>, now: int, tokens: set<Uuid>, tx: Tx)
    requires PhaseOk(rows, now, tokens, tx) && tx.phase.ClaimSelected? && tx.inserts == map[] && Shows(q, rows, now, tx)
    ensures Refines(q, rows, tx)
  {
    assert Merged(rows, tx) == rows;
  }

  lemma CommitRefines(q: Queue, rows: map<Uuid, Row>, now: int, tokens: set<Uuid>, tx: Tx)
    requires TxOk(rows, now, tokens, tx) && Committable(tx.phase) && Shows(q, rows, now, tx)
    requires forall id :: id in rows ==> RowShape(rows[id], now)
    ensures Refines(q, rows, tx)
  {
    hide Refines, Shows, RowShape;
    if tx.phase.Source? { SourceRefines(q, rows, now, tokens, tx); }
    else if tx.phase.ClaimUpdated? { ClaimRefines(q, rows, now, tokens, tx); }
    else if tx.phase.RunCompleted? { RunRefinesFinish(q, rows, now, tokens, tx); }
    else if tx.phase.ClaimSelected? { EmptyClaimRefines(q, rows, now, tokens, tx); }
    else { FenceRefines(q, rows, now, tokens, tx); }
  }

  // ---------------------------------------------------------------- tokens

  /** A transaction that is over gives up or hands out the tokens it drew; nobody else has them. */
  lemma EndIssues(s: State, w: Worker, rest: map<Worker, Tx>)
    requires Inv(s) && w in s.txs && rest == s.txs - {w}
    ensures (set t | t in s.tokens && !BeingDrawn(rest, t)) == Issued(s) + DrawnBy(s.txs[w].phase)
    ensures DrawnBy(s.txs[w].phase) !! Issued(s)
  {
    hide RowsOk, PhaseOk, InsertsOk, DrawnBy;
    assert TxOk(s.rows, s.now, s.tokens, s.txs[w]);
    DrawnKnown(s.rows, s.now, s.tokens, s.txs[w]);
    forall t | t in DrawnBy(s.txs[w].phase) ensures !BeingDrawn(rest, t) {
      forall v | v in rest ensures t !in DrawnBy(rest[v].phase) { ApartAt(s, w, v); }
    }
    forall t | BeingDrawn(s.txs, t) && t !in DrawnBy(s.txs[w].phase) ensures BeingDrawn(rest, t) {
      var v :| v in s.txs && t in DrawnBy(s.txs[v].phase);
      assert v in rest;
    }
    forall t | BeingDrawn(rest, t) ensures BeingDrawn(s.txs, t) {
      var v :| v in rest && t in DrawnBy(rest[v].phase);
      assert v in s.txs;
    }
  }

  /** Replacing a transaction by one that draws only what is new to the tokens issues nothing. */
  lemma PutIssues(s: State, w: Worker, tx: Tx, drawn: set<Uuid>)
    requires DrawnBy(tx.phase) == (if w in s.txs then DrawnBy(s.txs[w].phase) else {}) + drawn && drawn !! s.tokens
    ensures Issued(Put(s, w, tx).(tokens := s.tokens + drawn)) == Issued(s)
  {
    hide DrawnBy;
    var txs := s.txs[w := tx];
    forall t | t in s.tokens ensures BeingDrawn(txs, t) <==> BeingDrawn(s.txs, t) {
      if BeingDrawn(txs, t) {
        var v :| v in txs && t in DrawnBy(txs[v].phase);
        assert v in s.txs && t in DrawnBy(s.txs[v].phase);
      }
      if BeingDrawn(s.txs, t) {
        var v :| v in s.txs && t in DrawnBy(s.txs[v].phase);
        assert v in txs && t in DrawnBy(txs[v].phase);
      }
    }
    forall t | t in drawn ensures BeingDrawn(txs, t) { assert t in DrawnBy(txs[w].phase); }
  }

  /** Only a finish logs an effect, only a batch hands out tokens. */
  lemma OpCounts(q: Queue, tx: Tx)
    requires Allowed(q, CommitOp(tx)) && Committable(tx.phase)
    ensures Perform(q, CommitOp(tx)).done == q.done + (if tx.phase.RunCompleted? then multiset{tx.phase.lease.id} else multiset{})
    ensures Perform(q, CommitOp(tx)).now == q.now && Perform(q, CommitOp(tx)).tokens == q.tokens + DrawnBy(tx.phase)
  {}

  lemma CommitIsPerform(s: State, w: Worker)
    requires Inv(s) && w in s.txs && Committable(s.txs[w].phase)
    ensures Allowed(Abs(s), CommitOp(s.txs[w]))
    ensures Abs(Committed(s, w)) == Perform(Abs(s), CommitOp(s.txs[w]))
  {
    hide Allowed, Perform, CommitOp, Entries, PhaseOk, InsertsOk, RowShape, AllApart, DrawnBy;
    var tx := s.txs[w];
    assert TxOk(s.rows, s.now, s.tokens, tx) && RowsOk(s);
    EndIssues(s, w, s.txs - {w});
    CommitRefines(Abs(s), s.rows, s.now, s.tokens, tx);
    OpCounts(Abs(s), tx);
    assert Committed(s, w).rows == Merged(s.rows, tx);
  }

  lemma AbortIsDiscard(s: State, w: Worker)
    requires Inv(s) && w in s.txs
    ensures Allowed(Abs(s), Discard(DrawnBy(s.txs[w].phase)))
    ensures Abs(End(s, w)) == Perform(Abs(s), Discard(DrawnBy(s.txs[w].phase)))
  {
    hide Inv, DrawnBy, Entries;
    EndIssues(s, w, s.txs - {w});
  }

  /** Each statement is one queue operation or nothing at all. */
  lemma StepRefines(s: State, l: Label)
    requires Inv(s) && Enabled(s, l)
    ensures Allowed(Abs(s), OpOf(s, l))
    ensures Abs(Apply(s, l)) == Perform(Abs(s), OpOf(s, l))
  {
    if l.Commit? {
      CommitApplies(s, l.w);
      CommitIsPerform(s, l.w);
    } else if l.Abort? {
      AbortIsDiscard(s, l.w);
    } else if !l.Tick? {
      StatementKeepsQueue(s, l);
    }
  }

  lemma OpenDrawsNothing(s: State, l: Label)
    requires Enabled(s, l) && Opens(l)
    ensures l.w !in s.txs && DrawnBy(Opened(s, l).phase) == {}
  {
    hide Candidates;
  }

  lemma ProgressDrawsNew(s: State, l: Label)
    requires Enabled(s, l) && Progresses(l)
    ensures l.w in s.txs && Drawn(l) !! s.tokens
    ensures Progressed(s, l).None? ==> DrawnBy(s.txs[l.w].phase) == {}
    ensures Progressed(s, l).Some? ==> DrawnBy(Progressed(s, l).value.phase) == DrawnBy(s.txs[l.w].phase) + Drawn(l)
  {
    hide LeaseHolds, ClaimUpdates, RetriedRow, RenewedRow, CompletedRow;
  }

  lemma StatementKeepsQueue(s: State, l: Label)
    requires Inv(s) && Enabled(s, l) && !l.Commit? && !l.Tick? && !l.Abort?
    ensures Abs(Apply(s, l)) == Abs(s)
  {
    hide Inv, DrawnBy, Entries, Progressed, Opened, Creates, Plus, Visible, Issued;
    assert s.tokens + {} == s.tokens;
    if Opens(l) {
      OpenDrawsNothing(s, l);
      PutIssues(s, l.w, Opened(s, l), {});
    } else if Progresses(l) {
      ProgressDrawsNew(s, l);
      if Progressed(s, l).Some? {
        PutIssues(s, l.w, Progressed(s, l).value, Drawn(l));
      } else {
        EndIssuesNothing(s, l.w);
      }
    } else if l.w in Apply(s, l).txs && Apply(s, l) != s {
      PutIssues(s, l.w, Apply(s, l).txs[l.w], {});
    }
  }

  lemma EndIssuesNothing(s: State, w: Worker)
    requires Inv(s) && w in s.txs && DrawnBy(s.txs[w].phase) == {}
    ensures Issued(End(s, w)) == Issued(s)
  {
    hide Inv, DrawnBy;
    EndIssues(s, w, s.txs - {w});
  }

  ghost predicate QueuePossible(q: Queue, ops: seq<Op>)
    decreases |ops|
  {
    ops == [] || (Allowed(q, ops[0]) && QueuePossible(Perform(q, ops[0]), ops[1..]))
  }

  ghost function QueueAfter(q: Queue, ops: seq<Op>): Queue
    requires QueuePossible(q, ops)
    decreases |ops|
  {
    if ops == [] then q else QueueAfter(Perform(q, ops[0]), ops[1..])
  }

  ghost function OpsOf(s: State, run: seq<Label>): seq<Op>
    requires Possible(s, run)
    decreases |run|
  {
    if run == [] then [] else [OpOf(s, run[0])] + OpsOf(Apply(s, run[0]), run[1..])
  }

  /** Every interleaving of every worker's statements is a run of the atomic queue. */
  lemma {:induction false} RunRefines(s: State, run: seq<Label>)
    requires Inv(s) && Possible(s, run)
    ensures QueuePossible(Abs(s), OpsOf(s, run))
    ensures QueueAfter(Abs(s), OpsOf(s, run)) == Abs(After(s, run))
    decreases |run|
  {
    if run != [] {
      StepRefines(s, run[0]);
      StepKeepsInv(s, run[0]);
      RunRefines(Apply(s, run[0]), run[1..]);
      var ops := OpsOf(s, run);
      assert ops[1..] == OpsOf(Apply(s, run[0]), run[1..]);
    }
  }

  // ---------------------------------------------------------------- fencing, as users see it

  predicate OwnsTask(q: Queue, lease: Identity) {
    lease.id in q.entries && q.entries[lease.id].Leased? && q.entries[lease.id].token == lease.leaseToken
  }

  /** An identity that was handed out or thrown away and does not own its task. */
  predicate FencedOff(q: Queue, lease: Identity) {
    lease.leaseToken in q.tokens && !OwnsTask(q, lease)
  }

  /** Whoever owns a task got the token from the queue. */
  predicate TokensKnown(q: Queue) {
    forall id :: id in q.entries && q.entries[id].Leased? ==> q.entries[id].token in q.tokens
  }

  lemma OpKeepsFence(q: Queue, op: Op, lease: Identity)
    requires Allowed(q, op) && FencedOff(q, lease)
    ensures FencedOff(Perform(q, op), lease)
  {
    if op.Take? && lease.id in op.batch { assert op.batch[lease.id] in op.batch.Values; }
  }

  lemma OpKeepsTokens(q: Queue, op: Op)
    requires Allowed(q, op) && TokensKnown(q)
    ensures TokensKnown(Perform(q, op)) && q.tokens <= Perform(q, op).tokens
  {
    if op.Take? { assert forall id :: id in op.batch ==> op.batch[id] in op.batch.Values; }
  }

  lemma {:induction false} FencedOffForever(q: Queue, ops: seq<Op>, lease: Identity)
    requires QueuePossible(q, ops) && FencedOff(q, lease)
    ensures FencedOff(QueueAfter(q, ops), lease)
    decreases |ops|
  {
    hide Allowed, Perform, FencedOff;
    if ops != [] {
      OpKeepsFence(q, ops[0], lease);
      FencedOffForever(Perform(q, ops[0]), ops[1..], lease);
    }
  }

  /** The queue itself fences: ownership lost anywhere along its operations never comes back. */
  lemma {:induction false} QueueNeverRegains(q: Queue, first: seq<Op>, rest: seq<Op>, lease: Identity)
    requires TokensKnown(q) && QueuePossible(q, first) && OwnsTask(q, lease)
    requires !OwnsTask(QueueAfter(q, first), lease) && QueuePossible(QueueAfter(q, first), rest)
    ensures FencedOff(QueueAfter(QueueAfter(q, first), rest), lease)
    decreases |first|
  {
    hide Allowed, Perform;
    var next := Perform(q, first[0]);
    OpKeepsTokens(q, first[0]);
    if OwnsTask(next, lease) {
      QueueNeverRegains(next, first[1..], rest, lease);
    } else {
      FencedOffForever(next, first[1..], lease);
      FencedOffForever(QueueAfter(q, first), rest, lease);
    }
  }

  /** Every queue that a run of the protocol reaches knows the tokens of its owners. */
  lemma {:induction false} OpsKeepTokens(q: Queue, ops: seq<Op>)
    requires QueuePossible(q, ops) && TokensKnown(q)
    ensures TokensKnown(QueueAfter(q, ops))
    decreases |ops|
  {
    hide Allowed, Perform, TokensKnown;
    if ops != [] {
      OpKeepsTokens(q, ops[0]);
      OpsKeepTokens(Perform(q, ops[0]), ops[1..]);
    }
  }

  lemma ReachedTokensKnown(s: State, run: seq<Label>)
    requires Initial(s) && Possible(s, run)
    ensures TokensKnown(Abs(After(s, run)))
  {
    InitialInv(s);
    assert TokensKnown(Abs(s));
    RunRefines(s, run);
    OpsKeepTokens(Abs(s), OpsOf(s, run));
  }
}

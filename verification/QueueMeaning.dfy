/**
 * The words in which the queue's promises are stated: columns and literal bounds only, none of the
 * definitions its statements are modelled with; and the lemmas that the model is what they say.
 */
module QueueMeaning {
  import opened Prelude
  import opened Ordering
  import opened TaskTable
  import opened LeaseProtocol

  // ---------------------------------------------------------------- enqueue

  /** What the caller asked for, column by column. */
  predicate Asks(input: TaskInput, intent: Intent) {
    input.dueAt.Some? && intent == Intent(input.kind, input.payloadVersion, input.dedupeKey, input.payload,
                                          input.dueAt.value, input.sourceEventId, input.targetSessionId)
  }

  /** Another row stands in the way of an intent: its key is the same, or it recalculates the same pair. */
  predicate Rivals(a: Intent, input: TaskInput) {
    || a.dedupeKey == input.dedupeKey
    || (a.kind == BonusRecalculate && input.kind == BonusRecalculate
        && a.sourceEventId == input.sourceEventId && a.targetSessionId == input.targetSessionId)
  }

  /** Some field of the input is outside what the queue accepts. */
  predicate Malformed(input: TaskInput) {
    || input.kind.UnknownKind? || input.dueAt.None? || input.payloadVersion < 1 || input.payloadVersion > 9007199254740991
    || |input.dedupeKey| < 1 || |input.dedupeKey| > 250 || input.payload.NotAnObject?
  }

  /** The columns cannot hold it: the version is too large, or it is bound to a pair without being a recalculation. */
  predicate Unstorable(input: TaskInput) {
    || input.payloadVersion > 2147483647
    || (input.kind == BonusRecalculate) != input.sourceEventId.Some?
    || (input.kind == BonusRecalculate) != input.targetSessionId.Some?
  }

  /**
   * What an answer means: the exact grounds of each refusal, which changes nothing; on success the
   * identifier names the one row under the intent's key or bonus pair, with exactly that intent,
   * new and waiting for its due time or as it was.
   */
  predicate Answers(rows: map<Uuid, Row>, input: TaskInput, newId: Uuid, r: Result<Admission, EnqueueError>, rows': map<Uuid, Row>) {
    && (r == Failure(InvalidIntent) <==> Malformed(input))
    && (r == Failure(RejectedByTable) <==> !Malformed(input) && Unstorable(input))
    && (r == Failure(IntentConflict) <==>
         (!Malformed(input) && !Unstorable(input)
          && exists id :: id in rows && Rivals(rows[id].intent, input) && !Asks(input, rows[id].intent)))
    && (r.Failure? ==> rows' == rows)
    && (r.Success? ==>
         && r.value.id in rows' && Asks(input, rows'[r.value.id].intent)
         && (r.value.created <==> r.value.id !in rows)
         && (forall id :: id in rows' && Rivals(rows'[id].intent, input) ==> id == r.value.id)
         && (r.value.created ==>
              r.value.id == newId && rows' == rows[newId := Row(rows'[newId].intent, input.dueAt.value, Pending, 0, None, None, None, None)])
         && (!r.value.created ==> rows' == rows))
  }

  lemma InputMeans(input: TaskInput)
    ensures ValidInput(input) <==> !Malformed(input)
    ensures ValidInput(input) ==> (TableAccepts(IntentOf(input)) <==> !Unstorable(input))
    ensures ValidInput(input) ==> Asks(input, IntentOf(input))
  {}

  lemma RivalsMeans(input: TaskInput, a: Intent)
    requires input.dueAt.Some?
    ensures Rivals(a, input) <==> Clash(a, IntentOf(input))
  {}

  /** The answer to an enqueue, with the row it inserts, is such an answer. */
  lemma AdmissionMeans(rows: map<Uuid, Row>, input: TaskInput, newId: Uuid)
    requires Unique(rows) && newId !in rows
    ensures Answers(rows, input, newId, Admit(rows, input, newId), if Creates(rows, input) then Plus(rows, input, newId) else rows)
  {
    InputMeans(input);
    if ValidInput(input) && TableAccepts(IntentOf(input)) {
      hide Clash, Rivals, ValidInput, TableAccepts, Malformed, Unstorable;
      var intent := IntentOf(input);
      forall id | id in rows ensures Rivals(rows[id].intent, input) <==> Clash(rows[id].intent, intent) {
        RivalsMeans(input, rows[id].intent);
      }
      if !Taken(rows, intent) {
        PlusIntent(rows, input, newId);
      } else if Holds(rows, intent) {
        var found := Existing(rows, intent);
        forall id | id in rows && Clash(rows[id].intent, intent) ensures id == found {
          assert rows[found].intent == intent;
        }
      } else {
        var id :| id in rows && Clash(rows[id].intent, intent);
        assert Rivals(rows[id].intent, input) && !Asks(input, rows[id].intent);
      }
    }
  }

  // ---------------------------------------------------------------- owning

  /** At this instant the row runs under this very token and its deadline is still to come. */
  predicate Owns(rows: map<Uuid, Row>, lease: Identity, at: int) {
    && lease.id in rows && rows[lease.id].status == Running && rows[lease.id].leaseToken == Some(lease.leaseToken)
    && rows[lease.id].leaseUntil.Some? && rows[lease.id].leaseUntil.value > at
  }

  /** A finished row: completed at this instant, with no lease and no error left on it. */
  function Done(row: Row, at: int): Row {
    Row(row.intent, row.availableAt, Completed, row.attempts, None, None, None, Some(at))
  }

  /** A row given back: pending again after the delay, and not before it was due, with the error. */
  function GivenBack(row: Row, at: int, ms: int, code: ErrorCode): Row {
    Row(row.intent, if at + ms * 1000 >= row.intent.dueAt then at + ms * 1000 else row.intent.dueAt,
        Pending, row.attempts, None, None, Some(code), row.completedAt)
  }

  /** A row whose owner keeps it until the later of its deadline and this many milliseconds from now. */
  function Kept(row: Row, at: int, ms: int): Row
    requires row.leaseUntil.Some?
  {
    Row(row.intent, row.availableAt, row.status, row.attempts, row.leaseToken,
        Some(if at + ms * 1000 >= row.leaseUntil.value then at + ms * 1000 else row.leaseUntil.value),
        row.lastErrorCode, row.completedAt)
  }

  lemma RowsMean(row: Row, at: int, ms: int, code: ErrorCode)
    ensures CompletedRow(row, at) == Done(row, at)
    ensures RetriedRow(row, at, ms, code) == GivenBack(row, at, ms, code)
    ensures row.leaseUntil.Some? ==> RenewedRow(row, at, ms) == Kept(row, at, ms)
  {}

  lemma OwnsIsLeaseHolds(rows: map<Uuid, Row>, lease: Identity, at: int)
    ensures Owns(rows, lease, at) <==> LeaseHolds(rows, lease, at)
  {}

  // ---------------------------------------------------------------- claiming

  /** An unlocked row of one of these kinds that is pending and due, or whose lease has run out. */
  predicate Waits(now: int, rows: map<Uuid, Row>, txs: map<Worker, Tx>, kinds: seq<Kind>, id: Uuid) {
    && id in rows && rows[id].intent.kind in kinds
    && (forall w :: w in txs ==> id !in txs[w].locks)
    && ((rows[id].status == Pending && rows[id].availableAt <= now)
        || (rows[id].status == Running && rows[id].leaseUntil.Some? && rows[id].leaseUntil.value <= now))
  }

  /** The claim's order: by time, then by identifier. */
  predicate Sooner(rows: map<Uuid, Row>, a: Uuid, b: Uuid)
    requires a in rows && b in rows
  {
    rows[a].availableAt < rows[b].availableAt || (rows[a].availableAt == rows[b].availableAt && TextLess(a, b))
  }

  function WaitingBefore(now: int, rows: map<Uuid, Row>, txs: map<Worker, Tx>, kinds: seq<Kind>, id: Uuid): set<Uuid>
    requires id in rows
  {
    set x | x in rows && Waits(now, rows, txs, kinds, x) && Sooner(rows, x, id)
  }

  /** A row that waits with fewer than limit others before it. */
  predicate Next(now: int, rows: map<Uuid, Row>, txs: map<Worker, Tx>, kinds: seq<Kind>, limit: int, id: Uuid) {
    Waits(now, rows, txs, kinds, id) && |WaitingBefore(now, rows, txs, kinds, id)| < limit
  }

  function Keys(rows: map<Uuid, Row>, ids: set<Uuid>): set<SortKey>
    requires ids <= rows.Keys
  {
    set id | id in ids :: TaskKey(rows, id)
  }

  lemma {:induction false} OneKeyEach(rows: map<Uuid, Row>, ids: set<Uuid>)
    requires ids <= rows.Keys
    ensures |Keys(rows, ids)| == |ids|
  {
    if ids != {} {
      var id :| id in ids;
      OneKeyEach(rows, ids - {id});
      assert Keys(rows, ids) == Keys(rows, ids - {id}) + {TaskKey(rows, id)};
    }
  }

  lemma WaitsIsEligible(now: int, rows: map<Uuid, Row>, txs: map<Worker, Tx>, kinds: seq<Kind>, id: Uuid)
    requires id in rows
    ensures Waits(now, rows, txs, kinds, id) <==> TaskKey(rows, id) in EligibleRows(now, rows, txs, kinds)
  {}

  lemma SoonerIsBefore(rows: map<Uuid, Row>, a: Uuid, b: Uuid)
    requires a in rows && b in rows
    ensures Sooner(rows, a, b) <==> Before(TaskKey(rows, a), TaskKey(rows, b))
  {}

  /** The rank of a row among the eligible keys is its rank among the waiting rows. */
  lemma SameRank(now: int, rows: map<Uuid, Row>, txs: map<Worker, Tx>, kinds: seq<Kind>, id: Uuid)
    requires id in rows
    ensures |Earlier(EligibleRows(now, rows, txs, kinds), TaskKey(rows, id))| == |WaitingBefore(now, rows, txs, kinds, id)|
  {
    var all, before := EligibleRows(now, rows, txs, kinds), WaitingBefore(now, rows, txs, kinds, id);
    forall x | x in rows ensures x in before <==> TaskKey(rows, x) in Earlier(all, TaskKey(rows, id)) {
      WaitsIsEligible(now, rows, txs, kinds, x);
      SoonerIsBefore(rows, x, id);
    }
    OneKeyEach(rows, before);
    hide Before, Waits, Sooner, Claimable;
    assert Keys(rows, before) == Earlier(all, TaskKey(rows, id));
  }

  /** A claim takes exactly the waiting rows with fewer than limit waiting rows before them. */
  lemma CandidatesAreNext(now: int, rows: map<Uuid, Row>, txs: map<Worker, Tx>, kinds: seq<Kind>, limit: nat, id: Uuid)
    ensures id in CandidateRows(now, rows, txs, kinds, limit) <==> Next(now, rows, txs, kinds, limit, id)
  {
    if id in rows {
      WaitsIsEligible(now, rows, txs, kinds, id);
      SameRank(now, rows, txs, kinds, id);
      if TaskKey(rows, id) in EligibleRows(now, rows, txs, kinds) {
        FirstIsRankBelow(EligibleRows(now, rows, txs, kinds), limit, TaskKey(rows, id));
      }
    }
  }

  lemma {:induction false} CandidateCount(now: int, rows: map<Uuid, Row>, txs: map<Worker, Tx>, kinds: seq<Kind>, limit: nat)
    ensures |CandidateRows(now, rows, txs, kinds, limit)| == |First(EligibleRows(now, rows, txs, kinds), limit)|
  {
    var ids, first := CandidateRows(now, rows, txs, kinds, limit), First(EligibleRows(now, rows, txs, kinds), limit);
    OneKeyEach(rows, ids);
    FirstIsPart(EligibleRows(now, rows, txs, kinds), limit);
    forall k | k in first ensures k in Keys(rows, ids) {
      var id :| id in rows && k == TaskKey(rows, id);
      assert id in ids;
    }
    assert Keys(rows, ids) == first;
  }
}

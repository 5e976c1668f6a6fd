/**
 * The background_tasks table: rows, the unique indexes on it, and admission of an intent.
 * Times are database wall-clock microseconds; durations given by callers are milliseconds.
 */
module TaskTable {
  import opened Prelude

  const MILLISECOND := 1000
  const MAX_SAFE_INTEGER := 9007199254740991
  const MAX_INT4 := 2147483647
  const MAX_CLAIM := 100
  const MAX_LEASE_MS := 300_000
  const MAX_RETRY_MS := 86_400_000
  const KIND_COUNT := 16

  datatype Kind =
    | MediaProcess | PhotoInspect | ShiftReminder | AckReminder | ReturnReminder
    | DowntimeEscalation | IncidentSla | HandoverTimeout | CleaningReminder | BonusRecalculate
    | BirthdayGreeting | AbsenceCheckin | AbsenceReturn | MaintenanceReminder
    | EmergencyAck | EmergencyEscalation
    | UnknownKind(name: string)  // a value the type checker was told to accept

  datatype ErrorCode =
    | ExecutionFailed | DependencyUnavailable | InvalidPayload | UnsupportedVersion
    | UnknownCode(text: string)

  /** A JSON value: only objects are accepted as payloads; their contents are opaque. */
  datatype Json = Object(fields: map<string, string>) | NotAnObject

  datatype Status = Pending | Running | Completed

  /** The immutable part of a row. */
  datatype Intent = Intent(
    kind: Kind, payloadVersion: int, dedupeKey: string, payload: Json, dueAt: int,
    sourceEventId: Option<Uuid>, targetSessionId: Option<Uuid>)

  /** What a producer passes; dueAt is None for an invalid date. */
  datatype TaskInput = TaskInput(
    kind: Kind, payloadVersion: int, dedupeKey: string, payload: Json, dueAt: Option<int>,
    sourceEventId: Option<Uuid>, targetSessionId: Option<Uuid>)

  datatype Row = Row(
    intent: Intent, availableAt: int, status: Status, attempts: nat,
    leaseToken: Option<Uuid>, leaseUntil: Option<int>,
    lastErrorCode: Option<ErrorCode>, completedAt: Option<int>)

  /** What a worker holds of a task it claimed. */
  datatype Identity = Identity(id: Uuid, leaseToken: Uuid)

  datatype EnqueueError = InvalidIntent | RejectedByTable | IntentConflict

  datatype Admission = Admission(id: Uuid, created: bool)

  predicate ValidInput(input: TaskInput) {
    && !input.kind.UnknownKind?
    && input.dueAt.Some?
    && 1 <= input.payloadVersion <= MAX_SAFE_INTEGER
    && 1 <= |input.dedupeKey| <= 250
    && input.payload.Object?
  }

  function IntentOf(input: TaskInput): Intent
    requires input.dueAt.Some?
  {
    Intent(input.kind, input.payloadVersion, input.dedupeKey, input.payload, input.dueAt.value,
           input.sourceEventId, input.targetSessionId)
  }

  /** The column type of payload_version and the bonus binding check. */
  predicate TableAccepts(intent: Intent) {
    && intent.payloadVersion <= MAX_INT4
    && (intent.kind.BonusRecalculate?) == intent.sourceEventId.Some?
    && (intent.kind.BonusRecalculate?) == intent.targetSessionId.Some?
  }

  /** The check constraints on the immutable columns: kind, version, payload shape, key and binding. */
  predicate IntentChecks(intent: Intent) {
    && !intent.kind.UnknownKind? && 1 <= intent.payloadVersion
    && 1 <= |intent.dedupeKey| <= 250 && intent.payload.Object?
    && TableAccepts(intent)
  }

  predicate SamePair(a: Intent, b: Intent) {
    && a.kind.BonusRecalculate? && b.kind.BonusRecalculate?
    && a.sourceEventId == b.sourceEventId && a.targetSessionId == b.targetSessionId
  }

  /** Two intents that a unique index keeps apart. */
  predicate Clash(a: Intent, b: Intent) {
    a.dedupeKey == b.dedupeKey || SamePair(a, b)
  }

  predicate Unique(rows: map<Uuid, Row>) {
    forall i, j :: i in rows && j in rows && i != j ==> !Clash(rows[i].intent, rows[j].intent)
  }

  predicate Taken(rows: map<Uuid, Row>, intent: Intent) {
    exists i :: i in rows && Clash(rows[i].intent, intent)
  }

  predicate Holds(rows: map<Uuid, Row>, intent: Intent) {
    exists i :: i in rows && rows[i].intent == intent
  }

  function Existing(rows: map<Uuid, Row>, intent: Intent): (i: Uuid)
    requires Unique(rows) && Holds(rows, intent)
    ensures i in rows && rows[i].intent == intent
  {
    assert forall i, j :: i in rows && rows[i].intent == intent && j in rows && rows[j].intent == intent ==> i == j by {
      forall i, j | i in rows && rows[i].intent == intent && j in rows && rows[j].intent == intent ensures i == j {
        assert Clash(rows[i].intent, rows[j].intent);
      }
    }
    var i :| i in rows && rows[i].intent == intent;
    i
  }

  function NewRow(intent: Intent): Row {
    Row(intent, intent.dueAt, Pending, 0, None, None, None, None)
  }

  /** The answer to an enqueue: insert on no conflict, else look for the identical intent. */
  function Admit(rows: map<Uuid, Row>, input: TaskInput, newId: Uuid): (r: Result<Admission, EnqueueError>)
    requires Unique(rows)
  {
    if !ValidInput(input) then Failure(InvalidIntent)
    else if !TableAccepts(IntentOf(input)) then Failure(RejectedByTable)
    else if !Taken(rows, IntentOf(input)) then Success(Admission(newId, true))
    else if Holds(rows, IntentOf(input)) then Success(Admission(Existing(rows, IntentOf(input)), false))
    else Failure(IntentConflict)
  }

  predicate Creates(rows: map<Uuid, Row>, input: TaskInput) {
    ValidInput(input) && TableAccepts(IntentOf(input)) && !Taken(rows, IntentOf(input))
  }

  lemma AdmitKnown(rows: map<Uuid, Row>, id: Uuid, input: TaskInput, newId: Uuid)
    requires Unique(rows) && id in rows && ValidInput(input) && IntentOf(input) == rows[id].intent
    requires TableAccepts(IntentOf(input))
    ensures Admit(rows, input, newId) == Success(Admission(id, false)) && !Creates(rows, input)
  {
    assert Clash(rows[id].intent, IntentOf(input));
    var found := Existing(rows, IntentOf(input));
    assert Clash(rows[found].intent, rows[id].intent);
  }

  lemma AdmitConflicting(rows: map<Uuid, Row>, id: Uuid, input: TaskInput, newId: Uuid)
    requires Unique(rows) && id in rows && ValidInput(input) && TableAccepts(IntentOf(input))
    requires Clash(rows[id].intent, IntentOf(input)) && rows[id].intent != IntentOf(input)
    ensures Admit(rows, input, newId) == Failure(IntentConflict) && !Creates(rows, input)
  {
    forall i | i in rows ensures rows[i].intent != IntentOf(input) {
      assert i == id || !Clash(rows[id].intent, rows[i].intent);
    }
  }

  function Plus(rows: map<Uuid, Row>, input: TaskInput, newId: Uuid): map<Uuid, Row>
    requires ValidInput(input)
  {
    rows[newId := NewRow(IntentOf(input))]
  }

  lemma PlusIntent(rows: map<Uuid, Row>, input: TaskInput, newId: Uuid)
    requires ValidInput(input)
    ensures Plus(rows, input, newId)[newId].intent == IntentOf(input)
  {}

  lemma ClashSymmetric(a: Intent, b: Intent)
    ensures Clash(a, b) == Clash(b, a)
  {}

  lemma PlusUnique(rows: map<Uuid, Row>, input: TaskInput, newId: Uuid)
    requires Unique(rows) && ValidInput(input) && !Taken(rows, IntentOf(input))
    ensures Unique(Plus(rows, input, newId))
  {
    var more, intent := Plus(rows, input, newId), IntentOf(input);
    PlusIntent(rows, input, newId);
    forall i, j | i in more && j in more && i != j ensures !Clash(more[i].intent, more[j].intent) {
      if i == newId { ClashSymmetric(rows[j].intent, intent); }
    }
  }

  /** The row states a statement may leave behind. */
  function ClaimedRow(row: Row, token: Uuid, until: int): Row {
    row.(status := Running, attempts := row.attempts + 1, leaseToken := Some(token), leaseUntil := Some(until))
  }

  function CompletedRow(row: Row, at: int): Row {
    row.(status := Completed, leaseToken := None, leaseUntil := None, lastErrorCode := None, completedAt := Some(at))
  }

  function RetriedRow(row: Row, at: int, delayMs: int, code: ErrorCode): Row {
    row.(status := Pending, leaseToken := None, leaseUntil := None, lastErrorCode := Some(code),
         availableAt := Max(row.intent.dueAt, at + delayMs * MILLISECOND))
  }

  function RenewedRow(row: Row, at: int, leaseMs: int): Row
    requires row.leaseUntil.Some?
  {
    row.(leaseUntil := Some(Max(row.leaseUntil.value, at + leaseMs * MILLISECOND)))
  }

  /** A row a worker may take at this instant. */
  predicate Claimable(row: Row, at: int) {
    || (row.status == Pending && row.availableAt <= at)
    || (row.status == Running && row.leaseUntil.Some? && row.leaseUntil.value <= at)
  }

  /** The row is running under this token. */
  predicate OwnedBy(rows: map<Uuid, Row>, lease: Identity) {
    && lease.id in rows
    && rows[lease.id].status == Running
    && rows[lease.id].leaseToken == Some(lease.leaseToken)
    && rows[lease.id].leaseUntil.Some?
  }

  /** The lease predicate every fenced statement carries. */
  predicate LeaseHolds(rows: map<Uuid, Row>, lease: Identity, at: int) {
    OwnedBy(rows, lease) && rows[lease.id].leaseUntil.value > at
  }

  predicate Bounded(value: int, max: int) {
    1 <= value <= max
  }

  predicate ValidKinds(kinds: seq<Kind>) {
    1 <= |kinds| <= KIND_COUNT && forall k :: k in kinds ==> !k.UnknownKind?
  }
}

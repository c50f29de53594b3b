/**
 The outbox_events table: its columns, its CHECK constraints, and the row each SQL statement of
 internal/outbox/store.go writes. Times are database timestamps; `now` is always the statement's own now().
 */
module OutboxSchema {
  import opened Wrappers

  type EventId = nat      // a uuid, ordered as PostgreSQL orders uuids
  type WorkerId = string

  /** The largest value of the integer column failed_attempts. */
  const INT4_MAX := 0x7FFF_FFFF

  const MAX_WORKER_ID := 128

  datatype Status = Pending | Processing | Published | DeadLetter

  datatype PublishOutcome = Success | Failed | Timeout | Canceled {
    /** The text stored in last_failure_reason. */
    function Text(): string {
      match this
      case Success => "success"
      case Failed => "failed"
      case Timeout => "timeout"
      case Canceled => "canceled"
    }
  }

  /** The reward claim a payload describes. */
  datatype Triple = Triple(playerId: string, campaignId: string, rewardId: string)

  datatype Claim = Claim(id: nat, triple: Triple, createdAt: int)

  /** The jsonb payload: the RewardClaimed object, or any value that is not an object. */
  datatype Payload =
    | RewardClaimed(schemaVersion: int, eventId: EventId, occurredAt: int, claim: Claim)
    | NotAnObject

  datatype Row = Row(
    aggregateType: string,
    aggregateId: nat,
    eventType: string,
    payload: Payload,
    status: Status,
    failedAttempts: int,
    availableAt: int,
    lastFailureReason: Option<string>,
    lockedBy: Option<WorkerId>,
    lockedUntil: Option<int>,
    createdAt: int,
    updatedAt: int,
    publishedAt: Option<int>,
    deadLetteredAt: Option<int>)

  /** Every CHECK constraint of outbox_events; the status constraint is the type Status itself. */
  predicate SchemaOk(r: Row) {
    && 1 <= |r.aggregateType| <= 64
    && 1 <= |r.eventType| <= 128
    && r.payload.RewardClaimed?
    && r.failedAttempts >= 0
    && (r.lastFailureReason.Some? ==> r.lastFailureReason.value in {"failed", "timeout", "canceled"})
    && FailureStateOk(r)
    && (r.lockedBy.Some? ==> 1 <= |r.lockedBy.value| <= MAX_WORKER_ID)
    && r.updatedAt >= r.createdAt
    && (r.status == Published <==> r.publishedAt.Some?)
    && (r.status == Processing <==> r.lockedBy.Some?)
    && (r.status == Processing <==> r.lockedUntil.Some?)
    && (r.status == DeadLetter <==> r.deadLetteredAt.Some?)
  }

  predicate FailureStateOk(r: Row) {
    if r.status == DeadLetter then
      r.failedAttempts > 0 && r.lastFailureReason.Some?
    else
      || (r.failedAttempts == 0 && r.lastFailureReason.None?)
      || (r.failedAttempts > 0 && r.lastFailureReason.Some?)
  }

  /** What ClaimNext hands to the worker: a snapshot of the claimed row. */
  datatype Event = Event(
    id: EventId, aggregateType: string, aggregateId: nat, eventType: string, payload: Payload, failedAttempts: int)

  function Snapshot(id: EventId, r: Row): Event {
    Event(id, r.aggregateType, r.aggregateId, r.eventType, r.payload, r.failedAttempts)
  }

  /** The row insertRewardClaimedOutboxEvent writes; all other columns take the table's defaults. */
  function NewRow(id: EventId, claim: Claim, now: int): Row {
    Row("reward_claim", claim.id, "RewardClaimed", RewardClaimed(1, id, claim.createdAt, claim),
        Pending, 0, now, None, None, None, now, now, None, None)
  }

  /** The WHERE clause of ClaimNext. */
  predicate Due(r: Row, now: int) {
    || (r.status == Pending && r.availableAt <= now)
    || (r.status == Processing && r.lockedUntil.Some? && r.lockedUntil.value <= now)
  }

  /** ORDER BY available_at, id. */
  predicate Before(a: Row, i: EventId, b: Row, j: EventId) {
    a.availableAt < b.availableAt || (a.availableAt == b.availableAt && i < j)
  }

  /** The row FOR UPDATE SKIP LOCKED settles on, given the rows other transactions have locked. */
  predicate IsNext(rows: map<EventId, Row>, now: int, skipped: set<EventId>, id: EventId) {
    && id in rows && id !in skipped && Due(rows[id], now)
    && forall other :: other in rows && other != id && other !in skipped && Due(rows[other], now) ==>
                         Before(rows[id], id, rows[other], other)
  }

  predicate NoneDue(rows: map<EventId, Row>, now: int, skipped: set<EventId>) {
    forall id :: id in rows && id !in skipped ==> !Due(rows[id], now)
  }

  function LeaseRow(r: Row, worker: WorkerId, now: int, ttl: int): Row {
    r.(status := Processing, lockedBy := Some(worker), lockedUntil := Some(now + ttl), updatedAt := now)
  }

  /** The WHERE clause shared by the three finalizing statements. */
  predicate Fenced(r: Row, worker: WorkerId) {
    r.status == Processing && r.lockedBy == Some(worker)
  }

  /** The three finalizing statements with their arguments. */
  datatype Op =
    | ToPublished
    | ToRetry(delay: int, outcome: PublishOutcome)
    | ToDeadLetter(outcome: PublishOutcome)

  /** failed_attempts + 1 leaves the integer column's range, so the statement raises an error. */
  predicate Overflows(r: Row, op: Op) {
    !op.ToPublished? && r.failedAttempts >= INT4_MAX
  }

  function FinalRow(r: Row, op: Op, now: int): Row {
    match op
    case ToPublished =>
      r.(status := Published, publishedAt := Some(now), lockedBy := None, lockedUntil := None, updatedAt := now)
    case ToRetry(delay, outcome) =>
      r.(status := Pending, failedAttempts := r.failedAttempts + 1, availableAt := now + delay,
         lockedBy := None, lockedUntil := None, lastFailureReason := Some(outcome.Text()), updatedAt := now)
    case ToDeadLetter(outcome) =>
      r.(status := DeadLetter, failedAttempts := r.failedAttempts + 1, deadLetteredAt := Some(now),
         lockedBy := None, lockedUntil := None, lastFailureReason := Some(outcome.Text()), updatedAt := now)
  }

  predicate Terminal(r: Row) {
    r.status == Published || r.status == DeadLetter
  }

  /** Some due, unlocked row is next whenever there is one: the ordering is total. */
  lemma {:induction false} NextExists(rows: map<EventId, Row>, now: int, skipped: set<EventId>) returns (id: EventId)
    requires !NoneDue(rows, now, skipped)
    ensures IsNext(rows, now, skipped, id)
  {
    var first :| first in rows && first !in skipped && Due(rows[first], now);
    id := EarliestFrom(rows, now, skipped, first, rows.Keys - {first});
  }

  /** The earliest of the best row so far and the rows still to be looked at. */
  lemma {:induction false} EarliestFrom(
      rows: map<EventId, Row>, now: int, skipped: set<EventId>, best: EventId, rest: set<EventId>)
    returns (id: EventId)
    requires best in rows && best !in skipped && Due(rows[best], now)
    requires rest <= rows.Keys
    requires forall other :: (other in rows && other !in rest && other != best && other !in skipped
                              && Due(rows[other], now)) ==> Before(rows[best], best, rows[other], other)
    ensures IsNext(rows, now, skipped, id)
    decreases rest
  {
    if rest == {} {
      id := best;
    } else {
      var other :| other in rest;
      if other != best && other !in skipped && Due(rows[other], now) && Before(rows[other], other, rows[best], best) {
        id := EarliestFrom(rows, now, skipped, other, rest - {other});
      } else {
        id := EarliestFrom(rows, now, skipped, best, rest - {other});
      }
    }
  }
}

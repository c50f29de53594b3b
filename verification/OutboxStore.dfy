/**
 internal/outbox/store.go against a database that other workers, API transactions, retention and the clock use at the
 same time. The fields hold the state of OutboxProtocol; the methods are the store's statements. What the scheduler
 and the network do is an input: every call is told which foreign steps happen around it and how it is answered.
 */
module OutboxStore {
  import opened Wrappers
  import opened OutboxSchema
  import opened OutboxProtocol
  import OutboxInvariant
  import Failures

  /** How a call ends for its caller: answered, answer lost after the statement ran, or statement never run. */
  datatype Fate =
    | Answered
    | AnswerLost(query: Failures.QueryCtx, driver: Failures.Err)
    | NeverRun(query: Failures.QueryCtx, driver: Failures.Err)

  /** What surrounds one call: foreign steps before the statement runs and after, its now(), and rows locked by others. */
  datatype CallTurn = CallTurn(
    before: seq<Label>, after: seq<Label>, now: int, skipped: set<EventId>, fate: Fate)

  /** The protocol steps of one ClaimNext call. */
  predicate ClaimSteps(w: WorkerId, turn: CallTurn, event: Option<Event>, own: seq<Label>) {
    && |own| >= 2 && own[0] == ClaimIssue(w)
    && if turn.fate.NeverRun? then event.None? && own == [ClaimIssue(w), ClaimLost(w)]
       else
         && own[1].ClaimApply? && own[1].worker == w && own[1].skipped == turn.skipped
         && if own[1].picked.None? then event.None? && |own| == 2
            else
              && |own| == 3
              && own[2] == (if turn.fate.Answered? then ClaimReply(w) else ClaimLost(w))
              && (if turn.fate.Answered? then event.Some? && event.value.id == own[1].picked.value else event.None?)
  }

  /** The last step of a finalizing call: the statement that ran, or its failure. */
  predicate FinalStep(w: WorkerId, turn: CallTurn, reply: Failures.Reply, last: Label, maxFailures: int) {
    && (last == FinalizeFail(w) || (last.FinalizeApply? && last.worker == w))
    && (turn.fate.NeverRun? ==> last == FinalizeFail(w))
    && (!reply.Broken? ==> last.FinalizeApply?)
    && (turn.fate.Answered? && reply.Broken? ==> last == FinalizeFail(w))
    && (turn.fate.AnswerLost? && maxFailures <= 2147483647 ==> last.FinalizeApply?)
  }

  /** The protocol steps of one finalizing call. */
  predicate FinalSteps(w: WorkerId, outcome: PublishOutcome, turn: CallTurn, reply: Failures.Reply, own: seq<Label>,
                       maxFailures: int) {
    |own| == 2 && own[0] == PublishReturn(w, outcome) && FinalStep(w, turn, reply, own[1], maxFailures)
  }

  /** What the WHERE clause of the claiming statement says of a row. */
  predicate MayClaim(r: Row, now: int) {
    || (r.status == Pending && r.availableAt <= now)
    || (r.status == Processing && r.lockedUntil.Some? && r.lockedUntil.value <= now)
  }

  /** What the WHERE clauses of the finalizing statements say of a row. */
  predicate IsLeasedTo(r: Row, worker: WorkerId) {
    r.status == Processing && r.lockedBy == Some(worker)
  }

  /** The stored name of an outcome. */
  function Reason(outcome: PublishOutcome): string {
    if outcome == Failed then "failed" else if outcome == Timeout then "timeout"
    else if outcome == PublishOutcome.Canceled then "canceled" else "success"
  }

  class Database {
    const cfg: Settings
    var clock: int
    var rows: map<EventId, Row>
    var gone: map<EventId, Row>
    var workers: map<WorkerId, Phase>
    var crashed: set<WorkerId>
    var claims: map<EventId, seq<ClaimRecord>>
    var calls: seq<Event>
    var answers: set<Return>
    var finals: seq<Final>

    function State(): Sys
      reads this
    {
      Sys(clock, rows, gone, workers, crashed, claims, calls, answers, finals)
    }

    constructor (cfg: Settings)
      ensures this.cfg == cfg && State() == START
    {
      this.cfg := cfg;
      clock, rows, gone, workers, crashed, claims, calls, answers, finals :=
        0, map[], map[], map[], {}, map[], [], {}, [];
    }

    /** One step of the protocol. */
    method Take(l: Label)
      requires Enabled(State(), l)
      modifies this
      ensures State() == Apply(cfg, old(State()), l)
    {
      var s := Apply(cfg, State(), l);
      clock, rows, gone, workers, crashed := s.clock, s.rows, s.gone, s.workers, s.crashed;
      claims, calls, answers, finals := s.claims, s.calls, s.answers, s.finals;
    }

    /** The foreign steps of a schedule, each where it is possible and not a step of worker w. */
    method Others(schedule: seq<Label>, w: WorkerId)
      requires Alive(State(), w)
      modifies this
      ensures Did(cfg, old(State()), State(), w, [])
      ensures Alive(State(), w) && workers[w] == old(workers[w]) && clock >= old(clock)
      ensures (forall i :: 0 <= i < |schedule| ==> !schedule[i].ByWorker(w)) ==>
                forall t :: Runs(cfg, old(State()), schedule, t) ==> State() == t
    {
      DidNothing(cfg, State(), w);
      assert schedule[0..] == schedule;
      for i := 0 to |schedule|
        invariant Did(cfg, old(State()), State(), w, [])
        invariant Alive(State(), w) && workers[w] == old(workers[w]) && clock >= old(clock)
        invariant (forall j :: 0 <= j < |schedule| ==> !schedule[j].ByWorker(w)) ==>
                    forall t :: Runs(cfg, old(State()), schedule, t) ==> Runs(cfg, State(), schedule[i..], t)
      {
        assert schedule[i..][0] == schedule[i] && schedule[i..][1..] == schedule[i + 1..];
        if Enabled(State(), schedule[i]) && !schedule[i].ByWorker(w) {
          OthersKeepPhase(cfg, State(), schedule[i], w);
          DidStep(cfg, State(), schedule[i], w);
          ghost var s := State();
          Take(schedule[i]);
          DidTrans(cfg, old(State()), s, State(), w, [], []);
        }
      }
    }

    // ---- the statements on the table -------------------------------------------------------------------

    /** The claiming statement: the first due row that nobody has locked is leased from the statement's now(). */
    method ExecClaim(worker: WorkerId, lockTTL: int, now: int, skipped: set<EventId>) returns (event: Option<Event>)
      modifies this`rows
      ensures event.None? ==>
                (forall o :: o in old(rows) && o !in skipped ==> !MayClaim(old(rows)[o], now)) && rows == old(rows)
      ensures event.Some? ==>
                event.value.id in old(rows) && event.value.id !in skipped && MayClaim(old(rows)[event.value.id], now)
      ensures event.Some? ==>
                forall o :: o in old(rows) && o != event.value.id && o !in skipped && MayClaim(old(rows)[o], now) ==>
                              || old(rows)[event.value.id].availableAt < old(rows)[o].availableAt
                              || (old(rows)[event.value.id].availableAt == old(rows)[o].availableAt && event.value.id < o)
      ensures event.Some? ==>
                var r := old(rows)[event.value.id];
                && event.value == Event(event.value.id, r.aggregateType, r.aggregateId, r.eventType, r.payload, r.failedAttempts)
                && rows == old(rows)[event.value.id := r.(status := Processing, lockedBy := Some(worker),
                                                          lockedUntil := Some(now + lockTTL), updatedAt := now)]
    {
      if NoneDue(rows, now, skipped) {
        return None;
      }
      ghost var first := NextExists(rows, now, skipped);
      var id :| id in rows && IsNext(rows, now, skipped, id);
      assert IsNext(rows, now, skipped, id);
      var r := rows[id];
      event := Some(Event(id, r.aggregateType, r.aggregateId, r.eventType, r.payload, r.failedAttempts));
      rows := rows[id := r.(status := Processing, lockedBy := Some(worker), lockedUntil := Some(now + lockTTL),
                            updatedAt := now)];
    }

    /** The publishing statement: one row when the fence lets it through, and otherwise none. */
    method ExecMarkPublished(worker: WorkerId, id: EventId, now: int) returns (affected: nat)
      modifies this`rows
      ensures affected == if id in old(rows) && IsLeasedTo(old(rows)[id], worker) then 1 else 0
      ensures affected == 1 ==>
                rows == old(rows)[id := old(rows)[id].(
                  status := Published, publishedAt := Some(now), lockedBy := None, lockedUntil := None, updatedAt := now)]
      ensures affected != 1 ==> rows == old(rows)
    {
      if id in rows && Fenced(rows[id], worker) {
        var r := rows[id];
        rows := rows[id := r.(status := Published, publishedAt := Some(now), lockedBy := None, lockedUntil := None,
                              updatedAt := now)];
        return 1;
      }
      return 0;
    }

    /** The retrying statement; failed_attempts + 1 must stay in the column's range. */
    method ExecScheduleRetry(worker: WorkerId, id: EventId, delay: int, outcome: PublishOutcome, now: int)
      returns (affected: nat)
      requires id in rows && Fenced(rows[id], worker) ==> rows[id].failedAttempts < INT4_MAX
      modifies this`rows
      ensures affected == if id in old(rows) && IsLeasedTo(old(rows)[id], worker) then 1 else 0
      ensures affected == 1 ==>
                rows == old(rows)[id := old(rows)[id].(
                  status := Pending, failedAttempts := old(rows)[id].failedAttempts + 1, availableAt := now + delay,
                  lockedBy := None, lockedUntil := None, lastFailureReason := Some(Reason(outcome)), updatedAt := now)]
      ensures affected != 1 ==> rows == old(rows)
    {
      if id in rows && Fenced(rows[id], worker) {
        var r := rows[id];
        rows := rows[id := r.(status := Pending, failedAttempts := r.failedAttempts + 1, availableAt := now + delay,
                              lockedBy := None, lockedUntil := None, lastFailureReason := Some(outcome.Text()),
                              updatedAt := now)];
        return 1;
      }
      return 0;
    }

    /** The dead-lettering statement. */
    method ExecMarkDeadLetter(worker: WorkerId, id: EventId, outcome: PublishOutcome, now: int) returns (affected: nat)
      requires id in rows && Fenced(rows[id], worker) ==> rows[id].failedAttempts < INT4_MAX
      modifies this`rows
      ensures affected == if id in old(rows) && IsLeasedTo(old(rows)[id], worker) then 1 else 0
      ensures affected == 1 ==>
                rows == old(rows)[id := old(rows)[id].(
                  status := DeadLetter, failedAttempts := old(rows)[id].failedAttempts + 1, deadLetteredAt := Some(now),
                  lockedBy := None, lockedUntil := None, lastFailureReason := Some(Reason(outcome)), updatedAt := now)]
      ensures affected != 1 ==> rows == old(rows)
    {
      if id in rows && Fenced(rows[id], worker) {
        var r := rows[id];
        rows := rows[id := r.(status := DeadLetter, failedAttempts := r.failedAttempts + 1, deadLetteredAt := Some(now),
                              lockedBy := None, lockedUntil := None, lastFailureReason := Some(outcome.Text()),
                              updatedAt := now)];
        return 1;
      }
      return 0;
    }

    // ---- the calls of the store ------------------------------------------------------------------------

    /** The statement's own now(): the scheduler's choice between the call and the moment the statement runs. */
    function StatementTime(issued: int, now: int): (time: int)
      reads this
      ensures issued <= now <= clock ==> time == now
      ensures issued <= clock ==> issued <= time <= clock
    {
      if now < issued then issued else if now > clock then clock else now
    }

    /** ClaimNext. An answered claim leaves the worker publishing under its lease; every other end leaves it idle. */
    method ClaimNext(worker: WorkerId, turn: CallTurn)
      returns (event: Option<Event>, reply: Failures.Reply, ghost own: seq<Label>)
      requires Alive(State(), worker) && workers[worker].Idle?
      modifies this
      ensures Did(cfg, old(State()), State(), worker, own) && ClaimSteps(worker, turn, event, own)
      ensures Alive(State(), worker) && !reply.LostLease?
      ensures event.Some? ==>
                && reply.Done? && workers[worker].Publishing?
                && workers[worker].lease.snapshot == event.value
                && calls != [] && calls[|calls| - 1] == event.value
      ensures event.None? ==> workers[worker].Idle?
      ensures reply.Done? <==> turn.fate.Answered?
      ensures reply.Broken? ==> reply.query == turn.fate.query && reply.driver == turn.fate.driver
    {
      event := None;
      ghost var now;
      IssueClaim(worker, turn.before);
      own := [ClaimIssue(worker)];
      ghost var s := State();
      if turn.fate.NeverRun? {
        Step(worker, ClaimLost(worker));
        own := own + [ClaimLost(worker)];
        DidTrans(cfg, old(State()), s, State(), worker, [ClaimIssue(worker)], [ClaimLost(worker)]);
        return None, Failures.Broken(turn.fate.query, turn.fate.driver), own;
      }
      event, now := RunClaim(worker, turn);
      ghost var ran := ClaimApply(worker, now, turn.skipped, if event.Some? then Some(event.value.id) else None);
      DidTrans(cfg, old(State()), s, State(), worker, own, [ran]);
      own := own + [ran];
      if event.Some? {
        s := State();
        var last := if turn.fate.Answered? then ClaimReply(worker) else ClaimLost(worker);
        Step(worker, last);
        DidTrans(cfg, old(State()), s, State(), worker, own, [last]);
        own := own + [last];
      }
      if turn.fate.AnswerLost? {
        return None, Failures.Broken(turn.fate.query, turn.fate.driver), own;
      }
      reply := Failures.Done;
    }

    /** A step of the worker itself. */
    method Step(worker: WorkerId, l: Label)
      requires Alive(State(), worker) && l.ByWorker(worker) && Enabled(State(), l) && !l.Crash?
      modifies this
      ensures State() == Apply(cfg, old(State()), l) && Did(cfg, old(State()), State(), worker, [l])
      ensures Alive(State(), worker)
    {
      DidStep(cfg, State(), l, worker);
      Take(l);
    }

    /** The claim is on its way; foreign steps happen before it runs. */
    method IssueClaim(worker: WorkerId, schedule: seq<Label>)
      requires Alive(State(), worker) && workers[worker].Idle?
      modifies this
      ensures Did(cfg, old(State()), State(), worker, [ClaimIssue(worker)])
      ensures Alive(State(), worker) && workers[worker].Claiming? && workers[worker].issued <= clock
    {
      Step(worker, ClaimIssue(worker));
      ghost var s := State();
      Others(schedule, worker);
      DidTrans(cfg, old(State()), s, State(), worker, [ClaimIssue(worker)], []);
      assert [ClaimIssue(worker)] + [] == [ClaimIssue(worker)];
    }

    /** The claiming statement runs, and foreign steps follow before the answer arrives. */
    method RunClaim(worker: WorkerId, turn: CallTurn) returns (event: Option<Event>, ghost now: int)
      requires Alive(State(), worker) && workers[worker].Claiming? && workers[worker].issued <= clock
      modifies this
      ensures Did(cfg, old(State()), State(), worker,
                  [ClaimApply(worker, now, turn.skipped, if event.Some? then Some(event.value.id) else None)])
      ensures Alive(State(), worker)
      ensures event.None? ==> workers[worker].Idle?
      ensures event.Some? ==>
                && workers[worker].Claimed? && workers[worker].lease.snapshot == event.value
    {
      var time := StatementTime(workers[worker].issued, turn.now);
      now := time;
      event := ApplyClaimStatement(worker, time, turn.skipped);
      ghost var s := State();
      ghost var l := ClaimApply(worker, now, turn.skipped, if event.Some? then Some(event.value.id) else None);
      DidStep(cfg, old(State()), l, worker);
      Others(turn.after, worker);
      DidTrans(cfg, old(State()), s, State(), worker, [l], []);
      assert [l] + [] == [l];
    }

    /** The table changes, and the history notes whose claim it was. */
    method ApplyClaimStatement(worker: WorkerId, now: int, skipped: set<EventId>) returns (event: Option<Event>)
      requires worker in workers && workers[worker].Claiming? && workers[worker].issued <= now <= clock
      modifies this
      ensures var l := ClaimApply(worker, now, skipped, if event.Some? then Some(event.value.id) else None);
              Enabled(old(State()), l) && State() == Apply(cfg, old(State()), l)
      ensures event.Some? ==> event.value == Snapshot(event.value.id, old(rows)[event.value.id])
    {
      event := ExecClaim(worker, cfg.lockTTL, now, skipped);
      if event.None? {
        workers := workers[worker := Idle];
      } else {
        var e := event.value.id;
        var history := if e in claims then claims[e] else [];
        var lease := Lease(event.value, |history| + 1, workers[worker].issued, now);
        claims := claims[e := history + [ClaimRecord(worker, now)]];
        workers := workers[worker := Claimed(lease)];
      }
    }

    /** A call of the publisher: foreign steps happen meanwhile. */
    method Publish(worker: WorkerId, schedule: seq<Label>)
      requires Alive(State(), worker) && workers[worker].Publishing?
      modifies this
      ensures Did(cfg, old(State()), State(), worker, [])
      ensures Alive(State(), worker) && workers[worker] == old(workers[worker])
    {
      Others(schedule, worker);
    }

    method MarkPublished(worker: WorkerId, turn: CallTurn) returns (reply: Failures.Reply, ghost own: seq<Label>)
      requires CanFinalize(worker)
      modifies this
      ensures Did(cfg, old(State()), State(), worker, own) && FinalSteps(worker, Success, turn, reply, own, cfg.maxFailures)
      ensures Alive(State(), worker) && workers[worker].Idle?
      ensures ReplyMatches(reply, turn, worker, old(workers[worker]).lease, ToPublished)
    {
      reply, own := Finalize(worker, Success, ToPublished, turn);
    }

    method ScheduleRetry(worker: WorkerId, delay: int, outcome: PublishOutcome, turn: CallTurn)
      returns (reply: Failures.Reply, ghost own: seq<Label>)
      requires CanFinalize(worker)
      requires cfg.Decide(workers[worker].lease.snapshot.failedAttempts, outcome) == ToRetry(delay, outcome)
      modifies this
      ensures Did(cfg, old(State()), State(), worker, own) && FinalSteps(worker, outcome, turn, reply, own, cfg.maxFailures)
      ensures Alive(State(), worker) && workers[worker].Idle?
      ensures ReplyMatches(reply, turn, worker, old(workers[worker]).lease, ToRetry(delay, outcome))
    {
      reply, own := Finalize(worker, outcome, ToRetry(delay, outcome), turn);
    }

    method MarkDeadLetter(worker: WorkerId, outcome: PublishOutcome, turn: CallTurn)
      returns (reply: Failures.Reply, ghost own: seq<Label>)
      requires CanFinalize(worker)
      requires cfg.Decide(workers[worker].lease.snapshot.failedAttempts, outcome) == ToDeadLetter(outcome)
      modifies this
      ensures Did(cfg, old(State()), State(), worker, own) && FinalSteps(worker, outcome, turn, reply, own, cfg.maxFailures)
      ensures Alive(State(), worker) && workers[worker].Idle?
      ensures ReplyMatches(reply, turn, worker, old(workers[worker]).lease, ToDeadLetter(outcome))
    {
      reply, own := Finalize(worker, outcome, ToDeadLetter(outcome), turn);
    }

    /** A worker whose publish call has returned, in a state that some run of the protocol reaches. */
    ghost predicate CanFinalize(worker: WorkerId)
      reads this
    {
      cfg.Valid() && Reachable(cfg, State()) && Alive(State(), worker) && workers[worker].Publishing?
    }

    /** Done means that the statement just changed its row, LostLease that it ran and changed none. */
    ghost predicate ReplyMatches(reply: Failures.Reply, turn: CallTurn, worker: WorkerId, lease: Lease, op: Op)
      reads this
    {
      match reply
      case Broken(query, driver) =>
        if turn.fate.Answered? then
          cfg.maxFailures > 2147483647 && !op.ToPublished? && query == Failures.Running && driver == Failures.PgError("22003")
        else query == turn.fate.query && driver == turn.fate.driver
      case _ =>
        && turn.fate.Answered? && finals != []
        && var f := finals[|finals| - 1];
           f.event == lease.snapshot.id && f.number == lease.number && f.worker == worker && f.op == op
           && (f.affected <==> reply.Done?)
    }

    /** The statement is on its way; foreign steps happen before it runs. */
    method IssueFinal(worker: WorkerId, outcome: PublishOutcome, schedule: seq<Label>)
      requires CanFinalize(worker)
      modifies this
      ensures Did(cfg, old(State()), State(), worker, [PublishReturn(worker, outcome)])
      ensures Reachable(cfg, State())
      ensures Alive(State(), worker) && workers[worker].Finalizing? && workers[worker].issued <= clock
      ensures workers[worker].lease == old(workers[worker]).lease
      ensures workers[worker].op == cfg.Decide(old(workers[worker]).lease.snapshot.failedAttempts, outcome)
    {
      Step(worker, PublishReturn(worker, outcome));
      ghost var s := State();
      Others(schedule, worker);
      DidTrans(cfg, old(State()), s, State(), worker, [PublishReturn(worker, outcome)], []);
      assert [PublishReturn(worker, outcome)] + [] == [PublishReturn(worker, outcome)];
      DidReaches(cfg, old(State()), State(), worker, [PublishReturn(worker, outcome)]);
      ReachesTrans(cfg, START, old(State()), State());
    }

    /** What the three calls share. */
    method Finalize(worker: WorkerId, outcome: PublishOutcome, op: Op, turn: CallTurn)
      returns (reply: Failures.Reply, ghost own: seq<Label>)
      requires CanFinalize(worker)
      requires op == cfg.Decide(workers[worker].lease.snapshot.failedAttempts, outcome)
      modifies this
      ensures Did(cfg, old(State()), State(), worker, own) && FinalSteps(worker, outcome, turn, reply, own, cfg.maxFailures)
      ensures Alive(State(), worker) && workers[worker].Idle?
      ensures ReplyMatches(reply, turn, worker, old(workers[worker]).lease, op)
    {
      IssueFinal(worker, outcome, turn.before);
      ghost var s := State();
      ghost var last;
      reply, last := RunIssued(worker, op, turn);
      own := [PublishReturn(worker, outcome), last];
      DidTrans(cfg, old(State()), s, State(), worker, [PublishReturn(worker, outcome)], [last]);
      assert [PublishReturn(worker, outcome)] + [last] == own;
    }

    /**
     An issued statement runs or does not, and is answered or is not; numeric_value_out_of_range (22003) is the error
     of an overflowing counter.
     */
    method RunIssued(worker: WorkerId, op: Op, turn: CallTurn) returns (reply: Failures.Reply, ghost last: Label)
      requires cfg.Valid() && Reachable(cfg, State())
      requires Alive(State(), worker) && workers[worker].Finalizing? && workers[worker].op == op
      requires workers[worker].issued <= clock
      modifies this
      ensures Did(cfg, old(State()), State(), worker, [last]) && FinalStep(worker, turn, reply, last, cfg.maxFailures)
      ensures Alive(State(), worker) && workers[worker].Idle?
      ensures ReplyMatches(reply, turn, worker, old(workers[worker]).lease, op)
    {
      var lease := workers[worker].lease;
      var overflows := Hits(State(), worker, lease.snapshot.id) && Overflows(rows[lease.snapshot.id], op);
      if turn.fate.NeverRun? || overflows {
        if cfg.maxFailures <= INT4_MAX && overflows {
          OutboxInvariant.ReachableInv(cfg, State());
          OutboxInvariant.NoOverflow(cfg, State(), worker);
        }
        last := FinalizeFail(worker);
        Step(worker, FinalizeFail(worker));
        reply := if turn.fate.Answered? then Failures.Broken(Failures.Running, Failures.PgError("22003"))
                 else Failures.Broken(turn.fate.query, turn.fate.driver);
        return;
      }
      var now := StatementTime(workers[worker].issued, turn.now);
      last := FinalizeApply(worker, now);
      var affected := ApplyFinalStatement(worker, op, now);
      if turn.fate.AnswerLost? {
        reply := Failures.Broken(turn.fate.query, turn.fate.driver);
      } else {
        reply := if affected == 1 then Failures.Done else Failures.LostLease;
      }
    }

    /** The finalizing statement of an operation. */
    method ExecFinal(worker: WorkerId, id: EventId, op: Op, now: int) returns (affected: nat)
      requires !(Hits(State(), worker, id) && Overflows(rows[id], op))
      modifies this`rows
      ensures affected == if Hits(old(State()), worker, id) then 1 else 0
      ensures rows == if affected == 1 then old(rows)[id := FinalRow(old(rows)[id], op, now)] else old(rows)
    {
      match op {
        case ToPublished => affected := ExecMarkPublished(worker, id, now);
        case ToRetry(delay, outcome) => affected := ExecScheduleRetry(worker, id, delay, outcome, now);
        case ToDeadLetter(outcome) => affected := ExecMarkDeadLetter(worker, id, outcome, now);
      }
    }

    /** The table changes; the history notes which claim the statement was issued for, which it does not know itself. */
    method ApplyFinalStatement(worker: WorkerId, op: Op, now: int) returns (affected: nat)
      requires worker in workers && workers[worker].Finalizing? && workers[worker].op == op
      requires Enabled(State(), FinalizeApply(worker, now))
      modifies this
      ensures State() == Apply(cfg, old(State()), FinalizeApply(worker, now))
      ensures Did(cfg, old(State()), State(), worker, [FinalizeApply(worker, now)])
      ensures affected == 1 <==> finals[|old(finals)|].affected
      ensures crashed == old(crashed) && worker in workers && workers[worker].Idle?
    {
      DidStep(cfg, State(), FinalizeApply(worker, now), worker);
      var lease := workers[worker].lease;
      affected := ExecFinal(worker, lease.snapshot.id, op, now);
      workers := workers[worker := Idle];
      finals := finals + [Final(lease.snapshot.id, lease.number, worker, op, now, affected == 1)];
    }
  }
}

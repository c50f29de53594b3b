/**
 internal/rewards/postgres.go: createClaim as the procedure it is, a reservation loop and a sequence of statements in
 one transaction, against tables that other requests and retention use at the same time. What the scheduler, the
 network and the uuid generator do is an input: one turn for every call to the database.
 */
module ClaimService {
  import opened Wrappers
  import opened OutboxSchema
  import opened ClaimLedger
  import opened ClaimProtocol
  import opened ClaimInvariant
  import Failures

  /** A driver's error, and the state of the query's context when it came. */
  datatype DriverFailure = DriverFailure(query: Failures.QueryCtx, error: Failures.Err)

  /** What a failure tells the caller of the driver's error and of the context: mapPostgresError, seen from outside. */
  predicate Tells(failure: Failure, f: DriverFailure) {
    var ended := f.query.EndedWithCaller? && Failures.Is(f.error, f.query.err.AsSentinel());
    var noRows := Failures.Is(f.error, Failures.NoRows);
    && (failure == CallerEnded <==> !noRows && ended)
    && (failure == Unavailable <==>
          && !noRows && !ended
          && (Failures.IsUnavailable(f.error) || (f.query.TimedOut? && Failures.Is(f.error, Failures.DeadlineExceeded))))
  }

  /** mapPostgresError, and what errors.Is finds in the result. */
  method MapError(f: DriverFailure) returns (failure: Failure)
    ensures Tells(failure, f)
  {
    var mapped := Failures.MapPostgresError(f.query, f.error);
    Failures.MappedShape(f.query, f.error);
    Failures.SentinelInside(Failures.Unavailable, Failures.ClaimOperation);
    Failures.SentinelInside(Failures.Internal, Failures.ClaimOperation);
    failure := if Failures.Is(mapped, Failures.Unavailable) then Unavailable
               else if Failures.Is(mapped, Failures.Internal) then Internal
               else CallerEnded;
  }

  /** A call that ends with the query's own deadline. */
  method MapDeadline() returns (failure: Failure)
    ensures failure == Unavailable
  {
    failure := MapError(DriverFailure(Failures.TimedOut, Failures.Leaf(Failures.DeadlineExceeded)));
  }

  /** A unique_violation (23505) of a primary key. */
  method MapViolation() returns (failure: Failure)
    ensures failure == Internal
  {
    failure := MapError(DriverFailure(Failures.Running, Failures.PgError("23505")));
  }

  /**
   What surrounds one call: foreign steps before it runs, whether it fails (a failing commit may still have been
   applied), and the uuid drawn for it.
   */
  datatype Turn = Turn(before: seq<Label>, failure: Option<DriverFailure>, applied: bool, uuid: nat)

  /** Why a request was not answered. */
  datatype Trouble =
    | NoTrouble
    | DriverFailed(turn: nat)
    | CommitFailed(turn: nat, replay: bool)
    | OutOfTime
    | StillWaiting(turn: nat, at: World)
    | UuidCollided(turn: nat, at: World)

  /** The statements a request has run since the last turn of its loop, at most. */
  function Position(pc: Pc): nat {
    match pc
    case Reserving => 0
    case Loading => 1
    case Replaying(_) => 2
    case Inserting => 1
    case Announcing(_) => 2
    case Completing(_) => 3
    case CompletingDuplicate => 2
    case Committing(_) => 4
    case Aborting(_) => 4
    case Done(_) => 5
  }

  /**
   The state a trouble names is one the request went through, and the trouble is real there. Time is short only when
   there are fewer turns than two for each turn of the loop and five to finish.
   */
  ghost predicate TroubleOk(codec: Codec, from: World, r: nat, q: Request, turns: seq<Turn>, t: Trouble) {
    var params := q.params;
    match t
    case NoTrouble => true
    case DriverFailed(i) => FirstFailure(turns, i)
    case CommitFailed(i, replay) => FirstFailure(turns, i)
    case OutOfTime => |turns| <= 2 * q.misses + 4
    case StillWaiting(i, at) =>
      NoFailure(turns, i + 1) && Reaches(codec, from, at) && (KeyHeld(at, r, params.key) || TripleHeld(at, r, params.triple))
    case UuidCollided(i, at) =>
      NoFailure(turns, i + 1) && Reaches(codec, from, at) && (ClaimIdUsed(at, turns[i].uuid) || EventIdUsed(at, turns[i].uuid))
  }

  /** None of the first n calls fails. */
  predicate NoFailure(turns: seq<Turn>, n: nat) {
    n <= |turns| && forall i :: 0 <= i < n ==> turns[i].failure.None?
  }

  predicate FirstFailure(turns: seq<Turn>, n: nat) {
    NoFailure(turns, n) && n < |turns| && turns[n].failure.Some?
  }

  /**
   The caller is told what the driver's failure tells, that a wait or a call that ran out of time is unavailable, and
   that a collision is internal.
   */
  predicate Reports(turns: seq<Turn>, t: Trouble, outcome: Outcome) {
    && (outcome.Errored? <==> t != NoTrouble)
    && (t.DriverFailed? || t.CommitFailed? ==>
          t.turn < |turns| && turns[t.turn].failure.Some? && Tells(outcome.failure, turns[t.turn].failure.value))
    && (t.OutOfTime? || t.StillWaiting? ==> outcome.failure == Unavailable)
    && (t.UuidCollided? ==> outcome.failure == Internal)
  }

  /** Whether a failed request has an effect: only where its commit failed, and there exactly if it was applied. */
  predicate EffectFits(turns: seq<Turn>, t: Trouble, q: Request) {
    && (t.DriverFailed? ==> q.served.None?)
    && (t.CommitFailed? && t.turn < |turns| ==> (q.served.Some? <==> t.replay || turns[t.turn].applied))
  }

  /** A request's own step keeps what it was asked, and counts as one statement. */
  lemma OwnStep(codec: Codec, w: World, l: Label, r: nat)
    requires Enabled(w, l) && l.ByRequest(r) && r in w.requests
    ensures var v := Apply(codec, w, l);
            && r in v.requests && v.requests[r].params == w.requests[r].params
            && v.requests[r].forgottenAtStart == w.requests[r].forgottenAtStart && v.requests[r].now == w.requests[r].now
            && v.requests[r].misses >= w.requests[r].misses
            && (!l.Break? && !l.Rollback? ==>
                  2 * v.requests[r].misses + Position(v.requests[r].pc) > 2 * w.requests[r].misses + Position(w.requests[r].pc))
  {
  }

  /** What tryLoadIdempotentClaimResult makes of a row it found. */
  datatype Judged = Replay(answer: Answer) | OtherRequest | BrokenRow

  /** Its checks, in the order of the code: a complete response, the same request, a known status, a valid body. */
  method Judge(codec: Codec, row: KeyRow, triple: Triple) returns (judged: Judged)
    ensures judged.BrokenRow? <==>
            || row.status.None? || row.body.None? || row.body.value == []
            || (row.triple == triple && (row.status.value !in {201, 409} || !codec.wellFormed(row.body.value)))
    ensures judged.OtherRequest? ==> row.triple != triple
    ensures judged.Replay? ==>
              && row.triple == triple && judged.answer.Answer? && judged.answer.replayed
              && row.status == Some(judged.answer.status) && row.body == Some(judged.answer.body)
  {
    if row.status.None? || row.body.None? || row.body.value == [] {
      return BrokenRow;
    }
    if row.triple != triple {
      return OtherRequest;
    }
    if row.status.value != CREATED && row.status.value != CONFLICT {
      return BrokenRow;
    }
    if !codec.wellFormed(row.body.value) {
      return BrokenRow;
    }
    return Replay(Answer(row.status.value, row.body.value, true));
  }

  class Database {
    const codec: Codec
    var keys: map<KeyHash, KeyRow>
    var claims: map<nat, Claim>
    var events: map<EventId, Row>
    var requests: map<nat, Request>
    var log: seq<Entry>

    function State(): World
      reads this
    {
      World(Ledger(keys, claims, events), requests, log)
    }

    constructor (codec: Codec)
      ensures this.codec == codec && State() == START
    {
      this.codec := codec;
      keys, claims, events, requests, log := map[], map[], map[], map[], [];
    }

    /** One step of the protocol. */
    method Take(l: Label)
      requires Enabled(State(), l)
      modifies this
      ensures State() == Apply(codec, old(State()), l)
      ensures Reaches(codec, old(State()), State())
    {
      ReachesStep(codec, State(), l);
      var w := Apply(codec, State(), l);
      keys, claims, events, requests, log := w.db.keys, w.db.claims, w.db.events, w.requests, w.log;
    }

    /** The foreign steps of a schedule, each where it is possible. */
    method Others(schedule: seq<Label>, r: nat)
      requires r in requests
      modifies this
      ensures Reaches(codec, old(State()), State())
      ensures r in requests && requests[r] == old(requests[r])
      ensures (forall i :: 0 <= i < |schedule| ==> !schedule[i].ByRequest(r)) ==>
                forall w :: Runs(codec, old(State()), schedule, w) ==> State() == w
    {
      ReachesSelf(codec, State());
      assert schedule[0..] == schedule;
      for i := 0 to |schedule|
        invariant Reaches(codec, old(State()), State())
        invariant r in requests && requests[r] == old(requests[r])
        invariant (forall j :: 0 <= j < |schedule| ==> !schedule[j].ByRequest(r)) ==>
                    forall w :: Runs(codec, old(State()), schedule, w) ==> Runs(codec, State(), schedule[i..], w)
      {
        assert schedule[i..][0] == schedule[i] && schedule[i..][1..] == schedule[i + 1..];
        if Enabled(State(), schedule[i]) && !schedule[i].ByRequest(r) {
          OthersKeepRequest(codec, State(), schedule[i], r);
          ghost var w := State();
          Take(schedule[i]);
          ReachesTrans(codec, old(State()), w, State());
        }
      }
    }

    // ---- the statements, on the tables and on the rows of an open transaction ---------------------------

    /** INSERT of the reservation, ON CONFLICT DO NOTHING. */
    method ExecReserve(r: nat) returns (affected: nat)
      requires r in requests
      modifies this`requests
      ensures affected == if old(requests)[r].params.key in keys then 0 else 1
      ensures affected == 0 ==> requests == old(requests)
      ensures var q := old(requests)[r];
              affected == 1 ==>
                requests == old(requests)[r := q.(writes := q.writes.(key := Some(KeyRow(q.params.triple, None, None, None))))]
    {
      var q := requests[r];
      if q.params.key in keys {
        return 0;
      }
      requests := requests[r := q.(writes := q.writes.(key := Some(KeyRow(q.params.triple, None, None, None))))];
      return 1;
    }

    /** INSERT of the claim, ON CONFLICT of the triple DO NOTHING, RETURNING it; a used uuid violates the primary key. */
    method ExecInsertClaim(r: nat, id: nat) returns (returned: Option<Claim>, violation: bool)
      requires r in requests
      modifies this`requests
      ensures var q := old(requests)[r];
              && (returned.None? && !violation <==> Taken(old(State()).db, q.params.triple))
              && (violation <==> !Taken(old(State()).db, q.params.triple) && ClaimIdUsed(old(State()), id))
              && (violation ==> returned.None?) && (returned.None? ==> requests == old(requests))
              && (returned.Some? ==>
                    && returned.value == Claim(id, q.params.triple, q.now)
                    && requests == old(requests)[r := q.(writes := q.writes.(claim := returned))])
    {
      var q := requests[r];
      if Taken(State().db, q.params.triple) {
        return None, false;
      }
      if ClaimIdUsed(State(), id) {
        return None, true;
      }
      returned := Some(Claim(id, q.params.triple, q.now));
      requests := requests[r := q.(writes := q.writes.(claim := returned))];
      violation := false;
    }

    /** INSERT of the event of a claim, under the primary key and the unique aggregate. */
    method ExecInsertEvent(r: nat, id: EventId, claim: Claim) returns (violation: bool)
      requires r in requests
      modifies this`requests
      ensures violation <==> EventIdUsed(old(State()), id) || HasEvent(old(State()).db, claim.id)
      ensures violation ==> requests == old(requests)
      ensures var q := old(requests)[r];
              !violation ==>
                requests == old(requests)[r := q.(writes := q.writes.(event := Some(EventWrite(id,
                  Row("reward_claim", claim.id, "RewardClaimed", RewardClaimed(1, id, claim.createdAt, claim),
                      Pending, 0, q.now, None, None, None, q.now, q.now, None, None)))))]
    {
      var q := requests[r];
      if EventIdUsed(State(), id) || HasEvent(State().db, claim.id) {
        return true;
      }
      var row := Row("reward_claim", claim.id, "RewardClaimed", RewardClaimed(1, id, claim.createdAt, claim),
                     Pending, 0, q.now, None, None, None, q.now, q.now, None, None);
      requests := requests[r := q.(writes := q.writes.(event := Some(EventWrite(id, row))))];
      violation := false;
    }

    /** UPDATE of the reservation, where it is this request's and still empty. */
    method ExecCompleteKey(r: nat, status: int, body: Bytes, claimId: Option<nat>) returns (affected: nat)
      requires r in requests
      modifies this`requests
      ensures var q := old(requests)[r];
              var reserved := Some(KeyRow(q.params.triple, None, None, None));
              && affected == (if q.writes.key == reserved then 1 else 0)
              && (affected == 0 ==> requests == old(requests))
              && (affected == 1 ==>
                    requests == old(requests)[r := q.(writes := q.writes.(key := Some(KeyRow(q.params.triple, Some(status), Some(body), claimId))))])
    {
      var q := requests[r];
      if q.writes.key.None? {
        return 0;
      }
      var row := q.writes.key.value;
      if row.triple != q.params.triple || row.status.Some? || row.body.Some? || row.claimId.Some? {
        return 0;
      }
      var done := row.(status := Some(status), body := Some(body), claimId := claimId);
      requests := requests[r := q.(writes := q.writes.(key := Some(done)))];
      return 1;
    }

    /** COMMIT: the rows of the transaction go to the tables. */
    method ExecCommit(r: nat)
      requires r in requests
      modifies this`keys, this`claims, this`events
      ensures State().db == Merge(old(State()).db, requests[r].params.key, requests[r].writes)
    {
      var q := requests[r];
      if q.writes.key.Some? {
        keys := keys[q.params.key := q.writes.key.value];
      }
      if q.writes.claim.Some? {
        claims := claims[q.writes.claim.value.id := q.writes.claim.value];
      }
      if q.writes.event.Some? {
        events := events[q.writes.event.value.id := q.writes.event.value.row];
      }
    }

    // ---- the statements as steps of the protocol: the request moves on ------------------------------------

    method MoveTo(r: nat, pc: Pc)
      requires r in requests
      modifies this`requests
      ensures requests == old(requests)[r := old(requests)[r].(pc := pc)]
    {
      requests := requests[r := requests[r].(pc := pc)];
    }

    method RunReserve(r: nat) returns (reserved: bool)
      requires Enabled(State(), Reserve(r))
      modifies this
      ensures State() == Apply(codec, old(State()), Reserve(r))
      ensures reserved <==> old(requests)[r].params.key !in old(keys)
    {
      var affected := ExecReserve(r);
      reserved := affected == 1;
      MoveTo(r, if reserved then Inserting else Loading);
    }

    /** The ordinary SELECT, and what becomes of the request; a row that is found is served at this moment. */
    method RunLoad(r: nat) returns (judged: Option<Judged>)
      requires Enabled(State(), Load(r))
      modifies this
      ensures State() == Apply(codec, old(State()), Load(r))
      ensures judged.None? <==> old(requests)[r].params.key !in old(keys)
      ensures judged.Some? ==>
                requests[r].pc == match judged.value
                                  case Replay(answer) => Replaying(answer)
                                  case OtherRequest => Aborting(Answered(KeyReused))
                                  case BrokenRow => Aborting(Errored(Internal))
    {
      var q := requests[r];
      if q.params.key !in keys {
        requests := requests[r := q.(pc := Reserving, misses := q.misses + 1)];
        return None;
      }
      var found := Judge(codec, keys[q.params.key], q.params.triple);
      judged := Some(found);
      if found.BrokenRow? {
        MoveTo(r, Aborting(Errored(Internal)));
      } else {
        var answer := if found.OtherRequest? then KeyReused else found.answer;
        MoveTo(r, if found.OtherRequest? then Aborting(Answered(KeyReused)) else Replaying(answer));
        requests := requests[r := requests[r].(served := Some(|log|))];
        log := log + [Served(r, q.params, answer, None)];
      }
    }

    method RunInsertClaim(r: nat, id: nat) returns (returned: Option<Claim>, violation: bool)
      requires Enabled(State(), Insert(r, id))
      modifies this
      ensures State() == Apply(codec, old(State()), Insert(r, id))
      ensures requests[r].pc == if returned.Some? then Announcing(returned.value)
                                else if violation then Aborting(Errored(Internal)) else CompletingDuplicate
      ensures violation ==> returned.None? && ClaimIdUsed(old(State()), id)
      ensures returned.Some? ==> returned.value == Claim(id, requests[r].params.triple, requests[r].now)
    {
      returned, violation := ExecInsertClaim(r, id);
      MoveTo(r, if returned.Some? then Announcing(returned.value)
                else if violation then Aborting(Errored(Internal)) else CompletingDuplicate);
    }

    method RunInsertEvent(r: nat, id: EventId, claim: Claim) returns (violation: bool)
      requires Enabled(State(), Announce(r, id)) && requests[r].pc == Announcing(claim)
      modifies this
      ensures State() == Apply(codec, old(State()), Announce(r, id))
      ensures requests[r].pc == if violation then Aborting(Errored(Internal)) else Completing(claim)
      ensures violation <==> EventIdUsed(old(State()), id) || HasEvent(old(State()).db, claim.id)
      ensures !violation ==> requests[r].writes.event.Some? && requests[r].writes.event.value.id == id
    {
      violation := ExecInsertEvent(r, id, claim);
      MoveTo(r, if violation then Aborting(Errored(Internal)) else Completing(claim));
    }

    /** The arguments are the ones of a created claim, or of a duplicate. */
    predicate CompletesAs(pc: Pc, status: int, body: Bytes, claimId: Option<nat>) {
      if pc.Completing? then status == CREATED && body == codec.created(pc.claim) && claimId == Some(pc.claim.id)
      else pc.CompletingDuplicate? && status == CONFLICT && body == codec.duplicate && claimId.None?
    }

    method RunCompleteKey(r: nat, status: int, body: Bytes, claimId: Option<nat>) returns (affected: nat)
      requires Enabled(State(), Complete(r)) && CompletesAs(requests[r].pc, status, body, claimId)
      modifies this
      ensures State() == Apply(codec, old(State()), Complete(r))
      ensures affected == 1 <==> requests[r].pc.Committing?
      ensures affected == 1 ==> requests[r].pc == Committing(Answer(status, body, false))
    {
      affected := ExecCompleteKey(r, status, body, claimId);
      MoveTo(r, if affected == 1 then Committing(Answer(status, body, false)) else Aborting(Errored(Internal)));
    }

    method RunCommit(r: nat, lost: Option<Failure>)
      requires Enabled(State(), ClaimProtocol.Commit(r, lost))
      modifies this
      ensures State() == Apply(codec, old(State()), ClaimProtocol.Commit(r, lost))
    {
      var q := requests[r];
      ExecCommit(r);
      if q.pc.Committing? {
        requests := requests[r := requests[r].(served := Some(|log|))];
        log := log + [Served(r, q.params, q.pc.answer, GrantOf(q))];
      }
      requests := requests[r := requests[r].(writes := NO_WRITES)];
      MoveTo(r, Done(if lost.None? then Answered(q.pc.answer) else Errored(lost.value)));
    }
  }

  /** One createClaim call: the transaction it has opened and the turns it has used. */
  class Transaction {
    const db: Database
    const r: nat
    const params: Params
    const now: int
    const turns: seq<Turn>
    ghost const from: World
    var used: nat
    ghost var trouble: Trouble

    /** The request this call began. */
    ghost predicate Own()
      reads this, db
    {
      && r in db.requests && db.requests[r].params == params && db.requests[r].now == now
      && db.requests[r].forgottenAtStart == Forgets(from.log, params.key)
    }

    /** The request is at this stage, in a state reached from where the call began. */
    ghost predicate At(pc: Pc)
      reads this, db
    {
      && db.codec.Sound() && Reachable(db.codec, from)
      && Reaches(db.codec, from, db.State())
      && Own() && db.requests[r].pc == pc && (db.requests[r].served.Some? <==> pc.Replaying?)
      && used <= 2 * db.requests[r].misses + Position(pc) && NoFailure(turns, used)
      && trouble == NoTrouble
    }

    /** The statement of this stage is about to run, with its turn taken. */
    ghost predicate AtTurn(pc: Pc)
      reads this, db
    {
      && db.codec.Sound() && Reachable(db.codec, from)
      && Reaches(db.codec, from, db.State())
      && Own() && db.requests[r].pc == pc && (db.requests[r].served.Some? <==> pc.Replaying?)
      && 0 < used && NoFailure(turns, used) && used <= 2 * db.requests[r].misses + Position(pc) + 1
      && trouble == NoTrouble
    }

    /** The call is over: its transaction is closed, and a failure has a cause. */
    ghost predicate Over(outcome: Outcome)
      reads this, db
    {
      && db.codec.Sound() && Reachable(db.codec, from)
      && Reaches(db.codec, from, db.State())
      && Own() && db.requests[r].pc == Done(outcome)
      && Reports(turns, trouble, outcome) && EffectFits(turns, trouble, db.requests[r])
      && TroubleOk(db.codec, from, r, db.requests[r], turns, trouble)
    }

    /** BeginTx. */
    constructor (db: Database, r: nat, params: Params, now: int, turns: seq<Turn>)
      requires db.codec.Sound() && Reachable(db.codec, db.State())
      requires r !in db.requests && ValidTriple(params.triple)
      modifies db
      ensures this.db == db && this.r == r && this.params == params && this.now == now && this.turns == turns && from == old(db.State())
      ensures At(Reserving) && used == 0
    {
      this.db, this.r, this.params, this.now, this.turns, this.used := db, r, params, now, turns, 0;
      this.from := db.State();
      this.trouble := NoTrouble;
      new;
      db.Take(Begin(r, params, now));
    }

    /** The schedule before the next statement; `ok` is false when the statement fails instead of running. */
    method Await(ghost pc: Pc) returns (ok: bool, failure: Failure, uuid: nat)
      requires At(pc) && !pc.Aborting? && !pc.Done?
      modifies this, db
      ensures used == old(used) + 1
      ensures db.codec.Sound() && Reachable(db.codec, from) && Reaches(db.codec, from, db.State())
      ensures r in db.requests && db.requests[r] == old(db.requests[r])
      ensures TroubleOk(db.codec, from, r, db.requests[r], turns, trouble)
      ensures ok <==> trouble == NoTrouble
      ensures !ok ==> Reports(turns, trouble, Errored(failure))
      ensures ok ==> NoFailure(turns, used) && uuid == turns[old(used)].uuid
      ensures !ok ==> trouble == if used > |turns| then OutOfTime else DriverFailed(used - 1)
      ensures old(used) >= |turns| ==> !ok
    {
      used := used + 1;
      uuid := 0;
      if used > |turns| {
        trouble := OutOfTime;
        failure := MapDeadline();
        return false, failure, uuid;
      }
      var turn := turns[used - 1];
      RunForeign(turn.before);
      if turn.failure.Some? {
        trouble := DriverFailed(used - 1);
        failure := MapError(turn.failure.value);
        return false, failure, uuid;
      }
      return true, Internal, turn.uuid;
    }

    method RunForeign(schedule: seq<Label>)
      requires Reaches(db.codec, from, db.State()) && r in db.requests
      modifies db
      ensures Reaches(db.codec, from, db.State()) && r in db.requests && db.requests[r] == old(db.requests[r])
    {
      ghost var w := db.State();
      db.Others(schedule, r);
      ReachesTrans(db.codec, from, w, db.State());
    }

    /** What a step of the request itself leaves true. */
    lemma Took(w: World, l: Label)
      requires db.codec.Sound() && Reachable(db.codec, from) && Reaches(db.codec, from, w)
      requires Enabled(w, l) && l.ByRequest(r) && r in w.requests && db.State() == Apply(db.codec, w, l)
      requires w.requests[r].params == params && w.requests[r].now == now && w.requests[r].forgottenAtStart == Forgets(from.log, params.key)
      ensures Reaches(db.codec, from, db.State())
      ensures Own() && db.requests[r].misses >= w.requests[r].misses
      ensures !l.Break? && !l.Rollback? ==> 2 * db.requests[r].misses + Position(db.requests[r].pc)
                                            > 2 * w.requests[r].misses + Position(w.requests[r].pc)
    {
      OwnStep(db.codec, w, l, r);
      ReachesStep(db.codec, w, l);
      ReachesTrans(db.codec, from, w, db.State());
    }

    /** The request gives up, or its transaction is rolled back. */
    method End(l: Label)
      requires db.codec.Sound() && Reachable(db.codec, from) && Reaches(db.codec, from, db.State())
      requires Enabled(db.State(), l) && l.ByRequest(r) && Own() && (l.Break? || l.Rollback?)
      modifies db
      ensures Reaches(db.codec, from, db.State()) && Own()
      ensures db.requests[r].misses == old(db.requests[r].misses) && db.requests[r].served == old(db.requests[r].served)
      ensures db.requests[r].pc == if l.Break? then Aborting(Errored(l.failure)) else Done(old(db.requests[r].pc.outcome))
    {
      ghost var w := db.State();
      db.Take(l);
      Took(w, l);
    }

    /** An error return: the deferred rollback closes the transaction. */
    method GiveUp(failure: Failure) returns (outcome: Outcome)
      requires db.codec.Sound() && Reachable(db.codec, from) && Reaches(db.codec, from, db.State())
      requires Own() && !db.requests[r].pc.Aborting? && !db.requests[r].pc.Done?
      requires TroubleOk(db.codec, from, r, db.requests[r], turns, trouble)
      requires Reports(turns, trouble, Errored(failure)) && EffectFits(turns, trouble, db.requests[r])
      modifies db
      ensures outcome == Errored(failure) && Over(outcome)
    {
      End(Break(r, failure));
      End(Rollback(r));
      outcome := Errored(failure);
    }

    /** Somebody else's open transaction keeps the statement of this stage waiting. */
    predicate Held(pc: Pc)
      reads this, db
    {
      (pc.Reserving? && KeyHeld(db.State(), r, params.key)) || (pc.Inserting? && TripleHeld(db.State(), r, params.triple))
    }

    /** The way to a statement: its schedule, its failure, and the wait for a row that somebody else has inserted. */
    method Reach(pc: Pc) returns (error: Option<Outcome>, uuid: nat)
      requires At(pc) && !pc.Aborting? && !pc.Done? && !pc.Replaying?
      modifies this, db
      ensures used == old(used) + 1 && (error.None? ==> old(used) < |turns|)
      ensures error.Some? ==> Over(error.value)
      ensures error.None? ==> AtTurn(pc) && !Held(pc) && uuid == turns[used - 1].uuid
    {
      var ok, failure;
      ok, failure, uuid := Await(pc);
      if ok && Held(pc) {
        trouble := StillWaiting(used - 1, db.State());
        ok := false;
        failure := MapDeadline();
      }
      error := None;
      if !ok {
        var outcome := GiveUp(failure);
        error := Some(outcome);
      }
    }

    /** tryReserveIdempotencyKey: inserted, or a conflict, or an error. */
    method TryReserve() returns (reserved: bool, error: Option<Outcome>)
      requires At(Reserving)
      modifies this, db
      ensures used == old(used) + 1
      ensures error.Some? ==> Over(error.value)
      ensures error.None? ==> old(used) < |turns| && At(if reserved then Inserting else Loading)
    {
      var uuid;
      error, uuid := Reach(Reserving);
      if error.Some? {
        return false, error;
      }
      ghost var w := db.State();
      reserved := db.RunReserve(r);
      Took(w, Reserve(r));
    }

    /** tryLoadIdempotentClaimResult: found with a result, gone, or an error; KeyReused is an error to the caller. */
    method TryLoad() returns (found: Option<Answer>, error: Option<Outcome>)
      requires At(Loading)
      modifies this, db
      ensures used == old(used) + 1
      ensures error.Some? ==> Over(error.value)
      ensures error.None? ==> old(used) < |turns| && At(if found.Some? then Replaying(found.value) else Reserving)
    {
      var uuid;
      error, uuid := Reach(Loading);
      found := None;
      if error.Some? {
        return None, error;
      }
      ghost var w := db.State();
      var judged := db.RunLoad(r);
      Took(w, Load(r));
      NotBroken(w);
      if judged.Some? {
        if judged.value.Replay? {
          found := Some(judged.value.answer);
        } else {
          End(Rollback(r));
          error := Some(Answered(KeyReused));
        }
      }
    }

    /** No reachable row is broken, so the code's internal errors about stored rows do not occur. */
    lemma NotBroken(w: World)
      requires db.codec.Sound() && Reachable(db.codec, from) && Reaches(db.codec, from, w)
      requires Enabled(w, Load(r))
      ensures r in Apply(db.codec, w, Load(r)).requests
      ensures Apply(db.codec, w, Load(r)).requests[r].pc != Aborting(Errored(Internal))
    {
      ReachesTrans(db.codec, START, from, w);
      ReachableInv(db.codec, w);
      if w.requests[r].params.key in w.db.keys {
        LoadFound(db.codec, w, r);
      }
    }

    /** tryInsertClaim: the new claim, or none because the triple is taken, or an error. */
    method TryInsertClaim() returns (created: Option<Claim>, error: Option<Outcome>)
      requires At(Inserting)
      modifies this, db
      ensures error.Some? ==> Over(error.value)
      ensures error.None? ==> At(if created.Some? then Announcing(created.value) else CompletingDuplicate)
      ensures created.Some? && error.None? ==>
                old(used) < |turns| && created.value == Claim(turns[old(used)].uuid, params.triple, now)
    {
      var uuid;
      error, uuid := Reach(Inserting);
      if error.Some? {
        return None, error;
      }
      ghost var w := db.State();
      var violation;
      created, violation := db.RunInsertClaim(r, uuid);
      Took(w, Insert(r, uuid));
      if violation {
        var outcome := Collide(w, uuid);
        error := Some(outcome);
      }
    }

    /** A uuid that was taken: a unique violation, which is reported as internal. */
    method Collide(ghost w: World, uuid: nat) returns (outcome: Outcome)
      requires db.codec.Sound() && Reachable(db.codec, from) && Reaches(db.codec, from, db.State())
      requires Own() && db.requests[r].pc == Aborting(Errored(Internal))
      requires Reaches(db.codec, from, w) && (ClaimIdUsed(w, uuid) || EventIdUsed(w, uuid))
      requires 0 < used && NoFailure(turns, used) && uuid == turns[used - 1].uuid
      modifies this, db
      ensures outcome == Errored(Internal) && Over(outcome) && used == old(used)
    {
      trouble := UuidCollided(used - 1, w);
      End(Rollback(r));
      var failure := MapViolation();
      outcome := Errored(failure);
    }

    /** insertRewardClaimedOutboxEvent. */
    method InsertEvent(claim: Claim) returns (error: Option<Outcome>)
      requires At(Announcing(claim))
      modifies this, db
      ensures error.Some? ==> Over(error.value)
      ensures error.None? ==> At(Completing(claim))
      ensures error.None? ==>
                && old(used) < |turns| && db.requests[r].writes.event.Some?
                && db.requests[r].writes.event.value.id == turns[old(used)].uuid
    {
      var uuid;
      error, uuid := Reach(Announcing(claim));
      if error.Some? {
        return;
      }
      ghost var w := db.State();
      NoEventYet(w, claim);
      var violation := db.RunInsertEvent(r, uuid, claim);
      Took(w, Announce(r, uuid));
      if violation {
        var outcome := Collide(w, uuid);
        error := Some(outcome);
      }
    }

    lemma NoEventYet(w: World, claim: Claim)
      requires db.codec.Sound() && Reachable(db.codec, from) && Reaches(db.codec, from, w)
      requires r in w.requests && w.requests[r].pc == Announcing(claim)
      ensures !HasEvent(w.db, claim.id)
    {
      ReachesTrans(db.codec, START, from, w);
      ReachableInv(db.codec, w);
      LegalLedgerOk(db.codec, w.log);
      assert RequestInv(db.codec, w, r, w.requests[r]);
      NoEventWithoutClaim(db.codec, w.db, claim.id);
    }

    /** completeCreatedClaim and completeDuplicateClaim: the response is made here and stored by completeIdempotencyKey. */
    method CompleteKey(created: Option<Claim>) returns (answer: Answer, error: Option<Outcome>)
      requires At(if created.Some? then Completing(created.value) else CompletingDuplicate)
      modifies this, db
      ensures error.Some? ==> Over(error.value)
      ensures error.None? ==> At(Committing(answer))
      ensures error.None? ==> answer == if created.Some? then Answer(201, db.codec.created(created.value), false)
                                        else Answer(409, db.codec.duplicate, false)
    {
      var uuid;
      error, uuid := Reach(if created.Some? then Completing(created.value) else CompletingDuplicate);
      answer := KeyReused;
      if error.Some? {
        return;
      }
      var status := if created.Some? then CREATED else CONFLICT;
      var body := if created.Some? then db.codec.created(created.value) else db.codec.duplicate;
      ghost var w := db.State();
      RowIsOurs(w);
      var affected := db.RunCompleteKey(r, status, body, if created.Some? then Some(created.value.id) else None);
      Took(w, Complete(r));
      answer := Answer(status, body, false);
    }

    /** The reservation is still there and empty, so the update finds its one row. */
    lemma RowIsOurs(w: World)
      requires db.codec.Sound() && Reachable(db.codec, from) && Reaches(db.codec, from, w)
      requires Enabled(w, Complete(r))
      ensures r in Apply(db.codec, w, Complete(r)).requests && Apply(db.codec, w, Complete(r)).requests[r].pc.Committing?
    {
      ReachesTrans(db.codec, START, from, w);
      ReachableInv(db.codec, w);
      CompleteKeepsInv(db.codec, w, r);
    }

    /** tx.Commit: on an error the commit may or may not have been applied. */
    method Commit(answer: Answer) returns (outcome: Outcome)
      requires At(Committing(answer)) || At(Replaying(answer))
      modifies this, db
      ensures Over(outcome)
      ensures outcome.Answered? ==> outcome == Answered(answer)
    {
      var ok, failure, uuid := Await(db.requests[r].pc);
      if ok {
        outcome := ApplyCommit(answer, None);
        return;
      }
      if trouble.DriverFailed? {
        trouble := CommitFailed(used - 1, db.requests[r].pc.Replaying?);
      }
      if used <= |turns| && turns[used - 1].applied {
        outcome := ApplyCommit(answer, Some(failure));
      } else {
        outcome := GiveUp(failure);
      }
    }

    /** The commit is applied, and its reply arrives or is lost. */
    method ApplyCommit(answer: Answer, lost: Option<Failure>) returns (outcome: Outcome)
      requires db.codec.Sound() && Reachable(db.codec, from) && Reaches(db.codec, from, db.State())
      requires Own() && (db.requests[r].pc == Committing(answer) || db.requests[r].pc == Replaying(answer))
      requires TroubleOk(db.codec, from, r, db.requests[r], turns, trouble)
      requires lost.None? ==> trouble == NoTrouble
      requires lost.Some? ==> trouble.CommitFailed? && trouble.turn < |turns| && turns[trouble.turn].applied
      requires db.requests[r].served.Some? <==> db.requests[r].pc.Replaying?
      requires Reports(turns, trouble, if lost.Some? then Errored(lost.value) else Answered(answer))
      modifies db
      ensures outcome == (if lost.Some? then Errored(lost.value) else Answered(answer)) && Over(outcome)
    {
      ghost var w := db.State();
      db.RunCommit(r, lost);
      Took(w, ClaimProtocol.Commit(r, lost));
      outcome := if lost.Some? then Errored(lost.value) else Answered(answer);
    }
  }

  /**
   createClaim. Whatever happens around it, the call is one request of the protocol, run to its end: an answer is the
   one its place in the linear history gives it, and it errs only for a cause outside.
   */
  method CreateClaim(db: Database, r: nat, params: Params, now: int, turns: seq<Turn>)
    returns (outcome: Outcome, ghost trouble: Trouble)
    requires db.codec.Sound() && Reachable(db.codec, db.State())
    requires r !in db.requests && ValidTriple(params.triple)
    modifies db
    ensures Reaches(db.codec, old(db.State()), db.State()) && Reachable(db.codec, db.State())
    ensures r in db.requests && db.requests[r].params == params && db.requests[r].now == now
    ensures db.requests[r].pc == Done(outcome)
    ensures outcome.Answered? ==>
              && db.requests[r].served.Some? && db.requests[r].served.value < |db.log|
              && var i := db.requests[r].served.value;
                 && db.log[i].Served? && db.log[i].request == r && db.log[i].params == params
                 && db.log[i].answer == outcome.answer
                 && Allows(db.codec, After(db.log[..i]), db.log[i])
    ensures Reports(turns, trouble, outcome) && EffectFits(turns, trouble, db.requests[r])
    ensures TroubleOk(db.codec, old(db.State()), r, db.requests[r], turns, trouble)
    ensures trouble.OutOfTime? ==>
              |turns| <= 2 * (Forgets(db.log, params.key) - Forgets(old(db.log), params.key)) + 4
  {
    var tx := new Transaction(db, r, params, now, turns);
    outcome := Perform(tx);
    trouble := tx.trouble;
    ReachesTrans(db.codec, START, old(db.State()), db.State());
    ReachableInv(db.codec, db.State());
    assert RequestInv(db.codec, db.State(), r, db.requests[r]);
    if outcome.Answered? {
      LegalAt(db.codec, db.log, db.requests[r].served.value);
    }
  }

  /** The body of createClaim after BeginTx. */
  method Perform(tx: Transaction) returns (outcome: Outcome)
    requires tx.At(Reserving)
    modifies tx, tx.db
    ensures tx.Over(outcome)
  {
    var reserved := false;
    while !reserved
      invariant tx.At(if reserved then Inserting else Reserving)
      decreases !reserved, |tx.turns| - tx.used
    {
      var error;
      reserved, error := tx.TryReserve();
      if error.Some? {
        return error.value;
      }
      if !reserved {
        var found;
        found, error := tx.TryLoad();
        if error.Some? {
          return error.value;
        }
        if found.Some? {
          outcome := tx.Commit(found.value);
          return;
        }
      }
    }

    var created, error := tx.TryInsertClaim();
    if error.Some? {
      return error.value;
    }
    if created.Some? {
      error := tx.InsertEvent(created.value);
      if error.Some? {
        return error.value;
      }
    }
    var answer;
    answer, error := tx.CompleteKey(created);
    if error.Some? {
      return error.value;
    }
    outcome := tx.Commit(answer);
  }
}

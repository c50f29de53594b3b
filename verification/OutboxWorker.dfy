/** internal/outbox/worker.go: the polling loop, one iteration of it, and the processing of one claimed event. */
module OutboxWorker {
  import opened Wrappers
  import opened OutboxSchema
  import opened OutboxProtocol
  import opened OutboxInvariant
  import opened OutboxStore
  import opened Backoff
  import Failures

  /** A publish call: foreign steps meanwhile, its error, and the state of its own context when it returned. */
  datatype PublishTurn = PublishTurn(meanwhile: seq<Label>, error: Option<Failures.Err>, context: Failures.Caller)

  /** One round of the loop: whether select takes the ended context, the three calls, and the caller's context over time. */
  datatype Turn = Turn(
    stop: bool, claim: CallTurn, publish: PublishTurn, final: CallTurn,
    atPublished: Failures.Caller, atHandle: Failures.Caller, atRoute: Failures.Caller)

  /** Contexts end once, and a query ends with its caller's error only after the caller. */
  predicate FateOk(fate: Fate, caller: Failures.Caller) {
    !fate.Answered? ==> Failures.Consistent(fate.query, caller)
  }

  predicate TurnOk(turn: Turn) {
    && Failures.NotBefore(turn.atPublished, turn.atHandle) && Failures.NotBefore(turn.atHandle, turn.atRoute)
    && FateOk(turn.claim.fate, turn.atHandle) && FateOk(turn.final.fate, turn.atHandle)
  }

  /** The one outcome of an iteration. */
  datatype Iteration =
    | Completed
    | NothingDue
    | LeaseWasLost
    | CallerEnded
    | Outage(operation: Failures.Operation)
    | Fault(operation: Failures.Operation)

  /** The class of the failed statement's driver error. */
  predicate FailedAs(fate: Fate, kind: Failures.Class) {
    !fate.Answered? && Failures.ClassOf(fate.query, fate.driver) == kind
  }

  /** The operation that is named as having failed: the claim if that failed, or the finalization that was due. */
  predicate OperationFits(turn: Turn, operation: Failures.Operation) {
    && (operation == Failures.ClaimOperation <==> !turn.claim.fate.Answered?)
    && (operation == Failures.PublishedOperation <==> turn.claim.fate.Answered? && turn.publish.error.None?)
  }

  /** The cause an outcome has in the iteration's turn. */
  predicate CausedBy(turn: Turn, it: Iteration, maxFailures: int) {
    match it
    case CallerEnded =>
      turn.atHandle.Closed? || FailedAs(turn.claim.fate, Failures.CallerEnded) || FailedAs(turn.final.fate, Failures.CallerEnded)
    case Outage(operation) =>
      && OperationFits(turn, operation)
      && FailedAs(if operation == Failures.ClaimOperation then turn.claim.fate else turn.final.fate, Failures.Outage)
    case Fault(operation) =>
      && OperationFits(turn, operation)
      && (|| FailedAs(if operation == Failures.ClaimOperation then turn.claim.fate else turn.final.fate, Failures.Fault)
          || (operation !in {Failures.ClaimOperation, Failures.PublishedOperation} && maxFailures > 2147483647))
    case _ => true
  }

  /** The error that an outcome shows to the loop. */
  predicate ShownAs(turn: Turn, it: Iteration, err: Option<Failures.Err>) {
    match it
    case CallerEnded => err.Some? && Failures.RouteError(turn.atRoute, err.value) == Failures.StopCleanly
    case Outage(_) => err.Some? && Failures.RouteError(turn.atRoute, err.value) == Failures.RetryLater
    case Fault(operation) => err.Some? && Failures.RouteError(turn.atRoute, err.value) == Failures.Fatal(Some(operation))
    case _ => err.None?
  }

  function IterationOf(operation: Failures.Operation, reply: Failures.Reply): Iteration
    requires !reply.Done?
  {
    if reply.LostLease? then LeaseWasLost else
    match Failures.ClassOf(reply.query, reply.driver)
    case CallerEnded => CallerEnded
    case Outage => Outage(operation)
    case Fault => Fault(operation)
  }

  lemma ShutdownStops(atPublished: Failures.Caller, atRoute: Failures.Caller)
    requires atPublished.Closed? && Failures.NotBefore(atPublished, atRoute)
    ensures var err := Failures.Leaf(atPublished.err.AsSentinel());
            Failures.RouteError(atRoute, err) == Failures.StopCleanly && !Failures.Is(err, Failures.LeaseLost)
  {
  }

  /** Among the errors passed on, only a lost lease contains ErrLeaseLost. */
  lemma LostLeaseShows(atHandle: Failures.Caller, operation: Failures.Operation, reply: Failures.Reply)
    requires !reply.Done? && operation != Failures.ClaimOperation
    requires reply.Broken? ==> Failures.Consistent(reply.query, atHandle)
    ensures Failures.Is(Failures.PassedOn(atHandle, operation, reply), Failures.LeaseLost) <==> reply.LostLease?
  {
    Failures.RoutingIsByClass(atHandle, atHandle, operation, reply);
  }

  /** How the store's reply to a finalizing call relates to the call. */
  predicate ReplyFrom(reply: Failures.Reply, fate: Fate, operation: Failures.Operation, maxFailures: int) {
    reply.Broken? ==>
      if fate.Answered? then
        maxFailures > 2147483647 && operation != Failures.PublishedOperation && reply.query == Failures.Running && reply.driver == Failures.PgError("22003")
      else reply.query == fate.query && reply.driver == fate.driver
  }

  /** A reply that is not Done becomes exactly one outcome, shown by the error that is passed on. */
  lemma ReplyBecomesIteration(turn: Turn, operation: Failures.Operation, reply: Failures.Reply, maxFailures: int)
    requires TurnOk(turn) && !reply.Done? && operation != Failures.ClaimOperation
    requires ReplyFrom(reply, turn.final.fate, operation, maxFailures) && OperationFits(turn, operation)
    ensures var it := IterationOf(operation, reply);
            var err := Failures.PassedOn(turn.atHandle, operation, reply);
            && (it.LeaseWasLost? <==> Failures.Is(err, Failures.LeaseLost))
            && (!it.LeaseWasLost? ==> ShownAs(turn, it, Some(err)))
            && !it.Completed? && !it.NothingDue? && CausedBy(turn, it, maxFailures)
  {
    if reply.Broken? && turn.final.fate.Answered? {
      assert Failures.ClassOf(Failures.Running, Failures.PgError("22003")) == Failures.Fault;
    }
    Failures.RoutingIsByClass(turn.atHandle, turn.atRoute, operation, reply);
    LostLeaseShows(turn.atHandle, operation, reply);
  }

  datatype Result = Stopped | Failed(operation: Option<Failures.Operation>)

  /** The step in which the publisher's return is taken up by the worker. */
  function OutcomeIn(turn: Turn): PublishOutcome {
    Failures.ClassifyPublishOutcome(turn.publish.context, turn.publish.error)
  }

  /** An answered claim of some event. */
  predicate ClaimedSteps(w: WorkerId, turn: Turn, own: seq<Label>) {
    && |own| >= 3 && own[0] == ClaimIssue(w) && own[2] == ClaimReply(w)
    && own[1].ClaimApply? && own[1].worker == w && own[1].skipped == turn.claim.skipped && own[1].picked.Some?
  }

  /** The steps that follow an answered claim, by outcome. */
  predicate ProcessSteps(w: WorkerId, turn: Turn, it: Iteration, own: seq<Label>, maxFailures: int) {
    if turn.publish.error.Some? && turn.atPublished.Closed? then
      && it.CallerEnded? && |own| == 1 && own[0].PublishAbandon? && own[0].worker == w
      && Failures.OutcomeFits(own[0].outcome, turn.publish.context, turn.publish.error)
    else
      && |own| == 2 && own[0].PublishReturn? && own[0].worker == w
      && Failures.OutcomeFits(own[0].outcome, turn.publish.context, turn.publish.error)
      && (own[1] == FinalizeFail(w) || (own[1].FinalizeApply? && own[1].worker == w))
      && (it.Completed? || it.LeaseWasLost? ==> own[1].FinalizeApply?)
      && (turn.final.fate.NeverRun? ==> own[1] == FinalizeFail(w))
      && (it.Completed? || it.LeaseWasLost? <==> turn.final.fate.Answered? && own[1].FinalizeApply?)
      && (turn.final.fate.AnswerLost? && maxFailures <= 2147483647 ==> own[1].FinalizeApply?)
  }

  /**
   The worker's own protocol steps in one round, by outcome. What the round leaves out, adds or takes in another
   order would show here.
   */
  predicate RoundSteps(w: WorkerId, turn: Turn, it: Iteration, own: seq<Label>, maxFailures: int) {
    if !turn.claim.fate.Answered? then
      ClaimSteps(w, turn.claim, None, own) && (it.CallerEnded? || it.Outage? || it.Fault?)
    else if it.NothingDue? then ClaimSteps(w, turn.claim, None, own)
    else ClaimedSteps(w, turn, own) && ProcessSteps(w, turn, it, own[3..], maxFailures)
  }

  /** The rounds' steps one after another. */
  function Joined(rounds: seq<Round>): seq<Label> {
    if rounds == [] then [] else Joined(rounds[..|rounds| - 1]) + rounds[|rounds| - 1].own
  }

  /** One round as it went: its outcome, the worker's own steps, and the finalizing statement whose answer it got. */
  datatype Round = Round(it: Iteration, own: seq<Label>, final: Option<Final>)

  /** Completed means that the statement stored the outcome, and a lost lease that it found no row. */
  predicate FinalFits(w: WorkerId, round: Round) {
    && (round.final.Some? <==> round.it.Completed? || round.it.LeaseWasLost?)
    && (round.final.Some? ==> round.final.value.worker == w && (round.final.value.affected <==> round.it.Completed?))
  }

  /** The statements whose answers the rounds got are in the history. */
  predicate InHistory(rounds: seq<Round>, finals: seq<Final>) {
    forall i :: 0 <= i < |rounds| && rounds[i].final.Some? ==> rounds[i].final.value in finals
  }

  lemma JoinRound(cfg: Settings, s: Sys, t: Sys, u: Sys, w: WorkerId, rounds: seq<Round>, round: Round)
    requires Did(cfg, s, t, w, Joined(rounds)) && Did(cfg, t, u, w, round.own)
    ensures Did(cfg, s, u, w, Joined(rounds + [round]))
  {
    DidTrans(cfg, s, t, u, w, Joined(rounds), round.own);
    assert (rounds + [round])[..|rounds|] == rounds;
  }

  /** What processEvent hands back for one round. */
  predicate ProcessedAs(w: WorkerId, turn: Turn, err: Option<Failures.Err>, round: Round, maxFailures: int) {
    && (err.None? <==> round.it.Completed?)
    && (round.it.LeaseWasLost? <==> err.Some? && Failures.Is(err.value, Failures.LeaseLost))
    && (!round.it.LeaseWasLost? ==> ShownAs(turn, round.it, err))
    && !round.it.NothingDue? && CausedBy(turn, round.it, maxFailures)
    && ProcessSteps(w, turn, round.it, round.own, maxFailures) && FinalFits(w, round)
  }

  /** The error and the outcome that a reply to the finalizing call stands for. */
  function ErrorOf(turn: Turn, operation: Failures.Operation, reply: Failures.Reply): Option<Failures.Err> {
    if reply.Done? then None else Some(Failures.PassedOn(turn.atHandle, operation, reply))
  }

  function OutcomeOfReply(operation: Failures.Operation, reply: Failures.Reply): Iteration {
    if reply.Done? then Completed else IterationOf(operation, reply)
  }

  lemma ReplyProcessed(w: WorkerId, turn: Turn, operation: Failures.Operation, reply: Failures.Reply, own: seq<Label>,
                       final: Option<Final>, maxFailures: int)
    requires TurnOk(turn) && operation != Failures.ClaimOperation
    requires ReplyFrom(reply, turn.final.fate, operation, maxFailures) && OperationFits(turn, operation)
    requires !reply.Broken? ==> turn.final.fate.Answered?
    requires FinalSteps(w, OutcomeIn(turn), turn.final, reply, own, maxFailures)
    requires !(turn.publish.error.Some? && turn.atPublished.Closed?)
    requires (final.Some? <==> !reply.Broken?) && (final.Some? ==> final.value.worker == w && (final.value.affected <==> reply.Done?))
    ensures ProcessedAs(w, turn, ErrorOf(turn, operation, reply), Round(OutcomeOfReply(operation, reply), own, final), maxFailures)
  {
    Failures.OutcomeIsClassified(turn.publish.context, turn.publish.error);
    if !reply.Done? {
      ReplyBecomesIteration(turn, operation, reply, maxFailures);
    }
  }

  /** A claim that failed is a round of its own. */
  lemma ClaimFailed(w: WorkerId, turn: Turn, reply: Failures.Reply, claimed: seq<Label>, maxFailures: int)
    requires TurnOk(turn) && reply.Broken? && !turn.claim.fate.Answered?
    requires reply.query == turn.claim.fate.query && reply.driver == turn.claim.fate.driver
    requires ClaimSteps(w, turn.claim, None, claimed)
    ensures var it := IterationOf(Failures.ClaimOperation, reply);
            && ShownAs(turn, it, Some(Failures.PassedOn(turn.atHandle, Failures.ClaimOperation, reply)))
            && CausedBy(turn, it, maxFailures) && RoundSteps(w, turn, it, claimed, maxFailures)
            && FinalFits(w, Round(it, claimed, None)) && !it.Completed?
  {
    Failures.RoutingIsByClass(turn.atHandle, turn.atRoute, Failures.ClaimOperation, reply);
  }

  /** The steps of an answered claim and of the processing of its event are those of a round. */
  lemma ClaimedAndProcessed(w: WorkerId, turn: Turn, event: Event, claimed: seq<Label>, processing: Round, maxFailures: int)
    requires turn.claim.fate.Answered? && ClaimSteps(w, turn.claim, Some(event), claimed)
    requires ProcessSteps(w, turn, processing.it, processing.own, maxFailures) && !processing.it.NothingDue?
    ensures RoundSteps(w, turn, processing.it, claimed + processing.own, maxFailures)
  {
    assert (claimed + processing.own)[3..] == processing.own;
  }

  class Worker {
    const db: Database
    const workerID: WorkerId
    const pollInterval: Duration
    const lockTTL: Duration
    const publishTimeout: Duration
    const maxFailures: GoInt
    const backoff: Policy

    /** The worker runs with the settings that all workers share. */
    ghost predicate Configured() {
      && db.cfg == Settings(lockTTL as int, publishTimeout as int, db.cfg.queryTimeout, maxFailures as int,
                            backoff.base as int, backoff.max as int)
      && db.cfg.Valid()
    }

    /** Nothing of the worker is in flight. */
    ghost predicate Ready()
      reads db
    {
      && Configured() && Reachable(db.cfg, db.State())
      && Alive(db.State(), workerID) && db.workers[workerID].Idle?
    }

    /** The worker holds the lease its snapshot of the event came with. */
    ghost predicate Holds(event: Event)
      reads db
    {
      && Configured() && db.CanFinalize(workerID)
      && db.workers[workerID].lease.snapshot == event
    }

    constructor (db: Database, workerID: WorkerId, pollInterval: Duration, lockTTL: Duration, publishTimeout: Duration,
                 maxFailures: GoInt, backoff: Policy)
      ensures this.db == db && this.workerID == workerID && this.pollInterval == pollInterval && this.lockTTL == lockTTL
      ensures this.publishTimeout == publishTimeout && this.maxFailures == maxFailures && this.backoff == backoff
    {
      this.db, this.workerID, this.pollInterval, this.lockTTL := db, workerID, pollInterval, lockTTL;
      this.publishTimeout, this.maxFailures, this.backoff := publishTimeout, maxFailures, backoff;
    }

    /**
     Run: rounds of the loop until the context ends or an iteration fails for good. Its effect on the shared state is
     a run of the protocol in which the worker's own steps are those of its rounds, so every theorem about runs is
     about this code; each round has exactly one outcome; and only completed rounds are followed by no wait.
     */
    method Run(turns: seq<Turn>) returns (result: Result, waits: seq<Duration>, ghost rounds: seq<Round>)
      requires Ready() && forall i :: 0 <= i < |turns| ==> TurnOk(turns[i])
      modifies db
      ensures Did(db.cfg, old(db.State()), db.State(), workerID, Joined(rounds)) && Ready()
      ensures |waits| <= |rounds| <= |waits| + 1 && |rounds| <= |turns|
      ensures AllGoOn(turns, rounds, waits) && InHistory(rounds, db.finals)
      ensures |rounds| == |waits| ==> result.Stopped? && (|waits| == |turns| || turns[|waits|].stop)
      ensures |rounds| > |waits| ==> RoundEnds(turns[|waits|], rounds[|waits|], result)
    {
      rounds, waits := [], [];
      DidNothing(db.cfg, db.State(), workerID);
      for i := 0 to |turns|
        invariant Did(db.cfg, old(db.State()), db.State(), workerID, Joined(rounds)) && Ready()
        invariant |rounds| == |waits| == i && AllGoOn(turns, rounds, waits) && InHistory(rounds, db.finals)
      {
        if turns[i].stop {
          return Stopped, waits, rounds;
        }
        ghost var s := db.State();
        var end, wait;
        ghost var round;
        end, wait, round := OneRound(turns[i]);
        JoinRound(db.cfg, old(db.State()), s, db.State(), workerID, rounds, round);
        DidReaches(db.cfg, s, db.State(), workerID, round.own);
        if end.Some? {
          StillGoOn(turns, rounds, waits, round);
          return end.value, waits, rounds + [round];
        }
        OneMoreGoesOn(turns, rounds, waits, round, wait);
        rounds, waits := rounds + [round], waits + [wait];
      }
      result := Stopped;
    }

    /** The body of the loop: what an iteration's error means for the loop, and how long it waits otherwise. */
    method OneRound(turn: Turn) returns (end: Option<Result>, wait: Duration, ghost round: Round)
      requires Ready() && TurnOk(turn) && !turn.stop
      modifies db
      ensures Did(db.cfg, old(db.State()), db.State(), workerID, round.own) && Ready() && InHistory([round], db.finals)
      ensures end.None? ==> RoundGoesOn(turn, round, wait)
      ensures end.Some? ==> RoundEnds(turn, round, end.value)
    {
      wait := pollInterval;
      var processed, err;
      processed, err, round := RunOnce(turn);
      if err.Some? {
        var route := Failures.RouteError(turn.atRoute, err.value);
        if route.StopCleanly? {
          return Some(Stopped), wait, round;
        }
        if !route.RetryLater? {
          return Some(Result.Failed(Failures.FailedOperation(err.value))), wait, round;
        }
      }
      if processed {
        wait := 0;
      }
      end := None;
    }

    /** A round after which the loop waits: not at all after a stored transition, else one poll interval. */
    predicate RoundGoesOn(turn: Turn, round: Round, wait: Duration) {
      && !turn.stop && CausedBy(turn, round.it, maxFailures as int) && FinalFits(workerID, round)
      && RoundSteps(workerID, turn, round.it, round.own, maxFailures as int)
      && !round.it.CallerEnded? && !round.it.Fault?
      && wait == if round.it.Completed? then 0 else pollInterval
    }

    /** Every round that was followed by a wait. */
    predicate AllGoOn(turns: seq<Turn>, rounds: seq<Round>, waits: seq<Duration>) {
      |waits| <= |rounds| && |waits| <= |turns| && forall i :: 0 <= i < |waits| ==> RoundGoesOn(turns[i], rounds[i], waits[i])
    }

    lemma StillGoOn(turns: seq<Turn>, rounds: seq<Round>, waits: seq<Duration>, round: Round)
      requires AllGoOn(turns, rounds, waits)
      ensures AllGoOn(turns, rounds + [round], waits)
    {
      assert forall i :: 0 <= i < |waits| ==> (rounds + [round])[i] == rounds[i];
    }

    lemma OneMoreGoesOn(turns: seq<Turn>, rounds: seq<Round>, waits: seq<Duration>, round: Round, wait: Duration)
      requires AllGoOn(turns, rounds, waits) && |rounds| == |waits| < |turns|
      requires RoundGoesOn(turns[|waits|], round, wait)
      ensures AllGoOn(turns, rounds + [round], waits + [wait])
    {
      var r, w := rounds + [round], waits + [wait];
      forall i | 0 <= i < |w| ensures RoundGoesOn(turns[i], r[i], w[i]) {
        if i < |waits| {
          assert r[i] == rounds[i] && w[i] == waits[i];
        }
      }
    }

    /** The last round: the caller's end stops the loop cleanly, a fault stops it with the name of the operation. */
    predicate RoundEnds(turn: Turn, round: Round, result: Result) {
      && !turn.stop && CausedBy(turn, round.it, maxFailures as int) && FinalFits(workerID, round)
      && RoundSteps(workerID, turn, round.it, round.own, maxFailures as int)
      && (round.it.CallerEnded? || round.it.Fault?)
      && result == if round.it.Fault? then Result.Failed(Some(round.it.operation)) else Stopped
    }

    /** runOnce: claim one event and process it; a lost lease is no error. */
    method RunOnce(turn: Turn) returns (processed: bool, err: Option<Failures.Err>, ghost round: Round)
      requires Ready() && TurnOk(turn)
      modifies db
      ensures Did(db.cfg, old(db.State()), db.State(), workerID, round.own) && Ready() && InHistory([round], db.finals)
      ensures FinalFits(workerID, round)
      ensures processed <==> round.it.Completed?
      ensures ShownAs(turn, round.it, err) && CausedBy(turn, round.it, maxFailures as int)
      ensures RoundSteps(workerID, turn, round.it, round.own, maxFailures as int)
    {
      var event, reply;
      ghost var claimed;
      event, reply, claimed := db.ClaimNext(workerID, turn.claim);
      DidReaches(db.cfg, old(db.State()), db.State(), workerID, claimed);
      ReachesTrans(db.cfg, START, old(db.State()), db.State());
      if !reply.Done? {
        ClaimFailed(workerID, turn, reply, claimed, maxFailures as int);
        round := Round(IterationOf(Failures.ClaimOperation, reply), claimed, None);
        return false, Some(Failures.PassedOn(turn.atHandle, Failures.ClaimOperation, reply)), round;
      }
      if event.None? {
        return false, None, Round(NothingDue, claimed, None);
      }
      ghost var s := db.State();
      ghost var processing;
      err, processing := ProcessEvent(event.value, turn);
      DidTrans(db.cfg, old(db.State()), s, db.State(), workerID, claimed, processing.own);
      ClaimedAndProcessed(workerID, turn, event.value, claimed, processing, maxFailures as int);
      round := Round(processing.it, claimed + processing.own, processing.final);
      if err.Some? && Failures.Is(err.value, Failures.LeaseLost) {
        return false, None, round;
      }
      processed := err.None?;
    }

    /** processEvent: publish, then store what became of it, deciding from the claimed snapshot. */
    method ProcessEvent(event: Event, turn: Turn) returns (err: Option<Failures.Err>, ghost round: Round)
      requires Holds(event) && TurnOk(turn) && turn.claim.fate.Answered?
      modifies db
      ensures Did(db.cfg, old(db.State()), db.State(), workerID, round.own) && Ready()
      ensures ProcessedAs(workerID, turn, err, round, maxFailures as int)
      ensures round.it.Outage? || round.it.Fault? ==>
                round.it.operation == if turn.publish.error.None? then Failures.PublishedOperation
                                      else if event.failedAttempts + 1 >= maxFailures as int then Failures.DeadLetterOperation
                                      else Failures.RetryOperation
      ensures round.final.Some? ==>
                && round.final.value in db.finals && round.final.value.event == event.id
                && round.final.value.op == db.cfg.Decide(event.failedAttempts, round.own[0].outcome)
    {
      CallPublisher(event, turn);
      ghost var s := db.State();
      if turn.publish.error.Some? && turn.atPublished.Closed? {
        err, round := Abandon(event, turn);
      } else {
        err, round := StoreAndReport(event, turn);
      }
      Conclude(old(db.State()), s, db.State(), round.own);
    }

    /** The finalization, and the error that a reply to it stands for. */
    method StoreAndReport(event: Event, turn: Turn) returns (err: Option<Failures.Err>, ghost round: Round)
      requires Holds(event) && TurnOk(turn) && turn.claim.fate.Answered?
      requires !(turn.publish.error.Some? && turn.atPublished.Closed?)
      modifies db
      ensures Did(db.cfg, old(db.State()), db.State(), workerID, round.own)
      ensures Alive(db.State(), workerID) && db.workers[workerID].Idle?
      ensures ProcessedAs(workerID, turn, err, round, maxFailures as int)
      ensures round.it.Outage? || round.it.Fault? ==>
                round.it.operation == if turn.publish.error.None? then Failures.PublishedOperation
                                      else if event.failedAttempts + 1 >= maxFailures as int then Failures.DeadLetterOperation
                                      else Failures.RetryOperation
      ensures round.final.Some? ==>
                && round.final.value in db.finals && round.final.value.event == event.id
                && round.final.value.op == db.cfg.Decide(event.failedAttempts, round.own[0].outcome)
    {
      var outcome := OutcomeIn(turn);
      Failures.OutcomeIsClassified(turn.publish.context, turn.publish.error);
      var reply, operation;
      ghost var own;
      reply, operation, own := StoreOutcome(event, outcome, turn.final);
      ghost var final := if reply.Broken? then None else Some(db.finals[|db.finals| - 1]);
      ReplyProcessed(workerID, turn, operation, reply, own, final, maxFailures as int);
      err := ErrorOf(turn, operation, reply);
      round := Round(OutcomeOfReply(operation, reply), own, final);
    }

    /** A shutdown is not a failure of the publisher: nothing is stored, and the lease is left to run out. */
    method Abandon(event: Event, turn: Turn) returns (err: Option<Failures.Err>, ghost round: Round)
      requires Holds(event) && TurnOk(turn) && turn.claim.fate.Answered?
      requires turn.publish.error.Some? && turn.atPublished.Closed?
      modifies db
      ensures Did(db.cfg, old(db.State()), db.State(), workerID, round.own)
      ensures Alive(db.State(), workerID) && db.workers[workerID].Idle?
      ensures db.rows == old(db.rows)
      ensures ProcessedAs(workerID, turn, err, round, maxFailures as int)
    {
      var outcome := OutcomeIn(turn);
      Failures.OutcomeIsClassified(turn.publish.context, turn.publish.error);
      db.Step(workerID, PublishAbandon(workerID, outcome));
      ShutdownStops(turn.atPublished, turn.atRoute);
      return Some(Failures.Leaf(turn.atPublished.err.AsSentinel())), Round(CallerEnded, [PublishAbandon(workerID, outcome)], None);
    }

    /** What was done after the publish call is all that was done, and it keeps the invariant. */
    lemma Conclude(s: Sys, t: Sys, u: Sys, own: seq<Label>)
      requires Configured() && Reachable(db.cfg, s) && Did(db.cfg, s, t, workerID, []) && Did(db.cfg, t, u, workerID, own)
      ensures Did(db.cfg, s, u, workerID, own) && Reachable(db.cfg, u)
    {
      DidTrans(db.cfg, s, t, u, workerID, [], own);
      assert [] + own == own;
      DidReaches(db.cfg, s, u, workerID, own);
      ReachesTrans(db.cfg, START, s, u);
    }

    /** The publish call, during which the lease may be lost. */
    method CallPublisher(event: Event, turn: Turn)
      requires Holds(event)
      modifies db
      ensures Did(db.cfg, old(db.State()), db.State(), workerID, []) && Holds(event)
      ensures db.workers[workerID] == old(db.workers[workerID])
    {
      db.Publish(workerID, turn.publish.meanwhile);
      DidReaches(db.cfg, old(db.State()), db.State(), workerID, []);
      ReachesTrans(db.cfg, START, old(db.State()), db.State());
    }

    /** The finalizing branches of processEvent: publish, or dead-letter at the limit, or retry after the backoff. */
    method StoreOutcome(event: Event, outcome: PublishOutcome, call: CallTurn)
      returns (reply: Failures.Reply, operation: Failures.Operation, ghost own: seq<Label>)
      requires Holds(event)
      modifies db
      ensures Did(db.cfg, old(db.State()), db.State(), workerID, own) && FinalSteps(workerID, outcome, call, reply, own, maxFailures as int)
      ensures Alive(db.State(), workerID) && db.workers[workerID].Idle?
      ensures operation == if outcome == Success then Failures.PublishedOperation
                           else if event.failedAttempts + 1 >= maxFailures as int then Failures.DeadLetterOperation
                           else Failures.RetryOperation
      ensures db.ReplyMatches(reply, call, workerID, old(db.workers[workerID]).lease,
                              db.cfg.Decide(event.failedAttempts, outcome))
    {
      if outcome == Success {
        operation := Failures.PublishedOperation;
        reply, own := db.MarkPublished(workerID, call);
        return;
      }
      SnapshotBounded(event);
      var failedAttempts := (event.failedAttempts + 1) as GoInt;
      if failedAttempts >= maxFailures {
        operation := Failures.DeadLetterOperation;
        reply, own := db.MarkDeadLetter(workerID, outcome, call);
      } else {
        operation := Failures.RetryOperation;
        var delay;
        ghost var entries;
        delay, entries := backoff.RetryDelay(failedAttempts);
        DelayIsCappedDoubling(backoff.base as int, backoff.max as int, failedAttempts as int);
        reply, own := db.ScheduleRetry(workerID, delay as int, outcome, call);
      }
    }

    /** The snapshot's counter is below the limit, so adding one stays inside Go's int. */
    lemma SnapshotBounded(event: Event)
      requires Holds(event)
      ensures 0 <= event.failedAttempts < maxFailures as int
    {
      ReachableInv(db.cfg, db.State());
      assert WorkerInv(db.cfg, db.State(), workerID, db.workers[workerID]);
    }
  }
}

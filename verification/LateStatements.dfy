/**
 What the name fence rests on: a finalizing statement takes effect before its call returns, or never. If the server
 could still run a statement after its worker gave up on it, the fence would let it through exactly while the event is
 processed under a claim of the same worker, that one or a later one, and the dead-letter threshold would not be exact.
 */
module LateStatements {
  import opened OutboxSchema
  import opened OutboxProtocol
  import opened OutboxInvariant
  import opened CounterRange

  /** Worker w once issued this statement and was told that it failed. */
  ghost predicate Abandoned(cfg: Settings, s: Sys, w: WorkerId, lease: Lease, op: Op) {
    exists before :: && Reachable(cfg, before) && Alive(before, w)
                     && before.workers[w].Finalizing? && before.workers[w].lease == lease && before.workers[w].op == op
                     && Reaches(cfg, Apply(cfg, before, FinalizeFail(w)), s)
  }

  /** The statement runs after all, under the same WHERE clause and in the same column. */
  function RunLate(s: Sys, w: WorkerId, lease: Lease, op: Op, now: int): Sys {
    var e := lease.snapshot.id;
    if Hits(s, w, e) && !Overflows(s.rows[e], op) then s.(rows := s.rows[e := FinalRow(s.rows[e], op, now)]) else s
  }

  /** The claim a lease came from is in the history for good, and the row's counter never falls below its snapshot. */
  predicate Remembered(s: Sys, w: WorkerId, lease: Lease) {
    var e := lease.snapshot.id;
    && e in s.claims && 1 <= lease.number <= |s.claims[e]| && s.claims[e][lease.number - 1].worker == w
    && (e in s.rows ==> lease.snapshot.failedAttempts <= s.rows[e].failedAttempts)
  }

  lemma RememberedStays(cfg: Settings, s: Sys, l: Label, w: WorkerId, lease: Lease)
    requires Enabled(s, l) && Remembered(s, w, lease)
    ensures Remembered(Apply(cfg, s, l), w, lease)
  {
    match l
    case ClaimApply(_, _, _, _) =>
    case FinalizeApply(_, _) =>
    case _ =>
  }

  ghost predicate AllRemembered(s: Sys) {
    forall w :: w in s.workers && s.workers[w].Leased() ==> Remembered(s, w, s.workers[w].lease)
  }

  lemma StepRemembers(cfg: Settings, s: Sys, l: Label)
    requires Enabled(s, l) && AllRemembered(s)
    ensures AllRemembered(Apply(cfg, s, l))
  {
    var t := Apply(cfg, s, l);
    forall w | w in t.workers && t.workers[w].Leased() ensures Remembered(t, w, t.workers[w].lease) {
      if w in s.workers && s.workers[w].Leased() {
        RememberedStays(cfg, s, l, w, s.workers[w].lease);
        SameLease(cfg, s, l, w);
      }
    }
  }

  lemma SameLease(cfg: Settings, s: Sys, l: Label, w: WorkerId)
    requires Enabled(s, l) && w in s.workers && s.workers[w].Leased()
    requires w in Apply(cfg, s, l).workers && Apply(cfg, s, l).workers[w].Leased()
    ensures Apply(cfg, s, l).workers[w].lease == s.workers[w].lease
  {
  }

  lemma {:induction false} RunRemembers(cfg: Settings, s: Sys, ls: seq<Label>, t: Sys, w: WorkerId, lease: Lease)
    requires Runs(cfg, s, ls, t)
    ensures AllRemembered(s) ==> AllRemembered(t)
    ensures Remembered(s, w, lease) ==> Remembered(t, w, lease)
    decreases |ls|
  {
    if ls != [] {
      if AllRemembered(s) {
        StepRemembers(cfg, s, ls[0]);
      }
      if Remembered(s, w, lease) {
        RememberedStays(cfg, s, ls[0], w, lease);
      }
      RunRemembers(cfg, Apply(cfg, s, ls[0]), ls[1..], t, w, lease);
    }
  }

  /** An abandoned statement was decided from a snapshot that is remembered still. */
  lemma AbandonedFacts(cfg: Settings, s: Sys, w: WorkerId, lease: Lease, op: Op)
    requires cfg.Valid() && Abandoned(cfg, s, w, lease, op)
    ensures Remembered(s, w, lease) && 0 <= lease.snapshot.failedAttempts < cfg.maxFailures
    ensures op == cfg.Decide(lease.snapshot.failedAttempts, OutcomeOf(op))
  {
    var before :| Reachable(cfg, before) && Alive(before, w)
                  && before.workers[w].Finalizing? && before.workers[w].lease == lease && before.workers[w].op == op
                  && Reaches(cfg, Apply(cfg, before, FinalizeFail(w)), s);
    ReachableInv(cfg, before);
    assert WorkerInv(cfg, before, w, before.workers[w]);
    var ls :| Runs(cfg, START, ls, before);
    RunRemembers(cfg, START, ls, before, w, lease);
    RememberedStays(cfg, before, FinalizeFail(w), w, lease);
    var ms :| Runs(cfg, Apply(cfg, before, FinalizeFail(w)), ms, s);
    RunRemembers(cfg, Apply(cfg, before, FinalizeFail(w)), ms, s, w, lease);
  }

  /**
   An abandoned statement that ran late would change a row if and only if the event is being processed and its latest
   claim is the same worker's (and the counter fits its column): it need not be the claim the statement was issued for.
   */
  lemma LateStatementPassesIffHeld(cfg: Settings, s: Sys, w: WorkerId, lease: Lease, op: Op, now: int)
    requires cfg.Valid() && Reachable(cfg, s) && Abandoned(cfg, s, w, lease, op)
    ensures var e := lease.snapshot.id;
            && e in s.claims && 1 <= lease.number <= |s.claims[e]|
            && (RunLate(s, w, lease, op, now) != s <==>
                  && e in s.rows && s.rows[e].status == Processing && Last(s.claims[e]).worker == w
                  && !Overflows(s.rows[e], op))
  {
    ReachableInv(cfg, s);
    AbandonedFacts(cfg, s, w, lease, op);
    var e := lease.snapshot.id;
    if e in s.rows {
      assert RowInv(cfg, s, e, s.rows[e]);
      assert Hits(s, w, e) && !Overflows(s.rows[e], op) ==> RunLate(s, w, lease, op, now).rows[e].status != Processing;
    }
  }

  predicate WithinThreshold(cfg: Settings, r: Row) {
    (r.status == DeadLetter <==> r.failedAttempts >= cfg.maxFailures) && r.failedAttempts <= cfg.maxFailures
  }

  ghost predicate ThresholdHolds(cfg: Settings, s: Sys) {
    forall e :: e in s.rows ==> WithinThreshold(cfg, s.rows[e])
  }

  /** A decision from an older snapshot is right for the row, unless it retries what was the last attempt. */
  lemma OldDecision(cfg: Settings, r: Row, snapshot: int, op: Op, now: int)
    requires r.status == Processing && 0 <= snapshot <= r.failedAttempts < cfg.maxFailures
    requires op == cfg.Decide(snapshot, OutcomeOf(op))
    ensures WithinThreshold(cfg, FinalRow(r, op, now)) <==> !(op.ToRetry? && r.failedAttempts + 1 == cfg.maxFailures)
  {
  }

  lemma ThresholdReached(cfg: Settings, s: Sys)
    requires cfg.Valid() && Reachable(cfg, s)
    ensures ThresholdHolds(cfg, s)
  {
    ReachableInv(cfg, s);
    forall o | o in s.rows ensures WithinThreshold(cfg, s.rows[o]) {
      assert RowInv(cfg, s, o, s.rows[o]);
    }
  }

  /** Only a late retry can break the dead-letter threshold, and it does exactly when it uses up the last attempt. */
  lemma LateStatementBreaksIff(cfg: Settings, s: Sys, w: WorkerId, lease: Lease, op: Op, now: int)
    requires cfg.Valid() && Reachable(cfg, s) && Abandoned(cfg, s, w, lease, op)
    ensures var e := lease.snapshot.id;
            !ThresholdHolds(cfg, RunLate(s, w, lease, op, now))
            <==> op.ToRetry? && Hits(s, w, e) && s.rows[e].failedAttempts + 1 == cfg.maxFailures <= INT4_MAX
  {
    AbandonedFacts(cfg, s, w, lease, op);
    ThresholdReached(cfg, s);
    var e := lease.snapshot.id;
    var t := RunLate(s, w, lease, op, now);
    if Hits(s, w, e) {
      assert WithinThreshold(cfg, s.rows[e]);
      OldDecision(cfg, s.rows[e], lease.snapshot.failedAttempts, op, now);
      assert t != s ==> t.rows[e] == FinalRow(s.rows[e], op, now);
    }
  }

  /** The publisher fails for worker w, and w stores the failure. */
  lemma FailClaimed(cfg: Settings, origin: Sys, s: Sys, w: WorkerId) returns (t: Sys)
    requires Reaches(cfg, origin, s) && s.rows.Keys == {1} && Alive(s, w) && s.workers[w].Claimed? && 1 in s.claims
    requires s.workers[w].lease.snapshot.id == 1 && s.workers[w].lease.snapshot.failedAttempts == s.rows[1].failedAttempts
    requires Hits(s, w, 1) && s.rows[1].failedAttempts + 1 < cfg.maxFailures <= INT4_MAX
    ensures Reaches(cfg, origin, t) && t.rows.Keys == {1} && 1 in t.claims
    ensures t.rows[1].status == Pending && t.rows[1].failedAttempts == s.rows[1].failedAttempts + 1
    ensures t.workers == s.workers[w := Idle] && t.crashed == s.crashed
  {
    t := Go(cfg, origin, s, ClaimReply(w));
    t := Go(cfg, origin, t, PublishReturn(w, PublishOutcome.Failed));
    t := Go(cfg, origin, t, FinalizeApply(w, t.clock));
  }

  /** Worker a gives up on storing a failure, and its lease runs out while worker b joins. */
  lemma GiveUp(cfg: Settings, before: Sys, n: int) returns (s: Sys)
    requires FailingAgain(cfg, before, n)
    ensures Reaches(cfg, Apply(cfg, before, FinalizeFail("a")), s)
    ensures s.rows == before.rows && 1 in s.claims && s.crashed == {} && Due(s.rows[1], s.clock)
    ensures s.workers == map["a" := Idle, "b" := Idle]
  {
    var origin := Apply(cfg, before, FinalizeFail("a"));
    ReachesSelf(cfg, origin);
    s := Go(cfg, origin, origin, Join("b"));
    var expiry := s.rows[1].lockedUntil.value;
    s := Go(cfg, origin, s, Tick(if expiry > s.clock then expiry else s.clock));
  }

  /** Worker b stores the next failure, and worker a claims the event again. */
  lemma GiveUpAndReclaim(cfg: Settings) returns (before: Sys, s: Sys)
    requires cfg.Valid() && 2 <= cfg.maxFailures <= INT4_MAX
    ensures FailingAgain(cfg, before, cfg.maxFailures - 2)
    ensures Reaches(cfg, Apply(cfg, before, FinalizeFail("a")), s)
    ensures Hits(s, "a", 1) && s.rows[1].failedAttempts == cfg.maxFailures - 1
  {
    s := FailTimes(cfg, cfg.maxFailures - 2);
    before := FailOnce(cfg, s, cfg.maxFailures - 2);
    var origin := Apply(cfg, before, FinalizeFail("a"));
    s := GiveUp(cfg, before, cfg.maxFailures - 2);
    s := ClaimOnly(cfg, origin, s, "b");
    s := FailClaimed(cfg, origin, s, "b");
    s := Go(cfg, origin, s, Tick(if s.rows[1].availableAt > s.clock then s.rows[1].availableAt else s.clock));
    s := ClaimOnly(cfg, origin, s, "a");
  }

  /**
   For every limit of at least two failures there is a run in which an abandoned retry, run late, leaves a pending row
   that has already used all its attempts.
   */
  lemma LateRetryBreaksThreshold(cfg: Settings) returns (s: Sys, lease: Lease, op: Op)
    requires cfg.Valid() && 2 <= cfg.maxFailures <= INT4_MAX
    ensures Reachable(cfg, s) && Abandoned(cfg, s, "a", lease, op)
    ensures var t := RunLate(s, "a", lease, op, s.clock);
            1 in t.rows && t.rows[1].status == Pending && t.rows[1].failedAttempts == cfg.maxFailures
  {
    var before;
    before, s := GiveUpAndReclaim(cfg);
    lease, op := before.workers["a"].lease, before.workers["a"].op;
    ReachesStep(cfg, before, FinalizeFail("a"));
    ReachesTrans(cfg, START, before, Apply(cfg, before, FinalizeFail("a")));
    ReachesTrans(cfg, START, Apply(cfg, before, FinalizeFail("a")), s);
  }

  /**
   So the settings under which late statements could break the threshold are exactly the limits from two up to the
   column's largest value.
   */
  lemma LateStatementsBreakThresholdIff(cfg: Settings)
    requires cfg.Valid()
    ensures (exists s, w, lease, op, now :: Reachable(cfg, s) && Abandoned(cfg, s, w, lease, op)
                                            && !ThresholdHolds(cfg, RunLate(s, w, lease, op, now)))
            <==> 2 <= cfg.maxFailures <= INT4_MAX
  {
    if 2 <= cfg.maxFailures <= INT4_MAX {
      var s, lease, op := LateRetryBreaksThreshold(cfg);
      var t := RunLate(s, "a", lease, op, s.clock);
      assert 1 in t.rows && t.rows[1].failedAttempts >= cfg.maxFailures;
    } else {
      forall s, w, lease, op, now | Reachable(cfg, s) && Abandoned(cfg, s, w, lease, op)
        ensures ThresholdHolds(cfg, RunLate(s, w, lease, op, now))
      {
        AbandonedFacts(cfg, s, w, lease, op);
        LateStatementBreaksIff(cfg, s, w, lease, op, now);
      }
    }
  }
}

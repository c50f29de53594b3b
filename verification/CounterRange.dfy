/**
 failed_attempts is a 32-bit column while the failure limit is a 64-bit setting. The column overflows in some run
 exactly when the limit exceeds the column's range; then the finalizing statement raises an error for ever.
 */
module CounterRange {
  import opened Wrappers
  import opened OutboxSchema
  import opened OutboxProtocol
  import opened OutboxInvariant

  /** A reachable state with one pending event that has failed n times and one idle worker. */
  ghost predicate FailedTimes(cfg: Settings, s: Sys, n: int) {
    && Reachable(cfg, s)
    && s.rows.Keys == {1} && s.rows[1].status == Pending && s.rows[1].failedAttempts == n && 1 in s.claims
    && s.workers == map["a" := Idle] && s.crashed == {}
  }

  /** The worker's next finalizing statement is on its way after one more failure of the publisher. */
  ghost predicate FailingAgain(cfg: Settings, s: Sys, n: int) {
    && Reachable(cfg, s)
    && s.rows.Keys == {1} && s.rows[1].failedAttempts == n
    && s.workers.Keys == {"a"} && s.crashed == {}
    && s.workers["a"].Finalizing? && s.workers["a"].lease.snapshot.id == 1 && s.workers["a"].issued == s.clock
    && s.workers["a"].op == cfg.Decide(n, PublishOutcome.Failed)
    && Hits(s, "a", 1) && s.rows[1].lockedUntil.Some? && 1 in s.claims
  }

  lemma Go(cfg: Settings, origin: Sys, s: Sys, l: Label) returns (t: Sys)
    requires Reaches(cfg, origin, s) && Enabled(s, l)
    ensures t == Apply(cfg, s, l) && Reaches(cfg, origin, t)
  {
    t := Apply(cfg, s, l);
    ReachesStep(cfg, s, l);
    ReachesTrans(cfg, origin, s, t);
  }

  /** A worker with nothing to do claims the only event, at the moment it is due. */
  lemma ClaimOnly(cfg: Settings, origin: Sys, s: Sys, w: WorkerId) returns (t: Sys)
    requires Reaches(cfg, origin, s) && s.rows.Keys == {1} && Alive(s, w) && s.workers[w].Idle? && 1 in s.claims
    requires Due(s.rows[1], s.clock)
    ensures Reaches(cfg, origin, t) && t.clock == s.clock
    ensures t.rows == map[1 := LeaseRow(s.rows[1], w, s.clock, cfg.lockTTL)]
    ensures t.workers == s.workers[w := Claimed(Lease(Snapshot(1, s.rows[1]), |s.claims[1]| + 1, s.clock, s.clock))]
    ensures t.crashed == s.crashed && t.calls == s.calls && t.answers == s.answers
    ensures t.claims == s.claims[1 := s.claims[1] + [ClaimRecord(w, s.clock)]]
  {
    t := Go(cfg, origin, s, ClaimIssue(w));
    assert IsNext(t.rows, t.clock, {}, 1);
    t := Go(cfg, origin, t, ClaimApply(w, t.clock, {}, Some(1)));
  }

  lemma Open(cfg: Settings) returns (s: Sys)
    ensures FailedTimes(cfg, s, 0)
  {
    ReachesSelf(cfg, START);
    s := Go(cfg, START, START, Insert(1, Claim(1, Triple("p", "c", "r"), 0), 0));
    s := Go(cfg, START, s, Join("a"));
  }

  lemma FailOnce(cfg: Settings, s: Sys, n: int) returns (t: Sys)
    requires FailedTimes(cfg, s, n)
    ensures FailingAgain(cfg, t, n)
  {
    t := Go(cfg, START, s, Tick(if s.rows[1].availableAt > s.clock then s.rows[1].availableAt else s.clock));
    t := ClaimOnly(cfg, START, t, "a");
    t := Go(cfg, START, t, ClaimReply("a"));
    t := Go(cfg, START, t, PublishReturn("a", PublishOutcome.Failed));
  }

  /** Any number of failures below the limit and inside the column's range is reached by some run. */
  lemma {:induction false} FailTimes(cfg: Settings, n: int) returns (s: Sys)
    requires cfg.Valid() && 0 <= n < cfg.maxFailures && n <= INT4_MAX
    ensures FailedTimes(cfg, s, n)
    decreases n
  {
    if n == 0 {
      s := Open(cfg);
    } else {
      s := FailTimes(cfg, n - 1);
      s := FailOnce(cfg, s, n - 1);
      s := Go(cfg, START, s, FinalizeApply("a", s.clock));
    }
  }

  /** Some run stores one failure too many for the column, if and only if the limit is beyond the column's range. */
  lemma OverflowIffLimitTooLarge(cfg: Settings)
    requires cfg.Valid()
    ensures (exists s, w :: Reachable(cfg, s) && w in s.workers && s.workers[w].Finalizing?
                            && Hits(s, w, s.workers[w].lease.snapshot.id)
                            && Overflows(s.rows[s.workers[w].lease.snapshot.id], s.workers[w].op))
            <==> cfg.maxFailures > 2147483647
  {
    if cfg.maxFailures > INT4_MAX {
      var s := FailTimes(cfg, INT4_MAX);
      var t := FailOnce(cfg, s, INT4_MAX);
      assert Overflows(t.rows[t.workers["a"].lease.snapshot.id], t.workers["a"].op);
    } else {
      forall s, w | Reachable(cfg, s) && w in s.workers && s.workers[w].Finalizing?
                    && Hits(s, w, s.workers[w].lease.snapshot.id)
        ensures !Overflows(s.rows[s.workers[w].lease.snapshot.id], s.workers[w].op)
      {
        ReachableInv(cfg, s);
        NoOverflow(cfg, s, w);
      }
    }
  }

  /** The limit is reached by some run whenever the column can hold it. */
  lemma DeadLetterReachable(cfg: Settings) returns (s: Sys)
    requires cfg.Valid() && cfg.maxFailures <= INT4_MAX
    ensures Reachable(cfg, s) && 1 in s.rows && s.rows[1].status == DeadLetter
    ensures s.rows[1].failedAttempts == cfg.maxFailures
  {
    s := FailTimes(cfg, cfg.maxFailures - 1);
    s := FailOnce(cfg, s, cfg.maxFailures - 1);
    s := Go(cfg, START, s, FinalizeApply("a", s.clock));
  }
}

/** What the invariant means for whoever operates the outbox: facts about every reachable state and every run. */
module OutboxTheorems {
  import opened OutboxSchema
  import opened OutboxProtocol
  import opened OutboxInvariant
  import Backoff

  // ---- the fence ---------------------------------------------------------------------------------------

  /**
   In every reachable state, a finalizing statement changes its row if and only if it was issued for the event's
   latest claim, and is answered with ErrLeaseLost, changing no row, exactly when a later claim exists.
   */
  lemma LeaseLostIffSuperseded(cfg: Settings, s: Sys, w: WorkerId, now: int)
    requires cfg.Valid() && Reachable(cfg, s) && Enabled(s, FinalizeApply(w, now))
    ensures var lease := s.workers[w].lease;
            var t := Apply(cfg, s, FinalizeApply(w, now));
            var f := t.finals[|s.finals|];
            && lease.snapshot.id in s.claims
            && (f.affected <==> lease.number == |s.claims[lease.snapshot.id]|)
            && (!f.affected <==> lease.number < |s.claims[lease.snapshot.id]|)
            && (f.affected ==> lease.snapshot.id in s.rows && t.rows == s.rows[lease.snapshot.id := FinalRow(s.rows[lease.snapshot.id], s.workers[w].op, now)])
            && (!f.affected ==> t.rows == s.rows)
  {
    ReachableInv(cfg, s);
    FenceIsNumber(cfg, s, w);
    assert WorkerInv(cfg, s, w, s.workers[w]);
  }

  /** A worker's own claims never take turns: it holds at most one lease, and that is its latest claim of the event. */
  lemma LeaseIsOwnLatestClaim(cfg: Settings, s: Sys, w: WorkerId, k: nat)
    requires cfg.Valid() && Reachable(cfg, s) && w in s.workers && s.workers[w].Leased()
    requires s.workers[w].lease.snapshot.id in s.claims
    requires 1 <= k <= |s.claims[s.workers[w].lease.snapshot.id]| && s.claims[s.workers[w].lease.snapshot.id][k - 1].worker == w
    ensures k <= s.workers[w].lease.number
  {
    ReachableInv(cfg, s);
    assert WorkerInv(cfg, s, w, s.workers[w]);
  }

  // ---- the failure counter -----------------------------------------------------------------------------

  /**
   The dead-letter threshold is exact although it is decided from a stale snapshot: only dead-lettered rows have
   used all attempts, and they have used exactly maxFailures; and the counter is the number of stored failures.
   */
  lemma ThresholdExact(cfg: Settings, s: Sys, e: EventId)
    requires cfg.Valid() && Reachable(cfg, s) && e in s.rows
    ensures s.rows[e].status == DeadLetter <==> s.rows[e].failedAttempts >= cfg.maxFailures
    ensures s.rows[e].status == DeadLetter ==> s.rows[e].failedAttempts == cfg.maxFailures
    ensures s.rows[e].failedAttempts == Failures(s.finals, e)
  {
    ReachableInv(cfg, s);
    assert RowInv(cfg, s, e, s.rows[e]);
  }

  /** All constraints of the table hold in every reachable state, so none of them ever rejects a statement. */
  lemma SchemaNeverRejects(cfg: Settings, s: Sys, l: Label)
    requires cfg.Valid() && Reachable(cfg, s) && Enabled(s, l)
    ensures forall e :: e in Apply(cfg, s, l).rows ==> SchemaOk(Apply(cfg, s, l).rows[e])
    ensures forall e :: e in s.rows ==>
                          (s.rows[e].lastFailureReason.None? <==> s.rows[e].failedAttempts == 0)
  {
    ReachableInv(cfg, s);
    StepKeepsInv(cfg, s, l);
    forall e | e in s.rows ensures s.rows[e].lastFailureReason.None? <==> s.rows[e].failedAttempts == 0 {
      assert RowInv(cfg, s, e, s.rows[e]);
    }
    var t := Apply(cfg, s, l);
    forall e | e in t.rows ensures SchemaOk(t.rows[e]) {
      assert RowInv(cfg, t, e, t.rows[e]);
    }
  }

  /**
   The counter of an event moves only when a stored publisher failure of that very event moves it, and then by one:
   not by shutdowns, lost leases, crashes, reclaims or statements that failed.
   */
  lemma OnlyStoredFailuresCount(cfg: Settings, s: Sys, l: Label, e: EventId)
    requires cfg.Valid() && Reachable(cfg, s) && Enabled(s, l) && e in s.rows && e in Apply(cfg, s, l).rows
    ensures e in s.claims
    ensures var t := Apply(cfg, s, l);
            t.rows[e].failedAttempts == s.rows[e].failedAttempts
              + (if l.FinalizeApply? && s.workers[l.worker].lease.snapshot.id == e
                    && s.workers[l.worker].lease.number == |s.claims[e]|
                    && s.workers[l.worker].op != ToPublished then 1 else 0)
  {
    ReachableInv(cfg, s);
    assert RowInv(cfg, s, e, s.rows[e]);
    match l
    case FinalizeApply(w, _) => FenceIsNumber(cfg, s, w);
    case ClaimApply(_, _, _, _) =>
    case _ =>
  }

  // ---- time --------------------------------------------------------------------------------------------

  /** The documented delays, min(base * 2^(k-1), max), summed over failures 1..n. */
  function DocumentedDelays(cfg: Settings, n: int): int
    decreases n
  {
    if n <= 0 then 0
    else DocumentedDelays(cfg, n - 1) + Backoff.CappedDoubling(cfg.baseBackoff, cfg.maxBackoff, n)
  }

  lemma {:induction false} DelaySumIsDocumented(cfg: Settings, n: int)
    requires cfg.Valid()
    ensures DelaySum(cfg, n) == DocumentedDelays(cfg, n)
    decreases n
  {
    if n > 0 {
      DelaySumIsDocumented(cfg, n - 1);
      Backoff.DelayIsCappedDoubling(cfg.baseBackoff, cfg.maxBackoff, n);
    }
  }

  /** No event is dead-lettered before all maxFailures - 1 retry delays have passed since it was created. */
  lemma EarliestDeadLetter(cfg: Settings, s: Sys, e: EventId)
    requires cfg.Valid() && Reachable(cfg, s) && e in s.rows && s.rows[e].status == DeadLetter
    ensures s.rows[e].deadLetteredAt.Some?
    ensures s.rows[e].deadLetteredAt.value - s.rows[e].createdAt >= DocumentedDelays(cfg, cfg.maxFailures - 1)
  {
    ReachableInv(cfg, s);
    assert RowInv(cfg, s, e, s.rows[e]);
    DelaySumIsDocumented(cfg, cfg.maxFailures - 1);
  }

  /** After the k-th stored failure, every later claim starts its lease at least the k-th delay later. */
  lemma NoClaimBeforeDelay(cfg: Settings, s: Sys, i: nat, j: nat)
    requires cfg.Valid() && Reachable(cfg, s)
    requires i < |s.finals| && s.finals[i].affected && s.finals[i].op.ToRetry? && s.finals[i].event in s.claims
    requires s.finals[i].number < j <= |s.claims[s.finals[i].event]|
    ensures var f := s.finals[i];
            var k := Failures(s.finals[..i + 1], f.event);
            s.claims[f.event][j - 1].now - f.now >= Backoff.CappedDoubling(cfg.baseBackoff, cfg.maxBackoff, k)
  {
    ReachableInv(cfg, s);
    assert FinalInv(cfg, s, i);
    Backoff.DelayIsCappedDoubling(cfg.baseBackoff, cfg.maxBackoff, Failures(s.finals[..i + 1], s.finals[i].event));
  }

  // ---- end states --------------------------------------------------------------------------------------

  /** A published row is backed by a publisher that returned nil for the event's latest claim. */
  lemma PublishedMeansPublisherSucceeded(cfg: Settings, s: Sys, e: EventId)
    requires cfg.Valid() && Reachable(cfg, s)
    requires (e in s.rows && s.rows[e].status == Published) || e in s.gone
    ensures e in s.claims && s.claims[e] != []
    ensures Return(e, |s.claims[e]|, Last(s.claims[e]).worker, Success) in s.answers
  {
    ReachableInv(cfg, s);
    assert if e in s.gone then RowInv(cfg, s, e, s.gone[e]) else RowInv(cfg, s, e, s.rows[e]);
  }

  lemma TerminalStep(cfg: Settings, s: Sys, l: Label, e: EventId)
    requires e in s.claims && Enabled(s, l) && e in s.rows && Terminal(s.rows[e])
    ensures var u := Apply(cfg, s, l);
            || (e in u.rows && u.rows[e] == s.rows[e])
            || (e in u.gone && u.gone[e] == s.rows[e] && e !in u.rows && s.rows[e].status == Published)
  {
  }

  /** Once published or dead-lettered, a row never changes again; retention removes only published rows. */
  lemma {:induction false} TerminalAbsorbs(cfg: Settings, s: Sys, ls: seq<Label>, t: Sys, e: EventId)
    requires cfg.Valid() && Inv(cfg, s) && Runs(cfg, s, ls, t)
    requires e in s.rows && Terminal(s.rows[e])
    ensures (e in t.rows && t.rows[e] == s.rows[e])
            || (e in t.gone && t.gone[e] == s.rows[e] && s.rows[e].status == Published)
    decreases |ls|
  {
    if ls != [] {
      var u := Apply(cfg, s, ls[0]);
      StepKeepsInv(cfg, s, ls[0]);
      assert RowInv(cfg, s, e, s.rows[e]);
      TerminalStep(cfg, s, ls[0], e);
      if e in u.rows {
        TerminalAbsorbs(cfg, u, ls[1..], t, e);
      } else {
        GoneStays(cfg, u, ls[1..], t, e);
      }
    }
  }

  lemma {:induction false} GoneStays(cfg: Settings, s: Sys, ls: seq<Label>, t: Sys, e: EventId)
    requires cfg.Valid() && Inv(cfg, s) && Runs(cfg, s, ls, t) && e in s.gone
    ensures e in t.gone && t.gone[e] == s.gone[e]
    decreases |ls|
  {
    if ls != [] {
      StepKeepsInv(cfg, s, ls[0]);
      GoneStays(cfg, Apply(cfg, s, ls[0]), ls[1..], t, e);
    }
  }

  // ---- draining ----------------------------------------------------------------------------------------

  /** The claim numbers 1..n. */
  function Numbers(n: nat): (r: set<nat>)
    ensures |r| == n && forall k :: k in r <==> 1 <= k <= n
  {
    if n == 0 then {} else
    assert n !in Numbers(n - 1);
    Numbers(n - 1) + {n}
  }

  /** The claims of e whose outcome was stored. */
  function StoredNumbers(finals: seq<Final>, e: EventId): set<nat> {
    if finals == [] then {} else
    var f := finals[|finals| - 1];
    StoredNumbers(finals[..|finals| - 1], e) + (if f.affected && f.event == e then {f.number} else {})
  }

  lemma {:induction false} StoredHasFinal(finals: seq<Final>, e: EventId, k: nat) returns (i: nat)
    requires k in StoredNumbers(finals, e)
    ensures i < |finals| && finals[i].affected && finals[i].event == e && finals[i].number == k
  {
    i := |finals| - 1;
    if !(finals[i].affected && finals[i].event == e && finals[i].number == k) {
      i := StoredHasFinal(finals[..i], e, k);
    }
  }

  /** The claims of e, by number, that ended, or may still end, without a stored outcome. */
  function Unstored(s: Sys, e: EventId): set<nat>
    requires e in s.claims
  {
    Numbers(|s.claims[e]|) - StoredNumbers(s.finals, e)
  }

  /** As no claim stores two outcomes, counting outcomes counts claims. */
  lemma {:induction false} StoredCount(finals: seq<Final>, e: EventId)
    requires OncePerClaim(finals)
    ensures |StoredNumbers(finals, e)| == Persisted(finals, e)
  {
    if finals != [] {
      var n := |finals| - 1;
      var f := finals[n];
      StoredCount(finals[..n], e);
      if f.affected && f.event == e && f.number in StoredNumbers(finals[..n], e) {
        var i := StoredHasFinal(finals[..n], e, f.number);
        assert false;
      }
    }
  }

  /** An event is claimed at most maxFailures times, plus once for every claim that stored no outcome. */
  lemma ClaimsBounded(cfg: Settings, s: Sys, e: EventId)
    requires cfg.Valid() && Reachable(cfg, s) && e in s.claims
    ensures |s.claims[e]| <= cfg.maxFailures + |Unstored(s, e)|
  {
    ReachableInv(cfg, s);
    var all := Numbers(|s.claims[e]|);
    StoredCount(s.finals, e);
    assert if e in s.rows then RowInv(cfg, s, e, s.rows[e]) else RowInv(cfg, s, e, s.gone[e]);
    forall k | k in StoredNumbers(s.finals, e) ensures k in all {
      var i := StoredHasFinal(s.finals, e, k);
      assert FinalInv(cfg, s, i);
    }
    assert |all - StoredNumbers(s.finals, e)| == |all| - |all * StoredNumbers(s.finals, e)|;
    assert all * StoredNumbers(s.finals, e) == StoredNumbers(s.finals, e);
  }

  /** Sums over the events with an id below the bound. */
  function TotalClaims(s: Sys, bound: nat): nat {
    if bound == 0 then 0
    else TotalClaims(s, bound - 1) + (if bound - 1 in s.claims then |s.claims[bound - 1]| else 0)
  }

  function TotalUnstored(s: Sys, bound: nat): nat {
    if bound == 0 then 0
    else TotalUnstored(s, bound - 1) + (if bound - 1 in s.claims then |Unstored(s, bound - 1)| else 0)
  }

  function EventCount(s: Sys, bound: nat): nat {
    if bound == 0 then 0
    else EventCount(s, bound - 1) + (if bound - 1 in s.claims then 1 else 0)
  }

  /** N events with c claims that stored no outcome see at most N * maxFailures + c claims in all. */
  lemma {:induction false} TotalClaimsBounded(cfg: Settings, s: Sys, bound: nat)
    requires cfg.Valid() && Reachable(cfg, s)
    ensures TotalClaims(s, bound) <= EventCount(s, bound) * cfg.maxFailures + TotalUnstored(s, bound)
  {
    if bound > 0 {
      TotalClaimsBounded(cfg, s, bound - 1);
      if bound - 1 in s.claims {
        ClaimsBounded(cfg, s, bound - 1);
        Distribute(EventCount(s, bound - 1), cfg.maxFailures);
      }
    }
  }

  lemma Distribute(n: nat, m: int)
    ensures (n + 1) * m == n * m + m
  {
  }

  // ---- fairness ----------------------------------------------------------------------------------------

  /** The rows that are neither published nor dead-lettered and are ordered before e. */
  function NonTerminalBefore(s: Sys, e: EventId): set<EventId>
    requires e in s.rows
  {
    set o | o in s.rows && !Terminal(s.rows[o]) && Before(s.rows[o], o, s.rows[e], e)
  }

  /** The row's holder is about to finalize it, by a statement that was issued before e fell due. */
  predicate MayReturn(s: Sys, o: EventId, e: EventId)
    requires o in s.rows && e in s.rows
  {
    && s.rows[o].status == Processing && s.rows[o].lockedBy.Some?
    && s.rows[o].lockedBy.value in s.workers
    && var p := s.workers[s.rows[o].lockedBy.value];
       p.Finalizing? && p.lease.snapshot.id == o && p.issued < s.rows[e].availableAt
  }

  /** The rows that can still be claimed before e: the pending ones, and those that a statement in flight may return. */
  function Ahead(s: Sys, e: EventId): set<EventId>
    requires e in s.rows
  {
    set o | o in s.rows && Before(s.rows[o], o, s.rows[e], e) && (s.rows[o].status == Pending || MayReturn(s, o, e))
  }

  /** A run in which e stays pending: it is not claimed. */
  ghost predicate Waiting(cfg: Settings, s: Sys, ls: seq<Label>, t: Sys, e: EventId)
    decreases |ls|
  {
    && e in s.rows && s.rows[e].status == Pending
    && if ls == [] then s == t else Enabled(s, ls[0]) && Waiting(cfg, Apply(cfg, s, ls[0]), ls[1..], t, e)
  }

  predicate IsClaim(l: Label) {
    l.ClaimApply? && l.picked.Some?
  }

  /** The claims of other events in a run. */
  function Overtakes(ls: seq<Label>): nat {
    if ls == [] then 0 else (if IsClaim(ls[0]) then 1 else 0) + Overtakes(ls[1..])
  }

  /**
   A step that no order of the rows can bound: a claim that finds e locked, a claim that takes over an expired lease,
   or a new row that is ordered before e, having been written by a transaction that began before e fell due.
   */
  predicate Disturbs(s: Sys, l: Label, e: EventId)
    requires e in s.rows && Enabled(s, l)
  {
    || (IsClaim(l) && (e in l.skipped || s.rows[l.picked.value].status == Processing))
    || (l.Insert? && Before(NewRow(l.id, l.claim, l.now), l.id, s.rows[e], e))
  }

  function Disturbances(cfg: Settings, s: Sys, ls: seq<Label>, t: Sys, e: EventId): nat
    requires Waiting(cfg, s, ls, t, e)
    decreases |ls|
  {
    if ls == [] then 0
    else (if Disturbs(s, ls[0], e) then 1 else 0) + Disturbances(cfg, Apply(cfg, s, ls[0]), ls[1..], t, e)
  }

  /** A claim that neither finds e locked nor takes over a lease takes a row that was ahead of e, due or not. */
  lemma WaitingClaim(cfg: Settings, s: Sys, l: Label, e: EventId)
    requires Enabled(s, l) && IsClaim(l)
    requires e in s.rows && s.rows[e].status == Pending && e != l.picked.value
    ensures var u := Apply(cfg, s, l);
            && e in u.rows && u.rows[e] == s.rows[e]
            && Ahead(u, e) <= Ahead(s, e)
            && (!Disturbs(s, l, e) ==> Ahead(u, e) < Ahead(s, e))
  {
    var u := Apply(cfg, s, l);
    if !Disturbs(s, l, e) {
      assert s.rows[e].availableAt <= l.now ==> Due(s.rows[e], l.now);
      assert l.picked.value in Ahead(s, e) && l.picked.value !in Ahead(u, e);
    }
  }

  /**
   A finalized row leaves the rows ahead of e for good or is retried at a time past e, unless its statement had been
   issued before e fell due; then it had counted as ahead of e already.
   */
  lemma WaitingFinal(cfg: Settings, s: Sys, l: Label, e: EventId)
    requires cfg.Valid() && Inv(cfg, s) && Enabled(s, l) && l.FinalizeApply?
    requires e in s.rows && s.rows[e].status == Pending
    ensures var u := Apply(cfg, s, l);
            && e in u.rows && u.rows[e] == s.rows[e]
            && Ahead(u, e) <= Ahead(s, e)
  {
    var u := Apply(cfg, s, l);
    var p := s.workers[l.worker];
    forall o | o in Ahead(u, e) ensures o in Ahead(s, e) {
      if o == p.lease.snapshot.id && Hits(s, l.worker, o) {
        ReturnedWasAhead(cfg, s, l.worker, l.now, e);
      }
    }
  }

  /** A row that a finalizing statement puts back before e was before e when it was claimed. */
  lemma ReturnedWasAhead(cfg: Settings, s: Sys, w: WorkerId, now: int, e: EventId)
    requires cfg.Valid() && Inv(cfg, s) && Enabled(s, FinalizeApply(w, now)) && e in s.rows
    requires Hits(s, w, s.workers[w].lease.snapshot.id)
    requires var o := s.workers[w].lease.snapshot.id;
             var r := FinalRow(s.rows[o], s.workers[w].op, now);
             r.status == Pending && Before(r, o, s.rows[e], e)
    ensures s.workers[w].lease.snapshot.id in Ahead(s, e)
  {
    var p := s.workers[w];
    var o := p.lease.snapshot.id;
    assert WorkerInv(cfg, s, w, p);
    assert RowInv(cfg, s, o, s.rows[o]);
    FenceIsNumber(cfg, s, w);
    Backoff.DelayIsCappedDoubling(cfg.baseBackoff, cfg.maxBackoff, p.lease.snapshot.failedAttempts + 1);
    assert p.op.ToRetry? && p.op.delay > 0;
  }

  /** No other step puts a row ahead of e, except a new row that is ordered before it. */
  lemma WaitingOther(cfg: Settings, s: Sys, l: Label, e: EventId)
    requires Inv(cfg, s) && Enabled(s, l) && !IsClaim(l) && !l.FinalizeApply?
    requires e in s.rows && s.rows[e].status == Pending && s.rows[e].availableAt <= s.clock
    ensures var u := Apply(cfg, s, l);
            && e in u.rows && u.rows[e] == s.rows[e]
            && Ahead(u, e) <= Ahead(s, e) + (if Disturbs(s, l, e) then {l.id} else {})
  {
    if l.Insert? {
      assert RowInv(cfg, s, e, s.rows[e]);
    } else if !l.CleanUp? {
      PhasesPutNothingAhead(cfg, s, l, e);
    }
  }

  /** A worker that begins to finalize now begins after e fell due. */
  lemma PhasesPutNothingAhead(cfg: Settings, s: Sys, l: Label, e: EventId)
    requires Enabled(s, l) && !IsClaim(l) && !l.FinalizeApply? && !l.Insert? && !l.CleanUp?
    requires e in s.rows && s.rows[e].availableAt <= s.clock
    ensures Apply(cfg, s, l).rows == s.rows && Ahead(Apply(cfg, s, l), e) <= Ahead(s, e)
  {
    var u := Apply(cfg, s, l);
    assert u.rows == s.rows;
    forall o | o in Ahead(u, e) ensures o in Ahead(s, e) {
      assert MayReturn(u, o, e) ==> MayReturn(s, o, e);
    }
  }

  /** One step of the window: a claim uses up a row ahead of e, unless it disturbs, and only a disturbance adds one. */
  lemma WaitingStep(cfg: Settings, s: Sys, l: Label, e: EventId)
    requires cfg.Valid() && Inv(cfg, s) && Enabled(s, l)
    requires e in s.rows && s.rows[e].status == Pending && s.rows[e].availableAt <= s.clock
    requires e in Apply(cfg, s, l).rows && Apply(cfg, s, l).rows[e].status == Pending
    ensures var u := Apply(cfg, s, l);
            && u.rows[e] == s.rows[e] && s.clock <= u.clock
            && |Ahead(u, e)| + (if IsClaim(l) then 1 else 0) <= |Ahead(s, e)| + (if Disturbs(s, l, e) then 1 else 0)
  {
    var u := Apply(cfg, s, l);
    if IsClaim(l) {
      WaitingClaim(cfg, s, l, e);
      SubsetSize(Ahead(u, e), Ahead(s, e));
    } else if l.FinalizeApply? {
      WaitingFinal(cfg, s, l, e);
      SubsetSize(Ahead(u, e), Ahead(s, e));
    } else {
      WaitingOther(cfg, s, l, e);
      SubsetSize(Ahead(u, e), Ahead(s, e) + (if Disturbs(s, l, e) then {l.id} else {}));
    }
  }

  lemma {:induction false} OvertakingCounted(cfg: Settings, s: Sys, ls: seq<Label>, t: Sys, e: EventId)
    requires cfg.Valid() && Inv(cfg, s) && Waiting(cfg, s, ls, t, e) && s.rows[e].availableAt <= s.clock
    ensures e in t.rows && Overtakes(ls) + |Ahead(t, e)| <= |Ahead(s, e)| + Disturbances(cfg, s, ls, t, e)
    decreases |ls|
  {
    if ls != [] {
      WaitingStep(cfg, s, ls[0], e);
      StepKeepsInv(cfg, s, ls[0]);
      OvertakingCounted(cfg, Apply(cfg, s, ls[0]), ls[1..], t, e);
    }
  }

  /** Whatever may still be claimed before e is ordered before it now and has not ended. */
  lemma AheadIsBefore(cfg: Settings, s: Sys, e: EventId)
    requires e in s.rows
    ensures |Ahead(s, e)| <= |NonTerminalBefore(s, e)|
  {
    SubsetSize(Ahead(s, e), NonTerminalBefore(s, e));
  }

  /**
   In every run from the moment an event is due until it is claimed, the claims of other events number at most the
   rows, neither published nor dead-lettered, that were then ordered before it, plus one for each claim that found it
   locked or took over an expired lease and for each new row ordered before it. Statements may be in flight at that
   moment: what they put back ahead of the event was ahead of it before.
   */
  lemma BoundedOvertaking(cfg: Settings, s: Sys, ls: seq<Label>, t: Sys, e: EventId)
    requires cfg.Valid() && Inv(cfg, s) && Waiting(cfg, s, ls, t, e) && s.rows[e].availableAt <= s.clock
    ensures Overtakes(ls) <= |NonTerminalBefore(s, e)| + Disturbances(cfg, s, ls, t, e)
  {
    OvertakingCounted(cfg, s, ls, t, e);
    AheadIsBefore(cfg, s, e);
  }

  lemma {:induction false} SubsetSize<T>(a: set<T>, b: set<T>)
    requires a <= b
    ensures |a| <= |b| && (a < b ==> |a| < |b|)
  {
    if a != {} {
      var x :| x in a;
      SubsetSize(a - {x}, b - {x});
    }
  }
}

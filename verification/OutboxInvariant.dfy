/**
 The inductive invariant of the worker protocol. It relates three views that the code never compares:
 the row's own counter and fence columns, the worker's stale snapshot, and the numbered claim history.
 Each clause is a predicate over one event's slice of the state, so a step that leaves the slice alone
 leaves the clause alone.
 */
module OutboxInvariant {
  import opened Wrappers
  import opened OutboxSchema
  import opened OutboxProtocol
  import Backoff

  /** The delays a row must have waited through once n of its failures are stored. */
  function DelaySum(cfg: Settings, n: int): int
    decreases n
  {
    if n <= 0 then 0 else DelaySum(cfg, n - 1) + cfg.Delay(n)
  }

  /** How many publisher failures of e the run has stored. */
  function Failures(finals: seq<Final>, e: EventId): nat {
    if finals == [] then 0 else
    var f := finals[|finals| - 1];
    Failures(finals[..|finals| - 1], e) + (if f.affected && f.event == e && !f.op.ToPublished? then 1 else 0)
  }

  /** How many finalizing statements of e took effect. */
  function Persisted(finals: seq<Final>, e: EventId): nat {
    if finals == [] then 0 else
    var f := finals[|finals| - 1];
    Persisted(finals[..|finals| - 1], e) + (if f.affected && f.event == e then 1 else 0)
  }

  /** The publisher's outcome that led to this statement. */
  function OutcomeOf(op: Op): PublishOutcome {
    if op.ToPublished? then Success else op.outcome
  }

  function Last(history: seq<ClaimRecord>): ClaimRecord
    requires history != []
  {
    history[|history| - 1]
  }

  /** A row against the history of its event: its claims, its stored outcomes, the publisher's answers. */
  predicate RowFacts(cfg: Settings, e: EventId, r: Row, history: seq<ClaimRecord>, failures: nat, persisted: nat,
                     answers: set<Return>)
  {
    && SchemaOk(r)
    && r.payload.eventId == e && r.payload.claim.id == r.aggregateId
    && (if r.status == DeadLetter then r.failedAttempts == cfg.maxFailures
        else 0 <= r.failedAttempts < cfg.maxFailures)
    && r.failedAttempts == failures
    && persisted == failures + (if r.status == Published then 1 else 0)
    && DelaysServed(cfg, r)
    && (r.status == Processing ==> HeldByLast(cfg, r, history))
    && (r.status == Published ==> history != [] && Return(e, |history|, Last(history).worker, Success) in answers)
  }

  predicate DelaysServed(cfg: Settings, r: Row) {
    && r.createdAt + DelaySum(cfg, if r.status == DeadLetter then r.failedAttempts - 1 else r.failedAttempts)
       <= r.availableAt
    && (r.status == DeadLetter && r.deadLetteredAt.Some? ==> r.availableAt <= r.deadLetteredAt.value)
  }

  predicate HeldByLast(cfg: Settings, r: Row, history: seq<ClaimRecord>) {
    && history != []
    && r.lockedBy == Some(Last(history).worker)
    && r.lockedUntil == Some(Last(history).now + cfg.lockTTL)
    && r.availableAt <= Last(history).now
  }

  ghost predicate RowInv(cfg: Settings, s: Sys, e: EventId, r: Row) {
    && e in s.claims
    && RowFacts(cfg, e, r, s.claims[e], Failures(s.finals, e), Persisted(s.finals, e), s.answers)
  }

  /** A lease names one of its worker's own claims, and the worker has made no later claim of that event. */
  predicate LeaseFacts(w: WorkerId, lease: Lease, history: seq<ClaimRecord>, clock: int) {
    && 1 <= lease.number <= |history|
    && history[lease.number - 1] == ClaimRecord(w, lease.now)
    && (forall j :: lease.number <= j < |history| ==> history[j].worker != w)
    && lease.issued <= lease.now <= clock
  }

  /** While the lease is the latest, the row is still being processed and still has the snapshot's counter. */
  predicate LeaseCurrent(s: Sys, lease: Lease) {
    && lease.snapshot.id in s.claims
    && (lease.number == |s.claims[lease.snapshot.id]| ==>
          && lease.snapshot.id in s.rows
          && s.rows[lease.snapshot.id].status == Processing
          && s.rows[lease.snapshot.id].failedAttempts == lease.snapshot.failedAttempts)
  }

  predicate PhaseFacts(cfg: Settings, w: WorkerId, p: Phase, clock: int, answers: set<Return>) {
    && 1 <= |w| <= MAX_WORKER_ID
    && (p.Claiming? ==> p.issued <= clock)
    && (p.Leased() ==> 0 <= p.lease.snapshot.failedAttempts < cfg.maxFailures)
    && (p.Publishing? ==> p.lease.now <= p.started <= clock)
    && (p.Finalizing? ==>
          && p.lease.now <= p.issued <= clock
          && p.op == cfg.Decide(p.lease.snapshot.failedAttempts, OutcomeOf(p.op))
          && Return(p.lease.snapshot.id, p.lease.number, w, OutcomeOf(p.op)) in answers)
  }

  ghost predicate WorkerInv(cfg: Settings, s: Sys, w: WorkerId, p: Phase) {
    && PhaseFacts(cfg, w, p, s.clock, s.answers)
    && (p.Leased() ==> LeaseCurrent(s, p.lease) && LeaseFacts(w, p.lease, s.claims[p.lease.snapshot.id], s.clock))
  }

  /** A finalizing statement belongs to a numbered claim whose publish call returned its outcome. */
  predicate FinalFacts(f: Final, history: seq<ClaimRecord>, answers: set<Return>) {
    && 1 <= f.number <= |history|
    && history[f.number - 1].worker == f.worker
    && Return(f.event, f.number, f.worker, OutcomeOf(f.op)) in answers
  }

  /** A stored retry used the delay of its ordinal, and no later claim came before that delay was over. */
  predicate RetryFacts(cfg: Settings, f: Final, ordinal: nat, history: seq<ClaimRecord>)
    requires f.op.ToRetry?
  {
    && f.op.delay == cfg.Delay(ordinal)
    && (forall j :: f.number <= j < |history| ==> f.now + f.op.delay <= history[j].now)
  }

  /** What a stored outcome says of the row as it is now. */
  predicate StoredFacts(f: Final, r: Row, history: seq<ClaimRecord>) {
    && (r.status == Processing ==> f.number < |history|)
    && (f.op.ToRetry? ==> f.now + f.op.delay <= r.availableAt)
  }

  ghost predicate FinalInv(cfg: Settings, s: Sys, i: nat)
    requires i < |s.finals|
  {
    var f := s.finals[i];
    && f.event in s.claims
    && FinalFacts(f, s.claims[f.event], s.answers)
    && (f.affected && f.op.ToRetry? ==>
          RetryFacts(cfg, f, Failures(s.finals[..i + 1], f.event), s.claims[f.event]))
    && (f.affected && f.event in s.rows ==> StoredFacts(f, s.rows[f.event], s.claims[f.event]))
  }

  /** Each claim stores at most one outcome, and stored outcomes follow the order of the claims. */
  ghost predicate OncePerClaim(finals: seq<Final>) {
    forall i, j :: (0 <= i < j < |finals| && finals[i].affected && finals[j].affected
                    && finals[i].event == finals[j].event) ==> finals[i].number < finals[j].number
  }

  ghost predicate RowsInv(cfg: Settings, s: Sys) {
    && s.claims.Keys == s.rows.Keys + s.gone.Keys
    && s.rows.Keys !! s.gone.Keys
    && (forall e :: e in s.rows ==> RowInv(cfg, s, e, s.rows[e]))
    && (forall e :: e in s.gone ==> RowInv(cfg, s, e, s.gone[e]) && s.gone[e].status == Published)
  }

  ghost predicate WorkersInv(cfg: Settings, s: Sys) {
    forall w :: w in s.workers ==> WorkerInv(cfg, s, w, s.workers[w])
  }

  ghost predicate FinalsInv(cfg: Settings, s: Sys) {
    && OncePerClaim(s.finals)
    && (forall i :: 0 <= i < |s.finals| ==> FinalInv(cfg, s, i))
  }

  ghost predicate CallsInv(s: Sys) {
    forall i :: 0 <= i < |s.calls| ==> s.calls[i].id in s.claims
  }

  ghost predicate Inv(cfg: Settings, s: Sys) {
    RowsInv(cfg, s) && WorkersInv(cfg, s) && FinalsInv(cfg, s) && CallsInv(s)
  }

  lemma StartInv(cfg: Settings)
    ensures Inv(cfg, START)
  {
  }

  /** No outcome of an event that has none. */
  lemma {:induction false} NoFinals(finals: seq<Final>, e: EventId)
    requires forall i :: 0 <= i < |finals| ==> finals[i].event != e
    ensures Failures(finals, e) == 0 && Persisted(finals, e) == 0
  {
    if finals != [] {
      NoFinals(finals[..|finals| - 1], e);
    }
  }

  lemma AppendFinal(finals: seq<Final>, f: Final, e: EventId)
    ensures Failures(finals + [f], e)
            == Failures(finals, e) + (if f.affected && f.event == e && !f.op.ToPublished? then 1 else 0)
    ensures Persisted(finals + [f], e) == Persisted(finals, e) + (if f.affected && f.event == e then 1 else 0)
  {
    assert (finals + [f])[..|finals|] == finals;
  }

  // ---- steps of one worker or of the clock ----------------------------------------------------------

  /** What a step that leaves rows, claim histories and stored outcomes alone can change. */
  predicate OnlyPhases(s: Sys, t: Sys) {
    && t.rows == s.rows && t.gone == s.gone && t.claims == s.claims && t.finals == s.finals
    && s.clock <= t.clock && s.answers <= t.answers
  }

  lemma PhasesKeepRows(cfg: Settings, s: Sys, t: Sys)
    requires Inv(cfg, s) && OnlyPhases(s, t)
    ensures RowsInv(cfg, t) && FinalsInv(cfg, t)
  {
    forall e | e in t.rows ensures RowInv(cfg, t, e, t.rows[e]) {
      assert RowInv(cfg, s, e, s.rows[e]);
    }
    forall e | e in t.gone ensures RowInv(cfg, t, e, t.gone[e]) && t.gone[e].status == Published {
      assert RowInv(cfg, s, e, s.gone[e]);
    }
    forall i | 0 <= i < |t.finals| ensures FinalInv(cfg, t, i) {
      assert FinalInv(cfg, s, i);
    }
  }

  lemma PhaseCarries(cfg: Settings, s: Sys, t: Sys, w: WorkerId, p: Phase)
    requires WorkerInv(cfg, s, w, p) && OnlyPhases(s, t)
    ensures WorkerInv(cfg, t, w, p)
  {
  }

  lemma PhasesKeepInv(cfg: Settings, s: Sys, t: Sys, w: WorkerId)
    requires Inv(cfg, s) && OnlyPhases(s, t) && CallsInv(t)
    requires w in t.workers && t.workers == s.workers[w := t.workers[w]]
    requires WorkerInv(cfg, t, w, t.workers[w])
    ensures Inv(cfg, t)
  {
    PhasesKeepRows(cfg, s, t);
    forall o | o in t.workers ensures WorkerInv(cfg, t, o, t.workers[o]) {
      if o != w {
        PhaseCarries(cfg, s, t, o, s.workers[o]);
      }
    }
  }

  lemma QuietKeepsInv(cfg: Settings, s: Sys, l: Label)
    requires Inv(cfg, s) && Enabled(s, l) && (l.Tick? || l.Crash?)
    ensures Inv(cfg, Apply(cfg, s, l))
  {
    var t := Apply(cfg, s, l);
    PhasesKeepRows(cfg, s, t);
    forall o | o in t.workers ensures WorkerInv(cfg, t, o, t.workers[o]) {
      PhaseCarries(cfg, s, t, o, s.workers[o]);
    }
  }

  /** A worker gives up what it was doing. */
  predicate GivesUp(s: Sys, t: Sys, w: WorkerId) {
    w in s.workers && s.answers <= t.answers && t == s.(workers := s.workers[w := Idle], answers := t.answers)
  }

  lemma GivingUpKeepsInv(cfg: Settings, s: Sys, t: Sys, w: WorkerId)
    requires Inv(cfg, s) && GivesUp(s, t, w)
    ensures Inv(cfg, t)
  {
    assert WorkerInv(cfg, s, w, s.workers[w]);
    PhasesKeepInv(cfg, s, t, w);
  }

  lemma IdleKeepsInv(cfg: Settings, s: Sys, l: Label)
    requires Inv(cfg, s) && Enabled(s, l)
    requires l.ClaimLost? || l.FinalizeFail? || l.PublishAbandon? || (l.ClaimApply? && l.picked.None?)
    ensures Inv(cfg, Apply(cfg, s, l))
  {
    assert GivesUp(s, Apply(cfg, s, l), l.worker);
    GivingUpKeepsInv(cfg, s, Apply(cfg, s, l), l.worker);
  }

  lemma LocalKeepsInv(cfg: Settings, s: Sys, l: Label)
    requires Inv(cfg, s) && Enabled(s, l)
    requires l.Join? || l.ClaimIssue? || l.ClaimReply?
    ensures Inv(cfg, Apply(cfg, s, l))
  {
    var t := Apply(cfg, s, l);
    if !l.Join? {
      PhaseCarries(cfg, s, t, l.worker, s.workers[l.worker]);
    }
    PhasesKeepInv(cfg, s, t, l.worker);
  }

  lemma ReturnKeepsInv(cfg: Settings, s: Sys, l: Label)
    requires Inv(cfg, s) && Enabled(s, l) && l.PublishReturn?
    ensures Inv(cfg, Apply(cfg, s, l))
  {
    var t := Apply(cfg, s, l);
    PhaseCarries(cfg, s, t, l.worker, s.workers[l.worker]);
    assert OutcomeOf(t.workers[l.worker].op) == l.outcome;
    PhasesKeepInv(cfg, s, t, l.worker);
  }

  // ---- the table gains or loses a row -----------------------------------------------------------------

  /** A freshly inserted row has waited for nothing, failed nowhere and belongs to nobody. */
  lemma NewRowFacts(cfg: Settings, id: EventId, claim: Claim, now: int, answers: set<Return>)
    requires cfg.Valid()
    ensures RowFacts(cfg, id, NewRow(id, claim, now), [], 0, 0, answers)
  {
  }

  lemma InsertKeepsFinals(cfg: Settings, s: Sys, l: Label)
    requires Inv(cfg, s) && Enabled(s, l) && l.Insert?
    ensures FinalsInv(cfg, Apply(cfg, s, l)) && Failures(s.finals, l.id) == 0 && Persisted(s.finals, l.id) == 0
  {
    var t := Apply(cfg, s, l);
    forall i | 0 <= i < |s.finals| ensures FinalInv(cfg, t, i) && s.finals[i].event != l.id {
      assert FinalInv(cfg, s, i);
    }
    NoFinals(s.finals, l.id);
  }

  lemma InsertKeepsGone(cfg: Settings, s: Sys, l: Label)
    requires RowsInv(cfg, s) && Enabled(s, l) && l.Insert?
    ensures var t := Apply(cfg, s, l);
            forall e :: e in t.gone ==> RowInv(cfg, t, e, t.gone[e]) && t.gone[e].status == Published
  {
    var t := Apply(cfg, s, l);
    forall e | e in t.gone ensures RowInv(cfg, t, e, t.gone[e]) && t.gone[e].status == Published {
      assert RowInv(cfg, s, e, s.gone[e]);
    }
  }

  lemma InsertKeepsRows(cfg: Settings, s: Sys, l: Label)
    requires cfg.Valid() && RowsInv(cfg, s) && Enabled(s, l) && l.Insert?
    requires Failures(s.finals, l.id) == 0 && Persisted(s.finals, l.id) == 0
    ensures RowsInv(cfg, Apply(cfg, s, l))
  {
    var t := Apply(cfg, s, l);
    NewRowFacts(cfg, l.id, l.claim, l.now, t.answers);
    InsertKeepsGone(cfg, s, l);
    forall e | e in t.rows && e != l.id ensures RowInv(cfg, t, e, t.rows[e]) {
      assert RowInv(cfg, s, e, s.rows[e]);
    }
  }

  lemma InsertKeepsWorkers(cfg: Settings, s: Sys, l: Label)
    requires WorkersInv(cfg, s) && CallsInv(s) && Enabled(s, l) && l.Insert?
    ensures WorkersInv(cfg, Apply(cfg, s, l)) && CallsInv(Apply(cfg, s, l))
  {
    var t := Apply(cfg, s, l);
    forall w | w in t.workers ensures WorkerInv(cfg, t, w, t.workers[w]) {
      assert WorkerInv(cfg, s, w, s.workers[w]);
    }
  }

  lemma CleanUpKeepsWorkers(cfg: Settings, s: Sys, l: Label)
    requires Inv(cfg, s) && Enabled(s, l) && l.CleanUp?
    ensures WorkersInv(cfg, Apply(cfg, s, l)) && FinalsInv(cfg, Apply(cfg, s, l))
  {
    var t := Apply(cfg, s, l);
    forall i | 0 <= i < |s.finals| ensures FinalInv(cfg, t, i) {
      assert FinalInv(cfg, s, i);
    }
    forall w | w in t.workers ensures WorkerInv(cfg, t, w, t.workers[w]) {
      assert WorkerInv(cfg, s, w, s.workers[w]);
    }
  }

  lemma CleanUpKeepsGone(cfg: Settings, s: Sys, l: Label)
    requires RowsInv(cfg, s) && Enabled(s, l) && l.CleanUp?
    ensures var t := Apply(cfg, s, l);
            forall e :: e in t.gone ==> RowInv(cfg, t, e, t.gone[e]) && t.gone[e].status == Published
  {
    var t := Apply(cfg, s, l);
    forall e | e in t.gone ensures RowInv(cfg, t, e, t.gone[e]) && t.gone[e].status == Published {
      assert if e == l.id then RowInv(cfg, s, e, s.rows[e]) else RowInv(cfg, s, e, s.gone[e]);
    }
  }

  lemma CleanUpKeepsInv(cfg: Settings, s: Sys, l: Label)
    requires Inv(cfg, s) && Enabled(s, l) && l.CleanUp?
    ensures Inv(cfg, Apply(cfg, s, l))
  {
    var t := Apply(cfg, s, l);
    CleanUpKeepsWorkers(cfg, s, l);
    CleanUpKeepsGone(cfg, s, l);
    forall e | e in t.rows ensures RowInv(cfg, t, e, t.rows[e]) {
      assert RowInv(cfg, s, e, s.rows[e]);
    }
  }

  // ---- a claim takes effect ---------------------------------------------------------------------------

  /** Leasing a due row: the new claim comes after everything the row has waited for. */
  lemma LeasedRowFacts(cfg: Settings, e: EventId, r: Row, history: seq<ClaimRecord>, failures: nat, persisted: nat,
                       answers: set<Return>, w: WorkerId, now: int)
    requires cfg.Valid() && RowFacts(cfg, e, r, history, failures, persisted, answers) && Due(r, now)
    requires 1 <= |w| <= MAX_WORKER_ID
    ensures r.availableAt <= now && !Terminal(r)
    ensures RowFacts(cfg, e, LeaseRow(r, w, now, cfg.lockTTL), history + [ClaimRecord(w, now)], failures, persisted,
                     answers)
  {
    SumNonNegative(cfg, r.failedAttempts);
  }

  lemma {:induction false} SumNonNegative(cfg: Settings, n: int)
    requires cfg.Valid()
    ensures DelaySum(cfg, n) >= 0
    decreases n
  {
    if n > 0 {
      SumNonNegative(cfg, n - 1);
      Backoff.DelayIsCappedDoubling(cfg.baseBackoff, cfg.maxBackoff, n);
    }
  }

  lemma ClaimKeepsRows(cfg: Settings, s: Sys, w: WorkerId, now: int, e: EventId)
    requires cfg.Valid() && Inv(cfg, s) && w in s.workers && s.workers[w].Claiming?
    requires e in s.rows && Due(s.rows[e], now)
    ensures RowsInv(cfg, ApplyClaim(cfg, s, w, now, e))
  {
    var t := ApplyClaim(cfg, s, w, now, e);
    assert WorkerInv(cfg, s, w, s.workers[w]);
    assert RowInv(cfg, s, e, s.rows[e]);
    LeasedRowFacts(cfg, e, s.rows[e], s.claims[e], Failures(s.finals, e), Persisted(s.finals, e), s.answers, w, now);
    forall o | o in t.rows ensures RowInv(cfg, t, o, t.rows[o]) {
      assert o != e ==> RowInv(cfg, s, o, s.rows[o]);
    }
    forall o | o in t.gone ensures RowInv(cfg, t, o, t.gone[o]) && t.gone[o].status == Published {
      assert RowInv(cfg, s, o, s.gone[o]);
    }
  }

  lemma ClaimKeepsWorkers(cfg: Settings, s: Sys, w: WorkerId, now: int, e: EventId)
    requires cfg.Valid() && Inv(cfg, s) && w in s.workers && s.workers[w].Claiming?
    requires e in s.rows && Due(s.rows[e], now) && s.workers[w].issued <= now <= s.clock
    ensures WorkersInv(cfg, ApplyClaim(cfg, s, w, now, e))
  {
    var t := ApplyClaim(cfg, s, w, now, e);
    assert RowInv(cfg, s, e, s.rows[e]);
    forall o | o in t.workers ensures WorkerInv(cfg, t, o, t.workers[o]) {
      assert WorkerInv(cfg, s, o, s.workers[o]);
    }
  }

  lemma ClaimKeepsFinals(cfg: Settings, s: Sys, w: WorkerId, now: int, e: EventId)
    requires cfg.Valid() && Inv(cfg, s) && w in s.workers && s.workers[w].Claiming?
    requires e in s.rows && Due(s.rows[e], now)
    ensures FinalsInv(cfg, ApplyClaim(cfg, s, w, now, e))
  {
    var t := ApplyClaim(cfg, s, w, now, e);
    assert WorkerInv(cfg, s, w, s.workers[w]);
    assert RowInv(cfg, s, e, s.rows[e]);
    LeasedRowFacts(cfg, e, s.rows[e], s.claims[e], Failures(s.finals, e), Persisted(s.finals, e), s.answers, w, now);
    forall i | 0 <= i < |t.finals| ensures FinalInv(cfg, t, i) {
      assert FinalInv(cfg, s, i);
    }
  }

  // ---- a finalizing statement takes effect ------------------------------------------------------------

  /**
   The heart of the proof: a finalizing statement passes the name fence exactly when it was issued for the
   event's latest claim, and then the row still holds the counter the worker decided from.
   */
  lemma FenceIsNumber(cfg: Settings, s: Sys, w: WorkerId)
    requires Inv(cfg, s) && w in s.workers && s.workers[w].Leased()
    ensures var lease := s.workers[w].lease;
            && lease.snapshot.id in s.claims
            && (Hits(s, w, lease.snapshot.id) <==> lease.number == |s.claims[lease.snapshot.id]|)
            && (Hits(s, w, lease.snapshot.id) ==> s.rows[lease.snapshot.id].failedAttempts == lease.snapshot.failedAttempts)
  {
    var lease := s.workers[w].lease;
    assert WorkerInv(cfg, s, w, s.workers[w]);
    if lease.snapshot.id in s.rows {
      assert RowInv(cfg, s, lease.snapshot.id, s.rows[lease.snapshot.id]);
    }
  }

  /** The decision taken from the snapshot is the right one for the row it is applied to. */
  lemma FinalRowFacts(cfg: Settings, e: EventId, r: Row, history: seq<ClaimRecord>, failures: nat, persisted: nat,
                      answers: set<Return>, op: Op, now: int)
    requires cfg.Valid() && RowFacts(cfg, e, r, history, failures, persisted, answers) && r.status == Processing
    requires op == cfg.Decide(r.failedAttempts, OutcomeOf(op)) && Last(history).now <= now
    requires Return(e, |history|, Last(history).worker, OutcomeOf(op)) in answers
    ensures RowFacts(cfg, e, FinalRow(r, op, now), history, failures + (if op.ToPublished? then 0 else 1),
                     persisted + 1, answers)
    ensures op.ToRetry? ==> r.availableAt < FinalRow(r, op, now).availableAt == now + op.delay
                                  && op.delay == cfg.Delay(failures + 1)
    ensures !op.ToRetry? ==> FinalRow(r, op, now).availableAt == r.availableAt
  {
    SumNonNegative(cfg, r.failedAttempts);
    Backoff.DelayIsCappedDoubling(cfg.baseBackoff, cfg.maxBackoff, r.failedAttempts + 1);
    assert OutcomeOf(op) == Success <==> op.ToPublished?;
  }

  /** A statement that hits: what it decided fits the row, and the row it writes satisfies the facts of rows. */
  lemma HitFacts(cfg: Settings, s: Sys, w: WorkerId, now: int)
    requires cfg.Valid() && Inv(cfg, s) && w in s.workers && s.workers[w].Finalizing? && s.workers[w].issued <= now
    requires Hits(s, w, s.workers[w].lease.snapshot.id)
    ensures var e := s.workers[w].lease.snapshot.id;
            var op := s.workers[w].op;
            && e in s.claims && s.workers[w].lease.number == |s.claims[e]|
            && RowFacts(cfg, e, FinalRow(s.rows[e], op, now), s.claims[e],
                        Failures(s.finals, e) + (if op.ToPublished? then 0 else 1), Persisted(s.finals, e) + 1, s.answers)
            && (op.ToRetry? ==>
                  && s.rows[e].availableAt < FinalRow(s.rows[e], op, now).availableAt == now + op.delay
                  && op.delay == cfg.Delay(Failures(s.finals, e) + 1))
            && (!op.ToRetry? ==> FinalRow(s.rows[e], op, now).availableAt == s.rows[e].availableAt)
  {
    var e := s.workers[w].lease.snapshot.id;
    assert WorkerInv(cfg, s, w, s.workers[w]);
    assert RowInv(cfg, s, e, s.rows[e]);
    FenceIsNumber(cfg, s, w);
    FinalRowFacts(cfg, e, s.rows[e], s.claims[e], Failures(s.finals, e), Persisted(s.finals, e), s.answers,
                  s.workers[w].op, now);
  }

  lemma FinalKeepsRow(cfg: Settings, s: Sys, w: WorkerId, now: int, o: EventId)
    requires cfg.Valid() && Inv(cfg, s) && w in s.workers && s.workers[w].Finalizing? && s.workers[w].issued <= now
    requires o in s.rows
    ensures RowInv(cfg, ApplyFinal(s, w, now), o, ApplyFinal(s, w, now).rows[o])
  {
    var t := ApplyFinal(s, w, now);
    var p := s.workers[w];
    AppendFinal(s.finals, t.finals[|s.finals|], o);
    assert RowInv(cfg, s, o, s.rows[o]);
    if o == p.lease.snapshot.id && Hits(s, w, o) {
      HitFacts(cfg, s, w, now);
    }
  }

  lemma FinalKeepsRows(cfg: Settings, s: Sys, w: WorkerId, now: int)
    requires cfg.Valid() && Inv(cfg, s) && w in s.workers && s.workers[w].Finalizing? && s.workers[w].issued <= now
    ensures RowsInv(cfg, ApplyFinal(s, w, now))
  {
    var t := ApplyFinal(s, w, now);
    forall o | o in t.rows ensures RowInv(cfg, t, o, t.rows[o]) {
      FinalKeepsRow(cfg, s, w, now, o);
    }
    forall o | o in t.gone ensures RowInv(cfg, t, o, t.gone[o]) && t.gone[o].status == Published {
      AppendFinal(s.finals, t.finals[|s.finals|], o);
      assert RowInv(cfg, s, o, s.gone[o]);
    }
  }

  lemma FinalKeepsWorkers(cfg: Settings, s: Sys, w: WorkerId, now: int)
    requires cfg.Valid() && Inv(cfg, s) && w in s.workers && s.workers[w].Finalizing?
    ensures WorkersInv(cfg, ApplyFinal(s, w, now))
  {
    var t := ApplyFinal(s, w, now);
    FenceIsNumber(cfg, s, w);
    assert WorkerInv(cfg, s, w, s.workers[w]);
    forall o | o in t.workers ensures WorkerInv(cfg, t, o, t.workers[o]) {
      assert WorkerInv(cfg, s, o, s.workers[o]);
    }
  }

  /** The statements that ran before keep their clauses. */
  lemma FinalKeepsEarlier(cfg: Settings, s: Sys, w: WorkerId, now: int, i: nat)
    requires cfg.Valid() && Inv(cfg, s) && w in s.workers && s.workers[w].Finalizing? && s.workers[w].issued <= now
    requires i < |s.finals|
    ensures FinalInv(cfg, ApplyFinal(s, w, now), i)
  {
    var t := ApplyFinal(s, w, now);
    if Hits(s, w, s.workers[w].lease.snapshot.id) {
      HitFacts(cfg, s, w, now);
    }
    assert FinalInv(cfg, s, i);
    assert t.finals[..i + 1] == s.finals[..i + 1];
  }

  lemma FinalAddsFinal(cfg: Settings, s: Sys, w: WorkerId, now: int)
    requires cfg.Valid() && Inv(cfg, s) && w in s.workers && s.workers[w].Finalizing? && s.workers[w].issued <= now
    ensures FinalInv(cfg, ApplyFinal(s, w, now), |s.finals|)
  {
    var t := ApplyFinal(s, w, now);
    var e := s.workers[w].lease.snapshot.id;
    assert WorkerInv(cfg, s, w, s.workers[w]);
    AppendFinal(s.finals, t.finals[|s.finals|], e);
    assert t.finals[..|s.finals| + 1] == t.finals;
    if Hits(s, w, e) {
      HitFacts(cfg, s, w, now);
    }
  }

  lemma FinalKeepsOnce(cfg: Settings, s: Sys, w: WorkerId, now: int)
    requires Inv(cfg, s) && w in s.workers && s.workers[w].Finalizing?
    ensures OncePerClaim(ApplyFinal(s, w, now).finals)
  {
    var t := ApplyFinal(s, w, now);
    FenceIsNumber(cfg, s, w);
    forall i, j | 0 <= i < j < |t.finals| && t.finals[i].affected && t.finals[j].affected
                  && t.finals[i].event == t.finals[j].event
      ensures t.finals[i].number < t.finals[j].number
    {
      assert FinalInv(cfg, s, i);
    }
  }

  // ---- every step, every run --------------------------------------------------------------------------

  lemma ClaimKeepsInv(cfg: Settings, s: Sys, w: WorkerId, now: int, e: EventId)
    requires cfg.Valid() && Inv(cfg, s) && w in s.workers && s.workers[w].Claiming?
    requires s.workers[w].issued <= now <= s.clock && e in s.rows && Due(s.rows[e], now)
    ensures Inv(cfg, ApplyClaim(cfg, s, w, now, e))
  {
    ClaimKeepsRows(cfg, s, w, now, e);
    ClaimKeepsWorkers(cfg, s, w, now, e);
    ClaimKeepsFinals(cfg, s, w, now, e);
  }

  lemma FinalKeepsInv(cfg: Settings, s: Sys, w: WorkerId, now: int)
    requires cfg.Valid() && Inv(cfg, s) && w in s.workers && s.workers[w].Finalizing? && s.workers[w].issued <= now
    ensures Inv(cfg, ApplyFinal(s, w, now))
  {
    var t := ApplyFinal(s, w, now);
    FinalKeepsRows(cfg, s, w, now);
    FinalKeepsWorkers(cfg, s, w, now);
    FinalKeepsOnce(cfg, s, w, now);
    forall i | 0 <= i < |t.finals| ensures FinalInv(cfg, t, i) {
      if i < |s.finals| {
        FinalKeepsEarlier(cfg, s, w, now, i);
      } else {
        FinalAddsFinal(cfg, s, w, now);
      }
    }
  }

  lemma StepKeepsInv(cfg: Settings, s: Sys, l: Label)
    requires cfg.Valid() && Inv(cfg, s) && Enabled(s, l)
    ensures Inv(cfg, Apply(cfg, s, l))
  {
    match l
    case Insert(_, _, _) =>
      InsertKeepsFinals(cfg, s, l);
      InsertKeepsRows(cfg, s, l);
      InsertKeepsWorkers(cfg, s, l);
    case CleanUp(_) => CleanUpKeepsInv(cfg, s, l);
    case Tick(_) => QuietKeepsInv(cfg, s, l);
    case Crash(_) => QuietKeepsInv(cfg, s, l);
    case PublishReturn(_, _) => ReturnKeepsInv(cfg, s, l);
    case ClaimApply(w, now, _, picked) =>
      if picked.None? {
        IdleKeepsInv(cfg, s, l);
      } else {
        ClaimKeepsInv(cfg, s, w, now, picked.value);
      }
    case FinalizeApply(w, now) => FinalKeepsInv(cfg, s, w, now);
    case ClaimLost(_) => IdleKeepsInv(cfg, s, l);
    case FinalizeFail(_) => IdleKeepsInv(cfg, s, l);
    case PublishAbandon(_, _) => IdleKeepsInv(cfg, s, l);
    case _ => LocalKeepsInv(cfg, s, l);
  }

  lemma {:induction false} RunKeepsInv(cfg: Settings, s: Sys, ls: seq<Label>, t: Sys)
    requires cfg.Valid() && Inv(cfg, s) && Runs(cfg, s, ls, t)
    ensures Inv(cfg, t)
    decreases |ls|
  {
    if ls != [] {
      StepKeepsInv(cfg, s, ls[0]);
      RunKeepsInv(cfg, Apply(cfg, s, ls[0]), ls[1..], t);
    }
  }

  lemma ReachesKeepsInv(cfg: Settings, s: Sys, t: Sys)
    requires cfg.Valid() && Inv(cfg, s) && Reaches(cfg, s, t)
    ensures Inv(cfg, t)
  {
    var ls :| Runs(cfg, s, ls, t);
    RunKeepsInv(cfg, s, ls, t);
  }

  /** With a limit inside the integer column's range, no finalization can overflow the column. */
  lemma NoOverflow(cfg: Settings, s: Sys, w: WorkerId)
    requires cfg.Valid() && Inv(cfg, s) && cfg.maxFailures <= INT4_MAX
    requires w in s.workers && s.workers[w].Finalizing? && Hits(s, w, s.workers[w].lease.snapshot.id)
    ensures !Overflows(s.rows[s.workers[w].lease.snapshot.id], s.workers[w].op)
  {
    assert RowInv(cfg, s, s.workers[w].lease.snapshot.id, s.rows[s.workers[w].lease.snapshot.id]);
  }

  lemma ReachableInv(cfg: Settings, s: Sys)
    requires cfg.Valid() && Reachable(cfg, s)
    ensures Inv(cfg, s)
  {
    StartInv(cfg);
    var ls :| Runs(cfg, START, ls, s);
    RunKeepsInv(cfg, START, ls, s);
  }
}

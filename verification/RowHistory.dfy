/**
 Every column of every row, live or removed, is determined by how the row was inserted, by the claims of its event and
 by the outcomes that were stored: no statement writes a column it does not name, or another value.
 */
module RowHistory {
  import opened Wrappers
  import opened OutboxSchema
  import opened OutboxProtocol
  import opened OutboxInvariant

  datatype Kind = AnyOutcome | AnyFailure | AnyRetry {
    predicate Of(op: Op) {
      AnyOutcome? || (AnyFailure? && !op.ToPublished?) || (AnyRetry? && op.ToRetry?)
    }
  }

  /** The last outcome of that kind that was stored for the event. */
  function LastStored(finals: seq<Final>, e: EventId, kind: Kind): Option<Final> {
    if finals == [] then None else
    var f := finals[|finals| - 1];
    if f.affected && f.event == e && kind.Of(f.op) then Some(f) else LastStored(finals[..|finals| - 1], e, kind)
  }

  /** The name under which an outcome is stored. */
  predicate Named(outcome: PublishOutcome, reason: string) {
    match outcome
    case Success => reason == "success"
    case Failed => reason == "failed"
    case Timeout => reason == "timeout"
    case Canceled => reason == "canceled"
  }

  /** While it is processed, a row shows the event's last claim; otherwise it is nobody's. */
  predicate LeaseColumns(cfg: Settings, r: Row, history: seq<ClaimRecord>) {
    if r.status == Processing then
      && history != []
      && r.lockedBy == Some(Last(history).worker) && r.lockedUntil == Some(Last(history).now + cfg.lockTTL)
      && r.updatedAt == Last(history).now
    else r.lockedBy.None? && r.lockedUntil.None?
  }

  /** A row that is not processed shows the last outcome that was stored, or that there is none. */
  predicate OutcomeColumns(r: Row, stored: Option<Final>) {
    && (r.status == Published <==> stored.Some? && stored.value.op.ToPublished?)
    && (r.status == DeadLetter <==> stored.Some? && stored.value.op.ToDeadLetter?)
    && r.publishedAt == (if r.status == Published && stored.Some? then Some(stored.value.now) else None)
    && r.deadLetteredAt == (if r.status == DeadLetter && stored.Some? then Some(stored.value.now) else None)
    && (r.status != Processing ==> r.updatedAt == if stored.Some? then stored.value.now else r.createdAt)
  }

  /** The reason is the last failure's, the time the last retry's; before that they are as inserted. */
  predicate FailureColumns(r: Row, failure: Option<Final>, retry: Option<Final>) {
    && (failure.None? <==> r.lastFailureReason.None?)
    && (failure.Some? && !failure.value.op.ToPublished? && r.lastFailureReason.Some? ==>
          Named(failure.value.op.outcome, r.lastFailureReason.value))
    && r.availableAt == (if retry.Some? && retry.value.op.ToRetry? then retry.value.now + retry.value.op.delay else r.createdAt)
  }

  predicate Columns(cfg: Settings, r: Row, history: seq<ClaimRecord>, stored: Option<Final>, failure: Option<Final>,
                    retry: Option<Final>)
  {
    LeaseColumns(cfg, r, history) && OutcomeColumns(r, stored) && FailureColumns(r, failure, retry)
  }

  predicate RowShows(cfg: Settings, s: Sys, e: EventId, r: Row) {
    && e in s.claims
    && Columns(cfg, r, s.claims[e], LastStored(s.finals, e, AnyOutcome), LastStored(s.finals, e, AnyFailure),
               LastStored(s.finals, e, AnyRetry))
  }

  ghost predicate AllShow(cfg: Settings, s: Sys) {
    && (forall e :: e in s.rows ==> RowShows(cfg, s, e, s.rows[e]))
    && (forall e :: e in s.gone ==> RowShows(cfg, s, e, s.gone[e]))
  }

  lemma {:induction false} LastIsStored(finals: seq<Final>, e: EventId, kind: Kind)
    ensures var f := LastStored(finals, e, kind);
            f.Some? ==> f.value in finals && f.value.affected && f.value.event == e && kind.Of(f.value.op)
  {
    if finals != [] {
      LastIsStored(finals[..|finals| - 1], e, kind);
    }
  }

  lemma AppendStored(finals: seq<Final>, f: Final, e: EventId, kind: Kind)
    ensures LastStored(finals + [f], e, kind)
            == if f.affected && f.event == e && kind.Of(f.op) then Some(f) else LastStored(finals, e, kind)
  {
    assert (finals + [f])[..|finals|] == finals;
  }

  lemma InsertShows(cfg: Settings, s: Sys, l: Label)
    requires Inv(cfg, s) && AllShow(cfg, s) && Enabled(s, l) && l.Insert?
    ensures AllShow(cfg, Apply(cfg, s, l))
  {
    var t := Apply(cfg, s, l);
    assert forall i :: 0 <= i < |s.finals| ==> FinalInv(cfg, s, i) && s.finals[i].event != l.id;
    LastIsStored(s.finals, l.id, AnyOutcome);
    LastIsStored(s.finals, l.id, AnyFailure);
    LastIsStored(s.finals, l.id, AnyRetry);
    forall e | e in t.rows ensures RowShows(cfg, t, e, t.rows[e]) {
      assert e != l.id ==> RowShows(cfg, s, e, s.rows[e]);
    }
    forall e | e in t.gone ensures RowShows(cfg, t, e, t.gone[e]) {
      assert RowShows(cfg, s, e, s.gone[e]);
    }
  }

  lemma ClaimShows(cfg: Settings, s: Sys, l: Label)
    requires RowsInv(cfg, s) && AllShow(cfg, s) && Enabled(s, l) && l.ClaimApply?
    ensures AllShow(cfg, Apply(cfg, s, l))
  {
    var t := Apply(cfg, s, l);
    forall e | e in t.rows ensures RowShows(cfg, t, e, t.rows[e]) {
      assert RowShows(cfg, s, e, s.rows[e]);
    }
    forall e | e in t.gone ensures RowShows(cfg, t, e, t.gone[e]) {
      assert RowShows(cfg, s, e, s.gone[e]);
    }
  }

  /** The row that a finalizing statement leaves shows just that statement. */
  lemma FinalColumns(cfg: Settings, r: Row, f: Final, history: seq<ClaimRecord>, stored: Option<Final>,
                     failure: Option<Final>, retry: Option<Final>)
    requires Columns(cfg, r, history, stored, failure, retry) && r.status == Processing
    ensures Columns(cfg, FinalRow(r, f.op, f.now), history, Some(f), if f.op.ToPublished? then failure else Some(f),
                    if f.op.ToRetry? then Some(f) else retry)
  {
  }

  lemma FinalShows(cfg: Settings, s: Sys, w: WorkerId, now: int)
    requires RowsInv(cfg, s) && AllShow(cfg, s) && Enabled(s, FinalizeApply(w, now))
    ensures AllShow(cfg, ApplyFinal(s, w, now))
  {
    var t := ApplyFinal(s, w, now);
    var f := t.finals[|s.finals|];
    forall e | e in t.rows ensures RowShows(cfg, t, e, t.rows[e]) {
      assert RowShows(cfg, s, e, s.rows[e]);
      Appended(s.finals, f, e);
      if f.affected && f.event == e {
        FinalColumns(cfg, s.rows[e], f, s.claims[e], LastStored(s.finals, e, AnyOutcome),
                     LastStored(s.finals, e, AnyFailure), LastStored(s.finals, e, AnyRetry));
      }
    }
    forall e | e in t.gone ensures RowShows(cfg, t, e, t.gone[e]) {
      assert RowShows(cfg, s, e, s.gone[e]);
      Appended(s.finals, f, e);
    }
  }

  lemma Appended(finals: seq<Final>, f: Final, e: EventId)
    ensures forall kind :: LastStored(finals + [f], e, kind)
                           == if f.affected && f.event == e && kind.Of(f.op) then Some(f) else LastStored(finals, e, kind)
  {
    forall kind ensures LastStored(finals + [f], e, kind)
                        == if f.affected && f.event == e && kind.Of(f.op) then Some(f) else LastStored(finals, e, kind) {
      AppendStored(finals, f, e, kind);
    }
  }

  lemma OtherShows(cfg: Settings, s: Sys, l: Label)
    requires AllShow(cfg, s) && Enabled(s, l) && !l.Insert? && !l.ClaimApply? && !l.FinalizeApply?
    ensures AllShow(cfg, Apply(cfg, s, l))
  {
    var t := Apply(cfg, s, l);
    assert t.claims == s.claims && t.finals == s.finals;
    forall e | e in t.rows ensures RowShows(cfg, t, e, t.rows[e]) {
      assert RowShows(cfg, s, e, s.rows[e]);
    }
    forall e | e in t.gone ensures RowShows(cfg, t, e, t.gone[e]) {
      assert if e in s.gone && !(l.CleanUp? && l.id == e) then RowShows(cfg, s, e, s.gone[e]) else RowShows(cfg, s, e, s.rows[e]);
    }
  }

  lemma {:induction false} RunShows(cfg: Settings, s: Sys, ls: seq<Label>, t: Sys)
    requires cfg.Valid() && Inv(cfg, s) && AllShow(cfg, s) && Runs(cfg, s, ls, t)
    ensures AllShow(cfg, t)
    decreases |ls|
  {
    if ls != [] {
      StepKeepsInv(cfg, s, ls[0]);
      match ls[0] {
        case Insert(_, _, _) => InsertShows(cfg, s, ls[0]);
        case ClaimApply(_, _, _, _) => ClaimShows(cfg, s, ls[0]);
        case FinalizeApply(w, now) => FinalShows(cfg, s, w, now);
        case _ => OtherShows(cfg, s, ls[0]);
      }
      RunShows(cfg, Apply(cfg, s, ls[0]), ls[1..], t);
    }
  }

  /**
   In every reachable state every row, live or removed, shows in each column that a statement writes exactly the last
   statement that wrote it: lease and update time of the last claim while it is processed; publication, dead letter
   and update time of the last stored outcome otherwise; the reason of the last stored failure by its name; the end of
   the last stored retry's delay; and before any of these what it was inserted with.
   */
  lemma RowIsItsHistory(cfg: Settings, s: Sys, e: EventId)
    requires cfg.Valid() && Reachable(cfg, s) && (e in s.rows || e in s.gone)
    ensures RowShows(cfg, s, e, if e in s.rows then s.rows[e] else s.gone[e])
  {
    StartInv(cfg);
    var ls :| Runs(cfg, START, ls, s);
    RunShows(cfg, START, ls, s);
  }

  /** A published row, live or removed, bears the time of a finalizing statement that stored its publication. */
  lemma PublishedAtIsStored(cfg: Settings, s: Sys, e: EventId)
    requires cfg.Valid() && Reachable(cfg, s) && (e in s.gone || (e in s.rows && s.rows[e].status == Published))
    ensures var r := if e in s.rows then s.rows[e] else s.gone[e];
            exists f :: f in s.finals && f.affected && f.event == e && f.op == ToPublished && r.publishedAt == Some(f.now)
  {
    RowIsItsHistory(cfg, s, e);
    ReachableInv(cfg, s);
    LastIsStored(s.finals, e, AnyOutcome);
    assert LastStored(s.finals, e, AnyOutcome).value in s.finals;
  }

  /** A dead letter bears the time and the reason of the failure that was stored last. */
  lemma DeadLetterIsStored(cfg: Settings, s: Sys, e: EventId)
    requires cfg.Valid() && Reachable(cfg, s) && e in s.rows && s.rows[e].status == DeadLetter
    ensures exists f :: f in s.finals && f.affected && f.event == e && f.op.ToDeadLetter?
                        && s.rows[e].deadLetteredAt == Some(f.now)
                        && s.rows[e].lastFailureReason.Some? && Named(f.op.outcome, s.rows[e].lastFailureReason.value)
  {
    RowIsItsHistory(cfg, s, e);
    LastIsStored(s.finals, e, AnyOutcome);
    LastFailureIsLast(s.finals, e);
    assert LastStored(s.finals, e, AnyOutcome).value in s.finals;
  }

  lemma {:induction false} LastFailureIsLast(finals: seq<Final>, e: EventId)
    requires LastStored(finals, e, AnyOutcome).Some? && !LastStored(finals, e, AnyOutcome).value.op.ToPublished?
    ensures LastStored(finals, e, AnyFailure) == LastStored(finals, e, AnyOutcome)
  {
    var f := finals[|finals| - 1];
    if !(f.affected && f.event == e) {
      LastFailureIsLast(finals[..|finals| - 1], e);
    }
  }

  /** The time at which an event is due changes only in a step that stores a retry of it, to the end of that delay. */
  lemma AvailableOnlyByRetry(cfg: Settings, s: Sys, l: Label, e: EventId)
    requires cfg.Valid() && Reachable(cfg, s) && Enabled(s, l) && e in s.rows && e in Apply(cfg, s, l).rows
    ensures var t := Apply(cfg, s, l);
            t.rows[e].availableAt != s.rows[e].availableAt ==>
              && l.FinalizeApply? && s.workers[l.worker].lease.snapshot.id == e && Hits(s, l.worker, e)
              && s.workers[l.worker].op.ToRetry? && t.rows[e].availableAt == l.now + s.workers[l.worker].op.delay
  {
    ReachableInv(cfg, s);
    assert RowInv(cfg, s, e, s.rows[e]);
    match l
    case FinalizeApply(_, _) =>
    case ClaimApply(_, _, _, _) =>
    case _ =>
  }
}

/**
 How often the publisher is called for one event. Delivery is at least once: a success that was not stored is
 forgotten, and the event is claimed and delivered again. What is proved is exactly when that can happen.
 */
module Deliveries {
  import opened Wrappers
  import opened OutboxSchema
  import opened OutboxProtocol
  import opened OutboxInvariant
  import opened OutboxTheorems
  import CounterRange

  // ---- one answer for every claim ------------------------------------------------------------------------

  /** An answer belongs to a numbered claim of its worker. */
  predicate AnswerFacts(a: Return, claims: map<EventId, seq<ClaimRecord>>) {
    && a.event in claims && 1 <= a.number <= |claims[a.event]|
    && claims[a.event][a.number - 1].worker == a.worker
  }

  /** A worker that has not heard from the publisher has no answer for its claim. */
  predicate Unanswered(answers: set<Return>, lease: Lease) {
    forall a :: a in answers ==> a.event != lease.snapshot.id || a.number != lease.number
  }

  predicate Waits(p: Phase) {
    p.Claimed? || p.Publishing?
  }

  ghost predicate AnswersInv(s: Sys) {
    && (forall a :: a in s.answers ==> AnswerFacts(a, s.claims))
    && (forall a, b :: a in s.answers && b in s.answers && a.event == b.event && a.number == b.number ==> a == b)
    && (forall w :: w in s.workers && Waits(s.workers[w]) ==>
                      Unanswered(s.answers, s.workers[w].lease))
  }

  predicate Delivered(s: Sys, e: EventId) {
    e in s.gone || (e in s.rows && s.rows[e].status == Published)
  }

  /** A success is stored as published, and is the event's last claim. */
  predicate StoredSuccess(f: Final, s: Sys) {
    f.op.ToPublished? && f.event in s.claims && f.number == |s.claims[f.event]| && Delivered(s, f.event)
  }

  ghost predicate SuccessesInv(s: Sys) {
    forall i :: 0 <= i < |s.finals| && s.finals[i].affected && OutcomeOf(s.finals[i].op) == Success ==> StoredSuccess(s.finals[i], s)
  }

  lemma ClaimKeepsAnswers(cfg: Settings, s: Sys, l: Label)
    requires AnswersInv(s) && Enabled(s, l) && l.ClaimApply?
    ensures AnswersInv(Apply(cfg, s, l))
  {
    var t := Apply(cfg, s, l);
    forall a | a in t.answers ensures AnswerFacts(a, t.claims) {
      assert AnswerFacts(a, s.claims);
    }
    forall w | w in t.workers && Waits(t.workers[w]) ensures Unanswered(t.answers, t.workers[w].lease) {
      if w == l.worker {
        forall a | a in t.answers ensures a.event != t.workers[w].lease.snapshot.id || a.number != t.workers[w].lease.number {
          assert AnswerFacts(a, s.claims);
        }
      } else {
        assert Unanswered(s.answers, s.workers[w].lease);
      }
    }
  }

  /** Two workers that wait for the publisher wait for different claims. */
  lemma DifferentClaims(cfg: Settings, s: Sys, v: WorkerId, w: WorkerId)
    requires Inv(cfg, s) && v in s.workers && w in s.workers && v != w
    requires s.workers[v].Leased() && s.workers[w].Leased()
    ensures s.workers[v].lease.snapshot.id != s.workers[w].lease.snapshot.id
            || s.workers[v].lease.number != s.workers[w].lease.number
  {
    assert WorkerInv(cfg, s, v, s.workers[v]);
    assert WorkerInv(cfg, s, w, s.workers[w]);
  }

  /** The answer that a return adds is the first one of its claim. */
  lemma NewAnswer(s: Sys, w: WorkerId, lease: Lease, outcome: PublishOutcome)
    requires AnswersInv(s) && Unanswered(s.answers, lease)
    requires LeaseFacts(w, lease, if lease.snapshot.id in s.claims then s.claims[lease.snapshot.id] else [], s.clock)
    ensures var answers := s.answers + {Return(lease.snapshot.id, lease.number, w, outcome)};
            && (forall a :: a in answers ==> AnswerFacts(a, s.claims))
            && (forall a, b :: a in answers && b in answers && a.event == b.event && a.number == b.number ==> a == b)
  {
  }

  lemma ReturnKeepsAnswers(cfg: Settings, s: Sys, l: Label)
    requires Inv(cfg, s) && AnswersInv(s) && Enabled(s, l) && (l.PublishReturn? || l.PublishAbandon?)
    ensures AnswersInv(Apply(cfg, s, l))
  {
    var t := Apply(cfg, s, l);
    var lease := s.workers[l.worker].lease;
    assert WorkerInv(cfg, s, l.worker, s.workers[l.worker]);
    NewAnswer(s, l.worker, lease, l.outcome);
    assert t.answers == s.answers + {Return(lease.snapshot.id, lease.number, l.worker, l.outcome)} && t.claims == s.claims;
    forall w | w in t.workers && Waits(t.workers[w]) ensures Unanswered(t.answers, t.workers[w].lease) {
      assert w != l.worker && t.workers[w] == s.workers[w];
      assert Unanswered(s.answers, s.workers[w].lease);
      DifferentClaims(cfg, s, l.worker, w);
    }
  }

  /** What a step that adds no answer and begins no wait can change. */
  ghost predicate NoNews(s: Sys, t: Sys) {
    && t.answers == s.answers
    && (forall e :: e in s.claims ==> e in t.claims && t.claims[e] == s.claims[e])
    && (forall w :: w in t.workers && Waits(t.workers[w]) ==>
                      w in s.workers && Waits(s.workers[w]) && t.workers[w].lease == s.workers[w].lease)
  }

  lemma NoNewsKeepsAnswers(s: Sys, t: Sys)
    requires AnswersInv(s) && NoNews(s, t)
    ensures AnswersInv(t)
  {
    forall a | a in t.answers ensures AnswerFacts(a, t.claims) {
      assert AnswerFacts(a, s.claims);
    }
  }

  lemma OtherKeepsAnswers(cfg: Settings, s: Sys, l: Label)
    requires AnswersInv(s) && Enabled(s, l) && !l.ClaimApply? && !l.PublishReturn? && !l.PublishAbandon?
    ensures AnswersInv(Apply(cfg, s, l))
  {
    NoNewsKeepsAnswers(s, Apply(cfg, s, l));
  }

  lemma ClaimKeepsSuccesses(cfg: Settings, s: Sys, l: Label)
    requires Inv(cfg, s) && SuccessesInv(s) && Enabled(s, l) && l.ClaimApply?
    ensures SuccessesInv(Apply(cfg, s, l))
  {
    var t := Apply(cfg, s, l);
    forall i | 0 <= i < |t.finals| && t.finals[i].affected && OutcomeOf(t.finals[i].op) == Success ensures StoredSuccess(t.finals[i], t) {
      assert StoredSuccess(s.finals[i], s);
    }
  }

  lemma FinalKeepsSuccesses(cfg: Settings, s: Sys, l: Label)
    requires cfg.Valid() && Inv(cfg, s) && SuccessesInv(s) && Enabled(s, l) && l.FinalizeApply?
    ensures SuccessesInv(Apply(cfg, s, l))
  {
    var t := Apply(cfg, s, l);
    FenceIsNumber(cfg, s, l.worker);
    assert WorkerInv(cfg, s, l.worker, s.workers[l.worker]);
    forall i | 0 <= i < |t.finals| && t.finals[i].affected && OutcomeOf(t.finals[i].op) == Success ensures StoredSuccess(t.finals[i], t) {
      if i < |s.finals| {
        assert StoredSuccess(s.finals[i], s);
      }
    }
  }

  lemma OtherKeepsSuccesses(cfg: Settings, s: Sys, l: Label)
    requires Inv(cfg, s) && SuccessesInv(s) && Enabled(s, l) && !l.ClaimApply? && !l.FinalizeApply?
    ensures SuccessesInv(Apply(cfg, s, l))
  {
    var t := Apply(cfg, s, l);
    assert t.finals == s.finals;
    forall i | 0 <= i < |t.finals| && t.finals[i].affected && OutcomeOf(t.finals[i].op) == Success ensures StoredSuccess(t.finals[i], t) {
      assert StoredSuccess(s.finals[i], s);
    }
  }

  lemma {:induction false} RunKeepsDeliveries(cfg: Settings, s: Sys, ls: seq<Label>, t: Sys)
    requires cfg.Valid() && Inv(cfg, s) && AnswersInv(s) && SuccessesInv(s) && Runs(cfg, s, ls, t)
    ensures Inv(cfg, t) && AnswersInv(t) && SuccessesInv(t)
    decreases |ls|
  {
    if ls != [] {
      var l := ls[0];
      StepKeepsInv(cfg, s, l);
      match l {
        case ClaimApply(_, _, _, _) => ClaimKeepsAnswers(cfg, s, l); ClaimKeepsSuccesses(cfg, s, l);
        case PublishReturn(_, _) => ReturnKeepsAnswers(cfg, s, l); OtherKeepsSuccesses(cfg, s, l);
        case PublishAbandon(_, _) => ReturnKeepsAnswers(cfg, s, l); OtherKeepsSuccesses(cfg, s, l);
        case FinalizeApply(_, _) => OtherKeepsAnswers(cfg, s, l); FinalKeepsSuccesses(cfg, s, l);
        case _ => OtherKeepsAnswers(cfg, s, l); OtherKeepsSuccesses(cfg, s, l);
      }
      RunKeepsDeliveries(cfg, Apply(cfg, s, l), ls[1..], t);
    }
  }

  lemma ReachableDeliveries(cfg: Settings, s: Sys)
    requires cfg.Valid() && Reachable(cfg, s)
    ensures Inv(cfg, s) && AnswersInv(s) && SuccessesInv(s)
  {
    StartInv(cfg);
    var ls :| Runs(cfg, START, ls, s);
    RunKeepsDeliveries(cfg, START, ls, s);
  }

  /** The publisher answers each numbered claim of an event at most once. */
  lemma OneAnswerPerClaim(cfg: Settings, s: Sys, a: Return, b: Return)
    requires cfg.Valid() && Reachable(cfg, s) && a in s.answers && b in s.answers
    requires a.event == b.event && a.number == b.number
    ensures a == b
  {
    ReachableDeliveries(cfg, s);
  }

  // ---- when a success is remembered ----------------------------------------------------------------------

  /** A row with more outcomes than failures has a stored success. */
  lemma {:induction false} SuccessAmong(finals: seq<Final>, e: EventId) returns (i: nat)
    requires Persisted(finals, e) > Failures(finals, e)
    ensures i < |finals| && finals[i].affected && finals[i].event == e && finals[i].op.ToPublished?
  {
    i := |finals| - 1;
    if !(finals[i].affected && finals[i].event == e && finals[i].op.ToPublished?) {
      i := SuccessAmong(finals[..i], e);
    }
  }

  lemma {:induction false} StoredIfFinal(finals: seq<Final>, e: EventId, i: nat)
    requires i < |finals| && finals[i].affected && finals[i].event == e
    ensures finals[i].number in StoredNumbers(finals, e)
  {
    if i < |finals| - 1 {
      StoredIfFinal(finals[..|finals| - 1], e, i);
    }
  }

  /**
   A success of the publisher was stored if and only if it is the answer to the event's last claim and the row is
   published or, since then, removed. So a success that is followed by another claim, and by another delivery, is one
   that was not stored.
   */
  lemma SuccessStoredIffPublished(cfg: Settings, s: Sys, a: Return)
    requires cfg.Valid() && Reachable(cfg, s) && a in s.answers && a.outcome == Success
    ensures a.event in s.claims && 1 <= a.number <= |s.claims[a.event]|
    ensures a.number in StoredNumbers(s.finals, a.event)
            <==> a.number == |s.claims[a.event]| && Delivered(s, a.event)
  {
    ReachableDeliveries(cfg, s);
    assert AnswerFacts(a, s.claims);
    if a.number in StoredNumbers(s.finals, a.event) {
      var i := StoredHasFinal(s.finals, a.event, a.number);
      assert FinalInv(cfg, s, i);
      assert StoredSuccess(s.finals[i], s);
    }
    if a.number == |s.claims[a.event]| && Delivered(s, a.event) {
      assert if a.event in s.gone then RowInv(cfg, s, a.event, s.gone[a.event]) else RowInv(cfg, s, a.event, s.rows[a.event]);
      var i := SuccessAmong(s.finals, a.event);
      assert StoredSuccess(s.finals[i], s);
      StoredIfFinal(s.finals, a.event, i);
    }
  }

  // ---- when an event can be delivered again --------------------------------------------------------------

  /** How often the publisher was called with the event. */
  function CallsOf(calls: seq<Event>, e: EventId): nat {
    if calls == [] then 0 else CallsOf(calls[..|calls| - 1], e) + (if calls[|calls| - 1].id == e then 1 else 0)
  }

  lemma AppendCall(calls: seq<Event>, event: Event, e: EventId)
    ensures CallsOf(calls + [event], e) == CallsOf(calls, e) + (if event.id == e then 1 else 0)
  {
    assert (calls + [event])[..|calls|] == calls;
  }

  /** A live worker has claimed the event and not yet heard of it. */
  ghost predicate ClaimInFlight(s: Sys, e: EventId) {
    exists w :: Alive(s, w) && s.workers[w].Claimed? && s.workers[w].lease.snapshot.id == e
  }

  /** Nobody can be led to deliver the event any more. */
  ghost predicate Settled(s: Sys, e: EventId) {
    && e in s.claims && !ClaimInFlight(s, e)
    && (e in s.rows ==> Terminal(s.rows[e]))
  }

  lemma SettledStays(cfg: Settings, s: Sys, l: Label, e: EventId)
    requires Enabled(s, l) && Settled(s, e)
    ensures Settled(Apply(cfg, s, l), e)
    ensures l.ClaimReply? ==> s.workers[l.worker].lease.snapshot.id != e
  {
    var t := Apply(cfg, s, l);
    forall w | Alive(t, w) && t.workers[w].Claimed? ensures t.workers[w].lease.snapshot.id != e {
      if w in s.workers && s.workers[w].Claimed? {
        assert t.workers[w] == s.workers[w] && Alive(s, w);
      }
    }
  }

  lemma {:induction false} SettledIsQuiet(cfg: Settings, s: Sys, ls: seq<Label>, t: Sys, e: EventId)
    requires Settled(s, e) && Runs(cfg, s, ls, t)
    ensures CallsOf(t.calls, e) == CallsOf(s.calls, e)
    decreases |ls|
  {
    if ls != [] {
      SettledStays(cfg, s, ls[0], e);
      if ls[0].ClaimReply? {
        AppendCall(s.calls, s.workers[ls[0].worker].lease.snapshot, e);
      }
      SettledIsQuiet(cfg, Apply(cfg, s, ls[0]), ls[1..], t, e);
    }
  }

  /** A live worker with nothing to do delivers any event that has not ended: it waits until the event is due. */
  lemma DeliverAgain(cfg: Settings, s: Sys, w: WorkerId, e: EventId) returns (t: Sys)
    requires cfg.Valid() && Inv(cfg, s) && Alive(s, w) && s.workers[w].Idle? && e in s.rows && !Terminal(s.rows[e])
    ensures Reaches(cfg, s, t) && CallsOf(t.calls, e) == CallsOf(s.calls, e) + 1 && t.answers == s.answers
  {
    assert RowInv(cfg, s, e, s.rows[e]);
    ReachesSelf(cfg, s);
    var due := if s.rows[e].status == Pending then s.rows[e].availableAt else s.rows[e].lockedUntil.value;
    t := CounterRange.Go(cfg, s, s, Tick(if due > s.clock then due else s.clock));
    t := CounterRange.Go(cfg, s, t, ClaimIssue(w));
    var others := t.rows.Keys - {e};
    assert IsNext(t.rows, t.clock, others, e);
    t := CounterRange.Go(cfg, s, t, ClaimApply(w, t.clock, others, Some(e)));
    AppendCall(s.calls, t.workers[w].lease.snapshot, e);
    t := CounterRange.Go(cfg, s, t, ClaimReply(w));
  }

  /** A live worker can give up what it is doing without touching any row. */
  lemma BecomeIdle(cfg: Settings, s: Sys, w: WorkerId) returns (t: Sys)
    requires Alive(s, w)
    ensures Reaches(cfg, s, t) && Alive(t, w) && t.workers[w].Idle?
    ensures t.rows == s.rows && t.calls == s.calls
  {
    ReachesSelf(cfg, s);
    match s.workers[w]
    case Idle => t := s;
    case Claiming(_) => t := CounterRange.Go(cfg, s, s, ClaimLost(w));
    case Claimed(_) => t := CounterRange.Go(cfg, s, s, ClaimLost(w));
    case Publishing(_, _) => t := CounterRange.Go(cfg, s, s, PublishAbandon(w, PublishOutcome.Canceled));
    case Finalizing(_, _, _) => t := CounterRange.Go(cfg, s, s, FinalizeFail(w));
  }

  /**
   As long as some worker is alive, an event can still be delivered, again or for the first time, if and
   only if it is neither published nor dead-lettered nor removed, or the answer to a claim of it is still on its way.
   */
  lemma DeliverableIff(cfg: Settings, s: Sys, w: WorkerId, e: EventId)
    requires cfg.Valid() && Reachable(cfg, s) && Alive(s, w) && e in s.claims
    ensures (exists t :: Reaches(cfg, s, t) && CallsOf(t.calls, e) > CallsOf(s.calls, e))
            <==> (e in s.rows && !Terminal(s.rows[e])) || ClaimInFlight(s, e)
  {
    ReachableInv(cfg, s);
    if e in s.rows && !Terminal(s.rows[e]) {
      var u := BecomeIdle(cfg, s, w);
      ReachesKeepsInv(cfg, s, u);
      var t := DeliverAgain(cfg, u, w, e);
      ReachesTrans(cfg, s, u, t);
    } else if v :| Alive(s, v) && s.workers[v].Claimed? && s.workers[v].lease.snapshot.id == e {
      ReachesStep(cfg, s, ClaimReply(v));
      AppendCall(s.calls, s.workers[v].lease.snapshot, e);
    } else {
      assert Settled(s, e);
      forall t | Reaches(cfg, s, t) ensures CallsOf(t.calls, e) == CallsOf(s.calls, e) {
        var ls :| Runs(cfg, s, ls, t);
        SettledIsQuiet(cfg, s, ls, t, e);
      }
    }
  }

  const CLAIM := Claim(1, Triple("p", "c", "r"), 0)

  lemma OneEvent(cfg: Settings) returns (s: Sys)
    ensures Reachable(cfg, s) && s.clock == 0 && s.rows == map[1 := NewRow(1, CLAIM, 0)] && s.claims == map[1 := []]
    ensures s.workers == map["a" := Idle] && s.crashed == {} && s.calls == []
  {
    ReachesSelf(cfg, START);
    s := CounterRange.Go(cfg, START, START, Insert(1, CLAIM, 0));
    s := CounterRange.Go(cfg, START, s, Join("a"));
  }

  lemma FirstDelivery(cfg: Settings) returns (s: Sys)
    ensures Reachable(cfg, s) && CallsOf(s.calls, 1) == 1
    ensures 1 in s.rows && s.rows[1].status == Processing
    ensures Alive(s, "a") && s.workers["a"].Publishing?
    ensures s.workers["a"].lease.snapshot.id == 1 && s.workers["a"].lease.number == 1
  {
    s := OneEvent(cfg);
    s := CounterRange.ClaimOnly(cfg, START, s, "a");
    AppendCall([], s.workers["a"].lease.snapshot, 1);
    assert s.calls + [s.workers["a"].lease.snapshot] == [] + [s.workers["a"].lease.snapshot];
    s := CounterRange.Go(cfg, START, s, ClaimReply("a"));
  }

  /** A worker delivers an event, the publisher accepts it, and the worker fails to store that. */
  lemma SuccessForgotten(cfg: Settings) returns (s: Sys)
    ensures Reachable(cfg, s) && CallsOf(s.calls, 1) == 1 && Return(1, 1, "a", Success) in s.answers
    ensures 1 in s.rows && s.rows[1].status == Processing && Alive(s, "a") && s.workers["a"].Idle?
  {
    s := FirstDelivery(cfg);
    s := CounterRange.Go(cfg, START, s, PublishReturn("a", Success));
    s := CounterRange.Go(cfg, START, s, FinalizeFail("a"));
  }

  /** With any settings, some run delivers an event twice although the publisher had accepted it the first time. */
  lemma DeliveredTwice(cfg: Settings) returns (s: Sys)
    requires cfg.Valid()
    ensures Reachable(cfg, s) && CallsOf(s.calls, 1) == 2 && Return(1, 1, "a", Success) in s.answers
  {
    var once := SuccessForgotten(cfg);
    ReachableInv(cfg, once);
    s := DeliverAgain(cfg, once, "a", 1);
    ReachesTrans(cfg, START, once, s);
  }
}

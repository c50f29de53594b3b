/**
 Timed runs: workers do not pause, a query is over within the query timeout, and the publisher returns by its
 deadline. Within such runs the lease budget of validateOutbox is exactly what keeps a lease from being lost.
 */
module TimedLeases {
  import opened Wrappers
  import opened OutboxSchema
  import opened OutboxProtocol
  import opened OutboxInvariant
  import LeaseBudget

  /** The moment by which a worker that does not pause has left the phase. */
  function Deadline(cfg: Settings, p: Phase): Option<int> {
    match p
    case Idle => None
    case Claiming(issued) => Some(issued + cfg.queryTimeout)
    case Claimed(lease) => Some(lease.issued + cfg.queryTimeout)
    case Publishing(_, started) => Some(started + cfg.publishTimeout)
    case Finalizing(_, _, issued) => Some(issued + cfg.queryTimeout)
  }

  ghost predicate OnTime(cfg: Settings, s: Sys) {
    forall w :: Alive(s, w) && Deadline(cfg, s.workers[w]).Some? ==>
                  s.clock <= Deadline(cfg, s.workers[w]).value
  }

  /** A run whose every state is on time. */
  ghost predicate TimedRun(cfg: Settings, s: Sys, ls: seq<Label>, t: Sys)
    decreases |ls|
  {
    && OnTime(cfg, s)
    && if ls == [] then s == t else Enabled(s, ls[0]) && TimedRun(cfg, Apply(cfg, s, ls[0]), ls[1..], t)
  }

  /** A worker that is alive holds a lease although the event has been claimed again. */
  ghost predicate LeaseLost(s: Sys) {
    exists w :: Alive(s, w) && s.workers[w].Leased() && Superseded(s, s.workers[w].lease)
  }

  predicate Superseded(s: Sys, lease: Lease) {
    lease.snapshot.id in s.claims && lease.number < |s.claims[lease.snapshot.id]|
  }

  /** Two workers that are alive are between claim and finalization of the same event. */
  ghost predicate SharedEvent(s: Sys) {
    exists v, w :: v != w && Alive(s, v) && Alive(s, w) && s.workers[v].Leased() && s.workers[w].Leased()
                   && s.workers[v].lease.snapshot.id == s.workers[w].lease.snapshot.id
  }

  /** How far into its lease a live worker can be. */
  predicate Prompt(cfg: Settings, p: Phase) {
    && (p.Publishing? ==> p.started <= p.lease.issued + cfg.queryTimeout)
    && (p.Finalizing? ==> p.issued <= p.lease.issued + cfg.queryTimeout + cfg.publishTimeout)
  }

  ghost predicate TimedInv(cfg: Settings, s: Sys) {
    && Inv(cfg, s)
    && forall w :: Alive(s, w) && s.workers[w].Leased() ==>
                     Prompt(cfg, s.workers[w]) && !Superseded(s, s.workers[w].lease)
  }

  /** A live worker's row cannot be due: the whole budget fits into the lease. */
  lemma LeaseOutlivesWork(cfg: Settings, s: Sys, w: WorkerId, now: int)
    requires cfg.Valid() && LeaseBudget.Covers(cfg.lockTTL, cfg.publishTimeout, cfg.queryTimeout)
    requires TimedInv(cfg, s) && OnTime(cfg, s)
    requires Alive(s, w) && s.workers[w].Leased() && now <= s.clock
    ensures s.workers[w].lease.snapshot.id in s.rows && !Due(s.rows[s.workers[w].lease.snapshot.id], now)
  {
    var lease := s.workers[w].lease;
    assert WorkerInv(cfg, s, w, s.workers[w]);
    assert RowInv(cfg, s, lease.snapshot.id, s.rows[lease.snapshot.id]);
    assert s.clock <= Deadline(cfg, s.workers[w]).value;
  }

  /** Only a claim that picks a worker's own event can supersede its lease, and the budget forbids that. */
  lemma NotSuperseded(cfg: Settings, s: Sys, l: Label, w: WorkerId)
    requires cfg.Valid() && LeaseBudget.Covers(cfg.lockTTL, cfg.publishTimeout, cfg.queryTimeout)
    requires TimedInv(cfg, s) && OnTime(cfg, s) && Enabled(s, l)
    requires Alive(s, w) && s.workers[w].Leased()
    ensures !Superseded(Apply(cfg, s, l), s.workers[w].lease)
  {
    if l.ClaimApply? {
      LeaseOutlivesWork(cfg, s, w, l.now);
    } else if l.Insert? {
      assert WorkerInv(cfg, s, w, s.workers[w]);
    }
  }

  /** A worker that moves from one leased phase to the next does so within its deadline. */
  lemma StaysPrompt(cfg: Settings, s: Sys, l: Label, t: Sys, w: WorkerId)
    requires TimedInv(cfg, s) && OnTime(cfg, s) && Enabled(s, l) && t == Apply(cfg, s, l)
    requires Alive(s, w) && s.workers[w].Leased() && w in t.workers && t.workers[w].Leased()
    ensures Prompt(cfg, t.workers[w]) && t.workers[w].lease == s.workers[w].lease
  {
    assert s.clock <= Deadline(cfg, s.workers[w]).value;
    if !l.ByWorker(w) {
      OthersKeepPhase(cfg, s, l, w);
    } else {
      OwnLeasedStep(cfg, s, l, t, w);
    }
  }

  /** A lease that a step creates is the event's latest claim. */
  lemma FreshLease(cfg: Settings, s: Sys, l: Label, w: WorkerId)
    requires Enabled(s, l) && w in Apply(cfg, s, l).workers && Apply(cfg, s, l).workers[w].Leased()
    requires !(w in s.workers && s.workers[w].Leased())
    ensures Apply(cfg, s, l).workers[w].Claimed? && !Superseded(Apply(cfg, s, l), Apply(cfg, s, l).workers[w].lease)
  {
  }

  lemma TimedStep(cfg: Settings, s: Sys, l: Label)
    requires cfg.Valid() && LeaseBudget.Covers(cfg.lockTTL, cfg.publishTimeout, cfg.queryTimeout)
    requires TimedInv(cfg, s) && OnTime(cfg, s) && Enabled(s, l)
    ensures TimedInv(cfg, Apply(cfg, s, l))
  {
    var t := Apply(cfg, s, l);
    StepKeepsInv(cfg, s, l);
    forall w | Alive(t, w) && t.workers[w].Leased()
      ensures Prompt(cfg, t.workers[w]) && !Superseded(t, t.workers[w].lease)
    {
      if w in s.workers && s.workers[w].Leased() {
        StillAlive(cfg, s, l, w);
        StaysPrompt(cfg, s, l, t, w);
        NotSuperseded(cfg, s, l, w);
      } else {
        FreshLease(cfg, s, l, w);
      }
    }
  }

  lemma StillAlive(cfg: Settings, s: Sys, l: Label, w: WorkerId)
    requires Enabled(s, l) && w in s.workers && Alive(Apply(cfg, s, l), w)
    ensures Alive(s, w)
  {
  }

  /** Two live workers that both hold an event's latest claim are the same worker. */
  lemma OneHolder(cfg: Settings, s: Sys, v: WorkerId, w: WorkerId)
    requires TimedInv(cfg, s) && Alive(s, v) && Alive(s, w) && s.workers[v].Leased() && s.workers[w].Leased()
    requires s.workers[v].lease.snapshot.id == s.workers[w].lease.snapshot.id
    ensures v == w
  {
    assert WorkerInv(cfg, s, v, s.workers[v]);
    assert WorkerInv(cfg, s, w, s.workers[w]);
  }

  lemma {:induction false} TimedRunKeepsInv(cfg: Settings, s: Sys, ls: seq<Label>, t: Sys)
    requires cfg.Valid() && LeaseBudget.Covers(cfg.lockTTL, cfg.publishTimeout, cfg.queryTimeout)
    requires TimedInv(cfg, s) && TimedRun(cfg, s, ls, t)
    ensures TimedInv(cfg, t)
    decreases |ls|
  {
    if ls != [] {
      TimedStep(cfg, s, ls[0]);
      TimedRunKeepsInv(cfg, Apply(cfg, s, ls[0]), ls[1..], t);
    }
  }

  /** With the budget, no timed run loses a lease, and no event is ever in two live workers' hands. */
  lemma BudgetKeepsLeases(cfg: Settings, ls: seq<Label>, t: Sys)
    requires cfg.Valid() && LeaseBudget.Covers(cfg.lockTTL, cfg.publishTimeout, cfg.queryTimeout)
    requires TimedRun(cfg, START, ls, t)
    ensures !LeaseLost(t) && !SharedEvent(t)
  {
    StartInv(cfg);
    TimedRunKeepsInv(cfg, START, ls, t);
    forall v, w | Alive(t, v) && Alive(t, w) && t.workers[v].Leased() && t.workers[w].Leased()
                  && t.workers[v].lease.snapshot.id == t.workers[w].lease.snapshot.id
      ensures v == w
    {
      OneHolder(cfg, t, v, w);
    }
  }

  ghost predicate TimedReaches(cfg: Settings, t: Sys) {
    exists ls :: TimedRun(cfg, START, ls, t)
  }

  lemma {:induction false} TimedAppend(cfg: Settings, s: Sys, ls: seq<Label>, t: Sys, l: Label)
    requires TimedRun(cfg, s, ls, t) && Enabled(t, l) && OnTime(cfg, Apply(cfg, t, l))
    ensures TimedRun(cfg, s, ls + [l], Apply(cfg, t, l))
    decreases |ls|
  {
    if ls == [] {
      var u := Apply(cfg, t, l);
      assert [l][1..] == [];
      assert TimedRun(cfg, u, [], u);
      assert ls + [l] == [l];
    } else {
      TimedAppend(cfg, Apply(cfg, s, ls[0]), ls[1..], t, l);
      assert (ls + [l])[1..] == ls[1..] + [l];
    }
  }

  lemma TimedNext(cfg: Settings, t: Sys, l: Label)
    requires TimedReaches(cfg, t) && Enabled(t, l) && OnTime(cfg, Apply(cfg, t, l))
    ensures TimedReaches(cfg, Apply(cfg, t, l))
  {
    var ls :| TimedRun(cfg, START, ls, t);
    TimedAppend(cfg, START, ls, t, l);
  }

  // ---- the run that loses its lease when the budget is missing -----------------------------------------

  const CLAIM := Claim(1, Triple("p", "c", "r"), 0)
  const SNAPSHOT := Snapshot(1, NewRow(1, CLAIM, 0))
  const FAILED := Return(1, 1, "a", Failed)

  /** The event right after its insertion at time 0, with worker a in the given phase and worker b idle. */
  function Scene(clock: int, row: Row, history: seq<ClaimRecord>, a: Phase, b: Phase, calls: seq<Event>,
                 answers: set<Return>): Sys
  {
    Sys(clock, map[1 := row], map[], map["a" := a, "b" := b], {}, map[1 := history], calls, answers, [])
  }

  lemma SceneOpens(cfg: Settings)
    ensures TimedReaches(cfg, Scene(0, NewRow(1, CLAIM, 0), [], Idle, Idle, [], {}))
  {
    assert TimedRun(cfg, START, [], START);
    TimedNext(cfg, START, Insert(1, CLAIM, 0));
    var s1 := Apply(cfg, START, Insert(1, CLAIM, 0));
    TimedNext(cfg, s1, Join("a"));
    var s2 := Apply(cfg, s1, Join("a"));
    TimedNext(cfg, s2, Join("b"));
    assert Apply(cfg, s2, Join("b")) == Scene(0, NewRow(1, CLAIM, 0), [], Idle, Idle, [], {});
  }

  function FirstLease(): Lease {
    Lease(SNAPSHOT, 1, 0, 0)
  }

  function LeasedTo(cfg: Settings, w: WorkerId, now: int): Row {
    LeaseRow(NewRow(1, CLAIM, 0), w, now, cfg.lockTTL)
  }

  lemma SceneClaimed(cfg: Settings)
    requires cfg.Valid()
    ensures TimedReaches(cfg, Scene(cfg.queryTimeout, LeasedTo(cfg, "a", 0), [ClaimRecord("a", 0)], Claimed(FirstLease()),
                                    Idle, [], {}))
  {
    SceneOpens(cfg);
    var s := Scene(0, NewRow(1, CLAIM, 0), [], Idle, Idle, [], {});
    var s1 := Scene(0, NewRow(1, CLAIM, 0), [], Claiming(0), Idle, [], {});
    assert Apply(cfg, s, ClaimIssue("a")) == s1;
    TimedNext(cfg, s, ClaimIssue("a"));
    var l := ClaimApply("a", 0, {}, Some(1));
    var s2 := Scene(0, LeasedTo(cfg, "a", 0), [ClaimRecord("a", 0)], Claimed(FirstLease()), Idle, [], {});
    assert IsNext(s1.rows, 0, {}, 1);
    assert s1.claims[1] + [ClaimRecord("a", 0)] == [ClaimRecord("a", 0)];
    assert Apply(cfg, s1, l) == s2;
    TimedNext(cfg, s1, l);
    TimedNext(cfg, s2, Tick(cfg.queryTimeout));
  }

  /** Worker a has used its whole time: its final statement is about to end, the publisher having failed. */
  function LateScene(cfg: Settings): Sys {
    Scene(2 * cfg.queryTimeout + cfg.publishTimeout, LeasedTo(cfg, "a", 0), [ClaimRecord("a", 0)],
          Finalizing(FirstLease(), cfg.Decide(0, Failed), cfg.queryTimeout + cfg.publishTimeout), Idle, [SNAPSHOT], {FAILED})
  }

  lemma ScenePublished(cfg: Settings)
    requires cfg.Valid()
    ensures TimedReaches(cfg, Scene(cfg.queryTimeout + cfg.publishTimeout, LeasedTo(cfg, "a", 0), [ClaimRecord("a", 0)],
                                    Publishing(FirstLease(), cfg.queryTimeout), Idle, [SNAPSHOT], {}))
  {
    SceneClaimed(cfg);
    var q := cfg.queryTimeout;
    var row := LeasedTo(cfg, "a", 0);
    var h := [ClaimRecord("a", 0)];
    var s := Scene(q, row, h, Claimed(FirstLease()), Idle, [], {});
    var s1 := Scene(q, row, h, Publishing(FirstLease(), q), Idle, [SNAPSHOT], {});
    assert Apply(cfg, s, ClaimReply("a")) == s1;
    TimedNext(cfg, s, ClaimReply("a"));
    TimedNext(cfg, s1, Tick(q + cfg.publishTimeout));
  }

  lemma SceneLate(cfg: Settings)
    requires cfg.Valid()
    ensures TimedReaches(cfg, LateScene(cfg))
  {
    ScenePublished(cfg);
    var q := cfg.queryTimeout;
    var p := cfg.publishTimeout;
    var row := LeasedTo(cfg, "a", 0);
    var h := [ClaimRecord("a", 0)];
    var s2 := Scene(q + p, row, h, Publishing(FirstLease(), q), Idle, [SNAPSHOT], {});
    var s3 := Scene(q + p, row, h, Finalizing(FirstLease(), cfg.Decide(0, Failed), q + p), Idle, [SNAPSHOT], {FAILED});
    assert Apply(cfg, s2, PublishReturn("a", Failed)) == s3;
    TimedNext(cfg, s2, PublishReturn("a", Failed));
    TimedNext(cfg, s3, Tick(2 * q + p));
  }

  /** Without the budget, worker b claims the event before worker a's final statement ends. */
  lemma MissingBudgetLosesLease(cfg: Settings) returns (t: Sys)
    requires cfg.Valid() && !LeaseBudget.Covers(cfg.lockTTL, cfg.publishTimeout, cfg.queryTimeout)
    ensures TimedReaches(cfg, t) && LeaseLost(t) && SharedEvent(t)
  {
    SceneLate(cfg);
    var s := LateScene(cfg);
    var now := s.clock;
    TimedNext(cfg, s, ClaimIssue("b"));
    var s1 := Apply(cfg, s, ClaimIssue("b"));
    var l := ClaimApply("b", now, {}, Some(1));
    assert s1.rows == s.rows && s.rows.Keys == {1};
    assert Due(s.rows[1], now);
    assert IsNext(s1.rows, now, {}, 1);
    t := Apply(cfg, s1, l);
    TimedNext(cfg, s1, l);
    assert Alive(t, "a") && t.workers["a"].Leased() && Superseded(t, t.workers["a"].lease);
    assert Alive(t, "b") && t.workers["b"].Leased();
  }

  /**
   The lease budget is exact: settings leave every timed run, of any number of workers, without a lost lease and
   without a shared event if and only if lockTTL > publishTimeout + 2 * queryTimeout.
   */
  lemma BudgetIsExact(cfg: Settings)
    requires cfg.Valid()
    ensures LeaseBudget.Covers(cfg.lockTTL, cfg.publishTimeout, cfg.queryTimeout)
            <==> (forall t :: TimedReaches(cfg, t) ==> !LeaseLost(t) && !SharedEvent(t))
  {
    if LeaseBudget.Covers(cfg.lockTTL, cfg.publishTimeout, cfg.queryTimeout) {
      forall t | TimedReaches(cfg, t) ensures !LeaseLost(t) && !SharedEvent(t) {
        var ls :| TimedRun(cfg, START, ls, t);
        BudgetKeepsLeases(cfg, ls, t);
      }
    } else {
      var t := MissingBudgetLosesLease(cfg);
    }
  }

  /** A timed run is a run of the protocol, so every theorem about reachable states holds in timed runs too. */
  lemma {:induction false} TimedRunIsRun(cfg: Settings, s: Sys, ls: seq<Label>, t: Sys)
    requires TimedRun(cfg, s, ls, t)
    ensures Runs(cfg, s, ls, t)
    decreases |ls|
  {
    if ls != [] {
      TimedRunIsRun(cfg, Apply(cfg, s, ls[0]), ls[1..], t);
    }
  }
}

/**
 The outbox worker protocol as a state machine: any number of workers claim due rows for a lease,
 publish outside any transaction and finalize with a name-fenced update, while API transactions
 insert rows, retention removes published rows, processes crash and replies get lost.

 A statement is issued, takes effect at some later moment under a now() taken in between, and is then
 answered; or it never takes effect. Row locks make each effect atomic.
 */
module OutboxProtocol {
  import opened Wrappers
  import opened OutboxSchema
  import Backoff

  /** The settings all workers share. */
  datatype Settings = Settings(
    lockTTL: int, publishTimeout: int, queryTimeout: int, maxFailures: int, baseBackoff: int, maxBackoff: int)
  {
    predicate Valid() {
      && 0 < lockTTL && 0 < publishTimeout && 0 < queryTimeout
      && 0 < maxFailures
      && 0 < baseBackoff <= maxBackoff
    }

    function Delay(failedAttempts: int): int {
      Backoff.DelayAfter(baseBackoff, maxBackoff, failedAttempts)
    }

    /** processEvent's decision, taken from the snapshot the claim returned. */
    function Decide(failedAttempts: int, outcome: PublishOutcome): Op {
      if outcome == Success then ToPublished
      else if failedAttempts + 1 >= maxFailures then ToDeadLetter(outcome)
      else ToRetry(Delay(failedAttempts + 1), outcome)
    }
  }

  /** One claim of an event: who claimed it, and the statement time its lease is counted from. */
  datatype ClaimRecord = ClaimRecord(worker: WorkerId, now: int)

  /** What a worker knows of its claim: the event as it was claimed; `number` counts the event's claims from 1 and is in no column. */
  datatype Lease = Lease(snapshot: Event, number: nat, issued: int, now: int)

  datatype Phase =
    | Idle
    | Claiming(issued: int)
    | Claimed(lease: Lease)
    | Publishing(lease: Lease, started: int)
    | Finalizing(lease: Lease, op: Op, issued: int)
  {
    predicate Leased() {
      Claimed? || Publishing? || Finalizing?
    }
  }

  /** A return of the publisher. */
  datatype Return = Return(event: EventId, number: nat, worker: WorkerId, outcome: PublishOutcome)

  /** A finalizing statement that ran; `affected` is its row count being 1, and otherwise the caller got ErrLeaseLost. */
  datatype Final = Final(event: EventId, number: nat, worker: WorkerId, op: Op, now: int, affected: bool)

  /** `gone` keeps what retention removed; claims, calls, answers and finals are the history of the run. */
  datatype Sys = Sys(
    clock: int,
    rows: map<EventId, Row>,
    gone: map<EventId, Row>,
    workers: map<WorkerId, Phase>,
    crashed: set<WorkerId>,
    claims: map<EventId, seq<ClaimRecord>>,
    calls: seq<Event>,
    answers: set<Return>,
    finals: seq<Final>)

  const START := Sys(0, map[], map[], map[], {}, map[], [], {}, [])

  datatype Label =
    | Tick(to: int)
    | Insert(id: EventId, claim: Claim, now: int)
    | CleanUp(id: EventId)
    | Join(worker: WorkerId)
    | Crash(worker: WorkerId)
    | ClaimIssue(worker: WorkerId)
    | ClaimApply(worker: WorkerId, now: int, skipped: set<EventId>, picked: Option<EventId>)
    | ClaimReply(worker: WorkerId)
    | ClaimLost(worker: WorkerId)
    | PublishReturn(worker: WorkerId, outcome: PublishOutcome)
    | PublishAbandon(worker: WorkerId, outcome: PublishOutcome)
    | FinalizeApply(worker: WorkerId, now: int)
    | FinalizeFail(worker: WorkerId)
  {
    predicate ByWorker(w: WorkerId) {
      !Tick? && !Insert? && !CleanUp? && worker == w
    }
  }

  predicate Enabled(s: Sys, l: Label) {
    match l
    case Tick(to) => to >= s.clock
    case Insert(id, claim, now) =>
      && id !in s.claims && now <= s.clock
      && forall other :: other in s.rows ==> s.rows[other].aggregateId != claim.id
    case CleanUp(id) => id in s.rows && s.rows[id].status == Published
    case Join(w) => w !in s.workers && 1 <= |w| <= MAX_WORKER_ID
    case Crash(w) => w in s.workers
    case ClaimIssue(w) => Alive(s, w) && s.workers[w].Idle?
    case ClaimApply(w, now, skipped, picked) =>
      && w in s.workers && s.workers[w].Claiming?
      && s.workers[w].issued <= now <= s.clock
      && (if picked.Some? then IsNext(s.rows, now, skipped, picked.value) else NoneDue(s.rows, now, skipped))
    case ClaimReply(w) => Alive(s, w) && s.workers[w].Claimed?
    case ClaimLost(w) => Alive(s, w) && (s.workers[w].Claiming? || s.workers[w].Claimed?)
    case PublishReturn(w, outcome) => Alive(s, w) && s.workers[w].Publishing?
    case PublishAbandon(w, outcome) => Alive(s, w) && s.workers[w].Publishing? && outcome != Success
    case FinalizeApply(w, now) =>
      && w in s.workers && s.workers[w].Finalizing?
      && s.workers[w].issued <= now <= s.clock
      && !(Hits(s, w, s.workers[w].lease.snapshot.id) && Overflows(s.rows[s.workers[w].lease.snapshot.id], s.workers[w].op))
    case FinalizeFail(w) => Alive(s, w) && s.workers[w].Finalizing?
  }

  predicate Alive(s: Sys, w: WorkerId) {
    w in s.workers && w !in s.crashed
  }

  /** The name fence: the finalizing statement of worker w finds its row. */
  predicate Hits(s: Sys, w: WorkerId, e: EventId) {
    e in s.rows && Fenced(s.rows[e], w)
  }

  function Apply(cfg: Settings, s: Sys, l: Label): Sys
    requires Enabled(s, l)
  {
    match l
    case Tick(to) => s.(clock := to)
    case Insert(id, claim, now) =>
      s.(rows := s.rows[id := NewRow(id, claim, now)], claims := s.claims[id := []])
    case CleanUp(id) => s.(rows := s.rows - {id}, gone := s.gone[id := s.rows[id]])
    case Join(w) => s.(workers := s.workers[w := Idle])
    case Crash(w) => s.(crashed := s.crashed + {w})
    case ClaimIssue(w) => s.(workers := s.workers[w := Claiming(s.clock)])
    case ClaimApply(w, now, _, picked) =>
      if picked.None? then s.(workers := s.workers[w := Idle]) else ApplyClaim(cfg, s, w, now, picked.value)
    case ClaimReply(w) =>
      var lease := s.workers[w].lease;
      s.(workers := s.workers[w := Publishing(lease, s.clock)], calls := s.calls + [lease.snapshot])
    case ClaimLost(w) => s.(workers := s.workers[w := Idle])
    case PublishReturn(w, outcome) =>
      var lease := s.workers[w].lease;
      s.(workers := s.workers[w := Finalizing(lease, cfg.Decide(lease.snapshot.failedAttempts, outcome), s.clock)],
         answers := s.answers + {Return(lease.snapshot.id, lease.number, w, outcome)})
    case PublishAbandon(w, outcome) =>
      var lease := s.workers[w].lease;
      s.(workers := s.workers[w := Idle], answers := s.answers + {Return(lease.snapshot.id, lease.number, w, outcome)})
    case FinalizeApply(w, now) => ApplyFinal(s, w, now)
    case FinalizeFail(w) => s.(workers := s.workers[w := Idle])
  }

  function ApplyClaim(cfg: Settings, s: Sys, w: WorkerId, now: int, e: EventId): Sys
    requires w in s.workers && s.workers[w].Claiming?
    requires e in s.rows
  {
    var before := if e in s.claims then s.claims[e] else [];
    var lease := Lease(Snapshot(e, s.rows[e]), |before| + 1, s.workers[w].issued, now);
    s.(rows := s.rows[e := LeaseRow(s.rows[e], w, now, cfg.lockTTL)],
       claims := s.claims[e := before + [ClaimRecord(w, now)]],
       workers := s.workers[w := Claimed(lease)])
  }

  function ApplyFinal(s: Sys, w: WorkerId, now: int): Sys
    requires w in s.workers && s.workers[w].Finalizing?
  {
    var Finalizing(lease, op, _) := s.workers[w];
    var hit := Hits(s, w, lease.snapshot.id);
    s.(rows := if hit then s.rows[lease.snapshot.id := FinalRow(s.rows[lease.snapshot.id], op, now)] else s.rows,
       workers := s.workers[w := Idle],
       finals := s.finals + [Final(lease.snapshot.id, lease.number, w, op, now, hit)])
  }

  /** A step of the environment or of another worker leaves a worker's phase alone. */
  lemma OthersKeepPhase(cfg: Settings, s: Sys, l: Label, w: WorkerId)
    requires Enabled(s, l) && w in s.workers && !l.ByWorker(w)
    ensures w in Apply(cfg, s, l).workers && Apply(cfg, s, l).workers[w] == s.workers[w]
  {
  }

  /** A worker that keeps its lease through a step of its own starts to publish, starts to finalize, or crashes. */
  lemma OwnLeasedStep(cfg: Settings, s: Sys, l: Label, t: Sys, w: WorkerId)
    requires Enabled(s, l) && t == Apply(cfg, s, l) && l.ByWorker(w)
    requires w in s.workers && s.workers[w].Leased() && w in t.workers && t.workers[w].Leased()
    ensures || (Alive(s, w) && s.workers[w].Claimed? && t.workers[w] == Publishing(s.workers[w].lease, s.clock))
            || (Alive(s, w) && s.workers[w].Publishing? && t.workers[w].Finalizing?
                && t.workers[w].lease == s.workers[w].lease && t.workers[w].issued == s.clock)
            || t.workers[w] == s.workers[w]
  {
    match l
    case ClaimReply(_) =>
    case PublishReturn(_, _) =>
    case _ =>
  }

  /** Taking the labels one after another, each where it is enabled. */
  ghost predicate Runs(cfg: Settings, s: Sys, ls: seq<Label>, t: Sys)
    decreases |ls|
  {
    if ls == [] then s == t else Enabled(s, ls[0]) && Runs(cfg, Apply(cfg, s, ls[0]), ls[1..], t)
  }

  ghost predicate Reaches(cfg: Settings, s: Sys, t: Sys) {
    exists ls :: Runs(cfg, s, ls, t)
  }

  ghost predicate Reachable(cfg: Settings, s: Sys) {
    Reaches(cfg, START, s)
  }

  lemma {:induction false} RunsConcat(cfg: Settings, s: Sys, ls: seq<Label>, t: Sys, ms: seq<Label>, u: Sys)
    requires Runs(cfg, s, ls, t) && Runs(cfg, t, ms, u)
    ensures Runs(cfg, s, ls + ms, u)
    decreases |ls|
  {
    if ls == [] {
      assert ls + ms == ms;
    } else {
      RunsConcat(cfg, Apply(cfg, s, ls[0]), ls[1..], t, ms, u);
      assert (ls + ms)[1..] == ls[1..] + ms;
    }
  }

  lemma ReachesTrans(cfg: Settings, s: Sys, t: Sys, u: Sys)
    requires Reaches(cfg, s, t) && Reaches(cfg, t, u)
    ensures Reaches(cfg, s, u)
  {
    var ls :| Runs(cfg, s, ls, t);
    var ms :| Runs(cfg, t, ms, u);
    RunsConcat(cfg, s, ls, t, ms, u);
  }

  lemma ReachesStep(cfg: Settings, s: Sys, l: Label)
    requires Enabled(s, l)
    ensures Reaches(cfg, s, Apply(cfg, s, l))
  {
    var t := Apply(cfg, s, l);
    assert [l][1..] == [];
    assert Runs(cfg, t, [], t);
    assert Runs(cfg, s, [l], t);
  }

  lemma ReachesSelf(cfg: Settings, s: Sys)
    ensures Reaches(cfg, s, s)
  {
    assert Runs(cfg, s, [], s);
  }

  /** The history of finalizing statements is never rewritten. */
  lemma {:induction false} RunKeepsFinals(cfg: Settings, s: Sys, ls: seq<Label>, t: Sys)
    requires Runs(cfg, s, ls, t)
    ensures forall f :: f in s.finals ==> f in t.finals
    decreases |ls|
  {
    if ls != [] {
      RunKeepsFinals(cfg, Apply(cfg, s, ls[0]), ls[1..], t);
    }
  }

  // ---- what one worker did in a run --------------------------------------------------------------------

  function OwnPart(l: Label, w: WorkerId): seq<Label> {
    if l.ByWorker(w) then [l] else []
  }

  function Own(ls: seq<Label>, w: WorkerId): seq<Label> {
    if ls == [] then [] else OwnPart(ls[0], w) + Own(ls[1..], w)
  }

  /** Some run leads from s to t in which worker w's own steps are exactly these, in this order. */
  ghost predicate Did(cfg: Settings, s: Sys, t: Sys, w: WorkerId, own: seq<Label>) {
    exists ls :: Runs(cfg, s, ls, t) && Own(ls, w) == own
  }

  lemma ConcatAssoc<T>(a: seq<T>, b: seq<T>, c: seq<T>)
    ensures a + (b + c) == (a + b) + c
  {
  }

  lemma {:induction false} OwnConcat(ls: seq<Label>, ms: seq<Label>, w: WorkerId)
    ensures Own(ls + ms, w) == Own(ls, w) + Own(ms, w)
  {
    if ls == [] {
      assert ls + ms == ms;
    } else {
      OwnConcat(ls[1..], ms, w);
      assert (ls + ms)[0] == ls[0] && (ls + ms)[1..] == ls[1..] + ms;
      ConcatAssoc(OwnPart(ls[0], w), Own(ls[1..], w), Own(ms, w));
    }
  }

  lemma DidTrans(cfg: Settings, s: Sys, t: Sys, u: Sys, w: WorkerId, a: seq<Label>, b: seq<Label>)
    requires Did(cfg, s, t, w, a) && Did(cfg, t, u, w, b)
    ensures Did(cfg, s, u, w, a + b)
  {
    var ls :| Runs(cfg, s, ls, t) && Own(ls, w) == a;
    var ms :| Runs(cfg, t, ms, u) && Own(ms, w) == b;
    RunsConcat(cfg, s, ls, t, ms, u);
    OwnConcat(ls, ms, w);
  }

  lemma DidStep(cfg: Settings, s: Sys, l: Label, w: WorkerId)
    requires Enabled(s, l)
    ensures Did(cfg, s, Apply(cfg, s, l), w, OwnPart(l, w))
  {
    var t := Apply(cfg, s, l);
    assert [l][1..] == [];
    assert Runs(cfg, t, [], t);
    assert Runs(cfg, s, [l], t);
    assert Own([], w) == [];
    assert Own([l], w) == OwnPart(l, w) + [];
  }

  lemma DidNothing(cfg: Settings, s: Sys, w: WorkerId)
    ensures Did(cfg, s, s, w, [])
  {
    assert Runs(cfg, s, [], s) && Own([], w) == [];
  }

  lemma DidReaches(cfg: Settings, s: Sys, t: Sys, w: WorkerId, own: seq<Label>)
    requires Did(cfg, s, t, w, own)
    ensures Reaches(cfg, s, t) && forall f :: f in s.finals ==> f in t.finals
  {
    var ls :| Runs(cfg, s, ls, t) && Own(ls, w) == own;
    RunKeepsFinals(cfg, s, ls, t);
  }
}

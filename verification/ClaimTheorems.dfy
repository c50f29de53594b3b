/** What concurrent claims look like from outside, in every reachable state and every run. */
module ClaimTheorems {
  import opened Wrappers
  import opened OutboxSchema
  import opened ClaimLedger
  import opened ClaimProtocol
  import opened ClaimInvariant

  // ---- linearizability -----------------------------------------------------------------------------------

  /**
   Every step of the interleaved protocol is either invisible or exactly one atomic step of the ledger: a commit of
   a new key, a read of a stored one, or a deletion by retention.
   */
  lemma StepRefines(codec: Codec, w: World, l: Label)
    requires codec.Sound() && Inv(codec, w) && Enabled(w, l)
    ensures var v := Apply(codec, w, l);
            if v.log == w.log then v.db == w.db
            else
              && |v.log| == |w.log| + 1 && v.log[..|w.log|] == w.log
              && Allows(codec, w.db, v.log[|w.log|]) && v.db == Next(w.db, v.log[|w.log|])
              && (v.log[|w.log|].Served? ==>
                    (l.Load? || l.Commit?) && v.log[|w.log|].request == l.r
                    && v.log[|w.log|].params == w.requests[l.r].params)
  {
    match l
    case Load(r) =>
      if w.requests[r].params.key in w.db.keys {
        LoadFound(codec, w, r);
      }
    case Commit(r, lost) =>
      if PcOf(w, r).Committing? {
        CommitIsAtomic(codec, w, r);
      } else {
        assert RequestInv(codec, w, r, w.requests[r]);
      }
    case _ =>
  }

  /**
   In every reachable state the committed tables are those of a legal sequential history of the ledger; a request
   that was answered stands in that history once, with its own parameters and its own answer.
   */
  lemma Linearizable(codec: Codec, w: World)
    requires codec.Sound() && Reachable(codec, w)
    ensures Legal(codec, w.log) && w.db == After(w.log)
    ensures forall r :: r in w.requests && w.requests[r].pc.Done? && w.requests[r].pc.outcome.Answered? ==>
                          exists i :: 0 <= i < |w.log| && w.log[i].Served? && w.log[i].request == r
                                      && w.log[i].params == w.requests[r].params
                                      && w.log[i].answer == w.requests[r].pc.outcome.answer
    ensures forall i, j :: (0 <= i < |w.log| && 0 <= j < |w.log| && w.log[i].Served? && w.log[j].Served?
                            && w.log[i].request == w.log[j].request) ==> i == j
  {
    ReachableInv(codec, w);
    forall r | r in w.requests && w.requests[r].pc.Done? && w.requests[r].pc.outcome.Answered?
      ensures exists i :: 0 <= i < |w.log| && w.log[i].Served? && w.log[i].request == r
                          && w.log[i].params == w.requests[r].params
                          && w.log[i].answer == w.requests[r].pc.outcome.answer
    {
      assert RequestInv(codec, w, r, w.requests[r]);
      var i := w.requests[r].served.value;
      assert w.log[i].request == r;
    }
  }

  /** A request that failed without a place in the history has no effect; with one, it has that entry's whole effect. */
  lemma FailedAllOrNothing(codec: Codec, w: World, r: nat)
    requires codec.Sound() && Reachable(codec, w) && r in w.requests
    requires w.requests[r].pc.Done? && w.requests[r].pc.outcome.Errored?
    ensures w.requests[r].writes == NO_WRITES
    ensures w.requests[r].served.None? ==> forall i :: 0 <= i < |w.log| && w.log[i].Served? ==> w.log[i].request != r
    ensures w.requests[r].served.Some? ==>
              var i := w.requests[r].served.value;
              i < |w.log| && w.log[i].Served? && w.log[i].request == r
              && Allows(codec, After(w.log[..i]), w.log[i]) && After(w.log[..i + 1]) == Next(After(w.log[..i]), w.log[i])
  {
    ReachableInv(codec, w);
    assert RequestInv(codec, w, r, w.requests[r]);
    if w.requests[r].served.Some? {
      LegalAt(codec, w.log, w.requests[r].served.value);
    }
  }

  /** The log only grows, finished requests stay finished, and no request is forgotten. */
  lemma {:induction false} RunExtends(codec: Codec, w: World, ls: seq<Label>, v: World)
    requires Runs(codec, w, ls, v)
    ensures |w.log| <= |v.log| && v.log[..|w.log|] == w.log
    ensures forall r :: r in w.requests ==> r in v.requests
    ensures forall r :: r in w.requests && w.requests[r].pc.Done? ==> v.requests[r] == w.requests[r]
    decreases |ls|
  {
    if ls != [] {
      var u := Apply(codec, w, ls[0]);
      StepExtends(codec, w, ls[0]);
      RunExtends(codec, u, ls[1..], v);
      assert v.log[..|w.log|] == v.log[..|u.log|][..|w.log|];
    }
  }

  lemma StepExtends(codec: Codec, w: World, l: Label)
    requires Enabled(w, l)
    ensures var u := Apply(codec, w, l);
            && |w.log| <= |u.log| && u.log[..|w.log|] == w.log
            && (forall r :: r in w.requests ==> r in u.requests)
            && (forall r :: r in w.requests && w.requests[r].pc.Done? ==> u.requests[r] == w.requests[r])
  {
    var u := Apply(codec, w, l);
    assert u.log == w.log || exists e :: u.log == w.log + [e];
  }

  /** The history respects real time: a request that finished before another one began stands before it. */
  lemma RealTimeOrder(codec: Codec, w: World, ls: seq<Label>, v: World, first: nat, second: nat)
    requires codec.Sound() && Reachable(codec, w) && Runs(codec, w, ls, v)
    requires first in w.requests && w.requests[first].pc.Done? && second !in w.requests && second in v.requests
    requires w.requests[first].served.Some? && v.requests[second].served.Some?
    ensures first in v.requests && v.requests[first].served == w.requests[first].served
    ensures w.requests[first].served.value < v.requests[second].served.value
  {
    ReachableInv(codec, w);
    RunKeepsInv(codec, w, ls, v);
    RunExtends(codec, w, ls, v);
    assert RequestInv(codec, w, first, w.requests[first]);
    assert RequestInv(codec, v, second, v.requests[second]);
    forall i | 0 <= i < |w.log| && w.log[i].Served? ensures v.log[i].request in w.requests {
      assert w.log[i] == v.log[..|w.log|][i];
    }
  }

  // ---- the committed state -------------------------------------------------------------------------------

  /**
   After any run: every committed key has a response that fits its claim, triples are unique, and every claim has
   exactly one event.
   */
  lemma CommittedState(codec: Codec, w: World)
    requires codec.Sound() && Reachable(codec, w)
    ensures LedgerOk(codec, w.db)
  {
    ReachableInv(codec, w);
    LegalLedgerOk(codec, w.log);
  }

  /** Whatever keys retention forgets and callers use again, two requests never both receive a fresh 201 for one triple. */
  lemma GrantedOnce(codec: Codec, w: World, r: nat, o: nat)
    requires codec.Sound() && Reachable(codec, w) && r in w.requests && o in w.requests
    requires FreshlyGranted(w.requests[r]) && FreshlyGranted(w.requests[o])
    requires w.requests[r].params.triple == w.requests[o].params.triple
    ensures r == o
  {
    ReachableInv(codec, w);
    var i := GrantEntry(codec, w, r);
    var j := GrantEntry(codec, w, o);
    OneGrant(codec, w.log, i, j);
  }

  predicate FreshlyGranted(q: Request) {
    && q.pc.Done? && q.pc.outcome.Answered? && q.pc.outcome.answer.Answer?
    && q.pc.outcome.answer.status == 201 && !q.pc.outcome.answer.replayed
  }

  predicate TimedGrant(w: World, e: Entry) {
    e.Served? && e.grant.Some? ==>
      && e.request in w.requests
      && e.grant.value.now == w.requests[e.request].now && e.grant.value.claim.createdAt == w.requests[e.request].now
  }

  ghost predicate GrantsTimed(w: World) {
    forall i :: 0 <= i < |w.log| ==> TimedGrant(w, w.log[i])
  }

  lemma NowKept(codec: Codec, w: World, l: Label, r: nat)
    requires Enabled(w, l) && r in w.requests
    ensures r in Apply(codec, w, l).requests && Apply(codec, w, l).requests[r].now == w.requests[r].now
  {
  }

  lemma NewEntryTimed(codec: Codec, w: World, l: Label)
    requires codec.Sound() && Inv(codec, w) && Enabled(w, l)
    ensures var v := Apply(codec, w, l);
            v.log == w.log || exists e :: v.log == w.log + [e] && TimedGrant(w, e)
  {
    if l.Commit? {
      assert RequestInv(codec, w, l.r, w.requests[l.r]);
    }
  }

  /** The claim and the event of a grant bear the time of the transaction that wrote them. */
  lemma {:induction false} GrantsBearTheirTime(codec: Codec, w: World, ls: seq<Label>, v: World)
    requires codec.Sound() && Inv(codec, w) && GrantsTimed(w) && Runs(codec, w, ls, v)
    ensures GrantsTimed(v)
    decreases |ls|
  {
    if ls != [] {
      var u := Apply(codec, w, ls[0]);
      NewEntryTimed(codec, w, ls[0]);
      forall i | 0 <= i < |u.log| ensures TimedGrant(u, u.log[i]) {
        if u.log[i].Served? && u.log[i].request in w.requests {
          NowKept(codec, w, ls[0], u.log[i].request);
        }
        assert i < |w.log| ==> u.log[i] == w.log[i];
        assert TimedGrant(w, u.log[i]);
      }
      StepKeepsInv(codec, w, ls[0]);
      GrantsBearTheirTime(codec, u, ls[1..], v);
    }
  }

  lemma GrantEntry(codec: Codec, w: World, r: nat) returns (i: nat)
    requires Inv(codec, w) && r in w.requests && FreshlyGranted(w.requests[r])
    ensures i < |w.log| && w.log[i].Served? && w.log[i].request == r && w.log[i].grant.Some?
    ensures w.log[i].params == w.requests[r].params
  {
    assert RequestInv(codec, w, r, w.requests[r]);
    i := w.requests[r].served.value;
    LegalAt(codec, w.log, i);
  }

  /** The rows a transaction has written, against the CHECK constraints and its own other rows. */
  predicate WritesOk(writes: Writes) {
    && (writes.key.Some? ==> KeyRowOk(writes.key.value))
    && (writes.key.Some? && writes.key.value.claimId.Some? ==>
          writes.claim.Some? && writes.key.value.claimId.value == writes.claim.value.id)
    && (writes.claim.Some? ==> ValidTriple(writes.claim.value.triple))
    && (writes.event.Some? ==>
          && SchemaOk(writes.event.value.row)
          && writes.claim.Some? && writes.event.value.row.aggregateId == writes.claim.value.id)
  }

  ghost predicate AllWritesOk(w: World) {
    forall r :: r in w.requests ==> WritesOk(w.requests[r].writes)
  }

  /** Wherever a request is in createClaim, its stage tells what it has written. */
  lemma StageFits(codec: Codec, w: World, r: nat)
    requires codec.Sound() && Inv(codec, w) && r in w.requests && !w.requests[r].pc.Aborting?
    ensures WritesOk(w.requests[r].writes)
  {
    assert RequestInv(codec, w, r, w.requests[r]);
  }

  /** A request that is to be rolled back has written what it had written before. */
  lemma AbortingKeepsWrites(codec: Codec, w: World, l: Label, r: nat)
    requires Enabled(w, l) && r in Apply(codec, w, l).requests && Apply(codec, w, l).requests[r].pc.Aborting?
    ensures r in w.requests && Apply(codec, w, l).requests[r].writes == w.requests[r].writes
  {
  }

  lemma {:induction false} RunWritesOk(codec: Codec, w: World, ls: seq<Label>, v: World)
    requires codec.Sound() && Inv(codec, w) && AllWritesOk(w) && Runs(codec, w, ls, v)
    ensures AllWritesOk(v)
    decreases |ls|
  {
    if ls != [] {
      var u := Apply(codec, w, ls[0]);
      StepKeepsInv(codec, w, ls[0]);
      forall r | r in u.requests ensures WritesOk(u.requests[r].writes) {
        if u.requests[r].pc.Aborting? {
          AbortingKeepsWrites(codec, w, ls[0], r);
        } else {
          StageFits(codec, u, r);
        }
      }
      RunWritesOk(codec, u, ls[1..], v);
    }
  }

  /**
   No constraint of the schema ever rejects a row of a claim: in every reachable state and at every stage, what a
   transaction has written satisfies all CHECK constraints, refers to its own claim, and meets no committed row with
   the same key, triple, claim id, event id or aggregate.
   */
  lemma WritesFitSchema(codec: Codec, w: World, r: nat)
    requires codec.Sound() && Reachable(codec, w) && r in w.requests
    ensures var q := w.requests[r];
            && WritesOk(q.writes)
            && (q.writes.key.Some? ==> q.params.key !in w.db.keys)
            && (q.writes.claim.Some? ==>
                  && q.writes.claim.value.id !in w.db.claims && !Taken(w.db, q.writes.claim.value.triple)
                  && !HasEvent(w.db, q.writes.claim.value.id))
            && (q.writes.event.Some? ==> q.writes.event.value.id !in w.db.events)
  {
    StartInv(codec);
    var ls :| Runs(codec, START, ls, w);
    RunWritesOk(codec, START, ls, w);
    RunKeepsInv(codec, START, ls, w);
    LegalLedgerOk(codec, w.log);
    var q := w.requests[r];
    assert RequestInv(codec, w, r, q);
    if q.writes.claim.Some? {
      NoEventWithoutClaim(codec, w.db, q.writes.claim.value.id);
    }
  }

  /** The unique constraint on an event's aggregate never stops the announcing insert. */
  lemma AnnounceFindsNoEvent(codec: Codec, w: World, r: nat)
    requires codec.Sound() && Reachable(codec, w) && At(w, r) && PcOf(w, r).Announcing?
    ensures !HasEvent(w.db, PcOf(w, r).claim.id)
  {
    ReachableInv(codec, w);
    LegalLedgerOk(codec, w.log);
    assert RequestInv(codec, w, r, w.requests[r]);
    NoEventWithoutClaim(codec, w.db, PcOf(w, r).claim.id);
  }

  /** The branches of createClaim that report an internal error of the stored state are never taken. */
  lemma InternalBranchesDead(codec: Codec, w: World, r: nat)
    requires codec.Sound() && Reachable(codec, w) && At(w, r)
    ensures PcOf(w, r).Loading? ==> !ApplyLoad(codec, w, r).requests[r].pc.Aborting?
                                    || ApplyLoad(codec, w, r).requests[r].pc.outcome == Answered(KeyReused)
    ensures PcOf(w, r).Completing? || PcOf(w, r).CompletingDuplicate? ==>
              ApplyComplete(codec, w, r).requests[r].pc.Committing?
  {
    ReachableInv(codec, w);
    if PcOf(w, r).Loading? && w.requests[r].params.key in w.db.keys {
      LoadFound(codec, w, r);
    }
    if PcOf(w, r).Completing? || PcOf(w, r).CompletingDuplicate? {
      CompleteKeepsInv(codec, w, r);
    }
  }

  // ---- deadlock freedom ----------------------------------------------------------------------------------

  /** Request r's insert waits for a row of request o's open transaction. */
  predicate WaitsFor(w: World, r: nat, o: nat) {
    && r in w.requests && o in w.requests && r != o
    && if w.requests[r].pc.Reserving? then
         w.requests[o].writes.key.Some? && w.requests[o].params.key == w.requests[r].params.key
       else
         && w.requests[r].pc.Inserting?
         && w.requests[o].writes.claim.Some? && w.requests[o].params.triple == w.requests[r].params.triple
  }

  /** What a request holds: nothing, a key, or a key and a triple. Locks are taken in this order. */
  function LocksTaken(q: Request): nat {
    if q.writes.claim.Some? then 2 else if q.writes.key.Some? then 1 else 0
  }

  /** Whoever waits holds strictly less than the one waited for, so waiting never goes in a circle. */
  lemma WaitingClimbs(codec: Codec, w: World, r: nat, o: nat)
    requires codec.Sound() && Reachable(codec, w) && WaitsFor(w, r, o)
    ensures LocksTaken(w.requests[r]) < LocksTaken(w.requests[o])
  {
    ReachableInv(codec, w);
    assert RequestInv(codec, w, r, w.requests[r]);
    assert RequestInv(codec, w, o, w.requests[o]);
  }

  /** A chain of waiting requests visits nobody twice, and is at most three requests long. */
  lemma {:induction false} NoWaitingCycle(codec: Codec, w: World, chain: seq<nat>)
    requires codec.Sound() && Reachable(codec, w)
    requires |chain| >= 2 && forall i :: 0 <= i < |chain| - 1 ==> WaitsFor(w, chain[i], chain[i + 1])
    ensures chain[0] in w.requests && chain[|chain| - 1] in w.requests
    ensures LocksTaken(w.requests[chain[0]]) + |chain| - 1 <= LocksTaken(w.requests[chain[|chain| - 1]]) <= 2
    ensures |chain| <= 3 && chain[0] != chain[|chain| - 1]
    decreases |chain|
  {
    var n := |chain| - 1;
    assert WaitsFor(w, chain[n - 1], chain[n]);
    WaitingClimbs(codec, w, chain[n - 1], chain[n]);
    if n > 1 {
      NoWaitingCycle(codec, w, chain[..n]);
    }
  }

  /** A step that takes a request forward: not a failure. */
  predicate Forward(l: Label) {
    !l.Begin? && !l.Forget? && !l.Break? && (l.Commit? ==> l.lost.None?)
  }

  predicate Unfinished(w: World, r: nat) {
    r in w.requests && !w.requests[r].pc.Done?
  }

  /** Only finitely many uuids are used, so one is left. */
  lemma {:induction false} AboveAll(used: set<nat>) returns (bound: nat)
    ensures forall id :: id in used ==> id < bound
    decreases used
  {
    bound := 0;
    if used != {} {
      var id :| id in used;
      var rest := AboveAll(used - {id});
      bound := if id < rest then rest else id + 1;
      assert forall o :: o in used ==> o == id || o in used - {id};
    }
  }

  function ClaimIds(w: World): set<nat> {
    w.db.claims.Keys
    + set r | r in w.requests && w.requests[r].writes.claim.Some? :: w.requests[r].writes.claim.value.id
  }

  function EventIds(w: World): set<EventId> {
    w.db.events.Keys
    + set r | r in w.requests && w.requests[r].writes.event.Some? :: w.requests[r].writes.event.value.id
  }

  /** The request is not on its way to an error. */
  predicate GoesWell(q: Request) {
    q.pc.Aborting? || q.pc.Done? ==> q.pc.outcome.Answered?
  }

  /**
   A request that waits for nobody can take its next statement, with a uuid that does not collide, and the statement
   succeeds: unless the request had failed before, it is not on its way to an error afterwards.
   */
  lemma FreeCanStep(codec: Codec, w: World, r: nat) returns (l: Label)
    requires codec.Sound() && Reachable(codec, w) && Unfinished(w, r) && forall o :: !WaitsFor(w, r, o)
    ensures Forward(l) && Enabled(w, l) && l.r == r
    ensures r in Apply(codec, w, l).requests
    ensures GoesWell(w.requests[r]) ==> GoesWell(Apply(codec, w, l).requests[r])
  {
    var q := w.requests[r];
    match q.pc
    case Reserving => l := Reserve(r);
      assert forall o :: o in w.requests && o != r ==> !WaitsFor(w, r, o);
    case Loading => l := Load(r);
      InternalBranchesDead(codec, w, r);
    case Replaying(_) => l := Commit(r, None);
    case Inserting =>
      var id := AboveAll(ClaimIds(w));
      l := Insert(r, id);
      assert forall o :: o in w.requests && o != r ==> !WaitsFor(w, r, o);
      assert id !in ClaimIds(w) && !ClaimIdUsed(w, id);
    case Announcing(_) =>
      var id := AboveAll(EventIds(w));
      l := Announce(r, id);
      AnnounceFindsNoEvent(codec, w, r);
      assert id !in EventIds(w) && !EventIdUsed(w, id);
    case Completing(_) => l := Complete(r);
      InternalBranchesDead(codec, w, r);
    case CompletingDuplicate => l := Complete(r);
      InternalBranchesDead(codec, w, r);
    case Committing(_) => l := Commit(r, None);
    case Aborting(_) => l := Rollback(r);
    case Done(_) => assert false; l := Rollback(r);
  }

  /** In every reachable state with an unfinished request, some unfinished request can go forward, and goes well. */
  lemma {:induction false} SomebodyCanStep(codec: Codec, w: World, r: nat) returns (l: Label)
    requires codec.Sound() && Reachable(codec, w) && Unfinished(w, r)
    ensures Forward(l) && Enabled(w, l) && Unfinished(w, l.r) && l.r in Apply(codec, w, l).requests
    ensures GoesWell(w.requests[l.r]) ==> GoesWell(Apply(codec, w, l).requests[l.r])
    decreases 2 - LocksTaken(w.requests[r])
  {
    if o :| WaitsFor(w, r, o) {
      WaitingClimbs(codec, w, r, o);
      ReachableInv(codec, w);
      assert RequestInv(codec, w, o, w.requests[o]);
      l := SomebodyCanStep(codec, w, o);
    } else {
      l := FreeCanStep(codec, w, r);
    }
  }

  // ---- every request can be brought to its end -----------------------------------------------------------

  function UnfinishedSet(w: World): set<nat> {
    set r | r in w.requests && !w.requests[r].pc.Done?
  }

  /** The statements a request needs while retention deletes nothing. */
  function Rank(w: World, r: nat): nat
    requires r in w.requests
  {
    if w.requests[r].pc.Loading? && w.requests[r].params.key !in w.db.keys then 9 else StagesLeft(w.requests[r].pc)
  }

  /** No request disappears, begins, or goes wrong, and those that are finished stay so. */
  predicate AllGoesWell(w: World, v: World) {
    && v.requests.Keys == w.requests.Keys
    && forall q :: q in w.requests ==>
                     && (w.requests[q].pc.Done? ==> v.requests[q] == w.requests[q])
                     && (GoesWell(w.requests[q]) ==> GoesWell(v.requests[q]))
  }

  lemma ForwardDescends(codec: Codec, w: World, l: Label)
    requires Enabled(w, l) && Forward(l) && l.r in Apply(codec, w, l).requests
    ensures var u := Apply(codec, w, l);
            u.requests[l.r].pc.Done?
            || (LocksTaken(u.requests[l.r]) >= LocksTaken(w.requests[l.r]) && Rank(u, l.r) < Rank(w, l.r))
  {
  }

  lemma ForwardStep(codec: Codec, w: World, l: Label)
    requires Enabled(w, l) && Forward(l) && l.r in Apply(codec, w, l).requests
    requires GoesWell(w.requests[l.r]) ==> GoesWell(Apply(codec, w, l).requests[l.r])
    ensures var u := Apply(codec, w, l);
            && AllGoesWell(w, u) && UnfinishedSet(u) <= UnfinishedSet(w)
            && (!u.requests[l.r].pc.Done? ==>
                  UnfinishedSet(u) == UnfinishedSet(w) && LocksTaken(u.requests[l.r]) >= LocksTaken(w.requests[l.r])
                  && Rank(u, l.r) < Rank(w, l.r))
  {
    var u := Apply(codec, w, l);
    ForwardDescends(codec, w, l);
    OnlyItsRequest(codec, w, l);
  }

  lemma OnlyItsRequest(codec: Codec, w: World, l: Label)
    requires Enabled(w, l) && Forward(l)
    ensures var u := Apply(codec, w, l);
            !w.requests[l.r].pc.Done? && l.r in u.requests && u.requests == w.requests[l.r := u.requests[l.r]]
  {
  }

  /**
   From every reachable state every request can be brought to its end by steps of open requests alone, none of which
   fails: whatever it waits for can be finished first. Unless it had failed before, it is answered.
   */
  lemma {:induction false} CanFinish(codec: Codec, w: World, r: nat) returns (ls: seq<Label>, v: World)
    requires codec.Sound() && Reachable(codec, w) && Unfinished(w, r)
    ensures Runs(codec, w, ls, v) && forall i :: 0 <= i < |ls| ==> Forward(ls[i])
    ensures AllGoesWell(w, v) && r in v.requests && v.requests[r].pc.Done?
    decreases UnfinishedSet(w), 2 - LocksTaken(w.requests[r]), Rank(w, r)
  {
    var first, u;
    if o :| WaitsFor(w, r, o) {
      WaitingClimbs(codec, w, r, o);
      ReachableInv(codec, w);
      assert RequestInv(codec, w, o, w.requests[o]);
      first, u := CanFinish(codec, w, o);
      assert o in UnfinishedSet(w) && o !in UnfinishedSet(u);
    } else {
      var l := FreeCanStep(codec, w, r);
      u := Apply(codec, w, l);
      first := [l];
      assert first[1..] == [] && Runs(codec, u, [], u);
      ForwardStep(codec, w, l);
    }
    if u.requests[r].pc.Done? {
      return first, u;
    }
    assert Runs(codec, w, first, u);
    ReachesTrans(codec, START, w, u);
    var rest;
    rest, v := CanFinish(codec, u, r);
    RunsConcat(codec, w, first, u, rest, v);
    ls := first + rest;
  }

  // ---- termination of the reservation loop ---------------------------------------------------------------

  /** The loop of createClaim turns at most once more than retention deleted this key while the request ran. */
  lemma LoopTurnsPaidByDeletions(codec: Codec, w: World, r: nat)
    requires codec.Sound() && Reachable(codec, w) && r in w.requests
    ensures w.requests[r].misses <= Forgets(w.log, w.requests[r].params.key) - w.requests[r].forgottenAtStart
  {
    ReachableInv(codec, w);
    assert RequestInv(codec, w, r, w.requests[r]);
  }

  /** The statements a request may still run without another turn of the loop. */
  function StagesLeft(pc: Pc): nat {
    match pc
    case Reserving => 8
    case Loading => 7
    case Inserting => 6
    case Announcing(_) => 5
    case Completing(_) => 4
    case CompletingDuplicate => 4
    case Replaying(_) => 3
    case Committing(_) => 3
    case Aborting(_) => 2
    case Done(_) => 0
  }

  /** Every step of a request brings it nearer to its end, except a turn of the loop, which is counted. */
  lemma OwnStepsDescend(codec: Codec, w: World, l: Label)
    requires Enabled(w, l) && !l.Begin? && !l.Forget?
    ensures var v := Apply(codec, w, l);
            && l.r in v.requests
            && if v.requests[l.r].misses == w.requests[l.r].misses
               then StagesLeft(v.requests[l.r].pc) < StagesLeft(w.requests[l.r].pc)
               else v.requests[l.r].misses == w.requests[l.r].misses + 1 && v.requests[l.r].pc.Reserving?
  {
  }
}

/**
 The inductive invariant of concurrent claims: open reservations exclude committed rows and each other, every stage
 holds exactly the rows its statements have written, and the committed tables are the ledger after the log.
 */
module ClaimInvariant {
  import opened Wrappers
  import opened OutboxSchema
  import opened ClaimLedger
  import opened ClaimProtocol

  /** What an open transaction's rows exclude from the committed tables. */
  predicate HoldsLocks(db: Ledger, q: Request) {
    && (q.writes.key.Some? ==> q.params.key !in db.keys)
    && (q.writes.claim.Some? ==>
          && q.writes.key.Some?
          && q.writes.claim.value.triple == q.params.triple
          && !Taken(db, q.params.triple)
          && q.writes.claim.value.id !in db.claims)
    && (q.writes.event.Some? ==> q.writes.event.value.id !in db.events)
  }

  /** The rows a request has written when it is about to run the statement of its stage. */
  predicate StageOk(codec: Codec, db: Ledger, q: Request) {
    var reserved := Some(KeyRow(q.params.triple, None, None, None));
    match q.pc
    case Reserving => q.writes == NO_WRITES
    case Loading => q.writes == NO_WRITES
    case Replaying(_) => q.writes == NO_WRITES
    case Inserting => q.writes == Writes(reserved, None, None)
    case Announcing(claim) =>
      q.writes == Writes(reserved, Some(claim), None) && claim.createdAt == q.now
    case Completing(claim) => q.writes.key == reserved && GrantWritten(q, claim)
    case CompletingDuplicate => q.writes == Writes(reserved, None, None) && Taken(db, q.params.triple)
    case Committing(answer) =>
      if q.writes.claim.Some? then
        && GrantWritten(q, q.writes.claim.value)
        && answer == Answer(CREATED, codec.created(q.writes.claim.value), false)
        && q.writes.key == Some(KeyRow(q.params.triple, Some(CREATED), Some(answer.body), Some(q.writes.claim.value.id)))
      else
        && answer == Answer(CONFLICT, codec.duplicate, false) && Taken(db, q.params.triple)
        && q.writes == Writes(Some(KeyRow(q.params.triple, Some(CONFLICT), Some(answer.body), None)), None, None)
    case Aborting(_) => true
    case Done(_) => q.writes == NO_WRITES
  }

  predicate GrantWritten(q: Request, claim: Claim) {
    && q.writes.claim == Some(claim) && claim.createdAt == q.now
    && q.writes.event.Some?
    && q.writes.event.value.row == NewRow(q.writes.event.value.id, claim, q.now)
  }

  /** Whether and as what a request is in the log. */
  predicate ServedOk(log: seq<Entry>, r: nat, q: Request) {
    && (q.served.Some? ==>
          && q.served.value < |log|
          && log[q.served.value].Served?
          && log[q.served.value].request == r
          && log[q.served.value].params == q.params)
    && match q.pc
       case Replaying(answer) => ServedAs(log, q, answer) && ReadOnly(log, q)
       case Aborting(Answered(answer)) => ServedAs(log, q, answer) && ReadOnly(log, q)
       case Aborting(Errored(_)) => ReadOnly(log, q)
       case Done(Answered(answer)) => ServedAs(log, q, answer)
       case Done(Errored(_)) => true
       case _ => q.served.None?
  }

  predicate ServedAs(log: seq<Entry>, q: Request, answer: Answer) {
    q.served.Some? && q.served.value < |log| && log[q.served.value].Served? && log[q.served.value].answer == answer
  }

  predicate ReadOnly(log: seq<Entry>, q: Request) {
    q.served.Some? ==>
      && q.served.value < |log| && log[q.served.value].Served?
      && log[q.served.value].grant.None? && Reads(log[q.served.value].answer)
  }

  /** An answer that changes nothing. */
  predicate Reads(answer: Answer) {
    answer.KeyReused? || answer.replayed
  }

  /** Each miss of the reservation loop is paid for by a deletion of that key since the request began. */
  predicate MissesPaid(w: World, q: Request) {
    q.misses + (if q.pc.Loading? && q.params.key !in w.db.keys then 1 else 0) + q.forgottenAtStart
    <= Forgets(w.log, q.params.key)
  }

  ghost predicate RequestInv(codec: Codec, w: World, r: nat, q: Request) {
    && ValidTriple(q.params.triple)
    && HoldsLocks(w.db, q)
    && StageOk(codec, w.db, q)
    && ServedOk(w.log, r, q)
    && MissesPaid(w, q)
  }

  /** Two open transactions never hold the same key, triple or uuid. */
  predicate Apart(q: Request, o: Request) {
    && (q.writes.key.Some? && o.writes.key.Some? ==> q.params.key != o.params.key)
    && (q.writes.claim.Some? && o.writes.claim.Some? ==>
          q.params.triple != o.params.triple && q.writes.claim.value.id != o.writes.claim.value.id)
    && (q.writes.event.Some? && o.writes.event.Some? ==> q.writes.event.value.id != o.writes.event.value.id)
  }

  ghost predicate AllApart(w: World) {
    forall r, o :: r in w.requests && o in w.requests && r != o ==> Apart(w.requests[r], w.requests[o])
  }

  ghost predicate RequestsInv(codec: Codec, w: World) {
    forall r :: r in w.requests ==> RequestInv(codec, w, r, w.requests[r])
  }

  /** Every served entry belongs to one request, which knows its place. */
  ghost predicate LogInv(w: World) {
    forall i :: 0 <= i < |w.log| && w.log[i].Served? ==>
                  w.log[i].request in w.requests && w.requests[w.log[i].request].served == Some(i)
  }

  ghost predicate Inv(codec: Codec, w: World) {
    && Legal(codec, w.log) && w.db == After(w.log)
    && RequestsInv(codec, w) && AllApart(w) && LogInv(w)
  }

  lemma StartInv(codec: Codec)
    ensures Inv(codec, START)
  {
  }

  // ---- steps that only change one request ----------------------------------------------------------------

  /** A step that leaves the tables and the log alone and keeps the others apart. */
  lemma PutKeepsInv(codec: Codec, w: World, r: nat, q: Request)
    requires Inv(codec, w) && RequestInv(codec, w, r, q)
    requires r in w.requests ==> q.served == w.requests[r].served
    requires r !in w.requests ==> q.served.None?
    requires forall o :: o in w.requests && o != r ==> Apart(q, w.requests[o]) && Apart(w.requests[o], q)
    ensures Inv(codec, Put(w, r, q))
  {
    var v := Put(w, r, q);
    forall o | o in v.requests ensures RequestInv(codec, v, o, v.requests[o]) {
      if o != r {
        assert RequestInv(codec, w, o, w.requests[o]);
      }
    }
    forall i | 0 <= i < |v.log| && v.log[i].Served?
      ensures v.log[i].request in v.requests && v.requests[v.log[i].request].served == Some(i)
    {
      assert w.log[i].request in w.requests;
    }
  }

  /** Giving up keeps all locks until the rollback. */
  lemma AbortKeepsInv(codec: Codec, w: World, r: nat, failure: Failure)
    requires Inv(codec, w) && At(w, r) && !PcOf(w, r).Aborting? && !PcOf(w, r).Done?
    ensures Inv(codec, Abort(w, r, Errored(failure)))
  {
    var q := w.requests[r];
    assert RequestInv(codec, w, r, q);
    PutKeepsInv(codec, w, r, q.(pc := Aborting(Errored(failure))));
  }

  // ---- the statements ------------------------------------------------------------------------------------

  lemma BeginKeepsInv(codec: Codec, w: World, l: Label)
    requires Inv(codec, w) && Enabled(w, l) && l.Begin?
    ensures Inv(codec, Apply(codec, w, l))
  {
    PutKeepsInv(codec, w, l.r, Request(l.params, l.now, Reserving, NO_WRITES, None, 0, Forgets(w.log, l.params.key)));
  }

  /** The inserted reservation is the only one of its key, open or committed. */
  lemma ReserveKeepsInv(codec: Codec, w: World, r: nat)
    requires Inv(codec, w) && Enabled(w, Reserve(r))
    ensures Inv(codec, ApplyReserve(w, r))
  {
    var q := w.requests[r];
    assert RequestInv(codec, w, r, q);
    var q' := ApplyReserve(w, r).requests[r];
    forall o | o in w.requests && o != r ensures Apart(q', w.requests[o]) && Apart(w.requests[o], q') {
      assert Apart(q, w.requests[o]);
    }
    PutKeepsInv(codec, w, r, q');
  }

  /** The inserted claim is the only one of its triple and of its uuid, open or committed. */
  lemma InsertKeepsInv(codec: Codec, w: World, r: nat, id: nat)
    requires Inv(codec, w) && Enabled(w, Insert(r, id))
    ensures Inv(codec, ApplyInsert(w, r, id))
  {
    var q := w.requests[r];
    assert RequestInv(codec, w, r, q);
    if !Taken(w.db, q.params.triple) && ClaimIdUsed(w, id) {
      AbortKeepsInv(codec, w, r, Internal);
    } else {
      var q' := ApplyInsert(w, r, id).requests[r];
      forall o | o in w.requests && o != r ensures Apart(q', w.requests[o]) && Apart(w.requests[o], q') {
        assert Apart(q, w.requests[o]) && Apart(w.requests[o], q);
        assert RequestInv(codec, w, o, w.requests[o]);
      }
      PutKeepsInv(codec, w, r, q');
    }
  }

  lemma AnnounceKeepsInv(codec: Codec, w: World, r: nat, event: EventId)
    requires Inv(codec, w) && Enabled(w, Announce(r, event))
    ensures Inv(codec, ApplyAnnounce(w, r, event))
  {
    var q := w.requests[r];
    assert RequestInv(codec, w, r, q);
    if EventIdUsed(w, event) || HasEvent(w.db, q.pc.claim.id) {
      AbortKeepsInv(codec, w, r, Internal);
    } else {
      var q' := ApplyAnnounce(w, r, event).requests[r];
      forall o | o in w.requests && o != r ensures Apart(q', w.requests[o]) && Apart(w.requests[o], q') {
        assert Apart(q, w.requests[o]) && Apart(w.requests[o], q);
      }
      PutKeepsInv(codec, w, r, q');
    }
  }

  lemma CompleteKeepsInv(codec: Codec, w: World, r: nat)
    requires Inv(codec, w) && Enabled(w, Complete(r))
    ensures Inv(codec, ApplyComplete(codec, w, r))
    ensures PcOf(ApplyComplete(codec, w, r), r).Committing?
  {
    var q := w.requests[r];
    assert RequestInv(codec, w, r, q);
    var q' := ApplyComplete(codec, w, r).requests[r];
    forall o | o in w.requests && o != r ensures Apart(q', w.requests[o]) && Apart(w.requests[o], q') {
      assert Apart(q, w.requests[o]) && Apart(w.requests[o], q);
    }
    PutKeepsInv(codec, w, r, q');
  }

  lemma RollbackKeepsInv(codec: Codec, w: World, r: nat)
    requires Inv(codec, w) && Enabled(w, Rollback(r))
    ensures Inv(codec, Apply(codec, w, Rollback(r)))
  {
    assert RequestInv(codec, w, r, w.requests[r]);
    PutKeepsInv(codec, w, r, Apply(codec, w, Rollback(r)).requests[r]);
  }

  // ---- steps that take effect ----------------------------------------------------------------------------

  lemma AppendForgets(log: seq<Entry>, e: Entry, key: KeyHash)
    ensures Forgets(log + [e], key) == Forgets(log, key) + (if e == Forgotten(key) then 1 else 0)
  {
    assert (log + [e])[..|log|] == log;
  }

  /** A request that is not moving keeps its clauses while the log grows and its locks and claims stay intact. */
  lemma OtherSurvives(codec: Codec, w: World, v: World, o: nat, q: Request)
    requires RequestInv(codec, w, o, q)
    requires |w.log| <= |v.log| && v.log[..|w.log|] == w.log
    requires HoldsLocks(v.db, q) && MissesPaid(v, q)
    requires Taken(w.db, q.params.triple) ==> Taken(v.db, q.params.triple)
    ensures RequestInv(codec, v, o, q)
  {
    assert forall i :: 0 <= i < |w.log| ==> v.log[i] == v.log[..|w.log|][i];
  }

  /** The entry at the end of the log is the request's own, and all earlier entries keep their requests. */
  lemma ServeKeepsLog(w: World, v: World, r: nat, e: Entry)
    requires LogInv(w) && r in w.requests && w.requests[r].served.None?
    requires e.Served? && e.request == r && v.log == w.log + [e]
    requires r in v.requests && v.requests == w.requests[r := v.requests[r]] && v.requests[r].served == Some(|w.log|)
    ensures LogInv(v)
  {
    forall i | 0 <= i < |v.log| && v.log[i].Served?
      ensures v.log[i].request in v.requests && v.requests[v.log[i].request].served == Some(i)
    {
      if i < |w.log| {
        assert w.log[i].request in w.requests && w.requests[w.log[i].request].served == Some(i);
      }
    }
  }

  /** A committed key always has a complete, well-formed response, so the loading statement never fails on it. */
  lemma StoredResponseComplete(codec: Codec, w: World, key: KeyHash)
    requires codec.Sound() && Inv(codec, w) && key in w.db.keys
    ensures var row := w.db.keys[key];
            && row.status.Some? && row.body.Some? && row.body.value != []
            && (row.status.value == CREATED || row.status.value == CONFLICT)
            && codec.wellFormed(row.body.value)
  {
    LegalLedgerOk(codec, w.log);
    assert KeyFacts(codec, w.db, w.db.keys[key]);
  }

  /** What the loading statement answers when it finds the key. */
  function LoadedAnswer(row: KeyRow, triple: Triple): Answer
    requires row.status.Some? && row.body.Some?
  {
    if row.triple == triple then Answer(row.status.value, row.body.value, true) else KeyReused
  }

  /** With a complete response, loading it has just two outcomes. */
  lemma LoadFound(codec: Codec, w: World, r: nat)
    requires codec.Sound() && Inv(codec, w) && Enabled(w, Load(r)) && w.requests[r].params.key in w.db.keys
    ensures var q := w.requests[r];
            var row := w.db.keys[q.params.key];
            && row.status.Some? && row.body.Some?
            && var answer := LoadedAnswer(row, q.params.triple);
               && Allows(codec, w.db, Served(r, q.params, answer, None))
               && ApplyLoad(codec, w, r) == Serve(Put(w, r, q.(pc := LoadedPc(answer))), r, answer, None)
  {
    StoredResponseComplete(codec, w, w.requests[r].params.key);
  }

  function LoadedPc(answer: Answer): Pc {
    if answer.KeyReused? then Aborting(Answered(answer)) else Replaying(answer)
  }

  lemma ReadOthers(codec: Codec, w: World, r: nat, pc: Pc, answer: Answer, o: nat)
    requires Inv(codec, w) && At(w, r) && o in w.requests && o != r
    ensures RequestInv(codec, Serve(Put(w, r, w.requests[r].(pc := pc)), r, answer, None), o, w.requests[o])
  {
    var v := Serve(Put(w, r, w.requests[r].(pc := pc)), r, answer, None);
    assert RequestInv(codec, w, o, w.requests[o]);
    AppendForgets(w.log, v.log[|w.log|], w.requests[o].params.key);
    assert v.log[..|w.log|] == w.log;
    OtherSurvives(codec, w, v, o, w.requests[o]);
  }

  lemma ReadSelf(codec: Codec, w: World, r: nat, answer: Answer)
    requires Inv(codec, w) && Enabled(w, Load(r)) && w.requests[r].params.key in w.db.keys && Reads(answer)
    ensures var v := Serve(Put(w, r, w.requests[r].(pc := LoadedPc(answer))), r, answer, None);
            RequestInv(codec, v, r, v.requests[r])
  {
    assert RequestInv(codec, w, r, w.requests[r]);
    AppendForgets(w.log, Served(r, w.requests[r].params, answer, None), w.requests[r].params.key);
  }

  lemma ReadKeepsInv(codec: Codec, w: World, r: nat, answer: Answer)
    requires Inv(codec, w) && Enabled(w, Load(r)) && w.requests[r].params.key in w.db.keys && Reads(answer)
    requires Allows(codec, w.db, Served(r, w.requests[r].params, answer, None))
    ensures Inv(codec, Serve(Put(w, r, w.requests[r].(pc := LoadedPc(answer))), r, answer, None))
  {
    var q := w.requests[r];
    var v := Serve(Put(w, r, q.(pc := LoadedPc(answer))), r, answer, None);
    var e := Served(r, q.params, answer, None);
    assert ServedOk(w.log, r, q) by {
      assert RequestInv(codec, w, r, q);
    }
    AppendEntry(codec, w.log, e);
    ServeKeepsLog(w, v, r, e);
    ReadSelf(codec, w, r, answer);
    forall o | o in v.requests && o != r ensures RequestInv(codec, v, o, v.requests[o]) {
      ReadOthers(codec, w, r, LoadedPc(answer), answer, o);
    }
  }

  lemma LoadFoundKeepsInv(codec: Codec, w: World, r: nat)
    requires codec.Sound() && Inv(codec, w) && Enabled(w, Load(r)) && w.requests[r].params.key in w.db.keys
    ensures Inv(codec, ApplyLoad(codec, w, r))
  {
    LoadFound(codec, w, r);
    ReadKeepsInv(codec, w, r, LoadedAnswer(w.db.keys[w.requests[r].params.key], w.requests[r].params.triple));
  }

  lemma LoadKeepsInv(codec: Codec, w: World, r: nat)
    requires codec.Sound() && Inv(codec, w) && Enabled(w, Load(r))
    ensures Inv(codec, ApplyLoad(codec, w, r))
  {
    var q := w.requests[r];
    if q.params.key in w.db.keys {
      LoadFoundKeepsInv(codec, w, r);
    } else {
      assert RequestInv(codec, w, r, q);
      PutKeepsInv(codec, w, r, q.(pc := Reserving, misses := q.misses + 1));
    }
  }

  /** A commit is one atomic step of the specification: its guard holds and the merged tables are its result. */
  lemma CommitIsAtomic(codec: Codec, w: World, r: nat)
    requires Inv(codec, w) && At(w, r) && PcOf(w, r).Committing?
    ensures var q := w.requests[r];
            var e := Served(r, q.params, q.pc.answer, GrantOf(q));
            Allows(codec, w.db, e) && Next(w.db, e) == Merge(w.db, q.params.key, q.writes)
  {
    assert RequestInv(codec, w, r, w.requests[r]);
  }

  /** Another transaction's locks are untouched by a commit, because the two hold different keys, triples and uuids. */
  lemma LocksSurviveCommit(codec: Codec, w: World, r: nat, o: nat)
    requires Inv(codec, w) && At(w, r) && PcOf(w, r).Committing? && o in w.requests && o != r
    ensures var m := Merge(w.db, w.requests[r].params.key, w.requests[r].writes);
            && HoldsLocks(m, w.requests[o])
            && (Taken(w.db, w.requests[o].params.triple) ==> Taken(m, w.requests[o].params.triple))
  {
    var q := w.requests[r];
    var p := w.requests[o];
    var m := Merge(w.db, q.params.key, q.writes);
    assert RequestInv(codec, w, r, q) && RequestInv(codec, w, o, p) && Apart(q, p);
    if Taken(w.db, p.params.triple) {
      var id :| id in w.db.claims && w.db.claims[id].triple == p.params.triple;
      assert id in m.claims && m.claims[id].triple == p.params.triple;
    }
  }

  lemma CommitOthers(codec: Codec, w: World, r: nat, lost: Option<Failure>, o: nat)
    requires Inv(codec, w) && Enabled(w, Commit(r, lost)) && PcOf(w, r).Committing? && o in w.requests && o != r
    ensures RequestInv(codec, ApplyCommit(w, r, lost), o, w.requests[o])
  {
    var v := ApplyCommit(w, r, lost);
    var q := w.requests[r];
    var p := w.requests[o];
    assert RequestInv(codec, w, o, p) && RequestInv(codec, w, r, q);
    LocksSurviveCommit(codec, w, r, o);
    AppendForgets(w.log, v.log[|w.log|], p.params.key);
    assert v.log[..|w.log|] == w.log;
    OtherSurvives(codec, w, v, o, p);
  }

  lemma CommitSelf(codec: Codec, w: World, r: nat, lost: Option<Failure>)
    requires Inv(codec, w) && Enabled(w, Commit(r, lost)) && PcOf(w, r).Committing?
    ensures RequestInv(codec, ApplyCommit(w, r, lost), r, ApplyCommit(w, r, lost).requests[r])
  {
    var v := ApplyCommit(w, r, lost);
    var q := w.requests[r];
    assert RequestInv(codec, w, r, q);
    AppendForgets(w.log, v.log[|w.log|], q.params.key);
  }

  lemma CommitKeepsApart(codec: Codec, w: World, r: nat, lost: Option<Failure>)
    requires AllApart(w) && Enabled(w, Commit(r, lost))
    ensures AllApart(ApplyCommit(w, r, lost))
  {
    var v := ApplyCommit(w, r, lost);
    forall i, j | i in v.requests && j in v.requests && i != j ensures Apart(v.requests[i], v.requests[j]) {
      assert Apart(w.requests[i], w.requests[j]);
    }
  }

  lemma CommitKeepsInv(codec: Codec, w: World, r: nat, lost: Option<Failure>)
    requires Inv(codec, w) && Enabled(w, Commit(r, lost)) && PcOf(w, r).Committing?
    ensures Inv(codec, ApplyCommit(w, r, lost))
  {
    var v := ApplyCommit(w, r, lost);
    var q := w.requests[r];
    var e := Served(r, q.params, q.pc.answer, GrantOf(q));
    assert ServedOk(w.log, r, q) by {
      assert RequestInv(codec, w, r, q);
    }
    CommitIsAtomic(codec, w, r);
    CommitKeepsApart(codec, w, r, lost);
    AppendEntry(codec, w.log, e);
    ServeKeepsLog(w, v, r, e);
    forall o | o in v.requests ensures RequestInv(codec, v, o, v.requests[o]) {
      if o == r {
        CommitSelf(codec, w, r, lost);
      } else {
        CommitOthers(codec, w, r, lost, o);
      }
    }
  }

  /** The read-only transaction of a replay has nothing to merge. */
  lemma ReplayCommitKeepsInv(codec: Codec, w: World, r: nat, lost: Option<Failure>)
    requires Inv(codec, w) && Enabled(w, Commit(r, lost)) && PcOf(w, r).Replaying?
    ensures Inv(codec, ApplyCommit(w, r, lost))
  {
    var q := w.requests[r];
    assert RequestInv(codec, w, r, q);
    var v := ApplyCommit(w, r, lost);
    assert v == Put(w, r, v.requests[r]);
    PutKeepsInv(codec, w, r, v.requests[r]);
  }

  lemma ForgetKeepsInv(codec: Codec, w: World, key: KeyHash)
    requires Inv(codec, w) && Enabled(w, Forget(key))
    ensures Inv(codec, Apply(codec, w, Forget(key)))
  {
    var v := Apply(codec, w, Forget(key));
    AppendEntry(codec, w.log, Forgotten(key));
    forall o | o in v.requests ensures RequestInv(codec, v, o, v.requests[o]) {
      assert RequestInv(codec, w, o, w.requests[o]);
      AppendForgets(w.log, Forgotten(key), w.requests[o].params.key);
      assert v.log[..|w.log|] == w.log;
      OtherSurvives(codec, w, v, o, w.requests[o]);
    }
    forall i | 0 <= i < |v.log| && v.log[i].Served?
      ensures v.log[i].request in v.requests && v.requests[v.log[i].request].served == Some(i)
    {
      assert w.log[i].request in w.requests;
    }
  }

  // ---- every step, every run -----------------------------------------------------------------------------

  lemma StepKeepsInv(codec: Codec, w: World, l: Label)
    requires codec.Sound() && Inv(codec, w) && Enabled(w, l)
    ensures Inv(codec, Apply(codec, w, l))
  {
    match l
    case Begin(_, _, _) => BeginKeepsInv(codec, w, l);
    case Reserve(r) => ReserveKeepsInv(codec, w, r);
    case Load(r) => LoadKeepsInv(codec, w, r);
    case Insert(r, id) => InsertKeepsInv(codec, w, r, id);
    case Announce(r, event) => AnnounceKeepsInv(codec, w, r, event);
    case Complete(r) => CompleteKeepsInv(codec, w, r);
    case Commit(r, lost) =>
      if PcOf(w, r).Committing? {
        CommitKeepsInv(codec, w, r, lost);
      } else {
        ReplayCommitKeepsInv(codec, w, r, lost);
      }
    case Break(r, failure) => AbortKeepsInv(codec, w, r, failure);
    case Rollback(r) => RollbackKeepsInv(codec, w, r);
    case Forget(key) => ForgetKeepsInv(codec, w, key);
  }

  lemma {:induction false} RunKeepsInv(codec: Codec, w: World, ls: seq<Label>, v: World)
    requires codec.Sound() && Inv(codec, w) && Runs(codec, w, ls, v)
    ensures Inv(codec, v)
    decreases |ls|
  {
    if ls != [] {
      StepKeepsInv(codec, w, ls[0]);
      RunKeepsInv(codec, Apply(codec, w, ls[0]), ls[1..], v);
    }
  }

  lemma ReachesKeepsInv(codec: Codec, w: World, v: World)
    requires codec.Sound() && Inv(codec, w) && Reaches(codec, w, v)
    ensures Inv(codec, v)
  {
    var ls :| Runs(codec, w, ls, v);
    RunKeepsInv(codec, w, ls, v);
  }

  lemma ReachableInv(codec: Codec, w: World)
    requires codec.Sound() && Reachable(codec, w)
    ensures Inv(codec, w)
  {
    StartInv(codec);
    ReachesKeepsInv(codec, START, w);
  }
}

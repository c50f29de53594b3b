/**
 createClaim as it runs: any number of transactions under READ COMMITTED, interleaved statement by statement. A
 transaction's writes are its own until it commits; an insert on a unique key waits while another open transaction
 holds that key, and does nothing when the row is committed. Statements fail, commits lose their reply, and
 retention deletes completed keys at any moment.
 */
module ClaimProtocol {
  import opened Wrappers
  import opened OutboxSchema
  import opened ClaimLedger

  /** A transaction's private rows. */
  datatype EventWrite = EventWrite(id: EventId, row: Row)

  datatype Writes = Writes(key: Option<KeyRow>, claim: Option<Claim>, event: Option<EventWrite>)

  const NO_WRITES := Writes(None, None, None)

  datatype Failure = Unavailable | Internal | CallerEnded

  datatype Outcome = Answered(answer: Answer) | Errored(failure: Failure)

  /** Where in createClaim a request is: the statement it is about to run, or waits for. */
  datatype Pc =
    | Reserving
    | Loading
    | Replaying(answer: Answer)
    | Inserting
    | Announcing(claim: Claim)
    | Completing(claim: Claim)
    | CompletingDuplicate
    | Committing(answer: Answer)
    | Aborting(outcome: Outcome)
    | Done(outcome: Outcome)

  /** `served` is the position of the request's entry in the log; `misses` counts the loop's `continue`s. */
  datatype Request = Request(
    params: Params, now: int, pc: Pc, writes: Writes, served: Option<nat>, misses: nat, forgottenAtStart: nat)

  /** The committed tables, the requests, and the history of what took effect. */
  datatype World = World(db: Ledger, requests: map<nat, Request>, log: seq<Entry>)

  const START := World(EMPTY, map[], [])

  datatype Label =
    | Begin(r: nat, params: Params, now: int)
    | Reserve(r: nat)
    | Load(r: nat)
    | Insert(r: nat, id: nat)
    | Announce(r: nat, event: EventId)
    | Complete(r: nat)
    | Commit(r: nat, lost: Option<Failure>)
    | Break(r: nat, failure: Failure)
    | Rollback(r: nat)
    | Forget(key: KeyHash)
  {
    predicate ByRequest(o: nat) {
      !Forget? && r == o
    }
  }

  /** How often retention has deleted the key. */
  function Forgets(log: seq<Entry>, key: KeyHash): nat {
    if log == [] then 0
    else Forgets(log[..|log| - 1], key) + (if log[|log| - 1] == Forgotten(key) then 1 else 0)
  }

  /** Another open transaction has inserted the key. */
  predicate KeyHeld(w: World, r: nat, key: KeyHash) {
    exists o :: o in w.requests && o != r && w.requests[o].writes.key.Some? && w.requests[o].params.key == key
  }

  predicate TripleHeld(w: World, r: nat, t: Triple) {
    exists o :: o in w.requests && o != r && w.requests[o].writes.claim.Some? && w.requests[o].params.triple == t
  }

  /** A uuid that a committed row or an open transaction has already. */
  predicate ClaimIdUsed(w: World, id: nat) {
    id in w.db.claims || exists o :: o in w.requests && w.requests[o].writes.claim.Some? && w.requests[o].writes.claim.value.id == id
  }

  predicate EventIdUsed(w: World, id: EventId) {
    id in w.db.events || exists o :: o in w.requests && w.requests[o].writes.event.Some? && w.requests[o].writes.event.value.id == id
  }

  predicate Enabled(w: World, l: Label) {
    match l
    case Begin(r, params, now) => r !in w.requests && ValidTriple(params.triple)
    case Forget(key) => key in w.db.keys && w.db.keys[key].status.Some?
    case Reserve(r) => At(w, r) && PcOf(w, r).Reserving? && !KeyHeld(w, r, w.requests[r].params.key)
    case Load(r) => At(w, r) && PcOf(w, r).Loading?
    case Insert(r, _) => At(w, r) && PcOf(w, r).Inserting? && !TripleHeld(w, r, w.requests[r].params.triple)
    case Announce(r, _) => At(w, r) && PcOf(w, r).Announcing?
    case Complete(r) => At(w, r) && (PcOf(w, r).Completing? || PcOf(w, r).CompletingDuplicate?)
    case Commit(r, _) => At(w, r) && (PcOf(w, r).Committing? || PcOf(w, r).Replaying?)
    case Break(r, _) => At(w, r) && !PcOf(w, r).Aborting? && !PcOf(w, r).Done?
    case Rollback(r) => At(w, r) && PcOf(w, r).Aborting?
  }

  predicate At(w: World, r: nat) {
    r in w.requests
  }

  function PcOf(w: World, r: nat): Pc
    requires At(w, r)
  {
    w.requests[r].pc
  }

  function Put(w: World, r: nat, q: Request): World {
    w.(requests := w.requests[r := q])
  }

  function Abort(w: World, r: nat, outcome: Outcome): World
    requires At(w, r)
  {
    Put(w, r, w.requests[r].(pc := Aborting(outcome)))
  }

  /** tryReserveIdempotencyKey. */
  function ApplyReserve(w: World, r: nat): World
    requires At(w, r)
  {
    var q := w.requests[r];
    if q.params.key in w.db.keys then Put(w, r, q.(pc := Loading))
    else Put(w, r, q.(pc := Inserting, writes := q.writes.(key := Some(KeyRow(q.params.triple, None, None, None)))))
  }

  /** tryLoadIdempotentClaimResult; a row found is the moment at which a replay takes effect. */
  function ApplyLoad(codec: Codec, w: World, r: nat): World
    requires At(w, r)
  {
    var q := w.requests[r];
    if q.params.key !in w.db.keys then
      Put(w, r, q.(pc := Reserving, misses := q.misses + 1))
    else
      var row := w.db.keys[q.params.key];
      if row.status.None? || row.body.None? || row.body.value == [] then Abort(w, r, Errored(Internal))
      else if row.triple != q.params.triple then
        Serve(Abort(w, r, Answered(KeyReused)), r, KeyReused, None)
      else if row.status.value != CREATED && row.status.value != CONFLICT then Abort(w, r, Errored(Internal))
      else if !codec.wellFormed(row.body.value) then Abort(w, r, Errored(Internal))
      else
        var answer := Answer(row.status.value, row.body.value, true);
        Serve(Put(w, r, q.(pc := Replaying(answer))), r, answer, None)
  }

  /** The request's entry goes to the end of the log. */
  function Serve(w: World, r: nat, answer: Answer, grant: Option<Grant>): World
    requires At(w, r)
  {
    var q := w.requests[r];
    w.(requests := w.requests[r := q.(served := Some(|w.log|))],
       log := w.log + [Served(r, q.params, answer, grant)])
  }

  /** tryInsertClaim; a colliding uuid is a unique violation, which maps to an internal error. */
  function ApplyInsert(w: World, r: nat, id: nat): World
    requires At(w, r)
  {
    var q := w.requests[r];
    if Taken(w.db, q.params.triple) then Put(w, r, q.(pc := CompletingDuplicate))
    else if ClaimIdUsed(w, id) then Abort(w, r, Errored(Internal))
    else
      var claim := Claim(id, q.params.triple, q.now);
      Put(w, r, q.(pc := Announcing(claim), writes := q.writes.(claim := Some(claim))))
  }

  /** insertRewardClaimedOutboxEvent, under its two unique constraints. */
  function ApplyAnnounce(w: World, r: nat, event: EventId): World
    requires At(w, r) && PcOf(w, r).Announcing?
  {
    var q := w.requests[r];
    var claim := q.pc.claim;
    if EventIdUsed(w, event) || HasEvent(w.db, claim.id) then Abort(w, r, Errored(Internal))
    else Put(w, r, q.(pc := Completing(claim), writes := q.writes.(event := Some(EventWrite(event, NewRow(event, claim, q.now))))))
  }

  /** completeIdempotencyKey: one row is affected only while the reservation is still empty. */
  function ApplyComplete(codec: Codec, w: World, r: nat): World
    requires At(w, r) && (PcOf(w, r).Completing? || PcOf(w, r).CompletingDuplicate?)
  {
    var q := w.requests[r];
    if q.writes.key != Some(KeyRow(q.params.triple, None, None, None)) then Abort(w, r, Errored(Internal))
    else
      var answer := if q.pc.Completing? then Answer(CREATED, codec.created(q.pc.claim), false)
                    else Answer(CONFLICT, codec.duplicate, false);
      var row := KeyRow(q.params.triple, Some(answer.status), Some(answer.body),
                        if q.pc.Completing? then Some(q.pc.claim.id) else None);
      Put(w, r, q.(pc := Committing(answer), writes := q.writes.(key := Some(row))))
  }

  /** The transaction's writes become visible together. */
  function Merge(db: Ledger, key: KeyHash, writes: Writes): Ledger {
    Ledger(
      if writes.key.Some? then db.keys[key := writes.key.value] else db.keys,
      if writes.claim.Some? then db.claims[writes.claim.value.id := writes.claim.value] else db.claims,
      if writes.event.Some? then db.events[writes.event.value.id := writes.event.value.row] else db.events)
  }

  function GrantOf(q: Request): Option<Grant> {
    if q.writes.claim.Some? && q.writes.event.Some? then
      Some(Grant(q.writes.claim.value, q.writes.event.value.id, q.now))
    else None
  }

  /** Commit; a lost reply leaves the effect and takes the answer from the caller. */
  function ApplyCommit(w: World, r: nat, lost: Option<Failure>): World
    requires At(w, r) && (PcOf(w, r).Committing? || PcOf(w, r).Replaying?)
  {
    var q := w.requests[r];
    var outcome := if lost.None? then Answered(q.pc.answer) else Errored(lost.value);
    var served := if q.pc.Committing? then Serve(w, r, q.pc.answer, GrantOf(q)) else w;
    served.(db := Merge(w.db, q.params.key, q.writes),
            requests := served.requests[r := served.requests[r].(pc := Done(outcome), writes := NO_WRITES)])
  }

  function Apply(codec: Codec, w: World, l: Label): World
    requires Enabled(w, l)
  {
    match l
    case Begin(r, params, now) =>
      Put(w, r, Request(params, now, Reserving, NO_WRITES, None, 0, Forgets(w.log, params.key)))
    case Forget(key) => w.(db := w.db.(keys := w.db.keys - {key}), log := w.log + [Forgotten(key)])
    case Reserve(r) => ApplyReserve(w, r)
    case Load(r) => ApplyLoad(codec, w, r)
    case Insert(r, id) => ApplyInsert(w, r, id)
    case Announce(r, event) => ApplyAnnounce(w, r, event)
    case Complete(r) => ApplyComplete(codec, w, r)
    case Commit(r, lost) => ApplyCommit(w, r, lost)
    case Break(r, failure) => Abort(w, r, Errored(failure))
    case Rollback(r) => Put(w, r, w.requests[r].(pc := Done(w.requests[r].pc.outcome), writes := NO_WRITES))
  }

  ghost predicate Runs(codec: Codec, w: World, ls: seq<Label>, v: World)
    decreases |ls|
  {
    if ls == [] then w == v else Enabled(w, ls[0]) && Runs(codec, Apply(codec, w, ls[0]), ls[1..], v)
  }

  ghost predicate Reaches(codec: Codec, w: World, v: World) {
    exists ls :: Runs(codec, w, ls, v)
  }

  ghost predicate Reachable(codec: Codec, w: World) {
    Reaches(codec, START, w)
  }

  lemma {:induction false} RunsConcat(codec: Codec, w: World, ls: seq<Label>, v: World, ms: seq<Label>, u: World)
    requires Runs(codec, w, ls, v) && Runs(codec, v, ms, u)
    ensures Runs(codec, w, ls + ms, u)
    decreases |ls|
  {
    if ls == [] {
      assert ls + ms == ms;
    } else {
      RunsConcat(codec, Apply(codec, w, ls[0]), ls[1..], v, ms, u);
      assert (ls + ms)[1..] == ls[1..] + ms;
    }
  }

  lemma ReachesTrans(codec: Codec, w: World, v: World, u: World)
    requires Reaches(codec, w, v) && Reaches(codec, v, u)
    ensures Reaches(codec, w, u)
  {
    var ls :| Runs(codec, w, ls, v);
    var ms :| Runs(codec, v, ms, u);
    RunsConcat(codec, w, ls, v, ms, u);
  }

  lemma ReachesStep(codec: Codec, w: World, l: Label)
    requires Enabled(w, l)
    ensures Reaches(codec, w, Apply(codec, w, l))
  {
    var v := Apply(codec, w, l);
    assert [l][1..] == [];
    assert Runs(codec, v, [], v);
    assert Runs(codec, w, [l], v);
  }

  lemma ReachesSelf(codec: Codec, w: World)
    ensures Reaches(codec, w, w)
  {
    assert Runs(codec, w, [], w);
  }

  /** A foreign step leaves a request alone. */
  lemma OthersKeepRequest(codec: Codec, w: World, l: Label, r: nat)
    requires Enabled(w, l) && r in w.requests && !l.ByRequest(r)
    ensures r in Apply(codec, w, l).requests && Apply(codec, w, l).requests[r] == w.requests[r]
  {
  }
}

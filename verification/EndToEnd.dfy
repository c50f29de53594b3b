/**
 From a claim to its deliveries: the API's transactions and the outbox workers over one database. The transaction
 that commits a claim makes the event's row visible to the workers in the same step; nothing else inserts rows.
 */
module EndToEnd {
  import opened OutboxSchema
  import ClaimLedger
  import Api = ClaimProtocol
  import ApiInv = ClaimInvariant
  import ClaimTheorems
  import Outbox = OutboxProtocol
  import OutboxInv = OutboxInvariant
  import OutboxTheorems

  datatype Config = Config(codec: ClaimLedger.Codec, settings: Outbox.Settings) {
    ghost predicate Valid() {
      codec.Sound() && settings.Valid()
    }
  }

  /** `api.db.events` has every event row as it was inserted, `outbox.rows` and `outbox.gone` what became of them. */
  datatype Joint = Joint(api: Api.World, outbox: Outbox.Sys)

  const START := Joint(Api.START, Outbox.START)

  datatype Step = ByApi(a: Api.Label) | ByOutbox(o: Outbox.Label)

  /** A transaction's time is not ahead of the database clock. */
  predicate Enabled(j: Joint, l: Step) {
    match l
    case ByApi(a) => Api.Enabled(j.api, a) && (a.Begin? ==> a.now <= j.outbox.clock)
    case ByOutbox(o) => !o.Insert? && Outbox.Enabled(j.outbox, o)
  }

  /** The event rows that become visible. */
  function Show(s: Outbox.Sys, before: map<EventId, Row>, after: map<EventId, Row>): Outbox.Sys {
    var shown := after.Keys - before.Keys;
    s.(rows := map e | e in s.rows.Keys + shown :: if e in shown then after[e] else s.rows[e],
       claims := map e | e in s.claims.Keys + shown :: if e in shown then [] else s.claims[e])
  }

  function Apply(cfg: Config, j: Joint, l: Step): Joint
    requires Enabled(j, l)
  {
    match l
    case ByApi(a) =>
      var v := Api.Apply(cfg.codec, j.api, a);
      Joint(v, Show(j.outbox, j.api.db.events, v.db.events))
    case ByOutbox(o) => j.(outbox := Outbox.Apply(cfg.settings, j.outbox, o))
  }

  ghost predicate Runs(cfg: Config, j: Joint, ls: seq<Step>, k: Joint)
    decreases |ls|
  {
    if ls == [] then j == k else Enabled(j, ls[0]) && Runs(cfg, Apply(cfg, j, ls[0]), ls[1..], k)
  }

  ghost predicate Reachable(cfg: Config, j: Joint) {
    exists ls :: Runs(cfg, START, ls, j)
  }

  // ---- the invariant that joins the halves ---------------------------------------------------------------

  /** The columns that say what happened; no statement of the outbox writes them. */
  predicate SameContent(r: Row, o: Row) {
    && r.aggregateType == o.aggregateType && r.aggregateId == o.aggregateId
    && r.eventType == o.eventType && r.payload == o.payload && r.createdAt == o.createdAt
  }

  predicate SameRows(rows: map<EventId, Row>, originals: map<EventId, Row>) {
    forall e :: e in rows ==> e in originals && SameContent(rows[e], originals[e])
  }

  /** What a worker was handed about an event is what the row said when it was inserted. */
  predicate Says(event: Event, originals: map<EventId, Row>) {
    && event.id in originals
    && event.aggregateType == originals[event.id].aggregateType && event.aggregateId == originals[event.id].aggregateId
    && event.eventType == originals[event.id].eventType && event.payload == originals[event.id].payload
  }

  /** So says every snapshot a worker holds, and every event the publisher was ever called with. */
  ghost predicate AllSay(s: Outbox.Sys, originals: map<EventId, Row>) {
    && (forall w :: w in s.workers && s.workers[w].Leased() ==> Says(s.workers[w].lease.snapshot, originals))
    && (forall i :: 0 <= i < |s.calls| ==> Says(s.calls[i], originals))
  }

  ghost predicate Linked(j: Joint) {
    && j.outbox.claims.Keys == j.api.db.events.Keys
    && SameRows(j.outbox.rows, j.api.db.events)
    && SameRows(j.outbox.gone, j.api.db.events)
    && AllSay(j.outbox, j.api.db.events)
    && forall r :: r in j.api.requests ==> j.api.requests[r].now <= j.outbox.clock
  }

  ghost predicate Inv(cfg: Config, j: Joint) {
    ApiInv.Inv(cfg.codec, j.api) && OutboxInv.Inv(cfg.settings, j.outbox) && Linked(j)
  }

  /** A commit that creates a claim is, for the outbox, the insertion of one new row that no constraint rejects. */
  lemma CommitIsInsert(cfg: Config, j: Joint, a: Api.Label)
    requires cfg.Valid() && Inv(cfg, j) && Enabled(j, ByApi(a))
    ensures var k := Apply(cfg, j, ByApi(a));
            || (k.outbox == j.outbox && k.api.db.events == j.api.db.events)
            || (a.Commit?
                && var g := Api.GrantOf(j.api.requests[a.r]);
                   g.Some?
                   && k.api.db.events == j.api.db.events[g.value.event := NewRow(g.value.event, g.value.claim, g.value.now)]
                   && Outbox.Enabled(j.outbox, Outbox.Insert(g.value.event, g.value.claim, g.value.now))
                   && k.outbox == Outbox.Apply(cfg.settings, j.outbox, Outbox.Insert(g.value.event, g.value.claim, g.value.now)))
  {
    ClaimTheorems.StepRefines(cfg.codec, j.api, a);
    var v := Api.Apply(cfg.codec, j.api, a);
    if v.db.events == j.api.db.events {
      NothingShown(j.outbox, j.api.db.events);
    } else {
      var e := v.log[|j.api.log|];
      GrantIsLogged(cfg.codec, j.api, a);
      InsertEnabled(cfg, j, e, a.r);
    }
  }

  lemma NothingShown(s: Outbox.Sys, events: map<EventId, Row>)
    ensures Show(s, events, events) == s
  {
    assert Show(s, events, events).rows == s.rows;
    assert Show(s, events, events).claims == s.claims;
  }

  /** The only step that logs a grant is a commit, and the grant is what the transaction wrote. */
  lemma GrantIsLogged(codec: ClaimLedger.Codec, w: Api.World, a: Api.Label)
    requires codec.Sound() && ApiInv.Inv(codec, w) && Api.Enabled(w, a)
    requires Api.Apply(codec, w, a).db.events != w.db.events
    ensures a.Commit? && Api.GrantOf(w.requests[a.r]).Some?
    ensures var v := Api.Apply(codec, w, a);
            |v.log| == |w.log| + 1 && v.log[|w.log|].Served? && v.log[|w.log|].grant == Api.GrantOf(w.requests[a.r])
  {
    assert a.Commit?;
    assert ApiInv.RequestInv(codec, w, a.r, w.requests[a.r]);
  }

  /** One new event shows as one new row, with no claims yet. */
  lemma ShowOne(s: Outbox.Sys, before: map<EventId, Row>, id: EventId, row: Row)
    requires id !in before
    ensures Show(s, before, before[id := row]) == s.(rows := s.rows[id := row], claims := s.claims[id := []])
  {
    var t := Show(s, before, before[id := row]);
    assert before[id := row].Keys - before.Keys == {id};
    assert t.rows == s.rows[id := row];
    assert t.claims == s.claims[id := []];
  }

  lemma ClaimHasNoRow(cfg: Config, j: Joint, claimId: nat)
    requires cfg.Valid() && Inv(cfg, j) && claimId !in j.api.db.claims
    ensures forall other :: other in j.outbox.rows ==> j.outbox.rows[other].aggregateId != claimId
  {
    ClaimLedger.LegalLedgerOk(cfg.codec, j.api.log);
    forall other | other in j.outbox.rows ensures j.outbox.rows[other].aggregateId != claimId {
      assert ClaimLedger.EventFacts(j.api.db, other);
    }
  }

  lemma InsertEnabled(cfg: Config, j: Joint, e: ClaimLedger.Entry, r: nat)
    requires cfg.Valid() && Inv(cfg, j) && r in j.api.requests
    requires e.Served? && e.grant.Some? && ClaimLedger.Allows(cfg.codec, j.api.db, e)
    requires e.grant == Api.GrantOf(j.api.requests[r])
    ensures var g := e.grant.value;
            var l := Outbox.Insert(g.event, g.claim, g.now);
            && ClaimLedger.Next(j.api.db, e).events == j.api.db.events[g.event := NewRow(g.event, g.claim, g.now)]
            && Outbox.Enabled(j.outbox, l)
            && Show(j.outbox, j.api.db.events, ClaimLedger.Next(j.api.db, e).events)
               == Outbox.Apply(cfg.settings, j.outbox, l)
  {
    var g := e.grant.value;
    ClaimHasNoRow(cfg, j, g.claim.id);
    ShowOne(j.outbox, j.api.db.events, g.event, NewRow(g.event, g.claim, g.now));
  }

  lemma ClaimKeepsContent(cfg: Outbox.Settings, s: Outbox.Sys, l: Outbox.Label, originals: map<EventId, Row>)
    requires OutboxInv.Inv(cfg, s) && Outbox.Enabled(s, l) && l.ClaimApply?
    requires SameRows(s.rows, originals)
    ensures SameRows(Outbox.Apply(cfg, s, l).rows, originals)
    ensures Outbox.Apply(cfg, s, l).claims.Keys == s.claims.Keys
  {
    if l.picked.Some? {
      assert OutboxInv.RowInv(cfg, s, l.picked.value, s.rows[l.picked.value]);
    }
  }

  lemma FinalKeepsContent(s: Outbox.Sys, w: WorkerId, now: int, originals: map<EventId, Row>)
    requires Outbox.Enabled(s, Outbox.FinalizeApply(w, now)) && SameRows(s.rows, originals)
    ensures SameRows(Outbox.ApplyFinal(s, w, now).rows, originals)
  {
    var t := Outbox.ApplyFinal(s, w, now);
    forall e | e in t.rows ensures e in originals && SameContent(t.rows[e], originals[e]) {
      assert e in s.rows;
    }
  }

  lemma CleanUpKeepsContent(cfg: Outbox.Settings, s: Outbox.Sys, id: EventId, originals: map<EventId, Row>)
    requires Outbox.Enabled(s, Outbox.CleanUp(id)) && SameRows(s.rows, originals) && SameRows(s.gone, originals)
    ensures var t := Outbox.Apply(cfg, s, Outbox.CleanUp(id));
            SameRows(t.rows, originals) && SameRows(t.gone, originals)
  {
  }

  /** The outbox never writes a content column, never invents a row and never forgets one. */
  lemma OutboxKeepsContent(cfg: Outbox.Settings, s: Outbox.Sys, l: Outbox.Label, originals: map<EventId, Row>)
    requires OutboxInv.Inv(cfg, s) && Outbox.Enabled(s, l) && !l.Insert?
    requires SameRows(s.rows, originals) && SameRows(s.gone, originals)
    ensures var t := Outbox.Apply(cfg, s, l);
            && SameRows(t.rows, originals) && SameRows(t.gone, originals)
            && t.claims.Keys == s.claims.Keys && s.clock <= t.clock
  {
    match l
    case ClaimApply(_, _, _, _) => ClaimKeepsContent(cfg, s, l, originals);
    case FinalizeApply(w, now) => FinalKeepsContent(s, w, now, originals);
    case CleanUp(id) => CleanUpKeepsContent(cfg, s, id, originals);
    case _ =>
  }

  /** A snapshot says what its row says, and nobody rewrites a snapshot. */
  lemma OutboxKeepsSaying(cfg: Outbox.Settings, s: Outbox.Sys, l: Outbox.Label, originals: map<EventId, Row>)
    requires Outbox.Enabled(s, l) && !l.Insert? && SameRows(s.rows, originals) && AllSay(s, originals)
    ensures AllSay(Outbox.Apply(cfg, s, l), originals)
  {
    var t := Outbox.Apply(cfg, s, l);
    forall w | w in t.workers && t.workers[w].Leased() ensures Says(t.workers[w].lease.snapshot, originals) {
      if !l.ByWorker(w) {
        assert w in s.workers && t.workers[w] == s.workers[w];
      }
    }
  }

  lemma InsertKeepsSaying(cfg: Outbox.Settings, s: Outbox.Sys, l: Outbox.Label, originals: map<EventId, Row>, row: Row)
    requires Outbox.Enabled(s, l) && l.Insert? && l.id !in originals && AllSay(s, originals)
    ensures AllSay(Outbox.Apply(cfg, s, l), originals[l.id := row])
  {
    forall w | w in s.workers && s.workers[w].Leased() ensures Says(s.workers[w].lease.snapshot, originals[l.id := row]) {
      assert Says(s.workers[w].lease.snapshot, originals);
    }
  }

  lemma InsertKeepsSameRows(cfg: Outbox.Settings, s: Outbox.Sys, l: Outbox.Label, originals: map<EventId, Row>)
    requires Outbox.Enabled(s, l) && l.Insert? && s.claims.Keys == originals.Keys
    requires SameRows(s.rows, originals) && SameRows(s.gone, originals)
    ensures var t := Outbox.Apply(cfg, s, l);
            var shown := originals[l.id := NewRow(l.id, l.claim, l.now)];
            && SameRows(t.rows, shown) && SameRows(t.gone, shown)
            && t.claims.Keys == shown.Keys && t.clock == s.clock
  {
  }

  lemma ApiKeepsLinked(cfg: Config, j: Joint, a: Api.Label)
    requires cfg.Valid() && Inv(cfg, j) && Enabled(j, ByApi(a))
    ensures Linked(Apply(cfg, j, ByApi(a)))
  {
    TimesKept(cfg.codec, j.api, a, j.outbox.clock);
    CommitIsInsert(cfg, j, a);
    if Apply(cfg, j, ByApi(a)).outbox != j.outbox {
      var g := Api.GrantOf(j.api.requests[a.r]).value;
      var l := Outbox.Insert(g.event, g.claim, g.now);
      InsertKeepsSameRows(cfg.settings, j.outbox, l, j.api.db.events);
      InsertKeepsSaying(cfg.settings, j.outbox, l, j.api.db.events, NewRow(g.event, g.claim, g.now));
    }
  }

  lemma StepKeepsInv(cfg: Config, j: Joint, l: Step)
    requires cfg.Valid() && Inv(cfg, j) && Enabled(j, l)
    ensures Inv(cfg, Apply(cfg, j, l))
  {
    match l
    case ByApi(a) =>
      ApiInv.StepKeepsInv(cfg.codec, j.api, a);
      ApiKeepsLinked(cfg, j, a);
      CommitIsInsert(cfg, j, a);
      if Apply(cfg, j, l).outbox != j.outbox {
        var g := Api.GrantOf(j.api.requests[a.r]).value;
        OutboxInv.StepKeepsInv(cfg.settings, j.outbox, Outbox.Insert(g.event, g.claim, g.now));
      }
    case ByOutbox(o) =>
      OutboxInv.StepKeepsInv(cfg.settings, j.outbox, o);
      OutboxKeepsContent(cfg.settings, j.outbox, o, j.api.db.events);
      OutboxKeepsSaying(cfg.settings, j.outbox, o, j.api.db.events);
  }

  lemma TimesKept(codec: ClaimLedger.Codec, w: Api.World, a: Api.Label, clock: int)
    requires Api.Enabled(w, a) && (a.Begin? ==> a.now <= clock)
    requires forall r :: r in w.requests ==> w.requests[r].now <= clock
    ensures forall r :: r in Api.Apply(codec, w, a).requests ==> Api.Apply(codec, w, a).requests[r].now <= clock
  {
  }

  /** Every joint run is a run of the claim protocol and a run of the outbox protocol, so what holds of each holds here. */
  lemma {:induction false} RunsOfBoth(cfg: Config, j: Joint, ls: seq<Step>, k: Joint)
    requires cfg.Valid() && Inv(cfg, j) && Runs(cfg, j, ls, k)
    ensures Inv(cfg, k)
    ensures Api.Reaches(cfg.codec, j.api, k.api)
    ensures Outbox.Reaches(cfg.settings, j.outbox, k.outbox)
    decreases |ls|
  {
    if ls == [] {
      Api.ReachesSelf(cfg.codec, j.api);
      Outbox.ReachesSelf(cfg.settings, j.outbox);
    } else {
      var i := Apply(cfg, j, ls[0]);
      StepKeepsInv(cfg, j, ls[0]);
      StepOfBoth(cfg, j, ls[0]);
      RunsOfBoth(cfg, i, ls[1..], k);
      Api.ReachesTrans(cfg.codec, j.api, i.api, k.api);
      Outbox.ReachesTrans(cfg.settings, j.outbox, i.outbox, k.outbox);
    }
  }

  lemma StepOfBoth(cfg: Config, j: Joint, l: Step)
    requires cfg.Valid() && Inv(cfg, j) && Enabled(j, l)
    ensures Api.Reaches(cfg.codec, j.api, Apply(cfg, j, l).api)
    ensures Outbox.Reaches(cfg.settings, j.outbox, Apply(cfg, j, l).outbox)
  {
    Api.ReachesSelf(cfg.codec, j.api);
    Outbox.ReachesSelf(cfg.settings, j.outbox);
    match l
    case ByApi(a) =>
      Api.ReachesStep(cfg.codec, j.api, a);
      CommitIsInsert(cfg, j, a);
      if Apply(cfg, j, l).outbox != j.outbox {
        var g := Api.GrantOf(j.api.requests[a.r]).value;
        Outbox.ReachesStep(cfg.settings, j.outbox, Outbox.Insert(g.event, g.claim, g.now));
      }
    case ByOutbox(o) =>
      Outbox.ReachesStep(cfg.settings, j.outbox, o);
  }

  lemma ReachableInv(cfg: Config, j: Joint)
    requires cfg.Valid() && Reachable(cfg, j)
    ensures Inv(cfg, j) && ClaimLedger.LedgerOk(cfg.codec, j.api.db)
    ensures Api.Reachable(cfg.codec, j.api) && Outbox.Reachable(cfg.settings, j.outbox)
  {
    ApiInv.StartInv(cfg.codec);
    OutboxInv.StartInv(cfg.settings);
    var ls :| Runs(cfg, START, ls, j);
    RunsOfBoth(cfg, START, ls, j);
    ClaimLedger.LegalLedgerOk(cfg.codec, j.api.log);
  }

  // ---- nothing invented ----------------------------------------------------------------------------------

  /**
   Every event ever handed to the publisher is exactly what the transaction wrote about a committed claim, and so is
   its row wherever it is now.
   */
  lemma EveryCallHasItsClaim(cfg: Config, j: Joint, i: nat)
    requires cfg.Valid() && Reachable(cfg, j) && i < |j.outbox.calls|
    ensures var event := j.outbox.calls[i];
            var e := event.id;
            && event.aggregateType == "reward_claim" && event.eventType == "RewardClaimed"
            && event.aggregateId in j.api.db.claims
            && var claim := j.api.db.claims[event.aggregateId];
               && event.payload == RewardClaimed(1, e, claim.createdAt, claim) && claim.id == event.aggregateId
               && e in j.api.db.events
               && var written := NewRow(e, claim, j.api.db.events[e].createdAt);
                  && (e in j.outbox.rows || e in j.outbox.gone)
                  && (e in j.outbox.rows ==> SameContent(j.outbox.rows[e], written))
                  && (e in j.outbox.gone ==> SameContent(j.outbox.gone[e], written))
  {
    ReachableInv(cfg, j);
    assert Says(j.outbox.calls[i], j.api.db.events);
    assert ClaimLedger.EventFacts(j.api.db, j.outbox.calls[i].id);
  }

  predicate Has(seen: seq<Event>, id: EventId) {
    exists a :: 0 <= a < |seen| && seen[a].id == id
  }

  /** A consumer that keeps the first delivery of every event id. */
  function Kept(calls: seq<Event>): seq<Event> {
    if calls == [] then [] else
    var before := Kept(calls[..|calls| - 1]);
    if Has(before, calls[|calls| - 1].id) then before else before + [calls[|calls| - 1]]
  }

  /** It keeps deliveries only, one of every id. */
  lemma {:induction false} KeptOnce(calls: seq<Event>)
    ensures forall a :: 0 <= a < |Kept(calls)| ==> Kept(calls)[a] in calls
    ensures forall i :: 0 <= i < |calls| ==> Has(Kept(calls), calls[i].id)
    ensures forall a, b :: 0 <= a < b < |Kept(calls)| ==> Kept(calls)[a].id != Kept(calls)[b].id
  {
    if calls != [] {
      var earlier, e := calls[..|calls| - 1], calls[|calls| - 1];
      KeptOnce(earlier);
      var before, r := Kept(earlier), Kept(calls);
      assert forall a :: 0 <= a < |before| ==> r[a] == before[a] && before[a] in earlier;
      assert !Has(before, e.id) ==> r[|before|] == e;
      assert Has(r, e.id);
      forall i | 0 <= i < |earlier| ensures Has(r, earlier[i].id) {
        assert Has(before, earlier[i].id);
        var a :| 0 <= a < |before| && before[a].id == earlier[i].id;
        assert r[a].id == earlier[i].id;
      }
    }
  }

  /** It is told of each claim at most once, however often the workers deliver, and only of claims that were committed. */
  lemma ConsumerSeesClaimsOnce(cfg: Config, j: Joint)
    requires cfg.Valid() && Reachable(cfg, j)
    ensures var seen := Kept(j.outbox.calls);
            && (forall a :: 0 <= a < |seen| ==>
                  && seen[a].payload.RewardClaimed? && seen[a].payload.claim.id in j.api.db.claims
                  && j.api.db.claims[seen[a].payload.claim.id] == seen[a].payload.claim)
            && (forall a, b :: 0 <= a < b < |seen| ==>
                  && seen[a].payload.RewardClaimed? && seen[b].payload.RewardClaimed?
                  && seen[a].payload.claim.id != seen[b].payload.claim.id)
  {
    ReachableInv(cfg, j);
    KeptOnce(j.outbox.calls);
    var seen := Kept(j.outbox.calls);
    forall a | 0 <= a < |seen|
      ensures seen[a].payload.RewardClaimed? && seen[a].payload.claim.id in j.api.db.claims
      ensures j.api.db.claims[seen[a].payload.claim.id] == seen[a].payload.claim
      ensures seen[a].id in j.api.db.events && j.api.db.events[seen[a].id].aggregateId == seen[a].payload.claim.id
    {
      assert seen[a] in j.outbox.calls;
      var i :| 0 <= i < |j.outbox.calls| && j.outbox.calls[i] == seen[a];
      EveryCallHasItsClaim(cfg, j, i);
      assert Says(j.outbox.calls[i], j.api.db.events);
    }
  }

  // ---- nothing lost --------------------------------------------------------------------------------------

  /** The event is in the table, or the publisher returned nil for its latest claim before retention removed it. */
  ghost predicate Accounted(s: Outbox.Sys, e: EventId) {
    || (e in s.rows && s.rows[e].status != Published)
    || (&& e in s.claims && s.claims[e] != []
        && Outbox.Return(e, |s.claims[e]|, OutboxInv.Last(s.claims[e]).worker, Success) in s.answers)
  }

  /** Every committed claim has exactly one event, and that event is still to be delivered or was delivered. */
  lemma NoClaimLost(cfg: Config, j: Joint, claimId: nat) returns (e: EventId)
    requires cfg.Valid() && Reachable(cfg, j) && claimId in j.api.db.claims
    ensures e in j.api.db.events && j.api.db.events[e].aggregateId == claimId
    ensures forall o :: o in j.api.db.events && j.api.db.events[o].aggregateId == claimId ==> o == e
    ensures Accounted(j.outbox, e)
  {
    ReachableInv(cfg, j);
    assert ClaimLedger.HasEvent(j.api.db, claimId);
    e :| e in j.api.db.events && j.api.db.events[e].aggregateId == claimId;
    assert e in j.outbox.claims;
    if e in j.outbox.gone || j.outbox.rows[e].status == Published {
      OutboxTheorems.PublishedMeansPublisherSucceeded(cfg.settings, j.outbox, e);
    }
  }

  /**
   Whoever was told 201 for a new claim has exactly one event, for a claim of exactly the triple asked for, both dated
   at the request's transaction, and that event is still to be delivered or was delivered.
   */
  lemma GrantedIsAccountedFor(cfg: Config, j: Joint, r: nat) returns (claimId: nat, e: EventId)
    requires cfg.Valid() && Reachable(cfg, j)
    requires r in j.api.requests && ClaimTheorems.FreshlyGranted(j.api.requests[r])
    ensures claimId in j.api.db.claims && j.api.db.claims[claimId].triple == j.api.requests[r].params.triple
    ensures j.api.requests[r].pc.outcome.answer.body == cfg.codec.created(j.api.db.claims[claimId])
    ensures j.api.db.claims[claimId].createdAt == j.api.requests[r].now
    ensures e in j.api.db.events && j.api.db.events[e].aggregateId == claimId
    ensures j.api.db.events[e].createdAt == j.api.db.events[e].availableAt == j.api.requests[r].now
    ensures forall o :: o in j.api.db.events && j.api.db.events[o].aggregateId == claimId ==> o == e
    ensures Accounted(j.outbox, e)
  {
    ReachableInv(cfg, j);
    ApiInv.StartInv(cfg.codec);
    var ls :| Api.Runs(cfg.codec, Api.START, ls, j.api);
    ClaimTheorems.GrantsBearTheirTime(cfg.codec, Api.START, ls, j.api);
    var i := ClaimTheorems.GrantEntry(cfg.codec, j.api, r);
    claimId := j.api.log[i].grant.value.claim.id;
    ClaimLedger.LegalAt(cfg.codec, j.api.log, i);
    ClaimLedger.GrantStays(cfg.codec, j.api.log, i, |j.api.log|);
    assert j.api.log[..|j.api.log|] == j.api.log;
    assert ApiInv.RequestInv(cfg.codec, j.api, r, j.api.requests[r]);
    e := NoClaimLost(cfg, j, claimId);
  }
}

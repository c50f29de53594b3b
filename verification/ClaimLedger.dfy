/**
 The atomic specification of a reward claim: one sequential ledger on which every request is served in a single step.
 It says nothing of transactions, locks or retries, and is what createClaim has to look like from outside.
 */
module ClaimLedger {
  import opened Wrappers
  import opened OutboxSchema

  newtype Byte = b: int | 0 <= b < 256
  type Bytes = seq<Byte>

  /** A SHA-256 digest; the constraint on its length is its type. */
  type KeyHash = h: Bytes | |h| == 32 witness seq(32, _ => 0)

  const CREATED := 201
  const CONFLICT := 409

  /** Marshalling, of which only its being a function of the claim matters, and the validity of stored bodies. */
  datatype Codec = Codec(created: Claim -> Bytes, duplicate: Bytes, wellFormed: Bytes -> bool) {
    ghost predicate Sound() {
      && duplicate != [] && wellFormed(duplicate)
      && forall c: Claim :: created(c) != [] && wellFormed(created(c))
    }
  }

  /** createClaimParams, validated. */
  datatype Params = Params(key: KeyHash, triple: Triple)

  predicate ValidTriple(t: Triple) {
    1 <= |t.playerId| <= 128 && 1 <= |t.campaignId| <= 128 && 1 <= |t.rewardId| <= 128
  }

  /** A row of reward_claim_idempotency_keys. */
  datatype KeyRow = KeyRow(triple: Triple, status: Option<int>, body: Option<Bytes>, claimId: Option<nat>)

  /** The CHECK constraints of that table. */
  predicate KeyRowOk(r: KeyRow) {
    && ValidTriple(r.triple)
    && if r.status.None? then r.body.None? && r.claimId.None?
       else if r.status.value == 201 then r.body.Some? && |r.body.value| > 0 && r.claimId.Some?
       else r.status.value == 409 && r.body.Some? && |r.body.value| > 0 && r.claimId.None?
  }

  /** The three tables; `events` keeps every event row as it was inserted. */
  datatype Ledger = Ledger(keys: map<KeyHash, KeyRow>, claims: map<nat, Claim>, events: map<EventId, Row>)

  const EMPTY := Ledger(map[], map[], map[])

  predicate Taken(l: Ledger, t: Triple) {
    exists id :: id in l.claims && l.claims[id].triple == t
  }

  /** What a caller is told. */
  datatype Answer = Answer(status: int, body: Bytes, replayed: bool) | KeyReused

  /** What a granted request creates besides its stored answer. */
  datatype Grant = Grant(claim: Claim, event: EventId, now: int)

  /** One atomic step: a request is served, or retention forgets a key. */
  datatype Entry =
    | Served(request: nat, params: Params, answer: Answer, grant: Option<Grant>)
    | Forgotten(key: KeyHash)

  /** The specification: what each step may answer, and when. */
  ghost predicate Allows(codec: Codec, l: Ledger, e: Entry) {
    match e
    case Forgotten(key) => key in l.keys
    case Served(_, p, answer, grant) =>
      if p.key in l.keys then
        && grant.None?
        && if l.keys[p.key].triple == p.triple then
             answer.Answer? && answer.replayed
             && l.keys[p.key].status == Some(answer.status) && l.keys[p.key].body == Some(answer.body)
           else answer.KeyReused?
      else if Taken(l, p.triple) then
        grant.None? && answer == Answer(CONFLICT, codec.duplicate, false)
      else
        && grant.Some? && ValidTriple(p.triple)
        && grant.value.claim.triple == p.triple
        && grant.value.claim.id !in l.claims && grant.value.event !in l.events
        && answer == Answer(CREATED, codec.created(grant.value.claim), false)
  }

  function Next(l: Ledger, e: Entry): Ledger {
    match e
    case Forgotten(key) => l.(keys := l.keys - {key})
    case Served(_, p, answer, grant) =>
      if answer.KeyReused? || answer.replayed then l
      else
        var row := KeyRow(p.triple, Some(answer.status), Some(answer.body),
                          if grant.Some? then Some(grant.value.claim.id) else None);
        if grant.None? then l.(keys := l.keys[p.key := row])
        else
          var g := grant.value;
          Ledger(l.keys[p.key := row], l.claims[g.claim.id := g.claim],
                 l.events[g.event := NewRow(g.event, g.claim, g.now)])
  }

  function After(log: seq<Entry>): Ledger {
    if log == [] then EMPTY else Next(After(log[..|log| - 1]), log[|log| - 1])
  }

  ghost predicate Legal(codec: Codec, log: seq<Entry>) {
    log == [] || (Legal(codec, log[..|log| - 1]) && Allows(codec, After(log[..|log| - 1]), log[|log| - 1]))
  }

  lemma AppendEntry(codec: Codec, log: seq<Entry>, e: Entry)
    requires Legal(codec, log) && Allows(codec, After(log), e)
    ensures Legal(codec, log + [e]) && After(log + [e]) == Next(After(log), e)
  {
    assert (log + [e])[..|log|] == log;
  }

  lemma {:induction false} LegalPrefix(codec: Codec, log: seq<Entry>, n: nat)
    requires Legal(codec, log) && n <= |log|
    ensures Legal(codec, log[..n])
    decreases |log|
  {
    if n == |log| {
      assert log[..n] == log;
    } else {
      LegalPrefix(codec, log[..|log| - 1], n);
      assert log[..|log| - 1][..n] == log[..n];
    }
  }

  /** Each single step of a legal log is allowed where it happens. */
  lemma LegalAt(codec: Codec, log: seq<Entry>, i: nat)
    requires Legal(codec, log) && i < |log|
    ensures Legal(codec, log[..i]) && Allows(codec, After(log[..i]), log[i])
    ensures After(log[..i + 1]) == Next(After(log[..i]), log[i])
  {
    LegalPrefix(codec, log, i);
    LegalPrefix(codec, log, i + 1);
    assert log[..i + 1][..i] == log[..i];
  }

  // ---- what the ledger always looks like ---------------------------------------------------------------

  /** A stored response fits its claim: a 201 links the claim of its triple, a 409 finds one without linking it. */
  ghost predicate KeyFacts(codec: Codec, l: Ledger, r: KeyRow) {
    && KeyRowOk(r) && r.status.Some?
    && Taken(l, r.triple)
    && (r.status == Some(CREATED) ==>
          && r.claimId.value in l.claims
          && l.claims[r.claimId.value].triple == r.triple
          && r.body == Some(codec.created(l.claims[r.claimId.value])))
    && (r.status == Some(CONFLICT) ==> r.body == Some(codec.duplicate))
  }

  predicate EventFacts(l: Ledger, id: EventId) {
    && id in l.events
    && l.events[id].aggregateId in l.claims
    && l.events[id] == NewRow(id, l.claims[l.events[id].aggregateId], l.events[id].createdAt)
  }

  predicate HasEvent(l: Ledger, claimId: nat) {
    exists id :: id in l.events && l.events[id].aggregateId == claimId
  }

  ghost predicate LedgerOk(codec: Codec, l: Ledger) {
    && (forall k :: k in l.keys ==> KeyFacts(codec, l, l.keys[k]))
    && (forall c :: c in l.claims ==> l.claims[c].id == c && ValidTriple(l.claims[c].triple) && HasEvent(l, c))
    && (forall c, d :: c in l.claims && d in l.claims && l.claims[c].triple == l.claims[d].triple ==> c == d)
    && (forall e :: e in l.events ==> EventFacts(l, e))
    && (forall e, f :: e in l.events && f in l.events && l.events[e].aggregateId == l.events[f].aggregateId ==> e == f)
  }

  lemma GrantKeepsKeys(codec: Codec, l: Ledger, e: Entry)
    requires codec.Sound() && LedgerOk(codec, l) && Allows(codec, l, e) && e.Served? && e.grant.Some?
    ensures forall k :: k in Next(l, e).keys ==> KeyFacts(codec, Next(l, e), Next(l, e).keys[k])
  {
    var m := Next(l, e);
    assert m.claims[e.grant.value.claim.id].triple == e.params.triple;
    forall k | k in m.keys ensures KeyFacts(codec, m, m.keys[k]) {
      if k != e.params.key {
        assert KeyFacts(codec, l, l.keys[k]);
        var id :| id in l.claims && l.claims[id].triple == l.keys[k].triple;
        assert m.claims[id].triple == m.keys[k].triple;
      }
    }
  }

  lemma GrantKeepsEvents(codec: Codec, l: Ledger, e: Entry)
    requires LedgerOk(codec, l) && Allows(codec, l, e) && e.Served? && e.grant.Some?
    ensures var m := Next(l, e);
            && (forall id :: id in m.events ==> EventFacts(m, id))
            && (forall i, j :: i in m.events && j in m.events && m.events[i].aggregateId == m.events[j].aggregateId ==> i == j)
  {
    var m := Next(l, e);
    var g := e.grant.value;
    forall id | id in m.events ensures EventFacts(m, id) {
      assert id != g.event ==> EventFacts(l, id);
    }
    forall i, j | i in m.events && j in m.events && m.events[i].aggregateId == m.events[j].aggregateId ensures i == j {
      assert i != g.event ==> EventFacts(l, i);
      assert j != g.event ==> EventFacts(l, j);
    }
  }

  lemma GrantKeepsClaims(codec: Codec, l: Ledger, e: Entry)
    requires LedgerOk(codec, l) && Allows(codec, l, e) && e.Served? && e.grant.Some?
    ensures var m := Next(l, e);
            && (forall c :: c in m.claims ==> m.claims[c].id == c && ValidTriple(m.claims[c].triple) && HasEvent(m, c))
            && (forall c, d :: c in m.claims && d in m.claims && m.claims[c].triple == m.claims[d].triple ==> c == d)
  {
    var m := Next(l, e);
    var g := e.grant.value;
    assert m.events[g.event].aggregateId == g.claim.id;
    forall c | c in m.claims ensures m.claims[c].id == c && ValidTriple(m.claims[c].triple) && HasEvent(m, c) {
      if c != g.claim.id {
        assert HasEvent(l, c);
        var id :| id in l.events && l.events[id].aggregateId == c;
        assert m.events[id].aggregateId == c;
      }
    }
  }

  lemma GrantKeepsLedgerOk(codec: Codec, l: Ledger, e: Entry)
    requires codec.Sound() && LedgerOk(codec, l) && Allows(codec, l, e) && e.Served? && e.grant.Some?
    ensures LedgerOk(codec, Next(l, e))
  {
    GrantKeepsKeys(codec, l, e);
    GrantKeepsClaims(codec, l, e);
    GrantKeepsEvents(codec, l, e);
  }

  lemma StepKeepsLedgerOk(codec: Codec, l: Ledger, e: Entry)
    requires codec.Sound() && LedgerOk(codec, l) && Allows(codec, l, e)
    ensures LedgerOk(codec, Next(l, e))
  {
    if e.Served? && e.grant.Some? {
      GrantKeepsLedgerOk(codec, l, e);
    } else {
      var m := Next(l, e);
      assert m.claims == l.claims && m.events == l.events;
      forall k | k in m.keys ensures KeyFacts(codec, m, m.keys[k]) {
        assert k in l.keys ==> KeyFacts(codec, l, l.keys[k]);
      }
      forall c | c in m.claims ensures HasEvent(m, c) {
        assert HasEvent(l, c);
      }
      forall id | id in m.events ensures EventFacts(m, id) {
        assert EventFacts(l, id);
      }
    }
  }

  /** After every legal history: complete responses, unique claims, and exactly one event for every claim. */
  lemma {:induction false} LegalLedgerOk(codec: Codec, log: seq<Entry>)
    requires codec.Sound() && Legal(codec, log)
    ensures LedgerOk(codec, After(log))
  {
    if log != [] {
      LegalLedgerOk(codec, log[..|log| - 1]);
      StepKeepsLedgerOk(codec, After(log[..|log| - 1]), log[|log| - 1]);
    }
  }

  /** Events belong to claims. */
  lemma NoEventWithoutClaim(codec: Codec, l: Ledger, claimId: nat)
    requires LedgerOk(codec, l) && claimId !in l.claims
    ensures !HasEvent(l, claimId)
  {
    forall id | id in l.events ensures l.events[id].aggregateId != claimId {
      assert EventFacts(l, id);
    }
  }

  // ---- one grant for ever ------------------------------------------------------------------------------

  /** A granted claim stays, whatever retention forgets afterwards. */
  lemma {:induction false} GrantStays(codec: Codec, log: seq<Entry>, i: nat, n: nat)
    requires Legal(codec, log) && i < n <= |log| && log[i].Served? && log[i].grant.Some?
    ensures log[i].grant.value.claim.id in After(log[..n]).claims
    ensures After(log[..n]).claims[log[i].grant.value.claim.id] == log[i].grant.value.claim
    ensures var g := log[i].grant.value;
            g.event in After(log[..n]).events && After(log[..n]).events[g.event] == NewRow(g.event, g.claim, g.now)
    decreases n
  {
    LegalAt(codec, log, n - 1);
    if n - 1 > i {
      GrantStays(codec, log, i, n - 1);
    }
  }

  /** Over a whole history, deletions and reused keys included, a triple is granted at most once. */
  lemma OneGrant(codec: Codec, log: seq<Entry>, i: nat, j: nat)
    requires Legal(codec, log) && i < |log| && j < |log|
    requires log[i].Served? && log[i].grant.Some? && log[j].Served? && log[j].grant.Some?
    requires log[i].params.triple == log[j].params.triple
    ensures i == j
  {
    LegalAt(codec, log, i);
    LegalAt(codec, log, j);
    if i < j {
      GrantStays(codec, log, i, j);
    } else if j < i {
      GrantStays(codec, log, j, i);
    }
  }

  // ---- replays -----------------------------------------------------------------------------------------

  /** No retention step forgets the key between the two positions. */
  ghost predicate Retained(log: seq<Entry>, key: KeyHash, i: nat, j: nat)
    requires j <= |log|
  {
    forall n :: i <= n < j ==> log[n] != Forgotten(key)
  }

  /** Once a key has an answer, the ledger keeps exactly that answer until the key is forgotten. */
  lemma {:induction false} AnswerStays(codec: Codec, log: seq<Entry>, i: nat, j: nat)
    requires Legal(codec, log) && i < j <= |log|
    requires log[i].Served? && log[i].answer.Answer? && Retained(log, log[i].params.key, i, j)
    ensures var key := log[i].params.key;
            && key in After(log[..j]).keys
            && After(log[..j]).keys[key].triple == log[i].params.triple
            && After(log[..j]).keys[key].status == Some(log[i].answer.status)
            && After(log[..j]).keys[key].body == Some(log[i].answer.body)
    decreases j
  {
    LegalAt(codec, log, j - 1);
    if j - 1 > i {
      AnswerStays(codec, log, i, j - 1);
    }
  }

  /**
   While a key is retained, every later request with that key gets the very same status and bytes, marked as a
   replay, if it asks for the same triple, and KeyReused if it asks for another one.
   */
  lemma ReplaysAgree(codec: Codec, log: seq<Entry>, i: nat, j: nat)
    requires Legal(codec, log) && i < j < |log|
    requires log[i].Served? && log[i].answer.Answer? && log[j].Served? && log[j].params.key == log[i].params.key
    requires Retained(log, log[i].params.key, i, j)
    ensures log[j].grant.None?
    ensures log[j].answer == if log[j].params.triple == log[i].params.triple
                             then Answer(log[i].answer.status, log[i].answer.body, true) else KeyReused
  {
    AnswerStays(codec, log, i, j);
    LegalAt(codec, log, j);
  }
}

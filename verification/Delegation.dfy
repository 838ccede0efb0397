/** Agent registration, key rotation and revocation (app/routers/v1.py, app/routers/agents.py,
    app/routers/parents.py). A key is named by its text and bound by a fingerprint function. */
module Delegation {
  import opened Text
  import opened Runs

  const SECOND: int := 1_000_000
  const MINUTE: int := 60_000_000
  const DAYS: int := 86_400_000_000
  const CREDENTIAL_TTL: int := 90 * DAYS
  const MAX_LIFETIME: int := 366 * DAYS
  const KEY_SUNSET_GRACE: int := DAYS

  /** A signed delegation; rotation lets the granted terms be left out. */
  datatype Document = Document(id: string, parentId: string, fingerprint: string, capabilities: Option<seq<string>>,
                               limit: Option<int>, currency: Option<string>, issuedAt: int, expiresAt: int)

  /** What the endpoint finds out about a request besides its document: the parent is active, it signed. */
  datatype Request = Request(doc: Document, key: string, parentActive: bool, signed: bool, now: int, issuing: int)

  datatype Record = Record(id: string, fingerprint: string, capabilities: seq<string>, limit: int, currency: string, issuedAt: int, expiresAt: int)

  datatype Agent = Agent(parentId: string, delegationId: string, key: string, oldKey: Option<string>, keySunsetAt: Option<int>,
                         capabilities: seq<string>, limit: int, currency: string, active: bool, validUntil: int)

  datatype Credential = Credential(agent: nat, expiresAt: int, revoked: bool)

  datatype Registry = Registry(records: seq<Record>, agents: seq<Agent>, credentials: seq<Credential>)

  type Fingerprint = string -> string

  predicate Consumed(records: seq<Record>, id: string) {
    exists r :: r in records && r.id == id
  }

  predicate Complete(d: Document) {
    d.capabilities.Some? && d.limit.Some? && d.currency.Some?
  }

  /** Everything the registration endpoint checks of the delegation. */
  predicate MayRegister(fp: Fingerprint, reg: Registry, rq: Request) {
    var d := rq.doc;
    && Complete(d) && rq.parentActive && rq.signed
    && d.issuedAt <= rq.now + MINUTE && rq.now < d.expiresAt && d.expiresAt - d.issuedAt <= MAX_LIFETIME
    && d.fingerprint == fp(rq.key) && !Consumed(reg.records, d.id)
    && d.capabilities.value != [] && d.limit.value > 0
  }

  /** What the rotation endpoint checks of the agent it loaded. */
  predicate Eligible(fp: Fingerprint, was: Agent, rq: Request) {
    var d := rq.doc;
    && was.active && rq.parentActive && rq.signed
    && d.issuedAt <= rq.now + MINUTE && -300 <= rq.now / SECOND - d.issuedAt / SECOND <= 300
    && d.parentId == was.parentId && rq.now < d.expiresAt && d.fingerprint == fp(rq.key)
  }

  /** Everything the rotation endpoint checks. */
  predicate MayRotate(fp: Fingerprint, reg: Registry, k: nat, rq: Request) {
    k < |reg.agents| && Eligible(fp, reg.agents[k], rq) && !Consumed(reg.records, rq.doc.id)
  }

  function Else<T>(o: Option<T>, default: T): T {
    match o
    case None => default
    case Some(v) => v
  }

  function Expiry(rq: Request): int {
    if rq.issuing + CREDENTIAL_TTL < rq.doc.expiresAt then rq.issuing + CREDENTIAL_TTL else rq.doc.expiresAt
  }

  function RecordOf(d: Document, caps: seq<string>, limit: int, currency: string): Record {
    Record(d.id, d.fingerprint, Else(d.capabilities, caps), Else(d.limit, limit), Else(d.currency, currency), d.issuedAt, d.expiresAt)
  }

  function Registered(fp: Fingerprint, reg: Registry, rq: Request): Registry {
    if !MayRegister(fp, reg, rq) then reg
    else
      var r := RecordOf(rq.doc, [], 0, "");
      var a := Agent(rq.doc.parentId, r.id, rq.key, None, None, r.capabilities, r.limit, r.currency, true, r.expiresAt);
      Registry(reg.records + [r], reg.agents + [a], reg.credentials + [Credential(|reg.agents|, Expiry(rq), false)])
  }

  function RevokedFor(cs: seq<Credential>, owned: set<nat>): seq<Credential> {
    seq(|cs|, i requires 0 <= i < |cs| => if cs[i].agent in owned then cs[i].(revoked := true) else cs[i])
  }

  /** The agent with the document's key and terms, its own where the document leaves them out. */
  function Turned(was: Agent, rq: Request): Agent {
    var r := RecordOf(rq.doc, was.capabilities, was.limit, was.currency);
    was.(oldKey := Some(was.key), keySunsetAt := Some(rq.now + KEY_SUNSET_GRACE), key := rq.key, delegationId := r.id,
         capabilities := r.capabilities, limit := r.limit, currency := r.currency, validUntil := r.expiresAt)
  }

  function Rotated(fp: Fingerprint, reg: Registry, k: nat, rq: Request): Registry {
    if !MayRotate(fp, reg, k, rq) then reg
    else
      var was := reg.agents[k];
      Registry(reg.records + [RecordOf(rq.doc, was.capabilities, was.limit, was.currency)], reg.agents[k := Turned(was, rq)],
               RevokedFor(reg.credentials, {k}) + [Credential(k, Expiry(rq), false)])
  }

  function AgentRevoked(reg: Registry, k: nat): Registry {
    if k >= |reg.agents| then reg
    else Registry(reg.records, reg.agents[k := reg.agents[k].(active := false)], RevokedFor(reg.credentials, {k}))
  }

  function ChildrenOf(agents: seq<Agent>, parentId: string): set<nat> {
    set k: nat | k < |agents| && agents[k].parentId == parentId
  }

  function ParentRevoked(reg: Registry, parentId: string): Registry {
    reg.(credentials := RevokedFor(reg.credentials, ChildrenOf(reg.agents, parentId)))
  }

  // ------------------------------------------------------------------ the tables, updated in place

  class AgentRegistry {
    var records: seq<Record>
    var agents: seq<Agent>
    var credentials: seq<Credential>

    function View(): Registry
      reads this
    {
      Registry(records, agents, credentials)
    }

    constructor ()
      ensures View() == Registry([], [], [])
    {
      records, agents, credentials := [], [], [];
    }

    method RegisterAgent(fp: Fingerprint, rq: Request) returns (ok: bool)
      modifies this
      ensures View() == Registered(fp, old(View()), rq) && ok == MayRegister(fp, old(View()), rq)
      ensures !ok ==> View() == old(View())
    {
      var d := rq.doc;
      if !Complete(d) || !rq.parentActive || !rq.signed { return false; }
      if d.issuedAt > rq.now + MINUTE || d.expiresAt <= rq.now || d.expiresAt - d.issuedAt > MAX_LIFETIME { return false; }
      if d.fingerprint != fp(rq.key) { return false; }
      if Consumed(records, d.id) { return false; }
      if d.capabilities.value == [] || d.limit.value <= 0 { return false; }
      records := records + [Record(d.id, d.fingerprint, d.capabilities.value, d.limit.value, d.currency.value, d.issuedAt, d.expiresAt)];
      agents := agents + [Agent(d.parentId, d.id, rq.key, None, None, d.capabilities.value, d.limit.value, d.currency.value, true, d.expiresAt)];
      credentials := credentials + [Credential(|agents| - 1, Expiry(rq), false)];
      ok := true;
    }

    method RevokeCredentials(owned: set<nat>)
      modifies this`credentials
      ensures credentials == RevokedFor(old(credentials), owned)
    {
      ghost var before := credentials;
      for i := 0 to |credentials|
        invariant |credentials| == |before|
        invariant forall j | 0 <= j < |before| :: credentials[j] == if j < i then RevokedFor(before, owned)[j] else before[j]
      {
        if credentials[i].agent in owned && !credentials[i].revoked { credentials := credentials[i := credentials[i].(revoked := true)]; }
      }
    }

    method RotateAgentKey(fp: Fingerprint, k: nat, rq: Request) returns (ok: bool)
      modifies this
      ensures View() == Rotated(fp, old(View()), k, rq) && ok == MayRotate(fp, old(View()), k, rq)
      ensures !ok ==> View() == old(View())
    {
      var d := rq.doc;
      if k >= |agents| || !agents[k].active || !rq.parentActive || !rq.signed { return false; }
      if d.issuedAt > rq.now + MINUTE { return false; }
      var age := rq.now / SECOND - d.issuedAt / SECOND;
      if age > 300 || age < -300 { return false; }
      if d.parentId != agents[k].parentId || d.expiresAt <= rq.now { return false; }
      if d.fingerprint != fp(rq.key) || Consumed(records, d.id) { return false; }
      var was := agents[k];
      var caps, limit, currency := Else(d.capabilities, was.capabilities), Else(d.limit, was.limit), Else(d.currency, was.currency);
      records := records + [Record(d.id, d.fingerprint, caps, limit, currency, d.issuedAt, d.expiresAt)];
      agents := agents[k := was.(oldKey := Some(was.key), keySunsetAt := Some(rq.now + KEY_SUNSET_GRACE), key := rq.key, delegationId := d.id,
                                 capabilities := caps, limit := limit, currency := currency, validUntil := d.expiresAt)];
      RevokeCredentials({k});
      credentials := credentials + [Credential(k, Expiry(rq), false)];
      ok := true;
    }

    method RevokeAgent(k: nat)
      modifies this
      ensures View() == AgentRevoked(old(View()), k)
      ensures records == old(records) && |agents| == |old(agents)| && |credentials| == |old(credentials)|
      ensures forall j :: 0 <= j < |agents| ==> agents[j] == if j == k then old(agents[j]).(active := false) else old(agents[j])
      ensures k < |agents| ==> forall j :: 0 <= j < |credentials| ==>
        var c := old(credentials[j]); credentials[j] == if c.agent == k then c.(revoked := true) else c
    {
      if k >= |agents| { return; }
      agents := agents[k := agents[k].(active := false)];
      RevokeCredentials({k});
    }

    method RevokeParent(parentId: string)
      modifies this`credentials
      ensures View() == ParentRevoked(old(View()), parentId)
      ensures |credentials| == |old(credentials)| && forall j :: 0 <= j < |credentials| ==>
        var c := old(credentials[j]);
        var child := c.agent < |agents| && agents[c.agent].parentId == parentId;
        credentials[j] == if child then c.(revoked := true) else c
    {
      RevokeCredentials(ChildrenOf(agents, parentId));
    }
  }

  // ------------------------------------------------------------------ what the endpoints demand and grant

  /** The credential's end: ninety days after it is issued, or the delegation's end if that comes first. */
  predicate EndsWithDelegation(c: Credential, rq: Request) {
    c.expiresAt <= rq.issuing + 90 * 24 * 3600 * 1_000_000 && c.expiresAt <= rq.doc.expiresAt
    && (c.expiresAt == rq.issuing + 90 * 24 * 3600 * 1_000_000 || c.expiresAt == rq.doc.expiresAt)
  }

  /** Registration succeeds exactly on a complete delegation that an active parent signed, issued at most a minute ahead
      of the clock, not ended, at most 366 days long, bound to the very key, never used, and granting some capability
      and a positive limit; it adds the delegation's record, an active agent on the granted terms, and one credential. */
  lemma RegistrationIff(fp: Fingerprint, reg: Registry, rq: Request)
    ensures MayRegister(fp, reg, rq) <==>
      && rq.doc.capabilities.Some? && rq.doc.limit.Some? && rq.doc.currency.Some? && rq.parentActive && rq.signed
      && rq.doc.issuedAt - rq.now <= 60 * 1_000_000 && rq.now < rq.doc.expiresAt
      && rq.doc.expiresAt - rq.doc.issuedAt <= 366 * 24 * 3600 * 1_000_000
      && rq.doc.fingerprint == fp(rq.key) && (forall r :: r in reg.records ==> r.id != rq.doc.id)
      && |rq.doc.capabilities.value| > 0 && rq.doc.limit.value > 0
    ensures MayRegister(fp, reg, rq) ==>
      var after := Registered(fp, reg, rq);
      && |after.records| == |reg.records| + 1 && after.records[..|reg.records|] == reg.records && Grants(fp, rq, after.records[|reg.records|])
      && |after.agents| == |reg.agents| + 1 && after.agents[..|reg.agents|] == reg.agents
      && after.agents[|reg.agents|] == Agent(rq.doc.parentId, rq.doc.id, rq.key, None, None, rq.doc.capabilities.value,
                                             rq.doc.limit.value, rq.doc.currency.value, true, rq.doc.expiresAt)
      && |after.credentials| == |reg.credentials| + 1 && after.credentials[..|reg.credentials|] == reg.credentials
      && var c := after.credentials[|reg.credentials|]; c.agent == |reg.agents| && !c.revoked && EndsWithDelegation(c, rq)
  {
  }

  /** Rotation succeeds exactly for an active agent, on a delegation its own active parent signed within five minutes of
      the clock, not ended, bound to the new key and never used; the old key is kept for a day. */
  lemma RotationIff(fp: Fingerprint, reg: Registry, k: nat, rq: Request)
    ensures MayRotate(fp, reg, k, rq) <==>
      && k < |reg.agents| && reg.agents[k].active && rq.parentActive && rq.signed && rq.doc.parentId == reg.agents[k].parentId
      && rq.doc.issuedAt - rq.now <= 60 * 1_000_000
      && rq.now / 1_000_000 - 300 <= rq.doc.issuedAt / 1_000_000 <= rq.now / 1_000_000 + 300
      && rq.now < rq.doc.expiresAt && rq.doc.fingerprint == fp(rq.key) && (forall r :: r in reg.records ==> r.id != rq.doc.id)
    ensures MayRotate(fp, reg, k, rq) ==>
      var was := reg.agents[k];
      var now := Rotated(fp, reg, k, rq).agents[k];
      && Grants(fp, rq, Rotated(fp, reg, k, rq).records[|reg.records|])
      && now.key == rq.key && now.oldKey == Some(was.key) && now.keySunsetAt == Some(rq.now + 24 * 3600 * 1_000_000)
      && now.active && now.parentId == was.parentId && now.delegationId == rq.doc.id && now.validUntil == rq.doc.expiresAt
      && now.limit == (if rq.doc.limit.Some? then rq.doc.limit.value else was.limit)
      && now.currency == (if rq.doc.currency.Some? then rq.doc.currency.value else was.currency)
      && now.capabilities == (if rq.doc.capabilities.Some? then rq.doc.capabilities.value else was.capabilities)
  {
  }

  /** The record is what this request's document granted, for its key: signed, under an active parent, and not ended at
      the request's clock. */
  predicate Grants(fp: Fingerprint, rq: Request, r: Record) {
    && rq.signed && rq.parentActive && rq.now < rq.doc.expiresAt
    && r.id == rq.doc.id && r.fingerprint == rq.doc.fingerprint == fp(rq.key)
    && r.issuedAt == rq.doc.issuedAt && r.expiresAt == rq.doc.expiresAt
    && (rq.doc.capabilities.Some? ==> r.capabilities == rq.doc.capabilities.value)
    && (rq.doc.limit.Some? ==> r.limit == rq.doc.limit.value) && (rq.doc.currency.Some? ==> r.currency == rq.doc.currency.value)
  }

  // ------------------------------------------------------------------ what every run keeps

  /** The agent's terms are those of the record it names, and its key is the one bound there. */
  predicate Backed(fp: Fingerprint, a: Agent, r: Record) {
    && a.delegationId == r.id && fp(a.key) == r.fingerprint
    && a.capabilities == r.capabilities && a.limit == r.limit && a.currency == r.currency && a.validUntil == r.expiresAt
  }

  ghost predicate BackedBySome(fp: Fingerprint, a: Agent, records: seq<Record>) {
    exists r :: r in records && Backed(fp, a, r)
  }

  ghost predicate AllBacked(fp: Fingerprint, reg: Registry) {
    forall k :: 0 <= k < |reg.agents| ==> BackedBySome(fp, reg.agents[k], reg.records)
  }

  ghost predicate IdsUnique(records: seq<Record>) {
    forall i, j :: 0 <= i < j < |records| ==> records[i].id != records[j].id
  }

  ghost predicate DelegationsNotShared(agents: seq<Agent>) {
    forall i, j :: 0 <= i < j < |agents| ==> agents[i].delegationId != agents[j].delegationId
  }

  /** A credential still good belongs to an active agent, is its only one, and ends with its delegation. */
  ghost predicate CredentialsBounded(reg: Registry) {
    && (forall i :: 0 <= i < |reg.credentials| ==>
          reg.credentials[i].agent < |reg.agents|
          && (!reg.credentials[i].revoked ==> reg.agents[reg.credentials[i].agent].active
                                              && reg.credentials[i].expiresAt <= reg.agents[reg.credentials[i].agent].validUntil))
    && (forall i, j :: 0 <= i < j < |reg.credentials| && reg.credentials[i].agent == reg.credentials[j].agent ==>
          reg.credentials[i].revoked || reg.credentials[j].revoked)
  }

  ghost predicate Inv(fp: Fingerprint, reg: Registry) {
    AllBacked(fp, reg) && IdsUnique(reg.records) && DelegationsNotShared(reg.agents) && CredentialsBounded(reg)
  }

  datatype Step =
    | Register(rq: Request)
    | Rotate(k: nat, rq: Request)
    | RevokeOne(k: nat)
    | RevokeAll(parentId: string)

  function Apply(fp: Fingerprint, reg: Registry, st: Step): Registry {
    match st
    case Register(rq) => Registered(fp, reg, rq)
    case Rotate(k, rq) => Rotated(fp, reg, k, rq)
    case RevokeOne(k) => AgentRevoked(reg, k)
    case RevokeAll(parentId) => ParentRevoked(reg, parentId)
  }

  lemma RecordAdded(fp: Fingerprint, reg: Registry, agents: seq<Agent>, k: nat, r: Record)
    requires AllBacked(fp, reg) && IdsUnique(reg.records) && DelegationsNotShared(reg.agents) && !Consumed(reg.records, r.id)
    requires k < |agents| && (|agents| == |reg.agents| || (|agents| == |reg.agents| + 1 && k == |reg.agents|))
    requires Backed(fp, agents[k], r) && forall j :: 0 <= j < |reg.agents| && j != k ==> agents[j] == reg.agents[j]
    ensures IdsUnique(reg.records + [r]) && DelegationsNotShared(agents)
    ensures forall cs :: AllBacked(fp, Registry(reg.records + [r], agents, cs))
  {
    forall i | 0 <= i < |agents| ensures BackedBySome(fp, agents[i], reg.records + [r]) {
      if i == k {
        assert r in reg.records + [r];
      } else {
        assert BackedBySome(fp, reg.agents[i], reg.records);
        var x :| x in reg.records && Backed(fp, reg.agents[i], x);
        assert x in reg.records + [r];
      }
    }
    forall i | 0 <= i < |agents| && i != k ensures agents[i].delegationId != r.id {
      assert BackedBySome(fp, reg.agents[i], reg.records);
      var x :| x in reg.records && Backed(fp, reg.agents[i], x);
    }
  }

  lemma RevokingKeepsBounds(reg: Registry, agents: seq<Agent>, owned: set<nat>)
    requires CredentialsBounded(reg) && |agents| >= |reg.agents|
    requires forall k :: 0 <= k < |reg.agents| && k !in owned ==> agents[k] == reg.agents[k]
    ensures CredentialsBounded(Registry(reg.records, agents, RevokedFor(reg.credentials, owned)))
    ensures forall i :: 0 <= i < |reg.credentials| && reg.credentials[i].agent in owned ==> RevokedFor(reg.credentials, owned)[i].revoked
  {
  }

  lemma IssuingKeepsBounds(reg: Registry, records: seq<Record>, c: Credential)
    requires CredentialsBounded(reg) && !c.revoked && c.agent < |reg.agents|
    requires reg.agents[c.agent].active && c.expiresAt <= reg.agents[c.agent].validUntil
    requires forall i :: 0 <= i < |reg.credentials| && reg.credentials[i].agent == c.agent ==> reg.credentials[i].revoked
    ensures CredentialsBounded(Registry(records, reg.agents, reg.credentials + [c]))
  {
  }

  lemma RegisteredKeepsInv(fp: Fingerprint, reg: Registry, rq: Request)
    requires Inv(fp, reg) && MayRegister(fp, reg, rq)
    ensures Inv(fp, Registered(fp, reg, rq))
  {
    var after := Registered(fp, reg, rq);
    RecordAdded(fp, reg, after.agents, |reg.agents|, after.records[|reg.records|]);
    assert CredentialsBounded(reg.(agents := after.agents));
    IssuingKeepsBounds(reg.(agents := after.agents), after.records, Credential(|reg.agents|, Expiry(rq), false));
  }

  lemma RotatedKeepsInv(fp: Fingerprint, reg: Registry, k: nat, rq: Request)
    requires Inv(fp, reg) && MayRotate(fp, reg, k, rq)
    ensures Inv(fp, Rotated(fp, reg, k, rq))
  {
    var after := Rotated(fp, reg, k, rq);
    RecordAdded(fp, reg, after.agents, k, after.records[|reg.records|]);
    RevokingKeepsBounds(reg, after.agents, {k});
    IssuingKeepsBounds(Registry(reg.records, after.agents, RevokedFor(reg.credentials, {k})), after.records, Credential(k, Expiry(rq), false));
  }

  lemma StepKeepsInv(fp: Fingerprint, reg: Registry, st: Step)
    requires Inv(fp, reg)
    ensures Inv(fp, Apply(fp, reg, st))
  {
    match st {
      case Register(rq) => if MayRegister(fp, reg, rq) { RegisteredKeepsInv(fp, reg, rq); }
      case Rotate(k, rq) => if MayRotate(fp, reg, k, rq) { RotatedKeepsInv(fp, reg, k, rq); }
      case RevokeOne(k) =>
        if k < |reg.agents| {
          RevokingKeepsBounds(reg, AgentRevoked(reg, k).agents, {k});
          assert BackedBySome(fp, reg.agents[k], reg.records);
        }
      case RevokeAll(parentId) => RevokingKeepsBounds(reg, reg.agents, ChildrenOf(reg.agents, parentId));
    }
  }

  ghost function Stepper(fp: Fingerprint): (Registry, Step) -> Option<Registry> {
    (reg: Registry, st: Step) => Some(Apply(fp, reg, st))
  }

  /** How many steps of a run consume a delegation id. */
  ghost function TimesConsumed(fp: Fingerprint, reg: Registry, steps: seq<Step>, id: string): nat
    decreases |steps|
  {
    if steps == [] then 0 else
      var next := Apply(fp, reg, steps[0]);
      (if |next.records| > |reg.records| && next.records[|reg.records|].id == id then 1 else 0) + TimesConsumed(fp, next, steps[1..], id)
  }

  lemma StepAddsAtMostOne(fp: Fingerprint, reg: Registry, st: Step, id: string)
    ensures var next := Apply(fp, reg, st);
            (next.records == reg.records) || (|next.records| == |reg.records| + 1 && next.records[..|reg.records|] == reg.records
                                              && !Consumed(reg.records, next.records[|reg.records|].id))
    ensures var next := Apply(fp, reg, st);
            Consumed(next.records, id) <==> Consumed(reg.records, id) || (|next.records| > |reg.records| && next.records[|reg.records|].id == id)
  {
    var next := Apply(fp, reg, st);
    if |next.records| > |reg.records| {
      assert next.records == reg.records + [next.records[|reg.records|]];
      assert next.records[|reg.records|] in next.records;
      assert forall r :: r in reg.records ==> r in next.records;
    }
  }

  lemma {:induction false} ConsumedAtMostOnce(fp: Fingerprint, reg: Registry, steps: seq<Step>, id: string)
    ensures TimesConsumed(fp, reg, steps, id) + (if Consumed(reg.records, id) then 1 else 0) <= 1
    decreases |steps|
  {
    if steps != [] {
      StepAddsAtMostOne(fp, reg, steps[0], id);
      ConsumedAtMostOnce(fp, Apply(fp, reg, steps[0]), steps[1..], id);
    }
  }

  lemma {:induction false} RunKeepsInv(fp: Fingerprint, reg: Registry, steps: seq<Step>)
    requires Inv(fp, reg)
    ensures Play(Stepper(fp), reg, steps).Some? && Inv(fp, Play(Stepper(fp), reg, steps).value)
    decreases |steps|
  {
    if steps != [] {
      StepKeepsInv(fp, reg, steps[0]);
      RunKeepsInv(fp, Apply(fp, reg, steps[0]), steps[1..]);
    }
  }

  /** Over every run of registrations, rotations and revocations, each delegation id is consumed at most once, by a
      registration or a rotation; every agent's capabilities, limit, currency, key and end of validity are those
      of the record it names, which no other agent names; and it has at most one unrevoked credential, which
      does not outlive the delegation and is gone once the agent is revoked. */
  lemma DelegationsBackAgents(fp: Fingerprint, steps: seq<Step>, id: string)
    ensures TimesConsumed(fp, Registry([], [], []), steps, id) <= 1
    ensures Play(Stepper(fp), Registry([], [], []), steps).Some? && Inv(fp, Play(Stepper(fp), Registry([], [], []), steps).value)
  {
    ConsumedAtMostOnce(fp, Registry([], [], []), steps, id);
    RunKeepsInv(fp, Registry([], [], []), steps);
  }
}

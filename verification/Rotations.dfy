/** Rotations and revocations that overlap (app/routers/v1.py, app/routers/agents.py, app/routers/parents.py). A
    handler loads the agent, lists the credentials it will revoke, and writes both at its commit; nothing is locked
    and nothing is read again. Only the delegation id is unique in its table. */
module Rotations {
  import opened Text
  import opened Runs
  import opened Locks
  import opened Flushing
  import opened Delegation

  /** A handler under way: the agent it loaded, and how many credentials existed when it listed them. */
  datatype Session =
    | Rotating(k: nat, rq: Request, loaded: Agent, listed: Option<nat>)
    | Revoking(k: nat, seen: nat)
    | RevokingParent(parentId: string, seen: nat)

  datatype Office = Office(reg: Registry, open: map<Pid, Session>)

  datatype OfficeStep =
    | Enroll(rq: Request)
    | LoadAgent(pid: Pid, k: nat, rq: Request)
    | ListCredentials(pid: Pid)
    | LoadRevocation(pid: Pid, k: nat)
    | LoadParent(pid: Pid, parentId: string)
    | Land(pid: Pid)

  // ------------------------------------------------------------------ what a landing writes

  /** The listed credentials of these agents, revoked. */
  function RevokedBelow(cs: seq<Credential>, owned: set<nat>, listed: nat): seq<Credential> {
    seq(|cs|, i requires 0 <= i < |cs| => if i < listed && cs[i].agent in owned then cs[i].(revoked := true) else cs[i])
  }

  function FlushedAgent(now: Agent, loaded: Agent, result: Agent): Agent {
    Agent(Column(now.parentId, loaded.parentId, result.parentId),
          Column(now.delegationId, loaded.delegationId, result.delegationId),
          Column(now.key, loaded.key, result.key),
          Column(now.oldKey, loaded.oldKey, result.oldKey),
          Column(now.keySunsetAt, loaded.keySunsetAt, result.keySunsetAt),
          Column(now.capabilities, loaded.capabilities, result.capabilities),
          Column(now.limit, loaded.limit, result.limit),
          Column(now.currency, loaded.currency, result.currency),
          Column(now.active, loaded.active, result.active),
          Column(now.validUntil, loaded.validUntil, result.validUntil))
  }

  /** A delegation id that is in the table by now makes the insert fail, and nothing is written. */
  function RotationLanded(reg: Registry, k: nat, loaded: Agent, rq: Request, listed: nat): Registry
    requires k < |reg.agents|
  {
    if Consumed(reg.records, rq.doc.id) then reg
    else Registry(reg.records + [RecordOf(rq.doc, loaded.capabilities, loaded.limit, loaded.currency)],
                  reg.agents[k := FlushedAgent(reg.agents[k], loaded, Turned(loaded, rq))],
                  RevokedBelow(reg.credentials, {k}, listed) + [Credential(k, Expiry(rq), false)])
  }

  function RevocationLanded(reg: Registry, k: nat, seen: nat): Registry
    requires k < |reg.agents|
  {
    Registry(reg.records, reg.agents[k := reg.agents[k].(active := false)], RevokedBelow(reg.credentials, {k}, seen))
  }

  function ParentLanded(reg: Registry, parentId: string, seen: nat): Registry {
    reg.(credentials := RevokedBelow(reg.credentials, ChildrenOf(reg.agents, parentId), seen))
  }

  predicate CanLand(reg: Registry, s: Session) {
    match s
    case Rotating(k, _, _, listed) => k < |reg.agents| && listed.Some?
    case Revoking(k, _) => k < |reg.agents|
    case RevokingParent(_, _) => true
  }

  function Landed(reg: Registry, s: Session): Registry
    requires CanLand(reg, s)
  {
    match s
    case Rotating(k, rq, loaded, listed) => RotationLanded(reg, k, loaded, rq, listed.value)
    case Revoking(k, seen) => RevocationLanded(reg, k, seen)
    case RevokingParent(parentId, seen) => ParentLanded(reg, parentId, seen)
  }

  function Next(fp: Fingerprint, o: Office, st: OfficeStep): Option<Office> {
    match st
    case Enroll(rq) => Some(o.(reg := Registered(fp, o.reg, rq)))
    case LoadAgent(pid, k, rq) =>
      if pid !in o.open && k < |o.reg.agents| && Eligible(fp, o.reg.agents[k], rq)
      then Some(o.(open := o.open[pid := Rotating(k, rq, o.reg.agents[k], None)])) else None
    case ListCredentials(pid) =>
      if pid in o.open && o.open[pid].Rotating? && o.open[pid].listed.None?
      then Some(o.(open := o.open[pid := o.open[pid].(listed := Some(|o.reg.credentials|))])) else None
    case LoadRevocation(pid, k) =>
      if pid !in o.open && k < |o.reg.agents| then Some(o.(open := o.open[pid := Revoking(k, |o.reg.credentials|)])) else None
    case LoadParent(pid, parentId) =>
      if pid !in o.open then Some(o.(open := o.open[pid := RevokingParent(parentId, |o.reg.credentials|)])) else None
    case Land(pid) =>
      if pid in o.open && CanLand(o.reg, o.open[pid]) then Some(Office(Landed(o.reg, o.open[pid]), o.open - {pid})) else None
  }

  ghost function OfficeStepper(fp: Fingerprint): (Office, OfficeStep) -> Option<Office> {
    (o: Office, st: OfficeStep) => Next(fp, o, st)
  }

  function Opening(): Office {
    Office(Registry([], [], []), map[])
  }

  // ------------------------------------------------------------------ when a landing does no harm

  /** Whatever the rotation leaves as it loaded it is still so. */
  predicate TermsKept(fp: Fingerprint, now: Agent, loaded: Agent, rq: Request) {
    && (Else(rq.doc.capabilities, loaded.capabilities) == loaded.capabilities ==> now.capabilities == loaded.capabilities)
    && (Else(rq.doc.limit, loaded.limit) == loaded.limit ==> now.limit == loaded.limit)
    && (Else(rq.doc.currency, loaded.currency) == loaded.currency ==> now.currency == loaded.currency)
    && (rq.doc.expiresAt == loaded.validUntil ==> now.validUntil == loaded.validUntil)
    && (rq.key == loaded.key ==> fp(now.key) == fp(loaded.key))
  }

  /** No credential of the agent issued since the listing is still good. */
  predicate NoneSince(cs: seq<Credential>, k: nat, listed: nat) {
    forall i | listed <= i < |cs| && cs[i].agent == k :: cs[i].revoked
  }

  predicate LandsSafely(fp: Fingerprint, reg: Registry, s: Session)
    requires CanLand(reg, s)
  {
    match s
    case Rotating(k, rq, loaded, listed) =>
      Consumed(reg.records, rq.doc.id)
      || (reg.agents[k].active && TermsKept(fp, reg.agents[k], loaded, rq) && NoneSince(reg.credentials, k, listed.value))
    case Revoking(k, seen) => NoneSince(reg.credentials, k, seen)
    case RevokingParent(_, _) => true
  }

  /** What is true of a session from its load to its landing, whatever lands in between. */
  predicate Informed(fp: Fingerprint, reg: Registry, s: Session) {
    match s
    case Rotating(k, rq, loaded, listed) =>
      && k < |reg.agents| && Eligible(fp, loaded, rq) && Consumed(reg.records, loaded.delegationId)
      && loaded.parentId == reg.agents[k].parentId && (listed.Some? ==> listed.value <= |reg.credentials|)
    case Revoking(k, seen) => k < |reg.agents| && seen <= |reg.credentials|
    case RevokingParent(_, seen) => seen <= |reg.credentials|
  }

  lemma RevokedBelowAll(cs: seq<Credential>, owned: set<nat>, listed: nat)
    requires forall k | k in owned :: NoneSince(cs, k, listed)
    ensures RevokedBelow(cs, owned, listed) == RevokedFor(cs, owned)
  {
  }

  /** Revoking some of a good table's credentials, under agents no worse, leaves it good. */
  lemma RevokingSomeKeepsBounds(reg: Registry, agents: seq<Agent>, owned: set<nat>, listed: nat)
    requires CredentialsBounded(reg) && |agents| == |reg.agents|
    requires forall k :: 0 <= k < |agents| && k !in owned ==> agents[k] == reg.agents[k]
    requires agents == reg.agents || forall k | k in owned :: NoneSince(reg.credentials, k, listed)
    ensures CredentialsBounded(Registry(reg.records, agents, RevokedBelow(reg.credentials, owned, listed)))
  {
  }

  lemma RevocationLandsIff(fp: Fingerprint, reg: Registry, k: nat, seen: nat)
    requires Inv(fp, reg) && k < |reg.agents|
    ensures Inv(fp, RevocationLanded(reg, k, seen)) <==> NoneSince(reg.credentials, k, seen)
  {
    var after := RevocationLanded(reg, k, seen);
    assert BackedBySome(fp, reg.agents[k], reg.records);
    if NoneSince(reg.credentials, k, seen) {
      RevokingSomeKeepsBounds(reg, after.agents, {k}, seen);
    } else {
      var i :| seen <= i < |reg.credentials| && reg.credentials[i].agent == k && !reg.credentials[i].revoked;
      assert !after.credentials[i].revoked;
    }
  }

  /** The record a landing rotation adds backs the agent exactly when the terms it left alone were kept. */
  lemma LandedBackedIff(fp: Fingerprint, reg: Registry, k: nat, loaded: Agent, rq: Request)
    requires k < |reg.agents| && Eligible(fp, loaded, rq) && Consumed(reg.records, loaded.delegationId) && !Consumed(reg.records, rq.doc.id)
    ensures var r := RecordOf(rq.doc, loaded.capabilities, loaded.limit, loaded.currency);
            var a := FlushedAgent(reg.agents[k], loaded, Turned(loaded, rq));
            && a.delegationId == r.id == rq.doc.id
            && (Backed(fp, a, r) <==> TermsKept(fp, reg.agents[k], loaded, rq))
            && (BackedBySome(fp, a, reg.records + [r]) ==> Backed(fp, a, r))
  {
    var r := RecordOf(rq.doc, loaded.capabilities, loaded.limit, loaded.currency);
    var a := FlushedAgent(reg.agents[k], loaded, Turned(loaded, rq));
    assert loaded.delegationId != rq.doc.id;
    if BackedBySome(fp, a, reg.records + [r]) {
      var x :| x in reg.records + [r] && Backed(fp, a, x);
      assert x.id == rq.doc.id;
    }
  }

  lemma SafeRotationKeepsInv(fp: Fingerprint, reg: Registry, k: nat, loaded: Agent, rq: Request, listed: nat)
    requires Inv(fp, reg) && k < |reg.agents| && Eligible(fp, loaded, rq) && Consumed(reg.records, loaded.delegationId)
    requires !Consumed(reg.records, rq.doc.id) && reg.agents[k].active
    requires TermsKept(fp, reg.agents[k], loaded, rq) && NoneSince(reg.credentials, k, listed)
    ensures Inv(fp, RotationLanded(reg, k, loaded, rq, listed))
  {
    var after := RotationLanded(reg, k, loaded, rq, listed);
    var r := RecordOf(rq.doc, loaded.capabilities, loaded.limit, loaded.currency);
    LandedBackedIff(fp, reg, k, loaded, rq);
    RecordAdded(fp, reg, after.agents, k, r);
    RevokingSomeKeepsBounds(reg, after.agents, {k}, listed);
    RevokedBelowAll(reg.credentials, {k}, listed);
    IssuingKeepsBounds(Registry(reg.records, after.agents, RevokedBelow(reg.credentials, {k}, listed)), after.records, Credential(k, Expiry(rq), false));
  }

  lemma HarmfulRotationBreaksInv(fp: Fingerprint, reg: Registry, k: nat, loaded: Agent, rq: Request, listed: nat)
    requires Inv(fp, reg) && k < |reg.agents| && Eligible(fp, loaded, rq) && Consumed(reg.records, loaded.delegationId)
    requires !Consumed(reg.records, rq.doc.id) && Inv(fp, RotationLanded(reg, k, loaded, rq, listed))
    ensures reg.agents[k].active && TermsKept(fp, reg.agents[k], loaded, rq) && NoneSince(reg.credentials, k, listed)
  {
    var after := RotationLanded(reg, k, loaded, rq, listed);
    LandedBackedIff(fp, reg, k, loaded, rq);
    assert BackedBySome(fp, after.agents[k], after.records);
    var last := |reg.credentials|;
    assert after.credentials[last] == Credential(k, Expiry(rq), false);
    forall i | listed <= i < |reg.credentials| && reg.credentials[i].agent == k ensures reg.credentials[i].revoked {
      assert after.credentials[i] == reg.credentials[i];
    }
  }

  lemma LandingKeepsInvIff(fp: Fingerprint, reg: Registry, s: Session)
    requires Inv(fp, reg) && Informed(fp, reg, s) && CanLand(reg, s)
    ensures Inv(fp, Landed(reg, s)) <==> LandsSafely(fp, reg, s)
  {
    match s {
      case Rotating(k, rq, loaded, listed) =>
        if !Consumed(reg.records, rq.doc.id) {
          if LandsSafely(fp, reg, s) {
            SafeRotationKeepsInv(fp, reg, k, loaded, rq, listed.value);
          } else if Inv(fp, Landed(reg, s)) {
            HarmfulRotationBreaksInv(fp, reg, k, loaded, rq, listed.value);
          }
        }
      case Revoking(k, seen) => RevocationLandsIff(fp, reg, k, seen);
      case RevokingParent(parentId, seen) => RevokingSomeKeepsBounds(reg, reg.agents, ChildrenOf(reg.agents, parentId), seen);
    }
  }

  // ------------------------------------------------------------------ over whole runs

  ghost predicate AllInformed(fp: Fingerprint, o: Office) {
    forall pid | pid in o.open :: Informed(fp, o.reg, o.open[pid])
  }

  /** Records and credentials are only added, and an agent's parent stays. */
  predicate Grown(a: Registry, b: Registry) {
    && a.records <= b.records && |a.credentials| <= |b.credentials| && |a.agents| <= |b.agents|
    && forall k | 0 <= k < |a.agents| :: b.agents[k].parentId == a.agents[k].parentId
  }

  lemma GrownKeepsInformed(fp: Fingerprint, a: Registry, b: Registry, s: Session)
    requires Informed(fp, a, s) && Grown(a, b)
    ensures Informed(fp, b, s)
  {
    if s.Rotating? {
      var r :| r in a.records && r.id == s.loaded.delegationId;
      assert r in b.records;
    }
  }

  lemma LandingGrows(fp: Fingerprint, reg: Registry, s: Session)
    requires Informed(fp, reg, s) && CanLand(reg, s)
    ensures Grown(reg, Landed(reg, s))
  {
  }

  lemma StepKeepsInformed(fp: Fingerprint, o: Office, st: OfficeStep)
    requires AllInformed(fp, o) && AllBacked(fp, o.reg) && Next(fp, o, st).Some?
    ensures AllInformed(fp, Next(fp, o, st).value)
  {
    var after := Next(fp, o, st).value;
    if st.LoadAgent? { assert BackedBySome(fp, o.reg.agents[st.k], o.reg.records); }
    if st.Land? { LandingGrows(fp, o.reg, o.open[st.pid]); }
    forall pid | pid in after.open && pid in o.open ensures Informed(fp, after.reg, after.open[pid]) {
      GrownKeepsInformed(fp, o.reg, after.reg, o.open[pid]);
    }
  }

  ghost predicate KeepsInv(fp: Fingerprint, o: Office, st: OfficeStep) {
    Next(fp, o, st).Some? ==> Inv(fp, Next(fp, o, st).value.reg)
  }

  predicate Harmless(fp: Fingerprint, o: Office, st: OfficeStep) {
    st.Land? && st.pid in o.open && CanLand(o.reg, o.open[st.pid]) ==> LandsSafely(fp, o.reg, o.open[st.pid])
  }

  lemma KeepsIffHarmless(fp: Fingerprint, o: Office, st: OfficeStep)
    requires Inv(fp, o.reg) && AllInformed(fp, o)
    ensures KeepsInv(fp, o, st) <==> Harmless(fp, o, st)
  {
    match st {
      case Enroll(rq) => if MayRegister(fp, o.reg, rq) { RegisteredKeepsInv(fp, o.reg, rq); }
      case Land(pid) => if pid in o.open && CanLand(o.reg, o.open[pid]) { LandingKeepsInvIff(fp, o.reg, o.open[pid]); }
      case _ =>
    }
  }

  lemma {:induction false} KeptIffHarmlessFrom(fp: Fingerprint, o: Office, steps: seq<OfficeStep>)
    requires Inv(fp, o.reg) && AllInformed(fp, o)
    ensures Along(OfficeStepper(fp), (x: Office, st: OfficeStep) => KeepsInv(fp, x, st), o, steps)
            <==> Along(OfficeStepper(fp), (x: Office, st: OfficeStep) => Harmless(fp, x, st), o, steps)
    decreases |steps|
  {
    if steps != [] {
      KeepsIffHarmless(fp, o, steps[0]);
      if Next(fp, o, steps[0]).Some? && KeepsInv(fp, o, steps[0]) {
        StepKeepsInformed(fp, o, steps[0]);
        KeptIffHarmlessFrom(fp, Next(fp, o, steps[0]).value, steps[1..]);
      }
    }
  }

  /** In every run of overlapping registrations, rotations and revocations, agents stay backed by the records they name
      and credentials stay bounded at every step if and only if every landing is safe: a rotation finds its agent
      active, whatever its document leaves out or repeats unchanged since the agent was loaded, and, like a
      revocation, no good credential issued since it listed them. */
  lemma RunsStayBackedIff(fp: Fingerprint, steps: seq<OfficeStep>)
    ensures Along(OfficeStepper(fp), (x: Office, st: OfficeStep) => KeepsInv(fp, x, st), Opening(), steps)
            <==> Along(OfficeStepper(fp), (x: Office, st: OfficeStep) => Harmless(fp, x, st), Opening(), steps)
  {
    KeptIffHarmlessFrom(fp, Opening(), steps);
  }

  // ------------------------------------------------------------------ whatever the document says

  predicate SameTerms(fp: Fingerprint, a: Agent, b: Agent) {
    a.capabilities == b.capabilities && a.limit == b.limit && a.currency == b.currency && a.validUntil == b.validUntil && fp(a.key) == fp(b.key)
  }

  lemma {:induction false} LongerThanAll(records: seq<Record>) returns (id: string)
    ensures forall r :: r in records ==> |r.id| < |id|
  {
    if records == [] {
      id := "";
    } else {
      var rest := LongerThanAll(records[1..]);
      id := rest + records[0].id + "x";
      assert records == [records[0]] + records[1..];
    }
  }

  /** A document that grants the key, the expiry and, by saying nothing, the terms that were loaded. */
  function Repeating(fp: Fingerprint, loaded: Agent, id: string): Request {
    Request(Document(id, loaded.parentId, fp(loaded.key), None, None, None, loaded.validUntil - 1, loaded.validUntil),
            loaded.key, true, true, loaded.validUntil - 1, loaded.validUntil - 1)
  }

  /** Every document a session may bring lands safely if and only if no other rotation or revocation has changed the
      agent's terms or its activity since it was loaded, nor left a good credential since they were listed. */
  lemma AnyDocumentLandsIff(fp: Fingerprint, reg: Registry, k: nat, loaded: Agent, listed: nat)
    requires Inv(fp, reg) && k < |reg.agents| && loaded.active && Consumed(reg.records, loaded.delegationId)
    ensures (forall rq :: Eligible(fp, loaded, rq) ==> Inv(fp, RotationLanded(reg, k, loaded, rq, listed)))
            <==> reg.agents[k].active && SameTerms(fp, reg.agents[k], loaded) && NoneSince(reg.credentials, k, listed)
  {
    if reg.agents[k].active && SameTerms(fp, reg.agents[k], loaded) && NoneSince(reg.credentials, k, listed) {
      forall rq | Eligible(fp, loaded, rq) ensures Inv(fp, RotationLanded(reg, k, loaded, rq, listed)) {
        if !Consumed(reg.records, rq.doc.id) { SafeRotationKeepsInv(fp, reg, k, loaded, rq, listed); }
      }
    } else {
      var id := LongerThanAll(reg.records);
      var rq := Repeating(fp, loaded, id);
      assert Eligible(fp, loaded, rq) && !Consumed(reg.records, id);
      if Inv(fp, RotationLanded(reg, k, loaded, rq, listed)) { HarmfulRotationBreaksInv(fp, reg, k, loaded, rq, listed); }
    }
  }

  // ------------------------------------------------------------------ handlers nobody overlaps

  /** Nothing the session loaded or listed has changed. */
  predicate Undisturbed(o: Office, st: OfficeStep) {
    st.Land? && st.pid in o.open && CanLand(o.reg, o.open[st.pid]) ==>
      match o.open[st.pid]
      case Rotating(k, _, loaded, listed) => o.reg.agents[k] == loaded && NoneSince(o.reg.credentials, k, listed.value)
      case Revoking(k, seen) => NoneSince(o.reg.credentials, k, seen)
      case RevokingParent(parentId, seen) => forall k | k in ChildrenOf(o.reg.agents, parentId) :: NoneSince(o.reg.credentials, k, seen)
  }

  /** The whole handler that such a session amounts to. */
  function AsStep(s: Session): Step {
    match s
    case Rotating(k, rq, _, _) => Step.Rotate(k, rq)
    case Revoking(k, _) => RevokeOne(k)
    case RevokingParent(parentId, _) => RevokeAll(parentId)
  }

  lemma FlushOverItself(a: Agent, result: Agent)
    ensures FlushedAgent(a, a, result) == result
  {
  }

  lemma LandingIsAStep(fp: Fingerprint, o: Office, pid: Pid)
    requires pid in o.open && Informed(fp, o.reg, o.open[pid]) && CanLand(o.reg, o.open[pid]) && Undisturbed(o, Land(pid))
    ensures Apply(fp, o.reg, AsStep(o.open[pid])) == Landed(o.reg, o.open[pid])
  {
    match o.open[pid] {
      case Rotating(k, rq, loaded, listed) =>
        RevokedBelowAll(o.reg.credentials, {k}, listed.value);
        FlushOverItself(loaded, Turned(loaded, rq));
      case Revoking(k, seen) => RevokedBelowAll(o.reg.credentials, {k}, seen);
      case RevokingParent(parentId, seen) => RevokedBelowAll(o.reg.credentials, ChildrenOf(o.reg.agents, parentId), seen);
    }
  }

  lemma UndisturbedIsHarmless(fp: Fingerprint, o: Office, st: OfficeStep)
    requires Undisturbed(o, st) && AllInformed(fp, o)
    ensures Harmless(fp, o, st)
  {
  }

  /** A run in which every session lands on what it loaded leaves the tables where some run of whole handlers does. */
  lemma {:induction false} UndisturbedRunsAreAtomic(fp: Fingerprint, o: Office, steps: seq<OfficeStep>)
    requires Inv(fp, o.reg) && AllInformed(fp, o)
    requires Play(OfficeStepper(fp), o, steps).Some? && Along(OfficeStepper(fp), Undisturbed, o, steps)
    ensures exists whole :: Play(Stepper(fp), o.reg, whole) == Some(Play(OfficeStepper(fp), o, steps).value.reg)
    decreases |steps|
  {
    if steps == [] {
      assert Play(Stepper(fp), o.reg, []) == Some(o.reg);
    } else {
      var st, next := steps[0], Next(fp, o, steps[0]).value;
      UndisturbedIsHarmless(fp, o, st);
      KeepsIffHarmless(fp, o, st);
      StepKeepsInformed(fp, o, st);
      UndisturbedRunsAreAtomic(fp, next, steps[1..]);
      var rest :| Play(Stepper(fp), next.reg, rest) == Some(Play(OfficeStepper(fp), o, steps).value.reg);
      if st.Enroll? || st.Land? {
        var first := if st.Enroll? then Register(st.rq) else AsStep(o.open[st.pid]);
        if st.Land? { LandingIsAStep(fp, o, st.pid); }
        PlayFirst(Stepper(fp), o.reg, first, rest);
        assert Play(Stepper(fp), o.reg, [first] + rest) == Play(Stepper(fp), next.reg, rest);
      }
    }
  }

  // ------------------------------------------------------------------ each id once, however handlers overlap

  /** How many steps of a run consume a delegation id. */
  ghost function TimesTaken(fp: Fingerprint, o: Office, steps: seq<OfficeStep>, id: string): nat
    requires Play(OfficeStepper(fp), o, steps).Some?
    decreases |steps|
  {
    if steps == [] then 0 else
      var next := Next(fp, o, steps[0]).value;
      (if |next.reg.records| > |o.reg.records| && next.reg.records[|o.reg.records|].id == id then 1 else 0) + TimesTaken(fp, next, steps[1..], id)
  }

  lemma StepTakesAtMostOne(fp: Fingerprint, o: Office, st: OfficeStep, id: string)
    requires Next(fp, o, st).Some?
    ensures var was := o.reg.records;
            var now := Next(fp, o, st).value.reg.records;
            && (now == was || (|now| == |was| + 1 && now[..|was|] == was && !Consumed(was, now[|was|].id)))
            && (Consumed(now, id) <==> Consumed(was, id) || (|now| > |was| && now[|was|].id == id))
  {
    var was, now := o.reg.records, Next(fp, o, st).value.reg.records;
    if now != was {
      assert now == was + [now[|was|]];
      assert now[|was|] in now && forall r :: r in was ==> r in now;
    }
  }

  /** The unique index does what the handlers' own check cannot: a delegation id is consumed at most once over every run
      of overlapping handlers. */
  lemma {:induction false} TakenAtMostOnce(fp: Fingerprint, o: Office, steps: seq<OfficeStep>, id: string)
    requires Play(OfficeStepper(fp), o, steps).Some?
    ensures TimesTaken(fp, o, steps, id) + (if Consumed(o.reg.records, id) then 1 else 0) <= 1
    decreases |steps|
  {
    if steps != [] {
      StepTakesAtMostOne(fp, o, steps[0], id);
      TakenAtMostOnce(fp, Next(fp, o, steps[0]).value, steps[1..], id);
    }
  }

  // ------------------------------------------------------------------ who granted what

  /** The request a step carries. */
  predicate Carries(st: OfficeStep, rq: Request) {
    (st.Enroll? && st.rq == rq) || (st.LoadAgent? && st.rq == rq)
  }

  ghost predicate GrantedAmong(fp: Fingerprint, steps: seq<OfficeStep>, r: Record) {
    exists rq :: GrantedBy(fp, steps, rq, r)
  }

  ghost predicate GrantedBy(fp: Fingerprint, steps: seq<OfficeStep>, rq: Request, r: Record) {
    Grants(fp, rq, r) && exists st :: st in steps && Carries(st, rq)
  }

  /** Every record was granted by one of these steps, and so will be the record of every rotation under way. */
  ghost predicate AllGranted(fp: Fingerprint, o: Office, steps: seq<OfficeStep>) {
    && (forall r :: r in o.reg.records ==> GrantedAmong(fp, steps, r))
    && (forall pid | pid in o.open && o.open[pid].Rotating? :: LoadedAmong(fp, steps, o.open[pid]))
  }

  ghost predicate LoadedAmong(fp: Fingerprint, steps: seq<OfficeStep>, s: Session)
    requires s.Rotating?
  {
    Eligible(fp, s.loaded, s.rq) && exists st :: st in steps && Carries(st, s.rq)
  }

  lemma GrantedOn(fp: Fingerprint, steps: seq<OfficeStep>, st: OfficeStep, r: Record)
    requires GrantedAmong(fp, steps, r)
    ensures GrantedAmong(fp, steps + [st], r)
  {
    var rq :| GrantedBy(fp, steps, rq, r);
    var first :| first in steps && Carries(first, rq);
    assert first in steps + [st];
    assert GrantedBy(fp, steps + [st], rq, r);
  }

  lemma LoadedOn(fp: Fingerprint, steps: seq<OfficeStep>, st: OfficeStep, s: Session)
    requires s.Rotating? && LoadedAmong(fp, steps, s)
    ensures LoadedAmong(fp, steps + [st], s)
  {
    var first :| first in steps && Carries(first, s.rq);
    assert first in steps + [st];
  }

  /** The one record a step may add. */
  lemma AddedIsGranted(fp: Fingerprint, o: Office, st: OfficeStep, done: seq<OfficeStep>, r: Record)
    requires AllGranted(fp, o, done) && Next(fp, o, st).Some? && r in Next(fp, o, st).value.reg.records && r !in o.reg.records
    ensures GrantedAmong(fp, done + [st], r)
  {
    var all := done + [st];
    if st.Enroll? {
      RegistrationIff(fp, o.reg, st.rq);
      assert st in all && Carries(st, st.rq);
      assert GrantedBy(fp, all, st.rq, r);
    } else {
      var s := o.open[st.pid];
      LoadedOn(fp, done, st, s);
      assert GrantedBy(fp, all, s.rq, r);
    }
  }

  lemma OpenIsLoaded(fp: Fingerprint, o: Office, st: OfficeStep, done: seq<OfficeStep>, pid: Pid)
    requires AllGranted(fp, o, done) && Next(fp, o, st).Some?
    requires pid in Next(fp, o, st).value.open && Next(fp, o, st).value.open[pid].Rotating?
    ensures LoadedAmong(fp, done + [st], Next(fp, o, st).value.open[pid])
  {
    if st.LoadAgent? && st.pid == pid {
      assert st in done + [st] && Carries(st, st.rq);
    } else {
      LoadedOn(fp, done, st, o.open[pid]);
    }
  }

  lemma StepGranted(fp: Fingerprint, o: Office, st: OfficeStep, done: seq<OfficeStep>)
    requires AllGranted(fp, o, done) && Next(fp, o, st).Some?
    ensures AllGranted(fp, Next(fp, o, st).value, done + [st])
  {
    var after := Next(fp, o, st).value;
    forall r | r in after.reg.records ensures GrantedAmong(fp, done + [st], r) {
      if r in o.reg.records { GrantedOn(fp, done, st, r); } else { AddedIsGranted(fp, o, st, done, r); }
    }
    forall pid | pid in after.open && after.open[pid].Rotating? ensures LoadedAmong(fp, done + [st], after.open[pid]) {
      OpenIsLoaded(fp, o, st, done, pid);
    }
  }

  lemma {:induction false} RunGranted(fp: Fingerprint, o: Office, done: seq<OfficeStep>, steps: seq<OfficeStep>)
    requires AllGranted(fp, o, done) && Play(OfficeStepper(fp), o, steps).Some?
    ensures AllGranted(fp, Play(OfficeStepper(fp), o, steps).value, done + steps)
    decreases |steps|
  {
    if steps == [] {
      assert done + steps == done;
    } else {
      StepGranted(fp, o, steps[0], done);
      RunGranted(fp, Next(fp, o, steps[0]).value, done + [steps[0]], steps[1..]);
      assert done + [steps[0]] + steps[1..] == done + steps;
    }
  }

  /** Nobody grants itself anything: in every run, overlapping or not, every record is what the document of one of its
      registrations or rotations granted, signed, under an active parent, for the key given, and not yet ended. */
  lemma EveryRecordWasGranted(fp: Fingerprint, steps: seq<OfficeStep>, r: Record)
    requires Play(OfficeStepper(fp), Opening(), steps).Some? && r in Play(OfficeStepper(fp), Opening(), steps).value.reg.records
    ensures exists rq, st :: st in steps && Carries(st, rq) && Grants(fp, rq, r)
  {
    RunGranted(fp, Opening(), [], steps);
    assert [] + steps == steps;
    var rq :| GrantedBy(fp, steps, rq, r);
    var st :| st in steps && Carries(st, rq);
  }

  // ------------------------------------------------------------------ two runs in which handlers overlap

  /** A document of the parent "p" for a key of its own, good for a day from now. */
  function Doc(fp: Fingerprint, id: string, limit: Option<int>): Request {
    Request(Document(id, "p", fp(id), Some(["pay"]), limit, Some("INR"), 0, DAYS), id, true, true, 0, 0)
  }

  /** The agent registered with a limit of 100. */
  function Enrolled(fp: Fingerprint): Registry {
    Registered(fp, Registry([], [], []), Doc(fp, "first", Some(100)))
  }

  lemma EnrolledIs(fp: Fingerprint)
    ensures Enrolled(fp) == Registry([Record("first", fp("first"), ["pay"], 100, "INR", 0, DAYS)],
                                     [Agent("p", "first", "first", None, None, ["pay"], 100, "INR", true, DAYS)],
                                     [Credential(0, DAYS, false)])
  {
  }

  function Raising(fp: Fingerprint): Request {
    Doc(fp, "raise", Some(500))
  }

  function Silent(fp: Fingerprint): Request {
    Doc(fp, "silent", None)
  }

  /** Two rotations load one agent; the document of the first grants 500, that of the second leaves the limit out. */
  function TwoRotations(fp: Fingerprint): seq<OfficeStep> {
    [Enroll(Doc(fp, "first", Some(100))), LoadAgent(0, 0, Raising(fp)), LoadAgent(1, 0, Silent(fp)),
     ListCredentials(0), ListCredentials(1), Land(0), Land(1)]
  }

  function AfterRaise(fp: Fingerprint): Registry {
    RotationLanded(Enrolled(fp), 0, Enrolled(fp).agents[0], Raising(fp), 1)
  }

  function AfterBoth(fp: Fingerprint): Registry {
    RotationLanded(AfterRaise(fp), 0, Enrolled(fp).agents[0], Silent(fp), 1)
  }

  function RotationStates(fp: Fingerprint): seq<Office> {
    var reg := Enrolled(fp);
    var a, b := Rotating(0, Raising(fp), reg.agents[0], None), Rotating(0, Silent(fp), reg.agents[0], None);
    [Opening(), Office(reg, map[]), Office(reg, map[0 := a]), Office(reg, map[0 := a, 1 := b]),
     Office(reg, map[0 := a.(listed := Some(1)), 1 := b]), Office(reg, map[0 := a.(listed := Some(1)), 1 := b.(listed := Some(1))]),
     Office(AfterRaise(fp), map[1 := b.(listed := Some(1))]), Office(AfterBoth(fp), map[])]
  }

  lemma RotationsLoad(fp: Fingerprint, i: nat)
    requires i < 3
    ensures Leads(OfficeStepper(fp), RotationStates(fp), TwoRotations(fp), i)
  {
    EnrolledIs(fp);
  }

  lemma ListIs(fp: Fingerprint, o: Office, pid: Pid, after: Office)
    requires pid in o.open && o.open[pid].Rotating? && o.open[pid].listed.None?
    requires after == o.(open := o.open[pid := o.open[pid].(listed := Some(|o.reg.credentials|))])
    ensures OfficeStepper(fp)(o, ListCredentials(pid)) == Some(after)
  {
  }

  lemma FirstLists(fp: Fingerprint)
    ensures Leads(OfficeStepper(fp), RotationStates(fp), TwoRotations(fp), 3)
  {
    EnrolledIs(fp);
    var s := RotationStates(fp);
    assert s[3].open[0 := s[3].open[0].(listed := Some(1))] == s[4].open;
    ListIs(fp, s[3], 0, s[4]);
  }

  lemma SecondLists(fp: Fingerprint)
    ensures Leads(OfficeStepper(fp), RotationStates(fp), TwoRotations(fp), 4)
  {
    EnrolledIs(fp);
    var s := RotationStates(fp);
    assert s[4].open[1 := s[4].open[1].(listed := Some(1))] == s[5].open;
    ListIs(fp, s[4], 1, s[5]);
  }

  lemma LandIs(fp: Fingerprint, o: Office, pid: Pid, after: Office)
    requires pid in o.open && CanLand(o.reg, o.open[pid]) && after == Office(Landed(o.reg, o.open[pid]), o.open - {pid})
    ensures OfficeStepper(fp)(o, Land(pid)) == Some(after)
  {
  }

  lemma FirstLands(fp: Fingerprint)
    ensures Leads(OfficeStepper(fp), RotationStates(fp), TwoRotations(fp), 5)
  {
    EnrolledIs(fp);
    var s := RotationStates(fp);
    assert s[5].open - {0} == s[6].open;
    LandIs(fp, s[5], 0, s[6]);
  }

  lemma SecondLands(fp: Fingerprint)
    ensures Leads(OfficeStepper(fp), RotationStates(fp), TwoRotations(fp), 6)
  {
    EnrolledIs(fp);
    var s := RotationStates(fp);
    assert s[6].open - {1} == map[];
    LandIs(fp, s[6], 1, s[7]);
  }

  /** What the two landings leave: the limit the first document raised, under the record of the second. */
  lemma BothLand(fp: Fingerprint)
    ensures var end := AfterBoth(fp);
            && |end.records| == 3 && end.records[2] == Record("silent", fp("silent"), ["pay"], 100, "INR", 0, DAYS)
            && |end.agents| == 1 && end.agents[0].delegationId == "silent" && end.agents[0].limit == 500
            && end.credentials == [Credential(0, DAYS, true), Credential(0, DAYS, false), Credential(0, DAYS, false)]
  {
    EnrolledIs(fp);
    var reg, mid := Enrolled(fp), AfterRaise(fp);
    assert !Consumed(reg.records, "raise");
    assert mid.records == reg.records + [Record("raise", fp("raise"), ["pay"], 500, "INR", 0, DAYS)];
    assert !Consumed(mid.records, "silent");
    assert mid.credentials == [Credential(0, DAYS, true), Credential(0, DAYS, false)];
  }

  /** Overlapping rotations: the agent may spend 500 under a record that grants 100, and two of its credentials are
      good. */
  lemma OverlappingRotations(fp: Fingerprint)
    ensures Play(OfficeStepper(fp), Opening(), TwoRotations(fp)) == Some(Office(AfterBoth(fp), map[]))
    ensures var end := AfterBoth(fp);
            && |end.agents| == 1 && end.agents[0].limit == 500 && |end.records| == 3 && end.records[2].limit == 100
            && end.agents[0].delegationId == end.records[2].id
            && |end.credentials| == 3 && !end.credentials[1].revoked && !end.credentials[2].revoked
  {
    FirstLists(fp);
    SecondLists(fp);
    FirstLands(fp);
    SecondLands(fp);
    forall i | 0 <= i < 7 ensures Leads(OfficeStepper(fp), RotationStates(fp), TwoRotations(fp), i) {
      if i < 3 { RotationsLoad(fp, i); }
    }
    PlayThrough(OfficeStepper(fp), RotationStates(fp), TwoRotations(fp));
    BothLand(fp);
  }

  /** A rotation and a revocation of one agent. */
  function RotationAndRevocation(fp: Fingerprint): seq<OfficeStep> {
    [Enroll(Doc(fp, "first", Some(100))), LoadAgent(0, 0, Raising(fp)), ListCredentials(0), LoadRevocation(1, 0), Land(1), Land(0)]
  }

  function AfterRevocation(fp: Fingerprint): Registry {
    RevocationLanded(Enrolled(fp), 0, 1)
  }

  function RotatedAfterwards(fp: Fingerprint): Registry {
    RotationLanded(AfterRevocation(fp), 0, Enrolled(fp).agents[0], Raising(fp), 1)
  }

  function RevocationStates(fp: Fingerprint): seq<Office> {
    var reg := Enrolled(fp);
    var a := Rotating(0, Raising(fp), reg.agents[0], None);
    var ready := a.(listed := Some(1));
    [Opening(), Office(reg, map[]), Office(reg, map[0 := a]), Office(reg, map[0 := ready]), Office(reg, map[0 := ready, 1 := Revoking(0, 1)]),
     Office(AfterRevocation(fp), map[0 := ready]), Office(RotatedAfterwards(fp), map[])]
  }

  lemma RevocationLoads(fp: Fingerprint, i: nat)
    requires i < 4
    ensures Leads(OfficeStepper(fp), RevocationStates(fp), RotationAndRevocation(fp), i)
  {
    EnrolledIs(fp);
    var s := RevocationStates(fp);
    if i == 2 { assert s[2].open[0 := s[2].open[0].(listed := Some(1))] == s[3].open; }
  }

  lemma RevocationLands(fp: Fingerprint)
    ensures Leads(OfficeStepper(fp), RevocationStates(fp), RotationAndRevocation(fp), 4)
  {
    EnrolledIs(fp);
    var s := RevocationStates(fp);
    assert s[4].open - {1} == s[5].open;
    LandIs(fp, s[4], 1, s[5]);
  }

  lemma RotationLandsLast(fp: Fingerprint)
    ensures Leads(OfficeStepper(fp), RevocationStates(fp), RotationAndRevocation(fp), 5)
  {
    EnrolledIs(fp);
    var s := RevocationStates(fp);
    assert s[5].open - {0} == map[];
    LandIs(fp, s[5], 0, s[6]);
  }

  /** A rotation that loaded the agent before it was revoked leaves the revoked agent a good credential. */
  lemma RotationOutlivesRevocation(fp: Fingerprint)
    ensures Play(OfficeStepper(fp), Opening(), RotationAndRevocation(fp)) == Some(Office(RotatedAfterwards(fp), map[]))
    ensures var end := RotatedAfterwards(fp);
            |end.agents| == 1 && !end.agents[0].active && end.credentials == [Credential(0, DAYS, true), Credential(0, DAYS, false)]
  {
    forall i | 0 <= i < 6 ensures Leads(OfficeStepper(fp), RevocationStates(fp), RotationAndRevocation(fp), i) {
      if i < 4 { RevocationLoads(fp, i); } else if i == 4 { RevocationLands(fp); } else { RotationLandsLast(fp); }
    }
    PlayThrough(OfficeStepper(fp), RevocationStates(fp), RotationAndRevocation(fp));
    EnrolledIs(fp);
    assert !Consumed(Enrolled(fp).records, "raise");
  }
}

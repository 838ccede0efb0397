/** The mandate table over time: creation and revocation (app/routers/v1.py), the two
    lifecycle sweepers (app/mandates.py), and what they can never undo. */
module Lifecycle {
  import opened Text
  import opened Mandates

  function SweptRow(m: Mandate, now: int): Mandate {
    if m.status == ACTIVE && m.expiresAt <= now then m.(status := EXPIRED) else m
  }

  function Swept(rows: seq<Mandate>, now: int): seq<Mandate> {
    seq(|rows|, i requires 0 <= i < |rows| => SweptRow(rows[i], now))
  }

  function StaleRow(i: Intent, now: int): Intent {
    if i.decision == REVIEW && i.reviewExpiresAt.Some? && i.reviewExpiresAt.value <= now
    then i.(decision := DENY) else i
  }

  function StaleDenied(log: seq<Intent>, now: int): seq<Intent> {
    seq(|log|, k requires 0 <= k < |log| => StaleRow(log[k], now))
  }

  /** Rows two snapshots of one table disagree on. */
  function Changed<T(==)>(before: seq<T>, after: seq<T>): nat
    requires |before| == |after|
  {
    if |before| == 0 then 0
    else Changed(before[..|before| - 1], after[..|after| - 1]) + if before[|before| - 1] == after[|after| - 1] then 0 else 1
  }

  lemma ChangedNext<T>(before: seq<T>, was: seq<T>, after: seq<T>, k: nat)
    requires |before| == |was| == |after| && k < |before| && was[..k] == after[..k]
    ensures Changed(before[..k + 1], after[..k + 1]) == Changed(before[..k], was[..k]) + if before[k] == after[k] then 0 else 1
  {
    assert before[..k + 1][..k] == before[..k] && after[..k + 1][..k] == was[..k];
  }

  datatype CreateResult = Created | BadWindow | BadLimits | WrongCurrency | BadSeal | DuplicateId

  predicate PositiveWhenSet(o: Option<int>) {
    o.Some? ==> o.value > 0
  }

  /** Why a requested mandate is refused, in the order the endpoint checks. `sealOk`: no signature or key came
      with it, or both did and verify. */
  function Admission(rows: seq<Mandate>, m: Mandate, agentCurrency: string, sealOk: bool): CreateResult {
    if m.expiresAt <= m.validFrom then BadWindow
    else if m.maxPerTransaction <= 0 || m.maxDailyAmount <= 0 then BadLimits
    else if m.maxPerTransaction > m.maxDailyAmount then BadLimits
    else if !(PositiveWhenSet(m.maxPerHour) && PositiveWhenSet(m.maxPerMerchantPerDay) && PositiveWhenSet(m.maxCategoryPerDay)) then BadLimits
    else if Upper(m.currency) != Upper(agentCurrency) then WrongCurrency
    else if !sealOk then BadSeal
    else if exists r :: r in rows && r.id == m.id then DuplicateId
    else Created
  }

  /** Which reason a refusal gives. */
  lemma AdmissionSays(rows: seq<Mandate>, m: Mandate, agentCurrency: string, sealOk: bool)
    ensures var r := Admission(rows, m, agentCurrency, sealOk);
            var taken := exists x :: x in rows && x.id == m.id;
            && (r.BadWindow? <==> m.expiresAt <= m.validFrom)
            && (r.WrongCurrency? ==> !EqualButCase(m.currency, agentCurrency))
            && (r.BadSeal? ==> EqualButCase(m.currency, agentCurrency) && !sealOk)
            && (r.DuplicateId? ==> EqualButCase(m.currency, agentCurrency) && sealOk && taken)
            && (0 < m.maxPerTransaction <= m.maxDailyAmount && m.maxPerHour.None? && m.maxPerMerchantPerDay.None? && m.maxCategoryPerDay.None?
                ==> !r.BadLimits?)
  {
    FoldsIff(m.currency, agentCurrency);
  }

  function Revoked(rows: seq<Mandate>, id: string): seq<Mandate> {
    seq(|rows|, i requires 0 <= i < |rows| => if rows[i].id == id then rows[i].(status := REVOKED) else rows[i])
  }

  class MandateTable {
    var mandates: seq<Mandate>
    var intents: seq<Intent>

    constructor ()
      ensures mandates == [] && intents == []
    {
      mandates, intents := [], [];
    }

    method CreateMandate(m: Mandate, agentCurrency: string, sealOk: bool) returns (r: CreateResult)
      modifies this`mandates
      ensures r == Admission(old(mandates), m, agentCurrency, sealOk)
      ensures mandates == if r.Created? then old(mandates) + [m.(currency := Upper(m.currency), status := ACTIVE)] else old(mandates)
      ensures r.Created? <==>
        && m.validFrom < m.expiresAt && 0 < m.maxPerTransaction <= m.maxDailyAmount
        && (m.maxPerHour.Some? ==> m.maxPerHour.value > 0) && (m.maxPerMerchantPerDay.Some? ==> m.maxPerMerchantPerDay.value > 0)
        && (m.maxCategoryPerDay.Some? ==> m.maxCategoryPerDay.value > 0)
        && EqualButCase(m.currency, agentCurrency) && sealOk && !exists x :: x in old(mandates) && x.id == m.id
      ensures mandates == Evolve(old(mandates), Create(m, agentCurrency, sealOk)) && (old(UniqueIds(mandates)) ==> UniqueIds(mandates))
    {
      FoldsIff(m.currency, agentCurrency);
      if m.expiresAt <= m.validFrom { return BadWindow; }
      if m.maxPerTransaction <= 0 || m.maxDailyAmount <= 0 { return BadLimits; }
      if m.maxPerTransaction > m.maxDailyAmount { return BadLimits; }
      if !(PositiveWhenSet(m.maxPerHour) && PositiveWhenSet(m.maxPerMerchantPerDay) && PositiveWhenSet(m.maxCategoryPerDay)) {
        return BadLimits;
      }
      if Upper(m.currency) != Upper(agentCurrency) { return WrongCurrency; }
      if !sealOk { return BadSeal; }
      if exists r :: r in mandates && r.id == m.id { return DuplicateId; }
      mandates := mandates + [m.(currency := Upper(m.currency), status := ACTIVE)];
      r := Created;
    }

    method RevokeMandate(id: string) returns (found: bool)
      modifies this`mandates
      ensures found <==> exists m :: m in old(mandates) && m.id == id
      ensures mandates == Revoked(old(mandates), id)
      ensures |mandates| == |old(mandates)| && forall k :: 0 <= k < |mandates| ==>
        mandates[k] == if old(mandates[k]).id == id then old(mandates[k]).(status := REVOKED) else old(mandates[k])
    {
      found := false;
      ghost var before := mandates;
      for k := 0 to |mandates|
        invariant |mandates| == |before|
        invariant forall j | 0 <= j < |before| :: mandates[j] == if j < k then Revoked(before, id)[j] else before[j]
        invariant found <==> exists m :: m in before[..k] && m.id == id
      {
        assert before[..k + 1] == before[..k] + [before[k]];
        if mandates[k].id == id {
          mandates := mandates[k := mandates[k].(status := REVOKED)];
          found := true;
        }
      }
      assert before[..|before|] == before;
    }

    method SweepExpiredMandates(now: int) returns (count: nat)
      modifies this`mandates
      ensures mandates == Swept(old(mandates), now)
      ensures |mandates| == |old(mandates)| && forall k :: 0 <= k < |mandates| ==>
        var m := old(mandates[k]); mandates[k] == if m.status == ACTIVE && m.expiresAt <= now then m.(status := EXPIRED) else m
      ensures count == Changed(old(mandates), mandates)
    {
      count := 0;
      ghost var before := mandates;
      for k := 0 to |mandates|
        invariant |mandates| == |before|
        invariant forall j | 0 <= j < |before| :: mandates[j] == if j < k then SweptRow(before[j], now) else before[j]
        invariant count == Changed(before[..k], mandates[..k])
      {
        ghost var was := mandates;
        if mandates[k].status == ACTIVE && mandates[k].expiresAt <= now {
          mandates := mandates[k := mandates[k].(status := EXPIRED)];
          count := count + 1;
        }
        ChangedNext(before, was, mandates, k);
      }
      assert before[..|before|] == before && mandates[..|mandates|] == mandates;
    }

    method ExpireStaleReviews(now: int) returns (count: nat)
      modifies this`intents
      ensures intents == StaleDenied(old(intents), now)
      ensures |intents| == |old(intents)| && forall k :: 0 <= k < |intents| ==>
        var i := old(intents[k]);
        var due := i.decision == REVIEW && i.reviewExpiresAt.Some? && i.reviewExpiresAt.value <= now;
        intents[k] == if due then i.(decision := DENY) else i
      ensures count == Changed(old(intents), intents)
    {
      count := 0;
      ghost var before := intents;
      for k := 0 to |intents|
        invariant |intents| == |before|
        invariant forall j | 0 <= j < |before| :: intents[j] == if j < k then StaleRow(before[j], now) else before[j]
        invariant count == Changed(before[..k], intents[..k])
      {
        ghost var was := intents;
        assert intents[k] == before[k];
        if intents[k].decision == REVIEW && intents[k].reviewExpiresAt.Some? && intents[k].reviewExpiresAt.value <= now {
          intents := intents[k := intents[k].(decision := DENY)];
          count := count + 1;
        }
        ChangedNext(before, was, intents, k);
      }
      assert before[..|before|] == before && intents[..|intents|] == intents;
    }
  }

  // ------------------------------------------------------------------ sweeping is transparent

  /** A second sweep at the same instant finds nothing: it changes no row and counts none. */
  lemma SweepersIdempotent(rows: seq<Mandate>, log: seq<Intent>, now: int)
    ensures Swept(Swept(rows, now), now) == Swept(rows, now)
    ensures StaleDenied(StaleDenied(log, now), now) == StaleDenied(log, now)
    ensures Changed(Swept(rows, now), Swept(Swept(rows, now), now)) == 0
    ensures Changed(StaleDenied(log, now), StaleDenied(StaleDenied(log, now), now)) == 0
  {
    NothingChanged(Swept(rows, now));
    NothingChanged(StaleDenied(log, now));
  }

  lemma {:induction false} NothingChanged<T>(s: seq<T>)
    ensures Changed(s, s) == 0
  {
    if |s| > 0 { NothingChanged(s[..|s| - 1]); }
  }

  lemma {:induction false} SweptLiveRows(rows: seq<Mandate>, s: int, who: Who, now: int)
    requires forall m :: m in rows && m.who == who && InWindow(m, now) ==> s < m.expiresAt
    ensures LiveRows(Swept(rows, s), who, now) == LiveRows(rows, who, now)
  {
    if |rows| > 0 {
      assert Swept(rows, s) == [SweptRow(rows[0], s)] + Swept(rows[1..], s);
      SweptLiveRows(rows[1..], s, who, now);
      assert rows[0] in rows;
    }
  }

  lemma SweptActiveIsFresh(rows: seq<Mandate>, s: int, who: Who, now: int, m: Mandate)
    requires m in ActiveMandates(Swept(rows, s), who, now)
    ensures s < m.expiresAt
  {
    ActiveMandatesAreLive(Swept(rows, s), who, now);
    var k :| 0 <= k < |rows| && Swept(rows, s)[k] == m;
  }

  /** Sweeping at `s` leaves the active set at `now` alone exactly when no mandate still live at
      `now` had expired by `s`; in particular for every `now` at or after `s`. */
  lemma SweepTransparentIff(rows: seq<Mandate>, s: int, who: Who, now: int)
    ensures ActiveMandates(Swept(rows, s), who, now) == ActiveMandates(rows, who, now)
            <==> !exists m :: m in rows && m.who == who && InWindow(m, now) && m.expiresAt <= s
    ensures s <= now ==> ActiveMandates(Swept(rows, s), who, now) == ActiveMandates(rows, who, now)
  {
    if m :| m in rows && m.who == who && InWindow(m, now) && m.expiresAt <= s {
      ActiveMandatesAreLive(rows, who, now);
      if m in ActiveMandates(Swept(rows, s), who, now) { SweptActiveIsFresh(rows, s, who, now, m); }
    } else {
      SweptLiveRows(rows, s, who, now);
    }
  }

  /** Running the sweeper first never changes an evaluation made at or after the sweep. */
  lemma SweepNeverChangesEvaluation(sigOk: Mandate -> bool, rows: seq<Mandate>, under: seq<Mandate>, gate: bool,
                                    log: seq<Intent>, who: Who, p: Proposal, s: int, now: int)
    requires s <= now
    ensures EvaluateMandate(sigOk, Swept(rows, s), gate, Swept(under, s), log, who, p, now)
         == EvaluateMandate(sigOk, rows, gate, under, log, who, p, now)
    ensures ResolveState(Swept(rows, s), who, now) == ResolveState(rows, who, now)
  {
    SweepTransparentIff(rows, s, who, now);
    SweepTransparentIff(under, s, who, now);
    SweepKeepsHistory(rows, s, who);
  }

  lemma SweepKeepsHistory(rows: seq<Mandate>, s: int, who: Who)
    ensures HistoryExists(Swept(rows, s), who) == HistoryExists(rows, who)
  {
    if m :| m in rows && m.who == who {
      var k :| 0 <= k < |rows| && rows[k] == m;
      assert Swept(rows, s)[k].who == who;
    }
    if m :| m in Swept(rows, s) && m.who == who {
      var k :| 0 <= k < |rows| && Swept(rows, s)[k] == m;
      assert rows[k].who == who;
    }
  }

  // ------------------------------------------------------------------ lapse is permanent

  datatype TableStep = Create(m: Mandate, agentCurrency: string, sealOk: bool) | Revoke(id: string) | Sweep(now: int)

  function Evolve(rows: seq<Mandate>, st: TableStep): seq<Mandate> {
    match st
    case Create(m, c, sealOk) =>
      if Admission(rows, m, c, sealOk).Created? then rows + [m.(currency := Upper(m.currency), status := ACTIVE)] else rows
    case Revoke(id) => Revoked(rows, id)
    case Sweep(now) => Swept(rows, now)
  }

  function EvolveAll(rows: seq<Mandate>, steps: seq<TableStep>): seq<Mandate>
    decreases |steps|
  {
    if |steps| == 0 then rows else EvolveAll(Evolve(rows, steps[0]), steps[1..])
  }

  lemma RowOnlyDies(rows: seq<Mandate>, st: TableStep, k: nat)
    requires k < |rows|
    ensures var later := Evolve(rows, st);
            && k < |later| && later[k] == rows[k].(status := later[k].status)
            && (rows[k].status != ACTIVE ==> later[k].status != ACTIVE)
            && (UniqueIds(rows) ==> UniqueIds(later))
  {
  }

  /** Over any run a row keeps its place and every governed field; only its status moves, and a
      status that has left ACTIVE never comes back. Ids stay unique. */
  lemma {:induction false} RowsOnlyDie(rows: seq<Mandate>, steps: seq<TableStep>, k: nat)
    requires k < |rows|
    ensures var later := EvolveAll(rows, steps);
            && k < |later| && later[k] == rows[k].(status := later[k].status)
            && (rows[k].status != ACTIVE ==> later[k].status != ACTIVE)
            && (UniqueIds(rows) ==> UniqueIds(later))
    decreases |steps|
  {
    if |steps| > 0 {
      RowOnlyDies(rows, steps[0], k);
      RowsOnlyDie(Evolve(rows, steps[0]), steps[1..], k);
    }
  }

  /** Some row carries the id, and none that does is active. */
  ghost predicate Dead(rows: seq<Mandate>, id: string) {
    (exists m :: m in rows && m.id == id) && forall m :: m in rows && m.id == id ==> m.status != ACTIVE
  }

  lemma StaysDead(rows: seq<Mandate>, st: TableStep, id: string)
    requires Dead(rows, id)
    ensures Dead(Evolve(rows, st), id)
  {
    var later := Evolve(rows, st);
    var m :| m in rows && m.id == id;
    var k :| 0 <= k < |rows| && rows[k] == m;
    assert later[k].id == id;
    forall x | x in later && x.id == id ensures x.status != ACTIVE {
      var j :| 0 <= j < |later| && later[j] == x;
      if j < |rows| { assert rows[j] in rows; }
    }
  }

  lemma {:induction false} StaysDeadForever(rows: seq<Mandate>, steps: seq<TableStep>, id: string)
    requires Dead(rows, id)
    ensures Dead(EvolveAll(rows, steps), id)
    decreases |steps|
  {
    if |steps| > 0 {
      StaysDead(rows, steps[0], id);
      StaysDeadForever(Evolve(rows, steps[0]), steps[1..], id);
    }
  }

  /** Revocation is final: no mandate that carried the id is active in any later table, at any instant, for anybody, and
      none can be created under that id again. */
  lemma RevokedNeverActive(rows: seq<Mandate>, id: string, steps: seq<TableStep>, who: Who, now: int)
    requires exists m :: m in rows && m.id == id
    ensures var later := EvolveAll(Evolve(rows, Revoke(id)), steps);
            && (exists m :: m in later && m.id == id)
            && (forall m :: m in later && m.id == id ==> m.status != ACTIVE)
            && (forall m :: m in ActiveMandates(later, who, now) ==> m.id != id)
  {
    var m :| m in rows && m.id == id;
    var k :| 0 <= k < |rows| && rows[k] == m;
    var next := Evolve(rows, Revoke(id));
    assert next[k].id == id;
    forall x | x in next && x.id == id ensures x.status != ACTIVE {
      var j :| 0 <= j < |next| && next[j] == x;
    }
    StaysDeadForever(next, steps, id);
    ActiveAreLive(EvolveAll(next, steps), who, now);
  }

  /** What the creation endpoint lets into the table. */
  predicate Sane(m: Mandate) {
    && m.validFrom < m.expiresAt
    && 0 < m.maxPerTransaction <= m.maxDailyAmount
    && PositiveWhenSet(m.maxPerHour) && PositiveWhenSet(m.maxPerMerchantPerDay) && PositiveWhenSet(m.maxCategoryPerDay)
    && m.currency == Upper(m.currency)
  }

  lemma UpperTwice(s: string)
    ensures Upper(Upper(s)) == Upper(s)
  {
  }

  lemma EvolveKeepsSane(rows: seq<Mandate>, st: TableStep)
    requires forall m :: m in rows ==> Sane(m)
    ensures forall m :: m in Evolve(rows, st) ==> Sane(m)
  {
    forall m | m in Evolve(rows, st) ensures Sane(m) {
      var k :| 0 <= k < |Evolve(rows, st)| && Evolve(rows, st)[k] == m;
      if k < |rows| { assert rows[k] in rows; } else { UpperTwice(st.m.currency); }
    }
  }

  /** Every mandate in every reachable table has a window, positive limits, a per-transaction cap within its daily
      cap, and an upper-case currency; ids are unique. */
  lemma {:induction false} TablesAreSane(rows: seq<Mandate>, steps: seq<TableStep>)
    requires UniqueIds(rows) && forall m :: m in rows ==> Sane(m)
    ensures UniqueIds(EvolveAll(rows, steps)) && forall m :: m in EvolveAll(rows, steps) ==> Sane(m)
    decreases |steps|
  {
    if |steps| > 0 {
      EvolveKeepsSane(rows, steps[0]);
      TablesAreSane(Evolve(rows, steps[0]), steps[1..]);
    }
  }

  /** Once an agent has had a mandate no later state resolves to "never had one": every later
      evaluation without an active mandate reports a lapse, at any clock reading. */
  lemma LapseIsPermanent(sigOk: Mandate -> bool, rows: seq<Mandate>, steps: seq<TableStep>, gate: bool,
                         log: seq<Intent>, who: Who, p: Proposal, now: int)
    requires HistoryExists(rows, who)
    ensures var later := EvolveAll(rows, steps);
            var r := EvaluateMandate(sigOk, later, gate, later, log, who, p, now);
            && ResolveState(later, who, now) != NoMandate
            && r.state == ResolveState(later, who, now)
            && (ActiveMandates(later, who, now) == [] ==> !r.ok && r.state == Lapsed)
  {
    var m :| m in rows && m.who == who;
    var k :| 0 <= k < |rows| && rows[k] == m;
    RowsOnlyDie(rows, steps, k);
    assert EvolveAll(rows, steps)[k].who == who;
  }
}

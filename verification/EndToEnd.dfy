/** The whole path of a payment: gated evaluation, minting, execution and settlement, in any
    interleaving. An allowed submission commits first and mints right after, from whichever row holds
    its key; a step-up approval mints in the same commit. */
module EndToEnd {
  import opened Text
  import opened Mandates
  import opened Budget
  import opened Lifecycle
  import opened Runs
  import opened Settlement
  import opened SettlementRuns
  import G = Gate

  /** `minting`: rows from which an allowed submission is about to mint. */
  datatype World = World(store: G.Store, minting: set<nat>, cells: map<nat, Cell>)

  datatype WorldStep =
    | Evaluating(st: G.Step, id: string)
    | Mint(k: nat, id: string)
    | OnRow(k: nat, row: RowStep)

  predicate CanStep(key: string -> int, w: World, st: WorldStep) {
    match st
    case Evaluating(g, _) => G.Enabled(key, w.store, g)
    case Mint(k, _) => k in w.minting && k < |w.store.log|
    case OnRow(k, row) => k in w.cells && SettlementRuns.Enabled(w.cells[k], row)
  }

  function AuthFor(i: Intent, id: string): Auth {
    Auth(id, i.proposal.amount, i.proposal.currency)
  }

  /** The rows about to be minted once a submission is committed: an allowed one mints from its own row or from the one
      that took its key, unless that was minted before. */
  function PutUp(w: World, i: Intent): set<nat> {
    var k := RowFor(w.store.log, i.who.agentId, i.key);
    if i.decision == ALLOW && k !in w.cells then w.minting + {k} else w.minting
  }

  function Next(key: string -> int, sigOk: Mandate -> bool, w: World, st: WorldStep): World
    requires CanStep(key, w, st)
  {
    match st
    case Evaluating(g, id) =>
      var store := G.Apply(key, sigOk, w.store, g);
      match g {
        case Commit(pid) =>
          World(store, PutUp(w, w.store.evs[pid].intent), w.cells)
        case Approve(k) =>
          // A row minted before cannot be minted again, and then nothing is committed.
          if k in w.cells then w else World(store, w.minting, w.cells[k := NewCell(AuthFor(w.store.log[k], id))])
        case _ => w.(store := store)
      }
    case Mint(k, id) =>
      World(w.store, w.minting - {k}, if k in w.cells then w.cells else w.cells[k := NewCell(AuthFor(w.store.log[k], id))])
    case OnRow(k, row) => w.(cells := w.cells[k := SettlementRuns.Apply(w.cells[k], row)])
  }

  /** The interleavings in which sessions of one agent contend for the same last gate. */
  ghost function Stepper(key: string -> int, sigOk: Mandate -> bool): (World, WorldStep) -> Option<World> {
    (w: World, st: WorldStep) => if CanStep(key, w, st) && G.Contending(key, w.store) then Some(Next(key, sigOk, w, st)) else None
  }

  function Start(rows: seq<Mandate>): World {
    World(G.Fresh(rows), {}, map[])
  }

  // ------------------------------------------------------------------ intents and rows correspond

  predicate CellFor(i: Intent, c: Cell) {
    i.decision == ALLOW && c.auth.amount == i.proposal.amount && c.auth.currency == i.proposal.currency && c.maxUsage == 1
  }

  ghost predicate Linked(log: seq<Intent>, minting: set<nat>, cells: map<nat, Cell>) {
    && (forall k | k in cells :: k < |log| && CellFor(log[k], cells[k]))
    && (forall k | k in minting :: k < |log| && log[k].decision == ALLOW && k !in cells)
    && (forall k :: 0 <= k < |log| && log[k].decision == ALLOW ==> k in cells || k in minting)
  }

  ghost predicate CellsSound(cells: map<nat, Cell>) {
    forall k | k in cells :: RowInv(cells[k].row) && UsageInv(cells[k])
  }

  ghost predicate Inv(key: string -> int, sigOk: Mandate -> bool, w: World) {
    G.Inv(key, sigOk, w.store, false) && Linked(w.store.log, w.minting, w.cells) && CellsSound(w.cells)
  }

  /** A row appended to the log is linked at once if it is not allowed, and awaits minting if it is. */
  lemma AppendKeepsLinked(log: seq<Intent>, i: Intent, minting: set<nat>, cells: map<nat, Cell>)
    requires Linked(log, minting, cells)
    ensures Linked(log + [i], if i.decision == ALLOW then minting + {|log|} else minting, cells)
  {
  }

  lemma ExpiryKeepsLinked(log: seq<Intent>, now: int, minting: set<nat>, cells: map<nat, Cell>)
    requires Linked(log, minting, cells)
    ensures Linked(StaleDenied(log, now), minting, cells)
  {
  }

  lemma ApprovalKeepsLinked(log: seq<Intent>, k: nat, id: string, minting: set<nat>, cells: map<nat, Cell>)
    requires Linked(log, minting, cells) && k < |log| && log[k].decision == REVIEW
    ensures Linked(log[k := G.Approved(log[k])], minting, cells[k := NewCell(AuthFor(log[k], id))])
  {
  }

  /** The step does not misfire: no allowed submission is committed whose key a row that is not allowed has taken. */
  predicate Apart(w: World, st: WorldStep) {
    st.Evaluating? && st.st.Commit? && st.st.pid in w.store.evs && (w.store.evs[st.st.pid].Judged? || w.store.evs[st.st.pid].GaveUp?)
    ==> var i := w.store.evs[st.st.pid].intent;
        i.decision == ALLOW && KeyTaken(w.store.log, i.who.agentId, i.key)
        ==> w.store.log[KeyAt(w.store.log, i.who.agentId, i.key)].decision == ALLOW
  }

  /** A commit keeps allowed intents and executing rows linked exactly when it does not misfire. */
  lemma CommitKeepsLinkedIff(key: string -> int, sigOk: Mandate -> bool, w: World, pid: nat, id: string)
    requires G.Enabled(key, w.store, G.Commit(pid)) && Linked(w.store.log, w.minting, w.cells)
    ensures var after := Next(key, sigOk, w, Evaluating(G.Commit(pid), id));
            Linked(after.store.log, after.minting, after.cells) <==> Apart(w, Evaluating(G.Commit(pid), id))
  {
    var log, i := w.store.log, w.store.evs[pid].intent;
    var after := Next(key, sigOk, w, Evaluating(G.Commit(pid), id));
    if !KeyTaken(log, i.who.agentId, i.key) {
      AppendKeepsLinked(log, i, w.minting, w.cells);
    } else if i.decision == ALLOW && log[KeyAt(log, i.who.agentId, i.key)].decision != ALLOW {
      assert KeyAt(log, i.who.agentId, i.key) in after.minting;
    }
  }

  lemma ApproveStepKeepsLinked(key: string -> int, sigOk: Mandate -> bool, w: World, k: nat, id: string)
    requires G.Enabled(key, w.store, G.Approve(k)) && Linked(w.store.log, w.minting, w.cells) && CellsSound(w.cells)
    ensures var after := Next(key, sigOk, w, Evaluating(G.Approve(k), id)); Linked(after.store.log, after.minting, after.cells) && CellsSound(after.cells)
  {
    ApprovalKeepsLinked(w.store.log, k, id, w.minting, w.cells);
    NewCellSound(AuthFor(w.store.log[k], id));
  }

  lemma NewCellSound(auth: Auth)
    ensures RowInv(NewCell(auth).row) && UsageInv(NewCell(auth))
  {
  }

  lemma GateStepKeepsLinked(key: string -> int, sigOk: Mandate -> bool, w: World, g: G.Step, id: string)
    requires G.Enabled(key, w.store, g) && Apart(w, Evaluating(g, id)) && Linked(w.store.log, w.minting, w.cells) && CellsSound(w.cells)
    ensures var after := Next(key, sigOk, w, Evaluating(g, id)); Linked(after.store.log, after.minting, after.cells) && CellsSound(after.cells)
  {
    var log := w.store.log;
    match g {
      case Commit(pid) => CommitKeepsLinkedIff(key, sigOk, w, pid, id);
      case RecordDenial(i) => AppendKeepsLinked(log, i, w.minting, w.cells);
      case Approve(k) => ApproveStepKeepsLinked(key, sigOk, w, k, id);
      case ExpireReviews(now) => ExpiryKeepsLinked(log, now, w.minting, w.cells);
      case _ =>
    }
  }

  lemma RowStepKeepsLinked(key: string -> int, sigOk: Mandate -> bool, w: World, k: nat, row: RowStep)
    requires CanStep(key, w, OnRow(k, row)) && Linked(w.store.log, w.minting, w.cells) && CellsSound(w.cells)
    ensures var after := Next(key, sigOk, w, OnRow(k, row)); Linked(after.store.log, after.minting, after.cells) && CellsSound(after.cells)
  {
    StepSettlesOnlyOnCapture(w.cells[k], row);
    StepKeepsUsage(w.cells[k], row);
  }

  lemma MintKeepsLinked(log: seq<Intent>, k: nat, id: string, minting: set<nat>, cells: map<nat, Cell>)
    requires Linked(log, minting, cells) && CellsSound(cells) && k in minting && k < |log|
    ensures Linked(log, minting - {k}, cells[k := NewCell(AuthFor(log[k], id))]) && CellsSound(cells[k := NewCell(AuthFor(log[k], id))])
  {
  }

  lemma StepKeepsLinked(key: string -> int, sigOk: Mandate -> bool, w: World, st: WorldStep)
    requires CanStep(key, w, st) && Apart(w, st) && Linked(w.store.log, w.minting, w.cells) && CellsSound(w.cells)
    ensures var after := Next(key, sigOk, w, st); Linked(after.store.log, after.minting, after.cells) && CellsSound(after.cells)
  {
    match st {
      case Evaluating(g, id) => GateStepKeepsLinked(key, sigOk, w, g, id);
      case Mint(k, id) => MintKeepsLinked(w.store.log, k, id, w.minting, w.cells);
      case OnRow(k, row) => RowStepKeepsLinked(key, sigOk, w, k, row);
    }
  }

  /** Minting and execution do not touch the store, nor does an approval of a row already minted. */
  lemma StoreAfter(key: string -> int, sigOk: Mandate -> bool, w: World, st: WorldStep)
    requires CanStep(key, w, st)
    ensures var after := Next(key, sigOk, w, st).store;
            after == w.store || (st.Evaluating? && after == G.Apply(key, sigOk, w.store, st.st))
  {
  }

  lemma StepKeepsInv(key: string -> int, sigOk: Mandate -> bool, w: World, st: WorldStep)
    requires Inv(key, sigOk, w) && CanStep(key, w, st) && G.Contending(key, w.store) && Apart(w, st)
    ensures Inv(key, sigOk, Next(key, sigOk, w, st))
  {
    StoreAfter(key, sigOk, w, st);
    if st.Evaluating? { G.StepKeepsInv(key, sigOk, w.store, st.st, false); }
    StepKeepsLinked(key, sigOk, w, st);
  }

  lemma RunKeepsInv(key: string -> int, sigOk: Mandate -> bool, rows: seq<Mandate>, steps: seq<WorldStep>)
    requires Play(Stepper(key, sigOk), Start(rows), steps).Some? && Along(Stepper(key, sigOk), Apart, Start(rows), steps)
    ensures Inv(key, sigOk, Play(Stepper(key, sigOk), Start(rows), steps).value)
  {
    var step := Stepper(key, sigOk);
    forall w, st | Inv(key, sigOk, w) && Apart(w, st) && step(w, st).Some? ensures Inv(key, sigOk, step(w, st).value) {
      StepKeepsInv(key, sigOk, w, st);
    }
    PlayKeepsAlong(step, Apart, (w: World) => Inv(key, sigOk, w), Start(rows), steps);
  }

  // ------------------------------------------------------------------ a mandate active at every evaluation judges everything

  /** If the step is an evaluation of the mandate's agent at an instant of the 24h from `a`, the mandate is in the
      table and live then. It may have been created, and may be revoked or expire, at any other time. */
  predicate ActiveAt(m: Mandate, a: int, w: World, st: WorldStep) {
    st.Evaluating? && st.st.Decide? && st.st.pid in w.store.evs && w.store.evs[st.st.pid].Ready?
    ==> var e := w.store.evs[st.st.pid]; e.who == m.who && a <= e.now <= a + DAY ==> m in w.store.rows && InWindow(m, e.now)
  }

  ghost function Watching(m: Mandate, a: int): (World, WorldStep) -> bool {
    (w: World, st: WorldStep) => ActiveAt(m, a, w, st)
  }

  predicate JudgedIfWithin(m: Mandate, a: int, i: Intent) {
    i.judgement.JudgedBy? && i.who == m.who && a <= i.judgement.at <= a + DAY ==> m in Judges(i)
  }

  ghost predicate Presides(m: Mandate, a: int, s: G.Store) {
    && (forall k :: 0 <= k < |s.log| ==> JudgedIfWithin(m, a, s.log[k]))
    && (forall pid | pid in s.evs && (s.evs[pid].Judged? || s.evs[pid].GaveUp?) :: JudgedIfWithin(m, a, s.evs[pid].intent))
  }

  lemma OutcomeIsPresided(key: string -> int, sigOk: Mandate -> bool, w: World, st: G.Step, id: string, m: Mandate, a: int)
    requires st.Decide? && G.Enabled(key, w.store, st) && ActiveAt(m, a, w, Evaluating(st, id))
    ensures JudgedIfWithin(m, a, G.Apply(key, sigOk, w.store, st).evs[st.pid].intent)
  {
    ActiveMandatesAreLive(w.store.rows, w.store.evs[st.pid].who, w.store.evs[st.pid].now);
  }

  lemma StepKeepsPresides(key: string -> int, sigOk: Mandate -> bool, w: World, st: G.Step, id: string, m: Mandate, a: int)
    requires G.Enabled(key, w.store, st) && Presides(m, a, w.store) && ActiveAt(m, a, w, Evaluating(st, id))
    ensures Presides(m, a, G.Apply(key, sigOk, w.store, st))
  {
    if st.Decide? { OutcomeIsPresided(key, sigOk, w, st, id, m, a); }
  }

  lemma RunKeepsPresides(key: string -> int, sigOk: Mandate -> bool, rows: seq<Mandate>, steps: seq<WorldStep>, m: Mandate, a: int)
    requires Play(Stepper(key, sigOk), Start(rows), steps).Some? && Along(Stepper(key, sigOk), Watching(m, a), Start(rows), steps)
    ensures Presides(m, a, Play(Stepper(key, sigOk), Start(rows), steps).value.store)
  {
    var step, ok := Stepper(key, sigOk), Watching(m, a);
    forall w: World, st | Presides(m, a, w.store) && ok(w, st) && step(w, st).Some? ensures Presides(m, a, step(w, st).value.store) {
      StoreAfter(key, sigOk, w, st);
      if st.Evaluating? { StepKeepsPresides(key, sigOk, w, st.st, st.id, m, a); }
    }
    PlayKeepsAlong(step, ok, (w: World) => Presides(m, a, w.store), Start(rows), steps);
  }

  // ------------------------------------------------------------------ what was settled

  predicate StampedIn(i: Intent, who: Who, from: int, to: int) {
    i.who == who && from <= i.createdAt <= to
  }

  /** Money settled for an agent's intents stamped in an interval: the authorized amount once for
      every settlement event in the history of every row. */
  function SettledTotal(log: seq<Intent>, cells: map<nat, Cell>, who: Who, from: int, to: int): int {
    if |log| == 0 then 0 else
      var k := |log| - 1;
      SettledTotal(log[..k], cells, who, from, to)
      + if k in cells && StampedIn(log[k], who, from, to) then Settlements(cells[k].row.audit) * cells[k].auth.amount else 0
  }

  /** The agent's requests spell the currency as the mandate does. */
  ghost predicate SpelledAlike(log: seq<Intent>, m: Mandate) {
    forall i :: i in log && i.who == m.who ==> i.proposal.currency == m.currency
  }

  ghost predicate Backed(log: seq<Intent>, cells: map<nat, Cell>) {
    forall k | k in cells && k < |log| :: CellFor(log[k], cells[k]) && RowInv(cells[k].row)
  }

  /** What one row settled is at most what its intent was charged. */
  lemma SettledOnce(i: Intent, c: Cell)
    requires CellFor(i, c) && RowInv(c.row) && i.proposal.amount > 0
    ensures Settlements(c.row.audit) * c.auth.amount <= i.proposal.amount
  {
  }

  lemma {:induction false} SettledAtMostSpent(log: seq<Intent>, cells: map<nat, Cell>, m: Mandate, from: int, to: int)
    requires Positive(log) && Backed(log, cells) && SpelledAlike(log, m)
    ensures SettledTotal(log, cells, m.who, from, to) <= SpendSince(log, m, from, to, Everything)
  {
    if |log| > 0 {
      var k := |log| - 1;
      assert log[k] in log;
      SettledAtMostSpent(log[..k], cells, m, from, to);
      if k in cells { SettledOnce(log[k], cells[k]); }
    }
  }

  lemma PresidedThroughout(s: G.Store, m: Mandate, a: int)
    requires Presides(m, a, s) && HonestlyStamped(s.log)
    ensures JudgedThroughout(s.log, m, Daily, a)
  {
    forall i | i in s.log && Counts(i, m, a, a + DAY, Everything) ensures m in Judges(i) {
      var k :| 0 <= k < |s.log| && s.log[k] == i;
    }
  }

  /** A held row is stamped with the instant it was judged at. */
  ghost predicate HonestlyStamped(log: seq<Intent>) {
    forall i :: i in log && Held(i) ==> i.judgement.JudgedBy? && i.createdAt == i.judgement.at
  }

  ghost predicate Stamped(s: G.Store) {
    && HonestlyStamped(s.log)
    && (forall pid | pid in s.evs && (s.evs[pid].Judged? || s.evs[pid].GaveUp?) ::
          Held(s.evs[pid].intent) ==> s.evs[pid].intent.judgement.JudgedBy? && s.evs[pid].intent.createdAt == s.evs[pid].intent.judgement.at)
  }

  lemma StepKeepsStamped(key: string -> int, sigOk: Mandate -> bool, s: G.Store, st: G.Step)
    requires G.Enabled(key, s, st) && Stamped(s)
    ensures Stamped(G.Apply(key, sigOk, s, st))
  {
    var after := G.Apply(key, sigOk, s, st);
    if st.ExpireReviews? {
      forall i | i in after.log && Held(i) ensures i in s.log {
        var k :| 0 <= k < |after.log| && after.log[k] == i;
        assert s.log[k] == i;
      }
    }
  }

  lemma RunKeepsStamped(key: string -> int, sigOk: Mandate -> bool, rows: seq<Mandate>, steps: seq<WorldStep>)
    requires Play(Stepper(key, sigOk), Start(rows), steps).Some?
    ensures Stamped(Play(Stepper(key, sigOk), Start(rows), steps).value.store)
  {
    var step := Stepper(key, sigOk);
    forall w: World, st | Stamped(w.store) && st in steps && step(w, st).Some? ensures Stamped(step(w, st).value.store) {
      StoreAfter(key, sigOk, w, st);
      if st.Evaluating? { StepKeepsStamped(key, sigOk, w.store, st.st); }
    }
    PlayKeeps(step, (w: World) => Stamped(w.store), Start(rows), steps);
  }

  lemma DayWithinCap(log: seq<Intent>, cells: map<nat, Cell>, m: Mandate, a: int)
    requires G.Sound(log) && Backed(log, cells) && m.maxDailyAmount >= 0
    requires JudgedThroughout(log, m, Daily, a) && InOrder(log, m, DAY) && SpelledAlike(log, m)
    ensures SettledTotal(log, cells, m.who, a, a + DAY) <= m.maxDailyAmount
  {
    assert SpendSince(log, m, a, a + DAY, Everything) <= m.maxDailyAmount by { EveryWindowWithinLimit(log, m, Daily, a); }
    SettledAtMostSpent(log, cells, m, a, a + DAY);
  }

  /** End to end. In every reachable state of a run without misfires, and for every mandate and 24h interval:
      if the mandate judged what was stamped there, no clock reading reached the log up to a day behind an earlier
      one, and the agent spells the currency as the mandate does, then all the money ever settled for intents stamped
      in the interval, once per settlement event of every row, is at most the mandate's daily cap. */
  lemma SettledWithinDailyCap(key: string -> int, sigOk: Mandate -> bool, rows: seq<Mandate>, steps: seq<WorldStep>, m: Mandate, a: int)
    requires Play(Stepper(key, sigOk), Start(rows), steps).Some? && Along(Stepper(key, sigOk), Apart, Start(rows), steps)
    requires m.maxDailyAmount >= 0
    ensures var w := Play(Stepper(key, sigOk), Start(rows), steps).value;
            InOrder(w.store.log, m, DAY) && SpelledAlike(w.store.log, m) && JudgedThroughout(w.store.log, m, Daily, a)
            ==> SettledTotal(w.store.log, w.cells, m.who, a, a + DAY) <= m.maxDailyAmount
  {
    var w := Play(Stepper(key, sigOk), Start(rows), steps).value;
    RunKeepsInv(key, sigOk, rows, steps);
    if InOrder(w.store.log, m, DAY) && SpelledAlike(w.store.log, m) && JudgedThroughout(w.store.log, m, Daily, a) {
      DayWithinCap(w.store.log, w.cells, m, a);
    }
  }

  /** A mandate in the table and live at every evaluation of its agent inside the interval judged everything stamped
      there, whenever it was created and whatever becomes of it later. */
  lemma ActiveThroughoutJudges(key: string -> int, sigOk: Mandate -> bool, rows: seq<Mandate>, steps: seq<WorldStep>, m: Mandate, a: int)
    requires Play(Stepper(key, sigOk), Start(rows), steps).Some? && Along(Stepper(key, sigOk), Watching(m, a), Start(rows), steps)
    ensures JudgedThroughout(Play(Stepper(key, sigOk), Start(rows), steps).value.store.log, m, Daily, a)
  {
    RunKeepsPresides(key, sigOk, rows, steps, m, a);
    RunKeepsStamped(key, sigOk, rows, steps);
    PresidedThroughout(Play(Stepper(key, sigOk), Start(rows), steps).value.store, m, a);
  }

  /** Both together: the daily cap bounds what was settled for any 24h throughout which the mandate was active at every
      evaluation of its agent. */
  lemma SettledWhileActive(key: string -> int, sigOk: Mandate -> bool, rows: seq<Mandate>, steps: seq<WorldStep>, m: Mandate, a: int)
    requires Play(Stepper(key, sigOk), Start(rows), steps).Some? && Along(Stepper(key, sigOk), Apart, Start(rows), steps)
    requires Along(Stepper(key, sigOk), Watching(m, a), Start(rows), steps) && m.maxDailyAmount >= 0
    ensures var w := Play(Stepper(key, sigOk), Start(rows), steps).value;
            InOrder(w.store.log, m, DAY) && SpelledAlike(w.store.log, m)
            ==> SettledTotal(w.store.log, w.cells, m.who, a, a + DAY) <= m.maxDailyAmount
  {
    ActiveThroughoutJudges(key, sigOk, rows, steps, m, a);
    SettledWithinDailyCap(key, sigOk, rows, steps, m, a);
  }

  /** In every reachable state of a run without misfires the rows that execute payments are exactly the allowed
      intents, one each with the amount and currency the intent was allowed for, short of those whose minting commit is
      still to come; each executes at most once and settles at most once. */
  lemma EveryRowBacksOneIntent(key: string -> int, sigOk: Mandate -> bool, rows: seq<Mandate>, steps: seq<WorldStep>, k: nat)
    requires Play(Stepper(key, sigOk), Start(rows), steps).Some? && Along(Stepper(key, sigOk), Apart, Start(rows), steps)
    ensures var w := Play(Stepper(key, sigOk), Start(rows), steps).value;
            && (k in w.cells || k in w.minting <==> k < |w.store.log| && w.store.log[k].decision == ALLOW)
            && !(k in w.cells && k in w.minting)
            && (k in w.cells ==> CellFor(w.store.log[k], w.cells[k])
                                 && w.cells[k].executions + w.cells[k].inFlight <= 1 && Settlements(w.cells[k].row.audit) <= 1)
  {
    RunKeepsInv(key, sigOk, rows, steps);
  }
}

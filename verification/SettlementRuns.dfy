/** Whole runs of one authorization and its provider transaction: any interleaving of consumers,
    revokers, webhooks, confirmations, reconciliations, worker visits and refunds, against a
    provider that may answer anything. Each step is one committed section reading the current row. */
module SettlementRuns {
  import opened Text
  import opened Runs
  import opened Transitions
  import opened Settlement

  /** The row with its authorization's counter and, as history, how many executions are reserved
      and not begun, how many have begun, and whether a revoke succeeded. */
  datatype Cell = Cell(auth: Auth, maxUsage: nat, usage: nat, row: Row, inFlight: nat, executions: nat, revoked: bool)

  datatype RowStep =
    | Reserve
    | Revoke
    | Begin(x: Execution)
    | Hook(w: Webhook, seenElsewhere: bool, otherOrg: bool)
    | Confirm(read: Read<Payment>)
    | Manual(said: Reads)
    | Sweep(said: Reads)
    | Visit(said: Reads)
    | GiveBack(asked: Option<int>, accepted: bool)

  function NewCell(auth: Auth): Cell {
    Cell(auth, 1, 0, Row(AUTHORIZED, None, None, None, 0, []), 0, 0, false)
  }

  /** An execution needs a reservation; a webhook finds the row by its order. */
  predicate Enabled(c: Cell, st: RowStep) {
    (st.Begin? ==> c.inFlight > 0) && (st.Hook? ==> c.row.orderId.Some?)
  }

  function Apply(c: Cell, st: RowStep): Cell
    requires Enabled(c, st)
  {
    match st
    case Reserve =>
      if c.usage >= c.maxUsage then c
      else c.(usage := c.usage + 1, inFlight := c.inFlight + 1, row := c.row.(attempts := c.row.attempts + 1))
    case Revoke => if c.usage >= c.maxUsage then c else c.(usage := c.maxUsage, revoked := true)
    case Begin(x) => c.(inFlight := c.inFlight - 1, executions := c.executions + 1, row := Execute(c.row, c.auth, x))
    case Hook(w, seen, other) => c.(row := ReceiveWebhook(c.row, c.auth, w, seen, other))
    case Confirm(read) => c.(row := ConfirmCapture(c.row, c.auth, read))
    case Manual(said) => c.(row := ReconcileNow(c.row, c.auth, said))
    case Sweep(said) => c.(row := Reconcile(c.row, c.auth, said).row)
    case Visit(said) => c.(row := WorkerVisit(c.row, c.auth, said))
    case GiveBack(asked, accepted) => c.(row := Refund(c.row, c.auth, asked, accepted))
  }

  ghost function Stepper(): (Cell, RowStep) -> Option<Cell> {
    (c: Cell, st: RowStep) => if Enabled(c, st) then Some(Apply(c, st)) else None
  }

  // ------------------------------------------------------------------ what history says

  predicate IsSettlement(e: Event) {
    e.SettlementConfirmed? || e.AgenticSettlement? || (e.Reconciled? && e.to == PAID)
  }

  predicate IsSubmission(e: Event) {
    e.AuthorizationConsumed? || e.OrderSubmitted? || e.ProviderSubmitted?
  }

  function Settlements(audit: seq<Event>): nat {
    if |audit| == 0 then 0 else Settlements(audit[..|audit| - 1]) + if IsSettlement(audit[|audit| - 1]) then 1 else 0
  }

  function Refunds(audit: seq<Event>): nat {
    if |audit| == 0 then 0 else Refunds(audit[..|audit| - 1]) + if audit[|audit| - 1].RefundIssued? then 1 else 0
  }

  /** What every reachable row satisfies: it is settled exactly when its history holds one settlement
      event, refunded exactly when it holds one refund, and some states are never entered. */
  ghost predicate RowInv(r: Row) {
    && Settlements(r.audit) == (if Settled(r.state) then 1 else 0)
    && Refunds(r.audit) == (if r.state == REFUNDED then 1 else 0)
    && (r.orderId.Some? ==> r.state != AUTHORIZED)
    && !NeverEntered(r.state)
  }

  predicate NeverEntered(s: State) {
    s == CANCELLED || s == EXPIRED || s == REVERSED || s == PAYMENT_PENDING
  }

  /** `after` is `before` with at most one event appended; the invariant then follows from states. */
  lemma LoggedCounts(audit: seq<Event>, e: Event)
    ensures Settlements(audit + [e]) == Settlements(audit) + if IsSettlement(e) then 1 else 0
    ensures Refunds(audit + [e]) == Refunds(audit) + if e.RefundIssued? then 1 else 0
  {
    assert (audit + [e])[..|audit|] == audit;
  }

  /** One more event: a settlement takes an unsettled row to PAID, any other event that is not a refund leaves
      settledness alone. */
  lemma EventKeeps(r: Row, to: Row, e: Event)
    requires RowInv(r) && to.audit == r.audit + [e] && to.orderId == r.orderId && !e.RefundIssued?
    requires if IsSettlement(e) then !Settled(r.state) && to.state == PAID && r.state != AUTHORIZED
             else to.state == r.state || (!Settled(r.state) && !Settled(to.state) && to.state != AUTHORIZED && !NeverEntered(to.state))
    ensures RowInv(to)
  {
    LoggedCounts(r.audit, e);
  }

  /** From `r` to `to` a row settles at most by being PAID, and a settled row does not move. */
  predicate Steady(r: Row, to: Row) {
    && (Settled(r.state) ==> to.state == r.state)
    && (!Settled(r.state) && Settled(to.state) ==> to.state == PAID)
  }

  /** A capture moves the state alone, to one that is not settled, or settles the row on the exact value read back. */
  lemma CaptureEffect(r: Row, auth: Auth, capture: Reply<CaptureStatus>, read: Reply<Payment>)
    requires r.state == PROVIDER_SUBMITTED
    ensures var to := Capture(r, auth, capture, read);
            || (to == r.(state := to.state) && !Settled(to.state) && !NeverEntered(to.state) && to.state != AUTHORIZED)
            || (to == Logged(r.(state := PAID), AgenticSettlement) && capture == Answer(CaptureDone) && read.Answer?
                && read.value.status == Captured && Exact(auth, read.value))
  {
  }

  lemma CaptureKeeps(r: Row, auth: Auth, capture: Reply<CaptureStatus>, read: Reply<Payment>)
    requires RowInv(r) && r.state == PROVIDER_SUBMITTED
    ensures var to := Capture(r, auth, capture, read);
            RowInv(to) && (Settled(to.state) ==> to.state == PAID && capture == Answer(CaptureDone) && read.Answer?
                                                 && read.value.status == Captured && Exact(auth, read.value))
  {
    CaptureEffect(r, auth, capture, read);
    LoggedCounts(r.audit, AgenticSettlement);
  }

  /** A fallback to FAILED or PROVIDER_UNKNOWN neither settles nor unsettles. */
  lemma GuardedKeeps(r: Row, to: State)
    requires RowInv(r) && (to == FAILED || to == PROVIDER_UNKNOWN)
    ensures RowInv(Guarded(r, to)) && Steady(r, Guarded(r, to)) && Settled(Guarded(r, to).state) == Settled(r.state)
  {
  }

  lemma SentKeeps(r: Row, order: Option<string>)
    requires RowInv(r) && Legal(r.state, PROVIDER_SUBMITTED)
    ensures var sent := Logged(r.(orderId := order, state := PROVIDER_SUBMITTED), AuthorizationConsumed);
            RowInv(sent) && RowInv(Logged(sent, OrderSubmitted)) && !Settled(r.state)
  {
    LoggedCounts(r.audit, AuthorizationConsumed);
    LoggedCounts(r.audit + [AuthorizationConsumed], OrderSubmitted);
  }

  lemma HeldKeeps(r: Row, order: Option<string>)
    requires RowInv(r) && !Legal(r.state, PROVIDER_SUBMITTED)
    ensures RowInv(r.(orderId := order))
  {
  }

  lemma StandardKeeps(r: Row, auth: Auth, order: Reply<Order>)
    requires RowInv(r)
    ensures var to := Execute(r, auth, Standard(order));
            RowInv(to) && Settled(to.state) == Settled(r.state) && Steady(r, to)
  {
    if order.TimedOut? {
      GuardedKeeps(r, PROVIDER_UNKNOWN);
    } else if order.Broke? || !OrderMatches(auth, order.value) {
      GuardedKeeps(r, FAILED);
    } else {
      var held := r.(orderId := order.value.id);
      if Legal(r.state, PROVIDER_SUBMITTED) {
        SentKeeps(r, order.value.id);
        GuardedKeeps(Logged(held.(state := PROVIDER_SUBMITTED), AuthorizationConsumed), FAILED);
      } else {
        HeldKeeps(r, order.value.id);
        GuardedKeeps(held, FAILED);
      }
    }
  }

  lemma AgenticKeeps(r: Row, auth: Auth, x: Execution)
    requires RowInv(r) && x.Agentic?
    ensures var to := Execute(r, auth, x);
            RowInv(to) && Steady(r, to) && (!Settled(r.state) && Settled(to.state) ==> SawCapture(Begin(x), auth))
  {
    var stop := Preflight(x.bound, x.validate, x.authorize);
    if stop.Some? {
      GuardedKeeps(r, stop.value);
    } else if !Legal(r.state, PROVIDER_SUBMITTED) {
      GuardedKeeps(r, FAILED);
    } else {
      SubmittedKeeps(r, x.authorize.value.value);
      CaptureKeeps(Submitted(r, x.authorize.value.value), auth, x.capture, x.read);
    }
  }

  lemma SubmittedKeeps(r: Row, reference: string)
    requires RowInv(r) && Legal(r.state, PROVIDER_SUBMITTED)
    ensures RowInv(Submitted(r, reference)) && !Settled(r.state)
  {
    LoggedCounts(r.audit, AuthorizationConsumed);
    LoggedCounts(r.audit + [AuthorizationConsumed], ProviderSubmitted);
  }

  lemma ExecuteKeeps(r: Row, auth: Auth, x: Execution)
    requires RowInv(r)
    ensures var to := Execute(r, auth, x);
            RowInv(to) && Steady(r, to) && (!Settled(r.state) && Settled(to.state) ==> SawCapture(Begin(x), auth))
  {
    match x {
      case Agentic(_, _, _, _, _) => AgenticKeeps(r, auth, x);
      case Standard(order) => StandardKeeps(r, auth, order);
      case NoCapability =>
    }
  }

  lemma RefundKeeps(r: Row, auth: Auth, asked: Option<int>, accepted: bool)
    requires RowInv(r)
    ensures var to := Refund(r, auth, asked, accepted);
            RowInv(to) && (to == r || (r.state == PAID && to.state == REFUNDED && accepted))
  {
    LoggedCounts(r.audit, RefundIssued(if asked.Some? then asked.value else auth.amount));
  }

  lemma MoveKeeps(r: Row, to: State)
    requires RowInv(r) && !Terminal(r.state) && to != REVERSED && to != REFUNDED && to != PAYMENT_PENDING
    requires r.orderId.Some? || (to != CANCELLED && to != EXPIRED)
    ensures RowInv(Move(r, to).row) && (Settled(Move(r, to).row.state) ==> to == PAID)
  {
    LoggedCounts(r.audit, Reconciled(r.state, to));
  }

  /** What adopting a payment's word can do: nothing, note a mismatch, or one move of the table. */
  lemma AdoptEffect(r: Row, auth: Auth, p: Payment)
    ensures var to := AdoptPayment(r, auth, p).row;
            || to == r || to == Logged(r, ValueMismatch)
            || to == Move(r, DECLINED).row || to == Move(r, FAILED).row || to == Move(r, PROVIDER_AUTHORIZED).row
            || (to == Move(r, PAID).row.(paymentId := to.paymentId) && p.status == Captured && Tolerated(auth, p))
  {
  }

  lemma AdoptPaymentKeeps(r: Row, auth: Auth, p: Payment)
    requires RowInv(r) && !Terminal(r.state)
    ensures var to := AdoptPayment(r, auth, p).row;
            RowInv(to) && (Settled(to.state) ==> to.state == PAID && p.status == Captured && Tolerated(auth, p))
  {
    AdoptEffect(r, auth, p);
    MoveKeeps(r, DECLINED);
    MoveKeeps(r, FAILED);
    MoveKeeps(r, PROVIDER_AUTHORIZED);
    MoveKeeps(r, PAID);
    LoggedCounts(r.audit, ValueMismatch);
  }

  lemma ReconcileKeeps(r: Row, auth: Auth, said: Reads)
    requires RowInv(r)
    ensures var o := Reconcile(r, auth, said);
            && RowInv(o.row) && Steady(r, o.row)
            && (Settled(r.state) ==> o.row == r)
            && (!Settled(r.state) && Settled(o.row.state) ==> ReadCapture(said, auth))
  {
    if !Terminal(r.state) && said.configured && !(r.state == PROVIDER_UNKNOWN && r.orderId.None? && said.receipt.Raised?) {
      var a := AdoptOrder(r, said.receipt);
      assert RowInv(a) && a.state == r.state;
      if HoldsReference(a) && said.payment.Got? && said.payment.found.Some? {
        AdoptPaymentKeeps(a, auth, said.payment.found.value);
        if a.orderId.Some? {
          MoveKeeps(a, CANCELLED);
          MoveKeeps(a, EXPIRED);
        }
      }
    }
  }

  predicate ReadCapture(said: Reads, auth: Auth) {
    && said.payment.Got? && said.payment.found.Some?
    && said.payment.found.value.status == Captured && Tolerated(auth, said.payment.found.value)
  }

  /** The step made a direct provider read that reported a capture and nothing contradicting the
      authorization; the agentic path demands the exact value, reconciliation tolerates silence. */
  predicate SawCapture(st: RowStep, auth: Auth) {
    match st
    case Begin(x) => x.Agentic? && x.capture == Answer(CaptureDone) && x.read.Answer?
                     && x.read.value.status == Captured && Exact(auth, x.read.value)
    case Confirm(read) => read.Got? && read.found.Some? && read.found.value.status == Captured && Tolerated(auth, read.found.value)
    case Manual(said) => ReadCapture(said, auth)
    case Sweep(said) => ReadCapture(said, auth)
    case Visit(said) => ReadCapture(said, auth)
    case _ => false
  }

  /** A webhook leaves the row alone, notes a rejection, or moves it as the table allows. */
  lemma HookEffect(r: Row, auth: Auth, w: Webhook, seen: bool, other: bool)
    ensures var to := ReceiveWebhook(r, auth, w, seen, other);
            || to == r || to == Logged(r, WebhookRejected)
            || (w.kind != Unsupported && Legal(r.state, WebhookTarget(w.kind)) && to.state == WebhookTarget(w.kind)
                && to.orderId == r.orderId && to.audit == r.audit + [WebhookApplied(to.state)])
  {
  }

  lemma HookKeeps(r: Row, auth: Auth, w: Webhook, seen: bool, other: bool)
    requires RowInv(r)
    ensures var to := ReceiveWebhook(r, auth, w, seen, other);
            RowInv(to) && Steady(r, to) && Settled(to.state) == Settled(r.state)
  {
    var to := ReceiveWebhook(r, auth, w, seen, other);
    HookEffect(r, auth, w, seen, other);
    LoggedCounts(r.audit, WebhookRejected);
    LoggedCounts(r.audit, WebhookApplied(to.state));
  }

  /** A confirmation leaves the row alone, notes a mismatch, settles on the capture it read, or withdraws a
      capture the provider denies. */
  lemma ConfirmEffect(r: Row, auth: Auth, read: Read<Payment>)
    ensures var to := ConfirmCapture(r, auth, read);
            || to == r || to == Logged(r, ValueMismatch)
            || (Legal(r.state, PAID) && to.state == PAID && to.orderId == r.orderId && to.audit == r.audit + [SettlementConfirmed]
                && SawCapture(Confirm(read), auth))
            || (Legal(r.state, PROVIDER_UNKNOWN) && to == Logged(r.(state := PROVIDER_UNKNOWN), SettlementNotConfirmed))
  {
  }

  lemma ConfirmKeeps(r: Row, auth: Auth, read: Read<Payment>)
    requires RowInv(r)
    ensures var to := ConfirmCapture(r, auth, read);
            RowInv(to) && Steady(r, to) && (!Settled(r.state) && Settled(to.state) ==> SawCapture(Confirm(read), auth))
  {
    var to := ConfirmCapture(r, auth, read);
    ConfirmEffect(r, auth, read);
    if Legal(r.state, PAID) && to.state == PAID && to.audit == r.audit + [SettlementConfirmed] {
      EventKeeps(r, to, SettlementConfirmed);
    } else if to == Logged(r, ValueMismatch) {
      EventKeeps(r, to, ValueMismatch);
    } else if to != r {
      EventKeeps(r, to, SettlementNotConfirmed);
    }
  }

  /** The worker may have selected the row before somebody else settled it. */
  lemma VisitKeeps(r: Row, auth: Auth, said: Reads)
    requires RowInv(r)
    ensures var to := WorkerVisit(r, auth, said);
            RowInv(to) && Steady(r, to) && (!Settled(r.state) && Settled(to.state) ==> ReadCapture(said, auth))
  {
    ReconcileKeeps(r, auth, said);
    LoggedCounts(Reconcile(r, auth, said).row.audit, DeadLettered);
  }

  /** A row settles only in a step that saw the capture itself; once settled it only ever moves
      from PAID to REFUNDED, by a refund. A webhook alone settles nothing. */
  lemma StepSettlesOnlyOnCapture(c: Cell, st: RowStep)
    requires RowInv(c.row) && Enabled(c, st)
    ensures var after := Apply(c, st);
            && RowInv(after.row) && after.auth == c.auth
            && (!Settled(c.row.state) && Settled(after.row.state) ==> after.row.state == PAID && SawCapture(st, c.auth) && !st.Hook?)
            && (Settled(c.row.state) ==> after.row.state == c.row.state
                                         || (c.row.state == PAID && after.row.state == REFUNDED && st.GiveBack? && st.accepted))
  {
    match st {
      case Begin(x) => ExecuteKeeps(c.row, c.auth, x);
      case Hook(w, seen, other) => HookKeeps(c.row, c.auth, w, seen, other);
      case Confirm(read) => ConfirmKeeps(c.row, c.auth, read);
      case Manual(said) => ReconcileKeeps(c.row, c.auth, said);
      case Sweep(said) => ReconcileKeeps(c.row, c.auth, said);
      case Visit(said) => VisitKeeps(c.row, c.auth, said);
      case GiveBack(asked, accepted) => RefundKeeps(c.row, c.auth, asked, accepted);
      case _ =>
    }
  }

  // ------------------------------------------------------------------ over whole runs

  /** How many steps of a run take the row from unsettled to settled. */
  ghost function TimesSettled(c: Cell, steps: seq<RowStep>): nat
    requires Play(Stepper(), c, steps).Some?
    decreases |steps|
  {
    if |steps| == 0 then 0 else
      var next := Apply(c, steps[0]);
      (if !Settled(c.row.state) && Settled(next.row.state) then 1 else 0) + TimesSettled(next, steps[1..])
  }

  lemma {:induction false} SettlesAtMostOnce(c: Cell, steps: seq<RowStep>)
    requires RowInv(c.row) && Play(Stepper(), c, steps).Some?
    ensures var end := Play(Stepper(), c, steps).value;
            && RowInv(end.row) && end.auth == c.auth
            && (Settled(c.row.state) ==> Settled(end.row.state))
            && TimesSettled(c, steps) == (if Settled(end.row.state) then 1 else 0) - (if Settled(c.row.state) then 1 else 0)
            && (Settled(end.row.state) && !Settled(c.row.state) ==> exists st :: st in steps && SawCapture(st, c.auth))
    decreases |steps|
  {
    if |steps| > 0 {
      StepSettlesOnlyOnCapture(c, steps[0]);
      SettlesAtMostOnce(Apply(c, steps[0]), steps[1..]);
      assert steps[0] in steps;
    }
  }

  /** Corroborated settlement. In every run of a fresh authorization the row becomes PAID at most
      once, and if it is settled at the end then some step read the capture from the provider and
      its history holds exactly one settlement event; if it is not settled its history holds none. */
  lemma CorroboratedSettlement(auth: Auth, steps: seq<RowStep>)
    requires Play(Stepper(), NewCell(auth), steps).Some?
    ensures var end := Play(Stepper(), NewCell(auth), steps).value;
            && TimesSettled(NewCell(auth), steps) == Settlements(end.row.audit) <= 1
            && (Settled(end.row.state) <==> Settlements(end.row.audit) == 1)
            && (Settled(end.row.state) ==> exists st :: st in steps && SawCapture(st, auth))
            && Refunds(end.row.audit) <= 1
  {
    SettlesAtMostOnce(NewCell(auth), steps);
  }

  /** CANCELLED, EXPIRED, REVERSED and PAYMENT_PENDING are in the table but no run enters them:
      reconciliation looks at order status only for rows holding an order, and no such row is
      still AUTHORIZED, the only state the table lets expire or be cancelled. */
  lemma DeadStates(auth: Auth, steps: seq<RowStep>)
    requires Play(Stepper(), NewCell(auth), steps).Some?
    ensures !NeverEntered(Play(Stepper(), NewCell(auth), steps).value.row.state)
  {
    SettlesAtMostOnce(NewCell(auth), steps);
  }

  // ------------------------------------------------------------------ dead letters

  /** A dead-lettered row has been attempted often enough. */
  ghost predicate LettersEarned(r: Row) {
    DeadLettered in r.audit ==> r.attempts >= DEAD_LETTER_AFTER
  }

  /** Everything but a worker's visit and a reservation leaves the attempts alone and letters nothing. */
  ghost predicate Unlettered(r: Row, to: Row) {
    to.attempts == r.attempts && (DeadLettered in to.audit ==> DeadLettered in r.audit)
  }

  lemma ExecuteUnlettered(r: Row, auth: Auth, x: Execution)
    ensures Unlettered(r, Execute(r, auth, x))
  {
  }

  /** A reconciliation leaves the row, adopts an order, follows the order's end or adopts the payment's word. */
  lemma ReconcileEffect(r: Row, auth: Auth, said: Reads)
    ensures var a := AdoptOrder(r, said.receipt);
            var to := Reconcile(r, auth, said).row;
            || to == r || to == a || to == Move(a, CANCELLED).row || to == Move(a, EXPIRED).row
            || (said.payment.Got? && said.payment.found.Some? && to == AdoptPayment(a, auth, said.payment.found.value).row)
  {
  }

  lemma MoveUnlettered(r: Row, to: State)
    ensures Unlettered(r, Move(r, to).row)
  {
  }

  lemma AdoptUnlettered(r: Row, auth: Auth, p: Payment)
    ensures Unlettered(r, AdoptPayment(r, auth, p).row)
  {
    AdoptEffect(r, auth, p);
  }

  lemma ReconcileUnlettered(r: Row, auth: Auth, said: Reads)
    ensures Unlettered(r, Reconcile(r, auth, said).row)
  {
    var a := AdoptOrder(r, said.receipt);
    ReconcileEffect(r, auth, said);
    MoveUnlettered(a, CANCELLED);
    MoveUnlettered(a, EXPIRED);
    if said.payment.Got? && said.payment.found.Some? { AdoptUnlettered(a, auth, said.payment.found.value); }
  }

  lemma StepKeepsLetters(c: Cell, st: RowStep)
    requires LettersEarned(c.row) && Enabled(c, st)
    ensures LettersEarned(Apply(c, st).row) && Apply(c, st).row.attempts >= c.row.attempts
  {
    match st {
      case Begin(x) => ExecuteUnlettered(c.row, c.auth, x);
      case Hook(w, seen, other) => HookEffect(c.row, c.auth, w, seen, other);
      case Confirm(read) => ConfirmEffect(c.row, c.auth, read);
      case Manual(said) => ReconcileUnlettered(c.row, c.auth, said);
      case Sweep(said) => ReconcileUnlettered(c.row, c.auth, said);
      case Visit(said) => ReconcileUnlettered(c.row, c.auth, said);
      case _ =>
    }
  }

  /** No run dead-letters a row that was attempted fewer than five times, counting reservations and the visits
      that did not reconcile it. */
  lemma DeadLettersAreEarned(auth: Auth, steps: seq<RowStep>)
    requires Play(Stepper(), NewCell(auth), steps).Some?
    ensures LettersEarned(Play(Stepper(), NewCell(auth), steps).value.row)
  {
    forall c: Cell, st | LettersEarned(c.row) && st in steps && Stepper()(c, st).Some? ensures LettersEarned(Stepper()(c, st).value.row) {
      StepKeepsLetters(c, st);
    }
    PlayKeeps(Stepper(), (c: Cell) => LettersEarned(c.row), NewCell(auth), steps);
  }

  /** A visit at which the provider's payment cannot be read. */
  predicate Fruitless(st: RowStep) {
    st.Visit? && st.said.configured && st.said.payment.Raised? && !st.said.receipt.Raised?
  }

  lemma FruitlessVisit(c: Cell, st: RowStep)
    requires Fruitless(st) && Legal(c.row.state, PROVIDER_UNKNOWN)
    ensures var after := Apply(c, st).row;
            after.attempts == c.row.attempts + 1 && after.state == if after.attempts >= 5 then PROVIDER_UNKNOWN else c.row.state
  {
  }

  lemma UnknownStaysUnknown(c: Cell, st: RowStep)
    requires Fruitless(st) && c.row.state == PROVIDER_UNKNOWN
    ensures Apply(c, st).row.state == PROVIDER_UNKNOWN
  {
  }

  /** Five fruitless visits in a row, or fewer on a row attempted before, leave any row the table lets go there
      in PROVIDER_UNKNOWN, and not one visit sooner. */
  lemma {:induction false} FruitlessVisitsDeadLetter(c: Cell, steps: seq<RowStep>)
    requires Legal(c.row.state, PROVIDER_UNKNOWN) && c.row.attempts < 5 && forall st :: st in steps ==> Fruitless(st)
    ensures Play(Stepper(), c, steps).Some?
    ensures Play(Stepper(), c, steps).value.row.state
         == if c.row.attempts + |steps| >= 5 then PROVIDER_UNKNOWN else c.row.state
    decreases |steps|
  {
    if |steps| > 0 {
      assert steps[0] in steps;
      FruitlessVisit(c, steps[0]);
      if c.row.attempts + 1 < 5 {
        FruitlessVisitsDeadLetter(Apply(c, steps[0]), steps[1..]);
      } else {
        UnknownRemains(Apply(c, steps[0]), steps[1..]);
      }
    }
  }

  lemma {:induction false} UnknownRemains(c: Cell, steps: seq<RowStep>)
    requires c.row.state == PROVIDER_UNKNOWN && forall st :: st in steps ==> Fruitless(st)
    ensures Play(Stepper(), c, steps).Some? && Play(Stepper(), c, steps).value.row.state == PROVIDER_UNKNOWN
    decreases |steps|
  {
    if |steps| > 0 {
      assert steps[0] in steps;
      UnknownStaysUnknown(c, steps[0]);
      UnknownRemains(Apply(c, steps[0]), steps[1..]);
    }
  }

  // ------------------------------------------------------------------ single use

  ghost predicate UsageInv(c: Cell) {
    && c.executions + c.inFlight <= c.usage <= c.maxUsage
    && (c.revoked ==> c.usage == c.maxUsage && c.executions + c.inFlight < c.maxUsage)
    && (c.executions == 0 ==> forall e :: e in c.row.audit ==> !IsSubmission(e))
  }

  lemma QuietReconcile(r: Row, auth: Auth, said: Reads)
    requires forall e :: e in r.audit ==> !IsSubmission(e)
    ensures forall e :: e in Reconcile(r, auth, said).row.audit ==> !IsSubmission(e)
  {
  }

  lemma StepKeepsUsage(c: Cell, st: RowStep)
    requires UsageInv(c) && Enabled(c, st)
    ensures UsageInv(Apply(c, st)) && Apply(c, st).maxUsage == c.maxUsage
  {
    if c.executions == 0 && (st.Manual? || st.Sweep? || st.Visit?) { QuietReconcile(c.row, c.auth, st.said); }
  }

  /** Single use. However many consumers and revokers interleave, the counter never passes its
      maximum of one, at most one provider execution is begun or reserved, and after a successful
      revoke none ever is: nothing was submitted to the provider. */
  lemma SingleUse(auth: Auth, steps: seq<RowStep>)
    requires Play(Stepper(), NewCell(auth), steps).Some?
    ensures var end := Play(Stepper(), NewCell(auth), steps).value;
            && end.usage <= 1 && end.executions + end.inFlight <= 1
            && (end.revoked ==> end.executions == end.inFlight == 0
                                && forall e :: e in end.row.audit ==> !IsSubmission(e))
  {
    var inv := (x: Cell) => UsageInv(x) && x.maxUsage == 1;
    forall x: Cell, st | inv(x) && st in steps && Stepper()(x, st).Some? ensures inv(Stepper()(x, st).value) {
      StepKeepsUsage(x, st);
    }
    PlayKeeps(Stepper(), inv, NewCell(auth), steps);
  }

  // ------------------------------------------------------------------ convergence

  /** States from which the payment can still be recognised. */
  predicate Recoverable(r: Row) {
    && (r.state == PROVIDER_SUBMITTED || r.state == PROVIDER_AUTHORIZED || r.state == CAPTURED || r.state == PAYMENT_PENDING
        || r.state == PROVIDER_UNKNOWN || r.state == FAILED || r.state == PAID)
    && HoldsReference(r)
  }

  predicate OrderOver(o: Read<Order>) {
    o.Got? && o.found.Some? && o.found.value.status != OrderOpen
  }

  /** A read that raises, finds nothing, or reports the capture with nothing contradicting it. */
  predicate Honest(auth: Auth, read: Read<Payment>) {
    read.Got? && read.found.Some? ==> read.found.value.status == Captured && Tolerated(auth, read.found.value)
  }

  predicate Informed(auth: Auth, said: Reads) {
    && said.configured && said.payment.Got? && said.payment.found.Some?
    && said.payment.found.value.status == Captured && Tolerated(auth, said.payment.found.value)
    && !said.receipt.Raised?
  }

  /** A delivery: any webhook in any order and number, an honest or failed confirmation,
      reconciliation or worker visit, and anything that only touches the counter. */
  predicate Delivery(auth: Auth, st: RowStep) {
    match st
    case Reserve => true
    case Revoke => true
    case Hook(_, _, _) => true
    case Confirm(read) => Honest(auth, read)
    case Manual(said) => Honest(auth, said.payment) && !OrderOver(said.order)
    case Sweep(said) => Honest(auth, said.payment) && !OrderOver(said.order)
    case Visit(said) => Honest(auth, said.payment) && !OrderOver(said.order)
    case _ => false
  }

  lemma ReconcileKeepsRecoverable(r: Row, auth: Auth, said: Reads)
    requires Recoverable(r) && Honest(auth, said.payment) && !OrderOver(said.order)
    ensures Recoverable(Reconcile(r, auth, said).row)
  {
  }

  lemma DeliveryKeepsRecoverable(c: Cell, st: RowStep)
    requires Recoverable(c.row) && Delivery(c.auth, st)
    requires Enabled(c, st)
    ensures Recoverable(Apply(c, st).row) && Apply(c, st).auth == c.auth
  {
    match st {
      case Manual(said) => ReconcileKeepsRecoverable(c.row, c.auth, said);
      case Sweep(said) => ReconcileKeepsRecoverable(c.row, c.auth, said);
      case Visit(said) => ReconcileKeepsRecoverable(c.row, c.auth, said);
      case _ =>
    }
  }

  /** One informed reconciliation settles a recoverable row if and only if the order it finds,
      when the row holds one, has neither been cancelled nor expired. */
  lemma ReconcileSettlesIff(r: Row, auth: Auth, said: Reads)
    requires Recoverable(r) && Informed(auth, said)
    ensures var held := r.state != PAID && AdoptOrder(r, said.receipt).orderId.Some?;
            ReconcileNow(r, auth, said).state == PAID <==> !(held && OrderOver(said.order))
    ensures ReconcileNow(ReconcileNow(r, auth, said), auth, said) == ReconcileNow(r, auth, said)
  {
  }

  /** A row whose execution timed out before any reference was learnt: an informed reconciliation settles it
      exactly when the provider finds the order by its receipt and the order is not over. */
  lemma LostOrderIsFoundIff(r: Row, auth: Auth, said: Reads)
    requires r.state == PROVIDER_UNKNOWN && !HoldsReference(r) && Informed(auth, said)
    ensures ReconcileNow(r, auth, said).state == PAID
            <==> said.receipt.found.Some? && said.receipt.found.value.id.Some? && !OrderOver(said.order)
  {
  }

  /** Delivering one event again changes nothing once it was applied, and never moves the row; a value that is not
      exactly the authorized one moves nothing at all. */
  lemma RedeliveryMovesNothing(r: Row, auth: Auth, w: Webhook, other: bool)
    ensures var once := ReceiveWebhook(r, auth, w, false, other);
            var twice := ReceiveWebhook(once, auth, w, false, other);
            && twice.state == once.state && (once.state != r.state ==> twice == once)
            && (once.state != r.state ==> w.amount == Some(auth.amount) && w.currency.Some? && Upper(w.currency.value) == Upper(auth.currency) && !other)
  {
  }

  // ------------------------------------------------------------------ what an execution may lose

  /** An authorization whose one use has been executed. */
  function Executed(auth: Auth, x: Execution): Cell {
    Apply(Apply(NewCell(auth), Reserve), Begin(x))
  }

  /** The provider was asked to take an order or a debit, whatever came back. */
  predicate MayHaveTaken(x: Execution) {
    match x
    case NoCapability => false
    case Standard(_) => true
    case Agentic(bound, validate, _, _, _) => bound && validate == Answer(true)
  }

  /** The order call timed out, or it answered with a matching order, its id perhaps null; the debit request answered
      with a reference whose capture the provider did not then decline. A call that breaks, an order that does not
      match, a missing reference and a debit request that times out do not count. */
  predicate Learnt(auth: Auth, x: Execution) {
    match x
    case NoCapability => false
    case Standard(order) => order.TimedOut? || (order.Answer? && OrderMatches(auth, order.value) && (order.value.id.Some? || order.value.hasId))
    case Agentic(bound, validate, authorize, capture, _) =>
      bound && validate == Answer(true) && authorize.Answer? && authorize.value.Some? && capture != Answer(CaptureDeclined)
  }

  /** No order is found by its receipt. */
  predicate FindsNoOrder(st: RowStep) {
    match st
    case Manual(said) => said.receipt.Raised? || said.receipt.found.None?
    case Sweep(said) => said.receipt.Raised? || said.receipt.found.None?
    case Visit(said) => said.receipt.Raised? || said.receipt.found.None?
    case _ => true
  }

  /** The provider finds an order by receipt only if one was ever created, which the agentic path never does. */
  predicate Truthful(x: Execution, steps: seq<RowStep>) {
    x.Standard? || forall st :: st in steps ==> FindsNoOrder(st)
  }

  /** FAILED without a reference: no webhook names it and no reconciliation looks for it. DECLINED: terminal.
      PROVIDER_UNKNOWN without a reference, and no order to be found. */
  predicate Lost(r: Row, x: Execution) {
    (r.state == FAILED && !HoldsReference(r)) || r.state == DECLINED || (!x.Standard? && r.state == PROVIDER_UNKNOWN && !HoldsReference(r))
  }

  lemma LostStaysLost(c: Cell, x: Execution, st: RowStep)
    requires Lost(c.row, x) && c.inFlight == 0 && c.usage >= c.maxUsage && Enabled(c, st) && (x.Standard? || FindsNoOrder(st))
    ensures var after := Apply(c, st); Lost(after.row, x) && after.inFlight == 0 && after.usage >= after.maxUsage
    ensures c.row.state == FAILED && !HoldsReference(c.row) ==> Apply(c, st).row.state == FAILED && !HoldsReference(Apply(c, st).row)
  {
  }

  lemma {:induction false} LostForever(c: Cell, x: Execution, steps: seq<RowStep>)
    requires Lost(c.row, x) && c.inFlight == 0 && c.usage >= c.maxUsage && Play(Stepper(), c, steps).Some? && Truthful(x, steps)
    ensures Lost(Play(Stepper(), c, steps).value.row, x)
    decreases |steps|
  {
    if |steps| > 0 {
      assert steps[0] in steps;
      LostStaysLost(c, x, steps[0]);
      LostForever(Apply(c, steps[0]), x, steps[1..]);
    }
  }

  /** The row alone tells: it can be settled when it holds a reference and is not DECLINED, or an order was asked for
      and it is not FAILED. */
  lemma LearntShowsOnTheRow(auth: Auth, x: Execution)
    ensures var r := Executed(auth, x).row;
            && (Learnt(auth, x) <==> (HoldsReference(r) && r.state != DECLINED) || (x.Standard? && r.state != FAILED))
            && (!Learnt(auth, x) ==> Lost(r, x))
            && (Learnt(auth, x) ==> Recoverable(r) || (x.Standard? && !HoldsReference(r)
                                                       && (r.state == PROVIDER_UNKNOWN || r.state == PROVIDER_SUBMITTED)))
  {
  }

  /** The order is found if one was asked for, it is open, and its payment reported captured for the exact value. */
  function AllSaid(auth: Auth, ordered: bool): Reads {
    Reads(true, Got(if ordered then Some(Order(Some("order"), true, auth.id, auth.amount, auth.currency, OrderOpen)) else None),
          Got(Some(Payment(None, Captured, "", Some(auth.amount), Some(auth.currency)))), Got(None))
  }

  ghost predicate CanSettle(c: Cell, x: Execution) {
    exists steps :: Truthful(x, steps) && Play(Stepper(), c, steps).Some? && Settled(Play(Stepper(), c, steps).value.row.state)
  }

  lemma InformedSettles(c: Cell, x: Execution)
    requires Recoverable(c.row) || (x.Standard? && c.row.state == PROVIDER_UNKNOWN && !HoldsReference(c.row))
    ensures CanSettle(c, x)
  {
    var said := AllSaid(c.auth, x.Standard?);
    var steps := [Manual(said)];
    if Recoverable(c.row) { ReconcileSettlesIff(c.row, c.auth, said); } else { LostOrderIsFoundIff(c.row, c.auth, said); }
    assert steps[1..] == [];
    assert Play(Stepper(), c, steps) == Some(Apply(c, steps[0]));
  }

  /** A visit of the worker that cannot read anything. */
  function Blind(): RowStep {
    Visit(Reads(true, Got(None), Raised, Raised))
  }

  lemma BlindVisit(c: Cell)
    requires !HoldsReference(c.row)
    ensures !HoldsReference(Apply(c, Blind()).row) && Apply(c, Blind()).auth == c.auth
  {
  }

  lemma {:induction false} BlindKeepsAll(c: Cell, steps: seq<RowStep>)
    requires (forall i :: 0 <= i < |steps| ==> steps[i] == Blind()) && !HoldsReference(c.row)
    ensures Play(Stepper(), c, steps).Some?
    ensures var after := Play(Stepper(), c, steps).value; !HoldsReference(after.row) && after.auth == c.auth
    decreases |steps|
  {
    if |steps| > 0 {
      assert steps[0] == Blind();
      BlindVisit(c);
      BlindKeepsAll(Apply(c, steps[0]), steps[1..]);
    }
  }

  /** An order submitted under a null id: four visits that find nothing dead-letter the row, which lets reconciliation
      look the order up by its receipt. */
  lemma UnnamedOrderSettles(c: Cell, x: Execution)
    requires x.Standard? && c.row.state == PROVIDER_SUBMITTED && !HoldsReference(c.row) && c.row.attempts == 1
    ensures CanSettle(c, x)
  {
    var visits := [Blind(), Blind(), Blind(), Blind()];
    FruitlessVisitsDeadLetter(c, visits);
    BlindKeepsAll(c, visits);
    var unknown := Play(Stepper(), c, visits).value;
    InformedSettles(unknown, x);
    var steps :| Play(Stepper(), unknown, steps).Some? && Settled(Play(Stepper(), unknown, steps).value.row.state);
    PlayCompose(Stepper(), c, visits, steps);
    assert Truthful(x, visits + steps);
  }

  /** What an execution loses. After the one execution of an authorization some run of the remaining steps, the
      provider finding no order that was never created, settles the row if and only if the order call timed out or
      answered with a matching order, or the debit request answered with a reference. So a call the provider took and
      that then broke is lost: the table's own case of an order call that threw after the provider persisted ends
      FAILED for good. */
  lemma CanSettleIffLearnt(auth: Auth, x: Execution)
    ensures CanSettle(Executed(auth, x), x) <==> Learnt(auth, x)
  {
    LearntShowsOnTheRow(auth, x);
    var c := Executed(auth, x);
    if Learnt(auth, x) {
      if Recoverable(c.row) || c.row.state == PROVIDER_UNKNOWN { InformedSettles(c, x); } else { UnnamedOrderSettles(c, x); }
    } else {
      forall steps | Play(Stepper(), c, steps).Some? && Truthful(x, steps) ensures !Settled(Play(Stepper(), c, steps).value.row.state) {
        LostForever(c, x, steps);
      }
    }
  }

  /** The input: an order call, or a debit request, that breaks. The provider may have taken it; in every run of the
      remaining steps the row is FAILED without a reference and the money is never settled. */
  lemma BrokenCallLosesThePayment(auth: Auth, x: Execution, steps: seq<RowStep>)
    requires x == Standard(Broke) || (x.Agentic? && x.bound && x.validate == Answer(true) && x.authorize == Broke)
    requires Play(Stepper(), Executed(auth, x), steps).Some?
    ensures MayHaveTaken(x) && !CanSettle(Executed(auth, x), x)
    ensures var r := Play(Stepper(), Executed(auth, x), steps).value.row; r.state == FAILED && !HoldsReference(r)
  {
    CanSettleIffLearnt(auth, x);
    BrokenStays(Executed(auth, x), steps);
  }

  lemma {:induction false} BrokenStays(c: Cell, steps: seq<RowStep>)
    requires c.row.state == FAILED && !HoldsReference(c.row) && c.inFlight == 0 && c.usage >= c.maxUsage && Play(Stepper(), c, steps).Some?
    ensures var r := Play(Stepper(), c, steps).value.row; r.state == FAILED && !HoldsReference(r)
    decreases |steps|
  {
    if |steps| > 0 {
      LostStaysLost(c, Standard(Broke), steps[0]);
      BrokenStays(Apply(c, steps[0]), steps[1..]);
    }
  }

  /** Delivery-order convergence. Take a row holding a provider reference and deliver any webhooks
      (captured, authorized, failed, with any values) in any order and with any duplication, among
      failed or honest confirmations, reconciliations and worker visits, dead-lettering included.
      One informed reconciliation then leaves it PAID, and reconciling again changes nothing. */
  lemma {:induction false} AnyDeliveryOrderConverges(c: Cell, steps: seq<RowStep>, said: Reads, again: Reads)
    requires Recoverable(c.row) && Informed(c.auth, said) && !OrderOver(said.order)
    requires (forall st :: st in steps ==> Delivery(c.auth, st)) && Play(Stepper(), c, steps).Some?
    ensures var paid := ReconcileNow(Play(Stepper(), c, steps).value.row, c.auth, said);
            paid.state == PAID && ReconcileNow(paid, c.auth, again) == paid
    decreases |steps|
  {
    if |steps| == 0 {
      ReconcileSettlesIff(c.row, c.auth, said);
    } else {
      assert steps[0] in steps;
      DeliveryKeepsRecoverable(c, steps[0]);
      AnyDeliveryOrderConverges(Apply(c, steps[0]), steps[1..], said, again);
    }
  }
}

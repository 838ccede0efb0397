/** Sessions that write a row they loaded before somebody else changed it. A session does not re-read
    (app/database.py turns autoflush off and no row carries a version), and a flush writes the columns it changed and
    appends its audit events. Here loading and writing are two steps, for every writer of a provider transaction. */
module StaleWrites {
  import opened Text
  import opened Runs
  import opened Flushing
  import opened Transitions
  import opened Settlement
  import opened SettlementRuns

  /** What a session does between loading the row and committing. The worker's visit commits once when it settles or
      learns nothing it may keep, and otherwise commits, re-reads and counts the attempt in a second section. */
  datatype Writer =
    | ByWebhook(w: Webhook, seenElsewhere: bool, otherOrg: bool)
    | ByConfirm(read: Read<Payment>)
    | ByExecution(x: Execution)
    | ByReconciliation(said: Reads)
    | ByVisit(said: Reads)
    | ByAttempt
    | ByRefund(asked: Option<int>, accepted: bool)

  // ------------------------------------------------------------------ one flush

  function Noted(loaded: Row, result: Row): seq<Event> {
    if |loaded.audit| <= |result.audit| then result.audit[|loaded.audit|..] else []
  }

  /** The row in the database after a session that loaded `loaded` flushes `result` over `now`. */
  function Flush(now: Row, loaded: Row, result: Row): Row {
    Row(Column(now.state, loaded.state, result.state),
        Column(now.orderId, loaded.orderId, result.orderId),
        Column(now.paymentId, loaded.paymentId, result.paymentId),
        Column(now.webhookEventId, loaded.webhookEventId, result.webhookEventId),
        Column(now.attempts, loaded.attempts, result.attempts),
        now.audit + Noted(loaded, result))
  }

  /** The visit goes on to count an attempt in a second section. */
  predicate CountsLater(o: Reconciliation) {
    o.committed && o.status != Settles && o.status != Crashed
  }

  /** The row in the session's memory when it commits. */
  function Image(loaded: Row, auth: Auth, job: Writer): Row {
    match job
    case ByWebhook(w, seen, other) => ReceiveWebhook(loaded, auth, w, seen, other)
    case ByConfirm(read) => ConfirmCapture(loaded, auth, read)
    case ByExecution(x) => Execute(loaded, auth, x)
    case ByReconciliation(said) => ReconcileNow(loaded, auth, said)
    case ByVisit(said) =>
      var o := Reconcile(loaded, auth, said);
      if CountsLater(o) then o.row else WorkerVisit(loaded, auth, said)
    case ByAttempt => CountAttempt(loaded)
    case ByRefund(asked, accepted) => Refund(loaded, auth, asked, accepted)
  }

  /** The agentic path flushes once before it captures, and once more when it commits. */
  predicate SubmitsDebit(loaded: Row, job: Writer) {
    && job.ByExecution? && job.x.Agentic? && Legal(loaded.state, PROVIDER_SUBMITTED)
    && Preflight(job.x.bound, job.x.validate, job.x.authorize).None?
  }

  function Write(now: Row, loaded: Row, auth: Auth, job: Writer): Row {
    if SubmitsDebit(loaded, job) then
      var sent := Submitted(loaded, job.x.authorize.value.value);
      Flush(Flush(now, loaded, sent), sent, Image(loaded, auth, job))
    else
      Flush(now, loaded, Image(loaded, auth, job))
  }

  // ------------------------------------------------------------------ which writes undo a settlement

  predicate WebhookUnsettles(loaded: Row, auth: Auth, w: Webhook, seen: bool, other: bool) {
    && !other && !seen && loaded.webhookEventId != Some(w.eventId) && w.kind != Unsupported
    && w.amount == Some(auth.amount) && w.currency.Some? && Upper(w.currency.value) == Upper(auth.currency)
    && Legal(loaded.state, WebhookTarget(w.kind))
  }

  predicate ConfirmUnsettles(loaded: Row, read: Read<Payment>) {
    && HoldsReference(loaded) && read.Got? && read.found.Some? && read.found.value.status == Failed
    && Legal(loaded.state, PROVIDER_UNKNOWN)
  }

  predicate ExecutionUnsettles(loaded: Row, auth: Auth, x: Execution) {
    match x
    case NoCapability => Legal(loaded.state, FAILED)
    case Standard(order) => Legal(loaded.state, if order.TimedOut? then PROVIDER_UNKNOWN else FAILED)
    case Agentic(bound, validate, authorize, capture, read) =>
      match Preflight(bound, validate, authorize) {
        case Some(to) => Legal(loaded.state, to)
        case None =>
          if Legal(loaded.state, PROVIDER_SUBMITTED)
          then !(capture == Answer(CaptureDone) && read.Answer? && read.value.status == Captured && Exact(auth, read.value))
          else Legal(loaded.state, FAILED)
      }
  }

  /** The reconciliation gets as far as the provider's payment. */
  predicate ReadsPayment(loaded: Row, said: Reads) {
    && !Terminal(loaded.state) && said.configured
    && !(loaded.state == PROVIDER_UNKNOWN && loaded.orderId.None? && said.receipt.Raised?)
    && HoldsReference(AdoptOrder(loaded, said.receipt)) && said.payment.Got? && said.payment.found.Some?
  }

  /** The row holds an order, perhaps one just adopted, that the provider calls cancelled or expired. */
  predicate SeesOrderOver(loaded: Row, said: Reads) {
    AdoptOrder(loaded, said.receipt).orderId.Some? && OrderOver(said.order)
  }

  /** What a reported payment asks the row to become, if the value and the status mean anything. */
  function Reported(auth: Auth, p: Payment): Option<State> {
    if p.status == Failed && p.errorCode in DECLINE_CODES then Some(DECLINED)
    else if p.status == Unmapped || !Tolerated(auth, p) then None
    else Some(match p.status case Captured => PAID case Failed => FAILED case _ => PROVIDER_AUTHORIZED)
  }

  predicate ReconciliationUnsettles(loaded: Row, auth: Auth, said: Reads) {
    && ReadsPayment(loaded, said)
    && if SeesOrderOver(loaded, said) then loaded.state == AUTHORIZED
       else var to := Reported(auth, said.payment.found.value);
            to.Some? && to != Some(PAID) && Legal(loaded.state, to.value)
  }

  /** The provider's word is one the loaded row may not follow: nothing is committed before the attempt is counted. */
  predicate MayNotFollow(loaded: Row, auth: Auth, said: Reads) {
    && ReadsPayment(loaded, said)
    && if SeesOrderOver(loaded, said) then loaded.state != AUTHORIZED
       else var p := said.payment.found.value; var to := Reported(auth, p);
            if to.Some? then to != Some(loaded.state) && !Legal(loaded.state, to.value)
            else p.status == Unmapped
  }

  predicate AttemptUnsettles(loaded: Row) {
    loaded.attempts + 1 >= DEAD_LETTER_AFTER && Legal(loaded.state, PROVIDER_UNKNOWN)
  }

  /** What the writer was given, and the row it loaded, undo a settlement made since. */
  predicate Unsettles(loaded: Row, auth: Auth, job: Writer) {
    match job
    case ByWebhook(w, seen, other) => WebhookUnsettles(loaded, auth, w, seen, other)
    case ByConfirm(read) => ConfirmUnsettles(loaded, read)
    case ByExecution(x) => ExecutionUnsettles(loaded, auth, x)
    case ByReconciliation(said) => ReconciliationUnsettles(loaded, auth, said)
    case ByVisit(said) =>
      ReconciliationUnsettles(loaded, auth, said) || (MayNotFollow(loaded, auth, said) && AttemptUnsettles(loaded))
    case ByAttempt => AttemptUnsettles(loaded)
    case ByRefund(_, _) => false
  }

  lemma ExecutionSurvivesIff(now: Row, loaded: Row, auth: Auth, x: Execution)
    requires Settled(now.state)
    ensures Settled(Write(now, loaded, auth, ByExecution(x)).state) <==> !ExecutionUnsettles(loaded, auth, x)
  {
  }

  lemma PaymentImage(a: Row, auth: Auth, p: Payment)
    requires !Terminal(a.state)
    ensures var o := AdoptPayment(a, auth, p);
            var to := Reported(auth, p);
            && (to.Some? && to != Some(PAID) && to != Some(a.state) && Legal(a.state, to.value)
                <==> o.row.state != a.state && !Settled(o.row.state))
            && (o.row.state != a.state ==> o.status == Settles && o.committed)
            && (!o.committed ==> o.status == Unreconciled)
            && (!o.committed <==> if to.Some? then to != Some(a.state) && !Legal(a.state, to.value) else p.status == Unmapped)
  {
  }

  /** A reconciliation that reads no payment leaves the state alone. */
  lemma UnreadImage(loaded: Row, auth: Auth, said: Reads)
    requires !ReadsPayment(loaded, said)
    ensures var o := Reconcile(loaded, auth, said);
            o.row.state == loaded.state && (o.committed || o.status == Crashed || Terminal(loaded.state))
  {
  }

  lemma OrderImage(loaded: Row, auth: Auth, said: Reads)
    requires ReadsPayment(loaded, said)
    ensures var a := AdoptOrder(loaded, said.receipt);
            Reconcile(loaded, auth, said) == if SeesOrderOver(loaded, said)
              then Move(a, if said.order.found.value.status == OrderCancelled then CANCELLED else EXPIRED)
              else AdoptPayment(a, auth, said.payment.found.value)
  {
  }

  lemma ReconciliationImage(loaded: Row, auth: Auth, said: Reads)
    ensures var o := Reconcile(loaded, auth, said);
            && (ReconciliationUnsettles(loaded, auth, said) <==> o.row.state != loaded.state && !Settled(o.row.state))
            && (o.row.state != loaded.state ==> o.status == Settles && o.committed)
            && (MayNotFollow(loaded, auth, said) ==> !o.committed && o.status == Unreconciled)
            && (!o.committed && o.status == Unreconciled && !Terminal(loaded.state) ==> MayNotFollow(loaded, auth, said))
  {
    if ReadsPayment(loaded, said) {
      OrderImage(loaded, auth, said);
      if !SeesOrderOver(loaded, said) { PaymentImage(AdoptOrder(loaded, said.receipt), auth, said.payment.found.value); }
    } else {
      UnreadImage(loaded, auth, said);
    }
  }

  lemma VisitSurvivesIff(now: Row, loaded: Row, auth: Auth, said: Reads)
    requires Settled(now.state)
    ensures Settled(Write(now, loaded, auth, ByVisit(said)).state) <==> !Unsettles(loaded, auth, ByVisit(said))
  {
    ReconciliationImage(loaded, auth, said);
  }

  /** Whatever a session loaded and whenever it writes, a settlement made in between survives exactly when the writer's
      own data and loaded row do not ask for a legal move to an unsettled state. */
  lemma SettlementSurvivesIff(now: Row, loaded: Row, auth: Auth, job: Writer)
    requires Settled(now.state)
    ensures Settled(Write(now, loaded, auth, job).state) <==> !Unsettles(loaded, auth, job)
  {
    match job {
      case ByExecution(x) => ExecutionSurvivesIff(now, loaded, auth, x);
      case ByReconciliation(said) => ReconciliationImage(loaded, auth, said);
      case ByVisit(said) => VisitSurvivesIff(now, loaded, auth, said);
      case _ =>
    }
  }

  /** A session that loaded the settled row itself never undoes the settlement. */
  lemma SettledRowsAreSafe(loaded: Row, auth: Auth, job: Writer)
    requires Settled(loaded.state)
    ensures !Unsettles(loaded, auth, job)
  {
  }

  // ------------------------------------------------------------------ runs with stale sessions

  /** The cell, and the row each session holds in memory. */
  datatype World = World(cell: Cell, held: map<nat, Row>)

  datatype StaleStep =
    | Whole(st: RowStep)
    | Load(session: nat)
    | Land(session: nat, job: Writer)

  predicate CanLand(c: Cell, loaded: Row, job: Writer) {
    (job.ByExecution? ==> c.inFlight > 0) && (job.ByWebhook? ==> loaded.orderId.Some?)
  }

  function Landed(c: Cell, loaded: Row, job: Writer): Cell
    requires CanLand(c, loaded, job)
  {
    var row := Write(c.row, loaded, c.auth, job);
    if job.ByExecution? then c.(row := row, inFlight := c.inFlight - 1, executions := c.executions + 1) else c.(row := row)
  }

  function StaleNext(w: World, st: StaleStep): Option<World> {
    match st
    case Whole(s) => if Enabled(w.cell, s) then Some(w.(cell := Apply(w.cell, s))) else None
    case Load(session) => Some(w.(held := w.held[session := w.cell.row]))
    case Land(session, job) =>
      if session in w.held && CanLand(w.cell, w.held[session], job)
      then Some(World(Landed(w.cell, w.held[session], job), w.held - {session})) else None
  }

  ghost function StaleStepper(): (World, StaleStep) -> Option<World> {
    (w: World, st: StaleStep) => StaleNext(w, st)
  }

  /** The step leaves a settled row settled. */
  predicate KeepsSettlement(w: World, st: StaleStep) {
    var to := StaleNext(w, st);
    to.Some? && Settled(w.cell.row.state) ==> Settled(to.value.cell.row.state)
  }

  /** The step is no stale write that undoes a settlement. */
  predicate Harmless(w: World, st: StaleStep) {
    st.Land? && StaleNext(w, st).Some? && Settled(w.cell.row.state) ==> !Unsettles(w.held[st.session], w.cell.auth, st.job)
  }

  lemma WholeKeepsSettlement(c: Cell, st: RowStep)
    requires Enabled(c, st) && Settled(c.row.state)
    ensures Settled(Apply(c, st).row.state)
  {
  }

  lemma KeepsIffHarmless(w: World, st: StaleStep)
    ensures KeepsSettlement(w, st) <==> Harmless(w, st)
  {
    if StaleNext(w, st).Some? && Settled(w.cell.row.state) {
      match st {
        case Whole(s) => WholeKeepsSettlement(w.cell, s);
        case Land(session, job) => SettlementSurvivesIff(w.cell.row, w.held[session], w.cell.auth, job);
        case _ =>
      }
    }
  }

  /** In every run, settlements are never undone if and only if no session lands a harmful stale write on one. */
  lemma {:induction false} SettlementKeptIffHarmless(w: World, steps: seq<StaleStep>)
    ensures Along(StaleStepper(), KeepsSettlement, w, steps) <==> Along(StaleStepper(), Harmless, w, steps)
    decreases |steps|
  {
    if |steps| > 0 {
      KeepsIffHarmless(w, steps[0]);
      if StaleNext(w, steps[0]).Some? { SettlementKeptIffHarmless(StaleNext(w, steps[0]).value, steps[1..]); }
    }
  }

  /** What a session writes over a settled row was settled when it loaded it. */
  predicate SawItSettled(w: World, st: StaleStep) {
    st.Land? && st.session in w.held && Settled(w.cell.row.state) ==> Settled(w.held[st.session].state)
  }

  /** In a run whose sessions load a settled row only after it settled no settlement is undone, whatever they carry. */
  lemma {:induction false} SettlementKeptIfSeen(w: World, steps: seq<StaleStep>)
    requires Along(StaleStepper(), SawItSettled, w, steps)
    ensures Along(StaleStepper(), KeepsSettlement, w, steps)
    decreases |steps|
  {
    if |steps| > 0 {
      if steps[0].Land? && steps[0].session in w.held && Settled(w.held[steps[0].session].state) {
        SettledRowsAreSafe(w.held[steps[0].session], w.cell.auth, steps[0].job);
      }
      KeepsIffHarmless(w, steps[0]);
      if StaleNext(w, steps[0]).Some? { SettlementKeptIfSeen(StaleNext(w, steps[0]).value, steps[1..]); }
    }
  }

  // ------------------------------------------------------------------ stale deliveries still converge

  /** A writer that delivers: any webhook, an honest or failed confirmation, reconciliation or visit. */
  predicate Delivers(auth: Auth, job: Writer) {
    match job
    case ByWebhook(_, _, _) => true
    case ByConfirm(read) => Honest(auth, read)
    case ByReconciliation(said) => Honest(auth, said.payment) && !OrderOver(said.order)
    case ByVisit(said) => Honest(auth, said.payment) && !OrderOver(said.order)
    case ByAttempt => true
    case _ => false
  }

  predicate StaleDelivery(auth: Auth, st: StaleStep) {
    match st
    case Whole(s) => Delivery(auth, s)
    case Load(_) => true
    case Land(_, job) => Delivers(auth, job)
  }

  /** The row, and what every session holds of it, can still be recognised, and an order once learnt is not lost. */
  ghost predicate AllRecoverable(w: World) {
    && Recoverable(w.cell.row)
    && forall s | s in w.held :: Recoverable(w.held[s]) && (w.held[s].orderId.Some? ==> w.cell.row.orderId.Some?)
  }

  lemma ImageRecoverable(loaded: Row, auth: Auth, job: Writer)
    requires Recoverable(loaded) && Delivers(auth, job) && (job.ByWebhook? ==> loaded.orderId.Some?)
    ensures Recoverable(Image(loaded, auth, job))
  {
    match job {
      case ByReconciliation(said) => ReconcileKeepsRecoverable(loaded, auth, said);
      case ByVisit(said) => ReconcileKeepsRecoverable(loaded, auth, said);
      case _ =>
    }
  }

  /** A delivery forgets no reference, but for a captured event, which needs an order to be delivered. */
  lemma ImageKeepsReferences(loaded: Row, auth: Auth, job: Writer)
    requires Delivers(auth, job)
    ensures var image := Image(loaded, auth, job);
            && (image.orderId == loaded.orderId || image.orderId.Some?)
            && (job.ByWebhook? || image.paymentId == loaded.paymentId || image.paymentId.Some?)
  {
    match job {
      case ByReconciliation(said) => ReconcileKeepsReferences(loaded, auth, said);
      case ByVisit(said) => ReconcileKeepsReferences(loaded, auth, said);
      case _ =>
    }
  }

  lemma ReconcileKeepsReferences(r: Row, auth: Auth, said: Reads)
    ensures var to := Reconcile(r, auth, said).row;
            (to.orderId == r.orderId || to.orderId.Some?) && (to.paymentId == r.paymentId || to.paymentId.Some?)
  {
  }

  lemma WriteRecoverable(now: Row, loaded: Row, auth: Auth, job: Writer)
    requires Recoverable(now) && Recoverable(loaded) && Delivers(auth, job)
    requires (loaded.orderId.Some? ==> now.orderId.Some?) && (job.ByWebhook? ==> loaded.orderId.Some?)
    ensures Recoverable(Write(now, loaded, auth, job)) && (now.orderId.Some? ==> Write(now, loaded, auth, job).orderId.Some?)
  {
    ImageRecoverable(loaded, auth, job);
    ImageKeepsReferences(loaded, auth, job);
  }

  lemma DeliveryKeepsOrder(c: Cell, st: RowStep)
    requires Delivery(c.auth, st) && Enabled(c, st) && c.row.orderId.Some?
    ensures Apply(c, st).row.orderId.Some?
  {
    match st {
      case Manual(said) => ReconcileKeepsReferences(c.row, c.auth, said);
      case Sweep(said) => ReconcileKeepsReferences(c.row, c.auth, said);
      case Visit(said) => ReconcileKeepsReferences(c.row, c.auth, said);
      case _ =>
    }
  }

  lemma StaleDeliveryKeeps(w: World, st: StaleStep)
    requires AllRecoverable(w) && StaleDelivery(w.cell.auth, st) && StaleNext(w, st).Some?
    ensures AllRecoverable(StaleNext(w, st).value) && StaleNext(w, st).value.cell.auth == w.cell.auth
  {
    match st {
      case Whole(s) =>
        DeliveryKeepsRecoverable(w.cell, s);
        if w.cell.row.orderId.Some? { DeliveryKeepsOrder(w.cell, s); }
      case Load(session) =>
      case Land(session, job) => WriteRecoverable(w.cell.row, w.held[session], w.cell.auth, job);
    }
  }

  /** Delivery-order convergence without atomic sections: however loads and landings of deliveries interleave, one
      informed reconciliation after the last of them leaves the row PAID, and reconciling again changes nothing. */
  lemma {:induction false} AnyStaleDeliveryConverges(w: World, steps: seq<StaleStep>, said: Reads, again: Reads)
    requires AllRecoverable(w) && Informed(w.cell.auth, said) && !OrderOver(said.order)
    requires (forall st :: st in steps ==> StaleDelivery(w.cell.auth, st)) && Play(StaleStepper(), w, steps).Some?
    ensures var paid := ReconcileNow(Play(StaleStepper(), w, steps).value.cell.row, w.cell.auth, said);
            paid.state == PAID && ReconcileNow(paid, w.cell.auth, again) == paid
    decreases |steps|
  {
    if |steps| == 0 {
      ReconcileSettlesIff(w.cell.row, w.cell.auth, said);
    } else {
      assert steps[0] in steps;
      StaleDeliveryKeeps(w, steps[0]);
      AnyStaleDeliveryConverges(StaleNext(w, steps[0]).value, steps[1..], said, again);
    }
  }

  // ------------------------------------------------------------------ sessions that write what they see

  /** A session writes over the very row it loaded. */
  predicate WritesWhatItSees(w: World, st: StaleStep) {
    st.Land? && st.session in w.held ==> w.held[st.session] == w.cell.row
  }

  /** Nothing a reconciliation does takes an event away. */
  lemma ReconcileExtends(r: Row, auth: Auth, said: Reads)
    ensures r.audit <= Reconcile(r, auth, said).row.audit
  {
  }

  lemma ExecuteExtends(r: Row, auth: Auth, x: Execution)
    ensures r.audit <= Execute(r, auth, x).audit
  {
  }

  /** Nothing a writer does takes an event away. */
  lemma ImageExtends(loaded: Row, auth: Auth, job: Writer)
    ensures loaded.audit <= Image(loaded, auth, job).audit
  {
    match job {
      case ByExecution(x) => ExecuteExtends(loaded, auth, x);
      case ByReconciliation(said) => ReconcileExtends(loaded, auth, said);
      case ByVisit(said) => ReconcileExtends(loaded, auth, said);
      case _ =>
    }
  }

  lemma FlushOverItself(r: Row, result: Row)
    requires r.audit <= result.audit
    ensures Flush(r, r, result) == result
  {
  }

  lemma SubmissionExtends(r: Row, auth: Auth, job: Writer)
    requires SubmitsDebit(r, job)
    ensures var sent := Submitted(r, job.x.authorize.value.value); r.audit <= sent.audit <= Image(r, auth, job).audit
  {
  }

  lemma WriteOverItself(r: Row, auth: Auth, job: Writer)
    ensures Write(r, r, auth, job) == Image(r, auth, job)
  {
    ImageExtends(r, auth, job);
    FlushOverItself(r, Image(r, auth, job));
    if SubmitsDebit(r, job) {
      SubmissionExtends(r, auth, job);
      var sent := Submitted(r, job.x.authorize.value.value);
      FlushOverItself(r, sent);
      FlushOverItself(sent, Image(r, auth, job));
    }
  }

  /** The atomic step that such a session takes. */
  function AsStep(c: Cell, job: Writer): RowStep {
    match job
    case ByWebhook(w, seen, other) => Hook(w, seen, other)
    case ByConfirm(read) => Confirm(read)
    case ByExecution(x) => Begin(x)
    case ByReconciliation(said) => Manual(said)
    case ByVisit(said) => if CountsLater(Reconcile(c.row, c.auth, said)) then Sweep(said) else Visit(said)
    case ByAttempt => Visit(Reads(false, Raised, Raised, Raised))
    case ByRefund(asked, accepted) => GiveBack(asked, accepted)
  }

  lemma LandingIsAStep(c: Cell, job: Writer)
    requires CanLand(c, c.row, job)
    ensures Enabled(c, AsStep(c, job)) && Apply(c, AsStep(c, job)) == Landed(c, c.row, job)
  {
    WriteOverItself(c.row, c.auth, job);
  }

  /** Atomic sections are enough, and are what the lemmas of SettlementRuns ask for: a run in which every session
      writes over the row it loaded leaves the cell where some run of atomic steps leaves it. */
  lemma {:induction false} UnstaleRunsAreAtomic(w: World, steps: seq<StaleStep>)
    requires Play(StaleStepper(), w, steps).Some? && Along(StaleStepper(), WritesWhatItSees, w, steps)
    ensures exists atomic :: Play(Stepper(), w.cell, atomic) == Some(Play(StaleStepper(), w, steps).value.cell)
    decreases |steps|
  {
    if |steps| == 0 {
      assert Play(Stepper(), w.cell, []) == Some(w.cell);
    } else {
      var next := StaleNext(w, steps[0]).value;
      UnstaleRunsAreAtomic(next, steps[1..]);
      var rest :| Play(Stepper(), next.cell, rest) == Some(Play(StaleStepper(), w, steps).value.cell);
      if !steps[0].Load? {
        var first := if steps[0].Whole? then steps[0].st else AsStep(w.cell, steps[0].job);
        if steps[0].Land? { LandingIsAStep(w.cell, steps[0].job); }
        assert ([first] + rest)[1..] == rest;
        assert Play(Stepper(), w.cell, [first] + rest) == Play(Stepper(), next.cell, rest);
      }
    }
  }

  /** So such runs settle and refund at most once. */
  lemma UnstaleRunsSettleOnce(auth: Auth, steps: seq<StaleStep>)
    requires var w := World(NewCell(auth), map[]);
             Play(StaleStepper(), w, steps).Some? && Along(StaleStepper(), WritesWhatItSees, w, steps)
    ensures var r := Play(StaleStepper(), World(NewCell(auth), map[]), steps).value.cell.row;
            Settlements(r.audit) == (if Settled(r.state) then 1 else 0) && Refunds(r.audit) <= 1
  {
    var w := World(NewCell(auth), map[]);
    UnstaleRunsAreAtomic(w, steps);
    var atomic :| Play(Stepper(), w.cell, atomic) == Some(Play(StaleStepper(), w, steps).value.cell);
    SettlesAtMostOnce(NewCell(auth), atomic);
  }

  // ------------------------------------------------------------------ two runs in which they do not

  function Ordered(auth: Auth): Execution {
    Standard(Answer(Order(Some("order"), true, auth.id, auth.amount, auth.currency, OrderOpen)))
  }

  /** Everything the provider is asked, captured for the exact value under the payment id "pay". */
  function Paid(auth: Auth): Reads {
    AllSaid(auth, true).(payment := Got(Some(Payment(Some("pay"), Captured, "", Some(auth.amount), Some(auth.currency)))))
  }

  function FailedEvent(auth: Auth): Webhook {
    Webhook("event", PaymentFailed, Some(auth.amount), Some(auth.currency), None)
  }

  function OrderedCell(auth: Auth): Cell {
    Apply(Apply(NewCell(auth), Reserve), Begin(Ordered(auth)))
  }

  /** The row once the order is placed, and once a reconciliation has settled it. */
  lemma OrderedThenPaid(auth: Auth)
    ensures var c := OrderedCell(auth);
            && c.row == Row(PROVIDER_SUBMITTED, Some("order"), None, None, 1, [AuthorizationConsumed, OrderSubmitted])
            && c.auth == auth
            && Apply(c, Manual(Paid(auth))).row
               == Row(PAID, Some("order"), Some("pay"), None, 1, c.row.audit + [Reconciled(PROVIDER_SUBMITTED, PAID)])
  {
  }

  lemma PlayOne(w: World, st: StaleStep, rest: seq<StaleStep>)
    requires StaleNext(w, st).Some?
    ensures Play(StaleStepper(), w, [st] + rest) == Play(StaleStepper(), StaleNext(w, st).value, rest)
  {
    assert ([st] + rest)[1..] == rest;
  }

  /** The world after the order is placed, reached by two steps. */
  lemma PlayOrdered(auth: Auth, rest: seq<StaleStep>)
    ensures Play(StaleStepper(), World(NewCell(auth), map[]), [Whole(Reserve)] + ([Whole(Begin(Ordered(auth)))] + rest))
         == Play(StaleStepper(), World(OrderedCell(auth), map[]), rest)
  {
    var w := World(NewCell(auth), map[]);
    PlayOne(w, Whole(Reserve), [Whole(Begin(Ordered(auth)))] + rest);
    PlayOne(StaleNext(w, Whole(Reserve)).value, Whole(Begin(Ordered(auth))), rest);
  }

  function ErasingRun(auth: Auth): seq<StaleStep> {
    [Whole(Reserve)] + ([Whole(Begin(Ordered(auth)))] + Erasing(auth))
  }

  function Erasing(auth: Auth): seq<StaleStep> {
    [Load(0)] + ([Whole(Manual(Paid(auth)))] + [Land(0, ByWebhook(FailedEvent(auth), false, false))])
  }

  lemma ErasingRow(auth: Auth)
    ensures var c := OrderedCell(auth);
            var paid := Apply(c, Manual(Paid(auth)));
            Landed(paid, c.row, ByWebhook(FailedEvent(auth), false, false)).row
            == paid.row.(state := FAILED, webhookEventId := Some("event"), audit := paid.row.audit + [WebhookApplied(FAILED)])
  {
    OrderedThenPaid(auth);
    var c := OrderedCell(auth);
    assert (c.row.audit + [WebhookApplied(FAILED)])[|c.row.audit|..] == [WebhookApplied(FAILED)];
  }

  /** A failed-payment event whose handler read the row before a reconciliation settled it, and writes after, leaves
      the settled row FAILED, its history still holding the settlement; a refund is then turned away. */
  lemma StaleWebhookErasesSettlement(auth: Auth)
    ensures var end := Play(StaleStepper(), World(NewCell(auth), map[]), ErasingRun(auth));
            && end.Some? && end.value.cell.row.state == FAILED && Settlements(end.value.cell.row.audit) == 1
            && RefundOutcome(end.value.cell.row, auth, None, true) == NotPaid
  {
    var c := OrderedCell(auth);
    var paid := Apply(c, Manual(Paid(auth)));
    var hook := Land(0, ByWebhook(FailedEvent(auth), false, false));
    PlayOrdered(auth, Erasing(auth));
    OrderedThenPaid(auth);
    PlayOne(World(c, map[]), Load(0), [Whole(Manual(Paid(auth)))] + [hook]);
    PlayOne(World(c, map[0 := c.row]), Whole(Manual(Paid(auth))), [hook]);
    PlayOne(World(paid, map[0 := c.row]), hook, []);
    assert [hook] + [] == [hook];
    ErasingRow(auth);
    LoggedCounts([], AuthorizationConsumed);
    LoggedCounts([AuthorizationConsumed], OrderSubmitted);
    LoggedCounts(c.row.audit, Reconciled(PROVIDER_SUBMITTED, PAID));
    LoggedCounts(paid.row.audit, WebhookApplied(FAILED));
  }

  function TwiceRefundedRun(auth: Auth): seq<StaleStep> {
    [Whole(Reserve)] + ([Whole(Begin(Ordered(auth)))] + ([Whole(Manual(Paid(auth)))] + BothRefund()))
  }

  function BothRefund(): seq<StaleStep> {
    [Load(0)] + ([Load(1)] + ([Land(0, ByRefund(None, true))] + [Land(1, ByRefund(None, true))]))
  }

  /** A refund landing on the row, whether it is PAID or already REFUNDED, by a session that read it PAID. */
  lemma RefundRow(now: Row, loaded: Row, auth: Auth)
    requires loaded.state == PAID && loaded.paymentId.Some? && auth.amount > 0
    ensures Write(now, loaded, auth, ByRefund(None, true)) == now.(state := REFUNDED, audit := now.audit + [RefundIssued(auth.amount)])
  {
    assert (loaded.audit + [RefundIssued(auth.amount)])[|loaded.audit|..] == [RefundIssued(auth.amount)];
  }

  /** On any row that is PAID and names its payment, two requests that read it so both land. */
  lemma BothRefundsLand(c: Cell)
    requires c.row.state == PAID && c.row.paymentId.Some? && c.auth.amount > 0
    ensures var once := c.row.audit + [RefundIssued(c.auth.amount)];
            Play(StaleStepper(), World(c, map[]), BothRefund())
            == Some(World(c.(row := c.row.(state := REFUNDED, audit := once + [RefundIssued(c.auth.amount)])), map[]))
  {
    var r, job := c.row, ByRefund(None, true);
    var once := c.(row := r.(state := REFUNDED, audit := r.audit + [RefundIssued(c.auth.amount)]));
    PlayOne(World(c, map[]), Load(0), [Load(1)] + ([Land(0, job)] + [Land(1, job)]));
    PlayOne(World(c, map[0 := r]), Load(1), [Land(0, job)] + [Land(1, job)]);
    RefundRow(r, r, c.auth);
    PlayOne(World(c, map[0 := r, 1 := r]), Land(0, job), [Land(1, job)]);
    assert map[0 := r, 1 := r] - {0} == map[1 := r] && map[1 := r] - {1} == map[];
    RefundRow(once.row, r, c.auth);
    PlayOne(World(once, map[1 := r]), Land(1, job), []);
    assert [Land(1, job)] + [] == [Land(1, job)];
  }

  /** Two refund requests that both read the row PAID are both sent to the provider, and both recorded. */
  lemma StaleRefundsRefundTwice(auth: Auth)
    requires auth.amount > 0
    ensures var end := Play(StaleStepper(), World(NewCell(auth), map[]), TwiceRefundedRun(auth));
            end.Some? && end.value.cell.row.state == REFUNDED && Refunds(end.value.cell.row.audit) == 2
  {
    var paid := Apply(OrderedCell(auth), Manual(Paid(auth)));
    PlayOrdered(auth, [Whole(Manual(Paid(auth)))] + BothRefund());
    OrderedThenPaid(auth);
    PlayOne(World(OrderedCell(auth), map[]), Whole(Manual(Paid(auth))), BothRefund());
    BothRefundsLand(paid);
    RefundsAfter(paid.row, auth);
    PaidIsUnrefunded(auth);
  }

  lemma PaidIsUnrefunded(auth: Auth)
    ensures Refunds(Apply(OrderedCell(auth), Manual(Paid(auth))).row.audit) == 0
  {
    OrderedThenPaid(auth);
    LoggedCounts([], AuthorizationConsumed);
    LoggedCounts([AuthorizationConsumed], OrderSubmitted);
    LoggedCounts([AuthorizationConsumed, OrderSubmitted], Reconciled(PROVIDER_SUBMITTED, PAID));
  }

  lemma RefundsAfter(r: Row, auth: Auth)
    ensures Refunds(r.audit + [RefundIssued(auth.amount)] + [RefundIssued(auth.amount)]) == Refunds(r.audit) + 2
  {
    LoggedCounts(r.audit, RefundIssued(auth.amount));
    LoggedCounts(r.audit + [RefundIssued(auth.amount)], RefundIssued(auth.amount));
  }
}

/** One provider transaction and everything that writes it: execution and refund
    (app/routers/payments.py), webhooks, reconciliation (app/reconcile.py), the worker
    (app/reconcile_worker.py) and revocation (app/routers/v1.py). The provider may answer
    anything, time out or raise. Each function is one committed section of a handler; the
    class below performs it statement by statement. */
module Settlement {
  import opened Text
  import opened Transitions

  // ------------------------------------------------------------------ rows and replies

  datatype Auth = Auth(id: string, amount: int, currency: string)

  /** The audit events a row's history can hold. */
  datatype Event =
    | AuthorizationConsumed | OrderSubmitted | ProviderSubmitted
    | WebhookRejected | WebhookApplied(webhookTo: State)
    | SettlementConfirmed | SettlementNotConfirmed | AgenticSettlement
    | Reconciled(from: State, to: State) | ValueMismatch | DeadLettered
    | RefundIssued(amount: int)

  datatype Row = Row(state: State, orderId: Option<string>, paymentId: Option<string>,
                     webhookEventId: Option<string>, attempts: nat, audit: seq<Event>)

  /** Provider statuses, lower-cased; `Unmapped` is any other word. */
  datatype PayStatus = Captured | Failed | Authorized | Unmapped

  datatype Payment = Payment(id: Option<string>, status: PayStatus, errorCode: string, amount: Option<int>, currency: Option<string>)

  datatype OrderStatus = OrderCancelled | OrderExpired | OrderOpen

  /** `hasId`: the reply has an id at all, though it may be null. */
  datatype Order = Order(id: Option<string>, hasId: bool, receipt: string, amount: int, currency: string, status: OrderStatus)

  /** A direct read: it raises, or returns something or nothing. */
  datatype Read<+T> = Raised | Got(found: Option<T>)

  /** A call: it answers, times out or raises. */
  datatype Reply<+T> = Answer(value: T) | TimedOut | Broke

  const DECLINE_CODES: set<string> := {"card_declined", "insufficient_funds", "bank_declined", "declined"}

  const DEAD_LETTER_AFTER: nat := 5

  predicate AmountDiffers(auth: Auth, p: Payment) {
    p.amount.Some? && p.amount.value != auth.amount
  }

  predicate CurrencyDiffers(auth: Auth, p: Payment) {
    p.currency.Some? && p.currency.value != "" && Upper(p.currency.value) != Upper(auth.currency)
  }

  /** Nothing the payment reports contradicts the authorization. */
  predicate Tolerated(auth: Auth, p: Payment) {
    !AmountDiffers(auth, p) && !CurrencyDiffers(auth, p)
  }

  /** The payment reports exactly the authorized value. */
  predicate Exact(auth: Auth, p: Payment) {
    p.amount == Some(auth.amount) && p.currency.Some? && Upper(p.currency.value) == Upper(auth.currency)
  }

  predicate HoldsReference(r: Row) {
    r.orderId.Some? || r.paymentId.Some?
  }

  /** `transition_txn` with an illegal move swallowed by the caller. */
  function Guarded(r: Row, to: State): Row {
    if Legal(r.state, to) then r.(state := to) else r
  }

  function Logged(r: Row, e: Event): Row {
    r.(audit := r.audit + [e])
  }

  // ------------------------------------------------------------------ execution

  datatype CaptureStatus = CaptureDone | CapturePending | CaptureFailed | CaptureDeclined | CaptureOther

  datatype Execution =
    | Agentic(bound: bool, validate: Reply<bool>, authorize: Reply<Option<string>>, capture: Reply<CaptureStatus>, read: Reply<Payment>)
    | NoCapability
    | Standard(order: Reply<Order>)

  predicate OrderMatches(auth: Auth, o: Order) {
    o.receipt == auth.id && o.amount == auth.amount && Upper(o.currency) == Upper(auth.currency)
  }

  /** The agentic path once the provider has accepted the debit request. */
  function Capture(r: Row, auth: Auth, capture: Reply<CaptureStatus>, read: Reply<Payment>): Row {
    match capture
    case TimedOut => Guarded(r, PROVIDER_UNKNOWN)
    case Broke => Guarded(r, PROVIDER_UNKNOWN)
    case Answer(CapturePending) => r.(state := PROVIDER_AUTHORIZED)
    case Answer(CaptureFailed) => r.(state := FAILED)
    case Answer(CaptureDeclined) => r.(state := DECLINED)
    case Answer(CaptureOther) => r.(state := PROVIDER_UNKNOWN)
    case Answer(CaptureDone) =>
      var captured := r.(state := CAPTURED);
      match read
      case TimedOut => Guarded(captured, PROVIDER_UNKNOWN)
      case Broke => Guarded(captured, FAILED)
      case Answer(p) =>
        if p.status == Captured && Exact(auth, p) then Logged(captured.(state := PAID), AgenticSettlement) else captured
  }

  /** Where the agentic path stops before anything is submitted: no instrument bound, a mandate the provider does
      not honour, or no payment reference. */
  function Preflight(bound: bool, validate: Reply<bool>, authorize: Reply<Option<string>>): (stop: Option<State>)
    ensures stop.None? ==> authorize.Answer? && authorize.value.Some?
    ensures stop.Some? ==> stop.value == FAILED || stop.value == PROVIDER_UNKNOWN
  {
    if !bound then Some(FAILED)
    else match validate
      case TimedOut => Some(PROVIDER_UNKNOWN)
      case Broke => Some(FAILED)
      case Answer(false) => Some(FAILED)
      case Answer(true) =>
        match authorize
        case TimedOut => Some(PROVIDER_UNKNOWN)
        case Broke => Some(FAILED)
        case Answer(None) => Some(FAILED)
        case Answer(Some(_)) => None
  }

  /** The row once the provider holds the debit request. */
  function Submitted(r: Row, reference: string): Row {
    r.(state := PROVIDER_SUBMITTED, paymentId := Some(reference), audit := r.audit + [AuthorizationConsumed] + [ProviderSubmitted])
  }

  /** Everything after the reservation committed. */
  function Execute(r: Row, auth: Auth, x: Execution): Row {
    match x
    case NoCapability => Guarded(r, FAILED)
    case Standard(TimedOut) => Guarded(r, PROVIDER_UNKNOWN)
    case Standard(Broke) => Guarded(r, FAILED)
    case Standard(Answer(o)) =>
      if !OrderMatches(auth, o) then Guarded(r, FAILED)
      else
        var held := r.(orderId := o.id);
        if !Legal(held.state, PROVIDER_SUBMITTED) then Guarded(held, FAILED)
        else
          var sent := Logged(held.(state := PROVIDER_SUBMITTED), AuthorizationConsumed);
          if o.id.None? && !o.hasId then Guarded(sent, FAILED) else Logged(sent, OrderSubmitted)
    case Agentic(bound, validate, authorize, capture, read) =>
      match Preflight(bound, validate, authorize) {
        case Some(to) => Guarded(r, to)
        case None =>
          if !Legal(r.state, PROVIDER_SUBMITTED) then Guarded(r, FAILED)
          else Capture(Submitted(r, authorize.value.value), auth, capture, read)
      }
  }

  // ------------------------------------------------------------------ webhooks and their confirmation

  datatype EventType = PaymentAuthorized | PaymentCaptured | PaymentFailed | Unsupported

  datatype Webhook = Webhook(eventId: string, kind: EventType, amount: Option<int>, currency: Option<string>, paymentId: Option<string>)

  function WebhookTarget(k: EventType): State
    requires k != Unsupported
  {
    match k
    case PaymentAuthorized => PROVIDER_AUTHORIZED
    case PaymentCaptured => CAPTURED
    case PaymentFailed => FAILED
  }

  /** The handler up to its own commit, for a verified event naming this row's order. `seenElsewhere`:
      another row carries the event id. `otherOrg`: the event names a different provider key. */
  function ReceiveWebhook(r: Row, auth: Auth, w: Webhook, seenElsewhere: bool, otherOrg: bool): Row {
    if otherOrg then Logged(r, WebhookRejected)
    else if r.webhookEventId == Some(w.eventId) || seenElsewhere || w.kind == Unsupported then r
    else if w.amount != Some(auth.amount) || w.currency.None? || Upper(w.currency.value) != Upper(auth.currency) then
      Logged(r, WebhookRejected)
    else
      var to := WebhookTarget(w.kind);
      if !Legal(r.state, to) then r
      else Logged(r.(state := to, webhookEventId := Some(w.eventId),
                     paymentId := if w.kind == PaymentCaptured then w.paymentId else r.paymentId),
                  WebhookApplied(to))
  }

  /** `confirm_capture`: the read made after a captured event. */
  function ConfirmCapture(r: Row, auth: Auth, read: Read<Payment>): Row {
    if !HoldsReference(r) || read.Raised? || read.found.None? then r
    else
      var p := read.found.value;
      match p.status
      case Captured =>
        if !Tolerated(auth, p) then Logged(r, ValueMismatch)
        else if !Legal(r.state, PAID) then r
        else Logged(r.(state := PAID, paymentId := if p.id.Some? then p.id else r.paymentId), SettlementConfirmed)
      case Failed =>
        if !Legal(r.state, PROVIDER_UNKNOWN) then r else Logged(r.(state := PROVIDER_UNKNOWN), SettlementNotConfirmed)
      case _ => r
  }

  // ------------------------------------------------------------------ reconciliation

  /** What the provider says to one reconciliation: whether it is configured, the order looked up
      by receipt when the row has none, the payment, and the order looked up again. */
  datatype Reads = Reads(configured: bool, receipt: Read<Order>, payment: Read<Payment>, order: Read<Order>)

  datatype Status = AlreadyTerminal | Unreconciled | Settles | Crashed

  /** The row in memory, the status returned, and whether the function committed. */
  datatype Reconciliation = Reconciliation(row: Row, status: Status, committed: bool)

  function AdoptOrder(r: Row, receipt: Read<Order>): Row {
    if r.state == PROVIDER_UNKNOWN && r.orderId.None? && receipt.Got? && receipt.found.Some? && receipt.found.value.id.Some?
    then r.(orderId := receipt.found.value.id) else r
  }

  function Move(r: Row, to: State): Reconciliation {
    if !Legal(r.state, to) then Reconciliation(r, Unreconciled, false)
    else Reconciliation(Logged(r.(state := to), Reconciled(r.state, to)), Settles, true)
  }

  /** The payment's own word, once no order status decided. */
  function AdoptPayment(r: Row, auth: Auth, p: Payment): Reconciliation {
    if p.status == Failed && p.errorCode in DECLINE_CODES then Move(r, DECLINED)
    else if p.status == Unmapped then Reconciliation(r, Unreconciled, false)
    else if !Tolerated(auth, p) then Reconciliation(Logged(r, ValueMismatch), Unreconciled, true)
    else
      var to := match p.status case Captured => PAID case Failed => FAILED case _ => PROVIDER_AUTHORIZED;
      if to == r.state then Reconciliation(r, Settles, true)
      else
        var moved := Move(r, to);
        if to == PAID && moved.committed && p.id.Some? then moved.(row := moved.row.(paymentId := p.id)) else moved
  }

  /** `reconcile_one`. */
  function Reconcile(r: Row, auth: Auth, said: Reads): Reconciliation {
    if Terminal(r.state) then Reconciliation(r, AlreadyTerminal, false)
    else if !said.configured then Reconciliation(r, Unreconciled, true)
    else if r.state == PROVIDER_UNKNOWN && r.orderId.None? && said.receipt.Raised? then Reconciliation(r, Crashed, false)
    else
      var a := AdoptOrder(r, said.receipt);
      if !HoldsReference(a) || said.payment.Raised? || said.payment.found.None? then Reconciliation(a, Unreconciled, true)
      else
        var status := if a.orderId.Some? && said.order.Got? && said.order.found.Some? then said.order.found.value.status else OrderOpen;
        match status
        case OrderCancelled => Move(a, CANCELLED)
        case OrderExpired => Move(a, EXPIRED)
        case OrderOpen => AdoptPayment(a, auth, said.payment.found.value)
  }

  /** The manual endpoint closes its session: what was not committed is lost. */
  function ReconcileNow(r: Row, auth: Auth, said: Reads): Row {
    var o := Reconcile(r, auth, said);
    if o.committed then o.row else r
  }

  function CountAttempt(r: Row): Row {
    var tried := r.(attempts := r.attempts + 1);
    if tried.attempts >= DEAD_LETTER_AFTER && Legal(r.state, PROVIDER_UNKNOWN)
    then Logged(tried.(state := PROVIDER_UNKNOWN), DeadLettered) else tried
  }

  /** One row of the worker's batch: reconcile, else count an attempt and perhaps dead-letter. */
  function WorkerVisit(r: Row, auth: Auth, said: Reads): Row {
    var o := Reconcile(r, auth, said);
    match o.status
    case Crashed => r
    case Settles => o.row
    case _ => CountAttempt(o.row)
  }

  // ------------------------------------------------------------------ refunds

  datatype RefundResult = NotPaid | NoPayment | BadAmount | ProviderRefused | Refunded

  function RefundOutcome(r: Row, auth: Auth, asked: Option<int>, accepted: bool): RefundResult {
    if r.state != PAID then NotPaid
    else if r.paymentId.None? then NoPayment
    else if (if asked.Some? then asked.value else auth.amount) <= 0 then BadAmount
    else if !accepted then ProviderRefused
    else Refunded
  }

  function Refund(r: Row, auth: Auth, asked: Option<int>, accepted: bool): Row {
    if RefundOutcome(r, auth, asked, accepted) == Refunded
    then Logged(r.(state := REFUNDED), RefundIssued(if asked.Some? then asked.value else auth.amount)) else r
  }

  // ------------------------------------------------------------------ the row, updated in place

  class ProviderTransaction {
    const auth: Auth
    var state: State
    var orderId: Option<string>
    var paymentId: Option<string>
    var webhookEventId: Option<string>
    var attempts: nat
    var audit: seq<Event>

    function View(): Row
      reads this
    {
      Row(state, orderId, paymentId, webhookEventId, attempts, audit)
    }

    constructor (auth: Auth)
      ensures this.auth == auth && View() == Row(AUTHORIZED, None, None, None, 0, [])
    {
      this.auth := auth;
      state, orderId, paymentId, webhookEventId, attempts, audit := AUTHORIZED, None, None, None, 0, [];
    }

    method TransitionTxn(to: State) returns (legal: bool)
      modifies this`state
      ensures legal == Legal(old(state), to)
      ensures state == if legal then to else old(state)
    {
      legal := Legal(state, to);
      if legal { state := to; }
    }

    method Record(e: Event)
      modifies this`audit
      ensures audit == old(audit) + [e]
    {
      audit := audit + [e];
    }

    method ExecuteStandard(order: Reply<Order>)
      modifies this
      ensures View() == Execute(old(View()), auth, Standard(order))
    {
      if order.TimedOut? { var _ := TransitionTxn(PROVIDER_UNKNOWN); return; }
      if order.Broke? || !OrderMatches(auth, order.value) { var _ := TransitionTxn(FAILED); return; }
      orderId := order.value.id;
      var sent := TransitionTxn(PROVIDER_SUBMITTED);
      if !sent { var _ := TransitionTxn(FAILED); return; }
      Record(AuthorizationConsumed);
      if orderId.None? && !order.value.hasId { var _ := TransitionTxn(FAILED); return; }
      Record(OrderSubmitted);
    }

    method ExecuteAgentic(bound: bool, validate: Reply<bool>, authorize: Reply<Option<string>>,
                          capture: Reply<CaptureStatus>, read: Reply<Payment>)
      modifies this
      ensures View() == Execute(old(View()), auth, Agentic(bound, validate, authorize, capture, read))
    {
      if !bound { var _ := TransitionTxn(FAILED); return; }
      if validate.TimedOut? { var _ := TransitionTxn(PROVIDER_UNKNOWN); return; }
      if validate.Broke? || !validate.value { var _ := TransitionTxn(FAILED); return; }
      if authorize.TimedOut? { var _ := TransitionTxn(PROVIDER_UNKNOWN); return; }
      if authorize.Broke? || authorize.value.None? { var _ := TransitionTxn(FAILED); return; }
      var sent := TransitionTxn(PROVIDER_SUBMITTED);
      if !sent { var _ := TransitionTxn(FAILED); return; }
      paymentId := Some(authorize.value.value);
      Record(AuthorizationConsumed);
      Record(ProviderSubmitted);
      CapturePayment(capture, read);
    }

    /** The rest of the agentic path, once the debit request is with the provider. */
    method CapturePayment(capture: Reply<CaptureStatus>, read: Reply<Payment>)
      requires state == PROVIDER_SUBMITTED
      modifies this
      ensures View() == Capture(old(View()), auth, capture, read)
    {
      if !capture.Answer? { var _ := TransitionTxn(PROVIDER_UNKNOWN); return; }
      match capture.value {
        case CapturePending => var _ := TransitionTxn(PROVIDER_AUTHORIZED); return;
        case CaptureFailed => var _ := TransitionTxn(FAILED); return;
        case CaptureDeclined => var _ := TransitionTxn(DECLINED); return;
        case CaptureOther => var _ := TransitionTxn(PROVIDER_UNKNOWN); return;
        case CaptureDone =>
      }
      var _ := TransitionTxn(PROVIDER_AUTHORIZED);
      var _ := TransitionTxn(CAPTURED);
      if read.TimedOut? { var _ := TransitionTxn(PROVIDER_UNKNOWN); return; }
      if read.Broke? { var _ := TransitionTxn(FAILED); return; }
      if read.value.status != Captured || !Exact(auth, read.value) { return; }
      var _ := TransitionTxn(PAID);
      Record(AgenticSettlement);
    }

    method HandleWebhook(w: Webhook, seenElsewhere: bool, otherOrg: bool) returns (applied: bool)
      modifies this
      ensures View() == ReceiveWebhook(old(View()), auth, w, seenElsewhere, otherOrg)
      ensures applied ==> w.kind != Unsupported && state == WebhookTarget(w.kind)
    {
      if otherOrg { Record(WebhookRejected); return false; }
      if webhookEventId == Some(w.eventId) || seenElsewhere { return false; }
      if w.kind == Unsupported { return false; }
      if w.amount != Some(auth.amount) || w.currency.None? || Upper(w.currency.value) != Upper(auth.currency) {
        Record(WebhookRejected);
        return false;
      }
      applied := TransitionTxn(WebhookTarget(w.kind));
      if !applied { return; }
      webhookEventId := Some(w.eventId);
      if w.kind == PaymentCaptured { paymentId := w.paymentId; }
      Record(WebhookApplied(state));
    }

    method Confirm(read: Read<Payment>)
      modifies this
      ensures View() == ConfirmCapture(old(View()), auth, read)
    {
      if paymentId.None? && orderId.None? { return; }
      if read.Raised? || read.found.None? { return; }
      var p := read.found.value;
      if p.status == Captured {
        if AmountDiffers(auth, p) || CurrencyDiffers(auth, p) { Record(ValueMismatch); return; }
        var legal := TransitionTxn(PAID);
        if !legal { return; }
        if p.id.Some? { paymentId := p.id; }
        Record(SettlementConfirmed);
      } else if p.status == Failed {
        var legal := TransitionTxn(PROVIDER_UNKNOWN);
        if !legal { return; }
        Record(SettlementNotConfirmed);
      }
    }

    method MoveTo(to: State) returns (status: Status, committed: bool)
      modifies this`state, this`audit
      ensures Reconciliation(View(), status, committed) == Move(old(View()), to)
    {
      var from := state;
      var legal := TransitionTxn(to);
      if !legal { return Unreconciled, false; }
      Record(Reconciled(from, to));
      return Settles, true;
    }

    method AdoptReported(p: Payment) returns (status: Status, committed: bool)
      modifies this
      ensures Reconciliation(View(), status, committed) == AdoptPayment(old(View()), auth, p)
    {
      if p.status == Failed && p.errorCode in DECLINE_CODES { status, committed := MoveTo(DECLINED); return; }
      if p.status == Unmapped { return Unreconciled, false; }
      if AmountDiffers(auth, p) || CurrencyDiffers(auth, p) { Record(ValueMismatch); return Unreconciled, true; }
      var to := match p.status case Captured => PAID case Failed => FAILED case _ => PROVIDER_AUTHORIZED;
      if to == state { return Settles, true; }
      status, committed := MoveTo(to);
      if committed && to == PAID && p.id.Some? { paymentId := p.id; }
    }

    method ReconcileOne(said: Reads) returns (status: Status, committed: bool)
      modifies this
      ensures Reconciliation(View(), status, committed) == Reconcile(old(View()), auth, said)
    {
      if Terminal(state) { return AlreadyTerminal, false; }
      if !said.configured { return Unreconciled, true; }
      if state == PROVIDER_UNKNOWN && orderId.None? {
        if said.receipt.Raised? { return Crashed, false; }
        if said.receipt.found.Some? && said.receipt.found.value.id.Some? { orderId := said.receipt.found.value.id; }
      }
      if paymentId.None? && orderId.None? { return Unreconciled, true; }
      if said.payment.Raised? || said.payment.found.None? { return Unreconciled, true; }
      if orderId.Some? && said.order.Got? && said.order.found.Some? {
        if said.order.found.value.status == OrderCancelled { status, committed := MoveTo(CANCELLED); return; }
        if said.order.found.value.status == OrderExpired { status, committed := MoveTo(EXPIRED); return; }
      }
      status, committed := AdoptReported(said.payment.found.value);
    }

    method VisitByWorker(said: Reads)
      modifies this
      ensures View() == WorkerVisit(old(View()), auth, said)
    {
      var status, _ := ReconcileOne(said);
      if status == Crashed || status == Settles { return; }
      attempts := attempts + 1;
      if attempts >= DEAD_LETTER_AFTER {
        var legal := TransitionTxn(PROVIDER_UNKNOWN);
        if legal { Record(DeadLettered); }
      }
    }

    method IssueRefund(asked: Option<int>, accepted: bool) returns (r: RefundResult)
      modifies this`state, this`audit
      ensures r == RefundOutcome(old(View()), auth, asked, accepted)
      ensures View() == Refund(old(View()), auth, asked, accepted)
    {
      if state != PAID { return NotPaid; }
      if paymentId.None? { return NoPayment; }
      var amount := if asked.Some? then asked.value else auth.amount;
      if amount <= 0 { return BadAmount; }
      if !accepted { return ProviderRefused; }
      var _ := TransitionTxn(REFUNDED);
      Record(RefundIssued(amount));
      return Refunded;
    }
  }

  /** What a batch does to one row: those not terminal when it was selected are visited. */
  function Visited(r: Row, auth: Auth, said: Reads): Row {
    if Terminal(r.state) then r else WorkerVisit(r, auth, said)
  }

  /** `_run_batch`. */
  method RunBatch(rows: seq<ProviderTransaction>, said: seq<Reads>)
    requires |said| == |rows|
    requires forall i, j :: 0 <= i < j < |rows| ==> rows[i] != rows[j]
    modifies rows
    ensures forall i :: 0 <= i < |rows| ==> rows[i].View() == Visited(old(rows[i].View()), rows[i].auth, said[i])
  {
    ghost var before := seq(|rows|, i requires 0 <= i < |rows| reads rows => rows[i].View());
    for k := 0 to |rows|
      invariant forall i :: k <= i < |rows| ==> rows[i].View() == before[i]
      invariant forall i :: 0 <= i < k ==> rows[i].View() == Visited(before[i], rows[i].auth, said[i])
    {
      assert rows[k].View() == before[k];
      if !Terminal(rows[k].state) {
        label visit:
        rows[k].VisitByWorker(said[k]);
        assert forall i :: 0 <= i < |rows| && i != k ==> rows[i].View() == old@visit(rows[i].View());
      }
    }
  }

  // ------------------------------------------------------------------ the authorization's usage counter

  /** `bounded_authorizations.usage_count`, written only by two conditional UPDATEs. */
  class BoundedAuthorization {
    const maxUsage: nat
    var usageCount: nat

    constructor (maxUsage: nat)
      ensures this.maxUsage == maxUsage && usageCount == 0
    {
      this.maxUsage := maxUsage;
      usageCount := 0;
    }

    method Reserve() returns (reserved: bool)
      modifies this
      ensures reserved == (old(usageCount) < maxUsage)
      ensures usageCount == old(usageCount) + if reserved then 1 else 0
    {
      reserved := usageCount < maxUsage;
      if reserved { usageCount := usageCount + 1; }
    }

    method Burn() returns (burned: bool)
      modifies this
      ensures burned == (old(usageCount) < maxUsage)
      ensures usageCount == if burned then maxUsage else old(usageCount)
    {
      burned := usageCount < maxUsage;
      if burned { usageCount := maxUsage; }
    }
  }
}

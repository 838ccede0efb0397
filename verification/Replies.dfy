/** What the states of a provider transaction say about the provider: for every writer, exactly which replies leave the
    row in which state, and what else they write. */
module Replies {
  import opened Text
  import opened Transitions
  import opened Settlement

  // ------------------------------------------------------------------ the table, by target

  /** Where each state may be entered from. Money that arrives is never refused for arriving late: CAPTURED and PAID may
      be entered from every state in which the outcome is open, FAILED included. */
  lemma EnteredFrom(from: State, to: State)
    ensures Legal(from, to) <==>
      match to
      case AUTHORIZED => false
      case PROVIDER_SUBMITTED => from in {AUTHORIZED, PROVIDER_UNKNOWN}
      case PROVIDER_AUTHORIZED => from in {PROVIDER_SUBMITTED, PROVIDER_UNKNOWN}
      case CAPTURED => from in {PROVIDER_SUBMITTED, PROVIDER_AUTHORIZED, PAYMENT_PENDING, PROVIDER_UNKNOWN, FAILED}
      case PAYMENT_PENDING => false
      case PROVIDER_UNKNOWN => from in {AUTHORIZED, PROVIDER_SUBMITTED, PROVIDER_AUTHORIZED, PAYMENT_PENDING, CAPTURED}
      case FAILED => from in {AUTHORIZED, PROVIDER_SUBMITTED, PROVIDER_AUTHORIZED, PAYMENT_PENDING, PROVIDER_UNKNOWN}
      case PAID => from in {PROVIDER_SUBMITTED, PROVIDER_AUTHORIZED, PAYMENT_PENDING, CAPTURED, PROVIDER_UNKNOWN, FAILED}
      case REFUNDED => from == PAID
      case REVERSED => from == PAID
      case EXPIRED => from == AUTHORIZED
      case CANCELLED => from == AUTHORIZED
      case DECLINED => from in {PROVIDER_SUBMITTED, PROVIDER_AUTHORIZED, PAYMENT_PENDING, PROVIDER_UNKNOWN}
  {
  }

  /** Nothing the payment says contradicts the amount and currency authorized; silence does not. */
  predicate NotContradicted(auth: Auth, p: Payment) {
    (p.amount.Some? ==> p.amount.value == auth.amount) && (p.currency.Some? && p.currency.value != "" ==> EqualButCase(p.currency.value, auth.currency))
  }

  /** The payment says exactly the amount and currency authorized. */
  predicate Corroborated(auth: Auth, p: Payment) {
    p.amount.Some? && p.amount.value == auth.amount && p.currency.Some? && EqualButCase(p.currency.value, auth.currency)
  }

  lemma ValuesAre(auth: Auth, p: Payment)
    ensures Tolerated(auth, p) <==> NotContradicted(auth, p)
    ensures Exact(auth, p) <==> Corroborated(auth, p)
  {
    if p.currency.Some? { FoldsIff(p.currency.value, auth.currency); }
  }

  // ------------------------------------------------------------------ execution

  /** Once the debit request is with the provider, each state the row can end in tells what the provider answered. */
  lemma CaptureSays(r: Row, auth: Auth, capture: Reply<CaptureStatus>, read: Reply<Payment>)
    requires r.state == PROVIDER_SUBMITTED
    ensures var to := Capture(r, auth, capture, read);
            var done := capture == Answer(CaptureDone);
            var exact := read.Answer? && read.value.status == Captured && Corroborated(auth, read.value);
            && (to.state == PAID <==> done && exact)
            && (to.state == CAPTURED <==> done && !exact && !read.TimedOut?)
            && (to.state == PROVIDER_AUTHORIZED <==> capture == Answer(CapturePending))
            && (to.state == FAILED <==> capture == Answer(CaptureFailed))
            && (to.state == DECLINED <==> capture == Answer(CaptureDeclined))
            && (to.state == PROVIDER_UNKNOWN <==> !capture.Answer? || capture.value == CaptureOther || (done && read.TimedOut?))
            && to.audit == r.audit + (if to.state == PAID then [AgenticSettlement] else [])
            && to == r.(state := to.state, audit := to.audit)
  {
    if read.Answer? { ValuesAre(auth, read.value); }
  }

  /** The order is the one asked for. */
  predicate OrderIsOurs(auth: Auth, o: Order) {
    o.receipt == auth.id && o.amount == auth.amount && EqualButCase(o.currency, auth.currency)
  }

  /** The checkout path, from a row the table lets submit: submitted, with the order's id, exactly when the order is ours
      and has one; unknown exactly when the call timed out; failed otherwise. */
  lemma OrderSays(r: Row, auth: Auth, order: Reply<Order>)
    requires r.state == AUTHORIZED || r.state == PROVIDER_UNKNOWN
    ensures var to := Execute(r, auth, Standard(order));
            var ours := order.Answer? && OrderIsOurs(auth, order.value);
            var placed := ours && (order.value.id.Some? || order.value.hasId);
            && (to.state == PROVIDER_SUBMITTED <==> placed) && (to.state == PROVIDER_UNKNOWN <==> order.TimedOut?)
            && (to.state == FAILED <==> !placed && !order.TimedOut?)
            && to.orderId == (if ours then order.value.id else r.orderId) && to.paymentId == r.paymentId
            && to.audit == r.audit + (if placed then [AuthorizationConsumed, OrderSubmitted] else if ours then [AuthorizationConsumed] else [])
  {
    if order.Answer? { FoldsIff(order.value.currency, auth.currency); }
  }

  /** The provider-native path, from such a row: a debit request goes out exactly with an instrument bound and a mandate
      the provider honours, and is recorded exactly when it comes back with a reference; otherwise the row is unknown
      exactly when a call timed out, and failed when not. */
  lemma DebitSays(r: Row, auth: Auth, x: Execution)
    requires x.Agentic? && (r.state == AUTHORIZED || r.state == PROVIDER_UNKNOWN)
    ensures var to := Execute(r, auth, x);
            var honoured := x.bound && x.validate.Answer? && x.validate.value;
            var referred := honoured && x.authorize.Answer? && x.authorize.value.Some?;
            && (referred ==> to == Capture(Submitted(r, x.authorize.value.value), auth, x.capture, x.read)
                             && Submitted(r, x.authorize.value.value)
                                == r.(state := PROVIDER_SUBMITTED, paymentId := x.authorize.value, audit := r.audit + [AuthorizationConsumed, ProviderSubmitted]))
            && (!referred ==> to == r.(state := if x.bound && (x.validate.TimedOut? || (honoured && x.authorize.TimedOut?)) then PROVIDER_UNKNOWN else FAILED))
  {
  }

  /** An autonomous payment without the capability fails before anything is sent. */
  lemma NoCapabilitySays(r: Row, auth: Auth)
    requires r.state == AUTHORIZED || r.state == PROVIDER_UNKNOWN
    ensures Execute(r, auth, NoCapability) == r.(state := FAILED)
  {
  }

  /** From any other row nothing is submitted: a reply of the order call, or a debit that cannot be recorded, leaves the
      state alone, or fails it where the table allows; only a timeout makes it unknown. */
  lemma TooLateToSubmit(r: Row, auth: Auth, x: Execution)
    requires r.state != AUTHORIZED && r.state != PROVIDER_UNKNOWN
    ensures var to := Execute(r, auth, x);
            var timedOut := x == Standard(TimedOut) || (x.Agentic? && x.bound && (x.validate.TimedOut? || (x.validate == Answer(true) && x.authorize.TimedOut?)));
            var end := if timedOut then PROVIDER_UNKNOWN else FAILED;
            && to.state == (if Legal(r.state, end) then end else r.state) && to.audit == r.audit && to.paymentId == r.paymentId
            && to.orderId == (if x.Standard? && x.order.Answer? && OrderIsOurs(auth, x.order.value) then x.order.value.id else r.orderId)
  {
    if x.Standard? && x.order.Answer? { FoldsIff(x.order.value.currency, auth.currency); }
  }

  // ------------------------------------------------------------------ what is heard afterwards

  function Announced(k: EventType): Option<State> {
    match k
    case PaymentAuthorized => Some(PROVIDER_AUTHORIZED)
    case PaymentCaptured => Some(CAPTURED)
    case PaymentFailed => Some(FAILED)
    case Unsupported => None
  }

  /** An event moves the row exactly when it names this organization's key, was not applied before, announces a state
      for exactly the authorized value, and the table lets the row enter it; it then leaves its mark, and a captured
      event the payment's id. Nothing else but a rejection is ever written. */
  lemma WebhookSays(r: Row, auth: Auth, w: Webhook, seen: bool, other: bool)
    ensures var to := ReceiveWebhook(r, auth, w, seen, other);
            var unseen := !other && !seen && r.webhookEventId != Some(w.eventId) && Announced(w.kind).Some?;
            var exact := w.amount == Some(auth.amount) && w.currency.Some? && EqualButCase(w.currency.value, auth.currency);
            if unseen && exact && Legal(r.state, Announced(w.kind).value)
            then to == r.(state := Announced(w.kind).value, webhookEventId := Some(w.eventId),
                          paymentId := if w.kind == PaymentCaptured then w.paymentId else r.paymentId,
                          audit := r.audit + [WebhookApplied(Announced(w.kind).value)])
            else to == r.(audit := r.audit + if other || (unseen && !exact) then [WebhookRejected] else [])
  {
    if w.currency.Some? { FoldsIff(w.currency.value, auth.currency); }
  }

  /** The confirming read turns a row PAID exactly when it reports a capture nothing contradicts, and withdraws the capture
      exactly when it reports a failure, each where the table allows; a contradiction is noted, anything else ignored. */
  lemma ConfirmSays(r: Row, auth: Auth, read: Read<Payment>)
    ensures var to := ConfirmCapture(r, auth, read);
            var heard := (r.orderId.Some? || r.paymentId.Some?) && read.Got? && read.found.Some?;
            if heard && read.found.value.status == Captured && NotContradicted(auth, read.found.value) && Legal(r.state, PAID)
            then to == r.(state := PAID, paymentId := if read.found.value.id.Some? then read.found.value.id else r.paymentId,
                          audit := r.audit + [SettlementConfirmed])
            else if heard && read.found.value.status == Captured && !NotContradicted(auth, read.found.value)
            then to == r.(audit := r.audit + [ValueMismatch])
            else if heard && read.found.value.status == Failed && Legal(r.state, PROVIDER_UNKNOWN)
            then to == r.(state := PROVIDER_UNKNOWN, audit := r.audit + [SettlementNotConfirmed])
            else to == r
  {
    if read.Got? && read.found.Some? { ValuesAre(auth, read.found.value); }
  }

  /** The four error codes that mean a decline. */
  lemma DeclineCodes(code: string)
    ensures code in DECLINE_CODES <==> code == "card_declined" || code == "insufficient_funds" || code == "bank_declined" || code == "declined"
  {
  }

  /** The state a payment's own word asks for: none if it means nothing or contradicts the authorization, a decline
      excepted, which is believed as it is. */
  function Word(auth: Auth, p: Payment): Option<State> {
    if p.status == Failed && p.errorCode in DECLINE_CODES then Some(DECLINED)
    else if p.status == Unmapped || !NotContradicted(auth, p) then None
    else Some(match p.status case Captured => PAID case Failed => FAILED case _ => PROVIDER_AUTHORIZED)
  }

  /** A payment's word is followed exactly when the table lets the row enter the state it asks for. */
  lemma PaymentSays(r: Row, auth: Auth, p: Payment)
    requires !Terminal(r.state)
    ensures var o := AdoptPayment(r, auth, p);
            var to := Word(auth, p);
            && (to.Some? && Legal(r.state, to.value) ==>
                  && o.row == r.(state := to.value, paymentId := if to.value == PAID && p.id.Some? then p.id else r.paymentId,
                                 audit := r.audit + [Reconciled(r.state, to.value)])
                  && o.status == Settles && o.committed)
            && (to == Some(r.state) ==> o == Reconciliation(r, Settles, true))
            && (to.Some? && !Legal(r.state, to.value) && to.value != r.state ==> o == Reconciliation(r, Unreconciled, false))
            && (to.None? ==> o == if p.status == Unmapped then Reconciliation(r, Unreconciled, false)
                                  else Reconciliation(r.(audit := r.audit + [ValueMismatch]), Unreconciled, true))
  {
    ValuesAre(auth, p);
  }

  /** What one reconciliation goes by: nothing for a terminal row, an unconfigured provider, a receipt lookup that raises,
      or a row that names no order or payment even after the lookup; then the order's end, if the row names an order;
      then the payment's word. */
  lemma ReconcileSays(r: Row, auth: Auth, said: Reads)
    ensures var o := Reconcile(r, auth, said);
            var lost := r.state == PROVIDER_UNKNOWN && r.orderId.None?;
            var a := if lost && said.receipt.Got? && said.receipt.found.Some? && said.receipt.found.value.id.Some?
                     then r.(orderId := said.receipt.found.value.id) else r;
            var over := a.orderId.Some? && said.order.Got? && said.order.found.Some? && said.order.found.value.status != OrderOpen;
            if Terminal(r.state) then o == Reconciliation(r, AlreadyTerminal, false)
            else if !said.configured then o == Reconciliation(r, Unreconciled, true)
            else if lost && said.receipt.Raised? then o == Reconciliation(r, Crashed, false)
            else if (a.orderId.None? && a.paymentId.None?) || said.payment.Raised? || said.payment.found.None? then o == Reconciliation(a, Unreconciled, true)
            else if over then o == Move(a, if said.order.found.value.status == OrderCancelled then CANCELLED else EXPIRED)
            else o == AdoptPayment(a, auth, said.payment.found.value)
  {
  }

  /** A move is made, noted and committed exactly when the table allows it. */
  lemma MoveSays(r: Row, to: State)
    ensures Move(r, to) == if Legal(r.state, to) then Reconciliation(r.(state := to, audit := r.audit + [Reconciled(r.state, to)]), Settles, true)
                           else Reconciliation(r, Unreconciled, false)
  {
  }

  /** A visit that does not settle the row counts an attempt; at the fifth the row is dead-lettered where the table allows. */
  lemma VisitSays(r: Row, auth: Auth, said: Reads)
    ensures var o := Reconcile(r, auth, said);
            var to := WorkerVisit(r, auth, said);
            if o.status == Crashed then to == r
            else if o.status == Settles then to == o.row
            else if o.row.attempts + 1 >= 5 && Legal(o.row.state, PROVIDER_UNKNOWN)
            then to == o.row.(attempts := o.row.attempts + 1, state := PROVIDER_UNKNOWN, audit := o.row.audit + [DeadLettered])
            else to == o.row.(attempts := o.row.attempts + 1)
    ensures ReconcileNow(r, auth, said) == if Reconcile(r, auth, said).committed then Reconcile(r, auth, said).row else r
  {
  }

  /** A refund is made exactly on a PAID row that names its payment, for a positive amount, the authorized one if none is
      asked for, that the provider accepts. */
  lemma RefundSays(r: Row, auth: Auth, asked: Option<int>, accepted: bool)
    ensures var amount := if asked.Some? then asked.value else auth.amount;
            var made := r.state == PAID && r.paymentId.Some? && amount > 0 && accepted;
            && (RefundOutcome(r, auth, asked, accepted) == Refunded <==> made)
            && Refund(r, auth, asked, accepted) == (if made then r.(state := REFUNDED, audit := r.audit + [RefundIssued(amount)]) else r)
            && (RefundOutcome(r, auth, asked, accepted) == NotPaid <==> r.state != PAID)
            && (RefundOutcome(r, auth, asked, accepted) == ProviderRefused <==> r.state == PAID && r.paymentId.Some? && amount > 0 && !accepted)
  {
  }
}

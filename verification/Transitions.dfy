/** The transition table of a provider transaction (app/transitions.py). */
module Transitions {

  datatype State =
    | AUTHORIZED | PROVIDER_SUBMITTED | PROVIDER_AUTHORIZED | CAPTURED | PAYMENT_PENDING
    | PROVIDER_UNKNOWN | FAILED | PAID | REFUNDED | REVERSED | EXPIRED | CANCELLED | DECLINED

  predicate Legal(from: State, to: State) {
    match from
    case AUTHORIZED => to == PROVIDER_SUBMITTED || to == FAILED || to == PROVIDER_UNKNOWN || to == EXPIRED || to == CANCELLED
    case PROVIDER_SUBMITTED => to == PROVIDER_AUTHORIZED || to == CAPTURED || to == PAID || to == FAILED || to == DECLINED || to == PROVIDER_UNKNOWN
    case PROVIDER_AUTHORIZED => to == CAPTURED || to == PAID || to == FAILED || to == DECLINED || to == PROVIDER_UNKNOWN
    case CAPTURED => to == PAID || to == PROVIDER_UNKNOWN
    case PAYMENT_PENDING => to == CAPTURED || to == PAID || to == FAILED || to == DECLINED || to == PROVIDER_UNKNOWN
    case PROVIDER_UNKNOWN => to == PROVIDER_AUTHORIZED || to == CAPTURED || to == PAID || to == FAILED || to == DECLINED || to == PROVIDER_SUBMITTED
    case FAILED => to == CAPTURED || to == PAID
    case PAID => to == REFUNDED || to == REVERSED
    case _ => false
  }

  /** States the reconciler reports as they are. */
  predicate Terminal(s: State) {
    s == PAID || s == REFUNDED || s == REVERSED || s == EXPIRED || s == CANCELLED || s == DECLINED
  }

  /** Money moved and was confirmed, whatever happened to it later. */
  predicate Settled(s: State) {
    s == PAID || s == REFUNDED || s == REVERSED
  }

  predicate Path(p: seq<State>) {
    |p| > 0 && forall i :: 0 <= i < |p| - 1 ==> Legal(p[i], p[i + 1])
  }

  ghost predicate Leads(from: State, to: State) {
    exists p :: Path(p) && p[0] == from && p[|p| - 1] == to
  }

  lemma TerminalStays(s: State, p: seq<State>)
    requires Terminal(s) && s != PAID && Path(p) && p[0] == s
    ensures |p| == 1
  {
    assert |p| > 1 ==> Legal(p[0], p[1]);
  }

  /** The two tables agree: apart from PAID itself, the states from which the transition table can still reach
      PAID are exactly those the reconciler does not call terminal. */
  lemma PaidReachableIffNotTerminal(s: State)
    ensures Leads(s, PAID) <==> s == PAID || !Terminal(s)
  {
    if s == PAID || !Terminal(s) {
      var p := if s == PAID then [PAID] else if s == AUTHORIZED then [s, PROVIDER_SUBMITTED, PAID] else [s, PAID];
      assert Path(p) && p[0] == s && p[|p| - 1] == PAID;
    } else {
      forall p | Path(p) && p[0] == s ensures p[|p| - 1] != PAID {
        TerminalStays(s, p);
      }
    }
  }
}

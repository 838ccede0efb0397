/** Signed mandates (app/mandate_signing.py): the payload the user's key signs, its canonical text,
    and the signature rule of app/mandates.py. Signatures are ideal: one that verifies under a key
    for one text verifies under that key for no other. */
module MandateSigning {
  import opened Text
  import opened Sorting
  import opened Mandates
  import opened Json
  import Gate
  import Payments

  /** `int(t.timestamp())` truncates towards zero. */
  function Seconds(t: int): int {
    if t >= 0 then t / 1_000_000 else -((-t) / 1_000_000)
  }

  function OptNum(o: Option<int>): Json {
    match o
    case None => JNull
    case Some(n) => JNum(n)
  }

  function Strings(xs: seq<string>): Json {
    JArr(seq(|xs|, i requires 0 <= i < |xs| => JStr(xs[i])))
  }

  /** An allow-list as it is signed: sorted, with absent and empty the same. */
  function SignedList(xs: Option<seq<string>>): seq<string> {
    Sort(StrLe, Listed(xs))
  }

  function Constraints(m: Mandate): Json {
    JObj(map[
      "currency" := JStr(m.currency),
      "max_per_transaction" := JNum(m.maxPerTransaction),
      "max_daily_amount" := JNum(m.maxDailyAmount),
      "max_per_hour" := OptNum(m.maxPerHour),
      "max_per_merchant_per_day" := OptNum(m.maxPerMerchantPerDay),
      "max_category_per_day" := OptNum(m.maxCategoryPerDay),
      "allowed_merchants" := Strings(SignedList(m.allowedMerchants)),
      "allowed_categories" := Strings(SignedList(m.allowedCategories)),
      "require_review_above" := OptNum(m.requireReviewAbove)])
  }

  /** `mandate_payload`. */
  function Payload(m: Mandate): Json {
    JObj(map[
      "purpose" := JStr("paari_user_payment_mandate"),
      "mandate_version" := JNum(1),
      "mandate_id" := JStr(m.id),
      "user_id" := JStr(m.userId),
      "agent_id" := JStr(m.who.agentId),
      "org_id" := JStr(m.who.orgId),
      "constraints" := Constraints(m),
      "issued_at" := JNum(Seconds(m.validFrom)),
      "expires_at" := JNum(Seconds(m.expiresAt))])
  }

  /** `canonical_payload_bytes`: what is signed. */
  function SignedText(m: Mandate): string {
    Print(Payload(m))
  }

  // ------------------------------------------------------------------ what the text covers

  ghost predicate SameEntries(a: Option<seq<string>>, b: Option<seq<string>>) {
    multiset(Listed(a)) == multiset(Listed(b))
  }

  predicate SameConstraints(a: Mandate, b: Mandate) {
    && a.currency == b.currency && a.maxPerTransaction == b.maxPerTransaction && a.maxDailyAmount == b.maxDailyAmount
    && a.maxPerHour == b.maxPerHour && a.maxPerMerchantPerDay == b.maxPerMerchantPerDay && a.maxCategoryPerDay == b.maxCategoryPerDay
    && a.requireReviewAbove == b.requireReviewAbove
  }

  /** The governed fields agree: allow-lists as multisets, validity to the second. */
  ghost predicate GovernedAlike(a: Mandate, b: Mandate) {
    && a.id == b.id && a.userId == b.userId && a.who == b.who
    && SameConstraints(a, b)
    && SameEntries(a.allowedMerchants, b.allowedMerchants) && SameEntries(a.allowedCategories, b.allowedCategories)
    && Seconds(a.validFrom) == Seconds(b.validFrom) && Seconds(a.expiresAt) == Seconds(b.expiresAt)
  }

  lemma SignedListIff(a: Option<seq<string>>, b: Option<seq<string>>)
    ensures SignedList(a) == SignedList(b) <==> SameEntries(a, b)
  {
    Gate.StrLeOrders();
    SortSorts(StrLe, Listed(a));
    SortSorts(StrLe, Listed(b));
    if SameEntries(a, b) {
      forall x, y | x in Listed(a) && y in Listed(a) && StrLe(x, y) && StrLe(y, x) ensures x == y { StrLeTotal(x, y); }
      SortForgetsOrder(StrLe, Listed(a), Listed(b));
    }
  }

  lemma StringsInjective(xs: seq<string>, ys: seq<string>)
    ensures Strings(xs) == Strings(ys) <==> xs == ys
  {
    if Strings(xs) == Strings(ys) {
      assert |xs| == |Strings(xs).items| == |ys|;
      forall i | 0 <= i < |xs| ensures xs[i] == ys[i] {
        assert Strings(xs).items[i] == JStr(xs[i]) && Strings(ys).items[i] == JStr(ys[i]);
      }
    }
  }

  lemma ConstraintsIff(a: Mandate, b: Mandate)
    ensures Constraints(a) == Constraints(b) <==>
      SameConstraints(a, b) && SameEntries(a.allowedMerchants, b.allowedMerchants) && SameEntries(a.allowedCategories, b.allowedCategories)
  {
    SignedListIff(a.allowedMerchants, b.allowedMerchants);
    SignedListIff(a.allowedCategories, b.allowedCategories);
    StringsInjective(SignedList(a.allowedMerchants), SignedList(b.allowedMerchants));
    StringsInjective(SignedList(a.allowedCategories), SignedList(b.allowedCategories));
    ConstraintsFields(a, b);
  }

  lemma SameCaps(a: Mandate, b: Mandate)
    requires Constraints(a) == Constraints(b)
    ensures a.currency == b.currency && a.maxPerTransaction == b.maxPerTransaction && a.maxDailyAmount == b.maxDailyAmount
  {
    var f, g := Constraints(a).fields, Constraints(b).fields;
    assert f["currency"] == JStr(a.currency) && g["currency"] == JStr(b.currency);
    assert f["max_per_transaction"] == JNum(a.maxPerTransaction) && g["max_per_transaction"] == JNum(b.maxPerTransaction);
    assert f["max_daily_amount"] == JNum(a.maxDailyAmount) && g["max_daily_amount"] == JNum(b.maxDailyAmount);
  }

  lemma SameOptionalCaps(a: Mandate, b: Mandate)
    requires Constraints(a) == Constraints(b)
    ensures a.maxPerHour == b.maxPerHour && a.maxPerMerchantPerDay == b.maxPerMerchantPerDay && a.maxCategoryPerDay == b.maxCategoryPerDay
  {
    var f, g := Constraints(a).fields, Constraints(b).fields;
    assert f["max_per_hour"] == g["max_per_hour"];
    assert f["max_per_merchant_per_day"] == g["max_per_merchant_per_day"];
    assert f["max_category_per_day"] == g["max_category_per_day"];
  }

  lemma SameListsAndReview(a: Mandate, b: Mandate)
    requires Constraints(a) == Constraints(b)
    ensures Strings(SignedList(a.allowedMerchants)) == Strings(SignedList(b.allowedMerchants))
    ensures Strings(SignedList(a.allowedCategories)) == Strings(SignedList(b.allowedCategories))
    ensures a.requireReviewAbove == b.requireReviewAbove
  {
    var f, g := Constraints(a).fields, Constraints(b).fields;
    assert f["allowed_merchants"] == g["allowed_merchants"];
    assert f["allowed_categories"] == g["allowed_categories"];
    assert f["require_review_above"] == g["require_review_above"];
  }

  lemma ConstraintsFields(a: Mandate, b: Mandate)
    ensures Constraints(a) == Constraints(b) <==>
      SameConstraints(a, b)
      && Strings(SignedList(a.allowedMerchants)) == Strings(SignedList(b.allowedMerchants))
      && Strings(SignedList(a.allowedCategories)) == Strings(SignedList(b.allowedCategories))
  {
    if Constraints(a) == Constraints(b) {
      SameCaps(a, b);
      SameOptionalCaps(a, b);
      SameListsAndReview(a, b);
    }
  }

  lemma SameIdentity(a: Mandate, b: Mandate)
    requires Payload(a) == Payload(b)
    ensures a.id == b.id && a.userId == b.userId && a.who == b.who
  {
    var f, g := Payload(a).fields, Payload(b).fields;
    assert f["mandate_id"] == g["mandate_id"];
    assert f["user_id"] == g["user_id"];
    assert f["agent_id"] == g["agent_id"];
    assert f["org_id"] == g["org_id"];
  }

  lemma SameTerms(a: Mandate, b: Mandate)
    requires Payload(a) == Payload(b)
    ensures Constraints(a) == Constraints(b) && Seconds(a.validFrom) == Seconds(b.validFrom) && Seconds(a.expiresAt) == Seconds(b.expiresAt)
  {
    var f, g := Payload(a).fields, Payload(b).fields;
    assert f["constraints"] == g["constraints"];
    assert f["issued_at"] == g["issued_at"];
    assert f["expires_at"] == g["expires_at"];
  }

  lemma PayloadFields(a: Mandate, b: Mandate)
    ensures Payload(a) == Payload(b) <==>
      && a.id == b.id && a.userId == b.userId && a.who == b.who && Constraints(a) == Constraints(b)
      && Seconds(a.validFrom) == Seconds(b.validFrom) && Seconds(a.expiresAt) == Seconds(b.expiresAt)
  {
    if Payload(a) == Payload(b) {
      SameIdentity(a, b);
      SameTerms(a, b);
    }
  }

  /** Two rows have the same signed text exactly when all governed fields agree. */
  lemma SignedTextIffGovernedAlike(a: Mandate, b: Mandate)
    ensures SignedText(a) == SignedText(b) <==> GovernedAlike(a, b)
  {
    CanonicalTextInjective(Payload(a), Payload(b));
    PayloadFields(a, b);
    ConstraintsIff(a, b);
  }

  // ------------------------------------------------------------------ a signer who never saw this table

  /** `s` is the instant in whole seconds, rounded towards zero. */
  predicate WholeSeconds(t: int, s: int) {
    if t >= 0 then 0 <= t - s * 1_000_000 < 1_000_000 else -1_000_000 < t - s * 1_000_000 <= 0
  }

  lemma SecondsAre(t: int, s: int)
    requires WholeSeconds(t, s)
    ensures Seconds(t) == s
  {
  }

  /** The list a signer writes: the entries in code-point order. */
  ghost predicate ListedAs(xs: Option<seq<string>>, v: Json) {
    exists sorted: seq<string> {:trigger Strings(sorted)} ::
      v == Strings(sorted) && Ascending(StrLe, sorted) && multiset(sorted) == multiset(if xs.Some? then xs.value else [])
  }

  ghost predicate OptionalAs(o: Option<int>, v: Json) {
    if o.Some? then v == JNum(o.value) else v == JNull
  }

  /** The constraints as a document names them. */
  ghost predicate NamesConstraints(c: map<string, Json>, m: Mandate) {
    && c.Keys == {"currency", "max_per_transaction", "max_daily_amount", "max_per_hour", "max_per_merchant_per_day", "max_category_per_day",
                  "allowed_merchants", "allowed_categories", "require_review_above"}
    && c["currency"] == JStr(m.currency)
    && c["max_per_transaction"] == JNum(m.maxPerTransaction) && c["max_daily_amount"] == JNum(m.maxDailyAmount)
    && OptionalAs(m.maxPerHour, c["max_per_hour"]) && OptionalAs(m.maxPerMerchantPerDay, c["max_per_merchant_per_day"])
    && OptionalAs(m.maxCategoryPerDay, c["max_category_per_day"]) && OptionalAs(m.requireReviewAbove, c["require_review_above"])
    && ListedAs(m.allowedMerchants, c["allowed_merchants"]) && ListedAs(m.allowedCategories, c["allowed_categories"])
  }

  /** The mandate as a document names it. */
  ghost predicate Names(f: map<string, Json>, c: map<string, Json>, issued: int, expires: int, m: Mandate) {
    && f.Keys == {"purpose", "mandate_version", "mandate_id", "user_id", "agent_id", "org_id", "constraints", "issued_at", "expires_at"}
    && f["purpose"] == JStr("paari_user_payment_mandate") && f["mandate_version"] == JNum(1)
    && f["mandate_id"] == JStr(m.id) && f["user_id"] == JStr(m.userId)
    && f["agent_id"] == JStr(m.who.agentId) && f["org_id"] == JStr(m.who.orgId) && f["constraints"] == JObj(c)
    && f["issued_at"] == JNum(issued) && WholeSeconds(m.validFrom, issued) && f["expires_at"] == JNum(expires) && WholeSeconds(m.expiresAt, expires)
  }

  lemma ListedAgree(xs: Option<seq<string>>, v: Json)
    requires ListedAs(xs, v)
    ensures v == Strings(SignedList(xs))
  {
    var sorted: seq<string> :| v == Strings(sorted) && Ascending(StrLe, sorted) && multiset(sorted) == multiset(if xs.Some? then xs.value else []);
    Gate.StrLeOrders();
    forall x, y | x in sorted && y in sorted && StrLe(x, y) && StrLe(y, x) ensures x == y { StrLeTotal(x, y); }
    SortedIs(StrLe, Listed(xs), sorted);
  }

  /** The names of the constraints. */
  const CONSTRAINTS: set<string> :=
    {"currency", "max_per_transaction", "max_daily_amount", "max_per_hour", "max_per_merchant_per_day", "max_category_per_day",
     "allowed_merchants", "allowed_categories", "require_review_above"}

  lemma SameNine(a: map<string, Json>, b: map<string, Json>)
    requires a.Keys == CONSTRAINTS == b.Keys
    requires a["currency"] == b["currency"] && a["max_per_transaction"] == b["max_per_transaction"] && a["max_daily_amount"] == b["max_daily_amount"]
    requires a["max_per_hour"] == b["max_per_hour"] && a["max_per_merchant_per_day"] == b["max_per_merchant_per_day"]
    requires a["max_category_per_day"] == b["max_category_per_day"] && a["require_review_above"] == b["require_review_above"]
    requires a["allowed_merchants"] == b["allowed_merchants"] && a["allowed_categories"] == b["allowed_categories"]
    ensures a == b
  {
  }

  lemma ConstraintKeys(m: Mandate)
    ensures Constraints(m).fields.Keys == CONSTRAINTS
  {
  }

  lemma ConstraintsAgree(c: map<string, Json>, m: Mandate)
    requires NamesConstraints(c, m)
    ensures JObj(c) == Constraints(m)
  {
    ConstraintKeys(m);
    CurrencyAgrees(c, m);
    CapsAgree(c, m);
    HourCapAgrees(c, m);
    MerchantCapAgrees(c, m);
    CategoryCapAgrees(c, m);
    ReviewAgrees(c, m);
    ListsAgree(c, m);
    SameNine(c, Constraints(m).fields);
  }

  lemma ListsAgree(c: map<string, Json>, m: Mandate)
    requires NamesConstraints(c, m)
    ensures c["allowed_merchants"] == Constraints(m).fields["allowed_merchants"]
    ensures c["allowed_categories"] == Constraints(m).fields["allowed_categories"]
  {
    ListedAgree(m.allowedMerchants, c["allowed_merchants"]);
    ListedAgree(m.allowedCategories, c["allowed_categories"]);
  }

  lemma HourCapAgrees(c: map<string, Json>, m: Mandate)
    requires NamesConstraints(c, m)
    ensures c["max_per_hour"] == Constraints(m).fields["max_per_hour"]
  {
  }

  lemma MerchantCapAgrees(c: map<string, Json>, m: Mandate)
    requires NamesConstraints(c, m)
    ensures c["max_per_merchant_per_day"] == Constraints(m).fields["max_per_merchant_per_day"]
  {
  }

  lemma CurrencyAgrees(c: map<string, Json>, m: Mandate)
    requires NamesConstraints(c, m)
    ensures c["currency"] == Constraints(m).fields["currency"]
  {
  }

  lemma CapsAgree(c: map<string, Json>, m: Mandate)
    requires NamesConstraints(c, m)
    ensures c["max_per_transaction"] == Constraints(m).fields["max_per_transaction"]
    ensures c["max_daily_amount"] == Constraints(m).fields["max_daily_amount"]
  {
  }

  lemma CategoryCapAgrees(c: map<string, Json>, m: Mandate)
    requires NamesConstraints(c, m)
    ensures c["max_category_per_day"] == Constraints(m).fields["max_category_per_day"]
  {
  }

  lemma ReviewAgrees(c: map<string, Json>, m: Mandate)
    requires NamesConstraints(c, m)
    ensures c["require_review_above"] == Constraints(m).fields["require_review_above"]
  {
  }

  /** A trusted surface that writes the mandate down by name, knowing nothing of this table, signs the very text that is
      verified here; so its signature is accepted. */
  lemma SignerAgrees(f: map<string, Json>, c: map<string, Json>, issued: int, expires: int, m: Mandate, verify: Verifier, key: string, sig: string)
    requires Names(f, c, issued, expires, m) && NamesConstraints(c, m) && key != "" && sig != "" && verify(key, Print(JObj(f)), sig)
    ensures Print(JObj(f)) == SignedText(m)
    ensures SignatureOk(verify, true, m.(signature := Some(sig), userPublicKey := Some(key)))
  {
    ConstraintsAgree(c, m);
    SecondsAre(m.validFrom, issued);
    SecondsAre(m.expiresAt, expires);
    PayloadAgrees(f, m);
    SignedTextIffGovernedAlike(m, m.(signature := Some(sig), userPublicKey := Some(key)));
  }

  lemma PayloadAgrees(f: map<string, Json>, m: Mandate)
    requires Names(f, Constraints(m).fields, Seconds(m.validFrom), Seconds(m.expiresAt), m)
    ensures JObj(f) == Payload(m)
  {
    var g := Payload(m).fields;
    assert f.Keys == g.Keys;
    forall k | k in f ensures f[k] == g[k] {
    }
    assert f == g;
  }

  // ------------------------------------------------------------------ the signature rule

  /** `verify(key, text, signature)`. */
  type Verifier = (string, string, string) -> bool

  ghost predicate Binding(verify: Verifier) {
    forall key, a, b, sig :: verify(key, a, sig) && verify(key, b, sig) ==> a == b
  }

  predicate Carries(o: Option<string>) {
    o.Some? && o.value != ""
  }

  /** `check_mandate_signature`: a carried signature must verify; an absent one passes unless required. */
  predicate SignatureOk(verify: Verifier, required: bool, m: Mandate) {
    if !Carries(m.signature) then !required
    else Carries(m.userPublicKey) && verify(m.userPublicKey.value, SignedText(m), m.signature.value)
  }

  /** A rule decides as the signature check does. */
  ghost predicate Enforces(sigOk: Mandate -> bool, verify: Verifier, required: bool) {
    forall m: Mandate :: sigOk(m) == SignatureOk(verify, required, m)
  }

  /** The row as it is after somebody changed it, with the signature and key it had. */
  predicate SameSeal(m: Mandate, altered: Mandate) {
    altered.signature == m.signature && altered.userPublicKey == m.userPublicKey
  }

  /** A row keeping a good signature and its key still passes exactly when no governed field changed. */
  lemma SealIffGovernedAlike(verify: Verifier, required: bool, m: Mandate, altered: Mandate)
    requires Binding(verify) && Carries(m.signature) && SignatureOk(verify, required, m) && SameSeal(m, altered)
    ensures SignatureOk(verify, required, altered) <==> GovernedAlike(m, altered)
  {
    SignedTextIffGovernedAlike(m, altered);
  }

  /** The signature column is empty, and unsigned mandates are accepted. */
  predicate Stripped(required: bool, altered: Mandate) {
    !Carries(altered.signature) && !required
  }

  /** The signature or the key is another, and the pair verifies: the key is read from the row it vouches for. */
  predicate Rekeyed(verify: Verifier, m: Mandate, altered: Mandate) {
    && !SameSeal(m, altered) && Carries(altered.signature) && Carries(altered.userPublicKey)
    && verify(altered.userPublicKey.value, SignedText(altered), altered.signature.value)
  }

  ghost predicate EditSurvives(verify: Verifier, required: bool, m: Mandate, altered: Mandate) {
    (SameSeal(m, altered) && GovernedAlike(m, altered)) || Stripped(required, altered) || Rekeyed(verify, m, altered)
  }

  /** A signed row, edited in any columns at all, passes the signature rule exactly when its governed fields agree
      under the old seal, or its signature was cleared while none is required, or its seal was replaced by one
      that verifies. */
  lemma AlteredRowPassesIff(verify: Verifier, required: bool, m: Mandate, altered: Mandate)
    requires Binding(verify) && Carries(m.signature) && SignatureOk(verify, required, m)
    ensures SignatureOk(verify, required, altered) <==> EditSurvives(verify, required, m, altered)
  {
    if SameSeal(m, altered) { SealIffGovernedAlike(verify, required, m, altered); }
  }

  /** Every other edit is refused at evaluation, denies every payment of its agent while the row is active, and is
      refused again when an authorization it backs is consumed; a surviving edit is never refused for its signature. */
  lemma AlteredMandateIsDenied(sigOk: Mandate -> bool, verify: Verifier, required: bool, m: Mandate, altered: Mandate,
                               rows: seq<Mandate>, log: seq<Intent>, who: Who, p: Proposal, now: int)
    requires Binding(verify) && Enforces(sigOk, verify, required) && Carries(m.signature) && sigOk(m)
    ensures CheckOne(sigOk, log, altered, p, now) == Refused(BadSignature) <==> !EditSurvives(verify, required, m, altered)
    ensures !EditSurvives(verify, required, m, altered) ==>
              && !Payments.StillPermits(sigOk, altered, p, now)
              && (altered in rows && altered.who == who && InWindow(altered, now)
                  ==> !EvaluateMandate(sigOk, rows, true, rows, log, who, p, now).ok)
  {
    AlteredRowPassesIff(verify, required, m, altered);
    if !sigOk(altered) && altered in rows && altered.who == who && InWindow(altered, now) { OneBadRowDenies(sigOk, altered, rows, log, p, now); }
  }

  lemma OneBadRowDenies(sigOk: Mandate -> bool, bad: Mandate, rows: seq<Mandate>, log: seq<Intent>, p: Proposal, now: int)
    requires !sigOk(bad) && bad in rows && InWindow(bad, now)
    ensures !EvaluateMandate(sigOk, rows, true, rows, log, bad.who, p, now).ok
  {
    ActiveMandatesAreLive(rows, bad.who, now);
    FirstRefusalFinds(sigOk, ActiveMandates(rows, bad.who, now), log, p, now);
  }

  /** Under one key only the given texts were ever signed, whatever signature is tried. */
  ghost predicate OnlySigned(verify: Verifier, key: string, texts: set<string>) {
    forall t, sig :: verify(key, t, sig) ==> t in texts
  }

  /** If the key column is kept and its owner signed this mandate alone, no signature at all makes an edited row pass:
      what may be trusted is the key, not the row. */
  lemma KeptKeyPassesIff(verify: Verifier, m: Mandate, altered: Mandate)
    requires SignatureOk(verify, true, m) && OnlySigned(verify, m.userPublicKey.value, {SignedText(m)})
    requires altered.userPublicKey == m.userPublicKey
    ensures (exists sig: Option<string> :: SignatureOk(verify, true, altered.(signature := sig))) <==> GovernedAlike(m, altered)
  {
    SignedTextIffGovernedAlike(m, altered);
    forall sig: Option<string> ensures SignedText(altered.(signature := sig)) == SignedText(altered) {
      SignedTextIffGovernedAlike(altered.(signature := sig), altered);
    }
    if GovernedAlike(m, altered) {
      assert SignatureOk(verify, true, altered.(signature := m.signature));
    }
  }

  /** The row with room for a payment of `amount`, every other limit lifted, under a seal of the editor's choice. */
  function Widened(log: seq<Intent>, m: Mandate, amount: int, now: int, signature: Option<string>, key: Option<string>): Mandate {
    m.(maxPerTransaction := amount, maxDailyAmount := amount + Spent(log, m, Daily, now), maxPerHour := None,
       maxPerMerchantPerDay := None, maxCategoryPerDay := None, allowedMerchants := None, allowedCategories := None,
       requireReviewAbove := None, signature := signature, userPublicKey := key)
  }

  /** An edited row that takes the place of the agent's only signed mandate and lets through a payment the signed one
      refused. */
  ghost predicate RaisesLimit(sigOk: Mandate -> bool, log: seq<Intent>, m: Mandate, altered: Mandate, p: Proposal, now: int) {
    && !EvaluateMandate(sigOk, [m], true, [m], log, m.who, p, now).ok
    && EvaluateMandate(sigOk, [altered], true, [altered], log, m.who, p, now).ok
    && Payments.StillPermits(sigOk, altered, p, now)
  }

  lemma OnlyRow(sigOk: Mandate -> bool, log: seq<Intent>, m: Mandate, p: Proposal, now: int)
    requires InWindow(m, now)
    ensures EvaluateMandate(sigOk, [m], true, [m], log, m.who, p, now).ok <==> CheckOne(sigOk, log, m, p, now).Passed?
  {
    var active := ActiveMandates([m], m.who, now);
    ActiveMandatesAreLive([m], m.who, now);
    FirstRefusalFinds(sigOk, active, log, p, now);
    assert m in [m] && m in active;
  }

  lemma {:induction false} SpendAlike(log: seq<Intent>, a: Mandate, b: Mandate, start: int, now: int)
    requires a.who == b.who && a.currency == b.currency
    ensures SpendSince(log, a, start, now, Everything) == SpendSince(log, b, start, now, Everything)
  {
    if |log| > 0 { SpendAlike(log[..|log| - 1], a, b, start, now); }
  }

  lemma WidenedPasses(sigOk: Mandate -> bool, log: seq<Intent>, m: Mandate, altered: Mandate, p: Proposal, now: int)
    requires altered == Widened(log, m, p.amount, now, altered.signature, altered.userPublicKey) && sigOk(altered)
    requires p.currency == m.currency
    ensures CheckOne(sigOk, log, altered, p, now).Passed?
  {
    SpendAlike(log, m, altered, WindowStart(now, DAY, m), now);
  }

  lemma WidenedRaisesLimit(sigOk: Mandate -> bool, log: seq<Intent>, m: Mandate, altered: Mandate, p: Proposal, now: int)
    requires altered == Widened(log, m, p.amount, now, altered.signature, altered.userPublicKey) && sigOk(altered)
    requires InWindow(m, now) && p.amount > m.maxPerTransaction && p.currency == m.currency
    ensures RaisesLimit(sigOk, log, m, altered, p, now)
  {
    WidenedPasses(sigOk, log, m, altered, p, now);
    OnlyRow(sigOk, log, m, p, now);
    OnlyRow(sigOk, log, altered, p, now);
  }

  /** So a direct edit of a signed row does raise its limits, to any amount: by clearing the signature where unsigned
      mandates are accepted, and by sealing the row afresh under any key pair everywhere. */
  lemma AnEditRaisesAnyLimit(sigOk: Mandate -> bool, verify: Verifier, required: bool, sign: (string, string) -> string,
                             publicOf: string -> string, log: seq<Intent>, m: Mandate, merchant: string, amount: int, now: int)
    requires Enforces(sigOk, verify, required) && InWindow(m, now) && amount > m.maxPerTransaction
    requires !required || Fits(verify, sign, publicOf)
    ensures exists signature, key ::
      RaisesLimit(sigOk, log, m, Widened(log, m, amount, now, signature, key), Proposal(merchant, amount, m.currency, None), now)
  {
    var bare := Widened(log, m, amount, now, None, None);
    var signature := if required then Some(sign("", SignedText(bare))) else None;
    var key := if required then Some(publicOf("")) else None;
    var altered := Widened(log, m, amount, now, signature, key);
    SignedTextIffGovernedAlike(bare, altered);
    WidenedRaisesLimit(sigOk, log, m, altered, Proposal(merchant, amount, m.currency, None), now);
  }

  /** Revocation is not part of what is signed: the signature rule alone would honour a revoked mandate, which
      is why no evaluation sees it and no consume accepts it. */
  lemma SignatureIgnoresLiveness(sigOk: Mandate -> bool, verify: Verifier, required: bool, m: Mandate, rows: seq<Mandate>, p: Proposal, now: int)
    requires Enforces(sigOk, verify, required)
    ensures var dead := m.(status := REVOKED);
            sigOk(dead) == sigOk(m) && dead !in ActiveMandates(rows, m.who, now) && !Payments.StillPermits(sigOk, dead, p, now)
  {
    SignedTextIffGovernedAlike(m, m.(status := REVOKED));
    ActiveMandatesAreLive(rows, m.who, now);
  }

  // ------------------------------------------------------------------ signing in place

  /** A key pair's halves fit: what one signs the other verifies, and signatures are not empty. */
  ghost predicate Fits(verify: Verifier, sign: (string, string) -> string, publicOf: string -> string) {
    forall k, t {:trigger sign(k, t)} :: verify(publicOf(k), t, sign(k, t)) && sign(k, t) != "" && publicOf(k) != ""
  }

  class MandateRow {
    var mandate: Mandate
    var signingKeyId: Option<string>
    var signedAt: Option<int>

    constructor (m: Mandate)
      ensures mandate == m && signingKeyId == None && signedAt == None
    {
      mandate, signingKeyId, signedAt := m, None, None;
    }

    /** `sign_mandate`: stores the signature beside the governed fields, which it
        leaves alone, so the row then verifies under the signer's key. */
    method SignMandate(verify: Verifier, sign: (string, string) -> string, publicOf: string -> string,
                       privateKey: string, keyId: string, now: int) returns (signature: string)
      requires Fits(verify, sign, publicOf)
      modifies this
      ensures signature == sign(privateKey, SignedText(old(mandate))) && signingKeyId == Some(keyId) && signedAt == Some(now)
      ensures mandate == old(mandate).(signature := Some(signature), userPublicKey := Some(publicOf(privateKey)))
      ensures SignedText(mandate) == SignedText(old(mandate)) && SignatureOk(verify, true, mandate)
    {
      signature := sign(privateKey, SignedText(mandate));
      ghost var before := mandate;
      mandate := mandate.(signature := Some(signature), userPublicKey := Some(publicOf(privateKey)));
      signingKeyId, signedAt := Some(keyId), Some(now);
      SignedTextIffGovernedAlike(before, mandate);
    }
  }
}

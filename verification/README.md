# Verified model of Paari's payment authority

Paari lets software agents spend money under authority that people grant and can withdraw. An agent asks
to pay; the service judges the request against every active user mandate, mints a single-use authorization,
executes it at a payment provider, learns the outcome from webhooks and reads, and keeps a hash-chained record
of all of it. This project models that path and proves what it promises over whole runs, whatever the provider or a
language model may answer. Handlers that read, then write, are let overlap where that matters: gated evaluation,
colliding submissions, writers of a provider transaction, rotations and revocations, step-up, the audit chain. There
the results say exactly which overlaps keep a promise; elsewhere a handler is one step, as "Left out" lists.

| file | models |
|---|---|
| `Text.dfy`, `Sorting.dfy`, `Runs.dfy`, `Locks.dfy`, `Flushing.dfy` | case folding and code-point order; Python's `sorted`; runs of a state machine; locks of sessions; what a session flushes |
| `Mandates.dfy` | resolving active mandates, rolling spend, the rules of one mandate, the intersection of all |
| `Lifecycle.dfy` | the mandate table over time: creation, revocation, the two sweepers |
| `Budget.dfy` | what local budget checks add up to in every window of every log |
| `Gate.dfy` | concurrent evaluators: sample the clock, take the gate lock by lock, judge, commit |
| `Overspend.dfy`, `Serial.dfy` | when sessions of one agent get past their gates together, and what that costs; contended runs as serial ones |
| `Payments.dfy`, `StepUps.dfy` | the intent and step-up handlers, minting, the mandate checks repeated at consume; step-up handlers that overlap |
| `Transitions.dfy`, `Settlement.dfy`, `Replies.dfy`, `SettlementRuns.dfy` | the provider transaction and its writers; what each state of a row says about the provider; runs against any provider |
| `StaleWrites.dfy` | the same writers when a session writes a row it loaded earlier |
| `EndToEnd.dfy`, `Collisions.dfy` | gate, minting and settlement joined; submissions that share an idempotency key |
| `Json.dfy`, `MandateSigning.dfy` | canonical JSON with a parser that undoes it; signed mandates |
| `Audit.dfy` | the hash chain, its two formats, and concurrent recording, under the chain lock and without it |
| `RateLimit.dfy`, `Broker.dfy` | the fixed-window limiter; the broker and its loop |
| `Delegation.dfy`, `Rotations.dfy` | registration, rotation, revocation, each handler whole; the same when handlers overlap |

How to read it. A handler that updates a row is a method of a class whose `ensures` equates the new state with a
function of the old one; runs are sequences of steps over those functions, played by `Runs.Play`, and
invariants are proved of every run. Instants are integers in microseconds. Money is an unbounded integer in minor
units. The provider, the clock, the model and the server are parameters. Crypto is ideal: a hash is a function
to 64 hexadecimal digits that does not collide on the texts actually hashed, and a signature that verifies under a
key for one text verifies under that key for no other.

What the code does where its own description promises more, or where a limit is sharper than it looks:

- The evaluation instant is sampled before the gate, so rows can reach the log out of clock order. The daily cap
  holds in every 24h interval of every serial run exactly when no reading comes before one committed earlier by at most
  a day (`Budget.DailyCapIffTimesInOrder`).
- Taking a gate commits first, which on Postgres lets go of the gate taken before it. After "all" gates are acquired
  only the last id's lock is held, so two requests with overlapping mandate sets exclude each other exactly when
  their sorted ids end in the same one (`Overspend.BothPassIffLastLocksDiffer`). Two payments that fit one by one and
  not together break the daily cap in some run exactly then (`Overspend.OverspendIffLastLocksDiffer`), and creating a
  mandate between two submissions is enough to get there from an empty log (`Overspend.TwoSessionsOverspend`). The
  other run-level results assume that sessions of one agent contend in this sense; with SQLite's single writer they
  always do.
- A submission whose idempotency key is taken while it waits gets the row that holds the key back and, when it was
  itself allowed, mints from that row whatever its decision. So a denied payment of any size can be executed outside
  every budget. Every executing row backs an allowed intent in all interleavings of given submissions exactly when no
  agent brings in one key twice (`Collisions.BackedIffKeysDistinct`); `EndToEnd` and `Payments.AuthorizationsMatchIntents`
  hold of runs in which no allowed submission is committed over a row that is not (a misfire), which is the exact
  condition step by step (`EndToEnd.CommitKeepsLinkedIff`, `Payments.OverlapBreaksIff`).
- Rotation and revocation lock nothing and read nothing again. A rotation whose document leaves the limit out, landing
  after another that raised it, leaves the agent the raised limit under its own record, and two good credentials
  (`Rotations.OverlappingRotations`); one landing after a revocation leaves the revoked agent a good credential
  (`Rotations.RotationOutlivesRevocation`). Which landings do no harm is exact (`Rotations.RunsStayBackedIff`), and every
  document is safe to land exactly when nothing was changed since it was loaded (`Rotations.AnyDocumentLandsIff`).
- Two overlapping challenge requests leave two unused challenges of one intent, and only such requests do
  (`StepUps.OneUnusedIffAlone`). Minting does not depend on that: the authorization id is unique
  (`StepUps.OverlappingAuthorizationsMatch`).
- Admission compares currencies without case and spend is summed over the exact spelling, so a mandate's budgets
  bind exactly when the two spellings agree (`Budget.BudgetBlindIffSpellingsDiffer`).
- At the instant of expiry evaluation no longer sees a mandate while a consume still accepts it
  (`Payments.RevalidationIsEvaluationWithoutBudgets`).
- CANCELLED, EXPIRED, REVERSED and PAYMENT_PENDING are in the transition table but no run enters them, so an informed
  reconciliation that finds the order cancelled or expired leaves the row unsettled
  (`SettlementRuns.DeadStates`, `SettlementRuns.ReconcileSettlesIff`).
- An order call or debit request that the provider takes and that then raises anything but a timeout, or answers with
  an order that does not match, leaves the row FAILED without a reference. Nothing that follows can settle it, though
  the table keeps FAILED open for that very case: after an execution some run settles the row exactly when the order call
  timed out or named a matching order, or the debit request answered with a reference
  (`SettlementRuns.CanSettleIffLearnt`). A debit request that times out is lost too: reconciliation looks for an order
  by receipt, and that path never creates one.
- No row carries a version and no handler re-reads before it writes, so a session can undo a settlement made since it
  loaded the row. Which writes do is decided by the writer's own data and the row it loaded
  (`StaleWrites.SettlementSurvivesIff`), for instance a late failed-payment event; two overlapping refunds are both sent.
  Results over runs of `SettlementRuns` take each section as atomic, which is what sessions that write over the row they
  loaded amount to (`StaleWrites.UnstaleRunsAreAtomic`).
- A mandate's signature is checked against a key kept in the same row, and an empty signature passes where signatures
  are not required. A direct edit therefore does raise a signed mandate's limits, to any amount
  (`MandateSigning.AnEditRaisesAnyLimit`); exactly the edits that neither strip nor replace the seal and touch a governed
  field are denied (`MandateSigning.AlteredMandateIsDenied`).
- On SQLite the audit chain's lock does nothing, and some handlers read the tail before their first write, so one writer
  at a time is not enough: a run keeps every chain verifying exactly when each session that read before it was the
  writer still holds the newest row when it writes (`Audit.UnforkedIffEarlyStillNewest`), and one session that may
  read early is enough to fork one (`Audit.NeverForksIffNobodyEarly`).
- The limiter prunes every bucket older than an hour, live or not, so it limits exactly the windows of at most an
  hour (`RateLimit.KeepsLimitIffAtMostAnHour`).
- The broker counts a consume only when it is answered. What it sends stays within its maximum, for every model and
  configuration, exactly when the server never rejects a consume (`Broker.MeterHoldsIff`); with rejections there is no bound
  (`Broker.FailedSendsAreNotMetered`).

In-place methods and the functions they are proved equal to, whose properties are the rows below:
`Settlement.ProviderTransaction` performs `Execute` (ExecuteStandard, ExecuteAgentic, CapturePayment;
app/routers/payments.py:617-943), `ReceiveWebhook` (HandleWebhook; 986-1092), `ConfirmCapture` (Confirm;
app/reconcile.py:158-248), `Reconcile` (ReconcileOne; 44-147), `WorkerVisit` (VisitByWorker;
app/reconcile_worker.py:94-116) and `Refund` (IssueRefund; app/routers/payments.py:1104-1150);
`Payments.PaymentDesk` performs `Submit` and `Ruling` (SubmitPaymentIntent, RuleAndRecord; 293-464), `Challenged` and
`Verified` (472-541); `Delegation.AgentRegistry` performs `Registered`, `Rotated`, `AgentRevoked` and `ParentRevoked`
(app/routers/v1.py:383-453, 578-644; app/routers/agents.py:232-234; app/routers/parents.py:58-68);
`Broker.PaariBroker` performs `Propose`, `Confirm` and `Executes` (llm_agent/broker.py:66-206).

## Model

| member | source | states |
|---|---|---|
| Mandates.LiveRows | app/mandates.py:73-96 | the rows selected are exactly the agent's own active ones whose validity window contains now, with their multiplicity |
| Mandates.WhatIsCharged | app/mandates.py:136-200 | a row charges a budget its amount iff it is the agent's, not denied, in the exact currency, of the merchant or category but for the case of letters, inside the rolling span and not before the mandate's validity |
| Mandates.PassesIffObeysAll | app/mandates.py:282-356 | one mandate passes a payment iff it obeys every rule, each spelled out from the rows of the log and the characters of the names, and a refusal names a rule it breaks |
| Mandates.RespellingIsRefused | app/mandates.py:178-195 | after one payment counted at a merchant, another that does not fit beside it under the per-merchant cap is refused however either name is cased |
| Mandates.ActiveMandatesAreLive | app/mandates.py:80-102 | the active mandates come sorted by per-transaction cap, daily cap and id, and are exactly the live rows of the agent |
| Mandates.FirstRefusalFinds | app/mandates.py:413-425 | no mandate refuses exactly when every one permits; the one reported is refused and everything sorted before it permits |
| Mandates.JudgeNamesTheLeast | app/mandates.py:413-436 | permission is unanimity, and the mandate named is least in the sort order among all (permitted) or among the refusing ones (denied) |
| Mandates.IntersectionSemantics | app/mandates.py:367-436 | over the table: permitted iff every live mandate of the agent alone permits, with the named mandate live, refusing when denied, and least |
| Mandates.PermittedIff | app/mandates.py:367-436 | permitted iff the gate was taken, the agent had a live mandate before and has one under it, and the payment obeys every rule of every one live under it |
| Mandates.StateSays | app/mandates.py:113-130 | the state is "never had one" iff no row is the agent's, and live iff one is live in each reading that was made; a refusal asks for no review |
| Mandates.PermissionSays | app/mandates.py:413-436 | a permission names the tightest live mandate by per-transaction cap, daily cap and code-point order of ids, and asks for review iff the amount exceeds some live one's threshold |
| Mandates.RowOrderIrrelevant | app/mandates.py:80-102 | the decision does not depend on the order the database returns rows in, ids being unique |
| Mandates.AddingAMandateNarrows | app/mandates.py:413-425 | adding any mandate to a table with an active one never turns a denial into a permit |
| Mandates.OneIffWithinHeadroom | app/mandates.py:282-356 | one mandate passes a positive amount iff it is at most a headroom computed from scope rules, per-transaction cap and the four remaining budgets |
| Mandates.HeadroomIgnoresAmount | app/mandates.py:282-356 | the headroom does not look at the amount asked for |
| Mandates.PermittedIffWithinHeadroom | app/mandates.py:367-436 | a positive amount is permitted iff it is at most one number, so permission is downward closed |
| Mandates.ReviewIffOverThreshold | app/mandates.py:346-354 | a payment all mandates permit is sent to review iff it exceeds some mandate's threshold |
| Lifecycle.MandateTable.CreateMandate | app/routers/v1.py:52-131 | creates iff window, limits, currency but for case, seal and id are in order, each spelled out, and then appends the row active with its currency upper-cased; ids stay unique |
| Lifecycle.AdmissionSays | app/routers/v1.py:72-101 | which condition each reason for refusing a mandate stands for |
| Lifecycle.MandateTable.RevokeMandate | app/routers/v1.py:220-237 | every row with the id becomes REVOKED and is otherwise as it was, every other row is unchanged, and it says whether there was one |
| Lifecycle.RevokedNeverActive | app/routers/v1.py:220-237 | in every later table no row that carries a revoked id is active, at any instant and for anybody, nor can one be created |
| Lifecycle.MandateTable.SweepExpiredMandates | app/mandates.py:443-470 | expires exactly the active rows past their end and returns how many rows changed |
| Lifecycle.MandateTable.ExpireStaleReviews | app/mandates.py:473-505 | denies exactly the reviews whose window has closed and returns how many rows changed |
| Lifecycle.SweepersIdempotent | app/mandates.py:508-514 | a second run of either sweeper at the same instant changes nothing and counts nothing |
| Lifecycle.SweepTransparentIff | app/mandates.py:443-470 | sweeping at s leaves the active set at now alone iff no mandate live at now had ended by s, in particular for every now at or after s |
| Lifecycle.SweepNeverChangesEvaluation | app/mandates.py:443-470 | no evaluation at or after a sweep is changed by it, nor the resolved state |
| Lifecycle.RowsOnlyDie | app/routers/v1.py:220-237 | over any run of creations, revocations and sweeps a mandate keeps every governed field and a status that left active never returns |
| Lifecycle.TablesAreSane | app/routers/v1.py:72-101 | in every reachable table each mandate has a window, positive limits, a per-transaction cap within its daily cap and an upper-case currency, and ids are unique |
| Lifecycle.LapseIsPermanent | app/mandates.py:113-129 | once an agent has had a mandate no later table resolves to "never had one", and with none active every evaluation denies as lapsed |
| Budget.PassedMeansFits | app/mandates.py:316-344 | a payment every mandate passes fits each budget that applies to it, under any spelling of its merchant or category |
| Budget.FitsInWords | app/mandates.py:316-344 | fitting means keeping within the hourly and daily caps of every judging mandate and its caps on the merchant and category under every casing of their names |
| Budget.AppendKeepsBudgets | app/mandates.py:316-344 | committing a row that fits, or a denied one, keeps every hourly, daily, per-merchant and per-category budget at every decision |
| Budget.SofteningNeverRaises | app/mandates.py:473-505 | step-up approvals and review expiry never raise any windowed sum, and keep it when no row is denied |
| Budget.SofteningKeepsBudgets | app/mandates.py:473-505 | step-up approvals and review expiry keep every budget at every decision |
| Budget.EveryWindowWithinLimit | app/mandates.py:136-200 | budgets kept at every decision bound every interval of the budget's span, wherever it starts, when its rows were judged by the mandate and no stamp runs backwards within the span |
| Budget.SerialRunKeepsBudgets | app/mandates.py:316-344 | every serial run of gated submissions keeps all budgets |
| Budget.DailyCapIffTimesInOrder | app/routers/payments.py:303-303 | the daily cap of every mandate holds in every 24h interval of every serial run with given clock readings iff none comes before one committed earlier by at most a day |
| Budget.BudgetBlindIffSpellingsDiffer | app/mandates.py:191-191 | for a payment a mandate admits, its verdict ignores all earlier spend of the agent iff their currency spellings differ |
| Gate.LockTable.AcquireGate | app/serialization.py:41-68 | one acquisition first drops every lock the session holds, then takes the lock iff nobody else has it |
| Gate.LockTable.AcquireAllMandateGates | app/mandates.py:226-237 | succeeds iff every lock of the sorted ids was free in its turn, and then holds the last one alone |
| Gate.OrderIsStable | app/mandates.py:226-237 | gates are taken in code-point order of the ids, the same for any order the mandates come in |
| Gate.SessionsLetGo | app/serialization.py:41-68 | a session that starts over, gives up or commits holds no lock |
| Gate.BeginsIff | app/routers/payments.py:315-328 | an evaluation starts iff its agent never used the key, the amount is positive and some mandate is live |
| Gate.OneJudgeInEveryRun | app/serialization.py:41-68 | in every store a contended run reaches at most one of an agent's sessions is between its aggregation and its commit |
| Gate.SingleWriterContends | app/serialization.py:61-68 | with one writer lock all sessions contend |
| Gate.StepKeepsInv | app/mandates.py:395-436 | every step of every session keeps held rows judged, budgets kept, and each pending verdict still true of the log |
| Gate.ConcurrentRunsKeepBudgets | app/mandates.py:395-436 | every interleaving of contending evaluators with approvals, review expiry, denials and table changes keeps all budgets and hence every ordered window |
| Gate.ConcurrentRunsAreSerial | app/serialization.py:41-68 | without review expiry in between, each row judged under the gate is held iff judging it on the rows committed before it permits it, and what was never judged is denied |
| Serial.SomeSerialRunLeavesTheSameLog | app/serialization.py:41-68 | if review expiries deny no row of an agent with a verdict waiting, some serial run of whole operations, expiries included, leaves exactly the log of the concurrent one, decisions, named mandates, deadlines and stamps included |
| Serial.NothingSpentMeanwhile | app/mandates.py:203-223 | review expiry included: while a session waits between its verdict and its commit, no sum the verdict was based on rises |
| Overspend.CanTakeAll | app/mandates.py:226-237 | a session meeting no foreign lock gets through its whole order, ends with its last lock only and disturbs no other session |
| Overspend.BothPassIffLastLocksDiffer | app/serialization.py:47-56 | two sessions can be past their gates together iff their sorted orders end in different locks |
| Overspend.TogetherTheyOverspend | app/mandates.py:203-223 | two sessions of one agent past their gates together, whose payments fit singly and not jointly, break the daily cap |
| Overspend.OverspendIffLastLocksDiffer | app/mandates.py:203-237 | two such sessions about to take their gates can break the daily cap in some run iff their orders end in different locks |
| Overspend.ArrivedAreRivals | app/routers/payments.py:303-303 | a mandate created between two submissions gives one agent two sessions to which the previous row applies, their orders ending in different locks |
| Overspend.TwoSessionsOverspend | app/mandates.py:203-237 | from one mandate and an empty log, a mandate created between two submissions lets both payments of six be held under a daily cap of ten |
| Payments.PaymentDesk.SubmitPaymentIntent | app/routers/payments.py:293-464 | the tables after a submission, in the handler's order of checks; a key it sees used replays the recorded decision and changes nothing, a key used since then returns the row holding it and mints from that |
| Payments.PaymentDesk.RequestMfaChallenge | app/routers/payments.py:472-502 | issues a live challenge iff the intent awaits step-up, retiring its earlier ones |
| Payments.PaymentDesk.VerifyMfaChallenge | app/routers/payments.py:505-541 | approves and mints iff the intent awaits step-up and the challenge is its own, unused, unexpired and signed |
| Payments.HeldIff | app/routers/payments.py:330-386 | a request is not denied iff parent, delegation end, amount, delegated limit, currency and action are in order, each spelled out, and either the agent never had a mandate and needs none or, under the gate, some is live and it obeys every rule of every one |
| Payments.RowSays | app/routers/payments.py:396-443 | the row holds the request as made, the clock it was judged at, the mandate it was permitted under, whether it needs step-up, and a five-minute deadline iff parked for anything else |
| Payments.ReplayOrRecord | app/routers/payments.py:315-328 | a visible replay changes nothing; a key the agent never used is recorded, whatever other agents use |
| Payments.RevokedCannotPay | app/routers/v1.py:220-237 | once its mandate is revoked, an agent with no other live one is denied in every later table, and nothing authorized under it can be consumed |
| Payments.ParkedIff | app/routers/payments.py:410-443 | a request not denied is parked iff it needs step-up, the agent has five intents within the last minute, or a review threshold is exceeded |
| Payments.LapsedAgentsAreDenied | app/routers/payments.py:369-374 | after any run of table changes, an agent that had a mandate and has none active is denied in both modes |
| Payments.SubmissionIsGateOutcome | app/routers/payments.py:363-464 | the handler records what the gate machine decides, and a gate it cannot take is a denial |
| Payments.OverlapBreaksIff | app/routers/payments.py:236-243 | a submission leaves authorizations and allowed intents in step unless it collides with another of its key, is itself allowed, and the row it gets back is not |
| Payments.AuthorizationsMatchIntents | app/routers/payments.py:127-156 | in every run of whole handlers in which no submission misfires, an authorization exists exactly for each allowed intent, one each, copying its terms; at most one unused challenge per intent and one row per key |
| StepUps.OverlappingAuthorizationsMatch | app/routers/payments.py:505-541 | the same of authorizations and keys when challenge requests and answers overlap in any way |
| StepUps.OneUnusedIffAlone | app/routers/payments.py:472-502 | in every run of overlapping handlers no intent ever has two unused challenges iff no request lands while one issued since it retired those it saw is unused |
| StepUps.OverlappingRequests | app/routers/payments.py:482-487 | a run in which two overlapping requests leave one intent two unused challenges |
| StepUps.OverlappingDecisionsAreFinal | app/routers/payments.py:505-541 | allow and deny are final and a review is left at most once however submissions, challenge requests and answers overlap |
| StepUps.EveryMintWasDelegated | app/routers/payments.py:330-352 | every authorization goes back to a submission of its agent, merchant, amount and currency, made under an active and trusted parent, in time, and within the limit and currency delegated then |
| Payments.DecisionsAreFinal | app/routers/payments.py:437-459 | colliding submissions included: allow and deny are final; a review is left at most once, to allow only by step-up and to deny only by timing out, which a step-up review never does; what was minted stays |
| Payments.RevalidationIsEvaluationWithoutBudgets | app/routers/payments.py:561-592 | the mandate checks at consume equal evaluation with the rolling budgets lifted, except at the instant of expiry |
| Payments.PermittedStaysSpendable | app/routers/payments.py:561-592 | what a mandate permitted passes revalidation while its row is unchanged and live |
| Transitions.PaidReachableIffNotTerminal | app/transitions.py:47-86 | the states from which the table can still reach PAID are PAID and exactly the non-terminal ones |
| Replies.EnteredFrom | app/transitions.py:47-86 | from which states each state may be entered; money that arrives late may land from FAILED too |
| Replies.OrderSays | app/routers/payments.py:867-943 | on the checkout path the row is submitted iff the order is ours and has an id, unknown iff the call timed out, failed otherwise, with the id and events that belong to it |
| Replies.DebitSays | app/routers/payments.py:617-692 | on the provider-native path a debit is recorded iff an instrument is bound, the mandate honoured and a reference returned; otherwise unknown iff a call timed out |
| Replies.CaptureSays | app/routers/payments.py:694-777 | each state a captured row can end in holds iff the provider gave the answer it stands for; PAID iff done and read back exactly |
| Replies.TooLateToSubmit | app/routers/payments.py:814-943 | what an execution leaves of a row that can no longer be submitted |
| Replies.WebhookSays | app/routers/payments.py:986-1092 | an event moves the row iff it is ours, new, supported, of exactly the authorized value and legal; nothing else but a rejection is written |
| Replies.ConfirmSays | app/reconcile.py:158-248 | the confirming read settles iff it reports an uncontradicted capture and withdraws iff it reports a failure, each where legal |
| Replies.PaymentSays | app/reconcile.py:104-147 | a payment's word is followed iff the table allows; declines are believed as they are, contradictions noted |
| Replies.RefundSays | app/routers/payments.py:1104-1150 | a refund is made iff the row is PAID, names its payment, the amount is positive and the provider accepts |
| Settlement.ProviderTransaction.TransitionTxn | app/transitions.py:98-102 | moves the row iff the table allows it |
| Settlement.ProviderTransaction.HandleWebhook | app/routers/payments.py:986-1092 | the row after a verified webhook: rejections, duplicates and illegal moves leave it, a captured event lands in CAPTURED |
| Settlement.ProviderTransaction.IssueRefund | app/routers/payments.py:1104-1150 | refunds only a paid row with a payment id and a positive amount the provider accepts |
| Settlement.RunBatch | app/reconcile_worker.py:83-116 | every selected row is visited once and none affects another |
| Settlement.BoundedAuthorization.Reserve | app/routers/payments.py:791-806 | the conditional update: takes one use iff one is left |
| Settlement.BoundedAuthorization.Burn | app/routers/v1.py:662-667 | the conditional update: takes every remaining use iff one is left |
| SettlementRuns.StepSettlesOnlyOnCapture | app/routers/payments.py:747-759 | a row becomes settled only by turning PAID in a step that itself read a capture contradicting nothing, never in a webhook; a settled row only moves from PAID to REFUNDED by an accepted refund |
| SettlementRuns.RedeliveryMovesNothing | app/routers/payments.py:1028-1071 | a second delivery of an event never moves the row and changes nothing once it was applied; only an exactly matching value moves it at all |
| SettlementRuns.SettlesAtMostOnce | app/reconcile.py:118-146 | over any run a row settles at most once and stays settled |
| SettlementRuns.CorroboratedSettlement | app/reconcile.py:118-146 | in every run of a fresh authorization the settlements equal the settlement events in its history, at most one, with a corroborating read behind it, and at most one refund |
| SettlementRuns.DeadStates | app/transitions.py:47-86 | no run enters CANCELLED, EXPIRED, REVERSED or PAYMENT_PENDING |
| SettlementRuns.DeadLettersAreEarned | app/reconcile_worker.py:102-114 | no run dead-letters a row attempted fewer than five times |
| SettlementRuns.FruitlessVisitsDeadLetter | app/reconcile_worker.py:102-114 | visits that cannot read the payment leave the row where it is until the fifth attempt and in PROVIDER_UNKNOWN from then on |
| SettlementRuns.SingleUse | app/routers/payments.py:791-806 | for any interleaving of consumers and revokers the counter stays within one, at most one execution is begun or reserved, and after a revoke nothing is ever submitted |
| SettlementRuns.LearntShowsOnTheRow | app/routers/payments.py:814-943 | the replies' condition read off the executed row: it holds a reference and is not DECLINED, or an order was asked for and it is not FAILED |
| SettlementRuns.CanSettleIffLearnt | app/routers/payments.py:814-943 | after the one execution of an authorization some run of the remaining steps, no order being found that was never created, settles the row iff the order call timed out or answered with a matching order, or the debit request answered with a reference and no decline followed |
| SettlementRuns.BrokenCallLosesThePayment | app/transitions.py:69-71 | an order call or debit request that broke, though the provider may have taken it, leaves the row FAILED without a reference in every run of the remaining steps |
| SettlementRuns.ReconcileSettlesIff | app/reconcile.py:44-147 | an informed reconciliation leaves a recoverable row PAID iff the order it holds is neither cancelled nor expired, and repeating it changes nothing |
| SettlementRuns.LostOrderIsFoundIff | app/reconcile.py:59-62 | a row that timed out before any reference was learnt is settled by an informed reconciliation iff the provider finds its order by receipt and the order is not over |
| SettlementRuns.DeliveryKeepsRecoverable | app/reconcile_worker.py:94-116 | webhooks, failed or honest reads and dead-lettering keep a row recoverable, FAILED included |
| SettlementRuns.AnyDeliveryOrderConverges | app/reconcile.py:44-147 | after any order and duplication of such deliveries one informed reconciliation leaves the row PAID and a further one changes nothing |
| StaleWrites.AnyStaleDeliveryConverges | app/reconcile.py:44-147 | the same when every delivery loads the row in one step and writes it in a later one |
| StaleWrites.SettlementSurvivesIff | app/database.py:135-135 | for any writer and any row it loaded, a settlement made since survives its flush iff its data and that row do not ask for a legal move to an unsettled state, spelled out per writer |
| StaleWrites.SettlementKeptIffHarmless | app/database.py:135-135 | in every run of sessions that load and write separately, no settlement is undone iff no session lands such a write on a settled row |
| StaleWrites.SettlementKeptIfSeen | app/database.py:135-135 | a session that loaded a settled row never undoes its settlement, whatever it carries and however late it writes |
| StaleWrites.UnstaleRunsAreAtomic | app/database.py:135-135 | a run in which every session writes over the row it loaded leaves the row where some run of atomic steps leaves it |
| StaleWrites.UnstaleRunsSettleOnce | app/database.py:135-135 | such runs settle at most once and refund at most once |
| StaleWrites.StaleWebhookErasesSettlement | app/routers/payments.py:1061-1091 | a run in which a failed-payment event read before a reconciliation settled the row leaves it FAILED, its history holding the settlement, and a refund turned away |
| StaleWrites.StaleRefundsRefundTwice | app/routers/payments.py:1104-1150 | a run in which two refunds that both read the row PAID are both issued and recorded |
| EndToEnd.CommitKeepsLinkedIff | app/routers/payments.py:236-243 | a commit keeps allowed intents and executing rows in correspondence iff it does not mint for an allowed submission from a row that is not allowed |
| EndToEnd.StepKeepsInv | app/routers/payments.py:127-169 | every evaluation, minting and row step without a misfire keeps intents, authorizations and rows in correspondence and every row sound |
| EndToEnd.SettledWithinDailyCap | app/mandates.py:322-325 | in every reachable state of a run without misfires and every 24h whose rows the mandate judged, all money settled for intents stamped there is at most its daily cap, clock readings being in order and currency spelled alike |
| EndToEnd.ActiveThroughoutJudges | app/mandates.py:73-96 | a mandate in the table and live at every evaluation of its agent in the interval judged everything stamped there, created or revoked in mid-run or not |
| EndToEnd.SettledWhileActive | app/mandates.py:322-325 | so the daily cap bounds what is settled for any 24h throughout which the mandate was active at every evaluation of its agent |
| Collisions.DistinctSettleWithinCap | app/models.py:361-361 | the same with nothing asked of the interleaving but that no agent brings in one key twice |
| Collisions.OverlapSettlesADenial | app/routers/payments.py:446-448 | for any submissions among which one is brought in twice, a run in which a denied payment of a thousand is minted and settles under a daily cap of one |
| Collisions.BackedIffKeysDistinct | app/routers/payments.py:236-243 | every executing row backs an allowed intent in every run bringing in given submissions iff no agent brings in one key twice |
| EndToEnd.EveryRowBacksOneIntent | app/routers/payments.py:127-169 | in runs without misfires the executing rows are exactly the allowed intents whose minting committed, with their amounts, each executing and settling at most once |
| Json.ValueRoundTrip | app/crypto_utils.py:66-73 | a parser undoes the canonical printer whatever non-digit text follows |
| Json.CanonicalTextInjective | app/crypto_utils.py:66-73 | canonical texts are equal iff the values are |
| Json.CharRoundTrip | app/crypto_utils.py:73-73 | every character, escaped by letter, code or surrogate pair, is read back |
| Json.SortedKeys | app/crypto_utils.py:73-73 | keys are printed in strictly ascending code-point order, each once |
| Json.TextIsAscii | app/crypto_utils.py:73-73 | canonical text is printable ASCII whatever the value holds |
| Json.LettersAre | app/crypto_utils.py:73-73 | which characters are escaped by a letter, and how |
| MandateSigning.SignedTextIffGovernedAlike | app/mandate_signing.py:33-76 | signed texts are equal iff all governed fields agree, allow-lists as multisets with none equal to empty and times to the second |
| MandateSigning.SealIffGovernedAlike | app/mandate_signing.py:99-114 | a row keeping a good signature and its key still verifies iff no governed field changed |
| MandateSigning.SignerAgrees | app/mandate_signing.py:33-96 | a signer who writes the mandate down by name, lists sorted and times in whole seconds, signs the very text verified here, and the signature is accepted |
| MandateSigning.AlteredRowPassesIff | app/mandates.py:244-260 | a signed row edited in any columns passes the signature rule iff its governed fields agree under the old seal, or its signature was cleared while none is required, or its seal was replaced by one that verifies |
| MandateSigning.AlteredMandateIsDenied | app/mandates.py:253-275 | any other edit is refused at evaluation, blocks every payment of its agent while active, and is refused at consume; a surviving edit is never refused for its signature |
| MandateSigning.KeptKeyPassesIff | app/mandate_signing.py:99-114 | with the key column kept and its owner having signed this mandate alone, some signature makes an edited row pass iff its governed fields agree |
| MandateSigning.AnEditRaisesAnyLimit | app/mandates.py:244-260 | an edit makes any larger amount pass where the signed row refused it, by clearing the signature where unsigned rows are accepted and by sealing afresh under any key pair everywhere |
| MandateSigning.SignatureIgnoresLiveness | app/mandate_signing.py:99-106 | a signature outlives revocation, and the revoked row is neither active nor accepted at consume |
| MandateSigning.MandateRow.SignMandate | app/mandate_signing.py:79-96 | stores signature, key, key id and time, leaves the signed text as it was, and the row then verifies even where signatures are required |
| Audit.AuditLog.LastOf | app/audit.py:104-109 | finds the newest row of a transaction, if any |
| Audit.AuditLog.RecordAudit | app/audit.py:77-129 | appends one row that says what it was given to say, in the second format, chained to the transaction's last hash or to the genesis mark |
| Audit.RecordedEditCaughtIff | app/audit.py:77-163 | after any further recordings, a recorded row edited in place with its hashes kept leaves the chain of the transaction it names verifying iff it still says what was recorded, in a format that covers all of it |
| Audit.HashedTextIs | app/audit.py:17-47 | the text hashed, as anybody who knows the two formats writes it by name |
| Audit.AuditLog.VerifyChain | app/audit.py:132-163 | the verdict for a transaction is that of its own rows in order |
| Audit.VerifyEvents | app/audit.py:132-163 | the loop returns true iff every row links to the one before and carries the hash of its format's text |
| Audit.PreimageCommits | app/audit.py:17-47 | two rows hash the same text iff they agree on the previous hash, on the format and on all it covers |
| Audit.FormatsApart | app/audit.py:17-47 | the two formats never hash the same text |
| Audit.HeadCommitsToHistory | app/audit.py:132-163 | two verifying chains with the same last hash have the same length and, row by row, the same hashes, formats and covered fields |
| Audit.EditCaughtIff | app/audit.py:132-163 | editing a row in place, hashes kept, leaves the chain verifying iff nothing its format covers changed; relabelling the format is caught |
| Audit.RecordingKeepsEveryVerdict | app/audit.py:77-129 | recording an event changes no transaction's verdict, its own and a broken one included, and no other transaction's rows |
| Audit.ChainsNeverFork | app/audit.py:99-109 | however sessions recording for any transactions interleave, commit and roll back under the per-transaction lock, every committed chain verifies |
| Audit.ForkVerifiesIff | app/audit.py:94-99 | two events chained to one head verify together only if the first hashed back to it; otherwise no later event repairs the chain |
| Audit.UnforkedIffEarlyStillNewest | app/serialization.py:71-77 | with one writer at a time and no chain lock, every chain verifies at every moment of a run iff each session that read its tail before it was the writer still holds the newest row when it writes |
| Audit.NeverForksIffNobodyEarly | app/audit.py:94-110 | every run leaves every chain verifying iff no session at all may read its tail before it is the writer |
| RateLimit.RateLimiter.CheckRate | app/ratelimit.py:24-67 | prunes, counts the call whether or not it passes, and on refusal reports the seconds to the window's end |
| RateLimit.LiveBucketCounts | app/ratelimit.py:31-57 | the bucket of a live window of at most an hour holds exactly the calls made in it, whatever other scopes do |
| RateLimit.ExactlyTheFirstPass | app/ratelimit.py:59-67 | in every aligned window exactly the first `limit` calls pass |
| RateLimit.AtMostTwiceTheLimit | app/ratelimit.py:59-67 | at most `limit` calls pass in an aligned window and twice that in any interval of its length |
| RateLimit.KeepsLimitIffAtMostAnHour | app/ratelimit.py:34-35 | a positive limit is kept in every run iff the window is at most an hour |
| Broker.RunGoal | llm_agent/loop.py:60-108 | the nested loops end in the run the specification describes, with the broker as they left it |
| Broker.ProposeSays | llm_agent/broker.py:108-175 | a proposal reaches the server iff its amount is positive and within the cap and its currency the broker's, and becomes pending iff the server allows it under an id |
| Broker.ConfirmSays | llm_agent/broker.py:177-198 | a confirmation reaches the server iff the maximum is not used up and the id is pending, which it then no longer is; it counts iff answered |
| Broker.ExecuteKeepsHonest | llm_agent/broker.py:108-198 | one tool call keeps every sent id backed by an unspent issue, proposals within the cap and the count equal to the executions |
| Broker.RunsAreBounded | llm_agent/loop.py:60-108 | for any model and server a run stays within its turns and tool calls, lists each call once, executes at most its maximum, sends only ids issued within the cap and not yet spent, and reads only its own proofs |
| Broker.FailedSendsAreNotMetered | llm_agent/broker.py:177-198 | sends are executions plus failures, and with failures some run sends any number and counts none |
| Broker.MeterHoldsIff | llm_agent/broker.py:177-198 | the sends of every run, under every model and configuration, stay within the maximum iff the server never answers a consume with a rejection |
| Delegation.RegistrationIff | app/routers/v1.py:383-453 | registration succeeds iff every check, spelled out, holds, and then adds the granted record, an active agent on those terms and one credential that ends with the delegation |
| Delegation.RotationIff | app/routers/v1.py:578-644 | rotation succeeds iff every check, spelled out, holds, and then moves the agent to the new key and terms and keeps the old key for a day |
| Delegation.AgentRegistry.RevokeAgent | app/routers/agents.py:232-234 | deactivates that agent alone and revokes exactly its credentials |
| Delegation.AgentRegistry.RevokeParent | app/routers/parents.py:58-68 | revokes exactly the credentials of the parent's agents |
| Delegation.ConsumedAtMostOnce | app/routers/v1.py:409-410 | over any run of whole handlers a delegation id is consumed at most once |
| Rotations.TakenAtMostOnce | app/models.py:155-155 | the same however handlers overlap, by the unique index |
| Rotations.EveryRecordWasGranted | app/routers/v1.py:383-437 | in every run, overlapping or not, every record is what a signed document of one of its registrations or rotations granted, under an active parent, for the key given and before its end |
| Delegation.StepKeepsInv | app/routers/v1.py:613-642 | every whole handler keeps each agent's terms those of the record it names, records unshared, and at most one unrevoked credential that does not outlive it |
| Delegation.DelegationsBackAgents | app/routers/v1.py:409-444 | both of the above in every run of whole handlers from the empty registry |
| Rotations.RunsStayBackedIff | app/routers/v1.py:578-644 | in every run of overlapping handlers agents stay backed by their records and credentials bounded iff every rotation lands on an active agent, on the loaded value of whatever it leaves unchanged, and, like every revocation, with no good credential issued since it listed them |
| Rotations.AnyDocumentLandsIff | app/routers/v1.py:613-642 | whatever document a session brings lands safely iff nobody changed the agent's terms or activity since it was loaded, nor left a good credential since they were listed |
| Rotations.UndisturbedRunsAreAtomic | app/routers/v1.py:578-644 | a run in which every session lands on what it loaded leaves the tables where some run of whole handlers does |
| Rotations.OverlappingRotations | app/routers/v1.py:613-642 | a run in which two rotations leave an agent a limit of 500 under a record of 100, and two good credentials |
| Rotations.RotationOutlivesRevocation | app/routers/agents.py:232-234 | a run in which a rotation leaves a revoked agent a good credential |

## Left out

- Ed25519, SHA-256, JWT and HMAC are ideal predicates; key parsing and base64 are not modelled.
- HTTP routing, sessions, request proofs and admin keys: requests arrive authenticated.
- Case folding is ASCII only; full Unicode `casefold`, SQL `lower` and `upper` may differ beyond ASCII.
- Reason texts, policy results, `last_error`, provenance columns and bookkeeping timestamps are not modelled.
- Gate.LockTable.AcquireGate: one try; the polling until a deadline changes only how long the caller waits.
- The 64-bit lock key is an arbitrary function of the name, injective where a result says so.
- Gate.ConcurrentRunsKeepBudgets: for agents that have had a mandate or run in autonomous mode; an agent that never had one spends without a mandate in standard mode, outside these budgets.
- Gate.ConcurrentRunsKeepBudgets: the sums of one evaluation are one read of the log, and the mandate table is read with them.
- EndToEnd.EveryRowBacksOneIntent: a minting that fails because its row was minted before is not a step.
- Payments.PaymentDesk.SubmitPaymentIntent: the step-up threshold is the exact ratio four fifths, not a float.
- EndToEnd.SettledWithinDailyCap: reservation does not repeat revalidation, so it also covers runs a stricter consume would cut short.
- Settlement.ProviderTransaction.ReconcileOne: amounts that are not integers, which raise, and a row without an authorization; an id that is given is not empty.
- SettlementRuns.AnyDeliveryOrderConverges: executions still in flight are not deliveries; the row already holds a provider reference.
- `reconcile_pending` is the sweep step of the settlement runs, without its limit of rows.
- MandateSigning.SignedTextIffGovernedAlike: the float behind `timestamp()` is exact division, as it is for present-day instants.
- Json.CanonicalTextInjective: null, booleans, integers, strings, arrays and objects with string keys; no floats and no lone surrogates, which cannot be encoded for hashing or signing.
- Audit.RecordedEditCaughtIff: a version other than 0 and 1 is read as the second format, so relabelling 2 as such is not caught; a row moved to another transaction is caught there.
- Audit.ChainsNeverFork: the per-transaction lock of Postgres. Commit order stands for id order within a transaction.
- Audit.UnforkedIffEarlyStillNewest: a session's transaction on SQLite opens at its first write, as the driver does by default; a snapshot opened by the read itself, which makes the later write fail, is not modelled.
- StaleWrites.SettlementSurvivesIff: rows are flushed without waiting; reservation's own increment of the attempts is taken whole.
- Serial.SomeSerialRunLeavesTheSameLog: an expiry that denies a row of an agent whose verdict waits is left out; the verdict is then the more cautious one, as Serial.NothingSpentMeanwhile says.
- Gate.ConcurrentRunsAreSerial: speaks of the rows as judged, so of runs without review expiry; Serial.SomeSerialRunLeavesTheSameLog covers expiry.
- Lifecycle.RowsOnlyDie: creation, revocation and sweeps are one step each. They write the status alone and never ACTIVE, so landing late changes which of the dead states a row is in, not whether it is dead.
- Delegation.StepKeepsInv: handlers are one step each here; Rotations lets them overlap.
- Rotations.RunsStayBackedIff: what a revoked parent's agents still hold is not claimed; a parent's credentials are listed in one read.
- StepUps.OneUnusedIffAlone: on SQLite the retiring update already holds the writer, so requests do not overlap there.
- Payments.AuthorizationsMatchIntents: handlers are one step each but for the rows a replay test misses; StepUps lets step-up overlap. Review expiry is one step: it and step-up concern different rows.
- RateLimit.ExactlyTheFirstPass: calls are taken one at a time; the insert race ends in the same counts.
- Broker.PaariBroker.Execute: argument shapes, trimming and lengths are one refusal; result fields beyond ids, amounts and states are dropped.
- Delegation.AgentRegistry.RegisterAgent: envelope signature and sender checks are part of "signed"; key sunset affects sessions only.
- Signed cards, discovery documents, proof bundles, provider bindings, boot guards, migrations and scripts are assembly around this core.

# Food-delivery platform: a verified model of its protocols

The platform is a set of services (orders, payments, restaurants, delivery, admin) that talk through
transactional outboxes and an at-least-once event stream. This project models the state machines at its
core and proves what every run keeps. `dafny verify dfyconfig.toml` checks all of it.

Money is in integer paise, time in integer seconds (opening hours in minutes). A call that raises leaves
the database as it was. What the environment answers (the payment provider, the broker, the location
index, the zone check, clocks) is a parameter, so every theorem holds for every answer.

## How the model is organised

* **Values and objects.** `Orders`, `Payments`, `Inventory` and `Dispatch` hold the specification functions;
  `OrderService.OrderRow`, `PaymentService.PaymentDesk`, `Inventory.Stockroom`, `Cart.Basket`,
  `Dispatch.DeliveryDesk`, `Outbox.OutboxTable`, `ReadModel.AdminConsole`, `Breaker.CircuitBreaker` and
  `RateLimit.Limiter` are the objects the source mutates, with methods proved against those functions.
* **Whole runs.** `OrderProofs`, `MoneySafety`, `StockProofs`, `DispatchProofs`, `DeliveryProgress`,
  `Relays`, `OutboxProgress`, `RefundOutcomes`, `ReadModel` and `CheckoutLease` state what holds over every
  history of calls.
* **Laws.** `OrderLaws`, `PaymentLaws`, `HoursLaws` and `DispatchLaws` say of every single call when it takes
  effect, what it does and what it answers otherwise, without the functions that define it.
* **Interleavings.** `RowLock` is a generic model of transactions under SELECT ... FOR UPDATE, used by
  `OrderRaces` and `DeliveryProgress`; `InsertOnce` is insert under a unique constraint.

## Where code and comments disagree

The model follows the code. In these places the code does not do what its comments or its purpose promise;
the named lemma shows it, and the lemma beside it states when the promise does hold.

* A refund can be paid out twice when its command is redelivered: resuming, confirming or a webhook takes a payment
  out of REFUNDED (`MoneySafety.SecondRefund`). The exact count is `MoneySafety.RefundsBounded`, the exact
  set of such steps `MoneySafety.LeavesRefundedIff`.
* A webhook without an object id matches cash payments, whose reference is NULL
  (`MoneySafety.BlankWebhookRearmsCash`); cash orders are refunded at most once otherwise
  (`MoneySafety.AtMostOneRefund`).
* The answer to a refund call is not looked at, so a refund the provider turned down is stored exactly like
  one it paid (`RefundOutcomes.AnswersChangeNothing`). It is tried again exactly when something reopens the
  payment and another refund command arrives (`RefundOutcomes.AskedAgainIff`); without such a step that one
  answer decides whether the customer is ever paid back (`RefundOutcomes.OneAnswerDecides`).
* A card payment that arrives after its order was cancelled is kept: no refund is ordered, and nothing later
  orders one (`RefundOutcomes.LatePaymentOwed`, `RefundOutcomes.KeptForGood`). `RefundOutcomes.OwedIff` says
  exactly when collected money is owed and not ordered back.
* An outbox row that failed once can go out behind the rows recorded after it
  (`OutboxProgress.RetriedRowGoesLast`), which leaves the console on an old status
  (`ReadModel.RetriedMessageShowsOldStatus`); the console is right exactly when the last message about the
  order is its latest (`ReadModel.ConsoleExactIff`).
* The comment on `_locked_order` says that every state change is serialised, but customer cancellation and
  both sweeps take no lock (`OrderRaces.OverlappingCancelsRefundTwice`); they are serial exactly when the
  status they read is still there (`OrderRaces.UnlockedCommitSerialIff`).
* `advance_status` lets an owner move an unpaid order to PAYMENT_SUCCESS and on to REJECTED with no payment
  and no refund recorded (`OrderProofs.ForcedPaymentThenRejection`, `OrderProofs.UnrecordedPayment`).
* `_next_open` says "within one week" but does not look at today's weekday again
  (`HoursProofs.NoOpeningReported`), and reports a whole-day row by its stored time although the day opens at
  midnight (`HoursProofs.NextOpeningTrueIff`).
* The breaker's comment promises one probe after the cooldown, until it reports back; every call started from
  then on gets through (`Breaker.LetThroughExactly`), so the promise holds exactly when at most one call starts
  (`Breaker.SingleProbeIff`).
* A single stock check per line lets a request with two lines of one item oversell
  (`StockProofs.SplitLinesOversell`); carts cannot build one (`StockProofs.StockConserved`,
  `Checkout.PriceShownIsCharged`).
* The price fingerprint leaves quantities out, so it protects prices but not the amount
  (`Checkout.FingerprintIgnoresQuantity`, `Checkout.FingerprintIff`).
* The model docstring says "one active order per driver"; a reassignment can break that
  (`DispatchProofs.ReassignDoublesUp`), exactly when the driver is on another delivery
  (`DispatchProofs.ReassignKeepsIff`). It can also restart a delivery that was already picked up or delivered
  (`DeliveryProgress.ReassignInTimeIff`).
* One bad event cannot block the rest of its batch, but it can block later rows together with others: a row the
  broker would take gets out at all exactly when fewer than batch-size permanently failing rows are in front
  of it (`OutboxProgress.RowGoesOutIff`).

## Model

| member | source | states |
|---|---|---|
| OrderService.OrderRow.FromCheckout | services/orders/app/service.py:280-320 | The committed row of a checkout: baseline event, pending, for cash straight to paid, one order event, owner told only if paid. |
| OrderService.OrderRow.ApplyTransition | services/orders/app/state_machine.py:41-60 | A transition outside the allowed table is refused and changes nothing; an allowed one appends exactly one audit event and sets the status. |
| OrderService.OrderRow.WriteRefund | services/orders/app/service.py:437-443 | A full refund records the whole total and marks the payment refunded; otherwise the amount is zero. |
| OrderService.OrderRow.OnPaid | services/orders/app/service.py:207-233 | Payment moves only a pending order; any other is left untouched. |
| OrderService.OrderRow.Cancel | services/orders/app/service.py:446-464 | Customer cancellation: who may, until when, refund decided from the status before, one command if refunded. |
| OrderService.OrderRow.KitchenAccept | services/orders/app/service.py:467-474 | Acceptance by the restaurant's manager only; 404 before 403, then the state machine. |
| OrderService.OrderRow.KitchenReject | services/orders/app/service.py:477-492 | Rejection always refunds in full and releases stock. |
| OrderService.OrderRow.KitchenAdvance | services/orders/app/service.py:495-517 | Advancing: any allowed status; cancelling refunds by status, delivering settles. |
| OrderService.OrderRow.DriverMove | services/orders/app/service.py:520-530 | The driver's transition; delivering settles. |
| OrderService.OrderRow.OnPaymentEvent | services/orders/app/consumer.py:49-56 | Only a succeeded payment event does anything. |
| OrderService.OrderRow.OnDeliveryEvent | services/orders/app/consumer.py:59-79 | Picked up and delivered drive the order; a refused transition is dropped. |
| OrderService.ExpireUnpaidOrders | services/orders/app/service.py:533-557 | Of all orders exactly the stale unpaid ones are expired, each by the single-order step, and they are counted. |
| OrderService.ExpirePendingAcceptances | services/orders/app/service.py:560-577 | Likewise for unaccepted orders, with a full refund. |
| OrderProofs.WalkFollowsRank | services/orders/app/state_machine.py:9-21 | Along any legal log entry i is the main-line status of rank i, and only the last entry can be a dead end. |
| OrderProofs.WalkNeverRepeats | services/orders/app/state_machine.py:9-60 | A legal walk repeats no status and has at most eight transitions. |
| OrderProofs.WalkVisits | services/orders/app/state_machine.py:9-60 | Which statuses a log has visited is decided by where it stands. |
| OrderProofs.StepKinds | services/orders/app/service.py:207-577 | All entry points are one of three kinds of move (paid, forward, drop), or change nothing. |
| OrderProofs.StepConsistent | services/orders/app/service.py:207-577 | Every entry point keeps log, refund fields, commands, events, stock releases and payment record consistent. |
| OrderProofs.RunConsistent | services/orders/app/service.py:207-577 | So does every history of calls with any arguments. |
| OrderProofs.AuditAndCommands | services/orders/app/service.py:306-577 | In every reachable order the log is a legal path to the status without repetition; at most one payment command, a settle iff delivered, a refund iff fully refunded. |
| OrderProofs.RefundRule | services/orders/app/state_machine.py:67-86 | Refund command iff FULL iff REFUNDED, with amount total or zero; a cancelled order is FULL iff its log has PAYMENT_SUCCESS and not PREPARING. |
| OrderProofs.StreamTellsTheLog | services/orders/app/service.py:132-179 | The order's events are its log from checkout on, one each, and the last copies the row. |
| OrderProofs.SideEffectsOnce | services/orders/app/service.py:105-118 | Stock is released at most once, exactly for the orders taken off the line; the owner is told at most once and never of an unrecorded payment. |
| OrderProofs.UnrecordedPayment | services/orders/app/service.py:495-510 | Past payment and not refunded, the payment is unrecorded iff the restaurant forced that transition. |
| OrderProofs.ForcedPaymentThenRejection | services/orders/app/service.py:495-510 | A history in which it happens. |
| OrderLaws.AllowedIff | services/orders/app/state_machine.py:9-21 | The table is: one rank up the main line, cancelled from anywhere before the drop-off, rejected from PAYMENT_SUCCESS. |
| OrderLaws.RefundTable | services/orders/app/state_machine.py:63-86 | Nothing back before payment, everything after it, except from a restaurant or driver once the kitchen started; customers may cancel until then. |
| OrderLaws.CheckoutLaw | services/orders/app/service.py:280-320 | A cash order starts paid, a card order pending, with one event, no command, and the owner told only of the former. |
| OrderLaws.PaymentEventLaw | services/orders/app/service.py:207-233 | Takes effect iff the payment succeeded and the order is pending; then PAYMENT_SUCCESS by the system, paid, owner told. |
| OrderLaws.CancelLaw | services/orders/app/service.py:446-464 | Takes effect iff the caller may see the order and the kitchen has not started; refunds in full iff it was paid for; otherwise the exact refusal. |
| OrderLaws.AcceptLaw | services/orders/app/service.py:467-474 | Takes effect iff the caller manages the restaurant and the order is paid; then RESTAURANT_ACCEPTED by the restaurant and nothing about money; otherwise the exact refusal. |
| OrderLaws.RejectLaw | services/orders/app/service.py:477-492 | The same condition; then REJECTED with a full refund, its command and one stock release. |
| OrderLaws.AdvanceLaw | services/orders/app/service.py:495-517 | Takes effect iff the caller manages the restaurant and the move is legal; cancelling refunds iff paid and not started, delivering settles, anything else leaves money alone. |
| OrderLaws.DeliveryLaw | services/orders/app/consumer.py:59-79 | A pickup moves exactly an order ready for it, a drop-off exactly one that is out, with a settle; every other report changes nothing. |
| OrderLaws.SweepUnpaidLaw | services/orders/app/service.py:533-557 | Cancels, without refund, exactly a pending order strictly older than the payment window. |
| OrderLaws.SweepUnacceptedLaw | services/orders/app/service.py:560-577 | Cancels, with a full refund, exactly a paid order strictly older than the acceptance timeout. |
| OrderLaws.LogEntitled | services/orders/app/state_machine.py:49-60 | In every reachable order every log entry is by an actor entitled to it. |
| RowLock.CommitSerialised | services/orders/app/service.py:74-102 | Committing under the row lock keeps the table serialised. |
| RowLock.LockedIsSerial | services/orders/app/service.py:74-102 | Every interleaving of locking transactions equals running the committed ones in commit order, each deciding from exactly what the ones before left. |
| RowLock.EverySerialOrderPlays | services/orders/app/service.py:74-102 | And every serial order of distinct transactions is one of the interleavings. |
| RowLock.RollbackFrees | services/orders/app/service.py:74-102 | A rollback leaves the row as it was and lets the next transaction in. |
| OrderRaces.LockedCallsDecideApart | services/orders/app/service.py:74-102 | For the locked order calls: serial, and no two effective ones decided from the same status. |
| OrderRaces.UnlockedCommitSerialIff | services/orders/app/service.py:446-464 | An unlocked call commits what it would have done serially iff the status it read is still the row's. |
| OrderRaces.OverlappingCancelsRefundTwice | services/orders/app/service.py:446-464 | Two overlapping cancellations of a paid order record two refund commands. |
| PaymentService.PaymentDesk.CreatePaymentForOrder | services/payments/app/service.py:53-95 | Creates the payment from the order copy, or leaves the existing one. |
| PaymentService.PaymentDesk.CapturePayment | services/payments/app/service.py:113-139 | Captures only a pending or authorised payment. |
| PaymentService.PaymentDesk.Refund | services/payments/app/service.py:261-297 | Calls the provider once for a collected payment and marks it refunded whatever the answer. |
| PaymentService.PaymentDesk.RetryPayment | services/payments/app/service.py:146-163 | Re-authorises only a failed payment. |
| PaymentService.PaymentDesk.ResumeCardPayment | services/payments/app/service.py:166-196 | Re-authorises any card payment whose order copy is still pending. |
| PaymentService.PaymentDesk.ConfirmCardPayment | services/payments/app/service.py:199-245 | Marks a pending card payment paid on the provider's word and records the event. |
| PaymentService.PaymentDesk.ApplyOrderEvent | services/payments/app/consumer.py:41-69 | Overwrites only the fields an event carries and creates the payment for a payable order. |
| PaymentService.PaymentDesk.ApplyPaymentCommand | services/payments/app/consumer.py:72-109 | A command without an order copy is refused for redelivery; otherwise settles, refunds, or drops an unknown action. |
| PaymentService.PaymentDesk.HandleEvent | services/payments/app/webhook.py:95-160 | Duplicate, ignored, unknown, failed, awaiting and paid, with the reference swap. |
| PaymentLaws.SettleLaw | services/payments/app/service.py:113-139 | A settle collects exactly a pending or authorised payment and touches nothing but its status. |
| PaymentLaws.RefundLaw | services/payments/app/service.py:261-297 | A refund asks the provider once, for an authorised or collected payment, with its reference and the order's total. |
| PaymentLaws.CommandRefusedIff | services/payments/app/consumer.py:92-109 | Refused iff there is no copy of the order; an unknown action changes nothing. |
| PaymentLaws.OrderEventLaw | services/payments/app/consumer.py:41-69 | The copy is overwritten field by field, and a payment, cash authorised at once, is there afterwards iff it was or the order is payable. |
| PaymentLaws.RetryLaw | services/payments/app/service.py:146-163 | Re-authorises exactly a failed payment; a gateway fault is reported after it is stored. |
| PaymentLaws.ResumeLaw | services/payments/app/service.py:166-196 | Re-authorises exactly a card payment of an order still thought pending, whatever the payment's status. |
| PaymentLaws.ConfirmLaw | services/payments/app/service.py:199-245 | Collects exactly a pending card payment the provider vouches for, takes its reference and records one event. |
| PaymentLaws.WebhookLaw | services/payments/app/webhook.py:95-160 | Acts exactly on a fresh event about money for the payment's reference, and how. |
| MoneySafety.NextSound | services/payments/app/consumer.py:41-109 | Every step of orders, network and payments keeps both services sound together. |
| MoneySafety.UnfoldSound | services/payments/app/consumer.py:41-109 | So does every run over a duplicating, reordering network. |
| MoneySafety.RefundsBounded | services/payments/app/service.py:261-297 | Provider refunds equal the steps that left REFUNDED plus one if it is REFUNDED now; any refund means FULL and no settle command, each for the order's total. |
| MoneySafety.ServicesAgree | services/payments/app/service.py:53-95 | The payment's amount and provider are the order's, and a card order marked paid had its payment reported. |
| MoneySafety.QuietRuns | services/payments/app/consumer.py:41-109 | Order events, commands and retries never take a payment out of REFUNDED; for cash nothing with a reference does. |
| MoneySafety.AtMostOneRefund | services/payments/app/service.py:261-297 | Such runs refund at most once. |
| MoneySafety.LeavesRefundedIff | services/payments/app/webhook.py:115-160 | Exactly which steps take a payment out of REFUNDED. |
| MoneySafety.ResumeRearmsRefund | services/payments/app/service.py:166-196 | From any such state, resuming and a redelivered command refund again, whatever the provider answered to either. |
| MoneySafety.SecondRefund | services/payments/app/service.py:166-196 | A run from checkout with two refunds of one order: the bound is met. |
| MoneySafety.BlankWebhookRearmsCash | services/payments/app/webhook.py:118-127 | A webhook without an object id re-arms a refunded cash payment. |
| PaymentLaws.RetryRevives | services/payments/app/service.py:146-163 | In a run: a granted retry makes a failed payment refundable, which it was not before. |
| PaymentLaws.ConfirmPays | services/payments/app/service.py:199-245 | In a run: a confirmed card payment is collected and its event pays the order. |
| PaymentLaws.CollectedStaysIff | services/payments/app/service.py:166-196 | A collected payment stays so unless refunded, begun again or reported failed. |
| PaymentLaws.DeliveredIsCollected | services/payments/app/service.py:113-139 | In every run: once a settle command reaches a pending or authorised payment, the delivered order is collected for its own total, never refunded, and stays so unless begun again or reported failed. |
| PaymentLaws.CashPaymentIff | services/payments/app/consumer.py:72-109 | In every run of a cash order: authorised iff no command reached the payment, collected iff one did and the order was delivered, refunded iff one did and the order is FULL. |
| RefundOutcomes.WorldOrderReachable | services/orders/app/service.py:207-577 | The order of every composed run is one that calls alone bring about, so all results about reachable orders apply. |
| RefundOutcomes.AskedAgainIff | services/payments/app/service.py:282-297 | Once marked refunded, the provider is asked again iff a step that reopens the payment is followed by a refund command that reaches the provider. |
| RefundOutcomes.OneAnswerDecides | services/payments/app/service.py:292-294 | In runs without reopening steps the mark stays, nobody asks again, and the customer is ever paid back iff that one call succeeded. |
| RefundOutcomes.AnswersChangeNothing | services/payments/app/service.py:292-297 | Runs that differ only in the provider's answers to refunds end in the same order, payment, messages and calls. |
| RefundOutcomes.OwedIff | services/orders/app/state_machine.py:67-86 | Collected money of a dropped order is not ordered back iff it was cancelled with no payment recorded or with the kitchen started, or moved to REJECTED; it is owed iff the kitchen had not started. |
| RefundOutcomes.KeptForGood | services/orders/app/service.py:207-233 | Once an order is dropped without a refund no later event changes it, orders a refund or makes the provider pay one. |
| RefundOutcomes.LatePaymentOwed | services/orders/app/service.py:446-464 | Cancelling a card order that then gets paid: the money is owed and the payment event changes nothing. |
| RefundOutcomes.SomeMoneyIsOwed | services/payments/app/webhook.py:115-160 | A run from checkout in which it happens. |
| InsertOnce.OneRow | services/delivery/app/service.py:193-221 | Any number of overlapping check-then-insert handlers: at most one row, never replaced, and everybody returns it. |
| InsertOnce.ReadReturns | services/payments/app/service.py:69-71 | A handler that finds the row returns it without inserting. |
| InsertOnce.InsertReturns | services/payments/app/service.py:84-95 | A handler that inserts returns the stored row, its own iff none was there. |
| InsertOnce.OnePayment | services/payments/app/service.py:67-95 | For payments: that row has the order's amount and provider, whoever wins. |
| ReadModel.CopyFields | services/admin/app/consumer.py:71-75 | The field loop copies exactly the fields an event carries. |
| ReadModel.HandlerFields | services/admin/app/consumer.py:34-111 | Which fields each of the four handlers copies. |
| ReadModel.UpsertLaw | services/admin/app/consumer.py:34-111 | An upsert touches that row alone and in it exactly the fields carried, over the defaults if it is new. |
| ReadModel.NewUserRow | services/admin/app/consumer.py:79-96 | A user known only from a contact event is an active customer without a name. |
| ReadModel.AdminConsole.ApplyOrderEvent | services/admin/app/consumer.py:34-59 | Upsert of the order row; a payload without id does nothing, an empty status is not copied. |
| ReadModel.AdminConsole.ApplyUserEvent | services/admin/app/consumer.py:62-76 | Upsert of name, role and activity. |
| ReadModel.AdminConsole.ApplyContactEvent | services/admin/app/consumer.py:79-96 | Upsert of email and phone on the same row. |
| ReadModel.AdminConsole.ApplyRestaurantEvent | services/admin/app/consumer.py:99-111 | Upsert of name and owner. |
| ReadModel.FoldWrites | services/admin/app/consumer.py:34-111 | A row after a stretch of the stream is what it was, overwritten by everything the stretch writes into it. |
| ReadModel.RereadRow | services/admin/app/consumer.py:34-111 | Reading a stretch again before the rest does not change where a row ends. |
| ReadModel.ExactAtHighWater | services/admin/app/consumer.py:34-111 | However often a consumer is rewound, at its high-water mark its table is the one-pass fold. |
| ReadModel.ReadingOnEnds | services/admin/app/consumer.py:34-111 | A consumer that keeps reading gets to the end from wherever it was sent back to, and is exact there. |
| ReadModel.UserContactCommute | services/admin/app/consumer.py:62-96 | User and contact events commute. |
| ReadModel.InterleavingIrrelevant | services/admin/app/consumer.py:62-96 | However the two topics interleave, the user table is what reading one after the other leaves. |
| ReadModel.LastNoteWins | services/admin/app/consumer.py:34-59 | Order events carry every field, so the last one about an order is what shows. |
| ReadModel.ConsoleExactIff | services/admin/app/consumer.py:34-59 | However an order's messages are duplicated and reordered, a consumer at the end shows a state the order was in; it shows the order, and already its status, iff the last message about it is its latest. |
| ReadModel.ConsoleShowsOrder | services/orders/app/service.py:132-179 | In particular when they arrive as written: the order's own status, payment status, total, customer and restaurant. |
| ReadModel.RetriedMessageShowsOldStatus | shared/outbox.py:60-66 | One refused send of an order's first message leaves the console on the status it had then. |
| Outbox.SendBatch | shared/outbox.py:58-66 | The send loop: every row of the batch marked or counted, nothing else touched, and what went out in order. |
| Outbox.OutboxTable.Drain | shared/outbox.py:38-68 | One batch in id order: sent rows marked and put on the wire, failed ones counted, everything else untouched; returns how many went out. |
| Outbox.PendingLists | shared/outbox.py:45-50 | The batch query lists the unpublished rows and no others, each once, in order. |
| Outbox.DrainProgress | shared/outbox.py:45-68 | A drain publishes at least min(S, B - P) of S sendable rows past P failing ones and leaves the failing ones. |
| Outbox.BacklogClears | shared/outbox.py:99-121 | With P < B all sendable rows are out after n drains as soon as n * (B - P) >= S; the failing ones stay. |
| OutboxProgress.DrainedFront | shared/outbox.py:45-68 | What a drain does to the first k rows does not depend on the rows behind them. |
| OutboxProgress.DrainRowLaw | shared/outbox.py:45-66 | A drain marks or counts exactly the waiting rows with fewer than B unpublished ones in front, as the broker answers. |
| OutboxProgress.OutInTime | shared/outbox.py:45-68 | A sendable row with P < B failing and S sendable rows in front of it is out after n drains with n * (B - P) > S, whatever is recorded in between. |
| OutboxProgress.NeverOut | shared/outbox.py:45-68 | With B or more failing rows in front of it, it never goes out. |
| OutboxProgress.RowGoesOutIff | shared/outbox.py:45-68 | So it goes out at all iff fewer than B failing rows are in front of it. |
| Outbox.Starved | shared/outbox.py:45-68 | Once the oldest B unpublished rows all fail, the queue never changes again. |
| OutboxProgress.RetriedRowGoesLast | shared/outbox.py:60-66 | A row refused once goes out behind everything recorded after it. |
| Relays.FreshBatch | shared/outbox.py:51-58 | SKIP LOCKED hands a relay unpublished rows that nobody holds, each once. |
| Relays.NextSafe | shared/outbox.py:45-68 | Begin, send, fail, commit and crash of any relay keep batches disjoint and sends accounted for. |
| Relays.RelaySafety | shared/outbox.py:45-68 | In every run: disjoint batches, published means sent, and at most one send more than the aborted batches that held the row. |
| Relays.NothingLost | shared/outbox.py:38-68 | No row disappears and none is unpublished again. |
| Relays.LoneRelayDrains | shared/outbox.py:38-68 | A relay alone does what one drain does. |
| Relays.LonePassDrains | shared/outbox.py:45-68 | Its whole pass, batch, sends and commit, leaves exactly the drained table. |
| Hours.ActiveSplit | services/restaurants/app/hours.py:104-136 | A weekly window covers a minute on its own day or, past midnight, on the next. |
| Hours.AcceptsIffInWindow | services/restaurants/app/hours.py:79-144 | The schedule accepts iff the switch is on and the minute is in the union of the windows on the cyclic week; the SQL clause says the same. |
| Hours.AcceptsAtIff | services/restaurants/app/hours.py:161-208 | The same for every minute of the unrolled timeline. |
| HoursProofs.WindowTail | services/restaurants/app/hours.py:111-136 | A running window runs until its closing time comes round. |
| HoursProofs.ClosingTimeTrue | services/restaurants/app/hours.py:98-136 | Orders are accepted at every minute until the reported closing time. |
| HoursLaws.OpenReport | services/restaurants/app/hours.py:98-136 | While open: a whole day and no closing time iff today's row has equal times, otherwise the closing time of a running row, today's own if it runs. |
| HoursLaws.UnscheduledReport | services/restaurants/app/hours.py:98-99 | Without a schedule the switch decides and no times are reported. |
| HoursLaws.ClosedReportLaw | services/restaurants/app/hours.py:90-97 | Switched off or closed by schedule: no closing time, and the opening reported is the first still to come, none iff every opening row is today's and past. |
| HoursLaws.NextOpenSoonest | services/restaurants/app/hours.py:147-158 | The scan finds the opening fewest minutes away. |
| HoursProofs.ScanFindsFirst | services/restaurants/app/hours.py:147-158 | The scan stops at the row that opens first. |
| HoursProofs.NextOpeningTrueIff | services/restaurants/app/hours.py:138-158 | The reported opening is where the closed stretch ends, iff it is not a whole-day row stored with a later time. |
| HoursProofs.NoOpeningReported | services/restaurants/app/hours.py:147-158 | None means closed through the next six days, and there is an opening within the week iff today's own row has a window. |
| Inventory.TotalUp | services/restaurants/app/inventory.py:34-36 | Every item named, with the sum of its lines. |
| Inventory.Stockroom.Move | services/restaurants/app/inventory.py:33-46 | Each tracked item that is named moves by its total, clamped at zero; unknown, untracked and other items are untouched. |
| Inventory.Stockroom.ApplyOrder | services/restaurants/app/inventory.py:20-25 | Takes the lines from stock. |
| Inventory.Stockroom.RestoreOrder | services/restaurants/app/inventory.py:28-30 | Puts the lines back. |
| Inventory.CheckLines | services/restaurants/app/internal.py:137-165 | The first line with a problem decides; otherwise every line is priced from the menu and summed. |
| Inventory.Stockroom.ValidateOrder | services/restaurants/app/internal.py:105-185 | The verdict in the source's order of checks, and stock moved only by an accepted reserving request. |
| StockProofs.AcceptedIff | services/restaurants/app/internal.py:112-185 | Accepted iff the kitchen is on and the minute is in its hours, every line can be sold at the price shown, the address is served and the minimum is met; the bill is what was shown. |
| StockProofs.DeclinedIff | services/restaurants/app/internal.py:112-175 | Each refusal means one thing, in the source's order: unknown, closed by switch or hours, empty, the first unsellable line and why, not served, too little. |
| StockProofs.ProbeTakesNothing | services/restaurants/app/internal.py:177-181 | Only an accepted request that reserves touches the menu. |
| StockProofs.MoveLaw | services/restaurants/app/inventory.py:33-46 | Unnamed and untracked items stay; a named tracked one moves by all its lines together, never below zero; nothing but the count changes. |
| StockProofs.FirstProblemIsFirst | services/restaurants/app/internal.py:139-154 | The code reported is the first failing line's. |
| StockProofs.RoundTripIff | services/restaurants/app/inventory.py:20-46 | Reserve then release is the identity iff no tracked item is asked for beyond its stock, its lines summed. |
| StockProofs.ValidatedFits | services/restaurants/app/internal.py:143-147 | With one line per item, what validation accepts fits the stock. |
| StockProofs.StepBalances | services/restaurants/app/internal.py:177-205 | Each reserve, release or edit balances shelf and reservations up to what it oversold. |
| StockProofs.StockLedger | services/restaurants/app/internal.py:105-205 | Over every run: shelf plus reserved equals opening stock plus oversold, and the shelf is never negative. |
| StockProofs.StockConserved | services/restaurants/app/inventory.py:15-46 | With cart-built requests nothing is oversold: shelf plus reserved is the opening stock. |
| StockProofs.SplitLinesOversell | services/restaurants/app/internal.py:139-147 | Two lines of one item sell six of five portions, and the release puts six back. |
| Cart.Basket.AddItem | services/orders/app/cart.py:91-132 | One line per item, quantities added, price refreshed; missing, unavailable and foreign items refused without change. |
| Cart.Basket.UpdateItem | services/orders/app/cart.py:135-152 | Sets or removes one line; an emptied cart belongs to no restaurant. |
| Cart.Basket.Clear | services/orders/app/cart.py:159-160 | An empty cart. |
| Cart.Basket.View | services/orders/app/cart.py:58-84 | Exactly the stored lines, one per item, ascending, with their sum and fingerprint. |
| Cart.ViewUnique | services/orders/app/cart.py:64-84 | A stored cart has one view. |
| Cart.SortSorts | services/orders/app/cart.py:78-78 | Sorting by item id: ordered and a permutation. |
| Checkout.PriceShownIsCharged | services/orders/app/checkout.py:66-115 | An accepted cart is billed line by line as shown, total and all, at least the minimum, one line per item. |
| Checkout.ReservationTakes | services/restaurants/app/internal.py:177-181 | The shelf goes down by exactly what was billed: the clamp does not fire. |
| Checkout.PlaceOrder | services/orders/app/service.py:276-322 | A checkout either fails with exactly the refusal its inputs call for and changes nothing, or creates an order for the subtotal shown, takes its portions and empties the cart. |
| Checkout.CheckoutSucceedsIff | services/orders/app/checkout.py:51-115 | Exactly when a checkout succeeds: cart, confirmed prices, own address, service, kitchen, hours, lines, zone and minimum. |
| Checkout.LocalRefusals | services/orders/app/checkout.py:51-64 | Which of the local refusals is given when. |
| Checkout.RemoteRefusals | services/orders/app/checkout.py:87-99 | Past those: unavailable, restaurant unknown, or the very code declined with. |
| Checkout.FingerprintIff | services/orders/app/cart.py:50-55 | Fingerprints agree iff items and prices do. |
| Checkout.FingerprintIgnoresQuantity | services/orders/app/cart.py:50-55 | Two carts with one fingerprint and different subtotals. |
| Dispatch.DeliveryDesk.AssignForOrder | services/delivery/app/service.py:178-221 | One delivery per order, offered to the picked driver if there is one; an existing one is returned untouched. |
| Dispatch.DeliveryDesk.OwnedActive | services/delivery/app/service.py:244-253 | 404, then 403, then the row. |
| Dispatch.DeliveryDesk.AcceptAssignment | services/delivery/app/service.py:256-269 | Only an assigned delivery of one's own. |
| Dispatch.DeliveryDesk.RejectAssignment | services/delivery/app/service.py:272-308 | Frees the row, then offers it to the next driver, never the one who declined. |
| Dispatch.DeliveryDesk.Pickup | services/delivery/app/service.py:311-326 | From assigned or accepted. |
| Dispatch.DeliveryDesk.Deliver | services/delivery/app/service.py:329-339 | From picked up only. |
| Dispatch.DeliveryDesk.Reassign | services/delivery/app/service.py:342-376 | The override: ownership and an active driver are checked, nothing else. |
| DispatchLaws.AssignLaw | services/delivery/app/service.py:178-221 | A new delivery is offered to an eligible driver, to nobody iff there is none; an existing one is kept. |
| DispatchLaws.AcceptLaw | services/delivery/app/service.py:256-269 | Takes effect iff the delivery is the driver's own and assigned; otherwise the exact refusal. |
| DispatchLaws.PickupLaw | services/delivery/app/service.py:311-326 | Takes effect iff it is the driver's own and assigned or accepted. |
| DispatchLaws.DeliverLaw | services/delivery/app/service.py:329-339 | Takes effect iff it is the driver's own and picked up. |
| DispatchLaws.RejectLaw | services/delivery/app/service.py:272-308 | Takes effect iff it is the driver's own and not picked up; then it is offered to an eligible other driver, to nobody iff there is none. |
| DispatchLaws.ReassignLaw | services/delivery/app/service.py:342-403 | Takes effect iff the delivery is there, the requester is an admin or the restaurant's owner, and the driver is active; otherwise the exact refusal; only that row changes. |
| DispatchLaws.TakenFromOnly | services/delivery/app/service.py:178-376 | A delivery leaves a driver only by that driver declining or an entitled reassignment. |
| DispatchLaws.BusyIff | services/delivery/app/service.py:118-128 | Busy is whoever is on a delivery assigned, accepted or picked up. |
| DispatchLaws.RosterLaw | services/delivery/app/consumer.py:81-102 | A user event enrols a driver, active unless it says otherwise, or updates only that driver's activity. |
| DispatchProofs.NearestIsFirstEligible | services/delivery/app/service.py:138-154 | The nearest-first scan stops at the first eligible driver, or there is none nearby. |
| DispatchProofs.PickIff | services/delivery/app/service.py:157-170 | A pick is never busy, inactive or excluded; none iff nobody is eligible; nearest preferred. |
| DispatchProofs.RejectKeeps | services/delivery/app/service.py:272-308 | Declining keeps the fleet valid and moves the order off that driver. |
| DispatchProofs.ReassignKeepsIff | services/delivery/app/service.py:353-373 | The override keeps one delivery per driver iff the new driver is on no other. |
| DispatchProofs.ReassignDoublesUp | services/delivery/app/service.py:353-373 | A driver with two active deliveries after it. |
| DispatchProofs.StepKeeps | services/delivery/app/service.py:178-376 | Every call with such reassignments keeps the fleet valid. |
| DispatchProofs.OneDeliveryPerDriver | services/delivery/app/service.py:118-376 | Over every history: at most one active delivery per driver, UNASSIGNED iff no driver, last report is the row. |
| DeliveryProgress.ReassignInTimeIff | services/delivery/app/service.py:353-373 | The override continues a delivery's journey iff it was neither picked up nor delivered. |
| DeliveryProgress.EveryDeliveryIsAJourney | services/delivery/app/service.py:178-376 | Over every history with such reassignments: offers until one pickup, then only that driver's drop-off. |
| DeliveryProgress.OrderHears | services/orders/app/consumer.py:59-79 | Told any reports in any order and number, the order is out for delivery iff a pickup came, delivered iff a drop-off came after one. |
| DeliveryProgress.OrderFollowsDelivery | services/orders/app/consumer.py:59-79 | Heard in order, a delivery's reports leave its order where the delivery is. |
| DeliveryProgress.LockedDriverCallsDecideApart | services/delivery/app/service.py:244-339 | Overlapping driver calls on one delivery are serial, and no two effective ones decided from the same row. |
| DeliveryProgress.OneDeclineCounts | services/delivery/app/service.py:272-308 | Simultaneous declines by one driver pass the order on at most once. |
| Breaker.CircuitBreaker.IsOpen | shared/http_client.py:59-67 | Open iff at least threshold failures since the last success, the latest less than a cooldown old. |
| Breaker.CircuitBreaker.RecordSuccess | shared/http_client.py:69-71 | Keeps the fields a function of the reported history. |
| Breaker.CircuitBreaker.RecordFailure | shared/http_client.py:73-76 | Likewise. |
| Breaker.CircuitBreaker.HandleAnswer | shared/http_client.py:143-178 | A call that comes back: unreachable and 5xx are failures, every other answer a success, an interrupted call reports nothing. |
| Breaker.CircuitBreaker.Request | shared/http_client.py:130-178 | Refused while open and without a report; otherwise the answer is classified. |
| Breaker.SequentialCall | shared/http_client.py:130-178 | A call that starts and comes back with nothing in between is the sequential request. |
| Breaker.LetThroughExactly | shared/http_client.py:59-67 | From a trip to the next report, in every interleaving of overlapping calls, exactly the calls started a cooldown or more after the latest failure get through. |
| Breaker.SingleProbeIff | shared/http_client.py:63-66 | At most one gets through until the next report iff no two start after the cooldown. |
| Breaker.DeadDependencySpared | shared/http_client.py:59-76 | Sequential calls to a dead dependency: the n-th failure is at least (n - threshold) cooldowns after the threshold-th. |
| Breaker.DeadDependencyTrips | shared/http_client.py:73-76 | After threshold failing calls in a row every call is refused until a cooldown after the latest failure. |
| Breaker.AnsweringNeverCutOff | shared/http_client.py:150-178 | A service that answers, with 4xx or otherwise, is never cut off in any interleaving. |
| RateLimit.Limiter.Enforce | shared/ratelimit.py:7-14 | Counts within the running window, starts a new one after expiry, admits up to the limit. |
| RateLimit.CounterExact | shared/ratelimit.py:10-13 | The counter is exactly the requests since the running window began. |
| RateLimit.AdmitsUnderTwiceLimit | shared/ratelimit.py:7-14 | Any interval of one window's length admits fewer than twice the limit, for every trace. |
| RateLimit.WorstCase | shared/ratelimit.py:7-14 | The bound is met. |
| CheckoutLease.MutualExclusion | services/orders/app/service.py:270-340 | If checkouts end within the TTL, at most one is inside at any time and none deletes another's lock. |
| CheckoutLease.AcquireIff | services/orders/app/service.py:270-273 | A checkout gets in exactly when no unexpired key is there, for ten seconds. |
| CheckoutLease.FinishLetsNextIn | services/orders/app/service.py:339-340 | The end of a checkout lets the next one in at once. |
| CheckoutLease.OverrunBreaksExclusion | services/orders/app/service.py:339-340 | One that overruns lets the next in beside it and then deletes its lock. |

## Left out

- Payment, identity, messaging and storage adapters (Stripe, Google, Twilio, SendGrid, GCS), signatures, passwords and tokens: foreign calls and cryptography.
- The Kafka poll loop of shared/messaging.py: redelivery and reordering are an adversarial environment instead; at-least-once delivery is not claimed.
- Delivery zones, distances and estimated times: floating point; the zone check's answer and the nearby drivers are parameters.
- The price hash is kept as the text that is hashed; collisions of SHA-256 are not modelled.
- PaymentService.PaymentDesk.HandleEvent: the seen-set is a flag on the event, so its expiry is an adversarial answer; the lookup by provider reference is modelled for one order at a time; the separate commits of status and event are one step.
- PaymentService.PaymentDesk.ConfirmCardPayment: the separate commits of status and event are one step.
- MoneySafety.AtMostOneRefund: covers the runs without the steps of MoneySafety.LeavesRefundedIff, because with them the claim is false (MoneySafety.SecondRefund).
- DispatchProofs.OneDeliveryPerDriver: covers reassignments to a driver free of other deliveries, because otherwise it is false (DispatchProofs.ReassignKeepsIff).
- Concurrent validations of different carts, and assignments of different orders at the same time, take no row lock; those properties are about serial runs.
- The sweeps' outbox rows are kept per order, so the order between different orders' rows is not modelled.
- PaymentService.PaymentDesk.CreatePaymentForOrder: one handler at a time; the conflict of overlapping handlers and the re-read of the winner are InsertOnce.OnePayment.
- Stock releases are a best-effort call: the ledger lets each one happen or not, at most once, with tracking left on or off throughout; stock counts edited by owners are not part of the runs.
- Checkout.PlaceOrder: a checkout whose reservation was made but whose answer was lost, or that is refused with another 4xx, is not modelled: the service either answers or is unreachable. The lease around it is CheckoutLease.
- RateLimit.Limiter.Enforce: INCR and EXPIRE are taken as one step.
- Row timestamps other than the order's own, display names, coordinates and item lists on events.
- ReadModel.ExactAtHighWater: per topic; for the user table's two topics their interleaving is proved irrelevant, rewinding both at once is not modelled.
- The read-models of other services (customers, addresses, restaurants, drivers' names) follow the same upsert and would only add easy members.
- Users, notifications, reviews, favourites, routers, schemas, migrations and the frontend.

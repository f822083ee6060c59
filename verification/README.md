# Cross-border logistics: verified model

A model of the order, payment and warehouse event protocol of the cross-border logistics services,
and of the fixed-point money, the notification hub, the outbox worker, the exchange-rate cache and the
host allow-list beside it. `dafny verify dfyconfig.toml` checks the whole project.

## How the model is laid out

- `Text`, `Domain`: Go's string and number helpers; order statuses, payment kinds and event envelopes.
- `OrderStore`, `PaymentStore`, `QuotationStore`, `WarehouseStore`: the tables of each service. Every
  transaction appears twice: as a function from tables to tables, and as a method of a repository class
  that runs it statement by statement, with a fault at any statement or a lost reply to COMMIT. Primary
  keys, unique indexes and CHECK constraints are guards of the inserts.
- `Protocol`: one step system over all tables, the Kafka logs, the committed offsets, the position of
  each consumer and the calls in flight. A call that makes two database accesses is two actions with
  any number of other actions in between; stopping after the first is a crash. Publishing a row and
  marking it are separate actions, so records repeat. A consumer's processed check and its locked
  transaction are separate as well.
- `Invariant`, `Preservation`: what every reachable state satisfies, and why.
- `Guarantees`, `Announcements`, `Ledger`, `Drain`, `PackageRetries`, `PackageTopic`: the results drawn
  from it: safety over whole runs, refinement of an atomic ledger that is safe by itself, the end and the
  agreement of every fault-free schedule, when the warehouse consumer stops, and which package events can
  still be processed.
- `Calls`, `Events`: each service call run without interruption and each event handled, from any reachable
  state: what it changes, field by field, and that it changes nothing in every other case.
- `Interleaving`, `PaymentInterleaving`: status transactions of concurrent consumers, and settlements by
  concurrent webhooks, at the level of row locks.
- `Witnesses`: runs from the empty system that reach the situations these results speak of.
- `Consumers`, `OutboxWorker`: the consumer loops and the outbox poll as imperative programs under
  arbitrary failures.
- `Pricing`, `NotificationHub`, `RateCache`, `HostAllowList`: the four remaining cores.

An "operator" action moves orders along the status graph between the events, because nothing in the
repository does; it never leaves a payment wait and never enters a status that an event announces.

## Where code and documentation differ

The model follows the code.

- `docs/kafka-events.md` lists `previousStatus` as a field of `order.status_changed.v1`. The package
  handler always writes WAITING_PURCHASE there, although a package can arrive for an order in transit
  to the foreign warehouse (`Announcements.AnnouncedPreviousIsTrue`, `Witnesses.WrongPreviousStatus`).
  It takes an operator's move to get there: no code of the repository enters that status.
- The repository's `README.md` says the rate cache's time to live also spaces failed refreshes, and that
  a failed refresh returns the last snapshot. A refresh that ends in an invalid snapshot does neither
  (`RateCache.RefetchIffInvalid`, `RateCache.InvalidRefreshSurfaces`).
- `docs/kafka-events.md` calls the errors that are retried until shutdown transient. The one that a second
  package of an order meets is permanent, and since the topic has one partition it also stops the
  packages of all other orders (`PackageRetries.StuckAtOvertaken`, `PackageRetries.TopicStops`,
  `PackageTopic.ProcessedUnlessBlocked`, `Witnesses.OvertakenIsReached`).

## Model

| member | source | states |
|---|---|---|
| `Preservation.ExecKeepsInv` | backend/internal/order/adapters/postgres/repository.go:77-168 | every action (confirm, insert, read, settle, publish, mark, check, apply, commit, restart, operator move) preserves the invariant that ties quotations, orders, timelines, payments, callbacks, packages, outboxes, logs, offsets and calls in flight together |
| `Preservation.EveryRunIsOk` | backend/internal/order/adapters/postgres/repository.go:77-168 | the invariant holds after every run, whatever the interleaving, the crashes between two accesses, the republished and redelivered records and the restarts |
| `Preservation.CallbackStep` | backend/internal/payment/adapters/postgres/repository.go:160-206 | a callback transaction, on a payment read at any earlier time, keeps the invariant |
| `Preservation.MarkSucceededStep` | backend/internal/payment/adapters/postgres/repository.go:127-158 | so does marking a payment succeeded by hand |
| `Preservation.ApplyLockedOk` | backend/internal/order/adapters/postgres/repository.go:93-125 | the locked half of a status transaction keeps the invariant for any command decoded from an outbox row |
| `Preservation.RestartOk` | backend/internal/order/adapters/kafka/consumer.go:46-64 | restarting a consumer from the committed offset, or committing its position, leaves nothing unprocessed below either |
| `Guarantees.NoPoisonedPayment` | backend/internal/order/adapters/kafka/consumer.go:66-96 | after any run every record of a payment topic is skipped by design, already processed, or passes every guard of its handler and transaction, so the retry loop cannot hang on it |
| `Guarantees.RowFindsStatus` | backend/internal/order/adapters/postgres/repository.go:93-109 | an unprocessed payment event finds its order in the very status that payment waits for |
| `Guarantees.RowFindsAmount` | backend/internal/order/adapters/postgres/repository.go:100-106 | and the amount it carries is the one the order has stored |
| `Guarantees.PaidInFull` | backend/internal/order/adapters/postgres/repository.go:100-109 | an order past WAITING_DEPOSIT has exactly one succeeded deposit of its deposit amount; one at READY_FOR_DOMESTIC_DELIVERY or later also exactly one succeeded balance payment, and the two sum to its total |
| `Guarantees.ArrivedHasPackage` | backend/internal/warehouse/application/service.go:45-88 | an order at the foreign warehouse or later has a stored package |
| `Guarantees.AmountGuardPasses` | backend/internal/payment/application/service.go:91-97 | createPayment's amount guard never refuses a stored order |
| `Guarantees.NothingLostBelowCommit` | backend/internal/order/adapters/kafka/consumer.go:55-61 | below a committed offset every record was skipped by design or has its event in processed_events |
| `Guarantees.RestartResumes` | backend/internal/order/adapters/kafka/consumer.go:46-64 | a consumer that starts again goes on where the last commit of its partition left off |
| `Guarantees.OtherTopicsLeftAlone` | backend/internal/order/adapters/kafka/consumer.go:29-29 | the consumers read three topics and no others |
| `Guarantees.MarkedIsPublished` | backend/pkg/kafka/outbox.go:53-67 | a row marked published has its payload in the log of its topic |
| `Guarantees.OneSuccessRow` | backend/internal/payment/adapters/postgres/repository.go:127-206 | whatever callbacks arrive, replayed, renumbered or aimed elsewhere, a succeeded payment has exactly one success row, carrying its own order, amount and type, and any other payment is pending and has none |
| `Guarantees.PaymentsOnlySettle` | backend/internal/payment/adapters/postgres/repository.go:160-206 | a recorded callback stays bound to its payment for ever, and a payment never changes except from PENDING to SUCCEEDED |
| `Guarantees.QuotationAgreement` | backend/internal/order/application/service.go:71-114 | a stored order's quotation is confirmed for it with the same total, and no two orders share a quotation |
| `Guarantees.RetryOrder` | backend/internal/order/application/service.go:63-115 | order creation run to the end from any reachable state, in particular after an attempt that died between confirming and inserting: with an address, for the quotation's customer, at most 1,800,000,000,000 ns after the quotation and while that is unconfirmed or confirmed for this order, the quotation ends up confirmed for it and the order stored with its 70% deposit, one timeline entry and its order.created row, or left alone if it was there; in every other case nothing changes |
| `Calls.CreatePaymentCall` | backend/internal/payment/application/service.go:76-117 | a payment is created exactly for an order in the status that waits for it and without one of the kind yet, over the deposit or the remainder stored with the order, pending, in VND, under its own reference; otherwise nothing changes |
| `Calls.WebhookCall` | backend/internal/payment/application/service.go:119-147 | a webhook with a new callback ID over exactly the amount of a pending payment settles it, records the callback and writes its success row; over any other amount it changes nothing |
| `Calls.KnownCallback` | backend/internal/payment/adapters/postgres/repository.go:166-178 | a callback ID that is known or empty changes nothing, whatever it is sent for |
| `Calls.MarkSucceededCall` | backend/internal/payment/application/service.go:175-196 | marking a pending payment by hand settles it with its success row; a settled one stays as it is |
| `Calls.UnfitRefused` | backend/internal/payment/application/service.go:94-97 | what no reachable state has is refused all the same: orders for quotations without quantity or total or in another status, payments and transfers over nothing, payments without reference or in another currency, refunds |
| `Calls.SettledIsVouched` | backend/internal/payment/application/service.go:134-136 | after any run a succeeded payment had a transfer of exactly its amount reported for it or was marked by hand |
| `Calls.ReceivePackageCall` | backend/internal/warehouse/application/service.go:45-88 | a package with trimmed names, measurements in (0, 500] and a new tracking number, for an order that waits for its purchase, is stored with its event; any other changes nothing |
| `Calls.NamesAlwaysUnique` | backend/migrations/warehouse/001_create_packages.sql:4-4 | after any run two packages have two tracking numbers and two payments two references, and every stored package is such a package of an order past its deposit |
| `Events.DepositAccepted` | backend/internal/order/application/service.go:169-196 | the handler accepts exactly the success rows of positive VND deposits and makes the command of that row |
| `Events.BalanceAccepted` | backend/internal/order/application/service.go:197-224 | the same for the remaining balance |
| `Events.PackageAccepted` | backend/internal/order/application/service.go:147-168 | the handler accepts exactly the rows of packages with positive measurements and names that are not blank |
| `Events.WrongAmountRefused` | backend/internal/order/adapters/postgres/repository.go:100-106 | a payment event over another amount than the order has stored leaves every table alone |
| `Events.EventTakesEffect` | backend/internal/order/adapters/postgres/repository.go:77-126 | in every reachable state a check and a transaction on a stored, unprocessed event move its order into the announced status, add one timeline entry and one status_changed row with the announced ends, record the event, take the consumer one record further and change nothing else; a package event needs its order to wait for the purchase or to be in transit |
| `Announcements.OneCreatedRow` | backend/internal/order/adapters/postgres/repository.go:128-168 | after any run a stored order has exactly one order.created row, by the order service, naming its quotation, total, deposit and WAITING_DEPOSIT as they still are, and no other order has one |
| `Announcements.AnnouncedPreviousIsTrue` | backend/internal/order/application/service.go:147-223 | a status_changed row names the order's true previous status except, exactly, when a package arrives for an order in transit to the foreign warehouse |
| `Announcements.TimelineIsAnnouncedPath` | backend/internal/order/adapters/postgres/repository.go:110-121 | an order's timeline runs from WAITING_DEPOSIT to its stored status along permitted transitions, never repeats a status, and has at most twelve entries; the status_changed rows are exactly its edges into the statuses events announce, in order, with an order in transit told as waiting for its purchase, and without operator moves these are all its edges |
| `Ledger.RefineStep` | backend/internal/order/adapters/postgres/repository.go:77-126 | every action is one step of the atomic ledger (open, settle, effect, move) or none, where a move never enters a status an event announces |
| `Ledger.RunRefinesLedger` | backend/pkg/kafka/outbox.go:45-70 | so every run, with its crashes, duplicates and restarts, is a run of the ledger |
| `Ledger.EnteredByEffect` | backend/internal/order/adapters/postgres/repository.go:100-109 | a ledger step enters a status an event announces only as that event's effect, with its cause on record |
| `Ledger.LedgerIsSafe` | backend/internal/order/adapters/postgres/repository.go:100-109 | in every run of the ledger, by its steps alone, no order is past its deposit, at the foreign warehouse or ready for delivery without the payment or package for it, none is cancelled, and the deposit is the 70% part of the total |
| `Ledger.EntryTakesEffect` | backend/internal/order/adapters/postgres/repository.go:107-112 | so in a run of the protocol such a status is entered exactly when the order takes the effect |
| `Ledger.ExactlyOnceInEffect` | backend/internal/order/adapters/postgres/repository.go:83-125 | in any run an order takes each event-driven transition at most once, after its cause is on record, and along the status graph |
| `Drain.PollProgress` | backend/pkg/kafka/outbox.go:53-67 | publishing and marking an unmarked row leaves strictly fewer rows to publish and one record more |
| `Drain.ConsumeProgress` | backend/internal/order/adapters/kafka/consumer.go:46-96 | handling one payment record without a fault moves the consumer past it and commits, whatever the record |
| `Drain.EveryScheduleEnds` | backend/pkg/kafka/outbox.go:45-70 | from every reachable state every fault-free schedule of polls and record handlings, in any order, on any partition and by any assignment of partitions to consumers, ends: no more polls than unmarked rows, no more handlings than unread records, old and new |
| `Drain.RestAgrees` | backend/internal/order/adapters/kafka/consumer.go:46-96 | and wherever such a schedule can go no further, an order waits for its deposit if and only if it has no succeeded deposit, and has reached delivery readiness if and only if its balance is paid |
| `Drain.FaultFreeDrains` | backend/internal/order/adapters/kafka/consumer.go:46-96 | every reachable state has a schedule that goes that far, of bounded length |
| `Drain.CaughtUpAgrees` | backend/internal/order/adapters/kafka/consumer.go:55-61 | the same agreement once the payment rows are marked and every payment partition's committed offset, or its own consumer, is at the log end |
| `PackageRetries.PassedUnlessOvertaken` | backend/internal/order/adapters/kafka/warehouse_consumer.go:57-81 | the record at a warehouse consumer's position is passed in some continuation if and only if it is not an unprocessed package event of an order that has already arrived |
| `PackageRetries.StuckAtOvertaken` | backend/internal/order/adapters/kafka/warehouse_consumer.go:38-56 | at such a record every consumer of the log stays, and no offset beyond it is committed, in every continuation |
| `PackageRetries.TopicStops` | backend/internal/order/adapters/kafka/warehouse_consumer.go:38-81 | it stops the one-partition topic for every order: a package event of any order, stored then or later, that is no record up to it is never processed |
| `PackageTopic.ProcessedUnlessBlocked` | backend/internal/order/adapters/kafka/warehouse_consumer.go:38-81 | a stored, unprocessed package event is processed in some continuation if and only if it and the unprocessed package events ahead of it in the log belong to different orders, none of which has arrived; an event not published yet has the whole log ahead of it |
| `PackageTopic.AheadIsProcessed` | backend/internal/order/adapters/kafka/warehouse_consumer.go:38-56 | whenever a package event gets processed, every package event that was ahead of it is processed by then |
| `PackageTopic.OneArrival` | backend/internal/order/adapters/postgres/repository.go:107-109 | of two package events of one order at most one is ever processed, and then the other one never can be |
| `PackageRetries.ArrivalOvertakes` | backend/internal/order/adapters/postgres/repository.go:107-109 | the first arrival of an order puts every other unprocessed package event of that order into that state |
| `Witnesses.WrongPreviousStatus` | backend/internal/order/application/service.go:147-166 | a run in which an order goes from IN_TRANSIT_TO_FOREIGN_WAREHOUSE to ARRIVED_FOREIGN_WAREHOUSE and its status_changed row says it came from WAITING_PURCHASE |
| `Witnesses.OvertakenIsReached` | backend/internal/warehouse/application/service.go:45-88 | a run after which a second package's event is at its consumer's position and is never passed |
| `Witnesses.DeliveryIsReached` | backend/internal/order/domain/order.go:77-100 | a run that takes an order from its quotation through both payments to DELIVERED |
| `Interleaving.WriteIsAtomic` | backend/internal/order/adapters/postgres/repository.go:93-125 | under its row lock, a transaction that writes from the row it read earlier does what one atomic transaction would do on the tables of the moment it writes |
| `Interleaving.LocksAlwaysHold` | backend/internal/order/adapters/postgres/repository.go:93-99 | in every interleaving a locked row is held by one worker and still is the row that worker read |
| `Interleaving.InterleavingIsAtomic` | backend/internal/order/adapters/postgres/repository.go:77-126 | every interleaved step changes the tables by one whole atomic transaction or not at all |
| `Interleaving.Unhindered` | backend/internal/order/adapters/postgres/repository.go:77-126 | a worker that meets no lock does the whole transaction |
| `Interleaving.WinsAreProcessed` | backend/internal/order/adapters/postgres/repository.go:83-125 | the number of transactions that changed anything for an event is one if the event is processed and zero if not |
| `Interleaving.OneWinnerPerEvent` | backend/internal/order/adapters/postgres/repository.go:83-125 | however many workers handle one event, exactly one applies it if it gets processed at all; a worker that lost rolls back with all tables unchanged and then finds the event processed |
| `PaymentInterleaving.WriteIsAtomic` | backend/internal/payment/adapters/postgres/repository.go:166-206 | under the payment's row lock, a settlement that decides on the row it read earlier does what the atomic transaction would do at the moment it writes |
| `PaymentInterleaving.InterleavingIsAtomic` | backend/internal/payment/adapters/postgres/repository.go:127-206 | every interleaved step of webhooks and manual confirmations changes the tables by one whole atomic transaction or not at all |
| `PaymentInterleaving.Unhindered` | backend/internal/payment/adapters/postgres/repository.go:160-206 | a settlement that meets no lock is the whole transaction |
| `PaymentInterleaving.OneSuccessRow` | backend/internal/payment/adapters/postgres/repository.go:127-206 | at any interleaving a succeeded payment has exactly one success row with its own order, amount and type, and a pending one has none |
| `PaymentInterleaving.OneWinnerPerCallback` | backend/internal/payment/adapters/postgres/repository.go:166-190 | however many webhooks carry one callback ID, for one payment or several, exactly one changes anything if the callback is recorded at all; a loser leaves all tables as they were, and a later webhook ends at the check |
| `OrderStore.OrderRepository.ProcessStatusEvent` | backend/internal/order/adapters/postgres/repository.go:77-126 | the transaction statement by statement: without faults it applies exactly an unprocessed event with an unused row ID, for a known order whose status may change so and whose stored amount the event carries; a failed statement leaves the tables as they were, a lost commit reply leaves the whole effect, and neither reports success |
| `OrderStore.OrderRepository.Create` | backend/internal/order/adapters/postgres/repository.go:128-168 | the same for order creation, where an order that is there already is left alone |
| `OrderStore.RetriesActOnce` | backend/internal/order/adapters/postgres/repository.go:77-126 | however often an event is handled, with whatever statement failures and lost commit replies, the tables end as one transaction leaves them, that of the first attempt that could take effect, or as they began; any attempt after that one is a duplicate |
| `OrderStore.CreateRetriesActOnce` | backend/internal/order/adapters/postgres/repository.go:128-168 | the same for creating an order, with any rebuilt values for its quotation |
| `PaymentStore.PaymentRepository.SucceedPayment` | backend/internal/payment/adapters/postgres/repository.go:127-158 | status update and success row together or not at all, under any statement failure or lost reply; applied exactly to a pending payment, unchanged exactly for a settled one |
| `PaymentStore.PaymentRepository.SucceedByCallback` | backend/internal/payment/adapters/postgres/repository.go:160-206 | callback record, status update and success row together or not at all; a conflict exactly if the callback is recorded for another payment |
| `QuotationStore.QuotationRepository.UpdateIfConfirmable` | backend/internal/quotation/adapters/postgres/repository.go:50-60 | the conditional update hits exactly a quotation that is pending, or confirmed for this order, and changes only its status and its order |
| `QuotationStore.QuotationRepository.Confirm` | backend/internal/quotation/application/service.go:142-165 | confirmation goes through exactly for a known quotation, at most thirty minutes old, that is pending or confirmed for this order; an older one is an invalid input, and a failure changes nothing |
| `QuotationStore.QuotationMeans` | backend/internal/quotation/application/service.go:94-121 | a new quotation is stored exactly for a named customer under a new ID with positive inputs and a representable total, and carries price times quantity times rate rounded half up, plus 5% of that rounded half up, plus 120,000 VND |
| `WarehouseStore.WarehouseRepository.CreateWithOutbox` | backend/internal/warehouse/adapters/postgres/repository.go:37-62 | package and event are stored together or not at all; refused as known exactly if the ID or the tracking number is |
| `Domain.PathIsSimple` | backend/internal/order/domain/order.go:77-100 | no sequence of permitted transitions repeats a status |
| `Domain.TransitionsMean` | backend/internal/order/domain/order.go:77-100 | a permitted transition goes one stage on, from the wait for the purchase to the arrival, or cancels an order that is neither delivered nor cancelled |
| `Domain.TwoRoutesToDelivery` | backend/internal/order/domain/order.go:77-100 | exactly two sequences lead from a new order to a delivered one, and neither avoids a payment |
| `Consumers.Consumer.ProcessUntilSuccess` | backend/internal/order/adapters/kafka/consumer.go:66-96 | returns true only with the record done, changes the tables by at most one transaction of its command, and succeeds if the record was ready and some attempt met no fault |
| `Consumers.Consumer.ProcessPackage` | backend/internal/order/adapters/kafka/warehouse_consumer.go:57-81 | the same for package events, where an invalid contract is skipped |
| `Consumers.Consumer.Run` | backend/internal/order/adapters/kafka/consumer.go:46-64 | over any polls, handler failures and failed commits, positions and committed offsets go exactly one record on for each record handled, up to the round in which the handler gave up, and every record below a committed offset is done |
| `Consumers.Consumer.RunWarehouse` | backend/internal/order/adapters/kafka/warehouse_consumer.go:38-56 | the same for the warehouse consumer |
| `Consumers.RoundOk` | backend/internal/order/adapters/kafka/consumer.go:55-61 | after one delivered record: the commit is safe, and so is leaving without it |
| `Consumers.PackageNeverInvalid` | backend/internal/order/adapters/postgres/repository.go:104-106 | the transaction never calls a package's input invalid, so that error always means an invalid contract |
| `OutboxWorker.OutboxTable.FetchUnpublished` | backend/internal/order/adapters/postgres/repository.go:29-47 | the pending rows in (created_at, id) order: no row of the batch is younger than a later one or than a pending row left out, the smaller ID goes first on a tie, and rows are left out only of a full batch |
| `OutboxWorker.FirstMeans` | backend/internal/order/adapters/postgres/repository.go:29-47 | the same of any batch that meets the description a poll works with |
| `OutboxWorker.FirstIsUnique` | backend/internal/order/adapters/postgres/repository.go:30-30 | that description determines the batch |
| `OutboxWorker.Poll` | backend/pkg/kafka/outbox.go:45-70 | one poll under any failures of fetch, sends, marks and context is the sequence of turns over the first twenty pending rows |
| `OutboxWorker.MarkedExactlyWhen` | backend/pkg/kafka/outbox.go:53-67 | after any number of turns a fetched row is marked, with one attempt more and no error, exactly when its own send and mark go through and no cancellation came before; with one attempt more and the note of the failure when its send failed and the note went through; and untouched otherwise |
| `OutboxWorker.LogGains` | backend/pkg/kafka/outbox.go:53-67 | the log gains one record for each turn that takes place and whose send is not lost, in order |
| `OutboxWorker.CleanPoll` | backend/pkg/kafka/outbox.go:45-70 | without faults every row of the batch is marked and the log gains exactly their topics, keys and payloads, older rows first |
| `OutboxWorker.PollKeeps` | backend/pkg/kafka/outbox.go:45-70 | marks imply records, records come from rows with their type and key, contents and marks never change, the log only grows |
| `OutboxWorker.Run` | backend/pkg/kafka/outbox.go:31-43 | over any number of ticks each tick stores the rows that arrived and turns through the first twenty pending ones; marks imply records, records come from rows, contents and marks stay, the log only grows |
| `Pricing.ParsePrice` | backend/internal/quotation/domain/quotation.go:56-94 | the parser with its padding loop computes the specification, 64-bit wrap-around of its guard included |
| `Pricing.ParseIsExact` | backend/internal/quotation/domain/quotation.go:56-94 | on plain decimals with at most six fraction digits it succeeds if and only if the exact millionths lie in 1..2^63-1, and returns them |
| `Pricing.ParseMeans` | backend/internal/quotation/domain/quotation.go:56-94 | for every input: the parser returns v if and only if v is in 1..2^63-1 and the trimmed text spells it: perhaps a plus, digits, perhaps a dot with up to six characters of which the first may be a sign, only zeros after a minus |
| `Pricing.AcceptedPriceIsPositive` | backend/internal/quotation/domain/quotation.go:83-93 | any accepted spelling yields a positive int64 and had no negative fraction |
| `Pricing.PriceRoundTrip` | backend/internal/quotation/domain/quotation.go:56-102 | a printed int64 parses back to itself if and only if it is positive |
| `Pricing.StoredPriceRoundTrip` | backend/internal/quotation/adapters/postgres/repository.go:25-48 | a price stored with six decimals is read back as the same millionths |
| `Pricing.NegativesCollide` | backend/internal/quotation/domain/quotation.go:96-102 | below zero two prices print alike: a concrete pair |
| `Pricing.PrintedIsShortest` | backend/internal/quotation/domain/quotation.go:96-102 | no plain decimal of the same value has fewer characters than the printed price |
| `Pricing.ValidMetadata` | backend/internal/quotation/adapters/extraction/metadata.go:183-206 | the loops accept exactly a name, a three-letter code and a plain decimal with a digit other than zero |
| `Pricing.MetadataPriceOnlyOverflows` | backend/internal/quotation/adapters/extraction/metadata.go:183-206 | an accepted metadata price fails to parse if and only if it overflows int64 |
| `Pricing.Calculate` | backend/internal/quotation/domain/quotation.go:104-126 | for p the product and f the fee, each rounded half up, the result is (p, f, p + f + 120,000) if and only if the inputs are positive and that total is at most 2^63-1; no machine step wraps |
| `Pricing.QuoteMeans` | backend/internal/quotation/domain/quotation.go:104-126 | the same of the quotation a service computes, from the rounding inequalities alone |
| `Pricing.QuoteRounding` | backend/internal/quotation/domain/quotation.go:108-125 | the product is the exact product rounded half up, the fee is within half a VND of 5%, the total is their sum plus shipping |
| `Pricing.QuoteMonotone` | backend/internal/quotation/domain/quotation.go:104-126 | amounts are monotone in price, quantity and rate, and so is representability |
| `Pricing.DepositSplit` | backend/internal/order/application/service.go:95-99 | the divided-then-multiplied deposit equals floor(70*total/100) for every positive int64 without overflow, the remainder is positive, and so is the deposit for every total a quotation can have |
| `NotificationHub.ReplayAfter` | backend/cmd/notification-service/main.go:55-63 | the replay loop returns what follows the first event with the given ID, everything without an ID, nothing for an unknown one |
| `NotificationHub.Channel.Offer` | backend/cmd/notification-service/main.go:41-44 | a send to a channel with fewer than sixteen events is delivered, to a full one dropped, and the channel keeps following its stream |
| `NotificationHub.Hub.Publish` | backend/cmd/notification-service/main.go:32-47 | history becomes the last hundred events of the order's stream, every subscriber of the order is sent the event or, with sixteen waiting, loses it, all others are untouched, and no send meets a closed channel |
| `NotificationHub.Hub.Subscribe` | backend/cmd/notification-service/main.go:48-66 | under any spelling of an order's UUID: registers a fresh open channel and returns the replay in one step |
| `NotificationHub.OtherSpellingsHearNothing` | backend/cmd/notification-service/main.go:110-125 | a subscriber under a spelling other than the canonical one, which publish uses, is replayed nothing and sent nothing |
| `NotificationHub.Hub.Unsubscribe` | backend/cmd/notification-service/main.go:65-65 | takes the channel out of the set and closes it in one step; a second call panics and leaves the tables as they were |
| `NotificationHub.HistoryStep` | backend/cmd/notification-service/main.go:35-39 | cutting the cut history after an append gives the last hundred of the whole stream |
| `NotificationHub.ReplayContinuity` | backend/cmd/notification-service/main.go:48-66 | replay followed by the live events is a subsequence of the retained log from the named event on, and exactly that log when nothing was dropped |
| `NotificationHub.Server.Run` | backend/cmd/notification-service/main.go:109-147 | any sequence of publications, subscriptions, reads and departures serves each subscription with a client of its own and keeps every client, present or gone, replayed and sent what it was due from the stream as it was at its own subscription on |
| `NotificationHub.ServedSeesTheStream` | backend/cmd/notification-service/main.go:125-147 | what such a client was replayed, has read and has waiting is the retained log after the event it named, up to where it left, without a gap unless its channel overflowed |
| `RateCache.ValidityMeans` | backend/internal/admin/domain/rates.go:18-45 | a snapshot validates exactly when percentages and fee are in range and each of a non-empty list of currencies has a positive rate under its normalised code |
| `RateCache.CodeMeans` | backend/internal/admin/adapters/vietcombank/provider.go:143-151 | a currency's code depends neither on the case of its letters nor on blanks around it |
| `RateCache.Available` | backend/internal/admin/adapters/vietcombank/provider.go:141-148 | the table of quotes: the last parsable entry for each code |
| `RateCache.Select` | backend/internal/admin/adapters/vietcombank/provider.go:149-157 | the rates of all supported currencies, or the first code the bank does not quote |
| `RateCache.Clone` | backend/internal/admin/adapters/vietcombank/provider.go:175-183 | equal contents in a list and a table of its own |
| `RateCache.Provider.GetSystemRates` | backend/internal/admin/adapters/vietcombank/provider.go:64-100 | result and next cache state are the specification's; the returned record is fresh and shares nothing with the provider |
| `RateCache.CacheIsLastAnswer` | backend/internal/admin/adapters/vietcombank/provider.go:95-99 | the cache always holds the last snapshot it handed out, valid and without a stored error beside it |
| `RateCache.EveryAnswer` | backend/internal/admin/adapters/vietcombank/provider.go:64-100 | every answer from the calls alone: within the time to live of the last contact it repeats that reply without a fetch; otherwise it passes on the base's error, or fetches: a complete list makes the base's percentages, fee and currencies with the last parsable quote for each code and the bank's time, handed out if valid and refused if not, and without one the last snapshot handed out is repeated, if there is any |
| `RateCache.AnswersValidate` | backend/internal/admin/adapters/vietcombank/provider.go:64-100 | over any calls every returned snapshot validates |
| `RateCache.NoFetchBeforeExpiry` | backend/internal/admin/adapters/vietcombank/provider.go:68-87 | after a fetch that did not end in a validation error no call with a clock before its time plus the time to live fetches, even if the clock runs backwards |
| `RateCache.RefetchIffInvalid` | backend/internal/admin/adapters/vietcombank/provider.go:91-93 | of two consecutive calls within the time to live the second fetches exactly when the bank's answer to the first was complete but made an invalid snapshot |
| `RateCache.FailuresServeTheLastSnapshot` | backend/internal/admin/adapters/vietcombank/provider.go:80-93 | after one success a call fails exactly when the time to live is over and the base provider fails or the new snapshot is invalid; every answer that is not newly fetched is the last one returned |
| `RateCache.InvalidRefreshSurfaces` | backend/internal/admin/adapters/vietcombank/provider.go:91-93 | a refresh can fail although a good snapshot is cached: a concrete pair of calls |
| `RateCache.OnlyUselessRatesAreRefused` | backend/internal/admin/adapters/vietcombank/provider.go:89-93 | with sound settings a complete answer is refused exactly when some quoted rate is not positive |
| `RateCache.Serve` | backend/internal/admin/adapters/vietcombank/provider.go:175-183 | copy isolation: whatever callers write into records they were given, all later answers are those of a run without the writes |
| `HostAllowList.NewHostMatcher` | backend/internal/quotation/adapters/extraction/host_matcher.go:15-43 | the loop builds the specified matcher or reports the first refused entry with its reason |
| `HostAllowList.BuildsIffAllAccepted` | backend/internal/quotation/adapters/extraction/host_matcher.go:15-43 | building succeeds if and only if every entry is acceptable by itself |
| `HostAllowList.AcceptedIsNormal` | backend/internal/quotation/adapters/extraction/host_matcher.go:62-84 | normalizeHost is the identity on every accepted pattern |
| `HostAllowList.NormalizeTwice` | backend/internal/quotation/adapters/extraction/host_matcher.go:62-64 | elsewhere a second pass is the identity exactly when the first left no dot and no space at the end |
| `HostAllowList.RebuildIsIdentity` | backend/internal/quotation/adapters/extraction/host_matcher.go:58-60 | rebuilding from Patterns() of any accepted matcher succeeds and gives the same matcher |
| `HostAllowList.RebuiltMatchesTheSameHosts` | backend/cmd/quotation-service/main.go:53-53 | so the matcher rebuilt at start-up matches exactly the hosts the configuration allowed |
| `HostAllowList.MatchMeans` | backend/internal/quotation/adapters/extraction/host_matcher.go:45-56 | a host matches exactly when some configured entry covers it; order and repetition do not matter |
| `HostAllowList.CaseDoesNotMatter` | backend/internal/quotation/adapters/extraction/host_matcher.go:62-64 | a host and the same host in other letter case get the same verdict |
| `HostAllowList.BlanksAndDotDoNotMatter` | backend/internal/quotation/adapters/extraction/host_matcher.go:62-64 | and so do a host and that host with blanks around it or one final dot |
| `HostAllowList.AcceptedMeans` | backend/internal/quotation/adapters/extraction/host_matcher.go:19-40 | an entry is accepted exactly if it is an address or a valid name, or a wildcard before a valid name |
| `HostAllowList.RefusedMeans` | backend/internal/quotation/adapters/extraction/host_matcher.go:19-27 | which refusals are reported as empty and which as no bare host |
| `HostAllowList.ValidHostMeans` | backend/internal/quotation/adapters/extraction/host_matcher.go:66-84 | a name is valid exactly if it has at most 253 small letters, digits, hyphens and dots, a letter or digit at both ends and around every dot, a dot in every 64 characters, and is not localhost |
| `HostAllowList.IPv4Means` | backend/internal/quotation/adapters/extraction/host_matcher.go:67-69 | an address is four numbers up to 255 in decimal notation with dots between them |
| `HostAllowList.PatternsMean` | backend/internal/quotation/adapters/extraction/host_matcher.go:37-42 | Patterns() lists exactly the normalised entries, an exact name once |

## Left out

- The checks of the rate provider's constructor on its base provider, endpoint and client; only the time to live is checked.
- EveryScheduleEnds: covers the payment topics; for package events ProcessedUnlessBlocked says which ones can still make progress.
- Publication order per order: after a failed publish the loop goes on with the next row, so it is not kept and not claimed.
- The value order Create returns for an order that was there already: it is freshly built, so only its ID and amounts need agree with the stored row.
- The reply to concurrent identical callbacks, which may be an error; only the resulting tables are modelled.
- Order items, descriptions, sources and timestamps of timeline entries; the timeline is modelled in insertion order, not sorted by `occurred_at`.
- `attempts`, `last_error` and publication times in the protocol's state; they are in OutboxWorker.
- Column widths and scales (INTEGER quantities, VARCHAR lengths, NUMERIC rounding of measurements); the model accepts more rows than the tables do.
- Malformed UUID strings and the HTTP, JSON, HTML and XML layers: calls start from decoded inputs. Spellings of a UUID matter only to the notification hub, where they are modelled.
- Signatures, IPN authentication and checkout forms.
- UUID generation: fresh identifiers from an unused set; the SHA-1 order ID is an injective function of the quotation.
- Clocks: times are integer inputs of each step, unordered unless stated; tickers and back-off delays are left out.
- Floating point: selling rates and package measurements are already parsed numbers; `parseSellRate` is left out.
- Non-ASCII letters in ToUpper and ToLower, and the entity and blank normalisation of product names.
- IPv6 literals in host patterns: NewHostMatcher refuses every pattern with a colon before it looks at addresses.
- PostgreSQL and Kafka internals: statements are atomic, row locks serialise, logs only grow, a poll returns one record or none.
- Kafka partitioning: a record may land on any of its topic's partitions (three, but one for packages), which includes the one its key selects.
- Junk records by other producers are limited to those the consumers skip.
- Order statuses other than by event or operator, in particular cancellation, and payment statuses beyond PENDING and SUCCEEDED, which the code never assigns.
- Quotation statuses EXPIRED and REJECTED, which the code never assigns; restricted products and exchange-rate lookup of quotation creation.
- URL safety, redirects, product extraction beyond validMetadata, the frontend and the deployment files.

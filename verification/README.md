# Execution plane and deterministic kernel: a Dafny model

The project models the hard protocols and algorithms of the trading system's execution plane (`execution/`), of its
event ledger (`data_plane/event_ledger.py`) and of its deterministic kernel (`kernel/`), and proves what they promise
over every input and every run.

- **Live desk** (`ExecutionDesk`, `ExecutionDeskCommands`, `ExecutionDeskOrders`, `ExecutionDeskSafety`,
  `ExecutionDeskRecovery`, `ExecutionDeskTransactions`, `ExecutionDeskUncertainty`, `ExecutionDeskObject`): connect,
  bind, arm, preview, submit and recover against a durable order table and a broker that may reject, time out or be
  cut off by a crash; when each command takes effect, and which orders an account admits. One world is a desk's
  memory, the order rows and what the broker was sent; `ExecutionDeskTransactions` interleaves any number of desks
  between their ledger transactions and broker calls.
- **Paper broker** (`PaperBroker`, `PaperBrokerOutcomes`): bracket groups behind one durable row per order, cut off
  between any two writes.
- **Synthetic stop** (`SyntheticStop`, `SyntheticStopController`, `SyntheticStopOrders`, `SyntheticStopProgress`): the
  pure trigger and reprice engine and the outbox around it; the ledger row and the broker's orders are all that
  survives between ticks.
- **Order lifecycle** (`OrderState`, `OrderLedger`, `Reconcile`, `Recovery`, `RecoveryReport`): transitions, the order
  stored as a document and as event rows, reconciliation with the broker, and the startup report.
- **Event ledger** (`EventLedger`): append-only revisions, the point-in-time view, and the database's own guards.
- **Adaptive plan** (`AdaptivePlan`, `AdaptivePlanRuns`): the trade-plan state machine, its risk envelope and its
  runs.
- **Sentiment** (`Sentiment`, `SentimentScores`): component scores, instrument assessment, the weighted median and
  target aggregation.
- **Resampling** (`Resample`, `ResampleGroups`, `ResampleNesting`): completed bars, what they hold, and nesting.
- **Opening range** (`Orb`): the live decision and the historical signal.
- **Market data** (`IsoTime`, `SipStore`, `SseStream`, `SseResume`): the quote-per-second index over text timestamps,
  the server-sent-event reader, and following the log by cursor. The reader differs from section 9.2.6 of the WHATWG
  HTML Living Standard in two ways, both kept: the event ID does not outlive its event, and the end of a stream
  dispatches.
- **Paper session** (`IntradayPolicy`, `PremarketEntry`, `Allocation`, `PaperSession`, `PaperSessionSafety`,
  `PaperSessionGuards`, `PaperSessionOrders`, `PaperSessionDue`, `PaperSessionEntry`, `PaperSessionMarks`,
  `PaperSessionTiming`, `PaperSessionLate`, `PaperSessionRuns`, `PaperSessionObject`): position policy, premarket
  order lifecycle, share arithmetic, and the orchestrator's tick as an ordered list of intended writes: buys, sales
  and cancellations with their command rows. A call that raises ends the list and a crash may cut it anywhere.
- Shared: `Texts`, `Numbers`, `Sorting`.

State machines are specified by functions over values (a `Step`, `Tick` or `After...` and its fold over a run). Where
the code changes rows and fields in place, a class does the same and each of its methods promises the specification's
next state; the lemmas are about the specification. Places where the code does less than its names or its neighbours
suggest are stated as exact conditions or as concrete runs:

- a `match_rate` can be negative (`Recovery.RateBounds`, `Recovery.UnmanagedShortIsNegative`);
- `reconcile_broker_order` can raise `ValueError`, exactly when `Reconcile.WhenReconcileRaisesValueError` says
  (`Reconcile.RejectionAfterFillRaises`);
- two desks that share a ledger can both be past the check for uncertain rows: the second one then meets the first
  one's row unresolved (`ExecutionDeskTransactions.UnresolvedIsReached`), and two rows can be uncertain at once
  (`ExecutionDeskUncertainty.SecondUncertainIff`, `ExecutionDeskUncertainty.TwoUncertainReached`);
- a settled row becomes uncertain again when a desk that still holds it writes a lost answer or an empty lookup
  (`ExecutionDeskUncertainty.UnsettledIff`, `ExecutionDeskTransactions.StaleRecoveryUnsettles`);
- at the last price attempt a stop's client ID repeats, so the stored limit need not be the broker's
  (`SyntheticStopOrders.LastAttemptMatchesIff`, `SyntheticStopController.LastAttemptKeepsOldLimit`);
- a trigger met without write permission is stored only when the broker is unhealthy and there is a risk besides
  (`SyntheticStopController.TriggerIsStoredIff`);
- an add may be signalled on an earlier bar than the last one (`AdaptivePlanRuns.BarMovesBackIff`,
  `AdaptivePlanRuns.AddCanUseEarlierBar`);
- the day lock of a hard loss is written after the flattening, so a crash in between leaves the date open to later
  buys (`PaperSessionTiming.HardLossLocksIff`, `PaperSessionRuns.HardLossBuysLaterIff`,
  `PaperSessionRuns.CutHardLossHappens`), and a position that cannot be read keeps the lock from ever being written
  (`PaperSessionTiming.UnsoundNeverLocks`);
- a premarket order can be working before its lifetime is saved; a crash in between restarts the lifetime, and a
  second order is then bought outside the first one's (`PaperSessionTiming.GapIsBetweenOrderAndSave`,
  `PaperSessionLate.LateBuyIff`, `PaperSessionRuns.LateBuyAfterCut`);
- a trade and a bid at the stop command an exit even while the broker is unhealthy (`SyntheticStop.TriggersIff`);
- a premarket entry that is already running is repriced without the authorisation, quote-age, soft-loss and account
  checks an entry passes (`PaperSessionGuards.UnguardedBuyIff`, `PaperSessionRuns.UnguardedBuyHappens`);
- a polled event page that is not consumed to its end leaves a gap (`SseResume.AbandonedPageLeavesGap`);
- an empty event page can move the cursor back (`SseResume.CursorMovesBackIff`);
- a stream that ends in order inside a data line raises (`SseStream.CutInsideLine`);
- confirmation phrases compare account masks, which different accounts share (`ExecutionDeskSafety.MasksAgreeIff`);
- tail evidence supplied by a caller can raise a position after its profit is recorded
  (`IntradayPolicy.ProfitRisesIff`, `IntradayPolicy.SuppliedTailCanRaise`).

## Model

| member | source | states |
|---|---|---|
| ExecutionDeskSafety.KeyDecodes | execution/ibkr_execution.py:573-577 | the ledger key of an order decodes to one account, client ID and client order ID, because a valid client order ID holds no colon |
| ExecutionDeskSafety.RefDecodes | execution/ibkr_execution.py:746-790 | so does the broker's order reference |
| ExecutionDeskSafety.MasksAgreeIff | execution/ibkr_execution.py:94-99 | two accounts share a mask exactly when they are equally long and, beyond four characters, agree in the first and the last four |
| ExecutionDeskSafety.AuthorisedFacts | execution/ibkr_execution.py:397-445 | a submit that passes every check is armed, confirmed in time, with nothing uncertain, and the re-read account and order normalise to exactly the previewed request |
| ExecutionDeskSafety.StepKeeps | execution/ibkr_execution.py:240-267 | any command keeps the ledger and desk invariants, at most one uncertain row, and pays for a submission with an arm command |
| ExecutionDeskSafety.RunKeeps | execution/ibkr_execution.py:236-510 | over any run of one desk with failures, crashes and restarts, there is at most one uncertain row and there are no more submissions than arm commands |
| ExecutionDeskSafety.SubmissionIsAuthorised | execution/ibkr_execution.py:397-497 | whatever reaches the broker is the previewed request of the bound account, accepted again for the account re-read with it, written ahead as a row, and within the desk's cap when it opens; what acceptance means for an account is the subject of the next rows |
| ExecutionDeskOrders.OpensIff | execution/ibkr_execution.py:512-597 | a buy is accepted exactly when it is well formed, fits the desk's and its own cap at its price in cents, and no order to buy the symbol is working |
| ExecutionDeskOrders.ReducesIff | execution/ibkr_execution.py:594-647 | with one long position and one working sale of the symbol, among any rows that do not count, a reduction is accepted exactly up to the held less the offered shares |
| ExecutionDeskOrders.ReducesWholeIff | execution/ibkr_execution.py:594-647 | without a working sale it is accepted exactly up to the position |
| ExecutionDeskOrders.NothingToReduce | execution/ibkr_execution.py:594-625 | without a long position in the symbol every reduction of it is refused |
| ExecutionDeskOrders.IdlePositionsChangeNothing | execution/ibkr_execution.py:611-625 | a position of another symbol, or one that is not long, changes no answer, wherever it stands |
| ExecutionDeskOrders.DoneOrdersChangeNothing | execution/ibkr_execution.py:627-647 | nor does an order of another symbol, or one that is over |
| ExecutionDeskOrders.LongPositionsAdd | execution/ibkr_execution.py:611-625 | two long positions of a symbol count as one of their sum |
| ExecutionDeskOrders.WorkingOrdersAdd | execution/ibkr_execution.py:627-647 | two working orders of one side and symbol count as one of their sum |
| ExecutionDeskOrders.PriceIsNearestCent | execution/ibkr_execution.py:563-568 | the price is the typed one to the nearest cent, ties to the even cent, and no other number of cents is |
| ExecutionDeskOrders.AcceptedOrderIsTyped | execution/ibkr_execution.py:578-608 | an accepted order has the typed symbol, operation and quantity, the account's ID, the nearest price and the value shown |
| ExecutionDeskOrders.SentOrderFitsAccount | execution/ibkr_execution.py:397-497 | an order that reaches the broker is the typed one; the account fetched with it has no working buy of the symbol for a buy, and a long position for a sale, which covers it where it is the only one |
| ExecutionDeskCommands.SendsIff | execution/ibkr_execution.py:397-497 | a command sends an order exactly when it is a submit to an armed, unexpired desk on a live link, nothing is uncertain, the preview is confirmed in time and still what the re-read account gives, the order has no row yet, and no crash precedes the call |
| ExecutionDeskCommands.RepeatIsNotSent | execution/ibkr_execution.py:433-453 | a confirmed order that has a row sends nothing; another intent under its ID leaves the desk armed, the same one disarms it |
| ExecutionDeskCommands.PreviewsIff | execution/ibkr_execution.py:341-395 | exactly when a preview is taken, and what it and its phrase hold |
| ExecutionDeskCommands.ArmsIff | execution/ibkr_execution.py:305-318 | exactly when an arm command takes effect, and how long it lasts |
| ExecutionDeskCommands.ConnectsIff | execution/ibkr_execution.py:269-295 | exactly when a connection stands: with any account if none is bound, and otherwise with that one; it is never armed |
| ExecutionDeskCommands.BindsIff | execution/ibkr_execution.py:320-339 | exactly when the account a desk is bound to changes |
| ExecutionDeskCommands.RecoversIff | execution/ibkr_execution.py:269-339 | which commands look uncertain rows up again, and whose |
| ExecutionDeskCommands.HealthDrops | execution/ibkr_execution.py:695-712 | what a health reading drops: connection and preview with the link, the arm also at its time |
| ExecutionDeskCommands.LooksOnly | execution/ibkr_execution.py:187-303 | a snapshot, a disarm and a disconnection touch no row, and health is read before and after them |
| ExecutionDeskCommands.OnlyConnectWakes | execution/ibkr_execution.py:137-185 | after a restart or a crash nothing but a connection has any effect |
| ExecutionDeskRecovery.BlockedIffAnswerLost | execution/ibkr_execution.py:454-497 | a submission leaves the ledger blocked exactly when its answer was lost to a crash, a timeout, an exception or an uncertain status; its row carries the reply's status, IDs or error, or is as it was written ahead after a crash |
| ExecutionDeskRecovery.RecoverySettles | execution/ibkr_execution.py:830-870 | a recovery pass gives each uncertain row of the account and client ID what its own lookup says, or unknown without an answer, and touches no other, up to the first lookup that raises |
| ExecutionDeskRecovery.NothingSentWithoutNews | execution/ibkr_execution.py:397-497 | with an uncertain row no command of any desk sends anything, over any run of whole commands with restarts, until a lookup tells what became of an order |
| ExecutionDeskRecovery.BrokerIdsAreHonest | execution/ibkr_execution.py:454-497 | over any run in which the broker finds only what it was sent, a row with a broker ID stands for an order that was sent |
| ExecutionDeskTransactions.AtMostOneSubmission | execution/ibkr_execution.py:433-497 | however the transactions and broker calls of any number of desks on one ledger interleave, and wherever they die, the broker is sent at most one order per account, client ID and client order ID, each with its durable row |
| ExecutionDeskTransactions.SubmitIsItsPieces | execution/ibkr_execution.py:397-497 | checks, row, broker call and settlement, left alone, end where the whole submit ends |
| ExecutionDeskTransactions.RecoveryIsItsPieces | execution/ibkr_execution.py:830-880 | reading the uncertain rows and settling them one transaction at a time, left alone, ends where the whole command ends |
| ExecutionDeskTransactions.SecondDeskDefers | execution/ibkr_execution.py:446-453 | of two desks past their checks with the same order, the one that creates the row second finds it unresolved, looks it up and sends nothing |
| ExecutionDeskTransactions.UnresolvedIsReached | execution/ibkr_execution.py:402-453 | two desks given the same confirmed order at once get there |
| ExecutionDeskUncertainty.SecondUncertainIff | execution/ibkr_execution.py:433-497 | a turn leaves two uncertain rows where there was at most one exactly when one is there and the turn creates an order's row, or writes a lost answer or an uncertain lookup to a row settled by now |
| ExecutionDeskUncertainty.TwoUncertainReached | execution/ibkr_execution.py:402-497 | two idle desks with different orders, begun together, leave two uncertain rows |
| ExecutionDeskUncertainty.UnsettledIff | execution/ibkr_execution.py:801-853 | a turn makes a settled row uncertain exactly when it goes on with a desk that holds the row and writes a timeout, an exception or an uncertain status, or finds nothing for a row it read as submitting |
| ExecutionDeskUncertainty.SentWhileUncertain | execution/ibkr_execution.py:402-497 | while some row stays uncertain, over any interleaving, the orders still sent are at most the desks that were past their checks |
| ExecutionDeskTransactions.SettledIsFinal | execution/ibkr_execution.py:801-870 | a settled row that no desk is working on is never written again, over any interleaving |
| ExecutionDeskTransactions.StaleRecoveryUnsettles | execution/ibkr_execution.py:830-853 | two desks recovering one row: the one whose lookup came back empty overwrites the other's answer with unknown and drops the broker ID |
| ExecutionDeskObject.LongPositionQuantity | execution/ibkr_execution.py:611-625 | the loop over positions computes the specified sum, whose meaning for orders is `ExecutionDeskOrders` |
| ExecutionDeskObject.ActiveOpenQuantity | execution/ibkr_execution.py:627-647 | the loop over open orders computes the specified sum of one side |
| ExecutionDeskObject.OrderStore.CreateOrRead | execution/ibkr_execution.py:746-790 | creates the row for a new key and otherwise returns the stored one |
| ExecutionDeskObject.LiveDesk.RecoverUncertainOrders | execution/ibkr_execution.py:830-880 | every recoverable row is settled from the broker's answer, stopping at a lookup that fails |
| ExecutionDeskObject.LiveDesk.SubmitPreviewed | execution/ibkr_execution.py:397-497 | the in-place submit reaches exactly the specified world, crash points included |
| ExecutionDeskObject.LiveDesk.Handle | execution/ibkr_execution.py:236-267 | one command changes memory, rows and broker as the specification's step |
| ExecutionDeskObject.LiveDesk.Serve | execution/ibkr_execution.py:236-267 | a session of commands never submits an order identity twice and never gains a second uncertain row |
| PaperBroker.SubmitKeepsBook | execution/ibkr_paper_broker.py:369-433 | a call reaches the transport at most once and only for orders none of which had a row |
| PaperBroker.AtMostOneGroup | execution/ibkr_paper_broker.py:369-433 | over any run of calls with crashes a root client ID is submitted as a group at most once |
| PaperBroker.GroupNeedsClearPreflight | execution/ibkr_paper_broker.py:390-409 | a group is sent only after an accepted preflight without a warning, with every order's row already stored |
| PaperBroker.RepeatOnlySettlesItsRow | execution/ibkr_paper_broker.py:492-560 | a root ID with a row is never sent again: another request under it conflicts and changes nothing, the same one only settles its row |
| PaperBroker.ReplayReturnsReceipt | execution/ibkr_paper_broker.py:492-560 | repeating a settled request returns the same receipt and sends nothing |
| PaperBrokerOutcomes.StatusReads | execution/ibkr_paper_broker.py:671-682 | how the broker's words are read, and that reading twice changes nothing |
| PaperBrokerOutcomes.RepeatAnswers | execution/ibkr_paper_broker.py:552-583 | what a repeated request leaves and answers in every case |
| PaperBrokerOutcomes.SentIff | execution/ibkr_paper_broker.py:369-411 | a group is sent exactly when all its IDs are new and distinct, the process lives to commit their rows, and the preflight accepts it without a warning |
| PaperBrokerOutcomes.DiesBetweenRows | execution/ibkr_paper_broker.py:381-402 | a process that dies between the rows leaves exactly those before, and nothing sent |
| PaperBrokerOutcomes.ClashStops | execution/ibkr_paper_broker.py:393-402 | a child that is known or named twice ends the call with the earlier rows in place, as a conflict exactly when its row is another request's |
| PaperBrokerOutcomes.NewGroupLeaves | execution/ibkr_paper_broker.py:403-433 | for any preflight, answer and crash, the status and broker ID each order of a new group is left with, and the answer |
| PaperBroker.PaperDesk.SubmitGroup | execution/ibkr_paper_broker.py:369-433 | the in-place call reaches the specified rows, groups and outcome |
| SyntheticStop.EvaluateKeeps | execution/synthetic_stop.py:143-342 | the attempt stays a valid index, triggers and completions stay, and a command's limit is the bid less the attempt's buffer, rounded down to the cent |
| SyntheticStop.TriggersIff | execution/synthetic_stop.py:162-284 | exactly when a stop triggers, at which buffer, and when the trigger is a command; a trade at the stop commands even an unhealthy broker |
| SyntheticStop.RepricesIff | execution/synthetic_stop.py:285-334 | a triggered, unfilled stop with a healthy broker sends a first command exactly when none is stored, and replaces it at the next buffer exactly when the delay has passed; otherwise nothing changes |
| SyntheticStop.CompletesIff | execution/synthetic_stop.py:143-160 | a stop is over exactly when its position is filled or it was over before |
| SyntheticStop.CommandsIff | execution/synthetic_stop.py:143-334 | exactly when the engine asks for an exit order, triggered or not, and at which buffer |
| SyntheticStop.WalksBuffers | execution/synthetic_stop.py:308-327 | after its first command every snapshot of an unfilled position a delay later moves the order to the next buffer, until the last |
| SyntheticStop.CommandsAreSpaced | execution/synthetic_stop.py:285-334 | any two commands of a run are at least the reprice time apart, and every one after the first is a replacement; when there is one is `SyntheticStop.RepricesIff` |
| SyntheticStop.QuoteTriggerWasConfirmed | execution/synthetic_stop.py:251-284 | a trigger by quotes alone means every bid over the confirmation time was at or below the stop |
| SyntheticStopController.RecoverKeeps | execution/synthetic_stop_controller.py:287-318 | recovery re-sends exactly the stored quantity and limit, and only for a command without a broker order |
| SyntheticStopController.SubmitKeeps | execution/synthetic_stop_controller.py:320-361 | a new command is in the ledger before it is sent |
| SyntheticStopController.TickKeeps | execution/synthetic_stop_controller.py:214-285 | every tick, whatever fails in it, keeps the outbox invariants and never lowers an attempt or clears a trigger |
| SyntheticStopController.OrdersNeverExceedBuffers | execution/synthetic_stop_controller.py:214-361 | over any run a plan has at most as many distinct broker orders as price buffers, and every write repeats a saved command |
| SyntheticStopOrders.StoredCommandIsBrokers | execution/synthetic_stop_controller.py:214-361 | over any run every broker order carries the first command saved under its client ID, and a row's stored quantity and limit are its order's while a higher attempt is left |
| SyntheticStopOrders.LastAttemptMatchesIff | execution/synthetic_stop_controller.py:214-361 | at the last attempt the stored command is the order's after a tick exactly when the tick replaces it by the order's own quantity and limit, or does not replace it and it was before; when a tick replaces it is stated over the tick's inputs |
| SyntheticStopController.HigherAttemptIsNew | execution/synthetic_stop_controller.py:380-382 | a higher attempt's client ID is unknown to the broker |
| SyntheticStopController.LastAttemptKeepsOldLimit | execution/synthetic_stop.py:308-327 | a concrete run from an empty ledger stores a limit the broker never received |
| SyntheticStopController.TriggerIsStoredIff | execution/synthetic_stop_controller.py:237-249 | a trigger that is due is stored exactly with write permission, or without it when the broker is unhealthy and the data is too, or there is material news or a halt risk |
| SyntheticStopProgress.TickSendsIff | execution/synthetic_stop_controller.py:214-361 | a tick stores a new command exactly when writes are allowed, recovery gets past the stored one, shares are held, one is due and no cancellation raises: for those shares, at the due buffer's limit |
| SyntheticStopProgress.EveryBufferIsTried | execution/synthetic_stop_controller.py:214-361 | ticks that work, a delay apart, put an order at every following buffer at the broker, until the last is reached |
| SyntheticStopController.Controller.TickOnce | execution/synthetic_stop_controller.py:214-285 | the in-place tick reaches the specified rows and broker orders |
| OrderState.ApplyIsRedo | execution/order_state.py:98-133 | a transition succeeds exactly when its event may follow, and then adds that one event |
| OrderState.EnteredFrom | execution/order_state.py:21-50 | from which states each state is entered |
| OrderState.NothingWithoutApproval | execution/order_state.py:21-133 | over any history of a new order, an order at work or filled has passed risk, approval and submission as its first three events |
| OrderState.HistoryIsFinite | execution/order_state.py:21-133 | every event pays one unit of a measure, fills neither fall nor pass the request, terminal orders do not change |
| OrderState.NewOrderBound | execution/order_state.py:21-50 | a new order has at most 2 * requested + 3 events |
| OrderState.BoundIsTight | execution/order_state.py:21-50 | and there is a history with exactly that many |
| OrderLedger.CopiesAgree | execution/ledger.py:201-294 | over any run of ledger calls the document is the replay of its event rows on the order as created |
| OrderLedger.RowsEqualDocument | execution/ledger.py:201-294 | the rows are the document's event list exactly when the order was inserted without events; rows are bounded and terminal orders stay |
| OrderLedger.BrokerIdsAreFinal | execution/ledger.py:155-176 | over any run no broker ID belongs to two orders and an order keeps the one it was given |
| OrderLedger.CreateIsIdempotent | execution/ledger.py:201-238 | creating a stored order returns it and changes nothing, and conflicts exactly when plan, symbol or shares differ |
| OrderLedger.Ledger.TransitionOrder | execution/ledger.py:240-294 | the in-place transition writes document and event row together or nothing |
| OrderLedger.Ledger.RecordBrokerOrderId | execution/ledger.py:155-176 | a broker ID is recorded once per order and never for two orders |
| Reconcile.ReconcileLandsAndIsIdempotent | execution/reconcile.py:44-104 | a reconcile that returns has stored the state the broker's word reports, with its fill, or the old one for an order still at work, in at most two transitions, and repeating it changes nothing |
| Reconcile.WhenReconcileReturns | execution/reconcile.py:44-104 | it returns exactly for the order's own broker order, under a recordable broker ID, with a full fill of the request, a growing partial fill, an end whose fill does not fall, a refusal before any fill or cancel request, a report of work on a submitted order, or the stored state again |
| Reconcile.WhenReconcileRaisesValueError | execution/reconcile.py:44-104 | it raises ValueError exactly for a blank broker ID or an illegal reported step |
| Reconcile.RejectionAfterFillRaises | execution/reconcile.py:44-104 | a rejection reported for a partially filled order raises it, and leaves the broker ID recorded |
| Reconcile.ReconcileBrokerOrder | execution/reconcile.py:44-104 | the method driving the ledger reaches the specified book and reply |
| Recovery.SweepFacts | execution/recovery.py:57-77 | matched plus unresolved is checked, every open order is checked, and the unresolved are exactly the orders the ledger does not share with the broker afterwards |
| Recovery.ReturnsIffAgrees | execution/recovery.py:70-77 | an attempt that does not end the pass returns exactly when the ledger then has the broker's order as its own |
| Recovery.SafeIffRateIsOne | execution/recovery.py:106-130 | it is safe to resume exactly when the match rate is one |
| Recovery.RateBounds | execution/recovery.py:88-119 | the rate lies in [-1, 1] and is negative exactly when the matches and the managed symbols held soundly are fewer than the unmanaged symbols held short or unreadably |
| Recovery.UnmanagedShortIsNegative | execution/recovery.py:88-117 | one unmanaged short position gives a rate of -1 |
| RecoveryReport.UnmatchedIff | execution/recovery.py:79-94 | a symbol is unmatched exactly when it is held and none of today's plans has a filled order in it |
| RecoveryReport.UnmanagedMismatchIff | execution/recovery.py:95-111 | such a symbol is mismatched exactly when one of its positions is not long, not readable or not positive |
| RecoveryReport.QuantityMismatchIff | execution/recovery.py:84-117 | a symbol with one filled order and one sound position is mismatched exactly when their quantities differ |
| RecoveryReport.FillsAdd | execution/recovery.py:84-90 | two orders of today's plans in a symbol count as one of their fills together |
| RecoveryReport.PositionsAdd | execution/recovery.py:95-111 | two sound positions of a symbol count as one of their sum |
| RecoveryReport.IdleOrdersChangeNothing | execution/recovery.py:84-88 | orders of other plans or without fills change nothing |
| RecoveryReport.SafeIff | execution/recovery.py:118-130 | it is safe to resume exactly when every order was resolved and every held symbol is filled by today's plans and not mismatched |
| RecoveryReport.PassEndsIff | execution/recovery.py:57-77 | an order ends the pass exactly when its reconciliation raises anything but a reconciliation error |
| Recovery.ReconcileStartup | execution/recovery.py:35-130 | the startup loop reaches the specified book and report, or ends at the first other fault |
| EventLedger.InsertsPassTriggers | data_plane/event_ledger.py:84-103 | every insert the code attempts satisfies all guards of the table's trigger and constraints |
| EventLedger.TriggersAcceptIff | data_plane/event_ledger.py:52-103 | the table's guards accept exactly a row recorded after all others, next in number and not earlier in availability than its event's revisions, with a new payload |
| EventLedger.AppendRaisesIff | data_plane/event_ledger.py:134-163 | an append raises exactly for an event stored under another origin, or a new payload at a clock before something recorded |
| EventLedger.AvailableAsSoonAsPossible | data_plane/event_ledger.py:164-193 | a new revision is available at the first time its evidence and the event's earlier revisions allow |
| EventLedger.BatchKeeps | data_plane/event_ledger.py:114-132 | a batch only adds rows and answers each observation with its own payload's revision |
| EventLedger.ReplayReturnsOriginal | data_plane/event_ledger.py:134-204 | a recorded payload imported again returns its original revision and writes nothing |
| EventLedger.VisibleIsPrefix | data_plane/event_ledger.py:213-227 | the visible revisions of an event are exactly 1 up to the latest, and that grows with time |
| EventLedger.PastIsFixed | data_plane/event_ledger.py:213-227 | no later batch recorded after a time changes the view at that time |
| EventLedger.ViewIsCausal | data_plane/event_ledger.py:213-227 | a view holds one revision per event and none before its publication or first sighting |
| EventLedger.ViewShowsLatest | data_plane/event_ledger.py:213-227 | a view is the visible rows no visible row of the same event supersedes, and every event with a visible row is in it |
| EventLedger.Ledger.AppendMany | data_plane/event_ledger.py:114-132 | all of a batch is stored or none of it |
| AdaptivePlan.ProbeFitsEnvelope | kernel/adaptive_trade_plan.py:523-643 | an entry's shares at the ask stay within the notional cap and, down to the hard stop, within the risk cap |
| AdaptivePlan.AddFitsEnvelope | kernel/adaptive_trade_plan.py:355-493 | held and added shares together stay within both caps at the effective stop |
| AdaptivePlan.CapacityIsLargest | kernel/adaptive_trade_plan.py:614-637 | the capacity is the largest share count within both caps |
| AdaptivePlan.SellsIff | kernel/adaptive_trade_plan.py:331-410 | exactly when a held position is to be sold, its stop raised or a part reduced; a blocked decision does nothing |
| AdaptivePlan.EntersIff | kernel/adaptive_trade_plan.py:502-612 | exactly when an entry is signalled: nothing held, in the entry phase and window, a usable quote, the confluence with room for a share, a later bar after an earlier confirmation, and a soft revision left and cooled down |
| AdaptivePlan.ArmsIff | kernel/adaptive_trade_plan.py:502-579 | exactly when the entry is armed, and when it is abandoned |
| AdaptivePlan.ConfirmationsCount | kernel/adaptive_trade_plan.py:524-565 | confirmations count the later confirming bars since the last look that did not confirm |
| AdaptivePlan.FlatStateFollows | kernel/adaptive_trade_plan.py:284-612 | without a position each decision leaves its action's state, a vanished position closes the plan for good, and a look without confluence disarms |
| AdaptivePlan.HoldsOn | kernel/adaptive_trade_plan.py:411-493 | a position on which nothing is done is held, unless an add signalled for these shares still stands |
| AdaptivePlan.BlockersReport | kernel/adaptive_trade_plan.py:502-551 | without a position the blockers listed are exactly the quote's faults, or else the missing parts of the confluence and the lack of room |
| AdaptivePlan.EntryShares | kernel/adaptive_trade_plan.py:614-643 | an entry suggests the plan's fraction of the largest count within both caps, in whole shares and at least one |
| AdaptivePlan.AddShares | kernel/adaptive_trade_plan.py:614-643 | so does an add, of the count that fits beside what is held |
| AdaptivePlan.BuysNeedConfluence | kernel/adaptive_trade_plan.py:645-699 | an entry or add has every part of the confluence on a fresh complete quote, an add also the order flow |
| AdaptivePlan.SuggestionsAreBuys | kernel/adaptive_trade_plan.py:284-612 | shares are suggested exactly on an entry without and an add with a position |
| AdaptivePlan.AddsIff | kernel/adaptive_trade_plan.py:331-493 | exactly when an add is allowed |
| AdaptivePlanRuns.CountersCount | kernel/adaptive_trade_plan.py:717-760 | over a run the revision counts material decisions and the soft count the buys, which never exceed the limit |
| AdaptivePlanRuns.StopNeverFalls | kernel/adaptive_trade_plan.py:355-389 | the protective stop never falls and never lies below the hard stop |
| AdaptivePlanRuns.BuysAreSpaced | kernel/adaptive_trade_plan.py:701-715 | with a forward clock any two buys are at least the cooldown apart |
| AdaptivePlanRuns.AddsNeedGrowth | kernel/adaptive_trade_plan.py:426-493 | between two add signals the position has grown |
| AdaptivePlanRuns.EntryEndsOnce | kernel/adaptive_trade_plan.py:296-343 | once left, the entry phase is never entered again |
| AdaptivePlanRuns.EntryNeedsTwoBars | kernel/adaptive_trade_plan.py:502-612 | every entry follows an arming on a strictly earlier completed bar with no position and no entry blocker between; that the second bar is enough is `AdaptivePlan.EntersIff` |
| AdaptivePlanRuns.EntriesAreSeparated | kernel/adaptive_trade_plan.py:523-612 | two entries are separated by a disarm |
| AdaptivePlanRuns.BarMovesBackIff | kernel/adaptive_trade_plan.py:459-493 | the recorded bar moves back exactly when an add is due on an earlier bar |
| AdaptivePlanRuns.AddCanUseEarlierBar | kernel/adaptive_trade_plan.py:459-493 | a run from a fresh runtime in which that happens |
| AdaptivePlanRuns.Drive | kernel/adaptive_trade_plan.py:284-760 | every list of inputs has a run |
| Sentiment.WeightedMedian | kernel/cross_asset_sentiment.py:771-784 | fails exactly without positive weight, and otherwise returns a value that is the least minimiser of the weighted absolute deviation over all reals |
| Sentiment.HalfWeightMinimises | kernel/cross_asset_sentiment.py:771-784 | less than half the weight below and at least half at or below makes a point that minimiser |
| Sentiment.LeastMinimiserIsUnique | kernel/cross_asset_sentiment.py:771-784 | there is only one such value |
| Sentiment.FundingShape | kernel/cross_asset_sentiment.py:739-754 | the funding score is odd, in range, follows the rate below the extreme and opposes it from there, and peaks exactly at the moderate rate |
| Sentiment.ComponentsStayInRange | kernel/cross_asset_sentiment.py:422-465 | all six component scores lie in [-100, 100] |
| Sentiment.PriceOiGrows | kernel/cross_asset_sentiment.py:711-736 | the price and open-interest score never shrinks when both moves grow in their directions, through the root and both clamps |
| Sentiment.PriceOiPeak | kernel/cross_asset_sentiment.py:711-736 | its sign is the price's, it reaches 100 in size exactly on rising open interest with both moves at full scale, and a fall of open interest in place of an equal rise weakens it and keeps its sign |
| SentimentScores.ComponentsMeasure | kernel/cross_asset_sentiment.py:407-465 | which components an observation has and what each measures: a change against its full scale, the two moves together, the funding curve, the flow, the balance of liquidations and the basis |
| SentimentScores.StrengthMultiplies | kernel/cross_asset_sentiment.py:711-736 | the two moves count as the parts of their full scales they reach, multiplied |
| SentimentScores.WeighsComponents | kernel/cross_asset_sentiment.py:284-291 | the components weigh 20, 25, 15, 20, 10 and 10 percent, of those that are there |
| SentimentScores.ScoredIff | kernel/cross_asset_sentiment.py:351-574 | an instrument is scored exactly on a sound observation with enough known weight, which is its confidence, and its score is their weighted mean |
| Sentiment.ScoreIsBetweenComponents | kernel/cross_asset_sentiment.py:477-494 | an instrument's score never leaves an interval that holds all its components |
| Sentiment.TargetFades | kernel/cross_asset_sentiment.py:526-684 | without new observations a target's sources stay exactly as they were until a scored one expires, and from then on are fewer and weigh less, so coverage never comes back |
| Sentiment.AssessmentInRange | kernel/cross_asset_sentiment.py:351-521 | an instrument's score is in range, its confidence between the minimum and one, which only all six components reach, and its observation neither future nor stale |
| Sentiment.DisagreementInUnit | kernel/cross_asset_sentiment.py:641-655 | disagreement around the median never exceeds one |
| Sentiment.AggregateTarget | kernel/cross_asset_sentiment.py:576-684 | a target's score is the minimiser, its regime exact by coverage and thresholds, its shares plain quotients in [0, 1], so the clamps change nothing and the no-weight fallback is unused |
| Resample.NoRepaint | kernel/technical_monitor.py:201-301 | output at an earlier time is the later output restricted to bars complete by then |
| Resample.ResampleCompletedBars | kernel/technical_monitor.py:201-301 | the loop with its dictionary computes the specified bars, and fails for a non-positive interval |
| ResampleGroups.BarsHoldTheirRows | kernel/technical_monitor.py:134-301 | the bars come in strictly ascending order, each from exactly its slot's rows with the vwap of those that have one, and every row of a completed bucket is in one |
| ResampleGroups.AccumulatedGroups | kernel/technical_monitor.py:239-301 | buckets have distinct keys and every placed row has its bucket |
| ResampleGroups.VolumeIsConserved | kernel/technical_monitor.py:239-301 | total volume is that of the rows in completed buckets |
| ResampleNesting.SlotNests | kernel/technical_monitor.py:254-263 | a row's coarse bucket is that of its fine bucket's start, and is complete only if the fine one is |
| ResampleNesting.ResamplingNests | kernel/technical_monitor.py:201-301 | resampling m-minute bars to k*m minutes gives the k*m-minute bars of the rows, with the vwap too when every row has one |
| Orb.LiveMeans | kernel/signals.py:41-137 | the live decision triggers exactly on a complete minute path, a bullish range and a first breakout bar ending now |
| Orb.PastMeans | kernel/signals.py:140-247 | the historical signal triggers exactly without two rows of one time before the as-of time, on a first breakout of a bullish range whose next minute has a vwap before that time |
| Orb.HighIsHighest | kernel/signals.py:41-137 | the range's high is the highest of its bars' |
| Orb.AtMostOneDecision | kernel/signals.py:41-137 | at most one decision time triggers |
| Orb.LiveAndPastAgree | kernel/signals.py:140-247 | after a triggered decision with a vwap the historical signal is that one exactly while no two rows share a time, and a historical signal comes from such a decision exactly when the path to its entry is complete |
| Orb.LaterRowsChangeNothing | kernel/signals.py:90-100 | rows from the decision or as-of time on change neither result |
| Orb.SignalIsStable | kernel/signals.py:140-247 | a signal is returned unchanged at a later time exactly while no two rows before it share a time |
| IsoTime.TextOrderIsTimeOrder | execution/sip_store.py:125-202 | the order of the stored texts is the order of the times, with or without microseconds |
| IsoTime.TextIsInjective | execution/sip_store.py:125-202 | different times have different texts |
| IsoTime.IsoReads | execution/sip_store.py:125-202 | the text shows year, month, day, hour, minute and second at their places, then the microseconds unless they are zero, and the UTC offset |
| SipStore.StoreIndexesLog | execution/sip_store.py:152-181 | each row is the first-arrived latest quote of its second, every quote's second has a row, keys do not repeat |
| SipStore.LatestQuoteRefinesLog | execution/sip_store.py:215-238 | the latest quote is the first-arrived quote with the greatest time of the whole log, in any append order |
| SipStore.StoreKeepsFirst | execution/sip_store.py:130-202 | bars and trades are kept exactly on first arrival of their key |
| SipStore.RowKeyIsSecond | execution/sip_store.py:152-181 | a quote's row is keyed by the symbol and the first nineteen characters of its time |
| SipStore.SameKeyIff | execution/sip_store.py:130-202 | which bars and which trades are the same |
| SipStore.RangeIsChronological | execution/sip_store.py:240-368 | a range query fails exactly on an empty range, and otherwise returns each first arrival in the range once, in order of time, bars at strictly rising times and trades of one time by ID |
| SipStore.SipEventStore.Append | execution/sip_store.py:107-202 | the in-place append reaches the specified tables |
| SipStore.SipEventStore.AppendMany | execution/sip_store.py:114-123 | a batch is the appends one after another |
| SipStore.SipEventStore.Latest | execution/sip_store.py:215-238 | the query returns the specified quote |
| SseStream.DecodeUndoesEncode | execution/alpaca_sip_stream.py:220-246 | a payload decodes to its sequence and event |
| SseStream.DispatchIff | execution/alpaca_sip_stream.py:220-273 | an event is delivered exactly when its data decodes and its ID, if it has one, is the payload's sequence; other market-data events fail and events of other names pass unseen |
| SseStream.JoinedAppends | execution/alpaca_sip_stream.py:249-273 | data lines are joined by line feeds |
| SseStream.ParseUndoesPrint | execution/alpaca_sip_stream.py:359-395 | reading what a server prints yields exactly its events past the cursor, whatever comments and retry lines stand between |
| SseStream.CutDeliversPrefix | execution/alpaca_sip_stream.py:331-397 | cut after any line and ended either way, a connection delivers the events of the first n items and no failure |
| SseStream.CutInsideLine | execution/alpaca_sip_stream.py:331-397 | ended in order inside a line, it delivers the events of the first n items and fails exactly when the part of the line shows a data field |
| SseStream.ReadLines | execution/alpaca_sip_stream.py:359-395 | the loop over lines computes the specified reading |
| SseResume.YieldsContiguousRun | execution/alpaca_sip_stream.py:510-535 | across breaks, reconnections and the polling fallback the yielded events are exactly the log between start and current cursor |
| SseResume.PageFailsIff | execution/alpaca_sip_stream.py:302-329 | a polled answer fails exactly when it is no page or one of its events is not past the cursor or past the page's next one; otherwise it is yielded whole |
| SseResume.CursorMovesBackIff | execution/alpaca_sip_stream.py:302-535 | whatever a server sends, the cursor moves back exactly on an empty page whose next cursor lies before it |
| SseResume.AbandonedPageLeavesGap | execution/alpaca_sip_stream.py:515-523 | after a page is left early, following goes on without a gap exactly when the whole page had been taken |
| SseResume.PlatformStream.Events | execution/alpaca_sip_stream.py:510-535 | the loop over responses reaches the specified cursor and events |
| IntradayPolicy.RisesIff | kernel/intraday_policy.py:167-593 | in the snapshot's terms, the target exceeds the position exactly on a due probe, a due upgrade, or a tail due for reduction whose position is below half of it |
| IntradayPolicy.ExitsIff | kernel/intraday_policy.py:167-545 | exactly when a position is closed: noon, bad news, a lost agent or data, a tail that ends, a probe that lapses |
| IntradayPolicy.ProbesIff | kernel/intraday_policy.py:328-560 | exactly when a probe is opened |
| IntradayPolicy.UpgradesIff | kernel/intraday_policy.py:396-426 | exactly when a quarter is upgraded |
| IntradayPolicy.ReducesIff | kernel/intraday_policy.py:167-285 | exactly when a tail is reduced |
| IntradayPolicy.TrimsIff | kernel/intraday_policy.py:167-327 | exactly when a position is trimmed, by its size and scores, and to which fraction |
| IntradayPolicy.TailIs | kernel/intraday_policy.py:562-593 | which part is kept as the tail, by the scores |
| IntradayPolicy.RiskIs | kernel/intraday_policy.py:167-593 | exactly which decisions admit account risk, and how much |
| IntradayPolicy.EvidenceIff | execution/autonomous_paper_session.py:1410-1455 | exactly when the session adds tail evidence, and when that raises |
| IntradayPolicy.EvidenceGathers | execution/autonomous_paper_session.py:1424-1455 | what the evidence holds: the gain in units of risk, the advanced runtime and the signs |
| IntradayPolicy.ProfitRisesIff | kernel/intraday_policy.py:258-285 | a held position whose profit is recorded is raised exactly by reducing a tail it is already below half of |
| IntradayPolicy.SessionRisesIff | execution/autonomous_paper_session.py:1355-1455 | with the session's own tail evidence the target rises exactly on a due probe or upgrade, so never once profit is recorded |
| IntradayPolicy.SuppliedTailCanRaise | kernel/intraday_policy.py:258-285 | tail evidence from elsewhere can raise a position |
| IntradayPolicy.FractionLadder | kernel/intraday_policy.py:167-593 | over a whole run with the session's evidence, profit and tail phases included, the fraction rises only from nothing to a quarter and from a quarter to a half, the latter only while no profit is marked |
| IntradayPolicy.MarkedOnlyShrinks | execution/autonomous_paper_session.py:1355-1455 | from the profit mark on the fraction never grows until the position is closed |
| IntradayPolicy.SecondsAreWitnessed | execution/autonomous_paper_session.py:792-854 | the counted seconds are the time since the current unbroken run below 45 began, less under a second for each of its observations |
| IntradayPolicy.FlowBreakMeansFiveMinutes | execution/autonomous_paper_session.py:792-854 | a flow break means five minutes below 45 without a gap |
| IntradayPolicy.ExcursionIsMaximum | execution/autonomous_paper_session.py:792-854 | the stored excursion is the largest observed |
| PremarketEntry.LimitWithinCap | execution/premarket_entry.py:243-251 | a limit never exceeds the chase cap and reaches the ask exactly when a whole cent does |
| PremarketEntry.EvaluateKeeps | execution/premarket_entry.py:128-240 | attempts stay within the reprices, completion is final, and submissions come before the lifetime ends and after the reprice delay |
| PremarketEntry.EndsAndRepricesIff | execution/premarket_entry.py:128-240 | exactly when an entry ends or is repriced; a partial fill is kept |
| PremarketEntry.SubmitsIff | execution/premarket_entry.py:128-240 | exactly when an order is submitted |
| Allocation.TargetWithinBudgets | execution/autonomous_paper_session.py:2321-2340 | a target quantity respects the risk and the notional budget |
| Allocation.FullIsLargest | execution/autonomous_paper_session.py:2321-2340 | the full quantity is the largest within both budgets |
| Allocation.ComponentsAreExact | execution/autonomous_paper_session.py:1754-1806 | both components are nonnegative and sum to the target less the prior stage |
| Allocation.TwoStagesReachSplit | execution/autonomous_paper_session.py:1773-1806 | probe and upgrade together reach the split of the half position between tail and main |
| Allocation.CheckFailsIff | execution/autonomous_paper_session.py:1851-1852 | the closing check fails exactly when the held shares are not the prior stage's |
| PaperSessionSafety.TickOk | execution/autonomous_paper_session.py:1043-1353 | the writes of a tick come in an order in which every order has its command row before it and every buy is the policy's quarter or half, or a premarket attempt, and finds no lock |
| PaperSessionGuards.UnguardedBuyIff | execution/autonomous_paper_session.py:1043-1353 | a tick buys while an entry check fails exactly when broker writes are enabled, nothing is locked, the guardian is clear, the day is above its hard loss, no exit, entry, trim or reduction due on the completed snapshot ends the tick, and a running premarket entry in its hours has its next order due |
| PaperSessionGuards.ContinueBuysIff | execution/autonomous_paper_session.py:1291-1312 | carrying on buys exactly when a readable running entry's next order is due, its command is open, no cancellation before it conflicts, and writes are enabled |
| PaperSessionGuards.LocksBuyNothing | execution/autonomous_paper_session.py:1051-1118 | under a lock, a guardian that is not clear or a hard loss a tick buys nothing |
| PaperSessionRuns.UnguardedBuyHappens | execution/autonomous_paper_session.py:1291-1312 | a concrete tick buys with a stale quote, a soft loss and no authorisation |
| PaperSessionSafety.RunKeeps | execution/autonomous_paper_session.py:1043-1353 | over any run, cut anywhere, orders have their command rows, completed commands their orders, and premarket rows stay sound |
| PaperSessionSafety.AtMostSevenBuys | execution/autonomous_paper_session.py:1731-2025 | over any run a plan has at most four regular buy orders, because the policy only buys a quarter or a half, and three premarket ones at the broker, premarket limits within the cap |
| PaperSessionSafety.LockedForever | execution/autonomous_paper_session.py:1051-1118 | once a date is locked no later tick buys and the lock stays |
| PaperSessionTiming.HardLossLocksIff | execution/autonomous_paper_session.py:1074-1106 | a hard loss locks the date exactly when the session may write, the position can be read, no cancellation meets another symbol's row, and no crash falls before the last write |
| PaperSessionTiming.UnsoundNeverLocks | execution/autonomous_paper_session.py:2125-2135 | while the position cannot be read no number of hard-loss ticks locks the date |
| PaperSessionRuns.HardLossBuysLaterIff | execution/autonomous_paper_session.py:1074-1106 | after a hard-loss tick, cut anywhere or not, a later tick with a due probe buys exactly unless the session could write, the position could be read, no cancellation met another symbol's row, and no crash fell before the lock |
| PaperSessionRuns.CutHardLossHappens | execution/autonomous_paper_session.py:1074-1106 | a concrete run from an empty ledger in which it does |
| PaperSessionTiming.BuysWithinLifetime | execution/autonomous_paper_session.py:1905-2025 | over any run that leaves no first order without its saved start, every premarket buy is decided within ten seconds of the first order |
| PaperSessionTiming.GapIsBetweenOrderAndSave | execution/autonomous_paper_session.py:1966-2008 | a tick leaves a first order without its saved start exactly when it is cut after the order and before the save |
| PaperSessionLate.LateBuyIff | execution/autonomous_paper_session.py:1905-2025 | two later ticks that carry the entry on buy a premarket order outside the first one's lifetime exactly when the ledger does not know its start, has not completed the entry and is not locked |
| PaperSessionRuns.LateBuyAfterCut | execution/autonomous_paper_session.py:1966-2008 | for any restart time, a run whose cut falls there buys a second premarket order that long after the first |
| PaperSessionGuards.ProfitEndsRegularEntries | execution/autonomous_paper_session.py:1355-1408 | with profit recorded a held plan makes no regular entry |
| PaperSessionGuards.EntryBuysExactly | execution/autonomous_paper_session.py:1771-1853 | a regular entry's two components buy exactly the step from the prior stage to the target |
| PaperSessionOrders.NewOrdersFit | execution/autonomous_paper_session.py:1043-1353 | every order a tick adds, wherever it is cut, says what its ID asks for: the whole position at the market or the highest whole cent a quarter percent below the bid, the shares above a target, the protected shares at the hard stop, or a buy of a checked entry in its hours |
| PaperSessionOrders.EveryOrderFits | execution/autonomous_paper_session.py:1043-1353 | over any run each order was submitted by one of its ticks and says what its ID asked for there |
| PaperSessionDue.HardLossSellsIff | execution/autonomous_paper_session.py:1526-1588 | at a hard loss the whole position is sold exactly when the session may write, the position is there and readable, and no cancellation meets another symbol's row |
| PaperSessionDue.HardLossCancelsIff | execution/autonomous_paper_session.py:1526-1549 | it cancels exactly the open orders, of every symbol, not cancelled before, all before the sale |
| PaperSessionDue.ExitSellsIff | execution/autonomous_paper_session.py:1592-1655 | a due exit sells the whole position under the same conditions on the plan's own orders |
| PaperSessionDue.ExitCancelsIff | execution/autonomous_paper_session.py:1592-1620 | and cancels exactly the plan's own open orders not cancelled before |
| PaperSessionDue.ReductionLeavesTargetIff | execution/autonomous_paper_session.py:1657-1729 | a trim or tail reduction sells exactly the shares above its target, and exactly when there are some, the session may write, a stop that is needed stands and no row conflicts |
| PaperSessionDue.ProtectsIff | execution/autonomous_paper_session.py:1457-1517 | exactly when the protective stop of a premarket position is placed, and for which shares |
| PaperSessionDue.RegularEntryBuysIff | execution/autonomous_paper_session.py:1731-1853 | in regular hours an entry that passed its checks buys exactly its stage's shares, and exactly when fewer than its target are held, the stage has shares and a needed stop stands |
| PaperSessionDue.FirstPremarketOrderIff | execution/autonomous_paper_session.py:1731-2025 | in premarket hours a due probe that passed its checks submits its first order exactly when fewer than a quarter of the full size are held: for the rest, at the ask or the chase cap |
| PaperSessionEntry.EntryCancelsIff | execution/autonomous_paper_session.py:1905-2025 | a running premarket entry cancels its order exactly when it is not full and the data is unhealthy, its ten seconds are over, or a reprice is due; and that before anything is submitted |
| PaperSessionEntry.EntryEndsIff | execution/autonomous_paper_session.py:1905-2025 | it is over, with no active order, exactly when it is full, the data is unhealthy, or its ten seconds are over; otherwise its active order is the new one or the one before |
| PaperSessionMarks.ProfitIsMarkedIff | execution/autonomous_paper_session.py:1355-1408 | a tick records the profit exactly when it looks at a held plan without recorded profit, whose main component is bought and filled, and of which no more is left than the tail |
| PaperSessionMarks.TailIsSaved | execution/autonomous_paper_session.py:1355-1455 | exactly when a tick stores the tail's runtime, and which |
| PaperSessionMarks.GuardianLocksIff | execution/autonomous_paper_session.py:1051-1073 | a guardian that trips locks the session, and nothing else does |
| PaperSessionObject.PaperSessionLedger.EnsureCommand | execution/autonomous_paper_session.py:584-630 | a command row is created once and read back with its completion; another date, kind or symbol is a conflict |
| PaperSessionObject.PaperSessionLedger.EnsurePremarket | execution/autonomous_paper_session.py:654-685 | a premarket row is created once and another plan's is a conflict |
| PaperSessionObject.PaperSessionLedger.AdvanceTail | execution/autonomous_paper_session.py:792-854 | the in-place tail row follows the specified runtime and refuses time moving back |
| PaperSessionObject.Orchestrator.RunPremarketEntry | execution/autonomous_paper_session.py:1905-2025 | the in-place premarket step makes exactly the specified writes |
| PaperSessionObject.Orchestrator.SubmitRegular | execution/autonomous_paper_session.py:1814-1853 | tail then main component, each submitted once |
| PaperSessionObject.Orchestrator.CancelOrders | execution/autonomous_paper_session.py:1526-1560 | the loop over open orders makes the specified cancellations, up to the first that raises |
| PaperSessionObject.Orchestrator.FlattenAndLock | execution/autonomous_paper_session.py:1074-1106 | the in-place flattening makes the specified cancellations, sale and lock, in that order, up to the first that raises; what is cancelled and sold is `PaperSessionDue` |
| PaperSessionObject.Orchestrator.RunTick | execution/autonomous_paper_session.py:1043-1353 | the in-place tick makes exactly the specified writes up to the first call that raises, and keeps the invariant |

## Left out

- Desk: `last_error`, refresh times and receipt fields in replies, sanitising of error codes; confirmation strings and intent hashes are datatypes, warning hashes injective; the abort by a duplicate `order_ref` is not modelled; positions and orders with unreadable quantities are skipped as the code skips them; typed fields arrive trimmed and in upper case.
- Desk rows stand in creation order, which stands for `created_at`.
- `ExecutionDeskRecovery.NothingSentWithoutNews`: for commands that interleave whole; a desk already past its check may still send, and `ExecutionDeskUncertainty.SentWhileUncertain` bounds how often.
- `ExecutionDeskSafety.RunKeeps`: at most one uncertain row is claimed for one desk on its ledger; two desks sharing a ledger can each leave one.
- Paper broker: cancelling, listing and account calls, child prices; request hashes are injective.
- `SyntheticStopController.OrdersNeverExceedBuffers`: bounds distinct orders, not shares sold, because the result of a cancellation is ignored before a replacement.
- Synthetic stop snapshot fields the engine does not read (quote age, ask, provenance).
- Recording of trade plans and timestamps of ledger rows; UTC validation everywhere.
- Event ledger: hashes of bodies and clusters; hashes are injective, so an event is its source and source ID.
- Adaptive plan: plan and symbol identity checks, reason texts, and the order-flow confirmation score, which the evaluation never reads.
- Floats and decimals are reals with explicit floors; overflow, NaN and binary rounding are not modelled. The square root in the price and open-interest score is a parameter constrained to be that root.
- Sentiment: grouping of bindings by target, sorted targets, provenance and the construction checks; one target's aggregation is modelled.
- Resampling: the column checks; rows of equal timestamp keep their order, which the frame library does not promise. The other indicators (EMA, MACD, KDJ, fractals, Bollinger) are left out.
- Opening range: column, timezone, symbol and NaN checks; high and low are never missing.
- SIP store: symbol trimming and upper-casing, `received_at_utc`, counts, and the quote range query, which uses the same comparison as the modelled ones; trades of one time and ID on two tapes keep their order of arrival, which the query leaves open.
- Stream: HTTP status and content-type errors, health and subscription calls; other spellings of an integer ID than plain digits; negative cursors.
- `SseStream.DecodeUndoesEncode`: a payload is a braced text with a decimal sequence; what matters of JSON here is that no proper prefix of a payload is one.
- Paper session: `fail_closed`, the guardian's own orders and the extended-hours stop's (both have their own ledgers), the audit chain and evaluation summaries; the guardian is a status with a persisted lock; positions, fills and order status are inputs of a tick, with one position per symbol; one plan per world, sharing its date's locks; hashes in client IDs are injective.
- `PaperSessionTiming.BuysWithinLifetime`: over whole runs the saved start is sufficient, not necessary: a run whose gap is followed by a lock or an abandoned entry buys nothing late either; what decides it is `PaperSessionLate.LateBuyIff`.
- Agent gateway, command line, provider downloads, snapshots, headline parsing and settings.

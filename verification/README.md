# Order safety, book replica, sampler and quote geometry of a market maker

A Dafny model of a two-sided, two-level market-making bot. The centre is the
order-safety protocol: the order manager's four slots and its fill gate, the
order socket's unanswered requests, account-wide reconciliation, and the
position poller, interleaved with an exchange that fills orders whenever it
likes. Around it stand four cores: the local Binance book replica, the
best-first selection of book levels, the grid sampler with its rolling
statistics, and the quote prices.

`dafny verify dfyconfig.toml` checks everything.

## How it is built

| files | subject |
|---|---|
| `Orders`, `ManagerModel`, `ManagerInvariants`, `HandlerProofs`, `Reservation` | each order-manager operation as a function on values, what each keeps, and the reservation loop |
| `HandlerEffects`, `HandlerLaws`, `QuoteLaws` | what each handler and account operation makes of the slots, gate, counters and pauses, exactly, and how a quote answers for each slot |
| `OrderManager`, `ExecutionState`, `SharedPosition`, `OrderWsClient`, `Application` | the objects as classes updated in place; every method's new state is proved equal to its function |
| `OrderSocket`, `Correspondence` | the order socket's request map, how a response is interpreted, and when that is what the exchange meant |
| `EventLoop`, `SlotHistory` | what the event loop makes of each socket event, and how every operation moves an order through its slot |
| `Exchange`, `Protocol`, `ProtocolInvariants`, `ProtocolEnvironment`, `ProtocolWorkers`, `ProtocolMain`, `ProtocolQuoting`, `ProtocolSlots`, `ProtocolMail` | the exchange, the six actors' atomic steps, and the invariant every step keeps: orders, cleanup, position, slots, and the events on their way |
| `ProtocolTheorems`, `ProtocolExposure`, `ProtocolHistory` | the results about every run |
| `ProtocolMisread`, `ProtocolExample`, `ProtocolRecovery` | the responses that break them, a concrete run that sends an order, one that loses it from the slots, and one that cleans up and trades again |
| `ClientIds` | the text form of client order ids |
| `Snapshots`, `TopOfBook`, `Replica` | validation, level selection, top-of-book copy and the replica |
| `Rolling`, `Resampling`, `Strategy`, `Quotes` | ring buffer and sums, the declarative time grid, the sampler, the quote |

A run (`Protocol.Run`) starts after the verified startup cleanup and takes any
sequence of atomic steps of the event loop, the executor, the reconciliation
worker, the socket reader, the poller and the exchange. The socket reader turns
each response into an event with the code's own routing and posts it to a
channel; the event loop serves that channel in order. The event loop is one
thread of control, so each handler is one step; quoting is two, because the position it reads
may be overtaken by fills before its decisions are out. The three loads inside
`permits` and the three stores inside a pause change are modelled separately in
`ExecutionState`, where a successful check is shown to take effect at one
instant; the protocol then uses it as one step.

## What is assumed about the environment

Assumptions are only about what the exchange does and sends, never about the
events the bot makes of it.

- Responses tell the truth: an order said to be accepted or rejected is, one said
  to be canceled was accepted and is closed, a reported fill happened and a last
  one closes its order (`Correspondence.TrueOf`).
- Their form: a method, if present, is the right one; an echoed request id is that
  of the request answered; code 0 means success; ids in the data are the order's
  own, and with a code they come only in answers to a submission or a cancel; fill
  reports carry a fill method (`Correspondence.Phrases`). A submission's and a
  cancel's answer may look alike.
- On one connection an order's fills are reported before its cancellation
  (`Protocol.FillsReported`). Fills of an earlier connection may stay unreported.
  Freeing a slot on a cancel does not arm the fill gate, so the exposure bound
  depends on this.
- REST answers are linearizable: each is the truth at one instant between
  request and reply. A failed or timed-out write may still reach the exchange.
- Pause state is written by the event loop alone; every other actor only reads it.
- An exchange never fills an order beyond its quantity, never accepts an order
  that was not written, and gives each a nonzero number of its own.
- Nobody else trades the account. The pollers start before the startup cleanup
  (`src/main.rs:1358` and `1385`), so a reading may be in flight or published when
  a run begins; no order of an earlier session trades after the first such reading.

## Where code and documents differ

`DOCS/binance_orderbook_websocket.md:139-145` says the first event after a
snapshot must satisfy `U <= lastUpdateId <= u`. The code uses that rule for
futures only; for spot it asks for `U <= lastUpdateId + 1 <= u`
(`src/binance/orderbook.rs:120-148`). The model follows the code. It also shows
that the futures rule refuses a gapless stream whenever the snapshot's id falls
between two events (`Replica.GaplessStreamIsCleanIff`).

A response with neither method nor a known request id is taken for a cancel's
answer exactly while that cancel is awaited (`OrderSocket.MethodlessIsCancelIff`).
So an acceptance that comes after the order's cancel was issued is read as its
cancellation, and a failed cancel no longer awaited as its rejection; either frees
the slot of a live order (`src/trading/order_ws.rs:1066-1104`,
`src/main.rs:1731-1737` and `1817-1835`). The inputs are
`OrderSocket.EarlyCancelMakesAcceptanceReadAsCancel` and
`OrderSocket.LateCancelFailureReadsAsRejection`, what follows is
`ProtocolMisread.AcceptanceFreesLiveOrder`, `FailedCancelFreesLiveOrder` and
`FailedCancelForgetsSubmission`, and `ProtocolExample.SomeRunLosesAnOrder` is a run
from the start. `Correspondence.TrueWhateverMeantIff` says which responses can be
trusted, from the fields and the awaited ids alone: exactly the legible ones, which
echo a pending request id, or name their method, or lack a code or data, or lead to
no such verdict. `Correspondence.ReadsRightIff` says that of the others exactly the
misread ones are reported wrongly. The results that need responses read rightly
hold up to the first misread one (`Protocol.WellReadRun`); the rest hold in every run.
For the same reason a rejection that comes while the order's cancel is awaited is
reported as a failed cancel (`Correspondence.SubmissionIsReported`).

The comment above `check_timeouts` says an overdue order's slot is cleared at once
(`src/trading/order_manager.rs:611-615`). The code leaves the slot, asks for a cancel
and pauses for reconciliation (`HandlerEffects.TimeoutsNameExactlyTheOverdue`).

## Model

| member | source | states |
|---|---|---|
| ProtocolExposure.ExposureBoundedAtSend | src/trading/order_manager.rs:427-476 | As long as no response was misread, whenever a quote sends an order on a side, the exchange's own position times mid plus everything open, on the wire or still permitted on that side at max(price, mid) is within the account limit and, measured from the start position of the run when so configured, within the optional cap; without a start position nothing is sent then |
| ProtocolExposure.ExposureStaysBounded | src/trading/order_manager.rs:427-476 | And from there until the next quote, whatever fills, cancels, writes, losses and responses come, rightly read or not, against the same start position |
| ProtocolExposure.BaselineIsStart | src/main.rs:570-574 | In every run and state the baseline is the position published at the first risk check that found fresh sources and an open gate, and none before |
| ProtocolExposure.StartIsFirst | src/main.rs:570-574 | That start position is the one published at a check no earlier check precedes |
| ProtocolExposure.BaselineIsFixed | src/trading/order_manager.rs:1218-1222 | Once set, the baseline never changes for the rest of the run |
| ProtocolExposure.OnlyValidQuotesSend | src/trading/order_manager.rs:408-425 | In every run an order is issued only by a quote that is valid for trading, with positive mid and quantity, while nothing is paused or stopped |
| ProtocolExposure.ExposureFalls | src/trading/order_manager.rs:446-456 | No step of any actor but a quote increases a side's true exposure |
| ProtocolExposure.OutstandingShrinks | src/main.rs:1003-1016 | Only a quote adds to what is open, on the wire or still permitted to be written |
| ProtocolTheorems.PublishedPositionIsCurrent | src/trading/order_manager.rs:1226-1246 | As long as no response was misread, whenever trading is permitted the published position is one the exchange held and includes every delivered fill and every fill no slot reserves for: two publications suffice |
| ProtocolTheorems.OnePublicationIsNotEnough | src/trading/order_manager.rs:1226-1246 | From any state with a read in flight that misses a delivered fill, one publication and a risk check resume trading on that position exactly when the gate was armed less than two publications ahead |
| ProtocolTheorems.VerifiedCleanupIsSound | src/trading/order_ws.rs:715-744 | As long as no response was misread, whenever the cleanup's verdict is "verified", no new-order write is in flight and no order is open, until the event loop has finished the reconciliation |
| ProtocolTheorems.NothingWrittenBeforeFinish | src/main.rs:128-141 | As long as no response was misread, between the verified pass and the finish the executor writes nothing, whatever is queued |
| ProtocolTheorems.NoUntrackedOrder | src/main.rs:1003-1016 | As long as no response was misread, each open, in-flight or still permitted order occupies a local slot, so at most two per configured level are outstanding |
| ProtocolTheorems.SlotIdentity | src/trading/order_manager.rs:683-761 | In every run, however responses are read, slots hold distinct client numbers and distinct nonzero exchange ids on their own side and level, and acceptances never outnumber orders sent |
| ProtocolHistory.SlotStory | src/trading/order_manager.rs:683-761 | In every run, an order found in slots at two moments is in the same slot, an exchange id bound at the first is still bound at the second, and an order no longer pending is never pending again |
| ProtocolHistory.SlotsContinue | src/trading/order_manager.rs:683-761 | An order found in a slot was there at every earlier moment since it was issued |
| ProtocolHistory.ReleasedStaysOut | src/trading/order_manager.rs:1103-1137 | An issued order that has left its slot is never tracked again |
| ProtocolSlots.OnlyQuotesReserve | src/trading/order_manager.rs:446-476 | No step of any actor but a quote increases what a side's slots reserve at max(price, mid) |
| ProtocolSlots.StepEvolves | src/trading/order_manager.rs:683-1162 | Each step of every actor only empties a slot or keeps its order, binds at most the id the event or REST named, and brings new orders only when quoting |
| ProtocolTheorems.AlwaysInv | src/main.rs:1640-1678 | The system invariant holds in every state of a run up to its first misread response |
| ProtocolTheorems.CoreAlways | src/main.rs:1640-1678 | Numbers, tags, locks and the one-reconciliation discipline hold in every state of every run |
| ProtocolTheorems.StepKeeps | src/main.rs:1640-1678 | Every step of every actor keeps the system invariant unless it misreads a response |
| ProtocolExposure.SlotsCoverTruth | src/trading/order_manager.rs:446-456 | The slots after a quote, over the position it read, cover the exchange's true exposure however many fills came after the read |
| ProtocolHistory.RetirementIsExact | src/trading/order_manager.rs:1254-1263 | After an account finish a client id is retired exactly when it was issued before that finish, in every later state |
| ProtocolHistory.SendDiesWithPause | src/main.rs:1007 | A send still queued, or in the executor's hand before its second check, while any pause is up is never written, however pauses clear and trading resumes |
| ProtocolHistory.DeadForever | src/trading/order_ws.rs:605-645 | An unwritten order whose queued copies carry stale tags stays unwritten for the rest of the run |
| ProtocolExample.SomeRunSends | src/main.rs:547-594 | Some run leads from the initial state through connecting, polling and resumption to a quote that sends a buy order |
| ProtocolExample.SomeRunLosesAnOrder | src/trading/order_ws.rs:1066-1104 | Some run, rightly read up to its last response, sends an order, times it out, cancels it, and on its late acceptance frees the slot while it is open |
| ProtocolRecovery.SomeRunRecovers | src/main.rs:606-642 | Some run sends an order, times it out, cleans the account up, publishes the position twice more and permits trading again, with everything closed and every accepted order retired |
| ProtocolRecovery.SettlesByQuery | src/trading/order_ws.rs:715-744 | In another the order closes before it is listed, and asking for it by id settles its submission |
| ProtocolMisread.AcceptanceFreesLiveOrder | src/trading/order_ws.rs:1066-1083 | In any state with an open tracked order whose cancel is awaited, its acceptance without method or request id may come, and serving it leaves the order open and untracked |
| ProtocolMisread.FailedCancelFreesLiveOrder | src/trading/order_ws.rs:1085-1091 | Likewise the failure of a cancel that is not awaited |
| ProtocolMisread.FailedCancelForgetsSubmission | src/trading/order_ws.rs:917-929 | And for an order still in flight it removes the submission the cleanup would wait for |
| ProtocolMisread.StraysIff | src/main.rs:1692-1835 | Serving any event, true or not, leaves every open and in-flight order tracked exactly when the event takes none of them out of the slots |
| ProtocolMisread.LegibleIsWellRead | src/trading/order_ws.rs:1000-1114 | A run whose responses are all legible misreads none |
| Correspondence.ReadsRightIff | src/trading/order_ws.rs:884-1114 | Whatever the exchange sends, the event reports what was meant exactly when the response is not misread, and a misread one is reported as a cancellation or a rejection |
| Correspondence.SubmissionIsReported | src/trading/order_ws.rs:1000-1189 | Exactly the event every well-formed answer to a submission becomes: an acceptance or rejection of that order whenever the answer names it, a cancel verdict exactly while its cancel is awaited and neither method nor request id say otherwise |
| Correspondence.CancelIsReported | src/trading/order_ws.rs:1000-1262 | Exactly the event every well-formed answer to a cancel becomes |
| Correspondence.FillIsReported | src/trading/order_ws.rs:994-1021 | A fill report becomes a fill of its order, complete when the method says so and no status does |
| Correspondence.TrueWhateverMeantIff | src/trading/order_ws.rs:1000-1114 | The event is true whatever the exchange meant exactly when the response is legible, a condition on its fields, the pending request ids and the awaited cancels |
| ProtocolMail.StepKeepsMail | src/trading/order_ws.rs:884-1114 | Every step keeps the posted events true, the bound exchange ids right, and each fill ahead of its order's cancellation or behind a loss that began a reconciliation |
| ProtocolMail.CancellationIsInTime | src/trading/order_ws.rs:319-336 | When a cancellation is posted every fill of its order has reached the manager or precedes it in the channel, or a lost connection does |
| ProtocolMail.BindsRight | src/main.rs:1701-1724 | A step binds to an order only the number the exchange gave it |
| EventLoop.HandleKeeps | src/main.rs:1690-1925 | Every socket event keeps the manager sound, takes exactly the orders it names out of the slots, arms the gate on any fill, and loosens no pause but the transport's on authentication |
| Application.App.HandleOrderEvent | src/main.rs:1690-1925 | The event served in place: manager, reconciliation request and generation afterwards |
| SlotHistory.HandleEvolves | src/main.rs:1690-1925 | An event moves slots only forward and binds at most the id of an acceptance |
| ProtocolMain.HandlerKeeps | src/trading/order_manager.rs:683-982 | Any handler that only tightens the pause state and releases only orders it may release keeps the base invariant |
| ProtocolMain.EventMay | src/main.rs:1690-1925 | A true event asks of the manager only what a handler may do: what it releases is done at the exchange and its fills are accounted for |
| ProtocolMain.FinishStepKeeps | src/main.rs:635-642 | Emptying all slots at the finish loses no order: the finish keeps the base invariant |
| ProtocolMain.RiskCheckKeeps | src/main.rs:547-594 | The one-second risk check opens the fill gate only when every fill is covered, and keeps the base invariant |
| ProtocolQuoting.EndQuoteKeeps | src/main.rs:995-1020 | Quoting and dispatching, with any subset of decisions refused by a full queue, keeps the base invariant |
| ProtocolQuoting.DispatchKeeps | src/main.rs:1003-1016 | Dispatch takes out of the slots exactly the sends the queue refused |
| ProtocolQuoting.RefusalsRollBack | src/main.rs:1003-1016 | After a dispatch the slot of a refused send is empty, that of a refused cancel live, and every other as it was |
| ProtocolQuoting.QueuesTheRest | src/main.rs:1003-1016 | The queue gets exactly the other decisions, each tagged with the generation of the moment |
| ProtocolWorkers.ExecKeepsCleanup | src/trading/order_ws.rs:605-654 | Each executor step keeps "every new order on the wire is an unresolved request" and the lock discipline |
| ProtocolWorkers.WorkerKeepsCleanup | src/trading/order_ws.rs:715-744 | Each pass of the cleanup, with failures anywhere, keeps what the worker knows true of the exchange |
| ProtocolWorkers.SettledMeansNothingOnWire | src/trading/order_ws.rs:742-744 | No unresolved submission under the lock means nothing on the wire |
| ProtocolEnvironment.SocketKeepsCleanup | src/trading/order_ws.rs:884-929 | Responses in any order that are not misread, and lost connections, keep in-flight orders among the unresolved requests |
| ProtocolEnvironment.PollKeeps | src/trading/position.rs:168-231 | Reading, storing, counting or failing keeps the published position truthful and every fill covered |
| ProtocolEnvironment.ExchangeKeepsPosition | src/trading/order_manager.rs:933-982 | A fill at any moment keeps every uncovered fill reserved for in a slot |
| Exchange.EstimateCoversTruth | src/trading/order_manager.rs:446-456 | A position read some fills ago plus one side's slots in full at max(price, mid) is at least the true exposure now |
| Exchange.DriftIsUnseen | src/trading/order_manager.rs:427-445 | The position drifts by no more than the unseen fills of the side's two slots |
| Exchange.SlotCovers | src/trading/order_manager.rs:451-456 | One slot's reservation covers its order's unseen fills and its remainder together |
| Exchange.LiveMarksInSlots | src/trading/order_manager.rs:451-456 | What live orders of a side can still add is bounded by that side's two slots |
| Exchange.SaneStep | src/trading/order_ws.rs:605-654 | Receiving, accepting, rejecting, trading, closing and losing keep the exchange's own bookkeeping consistent |
| Reservation.QuoteReserves | src/trading/order_manager.rs:427-478 | After any quote each side that sent something has position times mid plus all its slots within the limit and the cap; ids are fresh and consecutive in the current generation; every sent quantity is a lot multiple within the minimums and per-order cap; no tracked order is dropped, and the pause state changes only to add risk data, with nothing sent |
| Reservation.QuotesSide | src/trading/order_manager.rs:446-476 | One side's level loop: reserved exposure is unchanged without a send and within the headroom with one |
| Reservation.QuotesLevel | src/trading/order_manager.rs:446-476 | One level sends within the headroom left by the other slots, or cancels, or does nothing |
| Reservation.QuoteQtyFits | src/trading/order_manager.rs:457-463 | The quantity is never above the wish or the budget, and if nonzero is a positive lot multiple within minimums and cap |
| Reservation.SweepsExposure | src/trading/order_manager.rs:480-493 | On an unusable limit nothing is sent and every tracked order keeps its slot |
| ManagerInvariants.ClientHitIsTheOnlyOne | src/trading/order_manager.rs:1018-1034 | The slot found for a client id is the only slot holding it |
| ManagerInvariants.ExchangeHitIsTheOnlyOne | src/trading/order_manager.rs:1121-1137 | The slot found for an exchange id is the only one bound to it, and that id is not zero |
| ManagerInvariants.ReplaceSlot | src/trading/order_manager.rs:634-681 | Writing one slot with fitting content that differs from the other three keeps all slots sound |
| HandlerProofs.AcceptedKeeps | src/trading/order_manager.rs:683-762 | Acceptance binds at most one id to one slot, counts a pending order once, releases nothing, and changes nothing when it reports failure |
| HandlerProofs.BoundIdsStay | src/trading/order_manager.rs:690-735 | A bound exchange id is never replaced while its order holds the slot; a conflicting acceptance is refused |
| HandlerProofs.RejectedKeeps | src/trading/order_manager.rs:764-793 | A rejection releases exactly the named order and only tightens the pause state |
| HandlerProofs.CanceledKeeps | src/trading/order_manager.rs:872-931 | A cancel releases exactly the order its key finds and reports whether there was one |
| HandlerProofs.FillKeeps | src/trading/order_manager.rs:933-982 | A full fill releases its order, a partial one keeps it, and either arms the gate two publications ahead; an unknown fill changes nothing |
| HandlerProofs.CancelFailedKeeps | src/trading/order_manager.rs:984-1016 | A failed cancel keeps every tracked order and only tightens the pause state |
| HandlerProofs.DispatchFailedKeeps | src/trading/order_manager.rs:1139-1162 | A refused send releases exactly its order; a refused cancel keeps every order |
| HandlerProofs.TimeoutsKeep | src/trading/order_manager.rs:616-632 | Timeouts release nothing, send nothing new, and ask for cancels only together with a reconciliation pause |
| HandlerProofs.ClearedIdIsGone | src/trading/order_manager.rs:1103-1119 | After clearing by client id no slot carries that id |
| HandlerProofs.BeginKeeps | src/main.rs:606-633 | Beginning pauses, arms the gate and requests cleanup once, or does nothing while one is pending |
| HandlerProofs.FinishKeeps | src/main.rs:635-642 | Finishing retires every earlier generation, empties the slots and leaves risk data paused behind an armed gate |
| HandlerProofs.RiskTickKeeps | src/main.rs:547-594 | The risk check opens the gate only once enough publications came and never clears a reconciliation pause |
| HandlerEffects.SweepCancelsEverything | src/trading/order_manager.rs:480-493 | After it every occupied slot is canceling, with a cancel issued for each that was not; empty slots stay empty |
| HandlerEffects.OverLimitOnlyCancels | src/trading/order_manager.rs:446-476 | If a side still reserves more than its headroom after its level loop, nothing was sent on it and every quoted slot of any weight is being canceled |
| HandlerEffects.TimeoutsNameExactlyTheOverdue | src/trading/order_manager.rs:616-632 | A timeout check asks to cancel exactly the orders whose placing or canceling is older than the timeout, counts them, pauses for reconciliation exactly when there is one, and touches no slot |
| HandlerEffects.AcceptanceBindsIff | src/trading/order_manager.rs:683-762 | An acceptance binds its exchange id, makes a pending order live and counts it once exactly when the id is new to the slot or its own and no other slot's; otherwise it changes nothing |
| HandlerEffects.BoundOrderIsFound | src/trading/order_manager.rs:1018-1034 | From then on the exchange id finds that order |
| HandlerEffects.FillFinds | src/trading/order_manager.rs:933-950 | A fill is matched by its client id or a nonzero exchange id |
| HandlerLaws.FillLaw | src/trading/order_manager.rs:933-982 | A matching fill arms the gate and empties the slot only when it is the last one; any other changes nothing |
| HandlerLaws.CancellationLaw | src/trading/order_manager.rs:872-931 | A cancellation empties the slot of its client id, else of its exchange id, counts, and leaves every other slot |
| HandlerLaws.RejectionLaw | src/trading/order_manager.rs:764-793 | A rejection empties the slot of its order, leaves every other slot, and counts towards the breaker |
| HandlerLaws.CancelFailureLaw | src/trading/order_manager.rs:984-1016 | A failed cancel touches only the slot being canceled under that exchange id |
| HandlerLaws.RefusedCancelLaw | src/trading/order_manager.rs:1139-1162 | A cancel the queue refused puts exactly its order back to live |
| HandlerLaws.RefusedSendLaw | src/trading/order_manager.rs:1139-1162 | A send the queue refused empties exactly its slot |
| HandlerLaws.BeginLaw | src/main.rs:606-633 | Beginning a reconciliation requests the next generation and arms the gate unless the pause is already up |
| HandlerLaws.FinishLaw | src/main.rs:635-642 | Finishing clears the safety, breaker and reconciliation pauses and no other, and the run of rejections |
| HandlerLaws.RiskTickLaw | src/main.rs:547-594 | The risk check opens the gate, sets the baseline, and moves the pauses exactly by freshness and publications |
| HandlerLaws.HandleBeginsIff | src/main.rs:1690-1925 | The event loop begins a reconciliation exactly on a refused acceptance, an unusable, partial or unmatched fill, a cancel failure that is final, unnamed or met while already reconciling, an acknowledged cancel, an ambiguous response or a lost connection |
| HandlerLaws.HandleLaw | src/main.rs:1690-1925 | Late events of retired orders are ignored, every fill report arms the gate, and only a usable last fill empties a slot |
| QuoteLaws.QuoteLaw | src/trading/order_manager.rs:446-608 | Every quoted level answers for its slot: an empty one is filled with the best quantity if any, a misfit is canceled, a live order far off, too old or wrongly sized is replaced, and anything else stays |
| QuoteLaws.LiveMeansInLine | src/trading/order_manager.rs:505-608 | So an order still live at a quoted level after a quote is less than the threshold off its price and within its age |
| QuoteLaws.RepriceIff | src/trading/order_manager.rs:600-608 | A price is replaced exactly when it differs by the threshold in basis points of the old one, or the old one is not positive |
| QuoteLaws.QuotesBestQty | src/trading/order_manager.rs:457-463 | The quantity quoted is the most lots that fit the wish, the room at the worse of price and mid and the cap, if large enough to send, and nothing otherwise |
| QuoteLaws.QuietQuote | src/trading/order_manager.rs:408-445 | A quote not valid for trading, or with no usable price, quantity or start position, or under any pause, changes nothing |
| QuoteLaws.UnquotedLevelStays | src/trading/order_manager.rs:446-478 | Levels beyond the quoted ones, or without a price, keep their slot |
| QuoteLaws.QuoteCounts | src/trading/order_manager.rs:505-598 | A quote counts every order it sends and every one it replaces |
| HandlerEffects.RejectionsTripBreaker | src/trading/order_manager.rs:764-793 | Any sequence of rejections trips the breaker exactly when the run since the last acceptance reaches the threshold |
| HandlerEffects.AcceptanceEndsTheRun | src/trading/order_manager.rs:683-762 | Only a successful acceptance resets the run of rejections |
| HandlerEffects.CancelFailuresFailClosed | src/trading/order_manager.rs:984-1016 | The first two failed cancels put the order back to live; the third leaves it canceling and pauses for safety and reconciliation |
| ExecutionState.StaleTagStaysDead | src/trading/order_manager.rs:1192-1203 | Once a pause bit is newly set, no check that starts later succeeds for a tag issued before, however set, bump and clear interleave with its loads |
| ExecutionState.PermitsIsAtomic | src/trading/order_manager.rs:210-217 | A successful check has all three conditions true together at its first load |
| ExecutionState.ShutdownIsForever | src/trading/order_manager.rs:1268-1273 | No check that starts after shutdown succeeds |
| ExecutionState.ExecutionState.SetPauseReason | src/trading/order_manager.rs:1192-1199 | Adds the reason and, if it was new, moves to the next generation |
| ExecutionState.ExecutionState.ClearPauseReason | src/trading/order_manager.rs:1201-1205 | Removes the reason and leaves the generation alone |
| ExecutionState.ExecutionState.Permits | src/trading/order_manager.rs:212-217 | True exactly when not stopped, not paused and the tag is current |
| OrderManager.OrderManager.OnQuoteInto | src/trading/order_manager.rs:402-478 | The four slots, counters, pause state and decision buffer after a quote |
| OrderManager.OrderManager.QuoteLevelInto | src/trading/order_manager.rs:446-476 | One level of the reservation loop in place |
| OrderManager.OrderManager.ProcessSideLevel | src/trading/order_manager.rs:505-598 | Sends into an empty slot, cancels for replacement when a live order is mispriced, aged or mis-sized, and otherwise waits |
| OrderManager.OrderManager.ReservedElsewhere | src/trading/order_manager.rs:451-455 | Sum of the side's other slots at max(price, mid) |
| OrderManager.OrderManager.CancelSideInto | src/trading/order_manager.rs:480-493 | Cancels every slot of a side not already canceling |
| OrderManager.OrderManager.FindOrder | src/trading/order_manager.rs:1018-1034 | The first matching slot, level by level and bid before ask |
| OrderManager.OrderManager.ClearOrder | src/trading/order_manager.rs:1103-1137 | Empties the first matching slot only |
| OrderManager.OrderManager.GenerateClientId | src/trading/order_manager.rs:329-332 | A fresh number in the current generation |
| OrderManager.OrderManager.OnOrderAccepted | src/trading/order_manager.rs:683-762 | The acceptance handler in place |
| OrderManager.OrderManager.OnOrderRejected | src/trading/order_manager.rs:764-793 | The rejection handler in place, with the circuit breaker |
| OrderManager.OrderManager.OnOrderCanceled | src/trading/order_manager.rs:872-931 | The cancel handlers in place |
| OrderManager.OrderManager.OnOrderFill | src/trading/order_manager.rs:933-982 | The fill handler in place |
| OrderManager.OrderManager.OnCancelFailedFor | src/trading/order_manager.rs:984-1016 | The cancel-failure handler in place, pausing at the third failure |
| OrderManager.OrderManager.OnDispatchFailedFor | src/trading/order_manager.rs:1139-1162 | The rollback for a decision the queue refused |
| OrderManager.OrderManager.CheckTimeoutsNow | src/trading/order_manager.rs:364-392 | Cancels for overdue pending and canceling slots, with a reconciliation pause if any |
| OrderManager.OrderManager.RequirePositionRefresh | src/trading/order_manager.rs:1226-1235 | Arms the gate two publications ahead, never lowering it, and pauses on risk data |
| OrderManager.OrderManager.PositionRefreshComplete | src/trading/order_manager.rs:1237-1247 | Opens the gate exactly when enough publications came |
| OrderManager.OrderManager.FinishReconciling | src/trading/order_manager.rs:1254-1263 | Retires earlier generations, empties the slots and clears the three reconciliation-time pauses |
| OrderManager.OrderManager.SetPrecision | src/trading/order_manager.rs:497-501 | Changes lot size and minimum quantity and nothing else |
| Application.App.BeginAccountReconciliation | src/main.rs:606-633 | One request per reconciliation, pause before request |
| Application.App.FinishAccountReconciliation | src/main.rs:635-642 | Re-arms the gate before clearing the pause |
| Application.App.UpdateRiskPauses | src/main.rs:547-594 | Clears the risk pause only on fresh sources behind an open gate; reports sources that just became stale |
| SharedPosition.SharedPosition.Set | src/trading/position.rs:52-64 | Stores position, time and then the next version |
| SharedPosition.SharedPosition.IsStale | src/trading/position.rs:77-93 | Never published, or older than the threshold |
| SharedPosition.PollAndPublish | src/trading/position.rs:168-231 | Publishes each successful read once, in order, and nothing for a failed one |
| OrderWsClient.OrderWsClient.PlaceOrder | src/trading/order_ws.rs:605-654 | Records the request before writing and keeps it when the write fails; records nothing unless the first check passes and, with the pause state as it may be by then, the second |
| OrderWsClient.OrderWsClient.CancelOrderByClientId | src/trading/order_ws.rs:666-685 | Records the cancel, and forgets it when the write fails |
| OrderWsClient.OrderWsClient.SendCancel | src/trading/order_ws.rs:747-790 | A cancel that could not be written leaves no request behind |
| OrderWsClient.OrderWsClient.CancelAndVerify | src/trading/order_ws.rs:715-740 | True exactly when no order remains and every submission was confirmed by REST and dropped; an error when a query or the cancel fails; what is dropped is exactly what REST confirmed, less the ids whose removal found the map locked |
| OrderWsClient.OrderWsClient.SubmissionsSettled | src/trading/order_ws.rs:742-744 | True exactly when no new-order request is unanswered |
| OrderWsClient.OrderWsClient.TryClearRestConfirmedRequests | src/trading/order_ws.rs:700-712 | Drops exactly the confirmed new-order requests, or nothing while locked |
| OrderWsClient.OrderWsClient.ClearPendingTracking | src/trading/order_ws.rs:693-697 | Forgets every request and every awaited cancel |
| OrderWsClient.OrderWsClient.ConnectionLost | src/trading/order_ws.rs:324-328 | A lost connection forgets the awaited cancels and no submission |
| OrderWsClient.OrderWsClient.HandleResponse | src/trading/order_ws.rs:884-1189 | The request map, awaited cancels and event after a response, with the fill's status and quantity |
| OrderSocket.OnlyAnswersResolve | src/trading/order_ws.rs:884-929 | A response removes an unresolved submission only by being a coded answer to that very submission |
| OrderSocket.VerdictsMatchCodes | src/trading/order_ws.rs:1116-1262 | Acceptance, rejection and cancellation carry only ids the response supports, by its request id or its data, and the sign of its code |
| OrderSocket.AnswersSettle | src/trading/order_ws.rs:884-929 | Exactly what a response does to the bookkeeping: it forgets the request it echoes, else settles the submission it names, else ends the wait for the cancel it answers, and changes nothing more |
| OrderSocket.UnidentifiedIsReported | src/trading/order_ws.rs:1000-1114 | Exactly the event of an answer that identifies no order by client id |
| OrderSocket.MethodlessIsCancelIff | src/trading/order_ws.rs:1000-1114 | A coded answer with a client id but no known method or request id reads as a cancel's answer exactly while that cancel is awaited, and as a submission's otherwise |
| OrderSocket.IllegibleIsGuessed | src/trading/order_ws.rs:1066-1104 | An illegible response always raises a cancellation or a rejection, by its code |
| OrderSocket.LateCancelFailureReadsAsRejection | src/trading/order_ws.rs:1000-1114 | The failed cancel, with any unnamed method and with or without order id, that reads as a rejection |
| OrderSocket.EarlyCancelMakesAcceptanceReadAsCancel | src/trading/order_ws.rs:1066-1083 | The acceptance that reads as a cancellation |
| OrderSocket.DropConfirmedLeaves | src/trading/order_ws.rs:700-712 | Dropping confirmed ids leaves exactly the other submissions unresolved |
| OrderSocket.AddRequestAdds | src/trading/order_ws.rs:633-645 | A new request adds exactly its own submission under a fresh number |
| OrderSocket.SettledIff | src/trading/order_ws.rs:742-744 | Submissions are settled exactly when no client id's fate is unknown, whatever cancels are outstanding |
| ClientIds.SymbolRoundTrip | src/trading/order_manager.rs:346-353 | For any underscore-free symbol the symbol read back is the one printed |
| ClientIds.RetirementRoundTrip | src/trading/order_manager.rs:335-340 | The text test for retirement agrees with comparing generations, for every 64-bit generation |
| ClientIds.PrintIsInjective | src/trading/order_manager.rs:329-332 | Equal texts come from equal symbols, session times, levels, generations and numbers |
| ClientIds.OtherSessionsAreNotRetired | src/trading/order_manager.rs:335-340 | An id of another session is never taken for a retired one |
| ClientIds.DecimalRoundTrip | src/trading/order_manager.rs:335-340 | Parsing a printed number gives it back exactly when it fits 64 bits |
| Replica.ReplicaRefines | src/binance/orderbook.rs:123-223 | From a complete snapshot, after any honest spot or futures events in any order, repeated or missing, the local maps equal the exchange's book at the last applied id |
| Replica.ReplicaFollowsSnapshot | src/binance/orderbook.rs:81-223 | From any earlier state, loading an honest complete REST snapshot and then applying honest events gives the exchange's book at the last applied id |
| Replica.ReplicaRefinesAt | src/binance/orderbook.rs:123-223 | The same price by price, so also for a depth-limited snapshot at every price it was right about |
| Replica.EventCatchesUp | src/binance/orderbook.rs:135-148 | An event that starts no later than the replica stands brings every price level with the exchange at the event's end |
| Replica.GaplessStreamIsCleanIff | src/binance/orderbook.rs:130-188 | After loading any snapshot, a gapless stream is followed without gap or break exactly when the first event reaching past the snapshot overlaps it, and then the replica ends level with it |
| Replica.OrderedStreamIsCleanIff | src/binance/orderbook.rs:123-223 | With events missing, a stream in order is followed without gap or break exactly when the first event reaching past the snapshot overlaps it and every later one joins up with the one before |
| Replica.VerdictIs | src/binance/orderbook.rs:123-200 | Exactly which events are skipped, applied, a gap or a break, with the expected and the received id |
| Replica.SkippedIsOld | src/binance/orderbook.rs:123-200 | Nothing that reaches past the last applied id is ever skipped |
| Replica.CleanMeansCurrent | src/binance/orderbook.rs:123-223 | After any events without gap or break the replica is as far as every event it was given |
| Replica.StaysInSequence | src/binance/orderbook.rs:123-223 | The last applied id never falls behind the snapshot's |
| Replica.BinanceOrderbook.InitFromSnapshot | src/binance/orderbook.rs:81-107 | Loads the positive levels and restarts synchronisation |
| Replica.BinanceOrderbook.ApplyUpdate | src/binance/orderbook.rs:123-223 | The verdict and the new book; a skipped, gapped or broken update changes nothing |
| Replica.BinanceOrderbook.ToSnapshot | src/binance/orderbook.rs:228-260 | Both sides are the best fifty levels of the maps, the rest default |
| TopOfBook.CopyTop | src/binance/orderbook.rs:237-257 | min(50, n) levels strictly best first, every omitted one worse than every kept one |
| TopOfBook.TopIsUnique | src/binance/orderbook.rs:237-257 | Only one list meets that description |
| TopOfBook.TopIsWellFormedIff | src/types.rs:310-360 | The copied top passes validation exactly when both sides have levels, the kept ones are positive and no bid in the whole book reaches an ask |
| Snapshots.OrderbookSnapshot.Validate | src/types.rs:310-360 | Accepts exactly the sized, positive, best-first, uncrossed books and otherwise names a failing check |
| Snapshots.OrderbookSnapshot.SetLevelsFromStrings | src/types.rs:433-472 | Stores the kept levels and defaults, or leaves the snapshot as it was and names the first unusable level |
| Snapshots.ReadLevels | src/types.rs:447-455 | Reads every level or stops at the first that is not positive and finite |
| Snapshots.Arrange | src/types.rs:456-464 | Reversing, keeping and sorting all give the stable sort |
| Snapshots.Neighbours | src/types.rs:457-459 | One pass over neighbours decides strict worst-first order, or best-first order, of the whole side |
| Snapshots.SortedIsStableSort | src/types.rs:460-464 | Best first, a permutation, and feed order kept among equal prices |
| Snapshots.DirectionDoesNotMatter | src/types.rs:433-472 | Up to fifty levels in any order, or any number in monotone order either way: the stored levels are a best selection of the whole feed |
| Snapshots.WhereCut | src/types.rs:439-444 | An oversized feed keeps its last fifty levels exactly when its last price beats its first, with unreadable text as zero and no order with a NaN |
| Snapshots.UsableIff | src/types.rs:449-452 | Levels are usable exactly when every price and quantity is a positive finite number |
| Snapshots.UsableLevelsValidate | src/types.rs:433-472 | What is stored from usable levels is positive, best first and min(n, the requested levels) long |
| Snapshots.SelectsBestIff | src/types.rs:441-472 | For any usable feed they are a best selection exactly when each level beyond the cut finds, in the part looked at, as many levels at least as good as it as will be kept |
| Snapshots.OversizedUnsortedFeedLosesTheBest | src/types.rs:441-444 | A feed of fifty-two unsorted levels whose best level is lost |
| Rolling.RollingWindow.Push | src/strategy/rolling.rs:40-57 | The contents become the last min(n, capacity) values, and the overwritten oldest value is returned |
| Rolling.RollingWindow.Contents | src/strategy/rolling.rs:94-105 | Oldest to newest, one entry per counted value |
| Rolling.RollingWindow.Latest | src/strategy/rolling.rs:84-91 | The newest of the contents |
| Rolling.RollingStats.Push | src/strategy/rolling.rs:147-176 | Sums and cached figures equal recomputation from the contents, updated incrementally or rebuilt on wrap |
| Rolling.RollingStats.CurrentVariance | src/strategy/rolling.rs:189-199 | The mean squared distance from the mean, which equals the cached value |
| Rolling.RollingStats.CurrentMean | src/strategy/rolling.rs:179-186 | The mean of the contents, which equals the cached value |
| Rolling.RollingStats.Zscore | src/strategy/rolling.rs:210-215 | Zero for a tiny deviation, else the signed distance from the mean in deviations |
| Rolling.MomentsGiveVariance | src/strategy/rolling.rs:189-199 | E[x^2] - E[x]^2 is the variance and never negative, so the clamp is inert |
| Rolling.SlideSums | src/strategy/rolling.rs:157-164 | Adding the newest and subtracting the overwritten gives the sums of the new window |
| Rolling.FullRingSlides | src/strategy/rolling.rs:40-57 | Overwriting the oldest place and starting one further on drops the oldest value and appends the newest |
| Rolling.WindowIsLastPushed | src/strategy/rolling.rs:40-57 | After any pushes and clears the window is the last min(n, capacity) values since the last clear |
| Resampling.HeldAtIsCarried | src/strategy/obi.rs:215-225 | The held observation at a grid time is the first stamped exactly there, else the last before it |
| Resampling.OnlyOneIsCarried | src/strategy/obi.rs:215-225 | That observation is unique |
| Resampling.ResamplingIsUnique | src/strategy/obi.rs:206-231 | Observations and step determine the samples |
| Resampling.NoLookahead | src/strategy/obi.rs:215-225 | Later observations only append samples |
| Resampling.CatchUpIsBounded | src/strategy/obi.rs:218-225 | One message adds at most about max_gap / step samples |
| Resampling.RedundantMessagesDoNotMatter | src/strategy/obi.rs:212-231 | Repeating the held observation strictly between grid points of a gapless stream changes no sample, hence neither statistic |
| Resampling.KeptIsContinuous | src/strategy/obi.rs:206-214 | Whatever arrives, the messages kept since the last reset are ordered and have no gap |
| Resampling.KeptSinceGap | src/strategy/obi.rs:206-214 | Exactly the messages on time since the last gap among them are kept |
| Strategy.ObiStrategy.Record | src/strategy/obi.rs:206-231 | After any message the samples are the declarative resampling of the kept messages and both statistics are theirs |
| Strategy.ObiStrategy.HoldUntil | src/strategy/obi.rs:215-221 | The catch-up loop ends and samples the held observation at every grid point before the arrival |
| Strategy.ObiStrategy.Sample | src/strategy/obi.rs:298-308 | Appends one sample and keeps counters and statistics equal to the samples' own |
| Strategy.ObiStrategy.ResetState | src/strategy/obi.rs:509-526 | Forgets samples and messages but not the position |
| Strategy.ObiStrategy.Update | src/strategy/obi.rs:206-295 | Exactly when a quote results, and that it is drawn from the current samples and marked valid exactly when the grid history is long enough |
| Strategy.ObiStrategy.HistoryIsElapsed | src/strategy/obi.rs:178-186 | The history is one step for each sample after the first |
| Strategy.ReadyMeansContinuousHistory | src/strategy/obi.rs:170-186 | A tradable quote means consecutive messages closer than the gap limit that span at least the required history |
| Strategy.SumWithin | src/strategy/obi.rs:313-338 | Stopping at the first level beyond the bound loses no quantity on a sorted side |
| Strategy.BidsAdd | src/strategy/obi.rs:313-338 | One more bid adds its quantity to the imbalance if it is within the depth of mid, and nothing beyond |
| Strategy.AsksSubtract | src/strategy/obi.rs:313-338 | One more ask subtracts likewise |
| Strategy.BestLevelsAlone | src/strategy/obi.rs:313-338 | The imbalance of a book of one bid and one ask, to which those two add every other level |
| Quotes.CalculateQuote | src/strategy/obi.rs:341-505 | A quote exists exactly when there is money to size it; each level's prices are the most aggressive grid prices within every limit, and the quantity the largest affordable lot multiple |
| Quotes.BidPrice | src/strategy/obi.rs:409-459 | The highest grid price not above the raw price, the best bid and the level's least distance |
| Quotes.AskPrice | src/strategy/obi.rs:409-459 | The lowest grid price not below the raw price, the best ask and the level's least distance |
| Quotes.LotsFor | src/strategy/obi.rs:461-464 | The largest lot multiple the money buys at mid |
| Quotes.QuoteStaysOutside | src/strategy/obi.rs:409-459 | Prices never cross the book, keep the least distance from mid, and bids stay below asks |
| Quotes.OuterLevelIsOutside | src/strategy/obi.rs:409-459 | Level one is never inside level zero on either side |
| Quotes.LargerPositionLowersPrices | src/strategy/obi.rs:377-459 | Both prices are non-increasing in the position at a fixed limit |
| Quotes.HigherAlphaRaisesPrices | src/strategy/obi.rs:364-459 | Both prices are non-decreasing in alpha |
| Quotes.HigherVolatilityWidens | src/strategy/obi.rs:345-459 | With volatility pricing on, bids are non-increasing and asks non-decreasing in volatility |
| Quotes.AlphaMovesByTicks | src/strategy/obi.rs:364-459 | An alpha change worth a whole number of ticks moves a price held back by nothing else by exactly that many ticks |
| Quotes.PriceLaw | src/strategy/obi.rs:341-459 | The quoted bid is the highest, and the ask the lowest, grid price that spread, alpha, position, book and least distance allow, spelled out from the settings and the market |
| Quotes.QuantityLaw | src/strategy/obi.rs:386-464 | The quoted quantity is the largest lot multiple the capped order size buys at mid |

## Left out

- Floating point: prices, quantities and statistics are reals, so rounding, NaN results and infinities are absent; explicit finiteness checks appear only where a feed's text is read.
- Integer widths: counters, generations and nanosecond times are unbounded, so saturation and wrap-around are absent; only parsing a generation from text has its 64-bit limit.
- ProtocolMail.StepKeepsMail: the socket reader handles one response as one step; its separate locks of the request map and of the awaited cancels are not interleaved with the executor's.
- The socket's informational events (connected, reconnecting, error), which change no state, and giving up after the last retry, which shuts down.
- Transport: TLS, authentication, signing, JSON, reconnect backoff and logging; each is an environment step or an input.
- Timers: cooldowns, backoff delays and the lock wait; the order-socket and market-data pauses may clear, and a reconciliation may begin, at any turn of the event loop, which only adds behaviours.
- The recovery that clears the circuit breaker and safety pauses after a cooldown: the model clears them where a reconciliation finishes.
- Debounced comparison of the open-orders snapshot, the sanity checker and the symbol-info poller: they begin a reconciliation, clear confirmed requests or set the precision, all of which may happen at any turn.
- Several symbols: live trading allows one, so the model has one manager.
- Shutdown cleanup: the same pass as reconciliation with bounded attempts.
- The equity formula: the limit and the order size in dollars are inputs.
- Wire rounding of price and quantity texts to the symbol's decimals.
- Protocol.PollApply: the timestamp store of a publication is merged with the position store, since only staleness reads it.
- Strategy.ObiStrategy: the square root is a parameter known only by r >= 0 and r * r == x; the fallback limit while equity is unknown is an input.
- Rolling.RollingStats.Zscore: takes the square root of the cached variance as an argument, because only the variance is stored.
- Snapshots.Sorted: the library's stable sort is represented by insertion, since only its result matters.
- Replica.BinanceOrderbook.ApplyUpdate: levels arrive parsed; an unreadable level in the middle of an update makes the client drop the book, which is not modelled.
- `set_bids` and `set_asks`, which keep the first valid levels rather than the best, and `DepthState::accept`.
- Resampling.RedundantMessagesDoNotMatter: repeats stamped exactly on a grid point are excluded, because the first message stamped there is the one sampled.

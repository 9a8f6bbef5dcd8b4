# A verified model of the shop's checkout, payment and stock pipeline

The shop sells from a limited stock. A checkout reserves stock for a while, a confirmed checkout becomes an order with
a pending payment, the payment provider reports what happened through webhooks, and a background worker takes the stock
of a captured order off the shelf. Everything runs concurrently on one Postgres database, requests are retried, webhooks
arrive repeated and out of order, and workers crash. This project models that pipeline and its neighbours (rate
limiters, product pages, the circuit breaker, refresh tokens, the worker queue) and proves what they are meant to keep.

## How it is built

**The pipeline as a transition system.** `Shop` holds the committed rows, the transactions in flight and 27 actions, one
for each lock, statement or commit. A run is any interleaving of actions: row locks disable an action until they are
free, reads under READ COMMITTED see the rows committed at that moment, unique constraints refuse an insert, and a crash
is an abort. Row ids are positions, handed out at commit. Time is a clock that any run may advance.

| actions | source |
|---|---|
| Tick | `backend/orders/repository.py:61`, reservations run out |
| SetStock | an operator's product update, row lock awaited |
| Initiate, Deactivate | `backend/orders/repository.py:91-129`, `208-213` |
| SumStart, SumLock, SumCheck, SumCommit, SumAbort | `backend/orders/routes.py:51-87` |
| ConStart, ConFresh, ConReplay, ConCommit, ConAbort | `backend/orders/routes.py:97-158` |
| PspAccept, PspFail | `backend/orders/services.py:86-150` |
| WhStart, WhAdvance, WhStale, WhCommit, WhAbort | `backend/orders/webhooks.py:37-125` |
| Claim, DrawNext, DrawCommit | `backend/background_workers/order_confirm_inv_handler.py:25-100` |
| DrawRollback, DrawSettle, DrawCrash | `backend/background_workers/order_confirm_inv_handler.py:104-118` |

`BookInvariants`, `FlightInvariants` and `ShopInvariants` prove an invariant of every reachable state, action by action.
`ShopTheorems` and `Announcements` draw the results from it. `Rules` names the discipline that makes a reservation a guarantee, `Guarantee`
proves that it does, and `RulesNeeded` that no rule of it can be left out. `CheckoutOrders` says what a checkout and a key
can still get over every continuation, `Drawing` which orders can still be drawn and `Stranding` what a crash does to one.

**The handlers as methods.** `Handlers.Database` is the same database as mutable tables, with the request handlers, the
webhook and the worker as methods that read, check and update them in the order the code does. Each method's contract
relates the tables before and after to a relation that `HandlerTheorems` proves to be a run of the transition system, so
any series of handler calls inherits every theorem about runs; `SerialRuns` builds those runs. `Stock.ProductTable.Draw`
is the worker's draw loop.

**The neighbours.** `SlidingWindow` and `FixedWindow` are the limiters, `Pagination` and `Cursor` the product pages,
`Breaker`, `Retries` and `Probes` the circuit breaker and its users, `Tokens` the refresh-token rotation, `Workers` the
queue. Where the code awaits between its steps the concurrent part is a transition system again; where one call runs
through, it is a method.

## What the proofs turned up

- **When the stored response is replayed.** Exactly if the checkout is still active and in time with a snapshot, and the
  key row is the caller's own, for this checkout, answered and not about to expire (`Handlers.ConfirmMeaning`). The answer
  is stored just before the checkout is made inactive, so such a state exists only in between, or when the deactivation is
  lost; `HandlerTheorems.ReplayReached` reaches one. Every retry after an accepted payment is refused with 403, in every
  continuation; every retry after a refused payment gets 403, 410 or an error, never a response
  (`HandlerTheorems.RetriedAfterAcceptance`, `HandlerTheorems.RetriedAfterRefusal`). No retry orders again.
- **One order per key is not one order per checkout.** Whatever is in flight, a checkout can get one more order if and only
  if it is active, in time and not to be paid in cash, or a UPI confirm of it with a key still its own is past its
  validation (`CheckoutOrders.FurtherOrderInFlight`; a cash snapshot that a UPI summary is about to replace is left aside).
  An inactive one without such a confirm gets none in any continuation.
  From every initial state a checkout with two orders can be reached.
- **The reservation guarantee needs each of its rules.** One summary and one captured order per checkout, stock never
  lowered by hand, every row drawn in time: `RulesNeeded.EveryRuleNeeded` gives, for each rule, a run from an initial state
  that breaks only that one and leaves a worker short. The stock of a drawn order is taken, but its reservation is not
  released and counts until it expires.
- **A paid order can become undrawable.** Some continuation draws a captured order if and only if its intent is pending or
  done, or its worker can still finish or has a claim left after this one (`Drawing.DrawsExactly`). So it is lost when the
  intent is FAILED after three claims, and when a worker crashes after its claim, because no delivery is accepted for a
  PROCESSING intent. With nothing in flight exactly the pending and the done ones can be drawn;
  `RulesNeeded.StrandedReached` reaches an order that was paid and lost.
- **Two fixed windows admit 2 * limit - 1, not 2 * limit.** The first admission of the earlier window opened it, so a
  burst over the edge falls one short; `FixedWindow.TwoWindowBoundReached` gives a run that meets the bound.
- **The in-memory fallback differs at limit 0.** It always admits the first request of a window. The two forms agree on
  every request sequence if and only if the limit is at least 1.
- **The advertised second can be too early.** The sliding window's reset adds a wait rounded up to a time rounded down. A
  denied caller that comes back then is admitted if and only if the denial's millisecond and the wait's last one stay below
  a second together (`SlidingWindow.ResetSecondsExact`); `SlidingWindow.ResetSecondsTooEarly` is a limiter that denies it.
- **A login by another user gets a token that cannot be refreshed.** Only a session's first login links it to its user
  (`backend/auth/services.py:118-119`), and a refresh asks for that user. A token just issued can be refreshed exactly if
  the session was unlinked or the same user's, while session and token last (`Tokens.IssuedRefreshable`).
- **A refresh decides by its first read.** Two refreshes that read a token before either commits both spend it, however
  late the second gets the lock and even after the session's time; one token stays live (`Tokens.SpentTwice`).
- **The fixed window's reset is early too.** It adds two times rounded down, so it lies up to two seconds before the end
  of the window; a caller that comes back right then gets a new window if and only if both its request and the window's
  first came at a whole second (`FixedWindow.ResetSecondsExact`).
- **The quote is not the charge.** The summary adds 50 for shipping (`backend/orders/utils.py:18`), the order adds 0
  (`backend/orders/repository.py:302`); every payment asks for exactly 50 less than its quote
  (`HandlerTheorems.QuoteIsNotCharge`).
- **A task published after the last sentinel is queued is lost.** `publish` does not look at the sentinels. When the last
  worker has exited, the tasks left in the queue are exactly those, and all others were taken
  (`Workers.ShutdownExactly`); a task published after `stop` but before the last sentinel is still taken.
- **Payment attempts survive only with an answer.** A payment is accepted if and only if some reply, after transient ones
  only, gives an order id that no payment has; then the rows of the tries up to it are committed, and otherwise none
  (`Handlers.Database.CreatePaymentIntent`).
- **The substring test does no harm.** `psp_pay_status in ("failed")` tests for a substring of the word; every status it
  matches by accident is classified as unknown afterwards (`Payments.ClassifyMeaning`).
- **The cursor's ttl field is never read.** Only the age limit of the decoding request counts.

## Readings of the code

- The sliding-window script prunes by an undefined name; its own comment on line 11 (drop scores up to now - window) is
  what is modelled. The fallback's `time` is taken as a clock read.
- A failed payment is announced as `order.pending_payment` (`backend/orders/webhooks.py:94`), while the workers subscribe
  to `order.payment_pending` (`backend/background_workers/base_pubsub_interface.py:49`). The model has the webhook's topic.
- The life of a refresh token is read from the environment; seven days stand for it.
- A repeated event makes `mark_webhook_received` return None and the handler raises before its guarded block; this is an
  abort without effect. The early returns of the webhook commit nothing.
- A worker failure is taken to arise only in its second transaction and before that commits. The failure handler writes
  by id alone and the second transaction does not look at the status again.
- The second read of a token under lock returns the object that was read first, so no refusal is attributed to it. The
  token-reuse branch raises without a commit and has no effect.
- A key's checkout is compared only when the key is found at the first read. A confirm that finds it after its own insert
  was ignored goes on with the row as it is, whatever its checkout; the transition system always allows that.
- `int(x * 0.02)` is `x / 50` on naturals. Cart quantities are at least 1 and a cart lists a product once, as the cart's
  code and `uq_cart_product` see to.
- A queue size of 0 or less is no bound, as for any asyncio queue.
- `supplied`, `delivered`, `claims`, `failures` and the logs of the limiters and workers are history: no action reads them.

## Model

The main results come first, then the methods and the rest.

| member | source | states |
|---|---|---|
| ShopTheorems.OneOrderPerKey | backend/orders/routes.py:97-158 | Over every interleaving of confirm retries, an idempotency key has at most one order, one payment and one commit intent |
| ShopTheorems.DrawnOnce | backend/background_workers/order_confirm_inv_handler.py:23-118 | Over every run, with repeated deliveries, crashes and concurrent workers, an order's items leave stock exactly once if its intent is done and never otherwise |
| Guarantee.ReservationGuarantee | backend/orders/repository.py:57-86 | Under the rules, live reservations of orders not yet drawn never exceed stock, and no worker ever meets a shortage |
| RulesNeeded.EveryRuleNeeded | backend/orders/repository.py:57-86 | For each rule a run from an initial state keeps all the others and leaves a worker short of stock |
| ShopTheorems.SummaryNeverOversells | backend/orders/routes.py:72-82 | Whatever else is in flight, an order summary that commits leaves the unexpired reservations of each of its products within stock |
| ShopTheorems.FitsUntilLowered | backend/orders/repository.py:57-86 | Reservations that fit the stock go on fitting it in every continuation, over expiry, payments and worker retries, until the stock is lowered |
| ShopTheorems.DeliveriesConfluent | backend/orders/webhooks.py:61-111 | Two runs that deliver the same events, in any order, number and interleaving, agree on payment status, order status and commit intent |
| ShopTheorems.StatusIsGreatest | backend/orders/repository.py:549-562 | An accepted payment's status is the greatest of ACCEPTED and the statuses delivered for its provider order |
| ShopTheorems.CapturedMeansQueued | backend/orders/webhooks.py:82-108 | In every reachable state CAPTURED, CONFIRMED, announced and queued with the order's own lines are the same thing |
| Announcements.FailureAnnounced | backend/orders/webhooks.py:74-111 | In every reachable state an order's failed payment is announced if and only if a failed event addressed to its payment is recorded, whatever came later, and every status above ACCEPTED goes back to a recorded event |
| ShopTheorems.StockConserved | backend/background_workers/order_confirm_inv_handler.py:59-93 | In every reachable state a product's supplied quantity is its stock plus what done intents drew, and stock is never negative |
| ShopTheorems.SuppliedIsInitial | backend/background_workers/order_confirm_inv_handler.py:59-93 | With no edit by hand the supplied quantities are the initial stock |
| ShopTheorems.StockStep | backend/background_workers/order_confirm_inv_handler.py:59-93 | Apart from an edit by hand, stock moves only by one claimed order's complete draw, each product by the order's demand for it |
| ShopTheorems.RetriesEnd | backend/background_workers/order_confirm_inv_handler.py:41-45 | attempts is twice the failures, one more while claimed or done and one less once FAILED, and no intent is ever claimed more than three times |
| ShopTheorems.SettledForGood | backend/background_workers/order_confirm_inv_handler.py:26-45 | In every continuation of a run a DONE or FAILED intent is the same row |
| Drawing.DrawsExactly | backend/background_workers/order_confirm_inv_handler.py:25-118 | Whatever is in flight, some continuation draws an order if and only if its intent is pending or done, or claimed by a worker that has another claim left or whose draft covers the lines still to come |
| Drawing.QuietDrawsExactly | backend/background_workers/order_confirm_inv_handler.py:25-118 | With nothing in flight, if and only if its intent is pending or done |
| RulesNeeded.StrandedReached | backend/background_workers/order_confirm_inv_handler.py:41-45 | A run from an initial state pays for an order and loses it to a crash after the claim |
| Stranding.SettlesExactly | backend/background_workers/order_confirm_inv_handler.py:25-118 | Some continuation brings an intent to DONE or FAILED if and only if it is not a claimed one whose worker is gone |
| Stranding.StrandedNeverDrawn | backend/background_workers/order_confirm_inv_handler.py:25-45 | The order of a claimed intent whose worker is gone is captured and not drawn in any continuation |
| Stranding.CrashStrands | backend/background_workers/order_confirm_inv_handler.py:41-48 | A crash after the claim leaves its intent in that state |
| CheckoutOrders.FurtherOrderInFlight | backend/orders/repository.py:241-271 | Whatever is in flight, but for a UPI summary of a cash checkout, some continuation gives a checkout one more order if and only if it is active, in time and not to be paid in cash, or a UPI confirm of it that can still commit is in flight |
| CheckoutOrders.FurtherOrderExactly | backend/orders/repository.py:241-271 | With nothing in flight, some continuation gives a checkout one more order if and only if it is active, in time and not to be paid in cash; with a snapshot, if and only if some unused key can confirm it |
| CheckoutOrders.ClosedForGood | backend/orders/repository.py:241-258 | In every continuation a checkout that is inactive or about to expire, and no confirm of which can commit, gets no further order |
| CheckoutOrders.TwoOrdersReached | backend/orders/routes.py:158-164 | From every initial state a checkout with two orders can be reached |
| CheckoutOrders.TwoOrdersOneCheckout | backend/orders/routes.py:158-164 | A checkout that one unused key can confirm, two can: both orders carry its lines |
| Handlers.ConfirmMeaning | backend/orders/routes.py:97-168 | An order is placed if and only if the checkout is usable, its UPI snapshot is not empty and the key is new; a stored response is replayed if and only if the checkout is usable and the key row is the caller's own, for this checkout, answered and in time |
| Handlers.RefusalMeaning | backend/orders/routes.py:108-153 | Which refusal a usable checkout gets: nothing chosen, the caller's own key about to expire, of another checkout or unanswered, a key that is somebody else's, a cash order |
| HandlerTheorems.ConfirmedRows | backend/orders/repository.py:318-364 | A confirm that reaches the provider adds one order of the snapshot's lines, one payment of subtotal and tax, and the key for a day; with an answer the payment is ACCEPTED under its provider order, the key answered and the checkout inactive |
| HandlerTheorems.ReplayReached | backend/orders/services.py:136-150 | From every initial state a state that replays a stored response can be reached |
| HandlerTheorems.RetriedAfterAcceptance | backend/orders/routes.py:163-165 | In every continuation a retry after an accepted payment is refused with 403 and changes nothing |
| HandlerTheorems.RetriedAfterRefusal | backend/orders/services.py:103-118 | In every continuation a retry after a refused payment leaves keys, orders and payments alone and gets one determined refusal, never a response |
| HandlerTheorems.RetriedConfirm | backend/orders/routes.py:108-165 | Retried right away, a confirmed key changes nothing: 403 after an accepted payment, an error after a refused one |
| HandlerTheorems.QuoteIsNotCharge | backend/orders/utils.py:14-50 | The payment of an order asks for exactly 50 less than the quote of its snapshot |
| Amounts.QuoteMeaning | backend/orders/utils.py:14-50 | A cash quote is the UPI quote plus a fee of 50, its parts add up, shipping is 50, the tax is two per cent rounded down and within the rounding of the line snapshots, and each line adds price times quantity |
| HandlerTheorems.RepeatedSummary | backend/orders/routes.py:62-69 | A quote stands: whatever cart and method come later, order-summary gives the first answer and changes nothing while the checkout is in time |
| HandlerTheorems.QuoteHolds | backend/orders/routes.py:76-81 | A new quote holds exactly its lines' quantities, up to but not at the moment its checkout expires |
| HandlerTheorems.WebhookMeaning | backend/orders/webhooks.py:46-111 | From the event's own strings: which deliveries are unknown, ignored or repeated, and any other raises its payment strictly to the status asked for or changes no row |
| HandlerTheorems.SummaryMeaning | backend/orders/routes.py:51-87 | Which checkouts are refused, which carts cannot be quoted, that the errors are exactly the products of the lines that do not fit, and that a quote has none |
| HandlerTheorems.InitiateMeaning | backend/orders/repository.py:91-129 | The checkout given is the caller's, active and in time, a new one has an hour; otherwise the caller's expired one is dropped |
| HandlerTheorems.RepeatedInitiate | backend/orders/repository.py:91-129 | Asked again it gives the same checkout, or a new one where it dropped an expired one |
| HandlerTheorems.ServiceIsARun | backend/orders/routes.py:51-168 | Any series of handler calls on a new database is a run of the transition system |
| HandlerTheorems.ServiceKeepsInv | backend/orders/routes.py:51-168 | So it keeps the invariant and leaves what the next call requires |
| Stock.ProductTable.Draw | backend/background_workers/order_confirm_inv_handler.py:59-93 | Commits if and only if every product's stock covers the sum of its lines, then lowers each by exactly that; otherwise nothing changes and the errors name exactly the products that are short, or a product that is missing |
| SlidingWindow.ScriptServes | backend/rate_limiting/lua_scripts.py:4-40 | Pruning and PEXPIRE cannot be noticed by any request: decisions, counts and resets are those of a log that never forgets |
| SlidingWindow.WindowBound | backend/rate_limiting/lua_scripts.py:18-26 | Any half-open interval of one window holds at most limit admissions |
| SlidingWindow.RetryExact | backend/rate_limiting/lua_scripts.py:28-37 | A denied caller, with no other admission, is admitted at now + reset and not before; with limit 0 never |
| SlidingWindow.ResetSecondsExact | backend/rate_limiting/rate_limit_sliding_window.py:40-41 | A denied caller that comes back at the advertised second is admitted if and only if the denial's millisecond and the wait's last one stay below a second together |
| SlidingWindow.ResetSecondsTooEarly | backend/rate_limiting/rate_limit_sliding_window.py:40-41 | A limiter, a log and a denial whose advertised second is denied again |
| SlidingWindow.RemainingExact | backend/rate_limiting/rate_limit_sliding_window.py:37-38 | What a request is told remains is how many of any number of requests that follow at the same moment get in |
| SlidingWindow.ResetMeaning | backend/rate_limiting/lua_scripts.py:28-37 | The reset is the moment from which fewer admissions count than now |
| FixedWindow.FallbackAgrees | backend/rate_limiting/utils.py:54-76 | The fallback replies as the script on every sequence of whole seconds if and only if the limit is at least 1 |
| FixedWindow.TwoWindowBound | backend/rate_limiting/lua_scripts.py:45-59 | Any interval shorter than one window holds at most 2 * limit - 1 admissions |
| FixedWindow.RepliesMeaning | backend/rate_limiting/rate_limit_fixed_window.py:31-39 | At whole seconds every reply of both forms is that of the request sequence: allowed if it is one of the first limit of its window, the rest of them remaining, reset at the window's end |
| FixedWindow.ResetSecondsExact | backend/rate_limiting/rate_limit_fixed_window.py:35-39 | At any millisecond decision and count are those of the window, the reset is less than two seconds early, and coming back right then opens a new window if and only if this request and the window's first came at a whole second |
| FixedWindow.TwoWindowBoundReached | backend/rate_limiting/lua_scripts.py:45-59 | A run that meets this bound, for every limit and window |
| Pagination.PresentThroughoutOnce | backend/products/routes.py:86-109 | A row present at every page's query is collected exactly once by a client that follows the cursors to the end |
| Pagination.NoRepeats | backend/products/routes.py:86-109 | However rows come and go between pages, the listings collected are newest first, by id among those of one moment, so none is repeated |
| Pagination.ListedWasThere | backend/products/routes.py:86-109 | Every listing collected shows the id, public id, name, price and time of a row some page's query saw, a missing price as 0 |
| Pagination.WholeTable | backend/products/routes.py:86-109 | With no changes the client gets the whole table in order, no gaps and no repeats, in as many pages as the rows over the limit, rounded up |
| Cursor.FormExactly | backend/products/utils.py:24-31 | A token is refused for its form if and only if it has not exactly one dot |
| Cursor.RoundTrip | backend/products/utils.py:21-62 | For every pair, key and age limit, decoding an encoded cursor gives the pair back if and only if it is not older than max_age, and otherwise says it expired |
| Cursor.Tampered | backend/products/utils.py:36-43 | Content under another content's signature is refused if and only if the keyed hash tells them apart |
| Cursor.AcceptedWasIssued | backend/products/utils.py:34-55 | An accepted token with an issued signature carries and returns the issued content, in time, unless the keyed hash collides with it |
| Breaker.OpensExactly | backend/common/circuit_breaker.py:82-87 | A closed circuit opens if and only if the last failure_threshold outcomes since it closed are failures |
| Breaker.ClosesExactly | backend/common/circuit_breaker.py:63-81 | A half-open circuit closes if and only if half_open_success_threshold successes came with no failure; any failure reopens it, from that failure's time on |
| Breaker.OpenedRefuses | backend/common/circuit_breaker.py:46-87 | Whichever failure opens the circuit, closed or half-open, no call is let in for recovery_timeout from that failure on, whatever is recorded meanwhile, and the first one after it is |
| Breaker.OpenUntilRecovery | backend/common/circuit_breaker.py:46-59 | An open circuit refuses every call until recovery_timeout has passed and admits the first one then |
| Probes.ProbesBounded | backend/common/retries.py:63-78 | Over all interleavings never more probes in flight than permits, no caller runs more than attempts times, and its recorded failures are exactly its retried attempts |
| Probes.PermitsReturn | backend/common/retries.py:63-106 | When every caller has left, by whatever exit, every permit is back |
| Retries.RetryMeaning | backend/common/retries.py:54-106 | Every run before the last ended in a retryable error and none was refused; a result comes back if and only if the last run returned, a cancellation if and only if it was cancelled, an error if and only if it was fatal or the last allowed one, and 503 if and only if the next attempt is refused by an open circuit or for want of a permit |
| Retries.Retry | backend/common/retries.py:54-106 | The loop's exit, runs, recorded outcomes and the circuit it leaves are those of the specification, with the meaning RetryMeaning gives them, for any number of attempts, and its permit is back on every exit |
| Probes.AloneIsRetry | backend/common/retries.py:54-106 | In the interleaved system a caller that nobody interrupts does exactly what the loop does, with the same exit, accounts, circuit and permits |
| Tokens.OneLiveToken | backend/auth/repository.py:145-171 | However logins and refreshes interleave, a device session has at most one unrevoked token per user, the newest |
| Tokens.RevokedForGood | backend/auth/services.py:174-186 | A refresh whose first read comes after its token was revoked is refused in every continuation |
| Tokens.IssuedRefreshable | backend/auth/services.py:118-197 | A token just issued can be refreshed later if and only if its session was unlinked or the same user's, is not over by then, and the token has more than a minute to go |
| Tokens.SpentTwice | backend/auth/services.py:174-237 | Two refreshes that read a token before either commits both spend it, the second at any later time, and one token stays live |
| Tokens.ServiceIsARun | backend/auth/services.py:93-242 | Any series of logins and refreshes on new tables is a run, and leaves at most one live token per session and user |
| Workers.ShutdownExactly | backend/background_workers/base_pubsub_interface.py:63-130 | In every run, when the last worker has exited, the tasks left in the queue are those published after the last sentinel was put, all others were taken, and all are taken if and only if there is none |
| Workers.TasksTakenOnce | backend/background_workers/base_pubsub_interface.py:108-130 | In every run tasks are taken in order, each by one worker, none skipped; with nothing published after stop all have been taken once any worker has its sentinel |
| Workers.ShutdownComplete | backend/background_workers/base_pubsub_interface.py:71-106 | With nothing published after stop, when the last worker has exited every task was taken, each worker took one sentinel, the queue is empty and every get has its task_done |
| Workers.ShutdownProgresses | backend/background_workers/base_pubsub_interface.py:71-106 | After stop something other than publishing can always be done until all have exited, and it leaves less to do |
| Workers.LateTaskLost | backend/background_workers/base_pubsub_interface.py:63-74 | A run that leaves such a task in the queue |
| Handlers.Database.InitiateBuyNow | backend/orders/repository.py:91-129 | The active checkout, a new one if there is none, or 410 with the expired one dropped |
| Handlers.Database.OrderSummary | backend/orders/routes.py:51-87 | Which of 403, 410, the stored quote, 409 or a reservation with its snapshot is answered, and the whole new state of each |
| Handlers.Database.ValidateCheckout | backend/orders/repository.py:241-271 | Which checkout is refused and how, and that only an expired one is changed |
| Handlers.Database.PlaceOrderWithItems | backend/orders/repository.py:318-364 | A UPI order with its pending payment is inserted if and only if no order has the key |
| Handlers.Database.OrderForKey | backend/orders/routes.py:120-153 | The stored answer, a refusal, or one new key row with its order and payment |
| Handlers.Database.PlaceOrder | backend/orders/routes.py:97-158 | The answer and the whole new state of the confirm transaction |
| Handlers.Database.CreatePaymentIntent | backend/orders/services.py:86-150 | The payment is accepted if and only if a reply after transient ones only gives an order id no payment has, with exactly the rows of the tries up to it; otherwise nothing is kept |
| Handlers.Database.SecureConfirm | backend/orders/routes.py:97-168 | Accepted if and only if the order may be placed and the provider answers so; order, provider call and deactivation together, or a refusal that leaves the rest |
| Handlers.Database.RazorpayWebhook | backend/orders/webhooks.py:37-111 | Which deliveries are ignored, repeated, stale or processed, and the whole new state of each |
| Handlers.Database.CommitIntentHandler | backend/background_workers/order_confirm_inv_handler.py:14-118 | A pending intent is claimed, then its order drawn and done if stock covers it, or put back or given up with stock unchanged |
| Handlers.RetryPayments | backend/orders/services.py:155-207 | The provider is called again exactly while its replies are transient and tries are left; each try has its numbered row: SUCCESS for an answer, RETRYING for a transient error, FAILED for a rejection; the outcome is the last reply's |
| Handlers.CaptureCartSnapshot | backend/orders/repository.py:18-47 | The lines joined with the product rows and the stock read with them |
| Handlers.JoinedMeaning | backend/orders/repository.py:20-26 | With every product there the join is the cart, in its order; of other lines it keeps exactly those whose product exists, as often as the cart has them |
| Handlers.ReserveInventory | backend/orders/repository.py:133-153 | The insert that leaves conflicting rows alone, line by line |
| Handlers.SpcMeaning | backend/orders/repository.py:222-232 | The user's row for a key is found if and only if there is one with more than 40 seconds to go, one with less is refused, and another user's never found |
| Reservations.ItemsAvblty | backend/orders/repository.py:57-86 | No errors if and only if every line fits the stock read less the unexpired reservations, never counted below 0; the errors name exactly the products of the lines that do not |
| Amounts.ComputeFinalTotal | backend/orders/repository.py:297-315 | The accumulating loop gives the sum over the lines, the tax is two per cent of it rounded down, the fee is 50 for cash only, shipping and discount are 0, and the total is the sum of its parts |
| SlidingWindow.Key.Script | backend/rate_limiting/lua_scripts.py:4-40 | The script's statements compute its outcome and the set and expiry it leaves |
| SlidingWindow.Key.Allow | backend/rate_limiting/rate_limit_sliding_window.py:11-42 | Admission, remaining and reset are those of the log that never forgets, the log grows by exactly the admissions, and the requests stay in order |
| FixedWindow.RedisKey.Allow | backend/rate_limiting/rate_limit_fixed_window.py:11-39 | The counter with its expiry gives the reply and the state of the specification |
| FixedWindow.MemoryCounters.Allow | backend/rate_limiting/utils.py:54-76 | The dictionary entry of the key moves as specified and no other entry does |
| Pagination.Loader | backend/products/routes.py:86-109 | The listing loop, has_more and next_cursor give the page of the query |
| Breaker.CircuitBreaker.BeforeCall | backend/common/circuit_breaker.py:46-59 | A call is refused exactly when the circuit is open and stays so; the first one after the timeout makes it half-open |
| Breaker.CircuitBreaker.RecordSuccess | backend/common/circuit_breaker.py:61-73 | A half-open success counts and closes the circuit at the threshold, a closed one clears the failure count, an open one changes nothing |
| Breaker.CircuitBreaker.RecordFailure | backend/common/circuit_breaker.py:75-87 | A half-open failure reopens the circuit at its own time, a closed one counts and opens it at the threshold, an open one changes nothing |
| Tokens.AuthTables.SaveRefreshToken | backend/auth/repository.py:145-171 | Every live token of the session and user is revoked and one is added |
| Tokens.AuthTables.IssueAuthTokens | backend/auth/services.py:93-131 | Refused if and only if the session is missing, revoked or expired; otherwise the new token is the only live one |
| Tokens.AuthTables.RefreshTokens | backend/auth/services.py:170-242 | Accepted if and only if the token is unrevoked with more than a minute to go and its session is its user's, unrevoked and not over; the presented token is spent and the new one is the only live one |
| Workers.PubSubWorker.Subscribe | backend/background_workers/base_pubsub_interface.py:57-61 | A handler is registered once, and other events keep theirs |
| Workers.PubSubWorker.PublishTask | backend/background_workers/base_pubsub_interface.py:63-69 | Accepted if and only if the queue has room, before and after stop, and then put at its end |
| Workers.PubSubWorker.SendSentinels | backend/background_workers/base_pubsub_interface.py:71-74 | One sentinel for each worker behind everything queued, or as many as there is room for until a put has to wait |
| Workers.PubSubWorker.WorkerLoop | backend/background_workers/base_pubsub_interface.py:108-130 | The loop takes every task before the first sentinel, then exits, with a task_done for every get |
| ShopInvariants.InvHolds | backend/orders/routes.py:51-168 | Every reachable state satisfies the invariant of rows, transactions in flight, locks and stock |
| ShopTheorems.IntentStep | backend/background_workers/order_confirm_inv_handler.py:90-117 | DONE and FAILED are never left, only a committed draw leads to DONE, a payload never changes, and new intents are PENDING |
| ShopTheorems.DrawCommitDraws | backend/background_workers/order_confirm_inv_handler.py:59-93 | The interleaved draw that commits had every product covered and lowers each by the sum of its lines |
| ShopTheorems.AmountsMatch | backend/orders/repository.py:318-364 | In every reachable state the payment amount is the order total, and that is subtotal plus tax with no shipping, fee or discount; for a single line it is price times quantity plus two per cent of it, rounded down |
| BookInvariants.ReplayFindsOrder | backend/orders/repository.py:423-445 | Every committed key row already has its order, so a replayed key cannot insert another |
| Guarantee.RowSuffices | backend/background_workers/order_confirm_inv_handler.py:66-78 | By the rules the row a worker comes to holds the order's quantity beyond what all other live reservations hold |
| Stock.DrawRowsExact | backend/background_workers/order_confirm_inv_handler.py:59-81 | For any list of lines, repeated products included, the draft fails if and only if some product's demand exceeds its stock, and otherwise subtracts exactly the demand |
| Reservations.ReserveExact | backend/orders/repository.py:133-153 | For a checkout without rows the insert adds one exact row for each line |
| Reservations.ReserveHolds | backend/orders/repository.py:57-70 | What a new reservation adds to a product's held quantity is exactly the lines' demand while it lasts, and nothing from its end on |
| Reservations.ReserveAdds | backend/orders/repository.py:133-153 | The insert keeps every old row and the unique constraint and adds at most what the lines ask for, at every later time |
| Amounts.SubtotalMeaning | backend/orders/repository.py:297-301 | A line adds its price for every piece, and its own tax snapshot |
| Amounts.MorePieces | backend/orders/repository.py:297-301 | d more pieces of any line raise the subtotal by d times its price |
| Amounts.TaxRounding | backend/orders/repository.py:301-349 | For n lines the tax snapshots sum to at most the order tax, which exceeds them by at most 49 n / 50, and so by at most n - 1 |
| Amounts.TaxRoundingReached | backend/orders/repository.py:301-349 | Lines that reach this bound, for every n |
| Payments.ClassifyMeaning | backend/orders/utils.py:68-99 | By their own strings, exactly which status and event pairs are acted on and what each asks for, the substring test included, and the order of the payment statuses |
| HandlerTheorems.SummaryRefines | backend/orders/routes.py:51-87 | Every outcome of order-summary is a run of the transition system |
| HandlerTheorems.SecureConfirmRefines | backend/orders/routes.py:97-168 | Every outcome of secure-confirm is a run of the transition system |
| HandlerTheorems.WebhookRefines | backend/orders/webhooks.py:37-111 | Every outcome of a delivery is a run of the transition system |
| HandlerTheorems.WorkerRefines | backend/background_workers/order_confirm_inv_handler.py:14-118 | Every outcome of a worker's delivery is a run of the transition system |
| HandlerTheorems.RepeatedWebhook | backend/orders/webhooks.py:61-80 | Delivering an event again right away changes nothing |
| HandlerTheorems.RepeatedDraw | backend/background_workers/order_confirm_inv_handler.py:26-39 | Delivering a done or failed intent again changes nothing |
| HandlerTheorems.SummaryFits | backend/orders/routes.py:72-82 | What order-summary commits never promises more of its products than their stock |
| SlidingWindow.PruningUnnoticed | backend/rate_limiting/lua_scripts.py:11-16 | What is left after pruning are exactly the admissions that still count |
| SlidingWindow.DeniedIsFull | backend/rate_limiting/lua_scripts.py:28-37 | At a denial exactly limit admissions count and the oldest of them sets a reset above 0 |
| FixedWindow.FormsCoupled | backend/rate_limiting/lua_scripts.py:45-59 | The counter that counts on and the one that stops at the limit stay coupled and reply alike on every request sequence |
| FixedWindow.ServedWindowed | backend/rate_limiting/lua_scripts.py:45-59 | Over every request sequence limit admissions later another window has begun |
| Pagination.PageMeaning | backend/products/repository.py:186-206 | A page shows the first rows after the cursor in order; it has a next cursor if and only if more rows follow, and then its last row's key |
| Pagination.StaticIsExact | backend/products/routes.py:86-109 | With no changes the pages end and give everything after the cursor, in order |
| Cursor.PaddingLossless | backend/products/utils.py:18-35 | For every byte length, stripping and restoring the padding is lossless and leaves no dot (sections 3.2 and 5 of RFC 4648) |
| Cursor.Vectors | backend/products/utils.py:18-20 | The encoder gives the first test vectors of section 10 of RFC 4648, for each length of the last group |
| Cursor.UrlSafeLetters | backend/products/utils.py:18-35 | The URL-safe letters of section 5 of RFC 4648, taken by the decoder in either alphabet |
| Cursor.TokenParts | backend/products/utils.py:22-23 | A token always splits into exactly two parts that carry content and signature unchanged |
| Breaker.PhaseReadsHistory | backend/common/circuit_breaker.py:61-87 | The counters are a reading of the outcomes recorded in the current phase |
| Retries.RetryAccounts | backend/common/retries.py:56-106 | At most attempts runs; one recorded failure for each retried run, one success only at the end |
| Retries.RecordedAreRetried | backend/common/retries.py:92-104 | A failure is recorded only if it was retryable and another attempt was left |
| Probes.InvHolds | backend/common/retries.py:54-106 | Permits free and probes in flight always add up, and every caller's accounts are right, over all interleavings |
| Tokens.InvHolds | backend/auth/services.py:93-242 | One holder per session row, and what it is about to revoke is all that is live, over all interleavings |
| Tokens.CommitRevokesAll | backend/auth/repository.py:145-155 | A committed login or refresh revokes every earlier token of its session and user |
| Workers.InvHolds | backend/background_workers/base_pubsub_interface.py:63-130 | In every run taken and queued tasks are the published ones in order, sentinels queued and taken are those put, and gets, task_dones and unfinished items add up |

## Left out

- Handlers.Database.RazorpayWebhook: events without an id, a payment id or a valid signature are not modelled; they change no row of the pipeline.
- Handlers.Database.OrderSummary: the row locks are not part of the method, which runs alone; they are in the transition system.
- Handlers.Database.CommitIntentHandler: the claim and the draw are two transactions and other workers may come between them; that is in the transition system.
- Handlers.Database.SecureConfirm: the advisory lock is left out, because its result is never used, and so is the five-second sleep of the concurrent branch.
- Workers.PubSubWorker.SendSentinels: a put that has to wait ends the method, the transition system covers the waiting; a second stop is not modelled.
- Cursor.RoundTrip: the JSON form, the ISO form of a time and the keyed hash are parameters, with the round trip of the first two assumed; that the hash does not collide is asked for only where it is named.
- CheckoutOrders.FurtherOrderInFlight: leaves aside a cash snapshot that a UPI summary in flight is about to replace.
- Retries.Retry: a caller that nobody else interrupts, which finds a permit at once or not at all; interleaved callers that wait for one are in Probes.
- Breaker.CircuitBreaker.AcquireProbe: decides at once; waiting for a permit until the timeout is in Probes.
- Cash on delivery: the stored response holds a UUID that `json.dumps` rejects, so such an order rolls back; only that is modelled.
- Floating point: the two per cent tax is exact division, breaker times are reals.
- Deadlocks of row locks taken in different orders, and clock skew between Redis and Postgres.
- Deleting products, editing prices, the cart, roles, signup, uploads and thumbnails: only easy claims.
- Product caches: what remains of them is staleness.
- The outbox publisher, `commit_reservations_and_decrement_stock`, `validate_reservations` and `retry_transaction_with_db_circuit`: never started or never called.
- The events the worker emits next to its commit (`backend/background_workers/order_confirm_inv_handler.py:95-100`): `sim_emit_outbox_event` does nothing.
- The provider's HTTP calls, password hashing and token signing: nondeterministic replies and fresh values.
- `next_retry_at` backoff of an intent: any pending intent may be delivered at any time, which covers every schedule.
- The drain and wait timeouts of `shutdown`.
- The failure policies of the limiters when Redis does not answer, other than the in-memory fallback.

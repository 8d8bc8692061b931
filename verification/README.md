# Verification of the exchange's matching, accounting and ingestion core

A Dafny model of the trading core, with proofs. Quantities, prices and money are exact reals; every
method that runs under a lock, and every database statement or transaction, is one atomic step.

The order book and the router are modelled twice: as classes whose methods update state the way the
engine does, and as functions on values (`Book`, `Desk`) that say what the result is. The methods are
proved to compute the functions; the promises are proved about the functions, for every run.

| file | what it holds |
|---|---|
| `Wrappers.dfy` | the option type |
| `Book.dfy`, `Priority.dfy`, `Modifiers.dfy` | the book on values; the two-level walk as a greedy fill of the flat price-time queue; fill-or-kill, immediate-or-cancel, post-only |
| `BookInvariant.dfy`, `BookQueues.dfy` | what every step keeps, over every interleaving; every operation said on the flat queues |
| `Walk.dfy`, `Matcher.dfy` | the matching engine in place, against `Book` |
| `Accounts.dfy`, `Execution.dfy`, `OmsState.dfy` | balances, holds, fees, trade execution, order lifecycle |
| `Desk.dfy`, `DeskRuns.dfy`, `DeskQueues.dfy`, `Router.dfy` | the router on values, its runs, and the router itself over the four engines |
| `Insurance.dfy` | what every liquidation trade brings the insurance fund, which never loses on limit liquidation fills |
| `OmsAgreement.dfy` | the register of orders agrees with the book and the trade history |
| `StopFills.dfy` | triggered stops, of whose trades the register does not hear |
| `Payments.dfy`, `Funding.dfy` | what settling moves, to the last cut-off; every hold stays within its balance |
| `Claims.dfy`, `Solvency.dfy` | every open order stays backed by its hold, request by request and run by run |
| `Shortfall.dfy`, `Excess.dfy` | the runs that break it, and when there is none; what a hold exceeds the claims by, as an equation |
| `Positions.dfy` | futures positions, liquidation and bankruptcy price, profit and loss |
| `Settlement.dfy` | what each party pays and gets, settlement at most once, and a ledger that explains the balances |
| `Deposits.dfy` | block scanning and deposit crediting with several workers |
| `Idempotency.dfy` | the idempotency middleware as an interleaved protocol |
| `Base58.dfy` | Base58 and Base58Check as bijections |
| `Candles.dfy` | candle intervals and roll-ups |
| `Depth.dfy` | market depth and its merge with an external book |

`dafny verify dfyconfig.toml` checks the whole project. Nothing is executed.

## What the code does not promise

Stated as lemmas: the exact condition under which the promise holds, and an input or a run at which it
fails.

- Fill-or-kill is decided by crossing liquidity, own orders included. With an own order in the way an
  accepted order can be cut short (`FillOrKillCutShort`); it is filled exactly when its eligible
  liquidity suffices (`FillOrKill`), and it comes to rest exactly when it does not and own orders are
  cancelled out of the way (`FillOrKillRestsIff`, `FillOrKillRests`).
- Post-only is a promise about the local book (`PostOnlyNeverTakes`). Of an external book the router does
  not ask, so an accepted post-only order trades there exactly when it reaches a level
  (`PostOnlyTakesOutsideIff`, `PostOnlyTakes`).
- A post-only order is refused by an empty level too, which cancelling both orders of a self-trade can leave:
  it is refused exactly when the best opposite level is at a price it would trade at, and, as long as no
  level is empty, exactly when an order rests there (`PostOnlyRefusedIff`, `EmptyLevelRefuses`).
- Putting an order back on the book after an external match does not match it again, so the book stays
  uncrossed exactly when the order does not cross at that moment (`RestKeepsIff`, `RestCrosses`).
- An open order is not always covered by its owner's hold. Request by request and run by run: a user stays
  covered if and only if no request overdraws him (`PlaceCoveredIff`, `WithdrawCoveredIff`,
  `CoveredThroughout`). Three things overdraw:
  - A market buy, which is reserved at the price it names, exactly when its trades release more than it
    reserves and its owner has in excess (`MarketBuyIff`; for users whose post-only buys fit, run by run,
    `EveryOrderStaysBacked`). One that names no price does (`HastyRunFails`). It is charged in full exactly
    when the balance covers the charge (`BuyPaysIff`), and a user without means pays nothing
    (`PennilessBuys`).
  - A post-only buy, which is reserved at the maker rate and released at the taker rate (`ShortRunFails`).
    The default tiers have taker rates above maker rates (apps/matching-engine/engine/fees.go:65-67).
  - A cancel, which releases USDT for buys and BTC for sells, whatever the market
    (apps/matching-engine/engine/oms_router.go:525-536; `SellCancelFails`, `BuyCancelFails`). It frees the
    hold of its own order exactly when the market's asset is the one it names (`CancelFreesIff`); in the
    ETH-USDT market a cancelled sell keeps its hold (`SellKeepsHold`).

  All runs from an empty desk whose market buys fit stay solvent if and only if no user's taker rate exceeds
  the maker rate, the quote asset is not BTC and the base asset is not USDT (`BackedIff`).
- With self-trades allowed, both fees of a self-trade are checked against the same VLX balance; they are
  charged in full exactly when it covers their sum (`SelfTradeInNativeIff`, `SelfTradeUndercharged`).
- The register does not hear of the trades of triggered stops: it agrees with all that was traded after such
  a match exactly when that traded nothing (`StopRunsAgreeIff`, `StopRunParts`).
- A candle that cannot be read is written as if it were new, and the conflict branch of the insert overwrites
  its high and low: harmless exactly when it has traded at this one price only (`FailedReadIff`). The
  roll-up of candles is proved for trades without failed reads.
- The lifecycle rules forbid every way back except a move to the created stage, which they allow from any
  stage that is not final (`GoesBackIff`); no caller makes such a move.
- Credited and confirmed deposits are the same, for any number of wallet workers, if and only if no event
  put a credited deposit back to confirming (`AgreeIff`). One worker never does (`CreditedIffConfirmed`),
  two can (`SecondWorkerReopens`).
- The attempts at a settlement are its recorded retries, its lost updates and what older copies set back
  (`AttemptsExplained`). They are the recorded retries all along a run exactly when no failing attempt has
  its update lost or written from a copy with other retries than the row (`CountedThroughout`). With one
  worker a given-up trade has kept to the retry limit exactly when no update was lost (`AttemptsBounded`);
  with lost updates there is no bound (`LostUpdatesExceed`). Passes over the queue do run at once, because
  each trading submission starts one (apps/matching-engine/engine/oms_router.go:466) and the engine's lock
  is released before its jobs are attempted.
- A completed trade stays completed (`CompletedForever`). A given-up trade leaves that state exactly when it
  is submitted again or an older copy fails and its update is stored (`TerminalIff`,
  `TerminalThroughout`), which two workers bring about (`SecondWorkerRevives`).
- A debit of a missing balance row changes nothing, so the ledger explains the balances exactly when every
  debit finds its row (`LedgerExplains`); a sale by an account without a base row, such as the external
  counterparty `EXT_LIQUIDITY_BINANCE`, is not explained (`UnexplainedSale`).
- An order the matcher refuses stays in the queued stage and keeps its hold, and no cancel request finds it
  (`RefusedIsStuck`). What a hold exceeds the claims of the open orders by changes, submission by submission
  and cancel by cancel, by equations (`PlaceExcess`, `RefusedExcess`, `WithdrawExcess`): refused orders,
  remainders that are killed, better prices, orders cancelled by self-trade prevention, spreads between
  maker and taker rates, and cancels that free nothing add to it. Only market buys beyond their
  reservation, ill-fitting post-only buys and cancels by the wrong name take from it
  (`ExcessNeverShrinks`), so nothing else frees the hold of a refused order (`RefusedForever`).

## Model

| member | source | states |
|---|---|---|
| `Matching.Matcher.MatchOrder` | apps/matching-engine/engine/matcher.go:54-256 | The in-place matching of an order leaves exactly the book, the order and the trades that the value-level match prescribes: refusal, both sides, all four self-trade modes, stop triggers, immediate-or-cancel, resting |
| `Matching.Matcher.MatchAgainst` | apps/matching-engine/engine/matcher.go:76-152 | The outer loop over price levels, in place, is the level walk of the reference: each level that runs empty is dropped, the loop stops at a price limit, at completion or at a self-trade stop |
| `Matching.Matcher.MatchLevel` | apps/matching-engine/engine/matcher.go:84-145 | The inner loop over one level's queue, in place, is the greedy fill of that queue; it terminates on resting orders plus the unfilled remainder |
| `Matching.Matcher.TradeHead` | apps/matching-engine/engine/matcher.go:105-144 | One fill: quantities, statuses, removal of a completed maker, the trade record at the resting price, last price and stop triggers |
| `Matching.PreventSelfTrade` | apps/matching-engine/engine/matcher.go:87-103 | What each self-trade mode does to the incoming order and the head of the queue |
| `Matching.Matcher.TriggerStopOrders` | apps/matching-engine/engine/matcher.go:366-402 | Armed stops split into those kept, in order, and those launched as limit orders, in order; which ones, in price comparisons, is `ArmedExactly` and `LaunchedReached` |
| `Matching.SplitStops` | apps/matching-engine/engine/matcher.go:370-393 | The filtering loop, whose four branches compare prices as the source does, partitions the armed stops by the trigger rule that `TriggerIs` spells out |
| `Matching.Matcher.RunPending` | apps/matching-engine/engine/matcher.go:398-401 | A launched match of a triggered stop, run at any later time, is an ordinary match of that stop as a limit order |
| `Matching.IsFok` | apps/matching-engine/engine/matcher.go:408-443 | The depth check fails exactly when no crossing order, or less crossing quantity than the remainder, rests opposite |
| `Matching.Matcher.MustRefuse` | apps/matching-engine/engine/matcher.go:60-74 | An order is refused before matching exactly for failing the fill-or-kill depth check or for being post-only and crossing the best opposite level |
| `Matching.AddOrderToBook` | apps/matching-engine/engine/matcher.go:335-352 | Resting joins the level of the same price or opens a level in price order |
| `Matching.Matcher.AddOrderToBookDirect` | apps/matching-engine/engine/matcher.go:355-363 | Putting an order back rests it on its own side and touches nothing else |
| `Matching.Matcher.CancelOrder` | apps/matching-engine/engine/matcher.go:266-301 | Cancelling takes the first order of that name out of the armed stops, else the bids, else the asks, dropping a level it empties, and reports whether it found one |
| `Matching.Matcher.AddStopOrder` | apps/matching-engine/engine/matcher.go:259-263 | Registering a stop appends it to the armed stops |
| `Matching.Matcher.SetSTPMode` | apps/matching-engine/engine/matcher.go:40-44 | Changing the self-trade mode changes nothing else |
| `Priority.LevelsRefineQueue` | apps/matching-engine/engine/matcher.go:76-152 | The two-level walk is the greedy fill of the flat price-time queue: same trades, same incoming order, same departures, same residual queue |
| `Priority.FillsAreAllotted` | apps/matching-engine/engine/matcher.go:84-145 | The fills are the first-come-first-served allotment over the eligible orders: all crossing ones (ALLOW), those before the first own order (CANCEL_NEWEST, CANCEL_BOTH), or all but own ones (CANCEL_OLDEST) |
| `Priority.FilledIsMin` | apps/matching-engine/engine/matcher.go:105-108 | Total filled is the smaller of the remainder and the eligible liquidity |
| `Priority.FillsAreFair` | apps/matching-engine/engine/matcher.go:87-141 | Every fill is positive, at an accepted resting price, against an order of the queue, and never against the same user unless ALLOW |
| `Priority.RestingConserved` | apps/matching-engine/engine/matcher.go:105-121 | Order by order, nobody is lost or invented, terms never change, and each resting order gains exactly the fills made on it |
| `Priority.DeparturesExplained` | apps/matching-engine/engine/matcher.go:92-121 | An order leaves the queue only completely filled or as the taker's own order cancelled by self-trade prevention; whoever stays is open |
| `Priority.GoneAre` | apps/matching-engine/engine/matcher.go:87-121 | The orders a sweep is through with are the first of the queue, in order: the taker's own ones cancelled, unless ALLOW, and the others completely filled |
| `Priority.QueueLeft` | apps/matching-engine/engine/matcher.go:87-145 | The rest of the queue is as it was, except that its head may have the last fill, which completed the taker |
| `Priority.SweepStops` | apps/matching-engine/engine/matcher.go:87-101 | A sweep is stopped exactly in the two modes that cancel the taker, by a crossing own order, with less than the taker asks ahead of it; then the taker is cancelled, all ahead is gone, and the own order goes exactly under CANCEL_BOTH |
| `BookInvariant.MatchKeeps` | apps/matching-engine/engine/matcher.go:54-256 | Every match keeps both sides sorted and well-formed and best bid below best ask, and leaves no empty level unless it cancelled both orders |
| `BookInvariant.CancelKeeps` | apps/matching-engine/engine/matcher.go:266-301 | Every cancel keeps the book invariant and leaves no empty level of its own |
| `BookInvariant.RestKeepsIff` | apps/matching-engine/engine/matcher.go:355-363 | Resting without matching keeps the book uncrossed exactly when the order does not cross the best opposite price |
| `BookInvariant.RestCrosses` | apps/matching-engine/engine/matcher.go:355-363 | A sound book and an order that crosses it when put back without matching |
| `BookInvariant.InsertPriority` | apps/matching-engine/engine/matcher.go:335-352 | A newly rested order stands behind every order at its price or better and before every order at a worse price |
| `BookInvariant.SweptNoEmpty` | apps/matching-engine/engine/matcher.go:147-151 | Matching leaves an empty level behind only when it ends by cancelling both orders |
| `BookInvariant.EveryRunIsGood` | apps/matching-engine/engine/matcher.go:54-402 | Through every interleaving of submissions, cancels, stop registrations, scheduled stop matches and mode changes the book stays sorted, well-formed and uncrossed, without empty levels until a CANCEL_BOTH, and every stop is accounted for |
| `BookInvariant.EmptyIsGood` | apps/matching-engine/engine/matcher.go:28-37 | An empty book is where every run may start |
| `BookInvariant.StopSubmittedOnce` | apps/matching-engine/engine/matcher.go:259-301 | A stop registered once is in exactly one place: armed, pending, submitted once, or cancelled |
| `BookInvariant.RippleKeepsIds` | apps/matching-engine/engine/matcher.go:366-402 | Trades move stops from armed to pending and neither lose nor duplicate any |
| `BookInvariant.ArmedExactly` | apps/matching-engine/engine/matcher.go:366-402 | The stops still armed after some trades are exactly those whose price no trade reached: a stop sell has every trade price strictly above its own, a stop buy strictly below, take-profits the other way round |
| `BookInvariant.NoArmedStopIsDue` | apps/matching-engine/engine/matcher.go:143-144 | After a match no trade of it has reached the price of an armed stop, in price comparisons per type and side |
| `BookInvariant.TriggerIs` | apps/matching-engine/engine/matcher.go:370-386 | When a stop and a take-profit fire, buy and sell, as price comparisons |
| `BookInvariant.OneOfTwoFires` | apps/matching-engine/engine/matcher.go:370-386 | At any price but its own exactly one of a stop and a take-profit of the same side and price fires |
| `BookInvariant.LaunchedReached` | apps/matching-engine/engine/matcher.go:366-402 | Every stop launched by some trades was armed or pending before, and if armed one of the trade prices reached its own |
| `Modifiers.MatchIsGreedy` | apps/matching-engine/engine/matcher.go:76-163 | An accepted order's trades, residual opposite queue and gained quantity are those of the greedy allotment on the flat queue |
| `Modifiers.TradesAreFair` | apps/matching-engine/engine/matcher.go:87-144 | No trade has one user on both sides unless ALLOW; every trade is positive and at an accepted price |
| `Modifiers.TradesSayWho` | apps/matching-engine/engine/matcher.go:110-133 | Who buys and who sells in each trade, at whose price, for how much, and its number |
| `Modifiers.FillOrKill` | apps/matching-engine/engine/matcher.go:58-68 | A priced limit fill-or-kill order is rejected without effect exactly when crossing liquidity is short, and otherwise completely filled exactly when its eligible liquidity suffices |
| `Modifiers.FillOrKillAllOrNothing` | apps/matching-engine/engine/matcher.go:408-443 | With no crossing order of its own, or ALLOW, fill-or-kill is all or nothing |
| `Modifiers.FillOrKillCutShort` | apps/matching-engine/engine/matcher.go:87-101 | A concrete book on which self-trade prevention cuts a fill-or-kill order short after the depth check passed |
| `BookQueues.FillOrKillRestsIff` | apps/matching-engine/engine/matcher.go:58-163 | A priced fill-or-kill order comes to rest exactly under CANCEL_OLDEST when the crossing quantity suffices and the eligible quantity does not |
| `BookQueues.FillOrKillRests` | apps/matching-engine/engine/matcher.go:91-94 | A concrete book on which it does, one filled and one resting |
| `BookQueues.PostOnlyRefusedIff` | apps/matching-engine/engine/matcher.go:446-459 | A post-only order is refused exactly when a level stands opposite at its price or better |
| `BookQueues.EmptyLevelRefuses` | apps/matching-engine/engine/matcher.go:96-101 | A concrete book on which an empty level, left by cancelling both orders, refuses a post-only order |
| `BookQueues.PostOnlyRests` | apps/matching-engine/engine/matcher.go:446-459 | One that is not refused rests whole behind the orders of its price, without trading |
| `Modifiers.PostOnlyNeverTakes` | apps/matching-engine/engine/matcher.go:446-459 | A post-only limit order never trades and leaves the opposite side alone |
| `Modifiers.NeverRests` | apps/matching-engine/engine/matcher.go:154-163 | Market and immediate-or-cancel orders never rest |
| `BookQueues.MatchQueues` | apps/matching-engine/engine/matcher.go:54-256 | The whole book after a match, queue by queue: opposite side swept, own side unchanged or with the order inserted |
| `BookQueues.FlatWithout` | apps/matching-engine/engine/matcher.go:271-284 | Cancelling in the level structure is removing the first order of that name from the flat queue |
| `BookQueues.MatchCarries` | apps/matching-engine/engine/matcher.go:54-256 | Whatever every order carries that matching does not change is carried through a match, stops included |
| `BookQueues.RefusedIff` | apps/matching-engine/engine/matcher.go:58-74 | An order is refused exactly when it is a priced limit fill-or-kill order and less than it asks, or nothing, is offered at prices that suit it, or it is post-only and the best opposite price suits it |
| `BookQueues.OrderEnds` | apps/matching-engine/engine/matcher.go:154-163 | Every accepted order ends filled; or cancelled, because it met an own order in a mode that cancels it or is immediate-or-cancel; or open, and then it rests exactly if it is a limit order |
| `BookQueues.SequenceMoves` | apps/matching-engine/engine/matcher.go:105-144 | The sequence number counts trades and orders that come to rest, and the last price is the last trade's |
| `BookQueues.CancelTakesOne` | apps/matching-engine/engine/matcher.go:266-301 | A cancel takes exactly one order out, the first of its name among the armed stops, else the bids, else the asks, and touches nothing else; it finds nothing exactly when no order has that name |
| `Accounts.GetFeeRates` | apps/matching-engine/engine/fees.go:139-161 | Override first, else the rates of the last tier reached, else the defaults |
| `Accounts.LastTierWins` | apps/matching-engine/engine/fees.go:148-160 | Of the tiers a volume reaches the one listed last gives the rates; without one the defaults stand |
| `Accounts.RatesAre` | apps/matching-engine/engine/fees.go:139-161 | A personal override is both rates; otherwise the last tier the volume reaches, a volume not recorded being zero, and without one the defaults |
| `Accounts.FundsMove` | apps/matching-engine/engine/risk.go:491-545 | Each movement changes one balance or one hold by exactly the amount unless that would take it below zero, and nothing else; a release does nothing for a user without holds |
| `Accounts.RatesOfOk` | apps/matching-engine/engine/fees.go:139-161 | A schedule with sensible entries gives sensible rates to every user |
| `Execution.ExecutionEngine.CalculateFeeForUser` | apps/matching-engine/engine/fees.go:198-247 | The asset and amount of a fee: the market's fee asset, or VLX at the converted and discounted amount when preferred and affordable from the free balance; what it is worth is `ChargeIff` |
| `Accounts.ChargeIff` | apps/matching-engine/engine/fees.go:198-247 | A fee is paid in VLX exactly when the user prefers it and his free VLX is worth three quarters of the raw fee, and then it is VLX worth exactly that at the listed prices, with 2.5 and 1.0 for missing or non-positive ones |
| `Accounts.ChargeThree` | apps/matching-engine/engine/fees.go:231-235 | Three VLX for a raw fee of ten at the default prices |
| `Execution.ExecutedInTurn` | apps/matching-engine/engine/execution.go:46-109 | The record has one execution for each trade, charged from the funds as the trades before it left them |
| `Execution.ExecuteFees` | apps/matching-engine/engine/execution.go:52-62 | Buyer and seller are charged on quantity times price, the buyer at his taker rate and the seller at his maker rate |
| `Execution.ExecutionEngine.ProcessTrade` | apps/matching-engine/engine/execution.go:52-105 | One trade: fees from the balances as they are, both holds released, both balances moved, in that order |
| `Execution.ExecutionEngine.ProcessTrades` | apps/matching-engine/engine/execution.go:46-109 | All trades in order, with the executions appended to the record |
| `Execution.RiskEngine.DepositAsset` | apps/matching-engine/engine/risk.go:272-280 | A deposit adds to one balance |
| `Execution.RiskEngine.GetAvailableBalance` | apps/matching-engine/engine/risk.go:283-302 | Balance minus hold, never below zero |
| `Execution.RiskEngine.ReleaseHold` | apps/matching-engine/engine/risk.go:491-501 | A release never takes a hold below zero and does nothing for a user without holds |
| `Execution.RiskEngine.UpdateBalance` | apps/matching-engine/engine/risk.go:533-544 | An adjustment never takes a balance below zero |
| `Execution.RiskEngine.TryHold` | apps/matching-engine/engine/risk.go:464-485 | The hold is taken exactly when the free balance suffices |
| `Execution.RiskEngine.AddInsuranceFundReserves` | apps/matching-engine/engine/risk.go:233-239 | The fund of one asset changes by the amount |
| `OmsState.OMSStateMachine.SubmitOrder` | apps/matching-engine/engine/oms_state.go:35-58 | Submission tracks the order as created, and audits it unless the database insert fails, which ends the request |
| `OmsState.OMSStateMachine.TransitionOrder` | apps/matching-engine/engine/oms_state.go:61-102 | A move is applied exactly when the lifecycle allows it; a forbidden move and a stored one are audited, and a failing database update is reported, not audited and not undone |
| `OmsState.GoesBackIff` | apps/matching-engine/engine/oms_state.go:210-253 | An allowed move goes back exactly when it is a move to the created stage |
| `OmsState.NeverGoesBack` | apps/matching-engine/engine/oms_state.go:210-253 | Through any attempted moves a final stage never changes, and short of moves to the created stage an order never goes back |
| `OmsState.EnteredFrom` | apps/matching-engine/engine/oms_state.go:210-253 | For every stage, exactly the stages it is entered from |
| `Router.OMSRouter.ProcessIncomingOrder` | apps/matching-engine/engine/oms_router.go:212-500 | The router's step-by-step processing of an order over the four engines is exactly the value-level desk operation, accepts exactly the orders that pass database, rules and risk checks, and keeps every booked order tracked |
| `Router.OMSRouter.CancelOrder` | apps/matching-engine/engine/oms_router.go:503-543 | A cancel request takes the order off the book, moves its stage and releases the hold of its open part, exactly as the desk operation says, and answers which step it stopped at |
| `Funding.AnswerTells` | apps/matching-engine/engine/oms_router.go:503-543 | What a cancel request answers tells exactly what it did: nothing, off the book alone, moved without a release, or all of it |
| `Funding.RefusalStage` | apps/matching-engine/engine/oms_router.go:212-257 | A submission that is not accepted is left in the stage its failure says and touches nothing else |
| `Router.OMSRouter.ValidateOrder` | apps/matching-engine/engine/risk.go:305-310 | The reservation is exempted for the liquidation engine, refused when not admitted, and otherwise taken exactly when affordable |
| `Router.OMSRouter.MatchEverywhere` | apps/matching-engine/engine/oms_router.go:280-386 | Local match, then off the book, along the external levels and back, changes book, order and trades as prescribed |
| `Router.TakeExternal` | apps/matching-engine/engine/oms_router.go:308-376 | The external loop fills at crossing levels, best first, skipping empty ones, until filled |
| `Router.OMSRouter.BookSurplus` | apps/matching-engine/engine/oms_router.go:419-458 | The fund gains what each trade of the liquidation engine brings; how much that is, in prices and quantities, is `FundChange` |
| `Router.OMSRouter.SyncFills` | apps/matching-engine/engine/oms_router.go:468-492 | Taker and local makers are synchronised in the register: filled quantities and stages |
| `Router.ProcessKeeps` | apps/matching-engine/engine/oms_router.go:212-500 | One submission keeps the book sound and every booked order tracked |
| `DeskRuns.MatchAllSound` | apps/matching-engine/engine/oms_router.go:307-385 | Going out to the external book and coming back keeps the book uncrossed and well-formed |
| `DeskRuns.LeftClear` | apps/matching-engine/engine/oms_router.go:290 | An order that goes out has left nothing behind that it could still trade with |
| `DeskRuns.PostOnlyTakesOutsideIff` | apps/matching-engine/engine/oms_router.go:290-376 | An accepted post-only limit order trades exactly when it reaches an external level, because only the local book is asked |
| `DeskRuns.PostOnlyTakes` | apps/matching-engine/engine/oms_router.go:290-376 | An empty book and an external level that a post-only buy takes |
| `DeskRuns.OutLevelByLevel` | apps/matching-engine/engine/oms_router.go:304-376 | Where every external level has a quantity: trade after trade at the levels' prices, each accepted, with the external party, for all of each level but perhaps the last |
| `DeskRuns.OutEnds` | apps/matching-engine/engine/oms_router.go:304-376 | The external walk stops only when the order is complete, the levels are used up, or the next does not cross; an order that is not complete has taken all of every level it traded with |
| `DeskRuns.OutGains` | apps/matching-engine/engine/oms_router.go:304-376 | An order gains externally the sum of its external trades |
| `DeskQueues.AllQueues` | apps/matching-engine/engine/oms_router.go:280-385 | Both queues after the local and external match together: opposite swept, own side as before with the open rest in its place |
| `Insurance.FillIsNoLoss` | apps/matching-engine/engine/oms_router.go:431-457 | A fill that respects the limit of a liquidation order standing at its named price never takes the loss branch |
| `Insurance.NoLossBranch` | apps/matching-engine/engine/oms_router.go:419-458 | No trade of a request, local or external, taking or resting, takes the loss branch, so auto-deleveraging is not reached |
| `Insurance.FundNeverDecreases` | apps/matching-engine/engine/oms_router.go:419-458 | Over every run the insurance fund never decreases, provided liquidations are limit orders |
| `Insurance.FundChange` | apps/matching-engine/engine/oms_router.go:419-458 | A request changes the fund by the sum, over the trades of the liquidation engine, of quantity times what the price is better than the record's, above it in a sale and below it in a purchase |
| `Insurance.FundGrowsIff` | apps/matching-engine/engine/oms_router.go:419-458 | A request makes the fund grow if and only if one of its liquidation fills is at a better price than the bankruptcy price on record |
| `Insurance.FundIsEdges` | apps/matching-engine/engine/oms_router.go:419-458 | Over every run the fund changes by the sum of these gains |
| `Insurance.FundGrowsThroughout` | apps/matching-engine/engine/oms_router.go:419-458 | Over every run the fund grows if and only if some liquidation fill was at a better price |
| `Insurance.EmptyIsInsured` | apps/matching-engine/engine/oms_router.go:42-71 | An empty book satisfies the invariant |
| `OmsAgreement.OtherBooked` | apps/matching-engine/engine/oms_router.go:476-492 | A record that was there before gains exactly the fills made on its order, and is marked filled exactly when they complete it |
| `OmsAgreement.TakerBooked` | apps/matching-engine/engine/oms_router.go:468-474 | The incoming order's record gets its filled quantity and the filled stage exactly when complete |
| `OmsAgreement.TradedAll` | apps/matching-engine/engine/oms_router.go:280-388 | On the trades of one submission the incoming order traded what it was filled, and every other order its fills |
| `OmsAgreement.QueuesLinked` | apps/matching-engine/engine/oms_router.go:468-492 | After a submission every resting order agrees with its record |
| `OmsAgreement.QueuesUnique` | apps/matching-engine/engine/oms_router.go:280-385 | After a submission still no identifier rests twice |
| `OmsAgreement.WithdrawAgrees` | apps/matching-engine/engine/oms_router.go:503-543 | After a cancel request book, register and history agree |
| `OmsAgreement.RegisterAgrees` | apps/matching-engine/engine/oms_router.go:212-543 | Through every run without stop orders, each resting order is filled in the book as in the register, each record's filled quantity is its initial fill plus its trades, and it is in the filled stage exactly when completely filled |
| `StopFills.StopRunsAgreeIff` | apps/matching-engine/engine/matcher.go:395-401 | After a launched match of a triggered stop the register agrees with all that was traded if and only if the match traded nothing |
| `StopFills.StopIsArmed` | apps/matching-engine/engine/oms_router.go:260-277 | An accepted stop order is armed at its stop price, or its price if it has none, and trades nothing |
| `StopFills.StopRunParts` | apps/matching-engine/engine/matcher.go:395-401 | The run after which two are bought, the book is empty, and the register has one open and the stop order unfilled |
| `Claims.SweepCovered` | apps/matching-engine/engine/matcher.go:76-145 | Potential: the claims of the queue and of the incoming order cover the claims left after the sweep and everything its trades release |
| `Claims.OutCovered` | apps/matching-engine/engine/oms_router.go:308-376 | The external walk likewise never releases more than the order's claim gives up |
| `Claims.MatchCovered` | apps/matching-engine/engine/oms_router.go:280-388 | The claims on the book and of a submission cover the claims left and all its trades release |
| `Payments.SettleExact` | apps/matching-engine/engine/execution.go:82-105 | When a user's holds cover a trade, settling it releases exactly what is owed and moves exactly what was traded and charged: nothing is cut off at zero |
| `Payments.SettleAt` | apps/matching-engine/engine/execution.go:82-105 | Whatever the funds: a hold goes down by what the trade releases and a balance changes by what is traded and charged, each cut off at zero |
| `Payments.SettleSane` | apps/matching-engine/engine/execution.go:82-105 | However short the funds, settling a trade keeps a user's holds within the balances |
| `Payments.SettleAllExact` | apps/matching-engine/engine/execution.go:46-109 | The same for all trades of a submission |
| `Payments.SettleAllHeld` | apps/matching-engine/engine/execution.go:46-109 | Over all trades a hold goes down by the sum of what they release, cut off at zero once |
| `Payments.SettleAllPays` | apps/matching-engine/engine/execution.go:46-109 | Over a buyer's trades the quote balance goes down by what was charged, cut off at zero once |
| `Payments.ChargeCases` | apps/matching-engine/engine/fees.go:198-247 | A fee is the raw fee in the market's fee asset, or a VLX amount within the free VLX balance |
| `Payments.PartiesMove` | apps/matching-engine/engine/execution.go:82-105 | Between two users whose holds cover the trade, fees in the quote asset: balances and holds change by quantity, price times quantity, and the two fees at taker and maker rate |
| `Payments.SelfTradeInNativeIff` | apps/matching-engine/engine/execution.go:52-105 | Who trades with himself and pays both fees in VLX is charged both in full exactly when the balance covers their sum |
| `Payments.SelfTradeUndercharged` | apps/matching-engine/engine/execution.go:52-105 | Two fees of 0.75 VLX charged to a balance of 1 VLX |
| `Solvency.Reserved` | apps/matching-engine/engine/risk.go:387-416 | The reservation covers the new order's claim |
| `Solvency.CancelFreesIff` | apps/matching-engine/engine/oms_router.go:522-536 | A stored cancel frees the hold of its own order if and only if the market's asset is the one it names: a buy when the quote asset is USDT, a sell when the base asset is BTC |
| `Solvency.PlaceIsExactIff` | apps/matching-engine/engine/execution.go:82-105 | Booking an accepted order takes exactly what its trades release out of a covered user's quote hold if and only if the hold covers it; then every hold and balance changes by exactly the released, traded and charged amounts |
| `Solvency.BuyPaysIff` | apps/matching-engine/engine/execution.go:90-96 | A buyer is charged in full if and only if the quote balance covers the charge; otherwise the balance ends at zero |
| `Solvency.FittingPays` | apps/matching-engine/engine/risk.go:405-411 | Every submission but the user's own market buys is covered by what is held, for a user whose post-only buys fit the rates |
| `Solvency.PlaceCoveredIff` | apps/matching-engine/engine/oms_router.go:280-500 | A covered user is covered after anybody's submission if and only if its trades do not release more of the quote hold than it has, the reservation included, over what stays open |
| `Solvency.MarketBuyIff` | apps/matching-engine/engine/risk.go:405-411 | A market buy leaves a covered user short if and only if he is its owner, has open buys, and its trades release more than it reserves and he has in excess |
| `Solvency.FittingMarketBuy` | apps/matching-engine/engine/risk.go:405-411 | A market buy that names a price no lower than any it could meet leaves nobody short |
| `Solvency.WithdrawCoveredIff` | apps/matching-engine/engine/oms_router.go:503-543 | A covered user is covered after a cancel request if and only if it does not release the asset of his other orders below their claims |
| `Solvency.CoveredThroughout` | apps/matching-engine/engine/oms_router.go:212-543 | In every spot market and through every run: a covered user stays covered all along if and only if no request overdraws him |
| `Solvency.EveryOrderStaysBacked` | apps/matching-engine/engine/execution.go:52-105 | Through every run of deposits, limit and market submissions and cancels, in every spot market whose assets the cancels do not confuse, and for every user whose own post-only buys fit his rates: his holds cover what his open orders may still cost, all along, if and only if none of his market buys releases more than it reserves and he has in excess |
| `Solvency.EmptyIsSolvent` | apps/matching-engine/engine/risk.go:272-280 | Deposits on an empty desk are a solvent start |
| `Solvency.PostOnlyBuyIsShort` | apps/matching-engine/engine/risk.go:405-411 | A post-only buy completely filled at its own price releases more than it reserved exactly when the taker rate exceeds the maker rate |
| `Shortfall.BackedIff` | apps/matching-engine/engine/risk.go:405-411 | Every run from an empty desk whose market buys fit stays solvent if and only if no user's taker rate exceeds the maker rate, the quote asset is not BTC and the base asset is not USDT |
| `Shortfall.ShortRunFails` | apps/matching-engine/engine/oms_router.go:229-233 | Where the taker rate is the higher one: the run of deposits, a limit buy, a post-only buy and a sale after which the limit buy is not covered by the hold |
| `Shortfall.HastyRunFails` | apps/matching-engine/engine/risk.go:405-411 | At any rates: the run in which a market buy that names no price leaves another open order uncovered |
| `Shortfall.PennilessBuys` | apps/matching-engine/engine/execution.go:90-96 | A user without any means who names no price gets what is offered and pays nothing |
| `Shortfall.SellCancelFails` | apps/matching-engine/engine/oms_router.go:534-536 | Where the quote asset is BTC: the run in which cancelling a sell takes from the hold of a buy |
| `Shortfall.BuyCancelFails` | apps/matching-engine/engine/oms_router.go:526-533 | Where the base asset is USDT: the run in which cancelling a buy takes from the hold of a sell |
| `Shortfall.SellKeepsHold` | apps/matching-engine/engine/oms_router.go:534-536 | Where the base asset is not BTC, as in ETH-USDT: the run in which a cancelled sell keeps its hold |
| `Funding.HoldsWithinBalances` | apps/matching-engine/engine/execution.go:82-105 | Through every run, stop orders included, whoever runs short and whatever a cancel releases by the wrong name: no user's hold of an asset exceeds the balance |
| `Funding.EmptyIsFunded` | apps/matching-engine/engine/risk.go:272-280 | Deposits on an empty desk are a start for that, and nobody has VLX on hold |
| `Funding.SpotReservation` | apps/matching-engine/engine/risk.go:387-416 | What a spot order reserves: quantity times price with the fee at the maker or taker rate, or the quantity sold |
| `Funding.FuturesReservation` | apps/matching-engine/engine/risk.go:387-403 | What a futures order reserves: its value over the user's leverage, 20 by default |
| `Funding.AcceptsIff` | apps/matching-engine/engine/oms_router.go:212-277 | When a submission gets as far as the book |
| `Excess.QueueAccount` | apps/matching-engine/engine/matcher.go:76-145 | The claims of a swept queue go, to the last term, into the claims of the queue left, what the trades release, what self-trade prevention cancels, and the spreads between reserved and released fees |
| `Excess.PlaceExcess` | apps/matching-engine/engine/oms_router.go:280-500 | A submission whose trades the hold covers changes the hold's excess over the claims by its reservation, less its resting claim, less what its own side of the trades releases, plus what the orders it meets leave |
| `Excess.ExcessNeverShrinks` | apps/matching-engine/engine/execution.go:52-105 | Through every run in which the user's market buys stay within their reservation and his post-only buys fit his rates, what his hold exceeds the claims of his open orders by never shrinks |
| `Excess.RefusedForever` | apps/matching-engine/engine/oms_router.go:278-390 | The hold of an order the matcher refuses is never freed: after any further run the owner's hold exceeds all claims by at least what was reserved for it |
| `Excess.RefusedIsStuck` | apps/matching-engine/engine/oms_router.go:503-515 | A refused order stays queued with its hold, and no cancel request finds it |
| `Excess.WithdrawExcess` | apps/matching-engine/engine/oms_router.go:503-543 | A cancel leaves the excess as it is when its new stage is stored and it names the asset the order claims; otherwise nothing is freed and the claim turns into excess, and when the stage is not stored no hold changes at all |
| `Positions.RecordedExact` | apps/matching-engine/engine/position.go:194-283 | Opening, adding, reducing, closing or flipping keeps margin times leverage equal to size times entry price |
| `Positions.FirstExecution` | apps/matching-engine/engine/position.go:194-226 | The first execution opens a position at its own price and margin, with nothing realized |
| `Positions.BankruptAtZero` | apps/matching-engine/engine/position.go:68-81 | The collateral is zero exactly at the bankruptcy price |
| `Positions.LiquidationIsExact` | apps/matching-engine/engine/position.go:43-65 | A long is liquidated exactly at or below its liquidation price, a short exactly at or above it |
| `Positions.RatioIs` | apps/matching-engine/engine/position.go:26-50 | The margin ratio times what the position is worth is size times mark times maintenance rate, and 999 when it is worth nothing or less |
| `Positions.PricesAre` | apps/matching-engine/engine/position.go:53-81 | Bankruptcy lies the entry price over the leverage away from the entry price, below for a long and above for a short; without a size there is neither price |
| `Positions.EveryPositionIsExact` | apps/matching-engine/engine/position.go:22-81 | All of this holds of every position built by routed executions at a fixed leverage |
| `Positions.CashStep` | apps/matching-engine/engine/position.go:194-283 | One execution, whatever branch it takes, changes size by its quantity and realized minus size times entry by what was paid |
| `Positions.ProfitIsCashFlow` | apps/matching-engine/engine/position.go:22-25 | Over every run of executions realized plus unrealized profit at any mark is what the trades earned |
| `Positions.FuturesPosition.Record` | apps/matching-engine/engine/position.go:227-282 | The in-place update of a position is the recorded position of the specification |
| `Positions.FuturesPosition.CalculateMarginRatio` | apps/matching-engine/engine/position.go:43-50 | The margin ratio, with 999 for exhausted collateral |
| `Positions.PositionEngine.RecordFuturesExecution` | apps/matching-engine/engine/position.go:194-283 | One tracked position is created or updated, all others stay |
| `Positions.PositionEngine.ResetPosition` | apps/matching-engine/engine/position.go:286-298 | One tracked position is left without size, margin and entry price and keeps its realized profit |
| `Positions.PositionEngine.EvaluatePositionsRisk` | apps/matching-engine/engine/risk.go:191-230 | In whatever order positions are visited, exactly the due ones of the symbol are handed over at their bankruptcy price; each is left without size, margin and entry price and keeps its realized profit, what was handed over is its whole size, and nothing is due afterwards |
| `Positions.EvaluateTwice` | apps/matching-engine/engine/risk.go:191-230 | A second evaluation of a symbol at the same mark hands nothing over |
| `Positions.HandedOver` | apps/matching-engine/engine/position.go:286-298 | A position handed over shows no profit at any mark, keeps what it has realized, and is not due at any mark |
| `Settlement.SettlementBalances` | apps/matching-engine/engine/settlement.go:249-418 | The debits and credits of a settlement balance in every asset, with fees in any asset and coinciding accounts |
| `Settlement.NetIsTrade` | apps/matching-engine/engine/settlement.go:249-418 | The movements of a settlement bring every account, whichever parties and assets coincide, exactly what price, quantity and fees say |
| `Settlement.PartiesNet` | apps/matching-engine/engine/settlement.go:266-350 | Fees in the quote asset: the buyer pays price times quantity and his fee, the seller gets price times quantity less his, the platform gets both |
| `Settlement.PartiesNetThird` | apps/matching-engine/engine/settlement.go:266-350 | Fees in a third asset are paid there as charged, and the value is paid in full |
| `Settlement.SettledTotals` | apps/matching-engine/engine/settlement.go:235-444 | When its rows are there, a settlement goes through and changes every total by exactly what the trade brings it |
| `Settlement.TotalsAreTrades` | apps/matching-engine/engine/settlement.go:92-233 | Under any workers, every total is its initial total and what each completed trade brings the account, exactly when every debit found its row |
| `Settlement.ExplainedIff` | apps/matching-engine/engine/settlement.go:266-350 | The entries explain the totals exactly when every debit of something finds its row |
| `Settlement.EntryIdInjective` | apps/matching-engine/engine/settlement.go:352-418 | Ledger identifiers coincide only for the same leg of the same trade |
| `Settlement.ClashIff` | packages/database/migrations.go:55-66 | A second settlement of a completed trade always violates the ledger's primary key, a first one never does |
| `Settlement.SettledOnce` | apps/matching-engine/engine/settlement.go:92-233 | Under any workers, crashes, failures, lost updates and repeated submissions, balances and ledger are those of the completed trades, each settled once |
| `Settlement.AllOrNothing` | apps/matching-engine/engine/settlement.go:350-443 | A trade's postings are all in the ledger once exactly when it is completed, and none is otherwise; no ledger identifier repeats |
| `Settlement.LedgerExplains` | apps/matching-engine/engine/settlement.go:249-418 | Every total is the initial total plus credits minus debits in the ledger exactly when every debit found its row |
| `Settlement.UnexplainedSale` | apps/matching-engine/engine/settlement.go:296-302 | A seller without a base row is debited in the ledger and nowhere else, so ledger and total differ |
| `Settlement.EveryTransactionBalances` | apps/matching-engine/engine/settlement.go:352-418 | Every ledger transaction in the database balances in every asset |
| `Settlement.AttemptsBounded` | apps/matching-engine/engine/settlement.go:181-224 | With one worker a trade is attempted at most one time more than the retry limit plus once per lost status update; a given-up trade exactly that often, so within the limit if and only if no update was lost; and a completed or given-up trade stays so |
| `Settlement.FourthFailureGivesUp` | apps/matching-engine/engine/settlement.go:191-217 | A trade that fails three times is retried, and the fourth failure gives it up |
| `Settlement.AttemptsExplained` | apps/matching-engine/engine/settlement.go:181-224 | With any number of workers the attempts at a trade are exactly its recorded retries, plus its lost updates, plus what older copies have set its retry count back by |
| `Settlement.CountedIff` | apps/matching-engine/engine/settlement.go:191-217 | Under any workers a step keeps the attempts at a trade equal to the retries its row records if and only if it is no failing attempt whose update is lost or written from a copy with other retries than the row |
| `Settlement.CountedThroughout` | apps/matching-engine/engine/settlement.go:191-217 | Through a run of any workers the attempts are the recorded retries all along if and only if no event of the run is one of these |
| `Settlement.LostUpdatesExceed` | apps/matching-engine/engine/settlement.go:194-203 | One worker and lost updates: a trade attempted any number of times is still pending |
| `Settlement.CompletedForever` | apps/matching-engine/engine/settlement.go:216-224 | Under any workers a completed trade stays completed |
| `Settlement.TerminalIff` | apps/matching-engine/engine/settlement.go:181-224 | Under any workers a trade in a final state leaves it exactly when it is given up and is submitted anew, or a copy with retries left fails and its update is stored |
| `Settlement.TerminalThroughout` | apps/matching-engine/engine/oms_router.go:466 | Under any workers a trade in a final state stays in one through a run if and only if no event of the run revives it |
| `Settlement.SecondWorkerRevives` | apps/matching-engine/engine/oms_router.go:466 | From an empty start, with no update lost: four attempts give a trade up, and a second worker's older copy has it attempted a fifth time and waiting for a retry again |
| `Settlement.EmptyIsSound` | apps/matching-engine/engine/settlement.go:92-125 | An empty database is where every run may start |
| `Settlement.PassIsRun` | apps/matching-engine/engine/settlement.go:92-233 | One pass over the queue is a run of that worker |
| `Settlement.SettlementEngine.ExecuteSettlementTransaction` | apps/matching-engine/engine/settlement.go:235-444 | Statement by statement, the transaction takes full effect or none, and fails exactly on a failing statement, a duplicate entry or a failing commit; what it moves is `NetIsTrade` |
| `Settlement.SettlementEngine.ProcessQueue` | apps/matching-engine/engine/settlement.go:92-233 | The loop attempts each job once, records retry or failure as prescribed, and counts the completed and the given-up jobs |
| `Settlement.SettlementEngine.QueueSettlement` | apps/matching-engine/engine/settlement.go:59-89 | A job enters the memory queue and, unless the insert is lost, the durable queue |
| `Base58.ConvertInverts` | packages/common/address_crypto.go:25-81 | A change of number base that keeps leading zeros is undone by the change back |
| `Base58.DecodeEncode` | packages/common/address_crypto.go:25-81 | Decoding undoes encoding for every byte string, leading zeros included |
| `Base58.EncodeDecode` | packages/common/address_crypto.go:55-81 | Exactly the strings over the alphabet decode, and encoding undoes decoding for all of them |
| `Base58.EncodeBase58` | packages/common/address_crypto.go:25-52 | Division loop, in-place reversal and leading ones compute the encoding |
| `Base58.DecodeBase58` | packages/common/address_crypto.go:55-81 | Multiplication loop and leading zeros compute the decoding, or report a foreign letter |
| `Base58.Base58CheckEncode` | packages/common/address_crypto.go:91-96 | Version, payload and four digest bytes, encoded |
| `Base58.Base58CheckDecode` | packages/common/address_crypto.go:99-119 | For any digest function, decoding accepts exactly the encodings and returns the version and payload that were encoded |
| `Base58.LetterIndex` | packages/common/address_crypto.go:22-59 | Letters and positions of the alphabet determine each other |
| `Base58.AlphabetIs` | packages/common/address_crypto.go:22 | The alphabet is the digits and letters without 0, I, O and l, in the order of their codes |
| `Base58.CheckIsDigest` | packages/common/address_crypto.go:84-96 | The check bytes of an encoding are the first four of the digest of version and payload |
| `Base58.KnownEncoding` | packages/common/address_crypto.go:25-81 | The bytes 0, 1, 0 are 15R, both ways |
| `Idempotency.HandledOnce` | apps/backend/oms_handlers.go:1047-1100 | For any number of interleaved requests, with failures and crashes, the handler runs at most once for a key, and a replayed response is that execution's, given only for the same payload hash |
| `Idempotency.InsertKeeps` | packages/database/migrations.go:625-636 | The primary key lets at most one request per key go on to the handler |
| `Idempotency.ServedAlone` | apps/backend/oms_handlers.go:1047-1100 | The protocol steps taken without interruption do what the middleware does |
| `Idempotency.Records.Serve` | apps/backend/oms_handlers.go:1015-1102 | One undisturbed request: passed on when it has no key, user or database, handled and stored when the key is new, otherwise answered from the record |
| `Idempotency.ReplayIff` | apps/backend/oms_handlers.go:1047-1075 | A response is replayed exactly from a completed record with the same payload hash; when a request is turned away as in progress or different, and when it goes on |
| `Idempotency.InsertDecides` | apps/backend/oms_handlers.go:1078-1086 | A request whose insert fails or finds the key taken is turned away as a duplicate; otherwise the record holds its payload hash and it goes on |
| `Idempotency.QueryDecides` | apps/backend/oms_handlers.go:1050-1075 | The first query lets a request go on when it fails or finds nothing, and otherwise answers from the record |
| `Idempotency.UpdateStores` | apps/backend/oms_handlers.go:1088-1100 | The last update answers what the handler said and stores it unless it is lost |
| `Idempotency.ServeTwice` | apps/backend/oms_handlers.go:1015-1102 | A request sent again after it was handled gets the first response and does not run the handler |
| `Idempotency.ReplayedForever` | apps/backend/oms_handlers.go:1047-1100 | Once a response is stored, whatever other requests do, a later request of the key with the same payload hash is answered with it |
| `Deposits.CreditedOnce` | apps/wallet-service/wallet_worker.go:281-416 | Under any interleaving of workers, crashes and lost statements: one row per transaction hash, at most one credit per deposit, to its user and in its amount, confirmed implies credited, and balances are initial plus ledger credits |
| `Deposits.CreditedIffConfirmed` | apps/wallet-service/wallet_worker.go:281-416 | With one worker no event puts a credited deposit back, so a deposit is credited exactly when its row is confirmed |
| `Deposits.StepAgreesIff` | apps/wallet-service/wallet_worker.go:345-416 | For any workers, one step keeps credited and confirmed the same if and only if it does not put a credited deposit back |
| `Deposits.AgreeIff` | apps/wallet-service/wallet_worker.go:281-416 | For any workers, after a run credited and confirmed are the same if and only if no event of it put a credited deposit back |
| `Deposits.StuckForever` | apps/wallet-service/wallet_worker.go:405-413 | A credited deposit that was put back stays so |
| `Deposits.EmptyIsSound` | apps/wallet-service/wallet_worker.go:85-103 | An empty database is where every run may start |
| `Deposits.FirstScanIsGapless` | apps/wallet-service/wallet_worker.go:85-103 | The first scan starts with nothing left out behind the scanner state |
| `Deposits.SecondWorkerReopens` | apps/wallet-service/wallet_worker.go:405-413 | From an empty database, event by event: two workers leave a credited deposit confirming |
| `Deposits.NoBlockLeftOut` | apps/wallet-service/wallet_worker.go:64-163 | However scans stop and restart, no block behind the scanner state was left out, and transfers of cleanly scanned blocks are recorded |
| `Deposits.ConfirmKeeps` | apps/wallet-service/wallet_worker.go:353-404 | Crediting a deposit keeps one credit per deposit and the balance sums |
| `Deposits.WalletWorker.ScanRealBlock` | apps/wallet-service/wallet_worker.go:184-235 | The loop over a block's transfers records each new positive one |
| `Deposits.WalletWorker.ScanBlocks` | apps/wallet-service/wallet_worker.go:64-163 | One scan covers the window after the last scanned block, advancing the scanner state block by block, with a failure of any read or statement taken into account |
| `Deposits.WalletWorker.ConfirmDeposits` | apps/wallet-service/wallet_worker.go:281-416 | One pass checks each listed deposit once |
| `Deposits.PassIsRun` | apps/wallet-service/wallet_worker.go:281-416 | A confirmation pass is a run of that worker |
| `Deposits.ScanIsRun` | apps/wallet-service/wallet_worker.go:64-163 | A scan is a run of that worker, with faults wherever they fall |
| `Deposits.PassCredits` | apps/wallet-service/wallet_worker.go:281-416 | A pass credits exactly the listed deposits with at least 12 confirmations whose transaction does not fail |
| `Deposits.RowAfterCheck` | apps/wallet-service/wallet_worker.go:345-416 | A check leaves its deposit with the confirmations found, confirmed from 12 on and confirming below, credits what was listed, and touches no other row |
| `Deposits.CleanScan` | apps/wallet-service/wallet_worker.go:64-163 | A scan without faults leaves a row for every positive transfer of its window and ends at the window's last block |
| `Deposits.WindowIs` | apps/wallet-service/wallet_worker.go:113-127 | The window is the blocks after the last scanned one, or the tip when there is none, at most 51 of them, and ends early only when it holds 51 |
| `Deposits.ScanStarts` | apps/wallet-service/wallet_worker.go:64-135 | The scanner state after the start of a scan: where it was or just behind the tip, past the window when no address is tracked, and still missing when its insert fails |
| `Deposits.RowsAfterScan` | apps/wallet-service/wallet_worker.go:184-235 | Scanning a block keeps every row and adds one exactly for each new hash with a positive transfer whose insert does not fail, saying what the first such transfer says |
| `Candles.IntervalsTile` | apps/matching-engine/engine/candles.go:49-89 | Intervals of one width tile time |
| `Candles.IntervalsNest` | apps/matching-engine/engine/candles.go:49-89 | Finer intervals nest in coarser ones, from one minute to one week |
| `Candles.WeekIsTruncation` | apps/matching-engine/engine/candles.go:77-83 | The weekday formula for weeks is truncation to seven days from a Monday |
| `Candles.NextVolumes` | apps/matching-engine/engine/candles.go:121-122 | Rounding after every addition does not accumulate error |
| `Candles.CoarseIsRollUp` | apps/matching-engine/engine/candles.go:91-162 | For trades in time order every stored coarse candle is the roll-up of the stored finer candles in it, and is stored exactly when there are any |
| `Candles.SeriesIsStored` | apps/matching-engine/engine/candles.go:99-160 | The candles stored for an interval are its series, in time order |
| `Candles.CandleEngine.ProcessTrade` | apps/matching-engine/engine/candles.go:91-174 | One trade updates the candle of every interval before the one at which the database fails, if any, a candle that cannot be read going into the conflict branch of the insert |
| `Candles.CandleEngine.UpdateCandle` | apps/matching-engine/engine/candles.go:106-162 | A stored candle is updated field by field, a missing one is started, and the insert of one that is there unread goes into it |
| `Candles.FailedReadIff` | apps/matching-engine/engine/candles.go:144-162 | A failed read does no harm if and only if the candle has traded at this one price only |
| `Candles.AllRead` | apps/matching-engine/engine/candles.go:99-160 | Without failed reads the candles are those of the series |
| `Candles.StoredSummarizes` | apps/matching-engine/engine/candles.go:91-162 | For any trades in any order a candle is stored exactly for the intervals that saw one, with the first and last price, the extreme prices, the quantity, the value to half a unit of the eighth decimal per trade, and their number |
| `Candles.IntervalLengths` | apps/matching-engine/engine/candles.go:49-89 | The eight interval lengths in seconds |
| `Candles.Nearest` | apps/matching-engine/engine/candles.go:44-47 | Rounding is to the nearest eighth decimal, halves upwards for amounts that are not negative |
| `Candles.StoredBefore` | apps/matching-engine/engine/candles.go:91-174 | A failure at the n-th interval leaves the first n written |
| `Depth.TruncateFirst` | apps/matching-engine/engine/oms_router.go:114 | Cutting the local side to n levels before merging loses nothing among the first n |
| `Depth.AggregatedIsBest` | apps/matching-engine/engine/oms_router.go:107-200 | The aggregated depth is sorted, holds n levels or all there are, and every level left out is no better than any shown |
| `Depth.MergePermutes` | apps/matching-engine/engine/oms_router.go:136-165 | The merge is a permutation of both sides |
| `Depth.MergeSorted` | apps/matching-engine/engine/oms_router.go:136-165 | The merge of sorted sides is sorted |
| `Depth.LocalFirst` | apps/matching-engine/engine/oms_router.go:138-165 | At a price that both sides hold the local level stands ahead of the external one, and no other two levels share a price |
| `Depth.MergeSides` | apps/matching-engine/engine/oms_router.go:138-165 | The two-index loop computes the merge |
| `Depth.GetL2Depth` | apps/matching-engine/engine/matcher.go:304-332 | The depth of a side lists the first levels with the open quantity of their orders |
| `Depth.DepthIsSorted` | apps/matching-engine/engine/matcher.go:304-332 | A well-formed side shows its depth best first |
| `Depth.AggregateSide` | apps/matching-engine/engine/oms_router.go:107-200 | One side of the depth shown to clients, with or without an external book |

## Left out

- Matching.Matcher.MatchOrder: price levels are values in the sides' sequences rather than shared objects; orders are objects and are updated in place.
- Solvency.EveryOrderStaysBacked: no stop orders, because the trades of triggered stops are not reported to the router. The in-memory holds are modelled; the database-side `reserved` column is not, because release and settlement both decrement it.
- Funding.HoldsWithinBalances: self-trades may be allowed when nobody pays fees in VLX or nobody has VLX on hold, which holds from an empty desk in every market without VLX; in a market that trades VLX itself the two fees of a self-trade could take from what is on hold.
- OmsAgreement.RegisterAgrees: runs without stop orders; what the trades of a triggered stop do to the agreement is `StopRunsAgreeIff`.
- OmsState.OMSStateMachine.TransitionOrder: the register holds the orders in memory; loading one from the database is not modelled.
- Router.OMSRouter.ProcessIncomingOrder: position updates, settlement queueing and notifications after the trades are not joined in; positions and settlement have their own modules. Trading-rule validation and risk screening (halts, blocks, rate, volume and price-band limits) are parameters, as is the external book; the hedge call is not modelled. A submission carries an identifier not used before. Moves whose answer the router ignores may or may not be stored; only the audit differs.
- Router.OMSRouter.CancelOrder: the register holds the orders in memory; loading an order from the database is not modelled.
- Router.OMSRouter.ValidateOrder: the halt, block, rate, volume and price-band screens are one parameter, because they read clocks and settings and keep nothing the other parts use; the database reservation beside the in-memory one is not modelled.
- OmsState.OMSStateMachine.SubmitOrder: the panic after a failed insert is an answer on which the router stops.
- Deposits.NoBlockLeftOut: a failing insert of a deposit is only logged by the scanner and its block still counts as scanned, so transfers are recorded only for blocks scanned without one.
- Positions.EveryPositionIsExact: one leverage for all executions of a position; leverage is positive by type, as the router supplies it, so the zero results for leverage at most zero do not occur. Spot positions (`RecordExecution`), which keep the entry price across a flip, are not modelled.
- Settlement.SettlementEngine.ProcessQueue: the in-process history and the status object of a job are not modelled beside the durable rows; without a database the source puts a failed job back into memory. The double-entry check before a job always passes in exact arithmetic (`SettlementBalances`) and is not a separate branch. The order of the fetched jobs is whatever the query returned.
- Candles.CandleEngine.ProcessTrade: one market, trades with non-negative price and quantity; the cache is not modelled.
- Base58.Base58CheckDecode: the digest is an arbitrary function with 32-byte results; nothing is claimed about collisions.
- The number of confirmations a deposit needs can be configured; the model uses the default of 12.
- Trade and order timestamps and generated identifiers; trades are numbered instead.
- Floating-point rounding and the `Safe` conversions; candles keep their explicit rounding to eight decimals.
- ReplaceOrder, MassCancel, referral commissions, reduce-only and iceberg orders: no harder property than those proved.
- HTTP, messaging, caching, logging, metrics, cryptography, compliance, custody, sessions and the frontend.

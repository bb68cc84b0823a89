# ES futures alert bot: a Dafny model of its decision logic

The bot takes trading alerts over HTTP and turns them into orders on an Interactive Brokers
gateway: market and limit buys of the ES (E-mini S&P 500) future, and closing runs that
flatten every open ES position. Two sibling traders do the same for SPX index options and
SPY shares. Small scripts find the ES contracts the gateway lists, let the user choose some,
and save the choice to `selected_contracts.txt`; the bot loads that file at start-up.

This project models the sequential logic around the broker calls:

- the contract list: loading, requalification on connect, family search, sorting, interactive
  selection, the saved file format, and the rewrite of the default month in `config.py` and `.env`;
- snapshot normalisation (a price that is not positive is absent), the spread, and how a limit
  price is chosen;
- the order outcome: polling until an order is done, with or without the 30 s bound, and the
  result read from its final status;
- the closing engine shared by the futures bot, the option and stock traders, the detailed
  trader and the sell alerts: one offsetting order per non-zero position, each failure recorded
  and the loop continued, the filled quantities of successes totalled;
- the alert handlers and the two stand-alone bid/ask helpers.

The `ib_insync` `IB` object is the class `Broker.Gateway`. What the gateway answers is fixed by
constructor arguments:

- whether a session opens, as `connectError`;
- what a qualification returns or raises, as `qualify`;
- the ticker of a market-data request, as `quote`;
- the trade handed back by the n-th `placeOrder` call, or the error it raises, as `respond`;
  a trade is observed at integer poll ticks of 0.1 s;
- the portfolio and positions views.

What the bot changes is the gateway's state:

- the connection and its session;
- the log of every order placed;
- the multiset of open market-data subscriptions.

Objects whose fields the source updates are classes with `modifies` frames:

- `TradingBot`, `SpxOptionTrader`, `SpyStockTrader`, `DetailedTrader`;
- `ContractSelector`, `PriceGetter`.

Each method is proved against a specification function of the old state. The properties are
proved about those functions:

- the load/save round trip of the contract file;
- the netting orders flattening every position;
- stability of the month sort;
- the closed total being the sum of the fills of the successful entries, kept by every closing loop;
- the outcome of a bounded wait.

Files, typed lines and the `.env` text are parameters. A file read is missing, fails with an
OSError, does not decode as text (a ValueError), or yields its text. Typed lines are a sequence of
`Line(text)` or `Interrupt` (Ctrl-C); running out of lines is the `EOFError` that `input()` raises.

## Model

| member | source | states |
|---|---|---|
| Models.Failed | models.py:22-29 | a failed TradeResult carries the message and no order id, fill or price |
| Broker.FirstQualified | spx_option_trader.py:76-80 | Ok exactly when qualification returned a non-empty list, and then its first contract; a raise gives its error; an empty list gives the not-tradable error |
| Broker.Gateway.constructor | trading_bot.py:17 | a new gateway is disconnected, with no orders and no subscriptions, and answers through the given oracles |
| Broker.Gateway.ConnectAsync | trading_bot.py:79 | the error for that session, and the connection and session set exactly on success |
| Broker.Gateway.Disconnect | trading_bot.py:132 | the gateway is disconnected with no session |
| Broker.Gateway.PlaceOrder | trading_bot.py:304 | the order is appended to the log, and the answer is the one for its position in the log |
| Broker.Gateway.ReqMktData | trading_bot.py:243 | the ticker for the contract, and a subscription is added exactly when one came back |
| Broker.Gateway.CancelMktData | trading_bot.py:256 | one subscription to that contract is removed |
| Market.Positive | trading_bot.py:249-251 | Some exactly when the value is positive, and then the value unchanged |
| Market.Normalise | trading_bot.py:249-251 | each of bid, ask and last is present exactly when positive, and then equal to the ticker's |
| Market.Quote | trading_bot.py:236-266 | a snapshot exactly when the request answers, normalised from its ticker |
| Market.Spread | main.py:104-106 | a spread exactly when both sides are truthy, and then ask minus bid |
| Market.NormalisedSpread | spx_option_trader.py:351-368 | on a normalised ticker the spread exists exactly when bid and ask are both positive, and is then ask minus bid |
| Market.LimitPrice | trading_bot.py:284-296 | an explicit price wins; with no snapshot the error is "Could not get market data"; otherwise Ok exactly when the chosen side (ask for a buy, bid with use_bid) is truthy, else "Could not get market price" |
| Market.LimitPriceMirror | trading_bot.py:354-366 | a sell with use_ask resolves its price exactly as a buy without use_bid does, and the other way round |
| Market.QuotedPricePositive | trading_bot.py:284-296 | a price taken from a snapshot is positive and is the ticker's bid or ask; it exists exactly when the chosen side is positive |
| Market.OneSidedBook | trading_bot.py:284-296 | on a book with no bid a buy limit prices at the ask, a sell limit fails with "Could not get market price", and there is no spread |
| Polling.FirstDoneExists | trading_bot.py:432-433 | a trade done at some tick has a first tick at which it is done |
| Polling.SettleTick | trading_bot.py:432-433 | the unique first tick at which a settling trade is done |
| Polling.AwaitDone | trading_bot.py:432-433 | the unbounded poll loop stops at the first tick the trade is done |
| Polling.StopTick | trading_logic_detailed.py:121-127 | the bounded wait stops at the first done tick or at 300 ticks, and no earlier tick was done |
| Polling.AwaitBounded | trading_logic_detailed.py:121-127 | the bounded poll loop stops at that tick, so it always terminates |
| Polling.BoundedWaitAgrees | trading_bot.py:569-576 | the bounded wait ends done exactly when the trade is done within 300 ticks, and then agrees with the unbounded wait; otherwise it stops at 300 with the trade never done |
| Polling.DoneResult | trading_bot.py:435-455 | success exactly when the status is 'Filled', then 'Successfully bought/sold {filled} contracts at ${price}' with that fill and price; otherwise the status in the message, with the order id and no fill |
| Polling.SettledResult | trading_bot.py:408-461 | a placement that raised is a failure with its error; a placed order's result is read at its settle tick |
| Polling.SuccessCarriesFill | trading_bot.py:435-445 | a successful result comes from a placed order and carries the filled quantity and average price of its settled status |
| Polling.BoundedOutcomeSpec | trading_logic_detailed.py:131-157 | not done within 30 s gives 'Timeout' with the order id; done within 30 s gives the fill when 'Filled' and a failure with the status otherwise |
| Polling.BoughtResult | spy_stock_trader.py:150-171 | success exactly when the order was placed and settles 'Filled', then with fill, price and order id and the message 'Successfully bought {filled} <units> at ${price}'; a raise or another status is a failure without fill |
| Polling.AwaitBought | spy_stock_trader.py:148-171 | the buy's wait and result agree with that function |
| Polling.AwaitClose | trading_bot.py:633-650 | the short side's unbounded wait and outcome agree with the settle-tick outcome |
| Netting.Abs | trading_bot.py:629 | a non-negative value equal to x or -x |
| Netting.AbsInt | trading_bot.py:629 | x or -x, as a natural number |
| Netting.Trunc | trading_bot.py:172 | Python's int() on a float: truncation toward zero |
| Netting.TruncAbs | trading_bot.py:629 | int(abs(x)) equals abs(int(x)), so a short's order size is its truncated size |
| Netting.Offset | trading_bot.py:705-730 | no order for a flat position; otherwise an order of size abs(q) that sells exactly when q is long and brings the position to zero |
| Netting.NonZero | trading_bot.py:705-730 | at most as many sizes as given, every one non-zero |
| Netting.NonZeroSpec | trading_bot.py:705-730 | exactly the zero sizes are dropped: every non-zero size is kept as often as it occurs, and a size is kept just when it is a non-zero size of the list |
| Netting.OffsetOrders | trading_bot.py:705-730 | one order per non-zero position, in position order, each the offset of its position |
| Netting.Reals | trading_bot.py:705-730 | integer sizes viewed as reals, element by element |
| Netting.RealsPrefix | trading_bot.py:705-730 | the view commutes with taking a prefix |
| Netting.OffsetOrdersFlatten | trading_bot.py:705-730 | once every offsetting order is filled in full, the net position is zero |
| Netting.FlatIssuesNothing | trading_bot.py:728-729 | flat positions issue no order |
| Netting.SumOfSnoc | trading_bot.py:717 | the total grows by the new entry's amount |
| Netting.SumOfZero | trading_logic_detailed.py:299-317 | a total of amounts that are all zero is zero |
| Netting.NetOrderIsOffset | trading_bot.py:705-727 | the closing loop's order for a non-zero q (sell q, or buy abs(q)) is the netting's offset of q |
| Netting.ClosingSnoc | trading_bot.py:703-730 | a closing run over one more element appends that element's entries and orders |
| Netting.ClosingOrders | trading_bot.py:703-730 | a closing run keeps the earlier orders and appends its own, in element order |
| Netting.Count | spx_option_trader.py:210-228 | the number of kept elements, at most the length |
| Netting.ClosingCount | spx_option_trader.py:225-228 | when an element adds one entry if kept and none otherwise, a run has one entry per kept element |
| Netting.ClosingOneEach | spy_stock_trader.py:201-277 | with one entry and one order per element, entry i and the i-th new order belong to element i |
| Netting.ClosingPlacesNone | trading_logic_detailed.py:302-317 | with one order-independent entry and no order per element, the order log is unchanged and entry i is element i's |
| Netting.AnyOfSnoc | spx_option_trader.py:304 | some entry satisfies p after an append exactly when it did before or the new one does |
| Netting.AnyOfSpec | spx_option_trader.py:304 | the fold is true exactly when some entry satisfies p |
| Netting.Tally | spx_option_trader.py:300-304 | one pass's entries are appended, and the total and the float flag stay those of the results |
| ContractFile.ParseLine | trading_bot.py:33-47 | a contract only from a non-blank, non-comment line with at least four comma fields, always a FUT contract |
| ContractFile.ParseContractLines | trading_bot.py:33-47 | at most one contract per line |
| ContractFile.ParseContractLinesAppend | trading_bot.py:33-47 | lines are read independently: the contracts of two blocks are those of each, in order |
| ContractFile.ParseContractLinesSnoc | trading_bot.py:33-47 | one more line adds its contract, if any, at the end |
| ContractFile.SelectedOrDefault | trading_bot.py:49-65 | never empty: the file's contracts when it was read and yields some, else exactly the default contract |
| ContractFile.LoadSelectedContracts | trading_bot.py:27-65 | the loading loop returns that list |
| ContractFile.DataLines | contract_selector.py:197-199 | one data line per contract, in order |
| ContractFile.DataLinesSnoc | contract_selector.py:197-199 | one more contract adds its line at the end |
| ContractFile.ConcatSnoc | contract_selector.py:194-199 | writing one more line appends it to the text |
| ContractFile.Reloaded | trading_bot.py:38-46 | the reloaded contract is FUT with the same symbol, month, exchange, currency and multiplier |
| ContractFile.FileLinesConcat | trading_bot.py:33 | lines that each end in their only newline read back as themselves |
| ContractFile.LineIsJoin | contract_selector.py:199 | a data line's body is its five fields joined by commas |
| ContractFile.LineShape | contract_selector.py:199 | the data line of a writable contract ends in its only newline and its body has no surrounding whitespace and is no comment |
| ContractFile.FieldsHaveNoComma | contract_selector.py:199 | no field of a writable contract holds a comma |
| ContractFile.ParseFiveFields | trading_bot.py:34-46 | a five-field data line yields the FUT contract of those fields, multiplier included |
| ContractFile.ReadWrittenLine | trading_bot.py:34-46 | the line written for a writable contract is read back as its reloaded contract |
| ContractFile.ReadEveryLine | trading_bot.py:33-47 | when every line yields a contract the lines yield exactly those, in order |
| ContractFile.ReadDataLines | trading_bot.py:33-47 | the data lines of writable contracts read back one contract per line, in order |
| ContractFile.CommentLine | trading_bot.py:35 | a line starting with '#' yields no contract |
| ContractFile.TitleEndsLine | contract_selector.py:195 | the title comment is one line |
| ContractFile.FormatEndsLine | contract_selector.py:196 | the format comment is one line |
| ContractFile.HeaderIsComment | contract_selector.py:195-196 | the two header lines yield no contract |
| ContractFile.CommentedLinesEnd | setup_es_dec2025.py:43-46 | the header, an extra comment and one data line each end in their only newline |
| ContractFile.CommentedFileLines | setup_es_dec2025.py:43-46 | such a file reads back as exactly those four lines |
| ContractFile.CommentedParse | setup_es_dec2025.py:43-46 | of those four lines only the data line yields a contract |
| ContractFile.SavedLinesShape | contract_selector.py:194-199 | every line of a saved file ends in its only newline |
| ContractFile.SaveLoadRoundTrip | contract_selector.py:194-199 | loading a saved file of writable contracts gives one FUT contract per saved contract, in order, with the same five fields |
| ContractSelection.EsFuturesMembers | contract_selector.py:69-73 | exactly the ES/FUT/CME candidates are kept |
| ContractSelection.InsertByMonth | contract_selector.py:76 | insertion adds exactly that contract |
| ContractSelection.SortByMonth | contract_selector.py:76 | the sort is a permutation |
| ContractSelection.LexLeReflexive | contract_selector.py:76 | string order is reflexive |
| ContractSelection.NoEarlierThan | contract_selector.py:76 | in a sorted list every month is no earlier than a bound on the head |
| ContractSelection.InsertInFront | contract_selector.py:76 | a contract in front of a sorted list that starts no earlier keeps it sorted |
| ContractSelection.HeadBeforeTail | contract_selector.py:76 | a head no later than every element of a sorted tail keeps it sorted |
| ContractSelection.HeadBeforeInserted | contract_selector.py:76 | inserting a later contract keeps the head no later than the rest |
| ContractSelection.InsertKeepsSorted | contract_selector.py:76 | insertion keeps a list sorted by month |
| ContractSelection.SortIsSorted | contract_selector.py:76 | the sorted list is ordered by month |
| ContractSelection.InsertSameMonth | contract_selector.py:76 | insertion puts the contract in front of its own month's contracts and moves no other |
| ContractSelection.SortIsStable | contract_selector.py:76 | the contracts of each month keep the broker's order |
| ContractSelection.FoundSpec | contract_selector.py:63-83 | the found list is sorted by month, holds exactly the ES/FUT/CME candidates with their multiplicities, and is stable |
| ContractSelection.IndicesSpec | contract_selector.py:128 | present exactly when every piece parses as an integer, and then their values in order |
| Seqs.MapAllSpec | contract_selector.py:128 | a list comprehension whose element step may raise succeeds exactly when every element does, and then holds the images in order |
| ContractSelection.Picks | contract_selector.py:130-139 | present exactly when every index is in 1..n, and then the contracts at those positions in typed order, duplicates kept, all of them available contracts |
| ContractSelection.PickPieces | contract_selector.py:127-139 | the pieces either pick one available contract each or re-prompt |
| ContractSelection.Interpret | contract_selector.py:121-139 | q quits exactly where offered, all takes every contract exactly when it is not a quit, and a pick is non-empty and holds only available contracts |
| ContractSelection.PickIndices | contract_selector.py:130-139 | the validation loop returns those picks, or None at an index out of range |
| ContractSelection.RejectedLinesAreSkipped | contract_selector.py:117-142 | lines that re-prompt do not change how the prompt session ends |
| ContractSelection.ChosenAreAvailable | contract_selector.py:117-142 | every chosen contract is an available one |
| ContractSelection.ChosenNonEmpty | setup_bot.py:79-101 | without a 'q' exit a selection from a non-empty list is never empty |
| ContractSelection.QuitNeedsTheExit | setup_bot.py:81-101 | typing q quits where the prompt offers it and re-prompts in the setup script |
| ContractSelection.ReadLine | contract_selector.py:119-142 | one loop pass reads the line as the selection reading defines |
| ContractSelection.AskSelection | contract_selector.py:117-145 | the prompt loop returns the outcome of the selection function |
| ContractSelection.WriteSelection | contract_selector.py:194-199 | the writing loop produces the selection file text |
| ContractSelection.MonthLine | contract_selector.py:222-223 | the default-month line is never empty |
| ContractSelection.ConfigWithoutMonthLine | contract_selector.py:222-225 | without the exact default-month line the configuration is unchanged |
| ContractSelection.ConfigFirstMonthLine | contract_selector.py:222-225 | the first default-month line becomes the primary's month line and the scan goes on after it |
| ContractSelection.ConfigAlreadyCurrent | contract_selector.py:222-225 | a primary of the configured month leaves the configuration as it was |
| ContractSelection.SaveContractSelection | contract_selector.py:190-234 | the selection file, and the rewritten configuration when there is a primary and config.py was read |
| ContractSelection.ContractSelector.constructor | contract_selector.py:18-21 | a new selector is disconnected, with no available contracts |
| ContractSelection.ContractSelector.Connect | contract_selector.py:23-35 | the configured session's error, connected exactly on success, nothing changed on failure |
| ContractSelection.ContractSelector.Disconnect | contract_selector.py:37-42 | disconnected; the session is closed only if it was open |
| ContractSelection.ContractSelector.FindEsContracts | contract_selector.py:44-83 | the found list, also stored, when connected and the search found something; otherwise nothing, with the stored list unchanged |
| ContractSelection.ContractSelector.SelectContracts | contract_selector.py:104-145 | nothing without prompting when none are available; otherwise the chosen contracts, nothing on q or Ctrl-C, and EOFError when the input runs out |
| FuturesBot.Primed | trading_bot.py:279-281 | an empty exchange becomes CME and nothing else changes |
| FuturesBot.QualifiedAllFrom | trading_bot.py:84-96 | every qualified contract came from qualifying a listed contract, and the list is empty only when none qualified |
| FuturesBot.Requalified | trading_bot.py:97-121 | never empties a non-empty list, and is the qualified list, the search result or the list unchanged |
| FuturesBot.RequalifiedCases | trading_bot.py:97-121 | qualified list if non-empty, else the ES/CME/USD search result if non-empty, else the list unchanged |
| FuturesBot.EsPositionsSpec | trading_bot.py:164-205 | the non-zero ES portfolio items when there is one; only otherwise the non-zero ES entries of the positions view |
| FuturesBot.Ticket | trading_bot.py:284-301 | the ticket has the given side and size; a market order, or a limit order at the explicit price |
| FuturesBot.OrderStepSpec | trading_bot.py:268-516 | an order call places at most one order, on the primed first contract with the given side and size; success needs a placed, filled order and then reports 'Successfully bought/sold {filled} contracts at ${price}' with that fill and price; not connected fails with no order |
| FuturesBot.UnpricedLimitPlacesNothing | trading_bot.py:284-296 | a limit order on an unquoted side places nothing and fails with the price error |
| FuturesBot.TicketFor | trading_bot.py:298-304 | at most one order, exactly one when priced, on the contract with the order's side and size |
| FuturesBot.PlacementsSnoc | trading_bot.py:703-730 | one more order call appends what it places |
| FuturesBot.PlacementsCount | trading_bot.py:703-730 | order calls place at most one order each, exactly one each when priced |
| FuturesBot.NetOrders | trading_bot.py:705-730 | at most one order per position |
| FuturesBot.NetOrdersSpec | trading_bot.py:705-730 | the closing loop's orders are exactly the netting's offsetting orders of the positions |
| FuturesBot.NetSnoc | trading_bot.py:703-730 | one more position appends its orders, and its entry when non-zero |
| FuturesBot.NetAppendEntry | trading_bot.py:708-713 | a non-zero position's entry is appended after the earlier ones |
| FuturesBot.NetAppendStep | trading_bot.py:705-717 | one pass keeps the entries, the order log and the total in step |
| FuturesBot.NetAppendOrders | trading_bot.py:705-707 | one pass appends what its order call places |
| FuturesBot.NetPlacementsSpec | trading_bot.py:703-730 | the loop places what its order calls place, in position order |
| FuturesBot.TicketResultFill | trading_bot.py:714-716 | a successful order call had its ticket made and its order placed, and carries the settled fill and average price |
| FuturesBot.NetEntriesSpec | trading_bot.py:703-730 | entry i carries the side label and size of the i-th offsetting order, and the size is positive |
| FuturesBot.OneEachPlacements | trading_bot.py:703-730 | one order per call gives one order per offsetting order |
| FuturesBot.OneEachEntries | trading_bot.py:703-730 | then entry i carries the result of the i-th call |
| FuturesBot.TicketResultPriced | trading_bot.py:408-461 | a priced call's result is read from its placement |
| FuturesBot.PricedRunResults | trading_bot.py:694-745 | at market every offsetting order is placed, and entry i carries the result of the i-th order placed |
| FuturesBot.PricedPlacesOne | trading_bot.py:418-429 | a priced call places exactly one ticket |
| FuturesBot.PricedOrderResults | trading_bot.py:430-455 | a priced call's result is read from the n-th placement |
| FuturesBot.OrderStepOnFirst | trading_bot.py:415-429 | a connected call on the primed first contract primes the list, places the ticket if any and reads its result |
| FuturesBot.Quantities | trading_bot.py:703-705 | the position sizes, element by element |
| FuturesBot.ForceClosingSpec | trading_bot.py:537-666 | one entry and one market order per non-zero item, in order, long sells with a 30 s wait, short buys back without bound, raises recorded |
| FuturesBot.ForceEntryAtShape | trading_bot.py:553-666 | each item's entry has the shape of its side and outcome |
| FuturesBot.ForceTicketSpec | trading_bot.py:561-566 | a market order on the primed contract for the truncated size, selling exactly when long |
| FuturesBot.TradingBot.constructor | trading_bot.py:16-25 | disconnected, with the loaded (never empty) contract list and the given price printer |
| FuturesBot.TradingBot.PrimaryContract | trading_bot.py:67-69 | the first contract exactly when there is one |
| FuturesBot.TradingBot.Connect | trading_bot.py:71-126 | defaults for missing arguments; on success connected with the requalified list; on failure disconnected and the error re-raised; the list never becomes empty |
| FuturesBot.TradingBot.Disconnect | trading_bot.py:128-136 | disconnected; the session is closed only if it was open |
| FuturesBot.TradingBot.GetPositions | trading_bot.py:142-209 | the ES positions while connected, else none |
| FuturesBot.TradingBot.GetMarketData | trading_bot.py:236-266 | the normalised snapshot while connected, with the subscription cancelled |
| FuturesBot.TradingBot.PlaceTicket | trading_bot.py:268-516 | the shared order body agrees with the order step: not connected or no contract fails with no order, else one ticket on the primed first contract, and a fill reports 'Successfully bought/sold {filled} contracts at ${price}' |
| FuturesBot.TradingBot.BuyContracts | trading_bot.py:408-461 | a market buy, as the order step defines; a fill reports 'Successfully bought {filled} contracts at ${price}' |
| FuturesBot.TradingBot.SellContracts | trading_bot.py:463-516 | a market sell, as the order step defines; a fill reports 'Successfully sold {filled} contracts at ${price}' |
| FuturesBot.TradingBot.BuyContractsLimit | trading_bot.py:268-336 | a limit buy at the price, else the ask (the bid with use_bid); a fill reports 'Successfully bought {filled} contracts at ${price}' |
| FuturesBot.TradingBot.SellContractsLimit | trading_bot.py:338-406 | a limit sell at the price, else the bid (the ask with use_ask); a fill reports 'Successfully sold {filled} contracts at ${price}' |
| FuturesBot.TradingBot.NetOne | trading_bot.py:705-727 | one non-zero position's order call and entry |
| FuturesBot.TradingBot.OrderCall | trading_bot.py:705-727 | the order method of the loop's kind and side |
| FuturesBot.TradingBot.NetPositions | trading_bot.py:703-730 | the netting loop produces the entries, orders and total of the netting function |
| FuturesBot.TradingBot.NetStep | trading_bot.py:705-730 | one loop pass, skipping a flat size |
| FuturesBot.TradingBot.NetAppend | trading_bot.py:705-727 | one loop pass at a non-zero size |
| FuturesBot.TradingBot.CloseAllPositions | trading_bot.py:685-754 | not connected gives the error and no order; no positions gives "No positions to close"; else the netting run and its summary; the first contract is primed exactly when some position is not flat, and the list is otherwise unchanged |
| FuturesBot.TradingBot.CloseRun | trading_bot.py:692-730 | the ES positions and the netting loop over them; the first contract is primed exactly when some position is not flat |
| FuturesBot.TradingBot.CloseAllPositionsForce | trading_bot.py:518-683 | not connected gives the error; no open items gives the no-position summary; else the forced run and its total |
| FuturesBot.TradingBot.OpenPortfolio | trading_bot.py:537 | the non-zero portfolio items |
| FuturesBot.TradingBot.ForceAll | trading_bot.py:553-666 | the forced loop agrees with the closing run, with its total and float flag |
| FuturesBot.TradingBot.ForceOne | trading_bot.py:553-666 | one item's order and entry |
| SpxOptions.SessionFor | spx_option_trader.py:41-45 | missing host and port take the configured ones; a missing client id is the configured one plus 10 |
| SpxOptions.OptionHoldingsSpec | spx_option_trader.py:112-125 | exactly the non-zero SPXW option items, with truncated size, and none when there is none |
| SpxOptions.OptionTickets | spx_option_trader.py:225-273 | one order exactly when the holding qualifies and has a size; then the offsetting market order on the first qualified contract |
| SpxOptions.OptionClosingCounts | spx_option_trader.py:210-304 | one entry per holding not skipped, at most one per holding, and the orders logged in order |
| SpxOptions.OptionClosingAllQualified | spx_option_trader.py:232-304 | with every holding qualified, entry i sells a long or buys back a short of holding i's size, and records the raise or the settled outcome |
| SpxOptions.QuoteOfSpread | spx_option_trader.py:351-368 | the spread exists exactly when both sides are positive, and is then ask minus bid |
| SpxOptions.BuyStepSpec | spx_option_trader.py:134-186 | at most one order, a market buy of the option sized as asked or 1; success exactly when placed and 'Filled', and then with the settled fill and 'Successfully bought {filled} SPX option contracts at ${price}' |
| SpxOptions.SpxOptionTrader.constructor | spx_option_trader.py:19-37 | disconnected, with no option contract |
| SpxOptions.SpxOptionTrader.Connect | spx_option_trader.py:39-85 | connected exactly when the session opens and the option qualifies; otherwise the error re-raised with the flag cleared |
| SpxOptions.SpxOptionTrader.Disconnect | spx_option_trader.py:87-95 | disconnected; the session is closed only if it was open |
| SpxOptions.SpxOptionTrader.GetOptionPositions | spx_option_trader.py:101-132 | the SPXW holdings while connected, else none |
| SpxOptions.SpxOptionTrader.BuyOption | spx_option_trader.py:134-186 | a buy, as the buy step defines |
| SpxOptions.SpxOptionTrader.SellAllOptionPositions | spx_option_trader.py:188-333 | not connected gives the error; no holdings gives message, 0 and no results; else the closing run |
| SpxOptions.SpxOptionTrader.CloseHoldings | spx_option_trader.py:210-304 | the closing loop agrees with the closing run, with its total and float flag |
| SpxOptions.SpxOptionTrader.CloseHolding | spx_option_trader.py:211-302 | one holding's entries (at most one) and order |
| SpxOptions.SpxOptionTrader.GetOptionMarketData | spx_option_trader.py:335-373 | the normalised quote of the option while connected, with the subscription cancelled |
| SpyStocks.SessionFor | spy_stock_trader.py:37-41 | missing host and port take the configured ones; a missing client id is the configured one plus 20 |
| SpyStocks.StockHoldingsSpec | spy_stock_trader.py:105-115 | exactly the non-zero SPY stock items, in order, and none when there is none |
| SpyStocks.StockTickets | spy_stock_trader.py:201-267 | one order exactly for a non-zero size: the offsetting market order on the stock |
| SpyStocks.StockClosingCounts | spy_stock_trader.py:199-277 | one entry and one order per non-zero holding |
| SpyStocks.StockClosingEach | spy_stock_trader.py:201-277 | entry i and the i-th order belong to holding i: its side and size, a 'CLOSE' entry on a raise, else the settled outcome |
| SpyStocks.QuoteOfSpread | spy_stock_trader.py:312-329 | the spread exists exactly when both sides are positive, and is then ask minus bid |
| SpyStocks.BuyStepSpec | spy_stock_trader.py:124-176 | at most one order, a market buy sized as asked or 5; success exactly when placed and 'Filled', then with id, fill and 'Successfully bought {filled} SPY stock shares at ${price}' |
| SpyStocks.SpyStockTrader.constructor | spy_stock_trader.py:19-33 | disconnected, with no stock contract |
| SpyStocks.SpyStockTrader.Connect | spy_stock_trader.py:35-77 | connected exactly when the session opens and the stock qualifies; otherwise the error re-raised with the flag cleared |
| SpyStocks.SpyStockTrader.Disconnect | spy_stock_trader.py:79-87 | disconnected; the session is closed only if it was open |
| SpyStocks.SpyStockTrader.GetStockPositions | spy_stock_trader.py:93-122 | the SPY holdings while connected, else none |
| SpyStocks.SpyStockTrader.BuyStock | spy_stock_trader.py:124-176 | a buy, as the buy step defines |
| SpyStocks.SpyStockTrader.SellAllStockPositions | spy_stock_trader.py:178-294 | not connected gives the error; no holdings gives message, 0 and no results; else the closing run |
| SpyStocks.SpyStockTrader.CloseHoldings | spy_stock_trader.py:199-277 | the closing loop agrees with the closing run, with its total and float flag |
| SpyStocks.SpyStockTrader.CloseHolding | spy_stock_trader.py:200-275 | one holding's entry (none for a zero size) and order |
| SpyStocks.SpyStockTrader.GetStockMarketData | spy_stock_trader.py:296-332 | the normalised quote of the stock while connected, with the subscription cancelled |
| DetailedLogic.DetailedQuote | trading_logic_detailed.py:51-83 | a snapshot only for a stored contract, the normalised one |
| DetailedLogic.DetailedTicket | trading_logic_detailed.py:104-111 | a limit order at the ask to buy and the bid to sell, with no check that the side exists |
| DetailedLogic.DetailedOutcome | trading_logic_detailed.py:85-164 | not connected or no snapshot fails with no order id; a raise fails with its error; otherwise the bounded outcome |
| DetailedLogic.DetailedOutcomeSpec | trading_logic_detailed.py:121-157 | success exactly when placed and first seen done within 30 s as 'Filled', then with its fill; 'Timeout' when never done in 30 s |
| DetailedLogic.DetailedPlaced | trading_logic_detailed.py:100-113 | at most one order |
| DetailedLogic.EsItemsSpec | trading_logic_detailed.py:262-264 | exactly the ES items with a non-zero position |
| DetailedLogic.EsItemsNonZero | trading_logic_detailed.py:262-264 | every kept item has a non-zero position |
| DetailedLogic.DetailedClosingSpec | trading_logic_detailed.py:302-317 | connected: one entry and one order per position, a long sells at the bid and a short buys back at the ask of the one snapshot, each entry carrying its own order's outcome |
| DetailedLogic.DisconnectedStep | trading_logic_detailed.py:94-95 | not connected, a position's call records the error and places nothing |
| DetailedLogic.DisconnectedClosing | trading_logic_detailed.py:302-317 | not connected, the run places no order, records an error per position and totals 0 |
| DetailedLogic.SellWithoutBid | trading_logic_detailed.py:187-192 | with no bid, a sell still goes out as a limit order without a price |
| DetailedLogic.DetailedTrader.constructor | trading_logic_detailed.py:19-22 | disconnected, with no contract |
| DetailedLogic.DetailedTrader.Connect | trading_logic_detailed.py:24-32 | the fixed local session's error, connected exactly on success |
| DetailedLogic.DetailedTrader.Disconnect | trading_logic_detailed.py:34-38 | disconnected; the session is closed only if it was open |
| DetailedLogic.DetailedTrader.SetupContract | trading_logic_detailed.py:40-49 | the stored contract is the December ES future |
| DetailedLogic.DetailedTrader.GetMarketData | trading_logic_detailed.py:51-83 | the normalised snapshot of the stored contract, with the subscription cancelled |
| DetailedLogic.DetailedTrader.TradeDetailed | trading_logic_detailed.py:85-245 | the outcome and the orders of the detailed buy or sell |
| DetailedLogic.DetailedTrader.GetPositionsDetailed | trading_logic_detailed.py:247-274 | the non-zero ES items, without a connection check |
| DetailedLogic.DetailedTrader.CloseAllDetailed | trading_logic_detailed.py:276-324 | no positions gives 0 and no results; no snapshot gives 0 with its error; otherwise the closing run and its total |
| DetailedLogic.DetailedTrader.CloseEachDetailed | trading_logic_detailed.py:299-317 | the closing loop agrees with the closing run, with its total |
| DetailedLogic.DetailedTrader.CloseOneDetailed | trading_logic_detailed.py:302-317 | one position's entry and order, none for a flat one |
| AlertServer.BodyPrice | main.py:249-250 | a price exactly when the content type is exactly application/json and the body has one |
| AlertServer.CharsetIgnoresPrice | main.py:249 | a JSON body with a charset parameter is not read |
| AlertServer.AlertEntriesSpec | main.py:163-187 | entry i offsets the i-th non-flat ES position, with its side's label and its positive truncated size; while priced it carries the settled result of the i-th order the loop places; with every order filled the ES book is flat |
| AlertServer.SellAlert | main.py:123-207 | HTTP 500 with no order and the contract list unchanged while the bot is missing or disconnected; skipped with no order when there is no position; else every position netted at market and summarised, the first contract primed exactly when some order is made; the entries are those of AlertServer.AlertEntriesSpec |
| AlertServer.SellLimitAlert | main.py:268-333 | the same, with limit orders at the body's one price, or at the quoted side |
| AlertServer.BuyAlert | main.py:210-234 | HTTP 500 with no order and the contract list unchanged while the bot is missing or disconnected, else a market buy of 3 as the order step defines |
| AlertServer.BuyLimitAlert | main.py:237-265 | HTTP 500 with no order and the contract list unchanged while the bot is missing or disconnected, else a limit buy of 3 at the body's price, or at the ask |
| AlertServer.BidAskOf | main.py:103-117 | the primary's symbol, month and sides, with a spread exactly when both sides are truthy |
| AlertServer.GetBidAsk | main.py:83-120 | HTTP 500 while missing or disconnected, with no contract or no snapshot; else the bid/ask reply; no order placed |
| SetupBot.SetupSavesChosen | setup_bot.py:55-122 | saves exactly when the session opened, contracts were found and a line chose some; what it saves is non-empty and holds only found ES futures |
| SetupBot.SelectContracts | setup_bot.py:55-142 | True with the selection file written exactly when a selection was made; the session is closed on every path |
| SetupEs.DecNamesPlain | setup_es_dec2025.py:46 | the December line's names are plain fields |
| SetupEs.DecNumbersPlain | setup_es_dec2025.py:46 | the December line's month and multiplier are plain fields |
| SetupEs.DecContractWritable | setup_es_dec2025.py:46 | the December contract survives a write and a read unchanged |
| SetupEs.DecFileHoldsOneContract | setup_es_dec2025.py:38-48 | the loader reads the December file as exactly the December contract with multiplier 50 |
| SetupEs.DecemberMembers | setup_es_dec2025.py:65 | exactly the contracts whose month holds 20251219 are kept |
| Seqs.Position | setup_es_dec2025.py:103-107 | the typed choice n names an index exactly when n - 1 indexes the list, and the index is then n - 1 |
| SetupEs.AlternativePick | setup_es_dec2025.py:101-134 | a picked contract is one of the listed contracts |
| SetupEs.ReadChoice | setup_es_dec2025.py:103-107 | one loop pass reads the choice as that index |
| SetupEs.AlternativeFileHoldsOne | setup_es_dec2025.py:112-115 | the rewritten file reads back as the picked contract alone, with multiplier 50 |
| SetupEs.EnvWithoutDecMonth | setup_es_dec2025.py:121 | an .env without the December setting is unchanged |
| SetupEs.EnvFirstDecMonth | setup_es_dec2025.py:121 | the first December setting takes the picked month and the scan goes on after it |
| SetupEs.ReadableEnvRun | setup_es_dec2025.py:101-134 | with an .env that is missing, fails or decodes, the loop ends at the first valid choice: True after rewriting both files, or the read error with only the contracts file rewritten; Ctrl-C before any choice gives False, and the end of input EOFError, with nothing rewritten |
| SetupEs.UndecodableEnvRun | setup_es_dec2025.py:118-131 | with an .env that does not decode, the ValueError is caught and the prompt repeats, so the result is False when a Ctrl-C is typed and EOFError otherwise; .env is never rewritten |
| SetupEs.RunWritesListed | setup_es_dec2025.py:108-115 | the contracts file left behind is the one written for some listed contract |
| SetupEs.DecodeErrorThenCancel | setup_es_dec2025.py:112-134 | choice 2 over an undecodable .env, then Ctrl-C: False, with the contracts file rewritten for the second contract |
| SetupEs.ChoiceTwo | setup_es_dec2025.py:103-107 | the typed choice 2 names the second contract |
| SetupEs.CancelSeesInterrupt | setup_es_dec2025.py:132-134 | the prompt is cancelled only by a Ctrl-C among the typed lines |
| SetupEs.SelectAlternativeContract | setup_es_dec2025.py:96-134 | the prompt loop: it rewrites the contracts file for every valid choice and stops at the first `.env` read that does not raise a ValueError, returning what AlternativeRun states |
| SetupEs.VerifyFalseOnlyWhenCancelled | setup_es_dec2025.py:50-134 | False only when nothing was found or a Ctrl-C follows the switch; .env is then unchanged, and so is the contracts file unless .env does not decode |
| SetupEs.RewritesOnlyForAlternative | setup_es_dec2025.py:65-84 | files are rewritten only for a found ES future that is not a December one |
| SetupEs.VerifyContract | setup_es_dec2025.py:50-94 | the verdict and rewrites of the verification function; the session is closed on every path |
| DirectPrices.EsFuture | get_bid_ask_direct.py:47-53 | the ES future of the month on CME in USD |
| DirectPrices.PricesOf | get_bid_ask_direct.py:63-80 | each of the six fields present exactly when positive; spread and points exactly when both sides are, points being 4 times the spread |
| DirectPrices.Series | get_bid_ask_direct.py:91-110 | at most one entry per month |
| DirectPrices.SeriesSnoc | get_bid_ask_direct.py:101-106 | one more month appends its prices when quoted |
| DirectPrices.SeriesAppend | get_bid_ask_direct.py:101-106 | the prices of two runs of months are those of each, in order |
| DirectPrices.SeriesFromMonths | get_bid_ask_direct.py:101-106 | every entry belongs to a given month and comes from its ticker |
| DirectPrices.SeriesAllQuoted | get_bid_ask_direct.py:91-110 | with every month quoted, one entry per month in month order |
| DirectPrices.PriceGetter.constructor | get_bid_ask_direct.py:19-21 | disconnected |
| DirectPrices.PriceGetter.Connect | get_bid_ask_direct.py:23-31 | the session's error, connected exactly on success |
| DirectPrices.PriceGetter.Disconnect | get_bid_ask_direct.py:33-38 | disconnected; the session is closed only if it was open |
| DirectPrices.PriceGetter.GetEsPrices | get_bid_ask_direct.py:40-89 | the month's prices while connected and when the request answers, else None; the subscription is cancelled |
| DirectPrices.PriceGetter.GetMultipleContracts | get_bid_ask_direct.py:91-110 | the prices of the quoted months in month order while connected, else none |
| DirectPrices.PriceGetter.ConnectDefault | get_bid_ask_direct.py:23-31 | `connect()` opens 127.0.0.1:7497 as client 1, connected exactly on success |
| DirectPrices.PriceGetter.GetDefaultEsPrices | get_bid_ask_direct.py:40-89 | `get_es_prices()` quotes the December 2025 contract |
| DirectPrices.PriceGetter.GetDefaultContracts | get_bid_ask_direct.py:91-110 | `get_multiple_contracts()` quotes the five months from December 2024 to December 2025 in order, at most one entry each |
| BidAskFunctions.EsQuoteSpec | bid_ask_functions.py:49-56 | each of bid, ask and last present exactly when positive; spread exactly when both sides are, and then ask minus bid |
| BidAskFunctions.AgreesWithPriceGetter | bid_ask_functions.py:49-56 | this helper and the price getter read the same bid, ask, last and spread from a ticker |
| BidAskFunctions.GetEsBidAsk | bid_ask_functions.py:14-73 | the quote of the month's ES future when the session opens and the request answers, else None; the session is closed on every path |
| BidAskFunctions.GetCurrentEsPrices | bid_ask_functions.py:76-78 | the bid/ask of December 2025 on the default session |
| Text.StripLeft | trading_bot.py:34 | a suffix of the text that starts with no whitespace |
| Text.StripRight | trading_bot.py:34 | a prefix of the text that ends with no whitespace |
| Text.StripUnchanged | trading_bot.py:34 | a text with no surrounding whitespace is its own strip |
| Text.StripLine | trading_bot.py:33-34 | stripping a line with its newline gives the line's text |
| Text.Lower | contract_selector.py:119 | lowercases character by character, keeping the length |
| Text.Split | trading_bot.py:36 | a split at one separator is never empty |
| Text.SplitWithout | trading_bot.py:36 | a text without the separator splits into itself |
| Text.SplitAfter | trading_bot.py:36 | a leading piece splits off at the first separator |
| Text.SplitJoin | trading_bot.py:36 | splitting joined pieces without the separator gives them back |
| Text.JoinSplit | trading_bot.py:36 | joining the pieces of a split gives the text back |
| Text.FileLines | trading_bot.py:33 | the lines of a file are empty exactly when its text is |
| Text.EndsLineOf | trading_bot.py:33 | a text without newline plus one newline is one line |
| Text.FileLinesCons | trading_bot.py:33 | a file's first line ends at its first newline |
| Text.ParseInt | contract_selector.py:128 | int() succeeds only on text that is not blank |
| Text.NatToString | contract_selector.py:128 | str() of a natural number is all digits |
| Text.DigitsValueOfNat | contract_selector.py:128 | the digits of str(n) have the value n |
| Text.ParseNatToString | contract_selector.py:128 | int(str(n)) is n |
| Text.NatDigits | contract_selector.py:128 | str(n) is a well-formed digit body of value n |
| Text.ParseIntToString | contract_selector.py:128 | int(str(n)) is n for any integer |
| Text.ParseNegativeInt | contract_selector.py:128 | int(str(n)) is n for a negative n |
| Text.DigitNotSpace | contract_selector.py:128 | a digit is neither whitespace nor a sign |
| Text.ParseUnsigned | contract_selector.py:128 | a digit body is read as its value |
| Text.ParseNegative | contract_selector.py:128 | a minus sign before a digit body negates it |
| Text.ReplaceAbsent | contract_selector.py:225 | without an occurrence, replace leaves the text unchanged |
| Text.ReplaceSame | contract_selector.py:225 | replacing a text by itself changes nothing |
| Text.ReplaceFirst | contract_selector.py:225 | the leftmost occurrence is replaced and the scan resumes after it |
| Text.NoMatchAtStart | contract_selector.py:225 | before the leftmost occurrence the scan steps over one character |
| Text.LexLeTotal | contract_selector.py:76 | any two strings are ordered one way or the other |
| Text.LexLeTransitive | contract_selector.py:76 | string order is transitive |
| Wrappers.OrDefault | trading_bot.py:75-77 | `x or default`: a missing or falsy argument takes the default |

## Notes on the code

Facts about the code that the model relies on or follows:

- The sell alert's fallback to the forced close (main.py:189-193) cannot be reached.
  - Every call in the netting loop at main.py:163-187 catches its own exceptions and returns a result, so nothing inside the try raises.
  - The fallback is therefore not modelled.
  - `FuturesBot.TicketResultFill` and `Polling.SuccessCarriesFill` show that a successful result always carries its filled quantity, so the addition at main.py:172 never fails.
- `verify_contract` returns False in two cases: when no contract is found, and when Ctrl-C cancels the alternative selection (setup_es_dec2025.py:84, 132-134).
  - `SetupEs.VerifyFalseOnlyWhenCancelled` states both cases.
  - Reading `.env` (setup_es_dec2025.py:118-119) happens inside the prompt loop's `try`. A file that does not decode raises UnicodeDecodeError, a ValueError, so `except ValueError` (line 130) catches it and the prompt repeats. The contracts file has already been rewritten by then (lines 112-115).
  - So False may come with the contracts file rewritten, when `.env` does not decode. `SetupEs.DecodeErrorThenCancel` shows such an input.
- The writers call `getattr(contract, 'multiplier', '50')`. An `ib_insync` contract always has a `multiplier` attribute, empty by default, so the '50' is never used. The model writes the contract's own multiplier.
- In the positions-view fallback of `get_positions` (trading_bot.py:180-205), the money fields read attributes an `ib_insync` position does not have, so they are always 0.0. The model gives them 0.0.

## Left out

- The `ib_insync` library is outside this model: `connectAsync`, `qualifyContractsAsync`, `reqMktData`, `cancelMktData`, `placeOrder`, `portfolio` and `positions` are the oracles of `Broker.Gateway`.
  - Gateway answers do not depend on the connection state.
  - No event loop or concurrency is modelled.
- Polling.AwaitDone: the unbounded `while not trade.isDone()` loops are proved only under the requirement that every trade eventually settles (`Gateway.FillsArrive`); the source waits forever otherwise.
- Polling.AwaitBounded: the 30 s wait counts exactly 300 polls, as the float accumulation of `waited += 0.1` gives: the sum stays below 30 after 299 additions and first exceeds it at the 300th.
- The sleeps (`asyncio.sleep(1)` before reading a ticker, the 0.1 s poll interval) are not modelled. A ticker is read once, as the oracle gives it.
- Market data is a fixed oracle (`Broker.Gateway.quote`, a function of the contract alone), so every request for a contract during one run sees the same snapshot. Prices that move between requests are not modelled.
- DetailedLogic.DetailedClosingSpec: every request in a run sees the same snapshot. `close_all_positions_detailed` takes one snapshot (trading_logic_detailed.py:293), and each sell or buy it calls requests another (lines 100 and 181); the model gives all of them the same bid and ask.
- DetailedLogic.DetailedTrader.CloseAllDetailed: every request in a run sees the same snapshot, for the same reason (trading_logic_detailed.py:293, 100, 181).
- AlertServer.SellLimitAlert: every request in a run sees the same snapshot. Each limit sell of the netting loop re-quotes the contract (trading_bot.py:354-366), and the model quotes the same ticker for all of them.
- FuturesBot.TradingBot.CloseRun: with limit orders, every request in the run sees the same snapshot, as for the sell limit alert.
- Prices are `real`. The float formatting of prices in result messages is an abstract function `show`, and no rounding is modelled.
- Closed totals are rendered as text in a few messages. Text.WholeText is exact only for integer totals, and the float form "2.0" is produced only when a float fill was added.
- FuturesBot.TradingBot.CloseAllPositionsForce: setting an empty exchange to CME writes into the portfolio item's contract in place (trading_bot.py:562, 625). The model places the order on a primed copy and leaves the portfolio view unchanged.
- FuturesBot.TradingBot.PlaceTicket: the exchange fill-in on the primary contract is modelled as replacing the first element of the contract list, not as a write through an alias.
- The sell alert's forced-close fallback (main.py:189-193) is unreachable, as noted above.
- HTTP layer: FastAPI routing, `request.json()` (the price comes as a parameter), the re-wrapping of errors as HTTPException, response rendering and `datetime.now()` timestamps.
- The startup, shutdown, status and root endpoints of main.py are not modelled; they connect, disconnect and report only.
- `get_account_info` (trading_bot.py:211-234) is left out, with its `accountSummary` call and the account id setting: it only parses float account values.
- Logging, `print`, `display_contracts`, `print_prices` and the interactive banners.
- File and terminal I/O: file contents and typed lines are parameters, and written files are returned as text.
  - Failures while writing a file are not modelled.
  - Universal newline translation is not modelled.
- `create_env_file`, `check_requirements`, `check_ibkr_connection` and the `main()` glue of contract_selector.py, setup_bot.py, setup_es_dec2025.py, get_bid_ask_direct.py and bid_ask_functions.py.
- A KeyboardInterrupt at `verify_contract`'s own prompt escapes its `except Exception`. It is modelled as the verdict `Interrupted`.
- In trading_logic_detailed.py a market-data request made before `setup_contract` is taken to raise, so `get_market_data` returns None (its `except` at lines 80-83).
- Text.Lower: `str.lower` is modelled on ASCII letters only.
- Text.ParseInt: `int()` is modelled on ASCII digits only (with its sign, surrounding whitespace and single underscores between digits). Other Unicode decimal digits, which `int()` also accepts, are not modelled.
- Text.IsSpace: `str.isspace` is modelled on the Latin-1 range only.
- The SPX and SPY closing loops wait without bound on both sides, like the source; only the futures forced close and the detailed trader bound their waits.
- config.py is reduced to its default constants; environment loading and type coercion are not modelled.
- The demo and helper scripts (demo_bid_ask.py, direct_bid_ask.py, diagnose_sell.py, get_bid_ask_example.py, restart_bot.py, run_bot.py, select_contracts.py, quick_setup.py) are not part of this model.
- ContractSelection.SortByMonth: Python's in-place `list.sort` is modelled by a value, a stable insertion sort, not by an update of the list in place.

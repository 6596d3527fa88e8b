# Tiered short selling, trigger pipeline and log retention, in Dafny

This project models the core of a small QuantConnect trading repository. It
has three parts.

- **The tiered short-selling algorithm** (`sample.py`). Every day it resets
  its short budget to 30% of NAV. Every 15 minutes it walks its pool of
  leveraged ETFs. A symbol whose price has risen by at least its `sigma0`
  threshold since the previous close is shorted, in one of three tiers (a
  third, two thirds or all of the tier volume). The VIX can override the
  volume. Each order is capped by three things:
  - the tier's target notional;
  - a per-symbol cap on the short notional;
  - what is left of the day's budget.

  The algorithm also covers short equities that are 10% in profit. It
  records every fill in its own position tracker and order log, and marks
  entries, exits and collar legs on its "Trades" chart.
- **The configuration-driven trigger pipeline** (`Pojo.py`,
  `TradingTrigger.py`, `TradingPipeline.py`, `StrategyRegister.py` and
  `main.py` lines 18-42).
  - A trigger is built in three chained stages: environment, target,
    strategy.
  - The pipeline keeps one list of triggers per target name, in dict
    insertion order. Each list is re-sorted by strategy priority whenever a
    trigger is added.
  - `execute` calls the registry's `inspect` function on every trigger.
  - The registry is a name-to-function table with four default entries.
- **Three helpers of the logging class** (`Log.py`). They parse a retention
  string such as "30 days", double it for the error log, and drop DEBUG
  records from the console in production.

## How Python is modelled

- **Values.** Python values are the datatype `PyValues.Value`: int, float,
  str, None, list or dict. Dataclasses hold such values unchanged, as
  `from_dict` does.
- **Exceptions.** An exception is an `Err` of the `Result` type, naming its
  Python class.
- **Classes.**
  - `TradingTrigger`, `TradingPipeline`, `StrategyRegister` and the
    algorithm `SqqqShortWithCollar` are Dafny classes.
  - Their fields are the attributes that the source's methods update in
    place.
  - The pipeline's dict is kept as two fields: `order`, its keys in
    insertion order, and `lists`, the list stored under each key.
- **Loops.** A loop in the source is a Dafny method with a `while` loop.
  The method is proved against a recursive specification function. Examples:
  - `Sweep` specifies the symbol loop;
  - `FirstFailure` and `Flatten` specify the `execute` loops;
  - `ConfigPlan` specifies the descriptor checks of the loading loop of
    `main.py`, and `Accepted` counts the pairs that `add` takes before it
    first raises.
- **The brokerage.** The brokerage is an input:
  - a `Market` gives NAV, prices, holdings and the VIX reading at one
    moment;
  - `market_order` appends to the algorithm's `orders`;
  - `plot` appends to its `plots`.
- **Numbers.**
  - Prices and ratios are exact reals.
  - A NaN VIX reading is `None`.
  - `int(x)` truncates toward zero. `int(x // price)` for non-negative
    operands is the floor.

## Model

| member | source | states |
|---|---|---|
| PyValues.Add | StrategyRegister.py:48 | `a + b` on two numbers is their sum; a number with a non-number raises TypeError |
| PyValues.Sub | StrategyRegister.py:56-57 | `a - b` succeeds exactly on two numbers and then is their difference |
| PyValues.TrueDiv | main.py:28 | `/` raises TypeError on a non-number and ZeroDivisionError on a zero divisor, and otherwise is the real quotient |
| PyValues.KeyOf | TradingPipeline.py:28-30 | a dict key is rejected with TypeError exactly when it is a list or a dict (unhashable); numbers hash by value, so 1 and 1.0 are one key |
| Pojo.Whitelist | Pojo.py:11-12 | the filtered dict has exactly the keys of the data that are field names, with the data's values |
| Pojo.EnvFromDict | Pojo.py:9-13 | `total_holding_weight` is copied from the dict when present, and is 0.0 otherwise |
| Pojo.TargetFromDict | Pojo.py:21-25 | `name` and `holding_percentage` are each copied when present, and are "" and 0.0 otherwise |
| Pojo.StrategyFromDict | Pojo.py:34-38 | `name`, `priority` and `params` are each copied when present, and are "", -1 and {} otherwise |
| Pojo.EnvAsDict | Pojo.py:5-13 | `asdict` has exactly the fields as keys, and `from_dict` of it gives back the record (round trip) |
| Pojo.TargetAsDict | Pojo.py:16-25 | round trip `from_dict(asdict(t)) == t` for a target |
| Pojo.StrategyAsDict | Pojo.py:28-38 | round trip `from_dict(asdict(s)) == s` for a strategy |
| Pojo.FromDictIgnoresExtraKeys | Pojo.py:11-13 | two dicts that agree on the field names build the same record, whatever else they hold |
| Pojo.FromDictOfWhitelist | Pojo.py:11-13 | building from the whitelisted dict equals building from the whole dict |
| Pojo.FromEmptyDictIsDefault | Pojo.py:7 | an empty dict builds the all-defaults record of each class |
| Trigger.HoldingShare | TradingTrigger.py:38 | a missing `holding_weight` raises KeyError, before a missing environment raises AttributeError; otherwise the result is the Python division of the weight by the environment's total |
| Trigger.SelfLess | TradingTrigger.py:25 | `p < p` is never True; it raises exactly for None and dict priorities |
| Trigger.TradingTrigger.constructor | TradingTrigger.py:10-16 | a new trigger has no environment, target or strategy |
| Trigger.TradingTrigger.Create | TradingTrigger.py:30-34 | `create` gives a fresh trigger whose environment is built from the dict, with no target or strategy yet |
| Trigger.TradingTrigger.On | TradingTrigger.py:36-39 | `on` sets the target from the dict with `holding_percentage` replaced by the share of the total weight, returns the same trigger, and propagates the exception of the share otherwise |
| Trigger.TradingTrigger.When | TradingTrigger.py:41-43 | `when` sets the strategy from the dict and returns the same trigger |
| Trigger.TradingTrigger.Log | TradingTrigger.py:45-47 | `log` returns the same trigger |
| Trigger.TradingTrigger.Trade | TradingTrigger.py:53-56 | `trade` returns the same trigger |
| Trigger.TradingTrigger.LessThan | TradingTrigger.py:24-25 | `__lt__` as written never answers True: it compares the trigger's own priority with itself |
| Trigger.TradingTrigger.PriorityLessThan | TradingTrigger.py:24-25 | the intended `__lt__`: True exactly when this priority is below the other's, False when it is not, and an error without two numeric priorities |
| Trigger.TradingTrigger.Equals | TradingTrigger.py:27-28 | `__eq__` raises ValueError on every comparison |
| Trigger.LessThanIgnoresOther | TradingTrigger.py:24-25 | for priorities 1 and 2, `__lt__` as written answers False where the intended comparison answers True |
| Trigger.PriorityLessThanIsStrict | TradingTrigger.py:24-25 | the intended comparison is asymmetric and irreflexive |
| Trigger.Build | main.py:33-36 | the chain gives one fresh trigger with all three parts set from the dicts, or raises exactly what the share computation raises |
| Registry.Apply | StrategyRegister.py:46-57 | "test" takes no argument; "add" is `a + b`; "minus" is `a - b`; "inspect" raises KeyError('vix') exactly when the environment lacks "vix" and otherwise returns None on a trigger; a wrong arity raises TypeError |
| Registry.Lookup | StrategyRegister.py:38-41 | an unknown name raises KeyError naming it; a known one applies its function |
| Registry.RegisteredName | StrategyRegister.py:29 | the name given, unless it is None or empty, and otherwise the function's own `__name__` |
| Registry.StrategyRegister.constructor | StrategyRegister.py:20-25 | the first construction keeps the environment and installs exactly the default functions |
| Registry.StrategyRegister.Reinit | StrategyRegister.py:20-21 | constructing again leaves the registry unchanged: the first environment stays |
| Registry.StrategyRegister.RegisterFunction | StrategyRegister.py:35-36 | the table maps the name to the function, replacing any earlier entry, and nothing else changes |
| Registry.StrategyRegister.Register | StrategyRegister.py:27-33 | the decorator files the function under `RegisteredName` and hands the function back |
| Registry.StrategyRegister.Call | StrategyRegister.py:38-41 | `call` raises KeyError for an unknown name and otherwise applies the registered function |
| Registry.StrategyRegister.Invoke | StrategyRegister.py:43-44 | `__call__` answers exactly as `call` |
| Registry.StrategyRegister.SetupDefaultFunctions | StrategyRegister.py:46-57 | registers "test", "add", "inspect" and "minus", in that order, over the existing table |
| Registry.CallAfterRegister | StrategyRegister.py:35-41 | after registering `f` under a name, calling that name applies `f`, and every other name answers as before |
| Registry.DefaultEntries | StrategyRegister.py:46-57 | the defaults are exactly four names; "test" returns "test"; "add" adds; "minus" subtracts although its function is named `add`; "inspect" raises only without "vix" |
| StableSort.Insert | TradingPipeline.py:37 | inserting adds exactly one element, after every earlier element whose key is not greater |
| StableSort.InsertSorted | TradingPipeline.py:37 | insertion keeps a sorted sequence sorted |
| StableSort.SortByKey | TradingPipeline.py:37 | `sorted(key=...)` yields a permutation of its input that ascends by key |
| StableSort.SortIsStable | TradingPipeline.py:37 | for every key, the elements with that key keep their relative order |
| StableSort.SortedIsFixpoint | TradingPipeline.py:37 | an already sorted sequence is left as it is |
| StableSort.SortIsIdempotent | TradingPipeline.py:37 | sorting twice equals sorting once |
| StableSort.AppendThenSort | TradingPipeline.py:35-37 | appending to a sorted list and then sorting equals inserting in place |
| StableSort.InsertItems | TradingPipeline.py:35-37 | insertion adds exactly the new item to the items |
| StableSort.SortItems | TradingPipeline.py:37 | dropping the keys after sorting gives a permutation of the items |
| Pipeline.SortKeys | TradingPipeline.py:37 | the sort keys are every trigger's priority, and AttributeError exactly when some trigger has no strategy |
| Pipeline.SortTriggersPermutes | TradingPipeline.py:37 | with the keys known, sorting raises TypeError exactly for two or more triggers with a non-numeric key, and otherwise permutes the triggers |
| Pipeline.SortResultFails | TradingPipeline.py:37 | `sorted` raises exactly when a trigger lacks a strategy, or when two or more triggers hold a non-numeric priority |
| Pipeline.SortResultSorted | TradingPipeline.py:37 | what `sorted` yields is a permutation of the list that ascends by priority |
| Pipeline.SortedListIsFixpoint | TradingPipeline.py:49-52 | re-sorting a list that ascends by priority returns it unchanged |
| Pipeline.SortResultIdempotent | TradingPipeline.py:37 | sorting the sorted list again gives the same list |
| Pipeline.SortResultIsStable | TradingPipeline.py:37 | triggers of equal priority stay in the order in which they were added |
| Pipeline.SortedHasNoInversion | TradingTrigger.py:24-25 | in a list ascending by priority, no trigger is less than an earlier one under the intended `__lt__` |
| Pipeline.OthersKept | TradingPipeline.py:29-37 | storing a list under one key leaves the list under every other key as it was |
| Pipeline.FirstFailure | TradingPipeline.py:57-59 | the position of the first trigger on which "inspect" raises: every earlier one passes |
| Pipeline.FirstFailureAppend | TradingPipeline.py:57-59 | over two runs in turn, the pass stops in the first run if it fails there, and otherwise where it fails in the second |
| Pipeline.StopsInList | TradingPipeline.py:57-59 | when every earlier list passes and list `i` fails, the pass over all triggers stops at that list's failing trigger |
| Pipeline.PassesList | TradingPipeline.py:57-59 | when every earlier list and list `i` pass, the first `i + 1` lists pass |
| Pipeline.Obtain | TradingPipeline.py:56 | `StrategyRegister(env)` builds a registry with `env` and the defaults only if none exists; an existing one is returned unchanged |
| Pipeline.InspectEach | TradingPipeline.py:58-59 | the inner loop calls "inspect" on each trigger of one list up to and including the first that raises |
| Pipeline.InspectLists | TradingPipeline.py:57-59 | the two loops call "inspect" on the triggers of all lists in order, up to and including the first that raises, and raise its exception |
| Pipeline.SortLists | TradingPipeline.py:50-51 | the loop of `sort` replaces each list by its sorted copy until one raises; the lists from the failing one on are untouched; lists that already ascend stay as they are |
| Pipeline.TradingPipeline.constructor | TradingPipeline.py:22-25 | the pipeline starts with no targets |
| Pipeline.TradingPipeline.Add | TradingPipeline.py:27-40 | `add` reports AttributeError without a target and TypeError for an unhashable name, and then changes nothing; otherwise a new name goes last in the iteration order, the trigger is appended and the list re-sorted, and other lists are untouched; on success the list ascends by priority and gains exactly the trigger; duplicate priorities are accepted |
| Pipeline.TradingPipeline.AddUnder | TradingPipeline.py:29-37 | after the name is hashed: the appended list is stored sorted, or unsorted if sorting raises, and every other list is kept |
| Pipeline.TradingPipeline.Store | TradingPipeline.py:30-37 | storing under a key appends the key if new, sets exactly that key's list, and keeps "every list sorted" when the stored list is sorted |
| Pipeline.TradingPipeline.Sort | TradingPipeline.py:49-52 | `sort` re-sorts every list in iteration order; on an exception the lists before it are sorted and the rest untouched; a pipeline whose lists are all sorted is unchanged |
| Pipeline.TradingPipeline.Execute | TradingPipeline.py:54-61 | `execute` obtains the registry, calls "inspect" on every trigger target by target in list order, and stops at and raises the first exception |
| Pipeline.TradingPipeline.InspectAll | TradingPipeline.py:57-61 | the calls are the flattened triggers up to and including the first failure, and the result is that failure or the pipeline |
| Loader.AccumulateIsSum | main.py:18-20 | the weight accumulation succeeds exactly when every target has a numeric `holding_weight`, and then is the arithmetic sum; otherwise it raises at the first bad target |
| Loader.TotalIsSum | main.py:18-20 | `total_holding_weight` starting from 0 succeeds exactly on numeric weights and is their sum |
| Loader.FractionSumIsQuotient | main.py:28 | the per-target fractions of a non-zero total add up to the weight sum divided by the total |
| Loader.FractionsSumToOne | main.py:18-28 | with a positive total, the holding fractions of all targets sum to 1 |
| Loader.SumWeights | main.py:18-20 | the accumulator loop computes exactly the specified total, or its exception |
| Loader.StrategyItems | main.py:29-30 | iterating `strategies`: a list yields its items; an empty dict or string yields nothing; anything else raises TypeError |
| Loader.CheckStrategy | main.py:31-32 | an item must be a dict holding "name" and then "params"; otherwise TypeError, KeyError('name') or KeyError('params') in that order |
| Loader.ItemsPlanComplete | main.py:30-37 | the inner loop completes exactly when every item is a dict with a name and params, and then reaches one pair per item in order |
| Loader.WellFormedConfigCompletes | main.py:26-37 | a configuration of well-formed targets with a non-zero numeric total reaches every (target, strategy) pair, in order, and no descriptor check of lines 27-32 raises |
| Loader.WellFormedConfigLoads | main.py:26-37 | if in addition every target name hashes and every priority is a number, the script raises nothing: no descriptor check fails and `add` takes every pair |
| Loader.ZeroTotalFailsFirst | main.py:28 | weights summing to zero raise ZeroDivisionError on the first target, before any trigger is built |
| Loader.InspectNeverFails | StrategyRegister.py:51-53 | with "vix" in the environment, the default "inspect" raises on no trigger |
| Loader.PairKeyBuilt | TradingPipeline.py:28-29 | the key a pair is filed under is the hashed name of the target its trigger is built with, "" when the dict has none |
| Loader.AcceptedIsFirstRaise | TradingPipeline.py:29-37 | `add` raises on a pair, given the pairs taken before it, exactly at the index `Accepted` names: on none before it |
| Loader.AcceptedAppend | main.py:26-37 | over two runs of pairs, `add` stops inside the first if it refuses a pair there, and otherwise goes on into the second |
| Loader.NumericPairsAccepted | TradingPipeline.py:29-37 | with names that hash and numeric priorities throughout, `add` takes every pair |
| Loader.UnhashableNameRaises | TradingPipeline.py:29 | a target whose name is a list makes `add` raise on its first pair, whatever was added before |
| Loader.IncomparablePrioritiesRaise | TradingPipeline.py:37 | two strategies of one target with priorities "high" and 1: the first is filed alone, and `sorted` raises on the second |
| Loader.SortAppendFails | TradingPipeline.py:35-37 | appending a trigger and sorting raises TypeError exactly when the list already held a trigger and some priority among them is not a number |
| Loader.SortKeepsTriggers | TradingPipeline.py:37 | `sorted` yields the same triggers, as many of them |
| Loader.SortAfterAppend | TradingPipeline.py:35-37 | for a list that stands for the pairs filed under a name, appending the next pair's trigger and sorting raises exactly when `add` does, and otherwise stands for those pairs and the new one |
| Loader.AddBuilt | TradingPipeline.py:27-40 | `add` of a built trigger raises TypeError exactly when the name does not hash or the list under it would hold a non-numeric priority among two or more; otherwise the list under the name gains exactly that trigger, the other lists are untouched, and sorted lists stay sorted |
| Loader.AddPair | main.py:33-37 | one pair builds a fresh trigger from the environment, target and strategy dicts; `add` raises TypeError exactly as for `AddBuilt`, and otherwise files the trigger under its target's name alone |
| Loader.LoadItems | main.py:30-37 | the inner loop builds one trigger per pair of the items plan, in order, up to the first pair `add` refuses; it then raises TypeError, and otherwise the plan's own exception, if any |
| Loader.LoadTarget | main.py:27-37 | one target: the checks of lines 27-30, then its strategies; its triggers are built from the target plan's pairs that `add` takes, and the exception is `add`'s TypeError or the plan's |
| Loader.LoadAll | main.py:26-37 | the outer loop builds one trigger per pair of the configuration plan up to the first pair `add` refuses, and raises that TypeError or else the plan's exception; on success each list under a name gains exactly the triggers of that name's pairs and sorted lists stay sorted |
| Loader.Populate | main.py:18-37 | the weights are summed (its exception ends the script); then the targets are loaded into a new pipeline, as `LoadAll` says, and after a complete load every list ascends by priority and holds exactly its name's triggers |
| Loader.Load | main.py:18-42 | the script raises the exception of the weight sum, else `add`'s TypeError at the first pair it refuses, else the configuration plan's exception; after a complete load, `execute` with `{"vix": 30}` inspects every trigger in iteration order and returns the pipeline |
| Sizing.TotalValue | sample.py:234 | the NAV used for sizing is positive: the NAV itself, or `1e-9` when the NAV is lower |
| Sizing.DayCap | sample.py:235 | what is left of the day's budget is never negative: the difference when the budget is not overspent, 0 otherwise |
| Sizing.EffectiveVolume | sample.py:428-436 | a VIX reading strictly above the threshold replaces the volume by the high-VIX volume; a NaN or lower reading keeps the base volume |
| Sizing.Layer | sample.py:275-283 | the tier of a rise is 1, 2 or 3 |
| Sizing.LayerIsHalfOpen | sample.py:275-283 | tier 1 is below `sigma1`, tier 2 is from `sigma1` to below `sigma2`, and tier 3 is from `sigma2` on; a rise exactly at a threshold is in the higher tier |
| Sizing.LayerIsMonotone | sample.py:271-286 | a larger rise never gets a lower tier, nor a smaller target fraction |
| Sizing.CurrentShortValue | sample.py:289-292 | the notional already shorted is 0 for a flat or long holding and never negative at a positive price |
| Sizing.SharesWithinBound | sample.py:317-318 | `int(x // price)` shares never cost more than `x`, and one share more would |
| Sizing.FewerSharesMaximal | sample.py:317-319 | the smaller of the two share counts is never negative, its notional fits in both budgets, and one share more costs more than the smaller budget |
| Sizing.SharesWithinMonotone | sample.py:317-318 | less money never buys more whole shares |
| Sizing.Shares | sample.py:296-322 | the shares of a sale are never negative; when positive, their notional fits in the day's budget, and with what is shorted already it stays within the tier target and the per-symbol cap; and it is the largest such count, since one share more exceeds the smallest of the room under the target, the room under the cap and the day's budget |
| Sizing.DayCapBinds | sample.py:312-319 | when what is left of the day is below the room under the target and the cap, the day's budget alone sets the size |
| Sizing.TargetBinds | sample.py:300-319 | when the room under the target and the cap is below what is left of the day, that room sets the size |
| Sizing.TierTwoExample | sample.py:261-319 | NAV 1,000,000, thresholds 1.83/3.72/7.50 %, volume 10 %, cap 30 %, a 4 % rise to 10: tier 2 and 6,666 shares; with 1,000 left of the day, 100 shares |
| Sizing.Decide | sample.py:247-322 | per symbol: KeyError exactly when the symbol is configured, has a valid previous close and is missing from the securities; a sale needs a positive price and a rise of at least `sigma0`, is in the rise's tier, and respects the day's budget, the tier target and the per-symbol cap; and once those guards pass, the symbol is sold exactly when `Shares` is positive, in that number |
| ShortAlgorithm.DeciderIsSound | sample.py:252-322 | every sale the sizing rule decides is of a priced symbol, has positive shares, is in tier 1-3 and fits in what is left of the day's budget |
| ShortAlgorithm.SweepOrders | sample.py:246-325 | every order of the symbol loop sells a positive number of shares of a priced symbol, tagged with its tier |
| ShortAlgorithm.SweepSpends | sample.py:325-329 | the budget used grows by exactly the notional of the orders placed |
| ShortAlgorithm.SweepWithinLimit | sample.py:317-329 | a budget that was not overspent is not overspent by the loop |
| ShortAlgorithm.SweepExhausted | sample.py:318-322 | once the day's budget is used up, the loop places no order and spends nothing |
| ShortAlgorithm.CoverOrdersExact | sample.py:211-226 | every cover order buys back the whole short of a short equity at least 10% in profit, tagged COVER_TP10, and every such equity has one |
| ShortAlgorithm.CoverOrdersAppend | sample.py:211-226 | the cover orders of the securities follow their order: those of two runs are the first run's then the second's |
| ShortAlgorithm.CoverOrdersOne | sample.py:212-226 | one security adds exactly one buy-back of its whole short when it is a profitable short equity, and nothing otherwise |
| ShortAlgorithm.PricePlots | sample.py:193-196 | at most one price mark per pool symbol; a mark is in the list exactly when some pool entry has a positive price, and it is `<ticker>_Price` at that price |
| ShortAlgorithm.PricePlotsAppend | sample.py:193-196 | the marks of a pool are the marks of its parts, in pool order |
| ShortAlgorithm.PricePlotsOne | sample.py:194-196 | one entry adds `<ticker>_Price` at its price when that price is positive, and nothing otherwise |
| ShortAlgorithm.KeptClosesExact | sample.py:162-180 | after the update, a symbol has a previous close exactly when it had one or it is a pool symbol with a positive close; a positive close wins, and otherwise the old value stays |
| ShortAlgorithm.KeepCloses | sample.py:162-180 | the loop over the pool computes exactly the specified previous closes |
| ShortAlgorithm.MarkPrices | sample.py:193-196 | the loop over the pool draws exactly the specified price marks |
| ShortAlgorithm.RunSweep | sample.py:234-329 | the loop, with the budget left recomputed after every order, yields exactly the specified outcome, stopping at the first KeyError |
| ShortAlgorithm.SweepFacts | sample.py:246-329 | the loop's orders are short sales of priced symbols; the budget used is the old one plus their notional, stays within the limit and buys nothing once exhausted |
| ShortAlgorithm.SqqqShortWithCollar.constructor | sample.py:27-33 | the budget starts at 30% of NAV with nothing used, and the closes, tracker, order log, orders and plots start empty |
| ShortAlgorithm.SqqqShortWithCollar.RecordPoolPreClose | sample.py:160-180 | the previous closes become the specified kept closes; nothing else changes |
| ShortAlgorithm.SqqqShortWithCollar.DailyRe | sample.py:183-187 | the budget becomes 30% of the positive NAV, nothing is used, and nothing else changes |
| ShortAlgorithm.SqqqShortWithCollar.ShortEquityBySigma | sample.py:232-341 | the orders and the budget used are those of the symbol loop; the budget used never decreases and never overruns a limit it started within; nothing is bought once it is used up |
| ShortAlgorithm.SqqqShortWithCollar.CloseShortEquityProfits10 | sample.py:209-229 | the cover orders are appended in the securities' order; nothing else changes |
| ShortAlgorithm.SqqqShortWithCollar.OnOrderEvent | sample.py:343-421 | a zero fill changes nothing; otherwise the tracker moves by the truncated fill, exactly one record is logged, and the entry, exit and collar marks are drawn |
| ShortAlgorithm.SqqqShortWithCollar.OnData | sample.py:190-206 | the price marks are drawn every minute; the symbol loop runs exactly on minutes divisible by 15 |
| OrderEvents.Truncate | sample.py:350 | `int(x)` truncates toward zero for both signs |
| OrderEvents.Track | sample.py:368-370 | the filled symbol's tracked position grows by the fill, and every other symbol is unchanged |
| OrderEvents.ReplayIsNet | sample.py:368-370 | after any run of fills, each symbol's tracked position is the old one plus the net of its fills |
| OrderEvents.MarkOf | sample.py:405-412 | an entry exactly when the position goes from flat to non-flat, an exit exactly when it goes back to flat |
| OrderEvents.EntriesAndExitsAlternate | sample.py:404-412 | over any run of fills, entries minus exits is 1 when the run opens a position, -1 when it closes one, and 0 otherwise |
| OrderEvents.RecordOf | sample.py:373-393 | the log record carries the event's fields and the order's tag; the portfolio's holding wins, and otherwise the tracker's position with an average price of 0.0 |
| OrderEvents.RemoveAllOfFree | sample.py:416 | `replace(prefix, "")` leaves a string without the prefix unchanged |
| OrderEvents.CollarPlot | sample.py:415-421 | a collar mark exactly for a COLLAR_PUT_ or COLLAR_CALL_ tag; the put is tested first, and the series is the tag without the prefix |
| OrderEvents.CollarTagRoundTrip | sample.py:415-421 | a tag built from a ticker that holds neither prefix marks that ticker's `_SellPut` or `_BuyCall` series |
| OrderEvents.EventPlots | sample.py:403-421 | the marks of a fill are exactly the entry or exit mark of a pool equity, if any, followed by the collar mark, if any |
| Log.IntToStringRoundTrip | Log.py:187-195 | `int(str(n)) == n` for every integer |
| Log.ParseRetention | Log.py:90-105 | the leading count times 1, 30 or 7 for "day", "month" or "week", tested in that order; 30 when no unit is found or the count does not parse |
| Log.UnitOfCount | Log.py:94-100 | the unit read back from "N days", "N months" or "N weeks" is that unit |
| Log.FirstIntOfCount | Log.py:95 | the count read back from "N unit" is N |
| Log.ParseRetentionOfCount | Log.py:90-105 | "N days" is N days, "N months" 30N and "N weeks" 7N |
| Log.ExtendedRetention | Log.py:184-199 | twice the leading count in the same unit; "60 days" when no unit is found or the count does not parse |
| Log.ExtendedRetentionOfCount | Log.py:184-199 | the extension of "N unit" is "2N unit" |
| Log.ExtendedRetentionDoubles | Log.py:184-199 | for every retention string, the error log's retention parses to exactly twice the days of the other logs, including the 30-day fallback |
| Log.ConsoleFilter | Log.py:137-142 | outside "prod" every record is shown; in "prod", exactly the records not at DEBUG |
| Log.Shown | Log.py:137-142 | the console never shows more records than were logged |
| Log.ConsoleShowsAllButProductionDebug | Log.py:137-142 | outside "prod" every record reaches the console; in "prod", every record but the DEBUG ones does |

## Left out

- **Floats.** IEEE floating point, rounding and NaN are not modelled. Prices
  and ratios are exact reals, and a NaN VIX reading is `None`.
- **History and charts.**
  - `history` and DataFrame parsing: the closes that `record_pool_pre_close`
    reads are an input.
  - `add_chart` and the chart set-up of `initialize`: `plot` is an append
    to a sequence of marks.
- **Other platform calls.** `set_start_date`, `set_cash`, `add_equity`,
  subscriptions, schedules and the fee initializer
  (`_custom_security_initializer`) are platform configuration, outside the
  algorithm's own logic.
- **End of algorithm and debug output.** `on_end_of_algorithm` and every
  `debug` message only report; they change no state.
- **The symbol loop's fills.**
  - ShortAlgorithm.SqqqShortWithCollar.ShortEquityBySigma: the market is one
    snapshot for the whole loop.
  - A fill that the platform might deliver synchronously between two orders
    (updating a later symbol's holding) is not modelled.
- **Reading `self.portfolio`.** OrderEvents.RecordOf: whether this succeeds
  is an input (`EventContext.holding`). The same goes for the order's tag
  and the security's type, because the brokerage is not part of this model.
- **Singletons.** The singleton `__new__`, the class-level `_initialized`
  flags and their locks are not modelled. Threads are not modelled. A
  registry that already exists is passed to `execute`.
- **Trigger stubs.** `filter`, `transform`, `batch` and `execute` of
  `TradingTrigger.py` are unfinished. No modelled code calls them.
- **Rendering.** `__str__` of a trigger and `TradingPipeline.log` only
  render text for the log.
- **Logger I/O.** The rest of `Log.py` sets up sinks, files, formats and
  cleanup, all of it I/O.
- **Other files.** `SampleDeepSeek.py` is not part of this model. Nor are
  reading `config.yaml` and YAML parsing: the configuration arrives as the
  already parsed list of target dicts.
- **Booleans.** `Value` has no bool, so a boolean weight or priority is not
  modelled.
- Pipeline.SortResultFails: raises TypeError for two or more priorities
  that are strings, or lists, or a mix with numbers. Python sorts a list of
  only strings lexicographically and a list of only lists element by
  element; only numeric priorities are ordered here, and Pipeline.SortResult
  with it.
- SortTriggersPermutes: raises TypeError for two or more keys that are
  not all numbers, including all-string and all-list keys that Python's
  `sorted` orders; only numeric keys are ordered here.
- SortAppendFails: counts a list whose priorities are all strings, or all
  lists, as a raise of `sorted`, although Python sorts it; the same
  numeric-only ordering.
- AddBuilt: `add` raises TypeError here when the list under the name would
  hold two or more priorities that are not all numbers; Python's `add`
  raises only when `sorted` cannot compare them, so all-string or all-list
  priorities are accepted there. `AddRaises`, `Accepted` and the loaders
  built on them (SortAfterAppend, LoadItems, LoadTarget, LoadAll, Populate,
  Load) carry the same over-approximation.
- AddPair: inherits the numeric-only raise condition of AddBuilt.
- **The intended comparison.**
  Trigger.TradingTrigger.PriorityLessThan orders numeric priorities only,
  for the same reason.
- **Integer parsing.** Log.ParseRetention does not accept the underscores
  and non-ASCII digits that Python's `int()` accepts. Nor does it apply
  Python's limit on the number of digits of an integer string.
- ExtendedRetention: reads the count with the same parser, so a count such
  as "1_0 days", which Python reads as 10 and extends to "20 days", falls
  back to "60 days" here.
- **Behaviour kept as written.**
  - `add` accepts a trigger whose priority equals an existing one's. It does
    not reject it.
  - `execute` stops at the first exception and raises it. It does not carry
    on with the remaining triggers.
  - Loading aborts at the first malformed target or strategy. It does not
    skip only that descriptor.
  - A pool symbol missing from `securities` raises KeyError and ends the
    symbol loop. It is not skipped.

## Findings

| source | as written | input that shows it | evidently intended | confidence | as-written member | corrected member |
|---|---|---|---|---|---|---|
| TradingTrigger.py:24-25 | `__lt__` returns `self.strategy.priority < self.strategy.priority`, which is never True | two triggers with priorities 1 and 2: `t1 < t2` is False | `self.strategy.priority < other.strategy.priority` | high (not executed) | Trigger.TradingTrigger.LessThan, Trigger.LessThanIgnoresOther | Trigger.TradingTrigger.PriorityLessThan, Trigger.PriorityLessThanIsStrict, Pipeline.SortedHasNoInversion |

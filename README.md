# Trading dashboard and journal: a Dafny model of the decision, planning and ledger logic

The application is a single-page trading dashboard with a journal. For each of
four currency pairs it reads a few indicator values that the operator types in:
price, 50-period EMA on H4, RSI(14) and ATR(14) on H1, and two candle flags.
From these it decides whether a Buy, a Sell or nothing is on. For a signal it
plans stop, target and position size from the account balance and risk
percentage. Confirmed plans go into a journal. The operator later closes or
corrects journal rows, and the account balance is recomputed from the
finished trades.

The model covers all of that logic. It has seven modules, one concern each:

- `Signals` (signals.dfy): the H4 trend (price strictly above the EMA; a tie is a
  downtrend), the RSI windows (30, 45] for a buy and [55, 70) for a sell, the
  candle flags, the three-way decision, and the hint shown under Wait.
- `Planner` (planner.dfy): the pip multiplier (100 when the pair's name contains
  "JPY", else 10000), the per-lot pip value table with its default of 10, the
  ATR-to-pips conversion, the stop at 2 ATRs, the target at 1.5 stop
  distances, and risk-based sizing with its guard for a zero stop. It also
  holds the panel that combines decision and plan.
- `Journal` (journal.dfy): the journal record, closing a record (P/L recomputed,
  forced to zero for Pending), the balance as 1000 plus the finished P/L, the
  performance summary, and the `Ledger` class. `Ledger` holds the records and
  the balance, and its `Confirm`, `Edit`, `Delete` and `SetBalance` methods
  change them in place.
- `JournalFile` (journal_file.dfy): the journal's column list and the backfill
  of missing columns at load time.
- `Settings` (settings.dfy): the default settings, and the check that a loaded
  settings document has both top-level sections.
- `Rounding` (rounding.dfy): Python's `round(x, d)` on exact reals, and
  `Wrappers` (wrappers.dfy), an `Option` type.

The central invariant is `Ledger.Reconciled()`. It says the balance is the
default balance of 1000 plus the dollar P/L of every non-Pending record, and
that Pending records carry no P/L. `Confirm` and `Delete` preserve it. `Edit`
restores it whenever the journal's Pending rows are flat, whatever the balance
was before.

Where the application's intended design and its code differ, the model
follows the code:

- There is no "insufficient data" result.
- There are no daily-trend, key-level or market-structure checks.
- The RSI is not clamped.
- Editing a record does not add an incremental delta to the balance. It
  recomputes the balance from the whole journal.
  `Journal.EditDeltaMatchesRecompute` proves that on a reconciled journal the
  two give the same balance.
- The "no clear trend" hint exists in the code, but no snapshot can reach it.
- Deleting needs an existing row, because the delete button is drawn once per
  row; there is no NotFound path.
- A record whose direction is anything other than "Buy" is priced as a sell.

## Model

| member | source | states |
|---|---|---|
| `Rounding.Round` | trading_app.py:270-271 | `round(x, d)`: the result has at most d decimals and lies within half a unit of the last kept decimal from x; on an exact tie the last kept decimal is even |
| `Rounding.RoundTiesToEven` | trading_app.py:270-271 | ties go to the even neighbour: 2.5 rounds to 2 and 3.5 to 4 |
| `Rounding.RoundExact` | trading_app.py:270-271 | a value that already has d decimals is unchanged by rounding (13.5 to 2 decimals stays 13.5) |
| `Signals.Check` | trading_app.py:152-155 | buy-trend flag holds iff price > EMA; sell-trend flag is its negation (exactly one holds, a tie goes to downtrend); buy-RSI flag iff 30 < RSI <= 45, sell-RSI flag iff 55 <= RSI < 70, so never both; the candle flags are the operator's bullish and bearish ticks |
| `Signals.Evaluate` | trading_app.py:152-217 | Buy iff price > EMA, 30 < RSI <= 45 and a bullish candle; Sell iff price <= EMA, 55 <= RSI < 70 and a bearish candle; in Wait the hint is RSI-zone or missing-candle on the trend's side |
| `Signals.WaitHintAlwaysChosen` | trading_app.py:206-217 | a Wait always carries a hint, and never the "no clear trend" one (that branch is unreachable) |
| `Signals.BuyAndSellExclusive` | trading_app.py:154-155 | the full buy checklist and the full sell checklist never both hold |
| `Signals.RsiBoundaries` | trading_app.py:154-155 | 30 excluded and 45 included for buys (45.0000001 excluded); 55 included and 70 excluded for sells (54.9999 excluded) |
| `Signals.TieIsDowntrend` | trading_app.py:152-153 | a price equal to the EMA is a downtrend and is never a Buy |
| `Planner.ContainsIffOccurs` | trading_app.py:71 | the left-to-right substring scan finds `sub` exactly when `sub` occurs at some index of the string |
| `Planner.MissingCharNoOccurrence` | trading_app.py:71 | a string that lacks one of `sub`'s characters does not contain `sub` |
| `Planner.PipMultiplier` | trading_app.py:70-71 | 100 when "JPY" occurs in the pair name, 10000 otherwise |
| `Planner.PipValue` | trading_app.py:16-19 | the table's pip value for a listed pair, 10 for any other; always positive |
| `Planner.PositionSize` | trading_app.py:73-78 | (0, 0) when the stop distance is <= 0; otherwise risk = balance * risk% / 100 and lot * stop pips * pip value == risk; non-negative for non-negative balance and risk% |
| `Planner.MakePlan` | trading_app.py:167-190 | stop pips = 2 * ATR pips, target pips = 1.5 * stop pips; Buy: stop below and target above entry by those pips; Sell mirrored; size from the position-size rule; the side's reason text |
| `Planner.PlanGeometry` | trading_app.py:167-189 | with ATR > 0: Buy has stop < entry < target, Sell has target < entry < stop, and the target distance is 1.5 times the stop distance |
| `Planner.PlanRisk` | trading_app.py:171 | with ATR > 0 a full stop-out loses exactly balance * risk% / 100; with ATR <= 0 the plan has zero lot and zero risk |
| `Planner.Analyze` | trading_app.py:164-201 | a Buy plan exactly under the buy conditions, a Sell plan exactly under the sell conditions; the plan is the trade plan for that side at the current price, ATR, balance and risk%; otherwise advice whose hint is the RSI-zone or missing-candle hint on the trend's side |
| `Planner.KnownPairMultipliers` | trading_app.py:70-71 | USD/JPY uses 100 and EUR/USD uses 10000 |
| `Planner.EurUsdBuyScenario` | trading_app.py:164-171 | EUR/USD 1.08550 over 1.08200, RSI 40, bullish, ATR 0.00150, 1000 at 1%: Buy, stop 1.08250 (30 pips), target 1.09000 (45 pips), risk 10, lot 1/30 |
| `Settings.DefaultSettings` | trading_app.py:36-45 | balance 1000 and risk 1%, and a snapshot for exactly the four dashboard pairs |
| `Settings.LoadConfig` | trading_app.py:26-34 | a document with both global_settings and pair_settings is used as it is; a missing file, unparsable JSON, or a missing section gives the defaults |
| `Settings.SaveConfig` | trading_app.py:22-24 | the saved document has both top-level sections |
| `Settings.SaveLoadRoundTrip` | trading_app.py:22-34 | saved settings load back unchanged |
| `Settings.DefaultPairsWait` | trading_app.py:40-43 | every default snapshot is a Wait: EUR/USD lacks only the bullish candle, the others have RSI outside the buy window |
| `Journal.ParseOutcome` | trading_app.py:253 | the selector choice whose label is the stored outcome; none when the stored outcome is not Pending, Win or Loss |
| `Journal.ParseLabel` | trading_app.py:253 | every selector choice parses back from its own label |
| `Journal.NewTrade` | trading_app.py:175 | the confirmed record is Pending with exit 0 and P/L 0 (so it adds nothing to the balance), carries the plan's levels and reason, and a lot size rounded to 2 decimals |
| `Journal.TradePips` | trading_app.py:258-259 | for "Buy" the pips are positive iff exit > entry; for any other direction they are positive iff exit < entry; magnitude is the price move times the multiplier |
| `Journal.Edited` | trading_app.py:258-272 | only entry, SL, TP, exit, outcome, P/L and review change; P/L is recomputed from the form's prices (pips to 1 decimal, dollars to 2), and is 0 for Pending |
| `Journal.EditedIdempotent` | trading_app.py:265-272 | saving the same edit twice yields the same record as saving it once |
| `Journal.FinishedPlWithout` | trading_app.py:306-310 | removing record i removes exactly its contribution from the finished P/L total |
| `Journal.FinishedPlReplace` | trading_app.py:265-279 | replacing record i changes the finished total by the difference of the old and new contributions |
| `Journal.FinishedPlPrepend` | trading_app.py:177 | a record put in front adds its own contribution to the finished total |
| `Journal.EditDeltaMatchesRecompute` | trading_app.py:276-281 | on a journal whose Pending rows are flat, the recomputed balance equals the old one minus the record's old P/L($) plus its new one; an identical second edit does not move it |
| `Journal.FinishedCount` | trading_app.py:321-322 | the number of indices whose outcome is not Pending, hence at most the number of records |
| `Journal.WinCount` | trading_app.py:323 | the number of indices whose outcome is Win; every win is a finished trade, so wins <= finished trades |
| `Journal.WinRate` | trading_app.py:324 | wins as a percentage of finished trades: in [0, 100]; 0 when nothing finished; otherwise rate * finished == 100 * wins |
| `Journal.Summarize` | trading_app.py:321-328 | finished trades is the number of non-Pending rows and wins the number of Win rows (wins <= finished <= records); the win rate is their percentage as above; total is the finished P/L |
| `Journal.Ledger.Confirm` | trading_app.py:175-177 | exactly one new Pending record at index 0, earlier records kept in order behind it, balance unchanged, reconciliation preserved |
| `Journal.Ledger.Edit` | trading_app.py:236-281 | missing row or unknown stored outcome: nothing changes; otherwise only row i is replaced by its edited form, and the balance becomes 1000 + the finished P/L, which reconciles the ledger |
| `Journal.Ledger.Delete` | trading_app.py:306-310 | the row is dropped, the rest keep their order, the balance drops by exactly the row's P/L($), and reconciliation is preserved |
| `Journal.Ledger.SetBalance` | trading_app.py:120 | the operator's balance replaces the stored one; the records are untouched |
| `Journal.ReconciledBalanceIsSummaryTotal` | trading_app.py:276-279 | on a reconciled ledger the balance is 1000 plus the summary's total P/L |
| `Journal.EurUsdCloseScenario` | trading_app.py:258-271 | the EUR/USD Buy closed as a Win at 1.09000 stores lot 0.03, 45.0 pips and 13.5 dollars |
| `JournalFile.FillValue` | trading_app.py:55 | a missing column is filled with 0.0 when its name contains "P/L" or is Lot_Size, else with "" |
| `JournalFile.Backfill` | trading_app.py:52-55 | every required column the table lacks is added with its fill value on every row; the table's existing columns are unchanged |
| `JournalFile.NumericJournalColumns` | trading_app.py:63-67 | of the 13 journal columns exactly Lot_Size, P/L (Pips) and P/L ($) are filled with 0.0 |

## Left out

- The Streamlit interface is not modelled: widgets, tabs, reruns, the mode switch, `display_trade_plan` and `generate_summary_text`. It is presentation only.
- File input and output are not modelled: JSON reading and writing in `load_config` and `save_config`, CSV reading and writing in `load_journal` and `save_journal`, and the automatic save when the settings change (lines 333-335). `Settings.LoadConfig` takes the parsed document, with `None` for a missing or unparsable file.
- `Settings.LoadConfig` does not model the read errors the loader does not catch: only `JSONDecodeError` and `TypeError` fall back to the defaults (line 33), so an `OSError` or `UnicodeDecodeError` while reading ends the application instead.
- `Settings.LoadConfig` does not model sections with keys missing or of the wrong type. The typed document always has every key, while the application fills missing keys from the `.get` defaults when it builds the sidebar and the panels (lines 120-121, 125-141).
- `Settings.LoadConfig` does not model a top-level JSON value that is not an object. It also does not keep keys beyond the two sections, because the typed document has only those two.
- `datetime.now()` is not modelled. The date of a new record is a parameter.
- Floating point is not modelled. All prices and amounts are exact reals, and `round` is exact round-half-to-even on reals. Binary-float representation error is not captured.
- The panel writing its inputs back into the settings (lines 143-147) is not modelled. It is a plain store of the snapshot.
- The RSI input widget's 0-100 bounds and the sidebar slider's 0.5-5.0 bounds are not modelled. They are widget limits.
- Changing the risk percentage from the sidebar is not modelled. Only the balance overwrite is, as `Journal.Ledger.SetBalance`.
- Cells that are missing or not numbers (pandas NaN) are not modelled. Every record carries every field.
- The `Lot_Size` default of 0.01 in the edit (line 261) is not modelled. The loader always backfills that column, so the default never applies; `Record.lotSize` is always present.
- `Journal.Ledger.Edit` folds the crash when the stored outcome is not one of Pending, Win or Loss (line 253) into a result with no change. The same goes for the KeyError path for a missing row (lines 236-240).
- `Journal.Ledger.Delete` requires an existing row, because the application only offers delete on rows it lists.

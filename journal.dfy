/**
 * The trade journal: one record per confirmed trade, newest first, and the
 * account balance reconciled against it. Confirming a plan adds a Pending
 * record; editing a record closes or corrects it and recomputes the balance;
 * deleting a record takes its profit back out of the balance.
 */
module Journal {
  import opened Wrappers
  import opened Rounding
  import opened Signals
  import opened Planner
  import opened Settings

  const PENDING: string := "Pending"
  const WIN: string := "Win"
  const LOSS: string := "Loss"

  /** One journal row; direction and outcome are the stored labels. */
  datatype Record = Record(
    date: string,
    pair: string,
    direction: string,
    entry: real,
    exit: real,
    stopLoss: real,
    takeProfit: real,
    lotSize: real,
    plPips: real,
    plUsd: real,
    outcome: string,
    reason: string,
    review: string)

  /** The three choices of the edit form's outcome selector. */
  datatype Outcome = Pending | Win | Loss {
    function Label(): string {
      match this
      case Pending => PENDING
      case Win => WIN
      case Loss => LOSS
    }
  }

  /** The selector choice matching a stored label; none for any other label. */
  function ParseOutcome(stored: string): (o: Option<Outcome>)
    ensures o.Some? ==> o.value.Label() == stored
    ensures o.None? ==> forall k: Outcome :: k.Label() != stored
  {
    if stored == PENDING then Some(Pending)
    else if stored == WIN then Some(Win)
    else if stored == LOSS then Some(Loss)
    else None
  }

  /** Every selector choice is read back from its own label. */
  lemma ParseLabel(o: Outcome)
    ensures ParseOutcome(o.Label()) == Some(o)
  {
  }

  /** A Pending record carries no profit or loss. */
  predicate PendingFlat(r: Record) {
    r.outcome == PENDING ==> r.plPips == 0.0 && r.plUsd == 0.0
  }

  predicate AllPendingFlat(records: seq<Record>) {
    forall i :: 0 <= i < |records| ==> PendingFlat(records[i])
  }

  /** What a record adds to the balance: its dollar result unless it is Pending. */
  function Contribution(r: Record): real {
    if r.outcome != PENDING then r.plUsd else 0.0
  }

  /** The dollar result of all finished (non-Pending) records. */
  function FinishedPl(records: seq<Record>): real {
    if records == [] then 0.0 else Contribution(records[0]) + FinishedPl(records[1..])
  }

  /** The balance the journal implies: the default balance plus every finished result. */
  function ReconciledBalance(records: seq<Record>): real {
    DEFAULT_BALANCE + FinishedPl(records)
  }

  /**
   * The journal row for a confirmed plan: Pending, no exit, no profit or
   * loss, the plan's levels and reason, and its lot size rounded to 2
   * decimals.
   */
  function NewTrade(date: string, pair: string, plan: TradePlan): (r: Record)
    ensures r.outcome == PENDING && r.exit == 0.0 && r.plPips == 0.0 && r.plUsd == 0.0
    ensures PendingFlat(r) && Contribution(r) == 0.0
    ensures r.date == date && r.pair == pair && r.direction == plan.direction.Label()
    ensures r.entry == plan.entry && r.stopLoss == plan.stopLoss && r.takeProfit == plan.takeProfit
    ensures HasDecimals(r.lotSize, 2) && -0.005 <= r.lotSize - plan.lotSize <= 0.005
    ensures r.reason == plan.reason && r.review == ""
  {
    Record(date, pair, plan.direction.Label(), plan.entry, 0.0, plan.stopLoss, plan.takeProfit,
           Round(plan.lotSize, 2), 0.0, 0.0, PENDING, plan.reason, "")
  }

  /**
   * The pips a trade made: exit above entry is a gain for a record labelled
   * "Buy"; for any other label, exit below entry is the gain.
   */
  function TradePips(direction: string, pair: string, entry: real, exit: real): (pips: real)
    ensures direction == "Buy" ==> (pips > 0.0 <==> exit > entry) && (pips < 0.0 <==> exit < entry)
    ensures direction != "Buy" ==> (pips > 0.0 <==> exit < entry) && (pips < 0.0 <==> exit > entry)
    ensures pips * (if direction == "Buy" then 1.0 else -1.0) == (exit - entry) * PipMultiplier(pair)
  {
    var m := PipMultiplier(pair);
    if direction == "Buy" then (exit - entry) * m else (entry - exit) * m
  }

  /** The dollar value of `pips` at the pair's pip value and the given lot size. */
  function TradeUsd(pips: real, pair: string, lotSize: real): real {
    pips * PipValue(pair) * lotSize
  }

  /**
   * A record after the edit form is saved: the prices, outcome and review
   * are the form's; date, pair, direction, lot size and reason are kept; the
   * profit is recomputed from the form's prices (pips to 1 decimal, dollars
   * to 2) unless the outcome is Pending, which forces both to zero.
   */
  function Edited(r: Record, entry: real, stopLoss: real, takeProfit: real, exit: real,
                  outcome: Outcome, review: string): (e: Record)
    ensures e.date == r.date && e.pair == r.pair && e.direction == r.direction
    ensures e.lotSize == r.lotSize && e.reason == r.reason
    ensures e.entry == entry && e.stopLoss == stopLoss && e.takeProfit == takeProfit
    ensures e.exit == exit && e.outcome == outcome.Label() && e.review == review
    ensures outcome == Pending ==> e.plPips == 0.0 && e.plUsd == 0.0
    ensures outcome != Pending ==>
      var pips := TradePips(r.direction, r.pair, entry, exit);
      e.plPips == Round(pips, 1) && e.plUsd == Round(TradeUsd(pips, r.pair, r.lotSize), 2)
    ensures PendingFlat(e)
  {
    var pips := TradePips(r.direction, r.pair, entry, exit);
    var plUsd := TradeUsd(pips, r.pair, r.lotSize);
    r.(entry := entry, stopLoss := stopLoss, takeProfit := takeProfit, exit := exit,
       outcome := outcome.Label(),
       plPips := if outcome != Pending then Round(pips, 1) else 0.0,
       plUsd := if outcome != Pending then Round(plUsd, 2) else 0.0,
       review := review)
  }

  /** Saving the same edit twice gives the same record as saving it once. */
  lemma EditedIdempotent(r: Record, entry: real, stopLoss: real, takeProfit: real, exit: real,
                         outcome: Outcome, review: string)
    ensures var e := Edited(r, entry, stopLoss, takeProfit, exit, outcome, review);
      Edited(e, entry, stopLoss, takeProfit, exit, outcome, review) == e
  {
  }

  /** Taking record `i` out of a journal takes exactly its contribution out of the finished total. */
  lemma {:induction false} FinishedPlWithout(records: seq<Record>, i: nat)
    requires i < |records|
    ensures FinishedPl(records) == Contribution(records[i]) + FinishedPl(records[..i] + records[i + 1..])
  {
    if i == 0 {
      assert records[..0] + records[1..] == records[1..];
    } else {
      var tail := records[1..];
      FinishedPlWithout(tail, i - 1);
      assert records[..i] + records[i + 1..] == [records[0]] + (tail[..i - 1] + tail[i..]);
    }
  }

  /** Replacing record `i` changes the finished total by the difference of the two contributions. */
  lemma FinishedPlReplace(records: seq<Record>, i: nat, r: Record)
    requires i < |records|
    ensures FinishedPl(records[i := r]) == FinishedPl(records) - Contribution(records[i]) + Contribution(r)
  {
    FinishedPlWithout(records, i);
    FinishedPlWithout(records[i := r], i);
    assert records[i := r][..i] + records[i := r][i + 1..] == records[..i] + records[i + 1..];
  }

  /** A new record in front adds its contribution to the finished total. */
  lemma FinishedPlPrepend(r: Record, records: seq<Record>)
    ensures FinishedPl([r] + records) == Contribution(r) + FinishedPl(records)
  {
    assert ([r] + records)[1..] == records;
  }

  /**
   * The edit form recomputes the balance from the whole journal; on a
   * reconciled journal this is the same as applying only the change in the
   * edited record's result, so repeating an identical edit moves the balance
   * no further.
   */
  lemma EditDeltaMatchesRecompute(records: seq<Record>, i: nat, entry: real, stopLoss: real,
                                  takeProfit: real, exit: real, outcome: Outcome, review: string)
    requires i < |records| && AllPendingFlat(records)
    ensures var e := Edited(records[i], entry, stopLoss, takeProfit, exit, outcome, review);
      && ReconciledBalance(records[i := e]) == ReconciledBalance(records) - records[i].plUsd + e.plUsd
      && ReconciledBalance(records[i := e][i := Edited(e, entry, stopLoss, takeProfit, exit, outcome, review)])
         == ReconciledBalance(records[i := e])
  {
    var e := Edited(records[i], entry, stopLoss, takeProfit, exit, outcome, review);
    assert PendingFlat(records[i]);
    FinishedPlReplace(records, i, e);
    EditedIdempotent(records[i], entry, stopLoss, takeProfit, exit, outcome, review);
    assert records[i := e][i := e] == records[i := e];
  }

  /** The indices of the finished (non-Pending) rows. */
  ghost function FinishedRows(records: seq<Record>): set<int> {
    set i | 0 <= i < |records| && records[i].outcome != PENDING
  }

  /** The indices of the rows whose outcome is Win. */
  ghost function WonRows(records: seq<Record>): set<int> {
    set i | 0 <= i < |records| && records[i].outcome == WIN
  }

  /** The number of finished rows, counted from the last row back. */
  function FinishedCount(records: seq<Record>): (n: nat)
    ensures n == |FinishedRows(records)|
    ensures n <= |records|
  {
    if records == [] then 0
    else
      var k := |records| - 1;
      var front := records[..k];
      assert FinishedRows(records) ==
        FinishedRows(front) + (if records[k].outcome != PENDING then {k} else {});
      FinishedCount(front) + (if records[k].outcome != PENDING then 1 else 0)
  }

  /** The number of rows whose outcome is Win; every win is a finished trade. */
  function WinCount(records: seq<Record>): (n: nat)
    ensures n == |WonRows(records)|
    ensures n <= FinishedCount(records)
  {
    if records == [] then 0
    else
      var k := |records| - 1;
      var front := records[..k];
      assert WonRows(records) ==
        WonRows(front) + (if records[k].outcome == WIN then {k} else {});
      WinCount(front) + (if records[k].outcome == WIN then 1 else 0)
  }

  /** Wins as a percentage of finished trades; 0 when nothing has finished. */
  function WinRate(wins: nat, total: nat): (rate: real)
    requires wins <= total
    ensures 0.0 <= rate <= 100.0
    ensures total == 0 ==> rate == 0.0
    ensures total > 0 ==> rate * total as real == 100.0 * wins as real
  {
    if total > 0 then
      ShareBounds(wins as real, total as real);
      (wins as real / total as real) * 100.0
    else 0.0
  }

  /** The performance block: finished trades, wins, win rate in percent, total finished result. */
  datatype Performance = Performance(finishedTrades: nat, wins: nat, winRate: real, totalPl: real)

  /**
   * The performance summary: the number of non-Pending rows, the number of
   * Win rows, the win rate as the share of finished trades that are wins in
   * percent (0 when nothing has finished), and the finished dollar total.
   */
  function Summarize(records: seq<Record>): (p: Performance)
    ensures p.finishedTrades == |FinishedRows(records)| && p.wins == |WonRows(records)|
    ensures p.wins <= p.finishedTrades <= |records|
    ensures p.winRate == WinRate(p.wins, p.finishedTrades)
    ensures p.totalPl == FinishedPl(records)
  {
    var total := FinishedCount(records);
    var wins := WinCount(records);
    Performance(total, wins, WinRate(wins, total), FinishedPl(records))
  }

  /** A share of a positive whole lies in [0, 1], and scaling back gives the part. */
  lemma ShareBounds(part: real, whole: real)
    requires 0.0 <= part <= whole && whole > 0.0
    ensures 0.0 <= part / whole <= 1.0
    ensures part / whole * 100.0 * whole == 100.0 * part
  {
    var q := part / whole;
    assert q * whole == part;
    assert (1.0 - q) * whole == whole - part;
  }

  datatype EditStatus =
    | Saved
    | NotFound        // no record at the edited index
    | UnknownOutcome  // the stored outcome is not one the form's selector offers

  /** The journal together with the account balance. */
  class Ledger {
    var records: seq<Record>
    var balance: real

    /** The loaded journal and the balance from the settings; the two need not agree. */
    constructor (records: seq<Record>, balance: real)
      ensures this.records == records && this.balance == balance
    {
      this.records := records;
      this.balance := balance;
    }

    /**
     * The ledger invariant: the balance is the default balance plus every
     * finished result, and Pending records carry no result.
     */
    ghost predicate Reconciled()
      reads this
    {
      balance == ReconciledBalance(records) && AllPendingFlat(records)
    }

    /** Confirming a plan puts its Pending record in front; the balance is not touched. */
    method Confirm(date: string, pair: string, plan: TradePlan)
      modifies this
      ensures records == [NewTrade(date, pair, plan)] + old(records)
      ensures balance == old(balance)
      ensures old(Reconciled()) ==> Reconciled()
    {
      var trade := NewTrade(date, pair, plan);
      FinishedPlPrepend(trade, records);
      records := [trade] + records;
    }

    /**
     * Saving the edit form for record `i`: nothing changes when there is no
     * such record or its stored outcome is not a selector choice; otherwise
     * that record alone is replaced by its edited form and the balance is
     * recomputed from the whole journal, which reconciles the ledger.
     */
    method Edit(i: int, entry: real, stopLoss: real, takeProfit: real, exit: real,
                outcome: Outcome, review: string) returns (status: EditStatus)
      modifies this
      ensures status == NotFound <==> !(0 <= i < |old(records)|)
      ensures status == UnknownOutcome <==>
        0 <= i < |old(records)| && ParseOutcome(old(records)[i].outcome).None?
      ensures status != Saved ==> records == old(records) && balance == old(balance)
      ensures status == Saved ==>
        records == old(records)[i := Edited(old(records)[i], entry, stopLoss, takeProfit, exit, outcome, review)]
      ensures status == Saved ==> balance == ReconciledBalance(records)
      ensures status == Saved && old(AllPendingFlat(records)) ==> Reconciled()
      ensures status == Saved && old(Reconciled()) ==>
        balance == old(balance) - old(records)[i].plUsd + records[i].plUsd
    {
      if !(0 <= i < |records|) {
        return NotFound;
      }
      if ParseOutcome(records[i].outcome).None? {
        return UnknownOutcome;
      }
      var old_records := records;
      var e := Edited(records[i], entry, stopLoss, takeProfit, exit, outcome, review);
      records := records[i := e];
      balance := ReconciledBalance(records);
      status := Saved;
      if AllPendingFlat(old_records) {
        assert PendingFlat(old_records[i]);
        FinishedPlReplace(old_records, i, e);
      }
    }

    /** Deleting record `i` subtracts its dollar result from the balance and drops it. */
    method Delete(i: nat)
      requires i < |records|
      modifies this
      ensures records == old(records)[..i] + old(records)[i + 1..]
      ensures balance == old(balance) - old(records)[i].plUsd
      ensures old(Reconciled()) ==> Reconciled()
    {
      var removed := records[i];
      FinishedPlWithout(records, i);
      assert PendingFlat(removed) ==> Contribution(removed) == removed.plUsd;
      balance := balance - removed.plUsd;
      records := records[..i] + records[i + 1..];
    }

    /** The operator typing a balance into the sidebar; this may break reconciliation. */
    method SetBalance(amount: real)
      modifies this
      ensures balance == amount && records == old(records)
    {
      balance := amount;
    }
  }

  /** On a reconciled ledger the balance is the default balance plus the summary's total. */
  lemma ReconciledBalanceIsSummaryTotal(ledger: Ledger)
    requires ledger.Reconciled()
    ensures ledger.balance == DEFAULT_BALANCE + Summarize(ledger.records).totalPl
  {
  }

  /**
   * Closing the EUR/USD Buy of the planner's example at its 1.09000 target as
   * a Win: 45 pips on a 0.03 lot at 10 dollars a pip is 13.5 dollars.
   */
  lemma EurUsdCloseScenario(date: string)
    ensures var plan := MakePlan(Buy, "EUR/USD", 1.08550, 0.00150, 1000.0, 1.0);
      var e := Edited(NewTrade(date, "EUR/USD", plan), 1.08550, 1.08250, 1.09000, 1.09000, Win, "");
      e.lotSize == 0.03 && e.plPips == 45.0 && e.plUsd == 13.5
  {
    KnownPairMultipliers();
    var plan := MakePlan(Buy, "EUR/USD", 1.08550, 0.00150, 1000.0, 1.0);
    assert plan.lotSize == 1.0 / 30.0;
    assert Round(1.0 / 30.0, 2) == 0.03;
    RoundExact(45.0, 1);
    RoundExact(13.5, 2);
  }
}

/** The portfolio document of server/server.js and the three updates the
    user routes apply to it: deposit, withdraw and invest. Each update is an
    increment of the money fields plus the push of one transaction whose id is
    the old number of transactions plus one. Amounts are integers (cents). */
module Ledger {
  import opened Common

  /** The UTC calendar day of a timestamp, which the handlers store as the
      transaction date. */
  function DayOf(now: nat): nat
  {
    now / MS_PER_DAY
  }

  datatype TxnType = Deposit | Withdraw | Investment

  datatype Transaction = Transaction(
    id: nat,
    day: nat,
    kind: TxnType,
    asset: string,
    quantity: int,
    price: int,
    total: int)

  datatype Holding = Holding(asset: string, quantity: int)

  datatype Portfolio = Portfolio(
    userId: nat,
    totalValue: int,
    availableCash: int,
    investedAmount: int,
    holdings: seq<Holding>,
    transactions: seq<Transaction>)

  /** The portfolio register creates next to every new user. */
  function ZeroPortfolio(userId: nat): (p: Portfolio)
    ensures Consistent(p)
  {
    Portfolio(userId, 0, 0, 0, [], [])
  }

  /** Sum of the deposit and withdrawal totals: what the cash balance must be. */
  function CashFlow(txns: seq<Transaction>): int
  {
    if txns == [] then 0
    else
      var last := txns[|txns| - 1];
      CashFlow(txns[..|txns| - 1]) + (if last.kind == Investment then 0 else last.total)
  }

  /** Sum of the investment totals: what the invested amount must be. */
  function InvestedFlow(txns: seq<Transaction>): int
  {
    if txns == [] then 0
    else
      var last := txns[|txns| - 1];
      InvestedFlow(txns[..|txns| - 1]) + (if last.kind == Investment then last.total else 0)
  }

  /** Sum of every transaction total. */
  function TotalFlow(txns: seq<Transaction>): int
  {
    if txns == [] then 0 else TotalFlow(txns[..|txns| - 1]) + txns[|txns| - 1].total
  }

  /** The ledger invariant the updates keep (the code never checks it):
      the value is cash plus investments, both fields agree with the
      transaction history, and transaction ids run 1, 2, 3, ... */
  ghost predicate Consistent(p: Portfolio)
  {
    && p.totalValue == p.availableCash + p.investedAmount
    && p.availableCash == CashFlow(p.transactions)
    && p.investedAmount == InvestedFlow(p.transactions)
    && forall i :: 0 <= i < |p.transactions| ==> p.transactions[i].id == i + 1
  }

  /** The transaction the handlers push: numbered one past the current count. */
  function NextTransaction(p: Portfolio, day: nat, kind: TxnType, asset: string, total: int): (t: Transaction)
    ensures t.id == |p.transactions| + 1 && t.total == total && t.quantity == 1
  {
    Transaction(|p.transactions| + 1, day, kind, asset, 1, total, total)
  }

  /** Appending one transaction moves each flow by that transaction only. */
  lemma FlowsAppend(txns: seq<Transaction>, t: Transaction)
    ensures CashFlow(txns + [t]) == CashFlow(txns) + (if t.kind == Investment then 0 else t.total)
    ensures InvestedFlow(txns + [t]) == InvestedFlow(txns) + (if t.kind == Investment then t.total else 0)
    ensures TotalFlow(txns + [t]) == TotalFlow(txns) + t.total
  {
    assert (txns + [t])[..|txns|] == txns;
  }

  /** The deposit update: cash and value rise by the amount and a Deposit is pushed. */
  function Deposited(p: Portfolio, amount: int, day: nat): (r: Portfolio)
    ensures r.availableCash == p.availableCash + amount
    ensures r.totalValue == p.totalValue + amount
    ensures r.investedAmount == p.investedAmount
    ensures r.transactions == p.transactions + [Transaction(|p.transactions| + 1, day, Deposit, "USD", 1, amount, amount)]
    ensures r.userId == p.userId && r.holdings == p.holdings
    ensures Consistent(p) ==> Consistent(r)
  {
    var t := NextTransaction(p, day, Deposit, "USD", amount);
    FlowsAppend(p.transactions, t);
    p.(availableCash := p.availableCash + amount,
       totalValue := p.totalValue + amount,
       transactions := p.transactions + [t])
  }

  /** The withdrawal update: cash and value fall by the amount and a Withdraw
      with a negative total is pushed. */
  function Withdrawn(p: Portfolio, amount: int, day: nat): (r: Portfolio)
    ensures r.availableCash == p.availableCash - amount
    ensures r.totalValue == p.totalValue - amount
    ensures r.investedAmount == p.investedAmount
    ensures r.transactions == p.transactions + [Transaction(|p.transactions| + 1, day, Withdraw, "USD", 1, -amount, -amount)]
    ensures r.userId == p.userId && r.holdings == p.holdings
    ensures Consistent(p) ==> Consistent(r)
  {
    var t := NextTransaction(p, day, Withdraw, "USD", -amount);
    FlowsAppend(p.transactions, t);
    p.(availableCash := p.availableCash - amount,
       totalValue := p.totalValue - amount,
       transactions := p.transactions + [t])
  }

  /** The investment update: the invested amount and the value rise by the
      amount and an Investment named after the plan is pushed. Cash is not
      touched: the money comes from the platform wallet, not from the
      portfolio. */
  function Invested(p: Portfolio, amount: int, day: nat, planName: string): (r: Portfolio)
    ensures r.investedAmount == p.investedAmount + amount
    ensures r.totalValue == p.totalValue + amount
    ensures r.availableCash == p.availableCash
    ensures r.transactions == p.transactions + [Transaction(|p.transactions| + 1, day, Investment, planName, 1, amount, amount)]
    ensures r.userId == p.userId && r.holdings == p.holdings
    ensures Consistent(p) ==> Consistent(r)
  {
    var t := NextTransaction(p, day, Investment, planName, amount);
    FlowsAppend(p.transactions, t);
    p.(investedAmount := p.investedAmount + amount,
       totalValue := p.totalValue + amount,
       transactions := p.transactions + [t])
  }

  /** In a consistent portfolio the value is the sum of all transaction totals. */
  lemma {:induction false} ValueIsSumOfTotals(p: Portfolio)
    requires Consistent(p)
    ensures p.totalValue == TotalFlow(p.transactions)
  {
    FlowsSplit(p.transactions);
  }

  lemma {:induction false} FlowsSplit(txns: seq<Transaction>)
    ensures TotalFlow(txns) == CashFlow(txns) + InvestedFlow(txns)
  {
    if txns != [] {
      FlowsSplit(txns[..|txns| - 1]);
    }
  }

  /** One user request against the ledger, with the day it was made. */
  datatype LedgerOp =
    | DepositOp(amount: int, day: nat)
    | WithdrawOp(amount: int, day: nat)
    | InvestOp(amount: int, day: nat, planName: string)

  /** Whether the handler accepts the request: only a withdrawal can be
      refused, when it exceeds the available cash. */
  predicate Accepts(p: Portfolio, op: LedgerOp)
  {
    !op.WithdrawOp? || p.availableCash >= op.amount
  }

  /** The effect of one request; a refused one leaves the portfolio as it was. */
  function Step(p: Portfolio, op: LedgerOp): Portfolio
  {
    if !Accepts(p, op) then p
    else match op
      case DepositOp(a, day) => Deposited(p, a, day)
      case WithdrawOp(a, day) => Withdrawn(p, a, day)
      case InvestOp(a, day, name) => Invested(p, a, day, name)
  }

  /** Replays a history of requests in order. */
  function Replay(p: Portfolio, ops: seq<LedgerOp>): Portfolio
    decreases |ops|
  {
    if ops == [] then p else Replay(Step(p, ops[0]), ops[1..])
  }

  /** How many of the requests are accepted. */
  function AcceptedCount(p: Portfolio, ops: seq<LedgerOp>): nat
    decreases |ops|
  {
    if ops == [] then 0
    else (if Accepts(p, ops[0]) then 1 else 0) + AcceptedCount(Step(p, ops[0]), ops[1..])
  }

  /** Any history of deposits, withdrawals and investments keeps the ledger
      invariant and pushes exactly one transaction per accepted request. */
  lemma {:induction false} ReplayKeepsLedger(p: Portfolio, ops: seq<LedgerOp>)
    requires Consistent(p)
    ensures Consistent(Replay(p, ops))
    ensures |Replay(p, ops).transactions| == |p.transactions| + AcceptedCount(p, ops)
    decreases |ops|
  {
    if ops != [] {
      ReplayKeepsLedger(Step(p, ops[0]), ops[1..]);
    }
  }

  /** From the zeroed portfolio of a new user: totalValue = availableCash +
      investedAmount = the sum of all transaction totals, ids run 1..n. */
  lemma FromZero(userId: nat, ops: seq<LedgerOp>)
    ensures var p := Replay(ZeroPortfolio(userId), ops);
      && p.totalValue == p.availableCash + p.investedAmount
      && p.totalValue == TotalFlow(p.transactions)
      && |p.transactions| == AcceptedCount(ZeroPortfolio(userId), ops)
      && forall i :: 0 <= i < |p.transactions| ==> p.transactions[i].id == i + 1
  {
    ReplayKeepsLedger(ZeroPortfolio(userId), ops);
    ValueIsSumOfTotals(Replay(ZeroPortfolio(userId), ops));
  }
}

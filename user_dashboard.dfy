/** The data logic of Client/src/pages/UserDashboard.jsx: the wallets the
    investment form offers, the unread-notification badge, the chart built
    from the last ten transactions with a running total, and the guards and
    reset of the investment form. The HTTP call is external; its outcome is
    an input. */
module UserDashboard {
  import opened Common
  import opened Ledger

  /** A wallet as the client receives it. */
  datatype WalletView = WalletView(id: string, name: string, currency: string, isActive: bool)

  /** The wallets the investment form offers: the active ones, in order. */
  function ActiveWallets(ws: seq<WalletView>): (r: seq<WalletView>)
    ensures forall w :: w in r <==> w in ws && w.isActive
    ensures IsSubsequence(r, ws)
    ensures forall w :: multiset(r)[w] == if w.isActive then multiset(ws)[w] else 0
  {
    var active := (w: WalletView) => w.isActive;
    FilterIsSubsequence(ws, active);
    forall w ensures w in Filter(ws, active) <==> w in ws && w.isActive {
      FilterMembership(ws, active, w);
    }
    forall w ensures multiset(Filter(ws, active))[w] == if w.isActive then multiset(ws)[w] else 0 {
      FilterCount(ws, active, w);
    }
    Filter(ws, active)
  }

  datatype Notification = Notification(id: int, message: string, kind: string, unread: bool)

  /** The number on the bell badge: how many notifications are unread. */
  function UnreadCount(ns: seq<Notification>): (n: nat)
    ensures n <= |ns|
    ensures n == 0 <==> forall i :: 0 <= i < |ns| ==> !ns[i].unread
  {
    var unread := (x: Notification) => x.unread;
    FilterNonEmpty(ns, unread);
    |Filter(ns, unread)|
  }

  /** The unread count of two lists together is the sum of their counts. */
  lemma UnreadCountAppend(a: seq<Notification>, b: seq<Notification>)
    ensures UnreadCount(a + b) == UnreadCount(a) + UnreadCount(b)
  {
    FilterAppend(a, b, (x: Notification) => x.unread);
  }

  /** The badge is drawn only when some notification is unread. */
  predicate ShowBadge(ns: seq<Notification>)
  {
    UnreadCount(ns) > 0
  }

  lemma BadgeIffUnread(ns: seq<Notification>)
    ensures ShowBadge(ns) <==> exists i :: 0 <= i < |ns| && ns[i].unread
  {
  }

  /** The three notifications the dashboard starts with, two of them unread. */
  function InitialNotifications(): seq<Notification>
  {
    [Notification(1, "Your AAPL position is up 7.32%", "success", true),
     Notification(2, "Market opens in 30 minutes", "info", true),
     Notification(3, "New dividend payment received", "success", false)]
  }

  lemma InitialBadgeShowsTwo()
    ensures UnreadCount(InitialNotifications()) == 2 && ShowBadge(InitialNotifications())
  {
    var ns := InitialNotifications();
    var unread := (x: Notification) => x.unread;
    assert ns == [ns[0]] + ([ns[1]] + [ns[2]]);
    FilterAppend([ns[0]], [ns[1]] + [ns[2]], unread);
    FilterAppend([ns[1]], [ns[2]], unread);
  }

  /** How many transactions the chart shows. */
  const CHART_WINDOW: nat := 10

  /** `slice(-n)` for n > 0: the last n elements, or all of them when there are
      fewer. */
  function LastN<T>(s: seq<T>, n: nat): (r: seq<T>)
    ensures |r| == if |s| < n then |s| else n
    ensures s == s[..|s| - |r|] + r
    ensures forall i :: 0 <= i < |r| ==> r[i] == s[|s| - |r| + i]
  {
    if |s| < n then s else s[|s| - n..]
  }

  /** A point of the portfolio chart: a day and a value. */
  datatype ChartPoint = ChartPoint(day: nat, value: int)

  /** The date and total of each transaction. */
  function TxnPoints(txns: seq<Transaction>): (r: seq<ChartPoint>)
    ensures |r| == |txns|
    ensures forall i :: 0 <= i < |txns| ==> r[i] == ChartPoint(txns[i].day, txns[i].total)
  {
    seq(|txns|, i requires 0 <= i < |txns| => ChartPoint(txns[i].day, txns[i].total))
  }

  /** The chart's raw points: the date and total of each of the last ten
      transactions. */
  function WindowPoints(txns: seq<Transaction>): (r: seq<ChartPoint>)
    ensures |r| <= CHART_WINDOW && |r| <= |txns|
    ensures |r| == if |txns| < CHART_WINDOW then |txns| else CHART_WINDOW
    ensures forall i :: 0 <= i < |r| ==>
      var t := txns[|txns| - |r| + i]; r[i] == ChartPoint(t.day, t.total)
  {
    TxnPoints(LastN(txns, CHART_WINDOW))
  }

  /** Sum of the point values. */
  function ValueSum(points: seq<ChartPoint>): int
  {
    if points == [] then 0 else ValueSum(points[..|points| - 1]) + points[|points| - 1].value
  }

  /** The historical chart: entry i keeps the day of point i and has the total
      value less the values of points 0 to i. */
  function Chart(totalValue: int, points: seq<ChartPoint>): (c: seq<ChartPoint>)
    ensures |c| == |points|
    ensures forall i :: 0 <= i < |points| ==> c[i].day == points[i].day
  {
    seq(|points|, i requires 0 <= i < |points| =>
      ChartPoint(points[i].day, totalValue - ValueSum(points[..i + 1])))
  }

  /** The running-total pass over the (date-sorted) window: runningTotal starts
      at totalValue, and each point subtracts its value and records the rest. */
  method HistoricalChart(totalValue: int, points: seq<ChartPoint>) returns (chart: seq<ChartPoint>)
    ensures chart == Chart(totalValue, points)
  {
    var runningTotal := totalValue;
    chart := [];
    var i := 0;
    while i < |points|
      invariant 0 <= i <= |points|
      invariant runningTotal == totalValue - ValueSum(points[..i])
      invariant chart == Chart(totalValue, points[..i])
    {
      assert points[..i + 1][..i] == points[..i];
      runningTotal := runningTotal - points[i].value;
      chart := chart + [ChartPoint(points[i].day, runningTotal)];
      i := i + 1;
      assert Chart(totalValue, points[..i]) == chart by {
        forall k | 0 <= k < i
          ensures Chart(totalValue, points[..i])[k] == chart[k]
        {
          assert points[..i][..k + 1] == points[..k + 1];
          if k < i - 1 {
            assert points[..i - 1][..k + 1] == points[..k + 1];
          }
        }
      }
    }
    assert points[..|points|] == points;
  }

  /** The first entry is the total value less the first point. */
  lemma ChartFirst(totalValue: int, points: seq<ChartPoint>)
    requires |points| > 0
    ensures Chart(totalValue, points)[0].value == totalValue - points[0].value
  {
    assert points[..1][..0] == [];
    assert ValueSum(points[..1]) == points[0].value;
  }

  /** Each step down the chart is the value of the point at that step. */
  lemma ChartStep(totalValue: int, points: seq<ChartPoint>, i: int)
    requires 0 < i < |points|
    ensures Chart(totalValue, points)[i - 1].value - Chart(totalValue, points)[i].value == points[i].value
  {
    assert points[..i + 1][..i] == points[..i];
  }

  /** The last entry is the total value less all the point values. */
  lemma ChartLast(totalValue: int, points: seq<ChartPoint>)
    requires |points| > 0
    ensures Chart(totalValue, points)[|points| - 1].value == totalValue - ValueSum(points)
  {
    assert points[..|points|] == points;
  }

  /** The point values of a transaction list sum to the ledger's total flow. */
  lemma {:induction false} PointsSumToFlow(txns: seq<Transaction>)
    ensures ValueSum(TxnPoints(txns)) == TotalFlow(txns)
  {
    if txns != [] {
      var init := txns[..|txns| - 1];
      PointsSumToFlow(init);
      assert TxnPoints(txns)[..|txns| - 1] == TxnPoints(init);
    }
  }

  /** For a consistent portfolio with at most ten transactions, in the order the
      ledger pushed them, the chart's last entry is 0: the running total
      undoes every transaction down to the zeroed portfolio. */
  lemma ChartOfWholeHistoryEndsAtZero(p: Portfolio)
    requires Consistent(p)
    requires 0 < |p.transactions| <= CHART_WINDOW
    ensures var c := Chart(p.totalValue, WindowPoints(p.transactions));
      |c| == |p.transactions| && c[|c| - 1].value == 0
  {
    var pts := WindowPoints(p.transactions);
    assert LastN(p.transactions, CHART_WINDOW) == p.transactions;
    PointsSumToFlow(p.transactions);
    ValueIsSumOfTotals(p);
    ChartLast(p.totalValue, pts);
  }

  /** The limits of the plan the form was opened for. */
  datatype PlanChoice = PlanChoice(id: nat, name: string, minAmount: int, maxAmount: int)

  /** The investment form's state. */
  datatype InvestForm = InvestForm(
    selectedPlan: Option<PlanChoice>,
    amountText: string,
    selectedWallet: string,
    showModal: bool)

  /** The body of POST /user/invest. amount is None when parseFloat gives NaN. */
  datatype InvestRequest = InvestRequest(planId: nat, amount: Option<int>, walletId: string)

  /** What the POST came back with: success, or an error with the server's
      message if it sent one. */
  datatype PostOutcome = PostSucceeded | PostFailed(serverMessage: Option<string>)

  /** The alert the user sees. */
  datatype Notice =
    | FillAllFields
    | AmountOutOfRange(minAmount: int, maxAmount: int)
    | InvestmentSucceeded
    | InvestmentFailed(message: string)

  datatype SubmitEffect = SubmitEffect(form: InvestForm, notice: Notice, request: Option<InvestRequest>, reload: bool)

  /** The comparison guard: NaN compares false both ways, so it passes. */
  predicate OutOfRange(amount: Option<int>, plan: PlanChoice)
  {
    amount.Some? && (amount.value < plan.minAmount || amount.value > plan.maxAmount)
  }

  /** submitInvestment. parseAmount stands for parseFloat. */
  function SubmitInvestment(f: InvestForm, parseAmount: string -> Option<int>, outcome: PostOutcome): (e: SubmitEffect)
    ensures e.request.Some? <==>
      f.selectedPlan.Some? && f.amountText != "" && f.selectedWallet != "" &&
      !OutOfRange(parseAmount(f.amountText), f.selectedPlan.value)
    ensures (f.selectedPlan.None? || f.amountText == "" || f.selectedWallet == "") ==>
      e == SubmitEffect(f, FillAllFields, None, false)
    ensures e.request.Some? ==>
      e.request.value == InvestRequest(f.selectedPlan.value.id, parseAmount(f.amountText), f.selectedWallet)
    ensures e.request.None? ==> e.form == f && !e.reload
    ensures e.request.Some? && outcome.PostSucceeded? ==>
      e.form == f.(showModal := false, amountText := "", selectedWallet := "") &&
      e.notice == InvestmentSucceeded && e.reload
    ensures e.request.Some? && outcome.PostFailed? ==>
      e.form == f && !e.reload &&
      e.notice == InvestmentFailed(
        if outcome.serverMessage.Some? && outcome.serverMessage.value != "" then outcome.serverMessage.value
        else "Investment failed")
  {
    if f.selectedPlan.None? || f.amountText == "" || f.selectedWallet == "" then
      SubmitEffect(f, FillAllFields, None, false)
    else
      var plan := f.selectedPlan.value;
      var amount := parseAmount(f.amountText);
      if OutOfRange(amount, plan) then
        SubmitEffect(f, AmountOutOfRange(plan.minAmount, plan.maxAmount), None, false)
      else
        var request := Some(InvestRequest(plan.id, amount, f.selectedWallet));
        match outcome
        case PostSucceeded =>
          SubmitEffect(f.(showModal := false, amountText := "", selectedWallet := ""), InvestmentSucceeded, request, true)
        case PostFailed(m) =>
          var message := if m.Some? && m.value != "" then m.value else "Investment failed";
          SubmitEffect(f, InvestmentFailed(message), request, false)
  }

  /** Both bounds are inclusive: the minimum and the maximum themselves are
      posted, one below and one above are not. */
  lemma RangeBoundsInclusive(f: InvestForm, parseAmount: string -> Option<int>, outcome: PostOutcome)
    requires f.selectedPlan.Some? && f.amountText != "" && f.selectedWallet != ""
    ensures var plan := f.selectedPlan.value;
      && (parseAmount(f.amountText) == Some(plan.minAmount) && plan.minAmount <= plan.maxAmount ==>
            SubmitInvestment(f, parseAmount, outcome).request.Some?)
      && (parseAmount(f.amountText) == Some(plan.maxAmount) && plan.minAmount <= plan.maxAmount ==>
            SubmitInvestment(f, parseAmount, outcome).request.Some?)
      && (parseAmount(f.amountText) == Some(plan.minAmount - 1) ==>
            SubmitInvestment(f, parseAmount, outcome).notice == AmountOutOfRange(plan.minAmount, plan.maxAmount))
      && (parseAmount(f.amountText) == Some(plan.maxAmount + 1) ==>
            SubmitInvestment(f, parseAmount, outcome).notice == AmountOutOfRange(plan.minAmount, plan.maxAmount))
  {
  }

  /** A refused submission does not depend on what the server would have said. */
  lemma RefusalIgnoresServer(f: InvestForm, parseAmount: string -> Option<int>, o1: PostOutcome, o2: PostOutcome)
    requires SubmitInvestment(f, parseAmount, o1).request.None?
    ensures SubmitInvestment(f, parseAmount, o1) == SubmitInvestment(f, parseAmount, o2)
  {
  }
}

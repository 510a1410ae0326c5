/** The view-model: it turns the result of one fetch into the state the
    screen observes. A success becomes a `PortfolioUiModel` with the
    portfolio totals; a failure becomes an error message. The observed
    `LiveData` is modelled by the sequence of values assigned to it. */
module ViewModel {
  import opened Outcomes
  import opened Domain

  /** The screen's model: the holdings and the portfolio totals. */
  datatype PortfolioUiModel = PortfolioUiModel(
    holdings: seq<Portfolio>,
    totalCurrentValue: real,
    totalInvestment: real,
    totalPandL: real,
    todaysPandL: real,
    totalPandLPercentage: real)

  /** What the screen observes. */
  datatype UiState = Loading | Success(data: PortfolioUiModel) | Error(message: string)

  const UnknownErrorMessage: string := "Unknown error"

  /** The per-holding figures that the view-model adds up. */
  datatype Figure = Current | Investment | Today | Profit

  function FigureOf(p: Portfolio, f: Figure): real {
    match f
    case Current => p.CurrentValue()
    case Investment => p.InvestmentValue()
    case Today => p.TodaysPnL()
    case Profit => p.ProfitAndLoss()
  }

  /** `hs.sumOf { figure }`: the figure added up over the list, from the
      front, starting at 0. */
  function SumOf(hs: seq<Portfolio>, f: Figure): real {
    if hs == [] then 0.0 else SumOf(hs[..|hs| - 1], f) + FigureOf(hs[|hs| - 1], f)
  }

  /** `sumOf`'s own loop: an accumulator that starts at 0 and adds the
      figure of each holding in turn. It computes `SumOf`. */
  method Total(hs: seq<Portfolio>, f: Figure) returns (sum: real)
    ensures sum == SumOf(hs, f)
  {
    sum := 0.0;
    var i := 0;
    while i < |hs|
      invariant 0 <= i <= |hs|
      invariant sum == SumOf(hs[..i], f)
    {
      assert hs[..i + 1][..i] == hs[..i];
      sum := sum + FigureOf(hs[i], f);
      i := i + 1;
    }
    assert hs[..|hs|] == hs;
  }

  /** The sum over a concatenation is the sum of the sums. */
  lemma {:induction false} SumOfAppend(a: seq<Portfolio>, b: seq<Portfolio>, f: Figure)
    ensures SumOf(a + b, f) == SumOf(a, f) + SumOf(b, f)
    decreases |b|
  {
    if b == [] {
      assert a + b == a;
    } else {
      var n := |b| - 1;
      assert (a + b)[..|a + b| - 1] == a + b[..n];
      SumOfAppend(a, b[..n], f);
    }
  }

  /** The totals do not depend on the order of the holdings: two lists
      with the same elements have the same sums. */
  lemma {:induction false} SumOfPermutation(a: seq<Portfolio>, b: seq<Portfolio>, f: Figure)
    requires multiset(a) == multiset(b)
    ensures SumOf(a, f) == SumOf(b, f)
    decreases |a|
  {
    if a != [] {
      var n := |a| - 1;
      var x := a[n];
      assert a == a[..n] + [x];
      assert x in multiset(b);
      var i :| 0 <= i < |b| && b[i] == x;
      var rest := b[..i] + b[i + 1..];
      assert b == b[..i] + [x] + b[i + 1..];
      assert multiset(a[..n]) == multiset(a) - multiset{x};
      assert multiset(rest) == multiset(b) - multiset{x};
      SumOfPermutation(a[..n], rest, f);
      SumOfAppend(b[..i] + [x], b[i + 1..], f);
      SumOfAppend(b[..i], [x], f);
      SumOfAppend(b[..i], b[i + 1..], f);
      assert [x][..0] == [];
    }
  }

  /** The total gain is the total market value less the total cost. */
  lemma {:induction false} ProfitIsDifference(hs: seq<Portfolio>)
    ensures SumOf(hs, Profit) == SumOf(hs, Current) - SumOf(hs, Investment)
  {
    if hs != [] {
      ProfitIsDifference(hs[..|hs| - 1]);
    }
  }

  /** The `onSuccess` branch of `fetchPortfolios`: the holdings are kept
      as they are, and the totals are the per-holding sums. The total gain
      is the sum of the holdings' gains; the percentage is the gain
      relative to the investment, and 0 when nothing was invested. */
  function Summarise(hs: seq<Portfolio>): (m: PortfolioUiModel)
    ensures m.holdings == hs
    ensures m.totalCurrentValue == SumOf(hs, Current)
    ensures m.totalInvestment == SumOf(hs, Investment)
    ensures m.todaysPandL == SumOf(hs, Today)
    ensures m.totalPandL == SumOf(hs, Profit)
    ensures m.totalInvestment == 0.0 ==> m.totalPandLPercentage == 0.0
    ensures m.totalInvestment != 0.0 ==> m.totalPandLPercentage * m.totalInvestment == 100.0 * m.totalPandL
    ensures hs == [] ==> m == PortfolioUiModel([], 0.0, 0.0, 0.0, 0.0, 0.0)
  {
    var totalCurrentValue := SumOf(hs, Current);
    var totalInvestment := SumOf(hs, Investment);
    var todaysPandL := SumOf(hs, Today);
    var totalPandL := totalCurrentValue - totalInvestment;
    var percentage := if totalInvestment != 0.0 then (totalPandL / totalInvestment) * 100.0 else 0.0;
    ProfitIsDifference(hs);
    PortfolioUiModel(hs, totalCurrentValue, totalInvestment, totalCurrentValue - totalInvestment, todaysPandL, percentage)
  }

  /** Reordering the holdings reorders the model's list but changes none
      of its totals. */
  lemma {:induction false} SummaryIgnoresOrder(a: seq<Portfolio>, b: seq<Portfolio>)
    requires multiset(a) == multiset(b)
    ensures Summarise(a).(holdings := b) == Summarise(b)
  {
    SumOfPermutation(a, b, Current);
    SumOfPermutation(a, b, Investment);
    SumOfPermutation(a, b, Today);
  }

  /** `err.message ?: "Unknown error"`. */
  function ErrorMessage(e: Exception): (m: string)
    ensures e.message.Some? ==> m == e.message.value
    ensures e.message.None? ==> m == UnknownErrorMessage
  {
    e.message.GetOr(UnknownErrorMessage)
  }

  /** The state a finished use-case call leaves: `Success` with the
      summary of the holdings exactly when the call succeeded, otherwise
      `Error` with the failure's message. It is never `Loading`. */
  function Terminal(result: Outcome<seq<Portfolio>>): (s: UiState)
    ensures !s.Loading?
    ensures s.Success? <==> result.Ok?
    ensures s.Success? ==> s.data.holdings == result.value
    ensures result.Ok? ==> s == Success(Summarise(result.value))
    ensures result.Err? ==> s == Error(ErrorMessage(result.error))
  {
    match result
    case Ok(holdings) => Success(Summarise(holdings))
    case Err(err) => Error(ErrorMessage(err))
  }

  /** The view-model as its observer sees it: every value assigned to
      `portfolioData`, oldest first, and how often the use case ran. */
  datatype ViewModelState = ViewModelState(emitted: seq<UiState>, useCaseCalls: nat)

  /** The observed value of `portfolioData`, or `None` before the first
      assignment. */
  function Observed(vm: ViewModelState): (s: Option<UiState>)
    ensures s.None? <==> vm.emitted == []
    ensures s.Some? ==> s.value == vm.emitted[|vm.emitted| - 1]
  {
    if vm.emitted == [] then None else Some(vm.emitted[|vm.emitted| - 1])
  }

  /** `fetchPortfolios()`, with the use case's result as a parameter:
      `Loading` is assigned, the use case runs once, and its result is
      turned into the terminal state. */
  function FetchPortfolios(vm: ViewModelState, result: Outcome<seq<Portfolio>>): (r: ViewModelState)
    ensures r.emitted == vm.emitted + [Loading, Terminal(result)]
    ensures r.useCaseCalls == vm.useCaseCalls + 1
  {
    ViewModelState(vm.emitted + [Loading, Terminal(result)], vm.useCaseCalls + 1)
  }

  /** Construction: the `init` block fetches once. */
  function Create(result: Outcome<seq<Portfolio>>): (vm: ViewModelState)
    ensures vm.useCaseCalls == 1
    ensures vm.emitted == [Loading, Terminal(result)]
    ensures Observed(vm) == Some(Terminal(result))
  {
    FetchPortfolios(ViewModelState([], 0), result)
  }

  /** Every fetch so far emitted `Loading` followed by exactly one
      terminal state, and nothing else was emitted. */
  predicate WellFormedTrace(vm: ViewModelState) {
    && |vm.emitted| == 2 * vm.useCaseCalls
    && (forall k :: 0 <= k < vm.useCaseCalls ==> vm.emitted[2 * k] == Loading)
    && (forall k :: 0 <= k < vm.useCaseCalls ==> !vm.emitted[2 * k + 1].Loading?)
  }

  /** A view-model that is created and then fetched again, the use case
      answering `results[0]`, `results[1]`, … in turn. */
  function Session(results: seq<Outcome<seq<Portfolio>>>): (vm: ViewModelState)
    requires results != []
    ensures vm.useCaseCalls == |results|
    ensures WellFormedTrace(vm)
    ensures forall k :: 0 <= k < |results| ==> vm.emitted[2 * k + 1] == Terminal(results[k])
    ensures Observed(vm) == Some(Terminal(results[|results| - 1]))
  {
    var n := |results| - 1;
    if n == 0 then Create(results[0])
    else
      var before := Session(results[..n]);
      var after := FetchPortfolios(before, results[n]);
      assert after.emitted[2 * n] == Loading;
      assert forall k :: 0 <= k < n ==> after.emitted[2 * k] == before.emitted[2 * k];
      assert forall k :: 0 <= k < n ==> after.emitted[2 * k + 1] == before.emitted[2 * k + 1];
      after
  }

  /** A fetch keeps the trace well formed. */
  lemma {:induction false} FetchKeepsTraceWellFormed(vm: ViewModelState, result: Outcome<seq<Portfolio>>)
    requires WellFormedTrace(vm)
    ensures WellFormedTrace(FetchPortfolios(vm, result))
  {
    var after := FetchPortfolios(vm, result);
    forall k | 0 <= k < after.useCaseCalls
      ensures after.emitted[2 * k] == Loading && !after.emitted[2 * k + 1].Loading?
    {
      if k < vm.useCaseCalls {
        assert after.emitted[2 * k] == vm.emitted[2 * k];
        assert after.emitted[2 * k + 1] == vm.emitted[2 * k + 1];
      }
    }
  }

  // The scenarios of the view-model's unit tests.

  /** Two holdings: market value 3000, cost 2300, gain 700, day's figure
      25, and a gain of 700/23 percent. */
  lemma {:induction false} TwoHoldingsTotals()
    ensures var hs := [Portfolio("AAPL", 10, 100.0, 80.0, 105.0), Portfolio("GOOGL", 5, 400.0, 300.0, 395.0)];
      Create(Ok(hs)) == ViewModelState([Loading, Success(PortfolioUiModel(hs, 3000.0, 2300.0, 700.0, 25.0, 700.0 / 23.0))], 1)
  {
    var hs := [Portfolio("AAPL", 10, 100.0, 80.0, 105.0), Portfolio("GOOGL", 5, 400.0, 300.0, 395.0)];
    assert hs[..1] == [hs[0]];
    assert hs[..1][..0] == [];
    forall f: Figure
      ensures SumOf(hs, f) == FigureOf(hs[0], f) + FigureOf(hs[1], f)
    {
      assert SumOf(hs[..1], f) == SumOf([], f) + FigureOf(hs[0], f);
    }
    var m := Summarise(hs);
    assert m.totalCurrentValue == 3000.0 && m.totalInvestment == 2300.0;
    assert m.todaysPandL == 25.0;
    assert m.totalPandLPercentage == (700.0 / 2300.0) * 100.0 == 700.0 / 23.0;
  }

  /** No holdings: `Loading`, then a success with all totals 0. */
  lemma {:induction false} EmptyHoldingsGiveZeros()
    ensures Create(Ok([])) == ViewModelState([Loading, Success(PortfolioUiModel([], 0.0, 0.0, 0.0, 0.0, 0.0))], 1)
  {
  }

  /** A failure with a message shows that message. */
  lemma {:induction false} FailureShowsMessage(cls: ExceptionClass, cause: Option<Exception>)
    ensures Observed(Create(Err(Exception(cls, Some("Network error occurred"), cause)))) == Some(Error("Network error occurred"))
  {
  }

  /** A failure without a message shows "Unknown error". */
  lemma {:induction false} FailureWithoutMessage(cls: ExceptionClass, cause: Option<Exception>)
    ensures Observed(Create(Err(Exception(cls, None, cause)))) == Some(Error("Unknown error"))
  {
  }
}

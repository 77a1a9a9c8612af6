/** The summary cards of the profits page: portfolio sums and the average
    margin over the list the profits route returns. */
module ProfitsPage {
  import opened Profits

  datatype Summary = Summary(totalProfit: real, totalRevenue: real, totalExpenses: real, averageMargin: real)

  /** The per-project figure a roll-up adds up. */
  datatype Measure = Profit | Revenue | Cost | Margin

  function Of(p: ProjectProfit, m: Measure): real
  {
    match m
    case Profit => p.profit
    case Revenue => p.totalIncome
    case Cost => p.totalExpenses
    case Margin => p.profitMargin
  }

  /** `profits.reduce((sum, project) => sum + project.<m>, 0)`, folded from the left. */
  function Total(l: seq<ProjectProfit>, m: Measure): real
  {
    if |l| == 0 then 0.0 else Total(l[..|l| - 1], m) + Of(l[|l| - 1], m)
  }

  /** The four summary figures; the average margin of an empty list is 0. */
  function Summarize(l: seq<ProjectProfit>): (s: Summary)
    ensures |l| == 0 ==> s == Summary(0.0, 0.0, 0.0, 0.0)
    ensures |l| > 0 ==> s.averageMargin * (|l| as real) == Total(l, Margin)
  {
    Summary(Total(l, Profit), Total(l, Revenue), Total(l, Cost),
            if |l| > 0 then Total(l, Margin) / (|l| as real) else 0.0)
  }

  /** A roll-up of a concatenation is the sum of the roll-ups. */
  lemma {:induction false} TotalAppend(a: seq<ProjectProfit>, b: seq<ProjectProfit>, m: Measure)
    ensures Total(a + b, m) == Total(a, m) + Total(b, m)
    decreases |b|
  {
    if |b| > 0 {
      var b' := b[..|b| - 1];
      TotalAppend(a, b', m);
      assert (a + b)[..|a + b| - 1] == a + b';
    } else {
      assert a + b == a;
    }
  }

  /** Taking entry `k` out of a list takes its figure out of the roll-up
      and one copy of it out of the multiset. */
  lemma RemoveEntry(b: seq<ProjectProfit>, k: int, m: Measure)
    requires 0 <= k < |b|
    ensures multiset(b[..k] + b[k + 1..]) == multiset(b) - multiset{b[k]}
    ensures Total(b, m) == Total(b[..k] + b[k + 1..], m) + Of(b[k], m)
  {
    assert b == b[..k] + [b[k]] + b[k + 1..];
    TotalAppend(b[..k], [b[k]], m);
    TotalAppend(b[..k] + [b[k]], b[k + 1..], m);
    TotalAppend(b[..k], b[k + 1..], m);
    assert Total([b[k]], m) == Of(b[k], m) by {
      assert [b[k]][..0] == [];
    }
  }

  /** A roll-up does not depend on the order of the list. */
  lemma {:induction false} TotalIgnoresOrder(a: seq<ProjectProfit>, b: seq<ProjectProfit>, m: Measure)
    requires multiset(a) == multiset(b)
    ensures Total(a, m) == Total(b, m)
    decreases |a|
  {
    if |a| > 0 {
      var x := a[|a| - 1];
      var a' := a[..|a| - 1];
      assert a == a' + [x];
      assert multiset(a') == multiset(a) - multiset{x};
      assert x in b by {
        assert x in multiset(b);
      }
      var k :| 0 <= k < |b| && b[k] == x;
      var b' := b[..k] + b[k + 1..];
      RemoveEntry(b, k, m);
      assert multiset(a') == multiset(b');
      TotalIgnoresOrder(a', b', m);
      assert Total(a, m) == Total(a', m) + Of(x, m);
    } else {
      assert |b| == |multiset(b)| == 0;
    }
  }

  /** The summary cards do not depend on the order of the list. */
  lemma SummaryIgnoresOrder(a: seq<ProjectProfit>, b: seq<ProjectProfit>)
    requires multiset(a) == multiset(b)
    ensures Summarize(a) == Summarize(b)
  {
    TotalIgnoresOrder(a, b, Profit);
    TotalIgnoresOrder(a, b, Revenue);
    TotalIgnoresOrder(a, b, Cost);
    TotalIgnoresOrder(a, b, Margin);
    assert |a| == |multiset(a)| == |multiset(b)| == |b|;
  }

  /** When every entry's profit is its income minus its expenses, the total
      profit card is the revenue card minus the expenses card. */
  lemma {:induction false} SummaryBalances(l: seq<ProjectProfit>)
    requires forall p :: p in l ==> p.profit == p.totalIncome - p.totalExpenses
    ensures Summarize(l).totalProfit == Summarize(l).totalRevenue - Summarize(l).totalExpenses
    decreases |l|
  {
    if |l| > 0 {
      var l' := l[..|l| - 1];
      assert forall p :: p in l' ==> p in l;
      SummaryBalances(l');
    }
  }

  /** On the route's list: the summary is that of the unsorted per-row
      records (the sort only reorders), and its profit card is revenue minus
      expenses. */
  lemma PageSummaryOfRoute(projects: Sheets.Range, clients: Sheets.Range, income: Sheets.Range, expenses: Sheets.Range,
                           parse: Sheets.Parser, margin: MarginFn)
    ensures Summarize(ProjectProfits(projects, clients, income, expenses, parse, margin))
         == Summarize(Unsorted(projects, clients, income, expenses, parse, margin))
    ensures var s := Summarize(ProjectProfits(projects, clients, income, expenses, parse, margin));
            s.totalProfit == s.totalRevenue - s.totalExpenses
  {
    var ps := ProjectProfits(projects, clients, income, expenses, parse, margin);
    SummaryIgnoresOrder(ps, Unsorted(projects, clients, income, expenses, parse, margin));
    SummaryBalances(ps);
  }
}

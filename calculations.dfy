/**
 * The budget calculator: pure functions from category records and totals to
 * differences, totals, a chart breakdown, a health score, a status and the
 * 50/30/20 comparison. Amounts are exact reals.
 */
module Calculations {
  import opened Wrappers
  import Numbers

  /** A value where the calculator expects a number: `Some(x)` for the number
      `x`, `None` for `undefined`, `null` or `NaN`. */
  type Amount = Option<real>

  /** JavaScript's `x || 0`: every falsy value reads as 0. */
  function OrZero(a: Amount): real {
    a.GetOr(0.0)
  }

  datatype Field = Plan | Actual

  /** One line item of a section. */
  datatype CategoryRecord = CategoryRecord(id: string, name: string, plan: Amount, actual: Amount) {
    function Get(f: Field): Amount {
      match f
      case Plan => plan
      case Actual => actual
    }
  }

  /** Actual minus plan: positive is over budget, negative under budget. */
  function Difference(actual: Amount, plan: Amount): (d: real)
    ensures d > 0.0 <==> OrZero(actual) > OrZero(plan)
    ensures d < 0.0 <==> OrZero(actual) < OrZero(plan)
    ensures actual == None ==> d == -OrZero(plan)
    ensures plan == None ==> d == OrZero(actual)
  {
    OrZero(actual) - OrZero(plan)
  }

  // ---------------------------------------------------------------- totals

  /** `s.reduce((sum, x) => sum + f(x), 0)`: a left fold from 0. */
  function SumBy<T>(s: seq<T>, f: T -> real): real {
    if |s| == 0 then 0.0 else SumBy(s[..|s| - 1], f) + f(s[|s| - 1])
  }

  /** The coalesced value of one field of a record. */
  function FieldValue(f: Field): CategoryRecord -> real {
    (r: CategoryRecord) => OrZero(r.Get(f))
  }

  function CategoryTotal(s: seq<CategoryRecord>): real {
    SumBy(s, FieldValue(Actual))
  }

  function PlanTotal(s: seq<CategoryRecord>): real {
    SumBy(s, FieldValue(Plan))
  }

  lemma SectionTotalsOfEmpty()
    ensures CategoryTotal([]) == 0.0 && PlanTotal([]) == 0.0
  {
  }

  /** Appending a record adds exactly its coalesced field. */
  lemma SectionTotalsAppend(s: seq<CategoryRecord>, r: CategoryRecord)
    ensures CategoryTotal(s + [r]) == CategoryTotal(s) + OrZero(r.actual)
    ensures PlanTotal(s + [r]) == PlanTotal(s) + OrZero(r.plan)
  {
    assert (s + [r])[..|s|] == s;
  }

  lemma {:induction false} SumByNonNegative<T>(s: seq<T>, f: T -> real)
    requires forall i :: 0 <= i < |s| ==> f(s[i]) >= 0.0
    ensures SumBy(s, f) >= 0.0
    decreases |s|
  {
    if |s| > 0 {
      SumByNonNegative(s[..|s| - 1], f);
    }
  }

  /** Non-negative fields give non-negative totals. */
  lemma SectionTotalsNonNegative(s: seq<CategoryRecord>)
    ensures (forall i :: 0 <= i < |s| ==> OrZero(s[i].actual) >= 0.0) ==> CategoryTotal(s) >= 0.0
    ensures (forall i :: 0 <= i < |s| ==> OrZero(s[i].plan) >= 0.0) ==> PlanTotal(s) >= 0.0
  {
    if forall i :: 0 <= i < |s| ==> OrZero(s[i].actual) >= 0.0 {
      SumByNonNegative(s, FieldValue(Actual));
    }
    if forall i :: 0 <= i < |s| ==> OrZero(s[i].plan) >= 0.0 {
      SumByNonNegative(s, FieldValue(Plan));
    }
  }

  lemma {:induction false} SumByConcat<T>(a: seq<T>, b: seq<T>, f: T -> real)
    ensures SumBy(a + b, f) == SumBy(a, f) + SumBy(b, f)
    decreases |b|
  {
    if |b| == 0 {
      assert a + b == a;
    } else {
      var b' := b[..|b| - 1];
      assert (a + b)[..|a + b| - 1] == a + b';
      assert (a + b)[|a + b| - 1] == b[|b| - 1];
      SumByConcat(a, b', f);
    }
  }

  /** Taking out the element at `j` takes one copy of it out of the multiset. */
  lemma MultisetRemove<T>(t: seq<T>, j: nat)
    requires j < |t|
    ensures multiset(t[..j] + t[j + 1..]) == multiset(t) - multiset{t[j]}
  {
    assert t == t[..j] + [t[j]] + t[j + 1..];
  }

  lemma SumBySingleton<T>(x: T, f: T -> real)
    ensures SumBy([x], f) == f(x)
  {
    assert [x][..0] == [];
  }

  /** Taking out the element at `j` takes its value out of the fold. */
  lemma {:induction false} SumByRemove<T>(t: seq<T>, j: nat, f: T -> real)
    requires j < |t|
    ensures SumBy(t, f) == SumBy(t[..j] + t[j + 1..], f) + f(t[j])
    decreases |t|
  {
    var rest := t[..j] + t[j + 1..];
    var t' := t[..|t| - 1];
    if j == |t| - 1 {
      assert rest == t';
    } else {
      var rest' := t'[..j] + t'[j + 1..];
      SumByRemove(t', j, f);
      assert rest[..|rest| - 1] == rest' && rest[|rest| - 1] == t[|t| - 1];
    }
  }

  /** The fold does not depend on the order of the elements. */
  lemma {:induction false} SumByPermutation<T>(s: seq<T>, t: seq<T>, f: T -> real)
    requires multiset(s) == multiset(t)
    ensures SumBy(s, f) == SumBy(t, f)
    decreases |s|
  {
    if |s| == 0 {
      assert |multiset(t)| == 0;
    } else {
      var x := s[|s| - 1];
      var s' := s[..|s| - 1];
      assert s == s' + [x];
      assert multiset(s') == multiset(s) - multiset{x};
      assert x in multiset(t);
      var j :| 0 <= j < |t| && t[j] == x;
      MultisetRemove(t, j);
      SumByRemove(t, j, f);
      SumByPermutation(s', t[..j] + t[j + 1..], f);
    }
  }

  /** Folds of element-wise equal values are equal. */
  lemma {:induction false} SumByPointwise<T>(s: seq<T>, t: seq<T>, f: T -> real)
    requires |s| == |t|
    requires forall i :: 0 <= i < |s| ==> f(s[i]) == f(t[i])
    ensures SumBy(s, f) == SumBy(t, f)
    decreases |s|
  {
    if |s| > 0 {
      SumByPointwise(s[..|s| - 1], t[..|t| - 1], f);
    }
  }

  /** Replacing one element moves the fold by the change in its value. */
  lemma SumByReplace<T>(s: seq<T>, j: nat, x: T, f: T -> real)
    requires j < |s|
    ensures SumBy(s[j := x], f) == SumBy(s, f) - f(s[j]) + f(x)
  {
    assert s == s[..j] + [s[j]] + s[j + 1..];
    assert s[j := x] == s[..j] + [x] + s[j + 1..];
    SumByConcat(s[..j] + [s[j]], s[j + 1..], f);
    SumByConcat(s[..j], [s[j]], f);
    SumByConcat(s[..j] + [x], s[j + 1..], f);
    SumByConcat(s[..j], [x], f);
    SumBySingleton(x, f);
    SumBySingleton(s[j], f);
  }

  /** Reordering a section does not change its totals. */
  lemma SectionTotalsPermutation(s: seq<CategoryRecord>, t: seq<CategoryRecord>)
    requires multiset(s) == multiset(t)
    ensures CategoryTotal(s) == CategoryTotal(t) && PlanTotal(s) == PlanTotal(t)
  {
    SumByPermutation(s, t, FieldValue(Actual));
    SumByPermutation(s, t, FieldValue(Plan));
  }

  // -------------------------------------------------------------- remaining

  /** Income less the four coalesced totals. */
  function RemainingAmount(income: Amount, essential: Amount, nonEssential: Amount, savings: Amount, debt: Amount): real {
    OrZero(income) - OrZero(essential) - OrZero(nonEssential) - OrZero(savings) - OrZero(debt)
  }

  /** The remaining amount is income less the sum of the subtracted terms. */
  lemma RemainingIsIncomeLessSum(income: Amount, e: Amount, n: Amount, s: Amount, d: Amount)
    ensures RemainingAmount(income, e, n, s, d) == OrZero(income) - SumBy([e, n, s, d], OrZero)
  {
    assert [e][..0] == [];
    assert SumBy([e], OrZero) == OrZero(e);
    assert [e, n][..1] == [e];
    assert SumBy([e, n], OrZero) == OrZero(e) + OrZero(n);
    assert [e, n, s][..2] == [e, n];
    assert SumBy([e, n, s], OrZero) == OrZero(e) + OrZero(n) + OrZero(s);
    assert [e, n, s, d][..3] == [e, n, s];
  }

  /** Any reordering of the subtracted terms gives the same remaining amount. */
  lemma RemainingIgnoresOrder(income: Amount, e: Amount, n: Amount, s: Amount, d: Amount,
                              e': Amount, n': Amount, s': Amount, d': Amount)
    requires multiset{e, n, s, d} == multiset{e', n', s', d'}
    ensures RemainingAmount(income, e, n, s, d) == RemainingAmount(income, e', n', s', d')
  {
    RemainingIsIncomeLessSum(income, e, n, s, d);
    RemainingIsIncomeLessSum(income, e', n', s', d');
    assert multiset([e, n, s, d]) == multiset{e, n, s, d};
    assert multiset([e', n', s', d']) == multiset{e', n', s', d'};
    SumByPermutation([e, n, s, d], [e', n', s', d'], OrZero);
  }

  /** Worked examples. */
  lemma RemainingExample()
    ensures RemainingAmount(Some(100.0), Some(10.0), Some(20.0), Some(0.0), Some(0.0)) == 70.0
    ensures RemainingAmount(Some(100.0), None, Some(20.0), None, None) == 80.0
  {
  }

  // ------------------------------------------------------ chart breakdown

  /** `s.filter(keep)`: the elements that pass, in their order. */
  function Filter<T>(s: seq<T>, keep: T -> bool): (r: seq<T>)
    ensures |r| <= |s|
    ensures forall i :: 0 <= i < |r| ==> r[i] in s && keep(r[i])
    ensures forall i :: 0 <= i < |s| && keep(s[i]) ==> s[i] in r
    decreases |s|
  {
    if |s| == 0 then [] else (if keep(s[0]) then [s[0]] else []) + Filter(s[1..], keep)
  }

  /** The test that passes what `keep` rejects. */
  function Reject<T>(keep: T -> bool): T -> bool {
    x => !keep(x)
  }

  /** Filtering loses nothing and copies nothing: with what the test rejects,
      the kept elements make up exactly the input, copies counted. */
  lemma {:induction false} FilterPartition<T>(s: seq<T>, keep: T -> bool)
    ensures multiset(Filter(s, keep)) + multiset(Filter(s, Reject(keep))) == multiset(s)
    decreases |s|
  {
    if |s| > 0 {
      var x, t := s[0], s[1..];
      FilterPartition(t, keep);
      assert multiset(s) == multiset{x} + multiset(t) by {
        assert s == [x] + t;
      }
      if keep(x) {
        assert Filter(s, keep) == [x] + Filter(t, keep);
        assert Filter(s, Reject(keep)) == Filter(t, Reject(keep));
      } else {
        assert Filter(s, keep) == Filter(t, keep);
        assert Filter(s, Reject(keep)) == [x] + Filter(t, Reject(keep));
      }
    }
  }

  /** The elements of `s` appear in strictly increasing `rank`. */
  predicate Ascending<T>(s: seq<T>, rank: T -> int) {
    forall i, j :: 0 <= i < j < |s| ==> rank(s[i]) < rank(s[j])
  }

  /** What passes the filter keeps any lower bound on `rank`. */
  lemma {:induction false} FilterKeepsBound<T>(s: seq<T>, keep: T -> bool, rank: T -> int, bound: int)
    requires forall i :: 0 <= i < |s| ==> bound < rank(s[i])
    ensures forall i :: 0 <= i < |Filter(s, keep)| ==> bound < rank(Filter(s, keep)[i])
    decreases |s|
  {
    if |s| > 0 {
      FilterKeepsBound(s[1..], keep, rank, bound);
    }
  }

  /** Filtering keeps the relative order of what it keeps. */
  lemma {:induction false} FilterKeepsOrder<T>(s: seq<T>, keep: T -> bool, rank: T -> int)
    requires Ascending(s, rank)
    ensures Ascending(Filter(s, keep), rank)
    decreases |s|
  {
    if |s| > 0 {
      var rest := Filter(s[1..], keep);
      assert Ascending(s[1..], rank);
      FilterKeepsOrder(s[1..], keep, rank);
      FilterKeepsBound(s[1..], keep, rank, rank(s[0]));
      assert Filter(s, keep) == (if keep(s[0]) then [s[0]] else []) + rest;
    }
  }

  /** The five groups of the dashboard, in the order its charts list them. */
  datatype Category = Income | Essential | NonEssential | Savings | Debt {

    /** Position in the fixed chart order. */
    function Ordinal(): nat {
      match this
      case Income => 0
      case Essential => 1
      case NonEssential => 2
      case Savings => 3
      case Debt => 4
    }

    /** The name the pie chart and the breakdown give the group. */
    function Label(): string {
      match this
      case Income => "Income"
      case Essential => "Essential Expenses"
      case NonEssential => "Non-Essential Expenses"
      case Savings => "Savings & Investments"
      case Debt => "Debt/Loans"
    }
  }

  /** A chart segment: a category (shown by its `Label`), its amount and its
      share of income in percent. */
  /** No two groups share a name, so a chart row's name identifies its group. */
  lemma LabelsIdentifyCategories(c: Category, d: Category)
    ensures c.Label() == d.Label() ==> c == d
  {
    if c != d {
      assert c.Label()[0] != d.Label()[0] || |c.Label()| != |d.Label()|;
    }
  }

  datatype Slice = Slice(category: Category, value: real, percentage: real)

  function SliceOrdinal(x: Slice): int {
    x.category.Ordinal()
  }

  predicate IsPositive(x: Slice) {
    x.value > 0.0
  }

  /** `part / whole * 100`, before `toFixed(1)`. */
  function Percentage(part: real, whole: real): real
    requires whole != 0.0
  {
    part / whole * 100.0
  }

  /** The expense categories in the order the breakdown lists them. */
  const BreakdownOrder: seq<Category> := [Essential, NonEssential, Savings, Debt]

  /** The four segments in the fixed order, before filtering. */
  function BreakdownCandidates(totalIncome: real, values: seq<real>): (c: seq<Slice>)
    requires totalIncome != 0.0 && |values| == 4
    ensures |c| == 4
    ensures forall k :: 0 <= k < 4 ==> c[k].category == BreakdownOrder[k] && c[k].value == values[k]
  {
    [Slice(Essential, values[0], Percentage(values[0], totalIncome)),
     Slice(NonEssential, values[1], Percentage(values[1], totalIncome)),
     Slice(Savings, values[2], Percentage(values[2], totalIncome)),
     Slice(Debt, values[3], Percentage(values[3], totalIncome))]
  }

  /** A positive candidate survives the filter. */
  lemma CandidateShown(c: seq<Slice>, k: nat)
    requires k < |c| && IsPositive(c[k])
    ensures exists i :: 0 <= i < |Filter(c, IsPositive)| && Filter(c, IsPositive)[i] == c[k]
  {
    assert c[k] in Filter(c, IsPositive);
  }

  /** After filtering, a category is shown exactly when its amount is positive. */
  lemma CandidatesFiltered(totalIncome: real, values: seq<real>)
    requires totalIncome != 0.0 && |values| == 4
    ensures var r := Filter(BreakdownCandidates(totalIncome, values), IsPositive);
            forall k :: 0 <= k < 4 ==>
              ((exists i :: 0 <= i < |r| && r[i].category == BreakdownOrder[k]) <==> values[k] > 0.0)
  {
    var c := BreakdownCandidates(totalIncome, values);
    var r := Filter(c, IsPositive);
    forall k | 0 <= k < 4
      ensures (exists i :: 0 <= i < |r| && r[i].category == BreakdownOrder[k]) <==> values[k] > 0.0
    {
      if values[k] > 0.0 {
        CandidateShown(c, k);
      }
      if exists i :: 0 <= i < |r| && r[i].category == BreakdownOrder[k] {
        var i :| 0 <= i < |r| && r[i].category == BreakdownOrder[k];
        assert r[i] in c;
        var j :| 0 <= j < 4 && c[j] == r[i];
        assert BreakdownOrder[j] == BreakdownOrder[k];
      }
    }
  }

  /** The pie chart data: the positive expense categories with their share of
      income, in the order essential, non-essential, savings, debt; nothing at
      all for an income of exactly 0. */
  function PercentageBreakdown(totalIncome: real, essential: real, nonEssential: real, savings: real, debt: real)
    : (r: seq<Slice>)
    ensures totalIncome == 0.0 ==> r == []
    ensures |r| <= 4
    ensures forall i :: 0 <= i < |r| ==>
              && r[i].value > 0.0
              && r[i].category != Income
              && r[i].value == [essential, nonEssential, savings, debt][r[i].category.Ordinal() - 1]
              && totalIncome != 0.0 && r[i].percentage == Percentage(r[i].value, totalIncome)
    ensures Ascending(r, SliceOrdinal)
    ensures totalIncome != 0.0 ==>
              forall k :: 0 <= k < 4 ==>
                ((exists i :: 0 <= i < |r| && r[i].category == BreakdownOrder[k])
                 <==> [essential, nonEssential, savings, debt][k] > 0.0)
  {
    if totalIncome == 0.0 then
      []
    else
      var values := [essential, nonEssential, savings, debt];
      var c := BreakdownCandidates(totalIncome, values);
      assert Ascending(c, SliceOrdinal);
      FilterKeepsOrder(c, IsPositive, SliceOrdinal);
      CandidatesFiltered(totalIncome, values);
      var r := Filter(c, IsPositive);
      assert forall i :: 0 <= i < |r| ==> r[i] in c;
      r
  }

  /** Worked examples. */
  lemma BreakdownExamples()
    ensures PercentageBreakdown(0.0, 10.0, 5.0, 0.0, 0.0) == []
    ensures PercentageBreakdown(100.0, 50.0, 0.0, 0.0, 0.0) == [Slice(Essential, 50.0, 50.0)]
  {
    var r := PercentageBreakdown(100.0, 50.0, 0.0, 0.0, 0.0);
    assert forall i :: 0 <= i < |r| ==> r[i].category == Essential;
    assert exists i :: 0 <= i < |r| && r[i].category == BreakdownOrder[0];
    assert |r| == 1;
  }

  // --------------------------------------------------- formatting, input

  /** `formatCurrency`: the host's KES formatter (no decimals) applied to the
      coalesced amount; the locale formatter is the parameter `format`. */
  function FormatCurrency(format: real -> string, amount: Amount): (text: string)
    ensures amount == None ==> text == format(0.0)
    ensures amount.Some? ==> text == format(amount.value)
  {
    format(OrZero(amount))
  }

  /** True when the text parses to a number that is at least 0. */
  function IsValidPositiveNumber(value: string): (ok: bool)
    ensures ok <==> Numbers.ParseFloat(value).Some? && Numbers.ParseFloat(value).value >= 0.0
  {
    match Numbers.ParseFloat(value)
    case Some(x) => x >= 0.0
    case None => false
  }

  /** Every natural number written out is accepted; a negative one is not. */
  lemma ValidPositiveNumberOfNaturals(n: nat)
    ensures IsValidPositiveNumber(Numbers.NatToDecimal(n))
    ensures IsValidPositiveNumber("-" + Numbers.NatToDecimal(n)) <==> n == 0
  {
    Numbers.NatToDecimalRoundTrip(n, "");
    assert Numbers.NatToDecimal(n) + "" == Numbers.NatToDecimal(n);
    Numbers.NegatedNatToDecimal(n);
  }

  /** Text without a digit is never a valid amount. */
  lemma ValidPositiveNumberNeedsDigit(value: string)
    requires forall i :: 0 <= i < |value| ==> !Numbers.IsDigit(value[i])
    ensures !IsValidPositiveNumber(value)
  {
    Numbers.ParseFloatNeedsDigit(value);
  }

  /** Worked examples. */
  lemma ValidPositiveNumberAccepts42()
    ensures IsValidPositiveNumber("42")
  {
    assert Numbers.NatToDecimal(4) == "4";
    assert Numbers.NatToDecimal(42) == "42";
    ValidPositiveNumberOfNaturals(42);
  }

  lemma ValidPositiveNumberRejectsMinusOne()
    ensures !IsValidPositiveNumber("-1")
  {
    assert Numbers.NatToDecimal(1) == "1";
    assert "-" + Numbers.NatToDecimal(1) == "-1";
    ValidPositiveNumberOfNaturals(1);
  }

  lemma ValidPositiveNumberRejectsWord()
    ensures !IsValidPositiveNumber("abc")
  {
    ValidPositiveNumberNeedsDigit("abc");
  }

  // ---------------------------------------------------------- health score

  /** The share of income not spent, in percent. */
  function SavingsRate(income: real, totalExpenses: real): real
    requires income != 0.0
  {
    (income - totalExpenses) / income * 100.0
  }

  /** The five-tier score; each tier's threshold is an inclusive lower bound. */
  function BudgetHealthScore(income: real, totalExpenses: real): (score: int)
    ensures score in {0, 20, 40, 60, 80, 100}
    ensures score == 0 <==> income == 0.0
    ensures income != 0.0 ==> (score == 100 <==> SavingsRate(income, totalExpenses) >= 20.0)
    ensures income != 0.0 ==> (score >= 80 <==> SavingsRate(income, totalExpenses) >= 10.0)
    ensures income != 0.0 ==> (score >= 60 <==> SavingsRate(income, totalExpenses) >= 5.0)
    ensures income != 0.0 ==> (score >= 40 <==> SavingsRate(income, totalExpenses) >= 0.0)
  {
    if income == 0.0 then
      0
    else
      var savingsRate := SavingsRate(income, totalExpenses);
      if savingsRate >= 20.0 then 100
      else if savingsRate >= 10.0 then 80
      else if savingsRate >= 5.0 then 60
      else if savingsRate >= 0.0 then 40
      else 20
  }

  lemma SavingsRateAntitone(income: real, e1: real, e2: real)
    requires income > 0.0 && e1 <= e2
    ensures SavingsRate(income, e2) <= SavingsRate(income, e1)
  {
    var q1, q2 := (income - e1) / income, (income - e2) / income;
    assert q1 - q2 == (e2 - e1) / income;
    assert (e2 - e1) / income >= 0.0;
  }

  /** With positive income, spending more never raises the score. */
  lemma HealthScoreMonotone(income: real, e1: real, e2: real)
    requires income > 0.0 && e1 <= e2
    ensures BudgetHealthScore(income, e2) <= BudgetHealthScore(income, e1)
  {
    SavingsRateAntitone(income, e1, e2);
  }

  /** Worked examples. */
  lemma HealthScoreExamples()
    ensures BudgetHealthScore(1000.0, 800.0) == 100
    ensures BudgetHealthScore(1000.0, 950.0) == 60
    ensures BudgetHealthScore(0.0, 500.0) == 0
  {
  }

  // ---------------------------------------------------------------- status

  datatype Status = Positive | Negative | Balanced

  /** The status, its message and two presentation tags. */
  datatype BudgetStatus = BudgetStatus(status: Status, message: string, color: string, bgColor: string)

  const BalancedMessage: string := "Your budget is perfectly balanced"

  /** Classifies the remaining amount by its sign. A missing or NaN amount
      compares false both ways and so reads as balanced. */
  function GetBudgetStatus(format: real -> string, remainingAmount: Amount): (b: BudgetStatus)
    ensures b.status == Positive <==> OrZero(remainingAmount) > 0.0
    ensures b.status == Negative <==> OrZero(remainingAmount) < 0.0
    ensures b.status == Balanced <==> OrZero(remainingAmount) == 0.0
    ensures b.status == Positive ==>
              b.message == "You have " + FormatCurrency(format, remainingAmount) + " left in your budget"
    ensures b.status == Negative ==>
              b.message == "You are over budget by " + FormatCurrency(format, Some(-OrZero(remainingAmount)))
    ensures b.status == Balanced ==> b.message == BalancedMessage
  {
    match remainingAmount
    case Some(x) =>
      if x > 0.0 then
        BudgetStatus(Positive, "You have " + FormatCurrency(format, remainingAmount) + " left in your budget",
                     "text-green-600", "bg-green-50")
      else if x < 0.0 then
        BudgetStatus(Negative, "You are over budget by " + FormatCurrency(format, Some(-x)),
                     "text-red-600", "bg-red-50")
      else
        BudgetStatus(Balanced, BalancedMessage, "text-blue-600", "bg-blue-50")
    case None =>
      BudgetStatus(Balanced, BalancedMessage, "text-blue-600", "bg-blue-50")
  }

  /** The balanced status carries no amount: it is the same under every formatter. */
  lemma BalancedIgnoresFormatter(f: real -> string, g: real -> string, remainingAmount: Amount)
    requires GetBudgetStatus(f, remainingAmount).status == Balanced
    ensures GetBudgetStatus(f, remainingAmount) == GetBudgetStatus(g, remainingAmount)
  {
  }

  /** A surplus and a deficit of the same size report the same formatted amount. */
  lemma StatusMirror(format: real -> string, x: real)
    requires x > 0.0
    ensures GetBudgetStatus(format, Some(x)).status == Positive
    ensures GetBudgetStatus(format, Some(-x)).status == Negative
    ensures GetBudgetStatus(format, Some(-x)).message == "You are over budget by " + format(x)
  {
    assert -(-x) == x;
  }

  /** Worked examples. */
  lemma StatusExamples(format: real -> string)
    ensures GetBudgetStatus(format, Some(500.0)).status == Positive
    ensures GetBudgetStatus(format, Some(-300.0)).status == Negative
    ensures GetBudgetStatus(format, Some(0.0)).status == Balanced
  {
  }

  // ------------------------------------------------------------- 50/30/20

  datatype Allocation = Allocation(needs: real, wants: real, savings: real)

  /** The 50/30/20 split of income into needs, wants and savings. */
  function RecommendedAllocation(income: real): (a: Allocation)
    ensures a.needs + a.wants + a.savings == income
    ensures 3.0 * a.needs == 5.0 * a.wants && 2.0 * a.wants == 3.0 * a.savings
    ensures income >= 0.0 ==> a.needs >= 0.0 && a.wants >= 0.0 && a.savings >= 0.0
  {
    Allocation(income * 0.5, income * 0.3, income * 0.2)
  }

  /** Splitting all of income in the ratio 5:3:2 is exactly the recommended allocation. */
  lemma AllocationIsDetermined(income: real, a: Allocation)
    requires a.needs + a.wants + a.savings == income
    requires 3.0 * a.needs == 5.0 * a.wants && 2.0 * a.wants == 3.0 * a.savings
    ensures a == RecommendedAllocation(income)
  {
  }

  lemma AllocationExample()
    ensures RecommendedAllocation(1000.0) == Allocation(500.0, 300.0, 200.0)
  {
  }

  /** One row of the comparison with the recommendation. */
  datatype Line = Line(actual: real, recommended: real, difference: real, percentage: real)

  datatype Comparison = Comparison(needs: Line, wants: Line, savings: Line)

  function CompareLine(income: real, actual: real, recommended: real): Line {
    Line(actual, recommended, actual - recommended, if income > 0.0 then Percentage(actual, income) else 0.0)
  }

  /** Actual spending against the 50/30/20 recommendation. */
  function CompareWithRecommended(income: real, essential: real, nonEssential: real, savings: real): (c: Comparison)
    ensures c.needs.actual == essential && c.wants.actual == nonEssential && c.savings.actual == savings
    ensures c.needs.recommended == RecommendedAllocation(income).needs
    ensures c.wants.recommended == RecommendedAllocation(income).wants
    ensures c.savings.recommended == RecommendedAllocation(income).savings
    ensures forall l :: l in [c.needs, c.wants, c.savings] ==>
              && l.difference == l.actual - l.recommended
              && (income <= 0.0 ==> l.percentage == 0.0)
              && (income > 0.0 ==> l.percentage == Percentage(l.actual, income))
    ensures c.needs.difference + c.wants.difference + c.savings.difference
            == essential + nonEssential + savings - income
  {
    var recommended := RecommendedAllocation(income);
    Comparison(CompareLine(income, essential, recommended.needs),
               CompareLine(income, nonEssential, recommended.wants),
               CompareLine(income, savings, recommended.savings))
  }

  /** Worked example. */
  lemma CompareExample()
    ensures CompareWithRecommended(1000.0, 600.0, 200.0, 100.0).needs == Line(600.0, 500.0, 100.0, 60.0)
  {
  }
}

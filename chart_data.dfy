/**
 * What the dashboard derives from its committed records on every render:
 * the section totals, the amount left, and the pie and bar chart rows.
 */
module ChartData {
  import opened Wrappers
  import opened Calculations
  import opened PendingEdits

  /** The actual amount a category shows: income's own, or its section's total. */
  function ActualOf(b: Budget, c: Category): real {
    if c == Income then OrZero(b.income.actual) else CategoryTotal(b.Section(c))
  }

  /** The planned amount a bar shows: income's plan as stored, or a section's plan total. */
  function PlannedOf(b: Budget, c: Category): Amount {
    if c == Income then b.income.plan else Some(PlanTotal(b.Section(c)))
  }

  /** `leftAmount`: actual income less the four actual section totals. */
  function LeftAmount(b: Budget): (left: real)
    ensures left == ActualOf(b, Income)
                    - (ActualOf(b, Essential) + ActualOf(b, NonEssential) + ActualOf(b, Savings) + ActualOf(b, Debt))
  {
    RemainingAmount(b.income.actual, Some(CategoryTotal(b.essential)), Some(CategoryTotal(b.nonEssential)),
                    Some(CategoryTotal(b.savings)), Some(CategoryTotal(b.debt)))
  }

  /** The five groups in chart order. */
  const ChartOrder: seq<Category> := [Income, Essential, NonEssential, Savings, Debt]

  const Colors: seq<string> := ["#10B981", "#EF4444", "#F59E0B", "#8B5CF6", "#EC4899"]

  /** A pie segment: a group (shown by its `Label`), its actual amount and its colour. */
  datatype PieSlice = PieSlice(category: Category, value: real, color: string)

  function PieOrdinal(x: PieSlice): int {
    x.category.Ordinal()
  }

  predicate IsShown(x: PieSlice) {
    x.value > 0.0
  }

  /** The actual amounts of the five groups, in chart order. */
  function Actuals(b: Budget): (v: seq<real>)
    ensures |v| == 5
    ensures forall c: Category :: v[c.Ordinal()] == ActualOf(b, c)
  {
    [ActualOf(b, Income), ActualOf(b, Essential), ActualOf(b, NonEssential), ActualOf(b, Savings), ActualOf(b, Debt)]
  }

  /** The five segments in chart order, before filtering. */
  function PieCandidates(values: seq<real>): (c: seq<PieSlice>)
    requires |values| == 5
    ensures |c| == 5
    ensures forall k :: 0 <= k < 5 ==>
              c[k].category == ChartOrder[k] && c[k].category.Ordinal() == k && c[k].value == values[k] && c[k].color == Colors[k]
  {
    [PieSlice(Income, values[0], Colors[0]),
     PieSlice(Essential, values[1], Colors[1]),
     PieSlice(NonEssential, values[2], Colors[2]),
     PieSlice(Savings, values[3], Colors[3]),
     PieSlice(Debt, values[4], Colors[4])]
  }

  /** A positive candidate stays in the pie. */
  lemma PieCandidateShown(c: seq<PieSlice>, k: nat)
    requires k < |c| && IsShown(c[k])
    ensures exists i :: 0 <= i < |Filter(c, IsShown)| && Filter(c, IsShown)[i] == c[k]
  {
    assert c[k] in Filter(c, IsShown);
  }

  /** After filtering, a group is shown exactly when its amount is positive. */
  lemma PieCandidatesFiltered(values: seq<real>)
    requires |values| == 5
    ensures var r := Filter(PieCandidates(values), IsShown);
            forall k :: 0 <= k < 5 ==>
              ((exists i :: 0 <= i < |r| && r[i].category == ChartOrder[k]) <==> values[k] > 0.0)
  {
    var c := PieCandidates(values);
    var r := Filter(c, IsShown);
    forall k | 0 <= k < 5
      ensures (exists i :: 0 <= i < |r| && r[i].category == ChartOrder[k]) <==> values[k] > 0.0
    {
      if values[k] > 0.0 {
        PieCandidateShown(c, k);
      }
      if exists i :: 0 <= i < |r| && r[i].category == ChartOrder[k] {
        var i :| 0 <= i < |r| && r[i].category == ChartOrder[k];
        assert r[i] in c;
        var j :| 0 <= j < 5 && c[j] == r[i];
        assert ChartOrder[j] == ChartOrder[k];
      }
    }
  }

  /** The positive segments, in chart order: each group shown exactly when its
      amount is positive. */
  function PieSlices(values: seq<real>): (r: seq<PieSlice>)
    requires |values| == 5
    ensures |r| <= 5
    ensures forall i :: 0 <= i < |r| ==>
              && r[i].value > 0.0
              && r[i].value == values[r[i].category.Ordinal()]
              && r[i].color == Colors[r[i].category.Ordinal()]
    ensures Ascending(r, PieOrdinal)
    ensures forall k :: 0 <= k < 5 ==>
              ((exists i :: 0 <= i < |r| && r[i].category == ChartOrder[k]) <==> values[k] > 0.0)
  {
    var c := PieCandidates(values);
    assert Ascending(c, PieOrdinal);
    FilterKeepsOrder(c, IsShown, PieOrdinal);
    PieCandidatesFiltered(values);
    var r := Filter(c, IsShown);
    assert forall i :: 0 <= i < |r| ==> r[i] in c;
    r
  }

  /** `pieData`: the groups with a positive actual amount, in chart order. */
  function PieData(b: Budget): (r: seq<PieSlice>)
    ensures |r| <= 5
    ensures forall i :: 0 <= i < |r| ==>
              && r[i].value > 0.0
              && r[i].value == ActualOf(b, r[i].category)
              && r[i].color == Colors[r[i].category.Ordinal()]
    ensures Ascending(r, PieOrdinal)
    ensures forall k :: 0 <= k < 5 ==>
              ((exists i :: 0 <= i < |r| && r[i].category == ChartOrder[k]) <==> ActualOf(b, ChartOrder[k]) > 0.0)
  {
    var v := Actuals(b);
    assert forall k :: 0 <= k < 5 ==> v[k] == ActualOf(b, ChartOrder[k]) by {
      forall k | 0 <= k < 5 ensures v[k] == ActualOf(b, ChartOrder[k]) {
        assert ChartOrder[k].Ordinal() == k;
      }
    }
    PieSlices(v)
  }

  /** A bar: a group with its planned and actual amounts. */
  datatype BarRow = BarRow(category: Category, planned: Amount, actual: real)

  /** The short name the bar chart gives a group. */
  function BarLabel(c: Category): string {
    match c
    case Income => "Income"
    case Essential => "Essential"
    case NonEssential => "Non-Essential"
    case Savings => "Savings"
    case Debt => "Debt"
  }

  /** No two bars share a label. */
  lemma BarLabelsIdentifyCategories(c: Category, d: Category)
    ensures BarLabel(c) == BarLabel(d) ==> c == d
  {
    if c != d {
      assert BarLabel(c)[0] != BarLabel(d)[0] || |BarLabel(c)| != |BarLabel(d)|;
    }
  }

  /** `barData`: always the five groups, in chart order. */
  function BarData(b: Budget): (r: seq<BarRow>)
    ensures |r| == 5
    ensures forall k :: 0 <= k < 5 ==> r[k].category.Ordinal() == k
    ensures forall c: Category :: r[c.Ordinal()] == BarRow(c, PlannedOf(b, c), ActualOf(b, c))
  {
    [BarRow(Income, PlannedOf(b, Income), ActualOf(b, Income)),
     BarRow(Essential, PlannedOf(b, Essential), ActualOf(b, Essential)),
     BarRow(NonEssential, PlannedOf(b, NonEssential), ActualOf(b, NonEssential)),
     BarRow(Savings, PlannedOf(b, Savings), ActualOf(b, Savings)),
     BarRow(Debt, PlannedOf(b, Debt), ActualOf(b, Debt))]
  }

  /** The pie shows exactly the groups whose bar has a positive actual amount. */
  lemma PieMatchesBars(b: Budget)
    ensures forall k :: 0 <= k < 5 ==>
              ((exists i :: 0 <= i < |PieData(b)| && PieData(b)[i].category == BarData(b)[k].category)
               <==> BarData(b)[k].actual > 0.0)
  {
    var pie, bars := PieData(b), BarData(b);
    forall k | 0 <= k < 5
      ensures (exists i :: 0 <= i < |pie| && pie[i].category == bars[k].category) <==> bars[k].actual > 0.0
    {
      assert ChartOrder[k].Ordinal() == k;
      assert bars[k].category == ChartOrder[k] && bars[k].actual == ActualOf(b, ChartOrder[k]);
      assert (exists i :: 0 <= i < |pie| && pie[i].category == ChartOrder[k]) <==> ActualOf(b, ChartOrder[k]) > 0.0;
    }
  }

  // ------------------------------------------------ edits and the totals

  /** Ids are unique within a section. */
  predicate UniqueIds(s: seq<CategoryRecord>) {
    forall i, j :: 0 <= i < j < |s| ==> s[i].id != s[j].id
  }

  /** Changing a plan leaves every actual total alone. */
  lemma PlanEditKeepsActualTotal(s: seq<CategoryRecord>, id: string, v: real)
    ensures CategoryTotal(UpdateSection(s, id, Plan, v)) == CategoryTotal(s)
  {
    SumByPointwise(UpdateSection(s, id, Plan, v), s, FieldValue(Actual));
  }

  /** With unique ids, setting one record's actual amount to `v` moves the
      section total by `v` less what the record held. */
  lemma ActualEditMovesTotal(s: seq<CategoryRecord>, j: nat, v: real)
    requires UniqueIds(s) && j < |s|
    ensures CategoryTotal(UpdateSection(s, s[j].id, Actual, v)) == CategoryTotal(s) - OrZero(s[j].actual) + v
  {
    var r := SetRecordField(s[j], Actual, v);
    assert UpdateSection(s, s[j].id, Actual, v) == s[j := r];
    SumByReplace(s, j, r, FieldValue(Actual));
  }

  /** Plan edits change neither the amount left nor the pie. */
  lemma PlanWriteKeepsActuals(b: Budget, t: Target, v: real)
    requires t.field == Plan
    ensures forall c :: ActualOf(Write(b, t, v), c) == ActualOf(b, c)
    ensures LeftAmount(Write(b, t, v)) == LeftAmount(b)
    ensures PieData(Write(b, t, v)) == PieData(b)
  {
    if t.RecordField? && t.section != Income {
      PlanEditKeepsActualTotal(b.Section(t.section), t.id, v);
    }
    assert Actuals(Write(b, t, v)) == Actuals(b);
  }
}

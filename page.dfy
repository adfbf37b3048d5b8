/**
 * The dashboard component's state: the committed income and section records,
 * and the buffer of raw text the inputs have received. Edits only fill the
 * buffer; a flush (what the debounce timer triggers) writes every buffered
 * entry into the records. The buffer is never emptied.
 */
module Page {
  import opened Wrappers
  import opened Calculations
  import opened PendingEdits
  import opened ChartData

  function Item(id: string, name: string, plan: real): CategoryRecord {
    CategoryRecord(id, name, Some(plan), Some(0.0))
  }

  /** The records the dashboard starts with. */
  function InitialBudget(): Budget {
    Budget(
      IncomeRecord(Some(25000.0), Some(0.0)),
      [Item("rent", "Rent", 7500.0), Item("water", "Water", 200.0), Item("electricity", "Electricity", 500.0),
       Item("phone", "Cell Phone Bill", 600.0), Item("groceries", "Groceries", 1200.0),
       Item("internet", "Internet", 1600.0), Item("gym", "Gym Membership", 1500.0),
       Item("transport", "Transport", 4800.0), Item("shopping", "Shopping", 3000.0)],
      [Item("dining", "Dining Out", 2400.0), Item("personalcare", "Personal Care", 500.0),
       Item("clothes", "Clothes", 200.0)],
      [Item("emergency", "Emergency Fund", 0.0), Item("sinking", "Sinking Fund", 0.0),
       Item("investment", "Investment Fund", 0.0)],
      [Item("creditcard", "Credit Card", 0.0), Item("loans", "Loans", 0.0)])
  }

  /** Every section's ids are unique. */
  predicate WellFormed(b: Budget) {
    forall c :: c != Income ==> UniqueIds(b.Section(c))
  }

  lemma InitialBudgetWellFormed()
    ensures WellFormed(InitialBudget())
  {
    var b := InitialBudget();
    assert UniqueIds(b.essential);
    assert UniqueIds(b.nonEssential);
    assert UniqueIds(b.savings);
    assert UniqueIds(b.debt);
  }

  /** Nothing has been spent at the start, so nothing is left of the actual income either. */
  lemma InitialLeftAmount()
    ensures LeftAmount(InitialBudget()) == 0.0
  {
    var b := InitialBudget();
    ZeroActualsTotal(b.essential);
    ZeroActualsTotal(b.nonEssential);
    ZeroActualsTotal(b.savings);
    ZeroActualsTotal(b.debt);
  }

  lemma {:induction false} ZeroActualsTotal(s: seq<CategoryRecord>)
    requires forall i :: 0 <= i < |s| ==> OrZero(s[i].actual) == 0.0
    ensures CategoryTotal(s) == 0.0
    decreases |s|
  {
    if |s| > 0 {
      ZeroActualsTotal(s[..|s| - 1]);
    }
  }

  /** Edits that keep every section's ids keep it well formed. */
  lemma SameShapeKeepsWellFormed(b: Budget, b': Budget)
    requires WellFormed(b) && SameShape(b, b')
    ensures WellFormed(b')
  {
    forall c | c != Income
      ensures UniqueIds(b'.Section(c))
    {
      assert forall j :: 0 <= j < |b.Section(c)| ==> b'.Section(c)[j].id == b.Section(c)[j].id;
    }
  }

  /** What an input box shows: typed text, or the committed amount. */
  datatype Shown = Pending(text: string) | Committed(value: Amount)

  /** The key `getDisplayValue` looks up: income ignores the id. */
  function DisplayKey(categoryType: string, id: string, field: string): (key: string)
    ensures categoryType == "income" ==> key == IncomeKey(field)
    ensures categoryType != "income" ==> key == CategoryKey(categoryType, id, field)
  {
    if categoryType == "income" then IncomeKey(field) else CategoryKey(categoryType, id, field)
  }

  /** The key an input box reads its pending text from is the key whose flush
      writes the field that box shows: income whatever the id, and a section
      record's field when the id holds no dash. */
  lemma DisplayKeyTargetsField(c: Category, id: string, f: Field)
    ensures c == Income ==> TargetOf(DisplayKey(CategoryName(c), id, FieldName(f))) == Some(IncomeField(f))
    ensures c != Income && '-' !in id ==>
              TargetOf(DisplayKey(CategoryName(c), id, FieldName(f))) == Some(RecordField(c, id, f))
  {
    if c == Income {
      TargetOfIncomeKey(f);
    } else if '-' !in id {
      TargetOfCategoryKey(c, id, f);
    }
  }

  class MoneyManagement {
    var income: IncomeRecord
    var essentialExpenses: seq<CategoryRecord>
    var nonEssentialExpenses: seq<CategoryRecord>
    var savingsInvestments: seq<CategoryRecord>
    var debt: seq<CategoryRecord>
    /** The raw text of every edit so far, by key; later edits overwrite. */
    var tempInputs: map<string, string>
    /** The keys of `tempInputs` in the order they were first written, which is
        the order `Object.entries` lists them. */
    var inputOrder: seq<string>

    ghost predicate Valid()
      reads this
    {
      && (forall i, j :: 0 <= i < j < |inputOrder| ==> inputOrder[i] != inputOrder[j])
      && (forall k :: k in tempInputs <==> k in inputOrder)
      && WellFormed(State())
    }

    /** The committed records. */
    function State(): Budget
      reads this
    {
      Budget(income, essentialExpenses, nonEssentialExpenses, savingsInvestments, debt)
    }

    constructor ()
      ensures Valid()
      ensures State() == InitialBudget() && tempInputs == map[] && inputOrder == []
    {
      var b := InitialBudget();
      InitialBudgetWellFormed();
      income, essentialExpenses, nonEssentialExpenses := b.income, b.essential, b.nonEssential;
      savingsInvestments, debt := b.savings, b.debt;
      tempInputs, inputOrder := map[], [];
    }

    /** `setTempInputs(prev => ({ ...prev, [key]: value }))` */
    method RecordInput(key: string, value: string)
      requires Valid()
      modifies this`tempInputs, this`inputOrder
      ensures Valid()
      ensures tempInputs == old(tempInputs)[key := value]
      ensures inputOrder == if key in old(tempInputs) then old(inputOrder) else old(inputOrder) + [key]
    {
      if key !in tempInputs {
        inputOrder := inputOrder + [key];
      }
      tempInputs := tempInputs[key := value];
    }

    /** `updateIncomeDebounced`: buffers the text under `income--field`. */
    method UpdateIncomeDebounced(field: string, value: string)
      requires Valid()
      modifies this`tempInputs, this`inputOrder
      ensures Valid()
      ensures tempInputs == old(tempInputs)[IncomeKey(field) := value]
      ensures inputOrder == if IncomeKey(field) in old(tempInputs) then old(inputOrder)
                            else old(inputOrder) + [IncomeKey(field)]
      ensures forall id, current :: GetDisplayValue("income", id, field, current) == Pending(value)
    {
      RecordInput(IncomeKey(field), value);
    }

    /** `updateCategoryDebounced`: buffers the text under `category-id-field`. */
    method UpdateCategoryDebounced(categoryType: string, id: string, field: string, value: string)
      requires Valid()
      modifies this`tempInputs, this`inputOrder
      ensures Valid()
      ensures tempInputs == old(tempInputs)[CategoryKey(categoryType, id, field) := value]
      ensures inputOrder == if CategoryKey(categoryType, id, field) in old(tempInputs) then old(inputOrder)
                            else old(inputOrder) + [CategoryKey(categoryType, id, field)]
      ensures categoryType != "income" ==>
                forall current :: GetDisplayValue(categoryType, id, field, current) == Pending(value)
    {
      RecordInput(CategoryKey(categoryType, id, field), value);
    }

    /** `getDisplayValue`: the buffered text if there is any, else the committed amount. */
    function GetDisplayValue(categoryType: string, id: string, field: string, currentValue: Amount): (v: Shown)
      reads this
      ensures DisplayKey(categoryType, id, field) in tempInputs ==>
                v == Pending(tempInputs[DisplayKey(categoryType, id, field)])
      ensures DisplayKey(categoryType, id, field) !in tempInputs ==> v == Committed(currentValue)
    {
      var key := DisplayKey(categoryType, id, field);
      if key in tempInputs then Pending(tempInputs[key]) else Committed(currentValue)
    }

    /** One write of the flush: `setIncome` or a section's `prev.map(...)`. */
    method Commit(t: Target, v: real)
      requires t.RecordField? ==> t.section != Income
      modifies this`income, this`essentialExpenses, this`nonEssentialExpenses, this`savingsInvestments, this`debt
      ensures State() == Write(old(State()), t, v)
    {
      match t
      case IncomeField(Plan) =>
        income := income.(plan := Some(v));
      case IncomeField(Actual) =>
        income := income.(actual := Some(v));
      case RecordField(Essential, id, f) =>
        essentialExpenses := UpdateSection(essentialExpenses, id, f, v);
      case RecordField(NonEssential, id, f) =>
        nonEssentialExpenses := UpdateSection(nonEssentialExpenses, id, f, v);
      case RecordField(Savings, id, f) =>
        savingsInvestments := UpdateSection(savingsInvestments, id, f, v);
      case RecordField(Debt, id, f) =>
        debt := UpdateSection(debt, id, f, v);
    }

    /** The debounced effect: every buffered entry, in order, is parsed and
        written into the records. Running it again would change nothing. */
    method ApplyDebouncedInputs()
      requires Valid()
      modifies this`income, this`essentialExpenses, this`nonEssentialExpenses, this`savingsInvestments, this`debt
      ensures Valid()
      ensures State() == ApplyEntries(old(State()), inputOrder, tempInputs)
      ensures SameShape(old(State()), State())
      ensures ApplyEntries(State(), inputOrder, tempInputs) == State()
    {
      for i := 0 to |inputOrder|
        invariant State() == ApplyEntries(old(State()), inputOrder[..i], tempInputs)
      {
        var key := inputOrder[i];
        assert inputOrder[..i + 1][..i] == inputOrder[..i];
        match TargetOf(key)
        case None =>
        case Some(t) =>
          Commit(t, ParseOrZero(tempInputs[key]));
      }
      assert inputOrder[..|inputOrder|] == inputOrder;
      FlushKeepsShape(old(State()), inputOrder, tempInputs);
      SameShapeKeepsWellFormed(old(State()), State());
      FlushIdempotent(old(State()), inputOrder, tempInputs);
    }
  }
}

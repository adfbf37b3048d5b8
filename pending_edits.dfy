/**
 * The dashboard's edit buffer, apart from rendering: the composite keys that
 * name an edited field, the pending edits keyed by them, how one edit is
 * applied to the committed records, and the chart data derived from them.
 */
module PendingEdits {
  import opened Wrappers
  import opened Calculations
  import Numbers

  // ------------------------------------------------------------------ keys

  /** `s.split('-')`: the pieces between the dashes, empty ones included. */
  function SplitOnDash(s: string): (parts: seq<string>)
    ensures |parts| >= 1
    ensures forall i :: 0 <= i < |parts| ==> '-' !in parts[i]
  {
    if |s| == 0 then
      [""]
    else
      var rest := SplitOnDash(s[1..]);
      if s[0] == '-' then [""] + rest else [[s[0]] + rest[0]] + rest[1..]
  }

  /** `parts.join('-')`. */
  function JoinWithDash(parts: seq<string>): string
    requires |parts| >= 1
  {
    if |parts| == 1 then parts[0] else parts[0] + "-" + JoinWithDash(parts[1..])
  }

  lemma {:induction false} SplitWord(a: string)
    requires '-' !in a
    ensures SplitOnDash(a) == [a]
    decreases |a|
  {
    if |a| > 0 {
      SplitWord(a[1..]);
      assert [a[0]] + a[1..] == a;
    }
  }

  lemma {:induction false} SplitAfterWord(a: string, t: string)
    requires '-' !in a
    ensures SplitOnDash(a + "-" + t) == [a] + SplitOnDash(t)
    decreases |a|
  {
    var s := a + "-" + t;
    if |a| == 0 {
      assert s == "-" + t && s[1..] == t;
    } else {
      assert s[1..] == a[1..] + "-" + t;
      SplitAfterWord(a[1..], t);
      assert [a[0]] + a[1..] == a;
    }
  }

  /** Splitting undoes joining pieces that hold no dash. */
  lemma {:induction false} SplitJoin(parts: seq<string>)
    requires |parts| >= 1
    requires forall i :: 0 <= i < |parts| ==> '-' !in parts[i]
    ensures SplitOnDash(JoinWithDash(parts)) == parts
    decreases |parts|
  {
    if |parts| == 1 {
      SplitWord(parts[0]);
    } else {
      SplitAfterWord(parts[0], JoinWithDash(parts[1..]));
      SplitJoin(parts[1..]);
      assert [parts[0]] + parts[1..] == parts;
    }
  }

  /** Joining undoes splitting: the pieces give back the whole key. */
  lemma {:induction false} JoinSplit(s: string)
    ensures JoinWithDash(SplitOnDash(s)) == s
    decreases |s|
  {
    if |s| > 0 {
      var rest := SplitOnDash(s[1..]);
      JoinSplit(s[1..]);
      if s[0] == '-' {
        assert JoinWithDash([""] + rest) == "" + "-" + JoinWithDash(rest) by {
          assert ([""] + rest)[1..] == rest;
        }
        assert s == "-" + s[1..];
      } else {
        var parts := [[s[0]] + rest[0]] + rest[1..];
        if |rest| == 1 {
          assert s == [s[0]] + rest[0];
        } else {
          assert parts[1..] == rest[1..];
          assert JoinWithDash(rest) == rest[0] + "-" + JoinWithDash(rest[1..]);
          assert s == [s[0]] + s[1..];
        }
      }
    }
  }

  /** The key `${categoryType}-${id}-${field}` of a pending edit. */
  function CategoryKey(categoryType: string, id: string, field: string): (key: string)
    ensures key == JoinWithDash([categoryType, id, field])
  {
    assert [categoryType, id, field][1..] == [id, field];
    assert [id, field][1..] == [field];
    assert JoinWithDash([id, field]) == id + "-" + field;
    assert categoryType + "-" + id + "-" + field == categoryType + "-" + (id + "-" + field);
    categoryType + "-" + id + "-" + field
  }

  /** The key `income--${field}` of a pending income edit. */
  function IncomeKey(field: string): (key: string)
    ensures key == CategoryKey("income", "", field)
  {
    "income--" + field
  }

  /** A key splits back into the three names it was built from. */
  lemma CategoryKeyRoundTrip(categoryType: string, id: string, field: string)
    requires '-' !in categoryType && '-' !in id && '-' !in field
    ensures SplitOnDash(CategoryKey(categoryType, id, field)) == [categoryType, id, field]
  {
    SplitJoin([categoryType, id, field]);
  }

  /** An income key splits into "income", an empty id and the field. */
  lemma IncomeKeyRoundTrip(field: string)
    requires '-' !in field
    ensures SplitOnDash(IncomeKey(field)) == ["income", "", field]
  {
    CategoryKeyRoundTrip("income", "", field);
  }

  /** The i-th piece of a destructured split: `undefined` past the end. */
  function Part(parts: seq<string>, i: nat): (p: Option<string>)
    ensures p.Some? <==> i < |parts|
    ensures p.Some? ==> p.value == parts[i]
  {
    if i < |parts| then Some(parts[i]) else None
  }

  // --------------------------------------------------------------- targets

  /** The name the keys use for a category. */
  function CategoryName(c: Category): string {
    match c
    case Income => "income"
    case Essential => "essential"
    case NonEssential => "nonessential"
    case Savings => "savings"
    case Debt => "debt"
  }

  function CategoryOf(name: string): (c: Option<Category>)
    ensures c.Some? ==> CategoryName(c.value) == name
  {
    if name == "income" then Some(Income)
    else if name == "essential" then Some(Essential)
    else if name == "nonessential" then Some(NonEssential)
    else if name == "savings" then Some(Savings)
    else if name == "debt" then Some(Debt)
    else None
  }

  lemma CategoryOfName(c: Category)
    ensures CategoryOf(CategoryName(c)) == Some(c)
  {
  }

  function FieldName(f: Field): string {
    match f
    case Plan => "plan"
    case Actual => "actual"
  }

  function FieldOf(name: Option<string>): (f: Option<Field>)
    ensures f.Some? ==> name == Some(FieldName(f.value))
  {
    if name == Some("plan") then Some(Plan)
    else if name == Some("actual") then Some(Actual)
    else None
  }

  /** The (category, id, field) the flush writes for one key. */
  datatype Target = IncomeField(field: Field) | RecordField(section: Category, id: string, field: Field)

  /** Which field an edit key writes, if any: unknown categories, a missing id
      and fields other than plan and actual write nothing the model holds. */
  function TargetOf(key: string): (t: Option<Target>)
    ensures t.Some? ==> CategoryOf(SplitOnDash(key)[0]).Some?
    ensures t.Some? && t.value.RecordField? ==> t.value.section != Income
  {
    var parts := SplitOnDash(key);
    match (CategoryOf(parts[0]), Part(parts, 1), FieldOf(Part(parts, 2)))
    case (Some(Income), _, Some(f)) => Some(IncomeField(f))
    case (Some(c), Some(id), Some(f)) => if c == Income then None else Some(RecordField(c, id, f))
    case _ => None
  }

  /** The keys the dashboard builds name the field they were built from. */
  lemma TargetOfCategoryKey(c: Category, id: string, f: Field)
    requires c != Income && '-' !in id
    ensures TargetOf(CategoryKey(CategoryName(c), id, FieldName(f))) == Some(RecordField(c, id, f))
  {
    CategoryKeyRoundTrip(CategoryName(c), id, FieldName(f));
  }

  lemma TargetOfIncomeKey(f: Field)
    ensures TargetOf(IncomeKey(FieldName(f))) == Some(IncomeField(f))
  {
    IncomeKeyRoundTrip(FieldName(f));
  }

  /** `parseFloat(value) || 0`: NaN and 0 both commit as 0. */
  function ParseOrZero(text: string): (v: real)
    ensures Numbers.ParseFloat(text) == None ==> v == 0.0
    ensures Numbers.ParseFloat(text).Some? ==> v == Numbers.ParseFloat(text).value
  {
    OrZero(Numbers.ParseFloat(text))
  }

  // ----------------------------------------------------------------- state

  datatype IncomeRecord = IncomeRecord(plan: Amount, actual: Amount) {
    function Get(f: Field): Amount {
      match f
      case Plan => plan
      case Actual => actual
    }
  }

  /** The committed records: income and the four sections. */
  datatype Budget = Budget(
    income: IncomeRecord,
    essential: seq<CategoryRecord>,
    nonEssential: seq<CategoryRecord>,
    savings: seq<CategoryRecord>,
    debt: seq<CategoryRecord>)
  {
    function Section(c: Category): seq<CategoryRecord>
      requires c != Income
    {
      match c
      case Essential => essential
      case NonEssential => nonEssential
      case Savings => savings
      case Debt => debt
    }

    function WithSection(c: Category, s: seq<CategoryRecord>): (b: Budget)
      requires c != Income
      ensures b.income == income && b.Section(c) == s
      ensures forall d :: d != Income && d != c ==> b.Section(d) == Section(d)
    {
      match c
      case Essential => this.(essential := s)
      case NonEssential => this.(nonEssential := s)
      case Savings => this.(savings := s)
      case Debt => this.(debt := s)
    }
  }

  /** `{ ...item, [field]: value }` */
  function SetRecordField(r: CategoryRecord, f: Field, v: real): (r': CategoryRecord)
    ensures r'.id == r.id && r'.name == r.name
    ensures r'.Get(f) == Some(v)
    ensures forall g :: g != f ==> r'.Get(g) == r.Get(g)
  {
    match f
    case Plan => r.(plan := Some(v))
    case Actual => r.(actual := Some(v))
  }

  /** `prev.map(item => item.id === id ? { ...item, [field]: value } : item)` */
  function UpdateSection(s: seq<CategoryRecord>, id: string, f: Field, v: real): (s': seq<CategoryRecord>)
    ensures |s'| == |s|
    ensures forall j :: 0 <= j < |s| ==> s'[j].id == s[j].id && s'[j].name == s[j].name
    ensures forall j :: 0 <= j < |s| && s[j].id != id ==> s'[j] == s[j]
    ensures forall j :: 0 <= j < |s| && s[j].id == id ==>
              s'[j].Get(f) == Some(v) && forall g :: g != f ==> s'[j].Get(g) == s[j].Get(g)
  {
    seq(|s|, j requires 0 <= j < |s| => if s[j].id == id then SetRecordField(s[j], f, v) else s[j])
  }

  /** One committed write: a field of the income, or of every record with the id. */
  function Write(b: Budget, t: Target, v: real): (b': Budget)
    ensures t.IncomeField? ==>
              && b'.income.Get(t.field) == Some(v)
              && (forall g :: g != t.field ==> b'.income.Get(g) == b.income.Get(g))
              && forall c :: c != Income ==> b'.Section(c) == b.Section(c)
    ensures t.RecordField? && t.section != Income ==>
              && b'.income == b.income
              && b'.Section(t.section) == UpdateSection(b.Section(t.section), t.id, t.field, v)
              && forall c :: c != Income && c != t.section ==> b'.Section(c) == b.Section(c)
  {
    match t
    case IncomeField(Plan) => b.(income := b.income.(plan := Some(v)))
    case IncomeField(Actual) => b.(income := b.income.(actual := Some(v)))
    case RecordField(c, id, f) =>
      if c == Income then b else b.WithSection(c, UpdateSection(b.Section(c), id, f, v))
  }

  /** One pending entry applied as the flush applies it. */
  function ApplyEdit(b: Budget, key: string, text: string): (b': Budget)
    ensures CategoryOf(SplitOnDash(key)[0]) == None ==> b' == b
  {
    match TargetOf(key)
    case None => b
    case Some(t) => Write(b, t, ParseOrZero(text))
  }

  /** An edit built for a section changes only that section, as `UpdateSection`
      says; an unparsable text commits 0. */
  lemma ApplyCategoryEdit(b: Budget, c: Category, id: string, f: Field, text: string)
    requires c != Income && '-' !in id
    ensures var b' := ApplyEdit(b, CategoryKey(CategoryName(c), id, FieldName(f)), text);
            && b'.income == b.income
            && b'.Section(c) == UpdateSection(b.Section(c), id, f, ParseOrZero(text))
            && (Numbers.ParseFloat(text) == None ==> b'.Section(c) == UpdateSection(b.Section(c), id, f, 0.0))
            && forall d :: d != Income && d != c ==> b'.Section(d) == b.Section(d)
  {
    TargetOfCategoryKey(c, id, f);
  }

  /** An income edit changes only that field of the income. */
  lemma ApplyIncomeEdit(b: Budget, f: Field, text: string)
    ensures var b' := ApplyEdit(b, IncomeKey(FieldName(f)), text);
            && b'.income.Get(f) == Some(ParseOrZero(text))
            && (forall g :: g != f ==> b'.income.Get(g) == b.income.Get(g))
            && forall c :: c != Income ==> b'.Section(c) == b.Section(c)
  {
    TargetOfIncomeKey(f);
  }

  /** The flush: every pending entry in order, each applied to the result of the last. */
  function ApplyEntries(b: Budget, keys: seq<string>, pending: map<string, string>): Budget
    requires forall i :: 0 <= i < |keys| ==> keys[i] in pending
  {
    if |keys| == 0 then
      b
    else
      var last := keys[|keys| - 1];
      ApplyEdit(ApplyEntries(b, keys[..|keys| - 1], pending), last, pending[last])
  }

  // ------------------------------------------------- flush is idempotent

  /** The value a set of writes gives a field, or the value it had. */
  function Pick(w: map<Target, real>, t: Target, current: Amount): Amount {
    if t in w then Some(w[t]) else current
  }

  function OverlayRecord(r: CategoryRecord, c: Category, w: map<Target, real>): CategoryRecord {
    r.(plan := Pick(w, RecordField(c, r.id, Plan), r.plan),
       actual := Pick(w, RecordField(c, r.id, Actual), r.actual))
  }

  function OverlaySection(s: seq<CategoryRecord>, c: Category, w: map<Target, real>): (s': seq<CategoryRecord>)
    ensures |s'| == |s|
    ensures forall j :: 0 <= j < |s| ==> s'[j] == OverlayRecord(s[j], c, w)
  {
    seq(|s|, j requires 0 <= j < |s| => OverlayRecord(s[j], c, w))
  }

  /** Every write of `w` at once. */
  function Overlay(b: Budget, w: map<Target, real>): Budget {
    Budget(
      IncomeRecord(Pick(w, IncomeField(Plan), b.income.plan), Pick(w, IncomeField(Actual), b.income.actual)),
      OverlaySection(b.essential, Essential, w),
      OverlaySection(b.nonEssential, NonEssential, w),
      OverlaySection(b.savings, Savings, w),
      OverlaySection(b.debt, Debt, w))
  }

  /** Two sets of writes in turn are their union, the later one winning. */
  lemma OverlayCompose(b: Budget, w1: map<Target, real>, w2: map<Target, real>)
    ensures Overlay(Overlay(b, w1), w2) == Overlay(b, w1 + w2)
  {
    forall s: seq<CategoryRecord>, c: Category
      ensures OverlaySection(OverlaySection(s, c, w1), c, w2) == OverlaySection(s, c, w1 + w2)
    {
      var lhs := OverlaySection(OverlaySection(s, c, w1), c, w2);
      assert forall j :: 0 <= j < |s| ==> lhs[j] == OverlaySection(s, c, w1 + w2)[j];
    }
  }

  lemma WriteIsOverlay(b: Budget, t: Target, v: real)
    requires t.RecordField? ==> t.section != Income
    ensures Write(b, t, v) == Overlay(b, map[t := v])
  {
    var w := map[t := v];
    forall s: seq<CategoryRecord>, c: Category | t.RecordField? && c != t.section
      ensures OverlaySection(s, c, w) == s
    {
    }
    forall s: seq<CategoryRecord>, c: Category | !t.RecordField?
      ensures OverlaySection(s, c, w) == s
    {
    }
    if t.RecordField? {
      var s := b.Section(t.section);
      assert OverlaySection(s, t.section, w) == UpdateSection(s, t.id, t.field, v);
    }
  }

  /** The writes a sequence of pending entries makes, the last one for a field winning. */
  function Writes(keys: seq<string>, pending: map<string, string>): map<Target, real>
    requires forall i :: 0 <= i < |keys| ==> keys[i] in pending
  {
    if |keys| == 0 then
      map[]
    else
      var last := keys[|keys| - 1];
      var earlier := Writes(keys[..|keys| - 1], pending);
      match TargetOf(last)
      case Some(t) => earlier[t := ParseOrZero(pending[last])]
      case None => earlier
  }

  lemma OverlayNothing(b: Budget)
    ensures Overlay(b, map[]) == b
  {
    forall s: seq<CategoryRecord>, c: Category
      ensures OverlaySection(s, c, map[]) == s
    {
    }
  }

  /** The flush makes all its writes at once. */
  lemma {:induction false} ApplyEntriesIsOverlay(b: Budget, keys: seq<string>, pending: map<string, string>)
    requires forall i :: 0 <= i < |keys| ==> keys[i] in pending
    ensures ApplyEntries(b, keys, pending) == Overlay(b, Writes(keys, pending))
    decreases |keys|
  {
    if |keys| == 0 {
      OverlayNothing(b);
    } else {
      var last := keys[|keys| - 1];
      var prefix := keys[..|keys| - 1];
      var earlier := Writes(prefix, pending);
      ApplyEntriesIsOverlay(b, prefix, pending);
      match TargetOf(last)
      case Some(t) =>
        var v := ParseOrZero(pending[last]);
        WriteIsOverlay(Overlay(b, earlier), t, v);
        OverlayCompose(b, earlier, map[t := v]);
        assert earlier + map[t := v] == earlier[t := v];
      case None =>
    }
  }

  /** Applying the same pending map twice leaves what applying it once left. */
  lemma FlushIdempotent(b: Budget, keys: seq<string>, pending: map<string, string>)
    requires forall i :: 0 <= i < |keys| ==> keys[i] in pending
    ensures ApplyEntries(ApplyEntries(b, keys, pending), keys, pending) == ApplyEntries(b, keys, pending)
  {
    var w := Writes(keys, pending);
    ApplyEntriesIsOverlay(b, keys, pending);
    ApplyEntriesIsOverlay(Overlay(b, w), keys, pending);
    OverlayCompose(b, w, w);
    assert w + w == w;
  }

  /** The sections keep their length, their order, their ids and their names. */
  predicate SameShape(b: Budget, b': Budget) {
    forall c :: c != Income ==>
      && |b'.Section(c)| == |b.Section(c)|
      && forall j :: 0 <= j < |b.Section(c)| ==>
           b'.Section(c)[j].id == b.Section(c)[j].id && b'.Section(c)[j].name == b.Section(c)[j].name
  }

  /** Writing amounts keeps every section's shape, and a field it does not
      name keeps its value. */
  lemma OverlayKeepsShape(b: Budget, w: map<Target, real>)
    ensures SameShape(b, Overlay(b, w))
    ensures forall c, j, f :: c != Income && 0 <= j < |b.Section(c)| ==>
              Overlay(b, w).Section(c)[j].Get(f) == Pick(w, RecordField(c, b.Section(c)[j].id, f), b.Section(c)[j].Get(f))
  {
    assert forall c :: c != Income ==> Overlay(b, w).Section(c) == OverlaySection(b.Section(c), c, w);
  }

  /** Only amounts change; a record field that no pending entry names keeps its value. */
  lemma FlushKeepsShape(b: Budget, keys: seq<string>, pending: map<string, string>)
    requires forall i :: 0 <= i < |keys| ==> keys[i] in pending
    ensures SameShape(b, ApplyEntries(b, keys, pending))
    ensures forall c, j, f ::
              (c != Income && 0 <= j < |b.Section(c)| && RecordField(c, b.Section(c)[j].id, f) !in Writes(keys, pending))
              ==> ApplyEntries(b, keys, pending).Section(c)[j].Get(f) == b.Section(c)[j].Get(f)
  {
    ApplyEntriesIsOverlay(b, keys, pending);
    OverlayKeepsShape(b, Writes(keys, pending));
  }
}

/**
 * `BillSplitApp` and `ExpenseItem`: the split arithmetic on the filtered listing, the
 * per-category breakdown behind the stats chart, and the add-form and stepper rules.
 */
module Activity {
  import opened Wrappers
  import opened Lists
  import opened Sums
  import opened Database
  import opened ViewModel
  import opened Chart

  /** The category chips, in display order. */
  const CategoryChoices := ["Food", "Travel", "Home", "Fun", "Other"]
  /** The slice colours handed to the pie chart. */
  const ChartColors := [Argb(0xFFE57373), Argb(0xFF81C784), Argb(0xFF64B5F6), Argb(0xFFFFD54F), Argb(0xFFBA68C8)]

  // ---------------------------------------------------------------------------
  // Split arithmetic

  /**
   * `rates[code] ?: 1.0`: the cached rate of a known code; an unknown code is shown
   * unconverted, and so is the base currency while the cache keeps its rate of 1.
   */
  function ConversionRate(rates: map<string, real>, code: string): (rate: real)
    ensures code in rates ==> rate == rates[code]
    ensures code !in rates ==> rate == 1.0
    ensures code == BaseCurrency && (BaseCurrency in rates ==> rates[BaseCurrency] == 1.0) ==> rate == 1.0
  {
    if code in rates then rates[code] else 1.0
  }

  function AmountOf(e: Expense): real { e.amount }

  /** `totalInINR`: `sumOf { it.amount }`, in the base currency. */
  function Total(list: seq<Expense>): real
  {
    SumOf(list, AmountOf)
  }

  /**
   * `displayedTotal`: the base total converted once, as a whole. It equals the sum of the
   * line items as each is shown converted on its own, and an unknown currency shows the
   * base total.
   */
  function DisplayedTotal(list: seq<Expense>, rates: map<string, real>, code: string): (shown: real)
    ensures shown == Sum(DisplayAmounts(list, ConversionRate(rates, code)))
    ensures code !in rates ==> shown == Total(list)
  {
    var rate := ConversionRate(rates, code);
    ItemsScale(list, rate);
    Total(list) * rate
  }

  /** `perPersonAmount`: an even split that never divides by zero. */
  function PerPersonAmount(displayedTotal: real, personCount: int): (r: real)
    ensures personCount > 0 ==> r * personCount as real == displayedTotal
    ensures personCount <= 0 ==> r == 0.0
  {
    if personCount > 0 then displayedTotal / personCount as real else 0.0
  }

  /**
   * `displayAmount` of one list item: its amount at the given rate. At rate 1 it is the
   * stored amount; a non-negative amount at a non-negative rate stays non-negative.
   */
  function DisplayAmount(e: Expense, rate: real): (shown: real)
    ensures rate == 1.0 ==> shown == e.amount
    ensures e.amount >= 0.0 && rate >= 0.0 ==> shown >= 0.0
  {
    e.amount * rate
  }

  function DisplayAmounts(list: seq<Expense>, rate: real): seq<real>
  {
    seq(|list|, i requires 0 <= i < |list| => DisplayAmount(list[i], rate))
  }

  /** With no negative amount the total is non-negative and no single amount exceeds it. */
  lemma TotalBounds(list: seq<Expense>)
    requires forall e :: e in list ==> e.amount >= 0.0
    ensures Total(list) >= 0.0
    ensures forall i :: 0 <= i < |list| ==> list[i].amount <= Total(list)
  {
    SumOfNonNegative(list, AmountOf);
    forall i | 0 <= i < |list| ensures list[i].amount <= Total(list) {
      TermAtMostSum(list, AmountOf, i);
    }
  }

  /** Converting each item and adding up equals converting the total. */
  lemma ItemsScale(list: seq<Expense>, rate: real)
    ensures Sum(DisplayAmounts(list, rate)) == Total(list) * rate
  {
    var shown := DisplayAmounts(list, rate);
    forall i | 0 <= i < |list| ensures shown[i] == AmountOf(list[i]) * rate {
    }
    SumOfScaled(list, AmountOf, shown, rate);
  }

  /** The total does not depend on the order of the listing. */
  lemma TotalPermutation(a: seq<Expense>, b: seq<Expense>)
    requires multiset(a) == multiset(b)
    ensures Total(a) == Total(b)
  {
    SumOfPermutation(a, b, AmountOf);
  }

  // ---------------------------------------------------------------------------
  // Per-category breakdown: `groupBy { it.type }.mapValues { sumOf { it.amount } }`

  /** The rows of one category: each with its multiplicity, in listing order, and nothing else. */
  function OfCategory(list: seq<Expense>, category: string): (rows: seq<Expense>)
    ensures forall x :: multiset(rows)[x] == if x.category == category then multiset(list)[x] else 0
    ensures forall x :: x in rows <==> x in list && x.category == category
    ensures IsSubsequence(rows, list)
  {
    var keep := (x: Expense) => x.category == category;
    FilterCounts(list, keep);
    FilterMembers(list, keep);
    FilterSubsequence(list, keep);
    Filter(list, keep)
  }

  function CategoriesIn(list: seq<Expense>): set<string>
  {
    set e | e in list :: e.category
  }

  /** The group keys: each category once, in the order it first appears. */
  function CategoryKeys(list: seq<Expense>): (keys: seq<string>)
    ensures forall i, j :: 0 <= i < j < |keys| ==> keys[i] != keys[j]
    ensures forall c :: c in keys <==> c in CategoriesIn(list)
    decreases |list|
  {
    if list == [] then []
    else
      var n := |list| - 1;
      var keys := CategoryKeys(list[..n]);
      assert list == list[..n] + [list[n]];
      assert CategoriesIn(list) == CategoriesIn(list[..n]) + {list[n].category};
      if list[n].category in keys then keys else keys + [list[n].category]
  }

  /** One entry per key: the key and the total of its rows. */
  function Entries(keys: seq<string>, list: seq<Expense>): seq<(string, real)>
    decreases |keys|
  {
    if keys == [] then []
    else
      var n := |keys| - 1;
      Entries(keys[..n], list) + [(keys[n], Total(OfCategory(list, keys[n])))]
  }

  /**
   * `categoryTotals`, as the entries of the linked map in iteration order: entry `i` is
   * category `i` with the total of exactly that category's rows, and the entries add up to
   * the ledger total, so the chart's total is the total on screen.
   */
  function CategoryTotals(list: seq<Expense>): (entries: seq<(string, real)>)
    ensures |entries| == |CategoryKeys(list)|
    ensures forall i :: 0 <= i < |entries| ==>
      entries[i] == (CategoryKeys(list)[i], Total(OfCategory(list, CategoryKeys(list)[i])))
    ensures ChartTotal(entries) == Total(list)
  {
    var keys := CategoryKeys(list);
    EntriesAt(keys, list);
    assert forall x :: x in list ==> x.category in CategoriesIn(list);
    EntriesCoverTotal(keys, list);
    Entries(keys, list)
  }

  lemma {:induction false} EntriesAt(keys: seq<string>, list: seq<Expense>)
    ensures |Entries(keys, list)| == |keys|
    ensures forall i :: 0 <= i < |keys| ==> Entries(keys, list)[i] == (keys[i], Total(OfCategory(list, keys[i])))
    decreases |keys|
  {
    if keys != [] {
      EntriesAt(keys[..|keys| - 1], list);
    }
  }

  /**
   * Keys come in order of first appearance: wherever a later key occurs in the listing,
   * every earlier key has already occurred before that position.
   */
  lemma {:induction false} CategoryKeysFirstSeenOrder(list: seq<Expense>)
    ensures forall i, j, p ::
      (0 <= i < j < |CategoryKeys(list)| && 0 <= p < |list| && list[p].category == CategoryKeys(list)[j])
      ==> CategoryKeys(list)[i] in CategoriesIn(list[..p])
    decreases |list|
  {
    if list != [] {
      var n := |list| - 1;
      var s := list[..n];
      CategoryKeysFirstSeenOrder(s);
      var keys := CategoryKeys(list);
      forall i, j, p | 0 <= i < j < |keys| && 0 <= p < |list| && list[p].category == keys[j]
        ensures keys[i] in CategoriesIn(list[..p])
      {
        assert keys[i] in CategoryKeys(s);
        assert list[..p] == s[..p] || p == n;
        if p == n {
          assert list[..p] == s;
        } else {
          assert list[p] == s[p];
          assert s[p] in s;
          assert keys[j] in CategoryKeys(s);
        }
      }
    }
  }

  lemma {:induction false} EntriesOfEmpty(keys: seq<string>)
    ensures SumOf(Entries(keys, []), ValueOf) == 0.0
    decreases |keys|
  {
    if keys != [] {
      EntriesOfEmpty(keys[..|keys| - 1]);
    }
  }

  /** Appending a row adds its amount to the entry of its category, if there is one. */
  lemma {:induction false} EntriesSnoc(keys: seq<string>, s: seq<Expense>, e: Expense)
    requires forall i, j :: 0 <= i < j < |keys| ==> keys[i] != keys[j]
    ensures SumOf(Entries(keys, s + [e]), ValueOf) ==
            SumOf(Entries(keys, s), ValueOf) + (if e.category in keys then e.amount else 0.0)
    decreases |keys|
  {
    if keys != [] {
      var n := |keys| - 1;
      var c := keys[n];
      EntriesSnoc(keys[..n], s, e);
      CategoryTotalSnoc(s, e, c);
      SumOfSnoc(Entries(keys[..n], s + [e]), (c, Total(OfCategory(s + [e], c))), ValueOf);
      SumOfSnoc(Entries(keys[..n], s), (c, Total(OfCategory(s, c))), ValueOf);
      assert keys == keys[..n] + [c];
      assert c !in keys[..n];
    }
  }

  /** Appending a row adds its amount to its own category's total and to no other. */
  lemma CategoryTotalSnoc(s: seq<Expense>, e: Expense, category: string)
    ensures Total(OfCategory(s + [e], category)) ==
            Total(OfCategory(s, category)) + (if e.category == category then e.amount else 0.0)
  {
    assert (s + [e])[..|s|] == s;
    SumOfSnoc(OfCategory(s, category), e, AmountOf);
  }

  /** With distinct keys covering every category present, the entries sum to the total. */
  lemma {:induction false} EntriesCoverTotal(keys: seq<string>, s: seq<Expense>)
    requires forall i, j :: 0 <= i < j < |keys| ==> keys[i] != keys[j]
    requires forall x :: x in s ==> x.category in keys
    ensures SumOf(Entries(keys, s), ValueOf) == Total(s)
    decreases |s|
  {
    if s == [] {
      EntriesOfEmpty(keys);
    } else {
      var n := |s| - 1;
      assert s == s[..n] + [s[n]];
      EntriesCoverTotal(keys, s[..n]);
      EntriesSnoc(keys, s[..n], s[n]);
    }
  }

  /** With a positive total, the breakdown's slices tile the circle (negative amounts included). */
  lemma CategorySlicesTile(list: seq<Expense>)
    requires Total(list) > 0.0
    ensures ChartTotal(CategoryTotals(list)) > 0.0
    ensures Sum(Angles(CategoryTotals(list))) == 360.0
  {
    assert list != [];
    assert list[0].category in CategoriesIn(list);
  }

  /**
   * The stats dialog for a listing with a non-zero total: the pie chart of `categoryTotals`
   * in `chartColors`, and the legend that names each category beside the colour of its slice.
   */
  method StatsChart(list: seq<Expense>) returns (arcs: seq<Arc>, legend: seq<(string, Color)>)
    requires Total(list) != 0.0
    ensures |arcs| == |legend| == |CategoryKeys(list)| > 0
    ensures forall i :: 0 <= i < |arcs| ==>
      && legend[i] == (CategoryKeys(list)[i], arcs[i].color)
      && arcs[i].color == ColorAt(ChartColors, i)
      && arcs[i].sweepAngle == Total(OfCategory(list, CategoryKeys(list)[i])) / Total(list) * 360.0
    ensures arcs[0].startAngle == -90.0
    ensures forall i :: 0 <= i < |arcs| - 1 ==>
      arcs[i + 1].startAngle == arcs[i].startAngle + arcs[i].sweepAngle
    ensures arcs[|arcs| - 1].startAngle + arcs[|arcs| - 1].sweepAngle == 270.0
  {
    var categoryTotals := CategoryTotals(list);
    arcs := PieChart(categoryTotals, ChartColors);
    legend := Legend(categoryTotals, ChartColors);
    StatsChartShape(list, categoryTotals, arcs, legend);
  }

  /** The legend under the chart: each key in order, beside the colour its slice is drawn in. */
  method Legend(data: seq<(string, real)>, colors: seq<Color>) returns (rows: seq<(string, Color)>)
    ensures |rows| == |data|
    ensures forall i :: 0 <= i < |rows| ==> rows[i] == (data[i].0, ColorAt(colors, i))
  {
    rows := [];
    for index := 0 to |data|
      invariant |rows| == index
      invariant forall i :: 0 <= i < index ==> rows[i] == (data[i].0, ColorAt(colors, i))
    {
      rows := rows + [(data[index].0, ColorAt(colors, index))];
    }
  }

  /** What the chart and the legend show, read back in terms of the listing. */
  lemma StatsChartShape(list: seq<Expense>, categoryTotals: seq<(string, real)>,
                        arcs: seq<Arc>, legend: seq<(string, Color)>)
    requires Total(list) != 0.0 && categoryTotals == CategoryTotals(list)
    requires |arcs| == |legend| == |categoryTotals|
    requires forall i :: 0 <= i < |arcs| ==>
      arcs[i] == Arc(ColorAt(ChartColors, i), SliceStart(Angles(categoryTotals), i), Angles(categoryTotals)[i])
    requires forall i :: 0 <= i < |legend| ==> legend[i] == (categoryTotals[i].0, ColorAt(ChartColors, i))
    requires |arcs| > 0 ==> arcs[|arcs| - 1].startAngle + arcs[|arcs| - 1].sweepAngle == 270.0
    ensures |arcs| == |legend| == |CategoryKeys(list)| > 0
    ensures forall i :: 0 <= i < |arcs| ==>
      && legend[i] == (CategoryKeys(list)[i], arcs[i].color)
      && arcs[i].color == ColorAt(ChartColors, i)
      && arcs[i].sweepAngle == Total(OfCategory(list, CategoryKeys(list)[i])) / Total(list) * 360.0
    ensures arcs[0].startAngle == -90.0
    ensures arcs[|arcs| - 1].startAngle + arcs[|arcs| - 1].sweepAngle == 270.0
  {
    assert list != [];
    assert list[0].category in CategoriesIn(list);
    assert |CategoryKeys(list)| > 0;
    var angles := Angles(categoryTotals);
    AnglesAreShares(categoryTotals);
    forall i | 0 <= i < |arcs|
      ensures arcs[i].sweepAngle == Total(OfCategory(list, CategoryKeys(list)[i])) / Total(list) * 360.0
    {
      assert arcs[i].sweepAngle == angles[i];
    }
    assert arcs[0].startAngle == SliceStart(angles, 0);
    assert angles[..0] == [];
  }

  // ---------------------------------------------------------------------------
  // Add-form rules and the category icon

  /** Kotlin's `Char.isWhitespace()`: Java whitespace or a Unicode space separator. */
  predicate IsWhitespace(c: char)
  {
    || c == ' ' || '\t' <= c <= '\r' || '\U{1C}' <= c <= '\U{1F}'
    || c == '\U{A0}' || c == '\U{1680}' || '\U{2000}' <= c <= '\U{200A}'
    || c == '\U{2028}' || c == '\U{2029}' || c == '\U{202F}' || c == '\U{205F}' || c == '\U{3000}'
  }

  /** `isBlank()`: empty or whitespace only. */
  predicate IsBlank(s: string)
  {
    forall i :: 0 <= i < |s| ==> IsWhitespace(s[i])
  }

  /**
   * `finalEvent`: the typed name, else the current filter unless it is the sentinel, else
   * "Default" when nothing was typed under "All Events". The new row shows under the current filter exactly when no other event name
   * was typed; the name is never blank when the filter is not; and the sentinel is stored
   * only when it was typed.
   */
  function ChooseEvent(eventNameInput: string, currentFilter: string): (event: string)
    ensures !IsBlank(eventNameInput) ==> event == eventNameInput
    ensures (currentFilter == AllEvents || event == currentFilter)
        <==> (currentFilter == AllEvents || IsBlank(eventNameInput) || eventNameInput == currentFilter)
    ensures !IsBlank(currentFilter) ==> !IsBlank(event)
    ensures event == AllEvents ==> eventNameInput == AllEvents
    ensures IsBlank(eventNameInput) && currentFilter == AllEvents ==> event == "Default"
  {
    assert !IsWhitespace("Default"[0]);
    if !IsBlank(eventNameInput) then eventNameInput
    else if currentFilter != AllEvents then currentFilter
    else "Default"
  }

  datatype Icon = ShoppingCart | Info | HomeIcon | Star | ListIcon

  /** `getIconForCategory`: the "Other" chip and every category outside the chips share the list icon. */
  function IconForCategory(category: string): (icon: Icon)
    ensures icon == ListIcon <==> category == "Other" || category !in CategoryChoices
  {
    match category
    case "Food" => ShoppingCart
    case "Travel" => Info
    case "Home" => HomeIcon
    case "Fun" => Star
    case _ => ListIcon
  }

  /** The chips get distinct icons, and every unknown category shares the "Other" icon. */
  lemma IconsOfCategories(category: string)
    ensures forall i, j :: 0 <= i < j < |CategoryChoices| ==>
      IconForCategory(CategoryChoices[i]) != IconForCategory(CategoryChoices[j])
    ensures IconForCategory(category) == IconForCategory("Other") <==>
      category != "Food" && category != "Travel" && category != "Home" && category != "Fun"
  {
  }

  /** The state `BillSplitApp` remembers across recompositions. */
  class BillSplitApp {
    var name: string
    var amount: string
    var eventNameInput: string
    var personCount: int
    var selectedCurrency: string
    var selectedCategory: string

    ghost predicate Valid()
      reads this
    {
      personCount >= 1
    }

    constructor ()
      ensures Valid()
      ensures name == "" && amount == "" && eventNameInput == ""
      ensures personCount == 1 && selectedCurrency == BaseCurrency && selectedCategory == "Food"
    {
      name, amount, eventNameInput := "", "", "";
      personCount := 1;
      selectedCurrency := BaseCurrency;
      selectedCategory := "Food";
    }

    /** The "-" button: steps down only while more than one person shares. */
    method DecrementPeople()
      requires Valid()
      modifies this`personCount
      ensures Valid()
      ensures personCount == if old(personCount) > 1 then old(personCount) - 1 else old(personCount)
    {
      if personCount > 1 {
        personCount := personCount - 1;
      }
    }

    /** The "+" button. */
    method IncrementPeople()
      requires Valid()
      modifies this`personCount
      ensures Valid()
      ensures personCount == old(personCount) + 1
    {
      personCount := personCount + 1;
    }

    method EditName(value: string)
      modifies this`name
      ensures name == value
    {
      name := value;
    }

    method EditAmount(value: string)
      modifies this`amount
      ensures amount == value
    {
      amount := value;
    }

    method EditEventName(value: string)
      modifies this`eventNameInput
      ensures eventNameInput == value
    {
      eventNameInput := value;
    }

    method SelectCategory(category: string)
      modifies this`selectedCategory
      ensures selectedCategory == category
    {
      selectedCategory := category;
    }

    method SelectCurrency(code: string)
      modifies this`selectedCurrency
      ensures selectedCurrency == code
    {
      selectedCurrency := code;
    }

    /** The per-person amount on screen: never a division by zero, and it multiplies back. */
    function PerPerson(list: seq<Expense>, rates: map<string, real>): (r: real)
      reads this
      requires Valid()
      ensures r * personCount as real == DisplayedTotal(list, rates, selectedCurrency)
    {
      PerPersonAmount(DisplayedTotal(list, rates, selectedCurrency), personCount)
    }

    /**
     * The add button. `parse` is `toDoubleOrNull`. Accepted exactly when the name is not
     * blank and the amount parses (zero and negative amounts pass); then one row is added
     * and the name and amount fields are cleared. Otherwise nothing changes.
     */
    method OnAddClick(vm: MainViewModel, parse: string -> Option<real>, date: int) returns (accepted: bool)
      requires vm.Valid()
      modifies this`name, this`amount, vm.dao
      ensures vm.Valid()
      ensures accepted <==> !IsBlank(old(name)) && parse(old(amount)).Some?
      ensures accepted ==>
        && name == "" && amount == ""
        && vm.dao.table == old(vm.dao.table)[old(vm.dao.nextId) :=
             Expense(old(vm.dao.nextId), old(name), parse(old(amount)).value, selectedCategory,
                     ChooseEvent(eventNameInput, vm.selectedEventFilter), date)]
        && vm.dao.nextId == old(vm.dao.nextId) + 1
      ensures !accepted ==>
        && name == old(name) && amount == old(amount)
        && vm.dao.table == old(vm.dao.table) && vm.dao.nextId == old(vm.dao.nextId)
    {
      var cost := parse(amount);
      accepted := !IsBlank(name) && cost.Some?;
      if accepted {
        var finalEvent := ChooseEvent(eventNameInput, vm.selectedEventFilter);
        vm.AddExpense(name, cost.value, selectedCategory, finalEvent, date);
        name := "";
        amount := "";
      }
    }
  }
}

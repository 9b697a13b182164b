/**
 * `MainViewModel`: the event filter over the ledger listing, the currency-rate
 * cache, and the commands that forward to the ledger store.
 */
module ViewModel {
  import opened Wrappers
  import opened Lists
  import opened Database

  /** The filter value that shows every event. */
  const AllEvents := "All Events"
  /** The base currency every amount is stored in. */
  const BaseCurrency := "INR"

  /**
   * `list.filter { it.eventName == tag }`: every row of that event, with its multiplicity,
   * in listing order, and nothing else.
   */
  function KeepEvent(list: seq<Expense>, tag: string): (r: seq<Expense>)
    ensures forall x :: multiset(r)[x] == if x.eventName == tag then multiset(list)[x] else 0
    ensures IsSubsequence(r, list)
  {
    var keep := (x: Expense) => x.eventName == tag;
    FilterCounts(list, keep);
    FilterSubsequence(list, keep);
    Filter(list, keep)
  }

  /**
   * The `combine` lambda behind `expenses`: the sentinel passes the listing through;
   * any other tag keeps exactly the rows with that event name (case-sensitive, in order,
   * none of them dropped).
   */
  function EventFilter(list: seq<Expense>, filter: string): (r: seq<Expense>)
    ensures filter == AllEvents ==> r == list
    ensures IsSubsequence(r, list)
    ensures forall x :: x in r <==> x in list && (filter == AllEvents || x.eventName == filter)
    ensures filter != AllEvents ==>
      forall x :: multiset(r)[x] == if x.eventName == filter then multiset(list)[x] else 0
  {
    if filter == AllEvents then
      SubsequenceReflexive(list);
      list
    else
      assert forall x :: x in KeepEvent(list, filter) <==> x in multiset(KeepEvent(list, filter));
      KeepEvent(list, filter)
  }

  /** Filtering an already filtered listing by the same tag changes nothing. */
  lemma EventFilterIdempotent(list: seq<Expense>, filter: string)
    ensures EventFilter(EventFilter(list, filter), filter) == EventFilter(list, filter)
  {
    if filter != AllEvents {
      FilterIdempotent(list, (x: Expense) => x.eventName == filter);
    }
  }

  /** The filtered listing stays newest first. */
  lemma EventFilterDescending(list: seq<Expense>, filter: string)
    requires StrictlyDescending(list)
    ensures StrictlyDescending(EventFilter(list, filter))
  {
    SubsequenceDescending(EventFilter(list, filter), list);
  }

  /**
   * The rate cache after a fetch: `putAll` of a successful response, the old cache after a failure.
   * A fetched code overrides the cached one, including the base currency.
   */
  function MergeRates(rates: map<string, real>, response: Option<map<string, real>>): (r: map<string, real>)
    ensures response.None? ==> r == rates
    ensures response.Some? ==> r.Keys == rates.Keys + response.value.Keys
    ensures response.Some? ==> forall k :: k in response.value ==> r[k] == response.value[k]
    ensures forall k :: k in rates && (response.None? || k !in response.value) ==> r[k] == rates[k]
  {
    match response
    case None => rates
    case Some(fetched) => rates + fetched
  }

  /** Applying the same fetch result twice leaves the cache as applying it once. */
  lemma MergeRatesIdempotent(rates: map<string, real>, response: Option<map<string, real>>)
    ensures MergeRates(MergeRates(rates, response), response) == MergeRates(rates, response)
  {
  }

  /** The base rate survives every fetch whose response does not mention the base currency. */
  lemma BaseRateKept(rates: map<string, real>, response: Option<map<string, real>>)
    requires BaseCurrency in rates && rates[BaseCurrency] == 1.0
    requires response.Some? ==> BaseCurrency !in response.value
    ensures BaseCurrency in MergeRates(rates, response)
    ensures MergeRates(rates, response)[BaseCurrency] == 1.0
  {
  }

  /** `putAll` does not protect the base rate: a response that lists it replaces it, whatever the cache held. */
  lemma BaseRateOverwritten(rates: map<string, real>, fetched: map<string, real>)
    requires BaseCurrency in fetched
    ensures BaseCurrency in MergeRates(rates, Some(fetched))
    ensures MergeRates(rates, Some(fetched))[BaseCurrency] == fetched[BaseCurrency]
  {
  }

  class MainViewModel {
    /** The store this view model forwards to. */
    const dao: ExpenseDao
    /** `selectedEventFilter.value`. */
    var selectedEventFilter: string
    /** `_rates`, exposed read-only as `rates`. */
    var rates: map<string, real>

    ghost predicate Valid()
      reads this, dao
    {
      dao.Valid()
    }

    /** `init`: the filter shows every event and the cache knows only the base rate. */
    constructor (dao: ExpenseDao)
      requires dao.Valid()
      ensures Valid() && this.dao == dao
      ensures selectedEventFilter == AllEvents
      ensures rates == map[BaseCurrency := 1.0]
    {
      this.dao := dao;
      selectedEventFilter := AllEvents;
      rates := map[BaseCurrency := 1.0];
    }

    /** `expenses`: the store listing narrowed by the current filter, newest first. */
    method Expenses() returns (list: seq<Expense>)
      requires Valid()
      ensures StrictlyDescending(list)
      ensures forall x :: x in list <==>
        Stored(dao.table, x) && (selectedEventFilter == AllEvents || x.eventName == selectedEventFilter)
    {
      var all := dao.GetAllExpenses();
      list := EventFilter(all, selectedEventFilter);
      EventFilterDescending(all, selectedEventFilter);
    }

    /** `fetchCurrencies` once the request has finished: `None` stands for any failure. */
    method FetchCurrencies(response: Option<map<string, real>>)
      modifies this`rates
      ensures rates == MergeRates(old(rates), response)
    {
      match response {
        case None =>
        case Some(fetched) =>
          rates := rates + fetched;
      }
    }

    /** `addExpense`: one new row with exactly these fields, under the next id. */
    method AddExpense(name: string, amount: real, category: string, event: string, date: int)
      requires Valid()
      modifies dao
      ensures Valid()
      ensures dao.table == old(dao.table)[old(dao.nextId) :=
        Expense(old(dao.nextId), name, amount, category, event, date)]
      ensures dao.nextId == old(dao.nextId) + 1
      ensures old(dao.nextId) !in old(dao.table)
    {
      var _ := dao.Insert(Expense(0, name, amount, category, event, date));
    }

    /** `removeExpense`: deletes the row with that id. */
    method RemoveExpense(expense: Expense)
      requires Valid()
      modifies dao
      ensures Valid()
      ensures dao.table == old(dao.table) - {expense.id}
      ensures dao.nextId == old(dao.nextId)
    {
      dao.Delete(expense);
    }

    /** `setEventFilter`. */
    method SetEventFilter(event: string)
      modifies this`selectedEventFilter
      ensures selectedEventFilter == event
    {
      selectedEventFilter := event;
    }
  }
}

/**
 * The ledger store: Room's `expense_table` behind `ExpenseDao`.
 * The table is a map from primary key to row; the query
 * `SELECT * FROM expense_table ORDER BY id DESC` lists it newest first.
 */
module Database {
  import opened Lists

  /**
   * One row of `expense_table`. `category` is the Kotlin field `type` (a keyword here);
   * `date` is the clock reading taken when the row was made.
   */
  datatype Expense = Expense(id: int, name: string, amount: real, category: string, eventName: string, date: int)

  /** Ids strictly decrease along `s`: newest first, and no id twice. */
  predicate StrictlyDescending(s: seq<Expense>)
  {
    forall i, j :: 0 <= i < j < |s| ==> s[i].id > s[j].id
  }

  /** Every row is filed under its own id. */
  predicate WellKeyed(table: map<int, Expense>)
  {
    forall k :: k in table ==> table[k].id == k
  }

  /** `x` is the row the table holds under `x.id`. */
  predicate Stored(table: map<int, Expense>, x: Expense)
  {
    x.id in table && table[x.id] == x
  }

  /** `list` is an answer to `SELECT * FROM expense_table ORDER BY id DESC` on `table`. */
  ghost predicate IsQueryOf(list: seq<Expense>, table: map<int, Expense>)
  {
    && StrictlyDescending(list)
    && forall x :: x in list <==> Stored(table, x)
  }

  /** The rows of `s` whose id is not `id`, in order: what a listing shows after a delete. */
  function RemoveId(s: seq<Expense>, id: int): (r: seq<Expense>)
    ensures forall x :: multiset(r)[x] == if x.id != id then multiset(s)[x] else 0
    ensures forall x :: x in r <==> x in s && x.id != id
    ensures IsSubsequence(r, s)
  {
    var keep := (x: Expense) => x.id != id;
    FilterCounts(s, keep);
    FilterMembers(s, keep);
    FilterSubsequence(s, keep);
    Filter(s, keep)
  }

  class ExpenseDao {
    /** `expense_table`, keyed by primary key. */
    var table: map<int, Expense>
    /** The id the next insert receives; ids are never handed out twice. */
    var nextId: int

    ghost predicate Valid()
      reads this
    {
      && 1 <= nextId
      && WellKeyed(table)
      && forall k :: k in table ==> 1 <= k < nextId
    }

    constructor ()
      ensures Valid()
      ensures table == map[] && nextId == 1
    {
      table := map[];
      nextId := 1;
    }

    /** `getAllExpenses`: every stored row once, ordered by id, largest first. */
    method GetAllExpenses() returns (list: seq<Expense>)
      requires Valid()
      ensures IsQueryOf(list, table)
    {
      list := [];
      var k := nextId - 1;
      while k >= 1
        invariant 0 <= k < nextId
        invariant StrictlyDescending(list)
        invariant forall x :: x in list ==> x.id > k
        invariant forall x :: x in list <==> Stored(table, x) && x.id > k
      {
        if k in table {
          list := list + [table[k]];
        }
        k := k - 1;
      }
    }

    /** `insert`: the row is stored under a fresh id; the caller's id is not used. */
    method Insert(e: Expense) returns (stored: Expense)
      requires Valid()
      modifies this
      ensures Valid()
      ensures stored == e.(id := old(nextId))
      ensures stored.id !in old(table)
      ensures table == old(table)[stored.id := stored]
      ensures nextId == old(nextId) + 1
      ensures forall x :: Stored(old(table), x) ==> Stored(table, x)
    {
      stored := e.(id := nextId);
      table := table[nextId := stored];
      nextId := nextId + 1;
    }

    /** `delete`: removes the row with the same primary key, if there is one. */
    method Delete(e: Expense)
      requires Valid()
      modifies this
      ensures Valid()
      ensures table == old(table) - {e.id}
      ensures nextId == old(nextId)
      ensures e.id !in old(table) ==> table == old(table)
    {
      table := table - {e.id};
    }
  }

  /** A strictly descending list holds each of its elements exactly once. */
  lemma {:induction false} DescendingHoldsEachOnce(s: seq<Expense>, x: Expense)
    requires StrictlyDescending(s)
    ensures multiset(s)[x] == if x in s then 1 else 0
    decreases |s|
  {
    if s != [] {
      var n := |s| - 1;
      assert s == s[..n] + [s[n]];
      DescendingHoldsEachOnce(s[..n], x);
      if x == s[n] {
        assert x !in s[..n];
      }
    }
  }

  /** Two strictly descending lists with the same elements are equal. */
  lemma {:induction false} DescendingUnique(a: seq<Expense>, b: seq<Expense>)
    requires StrictlyDescending(a) && StrictlyDescending(b)
    requires forall x :: x in a <==> x in b
    ensures a == b
    decreases |a|
  {
    if a == [] {
      assert forall i :: 0 <= i < |b| ==> b[i] in b;
    } else {
      assert a[0] in b;
      assert b != [];
      assert b[0] in a;
      var i :| 0 <= i < |a| && a[i] == b[0];
      var j :| 0 <= j < |b| && b[j] == a[0];
      assert i == 0 && j == 0;
      forall x ensures x in a[1..] <==> x in b[1..] {
        if x in a[1..] {
          var p :| 1 <= p < |a| && a[p] == x;
          assert x in b && x != b[0];
        }
        if x in b[1..] {
          var q :| 1 <= q < |b| && b[q] == x;
          assert x in a && x != a[0];
        }
      }
      DescendingUnique(a[1..], b[1..]);
      assert a == [a[0]] + a[1..] && b == [b[0]] + b[1..];
    }
  }

  /** The query has exactly one answer: its order and contents are fixed by the table. */
  lemma QueryUnique(a: seq<Expense>, b: seq<Expense>, table: map<int, Expense>)
    requires IsQueryOf(a, table) && IsQueryOf(b, table)
    ensures a == b
  {
    DescendingUnique(a, b);
  }

  /** Each stored row appears exactly once in the query, and nothing else appears. */
  lemma QueryHoldsEachOnce(list: seq<Expense>, table: map<int, Expense>, x: Expense)
    requires IsQueryOf(list, table)
    ensures multiset(list)[x] == if Stored(table, x) then 1 else 0
  {
    DescendingHoldsEachOnce(list, x);
  }

  /** Inserting a row whose id exceeds every stored id puts it first and keeps the previous listing after it. */
  lemma QueryAfterInsert(list: seq<Expense>, table: map<int, Expense>, e: Expense)
    requires IsQueryOf(list, table)
    requires forall k :: k in table ==> k < e.id
    ensures IsQueryOf([e] + list, table[e.id := e])
    ensures |[e] + list| == |list| + 1
    ensures multiset([e] + list)[e] == 1
  {
    var t' := table[e.id := e];
    forall x ensures x in [e] + list <==> Stored(t', x) {
      if x in list {
        assert Stored(table, x);
        assert x.id != e.id;
      }
    }
    assert StrictlyDescending([e] + list) by {
      forall i, j | 0 <= i < j < |[e] + list| ensures ([e] + list)[i].id > ([e] + list)[j].id {
        if i == 0 {
          assert list[j - 1] in list;
        }
      }
    }
    assert !Stored(table, e);
  }

  /** Dropping rows from a newest-first list leaves it newest first. */
  lemma {:induction false} SubsequenceDescending(a: seq<Expense>, b: seq<Expense>)
    requires IsSubsequence(a, b) && StrictlyDescending(b)
    ensures StrictlyDescending(a)
    decreases |b|
  {
    if a != [] {
      var n := |b| - 1;
      var m := |a| - 1;
      if a[m] == b[n] && IsSubsequence(a[..m], b[..n]) {
        SubsequenceDescending(a[..m], b[..n]);
        SubsequenceMembers(a[..m], b[..n]);
        forall i, j | 0 <= i < j < |a| ensures a[i].id > a[j].id {
          if j == m {
            assert a[i] in a[..m];
            var p :| 0 <= p < n && b[p] == a[i];
          } else {
            assert a[i] == a[..m][i] && a[j] == a[..m][j];
          }
        }
      } else {
        SubsequenceDescending(a, b[..n]);
      }
    }
  }

  /** Deleting by id: the listing loses exactly the rows with that id and keeps the rest in order. */
  lemma QueryAfterDelete(list: seq<Expense>, table: map<int, Expense>, id: int)
    requires IsQueryOf(list, table)
    ensures IsQueryOf(RemoveId(list, id), table - {id})
    ensures IsSubsequence(RemoveId(list, id), list)
    ensures forall x :: x in RemoveId(list, id) ==> x.id != id
  {
    SubsequenceDescending(RemoveId(list, id), list);
  }

  /** Deleting an id that no row has changes neither the table nor its listing. */
  lemma DeleteAbsentQuery(list: seq<Expense>, table: map<int, Expense>, id: int)
    requires IsQueryOf(list, table)
    requires id !in table
    ensures table - {id} == table
    ensures RemoveId(list, id) == list
  {
    forall x | x in list ensures x.id != id {
      assert Stored(table, x);
    }
    FilterKeepsAll(list, (x: Expense) => x.id != id);
  }
}

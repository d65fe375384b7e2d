/** Cursor paging of payments (services/payments.py, list_payments). */
module Paging {
  import opened Prelude
  import opened Models
  import opened Calendar

  datatype Filter = Filter(owner: Id, agent: Option<Id>, status: Option<Status>,
                           createdAfter: Option<Time>, createdBefore: Option<Time>)

  predicate Matches(f: Filter, a: Action) {
    && a.Payment?
    && a.owner == f.owner
    && (f.agent.Some? ==> a.agent == f.agent.value)
    && (f.status.Some? ==> a.status == f.status.value)
    && (f.createdAfter.Some? ==> a.createdAt > f.createdAfter.value)
    && (f.createdBefore.Some? ==> a.createdAt < f.createdBefore.value)
  }

  /** The matching ids below `n`, highest first. */
  function Descending(table: seq<Action>, f: Filter, n: nat): seq<Id>
    requires n <= |table|
  {
    if n == 0 then []
    else (if Matches(f, table[n - 1]) then [n - 1] else []) + Descending(table, f, n - 1)
  }

  function Query(table: seq<Action>, f: Filter, cursor: Option<Id>): seq<Id> {
    Descending(table, f, if cursor.Some? && cursor.value < |table| then cursor.value else |table|)
  }

  /** One page and whether there is more: fetch limit + 1 rows, show limit. */
  function ListPage(table: seq<Action>, f: Filter, limit: nat, cursor: Option<Id>): (seq<Id>, bool)
    requires limit >= 1
  {
    var all := Query(table, f, cursor);
    var rows := if |all| <= limit + 1 then all else all[..limit + 1];
    (if |rows| <= limit then rows else rows[..limit], |rows| > limit)
  }

  /** A client that follows the cursor, one request per table; the flag says it reached the end. */
  function Walk(tables: seq<seq<Action>>, f: Filter, limit: nat, cursor: Option<Id>): (seq<Id>, bool)
    requires limit >= 1
  {
    if tables == [] then ([], false)
    else
      var (page, more) := ListPage(tables[0], f, limit, cursor);
      if !more then (page, true)
      else
        var (rest, done) := Walk(tables[1..], f, limit, Some(page[|page| - 1]));
        (page + rest, done)
  }

  predicate StrictlyDescending(ids: seq<Id>) {
    forall i, j :: 0 <= i < j < |ids| ==> ids[i] > ids[j]
  }

  lemma PrependHigher(id: Id, ids: seq<Id>)
    requires StrictlyDescending(ids) && forall x | x in ids :: x < id
    ensures StrictlyDescending([id] + ids)
  {
    forall i, j | 0 <= i < j < |ids| + 1 ensures ([id] + ids)[i] > ([id] + ids)[j] {
      assert ids[j - 1] in ids;
    }
  }

  lemma {:induction false} DescendingMember(table: seq<Action>, f: Filter, n: nat, id: Id)
    requires n <= |table|
    ensures id in Descending(table, f, n) <==> id < n && Matches(f, table[id])
  {
    if n > 0 {
      DescendingMember(table, f, n - 1, id);
    }
  }

  /** The query lists exactly the matching ids, each once, in descending order. */
  lemma {:induction false} DescendingLists(table: seq<Action>, f: Filter, n: nat)
    requires n <= |table|
    ensures forall id: Id :: id in Descending(table, f, n) <==> id < n && Matches(f, table[id])
    ensures StrictlyDescending(Descending(table, f, n))
  {
    forall id: Id ensures id in Descending(table, f, n) <==> id < n && Matches(f, table[id]) {
      DescendingMember(table, f, n, id);
    }
    if n > 0 {
      DescendingLists(table, f, n - 1);
      if Matches(f, table[n - 1]) {
        PrependHigher(n - 1, Descending(table, f, n - 1));
      } else {
        assert Descending(table, f, n) == Descending(table, f, n - 1);
      }
    }
  }

  /** What follows a page is the query from the page's last id. */
  lemma {:induction false} AfterPage(table: seq<Action>, f: Filter, n: nat, limit: nat)
    requires n <= |table| && 1 <= limit <= |Descending(table, f, n)|
    ensures var ids := Descending(table, f, n);
            ids[limit - 1] < n && ids[limit..] == Descending(table, f, ids[limit - 1])
  {
    var ids, rest := Descending(table, f, n), Descending(table, f, n - 1);
    if !Matches(f, table[n - 1]) {
      assert ids == rest;
      AfterPage(table, f, n - 1, limit);
    } else if limit > 1 {
      AfterPage(table, f, n - 1, limit - 1);
      assert ids[limit..] == rest[limit - 1..];
    }
  }

  /** Rows with larger ids, and changes that do not affect the filter, do not show below a cursor. */
  ghost predicate Grown(table: seq<Action>, later: seq<Action>, f: Filter) {
    |table| <= |later| && forall i :: 0 <= i < |table| ==> Matches(f, later[i]) == Matches(f, table[i])
  }

  lemma {:induction false} GrownQuery(table: seq<Action>, later: seq<Action>, f: Filter, n: nat)
    requires Grown(table, later, f) && n <= |table|
    ensures Descending(later, f, n) == Descending(table, f, n)
  {
    if n > 0 {
      GrownQuery(table, later, f, n - 1);
    }
  }

  lemma PageShape(table: seq<Action>, f: Filter, limit: nat, cursor: Option<Id>)
    requires limit >= 1
    ensures var all := Query(table, f, cursor);
            ListPage(table, f, limit, cursor) == (if |all| <= limit then (all, false) else (all[..limit], true))
  {
    var all := Query(table, f, cursor);
    if |all| > limit {
      assert all[..limit + 1][..limit] == all[..limit];
    }
  }

  /** The remaining requests of a walk all see what matched at first. */
  ghost predicate SeenBy(table: seq<Action>, tables: seq<seq<Action>>, f: Filter) {
    forall i :: 0 <= i < |tables| ==> Grown(table, tables[i], f)
  }

  lemma SeenByRest(table: seq<Action>, tables: seq<seq<Action>>, f: Filter)
    requires SeenBy(table, tables, f) && tables != []
    ensures Grown(table, tables[0], f) && SeenBy(table, tables[1..], f)
  {
    forall i | 0 <= i < |tables[1..]| ensures Grown(table, tables[1..][i], f) {
      assert tables[1..][i] == tables[i + 1];
    }
  }

  lemma WalkStep(tables: seq<seq<Action>>, f: Filter, limit: nat, cursor: Option<Id>, page: seq<Id>, rest: seq<Id>)
    requires limit >= 1 && tables != [] && page != []
    requires ListPage(tables[0], f, limit, cursor) == (page, true)
    requires Walk(tables[1..], f, limit, Some(page[|page| - 1])) == (rest, true)
    ensures Walk(tables, f, limit, cursor) == (page + rest, true)
  {
  }

  lemma WalkEnd(tables: seq<seq<Action>>, f: Filter, limit: nat, cursor: Option<Id>, page: seq<Id>)
    requires limit >= 1 && tables != [] && ListPage(tables[0], f, limit, cursor) == (page, false)
    ensures Walk(tables, f, limit, cursor) == (page, true)
  {
  }

  /** After a full page, a request from its last id finds what remains. */
  lemma NextPage(table: seq<Action>, later: seq<Action>, f: Filter, limit: nat, n: nat, all: seq<Id>)
    requires n <= |table| && all == Descending(table, f, n) && 1 <= limit < |all| && Grown(table, later, f)
    ensures all[limit - 1] < n
    ensures Query(later, f, Some(all[limit - 1])) == all[limit..] == Descending(table, f, all[limit - 1])
  {
    AfterPage(table, f, n, limit);
    GrownQuery(table, later, f, all[limit - 1]);
  }

  /** Enough requests deliver exactly what the first one found, however the table grows. */
  lemma {:induction false} WalkFrom(table: seq<Action>, tables: seq<seq<Action>>, f: Filter, limit: nat,
                                    cursor: Option<Id>, n: nat, all: seq<Id>)
    requires limit >= 1 && n <= |table| && SeenBy(table, tables, f)
    requires |all| < |tables| && Query(tables[0], f, cursor) == all == Descending(table, f, n)
    ensures Walk(tables, f, limit, cursor) == (all, true)
    decreases |tables|
  {
    PageShape(tables[0], f, limit, cursor);
    if |all| <= limit {
      WalkEnd(tables, f, limit, cursor, all);
    } else {
      var page, next, rest, later := all[..limit], all[limit - 1], all[limit..], tables[1..];
      assert |rest| < |later| && page + rest == all && page[|page| - 1] == next;
      SeenByRest(table, tables, f);
      NextPage(table, later[0], f, limit, n, all);
      WalkFrom(table, later, f, limit, Some(next), next, rest);
      WalkStep(tables, f, limit, cursor, page, rest);
    }
  }

  /** Paging through with any limit of at least 1 visits every row that matched at the first
      request exactly once, newest first, and ends; rows inserted meanwhile do not disturb it. */
  lemma PagingIsComplete(tables: seq<seq<Action>>, f: Filter, limit: nat)
    requires limit >= 1 && |tables| > 0 && |Query(tables[0], f, None)| < |tables|
    requires SeenBy(tables[0], tables, f)
    ensures var ids := Walk(tables, f, limit, None).0;
            && Walk(tables, f, limit, None).1
            && (forall id: Id :: id in ids <==> id < |tables[0]| && Matches(f, tables[0][id]))
            && StrictlyDescending(ids)
  {
    DescendingLists(tables[0], f, |tables[0]|);
    WalkFrom(tables[0], tables, f, limit, None, |tables[0]|, Query(tables[0], f, None));
  }

  // ---- Any change --------------------------------------------------------------------------

  function Below(table: seq<Action>, cursor: Option<Id>): nat {
    if cursor.Some? && cursor.value < |table| then cursor.value else |table|
  }

  /** Ids below a bound, strictly descending. */
  predicate DescendsFrom(ids: seq<Id>, bound: nat) {
    StrictlyDescending(ids) && forall id | id in ids :: id < bound
  }

  lemma Continued(page: seq<Id>, rest: seq<Id>, bound: nat)
    requires DescendsFrom(page, bound) && page != [] && DescendsFrom(rest, page[|page| - 1])
    ensures DescendsFrom(page + rest, bound)
  {
    var ids := page + rest;
    forall i, j | 0 <= i < j < |ids| ensures ids[i] > ids[j] {
      if j >= |page| {
        assert ids[j] in rest;
        assert i < |page| - 1 ==> page[i] > page[|page| - 1];
      }
    }
    forall id | id in ids ensures id < bound {
      assert page[|page| - 1] in page;
    }
  }

  lemma TakeHighest(all: seq<Id>, limit: nat, bound: nat)
    requires DescendsFrom(all, bound) && 1 <= limit < |all|
    ensures DescendsFrom(all[..limit], bound)
    ensures forall id | id in all :: id >= all[limit - 1] ==> id in all[..limit]
  {
    forall id | id in all && id >= all[limit - 1] ensures id in all[..limit] {
      var i :| 0 <= i < |all| && all[i] == id;
      assert i < limit;
      assert all[..limit][i] == id;
    }
    forall id | id in all[..limit] ensures id < bound {
      assert id in all;
    }
  }

  /** The lowest id a page may have passed over: none below the last one it shows, if there is more. */
  function Reach(page: seq<Id>, more: bool): nat {
    if more && page != [] then page[|page| - 1] else 0
  }

  /** One page: the highest matching ids below the cursor, none of them passed over. */
  lemma PageServes(table: seq<Action>, f: Filter, limit: nat, cursor: Option<Id>)
    requires limit >= 1
    ensures var (page, more) := ListPage(table, f, limit, cursor);
            && DescendsFrom(page, Below(table, cursor))
            && (more ==> page != [])
            && (forall id: Id :: Reach(page, more) <= id < Below(table, cursor) && Matches(f, table[id]) ==> id in page)
  {
    var all, bound := Query(table, f, cursor), Below(table, cursor);
    DescendingLists(table, f, bound);
    PageShape(table, f, limit, cursor);
    if |all| > limit {
      TakeHighest(all, limit, bound);
    }
  }

  /** The row matches in every table the walk sees. */
  ghost predicate AlwaysMatches(tables: seq<seq<Action>>, f: Filter, id: Id) {
    forall i :: 0 <= i < |tables| ==> id < |tables[i]| && Matches(f, tables[i][id])
  }

  /** However the rows change between requests, paging descends strictly, so it visits no row twice
      and ends within as many requests as there are rows; and once it has ended it has visited every
      row below its cursor that matched all along. */
  lemma {:induction false} AnyWalk(tables: seq<seq<Action>>, f: Filter, limit: nat, cursor: Option<Id>)
    requires limit >= 1 && tables != []
    ensures var (ids, done) := Walk(tables, f, limit, cursor);
            && DescendsFrom(ids, Below(tables[0], cursor))
            && (|tables| > Below(tables[0], cursor) ==> done)
            && (done ==> forall id: Id :: id < Below(tables[0], cursor) && AlwaysMatches(tables, f, id) ==> id in ids)
    decreases |tables|
  {
    var (page, more) := ListPage(tables[0], f, limit, cursor);
    PageServes(tables[0], f, limit, cursor);
    if more {
      var next, later := page[|page| - 1], tables[1..];
      assert next in page;
      if later == [] {
        assert Walk(later, f, limit, Some(next)) == ([], false);
        assert page + [] == page;
      } else {
        AnyWalk(later, f, limit, Some(next));
        var (rest, done) := Walk(later, f, limit, Some(next));
        Continued(page, rest, Below(tables[0], cursor));
        forall id: Id | id < Below(tables[0], cursor) && AlwaysMatches(tables, f, id) && done
          ensures id in page + rest
        {
          AlwaysLater(tables, f, id);
          assert Matches(f, tables[0][id]);
          if id < next {
            assert id < Below(later[0], Some(next));
          }
        }
      }
    }
  }

  lemma AlwaysLater(tables: seq<seq<Action>>, f: Filter, id: Id)
    requires AlwaysMatches(tables, f, id) && |tables| > 1
    ensures AlwaysMatches(tables[1..], f, id) && id < |tables[1..][0]|
  {
    assert forall i :: 0 <= i < |tables[1..]| ==> tables[1..][i] == tables[i + 1];
  }
}

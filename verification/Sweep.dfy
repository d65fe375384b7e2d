/** The expiry sweep: what it does to each row, that it cannot fail, and that neither the
    order of the approvals nor a second run matters. */
module Sweep {
  import opened Prelude
  import opened Models
  import opened Calendar
  import opened BooksModel
  import opened BooksEffects
  import opened Tallies
  import opened PaymentsModel
  import opened ApprovalsModel
  import opened MoneyInvariant
  import opened Invariant
  import opened StepInvariant

  function ExpiredRow(a: Approval, now: Time): Approval {
    a.(status := Expired, decidedAt := Some(now))
  }

  /** Exactly the approvals in `ks` expire, and exactly their actions are cancelled. */
  ghost predicate ExpiresExactly(s: State, s': State, now: Time, ks: set<Id>) {
    && |s'.approvals| == |s.approvals| && |s'.actions| == |s.actions|
    && (forall k: Id :: k < |s.approvals| ==>
         s'.approvals[k] == if k in ks then ExpiredRow(s.approvals[k], now) else s.approvals[k])
    && (forall i: Id :: i < |s.actions| ==>
         s'.actions[i] == if s.actions[i].approval.Some? && s.actions[i].approval.value in ks
                          then CancelledRow(s.actions[i], now, ExpiredApproval) else s.actions[i])
  }

  /** The balance row `row` becomes when nothing but reservations of its holder is released. */
  ghost predicate SameRowBut(row: Balance, row': Balance) {
    && row'.owner == row.owner && row'.currency == row.currency
    && row'.available + row'.pendingOut == row.available + row.pendingOut
    && row'.breakdown == (if row.breakdown == [] then [] else [Money(row'.available, row'.currency)])
  }

  /** Nothing changes but approvals, actions, and the split of each balance. */
  ghost predicate OnlyReleases(s: State, s': State) {
    && s' == s.(books := s'.books, actions := s'.actions, approvals := s'.approvals)
    && s'.books.ledger == s.books.ledger
    && s'.books.balances.Keys == s.books.balances.Keys
    && (forall h | h in s.books.balances :: SameRowBut(s.books.balances[h], s'.books.balances[h]))
  }

  ghost predicate Distinct(ks: seq<Id>) {
    forall i, j :: 0 <= i < j < |ks| ==> ks[i] != ks[j]
  }

  ghost predicate AllPending(s: State, ks: seq<Id>) {
    forall k | k in ks :: k < |s.approvals| && s.approvals[k].status == Pending
  }

  function Elements(ks: seq<Id>): set<Id> {
    set k | k in ks
  }

  // ---- One approval ------------------------------------------------------------------------

  /** The holder of a held action has a balance, and its breakdown is filled in. */
  lemma HeldSourceKnown(s: State, now: Time, i: Id)
    requires Inv(s, now) && i < |s.actions| && s.actions[i].status == PendingApproval
    ensures Source(s.actions[i]) in s.books.balances
    ensures s.books.balances[Source(s.actions[i])].breakdown != []
  {
    var h := Source(s.actions[i]);
    forall j | 0 <= j < |s.actions| ensures s.actions[j].amount > 0 {
      assert ActionRow(s.owners, s.agents, s.quotes, s.actions[j], now);
    }
    TotalAtLeast(PendingFrom(h), s.actions, i);
    assert Pend(s.books, h) > 0;
    assert Synced(s.books.balances[h]);
  }

  lemma ExpireOneExact(s: State, now: Time, k: Id)
    requires Inv(s, now) && k < |s.approvals| && s.approvals[k].status == Pending
    requires ExpireOne(s, now, k).Ok?
    ensures ExpiresExactly(s, ExpireOne(s, now, k).value, now, {k})
  {
    var s', approval := ExpireOne(s, now, k).value, s.approvals[k];
    assert ApprovalLinked(s.actions, s.approvals, s.counterparties, k);
    forall i: Id | i < |s.actions|
      ensures s'.actions[i] == if s.actions[i].approval == Some(k)
                               then CancelledRow(s.actions[i], now, ExpiredApproval) else s.actions[i]
    {
      assert ActionLinked(s.actions, s.approvals, i);
    }
  }

  lemma ExpireOneReleases(s: State, now: Time, k: Id)
    requires Inv(s, now) && k < |s.approvals| && s.approvals[k].status == Pending
    requires ExpireOne(s, now, k).Ok?
    ensures OnlyReleases(s, ExpireOne(s, now, k).value)
  {
    if s.approvals[k].action.CounterpartyAction? {
    } else {
      var i := HoldOf(s, now, k);
      HeldSourceKnown(s, now, i);
    }
    forall h | h in s.books.balances ensures Synced(s.books.balances[h]) {
    }
  }

  lemma ExpireOneEffect(s: State, now: Time, k: Id)
    requires Inv(s, now) && k < |s.approvals| && s.approvals[k].status == Pending
    ensures ExpireOne(s, now, k).Ok?
    ensures var s' := ExpireOne(s, now, k).value;
            Inv(s', now) && ExpiresExactly(s, s', now, {k}) && OnlyReleases(s, s')
  {
    ExpireOneInv(s, now, k);
    ExpireOneExact(s, now, k);
    ExpireOneReleases(s, now, k);
  }

  // ---- The whole list ----------------------------------------------------------------------

  lemma ExpiresChain(s: State, s1: State, s2: State, now: Time, ks: set<Id>, k: Id)
    requires ExpiresExactly(s, s1, now, ks) && ExpiresExactly(s1, s2, now, {k}) && k !in ks
    ensures ExpiresExactly(s, s2, now, ks + {k})
  {
    forall i: Id | i < |s.actions|
      ensures s2.actions[i] == if s.actions[i].approval.Some? && s.actions[i].approval.value in ks + {k}
                               then CancelledRow(s.actions[i], now, ExpiredApproval) else s.actions[i]
    {
      assert s1.actions[i].approval == s.actions[i].approval;
    }
  }

  lemma ReleasesChain(s: State, s1: State, s2: State)
    requires OnlyReleases(s, s1) && OnlyReleases(s1, s2)
    ensures OnlyReleases(s, s2)
  {
    forall h | h in s.books.balances ensures SameRowBut(s.books.balances[h], s2.books.balances[h]) {
      assert SameRowBut(s.books.balances[h], s1.books.balances[h]);
      assert SameRowBut(s1.books.balances[h], s2.books.balances[h]);
    }
  }

  /** The sweep never fails, keeps the invariant, and expires exactly what it was given. */
  lemma {:induction false} ExpireAllEffect(s: State, now: Time, ks: seq<Id>)
    requires Inv(s, now) && Distinct(ks) && AllPending(s, ks)
    ensures ExpireAll(s, now, ks).Ok?
    ensures var s' := ExpireAll(s, now, ks).value;
            Inv(s', now) && ExpiresExactly(s, s', now, Elements(ks)) && OnlyReleases(s, s')
  {
    if ks == [] {
      forall h | h in s.books.balances ensures SameRowBut(s.books.balances[h], s.books.balances[h]) {
        assert Synced(s.books.balances[h]);
      }
    } else {
      var rest, k := ks[..|ks| - 1], ks[|ks| - 1];
      assert AllPending(s, rest) by {
        assert forall x | x in rest :: x in ks;
      }
      ExpireAllEffect(s, now, rest);
      var s1 := ExpireAll(s, now, rest).value;
      assert k !in rest;
      assert k in ks;
      ExpireOneEffect(s1, now, k);
      var s2 := ExpireOne(s1, now, k).value;
      ExpiresChain(s, s1, s2, now, Elements(rest), k);
      ReleasesChain(s, s1, s2);
      assert Elements(ks) == Elements(rest) + {k} by {
        assert ks == rest + [k];
      }
    }
  }

  /** Two lists of the same pending approvals, in any order, lead to the same database. */
  lemma SweepOrderIrrelevant(s: State, now: Time, ks: seq<Id>, js: seq<Id>)
    requires Inv(s, now) && Distinct(ks) && Distinct(js) && AllPending(s, ks)
    requires Elements(ks) == Elements(js)
    ensures ExpireAll(s, now, ks) == ExpireAll(s, now, js)
  {
    assert AllPending(s, js) by {
      forall j | j in js ensures j in ks {
        assert j in Elements(js);
      }
    }
    ExpireAllEffect(s, now, ks);
    ExpireAllEffect(s, now, js);
    SameSweep(s, ExpireAll(s, now, ks).value, ExpireAll(s, now, js).value, now, Elements(ks));
  }

  /** The cancelled rows fix every reservation, and with it every balance. */
  lemma SameSweep(s: State, a: State, b: State, now: Time, ks: set<Id>)
    requires Reserved(a.books, a.actions) && Reserved(b.books, b.actions)
    requires ExpiresExactly(s, a, now, ks) && OnlyReleases(s, a)
    requires ExpiresExactly(s, b, now, ks) && OnlyReleases(s, b)
    ensures a == b
  {
    assert a.actions == b.actions;
    assert a.approvals == b.approvals;
    forall h | h in s.books.balances ensures a.books.balances[h] == b.books.balances[h] {
      assert SameRowBut(s.books.balances[h], a.books.balances[h]);
      assert SameRowBut(s.books.balances[h], b.books.balances[h]);
      assert Pend(a.books, h) == Pend(b.books, h);
    }
    assert a.books.balances == b.books.balances;
  }

  /** The number the sweep reports is the number of approvals that were stale. */
  lemma SweepCount(s: State, now: Time, ks: seq<Id>)
    requires ListsStale(s, now, ks)
    ensures |ks| == |set k: Id | k < |s.approvals| && Stale(s.approvals[k], now)|
  {
    DistinctCount(ks);
    assert Elements(ks) == set k: Id | k < |s.approvals| && Stale(s.approvals[k], now);
  }

  lemma {:induction false} DistinctCount(ks: seq<Id>)
    requires Distinct(ks)
    ensures |Elements(ks)| == |ks|
  {
    if ks != [] {
      var rest, k := ks[..|ks| - 1], ks[|ks| - 1];
      DistinctCount(rest);
      assert Elements(ks) == Elements(rest) + {k} by {
        assert ks == rest + [k];
      }
      assert k !in Elements(rest);
    }
  }

  /** A sweep of what the query lists: it succeeds, expires exactly the stale approvals,
      and leaves none behind for a second sweep at the same time. */
  lemma SweepOnce(s: State, now: Time, ks: seq<Id>)
    requires Inv(s, now) && ListsStale(s, now, ks)
    ensures ExpireAll(s, now, ks).Ok?
    ensures var s' := ExpireAll(s, now, ks).value;
            && ExpiresExactly(s, s', now, set k: Id | k < |s.approvals| && Stale(s.approvals[k], now))
            && OnlyReleases(s, s')
            && (forall js: seq<Id> :: ListsStale(s', now, js) ==> js == [] && ExpireAll(s', now, js) == Ok(s'))
  {
    assert AllPending(s, ks);
    ExpireAllEffect(s, now, ks);
    var s' := ExpireAll(s, now, ks).value;
    assert Elements(ks) == set k: Id | k < |s.approvals| && Stale(s.approvals[k], now);
    forall k: Id | k < |s'.approvals| ensures !Stale(s'.approvals[k], now) {
      assert k in Elements(ks) <==> Stale(s.approvals[k], now);
    }
    forall js: seq<Id> | ListsStale(s', now, js) ensures js == [] {
      SweepCount(s', now, js);
      assert (set k: Id | k < |s'.approvals| && Stale(s'.approvals[k], now)) == {};
    }
  }
}

/** The invariant that ties the balances and the ledger to the payment and transfer rows, and
    what each kind of change to those three stores does to it. */
module MoneyInvariant {
  import opened Prelude
  import opened Models
  import opened Posting
  import opened Sandbox
  import opened BooksModel
  import opened BooksEffects
  import opened Tallies
  import opened PaymentsModel

  /** Every reservation is some pending action's, and nothing else is reserved. */
  ghost predicate Reserved(b: Books, actions: seq<Action>) {
    forall h: Holder :: Pend(b, h) == Total(PendingFrom(h), actions)
  }

  ghost predicate NonNegative(b: Books) {
    forall h: Holder :: Avail(b, h) >= 0
  }

  predicate CompletedAs(actions: seq<Action>, r: Resource) {
    && !r.FundingResource?
    && r.id < |actions|
    && ResourceOf(actions[r.id], r.id) == r
    && actions[r.id].status == Completed
  }

  /** The two entries an executed action posts, from its source holder to its target. */
  function JournalOf(a: Action, journal: Id, r: Resource): seq<LedgerEntry> {
    Pair(journal, HolderAccount(Source(a), a.currency), Target(a), a.amount, a.currency, r)
  }

  /** One journal for a completed action, none for any other id. */
  ghost predicate PostedOnce(ledger: seq<LedgerEntry>, actions: seq<Action>, r: Resource) {
    var entries := EntriesFor(ledger, r);
    if CompletedAs(actions, r) then |entries| == 2 && entries == JournalOf(actions[r.id], entries[0].journal, r)
    else entries == []
  }

  ghost predicate ExactlyOnce(ledger: seq<LedgerEntry>, actions: seq<Action>) {
    forall r: Resource :: !r.FundingResource? ==> PostedOnce(ledger, actions, r)
  }

  /** The settlement account holds exactly what the completed payments paid out. */
  ghost predicate SettledMatches(ledger: seq<LedgerEntry>, actions: seq<Action>) {
    forall c: Currency :: Net(OfSystem(Settlement, c), ledger) == Total(SettledIn(c), actions)
  }

  ghost predicate MoneyInv(b: Books, actions: seq<Action>) {
    && BooksInv(b)
    && Reserved(b, actions)
    && NonNegative(b)
    && ExactlyOnce(b.ledger, actions)
    && SettledMatches(b.ledger, actions)
  }

  // ---- Opening and funding -----------------------------------------------------------------

  lemma OpenedMoney(b: Books, actions: seq<Action>, owner: Id, currency: Currency, h: Holder)
    requires MoneyInv(b, actions)
    ensures MoneyInv(Opened(b, owner, currency, h), actions)
  {
    OpenedEffect(b, owner, currency, h);
    OpenedKeeps(b, owner, currency, h);
  }

  lemma FundMoney(b: Books, actions: seq<Action>, owner: Id, currency: Currency, h: Holder, amount: int)
    requires MoneyInv(b, actions) && Denominated(b, h, currency) && amount > 0
    ensures Fund(b, owner, currency, h, amount).Ok?
    ensures MoneyInv(Fund(b, owner, currency, h, amount).value, actions)
  {
    FundEffect(b, owner, currency, h, amount);
    var from, to := SystemAccount(Funding, currency), HolderAccount(h, currency);
    JournalEffect(b.ledger, from, to, amount, currency, FundingResource);
    var b' := Fund(b, owner, currency, h, amount).value;
    forall c: Currency ensures Net(OfSystem(Settlement, c), b'.ledger) == Total(SettledIn(c), actions) {
      assert !OnAccount(OfSystem(Settlement, c), from);
    }
    forall r: Resource | !r.FundingResource? ensures PostedOnce(b'.ledger, actions, r) {
      assert PostedOnce(b.ledger, actions, r);
      assert EntriesFor(b'.ledger, r) == EntriesFor(b.ledger, r);
    }
  }

  // ---- Holding and releasing ---------------------------------------------------------------

  lemma HoldMoney(b: Books, actions: seq<Action>, row: Action)
    requires MoneyInv(b, actions)
    requires Source(row) in b.balances && row.status == PendingApproval && 0 < row.amount <= Avail(b, Source(row))
    ensures MoneyInv(Changed(b, Source(row), -row.amount, row.amount), actions + [row])
  {
    var b', actions' := Changed(b, Source(row), -row.amount, row.amount), actions + [row];
    ShuffleKeeps(b, Source(row), row.amount);
    forall h: Holder ensures Pend(b', h) == Total(PendingFrom(h), actions') {
      TotalAppend(PendingFrom(h), actions, row);
    }
    forall c: Currency ensures Net(OfSystem(Settlement, c), b'.ledger) == Total(SettledIn(c), actions') {
      TotalAppend(SettledIn(c), actions, row);
    }
    forall r: Resource | !r.FundingResource? ensures PostedOnce(b'.ledger, actions', r) {
      assert PostedOnce(b.ledger, actions, r);
      assert CompletedAs(actions', r) == CompletedAs(actions, r);
    }
  }

  /** Replacing a pending row by a cancelled one with the same money columns. */
  ghost predicate SameMoney(a: Action, a': Action) {
    a.Payment? == a'.Payment? && Source(a) == Source(a') && a.amount == a'.amount
    && a.currency == a'.currency && Target(a) == Target(a')
  }

  /** Rows that were not completed and still are not leave every journal where it belongs. */
  lemma ReleasedExactlyOnce(ledger: seq<LedgerEntry>, actions: seq<Action>, i: Id, row: Action)
    requires ExactlyOnce(ledger, actions)
    requires i < |actions| && actions[i].status != Completed && row.status != Completed
    requires actions[i].Payment? == row.Payment?
    ensures ExactlyOnce(ledger, actions[i := row])
  {
    forall r: Resource | !r.FundingResource? ensures PostedOnce(ledger, actions[i := row], r) {
      assert PostedOnce(ledger, actions, r);
      assert CompletedAs(actions[i := row], r) == CompletedAs(actions, r);
    }
  }

  lemma ReleaseMoney(b: Books, actions: seq<Action>, i: Id, row: Action)
    requires MoneyInv(b, actions)
    requires i < |actions| && actions[i].status == PendingApproval && actions[i].amount > 0
    requires SameMoney(actions[i], row) && row.status == Cancelled
    requires Source(row) in b.balances
    ensures MoneyInv(Release(b, Source(row), row.amount), actions[i := row])
  {
    var b', actions' := Release(b, Source(row), row.amount), actions[i := row];
    ShuffleKeeps(b, Source(row), -row.amount);
    forall h: Holder ensures Pend(b', h) == Total(PendingFrom(h), actions') {
      TotalUpdate(PendingFrom(h), actions, i, row);
    }
    forall c: Currency ensures Net(OfSystem(Settlement, c), b'.ledger) == Total(SettledIn(c), actions') {
      TotalUpdate(SettledIn(c), actions, i, row);
    }
    ReleasedExactlyOnce(b.ledger, actions, i, row);
  }

  // ---- Executing ---------------------------------------------------------------------------

  /** The books after the amount of `row` has left its source and reached its target. */
  ghost predicate ExecutedBooks(b: Books, b': Books, row: Action, r: Resource, fromReservation: bool) {
    && b'.ledger == b.ledger + JournalOf(row, NextJournal(b.ledger), r)
    && (forall x: Holder ::
         && Avail(b', x) == Avail(b, x) - (if x == Source(row) && !fromReservation then row.amount else 0)
                                        + (if row.Transfer? && x == row.destination then row.amount else 0)
         && Pend(b', x) == Pend(b, x) - (if x == Source(row) && fromReservation then row.amount else 0))
    && (BooksInv(b) ==> BooksInv(b'))
  }

  function ExecuteBooks(b: Books, owner: Id, currency: Currency, row: Action, r: Resource,
                        fromReservation: bool): Result<Books>
  {
    if row.Payment? then PayOut(b, owner, currency, Source(row), row.amount, r, fromReservation)
    else InternalTransfer(b, owner, currency, row.source, row.destination, row.amount, r, fromReservation)
  }

  lemma ExecuteBooksEffect(b: Books, owner: Id, row: Action, r: Resource, fromReservation: bool)
    requires Denominated(b, Source(row), row.currency)
    requires row.Transfer? ==> Denominated(b, row.destination, row.currency) && row.source != row.destination
    ensures ExecuteBooks(b, owner, row.currency, row, r, fromReservation).Ok?
            <==> row.amount > 0 && (fromReservation || row.amount <= Avail(b, Source(row)))
    ensures row.amount > 0 && (fromReservation || row.amount <= Avail(b, Source(row))) ==>
              ExecutedBooks(b, ExecuteBooks(b, owner, row.currency, row, r, fromReservation).value, row, r,
                            fromReservation)
  {
    if row.Payment? {
      PayOutEffect(b, owner, row.currency, Source(row), row.amount, r, fromReservation);
    } else {
      TransferEffect(b, owner, row.currency, row.source, row.destination, row.amount, r, fromReservation);
    }
  }

  /** The ledger side of executing an action whose id had no journal yet. */
  lemma ExecutedLedger(b: Books, b': Books, actions: seq<Action>, actions': seq<Action>, row: Action, r: Resource,
                       fromReservation: bool)
    requires ExecutedBooks(b, b', row, r, fromReservation) && row.amount > 0
    requires ExactlyOnce(b.ledger, actions)
    requires !r.FundingResource? && r == ResourceOf(row, r.id) && !CompletedAs(actions, r)
    requires CompletedAs(actions', r) && SameMoney(row, actions'[r.id])
    requires forall q: Resource :: !q.FundingResource? && q != r ==>
               CompletedAs(actions', q) == CompletedAs(actions, q)
               && (CompletedAs(actions, q) ==> actions'[q.id] == actions[q.id])
    ensures ExactlyOnce(b'.ledger, actions')
    ensures forall c: Currency :: Net(OfSystem(Settlement, c), b'.ledger)
              == Net(OfSystem(Settlement, c), b.ledger) + (if row.Payment? && row.currency == c then row.amount else 0)
  {
    var from, to := HolderAccount(Source(row), row.currency), Target(row);
    JournalEffect(b.ledger, from, to, row.amount, row.currency, r);
    forall c: Currency
      ensures Net(OfSystem(Settlement, c), b'.ledger)
              == Net(OfSystem(Settlement, c), b.ledger) + (if row.Payment? && row.currency == c then row.amount else 0)
    {
      assert OnAccount(OfSystem(Settlement, c), to) <==> row.Payment? && row.currency == c;
    }
    forall q: Resource | !q.FundingResource? ensures PostedOnce(b'.ledger, actions', q) {
      assert PostedOnce(b.ledger, actions, q);
      var pair := JournalOf(row, NextJournal(b.ledger), r);
      assert EntriesFor(b'.ledger, q) == EntriesFor(b.ledger, q) + (if q == r then pair else []);
    }
  }

  /** Executing a new row at once. */
  lemma ExecuteNewMoney(b: Books, b': Books, actions: seq<Action>, row: Action, row': Action)
    requires MoneyInv(b, actions) && ExecutedBooks(b, b', row, ResourceOf(row, |actions|), false)
    requires 0 < row.amount <= Avail(b, Source(row))
    requires SameMoney(row, row') && row'.status == Completed
    ensures MoneyInv(b', actions + [row'])
  {
    var actions', r := actions + [row'], ResourceOf(row, |actions|);
    ExecutedLedger(b, b', actions, actions', row, r, false);
    forall h: Holder ensures Pend(b', h) == Total(PendingFrom(h), actions') {
      TotalAppend(PendingFrom(h), actions, row');
    }
    forall c: Currency ensures Net(OfSystem(Settlement, c), b'.ledger) == Total(SettledIn(c), actions') {
      TotalAppend(SettledIn(c), actions, row');
    }
  }

  /** Executing a held row out of its reservation. */
  lemma ExecuteHeldMoney(b: Books, b': Books, actions: seq<Action>, i: Id, row': Action)
    requires MoneyInv(b, actions) && i < |actions| && actions[i].status == PendingApproval && actions[i].amount > 0
    requires ExecutedBooks(b, b', actions[i], ResourceOf(actions[i], i), true)
    requires SameMoney(actions[i], row') && row'.status == Completed
    ensures MoneyInv(b', actions[i := row'])
  {
    var actions', row := actions[i := row'], actions[i];
    ExecutedLedger(b, b', actions, actions', row, ResourceOf(row, i), true);
    forall h: Holder ensures Pend(b', h) == Total(PendingFrom(h), actions') {
      TotalUpdate(PendingFrom(h), actions, i, row');
    }
    forall c: Currency ensures Net(OfSystem(Settlement, c), b'.ledger) == Total(SettledIn(c), actions') {
      TotalUpdate(SettledIn(c), actions, i, row');
    }
  }
}

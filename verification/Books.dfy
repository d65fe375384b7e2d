/** What the ledger primitives of services/ledger.py do to the balances and the ledger,
    as functions on `Books`. */
module BooksModel {
  import opened Prelude
  import opened Models
  import opened Posting
  import opened Sandbox

  // ---- Reading -----------------------------------------------------------------------------

  function Avail(b: Books, h: Holder): int {
    if h in b.balances then b.balances[h].available else 0
  }

  function Pend(b: Books, h: Holder): int {
    if h in b.balances then b.balances[h].pendingOut else 0
  }

  /** A group of entries whose net credit means something. */
  datatype Line =
    | OfHolder(holder: Holder)
    | OfSystem(name: SystemName, currency: Currency)
    | OfJournal(journal: Id, currency: Currency)

  predicate OnLine(line: Line, e: LedgerEntry) {
    match line
    case OfHolder(h) => e.spec.account.HolderAccount? && e.spec.account.holder == h
    case OfSystem(name, c) => e.spec.account == SystemAccount(name, c)
    case OfJournal(j, c) => e.journal == j && e.spec.currency == c
  }

  /** Credits minus debits on a line. */
  function Net(line: Line, ledger: seq<LedgerEntry>): int {
    if ledger == [] then 0
    else
      var last := ledger[|ledger| - 1];
      Net(line, ledger[..|ledger| - 1]) + (if OnLine(line, last) then Signed(last.spec) else 0)
  }

  /** The entries posted for a resource, in ledger order. */
  function EntriesFor(ledger: seq<LedgerEntry>, r: Resource): seq<LedgerEntry> {
    if ledger == [] then []
    else
      var last := ledger[|ledger| - 1];
      EntriesFor(ledger[..|ledger| - 1], r) + (if last.resource == r then [last] else [])
  }

  function InCurrency(row: Balance, c: Currency): int {
    if row.currency == c then row.available + row.pendingOut else 0
  }

  /** What all holders own together in one currency. */
  ghost function Holdings(balances: map<Holder, Balance>, c: Currency): int {
    if balances == map[] then 0
    else
      var h :| h in balances;
      InCurrency(balances[h], c) + Holdings(balances - {h}, c)
  }

  // ---- The primitives ----------------------------------------------------------------------

  function NewRow(owner: Id, currency: Currency): Balance {
    Balance(owner, currency, 0, 0, [])
  }

  /** get_or_create_balance */
  function Opened(b: Books, owner: Id, currency: Currency, h: Holder): (r: Books)
    ensures h in r.balances
  {
    if h in b.balances then b else b.(balances := b.balances[h := NewRow(owner, currency)])
  }

  /** _sync_breakdown */
  function Sync(row: Balance): Balance {
    row.(breakdown := [Money(row.available, row.currency)])
  }

  function Changed(b: Books, h: Holder, toAvailable: int, toPending: int): (r: Books)
    requires h in b.balances
    ensures r.balances.Keys == b.balances.Keys
  {
    var row := b.balances[h];
    b.(balances := b.balances[h := Sync(row.(available := row.available + toAvailable,
                                             pendingOut := row.pendingOut + toPending))])
  }

  function Journal(from: Account, to: Account, amount: int, currency: Currency): seq<EntrySpec> {
    [EntrySpec(from, Debit, amount, currency), EntrySpec(to, Credit, amount, currency)]
  }

  function Posted(b: Books, entries: seq<EntrySpec>, r: Resource): Result<Books> {
    var ledger :- Post(b.ledger, entries, r);
    Ok(b.(ledger := ledger))
  }

  function Fund(b: Books, owner: Id, currency: Currency, h: Holder, amount: int): Result<Books> {
    var b1 :- Posted(b, Journal(SystemAccount(Funding, currency), HolderAccount(h, currency), amount, currency),
                     FundingResource);
    Ok(Changed(Opened(b1, owner, currency, h), h, amount, 0))
  }

  function Reserve(b: Books, h: Holder, amount: int): Result<Books>
    requires h in b.balances
  {
    if Avail(b, h) < amount then Err(InsufficientFunds) else Ok(Changed(b, h, -amount, amount))
  }

  function Release(b: Books, h: Holder, amount: int): Books
    requires h in b.balances
  {
    Changed(b, h, amount, -amount)
  }

  /** Takes `amount` from the reservation, or from what is available if that suffices. */
  function Withdrawn(b: Books, h: Holder, amount: int, fromReservation: bool): Result<Books>
    requires h in b.balances
  {
    if fromReservation then Ok(Changed(b, h, 0, -amount))
    else if Avail(b, h) < amount then Err(InsufficientFunds)
    else Ok(Changed(b, h, -amount, 0))
  }

  function PayOut(b: Books, owner: Id, currency: Currency, h: Holder, amount: int, r: Resource,
                  fromReservation: bool): Result<Books>
  {
    var b1 :- Withdrawn(Opened(b, owner, currency, h), h, amount, fromReservation);
    Posted(b1, Journal(HolderAccount(h, currency), SystemAccount(Settlement, currency), amount, currency), r)
  }

  function InternalTransfer(b: Books, owner: Id, currency: Currency, source: Holder, destination: Holder,
                            amount: int, r: Resource, fromReservation: bool): Result<Books>
  {
    var b0 := Opened(Opened(b, owner, currency, source), owner, currency, destination);
    var b1 :- Withdrawn(b0, source, amount, fromReservation);
    Posted(Changed(b1, destination, amount, 0),
           Journal(HolderAccount(source, currency), HolderAccount(destination, currency), amount, currency), r)
  }

  // ---- Sums --------------------------------------------------------------------------------

  lemma {:induction false} NetAppend(line: Line, l: seq<LedgerEntry>, m: seq<LedgerEntry>)
    ensures Net(line, l + m) == Net(line, l) + Net(line, m)
  {
    if m == [] {
      assert l + m == l;
    } else {
      assert (l + m)[..|l + m| - 1] == l + m[..|m| - 1];
      NetAppend(line, l, m[..|m| - 1]);
    }
  }

  lemma {:induction false} EntriesForAppend(l: seq<LedgerEntry>, m: seq<LedgerEntry>, r: Resource)
    ensures EntriesFor(l + m, r) == EntriesFor(l, r) + EntriesFor(m, r)
  {
    if m == [] {
      assert l + m == l;
    } else {
      assert (l + m)[..|l + m| - 1] == l + m[..|m| - 1];
      EntriesForAppend(l, m[..|m| - 1], r);
    }
  }

  lemma {:induction false} HoldingsPick(balances: map<Holder, Balance>, h: Holder, c: Currency)
    requires h in balances
    ensures Holdings(balances, c) == InCurrency(balances[h], c) + Holdings(balances - {h}, c)
    decreases |balances|
  {
    var first :| first in balances
              && Holdings(balances, c) == InCurrency(balances[first], c) + Holdings(balances - {first}, c);
    if first != h {
      HoldingsPick(balances - {first}, h, c);
      HoldingsPick(balances - {h}, first, c);
      assert balances - {first} - {h} == balances - {h} - {first};
    }
  }

  lemma HoldingsPut(balances: map<Holder, Balance>, h: Holder, row: Balance, c: Currency)
    ensures Holdings(balances[h := row], c)
            == Holdings(balances, c) + InCurrency(row, c) - (if h in balances then InCurrency(balances[h], c) else 0)
  {
    HoldingsPick(balances[h := row], h, c);
    assert balances[h := row] - {h} == balances - {h};
    if h in balances {
      HoldingsPick(balances, h, c);
    } else {
      assert balances - {h} == balances;
    }
  }
}

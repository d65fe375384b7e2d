/** services/ledger.py: the funds movement primitives, changing the session's tables in place. */
module LedgerService {
  import opened Prelude
  import opened Models
  import opened Sandbox
  import opened Posting
  import B = BooksModel

  method GetOrCreateBalance(session: Session, owner: Id, currency: Currency, h: Holder) returns (row: Balance)
    modifies session`balances
    ensures session.BooksView() == B.Opened(old(session.BooksView()), owner, currency, h)
    ensures row == session.balances[h]
  {
    if h !in session.balances {
      session.balances := session.balances[h := B.NewRow(owner, currency)];
    }
    row := session.balances[h];
  }

  /** Writes a balance row back with its breakdown brought up to date. */
  method Save(session: Session, h: Holder, available: int, pendingOut: int)
    requires h in session.balances
    modifies session`balances
    ensures session.BooksView()
            == B.Changed(old(session.BooksView()), h, available - old(session.balances[h].available),
                         pendingOut - old(session.balances[h].pendingOut))
  {
    var row := session.balances[h].(available := available, pendingOut := pendingOut);
    session.balances := session.balances[h := row.(breakdown := [Money(row.available, row.currency)])];
  }

  /** Credits a holder from the funding account. */
  method Fund(session: Session, owner: Id, currency: Currency, h: Holder, amount: int) returns (r: Result<Id>)
    modifies session`balances, session`ledger
    ensures match B.Fund(old(session.BooksView()), owner, currency, h, amount)
            case Ok(books) => r == Ok(NextJournal(old(session.ledger))) && session.BooksView() == books
            case Err(e) => r == Err(e)
  {
    var holder, funding := HolderAccount(h, currency), SystemAccount(Funding, currency);
    r := PostJournal(session,
                     [EntrySpec(funding, Debit, amount, currency), EntrySpec(holder, Credit, amount, currency)],
                     FundingResource);
    if r.Err? {
      return;
    }
    var row := GetOrCreateBalance(session, owner, currency, h);
    Save(session, h, row.available + amount, row.pendingOut);
  }

  /** Moves funds from available to pending_out, pending approval; posts nothing. */
  method Reserve(session: Session, h: Holder, amount: int) returns (r: Result<Done>)
    requires h in session.balances
    modifies session`balances
    ensures match B.Reserve(old(session.BooksView()), h, amount)
            case Ok(books) => r.Ok? && session.BooksView() == books
            case Err(e) => r == Err(e)
  {
    var row := session.balances[h];
    if row.available < amount {
      return Err(InsufficientFunds);
    }
    Save(session, h, row.available - amount, row.pendingOut + amount);
    return Ok(Done.Done);
  }

  /** Reverses a hold. */
  method ReleaseReservation(session: Session, h: Holder, amount: int)
    requires h in session.balances
    modifies session`balances
    ensures session.BooksView() == B.Release(old(session.BooksView()), h, amount)
  {
    var row := session.balances[h];
    Save(session, h, row.available + amount, row.pendingOut - amount);
  }

  method Withdraw(session: Session, h: Holder, amount: int, fromReservation: bool) returns (r: Result<Done>)
    requires h in session.balances
    modifies session`balances
    ensures match B.Withdrawn(old(session.BooksView()), h, amount, fromReservation)
            case Ok(books) => r.Ok? && session.BooksView() == books
            case Err(e) => r == Err(e)
  {
    var row := session.balances[h];
    if fromReservation {
      Save(session, h, row.available, row.pendingOut - amount);
    } else {
      if row.available < amount {
        return Err(InsufficientFunds);
      }
      Save(session, h, row.available - amount, row.pendingOut);
    }
    return Ok(Done.Done);
  }

  /** Debits the holder and credits the settlement account. */
  method PayOut(session: Session, owner: Id, currency: Currency, h: Holder, amount: int, resource: Resource,
                fromReservation: bool) returns (r: Result<Id>)
    modifies session`balances, session`ledger
    ensures match B.PayOut(old(session.BooksView()), owner, currency, h, amount, resource, fromReservation)
            case Ok(books) => r == Ok(NextJournal(old(session.ledger))) && session.BooksView() == books
            case Err(e) => r == Err(e)
  {
    var holder, settlement := HolderAccount(h, currency), SystemAccount(Settlement, currency);
    var _ := GetOrCreateBalance(session, owner, currency, h);
    var taken := Withdraw(session, h, amount, fromReservation);
    if taken.Err? {
      return Err(taken.error);
    }
    r := PostJournal(session,
                     [EntrySpec(holder, Debit, amount, currency), EntrySpec(settlement, Credit, amount, currency)],
                     resource);
  }

  /** Debits the source holder and credits the destination holder. */
  method InternalTransfer(session: Session, owner: Id, currency: Currency, source: Holder, destination: Holder,
                          amount: int, resource: Resource, fromReservation: bool) returns (r: Result<Id>)
    modifies session`balances, session`ledger
    ensures match B.InternalTransfer(old(session.BooksView()), owner, currency, source, destination, amount, resource,
                                     fromReservation)
            case Ok(books) => r == Ok(NextJournal(old(session.ledger))) && session.BooksView() == books
            case Err(e) => r == Err(e)
  {
    var _ := GetOrCreateBalance(session, owner, currency, source);
    var _ := GetOrCreateBalance(session, owner, currency, destination);
    var taken := Withdraw(session, source, amount, fromReservation);
    if taken.Err? {
      return Err(taken.error);
    }
    var row := session.balances[destination];
    Save(session, destination, row.available + amount, row.pendingOut);
    r := PostJournal(session, [EntrySpec(HolderAccount(source, currency), Debit, amount, currency),
                               EntrySpec(HolderAccount(destination, currency), Credit, amount, currency)], resource);
  }
}

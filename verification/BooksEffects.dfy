/** What each ledger primitive changes, and the invariant of the books that all of them keep:
    available = net credit on the ledger - pending_out, for every holder. */
module BooksEffects {
  import opened Prelude
  import opened Models
  import opened Posting
  import opened Sandbox
  import opened BooksModel

  /** `b1` is `b0` with `h` moved by the given deltas and nobody else's balance changed. */
  ghost predicate Moved(b0: Books, b1: Books, h: Holder, toAvailable: int, toPending: int) {
    forall x: Holder ::
      && Avail(b1, x) == Avail(b0, x) + (if x == h then toAvailable else 0)
      && Pend(b1, x) == Pend(b0, x) + (if x == h then toPending else 0)
  }

  lemma OpenedEffect(b: Books, owner: Id, currency: Currency, h: Holder)
    ensures Moved(b, Opened(b, owner, currency, h), h, 0, 0)
    ensures forall c :: Holdings(Opened(b, owner, currency, h).balances, c) == Holdings(b.balances, c)
  {
    forall c: Currency ensures Holdings(Opened(b, owner, currency, h).balances, c) == Holdings(b.balances, c) {
      if h !in b.balances {
        HoldingsPut(b.balances, h, NewRow(owner, currency), c);
      }
    }
  }

  lemma ChangedEffect(b: Books, h: Holder, toAvailable: int, toPending: int)
    requires h in b.balances
    ensures Moved(b, Changed(b, h, toAvailable, toPending), h, toAvailable, toPending)
    ensures forall c: Currency ::
              Holdings(Changed(b, h, toAvailable, toPending).balances, c)
              == Holdings(b.balances, c) + (if b.balances[h].currency == c then toAvailable + toPending else 0)
  {
    var row := Changed(b, h, toAvailable, toPending).balances[h];
    forall c: Currency
      ensures Holdings(Changed(b, h, toAvailable, toPending).balances, c)
              == Holdings(b.balances, c) + (if b.balances[h].currency == c then toAvailable + toPending else 0)
    {
      HoldingsPut(b.balances, h, row, c);
    }
  }

  // ---- Two-entry journals ------------------------------------------------------------------

  function OnAccount(line: Line, a: Account): bool {
    match line
    case OfHolder(h) => a.HolderAccount? && a.holder == h
    case OfSystem(name, c) => a == SystemAccount(name, c)
    case OfJournal(_, _) => false
  }

  lemma JournalPostable(from: Account, to: Account, amount: int, currency: Currency)
    ensures Postable(Journal(from, to, amount, currency)) <==> amount > 0
  {
    var entries := Journal(from, to, amount, currency);
    assert entries[..1] == [entries[0]];
    assert entries[..1][..0] == [];
    assert CurrencyTotal(entries, currency) == CurrencyTotal(entries[..1], currency) + amount;
    assert entries[0] in entries;
    assert forall e | e in entries :: e.currency == currency;
    if amount > 0 {
      assert forall e | e in entries :: WellFormed(e);
    }
  }

  /** The entries of one two-entry journal, as they stand in the ledger. */
  function Pair(journal: Id, from: Account, to: Account, amount: int, currency: Currency,
                r: Resource): seq<LedgerEntry>
  {
    [LedgerEntry(journal, EntrySpec(from, Debit, amount, currency), r),
     LedgerEntry(journal, EntrySpec(to, Credit, amount, currency), r)]
  }

  /** Posting a two-entry journal succeeds for any positive amount and moves the amount. */
  lemma JournalEffect(l: seq<LedgerEntry>, from: Account, to: Account, amount: int, currency: Currency, r: Resource)
    ensures var pair := Pair(NextJournal(l), from, to, amount, currency, r);
            && Post(l, Journal(from, to, amount, currency), r)
               == (if amount > 0 then Ok(l + pair) else Err(LedgerImbalance))
            && (forall line: Line :: !line.OfJournal? ==>
                 Net(line, l + pair) == Net(line, l) - (if OnAccount(line, from) then amount else 0)
                                                     + (if OnAccount(line, to) then amount else 0))
            && (forall j: Id, c: Currency :: Net(OfJournal(j, c), l + pair) == Net(OfJournal(j, c), l))
            && (forall q: Resource :: EntriesFor(l + pair, q) == EntriesFor(l, q) + (if q == r then pair else []))
  {
    JournalPostable(from, to, amount, currency);
    var pair := Pair(NextJournal(l), from, to, amount, currency, r);
    assert Stamped(Journal(from, to, amount, currency), NextJournal(l), r) == pair;
    assert pair[..1] == [pair[0]];
    assert pair[..1][..0] == [];
    forall line: Line ensures Net(line, l + pair) == Net(line, l) + Net(line, pair) {
      NetAppend(line, l, pair);
    }
    forall line: Line
      ensures Net(line, pair) == (if OnLine(line, pair[0]) then -amount else 0)
                               + (if OnLine(line, pair[1]) then amount else 0)
    {
      assert Net(line, pair) == Net(line, pair[..1]) + (if OnLine(line, pair[1]) then amount else 0);
      assert Net(line, pair[..1]) == Net(line, pair[..1][..0]) + (if OnLine(line, pair[0]) then -amount else 0);
    }
    forall q: Resource ensures EntriesFor(l + pair, q) == EntriesFor(l, q) + (if q == r then pair else []) {
      EntriesForAppend(l, pair, q);
      assert EntriesFor(pair, q) == EntriesFor(pair[..1], q) + (if q == r then [pair[1]] else []);
      assert EntriesFor(pair[..1], q) == EntriesFor(pair[..1][..0], q) + (if q == r then [pair[0]] else []);
    }
  }

  // ---- The invariant of the books ----------------------------------------------------------

  ghost predicate Derived(b: Books) {
    forall h: Holder :: Avail(b, h) + Pend(b, h) == Net(OfHolder(h), b.ledger)
  }

  ghost predicate JournalsBalance(l: seq<LedgerEntry>) {
    forall j: Id, c: Currency :: Net(OfJournal(j, c), l) == 0
  }

  /** Per currency: what was funded is what the holders own plus what was settled. */
  ghost predicate Conserved(b: Books) {
    forall c: Currency ::
      -Net(OfSystem(Funding, c), b.ledger) == Holdings(b.balances, c) + Net(OfSystem(Settlement, c), b.ledger)
  }

  /** Journal ids are fresh: no entry carries an id at or above its position. */
  ghost predicate Numbered(l: seq<LedgerEntry>) {
    forall i :: 0 <= i < |l| ==> l[i].journal <= i
  }

  /** The breakdown repeats the headline amount; a row not yet touched has none. */
  ghost predicate Synced(row: Balance) {
    || row.breakdown == [Money(row.available, row.currency)]
    || (row.breakdown == [] && row.available == 0 && row.pendingOut == 0)
  }

  ghost predicate BooksInv(b: Books) {
    && Derived(b)
    && JournalsBalance(b.ledger)
    && Conserved(b)
    && Numbered(b.ledger)
    && (forall h | h in b.balances :: Synced(b.balances[h]))
  }

  /** A holder that already has a balance has it in this currency. */
  ghost predicate Denominated(b: Books, h: Holder, currency: Currency) {
    h in b.balances ==> b.balances[h].currency == currency
  }

  lemma OpenedKeeps(b: Books, owner: Id, currency: Currency, h: Holder)
    requires BooksInv(b)
    ensures BooksInv(Opened(b, owner, currency, h))
  {
    OpenedEffect(b, owner, currency, h);
  }

  lemma PairNumbered(l: seq<LedgerEntry>, from: Account, to: Account, amount: int, currency: Currency, r: Resource)
    requires Numbered(l)
    ensures Numbered(l + Pair(NextJournal(l), from, to, amount, currency, r))
    ensures forall e | e in l :: e.journal != NextJournal(l)
  {
  }

  ghost predicate Touches(a: Account, h: Holder) {
    a.HolderAccount? && a.holder == h
  }

  /** Posting keeps the invariant when the balances have moved to match the journal. */
  lemma PostedKeeps(b: Books, b1: Books, from: Account, to: Account, amount: int, currency: Currency, r: Resource)
    requires BooksInv(b) && amount > 0 && b1.ledger == b.ledger
    requires from.currency == to.currency == currency
    requires forall h | h in b1.balances :: Synced(b1.balances[h])
    requires forall h: Holder :: Avail(b1, h) + Pend(b1, h) == Avail(b, h) + Pend(b, h)
               - (if Touches(from, h) then amount else 0) + (if Touches(to, h) then amount else 0)
    requires forall c: Currency :: Holdings(b1.balances, c) == Holdings(b.balances, c)
               - (if from.HolderAccount? && c == currency then amount else 0)
               + (if to.HolderAccount? && c == currency then amount else 0)
    ensures BooksInv(b1.(ledger := b.ledger + Pair(NextJournal(b.ledger), from, to, amount, currency, r)))
  {
    JournalEffect(b.ledger, from, to, amount, currency, r);
    PairNumbered(b.ledger, from, to, amount, currency, r);
    var ledger := b.ledger + Pair(NextJournal(b.ledger), from, to, amount, currency, r);
    forall c: Currency
      ensures -Net(OfSystem(Funding, c), ledger) == Holdings(b1.balances, c) + Net(OfSystem(Settlement, c), ledger)
    {
      assert -Net(OfSystem(Funding, c), b.ledger) == Holdings(b.balances, c) + Net(OfSystem(Settlement, c), b.ledger);
      var funding, settlement := OfSystem(Funding, c), OfSystem(Settlement, c);
      assert from.SystemAccount? ==> from.name.Funding? || from.name.Settlement?;
      assert to.SystemAccount? ==> to.name.Funding? || to.name.Settlement?;
      assert Net(funding, ledger) == Net(funding, b.ledger) - (if OnAccount(funding, from) then amount else 0)
                                                           + (if OnAccount(funding, to) then amount else 0);
      assert Net(settlement, ledger) == Net(settlement, b.ledger) - (if OnAccount(settlement, from) then amount else 0)
                                                                 + (if OnAccount(settlement, to) then amount else 0);
    }
  }

  // ---- One primitive at a time -------------------------------------------------------------

  function FundPair(b: Books, currency: Currency, h: Holder, amount: int): seq<LedgerEntry> {
    Pair(NextJournal(b.ledger), SystemAccount(Funding, currency), HolderAccount(h, currency), amount, currency,
         FundingResource)
  }

  lemma FundEffect(b: Books, owner: Id, currency: Currency, h: Holder, amount: int)
    requires Denominated(b, h, currency)
    ensures Fund(b, owner, currency, h, amount).Ok? <==> amount > 0
    ensures amount > 0 ==>
              var b' := Fund(b, owner, currency, h, amount).value;
              && b'.ledger == b.ledger + FundPair(b, currency, h, amount)
              && Moved(b, b', h, amount, 0)
              && (BooksInv(b) ==> BooksInv(b'))
  {
    FundPosts(b, owner, currency, h, amount);
    if amount > 0 {
      OpenedEffect(b, owner, currency, h);
      var b0 := Opened(b, owner, currency, h);
      ChangedEffect(b0, h, amount, 0);
      var b1 := Changed(b0, h, amount, 0);
      if BooksInv(b) {
        PostedKeeps(b, b1, SystemAccount(Funding, currency), HolderAccount(h, currency), amount, currency,
                    FundingResource);
      }
    }
  }

  lemma FundPosts(b: Books, owner: Id, currency: Currency, h: Holder, amount: int)
    ensures var b1 := Changed(Opened(b, owner, currency, h), h, amount, 0);
            Fund(b, owner, currency, h, amount)
            == if amount > 0 then Ok(b1.(ledger := b.ledger + FundPair(b, currency, h, amount)))
               else Err(LedgerImbalance)
  {
    JournalEffect(b.ledger, SystemAccount(Funding, currency), HolderAccount(h, currency), amount, currency,
                  FundingResource);
  }

  lemma ShuffleKeeps(b: Books, h: Holder, toPending: int)
    requires h in b.balances
    ensures Moved(b, Changed(b, h, -toPending, toPending), h, -toPending, toPending)
    ensures BooksInv(b) ==> BooksInv(Changed(b, h, -toPending, toPending))
  {
    ChangedEffect(b, h, -toPending, toPending);
  }

  function PayOutPair(b: Books, currency: Currency, h: Holder, amount: int, r: Resource): seq<LedgerEntry> {
    Pair(NextJournal(b.ledger), HolderAccount(h, currency), SystemAccount(Settlement, currency), amount, currency, r)
  }

  lemma PayOutPosts(b: Books, owner: Id, currency: Currency, h: Holder, amount: int, r: Resource,
                    fromReservation: bool)
    requires fromReservation || amount <= Avail(b, h)
    ensures var b1 := Changed(Opened(b, owner, currency, h), h, if fromReservation then 0 else -amount,
                              if fromReservation then -amount else 0);
            PayOut(b, owner, currency, h, amount, r, fromReservation)
            == if amount > 0 then Ok(b1.(ledger := b.ledger + PayOutPair(b, currency, h, amount, r)))
               else Err(LedgerImbalance)
  {
    JournalEffect(b.ledger, HolderAccount(h, currency), SystemAccount(Settlement, currency), amount, currency, r);
  }

  lemma PayOutEffect(b: Books, owner: Id, currency: Currency, h: Holder, amount: int, r: Resource,
                     fromReservation: bool)
    requires Denominated(b, h, currency)
    ensures PayOut(b, owner, currency, h, amount, r, fromReservation).Ok?
            <==> amount > 0 && (fromReservation || amount <= Avail(b, h))
    ensures amount > 0 && (fromReservation || amount <= Avail(b, h)) ==>
              var b' := PayOut(b, owner, currency, h, amount, r, fromReservation).value;
              && b'.ledger == b.ledger + PayOutPair(b, currency, h, amount, r)
              && Moved(b, b', h, if fromReservation then 0 else -amount, if fromReservation then -amount else 0)
              && (BooksInv(b) ==> BooksInv(b'))
  {
    OpenedEffect(b, owner, currency, h);
    if fromReservation || amount <= Avail(b, h) {
      PayOutPosts(b, owner, currency, h, amount, r, fromReservation);
      var toAvailable, toPending := if fromReservation then 0 else -amount, if fromReservation then -amount else 0;
      ChangedEffect(Opened(b, owner, currency, h), h, toAvailable, toPending);
      if amount > 0 && BooksInv(b) {
        PostedKeeps(b, Changed(Opened(b, owner, currency, h), h, toAvailable, toPending), HolderAccount(h, currency),
                    SystemAccount(Settlement, currency), amount, currency, r);
      }
    }
  }

  function TransferPair(b: Books, currency: Currency, source: Holder, destination: Holder, amount: int, r: Resource)
    : seq<LedgerEntry>
  {
    Pair(NextJournal(b.ledger), HolderAccount(source, currency), HolderAccount(destination, currency), amount,
         currency, r)
  }

  /** The balances of a transfer, before its journal is posted. */
  function TransferBalances(b: Books, owner: Id, currency: Currency, source: Holder, destination: Holder,
                            amount: int, fromReservation: bool): Books
  {
    var b1 := Opened(Opened(b, owner, currency, source), owner, currency, destination);
    Changed(Changed(b1, source, if fromReservation then 0 else -amount, if fromReservation then -amount else 0),
            destination, amount, 0)
  }

  ghost predicate TransferMoved(b: Books, b': Books, source: Holder, destination: Holder, amount: int,
                                fromReservation: bool)
  {
    forall x: Holder ::
      && Avail(b', x) == Avail(b, x) - (if x == source && !fromReservation then amount else 0)
                                     + (if x == destination then amount else 0)
      && Pend(b', x) == Pend(b, x) - (if x == source && fromReservation then amount else 0)
  }

  lemma TransferBalancesMove(b: Books, owner: Id, currency: Currency, source: Holder, destination: Holder,
                             amount: int, fromReservation: bool)
    requires Denominated(b, source, currency) && Denominated(b, destination, currency)
    requires source != destination
    ensures var b' := TransferBalances(b, owner, currency, source, destination, amount, fromReservation);
            && TransferMoved(b, b', source, destination, amount, fromReservation)
            && (forall c: Currency :: Holdings(b'.balances, c) == Holdings(b.balances, c))
            && b'.ledger == b.ledger
            && ((forall h | h in b.balances :: Synced(b.balances[h])) ==>
                forall h | h in b'.balances :: Synced(b'.balances[h]))
  {
    OpenedEffect(b, owner, currency, source);
    var b0 := Opened(b, owner, currency, source);
    OpenedEffect(b0, owner, currency, destination);
    var b1 := Opened(b0, owner, currency, destination);
    var toAvailable, toPending := if fromReservation then 0 else -amount, if fromReservation then -amount else 0;
    ChangedEffect(b1, source, toAvailable, toPending);
    var b2 := Changed(b1, source, toAvailable, toPending);
    ChangedEffect(b2, destination, amount, 0);
  }

  lemma TransferPosts(b: Books, owner: Id, currency: Currency, source: Holder, destination: Holder,
                      amount: int, r: Resource, fromReservation: bool)
    requires fromReservation || amount <= Avail(b, source)
    ensures InternalTransfer(b, owner, currency, source, destination, amount, r, fromReservation)
            == if amount > 0
               then Ok(TransferBalances(b, owner, currency, source, destination, amount, fromReservation)
                       .(ledger := b.ledger + TransferPair(b, currency, source, destination, amount, r)))
               else Err(LedgerImbalance)
  {
    JournalEffect(b.ledger, HolderAccount(source, currency), HolderAccount(destination, currency), amount, currency, r);
  }

  lemma TransferEffect(b: Books, owner: Id, currency: Currency, source: Holder, destination: Holder,
                       amount: int, r: Resource, fromReservation: bool)
    requires Denominated(b, source, currency) && Denominated(b, destination, currency)
    requires source != destination
    ensures InternalTransfer(b, owner, currency, source, destination, amount, r, fromReservation).Ok?
            <==> amount > 0 && (fromReservation || amount <= Avail(b, source))
    ensures amount > 0 && (fromReservation || amount <= Avail(b, source)) ==>
              var b' := InternalTransfer(b, owner, currency, source, destination, amount, r, fromReservation).value;
              && b'.ledger == b.ledger + TransferPair(b, currency, source, destination, amount, r)
              && TransferMoved(b, b', source, destination, amount, fromReservation)
              && (BooksInv(b) ==> BooksInv(b'))
  {
    if fromReservation || amount <= Avail(b, source) {
      TransferPosts(b, owner, currency, source, destination, amount, r, fromReservation);
      TransferBalancesMove(b, owner, currency, source, destination, amount, fromReservation);
      if amount > 0 && BooksInv(b) {
        PostedKeeps(b, TransferBalances(b, owner, currency, source, destination, amount, fromReservation),
                    HolderAccount(source, currency), HolderAccount(destination, currency), amount, currency, r);
      }
    }
  }
}

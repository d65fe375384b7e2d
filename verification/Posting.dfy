/** Double-entry posting (ledger/posting.py). */
module Posting {
  import opened Prelude
  import opened Models
  import opened Sandbox

  /** A credit increases an account, a debit decreases it. */
  function Signed(e: EntrySpec): int {
    if e.direction.Credit? then e.amount else -e.amount
  }

  function CurrencyTotal(entries: seq<EntrySpec>, currency: Currency): int {
    if entries == [] then 0
    else
      var last := entries[|entries| - 1];
      CurrencyTotal(entries[..|entries| - 1], currency) + (if last.currency == currency then Signed(last) else 0)
  }

  predicate WellFormed(e: EntrySpec) {
    e.amount > 0 && !e.direction.OtherDirection?
  }

  /** What a journal must satisfy to be posted. */
  predicate Postable(entries: seq<EntrySpec>) {
    && |entries| >= 2
    && (forall e | e in entries :: WellFormed(e))
    && (forall e | e in entries :: CurrencyTotal(entries, e.currency) == 0)
  }

  function Stamped(entries: seq<EntrySpec>, journal: Id, resource: Resource): (rows: seq<LedgerEntry>)
    ensures |rows| == |entries|
  {
    seq(|entries|, i requires 0 <= i < |entries| => LedgerEntry(journal, entries[i], resource))
  }

  /** A fresh journal id: no earlier entry of a well-numbered ledger carries it. */
  function NextJournal(ledger: seq<LedgerEntry>): Id {
    |ledger|
  }

  /** The ledger with the journal appended, if it can be posted. */
  function Post(ledger: seq<LedgerEntry>, entries: seq<EntrySpec>, resource: Resource): Result<seq<LedgerEntry>> {
    if Postable(entries) then Ok(ledger + Stamped(entries, NextJournal(ledger), resource))
    else Err(LedgerImbalance)
  }

  lemma {:induction false} OtherCurrencyTotal(entries: seq<EntrySpec>, currency: Currency)
    requires forall e | e in entries :: e.currency != currency
    ensures CurrencyTotal(entries, currency) == 0
  {
    if entries != [] {
      OtherCurrencyTotal(entries[..|entries| - 1], currency);
    }
  }

  /** Accepted journals are those whose credits equal their debits in every currency. */
  lemma PostableBalances(entries: seq<EntrySpec>)
    ensures Postable(entries) <==>
            && |entries| >= 2
            && (forall e | e in entries :: e.amount > 0 && e.direction in {Debit, Credit})
            && (forall c: Currency :: CurrencyTotal(entries, c) == 0)
  {
    if Postable(entries) {
      forall c: Currency ensures CurrencyTotal(entries, c) == 0 {
        if forall e | e in entries :: e.currency != c {
          OtherCurrencyTotal(entries, c);
        }
      }
      forall e | e in entries ensures e.direction in {Debit, Credit} {
        assert WellFormed(e);
      }
    } else if |entries| >= 2 && forall e | e in entries :: WellFormed(e) {
      var e :| e in entries && CurrencyTotal(entries, e.currency) != 0;
      var c := e.currency;
      assert CurrencyTotal(entries, c) != 0;
    }
  }

  /** `totals` holds the running total of exactly the currencies of `entries`. */
  ghost predicate Tallied(entries: seq<EntrySpec>, totals: map<Currency, int>) {
    && (forall e | e in entries :: WellFormed(e) && e.currency in totals)
    && (forall c | c in totals :: totals[c] == CurrencyTotal(entries, c) && exists e | e in entries :: e.currency == c)
  }

  lemma TalliedNext(entries: seq<EntrySpec>, spec: EntrySpec, totals: map<Currency, int>)
    requires Tallied(entries, totals) && WellFormed(spec)
    ensures var total := if spec.currency in totals then totals[spec.currency] else 0;
            Tallied(entries + [spec], totals[spec.currency := total + Signed(spec)])
  {
    var next := entries + [spec];
    assert next[..|next| - 1] == entries;
    if spec.currency !in totals {
      OtherCurrencyTotal(entries, spec.currency);
    }
    var total := if spec.currency in totals then totals[spec.currency] else 0;
    var totals' := totals[spec.currency := total + Signed(spec)];
    forall c | c in totals' ensures exists e | e in next :: e.currency == c {
      if c in totals {
        var e :| e in entries && e.currency == c;
        assert e in next;
      } else {
        assert spec in next;
      }
    }
  }

  lemma TalliedStep(entries: seq<EntrySpec>, i: nat, totals: map<Currency, int>)
    requires i < |entries| && Tallied(entries[..i], totals) && WellFormed(entries[i])
    ensures var spec := entries[i];
            var total := if spec.currency in totals then totals[spec.currency] else 0;
            Tallied(entries[..i + 1], totals[spec.currency := total + Signed(spec)])
  {
    TalliedNext(entries[..i], entries[i], totals);
    assert entries[..i + 1] == entries[..i] + [entries[i]];
  }

  lemma MalformedNotPostable(entries: seq<EntrySpec>, i: nat)
    requires i < |entries| && !WellFormed(entries[i])
    ensures !Postable(entries)
  {
    assert entries[i] in entries;
  }

  lemma TalliedDecides(entries: seq<EntrySpec>, totals: map<Currency, int>)
    requires Tallied(entries, totals) && |entries| >= 2
    ensures Postable(entries) <==> forall c | c in totals :: totals[c] == 0
  {
    if Postable(entries) {
      forall c | c in totals ensures totals[c] == 0 {
        var e :| e in entries && e.currency == c;
      }
    }
  }

  /** The validation half of `post_journal`: the running totals decide acceptance. */
  method CheckEntries(entries: seq<EntrySpec>) returns (ok: bool)
    ensures ok <==> Postable(entries)
  {
    if |entries| < 2 {
      return false;
    }
    var totals: map<Currency, int> := map[];
    for i := 0 to |entries|
      invariant Tallied(entries[..i], totals)
    {
      var spec := entries[i];
      if spec.amount <= 0 {
        MalformedNotPostable(entries, i);
        return false;
      }
      if spec.direction.OtherDirection? {
        MalformedNotPostable(entries, i);
        return false;
      }
      var total := if spec.currency in totals then totals[spec.currency] else 0;
      TalliedStep(entries, i, totals);
      totals := totals[spec.currency := total + Signed(spec)];
    }
    assert entries[..|entries|] == entries;
    TalliedDecides(entries, totals);
    var unbalanced := map c | c in totals && totals[c] != 0 :: totals[c];
    assert unbalanced == map[] <==> forall c | c in totals :: totals[c] == 0 by {
      assert forall c :: c in unbalanced <==> c in totals && totals[c] != 0;
    }
    ok := unbalanced == map[];
  }

  /** Accepts exactly the postable journals, appends one entry per spec under one journal id,
      and otherwise adds nothing. */
  method PostJournal(session: Session, entries: seq<EntrySpec>, resource: Resource) returns (r: Result<Id>)
    modifies session`ledger
    ensures match Post(old(session.ledger), entries, resource)
            case Ok(ledger) => r == Ok(NextJournal(old(session.ledger))) && session.ledger == ledger
            case Err(e) => r == Err(e) && session.ledger == old(session.ledger)
  {
    var ok := CheckEntries(entries);
    if !ok {
      return Err(LedgerImbalance);
    }
    var journal := NextJournal(session.ledger);
    ghost var rows := Stamped(entries, journal, resource);
    for i := 0 to |entries|
      invariant session.ledger == old(session.ledger) + rows[..i]
    {
      session.ledger := session.ledger + [LedgerEntry(journal, entries[i], resource)];
    }
    return Ok(journal);
  }
}

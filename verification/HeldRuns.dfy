/** A hold that is approved later on: whatever happened in between, the approval adds to the books what
    executing the request at once would have added. */
module HeldRuns {
  import opened Prelude
  import opened Models
  import opened Calendar
  import opened BooksModel
  import opened BooksEffects
  import opened Tallies
  import opened PolicyGateModel
  import opened PaymentsModel
  import opened ApprovalsModel
  import opened Machine
  import opened MoneyInvariant
  import opened Invariant
  import opened Steps
  import opened StepInvariant
  import opened RunInvariant
  import opened Stability
  import opened Isolation
  import opened Posting
  import opened Holds

  /** The request an agent's held one would be if the owner had made it. */
  function AsOwner(op: Op, o: Principal): Op
    requires CreatesAction(op)
  {
    match op
    case CreatePaymentOp(_, body) => CreatePaymentOp(o, body)
    case CreateTransferOp(_, body) => CreateTransferOp(o, body)
  }

  /** The same order, whoever gave it. */
  ghost predicate SameOrder(a: Action, a': Action) {
    && SameMoney(a, a') && a.owner == a'.owner && a.createdAt == a'.createdAt
    && (a.Transfer? ==> a.destination == a'.destination)
    && (a.Payment? ==> a.quote == a'.quote && a.destinationAmount == a'.destinationAmount)
  }

  /** The call executed the order `asked` at once, out of books that read as those of `s`. */
  ghost predicate DirectlyDone(s: State, call: Outcome, b0: Books, asked: Action) {
    && call.result == Ok(|s.actions|) && |call.state.actions| == |s.actions| + 1
    && var done := call.state.actions[|s.actions|];
    && ExecutedBooks(b0, call.state.books, done, ResourceOf(done, |s.actions|), false)
    && SameReading(s.books, b0)
    && SameOrder(asked, done) && done.status == Completed
  }

  lemma ExecutedDirectly(s: State, s0: State, now: Time, owner: Id, h: Holder, row: Action, asked: Action)
    requires owner < |s.owners| && s0 == OpenedIn(s, owner, h)
    requires BalanceRows(s0.owners, s0.agents, s0.books.balances) && Fresh(s0, now, owner, row) && SameOrder(asked, row)
    ensures DirectlyDone(s, ExecuteNew(s0, now, owner, row), s0.books, asked)
  {
    ExecuteNewShape(s0, now, owner, row);
    OpenedReads(s, owner, h);
    ExecutedAlike(s0.books, ExecuteNew(s0, now, owner, row).state.books, row, DoneRow(row, now),
                  ResourceOf(row, |s.actions|));
  }

  lemma OpenedReads(s: State, owner: Id, h: Holder)
    requires owner < |s.owners|
    ensures SameReading(s.books, OpenedIn(s, owner, h).books)
  {
    OpenedEffect(s.books, owner, OwnerCurrency(s, owner), h);
  }

  lemma ExecutedAlike(b: Books, b': Books, row: Action, row': Action, r: Resource)
    requires ExecutedBooks(b, b', row, r, false) && SameAction(row, row')
    ensures ExecutedBooks(b, b', row', r, false)
  {
  }

  lemma DirectPayment(s: State, held: State, now: Time, p: Principal, o: Principal, body: PaymentBody)
    returns (b0: Books)
    requires Inv(s, now) && Authentic(s, p) && OwnerOf(p, o)
    requires HeldBy(s, CreatePayment(s, now, p, body), held)
    ensures Authentic(s, o) && DirectlyDone(s, CreatePayment(s, now, o, body), b0, held.actions[|s.actions|])
  {
    var s0, s1, terms := HeldPaymentShape(s, held, now, p, body);
    OwnerPaymentShape(s, now, p, o, body, terms);
    ExecutedDirectly(s, s0, now, o.owner, AgentHolder(body.agent), NewPayment(now, o, body, terms),
                     HeldRow(NewPayment(now, p, body, terms), now, |s.approvals|));
    b0 := s0.books;
  }

  lemma DirectTransfer(s: State, held: State, now: Time, p: Principal, o: Principal, body: TransferBody)
    returns (b0: Books)
    requires Inv(s, now) && Authentic(s, p) && OwnerOf(p, o)
    requires HeldBy(s, CreateTransfer(s, now, p, body), held)
    ensures Authentic(s, o) && DirectlyDone(s, CreateTransfer(s, now, o, body), b0, held.actions[|s.actions|])
  {
    var s0, s1 := HeldTransferShape(s, held, now, p, body);
    OwnerTransferShape(s, now, p, o, body);
    ExecutedDirectly(s, s0, now, o.owner, body.source, NewTransfer(now, o, body),
                     HeldRow(NewTransfer(now, p, body), now, |s.approvals|));
    b0 := s0.books;
  }

  lemma DirectPaymentCall(s: State, held: State, now: Time, p: Principal, o: Principal, body: PaymentBody)
    returns (b0: Books)
    requires Inv(s, now) && Authentic(s, p) && OwnerOf(p, o)
    requires HeldBy(s, Step(s, now, CreatePaymentOp(p, body)), held)
    ensures DirectlyDone(s, Step(s, now, CreatePaymentOp(o, body)), b0, held.actions[|s.actions|])
  {
    b0 := DirectPayment(s, held, now, p, o, body);
  }

  lemma DirectTransferCall(s: State, held: State, now: Time, p: Principal, o: Principal, body: TransferBody)
    returns (b0: Books)
    requires Inv(s, now) && Authentic(s, p) && OwnerOf(p, o)
    requires HeldBy(s, Step(s, now, CreateTransferOp(p, body)), held)
    ensures DirectlyDone(s, Step(s, now, CreateTransferOp(o, body)), b0, held.actions[|s.actions|])
  {
    b0 := DirectTransfer(s, held, now, p, o, body);
  }

  /** The request made by the owner at once. */
  lemma DirectCall(s: State, held: State, now: Time, create: Op, o: Principal) returns (b0: Books)
    requires Inv(s, now) && CreatesAction(create)
    requires Authentic(s, create.p) && OwnerOf(create.p, o) && HeldBy(s, Step(s, now, create), held)
    ensures DirectlyDone(s, Step(s, now, AsOwner(create, o)), b0, held.actions[|s.actions|])
  {
    match create
    case CreatePaymentOp(p, body) => b0 := DirectPaymentCall(s, held, now, p, o, body);
    case CreateTransferOp(p, body) => b0 := DirectTransferCall(s, held, now, p, o, body);
  }

  /** What the journal of an action adds to a line. */
  function Share(line: Line, row: Action): int {
    (if OnAccount(line, Target(row)) then row.amount else 0)
    - (if OnAccount(line, HolderAccount(Source(row), row.currency)) then row.amount else 0)
  }

  lemma JournalShares(l: seq<LedgerEntry>, row: Action, r: Resource)
    ensures var journal := JournalOf(row, NextJournal(l), r);
            && (forall line: Line :: !line.OfJournal? ==> Net(line, l + journal) == Net(line, l) + Share(line, row))
            && EntriesFor(l + journal, r) == EntriesFor(l, r) + journal
  {
    JournalEffect(l, HolderAccount(Source(row), row.currency), Target(row), row.amount, row.currency, r);
  }

  /** From `a` to `d` every balance moves by what it moves from `b` to `c` and from `a` to `e` together. */
  ghost predicate BalancesSum(a: Books, b: Books, c: Books, d: Books, e: Books) {
    forall h: Holder ::
      && Avail(d, h) - Avail(a, h) == (Avail(c, h) - Avail(b, h)) + (Avail(e, h) - Avail(a, h))
      && Pend(d, h) - Pend(a, h) == (Pend(c, h) - Pend(b, h)) + (Pend(e, h) - Pend(a, h))
  }

  /** The same of the net credit of holders and system accounts. */
  ghost predicate LinesSum(a: Books, b: Books, c: Books, d: Books, e: Books) {
    forall line: Line :: !line.OfJournal? ==>
      Net(line, d.ledger) - Net(line, a.ledger)
      == (Net(line, c.ledger) - Net(line, b.ledger)) + (Net(line, e.ledger) - Net(line, a.ledger))
  }

  lemma ApprovedBooks(s: State, now: Time, o: Principal, i: Id, k: Id)
    requires Inv(s, now) && OnHold(s, i, k) && Decidable(s.approvals[k], now)
    requires o.credential.OwnerKey? && o.owner == s.approvals[k].owner && o.owner < |s.owners|
    ensures Approve(s, now, o, k).Ok?
    ensures var s' := Approve(s, now, o, k).value;
            && ExecutedBooks(s.books, s'.books, s.actions[i], ResourceOf(s.actions[i], i), true)
            && s'.actions == s.actions[i := CarriedRow(s, now, i)]
            && SameAction(s.actions[i], CarriedRow(s, now, i)) && CarriedRow(s, now, i).status == Completed
            && EntriesFor(s.books.ledger, ResourceOf(s.actions[i], i)) == []
  {
    assert ActionLinked(s.actions, s.approvals, i);
    ApproveHeld(s, now, o, i, k);
    CarriedOutShape(s, now, k, s.approvals[k].(status := Approved));
    CarriedOutBooks(s, now, k);
    assert PostedOnce(s.books.ledger, s.actions, ResourceOf(s.actions[i], i));
  }

  /** The journal of the action, and no other, was added to the ledger. */
  ghost predicate OneJournal(before: seq<LedgerEntry>, after: seq<LedgerEntry>, row: Action, r: Resource) {
    && EntriesFor(after, r) == JournalOf(row, NextJournal(before), r)
    && after == before + EntriesFor(after, r)
  }

  lemma HoldAndApprovalSum(s: Books, b1: Books, held: Books, c: Books, d: Books, b0: Books, e: Books,
                           row: Action, done: Action, r: Resource)
    requires Source(row) in b1.balances && held == Changed(b1, Source(row), -row.amount, row.amount)
    requires ExecutedBooks(c, d, row, r, true) && ExecutedBooks(b0, e, done, r, false) && SameOrder(row, done)
    requires SameReading(s, b1) && SameReading(s, b0)
    ensures BalancesSum(s, held, c, d, e)
  {
    ShuffleKeeps(b1, Source(row), row.amount);
  }

  lemma JournalsSum(s: Books, held: Books, c: Books, d: Books, e: Books, row: Action, done: Action, r: Resource)
    requires held.ledger == s.ledger && d.ledger == c.ledger + JournalOf(row, NextJournal(c.ledger), r)
    requires e.ledger == s.ledger + JournalOf(done, NextJournal(s.ledger), r) && SameMoney(row, done)
    requires EntriesFor(c.ledger, r) == []
    ensures LinesSum(s, held, c, d, e) && OneJournal(c.ledger, d.ledger, done, r)
  {
    JournalShares(c.ledger, row, r);
    JournalShares(s.ledger, done, r);
  }

  /** What approving an action held in `s` comes to, compared with `direct`: over the whole time the
      books move by what they moved between `held` and `s2` and by what `direct` moves, under one
      journal, and the action ends as in `direct`, but for a destination repriced because its quote
      expired. */
  ghost predicate RefinesDirect(s: State, held: State, s2: State, s3: State, later: Time, direct: State) {
    && |direct.actions| == |s.actions| + 1 <= |s2.actions| == |s3.actions|
    && var i := |s.actions|;
    && var done, row := direct.actions[i], s3.actions[i];
    && BalancesSum(s.books, held.books, s2.books, s3.books, direct.books)
    && LinesSum(s.books, held.books, s2.books, s3.books, direct.books)
    && OneJournal(s2.books.ledger, s3.books.ledger, done, ResourceOf(done, i))
    && SameOutcome(done, row) && row.status == Completed
    && (done.Payment? && QuoteHolds(s2, done.quote, later) ==> SameDestination(row, done))
  }

  lemma ApprovedEndsAs(s: State, now: Time, i: Id, done: Action)
    requires i < |s.actions| && SameOrder(s.actions[i], done) && done.status == Completed
    requires SameAction(s.actions[i], CarriedRow(s, now, i)) && CarriedRow(s, now, i).status == Completed
    ensures SameOutcome(done, CarriedRow(s, now, i))
    ensures done.Payment? && QuoteHolds(s, done.quote, now) ==> SameDestination(CarriedRow(s, now, i), done)
  {
    if done.Payment? && QuoteHolds(s, done.quote, now) {
      NotRepriced(s, now, i);
    }
  }

  lemma ApprovedRefines(s: State, s1: State, held: State, row: Action, row': Action, approval: Approval,
                        s2: State, later: Time, o: Principal, call: Outcome, b0: Books)
    requires HeldNew(s1, held, row, row', approval) && SameReading(s.books, s1.books)
    requires |s1.actions| == |s.actions| && |s1.approvals| == |s.approvals|
    requires Inv(s2, later) && OnHold(s2, |s.actions|, |s.approvals|) && Decidable(s2.approvals[|s.approvals|], later)
    requires s2.actions[|s.actions|] == row'
    requires o.credential.OwnerKey? && o.owner == s2.approvals[|s.approvals|].owner && o.owner < |s2.owners|
    requires DirectlyDone(s, call, b0, row')
    ensures Approve(s2, later, o, |s.approvals|).Ok?
    ensures RefinesDirect(s, held, s2, Approve(s2, later, o, |s.approvals|).value, later, call.state)
  {
    var i, k := |s.actions|, |s.approvals|;
    ApprovedBooks(s2, later, o, i, k);
    var s3 := Approve(s2, later, o, k).value;
    ApprovedSum(s, s1, held, row, row', approval, s2.books, s3.books, call, b0);
    ApprovedEndsAs(s2, later, i, call.state.actions[i]);
  }

  lemma ApprovedSum(s: State, s1: State, held: State, row: Action, row': Action, approval: Approval,
                    c: Books, d: Books, call: Outcome, b0: Books)
    requires HeldNew(s1, held, row, row', approval) && SameReading(s.books, s1.books)
    requires DirectlyDone(s, call, b0, row')
    requires var r := ResourceOf(row', |s.actions|); ExecutedBooks(c, d, row', r, true) && EntriesFor(c.ledger, r) == []
    ensures var done := call.state.actions[|s.actions|];
            && BalancesSum(s.books, held.books, c, d, call.state.books)
            && LinesSum(s.books, held.books, c, d, call.state.books)
            && OneJournal(c.ledger, d.ledger, done, ResourceOf(done, |s.actions|))
  {
    var done := call.state.actions[|s.actions|];
    var r := ResourceOf(done, |s.actions|);
    HoldAndApprovalSum(s.books, s1.books, held.books, c, d, b0, call.state.books, row', done, r);
    JournalsSum(s.books, held.books, c, d, call.state.books, row', done, r);
  }

  lemma ApproveStep(s: State, now: Time, o: Principal, k: Id)
    requires Authentic(s, o) && Approve(s, now, o, k).Ok?
    ensures Step(s, now, ApproveOp(o, k)) == Outcome(Approve(s, now, o, k).value, Ok(k))
  {
  }

  /** A hold that is still pending after a run: the same row under the same approval. */
  lemma HeldAfterRun(s: State, s1: State, row: Action, row': Action, approval: Approval,
                     start: Time, events: seq<Event>, now: Time)
    requires Inv(s1, start) && HeldNew(s, s1, row, row', approval)
    requires Possible(s1, start, events) && Clock(start, events) <= now
    requires |s.actions| < |Run(s1, events).actions| && Run(s1, events).actions[|s.actions|].status == PendingApproval
    ensures var s2 := Run(s1, events);
            && Inv(s2, now) && OnHold(s2, |s.actions|, |s.approvals|)
            && s2.actions[|s.actions|] == row' && s2.approvals[|s.approvals|].owner == row.owner
            && |s1.owners| <= |s2.owners|
  {
    HoldStill(s, s1, row, row', approval, start, events, now);
    RunExtends(s1, start, events);
    assert LaterAction(s1.actions[|s.actions|], Run(s1, events).actions[|s.actions|]);
    assert LaterApproval(s1.approvals[|s.approvals|], Run(s1, events).approvals[|s.approvals|]);
  }

  lemma HeldThenApprovedLater(s: State, s1: State, held: State, row: Action, row': Action, approval: Approval,
                              start: Time, events: seq<Event>, later: Time, o: Principal, call: Outcome, b0: Books)
    requires Inv(held, start) && HeldNew(s1, held, row, row', approval) && SameReading(s.books, s1.books)
    requires |s1.actions| == |s.actions| && |s1.approvals| == |s.approvals| && s1.owners == s.owners
    requires Possible(held, start, events) && Clock(start, events) <= later
    requires var s2 := Run(held, events);
             && |s.actions| < |s2.actions| && s2.actions[|s.actions|].status == PendingApproval
             && |s.approvals| < |s2.approvals| && Decidable(s2.approvals[|s.approvals|], later)
    requires o.credential.OwnerKey? && o.owner == row.owner && o.owner < |s.owners|
    requires DirectlyDone(s, call, b0, row')
    ensures var s2, k := Run(held, events), |s.approvals|;
            && Step(s2, later, ApproveOp(o, k)).result == Ok(k)
            && RefinesDirect(s, held, s2, Step(s2, later, ApproveOp(o, k)).state, later, call.state)
  {
    HeldAfterRun(s1, held, row, row', approval, start, events, later);
    ApprovedRefines(s, s1, held, row, row', approval, Run(held, events), later, o, call, b0);
    ApproveStep(Run(held, events), later, o, |s.approvals|);
  }

  /** An agent's payment or transfer that is held, any run during which it stays so, and its
      owner's approval: the whole adds to the run what the owner's making the request at once
      would have added. */
  lemma HeldCallRefines(s: State, held: State, created: Time, create: Op, events: seq<Event>, later: Time, o: Principal)
    requires Inv(s, created) && CreatesAction(create)
    requires Authentic(s, create.p) && OwnerOf(create.p, o) && HeldBy(s, Step(s, created, create), held)
    requires Possible(held, created, events) && Clock(created, events) <= later
    requires var s2 := Run(held, events);
             && |s.actions| < |s2.actions| && s2.actions[|s.actions|].status == PendingApproval
             && |s.approvals| < |s2.approvals| && Decidable(s2.approvals[|s.approvals|], later)
    ensures Step(s, created, AsOwner(create, o)).result == Ok(|s.actions|)
    ensures Step(Run(held, events), later, ApproveOp(o, |s.approvals|)).result == Ok(|s.approvals|)
    ensures RefinesDirect(s, held, Run(held, events),
                          Step(Run(held, events), later, ApproveOp(o, |s.approvals|)).state, later,
                          Step(s, created, AsOwner(create, o)).state)
  {
    StepInv(s, created, created, create);
    var s1, row, row', approval := HeldCallShape(s, held, created, create);
    var b0 := DirectCall(s, held, created, create, o);
    HeldThenApprovedLater(s, s1, held, row, row', approval, created, events, later, o,
                          Step(s, created, AsOwner(create, o)), b0);
  }
}

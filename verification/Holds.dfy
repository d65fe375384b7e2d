/** The life of a hold: held and approved it ends where direct execution ends; held and
    released it leaves no trace in money, whatever happened in between. */
module Holds {
  import opened Prelude
  import opened Models
  import opened Calendar
  import opened Sandbox
  import opened BooksModel
  import opened BooksEffects
  import opened Tallies
  import opened PolicyGateModel
  import opened PaymentsModel
  import opened ApprovalsModel
  import opened Machine
  import opened MoneyInvariant
  import opened Invariant
  import opened Steps
  import opened StepInvariant
  import opened Sweep
  import opened RunInvariant
  import opened Stability
  import opened Isolation

  // ---- Hold then approve -------------------------------------------------------------------

  lemma ReserveThenPay(b: Books, owner: Id, row: Action, r: Resource)
    requires row.Payment? && Source(row) in b.balances
    ensures ExecuteBooks(b, owner, row.currency, row, r, false)
            == match Reserve(b, Source(row), row.amount)
               case Err(e) => Err(e)
               case Ok(reserved) => ExecuteBooks(reserved, owner, row.currency, row, r, true)
  {
    var h := Source(row);
    if Avail(b, h) >= row.amount {
      var reserved := Reserve(b, h, row.amount).value;
      assert Changed(reserved, h, 0, -row.amount) == Changed(b, h, -row.amount, 0);
    }
  }

  lemma ReserveThenTransfer(b: Books, owner: Id, row: Action, r: Resource)
    requires row.Transfer? && Source(row) in b.balances
    ensures ExecuteBooks(b, owner, row.currency, row, r, false)
            == match Reserve(b, Source(row), row.amount)
               case Err(e) => Err(e)
               case Ok(reserved) => ExecuteBooks(reserved, owner, row.currency, row, r, true)
  {
    var h := Source(row);
    if Avail(b, h) >= row.amount {
      var reserved, d := Reserve(b, h, row.amount).value, row.destination;
      ReserveThenWithdraw(b, reserved, owner, row.currency, h, d, row.amount);
    }
  }

  lemma ReserveThenWithdraw(b: Books, reserved: Books, owner: Id, currency: Currency, h: Holder, d: Holder,
                            amount: int)
    requires h in b.balances && Reserve(b, h, amount) == Ok(reserved)
    ensures var b1, r1 := Opened(b, owner, currency, d), Opened(reserved, owner, currency, d);
            Withdrawn(r1, h, amount, true) == Withdrawn(b1, h, amount, false)
  {
    var b1, r1 := Opened(b, owner, currency, d), Opened(reserved, owner, currency, d);
    assert Changed(r1, h, 0, -amount) == Changed(b1, h, -amount, 0);
  }

  /** Reserving and then executing out of the reservation is executing directly: it fails on
      the same inputs with the same error, and ends in the same books. */
  lemma ReserveThenExecute(b: Books, owner: Id, row: Action, r: Resource)
    requires Source(row) in b.balances
    ensures ExecuteBooks(b, owner, row.currency, row, r, false)
            == match Reserve(b, Source(row), row.amount)
               case Err(e) => Err(e)
               case Ok(reserved) => ExecuteBooks(reserved, owner, row.currency, row, r, true)
  {
    if row.Payment? {
      ReserveThenPay(b, owner, row, r);
    } else {
      ReserveThenTransfer(b, owner, row, r);
    }
  }

  /** The same owner's principal with an owner key, who needs no approval. */
  ghost predicate OwnerOf(p: Principal, o: Principal) {
    p.credential.AgentKey? && o.credential.OwnerKey? && o.owner == p.owner
  }

  /** Approving a pending, unexpired hold of one's own cannot fail, and executes it. */
  lemma ApproveHeld(s: State, now: Time, o: Principal, i: Id, k: Id)
    requires Inv(s, now) && OnHold(s, i, k) && Decidable(s.approvals[k], now)
    requires o.credential.OwnerKey? && o.owner == s.approvals[k].owner && o.owner < |s.owners|
    ensures Approve(s, now, o, k).Ok?
    ensures var s' := Approve(s, now, o, k).value;
            && ExecuteBooks(s.books, o.owner, s.actions[i].currency, s.actions[i], ResourceOf(s.actions[i], i), true)
               == Ok(s'.books)
            && s'.actions == s.actions[i := CarriedRow(s, now, i)]
            && SameAction(s.actions[i], CarriedRow(s, now, i)) && CarriedRow(s, now, i).status == Completed
  {
    assert ActionLinked(s.actions, s.approvals, i);
    CarriedOutShape(s, now, k, s.approvals[k].(status := Approved));
    CarriedOutBooks(s, now, k);
  }

  /** The same record, up to who made it and how it got there. */
  ghost predicate SameOutcome(a: Action, a': Action) {
    && SameMoney(a, a') && a.owner == a'.owner && a.createdAt == a'.createdAt && a.status == a'.status
  }

  /** What approving the newest, held action leads to, compared with having executed it. */
  ghost predicate EndsAs(approved: State, direct: State, i: Id) {
    && approved.books == direct.books
    && |approved.actions| == |direct.actions| == i + 1
    && SameOutcome(direct.actions[i], approved.actions[i])
    && direct.actions[i].status == Completed
  }

  lemma HeldBooks(s: State, held: State, owner: Id, row: Action, row': Action, approval: Approval, direct: Action)
    requires HeldNew(s, held, row, row', approval) && SameMoney(row, direct)
    requires ExecuteBooks(s.books, owner, direct.currency, direct, ResourceOf(direct, |s.actions|), false).Ok?
    ensures ExecuteBooks(held.books, owner, row'.currency, row', ResourceOf(row', |s.actions|), true)
            == ExecuteBooks(s.books, owner, direct.currency, direct, ResourceOf(direct, |s.actions|), false)
  {
    var r := ResourceOf(direct, |s.actions|);
    ReserveThenExecute(s.books, owner, direct, r);
    ExecuteSame(held.books, owner, row', direct, r, true);
  }

  lemma HeldThenApproved(s: State, held: State, s': State, now: Time, later: Time, o: Principal,
                         row: Action, row': Action, approval: Approval, direct: Action)
    requires Inv(held, later) && HeldNew(s, held, row, row', approval) && Decidable(approval, later)
    requires o.credential.OwnerKey? && o.owner == row.owner && o.owner < |s.owners|
    requires SameMoney(row, direct) && row.createdAt == direct.createdAt && row.owner == direct.owner
    requires s'.actions == s.actions + [DoneRow(direct, now)]
    requires ExecuteBooks(s.books, o.owner, direct.currency, direct, ResourceOf(direct, |s.actions|), false)
             == Ok(s'.books)
    ensures Approve(held, later, o, |s.approvals|).Ok?
    ensures EndsAs(Approve(held, later, o, |s.approvals|).value, s', |s.actions|)
    ensures Approve(held, later, o, |s.approvals|).value.actions[|s.actions|] == CarriedRow(held, later, |s.actions|)
  {
    var i, k := |s.actions|, |s.approvals|;
    assert held.actions[i] == row' && held.approvals[k] == approval;
    ApproveHeld(held, later, o, i, k);
    HeldBooks(s, held, o.owner, row, row', approval, direct);
    var approved := Approve(held, later, o, k).value;
    assert SameAction(row', approved.actions[i]);
    DoneSame(direct, now);
  }

  lemma DoneSame(row: Action, now: Time)
    ensures SameAction(row, DoneRow(row, now)) && DoneRow(row, now).status == Completed
  {
  }

  /** Execution depends on the money columns of a row only. */
  lemma ExecuteSame(b: Books, owner: Id, row: Action, row': Action, r: Resource, fromReservation: bool)
    requires SameMoney(row, row')
    ensures ExecuteBooks(b, owner, row.currency, row, r, fromReservation)
            == ExecuteBooks(b, owner, row'.currency, row', r, fromReservation)
  {
  }

  /** Without an expired quote, carrying a payment out leaves its destination amount alone. */
  lemma NotRepriced(s: State, now: Time, i: Id)
    requires i < |s.actions| && s.actions[i].Payment?
    requires s.actions[i].quote.Some? ==>
               s.actions[i].quote.value < |s.quotes| && now <= s.quotes[s.actions[i].quote.value].expiresAt
    ensures CarriedRow(s, now, i).Payment? && CarriedRow(s, now, i).destinationAmount == s.actions[i].destinationAmount
  {
  }

  /** `held` is what a request that created one held action made of `s`. */
  ghost predicate HeldBy(s: State, o: Outcome, held: State) {
    && o == Outcome(held, Ok(|s.actions|))
    && |held.actions| == |s.actions| + 1 && |held.approvals| == |s.approvals| + 1
    && held.actions[|s.actions|].status == PendingApproval
  }

  lemma HeldPaymentShape(s: State, held: State, now: Time, p: Principal, body: PaymentBody)
    returns (s0: State, s1: State, terms: Terms)
    requires Inv(s, now) && Authentic(s, p) && p.credential.AgentKey?
    requires HeldBy(s, CreatePayment(s, now, p, body), held)
    ensures PaymentTerms(s, now, p, body) == Ok(terms) && OnlyRecords(s0, s1)
    ensures s0 == OpenedIn(s, p.owner, AgentHolder(body.agent)) && BalanceRows(s0.owners, s0.agents, s0.books.balances)
    ensures var row := NewPayment(now, p, body, terms);
            && Fresh(s0, now, p.owner, row)
            && HeldNew(s1, held, row, HeldRow(row, now, |s.approvals|), held.approvals[|s.approvals|])
  {
    s0, terms := CreatePaymentShape(s, now, p, body);
    s1 := GatedShape(s0, now, p, body.agent, NewPayment(now, p, body, terms), PaymentContext(s0, now, p, body, terms));
  }

  lemma OwnerPaymentShape(s: State, now: Time, p: Principal, o: Principal, body: PaymentBody, terms: Terms)
    requires Authentic(s, p) && OwnerOf(p, o)
    requires PaymentTerms(s, now, p, body) == Ok(terms)
    requires var s0 := OpenedIn(s, p.owner, AgentHolder(body.agent));
             BalanceRows(s0.owners, s0.agents, s0.books.balances)
                 && Fresh(s0, now, p.owner, NewPayment(now, p, body, terms))
    ensures Authentic(s, o)
    ensures var s0, row := OpenedIn(s, p.owner, AgentHolder(body.agent)), NewPayment(now, o, body, terms);
            && Fresh(s0, now, o.owner, row)
            && CreatePayment(s, now, o, body) == ExecuteNew(s0, now, o.owner, row)
  {
    assert PaymentTerms(s, now, o, body) == Ok(terms);
  }

  /** The quote a payment was made from, if any, is good until `later`. */
  predicate QuoteHolds(s: State, quote: Option<Id>, later: Time) {
    quote.Some? ==> quote.value < |s.quotes| && later <= s.quotes[quote.value].expiresAt
  }

  predicate SameDestination(a: Action, a': Action) {
    a.Payment? && a'.Payment? && a.destinationAmount == a'.destinationAmount
  }

  /** An agent's payment that is held and then approved ends as if the owner had made it:
      the same balances, ledger, id and status, and the same destination amount unless the
      quote expired before the approval. */
  lemma HeldPaymentRefines(s: State, held: State, now: Time, later: Time, p: Principal, o: Principal, body: PaymentBody)
    requires Inv(s, now) && Authentic(s, p) && OwnerOf(p, o) && now <= later
    requires HeldBy(s, CreatePayment(s, now, p, body), held) && Decidable(held.approvals[|s.approvals|], later)
    ensures held.owners == s.owners && Authentic(s, o)
    ensures CreatePayment(s, now, o, body).result == Ok(|s.actions|)
    ensures Approve(held, later, o, |s.approvals|).Ok?
    ensures var i, approved, direct := |s.actions|, Approve(held, later, o, |s.approvals|).value,
            CreatePayment(s, now, o, body).state;
            && EndsAs(approved, direct, i)
            && (QuoteHolds(s, body.quote, later) ==> SameDestination(approved.actions[i], direct.actions[i]))
  {
    var s0, s1, terms := HeldPaymentShape(s, held, now, p, body);
    OwnerPaymentShape(s, now, p, o, body, terms);
    var direct := NewPayment(now, o, body, terms);
    CreatePaymentInv(s, now, p, body);
    AdvanceClock(held, now, later);
    ExecuteNewShape(s0, now, o.owner, direct);
    DirectBooks(s0, now, o.owner, direct);
    var row := NewPayment(now, p, body, terms);
    HeldThenApproved(s1, held, CreatePayment(s, now, o, body).state, now, later, o,
                     row, HeldRow(row, now, |s.approvals|), held.approvals[|s.approvals|], direct);
    if QuoteHolds(s, body.quote, later) {
      NotRepriced(held, later, |s.actions|);
    }
  }

  lemma DirectBooks(s: State, now: Time, owner: Id, row: Action)
    requires owner < |s.owners| && row.currency == OwnerCurrency(s, owner)
    requires ExecuteNew(s, now, owner, row).result.Ok?
    ensures ExecuteBooks(s.books, owner, row.currency, row, ResourceOf(row, |s.actions|), false)
            == Ok(ExecuteNew(s, now, owner, row).state.books)
  {
    ExecuteShape(s.(actions := s.actions + [row]), now, owner, |s.actions|, false);
  }

  /** The same for transfers. */
  lemma HeldTransferRefines(s: State, held: State, now: Time, later: Time, p: Principal, o: Principal,
                            body: TransferBody)
    requires Inv(s, now) && Authentic(s, p) && OwnerOf(p, o) && now <= later
    requires HeldBy(s, CreateTransfer(s, now, p, body), held) && Decidable(held.approvals[|s.approvals|], later)
    ensures held.owners == s.owners && Authentic(s, o)
    ensures CreateTransfer(s, now, o, body).result == Ok(|s.actions|)
    ensures Approve(held, later, o, |s.approvals|).Ok?
    ensures EndsAs(Approve(held, later, o, |s.approvals|).value, CreateTransfer(s, now, o, body).state, |s.actions|)
  {
    var s0, s1 := HeldTransferShape(s, held, now, p, body);
    OwnerTransferShape(s, now, p, o, body);
    var direct := NewTransfer(now, o, body);
    CreateTransferInv(s, now, p, body);
    AdvanceClock(held, now, later);
    ExecuteNewShape(s0, now, o.owner, direct);
    DirectBooks(s0, now, o.owner, direct);
    var row := NewTransfer(now, p, body);
    HeldThenApproved(s1, held, CreateTransfer(s, now, o, body).state, now, later, o,
                     row, HeldRow(row, now, |s.approvals|), held.approvals[|s.approvals|], direct);
  }

  lemma HeldTransferShape(s: State, held: State, now: Time, p: Principal, body: TransferBody)
    returns (s0: State, s1: State)
    requires Inv(s, now) && Authentic(s, p) && p.credential.AgentKey?
    requires HeldBy(s, CreateTransfer(s, now, p, body), held)
    ensures ValidateTransfer(s, p, body).Ok? && OnlyRecords(s0, s1)
    ensures s0 == OpenedIn(s, p.owner, body.source) && BalanceRows(s0.owners, s0.agents, s0.books.balances)
    ensures var row := NewTransfer(now, p, body);
            && Fresh(s0, now, p.owner, row)
            && HeldNew(s1, held, row, HeldRow(row, now, |s.approvals|), held.approvals[|s.approvals|])
  {
    var agent;
    s0, agent := CreateTransferShape(s, now, p, body);
    s1 := GatedShape(s0, now, p, agent, NewTransfer(now, p, body), TransferContext(s0, now, agent, body));
  }

  lemma OwnerTransferShape(s: State, now: Time, p: Principal, o: Principal, body: TransferBody)
    requires Authentic(s, p) && OwnerOf(p, o)
    requires ValidateTransfer(s, p, body).Ok?
    requires var s0 := OpenedIn(s, p.owner, body.source);
             BalanceRows(s0.owners, s0.agents, s0.books.balances) && Fresh(s0, now, p.owner, NewTransfer(now, p, body))
    ensures Authentic(s, o)
    ensures var s0, row := OpenedIn(s, p.owner, body.source), NewTransfer(now, o, body);
            && Fresh(s0, now, o.owner, row)
            && CreateTransfer(s, now, o, body) == ExecuteNew(s0, now, o.owner, row)
  {
    assert ValidateTransfer(s, o, body).Ok?;
  }

  // ---- Hold then release -------------------------------------------------------------------

  /** A step that releases the hold of action `i` under approval `k`: cancelling, rejecting, or
      a sweep that lists `k`, alone or among others. */
  predicate Releases(op: Op, i: Id, k: Id) {
    match op
    case CancelPaymentOp(_, id) => id == i
    case RejectOp(_, id) => id == k
    case ExpireStaleOp(order) => k in order
    case _ => false
  }

  function Without(ks: seq<Id>, k: Id): (rest: seq<Id>)
    ensures forall x :: x in rest <==> x in ks && x != k
  {
    if ks == [] then [] else Without(ks[..|ks| - 1], k) + (if ks[|ks| - 1] == k then [] else [ks[|ks| - 1]])
  }

  /** The database just before `k` is released: a sweep has expired every other approval it lists. */
  function OthersReleased(s: State, now: Time, op: Op, k: Id): Result<State> {
    if op.ExpireStaleOp? then ExpireAll(s, now, Without(op.order, k)) else Ok(s)
  }

  lemma {:induction false} WithoutDistinct(ks: seq<Id>, k: Id)
    requires Distinct(ks)
    ensures Distinct(Without(ks, k))
  {
    if ks != [] {
      WithoutDistinct(ks[..|ks| - 1], k);
      assert ks[|ks| - 1] !in ks[..|ks| - 1];
      assert ks[|ks| - 1] !in Without(ks[..|ks| - 1], k);
    }
  }

  /** A sweep is the same as expiring everything else it lists first, and then `k`. */
  lemma SweepLast(s: State, now: Time, ks: seq<Id>, k: Id)
    requires Inv(s, now) && Distinct(ks) && AllPending(s, ks) && k in ks
    ensures ExpireAll(s, now, Without(ks, k)).Ok?
    ensures var s1 := ExpireAll(s, now, Without(ks, k)).value;
            && Inv(s1, now) && ExpiresExactly(s, s1, now, Elements(ks) - {k}) && OnlyReleases(s, s1)
            && ExpireAll(s, now, ks) == ExpireOne(s1, now, k)
  {
    var rest := Without(ks, k);
    WithoutDistinct(ks, k);
    ExpireAllEffect(s, now, rest);
    assert Elements(rest) == Elements(ks) - {k};
    assert Elements(rest + [k]) == Elements(ks);
    SweepOrderIrrelevant(s, now, ks, rest + [k]);
    assert (rest + [k])[..|rest|] == rest;
  }

  /** Other expiries leave a hold on. */
  lemma StillOnHold(s: State, s1: State, now: Time, ks: set<Id>, i: Id, k: Id)
    requires OnHold(s, i, k) && ExpiresExactly(s, s1, now, ks) && k !in ks
    ensures OnHold(s1, i, k) && s1.actions[i] == s.actions[i] && s1.approvals[k] == s.approvals[k]
  {
  }

  lemma ExpireOneShape(s: State, now: Time, i: Id, k: Id) returns (row: Action, approval: Approval)
    requires Inv(s, now) && OnHold(s, i, k)
    ensures ExpireOne(s, now, k).Ok?
    ensures ReleasedHold(s, ExpireOne(s, now, k).value, i, row, k, approval)
  {
    assert ActionLinked(s.actions, s.approvals, i);
    approval := ExpiredRow(s.approvals[k], now);
    UnwoundShape(s, s, now, s.approvals[k].owner, k, ExpiredApproval, approval);
    row := CancelledRow(s.actions[i], now, ExpiredApproval);
  }

  lemma CancelReleases(s: State, now: Time, p: Principal, i: Id, k: Id) returns (row: Action, approval: Approval)
    requires Inv(s, now) && OnHold(s, i, k) && p.owner < |s.owners| && CancelPayment(s, now, p, i).Ok?
    ensures ReleasedHold(s, CancelPayment(s, now, p, i).value, i, row, k, approval)
  {
    CancelPaymentShape(s, now, p, i);
    row, approval := CancelledRow(s.actions[i], now, CancelledByCaller), CancelPayment(s, now, p, i).value.approvals[k];
  }

  lemma RejectReleases(s: State, now: Time, p: Principal, i: Id, k: Id) returns (row: Action, approval: Approval)
    requires Inv(s, now) && OnHold(s, i, k) && p.owner < |s.owners| && Reject(s, now, p, k).Ok?
    ensures ReleasedHold(s, Reject(s, now, p, k).value, i, row, k, approval)
  {
    assert ActionLinked(s.actions, s.approvals, i);
    var s' := Reject(s, now, p, k).value;
    approval := s'.approvals[k];
    UnwoundShape(s, s', now, p.owner, k, OwnerRejected, approval);
    row := CancelledRow(s.actions[i], now, OwnerRejected);
  }

  lemma SweepReleases(s: State, now: Time, order: seq<Id>, i: Id, k: Id)
    returns (s1: State, row: Action, approval: Approval)
    requires Inv(s, now) && OnHold(s, i, k) && ListsStale(s, now, order) && k in order
    ensures ExpireAll(s, now, Without(order, k)) == Ok(s1) && Inv(s1, now) && s1.books.ledger == s.books.ledger
    ensures OnHold(s1, i, k) && s1.actions[i] == s.actions[i]
    ensures ExpireAll(s, now, order).Ok? && ReleasedHold(s1, ExpireAll(s, now, order).value, i, row, k, approval)
  {
    SweepLast(s, now, order, k);
    s1 := ExpireAll(s, now, Without(order, k)).value;
    StillOnHold(s, s1, now, Elements(order) - {k}, i, k);
    row, approval := ExpireOneShape(s1, now, i, k);
  }

  /** Releasing a hold takes the database in which only that hold is left to release to the
      step's result. */
  lemma ReleaseShape(s: State, now: Time, op: Op, i: Id, k: Id) returns (s1: State, row: Action, approval: Approval)
    requires Inv(s, now) && Enabled(s, now, op) && OnHold(s, i, k) && Releases(op, i, k)
    requires Step(s, now, op).result.Ok?
    ensures OthersReleased(s, now, op, k) == Ok(s1) && Inv(s1, now) && s1.books.ledger == s.books.ledger
    ensures OnHold(s1, i, k) && s1.actions[i] == s.actions[i]
    ensures ReleasedHold(s1, Step(s, now, op).state, i, row, k, approval)
  {
    s1 := s;
    match op
    case CancelPaymentOp(p, _) => row, approval := CancelReleases(s, now, p, i, k);
    case RejectOp(p, _) => row, approval := RejectReleases(s, now, p, i, k);
    case ExpireStaleOp(order) => s1, row, approval := SweepReleases(s, now, order, i, k);
  }

  /** What a hold does to the balances, its release undoes. */
  lemma ReleaseUndoesHold(s: State, s1: State, row: Action, row': Action, approval: Approval,
                          s2: State, s3: State, i: Id, released: Action, k: Id, closed: Approval)
    requires HeldNew(s, s1, row, row', approval)
    requires ReleasedHold(s2, s3, i, released, k, closed) && SameMoney(row', released)
    ensures forall h: Holder ::
              && Avail(s3.books, h) - Avail(s2.books, h) == -(Avail(s1.books, h) - Avail(s.books, h))
              && Pend(s3.books, h) - Pend(s2.books, h) == -(Pend(s1.books, h) - Pend(s.books, h))
    ensures s3.books.ledger == s2.books.ledger
  {
    var owner, h := s2.actions[i].owner, Source(released);
    ShuffleKeeps(s.books, Source(row), row.amount);
    var s0 := OpenedIn(s2, owner, h);
    OpenedEffect(s2.books, owner, OwnerCurrency(s2, owner), h);
    ShuffleKeeps(s0.books, h, -released.amount);
  }

  /** Hold, then any run, then cancel, reject or sweep: balances end up changed only by the steps
      in between and by whatever else the sweep expired, no journal exists for the action, and
      usage no longer counts it. */
  lemma HoldLeavesNoTrace(s: State, s1: State, row: Action, row': Action, approval: Approval,
                          start: Time, events: seq<Event>, now: Time, op: Op)
    requires Inv(s1, start) && HeldNew(s, s1, row, row', approval)
    requires Possible(s1, start, events) && Clock(start, events) <= now
    requires var s2 := Run(s1, events); Enabled(s2, now, op) && Step(s2, now, op).result.Ok?
    requires Releases(op, |s.actions|, |s.approvals|)
    requires |s.actions| < |Run(s1, events).actions| && Run(s1, events).actions[|s.actions|].status == PendingApproval
    ensures OthersReleased(Run(s1, events), now, op, |s.approvals|).Ok?
    ensures var before := OthersReleased(Run(s1, events), now, op, |s.approvals|).value;
            var after, i := Step(Run(s1, events), now, op).state, |s.actions|;
            && OnHold(before, i, |s.approvals|)
            && (forall h: Holder ::
                 && Avail(after.books, h) - Avail(s.books, h) == Avail(before.books, h) - Avail(s1.books, h)
                 && Pend(after.books, h) - Pend(s.books, h) == Pend(before.books, h) - Pend(s1.books, h))
            && after.books.ledger == before.books.ledger == Run(s1, events).books.ledger
            && EntriesFor(after.books.ledger, ResourceOf(row, i)) == []
            && i < |after.actions| && !Counted(after.actions[i]) && after.actions[i].Payment? == row.Payment?
  {
    var i, k, s2 := |s.actions|, |s.approvals|, Run(s1, events);
    HoldStill(s, s1, row, row', approval, start, events, now);
    var before, released, closed := ReleaseShape(s2, now, op, i, k);
    var after := Step(s2, now, op).state;
    ReleaseUndoesHold(s, s1, row, row', approval, before, after, i, released, k, closed);
    ReleasedUnposted(before, after, now, i, released, k, closed);
  }

  /** `b` shows the same balances and ledger as `a`. */
  ghost predicate SameReading(a: Books, b: Books) {
    && b.ledger == a.ledger
    && forall h: Holder :: Avail(b, h) == Avail(a, h) && Pend(b, h) == Pend(a, h)
  }

  /** An agent's payment or transfer that is held. */
  lemma HeldCallShape(s: State, held: State, now: Time, op: Op)
    returns (s1: State, row: Action, row': Action, approval: Approval)
    requires Inv(s, now) && (op.CreatePaymentOp? || op.CreateTransferOp?)
    requires Authentic(s, op.p) && op.p.credential.AgentKey? && HeldBy(s, Step(s, now, op), held)
    ensures HeldNew(s1, held, row, row', approval) && row.owner == op.p.owner
    ensures |s1.actions| == |s.actions| && |s1.approvals| == |s.approvals| && s1.owners == s.owners
    ensures SameReading(s.books, s1.books)
  {
    var p, s0 := op.p, s;
    match op {
      case CreatePaymentOp(_, body) =>
        var terms;
        s0, s1, terms := HeldPaymentShape(s, held, now, p, body);
        OpenedEffect(s.books, p.owner, OwnerCurrency(s, p.owner), AgentHolder(body.agent));
        row := NewPayment(now, p, body, terms);
      case CreateTransferOp(_, body) =>
        s0, s1 := HeldTransferShape(s, held, now, p, body);
        OpenedEffect(s.books, p.owner, OwnerCurrency(s, p.owner), body.source);
        row := NewTransfer(now, p, body);
    }
    row', approval := HeldRow(row, now, |s.approvals|), held.approvals[|s.approvals|];
  }

  /** The same for the service calls: an agent's payment or transfer that is held, any run during
      which it stays so, and its cancelling, rejection or sweep. */
  lemma HeldCallLeavesNoTrace(s: State, held: State, created: Time, create: Op, events: seq<Event>, now: Time, op: Op)
    requires Inv(s, created) && (create.CreatePaymentOp? || create.CreateTransferOp?)
    requires Authentic(s, create.p) && create.p.credential.AgentKey? && HeldBy(s, Step(s, created, create), held)
    requires Possible(held, created, events) && Clock(created, events) <= now
    requires var s2 := Run(held, events); Enabled(s2, now, op) && Step(s2, now, op).result.Ok?
    requires Releases(op, |s.actions|, |s.approvals|)
    requires |s.actions| < |Run(held, events).actions|
             && Run(held, events).actions[|s.actions|].status == PendingApproval
    ensures OthersReleased(Run(held, events), now, op, |s.approvals|).Ok?
    ensures var before := OthersReleased(Run(held, events), now, op, |s.approvals|).value;
            var after, i := Step(Run(held, events), now, op).state, |s.actions|;
            && OnHold(before, i, |s.approvals|)
            && (forall h: Holder ::
                 && Avail(after.books, h) - Avail(s.books, h) == Avail(before.books, h) - Avail(held.books, h)
                 && Pend(after.books, h) - Pend(s.books, h) == Pend(before.books, h) - Pend(held.books, h))
            && after.books.ledger == before.books.ledger == Run(held, events).books.ledger
            && i < |after.actions| && !Counted(after.actions[i])
            && EntriesFor(after.books.ledger, ResourceOf(after.actions[i], i)) == []
  {
    StepInv(s, created, created, create);
    var s1, row, row', approval := HeldCallShape(s, held, created, create);
    HoldLeavesNoTrace(s1, held, row, row', approval, created, events, now, op);
  }

  /** A hold that is still pending after a run is the same hold. */
  lemma HoldStill(s: State, s1: State, row: Action, row': Action, approval: Approval,
                  start: Time, events: seq<Event>, now: Time)
    requires Inv(s1, start) && HeldNew(s, s1, row, row', approval)
    requires Possible(s1, start, events) && Clock(start, events) <= now
    requires |s.actions| < |Run(s1, events).actions| && Run(s1, events).actions[|s.actions|].status == PendingApproval
    ensures Inv(Run(s1, events), now) && OnHold(Run(s1, events), |s.actions|, |s.approvals|)
    ensures SameAction(row', Run(s1, events).actions[|s.actions|])
  {
    var i, k, s2 := |s.actions|, |s.approvals|, Run(s1, events);
    RunInv(s1, start, events);
    RunExtends(s1, start, events);
    AdvanceClock(s2, Clock(start, events), now);
    assert LaterAction(s1.actions[i], s2.actions[i]);
    assert ActionLinked(s2.actions, s2.approvals, i);
  }

  lemma ReleasedUnposted(s: State, s': State, now: Time, i: Id, row: Action, k: Id, approval: Approval)
    requires Inv(s, now) && OnHold(s, i, k) && ReleasedHold(s, s', i, row, k, approval)
    ensures EntriesFor(s'.books.ledger, ResourceOf(row, i)) == []
    ensures !Counted(s'.actions[i])
  {
    ReleasedHoldInv(s, s', now, i, row, k, approval);
    assert PostedOnce(s'.books.ledger, s'.actions, ResourceOf(row, i));
  }
}

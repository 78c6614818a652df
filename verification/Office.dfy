/**
 * The services themselves: an agency's tables, changed row by row.
 *
 * Each method does what its service does inside one transaction, in that order,
 * and is proved to be the whole call of the same name in `Calls`. A refused call
 * leaves the tables as they were.
 */
module Office {
  import opened Wrappers
  import opened Rows
  import opened Books
  import opened Calls
  import Ledger
  import Undo
  import ProtocolSafety
  import Acceptance
  import Effects

  datatype AccountBalance = AccountBalance(id: nat, openingBalance: int, totalIn: int, totalOut: int, currentBalance: int)

  function GroupKey(): Posting -> (nat, Direction) { (p: Posting) => (p.account, p.direction) }
  function AmountOf(): Posting -> int { (p: Posting) => p.amount }
  function TotalOf(a: nat, d: Direction): Posting -> int { OfKey(GroupKey(), AmountOf(), (a, d)) }

  /** The balance is what went in less what went out. */
  lemma {:induction false} BalanceSplits(postings: seq<Posting>, a: nat)
    ensures Balance(postings, a) == Sum(postings, TotalOf(a, In)) - Sum(postings, TotalOf(a, Out))
  {
    if postings != [] {
      BalanceSplits(postings[..|postings| - 1], a);
    }
  }

  /** What the postings under one key had moved on an account. */
  function KeyedOn(source: Source, id: nat, a: nat): Posting -> int {
    (p: Posting) => if p.source == source && p.sourceId == id then MovedOn(a)(p) else 0
  }

  lemma ReverseMoves(postings: seq<Posting>, source: Source, id: nat, a: nat)
    ensures Balance(Reverse(postings, source, id), a) == Balance(postings, a) - Sum(postings, KeyedOn(source, id, a))
  {
    var rest: Posting -> int := (p: Posting) => if p.source == source && p.sourceId == id then 0 else MovedOn(a)(p);
    SumWhere(postings, NotFrom(source, id), MovedOn(a), rest);
    SumAdd(postings, rest, KeyedOn(source, id, a), MovedOn(a));
  }

  /* ------------------- what a deletion leaves the accounts ---------------- */

  /** The ledger is still explained, and each account has lost exactly the cash of that payment. */
  ghost predicate PaymentTakenBack(db: Db, db': Db, id: nat) {
    && Ledger.Sound(db')
    && forall p, a: nat :: p in db.payments && p.id == id ==>
         Balance(db'.postings, a) == Balance(db.postings, a) - Ledger.CashInto(a)(p)
  }

  /** Each account has lost exactly the half of that receipt it had got. */
  ghost predicate ReceiptTakenBack(db: Db, db': Db, id: nat) {
    && Ledger.Sound(db')
    && forall r, a: nat :: r in db.receipts && r.id == id ==>
         Balance(db'.postings, a) == Balance(db.postings, a) - Ledger.HalvesInto(a)(r)
  }

  /** The money is back where it came from, and all accounts together hold what they held. */
  ghost predicate TransferTakenBack(db: Db, db': Db, id: nat) {
    && Ledger.Sound(db') && Undo.TotalBalance(db') == Undo.TotalBalance(db)
    && forall t, a: nat :: t in db.transfers && t.id == id ==>
         Balance(db'.postings, a) == Balance(db.postings, a) - Ledger.NetInto(a)(t)
  }

  lemma UnpaySound(db: Db, sale: nat, id: nat)
    requires Ledger.Sound(db) && DeletePayment(db, sale, id).Ok?
    ensures Ledger.Sound(DeletePayment(db, sale, id).value)
  {
    Ledger.CallKeepsSound(db, Unpay(sale, id));
    assert After(db, Unpay(sale, id)) == DeletePayment(db, sale, id).value;
  }

  lemma UncollectSound(db: Db, id: nat)
    requires Ledger.Sound(db) && DeleteReceipt(db, id).Ok?
    ensures Ledger.Sound(DeleteReceipt(db, id).value)
  {
    Ledger.CallKeepsSound(db, Uncollect(id));
    assert After(db, Uncollect(id)) == DeleteReceipt(db, id).value;
  }

  lemma UnmoveSound(db: Db, id: nat)
    requires Ledger.Sound(db) && DeleteTransfer(db, id).Ok?
    ensures Ledger.Sound(DeleteTransfer(db, id).value)
  {
    Ledger.CallKeepsSound(db, Unmove(id));
    assert After(db, Unmove(id)) == DeleteTransfer(db, id).value;
  }

  lemma PaymentGoesBack(db: Db, sale: nat, id: nat)
    requires Ledger.Sound(db) && DeletePayment(db, sale, id).Ok?
    ensures PaymentTakenBack(db, DeletePayment(db, sale, id).value, id)
  {
    var db' := DeletePayment(db, sale, id).value;
    UnpaySound(db, sale, id);
    var q :| q in db.payments && q.id == id && q.sale == sale;
    forall p, a: nat | p in db.payments && p.id == id
      ensures Balance(db'.postings, a) == Balance(db.postings, a) - Ledger.CashInto(a)(p)
    {
      Undo.DeletePaymentTakesBack(db, p, a);
    }
  }

  lemma ReceiptGoesBack(db: Db, id: nat)
    requires Ledger.Sound(db) && DeleteReceipt(db, id).Ok?
    ensures ReceiptTakenBack(db, DeleteReceipt(db, id).value, id)
  {
    var db' := DeleteReceipt(db, id).value;
    UncollectSound(db, id);
    forall r, a: nat | r in db.receipts && r.id == id
      ensures Balance(db'.postings, a) == Balance(db.postings, a) - Ledger.HalvesInto(a)(r)
    {
      Undo.DeleteReceiptTakesBack(db, r, a);
    }
  }

  lemma TransferGoesBack(db: Db, id: nat)
    requires Ledger.Sound(db) && DeleteTransfer(db, id).Ok?
    ensures TransferTakenBack(db, DeleteTransfer(db, id).value, id)
  {
    var db' := DeleteTransfer(db, id).value;
    UnmoveSound(db, id);
    Undo.TransfersConserve(db, Unmove(id));
    forall t, a: nat | t in db.transfers && t.id == id
      ensures Balance(db'.postings, a) == Balance(db.postings, a) - Ledger.NetInto(a)(t)
    {
      Undo.DeleteTransferTakesBack(db, t, a);
    }
  }

  /* ---------------------- what a recording call does -------------------- */

  lemma PaymentIsPinned(db: Db, r: PayRequest)
    ensures match Calls.RecordPayment(db, r)
            case Ok(after) => Acceptance.PaymentFits(db, r) && Effects.PaymentDone(db, r, after)
            case Err(e) => !Acceptance.PaymentFits(db, r) && Acceptance.PaymentReason(db, r, e)
  {
    Acceptance.AcceptedExactlyWhen(db, Pay(r));
    if Calls.RecordPayment(db, r).Ok? { Effects.PaymentIsDone(db, r); } else { Acceptance.RefusalIsTrue(db, Pay(r)); }
  }

  lemma ReceiptIsPinned(db: Db, r: ReceiptRequest)
    ensures match CreateReceipt(db, r)
            case Ok(after) => Acceptance.ReceiptFits(db, r) && Effects.ReceiptDone(db, r, after)
            case Err(e) => !Acceptance.ReceiptFits(db, r) && Acceptance.ReceiptReason(db, r, e)
  {
    Acceptance.AcceptedExactlyWhen(db, Collect(r));
    if CreateReceipt(db, r).Ok? { Effects.ReceiptIsDone(db, r); } else { Acceptance.RefusalIsTrue(db, Collect(r)); }
  }

  lemma TransferIsPinned(db: Db, r: TransferRequest)
    ensures match CreateTransfer(db, r)
            case Ok(after) => Acceptance.TransferFits(db, r) && Effects.TransferDone(db, r, after)
            case Err(e) => !Acceptance.TransferFits(db, r) && Acceptance.TransferReason(db, r, e)
  {
    Acceptance.AcceptedExactlyWhen(db, Move(r));
    if CreateTransfer(db, r).Ok? { Effects.TransferIsDone(db, r); } else { Acceptance.RefusalIsTrue(db, Move(r)); }
  }

  /* ------------------------------ getBalances --------------------------- */

  function Moved(a: nat, d: Direction): Posting -> int { (u: Posting) => if u.account == a && u.direction == d then u.amount else 0 }

  predicate RightRow(db: Db, b: AccountBalance) {
    && LiveAccount(db, b.id) && b.openingBalance == db.accounts[b.id].opening
    && b.currentBalance == Balance(db.postings, b.id) == b.totalIn - b.totalOut
    && b.totalIn == Sum(db.postings, Moved(b.id, In)) && b.totalOut == Sum(db.postings, Moved(b.id, Out))
  }

  /** One right row for each live account below `n`, in their order. */
  ghost predicate Shows(db: Db, balances: seq<AccountBalance>, n: nat) {
    && (forall i, j :: 0 <= i < j < |balances| ==> balances[i].id < balances[j].id)
    && (forall b :: b in balances ==> b.id < n && RightRow(db, b))
    && (forall a :: 0 <= a < n && LiveAccount(db, a) ==> exists b :: b in balances && b.id == a)
  }

  lemma ShowsNone(db: Db, balances: seq<AccountBalance>, a: nat)
    requires Shows(db, balances, a) && !LiveAccount(db, a)
    ensures Shows(db, balances, a + 1)
  {
  }

  lemma RowIsRight(db: Db, groups: seq<((nat, Direction), int)>, a: nat)
    requires GroupedBy(groups, db.postings, GroupKey(), AmountOf())
    ensures Balance(db.postings, a) == GroupSum(groups, (a, In)) - GroupSum(groups, (a, Out))
    ensures GroupSum(groups, (a, In)) == Sum(db.postings, Moved(a, In)) && GroupSum(groups, (a, Out)) == Sum(db.postings, Moved(a, Out))
  {
    SumEq(db.postings, TotalOf(a, In), Moved(a, In));
    SumEq(db.postings, TotalOf(a, Out), Moved(a, Out));
    GroupSumIsSum(groups, db.postings, GroupKey(), AmountOf(), (a, In));
    GroupSumIsSum(groups, db.postings, GroupKey(), AmountOf(), (a, Out));
    BalanceSplits(db.postings, a);
  }

  /** What `reverse` leaves after the payments in `done`. */
  function NotOneOf(done: seq<Payment>): Posting -> bool {
    (p: Posting) => !(p.source == SalesPayment && exists q :: q in done && q.id == p.sourceId)
  }

  function OnSale(sale: nat): Payment -> bool { (p: Payment) => p.sale == sale }

  class Agency {
    var customers: seq<Customer>
    var accounts: seq<Account>
    var sales: seq<Sale>
    var payments: seq<Payment>
    var receipts: seq<Receipt>
    var transfers: seq<Transfer>
    var flows: seq<Flow>
    var postings: seq<Posting>
    var nextId: nat

    ghost function Tables(): Db
      reads this
    {
      Db(customers, accounts, sales, payments, receipts, transfers, flows, postings, nextId)
    }

    /** A call's answer and the tables after it are those of the whole call on the tables before it. */
    ghost predicate Did(outcome: Outcome, before: Db, error: Option<Error>)
      reads this
    {
      match outcome
      case Ok(db) => error.None? && Tables() == db
      case Err(e) => error == Some(e) && Tables() == before
    }

    method AssertPostableAccount(a: nat) returns (error: Option<Error>)
      ensures error == NotPostable(Tables(), a)
    {
      if |accounts| <= a || accounts[a].deleted {
        return Some(NotFound);
      }
      if !accounts[a].active {
        return Some(Inactive);
      }
      return None;
    }

    method Post(a: nat, direction: Direction, amount: int, source: Source, sourceId: nat) returns (error: Option<Error>)
      modifies this`postings
      ensures amount <= 0 ==> error == Some(Invalid)
      ensures amount > 0 ==> error == NotPostable(old(Tables()), a)
      ensures error.None? <==> amount > 0 && a < |accounts| && !accounts[a].deleted && accounts[a].active
      ensures postings == if error.None? then old(postings) + [Posting(a, direction, amount, source, sourceId)] else old(postings)
    {
      if amount <= 0 {
        return Some(Invalid);
      }
      error := AssertPostableAccount(a);
      if error.None? {
        postings := postings + [Posting(a, direction, amount, source, sourceId)];
      }
    }

    method ReverseKey(source: Source, sourceId: nat)
      modifies this`postings
      ensures postings == Reverse(old(postings), source, sourceId)
      ensures forall p :: p in postings <==> p in old(postings) && !(p.source == source && p.sourceId == sourceId)
      ensures forall a: nat ::
        Balance(postings, a) == old(Balance(postings, a)) - Sum(old(postings), KeyedOn(source, sourceId, a))
    {
      forall a: nat
        ensures Balance(Reverse(postings, source, sourceId), a) == Balance(postings, a) - Sum(postings, KeyedOn(source, sourceId, a))
      {
        ReverseMoves(postings, source, sourceId, a);
      }
      postings := Where(postings, NotFrom(source, sourceId));
    }

    /** `getBalances`: `groups` is the database's GROUP BY over the postings, in whatever order it came. */
    method GetBalances(groups: seq<((nat, Direction), int)>) returns (balances: seq<AccountBalance>)
      requires GroupedBy(groups, postings, GroupKey(), AmountOf())
      ensures Shows(Tables(), balances, |accounts|)
    {
      var sums: map<nat, (int, int)> := map[];
      for i := 0 to |groups|
        invariant forall a :: Get(sums, a, (0, 0)) == (GroupSum(groups[..i], (a, In)), GroupSum(groups[..i], (a, Out)))
      {
        var ((a, direction), amount) := groups[i];
        var entry := Get(sums, a, (0, 0));
        assert groups[..i + 1][..i] == groups[..i];
        // One row per (account, direction), so assigning loses nothing.
        sums := sums[a := if direction == In then (amount, entry.1) else (entry.0, amount)];
      }
      assert groups[..|groups|] == groups;
      balances := [];
      for a := 0 to |accounts|
        invariant Shows(Tables(), balances, a)
      {
        if !accounts[a].deleted {
          var (totalIn, totalOut) := Get(sums, a, (0, 0));
          RowIsRight(Tables(), groups, a);
          var row := AccountBalance(a, accounts[a].opening, totalIn, totalOut, totalIn - totalOut);
          balances := balances + [row];
        } else {
          ShowsNone(Tables(), balances, a);
        }
      }
    }

    /** `WalletService.assertCovers`. */
    method AssertCovers(c: nat, amount: int) returns (error: Option<Error>)
      ensures error == if amount > WalletBalance(Tables(), c) then Some(WalletShort) else None
    {
      var paidIn := PaidIn(receipts, c);
      var usedUp := 0;
      var kinds := [Ticket, Visa, Hajj, Tour, Hotel];
      for i := 0 to 5
        invariant usedUp == (if i > 0 then SpentOn(Tables(), c, Ticket) else 0) + (if i > 1 then SpentOn(Tables(), c, Visa) else 0)
          + (if i > 2 then SpentOn(Tables(), c, Hajj) else 0) + (if i > 3 then SpentOn(Tables(), c, Tour) else 0)
          + (if i > 4 then SpentOn(Tables(), c, Hotel) else 0)
      {
        usedUp := usedUp + Sum(payments, WalletSpend(sales, c, kinds[i]));
      }
      return if amount > paidIn - usedUp then Some(WalletShort) else None;
    }

    method RecordPayment(r: PayRequest) returns (error: Option<Error>)
      modifies this
      ensures Did(Calls.RecordPayment(old(Tables()), r), old(Tables()), error)
      ensures error.None? <==> Acceptance.PaymentFits(old(Tables()), r)
      ensures error.Some? ==> Acceptance.PaymentReason(old(Tables()), r, error.value)
      ensures error.None? ==> Effects.PaymentDone(old(Tables()), r, Tables())
    {
      PaymentIsPinned(Tables(), r);
      if r.amount <= 0 {
        return Some(Invalid);
      }
      if !r.fromWallet && r.account.None? {
        return Some(AccountRequired);
      }
      if |sales| <= r.sale || sales[r.sale].deleted {
        return Some(NotFound);
      }
      var sale := sales[r.sale];
      if r.fromWallet {
        if |customers| <= sale.customer || customers[sale.customer].deleted {
          return Some(NotFound);
        }
        error := AssertCovers(sale.customer, r.amount);
      } else {
        error := AssertPostableAccount(r.account.value);
      }
      if error.Some? {
        return;
      }
      var due := sale.price.Charge() - Sum(payments, AmountOn(r.sale));
      if r.amount > due {
        return Some(Overpaid);
      }
      InsertPayment(r);
    }

    /** The payment's row, and its posting unless it is paid from the wallet. */
    method InsertPayment(r: PayRequest)
      requires r.amount > 0 && (!r.fromWallet ==> r.account.Some? && Postable(Tables(), r.account.value))
      modifies `payments, `postings, `nextId
      ensures Tables() == AddPayment(old(Tables()), NewPayment(old(Tables()), r))
    {
      var id := nextId;
      nextId := nextId + 1;
      payments := payments + [Payment(id, r.sale, r.amount, r.fromWallet, if r.fromWallet then None else r.account, r.paidAt)];
      if !r.fromWallet {
        var error := Post(r.account.value, In, r.amount, SalesPayment, id);
      } else {
        assert postings + [] == postings;
      }
    }

    method DeletePayment(sale: nat, id: nat) returns (error: Option<Error>)
      modifies this
      ensures Did(Calls.DeletePayment(old(Tables()), sale, id), old(Tables()), error)
      ensures old(Ledger.Sound(Tables())) && error.None? ==> PaymentTakenBack(old(Tables()), Tables(), id)
    {
      if Ledger.Sound(Tables()) && Calls.DeletePayment(Tables(), sale, id).Ok? { PaymentGoesBack(Tables(), sale, id); }
      if !exists p :: p in payments && p.id == id && p.sale == sale {
        return Some(NotFound);
      }
      ReverseKey(SalesPayment, id);
      payments := Where(payments, OtherPayments(id));
      return None;
    }

    method ReverseEach(taken: seq<Payment>)
      modifies `postings
      ensures postings == Where(old(postings), NotOneOf(taken))
    {
      WhereAll(postings, NotOneOf([]));
      for i := 0 to |taken|
        invariant postings == Where(old(postings), NotOneOf(taken[..i]))
      {
        WhereTwice(old(postings), NotOneOf(taken[..i]), NotFrom(SalesPayment, taken[i].id), NotOneOf(taken[..i + 1]));
        ReverseKey(SalesPayment, taken[i].id);
      }
      assert taken[..|taken|] == taken;
    }

    method DeleteSale(sale: nat) returns (error: Option<Error>)
      modifies this
      ensures Did(Calls.DeleteSale(old(Tables()), sale), old(Tables()), error)
    {
      if |sales| <= sale || sales[sale].deleted {
        return Some(NotFound);
      }
      var taken := Where(payments, OnSale(sale));
      ReverseEach(taken);
      WhereSame(old(postings), NotOneOf(taken), NotPaidFor(payments, sale));
      payments := Where(payments, OnOtherSales(sale));
      sales := sales[sale := sales[sale].(deleted := true)];
      return None;
    }

    method CreateDueReceived(r: ReceiptRequest) returns (error: Option<Error>)
      modifies this
      ensures Did(CreateReceipt(old(Tables()), r), old(Tables()), error)
      ensures error.None? <==> Acceptance.ReceiptFits(old(Tables()), r)
      ensures error.Some? ==> Acceptance.ReceiptReason(old(Tables()), r, error.value)
      ensures error.None? ==> Effects.ReceiptDone(old(Tables()), r, Tables())
    {
      ReceiptIsPinned(Tables(), r);
      if r.amount1 <= 0 || r.amount2.GetOr(0) < 0 || r.discount.GetOr(0) < 0 {
        return Some(Invalid);
      }
      if |customers| <= r.customer || customers[r.customer].deleted {
        return Some(NotFound);
      }
      if r.account2 == Some(r.account1) {
        return Some(SameAccount);
      }
      if r.account2.Some? && r.amount2.GetOr(0) <= 0 {
        return Some(SecondAmountMissing);
      }
      error := AssertPostableAccount(r.account1);
      if error.Some? {
        return;
      }
      if r.account2.Some? {
        error := AssertPostableAccount(r.account2.value);
        if error.Some? {
          return;
        }
      }
      InsertReceipt(r);
    }

    /** The receipt's row, and one posting for each account that gets money. */
    method InsertReceipt(r: ReceiptRequest)
      requires r.amount1 > 0 && Postable(Tables(), r.account1)
      requires r.account2.Some? ==> Postable(Tables(), r.account2.value)
      modifies `receipts, `postings, `nextId
      ensures Tables() == AddReceipt(old(Tables()), NewReceipt(old(Tables()), r))
    {
      var id, amount2 := nextId, r.amount2.GetOr(0);
      nextId := nextId + 1;
      receipts := receipts
        + [Receipt(id, r.customer, r.account1, r.amount1, r.account2, amount2, r.discount.GetOr(0), r.date)];
      var error := Post(r.account1, In, r.amount1, DueReceived, id);
      if r.account2.Some? && amount2 > 0 {
        error := Post(r.account2.value, In, amount2, DueReceived, id);
      }
    }

    method DeleteDueReceived(id: nat) returns (error: Option<Error>)
      modifies this
      ensures Did(DeleteReceipt(old(Tables()), id), old(Tables()), error)
      ensures old(Ledger.Sound(Tables())) && error.None? ==> ReceiptTakenBack(old(Tables()), Tables(), id)
    {
      if Ledger.Sound(Tables()) && DeleteReceipt(Tables(), id).Ok? { ReceiptGoesBack(Tables(), id); }
      if !exists r :: r in receipts && r.id == id {
        return Some(NotFound);
      }
      ReverseKey(DueReceived, id);
      receipts := Where(receipts, OtherReceipts(id));
      return None;
    }

    method AssertSufficientBalance(a: nat, amount: int) returns (error: Option<Error>)
      ensures error == if !LiveAccount(Tables(), a) then Some(NotFound)
                       else if Balance(postings, a) < amount then Some(Insufficient) else None
    {
      if |accounts| <= a || accounts[a].deleted {
        return Some(NotFound);
      }
      BalanceSplits(postings, a);
      var current := Sum(postings, TotalOf(a, In)) - Sum(postings, TotalOf(a, Out));
      return if current < amount then Some(Insufficient) else None;
    }

    method CreateBalanceTransfer(r: TransferRequest) returns (error: Option<Error>)
      modifies this
      ensures Did(CreateTransfer(old(Tables()), r), old(Tables()), error)
      ensures error.None? <==> Acceptance.TransferFits(old(Tables()), r)
      ensures error.Some? ==> Acceptance.TransferReason(old(Tables()), r, error.value)
      ensures error.None? ==> Effects.TransferDone(old(Tables()), r, Tables())
    {
      TransferIsPinned(Tables(), r);
      if r.amount <= 0 {
        return Some(Invalid);
      }
      if r.source == r.target {
        return Some(SameAccount);
      }
      error := AssertSufficientBalance(r.source, r.amount);
      if error.Some? {
        return;
      }
      error := AssertPostableAccount(r.source);
      if error.Some? {
        return;
      }
      error := AssertPostableAccount(r.target);
      if error.Some? {
        return;
      }
      var id := nextId;
      nextId := nextId + 1;
      transfers := transfers + [Transfer(id, r.source, r.target, r.amount)];
      error := Post(r.source, Out, r.amount, TransferOut, id);
      error := Post(r.target, In, r.amount, TransferIn, id);
    }

    method DeleteBalanceTransfer(id: nat) returns (error: Option<Error>)
      modifies this
      ensures Did(DeleteTransfer(old(Tables()), id), old(Tables()), error)
      ensures old(Ledger.Sound(Tables())) && error.None? ==> TransferTakenBack(old(Tables()), Tables(), id)
    {
      ghost var before := Tables();
      if !exists t :: t in transfers && t.id == id {
        return Some(NotFound);
      }
      ReverseKey(TransferOut, id);
      ReverseKey(TransferIn, id);
      transfers := Where(transfers, OtherTransfers(id));
      assert DeleteTransfer(before, id) == Ok(Tables());
      if Ledger.Sound(before) { TransferGoesBack(before, id); }
      return None;
    }

    /** `updateBooking`, as far as it moves a tour's or hotel stay's price. */
    method UpdateBooking(sale: nat, sell: int) returns (error: Option<Error>)
      modifies this
      ensures Did(Reprice(old(Tables()), sale, sell), old(Tables()), error)
      ensures error.None? <==> Acceptance.Accepted(old(Tables()), Edit(sale, sell))
      ensures error.None? ==> sale < |sales| && Effects.SaleAfter(old(Tables()), Edit(sale, sell), sale, sales[sale])
      ensures error.None? ==> Paid(payments, sale) <= sales[sale].price.Charge() == sell
      ensures old(ProtocolSafety.NoneOverpaid(Tables())) ==> ProtocolSafety.NoneOverpaid(Tables())
    {
      Acceptance.AcceptedExactlyWhen(Tables(), Edit(sale, sell));
      if sell < 0 {
        return Some(Invalid);
      }
      if |sales| <= sale || sales[sale].deleted || sales[sale].price.Kind() !in {Tour, Hotel} {
        return Some(NotFound);
      }
      var totalPaid := Sum(payments, AmountOn(sale));
      if sell < totalPaid {
        return Some(PriceBelowPaid);
      }
      var price := sales[sale].price;
      sales := sales[sale := sales[sale].(price :=
        if price.TourPrice? then price.(tourSell := sell) else price.(hotelSell := sell))];
      return None;
    }

    /**
     * `updateTicket`, `recordDateChange`, `changeTicketStatus` or `updateVisaCase`, as far as it
     * moves the charge or the owner. Nothing looks at what was paid.
     */
    method UpdateCase(sale: nat, a: Amendment) returns (error: Option<Error>)
      modifies this
      ensures Did(AmendSale(old(Tables()), sale, a), old(Tables()), error)
      ensures error.None? <==> Acceptance.AmendmentFits(old(Tables()), sale, a)
      ensures error.None? ==> sale < |sales| && Effects.SaleAfter(old(Tables()), Amend(sale, a), sale, sales[sale])
      ensures error.None? && old(ProtocolSafety.NoneOverpaid(Tables())) ==>
                (ProtocolSafety.NoneOverpaid(Tables()) <==> Paid(payments, sale) <= sales[sale].price.Charge())
    {
      Acceptance.AcceptedExactlyWhen(Tables(), Amend(sale, a));
      if !Sensible(a) {
        return Some(Invalid);
      }
      if |sales| <= sale || sales[sale].deleted || Amended(sales[sale].price, a).None? {
        return Some(NotFound);
      }
      var owner := sales[sale].customer;
      if a.TicketEdit? && a.owner.Some? {
        if |customers| <= a.owner.value || customers[a.owner.value].deleted {
          return Some(NotFound);
        }
        owner := a.owner.value;
      }
      ghost var before := Tables();
      sales := sales[sale := sales[sale].(customer := owner, price := Amended(sales[sale].price, a).value)];
      assert forall s :: 0 <= s < |sales| && s != sale ==> sales[s] == before.sales[s];
      return None;
    }
  }
}

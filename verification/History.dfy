/**
 * The rows of a trading-history spreadsheet, the natural keys that keep one from
 * being imported twice, and which ticket rows a pass creates.
 *
 * A row is its already-read fields. How text is normalised and upper-cased is a
 * parameter, so every statement holds for any Unicode rule.
 */
module History {
  import opened Wrappers

  datatype Text = Text(normalise: string -> string, upper: string -> string, sameName: (string, string) -> bool)

  /** The lists loaded before the first row; the import adds only to the categories. */
  datatype Lists = Lists(
    customer: (Option<string>, string) -> Option<nat>,
    supplier: string -> Option<nat>,
    account: Option<string> -> Option<nat>)

  const MS_PER_DAY := 86_400_000

  function Day(time: int): int { time / MS_PER_DAY }

  /* --------------------------- money movements ------------------------- */

  datatype Tab = Collections | SupplierPayments | Expenses | Capital | ProfitWithdrawals

  datatype Movement =
    | Collection(customer: nat, date: int, amount: int, account: nat)
    | SupplierPayment(supplier: nat, date: int, amount: int, account: nat)
    | Expense(category: nat, date: int, amount: int, account: nat)
    | CapitalFlow(invested: bool, owner: string, date: int, amount: int, account: nat)
    | ProfitWithdrawal(receivedBy: string, date: int, amount: int, account: nat)
  {
    function Tab(): Tab {
      match this
      case Collection(_, _, _, _) => Collections
      case SupplierPayment(_, _, _, _) => SupplierPayments
      case Expense(_, _, _, _) => Expenses
      case CapitalFlow(_, _, _, _, _) => Capital
      case ProfitWithdrawal(_, _, _, _) => ProfitWithdrawals
    }
  }

  datatype Key =
    | PartyKey(tab: Tab, party: nat, day: int, amount: int, account: nat)
    | FlowKey(invested: bool, owner: string, day: int, amount: int, account: nat)
    | WithdrawalKey(receivedBy: string, day: int, amount: int, account: nat)

  function KeyOf(text: Text, m: Movement): Key {
    match m
    case Collection(c, date, amount, account) => PartyKey(Collections, c, Day(date), amount, account)
    case SupplierPayment(s, date, amount, account) => PartyKey(SupplierPayments, s, Day(date), amount, account)
    case Expense(c, date, amount, account) => PartyKey(Expenses, c, Day(date), amount, account)
    case CapitalFlow(invested, owner, date, amount, account) =>
      FlowKey(invested, text.normalise(owner), Day(date), amount, account)
    case ProfitWithdrawal(who, date, amount, account) => WithdrawalKey(text.normalise(who), Day(date), amount, account)
  }

  /** One row of any of the five money tabs; `withdrawn` is the second column of the capital tab. */
  datatype Line = Line(
    date: Option<int>, name: Option<string>, phone: Option<string>,
    amount: Option<int>, withdrawn: Option<int>, account: Option<string>)

  /** What a row of a tab other than expenses asks to be written, if it is complete and every name is known. */
  function Plan(lists: Lists, tab: Tab, line: Line): Option<Movement> {
    if line.date.None? || line.name.None? then None
    else if tab == Capital then
      var invested, withdrawn := line.amount.GetOr(0), line.withdrawn.GetOr(0);
      if invested <= 0 && withdrawn <= 0 then None
      else if lists.account(line.account).None? then None
      else Some(CapitalFlow(invested > 0, line.name.value, line.date.value, if invested > 0 then invested else withdrawn,
                            lists.account(line.account).value))
    else if line.amount.None? || line.amount.value <= 0 || lists.account(line.account).None? then None
    else
      var date, amount, account := line.date.value, line.amount.value, lists.account(line.account).value;
      match tab
      case Collections =>
        (match lists.customer(line.phone, line.name.value)
         case Some(c) => Some(Collection(c, date, amount, account))
         case None => None)
      case SupplierPayments =>
        (match lists.supplier(line.name.value)
         case Some(s) => Some(SupplierPayment(s, date, amount, account))
         case None => None)
      case ProfitWithdrawals => Some(ProfitWithdrawal(line.name.value, date, amount, account))
      case _ => None
  }

  /** An expense row is complete when it has a day, a category, an amount and a known account. */
  predicate CompleteExpense(lists: Lists, line: Line) {
    line.date.Some? && line.name.Some? && line.amount.Some? && line.amount.value > 0 && lists.account(line.account).Some?
  }

  datatype Category = Category(id: nat, name: string, deleted: bool)

  /** The name lookup over the live categories; a later one wins. */
  function ByName(text: Text, categories: seq<Category>): map<string, nat> {
    if categories == [] then map[]
    else
      var last := categories[|categories| - 1];
      var before := ByName(text, categories[..|categories| - 1]);
      if last.deleted then before else before[text.normalise(last.name) := last.id]
  }

  /* ------------------------------- tickets ----------------------------- */

  datatype TicketStatus = Issued | Reissued | Refunded | Void

  /** `TICKET_TRANSITIONS`. */
  predicate Allowed(from: TicketStatus, to: TicketStatus) {
    match from
    case Issued => to != Issued
    case Reissued => to == Refunded || to == Void
    case Refunded => false
    case Void => false
  }

  /** `TICKET_STATUS_MAP`, over the normalised word. */
  function StatusWord(word: string): Option<TicketStatus> {
    if word in {"delivered", "issued", "pending"} then Some(Issued)
    else if word in {"reissued", "date changed"} then Some(Reissued)
    else if word in {"refunded", "refund"} then Some(Refunded)
    else if word in {"cancelled", "canceled", "void"} then Some(Void)
    else None
  }

  datatype TicketRow = TicketRow(
    pnr: Option<string>, issueDate: Option<int>, passenger: Option<string>, phone: Option<string>,
    cost: Option<int>, fare: Option<int>, paid: Option<int>, paidInto: Option<string>,
    changeCost: Option<int>, changeFee: Option<int>, newTravelDate: Option<int>, changedAt: Option<int>,
    changePaid: Option<int>, changePaidInto: Option<string>, status: Option<string>)

  /** A stored ticket's own columns; its price and customer are on its sale. */
  datatype Ticket = Ticket(sale: nat, pnr: string, issueDate: Option<int>, status: TicketStatus,
                           cost: int, changeCost: int, profit: int)

  datatype TicketKey = TicketKey(pnr: string, day: Option<int>)

  predicate Complete(r: TicketRow) {
    r.pnr.Some? && r.issueDate.Some? && r.passenger.Some? && r.cost.Some? && r.fare.Some?
  }

  /** The row is complete and its customer is known: it is written unless its key is already there. */
  predicate Importable(lists: Lists, r: TicketRow) {
    Complete(r) && lists.customer(r.phone, r.passenger.value).Some?
  }

  /** The key a row is looked up under. */
  function RowKey(text: Text, r: TicketRow): TicketKey
    requires Complete(r)
  {
    TicketKey(text.normalise(r.pnr.value), Some(Day(r.issueDate.value)))
  }

  /** The key the ticket made from a row has later: its PNR was stored upper-cased. */
  function StoredKey(text: Text, r: TicketRow): TicketKey
    requires Complete(r)
  {
    TicketKey(text.normalise(text.upper(r.pnr.value)), Some(Day(r.issueDate.value)))
  }

  /** Upper-casing the row's PNR does not change what it normalises to. */
  predicate Stable(text: Text, r: TicketRow) {
    r.pnr.Some? && text.normalise(text.upper(r.pnr.value)) == text.normalise(r.pnr.value)
  }

  predicate Creates(text: Text, lists: Lists, r: TicketRow, seen: set<TicketKey>) {
    Importable(lists, r) && RowKey(text, r) !in seen
  }

  /** The rows one pass writes: importable, and the first under their key. */
  function Fresh(text: Text, lists: Lists, rows: seq<TicketRow>, seen: set<TicketKey>): (added: seq<TicketRow>)
    ensures forall r :: r in added ==> r in rows && Importable(lists, r)
  {
    if rows == [] then []
    else
      var before := Fresh(text, lists, rows[..|rows| - 1], seen);
      var last := rows[|rows| - 1];
      if Creates(text, lists, last, seen + RowKeys(text, before)) then before + [last] else before
  }

  function RowKeys(text: Text, rows: seq<TicketRow>): set<TicketKey> {
    set r | r in rows && Complete(r) :: RowKey(text, r)
  }

  function StoredKeys(text: Text, rows: seq<TicketRow>): set<TicketKey> {
    set r | r in rows && Complete(r) :: StoredKey(text, r)
  }

  ghost predicate AllSeen(text: Text, lists: Lists, rows: seq<TicketRow>, seen: set<TicketKey>) {
    forall r :: r in rows && Importable(lists, r) ==> RowKey(text, r) in seen
  }

  lemma {:induction false} NothingFreshIff(text: Text, lists: Lists, rows: seq<TicketRow>, seen: set<TicketKey>)
    ensures Fresh(text, lists, rows, seen) == [] <==> AllSeen(text, lists, rows, seen)
  {
    if rows != [] {
      var init, last := rows[..|rows| - 1], rows[|rows| - 1];
      assert rows == init + [last];
      NothingFreshIff(text, lists, init, seen);
    }
  }

  /** What a first pass over the rows leaves as the keys of the books. */
  function KeysAfter(text: Text, lists: Lists, rows: seq<TicketRow>, books: set<TicketKey>): set<TicketKey> {
    books + StoredKeys(text, Fresh(text, lists, rows, books))
  }

  lemma {:induction false} FreshCoversRows(text: Text, lists: Lists, rows: seq<TicketRow>, seen: set<TicketKey>)
    ensures AllSeen(text, lists, rows, seen + RowKeys(text, Fresh(text, lists, rows, seen)))
  {
    if rows != [] {
      var init, last := rows[..|rows| - 1], rows[|rows| - 1];
      assert rows == init + [last];
      FreshCoversRows(text, lists, init, seen);
    }
  }

  /** When upper-casing is harmless on every importable row, a second pass has nothing to write. */
  lemma StableRowsAreAllSeen(text: Text, lists: Lists, rows: seq<TicketRow>, books: set<TicketKey>)
    requires forall r :: r in rows && Importable(lists, r) ==> Stable(text, r)
    ensures Fresh(text, lists, rows, KeysAfter(text, lists, rows, books)) == []
  {
    var added := Fresh(text, lists, rows, books);
    FreshCoversRows(text, lists, rows, books);
    forall r | r in added ensures RowKey(text, r) == StoredKey(text, r) {
      assert r in rows && Importable(lists, r);
    }
    assert RowKeys(text, added) == StoredKeys(text, added);
    NothingFreshIff(text, lists, rows, KeysAfter(text, lists, rows, books));
  }

  /**
   * Exactly when a second pass adds no ticket: each importable row's key is one the
   * books had before the first pass, or the stored key of a row that pass wrote.
   */
  lemma RerunAddsNothingIff(text: Text, lists: Lists, rows: seq<TicketRow>, books: set<TicketKey>)
    ensures Fresh(text, lists, rows, KeysAfter(text, lists, rows, books)) == [] <==>
            forall r :: r in rows && Importable(lists, r) ==>
              || RowKey(text, r) in books
              || (exists w :: w in Fresh(text, lists, rows, books) && StoredKey(text, w) == RowKey(text, r))
  {
    NothingFreshIff(text, lists, rows, KeysAfter(text, lists, rows, books));
  }

  /** A row alone under its day, new to the books, is imported again exactly when it is not stable. */
  lemma LoneRowRepeatsIff(text: Text, lists: Lists, r: TicketRow, books: set<TicketKey>)
    requires Creates(text, lists, r, books)
    ensures Fresh(text, lists, [r], KeysAfter(text, lists, [r], books)) == [] <==> Stable(text, r)
  {
    var init: seq<TicketRow> := [];
    assert [r][..0] == init && RowKeys(text, init) == {};
    assert books + RowKeys(text, init) == books;
    assert Fresh(text, lists, [r], books) == [r];
    NothingFreshIff(text, lists, [r], KeysAfter(text, lists, [r], books));
  }

  const ESZETT := "\U{00DF}"

  /** Unicode upper-cases sharp s to two letters, which normalise to two letters and not back to it. */
  predicate SpellsOutSharpS(text: Text) {
    text.upper(ESZETT) == "SS" && text.normalise("SS") == "ss" && text.normalise(ESZETT) == ESZETT
  }

  /** So every row whose PNR is a sharp s, once imported, is imported again, whatever the books and the lists. */
  lemma SharpSRepeats(text: Text, lists: Lists, r: TicketRow, books: set<TicketKey>)
    requires SpellsOutSharpS(text) && r.pnr == Some(ESZETT) && Creates(text, lists, r, books)
    ensures Fresh(text, lists, [r], KeysAfter(text, lists, [r], books)) == [r]
  {
    LoneRowRepeatsIff(text, lists, r, books);
    assert ESZETT[0] != "ss"[0];
    assert [r][..0] == [];
  }

  lemma SharpSHappens() returns (text: Text, lists: Lists, r: TicketRow)
    ensures SpellsOutSharpS(text) && r.pnr == Some(ESZETT) && Creates(text, lists, r, {})
  {
    text := Text((s: string) => if s == "SS" then "ss" else s, (s: string) => if s == ESZETT then "SS" else s,
                 (a: string, b: string) => a == b);
    lists := Lists((phone: Option<string>, name: string) => Some(0), (name: string) => None, (name: Option<string>) => None);
    r := TicketRow(Some(ESZETT), Some(0), Some("A"), None, Some(1), Some(1),
                   None, None, None, None, None, None, None, None, None);
    assert ESZETT[0] == '\U{00DF}' && "ss"[0] == 's';
  }

  /* ------------------------- the money on one row ---------------------- */

  datatype Taken = Taken(account: nat, amount: int, paidAt: int)

  function ChangeFee(r: TicketRow): int { r.changeFee.GetOr(0) }
  function ChangeCost(r: TicketRow): int { r.changeCost.GetOr(0) }

  predicate ChangesDate(r: TicketRow) { ChangeCost(r) != 0 || ChangeFee(r) != 0 || r.newTravelDate.Some? }

  /** The `take` closure: at most what is still owed, and only into a known account. */
  function Take(owed: int, amount: Option<int>, account: Option<nat>, paidAt: int): (t: Option<Taken>)
    ensures t.Some? ==> 0 < t.value.amount <= owed && amount.Some? && t.value.amount <= amount.value
    // Nothing payable is left out, and what is taken is all of it or all that is owed.
    ensures t.Some? <==> amount.Some? && account.Some? && amount.value > 0 && owed > 0
    ensures t.Some? ==> (t.value.amount == amount.value || t.value.amount == owed) && account == Some(t.value.account) && t.value.paidAt == paidAt
  {
    if amount.None? || amount.value <= 0 || account.None? then None
    else
      var taken := if amount.value < owed then amount.value else owed;
      if taken <= 0 then None else Some(Taken(account.value, taken, paidAt))
  }

  function After(owed: int, t: Option<Taken>): int { if t.Some? then owed - t.value.amount else owed }
}

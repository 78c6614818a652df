/** Page numbers from a query string, and why a list read page by page loses and repeats nothing. */
module Paging {
  import opened Wrappers
  import opened Sorting

  const DEFAULT_PAGE_SIZE := 10
  const MAX_PAGE_SIZE := 200
  const MAX_SKIP := 2_000_000_000
  const MAX_SAFE_INTEGER := 9_007_199_254_740_991

  /* --------------------------- whole numbers --------------------------- */

  predicate IsSpace(c: char) {
    c in {' ', '\t', '\n', '\r', '\U{000B}', '\U{000C}', '\U{00A0}', '\U{1680}', '\U{2028}', '\U{2029}', '\U{202F}',
          '\U{205F}', '\U{3000}', '\U{FEFF}'} || '\U{2000}' <= c <= '\U{200A}'
  }

  predicate IsDigit(c: char) { '0' <= c <= '9' }

  function TrimStart(s: string): string { if s != "" && IsSpace(s[0]) then TrimStart(s[1..]) else s }

  function TrimEnd(s: string): string { if s != "" && IsSpace(s[|s| - 1]) then TrimEnd(s[..|s| - 1]) else s }

  function Trim(s: string): string { TrimEnd(TrimStart(s)) }

  predicate AllDigits(s: string) { s != "" && forall i :: 0 <= i < |s| ==> IsDigit(s[i]) }

  function Value(digits: string): nat
    requires forall i :: 0 <= i < |digits| ==> IsDigit(digits[i])
  {
    if digits == "" then 0
    else
      var last := digits[|digits| - 1];
      assert IsDigit(last);
      10 * Value(digits[..|digits| - 1]) + (last as int - '0' as int)
  }

  /** A positive whole number small enough to be exact, or the fallback. */
  function PositiveInteger(value: Option<string>, fallback: nat): (n: nat)
    requires fallback > 0
    ensures n > 0
  {
    if value.None? || !AllDigits(Trim(value.value)) then fallback
    else
      var parsed := Value(Trim(value.value));
      if 0 < parsed <= MAX_SAFE_INTEGER then parsed else fallback
  }

  function Decimal(n: nat): (s: string)
    ensures AllDigits(s)
  {
    if n < 10 then ['0' + n as char] else Decimal(n / 10) + ['0' + (n % 10) as char]
  }

  lemma {:induction false} DecimalValue(n: nat)
    ensures Value(Decimal(n)) == n
  {
    if n >= 10 {
      DecimalValue(n / 10);
      assert Decimal(n)[..|Decimal(n)| - 1] == Decimal(n / 10);
    } else {
      assert Decimal(n)[..0] == "";
    }
  }

  /** Written out, a number small enough to be exact is read back as itself; above that, or zero, it is refused. */
  lemma ReadsBack(n: nat, fallback: nat)
    requires fallback > 0
    ensures PositiveInteger(Some(Decimal(n)), fallback) == if 0 < n <= MAX_SAFE_INTEGER then n else fallback
  {
    DecimalValue(n);
  }

  /* ---------------------------- arithmetic ----------------------------- */

  /** `a * b`, kept as repeated addition so that proofs stay linear. */
  function Times(a: nat, b: nat): nat { if a == 0 then 0 else Times(a - 1, b) + b }

  lemma {:induction false} TimesIsProduct(a: nat, b: nat)
    ensures Times(a, b) == a * b
  {
    if a > 0 {
      TimesIsProduct(a - 1, b);
    }
  }

  lemma {:induction false} TimesLe(a: nat, b: nat, c: nat)
    requires a <= b
    ensures Times(a, c) <= Times(b, c)
  {
    if a < b {
      TimesLe(a, b - 1, c);
    }
  }

  lemma DivBounds(a: nat, b: nat)
    requires b > 0
    ensures Times(a / b, b) <= a < Times(a / b, b) + b
  {
    TimesIsProduct(a / b, b);
  }

  function CeilDiv(total: nat, limit: nat): nat
    requires limit > 0
  {
    (total + limit - 1) / limit
  }

  lemma CeilBounds(total: nat, limit: nat)
    requires limit > 0
    ensures total <= Times(CeilDiv(total, limit), limit) <= total + limit - 1
  {
    DivBounds(total + limit - 1, limit);
  }

  lemma CeilFits(total: nat, limit: nat, most: nat)
    requires limit > 0 && total <= most
    ensures CeilDiv(total, limit) <= most / limit + 1
  {
    CeilBounds(total, limit);
    DivBounds(most, limit);
    var floor := most / limit;
    if CeilDiv(total, limit) > floor + 1 {
      TimesLe(floor + 2, CeilDiv(total, limit), limit);
    }
  }

  /* ------------------------------ windows ------------------------------ */

  datatype Window = Window(page: nat, limit: nat, skip: nat)

  function Min(a: nat, b: nat): nat { if a <= b then a else b }

  function LimitOf(limit: Option<string>): (n: nat)
    ensures 1 <= n <= MAX_PAGE_SIZE
  {
    Min(PositiveInteger(limit, DEFAULT_PAGE_SIZE), MAX_PAGE_SIZE)
  }

  function Paginate(limit: Option<string>, page: Option<string>): Window {
    var size := LimitOf(limit);
    var number := Min(PositiveInteger(page, 1), MAX_SKIP / size + 1);
    Window(number, size, Times(number - 1, size))
  }

  /** The page size asked for is the one used, up to the largest allowed; anything else gives the usual one. */
  lemma LimitIsAsAsked(n: nat)
    ensures LimitOf(None) == DEFAULT_PAGE_SIZE
    ensures LimitOf(PageText(n)) == if 0 < n <= MAX_SAFE_INTEGER then Min(n, MAX_PAGE_SIZE) else DEFAULT_PAGE_SIZE
  {
    ReadsBack(n, DEFAULT_PAGE_SIZE);
  }

  /** Whatever the two strings are, the page asked of the database is a sane one. */
  lemma WindowIsSane(limit: Option<string>, page: Option<string>)
    ensures var w := Paginate(limit, page);
            1 <= w.limit <= MAX_PAGE_SIZE && 1 <= w.page && w.skip == Times(w.page - 1, w.limit) <= MAX_SKIP
  {
    var w := Paginate(limit, page);
    TimesLe(w.page - 1, MAX_SKIP / w.limit, w.limit);
    DivBounds(MAX_SKIP, w.limit);
  }

  /* -------------------------------- pages ------------------------------ */

  /** `skip` and `take` on an ordered result. */
  function Slice<T>(rows: seq<T>, skip: nat, take: nat): seq<T> {
    if skip >= |rows| then [] else rows[skip..Min(skip + take, |rows|)]
  }

  function PageText(n: nat): Option<string> { Some(Decimal(n)) }

  /** Pages 1 to n, one after another, as a reader steps through them. */
  function Pages<T>(rows: seq<T>, limit: Option<string>, n: nat): seq<T> {
    if n == 0 then []
    else
      var w := Paginate(limit, PageText(n));
      Pages(rows, limit, n - 1) + Slice(rows, w.skip, w.limit)
  }

  lemma PageIsReached(limit: Option<string>, total: nat, n: nat)
    requires total <= MAX_SKIP && 0 < n <= CeilDiv(total, LimitOf(limit))
    ensures Paginate(limit, PageText(n)) == Window(n, LimitOf(limit), Times(n - 1, LimitOf(limit)))
  {
    var size := LimitOf(limit);
    CeilFits(total, size, MAX_SKIP);
    assert MAX_SKIP / size <= MAX_SKIP;
    ReadsBack(n, 1);
  }

  lemma PageStarts(total: nat, size: nat, n: nat)
    requires size > 0 && 0 < n <= CeilDiv(total, size)
    ensures Times(n - 1, size) < total && Times(n, size) == Times(n - 1, size) + size
  {
    CeilBounds(total, size);
    TimesLe(n, CeilDiv(total, size), size);
  }

  lemma PageContinues<T>(rows: seq<T>, start: nat, size: nat)
    requires start < |rows|
    ensures rows[..start] + Slice(rows, start, size) == rows[..Min(start + size, |rows|)]
  {
  }

  lemma {:induction false} PagesArePrefix<T>(rows: seq<T>, limit: Option<string>, n: nat)
    requires |rows| <= MAX_SKIP && n <= CeilDiv(|rows|, LimitOf(limit))
    ensures Pages(rows, limit, n) == rows[..Min(Times(n, LimitOf(limit)), |rows|)]
  {
    if n > 0 {
      var size := LimitOf(limit);
      PagesArePrefix(rows, limit, n - 1);
      PageIsReached(limit, |rows|, n);
      PageStarts(|rows|, size, n);
      PageContinues(rows, Times(n - 1, size), size);
    }
  }

  /** Pages 1 to `totalPages` put together are the whole ordered result, each row once. */
  lemma PagesAreEverything<T>(rows: seq<T>, limit: Option<string>)
    requires |rows| <= MAX_SKIP
    ensures Pages(rows, limit, CeilDiv(|rows|, LimitOf(limit))) == rows
  {
    PagesArePrefix(rows, limit, CeilDiv(|rows|, LimitOf(limit)));
    CeilBounds(|rows|, LimitOf(limit));
  }

  /* ----------------------- one order for every page -------------------- */

  /** The database sorted the matching rows anew for every page. */
  ghost predicate SortedAnswers<T(!new)>(answers: seq<seq<T>>, rows: multiset<T>, le: (T, T) -> bool) {
    forall i :: 0 <= i < |answers| ==> multiset(answers[i]) == rows && Ordered(answers[i], le)
  }

  /** The page cut from each answer, one after another. */
  function PagesOf<T>(answers: seq<seq<T>>, limit: Option<string>): seq<T> {
    if answers == [] then []
    else
      var w := Paginate(limit, PageText(|answers|));
      PagesOf(answers[..|answers| - 1], limit) + Slice(answers[|answers| - 1], w.skip, w.limit)
  }

  lemma PagesOfAppend<T>(answers: seq<seq<T>>, last: seq<T>, limit: Option<string>)
    ensures var w := Paginate(limit, PageText(|answers| + 1));
            PagesOf(answers + [last], limit) == PagesOf(answers, limit) + Slice(last, w.skip, w.limit)
  {
    assert (answers + [last])[..|answers|] == answers;
  }

  lemma {:induction false} PagesOfOneOrder<T(!new)>(answers: seq<seq<T>>, rows: seq<T>, limit: Option<string>, le: (T, T) -> bool)
    requires Ordered(rows, le) && SortedAnswers(answers, multiset(rows), le) && NoTies(multiset(rows), le)
    ensures PagesOf(answers, limit) == Pages(rows, limit, |answers|)
  {
    if answers != [] {
      var last := answers[|answers| - 1];
      assert SortedAnswers(answers[..|answers| - 1], multiset(rows), le);
      PagesOfOneOrder(answers[..|answers| - 1], rows, limit, le);
      OrderIsUnique(last, rows, le);
    }
  }

  /**
   * Even when each page is a query of its own, stepping through every page shows each
   * matching row exactly once, for any limit string and any order without ties.
   */
  lemma PagingLosesNothing<T(!new)>(answers: seq<seq<T>>, matching: seq<T>, limit: Option<string>, le: (T, T) -> bool)
    requires |matching| <= MAX_SKIP && |answers| == CeilDiv(|matching|, LimitOf(limit))
    requires TotalPreorder(le) && NoTies(multiset(matching), le) && SortedAnswers(answers, multiset(matching), le)
    ensures multiset(PagesOf(answers, limit)) == multiset(matching)
    ensures Ordered(PagesOf(answers, limit), le)
  {
    var rows := Sort(matching, le);
    SortOrders(matching, le);
    PagesOfOneOrder(answers, rows, limit, le);
    PagesAreEverything(rows, limit);
  }
}

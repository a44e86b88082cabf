/**
 * The paging arithmetic of the recent-transactions panel: the number of
 * pages, the window of transactions shown for a page, the guard that decides
 * whether the pager is drawn, and the panel that every account tab receives.
 *
 * Transactions are kept in the order they arrive; nothing here sorts them.
 * `page` is an arbitrary integer, and the window is cut with the rules of
 * JavaScript's `Array.prototype.slice`, which counts a negative index from
 * the end of the array.
 */
module RecentTransactions {
  import opened Wrappers

  /** Rows shown on one page. */
  const RowsPerPage: nat := 10

  function Min(a: int, b: int): int { if a <= b then a else b }
  function Max(a: int, b: int): int { if a <= b then b else a }

  /**
   * Applies `f` to every element, keeping the order. A helper for stating
   * `PaginateIgnoresValues`; the panel itself maps over lists only to render.
   */
  function MapSeq<T, U>(f: T -> U, xs: seq<T>): (r: seq<U>)
    ensures |r| == |xs|
    ensures forall k :: 0 <= k < |r| ==> r[k] == f(xs[k])
  {
    seq(|xs|, k requires 0 <= k < |xs| => f(xs[k]))
  }

  /**
   * Where `slice` puts an index argument `i` in an array of length `len`:
   * a negative index counts back from the end, and the result is clamped to
   * `0 .. len`.
   */
  function SliceIndex(len: nat, i: int): (r: nat)
    ensures r <= len
    ensures 0 <= i <= len ==> r == i
    ensures i > len ==> r == len
    ensures i < 0 && len + i >= 0 ==> r == len + i
    ensures len + i < 0 ==> r == 0
  {
    if i < 0 then Max(len + i, 0) else Min(i, len)
  }

  /**
   * `xs.slice(start, end)`: the elements from position `SliceIndex(start)`
   * up to, not including, `SliceIndex(end)`; empty when the end does not lie
   * after the start.
   */
  function Slice<T>(xs: seq<T>, start: int, end: int): (r: seq<T>)
    ensures var from, to := SliceIndex(|xs|, start), SliceIndex(|xs|, end);
            |r| == Max(to - from, 0) &&
            forall k :: 0 <= k < |r| ==> r[k] == xs[from + k]
  {
    var from, to := SliceIndex(|xs|, start), SliceIndex(|xs|, end);
    if from < to then xs[from..to] else []
  }

  /** `Math.ceil(count / RowsPerPage)`: the smallest page count that holds `count` rows. */
  function TotalPages(count: nat): (r: nat)
    ensures count <= r * RowsPerPage
    ensures r == 0 || (r - 1) * RowsPerPage < count
  {
    (count + RowsPerPage - 1) / RowsPerPage
  }

  /**
   * `currentTransactions`: the transactions of page `page`, cut out of the
   * list between `(page - 1) * RowsPerPage` and `page * RowsPerPage`.
   */
  function Paginate<T>(transactions: seq<T>, page: int): (r: seq<T>)
    ensures |r| <= RowsPerPage
    ensures |r| <= |transactions|
  {
    var indexOfLast := page * RowsPerPage;
    var indexOfFirst := indexOfLast - RowsPerPage;
    Slice(transactions, indexOfFirst, indexOfLast)
  }

  /**
   * The guard `totalPages > 1` in front of the pager. For any list whose page
   * count this is, the pager is drawn exactly when the list has more than
   * `RowsPerPage` rows.
   */
  predicate ShowPager(totalPages: int)
    ensures forall count: nat {:trigger TotalPages(count)} ::
              TotalPages(count) == totalPages ==> (ShowPager(totalPages) <==> count > RowsPerPage)
  {
    totalPages > 1
  }

  /**
   * For a page numbered from 1, the window is exactly the run of
   * transactions from position `(page - 1) * RowsPerPage` to
   * `page * RowsPerPage`, cut short at the end of the list, and empty when
   * it starts at or past the end.
   */
  lemma PageWindow<T>(transactions: seq<T>, page: int)
    requires page >= 1
    ensures var lo := (page - 1) * RowsPerPage;
            lo <= |transactions| ==>
              Paginate(transactions, page) == transactions[lo..Min(page * RowsPerPage, |transactions|)]
    ensures (page - 1) * RowsPerPage >= |transactions| ==> Paginate(transactions, page) == []
  {
  }

  /**
   * For a page numbered from 1: the page is empty exactly when it lies past
   * the last page, and a page up to the last holds `RowsPerPage` rows, or
   * the rest of the list on the last page.
   */
  lemma PageEmptyIffPastLast<T>(transactions: seq<T>, page: int)
    requires page >= 1
    ensures Paginate(transactions, page) == [] <==> page > TotalPages(|transactions|)
    ensures page <= TotalPages(|transactions|) ==>
              |Paginate(transactions, page)| == Min(RowsPerPage, |transactions| - (page - 1) * RowsPerPage)
  {
  }

  /**
   * Every page, whatever its number, is a contiguous run of the input in
   * its original order: the run that starts where `slice` puts the first
   * index.
   */
  lemma PageIsContiguous<T>(transactions: seq<T>, page: int)
    ensures var lo := SliceIndex(|transactions|, page * RowsPerPage - RowsPerPage);
            var r := Paginate(transactions, page);
            lo + |r| <= |transactions| && r == transactions[lo..lo + |r|]
  {
  }

  /**
   * Paging looks at positions only, never at the transactions themselves:
   * transforming every transaction and then paging gives the page of the
   * untransformed list, transformed. In particular no ordering by date or
   * amount is applied.
   */
  lemma PaginateIgnoresValues<T, U>(f: T -> U, transactions: seq<T>, page: int)
    ensures Paginate(MapSeq(f, transactions), page) == MapSeq(f, Paginate(transactions, page))
  {
  }

  /**
   * A page numbered 0 or below is not rejected: `slice` counts its negative
   * indices from the end. Page 0 asks for `slice(-RowsPerPage, 0)` and is
   * empty; page -1 is the run of `RowsPerPage` rows that ends `RowsPerPage`
   * rows before the end of the list, and so on further back.
   */
  lemma NonPositivePage<T>(transactions: seq<T>, page: int)
    requires page <= 0
    ensures page == 0 ==> Paginate(transactions, page) == []
    ensures var n := |transactions|;
            page < 0 ==>
              Paginate(transactions, page) ==
              transactions[Max(n + (page - 1) * RowsPerPage, 0)..Max(n + page * RowsPerPage, 0)]
  {
  }

  /** Pages 1 to `k`, concatenated in page order. */
  function PagesUpTo<T>(transactions: seq<T>, k: nat): seq<T>
  {
    if k == 0 then [] else PagesUpTo(transactions, k - 1) + Paginate(transactions, k)
  }

  /** Pages 1 to `k` together are the first `k * RowsPerPage` transactions. */
  lemma {:induction false} PagesUpToIsPrefix<T>(transactions: seq<T>, k: nat)
    ensures PagesUpTo(transactions, k) == transactions[..Min(k * RowsPerPage, |transactions|)]
  {
    if k > 0 {
      PagesUpToIsPrefix(transactions, k - 1);
      PageWindow(transactions, k);
      var lo := Min((k - 1) * RowsPerPage, |transactions|);
      var hi := Min(k * RowsPerPage, |transactions|);
      assert transactions[..lo] + transactions[lo..hi] == transactions[..hi];
    }
  }

  /**
   * The pages partition the list: concatenating pages 1 to `TotalPages` in
   * order gives back the transactions exactly, none dropped, repeated or
   * moved.
   */
  lemma PagesReassemble<T>(transactions: seq<T>)
    ensures PagesUpTo(transactions, TotalPages(|transactions|)) == transactions
  {
    PagesUpToIsPrefix(transactions, TotalPages(|transactions|));
  }

  /** The pager is drawn exactly when there are more than `RowsPerPage` transactions. */
  lemma ShowPagerIff(count: nat)
    ensures ShowPager(TotalPages(count)) <==> count > RowsPerPage
  {
  }

  /** 25 transactions make 3 pages; page 3 holds the last 5 and page 4 is empty. */
  lemma TwentyFiveTransactions<T>(transactions: seq<T>)
    requires |transactions| == 25
    ensures TotalPages(|transactions|) == 3
    ensures Paginate(transactions, 3) == transactions[20..]
    ensures Paginate(transactions, 4) == []
    ensures Paginate(transactions, -1) == transactions[5..15]
    ensures ShowPager(TotalPages(|transactions|))
  {
  }

  /** The props the panel receives; `None` is a prop left undefined. */
  datatype Props<A, T> = Props(accounts: seq<A>, transactions: Option<seq<T>>, page: Option<int>)

  /**
   * The `transactions = []` default: an undefined prop leaves no pages and
   * every page empty; a given list is used as is.
   */
  function TransactionsOf<A, T>(props: Props<A, T>): (r: seq<T>)
    ensures props.transactions.None? ==> TotalPages(|r|) == 0 && forall p :: Paginate(r, p) == []
    ensures props.transactions.Some? ==> r == props.transactions.value
  {
    match props.transactions
    case None => []
    case Some(t) => t
  }

  /**
   * The `page = 1` default: an undefined prop shows the first `RowsPerPage`
   * transactions; a given page is used as is.
   */
  function PageOf<A, T>(props: Props<A, T>): (r: int)
    ensures props.page.None? ==>
              Paginate(TransactionsOf(props), r) ==
              TransactionsOf(props)[..Min(RowsPerPage, |TransactionsOf(props)|)]
    ensures props.page.Some? ==> r == props.page.value
  {
    match props.page
    case None => 1
    case Some(p) => p
  }

  /** What the pager is given. */
  datatype PagerProps = PagerProps(totalPages: nat, page: int)

  /** The content of one account tab: the account, its table rows, and the pager if drawn. */
  datatype TabPanel<A, T> = TabPanel(account: A, transactions: seq<T>, pager: Option<PagerProps>)

  /**
   * One panel per account, in account order. Every panel shows the same
   * page of transactions, and carries the pager exactly when there are more
   * than `RowsPerPage` transactions.
   */
  function TabPanels<A, T>(props: Props<A, T>): (r: seq<TabPanel<A, T>>)
    ensures |r| == |props.accounts|
    ensures forall i :: 0 <= i < |r| ==>
              && r[i].account == props.accounts[i]
              && r[i].transactions == Paginate(TransactionsOf(props), PageOf(props))
    ensures forall i :: 0 <= i < |r| ==>
              (r[i].pager.Some? <==> |TransactionsOf(props)| > RowsPerPage)
    ensures forall i :: 0 <= i < |r| && r[i].pager.Some? ==>
              r[i].pager.value == PagerProps(TotalPages(|TransactionsOf(props)|), PageOf(props))
  {
    var transactions := TransactionsOf(props);
    var page := PageOf(props);
    var totalPages := TotalPages(|transactions|);
    var currentTransactions := Paginate(transactions, page);
    ShowPagerIff(|transactions|);
    seq(|props.accounts|, i requires 0 <= i < |props.accounts| =>
      TabPanel(props.accounts[i], currentTransactions,
               if ShowPager(totalPages) then Some(PagerProps(totalPages, page)) else None))
  }

  /**
   * With both defaults in force (no transactions, no page), there are no
   * pages, every tab shows an empty table and no pager is drawn.
   */
  lemma DefaultsShowEmptyPage<A, T>(props: Props<A, T>)
    requires props.transactions == None && props.page == None
    ensures TotalPages(|TransactionsOf(props)|) == 0
    ensures forall panel :: panel in TabPanels(props) ==>
              panel.transactions == [] && panel.pager == None
  {
  }
}

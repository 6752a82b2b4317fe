/** The paginated linear search shared by the user, organisation and OAuth2-application
    lookups: walk pages 1, 2, ... of a list endpoint until a page holds an element with the
    wanted key, a page comes back empty (end of data), or fetching a page fails. */
module Paging {
  import opened Results

  /** Every list request asks for pages of this size. */
  const PageSize: nat := 50

  /** Page `n` (counted from 1) as the remote serves it. The remote's data is finite: past the
      last recorded page every page is empty. */
  function PageAt<T>(pages: seq<Reply<seq<T>>>, n: nat): Reply<seq<T>>
    requires n >= 1
  {
    if n <= |pages| then pages[n - 1] else Ok([])
  }

  /** Index of the first element satisfying `key`, or |items| when there is none. */
  function FirstMatch<T>(items: seq<T>, key: T -> bool): (i: nat)
    ensures i <= |items|
    ensures i < |items| ==> key(items[i])
    ensures forall j :: 0 <= j < i ==> !key(items[j])
  {
    if items == [] then 0
    else if key(items[0]) then 0
    else 1 + FirstMatch(items[1..], key)
  }

  /** How a search ends, and on which page (which is also the number of pages fetched). */
  datatype Lookup<T> =
    | Hit(item: T, page: nat, index: nat)
    | Exhausted(page: nat)
    | ListError(msg: string, page: nat)

  /** The search, started at page `n`. */
  function Search<T>(pages: seq<Reply<seq<T>>>, key: T -> bool, n: nat): Lookup<T>
    requires n >= 1
    decreases |pages| + 1 - n
  {
    match PageAt(pages, n)
    case Fail(_, msg) => ListError(msg, n)
    case Ok(items) =>
      if items == [] then Exhausted(n)
      else
        var i := FirstMatch(items, key);
        if i < |items| then Hit(items[i], n, i) else Search(pages, key, n + 1)
  }

  /** Page `j` lets the search go on: it was fetched, is not empty and holds no match. */
  predicate Passes<T>(pages: seq<Reply<seq<T>>>, key: T -> bool, j: nat)
    requires j >= 1
  {
    && PageAt(pages, j).Ok?
    && PageAt(pages, j).value != []
    && forall i :: 0 <= i < |PageAt(pages, j).value| ==> !key(PageAt(pages, j).value[i])
  }

  /** What the search returns: every page before the last one fetched passed; a hit is the
      first matching element of its page; the end of data is an empty page; a list error is
      the failing page's own error, unchanged. */
  lemma {:induction false} SearchSound<T>(pages: seq<Reply<seq<T>>>, key: T -> bool, n: nat)
    requires n >= 1
    ensures var r := Search(pages, key, n);
      && r.page >= n
      && (forall j :: n <= j < r.page ==> Passes(pages, key, j))
      && (r.Hit? ==>
            && PageAt(pages, r.page).Ok?
            && r.index < |PageAt(pages, r.page).value|
            && PageAt(pages, r.page).value[r.index] == r.item
            && key(r.item)
            && forall j :: 0 <= j < r.index ==> !key(PageAt(pages, r.page).value[j]))
      && (r.Exhausted? ==> PageAt(pages, r.page) == Ok([]))
      && (r.ListError? ==> PageAt(pages, r.page).Fail? && r.msg == PageAt(pages, r.page).msg)
    decreases |pages| + 1 - n
  {
    match PageAt(pages, n)
    case Fail(_, _) =>
    case Ok(items) =>
      if items != [] && FirstMatch(items, key) == |items| {
        SearchSound(pages, key, n + 1);
      }
  }

  /** Pages that pass are skipped: the search from `n` is the search from `k`. */
  lemma {:induction false} SearchSkipsPassingPages<T>(pages: seq<Reply<seq<T>>>, key: T -> bool, n: nat, k: nat)
    requires 1 <= n <= k
    requires forall j :: n <= j < k ==> Passes(pages, key, j)
    ensures Search(pages, key, n) == Search(pages, key, k)
    decreases k - n
  {
    if n < k {
      assert Passes(pages, key, n);
      var items := PageAt(pages, n).value;
      assert FirstMatch(items, key) == |items|;
      SearchSkipsPassingPages(pages, key, n + 1, k);
    }
  }

  /** First match wins: if the earliest matching element, in page order and then in-page
      order, is element `i` of page `k`, the search returns it after fetching exactly `k` pages. */
  lemma SearchFindsFirstMatch<T>(pages: seq<Reply<seq<T>>>, key: T -> bool, k: nat, i: nat)
    requires k >= 1 && forall j :: 1 <= j < k ==> Passes(pages, key, j)
    requires PageAt(pages, k).Ok? && i < |PageAt(pages, k).value|
    requires key(PageAt(pages, k).value[i])
    requires forall j :: 0 <= j < i ==> !key(PageAt(pages, k).value[j])
    ensures Search(pages, key, 1) == Hit(PageAt(pages, k).value[i], k, i)
  {
    SearchSkipsPassingPages(pages, key, 1, k);
    var items := PageAt(pages, k).value;
    assert FirstMatch(items, key) == i;
  }

  /** "Not found" is reported exactly when an empty page is reached and no page before it
      held a match; the search then has fetched every page up to and including that one. */
  lemma SearchReportsExhaustion<T>(pages: seq<Reply<seq<T>>>, key: T -> bool, k: nat)
    requires k >= 1
    ensures (forall j :: 1 <= j < k ==> Passes(pages, key, j)) && PageAt(pages, k) == Ok([])
        <==> Search(pages, key, 1) == Exhausted(k)
  {
    if (forall j :: 1 <= j < k ==> Passes(pages, key, j)) && PageAt(pages, k) == Ok([]) {
      SearchSkipsPassingPages(pages, key, 1, k);
    }
    if Search(pages, key, 1) == Exhausted(k) {
      SearchSound(pages, key, 1);
    }
  }

  /** A page that cannot be fetched ends the search with that page's error, unchanged. */
  lemma SearchPassesListErrorThrough<T>(pages: seq<Reply<seq<T>>>, key: T -> bool, k: nat)
    requires k >= 1 && forall j :: 1 <= j < k ==> Passes(pages, key, j)
    requires PageAt(pages, k).Fail?
    ensures Search(pages, key, 1) == ListError(PageAt(pages, k).msg, k)
  {
    SearchSkipsPassingPages(pages, key, 1, k);
  }

  /** The Go (value, error) pair a lookup helper returns: the item, the helper's own
      "not found" error, or the list error unchanged. */
  function AsResult<T>(l: Lookup<T>, notFound: string): (r: Result<T>)
    ensures r.Success? <==> l.Hit?
    ensures l.Hit? ==> r.value == l.item
    ensures l.Exhausted? ==> r == Failure(notFound)
    ensures l.ListError? ==> r == Failure(l.msg)
  {
    match l
    case Hit(item, _, _) => Success(item)
    case Exhausted(_) => Failure(notFound)
    case ListError(msg, _) => Failure(msg)
  }
}

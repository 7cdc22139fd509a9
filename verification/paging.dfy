/** Client-side pagination shared by the dashboard and the analytics page. */
module Paging {

  /** A page number; the pages start at 1 and the page counter never drops below it. */
  type Page = p: int | p >= 1 witness 1

  /** `Math.ceil(n / perPage)`: the number of pages needed for `n` items. */
  function TotalPages(n: nat, perPage: nat): (r: nat)
    requires perPage > 0
    ensures n <= r * perPage
    ensures r > 0 ==> (r - 1) * perPage < n
    ensures r == 0 <==> n == 0
  {
    var q := (n + perPage - 1) / perPage;
    assert q * perPage <= n + perPage - 1 < q * perPage + perPage;
    q
  }

  /** `items.slice((page - 1) * perPage, page * perPage)`, with `slice` clamping to the length. */
  function PageSlice<T>(items: seq<T>, page: Page, perPage: nat): (r: seq<T>)
    ensures |r| <= perPage
    ensures (page - 1) * perPage >= |items| ==> r == []
    ensures (page - 1) * perPage < |items| ==>
              |r| == if |items| - (page - 1) * perPage < perPage then |items| - (page - 1) * perPage else perPage
    ensures forall j | 0 <= j < |r| :: (page - 1) * perPage + j < |items| && r[j] == items[(page - 1) * perPage + j]
  {
    var first := (page - 1) * perPage;
    var last := first + perPage;
    assert last == page * perPage;
    if first >= |items| then []
    else items[first .. if last <= |items| then last else |items|]
  }

  /** Every item appears on exactly the page its index says, and that page is within the page count. */
  lemma PageHolds<T>(items: seq<T>, perPage: nat, i: nat)
    requires perPage > 0 && i < |items|
    ensures 1 <= i / perPage + 1 <= TotalPages(|items|, perPage)
    ensures i % perPage < |PageSlice(items, i / perPage + 1, perPage)|
    ensures PageSlice(items, i / perPage + 1, perPage)[i % perPage] == items[i]
  {
    var q, r := i / perPage, i % perPage;
    assert i == q * perPage + r && 0 <= r < perPage;
    var t := TotalPages(|items|, perPage);
    if q >= t {
      MulMonotone(t, q, perPage);
    }
    var p: Page := q + 1;
    assert (p - 1) * perPage == q * perPage;
  }

  lemma MulMonotone(a: nat, b: nat, k: nat)
    requires a <= b
    ensures a * k <= b * k
  {
  }

  /** The pages within the page count are non-empty; the pages after it are empty. */
  lemma PagesInRange<T>(items: seq<T>, perPage: nat, page: Page)
    requires perPage > 0
    ensures page <= TotalPages(|items|, perPage) <==> PageSlice(items, page, perPage) != []
  {
    var t := TotalPages(|items|, perPage);
    if page <= t {
      MulMonotone(page - 1, t - 1, perPage);
    } else {
      MulMonotone(t, page - 1, perPage);
    }
  }

  /** `handleNext`: move forward only while there is a next page. */
  function NextPage(page: Page, totalPages: int): Page {
    if page < totalPages then page + 1 else page
  }

  /** `handlePrevious`: move back only while not on the first page. */
  function PreviousPage(page: Page): Page {
    if page > 1 then page - 1 else page
  }

  /** Starting within `[1, max(1, totalPages)]`, next and previous stay within it, and move by one when they move. */
  lemma StepsStayInRange(page: Page, totalPages: int)
    requires page <= if totalPages < 1 then 1 else totalPages
    ensures NextPage(page, totalPages) <= if totalPages < 1 then 1 else totalPages
    ensures PreviousPage(page) <= if totalPages < 1 then 1 else totalPages
    ensures NextPage(page, totalPages) == page + 1 <==> page < totalPages
    ensures PreviousPage(page) == page - 1 <==> page > 1
  {
  }
}

/**
 * The dashboard's list of the user's links: the fetch into local state, the
 * case-insensitive search filter, the paged table and the page counter.
 */
module DashboardPage {
  import opened Wrappers
  import opened Js
  import opened Paging
  import opened Tallies

  /** The number of links in one page of the table. */
  const ItemsPerPage: nat := 5

  /** A link as the dashboard receives it; the dates stay text. */
  datatype UrlData = UrlData(
    shortId: string,
    customAlias: Option<string>,
    originalUrl: string,
    createdAt: string,
    expiresAt: string)

  /** `toLowerCase` on one character, for the letters A to Z. */
  function LowerChar(c: char): char {
    if 'A' <= c <= 'Z' then (c as int + 32) as char else c
  }

  /** `toLowerCase`: no upper-case letter is left, and every other character stays. */
  function ToLower(s: string): (r: string)
    ensures |r| == |s|
    ensures forall i | 0 <= i < |s| :: !('A' <= r[i] <= 'Z')
    ensures forall i | 0 <= i < |s| :: !('A' <= s[i] <= 'Z') ==> r[i] == s[i]
    ensures forall i | 0 <= i < |s| :: 'A' <= s[i] <= 'Z' ==> r[i] as int == s[i] as int + 32
  {
    seq(|s|, i requires 0 <= i < |s| => LowerChar(s[i]))
  }

  /** Lower-casing twice is lower-casing once. */
  lemma ToLowerIdempotent(s: string)
    ensures ToLower(ToLower(s)) == ToLower(s)
  {
    assert forall i | 0 <= i < |s| :: ToLower(ToLower(s))[i] == ToLower(s)[i];
  }

  /** `needle` sits in `hay` starting at index `i`. */
  ghost predicate OccursAt(hay: string, needle: string, i: int) {
    0 <= i && i + |needle| <= |hay| && hay[i..i + |needle|] == needle
  }

  /** `hay.includes(needle)`: is `needle` a prefix of `hay` or of one of its suffixes. */
  function Includes(hay: string, needle: string): bool
    decreases |hay|
  {
    if needle <= hay then true
    else if hay == [] then false
    else Includes(hay[1..], needle)
  }

  /** `includes` holds exactly when the needle occurs at some index. */
  lemma {:induction false} IncludesIff(hay: string, needle: string)
    ensures Includes(hay, needle) <==> exists i :: OccursAt(hay, needle, i)
    decreases |hay|
  {
    if needle <= hay {
      assert OccursAt(hay, needle, 0);
    } else if hay == [] {
      assert forall i :: !OccursAt(hay, needle, i);
    } else {
      IncludesIff(hay[1..], needle);
      if i :| OccursAt(hay[1..], needle, i) {
        assert hay[1..][i..i + |needle|] == hay[i + 1..i + 1 + |needle|];
        assert OccursAt(hay, needle, i + 1);
      }
      if i :| OccursAt(hay, needle, i) {
        assert i != 0;
        assert hay[i..i + |needle|] == hay[1..][i - 1..i - 1 + |needle|];
        assert OccursAt(hay[1..], needle, i - 1);
      }
    }
  }

  /** Every string includes the empty string. */
  lemma IncludesEmpty(hay: string)
    ensures Includes(hay, "")
  {
  }

  /**
   * The search test: the lower-cased term is in the lower-cased short id, or in
   * the custom alias when that is truthy, or in the original URL.
   */
  predicate Matches(u: UrlData, term: string) {
    var t := ToLower(term);
    || Includes(ToLower(u.shortId), t)
    || (Truthy(u.customAlias) && Includes(ToLower(u.customAlias.value), t))
    || Includes(ToLower(u.originalUrl), t)
  }

  /** `filteredUrls`: the links the search term matches, in their order. */
  function FilteredUrls(urls: seq<UrlData>, term: string): (r: seq<UrlData>)
    ensures |r| <= |urls|
    ensures forall u :: u in r <==> u in urls && Matches(u, term)
    ensures forall u :: Occurrences(r, u) == if Matches(u, term) then Occurrences(urls, u) else 0
  {
    if urls == [] then []
    else
      var rest := FilteredUrls(urls[1..], term);
      assert urls == [urls[0]] + urls[1..];
      forall u ensures Occurrences(urls, u) == (if urls[0] == u then 1 else 0) + Occurrences(urls[1..], u) {
        OccurrencesPrepend(urls[0], urls[1..], u);
      }
      if Matches(urls[0], term) then
        forall u ensures Occurrences([urls[0]] + rest, u) == (if urls[0] == u then 1 else 0) + Occurrences(rest, u) {
          OccurrencesPrepend(urls[0], rest, u);
        }
        [urls[0]] + rest
      else
        assert forall u :: u in urls <==> u == urls[0] || u in urls[1..];
        rest
  }

  /** Filtering keeps the links in their original order. */
  lemma {:induction false} FilterIsSubsequence(urls: seq<UrlData>, term: string)
    ensures SubsequenceOf(FilteredUrls(urls, term), urls)
  {
    if urls != [] {
      FilterIsSubsequence(urls[1..], term);
      var rest := FilteredUrls(urls[1..], term);
      if Matches(urls[0], term) {
        assert ([urls[0]] + rest)[1..] == rest;
      }
    }
  }

  /** The empty search term keeps every link. */
  lemma {:induction false} EmptySearchKeepsAll(urls: seq<UrlData>)
    ensures FilteredUrls(urls, "") == urls
  {
    if urls != [] {
      assert ToLower("") == "";
      IncludesEmpty(ToLower(urls[0].shortId));
      EmptySearchKeepsAll(urls[1..]);
    }
  }

  /** The page's own state. */
  class Dashboard {
    var urls: seq<UrlData>
    var searchTerm: string
    var loading: bool
    var error: Option<string>
    var currentPage: Page

    constructor ()
      ensures urls == [] && searchTerm == "" && !loading && error == None && currentPage == 1
    {
      urls := [];
      searchTerm := "";
      loading := false;
      error := None;
      currentPage := 1;
    }

    /** The links the current search term keeps. */
    function Filtered(): seq<UrlData>
      reads this
    {
      FilteredUrls(urls, searchTerm)
    }

    /** `totalPages`: the filtered links five to a page, rounded up. */
    function PageCount(): (r: nat)
      reads this
      ensures |Filtered()| <= r * ItemsPerPage
      ensures r > 0 ==> (r - 1) * ItemsPerPage < |Filtered()|
    {
      TotalPages(|Filtered()|, ItemsPerPage)
    }

    /** `currentUrls`: the filtered links at indices `[(page - 1) * 5, page * 5)`. */
    function CurrentUrls(): (r: seq<UrlData>)
      reads this
      ensures |r| <= ItemsPerPage
      ensures (currentPage - 1) * ItemsPerPage >= |Filtered()| ==> r == []
      ensures (currentPage - 1) * ItemsPerPage < |Filtered()| ==>
                |r| == if |Filtered()| - (currentPage - 1) * ItemsPerPage < ItemsPerPage
                       then |Filtered()| - (currentPage - 1) * ItemsPerPage else ItemsPerPage
      ensures forall j | 0 <= j < |r| ::
                (currentPage - 1) * ItemsPerPage + j < |Filtered()|
                && r[j] == Filtered()[(currentPage - 1) * ItemsPerPage + j]
      ensures r != [] <==> currentPage <= PageCount()
    {
      PagesInRange(Filtered(), ItemsPerPage, currentPage);
      PageSlice(Filtered(), currentPage, ItemsPerPage)
    }

    /**
     * The fetch on mount: nothing without a truthy token; otherwise the
     * response's links replace the list, or a failed request sets the error.
     * Loading ends false either way.
     */
    method FetchUrls(token: Option<string>, response: Option<seq<UrlData>>)
      modifies this`urls, this`loading, this`error
      ensures !Truthy(token) ==> urls == old(urls) && loading == old(loading) && error == old(error)
      ensures Truthy(token) && response.Some? ==> urls == response.value && !loading && error == old(error)
      ensures Truthy(token) && response.None? ==>
                urls == old(urls) && !loading && error == Some("Error fetching URLs")
    {
      if !Truthy(token) {
        return;
      }
      loading := true;
      if response.Some? {
        urls := response.value;
      } else {
        error := Some("Error fetching URLs");
      }
      loading := false;
    }

    /** Typing in the search box: the term is replaced and the table goes back to page 1. */
    method OnSearchChange(term: string)
      modifies this`searchTerm, this`currentPage
      ensures searchTerm == term && currentPage == 1
    {
      searchTerm := term;
      currentPage := 1;
    }

    method HandleNext()
      modifies this`currentPage
      ensures currentPage == NextPage(old(currentPage), PageCount())
    {
      if currentPage < PageCount() {
        currentPage := currentPage + 1;
      }
    }

    method HandlePrevious()
      modifies this`currentPage
      ensures currentPage == PreviousPage(old(currentPage))
    {
      if currentPage > 1 {
        currentPage := currentPage - 1;
      }
    }
  }
}

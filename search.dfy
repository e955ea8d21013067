/** The pagination controller `zillow_zipcode_search` of gather_data.py. A
    search resets its flags, then fetches at most 30 result pages, testing
    each for a next-page control and for the "no matching results" heading,
    scraping the pages it keeps and advancing the page URL, and finally merges
    the scraped rows into the zip code's dump file. What the browser shows is a
    map from URL to page; the dump directory is a map from file name to rows. */
module Search {
  import opened PyText
  import opened Listing
  import opened Store

  /** What a fetched results page tells the controller. */
  datatype Page = Page(
    hasNextControl: bool,              // some `li.zsg-pagination-next` exists
    collapsedHeading: Option<string>,  // text of the first `h3.zsg-content_collapsed`, if any
    cards: seq<Card>
  )

  const NoResultsText := "No matching results..."

  /** The loop bound of `search_zipcode`. */
  const MaxPages: nat := 30

  predicate SaysNoResults(p: Page)
  {
    p.collapsedHeading == Some(NoResultsText)
  }

  /** A page after which the controller fetches nothing more. */
  predicate Stops(p: Page)
  {
    !p.hasNextControl || SaysNoResults(p)
  }

  /** The rows a fetched page contributes: none for a "no results" page, one per
      card otherwise (a last page without a next control is still scraped). */
  function PageRows(p: Page): seq<Row>
    requires WellFormedCards(p.cards)
  {
    if SaysNoResults(p) then [] else RowsOf(p.cards)
  }

  /** The browser's view of the web: the page each known URL shows; any other
      URL shows a blank page, which has no next-page control and no cards. */
  function Load(web: map<string, Page>, url: string): Page
  {
    if url in web then web[url] else Page(false, None, [])
  }

  predicate WellFormedSite(web: map<string, Page>)
  {
    forall url :: url in web ==> WellFormedCards(web[url].cards)
  }

  /** Every search URL starts with the site's search root. */
  const SearchRoot: string := "https://www.zillow.com/homes/"

  function FirstPage(zip: string): string
  {
    SearchRoot + zip + "_rb/"
  }

  /** The URL of result page `n` of the search whose first page is at
      `first` (page 0 is never requested; it gets the first page's URL). */
  function PageUrl(first: string, n: nat): string
  {
    if n <= 1 then first else first + NatToString(n) + "_p/"
  }

  /** Different page numbers have different URLs, so no page is fetched twice. */
  lemma PageUrlInjective(first: string, m: nat, n: nat)
    requires 1 <= m && 1 <= n
    requires PageUrl(first, m) == PageUrl(first, n)
    ensures m == n
  {
    var f := first;
    var um, un := PageUrl(first, m), PageUrl(first, n);
    assert m != 1 ==> |um| > |f|;
    assert n != 1 ==> |un| > |f|;
    if m != 1 && n != 1 {
      assert um[|f|..|um| - 3] == NatToString(m);
      assert un[|f|..|un| - 3] == NatToString(n);
      NatToStringInjective(m, n);
    }
  }

  /** The page at which a search that has reached page `n` ends: the first
      page from `n` on that stops it, or page 30, where the loop runs out. */
  function LastPage(web: map<string, Page>, first: string, n: nat): (last: nat)
    requires 1 <= n <= MaxPages
    ensures n <= last <= MaxPages
    decreases MaxPages - n
  {
    if Stops(Load(web, PageUrl(first, n))) || n == MaxPages then n else LastPage(web, first, n + 1)
  }

  /** The search ends at the first page that stops it, or at page 30 when no
      page does: every page before the last goes on, and the last one stops
      the search or is page 30. */
  lemma {:induction false} LastPageIsFirstEnd(web: map<string, Page>, first: string, n: nat)
    requires 1 <= n <= MaxPages
    ensures forall j :: n <= j < LastPage(web, first, n) ==> !Stops(Load(web, PageUrl(first, j)))
    ensures Stops(Load(web, PageUrl(first, LastPage(web, first, n)))) || LastPage(web, first, n) == MaxPages
    decreases MaxPages - n
  {
    if !(Stops(Load(web, PageUrl(first, n))) || n == MaxPages) {
      LastPageIsFirstEnd(web, first, n + 1);
    }
  }

  /** Conversely, a page `k` that stops the search, reached through pages that
      do not, is where the search ends. */
  lemma {:induction false} StopsAtFirstEnd(web: map<string, Page>, first: string, n: nat, k: nat)
    requires 1 <= n <= k <= MaxPages
    requires Stops(Load(web, PageUrl(first, k)))
    requires forall j :: n <= j < k ==> !Stops(Load(web, PageUrl(first, j)))
    ensures LastPage(web, first, n) == k
    decreases k - n
  {
    if n < k {
      StopsAtFirstEnd(web, first, n + 1, k);
    }
  }

  /** The page number the controller holds when a search that has reached
      page `n` ends: the stopping page itself, or one more when page 30 was
      loaded with a next-page control, since the loop then advances once more. */
  function FinalPageNumber(web: map<string, Page>, first: string, n: nat): (p: nat)
    requires 1 <= n <= MaxPages
    ensures n <= p <= MaxPages + 1
    decreases MaxPages - n
  {
    if Stops(Load(web, PageUrl(first, n))) then n
    else if n == MaxPages then n + 1
    else FinalPageNumber(web, first, n + 1)
  }

  /** The final page number is the last page, plus one exactly when the last
      page did not stop the search. */
  lemma {:induction false} FinalPageNumberIsLastPage(web: map<string, Page>, first: string, n: nat)
    requires 1 <= n <= MaxPages
    ensures FinalPageNumber(web, first, n) ==
              LastPage(web, first, n) + (if Stops(Load(web, PageUrl(first, LastPage(web, first, n)))) then 0 else 1)
    decreases MaxPages - n
  {
    if !Stops(Load(web, PageUrl(first, n))) && n < MaxPages {
      FinalPageNumberIsLastPage(web, first, n + 1);
    }
  }

  /** Pages 1 to `k` all let the search go on. */
  predicate GoesOnThrough(web: map<string, Page>, first: string, k: nat)
    decreases k
  {
    k == 0 || (!Stops(Load(web, PageUrl(first, k))) && GoesOnThrough(web, first, k - 1))
  }

  /** Each page up to `k` of a search that goes on through page `k` goes on. */
  lemma {:induction false} GoesOnThroughPage(web: map<string, Page>, first: string, k: nat, j: nat)
    requires GoesOnThrough(web, first, k)
    requires 1 <= j <= k
    ensures !Stops(Load(web, PageUrl(first, j)))
    decreases k
  {
    if j < k {
      GoesOnThroughPage(web, first, k - 1, j);
    }
  }

  /** A search whose pages before `k` go on and whose page `k` stops it ends,
      from any page `n` up to `k`, on page `k` with the page number left at `k`. */
  lemma {:induction false} EndsAt(web: map<string, Page>, first: string, n: nat, k: nat)
    requires 1 <= n <= k <= MaxPages
    requires GoesOnThrough(web, first, k - 1) && Stops(Load(web, PageUrl(first, k)))
    ensures LastPage(web, first, n) == k && FinalPageNumber(web, first, n) == k
    decreases k - n
  {
    if n < k {
      GoesOnThroughPage(web, first, k - 1, n);
      EndsAt(web, first, n + 1, k);
    }
  }

  /** A search none of whose 30 pages stops it ends, from any page `n`, on
      page 30 with the page number advanced to 31. */
  lemma {:induction false} RunsOut(web: map<string, Page>, first: string, n: nat)
    requires 1 <= n <= MaxPages
    requires GoesOnThrough(web, first, MaxPages)
    ensures LastPage(web, first, n) == MaxPages && FinalPageNumber(web, first, n) == MaxPages + 1
    decreases MaxPages - n
  {
    GoesOnThroughPage(web, first, MaxPages, n);
    if n < MaxPages {
      RunsOut(web, first, n + 1);
    }
  }

  /** The URLs of result pages 1 to `k`, in order. */
  function Urls(first: string, k: nat): (urls: seq<string>)
    ensures |urls| == k
  {
    if k == 0 then [] else Urls(first, k - 1) + [PageUrl(first, k)]
  }

  /** The `j`-th URL loaded is that of page `j + 1`. */
  lemma {:induction false} UrlsIndex(first: string, k: nat, j: nat)
    requires j < k
    ensures Urls(first, k)[j] == PageUrl(first, j + 1)
  {
    if j < k - 1 {
      UrlsIndex(first, k - 1, j);
    }
  }

  /** No URL is loaded twice in one search. */
  lemma UrlsDistinct(first: string, k: nat)
    ensures forall i, j :: 0 <= i < j < k ==> Urls(first, k)[i] != Urls(first, k)[j]
  {
    forall i, j | 0 <= i < j < k ensures Urls(first, k)[i] != Urls(first, k)[j] {
      UrlsIndex(first, k, i);
      UrlsIndex(first, k, j);
      if Urls(first, k)[i] == Urls(first, k)[j] {
        PageUrlInjective(first, i + 1, j + 1);
      }
    }
  }

  /** The rows scraped from result pages 1 to `k`, in page order. */
  function RowsThrough(web: map<string, Page>, first: string, k: nat): seq<Row>
    requires WellFormedSite(web)
  {
    if k == 0 then [] else RowsThrough(web, first, k - 1) + PageRows(Load(web, PageUrl(first, k)))
  }

  /** The page on which a search from `first` ends. */
  function SearchEnd(web: map<string, Page>, first: string): nat
  {
    LastPage(web, first, 1)
  }

  /** The name of a zip code's file in the dump directory. */
  function DumpName(zip: string): string
  {
    zip + ".csv"
  }

  /** The saved rows for a file name, if the file exists. */
  function SavedRows(files: map<string, seq<Row>>, name: string): Option<seq<Row>>
  {
    if name in files then Some(files[name]) else None
  }

  class ZipcodeSearch {
    var pageNumber: nat
    var pageToLoad: string
    var firstPage: string
    var doNextPage: int
    var noResults: int
    var currentZip: string
    var currentPage: Page
    var scraper: ZillowParser
    /** The dump directory: file name to saved rows. */
    var files: map<string, seq<Row>>
    /** Every URL loaded by the last search, in order. */
    ghost var fetched: seq<string>

    constructor (saved: map<string, seq<Row>>)
      ensures files == saved && fetched == []
    {
      pageNumber := 0;
      pageToLoad := "";
      firstPage := "";
      doNextPage := 0;
      noResults := 0;
      currentZip := "";
      currentPage := Page(false, None, []);
      scraper := new ZillowParser();
      files := saved;
      fetched := [];
    }

    /** `next_page`: one page further, and the URL of that page. */
    method NextPage()
      modifies this`pageNumber, this`pageToLoad
      ensures pageNumber == old(pageNumber) + 1
      ensures pageToLoad == firstPage + NatToString(pageNumber) + "_p/"
    {
      pageNumber := pageNumber + 1;
      pageToLoad := firstPage + NatToString(pageNumber) + "_p/";
    }

    /** `get_current_page`: load the current URL. */
    method GetCurrentPage(web: map<string, Page>) returns (page: Page)
      modifies this`currentPage, this`fetched
      ensures page == currentPage == Load(web, pageToLoad)
      ensures fetched == old(fetched) + [pageToLoad]
    {
      currentPage := Load(web, pageToLoad);
      fetched := fetched + [pageToLoad];
      page := currentPage;
    }

    /** `test_current_page`: clear `doNextPage` when there is no next-page
        control; set `noResults` when the first collapsed heading reads exactly
        "No matching results..."; without such a heading leave it alone. */
    method TestCurrentPage()
      modifies this`doNextPage, this`noResults
      ensures doNextPage == if currentPage.hasNextControl then old(doNextPage) else 0
      ensures noResults == if SaysNoResults(currentPage) then 1 else old(noResults)
    {
      if !currentPage.hasNextControl {
        doNextPage := 0;
      }
      match currentPage.collapsedHeading {
        case Some(text) =>
          if text == NoResultsText {
            noResults := 1;
          }
        case None =>
      }
    }

    /** `dump_zipcode_dataframe`: merge the rows into the zip code's file. */
    method DumpZipcodeDataframe(rows: seq<Row>)
      modifies this`files
      ensures files == old(files)[DumpName(currentZip) := Merge(SavedRows(old(files), DumpName(currentZip)), rows)]
    {
      var name := currentZip + ".csv";
      var result: seq<Row>;
      if name in files {
        result := KeepLast(files[name] + rows);
      } else {
        result := rows;
      }
      files := files[name := result];
    }

    /** One pass of the loop body of `search_zipcode`: load and test the
        current page; unless it says "no results", scrape it and, when it has a
        next-page control, move to the next page. Returns whether the loop goes on. */
    method ScrapeStep(web: map<string, Page>) returns (goOn: bool)
      requires WellFormedSite(web)
      requires doNextPage == 1 && noResults == 0
      modifies this`currentPage, this`fetched, this`doNextPage, this`noResults,
               this`pageNumber, this`pageToLoad, scraper
      ensures currentPage == Load(web, old(pageToLoad))
      ensures fetched == old(fetched) + [old(pageToLoad)]
      ensures doNextPage == (if currentPage.hasNextControl then 1 else 0)
      ensures noResults == (if SaysNoResults(currentPage) then 1 else 0)
      ensures goOn == !Stops(currentPage)
      ensures SaysNoResults(currentPage) ==> unchanged(scraper)
      ensures !SaysNoResults(currentPage) ==>
                scraper.photoCards == currentPage.cards &&
                scraper.pageData == RowsOf(currentPage.cards)
      ensures scraper.master == old(scraper.master) + PageRows(currentPage)
      ensures goOn ==> pageNumber == old(pageNumber) + 1 &&
                       pageToLoad == firstPage + NatToString(pageNumber) + "_p/"
      ensures !goOn ==> pageNumber == old(pageNumber) && pageToLoad == old(pageToLoad)
    {
      var page := GetCurrentPage(web);
      TestCurrentPage();
      if noResults == 1 {
        return false;
      }
      scraper.GetHouses(page.cards);
      if doNextPage == 1 {
        NextPage();
        return true;
      } else {
        return false;
      }
    }

    /** The `for` loop of `search_zipcode`. */
    method ScrapePages(web: map<string, Page>)
      requires WellFormedSite(web)
      requires doNextPage == 1 && noResults == 0
      requires pageNumber == 1 && pageToLoad == firstPage
      requires fetched == [] && scraper.master == []
      modifies this`currentPage, this`fetched, this`doNextPage, this`noResults,
               this`pageNumber, this`pageToLoad, scraper
      ensures fetched == Urls(firstPage, SearchEnd(web, firstPage))
      ensures scraper.master == RowsThrough(web, firstPage, SearchEnd(web, firstPage))
      ensures pageToLoad == PageUrl(firstPage, pageNumber)
      ensures pageNumber == FinalPageNumber(web, firstPage, 1)
      ensures currentPage == Load(web, PageUrl(firstPage, SearchEnd(web, firstPage)))
      ensures doNextPage == (if currentPage.hasNextControl then 1 else 0)
      ensures noResults == (if SaysNoResults(currentPage) then 1 else 0)
    {
      ghost var first := firstPage;
      var i := 0;
      var goOn := true;
      while goOn && i < MaxPages
        invariant 0 <= i <= MaxPages
        invariant fetched == Urls(first, i)
        invariant scraper.master == RowsThrough(web, first, i)
        invariant goOn ==> GoesOnThrough(web, first, i) && doNextPage == 1 && noResults == 0 &&
                           pageNumber == i + 1 && pageToLoad == PageUrl(first, i + 1)
        invariant !goOn ==> 1 <= i && GoesOnThrough(web, first, i - 1) &&
                            Stops(Load(web, PageUrl(first, i))) &&
                            pageNumber == i && pageToLoad == PageUrl(first, i)
        invariant 1 <= i ==> currentPage == Load(web, PageUrl(first, i)) &&
                             doNextPage == (if currentPage.hasNextControl then 1 else 0) &&
                             noResults == (if SaysNoResults(currentPage) then 1 else 0)
      {
        goOn := ScrapeStep(web);
        i := i + 1;
      }
      if goOn {
        RunsOut(web, first, 1);
      } else {
        EndsAt(web, first, 1, i);
      }
    }

    /** `search_zipcode`: reset, fetch and scrape up to 30 pages, then dump. */
    method SearchZipcode(zip: string, web: map<string, Page>)
      requires WellFormedSite(web)
      modifies this
      ensures currentZip == zip && firstPage == FirstPage(zip)
      ensures fetched == Urls(firstPage, SearchEnd(web, firstPage))
      ensures scraper.master == RowsThrough(web, firstPage, SearchEnd(web, firstPage))
      ensures files == old(files)[DumpName(zip) := Merge(SavedRows(old(files), DumpName(zip)), scraper.master)]
      ensures pageToLoad == PageUrl(firstPage, pageNumber)
      ensures pageNumber == FinalPageNumber(web, firstPage, 1)
      ensures currentPage == Load(web, PageUrl(firstPage, SearchEnd(web, firstPage)))
      ensures doNextPage == (if currentPage.hasNextControl then 1 else 0)
      ensures noResults == (if SaysNoResults(currentPage) then 1 else 0)
    {
      doNextPage := 1;
      noResults := 0;
      pageNumber := 1;
      currentZip := zip;
      firstPage := SearchRoot + zip + "_rb/";
      pageToLoad := firstPage;
      scraper := new ZillowParser();
      fetched := [];
      ScrapePages(web);
      assert files == old(files) && currentZip == zip;
      DumpZipcodeDataframe(scraper.master);
    }
  }
}

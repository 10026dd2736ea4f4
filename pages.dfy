/** The current-page slice: which of the four pages the interface shows. */
module Pages {
  import opened Wrappers

  /** `PageState`: exactly four pages. */
  datatype Page = Gallery | MyNfts | CurrentAuction | AboutUs

  /** The string each page is in the store. */
  function PageName(p: Page): string
  {
    match p
    case Gallery => "gallery"
    case MyNfts => "myNfts"
    case CurrentAuction => "currentAuction"
    case AboutUs => "aboutUs"
  }

  /** The page a store string stands for, if any. */
  function ParsePage(s: string): (r: Option<Page>)
    ensures r.Some? <==> s in {"gallery", "myNfts", "currentAuction", "aboutUs"}
  {
    if s == "gallery" then Some(Gallery)
    else if s == "myNfts" then Some(MyNfts)
    else if s == "currentAuction" then Some(CurrentAuction)
    else if s == "aboutUs" then Some(AboutUs)
    else None
  }

  /** The page names and the pages correspond one to one. */
  lemma PageNameRoundTrip(p: Page, s: string)
    ensures ParsePage(PageName(p)) == Some(p)
    ensures ParsePage(s) == Some(p) <==> PageName(p) == s
  {
  }

  class CurrentPageStore {
    var currentPage: Page

    constructor ()
      ensures currentPage == Gallery
    {
      currentPage := Gallery;
    }

    /** Sets the page whatever the page was. */
    method SetCurrentPage(p: Page)
      modifies this
      ensures currentPage == p
    {
      currentPage := p;
    }

    function SelectCurrentPage(): (r: Page)
      reads this
      ensures r == currentPage
    {
      currentPage
    }
  }

  /** The selector returns the page set last: a later `setCurrentPage`
      overwrites an earlier one, whatever either page is. */
  method LastPageSetWins(store: CurrentPageStore, p: Page, q: Page) returns (shown: Page)
    modifies store
    ensures shown == q
  {
    store.SetCurrentPage(p);
    store.SetCurrentPage(q);
    shown := store.SelectCurrentPage();
  }
}

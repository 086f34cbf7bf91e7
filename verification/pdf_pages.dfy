/**
 * The page bookkeeping of the document viewer: which page is shown, how many
 * pages the loaded document has, and whether a page is being rendered. The
 * rendering itself is not part of this model.
 */
module PdfPages {
  import opened Common

  /** The "Previous" button: go back one page unless on page 1. */
  function PrevPage(current: int): (r: int)
    ensures current == 1 ==> r == 1
    ensures current != 1 ==> r == current - 1
    ensures 1 <= current ==> 1 <= r <= current
  {
    if current != 1 then current - 1 else current
  }

  /** The "Next" button: go forward one page unless on the last page. */
  function NextPage(current: int, total: int): (r: int)
    ensures current == total ==> r == total
    ensures current != total ==> r == current + 1
    ensures current <= total ==> current <= r <= total
  {
    if current != total then current + 1 else current
  }

  datatype Button = PrevButton | NextButton

  /** The page shown after a sequence of button clicks. */
  function Navigate(current: int, total: int, clicks: seq<Button>): int
    decreases |clicks|
  {
    if clicks == [] then current
    else
      var next := if clicks[0] == PrevButton then PrevPage(current) else NextPage(current, total);
      Navigate(next, total, clicks[1..])
  }

  /** Whatever the user clicks, the page stays between 1 and the page count. */
  lemma {:induction false} NavigationStaysInRange(current: int, total: int, clicks: seq<Button>)
    requires 1 <= current <= total
    ensures 1 <= Navigate(current, total, clicks) <= total
    decreases |clicks|
  {
    if clicks != [] {
      var next := if clicks[0] == PrevButton then PrevPage(current) else NextPage(current, total);
      NavigationStaysInRange(next, total, clicks[1..]);
    }
  }

  /** Clicking "Next" at least as often as there are pages left ends on the last page, and no further. */
  lemma {:induction false} NextClicksReachLastPage(current: int, total: int, n: nat)
    requires 1 <= current <= total && n >= total - current
    ensures Navigate(current, total, seq(n, _ => NextButton)) == total
    decreases n
  {
    var clicks := seq(n, _ => NextButton);
    if n > 0 {
      assert clicks[0] == NextButton;
      assert clicks[1..] == seq(n - 1, _ => NextButton);
      NextClicksReachLastPage(NextPage(current, total), total, n - 1);
    }
  }

  class PdfViewer {
    /** `_PDF_DOC.numPages` of the document loaded so far, if one loaded. */
    var document: Option<nat>
    /** `_CURRENT_PAGE` and `_TOTAL_PAGES`; both are unset (here 0) until a document loads. */
    var currentPage: int
    var totalPages: int
    /** `_PAGE_RENDERING_IN_PROGRESS`; the Previous and Next buttons are disabled while it is set. */
    var rendering: bool

    ghost predicate Valid()
      reads this
    {
      document.Some? ==> totalPages == document.value && 1 <= currentPage <= totalPages
    }

    constructor ()
      ensures Valid()
      ensures document == None && !rendering
    {
      document := None;
      currentPage := 0;
      totalPages := 0;
      rendering := false;
    }

    /**
     * `showPage`: record the page and render it. `pageFetched` says whether the
     * document returned the page; when it did not, the code fails before it
     * clears the rendering flag, so the buttons stay disabled.
     */
    method ShowPage(pageNo: int, pageFetched: bool)
      modifies this`currentPage, this`rendering
      ensures currentPage == pageNo
      ensures rendering == !pageFetched
    {
      rendering := true;
      currentPage := pageNo;
      if pageFetched {
        rendering := false;
      }
    }

    /**
     * `showPDF`: load a document (`fetched` is its page count, `None` when
     * loading failed) and show its first page. When loading fails and no
     * document was loaded before, reading the page count fails and nothing
     * else happens; when one was loaded before, that document is shown again.
     */
    method ShowPdf(fetched: Option<nat>, pageFetched: bool) returns (ok: bool)
      requires Valid()
      requires fetched.Some? ==> fetched.value >= 1
      modifies this
      ensures Valid()
      ensures ok <==> fetched.Some? || old(document).Some?
      ensures ok ==>
        && document == (if fetched.Some? then fetched else old(document))
        && currentPage == 1
        && rendering == !pageFetched
      ensures !ok ==> document == None && currentPage == old(currentPage) && totalPages == old(totalPages) && rendering == old(rendering)
    {
      if fetched.Some? {
        document := fetched;
      }
      if document.None? {
        return false;
      }
      totalPages := document.value;
      ShowPage(1, pageFetched);
      ok := true;
    }

    /** The "Previous" button's click handler. */
    method Prev(pageFetched: bool)
      requires Valid() && document.Some? && !rendering
      modifies this`currentPage, this`rendering
      ensures Valid()
      ensures currentPage == PrevPage(old(currentPage))
      ensures rendering == (old(currentPage) != 1 && !pageFetched)
    {
      if currentPage != 1 {
        currentPage := currentPage - 1;
        ShowPage(currentPage, pageFetched);
      }
    }

    /** The "Next" button's click handler. */
    method Next(pageFetched: bool)
      requires Valid() && document.Some? && !rendering
      modifies this`currentPage, this`rendering
      ensures Valid()
      ensures currentPage == NextPage(old(currentPage), totalPages)
      ensures rendering == (old(currentPage) != totalPages && !pageFetched)
    {
      if currentPage != totalPages {
        currentPage := currentPage + 1;
        ShowPage(currentPage, pageFetched);
      }
    }
  }
}

/** The administrator's editor for the public site's extra pages. The editor
    keeps its own copy of the site content (`editContent`) and the page open in
    the page dialog (`editingPage`); saving or deleting a page rewrites the
    page list, stores the new content locally and hands it to `onUpdateSite`
    (here the returned value). The browser's confirmation dialog is the
    `confirmed` argument and `Date.now()` the `now` argument. */
module AdminDashboard {
  import opened Common
  import opened Types

  /** No two pages share an id. */
  predicate UniqueIds(pages: seq<SitePage>)
  {
    forall i, j :: 0 <= i < j < |pages| ==> pages[i].id != pages[j].id
  }

  /** The id of a page created at time `now`: `page-` and the decimal digits of `now`. */
  function NewPageId(now: nat): (id: string)
    ensures |id| > 5 && id[..5] == "page-"
    ensures forall i :: 5 <= i < |id| ==> '0' <= id[i] <= '9'
    ensures DecimalValue(id[5..]) == now
    ensures id[5] == '0' ==> |id| == 6
  {
    DecimalRoundTrip(now);
    var id := "page-" + DecimalString(now);
    assert id[5..] == DecimalString(now);
    id
  }

  /** Pages created at different times get different ids. */
  lemma NewPageIdInjective(m: nat, n: nat)
    requires m != n
    ensures NewPageId(m) != NewPageId(n)
  {
    DecimalStringInjective(m, n);
    assert NewPageId(m)[5..] == DecimalString(m);
    assert NewPageId(n)[5..] == DecimalString(n);
  }

  /** `pages.map(p => p.id === edited.id ? edited : p)`: every page carrying
      the edited page's id is replaced by it; the others stay where they are. */
  function ReplacePage(pages: seq<SitePage>, edited: SitePage): (r: seq<SitePage>)
    ensures |r| == |pages|
    ensures forall i :: 0 <= i < |pages| && pages[i].id == edited.id ==> r[i] == edited
    ensures forall i :: 0 <= i < |pages| && pages[i].id != edited.id ==> r[i] == pages[i]
  {
    if pages == [] then []
    else [if pages[0].id == edited.id then edited else pages[0]] + ReplacePage(pages[1..], edited)
  }

  /** The filter condition of a delete: the page does not carry `id`. */
  function OtherId(id: string): SitePage -> bool
  {
    (p: SitePage) => p.id != id
  }

  /** `pages.filter(p => p.id !== id)`. */
  function RemovePages(pages: seq<SitePage>, id: string): (r: seq<SitePage>)
    ensures |r| <= |pages|
    ensures forall p :: p in r ==> p in pages && p.id != id
  {
    Filter(pages, OtherId(id))
  }

  /** The page list after saving `edited`: a page with an id replaces its
      namesakes; a page without one is appended under a new id. */
  function SavePages(pages: seq<SitePage>, edited: SitePage, now: nat): (r: seq<SitePage>)
    ensures edited.id != "" ==> r == ReplacePage(pages, edited)
    ensures edited.id == "" ==> |r| == |pages| + 1 && r[..|pages|] == pages
    ensures edited.id == "" ==> r[|pages|] == edited.(id := NewPageId(now))
  {
    if edited.id != "" then ReplacePage(pages, edited)
    else pages + [edited.(id := NewPageId(now))]
  }

  /** Saving again a page that is already in the list, unchanged, changes
      nothing (a listed page without an id would be appended once more). */
  lemma ResaveUnchanged(pages: seq<SitePage>, edited: SitePage, now: nat)
    requires UniqueIds(pages) && edited in pages && edited.id != ""
    ensures SavePages(pages, edited, now) == pages
  {
    var k :| 0 <= k < |pages| && pages[k] == edited;
    forall i | 0 <= i < |pages|
      ensures ReplacePage(pages, edited)[i] == pages[i]
    {
      if pages[i].id == edited.id {
        assert i == k;
      }
    }
  }

  /** Saving the same page twice is the same as saving it once. */
  lemma ReplacePageIdempotent(pages: seq<SitePage>, edited: SitePage)
    ensures ReplacePage(ReplacePage(pages, edited), edited) == ReplacePage(pages, edited)
  {
  }

  /** A deleted page is gone, and every page with another id is still there. */
  lemma RemovePagesMembership(pages: seq<SitePage>, id: string, p: SitePage)
    ensures p in RemovePages(pages, id) <==> p in pages && p.id != id
  {
    if p in pages && p.id != id {
      FilterKeeps(pages, OtherId(id), p);
    }
  }

  /** Deleting an id that no page carries leaves the list as it was. */
  lemma RemoveAbsentId(pages: seq<SitePage>, id: string)
    requires forall p :: p in pages ==> p.id != id
    ensures RemovePages(pages, id) == pages
  {
    FilterAllKept(pages, OtherId(id));
  }

  /** With unique ids, a stretch of the list that does not contain position
      `k` holds no page with the id of the page at `k`. */
  lemma OthersKept(pages: seq<SitePage>, k: nat, lo: nat, hi: nat)
    requires UniqueIds(pages) && k < |pages| && lo <= hi <= |pages|
    requires k < lo || hi <= k
    ensures Filter(pages[lo..hi], OtherId(pages[k].id)) == pages[lo..hi]
  {
    var part := pages[lo..hi];
    forall p | p in part
      ensures OtherId(pages[k].id)(p)
    {
      var i :| 0 <= i < |part| && part[i] == p;
      assert pages[lo + i] == p;
    }
    FilterAllKept(part, OtherId(pages[k].id));
  }

  /** A list is the part before position `k`, the page at `k` and the part after. */
  lemma SplitAt(pages: seq<SitePage>, k: nat)
    requires k < |pages|
    ensures pages == pages[0..k] + ([pages[k]] + pages[k + 1..|pages|])
    ensures pages[0..k] == pages[..k] && pages[k + 1..|pages|] == pages[k + 1..]
  {
  }

  /** With unique ids, deleting the id of the page at position `k` removes
      exactly that page and keeps the others in order. */
  lemma RemoveExistingPage(pages: seq<SitePage>, k: nat)
    requires UniqueIds(pages) && k < |pages|
    ensures RemovePages(pages, pages[k].id) == pages[..k] + pages[k + 1..]
    ensures |RemovePages(pages, pages[k].id)| == |pages| - 1
  {
    var keep := OtherId(pages[k].id);
    var before, here, after := pages[0..k], [pages[k]], pages[k + 1..|pages|];
    OthersKept(pages, k, 0, k);
    OthersKept(pages, k, k + 1, |pages|);
    assert Filter(here, keep) == [] by {
      assert here[1..] == [];
    }
    FilterDropMiddle(before, here, after, keep);
    SplitAt(pages, k);
  }

  /** Saving keeps page ids unique, provided a new page's generated id is not
      already taken (the timestamp does not guarantee it). */
  lemma SavePreservesUniqueIds(pages: seq<SitePage>, edited: SitePage, now: nat)
    requires UniqueIds(pages)
    requires edited.id == "" ==> forall p :: p in pages ==> p.id != NewPageId(now)
    ensures UniqueIds(SavePages(pages, edited, now))
  {
    var r := SavePages(pages, edited, now);
    if edited.id == "" {
      forall i, j | 0 <= i < j < |r|
        ensures r[i].id != r[j].id
      {
        if j == |pages| {
          assert r[i] == pages[i];
          assert pages[i] in pages;
        } else {
          assert r[i] == pages[i] && r[j] == pages[j];
        }
      }
    }
  }

  const BlankPage: SitePage := SitePage("", "", "", "", true)

  /** The editor's state. */
  class PageEditor {
    var editContent: SiteContent
    var editingPage: Option<SitePage>

    /** The editor starts from the site content it is given, with no page open. */
    constructor(siteContent: SiteContent)
      ensures editContent == siteContent && editingPage == None
    {
      editContent := siteContent;
      editingPage := None;
    }

    /** The site form's fields write straight into the local copy. */
    method SetEditContent(content: SiteContent)
      modifies this
      ensures editContent == content && editingPage == old(editingPage)
    {
      editContent := content;
    }

    /** Opening a blank page, opening an existing one, typing in the dialog
        (the page is the one given) or closing it (nothing). */
    method SetEditingPage(page: Option<SitePage>)
      modifies this
      ensures editingPage == page && editContent == old(editContent)
    {
      editingPage := page;
    }

    /** `handleSaveSite`: the local copy is published as it is. */
    method HandleSaveSite() returns (published: SiteContent)
      ensures published == editContent
    {
      published := editContent;
    }

    /** `handleSavePage`. With no page open nothing happens. Otherwise only
        the page list changes, the new content is both kept and published,
        and the dialog closes. */
    method HandleSavePage(now: nat) returns (published: Option<SiteContent>)
      modifies this
      ensures old(editingPage).None? ==> published == None && editContent == old(editContent)
      ensures old(editingPage).Some? ==>
                editContent == old(editContent).(pages := SavePages(old(editContent).pages, old(editingPage).value, now))
      ensures old(editingPage).Some? ==> published == Some(editContent)
      ensures editingPage == None
    {
      if editingPage.None? {
        return None;
      }
      var page := editingPage.value;
      var newPages;
      if page.id != "" {
        newPages := ReplacePage(editContent.pages, page);
      } else {
        newPages := editContent.pages + [page.(id := NewPageId(now))];
      }
      var updated := editContent.(pages := newPages);
      editContent := updated;
      published := Some(updated);
      editingPage := None;
    }

    /** `handleDeletePage`. Unconfirmed, nothing happens; confirmed, every
        page with the id goes, only the page list changes, and the new content
        is both kept and published. */
    method HandleDeletePage(id: string, confirmed: bool) returns (published: Option<SiteContent>)
      modifies this
      ensures !confirmed ==> published == None && editContent == old(editContent)
      ensures confirmed ==> editContent == old(editContent).(pages := RemovePages(old(editContent).pages, id))
      ensures confirmed ==> published == Some(editContent)
      ensures editingPage == old(editingPage)
    {
      published := None;
      if confirmed {
        var updated := editContent.(pages := RemovePages(editContent.pages, id));
        editContent := updated;
        published := Some(updated);
      }
    }
  }
}

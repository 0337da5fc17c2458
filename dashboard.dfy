/**
 * The citizen dashboard: the "My Grievances" list paged five at a time,
 * its page-number bar with ellipses, the tab switch that resets the page,
 * the delete confirmation and the stats computed from the loaded list,
 * and the message preview of a grievance card.
 *
 * The request to delete a complaint enters as its outcome. Page numbers
 * are small integers, so the `number` arithmetic of the page is exact.
 */
module Dashboard {
  import opened Wrappers

  const ITEMS_PER_PAGE: int := 5

  datatype Complaint = Complaint(id: int, statusName: string, message: Option<string>)

  datatype Stats = Stats(total: int, resolved: int, active: int, avgResolution: real)

  // ---------------------------------------------------------------------
  // Paging
  // ---------------------------------------------------------------------

  /** An index argument of Array.prototype.slice, resolved against a length n. */
  function SliceIndex(i: int, n: nat): (k: nat)
    ensures k <= n
    ensures 0 <= i <= n ==> k == i
  {
    if i < 0 then (if n + i < 0 then 0 else n + i) else if i > n then n else i
  }

  /** Array.prototype.slice(start, end). */
  function JsSlice<T>(s: seq<T>, start: int, end: int): (r: seq<T>)
  {
    var a := SliceIndex(start, |s|);
    var b := SliceIndex(end, |s|);
    if a >= b then [] else s[a..b]
  }

  /** Math.ceil(n / itemsPerPage): the number of pages. */
  function PageCount(n: nat): (pages: nat)
    ensures (pages - 1) * ITEMS_PER_PAGE < n <= pages * ITEMS_PER_PAGE || (n == 0 && pages == 0)
  {
    (n + ITEMS_PER_PAGE - 1) / ITEMS_PER_PAGE
  }

  /** The grievances shown on page p. */
  function PageSlice(cs: seq<Complaint>, p: int): seq<Complaint>
  {
    JsSlice(cs, (p - 1) * ITEMS_PER_PAGE, p * ITEMS_PER_PAGE)
  }

  /** For a page from 1 on, the page holds the items from (p-1)*5 up to p*5, cut at the end of the list. */
  lemma PageSliceIsWindow(cs: seq<Complaint>, p: int)
    requires p >= 1
    ensures var lo := (p - 1) * ITEMS_PER_PAGE; var hi := p * ITEMS_PER_PAGE;
      && (lo >= |cs| ==> PageSlice(cs, p) == [])
      && (lo < |cs| ==> PageSlice(cs, p) == cs[lo..if hi < |cs| then hi else |cs|])
  {
  }

  /** Grievance i is shown on page i/5 + 1, in position i%5. */
  lemma PageOfIndex(cs: seq<Complaint>, i: int)
    requires 0 <= i < |cs|
    ensures var p := i / ITEMS_PER_PAGE + 1;
      && 1 <= p <= PageCount(|cs|)
      && i % ITEMS_PER_PAGE < |PageSlice(cs, p)|
      && PageSlice(cs, p)[i % ITEMS_PER_PAGE] == cs[i]
  {
    PageSliceIsWindow(cs, i / ITEMS_PER_PAGE + 1);
  }

  /** Pages 1..k, one after the other. */
  function Pages(cs: seq<Complaint>, k: nat): seq<Complaint>
  {
    if k == 0 then [] else Pages(cs, k - 1) + PageSlice(cs, k)
  }

  /** Read page by page, pages 1..k hold the first 5k grievances, so all the pages together hold the list. */
  lemma {:induction false} PagesCover(cs: seq<Complaint>, k: nat)
    ensures Pages(cs, k) == cs[..if k * ITEMS_PER_PAGE < |cs| then k * ITEMS_PER_PAGE else |cs|]
  {
    if k > 0 {
      PagesCover(cs, k - 1);
      PageSliceIsWindow(cs, k);
    }
  }

  lemma AllPagesCover(cs: seq<Complaint>)
    ensures Pages(cs, PageCount(|cs|)) == cs
  {
    PagesCover(cs, PageCount(|cs|));
  }

  /** "Showing from to last of n", and "Page p of pages". */
  datatype RangeInfo = RangeInfo(from: int, last: int, total: int, page: int, pages: int)

  function Range(p: int, n: nat): RangeInfo
  {
    RangeInfo((p - 1) * ITEMS_PER_PAGE + 1, if p * ITEMS_PER_PAGE < n then p * ITEMS_PER_PAGE else n, n, p, PageCount(n))
  }

  /** On a page in range, the numbers shown count exactly the grievances on it, by their 1-based positions. */
  lemma RangeMatchesPage(cs: seq<Complaint>, p: int)
    requires 1 <= p <= PageCount(|cs|)
    ensures var r := Range(p, |cs|);
      && 1 <= r.from <= r.last <= |cs|
      && r.last - r.from + 1 == |PageSlice(cs, p)|
      && PageSlice(cs, p) == cs[r.from - 1..r.last]
  {
    PageSliceIsWindow(cs, p);
  }

  /** The pagination bar is rendered only when there is more than one page's worth. */
  predicate ControlsShown(n: nat)
  {
    n > ITEMS_PER_PAGE
  }

  /** What stands at page number q of the bar. */
  datatype PageItem = Button | Ellipsis | Nothing

  /**
   * A page number is a button when it is the first, the last or within one
   * of the current page; an ellipsis, checked first, replaces page 2 when
   * the current page is past 3 and the second-to-last page when the
   * current one is more than two before the end.
   */
  function PageItemAt(q: int, current: int, total: int): PageItem
  {
    var showPage := q == 1 || q == total || (q >= current - 1 && q <= current + 1);
    var showEllipsis := (q == 2 && current > 3) || (q == total - 1 && current < total - 2);
    if showEllipsis then Ellipsis else if showPage then Button else Nothing
  }

  /** The first, the last and the current page always have a button. */
  lemma AnchorsAreButtons(current: int, total: int)
    requires 1 <= current <= total
    ensures PageItemAt(1, current, total) == Button
    ensures PageItemAt(total, current, total) == Button
    ensures PageItemAt(current, current, total) == Button
  {
  }

  /**
   * The first and the last page keep their buttons on a stranded page too,
   * one past the end, as a deletion on the last page leaves it.
   */
  lemma EndsAreButtons(current: int, total: int)
    requires 1 <= current <= total + 1
    ensures PageItemAt(1, current, total) == Button
    ensures PageItemAt(total, current, total) == Button
  {
  }

  /**
   * A page without a button or an ellipsis lies inside a run the ellipsis
   * stands for: between page 2 and the current page, or between the
   * current page and the second-to-last.
   */
  lemma HiddenPagesUnderEllipsis(q: int, current: int, total: int)
    requires 1 <= current <= total && 1 <= q <= total
    requires PageItemAt(q, current, total) == Nothing
    ensures || (PageItemAt(2, current, total) == Ellipsis && 2 < q < current - 1)
            || (PageItemAt(total - 1, current, total) == Ellipsis && current + 1 < q < total - 1)
  {
  }

  /** An ellipsis stands only for pages that would otherwise have no button. */
  lemma EllipsisHidesOnlyFarPages(q: int, current: int, total: int)
    requires 1 <= current <= total && 1 <= q <= total
    requires PageItemAt(q, current, total) == Ellipsis
    ensures q != 1 && q != total && (q < current - 1 || q > current + 1)
  {
  }

  // ---------------------------------------------------------------------
  // Stats and preview
  // ---------------------------------------------------------------------

  function CountStatus(cs: seq<Complaint>, status: string): (k: nat)
    ensures k <= |cs|
  {
    if cs == [] then 0 else CountStatus(cs[..|cs| - 1], status) + (if cs[|cs| - 1].statusName == status then 1 else 0)
  }

  /** The stats set when the list loads; the average resolution time is a fixed 6.5. */
  function StatsOf(cs: seq<Complaint>): (s: Stats)
    ensures s.total == |cs| && s.resolved == CountStatus(cs, "Resolved") && s.active == CountStatus(cs, "In Progress")
  {
    Stats(|cs|, CountStatus(cs, "Resolved"), CountStatus(cs, "In Progress"), 6.5)
  }

  /** A grievance is at most one of resolved and in progress, so the two counts never exceed the total. */
  lemma {:induction false} ResolvedPlusActive(cs: seq<Complaint>, a: string, b: string)
    requires a != b
    ensures CountStatus(cs, a) + CountStatus(cs, b) <= |cs|
  {
    if cs != [] {
      ResolvedPlusActive(cs[..|cs| - 1], a, b);
    }
  }

  lemma StatsBounded(cs: seq<Complaint>)
    ensures StatsOf(cs).resolved + StatsOf(cs).active <= StatsOf(cs).total
  {
    ResolvedPlusActive(cs, "Resolved", "In Progress");
  }

  const PREVIEW_LENGTH: int := 80

  /** The card's message: a missing or empty one is replaced, a long one cut to 80 characters and "...". */
  function Preview(message: Option<string>): (r: string)
    ensures message.None? || message.value == "" ==> r == "No description provided"
    ensures message.Some? && 0 < |message.value| <= PREVIEW_LENGTH ==> r == message.value
    ensures message.Some? && |message.value| > PREVIEW_LENGTH ==>
      |r| == PREVIEW_LENGTH + 3 && r[..PREVIEW_LENGTH] == message.value[..PREVIEW_LENGTH] && r[PREVIEW_LENGTH..] == "..."
  {
    if message.None? || message.value == "" then "No description provided"
    else if |message.value| > PREVIEW_LENGTH then message.value[..PREVIEW_LENGTH] + "..."
    else message.value
  }

  /**
   * Every preview of a message fits in 83 characters. The preview equals
   * the message exactly when the message fits in 80, or when it is 80
   * characters already followed by "...".
   */
  lemma PreviewBounded(m: string)
    requires m != ""
    ensures |Preview(Some(m))| <= PREVIEW_LENGTH + 3
    ensures Preview(Some(m)) == m <==>
      |m| <= PREVIEW_LENGTH || (|m| == PREVIEW_LENGTH + 3 && m[PREVIEW_LENGTH..] == "...")
  {
    if |m| > PREVIEW_LENGTH {
      var r := Preview(Some(m));
      if |m| == PREVIEW_LENGTH + 3 && m[PREVIEW_LENGTH..] == "..." {
        assert m == m[..PREVIEW_LENGTH] + m[PREVIEW_LENGTH..];
      }
      if r == m {
        assert m[PREVIEW_LENGTH..] == r[PREVIEW_LENGTH..];
      }
    }
  }

  // ---------------------------------------------------------------------
  // The page's state and its handlers
  // ---------------------------------------------------------------------

  const MY_GRIEVANCES: string := "My Grievances"

  class DashboardPage {
    var complaints: seq<Complaint>
    var stats: Stats
    var currentPage: int
    var activeTab: string
    /** The id awaiting confirmation, and whether the dialog is open. */
    var complaintToDelete: Option<int>
    var showDeleteConfirm: bool
    var alerted: bool

    /** The page number is one the list has (page 1 when the list is empty). */
    predicate Valid()
      reads this
    {
      1 <= currentPage <= (if PageCount(|complaints|) == 0 then 1 else PageCount(|complaints|))
    }

    constructor()
      ensures complaints == [] && stats == Stats(0, 0, 0, 0.0) && currentPage == 1 && activeTab == "Dashboard"
      ensures complaintToDelete.None? && !showDeleteConfirm && !alerted
      ensures Valid()
    {
      complaints := [];
      stats := Stats(0, 0, 0, 0.0);
      currentPage := 1;
      activeTab := "Dashboard";
      complaintToDelete := None;
      showDeleteConfirm := false;
      alerted := false;
    }

    /** The list arrives once, while the page is still 1, and the stats are computed from it. */
    method Load(data: seq<Complaint>)
      modifies this
      ensures complaints == data && stats == StatsOf(data)
      ensures currentPage == old(currentPage) && activeTab == old(activeTab)
      ensures complaintToDelete == old(complaintToDelete) && showDeleteConfirm == old(showDeleteConfirm) && alerted == old(alerted)
      ensures old(currentPage) == 1 ==> Valid()
    {
      complaints := data;
      stats := StatsOf(data);
    }

    /** A tab click; only "My Grievances" goes back to page 1. */
    method SelectTab(tab: string)
      modifies this
      ensures activeTab == tab
      ensures currentPage == if tab == MY_GRIEVANCES then 1 else old(currentPage)
      ensures complaints == old(complaints) && stats == old(stats)
      ensures complaintToDelete == old(complaintToDelete) && showDeleteConfirm == old(showDeleteConfirm) && alerted == old(alerted)
      ensures old(Valid()) || tab == MY_GRIEVANCES ==> Valid()
    {
      activeTab := tab;
      if tab == MY_GRIEVANCES {
        currentPage := 1;
      }
    }

    /**
     * Previous: one page back, never before page 1. From a page at most one
     * past the last (where a single delete can leave it) it lands on a page
     * the list has.
     */
    method Previous()
      requires currentPage >= 1 && ControlsShown(|complaints|)
      modifies this
      ensures currentPage == if old(currentPage) - 1 > 1 then old(currentPage) - 1 else 1
      ensures complaints == old(complaints) && stats == old(stats) && activeTab == old(activeTab)
      ensures complaintToDelete == old(complaintToDelete) && showDeleteConfirm == old(showDeleteConfirm) && alerted == old(alerted)
      ensures old(currentPage) <= PageCount(|complaints|) + 1 ==> Valid()
    {
      currentPage := if currentPage - 1 > 1 then currentPage - 1 else 1;
    }

    /** Next: one page on, never past the last page, which also brings back a page past the end. */
    method Next()
      requires currentPage >= 1 && ControlsShown(|complaints|)
      modifies this
      ensures var last := PageCount(|complaints|);
        currentPage == if old(currentPage) + 1 < last then old(currentPage) + 1 else last
      ensures complaints == old(complaints) && stats == old(stats) && activeTab == old(activeTab)
      ensures complaintToDelete == old(complaintToDelete) && showDeleteConfirm == old(showDeleteConfirm) && alerted == old(alerted)
      ensures Valid()
    {
      var last := PageCount(|complaints|);
      currentPage := if currentPage + 1 < last then currentPage + 1 else last;
    }

    /** A page-number button. */
    method GoToPage(p: int)
      requires ControlsShown(|complaints|) && 1 <= p <= PageCount(|complaints|)
      modifies this
      ensures currentPage == p
      ensures complaints == old(complaints) && stats == old(stats) && activeTab == old(activeTab)
      ensures complaintToDelete == old(complaintToDelete) && showDeleteConfirm == old(showDeleteConfirm) && alerted == old(alerted)
      ensures Valid()
    {
      currentPage := p;
    }

    /** The delete button of a card: remember the id and open the dialog. */
    method DeleteClick(id: int)
      modifies this
      ensures complaintToDelete == Some(id) && showDeleteConfirm
      ensures complaints == old(complaints) && stats == old(stats) && currentPage == old(currentPage)
      ensures activeTab == old(activeTab) && alerted == old(alerted)
    {
      complaintToDelete := Some(id);
      showDeleteConfirm := true;
    }

    /**
     * confirmDelete as written: with no id (or the falsy id 0) nothing
     * happens; when the request succeeds the id is filtered out of the
     * list, the total drops by one and the dialog closes; when it fails an
     * alert is shown and the dialog stays. The page number is left as it
     * was.
     */
    method ConfirmDelete(requestSucceeds: bool)
      modifies this
      ensures old(complaintToDelete).None? || old(complaintToDelete) == Some(0) ==>
        && complaints == old(complaints) && stats == old(stats) && complaintToDelete == old(complaintToDelete)
        && showDeleteConfirm == old(showDeleteConfirm) && alerted == old(alerted)
      ensures old(complaintToDelete).Some? && old(complaintToDelete) != Some(0) && requestSucceeds ==>
        && complaints == Without(old(complaints), old(complaintToDelete).value)
        && stats == old(stats).(total := old(stats).total - 1)
        && complaintToDelete.None? && !showDeleteConfirm && alerted == old(alerted)
      ensures old(complaintToDelete).Some? && old(complaintToDelete) != Some(0) && !requestSucceeds ==>
        && complaints == old(complaints) && stats == old(stats) && complaintToDelete == old(complaintToDelete)
        && showDeleteConfirm == old(showDeleteConfirm) && alerted
      ensures currentPage == old(currentPage) && activeTab == old(activeTab)
    {
      if complaintToDelete.None? || complaintToDelete == Some(0) {
        return;
      }
      if requestSucceeds {
        complaints := Without(complaints, complaintToDelete.value);
        stats := stats.(total := stats.total - 1);
        showDeleteConfirm := false;
        complaintToDelete := None;
      } else {
        alerted := true;
      }
    }

    /**
     * confirmDelete with the page brought back into range after the list
     * shrinks: the same three outcomes, and a page the list has.
     */
    method ConfirmDeleteClamped(requestSucceeds: bool)
      modifies this
      ensures old(complaintToDelete).None? || old(complaintToDelete) == Some(0) ==>
        && complaints == old(complaints) && stats == old(stats) && complaintToDelete == old(complaintToDelete)
        && showDeleteConfirm == old(showDeleteConfirm) && alerted == old(alerted)
      ensures old(complaintToDelete).Some? && old(complaintToDelete) != Some(0) && requestSucceeds ==>
        && complaints == Without(old(complaints), old(complaintToDelete).value)
        && stats == old(stats).(total := old(stats).total - 1)
        && complaintToDelete.None? && !showDeleteConfirm && alerted == old(alerted)
      ensures old(complaintToDelete).Some? && old(complaintToDelete) != Some(0) && !requestSucceeds ==>
        && complaints == old(complaints) && stats == old(stats) && complaintToDelete == old(complaintToDelete)
        && showDeleteConfirm == old(showDeleteConfirm) && alerted
      ensures currentPage == ClampPage(old(currentPage), |complaints|)
      ensures activeTab == old(activeTab)
      ensures Valid()
    {
      ConfirmDelete(requestSucceeds);
      currentPage := ClampPage(currentPage, |complaints|);
    }
  }

  /** The list with every grievance of the given id removed. */
  function Without(cs: seq<Complaint>, id: int): (r: seq<Complaint>)
    ensures |r| <= |cs|
    ensures forall c :: c in r <==> c in cs && c.id != id
  {
    if cs == [] then []
    else Without(cs[..|cs| - 1], id) + (if cs[|cs| - 1].id == id then [] else [cs[|cs| - 1]])
  }

  /** Removing an id that occurs once shortens the list by one, so a total that matched the list still does. */
  lemma {:induction false} WithoutOnce(cs: seq<Complaint>, id: int, i: int)
    requires 0 <= i < |cs| && cs[i].id == id
    requires forall j :: 0 <= j < |cs| && j != i ==> cs[j].id != id
    ensures |Without(cs, id)| == |cs| - 1
  {
    var init := cs[..|cs| - 1];
    if i < |cs| - 1 {
      WithoutOnce(init, id, i);
    } else {
      WithoutNone(init, id);
    }
  }

  lemma {:induction false} WithoutNone(cs: seq<Complaint>, id: int)
    requires forall j :: 0 <= j < |cs| ==> cs[j].id != id
    ensures Without(cs, id) == cs
  {
    if cs != [] {
      WithoutNone(cs[..|cs| - 1], id);
      assert cs == cs[..|cs| - 1] + [cs[|cs| - 1]];
    }
  }

  /** The last page that exists for n grievances, and the page itself when it still exists. */
  function ClampPage(p: int, n: nat): (r: int)
    ensures 1 <= r <= (if PageCount(n) == 0 then 1 else PageCount(n))
    ensures 1 <= p <= PageCount(n) ==> r == p
  {
    var last := if PageCount(n) == 0 then 1 else PageCount(n);
    if p > last then last else if p < 1 then 1 else p
  }

  /**
   * With six grievances, on page 2, deleting the sixth leaves five: page 2
   * is then empty while the list is not, and with only five the bar that
   * could lead back is not rendered.
   */
  method DeleteStrandsPage() returns (d: DashboardPage)
    ensures |d.complaints| == 5 && d.currentPage == 2
    ensures PageSlice(d.complaints, d.currentPage) == []
    ensures !ControlsShown(|d.complaints|) && !d.Valid()
  {
    var c := Complaint(1, "Pending", None);
    var sixth := Complaint(6, "Pending", None);
    d := new DashboardPage();
    d.Load([c, c, c, c, c, sixth]);
    d.GoToPage(2);
    d.DeleteClick(6);
    d.ConfirmDelete(true);
    assert Without([c, c, c, c, c], 6) == [c, c, c, c, c] by {
      WithoutNone([c, c, c, c, c], 6);
    }
    assert [c, c, c, c, c, sixth][..5] == [c, c, c, c, c];
    assert d.complaints == [c, c, c, c, c];
  }

  /**
   * With eleven grievances, on page 3, deleting the eleventh leaves ten on
   * two pages: page 3 is empty but the bar is still rendered, and Next (or
   * Previous) brings the page back to 2.
   */
  method StrandedPageRecovers() returns (d: DashboardPage)
    ensures |d.complaints| == 10 && d.currentPage == 2 && d.Valid()
  {
    var c := Complaint(1, "Pending", None);
    var last := Complaint(11, "Pending", None);
    var ten := [c, c, c, c, c, c, c, c, c, c];
    d := new DashboardPage();
    d.Load(ten + [last]);
    d.GoToPage(3);
    d.DeleteClick(11);
    d.ConfirmDelete(true);
    assert Without(ten, 11) == ten by {
      WithoutNone(ten, 11);
    }
    assert (ten + [last])[..10] == ten;
    assert d.complaints == ten;
    assert d.currentPage == 3 && !d.Valid() && ControlsShown(|d.complaints|);
    d.Next();
  }
}

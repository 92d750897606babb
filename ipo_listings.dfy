/** The IPO listings page: status tabs with counts, a search over company
    and sector, a sort on one of six keys, and the cards that remain. */
module IpoListings {
  import opened Common
  import opened Text
  import opened Sorting
  import opened SortControls

  datatype PriceRange = PriceRange(min: real, max: real)

  /** An IPO of the catalogue; dates are ISO `yyyy-mm-dd` strings. */
  datatype Ipo = Ipo(
    id: string,
    companyName: string,
    sector: string,
    category: string,
    status: string,
    priceRange: Option<PriceRange>,
    minInvestment: Option<real>,
    openingDate: string,
    closingDate: string,
    subscriptionLevel: Option<real>)

  /** The status tab keeps its own IPOs: `open` the current ones, `closed`
      and `upcoming` their namesakes, and `all` (or any other tab) every
      one. */
  function PassesStatus(ipo: Ipo, statusFilter: string): (r: bool)
    ensures statusFilter !in {"open", "closed", "upcoming"} ==> r
    ensures statusFilter in {"closed", "upcoming"} ==> (r <==> ipo.status == statusFilter)
    ensures r && statusFilter == "open" ==> ipo.status != "open"
  {
    match statusFilter
    case "open" => ipo.status == "current"
    case "closed" => ipo.status == "closed"
    case "upcoming" => ipo.status == "upcoming"
    case _ => true
  }

  /** An empty term keeps everything; otherwise the term must occur in the
      company name or the sector, ignoring case. */
  function PassesSearch(ipo: Ipo, term: string): (r: bool)
    ensures term == "" ==> r
    ensures |term| > |ipo.companyName| && |term| > |ipo.sector| ==> !r
    ensures ContainsIgnoringCase(ipo.companyName, term) ==> r
  {
    term == "" || ContainsIgnoringCase(ipo.companyName, term) || ContainsIgnoringCase(ipo.sector, term)
  }

  predicate Shown(ipo: Ipo, statusFilter: string, term: string) {
    PassesStatus(ipo, statusFilter) && PassesSearch(ipo, term)
  }

  /** The value the comparator reads for `sortBy`: the lower-cased name,
      a date, or a number where a missing one counts as 0; an unknown key
      sorts on the closing date. */
  function SortValue(ipo: Ipo, sortBy: string): (r: SortKey)
    ensures r.Num? <==> sortBy in {"priceRange", "subscriptionLevel", "minInvestment"}
    ensures r.Str? && sortBy != "companyName" ==> r.s == ipo.openingDate || r.s == ipo.closingDate
    ensures sortBy == "companyName" ==> |r.s| == |ipo.companyName|
  {
    match sortBy
    case "companyName" => Str(Lower(ipo.companyName))
    case "openingDate" => Str(ipo.openingDate)
    case "closingDate" => Str(ipo.closingDate)
    case "priceRange" => Num(if ipo.priceRange.Some? then ipo.priceRange.value.min else 0.0)
    case "subscriptionLevel" => Num(ipo.subscriptionLevel.GetOr(0.0))
    case "minInvestment" => Num(ipo.minInvestment.GetOr(0.0))
    case _ => Str(ipo.closingDate)
  }

  /** A key the page does not know orders like the closing date. */
  lemma UnknownKeySortsByClosingDate(ipo: Ipo, sortBy: string)
    requires sortBy !in {"companyName", "openingDate", "closingDate", "priceRange", "subscriptionLevel", "minInvestment"}
    ensures SortValue(ipo, sortBy) == SortValue(ipo, "closingDate")
  {
  }

  /** An IPO without a price range, subscription or minimum investment
      sorts as if that number were 0. */
  lemma MissingNumbersSortAsZero(ipo: Ipo)
    requires ipo.priceRange.None? && ipo.subscriptionLevel.None? && ipo.minInvestment.None?
    ensures SortValue(ipo, "priceRange") == Num(0.0)
    ensures SortValue(ipo, "subscriptionLevel") == Num(0.0)
    ensures SortValue(ipo, "minInvestment") == Num(0.0)
  {
  }

  /** `filteredAndSortedIPOs`: the catalogue IPOs that pass the status tab
      and the search, each as often as in the catalogue, ordered on the
      key, ascending when the order is `asc` and descending otherwise. */
  function FilteredAndSorted(catalogue: seq<Ipo>, statusFilter: string, term: string, sortBy: string, sortOrder: string)
    : (r: seq<Ipo>)
    ensures forall ipo :: ipo in r <==> ipo in catalogue && Shown(ipo, statusFilter, term)
    ensures multiset(r) <= multiset(catalogue)
    ensures forall i, j :: 0 <= i < j < |r| ==>
      if sortOrder == Asc then KeyLe(SortValue(r[i], sortBy), SortValue(r[j], sortBy))
      else KeyLe(SortValue(r[j], sortBy), SortValue(r[i], sortBy))
  {
    var kept := Filter(catalogue, (ipo: Ipo) => Shown(ipo, statusFilter, term));
    var r := SortByKey(kept, (ipo: Ipo) => SortValue(ipo, sortBy), sortOrder != Asc);
    assert forall ipo :: ipo in r <==> ipo in kept by {
      forall ipo
        ensures ipo in r <==> ipo in kept
      {
        assert ipo in r <==> ipo in multiset(r);
      }
    }
    r
  }

  /** With the `all` tab and no search every IPO is listed, each once per
      catalogue entry. */
  lemma {:induction false} NoFiltersListsEverything(catalogue: seq<Ipo>, sortBy: string, sortOrder: string)
    ensures multiset(FilteredAndSorted(catalogue, "all", "", sortBy, sortOrder)) == multiset(catalogue)
  {
    var p := (ipo: Ipo) => Shown(ipo, "all", "");
    FilterKeepsAll(catalogue, p);
    var kept := Filter(catalogue, p);
    assert multiset(SortByKey(kept, (ipo: Ipo) => SortValue(ipo, sortBy), sortOrder != Asc)) == multiset(catalogue);
  }

  /** A tab of the status navigation. */
  datatype StatusTab = StatusTab(id: string, title: string, icon: string, count: nat)

  /** The number of catalogue IPOs with the given status. */
  function CountWithStatus(catalogue: seq<Ipo>, status: string): nat {
    |Filter(catalogue, (ipo: Ipo) => ipo.status == status)|
  }

  /** `statusFilters`: All, Open, Upcoming and Closed with their counts. */
  function StatusFilters(catalogue: seq<Ipo>): (r: seq<StatusTab>)
    ensures |r| == 4
    ensures r[0].id == "all" && r[1].id == "open" && r[2].id == "upcoming" && r[3].id == "closed"
  {
    [ StatusTab("all", "All IPOs", "List", |catalogue|),
      StatusTab("open", "Open", "TrendingUp", CountWithStatus(catalogue, "current")),
      StatusTab("upcoming", "Upcoming", "Clock", CountWithStatus(catalogue, "upcoming")),
      StatusTab("closed", "Closed", "CheckCircle", CountWithStatus(catalogue, "closed")) ]
  }

  /** Two filters with predicates that agree keep the same number of IPOs. */
  lemma SameCount(catalogue: seq<Ipo>, p: Ipo -> bool, q: Ipo -> bool)
    requires forall ipo :: p(ipo) == q(ipo)
    ensures |Filter(catalogue, p)| == |Filter(catalogue, q)|
  {
    FilterExtensional(catalogue, p, q);
  }

  /** Sorting keeps the number of IPOs the filters kept. */
  lemma ListedCount(catalogue: seq<Ipo>, statusFilter: string, term: string, sortBy: string, sortOrder: string)
    ensures |FilteredAndSorted(catalogue, statusFilter, term, sortBy, sortOrder)|
      == |Filter(catalogue, (ipo: Ipo) => Shown(ipo, statusFilter, term))|
  {
    var kept := Filter(catalogue, (ipo: Ipo) => Shown(ipo, statusFilter, term));
    assert |multiset(SortByKey(kept, (ipo: Ipo) => SortValue(ipo, sortBy), sortOrder != Asc))| == |multiset(kept)|;
  }

  /** The badge of a status tab counts the cards that tab lists with no
      search. */
  lemma StatusTabCount(catalogue: seq<Ipo>, id: string, status: string, sortBy: string, sortOrder: string)
    requires (id, status) in {("open", "current"), ("upcoming", "upcoming"), ("closed", "closed")}
    ensures CountWithStatus(catalogue, status) == |FilteredAndSorted(catalogue, id, "", sortBy, sortOrder)|
  {
    ListedCount(catalogue, id, "", sortBy, sortOrder);
    SameCount(catalogue, (ipo: Ipo) => Shown(ipo, id, ""), (ipo: Ipo) => ipo.status == status);
  }

  /** The `all` badge counts the whole catalogue, which is what that tab
      lists with no search. */
  lemma AllTabCount(catalogue: seq<Ipo>, sortBy: string, sortOrder: string)
    ensures |catalogue| == |FilteredAndSorted(catalogue, "all", "", sortBy, sortOrder)|
  {
    NoFiltersListsEverything(catalogue, sortBy, sortOrder);
    assert |multiset(FilteredAndSorted(catalogue, "all", "", sortBy, sortOrder))| == |multiset(catalogue)|;
  }

  /** The badge of the tab at position `k` counts the cards it lists. */
  lemma TabCount(catalogue: seq<Ipo>, k: nat, sortBy: string, sortOrder: string)
    requires k < 4
    ensures StatusFilters(catalogue)[k].count
      == |FilteredAndSorted(catalogue, StatusFilters(catalogue)[k].id, "", sortBy, sortOrder)|
  {
    var tabs := StatusFilters(catalogue);
    if k == 0 {
      AllTabCount(catalogue, sortBy, sortOrder);
    } else if k == 1 {
      assert tabs[k] == StatusTab("open", "Open", "TrendingUp", CountWithStatus(catalogue, "current"));
      StatusTabCount(catalogue, "open", "current", sortBy, sortOrder);
    } else if k == 2 {
      assert tabs[k] == StatusTab("upcoming", "Upcoming", "Clock", CountWithStatus(catalogue, "upcoming"));
      StatusTabCount(catalogue, "upcoming", "upcoming", sortBy, sortOrder);
    } else {
      assert tabs[k] == StatusTab("closed", "Closed", "CheckCircle", CountWithStatus(catalogue, "closed"));
      StatusTabCount(catalogue, "closed", "closed", sortBy, sortOrder);
    }
  }

  /** Every tab's badge is the number of cards the tab lists while the
      search is empty, whatever the sort. */
  lemma TabCountsMatchListings(catalogue: seq<Ipo>, sortBy: string, sortOrder: string)
    ensures forall k :: 0 <= k < 4 ==>
      StatusFilters(catalogue)[k].count == |FilteredAndSorted(catalogue, StatusFilters(catalogue)[k].id, "", sortBy, sortOrder)|
  {
    forall k | 0 <= k < 4
      ensures StatusFilters(catalogue)[k].count
        == |FilteredAndSorted(catalogue, StatusFilters(catalogue)[k].id, "", sortBy, sortOrder)|
    {
      TabCount(catalogue, k, sortBy, sortOrder);
    }
  }

  class ListingsPage {
    /** The catalogue the page lists. */
    const catalogue: seq<Ipo>
    var searchTerm: string
    var sortBy: string
    var sortOrder: string
    var viewMode: string
    var activeStatusFilter: string
    /** The spinner shown while the half-second loading timer runs. */
    var loading: bool

    /** The cards for the current search, tab and sort. */
    function Listed(): seq<Ipo>
      reads this
    {
      FilteredAndSorted(catalogue, activeStatusFilter, searchTerm, sortBy, sortOrder)
    }

    /** The "No IPOs Found" panel, with its Clear Filters button. */
    predicate NothingFound()
      reads this
    {
      !loading && Listed() == []
    }

    /** The first render: closing date ascending, grid view, every tab,
        and the loading spinner. */
    constructor(catalogue: seq<Ipo>)
      ensures this.catalogue == catalogue
      ensures searchTerm == "" && sortBy == "closingDate" && sortOrder == Asc
      ensures viewMode == "grid" && activeStatusFilter == "all" && loading
    {
      this.catalogue := catalogue;
      searchTerm := "";
      sortBy := "closingDate";
      sortOrder := Asc;
      viewMode := "grid";
      activeStatusFilter := "all";
      loading := true;
    }

    /** The loading timer fires and the cards are shown. */
    method LoadingDone()
      modifies this
      ensures !loading
      ensures searchTerm == old(searchTerm) && sortBy == old(sortBy) && sortOrder == old(sortOrder)
      ensures viewMode == old(viewMode) && activeStatusFilter == old(activeStatusFilter)
    {
      loading := false;
    }

    /** `handleSearch`, called by the search box on every keystroke: a new
        term restarts the loading spinner. */
    method HandleSearch(term: string)
      modifies this
      ensures searchTerm == term
      ensures sortBy == old(sortBy) && sortOrder == old(sortOrder)
      ensures viewMode == old(viewMode) && activeStatusFilter == old(activeStatusFilter)
      ensures loading == (old(loading) || term != old(searchTerm))
      ensures Listed() == FilteredAndSorted(catalogue, activeStatusFilter, term, sortBy, sortOrder)
    {
      if term != searchTerm {
        loading := true;
      }
      searchTerm := term;
    }

    /** `handleSortChange`, with the pair the sort controls computed. */
    method HandleSortChange(field: string, order: string)
      modifies this
      ensures sortBy == field && sortOrder == order
      ensures searchTerm == old(searchTerm) && viewMode == old(viewMode) && activeStatusFilter == old(activeStatusFilter)
      ensures loading == (old(loading) || field != old(sortBy) || order != old(sortOrder))
    {
      if field != sortBy || order != sortOrder {
        loading := true;
      }
      sortBy := field;
      sortOrder := order;
    }

    /** `handleViewModeChange`: grid or list, with no reload. */
    method HandleViewModeChange(mode: string)
      modifies this
      ensures viewMode == mode
      ensures searchTerm == old(searchTerm) && sortBy == old(sortBy) && sortOrder == old(sortOrder)
      ensures activeStatusFilter == old(activeStatusFilter) && loading == old(loading)
    {
      viewMode := mode;
    }

    /** `handleStatusFilterChange`: a tab is chosen. */
    method HandleStatusFilterChange(filterId: string)
      modifies this
      ensures activeStatusFilter == filterId
      ensures searchTerm == old(searchTerm) && sortBy == old(sortBy) && sortOrder == old(sortOrder)
      ensures viewMode == old(viewMode)
      ensures loading == (old(loading) || filterId != old(activeStatusFilter))
    {
      if filterId != activeStatusFilter {
        loading := true;
      }
      activeStatusFilter := filterId;
    }

    /** Clear Filters on the empty panel: no search and the `all` tab,
        after which every catalogue IPO is listed again. */
    method ClearFilters()
      modifies this
      ensures searchTerm == "" && activeStatusFilter == "all"
      ensures sortBy == old(sortBy) && sortOrder == old(sortOrder) && viewMode == old(viewMode)
      ensures loading == (old(loading) || old(searchTerm) != "" || old(activeStatusFilter) != "all")
      ensures multiset(Listed()) == multiset(catalogue)
    {
      if searchTerm != "" || activeStatusFilter != "all" {
        loading := true;
      }
      searchTerm := "";
      activeStatusFilter := "all";
      NoFiltersListsEverything(catalogue, sortBy, sortOrder);
    }
  }
}

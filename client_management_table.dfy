/** The sub-broker's client table: a search box and a status filter over the
    roster, sortable columns, ten rows a page, and a set of ticked rows. */
module ClientManagement {
  import opened Common
  import opened Text
  import opened Sorting
  import opened SortControls

  datatype ManagedClient = ManagedClient(
    id: nat,
    name: string,
    email: string,
    phone: string,
    status: string,
    verificationStatus: string,
    totalInvestment: real,
    lastActivity: string)

  const ItemsPerPage: nat := 10

  /** The search term occurs in the name or the e-mail ignoring case, or in
      the phone number as typed. */
  predicate MatchesSearch(c: ManagedClient, term: string) {
    || ContainsIgnoringCase(c.name, term)
    || ContainsIgnoringCase(c.email, term)
    || Contains(c.phone, term)
  }

  /** The status filter is `all`, or names the account status or the
      verification status in lower case. */
  predicate MatchesStatus(c: ManagedClient, statusFilter: string) {
    || statusFilter == "all"
    || Lower(c.status) == statusFilter
    || Lower(c.verificationStatus) == statusFilter
  }

  predicate Kept(c: ManagedClient, term: string, statusFilter: string) {
    MatchesSearch(c, term) && MatchesStatus(c, statusFilter)
  }

  /** The four sortable column headers. */
  datatype SortField = Name | Status | TotalInvestment | LastActivity

  /** The value a column sorts on: strings lower-cased, the investment as a
      number. */
  function ColumnKey(c: ManagedClient, f: SortField): SortKey {
    match f
    case Name => Str(Lower(c.name))
    case Status => Str(Lower(c.status))
    case TotalInvestment => Num(c.totalInvestment)
    case LastActivity => Str(Lower(c.lastActivity))
  }

  /** `filteredAndSortedClients`: exactly the roster's clients that pass
      the search and the status filter, each at most as often as on the
      roster, ordered on the column, ascending when the direction is `asc`
      and descending otherwise. */
  function Rows(roster: seq<ManagedClient>, term: string, statusFilter: string, field: SortField, direction: string)
    : (r: seq<ManagedClient>)
    ensures forall c :: c in r <==> c in roster && Kept(c, term, statusFilter)
    ensures multiset(r) <= multiset(roster)
    ensures forall c :: multiset(r)[c] == if Kept(c, term, statusFilter) then multiset(roster)[c] else 0
    ensures forall i, j :: 0 <= i < j < |r| ==>
      if direction == Asc then KeyLe(ColumnKey(r[i], field), ColumnKey(r[j], field))
      else KeyLe(ColumnKey(r[j], field), ColumnKey(r[i], field))
  {
    var kept := Filter(roster, (c: ManagedClient) => Kept(c, term, statusFilter));
    var r := SortByKey(kept, (c: ManagedClient) => ColumnKey(c, field), direction != Asc);
    assert forall c :: c in r <==> c in kept by {
      forall c
        ensures c in r <==> c in kept
      {
        assert c in r <==> c in multiset(r);
      }
    }
    assert forall c :: multiset(r)[c] == if Kept(c, term, statusFilter) then multiset(roster)[c] else 0 by {
      forall c
        ensures multiset(r)[c] == if Kept(c, term, statusFilter) then multiset(roster)[c] else 0
      {
        FilterCounts(roster, (c: ManagedClient) => Kept(c, term, statusFilter), c);
      }
    }
    r
  }

  /** `totalPages`: `Math.ceil(n / 10)`. */
  function TotalPages(n: nat): (r: nat)
    ensures r * ItemsPerPage >= n
    ensures r > 0 ==> (r - 1) * ItemsPerPage < n
    ensures r == 0 <==> n == 0
  {
    (n + ItemsPerPage - 1) / ItemsPerPage
  }

  /** `paginatedClients`: the slice of ten rows the page shows. */
  function PageOf<T>(rows: seq<T>, page: nat): (r: seq<T>)
    requires page >= 1
    ensures |r| <= ItemsPerPage
    ensures forall i :: 0 <= i < |r| ==> (page - 1) * ItemsPerPage + i < |rows| && r[i] == rows[(page - 1) * ItemsPerPage + i]
    ensures page * ItemsPerPage <= |rows| ==> |r| == ItemsPerPage
  {
    Slice(rows, (page - 1) * ItemsPerPage, (page - 1) * ItemsPerPage + ItemsPerPage)
  }

  /** Every row is shown on exactly one page, and that page exists: row `i`
      is item `i % 10` of page `i / 10 + 1`. */
  lemma EveryRowOnAPage<T>(rows: seq<T>, i: nat)
    requires i < |rows|
    ensures var page := i / ItemsPerPage + 1;
      && 1 <= page <= TotalPages(|rows|)
      && i % ItemsPerPage < |PageOf(rows, page)|
      && PageOf(rows, page)[i % ItemsPerPage] == rows[i]
  {
    var page := i / ItemsPerPage + 1;
    var start := (page - 1) * ItemsPerPage;
    assert start == i - i % ItemsPerPage;
    var end := if start + ItemsPerPage < |rows| then start + ItemsPerPage else |rows|;
    assert PageOf(rows, page) == rows[start..end];
  }

  // ---------------------------------------------------------------------
  // Ticked rows

  /** The ids of a page's rows. */
  function PageIds(page: seq<ManagedClient>): (r: set<nat>)
    ensures forall id :: id in r <==> exists i :: 0 <= i < |page| && page[i].id == id
  {
    if page == [] then {}
    else
      var rest := PageIds(page[1..]);
      assert forall i :: 1 <= i < |page| ==> page[i] == page[1..][i - 1];
      {page[0].id} + rest
  }

  /** `handleSelectAll`: when as many rows are ticked as the page shows,
      everything is unticked; otherwise exactly the page's rows are ticked.
      Only the counts are compared, not which rows are ticked. */
  function SelectAllResult(selected: set<nat>, page: seq<ManagedClient>): (r: set<nat>)
    ensures |selected| == |page| ==> r == {}
    ensures |selected| != |page| ==> forall id :: id in r <==> exists i :: 0 <= i < |page| && page[i].id == id
  {
    if |selected| == |page| then {} else PageIds(page)
  }

  predicate DistinctIds(page: seq<ManagedClient>) {
    forall i, j :: 0 <= i < j < |page| ==> page[i].id != page[j].id
  }

  /** A page of rows with distinct ids has as many ids as rows. */
  lemma {:induction false} PageIdsCount(page: seq<ManagedClient>)
    requires DistinctIds(page)
    ensures |PageIds(page)| == |page|
  {
    if page != [] {
      var rest := page[1..];
      PageIdsCount(rest);
      forall k | 0 <= k < |rest|
        ensures rest[k].id != page[0].id
      {
        assert rest[k] == page[k + 1];
      }
    }
  }

  /** On a non-empty page whose rows have distinct ids, pressing select-all
      twice from a partial selection ticks the page and then unticks it. */
  lemma SelectAllTwice(selected: set<nat>, page: seq<ManagedClient>)
    requires DistinctIds(page) && |selected| != |page|
    ensures SelectAllResult(selected, page) == PageIds(page)
    ensures SelectAllResult(SelectAllResult(selected, page), page) == {}
  {
    PageIdsCount(page);
  }

  /** The comparison is by count only: one ticked row elsewhere and a
      one-row page make select-all untick instead of ticking the page. */
  lemma SelectAllByCountOnly(c: ManagedClient)
    requires c.id != 99
    ensures SelectAllResult({99}, [c]) == {}
    ensures c.id !in SelectAllResult({99}, [c])
  {
    assert |{99}| == 1;
  }

  class ClientTable {
    const roster: seq<ManagedClient>
    var searchTerm: string
    var statusFilter: string
    var sortField: SortField
    var sortDirection: string
    var selected: set<nat>
    var currentPage: nat

    ghost predicate Valid()
      reads this
    {
      currentPage >= 1 && (sortDirection == Asc || sortDirection == Desc)
    }

    constructor(roster: seq<ManagedClient>)
      ensures Valid()
      ensures this.roster == roster && searchTerm == "" && statusFilter == "all"
      ensures sortField == Name && sortDirection == Asc
      ensures selected == {} && currentPage == 1
    {
      this.roster := roster;
      searchTerm, statusFilter := "", "all";
      sortField, sortDirection := Name, Asc;
      selected, currentPage := {}, 1;
    }

    function Visible(): seq<ManagedClient>
      reads this`searchTerm, this`statusFilter, this`sortField, this`sortDirection
    {
      Rows(roster, searchTerm, statusFilter, sortField, sortDirection)
    }

    function Page(): seq<ManagedClient>
      reads this
      requires currentPage >= 1
    {
      PageOf(Visible(), currentPage)
    }

    function PageCount(): nat
      reads this`searchTerm, this`statusFilter, this`sortField, this`sortDirection
    {
      TotalPages(|Visible()|)
    }

    /** Typing in the search box; the page number is left as it is. */
    method SetSearchTerm(term: string)
      requires Valid()
      modifies this
      ensures Valid()
      ensures searchTerm == term
      ensures statusFilter == old(statusFilter) && sortField == old(sortField) && sortDirection == old(sortDirection)
      ensures selected == old(selected) && currentPage == old(currentPage)
    {
      searchTerm := term;
    }

    /** Choosing a status option; the page number is left as it is. */
    method SetStatusFilter(filter: string)
      requires Valid()
      modifies this
      ensures Valid()
      ensures statusFilter == filter
      ensures searchTerm == old(searchTerm) && sortField == old(sortField) && sortDirection == old(sortDirection)
      ensures selected == old(selected) && currentPage == old(currentPage)
    {
      statusFilter := filter;
    }

    /** `handleSort(field)`: the current column flips its direction, another
        column sorts ascending. */
    method HandleSort(field: SortField)
      requires Valid()
      modifies this
      ensures Valid()
      ensures sortField == field
      ensures field == old(sortField) ==> sortDirection == Flipped(old(sortDirection))
      ensures field != old(sortField) ==> sortDirection == Asc
      ensures searchTerm == old(searchTerm) && statusFilter == old(statusFilter)
      ensures selected == old(selected) && currentPage == old(currentPage)
    {
      var next := NextSort(sortField, sortDirection, field);
      sortField, sortDirection := next.0, next.1;
    }

    /** The header checkbox. */
    method SelectAll()
      requires Valid()
      modifies this
      ensures Valid()
      ensures selected == SelectAllResult(old(selected), old(Page()))
      ensures searchTerm == old(searchTerm) && statusFilter == old(statusFilter)
      ensures sortField == old(sortField) && sortDirection == old(sortDirection)
      ensures currentPage == old(currentPage)
    {
      selected := SelectAllResult(selected, Page());
    }

    /** A row's checkbox. */
    method SelectClient(id: nat)
      requires Valid()
      modifies this
      ensures Valid()
      ensures selected == SetToggled(old(selected), id)
      ensures searchTerm == old(searchTerm) && statusFilter == old(statusFilter)
      ensures sortField == old(sortField) && sortDirection == old(sortDirection)
      ensures currentPage == old(currentPage)
    {
      selected := SetToggled(selected, id);
    }

    /** The previous-page button, shown only when there is more than one
        page: `Math.max(1, currentPage - 1)`. */
    method PreviousPage()
      requires Valid() && PageCount() > 1
      modifies this`currentPage
      ensures Valid()
      ensures currentPage == if old(currentPage) > 1 then old(currentPage) - 1 else 1
      ensures old(currentPage) <= old(PageCount()) ==> currentPage <= old(PageCount())
      ensures searchTerm == old(searchTerm) && statusFilter == old(statusFilter)
      ensures sortField == old(sortField) && sortDirection == old(sortDirection)
      ensures selected == old(selected)
    {
      currentPage := if currentPage > 1 then currentPage - 1 else 1;
    }

    /** The next-page button, shown only when there is more than one page:
        `Math.min(totalPages, currentPage + 1)`. It also brings back a page
        number left beyond the end by a narrower search. */
    method NextPage()
      requires Valid() && PageCount() > 1
      modifies this`currentPage
      ensures Valid()
      ensures currentPage == if old(currentPage) + 1 < old(PageCount()) then old(currentPage) + 1 else old(PageCount())
      ensures 1 <= currentPage <= old(PageCount())
      ensures searchTerm == old(searchTerm) && statusFilter == old(statusFilter)
      ensures sortField == old(sortField) && sortDirection == old(sortDirection)
      ensures selected == old(selected)
    {
      var total := PageCount();
      currentPage := if currentPage + 1 < total then currentPage + 1 else total;
    }
  }
}

/** The allotment-status table: the applications narrowed by the search box
    and the status tab, rows that expand to show their details, and column
    headers that remember a sort request. */
module AllotmentStatus {
  import opened Common
  import opened Text
  import opened SortControls
  import Numbers

  /** One IPO application as the table lists it. Amounts are the display
      strings the rows carry. */
  datatype Application = Application(
    id: nat,
    ipoName: string,
    clientName: string,
    applicationDate: string,
    lotSize: nat,
    investmentAmount: string,
    status: string,
    allottedQuantity: nat,
    refundAmount: string,
    category: string)

  // ---------------------------------------------------------------------
  // Status tabs

  /** `s.replace(' ', '-')` with a string pattern: only the first space
      becomes a dash. */
  function ReplaceFirstSpace(s: string): (r: string)
    ensures |r| == |s|
    ensures forall j :: 0 <= j < |s| && s[j] != ' ' ==> r[j] == s[j]
    ensures forall j :: 0 <= j < |s| && r[j] == '-' ==> s[j] == '-' || s[j] == ' '
  {
    match IndexOfChar(s, ' ')
    case None => s
    case Some(k) => s[k := '-']
  }

  /** The tab id a status belongs to: lower-cased, first space dashed. */
  function StatusSlug(status: string): (r: string)
    ensures |r| == |status|
  {
    ReplaceFirstSpace(Lower(status))
  }

  /** A status with two spaces keeps the second one, so such a status can
      never match a fully dashed tab id. */
  lemma OnlyFirstSpaceDashed(status: string, i: nat, j: nat)
    requires i < j < |status| && status[i] == ' ' && status[j] == ' '
    ensures StatusSlug(status)[j] == ' '
  {
    var low := Lower(status);
    assert low[i] == ' ' && low[j] == ' ';
    var k := IndexOfChar(low, ' ').value;
    assert k <= i;
  }

  /** Two words around one space become the lower-cased words joined by a
      dash. */
  lemma TwoWordSlug(first: string, second: string)
    requires forall j :: 0 <= j < |first| ==> first[j] != ' '
    ensures StatusSlug(first + " " + second) == Lower(first) + "-" + Lower(second)
  {
    var s := first + " " + second;
    var low := Lower(s);
    assert low[|first|] == ' ';
    assert forall j :: 0 <= j < |first| ==> low[j] != ' ';
    assert IndexOfChar(low, ' ') == Some(|first|);
    assert low[|first| := '-'] == Lower(first) + "-" + Lower(second);
  }

  /** 'Not Allotted' is listed under the 'not-allotted' tab. */
  lemma NotAllottedSlug()
    ensures StatusSlug("Not Allotted") == "not-allotted"
  {
    NotAllottedWords();
    TwoWordSlug("Not", "Allotted");
  }

  /** The two words of 'Not Allotted', lower-cased. */
  lemma NotAllottedWords()
    ensures "Not Allotted" == "Not" + " " + "Allotted"
    ensures Lower("Not") == "not" && Lower("Allotted") == "allotted"
    ensures forall j :: 0 <= j < |"Not"| ==> "Not"[j] != ' '
    ensures "not" + "-" + "allotted" == "not-allotted"
  {
  }

  // ---------------------------------------------------------------------
  // Filtering

  /** The search box looks at the IPO name, and for a sub-broker also at
      the client's name. */
  predicate MatchesSearch(app: Application, userType: string, query: string) {
    || ContainsIgnoringCase(app.ipoName, query)
    || (userType == "subbroker" && ContainsIgnoringCase(app.clientName, query))
  }

  predicate MatchesFilter(app: Application, activeFilter: string) {
    activeFilter == "all" || StatusSlug(app.status) == activeFilter
  }

  predicate Passes(app: Application, userType: string, activeFilter: string, query: string) {
    MatchesSearch(app, userType, query) && MatchesFilter(app, activeFilter)
  }

  /** `filteredApplications`: the rows that pass both the search and the
      status tab, in their own order. */
  function FilteredApplications(apps: seq<Application>, userType: string, activeFilter: string, query: string)
    : (r: seq<Application>)
    ensures multiset(r) <= multiset(apps)
    ensures forall i :: 0 <= i < |r| ==> Passes(r[i], userType, activeFilter, query)
    ensures forall i :: 0 <= i < |apps| && Passes(apps[i], userType, activeFilter, query) ==> apps[i] in r
  {
    Filter(apps, (app: Application) => Passes(app, userType, activeFilter, query))
  }

  /** A client's search never looks at client names: renaming the client
      changes nothing. */
  lemma ClientSearchIgnoresClientName(app: Application, userType: string, query: string, name: string)
    requires userType != "subbroker"
    ensures MatchesSearch(app.(clientName := name), userType, query) == MatchesSearch(app, userType, query)
  {
  }

  /** A sub-broker finds an application by its client's name. */
  lemma SubbrokerFindsClient(app: Application, activeFilter: string)
    requires MatchesFilter(app, activeFilter)
    ensures Passes(app, "subbroker", activeFilter, app.clientName)
  {
    ContainsIgnoringCaseBasics(app.clientName);
  }

  /** With no query on the 'all' tab every row is listed. */
  lemma {:induction false} NoQueryListsAll(apps: seq<Application>, userType: string)
    ensures FilteredApplications(apps, userType, "all", "") == apps
  {
    forall app | app in apps
      ensures Passes(app, userType, "all", "")
    {
      ContainsIgnoringCaseBasics(app.ipoName);
    }
    FilterKeepsAll(apps, (app: Application) => Passes(app, userType, "all", ""));
  }

  /** The 'No Applications Found' block is shown exactly when no row
      passes the filters. */
  lemma EmptyStateIff(apps: seq<Application>, userType: string, activeFilter: string, query: string)
    ensures |FilteredApplications(apps, userType, activeFilter, query)| == 0
        <==> forall i :: 0 <= i < |apps| ==> !Passes(apps[i], userType, activeFilter, query)
  {
    var r := FilteredApplications(apps, userType, activeFilter, query);
    if |r| > 0 {
      assert r[0] in apps;
    }
  }

  // ---------------------------------------------------------------------
  // Application number

  /** A number below 10^k has at most k digits. */
  lemma {:induction false} NatToStringWidth(n: nat, k: nat)
    requires 1 <= k && n < Numbers.Pow10(k)
    ensures |NatToString(n)| <= k
  {
    if n >= 10 {
      if k == 1 {
        assert false;
      }
      assert n / 10 < Numbers.Pow10(k - 1);
      NatToStringWidth(n / 10, k - 1);
    }
  }

  /** The application number shown in an expanded row: `IPO2024` and the
      id padded with zeros to six digits. */
  function ApplicationNumber(id: nat): (r: string)
    ensures |r| >= 13 && r[..7] == "IPO2024"
    ensures AllDigits(r[7..])
  {
    "IPO2024" + PadStart(NatToString(id), 6, '0')
  }

  /** The number reads back as the id, and is exactly 13 characters long
      for every id below a million. */
  lemma ApplicationNumberRoundTrip(id: nat)
    ensures DigitsValue(ApplicationNumber(id)[7..]) == id
    ensures id < 1000000 ==> |ApplicationNumber(id)| == 13
  {
    var digits := NatToString(id);
    var padded := PadStart(digits, 6, '0');
    assert ApplicationNumber(id)[7..] == padded;
    var zeros := |padded| - |digits|;
    assert padded == Repeat('0', zeros) + digits;
    LeadingZerosValue(zeros, digits);
    NatToStringRoundTrip(id);
    if id < 1000000 {
      assert Numbers.Pow10(2) == 100;
      assert Numbers.Pow10(4) == 10000;
      assert Numbers.Pow10(6) == 1000000;
      NatToStringWidth(id, 6);
    }
  }

  // ---------------------------------------------------------------------
  // The table

  class AllotmentTable {
    /** The rows listed. The component lists its own built-in sample rows
        whatever `applications` prop it is given. */
    const rows: seq<Application>
    const userType: string
    const activeFilter: string
    const searchQuery: string

    /** `sortConfig`: a key (none at first) and a direction. */
    var sortKey: Option<string>
    var sortDirection: string
    var expandedRows: set<nat>

    function Listed(): seq<Application> {
      FilteredApplications(rows, userType, activeFilter, searchQuery)
    }

    predicate ShowsEmptyState() {
      |Listed()| == 0
    }

    constructor(rows: seq<Application>, userType: string, activeFilter: string, searchQuery: string)
      ensures this.rows == rows && this.userType == userType
      ensures this.activeFilter == activeFilter && this.searchQuery == searchQuery
      ensures sortKey == None && sortDirection == Asc && expandedRows == {}
    {
      this.rows := rows;
      this.userType := userType;
      this.activeFilter := activeFilter;
      this.searchQuery := searchQuery;
      sortKey := None;
      sortDirection := Asc;
      expandedRows := {};
    }

    /** `handleSort`: 'desc' only when the same key is picked while
        ascending, 'asc' otherwise. The listed rows do not depend on it. */
    method HandleSort(key: string)
      modifies this
      ensures (sortKey, sortDirection) == NextSort(old(sortKey), old(sortDirection), Some(key))
      ensures sortKey == Some(key)
      ensures sortDirection == Desc <==> old(sortKey) == Some(key) && old(sortDirection) == Asc
      ensures expandedRows == old(expandedRows)
    {
      var direction := Asc;
      if sortKey == Some(key) && sortDirection == Asc {
        direction := Desc;
      }
      sortKey := Some(key);
      sortDirection := direction;
    }

    /** `toggleRowExpansion`: the row's id leaves the expanded set if it
        was there and joins it otherwise. */
    method ToggleRowExpansion(id: nat)
      modifies this
      ensures expandedRows == SetToggled(old(expandedRows), id)
      ensures sortKey == old(sortKey) && sortDirection == old(sortDirection)
    {
      var expanded := expandedRows;
      if id in expanded {
        expanded := expanded - {id};
      } else {
        expanded := expanded + {id};
      }
      expandedRows := expanded;
    }
  }
}

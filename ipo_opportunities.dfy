/** The sub-broker dashboard's IPO opportunities: five category tabs, each
    with a count, narrowing the list of IPOs below them. */
module IpoOpportunities {
  import opened Common

  datatype Opportunity = Opportunity(
    id: nat,
    companyName: string,
    priceRange: string,
    lotSize: nat,
    openDate: string,
    closeDate: string,
    status: string,
    category: string,
    subscription: string,
    gmp: string)

  /** The test `filteredIPOs` applies for the selected tab: the status
      tabs look at the status, the board tabs at the category, and 'all'
      or any unknown tab keeps everything. */
  predicate InCategory(ipo: Opportunity, selected: string) {
    match selected
    case "current" => ipo.status == "Current"
    case "upcoming" => ipo.status == "Upcoming"
    case "mainboard" => ipo.category == "Mainboard"
    case "sme" => ipo.category == "SME"
    case _ => true
  }

  /** `filteredIPOs`: the IPOs passing the selected tab's test, in order. */
  function FilteredIpos(ipos: seq<Opportunity>, selected: string): (r: seq<Opportunity>)
    ensures multiset(r) <= multiset(ipos)
    ensures forall i :: 0 <= i < |r| ==> InCategory(r[i], selected)
    ensures forall i :: 0 <= i < |ipos| && InCategory(ipos[i], selected) ==> ipos[i] in r
  {
    Filter(ipos, (ipo: Opportunity) => InCategory(ipo, selected))
  }

  /** 'all', and every tab id the component does not know, keep every IPO. */
  lemma {:induction false} UnknownTabKeepsAll(ipos: seq<Opportunity>, selected: string)
    requires selected !in {"current", "upcoming", "mainboard", "sme"}
    ensures FilteredIpos(ipos, selected) == ipos
  {
    FilterKeepsAll(ipos, (ipo: Opportunity) => InCategory(ipo, selected));
  }

  /** Filtering keeps the original order: the list can be cut anywhere and
      filtered piece by piece. */
  lemma FilterKeepsOrder(a: seq<Opportunity>, b: seq<Opportunity>, selected: string)
    ensures FilteredIpos(a + b, selected) == FilteredIpos(a, selected) + FilteredIpos(b, selected)
  {
    FilterConcat(a, b, (ipo: Opportunity) => InCategory(ipo, selected));
  }

  // ---------------------------------------------------------------------
  // Tabs

  datatype CategoryTab = CategoryTab(id: string, title: string, count: nat)

  function WithStatus(ipos: seq<Opportunity>, status: string): seq<Opportunity> {
    Filter(ipos, (ipo: Opportunity) => ipo.status == status)
  }

  function WithCategory(ipos: seq<Opportunity>, category: string): seq<Opportunity> {
    Filter(ipos, (ipo: Opportunity) => ipo.category == category)
  }

  /** `categories`: each tab counted by a filter of its own. */
  function Categories(ipos: seq<Opportunity>): (r: seq<CategoryTab>)
    ensures |r| == 5
    ensures r[0].id == "all" && r[1].id == "current" && r[2].id == "upcoming"
    ensures r[3].id == "mainboard" && r[4].id == "sme"
  {
    [ CategoryTab("all", "All IPOs", |ipos|),
      CategoryTab("current", "Current", |WithStatus(ipos, "Current")|),
      CategoryTab("upcoming", "Upcoming", |WithStatus(ipos, "Upcoming")|),
      CategoryTab("mainboard", "Mainboard", |WithCategory(ipos, "Mainboard")|),
      CategoryTab("sme", "SME", |WithCategory(ipos, "SME")|) ]
  }

  lemma StatusTabCount(ipos: seq<Opportunity>, selected: string, status: string)
    requires (selected, status) in {("current", "Current"), ("upcoming", "Upcoming")}
    ensures |WithStatus(ipos, status)| == |FilteredIpos(ipos, selected)|
  {
    FilterExtensional(ipos, (ipo: Opportunity) => ipo.status == status,
      (ipo: Opportunity) => InCategory(ipo, selected));
  }

  lemma BoardTabCount(ipos: seq<Opportunity>, selected: string, category: string)
    requires (selected, category) in {("mainboard", "Mainboard"), ("sme", "SME")}
    ensures |WithCategory(ipos, category)| == |FilteredIpos(ipos, selected)|
  {
    FilterExtensional(ipos, (ipo: Opportunity) => ipo.category == category,
      (ipo: Opportunity) => InCategory(ipo, selected));
  }

  /** Every tab's badge is the length of the list that tab shows. */
  lemma TabCountsMatchLists(ipos: seq<Opportunity>)
    ensures Categories(ipos)[0].count == |FilteredIpos(ipos, "all")|
    ensures Categories(ipos)[1].count == |FilteredIpos(ipos, "current")|
    ensures Categories(ipos)[2].count == |FilteredIpos(ipos, "upcoming")|
    ensures Categories(ipos)[3].count == |FilteredIpos(ipos, "mainboard")|
    ensures Categories(ipos)[4].count == |FilteredIpos(ipos, "sme")|
  {
    UnknownTabKeepsAll(ipos, "all");
    StatusTabCount(ipos, "current", "Current");
    StatusTabCount(ipos, "upcoming", "Upcoming");
    BoardTabCount(ipos, "mainboard", "Mainboard");
    BoardTabCount(ipos, "sme", "SME");
  }

  /** The same, for the tab at position `k`. */
  lemma TabCount(ipos: seq<Opportunity>, k: nat)
    requires k < 5
    ensures Categories(ipos)[k].count == |FilteredIpos(ipos, Categories(ipos)[k].id)|
  {
    TabCountsMatchLists(ipos);
    var tabs := Categories(ipos);
    if k == 0 {
      assert tabs[k].id == "all";
    } else if k == 1 {
      assert tabs[k].id == "current";
    } else if k == 2 {
      assert tabs[k].id == "upcoming";
    } else if k == 3 {
      assert tabs[k].id == "mainboard";
    } else {
      assert tabs[k].id == "sme";
    }
  }

  // ---------------------------------------------------------------------
  // Status badge

  datatype BadgeStyle = BadgeStyle(color: string, icon: string)

  const ClosedBadge := BadgeStyle("bg-muted text-muted-foreground", "CheckCircle")

  /** `getStatusBadge`: a status outside the table is styled as 'Closed'. */
  function StatusBadge(status: string): (r: BadgeStyle)
    ensures status !in {"Current", "Upcoming"} ==> r == ClosedBadge
    ensures status == "Current" ==> r.icon == "Clock"
    ensures status == "Upcoming" ==> r.icon == "Calendar"
  {
    match status
    case "Current" => BadgeStyle("bg-success text-success-foreground", "Clock")
    case "Upcoming" => BadgeStyle("bg-warning text-warning-foreground", "Calendar")
    case _ => ClosedBadge
  }

  // ---------------------------------------------------------------------
  // The card

  class OpportunitiesCard {
    const ipos: seq<Opportunity>
    var selectedCategory: string

    constructor(ipos: seq<Opportunity>)
      ensures this.ipos == ipos && selectedCategory == "all"
    {
      this.ipos := ipos;
      selectedCategory := "all";
    }

    function Displayed(): seq<Opportunity>
      reads this
    {
      FilteredIpos(ipos, selectedCategory)
    }

    /** A tab click selects that tab; the list then holds as many IPOs as
        the tab's badge says. */
    method SelectCategory(k: nat)
      requires k < 5
      modifies this
      ensures selectedCategory == Categories(ipos)[k].id
      ensures |Displayed()| == Categories(ipos)[k].count
    {
      TabCount(ipos, k);
      selectedCategory := Categories(ipos)[k].id;
    }
  }
}

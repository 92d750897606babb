/** The filter panel of the IPO listings: four drop-downs, a date range and
    a price range edited locally, the chips of the filters that differ from
    their defaults, and the buttons that apply, reset, clear or preset them. */
module FilterPanel {
  import opened Common
  import opened Text
  import opened Numbers

  datatype DateRange = DateRange(start: string, end: string)

  /** The two-element `priceRange` array. */
  datatype PriceBounds = PriceBounds(min: int, max: int)

  datatype Filters = Filters(
    category: string,
    sector: string,
    status: string,
    minInvestment: string,
    dateRange: DateRange,
    priceRange: PriceBounds)

  /** The filters a chip can stand for, in the order the chips appear. */
  datatype FilterKey = Category | Status | Sector | MinInvestment | DateRangeKey | PriceRangeKey

  const ChipOrder: seq<FilterKey> := [Category, Status, Sector, MinInvestment, DateRangeKey, PriceRangeKey]

  lemma EveryKeyHasAPlace(k: FilterKey)
    ensures k in ChipOrder
  {
    match k
    case Category => assert ChipOrder[0] == k;
    case Status => assert ChipOrder[1] == k;
    case Sector => assert ChipOrder[2] == k;
    case MinInvestment => assert ChipOrder[3] == k;
    case DateRangeKey => assert ChipOrder[4] == k;
    case PriceRangeKey => assert ChipOrder[5] == k;
  }

  const PriceCeiling: int := 10000

  /** `clearedFilters`: every choice `all`, no dates, prices 0 to 10000. */
  const Cleared: Filters := Filters("all", "all", "all", "all", DateRange("", ""), PriceBounds(0, PriceCeiling))

  /** One filter's value, whatever its kind. */
  datatype FieldValue = Choice(choice: string) | Dates(dates: DateRange) | Prices(prices: PriceBounds)

  function Field(f: Filters, k: FilterKey): FieldValue {
    match k
    case Category => Choice(f.category)
    case Status => Choice(f.status)
    case Sector => Choice(f.sector)
    case MinInvestment => Choice(f.minInvestment)
    case DateRangeKey => Dates(f.dateRange)
    case PriceRangeKey => Prices(f.priceRange)
  }

  /** Whether a filter shows no chip: a choice left at `all`, no date at
      either end, or a price range reaching from 0 or below to 10000 or
      above. */
  predicate IsDefault(f: Filters, k: FilterKey) {
    match k
    case DateRangeKey => f.dateRange.start == "" && f.dateRange.end == ""
    case PriceRangeKey => f.priceRange.min <= 0 && f.priceRange.max >= PriceCeiling
    case _ => Field(f, k).choice == "all"
  }

  /** Whether `k` has a chip: `[k]` when it is away from its default. */
  function Step(f: Filters, k: FilterKey): seq<FilterKey> {
    if IsDefault(f, k) then [] else [k]
  }

  /** The keys among `keys` whose filters differ from their defaults, in
      the order of `keys`. */
  function NonDefault(f: Filters, keys: seq<FilterKey>): seq<FilterKey> {
    if keys == [] then [] else Step(f, keys[0]) + NonDefault(f, keys[1..])
  }

  lemma {:induction false} NonDefaultMembers(f: Filters, keys: seq<FilterKey>)
    ensures forall k :: k in NonDefault(f, keys) <==> k in keys && !IsDefault(f, k)
  {
    if keys != [] {
      NonDefaultMembers(f, keys[1..]);
      assert forall k :: k in keys <==> k == keys[0] || k in keys[1..];
    }
  }

  /** The chips' keys: the filters that differ from their defaults, in chip
      order. */
  function ActiveKeys(f: Filters): seq<FilterKey> {
    NonDefault(f, ChipOrder)
  }

  /** A filter has a chip iff it is away from its default. */
  lemma ChipIffNotDefault(f: Filters, k: FilterKey)
    ensures k in ActiveKeys(f) <==> !IsDefault(f, k)
  {
    NonDefaultMembers(f, ChipOrder);
    EveryKeyHasAPlace(k);
  }

  /** The price chip is there iff the lower bound is above 0 or the upper
      bound below 10000. */
  lemma PriceChipIff(f: Filters)
    ensures PriceRangeKey in ActiveKeys(f) <==> f.priceRange.min > 0 || f.priceRange.max < PriceCeiling
  {
    ChipIffNotDefault(f, PriceRangeKey);
  }

  /** A drop-down entry. */
  datatype SelectOption = SelectOption(value: string, title: string)

  const CategoryOptions: seq<SelectOption> := [
    SelectOption("all", "All Categories"),
    SelectOption("Mainboard", "Mainboard"),
    SelectOption("SME", "SME")
  ]

  const SectorOptions: seq<SelectOption> := [
    SelectOption("all", "All Sectors"),
    SelectOption("Technology", "Technology"),
    SelectOption("Healthcare", "Healthcare"),
    SelectOption("Financial Services", "Financial Services"),
    SelectOption("Manufacturing", "Manufacturing"),
    SelectOption("Retail & Consumer", "Retail & Consumer"),
    SelectOption("Energy & Utilities", "Energy & Utilities")
  ]

  const StatusOptions: seq<SelectOption> := [
    SelectOption("all", "All Status"),
    SelectOption("upcoming", "Upcoming"),
    SelectOption("current", "Current"),
    SelectOption("closed", "Closed")
  ]

  const MinInvestmentOptions: seq<SelectOption> := [
    SelectOption("all", "Any Amount"),
    SelectOption("0-15000", "Up to ₹15,000"),
    SelectOption("15000-50000", "₹15,000 - ₹50,000"),
    SelectOption("50000-100000", "₹50,000 - ₹1,00,000"),
    SelectOption("100000+", "Above ₹1,00,000")
  ]

  /** `options.find(opt => opt.value === value)`. */
  function Find(options: seq<SelectOption>, value: string): (r: Option<SelectOption>)
    ensures r.Some? ==> r.value in options && r.value.value == value
    ensures r.None? ==> forall i :: 0 <= i < |options| ==> options[i].value != value
  {
    if options == [] then None
    else if options[0].value == value then Some(options[0])
    else Find(options[1..], value)
  }

  /** `option?.label || value`: the option's label when the value is on
      the list and the label is not empty, else the raw value. */
  function ChoiceTitle(options: seq<SelectOption>, value: string): string {
    var found := Find(options, value);
    if found.Some? && found.value.title != "" then found.value.title else value
  }

  /** A value missing from the list shows as itself. */
  lemma UnknownChoiceShowsRaw(options: seq<SelectOption>, value: string)
    requires forall i :: 0 <= i < |options| ==> options[i].value != value
    ensures ChoiceTitle(options, value) == value
  {
  }

  /** `x || '...'` on a date. */
  function OrEllipsis(s: string): string {
    if s != "" then s else "..."
  }

  /** The text of a chip. */
  function ChipTitle(f: Filters, k: FilterKey): string {
    match k
    case Category => ChoiceTitle(CategoryOptions, f.category)
    case Status => ChoiceTitle(StatusOptions, f.status)
    case Sector => ChoiceTitle(SectorOptions, f.sector)
    case MinInvestment => ChoiceTitle(MinInvestmentOptions, f.minInvestment)
    case DateRangeKey => "Date: " + OrEllipsis(f.dateRange.start) + " to " + OrEllipsis(f.dateRange.end)
    case PriceRangeKey => "₹" + IntToString(f.priceRange.min) + " - ₹" + IntToString(f.priceRange.max)
  }

  datatype Chip = Chip(key: FilterKey, title: string)

  function KeysOf(chips: seq<Chip>): (r: seq<FilterKey>)
    ensures |r| == |chips|
    ensures forall i :: 0 <= i < |r| ==> r[i] == chips[i].key
  {
    if chips == [] then [] else [chips[0].key] + KeysOf(chips[1..])
  }

  lemma NonDefaultCons(f: Filters, k: FilterKey, rest: seq<FilterKey>)
    ensures NonDefault(f, [k] + rest) == Step(f, k) + NonDefault(f, rest)
  {
    assert ([k] + rest)[1..] == rest;
  }

  /** The chip order, key by key. */
  lemma ActiveKeysInOrder(f: Filters)
    ensures ActiveKeys(f) == Step(f, Category) + (Step(f, Status) + (Step(f, Sector)
      + (Step(f, MinInvestment) + (Step(f, DateRangeKey) + Step(f, PriceRangeKey)))))
  {
    var l5: seq<FilterKey> := [PriceRangeKey];
    var l4 := [DateRangeKey] + l5;
    var l3 := [MinInvestment] + l4;
    var l2 := [Sector] + l3;
    var l1 := [Status] + l2;
    assert [Category] + l1 == ChipOrder;
    NonDefaultCons(f, PriceRangeKey, []);
    assert [PriceRangeKey] + [] == l5;
    NonDefaultCons(f, DateRangeKey, l5);
    NonDefaultCons(f, MinInvestment, l4);
    NonDefaultCons(f, Sector, l3);
    NonDefaultCons(f, Status, l2);
    NonDefaultCons(f, Category, l1);
  }

  lemma KeysOfPush(chips: seq<Chip>, c: Chip)
    ensures KeysOf(chips + [c]) == KeysOf(chips) + [c.key]
  {
    var r := KeysOf(chips + [c]);
    assert forall i :: 0 <= i < |r| ==> r[i] == (KeysOf(chips) + [c.key])[i];
  }

  /** Every chip carries its own filter's text. */
  predicate Titled(f: Filters, chips: seq<Chip>) {
    forall i :: 0 <= i < |chips| ==> chips[i].title == ChipTitle(f, chips[i].key)
  }

  /** One `if (...) active.push(...)` of `getActiveFilters`: the chip for
      `k` is pushed when that filter is away from its default. */
  method PushChip(f: Filters, active: seq<Chip>, k: FilterKey) returns (r: seq<Chip>)
    requires Titled(f, active)
    ensures KeysOf(r) == KeysOf(active) + Step(f, k)
    ensures Titled(f, r)
  {
    var show := match k
      case Category => f.category != "all"
      case Status => f.status != "all"
      case Sector => f.sector != "all"
      case MinInvestment => f.minInvestment != "all"
      case DateRangeKey => f.dateRange.start != "" || f.dateRange.end != ""
      case PriceRangeKey => f.priceRange.min > 0 || f.priceRange.max < PriceCeiling;
    assert show == !IsDefault(f, k);
    if show {
      KeysOfPush(active, Chip(k, ChipTitle(f, k)));
      r := active + [Chip(k, ChipTitle(f, k))];
    } else {
      r := active;
    }
  }

  /** `getActiveFilters`: one chip per filter away from its default, in
      chip order, each with its text. */
  method GetActiveFilters(f: Filters) returns (active: seq<Chip>)
    ensures KeysOf(active) == ActiveKeys(f)
    ensures Titled(f, active)
  {
    active := [];
    active := PushChip(f, active, Category);
    ghost var pushed := KeysOf(active);
    assert pushed == Step(f, Category);
    active := PushChip(f, active, Status);
    pushed := pushed + Step(f, Status);
    active := PushChip(f, active, Sector);
    pushed := pushed + Step(f, Sector);
    active := PushChip(f, active, MinInvestment);
    pushed := pushed + Step(f, MinInvestment);
    active := PushChip(f, active, DateRangeKey);
    pushed := pushed + Step(f, DateRangeKey);
    active := PushChip(f, active, PriceRangeKey);
    pushed := pushed + Step(f, PriceRangeKey);
    assert KeysOf(active) == pushed;
    ActiveKeysInOrder(f);
    Regroup(Step(f, Category), Step(f, Status), Step(f, Sector),
      Step(f, MinInvestment), Step(f, DateRangeKey), Step(f, PriceRangeKey));
  }

  /** Six pieces appended one after the other, grouped to the right. */
  lemma Regroup<T>(a: seq<T>, b: seq<T>, c: seq<T>, d: seq<T>, e: seq<T>, g: seq<T>)
    ensures ((((a + b) + c) + d) + e) + g == a + (b + (c + (d + (e + g))))
  {
    assert (a + b) + c == a + (b + c);
    assert ((a + b) + c) + d == a + (b + (c + d));
    assert (((a + b) + c) + d) + e == a + (b + (c + (d + e)));
  }

  /** After Clear All there are no chips. */
  lemma ClearedHasNoChips()
    ensures ActiveKeys(Cleared) == []
  {
    ActiveKeysInOrder(Cleared);
  }

  /** `removeFilter(key)`: that filter goes back to its default and every
      other filter keeps its value. */
  function RemoveFilter(f: Filters, k: FilterKey): (r: Filters)
    ensures Field(r, k) == Field(Cleared, k)
    ensures forall k' :: k' != k ==> Field(r, k') == Field(f, k')
  {
    match k
    case DateRangeKey => f.(dateRange := DateRange("", ""))
    case PriceRangeKey => f.(priceRange := PriceBounds(0, PriceCeiling))
    case Category => f.(category := "all")
    case Status => f.(status := "all")
    case Sector => f.(sector := "all")
    case MinInvestment => f.(minInvestment := "all")
  }

  /** Over any list of keys, resetting `k` drops `k` and keeps the rest
      in order. */
  lemma {:induction false} RemoveDropsFrom(f: Filters, k: FilterKey, keys: seq<FilterKey>)
    ensures NonDefault(RemoveFilter(f, k), keys) == Filter(NonDefault(f, keys), (x: FilterKey) => x != k)
  {
    var q := (x: FilterKey) => x != k;
    if keys != [] {
      var g := RemoveFilter(f, k);
      var x := keys[0];
      RemoveDropsFrom(f, k, keys[1..]);
      FilterConcat(Step(f, x), NonDefault(f, keys[1..]), q);
      if x == k {
        assert Field(g, x) == Field(Cleared, x);
        assert IsDefault(g, x) by {
          match x
          case DateRangeKey =>
          case PriceRangeKey =>
          case Category =>
          case Status =>
          case Sector =>
          case MinInvestment =>
        }
        assert Filter(Step(f, x), q) == [];
      } else {
        assert Field(g, x) == Field(f, x);
        assert IsDefault(g, x) == IsDefault(f, x);
        assert Filter(Step(f, x), q) == Step(f, x);
      }
    }
  }

  /** Removing a chip's filter removes that chip and leaves the others in
      their order. */
  lemma RemoveDropsOnlyThatChip(f: Filters, k: FilterKey)
    ensures ActiveKeys(RemoveFilter(f, k)) == Filter(ActiveKeys(f), (x: FilterKey) => x != k)
  {
    RemoveDropsFrom(f, k, ChipOrder);
  }

  /** `handlePriceRangeChange`: `parseInt(value) || 0` at one end of the
      range, the other end unchanged. */
  function PriceRangeChanged(f: Filters, index: nat, value: string): (r: Filters)
    requires index < 2
    ensures r.priceRange == (if index == 0 then PriceBounds(ParseInt(value).GetOr(0), f.priceRange.max)
                             else PriceBounds(f.priceRange.min, ParseInt(value).GetOr(0)))
    ensures r.(priceRange := f.priceRange) == f
  {
    var bound := ParseInt(value).GetOr(0);
    if index == 0 then f.(priceRange := f.priceRange.(min := bound))
    else f.(priceRange := f.priceRange.(max := bound))
  }

  /** A typed number is stored as that number; anything that does not
      start with one is stored as 0. */
  lemma PriceInput(f: Filters, index: nat, n: int, junk: string)
    requires index < 2
    requires ParseInt(junk).None?
    ensures var r := PriceRangeChanged(f, index, IntToString(n));
      if index == 0 then r.priceRange.min == n else r.priceRange.max == n
    ensures var r := PriceRangeChanged(f, index, junk);
      if index == 0 then r.priceRange.min == 0 else r.priceRange.max == 0
  {
    ParseIntRoundTrip(n);
  }

  /** The three quick filters. */
  datatype QuickFilter = CurrentlyOpen | ComingSoon | PopularMainboard

  /** A quick filter sets the status, and Popular Mainboard the category as
      well; the other filters keep their values. */
  function ApplyQuick(f: Filters, q: QuickFilter): (r: Filters)
    ensures r.status == (if q == ComingSoon then "upcoming" else "current")
    ensures r.category == (if q == PopularMainboard then "Mainboard" else f.category)
    ensures r.(status := f.status, category := f.category) == f
  {
    match q
    case CurrentlyOpen => f.(status := "current")
    case ComingSoon => f.(status := "upcoming")
    case PopularMainboard => f.(category := "Mainboard", status := "current")
  }

  /** Every quick filter shows a status chip. */
  lemma QuickFilterShowsStatusChip(f: Filters, q: QuickFilter)
    ensures Status in ActiveKeys(ApplyQuick(f, q))
  {
    ChipIffNotDefault(ApplyQuick(f, q), Status);
  }

  class Panel {
    /** The `filters` prop: the filters the page applies. */
    var filters: Filters
    /** The filters being edited. */
    var localFilters: Filters
    var isExpanded: bool

    /** "You have unsaved filter changes". */
    predicate HasChanges()
      reads this
    {
      localFilters != filters
    }

    constructor(filters: Filters)
      ensures this.filters == filters && localFilters == filters && !isExpanded
    {
      this.filters := filters;
      localFilters := filters;
      isExpanded := false;
    }

    /** A new `filters` prop replaces the local edits. */
    method SyncWithProps(newFilters: Filters)
      modifies this
      ensures filters == newFilters && localFilters == newFilters && !HasChanges()
      ensures isExpanded == old(isExpanded)
    {
      filters := newFilters;
      localFilters := newFilters;
    }

    /** `handleLocalFilterUpdate` from one of the four drop-downs: only
        that choice changes, and nothing is applied yet. */
    method HandleChoiceUpdate(k: FilterKey, value: string)
      requires k != DateRangeKey && k != PriceRangeKey
      modifies this
      ensures Field(localFilters, k) == Choice(value)
      ensures forall k' :: k' != k ==> Field(localFilters, k') == Field(old(localFilters), k')
      ensures filters == old(filters) && isExpanded == old(isExpanded)
    {
      match k {
        case Category => localFilters := localFilters.(category := value);
        case Status => localFilters := localFilters.(status := value);
        case Sector => localFilters := localFilters.(sector := value);
        case MinInvestment => localFilters := localFilters.(minInvestment := value);
      }
    }

    /** The From and To date inputs: one end of the range changes. */
    method HandleDateChange(isStart: bool, value: string)
      modifies this
      ensures localFilters.dateRange == (if isStart then old(localFilters.dateRange).(start := value)
                                         else old(localFilters.dateRange).(end := value))
      ensures localFilters.(dateRange := old(localFilters).dateRange) == old(localFilters)
      ensures filters == old(filters) && isExpanded == old(isExpanded)
    {
      var d := localFilters.dateRange;
      localFilters := localFilters.(dateRange := if isStart then d.(start := value) else d.(end := value));
    }

    /** The minimum and maximum price inputs. */
    method HandlePriceRangeChange(index: nat, value: string)
      requires index < 2
      modifies this`localFilters
      ensures localFilters == PriceRangeChanged(old(localFilters), index, value)
      ensures filters == old(filters) && isExpanded == old(isExpanded)
    {
      localFilters := PriceRangeChanged(localFilters, index, value);
    }

    /** `applyFilters`: the edits go to the page. */
    method ApplyFilters() returns (emitted: Filters)
      ensures emitted == localFilters
    {
      emitted := localFilters;
    }

    /** Reset Changes: the edits are dropped. */
    method ResetChanges()
      modifies this
      ensures localFilters == filters && !HasChanges()
      ensures filters == old(filters) && isExpanded == old(isExpanded)
    {
      localFilters := filters;
    }

    /** `clearAllFilters`: the defaults are set and sent at once, and no
        chip is left. */
    method ClearAllFilters() returns (emitted: Filters)
      modifies this
      ensures localFilters == Cleared && emitted == Cleared
      ensures ActiveKeys(localFilters) == []
      ensures filters == old(filters) && isExpanded == old(isExpanded)
    {
      localFilters := Cleared;
      emitted := Cleared;
      ClearedHasNoChips();
    }

    /** A chip's remove button: that filter is reset and the result sent
        at once; its chip goes and the others stay. */
    method RemoveChip(k: FilterKey) returns (emitted: Filters)
      modifies this
      ensures localFilters == RemoveFilter(old(localFilters), k) && emitted == localFilters
      ensures ActiveKeys(localFilters) == Filter(ActiveKeys(old(localFilters)), (x: FilterKey) => x != k)
      ensures filters == old(filters) && isExpanded == old(isExpanded)
    {
      RemoveDropsOnlyThatChip(localFilters, k);
      localFilters := RemoveFilter(localFilters, k);
      emitted := localFilters;
    }

    /** A quick-filter button: applied and sent at once. */
    method Quick(q: QuickFilter) returns (emitted: Filters)
      modifies this
      ensures localFilters == ApplyQuick(old(localFilters), q) && emitted == localFilters
      ensures filters == old(filters) && isExpanded == old(isExpanded)
    {
      localFilters := ApplyQuick(localFilters, q);
      emitted := localFilters;
    }

    /** More / Hide Filters. */
    method ToggleExpanded()
      modifies this
      ensures isExpanded == !old(isExpanded)
      ensures filters == old(filters) && localFilters == old(localFilters)
    {
      isExpanded := !isExpanded;
    }
  }
}

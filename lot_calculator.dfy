/** The lot-calculation step of the IPO application: how many lots each
    selected client applies for, at which price, what that costs, and
    whether each client can afford it. */
module LotCalculation {
  import opened Common
  import opened Text
  import opened Numbers
  import opened ClientSelection

  /** The terms of the issue the calculator reads. */
  datatype Issue = Issue(lotSize: int, cutOffPrice: real, maxLotsPerApplication: int)

  /** The issue used when the wizard passes none: lots of 100 shares,
      cut-off price 135 (inside the band 120 to 140), at most 13 lots. */
  const DefaultIssue: Issue := Issue(100, 135.0, 13)

  datatype PriceOption = Cutoff | Custom

  // ---------------------------------------------------------------------
  // Lot counts

  /** `Math.max(1, Math.min(parsed || 1, maxLots))`: a missing or zero
      count counts as 1, and the result is clamped to [1, maxLots]. */
  function ClampLotCount(parsed: Option<int>, maxLots: int): (r: int)
    ensures 1 <= r
    ensures 1 <= maxLots ==> r <= maxLots
    ensures parsed.Some? && 1 <= parsed.value <= maxLots ==> r == parsed.value
    ensures parsed.Some? && 1 <= maxLots < parsed.value ==> r == maxLots
    ensures parsed.None? || parsed.value < 1 ==> r == 1
  {
    var n := if parsed.None? || parsed.value == 0 then 1 else parsed.value;
    var capped := if n < maxLots then n else maxLots;
    if capped < 1 then 1 else capped
  }

  /** The lot count stored for what was typed into a lot field. */
  function ClampLots(input: string, maxLots: int): (r: int)
    ensures 1 <= r
    ensures 1 <= maxLots ==> r <= maxLots
  {
    ClampLotCount(ParseInt(input), maxLots)
  }

  /** With the default limit of 13, too many lots are capped at 13. */
  lemma ClampTooMany()
    ensures ClampLots("50", 13) == 13
  {
    assert NatToString(5) == "5";
    assert NatToString(50) == "50";
    ParseIntRoundTrip(50);
  }

  /** A negative count becomes one lot. */
  lemma ClampNegative()
    ensures ClampLots("-4", 13) == 1
  {
    assert NatToString(4) == "4";
    assert IntToString(-4) == "-4";
    ParseIntRoundTrip(-4);
  }

  /** Text that is not a number becomes one lot. */
  lemma ClampNotANumber()
    ensures ClampLots("x", 13) == 1
  {
    assert TrimStart("x") == "x";
    assert SplitSign("x") == (false, "x");
    assert LeadingDigits("x") == [];
  }

  /** The plus and minus buttons pass the neighbouring count as a number;
      it is kept whenever it lies in range. */
  lemma StepButtonKeepsInRange(lots: int, maxLots: int)
    requires 1 <= lots <= maxLots
    ensures ClampLots(IntToString(lots), maxLots) == lots
  {
    ParseIntRoundTrip(lots);
  }

  // ---------------------------------------------------------------------
  // Price and investment

  /** `getCurrentPrice`: the cut-off price, or the typed custom price when
      it is a non-zero number. The custom price is not checked against the
      price band. */
  function EffectivePrice(issue: Issue, option: PriceOption, customPrice: string): (r: real)
    ensures option == Cutoff ==> r == issue.cutOffPrice
    ensures option == Custom && ParseFloat(customPrice).Some? && ParseFloat(customPrice).value != 0.0 ==>
      r == ParseFloat(customPrice).value
    ensures option == Custom && (ParseFloat(customPrice).None? || ParseFloat(customPrice).value == 0.0) ==>
      r == issue.cutOffPrice
  {
    match option
    case Cutoff => issue.cutOffPrice
    case Custom =>
      match ParseFloat(customPrice)
      case Some(p) => if p != 0.0 then p else issue.cutOffPrice
      case None => issue.cutOffPrice
  }

  /** A custom price far above the band is taken as it is. */
  lemma CustomPriceUnchecked()
    ensures EffectivePrice(DefaultIssue, Custom, "500") == 500.0
  {
    assert NatToString(5) == "5";
    assert NatToString(50) == "50";
    assert NatToString(500) == "500";
    ParseFloatOfInteger(500);
  }

  /** The number input accepts scientific notation, and `parseFloat`
      reads it: '1e2' is a price of 100. */
  lemma CustomPriceInScientificNotation(issue: Issue, s: string)
    requires s == "1e2"
    ensures EffectivePrice(issue, Custom, s) == 100.0
  {
    ParseFloatExponentExample(s);
  }

  /** `calculateInvestmentAmount`: lots times lot size times price, exactly. */
  function Investment(issue: Issue, price: real, lots: int): (r: real)
    ensures lots == 0 || issue.lotSize == 0 || price == 0.0 ==> r == 0.0
    ensures lots >= 0 && issue.lotSize >= 0 && price >= 0.0 ==> r >= 0.0
  {
    (lots * issue.lotSize) as real * price
  }

  // ---------------------------------------------------------------------
  // Eligibility

  datatype Eligibility = Eligibility(isEligible: bool, reason: Option<string>)

  const InsufficientFunds: string := "Insufficient funds"
  const ExceedsLotLimit: string := "Exceeds lot limit"

  /** `getClientEligibility`: affordability is checked before the lot limit,
      so a client over both is reported as short of funds. */
  function ClientEligibility(issue: Issue, price: real, client: Client, lots: int): (r: Eligibility)
    ensures r.isEligible <==>
      Investment(issue, price, lots) <= client.availableFunds && lots <= issue.maxLotsPerApplication
    ensures r.reason.None? <==> r.isEligible
    ensures r.reason == Some(InsufficientFunds) <==> Investment(issue, price, lots) > client.availableFunds
    ensures r.reason == Some(ExceedsLotLimit) <==>
      Investment(issue, price, lots) <= client.availableFunds && lots > issue.maxLotsPerApplication
  {
    var affordable := Investment(issue, price, lots) <= client.availableFunds;
    var withinLimit := lots <= issue.maxLotsPerApplication;
    Eligibility(affordable && withinLimit,
      if !affordable then Some(InsufficientFunds)
      else if !withinLimit then Some(ExceedsLotLimit)
      else None)
  }

  /** With 15000 available, lots of 100 at 150: one lot is affordable, two
      are not. */
  lemma EligibilityExample(c: Client)
    requires c.availableFunds == 15000.0
    ensures ClientEligibility(Issue(100, 150.0, 13), 150.0, c, 1) == Eligibility(true, None)
    ensures ClientEligibility(Issue(100, 150.0, 13), 150.0, c, 2) == Eligibility(false, Some(InsufficientFunds))
  {
  }

  // ---------------------------------------------------------------------
  // Allocations: the `lotAllocations` object, keyed by client id, in key
  // insertion order.

  datatype Allocation = Allocation(clientId: string, lots: int)

  function Keys(allocs: seq<Allocation>): (r: seq<string>)
    ensures |r| == |allocs|
    ensures forall i :: 0 <= i < |allocs| ==> r[i] == allocs[i].clientId
  {
    seq(|allocs|, i requires 0 <= i < |allocs| => allocs[i].clientId)
  }

  /** `lotAllocations[id]`, missing when no entry has that key. */
  function Lookup(allocs: seq<Allocation>, id: string): (r: Option<int>)
    ensures r.Some? <==> id in Keys(allocs)
    ensures r.Some? ==> exists i :: 0 <= i < |allocs| && allocs[i] == Allocation(id, r.value)
  {
    if allocs == [] then None
    else if allocs[0].clientId == id then Some(allocs[0].lots)
    else
      var r := Lookup(allocs[1..], id);
      assert Keys(allocs) == [allocs[0].clientId] + Keys(allocs[1..]);
      assert r.Some? ==> exists i :: 0 <= i < |allocs| && allocs[i] == Allocation(id, r.value) by {
        if r.Some? {
          var i :| 0 <= i < |allocs[1..]| && allocs[1..][i] == Allocation(id, r.value);
          assert allocs[i + 1] == Allocation(id, r.value);
        }
      }
      r
  }

  /** `{ ...allocs, [id]: { lots } }`: an existing key keeps its place, a new
      one goes last, and no other entry changes. */
  function Put(allocs: seq<Allocation>, id: string, lots: int): (r: seq<Allocation>)
    ensures Keys(r) == if id in Keys(allocs) then Keys(allocs) else Keys(allocs) + [id]
    ensures forall k :: Lookup(r, k) == if k == id then Some(lots) else Lookup(allocs, k)
  {
    if allocs == [] then [Allocation(id, lots)]
    else if allocs[0].clientId == id then
      assert Keys([Allocation(id, lots)] + allocs[1..]) == [id] + Keys(allocs[1..]);
      assert Keys(allocs) == [id] + Keys(allocs[1..]);
      [Allocation(id, lots)] + allocs[1..]
    else
      var rest := Put(allocs[1..], id, lots);
      assert Keys(allocs) == [allocs[0].clientId] + Keys(allocs[1..]);
      assert Keys([allocs[0]] + rest) == [allocs[0].clientId] + Keys(rest);
      assert ([allocs[0]] + rest)[1..] == rest;
      [allocs[0]] + rest
  }

  /** The allocation giving every client of `clients` the same count, built
      one client after the other as the source's `forEach` does. */
  function AllocateAll(clients: seq<Client>, lots: int): (r: seq<Allocation>)
    ensures forall k :: Lookup(r, k) == if k in Ids(clients) then Some(lots) else None
    ensures NoDuplicates(Keys(r))
    ensures forall k :: k in Keys(r) <==> k in Ids(clients)
  {
    if clients == [] then []
    else
      var front := clients[..|clients| - 1];
      var prev := AllocateAll(front, lots);
      var id := clients[|clients| - 1].id;
      IdsOfFront(clients);
      PutKeys(prev, id, lots);
      Put(prev, id, lots)
  }

  /** The ids of a non-empty list are those of all but its last client,
      and the last one's. */
  lemma IdsOfFront(clients: seq<Client>)
    requires clients != []
    ensures forall k :: k in Ids(clients) <==> k in Ids(clients[..|clients| - 1]) || k == clients[|clients| - 1].id
  {
    assert Ids(clients) == Ids(clients[..|clients| - 1]) + [clients[|clients| - 1].id];
  }

  /** Putting a key into an allocation without duplicate keys adds that key
      and no other, and leaves the keys free of duplicates. */
  lemma PutKeys(allocs: seq<Allocation>, id: string, lots: int)
    requires NoDuplicates(Keys(allocs))
    ensures NoDuplicates(Keys(Put(allocs, id, lots)))
    ensures forall k :: k in Keys(Put(allocs, id, lots)) <==> k in Keys(allocs) || k == id
  {
    var keys := Keys(allocs);
    if id !in keys {
      var grown := keys + [id];
      forall i, j | 0 <= i < j < |grown|
        ensures grown[i] != grown[j]
      {
        if j < |keys| {
          assert grown[i] == keys[i] && grown[j] == keys[j];
        } else {
          assert grown[i] == keys[i];
        }
      }
    }
  }

  /** Builds `AllocateAll(clients, lots)` with the source's loop. */
  method BuildAllocations(clients: seq<Client>, lots: int) returns (allocs: seq<Allocation>)
    ensures allocs == AllocateAll(clients, lots)
  {
    allocs := [];
    var i := 0;
    while i < |clients|
      invariant 0 <= i <= |clients|
      invariant allocs == AllocateAll(clients[..i], lots)
    {
      var next := clients[..i + 1];
      assert next[..|next| - 1] == clients[..i] && next[|next| - 1] == clients[i];
      assert AllocateAll(next, lots) == Put(allocs, clients[i].id, lots);
      allocs := Put(allocs, clients[i].id, lots);
      i := i + 1;
    }
    assert clients[..|clients|] == clients;
  }

  // ---------------------------------------------------------------------
  // Totals

  /** `getTotalLots`: every client holds at least one lot, so the total
      is at least the number of clients. */
  function TotalLots(allocs: seq<Allocation>): (r: int)
    ensures allocs == [] ==> r == 0
    ensures (forall i :: 0 <= i < |allocs| ==> allocs[i].lots >= 1) ==> r >= |allocs|
  {
    if allocs == [] then 0 else allocs[0].lots + TotalLots(allocs[1..])
  }

  /** `getTotalInvestment`: the per-entry investments added up; with a
      non-negative price and lot counts it is never negative. */
  function TotalInvestment(issue: Issue, price: real, allocs: seq<Allocation>): (r: real)
    ensures allocs == [] ==> r == 0.0
    ensures issue.lotSize >= 0 && price >= 0.0 && (forall i :: 0 <= i < |allocs| ==> allocs[i].lots >= 0) ==> r >= 0.0
  {
    if allocs == [] then 0.0
    else Investment(issue, price, allocs[0].lots) + TotalInvestment(issue, price, allocs[1..])
  }

  /** Adding up per-client investments is pricing the total lot count. */
  lemma {:induction false} TotalInvestmentIsTotalLotsPriced(issue: Issue, price: real, allocs: seq<Allocation>)
    ensures TotalInvestment(issue, price, allocs) == Investment(issue, price, TotalLots(allocs))
  {
    if allocs != [] {
      TotalInvestmentIsTotalLotsPriced(issue, price, allocs[1..]);
      InvestmentAdds(issue, price, allocs[0].lots, TotalLots(allocs[1..]));
    }
  }

  /** The investment in a + b lots is the investment in a lots plus the
      investment in b lots. */
  lemma InvestmentAdds(issue: Issue, price: real, a: int, b: int)
    ensures Investment(issue, price, a + b) == Investment(issue, price, a) + Investment(issue, price, b)
  {
    var x := (a * issue.lotSize) as real;
    var y := (b * issue.lotSize) as real;
    assert (a + b) * issue.lotSize == a * issue.lotSize + b * issue.lotSize;
    assert (x + y) * price == x * price + y * price;
  }

  /** Changing one client's count changes the total by the difference and
      by nothing else. */
  lemma {:induction false} PutTotalLots(allocs: seq<Allocation>, id: string, lots: int)
    requires NoDuplicates(Keys(allocs))
    ensures TotalLots(Put(allocs, id, lots)) == TotalLots(allocs) - Lookup(allocs, id).GetOr(0) + lots
  {
    if allocs != [] && allocs[0].clientId != id {
      assert Keys(allocs[1..]) == Keys(allocs)[1..];
      PutTotalLots(allocs[1..], id, lots);
    } else if allocs != [] {
      assert Keys(allocs[1..]) == Keys(allocs)[1..];
    }
  }

  /** Giving `n` lots to each of `k` distinct clients allocates `k * n`. */
  lemma {:induction false} AllocateAllTotal(clients: seq<Client>, lots: int)
    requires NoDuplicates(Ids(clients))
    ensures TotalLots(AllocateAll(clients, lots)) == |clients| * lots
  {
    if clients != [] {
      var n := |clients| - 1;
      AllocateLastClient(clients, lots);
      AllocateAllTotal(clients[..n], lots);
      assert (n + 1) * lots == n * lots + lots;
    }
  }

  /** The last client, whose id is new, adds its `lots` to the total. */
  lemma AllocateLastClient(clients: seq<Client>, lots: int)
    requires NoDuplicates(Ids(clients)) && clients != []
    ensures NoDuplicates(Ids(clients[..|clients| - 1]))
    ensures TotalLots(AllocateAll(clients, lots)) == TotalLots(AllocateAll(clients[..|clients| - 1], lots)) + lots
  {
    var n := |clients| - 1;
    var last := clients[n].id;
    var prev := AllocateAll(clients[..n], lots);
    LastIdIsNew(clients);
    assert Lookup(prev, last) == None;
    PutTotalLots(prev, last, lots);
    assert AllocateAll(clients, lots) == Put(prev, last, lots);
  }

  /** Without duplicate ids, the last client's id is new to the others,
      which have no duplicates either. */
  lemma LastIdIsNew(clients: seq<Client>)
    requires NoDuplicates(Ids(clients)) && clients != []
    ensures NoDuplicates(Ids(clients[..|clients| - 1]))
    ensures clients[|clients| - 1].id !in Ids(clients[..|clients| - 1])
  {
    var n := |clients| - 1;
    var front := Ids(clients[..n]);
    forall i, j | 0 <= i < j < n
      ensures front[i] != front[j]
    {
      assert Ids(clients)[i] != Ids(clients)[j];
    }
    forall j | 0 <= j < n
      ensures front[j] != clients[n].id
    {
      assert Ids(clients)[j] != Ids(clients)[n];
    }
  }

  // ---------------------------------------------------------------------
  // What the step hands to the wizard

  datatype ClientCalculation = ClientCalculation(
    clientId: string,
    clientName: string,
    lots: int,
    investmentAmount: real,
    eligibility: Eligibility)

  datatype CalculationData = CalculationData(
    lotAllocations: seq<Allocation>,
    priceOption: PriceOption,
    customPrice: Option<string>,
    currentPrice: real,
    totalInvestment: real,
    totalLots: int,
    clientCalculations: seq<ClientCalculation>)

  /** One row per selected client, in selection order; a client with no
      entry counts as one lot. */
  function ClientCalculations(issue: Issue, price: real, clients: seq<Client>, allocs: seq<Allocation>)
    : (r: seq<ClientCalculation>)
    ensures |r| == |clients|
    ensures forall i :: 0 <= i < |clients| ==>
      && r[i].clientId == clients[i].id
      && r[i].lots == Lookup(allocs, clients[i].id).GetOr(1)
      && r[i].investmentAmount == Investment(issue, price, r[i].lots)
      && r[i].eligibility == ClientEligibility(issue, price, clients[i], r[i].lots)
  {
    seq(|clients|, i requires 0 <= i < |clients| =>
      var lots := Lookup(allocs, clients[i].id).GetOr(1);
      ClientCalculation(clients[i].id, clients[i].name, lots, Investment(issue, price, lots),
        ClientEligibility(issue, price, clients[i], lots)))
  }

  /** Every stored count lies in [1, max] (the upper bound only when the
      issue allows at least one lot). */
  predicate LotsInRange(allocs: seq<Allocation>, maxLots: int) {
    forall i :: 0 <= i < |allocs| ==> 1 <= allocs[i].lots && (1 <= maxLots ==> allocs[i].lots <= maxLots)
  }

  class LotCalculator {
    const issue: Issue
    var selectedClients: seq<Client>
    var allocations: seq<Allocation>
    var priceOption: PriceOption
    var customPrice: string

    ghost predicate Valid()
      reads this
    {
      NoDuplicates(Keys(allocations)) && LotsInRange(allocations, issue.maxLotsPerApplication)
    }

    /** Mounting the step with `clients`: one lot each, at the cut-off price. */
    constructor(issue: Issue, clients: seq<Client>)
      ensures Valid()
      ensures this.issue == issue && selectedClients == clients
      ensures allocations == AllocateAll(clients, 1)
      ensures priceOption == Cutoff && customPrice == ""
    {
      this.issue := issue;
      selectedClients := clients;
      var allocs := BuildAllocations(clients, 1);
      allocations := allocs;
      priceOption := Cutoff;
      customPrice := "";
      new;
      AllocatedInRange(clients, 1, issue.maxLotsPerApplication);
    }

    /** A new selection resets every allocation to one lot. */
    method SelectClients(clients: seq<Client>)
      requires Valid()
      modifies this
      ensures Valid()
      ensures selectedClients == clients && allocations == AllocateAll(clients, 1)
      ensures priceOption == old(priceOption) && customPrice == old(customPrice)
    {
      selectedClients := clients;
      allocations := BuildAllocations(clients, 1);
      AllocatedInRange(clients, 1, issue.maxLotsPerApplication);
    }

    function Price(): real
      reads this
    {
      EffectivePrice(issue, priceOption, customPrice)
    }

    /** `handleLotChange`: one client's count, clamped; no other entry changes. */
    method LotChange(clientId: string, input: string)
      requires Valid()
      modifies this
      ensures Valid()
      ensures allocations == Put(old(allocations), clientId, ClampLots(input, issue.maxLotsPerApplication))
      ensures forall k :: k != clientId ==> Lookup(allocations, k) == Lookup(old(allocations), k)
      ensures TotalLots(allocations) ==
        TotalLots(old(allocations)) - Lookup(old(allocations), clientId).GetOr(0) + ClampLots(input, issue.maxLotsPerApplication)
      ensures selectedClients == old(selectedClients)
      ensures priceOption == old(priceOption) && customPrice == old(customPrice)
    {
      var lots := ClampLots(input, issue.maxLotsPerApplication);
      var updated := Put(allocations, clientId, lots);
      PutTotalLots(allocations, clientId, lots);
      PutInRange(allocations, clientId, lots, issue.maxLotsPerApplication);
      allocations := updated;
    }

    /** `handleBulkLotUpdate`: every selected client gets the same clamped
        count, and only they keep an entry. */
    method BulkLotUpdate(input: string)
      requires Valid()
      modifies this
      ensures Valid()
      ensures allocations == AllocateAll(selectedClients, ClampLots(input, issue.maxLotsPerApplication))
      ensures selectedClients == old(selectedClients)
      ensures priceOption == old(priceOption) && customPrice == old(customPrice)
    {
      var lots := ClampLots(input, issue.maxLotsPerApplication);
      allocations := BuildAllocations(selectedClients, lots);
      AllocatedInRange(selectedClients, lots, issue.maxLotsPerApplication);
    }

    method SetPriceOption(option: PriceOption)
      requires Valid()
      modifies this
      ensures Valid()
      ensures priceOption == option
      ensures allocations == old(allocations) && selectedClients == old(selectedClients)
      ensures customPrice == old(customPrice)
    {
      priceOption := option;
    }

    method SetCustomPrice(text: string)
      requires Valid()
      modifies this
      ensures Valid()
      ensures customPrice == text
      ensures allocations == old(allocations) && selectedClients == old(selectedClients)
      ensures priceOption == old(priceOption)
    {
      customPrice := text;
    }

    /** The calculation record handed to the wizard after every change. */
    function Data(): (d: CalculationData)
      reads this
      ensures d.totalInvestment == Investment(issue, Price(), TotalLots(allocations))
      ensures d.customPrice == if priceOption == Custom then Some(customPrice) else None
      ensures |d.clientCalculations| == |selectedClients|
    {
      var price := Price();
      TotalInvestmentIsTotalLotsPriced(issue, price, allocations);
      CalculationData(
        allocations,
        priceOption,
        if priceOption == Custom then Some(customPrice) else None,
        price,
        TotalInvestment(issue, price, allocations),
        TotalLots(allocations),
        ClientCalculations(issue, price, selectedClients, allocations))
    }
  }

  lemma AllocatedInRange(clients: seq<Client>, lots: int, maxLots: int)
    requires 1 <= lots && (1 <= maxLots ==> lots <= maxLots)
    ensures LotsInRange(AllocateAll(clients, lots), maxLots)
  {
    var r := AllocateAll(clients, lots);
    forall i | 0 <= i < |r|
      ensures r[i].lots == lots
    {
      assert Keys(r)[i] == r[i].clientId;
      LookupFindsFirst(r, i);
    }
  }

  /** In an allocation without duplicate keys, looking up an entry's key
      finds that entry. */
  lemma {:induction false} LookupFindsFirst(allocs: seq<Allocation>, i: int)
    requires NoDuplicates(Keys(allocs))
    requires 0 <= i < |allocs|
    ensures Lookup(allocs, allocs[i].clientId) == Some(allocs[i].lots)
  {
    if i > 0 {
      var tail := allocs[1..];
      assert allocs[0].clientId != allocs[i].clientId by {
        assert Keys(allocs)[0] != Keys(allocs)[i];
      }
      assert tail[i - 1] == allocs[i];
      assert NoDuplicates(Keys(tail)) by {
        assert Keys(tail) == Keys(allocs)[1..];
      }
      LookupFindsFirst(tail, i - 1);
    }
  }

  lemma PutInRange(allocs: seq<Allocation>, id: string, lots: int, maxLots: int)
    requires NoDuplicates(Keys(allocs))
    requires LotsInRange(allocs, maxLots)
    requires 1 <= lots && (1 <= maxLots ==> lots <= maxLots)
    ensures NoDuplicates(Keys(Put(allocs, id, lots)))
    ensures LotsInRange(Put(allocs, id, lots), maxLots)
  {
    var r := Put(allocs, id, lots);
    forall i | 0 <= i < |r|
      ensures 1 <= r[i].lots && (1 <= maxLots ==> r[i].lots <= maxLots)
    {
      LookupFindsFirst(r, i);
      var k := r[i].clientId;
      if k != id {
        var j :| 0 <= j < |allocs| && allocs[j] == Allocation(k, r[i].lots);
      }
    }
  }
}

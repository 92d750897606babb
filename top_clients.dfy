/** The sub-broker's top-clients table: the clients ordered by the chosen
    column, each row carrying its rank, a click leading to the client's
    page. */
module TopClients {
  import opened Text
  import opened Sorting

  datatype Client = Client(
    id: nat,
    name: string,
    email: string,
    totalInvestment: nat,
    activeApplications: nat,
    successfulAllotments: nat,
    joinDate: string,
    status: string,
    lastActivity: string)

  /** The value a sort column compares. The three numeric columns sort
      largest first; any other choice sorts by name. */
  function ColumnKey(sortBy: string): Client -> SortKey {
    match sortBy
    case "investment" => (c: Client) => Num(c.totalInvestment as real)
    case "allotments" => (c: Client) => Num(c.successfulAllotments as real)
    case "applications" => (c: Client) => Num(c.activeApplications as real)
    case _ => (c: Client) => Str(c.name)
  }

  predicate Descending(sortBy: string) {
    sortBy in {"investment", "allotments", "applications"}
  }

  /** `sortedClients`: a reordered copy of the clients, largest first on
      a numeric column and by name otherwise. */
  function SortedClients(clients: seq<Client>, sortBy: string): (r: seq<Client>)
    ensures multiset(r) == multiset(clients)
    ensures sortBy == "investment" ==>
      forall i, j :: 0 <= i < j < |r| ==> r[i].totalInvestment >= r[j].totalInvestment
    ensures sortBy == "allotments" ==>
      forall i, j :: 0 <= i < j < |r| ==> r[i].successfulAllotments >= r[j].successfulAllotments
    ensures sortBy == "applications" ==>
      forall i, j :: 0 <= i < j < |r| ==> r[i].activeApplications >= r[j].activeApplications
    ensures !Descending(sortBy) ==>
      forall i, j :: 0 <= i < j < |r| ==> StrLe(r[i].name, r[j].name)
  {
    var key := ColumnKey(sortBy);
    var r := SortByKey(clients, key, Descending(sortBy));
    assert forall i, j :: 0 <= i < j < |r| ==>
      if Descending(sortBy) then KeyLe(key(r[j]), key(r[i])) else KeyLe(key(r[i]), key(r[j]));
    r
  }

  /** The leading row holds the largest total investment of all clients. */
  lemma TopRankedInvestsMost(clients: seq<Client>, c: Client)
    requires c in clients
    ensures var r := SortedClients(clients, "investment");
      |r| > 0 && c.totalInvestment <= r[0].totalInvestment
  {
    var r := SortedClients(clients, "investment");
    assert c in multiset(r);
    var k :| 0 <= k < |r| && r[k] == c;
    if k > 0 {
      assert r[0].totalInvestment >= r[k].totalInvestment;
    }
  }

  /** A row: its rank badge and its client. */
  datatype Row = Row(rank: nat, client: Client)

  /** The table body: the `index + 1` badge beside each sorted client. */
  function Rows(clients: seq<Client>, sortBy: string): (r: seq<Row>)
    ensures |r| == |clients|
    ensures forall i :: 0 <= i < |r| ==> r[i].rank == i + 1
    ensures forall i :: 0 <= i < |r| ==> r[i].client == SortedClients(clients, sortBy)[i]
  {
    var sorted := SortedClients(clients, sortBy);
    seq(|sorted|, i requires 0 <= i < |sorted| => Row(i + 1, sorted[i]))
  }

  /** Ranks run 1, 2, ..., n, and every client has exactly as many rows as
      it has entries. */
  lemma RanksAreDistinct(clients: seq<Client>, sortBy: string)
    ensures var r := Rows(clients, sortBy);
      forall i, j :: 0 <= i < j < |r| ==> r[i].rank < r[j].rank
    ensures multiset(seq(|clients|, i requires 0 <= i < |clients| => Rows(clients, sortBy)[i].client)) == multiset(clients)
  {
    var r := Rows(clients, sortBy);
    var sorted := SortedClients(clients, sortBy);
    assert seq(|clients|, i requires 0 <= i < |clients| => r[i].client) == sorted;
  }

  /** `handleClientClick`: the client-management page for that client. */
  function ClientLink(id: nat): (r: string)
    ensures |r| > 25 && r[..25] == "/client-management?client"
    ensures r[25] == '=' && AllDigits(r[26..]) && DigitsValue(r[26..]) == id
  {
    var digits := NatToString(id);
    NatToStringRoundTrip(id);
    var r := "/client-management?client=" + digits;
    assert r[26..] == digits;
    r
  }

  class Table {
    const clients: seq<Client>
    /** The sort select; 'investment' at first. */
    var sortBy: string

    constructor(clients: seq<Client>)
      ensures this.clients == clients && sortBy == "investment"
    {
      this.clients := clients;
      sortBy := "investment";
    }

    function Displayed(): seq<Row>
      reads this
    {
      Rows(clients, sortBy)
    }

    /** The select's `onChange`: a new column reorders the same clients. */
    method SetSortBy(value: string)
      modifies this
      ensures sortBy == value
      ensures multiset(SortedClients(clients, sortBy)) == multiset(SortedClients(clients, old(sortBy)))
    {
      sortBy := value;
    }

    /** A click on the `k`-th row opens that client's page. */
    method ClientClick(k: nat) returns (path: string)
      requires k < |Displayed()|
      ensures path == ClientLink(Displayed()[k].client.id)
    {
      path := ClientLink(Displayed()[k].client.id);
    }
  }
}

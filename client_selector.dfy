/** The client-selection step of the IPO application: a searchable roster
    of clients, of which the sub-broker ticks the ones to apply for. */
module ClientSelection {
  import opened Common
  import opened Text

  /** A client on the roster, with the fields the wizard reads. */
  datatype Client = Client(
    id: string,
    name: string,
    email: string,
    panNumber: string,
    availableFunds: real,
    kycStatus: string)

  const Verified: string := "Verified"

  /** Only clients whose KYC is verified may be applied for. */
  predicate IsEligible(c: Client) {
    c.kycStatus == Verified
  }

  predicate MatchesSearch(c: Client, term: string) {
    || ContainsIgnoringCase(c.name, term)
    || ContainsIgnoringCase(c.email, term)
    || ContainsIgnoringCase(c.panNumber, term)
  }

  /** The clients shown for a search term, in roster order. */
  function FilteredClients(roster: seq<Client>, term: string): (r: seq<Client>)
    ensures forall i :: 0 <= i < |r| ==> r[i] in roster && MatchesSearch(r[i], term)
    ensures forall i :: 0 <= i < |roster| && MatchesSearch(roster[i], term) ==> roster[i] in r
  {
    Filter(roster, (c: Client) => MatchesSearch(c, term))
  }

  /** The empty search shows the whole roster, in order. */
  lemma EmptySearchShowsRoster(roster: seq<Client>)
    ensures FilteredClients(roster, "") == roster
  {
    forall c | c in roster
      ensures MatchesSearch(c, "")
    {
      ContainsIgnoringCaseBasics(c.name);
    }
    FilterKeepsAll(roster, (c: Client) => MatchesSearch(c, ""));
  }

  function Ids(clients: seq<Client>): (r: seq<string>)
    ensures |r| == |clients|
    ensures forall i :: 0 <= i < |clients| ==> r[i] == clients[i].id
  {
    seq(|clients|, i requires 0 <= i < |clients| => clients[i].id)
  }

  /** The selection after ticking or unticking `id`: a selected id is
      removed, any other id is appended at the end. */
  function Toggled(ids: seq<string>, id: string): (r: seq<string>)
    ensures forall x :: x in r <==> if id in ids then x in ids && x != id else x in ids || x == id
    ensures id !in ids ==> r == ids + [id]
  {
    if id in ids then Filter(ids, x => x != id) else ids + [id]
  }

  /** Toggling never introduces a duplicate id. */
  lemma ToggledNoDuplicates(ids: seq<string>, id: string)
    requires NoDuplicates(ids)
    ensures NoDuplicates(Toggled(ids, id))
  {
    if id in ids {
      FilterNoDuplicates(ids, x => x != id);
    }
  }

  /** Ticking an unselected client and unticking it again restores the
      selection exactly. */
  lemma ToggleTwice(ids: seq<string>, id: string)
    requires id !in ids
    ensures Toggled(Toggled(ids, id), id) == ids
  {
    var p := (x: string) => x != id;
    FilterConcat(ids, [id], p);
    FilterKeepsAll(ids, p);
    assert Filter([id], p) == [];
  }

  /** The client records reported to the wizard for a list of ids: the
      roster's clients with those ids, in roster order. */
  function SelectedFromRoster(roster: seq<Client>, ids: seq<string>): (r: seq<Client>)
    ensures forall i :: 0 <= i < |r| ==> r[i] in roster && r[i].id in ids
    ensures forall i :: 0 <= i < |roster| && roster[i].id in ids ==> roster[i] in r
  {
    Filter(roster, (c: Client) => c.id in ids)
  }

  /** The clients "select all eligible" picks: the verified clients of the
      current view, in view order. */
  function EligibleInView(view: seq<Client>): (r: seq<Client>)
    ensures forall i :: 0 <= i < |r| ==> r[i] in view && IsEligible(r[i])
    ensures forall i :: 0 <= i < |view| && IsEligible(view[i]) ==> view[i] in r
  {
    Filter(view, IsEligible)
  }

  /** Selecting all eligible clients of a view that is already so selected
      changes nothing. */
  lemma SelectAllIdempotent(view: seq<Client>)
    ensures EligibleInView(EligibleInView(view)) == EligibleInView(view)
  {
    FilterIdempotent(view, IsEligible);
  }

  class Selector {
    /** The roster the component lists. */
    const roster: seq<Client>
    var searchTerm: string
    var selectedIds: seq<string>

    /** Opening the step with the clients chosen earlier ticked. */
    constructor(roster: seq<Client>, alreadySelected: seq<Client>)
      ensures this.roster == roster
      ensures searchTerm == ""
      ensures selectedIds == Ids(alreadySelected)
    {
      this.roster := roster;
      searchTerm := "";
      selectedIds := Ids(alreadySelected);
    }

    function View(): seq<Client>
      reads this
    {
      FilteredClients(roster, searchTerm)
    }

    method SetSearchTerm(term: string)
      modifies this
      ensures searchTerm == term
      ensures selectedIds == old(selectedIds)
    {
      searchTerm := term;
    }

    /** Ticks or unticks one client. Only clients in the view have a
        checkbox, and it is disabled unless their KYC is verified. */
    method Toggle(id: string) returns (reported: seq<Client>)
      requires exists c :: c in View() && c.id == id && IsEligible(c)
      modifies this
      ensures selectedIds == Toggled(old(selectedIds), id)
      ensures NoDuplicates(old(selectedIds)) ==> NoDuplicates(selectedIds)
      ensures searchTerm == old(searchTerm)
      ensures reported == SelectedFromRoster(roster, selectedIds)
    {
      if NoDuplicates(selectedIds) {
        ToggledNoDuplicates(selectedIds, id);
      }
      selectedIds := Toggled(selectedIds, id);
      reported := SelectedFromRoster(roster, selectedIds);
    }

    /** Replaces the selection with the verified clients of the view. */
    method SelectAll() returns (reported: seq<Client>)
      modifies this
      ensures reported == EligibleInView(View())
      ensures selectedIds == Ids(reported)
      ensures searchTerm == old(searchTerm)
    {
      reported := EligibleInView(View());
      selectedIds := Ids(reported);
    }

    method ClearAll() returns (reported: seq<Client>)
      modifies this
      ensures selectedIds == [] && reported == []
      ensures searchTerm == old(searchTerm)
    {
      selectedIds := [];
      reported := [];
    }
  }
}

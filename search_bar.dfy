/** The search box of the IPO listings: every keystroke is forwarded to the
    page, and a dropdown offers the suggestions that contain the term. */
module SearchBar {
  import opened Common
  import opened Text

  /** The suggestions holding `term`, ignoring case, in their own order. */
  function Matching(suggestions: seq<string>, term: string): (r: seq<string>)
    ensures forall i :: 0 <= i < |r| ==> r[i] in suggestions && ContainsIgnoringCase(r[i], term)
    ensures forall s :: s in suggestions && ContainsIgnoringCase(s, term) ==> s in r
  {
    Filter(suggestions, (s: string) => ContainsIgnoringCase(s, term))
  }

  /** A string only contains terms no longer than itself. */
  lemma ContainsNoLonger(s: string, term: string)
    requires ContainsIgnoringCase(s, term)
    ensures |term| <= |s|
  {
    var i :| 0 <= i <= |Lower(s)| - |Lower(term)| && IsPrefix(Lower(term), Lower(s)[i..]);
  }

  /** A suggestion picked from the list matches itself, so it is offered
      again whenever the list is filtered by it. */
  lemma PickedSuggestionMatches(suggestions: seq<string>, s: string)
    requires s in suggestions
    ensures s in Matching(suggestions, s)
    ensures Matching(suggestions, s) != []
  {
    ContainsIgnoringCaseBasics(s);
  }

  /** With no term every suggestion matches. */
  lemma {:induction false} EmptyTermMatchesAll(suggestions: seq<string>)
    ensures Matching(suggestions, "") == suggestions
  {
    forall s | s in suggestions
      ensures ContainsIgnoringCase(s, "")
    {
      ContainsIgnoringCaseBasics(s);
    }
    FilterKeepsAll(suggestions, (s: string) => ContainsIgnoringCase(s, ""));
  }

  class SearchBox {
    /** The `suggestions` prop. */
    var suggestions: seq<string>
    var searchTerm: string
    var showSuggestions: bool
    var filteredSuggestions: seq<string>

    /** The dropdown is shown only for a non-empty term with matches, and
        the list it shows is the current term's matches. */
    ghost predicate Valid()
      reads this
    {
      && (showSuggestions ==> searchTerm != "" && filteredSuggestions != [])
      && (searchTerm != "" ==> filteredSuggestions == Matching(suggestions, searchTerm))
    }

    /** The first render, after which the effect runs once on the empty
        term. */
    constructor(suggestions: seq<string>)
      ensures Valid()
      ensures this.suggestions == suggestions && searchTerm == ""
      ensures !showSuggestions && filteredSuggestions == []
    {
      this.suggestions := suggestions;
      searchTerm := "";
      showSuggestions := false;
      filteredSuggestions := [];
    }

    /** The effect on `[searchTerm, suggestions]`: a non-empty term
        refilters the list and shows the dropdown iff something matches;
        an empty term hides the dropdown and leaves the list as it was. */
    method RefreshSuggestions()
      modifies this
      ensures Valid()
      ensures searchTerm == old(searchTerm) && suggestions == old(suggestions)
      ensures searchTerm != "" ==>
        filteredSuggestions == Matching(suggestions, searchTerm) && showSuggestions == (filteredSuggestions != [])
      ensures searchTerm == "" ==> filteredSuggestions == old(filteredSuggestions) && !showSuggestions
    {
      if |searchTerm| > 0 {
        filteredSuggestions := Matching(suggestions, searchTerm);
        showSuggestions := |filteredSuggestions| > 0;
      } else {
        showSuggestions := false;
      }
    }

    /** A new `suggestions` prop re-runs the effect. */
    method SetSuggestions(newSuggestions: seq<string>)
      modifies this
      ensures Valid()
      ensures suggestions == newSuggestions && searchTerm == old(searchTerm)
      ensures searchTerm != "" ==> showSuggestions == (Matching(newSuggestions, searchTerm) != [])
      ensures searchTerm == "" ==> !showSuggestions
    {
      suggestions := newSuggestions;
      RefreshSuggestions();
    }

    /** `handleInputChange`: the typed value becomes the term and is
        forwarded; the effect then decides the dropdown. */
    method HandleInputChange(value: string) returns (forwarded: string)
      requires Valid()
      modifies this
      ensures Valid()
      ensures forwarded == value && searchTerm == value && suggestions == old(suggestions)
      ensures value != old(searchTerm) ==>
        (showSuggestions <==> value != "" && Matching(suggestions, value) != [])
      ensures value == old(searchTerm) ==> showSuggestions == old(showSuggestions)
    {
      var changed := value != searchTerm;
      searchTerm := value;
      forwarded := value;
      if changed {
        RefreshSuggestions();
      }
    }

    /** `handleSuggestionClick` as written: the pick becomes the term, is
        forwarded and the dropdown is hidden; but when the pick differs
        from the term, the effect runs again, finds the pick among its own
        matches and shows the dropdown once more. */
    method HandleSuggestionClickAsWritten(s: string) returns (forwarded: string)
      requires Valid() && showSuggestions && s in filteredSuggestions
      modifies this
      ensures Valid()
      ensures forwarded == s && searchTerm == s && suggestions == old(suggestions)
      ensures s != old(searchTerm) ==> showSuggestions
      ensures s == old(searchTerm) ==> !showSuggestions
    {
      assert s in suggestions && ContainsIgnoringCase(s, searchTerm);
      ContainsNoLonger(s, searchTerm);
      var changed := s != searchTerm;
      searchTerm := s;
      forwarded := s;
      showSuggestions := false;
      if changed {
        RefreshSuggestions();
        PickedSuggestionMatches(suggestions, s);
      }
    }

    /** `handleSuggestionClick` as evidently intended: the pick becomes
        the term and is forwarded, the list follows the new term, and the
        dropdown stays hidden. */
    method HandleSuggestionClick(s: string) returns (forwarded: string)
      requires Valid() && showSuggestions && s in filteredSuggestions
      modifies this
      ensures Valid()
      ensures forwarded == s && searchTerm == s && suggestions == old(suggestions)
      ensures !showSuggestions
      ensures filteredSuggestions == Matching(suggestions, searchTerm)
    {
      searchTerm := s;
      forwarded := s;
      showSuggestions := false;
      filteredSuggestions := Matching(suggestions, searchTerm);
    }

    /** `clearSearch`: the term is emptied, `''` is forwarded and the
        dropdown is hidden. */
    method ClearSearch() returns (forwarded: string)
      requires Valid()
      modifies this
      ensures Valid()
      ensures forwarded == "" && searchTerm == "" && !showSuggestions
      ensures suggestions == old(suggestions)
    {
      var changed := searchTerm != "";
      searchTerm := "";
      forwarded := "";
      showSuggestions := false;
      if changed {
        RefreshSuggestions();
      }
    }
  }

  /** As written: a term is typed, a different suggestion among its
      matches is picked, and the dropdown is open again afterwards. */
  method PickReopensAsWritten(suggestions: seq<string>, typed: string, picked: string) returns (shown: bool)
    requires typed != "" && picked != typed
    requires picked in suggestions && ContainsIgnoringCase(picked, typed)
    ensures shown
  {
    var box := new SearchBox(suggestions);
    var _ := box.HandleInputChange(typed);
    assert picked in Matching(suggestions, typed);
    var _ := box.HandleSuggestionClickAsWritten(picked);
    shown := box.showSuggestions;
  }

  /** Corrected: the same typing and pick leave the dropdown closed. */
  method PickClosesCorrected(suggestions: seq<string>, typed: string, picked: string) returns (shown: bool)
    requires typed != "" && picked != typed
    requires picked in suggestions && ContainsIgnoringCase(picked, typed)
    ensures !shown
  {
    var box := new SearchBox(suggestions);
    var _ := box.HandleInputChange(typed);
    assert picked in Matching(suggestions, typed);
    var _ := box.HandleSuggestionClick(picked);
    shown := box.showSuggestions;
  }
}

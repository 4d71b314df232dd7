/**
 * The site header: the quick search over the sample acts, the result list it
 * opens, and the login dialog.
 */
module Header {
  import opened Options
  import opened Text
  import opened Seqs
  import opened MockData
  import Auth

  /** An act matches a query when its lower-cased title or summary contains the
      lower-cased query. */
  function Matches(a: Act, query: string): (m: bool)
    ensures query == "" ==> m
    ensures m ==> |query| <= |a.title| || |query| <= |a.summary|
  {
    var q := Lower(query);
    ContainsTrivial(Lower(a.title));
    if Contains(Lower(a.title), q) then
      ContainsLength(Lower(a.title), q);
      true
    else if Contains(Lower(a.summary), q) then
      ContainsLength(Lower(a.summary), q);
      true
    else
      false
  }

  /** `query.length >= 2`: shorter queries do not search. */
  predicate LongEnough(query: string) {
    |query| >= 2
  }

  function SearchResults(acts: seq<Act>, query: string): (r: seq<Act>)
    ensures IsSubsequence(r, acts)
  {
    FilterIsSubsequence(acts, a => Matches(a, query));
    Filter(acts, a => Matches(a, query))
  }

  /** An act is offered exactly when it is one of the acts and its title or
      summary holds the query, whatever the letter case. */
  lemma SearchMembership(acts: seq<Act>, query: string, a: Act)
    ensures a in SearchResults(acts, query) <==>
              a in acts && (Contains(Lower(a.title), Lower(query)) || Contains(Lower(a.summary), Lower(query)))
  {
    FilterMembership(acts, x => Matches(x, query), a);
  }

  /** Search ignores the letter case of the query. */
  lemma SearchIgnoresQueryCase(acts: seq<Act>, query: string)
    ensures SearchResults(acts, Lower(query)) == SearchResults(acts, query)
  {
    LowerIdempotent(query);
    FilterCongruent(acts, a => Matches(a, Lower(query)), a => Matches(a, query));
  }

  /** The path the result button navigates to. */
  function ActPath(a: Act): (path: string)
    ensures StartsWith(path, "/akt/") && path[5..] == a.id
  {
    "/akt/" + a.id
  }

  class Header {
    const acts: seq<Act>
    const auth: Auth.AuthContext
    var searchQuery: string
    var searchResults: seq<Act>
    var showResults: bool
    var loginDialogOpen: bool
    var loginEmail: string
    var loginPassword: string

    /** `sampleActs` is passed in as `source`. */
    constructor(source: seq<Act>, context: Auth.AuthContext)
      ensures acts == source && auth == context
      ensures searchQuery == "" && searchResults == [] && !showResults
      ensures !loginDialogOpen && loginEmail == "" && loginPassword == ""
    {
      acts := source;
      auth := context;
      searchQuery := "";
      searchResults := [];
      showResults := false;
      loginDialogOpen := false;
      loginEmail := "";
      loginPassword := "";
    }

    /** The drop-down list is on screen. */
    predicate ResultsVisible()
      reads this
    {
      showResults && |searchResults| > 0
    }

    /** `handleSearch(query)`: a query of two or more characters lists the
        matching acts and opens the list; a shorter one empties and closes it. */
    method HandleSearch(query: string)
      modifies this
      ensures searchQuery == query
      ensures LongEnough(query) ==> searchResults == SearchResults(acts, query) && showResults
      ensures !LongEnough(query) ==> searchResults == [] && !showResults && !ResultsVisible()
      ensures loginDialogOpen == old(loginDialogOpen)
      ensures loginEmail == old(loginEmail) && loginPassword == old(loginPassword)
    {
      searchQuery := query;
      if |query| >= 2 {
        searchResults := SearchResults(acts, query);
        showResults := true;
      } else {
        searchResults := [];
        showResults := false;
      }
    }

    /** Focusing the field reopens the list only for a long enough query. */
    method HandleFocus()
      modifies this
      ensures showResults == (old(showResults) || LongEnough(searchQuery))
      ensures searchQuery == old(searchQuery) && searchResults == old(searchResults)
      ensures loginDialogOpen == old(loginDialogOpen)
      ensures loginEmail == old(loginEmail) && loginPassword == old(loginPassword)
    {
      if |searchQuery| >= 2 {
        showResults := true;
      }
    }

    /** Leaving the field closes the list (after a delay the model leaves out). */
    method HandleBlur()
      modifies this
      ensures !showResults && !ResultsVisible()
      ensures searchQuery == old(searchQuery) && searchResults == old(searchResults)
      ensures loginDialogOpen == old(loginDialogOpen)
      ensures loginEmail == old(loginEmail) && loginPassword == old(loginPassword)
    {
      showResults := false;
    }

    /** Clicking a result: navigate to its page, close the list, clear the query.
        The old results are kept, so focusing again shows nothing until a new
        query is typed. */
    method SelectResult(a: Act) returns (path: string)
      requires a in searchResults
      modifies this
      ensures path == ActPath(a)
      ensures !showResults && searchQuery == ""
      ensures searchResults == old(searchResults)
      ensures loginDialogOpen == old(loginDialogOpen)
      ensures loginEmail == old(loginEmail) && loginPassword == old(loginPassword)
    {
      path := ActPath(a);
      showResults := false;
      searchQuery := "";
    }

    /** The step after `login` answers: a successful login closes the dialog
        and clears both credential fields; a refused one changes nothing. */
    method FinishLogin(success: bool)
      modifies this
      ensures success ==> !loginDialogOpen && loginEmail == "" && loginPassword == ""
      ensures !success ==> loginDialogOpen == old(loginDialogOpen)
      ensures !success ==> loginEmail == old(loginEmail) && loginPassword == old(loginPassword)
      ensures searchQuery == old(searchQuery) && searchResults == old(searchResults)
      ensures showResults == old(showResults)
    {
      if success {
        loginDialogOpen := false;
        loginEmail := "";
        loginPassword := "";
      }
    }

    /** `handleLogin`: the header calls `login(email, password)` with no role,
        which the context always refuses, so the dialog stays open with the
        typed credentials and nobody is signed in. */
    method HandleLogin(newId: string, now: string) returns (success: bool)
      modifies this, auth
      ensures !success
      ensures auth.user == old(auth.user) && auth.storedUser == old(auth.storedUser)
      ensures loginDialogOpen == old(loginDialogOpen)
      ensures loginEmail == old(loginEmail) && loginPassword == old(loginPassword)
      ensures searchQuery == old(searchQuery) && searchResults == old(searchResults)
      ensures showResults == old(showResults)
    {
      success := auth.Login(loginEmail, loginPassword, None, newId, now);
      FinishLogin(success);
    }
  }
}

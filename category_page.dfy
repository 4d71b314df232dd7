/**
 * The category page: the acts of the category named by the route, narrowed by
 * the same filter panel as the all-acts page, and a subscribe toggle.
 */
module CategoryPage {
  import opened Options
  import opened Seqs
  import opened MockData
  import opened ActFilters
  import opened Plurals
  import AllActsPage

  /** `categories.find((c) => c.id === id)`: the first category with that id. */
  function Lookup(cats: seq<Category>, id: string): (r: Option<Category>)
    ensures r.None? <==> forall c :: c in cats ==> c.id != id
    ensures r.Some? ==> r.value in cats && r.value.id == id
  {
    Find(cats, (c: Category) => c.id == id)
  }

  /** The category of the route parameter, if the route names a known one. */
  function RouteCategory(route: Option<string>): Option<Category> {
    match route
    case None => None
    case Some(id) => Lookup(Categories, id)
  }

  /** `categoryId || "all"`: the category field of the opening and reset filters. */
  function ResetFilters(route: Option<string>): (f: Filters)
    ensures f.category == (if route.Some? && route.value != "" then route.value else "all")
    ensures forall k :: k != FilterKey.Category ==> f.Get(k) == Initial.Get(k)
  {
    Initial.(category := if route.Some? && route.value != "" then route.value else "all")
  }

  /** `if (categoryId && act.category !== categoryId) return false`. */
  predicate InRoute(route: Option<string>, a: Act) {
    route.Some? && route.value != "" ==> a.category == route.value
  }

  /** The `filteredActs` callback of the category page: the route guard first,
      then the title, status, progress, sponsor and term guards. */
  predicate Keeps(route: Option<string>, f: Filters, a: Act) {
    if route.Some? && route.value != "" && a.category != route.value then false
    else if f.title != "" && !AllActsPage.TitleMatches(a, f.title) then false
    else if f.status != "" && f.status != "all" && a.status != f.status then false
    else if f.progress != "" && f.progress != "all" && a.progress != f.progress then false
    else if f.sponsor != "" && f.sponsor != "all" && a.sponsor != f.sponsor then false
    else if f.kadencja != "" && f.kadencja != "all" && a.kadencja != f.kadencja then false
    else true
  }

  function FilteredActs(acts: seq<Act>, route: Option<string>, f: Filters): (r: seq<Act>)
    ensures IsSubsequence(r, acts)
  {
    FilterIsSubsequence(acts, a => Keeps(route, f, a));
    Filter(acts, a => Keeps(route, f, a))
  }

  /** The category page keeps an act exactly when the act is in the route's
      category and the all-acts page would keep it with the dropdown on "all". */
  lemma KeepsIsAllActsWithRoute(route: Option<string>, f: Filters, a: Act)
    ensures Keeps(route, f, a) <==>
              InRoute(route, a) && AllActsPage.Keeps(f.With(FilterKey.Category, "all"), a)
  {
  }

  /** Every listed act has a known place in the input and, when the route names
      a category, belongs to it. */
  lemma ListedActsAreInRoute(acts: seq<Act>, route: Option<string>, f: Filters, a: Act)
    ensures a in FilteredActs(acts, route, f) <==> a in acts && Keeps(route, f, a)
    ensures a in FilteredActs(acts, route, f) && route.Some? && route.value != "" ==>
              a.category == route.value
  {
    FilterMembership(acts, x => Keeps(route, f, x), a);
  }

  /** The category dropdown of the filter panel has no effect on the list. */
  lemma DropdownIgnored(acts: seq<Act>, route: Option<string>, f: Filters, v: string)
    ensures FilteredActs(acts, route, f.With(FilterKey.Category, v)) == FilteredActs(acts, route, f)
  {
    FilterCongruent(acts, a => Keeps(route, f.With(FilterKey.Category, v), a), a => Keeps(route, f, a));
  }

  /** With no route parameter the page lists what the all-acts page lists for
      the same filters with the dropdown on "all". */
  lemma NoRouteIsAllActs(acts: seq<Act>, f: Filters)
    ensures FilteredActs(acts, None, f) == AllActsPage.FilteredActs(acts, f.With(FilterKey.Category, "all"))
  {
    forall i | 0 <= i < |acts|
      ensures Keeps(None, f, acts[i]) == AllActsPage.Keeps(f.With(FilterKey.Category, "all"), acts[i])
    {
      KeepsIsAllActsWithRoute(None, f, acts[i]);
    }
    FilterCongruent(acts, a => Keeps(None, f, a), a => AllActsPage.Keeps(f.With(FilterKey.Category, "all"), a));
  }

  /** No category id is empty or "all". */
  lemma CategoryIdsAreSet()
    ensures forall c :: c in Categories ==> IsSet(c.id)
  {
    forall c | c in Categories ensures IsSet(c.id) {
      assert |c.id| >= 5;
    }
  }

  /** On the page of a known category the reset filters still count as active,
      so the clear-filters button stays after a reset. */
  lemma ResetStaysActive(route: Option<string>)
    requires RouteCategory(route).Some?
    ensures HasActiveFilters(ResetFilters(route))
  {
    CategoryIdsAreSet();
    var f := ResetFilters(route);
    assert IsSet(f.Get(FilterKey.Category));
    HasActiveFiltersIff(f);
  }

  /** The header noun after the number of listed acts. */
  function HeaderNoun(acts: seq<Act>, route: Option<string>, f: Filters): (w: string)
    ensures w == "akt" <==> |FilteredActs(acts, route, f)| == 1
    ensures w == "akty" <==> |FilteredActs(acts, route, f)| in {0, 2, 3, 4}
    ensures w == "aktów" <==> |FilteredActs(acts, route, f)| >= 5
  {
    ShortActsNoun(|FilteredActs(acts, route, f)|)
  }

  /** The toast shown after a subscribe click, naming `category?.name`. */
  datatype Toast = SubscribedTo(name: Option<string>) | UnsubscribedFrom(name: Option<string>)

  /** The page's state for one route. */
  class Page {
    const acts: seq<Act>
    const categoryId: Option<string>
    const category: Option<Category>
    var filters: Filters
    var subscribed: bool

    /** `sampleActs` (`MockData.SampleActs`) is passed in as `source`. */
    constructor(source: seq<Act>, route: Option<string>)
      ensures acts == source && categoryId == route && category == RouteCategory(route)
      ensures filters == ResetFilters(route) && !subscribed
    {
      acts := source;
      categoryId := route;
      category := RouteCategory(route);
      filters := ResetFilters(route);
      subscribed := false;
    }

    /** The "category not found" view replaces the page exactly when the route
        names no known category. */
    predicate NotFound()
      reads this
    {
      category.None?
    }

    function Listed(): seq<Act>
      reads this
    {
      FilteredActs(acts, categoryId, filters)
    }

    method HandleFilterChange(k: FilterKey, v: string)
      modifies this
      ensures filters == old(filters).With(k, v)
      ensures subscribed == old(subscribed)
    {
      filters := filters.With(k, v);
    }

    /** `handleReset`: back to the route's own category, not to "all". */
    method HandleReset()
      modifies this
      ensures filters == ResetFilters(categoryId)
      ensures subscribed == old(subscribed)
    {
      filters := ResetFilters(categoryId);
    }

    /** `handleSubscribe`: flips the flag and announces the new state. */
    method HandleSubscribe() returns (toast: Toast)
      modifies this
      ensures subscribed == !old(subscribed)
      ensures filters == old(filters)
      ensures toast == (if old(subscribed) then UnsubscribedFrom(NameOf(category))
                        else SubscribedTo(NameOf(category)))
    {
      toast := if subscribed then UnsubscribedFrom(NameOf(category)) else SubscribedTo(NameOf(category));
      subscribed := !subscribed;
    }
  }

  /** `category?.name`. */
  function NameOf(c: Option<Category>): Option<string> {
    match c
    case None => None
    case Some(cat) => Some(cat.name)
  }
}

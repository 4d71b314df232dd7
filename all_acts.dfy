/**
 * The all-acts page: the list of sample acts narrowed by the filter record.
 * The record is replaced whole by `handleFilterChange` (`Filters.With`) and by
 * `handleReset` (back to `ActFilters.Initial`), so the page is a function of it.
 */
module AllActsPage {
  import opened Text
  import opened Seqs
  import opened MockData
  import opened ActFilters
  import opened Plurals

  /** `act.title.toLowerCase().includes(query.toLowerCase())` */
  predicate TitleMatches(a: Act, query: string) {
    Contains(Lower(a.title), Lower(query))
  }

  /** The `filteredActs` callback: each guard drops the act when its filter is set
      and the act differs; the title guard is skipped only for the empty string. */
  function Keeps(f: Filters, a: Act): (kept: bool)
    ensures kept ==> forall k :: k != TypAktu ==> Satisfies(f, a, k)
  {
    if f.title != "" && !TitleMatches(a, f.title) then false
    else if f.category != "" && f.category != "all" && a.category != f.category then false
    else if f.status != "" && f.status != "all" && a.status != f.status then false
    else if f.progress != "" && f.progress != "all" && a.progress != f.progress then false
    else if f.sponsor != "" && f.sponsor != "all" && a.sponsor != f.sponsor then false
    else if f.kadencja != "" && f.kadencja != "all" && a.kadencja != f.kadencja then false
    else true
  }

  /** What one filter field asks of an act, taken on its own. */
  predicate Satisfies(f: Filters, a: Act, k: FilterKey) {
    match k
    case Title => f.title == "" || TitleMatches(a, f.title)
    case Category => IsSet(f.category) ==> a.category == f.category
    case Status => IsSet(f.status) ==> a.status == f.status
    case Progress => IsSet(f.progress) ==> a.progress == f.progress
    case Sponsor => IsSet(f.sponsor) ==> a.sponsor == f.sponsor
    case TypAktu => true
    case Kadencja => IsSet(f.kadencja) ==> a.kadencja == f.kadencja
  }

  /** An act is kept exactly when every field but the legal-act type is satisfied. */
  lemma KeepsIff(f: Filters, a: Act)
    ensures Keeps(f, a) <==> forall k :: k != TypAktu ==> Satisfies(f, a, k)
  {
    if !Keeps(f, a) {
      var bad :=
        if !Satisfies(f, a, Title) then Title
        else if !Satisfies(f, a, FilterKey.Category) then FilterKey.Category
        else if !Satisfies(f, a, Status) then Status
        else if !Satisfies(f, a, Progress) then Progress
        else if !Satisfies(f, a, Sponsor) then Sponsor
        else Kadencja;
      assert !Satisfies(f, a, bad);
    }
  }

  /** `filteredActs` over a list of acts. */
  function FilteredActs(acts: seq<Act>, f: Filters): (r: seq<Act>)
    ensures IsSubsequence(r, acts)
    ensures forall a :: a in r ==> a in acts && forall k :: k != TypAktu ==> Satisfies(f, a, k)
  {
    FilterIsSubsequence(acts, a => Keeps(f, a));
    Filter(acts, a => Keeps(f, a))
  }

  /** The initial (and reset) filters keep every act, in the same order. */
  lemma InitialKeepsAll(acts: seq<Act>)
    ensures FilteredActs(acts, Initial) == acts
  {
    FilterKeepsAll(acts, a => Keeps(Initial, a));
  }

  /** The result keeps input order, and filtering it again changes nothing. */
  lemma FilteredOrderAndIdempotence(acts: seq<Act>, f: Filters)
    ensures IsSubsequence(FilteredActs(acts, f), acts)
    ensures FilteredActs(FilteredActs(acts, f), f) == FilteredActs(acts, f)
  {
    FilterIsSubsequence(acts, a => Keeps(f, a));
    FilterIdempotent(acts, a => Keeps(f, a));
  }

  /** An act is listed exactly when it is one of the input acts and meets every
      field but the legal-act type. */
  lemma FilteredMembership(acts: seq<Act>, f: Filters, a: Act)
    ensures a in FilteredActs(acts, f) <==>
              a in acts && forall k :: k != TypAktu ==> Satisfies(f, a, k)
  {
    FilterMembership(acts, a => Keeps(f, a), a);
    KeepsIff(f, a);
  }

  /** The legal-act type never changes the list. */
  lemma TypAktuIgnored(acts: seq<Act>, f: Filters, v: string)
    ensures FilteredActs(acts, f.With(TypAktu, v)) == FilteredActs(acts, f)
  {
    FilterCongruent(acts, a => Keeps(f.With(TypAktu, v), a), a => Keeps(f, a));
  }

  /** The panel reports active filters for a legal-act type alone, yet the list is
      still every act. */
  lemma TypAktuActiveButInert(acts: seq<Act>, v: string)
    requires IsSet(v)
    ensures HasActiveFilters(Initial.With(TypAktu, v))
    ensures FilteredActs(acts, Initial.With(TypAktu, v)) == acts
  {
    TypAktuAloneIsActive(v);
    TypAktuIgnored(acts, Initial, v);
    InitialKeepsAll(acts);
  }

  /** The title query "all" is not counted as active, yet it is searched for like
      any other text: an act whose title lacks "all" is dropped. */
  lemma TitleAllInactiveButFilters(a: Act)
    requires !Contains(Lower(a.title), "all")
    ensures !HasActiveFilters(Initial.With(Title, "all"))
    ensures !Keeps(Initial.With(Title, "all"), a)
  {
    TitleAllIsInactive();
    assert Lower("all") == "all";
  }

  /** The page's state: the filter record held by `useState`, over the sample acts. */
  class Page {
    const acts: seq<Act>
    var filters: Filters

    /** `sampleActs` (`MockData.SampleActs`) is passed in as `source`. */
    constructor(source: seq<Act>)
      ensures acts == source && filters == Initial
    {
      acts := source;
      filters := Initial;
    }

    /** `handleFilterChange(key, value)`: only field `key` takes the new value. */
    method HandleFilterChange(k: FilterKey, v: string)
      modifies this
      ensures filters == old(filters).With(k, v)
      ensures filters.Get(k) == v
      ensures forall other :: other != k ==> filters.Get(other) == old(filters).Get(other)
    {
      filters := filters.With(k, v);
    }

    /** `handleReset`: back to the opening filters, so every act is listed again. */
    method HandleReset()
      modifies this
      ensures filters == Initial
      ensures !HasActiveFilters(filters)
    {
      filters := Initial;
      InitialInactive();
    }

    /** The cards listed under the current filters. */
    function Listed(): seq<Act>
      reads this
    {
      FilteredActs(acts, filters)
    }

    /** `actsWord`: the noun printed after the number of listed acts. */
    function ActsWord(lang: string): string
      reads this
    {
      ActsNoun(|Listed()|, lang)
    }
  }
}

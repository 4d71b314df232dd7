/**
 * The seven-field filter record shared by the act list pages, and the
 * "has active filters" flag of the filter panel, which decides whether the
 * "Wyczyść filtry" (clear filters) button is offered.
 */
module ActFilters {

  /** The keys the filter panel passes to `onFilterChange`. */
  datatype FilterKey = Title | Category | Status | Progress | Sponsor | TypAktu | Kadencja

  datatype Filters = Filters(
    title: string,
    category: string,
    status: string,
    progress: string,
    sponsor: string,
    typAktu: string,
    kadencja: string)
  {
    function Get(k: FilterKey): string {
      match k
      case Title => title
      case Category => category
      case Status => status
      case Progress => progress
      case Sponsor => sponsor
      case TypAktu => typAktu
      case Kadencja => kadencja
    }

    /** `{ ...prev, [key]: value }`: the record with one field replaced. */
    function With(k: FilterKey, v: string): (r: Filters)
      ensures r.Get(k) == v
      ensures forall other :: other != k ==> r.Get(other) == Get(other)
    {
      match k
      case Title => this.(title := v)
      case Category => this.(category := v)
      case Status => this.(status := v)
      case Progress => this.(progress := v)
      case Sponsor => this.(sponsor := v)
      case TypAktu => this.(typAktu := v)
      case Kadencja => this.(kadencja := v)
    }

    /** `Object.values(filters)`, in declaration order. */
    function Values(): (vs: seq<string>)
      ensures |vs| == 7
      ensures forall k :: Get(k) in vs
    {
      [title, category, status, progress, sponsor, typAktu, kadencja]
    }
  }

  /** A filter value that selects something: neither empty nor the "all" sentinel. */
  predicate IsSet(v: string) {
    v != "" && v != "all"
  }

  /** `values.some(v => v !== "" && v !== "all")`, scanning left to right. */
  predicate AnySet(vs: seq<string>)
    decreases |vs|
  {
    |vs| > 0 && (IsSet(vs[0]) || AnySet(vs[1..]))
  }

  /** `hasActiveFilters`; the clear-filters button is rendered exactly when it holds. */
  predicate HasActiveFilters(f: Filters) {
    AnySet(f.Values())
  }

  /** `some` finds a set value exactly when one exists. */
  lemma {:induction false} AnySetIff(vs: seq<string>)
    ensures AnySet(vs) <==> exists i :: 0 <= i < |vs| && IsSet(vs[i])
    decreases |vs|
  {
    if |vs| > 0 {
      AnySetIff(vs[1..]);
      if !IsSet(vs[0]) && exists i :: 0 <= i < |vs| && IsSet(vs[i]) {
        var i :| 0 <= i < |vs| && IsSet(vs[i]);
        assert vs[1..][i - 1] == vs[i];
      }
    }
  }

  /** The panel counts a filter as active exactly when one of the seven fields is set. */
  lemma HasActiveFiltersIff(f: Filters)
    ensures HasActiveFilters(f) <==> exists k :: IsSet(f.Get(k))
  {
    AnySetIff(f.Values());
    if HasActiveFilters(f) {
      var i :| 0 <= i < 7 && IsSet(f.Values()[i]);
      var keys := [Title, Category, Status, Progress, Sponsor, TypAktu, Kadencja];
      assert f.Get(keys[i]) == f.Values()[i];
    }
  }

  /** The filters of the all-acts page when it opens and after reset. */
  const Initial: Filters := Filters("", "all", "", "", "", "", "")

  /** Nothing is active on the initial record, so no clear-filters button. */
  lemma InitialInactive()
    ensures !HasActiveFilters(Initial)
  {
    HasActiveFiltersIff(Initial);
  }

  /** Choosing only a legal-act type turns the panel's flag on. */
  lemma TypAktuAloneIsActive(v: string)
    requires IsSet(v)
    ensures HasActiveFilters(Initial.With(TypAktu, v))
  {
    HasActiveFiltersIff(Initial.With(TypAktu, v));
  }

  /** A title query of exactly "all" is not counted as active. */
  lemma TitleAllIsInactive()
    ensures !HasActiveFilters(Initial.With(Title, "all"))
  {
    HasActiveFiltersIff(Initial.With(Title, "all"));
  }
}

/**
 * The earlier revision of the all-acts page (law-road): the same filter record
 * and reset, the inline three-way plural, and no language switch.
 */
module LawRoadAllActsPage {
  import opened Text
  import opened Seqs
  import opened MockData
  import opened ActFilters
  import opened Plurals
  import AllActsPage

  /** The `filteredActs` callback of this revision, read as one conjunction:
      every field that is set must match, the title as a case-blind substring. */
  predicate Keeps(f: Filters, a: Act) {
    && (f.title == "" || Contains(Lower(a.title), Lower(f.title)))
    && (IsSet(f.category) ==> a.category == f.category)
    && (IsSet(f.status) ==> a.status == f.status)
    && (IsSet(f.progress) ==> a.progress == f.progress)
    && (IsSet(f.sponsor) ==> a.sponsor == f.sponsor)
    && (IsSet(f.kadencja) ==> a.kadencja == f.kadencja)
  }

  function FilteredActs(acts: seq<Act>, f: Filters): (r: seq<Act>)
    ensures IsSubsequence(r, acts)
  {
    FilterIsSubsequence(acts, a => Keeps(f, a));
    Filter(acts, a => Keeps(f, a))
  }

  /** The two revisions keep the same acts under every filter record. */
  lemma SameAsCurrentRevision(acts: seq<Act>, f: Filters)
    ensures FilteredActs(acts, f) == AllActsPage.FilteredActs(acts, f)
  {
    forall i | 0 <= i < |acts|
      ensures Keeps(f, acts[i]) == AllActsPage.Keeps(f, acts[i])
    {
      AllActsPage.KeepsIff(f, acts[i]);
    }
    FilterCongruent(acts, a => Keeps(f, a), a => AllActsPage.Keeps(f, a));
  }

  /** The opening and reset filters list every act in order. */
  lemma InitialKeepsAll(acts: seq<Act>)
    ensures FilteredActs(acts, Initial) == acts
  {
    SameAsCurrentRevision(acts, Initial);
    AllActsPage.InitialKeepsAll(acts);
  }

  /** The legal-act type is not read by the predicate. */
  lemma TypAktuIgnored(acts: seq<Act>, f: Filters, v: string)
    ensures FilteredActs(acts, f.With(TypAktu, v)) == FilteredActs(acts, f)
  {
    SameAsCurrentRevision(acts, f);
    SameAsCurrentRevision(acts, f.With(TypAktu, v));
    AllActsPage.TypAktuIgnored(acts, f, v);
  }

  /** The header noun after the count of listed acts. */
  function HeaderNoun(acts: seq<Act>, f: Filters): (w: string)
    ensures w == "akt" <==> |FilteredActs(acts, f)| == 1
    ensures w == "akty" <==> |FilteredActs(acts, f)| in {0, 2, 3, 4}
    ensures w == "aktów" <==> |FilteredActs(acts, f)| >= 5
  {
    ShortActsNoun(|FilteredActs(acts, f)|)
  }

  /** The page's state: its filter record, over the sample acts. */
  class Page {
    const acts: seq<Act>
    var filters: Filters

    /** `sampleActs` (`MockData.SampleActs`) is passed in as `source`. */
    constructor(source: seq<Act>)
      ensures acts == source && filters == Initial
    {
      acts := source;
      filters := Initial;
    }

    method HandleFilterChange(k: FilterKey, v: string)
      modifies this
      ensures filters == old(filters).With(k, v)
    {
      filters := filters.With(k, v);
    }

    /** `handleReset`: every act is listed again afterwards. */
    method HandleReset()
      modifies this
      ensures filters == Initial
      ensures FilteredActs(acts, filters) == acts
    {
      filters := Initial;
      InitialKeepsAll(acts);
    }
  }
}

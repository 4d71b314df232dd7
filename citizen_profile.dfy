/**
 * The citizen's profile page: the selected categories and followed projects,
 * each toggled by clicks, saved together as the user's subscriptions; and the
 * acts open for consultation, split into followed and available.
 */
module CitizenProfilePage {
  import opened Options
  import opened Seqs
  import opened MockData
  import Auth

  /** The page is shown only to a signed-in citizen. */
  predicate CanView(user: Option<Auth.User>) {
    user.Some? && user.value.role == Auth.Citizen
  }

  /** `toggleCategory` / `toggleProject`: a present id is removed, every copy
      of it; an absent one is appended. */
  function Toggle(selected: seq<string>, id: string): (r: seq<string>)
    ensures id in r <==> id !in selected
    ensures forall x :: x != id ==> (x in r <==> x in selected)
    ensures id !in selected ==> r == selected + [id]
  {
    if id in selected then
      forall x | true ensures x in Filter(selected, (y: string) => y != id) <==> x in selected && x != id {
        FilterMembership(selected, (y: string) => y != id, x);
      }
      Filter(selected, (y: string) => y != id)
    else
      selected + [id]
  }

  /** Toggling the same id twice restores what is selected (not the order or
      the copies). */
  lemma ToggleTwice(selected: seq<string>, id: string)
    ensures forall x :: x in Toggle(Toggle(selected, id), id) <==> x in selected
  {
  }

  /** `[...new Set([...selectedCategories, ...selectedProjects])]`. */
  function SavedSubscriptions(categories: seq<string>, projects: seq<string>): (saved: seq<string>)
    ensures Distinct(saved)
    ensures forall x :: x in saved <==> x in categories || x in projects
  {
    DedupSpec(categories + projects);
    Dedup(categories + projects)
  }

  /** The saved list holds every selected category and project once, the
      categories before the projects that are not also categories, each group
      in the order of first selection. */
  lemma SavedSubscriptionsSpec(categories: seq<string>, projects: seq<string>)
    ensures forall x :: x in SavedSubscriptions(categories, projects) <==> x in categories || x in projects
    ensures Distinct(SavedSubscriptions(categories, projects))
    ensures var r := SavedSubscriptions(categories, projects);
            forall i, j :: 0 <= i < |r| && 0 <= j < |r| && r[i] in categories && r[j] !in categories ==> i < j
  {
    var all := categories + projects;
    DedupSpec(all);
    var r := Dedup(all);
    forall i, j | 0 <= i < |r| && 0 <= j < |r| && r[i] in categories && r[j] !in categories
      ensures i < j
    {
      FirstIndexPrefix(categories, projects, r[i]);
      var k := FirstIndex(all, r[j]);
      assert all[..|categories|] == categories;
    }
  }

  /** `consultationActs`: the acts under way with an open consultation. */
  function ConsultationActs(acts: seq<Act>): (r: seq<Act>)
    ensures IsSubsequence(r, acts)
    ensures forall a :: a in r <==> a in acts && a.hasConsultation && a.status == "procedowany"
  {
    var keep := (a: Act) => a.hasConsultation && a.status == "procedowany";
    FilterIsSubsequence(acts, keep);
    forall x | true ensures x in Filter(acts, keep) <==> x in acts && keep(x) {
      FilterMembership(acts, keep, x);
    }
    Filter(acts, keep)
  }

  /** The followed consultation acts. */
  function Tracked(consultation: seq<Act>, selected: seq<string>): (r: seq<Act>)
    ensures IsSubsequence(r, consultation)
    ensures forall a :: a in r <==> a in consultation && a.id in selected
  {
    var keep := (a: Act) => a.id in selected;
    FilterIsSubsequence(consultation, keep);
    forall x | true ensures x in Filter(consultation, keep) <==> x in consultation && keep(x) {
      FilterMembership(consultation, keep, x);
    }
    Filter(consultation, keep)
  }

  /** The consultation acts still offered for following. */
  function Available(consultation: seq<Act>, selected: seq<string>): (r: seq<Act>)
    ensures IsSubsequence(r, consultation)
    ensures forall a :: a in r <==> a in consultation && a.id !in selected
  {
    var keep := (a: Act) => a.id !in selected;
    FilterIsSubsequence(consultation, keep);
    forall x | true ensures x in Filter(consultation, keep) <==> x in consultation && keep(x) {
      FilterMembership(consultation, keep, x);
    }
    Filter(consultation, keep)
  }

  /** Followed and available split the consultation acts between them. */
  lemma TrackedAvailablePartition(consultation: seq<Act>, selected: seq<string>)
    ensures multiset(Tracked(consultation, selected)) + multiset(Available(consultation, selected)) == multiset(consultation)
    ensures forall a :: a in Tracked(consultation, selected) ==> a.id in selected
    ensures forall a :: a in Available(consultation, selected) ==> a.id !in selected
  {
    FilterPartition(consultation, (a: Act) => a.id in selected, (a: Act) => a.id !in selected);
  }

  class ProfilePage {
    var selectedCategories: seq<string>
    var selectedProjects: seq<string>

    /** Both selections start from the signed-in user's subscriptions. */
    constructor(user: Option<Auth.User>)
      ensures user.Some? ==> selectedCategories == user.value.subscriptions
      ensures user.None? ==> selectedCategories == []
      ensures selectedProjects == selectedCategories
    {
      var start := if user.Some? then user.value.subscriptions else [];
      selectedCategories := start;
      selectedProjects := start;
    }

    method ToggleCategory(id: string)
      modifies this
      ensures selectedCategories == Toggle(old(selectedCategories), id)
      ensures selectedProjects == old(selectedProjects)
    {
      selectedCategories := Toggle(selectedCategories, id);
    }

    method ToggleProject(id: string)
      modifies this
      ensures selectedProjects == Toggle(old(selectedProjects), id)
      ensures selectedCategories == old(selectedCategories)
    {
      selectedProjects := Toggle(selectedProjects, id);
    }

    /** `handleSaveSubscriptions`: hands the union to the auth context. */
    method Save(auth: Auth.AuthContext)
      modifies auth
      ensures old(auth.user).Some? ==>
                auth.user == Some(old(auth.user).value.(subscriptions := SavedSubscriptions(selectedCategories, selectedProjects)))
      ensures old(auth.user).None? ==> auth.user == None
    {
      auth.UpdateSubscriptions(Dedup(selectedCategories + selectedProjects));
    }
  }
}

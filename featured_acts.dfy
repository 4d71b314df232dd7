/**
 * The "newest acts" section of the home page: the four most recently submitted
 * acts of the back end's list, or the first four sample acts when the list
 * cannot be had.
 */
module FeaturedActsSection {
  import opened Options
  import opened Seqs
  import opened MockData

  /** Newest first: submission dates never increase along `s`. */
  predicate NewestFirst(s: seq<Act>) {
    forall i, j :: 0 <= i < j < |s| ==> s[i].dateSubmitted >= s[j].dateSubmitted
  }

  /** `data.sort((a, b) => date(b) - date(a))`, which sorts the fetched array in
      place, newest first (an insertion sort). */
  method SortNewestFirst(a: array<Act>)
    modifies a
    ensures NewestFirst(a[..])
    ensures multiset(a[..]) == multiset(old(a[..]))
  {
    if a.Length == 0 {
      return;
    }
    var i := 1;
    while i < a.Length
      invariant 1 <= i <= a.Length
      invariant NewestFirst(a[..i])
      invariant multiset(a[..]) == multiset(old(a[..]))
    {
      InsertNewest(a, i);
      i := i + 1;
    }
    assert a[..i] == a[..];
  }

  /** Newest first on `s[..n + 1]`, except possibly around position `j`. */
  predicate NewestFirstExcept(s: seq<Act>, n: nat, j: nat)
    requires n < |s|
  {
    forall k, l :: 0 <= k < l <= n && l != j ==> s[k].dateSubmitted >= s[l].dateSubmitted
  }

  /** Moves `a[i]` down into the newest-first prefix `a[..i]`. */
  method InsertNewest(a: array<Act>, i: nat)
    requires i < a.Length && NewestFirst(a[..i])
    modifies a
    ensures NewestFirst(a[..i + 1])
    ensures multiset(a[..]) == multiset(old(a[..]))
  {
    var j := i;
    while j > 0 && a[j - 1].dateSubmitted < a[j].dateSubmitted
      invariant 0 <= j <= i
      invariant multiset(a[..]) == multiset(old(a[..]))
      invariant NewestFirstExcept(a[..], i, j)
      invariant 0 < j < i ==> a[j - 1].dateSubmitted >= a[j + 1].dateSubmitted
    {
      ghost var before := a[..];
      Swap(a, j);
      SwapKeepsOrder(before, a[..], i, j);
      j := j - 1;
    }
    InsertDone(a[..], i, j);
  }

  /** One exchange of the insertion moves the gap in the order one place down. */
  lemma SwapKeepsOrder(s: seq<Act>, t: seq<Act>, i: nat, j: nat)
    requires 0 < j <= i < |s| == |t|
    requires NewestFirstExcept(s, i, j)
    requires s[j - 1].dateSubmitted < s[j].dateSubmitted
    requires j < i ==> s[j - 1].dateSubmitted >= s[j + 1].dateSubmitted
    requires t[j - 1] == s[j] && t[j] == s[j - 1]
    requires forall k :: 0 <= k < |s| && k != j - 1 && k != j ==> t[k] == s[k]
    ensures NewestFirstExcept(t, i, j - 1)
    ensures 0 < j - 1 < i ==> t[j - 2].dateSubmitted >= t[j].dateSubmitted
  {
    forall k, l | 0 <= k < l <= i && l != j - 1
      ensures t[k].dateSubmitted >= t[l].dateSubmitted
    {
      if k == j - 1 {
        assert t[k] == s[j];
        if l > j { assert t[l] == s[l]; assert s[j].dateSubmitted >= s[l].dateSubmitted; }
      } else if k == j {
        assert t[k] == s[j - 1] && t[l] == s[l];
      } else if l == j {
        assert t[k] == s[k] && t[l] == s[j - 1];
        if k < j - 1 { assert s[k].dateSubmitted >= s[j - 1].dateSubmitted; }
      } else {
        assert t[k] == s[k] && t[l] == s[l];
      }
    }
    if 0 < j - 1 < i {
      assert t[j - 2] == s[j - 2] && t[j] == s[j - 1];
    }
  }

  /** When the insertion stops, the prefix up to `i` is newest first. */
  lemma InsertDone(s: seq<Act>, i: nat, j: nat)
    requires j <= i < |s|
    requires NewestFirstExcept(s, i, j)
    requires j > 0 ==> s[j - 1].dateSubmitted >= s[j].dateSubmitted
    requires 0 < j < i ==> s[j - 1].dateSubmitted >= s[j + 1].dateSubmitted
    ensures NewestFirst(s[..i + 1])
  {
    forall k, l | 0 <= k < l <= i
      ensures s[k].dateSubmitted >= s[l].dateSubmitted
    {
      if l == j && k < j - 1 {
        assert s[k].dateSubmitted >= s[j - 1].dateSubmitted;
      }
    }
  }

  /** Exchanges `a[j - 1]` and `a[j]`. */
  method Swap(a: array<Act>, j: nat)
    requires 0 < j < a.Length
    modifies a
    ensures a[j - 1] == old(a[j]) && a[j] == old(a[j - 1])
    ensures forall k :: 0 <= k < a.Length && k != j - 1 && k != j ==> a[k] == old(a[k])
    ensures multiset(a[..]) == multiset(old(a[..]))
  {
    a[j - 1], a[j] := a[j], a[j - 1];
  }

  /** The first four of a newest-first arrangement of `data` are the newest:
      no act left out was submitted later than one kept. */
  lemma {:induction false} PrefixIsNewest(sorted: seq<Act>, k: nat)
    requires NewestFirst(sorted) && k <= |sorted|
    ensures forall x, y :: x in multiset(sorted[k..]) && y in sorted[..k] ==>
              y.dateSubmitted >= x.dateSubmitted
  {
    forall x, y | x in multiset(sorted[k..]) && y in sorted[..k]
      ensures y.dateSubmitted >= x.dateSubmitted
    {
      assert x in sorted[k..];
      var i :| 0 <= i < k && sorted[..k][i] == y;
      var j :| 0 <= j < |sorted[k..]| && sorted[k..][j] == x;
      assert sorted[i] == y && sorted[k + j] == x;
    }
  }

  /** Taking the first `k` of a newest-first arrangement of `data` keeps `k`
      acts of `data`, newest first, none older than an act left out. */
  lemma FirstFourAreNewest(data: seq<Act>, sorted: seq<Act>, k: nat)
    requires multiset(sorted) == multiset(data) && NewestFirst(sorted) && k <= |sorted|
    ensures |sorted[..k]| == k && NewestFirst(sorted[..k])
    ensures multiset(sorted[..k]) <= multiset(data)
    ensures forall x, y :: x in multiset(data) - multiset(sorted[..k]) && y in sorted[..k] ==>
              y.dateSubmitted >= x.dateSubmitted
  {
    assert sorted == sorted[..k] + sorted[k..];
    assert multiset(sorted) == multiset(sorted[..k]) + multiset(sorted[k..]);
    assert multiset(data) - multiset(sorted[..k]) == multiset(sorted[k..]);
    PrefixIsNewest(sorted, k);
  }

  /** The request for the act list: an ok response with its decoded body
      (`None` when the body is not an array), a non-ok response, or a
      rejected request. */
  datatype ListResponse = Ok(data: Option<seq<Act>>) | NotOk | Rejected

  /** `formatDate`: "-" for a missing or empty date; otherwise the rendered
      date, or the string itself when rendering fails (`render` returns `None`). */
  function FormatDate(date: Option<string>, render: string -> Option<string>): (shown: string)
    ensures date.None? || date.value == "" ==> shown == "-"
    ensures date.Some? && date.value != "" && render(date.value).None? ==> shown == date.value
    ensures date.Some? && date.value != "" && render(date.value).Some? ==> shown == render(date.value).value
  {
    if date.None? || date.value == "" then "-"
    else match render(date.value)
      case Some(text) => text
      case None => date.value
  }

  class Section {
    const fallback: seq<Act>
    var acts: seq<Act>
    var loading: bool

    /** `sampleActs` is passed in as `source`; the section opens on its first four. */
    constructor(source: seq<Act>)
      ensures fallback == source && acts == Take(source, 4) && loading
    {
      fallback := source;
      acts := Take(source, 4);
      loading := true;
    }

    /** The effect for one response: the newest four of an array body, else
        the first four sample acts; loading ends in every case. */
    method Fetch(response: ListResponse)
      modifies this
      ensures !loading && |acts| <= 4
      ensures response.Ok? && response.data.Some? ==>
                var data := response.data.value;
                && |acts| == (if |data| < 4 then |data| else 4)
                && NewestFirst(acts)
                && multiset(acts) <= multiset(data)
                && (forall x, y :: x in multiset(data) - multiset(acts) && y in acts ==>
                      y.dateSubmitted >= x.dateSubmitted)
      ensures !(response.Ok? && response.data.Some?) ==> acts == Take(fallback, 4)
    {
      if response.Ok? && response.data.Some? {
        var data := response.data.value;
        var buffer := new Act[|data|](i requires 0 <= i < |data| => data[i]);
        assert buffer[..] == data;
        SortNewestFirst(buffer);
        var sorted := buffer[..];
        var k := if |sorted| < 4 then |sorted| else 4;
        acts := sorted[..k];
        FirstFourAreNewest(data, sorted, k);
      } else {
        acts := Take(fallback, 4);
      }
      loading := false;
    }
  }
}

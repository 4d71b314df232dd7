/**
 * The act detail page: the act is requested from the back end and, when the
 * request fails, looked up among the sample acts; the sidebar shows a compact
 * run of the first stages.
 */
module ActDetailPage {
  import opened Options
  import opened Seqs
  import opened MockData

  /** The outcome of the request for the act: an ok response carrying the
      decoded body (`None` for a null body), a non-ok response, or a rejected
      request. The request itself is left out. */
  datatype Response = Ok(data: Option<Act>) | NotOk | Rejected

  /** `sampleActs.find((a) => a.id === actId) || null`. */
  function SampleById(acts: seq<Act>, id: string): (r: Option<Act>)
    ensures r.None? <==> forall a :: a in acts ==> a.id != id
    ensures r.Some? ==> r.value in acts && r.value.id == id
  {
    Find(acts, (a: Act) => a.id == id)
  }

  /** `!actId` is false: the route carries a non-empty id. */
  predicate HasId(route: Option<string>) {
    route.Some? && route.value != ""
  }

  /** The act the page settles on for a response. */
  function Settle(acts: seq<Act>, id: string, response: Response): (act: Option<Act>)
    ensures response.Ok? ==> act == response.data
    ensures !response.Ok? ==> act == SampleById(acts, id)
  {
    match response
    case Ok(data) => data
    case NotOk => SampleById(acts, id)
    case Rejected => SampleById(acts, id)
  }

  /** A failed request, whether answered or rejected, shows the sample act of
      that id exactly when one exists. */
  lemma FallbackFindsSample(acts: seq<Act>, id: string, response: Response)
    requires !response.Ok?
    ensures Settle(acts, id, response).Some? <==> exists a :: a in acts && a.id == id
    ensures Settle(acts, id, response).Some? ==> Settle(acts, id, response).value.id == id
  {
  }

  /** `act.stages.slice(0, 6)`: the sidebar's stages, the first six in order. */
  function CompactStages(stages: seq<Stage>): (shown: seq<Stage>)
    ensures |shown| == if |stages| < 6 then |stages| else 6
    ensures IsSubsequence(shown, stages)
    ensures forall i :: 0 <= i < |shown| ==> shown[i] == stages[i]
  {
    TakeIsSubsequence(stages, 6);
    Take(stages, 6)
  }

  /** "+k więcej etapów": shown exactly when there are more than six stages,
      counting the ones left out of the sidebar. */
  function MoreStages(stages: seq<Stage>): (k: Option<nat>)
    ensures k.Some? <==> |stages| > 6
    ensures k.Some? ==> |CompactStages(stages)| + k.value == |stages| && k.value > 0
  {
    if |stages| > 6 then Some(|stages| - 6) else None
  }

  /** The tabs of the page, in order. */
  function Tabs(a: Act): (tabs: seq<string>)
    ensures "comments" in tabs <==> a.hasConsultation
    ensures |tabs| >= 3 && tabs[..3] == ["summary", "timeline", "versions"]
    ensures |tabs| == 3 + (if a.hasConsultation then 1 else 0)
  {
    ["summary", "timeline", "versions"] + (if a.hasConsultation then ["comments"] else [])
  }

  /** What the page renders. */
  datatype View = Loading | NotFound | Shown(act: Act)

  class Page {
    const acts: seq<Act>
    const actId: Option<string>
    var act: Option<Act>
    var loading: bool
    var subscribed: bool

    /** `sampleActs` is passed in as `source`; the route gives `actId`. */
    constructor(source: seq<Act>, route: Option<string>)
      ensures acts == source && actId == route
      ensures act == None && loading && !subscribed
    {
      acts := source;
      actId := route;
      act := None;
      loading := true;
      subscribed := false;
    }

    function CurrentView(): View
      reads this
    {
      if loading then Loading else if act.None? then NotFound else Shown(act.value)
    }

    /** The effect for one response. Without an id no request is made, so
        `loading` is never cleared and the page keeps loading; otherwise the
        act is settled and loading ends whatever the outcome. */
    method Fetch(response: Response)
      modifies this
      ensures !HasId(actId) ==> act == old(act) && loading == old(loading)
      ensures HasId(actId) ==> act == Settle(acts, actId.value, response) && !loading
      ensures subscribed == old(subscribed)
    {
      if actId.None? || actId.value == "" {
        return;
      }
      act := Settle(acts, actId.value, response);
      loading := false;
    }

    /** `handleSubscribe`: flips the flag; the notice says which way. */
    method HandleSubscribe() returns (nowSubscribed: bool)
      modifies this
      ensures subscribed == !old(subscribed) && nowSubscribed == subscribed
      ensures act == old(act) && loading == old(loading)
    {
      subscribed := !subscribed;
      nowSubscribed := subscribed;
    }
  }

  /** Opening the page without an id and running the effect leaves it loading. */
  method NoIdKeepsLoading(source: seq<Act>, response: Response) returns (view: View)
    ensures view == Loading
  {
    var page := new Page(source, None);
    page.Fetch(response);
    view := page.CurrentView();
  }

  /** Two subscribe clicks restore the flag. */
  method SubscribeTwice(page: Page) returns (nowSubscribed: bool)
    modifies page
    ensures page.subscribed == old(page.subscribed) && nowSubscribed == page.subscribed
  {
    nowSubscribed := page.HandleSubscribe();
    nowSubscribed := page.HandleSubscribe();
  }
}

/**
 * The act card of the list pages: its current stage, its status and progress
 * badges, its first three tags, and the subscribe button with its email dialog.
 */
module ActCard {
  import opened Options
  import opened Seqs
  import opened MockData
  import CategoryCard

  /** `Array.isArray(act.stages) ? act.stages : []`; a missing or malformed list
      is `None`. */
  function SafeStages(raw: Option<seq<Stage>>): (stages: seq<Stage>)
    ensures raw.None? ==> stages == []
    ensures raw.Some? ==> stages == raw.value
  {
    raw.GetOr([])
  }

  /** `stages.find((s) => s.status === "in_progress")`. */
  function FindInProgress(stages: seq<Stage>): (r: Option<nat>)
    ensures r.None? <==> forall i :: 0 <= i < |stages| ==> stages[i].status != "in_progress"
    ensures r.Some? ==> r.value < |stages| && stages[r.value].status == "in_progress"
    ensures r.Some? ==> forall i :: 0 <= i < r.value ==> stages[i].status != "in_progress"
  {
    if stages == [] then None
    else if stages[0].status == "in_progress" then Some(0)
    else
      var r := FindInProgress(stages[1..]);
      if r.None? then None else Some(r.value + 1)
  }

  /** `find(in_progress) || stages[stages.length - 1]`: the first stage in
      progress, else the last stage whatever its status, else nothing. */
  function CurrentStage(stages: seq<Stage>): (current: Option<Stage>)
    ensures current.None? <==> stages == []
    ensures current.Some? ==> current.value in stages
    ensures current.Some? && current.value.status != "in_progress" ==>
              current.value == stages[|stages| - 1]
              && forall i :: 0 <= i < |stages| ==> stages[i].status != "in_progress"
  {
    match FindInProgress(stages)
    case Some(i) => Some(stages[i])
    case None => if stages == [] then None else Some(stages[|stages| - 1])
  }

  /** When some stage is in progress, the first such stage is the current one. */
  lemma CurrentIsFirstInProgress(stages: seq<Stage>, k: nat)
    requires k < |stages| && stages[k].status == "in_progress"
    requires forall i :: 0 <= i < k ==> stages[i].status != "in_progress"
    ensures CurrentStage(stages) == Some(stages[k])
  {
    var r := FindInProgress(stages);
    assert r.Some? && stages[r.value].status == "in_progress";
    assert r.value == k;
  }

  /** With no stage in progress the last stage is shown, done or pending; only
      an empty list shows no current stage. */
  lemma CurrentFallsBackToLast(stages: seq<Stage>)
    requires forall i :: 0 <= i < |stages| ==> stages[i].status != "in_progress"
    ensures stages == [] ==> CurrentStage(stages) == None
    ensures stages != [] ==> CurrentStage(stages) == Some(stages[|stages| - 1])
  {
  }

  /** The current stage is always one of the stages, and is missing only for an
      empty list. */
  lemma CurrentStageIsAStage(stages: seq<Stage>)
    ensures CurrentStage(stages).None? <==> stages == []
    ensures CurrentStage(stages).Some? ==> CurrentStage(stages).value in stages
  {
  }

  /** On a stage list shaped done* [in_progress] pending*, the current stage is
      the stage in progress if there is one, else the last done stage when no
      stage is pending, else the last (pending) stage. */
  lemma CurrentOfShapedStages(stages: seq<Stage>, d: int, p: int)
    requires ShapedAt(stages, d, p) && stages != []
    ensures d < p ==> CurrentStage(stages) == Some(stages[d])
    ensures d == p ==> CurrentStage(stages) == Some(stages[|stages| - 1])
  {
    if d < p {
      CurrentIsFirstInProgress(stages, d);
    } else {
      CurrentFallsBackToLast(stages);
    }
  }

  /** The statuses `statusMap` declares. */
  const KnownStatuses: set<string> := {"planowany", "procedowany", "uchwalony", "odrzucony", "wycofany"}

  /** A drawn status badge: the label of a declared status, or a badge with no
      label and no class, drawn when `statusMap[status]` finds a member that
      every object inherits from `Object.prototype`. */
  datatype StatusBadgeShown = Labelled(caption: string) | Blank

  /** `getStatusBadge`: `statusMap[status]`, drawn when it is truthy. A declared
      status gets its label; an inherited key such as "toString" is truthy too
      and gets a blank badge; any other status gets none. */
  function StatusBadge(status: string): (badge: Option<StatusBadgeShown>)
    ensures badge.Some? <==> status in KnownStatuses || status in CategoryCard.InheritedKeys
    ensures badge.Some? && badge.value.Labelled? <==> status in KnownStatuses
    ensures badge == Some(Blank) <==> status !in KnownStatuses && status in CategoryCard.InheritedKeys
  {
    if status == "planowany" then Some(Labelled("Planowany"))
    else if status == "procedowany" then Some(Labelled("Procedowany"))
    else if status == "uchwalony" then Some(Labelled("Uchwalony"))
    else if status == "odrzucony" then Some(Labelled("Odrzucony"))
    else if status == "wycofany" then Some(Labelled("Wycofany"))
    else if status in CategoryCard.InheritedKeys then Some(Blank)
    else None
  }

  /** An act whose status is "toString" or "constructor" is not one of the
      declared statuses, yet its card draws a (blank) badge. */
  lemma InheritedStatusDrawsBlank()
    ensures "toString" !in KnownStatuses && StatusBadge("toString") == Some(Blank)
    ensures "constructor" !in KnownStatuses && StatusBadge("constructor") == Some(Blank)
  {
  }

  /** `getProgressBadge`: the label of the badge, for the three progress tags. */
  function ProgressBadge(progress: string): (badge: Option<string>)
    ensures badge.Some? <==> progress in {"przyjety", "w_toku", "archiwalny"}
  {
    if progress == "przyjety" then Some("Przyjęty")
    else if progress == "w_toku" then Some("W toku")
    else if progress == "archiwalny" then Some("Archiwalny")
    else None
  }

  /** The badges agree with the filter panel's option lists: every status and
      progress option gets a badge reading exactly the option's caption. */
  lemma BadgesMatchFilterOptions()
    ensures forall o :: o in StatusOptions ==> StatusBadge(o.value) == Some(Labelled(o.caption))
    ensures forall o :: o in ProgressOptions ==> ProgressBadge(o.value) == Some(o.caption)
  {
  }

  /** `tag.replace(/_/g, " ")`. */
  function DisplayTag(tag: string): (shown: string)
    ensures |shown| == |tag|
    ensures forall i :: 0 <= i < |tag| ==> shown[i] == (if tag[i] == '_' then ' ' else tag[i])
  {
    if tag == [] then [] else [if tag[0] == '_' then ' ' else tag[0]] + DisplayTag(tag[1..])
  }

  /** A displayed tag has no underscore left, and a tag without one is shown as is. */
  lemma DisplayTagFacts(tag: string)
    ensures '_' !in DisplayTag(tag)
    ensures '_' !in tag ==> DisplayTag(tag) == tag
  {
    var shown := DisplayTag(tag);
    forall i | 0 <= i < |shown| ensures shown[i] != '_' {
    }
  }

  /** The tags written on the card: the first three, underscores as spaces. */
  function ShownTags(raw: Option<seq<string>>): (shown: seq<string>)
    ensures raw.None? ==> shown == []
    ensures raw.Some? ==> |shown| == if |raw.value| < 3 then |raw.value| else 3
    ensures raw.Some? ==> forall i :: 0 <= i < |shown| ==> shown[i] == DisplayTag(raw.value[i])
  {
    match raw
    case None => []
    case Some(tags) =>
      var first := Take(tags, 3);
      seq(|first|, i requires 0 <= i < |first| => DisplayTag(first[i]))
  }

  /** The "+k" marker: present exactly when there are more than three tags,
      and then counting the ones not shown. */
  function MoreTags(raw: Option<seq<string>>): (k: Option<nat>)
    ensures k.Some? <==> raw.Some? && |raw.value| > 3
    ensures k.Some? ==> |ShownTags(raw)| + k.value == |raw.value|
  {
    if raw.Some? && |raw.value| > 3 then Some(|raw.value| - 3) else None
  }

  /** The card's own state. */
  class Card {
    const act: Act
    var subscribed: bool
    var dialogOpen: bool

    constructor(a: Act)
      ensures act == a && !subscribed && !dialogOpen
    {
      act := a;
      subscribed := false;
      dialogOpen := false;
    }

    /** `handleSubscribe`: when not subscribed, open the email dialog and stay
        unsubscribed; when subscribed, unsubscribe at once with a notice. */
    method HandleSubscribe() returns (unsubscribeNotice: bool)
      modifies this
      ensures unsubscribeNotice == old(subscribed)
      ensures !old(subscribed) ==> dialogOpen && !subscribed
      ensures old(subscribed) ==> !subscribed && dialogOpen == old(dialogOpen)
    {
      if !subscribed {
        dialogOpen := true;
        unsubscribeNotice := false;
      } else {
        subscribed := false;
        unsubscribeNotice := true;
      }
    }

    /** `handleEmailSubscribe`: the dialog's accepted email subscribes the card. */
    method HandleEmailSubscribe(email: string)
      modifies this
      ensures subscribed && dialogOpen == old(dialogOpen)
    {
      subscribed := true;
    }

    /** The dialog's `onOpenChange`. */
    method SetDialogOpen(open: bool)
      modifies this
      ensures dialogOpen == open && subscribed == old(subscribed)
    {
      dialogOpen := open;
    }
  }
}

/**
 * The consultation comments of an act: citizens post opinions while the
 * consultation is open, officers and admins approve or delete them, and each
 * viewer sees the approved comments the visibility rule lets through.
 */
module ActComments {
  import opened Options
  import opened Text
  import opened Seqs
  import Auth

  datatype Comment = Comment(
    id: string,
    author: string,
    authorEmail: string,
    authorRole: Auth.Role,
    content: string,
    createdAt: string,
    approved: bool)

  /** The two approved comments the component opens with. */
  const InitialComments: seq<Comment> := [
    Comment("c1", "Anna Kowalska", "anna@example.com", Auth.Citizen,
      "Uważam, że projekt powinien zawierać więcej zapisów o ochronie konsumentów.",
      "2025-06-01T10:30:00", true),
    Comment("c2", "Piotr Nowak", "piotr@example.com", Auth.Citizen,
      "Zgadzam się z poprzednią opinią. Oprócz tego sugeruję weryfikację procedur.",
      "2025-06-02T14:15:00", true)
  ]

  /** `isConsultationActive`: an end date (`None` when undefined or empty) that
      lies after `now`; the start date plays no part. */
  predicate IsConsultationActive(hasConsultation: bool, consultationEnd: Option<int>, now: int) {
    hasConsultation && consultationEnd.Some? && consultationEnd.value > now
  }

  /** The viewer is signed in as a citizen. */
  predicate IsCitizen(viewer: Option<Auth.User>) {
    viewer.Some? && viewer.value.role == Auth.Citizen
  }

  /** The viewer is signed in as an officer or an admin. */
  predicate IsModerator(viewer: Option<Auth.User>) {
    viewer.Some? && (viewer.value.role == Auth.Officer || viewer.value.role == Auth.Admin)
  }

  /** What `handleAddComment` does with the draft. */
  datatype AddOutcome = NotCitizen | Blank | Closed | Added

  /** The checks of `handleAddComment`, in their order: the author, then the
      draft, then the consultation window. */
  function AddVerdict(viewer: Option<Auth.User>, draft: string, active: bool): (r: AddOutcome)
    ensures r == NotCitizen <==> !IsCitizen(viewer)
    ensures r == Blank <==> IsCitizen(viewer) && Trim(draft) == ""
    ensures r == Closed <==> IsCitizen(viewer) && Trim(draft) != "" && !active
    ensures r == Added <==> IsCitizen(viewer) && Trim(draft) != "" && active
  {
    if !IsCitizen(viewer) then NotCitizen
    else if Trim(draft) == "" then Blank
    else if !active then Closed
    else Added
  }

  /** The comment built for an accepted draft: unapproved, by a citizen, with
      the author's name and email; the content is the draft as typed. */
  function NewComment(author: Auth.User, draft: string, newId: string, createdAt: string): (c: Comment)
    ensures !c.approved && c.authorRole == Auth.Citizen
    ensures c.author == author.name && c.authorEmail == author.email && c.content == draft
  {
    Comment(newId, author.name, author.email, Auth.Citizen, draft, createdAt, false)
  }

  /** `handleApproveComment`: the comments with that id become approved. */
  function Approve(comments: seq<Comment>, id: string): (r: seq<Comment>)
    ensures |r| == |comments|
    ensures forall i :: 0 <= i < |r| && comments[i].id == id ==> r[i] == comments[i].(approved := true)
    ensures forall i :: 0 <= i < |r| && comments[i].id != id ==> r[i] == comments[i]
  {
    seq(|comments|, i requires 0 <= i < |comments| =>
      if comments[i].id == id then comments[i].(approved := true) else comments[i])
  }

  /** Approving twice is approving once. */
  lemma ApproveIdempotent(comments: seq<Comment>, id: string)
    ensures Approve(Approve(comments, id), id) == Approve(comments, id)
  {
  }

  /** `handleDeleteComment`: drops the comments with that id, keeping the
      order of the rest. */
  function Delete(comments: seq<Comment>, id: string): (r: seq<Comment>)
    ensures IsSubsequence(r, comments)
    ensures forall c :: c in r <==> c in comments && c.id != id
  {
    FilterIsSubsequence(comments, (c: Comment) => c.id != id);
    forall c | true
      ensures c in Filter(comments, (x: Comment) => x.id != id) <==> c in comments && c.id != id
    {
      FilterMembership(comments, (x: Comment) => x.id != id, c);
    }
    Filter(comments, (c: Comment) => c.id != id)
  }

  /** `comments.filter((c) => c.approved)`: the approved comments, in order. */
  function ApprovedComments(comments: seq<Comment>): (r: seq<Comment>)
    ensures IsSubsequence(r, comments)
    ensures forall c :: c in r <==> c in comments && c.approved
  {
    FilterIsSubsequence(comments, (c: Comment) => c.approved);
    forall c | true ensures c in Filter(comments, (x: Comment) => x.approved) <==> c in comments && c.approved {
      FilterMembership(comments, (x: Comment) => x.approved, c);
    }
    Filter(comments, (c: Comment) => c.approved)
  }

  /** `comments.filter((c) => !c.approved)`: the comments awaiting moderation, in order. */
  function PendingComments(comments: seq<Comment>): (r: seq<Comment>)
    ensures IsSubsequence(r, comments)
    ensures forall c :: c in r <==> c in comments && !c.approved
  {
    FilterIsSubsequence(comments, (c: Comment) => !c.approved);
    forall c | true ensures c in Filter(comments, (x: Comment) => !x.approved) <==> c in comments && !c.approved {
      FilterMembership(comments, (x: Comment) => !x.approved, c);
    }
    Filter(comments, (c: Comment) => !c.approved)
  }

  /** Approved and pending split the comments: every comment is in exactly
      one of the two, and together they hold all of them. */
  lemma ApprovedPendingPartition(comments: seq<Comment>)
    ensures multiset(ApprovedComments(comments)) + multiset(PendingComments(comments)) == multiset(comments)
    ensures |ApprovedComments(comments)| + |PendingComments(comments)| == |comments|
  {
    FilterPartition(comments, (c: Comment) => c.approved, (c: Comment) => !c.approved);
  }

  /** After approving an id no comment with that id is still pending. */
  lemma ApprovedLeavesPending(comments: seq<Comment>, id: string)
    ensures forall c :: c in PendingComments(Approve(comments, id)) ==> c.id != id
  {
    var r := Approve(comments, id);
    forall c | c in PendingComments(r) ensures c.id != id {
      FilterMembership(r, (x: Comment) => !x.approved, c);
      var i :| 0 <= i < |r| && r[i] == c;
    }
  }

  /** The visibility rule on an approved comment: a citizen sees only their own
      comments, everybody else sees all of them. */
  predicate ShownTo(viewer: Option<Auth.User>, c: Comment) {
    IsCitizen(viewer) ==> c.authorEmail == viewer.value.email
  }

  /** The list rendered under "Komentarze": approved comments, narrowed to the
      viewer's own for a citizen. */
  function VisibleComments(viewer: Option<Auth.User>, comments: seq<Comment>): (r: seq<Comment>)
    ensures IsSubsequence(r, comments)
    ensures forall c :: c in r ==> c in comments && c.approved
  {
    var approved := ApprovedComments(comments);
    FilterIsSubsequence(approved, (c: Comment) => ShownTo(viewer, c));
    SubsequenceTransitive(Filter(approved, (c: Comment) => ShownTo(viewer, c)), approved, comments);
    Filter(approved, (c: Comment) => ShownTo(viewer, c))
  }

  /** A comment is listed exactly when it is approved and, for a citizen
      viewer, written under the viewer's email. */
  lemma VisibleMembership(viewer: Option<Auth.User>, comments: seq<Comment>, c: Comment)
    ensures c in VisibleComments(viewer, comments) <==>
              c in comments && c.approved && (IsCitizen(viewer) ==> c.authorEmail == viewer.value.email)
  {
    FilterMembership(ApprovedComments(comments), (x: Comment) => ShownTo(viewer, x), c);
    FilterMembership(comments, (x: Comment) => x.approved, c);
  }

  /** Officers, admins and anonymous visitors see every approved comment, in order. */
  lemma OthersSeeAllApproved(viewer: Option<Auth.User>, comments: seq<Comment>)
    requires !IsCitizen(viewer)
    ensures VisibleComments(viewer, comments) == ApprovedComments(comments)
  {
    FilterKeepsAll(ApprovedComments(comments), (c: Comment) => ShownTo(viewer, c));
  }

  /** The moderation list is rendered only for an officer or an admin with
      something pending. */
  predicate ShowsPendingList(viewer: Option<Auth.User>, comments: seq<Comment>) {
    IsModerator(viewer) && |PendingComments(comments)| > 0
  }

  /** The add form is rendered only for a citizen during the consultation. */
  predicate ShowsAddForm(viewer: Option<Auth.User>, active: bool) {
    IsCitizen(viewer) && active
  }

  /** With every comment approved, nobody gets the moderation list. */
  lemma NoPendingNoList(viewer: Option<Auth.User>, comments: seq<Comment>)
    requires forall i :: 0 <= i < |comments| ==> comments[i].approved
    ensures !ShowsPendingList(viewer, comments)
  {
    FilterDropsAll(comments, (c: Comment) => !c.approved);
  }

  class CommentsPanel {
    const hasConsultation: bool
    const consultationEnd: Option<int>
    var comments: seq<Comment>
    var newComment: string
    var loading: bool

    constructor(consultation: bool, end: Option<int>)
      ensures hasConsultation == consultation && consultationEnd == end
      ensures comments == InitialComments && newComment == "" && !loading
    {
      hasConsultation := consultation;
      consultationEnd := end;
      comments := InitialComments;
      newComment := "";
      loading := false;
    }

    /** The text area's `onChange`. */
    method SetDraft(text: string)
      modifies this
      ensures newComment == text && comments == old(comments) && loading == old(loading)
    {
      newComment := text;
    }

    /** `handleAddComment`, with the simulated delay taken as one step: a
        refused draft changes nothing; an accepted one is appended unapproved
        and the draft is cleared. */
    method AddComment(viewer: Option<Auth.User>, now: int, newId: string, createdAt: string) returns (outcome: AddOutcome)
      modifies this
      ensures outcome == AddVerdict(viewer, old(newComment), IsConsultationActive(hasConsultation, consultationEnd, now))
      ensures outcome != Added ==> comments == old(comments) && newComment == old(newComment) && loading == old(loading)
      ensures outcome == Added ==>
                comments == old(comments) + [NewComment(viewer.value, old(newComment), newId, createdAt)]
                && newComment == "" && !loading
    {
      if viewer.None? || viewer.value.role != Auth.Citizen {
        return NotCitizen;
      }
      if Trim(newComment) == "" {
        return Blank;
      }
      if !(hasConsultation && consultationEnd.Some? && consultationEnd.value > now) {
        return Closed;
      }
      loading := true;
      comments := comments + [NewComment(viewer.value, newComment, newId, createdAt)];
      newComment := "";
      loading := false;
      return Added;
    }

    method ApproveComment(id: string)
      modifies this
      ensures comments == Approve(old(comments), id)
      ensures newComment == old(newComment) && loading == old(loading)
    {
      comments := Approve(comments, id);
    }

    method DeleteComment(id: string)
      modifies this
      ensures comments == Delete(old(comments), id)
      ensures newComment == old(newComment) && loading == old(loading)
    {
      comments := Delete(comments, id);
    }
  }
}

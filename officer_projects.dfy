/**
 * The officer's "my projects" page: the sample acts of two sponsoring
 * ministries, deletion from that list, the statistic tiles and the badge
 * colours.
 */
module OfficerProjectsPage {
  import opened Options
  import opened Seqs
  import opened MockData
  import Auth

  /** The mock ownership rule: an act belongs to the officer when one of the
      two ministries sponsors it. */
  predicate IsMine(a: Act) {
    a.sponsor == "Minister Finansów" || a.sponsor == "Minister Cyfryzacji"
  }

  /** `myProjects`. */
  function MyProjects(acts: seq<Act>): (r: seq<Act>)
    ensures IsSubsequence(r, acts)
    ensures forall a :: a in r <==> a in acts && IsMine(a)
  {
    FilterIsSubsequence(acts, IsMine);
    forall a | true ensures a in Filter(acts, IsMine) <==> a in acts && IsMine(a) {
      FilterMembership(acts, IsMine, a);
    }
    Filter(acts, IsMine)
  }

  /** The page is shown only to a signed-in officer or admin. */
  predicate CanView(user: Option<Auth.User>) {
    user.Some? && (user.value.role == Auth.Officer || user.value.role == Auth.Admin)
  }

  /** `handleDelete`: the projects with that id go, the rest keep their order. */
  function Deleted(projects: seq<Act>, id: string): (r: seq<Act>)
    ensures IsSubsequence(r, projects)
    ensures forall a :: a in r <==> a in projects && a.id != id
  {
    FilterIsSubsequence(projects, (a: Act) => a.id != id);
    forall x | true ensures x in Filter(projects, (a: Act) => a.id != id) <==> x in projects && x.id != id {
      FilterMembership(projects, (a: Act) => a.id != id, x);
    }
    Filter(projects, (a: Act) => a.id != id)
  }

  /** The "Procedowane" tile: the projects under way. */
  function InProgressCount(projects: seq<Act>): (n: nat)
    ensures n <= |projects|
    ensures n == 0 <==> forall i :: 0 <= i < |projects| ==> !(projects[i].status == "procedowany")
    ensures n == |projects| <==> forall i :: 0 <= i < |projects| ==> projects[i].status == "procedowany"
  {
    CountZeroIff(projects, (a: Act) => a.status == "procedowany");
    CountFullIff(projects, (a: Act) => a.status == "procedowany");
    Count(projects, (a: Act) => a.status == "procedowany")
  }

  /** The "Uchwalone" tile: the passed projects. */
  function PassedCount(projects: seq<Act>): (n: nat)
    ensures n <= |projects|
    ensures n == 0 <==> forall i :: 0 <= i < |projects| ==> !(projects[i].status == "uchwalony")
    ensures n == |projects| <==> forall i :: 0 <= i < |projects| ==> projects[i].status == "uchwalony"
  {
    CountZeroIff(projects, (a: Act) => a.status == "uchwalony");
    CountFullIff(projects, (a: Act) => a.status == "uchwalony");
    Count(projects, (a: Act) => a.status == "uchwalony")
  }

  /** The "W konsultacjach" tile: the projects with a consultation. */
  function ConsultationCount(projects: seq<Act>): (n: nat)
    ensures n <= |projects|
    ensures n == 0 <==> forall i :: 0 <= i < |projects| ==> !(projects[i].hasConsultation)
    ensures n == |projects| <==> forall i :: 0 <= i < |projects| ==> projects[i].hasConsultation
  {
    CountZeroIff(projects, (a: Act) => a.hasConsultation);
    CountFullIff(projects, (a: Act) => a.hasConsultation);
    Count(projects, (a: Act) => a.hasConsultation)
  }

  /** The "procedowane" and "uchwalone" tiles never add up to more than the
      total tile, and the consultation tile never exceeds it either. */
  lemma TilesWithinTotal(projects: seq<Act>)
    ensures InProgressCount(projects) + PassedCount(projects) <= |projects|
    ensures ConsultationCount(projects) <= |projects|
  {
    CountDisjoint(projects, (a: Act) => a.status == "procedowany", (a: Act) => a.status == "uchwalony");
  }

  /** The consultation tile counts exactly the projects with a consultation. */
  lemma ConsultationCountExact(projects: seq<Act>)
    ensures ConsultationCount(projects) == |Filter(projects, (a: Act) => a.hasConsultation)|
    ensures forall a :: a in Filter(projects, (a: Act) => a.hasConsultation) <==> a in projects && a.hasConsultation
  {
    forall x | true
      ensures x in Filter(projects, (a: Act) => a.hasConsultation) <==> x in projects && x.hasConsultation
    {
      FilterMembership(projects, (a: Act) => a.hasConsultation, x);
    }
  }

  const Gray: string := "bg-gray-100 text-gray-700"

  /** `getStatusColor`. */
  function StatusColor(status: string): (colour: string)
    ensures colour == Gray <==> status !in {"procedowany", "uchwalony", "odrzucony", "wycofany"}
  {
    match status
    case "planowany" => Gray
    case "procedowany" => "bg-blue-100 text-blue-700"
    case "uchwalony" => "bg-green-100 text-green-700"
    case "odrzucony" => "bg-red-100 text-red-700"
    case "wycofany" => "bg-yellow-100 text-yellow-700"
    case _ => Gray
  }

  /** `getProgressColor`. */
  function ProgressColor(progress: string): (colour: string)
    ensures colour == Gray <==> progress !in {"przyjety", "w_toku", "archiwalny"}
  {
    match progress
    case "przyjety" => "bg-status-accepted text-white"
    case "w_toku" => "bg-status-in-progress text-white"
    case "archiwalny" => "bg-status-archived text-white"
    case _ => Gray
  }

  /** The two seeded projects report a current stage past their number of
      stages, so their progress bars are drawn wider than full. */
  lemma SeededProgressPastFull()
    ensures IsMine(Act001) && IsMine(Act002)
    ensures Act001.currentStage > |Act001.stages| && Act002.currentStage > |Act002.stages|
  {
    CurrentStagePastStageCount();
  }

  class ProjectsPage {
    var projects: seq<Act>

    /** `sampleActs` is passed in as `source`. */
    constructor(source: seq<Act>)
      ensures projects == MyProjects(source)
    {
      projects := MyProjects(source);
    }

    method Delete(id: string)
      modifies this
      ensures projects == Deleted(old(projects), id)
    {
      projects := Deleted(projects, id);
    }
  }
}

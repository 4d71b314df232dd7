/**
 * The act editor: a form record, an editable list of stages, a PDF picker with
 * a size limit and a type check, and the validation run on submit.
 */
module Editor {
  import opened Options
  import opened Text
  import opened Seqs
  import MockData

  /** The picked file, as far as the editor looks at it. */
  datatype PdfFile = PdfFile(name: string, mime: string, size: nat)

  /** One row of the stage editor; dates are the date input's text. */
  datatype EditorStage = EditorStage(id: string, name: string, date: string, status: string)

  /** The two fields the stage rows edit. */
  datatype StageField = Name | Date

  datatype Form = Form(
    id: string,
    title: string,
    summary: string,
    pdfFile: Option<PdfFile>,
    status: string,
    category: string,
    tags: seq<string>,
    priority: string,
    sponsor: string,
    hasConsultation: bool,
    consultationStart: string,
    consultationEnd: string,
    urgency: string)

  /** `10 * 1024 * 1024`. */
  const MaxBytes: nat := 10 * 1024 * 1024

  lemma MaxBytesValue()
    ensures MaxBytes == 10485760
  {
  }

  /** `isPdfFile`: no file is not a PDF; otherwise the MIME type or the
      lower-cased name's extension must say PDF. */
  predicate IsPdfFile(file: Option<PdfFile>) {
    file.Some? && (file.value.mime == "application/pdf" || EndsWith(Lower(file.value.name), ".pdf"))
  }

  /** The letter case of the name does not matter. */
  lemma PdfExtensionIgnoresCase(f: PdfFile)
    requires EndsWith(f.name, ".PDF")
    ensures IsPdfFile(Some(f))
  {
    var n := |f.name|;
    assert Lower(f.name)[n - 4..] == ".pdf" by {
      assert f.name[n - 4..] == ".PDF";
      assert f.name[n - 4] == '.' && f.name[n - 3] == 'P' && f.name[n - 2] == 'D' && f.name[n - 1] == 'F';
    }
  }

  /** What `onPdfChange` did with the picked file. */
  datatype PdfOutcome = NoFile | TooLarge | NotPdf | Accepted

  /** The outcome for a picked file: the size is checked before the type, and a
      file of exactly 10 MiB passes the size check. */
  function PdfVerdict(file: Option<PdfFile>): (r: PdfOutcome)
    ensures r == Accepted <==> file.Some? && file.value.size <= MaxBytes && IsPdfFile(file)
    ensures r == TooLarge <==> file.Some? && file.value.size > MaxBytes
    ensures r == NotPdf <==> file.Some? && file.value.size <= MaxBytes && !IsPdfFile(file)
    ensures r == NoFile <==> file.None?
  {
    if file.None? then NoFile
    else if file.value.size > MaxBytes then TooLarge
    else if !IsPdfFile(file) then NotPdf
    else Accepted
  }

  /** A large file is refused as too large even when it is not a PDF either. */
  lemma SizeCheckedFirst(f: PdfFile)
    requires f.size > MaxBytes && !IsPdfFile(Some(f))
    ensures PdfVerdict(Some(f)) == TooLarge
  {
  }

  /** The number of a new stage: `s` followed by the list's length plus one. */
  function StageId(n: nat): string {
    "s" + NatToString(n)
  }

  lemma StageIdInjective(m: nat, n: nat)
    requires StageId(m) == StageId(n)
    ensures m == n
  {
    assert StageId(m)[1..] == NatToString(m);
    assert StageId(n)[1..] == NatToString(n);
    NatToStringInjective(m, n);
  }

  /** `addStage`: appends an empty pending row numbered after the length. */
  function AddStage(stages: seq<EditorStage>): (r: seq<EditorStage>)
    ensures |r| == |stages| + 1 && r[..|stages|] == stages
    ensures r[|stages|] == EditorStage(StageId(|stages| + 1), "", "", "pending")
  {
    stages + [EditorStage(StageId(|stages| + 1), "", "", "pending")]
  }

  /** `removeStage`: with more than one row, drops every row with that id;
      the last row is never removed on its own. */
  function RemoveStage(stages: seq<EditorStage>, id: string): (r: seq<EditorStage>)
    ensures |stages| <= 1 ==> r == stages
    ensures |stages| > 1 ==> forall s :: s in r <==> s in stages && s.id != id
    ensures IsSubsequence(r, stages)
  {
    if |stages| > 1 then
      FilterMembershipAll(stages, id);
      FilterIsSubsequence(stages, (s: EditorStage) => s.id != id);
      Filter(stages, (s: EditorStage) => s.id != id)
    else
      SubsequenceReflexive(stages);
      stages
  }

  lemma FilterMembershipAll(stages: seq<EditorStage>, id: string)
    ensures forall s :: s in Filter(stages, (x: EditorStage) => x.id != id) <==> s in stages && s.id != id
  {
    forall s | true
      ensures s in Filter(stages, (x: EditorStage) => x.id != id) <==> s in stages && s.id != id
    {
      FilterMembership(stages, (x: EditorStage) => x.id != id, s);
    }
  }

  lemma SubsequenceReflexive<T>(s: seq<T>)
    ensures IsSubsequence(s, s)
  {
    PrefixIsSubsequence(s, |s|);
    assert s[..|s|] == s;
  }

  /** One row with one field replaced. */
  function WithField(s: EditorStage, field: StageField, value: string): EditorStage {
    match field
    case Name => s.(name := value)
    case Date => s.(date := value)
  }

  /** `updateStage`: every row with that id gets the new field value; rows keep
      their place, their id and their other fields. */
  function UpdateStage(stages: seq<EditorStage>, id: string, field: StageField, value: string): (r: seq<EditorStage>)
    ensures |r| == |stages|
    ensures forall i :: 0 <= i < |r| ==> r[i].id == stages[i].id && r[i].status == stages[i].status
    ensures forall i :: 0 <= i < |r| && stages[i].id != id ==> r[i] == stages[i]
    ensures forall i :: 0 <= i < |r| && stages[i].id == id && field == Name ==>
              r[i].name == value && r[i].date == stages[i].date
    ensures forall i :: 0 <= i < |r| && stages[i].id == id && field == Date ==>
              r[i].date == value && r[i].name == stages[i].name
  {
    seq(|stages|, i requires 0 <= i < |stages| =>
      if stages[i].id == id then WithField(stages[i], field, value) else stages[i])
  }

  /** The stage list the editor opens with: one pending row named after the
      first entry of the stage catalogue. */
  const InitialStages: seq<EditorStage> :=
    [EditorStage("s1", "Projekt został przyjęty do prac rady ministrów", "", "pending")]

  lemma InitialStageIsFirstInCatalogue()
    ensures |InitialStages| == 1 && InitialStages[0].id == StageId(1)
    ensures InitialStages[0].name == MockData.LegislativeStages[0]
  {
    assert NatToString(1) == "1";
  }

  /** `PL_2025_` and a three-digit number drawn in 100..999. */
  function FormId(n: nat): (id: string)
    requires 100 <= n <= 999
    ensures StartsWith(id, "PL_2025_") && |id| == 11
  {
    ThreeDigits(n);
    "PL_2025_" + NatToString(n)
  }

  function InitialForm(n: nat): Form
    requires 100 <= n <= 999
  {
    Form(FormId(n), "", "", None, "planowany", "", [], "normal", "", false, "", "", "normal")
  }

  /** What `handleSubmit` does: refuse for a missing title, category or sponsor,
      then refuse for a missing PDF, else save under the form's id. */
  datatype SubmitOutcome = MissingRequired | MissingPdf | Saved(id: string)

  function Submit(f: Form): (r: SubmitOutcome)
    ensures r == MissingRequired <==> f.title == "" || f.category == "" || f.sponsor == ""
    ensures r == MissingPdf <==> f.title != "" && f.category != "" && f.sponsor != "" && f.pdfFile.None?
    ensures r.Saved? ==> r.id == f.id && f.pdfFile.Some?
  {
    if f.title == "" || f.category == "" || f.sponsor == "" then MissingRequired
    else if f.pdfFile.None? then MissingPdf
    else Saved(f.id)
  }

  /** One entry of the multipart payload. */
  datatype Entry = Text(key: string, text: string) | Attachment(key: string, file: PdfFile)

  /** The payload built on a successful submit; the consultation dates are
      sent only when filled in. */
  function Payload(f: Form): (p: seq<Entry>)
    requires f.pdfFile.Some?
    ensures |p| == 9 + (if f.consultationStart != "" then 1 else 0) + (if f.consultationEnd != "" then 1 else 0)
    ensures p[..8] == [Text("id", f.id), Text("title", f.title), Text("category", f.category),
                       Text("status", f.status), Text("priority", f.priority), Text("sponsor", f.sponsor),
                       Text("summary", f.summary), Text("hasConsultation", if f.hasConsultation then "true" else "false")]
    ensures Text("consultationStart", f.consultationStart) in p <==> f.consultationStart != ""
    ensures Text("consultationEnd", f.consultationEnd) in p <==> f.consultationEnd != ""
    ensures p[|p| - 1] == Attachment("pdf", f.pdfFile.value)
  {
    [Text("id", f.id), Text("title", f.title), Text("category", f.category),
     Text("status", f.status), Text("priority", f.priority), Text("sponsor", f.sponsor),
     Text("summary", f.summary), Text("hasConsultation", if f.hasConsultation then "true" else "false")]
    + (if f.consultationStart != "" then [Text("consultationStart", f.consultationStart)] else [])
    + (if f.consultationEnd != "" then [Text("consultationEnd", f.consultationEnd)] else [])
    + [Attachment("pdf", f.pdfFile.value)]
  }

  /** The editor page's state: the form, the stage rows, and the value of the
      file input (`None` once cleared). */
  class EditorPage {
    var form: Form
    var stages: seq<EditorStage>
    var fileInput: Option<PdfFile>

    /** `n` is `Math.floor(Math.random() * 900) + 100`. */
    constructor(n: nat)
      requires 100 <= n <= 999
      ensures form == InitialForm(n) && stages == InitialStages && fileInput == None
    {
      form := InitialForm(n);
      stages := InitialStages;
      fileInput := None;
    }

    /** `onPdfChange` for the file the browser reports picked: a rejected or
        missing file leaves no PDF on the form and a rejected one also clears
        the input; an accepted one is stored. */
    method OnPdfChange(file: Option<PdfFile>) returns (outcome: PdfOutcome)
      modifies this
      ensures outcome == PdfVerdict(file)
      ensures outcome == Accepted ==> form == old(form).(pdfFile := file) && fileInput == file
      ensures outcome == NoFile ==> form == old(form).(pdfFile := None) && fileInput == file
      ensures outcome == TooLarge || outcome == NotPdf ==> form == old(form).(pdfFile := None) && fileInput == None
      ensures stages == old(stages)
    {
      fileInput := file;
      if file.None? {
        form := form.(pdfFile := None);
        return NoFile;
      }
      if file.value.size > MaxBytes {
        fileInput := None;
        form := form.(pdfFile := None);
        return TooLarge;
      }
      if !IsPdfFile(file) {
        fileInput := None;
        form := form.(pdfFile := None);
        return NotPdf;
      }
      form := form.(pdfFile := file);
      return Accepted;
    }

    /** The "Usuń plik" button: empties the file input and drops the PDF from
        the form, which also ends its preview. */
    method ClearPdf()
      modifies this
      ensures form == old(form).(pdfFile := None) && fileInput == None
      ensures stages == old(stages)
    {
      fileInput := None;
      form := form.(pdfFile := None);
    }

    method AddStageRow()
      modifies this
      ensures stages == AddStage(old(stages)) && form == old(form)
    {
      stages := stages + [EditorStage(StageId(|stages| + 1), "", "", "pending")];
    }

    method RemoveStageRow(id: string)
      modifies this
      ensures stages == RemoveStage(old(stages), id) && form == old(form)
    {
      if |stages| > 1 {
        stages := Filter(stages, (s: EditorStage) => s.id != id);
      }
    }

    method UpdateStageRow(id: string, field: StageField, value: string)
      modifies this
      ensures stages == UpdateStage(old(stages), id, field, value) && form == old(form)
    {
      stages := UpdateStage(stages, id, field, value);
    }

    method HandleSubmit() returns (outcome: SubmitOutcome)
      ensures outcome == Submit(form)
    {
      if form.title == "" || form.category == "" || form.sponsor == "" {
        return MissingRequired;
      }
      if form.pdfFile.None? {
        return MissingPdf;
      }
      return Saved(form.id);
    }
  }

  // ---------------------------------------------------------------------------
  // Stage ids as written collide, and the last row can then be removed.

  /** No two rows share an id. */
  predicate UniqueIds(stages: seq<EditorStage>) {
    forall i, j :: 0 <= i < j < |stages| ==> stages[i].id != stages[j].id
  }

  /** Remove the first of two rows, add a row, remove by the repeated id: the
      new row reuses the id "s2" and the guarded removal empties the list. */
  lemma IdCollisionEmptiesList()
    ensures var start := AddStage(InitialStages);
            var afterRemove := RemoveStage(start, "s1");
            var afterAdd := AddStage(afterRemove);
            && UniqueIds(start)
            && afterAdd == [EditorStage("s2", "", "", "pending"), EditorStage("s2", "", "", "pending")]
            && !UniqueIds(afterAdd)
            && RemoveStage(afterAdd, "s2") == []
  {
    assert NatToString(1) == "1" && NatToString(2) == "2";
    assert StageId(1) == "s1" && StageId(2) == "s2";
    var start := AddStage(InitialStages);
    assert start == [InitialStages[0], EditorStage("s2", "", "", "pending")];
    var afterRemove := RemoveStage(start, "s1");
    assert afterRemove == [EditorStage("s2", "", "", "pending")];
    var afterAdd := AddStage(afterRemove);
    assert afterAdd == [EditorStage("s2", "", "", "pending"), EditorStage("s2", "", "", "pending")];
  }

  // ---------------------------------------------------------------------------
  // Corrected: ids drawn from a counter that only grows.

  /** The counter issued `id` before reaching `next`. */
  ghost predicate Issued(id: string, next: nat) {
    exists k :: 1 <= k < next && id == StageId(k)
  }

  /** Every id was issued by the counter before `next`. */
  ghost predicate IssuedBelow(stages: seq<EditorStage>, next: nat) {
    forall i :: 0 <= i < |stages| ==> Issued(stages[i].id, next)
  }

  /** The corrected stage list: ids unique and issued, at least one row. */
  ghost predicate StageListOk(stages: seq<EditorStage>, next: nat) {
    UniqueIds(stages) && IssuedBelow(stages, next) && |stages| >= 1
  }

  /** Adding with the counter's id, then advancing the counter. */
  function AddStageCounted(stages: seq<EditorStage>, next: nat): (r: (seq<EditorStage>, nat))
    ensures r.0 == stages + [EditorStage(StageId(next), "", "", "pending")] && r.1 == next + 1
  {
    (stages + [EditorStage(StageId(next), "", "", "pending")], next + 1)
  }

  /** The corrected add keeps ids unique and issued. */
  lemma AddStageCountedOk(stages: seq<EditorStage>, next: nat)
    requires StageListOk(stages, next) && next >= 1
    ensures StageListOk(AddStageCounted(stages, next).0, AddStageCounted(stages, next).1)
  {
    var r := AddStageCounted(stages, next).0;
    assert IssuedBelow(stages, next) && UniqueIds(stages);
    forall i | 0 <= i < |stages| ensures stages[i].id != StageId(next) {
      assert Issued(stages[i].id, next);
      var k :| 1 <= k < next && stages[i].id == StageId(k);
      if stages[i].id == StageId(next) {
        StageIdInjective(k, next);
      }
    }
    forall i | 0 <= i < |r| ensures Issued(r[i].id, next + 1) {
      if i < |stages| {
        assert Issued(stages[i].id, next);
        var k :| 1 <= k < next && stages[i].id == StageId(k);
        assert r[i] == stages[i];
      } else {
        assert r[i].id == StageId(next);
      }
    }
    forall i, j | 0 <= i < j < |r| ensures r[i].id != r[j].id {
      if j == |stages| {
        assert r[i] == stages[i];
      } else {
        assert r[i] == stages[i] && r[j] == stages[j];
      }
    }
  }

  /** With unique ids, removing by id drops at most one row. */
  lemma {:induction false} RemoveUniqueDropsAtMostOne(stages: seq<EditorStage>, id: string)
    requires UniqueIds(stages)
    ensures |Filter(stages, (s: EditorStage) => s.id != id)| >= |stages| - 1
    ensures UniqueIds(Filter(stages, (s: EditorStage) => s.id != id))
    decreases |stages|
  {
    if stages != [] {
      var rest := stages[1..];
      assert UniqueIds(rest) by {
        forall i, j | 0 <= i < j < |rest| ensures rest[i].id != rest[j].id {
          assert rest[i] == stages[i + 1] && rest[j] == stages[j + 1];
        }
      }
      RemoveUniqueDropsAtMostOne(rest, id);
      var f := Filter(rest, (s: EditorStage) => s.id != id);
      if stages[0].id == id {
        forall i | 0 <= i < |rest| ensures rest[i].id != id {
          assert rest[i] == stages[i + 1];
        }
        FilterKeepsAll(rest, (s: EditorStage) => s.id != id);
      } else {
        assert Filter(stages, (s: EditorStage) => s.id != id) == [stages[0]] + f;
        forall x | x in f ensures x.id != stages[0].id {
          assert x in rest;
          var j :| 0 <= j < |rest| && rest[j] == x;
          assert stages[j + 1] == x;
        }
        var g := [stages[0]] + f;
        forall i, j | 0 <= i < j < |g| ensures g[i].id != g[j].id {
          if i == 0 {
            assert g[j] == f[j - 1] && f[j - 1] in f;
          } else {
            assert g[i] == f[i - 1] && g[j] == f[j - 1];
          }
        }
      }
    }
  }

  /** The corrected remove: the same guard, and with unique ids it can no
      longer empty the list. */
  lemma RemoveStageOk(stages: seq<EditorStage>, next: nat, id: string)
    requires StageListOk(stages, next)
    ensures StageListOk(RemoveStage(stages, id), next)
  {
    assert IssuedBelow(stages, next) && UniqueIds(stages);
    if |stages| > 1 {
      RemoveUniqueDropsAtMostOne(stages, id);
      var r := RemoveStage(stages, id);
      forall i | 0 <= i < |r| ensures Issued(r[i].id, next) {
        assert r[i] in r;
        var j :| 0 <= j < |stages| && stages[j] == r[i];
        assert Issued(stages[j].id, next);
      }
    }
  }

  /** Two lists with the same ids row by row are both corrected or neither. */
  lemma SameIdsOk(stages: seq<EditorStage>, r: seq<EditorStage>, next: nat)
    requires StageListOk(stages, next)
    requires |r| == |stages| && forall i :: 0 <= i < |r| ==> r[i].id == stages[i].id
    ensures StageListOk(r, next)
  {
    assert IssuedBelow(stages, next) && UniqueIds(stages);
    forall i | 0 <= i < |r| ensures Issued(r[i].id, next) {
      assert Issued(stages[i].id, next);
    }
    forall i, j | 0 <= i < j < |r| ensures r[i].id != r[j].id {
      assert r[i].id == stages[i].id && r[j].id == stages[j].id;
    }
  }

  /** Updating a row's name or date never touches ids. */
  lemma UpdateStageOk(stages: seq<EditorStage>, next: nat, id: string, field: StageField, value: string)
    requires StageListOk(stages, next)
    ensures StageListOk(UpdateStage(stages, id, field, value), next)
  {
    SameIdsOk(stages, UpdateStage(stages, id, field, value), next);
  }

  /** The opening list with the counter at 2 satisfies the corrected invariant. */
  lemma InitialStageListOk()
    ensures StageListOk(InitialStages, 2)
  {
    assert NatToString(1) == "1";
    assert InitialStages[0].id == StageId(1);
    assert Issued(InitialStages[0].id, 2);
  }

  /** The stage rows with the corrected numbering: ids come from a counter
      that only grows, so no id is reused and removal never empties the list. */
  class CountedStages {
    var stages: seq<EditorStage>
    var next: nat

    ghost predicate Valid()
      reads this
    {
      StageListOk(stages, next) && next >= 1
    }

    constructor()
      ensures Valid() && stages == InitialStages && next == 2
    {
      stages := InitialStages;
      next := 2;
      InitialStageListOk();
    }

    method Add()
      requires Valid()
      modifies this
      ensures Valid()
      ensures stages == AddStageCounted(old(stages), old(next)).0 && next == old(next) + 1
    {
      AddStageCountedOk(stages, next);
      stages := stages + [EditorStage(StageId(next), "", "", "pending")];
      next := next + 1;
    }

    method Remove(id: string)
      requires Valid()
      modifies this
      ensures Valid() && |stages| >= 1
      ensures stages == RemoveStage(old(stages), id) && next == old(next)
    {
      RemoveStageOk(stages, next, id);
      if |stages| > 1 {
        stages := Filter(stages, (s: EditorStage) => s.id != id);
      }
    }

    method Update(id: string, field: StageField, value: string)
      requires Valid()
      modifies this
      ensures Valid()
      ensures stages == UpdateStage(old(stages), id, field, value) && next == old(next)
    {
      UpdateStageOk(stages, next, id, field, value);
      stages := UpdateStage(stages, id, field, value);
    }
  }
}

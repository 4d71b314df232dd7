/**
 * The admin's registry of officer accounts: generated passwords, the save
 * dialog that adds or edits an account, deletion, the active/inactive switch,
 * and the search box over the list.
 */
module AdminManagementPage {
  import opened Options
  import opened Text
  import opened Seqs
  import Auth

  datatype StaffRole = Officer | Admin

  datatype Status = Active | Inactive

  datatype OfficerAccount = OfficerAccount(
    id: string,
    email: string,
    name: string,
    password: string,
    role: StaffRole,
    status: Status,
    createdAt: string,
    createdBy: string)

  /** The dialog's fields. */
  datatype OfficerForm = OfficerForm(email: string, name: string, password: string, role: StaffRole)

  /** The characters a generated password is drawn from. */
  const Alphabet: string := "ABCDEFGHIJKLMNOPQRSTUVWXYZabcdefghijklmnopqrstuvwxyz0123456789!@#$%"

  /** `generatePassword`'s default length. */
  const DefaultPasswordLength: nat := 12

  lemma AlphabetSize()
    ensures |Alphabet| == 67
  {
  }

  /** `Math.floor(r * chars.length)` for a draw `r` of `Math.random`, which lies
      in [0, 1): always a position of the alphabet. */
  function Pick(r: real): (k: nat)
    requires 0.0 <= r < 1.0
    ensures k < |Alphabet|
  {
    var x := r * 67.0;
    assert 0.0 <= x < 67.0;
    x.Floor
  }

  /** `generatePassword(length)`, with the `length` draws of `Math.random` as
      input: one alphabet character per draw, appended in order. */
  method GeneratePassword(length: nat, draws: seq<real>) returns (password: string)
    requires |draws| == length
    requires forall i :: 0 <= i < |draws| ==> 0.0 <= draws[i] < 1.0
    ensures |password| == length
    ensures forall i :: 0 <= i < length ==> password[i] == Alphabet[Pick(draws[i])]
    ensures forall c :: c in password ==> c in Alphabet
  {
    password := "";
    var i := 0;
    while i < length
      invariant 0 <= i <= length && |password| == i
      invariant forall k :: 0 <= k < i ==> password[k] == Alphabet[Pick(draws[k])]
    {
      password := password + [Alphabet[Pick(draws[i])]];
      i := i + 1;
    }
  }

  /** One piece of `[^\s@]+`: non-empty, with no whitespace and no `@`. */
  predicate Token(t: string) {
    |t| > 0 && forall k :: 0 <= k < |t| ==> t[k] != '@' && !IsSpace(t[k])
  }

  /** The language of `^[^\s@]+@[^\s@]+\.[^\s@]+$`, read off the pattern. */
  ghost predicate EmailPattern(s: string) {
    exists a, b, c :: s == a + "@" + b + "." + c && Token(a) && Token(b) && Token(c)
  }

  /** The domain after the `@`: a token with a dot that is neither its first
      nor its last character. */
  predicate DomainOk(d: string) {
    Token(d) && exists k :: 0 < k < |d| - 1 && d[k] == '.'
  }

  /** The email check as a scan: a non-empty local part up to the first `@`,
      then a domain as above. */
  function ValidEmail(s: string): (valid: bool)
    ensures valid ==> |s| >= 5 && forall i :: 0 <= i < |s| ==> !IsSpace(s[i])
    ensures valid ==> forall i, j :: 0 <= i < j < |s| && s[i] == '@' ==> s[j] != '@'
  {
    var local := BeforeFirst(s, '@');
    if |local| < |s| && Token(local) && DomainOk(s[|local| + 1..]) then
      ScanShape(s, local);
      true
    else
      false
  }

  /** A string the scan accepts has no whitespace, a single `@`, and at least
      one character on each side of the `@` and of the domain's dot. */
  lemma ScanShape(s: string, local: string)
    requires |local| < |s| && local == s[..|local|] && s[|local|] == '@'
    requires Token(local) && DomainOk(s[|local| + 1..])
    ensures |s| >= 5 && forall i :: 0 <= i < |s| ==> !IsSpace(s[i])
    ensures forall i, j :: 0 <= i < j < |s| && s[i] == '@' ==> s[j] != '@'
  {
    var d := s[|local| + 1..];
    forall i | 0 <= i < |s| ensures !IsSpace(s[i]) && (s[i] == '@' ==> i == |local|) {
      if i < |local| {
        assert s[i] == local[i];
      } else if i > |local| {
        assert s[i] == d[i - |local| - 1];
      }
    }
  }

  /** The scan accepts exactly the strings the regular expression matches. */
  lemma ValidEmailIff(s: string)
    ensures ValidEmail(s) <==> EmailPattern(s)
  {
    if ValidEmail(s) {
      ScanMatchesPattern(s);
    }
    if EmailPattern(s) {
      var a, b, c :| s == a + "@" + b + "." + c && Token(a) && Token(b) && Token(c);
      PatternPassesScan(s, a, b, c);
    }
  }

  lemma ScanMatchesPattern(s: string)
    requires ValidEmail(s)
    ensures EmailPattern(s)
  {
    var a := BeforeFirst(s, '@');
    var d := s[|a| + 1..];
    var k :| 0 < k < |d| - 1 && d[k] == '.';
    var b, c := d[..k], d[k + 1..];
    assert Token(b) by {
      forall i | 0 <= i < |b| ensures b[i] != '@' && !IsSpace(b[i]) { assert b[i] == d[i]; }
    }
    assert Token(c) by {
      forall i | 0 <= i < |c| ensures c[i] != '@' && !IsSpace(c[i]) { assert c[i] == d[k + 1 + i]; }
    }
    assert d == b + "." + c;
    assert s == a + "@" + d;
    assert s == a + "@" + b + "." + c;
  }

  lemma PatternPassesScan(s: string, a: string, b: string, c: string)
    requires s == a + "@" + b + "." + c && Token(a) && Token(b) && Token(c)
    ensures ValidEmail(s)
  {
    LocalPartBeforeAt(s, a);
    var d := s[|a| + 1..];
    assert d == b + "." + c;
    assert d[|b|] == '.';
    assert Token(d) by {
      forall i | 0 <= i < |d| ensures d[i] != '@' && !IsSpace(d[i]) {
        if i < |b| { assert d[i] == b[i]; }
        else if i > |b| { assert d[i] == c[i - |b| - 1]; }
      }
    }
  }

  /** The text before the first `@` of `a + "@" + …` is `a` when `a` has no `@`. */
  lemma LocalPartBeforeAt(s: string, a: string)
    requires |a| < |s| && s[..|a|] == a && s[|a|] == '@' && Token(a)
    ensures BeforeFirst(s, '@') == a
  {
  }

  /** A plain address passes. */
  lemma EmailAccepted()
    ensures ValidEmail("jan@gov.pl")
  {
    PatternPassesScan("jan@gov.pl", "jan", "gov", "pl");
  }

  /** An address without a dot after the `@`, with an empty local part, or
      with a space fails. */
  lemma EmailsRejected()
    ensures !ValidEmail("jan@gov") && !ValidEmail("@gov.pl") && !ValidEmail("j n@gov.pl")
  {
    assert BeforeFirst("jan@gov", '@') == "jan";
    assert BeforeFirst("@gov.pl", '@') == "";
    assert BeforeFirst("j n@gov.pl", '@') == "j n";
    assert "j n"[1] == ' ';
  }

  /** What saving the dialog does. */
  datatype SaveOutcome = MissingField | InvalidEmail | EmailTaken | Updated | Added

  /** `if (editingId)`: an edit is under way only for a non-empty id. */
  predicate Editing(editingId: Option<string>) {
    editingId.Some? && editingId.value != ""
  }

  predicate EmailInUse(officers: seq<OfficerAccount>, email: string) {
    exists i :: 0 <= i < |officers| && officers[i].email == email
  }

  /** The checks of `handleAddOfficer`, in their order: the three fields, the
      email's form, and for an addition only, an email already in use. */
  function SaveVerdict(form: OfficerForm, editingId: Option<string>, officers: seq<OfficerAccount>): (r: SaveOutcome)
    ensures r == MissingField <==> form.email == "" || form.name == "" || form.password == ""
    ensures r == InvalidEmail <==> form.email != "" && form.name != "" && form.password != "" && !ValidEmail(form.email)
    ensures r == EmailTaken <==>
              (form.email != "" && form.name != "" && form.password != "" && ValidEmail(form.email)
               && !Editing(editingId) && EmailInUse(officers, form.email))
    ensures r == Updated <==>
              (form.email != "" && form.name != "" && form.password != "" && ValidEmail(form.email)
               && Editing(editingId))
  {
    if form.email == "" || form.name == "" || form.password == "" then MissingField
    else if !ValidEmail(form.email) then InvalidEmail
    else if Editing(editingId) then Updated
    else if EmailInUse(officers, form.email) then EmailTaken
    else Added
  }

  /** The edit: the account with that id takes the dialog's email, name,
      password and role; its id, status and creation fields stay. */
  function Edited(officers: seq<OfficerAccount>, id: string, form: OfficerForm): (r: seq<OfficerAccount>)
    ensures |r| == |officers|
    ensures forall i :: 0 <= i < |r| && officers[i].id != id ==> r[i] == officers[i]
    ensures forall i :: 0 <= i < |r| && officers[i].id == id ==>
              && r[i].email == form.email && r[i].name == form.name
              && r[i].password == form.password && r[i].role == form.role
    ensures forall i :: 0 <= i < |r| ==>
              && r[i].id == officers[i].id && r[i].status == officers[i].status
              && r[i].createdAt == officers[i].createdAt && r[i].createdBy == officers[i].createdBy
  {
    seq(|officers|, i requires 0 <= i < |officers| =>
      if officers[i].id == id
      then officers[i].(email := form.email, name := form.name, password := form.password, role := form.role)
      else officers[i])
  }

  /** `user?.email || "System"`. */
  function CreatedBy(user: Option<Auth.User>): (author: string)
    ensures user.Some? && user.value.email != "" ==> author == user.value.email
    ensures user.None? || user.value.email == "" ==> author == "System"
  {
    if user.Some? && user.value.email != "" then user.value.email else "System"
  }

  /** The account an addition appends: active, created by the signed-in admin. */
  function NewOfficer(form: OfficerForm, newId: string, today: string, user: Option<Auth.User>): (o: OfficerAccount)
    ensures o.status == Active && o.email == form.email && o.createdBy == CreatedBy(user)
  {
    OfficerAccount(newId, form.email, form.name, form.password, form.role, Active, today, CreatedBy(user))
  }

  /** No two accounts share an email. */
  predicate EmailsUnique(officers: seq<OfficerAccount>) {
    forall i, j :: 0 <= i < j < |officers| ==> officers[i].email != officers[j].email
  }

  /** An addition that passed the check keeps emails unique. */
  lemma AddKeepsEmailsUnique(officers: seq<OfficerAccount>, o: OfficerAccount)
    requires EmailsUnique(officers) && !EmailInUse(officers, o.email)
    ensures EmailsUnique(officers + [o])
  {
    var r := officers + [o];
    forall i, j | 0 <= i < j < |r| ensures r[i].email != r[j].email {
      assert r[i] == officers[i];
      if j < |officers| { assert r[j] == officers[j]; }
    }
  }

  /** An edit is not checked against the other accounts: saving account `j`
      under account `i`'s email is accepted and leaves two accounts with one
      email. */
  lemma EditCanDuplicateEmail(officers: seq<OfficerAccount>, i: nat, j: nat, form: OfficerForm)
    requires i < |officers| && j < |officers| && officers[i].id != officers[j].id && officers[j].id != ""
    requires form.email == officers[i].email && ValidEmail(form.email) && form.name != "" && form.password != ""
    ensures SaveVerdict(form, Some(officers[j].id), officers) == Updated
    ensures !EmailsUnique(Edited(officers, officers[j].id, form))
  {
    var r := Edited(officers, officers[j].id, form);
    assert r[i] == officers[i] && r[j].email == officers[i].email;
    if i < j {
      assert r[i].email == r[j].email;
    } else {
      assert r[j].email == r[i].email;
    }
  }

  /** `handleDeleteOfficer`: the accounts with that id go, the rest stay in order. */
  function Deleted(officers: seq<OfficerAccount>, id: string): (r: seq<OfficerAccount>)
    ensures IsSubsequence(r, officers)
    ensures forall o :: o in r <==> o in officers && o.id != id
  {
    FilterIsSubsequence(officers, (o: OfficerAccount) => o.id != id);
    forall o | true
      ensures o in Filter(officers, (x: OfficerAccount) => x.id != id) <==> o in officers && o.id != id
    {
      FilterMembership(officers, (x: OfficerAccount) => x.id != id, o);
    }
    Filter(officers, (o: OfficerAccount) => o.id != id)
  }

  function Flip(s: Status): Status {
    if s == Active then Inactive else Active
  }

  /** The status button on a row: the accounts sharing the row's id all take
      the opposite of the row's status; nothing else changes. */
  function Toggled(officers: seq<OfficerAccount>, clicked: OfficerAccount): (r: seq<OfficerAccount>)
    ensures |r| == |officers|
    ensures forall i :: 0 <= i < |r| && officers[i].id == clicked.id ==>
              r[i] == officers[i].(status := Flip(clicked.status)) && r[i].status != clicked.status
    ensures forall i :: 0 <= i < |r| && officers[i].id != clicked.id ==> r[i] == officers[i]
  {
    seq(|officers|, i requires 0 <= i < |officers| =>
      if officers[i].id == clicked.id then officers[i].(status := Flip(clicked.status)) else officers[i])
  }

  /** Two clicks on the status of an account whose id no other account has
      restore the list. */
  lemma ToggleTwice(officers: seq<OfficerAccount>, k: nat)
    requires k < |officers|
    requires forall i :: 0 <= i < |officers| && officers[i].id == officers[k].id ==> i == k
    ensures var once := Toggled(officers, officers[k]);
            once[k].status != officers[k].status && Toggled(once, once[k]) == officers
  {
    var once := Toggled(officers, officers[k]);
    var twice := Toggled(once, once[k]);
    forall i | 0 <= i < |officers| ensures twice[i] == officers[i] {
      if officers[i].id == officers[k].id {
        assert i == k;
      }
    }
  }

  /** The "Aktywni" tile. */
  function ActiveCount(officers: seq<OfficerAccount>): (n: nat)
    ensures n <= |officers|
    ensures n == 0 <==> forall i :: 0 <= i < |officers| ==> officers[i].status != Active
    ensures n == |officers| <==> forall i :: 0 <= i < |officers| ==> officers[i].status == Active
  {
    CountZeroIff(officers, (o: OfficerAccount) => o.status == Active);
    CountFullIff(officers, (o: OfficerAccount) => o.status == Active);
    |Filter(officers, (o: OfficerAccount) => o.status == Active)|
  }

  /** The "Nieaktywni" tile. */
  function InactiveCount(officers: seq<OfficerAccount>): (n: nat)
    ensures n <= |officers|
    ensures n == 0 <==> forall i :: 0 <= i < |officers| ==> officers[i].status != Inactive
    ensures n == |officers| <==> forall i :: 0 <= i < |officers| ==> officers[i].status == Inactive
  {
    CountZeroIff(officers, (o: OfficerAccount) => o.status == Inactive);
    CountFullIff(officers, (o: OfficerAccount) => o.status == Inactive);
    |Filter(officers, (o: OfficerAccount) => o.status == Inactive)|
  }

  /** The two status tiles always add up to the total tile. */
  lemma CountsAddUp(officers: seq<OfficerAccount>)
    ensures ActiveCount(officers) + InactiveCount(officers) == |officers|
  {
    FilterPartition(officers, (o: OfficerAccount) => o.status == Active, (o: OfficerAccount) => o.status == Inactive);
  }

  /** `filteredOfficers`: the accounts whose lower-cased email or name holds the
      lower-cased search term, in list order. */
  function FilteredOfficers(officers: seq<OfficerAccount>, term: string): (r: seq<OfficerAccount>)
    ensures IsSubsequence(r, officers)
  {
    var keep := (o: OfficerAccount) => Contains(Lower(o.email), Lower(term)) || Contains(Lower(o.name), Lower(term));
    FilterIsSubsequence(officers, keep);
    Filter(officers, keep)
  }

  lemma FilteredMembership(officers: seq<OfficerAccount>, term: string, o: OfficerAccount)
    ensures o in FilteredOfficers(officers, term) <==>
              o in officers && (Contains(Lower(o.email), Lower(term)) || Contains(Lower(o.name), Lower(term)))
  {
    FilterMembership(officers,
      (x: OfficerAccount) => Contains(Lower(x.email), Lower(term)) || Contains(Lower(x.name), Lower(term)), o);
  }

  /** An empty search lists every account. */
  lemma EmptySearchKeepsAll(officers: seq<OfficerAccount>)
    ensures FilteredOfficers(officers, "") == officers
  {
    var keep := (o: OfficerAccount) => Contains(Lower(o.email), Lower("")) || Contains(Lower(o.name), Lower(""));
    forall i | 0 <= i < |officers| ensures keep(officers[i]) {
      ContainsTrivial(Lower(officers[i].email));
    }
    FilterKeepsAll(officers, keep);
  }

  /** The page is shown only to a signed-in admin. */
  predicate CanManage(user: Option<Auth.User>) {
    user.Some? && user.value.role == Auth.Admin
  }

  /** The account the registry opens with. */
  const InitialOfficer: OfficerAccount :=
    OfficerAccount("1", "demo@gov.pl", "Demo Officer", "Demo123!@#", Officer, Active, "2025-01-15", "System")

  /** A blank dialog around a freshly generated password. */
  function BlankForm(password: string): OfficerForm {
    OfficerForm("", "", password, Officer)
  }

  class Registry {
    var officers: seq<OfficerAccount>
    var searchTerm: string
    var dialogOpen: bool
    var editingId: Option<string>
    var deleteId: Option<string>
    var form: OfficerForm

    /** `password` is the generated default-length password the dialog opens with. */
    constructor(password: string)
      ensures officers == [InitialOfficer] && searchTerm == "" && !dialogOpen
      ensures editingId == None && deleteId == None && form == BlankForm(password)
    {
      officers := [InitialOfficer];
      searchTerm := "";
      dialogOpen := false;
      editingId := None;
      deleteId := None;
      form := BlankForm(password);
    }

    /** `handleGeneratePassword`: a new password in the dialog. */
    method RegeneratePassword(password: string)
      modifies this
      ensures form == old(form).(password := password) && officers == old(officers)
    {
      form := form.(password := password);
    }

    /** `handleAddOfficer`. A refusal changes nothing; an edit rewrites the
        account being edited, an addition appends a new active account, and
        either closes the dialog on a blank form (`freshPassword` is the
        newly generated password). */
    method Save(user: Option<Auth.User>, newId: string, today: string, freshPassword: string) returns (outcome: SaveOutcome)
      modifies this
      ensures outcome == SaveVerdict(old(form), old(editingId), old(officers))
      ensures outcome == Updated ==> officers == Edited(old(officers), old(editingId).value, old(form))
      ensures outcome == Added ==> officers == old(officers) + [NewOfficer(old(form), newId, today, user)]
      ensures outcome in {Updated, Added} ==>
                form == BlankForm(freshPassword) && editingId == None && !dialogOpen
      ensures outcome !in {Updated, Added} ==>
                officers == old(officers) && form == old(form) && editingId == old(editingId) && dialogOpen == old(dialogOpen)
      ensures searchTerm == old(searchTerm) && deleteId == old(deleteId)
    {
      if form.email == "" || form.name == "" || form.password == "" {
        return MissingField;
      }
      if !ValidEmail(form.email) {
        return InvalidEmail;
      }
      if editingId.Some? && editingId.value != "" {
        officers := Edited(officers, editingId.value, form);
        outcome := Updated;
      } else {
        if exists i :: 0 <= i < |officers| && officers[i].email == form.email {
          return EmailTaken;
        }
        officers := officers + [NewOfficer(form, newId, today, user)];
        outcome := Added;
      }
      form := BlankForm(freshPassword);
      editingId := None;
      dialogOpen := false;
    }

    method DeleteOfficer(id: string)
      modifies this
      ensures officers == Deleted(old(officers), id) && deleteId == None
      ensures form == old(form) && editingId == old(editingId) && dialogOpen == old(dialogOpen)
    {
      officers := Deleted(officers, id);
      deleteId := None;
    }

    /** The trash button: the confirmation opens for that account. */
    method AskDelete(id: string)
      modifies this
      ensures deleteId == Some(id) && officers == old(officers)
      ensures form == old(form) && editingId == old(editingId) && dialogOpen == old(dialogOpen)
    {
      deleteId := Some(id);
    }

    /** The confirmation's `onOpenChange`: closing it forgets the account. */
    method SetDeleteDialogOpen(open: bool)
      modifies this
      ensures !open ==> deleteId == None
      ensures open ==> deleteId == old(deleteId)
      ensures officers == old(officers) && form == old(form) && dialogOpen == old(dialogOpen)
    {
      if !open {
        deleteId := None;
      }
    }

    /** The confirmation's action: deletes the account asked about, if any. */
    method ConfirmDelete()
      modifies this
      ensures old(deleteId).Some? && old(deleteId).value != "" ==>
                officers == Deleted(old(officers), old(deleteId).value) && deleteId == None
      ensures !(old(deleteId).Some? && old(deleteId).value != "") ==>
                officers == old(officers) && deleteId == old(deleteId)
      ensures form == old(form) && editingId == old(editingId) && dialogOpen == old(dialogOpen)
    {
      if deleteId.Some? && deleteId.value != "" {
        DeleteOfficer(deleteId.value);
      }
    }

    /** The account dialog's `onOpenChange`: closing it resets the form
        (`freshPassword` is the newly generated password) and ends any edit. */
    method SetDialogOpen(open: bool, freshPassword: string)
      modifies this
      ensures dialogOpen == open && officers == old(officers) && deleteId == old(deleteId)
      ensures !open ==> form == BlankForm(freshPassword) && editingId == None
      ensures open ==> form == old(form) && editingId == old(editingId)
    {
      dialogOpen := open;
      if !open {
        form := BlankForm(freshPassword);
        editingId := None;
      }
    }

    /** `handleEditOfficer`: the dialog opens on the account's fields. */
    method EditOfficer(o: OfficerAccount)
      modifies this
      ensures form == OfficerForm(o.email, o.name, o.password, o.role)
      ensures editingId == Some(o.id) && dialogOpen && officers == old(officers)
    {
      form := OfficerForm(o.email, o.name, o.password, o.role);
      editingId := Some(o.id);
      dialogOpen := true;
    }

    method ToggleStatus(clicked: OfficerAccount)
      modifies this
      ensures officers == Toggled(old(officers), clicked)
      ensures form == old(form) && editingId == old(editingId) && dialogOpen == old(dialogOpen)
    {
      officers := Toggled(officers, clicked);
    }

    method SetSearchTerm(term: string)
      modifies this
      ensures searchTerm == term && officers == old(officers)
    {
      searchTerm := term;
    }

    /** The table's rows. */
    function Listed(): seq<OfficerAccount>
      reads this
    {
      FilteredOfficers(officers, searchTerm)
    }
  }
}

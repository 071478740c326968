/** The "Add New User" page, src/app/users/new/page.tsx: the form's fields,
    `validateForm`, the submit gate in front of the confirmation dialog, and
    the `isSubmitting` flag around the confirmed creation.

    The creation itself is simulated in the source (a log line, a delay and
    a redirect); here it succeeds or fails as a parameter says, and the
    router is a list of the paths pushed to it. */
module NewUserForm {
  import opened Strings
  import opened Wrappers
  import ConfirmationModal

  datatype UserFormData = UserFormData(
    name: string,
    email: string,
    phone: string,
    department: string,
    location: string,
    role: string,
    status: string,
    bio: string)

  /** The form as the page first shows it. */
  const InitialForm := UserFormData("", "", "", "Engineering", "", "User", "Active", "")

  // ---------------------------------------------------------------------
  // The e-mail pattern /^[^\s@]+@[^\s@]+\.[^\s@]+$/.
  // ---------------------------------------------------------------------

  /** Every character is in the class `[^\s@]`. */
  predicate Plain(s: string)
  {
    forall i :: 0 <= i < |s| ==> !IsSpace(s[i]) && s[i] != '@'
  }

  /** The pattern matched with `@` at index `at` and the literal dot at
      index `dot`. */
  predicate EmailSplit(s: string, at: int, dot: int)
  {
    && 0 < at && at + 1 < dot && dot + 1 < |s|
    && s[at] == '@' && s[dot] == '.'
    && Plain(s[..at]) && Plain(s[at + 1..dot]) && Plain(s[dot + 1..])
  }

  /** What the regular expression accepts: some way of cutting the string
      into three non-empty runs of `[^\s@]` joined by `@` and `.`. */
  ghost predicate EmailPattern(s: string)
  {
    exists at, dot :: EmailSplit(s, at, dot)
  }

  /** Index of the first `@`, if any. */
  function FirstAt(s: string): (r: Option<nat>)
    ensures r.None? ==> forall i :: 0 <= i < |s| ==> s[i] != '@'
    ensures r.Some? ==> r.value < |s| && s[r.value] == '@' && forall i :: 0 <= i < r.value ==> s[i] != '@'
  {
    if s == [] then None
    else if s[0] == '@' then Some(0)
    else match FirstAt(s[1..])
      case None => None
      case Some(i) => Some(i + 1)
  }

  /** A dot with something on each side of it. */
  predicate InnerDot(d: string)
  {
    exists j :: 0 < j < |d| - 1 && d[j] == '.'
  }

  /** The test computed directly: a non-empty local part before the first
      `@`, and after it a domain free of `@` and whitespace with a dot that is
      neither its first nor its last character. */
  predicate ValidEmail(s: string)
  {
    match FirstAt(s)
    case None => false
    case Some(at) => at > 0 && Plain(s[..at]) && Plain(s[at + 1..]) && InnerDot(s[at + 1..])
  }

  /** The direct test accepts exactly what the regular expression accepts. */
  lemma ValidEmailIffPattern(s: string)
    ensures ValidEmail(s) <==> EmailPattern(s)
  {
    if ValidEmail(s) {
      var at := FirstAt(s).value;
      var d := s[at + 1..];
      var j :| 0 < j < |d| - 1 && d[j] == '.';
      var dot := at + 1 + j;
      assert s[at + 1..dot] == d[..j];
      assert s[dot + 1..] == d[j + 1..];
      assert EmailSplit(s, at, dot);
    }
    if EmailPattern(s) {
      var at, dot :| EmailSplit(s, at, dot);
      assert forall i :: 0 <= i < at ==> s[i] == s[..at][i];
      assert FirstAt(s) == Some(at);
      var d := s[at + 1..];
      forall i | 0 <= i < |d|
        ensures !IsSpace(d[i]) && d[i] != '@'
      {
        if i < dot - at - 1 {
          assert d[i] == s[at + 1..dot][i];
        } else if i > dot - at - 1 {
          assert d[i] == s[dot + 1..][i - (dot - at)];
        }
      }
      assert d[dot - at - 1] == '.';
    }
  }

  /** Whitespace is not trimmed before the test: an accepted address neither
      begins nor ends with whitespace. */
  lemma PatternHasNoOuterSpace(s: string)
    ensures EmailPattern(s) ==> s != [] && !IsSpace(s[0]) && !IsSpace(s[|s| - 1])
  {
    if EmailPattern(s) {
      var at, dot :| EmailSplit(s, at, dot);
      assert s[..at][0] == s[0];
      assert s[dot + 1..][|s| - dot - 2] == s[|s| - 1];
    }
  }

  lemma SampleAddresses()
    ensures EmailPattern("a@b.c")
    ensures !EmailPattern(" a@b.c") && !EmailPattern("a@b.c ")
    ensures !EmailPattern("a@b") && !EmailPattern("a@.c") && !EmailPattern("a@b.")
  {
    assert EmailSplit("a@b.c", 1, 3);
    PatternHasNoOuterSpace(" a@b.c");
    PatternHasNoOuterSpace("a@b.c ");
    ValidEmailIffPattern("a@b");
    assert FirstAt("a@b") == Some(1);
    ValidEmailIffPattern("a@.c");
    assert FirstAt("a@.c") == Some(1);
    assert "a@.c"[2..] == ".c";
    ValidEmailIffPattern("a@b.");
    assert FirstAt("a@b.") == Some(1);
    assert "a@b."[2..] == "b.";
  }

  // ---------------------------------------------------------------------
  // Validation.
  // ---------------------------------------------------------------------

  /** A field of the form, as the inputs name them; the keys of the error
      map are field names too. */
  datatype Field = Name | Email | Phone | Department | Location | Role | Status | Bio

  /** The message a single field gets, if any: a name or location that is
      empty or all whitespace is missing; an e-mail is missing when blank,
      and malformed when it does not match the pattern as typed. */
  ghost function FieldError(data: UserFormData, f: Field): (r: Option<string>)
    ensures r.Some? ==> f == Name || f == Email || f == Location
  {
    match f
    case Name => if IsBlank(data.name) then Some("Name is required") else None
    case Email =>
      if IsBlank(data.email) then Some("Email is required")
      else if !EmailPattern(data.email) then Some("Please enter a valid email address")
      else None
    case Location => if IsBlank(data.location) then Some("Location is required") else None
    case _ => None
  }

  /** The error map `validateForm` should store: one entry per field that
      has an error, and nothing else. */
  ghost function FormErrors(data: UserFormData): (m: map<Field, string>)
    ensures forall f :: f in m <==> FieldError(data, f).Some?
    ensures forall f :: f in m ==> m[f] == FieldError(data, f).value
  {
    map f | f in {Name, Email, Location} && FieldError(data, f).Some? :: FieldError(data, f).value
  }

  /** The form passes exactly when name and location are not blank and the
      e-mail matches the pattern; phone, department, role, status and bio
      are never checked. */
  lemma ValidIff(data: UserFormData)
    ensures FormErrors(data) == map[] <==>
      !IsBlank(data.name) && !IsBlank(data.location) && EmailPattern(data.email)
    ensures FormErrors(data).Keys <= {Name, Email, Location}
  {
    PatternHasNoOuterSpace(data.email);
    if EmailPattern(data.email) {
      assert !IsBlank(data.email) by { assert !IsSpace(data.email[0]); }
    }
    if !IsBlank(data.name) && !IsBlank(data.location) && EmailPattern(data.email) {
      assert forall f :: FieldError(data, f).None?;
      assert forall f :: f !in FormErrors(data);
    } else if IsBlank(data.name) {
      assert Name in FormErrors(data);
    } else if IsBlank(data.location) {
      assert Location in FormErrors(data);
    } else {
      assert Email in FormErrors(data);
    }
  }

  /** The error map assembled from the three checks, as `validateForm`
      does it, is the one the rules describe. */
  lemma ErrorsFromChecks(data: UserFormData, nameBlank: bool, emailBlank: bool, emailOk: bool, locationBlank: bool)
    requires nameBlank == IsBlank(data.name) && emailBlank == IsBlank(data.email)
    requires emailOk == EmailPattern(data.email) && locationBlank == IsBlank(data.location)
    ensures var m0: map<Field, string> := map[];
      var m1 := if nameBlank then m0[Name := "Name is required"] else m0;
      var m2 := if emailBlank then m1[Email := "Email is required"]
                else if !emailOk then m1[Email := "Please enter a valid email address"] else m1;
      var m3 := if locationBlank then m2[Location := "Location is required"] else m2;
      FormErrors(data) == m3
  {
  }

  /** Phone, department, role, status and bio never influence validation. */
  lemma OtherFieldsNeverChecked(data: UserFormData, phone: string, department: string, role: string,
                                status: string, bio: string)
    ensures FormErrors(data.(phone := phone, department := department, role := role, status := status, bio := bio))
      == FormErrors(data)
  {
    var other := data.(phone := phone, department := department, role := role, status := status, bio := bio);
    assert forall f :: FieldError(other, f) == FieldError(data, f);
  }

  /** The untouched form has errors for name, e-mail and location. */
  lemma InitialFormInvalid()
    ensures FormErrors(InitialForm) ==
      map[Name := "Name is required", Email := "Email is required", Location := "Location is required"]
  {
  }

  /** `setFormData({...formData, [field]: value})`. */
  function WithField(data: UserFormData, f: Field, value: string): (r: UserFormData)
    ensures f == Name ==> r == data.(name := value)
    ensures f == Email ==> r == data.(email := value)
    ensures f == Phone ==> r == data.(phone := value)
    ensures f == Department ==> r == data.(department := value)
    ensures f == Location ==> r == data.(location := value)
    ensures f == Role ==> r == data.(role := value)
    ensures f == Status ==> r == data.(status := value)
    ensures f == Bio ==> r == data.(bio := value)
  {
    match f
    case Name => data.(name := value)
    case Email => data.(email := value)
    case Phone => data.(phone := value)
    case Department => data.(department := value)
    case Location => data.(location := value)
    case Role => data.(role := value)
    case Status => data.(status := value)
    case Bio => data.(bio := value)
  }

  /** The confirmation the submit button asks for. */
  function CreateRequest(data: UserFormData, create: ConfirmationModal.ActionId): (r: ConfirmationModal.Request)
    ensures r.title == "Create New User" && r.onConfirm == create
    ensures r.confirmText == Some("Create User") && r.cancelText == Some("Cancel")
    ensures r.variant == Some(ConfirmationModal.Default)
  {
    ConfirmationModal.Request("Create New User",
      "Are you sure you want to create a new user account for " + data.name
        + "? This will send them an invitation email to set up their account.",
      Some("Create User"), Some("Cancel"), Some(ConfirmationModal.Default), create)
  }

  /** The page's state. `create` names the page's own `onConfirm` action. */
  class NewUserPage {
    const modal: ConfirmationModal.ModalHook
    const create: ConfirmationModal.ActionId
    var formData: UserFormData
    var errors: map<Field, string>
    var isSubmitting: bool
    var pushed: seq<string>

    constructor (modal: ConfirmationModal.ModalHook, create: ConfirmationModal.ActionId)
      ensures this.modal == modal && this.create == create
      ensures formData == InitialForm && errors == map[] && !isSubmitting && pushed == []
    {
      this.modal := modal;
      this.create := create;
      formData := InitialForm;
      errors := map[];
      isSubmitting := false;
      pushed := [];
    }

    /** The submit button's caption. */
    function SubmitCaption(): (caption: string)
      reads this
      ensures caption == (if isSubmitting then "Creating User..." else "Create User")
    {
      if isSubmitting then "Creating User..." else "Create User"
    }

    /** Typing into one input replaces that field; the error map is kept. */
    method Edit(f: Field, value: string)
      modifies this
      ensures formData == WithField(old(formData), f, value)
      ensures errors == old(errors) && isSubmitting == old(isSubmitting) && pushed == old(pushed)
    {
      formData := WithField(formData, f, value);
    }

    /** `validateForm`: a fresh map is filled rule by rule and replaces the
      stored one, so errors fixed since the last attempt disappear. */
    method ValidateForm() returns (valid: bool)
      modifies this
      ensures errors == FormErrors(formData)
      ensures valid <==> errors == map[]
      ensures formData == old(formData) && isSubmitting == old(isSubmitting) && pushed == old(pushed)
    {
      // `!x.trim()` is `IsBlank(x)`, as TrimEmptyIffBlank shows.
      var nameBlank := IsBlank(formData.name);
      var emailBlank := IsBlank(formData.email);
      var emailOk := ValidEmail(formData.email);
      ValidEmailIffPattern(formData.email);
      var locationBlank := IsBlank(formData.location);
      ErrorsFromChecks(formData, nameBlank, emailBlank, emailOk, locationBlank);
      var newErrors: map<Field, string> := map[];
      if nameBlank {
        newErrors := newErrors[Name := "Name is required"];
      }
      if emailBlank {
        newErrors := newErrors[Email := "Email is required"];
      } else if !emailOk {
        newErrors := newErrors[Email := "Please enter a valid email address"];
      }
      if locationBlank {
        newErrors := newErrors[Location := "Location is required"];
      }
      errors := newErrors;
      valid := newErrors == map[];
    }

    /** `handleSubmit`: an invalid form stops at the error map; a valid one
      opens the confirmation dialog with the create request. */
    method HandleSubmit() returns (valid: bool)
      modifies this, modal
      ensures errors == FormErrors(formData) && formData == old(formData)
      ensures valid <==> FormErrors(formData) == map[]
      ensures !valid ==> modal.modalState == old(modal.modalState)
      ensures valid ==> modal.modalState == ConfirmationModal.Opened(CreateRequest(formData, create))
      ensures modal.isLoading == old(modal.isLoading)
      ensures isSubmitting == old(isSubmitting) && pushed == old(pushed)
    {
      valid := ValidateForm();
      if valid {
        modal.ShowModal(CreateRequest(formData, create));
      }
    }

    /** The dialog's confirm button, up to the simulated delay: when the
      dialog holds this page's action, the dialog starts loading and the
      page is submitting. */
    method BeginCreate() returns (started: bool)
      modifies this, modal
      ensures started <==> old(modal.modalState.onConfirm) == Some(create)
      ensures modal.modalState == old(modal.modalState)
      ensures started ==> isSubmitting && modal.isLoading
      ensures !started ==> isSubmitting == old(isSubmitting) && modal.isLoading == old(modal.isLoading)
      ensures formData == old(formData) && errors == old(errors) && pushed == old(pushed)
    {
      started := false;
      if modal.modalState.onConfirm == Some(create) {
        var action := modal.StartConfirm();
        isSubmitting := true;
        started := true;
      }
    }

    /** The rest of the action: on success the page goes to the users list;
      a failure is only logged. Either way `isSubmitting` is cleared and,
      because the action swallows its own failure, the dialog sees success
      and closes. */
    method EndCreate(succeeded: bool)
      modifies this, modal
      ensures !isSubmitting
      ensures pushed == old(pushed) + (if succeeded then ["/users"] else [])
      ensures modal.modalState == old(modal.modalState).(isOpen := false) && !modal.isLoading
      ensures formData == old(formData) && errors == old(errors)
    {
      if succeeded {
        pushed := pushed + ["/users"];
      }
      isSubmitting := false;
      modal.FinishConfirm(ConfirmationModal.Resolved);
    }

    /** `handleCancel`, whose button is disabled while submitting. */
    method Cancel()
      modifies this
      ensures pushed == old(pushed) + (if old(isSubmitting) then [] else ["/users"])
      ensures formData == old(formData) && errors == old(errors) && isSubmitting == old(isSubmitting)
    {
      if !isSubmitting {
        pushed := pushed + ["/users"];
      }
    }
  }

  /** Submitting the untouched form shows three errors and no dialog. */
  method SubmitEmptyForm() returns (valid: bool, errs: map<Field, string>, dialog: Option<ConfirmationModal.Dialog>)
    ensures !valid && dialog.None?
    ensures errs == map[Name := "Name is required", Email := "Email is required",
                        Location := "Location is required"]
  {
    var modal := new ConfirmationModal.ModalHook();
    var page := new NewUserPage(modal, 1);
    InitialFormInvalid();
    assert Name in FormErrors(InitialForm);
    valid := page.HandleSubmit();
    errs := page.errors;
    dialog := ConfirmationModal.Render(modal.ComponentProps());
  }

  /** Fill the form correctly, submit, confirm: the page is submitting while
      the action runs, and afterwards it is not, the dialog is closed and
      the router was sent to the users list once, or not at all when the
      creation failed. */
  method CreateFlow(name: string, email: string, location: string, succeeded: bool)
    returns (during: bool, caption: string, after: bool, dialog: Option<ConfirmationModal.Dialog>, pushed: seq<string>)
    requires !IsBlank(name) && !IsBlank(location) && EmailPattern(email)
    ensures during && caption == "Creating User..."
    ensures !after && dialog.None?
    ensures pushed == (if succeeded then ["/users"] else [])
  {
    var modal := new ConfirmationModal.ModalHook();
    var page := new NewUserPage(modal, 7);
    page.Edit(Name, name);
    page.Edit(Email, email);
    page.Edit(Location, location);
    ValidIff(page.formData);
    var valid := page.HandleSubmit();
    var started := page.BeginCreate();
    during := page.isSubmitting;
    caption := page.SubmitCaption();
    page.EndCreate(succeeded);
    after := page.isSubmitting;
    dialog := ConfirmationModal.Render(modal.ComponentProps());
    pushed := page.pushed;
  }

  /** Fixing the only faulty field and submitting again clears its error. */
  method FixedErrorDisappears(data: UserFormData, name: string)
    returns (before: map<Field, string>, after: map<Field, string>)
    requires IsBlank(data.name) && !IsBlank(data.location) && EmailPattern(data.email)
    requires !IsBlank(name)
    ensures before == map[Name := "Name is required"]
    ensures after == map[]
  {
    var modal := new ConfirmationModal.ModalHook();
    var page := new NewUserPage(modal, 3);
    page.Edit(Name, data.name);
    page.Edit(Email, data.email);
    page.Edit(Location, data.location);
    PatternHasNoOuterSpace(data.email);
    assert !IsBlank(data.email) by { assert !IsSpace(data.email[0]); }
    var v1 := page.ValidateForm();
    before := page.errors;
    page.Edit(Name, name);
    ValidIff(page.formData);
    var v2 := page.ValidateForm();
    after := page.errors;
  }
}

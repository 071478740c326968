/** The sign-up page, src/app/auth/register/page.tsx: four text inputs, the
    submit handler's password checks and the input handler that clears an
    error once its field is edited again.

    The registration call is simulated in the source (a delay and a log
    line); here submitting is split at that point into `StartSubmit` and
    `FinishSubmit`. */
module RegisterForm {

  /** The inputs, by their `name` attribute. */
  datatype InputName = FullName | Email | Password | ConfirmPassword

  datatype RegisterData = RegisterData(name: string, email: string, password: string, confirmPassword: string)

  const EmptyData := RegisterData("", "", "", "")

  /** `formData[name]`. */
  function Get(data: RegisterData, n: InputName): string
  {
    match n
    case FullName => data.name
    case Email => data.email
    case Password => data.password
    case ConfirmPassword => data.confirmPassword
  }

  /** `{ ...prev, [name]: value }`: the named input takes the value and the
      other three keep theirs. */
  function With(data: RegisterData, n: InputName, value: string): (r: RegisterData)
    ensures Get(r, n) == value
    ensures forall m :: m != n ==> Get(r, m) == Get(data, m)
  {
    match n
    case FullName => data.(name := value)
    case Email => data.(email := value)
    case Password => data.(password := value)
    case ConfirmPassword => data.(confirmPassword := value)
  }

  /** `s.length`: JavaScript counts UTF-16 code units, so a character
      outside the Basic Multilingual Plane counts twice. */
  function Utf16Length(s: string): (n: nat)
    ensures |s| <= n <= 2 * |s|
  {
    if s == [] then 0
    else (if s[0] as int > 0xFFFF then 2 else 1) + Utf16Length(s[1..])
  }

  /** A password of five characters outside the Basic Multilingual Plane is
      long enough by JavaScript's count. */
  lemma FiveAstralCharactersAreLongEnough()
    ensures Utf16Length("\U{1F600}\U{1F600}\U{1F600}\U{1F600}\U{1F600}") == 10
  {
    var p := "\U{1F600}\U{1F600}\U{1F600}\U{1F600}\U{1F600}";
    assert p[1..] == "\U{1F600}\U{1F600}\U{1F600}\U{1F600}";
    assert p[1..][1..] == "\U{1F600}\U{1F600}\U{1F600}";
    assert p[1..][1..][1..] == "\U{1F600}\U{1F600}";
    assert p[1..][1..][1..][1..] == "\U{1F600}";
  }

  /** The message the submit handler gives one input, if any: the
      confirmation must equal the password, and the password must be at
      least six code units long. The name and the e-mail are never checked. */
  function SubmitError(data: RegisterData, n: InputName): (r: string)
  {
    match n
    case ConfirmPassword => if data.password != data.confirmPassword then "Passwords do not match" else ""
    case Password => if Utf16Length(data.password) < 6 then "Password must be at least 6 characters" else ""
    case _ => ""
  }

  /** The error map a submit stores: an entry for each input with a message. */
  function SubmitErrors(data: RegisterData): (m: map<InputName, string>)
    ensures forall n :: n in m <==> SubmitError(data, n) != ""
    ensures forall n :: n in m ==> m[n] == SubmitError(data, n)
  {
    map n | n in {Password, ConfirmPassword} && SubmitError(data, n) != "" :: SubmitError(data, n)
  }

  /** Both checks, in the order the handler makes them, build this map. */
  lemma SubmitErrorsStepwise(data: RegisterData, mismatch: bool, tooShort: bool)
    requires mismatch == (data.password != data.confirmPassword)
    requires tooShort == (Utf16Length(data.password) < 6)
    ensures var m0: map<InputName, string> := map[];
      var m1 := if mismatch then m0[ConfirmPassword := "Passwords do not match"] else m0;
      var m2 := if tooShort then m1[Password := "Password must be at least 6 characters"] else m1;
      SubmitErrors(data) == m2
  {
  }

  /** The checks: a mismatch and a short password are reported
      independently, so both can appear at once, and the form is accepted
      exactly when neither applies, whatever the name and the e-mail are. */
  lemma SubmitRules(data: RegisterData)
    ensures ConfirmPassword in SubmitErrors(data) <==> data.password != data.confirmPassword
    ensures Password in SubmitErrors(data) <==> Utf16Length(data.password) < 6
    ensures FullName !in SubmitErrors(data) && Email !in SubmitErrors(data)
    ensures SubmitErrors(data) == map[] <==>
      data.password == data.confirmPassword && Utf16Length(data.password) >= 6
  {
    if data.password == data.confirmPassword && Utf16Length(data.password) >= 6 {
      assert forall n :: n !in SubmitErrors(data);
    } else if data.password != data.confirmPassword {
      assert ConfirmPassword in SubmitErrors(data);
    } else {
      assert Password in SubmitErrors(data);
    }
  }

  /** Name and e-mail play no part in the checks. */
  lemma NameAndEmailNeverChecked(data: RegisterData, name: string, email: string)
    ensures SubmitErrors(data.(name := name, email := email)) == SubmitErrors(data)
  {
    var other := data.(name := name, email := email);
    assert forall n :: SubmitError(other, n) == SubmitError(data, n);
  }

  /** "abc" confirmed as "abd" gets both messages. */
  lemma BothErrorsTogether()
    ensures SubmitErrors(RegisterData("", "", "abc", "abd")) ==
      map[ConfirmPassword := "Passwords do not match", Password := "Password must be at least 6 characters"]
  {
    var d := RegisterData("", "", "abc", "abd");
    assert d.password != d.confirmPassword by { assert d.password[2] != d.confirmPassword[2]; }
    assert Utf16Length("abc") <= 6;
    SubmitErrorsStepwise(d, true, Utf16Length("abc") < 6);
  }

  /** JavaScript truthiness of a looked-up error: a missing key and the
      empty string are both falsy. */
  predicate Shown(errors: map<InputName, string>, n: InputName)
  {
    n in errors && errors[n] != ""
  }

  /** The page's state. */
  class RegisterPage {
    var formData: RegisterData
    var isLoading: bool
    var errors: map<InputName, string>

    constructor ()
      ensures formData == EmptyData && !isLoading && errors == map[]
    {
      formData := EmptyData;
      isLoading := false;
      errors := map[];
    }

    /** The submit button's caption. */
    function SubmitCaption(): (caption: string)
      reads this
      ensures caption == (if isLoading then "Creating account..." else "Create Account")
    {
      if isLoading then "Creating account..." else "Create Account"
    }

    /** `handleSubmit` up to the simulated call: loading, errors cleared,
      then the two checks. With any error the map is stored, loading stops
      and the call is skipped; otherwise the page stays loading with no
      errors and the call goes ahead. */
    method StartSubmit() returns (proceeds: bool)
      modifies this
      ensures proceeds <==> SubmitErrors(formData) == map[]
      ensures errors == SubmitErrors(formData)
      ensures isLoading == proceeds
      ensures formData == old(formData)
    {
      isLoading := true;
      errors := map[];
      var mismatch := formData.password != formData.confirmPassword;
      var tooShort := Utf16Length(formData.password) < 6;
      SubmitErrorsStepwise(formData, mismatch, tooShort);
      var newErrors: map<InputName, string> := map[];
      if mismatch {
        newErrors := newErrors[ConfirmPassword := "Passwords do not match"];
      }
      if tooShort {
        newErrors := newErrors[Password := "Password must be at least 6 characters"];
      }
      if newErrors != map[] {
        errors := newErrors;
        isLoading := false;
        proceeds := false;
        return;
      }
      proceeds := true;
    }

    /** The rest of `handleSubmit`, once the simulated call returns. */
    method FinishSubmit()
      modifies this
      ensures !isLoading
      ensures formData == old(formData) && errors == old(errors)
    {
      isLoading := false;
    }

    /** `handleChange`: the named input takes the value; if that input's
      error is showing it is blanked, with its key kept, and every other
      error stays as it was. */
    method HandleChange(n: InputName, value: string)
      modifies this
      ensures formData == With(old(formData), n, value)
      ensures errors.Keys == old(errors.Keys)
      ensures n in errors ==> errors[n] == (if Shown(old(errors), n) then "" else old(errors)[n])
      ensures forall m :: m in errors && m != n ==> errors[m] == old(errors)[m]
      ensures isLoading == old(isLoading)
    {
      formData := With(formData, n, value);
      if n in errors && errors[n] != "" {
        errors := errors[n := ""];
      }
    }
  }

  /** Editing a field never leaves an error showing on it, and never shows
      or hides an error on another field. */
  lemma ChangeHidesOnlyItsOwnError(errors: map<InputName, string>, n: InputName)
    ensures var after := if Shown(errors, n) then errors[n := ""] else errors;
      && !Shown(after, n)
      && (forall m :: m != n ==> (Shown(after, m) <==> Shown(errors, m)))
  {
  }

  /** Submitting the empty form: the passwords match but are too short, so
      only the password error shows and loading has stopped. Typing a
      password then blanks that error but keeps its key. */
  method ShortPasswordThenType(value: string)
    returns (first: map<InputName, string>, loading: bool, after: map<InputName, string>)
    ensures first == map[Password := "Password must be at least 6 characters"]
    ensures !loading
    ensures after == map[Password := ""]
  {
    var page := new RegisterPage();
    SubmitErrorsStepwise(EmptyData, false, true);
    var proceeds := page.StartSubmit();
    first := page.errors;
    loading := page.isLoading;
    page.HandleChange(Password, value);
    after := page.errors;
  }

  /** A good password, submitted: the page is loading until the call
      returns, with no errors, and not loading afterwards. */
  method AcceptedSubmit(name: string, email: string, password: string)
    returns (proceeds: bool, during: bool, caption: string, after: bool, errs: map<InputName, string>)
    requires Utf16Length(password) >= 6
    ensures proceeds && during && caption == "Creating account..."
    ensures !after && errs == map[]
  {
    var page := new RegisterPage();
    page.HandleChange(FullName, name);
    page.HandleChange(Email, email);
    page.HandleChange(Password, password);
    page.HandleChange(ConfirmPassword, password);
    SubmitRules(page.formData);
    proceeds := page.StartSubmit();
    during := page.isLoading;
    caption := page.SubmitCaption();
    page.FinishSubmit();
    after := page.isLoading;
    errs := page.errors;
  }
}

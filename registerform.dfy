/**
 * The registration form: three text fields, one error text per field and a
 * submit error. Typing validates only the edited field; submitting validates
 * all three and hands e-mail and password (never the confirmation) to the
 * session's `register`, whose outcome comes back as an `AuthResult`.
 */
module RegisterForm {
  import opened Wrappers
  import opened Text
  import opened Validators
  import opened Session

  /** The three inputs of the form, by their `name` attribute. */
  datatype Field = Email | Password | ConfirmPassword

  function FieldName(f: Field): (n: string)
    ensures n == "email" || n == "password" || n == "confirmPassword"
  {
    match f
    case Email => "email"
    case Password => "password"
    case ConfirmPassword => "confirmPassword"
  }

  /** One string per input: the shape of both `formData` and `errors`. */
  datatype Fields = Fields(email: string, password: string, confirmPassword: string)
  {
    function Get(f: Field): string
    {
      match f
      case Email => email
      case Password => password
      case ConfirmPassword => confirmPassword
    }

    /** `{...prev, [name]: value}`: only field `f` changes. */
    function With(f: Field, value: string): (r: Fields)
      ensures r.Get(f) == value
      ensures forall g :: g != f ==> r.Get(g) == Get(g)
    {
      match f
      case Email => this.(email := value)
      case Password => this.(password := value)
      case ConfirmPassword => this.(confirmPassword := value)
    }
  }

  const EmptyFields: Fields := Fields("", "", "")

  /** The field a `name` attribute denotes, if any. */
  function FieldOf(name: string): (f: Option<Field>)
    ensures f.Some? ==> FieldName(f.value) == name
  {
    if name == "email" then Some(Email)
    else if name == "password" then Some(Password)
    else if name == "confirmPassword" then Some(ConfirmPassword)
    else None
  }

  lemma FieldOfName(f: Field)
    ensures FieldOf(FieldName(f)) == Some(f)
  {
    var n := FieldName(f);
    match f
    case Email =>
    case Password => assert n[0] != "email"[0];
    case ConfirmPassword => assert n[0] != "email"[0] && |n| != |"password"|;
  }

  /** The case of `validateField` for one of the three inputs. */
  function ValidateInput(f: Field, value: string, password: string): string
  {
    match f
    case Email => ValidateEmail(value)
    case Password => ValidatePassword(value)
    case ConfirmPassword => ValidateConfirmPassword(password, value)
  }

  /**
   * `validateField`: the confirmation is checked against the password the
   * form holds when the event fires; a name the switch does not list is only
   * required.
   */
  function ValidateField(name: string, value: string, password: string): (r: string)
    ensures FieldOf(name).Some? ==> r == ValidateInput(FieldOf(name).value, value, password)
    ensures FieldOf(name).None? ==> (r == "" <==> !Blank(value))
    ensures Blank(value) ==> r == RequiredMessage
  {
    match FieldOf(name)
    case Some(f) => ValidateInput(f, value, password)
    case None => ValidateRequired(value)
  }

  /** The `newErrors` of `handleSubmit`: every field validated against the current data. */
  function ValidateAll(data: Fields): (errors: Fields)
    ensures forall f :: errors.Get(f) == ValidateInput(f, data.Get(f), data.password)
  {
    Fields(ValidateInput(Email, data.email, data.password),
           ValidateInput(Password, data.password, data.password),
           ValidateInput(ConfirmPassword, data.confirmPassword, data.password))
  }

  /** Each entry of `newErrors` is what `validateField` gives for that input's name. */
  lemma ValidateAllFields(data: Fields, f: Field)
    ensures ValidateAll(data).Get(f) == ValidateField(FieldName(f), data.Get(f), data.password)
  {
    FieldOfName(f);
  }

  /** `Object.values(errors).some(error => error !== '')`. */
  predicate HasErrors(errors: Fields)
  {
    errors.email != "" || errors.password != "" || errors.confirmPassword != ""
  }

  /** `Object.values(formData).some(value => !value.trim())`. */
  predicate HasEmptyFields(data: Fields)
  {
    Blank(data.email) || Blank(data.password) || Blank(data.confirmPassword)
  }

  /** `isSubmitDisabled`, derived on every render from the state and the session's loading flag. */
  function SubmitDisabled(data: Fields, errors: Fields, isLoading: bool): (r: bool)
    ensures !r <==> !isLoading && forall f :: errors.Get(f) == "" && !Blank(data.Get(f))
  {
    assert errors.Get(Email) == errors.email && data.Get(Email) == data.email;
    assert errors.Get(Password) == errors.password && data.Get(Password) == data.password;
    assert errors.Get(ConfirmPassword) == errors.confirmPassword && data.Get(ConfirmPassword) == data.confirmPassword;
    HasErrors(errors) || HasEmptyFields(data) || isLoading
  }

  /**
   * Submitting with data `d` reaches `register` exactly when the e-mail is
   * an address, the password is long and strong enough and the confirmation
   * repeats it.
   */
  lemma SubmitAccepts(d: Fields)
    ensures !HasErrors(ValidateAll(d)) <==>
      (EmailPattern(d.email) && !Blank(d.email)
       && PasswordPattern(d.password) && Utf16Length(d.password) >= 6 && !Blank(d.password)
       && d.confirmPassword == d.password)
  {
    EmailAccepted(d.email);
    PasswordAccepted(d.password);
    var e := ValidateAll(d);
    assert e.Get(Email) == e.email && e.Get(Password) == e.password && e.Get(ConfirmPassword) == e.confirmPassword;
  }

  /** Data the submit accepts also leaves the button enabled while nothing is loading. */
  lemma AcceptedDataEnablesSubmit(d: Fields)
    requires !HasErrors(ValidateAll(d))
    ensures !SubmitDisabled(d, ValidateAll(d), false)
  {
    SubmitAccepts(d);
  }

  lemma NotBlank(s: string)
    requires |s| > 0 && 'A' <= s[0] <= 'z'
    ensures !Blank(s)
  {
  }

  lemma StrongSample()
    ensures ValidateInput(Password, "Xyz789", "Abc123") == ""
  {
    var p := "Xyz789";
    NotBlank(p);
    assert Utf16Length(p) >= |p| == 6;
    assert IsUpper(p[0]) && IsDigit(p[3]);
    assert IsStrongPassword(p);
  }

  lemma MismatchSample()
    ensures ValidateInput(ConfirmPassword, "Abc123", "Xyz789") == MismatchMessage
  {
    var c := "Abc123";
    assert !IsSpace(c[0]);
    assert c != "Xyz789" by {
      assert c[0] != "Xyz789"[0];
    }
  }

  /**
   * Editing the password does not re-validate the confirmation: after
   * confirming `Abc123` and then changing the password to `Xyz789`, every
   * error shown is empty and the button is enabled, yet the submit finds
   * the mismatch.
   */
  lemma StaleConfirmation()
    ensures var before := Fields("a@b.c", "Abc123", "Abc123");
            var after := before.With(Password, "Xyz789");
            var shown := EmptyFields.With(Password, ValidateInput(Password, "Xyz789", before.password));
            !SubmitDisabled(after, shown, false)
            && ValidateAll(after).confirmPassword == MismatchMessage
  {
    var before := Fields("a@b.c", "Abc123", "Abc123");
    assert before.With(Password, "Xyz789") == Fields("a@b.c", "Xyz789", "Abc123");
    StrongSample();
    assert EmptyFields.With(Password, "") == EmptyFields;
    StaleEnabled();
    StaleRejected();
  }

  lemma StaleEnabled()
    ensures !SubmitDisabled(Fields("a@b.c", "Xyz789", "Abc123"), EmptyFields, false)
  {
    NotBlank("a@b.c");
    NotBlank("Xyz789");
    NotBlank("Abc123");
  }

  lemma StaleRejected()
    ensures ValidateAll(Fields("a@b.c", "Xyz789", "Abc123")).confirmPassword == MismatchMessage
  {
    MismatchSample();
  }

  class RegisterFormState {
    var formData: Fields
    var errors: Fields
    var submitError: string

    constructor ()
      ensures formData == EmptyFields && errors == EmptyFields && submitError == ""
    {
      formData := EmptyFields;
      errors := EmptyFields;
      submitError := "";
    }

    /** `handleInputChange`: the edited field and its own error, and nothing else. */
    method HandleInputChange(f: Field, value: string)
      modifies this
      ensures formData == old(formData).With(f, value)
      ensures errors == old(errors).With(f, ValidateField(FieldName(f), value, old(formData).password))
      ensures errors.Get(f) == ValidateInput(f, value, old(formData).password)
      ensures submitError == old(submitError)
    {
      FieldOfName(f);
      var error := ValidateField(FieldName(f), value, formData.password);
      formData := formData.With(f, value);
      errors := errors.With(f, error);
    }

    /**
     * `handleSubmit` up to the call of `register`: all errors recomputed, the
     * submit error cleared, and the credentials returned when there is no error.
     */
    method HandleSubmit() returns (payload: Option<Credentials>)
      modifies this`errors, this`submitError
      ensures formData == old(formData)
      ensures errors == ValidateAll(old(formData))
      ensures submitError == ""
      ensures payload.Some? <==> !HasErrors(ValidateAll(old(formData)))
      ensures payload.Some? ==> payload.value == Credentials(old(formData).email, old(formData).password)
    {
      errors := ValidateAll(formData);
      submitError := "";
      if HasErrors(errors) {
        payload := None;
      } else {
        payload := Some(Credentials(formData.email, formData.password));
      }
    }

    /** The rest of `handleSubmit`: a failed registration shows its message, or the fallback when it is empty. */
    method HandleRegisterResult(result: AuthResult)
      modifies this`submitError
      ensures result.success ==> submitError == old(submitError)
      ensures !result.success && Truthy(result.error) ==> submitError == result.error.value
      ensures !result.success && !Truthy(result.error) ==> submitError == RegisterFallback
    {
      if !result.success {
        submitError := if Truthy(result.error) then result.error.value else RegisterFallback;
      }
    }
  }
}

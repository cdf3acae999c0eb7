/** The sign-up page (src/pages/Auth/Register.tsx): five fields, their checks, and the call
    to the store's `register` once they pass. */
module RegisterPage {
  import opened Wrappers
  import opened Text
  import opened Patterns
  import opened Forms
  import opened Auth

  const ConfirmRequired: string := "تکرار رمز عبور الزامی است"
  const ConfirmMismatch: string := "رمز عبور و تکرار آن یکسان نیستند"

  /** The names of the form's inputs, and the "general" key of the failure message. */
  datatype Field = Name | Email | Phone | Password | ConfirmPassword | General

  /** The keys of the form data. */
  const Fields: set<Field> := {Name, Email, Phone, Password, ConfirmPassword}

  /** An empty confirmation is missing; a non-empty one must equal the password. */
  function ConfirmRule(password: string, confirm: string): Option<string> {
    if confirm == "" then Some(ConfirmRequired) else if password != confirm then Some(ConfirmMismatch) else None
  }

  /** The messages `validateForm` collects for the data `f`. */
  function Errors(f: Record<Field>): (r: Record<Field>)
    requires Fields <= f.Keys
    ensures r.Keys <= Fields
    ensures Name in r <==> IsBlank(f[Name])
    ensures Email in r <==> !LooseEmail(f[Email])
    ensures Phone in r <==> !IranMobile(f[Phone])
    ensures Password in r <==> Utf16Length(f[Password]) < 6
    ensures ConfirmPassword in r <==> f[ConfirmPassword] == "" || f[ConfirmPassword] != f[Password]
  {
    var e := Check(map[], Name, NameRule(f[Name]));
    var e := Check(e, Email, EmailRule(f[Email]));
    var e := Check(e, Phone, PhoneRule(f[Phone]));
    var e := Check(e, Password, PasswordRule(f[Password]));
    Check(e, ConfirmPassword, ConfirmRule(f[Password], f[ConfirmPassword]))
  }

  /** The form passes exactly when every field does: a name, a well-formed address, a
      mobile number, a password of at least 6 UTF-16 code units, and its confirmation. */
  lemma ValidIffAllPass(f: Record<Field>)
    requires Fields <= f.Keys
    ensures NoErrors(Errors(f)) <==>
      !IsBlank(f[Name]) && LooseEmail(f[Email]) && IranMobile(f[Phone]) && Utf16Length(f[Password]) >= 6
      && f[ConfirmPassword] == f[Password]
  {
    var r := Errors(f);
    if f[ConfirmPassword] == f[Password] && Utf16Length(f[Password]) >= 6 {
      assert f[ConfirmPassword] != "";
    }
  }

  /** A sign-up that passes every check, with a password that is not a mobile number. */
  const SampleSignUp: Record<Field> := map[Name := "Sara", Email := "sara@example.com",
    Phone := "09121234567", Password := "secret1", ConfirmPassword := "secret1"]

  /** The checks let through a form whose password is not the phone and is no mobile
      number, so the account `HandleSubmit` creates for it has a phone that is neither the
      number entered nor one the phone check would accept. */
  lemma PasswordStoredAsPhone()
    ensures Fields <= SampleSignUp.Keys && NoErrors(Errors(SampleSignUp))
    ensures SampleSignUp[Password] != SampleSignUp[Phone] && !IranMobile(SampleSignUp[Password])
  {
    var f := SampleSignUp;
    assert !IsSpace(f[Name][0]);
    assert LooseMatchAt(f[Email], 4, 12);
    assert IranMobile(f[Phone]);
    ValidIffAllPass(f);
  }

  /** The page's state. */
  class Page {
    var formData: Record<Field>
    var errors: Record<Field>

    /** Every field of the form has a value. */
    predicate Valid()
      reads this
    {
      Fields <= formData.Keys
    }

    constructor()
      ensures formData == map[Name := "", Email := "", Phone := "", Password := "", ConfirmPassword := ""]
      ensures errors == map[] && Valid()
    {
      formData := map[Name := "", Email := "", Phone := "", Password := "", ConfirmPassword := ""];
      errors := map[];
    }

    /** `handleInputChange` for the input called `name`. */
    method HandleInputChange(name: Field, value: string)
      modifies this
      ensures formData == old(formData)[name := value] && errors == ClearedError(old(errors), name)
      ensures old(Valid()) ==> Valid()
    {
      formData := formData[name := value];
      errors := ClearedError(errors, name);
    }

    /** `validateForm()`: the messages replace the old ones; true when there are none. */
    method ValidateForm() returns (ok: bool)
      requires Valid()
      modifies this
      ensures formData == old(formData) && errors == Errors(formData) && ok == NoErrors(errors)
    {
      var f := formData;
      var newErrors: Record<Field> := map[];
      if IsBlank(f[Name]) {
        newErrors := newErrors[Name := NameRequired];
      }
      ghost var e1 := newErrors;
      assert e1 == Check(map[], Name, NameRule(f[Name]));
      if f[Email] == "" {
        newErrors := newErrors[Email := EmailRequired];
      } else if !LooseEmail(f[Email]) {
        newErrors := newErrors[Email := EmailFormat];
      }
      ghost var e2 := newErrors;
      assert e2 == Check(e1, Email, EmailRule(f[Email]));
      if f[Phone] == "" {
        newErrors := newErrors[Phone := PhoneRequired];
      } else if !IranMobile(f[Phone]) {
        newErrors := newErrors[Phone := PhoneFormat];
      }
      ghost var e3 := newErrors;
      assert e3 == Check(e2, Phone, PhoneRule(f[Phone]));
      if f[Password] == "" {
        newErrors := newErrors[Password := PasswordRequired];
      } else if Utf16Length(f[Password]) < 6 {
        newErrors := newErrors[Password := PasswordShort];
      }
      ghost var e4 := newErrors;
      assert e4 == Check(e3, Password, PasswordRule(f[Password]));
      if f[ConfirmPassword] == "" {
        newErrors := newErrors[ConfirmPassword := ConfirmRequired];
      } else if f[Password] != f[ConfirmPassword] {
        newErrors := newErrors[ConfirmPassword := ConfirmMismatch];
      }
      assert newErrors == Check(e4, ConfirmPassword, ConfirmRule(f[Password], f[ConfirmPassword]));
      errors := newErrors;
      ok := newErrors == map[];
    }

    /** `handleSubmit`: a form that fails its checks goes no further. A valid one calls
        `register(name, email, password, phone)`, whose implementation takes only three
        parameters, so the password is stored as the user's phone; the page then moves
        to "/". `freshId` is the clock reading the store uses as the new id. */
    method HandleSubmit(auth: AuthStore, freshId: int) returns (navigate: Option<string>)
      requires Valid()
      modifies this, auth
      ensures formData == old(formData)
      ensures !NoErrors(Errors(formData)) ==>
                navigate == None && errors == Errors(formData)
                && auth.user == old(auth.user) && auth.isAuthenticated == old(auth.isAuthenticated)
      ensures NoErrors(Errors(formData)) ==>
                navigate == Some("/") && errors == Errors(formData) && auth.isAuthenticated && auth.Valid()
                && auth.user == Some(User(freshId, formData[Name], formData[Email], formData[Password], None))
    {
      var ok := ValidateForm();
      if !ok {
        return None;
      }
      // `register` always succeeds, so its failure message is never set.
      var _ := auth.Register(formData[Name], formData[Email], formData[Password], freshId);
      navigate := Some("/");
    }

    /** `handleSubmit` with the arguments in the order `register` declares them (name,
        e-mail, phone): the account keeps the mobile number the form checked. */
    method HandleSubmitCorrected(auth: AuthStore, freshId: int) returns (navigate: Option<string>)
      requires Valid()
      modifies this, auth
      ensures formData == old(formData)
      ensures !NoErrors(Errors(formData)) ==>
                navigate == None && errors == Errors(formData)
                && auth.user == old(auth.user) && auth.isAuthenticated == old(auth.isAuthenticated)
      ensures NoErrors(Errors(formData)) ==>
                navigate == Some("/") && auth.isAuthenticated
                && auth.user == Some(User(freshId, formData[Name], formData[Email], formData[Phone], None))
                && IranMobile(auth.user.value.phone)
    {
      var ok := ValidateForm();
      if !ok {
        return None;
      }
      var _ := auth.Register(formData[Name], formData[Email], formData[Phone], freshId);
      navigate := Some("/");
    }
  }
}

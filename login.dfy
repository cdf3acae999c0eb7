/** The sign-in page (src/pages/Auth/Login.tsx): an e-mail address and a password, checked
    on the page before the store's `login` is asked. */
module LoginPage {
  import opened Wrappers
  import opened Text
  import opened Patterns
  import opened Forms
  import opened Auth

  const WrongCredentials: string := "ایمیل یا رمز عبور اشتباه است"

  /** The names of the form's inputs, and the "general" key of the failure message. */
  datatype Field = Email | Password | General

  /** The keys of the form data. */
  const Fields: set<Field> := {Email, Password}

  /** The messages `validateForm` collects for the data `f`. */
  function Errors(f: Record<Field>): (r: Record<Field>)
    requires Fields <= f.Keys
    ensures r.Keys <= Fields
    ensures Email in r <==> !LooseEmail(f[Email])
    ensures Password in r <==> Utf16Length(f[Password]) < 6
    ensures f[Email] == "" ==> r[Email] == EmailRequired
    ensures f[Password] == "" ==> r[Password] == PasswordRequired
  {
    var e := Check(map[], Email, EmailRule(f[Email]));
    Check(e, Password, PasswordRule(f[Password]))
  }

  /** The demo credentials pass the page's own checks, so the page lets them through to
      the store. */
  lemma DemoCredentialsPass()
    ensures NoErrors(Errors(map[Email := DemoEmail, Password := DemoPassword]))
  {
    var f := map[Email := DemoEmail, Password := DemoPassword];
    var s := f[Email];
    assert s == "demo@example.com";
    assert s[5..12] == "example";
    assert LooseMatchAt(s, 4, 12);
  }

  /** The page's state. */
  class Page {
    var formData: Record<Field>
    var errors: Record<Field>

    /** Every field of the form has a value. */
    predicate Valid()
      reads this
    {
      Fields <= formData.Keys
    }

    constructor()
      ensures formData == map[Email := "", Password := ""] && errors == map[] && Valid()
    {
      formData := map[Email := "", Password := ""];
      errors := map[];
    }

    /** `handleInputChange` for the input called `name`. */
    method HandleInputChange(name: Field, value: string)
      modifies this
      ensures formData == old(formData)[name := value] && errors == ClearedError(old(errors), name)
      ensures old(Valid()) ==> Valid()
    {
      formData := formData[name := value];
      errors := ClearedError(errors, name);
    }

    /** `validateForm()`: the messages replace the old ones; true when there are none. */
    method ValidateForm() returns (ok: bool)
      requires Valid()
      modifies this
      ensures formData == old(formData) && errors == Errors(formData) && ok == NoErrors(errors)
    {
      var f := formData;
      var newErrors: Record<Field> := map[];
      if f[Email] == "" {
        newErrors := newErrors[Email := EmailRequired];
      } else if !LooseEmail(f[Email]) {
        newErrors := newErrors[Email := EmailFormat];
      }
      ghost var e1 := newErrors;
      assert e1 == Check(map[], Email, EmailRule(f[Email]));
      if f[Password] == "" {
        newErrors := newErrors[Password := PasswordRequired];
      } else if Utf16Length(f[Password]) < 6 {
        newErrors := newErrors[Password := PasswordShort];
      }
      assert newErrors == Check(e1, Password, PasswordRule(f[Password]));
      errors := newErrors;
      ok := newErrors == map[];
    }

    /** `handleSubmit`: a form that fails its checks goes no further. A valid one asks the
        store to sign in; on success the page moves to "/", otherwise the only message is
        the general one about wrong credentials. */
    method HandleSubmit(auth: AuthStore) returns (navigate: Option<string>)
      requires Valid()
      modifies this, auth
      ensures formData == old(formData)
      ensures !NoErrors(Errors(formData)) ==>
                navigate == None && errors == Errors(formData)
                && auth.user == old(auth.user) && auth.isAuthenticated == old(auth.isAuthenticated)
      ensures NoErrors(Errors(formData)) && formData[Email] == DemoEmail && formData[Password] == DemoPassword ==>
                navigate == Some("/") && errors == Errors(formData) && auth.isAuthenticated && auth.Valid()
                && auth.user == Some(DemoUser)
      ensures NoErrors(Errors(formData)) && !(formData[Email] == DemoEmail && formData[Password] == DemoPassword) ==>
                navigate == None && errors == map[General := WrongCredentials]
                && auth.user == old(auth.user) && auth.isAuthenticated == old(auth.isAuthenticated)
    {
      var ok := ValidateForm();
      if !ok {
        return None;
      }
      var success := auth.Login(formData[Email], formData[Password]);
      if success {
        navigate := Some("/");
      } else {
        errors := map[General := WrongCredentials];
        navigate := None;
      }
    }
  }
}

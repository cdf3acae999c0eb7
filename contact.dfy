/** The contact page (src/pages/Contact.tsx): a message with the sender's name, address,
    phone and a chosen subject, checked before the (simulated) sending, after which the form
    is emptied. The two-second delay and the confirmation alert are not modelled. */
module ContactPage {
  import opened Wrappers
  import opened Text
  import opened Patterns
  import opened Forms

  /** The names of the form's inputs. */
  datatype Field = Name | Email | Phone | Subject | Message

  /** The keys of the form data. */
  const Fields: set<Field> := {Name, Email, Phone, Subject, Message}

  const SubjectRequired: string := "انتخاب موضوع الزامی است"
  const MessageRequired: string := "پیام الزامی است"

  /** The empty form, as first shown and after a message is sent. */
  const Blank: Record<Field> := map[Name := "", Email := "", Phone := "", Subject := "", Message := ""]

  /** The messages `validateForm` collects for the data `f`. Unlike the name and the
      message, the subject is only required to be non-empty, not non-blank. */
  function Errors(f: Record<Field>): (r: Record<Field>)
    requires Fields <= f.Keys
    ensures r.Keys <= Fields
    ensures Name in r <==> IsBlank(f[Name])
    ensures Email in r <==> !LooseEmail(f[Email])
    ensures Phone in r <==> !IranMobile(f[Phone])
    ensures Subject in r <==> f[Subject] == ""
    ensures Message in r <==> IsBlank(f[Message])
  {
    var e := Check(map[], Name, NameRule(f[Name]));
    var e := Check(e, Email, EmailRule(f[Email]));
    var e := Check(e, Phone, PhoneRule(f[Phone]));
    var e := Check(e, Subject, Missing(f[Subject], SubjectRequired));
    Check(e, Message, BlankRule(f[Message], MessageRequired))
  }

  /** A message is sent exactly when the name and the message are not blank, the address
      and the phone are well formed, and a subject is chosen. */
  lemma ValidIffAllPass(f: Record<Field>)
    requires Fields <= f.Keys
    ensures NoErrors(Errors(f)) <==>
      !IsBlank(f[Name]) && LooseEmail(f[Email]) && IranMobile(f[Phone]) && f[Subject] != "" && !IsBlank(f[Message])
  {
    var r := Errors(f);
    if !NoErrors(r) {
      var k :| k in r;
      assert k in Fields;
    }
  }

  /** The page's state. */
  class Page {
    var formData: Record<Field>
    var errors: Record<Field>
    var isSubmitting: bool

    /** Every field of the form has a value. */
    predicate Valid()
      reads this
    {
      Fields <= formData.Keys
    }

    constructor()
      ensures formData == Blank && errors == map[] && !isSubmitting && Valid()
    {
      formData := Blank;
      errors := map[];
      isSubmitting := false;
    }

    /** `handleInputChange` and `handleSelectChange`: set one field, blank its message. */
    method HandleInputChange(name: Field, value: string)
      modifies this
      ensures formData == old(formData)[name := value] && errors == ClearedError(old(errors), name)
      ensures isSubmitting == old(isSubmitting) && (old(Valid()) ==> Valid())
    {
      formData := formData[name := value];
      errors := ClearedError(errors, name);
    }

    /** `validateForm()`: the messages replace the old ones; true when there are none. */
    method ValidateForm() returns (ok: bool)
      requires Valid()
      modifies this
      ensures formData == old(formData) && errors == Errors(formData) && ok == NoErrors(errors)
      ensures isSubmitting == old(isSubmitting)
    {
      var f := formData;
      var newErrors: Record<Field> := map[];
      if IsBlank(f[Name]) {
        newErrors := newErrors[Name := NameRequired];
      }
      ghost var e1 := newErrors;
      assert e1 == Check(map[], Name, NameRule(f[Name]));
      if f[Email] == "" {
        newErrors := newErrors[Email := EmailRequired];
      } else if !LooseEmail(f[Email]) {
        newErrors := newErrors[Email := EmailFormat];
      }
      ghost var e2 := newErrors;
      assert e2 == Check(e1, Email, EmailRule(f[Email]));
      if f[Phone] == "" {
        newErrors := newErrors[Phone := PhoneRequired];
      } else if !IranMobile(f[Phone]) {
        newErrors := newErrors[Phone := PhoneFormat];
      }
      ghost var e3 := newErrors;
      assert e3 == Check(e2, Phone, PhoneRule(f[Phone]));
      if f[Subject] == "" {
        newErrors := newErrors[Subject := SubjectRequired];
      }
      ghost var e4 := newErrors;
      assert e4 == Check(e3, Subject, Missing(f[Subject], SubjectRequired));
      if IsBlank(f[Message]) {
        newErrors := newErrors[Message := MessageRequired];
      }
      assert newErrors == Check(e4, Message, BlankRule(f[Message], MessageRequired));
      errors := newErrors;
      ok := newErrors == map[];
    }

    /** `handleSubmit`: an invalid form keeps its data and shows its messages; a valid one
        is sent and the form is emptied, with no message left and nothing under way. */
    method HandleSubmit() returns (sent: bool)
      requires Valid()
      modifies this
      ensures errors == Errors(old(formData)) && sent == NoErrors(errors)
      ensures !sent ==> formData == old(formData) && isSubmitting == old(isSubmitting)
      ensures sent ==> formData == Blank && !isSubmitting
      ensures Valid()
    {
      sent := ValidateForm();
      if !sent {
        return;
      }
      isSubmitting := true;
      isSubmitting := false;
      formData := Blank;
    }
  }
}

/** The support tickets of the account page (src/components/user/SupportTickets.tsx): the
    badge colours of a ticket's status and priority, and the form that opens a new ticket.
    The list itself is fixed: a submitted ticket is not added to it (the page only logs
    it), so submitting changes the form and nothing else. */
module SupportTickets {
  import opened Wrappers
  import opened Text
  import opened Forms

  /** A listed ticket. */
  datatype Ticket = Ticket(id: int, subject: string, category: string, status: string, priority: string,
                           createdAt: string, lastUpdate: string, messages: int)

  /** The variants of the badge. */
  datatype Colour = Success | Warning | Info | Error | Default

  const Answered: string := "پاسخ داده شده"
  const Waiting: string := "در انتظار پاسخ"
  const InReview: string := "در حال بررسی"
  const Closed: string := "بسته شده"

  const Urgent: string := "فوری"
  const High: string := "بالا"
  const Medium: string := "متوسط"
  const Low: string := "کم"

  /** `getStatusColor(status)` */
  function StatusColour(status: string): Colour {
    if status == Answered then Success
    else if status == Waiting then Warning
    else if status == InReview then Info
    else if status == Closed then Default
    else Default
  }

  /** `getPriorityColor(priority)` */
  function PriorityColour(priority: string): Colour {
    if priority == Urgent then Error
    else if priority == High then Warning
    else if priority == Medium then Info
    else if priority == Low then Default
    else Default
  }

  /** Each colour but the default belongs to exactly one status, and a status the switch
      does not name is shown like a closed ticket; no status is shown as an error. */
  lemma StatusColourSpec(status: string)
    ensures StatusColour(status) == Success <==> status == Answered
    ensures StatusColour(status) == Warning <==> status == Waiting
    ensures StatusColour(status) == Info <==> status == InReview
    ensures StatusColour(status) == Default <==> status !in {Answered, Waiting, InReview}
    ensures StatusColour(status) != Error
  {
  }

  /** Each colour but the default belongs to exactly one priority; the lowest priority and
      every unknown value get the default, and no priority is shown as a success. */
  lemma PriorityColourSpec(priority: string)
    ensures PriorityColour(priority) == Error <==> priority == Urgent
    ensures PriorityColour(priority) == Warning <==> priority == High
    ensures PriorityColour(priority) == Info <==> priority == Medium
    ensures PriorityColour(priority) == Default <==> priority !in {Urgent, High, Medium}
    ensures PriorityColour(priority) != Success
  {
  }

  /** The values the priority select stores are English words, while the colours are keyed
      by the Persian labels: every value the form can hold gets the default colour. */
  lemma SelectValuesUncoloured(v: string)
    requires v in {"low", "medium", "high", "urgent"}
    ensures PriorityColour(v) == Default
  {
  }

  /** The tickets the page lists. */
  const MockTickets: seq<Ticket> := [
    Ticket(1, "مشکل در ارسال سفارش", "ارسال", Waiting, Medium, "۱۴۰۳/۰۱/۱۵", "۱۴۰۳/۰۱/۱۶", 3),
    Ticket(2, "سوال درباره گارانتی محصول", "گارانتی", Answered, Low, "۱۴۰۳/۰۱/۱۰", "۱۴۰۳/۰۱/۱۲", 2),
    Ticket(3, "درخواست بازگشت کالا", "بازگشت", InReview, High, "۱۴۰۳/۰۱/۱۸", "۱۴۰۳/۰۱/۱۹", 4)
  ]

  /** The names of the form's inputs. */
  datatype Field = Subject | Category | Priority | Message

  /** The keys of the form data. */
  const Fields: set<Field> := {Subject, Category, Priority, Message}

  const SubjectRequired: string := "موضوع الزامی است"
  const CategoryRequired: string := "انتخاب دسته‌بندی الزامی است"
  const PriorityRequired: string := "انتخاب اولویت الزامی است"
  const MessageRequired: string := "پیام الزامی است"

  /** The empty form. */
  const Blank: Record<Field> := map[Subject := "", Category := "", Priority := "", Message := ""]

  /** The messages `validateForm` collects for the data `f`: the subject and the message
      must not be blank, the two selects must not be empty. */
  function Errors(f: Record<Field>): (r: Record<Field>)
    requires Fields <= f.Keys
    ensures r.Keys <= Fields
    ensures Subject in r <==> IsBlank(f[Subject])
    ensures Category in r <==> f[Category] == ""
    ensures Priority in r <==> f[Priority] == ""
    ensures Message in r <==> IsBlank(f[Message])
  {
    var e := Check(map[], Subject, BlankRule(f[Subject], SubjectRequired));
    var e := Check(e, Category, Missing(f[Category], CategoryRequired));
    var e := Check(e, Priority, Missing(f[Priority], PriorityRequired));
    Check(e, Message, BlankRule(f[Message], MessageRequired))
  }

  /** A ticket is accepted exactly when its subject and message are not blank and a
      category and a priority are chosen. */
  lemma ValidIffAllPass(f: Record<Field>)
    requires Fields <= f.Keys
    ensures NoErrors(Errors(f)) <==>
      !IsBlank(f[Subject]) && f[Category] != "" && f[Priority] != "" && !IsBlank(f[Message])
  {
    var r := Errors(f);
    if !NoErrors(r) {
      var k :| k in r;
      assert k in Fields;
    }
  }

  /** The page's state. */
  class Page {
    const tickets: seq<Ticket>
    var isCreating: bool
    var formData: Record<Field>
    var errors: Record<Field>

    /** Every field of the form has a value. */
    predicate Valid()
      reads this
    {
      Fields <= formData.Keys
    }

    constructor()
      ensures tickets == MockTickets && !isCreating && formData == Blank && errors == map[] && Valid()
    {
      tickets := MockTickets;
      isCreating := false;
      formData := Blank;
      errors := map[];
    }

    /** The "new ticket" button and the form's cancel button. */
    method SetCreating(value: bool)
      modifies this
      ensures isCreating == value && formData == old(formData) && errors == old(errors)
    {
      isCreating := value;
    }

    /** `handleInputChange` and `handleSelectChange`: set one field, blank its message. */
    method HandleInputChange(name: Field, value: string)
      modifies this
      ensures formData == old(formData)[name := value] && errors == ClearedError(old(errors), name)
      ensures isCreating == old(isCreating) && (old(Valid()) ==> Valid())
    {
      formData := formData[name := value];
      errors := ClearedError(errors, name);
    }

    /** `validateForm()`: each blank or unchosen field gets its message, the messages
        replace the old ones, and the form passes when there are none. */
    method ValidateForm() returns (ok: bool)
      requires Valid()
      modifies this
      ensures formData == old(formData) && errors == Errors(formData) && ok == NoErrors(errors)
      ensures isCreating == old(isCreating)
    {
      var f := formData;
      var newErrors: Record<Field> := map[];
      if IsBlank(f[Subject]) {
        newErrors := newErrors[Subject := SubjectRequired];
      }
      ghost var e1 := newErrors;
      assert e1 == Check(map[], Subject, BlankRule(f[Subject], SubjectRequired));
      if f[Category] == "" {
        newErrors := newErrors[Category := CategoryRequired];
      }
      ghost var e2 := newErrors;
      assert e2 == Check(e1, Category, Missing(f[Category], CategoryRequired));
      if f[Priority] == "" {
        newErrors := newErrors[Priority := PriorityRequired];
      }
      ghost var e3 := newErrors;
      assert e3 == Check(e2, Priority, Missing(f[Priority], PriorityRequired));
      if IsBlank(f[Message]) {
        newErrors := newErrors[Message := MessageRequired];
      }
      assert newErrors == Check(e3, Message, BlankRule(f[Message], MessageRequired));
      errors := newErrors;
      ok := newErrors == map[];
    }

    /** `handleSubmit`: an invalid form shows its messages; a valid one is emptied, its
        messages cleared and the form closed. */
    method HandleSubmit() returns (accepted: bool)
      requires Valid()
      modifies this
      ensures accepted == NoErrors(Errors(old(formData)))
      ensures !accepted ==> errors == Errors(old(formData)) && formData == old(formData) && isCreating == old(isCreating)
      ensures accepted ==> formData == Blank && errors == map[] && !isCreating
      ensures Valid()
    {
      accepted := ValidateForm();
      if !accepted {
        return;
      }
      formData := Blank;
      errors := map[];
      isCreating := false;
    }
  }
}

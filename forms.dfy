/** What the forms of the site share: the form data and the error messages are both
    `Record<string, string>` objects, an input change sets one key of the data and blanks
    that key's message, and the rules for names, e-mail addresses, mobile numbers and
    passwords give the same messages wherever they are used (src/pages/Auth/Register.tsx,
    src/pages/Auth/Login.tsx, src/pages/Contact.tsx, src/components/user/PersonalInfo.tsx). */
module Forms {
  import opened Wrappers
  import opened Text
  import opened Patterns

  /** A `Record<string, string>` keyed by the names of a form's inputs: the form data, or
      the error messages by field. Each form enumerates its inputs' names as a datatype. */
  type Record<K(==)> = map<K, string>

  /** The message for `key` is shown: `errors[key]` is a non-empty string, so truthy. */
  predicate Shown<K>(errors: Record<K>, key: K) {
    key in errors && errors[key] != ""
  }

  /** The form is valid: `Object.keys(newErrors).length === 0`, no key at all. */
  predicate NoErrors<K>(errors: Record<K>) {
    errors == map[]
  }

  /** `if (errors[name]) setErrors({ ...errors, [name]: "" })`: a shown message is blanked;
      the key itself stays. */
  function ClearedError<K>(errors: Record<K>, name: K): Record<K> {
    if Shown(errors, name) then errors[name := ""] else errors
  }

  /** After an edit the edited field shows no message, every other message is as it was,
      and no key is added or removed. */
  lemma ClearedErrorSpec<K>(errors: Record<K>, name: K)
    ensures !Shown(ClearedError(errors, name), name)
    ensures ClearedError(errors, name).Keys == errors.Keys
    ensures forall k :: k != name && k in errors ==> ClearedError(errors, name)[k] == errors[k]
  {
  }

  /** `if (bad) newErrors[key] = message`, with `msg` the message of the failing check. */
  function Check<K>(errors: Record<K>, key: K, msg: Option<string>): Record<K> {
    if msg.Some? then errors[key := msg.value] else errors
  }

  /** `if (!value) newErrors[key] = msg`: only the empty value is refused. */
  function Missing(value: string, msg: string): (r: Option<string>)
    ensures r.None? <==> value != ""
    ensures r.Some? ==> r.value == msg
  {
    if value == "" then Some(msg) else None
  }

  /** `if (!value.trim()) newErrors[key] = msg`: a value of white space only is refused. */
  function BlankRule(value: string, msg: string): (r: Option<string>)
    ensures r.None? <==> !IsBlank(value)
    ensures r.Some? ==> r.value == msg
  {
    if IsBlank(value) then Some(msg) else None
  }

  /** `{ ...a, ...b }`: every key of either record, with `b`'s message where both have one. */
  function Spread<K>(a: Record<K>, b: Record<K>): (r: Record<K>)
    ensures r.Keys == a.Keys + b.Keys
    ensures forall k :: k in b ==> r[k] == b[k]
    ensures forall k :: k in a && k !in b ==> r[k] == a[k]
  {
    map k | k in a.Keys + b.Keys :: if k in b then b[k] else a[k]
  }

  // ---------------------------------------------------------------- shared rules

  const NameRequired: string := "نام و نام خانوادگی الزامی است"
  const EmailRequired: string := "ایمیل الزامی است"
  const EmailFormat: string := "فرمت ایمیل صحیح نیست"
  const PhoneRequired: string := "شماره تلفن الزامی است"
  const PhoneFormat: string := "شماره تلفن باید با ۰۹ شروع شود و ۱۱ رقم باشد"
  const PasswordRequired: string := "رمز عبور الزامی است"
  const PasswordShort: string := "رمز عبور باید حداقل ۶ کاراکتر باشد"

  /** A name that is blank once trimmed is missing; any other name passes. */
  function NameRule(name: string): (r: Option<string>)
    ensures r.None? <==> !IsBlank(name)
    ensures r.Some? ==> r.value == NameRequired
  {
    if IsBlank(name) then Some(NameRequired) else None
  }

  /** An empty address is missing; a non-empty one must pass `\S+@\S+\.\S+`. The rule
      refuses exactly the addresses the pattern does not match. */
  function EmailRule(email: string): (r: Option<string>)
    ensures r.None? <==> LooseEmail(email)
    ensures email == "" ==> r == Some(EmailRequired)
  {
    if email == "" then Some(EmailRequired) else if !LooseEmail(email) then Some(EmailFormat) else None
  }

  /** An empty number is missing; a non-empty one must be "09" and nine digits. */
  function PhoneRule(phone: string): (r: Option<string>)
    ensures r.None? <==> IranMobile(phone)
    ensures phone == "" ==> r == Some(PhoneRequired)
  {
    if phone == "" then Some(PhoneRequired) else if !IranMobile(phone) then Some(PhoneFormat) else None
  }

  /** An empty password is missing; a non-empty one needs a `.length` of at least 6, counted in
      UTF-16 code units. */
  function PasswordRule(password: string): (r: Option<string>)
    ensures r.None? <==> Utf16Length(password) >= 6
    ensures password == "" ==> r == Some(PasswordRequired)
  {
    if password == "" then Some(PasswordRequired) else if Utf16Length(password) < 6 then Some(PasswordShort) else None
  }

  /** `.length` counts a character outside the Basic Multilingual Plane twice: three gems
      make a password long enough, while five letters do not. */
  lemma SurrogatePairsCountTwice()
    ensures PasswordRule("\U{1F48E}\U{1F48E}\U{1F48E}") == None
    ensures PasswordRule("abcde") == Some(PasswordShort)
  {
    assert Utf16Length("abcde") == 5 by { Utf16LengthBounds("abcde"); }
  }
}

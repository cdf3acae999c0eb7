/** The profile panel of the account page (src/components/user/PersonalInfo.tsx): the
    editable name, e-mail and phone, the profile picture, and the password-change form,
    which shares the panel's error messages. Reading the picture file is not modelled: the
    data URL it yields is a parameter of the upload. */
module PersonalInfo {
  import opened Wrappers
  import opened Text
  import opened Patterns
  import opened Forms
  import opened Auth

  /** The names of the panel's inputs, and the keys of the picture and general messages. */
  datatype Field = Name | Email | Phone | CurrentPassword | NewPassword | ConfirmPassword | Image | General

  /** The keys of the profile form and of the password form. */
  const ProfileFields: set<Field> := {Name, Email, Phone}
  const PasswordFields: set<Field> := {CurrentPassword, NewPassword, ConfirmPassword}

  const CurrentRequired: string := "رمز عبور فعلی الزامی است"
  const NewRequired: string := "رمز عبور جدید الزامی است"
  const NewShort: string := "رمز عبور جدید باید حداقل ۶ کاراکتر باشد"
  const ConfirmRequired: string := "تأیید رمز عبور الزامی است"
  const ConfirmMismatch: string := "رمز عبور جدید و تأیید آن مطابقت ندارند"
  const TooLarge: string := "حجم فایل نباید بیشتر از ۵ مگابایت باشد"
  const NotImage: string := "فقط فایل‌های تصویری مجاز هستند"

  /** The largest picture accepted, 5 MiB. */
  const MaxImageSize: int := 5 * 1024 * 1024

  /** A chosen file: its size in bytes and its MIME type. */
  datatype File = File(size: int, mimeType: string)

  /** `x || null` on an optional string: an empty string counts as no picture. */
  function Truthy(image: Option<string>): (r: Option<string>)
    ensures r.Some? <==> image.Some? && image.value != ""
    ensures r.Some? ==> r == image
  {
    if image.Some? && image.value != "" then image else None
  }

  /** The profile form filled from the signed-in user, or blank when nobody is. */
  function ProfileOf(user: Option<User>): (r: Record<Field>)
    ensures r.Keys == ProfileFields
    ensures user.None? ==> r[Name] == "" && r[Email] == "" && r[Phone] == ""
    ensures user.Some? ==> r[Name] == user.value.name && r[Email] == user.value.email && r[Phone] == user.value.phone
  {
    if user.Some? then map[Name := user.value.name, Email := user.value.email, Phone := user.value.phone]
    else map[Name := "", Email := "", Phone := ""]
  }

  /** The picture shown first: the user's, unless it is absent or empty. */
  function ImageOf(user: Option<User>): Option<string> {
    if user.Some? then Truthy(user.value.profileImage) else None
  }

  /** The messages `validateForm` collects for the profile data `f`. */
  function ProfileErrors(f: Record<Field>): (r: Record<Field>)
    requires ProfileFields <= f.Keys
    ensures r.Keys <= ProfileFields
    ensures Name in r <==> IsBlank(f[Name])
    ensures Email in r <==> !LooseEmail(f[Email])
    ensures Phone in r <==> !IranMobile(f[Phone])
  {
    var e := Check(map[], Name, NameRule(f[Name]));
    var e := Check(e, Email, EmailRule(f[Email]));
    Check(e, Phone, PhoneRule(f[Phone]))
  }

  /** The new-password rule: blank is missing, a `.length` below 6 UTF-16 code units is too short. */
  function NewRule(p: string): (r: Option<string>)
    ensures r.None? <==> !IsBlank(p) && Utf16Length(p) >= 6
  {
    if IsBlank(p) then Some(NewRequired) else if Utf16Length(p) < 6 then Some(NewShort) else None
  }

  /** The confirmation rule: blank is missing, otherwise it must equal the new password. */
  function ConfirmRule(p: string, c: string): (r: Option<string>)
    ensures r.None? <==> !IsBlank(c) && c == p
  {
    if IsBlank(c) then Some(ConfirmRequired) else if p != c then Some(ConfirmMismatch) else None
  }

  /** The messages `validatePasswordForm` collects for the password data `p`. */
  function PasswordErrors(p: Record<Field>): (r: Record<Field>)
    requires PasswordFields <= p.Keys
    ensures r.Keys <= PasswordFields
    ensures CurrentPassword in r <==> IsBlank(p[CurrentPassword])
    ensures NewPassword in r <==> IsBlank(p[NewPassword]) || Utf16Length(p[NewPassword]) < 6
    ensures ConfirmPassword in r <==> IsBlank(p[ConfirmPassword]) || p[ConfirmPassword] != p[NewPassword]
  {
    var e := Check(map[], CurrentPassword, BlankRule(p[CurrentPassword], CurrentRequired));
    var e := Check(e, NewPassword, NewRule(p[NewPassword]));
    Check(e, ConfirmPassword, ConfirmRule(p[NewPassword], p[ConfirmPassword]))
  }

  /** A password change passes exactly when the current password is given, the new one is
      not blank and has at least 6 UTF-16 code units, and the confirmation repeats it. */
  lemma PasswordValidIff(p: Record<Field>)
    requires PasswordFields <= p.Keys
    ensures NoErrors(PasswordErrors(p)) <==>
      !IsBlank(p[CurrentPassword]) && !IsBlank(p[NewPassword]) && Utf16Length(p[NewPassword]) >= 6
      && p[ConfirmPassword] == p[NewPassword]
  {
    var r := PasswordErrors(p);
    if !IsBlank(p[NewPassword]) && p[ConfirmPassword] == p[NewPassword] {
      assert !IsBlank(p[ConfirmPassword]);
    }
  }

  /** Merging the password messages keeps every message of the profile form and the
      picture as it was, and a password form that passes changes no message at all. */
  lemma MergeKeepsOtherMessages(p: Record<Field>, errors: Record<Field>)
    requires PasswordFields <= p.Keys
    ensures NoErrors(PasswordErrors(p)) ==> Spread(errors, PasswordErrors(p)) == errors
    ensures forall k :: k in errors && k !in PasswordFields ==>
      k in Spread(errors, PasswordErrors(p)) && (Spread(errors, PasswordErrors(p)))[k] == errors[k]
  {
    var r := PasswordErrors(p);
    if NoErrors(r) {
      assert Spread(errors, r) == errors;
    }
  }

  /** The picture check: the size first, then the type. */
  function ImageRule(file: File): (r: Option<string>)
    ensures r.None? <==> file.size <= MaxImageSize && StartsWith(file.mimeType, "image/")
    ensures file.size > MaxImageSize ==> r == Some(TooLarge)
  {
    if file.size > MaxImageSize then Some(TooLarge)
    else if !StartsWith(file.mimeType, "image/") then Some(NotImage)
    else None
  }

  /** The panel's state. */
  class Panel {
    var isEditing: bool
    var formData: Record<Field>
    var errors: Record<Field>
    var loading: bool
    var profileImage: Option<string>
    var imageLoading: bool
    var showPasswordChange: bool
    var passwordData: Record<Field>

    /** Both forms have every field. */
    predicate Valid()
      reads this
    {
      ProfileFields <= formData.Keys && PasswordFields <= passwordData.Keys
    }

    /** The panel as first shown for `user`, the signed-in user if any. */
    constructor(user: Option<User>)
      ensures formData == ProfileOf(user) && profileImage == ImageOf(user)
      ensures passwordData == map[CurrentPassword := "", NewPassword := "", ConfirmPassword := ""]
      ensures !isEditing && errors == map[] && !loading && !imageLoading && !showPasswordChange && Valid()
    {
      isEditing := false;
      formData := ProfileOf(user);
      errors := map[];
      loading := false;
      profileImage := ImageOf(user);
      imageLoading := false;
      showPasswordChange := false;
      passwordData := map[CurrentPassword := "", NewPassword := "", ConfirmPassword := ""];
    }

    /** The edit button. */
    method StartEditing()
      modifies this
      ensures isEditing && formData == old(formData) && errors == old(errors) && profileImage == old(profileImage)
      ensures passwordData == old(passwordData) && showPasswordChange == old(showPasswordChange)
    {
      isEditing := true;
    }

    /** `handleInputChange` on the profile form. */
    method HandleInputChange(name: Field, value: string)
      modifies this
      ensures formData == old(formData)[name := value] && errors == ClearedError(old(errors), name)
      ensures passwordData == old(passwordData) && profileImage == old(profileImage) && isEditing == old(isEditing)
      ensures old(Valid()) ==> Valid()
    {
      formData := formData[name := value];
      errors := ClearedError(errors, name);
    }

    /** `handlePasswordChange` on the password form. */
    method HandlePasswordChange(name: Field, value: string)
      modifies this
      ensures passwordData == old(passwordData)[name := value] && errors == ClearedError(old(errors), name)
      ensures formData == old(formData) && profileImage == old(profileImage) && isEditing == old(isEditing)
      ensures old(Valid()) ==> Valid()
    {
      passwordData := passwordData[name := value];
      errors := ClearedError(errors, name);
    }

    /** `handleImageUpload`: nothing without a file; a refused file sets the picture
        message and keeps the picture; an accepted one clears the message and, once read,
        shows the file's data URL `dataUrl`. */
    method HandleImageUpload(file: Option<File>, dataUrl: string)
      modifies this
      ensures file.None? ==> errors == old(errors) && profileImage == old(profileImage) && imageLoading == old(imageLoading)
      ensures file.Some? && ImageRule(file.value).Some? ==>
                errors == old(errors)[Image := ImageRule(file.value).value]
                && profileImage == old(profileImage) && imageLoading == old(imageLoading)
      ensures file.Some? && ImageRule(file.value).None? ==>
                errors == old(errors)[Image := ""] && profileImage == Some(dataUrl) && !imageLoading
      ensures formData == old(formData) && passwordData == old(passwordData) && isEditing == old(isEditing)
    {
      if file.None? {
        return;
      }
      var f := file.value;
      if f.size > 5 * 1024 * 1024 {
        errors := errors[Image := TooLarge];
        return;
      }
      if !StartsWith(f.mimeType, "image/") {
        errors := errors[Image := NotImage];
        return;
      }
      imageLoading := true;
      errors := errors[Image := ""];
      profileImage := Some(dataUrl);
      imageLoading := false;
    }

    /** `handleRemoveImage`. */
    method HandleRemoveImage()
      modifies this
      ensures profileImage == None
      ensures formData == old(formData) && errors == old(errors) && isEditing == old(isEditing)
    {
      profileImage := None;
    }

    /** The toggle of the password form. */
    method TogglePasswordChange()
      modifies this
      ensures showPasswordChange == !old(showPasswordChange)
      ensures passwordData == old(passwordData) && errors == old(errors) && formData == old(formData)
    {
      showPasswordChange := !showPasswordChange;
    }

    /** The cancel button of the password form, and what a successful change does too:
        the form hidden and emptied, every message gone. */
    method ClosePasswordChange()
      modifies this
      ensures !showPasswordChange && errors == map[]
      ensures passwordData == map[CurrentPassword := "", NewPassword := "", ConfirmPassword := ""]
      ensures formData == old(formData) && profileImage == old(profileImage) && isEditing == old(isEditing)
      ensures Valid() <==> ProfileFields <= formData.Keys
    {
      passwordData := map[CurrentPassword := "", NewPassword := "", ConfirmPassword := ""];
      showPasswordChange := false;
      errors := map[];
    }

    /** `validatePasswordForm()`: the messages are merged into the existing ones, so the
        profile form's messages stay; true when the password form has none. */
    method ValidatePasswordForm() returns (ok: bool)
      requires Valid()
      modifies this
      ensures passwordData == old(passwordData) && formData == old(formData)
      ensures isEditing == old(isEditing) && profileImage == old(profileImage) && showPasswordChange == old(showPasswordChange)
      ensures errors == Spread(old(errors), PasswordErrors(passwordData)) && ok == NoErrors(PasswordErrors(passwordData))
    {
      var p := passwordData;
      var newErrors: Record<Field> := map[];
      if IsBlank(p[CurrentPassword]) {
        newErrors := newErrors[CurrentPassword := CurrentRequired];
      }
      ghost var e1 := newErrors;
      assert e1 == Check(map[], CurrentPassword, BlankRule(p[CurrentPassword], CurrentRequired));
      if IsBlank(p[NewPassword]) {
        newErrors := newErrors[NewPassword := NewRequired];
      } else if Utf16Length(p[NewPassword]) < 6 {
        newErrors := newErrors[NewPassword := NewShort];
      }
      ghost var e2 := newErrors;
      assert e2 == Check(e1, NewPassword, NewRule(p[NewPassword]));
      if IsBlank(p[ConfirmPassword]) {
        newErrors := newErrors[ConfirmPassword := ConfirmRequired];
      } else if p[NewPassword] != p[ConfirmPassword] {
        newErrors := newErrors[ConfirmPassword := ConfirmMismatch];
      }
      assert newErrors == Check(e2, ConfirmPassword, ConfirmRule(p[NewPassword], p[ConfirmPassword]));
      MergeErrors(newErrors);
      ok := newErrors == map[];
    }

    /** `setErrors(prev => ({ ...prev, ...newErrors }))`. */
    method MergeErrors(newErrors: Record<Field>)
      modifies this
      ensures errors == Spread(old(errors), newErrors)
      ensures passwordData == old(passwordData) && formData == old(formData)
      ensures isEditing == old(isEditing) && profileImage == old(profileImage) && showPasswordChange == old(showPasswordChange)
    {
      errors := Spread(errors, newErrors);
    }

    /** `handlePasswordSubmit`: an invalid change stops after the merge; a valid one (the
        request is simulated and always succeeds) closes and empties the form and clears
        every message. */
    method HandlePasswordSubmit()
      requires Valid()
      modifies this
      ensures formData == old(formData) && profileImage == old(profileImage) && isEditing == old(isEditing)
      ensures !NoErrors(PasswordErrors(old(passwordData))) ==>
                errors == Spread(old(errors), PasswordErrors(old(passwordData))) && passwordData == old(passwordData)
                && showPasswordChange == old(showPasswordChange)
      ensures NoErrors(PasswordErrors(old(passwordData))) ==>
                errors == map[] && !showPasswordChange && !loading
                && passwordData == map[CurrentPassword := "", NewPassword := "", ConfirmPassword := ""]
      ensures Valid()
    {
      var ok := ValidatePasswordForm();
      if !ok {
        return;
      }
      loading := true;
      ClosePasswordChange();
      loading := false;
    }

    /** `validateForm()`: the profile messages replace every message; true when none. */
    method ValidateForm() returns (ok: bool)
      requires Valid()
      modifies this
      ensures formData == old(formData) && passwordData == old(passwordData) && profileImage == old(profileImage)
      ensures errors == ProfileErrors(formData) && ok == NoErrors(errors)
      ensures isEditing == old(isEditing)
    {
      var f := formData;
      var newErrors: Record<Field> := map[];
      if IsBlank(f[Name]) {
        newErrors := newErrors[Name := NameRequired];
      }
      ghost var e1 := newErrors;
      assert e1 == Check(map[], Name, NameRule(f[Name]));
      if f[Email] == "" {
        newErrors := newErrors[Email := EmailRequired];
      } else if !LooseEmail(f[Email]) {
        newErrors := newErrors[Email := EmailFormat];
      }
      ghost var e2 := newErrors;
      assert e2 == Check(e1, Email, EmailRule(f[Email]));
      if f[Phone] == "" {
        newErrors := newErrors[Phone := PhoneRequired];
      } else if !IranMobile(f[Phone]) {
        newErrors := newErrors[Phone := PhoneFormat];
      }
      assert newErrors == Check(e2, Phone, PhoneRule(f[Phone]));
      errors := newErrors;
      ok := newErrors == map[];
    }

    /** `handleSubmit`: a valid profile is sent to the store as a patch of name, e-mail,
        phone and picture, where an absent or empty picture is passed as `undefined`, which
        removes the user's. Editing ends when the store had a user to update. */
    method HandleSubmit(auth: AuthStore)
      requires Valid()
      modifies this, auth
      ensures formData == old(formData) && errors == ProfileErrors(formData) && profileImage == old(profileImage)
      ensures !NoErrors(errors) ==> isEditing == old(isEditing) && auth.user == old(auth.user)
      ensures NoErrors(errors) && old(auth.user).Some? ==>
                !isEditing
                && auth.user == Some(old(auth.user).value.(name := formData[Name], email := formData[Email],
                                                           phone := formData[Phone], profileImage := Truthy(profileImage)))
      ensures NoErrors(errors) && old(auth.user).None? ==> isEditing == old(isEditing) && auth.user == None
    {
      var ok := ValidateForm();
      if !ok {
        return;
      }
      loading := true;
      var patch := Patch(None, Some(formData[Name]), Some(formData[Email]), Some(formData[Phone]), Some(Truthy(profileImage)));
      var success := auth.UpdateProfile(patch);
      if success {
        isEditing := false;
      }
      loading := false;
    }

    /** `handleCancel`: the form and the picture go back to the signed-in user's, the
        messages are cleared and editing ends. */
    method HandleCancel(auth: AuthStore)
      modifies this
      ensures formData == ProfileOf(auth.user) && profileImage == ImageOf(auth.user)
      ensures errors == map[] && !isEditing && passwordData == old(passwordData)
      ensures showPasswordChange == old(showPasswordChange) && loading == old(loading) && imageLoading == old(imageLoading)
    {
      formData := ProfileOf(auth.user);
      profileImage := ImageOf(auth.user);
      errors := map[];
      isEditing := false;
    }
  }

  /** Editing and cancelling without saving leaves the form as the user's. */
  method EditThenCancel(panel: Panel, auth: AuthStore, name: string)
    requires panel.Valid()
    modifies panel
    ensures panel.formData == ProfileOf(auth.user) && !panel.isEditing && panel.errors == map[]
  {
    panel.StartEditing();
    panel.HandleInputChange(Name, name);
    panel.HandleCancel(auth);
  }
}

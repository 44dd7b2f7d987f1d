/** The user-profile dialog: its schema, the prefill defaults, the avatar field,
    the normalised payload and the update-only submit. URL well-formedness is a
    parameter predicate. */
module UserDialog {
  import opened Wrappers
  import opened Records
  import ProductDialog

  datatype ProfileForm = ProfileForm(fullName: Option<string>, role: Option<string>, avatarUrl: Field<string>)

  const EmptyForm: ProfileForm := ProfileForm(None, None, Absent)

  datatype FormError = FullNameRequired | RoleRequired | InvalidUrl

  /** `userProfileSchema`: the avatar may be missing, null, "" or a URL. */
  function Errors(f: ProfileForm, isUrl: string -> bool): (errs: set<FormError>)
    ensures FullNameRequired in errs <==> !(f.fullName.Some? && |f.fullName.value| >= 1)
    ensures RoleRequired in errs <==> !(f.role.Some? && |f.role.value| >= 1)
    ensures InvalidUrl in errs <==> f.avatarUrl.Present? && f.avatarUrl.value != "" && !isUrl(f.avatarUrl.value)
  {
    (if f.fullName.Some? && |f.fullName.value| >= 1 then {} else {FullNameRequired})
    + (if f.role.Some? && |f.role.value| >= 1 then {} else {RoleRequired})
    + (if f.avatarUrl.Present? && f.avatarUrl.value != "" && !isUrl(f.avatarUrl.value) then {InvalidUrl} else {})
  }

  predicate Valid(f: ProfileForm, isUrl: string -> bool) {
    Errors(f, isUrl) == {}
  }

  datatype DialogState = DialogState(form: ProfileForm, preview: Option<string>, open: bool)

  /** The prefill effect: the profile's values with full name defaulting to "", role
      to "admin" and avatar to null; without a profile, reset the form. */
  function Prefill(st: DialogState, profile: Option<UserProfile>): (r: DialogState)
    ensures r.open == st.open
    ensures profile.None? ==> r.form == EmptyForm && r.preview == None
    ensures profile.Some? ==>
      var p := profile.value;
      && r.form.fullName == Some(if TruthyOpt(p.fullName) then p.fullName.value else "")
      && r.form.role == Some(if TruthyOpt(p.role) then p.role.value else "admin")
      && (TruthyOpt(p.avatarUrl) ==> r.form.avatarUrl == Present(p.avatarUrl.value) && r.preview == p.avatarUrl)
      && (!TruthyOpt(p.avatarUrl) ==> r.form.avatarUrl == Null && r.preview == None)
  {
    match profile
    case None => st.(form := EmptyForm, preview := None)
    case Some(p) =>
      var avatar := if TruthyOpt(p.avatarUrl) then Some(p.avatarUrl.value) else None;
      st.(form := ProfileForm(
            Some(if TruthyOpt(p.fullName) then p.fullName.value else ""),
            Some(if TruthyOpt(p.role) then p.role.value else "admin"),
            if avatar.Some? then Present(avatar.value) else Null),
          preview := avatar)
  }

  /** A prefilled form always has a role, but a profile without a full name prefills
      an empty one, which the schema rejects until it is typed in. */
  lemma PrefillRoleAlwaysSet(st: DialogState, p: UserProfile, isUrl: string -> bool)
    ensures RoleRequired !in Errors(Prefill(st, Some(p)).form, isUrl)
    ensures InvalidUrl in Errors(Prefill(st, Some(p)).form, isUrl) <==> TruthyOpt(p.avatarUrl) && !isUrl(p.avatarUrl.value)
    ensures !TruthyOpt(p.fullName) ==> FullNameRequired in Errors(Prefill(st, Some(p)).form, isUrl)
  {
  }

  /** `handleClearAvatar`: the avatar value and the preview both become null. */
  function ClearAvatar(st: DialogState): (r: DialogState)
    ensures r.form.avatarUrl == Null && r.preview == None
    ensures r.form.fullName == st.form.fullName && r.form.role == st.form.role && r.open == st.open
  {
    st.(form := st.form.(avatarUrl := Null), preview := None)
  }

  /** `handleAvatarChange` once the file is read: a chosen file's data URL becomes both
      the value and the preview; no file clears them as `handleClearAvatar` does. */
  function AvatarChosen(st: DialogState, dataUrl: Option<string>): (r: DialogState)
    ensures dataUrl.None? ==> r == ClearAvatar(st)
    ensures dataUrl.Some? ==> r.form.avatarUrl == Present(dataUrl.value) && r.preview == dataUrl
    ensures r.form.fullName == st.form.fullName && r.form.role == st.form.role && r.open == st.open
  {
    match dataUrl
    case None => ClearAvatar(st)
    case Some(u) => st.(form := st.form.(avatarUrl := Present(u)), preview := Some(u))
  }

  /** `onSubmit`'s payload: a falsy avatar becomes an explicit null; the key stays. */
  function Payload(f: ProfileForm): (r: ProfileForm)
    ensures r.avatarUrl == (if TruthyText(f.avatarUrl) then f.avatarUrl else Null)
    ensures r.avatarUrl != Absent
    ensures r.fullName == f.fullName && r.role == f.role
  {
    if TruthyText(f.avatarUrl) then f else f.(avatarUrl := Null)
  }

  /** Normalising keeps a valid form valid. */
  lemma PayloadKeepsValid(f: ProfileForm, isUrl: string -> bool)
    requires Valid(f, isUrl)
    ensures Valid(Payload(f), isUrl)
  {
  }

  /** A falsy image is handled differently by the two dialogs: the product dialog
      deletes the key, this one sends null. */
  lemma FalsyImageHandledDifferently(f: ProfileForm, g: ProductDialog.ProductForm)
    requires f.avatarUrl == Null && g.imageUrl == Null
    ensures Payload(f).avatarUrl == Null
    ensures ProductDialog.Payload(g).imageUrl == Absent
  {
  }

  /** `handleSubmit(onSubmit)`: an update of the edited profile's id, and nothing
      without a profile or for an invalid form; this dialog never creates. */
  function Submit(profile: Option<UserProfile>, f: ProfileForm, isUrl: string -> bool): (r: Option<(string, ProfileForm)>)
    ensures r.Some? <==> profile.Some? && Valid(f, isUrl)
    ensures r.Some? ==> r.value.0 == profile.value.id && r.value.1 == Payload(f)
  {
    if profile.Some? && Valid(f, isUrl) then Some((profile.value.id, Payload(f))) else None
  }

  /** A successful update closes the dialog and keeps the form as it was. */
  function UpdateSucceeded(st: DialogState): (r: DialogState)
    ensures !r.open && r.form == st.form && r.preview == st.preview
  {
    st.(open := false)
  }
}

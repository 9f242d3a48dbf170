/** The profile form of src/pages/SettingsPage.jsx: loading the form from
    the profile, choosing and removing an avatar, and the submit that builds
    the profile update. The avatar upload and the profile write are
    parameters. */
module Settings {
  import opened Common
  import opened ChatInput

  const MaxAvatarSize: int := 5 * 1024 * 1024

  const AvatarTooLarge: string := "Kích thước ảnh quá lớn. Vui lòng chọn ảnh nhỏ hơn 5MB"
  const NameRequired: string := "Vui lòng nhập tên hiển thị"
  const AvatarUploadDefault: string := "Lỗi khi upload ảnh đại diện"
  const UpdateDefault: string := "Có lỗi xảy ra khi cập nhật thông tin"
  const SuccessTitle: string := "Thành công"
  const SuccessMessage: string := "Cập nhật thông tin thành công!"

  /** The profile fields the form reads. */
  datatype Profile = Profile(displayName: Option<string>, bio: Option<string>, photoURL: Option<string>)

  /** The record passed to `updateDoc` (SettingsPage.jsx:94-104). */
  datatype ProfileUpdate = ProfileUpdate(displayName: string, bio: string, photoURL: Option<string>)

  /** The preview shown without a chosen avatar: the profile photo, else the
      account photo, else none (SettingsPage.jsx:35, 75). */
  function StoredPhoto(profilePhoto: Option<string>, authPhoto: Option<string>): (r: Option<string>)
    ensures r.Some? ==> r.value != ""
    ensures Truthy(profilePhoto) ==> r == profilePhoto
    ensures !Truthy(profilePhoto) && Truthy(authPhoto) ==> r == authPhoto
    ensures !Truthy(profilePhoto) && !Truthy(authPhoto) ==> r.None?
  {
    if Truthy(profilePhoto) then profilePhoto else if Truthy(authPhoto) then authPhoto else None
  }

  /** The update a valid submit writes: trimmed name and bio, and the photo
      only when an avatar was uploaded. */
  function UpdateFor(displayName: string, bio: string, avatarURL: Option<string>): (u: ProfileUpdate)
    requires !IsBlank(displayName)
    ensures u.displayName != "" && u.displayName == Trim(displayName) && u.bio == Trim(bio)
    ensures u.photoURL == avatarURL
  {
    ProfileUpdate(Trim(displayName), Trim(bio), avatarURL)
  }

  /** Submitting the stored values again writes the same name and bio. */
  lemma {:induction false} UpdateIsStable(displayName: string, bio: string, avatarURL: Option<string>)
    requires !IsBlank(displayName)
    ensures var u := UpdateFor(displayName, bio, avatarURL);
            !IsBlank(u.displayName) && UpdateFor(u.displayName, u.bio, None) == u.(photoURL := None)
  {
    TrimTwice(displayName);
    TrimTwice(bio);
  }

  /** What `handleSubmit` (SettingsPage.jsx:78-148) does: the update it
      writes, if any, the alert it raises, if any, and whether it clears the
      chosen avatar. `hasAvatar` says whether an avatar was chosen, `upload`
      what its upload did, `updateError` the message the profile write
      failed with, if it failed. */
  datatype SubmitEffects = SubmitEffects(written: Option<ProfileUpdate>, alert: Option<Alert>, clearsAvatar: bool)

  function SubmitOutcome(signedIn: bool, displayName: string, bio: string, hasAvatar: bool,
                         upload: Upload, updateError: Option<string>): (o: SubmitEffects)
    ensures !signedIn ==> o == SubmitEffects(None, None, false)
    ensures signedIn && IsBlank(displayName) ==> o == SubmitEffects(None, Some(Alert(ErrorTitle, NameRequired)), false)
    ensures signedIn && !IsBlank(displayName) && hasAvatar && upload.UploadThrew? ==>
      o == SubmitEffects(None, Some(Alert(ErrorTitle, if upload.message != "" then upload.message else AvatarUploadDefault)), false)
    ensures o.written.Some? <==> signedIn && !IsBlank(displayName) && (hasAvatar ==> upload.Uploaded?)
    ensures o.written.Some? ==>
      o.written.value == UpdateFor(displayName, bio, if hasAvatar then Some(upload.url) else None)
    ensures o.written.Some? && updateError.None? ==> o.clearsAvatar && o.alert == Some(Alert(SuccessTitle, SuccessMessage))
    ensures o.written.Some? && updateError.Some? ==>
      !o.clearsAvatar && o.alert == Some(Alert(ErrorTitle, if updateError.value != "" then updateError.value else UpdateDefault))
  {
    if !signedIn then SubmitEffects(None, None, false)
    else if IsBlank(displayName) then SubmitEffects(None, Some(Alert(ErrorTitle, NameRequired)), false)
    else if hasAvatar && upload.UploadThrew? then
      var m := upload.message;
      SubmitEffects(None, Some(Alert(ErrorTitle, if m != "" then m else AvatarUploadDefault)), false)
    else
      var update := UpdateFor(displayName, bio, if hasAvatar then Some(upload.url) else None);
      match updateError
      case None => SubmitEffects(Some(update), Some(Alert(SuccessTitle, SuccessMessage)), true)
      case Some(m) => SubmitEffects(Some(update), Some(Alert(ErrorTitle, if m != "" then m else UpdateDefault)), false)
  }

  class ProfileForm {
    var displayName: string
    var bio: string
    var avatarPreview: Option<string>
    var selectedAvatar: Option<FileInfo>
    var alert: Option<Alert>

    constructor()
      ensures displayName == "" && bio == "" && avatarPreview.None? && selectedAvatar.None? && alert.None?
    {
      displayName, bio := "", "";
      avatarPreview, selectedAvatar, alert := None, None, None;
    }

    /** The effect that fills the form from the profile (SettingsPage.jsx:29-37). */
    method Load(profile: Option<Profile>, authPhoto: Option<string>)
      modifies this
      ensures profile.None? ==> unchanged(this)
      ensures profile.Some? ==>
        && displayName == OrElse(profile.value.displayName, "") && bio == OrElse(profile.value.bio, "")
        && avatarPreview == StoredPhoto(profile.value.photoURL, authPhoto)
        && selectedAvatar == old(selectedAvatar) && alert == old(alert)
    {
      if profile.Some? {
        displayName := OrElse(profile.value.displayName, "");
        bio := OrElse(profile.value.bio, "");
        avatarPreview := StoredPhoto(profile.value.photoURL, authPhoto);
      }
    }

    /** `handleAvatarSelect` (SettingsPage.jsx:39-71): too large or of the
        wrong type, the choice is refused with an alert and the selection is
        kept; `dataURL` is what the reader produces for the preview. */
    method SelectAvatar(file: Option<FileInfo>, dataURL: string)
      modifies this
      ensures file.None? ==> unchanged(this)
      ensures file.Some? && file.value.size > MaxAvatarSize ==>
        selectedAvatar == old(selectedAvatar) && avatarPreview == old(avatarPreview)
        && alert == Some(Alert(ErrorTitle, AvatarTooLarge))
      ensures file.Some? && file.value.size <= MaxAvatarSize && !AllowedImageType(file.value.mime) ==>
        selectedAvatar == old(selectedAvatar) && avatarPreview == old(avatarPreview)
        && alert == Some(Alert(ErrorTitle, BadImageType))
      ensures file.Some? && file.value.size <= MaxAvatarSize && AllowedImageType(file.value.mime) ==>
        selectedAvatar == file && avatarPreview == Some(dataURL) && alert == old(alert)
      ensures displayName == old(displayName) && bio == old(bio)
    {
      if file.None? {
        return;
      }
      var f := file.value;
      if f.size > MaxAvatarSize {
        alert := Some(Alert(ErrorTitle, AvatarTooLarge));
        return;
      }
      if !AllowedImageType(f.mime) {
        alert := Some(Alert(ErrorTitle, BadImageType));
        return;
      }
      selectedAvatar := file;
      avatarPreview := Some(dataURL);
    }

    /** `handleRemoveAvatar` (SettingsPage.jsx:73-76). */
    method RemoveAvatar(profilePhoto: Option<string>, authPhoto: Option<string>)
      modifies this
      ensures selectedAvatar.None? && avatarPreview == StoredPhoto(profilePhoto, authPhoto)
      ensures displayName == old(displayName) && bio == old(bio) && alert == old(alert)
    {
      selectedAvatar := None;
      avatarPreview := StoredPhoto(profilePhoto, authPhoto);
    }

    /** `handleSubmit` (SettingsPage.jsx:78-148): applies `SubmitOutcome`
        to the form. `written` is the update passed to the write, if any. */
    method Submit(signedIn: bool, upload: Upload, updateError: Option<string>) returns (written: Option<ProfileUpdate>)
      modifies this
      ensures var o := SubmitOutcome(signedIn, old(displayName), old(bio), old(selectedAvatar).Some?, upload, updateError);
              && written == o.written
              && alert == (if o.alert.Some? then o.alert else old(alert))
              && selectedAvatar == (if o.clearsAvatar then None else old(selectedAvatar))
      ensures displayName == old(displayName) && bio == old(bio) && avatarPreview == old(avatarPreview)
    {
      var o := SubmitOutcome(signedIn, displayName, bio, selectedAvatar.Some?, upload, updateError);
      written := o.written;
      if o.alert.Some? {
        alert := o.alert;
      }
      if o.clearsAvatar {
        selectedAvatar := None;
      }
    }
  }
}

/** src/components/pages/Profile.jsx: the avatar upload check, the profile
    update form, cancelling an edit and the fallback avatar letter. */
module Profile {
  import opened Wrappers
  import opened Json
  import opened Http
  import opened Ui
  import opened Text
  import opened Browser

  /** The profile as the server sends it. `username` may be null (`None`);
      the other fields are whatever JSON the server stored, null included. */
  datatype UserProfile = UserProfile(
    username: Option<string>,
    email: Value,
    phone: Value,
    bio: Value,
    favoriteGenre: Value,
    avatar: Value)

  const ProfilePath := "/profile/"

  /** The image types the avatar input accepts (Profile.jsx:63). */
  const AvatarTypes: seq<string> := ["image/jpeg", "image/png", "image/gif"]

  /** The largest accepted avatar, in bytes: 2 MiB (Profile.jsx:68). */
  const MaxAvatarSize := 2 * 1024 * 1024

  /** The outcome of the avatar check. */
  datatype AvatarCheck = Accepted | WrongType | TooLarge

  /** The checks of `handleFileChange` in their order: the type first, then
      the size. A file is accepted exactly when both pass, and a file failing
      both is reported for its type. */
  function CheckAvatar(file: File): (r: AvatarCheck)
    ensures r == Accepted <==> file.mime in AvatarTypes && file.size <= 2097152
    ensures file.mime !in AvatarTypes ==> r == WrongType
    ensures r == TooLarge <==> file.mime in AvatarTypes && file.size > 2097152
  {
    if file.mime !in AvatarTypes then WrongType
    else if file.size > MaxAvatarSize then TooLarge
    else Accepted
  }

  /** The size limit is inclusive: a 2 MiB image passes, one byte more fails. */
  lemma SizeBoundary(name: string)
    ensures CheckAvatar(File(name, "image/png", 2097152)) == Accepted
    ensures CheckAvatar(File(name, "image/png", 2097153)) == TooLarge
    ensures CheckAvatar(File(name, "image/webp", 2097153)) == WrongType
  {
  }

  /** The multipart entries of the update (Profile.jsx:80-86): phone, bio and
      favourite genre as `String(...)` of their values, then the avatar only
      when one was picked. Username and email are never sent. */
  function ProfileEntries(profile: UserProfile, avatarFile: Option<File>): (r: seq<(string, Part)>)
    ensures |r| == 3 || |r| == 4
    ensures r[..3] == [("phone", Text(JsString(profile.phone))), ("bio", Text(JsString(profile.bio))),
                       ("favorite_genre", Text(JsString(profile.favoriteGenre)))]
    ensures |r| == 4 <==> avatarFile.Some?
    ensures |r| == 4 ==> r[3] == ("avatar", Blob(avatarFile.value))
    ensures forall i :: 0 <= i < |r| ==> r[i].0 != "username" && r[i].0 != "email"
  {
    [("phone", Text(JsString(profile.phone))), ("bio", Text(JsString(profile.bio))),
     ("favorite_genre", Text(JsString(profile.favoriteGenre)))]
    + (if avatarFile.Some? then [("avatar", Blob(avatarFile.value))] else [])
  }

  /** A field the server left null goes out as the text "null". */
  lemma NullFieldSentAsText(profile: UserProfile)
    requires profile.bio == Null
    ensures ProfileEntries(profile, None)[1] == ("bio", Text("null"))
  {
  }

  /** `profile.username?.charAt(0).toUpperCase() || '?'`: the first letter
      of the username in capitals, or "?" when there is no username or it is
      empty. */
  function FallbackInitial(username: Option<string>): (r: string)
    ensures |r| == 1
    ensures username.None? || username.value == "" ==> r == "?"
    ensures username.Some? && username.value != "" ==> r == [UpperChar(username.value[0])]
    ensures !('a' <= r[0] <= 'z')
  {
    if username.Some? && username.value != "" then [UpperChar(username.value[0])] else "?"
  }

  /** The page's state. Each handler takes the settled result of its call and
      returns the calls it hands to the client and the toasts it shows. */
  class ProfilePage {
    const window: Window
    var profile: UserProfile
    var avatarFile: Option<File>
    var isLoading: bool
    var isEditing: bool
    var avatarPreview: string
    var avatarError: bool

    constructor (window: Window, profile: UserProfile)
      ensures this.window == window
      ensures this.profile == profile && avatarFile == None && !isLoading && !isEditing
      ensures avatarPreview == "" && !avatarError
    {
      this.window := window;
      this.profile := profile;
      avatarFile, isLoading, isEditing := None, false, false;
      avatarPreview, avatarError := "", false;
    }

    /** `fetchProfile` (lines 38-53): a GET of the profile. Success shows the
        server's profile and clears the avatar error; any failure keeps the
        profile and shows one toast, and a 401 also leads to the login page. */
    method FetchProfile(reply: Reply<UserProfile>) returns (calls: seq<ApiCall>, toasts: seq<Toast>)
      modifies this`profile, this`avatarError, this`isLoading, window`route
      ensures calls == [ApiCall(Get, ProfilePath, NoBody)] && !isLoading
      ensures window.storage == old(window.storage)
      ensures reply.Resolved? ==>
                && profile == reply.value && !avatarError && toasts == []
                && window.route == old(window.route)
      ensures reply.Rejected? ==>
                && profile == old(profile) && avatarError == old(avatarError)
                && toasts == [ErrorToast("Failed to load profile")]
                && window.route == (if Status(reply.error) == Some(401) then "/login" else old(window.route))
    {
      isLoading := true;
      calls := [ApiCall(Get, ProfilePath, NoBody)];
      if reply.Resolved? {
        profile := reply.value;
        avatarError := false;
        toasts := [];
      } else {
        if Status(reply.error) == Some(401) {
          window.Navigate("/login");
        }
        toasts := [ErrorToast("Failed to load profile")];
      }
      isLoading := false;
    }

    /** `handleFileChange` (lines 60-74); `files` is the input's file list.
        No file changes nothing; a rejected file leaves the chosen avatar as
        it was and says why; an accepted file becomes the chosen avatar. */
    method HandleFileChange(files: seq<File>) returns (toasts: seq<Toast>)
      modifies this`avatarFile
      ensures files == [] ==> avatarFile == old(avatarFile) && toasts == []
      ensures files != [] && CheckAvatar(files[0]) == WrongType ==>
                avatarFile == old(avatarFile) && toasts == [ErrorToast("Only JPG, PNG or GIF images are allowed")]
      ensures files != [] && CheckAvatar(files[0]) == TooLarge ==>
                avatarFile == old(avatarFile) && toasts == [ErrorToast("Image must be less than 2MB")]
      ensures files != [] && CheckAvatar(files[0]) == Accepted ==>
                avatarFile == Some(files[0]) && toasts == []
    {
      toasts := [];
      if files != [] {
        var file := files[0];
        if file.mime !in AvatarTypes {
          toasts := [ErrorToast("Only JPG, PNG or GIF images are allowed")];
          return;
        }
        if file.size > MaxAvatarSize {
          toasts := [ErrorToast("Image must be less than 2MB")];
          return;
        }
        avatarFile := Some(file);
      }
    }

    /** `handleSubmit` (lines 76-104). On success the page shows the saved
        profile and leaves edit mode with the avatar choice cleared; on
        failure nothing but the loading flag changes. */
    method HandleSubmit(reply: Reply<UserProfile>) returns (calls: seq<ApiCall>, toasts: seq<Toast>)
      modifies this
      ensures calls == [ApiCall(Put, ProfilePath, FormBody(ProfileEntries(old(profile), old(avatarFile))))]
      ensures !isLoading
      ensures reply.Resolved? ==>
                && profile == reply.value && Cleared()
                && toasts == [SuccessToast("Profile updated successfully")]
      ensures reply.Rejected? ==>
                && profile == old(profile) && avatarFile == old(avatarFile) && isEditing == old(isEditing)
                && avatarPreview == old(avatarPreview) && avatarError == old(avatarError)
                && toasts == [ErrorToast("Update failed")]
    {
      isLoading := true;
      var data := new FormData();
      data.Append("phone", Text(JsString(profile.phone)));
      data.Append("bio", Text(JsString(profile.bio)));
      data.Append("favorite_genre", Text(JsString(profile.favoriteGenre)));
      if avatarFile.Some? {
        data.Append("avatar", Blob(avatarFile.value));
      }
      assert data.entries == ProfileEntries(profile, avatarFile);
      calls := [ApiCall(Put, ProfilePath, FormBody(data.entries))];
      if reply.Resolved? {
        profile := reply.value;
        avatarFile, avatarPreview, avatarError, isEditing := None, "", false, false;
        toasts := [SuccessToast("Profile updated successfully")];
      } else {
        toasts := [ErrorToast("Update failed")];
      }
      isLoading := false;
    }

    /** Out of edit mode, with no avatar chosen, previewed or failing. */
    predicate Cleared()
      reads this
    {
      !isEditing && avatarFile == None && avatarPreview == "" && !avatarError
    }

    /** The Cancel button (lines 268-273). */
    method Cancel()
      modifies this`isEditing, this`avatarFile, this`avatarPreview, this`avatarError
      ensures Cleared()
    {
      isEditing := false;
      avatarFile := None;
      avatarPreview := "";
      avatarError := false;
    }
  }
}

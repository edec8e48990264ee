/**
  The profile editor: loading the stored user with the locally stored
  avatar laid over it, editing one text field at a time, picking an
  avatar, and sending the text fields (never the avatar) to the server.
  Source: screens/EditProfileScreen/EditProfileScreen.js.
 */
module EditProfile {
  import opened Js
  import opened Records

  const VendorRole := "Vendor"

  /** The form state. `id` and `avatar` are None while they are undefined. */
  datatype Profile = Profile(
    id: Option<string>,
    name: string,
    email: string,
    phone: string,
    role: string,
    avatar: Option<string>)

  /** The form before anything is loaded: role 'Vendor', every other field empty. */
  const InitialProfile := Profile(None, "", "", "", VendorRole, Some(""))

  /** The stored 'user' record taken as the whole form; it carries no avatar. */
  function ProfileOf(u: User): (p: Profile)
    ensures p.id == Some(u.id) && p.avatar == None
    ensures p.name == u.name && p.email == u.email && p.phone == u.phone && p.role == u.role
  {
    Profile(Some(u.id), u.name, u.email, u.phone, u.role, None)
  }

  /** What `loadProfile` ends with: the stored user, with a truthy stored avatar laid over its avatar only. */
  function LoadedProfile(u: User, storedAvatar: Option<string>): (p: Profile)
    ensures p.(avatar := None) == ProfileOf(u)
    ensures p.avatar == (if Present(storedAvatar) then storedAvatar else None)
  {
    var base := ProfileOf(u);
    if Present(storedAvatar) then base.(avatar := storedAvatar) else base
  }

  // ---------------------------------------------------------------------
  // Editing (lines 57-59)

  /** The fields the text inputs edit. */
  datatype Field = Name | Email | Phone

  function FieldValue(p: Profile, f: Field): string {
    match f
    case Name => p.name
    case Email => p.email
    case Phone => p.phone
  }

  /** `{ ...profile, [field]: value }`. */
  function SetField(p: Profile, f: Field, v: string): (q: Profile)
    ensures FieldValue(q, f) == v
    ensures forall g :: g != f ==> FieldValue(q, g) == FieldValue(p, g)
    ensures q.id == p.id && q.role == p.role && q.avatar == p.avatar
  {
    match f
    case Name => p.(name := v)
    case Email => p.(email := v)
    case Phone => p.(phone := v)
  }

  /** Setting a field to the value it already holds changes nothing; setting it twice keeps the last value. */
  lemma SetFieldLaws(p: Profile, f: Field, v: string, w: string)
    ensures SetField(p, f, FieldValue(p, f)) == p
    ensures SetField(SetField(p, f, v), f, w) == SetField(p, f, w)
  {
  }

  // ---------------------------------------------------------------------
  // The update request (lines 65-71)

  datatype UpdatePayload = UpdatePayload(name: string, email: string, phone: string, role: string)

  function PayloadOf(p: Profile): UpdatePayload {
    UpdatePayload(p.name, p.email, p.phone, p.role)
  }

  /**
    The payload is a function of the four text fields alone: two forms
    that agree on them send the same request, whatever their id or avatar.
   */
  lemma PayloadIgnoresAvatar(p: Profile, q: Profile)
    ensures PayloadOf(p) == PayloadOf(q) <==>
      p.name == q.name && p.email == q.email && p.phone == q.phone && p.role == q.role
  {
  }

  /** An edit shows up in the next payload, and only in its own field. */
  lemma EditReachesPayload(p: Profile, f: Field, v: string)
    ensures var d := PayloadOf(SetField(p, f, v));
      && (f == Name ==> d == PayloadOf(p).(name := v))
      && (f == Email ==> d == PayloadOf(p).(email := v))
      && (f == Phone ==> d == PayloadOf(p).(phone := v))
  {
  }

  /** How the image picker came back. */
  datatype PickResult = PickCancelled | PickFailed | Picked(uri: string)

  // ---------------------------------------------------------------------
  // The screen

  class EditProfileScreen {
    var profile: Profile
    var loading: bool
    var storedUser: Option<User>      // AsyncStorage 'user'
    var storedAvatar: Option<string>  // AsyncStorage 'avatar'

    constructor (storedUser: Option<User>, storedAvatar: Option<string>)
      ensures profile == InitialProfile && !loading
      ensures this.storedUser == storedUser && this.storedAvatar == storedAvatar
    {
      profile, loading := InitialProfile, false;
      this.storedUser, this.storedAvatar := storedUser, storedAvatar;
    }

    /** `loadProfile` on mount; without a stored user the form keeps its initial values. */
    method LoadProfile()
      modifies this`profile
      ensures profile == (if storedUser.Some? then LoadedProfile(storedUser.value, storedAvatar) else old(profile))
    {
      if storedUser.Some? {
        profile := ProfileOf(storedUser.value);
        if storedAvatar.Some? && storedAvatar.value != "" {
          profile := profile.(avatar := storedAvatar);
        }
      }
    }

    /** `handleChange(field, value)`. */
    method HandleChange(f: Field, v: string)
      modifies this`profile
      ensures profile == SetField(old(profile), f, v)
    {
      profile := SetField(profile, f, v);
    }

    /** `handleSelectImage`: a picked image becomes the avatar, on the form and in storage. */
    method HandleSelectImage(result: PickResult)
      modifies this`profile, this`storedAvatar
      ensures result.Picked? ==> profile == old(profile).(avatar := Some(result.uri)) && storedAvatar == Some(result.uri)
      ensures !result.Picked? ==> profile == old(profile) && storedAvatar == old(storedAvatar)
    {
      if result.Picked? {
        profile := profile.(avatar := Some(result.uri));
        storedAvatar := Some(result.uri);
      }
    }

    /** `handleUpdateProfile` up to the request: `loading` is raised and the id and payload are sent. */
    method BeginUpdate() returns (userId: Option<string>, payload: UpdatePayload)
      modifies this`loading
      ensures loading
      ensures userId == profile.id && payload == PayloadOf(profile)
    {
      loading := true;
      userId := profile.id;
      payload := UpdatePayload(profile.name, profile.email, profile.phone, profile.role);
    }

    /** After the request: the stored user is replaced only on `success`; `loading` is cleared in every case. */
    method FinishUpdate(reply: Reply<AuthResponse>)
      modifies this`storedUser, this`loading
      ensures !loading
      ensures storedUser == (if reply.Returned? && reply.value.success then Some(reply.value.user) else old(storedUser))
    {
      if reply.Returned? && reply.value.success {
        storedUser := Some(reply.value.user);
      }
      loading := false;
    }
  }
}

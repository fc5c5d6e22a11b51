/**
 * The signed-in user's avatar (src/components/realtime/CurrentUserAvatar.tsx):
 * the display name chosen from the profile and the email, the initials
 * drawn when there is no picture, and the optional label. The profile
 * lookup is not modelled: its result is a parameter.
 */
module CurrentUserAvatar {
  import opened Wrappers
  import opened Users
  import opened Text

  /** The profile fields the avatar reads; both may be missing. */
  datatype Profile = Profile(username: Option<string>, avatarUrl: Option<string>)

  /** `profile?.username || user.email?.split('@')[0] || 'User'`. */
  function DisplayName(profile: Option<Profile>, email: Option<string>): (name: string)
    ensures name != []
    ensures profile.Some? && Truthy(profile.value.username) ==> name == profile.value.username.value
    ensures !(profile.Some? && Truthy(profile.value.username)) && email.Some? && BeforeFirst(email.value, '@') != [] ==>
      name == BeforeFirst(email.value, '@')
    ensures !(profile.Some? && Truthy(profile.value.username)) && (email.None? || BeforeFirst(email.value, '@') == []) ==>
      name == "User"
  {
    var username := if profile.Some? then profile.value.username else None;
    var local := if email.Some? then Some(BeforeFirst(email.value, '@')) else None;
    if Truthy(username) then username.value else Or(local, "User")
  }

  /** The local part is used only when it is non-empty, so an email that
      starts with '@' falls through to 'User'. */
  lemma DisplayNameFallsThrough(profile: Option<Profile>, email: string)
    requires profile.None? || !Truthy(profile.value.username)
    requires email != [] && email[0] == '@'
    ensures DisplayName(profile, Some(email)) == "User"
  {
  }

  /** The initials of a display name: its first two word starts
      (white space and dots separate words), upper-cased, or '??' when the
      name holds no word at all. */
  function AvatarInitials(displayName: string): (initials: string)
    ensures 1 <= |initials| <= 2
    ensures (forall i :: 0 <= i < |displayName| ==> IsSpaceOrDot(displayName[i])) ==> initials == "??"
    ensures (exists i :: 0 <= i < |displayName| && !IsSpaceOrDot(displayName[i])) ==>
      initials == Take(Upper(WordStarts(displayName, IsSpaceOrDot, true)), 2) && NoLower(initials)
  {
    var computed := Initials(displayName, IsSpaceOrDot);
    if computed != [] then computed else "??"
  }

  /** What is drawn: the picture if the profile has one (else the
      initials), with the display name as its alternative text, and the
      label when asked for. A missing email renders as nothing. */
  datatype AvatarView = AvatarView(image: Option<string>, initials: string, altText: string, caption: Option<string>)

  function Render(user: Option<User>, profile: Option<Profile>, showEmail: bool, showUsername: bool): (view: Option<AvatarView>)
    ensures view.None? <==> user.None?
    ensures view.Some? ==> view.value.altText == DisplayName(profile, user.value.email)
    ensures view.Some? ==> view.value.initials == AvatarInitials(view.value.altText)
    ensures view.Some? ==>
      (view.value.image.Some? <==> profile.Some? && Truthy(profile.value.avatarUrl))
    ensures view.Some? ==> (view.value.caption.Some? <==> showEmail || showUsername)
    ensures view.Some? && view.value.caption.Some? ==>
      view.value.caption.value ==
        if showUsername && profile.Some? && Truthy(profile.value.username) then profile.value.username.value
        else if user.value.email.Some? then user.value.email.value else ""
  {
    match user
    case None => None
    case Some(u) =>
      var name := DisplayName(profile, u.email);
      var image := if profile.Some? && Truthy(profile.value.avatarUrl) then profile.value.avatarUrl else None;
      var shownName := if showUsername && profile.Some? && Truthy(profile.value.username) then profile.value.username.value
                       else u.email.GetOr("");
      Some(AvatarView(image, AvatarInitials(name), name, if showEmail || showUsername then Some(shownName) else None))
  }
}

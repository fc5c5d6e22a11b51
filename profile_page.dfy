/**
 * The profile page (src/app/profile/page.tsx): loading the profile into the
 * form, saving it (username validation, empty fields written as null, and
 * the mapping of failures to messages), uploading a new avatar to a path
 * built from the user id, a random number and the file extension, and the
 * initials shown when there is no avatar. The database and the storage
 * bucket are not modelled: their replies arrive as parameters, as do the
 * random number and the firing of the success timer.
 */
module ProfilePage {
  import opened Wrappers
  import opened Users
  import opened Text

  /** The form's state variables. */
  datatype ProfileState = ProfileState(
    username: string, avatarUrl: string, loading: bool, saving: bool, error: string, success: bool)

  const InitialProfileState := ProfileState("", "", false, false, "", false)

  /** A database error, as far as the page looks at it. */
  datatype DbError = DbError(code: Option<string>)

  /** A row of `user_profiles`. */
  datatype ProfileRow = ProfileRow(username: Option<string>, avatarUrl: Option<string>)

  /** The reply to the profile query: data and error, or a thrown exception. */
  datatype FetchReply = FetchResult(data: Option<ProfileRow>, error: Option<DbError>) | FetchThrew

  /** The reply to the upsert: an error or none, or a thrown exception. */
  datatype UpsertReply = UpsertResult(error: Option<DbError>) | UpsertThrew

  /** The reply to the storage upload: the public URL of the stored file, or
      a failure. */
  datatype UploadReply = Uploaded(publicUrl: string) | UploadFailed

  /** The row written by a save. */
  datatype ProfileWrite = ProfileWrite(userId: string, username: Option<string>, avatarUrl: Option<string>)

  const NotFound := "PGRST116"
  const UniqueViolation := "23505"
  const TooShortMessage := "Username must be at least 3 characters long"
  const TakenMessage := "This username is already taken"
  const SaveFailedMessage := "Failed to update profile"
  const UploadFailedMessage := "Failed to upload avatar"

  // ---------------------------------------------------------------------
  // fetchProfile
  // ---------------------------------------------------------------------

  /** A reply fills the form only when it is not an error other than
      "not found" and it carries a row. */
  predicate FillsForm(reply: FetchReply) {
    reply.FetchResult? && (reply.error.None? || reply.error.value.code == Some(NotFound)) && reply.data.Some?
  }

  /** The state after `fetchProfile` finishes. Without a user nothing
      happens. An error other than "not found" is logged and changes
      nothing but the loading flag; a row fills the form, missing fields
      becoming empty. */
  function Fetched(s: ProfileState, user: Option<User>, reply: FetchReply): (r: ProfileState)
    ensures user.None? ==> r == s
    ensures user.Some? ==> !r.loading && r.error == s.error && r.saving == s.saving && r.success == s.success
    ensures user.Some? && FillsForm(reply) ==>
      r.username == Or(reply.data.value.username, "") && r.avatarUrl == Or(reply.data.value.avatarUrl, "")
    ensures user.Some? && !FillsForm(reply) ==> r == s.(loading := false)
  {
    if user.None? then s
    else if reply.FetchThrew? then s.(loading := false)
    else if reply.error.Some? && reply.error.value.code != Some(NotFound) then s.(loading := false)
    else if reply.data.Some? then
      s.(username := Or(reply.data.value.username, ""), avatarUrl := Or(reply.data.value.avatarUrl, ""), loading := false)
    else s.(loading := false)
  }

  /** "Not found" is no error: with the same data it has the effect of a
      reply without any error, while any other error code leaves the form
      as it was. */
  lemma NotFoundIsNoError(s: ProfileState, u: User, data: Option<ProfileRow>, code: Option<string>)
    ensures Fetched(s, Some(u), FetchResult(data, Some(DbError(Some(NotFound))))) == Fetched(s, Some(u), FetchResult(data, None))
    ensures code != Some(NotFound) ==>
      Fetched(s, Some(u), FetchResult(data, Some(DbError(code)))) == Fetched(s, Some(u), FetchThrew)
  {
  }

  // ---------------------------------------------------------------------
  // updateProfile
  // ---------------------------------------------------------------------

  /** A non-empty username shorter than three characters is refused. */
  predicate UsernameTooShort(username: string) {
    username != "" && |username| < 3
  }

  /** `value || null` */
  function NullIfEmpty(value: string): (o: Option<string>)
    ensures o.None? <==> value == ""
    ensures o.Some? ==> o.value == value
  {
    if value == "" then None else Some(value)
  }

  /** The message a save ends with, given the reply to the upsert: none on
      success, the "taken" message for a unique violation, and the generic
      one for every other error or exception. */
  function SaveMessage(reply: UpsertReply): (message: string)
    ensures message == "" <==> reply.UpsertResult? && reply.error.None?
    ensures reply.UpsertResult? && reply.error.Some? && reply.error.value.code == Some(UniqueViolation) ==> message == TakenMessage
    ensures message != "" && message != TakenMessage ==> message == SaveFailedMessage
  {
    match reply
    case UpsertThrew => SaveFailedMessage
    case UpsertResult(None) => ""
    case UpsertResult(Some(e)) => if e.code == Some(UniqueViolation) then TakenMessage else SaveFailedMessage
  }

  /** `updateProfile`: the final state and the row written, if any. Without
      a user nothing happens. Otherwise the error is cleared and saving is
      false again at the end, whatever happened. A too-short username is
      refused before anything is written; otherwise the row is written with
      empty fields as null, and the reply decides the message and the
      success flag. */
  function Updated(s: ProfileState, user: Option<User>, reply: UpsertReply): (r: (ProfileState, Option<ProfileWrite>))
    ensures user.None? ==> r == (s, None)
    ensures user.Some? ==> !r.0.saving && r.0.username == s.username && r.0.avatarUrl == s.avatarUrl && r.0.loading == s.loading
    ensures user.Some? && UsernameTooShort(s.username) ==> r.1.None? && r.0.error == TooShortMessage && r.0.success == s.success
    ensures user.Some? && !UsernameTooShort(s.username) ==>
      (r.1 == Some(ProfileWrite(user.value.id, NullIfEmpty(s.username), NullIfEmpty(s.avatarUrl)))
       && r.0.error == SaveMessage(reply)
       && r.0.success == (s.success || SaveMessage(reply) == ""))
  {
    if user.None? then (s, None)
    else if UsernameTooShort(s.username) then (s.(error := TooShortMessage, saving := false), None)
    else
      var write := ProfileWrite(user.value.id, NullIfEmpty(s.username), NullIfEmpty(s.avatarUrl));
      var message := SaveMessage(reply);
      (s.(error := message, saving := false, success := s.success || message == ""), Some(write))
  }

  /** Validation wins over the database: a refused username gives the same
      outcome whatever the reply would have been, and a save ends with an
      empty error exactly when it was written and acknowledged. */
  lemma ValidationWins(s: ProfileState, u: User, reply: UpsertReply, other: UpsertReply)
    ensures UsernameTooShort(s.username) ==> Updated(s, Some(u), reply) == Updated(s, Some(u), other)
    ensures Updated(s, Some(u), reply).0.error == "" <==>
      !UsernameTooShort(s.username) && reply.UpsertResult? && reply.error.None?
  {
  }

  /** The save button is disabled while a save is under way. */
  predicate SaveDisabled(s: ProfileState) {
    s.saving
  }

  /** The `finally` block: once a signed-in user's save has finished, by
      refusal, failure or success, the button is enabled again; without a
      user the press changes nothing, so the button stays as it was. */
  lemma SaveEnabledAfterSave(s: ProfileState, user: Option<User>, reply: UpsertReply)
    ensures user.Some? ==> !SaveDisabled(Updated(s, user, reply).0)
    ensures user.None? ==> (SaveDisabled(Updated(s, user, reply).0) <==> SaveDisabled(s))
  {
  }

  /** `setTimeout(() => setSuccess(false), 3000)` fired. */
  function SuccessCleared(s: ProfileState): ProfileState {
    s.(success := false)
  }

  // ---------------------------------------------------------------------
  // uploadAvatar
  // ---------------------------------------------------------------------

  /** `avatars/${user?.id}-${random}.${ext}` where `ext` is what follows
      the last '.' of the file name (the whole name when it has none). */
  function AvatarPath(userId: Option<string>, random: string, fileName: string): string {
    "avatars/" + Interpolate(userId) + "-" + random + "." + AfterLast(fileName, '.')
  }

  /** The avatar path lies in the 'avatars/' folder, starts with the user
      id ('undefined' when there is no user) and keeps the file's
      extension. */
  lemma AvatarPathShape(userId: Option<string>, random: string, fileName: string)
    ensures "avatars/" + Interpolate(userId) + "-" <= AvatarPath(userId, random, fileName)
    ensures AfterLast(AvatarPath(userId, random, fileName), '.') == AfterLast(fileName, '.')
  {
    var head := "avatars/" + Interpolate(userId) + "-";
    var ext := AfterLast(fileName, '.');
    var path := AvatarPath(userId, random, fileName);
    assert path == (head + random) + "." + ext;
    assert path == head + (random + "." + ext);
    AfterLastIsLastPart(fileName, '.');
    AfterLastOfDotted(head + random, ext);
  }

  /** The extension of `stem + "." + ext` is `ext` when `ext` has no dot. */
  lemma {:induction false} AfterLastOfDotted(stem: string, ext: string)
    requires '.' !in ext
    ensures AfterLast(stem + "." + ext, '.') == ext
    decreases |ext|
  {
    var s := stem + "." + ext;
    if ext == [] {
      assert s[|s| - 1] == '.';
    } else {
      var shorter := ext[..|ext| - 1];
      assert s[..|s| - 1] == stem + "." + shorter;
      assert s[|s| - 1] == ext[|ext| - 1];
      AfterLastOfDotted(stem, shorter);
      assert AfterLastStart(s, '.') == AfterLastStart(stem + "." + shorter, '.');
    }
  }

  /** `uploadAvatar` with the first chosen file's name (`None` when no file
      was chosen, in which case nothing happens): the state afterwards and
      the storage path used. The error is set only on failure, and is not
      cleared on success. */
  function AvatarUploaded(s: ProfileState, userId: Option<string>, fileName: Option<string>, random: string, reply: UploadReply): (r: (ProfileState, Option<string>))
    ensures fileName.None? ==> r == (s, None)
    ensures fileName.Some? ==> r.1 == Some(AvatarPath(userId, random, fileName.value)) && !r.0.loading
    ensures fileName.Some? && reply.Uploaded? ==> r.0 == s.(avatarUrl := reply.publicUrl, loading := false)
    ensures fileName.Some? && reply.UploadFailed? ==> r.0 == s.(error := UploadFailedMessage, loading := false)
  {
    if fileName.None? then (s, None)
    else
      var path := AvatarPath(userId, random, fileName.value);
      match reply
      case Uploaded(url) => (s.(avatarUrl := url, loading := false), Some(path))
      case UploadFailed => (s.(error := UploadFailedMessage, loading := false), Some(path))
  }

  // ---------------------------------------------------------------------
  // getInitials
  // ---------------------------------------------------------------------

  /** `getInitials()`: the first two characters of the username, else of
      the email, upper-cased; '??' when both are empty or missing. */
  function GetInitials(username: string, email: Option<string>): (initials: string)
    ensures 1 <= |initials| <= 2 && NoLower(initials)
    ensures username != "" ==>
      (|initials| == Min(2, |username|) && forall i :: 0 <= i < |initials| ==> initials[i] == UpperChar(username[i]))
    ensures username == "" && Truthy(email) ==>
      (|initials| == Min(2, |email.value|) && forall i :: 0 <= i < |initials| ==> initials[i] == UpperChar(email.value[i]))
    ensures username == "" && !Truthy(email) ==> initials == "??"
  {
    if username != "" then Upper(Take(username, 2))
    else if Truthy(email) then Upper(Take(email.value, 2))
    else "??"
  }

  // ---------------------------------------------------------------------
  // The page's state
  // ---------------------------------------------------------------------

  class ProfileForm {
    var username: string
    var avatarUrl: string
    var loading: bool
    var saving: bool
    var error: string
    var success: bool

    function State(): ProfileState
      reads this
    {
      ProfileState(username, avatarUrl, loading, saving, error, success)
    }

    constructor ()
      ensures State() == InitialProfileState
    {
      username, avatarUrl, loading, saving, error, success := "", "", false, false, "", false;
    }

    method SetUsername(value: string)
      modifies this
      ensures State() == old(State()).(username := value)
    {
      username := value;
    }

    method FetchProfile(user: Option<User>, reply: FetchReply)
      modifies this
      ensures State() == Fetched(old(State()), user, reply)
    {
      if user.None? {
        return;
      }
      loading := true;
      if reply.FetchResult? && !(reply.error.Some? && reply.error.value.code != Some(NotFound)) {
        if reply.data.Some? {
          username := Or(reply.data.value.username, "");
          avatarUrl := Or(reply.data.value.avatarUrl, "");
        }
      }
      loading := false;
    }

    method UpdateProfile(user: Option<User>, reply: UpsertReply) returns (write: Option<ProfileWrite>)
      modifies this
      ensures (State(), write) == Updated(old(State()), user, reply)
    {
      if user.None? {
        return None;
      }
      error := "";
      saving := true;
      if username != "" && |username| < 3 {
        error := TooShortMessage;
        saving := false;
        return None;
      }
      write := Some(ProfileWrite(user.value.id, NullIfEmpty(username), NullIfEmpty(avatarUrl)));
      match reply {
        case UpsertThrew =>
          error := SaveFailedMessage;
        case UpsertResult(e) =>
          if e.Some? {
            if e.value.code == Some(UniqueViolation) {
              error := TakenMessage;
            } else {
              error := SaveFailedMessage;
            }
          } else {
            success := true;
          }
      }
      saving := false;
    }

    method SuccessTimerFired()
      modifies this
      ensures State() == SuccessCleared(old(State()))
    {
      success := false;
    }

    method UploadAvatar(userId: Option<string>, fileName: Option<string>, random: string, reply: UploadReply) returns (path: Option<string>)
      modifies this
      ensures State() == AvatarUploaded(old(State()), userId, fileName, random, reply).0
      ensures path == AvatarUploaded(old(State()), userId, fileName, random, reply).1
    {
      if fileName.None? {
        return None;
      }
      var p := AvatarPath(userId, random, fileName.value);
      path := Some(p);
      loading := true;
      if reply.Uploaded? {
        avatarUrl := reply.publicUrl;
      } else {
        error := UploadFailedMessage;
      }
      loading := false;
    }
  }
}

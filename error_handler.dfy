/**
 * The Supabase error helpers (src/lib/supabase/error-handler.ts): the
 * message shown for an error and the two classifications. The error may be
 * missing altogether (`null` or `undefined`), and so may each of its
 * fields. The console logging is left out.
 */
module ErrorHandler {
  import opened Wrappers
  import opened Text

  /** The fields the helpers read from an error object. */
  datatype SupabaseError = SupabaseError(message: Option<string>, code: Option<string>, statusCode: Option<int>)

  const AccessDeniedMessage := "Access denied. Please check your permissions."
  const MultipleResultsMessage := "Multiple results found. Please be more specific."
  const NotAcceptableMessage := "Request not acceptable. This may be due to Row Level Security policies."
  const ConflictMessage := "Conflict detected. The resource may already exist."
  const UnexpectedMessage := "An unexpected error occurred"

  const NoRowsCode := "PGRST116"
  const MultipleRowsCode := "PGRST301"

  /** `error?.code`, `error?.statusCode`, `error?.message`. */
  function CodeOf(error: Option<SupabaseError>): Option<string> {
    if error.Some? then error.value.code else None
  }

  function StatusOf(error: Option<SupabaseError>): Option<int> {
    if error.Some? then error.value.statusCode else None
  }

  function MessageOf(error: Option<SupabaseError>): Option<string> {
    if error.Some? then error.value.message else None
  }

  /** The message of the codes and statuses the helper knows, if any. */
  function KnownMessage(error: Option<SupabaseError>): Option<string> {
    if CodeOf(error) == Some(NoRowsCode) then Some(AccessDeniedMessage)
    else if CodeOf(error) == Some(MultipleRowsCode) then Some(MultipleResultsMessage)
    else if StatusOf(error) == Some(406) then Some(NotAcceptableMessage)
    else if StatusOf(error) == Some(409) then Some(ConflictMessage)
    else None
  }

  /** `handleSupabaseError`: the codes are tested first, then the statuses,
      and otherwise the error's own message is shown unless it is missing or
      empty. The result is never empty. */
  function HandleSupabaseError(error: Option<SupabaseError>): (message: string)
    ensures message != ""
    ensures CodeOf(error) == Some(NoRowsCode) ==> message == AccessDeniedMessage
    ensures CodeOf(error) == Some(MultipleRowsCode) ==> message == MultipleResultsMessage
    ensures CodeOf(error) != Some(NoRowsCode) && CodeOf(error) != Some(MultipleRowsCode) ==>
      (StatusOf(error) == Some(406) ==> message == NotAcceptableMessage)
      && (StatusOf(error) == Some(409) ==> message == ConflictMessage)
    ensures KnownMessage(error).None? ==>
      (Truthy(MessageOf(error)) ==> message == MessageOf(error).value)
      && (!Truthy(MessageOf(error)) ==> message == UnexpectedMessage)
  {
    if CodeOf(error) == Some(NoRowsCode) then AccessDeniedMessage
    else if CodeOf(error) == Some(MultipleRowsCode) then MultipleResultsMessage
    else if StatusOf(error) == Some(406) then NotAcceptableMessage
    else if StatusOf(error) == Some(409) then ConflictMessage
    else Or(MessageOf(error), UnexpectedMessage)
  }

  /** The shown message is one of the fixed texts or the error's own text. */
  lemma MessageSources(error: Option<SupabaseError>)
    ensures var m := HandleSupabaseError(error);
      m in {AccessDeniedMessage, MultipleResultsMessage, NotAcceptableMessage, ConflictMessage, UnexpectedMessage}
      || (MessageOf(error).Some? && m == MessageOf(error).value)
  {
  }

  /** A known code decides the message whatever the status and the text. */
  lemma CodeBeforeStatus(e: SupabaseError, statusCode: Option<int>, message: Option<string>)
    requires e.code == Some(NoRowsCode) || e.code == Some(MultipleRowsCode)
    ensures HandleSupabaseError(Some(e.(statusCode := statusCode, message := message))) == HandleSupabaseError(Some(e))
  {
  }

  /** A missing error gets the generic message. */
  lemma MissingErrorIsUnexpected()
    ensures HandleSupabaseError(None) == UnexpectedMessage
  {
  }

  /** `isAuthError`: status 401, or a message containing 'JWT'. When both
      fail the source returns `undefined` for a missing message, which is
      taken here as `false`. */
  predicate IsAuthError(error: Option<SupabaseError>) {
    StatusOf(error) == Some(401) || (MessageOf(error).Some? && Contains(MessageOf(error).value, "JWT"))
  }

  /** `isPermissionError`: status 403 or 406, or code 'PGRST116'. */
  predicate IsPermissionError(error: Option<SupabaseError>) {
    StatusOf(error) == Some(403) || StatusOf(error) == Some(406) || CodeOf(error) == Some(NoRowsCode)
  }

  /** A message with 'JWT' anywhere in it marks an authentication error,
      whatever the status. */
  lemma JwtMessageIsAuthError(e: SupabaseError, before: string, after: string)
    requires e.message == Some(before + "JWT" + after)
    ensures IsAuthError(Some(e))
  {
    var m := before + "JWT" + after;
    assert "JWT" <= m[|before|..];
    ContainsIff(m, "JWT");
  }

  /** A message without 'JWT' and a status other than 401 is not an
      authentication error. */
  lemma NoJwtNoAuthError(e: SupabaseError)
    requires e.statusCode != Some(401)
    requires e.message.Some? ==> forall k :: 0 <= k <= |e.message.value| ==> !("JWT" <= e.message.value[k..])
    ensures !IsAuthError(Some(e))
  {
    if e.message.Some? {
      ContainsIff(e.message.value, "JWT");
    }
  }

  /** The access-denied and row-level security texts come only from
      permission errors, and a permission error gets one of them unless it
      is a bare 403 or carries the 'PGRST301' code, which is tested first. */
  lemma PermissionMessages(error: Option<SupabaseError>)
    ensures IsPermissionError(error) && StatusOf(error) != Some(403) && CodeOf(error) != Some(MultipleRowsCode) ==>
      HandleSupabaseError(error) in {AccessDeniedMessage, NotAcceptableMessage}
    ensures KnownMessage(error) == Some(AccessDeniedMessage) || KnownMessage(error) == Some(NotAcceptableMessage) ==>
      IsPermissionError(error)
  {
  }
}

/**
 * The manual join page (src/app/join-manual/page.tsx): `handleJoin` checks
 * the code, then the user, then calls the `join_whiteboard_by_code` remote
 * procedure with the normalised code and turns its reply into a message
 * and, on success, a delayed navigation. The procedure call is not
 * modelled: its reply is a parameter.
 */
module JoinManualPage {
  import opened Wrappers
  import opened Users
  import opened Text

  datatype JoinState = JoinState(inviteCode: string, loading: bool, error: Option<string>, success: Option<string>)

  const InitialJoinState := JoinState("", false, None, None)

  /** The `data` object the procedure returns. */
  datatype JoinData = JoinData(success: bool, error: Option<string>, whiteboardId: Option<string>)

  /** The reply to the call: the procedure's error and data, or a thrown
      exception. */
  datatype RpcReply = RpcResult(joinError: bool, data: Option<JoinData>) | RpcThrew

  /** Where the router is sent: nowhere, or to a path after a delay in
      milliseconds (0 for an immediate push). */
  datatype Navigation = Stay | Push(path: string, delayMs: nat)

  /** What one press of the button leads to: the new state, the argument
      the procedure was called with (if it was called) and the navigation. */
  datatype JoinOutcome = JoinOutcome(state: JoinState, rpcArg: Option<string>, navigation: Navigation)

  const BlankMessage := "Please enter an invite code"
  const FailedMessage := "Failed to join whiteboard"
  const InvalidMessage := "Invalid invite code"
  const ExceptionMessage := "An error occurred"
  const SuccessMessage := "Successfully joined! Redirecting..."
  const RedirectDelayMs := 1000

  /** The procedure accepted the code. */
  predicate Accepted(reply: RpcReply) {
    reply.RpcResult? && !reply.joinError && reply.data.Some? && reply.data.value.success
  }

  /** The message a finished call leaves in `error`, and `None` on
      success. */
  function ReplyError(reply: RpcReply): (message: Option<string>)
    ensures message.None? <==> Accepted(reply)
    ensures reply.RpcThrew? ==> message == Some(ExceptionMessage)
    ensures reply.RpcResult? && reply.joinError ==> message == Some(FailedMessage)
    ensures reply.RpcResult? && !reply.joinError && !Accepted(reply) ==>
      message == Some(if reply.data.Some? && Truthy(reply.data.value.error) then reply.data.value.error.value else InvalidMessage)
  {
    match reply
    case RpcThrew => Some(ExceptionMessage)
    case RpcResult(joinError, data) =>
      if joinError then Some(FailedMessage)
      else if data.None? || !data.value.success then
        Some(if data.Some? then Or(data.value.error, InvalidMessage) else InvalidMessage)
      else None
  }

  /** `handleJoin`: a blank code only sets the "enter a code" message; a
      missing user only sends the router to '/auth'. Otherwise the messages
      are cleared, loading starts, and the procedure is called with the
      trimmed, upper-cased code. A failed call stops loading and sets the
      message; an accepted one sets the success message, keeps loading, and
      navigates to the whiteboard after a second. */
  function Joined(s: JoinState, user: Option<User>, reply: RpcReply): JoinOutcome {
    if Blank(s.inviteCode) then JoinOutcome(s.(error := Some(BlankMessage)), None, Stay)
    else if user.None? then JoinOutcome(s, None, Push("/auth", 0))
    else Called(s.(loading := true, error := None, success := None), Upper(Trim(s.inviteCode)), reply)
  }

  /** The awaited part of `handleJoin`: the procedure was called with `arg`
      from the state `started`, and its reply decides the rest. */
  function Called(started: JoinState, arg: string, reply: RpcReply): JoinOutcome {
    match reply
    case RpcThrew => JoinOutcome(started.(error := Some(ExceptionMessage), loading := false), Some(arg), Stay)
    case RpcResult(joinError, data) =>
      if joinError then JoinOutcome(started.(error := Some(FailedMessage), loading := false), Some(arg), Stay)
      else if data.None? || !data.value.success then
        JoinOutcome(started.(error := Some(if data.Some? then Or(data.value.error, InvalidMessage) else InvalidMessage),
                             loading := false), Some(arg), Stay)
      else
        JoinOutcome(started.(success := Some(SuccessMessage)), Some(arg),
                    Push("/whiteboard/" + Interpolate(data.value.whiteboardId), RedirectDelayMs))
  }

  /** What one press leads to, case by case: the guards, the argument of the
      call, the messages and loading flag after it, and the navigation,
      which leaves the page only towards '/auth' or an accepted whiteboard. */
  lemma JoinedEffects(s: JoinState, user: Option<User>, reply: RpcReply)
    ensures var r := Joined(s, user, reply);
      && (Blank(s.inviteCode) ==> r == JoinOutcome(s.(error := Some(BlankMessage)), None, Stay))
      && (!Blank(s.inviteCode) && user.None? ==> r == JoinOutcome(s, None, Push("/auth", 0)))
      && (!Blank(s.inviteCode) && user.Some? ==>
            r.rpcArg == Some(Upper(Trim(s.inviteCode)))
            && r.state.inviteCode == s.inviteCode
            && r.state.error == ReplyError(reply)
            && (r.state.success.Some? <==> Accepted(reply))
            && r.state.loading == Accepted(reply))
      && (!Blank(s.inviteCode) && user.Some? && Accepted(reply) ==>
            r.state.success == Some(SuccessMessage)
            && r.navigation == Push("/whiteboard/" + Interpolate(reply.data.value.whiteboardId), RedirectDelayMs))
      && (!Accepted(reply) || user.None? ==> r.navigation.Stay? || r.navigation == Push("/auth", 0))
  {
    if !Blank(s.inviteCode) && user.Some? {
      var started := s.(loading := true, error := None, success := None);
      assert Joined(s, user, reply) == Called(started, Upper(Trim(s.inviteCode)), reply);
      match reply
      case RpcThrew =>
      case RpcResult(joinError, data) =>
    }
  }

  /** The guards are checked in order: a blank code is reported even without
      a user, and neither guard calls the procedure. */
  lemma GuardOrder(s: JoinState, reply: RpcReply, other: RpcReply)
    requires Blank(s.inviteCode)
    ensures Joined(s, None, reply).state.error == Some(BlankMessage)
    ensures Joined(s, None, reply).navigation == Stay
    ensures Joined(s, None, reply) == Joined(s, None, other)
  {
  }

  /** The button is disabled while loading or while the code is blank. */
  predicate ButtonDisabled(s: JoinState) {
    s.loading || Blank(s.inviteCode)
  }

  /** After an accepted join the button stays disabled until the page is
      left; after any other finished call it is enabled again. */
  lemma ButtonAfterCall(s: JoinState, u: User, reply: RpcReply)
    requires !Blank(s.inviteCode)
    ensures ButtonDisabled(Joined(s, Some(u), reply).state) <==> Accepted(reply)
  {
  }

  /** The field upper-cases what is typed. */
  function CodeAfterInput(typed: string): (code: string)
    ensures |code| == |typed| && NoLower(code)
    ensures forall i :: 0 <= i < |typed| ==> code[i] == UpperChar(typed[i])
  {
    Upper(typed)
  }

  class ManualJoinForm {
    var inviteCode: string
    var loading: bool
    var error: Option<string>
    var success: Option<string>

    function State(): JoinState
      reads this
    {
      JoinState(inviteCode, loading, error, success)
    }

    constructor ()
      ensures State() == InitialJoinState
    {
      inviteCode, loading, error, success := "", false, None, None;
    }

    method OnCodeChange(typed: string)
      modifies this
      ensures State() == old(State()).(inviteCode := CodeAfterInput(typed))
    {
      inviteCode := Upper(typed);
    }

    method HandleJoin(user: Option<User>, reply: RpcReply) returns (rpcArg: Option<string>, navigation: Navigation)
      modifies this
      ensures State() == Joined(old(State()), user, reply).state
      ensures rpcArg == Joined(old(State()), user, reply).rpcArg
      ensures navigation == Joined(old(State()), user, reply).navigation
    {
      // `inviteCode.trim()` is empty exactly when the code is blank (TrimEmpty).
      if Blank(inviteCode) {
        error := Some(BlankMessage);
        return None, Stay;
      }
      if user.None? {
        return None, Push("/auth", 0);
      }
      loading := true;
      error := None;
      success := None;
      rpcArg, navigation := ApplyReply(Upper(Trim(inviteCode)), reply);
    }

    /** Everything after the procedure call, starting from the state in
        which the call was made. */
    method ApplyReply(arg: string, reply: RpcReply) returns (rpcArg: Option<string>, navigation: Navigation)
      modifies this
      ensures State() == Called(old(State()), arg, reply).state
      ensures rpcArg == Called(old(State()), arg, reply).rpcArg
      ensures navigation == Called(old(State()), arg, reply).navigation
    {
      rpcArg := Some(arg);
      navigation := Stay;
      if reply.RpcThrew? {
        error := Some(ExceptionMessage);
        loading := false;
        return;
      }
      if reply.joinError {
        error := Some(FailedMessage);
        loading := false;
        return;
      }
      var data := reply.data;
      if data.None? || !data.value.success {
        error := Some(if data.Some? then Or(data.value.error, InvalidMessage) else InvalidMessage);
        loading := false;
        return;
      }
      success := Some(SuccessMessage);
      navigation := Push("/whiteboard/" + Interpolate(data.value.whiteboardId), RedirectDelayMs);
    }
  }
}

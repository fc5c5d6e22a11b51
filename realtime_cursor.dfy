/**
 * Other users' cursors on a whiteboard (src/components/realtime/RealtimeCursor.tsx):
 * a map from user id to the latest cursor broadcast by that user, updated
 * by 'cursor' and 'user_left' events, and the payload this client
 * broadcasts for its own pointer. The broadcast channel is not modelled:
 * events arrive as method calls.
 */
module RealtimeCursor {
  import opened Wrappers
  import opened Users
  import opened Text

  datatype CursorPosition = CursorPosition(x: real, y: real, userId: string, userEmail: string, color: string)

  /** The eight cursor colours. */
  const UserColors: seq<string> :=
    ["#ef4444", "#f59e0b", "#10b981", "#3b82f6", "#8b5cf6", "#ec4899", "#06b6d4", "#84cc16"]

  /** `userColors[Math.floor(random * userColors.length)]`, for the value
      `random` that `Math.random()` returned (which lies in [0, 1)). */
  function PickColor(random: real): (color: string)
    requires 0.0 <= random < 1.0
    ensures color in UserColors
  {
    var i := (random * (|UserColors| as real)).Floor;
    UserColors[i]
  }

  /** Every palette colour can be chosen: entry `i` is picked for
      `random == i / 8`. */
  lemma EveryColorReachable(i: nat)
    requires i < |UserColors|
    ensures PickColor((i as real) / 8.0) == UserColors[i]
  {
    assert (i as real) / 8.0 * 8.0 == i as real;
  }

  /** The payload broadcast for the own pointer; nothing without a user.
      An empty or missing email is sent as 'Anonymous'. */
  function OutgoingCursor(user: Option<User>, x: real, y: real, color: string): (payload: Option<CursorPosition>)
    ensures payload.Some? <==> user.Some?
    ensures payload.Some? ==>
      (payload.value.userId == user.value.id && payload.value.x == x
       && payload.value.y == y && payload.value.color == color)
    ensures payload.Some? ==> payload.value.userEmail == (if Truthy(user.value.email) then user.value.email.value else "Anonymous")
  {
    match user
    case None => None
    case Some(u) => Some(CursorPosition(x, y, u.id, Or(u.email, "Anonymous"), color))
  }

  /** The name tag under a cursor: the email up to its first '@'. */
  function CursorLabel(c: CursorPosition): (tag: string)
    ensures tag <= c.userEmail && '@' !in tag
    ensures |tag| < |c.userEmail| ==> c.userEmail[|tag|] == '@'
  {
    BeforeFirst(c.userEmail, '@')
  }

  // ---------------------------------------------------------------------
  // The cursor map
  // ---------------------------------------------------------------------

  /** The map after a 'cursor' event: a payload from another user inserts or
      replaces that user's entry; one carrying the own id is ignored. */
  function ApplyCursor(m: map<string, CursorPosition>, selfId: string, payload: CursorPosition): map<string, CursorPosition> {
    if payload.userId != selfId then m[payload.userId := payload] else m
  }

  /** The map after a 'user_left' event: that user's entry is removed. */
  function ApplyUserLeft(m: map<string, CursorPosition>, userId: string): map<string, CursorPosition> {
    m - {userId}
  }

  /** The map holds at most one cursor per user, stored under its own id,
      and never one for the current user. */
  predicate WellKeyed(m: map<string, CursorPosition>, selfId: string) {
    selfId !in m && forall k :: k in m ==> m[k].userId == k
  }

  /** A 'cursor' event from another user sets exactly that user's entry;
      every other entry is kept. The own payload changes nothing. */
  lemma CursorEventEffects(m: map<string, CursorPosition>, selfId: string, payload: CursorPosition)
    ensures payload.userId != selfId ==>
      var r := ApplyCursor(m, selfId, payload);
      r.Keys == m.Keys + {payload.userId} && r[payload.userId] == payload
      && forall k :: k in m && k != payload.userId ==> r[k] == m[k]
    ensures payload.userId == selfId ==> ApplyCursor(m, selfId, payload) == m
  {
  }

  /** 'user_left' removes that entry only; for an absent user it is a no-op,
      and applying it twice equals applying it once. */
  lemma UserLeftEffects(m: map<string, CursorPosition>, userId: string)
    ensures var r := ApplyUserLeft(m, userId);
      r.Keys == m.Keys - {userId} && forall k :: k in r ==> r[k] == m[k]
    ensures userId !in m ==> ApplyUserLeft(m, userId) == m
    ensures ApplyUserLeft(ApplyUserLeft(m, userId), userId) == ApplyUserLeft(m, userId)
  {
  }

  /** A repeated cursor event is idempotent, and only the latest position of
      a user is kept. */
  lemma LatestCursorWins(m: map<string, CursorPosition>, selfId: string, p: CursorPosition, q: CursorPosition)
    requires p.userId == q.userId
    ensures ApplyCursor(ApplyCursor(m, selfId, p), selfId, q) == ApplyCursor(m, selfId, q)
    ensures ApplyCursor(ApplyCursor(m, selfId, p), selfId, p) == ApplyCursor(m, selfId, p)
  {
  }

  /** Both events keep the map well keyed. */
  lemma EventsKeepWellKeyed(m: map<string, CursorPosition>, selfId: string, payload: CursorPosition, userId: string)
    requires WellKeyed(m, selfId)
    ensures WellKeyed(ApplyCursor(m, selfId, payload), selfId)
    ensures WellKeyed(ApplyUserLeft(m, userId), selfId)
  {
  }

  /** The overlay of one signed-in user: the subscription exists only with a
      user, whose id is `selfId`. */
  class CursorOverlay {
    const selfId: string
    var cursors: map<string, CursorPosition>

    ghost predicate Valid()
      reads this
    {
      WellKeyed(cursors, selfId)
    }

    constructor (selfId: string)
      ensures this.selfId == selfId && cursors == map[] && Valid()
    {
      this.selfId := selfId;
      cursors := map[];
    }

    /** A 'cursor' broadcast arrived. */
    method OnCursor(payload: CursorPosition)
      requires Valid()
      modifies this
      ensures Valid()
      ensures cursors == ApplyCursor(old(cursors), selfId, payload)
    {
      if payload.userId != selfId {
        cursors := cursors[payload.userId := payload];
      }
    }

    /** A 'user_left' broadcast arrived. */
    method OnUserLeft(userId: string)
      requires Valid()
      modifies this
      ensures Valid()
      ensures cursors == ApplyUserLeft(old(cursors), userId)
    {
      cursors := cursors - {userId};
    }
  }
}

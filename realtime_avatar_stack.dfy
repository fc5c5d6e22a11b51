/**
 * The stack of collaborators shown on a whiteboard
 * (src/components/realtime/RealtimeAvatarStack.tsx): how the presence rows
 * returned by the backend become the online list, and how that list is
 * drawn (at most three avatars, an overflow badge and a count with its
 * noun). The presence upsert, its interval and the query are not modelled:
 * the rows arrive as a parameter.
 */
module RealtimeAvatarStack {
  import opened Wrappers
  import opened Text

  /** A row of the presence table as the query returns it. */
  datatype PresenceRow = PresenceRow(userId: string, userEmail: Option<string>, lastSeen: string)

  datatype OnlineUser = OnlineUser(id: string, email: string, lastSeen: string)

  /** The map step: a missing or empty email shows as 'Anonymous'. */
  function ToOnlineUser(row: PresenceRow): (u: OnlineUser)
    ensures u.id == row.userId && u.lastSeen == row.lastSeen && u.email != ""
    ensures Truthy(row.userEmail) ==> u.email == row.userEmail.value
    ensures !Truthy(row.userEmail) ==> u.email == "Anonymous"
  {
    OnlineUser(row.userId, Or(row.userEmail, "Anonymous"), row.lastSeen)
  }

  /** Number of rows that belong to someone other than `selfId`. */
  function CountOthers(rows: seq<PresenceRow>, selfId: string): nat {
    if rows == [] then 0 else (if rows[0].userId != selfId then 1 else 0) + CountOthers(rows[1..], selfId)
  }

  /** The online list: the rows of everyone but the current user, in order,
      each turned into an `OnlineUser`. */
  function OnlineUsers(rows: seq<PresenceRow>, selfId: string): (users: seq<OnlineUser>)
    ensures |users| == CountOthers(rows, selfId) <= |rows|
    ensures forall i :: 0 <= i < |users| ==> users[i].id != selfId && users[i].email != ""
  {
    if rows == [] then []
    else (if rows[0].userId != selfId then [ToOnlineUser(rows[0])] else []) + OnlineUsers(rows[1..], selfId)
  }

  /** The filter keeps the order: the list of a concatenation is the
      concatenation of the lists. */
  lemma {:induction false} OnlineUsersAppend(a: seq<PresenceRow>, b: seq<PresenceRow>, selfId: string)
    ensures OnlineUsers(a + b, selfId) == OnlineUsers(a, selfId) + OnlineUsers(b, selfId)
    decreases |a|
  {
    if a == [] {
      assert a + b == b;
    } else {
      assert (a + b)[0] == a[0] && (a + b)[1..] == a[1..] + b;
      OnlineUsersAppend(a[1..], b, selfId);
    }
  }

  /** A user is listed exactly when some row of someone else maps to it. */
  lemma {:induction false} OnlineUsersMembers(rows: seq<PresenceRow>, selfId: string, u: OnlineUser)
    ensures u in OnlineUsers(rows, selfId) <==> exists row :: row in rows && row.userId != selfId && ToOnlineUser(row) == u
    decreases |rows|
  {
    if rows != [] {
      OnlineUsersMembers(rows[1..], selfId, u);
      assert forall row :: row in rows <==> row == rows[0] || row in rows[1..];
    }
  }

  /** `getInitials(email)`: the part before '@', split at dots, first
      characters upper-cased, at most two. */
  function GetInitials(email: string): (initials: string)
    ensures initials == Take(Upper(WordStarts(BeforeFirst(email, '@'), IsDot, true)), 2)
    ensures |initials| <= 2 && NoLower(initials)
    ensures initials == [] <==> forall i :: 0 <= i < |BeforeFirst(email, '@')| ==> BeforeFirst(email, '@')[i] == '.'
  {
    Initials(BeforeFirst(email, '@'), IsDot)
  }

  /** What the stack draws: the first avatars, the overflow badge
      '+(n - 3)' when there is one, and 'n collaborator(s) online'. */
  datatype StackView = StackView(shown: seq<OnlineUser>, overflow: Option<nat>, count: nat, noun: string)

  const MaxShown := 3

  /** Nothing is drawn for an empty list. */
  function Render(users: seq<OnlineUser>): (view: Option<StackView>)
    ensures view.None? <==> users == []
    ensures view.Some? ==>
      (view.value.shown <= users && |view.value.shown| == Min(MaxShown, |users|)
       && view.value.count == |users|
       && (view.value.overflow.Some? <==> |users| > MaxShown)
       && (view.value.overflow.Some? ==>
             (view.value.overflow.value == |users| - MaxShown
              && |view.value.shown| + view.value.overflow.value == |users|))
       && (view.value.noun == "collaborator" <==> |users| == 1)
       && (view.value.noun == "collaborator" || view.value.noun == "collaborators"))
  {
    if |users| == 0 then None
    else
      var shown := if |users| <= MaxShown then users else users[..MaxShown];
      var overflow := if |users| > MaxShown then Some(|users| - MaxShown) else None;
      Some(StackView(shown, overflow, |users|, if |users| == 1 then "collaborator" else "collaborators"))
  }

  /** The current user never appears in the drawn stack, and the count is
      the number of other users' rows. */
  lemma SelfNeverShown(rows: seq<PresenceRow>, selfId: string)
    ensures var view := Render(OnlineUsers(rows, selfId));
      view.Some? ==> view.value.count == CountOthers(rows, selfId)
                     && forall i :: 0 <= i < |view.value.shown| ==> view.value.shown[i].id != selfId
    ensures Render(OnlineUsers(rows, selfId)).None? <==> CountOthers(rows, selfId) == 0
  {
  }
}

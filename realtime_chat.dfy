/**
 * The whiteboard chat panel (src/components/realtime/RealtimeChat.tsx): the
 * message log that incoming broadcasts append to, the unread counter shown
 * on the toggle button while the panel is closed, the input field and its
 * send rule, and the initials shown next to each message. The broadcast
 * channel, the profile lookup, `crypto.randomUUID` and the clock are not
 * modelled: their results arrive as parameters.
 */
module RealtimeChat {
  import opened Wrappers
  import opened Users
  import opened Text

  datatype Message = Message(
    id: string, userId: string, userEmail: string, username: Option<string>,
    message: string, timestamp: string)

  /** What is broadcast on the channel, and received from it. */
  datatype MessagePayload = MessagePayload(userId: string, userEmail: string, username: Option<string>, message: string)

  datatype ChatState = ChatState(messages: seq<Message>, newMessage: string, isOpen: bool, unreadCount: nat)

  const InitialChat := ChatState([], "", false, 0)

  /** The badge counts only while the panel is closed: the effect on
      `isOpen` resets it whenever the panel is open. */
  predicate OpenMeansRead(s: ChatState) {
    s.isOpen ==> s.unreadCount == 0
  }

  /** The channel is subscribed only with a user and a whiteboard id. */
  predicate Subscribed(user: Option<User>, whiteboardId: string) {
    user.Some? && whiteboardId != ""
  }

  /** A 'message' broadcast arrives, stamped with the fresh `id` and the
      current `timestamp`: it is appended to the log, and the unread count
      grows by one when the panel is closed and the sender is someone else.
      Without a subscription nothing arrives. */
  function Receive(s: ChatState, user: Option<User>, whiteboardId: string, payload: MessagePayload, id: string, timestamp: string): (r: ChatState)
    ensures !Subscribed(user, whiteboardId) ==> r == s
    ensures Subscribed(user, whiteboardId) ==>
      (|r.messages| == |s.messages| + 1 && r.messages[..|s.messages|] == s.messages
       && r.messages[|s.messages|] == Message(id, payload.userId, payload.userEmail, payload.username, payload.message, timestamp))
    ensures r.unreadCount == (if Subscribed(user, whiteboardId) && !s.isOpen && payload.userId != user.value.id
                              then s.unreadCount + 1 else s.unreadCount)
    ensures r.isOpen == s.isOpen && r.newMessage == s.newMessage
    ensures OpenMeansRead(s) ==> OpenMeansRead(r)
  {
    if !Subscribed(user, whiteboardId) then s
    else
      var msg := Message(id, payload.userId, payload.userEmail, payload.username, payload.message, timestamp);
      var unread := if !s.isOpen && payload.userId != user.value.id then s.unreadCount + 1 else s.unreadCount;
      s.(messages := s.messages + [msg], unreadCount := unread)
  }

  /** `setIsOpen(open)`, followed by the effect that clears the badge while
      the panel is open. */
  function WithOpen(s: ChatState, open: bool): (r: ChatState)
    ensures r.isOpen == open && r.messages == s.messages && r.newMessage == s.newMessage
    ensures r.unreadCount == if open then 0 else s.unreadCount
    ensures OpenMeansRead(r)
  {
    s.(isOpen := open, unreadCount := if open then 0 else s.unreadCount)
  }

  /** The toggle button flips the panel; the close button shuts it. */
  function Toggled(s: ChatState): ChatState {
    WithOpen(s, !s.isOpen)
  }

  function Closed(s: ChatState): ChatState {
    WithOpen(s, false)
  }

  /** Typing into the input field. */
  function Type(s: ChatState, text: string): ChatState {
    s.(newMessage := text)
  }

  /** The send button is disabled while the input is blank. */
  predicate SendDisabled(s: ChatState) {
    Blank(s.newMessage)
  }

  /** `sendMessage`: without a user, or with a blank input, nothing is sent
      and nothing changes. Otherwise the trimmed text is broadcast under the
      user's id, with 'Anonymous' for an empty or missing email and the
      profile's username (if one was loaded), and the input is cleared. */
  function Send(s: ChatState, user: Option<User>, username: Option<string>): (r: (ChatState, Option<MessagePayload>))
    ensures r.1.None? <==> user.None? || Blank(s.newMessage)
    ensures r.1.None? ==> r.0 == s
    ensures r.1.Some? ==>
      (r.0 == s.(newMessage := "") && r.1.value.userId == user.value.id
       && r.1.value.message == Trim(s.newMessage)
       && r.1.value.userEmail == Or(user.value.email, "Anonymous") && r.1.value.username == username)
  {
    if user.None? || Blank(s.newMessage) then (s, None)
    else (s.(newMessage := ""), Some(MessagePayload(user.value.id, Or(user.value.email, "Anonymous"), username, Trim(s.newMessage))))
  }

  /** Every state change keeps the badge cleared while the panel is open. */
  lemma ChatKeepsOpenMeansRead(s: ChatState, user: Option<User>, whiteboardId: string, payload: MessagePayload, id: string, timestamp: string, text: string, username: Option<string>)
    requires OpenMeansRead(s)
    ensures OpenMeansRead(Receive(s, user, whiteboardId, payload, id, timestamp))
    ensures OpenMeansRead(Toggled(s)) && OpenMeansRead(Closed(s)) && OpenMeansRead(Type(s, text))
    ensures OpenMeansRead(Send(s, user, username).0)
  {
  }

  /** Opening the panel clears the badge; messages received while it is
      open, even from others, leave the badge at zero; the own messages
      never raise it. */
  lemma UnreadRules(s: ChatState, user: Option<User>, whiteboardId: string, payload: MessagePayload, id: string, timestamp: string)
    ensures !s.isOpen ==> Toggled(s).unreadCount == 0
    ensures OpenMeansRead(s) && s.isOpen ==> Receive(s, user, whiteboardId, payload, id, timestamp).unreadCount == 0
    ensures user.Some? && payload.userId == user.value.id ==> Receive(s, user, whiteboardId, payload, id, timestamp).unreadCount == s.unreadCount
  {
  }

  /** The text sent is the input with surrounding white space removed; a
      message that was sent is never blank, and sending twice in a row
      sends nothing the second time. */
  lemma SendTrimsOnce(s: ChatState, u: User, username: Option<string>)
    requires !Blank(s.newMessage)
    ensures var (t, sent) := Send(s, Some(u), username);
      sent.Some? && sent.value.message == Trim(s.newMessage) && sent.value.message != []
      && Trim(sent.value.message) == sent.value.message
      && Send(t, Some(u), username) == (t, None)
  {
    TrimEmpty(s.newMessage);
    TrimIdempotent(s.newMessage);
  }

  /** The button's test `!newMessage.trim()` is blankness, and for a
      signed-in user the button is disabled exactly when pressing it would
      send nothing. */
  lemma SendDisabledMeansNothingSent(s: ChatState, u: User, username: Option<string>)
    ensures SendDisabled(s) <==> Trim(s.newMessage) == []
    ensures SendDisabled(s) <==> Send(s, Some(u), username).1.None?
  {
    TrimEmpty(s.newMessage);
  }

  /** The sender name shown above a message: the username when it is
      non-empty, else the email up to its first '@'. */
  function ChatName(m: Message): (name: string)
    ensures Truthy(m.username) ==> name == m.username.value
    ensures !Truthy(m.username) ==> name <= m.userEmail && '@' !in name
    ensures !Truthy(m.username) && |name| < |m.userEmail| ==> m.userEmail[|name|] == '@'
  {
    Or(m.username, BeforeFirst(m.userEmail, '@'))
  }

  /** `getInitials(msg)`: the first characters of the parts of the sender
      name split at white space and dots, upper-cased, at most two. */
  function GetInitials(m: Message): (initials: string)
    ensures initials == Take(Upper(WordStarts(ChatName(m), IsSpaceOrDot, true)), 2)
    ensures |initials| <= 2 && NoLower(initials)
    ensures initials == [] <==> forall i :: 0 <= i < |ChatName(m)| ==> IsSpaceOrDot(ChatName(m)[i])
  {
    Initials(ChatName(m), IsSpaceOrDot)
  }

  /** The chat panel of one page: the user and the whiteboard are fixed
      while it is mounted. */
  class ChatPanel {
    const user: Option<User>
    const whiteboardId: string
    var messages: seq<Message>
    var newMessage: string
    var isOpen: bool
    var unreadCount: nat

    function State(): ChatState
      reads this
    {
      ChatState(messages, newMessage, isOpen, unreadCount)
    }

    ghost predicate Valid()
      reads this
    {
      OpenMeansRead(State())
    }

    constructor (user: Option<User>, whiteboardId: string)
      ensures this.user == user && this.whiteboardId == whiteboardId
      ensures State() == InitialChat && Valid()
    {
      this.user := user;
      this.whiteboardId := whiteboardId;
      messages, newMessage, isOpen, unreadCount := [], "", false, 0;
    }

    method OnMessage(payload: MessagePayload, id: string, timestamp: string)
      requires Valid()
      modifies this
      ensures Valid()
      ensures State() == Receive(old(State()), user, whiteboardId, payload, id, timestamp)
    {
      if user.None? || whiteboardId == "" {
        return;
      }
      messages := messages + [Message(id, payload.userId, payload.userEmail, payload.username, payload.message, timestamp)];
      if !isOpen && payload.userId != user.value.id {
        unreadCount := unreadCount + 1;
      }
    }

    method SetOpen(open: bool)
      modifies this
      ensures Valid()
      ensures State() == WithOpen(old(State()), open)
    {
      isOpen := open;
      if isOpen {
        unreadCount := 0;
      }
    }

    method Toggle()
      modifies this
      ensures Valid()
      ensures State() == Toggled(old(State()))
    {
      SetOpen(!isOpen);
    }

    method Close()
      modifies this
      ensures Valid()
      ensures State() == Closed(old(State()))
    {
      SetOpen(false);
    }

    method SetNewMessage(text: string)
      requires Valid()
      modifies this
      ensures Valid()
      ensures State() == Type(old(State()), text)
    {
      newMessage := text;
    }

    method SendMessage(username: Option<string>) returns (sent: Option<MessagePayload>)
      requires Valid()
      modifies this
      ensures Valid()
      ensures (State(), sent) == Send(old(State()), user, username)
    {
      // `newMessage.trim()` is empty exactly when the text is blank (TrimEmpty).
      if user.None? || Blank(newMessage) {
        return None;
      }
      sent := Some(MessagePayload(user.value.id, Or(user.value.email, "Anonymous"), username, Trim(newMessage)));
      newMessage := "";
    }
  }
}

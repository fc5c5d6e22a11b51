/**
 * The dashboard slice registered in the store
 * (src/store/slices/dashboard-slice.tsx): a list and a loading flag, and,
 * unlike the app-directory dashboard slice, setWhiteboards does not touch
 * the loading flag.
 */
module StoreDashboardSlice {

  datatype Whiteboard = Whiteboard(id: string, name: string, userId: string, createdAt: string, updatedAt: string)

  datatype DashboardState = DashboardState(whiteboards: seq<Whiteboard>, isLoading: bool)

  const InitialState := DashboardState([], false)

  datatype DashboardAction = SetWhiteboards(list: seq<Whiteboard>) | SetLoading(loading: bool)

  function Reduce(s: DashboardState, a: DashboardAction): DashboardState {
    match a
    case SetWhiteboards(list) => s.(whiteboards := list)
    case SetLoading(b) => s.(isLoading := b)
  }

  /** Each action sets exactly its own field. */
  lemma ActionsSetOwnField(s: DashboardState, list: seq<Whiteboard>, b: bool)
    ensures Reduce(s, SetWhiteboards(list)) == DashboardState(list, s.isLoading)
    ensures Reduce(s, SetLoading(b)) == DashboardState(s.whiteboards, b)
  {
  }

  /** Both actions are idempotent, and the two commute. */
  lemma ActionsIdempotentAndCommute(s: DashboardState, a: DashboardAction, list: seq<Whiteboard>, b: bool)
    ensures Reduce(Reduce(s, a), a) == Reduce(s, a)
    ensures Reduce(Reduce(s, SetWhiteboards(list)), SetLoading(b)) == Reduce(Reduce(s, SetLoading(b)), SetWhiteboards(list))
  {
  }

  class DashboardSlice {
    var whiteboards: seq<Whiteboard>
    var isLoading: bool

    function State(): DashboardState
      reads this
    {
      DashboardState(whiteboards, isLoading)
    }

    constructor ()
      ensures State() == InitialState
    {
      whiteboards, isLoading := [], false;
    }

    method SetWhiteboards(list: seq<Whiteboard>)
      modifies this
      ensures State() == Reduce(old(State()), DashboardAction.SetWhiteboards(list))
    {
      whiteboards := list;
    }

    method SetLoading(b: bool)
      modifies this
      ensures State() == Reduce(old(State()), DashboardAction.SetLoading(b))
    {
      isLoading := b;
    }
  }
}

/**
 * The drawing-tool settings slice (src/store/slices/drawing-slice.tsx): the
 * selected tool, colour, stroke width and fill flag. The reducer stores each
 * payload as given; the stroke width is not clamped.
 */
module DrawingSlice {

  /** `DrawingTool`: the five tools, and nothing else. */
  datatype DrawingTool = Pen | Rectangle | Circle | Line | Eraser

  /** A JavaScript number is modelled by a real; the width is stored as is. */
  datatype DrawingState = DrawingState(selectedTool: DrawingTool, selectedColor: string, strokeWidth: real, fill: bool)

  const InitialState := DrawingState(Pen, "#000000", 2.0, false)

  datatype DrawingAction =
    | SetSelectedTool(tool: DrawingTool)
    | SetSelectedColor(color: string)
    | SetStrokeWidth(width: real)
    | SetFill(fill: bool)

  function Reduce(s: DrawingState, a: DrawingAction): DrawingState {
    match a
    case SetSelectedTool(t) => s.(selectedTool := t)
    case SetSelectedColor(c) => s.(selectedColor := c)
    case SetStrokeWidth(w) => s.(strokeWidth := w)
    case SetFill(f) => s.(fill := f)
  }

  /** Two actions of the same kind write the same field. */
  predicate SameField(a: DrawingAction, b: DrawingAction) {
    (a.SetSelectedTool? && b.SetSelectedTool?) || (a.SetSelectedColor? && b.SetSelectedColor?)
    || (a.SetStrokeWidth? && b.SetStrokeWidth?) || (a.SetFill? && b.SetFill?)
  }

  /** Every setter changes only its own field, storing the payload unchanged
      (any width, zero or negative included). */
  lemma SettersChangeOnlyTheirField(s: DrawingState, t: DrawingTool, c: string, w: real, f: bool)
    ensures Reduce(s, SetSelectedTool(t)) == s.(selectedTool := t)
    ensures Reduce(s, SetSelectedColor(c)) == s.(selectedColor := c)
    ensures Reduce(s, SetStrokeWidth(w)).strokeWidth == w && Reduce(s, SetStrokeWidth(w)).(strokeWidth := s.strokeWidth) == s
    ensures Reduce(s, SetFill(f)) == s.(fill := f)
  {
  }

  /** Last write wins: of two writes to one field only the second shows;
      with equal payloads this is idempotence. Writes to different fields
      commute. */
  lemma LastWriteWins(s: DrawingState, a: DrawingAction, b: DrawingAction)
    ensures SameField(a, b) ==> Reduce(Reduce(s, a), b) == Reduce(s, b)
    ensures Reduce(Reduce(s, a), a) == Reduce(s, a)
    ensures !SameField(a, b) ==> Reduce(Reduce(s, a), b) == Reduce(Reduce(s, b), a)
  {
  }

  class DrawingSlice {
    var selectedTool: DrawingTool
    var selectedColor: string
    var strokeWidth: real
    var fill: bool

    function State(): DrawingState
      reads this
    {
      DrawingState(selectedTool, selectedColor, strokeWidth, fill)
    }

    constructor ()
      ensures State() == InitialState
    {
      selectedTool, selectedColor, strokeWidth, fill := Pen, "#000000", 2.0, false;
    }

    method SetSelectedTool(t: DrawingTool)
      modifies this
      ensures State() == Reduce(old(State()), DrawingAction.SetSelectedTool(t))
    {
      selectedTool := t;
    }

    method SetSelectedColor(c: string)
      modifies this
      ensures State() == Reduce(old(State()), DrawingAction.SetSelectedColor(c))
    {
      selectedColor := c;
    }

    method SetStrokeWidth(w: real)
      modifies this
      ensures State() == Reduce(old(State()), DrawingAction.SetStrokeWidth(w))
    {
      strokeWidth := w;
    }

    method SetFill(f: bool)
      modifies this
      ensures State() == Reduce(old(State()), DrawingAction.SetFill(f))
    {
      fill := f;
    }
  }
}

/**
 * The auth slice registered in the store (src/store/slices/auth-slice.tsx).
 * No action here touches the loading flag except setLoading itself.
 */
module StoreAuthSlice {
  import opened Wrappers
  import opened Users

  datatype AuthState = AuthState(user: Option<User>, isLoading: bool, error: Option<string>)

  const InitialState := AuthState(None, false, None)

  datatype AuthAction =
    | SetUser(user: Option<User>)
    | SetLoading(loading: bool)
    | SetError(message: Option<string>)
    | Logout

  function Reduce(s: AuthState, a: AuthAction): AuthState {
    match a
    case SetUser(u) => s.(user := u, error := None)
    case SetLoading(b) => s.(isLoading := b)
    case SetError(e) => s.(error := e)
    case Logout => s.(user := None, error := None)
  }

  /** setUser stores the user and clears the error; setError and setLoading
      change only their own field; logout forgets the user and the error.
      None of setUser, setError and logout touches isLoading. */
  lemma ActionEffects(s: AuthState, u: Option<User>, b: bool, e: Option<string>)
    ensures Reduce(s, SetUser(u)) == AuthState(u, s.isLoading, None)
    ensures Reduce(s, SetError(e)) == s.(error := e)
    ensures Reduce(s, SetLoading(b)) == s.(isLoading := b)
    ensures Reduce(s, Logout) == AuthState(None, s.isLoading, None)
    ensures Reduce(s, Logout) == Reduce(s, SetUser(None))
  {
  }

  /** Every action is idempotent. */
  lemma ActionsIdempotent(s: AuthState, a: AuthAction)
    ensures Reduce(Reduce(s, a), a) == Reduce(s, a)
  {
  }

  class AuthSlice {
    var user: Option<User>
    var isLoading: bool
    var error: Option<string>

    function State(): AuthState
      reads this
    {
      AuthState(user, isLoading, error)
    }

    constructor ()
      ensures State() == InitialState
    {
      user, isLoading, error := None, false, None;
    }

    method SetUser(u: Option<User>)
      modifies this
      ensures State() == Reduce(old(State()), AuthAction.SetUser(u))
    {
      user := u;
      error := None;
    }

    method SetLoading(b: bool)
      modifies this
      ensures State() == Reduce(old(State()), AuthAction.SetLoading(b))
    {
      isLoading := b;
    }

    method SetError(e: Option<string>)
      modifies this
      ensures State() == Reduce(old(State()), AuthAction.SetError(e))
    {
      error := e;
    }

    method Logout()
      modifies this
      ensures State() == Reduce(old(State()), AuthAction.Logout)
    {
      user := None;
      error := None;
    }
  }
}

/**
 * The auth slice of the app directory (src/app/auth/_redux/auth-slice.tsx,
 * initial state in auth-state.tsx). It starts out loading, and every action
 * but setLoading ends the loading state.
 */
module AppAuthSlice {
  import opened Wrappers
  import opened Users

  datatype AuthState = AuthState(user: Option<User>, isLoading: bool, error: Option<string>)

  const InitialAuthState := AuthState(None, true, None)

  datatype AuthAction =
    | SetUser(user: Option<User>)
    | SetLoading(loading: bool)
    | SetError(message: Option<string>)
    | ClearAuth

  function Reduce(s: AuthState, a: AuthAction): AuthState {
    match a
    case SetUser(u) => AuthState(u, false, None)
    case SetLoading(b) => s.(isLoading := b)
    case SetError(e) => s.(error := e, isLoading := false)
    case ClearAuth => AuthState(None, false, None)
  }

  /** setUser settles the request with the given user and no error; setError
      records the message, stops loading and keeps the user; setLoading
      changes only the flag. */
  lemma ActionEffects(s: AuthState, u: Option<User>, b: bool, e: Option<string>)
    ensures Reduce(s, SetUser(u)) == AuthState(u, false, None)
    ensures Reduce(s, SetError(e)).user == s.user && Reduce(s, SetError(e)).error == e
    ensures !Reduce(s, SetError(e)).isLoading
    ensures Reduce(s, SetLoading(b)) == s.(isLoading := b)
  {
  }

  /** clearAuth reaches one state from anywhere: signed out, not loading, no
      error. That state is not the initial one, which is still loading. */
  lemma ClearAuthResets(s: AuthState, t: AuthState)
    ensures Reduce(s, ClearAuth) == Reduce(t, ClearAuth)
    ensures Reduce(s, ClearAuth) == AuthState(None, false, None)
    ensures Reduce(Reduce(s, ClearAuth), ClearAuth) == Reduce(s, ClearAuth)
    ensures Reduce(s, ClearAuth) != InitialAuthState
    ensures Reduce(InitialAuthState, ClearAuth) == Reduce(InitialAuthState, SetUser(None))
  {
  }

  class AuthSlice {
    var user: Option<User>
    var isLoading: bool
    var error: Option<string>

    function State(): AuthState
      reads this
    {
      AuthState(user, isLoading, error)
    }

    constructor ()
      ensures State() == InitialAuthState
    {
      user, isLoading, error := None, true, None;
    }

    method SetUser(u: Option<User>)
      modifies this
      ensures State() == Reduce(old(State()), AuthAction.SetUser(u))
    {
      user := u;
      isLoading := false;
      error := None;
    }

    method SetLoading(b: bool)
      modifies this
      ensures State() == Reduce(old(State()), AuthAction.SetLoading(b))
    {
      isLoading := b;
    }

    method SetError(e: Option<string>)
      modifies this
      ensures State() == Reduce(old(State()), AuthAction.SetError(e))
    {
      error := e;
      isLoading := false;
    }

    method ClearAuth()
      modifies this
      ensures State() == Reduce(old(State()), AuthAction.ClearAuth)
    {
      user := None;
      isLoading := false;
      error := None;
    }
  }
}

/**
 * The current-whiteboard slice (src/store/slices/whiteboard-slice.tsx). The
 * payload of setWhiteboard is never null, so once a whiteboard is set no
 * action of this slice clears it again.
 */
module WhiteboardSlice {
  import opened Wrappers

  datatype Whiteboard = Whiteboard(
    id: string, name: string, userId: string, createdAt: string, updatedAt: string,
    inviteCode: Option<string>)

  datatype WhiteboardState = WhiteboardState(currentWhiteboard: Option<Whiteboard>, isLoading: bool)

  const InitialState := WhiteboardState(None, false)

  datatype WhiteboardAction = SetWhiteboard(whiteboard: Whiteboard) | SetLoading(loading: bool)

  function Reduce(s: WhiteboardState, a: WhiteboardAction): WhiteboardState {
    match a
    case SetWhiteboard(w) => s.(currentWhiteboard := Some(w))
    case SetLoading(b) => s.(isLoading := b)
  }

  /** A run of actions, dispatched in order. */
  function ReduceAll(s: WhiteboardState, actions: seq<WhiteboardAction>): WhiteboardState
    decreases |actions|
  {
    if actions == [] then s else ReduceAll(Reduce(s, actions[0]), actions[1..])
  }

  /** Each setter changes only its own field; both are last-write-wins and
      idempotent. */
  lemma SettersLastWriteWins(s: WhiteboardState, v: Whiteboard, w: Whiteboard, b: bool, c: bool)
    ensures Reduce(s, SetWhiteboard(w)) == WhiteboardState(Some(w), s.isLoading)
    ensures Reduce(s, SetLoading(b)) == WhiteboardState(s.currentWhiteboard, b)
    ensures Reduce(Reduce(s, SetWhiteboard(v)), SetWhiteboard(w)) == Reduce(s, SetWhiteboard(w))
    ensures Reduce(Reduce(s, SetLoading(b)), SetLoading(c)) == Reduce(s, SetLoading(c))
  {
  }

  /** Once a whiteboard is current, any run of actions leaves some
      whiteboard current: the most recent one set, or the same one. */
  lemma {:induction false} CurrentWhiteboardSticks(s: WhiteboardState, actions: seq<WhiteboardAction>)
    requires s.currentWhiteboard.Some?
    ensures ReduceAll(s, actions).currentWhiteboard.Some?
    ensures (forall i :: 0 <= i < |actions| ==> actions[i].SetLoading?)
            ==> ReduceAll(s, actions).currentWhiteboard == s.currentWhiteboard
    decreases |actions|
  {
    if actions != [] {
      CurrentWhiteboardSticks(Reduce(s, actions[0]), actions[1..]);
      assert forall i :: 1 <= i < |actions| ==> actions[1..][i - 1] == actions[i];
    }
  }

  class WhiteboardSlice {
    var currentWhiteboard: Option<Whiteboard>
    var isLoading: bool

    function State(): WhiteboardState
      reads this
    {
      WhiteboardState(currentWhiteboard, isLoading)
    }

    constructor ()
      ensures State() == InitialState
    {
      currentWhiteboard, isLoading := None, false;
    }

    method SetWhiteboard(w: Whiteboard)
      modifies this
      ensures State() == Reduce(old(State()), WhiteboardAction.SetWhiteboard(w))
    {
      currentWhiteboard := Some(w);
    }

    method SetLoading(b: bool)
      modifies this
      ensures State() == Reduce(old(State()), WhiteboardAction.SetLoading(b))
    {
      isLoading := b;
    }
  }
}

/**
 * The landing-page slice (src/app/_redux/root-slice.tsx, initial state in
 * root-state.tsx): a loading flag, a welcome message and a list of featured
 * items.
 */
module RootSlice {

  datatype FeaturedItem = FeaturedItem(title: string, description: string, link: string)

  datatype RootState = RootState(isLoading: bool, welcomeMessage: string, featuredContent: seq<FeaturedItem>)

  const InitialRootState := RootState(false, "Welcome to Whiteboard App", [])

  datatype RootAction =
    | SetLoading(loading: bool)
    | SetWelcomeMessage(message: string)
    | SetFeaturedContent(items: seq<FeaturedItem>)
    | AddFeaturedContent(item: FeaturedItem)
    | ClearFeaturedContent

  function Reduce(s: RootState, a: RootAction): RootState {
    match a
    case SetLoading(b) => s.(isLoading := b)
    case SetWelcomeMessage(m) => s.(welcomeMessage := m)
    case SetFeaturedContent(items) => s.(featuredContent := items)
    case AddFeaturedContent(item) => s.(featuredContent := s.featuredContent + [item])
    case ClearFeaturedContent => s.(featuredContent := [])
  }

  /** The actions that add `items` one after the other. */
  function AddAll(items: seq<FeaturedItem>): (actions: seq<RootAction>)
    ensures |actions| == |items|
  {
    if items == [] then [] else [AddFeaturedContent(items[0])] + AddAll(items[1..])
  }

  function ReduceAll(s: RootState, actions: seq<RootAction>): RootState
    decreases |actions|
  {
    if actions == [] then s else ReduceAll(Reduce(s, actions[0]), actions[1..])
  }

  /** Every action changes only its own field: setLoading and
      setWelcomeMessage store their payload; setFeaturedContent replaces the
      list; addFeaturedContent appends at the end; clearFeaturedContent empties the list, keeps the rest, and is
      idempotent. */
  lemma ActionEffects(s: RootState, b: bool, m: string, items: seq<FeaturedItem>, item: FeaturedItem)
    ensures Reduce(s, SetLoading(b)) == s.(isLoading := b)
    ensures Reduce(s, SetWelcomeMessage(m)) == s.(welcomeMessage := m)
    ensures Reduce(s, SetFeaturedContent(items)) == s.(featuredContent := items)
    ensures var r := Reduce(s, AddFeaturedContent(item));
      r.(featuredContent := s.featuredContent) == s
      && |r.featuredContent| == |s.featuredContent| + 1 && r.featuredContent[|s.featuredContent|] == item
      && r.featuredContent[..|s.featuredContent|] == s.featuredContent
    ensures Reduce(s, ClearFeaturedContent) == s.(featuredContent := [])
    ensures Reduce(Reduce(s, ClearFeaturedContent), ClearFeaturedContent) == Reduce(s, ClearFeaturedContent)
  {
  }

  /** Adding items one at a time appends them in order. */
  lemma {:induction false} AddAllAppends(s: RootState, items: seq<FeaturedItem>)
    ensures ReduceAll(s, AddAll(items)) == s.(featuredContent := s.featuredContent + items)
    decreases |items|
  {
    if items != [] {
      var actions := AddAll(items);
      var next := Reduce(s, AddFeaturedContent(items[0]));
      assert actions[0] == AddFeaturedContent(items[0]) && actions[1..] == AddAll(items[1..]);
      assert ReduceAll(s, actions) == ReduceAll(next, AddAll(items[1..]));
      AddAllAppends(next, items[1..]);
      assert next.featuredContent + items[1..] == s.featuredContent + items by {
        assert items == [items[0]] + items[1..];
      }
    }
  }

  /** Clearing and then adding the items one by one is the same as setting
      the list to them. */
  lemma ClearThenAddIsSet(s: RootState, items: seq<FeaturedItem>)
    ensures ReduceAll(s, [ClearFeaturedContent] + AddAll(items)) == Reduce(s, SetFeaturedContent(items))
  {
    var cleared := Reduce(s, ClearFeaturedContent);
    assert ([ClearFeaturedContent] + AddAll(items))[1..] == AddAll(items);
    AddAllAppends(cleared, items);
    assert [] + items == items;
  }

  class RootSlice {
    var isLoading: bool
    var welcomeMessage: string
    var featuredContent: seq<FeaturedItem>

    function State(): RootState
      reads this
    {
      RootState(isLoading, welcomeMessage, featuredContent)
    }

    constructor ()
      ensures State() == InitialRootState
    {
      isLoading, welcomeMessage, featuredContent := false, "Welcome to Whiteboard App", [];
    }

    method SetLoading(b: bool)
      modifies this
      ensures State() == Reduce(old(State()), RootAction.SetLoading(b))
    {
      isLoading := b;
    }

    method SetWelcomeMessage(m: string)
      modifies this
      ensures State() == Reduce(old(State()), RootAction.SetWelcomeMessage(m))
    {
      welcomeMessage := m;
    }

    method SetFeaturedContent(items: seq<FeaturedItem>)
      modifies this
      ensures State() == Reduce(old(State()), RootAction.SetFeaturedContent(items))
    {
      featuredContent := items;
    }

    method AddFeaturedContent(item: FeaturedItem)
      modifies this
      ensures State() == Reduce(old(State()), RootAction.AddFeaturedContent(item))
    {
      featuredContent := featuredContent + [item];
    }

    method ClearFeaturedContent()
      modifies this
      ensures State() == Reduce(old(State()), RootAction.ClearFeaturedContent)
    {
      featuredContent := [];
    }
  }
}

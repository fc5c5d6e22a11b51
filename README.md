# Whiteboard app client core, modelled in Dafny

This project models the client side of a collaborative whiteboard web
application (Next.js, Redux Toolkit, Supabase). It covers:

- **The Redux slices.** These are the dashboard list, the store's dashboard
  slice, the drawing-tool settings, the two auth slices, the current
  whiteboard and the landing page. Each reducer is a pure `Reduce` function
  of the old state and the action. Each slice is also a class whose fields
  are the draft state the reducers mutate, and each of its methods is proved
  to produce `Reduce`'s result. The list reducers are backed by a
  `findIndex` loop and filter functions with their own lemmas.
- **The canvas pointer gesture.** `isDrawing` and `currentPath` change on
  mouse down, move and up. Releasing the button emits one shape record per
  tool, and the same shape is drawn as a live preview meanwhile.
- **The realtime components**, with the broadcast channel abstracted away:
  - the map of other users' cursors;
  - the chat log with its unread badge and send rule;
  - the presence stack with its cap of three avatars, overflow badge and
    plural wording;
  - the display-name and initials rules of the avatars.
- **The page logic.**
  - Profile page: loading, saving (username validation, empty fields
    written as null, error-code mapping), the avatar upload path and the
    initials.
  - The two join pages: code normalisation, the guard order and the mapping
    of the join procedure's reply to messages and navigation.
- **The library helpers.** These are the middleware's route guard, the
  Supabase error classification and the URL path normalisation.

Every reply from the backend is a parameter of the operation that consumes
it. This covers queries, upserts, the remote procedure, the storage
upload, the session lookup and broadcasts. Random numbers, fresh ids, the
clock and timer firings are parameters too.

JavaScript strings are `seq<char>`. The shared `Text` module gives the
string built-ins their JavaScript meaning:

- `trim` uses the ECMAScript white-space set;
- `toUpperCase` maps ASCII letters only;
- `split(...)[0]`, `split('.').pop()` and `includes`;
- `split(re).map(p => p[0]).join('')` is proved equal to a reference
  definition, "the characters that begin a word".

`x || fallback` and `${x}` on a possibly missing string are the `Or` and
`Interpolate` helpers. A JavaScript number on the canvas is a real or NaN.
`undefined` read past the end of the path is written as NaN. In the
rectangle's arithmetic it becomes NaN in the source too. A line's points and
a circle's centre copy the path as it is: there the source keeps
`undefined` where the model holds NaN.

## Model

| member | source | states |
|---|---|---|
| AppDashboardSlice.MergeLaws | src/app/dashboard/_redux/dashboard-slice.tsx:19 | Object spread: an empty patch changes nothing, a full patch replaces, a patch is idempotent, and two patches in a row equal their combination |
| AppDashboardSlice.FindIndex | src/app/dashboard/_redux/dashboard-slice.tsx:17 | `findIndex` returns -1 or an index holding the id, and no earlier index holds it (none at all when -1) |
| AppDashboardSlice.UpdateFirst | src/app/dashboard/_redux/dashboard-slice.tsx:16-21 | The list update keeps the list's length |
| AppDashboardSlice.UpdateFirstAt | src/app/dashboard/_redux/dashboard-slice.tsx:17-19 | When k is the first index with the id, the update is the single assignment at k of the merged entry |
| AppDashboardSlice.UpdateFirstAbsent | src/app/dashboard/_redux/dashboard-slice.tsx:18 | An id that is absent leaves the list unchanged |
| AppDashboardSlice.RemoveId | src/app/dashboard/_redux/dashboard-slice.tsx:23 | The filter result is no longer than the list, holds no entry with the id, and holds exactly the list's entries with other ids |
| AppDashboardSlice.RemoveIdAppend | src/app/dashboard/_redux/dashboard-slice.tsx:23 | The filter distributes over concatenation, so the kept entries keep their order |
| AppDashboardSlice.RemoveIdAbsent | src/app/dashboard/_redux/dashboard-slice.tsx:23 | Deleting an id that is not present returns the same list |
| AppDashboardSlice.RemoveIdCounts | src/app/dashboard/_redux/dashboard-slice.tsx:23 | Every entry with another id keeps its multiplicity; entries with the id drop to zero |
| AppDashboardSlice.RemoveIdIdempotent | src/app/dashboard/_redux/dashboard-slice.tsx:23 | Deleting twice is deleting once |
| AppDashboardSlice.RemoveIdCommute | src/app/dashboard/_redux/dashboard-slice.tsx:23 | Deletes of two ids commute |
| AppDashboardSlice.Reduce | src/app/dashboard/_redux/dashboard-slice.tsx:7-41 | Definition of the reducers; their meaning is stated by the lemmas below |
| AppDashboardSlice.SetWhiteboardsSettles | src/app/dashboard/_redux/dashboard-slice.tsx:8-12 | setWhiteboards stores the list, sets isLoading false and error null, and changes nothing else |
| AppDashboardSlice.AddWhiteboardAppends | src/app/dashboard/_redux/dashboard-slice.tsx:13-15 | addWhiteboard appends at the end, keeps the earlier entries and other fields, and accepts a duplicate id |
| AppDashboardSlice.DuplicateAddShadowed | src/app/dashboard/_redux/dashboard-slice.tsx:13-24 | After adding a duplicate id, update changes only the older entry and delete removes both |
| AppDashboardSlice.UpdateWhiteboardMerges | src/app/dashboard/_redux/dashboard-slice.tsx:16-21 | updateWhiteboard merges the patch into the first entry with the id only; an unknown id leaves the state unchanged |
| AppDashboardSlice.UpdateWhiteboardIdempotent | src/app/dashboard/_redux/dashboard-slice.tsx:16-21 | Repeating an update whose patch keeps the id changes nothing more |
| AppDashboardSlice.UpdateFirstIdempotent | src/app/dashboard/_redux/dashboard-slice.tsx:16-21 | On the list itself: merging the same patch into the first matching entry twice is merging it once |
| AppDashboardSlice.FirstWithId | src/app/dashboard/_redux/dashboard-slice.tsx:17 | Any index holding the id has a first such index at or before it, so `findIndex` has a value to find |
| AppDashboardSlice.DeleteWhiteboardFilters | src/app/dashboard/_redux/dashboard-slice.tsx:22-24 | deleteWhiteboard removes every entry with the id, keeps the multiplicity of the others and the other fields, and is idempotent |
| AppDashboardSlice.FieldSettersFrame | src/app/dashboard/_redux/dashboard-slice.tsx:25-40 | setError stores the message and stops loading; setLoading, setFilter, setSortBy and setSearchQuery each change only their field |
| AppDashboardSlice.DashboardSlice.constructor | src/app/dashboard/_redux/dashboard-state.tsx:19-26 | The initial state: empty list, not loading, no error, filter 'all', sort by date, empty query |
| AppDashboardSlice.DashboardSlice.SetWhiteboards | src/app/dashboard/_redux/dashboard-slice.tsx:8-12 | The draft after the assignments equals the reducer's result |
| AppDashboardSlice.DashboardSlice.AddWhiteboard | src/app/dashboard/_redux/dashboard-slice.tsx:13-15 | The push equals the reducer's result |
| AppDashboardSlice.DashboardSlice.UpdateWhiteboard | src/app/dashboard/_redux/dashboard-slice.tsx:16-21 | `findIndex` and then assigning at the found index equals the reducer's first-match update |
| AppDashboardSlice.DashboardSlice.DeleteWhiteboard | src/app/dashboard/_redux/dashboard-slice.tsx:22-24 | The filtered list equals the reducer's result |
| AppDashboardSlice.DashboardSlice.SetLoading | src/app/dashboard/_redux/dashboard-slice.tsx:25-27 | Equals the reducer's result |
| AppDashboardSlice.DashboardSlice.SetError | src/app/dashboard/_redux/dashboard-slice.tsx:28-31 | Equals the reducer's result |
| AppDashboardSlice.DashboardSlice.SetFilter | src/app/dashboard/_redux/dashboard-slice.tsx:32-34 | Equals the reducer's result |
| AppDashboardSlice.DashboardSlice.SetSortBy | src/app/dashboard/_redux/dashboard-slice.tsx:35-37 | Equals the reducer's result |
| AppDashboardSlice.DashboardSlice.SetSearchQuery | src/app/dashboard/_redux/dashboard-slice.tsx:38-40 | Equals the reducer's result |
| StoreDashboardSlice.Reduce | src/store/slices/dashboard-slice.tsx:24-31 | Definition of the reducers; their meaning is stated by ActionsSetOwnField and ActionsIdempotentAndCommute |
| StoreDashboardSlice.ActionsSetOwnField | src/store/slices/dashboard-slice.tsx:25-30 | setWhiteboards sets only the list (loading untouched) and setLoading only the flag |
| StoreDashboardSlice.ActionsIdempotentAndCommute | src/store/slices/dashboard-slice.tsx:25-30 | Both actions are idempotent, and the two commute |
| StoreDashboardSlice.DashboardSlice.constructor | src/store/slices/dashboard-slice.tsx:16-19 | Empty list, not loading |
| StoreDashboardSlice.DashboardSlice.SetWhiteboards | src/store/slices/dashboard-slice.tsx:25-27 | Equals the reducer's result |
| StoreDashboardSlice.DashboardSlice.SetLoading | src/store/slices/dashboard-slice.tsx:28-30 | Equals the reducer's result |
| DrawingSlice.Reduce | src/store/slices/drawing-slice.tsx:22-35 | Definition of the setters; their meaning is stated by SettersChangeOnlyTheirField and LastWriteWins |
| DrawingSlice.SettersChangeOnlyTheirField | src/store/slices/drawing-slice.tsx:23-34 | Each setter stores its payload unchanged (any stroke width) and changes only its field |
| DrawingSlice.LastWriteWins | src/store/slices/drawing-slice.tsx:23-34 | Two writes to one field leave the second; every action is idempotent; writes to different fields commute |
| DrawingSlice.DrawingSlice.constructor | src/store/slices/drawing-slice.tsx:12-17 | Pen, black, width 2, no fill |
| DrawingSlice.DrawingSlice.SetSelectedTool | src/store/slices/drawing-slice.tsx:23-25 | Equals the reducer's result |
| DrawingSlice.DrawingSlice.SetSelectedColor | src/store/slices/drawing-slice.tsx:26-28 | Equals the reducer's result |
| DrawingSlice.DrawingSlice.SetStrokeWidth | src/store/slices/drawing-slice.tsx:29-31 | Equals the reducer's result |
| DrawingSlice.DrawingSlice.SetFill | src/store/slices/drawing-slice.tsx:32-34 | Equals the reducer's result |
| StoreAuthSlice.Reduce | src/store/slices/auth-slice.tsx:19-34 | Definition of the reducers; their meaning is stated by ActionEffects and ActionsIdempotent |
| StoreAuthSlice.ActionEffects | src/store/slices/auth-slice.tsx:20-33 | setUser stores the user and clears the error; setError and setLoading change only their field; logout equals setUser(null); none but setLoading touches isLoading |
| StoreAuthSlice.ActionsIdempotent | src/store/slices/auth-slice.tsx:20-33 | Every action is idempotent |
| StoreAuthSlice.AuthSlice.constructor | src/store/slices/auth-slice.tsx:10-14 | No user, not loading, no error |
| StoreAuthSlice.AuthSlice.SetUser | src/store/slices/auth-slice.tsx:20-23 | Equals the reducer's result |
| StoreAuthSlice.AuthSlice.SetLoading | src/store/slices/auth-slice.tsx:24-26 | Equals the reducer's result |
| StoreAuthSlice.AuthSlice.SetError | src/store/slices/auth-slice.tsx:27-29 | Equals the reducer's result |
| StoreAuthSlice.AuthSlice.Logout | src/store/slices/auth-slice.tsx:30-33 | Equals the reducer's result |
| AppAuthSlice.Reduce | src/app/auth/_redux/auth-slice.tsx:8-26 | Definition of the reducers; their meaning is stated by ActionEffects and ClearAuthResets |
| AppAuthSlice.ActionEffects | src/app/auth/_redux/auth-slice.tsx:9-20 | setUser settles with that user and no error; setError keeps the user, stores the message and stops loading; setLoading changes only the flag |
| AppAuthSlice.ClearAuthResets | src/app/auth/_redux/auth-slice.tsx:21-25 | clearAuth reaches one state from anywhere, is idempotent, equals setUser(null) from the initial state, and differs from the initial state, which is loading |
| AppAuthSlice.AuthSlice.constructor | src/app/auth/_redux/auth-state.tsx:9-13 | No user, loading, no error |
| AppAuthSlice.AuthSlice.SetUser | src/app/auth/_redux/auth-slice.tsx:9-13 | Equals the reducer's result |
| AppAuthSlice.AuthSlice.SetLoading | src/app/auth/_redux/auth-slice.tsx:14-16 | Equals the reducer's result |
| AppAuthSlice.AuthSlice.SetError | src/app/auth/_redux/auth-slice.tsx:17-20 | Equals the reducer's result |
| AppAuthSlice.AuthSlice.ClearAuth | src/app/auth/_redux/auth-slice.tsx:21-25 | Equals the reducer's result |
| WhiteboardSlice.Reduce | src/store/slices/whiteboard-slice.tsx:25-32 | Definition of the setters; their meaning is stated by SettersLastWriteWins and CurrentWhiteboardSticks |
| WhiteboardSlice.SettersLastWriteWins | src/store/slices/whiteboard-slice.tsx:26-31 | Each setter changes only its field; repeated writes keep the last |
| WhiteboardSlice.CurrentWhiteboardSticks | src/store/slices/whiteboard-slice.tsx:26-28 | Once a whiteboard is current, no run of actions clears it, and a run of setLoading keeps the same one |
| WhiteboardSlice.WhiteboardSlice.constructor | src/store/slices/whiteboard-slice.tsx:17-20 | No whiteboard, not loading |
| WhiteboardSlice.WhiteboardSlice.SetWhiteboard | src/store/slices/whiteboard-slice.tsx:26-28 | Equals the reducer's result |
| WhiteboardSlice.WhiteboardSlice.SetLoading | src/store/slices/whiteboard-slice.tsx:29-31 | Equals the reducer's result |
| RootSlice.Reduce | src/app/_redux/root-slice.tsx:7-23 | Definition of the reducers; their meaning is stated by ActionEffects, AddAllAppends and ClearThenAddIsSet |
| RootSlice.AddAll | src/app/_redux/root-slice.tsx:17-19 | One addFeaturedContent action per item |
| RootSlice.ActionEffects | src/app/_redux/root-slice.tsx:8-22 | Each action changes only its own field: setLoading and setWelcomeMessage store their payload; setFeaturedContent replaces the list; add appends at the end; clear empties the list and is idempotent |
| RootSlice.AddAllAppends | src/app/_redux/root-slice.tsx:17-19 | Adding items one by one appends them in order |
| RootSlice.ClearThenAddIsSet | src/app/_redux/root-slice.tsx:14-22 | Clearing and then adding the items equals setFeaturedContent with them |
| RootSlice.RootSlice.constructor | src/app/_redux/root-state.tsx:11-15 | Not loading, 'Welcome to Whiteboard App', no items |
| RootSlice.RootSlice.SetLoading | src/app/_redux/root-slice.tsx:8-10 | Equals the reducer's result |
| RootSlice.RootSlice.SetWelcomeMessage | src/app/_redux/root-slice.tsx:11-13 | Equals the reducer's result |
| RootSlice.RootSlice.SetFeaturedContent | src/app/_redux/root-slice.tsx:14-16 | Equals the reducer's result |
| RootSlice.RootSlice.AddFeaturedContent | src/app/_redux/root-slice.tsx:17-19 | Equals the reducer's result |
| RootSlice.RootSlice.ClearFeaturedContent | src/app/_redux/root-slice.tsx:20-22 | Equals the reducer's result |
| Canvas.PressPath | src/components/whiteboard/Canvas.tsx:39-43 | Pen and eraser start with the point once; rectangle, circle and line with it twice |
| Canvas.DragPath | src/components/whiteboard/Canvas.tsx:53-56 | Freehand tools append the point and keep the old path as prefix; the others hold exactly four entries: the path's first two (NaN for each one absent, so both for an empty path) and then the point |
| Canvas.Coordinates | src/components/whiteboard/Canvas.tsx:54 | Two numbers per point |
| Canvas.FreehandKeepsEveryPoint | src/components/whiteboard/Canvas.tsx:53-54 | A freehand path after any run of moves is the old path followed by every point in order |
| Canvas.TwoPointKeepsPressAndLast | src/components/whiteboard/Canvas.tsx:55-56 | A two-point path after any moves holds the press point and the latest point only |
| Canvas.GesturePath | src/components/whiteboard/Canvas.tsx:34-58 | What a whole press-and-drag gesture leaves in `currentPath`, for both tool kinds |
| Canvas.FigureFor | src/components/whiteboard/Canvas.tsx:66-108 | The emitted shape has the tool's kind and width; white for the eraser; fill only for a filled rectangle or circle; points only for pen, eraser and line |
| Canvas.RectangleNormalised | src/components/whiteboard/Canvas.tsx:74-86 | The rectangle has non-negative size, spans exactly the two corners, and is the same whichever way it was dragged |
| Canvas.CircleCentredOnPress | src/components/whiteboard/Canvas.tsx:87-99 | The circle is centred on the press point and its squared radius is the squared distance to the release point |
| Canvas.RectangleWithoutCorners | src/components/whiteboard/Canvas.tsx:75-82 | A rectangle released with fewer than two path entries has NaN geometry |
| Canvas.RenderCurrentDrawing | src/components/whiteboard/Canvas.tsx:117-118 | A preview exists exactly while drawing with at least two entries, and it is the shape mouse-up would emit |
| Canvas.PointerGesture.constructor | src/components/whiteboard/Canvas.tsx:31-32 | Not drawing, empty path |
| Canvas.PointerGesture.HandleMouseDown | src/components/whiteboard/Canvas.tsx:34-44 | Drawing starts; the path is the press path, or is left as it was without a pointer position |
| Canvas.PointerGesture.HandleMouseMove | src/components/whiteboard/Canvas.tsx:46-58 | Outside a gesture or without a position nothing changes; otherwise the path is dragged |
| Canvas.PointerGesture.HandleMouseUp | src/components/whiteboard/Canvas.tsx:60-115 | Outside a gesture nothing happens; otherwise exactly one shape is emitted from the path and the gesture is reset |
| RealtimeCursor.PickColor | src/components/realtime/RealtimeCursor.tsx:20-28 | The colour chosen for any `Math.random()` value is a palette colour |
| RealtimeCursor.EveryColorReachable | src/components/realtime/RealtimeCursor.tsx:28 | Every palette colour is chosen for some random value |
| RealtimeCursor.OutgoingCursor | src/components/realtime/RealtimeCursor.tsx:31-46 | Nothing is broadcast without a user; otherwise the position, id and colour, with 'Anonymous' for an empty email |
| RealtimeCursor.CursorLabel | src/components/realtime/RealtimeCursor.tsx:141 | The tag is the email's prefix up to its first '@' |
| RealtimeCursor.ApplyCursor | src/components/realtime/RealtimeCursor.tsx:52-58 | Definition of the 'cursor' handler's map update; its meaning is stated by CursorEventEffects and LatestCursorWins |
| RealtimeCursor.CursorEventEffects | src/components/realtime/RealtimeCursor.tsx:52-58 | Another user's cursor sets exactly that entry; the own cursor changes nothing |
| RealtimeCursor.ApplyUserLeft | src/components/realtime/RealtimeCursor.tsx:64-70 | Definition of the 'user_left' handler's map update; its meaning is stated by UserLeftEffects |
| RealtimeCursor.UserLeftEffects | src/components/realtime/RealtimeCursor.tsx:64-70 | 'user_left' removes that entry only, is a no-op for an absent user, and is idempotent |
| RealtimeCursor.LatestCursorWins | src/components/realtime/RealtimeCursor.tsx:54-57 | Only a user's latest cursor is kept |
| RealtimeCursor.EventsKeepWellKeyed | src/components/realtime/RealtimeCursor.tsx:52-70 | Both events keep every entry under its own user id and never add the current user |
| RealtimeCursor.CursorOverlay.constructor | src/components/realtime/RealtimeCursor.tsx:25-27 | An empty, well-keyed map |
| RealtimeCursor.CursorOverlay.OnCursor | src/components/realtime/RealtimeCursor.tsx:52-58 | The map update equals `ApplyCursor` and keeps the map well keyed |
| RealtimeCursor.CursorOverlay.OnUserLeft | src/components/realtime/RealtimeCursor.tsx:64-70 | The removal equals `ApplyUserLeft` and keeps the map well keyed |
| RealtimeChat.Receive | src/components/realtime/RealtimeChat.tsx:62-78 | Without a subscription nothing arrives; otherwise the message is appended after all earlier ones, and the badge grows exactly when the panel is closed and the sender is someone else |
| RealtimeChat.WithOpen | src/components/realtime/RealtimeChat.tsx:54-59 | Opening the panel clears the badge; the log and input are kept |
| RealtimeChat.Send | src/components/realtime/RealtimeChat.tsx:87-103 | Nothing is sent without a user or with a blank input; otherwise the trimmed text is sent with 'Anonymous' for an empty email, and the input is cleared |
| RealtimeChat.ChatKeepsOpenMeansRead | src/components/realtime/RealtimeChat.tsx:54-103 | Every state change keeps the badge at zero while the panel is open |
| RealtimeChat.UnreadRules | src/components/realtime/RealtimeChat.tsx:76-78 | Opening clears the badge; messages received while open leave it at zero; own messages never raise it |
| RealtimeChat.SendTrimsOnce | src/components/realtime/RealtimeChat.tsx:88-102 | A sent text is never empty and is already trimmed, and an immediate second send sends nothing |
| RealtimeChat.SendDisabled | src/components/realtime/RealtimeChat.tsx:197 | Definition of the send button's test; its meaning is stated by SendDisabledMeansNothingSent |
| RealtimeChat.SendDisabledMeansNothingSent | src/components/realtime/RealtimeChat.tsx:197 | The button's `!newMessage.trim()` is blankness, and for a signed-in user it disables the button exactly when `sendMessage` (line 88) would send nothing |
| RealtimeChat.ChatName | src/components/realtime/RealtimeChat.tsx:174 | The username when non-empty, else the whole prefix of the email before its first '@' (all of it when there is none) |
| RealtimeChat.GetInitials | src/components/realtime/RealtimeChat.tsx:105-113 | At most two upper-case word starts of the name, empty exactly when the name is only separators |
| RealtimeChat.ChatPanel.constructor | src/components/realtime/RealtimeChat.tsx:24-27 | The empty closed panel with no badge |
| RealtimeChat.ChatPanel.OnMessage | src/components/realtime/RealtimeChat.tsx:65-78 | Equals `Receive` and keeps the badge rule |
| RealtimeChat.ChatPanel.SetOpen | src/components/realtime/RealtimeChat.tsx:54-59 | Equals `WithOpen` |
| RealtimeChat.ChatPanel.Toggle | src/components/realtime/RealtimeChat.tsx:123 | Flips the panel |
| RealtimeChat.ChatPanel.Close | src/components/realtime/RealtimeChat.tsx:141 | Closes the panel |
| RealtimeChat.ChatPanel.SetNewMessage | src/components/realtime/RealtimeChat.tsx:190 | Stores the typed text |
| RealtimeChat.ChatPanel.SendMessage | src/components/realtime/RealtimeChat.tsx:87-103 | State and payload equal `Send` |
| RealtimeAvatarStack.ToOnlineUser | src/components/realtime/RealtimeAvatarStack.tsx:98-102 | Id and time kept; a truthy email is kept and a missing or empty one becomes 'Anonymous', so the email is never empty |
| RealtimeAvatarStack.OnlineUsers | src/components/realtime/RealtimeAvatarStack.tsx:95-103 | One user per row of someone else, never the current user, none with an empty email |
| RealtimeAvatarStack.OnlineUsersAppend | src/components/realtime/RealtimeAvatarStack.tsx:96-102 | The filter-and-map distributes over concatenation, so order is kept |
| RealtimeAvatarStack.OnlineUsersMembers | src/components/realtime/RealtimeAvatarStack.tsx:96-102 | A user is listed exactly when some other user's row maps to it |
| RealtimeAvatarStack.GetInitials | src/components/realtime/RealtimeAvatarStack.tsx:135-143 | At most two upper-case starts of the dot-separated parts of the email's local part |
| RealtimeAvatarStack.Render | src/components/realtime/RealtimeAvatarStack.tsx:149-171 | Nothing for no users; else the first min(3, n), an overflow badge of n - 3 exactly when n > 3, and 'collaborator' exactly for one user |
| RealtimeAvatarStack.SelfNeverShown | src/components/realtime/RealtimeAvatarStack.tsx:95-154 | The drawn stack never shows the current user and counts the other users' rows |
| CurrentUserAvatar.DisplayName | src/components/realtime/CurrentUserAvatar.tsx:45 | The username, else the email's non-empty local part, else 'User'; never empty |
| CurrentUserAvatar.DisplayNameFallsThrough | src/components/realtime/CurrentUserAvatar.tsx:45 | An email starting with '@' falls through to 'User' |
| CurrentUserAvatar.AvatarInitials | src/components/realtime/CurrentUserAvatar.tsx:46-51 | One or two characters: '??' for a name of separators only, else the upper-cased first two word starts |
| CurrentUserAvatar.Render | src/components/realtime/CurrentUserAvatar.tsx:43-75 | Nothing without a user; the picture exactly when the profile has one; the label exactly when asked for, showing the username or the email |
| ProfilePage.Fetched | src/app/profile/page.tsx:30-54 | Without a user nothing changes; a row fills the form (missing fields empty) unless the error is other than not-found; loading always ends |
| ProfilePage.NotFoundIsNoError | src/app/profile/page.tsx:41-43 | 'PGRST116' acts as no error; any other code acts like an exception |
| ProfilePage.NullIfEmpty | src/app/profile/page.tsx:73-74 | null exactly for the empty string |
| ProfilePage.SaveMessage | src/app/profile/page.tsx:77-90 | No message exactly on success; 'taken' for '23505'; the generic failure otherwise |
| ProfilePage.UsernameTooShort | src/app/profile/page.tsx:64 | Definition of the username check; its meaning is stated by Updated and ValidationWins |
| ProfilePage.Updated | src/app/profile/page.tsx:56-94 | Without a user nothing; saving always ends; a too-short username writes nothing; otherwise the row is written with nulls for empty fields and the reply decides the message and success |
| ProfilePage.ValidationWins | src/app/profile/page.tsx:63-67 | A refused username gives the same outcome whatever the database would reply; the error is empty exactly on an acknowledged write |
| ProfilePage.SaveDisabled | src/app/profile/page.tsx:250 | Definition of the save button's test; its meaning is stated by SaveEnabledAfterSave |
| ProfilePage.SaveEnabledAfterSave | src/app/profile/page.tsx:91-92 | After a signed-in user's save, whatever its outcome, the button is enabled again; without a user it stays as it was |
| ProfilePage.AvatarPath | src/app/profile/page.tsx:101-104 | Definition of the upload path; its meaning is stated by AvatarPathShape and AfterLastOfDotted |
| ProfilePage.AvatarPathShape | src/app/profile/page.tsx:101-104 | The path is in 'avatars/', begins with the user id, and keeps the file's extension |
| ProfilePage.AfterLastOfDotted | src/app/profile/page.tsx:102-103 | The extension of `stem.ext` is `ext` when `ext` has no dot |
| ProfilePage.AvatarUploaded | src/app/profile/page.tsx:96-129 | No file, no change; otherwise the path used, the new URL on success, the failure message otherwise, and loading ends |
| ProfilePage.GetInitials | src/app/profile/page.tsx:131-136 | The first two characters of the username, else of the email, upper-cased; '??' when the username is empty and the email missing or empty |
| ProfilePage.ProfileForm.constructor | src/app/profile/page.tsx:14-19 | Empty form, no flags |
| ProfilePage.ProfileForm.SetUsername | src/app/profile/page.tsx:239 | Stores the typed username |
| ProfilePage.ProfileForm.FetchProfile | src/app/profile/page.tsx:30-54 | Equals `Fetched` |
| ProfilePage.ProfileForm.UpdateProfile | src/app/profile/page.tsx:56-94 | State and written row equal `Updated` |
| ProfilePage.ProfileForm.SuccessTimerFired | src/app/profile/page.tsx:87 | Clears the success flag |
| ProfilePage.ProfileForm.UploadAvatar | src/app/profile/page.tsx:96-129 | State and path equal `AvatarUploaded` |
| JoinPage.CodeAfterInput | src/app/join/page.tsx:36-39 | At most six characters, each the upper-cased typed one |
| JoinPage.CodeAfterInputIdempotent | src/app/join/page.tsx:36-39 | Re-entering a stored code changes nothing |
| JoinPage.HandleJoin | src/app/join/page.tsx:11-15 | No navigation exactly for a blank code; otherwise '/join/' then the trimmed, upper-cased code |
| JoinPage.DestinationNormalised | src/app/join/page.tsx:12-13 | For a non-blank code the destination is '/join/' followed by the upper-cased, trimmed code, which is non-empty, has no lower-case letter and no surrounding white space |
| JoinPage.JoinIgnoresCase | src/app/join/page.tsx:13 | Upper-casing the code first does not change the destination |
| JoinPage.JoinEnabled | src/app/join/page.tsx:46 | Definition of the join button's test; its meaning is stated by EnabledAfterSixTyped and EnabledButBlank |
| JoinPage.EnabledAfterSixTyped | src/app/join/page.tsx:39-46 | With the field capped at six characters, the button is enabled exactly when at least six were typed |
| JoinPage.EnabledButBlank | src/app/join/page.tsx:12-46 | Six spaces enable the button, yet joining goes nowhere |
| JoinManualPage.ReplyError | src/app/join-manual/page.tsx:40-59 | No message exactly when accepted; the exception, procedure-error and invalid-code messages otherwise, with the procedure's own text when truthy |
| JoinManualPage.Joined | src/app/join-manual/page.tsx:18-60 | Definition of one press of the button; its meaning is stated by JoinedEffects, GuardOrder and ButtonAfterCall |
| JoinManualPage.Called | src/app/join-manual/page.tsx:33-59 | Definition of the part after the procedure call; its meaning is stated by JoinedEffects |
| JoinManualPage.JoinedEffects | src/app/join-manual/page.tsx:18-60 | A blank code only sets its message; no user only goes to '/auth'; otherwise the procedure gets the trimmed upper-cased code, the code is kept, the message is the reply's error, success and loading hold exactly when accepted, and only an accepted reply leaves for the whiteboard after 1000 ms |
| JoinManualPage.GuardOrder | src/app/join-manual/page.tsx:19-27 | A blank code is reported even without a user, whatever the reply |
| JoinManualPage.ButtonDisabled | src/app/join-manual/page.tsx:97 | Definition of the join button's test; its meaning is stated by ButtonAfterCall |
| JoinManualPage.ButtonAfterCall | src/app/join-manual/page.tsx:97 | After a call the button is disabled exactly when the join was accepted |
| JoinManualPage.CodeAfterInput | src/app/join-manual/page.tsx:76 | Same length, each character the upper-cased typed one, so no lower-case letter |
| JoinManualPage.ManualJoinForm.constructor | src/app/join-manual/page.tsx:12-15 | Empty code, no flags |
| JoinManualPage.ManualJoinForm.OnCodeChange | src/app/join-manual/page.tsx:76 | Stores the upper-cased input |
| JoinManualPage.ManualJoinForm.HandleJoin | src/app/join-manual/page.tsx:18-60 | State, procedure argument and navigation equal `Joined`, whose effects `JoinedEffects` states |
| JoinManualPage.ManualJoinForm.ApplyReply | src/app/join-manual/page.tsx:33-59 | From the state the call was made in, state, argument and navigation equal those of the awaited part of `Joined` |
| Middleware.AnyPrefixOf | src/middleware.ts:34-36 | True exactly when some route is a prefix of the path |
| Middleware.IsProtectedRoute | src/middleware.ts:33-36 | Definition of the protected-route test; its meaning is stated by AnyPrefixOf, PlainPrefixTest and ShortPathsOpen |
| Middleware.PlainPrefixTest | src/middleware.ts:33-36 | Any path beginning with a protected route's text is protected, such as '/dashboardX' |
| Middleware.ShortPathsOpen | src/middleware.ts:33-36 | Paths shorter than six characters, among them '/' and '/auth', are not protected |
| Middleware.Decide | src/middleware.ts:38-58 | To '/auth' exactly without a session on a protected path; to '/dashboard' exactly with a session on '/'; otherwise, including a failed lookup, pass through; a redirect changes only the path |
| Middleware.RedirectTargetPasses | src/middleware.ts:42-52 | The target of a redirect passes through, so there is no redirect loop |
| Middleware.OpenPages | src/middleware.ts:42-52 | '/auth' always passes, and '/' passes without a session |
| ErrorHandler.HandleSupabaseError | src/lib/supabase/error-handler.ts:3-30 | Never empty; 'PGRST116' and 'PGRST301' first, then 406 and 409, else the error's own message or the generic one |
| ErrorHandler.MessageSources | src/lib/supabase/error-handler.ts:13-29 | The message is one of the five fixed texts or the error's own |
| ErrorHandler.CodeBeforeStatus | src/lib/supabase/error-handler.ts:13-27 | A known code decides the message whatever the status and text |
| ErrorHandler.MissingErrorIsUnexpected | src/lib/supabase/error-handler.ts:29 | A null error gets 'An unexpected error occurred' |
| ErrorHandler.IsAuthError | src/lib/supabase/error-handler.ts:32-34 | Definition of isAuthError; its meaning is stated by JwtMessageIsAuthError and NoJwtNoAuthError |
| ErrorHandler.JwtMessageIsAuthError | src/lib/supabase/error-handler.ts:32-34 | A message containing 'JWT' anywhere is an auth error |
| ErrorHandler.NoJwtNoAuthError | src/lib/supabase/error-handler.ts:32-34 | No 'JWT' in the message and a status other than 401 is not an auth error |
| ErrorHandler.IsPermissionError | src/lib/supabase/error-handler.ts:36-38 | Definition of isPermissionError; its meaning is stated by PermissionMessages |
| ErrorHandler.PermissionMessages | src/lib/supabase/error-handler.ts:13-37 | The access-denied and row-level-security texts come only from permission errors, and a permission error gets one of them unless it is a bare 403 or has 'PGRST301' |
| AppUrl.GetAppUrl | src/lib/utils/app-url.ts:5-13 | The browser origin, else the variable when truthy, else 'http://localhost:3000'; never empty on the server |
| AppUrl.NormalizePath | src/lib/utils/app-url.ts:21 | Always starts with '/'; a path that already does is kept; otherwise exactly one '/' is prepended |
| AppUrl.NormalizeIdempotent | src/lib/utils/app-url.ts:21 | Normalising twice is normalising once |
| AppUrl.GetFullUrl | src/lib/utils/app-url.ts:18-23 | Definition of getFullUrl; its meaning is stated by FullUrlShape and LeadingSlashOptional |
| AppUrl.FullUrlShape | src/lib/utils/app-url.ts:18-23 | The full URL is the app URL, then '/', and ends with the path |
| AppUrl.LeadingSlashOptional | src/lib/utils/app-url.ts:21-22 | Adding a leading '/' gives the same URL exactly when the path lacked one |
| Text.Upper | src/app/join/page.tsx:36 | `toUpperCase`: same length, no lower-case letter, each character upper-cased |
| Text.UpperIdempotent | src/app/join-manual/page.tsx:76 | Upper-casing twice is upper-casing once |
| Text.Trim | src/app/join/page.tsx:12 | `trim`: no longer than the input, with no white space at either end |
| Text.TrimEmpty | src/app/join-manual/page.tsx:19 | `trim()` is empty exactly for a blank input, so the guards test blankness |
| Text.TrimInfix | src/components/realtime/RealtimeChat.tsx:98 | The trimmed text is the infix between a run of leading and a run of trailing white space |
| Text.TrimmedUpper | src/app/join-manual/page.tsx:37 | For a non-blank code the code sent is non-empty, has no lower-case letter and no surrounding white space |
| Text.UpperKeepsBlank | src/app/join/page.tsx:12-13 | Upper-casing neither makes nor unmakes a blank text |
| Text.TrimIdempotent | src/components/realtime/RealtimeChat.tsx:98 | Trimming twice is trimming once |
| Text.TrimUpperCommute | src/app/join/page.tsx:13 | Trimming and upper-casing commute |
| Text.Take | src/app/profile/page.tsx:133 | `slice(0, n)`: a prefix of length min(n, length) |
| Text.ContainsIff | src/lib/supabase/error-handler.ts:33 | `includes` holds exactly when the text occurs at some position |
| Text.BeforeFirst | src/components/realtime/RealtimeCursor.tsx:141 | `split(sep)[0]`: the longest prefix without the separator |
| Text.AfterLastIsLastPart | src/app/profile/page.tsx:102 | `split('.').pop()`: the longest dot-free suffix, preceded by a dot when shorter than the name |
| Text.Split | src/components/realtime/RealtimeChat.tsx:108 | One more part than separators, no part holding a separator |
| Text.SplitRoundTrip | src/components/realtime/RealtimeChat.tsx:108 | Putting the separators back between the parts gives the input |
| Text.FirstCharsOfSplit | src/components/realtime/RealtimeChat.tsx:108-110 | The split-map-join chain gives exactly the word-start characters |
| Text.WordStartsEmpty | src/components/realtime/RealtimeChat.tsx:108-110 | No word starts exactly when every character is a separator |
| Text.Initials | src/components/realtime/RealtimeChat.tsx:105-113 | The first two upper-cased word starts, empty exactly for a name of separators only |

## Left out

- Every call to the hosted backend is left out: table queries, upserts, the join procedure, storage uploads, the auth session and realtime channel subscribe/send. Each reply is a parameter of the operation that uses it.
- The presence upsert, its 30-second interval and the 60-second query in RealtimeAvatarStack are left out. The rows the query returns are a parameter.
- The cookie plumbing and the route matcher of the middleware are framework glue and are left out.
- `crypto.randomUUID`, `Math.random`, the clock and `setTimeout`/`setInterval` are left out. Their results, and a timer firing, are parameters or separate operations.
- Canvas.FigureFor: the circle's radius is kept as its square (`Math.sqrt` on reals is not modelled), so the emitted radius is the square root of the modelled one.
- Floating point is left out. Coordinates and widths are reals. The `hsl(charCode * 137.5 % 360)` avatar colours are not modelled.
- Rendering is left out: Konva shapes, JSX, styles, scrolling, and the eraser's composite operation in the preview.
- Text.Upper: only ASCII letters are upper-cased. JavaScript's full Unicode case mapping is not modelled.
- Text: a JavaScript string is a sequence of UTF-16 code units, but a Dafny `char` is a Unicode scalar value. `length`, `slice`, `maxLength` and `part[0]` therefore count differently for characters outside the Basic Multilingual Plane, such as emoji. Such a character counts once here but twice in JavaScript. This affects ProfilePage.UsernameTooShort (`username.length < 3`), JoinPage.JoinEnabled (`code.length !== 6`), JoinPage.CodeAfterInput and JoinManualPage.CodeAfterInput (`maxLength`, per-character upper-casing), and the initials functions, where `part[0]` of an emoji-led part is a lone surrogate in JavaScript but the whole character here. These are Text.Initials, RealtimeChat.GetInitials, RealtimeAvatarStack.GetInitials, CurrentUserAvatar.AvatarInitials and ProfilePage.GetInitials.
- React scheduling is left out. Each handler is modelled as applying its state updates at once, so the loading flags seen while awaiting a reply do not appear as separate states. A reply is applied to the state the handler started from.
- Console logging (`console.error`) is left out.
- ErrorHandler.HandleSupabaseError: the `context` argument is left out, because it is only used in the log line.
- ErrorHandler.IsAuthError: when neither test holds and the message is missing, the source returns `undefined` rather than `false`. It is modelled as `false`.
- Error objects whose fields have other JavaScript types than the ones the code expects (a non-string message, a non-number status) are not modelled.
- The redux-persist wiring in store.ts, the configuration files, the type declarations and the pure UI components are left out.
- A `FileList` is reduced to the first file's name, because `uploadAvatar` reads nothing else.
- RealtimeCursor.PickColor requires a value in [0, 1), which is the range `Math.random()` returns.

# Dashboard client: a verified model of its state logic

The application is a single-page client: a login/sign-up form, a password
recovery form, a dashboard shell with five tabs, a three-column drag-and-drop
task board and a personal notes list. Authentication and storage belong to a
hosted auth/database client. This project models the state each component holds
and how each event handler changes it, and proves what those handlers promise.

- `KanbanBoard` (`kanban_board.dfy`) models the kanban board. A `Board` holds the
  columns and the per-column input map. `onDragEnd` removes a task from one
  column and inserts it into another (possibly the same one), and
  `KanbanBoard.Moved` specifies the result. `addTask` is a trimmed, guarded append
  (`AddedTo`). `deleteTask` is a filter (`DeletedFrom`). The lemmas prove:
  - the columns keep their number, ids, titles and order;
  - the board keeps the same multiset of tasks;
  - the dragged task lands at the destination index;
  - the other tasks keep their relative order;
  - add and delete change only the column they name.
- `Dashboard` (`dashboard.dfy`) models the dashboard shell. `NavState` holds the shell's
  three fields. Each click handler is a transition function, and the `Shell`
  class's methods are proved to follow those functions. `Content` is the tab
  switch. One invariant is preserved: the settings flyout is open only while the
  settings tab is active.
- `App` (`app.dfy`) models the root controller as a reducer from
  (`user`, `resetPassword`, auth event) to the next state, plus the three-way
  choice of which screen to render.
- `ForgotPassword` (`forgot_password.dfy`) models the recovery form. Its object invariant is
  `mode == Request`: the mode starts there and every assignment writes
  `Request`. So the reset form and its back button are never drawn, and
  `handlePasswordReset` cannot be reached from the user interface as written.
- `PersonalNotes` (`personal_notes.dfy`) models the notes list. It covers the updates the
  notes panel makes after the record store answers, and the composer and
  edit-buffer toggles.
- `Auth` (`auth.dfy`) models the login form's mode toggle, its submission and
  error handling, and the switch to the recovery form.
- Helpers:
  - `Seqs` models JavaScript's one-element `splice` and the key-based `filter`.
  - `JsStrings` models `String.prototype.trim` with ECMAScript's white-space set.
  - `AuthSession` holds the user and session records.
  - `Wrappers` holds `Option`/`Result`/`Outcome`.

Outside calls become inputs:
- Every call to the auth or record store client becomes an `Outcome` or `Result`
  parameter holding its answer.
- `uuidv4()` becomes a fresh-id parameter.
- The drag-and-drop library's report becomes a `DropResult` parameter.

The methods that issue a call return, as an out-parameter, what they sent:
- the sign-in or sign-up call;
- the reset email's recipient;
- the new password, or none when the two fields differ;
- the inserted note;
- the user id the note query filters on;
- the note update.

Behaviour worth noting:
- `deleteTask` removes every task in the column that has the id.
- Fetched notes are not sorted by the client.
- Nothing in the code ever switches the recovery form into reset mode.

## Model

| member | source | states |
|---|---|---|
| `KanbanBoard.FindIndex` | src/components/KanbanBoard.tsx:66-67 | the result is -1 exactly when no column has the id; otherwise it is the first column with that id |
| `KanbanBoard.Board.constructor` | src/components/KanbanBoard.tsx:20-50 | the board starts with the three fixed columns and their seeded tasks; every column's input is empty |
| `KanbanBoard.Board.SetTaskInput` | src/components/KanbanBoard.tsx:164-167 | typing changes only that column's input entry |
| `KanbanBoard.Board.OnDragEnd` | src/components/KanbanBoard.tsx:52-76 | a drop with no destination, or back on its starting place, changes nothing; any other drop yields `Moved`; the layout and the inputs are kept; the board's multiset of tasks is the same after every drop |
| `KanbanBoard.MoveKeepsColumns` | src/components/KanbanBoard.tsx:65-75 | a move keeps the number, ids, titles and order of the columns |
| `KanbanBoard.MovePreservesTasks` | src/components/KanbanBoard.tsx:65-75 | a move keeps the multiset of all tasks on the board, so also their total count |
| `KanbanBoard.MovePlacesTask` | src/components/KanbanBoard.tsx:70-73 | when the destination index is at most the column's length after removal, the dragged task ends at exactly that index |
| `KanbanBoard.MoveAcrossColumns` | src/components/KanbanBoard.tsx:70-73 | across columns: the source loses exactly the dragged task; the destination grows by one, and removing the new task gives back the old column; other columns are untouched |
| `KanbanBoard.MoveWithinColumn` | src/components/KanbanBoard.tsx:70-73 | within a column: the length is kept; removing the dragged task at its new place gives the column minus the dragged task at its old place; other columns are untouched |
| `KanbanBoard.AllTasksUpdate` | src/components/KanbanBoard.tsx:65-75 | replacing one column changes the board's task multiset by exactly the old and new column contents |
| `KanbanBoard.Board.AddTask` | src/components/KanbanBoard.tsx:78-97 | blank input after trimming changes nothing; otherwise a task with the fresh id and the trimmed text is appended at the end of the named column, every other column is unchanged, the board gains exactly that task, and that column's input is reset to empty |
| `KanbanBoard.AddAppendsOne` | src/components/KanbanBoard.tsx:82-93 | with distinct column ids, exactly one task is appended at the end of the named column; other columns are unchanged; the board gains exactly that task |
| `KanbanBoard.AddKeepsColumns` | src/components/KanbanBoard.tsx:82-93 | adding keeps every column's id and title |
| `KanbanBoard.AddToMissingColumn` | src/components/KanbanBoard.tsx:82-93 | adding to an id no column has changes nothing |
| `KanbanBoard.Board.DeleteTask` | src/components/KanbanBoard.tsx:99-111 | the columns become `DeletedFrom`; the layout and the inputs are kept |
| `KanbanBoard.DeleteFromColumn` | src/components/KanbanBoard.tsx:99-108 | only the named column changes; no task with the id is left there; every other task stays as often as before and in its order |
| `KanbanBoard.DeleteAbsentIsNoop` | src/components/KanbanBoard.tsx:104 | deleting an id the column does not hold changes nothing |
| `KanbanBoard.DeleteRemovesExactlyOne` | src/components/KanbanBoard.tsx:104 | an id that occurs once in its column is removed at its position, and the column and the board shrink by exactly one |
| `KanbanBoard.StandardLayoutUnique` | src/components/KanbanBoard.tsx:20-44 | the fixed three-column layout has distinct column ids |
| `JsStrings.TrimStart` | src/components/KanbanBoard.tsx:79 | the result is a suffix of the input; it starts with a non-white-space character or is empty; everything dropped is white space |
| `JsStrings.TrimEnd` | src/components/KanbanBoard.tsx:79 | the result is a prefix of the input; it ends with a non-white-space character or is empty; everything dropped is white space |
| `JsStrings.TrimIsEmptyIff` | src/components/KanbanBoard.tsx:79-80 | trimmed text is empty exactly when the input is empty or all white space |
| `JsStrings.TrimEdges` | src/components/KanbanBoard.tsx:79 | trimmed text is empty, or neither starts nor ends with white space |
| `JsStrings.TrimKeepsCore` | src/components/KanbanBoard.tsx:79 | the trimmed text is the contiguous slice of the input that starts right after the leading white space, with only white space before and after it (`IsCoreAt`) |
| `JsStrings.TrimIdempotent` | src/components/KanbanBoard.tsx:79 | trimming twice equals trimming once |
| `Seqs.RemoveAt` | src/components/KanbanBoard.tsx:70 | `splice(i, 1)` on an index that holds an element leaves one element fewer |
| `Seqs.ClampIndex` | src/components/KanbanBoard.tsx:73 | the insertion point of `splice(i, 0, x)` is `i` itself, or the length when `i` is past the end; it never exceeds the length |
| `Seqs.InsertAt` | src/components/KanbanBoard.tsx:73 | `splice(i, 0, x)` leaves one element more |
| `Seqs.RemoveAtMultiset` | src/components/KanbanBoard.tsx:70 | removing at an index takes exactly that element out of the multiset |
| `Seqs.InsertAtMultiset` | src/components/KanbanBoard.tsx:73 | inserting adds exactly that element to the multiset |
| `Seqs.InsertAtThenRemove` | src/components/KanbanBoard.tsx:73 | the inserted element sits at the clamped index, and removing it gives back the original sequence |
| `Seqs.RemoveWhereContents` | src/components/KanbanBoard.tsx:104 | filtering on a key drops every element with that key and keeps every other element as often as before |
| `Seqs.RemoveWhereSubsequence` | src/components/KanbanBoard.tsx:104 | filtering keeps the remaining elements in their order |
| `Seqs.RemoveWhereUnchangedIff` | src/components/KanbanBoard.tsx:104 | filtering changes nothing exactly when no element has the key |
| `Seqs.RemoveWhereSingle` | src/components/KanbanBoard.tsx:104 | when exactly one element has the key, filtering removes just that element at its position |
| `Dashboard.Shell.constructor` | src/components/Dashboard.tsx:34-36 | the shell starts on the overview tab with the sidebar and the flyout closed |
| `Dashboard.InitialState` | src/components/Dashboard.tsx:34-36 | the initial state is the overview tab with both panels closed, and it satisfies the flyout invariant |
| `Dashboard.Shell.ToggleSidebar` | src/components/Dashboard.tsx:42-44 | the sidebar flag flips and nothing else changes |
| `Dashboard.Shell.ToggleSettings` | src/components/Dashboard.tsx:46-48 | the flyout flag flips and nothing else changes |
| `Dashboard.Shell.NavClick` | src/components/Dashboard.tsx:139-147 | the new state is `NavClicked` of the old one, and the flyout invariant is kept |
| `Dashboard.Shell.SettingsItemClick` | src/components/Dashboard.tsx:164-168 | the new state is `SettingsItemClicked` of the old one, and the flyout invariant is kept |
| `Dashboard.Shell.OverlayClick` | src/components/Dashboard.tsx:306-312 | the new state is `OverlayClicked` of the old one, and the flyout invariant is kept |
| `Dashboard.NavClickSelects` | src/components/Dashboard.tsx:139-146 | any nav click selects its tab and closes the sidebar; a non-settings click closes the flyout; a settings click flips it |
| `Dashboard.SettingsClickTwice` | src/components/Dashboard.tsx:142-143 | two settings clicks in a row give the flyout back its earlier value, with the settings tab active and the sidebar closed |
| `Dashboard.SettingsItemCloses` | src/components/Dashboard.tsx:164-168 | a settings entry closes the flyout and the sidebar and keeps the active tab |
| `Dashboard.ToggleSidebarTwice` | src/components/Dashboard.tsx:42-44 | toggling the sidebar twice is the identity, and a toggle touches only the sidebar |
| `Dashboard.OverlayOnlyClosesSidebar` | src/components/Dashboard.tsx:308 | the overlay click closes the sidebar and keeps the tab and the flyout |
| `Dashboard.HandlersKeepFlyoutOnSettings` | src/components/Dashboard.tsx:139-168 | every reachable handler keeps the invariant that an open flyout implies the settings tab is active |
| `Dashboard.FlyoutOnlyBesideSettings` | src/components/Dashboard.tsx:136-159 | across the navigation list the flyout is drawn only beside the settings item, at most once, and at some item exactly when it is open |
| `Dashboard.ContentPerTab` | src/components/Dashboard.tsx:184-250 | distinct tabs show distinct panels, and the profile panel shows the user's email |
| `Dashboard.LabelsDistinct` | src/components/Dashboard.tsx:50-132 | the navigation labels are distinct, and so are the settings labels |
| `App.Root.constructor` | src/App.tsx:9-10 | the controller starts with no user and recovery mode off |
| `App.Root.OnAuthStateChange` | src/App.tsx:14-21 | the new state is `AfterAuthEvent` of the old state, the event and the session |
| `App.Root.CheckUser` | src/App.tsx:25-28 | the new state is `AfterCheckUser` of the old state and the looked-up user |
| `App.InitialShowsLogin` | src/App.tsx:9-10 | the initial state has no user and is not in recovery mode, so the login form shows |
| `App.RecoveryEventShowsRecovery` | src/App.tsx:15-16 | a recovery event keeps the user and shows the recovery screen, whatever the prior state |
| `App.OtherEventFollowsSession` | src/App.tsx:17-19 | any other event takes the session's user (none without a session), leaves recovery mode, and shows the login form or that user's dashboard |
| `App.CheckUserKeepsRecovery` | src/App.tsx:25-28 | the initial lookup sets only the user and never hides the recovery screen |
| `App.ScreenPrecedence` | src/App.tsx:37-45 | recovery mode wins; otherwise no user shows the login form, and a user shows that user's dashboard |
| `App.SignInReachesProfile` | src/App.tsx:17-19 | on the login screen, a session event carrying a user switches to that user's dashboard, whose profile shows the user's email |
| `ForgotPassword.RecoveryForm.constructor` | src/components/ForgotPassword.tsx:8-13 | the form starts in request mode with empty fields and no messages |
| `ForgotPassword.RecoveryForm.SetEmail` | src/components/ForgotPassword.tsx:69 | typing changes only the email; the mode is kept |
| `ForgotPassword.RecoveryForm.SetPassword` | src/components/ForgotPassword.tsx:101 | typing changes only the password; the mode is kept |
| `ForgotPassword.RecoveryForm.SetConfirmPassword` | src/components/ForgotPassword.tsx:122 | typing changes only the confirmation; the mode is kept |
| `ForgotPassword.RecoveryForm.HandlePasswordResetRequest` | src/components/ForgotPassword.tsx:15-31 | the link is requested for the current email; success shows the sent message and no error; failure shows the service's message and no success; exactly one message is set; the mode is kept |
| `ForgotPassword.RecoveryForm.HandlePasswordReset` | src/components/ForgotPassword.tsx:33-53 | in either mode: on mismatch no call is made, the error is "Passwords do not match" and there is no success; otherwise the new password is sent; success shows the updated message and sets request mode; failure shows the service's message; only a success changes the mode; request mode is never left; exactly one message is set |
| `ForgotPassword.RecoveryForm.BackToRequest` | src/components/ForgotPassword.tsx:172 | the back button sets request mode and changes nothing else |
| `ForgotPassword.FormPerMode` | src/components/ForgotPassword.tsx:167 | request mode draws the request form and reset mode draws the reset form |
| `ForgotPassword.OnlyRequestFormShown` | src/components/ForgotPassword.tsx:167-179 | under the invariant `mode == Request`, which every method keeps, only the request form is drawn and the back button never is |
| `PersonalNotes.NotesPanel.constructor` | src/components/PersonalNotes.tsx:14-17 | the panel starts with no notes, an empty composer, no edit buffer and the composer closed |
| `PersonalNotes.NotesPanel.FetchNotes` | src/components/PersonalNotes.tsx:23-39 | with no user nothing is asked and the notes stay; otherwise the query filters on the user's id; success replaces the notes by the answer, or by the empty list for a null answer; failure keeps them |
| `PersonalNotes.NotesPanel.HandleAddNote` | src/components/PersonalNotes.tsx:41-62 | with a user, the composer's note is sent with the user's id; success appends the stored record at the end, resets the composer and closes it; no user or a failure changes nothing |
| `PersonalNotes.NotesPanel.HandleUpdateNote` | src/components/PersonalNotes.tsx:64-85 | with no buffer nothing happens; otherwise the buffer's id, title and content are sent; success replaces the matching notes and clears the buffer; failure changes nothing |
| `PersonalNotes.NotesPanel.HandleDeleteNote` | src/components/PersonalNotes.tsx:87-100 | success removes the notes with that id; failure keeps the list |
| `PersonalNotes.NotesPanel.OpenComposer` | src/components/PersonalNotes.tsx:107 | the composer opens and nothing else changes |
| `PersonalNotes.NotesPanel.CancelComposer` | src/components/PersonalNotes.tsx:137 | the composer closes and keeps what was typed |
| `PersonalNotes.NotesPanel.SetDraftTitle` | src/components/PersonalNotes.tsx:120 | only the composer's title changes |
| `PersonalNotes.NotesPanel.SetDraftContent` | src/components/PersonalNotes.tsx:126 | only the composer's content changes |
| `PersonalNotes.NotesPanel.StartEditing` | src/components/PersonalNotes.tsx:185 | the chosen note becomes the edit buffer |
| `PersonalNotes.NotesPanel.CancelEditing` | src/components/PersonalNotes.tsx:170 | the edit buffer is dropped |
| `PersonalNotes.NotesPanel.SetEditTitle` | src/components/PersonalNotes.tsx:154 | only the buffer's title changes |
| `PersonalNotes.NotesPanel.SetEditContent` | src/components/PersonalNotes.tsx:159 | only the buffer's content changes |
| `PersonalNotes.ReplaceByIdSpec` | src/components/PersonalNotes.tsx:78-80 | replacement keeps the length and every id; each note with the buffer's id becomes the buffer; the others stay |
| `PersonalNotes.ReplaceByIdIdempotent` | src/components/PersonalNotes.tsx:78-80 | saving the same buffer twice is saving it once, and a buffer whose id no note has changes nothing |
| `PersonalNotes.RemoveByIdSpec` | src/components/PersonalNotes.tsx:96 | no note with the id is left; every other note stays as often as before and in its order; the list is unchanged exactly when no note has the id |
| `Auth.AuthForm.constructor` | src/components/Auth.tsx:10-14 | the form starts in login mode with empty fields, no error and the recovery switch off |
| `Auth.AuthForm.SetEmail` | src/components/Auth.tsx:66 | typing changes only the email |
| `Auth.AuthForm.SetPassword` | src/components/Auth.tsx:80 | typing changes only the password |
| `Auth.AuthForm.HandleAuth` | src/components/Auth.tsx:16-31 | login mode signs in and sign-up mode signs up, with the form's credentials; a failure shows its message and a success leaves no error; mode, email and password are kept |
| `Auth.AuthForm.ToggleMode` | src/components/Auth.tsx:118 | the mode becomes the other mode and nothing else changes |
| `Auth.AuthForm.OpenForgotPassword` | src/components/Auth.tsx:86-96 | offered only in login mode; it turns the recovery switch on, after which the recovery form is drawn |
| `Auth.OtherModeSwaps` | src/components/Auth.tsx:118 | the toggle swaps the modes, so toggling twice is the identity |
| `Auth.CallPerMode` | src/components/Auth.tsx:21-26 | the sign-in call is made exactly in login mode, with the form's email and password |
| `Auth.ScreenChoice` | src/components/Auth.tsx:33-35 | with the recovery switch on the recovery form is drawn; otherwise the "Forgot Password?" link is offered exactly in login mode |

## Left out

- Rendering, CSS classes, icons and the static Tailwind configuration.
  They are presentation only.
- The auth and record store calls (sign-in, sign-up, sign-out, user lookup,
  reset email, password update, and note select, insert, update and delete).
  They are a foreign client. Only their answers are inputs, and the request
  each handler sends is returned.
- Sign-out. It changes no local state; its effect arrives as an auth event,
  and `App.Root.OnAuthStateChange` covers that event.
- Subscribing to auth events, unsubscribing on unmount, and the ordering of
  asynchronous answers. These are lifecycle and timing. Each handler is
  modelled as one atomic step.
- The render between an async handler's first state writes and its awaited
  answer. For example, `error` and `success` are both cleared while a
  recovery request is pending. The model shows only the handler's final
  state.
- The server-side ordering of fetched notes (newest first). The store does it,
  and the client takes the answer as it comes.
- `uuidv4()`. It becomes a fresh-id parameter.
- The drag-and-drop library. Its report is an input. `KanbanBoard.Board.OnDragEnd`
  requires that both column ids exist and that the source index holds a task.
  The source leaves a missing column (`findIndex` giving -1) unhandled.
- Task arrays shared between states. `onDragEnd` copies only the outer column
  array, so its `splice` calls also change the columns' tasks in the previous
  state. The model works on values: it gives the new board but not the
  change to the old one.
- The browser's `required` and `minLength` checks on the form fields. The code
  never checks them itself.
- The settings menu's actions and the settings grid's buttons. They only log.
  Date formatting, the recovery link's redirect address and
  `e.preventDefault()` are left out too.
- `user.email` is optional in the auth client's user record. The model's user
  always has an email string.

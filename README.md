# React Dialer: admin directory, access guards, navigation and dialpad

This project models the decision logic of the React Dialer web app (a
Next.js VoIP dialer) in Dafny and proves properties of it.

- **Admin user directory** (`/api/admin/users`). `Directory.UserStore` is
  the MongoDB collection of user documents, held as a map from document id to
  document. `List`, `Create` and `Update` are the GET, POST and PUT handlers.
  Each handler first checks that the session role is exactly `"admin"`. Every
  user it returns goes through `sanitizeUser` (`Directory.Sanitize`). JSON
  fields are JavaScript values (`Js.Value`: undefined, null, a string or a
  number), so that `!x`, `x ?? d` and `x !== undefined` keep their meaning.
- **Admin users page**. `AdminUsersPage.UsersPage` holds the modal state, the
  form and the pending flags. Its pure parts are functions:
  - the form `openEditModal` fills in (`EditForm`);
  - the checks and the request `handleSubmit` builds (`Submit`, `BasePayload`).
  Lemmas connect the request the page sends to what the server then stores.
  `port` goes through a full model of `Number.parseInt(s, 10)`
  (`Js.ParseInt10`).
- **Session and guards**. `Auth.UseAuth` derives `user`, `isLoading` and
  `isAuthenticated` from the session and the cached user query. The role
  predicates (`UseRole`, `UseRoles`, `UseIsAdmin`, `UseIsAgent`) are built
  on it. The three route guards return the redirect their effect would
  issue, together with their flags.
- **Navigation**. The sidebar's items, its active-item rule and its
  "Signed in as" label are modelled, as is the `/home` layout's title lookup.
- **Dialpad**. `Dialpad.Dialer` holds the number buffer and the call
  button's decision. JsSIP's user agent and the current call are reduced to
  two booleans.

Three behaviours of the code are easy to misread:

- POST defaults the role with `role ?? "user"`. An empty-string role is
  therefore stored as given, not replaced by `"user"`
  (`Directory.NewDoc`).
- `useProtectedRouteByRole`'s `hasRole` can be true while the guard
  redirects to `/login`. This happens when the user query still caches a
  user after the session lost its own. `hasRole` alone does not mean the page
  stays (`ProtectedRoute.StaleUserHasRoleButGoesToLogin`).
- The dialpad's Call button is `disabled={!isConnected}`, and nothing on the
  home page ever sets `isConnected`. The button therefore stays disabled and
  `handleCall` cannot be reached from the page (`Dialpad.FreshPage`);
  `Dialpad.Dialer.Call` models what it would do if it ran.

## Model

| member | source | states |
|---|---|---|
| Directory.Sanitize | src/app/api/admin/users/route.ts:16-30 | id, email, role and both timestamps pass through; a missing name, number, extensionId, host or secret becomes "" and a missing port null; present values pass through; for a document with an email and a role, no output field is missing |
| Directory.SanitizeIgnoresPassword | src/app/api/admin/users/route.ts:16-30 | the response for a document does not depend on its stored password |
| Directory.IsAdmin | src/app/api/admin/users/route.ts:8-14 | a session is admin exactly when its role is the string "admin"; a missing, null or numeric role is never admin |
| Directory.FindById | src/app/api/admin/users/route.ts:122-126 | the cast fails exactly when the id is not a string of 24 hex digits; a stored id finds its document; a found document is the one the id names with its hex digits in lower case; otherwise nothing is found |
| Directory.CanonicalId | src/app/api/admin/users/route.ts:122 | the ObjectId a castable string names is the string with its hex digits in lower case; an id already in lower case names itself |
| Directory.SpellingsFindSameDocument | src/app/api/admin/users/route.ts:122 | two spellings of an id that differ only in the case of their hex digits find the same document |
| Directory.UpperCaseIdFindsDocument | src/app/api/admin/users/route.ts:122 | an id sent with upper-case hex digits finds the stored document with the lower-case id |
| Directory.NewDoc | src/app/api/admin/users/route.ts:81-91 | the created document holds every given field; the role is "user" only when the given role is null or undefined; both timestamps are the creation time |
| Directory.EmailTaken | src/app/api/admin/users/route.ts:128-135 | without an excluded id (the POST check) the email is taken exactly when some document has it; with one (the PUT check) exactly when a document other than the excluded one has it; the excluded document's own email is never taken when emails are unique |
| Directory.UpdatedDoc | src/app/api/admin/users/route.ts:136-151 | the stored document is the assigned fields with updatedAt stamped to now exactly when some field changed; an unchanged document is stored as it was; createdAt never changes |
| Directory.UpdateKeepsOmittedFields | src/app/api/admin/users/route.ts:128-151 | after PUT an undefined field, or a falsy email, role or password, keeps its stored value, and createdAt never changes |
| Directory.UpdateStoresGivenFields | src/app/api/admin/users/route.ts:136-149 | after PUT every field that is not undefined, and every truthy email, role or password, holds the value sent |
| Directory.UpdateIdempotent | src/app/api/admin/users/route.ts:136-151 | applying the same PUT body twice stores the same document as applying it once |
| Directory.InsertionPoint | src/app/api/admin/users/route.ts:40 | the position in a newest-first list after every user created strictly later |
| Directory.InsertNewestFirst | src/app/api/admin/users/route.ts:40 | inserting a user keeps a list ordered newest first, and the result is the old list plus exactly that user, as multisets |
| Directory.SpliceKeepsNewestFirst | src/app/api/admin/users/route.ts:40 | placing a user after every strictly newer one and before the rest keeps the list ordered newest first |
| Directory.SpliceAddsOne | src/app/api/admin/users/route.ts:40 | splicing a user into a list yields the old list plus exactly that user, as multisets, and keeps every old member |
| Directory.InsertKeepsDistinct | src/app/api/admin/users/route.ts:40-42 | inserting a user with a new id keeps all ids in the list distinct |
| Directory.AssignFields | src/app/api/admin/users/route.ts:136-149 | the handler's field-by-field assignments produce Directory.AssignedFields, the document after PUT's assignments, whose fields Directory.UpdateKeepsOmittedFields and Directory.UpdateStoresGivenFields describe |
| Directory.UserStore.List | src/app/api/admin/users/route.ts:32-43 | 403 for a non-admin; otherwise every stored user exactly once, sanitized, ordered by createdAt descending; in a valid store, no field of any listed user is missing |
| Directory.UserStore.Create | src/app/api/admin/users/route.ts:45-94 | 403 for a non-admin; 400 when email or password is falsy; 400 when the email is already stored; in each of these the store is unchanged; otherwise exactly one new document, the sanitized result with no field missing, and the store stays valid (unique emails, every document with an email and a role) |
| Directory.UserStore.Update | src/app/api/admin/users/route.ts:96-154 | 403 for a non-admin; 400 without an id; 500 when the id cannot be cast to an ObjectId; 404 for an unknown id; 400 when a truthy email belongs to another document; in each of these the store is unchanged; otherwise only the named document changes, to the updated document, the sanitized result with no field missing is returned, and the store stays valid |
| Js.StartsWithIsPrefix | src/components/sidebar.tsx:67-69 | `startsWith` is the sequence-prefix relation |
| Js.IntToDecimal | src/app/home/admin/users/page.tsx:136 | `String(n)`: a non-empty digit string for n >= 0; a minus sign followed by a non-empty digit string for n < 0 |
| Js.NatToDecimal | src/app/home/admin/users/page.tsx:136 | `String(n)` of a natural number is a non-empty digit string with no leading zero |
| Js.DigitsValueOfDecimal | src/app/home/admin/users/page.tsx:136 | reading the decimal digits of n gives n back |
| Js.DigitRun | src/app/home/admin/users/page.tsx:178 | the length of the leading digit run: all digits, and followed by a non-digit or the end |
| Js.TrimStart | src/app/home/admin/users/page.tsx:178 | parseInt's leading-whitespace skip: drops only whitespace and stops at the first non-whitespace character |
| Js.SignedDigits | src/app/home/admin/users/page.tsx:178 | a string made only of digits reads as the number they denote (other inputs: Js.SignedDigitsReadsLeadingRun and Js.SignedDigitsWithoutDigits) |
| Js.LeadingNumber | src/app/home/admin/users/page.tsx:178 | no number (NaN) exactly when the text after the sign is empty or does not start with a digit |
| Js.SignedDigitsReadsLeadingRun | src/app/home/admin/users/page.tsx:178 | no sign, "-" or "+", then a digit run, then the end or a non-digit: the value is the run's value, negated after "-"; the rest is ignored |
| Js.SignedDigitsAfterSign | src/app/home/admin/users/page.tsx:178 | when a digit follows the optional sign, the number is read from the text after the sign, negated exactly for "-" |
| Js.SignedDigitsWithoutDigits | src/app/home/admin/users/page.tsx:178 | when no digit follows the optional sign (a sign character read as a sign, never as part of the rest), the result is NaN |
| Js.TrimStartSkips | src/app/home/admin/users/page.tsx:178 | leading whitespace is dropped entirely when the text after it does not start with whitespace |
| Js.ParseIntSkipsWhitespace | src/app/home/admin/users/page.tsx:178 | leading whitespace does not change what parseInt reads |
| Js.ParseInt10 | src/app/home/admin/users/page.tsx:178 | `Number.parseInt(s, 10)` of a non-empty digit string is the number those digits denote |
| Js.ParseIntOfNegated | src/app/home/admin/users/page.tsx:178 | a minus sign before a digit string negates the parsed value |
| Js.ParseIntOfDecimal | src/app/home/admin/users/page.tsx:178 | `Number.parseInt(String(n), 10) == n` for every integer n |
| AdminUsersPage.EditForm | src/app/home/admin/users/page.tsx:125-141 | id, email and role copied; password ""; a missing text field ""; port "" exactly when it is missing or 0, otherwise `String(port)`, which parses back to the port |
| AdminUsersPage.WithField | src/app/home/admin/users/page.tsx:150-155 | the changed field holds the new value and every other field keeps its value |
| AdminUsersPage.PortPayload | src/app/home/admin/users/page.tsx:178 | an empty port is left out; a port parseInt cannot read is sent as null (NaN in JSON); otherwise the parsed value is sent; never a string |
| AdminUsersPage.BasePayload | src/app/home/admin/users/page.tsx:171-184 | empty text fields are left out; email and role are always sent; password is sent only when typed; port is left out exactly when empty, and a digit string is sent as its value |
| AdminUsersPage.Submit | src/app/home/admin/users/page.tsx:161-196 | rejected with "Password is required for new users." or "Missing user identifier." exactly in those cases; otherwise a POST of the payload, or a PUT of the payload carrying the form's id |
| AdminUsersPage.CreateRequestKeepsRole | src/app/home/admin/users/page.tsx:161-188 | a create request always carries a password, and the server stores the form's role, never its default |
| AdminUsersPage.BlankPasswordKeepsStoredPassword | src/app/home/admin/users/page.tsx:182-184 | an edit with a blank password leaves the stored password unchanged |
| AdminUsersPage.EmptiedFieldIsKept | src/app/home/admin/users/page.tsx:171-180 | emptying a text field or the port in the edit dialog leaves the stored value unchanged |
| AdminUsersPage.UntouchedEditIsNoOp | src/app/home/admin/users/page.tsx:125-196 | saving the edit dialog of a listed user without changes sends a PUT that passes the server's checks and stores the identical document |
| AdminUsersPage.UsersPage.constructor | src/app/home/admin/users/page.tsx:76-79 | the modal is closed, in create mode, with the empty form and no error |
| AdminUsersPage.UsersPage.OpenCreateModal | src/app/home/admin/users/page.tsx:118-123 | create mode, empty form, no error, modal open |
| AdminUsersPage.UsersPage.OpenEditModal | src/app/home/admin/users/page.tsx:125-141 | edit mode, the form filled in from the user, no error, modal open |
| AdminUsersPage.UsersPage.CloseModal | src/app/home/admin/users/page.tsx:143-148 | nothing changes while a save is pending (`isProcessing` of lines 109-110, modelled by UsersPage.IsProcessing: the create or update mutation is in flight); otherwise closed, empty form, no error |
| AdminUsersPage.UsersPage.HandleFormChange | src/app/home/admin/users/page.tsx:150-155 | the form changes in the one field given |
| AdminUsersPage.UsersPage.HandleSubmit | src/app/home/admin/users/page.tsx:157-196 | a rejected form sets the message and sends nothing; otherwise the error is cleared and the request is sent, with the matching mutation pending |
| AdminUsersPage.UsersPage.CreateSucceeded | src/app/home/admin/users/page.tsx:86-89 | after a successful create the modal is closed and the form is empty |
| AdminUsersPage.UsersPage.UpdateSucceeded | src/app/home/admin/users/page.tsx:100-103 | after a successful update the modal is closed and the form is empty |
| AdminUsersPage.UsersPage.MutationFailed | src/app/home/admin/users/page.tsx:90-92 | a failed save shows the error message and leaves the dialog and form as they were |
| Auth.QueryUser | src/hooks/use-auth.ts:15-19 | the query returns null, and is disabled, exactly when the session has no user; otherwise it returns the session's user |
| Auth.QueryAgreesWithSession | src/hooks/use-auth.ts:13-26 | when the cached query holds what its query function returned for the current session, useAuth's user is the session's user and isAuthenticated means that user exists |
| Auth.UseAuth | src/hooks/use-auth.ts:23-26 | isAuthenticated exactly when the session holds a user; isLoading exactly when the query or the session is loading; user is the query's user, else the session's, else null |
| Auth.UserHasRole | src/hooks/use-auth.ts:39 | `user?.role === role`: true exactly when there is a user whose role is present and equal to role |
| Auth.UserHasAnyRole | src/hooks/use-auth.ts:52 | true exactly when some non-empty role in the list is the user's role |
| Auth.UseRole | src/hooks/use-auth.ts:35-43 | hasRole exactly when the user's role equals the role asked for |
| Auth.UseRoles | src/hooks/use-auth.ts:48-56 | hasAnyRole is false with no user or no (or empty) role, and otherwise means the role is in the list |
| Auth.UseIsAdmin | src/hooks/use-auth.ts:61-63 | hasRole exactly when the user's role is "admin" |
| Auth.UseIsAgent | src/hooks/use-auth.ts:68-70 | hasRole exactly when the user's role is "agent" |
| Auth.UseRolesOfOne | src/hooks/use-auth.ts:35-56 | with a one-role list, useRoles agrees with useRole except for the empty role |
| Auth.NoUserHasNoRole | src/hooks/use-auth.ts:23-70 | with no user in the session or the query, neither useIsAdmin nor useIsAgent holds |
| ProtectedRoute.ProtectedRoute | src/hooks/use-protected-route.ts:10-25 | redirect to /login exactly when not loading and not authenticated, never while loading, never to /home; user and flags passed through |
| ProtectedRoute.ProtectedRouteByRole | src/hooks/use-protected-route.ts:30-50 | /login exactly when not loading and not authenticated; /home exactly when authenticated without the role; no redirect while loading; hasRole exactly when the role matches; no redirect with the role once authenticated |
| ProtectedRoute.ProtectedRouteByRoles | src/hooks/use-protected-route.ts:55-75 | /login exactly when not loading and not authenticated; /home exactly when authenticated with a non-empty role outside the list; no redirect while loading; hasAnyRole exactly when such a role is in the list |
| ProtectedRoute.RolelessUserStays | src/hooks/use-protected-route.ts:55-75 | an authenticated user with no role, or an empty one, is not redirected by the any-role guard although hasAnyRole is false |
| ProtectedRoute.NoRedirectWhileSessionLoads | src/hooks/use-protected-route.ts:10-75 | while the session loads, none of the three guards redirects |
| ProtectedRoute.SignedOutGoesToLogin | src/hooks/use-protected-route.ts:10-75 | once loading has finished, a session without a user is sent to /login by every guard |
| ProtectedRoute.StaleUserHasRoleButGoesToLogin | src/hooks/use-protected-route.ts:35-48 | a cached user with the role keeps hasRole true while the guard sends them to /login |
| ProtectedRoute.AgentOnAdminPage | src/hooks/use-protected-route.ts:38-48 | an agent on a page that requires admin is sent to /home, and hasRole is false |
| Sidebar.NavItems | src/components/sidebar.tsx:16-52 | an admin sees the four base items and then Users; anyone else sees exactly the four base items, in order |
| Sidebar.UsersLinkOnlyForAdmin | src/components/sidebar.tsx:39-52 | the /home/admin/users link is shown exactly to an admin |
| Sidebar.IsActive | src/components/sidebar.tsx:67-69 | the /home item is active only on /home itself; every other item is active exactly on the paths its href is a prefix of |
| Sidebar.PrefixIsNotSegmentMatch | src/components/sidebar.tsx:67-69 | the test is a string prefix: /home/kycx lights up the KYC item, and /home/kyc does not light up Dialer |
| Sidebar.ActiveFlags | src/components/sidebar.tsx:65-69 | one flag per item, each the item's active test |
| Sidebar.AtMostOneActive | src/components/sidebar.tsx:16-69 | on any path, for any user, at most one sidebar item is highlighted |
| Sidebar.SectionActiveOnSubPath | src/components/sidebar.tsx:51-69 | on any path under /home/settings, the Settings item is active and no other item is |
| Sidebar.SignedInLabel | src/components/sidebar.tsx:93 | the user's email, or "Guest" when there is no user or no email |
| HomeLayout.Lookup | src/app/home/layout.tsx:20-29 | a title is found exactly for a key of the map, and it is that key's title |
| HomeLayout.FindPrefixKey | src/app/home/layout.tsx:30-32 | a key is returned only when it is a prefix of the path and no earlier key is; none exactly when no key is a prefix |
| HomeLayout.ActiveTitle | src/app/home/layout.tsx:28-34 | always one of the five titles; a path equal to a key gets that key's title |
| HomeLayout.KnownTitles | src/app/home/layout.tsx:20-29 | each of the five known paths has its fixed title |
| HomeLayout.OtherPathsAreDialer | src/app/home/layout.tsx:28-34 | any path that is not a key is titled "Dialer", because /home is the first key and a prefix of every key |
| HomeLayout.KycSubPathIsDialer | src/app/home/layout.tsx:28-34 | /home/kyc/x is titled "Dialer", not "KYC Management" |
| Dialpad.DropLast | src/app/home/page.tsx:54-56 | `slice(0, -1)`: the empty string stays empty; otherwise the string minus its last character |
| Dialpad.BackspaceUndoesAppend | src/app/home/page.tsx:46-56 | appending a character and then pressing backspace restores the number |
| Dialpad.KeypadButtonsAreSymbols | src/app/home/page.tsx:123-126 | every keypad button is one of the twelve symbols 1-9, *, 0, #, and each symbol has a button |
| Dialpad.Dialer.constructor | src/app/home/page.tsx:13-17 | empty number and status, not connected, no user agent, no call |
| Dialpad.Dialer.NumberClick | src/app/home/page.tsx:46-48 | the number gains the clicked text at its end |
| Dialpad.Dialer.PressKey | src/app/home/page.tsx:123-126 | a keypad press appends that button's symbol to the number and changes nothing else |
| Dialpad.Dialer.Edit | src/app/home/page.tsx:102 | typing into the field sets the number to the text |
| Dialpad.Dialer.Clear | src/app/home/page.tsx:50-52 | the number becomes "" |
| Dialpad.Dialer.Backspace | src/app/home/page.tsx:54-56 | the number loses its last character |
| Dialpad.Dialer.Call | src/app/home/page.tsx:27-44 | what handleCall would do (it cannot be reached from the page, see Dialpad.FreshPage): not registered: that status and nothing else changes; in a call: the call ends, disconnected, "Call ended"; no call and no number: "Please enter a phone number"; otherwise nothing changes |
| Dialpad.CallButton | src/app/home/page.tsx:150-156 | a click on the disabled button (not connected) changes nothing; enabled, it runs handleCall |
| Dialpad.FreshPage | src/app/home/page.tsx:13-168 | on a fresh page, any sequence of keypad presses, typing, clear, backspace and Call clicks leaves isConnected false and the status empty: the Call button stays disabled and handleCall never runs |

## Left out

- MongoDB and mongoose (`connectDB`, `find`, `findOne`, `findById`, `create`, `save`) are reads and writes of the map `UserStore.users`; the user schema is not part of this model, so no casting, validation, role enumeration or password hashing is assumed.
- Directory.UserStore.Create: the new ObjectId is the parameter `newId`, which the caller guarantees is not in use; id generation is not modelled.
- Directory.UserStore.Create, Directory.UserStore.Update: a body that is not JSON makes `request.json()` reject, a JSON `null` body makes the destructuring throw, and a failing database call throws; in each case the source answers 500. The model's body is always an object and the store never fails.
- Directory.FindById: ObjectId casting follows the 24-hex-digit string form; older BSON releases that also read a 12-character string as raw bytes are not modelled.
- Directory.UserStore.Valid: documents written by code outside this model (the user schema's defaults, other routes, seed data) are assumed to have an email and a role.
- Directory.UserStore.List: users with equal `createdAt` come back in an unspecified order, as the database returns them.
- Boolean, array and object JSON values are not modelled; request fields are undefined, null, strings or integers.
- Timestamps are the integer `now` passed to each operation; the database's clock is not modelled.
- Directory.UpdatedDoc: assumes mongoose's `save()` stamps `updatedAt` only when some field actually changed (its timestamps option skips an unmodified document); the schema that enables timestamps is not part of this model.
- Auth.QueryUser: what the query cache holds between refetches is an input; apart from Auth.QueryAgreesWithSession it is unconstrained, so a cached user may outlive the session's.
- The duplicate-email check and the write that follows are not one transaction; races between concurrent requests are not modelled.
- The session library (`getServerSession`, `useSession`, the JWT) and the `src/proxy.ts` middleware are not modelled; the session user, role and status are inputs.
- `src/lib/auth-server.ts`, `src/lib/auth-helpers.ts`, `src/lib/api-client.ts`, `src/hooks/use-api.ts` and `src/app/api/user/profile/route.ts` are not part of this model, except that a JSON body sends NaN as null.
- AdminUsersPage.UsersPage.MutationFailed: the `catch` branch for a thrown value that is not an `Error` ("Something went wrong. Please try again.") is not modelled.
- The admin page's redirect effect, its data query and all rendering (JSX, styles, icons) are not modelled; the guard it calls is.
- JsSIP is reduced to two booleans: whether a user agent is registered and whether a call is active; nothing on the home page ever sets them.
- Strings are sequences of characters; UTF-16 code units (`slice` splitting a surrogate pair) are not modelled.
- Js.ParseInt10: numbers are exact integers; the loss of precision above 2^53 is not modelled.
- HomeLayout.Lookup: keys inherited from `Object.prototype` are not modelled; no path starting with "/" can name one.
- The static or mock pages (`src/app/login/page.tsx`, `src/app/home/settings/page.tsx`, `src/app/home/kyc/page.tsx`, `src/app/home/call-logs/page.tsx`, `src/app/page.tsx`) are not part of this model.

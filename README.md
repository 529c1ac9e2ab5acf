# Admin dashboard record handling, modelled in Dafny

This project models the in-memory record handling of three pages of a
single-page admin dashboard:

- **Requests**: the request list and its tab and text filters. The
  create-request form, which validates the required fields, looks up the
  assignee, numbers the request `REQ-NNN` from the list length, prepends it
  and resets the form. The badge tables from status and priority to badge
  variant and icon.
- **Users**: the user table and its text search. The add form, which
  validates, gives the new user the largest id plus one, derives initials
  from the name, appends the user and resets the form. Update and delete of
  the selected user, and the department check-boxes of both forms.
- **Chat**: the contact search, and the send handler that appends the typed
  message with the next id unless the input is blank.

Each page's component state is a class: `Requests.RequestsPage`,
`Users.UsersPage` and `Chat.ChatPage`. Each event handler is a method that
states the whole new state. The filters, id generators and initials are pure
functions, and the lemmas beside them state what they guarantee. Two
class invariants are proved to hold after every handler:

- request ids are `REQ-k` with `1 <= k <= length` and never repeat;
- user ids are unique.

A third invariant, that message ids are `1, 2, 3, ...`, holds for the
model because the simulated reply is left out (see below).

The JavaScript string built-ins the pages call are modelled in `Text`:
`toLowerCase`/`toUpperCase` on ASCII letters only, `includes`, `split(' ')`,
`trim`, `toString` and `padStart`. `Text.Join` joins with a one-character
separator and exists only as the partner of `Split` in the round-trip
lemmas; the page's `.join('')` of the word initials is the concatenation in
`Users.FirstChars`. `Array.prototype.filter` is modelled in `Lists`.

The pages behave as follows, and the model follows them:

- Validation failures carry no field name; the page shows one generic
  "Missing information" message.
- Update and delete of a user id that is not in the list change nothing;
  they do not fail with "not found".
- A user's departments form an ordered list, and ticking a box appends to it.

## Model

| member | source | states |
|---|---|---|
| Text.IncludesIffOccurs | src/pages/Requests.tsx:236-240 | `includes` holds exactly when the substring occurs at some position |
| Text.Split | src/pages/Users.tsx:147-148 | `split(sep)` yields at least one piece and no piece contains the separator |
| Text.JoinSplit | src/pages/Users.tsx:147-148 | joining the pieces of a split with the separator gives back the original string |
| Text.SplitJoin | src/pages/Users.tsx:147-148 | splitting a join of separator-free pieces gives back the pieces |
| Text.TrimStart | src/pages/Chat.tsx:141 | the result is a suffix, everything dropped is whitespace, it starts with non-whitespace, and it is empty exactly for blank input |
| Text.TrimEnd | src/pages/Chat.tsx:141 | the result is a prefix, everything dropped is whitespace, it ends with non-whitespace, and it is empty exactly for blank input |
| Text.TrimEmptyIffBlank | src/pages/Chat.tsx:141 | `!s.trim()` holds exactly when every character of `s` is whitespace |
| Text.NatToDecimal | src/pages/Requests.tsx:273 | `toString()` of a number is a non-empty string of decimal digits |
| Text.DecimalRoundTrip | src/pages/Requests.tsx:273 | reading back the decimal numeral of `n` gives `n` |
| Text.NatToDecimalInjective | src/pages/Requests.tsx:273 | different numbers have different numerals |
| Text.LeadingZeros | src/pages/Requests.tsx:273 | zeros put in front of a numeral do not change its value |
| Text.DecimalLength | src/pages/Requests.tsx:273 | a numeral has at most k digits exactly when the number is below 10^k |
| Text.PadStart | src/pages/Requests.tsx:273 | `padStart` never truncates, keeps the string as a suffix and fills the rest with the pad character |
| Lists.Filter | src/pages/Requests.tsx:223-241 | the result is no longer than the input, and an element is in it exactly when it is in the input and passes the predicate |
| Lists.FilterIsSubsequence | src/pages/Requests.tsx:219-244 | a filter result is an order-preserving subsequence of its input |
| Lists.FilterKeepsAll | src/pages/Requests.tsx:222-233 | a filter that rejects nothing returns its input unchanged, so skipping it is the same |
| Lists.FilterCompose | src/pages/Requests.tsx:219-244 | filtering by the tab and then by the search equals one filter by their conjunction |
| Lists.FilterAppend | src/pages/Users.tsx:222-227 | filtering distributes over concatenation |
| Lists.FilterNoDuplicates | src/pages/Users.tsx:222 | filtering a duplicate-free list keeps it duplicate-free |
| Requests.VisibleRequestsSpec | src/pages/Requests.tsx:218-244 | a request is shown exactly when it passes the tab predicate and the lower-cased query occurs in its lower-cased title, id, department, requester or assignee name; rows keep their order; tab `all` with an empty query shows the full list |
| Requests.TabSelection | src/pages/Requests.tsx:222-229 | with an empty query: `pending` shows exactly status Pending, `inProgress` exactly In Progress, `completed` exactly Approved or Completed, `myRequests` exactly requester id 1, and any other tab shows everything |
| Requests.FindAssignee | src/pages/Requests.tsx:261-263 | returns the first user whose id written in decimal equals the selected id, and none exactly when no user matches |
| Requests.RequestIdRoundTrip | src/pages/Requests.tsx:273 | the number in a generated id `REQ-` + padded decimal is the number it was made from |
| Requests.RequestIdFormat | src/pages/Requests.tsx:273 | ids start with `REQ-`; up to 999 they have seven characters; from 100 on the number is unpadded, so 1000 gives `REQ-1000` |
| Requests.RequestIdInjective | src/pages/Requests.tsx:273 | different list lengths give different ids |
| Requests.PrependKeepsNumberedIds | src/pages/Requests.tsx:273-287 | prepending a request numbered length+1 keeps every id numbered within the length and all ids distinct |
| Requests.InitialRequestsNumbered | src/pages/Requests.tsx:36-142 | the sample requests REQ-001 to REQ-005 satisfy the id invariant |
| Requests.StatusVariant | src/pages/Requests.tsx:313-319 | total: Approved/Completed give `default`, Pending `secondary`, Rejected `destructive`, In Progress and every unknown status `outline` |
| Requests.StatusIconOf | src/pages/Requests.tsx:322-328 | total: Approved/Completed give Check, In Progress RotateCw, Rejected X, Pending and every unknown status Clock |
| Requests.PriorityVariant | src/pages/Requests.tsx:331-336 | total: High gives `destructive`, Medium `secondary`, Low and every unknown priority `outline`, never `default` |
| Requests.RequestsPage.constructor | src/pages/Requests.tsx:201-215 | the page starts on tab `all` with the sample requests, an empty query and the empty form, and the id invariant holds |
| Requests.RequestsPage.SelectTab | src/pages/Requests.tsx:453 | sets the active tab |
| Requests.RequestsPage.SetSearchQuery | src/pages/Requests.tsx:472 | sets the search text |
| Requests.RequestsPage.EditForm | src/pages/Requests.tsx:368-423 | the form inputs replace the form state |
| Requests.RequestsPage.GetFilteredRequests | src/pages/Requests.tsx:218-245 | the step-by-step tab-then-search filtering returns exactly `VisibleRequests` of the list, tab and query |
| Requests.RequestsPage.CreateRequest | src/pages/Requests.tsx:250-304 | when title, department or assignee is empty, or no user id matches, nothing changes and the matching failure is reported. Otherwise the list becomes the new Pending request, followed by the old list unchanged. The new request has id `RequestId(length+1)`, requester `users[0]`, the looked-up assignee and the form's fields, and the form is reset. The id invariant is kept |
| Requests.ServerAccessScenario | src/pages/Requests.tsx:273-287 | creating "Server Access" in Finance for John Doe on the five sample requests yields REQ-006 at the head, Pending, assigned to John Doe |
| Users.FilteredUsersSpec | src/pages/Users.tsx:125-133 | a user is listed exactly when the lower-cased query occurs in its lower-cased name, email, role or some department; order is kept; an empty query lists every user |
| Users.MaxId | src/pages/Users.tsx:146 | `Math.max` of the ids is at least every id and is the id of some user |
| Users.NextId | src/pages/Users.tsx:146 | the new id is greater than every existing id; it is 1 for an empty list and otherwise one more than an existing id |
| Users.FirstCharsOfSplit | src/pages/Users.tsx:147-151 | the first characters of the space-separated words are exactly the non-space characters at the start or after a space; empty words contribute nothing |
| Users.InitialsAreWordStarts | src/pages/Users.tsx:147-151 | initials are the upper-cased first characters of the words of the name |
| Users.AppendNextIdKeepsUniqueIds | src/pages/Users.tsx:146-165 | appending a user numbered by the max+1 rule keeps ids unique |
| Users.ReplaceByIdSpec | src/pages/Users.tsx:186-192 | update keeps the length and every id and keeps ids unique. With unique ids it is a point update at the matching index; when no id matches it changes nothing |
| Users.RemoveByIdSpec | src/pages/Users.tsx:204-207 | delete keeps exactly the users with another id, in order, and keeps ids unique; with unique ids and the id present it removes one user |
| Users.ToggleSpec | src/pages/Users.tsx:218-244 | toggling flips the membership of that department only and keeps a duplicate-free list duplicate-free |
| Users.ToggleTwiceRestores | src/pages/Users.tsx:218-230 | toggling an absent department twice restores the original list |
| Users.UsersPage.constructor | src/pages/Users.tsx:107-122 | the page starts with the sample users, an empty query, no selected user and the empty form; ids are unique |
| Users.UsersPage.SetSearchQuery | src/pages/Users.tsx:365-370 | sets the search text (the clear button sets it to empty) |
| Users.UsersPage.EditNewUser | src/pages/Users.tsx:288-306 | the name, email and role inputs replace those form fields only |
| Users.UsersPage.ToggleDepartment | src/pages/Users.tsx:218-230 | the add form's departments become their toggle; other form fields are unchanged |
| Users.UsersPage.AddUser | src/pages/Users.tsx:136-182 | with an empty name, email or role, or no department, nothing changes. Otherwise one user is appended, with id `NextId`, the form's fields, the derived initials and `Just now`, and the form is reset. Ids stay unique |
| Users.UsersPage.SelectUser | src/pages/Users.tsx:247-256 | opening the edit or delete dialog selects that user |
| Users.UsersPage.EditCurrentUser | src/pages/Users.tsx:541-580 | the edit inputs replace name, email, role and status of the selected user only |
| Users.UsersPage.ToggleEditDepartment | src/pages/Users.tsx:233-244 | toggles a department of the selected user; no-op without one |
| Users.UsersPage.UpdateUser | src/pages/Users.tsx:185-200 | replaces the users with the selected user's id by the selected user; no-op without one; ids stay unique |
| Users.UsersPage.DeleteUser | src/pages/Users.tsx:203-215 | removes the users with the selected user's id; no-op without one; ids stay unique |
| Chat.ShownContactsSpec | src/pages/Chat.tsx:123-132 | an empty query shows every contact; otherwise a contact is shown exactly when its lower-cased name contains the lower-cased query, in order; the empty-query shortcut agrees with the filter |
| Chat.OutgoingKeepsSequentialIds | src/pages/Chat.tsx:143-151 | appending the message numbered length+1 keeps ids `1, 2, 3, ...`, so the new id is fresh |
| Chat.ChatPage.constructor | src/pages/Chat.tsx:115-119 | the page starts with the sample messages, empty input and query, all contacts shown and the first contact selected |
| Chat.ChatPage.SetSearchQuery | src/pages/Chat.tsx:123-132 | typing a query shows `ShownContacts` of it |
| Chat.ChatPage.SelectContact | src/pages/Chat.tsx:224 | selects a contact |
| Chat.ChatPage.EditMessage | src/pages/Chat.tsx:370 | sets the input text |
| Chat.ChatPage.SendMessage | src/pages/Chat.tsx:140-153 | blank input (empty after `trim`) changes nothing. Otherwise exactly one message is appended after the unchanged old messages, with id length+1, sender `me`, status `sent` and the untrimmed text, and the input is cleared |
| Chat.ChatPage.KeyDown | src/pages/Chat.tsx:185-190 | Enter without Shift sends exactly when the input is not all whitespace, and then appends the outgoing message and clears the input, as `SendMessage` does; otherwise, and for any other key, nothing changes |

## Left out

- Rendering, dialogs and their open flags, toasts, avatars and icon components: presentation only. The toast choice is returned as the handlers' outcome.
- `handleViewRequest` (src/pages/Requests.tsx:307-310): it only stores the row to show in a dialog.
- The Status, Department, Priority and Role drop-down filter items and the Approve, Reject and "Mark as Completed" buttons: they have no handlers, so there is no logic to model.
- The request's `created` date and the chat timestamp: they depend on the clock and locale, so they are parameters (`today`, `now`).
- The simulated chat reply (`setTimeout`, random delay, random text): it is asynchronous and nondeterministic. Without it, message ids stay `1, 2, 3, ...`; with overlapping replies the source's `length + 2` ids can repeat.
- Text.ToLower: does not model full Unicode `toLowerCase`, only ASCII letters, because the model has no Unicode case tables.
- Text.ToUpper: does not model full Unicode `toUpperCase` (which can lengthen a string, as for `ß`), only ASCII letters, for the same reason.
- Characters are Unicode scalar values, not UTF-16 code units, so `n[0]` of a word starting with an astral character is modelled as the whole character.
- Ids are unbounded integers; JavaScript's floating-point numbers are not modelled.
- src/pages/Dashboard.tsx, src/components/dashboard/DashboardLayout.tsx, src/App.tsx and src/pages/NotFound.tsx: static data, layout, routing and a log line.

# Real-estate portal front end: verified model of its logic

The application is a React front end for a property portal. Buyers, sellers
and agents sign in, receive notifications, register through a validated
form, see a role-specific dashboard, and move between pages guarded by
route rules. This project models the four pieces of logic in those views and
proves what they promise.

- **Notification store** (`notifications.dfy`, module `Notifications`). The
  provider holds a list of notifications. `NotificationCenter` is a class
  with one `seq` field. Its methods prepend, mark read by id, mark all read,
  remove by id and clear. Each method's new list is given by a pure function
  (`MarkedRead`, `AllRead`, `Without`), and the unread count is a derived
  function. The lemmas prove frame, order, idempotence and count facts.
- **Registration form** (`registration.dfy`, module `Registration`). The
  field rules are pure predicates: ECMAScript `trim`, the unanchored
  `/\S+@\S+\.\S+/` test, and the ordered password rules. `BuildErrors`
  builds the error map step by step, as `validateForm` does. `RegisterForm`
  holds `formData` and `errors`, and its methods are `handleChange`,
  `validateForm` and the gate in `handleSubmit`.
- **Dashboard** (`dashboard.dfy`, module `Dashboard`). The greeting for the
  hour, the listings the user sells or manages, the four quick stats per
  role, and the slices of five notifications and three property cards. All
  of it is pure.
- **Route table** (`routes.dfy`, module `Routes`). This covers the loading
  gate and each route's guard. The guard conditions are proved to match an
  independent access table (public, guests only, signed in, staff only), and
  following redirects is proved to settle within two hops.

`prelude.dfy` holds `Option` and models of the array methods the views use:
`filter`, `slice(0, n)` and a summing `reduce`. `users.dfy` holds the user
record, reduced to the id, name and role the views read.

Assumptions:
- White space is the ECMAScript WhiteSpace and LineTerminator set. This is
  the same set for `trim` and for `\s`.
- Strings are sequences of code points, so `length` is `|s|` and not a count
  of UTF-16 units.
- The hour, notification ids and timestamps come from the clock in the
  source. Here they are parameters.

## Model

| member | source | states |
|---|---|---|
| Prelude.Filter | Notification.tsx:70 | `xs.filter(keep)` is no longer than `xs` and holds exactly the elements of `xs` that pass `keep` |
| Prelude.FilterConcat | Notification.tsx:70 | filtering keeps relative order: it distributes over concatenation |
| Prelude.FilterKeepsAll | Notification.tsx:70 | a filter that every element passes returns its input unchanged |
| Prelude.FilterKeepsNone | Dashboard.tsx:12 | a filter that no element passes returns the empty list |
| Prelude.FilterIdempotent | Notification.tsx:70 | filtering twice with one predicate is filtering once |
| Prelude.FilterCountMonotone | Notification.tsx:48 | if `b` keeps an element only where `a` does at the same place, `b` keeps no more elements, and strictly fewer when `a` keeps one that `b` drops |
| Prelude.Take | Dashboard.tsx:14 | `slice(0, n)` has the smaller of `n` and the input's length as length, its elements, equal to the input's at the same index |
| Prelude.Sum | Dashboard.tsx:35-37 | the summing `reduce` is 0 on the empty list; SumConcat and SumNonNegative state how it behaves |
| Prelude.SumNonNegative | Dashboard.tsx:35-37 | a sum of non-negative terms is non-negative |
| Prelude.SumConcat | Dashboard.tsx:35-37 | the summing `reduce` over a concatenation is the sum of the two parts |
| Notifications.CountUnread | Notification.tsx:48 | the unread count is at most the list's length, and is 0 exactly when every entry is read |
| Notifications.CountUnreadConcat | Notification.tsx:48 | the unread count is additive over concatenation |
| Notifications.NewNotification | Notification.tsx:50-56 | the new entry carries the caller's kind, title, message and link, the given id and time, and is unread |
| Notifications.MarkedRead | Notification.tsx:61-63 | same length; each entry differs from the old one at most in `read`; an entry is read afterwards exactly when it was read before or carries the id |
| Notifications.AllRead | Notification.tsx:65-67 | same length; each entry differs from the old one at most in `read`, and every entry is read |
| Notifications.Without | Notification.tsx:69-71 | no longer than the input; holds exactly the input's entries whose id differs |
| Notifications.MarkedReadUnreadCount | Notification.tsx:61-63 | marking read never raises the unread count, and lowers it exactly when some unread entry carries the id |
| Notifications.MarkedReadIdempotent | Notification.tsx:62 | marking the same id twice is marking it once |
| Notifications.MarkedReadUnknownId | Notification.tsx:62 | marking an id no entry carries changes nothing |
| Notifications.AllReadNoneUnread | Notification.tsx:65-67 | after marking all read the unread count is 0 |
| Notifications.WithoutConcat | Notification.tsx:70 | removal distributes over concatenation, so relative order is kept |
| Notifications.WithoutSingle | Notification.tsx:70 | on one entry, removal keeps it exactly when its id differs |
| Notifications.WithoutUnknownId | Notification.tsx:70 | removing an id no entry carries changes nothing |
| Notifications.WithoutIdempotent | Notification.tsx:70 | removing the same id twice is removing it once |
| Notifications.InitialNotifications | Notification.tsx:28-46 | two entries, ids "1" and "2", each with its own creation time, both unread |
| Notifications.NotificationCenter.constructor | Notification.tsx:28-46 | the store starts with the two initial entries, unread count 2 |
| Notifications.NotificationCenter.UnreadCount | Notification.tsx:48 | the derived count equals the number of unread entries, at most the list's length |
| Notifications.NotificationCenter.AddNotification | Notification.tsx:50-59 | the new unread entry is put in front of the old list, which follows unchanged; length and unread count each grow by one |
| Notifications.NotificationCenter.MarkAsRead | Notification.tsx:61-63 | the list becomes `MarkedRead` of the old one; the unread count does not rise |
| Notifications.NotificationCenter.MarkAllAsRead | Notification.tsx:65-67 | the list becomes `AllRead` of the old one; the unread count is 0 |
| Notifications.NotificationCenter.RemoveNotification | Notification.tsx:69-71 | the list becomes `Without` of the old one; no entry with the id remains |
| Notifications.NotificationCenter.ClearAll | Notification.tsx:73-75 | the list is empty and the unread count 0 |
| Registration.TrimStart | register.tsx:40 | leading-trim is no longer than its input; TrimStartSpec states what it keeps and drops |
| Registration.TrimEnd | register.tsx:40 | trailing-trim is no longer than its input; TrimEndSpec states what it keeps and drops |
| Registration.TrimStartSpec | register.tsx:40 | what leading-trim keeps is a suffix that is empty or starts with non-space; everything it dropped is white space |
| Registration.TrimEndSpec | register.tsx:40 | what trailing-trim keeps is a prefix that is empty or ends with non-space; everything it dropped is white space |
| Registration.Trim | register.tsx:40 | `trim` is no longer than its input, gives "" exactly for strings made only of white space, and otherwise starts and ends with a character that is not white space |
| Registration.MatchesEmailPattern | register.tsx:48 | definition of the unanchored test: some substring splits as X@Y.Z with X, Y and Z non-empty and free of white space; EmailPatternIff gives the equivalent test on the neighbours of '@' and '.' |
| Registration.EmailPatternIff | register.tsx:48 | the unanchored `\S+@\S+\.\S+` test holds exactly when some '@' has a non-space before it and is followed by non-space characters up to a '.' that has a non-space after it |
| Registration.PatternGivesShape | register.tsx:48 | a match of the pattern yields that '@'/'.' shape |
| Registration.ShapeGivesPattern | register.tsx:48 | that '@'/'.' shape yields a match of the pattern |
| Registration.EmailPatternAcceptsLoose | register.tsx:48 | "a@b.c", "see x@y.z here" and "a@@.b" pass the test |
| Registration.EmailPatternRejects | register.tsx:48 | "a@b" and "a @b.c" fail the test |
| Registration.HasLetter | register.tsx:60 | definition of `/[a-zA-Z]/.test`: some character is an ASCII letter; used by PasswordError |
| Registration.HasDigit | register.tsx:62 | definition of `/[0-9]/.test`: some character is an ASCII digit; used by PasswordError |
| Registration.HasSpecial | register.tsx:64 | definition of `/[^a-zA-Z0-9]/.test`: some character is neither an ASCII letter nor a digit, white space included; used by PasswordError |
| Registration.FirstFailure | register.tsx:56-66 | no message exactly when all rules pass; otherwise the message of a failing rule all of whose predecessors pass |
| Registration.PasswordErrorIsFirstFailure | register.tsx:56-66 | the password if-chain reports the first failing rule of the order required, length 8, letter, digit, special character |
| Registration.NameError | register.tsx:40-44 | "Name is required" exactly for a blank name; the minimum-length message exactly for a non-blank name of fewer than 2 characters; no error exactly otherwise |
| Registration.EmailError | register.tsx:46-50 | "Email is required" exactly for a blank address; the invalid message exactly for a non-blank address the pattern rejects; no error exactly otherwise |
| Registration.PhoneError | register.tsx:52-54 | an error, "Phone number is required", exactly for a blank phone |
| Registration.PasswordError | register.tsx:56-66 | a password has no error exactly when it has at least 8 characters, a letter, a digit and a special character; the empty password gets "Password is required"; PasswordErrorIsFirstFailure gives the order |
| Registration.ConfirmError | register.tsx:68-70 | an error, "Passwords do not match", exactly when the two strings differ |
| Registration.Set | register.tsx:24-27 | the named field takes the new value and every other field keeps its value |
| Registration.ErrorMap | register.tsx:38-70 | the map has a key exactly for each field with an error, with that error as value, and never a key for the role |
| Registration.ErrorsFor | register.tsx:38-70 | a field is a key exactly when its rule fails, and maps to that rule's message |
| Registration.ErrorsEmptyIff | register.tsx:38-73 | the error map is empty exactly when name, e-mail and phone are non-blank, the name has 2 characters, the e-mail matches, the password passes every rule and the confirmation equals it |
| Registration.RequiredErrorsIff | register.tsx:40-54 | "Name is required", "Email is required" and the phone error appear exactly for fields made only of white space |
| Registration.NameLengthIsUntrimmed | register.tsx:40-44 | the minimum name length is measured before trimming: " a" passes, "a" is too short |
| Registration.ConfirmErrorIff | register.tsx:68-70 | the confirmation error is present exactly when the two passwords differ, whatever the password's own error |
| Registration.ClearedError | register.tsx:29-34 | the keys are unchanged, every other field's error is unchanged, and the edited field's error, if present, is "" |
| Registration.BuildErrors | register.tsx:38-71 | the map built step by step from nothing is the form's error map |
| Registration.CheckName | register.tsx:40-44 | adds "Name is required" for a blank name, else the minimum-length message for fewer than 2 characters, else nothing |
| Registration.CheckEmail | register.tsx:46-50 | adds "Email is required" for a blank address, else the invalid message when the pattern fails, else nothing |
| Registration.CheckPhone | register.tsx:52-54 | adds the phone message exactly for a blank phone |
| Registration.CheckPassword | register.tsx:56-66 | adds the message of the first failing password rule |
| Registration.CheckConfirm | register.tsx:68-70 | adds the mismatch message exactly when the passwords differ |
| Registration.RegisterForm.constructor | register.tsx:9-18 | an empty form with role "Buyer" and no errors |
| Registration.RegisterForm.HandleChange | register.tsx:23-35 | only the named field changes, and only that field's error is blanked, if it was non-empty |
| Registration.RegisterForm.ValidateForm | register.tsx:37-74 | the errors are replaced by the form's error map, not merged into the old ones; the result is true exactly when that map is empty; the form is unchanged |
| Registration.RegisterForm.HandleSubmit | register.tsx:79-92 | registration data is produced exactly when the form has no errors, and then carries the form's name, e-mail, phone, password and role |
| Dashboard.Greeting | Dashboard.tsx:16-21 | "Good morning" exactly before 12, "Good afternoon" exactly from 12 to before 18, "Good evening" exactly from 18 |
| Dashboard.GreetingMonotone | Dashboard.tsx:16-21 | a later hour never gets an earlier greeting |
| Dashboard.UserProperties | Dashboard.tsx:12 | exactly the listings whose seller or agent id is the user's id; none without a user |
| Dashboard.UserPropertiesConcat | Dashboard.tsx:12 | the selection keeps the catalog's order: it distributes over concatenation |
| Dashboard.UserPropertiesSingle | Dashboard.tsx:12 | on one listing the selection keeps it exactly when the user sells or manages it |
| Dashboard.SellerStats | Dashboard.tsx:33-38 | four stats, all of them numbers; QuickStats and SellerStatsAddListing state their values |
| Dashboard.QuickStats | Dashboard.tsx:23-49 | four stats for each role, none without a user; the buyer's first is the favorites count; the seller's are the count, and views, inquiries and offers summed over their listings; the agent's first is the count of managed listings |
| Dashboard.QuickStatsIgnoreOthers | Dashboard.tsx:23-49 | a listing the user neither sells nor manages changes no stat |
| Dashboard.SellerStatsAddListing | Dashboard.tsx:34-37 | one more seller's listing adds 1 to the listed count and its views, inquiries and offers to the three sums |
| Dashboard.PendingOffersCountsEveryStatus | Dashboard.tsx:37 | "Pending Offers" counts offers of every status: one accepted offer shows as 1 |
| Dashboard.RecentNotifications | Dashboard.tsx:14 | the first `min(5, n)` notifications, in order |
| Dashboard.PropertyCards | Dashboard.tsx:221-230 | cards are shown exactly to a seller or agent with listings; at most 3, namely the first `min(3, n)` of the user's listings |
| Routes.RouteElement | page.tsx:38-53 | a page is shown exactly when its access class admits the visitor, and it is the page asked for; otherwise the redirect goes to that class's fallback |
| Routes.AppContent | page.tsx:21-57 | the spinner is shown exactly while loading; afterwards the route guard decides |
| Routes.PublicRoutesAlwaysShown | page.tsx:38-42 | "/", "/search" and "/property/:id" render for anyone |
| Routes.GuestRoutesSendUsersToDashboard | page.tsx:39-40 | "/login" and "/register" render without a user and redirect a signed-in user to "/dashboard" |
| Routes.ReportsFallBackToDashboard | page.tsx:48-53 | a buyer, or no user, asking for "/reports" is sent to "/dashboard" |
| Routes.Settle | page.tsx:39-53 | the page reached by following redirects within the hop budget is shown and admits the visitor |
| Routes.RedirectsSettleWithinTwoHops | page.tsx:39-53 | every path reaches a shown page within two redirects |
| Routes.OnlySignedOutReportsNeedsTwoHops | page.tsx:43-53 | a second redirect is needed exactly for signed-out "/reports", which ends at "/login" |

## Left out

- JSX rendering, CSS classes and icons are left out.
- The navigation bar's behaviour is left out: its active-link highlighting, its unread badge, and its link visibility. The "List Property" link is shown only to sellers and agents, while the "/list-property" route itself renders for any signed-in user, a buyer included, as `Routes.RouteElement` models.
- Navbar.tsx, Home.tsx and AuthContext.tsx are not part of this model. The authentication context's storage, simulated latency and mock user are browser plumbing; only its `user` and `loading` values enter, as parameters of `AppContent`.
- The property catalog, search, offers, viewings and favorites (property context.tsx, property search.tsx) are not part of this model. The dashboard takes the listings and favorites as inputs, and a listing keeps only the fields the dashboard reads.
- `new Date().getHours()`, `Date.now()` ids and `toISOString` timestamps come from the clock. They are parameters, so two notifications added in the same millisecond and sharing an id are not a case the model raises.
- The two initial notifications read the clock separately, so `InitialNotifications` takes two timestamps.
- Views, inquiries and the hour are JavaScript numbers; the model uses unbounded integers. The sums are exact in JavaScript only while they stay integers below 2^53, and fractional or larger values are not modelled.
- `toLocaleString` and `toLocaleDateString` formatting is left out.
- The fixed figures of the buyer and agent stats are modelled as the literals they are, with no lemma about them.
- The browser's own form checks, which run before `handleSubmit` is called, are left out: `required` on each input and on the terms checkbox, and `type="email"` on the address. `HandleSubmit` models only the script's validation gate.
- `handleSubmit`'s asynchronous `register` call, `navigate`, the loading flag and the `general` error set on failure are left out. The model stops at the data handed to `register`.
- React's state updates are modelled as immediate assignments. Batching and the functional `prev` form are not distinguished.
- React Router's path matching, `:id` extraction and unmatched paths are library behaviour. Paths are a datatype of routes.
- String lengths are counted in code points, not in UTF-16 units as JavaScript counts them. A string's JavaScript length exceeds the model's by the number of its characters outside the Basic Multilingual Plane, so the name and password length checks can decide differently for such strings. For example, a 7-character password with four such characters has JavaScript length 11 and passes the 8-character rule, but the model reports it too short.
- The "Mark all read" button and the notification click handlers on the dashboard are UI over `MarkAllAsRead` and `MarkAsRead`.

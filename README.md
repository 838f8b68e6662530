# Chat-App screens: a verified model

A model, in Dafny, of the deterministic logic inside three screens of a small
React Native chat client whose backend is a hosted document store and auth
service:

- **Chat screen** (`screens/ChatScreen.js`). Two users share a room whose id is their two
  uids, sorted and joined by `_`. The screen subscribes to that room's
  `messages` and replaces its list with every snapshot. Sending is guarded:
  the trimmed input must be non-empty and someone must be signed in. The
  screen writes `{text, sender}` into the room and clears the input only after
  the write succeeded.
- **Home screen** (`screens/HomeScreen.js`). It fetches every profile, drops the caller's own
  uid, keeps the names that contain the trimmed search text (case-insensitive),
  and shows "No users found" when nothing is left.
- **Registration screen** (`screens/RegisterScreen.js`). `handleRegister` runs in order:
  empty-name check, name-uniqueness query, credential creation, profile write,
  navigation to the login screen. It stops at the first failure and shows a message for every failure except a failed uniqueness query, which rejects the handler's promise instead.

Backend calls appear only as their results, passed in as parameters:
`QueryResult`, `AuthResult`, `WriteResult`, `FetchResult`, `WriteOutcome`,
and the snapshot's documents. The signed-in user (`auth.currentUser`) is a
parameter or a constant too. Component state (`useState`) becomes the fields
of the classes `Chat.ChatScreen`, `Directory.HomeScreen` and
`Registration.RegisterScreen`.

The modules are:

- `Text`: the JavaScript string operations used by the screens: `trim`, `toLowerCase`, `includes`, and
  the default comparison of `sort`.
- `Lists`: `filter`, and order-preserving subsequences.
- `Profiles`: the `users` documents and the records the directory builds from them.
- `Chat`, `Directory`, `Registration`: one module per screen.

The model reflects two details of the code:

- A directory record may lack a `uid`. `[a, undefined].sort().join('_')` is `a + "_"`, and
  `Chat.ChatId` models exactly that.
- With nobody signed in, `auth.currentUser?.uid` is `undefined`. The
  self-exclusion filter then drops exactly the profiles without a `uid`.
  `Directory.FilterUsers` compares optional values, so it does the same.

## Model

| member | source | states |
|---|---|---|
| `Chat.RoomId` | screens/ChatScreen.js:18 | the id is one uid, `_`, then the other; the uid that sorts first comes first |
| `Chat.RoomIdSymmetric` | screens/ChatScreen.js:18 | the room id is the same whichever participant computes it |
| `Chat.RoomIdExample` | screens/ChatScreen.js:18 | Alice (`uid1`) and Bob (`uid2`) both get the room `uid1_uid2` |
| `Chat.RoomIdDeterminesPair` | screens/ChatScreen.js:18 | when no uid contains `_`, equal room ids mean the same pair of users |
| `Chat.RoomIdCollision` | screens/ChatScreen.js:18 | a uid containing `_` lets two different pairs share a room (`a_b`+`c` and `a`+`b_c`) |
| `Chat.ChatId` | screens/ChatScreen.js:18 | with a partner uid the id is `RoomId` of the two uids; without one it is the signed-in uid followed by `_`, because `sort` puts `undefined` last and `join` writes it as an empty string |
| `Chat.SubscriptionRoom` | screens/ChatScreen.js:16-19 | a subscription is set up exactly when someone is signed in; its room is `RoomId` of the two uids, or the signed-in uid followed by `_` when the partner's record has no uid |
| `Chat.PlanSend` | screens/ChatScreen.js:29-35 | a message is written exactly when the input has a non-whitespace character and someone is signed in; it carries the untrimmed input and the sender's uid, and its room equals the subscription's room |
| `Chat.PartnersShareRoom` | screens/ChatScreen.js:18-31 | two users who open the chat with each other subscribe to the same room and send into it |
| `Chat.SnapshotMessages` | screens/ChatScreen.js:21 | one message per delivered document, in delivered order, with the document's id and fields |
| `Chat.ChatScreen.constructor` | screens/ChatScreen.js:8-13 | the screen starts with no messages, an empty input and no subscription |
| `Chat.ChatScreen.Subscribe` | screens/ChatScreen.js:15-19 | the mount effect subscribes to `SubscriptionRoom` of the two users, or to nothing |
| `Chat.ChatScreen.OnSnapshot` | screens/ChatScreen.js:20-21 | `messages` becomes exactly the snapshot's messages; nothing earlier is kept; the input is untouched |
| `Chat.ChatScreen.SetInput` | screens/ChatScreen.js:61 | typing replaces the input |
| `Chat.ChatScreen.SendMessage` | screens/ChatScreen.js:28-41 | writes `PlanSend` of the input; clears the input only when a write was made and succeeded, otherwise leaves it unchanged; `messages` is not touched |
| `Profiles.ToRecord` | screens/HomeScreen.js:25 | a record carries its document's id and exactly the document's fields |
| `Profiles.UidOf` | screens/HomeScreen.js:26 | `auth.currentUser?.uid`: absent exactly when nobody is signed in |
| `Directory.ToRecords` | screens/HomeScreen.js:25 | one record per fetched document, in fetched order, each the document's id next to its fields |
| `Directory.NotCaller` | screens/HomeScreen.js:26 | the first filter keeps a record exactly when its optional uid differs from the caller's optional uid |
| `Directory.MatchesSearch` | screens/HomeScreen.js:27-29 | a blank search keeps every record; otherwise a record is kept exactly when it has a name whose lower-case form contains the lower-cased trimmed search (an empty name never matches a non-blank search) |
| `Directory.Matching` | screens/HomeScreen.js:27-29 | the second filter, as the function value handed to `filter`, keeps exactly the records `MatchesSearch` accepts |
| `Lists.Filter` | screens/HomeScreen.js:26-30 | keeps exactly the elements the predicate accepts, as an order-preserving subsequence |
| `Lists.FilterMultiset` | screens/HomeScreen.js:26-30 | every occurrence of an accepted element is kept, and no occurrence of a rejected one |
| `Text.Trim` | screens/HomeScreen.js:28 | the trimmed text is a slice of the text with only whitespace before and after it; it is empty exactly when the text is all whitespace, and otherwise neither starts nor ends with whitespace |
| `Text.TrimLower` | screens/HomeScreen.js:29 | trimming and lower-casing commute |
| `Text.Lower` | screens/HomeScreen.js:29 | `toLowerCase` keeps the length and maps each character on its own |
| `Text.Contains` | screens/HomeScreen.js:29 | `includes` can only hold when the needle is no longer than the haystack |
| `Text.ContainsIsOccurrence` | screens/HomeScreen.js:29 | `includes` holds exactly when the needle occurs as a slice starting at some index of the haystack |
| `Text.ContainsLower` | screens/HomeScreen.js:29 | a substring stays a substring after both strings are lower-cased |
| `Text.LessTotal` | screens/ChatScreen.js:18 | any two different uids are ordered one way or the other by the sort |
| `Text.LessAsymmetric` | screens/ChatScreen.js:18 | the sort order never puts a uid both before and after another |
| `Text.Less` | screens/ChatScreen.js:18 | the default `sort` comparison never puts a uid strictly before itself |
| `Directory.FilterUsers` | screens/HomeScreen.js:24-30 | never lists the caller's uid; lists a record exactly when it comes from a fetched document, is not the caller's and matches the search; with a non-blank search every listed user has a name whose lower-case form contains the lower-cased trimmed search; the list is an order-preserving subsequence of the fetched records |
| `Directory.BlankSearchListsOthers` | screens/HomeScreen.js:26-28 | a blank search lists exactly the users who are not the caller, in fetched order (checked against a separate recursive definition) |
| `Directory.SearchIgnoresCase` | screens/HomeScreen.js:29 | two searches that differ only in letter case list the same users |
| `Directory.FoundByOwnName` | screens/HomeScreen.js:26-29 | searching for a user's own name lists that user unless it is the caller |
| `Directory.PlaceholderExactlyWhenNoMatch` | screens/HomeScreen.js:65-66 | "No users found" shows exactly when no fetched document passes both filters |
| `Directory.SearchExample` | screens/HomeScreen.js:28-29 | the search "al" matches a user named "Alice" and not one named "Bob" |
| `Directory.OwnNameMatches` | screens/HomeScreen.js:28-29 | a name matches any search equal to it up to surrounding whitespace and letter case |
| `Directory.HomeScreen.constructor` | screens/HomeScreen.js:8-10 | the screen starts with no users, an empty search and no current user |
| `Directory.HomeScreen.FetchUsers` | screens/HomeScreen.js:19-35 | a successful fetch stores `FilterUsers` of the fetched documents; a failed one leaves `users` unchanged |
| `Directory.HomeScreen.Mount` | screens/HomeScreen.js:14-17 | stores the signed-in user and lists everyone else with a blank search |
| `Directory.HomeScreen.OnChangeText` | screens/HomeScreen.js:59-62 | stores the typed text and refetches with it |
| `Directory.HomeScreen.ShowsPlaceholder` | screens/HomeScreen.js:65-66 | the placeholder is shown exactly when `users` is empty |
| `Registration.NewProfile` | screens/RegisterScreen.js:30-34 | the written profile holds the entered name, the credential's email and the credential's uid |
| `Registration.Taken` | screens/RegisterScreen.js:21-23 | the uniqueness query finds a document whenever some profile's name equals the entered name, and never in an empty collection |
| `Registration.TakenIsExact` | screens/RegisterScreen.js:21 | the `==` comparison is exact: with a profile named `Alice`, the name `Alice` is taken but `alice` and ` Alice` are not |
| `Registration.Register` | screens/RegisterScreen.js:15-39 | the steps run in a fixed order and stop at the first failure. Only the empty name is refused locally ("Name is required", no request); a whitespace-only name goes on to the query. A name some profile has exactly gives "Name already taken" and no credential. An auth or write failure shows the backend's message verbatim and does not navigate. A failed query rejects with no message. Success writes one profile under the new uid, navigates to Login and sets no error |
| `Registration.NameTakenAfterRegistering` | screens/RegisterScreen.js:21-34 | once a registration has written its profile, registering the same name again is refused as taken, before any credential is created |
| `Registration.RegisterScreen.constructor` | screens/RegisterScreen.js:8-11 | the form starts empty with no error |
| `Registration.RegisterScreen.HandleRegister` | screens/RegisterScreen.js:15-39 | the imperative handler makes the requests of `Register` and sets `error` only where `setError` is called, so a success leaves the previous error in place |

## Left out

- `screens/OnboardingScreen.js` is not part of this model. It is a static view with one navigation call.
- Rendering is not modelled: `StyleSheet`s, `FlatList`/`TextInput` wiring, the own/their message styling (screens/ChatScreen.js:51) and the error text element.
- The form-field setters of the registration screen are not modelled. They only store the typed text.
- The logout flow (screens/HomeScreen.js:37-44) is not modelled. It is a sign-out call followed by navigation.
- Backend SDK calls are left out. Each is represented by the result it returns, supplied as a parameter.
- Subscription lifecycle is left out. This covers unsubscribing on unmount or when the partner changes, and subscription errors, which are only logged.
- Async interleaving is left out: a fetch answering after a later keystroke's fetch, or typing while `addDoc` is pending. Each handler is modelled as one uninterrupted step.
- `createdAt` timestamps and the store's ordering by them belong to the backend and the clock. Snapshots are taken in the order delivered.
- A document field named `id` would override the document id in `{ id: doc.id, ...doc.data() }`. The modelled document types have no such field.
- Non-string field values (a numeric `name`, say) are not modelled. Each field is a string or absent.
- Text.LowerChar: maps only ASCII `A`–`Z`. `toLowerCase` also lower-cases other letters, and some of them change length.
- Text.Lower: assumes a case mapping that works one character at a time and never creates or removes whitespace. `toLowerCase` is not always per character: by Unicode's Final_Sigma rule a capital sigma at the end of a word lowers to `ς` and elsewhere to `σ`. So `Text.ContainsLower` holds for this model's `Lower` and can fail for Greek text in JavaScript: `"ΑΣ"` occurs in `"ΑΣΑ"`, but `"ας"` does not occur in `"ασα"`. `Directory.SearchIgnoresCase` assumes that searches equal up to letter case also lower-case equally; in JavaScript `"ΑΣ"` and `"ασ"` differ only in case but lower-case to `"ας"` and `"ασ"`, so they find different users among names such as `"ασα"`. `Text.TrimLower` also holds in JavaScript, because trimmed whitespace is never a cased letter and so never changes a sigma's context.
- Text.Less: compares characters by code point. `sort` compares UTF-16 code units, so the two orders differ only between characters above U+FFFF and those in U+E000–U+FFFF.
- Chat.SubscriptionRoom, Chat.PlanSend, Chat.ChatScreen: the partner's record is always present. In the source a missing `route.params.user` makes the screen throw while rendering, at `user.uid` (screens/ChatScreen.js:26) and `user.name` (:46), before the `!user` tests at :16 and :29 can matter. That crashing screen is not modelled.
- Chat.ChatScreen.OnSnapshot: requires an active subscription. Only that subscription delivers snapshots.
- Chat.ChatScreen.Subscribe: requires no earlier subscription. The screen's two users are fixed per instance, so the effect runs once.

# Social feed: session store, feed store and editor logic in Dafny

This project models the logic of a small client-side social feed written in React and TypeScript.
The JSX in that application is built on five pieces of logic, and each one is modelled here:

- **The session store** (`AuthContext.dfy`, from `src/context/AuthContext.tsx`). It has two built-in
  test accounts and the registered accounts persisted under the storage key `registeredUsers`.
  It also holds the current session, persisted under `user`.
  - `login` tries the built-in accounts first and then the registered ones, with exact equality on
    both fields.
  - `register` refuses an email that is already used by either tier. Otherwise it appends a record
    and signs in as that record without its password.
  - `logout` clears the session and its key.
  - Mounting the provider restores the persisted session.
- **The feed page** (`Feed.dfy`, from `src/pages/Feed.tsx`). On load it adopts the persisted
  `posts` list, or seeds three fixture posts and persists them. A post created by a signed-in user
  is put in front of the list, and the whole list is persisted again.
- **The composer** (`PostEditor.dfy`, from `src/components/PostEditor.tsx`). It covers:
  - submission: sign-in first, then non-blank content, then the content is handed over and
    cleared;
  - wrapping the selection in formatting markers, with the new caret position;
  - inserting an emoji at the selection start;
  - the Clear button and the condition that enables the Post button.
- **The post card** (`PostCard.dfy`, from `src/components/Post.tsx`). It covers the relative-time
  label, the author's initials, and the like and comment toggles.
- **The sign-in / sign-up dialog** (`AuthModal.dfy`, from `src/components/AuthModal.tsx`). It covers:
  - the password-length and confirmation checks and which check comes first;
  - which session call is made, with the username derived from the email;
  - the error messages and when `onClose` is called;
  - the mode switch and the reset when the dialog opens.

Support modules:

- `Wrappers.dfy` holds `Option`.
- `Arrays.dfy` holds JavaScript's `find` and `some`.
- `Strings.dfy` holds `trim`, `split`, ASCII `toUpperCase` and the decimal `toString` of a
  natural, with its parse-back.
- `Types.dfy` holds the `User`, `Post` and registered-account records.
- `Storage.dfy` holds the browser storage, as one typed optional value per key.

Some inputs come from outside: the clock, the random ids and initial counts, the textarea
selection, and whether someone is signed in. Each of these is a parameter. The component callbacks
`onAuthRequired`, `onPostCreated` and `onClose` are results. The pattern for state the source
updates in place is as follows:

- The state becomes a class with fields.
- Each method's `ensures` gives the new state in terms of the old state.
- Pure specification functions (`LoginResult`, `InsertAround`, `NewPost`, ...) carry the lemmas.

Two facts about the code shape what is claimed about posts:

- New post ids are `Date.now().toString()` (`src/pages/Feed.tsx:63`), which is not unique within
  one millisecond. The model claims distinct ids only for distinct clock readings.
- Every post carries `likes`, `comments` and `shares` fields, set to zero when it is created
  (`src/pages/Feed.tsx:70-72`) and persisted with it. The card's like and comment counts are its
  own random state and never read them.

## Model

| member | source | states |
|---|---|---|
| Arrays.FindIndex | src/context/AuthContext.tsx:29-31 | `find`: the index returned is the first element satisfying the predicate; none is returned exactly when no element satisfies it |
| Arrays.Any | src/context/AuthContext.tsx:72 | `some`: true exactly when some element satisfies the predicate |
| AuthContext.EmailTaken | src/context/AuthContext.tsx:69-73 | an email is taken iff some registered record or some built-in account has it |
| AuthContext.LoginResult | src/context/AuthContext.tsx:29-63 | no session iff neither a built-in nor a registered account matches; any session has the given email; a built-in match gets the supplied id and no avatar; otherwise the session is the projection of a registered record with both credentials |
| AuthContext.BuiltInLoginWins | src/context/AuthContext.tsx:29-33 | exact built-in credentials log in whatever is registered; the session has the built-in email and username, the supplied fresh id and no avatar |
| AuthContext.LoginSucceedsIff | src/context/AuthContext.tsx:29-41 | login succeeds iff some built-in or some registered account matches both email and password |
| AuthContext.RegisteredLoginProjects | src/context/AuthContext.tsx:34-52 | with no built-in match, the session is the id, email, username and avatar of the first matching registered record, never its password |
| AuthContext.RegisterTakesEmail | src/context/AuthContext.tsx:69-74 | once a record is appended its email counts as taken, so registering the same email again fails |
| AuthContext.RegisterThenLogin | src/context/AuthContext.tsx:76-94 | after registering a free email, logging in with the same credentials yields the registration's session |
| AuthContext.RegisterKeepsEmailsUnique | src/context/AuthContext.tsx:69-84 | if registered emails are distinct and disjoint from the built-in ones, they stay so after a registration |
| AuthContext.AuthProvider.constructor | src/context/AuthContext.tsx:16-24 | the session starts as the persisted `user` value (none when absent) |
| AuthContext.AuthProvider.IsAuthenticated | src/context/AuthContext.tsx:103 | holds exactly when a user is signed in |
| AuthContext.AuthProvider.Login | src/context/AuthContext.tsx:26-64 | result and new session are those of `LoginResult` over the persisted list; on success the `user` key holds the session, on failure neither the session nor the key changes; the registered list is untouched |
| AuthContext.AuthProvider.Register | src/context/AuthContext.tsx:66-95 | fails exactly when the email is taken, changing nothing; otherwise the persisted list is the old one plus exactly the new record, and the session and `user` key are its password-free projection |
| AuthContext.AuthProvider.Logout | src/context/AuthContext.tsx:97-100 | session and `user` key are empty afterwards, so no one is authenticated |
| Feed.InitialPosts | src/pages/Feed.tsx:8-42 | three seed posts with ids "1", "2", "3" in that order, zero counters, each stamped five minutes before its own clock reading |
| Feed.NewPost | src/pages/Feed.tsx:62-73 | the new post's id is all decimal digits and reads back as the clock value; author fields come from the user, content and emoji as passed, all counters zero |
| Feed.NewPostIdsDiffer | src/pages/Feed.tsx:63 | posts made at different clock readings have different ids |
| Feed.PrependKeepsNewestFirst | src/pages/Feed.tsx:75 | prepending a post no older than every listed post keeps the list newest-first |
| Feed.SeedIsNewestFirst | src/pages/Feed.tsx:15-37 | the seed list is newest-first iff its three clock readings do not increase |
| Feed.SeedOrderOnSteadyClock | src/pages/Feed.tsx:15-37 | on a clock that never runs backwards the seed list is newest-first iff the three readings are equal; if the clock ticked, the first seed is older than the last |
| Feed.FeedPage.constructor | src/pages/Feed.tsx:45 | the list starts empty |
| Feed.FeedPage.Load | src/pages/Feed.tsx:49-57 | a stored list is adopted unchanged; otherwise the seed posts become the list and are stored; afterwards storage equals the list |
| Feed.FeedPage.HandlePostCreated | src/pages/Feed.tsx:59-78 | no user: nothing changes; otherwise the list is the new post followed by exactly the old list, one longer, and storage equals it |
| PostEditor.TextToInsert | src/components/PostEditor.tsx:45-46 | the selection when it is non-empty, else the placeholder; empty only when both are |
| PostEditor.InsertAround | src/components/PostEditor.tsx:43-51 | text before the selection start and after its end is kept; between them stand `before`, the selection (or the placeholder when it is empty) and `after` |
| PostEditor.CursorAfterInsert | src/components/PostEditor.tsx:56 | the caret lies within the new content, just before `after` and the kept tail |
| PostEditor.InsertAt | src/components/PostEditor.tsx:91-95 | the emoji stands at the selection start; the content grows by its length and the surrounding text is kept |
| PostEditor.InsertAtRoundTrip | src/components/PostEditor.tsx:91-95 | cutting the inserted emoji out again gives the original content |
| PostEditor.InsertAtIsInsertAround | src/components/PostEditor.tsx:91-101 | an emoji insertion is the wrapping insertion with an empty selection, and its caret is start plus the emoji length |
| PostEditor.FormatMarkers | src/components/PostEditor.tsx:62-80 | exactly the five format names have markers |
| PostEditor.FormatsWrap | src/components/PostEditor.tsx:62-80 | every format has an opening marker and a placeholder; only `quote` has no closing marker |
| PostEditor.SubmitEnabled | src/components/PostEditor.tsx:246 | the Post button is enabled iff signed in and some character is not whitespace |
| PostEditor.Editor.constructor | src/components/PostEditor.tsx:11 | content starts empty |
| PostEditor.Editor.HandleSubmit | src/components/PostEditor.tsx:22-32 | not signed in: asks for sign-in, content kept; blank: nothing; else the unchanged content is handed over once and content is cleared; hands over exactly when the button is enabled |
| PostEditor.Editor.Clear | src/components/PostEditor.tsx:165 | content is empty |
| PostEditor.Editor.InsertTextAtCursor | src/components/PostEditor.tsx:34-60 | not signed in: asks for sign-in, content kept; no textarea: nothing; else content is `InsertAround` of the old content and the caret goes to `CursorAfterInsert` |
| PostEditor.Editor.HandleFormatting | src/components/PostEditor.tsx:62-80 | an unknown format does nothing; a known one without sign-in asks for it, without a textarea does nothing, and otherwise wraps the selection with its own markers and moves the caret to `CursorAfterInsert` |
| PostEditor.Editor.HandleEmojiSelect | src/components/PostEditor.tsx:82-104 | not signed in: asks for sign-in, content kept; else the emoji is inserted at the selection start, length grows by its length, caret after it |
| Strings.TrimStart | src/components/PostEditor.tsx:28 | removes exactly the whitespace prefix: what is dropped is whitespace and what remains does not start with whitespace |
| Strings.TrimEnd | src/components/PostEditor.tsx:28 | removes exactly the whitespace suffix |
| Strings.Trim | src/components/PostEditor.tsx:28 | the result is a contiguous slice of the input with only whitespace before and after it, and it neither starts nor ends with whitespace |
| Strings.IsBlank | src/components/PostEditor.tsx:28 | content is empty after trimming iff every character is whitespace |
| Strings.Split | src/components/Post.tsx:27 | splitting gives at least one piece, no piece contains the separator, and joining the pieces gives the string back |
| Strings.SplitFirstPiece | src/components/AuthModal.tsx:54 | the first piece runs up to the first separator, or is the whole string when there is none |
| Strings.ToUpper | src/components/Post.tsx:30 | same length, each character upper-cased |
| Strings.NatToString | src/pages/Feed.tsx:63 | a non-empty string of decimal digits, no leading zero, "0" for zero, that parses back to the number |
| Strings.NatToStringInjective | src/pages/Feed.tsx:63 | different numbers print differently |
| PostCard.Quantity | src/components/Post.tsx:19-21 | the label opens with the count's digits, which read back as the count, then a space, the unit, an "s" exactly when the count is more than one, and " ago" |
| PostCard.DivDiv | src/components/Post.tsx:14-17 | the chained floor divisions equal one floor division by the product |
| PostCard.GetTimeAgo | src/components/Post.tsx:13-23 | under a minute: "Just now"; under an hour: whole minutes; under a day: whole hours; else whole days; each count is the elapsed time floor-divided by the unit |
| PostCard.JustNowIffUnderAMinute | src/components/Post.tsx:14-22 | the label is "Just now" iff less than a minute elapsed, a negative difference included |
| PostCard.PluralIffMoreThanOne | src/components/Post.tsx:19-21 | the label ends in "s ago" iff the count is more than one |
| PostCard.WordStarts | src/components/Post.tsx:26-30 | the characters that begin a space-separated word; none is a space |
| PostCard.FirstLettersAreWordStarts | src/components/Post.tsx:26-30 | taking the first character of each piece of the split gives exactly the word starts in order; empty pieces contribute nothing |
| PostCard.GetInitials | src/components/Post.tsx:25-32 | at most two characters: the upper-cased first word starts, in order |
| PostCard.Card.constructor | src/components/Post.tsx:9-12 | not liked, comments hidden, counts as drawn (below 20 and 10) |
| PostCard.Card.HandleLike | src/components/Post.tsx:34-42 | flips the like; minus one when unliking, plus one when liking; the count stays the initial count plus one while liked, hence non-negative |
| PostCard.Card.HandleComment | src/components/Post.tsx:44-46 | flips comment visibility |
| PostCard.Card.LikeTwiceRestores | src/components/Post.tsx:34-42 | two likes restore the flag and the count |
| PostCard.Card.CommentTwiceRestores | src/components/Post.tsx:44-46 | two toggles restore the visibility |
| AuthModal.ValidationError | src/components/AuthModal.tsx:33-42 | no message iff signing in, or the password has at least 6 characters and equals its confirmation; a short password gets "Password must be at least 6 characters" even when it also mismatches; a long enough one that differs from its confirmation gets "Passwords do not match" |
| AuthModal.UsernameFromEmail | src/components/AuthModal.tsx:54 | the prefix of the email before its first '@', or all of it without one; contains no '@' |
| AuthModal.Modal.constructor | src/components/AuthModal.tsx:10-16 | starts in the initial mode, fields and error empty, not loading |
| AuthModal.Modal.OnOpen | src/components/AuthModal.tsx:19-27 | when open: mode back to the initial mode, fields and error cleared; when closed nothing changes |
| AuthModal.Modal.SwitchMode | src/components/AuthModal.tsx:71-77 | flips the mode and clears error, email, password and confirmation |
| AuthModal.Modal.HandleSubmit | src/components/AuthModal.tsx:29-69 | a validation message stops the submission with no session call and no close; sign-in calls login, sign-up calls register with the email's local part; a failure shows "Invalid email or password" or "Email already exists"; `onClose` exactly on success; not loading afterwards; sign-in never changes the registered list; a failure leaves the session, the `user` key and the registered list as they were; on success the `user` key holds the new session |

## Left out

- Rendering, styling, SVG markup and routing (`src/App.tsx`, `src/pages/SignIn.tsx`, the JSX of every component) are presentation only.
- The 500 ms simulated delays in `login` and `register` are left out. The calls run synchronously, so the dialog's `loading` being true while a call is pending is not observable in the model.
- The `setTimeout` that focuses the textarea and sets its selection is a DOM effect. Only the computed caret position is modelled.
- Random ids (`Math.random`) and random initial like and comment counts are parameters; the generator is not modelled.
- `Date.now()` is a parameter. Feed.NewPost: the two clock reads for the id and the timestamp are taken as one instant.
- Feed.NewPostIdsDiffer: post ids are unique only across different clock readings, because two posts in the same millisecond share an id.
- Feed.PrependKeepsNewestFirst: newest-first order holds only if the clock never runs backwards, so the lemma takes that as a precondition.
- JSON encoding and decoding and the browser storage API are not modelled: storage holds typed values, so malformed persisted data cannot occur.
- The `useAuth` misuse error and the dialog's generic catch path ("An error occurred. Please try again.") are not modelled, because the modelled `login` and `register` never throw.
- Image upload (`FileReader`), sharing (`navigator.share`, clipboard), the emoji picker component and its open button, the focus handler and typing into the textarea (`onChange`) are browser input and output.
- Strings.ToUpper: upper-cases ASCII letters only, where JavaScript's `toUpperCase` is Unicode-aware and can change a string's length.
- PostCard.GetInitials: lengths are counted in Unicode scalar values rather than UTF-16 code units, so `slice(0, 2)` differs for characters outside the Basic Multilingual Plane.
- AuthModal.ValidationError: the password length is counted in Unicode scalar values, where `password.length` counts UTF-16 code units, so a password with characters outside the Basic Multilingual Plane can pass the 6-character check in the application and fail it in the model.
- Feed.InitialPosts: the three `Date.now()` reads made while the module loads are parameters; which values a real clock gives them is not modelled.
- Feed.SeedIsNewestFirst: the seed list is newest-first only if all three readings fall in the same millisecond; when the clock ticks between them the seed list is oldest-first, as Feed.SeedOrderOnSteadyClock states.
- PostEditor.InsertAround: selection offsets and the caret are in Unicode scalar values rather than UTF-16 code units.

# bookbounty-frontend, modelled in Dafny

A model of the logic inside the BookBounty React client. The client keeps a
session in `localStorage`, and every page talks to the Django API through one
axios instance.

- **The axios instance** (`api.js`) attaches `Authorization: Bearer <token>`.
  On a first 401 it refreshes the access token once and replays the request
  once. When the refresh cannot be done, it clears the tokens and sends the
  browser to `/login`.
- **The pages** build requests from their state and update their state from
  the settled results:
  - login and registration;
  - the navbar's signed-in test and logout;
  - the user's own books, with add, edit and delete;
  - the searchable catalogue;
  - the profile, with its avatar upload check;
  - reading lists, with their drag-and-drop reordering.

Modules, one per file:

| file | module | what it holds |
|---|---|---|
| `wrappers.dfy` | `Wrappers` | `Option` |
| `json.dfy` | `Json` | JavaScript values: truthiness, `String(v)`, property reads (a TypeError on null or undefined), `Object.values`, `.flat()`, `xs[0]` |
| `http.dfy` | `Http` | requests, responses, axios' 2xx rule, the settled promise `Reply`, and `FormData` |
| `ui.dfy` | `Ui` | toasts, as icon and title |
| `browser.dfy` | `Browser` | a `Window` class with `localStorage`, the router path and `location.href` |
| `text.dfy` | `Text` | ASCII case conversion |
| `seqs.dfy` | `Seqs` | `filter`, the subsequence relation, and cutting runs from either end (what `trim` does) |
| `api.dfy` | `Api` | see below |
| `api_properties.dfy` | `ApiProperties` | the properties of the session protocol |
| `navbar.dfy`, `login.dfy`, `register.dfy`, `books.dfy`, `home.dfy`, `profile.dfy`, `reading_lists.dfy` | one module per page | the page's logic |
| `session.dfy` | `Session` | how login, the interceptor and logout fit together |

**How `Api` is built.**
- `Api.Call` and `Api.Refresh` are mutually recursive functions. They give the
  whole effect of one call on a `World`: the store, the redirect, the remaining
  server script and the log of sent requests.
- `Api.Client.Request` is the imperative version. It works on a `Window`, a
  `Network` and the mutable `RequestConfig`, and it is proved to end in exactly
  the state `Call` describes.

**How the network and the pages are modelled.**
- The remote side is a script of outcomes, one consumed per network call. An
  exhausted script answers nothing, which stands for a transport failure.
- Login goes through the real client.
- The other pages take the settled result of each call they make as an input.
  Each handler returns the calls it hands to the client and the toasts it
  shows, in order.

## Model

| member | source | states |
|---|---|---|
| Api.Bearer | src/utils/api.js:16 | the header value is "Bearer " followed by the token, unchanged |
| Api.UsableToken | src/utils/api.js:14-15 | a token is used exactly when `access_token` is stored and non-empty |
| Api.WithBearer | src/utils/api.js:12-24 | with a usable token, `Authorization` becomes Bearer of it and the other headers stay; without one, the headers are untouched and the request still goes out |
| Api.RefreshCall | src/utils/api.js:37-41 | the refresh POST carries no `Authorization` header, because plain axios bypasses the interceptors |
| Api.Expire | src/utils/api.js:47-53 | both tokens are removed, `href` becomes /login, and the caller is rejected with the refresh error |
| Api.Call | src/utils/api.js:12-56 | every call sends at least one request and only appends to the log; it resolves only with a 2xx response; the only redirect it can cause is to /login |
| Api.Refresh | src/utils/api.js:32-53 | the log only grows (nothing is sent without a refresh token); the outcome resolves only with a 2xx replay; the only redirect it can cause is to /login |
| Api.RequestConfig.constructor | src/utils/api.js:4-8 | the instance's JSON content type is merged with the caller's headers, and `_retry` starts false |
| Api.Client.Request | src/utils/api.js:12-56 | store, redirect, network log, script, request config and reply end exactly as `Call` prescribes; the router path is untouched |
| Api.Client.ExpireSession | src/utils/api.js:47-53 | removes the two tokens in place, redirects to /login, rejects with the given error |
| ApiProperties.BearerOnFirstSend | src/utils/api.js:14-21 | the first request sent is the caller's, at the base URL; it has Bearer of the stored token exactly when that token is non-empty, and otherwise the caller's own headers |
| ApiProperties.SuccessPassesThrough | src/utils/api.js:27 | a 2xx response reaches the caller unchanged; store and redirect are untouched; one request is sent |
| ApiProperties.OtherErrorsPassThrough | src/utils/api.js:30-55 | a non-401 error, a transport failure, or a 401 on a request already marked `_retry` is rejected unchanged, with no refresh and no store change |
| ApiProperties.RetriedRequestSentOnce | src/utils/api.js:30-55 | a request already marked `_retry` is sent once and never refreshed, whatever the answer |
| ApiProperties.AtMostOneRefresh | src/utils/api.js:30-31 | one call sends at most three requests (one if already retried), and a first 401 marks the request `_retry` |
| ApiProperties.RefreshThenReplay | src/utils/api.js:33-46 | after a first 401, `{refresh}` is posted to the fixed URL, and on success only `access_token` changes, to `String(data.access)`; the request is replayed once with the new bearer, and the caller gets the replay's outcome, a failed replay included, with the tokens kept |
| ApiProperties.RefreshFailureEndsSession | src/utils/api.js:33-53 | with no usable refresh token, a rejected refresh or an unreadable refresh body: both tokens go, `username` stays, `href` is /login, nothing is replayed, and the caller gets the refresh error, not the 401 |
| Seqs.KeepCounts | src/components/pages/Books.jsx:120 | `filter` keeps every passing element as many times as it occurs, and no other element |
| Json.Property | src/utils/api.js:42 | reading a property of null or undefined throws; of a non-object gives undefined |
| Json.Lookup | src/utils/api.js:42 | undefined when no field has the key; otherwise the value of the LAST field with that key, as `JSON.parse` keeps it |
| Json.FirstIndexAt | src/components/pages/Register.jsx:37 | a field of that key with none before it is the key's first occurrence |
| Json.LookupLast | src/utils/api.js:42 | a field of that key with none after it is the one a property read finds |
| Json.JsString | src/utils/api.js:43 | `setItem` stores `String(value)`: a string as is, undefined as "undefined" |
| Json.ObjectValues | src/components/pages/Register.jsx:37 | for an object, one value per key of `Keys` (so in first-appearance order), each the value a property read of that key finds (the last copy); an array's elements; a string's characters; nothing for other values |
| Json.Keys | src/components/pages/Register.jsx:37 | each key of the object once, exactly the keys that occur in it, ordered by the position of each key's first occurrence |
| Json.KeysOfDistinct | src/components/pages/Register.jsx:37 | without repeated keys, the keys are the object's keys as written |
| Json.LookupDistinct | src/components/pages/Register.jsx:37 | without repeated keys, every key reads back its own value |
| Json.ObjectValuesOfDistinct | src/components/pages/Register.jsx:37 | without repeated keys, `Object.values` lists the values as written |
| Json.RepeatedKeyListedOnce | src/components/pages/Register.jsx:37 | in every object, a key is listed exactly once, after the keys that first occur earlier and before those that first occur later, with the value of its last occurrence |
| Json.Flat | src/components/pages/Register.jsx:37 | an array first value's items lead the result and a non-array first value stays first; a list without arrays is unchanged; an element of the result is exactly a non-array value of the list or an item of an array in it |
| Json.FlatAppend | src/components/pages/Register.jsx:37 | flattening a concatenation flattens each part, so every element is spliced in its own place |
| Json.FirstOf | src/components/pages/Register.jsx:38 | `xs[0]` is undefined on an empty array, else the first element |
| Json.Decimal | src/components/pages/Books.jsx:74 | decimal digits only, with no leading zero, whose value is the number |
| Json.IntString | src/components/pages/Books.jsx:74 | a non-negative id prints as the digits of its value; a negative one as "-" and the digits of its magnitude; no leading zero in either case |
| Json.IntStringInjective | src/components/pages/Books.jsx:74 | distinct ids print differently, so they give distinct request paths |
| Http.DetailOr | src/components/pages/ReadingLists.jsx:87 | for an HTTP error with a truthy `detail` in its body, that detail; for one without, and for every other failure, the fixed message |
| Http.Settle | src/utils/api.js:26-28 | a promise resolves exactly for an answered 2xx status, with the response as is; any other answer rejects with that response; no answer rejects with a transport error |
| Navbar.IsAuthenticated | src/components/partials/Navbar.jsx:8 | signed in exactly when `access_token` is present and non-empty |
| Navbar.AuthenticatedIffBearer | src/components/partials/Navbar.jsx:8 | the navbar shows the signed-in state exactly when the interceptor would attach a bearer header |
| Navbar.SignedOut | src/components/partials/Navbar.jsx:11-13 | the three session keys are gone, every other key keeps its value, nobody is signed in |
| Navbar.SignOutIdempotent | src/components/partials/Navbar.jsx:10-13 | logging out twice leaves the store as logging out once |
| Navbar.Logout | src/components/partials/Navbar.jsx:10-16 | the store becomes `SignedOut` of the old store, the route becomes /login, and "Logged out successfully!" is shown |
| Login.LoginRequest | src/components/pages/Login.jsx:23 | a POST to /login/ with the instance headers, not yet retried, whose JSON body has exactly two fields and reads back `email` and `password` as entered |
| Login.AfterLogin | src/components/pages/Login.jsx:23-29 | on success both tokens are written as `String` of the response fields, nothing else, and the route becomes "/"; a rejected reply, or a 2xx reply whose body is null or undefined, leaves the store unchanged with "Invalid email or password" |
| Login.LoginGoesThroughClient | src/components/pages/Login.jsx:23 | the login request goes through the interceptors: a stale token rides along, and a 401 enters the refresh path |
| Login.LoginPage.HandleSubmit | src/components/pages/Login.jsx:18-32 | store, redirect and network end as the client call followed by `AfterLogin`; navigation happens only on success; `isLoading` ends false |
| Login.LoginPage.Land | src/components/pages/Login.jsx:24-29 | the store, the route and the toast end exactly as `AfterLogin` of the settled reply prescribes |
| ReadingLists.SortByOrder | src/components/pages/ReadingLists.jsx:24 | the in-place sort leaves the array ordered by `order`, with the same entries and equal orders kept in arrival order (stable) |
| ReadingLists.SinkLast | src/components/pages/ReadingLists.jsx:24 | one insertion step extends the sorted prefix by one and keeps the arrangement stable |
| ReadingLists.SwapDown | src/components/pages/ReadingLists.jsx:24 | exchanging two neighbours of different order keeps the arrangement stable |
| ReadingLists.StableSortUnique | src/components/pages/ReadingLists.jsx:24 | two sorted, stably rearranged sequences are equal: the sort has one possible result |
| ReadingLists.SortedCopy | src/components/pages/ReadingLists.jsx:24 | a list's books come out sorted and stably rearranged |
| ReadingLists.FetchToasts | src/components/pages/ReadingLists.jsx:27-30 | a toast is shown exactly when the fetch fails |
| ReadingLists.FetchDeterministic | src/components/pages/ReadingLists.jsx:22-25 | the same server answer always gives the same lists |
| ReadingLists.Trim | src/components/pages/ReadingLists.jsx:34 | `trim` leaves a contiguous piece of the name that neither starts nor ends with ECMAScript white space, and everything cut before and after it is white space |
| ReadingLists.Blank | src/components/pages/ReadingLists.jsx:34 | the create guard fires exactly when the name is empty or all white space |
| Seqs.DropWhile | src/components/pages/ReadingLists.jsx:34 | cutting the leading run leaves a suffix that does not start with a cut element |
| Seqs.DropLastWhile | src/components/pages/ReadingLists.jsx:34 | cutting the trailing run leaves a prefix that does not end with a cut element |
| Seqs.DropWhileCuts | src/components/pages/ReadingLists.jsx:34 | everything cut from the front satisfies the predicate |
| Seqs.DropLastWhileCuts | src/components/pages/ReadingLists.jsx:34 | everything cut from the back satisfies the predicate |
| Seqs.Strip | src/components/pages/ReadingLists.jsx:34 | cutting both runs leaves a piece that neither starts nor ends with a cut element |
| Seqs.StripIsSlice | src/components/pages/ReadingLists.jsx:34 | that piece is the contiguous slice starting where the leading run ends, and everything cut before and after it satisfies the predicate |
| Seqs.StripPiece | src/components/pages/ReadingLists.jsx:34 | the kept piece is the slice of the input starting where the leading run ends |
| Seqs.StripCutsEnd | src/components/pages/ReadingLists.jsx:34 | everything after the kept piece satisfies the predicate |
| Seqs.StripEmptyIffAll | src/components/pages/ReadingLists.jsx:34 | a string strips to nothing exactly when every element satisfies the predicate |
| ReadingLists.RemoveAt | src/components/pages/ReadingLists.jsx:99 | one element leaves; the ones before keep their positions and the ones after shift down by one |
| ReadingLists.InsertAt | src/components/pages/ReadingLists.jsx:100 | the element lands at the index; the ones after shift up by one |
| ReadingLists.Moved | src/components/pages/ReadingLists.jsx:98-100 | a permutation; the moved book sits at the destination, and the other books keep their relative order |
| ReadingLists.MoveBack | src/components/pages/ReadingLists.jsx:98-100 | dragging the book back undoes the move |
| ReadingLists.Renumbered | src/components/pages/ReadingLists.jsx:102-105 | every `order` equals its index, nothing else changes, and the result is sorted |
| ReadingLists.Reordered | src/components/pages/ReadingLists.jsx:96-110 | only the lists with that id change (moved and renumbered); every other list is identical |
| ReadingLists.FindList | src/components/pages/ReadingLists.jsx:116 | `find` yields a list exactly when one of that id exists, and then the FIRST list of that id |
| ReadingLists.FindReordered | src/components/pages/ReadingLists.jsx:96-116 | the list found after the move is the first list of that id, moved and renumbered |
| ReadingLists.ReorderPayload | src/components/pages/ReadingLists.jsx:118-123 | `{books: [...]}`, with one entry per book |
| ReadingLists.PayloadMatchesPage | src/components/pages/ReadingLists.jsx:102-123 | the payload is `[{id, order: index}]` and carries exactly the orders the page shows |
| ReadingLists.WithoutList | src/components/pages/ReadingLists.jsx:63 | no list of that id remains; every other list remains as many times as it occurred, in order |
| ReadingLists.WithoutBook | src/components/pages/ReadingLists.jsx:74-83 | the target list loses exactly the entries of that book and keeps every other entry as many times as it occurred, in order; every other list is identical |
| ReadingLists.RemoveBookIdempotent | src/components/pages/ReadingLists.jsx:74-83 | removing the same book twice is removing it once |
| ReadingLists.ReadingListsPage.FetchReadingLists | src/components/pages/ReadingLists.jsx:19-31 | on success every list keeps its id and name, with its books sorted stably and a missing `books` read as empty; on failure the lists are kept and one toast is shown |
| ReadingLists.ReadingListsPage.HandleCreateList | src/components/pages/ReadingLists.jsx:33-46 | a blank name sends nothing; any other name is posted untrimmed; success clears the input and refetches; failure keeps everything |
| ReadingLists.ReadingListsPage.PostNewList | src/components/pages/ReadingLists.jsx:35-45 | the name is posted as `{name}`; success clears the input, refetches and toasts before the fetch's own toasts; failure keeps name and lists; the loading flag ends false |
| ReadingLists.ReadingListsPage.HandleDeleteList | src/components/pages/ReadingLists.jsx:48-69 | without confirmation nothing happens; with it, the list is deleted and filtered out on success, and kept on failure |
| ReadingLists.ReadingListsPage.HandleRemoveBook | src/components/pages/ReadingLists.jsx:71-89 | on success only the target list loses the book; on failure nothing changes and the server's detail or the fixed message is shown |
| ReadingLists.ReadingListsPage.HandleDragEnd | src/components/pages/ReadingLists.jsx:91-135 | no destination changes nothing; the payload of the moved list is PUT; any failure, a missing list included, restores exactly the lists from before the drag; success refetches, then confirms |
| ReadingLists.ReadingListsPage.SaveOrder | src/components/pages/ReadingLists.jsx:114-134 | a list missing after the move restores the old lists with one error toast and sends nothing; otherwise its payload is PUT, a failure restores the old lists, a success refetches then confirms; the saving flag ends false |
| Books.ReplaceById | src/components/pages/Books.jsx:77 | every book with that id is replaced by the saved one; length and all other positions are unchanged |
| Books.ReplaceIdempotent | src/components/pages/Books.jsx:77 | saving the same update twice is saving it once |
| Books.Prepend | src/components/pages/Books.jsx:83 | the saved book comes first, followed by the previous books in their order |
| Books.WithoutId | src/components/pages/Books.jsx:120 | no book of that id remains; every other book remains as many times as it occurred, in order |
| Books.DeleteAfterUpdate | src/components/pages/Books.jsx:120 | deleting an updated book leaves what deleting it without the update leaves |
| Books.DeleteAfterAdd | src/components/pages/Books.jsx:83 | deleting a just-added book (with a new id) restores the list |
| Books.BookEntries | src/components/pages/Books.jsx:62-70 | the five text fields in order, then `cover_image` exactly when a file was picked |
| Books.NewBookData | src/components/pages/Books.jsx:62-70 | a new form-data object whose entries are exactly the form's entries, in order |
| Books.FormFor | src/components/pages/Books.jsx:97-105 | copies title, authors, genre and date; a null description becomes ""; no cover file |
| Books.Editing | src/components/pages/Books.jsx:73 | edit mode exactly when the id is truthy in JavaScript, so a null id and the id 0 both mean "add" |
| Books.EditThenSaveSendsBook | src/components/pages/Books.jsx:97-105 | saving right after opening a book for editing sends no cover file |
| Books.BooksPage.FetchBooks | src/components/pages/Books.jsx:31-42 | on success the books are the server's; on failure they are kept and one toast is shown; loading ends false |
| Books.BooksPage.Mount | src/components/pages/Books.jsx:25-29 | books are fetched only for a signed-in user |
| Books.BooksPage.HandleSubmit | src/components/pages/Books.jsx:53-95 | signed out: no request, an edit- or add-specific toast, and navigation to /login. Signed in: a PUT or POST of the entries. On success the book is replaced or prepended and the form is reset and hidden; on failure books and form are kept. The page's own code never writes the store |
| Books.BooksPage.ApplySaved | src/components/pages/Books.jsx:72-91 | success replaces the edited book or puts the new one first and closes and clears the form, with the edit- or add-specific success toast; failure changes nothing but shows the failure toast |
| Books.BooksPage.HandleEdit | src/components/pages/Books.jsx:97-108 | the form shows the book, the page edits its id, and the form is visible |
| Books.BooksPage.HandleDelete | src/components/pages/Books.jsx:110-128 | signed out: no request and navigation to /login; signed in: a DELETE, with the book filtered out on success and kept on failure |
| Home.Includes | src/components/pages/Home.jsx:37 | true exactly when the needle occurs at some position of the hay |
| Home.Matches | src/components/pages/Home.jsx:37-39 | a book matches exactly when the lower-cased term occurs at some position of its lower-cased title, authors or genre |
| Home.FilteredBooks | src/components/pages/Home.jsx:36-40 | an order-preserving subsequence of the books that keeps a book exactly when it matches, as many times as it occurs |
| Home.EmptyTermKeepsAll | src/components/pages/Home.jsx:36-40 | an empty search keeps every book |
| Home.SameLowerSameResult | src/components/pages/Home.jsx:37-39 | terms that lower-case alike select the same books |
| Home.CaseInsensitive | src/components/pages/Home.jsx:37-39 | upper- or lower-casing the term does not change the result |
| Home.CoverSrc | src/components/pages/Home.jsx:127-129 | an image exactly when the cover is present and non-empty; its address is the media base followed by the cover path |
| Home.HomePage.FetchAllBooks | src/components/pages/Home.jsx:19-30 | a GET of /all-books/; success shows the server's books, failure keeps them and shows "Failed to load books."; loading ends false |
| Text.LowerChar | src/components/pages/Home.jsx:37 | maps A-Z to a-z and leaves every other character; never yields an upper-case letter |
| Text.UpperChar | src/components/pages/Profile.jsx:109 | maps a-z to A-Z and leaves every other character; never yields a lower-case letter |
| Text.LowerAbsorbsCase | src/components/pages/Home.jsx:37-39 | lower-casing after upper- or lower-casing is lower-casing |
| Profile.CheckAvatar | src/components/pages/Profile.jsx:63-71 | accepted exactly when the type is JPEG, PNG or GIF and the size is at most 2097152; a wrong type is reported before the size |
| Profile.SizeBoundary | src/components/pages/Profile.jsx:68 | 2097152 bytes pass and 2097153 fail; a wrong-type oversized file reports its type |
| Profile.ProfileEntries | src/components/pages/Profile.jsx:80-86 | phone, bio and favourite genre, then the avatar exactly when one was chosen; never username or email |
| Profile.NullFieldSentAsText | src/components/pages/Profile.jsx:82 | a null field is sent as the text "null" |
| Profile.FallbackInitial | src/components/pages/Profile.jsx:109 | the upper-cased first character of the username, or "?" when there is none |
| Profile.ProfilePage.FetchProfile | src/components/pages/Profile.jsx:38-53 | a GET of /profile/; success shows the server's profile and clears the avatar error; failure keeps the profile, shows "Failed to load profile", and goes to /login exactly when the status is 401; the store is not written |
| Profile.ProfilePage.HandleFileChange | src/components/pages/Profile.jsx:60-74 | no file changes nothing; a rejected file leaves `avatarFile` and shows the reason; an accepted file becomes `avatarFile` |
| Profile.ProfilePage.HandleSubmit | src/components/pages/Profile.jsx:76-104 | PUTs the entries. On success it shows the saved profile, clears the avatar choice, preview and error, and leaves edit mode; on failure only `isLoading` changes |
| Profile.ProfilePage.Cancel | src/components/pages/Profile.jsx:268-273 | leaves edit mode and clears the avatar choice, preview and error |
| Register.RegisterBody | src/components/pages/Register.jsx:32 | a JSON object of the five form fields |
| Register.BodyCarriesEveryField | src/components/pages/Register.jsx:32 | every form field, `confirm_password` included, reads back from the body |
| Register.ErrorMessage | src/components/pages/Register.jsx:36-41 | without a truthy response body, the generic message; with one whose values are empty, undefined |
| Register.FirstFieldFirstMessage | src/components/pages/Register.jsx:37-38 | for `{field: [msg, ...], ...}` with each field named once, the first message of the first field |
| Register.DetailMessage | src/components/pages/Register.jsx:37-38 | for `{detail: text}` that text |
| Register.RepeatedFieldShowsLast | src/components/pages/Register.jsx:37-38 | a field named twice in the body shows the message of its last copy |
| Register.RegisterPage.HandleSubmit | src/components/pages/Register.jsx:21-45 | mismatched passwords: no request and an error toast. Otherwise the whole form is posted, with success navigating to /login and failure showing `ErrorMessage`. `isLoading` ends false; the page's own code never writes the store |
| Session.LoginThenLogout | src/utils/api.js:14-16 | after a login the next request carries the new token; after logout the next request carries only its own headers |

## Left out

- Rendering is not modelled: JSX, styling, animation, loading overlays and the
  Toast widget. A toast is only its icon and title.
- The SweetAlert dialog is not modelled. Its answer is the `confirmed` input of
  `HandleDeleteList`.
- The `FileReader` avatar preview is not modelled. No operation computes
  `avatarPreview`; submit and cancel only clear it.
- `console.log` and `console.error` are left out because they have no effect
  on state.
- The 10 s timeout and the axios transport are not modelled. A scripted
  `NoAnswer`, or an exhausted script, stands for any transport failure.
- The request interceptor's error handler (`api.js:23`) is not modelled. It only
  runs when a request cannot be set up, which the model has no way to express.
- axios URL joining is simplified: every path starts with "/" and is appended
  to the base URL.
- The per-call `multipart/form-data` header is not carried on page calls. A
  `FormBody` stands for it.
- Concurrency is left out: two requests never race on the store, and React
  state updates apply at once, in program order. Page handlers therefore work
  on the current state, never on a stale closure.
- JSON decoding into page records is not modelled. Pages other than Login
  receive typed, settled results, so a malformed `res.data` on those pages is
  not modelled.
- Numbers are integers only. Floating point and other number formats are left
  out.
- Case conversion covers ASCII letters only. Unicode case mapping is left out.
- `BookDetail.jsx`, `App.jsx` and `readingListApi.js` are not part of this
  model. The pages never call `readingListApi.js`.
- The form field change handlers are left out. Each is a plain assignment of
  an input value to the page state.
- Strings are sequences of Unicode code points. JavaScript's UTF-16 code units
  are not modelled, so lengths, indices and `charAt` differ for characters
  outside the Basic Multilingual Plane.
- Profile.FallbackInitial: for a username whose first character lies outside
  the Basic Multilingual Plane (an emoji, say), `charAt(0)` yields a lone
  surrogate; the model yields the whole character. A lone surrogate is not a
  Dafny `char`.
- Json.ObjectValues: keys that are array indices ("0", "1", ...) are listed in
  the order the object gives them. JavaScript lists such keys first, in
  ascending numeric order.
- Books.BooksPage.HandleSubmit, Books.BooksPage.FetchBooks,
  Books.BooksPage.HandleDelete, Register.RegisterPage.HandleSubmit,
  Profile.ProfilePage.FetchProfile, Profile.ProfilePage.HandleSubmit,
  Home.HomePage.FetchAllBooks and the handlers of
  ReadingLists.ReadingListsPage take the settled reply of the client rather
  than running `Api.Client.Request`. What the client itself does to the store
  during such a call is therefore not part of their contracts: on a 401 with
  a stored refresh token it rewrites `access_token` (api.js:43), and when the
  refresh fails it clears both tokens and redirects (api.js:49-51). Those
  effects are stated once, for every request, by `Api.Call` and the
  `ApiProperties` lemmas; only Login composes them with its page.
- `MEDIA_BASE_URL`, imported by `Profile.jsx`, is not exported by `api.js`, so
  the avatar image address is not modelled.
- Login.LoginPage.HandleSubmit: states that `isLoading` is false afterwards. It
  does not state that `isLoading` is true while the request runs, because the
  model has no intermediate observation point. The same holds for the other
  pages' loading flags.
- ReadingLists.ReadingListsPage.HandleDragEnd: requires the drop indices to lie
  inside the list being dragged in. The drag-and-drop library guarantees this.
  JavaScript `splice` with out-of-range indices is not modelled.
- ReadingLists.Moved: the splices on the copied array are modelled on sequence
  values. In-place mutation of that private copy is not observable.
- ReadingLists.ReadingListsPage.HandleCreateList: the refetch is not awaited in
  the source. The model runs it to completion right after the success toast, so
  a create that overlaps a later handler is not captured.

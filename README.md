# Account and store set-up workflow: a verified model

This project models the decision logic of a small store-management web
application: the profile page's password strength rule and save procedure,
the registration handler that creates users, and the add-item-category page
that may only submit once a store exists.

- `PasswordPolicy.dfy` models the regular expression
  `/^(?=.*[A-Za-z])(?=.*\d)(?=.*[^A-Za-z0-9]).{6,10}$/` twice: `RegexTest`
  follows the pattern construct by construct (each lookahead, the bounded
  repetition, the end anchor, and JavaScript's `.` refusing the four line
  terminators), and `IsStrong` states the policy directly. They are proved
  equal on every string, and the boundary, missing-class and line-terminator
  facts follow from that.
- `Profile.dfy` models the profile page as a class holding `userData`,
  `updatedData`, `isEditing`, the load `error`, `localStorage`, whether the
  page has sent the user to the login page, and the update requests it has
  issued. `SaveVerdict` is the check sequence of `handleSave`: an empty
  password skips it, a password equal to the old one is refused first, then a
  weak one. The class invariant says that no issued request ever carries a
  password that breaks the policy.
- `Register.dfy` models `POST /api/register` as a method on a users
  collection. bcrypt is the collection's `Hash` function, about which nothing
  is assumed beyond being a function (not even injectivity). The generated
  `userID` and the creation time are parameters; on the path that uses it the
  identifier must be unused, which is what a random version-4 UUID stands for. The collection also logs the database calls made
  (`findOne`, then `insertOne`). The class invariant keeps emails and user
  identifiers unique.
- `AddItemCategory.dfy` models the add-item-category page as a class with its
  four state fields and the requests it has issued. Submitting the form runs
  the browser's check of the `required` item-type input before
  `handleAddCategory`. The invariant says that every issued request names a
  store.
- `Browser.dfy` holds what the pages share: `localStorage` reads, the reply
  of one `fetch`, and `message || fallback`. `Optional.dfy` holds `Option`.

Server replies are parameters of the methods that would await them.
Navigation to the login page is a recorded flag. A JavaScript string is a
Dafny `string`. Where the code only tests whether a value is truthy,
`undefined`, `null` and `""` are all written `""`.

On these points the model follows the code as written:
- The "same password" check compares the typed password with whatever
  `userData.password` the profile request returned. It does not compare hashes.
- The add-item-category page copies a cached `userID` or `storeID` only when
  it is truthy, that is, present and non-empty; an empty cached string is not
  copied.
- Registration applies no strength rule.

`Profile.LoadedPasswordBlocksSave` and `Profile.SaveRightAfterLoad` record a
consequence of the code. The loaded record is also the initial edit copy. So
if the profile endpoint returns a non-empty `password`, a save in which the
password field was not cleared or retyped is refused as "the same old
password". Whether that endpoint returns the password cannot be seen here.

## Model

| member | source | states |
|---|---|---|
| `Browser.CachedValue` | src/app/AddItemCategoryPage/page.tsx:13-20 | a cached value is truthy exactly when the key is present with a non-empty value, and then it is that value |
| `Browser.MessageOr` | src/app/Profile/page.tsx:92 | the JavaScript `or` of a message and a fallback is the message when it is non-empty and the fallback otherwise |
| `PasswordPolicy.LookaheadFindsContains` | src/app/Profile/page.tsx:7 | a successful `(?=.*K)` lookahead implies the string contains a character of class K |
| `PasswordPolicy.ContainsLookaheadFinds` | src/app/Profile/page.tsx:7 | on a string without line terminators, `(?=.*K)` succeeds whenever a K character occurs |
| `PasswordPolicy.DotsThenEndExactly` | src/app/Profile/page.tsx:7 | `.{lo,hi}$` matches exactly the line-terminator-free strings whose length is between lo and hi |
| `PasswordPolicy.RegexTest` | src/app/Profile/page.tsx:7 | definition: `passwordRegex.test`, the three lookaheads and `.{6,10}$` tried at position 0; pinned down by `PasswordPolicy.RegexTestIsStrong` |
| `PasswordPolicy.RegexTestIsStrong` | src/app/Profile/page.tsx:6-7 | the regex accepts a string if and only if it has 6 to 10 characters, no line terminator, an ASCII letter, an ASCII digit and a non-alphanumeric character |
| `PasswordPolicy.LengthOutOfRangeRejected` | src/app/Profile/page.tsx:6-7 | any string of at most 5 or at least 11 characters is rejected, whatever its content |
| `PasswordPolicy.MissingClassRejected` | src/app/Profile/page.tsx:7 | a string lacking a letter, a digit or a non-alphanumeric character is rejected |
| `PasswordPolicy.LineTerminatorRejected` | src/app/Profile/page.tsx:7 | a string with `\n`, `\r`, U+2028 or U+2029 anywhere is rejected |
| `PasswordPolicy.AllClassesAccepted` | src/app/Profile/page.tsx:7 | a 6 to 10 character single-line string with a letter, a digit and another character is accepted |
| `PasswordPolicy.Examples` | src/app/Profile/page.tsx:6-7 | "abc12" and "abcdefghij1!" are rejected; "abcd12!" and "Abc12!" are accepted |
| `Profile.WithField` | src/app/Profile/page.tsx:47 | the spread update sets `field` to `value`, keeps every other key and its value, and adds no other key |
| `Profile.SaveVerdict` | src/app/Profile/page.tsx:67-78 | definition: the check sequence of `handleSave` (empty password, then same as old, then the regex); pinned down by `Profile.SaveSentIff`, `Profile.NoPasswordSkipsChecks`, `Profile.SamePasswordRefusedFirst` and `Profile.WeakPasswordRefused` |
| `Profile.NoPasswordSkipsChecks` | src/app/Profile/page.tsx:67-87 | with an empty or absent new password no check runs and the update is sent |
| `Profile.SamePasswordRefusedFirst` | src/app/Profile/page.tsx:69-72 | a non-empty new password equal to the old one is refused before the strength rule, so even a strong one is refused |
| `Profile.WeakPasswordRefused` | src/app/Profile/page.tsx:74-77 | a non-empty new password that differs from the old one and is not strong is refused |
| `Profile.SaveSentIff` | src/app/Profile/page.tsx:65-87 | the update is sent if and only if no password was typed or the typed one differs from the old and is strong; what is sent passes the policy |
| `Profile.LoadedPasswordBlocksSave` | src/app/Profile/page.tsx:35-72 | when the loaded record, copied into the edit state, carries a password, saving it unchanged is refused as the same old password |
| `Profile.ProfilePage.constructor` | src/app/Profile/page.tsx:10-13 | the page starts with no record, no error, not editing, an empty edit copy and nothing sent |
| `Profile.ProfilePage.Load` | src/app/Profile/page.tsx:17-44 | without a cached email the page goes to login and changes nothing else; a loaded record fills both `userData` and `updatedData`; a refusal sets `error` to its message or the default; an exception sets the fixed error |
| `Profile.ProfilePage.Edit` | src/app/Profile/page.tsx:227-232 | Edit Profile is offered only on the read-only view, that is, a record is loaded, no error is shown and the page is not editing (lines 117-131), and it brings up the edit form |
| `Profile.ProfilePage.Cancel` | src/app/Profile/page.tsx:202-207 | Cancel is offered only on the edit form, and it returns to the read-only view |
| `Profile.ProfilePage.HandleInputChange` | src/app/Profile/page.tsx:46-48 | offered only while the edit form is shown; the edit copy becomes the spread update of that one field |
| `Profile.ProfilePage.HandleSave` | src/app/Profile/page.tsx:65-110 | offered only while the edit form is shown; refusals send nothing and change nothing; otherwise exactly the edit copy is sent; the outcome is a failure exactly when the request was sent and threw; an ok reply ends editing and clears the cache and goes to login exactly when a password was supplied; a non-ok reply or an exception leaves cache and login flag unchanged and the edit form shown; issued passwords always pass the policy |
| `Profile.ProfilePage.HandleLogout` | src/app/Profile/page.tsx:112-115 | offered only on the read-only view; logging out empties the cache and goes to login |
| `Profile.SaveRightAfterLoad` | src/app/Profile/page.tsx:17-72 | load, press Edit Profile, then save without touching a loaded non-empty password: refused as the same password, nothing sent |
| `Profile.OpenPage` | src/app/Profile/page.tsx:17-131 | after the mount effect the read-only view is shown exactly when a cached email was found and the profile request returned a record; the edit form is never shown at first |
| `Profile.ChangePassword` | src/app/Profile/page.tsx:46-103 | load, press Edit Profile, type a new strong password, save with an ok reply: the record with the new password is the one request sent, the cache is empty and the page goes to login |
| `Register.PictureAccepted` | src/app/api/register/route.ts:13 | definition: an absent or empty picture, or one starting with `data:image`; its use is pinned down by `Register.UserCollection.Register` (400 exactly when it fails) |
| `Register.EmailInUse` | src/app/api/register/route.ts:25-28 | definition: `findOne({ email })` finds a user with exactly that email; its use is pinned down by `Register.UserCollection.Register` (409 exactly when it holds) and `Register.StoredEmailInUse` |
| `Register.AppendKeepsEmailsDistinct` | src/app/api/register/route.ts:25-51 | inserting a user whose email no stored user has keeps emails pairwise distinct |
| `Register.AppendKeepsIdsDistinct` | src/app/api/register/route.ts:39-43 | inserting a user with an unused identifier keeps user identifiers pairwise distinct |
| `Register.StoredEmailInUse` | src/app/api/register/route.ts:25-28 | after an insert the lookup by that email finds a user |
| `Register.UserCollection.Register` | src/app/api/register/route.ts:7-62 | the generated identifier must be unused only when both checks pass; a non-empty picture not starting with `data:image` gives 400 with no database call; an email exactly equal to a stored one gives 409 after one lookup with the table unchanged; otherwise exactly one record is appended, with the fresh `userID`, `Hash(password)` and the other fields as given, that `userID` is returned, and emails and identifiers stay unique |
| `Register.RegisterTwice` | src/app/api/register/route.ts:25-57 | two sequential registrations with the same email: the first returns its `userID`, the second gets 409, and one user is stored, with the hashed password of the first and no strength check on either |
| `AddItemCategory.FailureAlert` | src/app/AddItemCategoryPage/page.tsx:42-50 | a failed submit alerts `Error: ` followed by the reply's message, or `Failed to add category` when it has none, or the exception's message |
| `AddItemCategory.AddItemCategoryPage.constructor` | src/app/AddItemCategoryPage/page.tsx:7-10 | the four state fields start empty and nothing is sent |
| `AddItemCategory.AddItemCategoryPage.Mount` | src/app/AddItemCategoryPage/page.tsx:12-21 | `userID` and `storeID` are each taken from the cache when the cached value is truthy and otherwise keep their value |
| `AddItemCategory.AddItemCategoryPage.EditItemType` | src/app/AddItemCategoryPage/page.tsx:73 | typing sets the item type |
| `AddItemCategory.AddItemCategoryPage.HandleAddCategory` | src/app/AddItemCategoryPage/page.tsx:23-52 | with an empty `storeID` nothing is sent and no state changes; otherwise exactly `{userID, itemType, storeID}` is sent; an ok reply sets the success text and clears the item type; any failure alerts and leaves item type and success text unchanged; every issued request names a store |
| `AddItemCategory.AddItemCategoryPage.SubmitForm` | src/app/AddItemCategoryPage/page.tsx:67-74 | with an empty item type the browser blocks the submit and nothing changes; otherwise the submit behaves as `handleAddCategory` |
| `AddItemCategory.SubmitWithoutStore` | src/app/AddItemCategoryPage/page.tsx:12-29 | mounted without a cached store, a submit sends nothing; with an item type typed the outcome is the missing-store alert, without one the browser's required-field block |
| `AddItemCategory.SubmitAfterStore` | src/app/AddItemCategoryPage/page.tsx:12-45 | mounted with a cached store, a submit with an item type sends exactly the cached user, the typed item type and the cached store, one without sends nothing, and it succeeds exactly when an item type was typed and the reply is ok |

## Left out

- Rendering, styling and `src/app/AddItemCategoryPage/layout.tsx`: presentation only. The JSX that decides behaviour is modelled. On the profile page, `if (error)`, `if (!userData)` and `isEditing ? … : …` (src/app/Profile/page.tsx:117-123, 131) decide which handlers are offered; this is `Profile.ProfilePage.FormShown` and `Profile.ProfilePage.DetailsShown`, which the handlers require. On the add-item-category page, the `required` attribute of the item-type input (src/app/AddItemCategoryPage/page.tsx:74) is modelled by `AddItemCategory.AddItemCategoryPage.SubmitForm`.
- The create-store page: it only forwards form fields to a server handler that is not part of this model. Its caching of `storeID` is represented only by the cache that `AddItemCategory.AddItemCategoryPage.Mount` reads.
- The profile, create-store and add-item-category server handlers are not part of this model, so server-side update, store and category rules are replies passed in as parameters.
- `fetch`, `router.push`, `alert` and `console`: replies are parameters and navigation is the `sentToLogin` flag. Each method's outcome names which alert is shown, but the fixed alert texts and the registration handler's response messages are not modelled. The exceptions are texts that become page state (`error`, `successMessage`) or that carry a server message (`ServerRefused`, `AddItemCategory.FailureAlert`). The login alert of the profile page's mount effect is recorded only through `sentToLogin`. The profile page's `GET` request is not logged.
- Picture upload through `FileReader` (src/app/Profile/page.tsx:50-63), and the timer that clears the success message three seconds later: browser APIs and timers.
- bcrypt internals, uuid generation and `new Date()`: an uninterpreted `Hash`, a fresh-identifier precondition and a `now` parameter.
- The random salt bcrypt draws on every call (src/app/api/register/route.ts:36): `Hash` gives the same result for the same password, while bcrypt gives a different one each time. No contract relies on this.
- The database connection and the catch-all error reply of the registration handler (src/app/api/register/route.ts:21-22, 59-60), which includes `bcrypt.hash` throwing on a missing or non-string password.
- Register.UserCollection.Register: request fields other than the picture are strings; a body missing `email`, `firstName`, `lastName` or `contact`, which the handler looks up and stores as `undefined` (src/app/api/register/route.ts:10, 27, 42-51), is not modelled.
- Profile.ProfilePage: leaving for the login page is only the `sentToLogin` flag; the model does not stop handlers from being called on the page object afterwards.
- Concurrent registrations with the same email: the lookup and the insert are not atomic, and the model covers sequential calls only.
- PasswordPolicy.RegexTest: a Dafny `char` is a Unicode scalar value, so a character outside the Basic Multilingual Plane is one `char`, while JavaScript's regex without the `u` flag sees two UTF-16 code units. On strings with such characters the model's length, and so its verdict, can differ from the page's: for example "abc1!" followed by five emoji is 10 characters and accepted by the model, but 15 code units and rejected by the page.
- Non-string JSON values in the profile record: `Fields` maps names to strings.

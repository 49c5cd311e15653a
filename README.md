# Gamingear admin client: session manager and product forms

This project models, in Dafny, the parts of the Gamingear admin front end that hold
logic of their own. Each remote request is an input to the model: the value the request
returned, or the error it threw.

- **Session manager** (`src/auth/AuthProvider.tsx`). The session store holds the token,
  the signed-in flag and the user. `localStorage` is a `map<string, string>`. The router
  is the list of paths handed to `navigate`. `Auth.SessionManager` runs `handleSignIn`,
  `handleSignOut`, `signIn`, `signUp`, `signOut`, `refreshAuthToken`, the interval's
  expiry check (`Tick`) and the redirect. Each method is proved against a function on
  values (`SignedIn`, `SignedOut`, `Authenticate`, `Refreshed`, `ShouldRefresh`,
  `RedirectTarget`), and those functions' contracts state what the provider promises.
  `authenticated` is `Auth.Authenticated`: a non-empty token and `signedIn`.
- **Sign-in form** (`SignInForm.tsx`). `SignIn.Validate` is the validation schema.
  `SignIn.SignInForm.OnSignIn` handles the login response. It writes the same session
  store and `localStorage` as the provider, so it takes the `SessionManager` object.
  `AfterLogin` says which keys, fields, message and navigation each outcome produces.
- **Product forms** (`ProductCreate.tsx`, `ProducEdit.tsx`). The `FormData` body is an
  ordered list of `(key, value)` entries. The `append` loops are methods with loop
  invariants, proved equal to recursive functions. Index lemmas then say where each
  field, color, attribute and image lands. The list editors and the image lists are
  methods of `ProductCreate.ProductCreateForm` and `ProductEdit.ProductEditForm`.
- **Product table** (`ProductListTable.tsx`). `ProductList.ProductTable` holds the
  paging state, the loaded page, and the delete-confirmation dialog. Delete-by-id is
  `ProductList.WithoutId`, with lemmas that it keeps order and is idempotent.

Behaviour of the code a reader might not expect:

- `AuthProvider.signIn` and `signUp` do not write `localStorage`. Only the sign-in form
  stores `expirationDate`. The sign-in form and a successful refresh store `accessToken`.
- A `signIn` or `signUp` whose response has a token but no user keeps the previous
  user in the session. It does not clear it (`Auth.Authenticate`).
- A failed refresh calls `handleSignOut`, not `signOut`. The session is cleared, but
  there is no navigation.
- A successful refresh does not update `expirationDate`. Once a refresh is due, every
  later tick refreshes again (`Auth.RefreshStaysDue`).
- In the create form, `reset()` restores the form's defaults, where the attribute and
  color lists are empty. The attribute and color rows on screen are separate state, and
  they stay. The effects that copy those rows into the form run only when the rows
  change. So the next submission sends no attribute and no color entries until a row is
  edited (`ProductCreate.ResetFormSendsNoRows`).
- The create form emits the `images` field twice. The generic branch appends the whole
  array as text (`[object File],…`). Then one upload entry is appended per file.
- A missing selection in the create form is sent as the text `undefined`.
- The product fetches of the edit form and the table never check the response status. An error body is loaded like a product. The edit form then holds `undefined` fields and loses its colors and images (`ProductEdit.ErrorBodySubmitsUndefined`). The table stores an `undefined` list, and its next render throws (`ProductList.ProductTable.RenderFails`).
- `Object.entries` lists the create form's fields in their declaration order: `colors`
  comes before `attributes`.

## Model

| member | source | states |
|---|---|---|
| `Common.Truthy` | src/auth/AuthProvider.tsx:86 | a token or message counts as present exactly when it is defined and non-empty, as JavaScript truthiness treats strings |
| `Common.OrElse` | src/views/auth/SignIn/components/SignInForm.tsx:81 | `a || b` on text: `a` when it is truthy, `b` otherwise, so the result is empty only when `b` is |
| `Common.TextOf` | src/views/concepts/products/ProductEdit/ProducEdit.tsx:52-57 | `FormData.append` of a possibly `undefined` value: the text itself, or `undefined` |
| `Common.Succeeded` | src/views/concepts/products/ProductList/components/ProductListTable.tsx:199 | a request succeeded exactly when it returned a response whose `ok` is true |
| `Auth.Authenticated` | src/auth/AuthProvider.tsx:40 | `authenticated` holds exactly when the token is truthy and the user is signed in |
| `Auth.SessionInvariant` | src/auth/AuthProvider.tsx:40 | a signed-in session always has a non-empty token, so `authenticated` follows from `signedIn` |
| `Auth.RedirectTarget` | src/auth/AuthProvider.tsx:78-81 | the redirect goes to the `redirect` query parameter when it is present and non-empty, otherwise to the authenticated entry path |
| `Auth.SignedIn` | src/auth/AuthProvider.tsx:85-90 | with a missing or empty access token nothing changes; otherwise the token is set, the session is authenticated, the user is replaced only when one is supplied, and storage is untouched |
| `Auth.SignedOut` | src/auth/AuthProvider.tsx:93-99 | the session becomes empty token, no user, not signed in, and not authenticated; `accessToken` and `expirationDate` leave storage; every other key keeps its value |
| `Auth.SignOutIdempotent` | src/auth/AuthProvider.tsx:93-99 | signing out twice gives the same state as once |
| `Auth.SignOutForgetsSession` | src/auth/AuthProvider.tsx:93-99 | the state after sign-out depends only on the storage keys other than the two token keys |
| `Auth.ErrorMessage` | src/auth/AuthProvider.tsx:112 | a thrown error's message is the server's response message when truthy, else the error's text |
| `Auth.RejectionMessage` | src/auth/AuthProvider.tsx:110-125 | a response without a token is answered "Unable to sign in" by `signIn` and "Unable to sign up" by `signUp` |
| `Auth.Authenticate` | src/auth/AuthProvider.tsx:102-129 | a response with a token gives `success` with an empty message, an authenticated session with that token, the response's user when it carries one and the previous user otherwise (the session is `SignedIn` of the response), and a redirect; without a token it gives `failed` with "Unable to sign in" or "Unable to sign up", an unchanged session and no redirect; a thrown error gives `failed` with the error message and an unchanged session; success, authentication and redirect come together |
| `Auth.AuthenticateThenSignOut` | src/auth/AuthProvider.tsx:102-139 | signing in or up and then out ends exactly where signing out alone ends |
| `Auth.Refreshed` | src/auth/AuthProvider.tsx:48-60 | a new token replaces the session token and the stored `accessToken`, with `signedIn`, the user and the stored expiry unchanged; no token changes nothing; a thrown error gives the sign-out state |
| `Auth.StoredExpiry` | src/auth/AuthProvider.tsx:65-67 | the stored `expirationDate` as a time, present only when the key is stored with a non-empty value that parses |
| `Auth.ShouldRefresh` | src/auth/AuthProvider.tsx:64-71 | a tick refreshes exactly when a non-empty `expirationDate` is stored, it parses, and the current time is at least the expiry minus 60000 ms |
| `Auth.RefreshStaysDue` | src/auth/AuthProvider.tsx:48-71 | once a refresh is due it stays due at every later time after a successful refresh, because the stored expiry is not updated |
| `Auth.NothingDueAfterSignOut` | src/auth/AuthProvider.tsx:64-71 | after sign-out no tick refreshes, because the expiry key is gone |
| `Auth.SessionInvariantPreserved` | src/auth/AuthProvider.tsx:48-99 | `handleSignIn`, `handleSignOut`, `signIn`/`signUp` and `refreshAuthToken` each keep the session invariant |
| `Auth.SessionManager.constructor` | src/auth/AuthProvider.tsx:33-41 | the manager starts from the store's session and storage, with no navigation yet |
| `Auth.SessionManager.Snapshot` | src/auth/AuthProvider.tsx:33-38 | the manager's session store and storage, as one client value the specification functions act on |
| `Auth.SessionManager.IsAuthenticated` | src/auth/AuthProvider.tsx:40 | the manager is authenticated exactly when its snapshot is |
| `Auth.SessionManager.Redirect` | src/auth/AuthProvider.tsx:78-82 | one navigation to the redirect target; nothing else changes |
| `Auth.SessionManager.AuthenticatedEffect` | src/auth/AuthProvider.tsx:40-45 | the effect redirects exactly when `authenticated` is true and was not true at the effect's previous run |
| `Auth.SessionManager.HandleSignIn` | src/auth/AuthProvider.tsx:85-90 | the store becomes `SignedIn` of the old store; no navigation |
| `Auth.SessionManager.HandleSignOut` | src/auth/AuthProvider.tsx:93-99 | the store and storage become `SignedOut` of the old ones; no navigation |
| `Auth.SessionManager.AuthenticateWith` | src/auth/AuthProvider.tsx:102-129 | the shared body of `signIn` and `signUp`: the new store, the result and the navigation are those of `Authenticate` |
| `Auth.SessionManager.SignIn` | src/auth/AuthProvider.tsx:102-114 | `signIn` has the store, result and navigation of `Authenticate` on the sign-in endpoint |
| `Auth.SessionManager.SignUp` | src/auth/AuthProvider.tsx:117-129 | `signUp` has the store, result and navigation of `Authenticate` on the sign-up endpoint |
| `Auth.SessionManager.SignOut` | src/auth/AuthProvider.tsx:132-139 | whether or not the remote sign-out throws, the state becomes `SignedOut` and one navigation to the unauthenticated entry path follows; a thrown error is passed on |
| `Auth.SessionManager.RefreshAuthToken` | src/auth/AuthProvider.tsx:48-60 | the store and storage become `Refreshed` of the old ones; no navigation |
| `Auth.SessionManager.Tick` | src/auth/AuthProvider.tsx:64-71 | the tick refreshes exactly when `ShouldRefresh` holds of the storage it read, and changes nothing otherwise |
| `SignIn.Validate` | src/views/auth/SignIn/components/SignInForm.tsx:23-31 | the email passes exactly when it is non-empty and well-formed, and the password passes exactly when it has at least 6 characters; each failing field carries the schema's first failing message |
| `SignIn.Valid` | src/views/auth/SignIn/components/SignInForm.tsx:23-31 | the values pass the schema exactly when neither field carries an error |
| `SignIn.LoginSucceeded` | src/views/auth/SignIn/components/SignInForm.tsx:68 | a login succeeds exactly when the request returned, the response is `ok`, and its access token is truthy |
| `SignIn.AfterLogin` | src/views/auth/SignIn/components/SignInForm.tsx:66-86 | success needs both `ok` and a truthy token: it stores `accessToken` and `expirationDate`, sets the token, `signedIn` and the user, and navigates to `/dashboard`; any other response shows its message or "Login failed"; a thrown error shows "Network error"; the failure cases leave store and storage unchanged |
| `SignIn.LoginKeepsSessionInvariant` | src/views/auth/SignIn/components/SignInForm.tsx:68-76 | a form login keeps the session invariant, since it sets `signedIn` only together with a truthy token |
| `SignIn.LoginThenSignOut` | src/views/auth/SignIn/components/SignInForm.tsx:70-71 | after a form login both token keys are stored, and a sign-out then ends exactly where it would have from the state before the login |
| `SignIn.SignInForm.constructor` | src/views/auth/SignIn/components/SignInForm.tsx:33-34 | the form starts not submitting and with no message |
| `SignIn.SignInForm.OnSignIn` | src/views/auth/SignIn/components/SignInForm.tsx:51-90 | with `disableSubmit` nothing changes; otherwise store, storage, navigation and message follow `AfterLogin` (the message only when a setter was passed), and `submitting` is false afterwards |
| `SignIn.SignInForm.Submit` | src/views/auth/SignIn/components/SignInForm.tsx:93 | invalid values change nothing and report the schema's errors; valid values run `onSignIn` |
| `FormData.DigitChar` | src/views/concepts/products/ProductCreate/ProductCreate.tsx:76 | a digit below 10 renders as the character whose distance from `0` is that digit |
| `FormData.Decimal` | src/views/concepts/products/ProductCreate/ProductCreate.tsx:76 | an index renders as a non-empty string of decimal digits, one digit exactly for indices below 10 (what it denotes is `DecimalValue`) |
| `FormData.DigitsValue` | src/views/concepts/products/ProductCreate/ProductCreate.tsx:76 | the number a string of decimal digits denotes, most significant first; the independent reading of `Decimal` |
| `FormData.DecimalValue` | src/views/concepts/products/ProductCreate/ProductCreate.tsx:76 | the rendering of `n` denotes `n` and has no leading zero unless `n` is 0, as `${index}` prints it |
| `FormData.DigitCharInjective` | src/views/concepts/products/ProductCreate/ProductCreate.tsx:76 | different digits render as different characters |
| `FormData.DecimalInjective` | src/views/concepts/products/ProductCreate/ProductCreate.tsx:76 | different indices render as different strings |
| `FormData.IndexedKey` | src/views/concepts/products/ProductCreate/ProductCreate.tsx:76-80 | a template key `prefix[i]suffix` starts with the prefix followed by `[`, and is longer than prefix and suffix together |
| `FormData.IndexedKeyInjective` | src/views/concepts/products/ProductCreate/ProductCreate.tsx:76-80 | two indices that produce the same `prefix[i]suffix` key are equal |
| `FormData.ColorKey` | src/views/concepts/products/ProductCreate/ProductCreate.tsx:80 | the key of color `i` is `colors[i]` |
| `FormData.ColorEntries` | src/views/concepts/products/ProductEdit/ProducEdit.tsx:64-66 | the colors loop gives exactly one entry per color |
| `FormData.ColorEntryAt` | src/views/concepts/products/ProductCreate/ProductCreate.tsx:79-80 | color `i` is entry `i`, under the key `colors[i]` |
| `FormData.ColorEntriesAt` | src/views/concepts/products/ProductCreate/ProductCreate.tsx:79-80 | the colors loop appends exactly one entry per color: color `i` is entry `i`, under `colors[i]` |
| `FormData.AppendColorEntries` | src/views/concepts/products/ProductEdit/ProducEdit.tsx:64-66 | the colors loop appends the color entries after the entries already built |
| `FormData.FilesText` | src/views/concepts/products/ProductCreate/ProductCreate.tsx:82 | an array of files appended as a plain value becomes text that is empty exactly when the array is empty, and otherwise `14·n − 1` characters long |
| `FormData.FilesTextBlock` | src/views/concepts/products/ProductCreate/ProductCreate.tsx:82 | file `k` renders as `[object File]` at characters `14k` to `14k+12`, followed by a comma unless it is the last |
| `FormData.FilesTextLayout` | src/views/concepts/products/ProductCreate/ProductCreate.tsx:82 | the text is `[object File]` once per file, joined by commas, for every file at once |
| `Lists.DropPosition` | src/views/concepts/products/ProductCreate/ProductCreate.tsx:49 | `filter((_, i) => i !== index)` walking the array from a given position |
| `Lists.DropPositionSplices` | src/views/concepts/products/ProductCreate/ProductCreate.tsx:48-50 | filtering out one position removes exactly that element when it is in range, keeping the rest in order, and removes nothing otherwise |
| `Lists.RemoveAt` | src/views/concepts/products/ProductCreate/ProductCreate.tsx:49 | removing index `i` drops only element `i` and keeps the others in order; an index out of range changes nothing |
| `Lists.ReplaceAt` | src/views/concepts/products/ProductCreate/ProductCreate.tsx:158-159 | the row editors (also lines 168-169 and 203-204) give a list of the same length where only position `i` holds the new row |
| `ProductCreate.SelectedValue` | src/views/concepts/products/ProductCreate/ProductCreate.tsx:72-73 | a selection is sent as its option's `value`; no selection is sent as `undefined` |
| `ProductCreate.AttributeKeyKey` | src/views/concepts/products/ProductCreate/ProductCreate.tsx:76 | the key of attribute row `i` is `attributes[i].key` |
| `ProductCreate.AttributeValueKey` | src/views/concepts/products/ProductCreate/ProductCreate.tsx:77 | the value of attribute row `i` goes under `attributes[i].value` |
| `ProductCreate.AttributeEntries` | src/views/concepts/products/ProductCreate/ProductCreate.tsx:74-78 | the attributes branch gives exactly two entries per row |
| `ProductCreate.AttributeEntryAt` | src/views/concepts/products/ProductCreate/ProductCreate.tsx:74-78 | row `i` gives its key at entry `2i` and its value at entry `2i+1` |
| `ProductCreate.AttributeEntriesAt` | src/views/concepts/products/ProductCreate/ProductCreate.tsx:74-78 | attribute row `i` is sent as exactly `attributes[i].key` then `attributes[i].value`, at entries `2i` and `2i+1` |
| `ProductCreate.FileEntries` | src/views/concepts/products/ProductCreate/ProductCreate.tsx:86 | the images loop gives exactly one entry per file |
| `ProductCreate.FileEntriesAt` | src/views/concepts/products/ProductCreate/ProductCreate.tsx:86 | one `images` upload per file, in list order |
| `ProductCreate.ScalarEntries` | src/views/concepts/products/ProductCreate/ProductCreate.tsx:71-84 | the seven plain fields in `Object.entries` order, the two selections by their value |
| `ProductCreate.FieldEntries` | src/views/concepts/products/ProductCreate/ProductCreate.tsx:71-84 | the entries of the pass over the form's values: scalar fields, colors, attributes, and the image list as text |
| `ProductCreate.SubmitEntries` | src/views/concepts/products/ProductCreate/ProductCreate.tsx:67-86 | the whole body `onSubmit` sends: the field entries, then one upload per file |
| `ProductCreate.FieldEntriesEnds` | src/views/concepts/products/ProductCreate/ProductCreate.tsx:71-84 | the form's pass gives `8 + colors + 2·attributes` entries: the seven scalar fields first, the image list as text last |
| `ProductCreate.FieldColorsAt` | src/views/concepts/products/ProductCreate/ProductCreate.tsx:79-80 | color `i` is field entry `7 + i` |
| `ProductCreate.FieldAttributeEntry` | src/views/concepts/products/ProductCreate/ProductCreate.tsx:71-84 | the attribute entries sit right after the seven scalar fields and the colors |
| `ProductCreate.FieldAttributesAt` | src/views/concepts/products/ProductCreate/ProductCreate.tsx:74-78 | attribute row `i` is field entries `7 + colors + 2i` (key) and `8 + colors + 2i` (value) |
| `ProductCreate.SubmitEntriesLayout` | src/views/concepts/products/ProductCreate/ProductCreate.tsx:67-86 | the body is the field entries followed by one `images` upload per file, in order |
| `ProductCreate.ResetFormSendsNoRows` | src/views/concepts/products/ProductCreate/ProductCreate.tsx:99-103 | after a reset, the body holds only the eight field entries: no attribute, color or file entries |
| `ProductCreate.BuildSubmitEntries` | src/views/concepts/products/ProductCreate/ProductCreate.tsx:67-86 | the `append` calls build exactly the body described above |
| `ProductCreate.AppendAttributeEntries` | src/views/concepts/products/ProductCreate/ProductCreate.tsx:74-78 | the attributes loop appends the attribute entries after those already built |
| `ProductCreate.AppendFileEntries` | src/views/concepts/products/ProductCreate/ProductCreate.tsx:86 | the images loop appends the file entries after those already built |
| `ProductCreate.ProductCreateForm.constructor` | src/views/concepts/products/ProductCreate/ProductCreate.tsx:27-36 | the form starts with one blank attribute row, one blank color row, no images, not loading, and the lists copied into the form |
| `ProductCreate.ProductCreateForm.SetAttributes` | src/views/concepts/products/ProductCreate/ProductCreate.tsx:34 | the new attribute list is also copied into the form; nothing else changes |
| `ProductCreate.ProductCreateForm.SetColors` | src/views/concepts/products/ProductCreate/ProductCreate.tsx:35 | the new color list is also copied into the form; nothing else changes |
| `ProductCreate.ProductCreateForm.SetImages` | src/views/concepts/products/ProductCreate/ProductCreate.tsx:36 | the new image list is also copied into the form; nothing else changes |
| `ProductCreate.ProductCreateForm.AddAttribute` | src/views/concepts/products/ProductCreate/ProductCreate.tsx:188 | one blank row is appended |
| `ProductCreate.ProductCreateForm.RemoveAttribute` | src/views/concepts/products/ProductCreate/ProductCreate.tsx:178 | the rows become `RemoveAt` of the old rows |
| `ProductCreate.ProductCreateForm.EditAttributeKey` | src/views/concepts/products/ProductCreate/ProductCreate.tsx:157-160 | only the key of row `i` changes |
| `ProductCreate.ProductCreateForm.EditAttributeValue` | src/views/concepts/products/ProductCreate/ProductCreate.tsx:167-170 | only the value of row `i` changes |
| `ProductCreate.ProductCreateForm.AddColor` | src/views/concepts/products/ProductCreate/ProductCreate.tsx:223 | one blank color row is appended |
| `ProductCreate.ProductCreateForm.RemoveColor` | src/views/concepts/products/ProductCreate/ProductCreate.tsx:213 | the color rows become `RemoveAt` of the old rows |
| `ProductCreate.ProductCreateForm.EditColor` | src/views/concepts/products/ProductCreate/ProductCreate.tsx:202-205 | only color row `i` changes |
| `ProductCreate.ProductCreateForm.HandleImagesChange` | src/views/concepts/products/ProductCreate/ProductCreate.tsx:43-46 | the picked files are appended after the existing images, in order |
| `ProductCreate.ProductCreateForm.RemoveImage` | src/views/concepts/products/ProductCreate/ProductCreate.tsx:48-50 | the images become `RemoveAt` of the old images |
| `ProductCreate.ProductCreateForm.OnSubmit` | src/views/concepts/products/ProductCreate/ProductCreate.tsx:67-109 | the body sent is `SubmitEntries` of the form and images; on an ok response the form is reset and the images cleared, otherwise both are kept; `loading` is false afterwards |
| `ProductEdit.OrEmpty` | src/views/concepts/products/ProductEdit/ProducEdit.tsx:31-34 | a missing array reads as empty and a present one as itself |
| `ProductEdit.LoadedForm` | src/views/concepts/products/ProductEdit/ProducEdit.tsx:23-32 | loading a body copies each text field as the body has it, `undefined` included; both selections are present whatever the body holds; the colors are the fetched array or `[]` |
| `ProductEdit.LoadedFormSendsSelections` | src/views/concepts/products/ProductEdit/ProducEdit.tsx:27-28 | a loaded form always sends `categoryId` and `brandId`, after the six fixed fields, as the fetched ids or `undefined` |
| `ProductEdit.ErrorBodySubmitsUndefined` | src/views/concepts/products/ProductEdit/ProducEdit.tsx:21-34 | after loading a body without product fields, such as an error response, the next submission sends `undefined` for every field and both selections, and no colors or images |
| `ProductEdit.ExistingImageKey` | src/views/concepts/products/ProductEdit/ProducEdit.tsx:72 | the key of the existing image at position `i` is `existingImages[i]` |
| `ProductEdit.ImageEntry` | src/views/concepts/products/ProductEdit/ProducEdit.tsx:69-73 | a new file is uploaded under `images`; an existing URL goes under its position's key |
| `ProductEdit.ImageEntries` | src/views/concepts/products/ProductEdit/ProducEdit.tsx:68-74 | the images loop gives exactly one entry per image |
| `ProductEdit.ImageEntryAt` | src/views/concepts/products/ProductEdit/ProducEdit.tsx:68-74 | image `i` gives entry `i`: an upload for a new file, `existingImages[i]` for an existing URL |
| `ProductEdit.ImageEntriesAt` | src/views/concepts/products/ProductEdit/ProducEdit.tsx:68-74 | image `i` gives entry `i`: an `images` upload for a file, `existingImages[i]` with its URL otherwise, `i` being its position in the whole list |
| `ProductEdit.ExistingImageKeysDistinct` | src/views/concepts/products/ProductEdit/ProducEdit.tsx:68-74 | two existing images are never sent under the same key |
| `ProductEdit.OptionalSelection` | src/views/concepts/products/ProductEdit/ProducEdit.tsx:59-60 | a selection is sent only when present, as its `value` or `undefined` |
| `ProductEdit.FixedEntries` | src/views/concepts/products/ProductEdit/ProducEdit.tsx:52-57 | `id` then the five text fields, in the order they are appended |
| `ProductEdit.HeadEntries` | src/views/concepts/products/ProductEdit/ProducEdit.tsx:52-60 | the fixed fields followed by each selection that exists |
| `ProductEdit.Selections` | src/views/concepts/products/ProductEdit/ProducEdit.tsx:59-60 | how many selection entries the body carries |
| `ProductEdit.ColorPart` | src/views/concepts/products/ProductEdit/ProducEdit.tsx:64-66 | one entry per color, none when the form has no colors array |
| `ProductEdit.SubmitEntries` | src/views/concepts/products/ProductEdit/ProducEdit.tsx:52-74 | the whole body `onSubmit` sends: head, colors, images |
| `ProductEdit.HeadLayout` | src/views/concepts/products/ProductEdit/ProducEdit.tsx:52-62 | the six fixed fields come first; the category follows only when selected, and the brand closes the head only when selected |
| `ProductEdit.ColorPartAt` | src/views/concepts/products/ProductEdit/ProducEdit.tsx:64-66 | color `i` gives entry `i` of the colors part, which is empty when the product has no colors array |
| `ProductEdit.SubmitEntriesHead` | src/views/concepts/products/ProductEdit/ProducEdit.tsx:52-60 | the body opens with the six fixed fields, then the category entry exactly when one is selected, then the brand entry exactly when one is selected |
| `ProductEdit.SubmitEntriesColor` | src/views/concepts/products/ProductEdit/ProducEdit.tsx:64-66 | color `i` is sent right after the head, at entry `6 + selections + i`, under `colors[i]` |
| `ProductEdit.SubmitEntriesImages` | src/views/concepts/products/ProductEdit/ProducEdit.tsx:68-74 | the image entries close the body |
| `ProductEdit.SubmitEntriesLayout` | src/views/concepts/products/ProductEdit/ProducEdit.tsx:52-74 | the body starts with `id`, `name`, `price`, `stockQuantity`, `description`, `moreDescription`; then `categoryId` and `brandId` only when selected, by `.value`; then one entry per color, none when colors are absent; then the image entries |
| `ProductEdit.BuildSubmitEntries` | src/views/concepts/products/ProductEdit/ProducEdit.tsx:52-74 | the `append` calls build exactly that body |
| `ProductEdit.AppendImageEntries` | src/views/concepts/products/ProductEdit/ProducEdit.tsx:68-74 | the images loop appends the image entries after those already built |
| `ProductEdit.ProductEditForm.constructor` | src/views/concepts/products/ProductEdit/ProducEdit.tsx:9-16 | the form starts with no values, no colors, no images, not loading |
| `ProductEdit.ProductEditForm.LoadProduct` | src/views/concepts/products/ProductEdit/ProducEdit.tsx:18-40 | a returned body is loaded whatever its status: the form becomes `LoadedForm` of it, and colors and images the fetched arrays or `[]`, so an error body clears them; a request that throws changes nothing |
| `ProductEdit.ProductEditForm.HandleImageUpload` | src/views/concepts/products/ProductEdit/ProducEdit.tsx:43-46 | the picked files are appended after the listed images, in order |
| `ProductEdit.ProductEditForm.OnSubmit` | src/views/concepts/products/ProductEdit/ProducEdit.tsx:48-92 | the body sent is `SubmitEntries`; `loading` is false afterwards whatever the outcome; nothing else changes |
| `ProductList.WithoutId` | src/views/concepts/products/ProductList/components/ProductListTable.tsx:201 | filtering never makes the list longer |
| `ProductList.WithoutIdMembers` | src/views/concepts/products/ProductList/components/ProductListTable.tsx:201 | a product is kept exactly when it was in the list and its id differs |
| `ProductList.WithoutIdConcat` | src/views/concepts/products/ProductList/components/ProductListTable.tsx:201 | filtering a concatenation filters each part, so the kept products stay in order |
| `ProductList.WithoutIdAbsent` | src/views/concepts/products/ProductList/components/ProductListTable.tsx:201 | a list with no product of that id is unchanged |
| `ProductList.WithoutIdIdempotent` | src/views/concepts/products/ProductList/components/ProductListTable.tsx:201 | removing the same id twice gives the same list as once |
| `ProductList.ProductTable.constructor` | src/views/concepts/products/ProductList/components/ProductListTable.tsx:67-75 | the table starts on page index 0 with page size 10, loading, with an empty list, a total of 0 and a closed dialog |
| `ProductList.ProductTable.NoData` | src/views/concepts/products/ProductList/components/ProductListTable.tsx:238 | the empty state shows exactly when loading is over and the list is an empty array |
| `ProductList.ProductTable.RenderFails` | src/views/concepts/products/ProductList/components/ProductListTable.tsx:238 | rendering throws exactly when loading is over and the list is `undefined`, since the `noData` test reads its length only after `!isLoading` |
| `ProductList.ProductTable.FetchProducts` | src/views/concepts/products/ProductList/components/ProductListTable.tsx:77-89 | the body's `items` and `count` replace the list and the total, even when missing: the table shows `noData` exactly when `items` is an empty array and rendering throws exactly when `items` is missing; a request that throws keeps both; loading is over in both cases |
| `ProductList.ProductTable.HandleDelete` | src/views/concepts/products/ProductList/components/ProductListTable.tsx:184-187 | the dialog opens with the product's id pending; the list is untouched |
| `ProductList.ProductTable.CloseDialog` | src/views/concepts/products/ProductList/components/ProductListTable.tsx:255 | the dialog closes; the pending id stays |
| `ProductList.ProductTable.HandleConfirmDelete` | src/views/concepts/products/ProductList/components/ProductListTable.tsx:189-211 | an ok response with a loaded list removes every product with the pending id, closes the dialog and clears the id; a non-ok response, a thrown request, or an `undefined` list (the filter throws and is caught) changes nothing |
| `ProductList.ProductTable.HandlePaginationChange` | src/views/concepts/products/ProductList/components/ProductListTable.tsx:213-217 | only the page index changes |
| `ProductList.ProductTable.HandleSelectChange` | src/views/concepts/products/ProductList/components/ProductListTable.tsx:219-224 | the page size is set and the page index becomes 1; the sort is kept |
| `ProductList.ProductTable.HandleSort` | src/views/concepts/products/ProductList/components/ProductListTable.tsx:226-230 | the sort is set; page index and size are kept |

## Left out

- HTTP: every `fetch` and axios call, and all of `src/services/AuthService.ts`. Each response is an input value: a returned body, or a thrown error with an optional server message. The refresh credential that `apiRefreshToken` reads from `localStorage` is part of that request and is not modelled.
- Time: the `setInterval` scheduling and its 9-minute period are not modelled. `Tick` takes the current time in milliseconds. `new Date(...)` parsing is a function parameter that yields no value where JavaScript yields `NaN`.
- React machinery: rendering, and when effects and memos are scheduled. The effects the logic depends on are methods that the model calls explicitly: the redirect on authentication, the copies of the create form's lists into the form, the product load, and the table's refetch. The `oAuthSignIn` hand-off is left out, as is the `IsolatedNavigator` indirection. The navigator is taken to be mounted, so every `navigate` call is recorded. The `replace: true` navigation option is left out.
- Concurrency: overlapping sign-in, refresh and sign-out requests. Each operation is atomic in the model.
- The session store (`authStore`) is not part of this model. Its initial session is a constructor argument. The setters of `useSessionUser` and `useToken` are taken to write one shared store.
- JavaScript values: product fields are plain text. Number formatting, `NumericFormat` and the sales-percentage colours are left out. A thrown non-object error, whose `toString()` would itself throw, is not modelled.
- Aliasing: the row editors mutate the row object in place (`updated[index].key = …`), and that object is shared with the previous array. The model works on values, so this sharing is not captured.
- The email-format check of the validation schema is an uninterpreted predicate. The schema counts UTF-16 code units, and the model counts characters.
- The category and brand option fetches of the create form (`ProductCreate.tsx:52-65`) are left out. So is its second, unused `useForm` (`ProductCreate.tsx:38-42`). They only fill the select options.
- `handleEdit` in the product table is left out: it only navigates to the edit page.
- Categories, brands, navigation configuration, the endpoint constants and the user profile dropdown are not part of this model. They are fetch-then-set glue or constant data. Their only list update is the delete-by-id filter, which is modelled here for products.
- `Console` logging is not modelled.

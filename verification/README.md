# Event site: storage, travel form, client router and server auth rules

A Dafny model of the logic inside a small password-gated event site:

- **Storage** (`storage.dfy`, with `js_map.dfy` and `schema.dfy`): the in-memory store `MemStorage`, a class with two
  JavaScript `Map` fields (users and travel submissions) that `createUser` and `createTravelSubmission`
  change in place. A `Map` is modelled as `JsMap.OrderedMap`, keys in first-insertion order plus a Dafny `map`,
  so that `values()` keeps JavaScript's iteration order. The class invariant says every row sits under its own id
  and no stored submission holds `""` in a nullable column.
- **Travel form** (`travel_form.dfy`): the eight-field form record, the one-field update of `handleChange`, the insert
  record built by `handleSubmit` (every empty optional string becomes null) and the `submitted` flag; a lemma shows
  the store's own falsy-to-null normalisation leaves that record unchanged.
- **Client router** (`app_router.dfy`): the `Router` component's three flags as a class, its five handlers as methods,
  and the pure rule that picks the page for a path.
- **Server handlers** (`routes.dfy`): each endpoint as a method from the session flags, the request body and the
  session-store outcome to a status, a reply and the resulting session (or a store update); `requireAdminAuth` as a
  function.
- **End to end** (`event_site.dfy`): a form submission posted to the server and stored, with the stored row equal to
  the form's record and listed last.

The schema declares `username` unique (schema.ts:8, `.unique()`), but `MemStorage.createUser` does not enforce it; the
model follows the code (`Storage.DuplicateUsernamesAccepted`).

## Model

| member | source | states |
|---|---|---|
| `JsMap.OrderedMap.Get` | storage.ts:67-69 | `get` finds a value exactly when the key is present, and it is the stored one |
| `JsMap.OrderedMap.Set` | storage.ts:80 | `set` makes the key map to the value, leaves every other key's lookup unchanged, appends a new key to the order and keeps an existing key's place |
| `JsMap.OrderedMap.Values` | storage.ts:101-103 | `Array.from(values())` has one entry per key, the i-th being the value under the i-th inserted key |
| `JsMap.Empty` | storage.ts:62-65 | a new `Map` has no key and no values |
| `JsMap.SetFreshAppends` | storage.ts:97 | setting a key not yet present appends its value at the end of the iteration order |
| `JsMap.InValues` | storage.ts:101-103 | a value is listed exactly when some key holds it |
| `Storage.OrNull` | storage.ts:89-95 | the falsy-to-null step yields null exactly when the value is null, undefined or `""`, otherwise the value itself, and never `""` |
| `Storage.MakeSubmission` | storage.ts:86-96 | the stored record has the given id and the input name; each optional field is null exactly when the input's is falsy, otherwise the input's value; no field holds `""` |
| `Storage.WithoutId` | schema.ts:29-31 | a stored row as an insert record keeps the name and all seven optional fields |
| `Storage.NormalizeFixesNoEmptyText` | storage.ts:89-95 | a record with no `""` in an optional field is stored with every field unchanged |
| `Storage.NormalizeIdempotent` | storage.ts:86-96 | normalising a stored row again gives the same row |
| `Storage.MemStorage.constructor` | storage.ts:62-65 | a fresh store finds nothing under any id and lists no user and no submission |
| `Storage.MemStorage.GetUser` | storage.ts:67-69 | a user is found exactly when one is stored under the id; the found user carries that id and is among the stored users |
| `Storage.MemStorage.Users` | storage.ts:72 | the users in insertion order, the i-th being the one under the i-th inserted id |
| `Storage.MemStorage.GetUserByUsername` | storage.ts:71-75 | finds a user exactly when some stored user has the username; the one found is the first such in insertion order and is the one stored under its id |
| `Storage.MemStorage.CreateUser` | storage.ts:77-82 | the result is the input plus the fresh id, lookup by that id returns it, every other id's lookup and the submissions map are unchanged, and it is listed last |
| `Storage.MemStorage.CreateTravelSubmission` | storage.ts:84-99 | the result is the normalised record under the fresh id, lookup by that id returns it, every other id's lookup and the users map are unchanged, and the list grows by it at the end |
| `Storage.MemStorage.ListTravelSubmissions` | storage.ts:101-103 | one entry per stored id, each retrievable by its own id, normalised, and no id twice |
| `Storage.MemStorage.GetTravelSubmission` | storage.ts:105-107 | a submission is found exactly when one is stored under the id; it carries that id and is normalised |
| `Storage.DuplicateUsernamesAccepted` | storage.ts:77-82 | two users with one username are both stored under their own ids, and lookup by that username returns the earlier |
| `TravelForm.TravelFormData.With` | components/TravelForm.tsx:61-64 | the named input gets the new text; the other seven keep theirs |
| `TravelForm.InitialForm` | components/TravelForm.tsx:24-33 | all eight inputs start as `""` |
| `TravelForm.EmptyToNull` | components/TravelForm.tsx:72-78 | a form string becomes null exactly when it is `""`, otherwise itself |
| `TravelForm.BuildSubmission` | components/TravelForm.tsx:66-82 | the record's name is the form's name verbatim; each optional field is null exactly when its input is `""`, otherwise that input's text; no field holds `""` |
| `TravelForm.StoredFormRecordUnchanged` | components/TravelForm.tsx:70-79 | storing a form-built record changes none of its fields |
| `TravelForm.TravelFormState.constructor` | components/TravelForm.tsx:24-34 | the form starts blank and not submitted |
| `TravelForm.TravelFormState.HandleChange` | components/TravelForm.tsx:61-64 | only the named input changes, to the new text; `submitted` is kept |
| `TravelForm.TravelFormState.HandleSubmit` | components/TravelForm.tsx:37-82 | the record sent is built from the form; `submitted` becomes true only on success; the form data are never changed |
| `AppRouter.RenderedPage` | App.tsx:65-81 | the login page is shown exactly when the user is not authenticated; the dashboard exactly at `/admin` with both flags; `/` and `/event` show the event page; `/admin-login`, and `/admin` without the admin flag, show the admin login page; other paths show not-found |
| `AppRouter.Router.constructor` | App.tsx:15-17 | starts unauthenticated, not admin and checking the admin session, so every path shows the login page |
| `AppRouter.Router.CheckAdminSession` | App.tsx:21-32 | the admin flag becomes true exactly when the server replied `isAdmin: true`, checking ends, the user flag is kept |
| `AppRouter.Router.HandleLogin` | App.tsx:37-40 | sets the user flag and nothing else |
| `AppRouter.Router.HandleLogout` | App.tsx:42-46 | clears the user and admin flags, so every path shows the login page |
| `AppRouter.Router.HandleAdminLogin` | App.tsx:48-51 | sets the admin flag and nothing else |
| `AppRouter.Router.HandleAdminLogout` | App.tsx:53-63 | the admin flag is false afterwards whether the server call succeeds or fails; the dashboard is no longer shown |
| `Routes.UserPassword` | routes.ts:46 | the configured user password is the environment value when non-empty, else `"Product2025"`; never empty |
| `Routes.UserLogin` | routes.ts:43-82 | falsy password: 400, session kept; wrong password: 401, session kept; right password: 200 exactly when regenerate and save succeed, leaving a session with only the user flag; 500 with the session kept when regenerate fails, 500 with an empty session when save fails; the admin flag is never granted |
| `Routes.AuthSession` | routes.ts:84-88 | replies 200 with the session's user flag, absent read as false |
| `Routes.UserLogout` | routes.ts:90-105 | not logged in: 200 "Not logged in", session kept; logged in: the session is destroyed with 200, or kept with 500 when destroy fails |
| `Routes.AdminLogin` | routes.ts:108-139 | missing, empty or non-string password: 400; a string not equal to the configured admin password (or none configured): 401; 200 exactly on a match with a successful regenerate, leaving a session with only the admin flag; 500 when regenerate fails, session kept |
| `Routes.AdminSession` | routes.ts:141-143 | replies 200 with the session's admin flag, absent read as false |
| `Routes.AdminLogout` | routes.ts:145-163 | always destroys the whole session, user flag included, with 200; 500 and the session kept when destroy fails |
| `Routes.RequireAdminAuth` | routes.ts:27-33 | the request passes exactly when the session has the admin flag, otherwise 401 "Authentication required" |
| `Routes.ListTravelSubmissions` | routes.ts:181-189 | 200 exactly with the admin flag, replying with the stored list; otherwise 401 |
| `Routes.CreateTravelSubmission` | routes.ts:166-179 | invalid body: 400 "Invalid data", nothing stored; valid body: 201 with the normalised record, which is stored under the fresh id and listed last; no session flag is consulted |
| `EventSite.SubmitTravelForm` | components/TravelForm.tsx:66-82 | a valid submission is stored as exactly the form's record and listed last, and the form shows submitted; an invalid one stores nothing |

## Left out

- `DbStorage` and the exported `storage` instance (storage.ts:19-56, 110): thin wrappers over SQL that cannot be seen. In the model the handlers run on `MemStorage`, which implements the same interface. The deployed server uses `DbStorage` (routes.ts:4, storage.ts:110), which inserts the record as given with no falsy-to-null step (storage.ts:43-46) and lists rows in no specified order (storage.ts:48-50); the "normalised" and "listed last" guarantees of `Routes.CreateTravelSubmission` and `EventSite.SubmitTravelForm` are not claimed for it.
- `randomUUID`: ids are parameters, with the requirement that the id is not yet a key of the map it goes into.
- Request validation with zod and drizzle-zod: the POST handler receives the validation result (`None` when the body is invalid).
- express-session internals (cookies, `clearCookie`, how `regenerate`, `save` and `destroy` work): each is a may-fail step given as a `SessionStore` parameter. A successful regenerate yields a session with no flags; a failed regenerate or destroy leaves the session as it was; when save fails after a regenerate the new flag is taken as not persisted, so the session holds no flags.
- Routes.UserLogin and Routes.AdminLogin: the outer `catch` answering 500 (for instance when the body cannot be destructured) is not modelled, because nothing in the modelled steps throws.
- Routes.ListTravelSubmissions and Routes.CreateTravelSubmission: the 500 "Internal server error" branches are not modelled, because `MemStorage` never throws.
- The admin login rate limiter (routes.ts:16-24): wall-clock windows of a library.
- Timing of the password comparison: modelled as plain string equality, as the code does it.
- Async and promise plumbing, react-query caching and invalidation, toasts, console logging, the pending-state button, and `fetch` calls; the outcome of each server call is a parameter.
- TravelForm.TravelFormData.With: only the eight rendered input names are modelled; an event naming any other property is not.
- AppRouter.Router.CheckAdminSession: a reply's `isAdmin` is taken to be a boolean or absent, as the server sends; other JSON values are not modelled. The flag `isCheckingAdminSession` is never read when choosing the page, so it does not affect `RenderedPage`.
- AppRouter.RenderedPage: paths are matched by exact string equality. The routing library's default matcher also ignores letter case and accepts one trailing slash, so a path such as `/admin/` or `/Event` renders the dashboard or the event page in the program but `NotFound` in the model; that library behaviour is not modelled.
- null and undefined in an optional input are one value, `None`: both are falsy and both become null.
- Presentation components (agenda, FAQ, tabs, hero, dashboard table, login page layouts and examples), the 500 ms simulated delay, and the client-side hard-coded password check in the login page.

# Front-biblio session, routing and data layer in Dafny

This project models the core of a library-management front end written in
React and TypeScript:

- the **session store** (`AuthContext`): the current user, the `loading` flag
  and the two browser-storage keys `token` and `user`. It restores a session
  at mount and offers login against a test-account table or the backend,
  registration, logout and the `isAdmin` test;
- the **route guard** (`ProtectedRoute`) and the **`/dashboard` dispatcher**
  (`AuthRedirect`);
- the **login form** (`Login.tsx`), which talks to the backend on its own;
- the **route table** of `App.tsx`, including how the guard, the dispatcher
  and the form compose;
- the generic **data table**: its search filter, column sort and sort toggle;
- the **catalogue page**: its book filter and its backend-or-sample-data
  loading;
- the **request layer** `api.ts`: query strings, the request `apiRequest`
  sends, response and error handling, and list unwrapping;
- the **`useApi` hook**: a loading, error and success state machine.

## How the model is built

- **Pure code becomes functions.** This covers fallback chains, guards,
  filters, comparators and query strings. Each has a named result and a
  contract; lemmas relate the functions to one another.
- **State that changes in place becomes classes.** `AuthProvider`,
  `LocalStorage`, `LoginForm`, `TableState`, `CatalogPage` and `ApiState`
  have the source's fields. Each method's contract ties the new state to a
  step function of the old state (`RestoreStep`, `LoginStep`, `ExecuteStep`,
  ...) or states the new fields outright. The properties are then proved
  about those step functions.
- **`window.localStorage` is one shared object** (`AuthContext.LocalStorage`).
  `AuthProvider` and `LoginForm` both hold a reference to it, so a token the
  form writes is the token a later restore reads.
- **External inputs are parameters.** Whatever comes from outside the code
  is passed in:
  - backend replies (`Reply`, `LoginReply`, `ProfileReply`, `CatalogReply`,
    `Response`, `CallOutcome`);
  - `Math.random()` and `Date.now()`, as `testId` and `now`;
  - the environment variable `VITE_API_URL`;
  - the form-encoding of `URLSearchParams`, as the function `enc`.

  "No backend call" is stated as "the outcome is the same whatever the
  backend would have answered".
- **JavaScript truthiness is explicit.** An optional string is truthy iff it
  is present and not empty (`Text.Truthy`). A number is truthy iff it is not
  0. A JSON value follows `Api.JsTruthy`.
- **Files follow the source.** There is one module per source file, plus
  `Wrappers` (Option), `Text` (`||` chains, `toLowerCase`,
  `includes`, `String(n)`), `Seqs` (`filter` and subsequences) and
  `Navigation` (the guard's decision type).

### Where the code and the system's specification differ

The model follows the code in each case.

- **`loading` goes back to true.** The specification says the restore flag
  changes once, from true to false, and is never set back. In the code,
  `login` and `register` set the shared `loading` flag to true again while
  they run. The class methods do this, but the step functions show only the
  final state, which is always `loading == false`.
- **The round trip loses the email heuristic.** The specification promises
  that a login followed by a restore keeps the administrator classification.
  That holds only when the backend user carries `role` or `tipo`
  (`AuthContext.LoginRestoreRoundTrip`). A user typed 'admin' by the email
  heuristic is restored as 'estudiante', because restore has no heuristic
  (`AuthContext.LoginRestoreRoundTripLosesEmailHeuristic`).
- **The dispatcher and the guard use different tests.** The specification
  describes them as the same administrator test. In the code:
  - the dispatcher accepts 'admin', 'bibliotecario' or the address
    `admin2@bibliotec.com`;
  - the guard accepts 'admin', 'administrador' and 'bibliotecario';
  - `isAdmin` accepts 'admin' and 'bibliotecario'.

  As a result, the override address with another type bounces from `/admin`
  to `/user-dashboard` (`AppRoutes.OverrideBounce`). An 'administrador' is
  sent to the user dashboard although the guard would admit them
  (`AuthRedirect.AdministradorSentToUserDashboard`).
- **The login page does not sign the user in.** It stores only the token and
  never sets the session store's user. Its navigation therefore lands on a
  guarded path that redirects to `/login` (`AppRoutes.FormLoginBounces`).
  Only a reload restores the session from the stored token
  (`AppRoutes.FormLoginThenReload`).
- **A failed login keeps the previous user.** A failed login or registration
  leaves any previous user and both storage keys unchanged; it does not
  clear them (`AuthContext.FailureWritesNothing`).

## Model

| member | source | states |
|---|---|---|
| `Text.FirstTruthy` | src/contexts/AuthContext.tsx:58 | `a \|\| b \|\| ...` is an operand: the first truthy one, or the last operand when no earlier one is truthy; the result is truthy iff some operand is |
| `Text.FirstTruthy3` | src/contexts/AuthContext.tsx:60 | a three-operand chain is the nested choice `a` if truthy, else `b` if truthy, else `c` |
| `Text.FirstTruthy4` | src/contexts/AuthContext.tsx:157 | the same for four operands |
| `Text.Lower` | src/components/DataTable.tsx:43 | `toLowerCase` keeps the length, maps each character, and leaves no upper-case letter |
| `Text.LowerIdempotent` | src/pages/Catalog.tsx:185 | lower-casing twice equals lower-casing once |
| `Text.ContainsIff` | src/components/DataTable.tsx:43 | `s.includes(t)` holds iff `t` occurs in `s` at some index |
| `Text.Contains` | src/components/DataTable.tsx:43 | `s.includes(t)` can hold only when `t` is no longer than `s` |
| `Text.ContainsEmpty` | src/pages/Catalog.tsx:185-187 | every string includes the empty string |
| `Text.NatToString` | src/contexts/AuthContext.tsx:102 | `String(n)` is a non-empty string of decimal digits without a leading zero |
| `Text.DecimalRoundTrip` | src/contexts/AuthContext.tsx:102 | reading `String(n)` back as a decimal gives `n` |
| `Text.IntToString` | src/services/api.ts:89-90 | `String(i)` starts with '-' iff `i` is negative |
| `Seqs.Filter` | src/components/DataTable.tsx:40-45 | `filter` returns a subsequence of its input, holding exactly the elements that pass the predicate, each as many times as in the input (and no failing one); it returns the input unchanged when every element passes |
| `Seqs.SubseqOfMultiset` | src/components/DataTable.tsx:40-45 | a filtered list holds no more copies of any row than its input |
| `AuthContext.StorageString` | src/contexts/AuthContext.tsx:165 | `setItem` stores a present token as itself |
| `AuthContext.DisplayName` | src/contexts/AuthContext.tsx:157 | the display name is `nombre`, else `name`, else `username`, else `email`, taking the first truthy one |
| `AuthContext.RestoredTipo` | src/contexts/AuthContext.tsx:60 | the restored type is `role`, else `tipo`, else 'estudiante'; it is never empty |
| `AuthContext.UserData` | src/contexts/AuthContext.tsx:134 | the user object is `data`, else `user`, else the body itself |
| `AuthContext.ReplyToken` | src/contexts/AuthContext.tsx:135 | the token is `data.access_token`, else the top-level `access_token`, else `token` |
| `AuthContext.LoginTipo` | src/contexts/AuthContext.tsx:138-151 | the login type is `role`, else `tipo`; otherwise it is 'admin' iff the email is the override address or contains "admin", and 'estudiante' if not |
| `AuthContext.RegisterTipo` | src/contexts/AuthContext.tsx:207-212 | the registration type is `role`, else `tipo`, else 'estudiante' |
| `AuthContext.FindAccount` | src/contexts/AuthContext.tsx:89-91 | the first test account whose email and password equal the credentials exactly; none iff no account matches |
| `AuthContext.TestUser` | src/contexts/AuthContext.tsx:96-103 | a test identity has the account's type, name and email, the given id, and a token "test-token-" followed by the decimal clock value |
| `AuthContext.BackendUser` | src/contexts/AuthContext.tsx:155-162 | a backend identity has the given type, the reply's token, and the id, email, avatar and display name of the reply's user object |
| `AuthContext.SignIn` | src/contexts/AuthContext.tsx:164-166 | a sign-in sets the user, clears `loading`, and writes the token and the user to storage |
| `AuthContext.RestoreStep` | src/contexts/AuthContext.tsx:35-73 | restore: with no truthy token it only clears `loading`. It keeps the stored keys and sets the user iff the reply is OK with `success` and `data`; every other path removes both keys |
| `AuthContext.LoginStep` | src/contexts/AuthContext.tsx:78-183 | login succeeds iff a test account matches or the backend accepts; a matching test account signs in as `TestUser` of that account, otherwise an accepted reply signs in as `BackendUser` of the reply with the login type rule; on success both keys hold the new user, and on failure nothing but `loading` changes |
| `AuthContext.RegisterStep` | src/contexts/AuthContext.tsx:185-236 | registration succeeds iff the backend accepts, and then signs in the user built from the reply with the registration type |
| `AuthContext.LogoutStep` | src/contexts/AuthContext.tsx:238-242 | logout clears the user and both keys, and leaves `loading` alone |
| `AuthContext.IsAdminUser` | src/contexts/AuthContext.tsx:244-247 | `isAdmin` holds iff there is a user whose type is 'admin' or 'bibliotecario' |
| `AuthContext.RestoreWithoutToken` | src/contexts/AuthContext.tsx:36-41 | without a truthy token the backend is not consulted: every reply gives the same state |
| `AuthContext.RestoreAtMount` | src/contexts/AuthContext.tsx:35-73 | from the mount state, the user is set iff there is a token and the reply is accepted with `data`, and `loading` ends false |
| `AuthContext.RestoredIdentity` | src/contexts/AuthContext.tsx:54-63 | the restored identity takes its name, type, email and id from the profile and its token from storage |
| `AuthContext.TestLogin` | src/contexts/AuthContext.tsx:89-110 | a test account signs in whatever the backend would say: its table type, name and email, the random id, a token starting with "test-token-", and both keys written |
| `AuthContext.TestAccountsRoles` | src/contexts/AuthContext.tsx:83-87 | the documented test accounts sign in as 'admin' and 'estudiante' |
| `AuthContext.BackendLogin` | src/contexts/AuthContext.tsx:132-169 | outside the table, login succeeds iff the reply is accepted, with the role, tipo, email-heuristic type, the display name from `nombre`, `name`, `username`, `email` in that order, the reply user's id, email and avatar, and the reply's token, which is also stored |
| `AuthContext.FailureWritesNothing` | src/contexts/AuthContext.tsx:170-182 | a failed login or registration keeps the user and both storage keys |
| `AuthContext.RegisterHasNoEmailHeuristic` | src/contexts/AuthContext.tsx:206-212 | registration without role or tipo gives 'estudiante' whatever the email |
| `AuthContext.LogoutIdempotent` | src/contexts/AuthContext.tsx:238-242 | logging out twice is logging out once, and no administrator remains |
| `AuthContext.IsAdminTypes` | src/contexts/AuthContext.tsx:244-247 | `isAdmin` holds exactly for 'admin' and 'bibliotecario', so 'administrador' is excluded |
| `AuthContext.TokenPersistedPreserved` | src/contexts/AuthContext.tsx:105-107 | restore, login, register and logout keep the stored token equal to the user's token |
| `AuthContext.LoginRestoreRoundTrip` | src/contexts/AuthContext.tsx:155-166 | login, then restore from the stored token, rebuilds the same type, token and administrator classification when the user carries `role` or `tipo` |
| `AuthContext.LoginRestoreRoundTripLosesEmailHeuristic` | src/contexts/AuthContext.tsx:148-151 | a user typed 'admin' by the email heuristic is restored as 'estudiante' |
| `AuthContext.LocalStorage.constructor` | src/contexts/AuthContext.tsx:36 | the storage starts with the given token and user |
| `AuthContext.LocalStorage.SetToken` | src/contexts/AuthContext.tsx:106 | writes the token key only |
| `AuthContext.LocalStorage.RemoveToken` | src/contexts/AuthContext.tsx:67 | removes the token key only |
| `AuthContext.LocalStorage.SetUser` | src/contexts/AuthContext.tsx:107 | writes the user key only |
| `AuthContext.LocalStorage.RemoveUser` | src/contexts/AuthContext.tsx:68 | removes the user key only |
| `AuthContext.AuthProvider.constructor` | src/contexts/AuthContext.tsx:29-30 | the provider mounts with no user and `loading` true |
| `AuthContext.AuthProvider.CheckAuthState` | src/contexts/AuthContext.tsx:35-73 | the fields and storage after restore are `RestoreStep` of those before |
| `AuthContext.AuthProvider.Login` | src/contexts/AuthContext.tsx:78-183 | the state and the result after login are `LoginStep` of the state before |
| `AuthContext.AuthProvider.Register` | src/contexts/AuthContext.tsx:185-236 | the state and the result after registration are `RegisterStep` of the state before |
| `AuthContext.AuthProvider.Logout` | src/contexts/AuthContext.tsx:238-242 | the state after logout is `LogoutStep` of the state before |
| `AuthContext.AuthProvider.IsAdmin` | src/contexts/AuthContext.tsx:244-247 | `isAdmin()` is `IsAdminUser` of the current user, and an administrator is always authenticated |
| `AuthContext.AuthProvider.IsAuthenticated` | src/contexts/AuthContext.tsx:249-251 | `isAuthenticated()` holds iff there is a user |
| `ProtectedRoute.Guard` | src/components/ProtectedRoute.tsx:17-45 | the guard shows loading while restoring. Otherwise it redirects to `/login` carrying the location when there is no user, and sends a non-admitted user to `/user-dashboard` when admin is required. It renders the child iff there is a user and admin is not required or the type is admitted |
| `ProtectedRoute.GuardDefault` | src/components/ProtectedRoute.tsx:12 | without the flag, the guard renders iff restore is over and there is a user |
| `ProtectedRoute.LoadingWins` | src/components/ProtectedRoute.tsx:17-32 | while restoring, the decision does not depend on the user, the flag or the location |
| `ProtectedRoute.NeverRendersWithoutUser` | src/components/ProtectedRoute.tsx:34-37 | the child is never rendered without a user or while loading |
| `ProtectedRoute.GuardWiderThanSessionAdmin` | src/components/ProtectedRoute.tsx:39 | every `isAdmin` user passes the admin guard, and so does 'administrador', which `isAdmin` rejects |
| `AuthRedirect.Dispatch` | src/components/AuthRedirect.tsx:18-56 | the dispatcher never renders content: it shows loading, redirects to `/login` without a user, else to `/admin` iff the type is 'admin' or 'bibliotecario' or the email is the override, and to `/user-dashboard` otherwise |
| `AuthRedirect.DispatchIsSessionAdminOrOverride` | src/components/AuthRedirect.tsx:42 | the dispatcher's test is `isAdmin` or the override address |
| `AuthRedirect.AdministradorSentToUserDashboard` | src/components/AuthRedirect.tsx:42-56 | 'administrador' goes to `/user-dashboard` although the admin guard admits it |
| `AuthRedirect.OverrideNotAdmittedByGuard` | src/components/AuthRedirect.tsx:42-49 | the override address with a non-admin type is sent to `/admin`, where the guard refuses it |
| `LoginPage.Destination` | src/pages/Login.tsx:26-32 | the form goes to `/admin/dashboard` iff the role is 'administrador', 'admin' or 'bibliotecario', else to `/dashboard` |
| `LoginPage.ErrorText` | src/pages/Login.tsx:38 | the error shown is the thrown message when truthy, else 'Error en el login'; never empty |
| `LoginPage.Submit` | src/pages/Login.tsx:12-42 | the form navigates iff a truthy access token came back and the profile was fetched. It then shows no error and goes to the role's destination; otherwise an error is shown. The stored token changes iff the access token was truthy |
| `LoginPage.LoginForm.constructor` | src/pages/Login.tsx:6-9 | the form starts empty, not loading |
| `LoginPage.LoginForm.HandleSubmit` | src/pages/Login.tsx:12-42 | the submit writes only `error`, `loading` and the token key, to the values `Submit` gives, and ends not loading |
| `LoginPage.NoTokenNoEffect` | src/pages/Login.tsx:20-35 | without an access token the form shows 'Credenciales inválidas.', writes nothing and never asks for the profile |
| `LoginPage.ProfileFailureKeepsToken` | src/pages/Login.tsx:21-38 | when the profile call throws, the stored token stays and the message or 'Error en el login' is shown |
| `LoginPage.FormRolesAreGuardRoles` | src/pages/Login.tsx:26 | the form's administrator roles are exactly the guard's admitted types |
| `AppRoutes.RouteFor` | src/App.tsx:23-77 | a path has a public route iff it is `/`, `/login`, `/register`, `/catalog` or `/404`, a guarded route iff it is `/dashboard`, `/user-dashboard`, `/user`, `/admin` or `/admin/dashboard`, and no route otherwise |
| `AppRoutes.Render` | src/App.tsx:23-80 | an unmatched path redirects to `/404`, and the dispatcher itself is never shown |
| `AppRoutes.Follow` | src/App.tsx:23-80 | following redirects from a page that does not redirect gives that page, and any end screen other than a redirect is one some path renders |
| `AppRoutes.PublicPaths` | src/App.tsx:23-26 | `/`, `/login`, `/register` and `/catalog` show their page in every session |
| `AppRoutes.GuardedPathsNeedUser` | src/App.tsx:29-74 | without a user, every guarded path redirects to `/login` carrying itself |
| `AppRoutes.GuardedPathsAdmission` | src/App.tsx:39-74 | the user pages admit every user; the admin pages admit exactly the guard's types and send others to `/user-dashboard` |
| `AppRoutes.LoadingOnGuardedPaths` | src/App.tsx:29-74 | while restoring, every guarded path shows loading |
| `AppRoutes.DashboardDispatches` | src/App.tsx:29-36 | `/dashboard` with a user redirects to `/admin` or `/user-dashboard` by the dispatcher's test |
| `AppRoutes.OverrideBounce` | src/App.tsx:29-65 | the override address with a non-admitted type goes `/dashboard` → `/admin` → `/user-dashboard`, which shows the user dashboard |
| `AppRoutes.RedirectsSettle` | src/App.tsx:23-80 | once restore is over, at most three redirects from any path reach a page: there is no redirect loop |
| `AppRoutes.FormLoginBounces` | src/pages/Login.tsx:26-32 | after a successful form login, the destination sends a session without a user back to `/login` |
| `AppRoutes.FormLoginThenReload` | src/pages/Login.tsx:21 | after the form stores a token, a reload whose profile is accepted restores the user, and an admin role then reaches `/admin/dashboard` |
| `DataTable.ValueString` | src/components/DataTable.tsx:43 | `String(v)` of a string is itself, and of a number is its decimal text |
| `DataTable.FilteredData` | src/components/DataTable.tsx:40-45 | the filtered rows are a subsequence of the data, holding exactly the rows that pass the search, each as many times as in the data; an empty term keeps all rows in order |
| `DataTable.FilterKeepsMatchingRows` | src/components/DataTable.tsx:40-45 | with a non-empty term, a row is kept iff some field, lower-cased, contains the lower-cased term at some index |
| `DataTable.StrLess` | src/components/DataTable.tsx:55 | string `<`: a proper prefix is below the longer string, and no string is below one of its own prefixes |
| `DataTable.Less` | src/components/DataTable.tsx:55 | value `<` never holds between equal values, and puts a number before a string |
| `DataTable.StrLessIrreflexive` | src/components/DataTable.tsx:55 | no string is below itself |
| `DataTable.StrLessTransitive` | src/components/DataTable.tsx:55 | string `<` is transitive |
| `DataTable.StrLessTrichotomous` | src/components/DataTable.tsx:55 | two strings are equal or one is below the other |
| `DataTable.LessStrictTotalOrder` | src/components/DataTable.tsx:55-58 | the value comparison is irreflexive, transitive and total |
| `DataTable.Compare` | src/components/DataTable.tsx:51-62 | the comparator returns -1, 0 or 1; it is 0 iff neither value is below the other, and negative iff `a < b` ascending or `b < a` descending |
| `DataTable.PrecedesTotal` | src/components/DataTable.tsx:51-62 | of any two rows, the comparator lets one precede the other |
| `DataTable.PrecedesTransitive` | src/components/DataTable.tsx:51-62 | "may precede" is transitive |
| `DataTable.Insert` | src/components/DataTable.tsx:51-62 | inserting a row adds it to the multiset and keeps sorted rows sorted |
| `DataTable.SortRows` | src/components/DataTable.tsx:51-62 | the sorted copy is a permutation of the rows, in comparator order |
| `DataTable.SortedMeansMonotone` | src/components/DataTable.tsx:55-60 | ascending output never decreases in the column, and descending output never increases |
| `DataTable.SortedData` | src/components/DataTable.tsx:48-63 | without a truthy key the filtered rows are shown unchanged; with one, a sorted permutation of them |
| `DataTable.NextSort` | src/components/DataTable.tsx:65-70 | a click sets the key to the column; the direction becomes 'desc' iff that column was already sorted 'asc' |
| `DataTable.TwoClicks` | src/components/DataTable.tsx:65-70 | two clicks on an ascending column return to it; two clicks on another column sort it descending |
| `DataTable.EmptyRowSpan` | src/components/DataTable.tsx:127 | the empty row spans one more column iff an action callback is given |
| `DataTable.TableState.constructor` | src/components/DataTable.tsx:33-37 | the table starts with an empty search, no sort key and 'asc' |
| `DataTable.TableState.Displayed` | src/components/DataTable.tsx:40-63 | the shown rows are a permutation of the filtered ones (exactly the data rows that pass the search); without a sort key they are the filtered rows in their order, and with one they are sorted by that column in the chosen direction |
| `DataTable.TableState.HandleSort` | src/components/DataTable.tsx:65-70 | the new sort state is `NextSort` of the old one; the search is kept |
| `DataTable.TableState.SetSearchTerm` | src/components/DataTable.tsx:88 | the search becomes the input; the sort is kept |
| `Api.Member` | src/services/api.ts:290 | `v?.key` is present iff `v` is an object with that key |
| `Api.QueryPairs` | src/services/api.ts:86-91 | at most four pairs, with non-empty values; none iff no parameter is truthy |
| `Api.QueryPairsNames` | src/services/api.ts:86-91 | every pair is named categoria, busqueda, page or limit, and no name is appended twice |
| `Api.SearchParams` | src/services/api.ts:85-91 | the step-by-step appends build exactly the pairs `QueryPairs` describes |
| `Api.ParamValue` | src/services/api.ts:85-91 | the value read back for a name is a pair in the query; none iff no pair has that name |
| `Api.ReadBackCategoria` | src/services/api.ts:87 | `categoria` reads back from the query iff it is truthy |
| `Api.ReadBackBusqueda` | src/services/api.ts:88 | `busqueda` reads back from the query iff it is truthy |
| `Api.ReadBackPage` | src/services/api.ts:89 | `page` reads back as its decimal text iff it is non-zero |
| `Api.ReadBackLimit` | src/services/api.ts:90 | `limit` reads back as its decimal text iff it is non-zero |
| `Api.ParamValueAppend` | src/services/api.ts:86-90 | a lookup over appended pairs sees the earlier appends first |
| `Api.RenderQuery` | src/services/api.ts:93 | the query string is empty iff there are no pairs |
| `Api.ListingPath` | src/services/api.ts:93-94 | a listing (`/libros`, or `/libros/publicos` at lines 232-233) is requested with no '?' when there are no pairs, else with '?' and the query |
| `Api.FalsyParamsPlainPath` | src/services/api.ts:84-95 | no parameters, or only falsy ones (absent, '' or 0), give the bare path |
| `Api.QueryMarkIffTruthyParam` | src/services/api.ts:86-94 | the '?' appears iff some parameter is truthy |
| `Api.PublicListingSameQuery` | src/services/api.ts:217-234 | `getLibrosPublicos` sends the same query as `getLibros`, after its own prefix |
| `Api.BaseUrl` | src/services/api.ts:25 | the base URL is the environment value when truthy, else `http://localhost:3001` |
| `Api.ApiRequestConfig` | src/services/api.ts:28-50 | the request goes to base plus endpoint, with the method defaulting to GET and JSON content type. `Authorization: Bearer <token>` is present iff the stored token is truthy, and a body is present iff the data is truthy |
| `Api.HandleResponse` | src/services/api.ts:52-59 | an OK response gives its body. A failed one throws: 'Error de conexión' when the body is not JSON, else a truthy message; it never returns a value |
| `Api.ErrorMessageFallback` | src/services/api.ts:54-57 | a failed response throws its truthy `message`, else `Error: <status>` |
| `Api.ListMember` | src/services/api.ts:285-305 | `getGeneros` (`data.data`) and `getEstanterias` (`data.items`) always return something truthy: the member when it is truthy, else [] |
| `Api.ListMemberShapes` | src/services/api.ts:285-305 | the documented reply shape yields its list; a reply without the member, `null` or `undefined` yields [] |
| `Catalog.LibrosFiltrados` | src/pages/Catalog.tsx:184-193 | a subsequence of the books, holding exactly those that match the search in title, author or category and whose category is 'todas' or the selection, each as many times as loaded (so the count the label prints is fixed) |
| `Catalog.LandingFiltrados` | src/components/LandingPage.tsx:108-112 | the landing page keeps exactly the books that match the search, each as many times as loaded |
| `Catalog.CoincideBusqueda` | src/pages/Catalog.tsx:185-187 | a book matches the search iff the term occurs, ignoring case, in its title, author or category |
| `Catalog.CoincideCategoria` | src/pages/Catalog.tsx:189-190 | 'todas' admits every book; any other selection admits exactly the books of that category, compared case-sensitively |
| `Catalog.SearchIgnoresCase` | src/pages/Catalog.tsx:185-187 | searching for the lower-cased term finds the same books as the term itself |
| `Catalog.EmptySearchMatches` | src/pages/Catalog.tsx:185-187 | the empty search matches every book |
| `Catalog.EmptySearchTodasKeepsAll` | src/pages/Catalog.tsx:11-12 | the initial filters keep every book in order |
| `Catalog.TodasIsLandingFilter` | src/pages/Catalog.tsx:189 | with 'todas', the catalogue filter is the landing page's filter |
| `Catalog.FilterSamePredicate` | src/pages/Catalog.tsx:184 | filters with equal predicates give equal lists |
| `Catalog.CategoryIsExact` | src/pages/Catalog.tsx:189-190 | a book whose category differs from the selection, case included, is dropped |
| `Catalog.ResultLabel` | src/pages/Catalog.tsx:322 | the label starts with the count and ends in 's' iff the count is not 1 |
| `Catalog.QueryFor` | src/pages/Catalog.tsx:34-37 | the search is sent only when non-empty, and the category only when not 'todas' |
| `Catalog.Unwrap` | src/pages/Catalog.tsx:41-42 | `x.libros \|\| x` throws iff the reply is `null`/`undefined`, and stores a list iff the reply is a list or holds one in the member |
| `Catalog.DefaultFiltersPlainRequest` | src/pages/Catalog.tsx:34-37 | the initial filters request the bare `/libros` |
| `Catalog.FiltersReachTheRequest` | src/pages/Catalog.tsx:34-37 | the selected category and the search can be read back from the request |
| `Catalog.CatalogPage.constructor` | src/pages/Catalog.tsx:9-13 | the page starts empty, with 'todas' selected, loading |
| `Catalog.CatalogPage.Shown` | src/pages/Catalog.tsx:184-193 | the filter runs iff the cell holds a list (otherwise `libros.filter` throws); the shown books are then exactly `LibrosFiltrados` of the loaded books under the current search and category, a subsequence with no more copies of any book |
| `Catalog.CatalogPage.CargarDatosMock` | src/pages/Catalog.tsx:56-181 | loads the five sample books and categories |
| `Catalog.CatalogPage.CargarDatos` | src/pages/Catalog.tsx:28-54 | signed out, no request is made and the sample data is loaded. Signed in, the filters are requested. A rejected call or a `null`/`undefined` reply falls back to the sample data; otherwise each cell holds `x.libros \|\| x`, and the page can filter iff the book reply was a list or held one. `loading` ends false |
| `UseApi.Invoked` | src/hooks/useApi.ts:15-17 | before the call, `loading` is true and both messages are null |
| `UseApi.Settled` | src/hooks/useApi.ts:19-33 | after the call, `loading` is false. On success the message is set iff requested, defaulting to 'Operación realizada con éxito'. On an error the error is its message, else 'Ha ocurrido un error inesperado'. A `null`/`undefined` rejection changes nothing but `loading` |
| `UseApi.ExecuteResult` | src/hooks/useApi.ts:25-30 | `execute` returns the value iff the call resolved, null iff it threw an error, and rejects when the call rejected with `null`/`undefined` |
| `UseApi.ExecuteStep` | src/hooks/useApi.ts:13-34 | the cells after `execute` depend only on the options and on how the call ended, as if it started from the initial cells |
| `UseApi.ClearStep` | src/hooks/useApi.ts:36-39 | clearing nulls both messages and keeps `loading` |
| `UseApi.ExecuteSettles` | src/hooks/useApi.ts:13-34 | after `execute`, `loading` is false and never both messages are set. The error is set iff the call threw; the success message is set iff the call resolved and one was requested |
| `UseApi.ExecuteForgetsPreviousMessages` | src/hooks/useApi.ts:15-17 | the cells after `execute` do not depend on the cells before |
| `UseApi.NullishRejectionShowsNothing` | src/hooks/useApi.ts:26-33 | a call rejected with `null`/`undefined` leaves the initial cells (no error shown) and makes `execute` reject |
| `UseApi.DefaultTexts` | src/hooks/useApi.ts:22-27 | empty messages fall back to the default texts |
| `UseApi.ClearIdempotent` | src/hooks/useApi.ts:36-39 | clearing twice is clearing once, and clearing after `execute` gives the initial cells |
| `UseApi.ApiState.constructor` | src/hooks/useApi.ts:9-11 | the hook starts not loading, with no messages |
| `UseApi.ApiState.Begin` | src/hooks/useApi.ts:15-17 | the cells become `Invoked` of the old ones |
| `UseApi.ApiState.Finish` | src/hooks/useApi.ts:19-33 | the cells become `Settled` of the old ones, and the result is `ExecuteResult` |
| `UseApi.ApiState.Execute` | src/hooks/useApi.ts:13-34 | the cells after `execute` are `ExecuteStep` of those before, and the result is `ExecuteResult` of the call's outcome |
| `UseApi.ApiState.ClearMessages` | src/hooks/useApi.ts:36-39 | the cells become `ClearStep` of the old ones |

## Left out

- **I/O, concurrency and logging.** `console.log`/`console.error`, `fetch`,
  `axios`, the timing of `await`, and React's batching of state updates are
  not modelled. Backend answers are parameters, and each operation's state
  updates run in program order.
- **The serialized user.** `JSON.stringify` of the user written to storage
  is modelled as the user value itself. `JSON.parse`/`stringify` are not
  modelled, and the stored user is never read back by the code.
- **Rendering.** Markup, styles, icons, the header sort arrow and the
  catalogue's book cards are not modelled.
- **Screens beyond the core.** The CRUD screens (books, shelves, loans,
  activity, users, reviews, genres), the dashboards,
  `src/routes/PrivateRoutes.tsx` and `src/routes/PublicRoutes.tsx` (which
  `App.tsx` does not use), and every `api.ts` service other than the ones
  listed are not part of this model.
- **The catalogue's 500 ms debounce.** The `setTimeout` reload of the
  catalogue is not modelled; `CargarDatos` is one reload.
- **`AppRoutes.Render` path matching.** It matches paths exactly. React
  Router's case-insensitive matching and its handling of a trailing slash are
  not modelled.
- **`Text.Lower` letter coverage.** It lower-cases ASCII and Latin-1
  upper-case letters only, because JavaScript's full Unicode case mapping is
  out of scope. `DataTable.StrLess` compares characters, not UTF-16 code
  units, which differ only outside the Basic Multilingual Plane.
- **`DataTable.Less` with mixed kinds.** It puts a number before a string
  when a column mixes the two kinds. JavaScript would convert the string to a
  number, and a `NaN` from that conversion makes the comparator inconsistent.
  Values are strings and integers only, so floating point, `NaN`, booleans
  and `undefined` are not modelled.
- **`DataTable.SortRows` requirements.** It requires the sort column in
  every row, because the comparison of an absent (`undefined`) field is not
  modelled. Stability is not stated.
- **`Api.RenderQuery` encoding.** Form-encoding is the parameter `enc`, not
  a definition of `application/x-www-form-urlencoded`.
- **`Api.HandleResponse` error messages.** A truthy non-string `message` is
  passed on as the JSON value given to `new Error`, and its conversion to
  text is not modelled. A runtime exception (a `null` error body, or an OK
  body that is not JSON) is the outcome `Crashed`, without its
  engine-specific text.
- **`Api.ApiRequestConfig` body.** The body is the JSON value before
  `JSON.stringify`. The public request helper `publicApiRequest` is modelled
  only through the paths it is given.
- **`LoginPage.Submit` profile shape.** It models the profile as an object
  with an optional `role`. A profile call that resolves to `undefined`
  (which makes `profile.role` throw) is not modelled. The `api.auth` axios
  wrappers are the replies `LoginReply` and `ProfileReply`.
- **`AuthContext.TestUser` identifiers.** `String(Math.floor(Math.random() *
  1000))` and `Date.now()` are the parameters `testId` and `now`, without
  their ranges.
- **`AuthContext.RestoreStep`, `AuthContext.LoginStep` and `AuthContext.RegisterStep` malformed bodies.** A reply body that is not
  an object, or whose fields are not strings (such as a non-string `role`
  or `tipo`, which the type chains would pass on), is not modelled. In
  restore, a missing `data` is treated as the `TypeError` it causes, which
  lands in the same failure path.
- **`Catalog.Unwrap` non-list values.** A reply that is neither `null` nor a
  list and holds no truthy list member is stored as the value `Other`; which
  value it was is not kept, only that rendering the page then throws.
- **`UseApi.Settled` error types.** An error whose `message` is a truthy
  non-string is not modelled; `message` is an optional string.
- **`Api.QueryPairs` number parameters.** `page` and `limit` are integers
  only. A TypeScript `number` may also be a fraction (`String(1.5)` is
  "1.5") or `NaN` (which is falsy and so never appended); neither is
  modelled.
- **`AuthContext.StorageString` null and undefined.** `Option` merges `null`
  and `undefined`: an absent token is stored as "undefined", whereas
  `setItem` of `null` would store "null". Both strings are truthy when read
  back, so only the stored text differs.

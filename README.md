# mi-frontend: a Dafny model of the PSIT inventory client's core

`mi-frontend` is the React client of an inventory and maintenance system. Four
roles (admin, supervisor, técnico, empleado) sign in against a REST back end,
land on their own dashboard, and use admin screens to manage users,
maintenance orders and product categories. This project models the client's
decision logic and state changes, and proves what they guarantee.

What is modelled, module by module:

- `JsValue` (`js_value.dfy`): the JavaScript values the client handles
  (undefined, null, booleans, integers, strings, arrays, objects as ordered
  field lists) with truthiness, `||`, `??`, property access, object spread,
  `trim`, `find`, `findIndex`, `filter`, and the "array, or `.results`, or
  `[]`" normalisation the screens apply to list replies.
- `Decimal`, `Json` and `JsonRoundTrip`: `JSON.stringify` and `JSON.parse`
  over those values, with the round trip `parse(stringify(v))` proved for
  every value; the session store relies on it.
- `WebStorage`: `localStorage` as a class over a string-to-string map.
- `Roles` (`config/roles.js`): role names, default routes, `getUserRole`
  and the route-permission table.
- `Guards` (`App.jsx`): `ProtectedRoute`, `PublicRoute` and the
  role-to-dashboard redirect, as functions from the session to a render
  decision, and the route table as the router matches it (letter case
  ignored, trailing slashes ignored on "/" and "/login").
- `AuthService` (`services/authService.js`): `login` and `logout` with
  their `localStorage` effects, taking the server reply as an input.
- `AuthContext` (`context/AuthContext.jsx`): the session provider as a
  class (`user`, `isAuthenticated`, `loading`) with `checkAuth`, `login`
  and `logout`. After `login` the stored `user` entry is the JSON text of
  the in-memory user, and after `checkAuth` the in-memory user is what
  that entry parses to. The password page rewrites the entry without
  touching the provider's user, so this agreement holds only across the
  provider's own methods.
- `ChangePassword` (`pages/auth/ChangePasswordPage.jsx`): the first-login
  password page: the password rules, the redirect effect, and the submit
  handler with every success and error path.
- `Endpoints` (`services/config/endpoints.js`): the base URL and every
  endpoint builder, with the exact paths they produce.
- `ProductService` and `InventoryService`: request shaping (`FormData`
  assembly, query strings, reply unwrapping and the error rethrown on
  failure).
- `UsersAdmin`, `MaintenanceAdmin`, `CategoriesAdmin`
  (`pages/admin/Gestion*.jsx`): each screen is a class whose fields are the
  component's React state; each handler is a method that takes the
  service replies (and the answer to `confirm()`) as inputs and states the
  new state it leaves. Lemmas prove the properties the screens rely on:
  an edit replaces exactly one record, a filter keeps exactly the matching
  records, a failed request leaves the lists untouched. On the users
  screen a reset does not restore the initial create form: the reset
  profile has no `phone`, as in the code.

Behaviour of the code worth noting, which the model follows:

- `getUserRole` in `roles.js` returns an unknown role string unchanged;
  only a missing or falsy role becomes `empleado`.
- `ProtectedRoute` and `PublicRoute` in `App.jsx` never read
  `is_first_login`, and `PublicRoute` redirects every authenticated user
  to their dashboard.
- `login` in `AuthContext.jsx` copies six fields of the reply's user (`id`,
  `username`, `email`, `is_superuser`, `is_staff`, `role`) and defaults
  only a falsy role; it neither coerces booleans nor rewrites unknown
  roles.
- `AuthContext.jsx` provides `user`, `isAuthenticated`, `loading`,
  `login` and `logout`. The only rewrite of the stored user outside
  `login` is the password page's, which clears `is_first_login` and
  dispatches a `userUpdated` event that none of the modelled components
  listens to.

## Model

| member | source | states |
|---|---|---|
| `Roles.DefaultRoute` | mi-frontend/src/config/roles.js:10-15 | `DEFAULT_ROUTES[role]` is "/<role>/dashboard" for each of the four role names and undefined for every other key |
| `Roles.GetUserRole` | mi-frontend/src/config/roles.js:18-33 | the role is null exactly when there is no user, and a present user always gets a truthy role |
| `Roles.NoUserNoRole` | mi-frontend/src/config/roles.js:19 | a null or undefined user has the role null |
| `Roles.StaffIsAdmin` | mi-frontend/src/config/roles.js:22-24 | a staff user is "admin" whatever its own `role` holds |
| `Roles.RolePassesThrough` | mi-frontend/src/config/roles.js:27-29 | a non-staff user with a truthy `role` gets exactly that value, even one outside the four roles |
| `Roles.FalsyRoleIsEmpleado` | mi-frontend/src/config/roles.js:31-32 | a non-staff user with a falsy `role` is "empleado" |
| `Roles.HasAdminRole` | mi-frontend/src/config/roles.js:36-39 | `hasRole(user, "admin")` holds iff the user is present and is staff or names "admin" itself |
| `Roles.HasOtherRole` | mi-frontend/src/config/roles.js:18-39 | `hasRole` with a role outside the four (and not null) holds exactly for a present, non-staff user whose own `role` field is that truthy value, since `getUserRole` passes unknown roles through |
| `Roles.AccessMatchesPrefixTable` | mi-frontend/src/config/roles.js:42-61 | for every path starting with "/", `hasAccessToRoute` holds iff the path is public or starts with a prefix of the user's role in the table admin "/", supervisor "/supervisor/" and "/empleado/", tecnico "/tecnico/", empleado "/empleado/" |
| `Roles.PublicPathsOpen` | mi-frontend/src/config/roles.js:46 | "/" and "/login" are open to every user, including none |
| `Roles.UnknownRoleOnlyPublic` | mi-frontend/src/config/roles.js:58-59 | a user with no role or a role outside the four reaches exactly the public paths |
| `Roles.AccessHierarchy` | mi-frontend/src/config/roles.js:49-60 | what empleado may open supervisor may open; what supervisor or tecnico may open admin may open; admin opens every path |
| `Roles.DefaultRouteAccessible` | mi-frontend/src/config/roles.js:10-61 | each of the four roles may open its own default route |
| `Guards.ProtectedRoute` | mi-frontend/src/App.jsx:14-39 | loading shows the placeholder iff `loading`; children render iff not loading, authenticated, with a user who may open the path; otherwise a replacing redirect to "/login" carrying the path as `from` when signed out, or to the role's default route |
| `Guards.PublicRoute` | mi-frontend/src/App.jsx:42-58 | placeholder iff loading; children iff not loading and not signed in; otherwise a replacing redirect to the role's default route |
| `Guards.MatchRoute` | mi-frontend/src/App.jsx:61-111 | as the router matches the route table without regard to letter case: the home page exactly for a path of slashes, the login page exactly for "/login" followed by any slashes, and a dashboard section only when the folded path is "/<role>" or lies below "/<role>/" for one of the four roles |
| `Guards.LoginTrailingSlash` | mi-frontend/src/App.jsx:65-73 | "/login/" selects the login route |
| `Guards.SectionIgnoresCase` | mi-frontend/src/App.jsx:74-81 | "/Admin/dashboard" selects the admin section |
| `Guards.CaseFoldedPathRedirects` | mi-frontend/src/App.jsx:14-35 | the section guard tests the path as typed: a supervisor on "/Empleado/dashboard" reaches the employee section and is redirected to "/supervisor/dashboard" |
| `Guards.RoleAllowsLower` | mi-frontend/src/config/roles.js:42-61 | a path a role may open stays open once its letters are folded, since every permitted prefix is lower case |
| `Guards.LoadingNeverRedirects` | mi-frontend/src/App.jsx:20-23 | while loading, neither guard redirects, whatever the rest of the state |
| `Guards.DecisionDependsOnRoleOnly` | mi-frontend/src/App.jsx:14-58 | both guards decide from the flags, the presence of a user and its role only |
| `Guards.IgnoresFirstLogin` | mi-frontend/src/App.jsx:14-58 | changing `is_first_login` never changes either guard's decision |
| `Guards.SectionsDisjoint` | mi-frontend/src/App.jsx:74-108 | a path lies below at most one of the four dashboard sections |
| `Guards.NoRedirectLoop` | mi-frontend/src/App.jsx:31-35 | for a user with one of the four roles, the page a refused path redirects to is one the guard lets them open |
| `Guards.UnknownRoleTargetUndefined` | mi-frontend/src/App.jsx:31-35 | for a signed-in user with any other role, a non-public path redirects to an undefined target |
| `Guards.SectionRendersOnlyForItsRoles` | mi-frontend/src/App.jsx:74-108 | a dashboard renders only for its own role, for admin, and (the employee section) for supervisor |
| `Guards.AllowedPrivate` | mi-frontend/src/config/roles.js:49-60 | off "/" and "/login", only the four role strings get through; any role but admin only below "/<role>/", plus "/empleado/" for supervisor |
| `Guards.SectionRoles` | mi-frontend/src/config/roles.js:49-60 | a role allowed a path below "/<section>" is admin, that section's role, or supervisor in the employee section |
| `Guards.SectionIff` | mi-frontend/src/App.jsx:74-108 | a pathname selects a role's dashboard route if and only if its folded copy is "/<role>" or lies below "/<role>/" for one of the four roles, so "/admin/users" selects the admin section |
| `Guards.DashboardMatchesSection` | mi-frontend/src/App.jsx:74-108 | each role's default route selects that role's own section |
| `Guards.LoginPageForwardsToDashboard` | mi-frontend/src/App.jsx:50-55 | a signed-in user with one of the four roles who opens "/login" is forwarded to a dashboard that renders for them |
| `Guards.ToJsStringNorm` | mi-frontend/src/config/roles.js:49 | `String(v)` reads the same on a value and on its JSON copy (undefined aside) |
| `Guards.RoleOfNorm` | mi-frontend/src/config/roles.js:18-33 | the role of a user read back from its JSON text is the JSON copy of its role |
| `Guards.GuardsSurviveReload` | mi-frontend/src/App.jsx:14-58 | both guards decide the same for the in-memory user and for the user restored from its JSON text |
| `WebStorage.LocalStorage.constructor` | mi-frontend/src/services/authService.js:7-8 | a store starts with the given items |
| `WebStorage.LocalStorage.GetItem` | mi-frontend/src/context/AuthContext.jsx:23 | `getItem` returns the stored text, or null exactly when the key is absent |
| `WebStorage.LocalStorage.SetItem` | mi-frontend/src/services/authService.js:7 | `setItem` stores `String(v)` under the key and changes nothing else |
| `WebStorage.LocalStorage.RemoveItem` | mi-frontend/src/services/authService.js:14 | `removeItem` drops the key and changes nothing else |
| `AuthService.OnlyTokensChange` | mi-frontend/src/services/authService.js:4-30 | login, logout and refresh leave every key except the two tokens as it was |
| `AuthService.LoginStoresTokens` | mi-frontend/src/services/authService.js:6-9 | a login with a truthy access token stores both tokens' texts, and a later refresh keeps the refresh token |
| `AuthService.LogoutIdempotent` | mi-frontend/src/services/authService.js:13-16 | logging out twice equals logging out once, and no token survives |
| `AuthService.Login` | mi-frontend/src/services/authService.js:4-11 | a failed request propagates with the store untouched; a nullish body throws a TypeError with the store untouched; otherwise returns the body, tokens stored iff `access` is truthy |
| `AuthService.Logout` | mi-frontend/src/services/authService.js:13-16 | removes both tokens and nothing else |
| `AuthService.RefreshToken` | mi-frontend/src/services/authService.js:18-30 | with no truthy refresh token throws "No refresh token available" without a request; otherwise posts `{refresh}`, propagates a failure, throws a TypeError on a nullish body, and stores only a truthy new access token |
| `AuthContext.RestoreConsistent` | mi-frontend/src/context/AuthContext.jsx:20-53 | after `checkAuth`, `isAuthenticated` agrees with the presence of a user unless the stored user text is the JSON literal null |
| `AuthContext.RestoreStoreEffect` | mi-frontend/src/context/AuthContext.jsx:43-47 | `checkAuth` changes the store if and only if there are a token and a user text that cannot be parsed, and then removes exactly the token, the refresh token and the user and signs nobody in; with no token or no user text nobody is signed in and the store is untouched |
| `AuthContext.RestoreParsed` | mi-frontend/src/context/AuthContext.jsx:26-42 | with a user text that parses, `checkAuth` signs that value in iff the token text is non-empty |
| `AuthContext.UserData` | mi-frontend/src/context/AuthContext.jsx:66-73 | the kept record has exactly the keys id, username, email, is_superuser, is_staff, role, and no `is_first_login` |
| `AuthContext.UserDataRole` | mi-frontend/src/context/AuthContext.jsx:72 | the kept role is the response's role when truthy and "empleado" otherwise, so never falsy |
| `AuthContext.LoginOutcome` | mi-frontend/src/context/AuthContext.jsx:58-89 | `login` ends signed in exactly when it returns; it returns only the server's body with a truthy `access` and a present `user`, and then the session user is the kept record |
| `AuthContext.UserDataWellFormed` | mi-frontend/src/context/AuthContext.jsx:66-76 | the kept record of a JSON-representable user is JSON-representable |
| `AuthContext.StoredUserParses` | mi-frontend/src/context/AuthContext.jsx:76 | the text stored for a JSON-representable record is non-empty and parses back to its JSON copy |
| `AuthContext.LoginThenReload` | mi-frontend/src/context/AuthContext.jsx:19-89 | after a successful login a page reload restores the JSON copy of the kept record, signed in, iff the stored access-token text is non-empty |
| `AuthContext.ReloadStored` | mi-frontend/src/context/AuthContext.jsx:23-32 | a reload of a store holding a token and the text of a record restores the record's JSON copy iff the token text is non-empty |
| `AuthContext.ReloadKeepsGuardDecisions` | mi-frontend/src/context/AuthContext.jsx:19-89 | after a successful login, a page reload leaves every decision of both route guards unchanged |
| `AuthContext.LogoutThenReload` | mi-frontend/src/context/AuthContext.jsx:91-103 | logging out twice equals once, and a reload afterwards restores nobody |
| `AuthContext.AuthProvider.constructor` | mi-frontend/src/context/AuthContext.jsx:15-17 | the provider starts with no user, not authenticated, loading |
| `AuthContext.AuthProvider.CheckAuth` | mi-frontend/src/context/AuthContext.jsx:19-56 | the user, the flag and the store become `Restore` of the old store, loading ends and the children render |
| `AuthContext.AuthProvider.Login` | mi-frontend/src/context/AuthContext.jsx:58-89 | the user, the flag, the store and the completion are those of `LoginSession` on the old store and the server's reply |
| `AuthContext.AuthProvider.Logout` | mi-frontend/src/context/AuthContext.jsx:91-103 | clears both tokens, the stored user, the user and the flag, whatever happens |
| `ChangePassword.ScanPasswordMeaning` | mi-frontend/src/pages/auth/ChangePasswordPage.jsx:37 | one pass over the password finds a lowercase letter, an uppercase letter and a digit exactly when the password has one, and reports all-alphanumeric exactly when every character is an ASCII letter or digit |
| `ChangePassword.ValidatePasswordIff` | mi-frontend/src/pages/auth/ChangePasswordPage.jsx:35-39 | the pattern accepts a password iff it has at least eight characters, all ASCII letters or digits, among them a lowercase letter, an uppercase letter and a digit |
| `ChangePassword.RedirectEffect` | mi-frontend/src/pages/auth/ChangePasswordPage.jsx:17-33 | the effect navigates to "/login" whenever there is no session or no user, stays put exactly when the signed-in user still has a truthy `is_first_login`, and otherwise navigates to `DEFAULT_ROUTES[getUserRole(user)] || "/"`, a truthy target |
| `ChangePassword.RedirectTarget` | mi-frontend/src/pages/auth/ChangePasswordPage.jsx:28-32 | that target is "/<role>/dashboard" for the four known roles and "/" for any other role, and a user whose role is a string may open it |
| `ChangePassword.FormIffNoRedirect` | mi-frontend/src/pages/auth/ChangePasswordPage.jsx:17-33 | the form renders exactly when the effect does not navigate away |
| `ChangePassword.LoginRecordSkipsForm` | mi-frontend/src/pages/auth/ChangePasswordPage.jsx:100-103 | the record kept by `login` has no `is_first_login`, so a freshly signed-in user never sees the form and is sent to the role's home |
| `ChangePassword.SubmitValidationOrder` | mi-frontend/src/pages/auth/ChangePasswordPage.jsx:41-56 | a mismatch is reported first, then a weak password; the service is called iff both checks pass, and without a call nothing is stored or navigated |
| `ChangePassword.SubmitSuccess` | mi-frontend/src/pages/auth/ChangePasswordPage.jsx:61-82 | on success the stored user is replaced by the text of the updated record and the page navigates to the role's home or "/" |
| `ChangePassword.SubmitSuccessRecord` | mi-frontend/src/pages/auth/ChangePasswordPage.jsx:61-82 | on success no error shows, no other key of the store changes, the record differs from the old one only in `is_first_login`, now false |
| `ChangePassword.SubmitFailure` | mi-frontend/src/pages/auth/ChangePasswordPage.jsx:83-97 | a refused change keeps the store and the page; the error is the reply's `message` or its fallback; for a thrown value, its `errors` values flattened one level and joined with ", " when `errors` is truthy, otherwise its `message` or the dotted fallback; only a thrown null or undefined escapes |
| `ChangePassword.CatchMessage` | mi-frontend/src/pages/auth/ChangePasswordPage.jsx:86-94 | the catch block escapes exactly for a null or undefined error, shows the joined `errors` when they are truthy, and otherwise a truthy message: the error's own or the dotted fallback |
| `ChangePassword.ErrorsShown` | mi-frontend/src/pages/auth/ChangePasswordPage.jsx:88-91 | the joined entries are exactly the values of `errors`, each array spliced in and every other value kept |
| `ChangePassword.ErrorsJoinedExample` | mi-frontend/src/pages/auth/ChangePasswordPage.jsx:88-91 | a field with two messages and a field with one are shown as "short, common, invalid" |
| `ChangePassword.EffectAfterReload` | mi-frontend/src/pages/auth/ChangePasswordPage.jsx:28-31 | the JSON copy of the updated record hides the form and redirects to the role's home |
| `ChangePassword.SuccessThenReload` | mi-frontend/src/pages/auth/ChangePasswordPage.jsx:61-82 | after a success and a page reload the user is signed in with `is_first_login` false, the form no longer shows and the effect sends the user where the handler did |
| `ChangePassword.ChangePasswordPage.constructor` | mi-frontend/src/pages/auth/ChangePasswordPage.jsx:9-13 | the page starts with empty fields, no error and not loading |
| `ChangePassword.ChangePasswordPage.HandleSubmit` | mi-frontend/src/pages/auth/ChangePasswordPage.jsx:41-98 | for a submit made while not loading (the button is disabled while loading), the error, the call, the store, the navigation and the escaped exception are those of `Submit`; loading ends false and the fields are kept |
| `ChangePassword.ChangePasswordPage.ApplyAnswer` | mi-frontend/src/pages/auth/ChangePasswordPage.jsx:57-97 | once the service was called, the error, the store, the navigation and the escaped exception are those `Answer` gives for the reply; the fields and `loading` are left as they were |
| `Endpoints.UserBuilders` | mi-frontend/src/services/config/endpoints.js:13-20 | the three per-user builders all give "/users/<id>/" |
| `Endpoints.CategoryBuilders` | mi-frontend/src/services/config/endpoints.js:23-35 | the six per-category builders give "/categories/<id>/", and the product listing appends "products/" to it |
| `Endpoints.SupplierBuilders` | mi-frontend/src/services/config/endpoints.js:38-46 | the four per-supplier builders give "/suppliers/<id>/", and the product listing appends "products/" to it |
| `Endpoints.ProductBuilders` | mi-frontend/src/services/config/endpoints.js:49-55 | the four per-product builders give "/products/<id>/" |
| `Endpoints.ProductSuffixBuilders` | mi-frontend/src/services/config/endpoints.js:58-60 | the category, supplier and stock builders append "categories/", "suppliers/" and "adjust_stock/" to the product's path |
| `Endpoints.MovementBuilders` | mi-frontend/src/services/config/endpoints.js:64-72 | the four per-movement builders give "/movements/<id>/" |
| `Endpoints.MaintenanceBuilders` | mi-frontend/src/services/config/endpoints.js:80-88 | the three per-record builders give "/maintenance/<id>/", and completing appends "complete/" |
| `Endpoints.ItemPathInjective` | mi-frontend/src/services/config/endpoints.js:15-87 | two id texts give the same item path only when they are equal |
| `Endpoints.ChildrenListing` | mi-frontend/src/services/config/endpoints.js:27-28 | a server reading the children listing receives the parent's text as its `parent` parameter (when the text has no "&"), and a null parent gives exactly the principal listing |
| `Endpoints.OrderBuilders` | mi-frontend/src/services/config/endpoints.js:75-76 | a server reading a sort URL receives as `ordering` the direction prefix straight followed by the field name and a "/" (when the prefix has no "&") |
| `Endpoints.OrderExamples` | mi-frontend/src/services/config/endpoints.js:75-76 | the "-" prefix gives "-date/" and "-cant/", the empty prefix "date/" |
| `Endpoints.IndexOf` | mi-frontend/src/services/config/endpoints.js:73 | the index found is the first occurrence of the character, or the length when there is none |
| `Endpoints.FilterAndOrderParams` | mi-frontend/src/services/config/endpoints.js:73 | a server reading the filter-and-order URL receives both parameters; the search text arrives as written and the ordering with the builder's trailing "/" attached |
| `Endpoints.FilterAndOrderNotInjective` | mi-frontend/src/services/config/endpoints.js:73 | values are inserted unencoded, so different (search, ordering) pairs can build the same URL |
| `ProductService.FormData.constructor` | mi-frontend/src/services/productService.js:31 | a new form body has no entries |
| `ProductService.FormData.Append` | mi-frontend/src/services/productService.js:35 | `append` adds the pair (name, String(value)) at the end and keeps the earlier entries |
| `ProductService.CreateEntries` | mi-frontend/src/services/productService.js:32-37 | the create body never has more entries than the record has properties |
| `ProductService.UpdateEntries` | mi-frontend/src/services/productService.js:69-71 | the update body has one entry per property, in key order, holding String of the value, null and undefined included |
| `ProductService.DropNullish` | mi-frontend/src/services/productService.js:33 | the kept properties are properties of the record whose values are neither null nor undefined |
| `ProductService.CreateIsUpdateOfPresent` | mi-frontend/src/services/productService.js:32-37 | the create body equals the update body of the properties that are neither null nor undefined: converting booleans first gives the text FormData would give |
| `ProductService.CreateEntryFor` | mi-frontend/src/services/productService.js:32-37 | a property is sent by create exactly when its value is neither null nor undefined, a boolean as "true" or "false", and every entry comes from such a property |
| `ProductService.CreateEntriesOrigin` | mi-frontend/src/services/productService.js:32-37 | every entry of the create body comes from a property whose value is neither null nor undefined |
| `ProductService.CreateProductForm` | mi-frontend/src/services/productService.js:31-37 | the `forEach` loop leaves a fresh form body holding exactly the create entries |
| `ProductService.UpdateProductForm` | mi-frontend/src/services/productService.js:68-71 | the `forEach` loop leaves a fresh form body holding exactly the update entries |
| `ProductService.ServerMessageChoice` | mi-frontend/src/services/productService.js:12-14 | with a server body the error message is `detail`, else `message`, else the body's JSON text, which is never empty, so the "unknown" text is never used |
| `ProductService.GetProducts` | mi-frontend/src/services/productService.js:4-23 | returns the response's `data`, and maps every failure through the catch block's message choice, including the TypeError of reading `data` from a missing response |
| `ProductService.CreateProduct` | mi-frontend/src/services/productService.js:30-65 | a missing record throws a TypeError before any request; otherwise the body is the create entries, the result is the response's `data`, and failures are mapped through the catch block |
| `ProductService.UpdateProduct` | mi-frontend/src/services/productService.js:67-79 | the PATCH goes to "/products/<id>/" with the update entries, and a failed request propagates unchanged |
| `InventoryService.QueryString` | mi-frontend/src/services/inventoryMovementService.js:179 | the query text is empty exactly when no parameter was appended |
| `InventoryService.FilterAndOrderUrl` | mi-frontend/src/services/inventoryMovementService.js:165-191 | the URL-building steps end with the base path when both arguments are falsy and with FILTER_AND_ORDER of both otherwise |
| `InventoryService.FilterAndOrderChoice` | mi-frontend/src/services/inventoryMovementService.js:165-191 | the base list is requested iff both arguments, after the `''` defaults, are falsy |
| `InventoryService.FilterAndOrderExamples` | mi-frontend/src/services/inventoryMovementService.js:165-186 | once one argument is given both parameters appear; the default replaces undefined only, so null is written as "null" |
| `InventoryService.GetInventoryMovements` | mi-frontend/src/services/inventoryMovementService.js:8-19 | an array body is returned as is, else its truthy `results`, else an empty array; a failure is rethrown unchanged; the call throws a TypeError exactly when the response or its `data` is null or undefined |
| `InventoryService.RethrownError` | mi-frontend/src/services/inventoryMovementService.js:34-38 | an error with a response becomes `Error(data.message \|\| fallback)`; any other error is rethrown unchanged |
| `InventoryService.CreateInventoryMovement` | mi-frontend/src/services/inventoryMovementService.js:26-40 | returns the response's `data`; failures, and the TypeError of a missing response, go through the create fallback |
| `InventoryService.UpdateInventoryMovement` | mi-frontend/src/services/inventoryMovementService.js:49-63 | returns the response's `data`; failures, and the TypeError of a missing response, go through the update fallback naming the id |
| `InventoryService.DeleteInventoryMovement` | mi-frontend/src/services/inventoryMovementService.js:70-92 | status 204 gives nothing; any other status gives the body when it is truthy and nothing otherwise; a missing response throws, and every failure is rethrown through the delete fallback naming the id |
| `InventoryService.DeleteResultMeaning` | mi-frontend/src/services/inventoryMovementService.js:74-83 | a completed delete yields nothing or a truthy body, and nothing exactly when the status was 204 or the body was falsy |
| `InventoryService.FallbacksNameTheId` | mi-frontend/src/services/inventoryMovementService.js:59 | different id texts give different update and delete fallback messages |
| `UsersAdmin.RoleDisplayName` | mi-frontend/src/pages/admin/GestionUsuarios.jsx:6-15 | a known role gives its non-empty Spanish label, another truthy value is returned as it is, a falsy one gives "No especificado" |
| `UsersAdmin.NormalizedFields` | mi-frontend/src/pages/admin/GestionUsuarios.jsx:81-94 | the normalised profile has exactly the keys first_name, last_name, role, department, phone |
| `UsersAdmin.LookupNormalized` | mi-frontend/src/pages/admin/GestionUsuarios.jsx:81-94 | each normalised profile key holds `profile.k \|\| user.k \|\| ''` |
| `UsersAdmin.SelectNormalizeMeaning` | mi-frontend/src/pages/admin/GestionUsuarios.jsx:79-95 | after selection each profile key is the profile's own truthy value, else the top-level truthy value, else ''; other profile keys are dropped and every top-level property other than `profile` is kept |
| `UsersAdmin.EditProfileOverrides` | mi-frontend/src/pages/admin/GestionUsuarios.jsx:119-133 | in edit mode a key of the original profile keeps the profile's value, even a falsy one, because the profile is spread last; the other keys are normalised as on selection |
| `UsersAdmin.SelectThenEdit` | mi-frontend/src/pages/admin/GestionUsuarios.jsx:79-134 | entering edit mode right after selecting a user gives the selected record back unchanged |
| `UsersAdmin.SelectedProfile` | mi-frontend/src/pages/admin/GestionUsuarios.jsx:119-125 | the profile built for editing a freshly selected user is the selected profile itself |
| `UsersAdmin.NormalizeAgain` | mi-frontend/src/pages/admin/GestionUsuarios.jsx:81-94 | normalising an already normalised user changes no profile value |
| `UsersAdmin.NormalizeValueAgain` | mi-frontend/src/pages/admin/GestionUsuarios.jsx:81-94 | each normalised value is a fixed point of the normalisation |
| `UsersAdmin.EditInputTopLevelOnly` | mi-frontend/src/pages/admin/GestionUsuarios.jsx:139-142 | an edit input writes its own key at the top level, changes no other key, and leaves `profile` alone unless the input is named `profile` |
| `UsersAdmin.CreateInput` | mi-frontend/src/pages/admin/GestionUsuarios.jsx:205-223 | an input named outside the seven routed names, `phone` included, leaves the form unchanged |
| `UsersAdmin.CreateInputTop` | mi-frontend/src/pages/admin/GestionUsuarios.jsx:209-211 | username, email and password land at the top level and nothing else moves |
| `UsersAdmin.CreateInputProfile` | mi-frontend/src/pages/admin/GestionUsuarios.jsx:213-221 | first_name, last_name, role and department land inside `profile` and nothing else moves |
| `UsersAdmin.CreatePayload` | mi-frontend/src/pages/admin/GestionUsuarios.jsx:232-246 | the payload is built exactly when the form's profile is neither null nor undefined |
| `UsersAdmin.PayloadTop` | mi-frontend/src/pages/admin/GestionUsuarios.jsx:232-237 | the payload keeps the account fields and lifts first_name and last_name out of the profile to the top level |
| `UsersAdmin.PayloadProfile` | mi-frontend/src/pages/admin/GestionUsuarios.jsx:238-245 | the payload's profile holds role, department and phone from the form's profile, and no names |
| `UsersAdmin.PayloadProfileFields` | mi-frontend/src/pages/admin/GestionUsuarios.jsx:238-245 | the nested profile built from any value holds its role, department and phone and no names |
| `UsersAdmin.ResetFormValid` | mi-frontend/src/pages/admin/GestionUsuarios.jsx:101-111 | the reset create form holds a profile object without `phone` |
| `UsersAdmin.InitialFormValid` | mi-frontend/src/pages/admin/GestionUsuarios.jsx:26-37 | the initial create form holds a profile object whose `phone` is '' |
| `UsersAdmin.CreateInputKeepsValid` | mi-frontend/src/pages/admin/GestionUsuarios.jsx:205-223 | no create input replaces the profile object or reaches `phone` |
| `UsersAdmin.ReplaceById` | mi-frontend/src/pages/admin/GestionUsuarios.jsx:159-161 | saving keeps the list's length and order, replaces exactly the entries whose id is strictly equal to the reply's, and keeps every other entry |
| `UsersAdmin.ReplaceIdempotent` | mi-frontend/src/pages/admin/GestionUsuarios.jsx:159-161 | applying the same reply twice gives the same list as once |
| `UsersAdmin.RemoveByIdMeaning` | mi-frontend/src/pages/admin/GestionUsuarios.jsx:316 | deleting keeps exactly the entries whose id differs, in their order |
| `UsersAdmin.VisibleUsersMeaning` | mi-frontend/src/pages/admin/GestionUsuarios.jsx:360-361 | the list shows exactly the users whose `is_staff` is falsy, in order |
| `UsersAdmin.UsersFromResponse` | mi-frontend/src/pages/admin/GestionUsuarios.jsx:44-50 | the list is accepted exactly when the body is truthy with an array `results`, and is then that array |
| `UsersAdmin.CreateErrorText` | mi-frontend/src/pages/admin/GestionUsuarios.jsx:275 | the catch block itself throws exactly when the caught value is null or undefined |
| `UsersAdmin.UsersScreen.constructor` | mi-frontend/src/pages/admin/GestionUsuarios.jsx:18-37 | the screen starts empty and loading, with nothing selected, both forms closed and the initial create form |
| `UsersAdmin.UsersScreen.Render` | mi-frontend/src/pages/admin/GestionUsuarios.jsx:333-377 | loading shows first, then a truthy error, then the main view, whose list holds only non-staff users of the state |
| `UsersAdmin.UsersScreen.FetchUsers` | mi-frontend/src/pages/admin/GestionUsuarios.jsx:40-59 | loading ends; a failure keeps the list and sets the load error; an accepted body replaces the list; any other body empties it and sets the format error; nothing else changes |
| `UsersAdmin.UsersScreen.SelectUser` | mi-frontend/src/pages/admin/GestionUsuarios.jsx:79-113 | a missing user throws with nothing changed; otherwise the normalised user is selected, both forms close and the create form is reset |
| `UsersAdmin.UsersScreen.Select` | mi-frontend/src/pages/admin/GestionUsuarios.jsx:97-111 | the given record is selected, both forms close and the create form is reset |
| `UsersAdmin.UsersScreen.EditUser` | mi-frontend/src/pages/admin/GestionUsuarios.jsx:116-136 | edit mode is on even when a missing selection throws; otherwise the edit form is the normalised selection |
| `UsersAdmin.UsersScreen.EditInputChange` | mi-frontend/src/pages/admin/GestionUsuarios.jsx:139-142 | only the edit form changes, by the edit input rule |
| `UsersAdmin.UsersScreen.SaveEdit` | mi-frontend/src/pages/admin/GestionUsuarios.jsx:145-175 | nothing happens without a selection and form data; otherwise the selection's id and the form are sent; a success replaces by id and closes the editor; any failure, one thrown by the map included, sets the save error and keeps the rest |
| `UsersAdmin.UsersScreen.CancelEdit` | mi-frontend/src/pages/admin/GestionUsuarios.jsx:178-182 | closes the editor and clears its form, nothing else |
| `UsersAdmin.UsersScreen.CreateNewUser` | mi-frontend/src/pages/admin/GestionUsuarios.jsx:185-202 | clears the selection and the editor and opens a reset create form |
| `UsersAdmin.UsersScreen.CreateInputChange` | mi-frontend/src/pages/admin/GestionUsuarios.jsx:205-223 | only the create form changes, by the create input rule, and it stays well shaped |
| `UsersAdmin.UsersScreen.SaveNewUser` | mi-frontend/src/pages/admin/GestionUsuarios.jsx:226-277 | sends the payload; a success starts the reload, closes and resets the form; a failure sets the create error text; only a thrown null or undefined escapes |
| `UsersAdmin.UsersScreen.CancelCreate` | mi-frontend/src/pages/admin/GestionUsuarios.jsx:280-294 | closes and resets the create form, nothing else |
| `UsersAdmin.UsersScreen.ResetCreateForm` | mi-frontend/src/pages/admin/GestionUsuarios.jsx:257-267 | the create form becomes the reset form and nothing else changes |
| `UsersAdmin.UsersScreen.DeleteUser` | mi-frontend/src/pages/admin/GestionUsuarios.jsx:297-331 | deletion of the selection's id is requested iff there is a selection and the user confirms; a success removes by id and clears the selection and editor; a failure sets the error naming the user |
| `UsersAdmin.PayloadPhoneNeverEntered` | mi-frontend/src/pages/admin/GestionUsuarios.jsx:232-246 | on every reachable screen the payload is built and its phone is '' or absent: no input of the create form reaches it |
| `MaintenanceAdmin.TechniciansOf` | mi-frontend/src/pages/admin/GestionMantenimiento.jsx:84 | the filter never lengthens the list |
| `MaintenanceAdmin.Technicians` | mi-frontend/src/pages/admin/GestionMantenimiento.jsx:84 | the filter succeeds exactly on an array with no null or undefined element, and then keeps the users whose role is strictly 'tecnico' |
| `MaintenanceAdmin.TechniciansMembers` | mi-frontend/src/pages/admin/GestionMantenimiento.jsx:84 | a user is kept iff it is in the list and its role is 'tecnico' |
| `MaintenanceAdmin.TechniciansAppend` | mi-frontend/src/pages/admin/GestionMantenimiento.jsx:84 | the filter keeps the list's order: it distributes over concatenation |
| `MaintenanceAdmin.ProductName` | mi-frontend/src/pages/admin/GestionMantenimiento.jsx:41-45 | '--' for a falsy id or no match, else the `name` of the first product whose id is strictly equal; the lookup throws on a list that is not an array or on a missing element met before the match |
| `MaintenanceAdmin.DisplayNameChoice` | mi-frontend/src/pages/admin/GestionMantenimiento.jsx:52 | a non-blank "first last" is shown trimmed, with no space at either end; a blank one gives way to the username, then to '--' |
| `MaintenanceAdmin.UserName` | mi-frontend/src/pages/admin/GestionMantenimiento.jsx:48-53 | '--' for a falsy id or no match, else the display name of the first user whose id is strictly equal; throws as the product lookup does |
| `MaintenanceAdmin.FormOf` | mi-frontend/src/pages/admin/GestionMantenimiento.jsx:27-38 | a maintenance form holds exactly the ten form keys, in order |
| `MaintenanceAdmin.FormOfGet` | mi-frontend/src/pages/admin/GestionMantenimiento.jsx:27-38 | each form key holds the value given for it |
| `MaintenanceAdmin.NewFormFields` | mi-frontend/src/pages/admin/GestionMantenimiento.jsx:101-119 | a new form holds the ten keys with status 'pending', start date today and '' elsewhere |
| `MaintenanceAdmin.NewFormIncomplete` | mi-frontend/src/pages/admin/GestionMantenimiento.jsx:107-118 | a new form cannot be saved before a product is chosen |
| `MaintenanceAdmin.EditValues` | mi-frontend/src/pages/admin/GestionMantenimiento.jsx:126-140 | the edit form gets one value per form key |
| `MaintenanceAdmin.EditFormRequired` | mi-frontend/src/pages/admin/GestionMantenimiento.jsx:121-141 | a record loaded into the editor can be saved unchanged iff it has a product, a technician, a status and a start date that formats to a non-empty text |
| `MaintenanceAdmin.SubmitCall` | mi-frontend/src/pages/admin/GestionMantenimiento.jsx:182-193 | no call iff a required field is falsy; an update of the selection's id iff editing with a selection; a creation otherwise; the form is sent as it is |
| `MaintenanceAdmin.CompletePatch` | mi-frontend/src/pages/admin/GestionMantenimiento.jsx:251-254 | completion sends exactly `{status: 'completed', completion_date: today}` |
| `MaintenanceAdmin.ClearIfSelected` | mi-frontend/src/pages/admin/GestionMantenimiento.jsx:158-160 | the selection becomes null iff it is the affected record, and otherwise stays; a remaining selection never has the affected id |
| `MaintenanceAdmin.Reload` | mi-frontend/src/pages/admin/GestionMantenimiento.jsx:152-155 | a reload gives the normalised list, rethrows a failure, and throws on a missing body |
| `MaintenanceAdmin.FetchFailure` | mi-frontend/src/pages/admin/GestionMantenimiento.jsx:57-96 | nothing fails only when all three requests succeed, all three bodies normalise and the technician filter succeeds |
| `MaintenanceAdmin.MaintenanceScreen.constructor` | mi-frontend/src/pages/admin/GestionMantenimiento.jsx:16-38 | the screen starts with empty lists, loading, no error, nothing selected, no form open and an all-'' form |
| `MaintenanceAdmin.MaintenanceScreen.FetchData` | mi-frontend/src/pages/admin/GestionMantenimiento.jsx:55-99 | with no failure the records, products and technicians are stored and loading ends; otherwise the lists stay, and the error is the failure's message or the fallback (a missing error escapes with loading still set) |
| `MaintenanceAdmin.MaintenanceScreen.CatchAndStop` | mi-frontend/src/pages/admin/GestionMantenimiento.jsx:92-96 | the catch shows `err.message` or the fallback and ends loading; it throws itself on a missing error |
| `MaintenanceAdmin.MaintenanceScreen.CreateRegistro` | mi-frontend/src/pages/admin/GestionMantenimiento.jsx:101-119 | opens the create form with the new-form values and clears the selection |
| `MaintenanceAdmin.MaintenanceScreen.EditRegistro` | mi-frontend/src/pages/admin/GestionMantenimiento.jsx:121-141 | sets edit mode and the selection first, then loads the record's values; a missing record throws after the flags are set |
| `MaintenanceAdmin.MaintenanceScreen.Render` | mi-frontend/src/pages/admin/GestionMantenimiento.jsx:274-505 | loading text while loading, the error alone when there is one, otherwise the list or the form but never both; the details only under the list for a selected record; with the form invariant kept by every handler, the creation heading shows exactly while creating and the date fields only in the edit form |
| `MaintenanceAdmin.MaintenanceScreen.InputChange` | mi-frontend/src/pages/admin/GestionMantenimiento.jsx:168-176 | only the named form key changes |
| `MaintenanceAdmin.MaintenanceScreen.CloseForm` | mi-frontend/src/pages/admin/GestionMantenimiento.jsx:202-216 | closes both forms, clears the selection and empties the form |
| `MaintenanceAdmin.MaintenanceScreen.Submit` | mi-frontend/src/pages/admin/GestionMantenimiento.jsx:178-221 | makes the call `SubmitCall` chooses; a missing field sets the required-fields message and changes nothing else; a success stores the reloaded list and resets the form; a failure keeps the list and form and shows the message or fallback |
| `MaintenanceAdmin.MaintenanceScreen.Cancel` | mi-frontend/src/pages/admin/GestionMantenimiento.jsx:223-239 | closes both forms, clears the selection and empties the form |
| `MaintenanceAdmin.MaintenanceScreen.AfterWrite` | mi-frontend/src/pages/admin/GestionMantenimiento.jsx:145-164 | after the write and the reload, stores the list and clears the selection only when it is the affected record; a failure keeps both and shows the message or fallback |
| `MaintenanceAdmin.MaintenanceScreen.DeleteRegistro` | mi-frontend/src/pages/admin/GestionMantenimiento.jsx:143-166 | nothing without confirmation; otherwise the delete, the reload and the selection rule of `AfterWrite` with the delete fallback |
| `MaintenanceAdmin.MaintenanceScreen.CompleteMaintenance` | mi-frontend/src/pages/admin/GestionMantenimiento.jsx:241-272 | after confirmation sends exactly the completion patch for the id, then the reload and the selection rule with the completion fallback; nothing without confirmation |
| `CategoriesAdmin.CategoryForm` | mi-frontend/src/pages/admin/GestionCategorias.jsx:24-28 | a category form holds exactly the keys nombre, descripcion, parent |
| `CategoriesAdmin.CategoryFormGet` | mi-frontend/src/pages/admin/GestionCategorias.jsx:24-28 | each form key reads back the value put in |
| `CategoriesAdmin.EditFormMeaning` | mi-frontend/src/pages/admin/GestionCategorias.jsx:81-85 | the edit form takes `name` as it is, even a falsy one, and falls back to '' for a falsy description or parent id |
| `CategoriesAdmin.BlankIsTrimEmpty` | mi-frontend/src/pages/admin/GestionCategorias.jsx:120 | a name is blank exactly when its trimmed text is empty |
| `CategoriesAdmin.NameBlank` | mi-frontend/src/pages/admin/GestionCategorias.jsx:120 | the blank test succeeds exactly on a string name; `trim` of anything else throws |
| `CategoriesAdmin.NameBlankMeaning` | mi-frontend/src/pages/admin/GestionCategorias.jsx:120-123 | a string name is refused iff its trimmed text is empty, iff every character is white space or a line terminator |
| `CategoriesAdmin.SubmitCall` | mi-frontend/src/pages/admin/GestionCategorias.jsx:118-129 | no call unless the name is a non-blank string; an update of the selection's id iff editing with a selection; a creation otherwise; the whole form is sent |
| `CategoriesAdmin.RefusalMessage` | mi-frontend/src/pages/admin/GestionCategorias.jsx:120-123 | a blank name shows the required-name message; a name that is not a string shows the caught TypeError's message |
| `CategoriesAdmin.EmptyFormRefused` | mi-frontend/src/pages/admin/GestionCategorias.jsx:66-75 | a freshly opened creation form cannot be saved: its name is blank |
| `CategoriesAdmin.EditThenSubmit` | mi-frontend/src/pages/admin/GestionCategorias.jsx:77-129 | saving an edit form unchanged updates the category it came from iff the category's name is a string with a non-space character |
| `CategoriesAdmin.ArrayOrEmpty` | mi-frontend/src/pages/admin/GestionCategorias.jsx:97-98 | a reload keeps an array reply and turns anything else into [] |
| `CategoriesAdmin.PairFailure` | mi-frontend/src/pages/admin/GestionCategorias.jsx:36-39 | the two parallel requests fail iff one of them rejects, with the first rejection in argument order |
| `CategoriesAdmin.WriteFailure` | mi-frontend/src/pages/admin/GestionCategorias.jsx:125-137 | a write and its reload fail iff one of them rejects; the write's rejection comes first |
| `CategoriesAdmin.InitialLoadLists` | mi-frontend/src/pages/admin/GestionCategorias.jsx:45-49 | after a successful initial load each list is the reply when an array, else its truthy `results`, else [] |
| `CategoriesAdmin.ReloadDropsPagination` | mi-frontend/src/pages/admin/GestionCategorias.jsx:45-49 | a paginated `{results}` reply is read by the initial load but turned into [] by a reload |
| `CategoriesAdmin.ParentName` | mi-frontend/src/pages/admin/GestionCategorias.jsx:166-170 | '--' for a falsy id or no match, else the `name` of the first category whose id is strictly equal; the search throws on a list that is not an array or a missing element before the match |
| `CategoriesAdmin.ParentNameFound` | mi-frontend/src/pages/admin/GestionCategorias.jsx:166-170 | a category whose parent is listed, with a unique id, shows that parent's name |
| `CategoriesAdmin.CategoriesScreen.constructor` | mi-frontend/src/pages/admin/GestionCategorias.jsx:15-28 | the screen starts with empty lists, loading, no error, nothing selected and an empty form |
| `CategoriesAdmin.CategoriesScreen.Render` | mi-frontend/src/pages/admin/GestionCategorias.jsx:172-302 | loading shows alone; otherwise the list shows iff no form is open, the banner iff the error is truthy, and details only beside the list |
| `CategoriesAdmin.CategoriesScreen.FetchData` | mi-frontend/src/pages/admin/GestionCategorias.jsx:31-64 | loading ends; a success stores both normalised lists; any failure keeps them and shows the fixed load message |
| `CategoriesAdmin.CategoriesScreen.CloseForm` | mi-frontend/src/pages/admin/GestionCategorias.jsx:140-147 | closes both forms, clears the selection and empties the form |
| `CategoriesAdmin.CategoriesScreen.CreateCategoria` | mi-frontend/src/pages/admin/GestionCategorias.jsx:66-75 | opens the creation form empty, with no selection |
| `CategoriesAdmin.CategoriesScreen.EditCategoria` | mi-frontend/src/pages/admin/GestionCategorias.jsx:77-86 | sets edit mode and the selection first, then loads the mapped form; a missing category throws after them |
| `CategoriesAdmin.CategoriesScreen.ShowDetails` | mi-frontend/src/pages/admin/GestionCategorias.jsx:212 | a row's details button selects that category and changes nothing else |
| `CategoriesAdmin.CategoriesScreen.CloseDetails` | mi-frontend/src/pages/admin/GestionCategorias.jsx:302 | the close button clears the selection and changes nothing else |
| `CategoriesAdmin.CategoriesScreen.InputChange` | mi-frontend/src/pages/admin/GestionCategorias.jsx:106-112 | only the named form key changes |
| `CategoriesAdmin.CategoriesScreen.Submit` | mi-frontend/src/pages/admin/GestionCategorias.jsx:114-152 | makes the call `SubmitCall` chooses; a refusal shows its message and changes nothing else; a success reloads both lists as arrays and resets the form; a failure keeps everything and shows the message or fallback, a missing one escaping |
| `CategoriesAdmin.CategoriesScreen.Save` | mi-frontend/src/pages/admin/GestionCategorias.jsx:125-151 | the write and the reload, with the success and failure effects of `Submit` |
| `CategoriesAdmin.CategoriesScreen.Cancel` | mi-frontend/src/pages/admin/GestionCategorias.jsx:154-163 | closes both forms, clears the selection and empties the form |
| `CategoriesAdmin.CategoriesScreen.DeleteCategoria` | mi-frontend/src/pages/admin/GestionCategorias.jsx:88-104 | nothing without confirmation; otherwise the id is deleted and both lists reloaded as arrays, or a fixed message shows; the selection is kept and the error is not cleared |
| `JsValue.Or` | mi-frontend/src/context/AuthContext.jsx:72 | `a \|\| b` is `a` when it is truthy and `b` otherwise |
| `JsValue.GetSet` | mi-frontend/src/pages/auth/ChangePasswordPage.jsx:63-66 | `{...v, [k]: x}` reads `x` at `k` and what `v` held at every other key |
| `JsValue.LookupMerge` | mi-frontend/src/pages/admin/GestionUsuarios.jsx:119-125 | in `{...base, ...over}` the properties of `over` win and the others come from `base` |
| `JsValue.TrimEmptyIffBlank` | mi-frontend/src/pages/admin/GestionCategorias.jsx:120 | `s.trim()` is empty exactly when every character of `s` is white space or a line terminator |
| `JsValue.TrimHasNoOuterSpace` | mi-frontend/src/pages/admin/GestionMantenimiento.jsx:52 | a non-empty trimmed text has no space at either end |
| `JsValue.MessageOr` | mi-frontend/src/pages/admin/GestionMantenimiento.jsx:94 | a catch block shows `err.message` when truthy and the fallback otherwise, and throws itself on a missing error |
| `JsValue.FindIndex` | mi-frontend/src/pages/admin/GestionMantenimiento.jsx:43 | the index found is the first element passing the test; none is found only when no element passes |
| `JsValue.Filter` | mi-frontend/src/pages/admin/GestionUsuarios.jsx:361 | a filtered list keeps only elements of the list that pass the test |
| `JsValue.FilterAppend` | mi-frontend/src/pages/admin/GestionUsuarios.jsx:361 | filtering distributes over concatenation, so it keeps order |
| `JsValue.FilterKeeps` | mi-frontend/src/pages/admin/GestionUsuarios.jsx:361 | every element passing the test is kept |
| `JsValue.FlatKeeps` | mi-frontend/src/pages/auth/ChangePasswordPage.jsx:90 | `flat()` keeps every non-array entry and every element of an array entry |
| `JsValue.FlatOrigin` | mi-frontend/src/pages/auth/ChangePasswordPage.jsx:90 | every element of `flat()` comes from one entry, spliced or kept |
| `JsValue.FindFirst` | mi-frontend/src/pages/admin/GestionMantenimiento.jsx:43-44 | a search by a truthy id that does not throw returns a truthy record whenever an element has the id |
| `JsValue.NormalizeList` | mi-frontend/src/pages/admin/GestionMantenimiento.jsx:74-81 | an array reply is used as is, else its truthy `results` whatever its type, else []; a missing reply throws |
| `JsonRoundTrip.StringifyParse` | mi-frontend/src/context/AuthContext.jsx:28-31 | `JSON.parse(JSON.stringify(v))` gives back the JSON copy of every value an object can hold, and fails for undefined |
| `JsonRoundTrip.ValueRoundTrip` | mi-frontend/src/context/AuthContext.jsx:76 | the parser reads back every plain value the writer wrote, whatever text follows it |
| `JsonRoundTrip.LookupNormFields` | mi-frontend/src/context/AuthContext.jsx:31 | a property of the parsed copy is the copy of the original property, an undefined one staying absent |
| `JsonRoundTrip.TruthyNorm` | mi-frontend/src/config/roles.js:22 | the JSON copy keeps truthiness, so `if (user.is_staff)` reads the same after a reload |
| `JsonRoundTrip.NormIdempotent` | mi-frontend/src/pages/auth/ChangePasswordPage.jsx:77-78 | copying an already copied value changes nothing, so storing a parsed user again is stable |

## Left out

- The HTTP transport (`services/config/api.js`): the axios instance, its
  interceptors and the token-refresh retry. Every reply a service receives is
  an input (`Completion`: a returned value or a thrown error).
- The `fetch` calls in `inventoryMovementService.js` (recent, detail, summary,
  and the request inside the filter-and-order call): I/O. Only the URLs and
  parameters they build are modelled. The `${BASE}?${query}` fallback in the
  filter-and-order builder is not modelled, because `FILTER_AND_ORDER` is
  always defined and the fallback is never built.
- `getCurrentUser` in `authService.js`: a plain request that no core code calls.
- `changeFirstLoginPassword`: `ChangePasswordPage.jsx` imports it, but
  `authService.js` does not export it; its reply is an input of the submit
  handler.
- `getProduct`, `deleteProduct`, `searchProducts`, `getProductsByCategory`,
  `getLowStockProducts` and `getInventoryStatus` in `productService.js`: thin
  wrappers over one request each. The last four use endpoint keys that
  `PRODUCT_ENDPOINTS` does not define; that is not modelled either.
- The wrappers in `userService.js`, `maintenanceService.js`,
  `categoryService.js` and `supplierService.js`: their replies are inputs.
- `Date`, `toISOString` and the current time: the day strings are parameters.
- MaintenanceAdmin.EditValues: the date formatting is a total parameter, so
  the RangeError that `new Date(x).toISOString()` throws in `editRegistro`
  for a stored date that does not parse is not represented.
- `parseFloat`, `parseInt` on fractions, and floating point: numbers are
  integers, and there is no `NaN` or `-0`.
- `window.confirm` is a boolean input. `alert`, `console`, `document.title`
  and `window.dispatchEvent(new CustomEvent("userUpdated"))` have no effect
  in the model. `navigate(...)` is a returned target, not a history change.
- React scheduling: the state updates a handler makes are applied in order
  and at once, including those made before a rejected await. `Promise.all`
  rejects with the first rejection in argument order; timing is not modelled.
- Object identity is structural equality. Objects with duplicate keys,
  prototype properties, getters, and spreading arrays or strings into objects
  are not modelled.
- The text of a `TypeError` is a fixed placeholder object.
- `URLSearchParams` percent-encoding: query values are joined as given.
- Numbers with a fraction or an exponent in JSON text: `JSON.parse` as
  modelled rejects them, so `checkAuth` treats such a stored user like
  corrupt data and clears the session keys.
- `\uD800`-`\uDFFF` escapes in JSON text: `JSON.parse` as modelled rejects
  them, where JavaScript joins an escaped surrogate pair into one character.
  `JSON.stringify` never writes such escapes for the model's strings.
- Guards.MatchRoute: the router also percent-decodes the pathname before
  matching; paths are matched as given here.
- Guards.ProtectedRoute: `state.from` holds the whole `location` object in
  the source; the model keeps only its pathname, so the search string, the
  hash and any location state are not carried to the login page.
- ProductService.CreateEntries: `Object.keys` lists integer-like keys first,
  in ascending numeric order, then the other keys in insertion order; the
  model takes the object's fields in their stored order. The same order rule
  applies to the keys `JSON.stringify` writes.
- Integers above 2^53 in magnitude: JavaScript numbers lose precision there,
  while the model's numbers are exact integers.
- `Blob` and `File` values inside `FormData`: only string entries are built.
- JSX markup beyond the conditions that decide what renders.
- The legacy `services/endpoints.js`, the screens `GestionProductos`,
  `GestionProveedores` and `GestionMovimientosInventario`, the dashboards,
  `LoginPage` and `Login.jsx`: these are not part of this model.

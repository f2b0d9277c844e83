# GasoPay web client: session, navigation guard, product rules, API configuration

This project models the core of the GasoPay web client in Dafny. GasoPay is a
fuel-purchase dashboard for riders, branch admins and super admins. The model
has four parts:

- **The session store** (`auth.dfy`, module `Auth`). It holds the bearer
  token, the current user, and the profile-refresh flags `profileLoading` and
  `profileError`. It also holds the initialisation flag. All of this is
  mirrored into two localStorage keys, `authToken` and `userData`.
  - Each store action is a pure transition function over a `State` value:
    `WithUser`, `Cleared`, `LoggedIn`, `Hydrated` and `Refreshed`.
  - The class `Auth.Session` holds the same fields as mutable refs. Each
    method does the store's steps in order and is proved to end in the state
    its transition function gives.
  - The store invariant `Inv` says three things: the storage slots have the
    shapes the store writes, every user the store holds carries a `Role`
    value, and no refresh is half done.
- **The navigation guard** (`router.dfy`, module `Router`). It covers the
  route table in declaration order, the allow/redirect decision, the page
  title, and the `beforeEach` hook. The hook hydrates a store that is not yet
  initialised before deciding.
- **The product rules** (`product_rules.dfy`, module `ProductRules`). It
  covers the 3×3 table of amount rules, the case-normalising lookup with its
  fallbacks, and the two option generators. Each generator is a loop proved
  equal to the arithmetic ladder `Ladder(min, bound, step)`.
- **The API configuration** (`api_config.dfy`, module `ApiConfig`). It covers
  base-URL selection from the build environment, endpoint URL building, and
  the authenticated request headers.

`js.dfy` (module `Js`) holds the JavaScript semantics these parts rely on:
dynamic values, truthiness, `typeof`, ASCII case mapping and
`parseInt(s, 10)`.

## Model

| member | source | states |
|---|---|---|
| `Js.ToUpperCase` | src/services/productRules.ts:54 | The result has the input's length and no lower-case letter, and agrees with the input letter by letter up to case. |
| `Js.ToLowerCase` | src/services/productRules.ts:55 | The result has the input's length and no upper-case letter, and agrees with the input letter by letter up to case. |
| `Js.ParseInt` | src/stores/auth.ts:218 | `parseInt(s, 10)` always gives a number-typed value: an integer or NaN. |
| `Js.ParseIntDecimal` | src/stores/auth.ts:218 | Parsing the decimal rendering of a natural number gives that number back. |
| `Auth.RoleNameInjective` | src/stores/auth.ts:8-14 | Distinct `Role` members have distinct string values. |
| `Auth.IsValidRole` | src/stores/auth.ts:59-61 | True exactly when the string is the value of some `Role` member. |
| `Auth.FindRoleKey` | src/stores/auth.ts:77-79 | The key found is one whose value strictly equals the role value. When none is found, no key's value equals it. |
| `Auth.MapRole` | src/stores/auth.ts:74-86 | A role value that is a member's string maps to that member. Anything else maps to `Unknown`. |
| `Auth.WithMappedRole` | src/stores/auth.ts:93 | The copied user always has a `Role` value. A valid role is kept as is, any other role becomes `"unknown"`, and every other field is copied unchanged. |
| `Auth.IsAuthenticated` | src/stores/auth.ts:295 | True iff the token is a non-empty string and a user is present. Under the invariant an authenticated session's user always has a `Role` value as its role. |
| `Auth.UserRole` | src/stores/auth.ts:296 | Never undefined. Null when there is no user. |
| `Auth.UserProfile` | src/stores/auth.ts:297 | Never undefined. Null when there is no user, or when the user's `user_profile` is null or undefined. Otherwise it is the user's `user_profile`. |
| `Auth.UserRoleTyped` | src/stores/auth.ts:300-306 | Non-null exactly when a user is present whose role is a `Role` value. Then it is that role. |
| `Auth.TypedRoleIsUserRole` | src/stores/auth.ts:91-94 | Under the store invariant, the typed role is null iff there is no user. Otherwise it equals the user's role, and so does `userRole`. |
| `Auth.WithUser` | src/stores/auth.ts:63-97 | A null argument clears the user. Otherwise the user is stored with its role mapped and every other field unchanged. Nothing else in the state changes, and the store invariant is kept. |
| `Auth.Cleared` | src/stores/auth.ts:119-128 | Storage is the old storage with exactly the two keys removed, so every other key keeps its value. The user is null, the error is null, and loading is false. The token is cleared when `clearToken` is set and kept otherwise. The result always satisfies the invariant. |
| `Auth.LogoutIdempotent` | src/stores/auth.ts:279-283 | Logging out twice gives the same state as logging out once. |
| `Auth.LoggedIn` | src/stores/auth.ts:266-276 | The token is set, and the user becomes `WithMappedRole` of the given user. The same values are written to storage and no other key changes. An empty or absent token removes the `authToken` key. The error is reset. The session is authenticated iff the token is non-empty and a user was given. |
| `Auth.FromStorage` | src/stores/auth.ts:211-226 | The validated identity fields are copied. A number-typed `branch_id` (NaN included) is kept, a string one becomes its `parseInt`, and anything else becomes null. An object `branch` or `user_profile` is kept, and anything else becomes null. A string `balance` or `banned_at` is kept, and anything else becomes undefined. |
| `Auth.FromStorageIdempotent` | src/stores/auth.ts:211-226 | Rebuilding an already rebuilt user changes nothing. |
| `Auth.StoredUserValid` | src/stores/auth.ts:195-209 | A stored record passes iff `id` is a non-empty string, `fullname`, `email`, `phone` and `verification_status` are strings, and `role` is a `Role` value. The separate non-empty check on `role` is then implied. A record that passes keeps its role unchanged when the store adopts it. |
| `Auth.Hydrated` | src/stores/auth.ts:177-260 | The store is initialised on every path. With no stored token the token and user are cleared and storage loses exactly the two keys. Otherwise the stored token is kept: a valid stored user is adopted, and an invalid or unparseable one is dropped from memory and from storage. The invariant is kept. |
| `Auth.HydrateIdempotent` | src/stores/auth.ts:177-260 | Hydrating twice gives the same state as hydrating once. |
| `Auth.ReloadAfterLogin` | src/stores/auth.ts:186-229 | Log in with a non-empty token and a user whose identity fields are strings (a non-empty `id`), then reload from storage. The session is authenticated, with the same token, identity fields and mapped role. |
| `Auth.Refreshed` | src/stores/auth.ts:130-174 | With no token, nothing changes. Success replaces the user and the stored user. An error carrying 401 clears the token and user, and storage loses exactly the two keys. Any other failure keeps the token and user and records the message. Loading is false at the end. |
| `Auth.Session.constructor` | src/stores/auth.ts:262-263 | A new store has already hydrated from the storage it starts on, and satisfies the invariant. |
| `Auth.Session.SetUserState` | src/stores/auth.ts:63-97 | The new state is `WithUser` of the old one. |
| `Auth.Session.SetTokenState` | src/stores/auth.ts:99-101 | Only the token changes. |
| `Auth.Session.SetUserStorage` | src/stores/auth.ts:103-109 | Only the `userData` key changes: it is written for a user and removed for null. |
| `Auth.Session.SetTokenStorage` | src/stores/auth.ts:111-117 | Only the `authToken` key changes: it is written for a non-empty token and removed otherwise. |
| `Auth.Session.ClearAuthData` | src/stores/auth.ts:119-128 | The new state is `Cleared` of the old one, and the invariant holds afterwards. |
| `Auth.Session.FetchProfile` | src/stores/auth.ts:130-174 | The new state is `Refreshed` of the old one, and the invariant is kept. |
| `Auth.Session.LoadAuthFromStorage` | src/stores/auth.ts:177-260 | The new state is `Hydrated` of the old one, and the invariant is kept. |
| `Auth.Session.Login` | src/stores/auth.ts:266-276 | The new state is `LoggedIn` with the response's token and user. |
| `Auth.Session.Logout` | src/stores/auth.ts:279-283 | The new state is `Cleared(old, true)`. |
| `Auth.Session.HandleRiderRegistration` | src/stores/auth.ts:286-292 | The new state is `LoggedIn` with the response's access token and user. |
| `Router.RequiresAuth` | src/router/index.ts:337 | True iff some matched record declares `requiresAuth: true`, so an undeclared flag is permissive. |
| `Router.Decide` | src/router/index.ts:347-372 | The full decision table. A guarded page without a session redirects to `/signin`. A role outside the declared list redirects to `/`. A public auth page with a session redirects to `/rider/profile` for riders and super admins, and to `/` otherwise. Everything else is allowed, and only a guarded page ever redirects to `/signin`. |
| `Router.PageTitle` | src/router/index.ts:345 | The title is `GasoPay`, a space, a vertical bar, a space and the destination's title when it declares one, and `GasoPay` otherwise. |
| `Router.Settled` | src/router/index.ts:341-343 | The store the decision is taken over is initialised, and keeps the invariant. |
| `Router.BeforeEach` | src/router/index.ts:335-373 | The hook leaves the store hydrated if it was not. It returns the decision over the hydrated store and the title. |
| `Router.FirstMatch` | src/router/index.ts:11-332 | A record found matches the path and is in the table. When none is found, no record matches. |
| `Router.EarliestMatch` | src/router/index.ts:11-332 | The earliest record in declaration order that matches a path is the one resolution finds, whatever later records match. |
| `Router.SigninResolves` | src/router/index.ts:288-295 | `/signin` resolves to the top-level sign-in record. |
| `Router.HomeResolves` | src/router/index.ts:12-26 | `/` resolves to the dashboard, the layout's default child. |
| `Router.RiderProfileResolves` | src/router/index.ts:186-191 | `/rider/profile` resolves to the rider profile record. |
| `Router.RedirectTargetsResolve` | src/router/index.ts:12-295 | Each redirect target resolves to its own record, with the record's meta as matched and merged meta. |
| `Router.SigninAllowed` | src/router/index.ts:364-372 | The sign-in page is allowed for a visitor without a session. |
| `Router.HomeAllowed` | src/router/index.ts:18-26 | The dashboard is allowed for every authenticated user, whatever the role. |
| `Router.RiderProfileAllowed` | src/router/index.ts:186-191 | For an authenticated user, the rider profile is allowed exactly for riders and super admins. Every other role is redirected to `/`. |
| `Router.DestinationOf` | src/router/index.ts:11-332 | A path that some record matches keeps its path and takes that record's meta, which is the last of the matched metas. Any other path is redirected to `/error-404` with that page's meta. The layout contributes no auth requirement, so the page needs a session iff its own meta says so. |
| `Router.NoRedirectLoop` | src/router/index.ts:349-372 | There are no redirect loops, for any store whose storage has the shapes the store writes, including one whose profile refresh is still in flight. Whenever the guard redirects, the target is allowed for the same user and needs no second hydration. |
| `ProductRules.TableShape` | src/services/productRules.ts:31-47 | The table has exactly the products PMS, CNG and LPG, each with rules for keke, car and other. Every rule has `step > 0`, `min <= max` and `step` dividing `max - min`. |
| `ProductRules.Lookup` | src/services/productRules.ts:58-61 | Reading a property of a plain object gives the own value iff there is one. It gives an inherited built-in iff the key is not its own and names an `Object.prototype` property. |
| `ProductRules.UpperNeverPrototype` | src/services/productRules.ts:54-58 | No upper-cased string names an `Object.prototype` property, so the product lookup cannot reach one. |
| `ProductRules.ProductKey` | src/services/productRules.ts:54-58 | The upper-cased product when the table has it, CNG otherwise. Always a key of the table. |
| `ProductRules.VehicleKey` | src/services/productRules.ts:55-61 | The lower-cased vehicle type when it is keke, car or other, `other` otherwise. |
| `ProductRules.GetAmountRuleAsWritten` | src/services/productRules.ts:52-62 | As written: a lower-cased vehicle type that names an `Object.prototype` property yields that inherited built-in. Any other input yields the corrected rule. |
| `ProductRules.GetAmountRule` | src/services/productRules.ts:52-62 | The rule returned is always well formed. |
| `ProductRules.AmountRuleLookup` | src/services/productRules.ts:57-61 | The result is always one of the nine configured rules: the normalised keys' rule when both are known. An unknown product falls back to CNG and an unknown vehicle type to `other`. |
| `ProductRules.PrototypeVehicleLeaks` | src/services/productRules.ts:61 | Counterexample: `getAmountRule('PMS', 'constructor')` and `('PMS', '__proto__')` return an inherited built-in instead of the PMS `other` rule. |
| `ProductRules.CaseInsensitive` | src/services/productRules.ts:53-55 | Arguments that differ only in letter case give the same rule, both in the corrected lookup and as written. |
| `ProductRules.LadderElements` | src/services/productRules.ts:71-73 | Element `i` of the ladder is `from + i * step` and lies between `from` and `bound`. |
| `ProductRules.LadderLength` | src/services/productRules.ts:71-73 | The ladder has `(bound - from) / step + 1` elements, or none when `from > bound`. |
| `ProductRules.LadderIncreasing` | src/services/productRules.ts:71-73 | Consecutive elements differ by exactly `step`, and the ladder is strictly increasing. |
| `ProductRules.LadderEndsOnBound` | src/services/productRules.ts:71-73 | When `step` divides `bound - from`, the last element is `bound`. |
| `ProductRules.LadderPrefix` | src/services/productRules.ts:68-75 | For the same start and step, the ladder with the lower bound is a prefix of the other. |
| `ProductRules.CollectSteps` | src/services/productRules.ts:71-73 | The loop pushes exactly the ladder's amounts, in order. |
| `ProductRules.FullLadder` | src/services/productRules.ts:67-76 | For a well-formed rule, the ladder starts at `min` and ends at `max`, with `(max - min) / step + 1` strictly increasing elements `min + i * step`. |
| `ProductRules.GenerateAmountOptions` | src/services/productRules.ts:67-76 | The options are the rule's ladder from `min` to `max`. It starts at `min`, ends at `max`, has the expected length, and is strictly increasing. |
| `ProductRules.GeneratePartialPaymentOptions` | src/services/productRules.ts:81-98 | Each option lies between `min` and `fullAmount - step`, so it is below the full amount, and consecutive options differ by `step`. The list is empty iff `fullAmount - step < min`, and otherwise starts at `min`. |
| `ProductRules.GenerateAmountOptionsAsWritten` | src/services/productRules.ts:67-76 | As written: when the lookup leaks a built-in, the options are empty. Otherwise they are the corrected rule's ladder. |
| `ProductRules.GeneratePartialPaymentOptionsAsWritten` | src/services/productRules.ts:81-98 | As written: when the lookup leaks a built-in, the options are empty. Otherwise they are the corrected rule's partial ladder. |
| `ProductRules.PrototypeVehicleEmptiesOptions` | src/services/productRules.ts:67-76 | `constructor` is one of the leaking names, and the corrected lookup gives it the 16-amount PMS `other` ladder. |
| `ProductRules.OptionsNested` | src/services/productRules.ts:67-98 | For the same product and vehicle, the shorter of the two option lists is a prefix of the longer. |
| `ApiConfig.GetApiBaseUrl` | src/services/apiConfig.ts:9-14 | In production: the production URL, or `''` when it is unset or empty. Otherwise: the development URL, or `http://localhost:8000`. The base is empty only in production without a production URL. |
| `ApiConfig.FormatEndpoint` | src/services/apiConfig.ts:22 | The result always starts with `/`. A slashed endpoint is kept as is; any other gets one slash in front. |
| `ApiConfig.GetApiUrl` | src/services/apiConfig.ts:20-24 | The URL starts with the base, and the part after the base begins with `/`. It is `base + e` for a slashed endpoint and `base + "/" + e` otherwise. |
| `ApiConfig.FormatIdempotent` | src/services/apiConfig.ts:22 | Formatting is idempotent, so an already-slashed endpoint gets no second slash. |
| `ApiConfig.EndpointRecoverable` | src/services/apiConfig.ts:20-24 | The endpoint can be read back from the URL after the base. |
| `ApiConfig.GetApiUrlInjective` | src/services/apiConfig.ts:20-24 | Endpoints that differ after formatting give different URLs. |
| `ApiConfig.GetAuthHeaders` | src/services/apiConfig.ts:29-35 | Exactly three headers: `Authorization` is `Bearer ` followed by the token, and `Accept` and `Content-Type` are `application/json`. |
| `ApiConfig.BearerToken` | src/services/apiConfig.ts:31 | The inverse of the exact `Bearer ` form the client writes, not the general reading of RFC 6750: a token is found iff the value starts with `Bearer `, and the value is that prefix followed by the token. |
| `ApiConfig.BearerRoundTrip` | src/services/apiConfig.ts:29-35 | Reading back the `Authorization` header gives the token unchanged. |

## Left out

- Network I/O is not part of this model. `getMe` in `src/services/apiService.ts` appears only as its settled outcome, `Auth.MeOutcome`. That outcome is a response with or without a user, an `Error` with an optional HTTP status, or a thrown non-`Error`. `fetchProfile` looks for `error.response.status` to detect a 401 (src/stores/auth.ts:159-161), but `getMe` throws plain `Error`s that have no `response` (src/services/apiService.ts:215-217). The model keeps the status optional, so the 401 branch is modelled but is reached only through an error that carries a status.
- JSON text is not modelled. A stored user is represented by what `JSON.parse` gives back: unparseable, not an object, or a user record. Serialising and parsing a user is taken to give the same record back. The model does not capture that `NaN` serialises to `null` or that `undefined` fields are dropped.
- `Auth.Hydrated` and `Auth.Session.constructor` require the storage shape that `SlotsWellFormed` describes. The token slot holds a string. The user slot holds either the empty string or the parsed form of its text. This is how the model represents storage, not a restriction on what another writer may store: every non-empty text in the user slot is represented by what parsing it gives.
- Async ordering is not modelled. Each action runs to completion before the next one starts. So the model does not capture the intermediate `profileLoading = true` state seen by others during `getMe`, overlapping refreshes, or the race between the bootstrap hydration and the first navigation.
- `ApiUser` fields outside the thirteen modelled ones are not kept. These are extra properties carried along by the object spread in `setUserState`.
- Numbers are integers. `Js.ParseInt` reads an optional sign and decimal digits after the common white-space characters. The rest of the Unicode white-space set and values beyond the digit run are not modelled.
- `Js.ToUpperCase`, `Js.ToLowerCase`: map ASCII letters only. Unicode case mapping, such as the Kelvin sign lower-casing to `k` or `ß` upper-casing to `SS`, is not modelled.
- `ProductRules.GeneratePartialPaymentOptions`: `fullAmount` is an integer, not a double. The model does not cover a fractional or `NaN` amount, for which the loop's comparisons differ.
- Vue-router internals are not modelled: route ranking, lazy components, `scrollBehavior`, and meta merging beyond "the matched records' metas, parent first". Resolution takes the first record in declaration order whose path matches. The `/` layout record is never the resolved record: vue-router registers a record's children before the record itself, so its default child (`path: ''`, the dashboard) matches `/` first, and the layout only contributes its empty meta as the parent. `/` and `/home` are each the path of two records. The catch-all record is its redirect to `/error-404`. Case-insensitive and trailing-slash matching are not modelled.
- `document.title` is the title string `Router.BeforeEach` returns.
- Pinia and Vue reactivity are not modelled: the refs are fields of `Auth.Session` and the computed getters are functions of its state.
- All `console.*` logging is left out.
- `src/stores/ui.ts`, `src/main.ts` and the type-only files under `src/types` are not part of this model.

## Findings

| source | as written | input that shows it | evidently intended | confidence | as-written member | corrected member |
|---|---|---|---|---|---|---|
| src/services/productRules.ts:61 | The lower-cased vehicle type is read as a property of the product's plain rule object, so inherited `Object.prototype` properties count too. For `constructor` or `__proto__` the read gives a truthy built-in (the `Object` function, or the prototype itself), which is returned instead of a rule. The generators inherit the leak (next row). | `getAmountRule('PMS', 'constructor')` | An unknown vehicle type falls back to the `other` rule (5000 to 20000, step 1000 for PMS). | high; not executed | `ProductRules.GetAmountRuleAsWritten` | `ProductRules.GetAmountRule` |
| src/services/productRules.ts:67-76 | The generators take the leaked built-in from `getAmountRule` and destructure `undefined` for `min`, `max` and `step`. The loop test `undefined <= undefined` is false, so no options are offered. `generatePartialPaymentOptions` (lines 81-98) likewise offers none, since its bound is NaN. | `generateAmountOptions('PMS', 'constructor')` | The PMS `other` ladder: 16 amounts from 5000 to 20000. | high; not executed | `ProductRules.GenerateAmountOptionsAsWritten` | `ProductRules.GenerateAmountOptions` |

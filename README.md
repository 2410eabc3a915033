# ReactGo core, modelled in Dafny

This project models three pieces of decision logic from the ReactGo universal web-application boilerplate, and proves properties of each.

- **Google OAuth account linking** (`google_auth.dfy`, module `GoogleAuth`). This is Passport's verify callback for the Google strategy. If a user is signed in, the callback rejects a Google id that some user already holds; otherwise it links the Google account to the session user. If nobody is signed in, it signs in the user who holds the Google id; failing that, it rejects an email address already in use; failing that, it creates a new user. The User table is the class `UserTable`, holding a sequence of rows. A row's id is its position, since the modelled code never deletes rows. `findOne` is the function `FindOne`, which returns the first matching row. Linking and creating are methods that update the table. The function `Verify` specifies the whole callback on table values, and `Authenticate` is proved to follow it.
- **Webpack configuration selection** (`webpack_config.dfy`, module `WebpackConfig`). The exported function takes `NODE_ENV`, the `--env` string and the `node_modules` listing. In production it returns the browser and the server bundle configurations. Otherwise it returns one development configuration, chosen by whether the env string contains `browser`. Plugins are datatype tags with their options. `PATHS.*` and the rule builders are opaque tags.
- **Backend client settings** (`backend.dfy`, module `Backend`). These are `http://host:port` built from `HOSTNAME` and `PORT`, each defaulting when unset or empty, together with `responseType: 'json'` and empty options.

`js.dfy` (module `Js`) holds what the three share: `Option`, JavaScript truthiness of an optional string, and the `||` operator on such strings. `undefined`, `null` and `""` are all falsy.

Calls into code the model cannot see become parameters:
- ORM failures are a `Faults` record: the Google-id lookup, the email lookup, the session-user lookup, `save` and `create`.
- `process.env.NODE_ENV`, `HOSTNAME` and `PORT` are `Option<string>` arguments.
- The `node_modules` listing is a `seq<string>`.

How the verify callback calls `done` is the datatype `Outcome`:
- `Rejected(message)` is `done(null, false, { message })`.
- `Linked`, `SignedIn` and `Created` are successful `done` calls with that user.
- `StoreFailed` is `done(err, …)` after a failed `save` or `create`. The table is then unchanged.
- `Unanswered` means the callback throws before `done` is called. This happens when `findById` yields no user: `user.google = …` then dereferences `null` inside a callback.

Interpretations of the code:
- The `.error(...)` handlers are modelled as catching every failure of the promise chain they end. That includes the `TypeError` that `profile._json.emails[0].value` raises when Google reports no email. Such a request is therefore rejected with "Something went wrong trying to authenticate". With Bluebird promises, `.error` catches only "operational" errors, so under that library a thrown `TypeError` would go unhandled and `done` would never be called.
- `User.findById(id, callback)` is modelled as calling its callback with the row, as Mongoose does. An ORM whose `findById` takes options instead of a callback would never run the link branch at all. The ORM is not part of this model.
- The link branch writes `user.profile.name`, `.gender` and `.picture`, while `User.create` writes top-level `name`, `gender` and `picture`. Both are the same three fields of a `User` row here. A created row starts with an empty token list.
- Linking overwrites a Google id the session user already had, because the code does so.

## Model

| member | source | states |
|---|---|---|
| GoogleAuth.FindOne | server/config/passport/google.js:48-50 | `findOne({ where })` returns a row that matches the clause, and returns none exactly when no row matches |
| GoogleAuth.Matches | server/config/passport/google.js:48-50 | no contract of its own: a row satisfies `{ google: id }` or `{ email: address }`; see FindOne |
| GoogleAuth.UniqueGoogle | server/config/passport/google.js:29-35 | no contract of its own: at most one row per Google id, the invariant the lookups guard; see PreservesUniqueGoogle, LinkKeepsUnique and CreateKeepsUnique |
| GoogleAuth.UniqueEmail | server/config/passport/google.js:50-57 | no contract of its own: at most one row per email; see PreservesUniqueEmail, LinkKeepsUnique and CreateKeepsUnique |
| GoogleAuth.Verify | server/config/passport/google.js:27-75 | no contract of its own: the whole callback on table values, branch by branch; its properties are stated by LinkConflictRejects, LinkUpdatesSessionUser, LinkMergesProfile, ReturningUserSignsIn, EmailConflictRejects, CreatesOneUser, LookupFailureRejects, OnlyLinkOrCreateWrites, PreservesUniqueGoogle and PreservesUniqueEmail |
| GoogleAuth.LinkRecord | server/config/passport/google.js:34-38 | no contract of its own: the linked row; see LinkUpdatesSessionUser, LinkMergesProfile and LinkKeepsUnique |
| GoogleAuth.NewRecord | server/config/passport/google.js:54-60 | no contract of its own: the created row; see CreatesOneUser and CreateKeepsUnique |
| GoogleAuth.UserTable.constructor | server/config/passport/google.js:2 | a table over rows with at most one user per Google id and per email satisfies the invariant and holds exactly those rows |
| GoogleAuth.UserTable.LinkGoogle | server/config/passport/google.js:33-41 | called only after the Google-id lookup found no row, it keeps the invariant, and the session user's row becomes the linked record: Google id set, one `google` token appended, profile fields kept when truthy and otherwise taken from Google; no other row changes |
| GoogleAuth.UserTable.Create | server/config/passport/google.js:54-62 | called only after both lookups found no row, it keeps the invariant; exactly one row, built from the Google profile, is appended, and its id is returned |
| GoogleAuth.UserTable.Authenticate | server/config/passport/google.js:27-75 | the outcome and the new table are those that `Verify` gives for the old table, and the invariant of one user per Google id and per email is kept |
| GoogleAuth.LinkKeepsUnique | server/config/passport/google.js:29-35 | setting a Google id that no row holds on one row keeps at most one user per Google id and per email |
| GoogleAuth.CreateKeepsUnique | server/config/passport/google.js:48-57 | appending a row whose Google id and email no row holds keeps at most one user per Google id and per email |
| GoogleAuth.LinkConflictRejects | server/config/passport/google.js:28-31 | with a session user, if any row already has the Google id, the request is rejected with the "already a Google account" message and the table is unchanged |
| GoogleAuth.LinkUpdatesSessionUser | server/config/passport/google.js:33-35 | with a session user and a Google id nobody holds, the session row gets `google = profile.id`; its tokens become the old tokens plus exactly one `{google, accessToken}` at the end; its email is unchanged; no other row changes; the outcome is `Linked` with the linked message |
| GoogleAuth.LinkMergesProfile | server/config/passport/google.js:36-38 | on linking, a truthy name, gender or picture is kept; a missing or empty one is replaced by the Google value |
| GoogleAuth.ReturningUserSignsIn | server/config/passport/google.js:48-49 | with no session user, when Google ids are unique, the row holding the Google id is signed in and the table is unchanged |
| GoogleAuth.EmailConflictRejects | server/config/passport/google.js:50-52 | with no session user and no Google match, a first email that some row already uses is rejected with the "already an account using this email" message, and nothing is created |
| GoogleAuth.CreatesOneUser | server/config/passport/google.js:54-62 | with no session user, no Google match and no email match, exactly one row is added at the end, all old rows are kept, the new row has `email = emails[0]`, `google = profile.id` and the profile's name, gender and picture, and it is the user returned |
| GoogleAuth.LookupFailureRejects | server/config/passport/google.js:69-73 | a failing Google-id lookup (this also covers lines 44-45), or a failing email lookup after no Google match, gives the "Something went wrong" rejection and leaves the table unchanged |
| GoogleAuth.OnlyLinkOrCreateWrites | server/config/passport/google.js:27-75 | the table changes only on a `Linked` or `Created` outcome; linking changes only the linked row, and creating only appends |
| GoogleAuth.PreservesUniqueGoogle | server/config/passport/google.js:29-57 | if no two rows share a Google id before the request, none do after it, whatever branch is taken |
| GoogleAuth.PreservesUniqueEmail | server/config/passport/google.js:50-57 | if no two rows share an email before the request, none do after it |
| WebpackConfig.IsProd | webpack/webpack.config.js:21 | no contract of its own: `NODE_ENV === 'production'`; see ProductionBuildsBoth, DevelopmentBuildsOne and EveryConfigHasEnvironment |
| WebpackConfig.EnvOrDefault | webpack/webpack.config.js:20 | no contract of its own: the `env = ''` default for an omitted argument; see DefaultEnvIsServerRender and BrowserRenderIffContains |
| WebpackConfig.OccursAt | webpack/webpack.config.js:22 | no contract of its own: the substring occurs at a position; see IndexOfFrom |
| WebpackConfig.Contains | webpack/webpack.config.js:22 | no contract of its own: the substring occurs somewhere, the reference definition for `indexOf(...) >= 0`; see BrowserRenderIffContains |
| WebpackConfig.IndexOf | webpack/webpack.config.js:22 | no contract of its own: `s.indexOf(sub)` as IndexOfFrom from position 0; see IndexOfFrom and BrowserRenderIffContains |
| WebpackConfig.IndexOfFrom | webpack/webpack.config.js:22 | `indexOf` gives the first occurrence of the substring at or after the start, and -1 exactly when there is none |
| WebpackConfig.BrowserRender | webpack/webpack.config.js:22 | no contract of its own: `env.indexOf('browser') >= 0`; see BrowserRenderIffContains, DefaultEnvIsServerRender and BrowserAnywhere |
| WebpackConfig.BrowserRenderIffContains | webpack/webpack.config.js:20-22 | browser rendering is selected exactly when the env string, defaulting to `''`, contains `browser` |
| WebpackConfig.DefaultEnvIsServerRender | webpack/webpack.config.js:20-22 | without an env string, server rendering is selected |
| WebpackConfig.BrowserAnywhere | webpack/webpack.config.js:22 | `browser` anywhere in the env string selects browser rendering |
| WebpackConfig.WithoutBin | webpack/webpack.config.js:26 | the filtered listing holds exactly the entries other than `.bin` |
| WebpackConfig.AssignAll | webpack/webpack.config.js:27 | no contract of its own: the `reduce` step; see AssignAllKeys and AssignAllValues |
| WebpackConfig.AssignAllKeys | webpack/webpack.config.js:27 | after the fold, a key is present exactly when it was in the accumulator or among the names |
| WebpackConfig.AssignAllValues | webpack/webpack.config.js:27 | when every accumulator entry maps a name to `commonjs <name>`, so does every entry after the fold |
| WebpackConfig.Externals | webpack/webpack.config.js:25-27 | no contract of its own: filter then reduce; see ExternalsExact |
| WebpackConfig.ExternalsExact | webpack/webpack.config.js:25-27 | `externals` has exactly the listed entries other than `.bin` as keys, and maps each to `commonjs <name>` |
| WebpackConfig.WebpackPlugins | webpack/webpack.config.js:29-68 | all four cases are covered, so the trailing `[]` is unreachable; `EnvironmentPlugin(['NODE_ENV'])` is always present; `UglifyJsPlugin` is present exactly in production; hot module replacement exactly for development in the browser; the banner and the `vertx` ignore plugin exactly for server bundles |
| WebpackConfig.Rules | webpack/webpack.config.js:93-106 | no contract of its own: the `module.rules` list (also at lines 121-134, 153-166 and 184-197), whose rule builders receive `isProd` and the bundle's browser flag; see ProductionRulesSeeIsProd |
| WebpackConfig.ProductionRulesSeeIsProd | webpack/webpack.config.js:93-106 | every returned configuration's rules are the JavaScript, CSS and image rules, built with `isProd` (whether `NODE_ENV` is `production`) and with the browser flag set exactly for the bundles that do not target node |
| WebpackConfig.ProdServerRender | webpack/webpack.config.js:80-109 | no contract of its own: the production server config; see BundleShapes and EveryConfigHasEnvironment |
| WebpackConfig.ProdBrowserRender | webpack/webpack.config.js:110-137 | no contract of its own: the production browser config; see BundleShapes and EveryConfigHasEnvironment |
| WebpackConfig.DevBrowserRender | webpack/webpack.config.js:143-169 | no contract of its own: the development browser config; see BundleShapes and HotReloadOnlyInDevBrowser |
| WebpackConfig.DevServerRender | webpack/webpack.config.js:171-200 | no contract of its own: the development server config; see BundleShapes |
| WebpackConfig.Configure | webpack/webpack.config.js:20-208 | no contract of its own: the exported function; see ProductionBuildsBoth, DevelopmentBuildsOne, EveryConfigHasEnvironment and HotReloadOnlyInDevBrowser |
| WebpackConfig.ProductionBuildsBoth | webpack/webpack.config.js:202-204 | in production the result is the two-element list, production browser config first and production server config second, whatever the env string |
| WebpackConfig.DevelopmentBuildsOne | webpack/webpack.config.js:203-204 | outside production the result is one config: the development browser config if the env string contains `browser`, else the development server config |
| WebpackConfig.EveryConfigHasEnvironment | webpack/webpack.config.js:108-199 | every returned config loads `NODE_ENV`, and is minified exactly when `NODE_ENV` is `production` |
| WebpackConfig.HotReloadOnlyInDevBrowser | webpack/webpack.config.js:40-46 | the result is a single config with hot module replacement exactly outside production with browser rendering |
| WebpackConfig.BundleShapes | webpack/webpack.config.js:80-200 | both server configs target `node`, carry the externals and build `commonjs2`; their output names are `[name].js` for production and `[name].dev.js` for development; the development browser entry is `./client` followed by the hot-middleware client; the browser configs set no target |
| Js.Truthy | server/config/passport/google.js:36-38 | no contract of its own: JavaScript truthiness of an optional string (`undefined`, `null`, `""` falsy); see LinkMergesProfile and BaseURLRoundTrip |
| Js.Or | server/config/passport/google.js:36-38 | no contract of its own: JavaScript `or` on optional strings: `a` when truthy, else `b`; see LinkMergesProfile |
| Js.OrElse | app/clients/backend.js:3 | no contract of its own: JavaScript `or` with a string literal as fallback; see BaseURLRoundTrip |
| Backend.Host | app/clients/backend.js:3 | no contract of its own: `HOSTNAME`, or `"localhost"` when unset or empty; see BaseURLRoundTrip |
| Backend.Port | app/clients/backend.js:3 | no contract of its own: `PORT`, or `"3000"` when unset or empty; see BaseURLRoundTrip |
| Backend.BaseURL | app/clients/backend.js:3 | no contract of its own: the template string; see BaseURLRoundTrip and ParseBaseURL |
| Backend.MakeBackend | app/clients/backend.js:1-7 | the response type is always `json`, the options are empty, and the base URL is `BaseURL(HOSTNAME, PORT)`, which starts with `http://` (so BaseURLRoundTrip applies to the exported object) |
| Backend.ParseBaseURL | app/clients/backend.js:3 | a parsed `http://host:port` URL rebuilds exactly the string it was read from |
| Backend.LastColonBelow | app/clients/backend.js:3 | the last `:` below a position, or -1 exactly when there is none; used to read the template back |
| Backend.LastColon | app/clients/backend.js:3 | no contract of its own: the last `:` of a string; see LastColonAt and LastColonOfJoin |
| Backend.LastColonAt | app/clients/backend.js:3 | a `:` with none after it is the last one |
| Backend.LastColonOfJoin | app/clients/backend.js:3 | in `host + ":" + port` with no `:` in the port, the last `:` is the one the template inserts |
| Backend.BaseURLRoundTrip | app/clients/backend.js:3 | the base URL's host is `HOSTNAME` when set and non-empty, otherwise `localhost`; its port is `PORT` when set and non-empty, otherwise `3000` (for a port without `:`) |

## Left out

- Constructing Passport's `GoogleStrategy` and reading `secrets` (server/config/passport/google.js:1-3, 23-26) are left out. They are library and configuration code; only the verify callback is modelled.
- The ORM's promise and callback plumbing, its query generation and its connection pool are left out. Lookups and writes are synchronous operations on the table, and failures are the `Faults` parameter.
- Concurrent requests are left out. The uniqueness checks are not transactional, so two racing requests could both pass a lookup. The model handles one request at a time.
- The `refreshToken` argument is left out, because the callback never uses it.
- The commented-out token code at server/config/passport/google.js:66-67 is left out, since it is not behaviour.
- `fs.readdirSync` and `console.log` (webpack/webpack.config.js:23, 25) are I/O. The listing is passed in, and logging is dropped.
- The behaviour of webpack itself and of its plugin objects is left out. Plugins are tags.
- `./paths` and `./rules/{image,javascript,css}` are not part of this model. They appear as the opaque tags `PathRef` and `Rule`.
- `process.env` access is left out. The values are parameters.
- A `null` env argument is not modelled. The `env = ''` default only applies to an omitted argument, and `null.indexOf` would throw.
- Object key order and the JavaScript object identity of `resolve` and `externals`, which the configs share, are not modelled. Configurations are values.
- `app/actions/__tests__/users-test.js` is left out. The action creators it tests are not part of this model.
- Backend.BaseURLRoundTrip: the round trip is stated only for a `PORT` without `:`. With a colon in the port, splitting at the last `:` cannot tell host from port.

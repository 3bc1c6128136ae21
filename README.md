# Mock OpenID Connect provider: identity backend

A Dafny model of the identity backend of a mock OpenID Connect provider.
The model has four parts:

- **Account directory** (`accounts.dfy`, module `Accounts`). An in-memory store of
  `MockAccount` objects keyed by account id. It offers:
  - insert or overwrite by id;
  - lookup by id;
  - a first-match scan by username;
  - the credential check;
  - a shallow partial profile update;
  - the `claims()` projection: `sub` set to the account id (the `sub` claim of
    section 5.1 of OpenID Connect Core 1.0), password removed;
  - the all-or-nothing initial load.

  The module-level `accounts` record of src/accounts.ts is a `Directory` class holding
  `map<string, MockAccount>` and the enumeration order of the ids.
  `Directory.Valid()` says three things: ids enumerate without repetition;
  exactly the stored ids enumerate; each entry's `accountId` is its key, so no
  two entries share an object. `Store` is the directory as a value. Its
  functions define what each lookup means, and the `Directory` methods are
  proved against them.
- **Interaction resolver** (`routes.dfy`, module `Routes`). The decision logic
  of the `login` and `select_account` prompts (prompt values of section
  3.1.2.1 of OpenID Connect Core 1.0). Each of the two handlers is a pure
  function to an `Outcome`: `Finished`, `Rendered` or `NoResponse`. The
  three user-management handlers are methods on the `Directory` that return a
  status and a JSON body.
- **Input schemas** (`types.dfy`, module `Types`). The profile, partial
  profile, initial-users and login schemas act on a `Json` value. Each gives
  `Some(typed value)` or `None`, and unknown keys are stripped. The module also
  holds the `REDIRECT_URIS` transform (split on newline, trim, drop empty),
  built on `Split` and `Trim` definitions that are proved correct, and the
  defaults of the environment schema.
- **Provider rules** (`config.dfy`, module `Config`):
  - the `select_account_prompt` check;
  - the engine's `findAccount` callback;
  - `loadExistingGrant`. This picks the grant id, extends an existing grant's
    `exp` up to the session's and never shortens it, or builds a fresh grant
    with scope `openid email profile`. The grant is a small `Grant` class.

Facts about the code that the model keeps:

- Initial-user records carry the account id in `sub`.
- Profile strings and `roles` may be empty.
- A comma does not split `REDIRECT_URIS`.
- Duplicate usernames are allowed, and lookup by username takes the first in
  enumeration order.

When the users file cannot be parsed, the code reports the prefix
`Failed to parse users JSON: ` twice. The model keeps that message as it is.
`USER_MANAGEMENT_ENABLED` is parsed, but no handler reads it.

## Model

| member | source | states |
|---|---|---|
| `Types.ParseUserProfile` | src/types.ts:28-35 | Succeeds exactly on objects with all six fields correctly typed. Strings may be empty. The result serialises to the input restricted to the six profile keys. |
| `Types.ProfileRoundTrip` | src/types.ts:28-36 | Validating a serialised profile gives back the same profile. |
| `Types.ParsePartialProfile` | src/routes.ts:98 | Accepts any subset of the six fields, each correctly typed. Keeps exactly the supplied profile keys. |
| `Types.Merge` | src/accounts.ts:24-26 | The merged profile serialises to `{...old, ...partial}`: a right-biased union of the old profile and the supplied fields. |
| `Types.MergeFromBody` | src/accounts.ts:24-26 | After an update from a valid body, each profile key has the body's value if the body has that key, and the old value otherwise. |
| `Types.MergeIdempotent` | src/accounts.ts:25 | Applying the same partial update twice equals applying it once. |
| `Types.ParseUserRecord` | src/types.ts:38 | A record is a full profile plus a required string `sub`. `sub` is the record's id, and the profile keeps only the six profile keys. |
| `Types.ParseUserRecords` | src/types.ts:38 | The list validates exactly when every element does. Then the result has one record per element, in order. |
| `Types.ParseInitialUsers` | src/types.ts:38 | Succeeds exactly on an array every element of which is a valid record. Then element `i` of the result is the record parsed from item `i`. |
| `Types.OneBadRecordRejectsAll` | src/accounts.ts:106-109 | A single record that is not an object, lacks or mistypes any profile field, or lacks `sub` rejects the whole list. |
| `Types.ParseLogin` | src/types.ts:40-43 | Succeeds exactly when `login` and `password` are both present, both strings and both non-empty. The result carries those values. |
| `Types.Trim` | src/types.ts:15 | The result is a slice of the input with only whitespace outside it. It neither starts nor ends with whitespace. It is empty exactly when the input is all whitespace. |
| `Types.TrimIdempotent` | src/types.ts:15 | Trimming twice equals trimming once. |
| `Types.Split` | src/types.ts:14 | Gives at least one piece. No piece contains the separator. |
| `Types.JoinSplit` | src/types.ts:14 | Joining the pieces with the separator gives back the input, so nothing is lost or reordered. |
| `Types.SplitJoin` | src/types.ts:14 | Splitting a join of separator-free pieces gives back the pieces. |
| `Types.DropEmpty` | src/types.ts:16 | No kept element is empty, and the result is never longer than the input. |
| `Types.DropEmptyMembers` | src/types.ts:16 | The kept elements are exactly the non-empty ones. |
| `Types.DropEmptyAppend` | src/types.ts:16 | Filtering distributes over concatenation, so kept elements stay in order and keep their multiplicity. |
| `Types.DropEmptySingleton` | src/types.ts:16 | A single element is kept exactly when it is non-empty. |
| `Types.RedirectUrisFromString` | src/types.ts:11-19 | Every element is trimmed. When the input has a newline, no element is empty. |
| `Types.RedirectUrisAreNonBlankLines` | src/types.ts:12-17 | With a newline, a value is in the result exactly when it is the trimmed form of a non-blank line. |
| `Types.RedirectUrisOfLines` | src/types.ts:11-17 | A value made of two or more newline-free lines gives exactly those lines, in order, each trimmed, with the empty ones dropped. |
| `Types.RedirectUrisWithoutNewline` | src/types.ts:18 | Without a newline, the result is the single trimmed string. Commas do not split it. |
| `Types.RedirectUris` | src/types.ts:9-22 | A string goes through the transform. A list of strings passes through unchanged. Anything else is rejected. The result is accepted only when every element is a URL. |
| `Types.ParseEnv` | src/types.ts:3-25 | Succeeds exactly when every variable meets its schema (`IsValidEnv`). An absent `NODE_ENV` gives `development`, an absent `PORT` gives 3000, an absent `INITIAL_USERS_FILE` gives `./store/users.json`, and an absent `USER_MANAGEMENT_ENABLED` gives true. A present variable gives its own value, coerced for `PORT` and `USER_MANAGEMENT_ENABLED`. `NODE_ENV` is one of three values. The issuer and every redirect URI are URLs. |
| `Types.EnvDefaultsNeverFail` | src/types.ts:4-24 | Removing a defaulted variable from an accepted environment still parses, with the default in that field and every other field unchanged. |
| `Accounts.Store.Insert` | src/accounts.ts:18-22 | Keeps the directory invariant. Overwriting an existing id keeps that id's position. |
| `Accounts.FindAfterInsert` | src/accounts.ts:42-47 | After insert, lookup of the id gives exactly the inserted profile (last write wins). Every other id is unaffected. |
| `Accounts.Store.FirstMatchFrom` | src/accounts.ts:50 | Returns the least position at or after `i` whose username matches, or none if no position matches. |
| `Accounts.Store.FindByLogin` | src/accounts.ts:49-55 | Succeeds exactly when some account has that username. It returns the first such account in enumeration order, with its stored profile. Otherwise it returns the not-found message. |
| `Accounts.FindByLoginEmpty` | src/accounts.ts:49-55 | An empty directory finds no account for any username. |
| `Accounts.Store.ValidateCredentials` | src/accounts.ts:57-69 | Succeeds exactly when the first username match has exactly this password, and then returns the `findByLogin` account. Every failure gives the same error. |
| `Accounts.OnlyFirstMatchIsChecked` | src/accounts.ts:64-65 | A wrong password on the first match fails, even if a later account with that username has the given password. |
| `Accounts.Store.Update` | src/accounts.ts:71-81 | Ids and order are unchanged, and every other account is unchanged. The updated profile is the spread merge. |
| `Accounts.Store.CreateAll` | src/accounts.ts:111 | Creating a list of records keeps the directory invariant. |
| `Accounts.CreateAllLastWins` | src/accounts.ts:111 | An id in the list ends up with the profile of its last record. An id not in the list is looked up as before. |
| `Accounts.CreateAllExtendsOrder` | src/accounts.ts:111 | Bulk creation only appends ids. Ids already present keep their positions. |
| `Accounts.MockAccount.constructor` | src/accounts.ts:18-20 | The new account has the given id and profile. |
| `Accounts.MockAccount.UpdateProfile` | src/accounts.ts:24-26 | The profile becomes `{...old, ...partial}`. |
| `Accounts.MockAccount.Claims` | src/accounts.ts:28-34 | The claims have no `password`. `sub` is the account id. The keys are the other five profile fields plus `sub`, and those fields are copied unchanged. |
| `Accounts.AccountToJson` | src/routes.ts:131-134 | The JSON sent for an account holds its id and its full profile, password included. The profile validates back to the stored one. |
| `Accounts.Directory.constructor` | src/accounts.ts:9 | The directory starts empty. |
| `Accounts.Directory.CreateMockAccount` | src/accounts.ts:18-40 | `sub` becomes the id, and the profile is stored without it. The new account is stored under that id, overwriting any old one. The directory's value becomes `Insert` of the old value. |
| `Accounts.Directory.FindAccount` | src/accounts.ts:42-47 | Errs exactly when no entry exists for the id. Otherwise it returns the stored object. It changes nothing. |
| `Accounts.Directory.FindByLogin` | src/accounts.ts:49-55 | The scan returns the object of `Store.FindByLogin`, or its error. |
| `Accounts.Directory.ValidateCredentials` | src/accounts.ts:57-69 | Returns the object of `Store.ValidateCredentials`, or its error. |
| `Accounts.Directory.UpdateUser` | src/accounts.ts:71-81 | On a stored id, merges into that account only. On an unknown id, errs and changes nothing. The directory's value becomes `Store.Update` of the old one. |
| `Accounts.Directory.CreateAllAccounts` | src/accounts.ts:111 | Creates every record in list order. The directory's value becomes `Store.CreateAll` of the old one. |
| `Accounts.Directory.LoadInitialUsers` | src/accounts.ts:83-112 | A missing, unreadable or unparseable file, or an invalid list, gives a fatal result with the source's message, and no account is created. Otherwise every record is created in list order. |
| `Routes.ShowInteraction` | src/routes.ts:19-54 | `select_account` with a session account is finished with that account, without merging. `login`, or `select_account` without a session account, renders the sign-in view with client, uid, details and params. Any other prompt gets no response from this handler: nothing is rendered and nothing is finished. |
| `Routes.SubmitLogin` | src/routes.ts:56-94 | Finishes exactly when the prompt is `login`, the payload is valid and the first username match has that password. It then finishes with `{login: accountId}` and no merging. Every other case renders the error view. |
| `Routes.FinishedLoginNamesStoredAccount` | src/routes.ts:70-86 | A finished login names a stored account with the submitted username and password. |
| `Routes.SelectAccountFormNeverFinishes` | src/routes.ts:40-68 | A `select_account` prompt without a session account renders the form, but no submission of it can finish the interaction. |
| `Routes.PutUser` | src/routes.ts:96-113 | An empty `sub` or an invalid body gives 400 and no change. An unknown id gives 404 and no change. Otherwise 200, and the supplied fields are merged. |
| `Routes.PostUser` | src/routes.ts:115-126 | A valid profile is stored under its username and gives 200. An invalid body gives 400 and no change. |
| `Routes.GetUser` | src/routes.ts:128-139 | Gives 200 with the first account of that username, password included, or 404. |
| `Config.FindAccountCallback` | src/config.ts:91-94 | Returns the stored account for a known id, whose `sub` claim is that id. Otherwise it returns null (`undefined`). |
| `Config.Grant.constructor` | src/config.ts:82-85 | A new grant for the given client and account, with no expiry, no scopes and not saved. |
| `Config.Grant.AddOidcScope` | src/config.ts:87 | Appends the scope string and changes nothing else. |
| `Config.Grant.Save` | src/config.ts:88 | Records one more save and changes nothing else. |
| `Config.ChooseGrantId` | src/config.ts:61-63 | Takes the consent's grant id if non-empty, else the session's grant for the client. It never gives an empty id. |
| `Config.ExtendedExp` | src/config.ts:68-75 | The expiry changes exactly when an account is present, both expiries are non-zero and the grant's is earlier. It then becomes the session's expiry. It never decreases. |
| `Config.ExtendedExpIdempotent` | src/config.ts:68-75 | Applying the extension rule twice equals applying it once. |
| `Config.LoadExistingGrant` | src/config.ts:60-90 | With a grant id: the stored grant (or none), its expiry extended and saved exactly when the expiry changed, and nothing else touched. Without one: a fresh grant for the client and session account, scope `openid email profile`, saved once. |

## Left out

- The `select_account_prompt` check (src/config.ts:16-24) is modelled as the definition `Config.SelectAccountPromptCheck`: it holds when `select_account` is both listed and pending. There is nothing further to prove about it.
- Reading the users file and `JSON.parse` are inputs to the model: `UsersSource` is a missing file, a read failure, a parse failure or a parsed value. `exit` is the `Fatal` result; the `utils` module that defines it is not part of this model.
- Accounts.Directory.LoadInitialUsers: for an invalid list, the model's fatal message is only the prefix `Invalid users data format: `. The schema library's error text is not modelled.
- The schema library itself is not modelled. URL validity, `z.coerce.number` and `z.stringbool` are function parameters of `ParseEnv` and `RedirectUris`. Numbers are integers.
- Lengths of JavaScript strings count UTF-16 code units, while Dafny strings are sequences of Unicode scalar values. This only matters for the `min(1)` login rule, and non-emptiness is the same either way.
- The JavaScript object behind the directory is simplified. Inherited prototype keys (such as `toString`) and the rule that integer-like keys enumerate first are not modelled. Enumeration order is insertion order, and an overwritten id keeps its position.
- oidc-provider internals are inputs: `interactionDetails` (the `Interaction` value), `interactionFinished` (the `Finished` outcome), `Client.find` (the `client` input), `Grant.find` (the `grants` map), and the session and its `grantIdFor`. Also out: how `Grant.save` persists (only counted), how `addOIDCScope` splits scopes, cookies, PKCE, the claims and scopes tables, and the interaction policy wiring.
- View templates, `res.render` contents, `setNoCache`, the `/health` route and `async`/`await` sequencing are not modelled.
- `src/index.ts` and `src/env.ts` are out: app setup, listening, signal shutdown, `dotenv` and process exit on a bad environment.

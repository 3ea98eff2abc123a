# User session store — a Dafny model

This project models the user session store of a Vue front end
(`src/stores/user.ts`). The store holds the signed-in user's profile
(`userInfo`, possibly absent) and an access token, and mirrors both into the
browser's `localStorage` under the keys `"userInfo"` (the profile as JSON text)
and `"token"` (the token verbatim). It has three mutators, `setUserInfo`,
`clearUserInfo` and `initUserInfo` (restore from storage at start-up), and three
derived views, `isLoggedIn`, `userAvatar` and `userName`. It is a two-state
machine: logged out (no profile) and logged in (a profile is present).

Layout:

- `wrappers.dfy` — `Option`, standing for JavaScript's `undefined`/`null`.
- `profile.dfy` — the `UserInfo` record and JavaScript truthiness of an optional string (`IsTruthy`: absent and `""` are falsy).
- `profile_json.dfy` — `JSON.stringify` and `JSON.parse` on profiles (`Serialize`, `Parse`), with the proof that parsing a serialized profile gives it back.
- `local_storage.dfy` — `localStorage` as a class whose table (`items`) is updated in place by `SetItem` and `RemoveItem`.
- `user_store.dfy` — the views, the mutators as functions on a `Snapshot` (in-memory fields plus storage table), the `Store` class whose methods are proved to implement those functions, and the properties of the session.

`JSON.stringify` and `JSON.parse` are foreign calls. They are given concrete
definitions on the part of JSON that profiles use: an object whose members are
the four profile fields, strings with JSON escaping (`\"`, `\\`, `\b`, `\f`,
`\n`, `\r`, `\t`, `\u00xx` for other control characters; `Parse` also reads
any `\u` escape and a UTF-16 surrogate pair written as two escapes), integer
ids, and `null`. The round trip `Parse(Serialize(u)) == Parsed(Some(u))` is then proved
rather than assumed. A page reload is modelled as a new `Store` over the same
`LocalStorage` object: it starts logged out with an empty token.

Points where the code's own behaviour shapes the model:

- `setUserInfo` does not check its token (src/stores/user.ts:22-28), so `AfterSetUserInfo` accepts any token, the empty one included.
- `savedUserInfo && savedToken` (src/stores/user.ts:55) treats an empty string like a missing entry, and so does `HasSavedSession`.
- `userName || userAccount` (src/stores/user.ts:48) is `undefined` when both are absent, so `UserName` returns `Option<string>`.

## Model

| member | source | states |
|---|---|---|
| `UserStore.IsLoggedIn` | src/stores/user.ts:17 | `!!userInfo.value`: logged in exactly when a profile object is held, since every object is truthy |
| `UserStore.LoggedInIffAvatarShown` | src/stores/user.ts:17-49 | the avatar view is non-empty exactly when logged in, and a logged-out store shows the name `""` |
| `UserStore.UserAvatar` | src/stores/user.ts:40-43 | the avatar is `""` exactly when logged out; when logged in it is the profile's avatar or the fallback URL, and a present non-empty avatar always wins |
| `UserStore.UserName` | src/stores/user.ts:46-49 | `""` when logged out; otherwise the display name if non-empty, else the account name; absent exactly when logged in with no non-empty display name and no account name; non-empty exactly when one of the two is non-empty |
| `UserStore.AfterSetUserInfo` | src/stores/user.ts:22-28 | the profile and token become the given ones, storage holds the serialized profile and the token under their keys, and every other key is unchanged |
| `UserStore.AfterClearUserInfo` | src/stores/user.ts:31-37 | the profile is absent, the token is `""`, both keys are gone from storage, every other key is unchanged |
| `UserStore.HasSavedSession` | src/stores/user.ts:53-55 | the restore gate holds exactly when both keys are bound in storage to non-empty strings |
| `UserStore.AfterInitUserInfo` | src/stores/user.ts:52-64 | with either entry missing or empty nothing changes; with both present a parse failure gives the cleared state, a successful parse sets the profile to the parsed value and the token to the stored one and leaves storage as it was |
| `UserStore.Store.constructor` | src/stores/user.ts:15-19 | a new store has no profile and an empty token, over the given storage |
| `UserStore.Store.SetUserInfo` | src/stores/user.ts:22-28 | the new in-memory fields and storage table are those of `AfterSetUserInfo` on the old ones |
| `UserStore.Store.ClearUserInfo` | src/stores/user.ts:31-37 | the new in-memory fields and storage table are those of `AfterClearUserInfo` on the old ones |
| `UserStore.Store.InitUserInfo` | src/stores/user.ts:52-64 | the new in-memory fields and storage table are those of `AfterInitUserInfo` on the old ones |
| `UserStore.SetUserInfoLogsIn` | src/stores/user.ts:17-49 | after `setUserInfo` the store is logged in and the avatar and name views are computed from the new profile with their fallbacks |
| `UserStore.ClearUserInfoLogsOut` | src/stores/user.ts:17-49 | after `clearUserInfo` the store is logged out, the avatar is `""` and the name is `""` |
| `UserStore.ClearUserInfoIdempotent` | src/stores/user.ts:31-37 | clearing twice gives the same state as clearing once |
| `UserStore.InitUserInfoIdempotent` | src/stores/user.ts:52-64 | a second `initUserInfo` over the same storage changes nothing |
| `UserStore.InitUserInfoLogsInOnlyFromStorage` | src/stores/user.ts:52-64 | `initUserInfo` moves a logged-out store to logged in only by parsing a stored profile object, and it changes storage only by removing both keys |
| `UserStore.ReloadRestoresSession` | src/stores/user.ts:22-58 | after `setUserInfo(u, t)` with `t` non-empty, a reloaded store that runs `initUserInfo` holds exactly `u` and `t` with storage unchanged, and a further `initUserInfo` changes nothing |
| `UserStore.ReloadAfterClearStaysLoggedOut` | src/stores/user.ts:31-64 | after `clearUserInfo`, a reloaded store that runs `initUserInfo` stays logged out with an empty token |
| `UserStore.StoredNullProfileKeepsToken` | src/stores/user.ts:52-58 | a stored profile text `null` with a stored token restores a logged-out store that holds the token: profile and token presence are not tied together |
| `ProfileJson.Serialize` | src/stores/user.ts:26 | the stored profile text is at least two characters long, opens with `{` and closes with `}`; that it reads back as the profile is `ParseSerialize` |
| `ProfileJson.Parse` | src/stores/user.ts:57 | `null` is the only text read as a null profile, and a text read as a profile starts with `{`; that it reads back every stored profile is `ParseSerialize` |
| `ProfileJson.ParseSerialize` | src/stores/user.ts:26-57 | parsing the text written for a profile gives back exactly that profile |
| `ProfileJson.SerializeInjective` | src/stores/user.ts:26 | distinct profiles are stored as distinct texts |
| `ProfileJson.StringRoundTrip` | src/stores/user.ts:26-57 | an escaped string followed by its closing quote reads back as the same string, leaving the text after the quote |
| `ProfileJson.SurrogatePairRoundTrip` | src/stores/user.ts:57 | a character beyond the Basic Multilingual Plane written as the `\u` escapes of its UTF-16 surrogate pair reads back as that one character |
| `ProfileJson.IntRoundTrip` | src/stores/user.ts:26-57 | a decimal id followed by a non-digit reads back as the same integer |
| `ProfileJson.ObjectRoundTrip` | src/stores/user.ts:26-57 | an object text built from any list of encoded members reads back as the empty profile with those members assigned in order |
| `ProfileJson.MembersRoundTrip` | src/stores/user.ts:26-57 | a comma-separated list of encoded members closed by `}` reads back as the same members assigned left to right |
| `BrowserStorage.LocalStorage.SetItem` | src/stores/user.ts:26-27 | the key is bound to the value and every other entry is unchanged |
| `BrowserStorage.LocalStorage.RemoveItem` | src/stores/user.ts:35-36 | the key is unbound and every other entry is unchanged |
| `BrowserStorage.Lookup` | src/stores/user.ts:53-54 | `getItem` gives the stored string exactly when the key is bound, and nothing (`null`) otherwise |

## Left out

- `src/request.ts`: configuration of an external HTTP client (base URL, a 10-second timeout, credentials) and interceptors that pass requests, responses and errors through unchanged; it has no logic of its own.
- Vue and Pinia reactivity (`ref`, `computed`, `defineStore`): the state is plain fields and the computed views are functions of the profile.
- The open-ended profile members (`[key: string]: any`): no code reads them; `Parse` rejects a stored object that has them.
- `ProfileJson.Parse`: accepts only `null` and objects of profile fields with string or `null` values (integer or `null` for `id`) and no whitespace. `JSON.parse` also accepts whitespace, other keys, other value types, fractions and exponents, and texts that are numbers, strings, booleans or arrays; the source would then store such a value as the profile, while the model treats it as a parse failure and clears the session.
- `ProfileJson.Serialize`: writes the present fields in declaration order and omits absent ones. `JSON.stringify` follows the object's insertion order and writes a field set to `null` as `null`; the model does not distinguish `null` from `undefined` in a profile.
- Profile ids are unbounded integers; JavaScript numbers are doubles, so fractional ids, `NaN`, and ids written in exponent form are not modelled.
- Strings are sequences of Unicode scalar values; JavaScript strings are UTF-16 code units, so lone surrogates are not modelled: `Parse` rejects a `\u` escape of a high surrogate not followed by an escaped low one, and of a low surrogate on its own, which `JSON.parse` accepts. A surrogate pair written as two escapes is decoded to its character.
- `setUserInfo` keeps a reference to the caller's profile object (`userInfo.value = user`, src/stores/user.ts:23): a later change to that object shows in the store's views but not in the stored text. `UserInfo` is a value, so the model does not capture this aliasing.
- The `console.error` call when parsing fails, exceptions thrown by storage writes (quota), and changes made to `localStorage` by other tabs.

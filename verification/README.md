# Profile sync upsert — a Dafny model

This project models the `POST /api/sync-user` handler of the dance-video web
front-end. After a user signs in with the identity provider, the handler
receives the user's claims `{ sub, email, name?, picture? }`. It rejects a
payload without a subject or an email (400). It looks up the profile stored
under `sub`. It creates the profile when there is none (`created`), and
otherwise refreshes only the display fields (`updated`). Any failure inside
its `try` block becomes a 500 `Failed to sync user profile` response with
details, and nothing is retried.

With the database client taken out, the handler is a pure transition:

    Sync(store, request, now, db) -> Reply(response, store')

- `store` is the profile collection. It is a `map<string, Profile>` keyed by
  `auth0Id`, and its type requires every profile to be filed under its own
  `auth0Id`. So a subject can have at most one profile.
- `findUnique` becomes a map lookup, `create` an insertion, and `update` an
  overwrite of `name`, `picture` and `updatedAt`.
- `now` stands for `new Date()`.
- `db` says how the database behaves on this call. It either answers, or the
  lookup throws, or the write throws. A write that throws writes nothing.
- JavaScript truthiness is explicit. A claim is `Option<string>`, where `None`
  is `undefined` or `null`. A claim is truthy when it is a non-empty string,
  and `a || b` is `Js.Or`.

Modules, one per file:

- `Wrappers` (`wrappers.dfy`): `Option`.
- `Js` (`js.dfy`): truthiness and `||`.
- `Profiles` (`profiles.dfy`): the `Profile` record, the `Store`, and what a
  valid store is.
- `SyncUser` (`sync_user.dfy`): the request, the response and `Sync`.
- `SyncRuns` (`sync_runs.dfy`): sequences of calls. It shows what every run
  preserves and how repeating one payload settles.

Three behaviours of the handler are easy to miss:

- On creation, the handler writes neither `createdAt` nor `updatedAt`
  (route.ts:40-47). Their values come from schema defaults that are not part
  of this model, so they are the abstract `Stamp.SchemaDefault`.
- A non-JSON body and the JSON literal `null` both give a 500. The first
  makes `request.json()` throw (route.ts:10). The second makes
  `const { user } = body` throw a `TypeError` (route.ts:13).
- An empty-string `sub` or `email` is rejected like a missing one
  (route.ts:15). An empty-string `name` or `picture` falls back like a
  missing one (route.ts:44-45, 61-62).

## Model

| member | source | states |
|---|---|---|
| Js.Or | main/app/api/sync-user/route.ts:44-45 | JavaScript's logical or returns one of its operands. The result is truthy exactly when either operand is. When `a` is truthy, the result is `a`; otherwise it is `b`. |
| Profiles.ProfilesOf | main/app/api/sync-user/route.ts:28-30 | Looking a subject up finds at most one profile: the one filed under that subject, or none. |
| SyncUser.ValidUser | main/app/api/sync-user/route.ts:15-18 | A user that passes the guard has a present, non-empty `sub` and `email`, and is enough for the create branch: its claims yield a valid profile. |
| SyncUser.ValidRequest | main/app/api/sync-user/route.ts:10-18 | A request that parsed, is not `null` and passes the guard has a present, non-empty `sub` and `email`, and carries everything a valid new profile needs. |
| SyncUser.NewProfile | main/app/api/sync-user/route.ts:40-47 | For claims that passed the guard, a created profile has `auth0Id = sub` and `email = email`. Its name is the payload name when truthy, and the email otherwise. Its picture is the payload picture when truthy, and null otherwise. Its timestamps are the schema defaults. It is a valid profile. |
| SyncUser.Refreshed | main/app/api/sync-user/route.ts:58-65 | An update keeps `auth0Id`, `email` and `createdAt`. `name` and `picture` take the payload values when truthy, and keep the stored values otherwise. `updatedAt` becomes `now`. Validity is preserved. |
| SyncUser.Sync | main/app/api/sync-user/route.ts:6-86 | A 400 `Invalid user data` happens exactly when the parsed `user`, its `sub` or its `email` is missing or empty. A 500 happens exactly when the body fails to parse, the body is `null`, or a valid request meets a store failure. Its details are the message of the thrown value: the parse error, the runtime's `TypeError` for a `null` body, or the store error, or `Unknown error` when the thrown value is not an `Error` (route.ts:81). A success happens exactly when the request is valid and the store answers. On success only the entry under `sub` is written. The action is `created` exactly when `sub` was absent, and then the profile is `NewProfile`. Otherwise the action is `updated` and the profile is the refreshed stored one. Any non-success leaves the store unchanged. No profile is removed. No stored email or `createdAt` changes. The count grows by one exactly on `created`. Validity of the store is preserved. |
| SyncUser.SyncStatus | main/app/api/sync-user/route.ts:15-84 | The status is 400 with error `Invalid user data` exactly when the guard rejects the parsed user. It is 500 with error `Failed to sync user profile` exactly when the body fails to parse, is `null`, or the store fails on a valid request. It is 200 without an error exactly when the store answers a valid request. |
| SyncUser.RefreshOnlyStampsIff | main/app/api/sync-user/route.ts:58-65 | An update changes nothing but `updatedAt` if and only if the stored profile already shows every truthy display claim. |
| SyncUser.SyncedProfileIsSole | main/app/api/sync-user/route.ts:28-30 | After a successful call, the stored profile reflects the payload's truthy display claims. It is the only profile stored for the subject. |
| SyncRuns.RunInvariants | main/app/api/sync-user/route.ts:37-73 | Over any sequence of calls, no profile is deleted. Only subjects of validated calls gain profiles. The profile count grows by the number of `created` responses. The email and `createdAt` of an existing profile never change. Store validity is preserved. |
| SyncRuns.SettledResponses | main/app/api/sync-user/route.ts:55-72 | Suppose a payload is repeated while the stored profile already reflects it. Then every call answers `updated` with that profile stamped with the call's time. |
| SyncRuns.SettledStore | main/app/api/sync-user/route.ts:58-65 | Under the same conditions, the store ends as before, except that the profile's `updatedAt` is the last call's time. |
| SyncRuns.RepeatedSyncSettles | main/app/api/sync-user/route.ts:37-73 | Take any valid payload sent repeatedly while the store answers. After the first call, every later call answers `updated` with the same profile except for `updatedAt`. The keys stay the same. Every stored profile differs from the first call's state at most in `updatedAt`, and the subject's `updatedAt` is the last call's time. |
| SyncRuns.CreatedThenUpdated | main/app/api/sync-user/route.ts:37-73 | Two calls with the same valid payload for an unknown subject answer `created` and then `updated`. Both carry the same subject and email. The second store is the first one with only `updatedAt` moved. |
| SyncRuns.TwoSignInsExample | main/app/api/sync-user/route.ts:37-73 | The example subject (`auth0` provider, id `abc`) with email `a@x.com` and name `A`, signed in twice on an empty store, gives `created` then `updated`. The store is left with that single profile, keeping email `a@x.com`, name `A` and no picture. |

## Left out

- main/lib/auth0.js: the identity-provider callback. It makes one outbound HTTP request to this handler and then redirects. It is glue over an SDK that is not part of this model, and its only decision is which redirect target to use, built from environment variables.
- main/app/home/page.tsx and main/app/components/VideoRectangles.tsx: the browser UI. This covers video capture, the two remote analysis calls, blob URLs and animation. It is all I/O and rendering.
- main/app/api/test-db/route.ts: a diagnostic endpoint that connects, counts and lists profiles. It has no logic beyond the database client.
- The database client itself: connection handling, the document id column, and the schema defaults for the two timestamps. These are left abstract as `SchemaDefault`.
- Concurrency: two simultaneous first sign-ins can both miss in `findUnique` and both try `create`. Uniqueness then rests on the database's index, not on this code. The handler is modelled as sequential.
- Claim values that are truthy but not strings, such as numbers or objects. What the database client does with them depends on a schema that is not part of this model. Falsy non-string values behave like `None` and are covered.
- Logging (`console.*`), JSON serialisation of the response body, and the exact wording of runtime error messages. A parse error's message is a parameter (`Thrown`). The message for a `null` body is a constant written in the JavaScript engine's wording.
- The `Db` parameter assumes that a create or update which throws writes nothing. A write whose acknowledgement is lost after the database applied it would give a 500 with the row already written; this model does not cover that case.

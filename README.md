# TEAMe server core, modelled in Dafny

This project models the logic at the core of the TEAMe server. TEAMe is a GraphQL backend on Cloud Functions and Firestore for a team-coaching app built around PDCA cycles. Four pieces are modelled:

- **Source objects and their lazy field resolvers** (`source/schema.ts`). A parent resolver hands a child object over as a stub: an `id` and maybe some fields. Each field resolver returns the field if the object holds it. Otherwise it runs `setCycle`, `setUserData` or `setTeam`. These do one fetch and write the record into the object in place: plain fields always, relationship fields (`team`, `cycleList`, `manager`, `playerList`) only if the object did not already hold them. `parseFileHash` validates the `FileHash` scalar.
- **The document store gateway** (`source/database.ts`). This covers login-state issue and redemption, user and team projections, first-match queries by LINE user id and by access-token hash, the token-to-bytes loop feeding the hash, and the user writes.
- **HTML escaping** (`escapeHtml` in `source/index.ts`).
- **Origins and URL builders** (`source/data.ts`).

Modules:

- `Wrappers` (`wrappers.dfy`): `Option` stands for JavaScript `null`. `Result` stands for a thrown error or a rejected promise.
- `Html` (`html.dfy`): `EscapeHtml` as a per-character substitution. A reference decoder `UnescapeHtml` is its partner.
- `Data` (`data.dfy`): the `Origin` union, `OriginToString`, JavaScript's integer-to-decimal conversion, `Array.join` with a reference `Split`, and the three URL builders. A URL is the record (base text, query pairs, fragment pairs).
- `Database` (`database.dfy`): one map per collection in class `Store`. The write operations are methods that update those maps. The read operations are functions of the maps. A query's "first document" is taken in `order`, the order in which the store lists the collection. `ListsAll` requires that `order` lists every document. `accessTokenToTypedArray` is a method filling a 24-byte `array`. It is specified by `TokenBytes`, which models `Number.parseInt(·, 16)` and the `Uint8Array` store: white space, sign, `0x` prefix, longest hex prefix, NaN as 0, modulo 256. Indices count characters (code points), not UTF-16 code units; see Left out.
- `Schema` (`schema.dfy`): one class per GraphQL object type (`CycleSource`, `UserSource`, `TeamSource`). Each field is `Undefined` or `Defined(v)`, and `id` is a constant. `SetCycle`/`SetUserData`/`SetTeam` and a `Resolve` method per class change the object in place. A ghost counter records fetches. Each method is tied to a pure function of the object's `Snapshot()` (`MergeUser`, `ResolveUser`, …). Lemmas over `ResolveUserAll` and its siblings cover sequential resolution of several fields.

Inputs instead of effects. These become parameters:

- the random keys and tokens (`createRandomId`, `createAccessToken`)
- the clock (`new Date()`)
- the file hash returned by the image upload
- the result order of a query

SHA-256 is the store's constant `sha256`, an arbitrary function. Nothing is proved about it beyond its being a function.

Where the sources disagree, the model follows the code:

- The schema calls `getCycleData` and reads `goal`, `information` and `cycleList`. The `database.ts` in this repository has no `getCycleData`. Its user and team records have no such fields.
- So the schema's fetches are lookups in maps of the records the schema expects (`CycleRecord`, `UserRecord`, `TeamRecord`). A missing key is a `NotFound` failure.
- The `Database` functions model the `database.ts` in this repository.

## Model

| member | source | states |
|---|---|---|
| `Html.EscapeCharShape` | source/index.ts:70-84 | A special character becomes a reference that starts with `&` and is longer than one character. Any other character stays itself. No replacement contains `<`, `>`, `"`, `'` or a backtick. |
| `Html.EscapeHtmlTable` | source/index.ts:71-83 | `&`, `'`, backtick, `"`, `<` and `>` become `&amp;`, `&#x27;`, `&#x60;`, `&quot;`, `&lt;` and `&gt;`. |
| `Html.EscapeHtmlLength` | source/index.ts:69-84 | The output is at least as long as the input. It is exactly as long iff the input has none of the six characters. |
| `Html.EscapeHtmlSafe` | source/index.ts:69-84 | The output never contains `<`, `>`, `"`, `'` or a backtick. |
| `Html.EscapeHtmlAppend` | source/index.ts:70 | Escaping distributes over concatenation: one independent pass per character. |
| `Html.EscapeHtmlIdentity` | source/index.ts:70 | Text without any of the six characters comes back unchanged, in order. |
| `Html.EscapeHtmlNotIdempotent` | source/index.ts:69-84 | Escaping an already-escaped `<` gives `&amp;lt;`, so escaping twice is not escaping once. |
| `Html.UnescapeEscapeHtml` | source/index.ts:69-84 | Decoding the six references gives the input back. Escaping loses nothing, and the `&` it writes is not escaped again in the same call. |
| `Data.OriginToStringValues` | source/data.ts:57-71 | The release origin prints as `https://teame-c1a32.web.app`. `debugOrigin(p)` prints as `http://localhost:` followed by the decimal numeral of `p`. |
| `Data.NatToDecimalRoundTrip` | source/data.ts:69 | The port numeral is a string of digits, and reading it back gives the port. |
| `Data.NatToDecimalDigits` | source/data.ts:69 | The numeral of a natural number is non-empty and all digits. It starts with `0` only for zero, so there are no leading zeros. |
| `Data.IntToDecimalNonNegative` | source/data.ts:69 | A non-negative port prints as digits that read back as the port. It starts with `0` only for zero. |
| `Data.IntToDecimalNegative` | source/data.ts:69 | A negative port `n` prints as `-` followed by the numeral of `-n`. That numeral is all digits, reads back as `-n` and has no leading zero. |
| `Data.IntToDecimalInjective` | source/data.ts:69 | Different ports have different numerals. |
| `Data.IntToDecimalSign` | source/data.ts:69 | A numeral starts with `-` exactly when the number is negative. |
| `Data.OriginToStringInjective` | source/data.ts:64-71 | Different origins never print alike. |
| `Data.UrlFromString` | source/data.ts:4-5 | The base is `https://` followed by the argument. There are no query or fragment pairs. |
| `Data.UrlFromStringWithQuery` | source/data.ts:7-17 | The base is `https://` + domain + the path joined with `/`. The query is exactly the given entries, one per entry, in iteration order. There is no fragment. |
| `Data.QueryUrlBase` | source/data.ts:12 | Defines the base text: `https://` + domain + the path joined with `/`. |
| `Data.QueryBaseHasNoSeparator` | source/data.ts:12 | For every domain and non-empty path, the base is `https://` + domain followed directly by the first path segment. No `/` is put between them. |
| `Data.JoinStartsWithFirst` | source/data.ts:12 | The joined path starts with its first segment. |
| `Data.JoinSplitRoundTrip` | source/data.ts:12 | The joined path loses no segment when no segment contains a `/`: splitting it at `/` gives the segments back. |
| `Data.UrlFromStringWithFragment` | source/data.ts:25-33 | The pairs become the fragment and the query stays empty. The base is the origin's text followed by the path. |
| `Data.LogInRedirectUrl` | source/data.ts:25-33 | For the release origin and the pair `accessToken`, the URL is the production origin plus the path, with the token only in the fragment. |
| `Database.UserLowCostOfPreserves` | source/database.ts:270-281 | The user projection keeps the id, name, creation time, image file hash and role. `team` is null iff `teamId` is null, and otherwise refers to `teamId`. |
| `Database.PlayerRefs` | source/database.ts:465 | The player list has the length of `playerIdList`, and its entry `i` refers to `playerIdList[i]`. |
| `Database.PlayerRefsRoundTrip` | source/database.ts:465 | Reading the ids back from the player list gives `playerIdList` exactly. |
| `Database.GetUserData` | source/database.ts:412-437 | Fails with not-found iff the user document is missing. Otherwise returns the requested id and the document's fields. `team` is null iff `teamId` is null, and otherwise is `{id: teamId}`. |
| `Database.GetTeamData` | source/database.ts:439-468 | Fails with not-found iff the team document is missing. Otherwise returns the requested id, name and creation time, `manager.id = managerId`, and the players in the order of `playerIdList`. |
| `Database.FirstMatch` | source/database.ts:248-255 | Returns no position iff no listed document matches. Otherwise returns a matching position with no match before it. |
| `Database.GetUserFromLineAccountId` | source/database.ts:240-256 | With `order` listing the whole collection, returns null iff no user has this `lineUserId`. Otherwise returns a user with it, under its own key, with no match earlier in the listing order. |
| `Database.GetUserByAccessToken` | source/database.ts:258-283 | With `order` listing the whole collection, fails with invalid-token iff no user's stored hash equals the token's hash. Otherwise returns the projection of the first user whose stored hash matches. |
| `Database.TokenBytes` | source/database.ts:302-308 | The token always yields exactly 24 bytes. |
| `Database.AccessTokenToTypedArray` | source/database.ts:302-308 | The loop fills a fresh 24-element array equal to `TokenBytes`. Byte `i` is parsed from characters `i` and `i + 1`. |
| `Database.TokenBytesOfHex` | source/database.ts:305 | For lower-case hex digits, byte `i` is `16 × digit(i) + digit(i + 1)`. The windows overlap, at offset `i` rather than `2i`. |
| `Database.TokensSharingPrefixCollide` | source/database.ts:302-318 | Only the first 25 characters reach the hash. Two tokens that agree on them hash alike for any `sha256`, so each is accepted for the other. |
| `Database.Store.GenerateAndWriteLogInState` | source/database.ts:205-217 | Under a fresh key, stores `{path, createdAt}` and returns exactly that key. If the key exists, `create` fails and nothing changes. Users and teams are untouched. |
| `Database.Store.CheckExistsAndDeleteState` | source/database.ts:222-234 | If the key exists, deletes it and returns its stored path. Otherwise returns null. Either way the key is afterwards absent and nothing else changes. |
| `Database.LogInStateIsSingleUse` | source/database.ts:205-234 | After issuing a state, the first redemption returns the path and the second returns null. The state collection is then as before. |
| `Database.Store.CreateUser` | source/database.ts:351-372 | Inserts a user with null role and null team that stores the token's hash, not the token. Returns the token. `create` fails on an existing key. |
| `Database.Store.UpdateAccessToken` | source/database.ts:377-388 | Replaces only `lastIssuedAccessTokenHash`, with the hash of the new token, which is returned. Fails if the user does not exist. |
| `Database.Store.SetUserRoleAndTeamId` | source/database.ts:390-402 | Sets only `role` and `teamId`. Every other user field is kept. Fails if the user does not exist. |
| `Database.CreatedUserIsFoundByToken` | source/database.ts:351-372 | If no other user holds the same hash, the token returned by `createUser` finds the new user, which has no role and no team. |
| `Database.UpdatedTokenReplacesOld` | source/database.ts:377-388 | If no other user holds the new token's hash, then after `updateAccessToken` the new token finds the user. The previous token no longer finds that user unless both tokens hash alike. |
| `Schema.ParseFileHash` | source/schema.ts:7-21 | Rejects a value iff it is not a string, with the message `Hash must be string`. Every string is returned unchanged, since the length and digit checks are disabled. |
| `Schema.FileHashRoundTrip` | source/schema.ts:23-32 | Parsing a serialized file hash gives it back. |
| `Schema.MergeCycleOverwrites` | source/schema.ts:143-154 | After `setCycle` the id is kept and all six fields hold the fetched values. |
| `Schema.CycleSource.SetCycle` | source/schema.ts:143-154 | Fetches once. On success, overwrites the six fields with the record and returns it. On failure, leaves the object unchanged. |
| `Schema.CycleSource.Resolve` | source/schema.ts:168-234 | A `Cycle` field resolver. Its result, the object afterwards and the fetch count are those of `ResolveCycle`. |
| `Schema.ResolveCycleSpec` | source/schema.ts:172-177 | A held field is returned unchanged with no fetch. A missing field is fetched and its value in the record is returned, keeping the id. A failed fetch changes nothing. After a successful call the object holds the returned value. |
| `Schema.ResolveCycleAllHeld` | source/schema.ts:164-235 | Resolving only fields the object holds never fetches and leaves it unchanged. |
| `Schema.ResolveCycleAllFetchesOnce` | source/schema.ts:147-152 | When the record exists, any sequence of `Cycle` field resolutions on one object fetches at most once. |
| `Schema.MergeUserFields` | source/schema.ts:237-253 | `setUserData` keeps the id and overwrites `name`, `imageFileHash`, `goal`, `role` and `createdAt`. It keeps a held `team`/`cycleList` and otherwise fills it from the record. Afterwards every field is defined. |
| `Schema.MergeUserIdempotent` | source/schema.ts:237-253 | Merging the same record twice is the same as merging it once. |
| `Schema.UserSource.SetUserData` | source/schema.ts:237-253 | Fetches once. On success, the object becomes the merge of itself with the record, which is returned. On failure, nothing changes. |
| `Schema.UserSource.Resolve` | source/schema.ts:271-350 | A `UserData` field resolver. Its result, the object afterwards and the fetch count are those of `ResolveUser`. |
| `Schema.ResolveUserSpec` | source/schema.ts:274-279 | A held field is returned with no fetch. A missing field is fetched, the fetched value is returned, and the object then holds it. A failed fetch changes nothing. |
| `Schema.ResolveUserAllHeld` | source/schema.ts:255-351 | Resolving only held fields never fetches and leaves the object unchanged. |
| `Schema.ResolveUserAllFetchesOnce` | source/schema.ts:240-251 | When the record exists, any sequence of `UserData` field resolutions fetches at most once. |
| `Schema.ResolveUserAllKeepsRelation` | source/schema.ts:246-251 | A `team` or `cycleList` supplied by the parent survives any sequence of resolutions. |
| `Schema.MergeTeamFields` | source/schema.ts:353-368 | `setTeam` keeps the id and overwrites `name`, `goal`, `information` and `createdAt`. It keeps a held `manager`/`playerList` and otherwise fills it from the record. Afterwards every field is defined. |
| `Schema.MergeTeamIdempotent` | source/schema.ts:353-368 | Merging the same team record twice is the same as merging it once. |
| `Schema.TeamSource.SetTeam` | source/schema.ts:353-368 | Fetches once. On success, the object becomes the merge of itself with the record, which is returned. On failure, nothing changes. |
| `Schema.TeamSource.Resolve` | source/schema.ts:381-449 | A `Team` field resolver. Its result, the object afterwards and the fetch count are those of `ResolveTeam`. |
| `Schema.ResolveTeamSpec` | source/schema.ts:385-390 | A held field is returned with no fetch. A missing field is fetched, the fetched value is returned, and the object then holds it. A failed fetch changes nothing. |
| `Schema.ResolveTeamAllHeld` | source/schema.ts:370-450 | Resolving only held fields never fetches and leaves the object unchanged. |
| `Schema.ResolveTeamAllFetchesOnce` | source/schema.ts:356-367 | When the record exists, any sequence of `Team` field resolutions fetches at most once. |
| `Schema.ResolveTeamAllKeepsRelation` | source/schema.ts:362-367 | A `manager` or `playerList` supplied by the parent survives any sequence of resolutions. |
| `Html.EscapeChar` | source/index.ts:71-83 | Defines the callback: each of the six characters maps to its reference, and any other character is kept. Its shape is stated by `Html.EscapeCharShape`. |
| `Html.EscapeHtml` | source/index.ts:69-84 | Defines the global replace as one left-to-right pass, one replacement per character. Its properties are the `Html.EscapeHtml…` lemmas and `Html.UnescapeEscapeHtml`. |
| `Data.AppOrigin` | source/data.ts:35-37 | The production origin is `https://` followed by the host name `teame-c1a32.web.app`. It is printed as stated by `Data.OriginToStringValues`. |
| `Data.Origin` | source/data.ts:48-55 | The two origins: the release host, or a debug server on a port. `Data.OriginToStringInjective` states that they print distinctly. |
| `Data.ReleaseOrigin` | source/data.ts:57 | The release origin. `Data.OriginToStringValues` states that it prints as `https://teame-c1a32.web.app`. |
| `Data.DebugOrigin` | source/data.ts:59-62 | Builds the debug origin for a port. It is printed as stated by `Data.OriginToStringValues`. |
| `Data.OriginToString` | source/data.ts:64-71 | Defines the `switch`: the release origin is `appOrigin`, and a debug origin is `http://localhost:` + port. Stated by `Data.OriginToStringValues` and `Data.OriginToStringInjective`. |
| `Data.IntToDecimal` | source/data.ts:69 | Defines the decimal numeral of an integer port, with a `-` for negative ports. Stated by `Data.IntToDecimalSign`, `Data.IntToDecimalNonNegative`, `Data.IntToDecimalNegative`, `Data.NatToDecimalDigits`, `Data.NatToDecimalRoundTrip` and `Data.IntToDecimalInjective`. |
| `Data.Join` | source/data.ts:12 | Defines `Array.prototype.join`. Its inverse is stated by `Data.JoinSplitRoundTrip`. |
| `Database.UserLowCostOf` | source/database.ts:270-281 | Defines the user projection shared by the two user reads. Stated by `Database.UserLowCostOfPreserves`. |
| `Database.Slice` | source/database.ts:305 | `String.prototype.slice` with non-negative bounds: the result is never longer than the string. |
| `Database.ParseIntHex` | source/database.ts:305 | Defines `Number.parseInt(s, 16)`, with NaN as no value. For two lower-case hex digits it gives their value (`Database.TokenBytesOfHex`). |
| `Database.ToUint8` | source/database.ts:305 | Defines the store into a `Uint8Array` element: NaN is 0, and any other integer is taken modulo 256. |
| `Database.HashAccessToken` | source/database.ts:314-318 | Defines the hash as `sha256` of `TokenBytes`. Stated by `Database.TokensSharingPrefixCollide`. |
| `Database.NewUser` | source/database.ts:359-371 | Defines the document `createUser` writes, with null role and null team. |
| `Schema.SerializeFileHash` | source/schema.ts:30 | Defines `serialize` as the identity. Stated by `Schema.FileHashRoundTrip`. |
| `Schema.MergeCycle` | source/schema.ts:143-154 | Defines the object after `setCycle`. Stated by `Schema.MergeCycleOverwrites`. |
| `Schema.ResolveCycle` | source/schema.ts:168-234 | Defines one `Cycle` field resolver. Stated by `Schema.ResolveCycleSpec`. |
| `Schema.ResolveCycleAll` | source/schema.ts:164-235 | Defines sequential resolution of several `Cycle` fields, counting fetches. Stated by `Schema.ResolveCycleAllHeld` and `Schema.ResolveCycleAllFetchesOnce`. |
| `Schema.MergeUser` | source/schema.ts:237-253 | Defines the object after `setUserData`. Stated by `Schema.MergeUserFields` and `Schema.MergeUserIdempotent`. |
| `Schema.ResolveUser` | source/schema.ts:271-350 | Defines one `UserData` field resolver. Stated by `Schema.ResolveUserSpec`. |
| `Schema.ResolveUserAll` | source/schema.ts:255-351 | Defines sequential resolution of several `UserData` fields, counting fetches. Stated by the `Schema.ResolveUserAll…` lemmas. |
| `Schema.MergeTeam` | source/schema.ts:353-368 | Defines the object after `setTeam`. Stated by `Schema.MergeTeamFields` and `Schema.MergeTeamIdempotent`. |
| `Schema.ResolveTeam` | source/schema.ts:381-449 | Defines one `Team` field resolver. Stated by `Schema.ResolveTeamSpec`. |
| `Schema.ResolveTeamAll` | source/schema.ts:370-450 | Defines sequential resolution of several `Team` fields, counting fetches. Stated by the `Schema.ResolveTeamAll…` lemmas. |

## Left out

- Firebase initialisation, real Firestore queries, Cloud Storage, axios and streams (`saveFile`, `saveUserImageFromUrl`, `getReadableStream`) are I/O. Collections are maps, the upload's file hash is an input, and a query's result order is the parameter `order`.
- SHA-256 (`createHashFromBuffer`, the digest in `hashAccessToken`) is an arbitrary function `sha256`. `crypto.randomBytes` (`createRandomId`, `createAccessToken`) is replaced by parameters. So the hex form of random tokens is not modelled, and no property of the hash is assumed.
- Firestore `Timestamp`/`Date` values and their conversion (`toDate`, `fromDate`) are opaque integers. So are the `DateTime` scalar and its `Number.parseInt`.
- Debug ports are integers: `Number.toString` of a non-integer or non-finite port (floating point) is not modelled.
- Data.IntToDecimal: JavaScript prints numbers of magnitude 10^21 or more in exponent form (`1e+21`), and cannot represent every integer above 2^53. The model prints every digit of any integer, so it matches JavaScript only below those bounds.
- Database.TokenBytes: strings are sequences of code points, while JavaScript `slice` indexes UTF-16 code units. A token holding a character outside the Basic Multilingual Plane is cut at other offsets in JavaScript and gets other bytes. The "first 25 characters" of `Database.TokensSharingPrefixCollide` are 25 code units in JavaScript.
- Schema.ResolveUserAllFetchesOnce: holds for the record shape the schema expects. With the `getUserData` of this repository, `goal` and `cycleList` are never fetched, so they stay `undefined` and each access to them fetches again.
- Schema.ResolveTeamAllFetchesOnce: likewise, the `getTeamData` of this repository returns no `goal` or `information`, so with it those fields stay `undefined` and each access to them fetches again.
- WHATWG `URL`/`URLSearchParams` parsing, normalisation, percent-encoding and the errors `new URL` throws for malformed text: a URL is its base text and key/value pairs.
- The graphql-js wrappers (`makeObjectFieldMap`, `makeObjectField`, `makeQueryOrMutationField`), the scalar and enum type objects apart from `FileHash`, and the query and mutation resolvers (source/schema.ts:455-808) are type plumbing or delegate to functions that are not part of this model.
- `createTeamAndSetManagerRole` and `joinTeamAndSetPlayerRole` are unfinished and return `{}`, so they have no behaviour to state.
- The HTML template, the host-name redirect of `indexHtml` and `sampleApi` in source/index.ts are HTTP plumbing.
- Concurrent resolution of sibling fields on one object can fetch more than once. Resolution is modelled as sequential.
- A relationship value a parent supplies is modelled as a reference (`{id}`), not as a nested stub with its own fields.
- `escapeHtml`'s callback has a last branch returning the empty string. No matched character reaches it, so the model has no such branch.

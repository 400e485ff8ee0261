# Keycloak login-location listener, modelled in Dafny

This project models the decision logic of two Keycloak event-listener providers. One is
`InfluxDBEventListenerProvider` (package `com.ditavision`). The other is
`IPEventListenerProvider` with its factory (package `com.licenta`). Both do the same things:

- drop events whose type or admin operation is configured as excluded;
- turn every other LOGIN event and every other admin event into one InfluxDB point, with
  `"unknown"` in place of absent attributes;
- after recording a LOGIN, query the user's last three logins, newest first, and append each
  row's location to a `locationList` field that is never cleared;
- send a "Suspicious sign in detected" email when entries 0 and 1 of that list differ,
  ignoring case.

The factory reads the connection settings from environment variables, with fixed defaults. It
turns the configured name arrays into exclusion sets, and creates providers.

Modules, leaves first:

- `Wrappers`: `Option` (Java's null) and `Result`.
- `Text`: `equalsIgnoreCase` as ASCII case folding, and Java's concatenation of a null
  reference (`"null"`).
- `Events`: the entities. These are the authentication and admin events, the user
  returned by the user directory, the email, the exceptions that escape a listener
  (`Fault`), and how a listener call ends (`Outcome`).
- `Store`: the InfluxDB database as a `Database` object.
  - It holds an append-only `seq` of points, each tagged with the database and retention
    policy it was written to.
  - The history query is the function `RecentLogins`. It filters by database, by the
    retention policy `"14d"` written into the query text, by measurement `event` and by
    `userId`. It then sorts newest first (a stable insertion sort) and keeps three rows.
  - `ParsedLocations` is what the JSON-reading loop appends.
- `Points`: the pure point construction shared by `toInfluxDB` and `insertDataIntoInfluxDB`.
- `Alerts`: the text and HTML content of the email.
- `InfluxDBEventListenerProvider`, `IPEventListenerProvider`: one `Provider` class each.
  - The class fields are the exclusion sets, the store handle, the database and retention
    names, `locationList`, and an `outbox` of the emails handed to the mail transport.
  - `Check` is the pure specification of `checkUserLocation`. The method is proved
    against it, and the lemmas are stated about it.
- `IPEventListenerProviderFactory`: the `Factory` class and the settings functions.

These choices hold throughout the model:

- **Exceptions.** An uncaught Java exception ends the call with `Crashed(fault)`. Any state
  it changed before throwing keeps the change. This covers:
  - a null IP address, which is dereferenced for the location lookup;
  - a query with no rows, which throws a JSONException outside the `try`;
  - `locationList.get(1)` on a shorter list;
  - a null user in `sendEmail`;
  - an unknown constant name in the factory's `init`.

  A JSONException inside the reading loop is caught there. It stops the loop, so only the
  rows before the bad one are appended.
- **The LOGIN test.** The code compares `event.getType().toString()` with `"LOGIN"` using `==`.
  The model uses value equality on the enum constant's name. This is sound because an enum's
  default `toString` returns the interned name literal, so `==` holds exactly when the names
  are equal.
- **Keycloak's enums.** An event type is represented by its constant's name. The set of
  Keycloak's event-type names is a parameter of `Factory.Init`. The admin operation type is
  the full four-constant enum.
- **External answers become parameters.**
  - The user directory's answer is the `user` parameter of `OnEvent`.
  - The environment is a map given to the factory's constructor.
  - The store handle is given to the factory's constructor.

Where the code and what it evidently intends differ, the model follows the code:

- Nothing is ever resolved. `ipToLocation` always returns null, so every event point's
  location is `"unknown/localhost"`. Had it answered, the code would store the IP address
  itself, not the location.
- No history is not quiet.
  - A query with no rows throws. This happens, for example, for a login whose user id is
    null, since the query then looks for the id `"null"`.
  - The query reads the retention policy `"14d"` whatever policy is configured. A point
    written under any other policy is never seen by the query, so with another policy the
    check reads only whatever `"14d"` already holds for that user.
  - In the `com.ditavision` provider, a first login with one row throws on `get(1)`.
- The list is not cleared between calls. Once it holds two entries, every later check
  compares the same two entries, and the email always names entry 0. This holds on the same provider; every provider the factory creates starts with an empty list. The lemmas
  `CheckComparesOldestEntries` state this.
- The query does not filter by event type. Only LOGIN events are written as `event` points,
  so the result is the same.

## Model

| member | source | states |
|---|---|---|
| Text.EqualsIgnoreCase | src/main/java/com/ditavision/keycloak/providers/events/InfluxDBEventListenerProvider.java:166 | `equalsIgnoreCase` compares length and folded characters, which holds exactly when both strings fold to the same lower-case string |
| Text.JavaString | src/main/java/com/ditavision/keycloak/providers/events/InfluxDBEventListenerProvider.java:146 | concatenating a null reference gives `"null"`, any other string gives itself |
| Text.EqualsIgnoreCaseReflexive | src/main/java/com/ditavision/keycloak/providers/events/InfluxDBEventListenerProvider.java:166 | every location matches itself, so two equal locations never raise an alert |
| Text.BracesMatchOnlyThemselves | src/main/java/com/ditavision/keycloak/providers/events/InfluxDBEventListenerProvider.java:117 | `"{}".equalsIgnoreCase(json)` holds exactly when `json` is `{}` |
| Events.OperationTypeOf | src/main/java/com/licenta/keycloak/providers/events/IPEventListenerProviderFactory.java:49 | `valueOf` returns only the constant whose name is the given string |
| Events.OperationTypeOfName | src/main/java/com/licenta/keycloak/providers/events/IPEventListenerProviderFactory.java:49 | `valueOf` inverts `toString` on each of the four operation types |
| Events.Lookup | src/main/java/com/ditavision/keycloak/providers/events/InfluxDBEventListenerProvider.java:108 | `details.get(key)` is non-null exactly when some entry has that key, and then returns that entry's value |
| Store.Matches | src/main/java/com/ditavision/keycloak/providers/events/InfluxDBEventListenerProvider.java:146 | the FROM and WHERE clauses: the configured database, retention policy `"14d"`, measurement `event`, and a `userId` field equal to the id |
| Store.Newest | src/main/java/com/ditavision/keycloak/providers/events/InfluxDBEventListenerProvider.java:146 | `ORDER BY time DESC limit 3`: min(3, n) of the n matching points, newest first, each one of them, and exactly the first three of a newest-first permutation of the matching points, so they are the three newest |
| Store.Database.Write | src/main/java/com/ditavision/keycloak/providers/events/InfluxDBEventListenerProvider.java:124 | a write appends exactly one point, tagged with its database and retention policy |
| Store.SortNewestFirstCorrect | src/main/java/com/ditavision/keycloak/providers/events/InfluxDBEventListenerProvider.java:146 | `ORDER BY time DESC` yields a permutation of the matching points, newest first |
| Store.RecentLogins | src/main/java/com/ditavision/keycloak/providers/events/InfluxDBEventListenerProvider.java:146 | the query returns at most three rows (`limit 3`) |
| Store.RecentLoginsShape | src/main/java/com/ditavision/keycloak/providers/events/InfluxDBEventListenerProvider.java:146 | the query returns min(3, n) rows of the n matching points; every row is the user's and is a matching point's; rows are newest first; row 0 is no older than any matching point; and the rows are those of the first three points of a newest-first permutation of the matching points, so no point is read twice and rows 1 and 2 are the second- and third-newest |
| Store.RecentLoginsSeeOwnWrite | src/main/java/com/ditavision/keycloak/providers/events/InfluxDBEventListenerProvider.java:146 | read-after-write: a just-written matching point at least as new as the others is row 0 |
| Store.RecentLoginsIgnoreOtherRetention | src/main/java/com/ditavision/keycloak/providers/events/InfluxDBEventListenerProvider.java:146 | a point written under any retention policy other than the hard-coded `"14d"` never shows in the history |
| Store.RecentLoginsLocations | src/main/java/com/ditavision/keycloak/providers/events/InfluxDBEventListenerProvider.java:146 | if every stored event point has location `loc`, so does every row |
| Store.ParsedLocations | src/main/java/com/ditavision/keycloak/providers/events/InfluxDBEventListenerProvider.java:152-164 | the loop reads the rows' locations in order, up to the first row whose location is not a string, where the caught exception ends the loop |
| Store.ParsedLocationsComplete | src/main/java/com/ditavision/keycloak/providers/events/InfluxDBEventListenerProvider.java:152-163 | when every row has a location, one entry is appended per row |
| Points.IpToLocation | src/main/java/com/ditavision/keycloak/providers/events/InfluxDBEventListenerProvider.java:171-190 | the lookup gives null for every address: the service's answer is only logged |
| Points.SerializeDetails | src/main/java/com/ditavision/keycloak/providers/events/InfluxDBEventListenerProvider.java:116 | the serialised details are a JSON object, enclosed in braces |
| Points.SerializeDetailsEmpty | src/main/java/com/ditavision/keycloak/providers/events/InfluxDBEventListenerProvider.java:116-117 | the details serialise to `{}` exactly when the map is empty |
| Points.EventPoint | src/main/java/com/ditavision/keycloak/providers/events/InfluxDBEventListenerProvider.java:94-102 | null IP: `getIpAddress().toString()` in the field arguments throws; otherwise measurement `event`; tags `type`, `realmId` and `clientId` (`"unknown"` when null); fields `userId` (`"unknown"` when null), `ipAddress` and `location` = `"unknown/localhost"`; the time is the event time |
| Points.EventPointOptionalFields | src/main/java/com/ditavision/keycloak/providers/events/InfluxDBEventListenerProvider.java:103-122 | the exact field set: `error` iff the error is non-null; `username` iff the details hold that key; `details` iff the details are present and do not serialise to `{}`; each with its value |
| Points.EventPointFoundByQuery | src/main/java/com/ditavision/keycloak/providers/events/InfluxDBEventListenerProvider.java:146 | a login's own point (non-null user id) matches the user's history query exactly when it was written under `"14d"` |
| Points.NullUserPointNotFound | src/main/java/com/ditavision/keycloak/providers/events/InfluxDBEventListenerProvider.java:146 | with a null user id, the point is recorded as `"unknown"` but the query looks for `"null"`, so the point is never found |
| Points.AdminPoint | src/main/java/com/ditavision/keycloak/providers/events/InfluxDBEventListenerProvider.java:126-141 | measurement `adminEvent`; tags `operationType`, `resourceType`, `realmId` and `clientId`; fields `userId`, `ipAddress`, `resourcePath` and `representation`, each `"unknown"` when null; `error` iff non-null |
| Points.UnresolvedAfterCheck | src/main/java/com/ditavision/keycloak/providers/events/InfluxDBEventListenerProvider.java:161 | appending the locations of unresolved rows keeps the list unresolved |
| Alerts.AlertEmail | src/main/java/com/ditavision/keycloak/providers/events/InfluxDBEventListenerProvider.java:192-218 | the email goes to the user's address with subject "Suspicious sign in detected"; the HTML names the user, the location and the login's IP; the text names the address, the user and the client |
| Alerts.HtmlMentions | src/main/java/com/ditavision/keycloak/providers/events/InfluxDBEventListenerProvider.java:201-208 | the HTML body contains the username, the location and the IP address |
| Alerts.PlainTextMentions | src/main/java/com/ditavision/keycloak/providers/events/InfluxDBEventListenerProvider.java:196-199 | the plain-text body contains the email address, the username and the client id |
| InfluxDBEventListenerProvider.Decide | src/main/java/com/ditavision/keycloak/providers/events/InfluxDBEventListenerProvider.java:146-168 | no rows: the JSON read throws; rows but fewer than two list entries: `get(1)` throws; no other throw; an alert exactly when rows came back, the list has two entries, and entries 0 and 1 differ ignoring case |
| InfluxDBEventListenerProvider.Notify | src/main/java/com/ditavision/keycloak/providers/events/InfluxDBEventListenerProvider.java:192-225 | null user: throws; a user without an address gets nothing; otherwise exactly one email is appended, to that address, under the fixed subject, whose HTML names the location and the login's IP |
| InfluxDBEventListenerProvider.Check | src/main/java/com/ditavision/keycloak/providers/events/InfluxDBEventListenerProvider.java:144-169 | the list gains the parsed locations of the rows; the check throws for no rows exactly, throws on `get(1)` exactly when rows came back but the list is shorter than two, throws on a null user exactly when an alert is due; it throws nothing else, so in every other case it completes; a throw sends nothing |
| InfluxDBEventListenerProvider.CheckSendsAtMostOne | src/main/java/com/ditavision/keycloak/providers/events/InfluxDBEventListenerProvider.java:144-169 | the check only appends to the outbox and sends at most one email; it sends one exactly when rows came back, entries 0 and 1 differ ignoring case, and the user has an address; the email goes to that address and names entry 0 and the IP |
| InfluxDBEventListenerProvider.CheckComparesOldestEntries | src/main/java/com/ditavision/keycloak/providers/events/InfluxDBEventListenerProvider.java:161-167 | once the list holds two entries, every later check decides on those same two, whatever non-empty rows it reads |
| InfluxDBEventListenerProvider.FreshCheckComparesNewestTwo | src/main/java/com/ditavision/keycloak/providers/events/InfluxDBEventListenerProvider.java:152-168 | on an empty list, with two located rows, the check alerts exactly when the locations of rows 0 and 1 differ, which by `Store.RecentLoginsShape` are the user's two newest logins |
| InfluxDBEventListenerProvider.FirstLoginThrows | src/main/java/com/ditavision/keycloak/providers/events/InfluxDBEventListenerProvider.java:166 | on an empty list, a query with one row throws `IndexOutOfBounds` and sends nothing |
| InfluxDBEventListenerProvider.UnresolvedCheckSendsNothing | src/main/java/com/ditavision/keycloak/providers/events/InfluxDBEventListenerProvider.java:101 | if every row and every list entry is `"unknown/localhost"`, the check sends nothing and the list stays unresolved |
| InfluxDBEventListenerProvider.EqualEntriesSendNothing | src/main/java/com/ditavision/keycloak/providers/events/InfluxDBEventListenerProvider.java:161-167 | when entries 0 and 1 of the list after the loop are equal, the check sends nothing |
| InfluxDBEventListenerProvider.Provider.UnresolvedHistory | src/main/java/com/ditavision/keycloak/providers/events/InfluxDBEventListenerProvider.java:101 | on an unresolved provider, the check on the user's history sends nothing and leaves every list entry `"unknown/localhost"` |
| InfluxDBEventListenerProvider.Provider.constructor | src/main/java/com/ditavision/keycloak/providers/events/InfluxDBEventListenerProvider.java:53-62 | the provider keeps the sets and names it is given, and starts with an empty list |
| InfluxDBEventListenerProvider.Provider.OnEvent | src/main/java/com/ditavision/keycloak/providers/events/InfluxDBEventListenerProvider.java:66-79 | excluded or non-LOGIN: nothing changes; LOGIN with null IP: throws and nothing changes; other LOGIN: exactly one `event` point is appended, then the state is what `Check` gives on the history that now includes it; an unresolved provider stays unresolved and sends nothing |
| InfluxDBEventListenerProvider.Provider.OnAdminEvent | src/main/java/com/ditavision/keycloak/providers/events/InfluxDBEventListenerProvider.java:81-89 | an excluded operation writes nothing; any other appends exactly one `adminEvent` point |
| InfluxDBEventListenerProvider.Provider.ToInfluxDB | src/main/java/com/ditavision/keycloak/providers/events/InfluxDBEventListenerProvider.java:94-125 | null IP: throws before writing; otherwise writes exactly the event point to the configured database and retention policy |
| InfluxDBEventListenerProvider.Provider.ToInfluxDBAdmin | src/main/java/com/ditavision/keycloak/providers/events/InfluxDBEventListenerProvider.java:126-142 | writes exactly the admin point |
| InfluxDBEventListenerProvider.Provider.CheckUserLocation | src/main/java/com/ditavision/keycloak/providers/events/InfluxDBEventListenerProvider.java:144-169 | the new list, outbox and outcome are those of `Check` on the old list and outbox and the user's history |
| InfluxDBEventListenerProvider.Provider.ReadLocations | src/main/java/com/ditavision/keycloak/providers/events/InfluxDBEventListenerProvider.java:152-164 | the loop appends exactly `ParsedLocations(rows)` to the list |
| InfluxDBEventListenerProvider.Provider.SendEmail | src/main/java/com/ditavision/keycloak/providers/events/InfluxDBEventListenerProvider.java:192-225 | null user: throws; user without an address: nothing is sent; otherwise exactly one email, naming entry 0 of the list, is appended |
| IPEventListenerProvider.Decide | src/main/java/com/licenta/keycloak/providers/events/IPEventListenerProvider.java:136-155 | no rows: the JSON read throws; one row: quiet; two or more rows with fewer than two list entries: `get(1)` throws; no other throw; an alert exactly when two or more rows came back, the list has two entries, and entries 0 and 1 differ ignoring case |
| IPEventListenerProvider.Notify | src/main/java/com/licenta/keycloak/providers/events/IPEventListenerProvider.java:178-207 | null user: throws; a user without an address gets nothing; otherwise exactly one email is appended, to that address, under the fixed subject, whose HTML names the location and the login's IP |
| IPEventListenerProvider.Check | src/main/java/com/licenta/keycloak/providers/events/IPEventListenerProvider.java:133-156 | the list gains the parsed locations of the rows; the check throws for no rows exactly, throws on `get(1)` exactly when two or more rows came back but the list is shorter than two, throws on a null user exactly when an alert is due; it throws nothing else, so in every other case it completes; a throw sends nothing |
| IPEventListenerProvider.CheckSendsAtMostOne | src/main/java/com/licenta/keycloak/providers/events/IPEventListenerProvider.java:133-156 | as for the other provider, but an email needs at least two rows |
| IPEventListenerProvider.CheckComparesOldestEntries | src/main/java/com/licenta/keycloak/providers/events/IPEventListenerProvider.java:146-155 | once the list holds two entries, every later check with two or more rows decides on those same two |
| IPEventListenerProvider.FreshCheckComparesNewestTwo | src/main/java/com/licenta/keycloak/providers/events/IPEventListenerProvider.java:138-155 | on an empty list, with two located rows, the check alerts exactly when the locations of rows 0 and 1 differ, which by `Store.RecentLoginsShape` are the user's two newest logins |
| IPEventListenerProvider.SingleRowSendsNothing | src/main/java/com/licenta/keycloak/providers/events/IPEventListenerProvider.java:150-152 | when the query returns exactly one row, the check appends it, completes and sends nothing |
| IPEventListenerProvider.UnresolvedCheckSendsNothing | src/main/java/com/licenta/keycloak/providers/events/IPEventListenerProvider.java:91 | if every row and every list entry is `"unknown/localhost"`, the check sends nothing |
| IPEventListenerProvider.EqualEntriesSendNothing | src/main/java/com/licenta/keycloak/providers/events/IPEventListenerProvider.java:146-155 | when entries 0 and 1 of the list after the loop are equal, the check sends nothing |
| IPEventListenerProvider.Provider.UnresolvedHistory | src/main/java/com/licenta/keycloak/providers/events/IPEventListenerProvider.java:91 | on an unresolved provider, the check on the user's history sends nothing and leaves every list entry `"unknown/localhost"` |
| IPEventListenerProvider.Provider.constructor | src/main/java/com/licenta/keycloak/providers/events/IPEventListenerProvider.java:47-55 | the provider keeps the sets and names it is given, and starts with an empty list |
| IPEventListenerProvider.Provider.OnEvent | src/main/java/com/licenta/keycloak/providers/events/IPEventListenerProvider.java:57-69 | excluded or non-LOGIN: nothing changes; null IP: throws and nothing changes; other LOGIN: one `event` point is appended before the check runs; an unresolved provider sends nothing |
| IPEventListenerProvider.Provider.OnAdminEvent | src/main/java/com/licenta/keycloak/providers/events/IPEventListenerProvider.java:71-78 | an excluded operation writes nothing; any other appends exactly one `adminEvent` point |
| IPEventListenerProvider.Provider.InsertDataIntoInfluxDB | src/main/java/com/licenta/keycloak/providers/events/IPEventListenerProvider.java:84-114 | null IP: throws before writing; otherwise writes exactly the event point |
| IPEventListenerProvider.Provider.InsertAdminDataIntoInfluxDB | src/main/java/com/licenta/keycloak/providers/events/IPEventListenerProvider.java:116-131 | writes exactly the admin point |
| IPEventListenerProvider.Provider.CheckUserLocation | src/main/java/com/licenta/keycloak/providers/events/IPEventListenerProvider.java:133-156 | the new list, outbox and outcome are those of `Check`, which includes the one-row guard |
| IPEventListenerProvider.Provider.ReadLocations | src/main/java/com/licenta/keycloak/providers/events/IPEventListenerProvider.java:138-149 | the loop appends exactly `ParsedLocations(rows)` to the list |
| IPEventListenerProvider.Provider.SendEmail | src/main/java/com/licenta/keycloak/providers/events/IPEventListenerProvider.java:178-207 | null user: throws; user without an address: nothing is sent; otherwise one email naming entry 0 and the IP |
| IPEventListenerProviderFactory.GetConnectionDetails | src/main/java/com/licenta/keycloak/providers/events/IPEventListenerProviderFactory.java:77-80 | returns the environment value when the variable is set, and the default otherwise |
| IPEventListenerProviderFactory.InfluxUrl | src/main/java/com/licenta/keycloak/providers/events/IPEventListenerProviderFactory.java:26 | the URL reads back as `http://`, then the host, then `:`, then the port |
| IPEventListenerProviderFactory.SettingsFrom | src/main/java/com/licenta/keycloak/providers/events/IPEventListenerProviderFactory.java:20-25 | each of the six settings is read from its own variable, with its own default |
| IPEventListenerProviderFactory.SettingsWithoutEnvironment | src/main/java/com/licenta/keycloak/providers/events/IPEventListenerProviderFactory.java:20-26 | with no variable set, the settings are localhost, 8086, root, root, keycloak and 14d, and the URL is `http://localhost:8086` |
| IPEventListenerProviderFactory.FirstUnknown | src/main/java/com/licenta/keycloak/providers/events/IPEventListenerProviderFactory.java:37-43 | the position of the first name that is not a constant: every name before it is one |
| IPEventListenerProviderFactory.EventTypeSet | src/main/java/com/licenta/keycloak/providers/events/IPEventListenerProviderFactory.java:37-43 | the exclusion set holds exactly the event types whose name is in the array |
| IPEventListenerProviderFactory.OperationTypeSet | src/main/java/com/licenta/keycloak/providers/events/IPEventListenerProviderFactory.java:45-51 | the exclusion set holds exactly the operation types whose name is in the array |
| IPEventListenerProviderFactory.OperationNamesKnown | src/main/java/com/licenta/keycloak/providers/events/IPEventListenerProviderFactory.java:49 | `OperationType.valueOf` succeeds exactly on CREATE, UPDATE, DELETE and ACTION |
| IPEventListenerProviderFactory.Factory.constructor | src/main/java/com/licenta/keycloak/providers/events/IPEventListenerProviderFactory.java:18-26 | each setting is read from its variable with its default; the URL is built from host and port; both sets start null |
| IPEventListenerProviderFactory.Factory.GetId | src/main/java/com/licenta/keycloak/providers/events/IPEventListenerProviderFactory.java:73-75 | the provider id is `"IPEventListener"` |
| IPEventListenerProviderFactory.Factory.Create | src/main/java/com/licenta/keycloak/providers/events/IPEventListenerProviderFactory.java:30-32 | a fresh provider gets the factory's sets, store, database name and retention name unchanged |
| IPEventListenerProviderFactory.Factory.Init | src/main/java/com/licenta/keycloak/providers/events/IPEventListenerProviderFactory.java:36-59 | a missing array leaves its set unchanged (null on a fresh factory); a present array sets exactly the named types; an unknown name throws and leaves the set with the names before it |

## Left out

- The ipapi.co lookup (`URLConnection`, reading and logging the answer) is not modelled, because its answer is discarded. `ipToLocation` is modelled as returning null, which it does on every path.
- InfluxDB internals are left out: `Point.Builder` validation, `createRetentionPolicy`, `connect`, `close`, and how the query string is concatenated. The builder drops empty tag values; the model does not. Duplicate series and timestamps overwrite each other in InfluxDB; the model keeps both, with the later write first. A `userId` holding a quote is not modelled as changing the query. Because `createRetentionPolicy` is left out, points never expire in the model. The factory creates that policy with the retention setting as its duration (14d by default), so InfluxDB drops old points and the real query can return fewer rows than the model's.
- Write failures are left out: the store is modelled as always reachable and every write succeeds. A failed `connect` in `init` would leave a null handle; this is not modelled either.
- Query errors reported by the server behave like an empty result (the `series` key is missing). The model covers this as the no-rows case.
- The `JSONObject` traversal is replaced by typed rows (`Store.Row`). A row whose location is not a string is `None`.
- Jackson serialisation is modelled as `{"k":"v",...}` in the details' iteration order. String escaping is omitted. The serialisation exception is omitted because it is never thrown for a string map.
- Keycloak collaborators (session, realm lookup, SMTP configuration, `DefaultEmailSenderProvider`) are not modelled. The user lookup is the `user` parameter. Sending an email appends it to `outbox`, and transport failures (`EmailException`, swallowed by the code) are not modelled.
- Logging (`log.info`, `printStackTrace`, `System.out`, `System.err`) is left out because it has no effect on state.
- A null `authDetails` on an admin event, a null event type, a null realm id and a null user name are not modelled; Keycloak always sets them.
- `InfluxDBEventListenerProvider.close`, `IPEventListenerProvider.close`, the factory's `postInit` and `close` have no effect on the modelled state and are left out.
- Concurrent calls to one provider are not modelled; the model is sequential.
- Text.EqualsIgnoreCase: folds ASCII letters only, whereas Java's `equalsIgnoreCase` also folds non-ASCII letters.

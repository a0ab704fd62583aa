# ultrasonic_iot-BE core, modelled in Dafny

The backend serves an ultrasonic IoT setup with three parts:

- **Sensor tables.** Two sensors post distance readings into the tables `distance1` and `distance2`.
- **A TV switch.** It is a single row (id 1) of `switch_condition`. Devices read it and a dashboard updates it.
- **Users with roles.** The `users` table holds `super-admin`, `admin-distance1` and `admin-distance2`. They log in for a one-hour JWT, and the routes admit or refuse them by role.

This project models that core:

- **`UserModel`** (`user_model.dfy`): the layered user logic.
  - The `users` table is a class `UserStore`. It holds a map from username to row and the AUTO_INCREMENT counter.
  - `findByUsername`, `updateLoginInfo`, `createUser`, `getAllUserLogs` and `authenticateUser` are modelled.
  - `generateToken` and `extractIpAddress` are pure functions.
  - bcrypt is a value `Hasher(hash, compare)`. `Sound` says that a password matches its own digest. `Exact` adds that a digest matches no other password.
  - A JWT is the datatype of its claims `Token(id, role, iat, exp)`, with `exp = iat + 3600`.
- **`AuthController`** (`auth_controller.dfy`): the routed copy of login and registration, which queries `users` directly.
  - `Login` and `Register` are methods on the same `UserStore`, with a response at every exit.
  - Further methods run both copies on fresh stores built from the same table. They prove where the copies agree and where they part.
- **`ControlModel`** (`control_model.dfy`): the switch row.
  - The row is the class `SwitchTable`, with an optional row.
  - `getControlStatus` creates the default row when it is missing. `updateControlStatus` validates first, then converts at line 63. `initializeControlStatus`, `toggleTVStatus`, `getDeviceStatusSummary` and `getControlHistory` are also modelled.
  - `validateControlData` and `sanitizeControlValue` are pure functions.
- **`SwitchController`** (`switch_controller.dfy`): each handler is a function from the model's outcome to the reply it writes.
- **`DistanceModel`** (`distance_model.dfy`): the two sensor tables, as the class `DistanceTables` holding two sequences and their counters.
  - Validation is a function.
  - Insert appends a row. Cleanup deletes the old rows.
  - `ORDER BY timestamp DESC LIMIT n` is an insertion sort by timestamp followed by `Take`. The merged query uses the two tables tagged with their names.
  - Statistics use a filter on the time window with MIN and MAX over it.
- **`DistanceController`** (`distance_controller.dfy`): several pieces.
  - The `parseInt(q) || d` defaults.
  - The `["1","2"]` sensor guard.
  - The outcome-to-reply mapping, with 201/400/404/500.
- **`Routes`** (`routes.dfy`):
  - The three routers as tables of `(verb, path, gate, handler)`, with first-match dispatch and the mount prefixes of `server.js`.
  - The gate assumes that `verifyToken(roles)` admits exactly a token whose role is in `roles`.
- **`Js` and `Http`** (`js.dfy`): the shared helpers.
  - JSON field values (`Value`), with `undefined` distinct from `null`.
  - Truthiness of optional strings, `String.prototype.includes` and ASCII `toLowerCase`.
  - `parseInt(x) || d`, where `None` stands for `NaN`.
  - The response shapes.

### Modelling conventions

- **Time and environment are parameters.**
  - Times are whole seconds. `now` stands for `NOW()` and `new Date()`.
  - `development` stands for `NODE_ENV === "development"`.
- **Database faults are parameters.** A database error is a parameter `Option<string>` of the operation that would see it, such as `lookupError`, `auditError` or `insertError` in the user operations. A duplicate username is refused by the unique key with `ER_DUP_ENTRY`. The control and distance models take no driver-error parameter, as "## Left out" says.
- **Registration and login.**
  - Registration answers status 200 with `{message, id}` (auth.controller.js:55).
  - Both copies of login exist. Only the controller copy is routed.

## Model

| member | source | states |
|---|---|---|
| Js.OrDefault | src/controllers/distance.controller.js:7 | `parseInt(q) \|\| d` is `d` exactly for NaN or 0. Otherwise it is the parsed number. |
| Js.OrElse | src/models/User.model.js:124 | `a \|\| b` is `a` when `a` is truthy (defined and not ""), otherwise `b`. |
| Js.ToLower | src/models/Distance.model.js:37 | Keeps the length and lower-cases each ASCII capital, position by position. |
| Http.Detail | src/controllers/switch.controller.js:13-14 | The error detail is present exactly in development, and then it is the error's message. |
| UserModel.Stamped | src/models/User.model.js:41-49 | `UPDATE ... WHERE id=?` keeps every key, id, username, password and role. It sets (now, ip) on the rows with that id and leaves every other row equal. |
| UserModel.StampedTouchesOnlyThatUser | src/models/User.model.js:43 | On a well-formed table, stamping a user's id is the single-key update of that user's audit fields, and the table stays well-formed. |
| UserModel.GenerateToken | src/models/User.model.js:56-62 | The token carries exactly the user's id and role, and it expires 3600 s after issue. |
| UserModel.ExtractIpAddress | src/models/User.model.js:122-126 | Returns the x-forwarded-for header if truthy, else the socket address if truthy, else "unknown". The result is never empty. |
| UserModel.LogOf | src/models/User.model.js:109 | The audit projection keeps id, username, role, last_login and last_ip, and has no password field. |
| UserModel.ViewOf | src/models/User.model.js:157-161 | The user view holds only id, username and role. |
| UserModel.UserStore.FindByUsername | src/models/User.model.js:15-23 | Returns null exactly when no row has that username. Otherwise it returns a stored row with that username. |
| UserModel.UserStore.UpdateLoginInfo | src/models/User.model.js:41-49 | On a driver error: rejects and changes nothing. Otherwise the table becomes the stamped table. The table stays well-formed and the counter is unchanged. |
| UserModel.UserStore.CreateUser | src/models/User.model.js:78-101 | A falsy username, password or role throws the missing-fields error and changes nothing. A driver error on the insert rejects with that error and changes nothing. Without one, a taken username is refused with ER_DUP_ENTRY and changes nothing. Otherwise one row with the next id and `hash(password)` (never the plaintext) is added, and `{id, username, role, message}` is returned. Success happens exactly in that case. |
| UserModel.UserStore.GetAllUserLogs | src/models/User.model.js:107-115 | One entry per user, each the password-free projection of its row. |
| UserModel.UserStore.AuthenticateUser | src/models/User.model.js:135-163 | An unknown user throws "User tidak ditemukan" and a bad password throws "Password salah". Both leave every row unchanged. A failed audit write rejects the login. On success only that user's last_login and last_ip become (now, ip), and the result is `{token(id, role, 1h), role, {id, username, role}}`. |
| AuthController.Login | src/controllers/auth.controller.js:7-39 | A driver error gives 500 `{error}`. An empty lookup gives 401 "User tidak ditemukan" and a mismatch gives 401 "Password salah", both with no update. A missing password leaves the request unanswered. On a match: 200 `{token, role}` with the found user's id and role. The audit update targets that user with `x-forwarded-for \|\| remoteAddress \|\| "unknown"`, and its failure does not change the reply. |
| AuthController.Register | src/controllers/auth.controller.js:42-60 | Any missing field gives 400 "Data tidak lengkap" with no insert. Any insert error, a duplicate included, gives 500 `{error}` and adds no row. Otherwise one row with the hashed password is inserted, and the reply is 200 `{message, id}` with the new id. |
| AuthController.GetLogs | src/controllers/auth.controller.js:63-69 | A driver error gives 500. Otherwise 200 with the same password-free projection as `getAllUserLogs`. |
| AuthController.LoginCopiesAgree | src/controllers/auth.controller.js:11-37 | Without faults, the routed login and `authenticateUser` leave the same table. A model throw is exactly a 401 with the same message, and a model result is exactly `{token, role}`. |
| AuthController.AuditFailureSplitsCopies | src/controllers/auth.controller.js:26-37 | When the audit write fails, `authenticateUser` rejects, but the routed login still answers 200 with the token. |
| AuthController.RegisterCopiesDiffer | src/controllers/auth.controller.js:42-60 | The two registrations insert the same row. 400 "Data tidak lengkap" is given exactly for a missing field, and it is the model's missing-fields throw. Every 500 carries the driver error the model rejects with, and leaves the table unchanged. Success corresponds exactly to 200 `{message, id}`. |
| AuthController.RegisterThenLogin | src/controllers/auth.controller.js:50-55 | With a sound hasher, registering and then logging in with the same password answers `{token, role}`, with the new id, the registered role and a 1 h expiry, and stamps the new row. |
| AuthController.RegisterThenWrongPassword | src/controllers/auth.controller.js:17-19 | With a collision-free hasher, any other password gets 401 "Password salah", and the table is left as registration made it. |
| ControlModel.ValidateControlData | src/models/Control.model.js:13-24 | Throws "TV control value is required" exactly for undefined. Accepts exactly 0, 1, "0", "1", true and false. Throws "TV value must be ..." for anything else, "true" and "false" included. |
| ControlModel.StoredValue | src/models/Control.model.js:63 | The stored value is 0 or 1, and it is 1 exactly for `true` and `"1"`. |
| ControlModel.SanitizeControlValue | src/models/Control.model.js:180-193 | Maps true/"true"/"1"/1 to 1 and false/"false"/"0"/0 to 0. Everything else throws. The result is always 0 or 1. |
| ControlModel.StoredValueDisagreesOnlyOnNumberOne | src/models/Control.model.js:63 | On every validated input, line 63 agrees with `sanitizeControlValue`, except for the number 1, which it stores as 0. "true" and "false" are refused by validation but accepted by the sanitiser. |
| ControlModel.Summarize | src/models/Control.model.js:156-169 | status "ON" and active_devices 1 exactly when TV === 1. total_devices is always 1. last_updated is null, since the read never selects it. |
| ControlModel.SwitchTable.InitializeControlStatus | src/models/Control.model.js:91-106 | Inserts (1, 0, now, now), or on a duplicate key only sets updated_at. The reply always says TV 0. |
| ControlModel.SwitchTable.GetControlStatus | src/models/Control.model.js:30-49 | On an absent row: creates it with TV 0 and returns 0. On a present row: returns its TV and leaves it unchanged. |
| ControlModel.SwitchTable.UpdateControlStatus | src/models/Control.model.js:56-85 | An invalid value throws its validation message before the row is touched. Otherwise the row exists afterwards, holds the line-63 value and `updated_at = now`, keeps its creation time, and the reply echoes that value. |
| ControlModel.SwitchTable.GetControlHistory | src/models/Control.model.js:113-124 | Whatever the limit, returns the current row's (TV, updated_at), or nothing when the row is absent. |
| ControlModel.SwitchTable.ToggleTVStatus | src/models/Control.model.js:130-146 | previous_value is the current TV and new_value is `current === 1 ? 0 : 1`, and the message follows new_value. The stored and reported TV afterwards are always 0. updated_at becomes now, and created_at is kept, or is now for a row the status read created. |
| ControlModel.SwitchTable.GetDeviceStatusSummary | src/models/Control.model.js:152-173 | The summary of the TV that the status read returns. A present row is left unchanged. An absent row is created as the default row (TV 0, now, now). |
| ControlModel.ToggleFromOffStaysOff | src/models/Control.model.js:132-135 | From an OFF row, a toggle reports turning ON while the row stays 0. |
| ControlModel.NumberOneStoredAsZero | src/models/Control.model.js:63 | The number 1 passes validation, yet it is stored and reported as 0. |
| SwitchController.ServerError | src/controllers/switch.controller.js:35-39 | A 500 with the handler's message and the error detail only in development. |
| SwitchController.GetControlStatusReply | src/controllers/switch.controller.js:5-17 | The model's status unchanged with 200. Any error gives 500 "Failed to retrieve control status". |
| SwitchController.UpdateControlStatusReply | src/controllers/switch.controller.js:20-41 | The model's result with 200. An error containing "is required" or "must be" gives 400 with that message. Any other error gives 500. |
| SwitchController.ValidationErrorsAre400 | src/controllers/switch.controller.js:28-33 | Both messages `validateControlData` throws land in the 400 branch. |
| SwitchController.ToggleReply | src/controllers/switch.controller.js:44-56 | 200 with the toggle result. Any error gives 500. |
| SwitchController.SummaryReply | src/controllers/switch.controller.js:59-71 | 200 with the summary. Any error gives 500. |
| SwitchController.HistoryLimit | src/controllers/switch.controller.js:76 | The limit is 50 when `parseInt` yields NaN or 0, and otherwise the parsed value. |
| SwitchController.HistoryReply | src/controllers/switch.controller.js:74-87 | 200 with the history. Any error gives 500. |
| SwitchController.InitializeReply | src/controllers/switch.controller.js:90-102 | 200 with the initialisation result. Any error gives 500. |
| SwitchController.UpdateRequest | src/controllers/switch.controller.js:20-41 | End to end, a refused value is a 400 and the row is unchanged. An accepted one is a 200 whose body and row hold the line-63 value. |
| DistanceModel.ValidateDistanceData | src/models/Distance.model.js:13-42 | Accepts exactly a number >= 0 (0 included) together with a string whose lower-cased form is online/offline/1/0/true/false. The missing-fields message is thrown exactly when either field is undefined. Each other message is tied to its own cause, in the source's check order: a non-number `distances`, then a non-string `status`, then a negative `distances`, then a status outside the list. Every throw is one of the five messages. |
| DistanceModel.InsertNewestFirst | src/models/Distance.model.js:53 | Inserting into a newest-first sequence keeps it newest-first, and the result holds the same rows plus the new one. |
| DistanceModel.SortNewestFirst | src/models/Distance.model.js:53 | `ORDER BY timestamp DESC` yields a permutation of the table in non-increasing timestamp order. |
| DistanceModel.Take | src/models/Distance.model.js:53 | `LIMIT n` is the prefix of length min(n, size). |
| DistanceModel.TakeKeepsNewest | src/models/Distance.model.js:53 | The first n of a newest-first sequence stay newest-first and are drawn from it. No row that is cut off is newer than a row kept. |
| DistanceModel.Retained | src/models/Distance.model.js:185 | Keeps exactly the rows with timestamp >= cutoff, with their multiplicities, and drops every older one. |
| DistanceModel.MinDistance | src/models/Distance.model.js:144 | MIN is a distance of some row and no greater than any row's distance. |
| DistanceModel.MaxDistance | src/models/Distance.model.js:145 | MAX is a distance of some row and no smaller than any row's distance. |
| DistanceModel.RetainedEmpty | src/models/Distance.model.js:149 | The time window is empty exactly when every row is older than the cutoff. |
| DistanceModel.WindowMinMax | src/models/Distance.model.js:144-149 | MIN and MAX over the window are the smallest and largest distances of the rows at or after the cutoff, and both occur in it. |
| DistanceModel.DistanceTables.InsertDistanceData | src/models/Distance.model.js:68-91 | Invalid data throws its validation message and leaves both tables and counters unchanged. Valid data appends exactly one row to the named table, with the next id, the status as sent (not lower-cased) and `now`. The reply echoes that row, and the other table is untouched. |
| DistanceModel.DistanceTables.GetDistanceData | src/models/Distance.model.js:50-60 | At most `limit` rows (exactly min(limit, size)) of the named table, in non-increasing timestamp order. No row left out is newer than a row returned. |
| DistanceModel.DistanceTables.Union | src/models/Distance.model.js:100-103 | `UNION ALL` holds every row of both tables, with its multiplicity, each tagged with the table it came from, and nothing else. |
| DistanceModel.DistanceTables.GetAllDistanceData | src/models/Distance.model.js:98-112 | At most `limit` rows from both tables, each tagged with its source table, in non-increasing timestamp order. The result is a sub-multiset of the union, so no row is repeated beyond its multiplicity. No row left out is newer than a row returned. |
| DistanceModel.DistanceTables.GetLatestReading | src/models/Distance.model.js:119-129 | Null exactly when the table is empty. Otherwise a row of the table whose timestamp is >= every other row's. |
| DistanceModel.DistanceTables.GetDistanceStatistics | src/models/Distance.model.js:137-174 | total_readings counts the rows of the last `hours` hours, and is 0 exactly when no row is that recent. min and max are the window's extreme distances, or 0 for an empty window. |
| DistanceModel.DistanceTables.CleanupOldData | src/models/Distance.model.js:182-198 | Removes exactly the rows older than now minus `days` days and keeps all others. deleted_records is the number removed. The other table is untouched. |
| DistanceController.ListLimit | src/controllers/distance.controller.js:7 | The `/1` and `/2` limit is 20 for NaN or 0, and otherwise the parsed value. |
| DistanceController.AllLimit | src/controllers/distance.controller.js:93 | The `/all` limit is 10 for NaN or 0, and otherwise the parsed value. |
| DistanceController.StatisticsHours | src/controllers/distance.controller.js:140 | hours is 24 for NaN or 0, and otherwise the parsed value. |
| DistanceController.CleanupDays | src/controllers/distance.controller.js:167 | days is 30 for NaN or 0, and otherwise the parsed value. |
| DistanceController.ParseSensor | src/controllers/distance.controller.js:111 | A sensor is found exactly for "1" and "2", and it names that table. |
| DistanceController.ListReply | src/controllers/distance.controller.js:5-34 | 200 with the rows. An error gives 500 naming the table. |
| DistanceController.AllReply | src/controllers/distance.controller.js:91-104 | 200 with the merged rows. An error gives 500. |
| DistanceController.PostReply | src/controllers/distance.controller.js:37-61 | Success gives 201 with the model's result. An error containing "Missing required fields" or "must be" gives 400 with that message. Any other error gives 500. |
| DistanceController.ValidationMessagesAreMarked | src/controllers/distance.controller.js:48-53 | Each of the five messages `validateDistanceData` throws contains one of the two markers. |
| DistanceController.ValidationErrorsAre400 | src/controllers/distance.controller.js:75-80 | Every validation failure of a post is a 400 carrying the validation message. |
| DistanceController.LatestReply | src/controllers/distance.controller.js:107-134 | A sensorType outside {"1","2"} gives 400 before any model result is used. No row gives 404 "No data found for sensor N", a row gives 200, and an error gives 500. |
| DistanceController.StatisticsReply | src/controllers/distance.controller.js:137-161 | An unknown sensorType gives 400. Otherwise 200 with the statistics, or 500. |
| DistanceController.CleanupReply | src/controllers/distance.controller.js:164-185 | An unknown sensorType gives 400. Otherwise 200 with the cleanup result, or 500. |
| DistanceController.PostRequest | src/controllers/distance.controller.js:64-88 | End to end, invalid data is a 400 and writes nothing. Valid data appends one row to the posted table and leaves the other alone. It gets a 201 whose body is the whole insert result: the message `Distance1 data inserted successfully` or `Distance2 …`, the new id, the distance and status as sent, the timestamp, and the sensor type. |
| DistanceController.LatestRequest | src/controllers/distance.controller.js:107-125 | End to end: an unknown sensor gives 400, an empty table gives 404, and otherwise 200 with a row no other row of that table is newer than. |
| Routes.RouterAt | server.js:29-31 | Over normalised paths, `/api/auth`, `/api/distance` and `/api/control` reach their routers. Any other prefix reaches none. |
| Routes.Match | src/routes/distance.js:7-30 | Over normalised paths, dispatch finds nothing exactly when no route has that verb and path. Otherwise it finds the first such route. |
| Routes.MatchIsFirst | src/routes/distance.js:7-30 | A route with no earlier route for the same verb and path is the one dispatched. |
| Routes.AuthEntryIsOpen | src/routes/auth.js:8-11 | POST /login and POST /register have no gate and reach `login` and `register`. |
| Routes.LogsPolicy | src/routes/auth.js:14 | GET /logs admits exactly super-admin, and it is the only gated route of the auth router. |
| Routes.DistanceOnePolicy | src/routes/distance.js:8-12 | GET /1 admits exactly admin-distance1 and super-admin. |
| Routes.DistanceTwoPolicy | src/routes/distance.js:15-19 | GET /2 admits exactly admin-distance2 and super-admin, so admin-distance1 is refused. |
| Routes.DistanceAllPolicy | src/routes/distance.js:22-26 | GET /all admits exactly super-admin. |
| Routes.DistanceIngestionIsAnonymous | src/routes/distance.js:29-30 | POST /1 and POST /2 have no gate and reach `postDistance1` and `postDistance2`. |
| Routes.SuperAdminPassesDistanceGates | src/routes/distance.js:10-24 | super-admin passes every gate of the distance router. |
| Routes.ControlPolicy | src/routes/control.js:8-15 | GET / has no gate. POST / admits exactly super-admin, so both distance admins are refused. Every control route is open or super-admin only. |
| Routes.UnknownRoleRefused | src/routes/distance.js:10-24 | A role other than the three named roles reaches only ungated routes. |
| Routes.SuperAdminReachesListedRoutes | server.js:29-31 | Every route of a mounted router is dispatched by its own verb and path, and it admits super-admin. |
| Routes.SelfRegisteredSuperAdmin | src/routes/auth.js:11-14 | Registration is anonymous and takes any role. The login token of a self-registered super-admin opens every route of all three routers. |

## Left out

- **Concurrency and timing.** Promises, callbacks, timing and concurrent requests are not modelled. An operation is one atomic step. The routed login's unawaited audit write is modelled as completing, or failing, before the reply. Two failures escape the request altogether. When the password is missing, `bcrypt.compare` rejects inside the query callback and nothing handles the rejection, which by default ends the process on Node 15 and later. The unawaited UPDATE at auth.controller.js:28 has no callback, so an error there is an unhandled `error` event after the 200 reply.
- **I/O.** Console logging, reading `process.env` and the `server.js` bootstrap (Express, CORS, the MySQL connection, `listen`) are left out. Only the mount prefixes are kept. `src/models/index.js` only re-exports the models.
- **bcrypt.** Salt, cost factor and the digest format are left out. A real `bcrypt.hash` is salted, so each call gives a different digest. The two stored copies of a registration therefore differ in the digest, and `RegisterCopiesDiffer`'s "same row" holds only for the model's deterministic `hash`. bcrypt reads only the first 72 bytes of a password, so `Exact` does not hold of the real library. `RegisterThenWrongPassword` speaks only of passwords that differ within their first 72 bytes. `hashPassword` and `verifyPassword` are the `hash` and `compare` fields of `Hasher`. A rejected `bcrypt.hash` in `register` (lines 57-59) cannot happen for the non-empty strings that reach it, so it is not modelled.
- RegisterCopiesDiffer: states that both copies insert the same row, because the model's `hash` is deterministic. With a salted hash the rows differ in the digest.
- RegisterThenWrongPassword: assumes `Exact`. For real bcrypt that covers only passwords that differ within their first 72 bytes.
- **JWT.** The secret, the signature and `verifyToken`'s expiry and signature checks are left out. `verifyToken` (src/middleware/auth.js) is not part of this model. A gate is assumed to admit exactly a token whose role is in its list, so the 401-versus-403 distinction is not modelled.
- **Ordering ties.** `ORDER BY timestamp DESC` ties are resolved by one fixed order, the insertion sort's. MySQL may pick another.
- Routes.RouterAt: paths are taken in normalised form, lower-case and without a trailing slash. Express matches mount prefixes and router paths case-insensitively and accepts a trailing slash, so `/API/distance/ALL/` reaches the same gated handler as `/api/distance/all`. That folding is not modelled, and the same holds for `Routes.Match` and `Routes.Reaches`.
- UserModel.UserStore.GetAllUserLogs: the driver's reject (User.model.js:111) is not modelled, because it is a function of the table. The routed `AuthController.GetLogs` does model that error, as its `queryError` parameter.
- **Row order of user logs.** `getAllUserLogs` and `getLogs` return the rows in driver order. The model returns a map keyed by username, so it does not capture that order.
- **MySQL column details.** MySQL collation, case-insensitive username matching and the TV column's type are left out. Usernames compare exactly. AUTO_INCREMENT gaps after a failed insert are not modelled.
- **Database errors.** In `UserModel` and `AuthController`, driver errors are parameters: `lookupError`, `auditError`, `insertError` and `queryError`. `affected_rows` of the control update is left out. So are database errors in `ControlModel` and `DistanceModel`; there, a thrown `Outcome` comes only from validation. The controllers take any outcome, so their 500 branches are still modelled. The same goes for the `Failed to toggle TV status: ...` and summary wrappers (Control.model.js:143-145, 170-172).
- DistanceModel.DistanceTables.GetDistanceStatistics: avg_distance and the online/offline counts and percentages (parseFloat, toFixed, division) are not modelled. They are floating-point formatting.
- DistanceModel.DistanceTables.GetDistanceData: `limit` is a natural number. A negative LIMIT reaching MySQL is a database error and is not modelled. The same holds for `GetAllDistanceData`.
- **JavaScript number and parsing corner cases.**
  - `parseInt` corner cases (hex prefixes, trailing text) are left out. The parsed query is given as an optional integer.
  - NaN and Infinity distances are left out: `Num` holds a real number.
- **Body field types.** Non-string `username`, `password` or `role` are left out. Auth fields are modelled as optional strings, where undefined is `None`.
- **Character handling.** `toLowerCase` is modelled for ASCII only. Unicode case mapping is left out.
- **Wall-clock time.** `NOW()` and `new Date().toISOString()` are the integer parameter `now`. Distinct date formats are not modelled.

# Link tracker: a Dafny model of its request handlers

The service mints short codes for URLs, serves a landing page for each code,
stores the browser telemetry that page posts back, and lets an administrator
view and delete that telemetry behind a password. Under the Flask and SQLite
plumbing it is a sequential state machine over three pieces of state:

- the `links` table (`id`, `original_url`, `short_code`, `created_at`, keyed by `id`, with `id == short_code`);
- the `tracking_data` table (one row per visit, keyed by a UUID `id`, with the client's fields plus `ip` and `timestamp`);
- the caller's session (`logged_in`, `username`).

`Server.App` holds that state (`links` as a map from key to row, `events` as
the sequence of rows in insertion order, `loggedIn` and `username`) and has one
method per route handler, each returning a `Response` (status code and
payload). The queries (`is_logged_in`, `/t/<code>`, `/qrcode/<code>`,
`/dashboard`) are functions of that state. Everything external is a parameter:
the generated UUID string, the clock's ISO timestamp, the remote address, the
request's host URL; SHA-256, the QR encoder and base64 are functions fixed
when the application is built.

Modules:

- `Wrappers`: `Option`.
- `Text`: Python's `s[:n]` and SQLite's ordering of TEXT values (BINARY collation: code-point lexicographic order, which is what memcmp on UTF-8 gives), with its order laws.
- `Records`: the rows of both tables and the telemetry payload.
- `LinksTable`: the keyed-by-code invariant and the lookup by `short_code`.
- `EventsTable`: delete by key, and the `ORDER BY timestamp DESC` listing, proved sorted and a permutation of the table, and unique when timestamps are distinct.
- `Server`: the responses, the tracking URL and its route, the credential check, and the `App` class.
- `Scenarios`: request sequences a client relies on, proved from the handlers' contracts.

The class invariant `App.Valid()` says that every link is stored under its own
code, that event keys are distinct (the primary key), and that the session flag
is set exactly when the session's user is `admin`. Every handler preserves it.

Behaviour of the code worth noting:

- the tracking URL is `host_url + "t/" + code`, and `host_url` already ends in `/`;
- an anonymous `/dashboard` request is redirected to `/login` (app.py:218-219);
- a failed login redirects to `/login?error=1` and leaves the session as it was, so a failed attempt does not log out a session that was already logged in;
- a short code or event id that is already stored violates the primary key: the insert raises, the exception escapes, and the answer is 500 with nothing written.

## Model

| member | source | states |
|---|---|---|
| `Text.Prefix` | app.py:95 | the code is the first 8 characters of the UUID string (all of it when shorter) and is a prefix of it |
| `Text.LexLeReflexive` | app.py:224 | the TEXT order used by `ORDER BY timestamp` (`LexLe`, SQLite's BINARY collation: code-point lexicographic, a proper prefix first) is reflexive |
| `Text.LexLeTotal` | app.py:224 | any two timestamps are comparable |
| `Text.LexLeTransitive` | app.py:224 | the timestamp order is transitive |
| `Text.LexLeAntisymmetric` | app.py:224 | two timestamps each not after the other are equal |
| `LinksTable.FindByCode` | app.py:148-149 | `WHERE short_code = ?` finds a row exactly when some row has that code, and then it is that row (codes are unique because they are the primary key) |
| `LinksTable.InsertResolves` | app.py:103-108 | inserting a row under a fresh code keeps the table keyed, adds one row, and the code then finds that row |
| `EventsTable.WithoutId` | app.py:247 | `DELETE ... WHERE id = ?` keeps exactly the rows whose key differs from `id` |
| `EventsTable.WithoutIdAbsent` | app.py:245-251 | deleting a key that is not present leaves the table unchanged |
| `EventsTable.WithoutIdIdempotent` | app.py:247 | deleting the same key twice leaves the table as deleting it once |
| `EventsTable.WithoutIdExact` | app.py:247 | with distinct keys, deleting the key of row `i` removes that row and keeps all others in order |
| `EventsTable.WithoutIdKeepsDistinct` | app.py:26-27 | deletion preserves the primary-key constraint of `tracking_data` |
| `EventsTable.InsertDesc` | app.py:224 | placing one row into a listing adds exactly that row |
| `EventsTable.InsertDescSorted` | app.py:224 | placing a row into a newest-first listing keeps it newest first |
| `EventsTable.SortDesc` | app.py:224-225 | the dashboard listing is ordered by timestamp descending and is a permutation of the table |
| `EventsTable.SortedDescUnique` | app.py:224 | with distinct timestamps, only one listing is newest first and a permutation of the table |
| `EventsTable.NewestFirst` | app.py:224-225 | rows inserted with increasing timestamps are listed in reverse insertion order |
| `Server.CodeFromUrl` | app.py:164 | the route `/t/<short_code>` drops the query string and fragment and yields a non-empty code free of `/`, `?`, `#` and `%`, whose tracking URL is the requested URL up to that query string or fragment |
| `Server.PathPart` | app.py:164 | the part of a URL the router matches is a prefix of it free of `?` and `#`, ending where the query string or fragment begins |
| `Server.PathPartStopsAtQuery` | app.py:164 | the router reads a segment free of `?` and `#` whole, and stops at a query string that follows it |
| `Server.TrackingUrlRoundTrip` | app.py:110 | the tracking URL `TrackingUrl` builds for a code (`host_url + 't/' + code`), with or without a query string, routes back to that same code |
| `Server.UuidCodeRoundTrip` | app.py:95-110 | the tracking URL of a code cut from a UUID string (8 hex digits) routes back to that code |
| `Server.CredentialsMatchExactly` | app.py:18-19 | the login condition `CredentialsMatch` (app.py:70: name `admin` and the digest of `admin123`) accepts, for a collision-free digest, exactly the name `admin` with the password `admin123` |
| `Server.App.constructor` | app.py:22-48 | a fresh database has both tables empty and a fresh session is logged out |
| `Server.App.IsLoggedIn` | app.py:57-58 | the session flag is set exactly when the session's user is `admin` |
| `Server.App.Login` | app.py:61-77 | GET renders the form; POST without a password fails with 500; POST satisfying `CredentialsMatch` (name `admin`, password digest equal to that of `admin123`) sets both session keys and redirects to `/dashboard`; otherwise redirects with `error=1` and leaves the session; the tables never change |
| `Server.App.Logout` | app.py:80-84 | both session keys are cleared whatever they held, the tables are unchanged, and the caller is redirected to `/` |
| `Server.App.CreateLink` | app.py:87-121 | a missing or empty URL gives 400 and writes nothing; a code already taken gives 500 and writes nothing; otherwise exactly one row `(code, url, code, now)` is added under the 8-character code, the answer carries the URL, tracking URL, code and QR image, and the code then resolves to the URL and its QR image |
| `Server.App.GetQrcode` | app.py:144-161 | a stored code gives the QR image of its tracking URL (`TrackingUrl`, app.py:155); an unknown code gives 404 |
| `Server.App.TrackLink` | app.py:164-179 | a stored code gives the landing page for its stored URL; an unknown code gives 404 |
| `Server.App.ReceiveTrackingData` | app.py:182-212 | exactly one row is appended with the fresh id, the caller's address, the server timestamp and the client's fields copied unvalidated, and the answer echoes the client's `originalUrl`; a colliding id gives 500 and writes nothing |
| `Server.App.Dashboard` | app.py:215-230 | an anonymous session is redirected to `/login`; a logged-in one gets every stored row, newest first, with its username |
| `Server.App.DeleteTrackingRecord` | app.py:238-253 | an anonymous session gets 403 and nothing changes; a logged-in one gets success and the table without the rows of that key |
| `Server.App.DeleteAllTrackingRecords` | app.py:256-271 | an anonymous session gets 403 and nothing changes; a logged-in one gets success and an empty table |
| `Scenarios.DeleteTwice` | app.py:238-251 | deleting a record twice gives the same answer both times; the events table after both calls is the table after the first, and the links table and the session are unchanged |
| `Scenarios.LogoutTwice` | app.py:80-84 | logout is idempotent |
| `Scenarios.LoginUnlocksDashboard` | app.py:215-219 | an anonymous session is sent to the login page; after logging in as `admin`/`admin123` the dashboard lists all rows and deleting everything succeeds |
| `Scenarios.ThreeRowsNewestFirst` | app.py:224-225 | three rows with increasing timestamps are listed third, second, first |
| `Scenarios.RecordThreeVisits` | app.py:186-210 | three visits with distinct ids recorded on an empty table are stored in arrival order with their ids and timestamps |
| `Scenarios.ThreeVisitsNewestFirst` | app.py:186-225 | three visits recorded at increasing times are listed third, second, first |

## Left out

- HTML rendering (`render_template`), `send_file`, `jsonify` and redirects are plumbing; handlers return a `Response` value with the payload and `Status()` gives its HTTP status.
- SQLite connections, commits and `init_db`'s `CREATE TABLE`: the tables are in-memory values; a fresh application starts with both empty.
- Storage failures caught by the two DELETE handlers (500 with the exception text, app.py:252-253 and app.py:270-271) come from the storage engine, not the handler logic, and are not modelled.
- QR image generation (app.py:124-141) and base64 encoding are foreign library calls: `qrPng` and `base64` are arbitrary functions given to the constructor.
- SHA-256 is an arbitrary function `hash` given to the constructor; only the equality of digests is modelled, so a colliding password would log in, as it would in the program.
- `uuid.uuid4`, `datetime.now` and `request.remote_addr` are parameters; the model does not assume the UUID's format. `TrackingUrlRoundTrip` needs a non-empty code without `/`, `?`, `#` or `%`, which the first 8 characters of a UUID string (8 hex digits) always are; `UuidCodeRoundTrip` proves this.
- Server.CodeFromUrl: does not percent-decode the path as the router does; a segment holding `%` yields no code, so a URL such as `.../t/%61b` that the program routes to code `ab` is not represented.
- Request bodies that are malformed JSON, or sent with a non-JSON content type, are refused by `request.get_json()` itself with a 4xx before the handler reads any field; a JSON body that is not an object (`null`, `[]`, `5`) makes `data.get` raise, giving 500. Neither path is modelled. JSON values that are not strings are not modelled either: `url` and the telemetry fields are optional strings, so a falsy non-string `url` (such as `0` or `false`) is not represented.
- The session is one client's session; cookie signing, the random secret key (app.py:15), session expiry and concurrent clients are not modelled.
- The order of rows with equal timestamps is unspecified in SQL; `SortDesc` fixes one order, and its contract promises only newest-first and a permutation.
- The `/` route, the `templates` directory creation, `app.run`, the unused `requests` import and the landing page's client-side script are outside the handlers' logic.

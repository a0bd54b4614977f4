# eco-rise: sessions, login gate and account routes

eco-rise is a Flask application backed by MongoDB. This project models its core and proves properties of the model:

- **Server-side session** (utils/conexion.py). A `Session` resolves an id in this order: an explicit id, else the id inside the signed `idsession` cookie, else a new `uuid4()`. Every construction touches the record's `__last_acceded`. The data lives under `__data` in `session_col`. The metaclass gives `Session[key]`, `Session[key] = v`, `key in Session` and `Session.to_dict()`, and each of these builds a new `Session`. `Session.clear()` is a class method: it reads the cookie itself and builds no `Session`. A write `$set`s the path `__data.<key>`, so a key with dots writes into nested objects and a key MongoDB refuses as a path raises.
- **Login gate and home routes** (routes/RInicio.py). `validate_login` runs before every request. `Inicio` redirects the home page. `SecurityCheck` compares the user id a page was rendered for with the id the visitor typed and the id in the session.
- **Account routes** (routes/RAuth.py): `Login`, `Logout` and `Register`.
- **User collection** (model/MUsers.py).
- **Helpers** (utils/tools.py): the log writer and its level classification, the response envelope `msg` / `msg_err`, `parse_ids`, `ruta_abs` and `t_int`.

State the source changes in place is modelled with classes:

- `Sessions.SessionStore` holds `session_col` as a map from id to record.
- `Users.UserTable` holds `users` as a sequence of documents in insertion order. `find_one` takes the first match and `update_one` changes only that match. A query value that is an object whose keys all start with `$` is applied as operators: `$eq` and `$ne` are spelled out, and the others are the unspecified constant `Users.ServerOperator`, so every property holds whatever they do. A query the server rejects raises.
- `Tools.LogStore` holds `log_col`.
- `Http.Request` is the request in flight. Its `pending` list holds the `after_this_request` cookie callbacks.
- `Uuids.Entropy` is the stream of `uuid4()` values.

Each handler is a method, proved against pure functions that say what it does:

- `Sessions.TouchAt`, `SetAt`, `GetAt`, `ClearedRecords` and `Resolve`.
- `Inicio.Decide`.
- `Auth.LoginDecision` and `Auth.RegisterDecision`, with the `LoginEffect` and `RegisterEffect` predicates.

The lemmas prove properties of those functions. Some lemmas relate the routes to each other: a sign-in passes the gate, a logged-out cookie is stopped by it, and a newly registered account cannot sign in.

The clock, the random values and the signing key are parameters:

- An `Instant` is passed to every operation that reads `datetime.now()`.
- The `Entropy` object hands out the values of an unknown function, so every result holds whatever the random values are.
- A `Signer` is given by its signature function. The only property used is that signatures are URL-safe base64, so they contain no `.`.

Two behaviours of the code are easy to miss, and the model keeps both:

- `key in Session` is not a read-only test. It builds a `Session`, and construction upserts the `__last_acceded` touch, so the test touches the record and creates it when it is missing.
- A cookie callback is registered for every `Session` that is constructed, not once per request. A gated GET that reaches a handler calling `Session[...]` again therefore queues several `Set-Cookie` actions.

## Model

| member | source | states |
|---|---|---|
| Values.GetKey | utils/conexion.py:117 | `d.get(key)` is the stored value when the key is present and `None` when it is absent |
| Values.Subscript | routes/RAuth.py:13-15 | reading a field of a JSON body succeeds exactly when the body is an object with that key, and gives that key's value; a missing key raises `KeyError(key)` |
| Values.DocGet | routes/RAuth.py:19 | `user["iduser"]` succeeds exactly when the document has the key and then gives that value, else raises `KeyError("iduser")` |
| Values.PyEqReflexive | routes/RInicio.py:44 | every value equals itself under Python `==` |
| Values.PyEqSymmetric | routes/RInicio.py:44 | `a == b` and `b == a` agree, also inside lists and dicts |
| Values.PyEqTransitive | routes/RInicio.py:44 | `a == b` and `b == c` give `a == c`, also inside lists and dicts |
| Values.ContainersCompareByValue | routes/RAuth.py:42 | `[1] == [True]` and `{"a": 1} == {"a": True}` hold, `"1" == 1` and `[1] == [1, 1]` do not |
| Values.Truthy | routes/RInicio.py:25 | `bool(v)` is false exactly for `None`, `False`, `0`, `""`, `[]` and `{}` |
| Values.PyEq | routes/RInicio.py:44 | under Python `==` a string, `None` or ObjectId equals only itself, and a number equals only a number of the same value (`True == 1`) |
| Numerals.DecimalRoundTrip | utils/tools.py:86-90 | the decimal text of every natural number is all digits and reads back as that number |
| Numerals.DecimalTextShape | utils/tools.py:17 | `str(n)` is a non-empty run of digits with no leading zero |
| Numerals.PaddedShape | utils/tools.py:39 | a zero-padded strftime field is all digits, has the padded width (or more), and reads back as the number |
| Numerals.HexDigitsShape | utils/conexion.py:31 | `uuid.hex` of a value has exactly 32 lower-case hexadecimal digits |
| Numerals.HexRoundTrip | utils/conexion.py:31 | a value below 16^width is read back exactly from its hexadecimal text |
| Signing.UnsignSign | utils/conexion.py:82 | unsigning what the signer signed gives back the same id |
| Signing.UnsignOnlySigned | utils/conexion.py:68 | a token is accepted only if it is exactly the signature of the value it yields; any other token raises `BadSignature` |
| Signing.UnsignIff | utils/conexion.py:68 | `unsign(t)` yields `v` if and only if `t == sign(v)` |
| Signing.LastIndexOf | utils/conexion.py:68 | the separator found is the last `.` of the token, and none is found exactly when the token has no `.` |
| Signing.Sign | utils/conexion.py:82 | `sign(v)` is `v`, then the separator `.`, then the signature of `v` |
| Signing.Unsign | utils/conexion.py:68 | an accepted token is the value it yields, a `.` and then the signature of that value |
| Uuids.DashedShape | utils/conexion.py:70 | `str(uuid4())` has 36 characters with dashes at 8, 13, 18 and 23, and holds the 32 hexadecimal digits in order |
| Uuids.Hex | utils/conexion.py:31 | `uuid.hex` is 32 lower-case hexadecimal digits |
| Uuids.HexDecodes | utils/conexion.py:31 | the 32 digits of `uuid.hex` read back as the UUID value |
| Uuids.Dashed | utils/conexion.py:70 | `str(uuid)` has 36 characters with dashes at 8, 13, 18 and 23 |
| Uuids.Entropy.Next | utils/conexion.py:31 | each `uuid4()` returns the next value of the random stream and advances it by one |
| Uuids.HexRun | utils/conexion.py:28-32 | `n` concatenated 32-digit blocks are `32 * n` characters long |
| Uuids.HexRunBlock | utils/conexion.py:28-32 | block `k` of the generated text is the hex form of the `k`-th value drawn |
| Uuids.HexRunDecodes | utils/conexion.py:28-32 | every 32-character block of the generated text reads back as the random value it was made from |
| Uuids.GenerateUuid | utils/conexion.py:28-32 | `GenerateUuid(n)` draws `n` values (none for `n <= 0`) and returns their hex forms concatenated, `32 * n` characters |
| Clock.JoinedShape | utils/tools.py:39 | each field of a `%Y-%m-%d` / `%H:%M:%S` group sits at its offset, with the separators between them |
| Clock.StampLength | utils/tools.py:39 | the timestamp of a valid instant is 19 characters long |
| Clock.StampLayout | utils/tools.py:39 | the timestamp has `-`, ` ` and `:` at fixed offsets, with the year, month and second fields where `%Y-%m-%d %H:%M:%S` puts them |
| Clock.StampShape | utils/tools.py:39 | year, month and second are read back from the timestamp text |
| Clock.Stamp | utils/tools.py:39 | `strftime('%Y-%m-%d %H:%M:%S')` has at least 19 characters for every instant |
| Clock.FieldsLayout | utils/tools.py:39 | fields of widths 4, 2, 2, 2, 2 and 2 joined by `-`, ` ` and `:` land at fixed offsets of a 19-character text |
| Numerals.Padded | utils/tools.py:39 | a zero-padded field is at least as wide as asked |
| Http.HostNameShape | utils/conexion.py:77 | `host.split(":")[0]` is a colon-free prefix of the host, and is either the whole host or is followed by a colon |
| Http.HostName | utils/conexion.py:77 | `host.split(":")[0]` is a prefix of the host with no colon |
| Http.IsLocal | utils/conexion.py:77-78 | a host counts as local only when it is `127.0.0.1` or `localhost`, alone or followed by `:` |
| Http.ClientIp | routes/RInicio.py:10 | the client address is the `X-Real-IP` header when present, else the remote address |
| Sessions.TouchAt | utils/conexion.py:93-99 | the touch upserts the record of the id, so that record exists with `__last_acceded == now`, and no other id is added |
| Sessions.GetAt | utils/conexion.py:116-117 | a read that is not `None` is the value stored under that key in the record of that id |
| Sessions.SetAt | utils/conexion.py:101-111 | a non-`None` set leaves the record of the id present with `__last_acceded == now` and adds no other id; every other record is kept |
| Sessions.Carried | utils/conexion.py:64-72 | the id a request carries is never empty, and a non-empty explicit id always wins |
| Sessions.CarriedOrigin | utils/conexion.py:66-68 | a carried id other than the explicit one is the id a present cookie verifies to |
| Sessions.Resolve | utils/conexion.py:64-73 | the resolved id is never empty, given a non-empty minted uuid text |
| Sessions.ResolveOrigin | utils/conexion.py:64-73 | the resolved id is the minted uuid text, the explicit id, or the id a cookie verifies to |
| Sessions.ClearedRecords | utils/conexion.py:125-131 | `clear` only deletes: every remaining record is kept as it was, and the only id deleted is the one a verified cookie carries |
| Sessions.ClearActions | utils/conexion.py:121-146 | `clear` schedules at most one cookie, the expiring one, and schedules it exactly when the request brought a non-empty cookie |
| Sessions.Segments | utils/conexion.py:109 | the names of `__data.<key>` below `__data`: a key without `.` is one name, and the first name of a dotted key is shorter than the key |
| Sessions.SegmentsJoin | utils/conexion.py:109 | joining the names with `.` gives the key back, and no name holds a `.` |
| Sessions.WritePath | utils/conexion.py:107-111 | an accepted path write adds its first name, keeps every other top-level key and stores no `None` at the top |
| Sessions.WriteThenReadPath | utils/conexion.py:107-111 | an accepted path write reads back the value along the same path |
| Sessions.SimpleKeyWrites | utils/conexion.py:107-111 | a non-empty key with no `.` and no leading `$` is never refused and is stored under itself |
| Sessions.SessionStore.constructor | utils/conexion.py:18 | `session_col` starts empty and holds no `None` value |
| Sessions.Session.constructor | utils/conexion.py:60-91 | the id is the explicit one, else the unsigned cookie id, else a new `str(uuid4())`; the record of that id is touched; one signed cookie is scheduled |
| Sessions.Session.UpdateLastAccessed | utils/conexion.py:93-99 | the store becomes the touch of this session's id, and keeps holding no `None` |
| Sessions.Session.Set | utils/conexion.py:101-111 | the store becomes `SetAt`: nothing for `None`; otherwise the touch, then the `$set` of the path `__data.<key>` split at `.`; a refused path keeps only the touch and is what the call raises |
| Sessions.SetSteps | utils/conexion.py:105-111 | the touch followed by an accepted or refused path write is `SetAt`, and the store stays free of `None` |
| Sessions.Session.Get | utils/conexion.py:113-117 | the result is the stored value of the key or `None`, and the record is touched |
| Sessions.TouchTwice | utils/conexion.py:93-99 | touching twice at the same instant is touching once |
| Sessions.MetaGet | utils/conexion.py:36-41 | `Session[key]` / `Session.get(key)` returns the value stored under the resolved id (or `None`), touches that record, draws a uuid only when no id is carried, and schedules one cookie |
| Sessions.MetaSet | utils/conexion.py:43-46 | `Session[key] = value` leaves the store as touch then `SetAt` on the resolved id, with the same draws and cookie as construction; it raises only a refused path, and never for a simple key |
| Sessions.Contains | utils/conexion.py:48-51 | `key in Session` is true exactly when the resolved session's data holds the key; the record is touched (created if missing) |
| Sessions.ToDict | utils/conexion.py:53-56 | `to_dict()` is the resolved session's data, or `{}` when there was no record; the only write is the touch |
| Sessions.Clear | utils/conexion.py:119-146 | with no cookie nothing happens; otherwise the record of a validly signed id is deleted (none for a bad signature) and one expired cookie is scheduled |
| Sessions.SetThenGet | utils/conexion.py:36-46 | in a request that carries an id, reading a simple key right after writing a non-`None` value gives that value; a dotted or refused key reads what it held before, because the read looks the key up as it is |
| Sessions.ExplicitIdWins | utils/conexion.py:64-65 | a non-empty explicit id is used whatever the cookie says |
| Sessions.SignedCookieResolves | utils/conexion.py:66-68 | a cookie signed for a non-empty id resolves to exactly that id, without drawing a uuid |
| Sessions.UnsignedCookieIsFresh | utils/conexion.py:66-73 | a missing, empty or tampered cookie resolves to the newly minted uuid |
| Sessions.TouchKeepsData | utils/conexion.py:93-99 | a touch changes no session's data, and no record except the touched one |
| Sessions.SetNullIsNoOp | utils/conexion.py:101-103 | setting `None` leaves the store unchanged |
| Sessions.SetFrame | utils/conexion.py:101-111 | after a non-`None` set only this record changes and only its timestamp moves; only the first name of the path can change in the data; an accepted path reads back the value, a refused one keeps the data; a simple key reads back the value and leaves every other key as it was |
| Sessions.OperationsKeepNoNulls | utils/conexion.py:101-103 | touch, set and clear keep the store free of stored `None` values |
| Sessions.GetNoneIffAbsent | utils/conexion.py:113-117 | in such a store a read gives `None` exactly when the key is absent from the record (or the record is missing) |
| Sessions.ClearRemovesSignedId | utils/conexion.py:125-131 | `clear` with a validly signed cookie deletes exactly that id's record and schedules the expiring cookie |
| Sessions.ClearTamperedKeepsAll | utils/conexion.py:125-131 | `clear` with a cookie the signer did not produce deletes nothing |
| Sessions.ClearThenNewVisitor | utils/conexion.py:119-131 | after `clear` the old id has no record, and a cookieless request resolves to a new id with no data |
| Sessions.ClearIdempotent | utils/conexion.py:119-131 | clearing twice with the same cookie is clearing once |
| Sessions.CookieAttributes | utils/conexion.py:80-91 | the issued cookie is `idsession`, carries the signed id, lasts 31536000 s, is HttpOnly and `SameSite=Lax`, and is not `Secure` exactly on `127.0.0.1` / `localhost` |
| Sessions.HostWithPort | utils/conexion.py:77-78 | a port after the host name never changes whether the host counts as local |
| Sessions.DashedInjective | utils/conexion.py:70-73 | two different uuid values give two different session ids |
| Sessions.CookielessWritesAreNotReadBack | utils/conexion.py:36-46 | without a valid cookie, each metaclass access resolves its own new id, so a write is not seen by the next read of the same request unless the random values collide |
| Tools.Lower | utils/tools.py:17 | `lower()` keeps the length of the text |
| Tools.WriteLog | utils/tools.py:8-50 | `escribir_log` appends exactly one entry with a new `idlog`, the instant, the classified level and `str(msg)`, and draws one uuid |
| Tools.NumericStatusLevel | utils/tools.py:16-29 | with an integer status the level is error for 1 or an exception, warning for 2, and exito otherwise |
| Tools.ExceptionIsError | utils/tools.py:16-18 | an exception is filed as an error whatever its status |
| Tools.TextStatusLevel | utils/tools.py:16-19 | a text status is compared without regard to case; `"WARNING"` is a warning and the text `"2"` is not |
| Tools.WarningStatus | utils/tools.py:19-26 | status `"warning"` with a text message files a warning |
| Tools.Classify | utils/tools.py:16-29 | status 1 or an exception is filed as an error; a warning or exito has neither; exito never has status 2 |
| Tools.LogLine | utils/tools.py:39 | the stored `mensaje` is `[`, the timestamp, `] `, the message and a newline, so its length is the timestamp's plus the message's plus 4 |
| Tools.LogStore.constructor | utils/conexion.py:19 | `log_col` starts with no entries |
| Tools.LogLineMessage | utils/tools.py:39 | the stored `mensaje` is `[`, the 19-character timestamp, `] `, the message and a newline, so the message is recovered from it |
| Tools.Envelope | utils/tools.py:62-65 | `msg` returns exactly the keys `status`, `msg` and the extra keywords, with the status, the message text (an exception as its `str`) and the extra values |
| Tools.Msg | utils/tools.py:53-65 | `msg` returns the envelope; with `log=True` it writes one entry classified from the status, otherwise it writes nothing |
| Tools.MsgErr | utils/tools.py:68-69 | `msg_err(e)` returns status 1 with `str(e)` and logs one error entry |
| Tools.StringifyIds | utils/tools.py:73-74 | the dict case keeps the key set, turns each ObjectId into its 24-digit text and leaves every other value unchanged |
| Tools.FirstFailure | utils/tools.py:75 | the list comprehension stops at the first item that raises; before it every item succeeded |
| Tools.ParseIds | utils/tools.py:72-75 | a dict gives its stringified copy; a list that parses gives a list of the same length |
| Tools.ParseIdsList | utils/tools.py:75 | each item of a parsed list is that item's own parse |
| Tools.ParseIdsIdempotent | utils/tools.py:72-75 | parsing the output of `parse_ids` again changes nothing |
| Tools.ForwardSlashes | utils/tools.py:79 | every backslash becomes `/`, every other character stays, and no backslash is left |
| Tools.RutaAbsShape | utils/tools.py:78-83 | `ruta_abs(p)` is the base followed by `p` with slashes turned forward, with `/` put in front exactly when it did not start with one; no backslash remains |
| Tools.RutaAbs | utils/tools.py:78-83 | the result starts with the base followed by `/`, and holds no backslash after the base |
| Tools.RootedIdempotent | utils/tools.py:80-82 | normalising an already normalised path changes nothing |
| Tools.StripLeft | utils/tools.py:88 | stripping the left end leaves a suffix that does not start with whitespace |
| Tools.StripRight | utils/tools.py:88 | stripping the right end leaves a prefix that does not end with whitespace |
| Tools.Strip | utils/tools.py:88 | `strip()` never lengthens the text and leaves no whitespace at either end |
| Tools.ParseInt | utils/tools.py:88 | `int(s)` succeeds only on text that strips to something non-empty; a negative result comes from a leading `-`; the result's `str` has at most 4300 digits |
| Tools.TInt | utils/tools.py:86-90 | an int gives itself, a bool 0 or 1, a text that `int()` reads that number; a text `int()` refuses, `None`, an ObjectId, a list and a dict give 0 |
| Tools.WithoutUnderscores | utils/tools.py:88 | removing the underscores of digit groups leaves only digits |
| Tools.StripNothing | utils/tools.py:88 | a text with no whitespace at either end is its own `strip()` |
| Tools.DecimalTextGroups | utils/tools.py:88 | a number's decimal text is one digit group |
| Tools.IntTextStripped | utils/tools.py:88 | a number's text has nothing for `strip()` to remove |
| Tools.TIntReadsIntText | utils/tools.py:86-90 | `t_int(str(i)) == i` for every integer whose text has at most 4300 digits |
| Tools.ParseIntText | utils/tools.py:86-90 | `int(str(i))` gives back `i` when `str(i)` has at most 4300 digits, and raises otherwise |
| Tools.TIntLongTextIsZero | utils/tools.py:86-90 | `t_int(str(i))` is 0 when `str(i)` has more than 4300 digits, because `int()` refuses the text |
| Tools.DecimalTextNoLonger | utils/tools.py:88 | a digit text is never shorter than the canonical text of the number it spells, so a text within the digit bound gives a number whose `str` is within it too |
| Tools.TIntIgnoresSpaces | utils/tools.py:86-90 | surrounding whitespace is ignored: a text that strips to `str(i)`, with at most 4300 digits, gives `i`, as `t_int(" 42\n") == 42` |
| Tools.StripPadded | utils/tools.py:88 | a leading blank and a trailing newline are what `strip()` removes |
| Tools.TIntAsciiWithoutDigits | utils/tools.py:86-90 | an ASCII text without any digit converts to 0 |
| Users.FirstMatchFrom | model/MUsers.py:8 | the index found is the first matching document from `k` on, or none matches |
| Users.FirstMatch | model/MUsers.py:8 | `find_one` acts on the first matching document in insertion order, or none matches |
| Users.FindOne | model/MUsers.py:8 | a query the server rejects raises with the server's message; otherwise `find_one` finds a document exactly when some stored document matches, and what it finds is a stored match |
| Users.SingleCondition | model/MUsers.py:7 | a one-field query matches exactly the documents where that condition holds, and is accepted exactly when the condition is |
| Users.EqualsField | model/MUsers.py:7-8 | a field equals its own value; a missing field equals only `None`; a field that is not an array equals only its own value |
| Users.FieldMatches | model/MUsers.py:8 | a plain value matches by equality; an operator document with `$eq` needs equality and one with `$ne` needs inequality |
| Users.Matches | model/MUsers.py:8 | the empty query matches every document; a matching document equals every plain value of the query |
| Users.LoginQuery | model/MUsers.py:13-15 | every document the login query matches has status `"A"` |
| Users.NewUser | model/MUsers.py:20 | the new user document has the given `iduser`, no `status` and no `_id` |
| Users.ByValueIsEquality | model/MUsers.py:14 | `{"$eq": v}` is an accepted operator document that matches exactly the documents whose field equals `v` or holds it in an array, whatever `v` is |
| Users.LoginQueryAccepted | model/MUsers.py:13-15 | the login query is accepted exactly when both credentials are accepted conditions |
| Users.FirstMatchAppend | model/MUsers.py:21 | inserting a document at the end never changes which earlier document matches first |
| Users.UserTable.constructor | utils/conexion.py:17 | the `users` collection starts empty, with every stored `_id` an ObjectId already issued |
| Users.UserTable.InsertOne | model/MUsers.py:21 | `insert_one` of a document without `_id` appends it with a new ObjectId `_id` and returns that id |
| Users.UserTable.UpdateOne | model/MUsers.py:48 | `update_one` has `UpdateOutcome`: a rejected query raises and no match changes nothing; changing `_id` fails and changes nothing; otherwise the first match gets the fields written over it and `modified` says whether a value changed |
| Users.SetFieldsFrame | model/MUsers.py:48 | `$set` changes exactly the given fields and keeps every other one |
| Users.UpdateByIdFrame | model/MUsers.py:48-60 | an update by `iduser` matches at most one user; none matched means no user matches and nothing changed; one matched means exactly the written fields of the first matching user changed; a failure changes nothing |
| Users.GetUserById | model/MUsers.py:6-9 | a string is looked up by `iduser`, anything else by `_id`; it raises exactly for a rejected operator document; it returns the match `find_one` gives, or `None` when that match is empty or absent: a returned user is a stored non-empty match, for a string `None` means no user has that `iduser`, and for another non-`None` value it means no document matches in a table without empty documents |
| Users.GetUserLogin | model/MUsers.py:12-16 | it raises exactly when a credential is an operator document the server rejects; otherwise a user is returned exactly when some stored user matches the credentials as conditions and status `"A"`, and the one returned matches all three |
| Users.GetUserByName | model/MUsers.py:63-64 | it raises exactly for a rejected name condition; otherwise a user is returned exactly when some stored user matches the name, and it is one that matches |
| Users.RegUser | model/MUsers.py:19-23 | exactly one document is appended, holding a new 32-digit `iduser`, the credentials and a new `_id`, with no `status`; that document is returned |
| Users.RegisteredIsFoundById | model/MUsers.py:21-22 | the lookup by the new ObjectId finds the document just inserted |
| Users.RegisteredUserCannotLogIn | model/MUsers.py:12-20 | appending a document without `status` leaves every login lookup as it was |
| Users.RegUserThenLogin | model/MUsers.py:12-23 | a user `RegUser` just created is not found by `GetUserLogin` |
| Users.GetUserLoginByValue | model/MUsers.py:12-16 | with each credential wrapped in `$eq`, the lookup never raises and finds a user exactly when one is active and holds both values |
| Users.GetUserByNameByValue | model/MUsers.py:63-64 | with the name wrapped in `$eq`, the lookup never raises and finds a user exactly when one holds that value |
| Users.UpdateUserField | model/MUsers.py:44-48 | missing `dato`, `iduser` or `valor` raises `KeyError` in that order; a list or dict `dato` raises `TypeError`, another non-string is refused by pymongo; a string `dato` has the `update_one` outcome of `{dato: valor}` on `{"iduser": iduser}`, so only that field of the first matching user changes, or nothing when none matches |
| Users.UpdateUserStatus | model/MUsers.py:51-54 | missing `iduser` or `status` raises `KeyError`; otherwise the `update_one` outcome of `{status: ...}` on the first matching user, so only `status` of that user changes, or nothing when none matches |
| Users.UpdateProfile | model/MUsers.py:57-60 | missing `iduser` raises `KeyError`; otherwise the `update_one` outcome of every keyword but `iduser` on the first matching user; with no other keyword nothing is modified |
| Inicio.ValidateLogin | routes/RInicio.py:8-27 | allow-listed paths pass untouched; otherwise the outcome is `Decide` on the session's record, with one session built (two for a POST that passes) and one warning logged before a denial |
| Inicio.PostBranch | routes/RInicio.py:22-24 | a gated POST ends in the outcome `Decide` gives, and the effects that outcome calls for |
| Inicio.OtherBranch | routes/RInicio.py:25-27 | any other gated method ends in the outcome `Decide` gives, and the effects that outcome calls for |
| Inicio.LogDenial | routes/RInicio.py:23 | a denial appends one warning naming the client IP and the path, and draws one uuid |
| Inicio.GatePost | routes/RInicio.py:22-24 | `"iduser" in Session` builds one session; without the key the warning is logged and the POST is denied, with the key a second session is built and the POST passes |
| Inicio.GateOther | routes/RInicio.py:25-27 | `Session.get("iduser")` builds one session; a GET with a falsy value is logged and redirected, anything else passes |
| Inicio.PostStepsCompose | routes/RInicio.py:22-24 | the two steps of a gated POST make up its outcome |
| Inicio.PassedPostCompose | routes/RInicio.py:22-25 | a POST whose session holds `iduser` builds two sessions and passes |
| Inicio.DeniedPostCompose | routes/RInicio.py:22-24 | a POST whose session lacks `iduser` builds one session, logs once and is denied |
| Inicio.OtherStepsCompose | routes/RInicio.py:25-27 | the steps of any other method make up its outcome |
| Inicio.DenialsLogOnce | routes/RInicio.py:21-27 | every denial writes exactly one warning, a pass writes none, and the gate changes no session's data |
| Inicio.PublicPrefix | routes/RInicio.py:11-21 | every path that starts with an allow-listed prefix passes, whatever the method and session |
| Inicio.RootIsGated | routes/RInicio.py:11-21 | `/` is not allow-listed |
| Inicio.Public | routes/RInicio.py:11-21 | an allow-listed path starts with `/`, and every path that starts with `/Login` is allow-listed |
| Inicio.ExcludedPathsRooted | routes/RInicio.py:11-20 | every allow-listed prefix starts with `/` and names something after it |
| Inicio.Decide | routes/RInicio.py:21-27 | allow-listed paths pass; a POST is denied exactly when the path is off the list and the session lacks the key; a redirect, always to `/Login`, comes exactly for an off-list GET with a falsy `iduser`; other methods pass |
| Inicio.GateResponse | routes/RInicio.py:21-27 | `validate_login` returns nothing exactly when the gate passes, and a redirect only for a redirect decision, to its location |
| Inicio.KeyedPostPasses | routes/RInicio.py:21-22 | off the allow-list, a POST whose session has the key passes |
| Inicio.PostDeniedIffNoKey | routes/RInicio.py:22-24 | off the allow-list, a POST is denied exactly when the session lacks the `iduser` key |
| Inicio.GetRedirectedIffFalsy | routes/RInicio.py:25-27 | off the allow-list, a GET is redirected to `/Login` exactly when `iduser` is falsy or absent |
| Inicio.OtherMethodsPass | routes/RInicio.py:21-27 | methods other than GET and POST always pass |
| Inicio.FalsyIdPostOnly | routes/RInicio.py:22-27 | a present but falsy `iduser` lets a POST through but redirects a GET |
| Inicio.GetPassImpliesPostPass | routes/RInicio.py:22-27 | on a stored session, whatever passes as a GET passes as a POST |
| Inicio.UnknownSessionStopped | routes/RInicio.py:21-27 | a session with no record is stopped on every gated path, denied as a POST and redirected as a GET |
| Inicio.LoginRequiredBody | routes/RInicio.py:24 | the denial is `{status: 1, msg: "Login required", redirect: "/Login"}` and nothing else |
| Inicio.InicioTarget | routes/RInicio.py:30-34 | the target is `/Login` exactly when `iduser` is `None`, and `/VariablesDeInicio` otherwise |
| Inicio.Inicio | routes/RInicio.py:30-34 | redirects by the session's `iduser`; the only writes are the touch and the cookie |
| Inicio.HomeAfterGate | routes/RInicio.py:25-34 | a GET of `/` that passed the gate reaches `/VariablesDeInicio`; the gate stops a falsy `iduser` that `Inicio` alone would accept |
| Inicio.CompareIds | routes/RInicio.py:43-47 | when the ids disagree under Python `==` (numbers by value, lists and dicts item by item) the session is cleared and the failure answer returned; when they agree the session is only touched and status 0 returned; the draws and cookies are those of one session plus the expiring cookie on failure |
| Inicio.SecurityCheck | routes/RInicio.py:37-49 | status is always 0 or 1; a body or field that raises is answered with the logged error and nothing else changes; otherwise the answer is failure exactly when `const != input` or `const != session iduser`, failure logs the session out, and the draws and scheduled cookies are those of `CompareIds` |
| Inicio.ReadIds | routes/RInicio.py:40-42 | the two ids are read in order; the body error, `KeyError("const_iduser")` or `KeyError("input_iduser")` stops the reading |
| Inicio.PassedCheckAgrees | routes/RInicio.py:44 | after a passed check the typed id equals the session's id |
| Inicio.FailedCheckLogsOut | routes/RInicio.py:44-46 | a failed check with a validly signed cookie deletes that session's record |
| Auth.Login | routes/RAuth.py:9-23 | every method but POST renders the form and changes nothing; a POST answers by `LoginDecision` and has `LoginEffect`: wrong credentials change nothing, a sign-in stores `iduser` in the session, an exception is logged |
| Auth.Credentials | routes/RAuth.py:13-15 | reading the credentials succeeds exactly when the body is an object with both keys, and gives their values; a body error is passed on |
| Auth.LoginDecision | routes/RAuth.py:13-22 | a sign-in carries the `iduser` of a stored active user; a refusal means the credentials were read and no stored user matches the login query |
| Auth.LoginEffect | routes/RAuth.py:13-22 | a login never removes log entries or rewinds the random stream, and only a raised exception adds a log entry |
| Auth.UnreadableLoginSteps | routes/RAuth.py:13-22 | a body whose credentials cannot be read is a raised verdict, logged once |
| Auth.ReadableLoginSteps | routes/RAuth.py:13-22 | once the credentials are read, the verdict and its effect are those of the lookup |
| Auth.CheckLogin | routes/RAuth.py:16-22 | once the credentials are read, a rejected query is logged, no active match is refused without any change, and a match is signed in |
| Auth.SignInUser | routes/RAuth.py:19-22 | the user's `iduser` is stored in the session and the redirect to `/` is returned; a user without `iduser` is logged as a `KeyError` |
| Auth.RememberUser | routes/RAuth.py:19 | `Session["iduser"] = ...` on a session built from the cookie never raises and leaves the world as `Stored`: one touch and one write of `iduser`, one cookie, a draw only when no id came with the request |
| Auth.LoginNeedsActiveUser | routes/RAuth.py:16-18 | with both fields present, a credential the server rejects is logged; otherwise the login is refused exactly when no active user matches the credentials as conditions, and a sign-in carries the `iduser` of such a user |
| Auth.LoginReadsInOrder | routes/RAuth.py:13-15 | a body error, then a missing `username`, then a missing `password` are what the handler answers with status 1 |
| Auth.SignedInPassesGate | routes/RAuth.py:19 | after a sign-in stores a value, a later POST passes the gate when it is not `None` and a later GET passes when it is truthy |
| Auth.Logout | routes/RAuth.py:26-31 | the session is cleared as `clear` does; GET is redirected to `/Login`, other methods get `{status: 0, redirect__: "/Login"}` |
| Auth.LogoutEndsSession | routes/RAuth.py:28 | after logging out, replaying the same signed cookie still names the old id, which has no record, and is stopped by the gate |
| Auth.Register | routes/RAuth.py:34-54 | every method but POST renders the form and changes nothing; a POST answers by `RegisterDecision` and has `RegisterEffect`: refusals change nothing, an enrolment stores one user and puts its `iduser` in the session, an exception is logged |
| Auth.RegistrationFields | routes/RAuth.py:38-41 | reading the three fields succeeds exactly when the credentials are read and `confirm_password` is present, and gives the three values; earlier errors are passed on |
| Auth.RegisterDecision | routes/RAuth.py:38-51 | a mismatch, a taken name or an enrolment means the three fields were read; a mismatch means the passwords differ under `==`; an enrolment is of the body's name and password, with equal passwords and no stored user matching the name |
| Auth.RegisterEffect | routes/RAuth.py:38-53 | a registration keeps every stored user and adds at most one, never removes log entries or rewinds the random stream, and only a raised exception adds a log entry |
| Auth.CheckRegistration | routes/RAuth.py:42-51 | differing passwords are refused without any change; otherwise the name check follows |
| Auth.CheckName | routes/RAuth.py:45-53 | a rejected name query is logged, a taken name is refused without any change, a free one is enrolled |
| Auth.RaiseSteps | routes/RAuth.py:45-53 | a name query the server rejects is one logged error and changes nothing else |
| Auth.EnrolSteps | routes/RAuth.py:49-51 | the insertion and the session write of an enrolment make up its effect |
| Auth.EnrolUser | routes/RAuth.py:49-51 | the table grows by the new user, the session's `iduser` becomes that user's `iduser`, and the redirect to `/` is returned |
| Auth.EnrolIffFreeName | routes/RAuth.py:42-47 | with all three fields, a registration goes ahead exactly when the passwords are equal under Python `==` and the name is an accepted condition no user matches; unequal passwords are refused |
| Auth.RegisterTwiceIsTaken | routes/RAuth.py:45-47 | for a name that is not an operator document, the same body sent again after a registration is refused as a taken name |
| Auth.EnrolledCannotSignIn | routes/RAuth.py:49 | a newly registered account changes no login verdict: it cannot sign in until it has status `"A"` |
| Auth.OperatorBodySignsIn | routes/RAuth.py:13-20 | as written, the body `{"username": {"$ne": null}, "password": {"$ne": null}}` signs in as the first stored user whenever it is active with string credentials |
| Auth.LoginByValueNeedsCredentials | routes/RAuth.py:16-20 | with the credentials compared as values, the login is refused exactly when no user is active and holds both, and a sign-in carries the `iduser` of such a user |
| Auth.OperatorBodyRefusedByValue | routes/RAuth.py:16-18 | with the credentials compared as values, the `$ne` body is refused while every stored name is a string |
| Auth.OperatorNameRegistersTwice | routes/RAuth.py:45-50 | as written, the name `{"$eq": "x"}` registers on an empty table and again once that user is stored |
| Auth.RegisterTwiceIsTakenByValue | routes/RAuth.py:45-50 | with the name compared as a value, the same body sent again after a registration is always refused as a taken name |

## Left out

- `GetUsersList` (model/MUsers.py:26-41) is not modelled: it builds MongoDB regular-expression queries, and regular-expression matching is outside this model.
- The keyed digest of itsdangerous (HMAC over the secret key) is not modelled. A signer is a function from value to URL-safe base64 signature. Only the split at the last `.` and the equality of the signature are modelled. The signature is compared as text: itsdangerous decodes the base64 and compares bytes, so it also accepts a signature whose unused trailing bits differ from the canonical text, which the model refuses.
- `uuid4()` and `datetime.now()` are parameters. Randomness is the `Entropy` stream of unknown values, and the clock is an `Instant` passed to each operation. Properties that need a new id to differ from stored ones (`Sessions.ClearThenNewVisitor`, `Sessions.CookielessWritesAreNotReadBack`) take that as a hypothesis. One `Instant` stands for all the `datetime.now()` calls of one operation.
- Console output is not modelled: the coloured `print` in `escribir_log` and in `msg` for status 1.
- MongoDB concurrency and atomicity between simultaneous requests are not modelled. The database errors modelled are a rejected query, a refused session path, the refusal to change `_id` and a non-string field name in `UpdateUserField`. Connection and network errors are not modelled, nor errors of `insert_one` or of the session reads and touches. The text of a rejected query or path is an unspecified function (`Users.RejectionText`, `Sessions.WriteRejection`).
- `$set` with dotted or `$`-prefixed field names (nested paths, operators) is not modelled in `UpdateUserField` and `UpdateProfile`. A field name is written as a top-level key. The session writes do model the dotted path.
- Sessions.WritePath: an array on the path is treated as a refusal, whereas MongoDB writes into it when the name is a numeric index. A name that starts with `$` is treated as a refusal; MongoDB's handling of such names differs between server versions.
- The query operators other than `$eq` and `$ne` are the unspecified constant `Users.ServerOperator`: which operands the server rejects and what each operator tests are not modelled. An object with both `$` keys and other keys is compared as a literal value; MongoDB decides by the order of the keys, which a map does not keep. Embedded documents are compared as unordered maps, whereas MongoDB compares them in key order.
- Users.UserTable.InsertOne: it takes documents without `_id`, the only kind `RegUser` inserts; a caller's own `_id` is not modelled. MongoDB servers before 5.0 reject stored field names that start with `$`; the model stores them, as later servers do.
- Template rendering is an opaque `Render(name)` result. Flask's routing is not modelled, nor the order in which the queued cookie callbacks are applied to the response.
- `utils/tools.py:4` and `model/MUsers.py:1` import `GenerarUuid`, but `utils/conexion.py:28` defines `GenerateUuid`. The model treats both names as the one function `Uuids.GenerateUuid`. The `Auth` blueprint of routes/RAuth.py is not registered in app.py. The model describes the routes as written, as if they were registered.
- JSON numbers are integers only: floats are not modelled. So `t_int` of a float, and Python's `1 == 1.0` in the id comparisons, are not modelled. `lower()` and `strip()` cover the ASCII characters only.
- Tools.TInt: `int()` also reads the decimal digits of other scripts (such as `"٣"` or the full-width `"３"`) and strips Unicode whitespace; the model reads ASCII digits and ASCII whitespace only, so such texts give 0 here. `Tools.TIntAsciiWithoutDigits` is stated for ASCII text for this reason. The model keeps CPython's default limit of 4300 digits for `int()` of a text (Python 3.11 and later, and the 3.7.14, 3.8.14, 3.9.14 and 3.10.7 security releases): a longer text gives 0. Raising or removing that limit through `PYTHONINTMAXSTRDIGITS` or `sys.set_int_max_str_digits` is not modelled.
- Tools.TIntReadsIntText: stated for integers whose text has at most 4300 digits, since `str(i)` itself raises beyond that; `Tools.TIntLongTextIsZero` states what `t_int` does with a longer text.
- Tools.TIntIgnoresSpaces: stated for integers whose text has at most 4300 digits, for the same reason.
- Tools.ParseIds: its contract states the dict case and the length of a parsed list. The item-by-item relation is stated by `Tools.ParseIdsList`. The string cases are stated only by the definition: an empty string gives `[]` and any other string ends in `RecursionError`. So is the `TypeError` for values that are not iterable.
- Inicio.ValidateLogin: its contract states the `Gate` decision. The Flask response for each decision is the function `GateResponse`: nothing for a pass, the `Login required` body for a denial, a redirect otherwise.
- Inicio.SecurityCheck: the session read at routes/RInicio.py:43 is assumed not to raise, because database errors of session reads are not modelled.
- Auth.RegisterTwiceIsTaken: it is stated for names that are not operator documents; for those, the second registration can go through, as the Findings show.
- Tools.LogEntry stores the random `idlog` value and the `str(msg)` text. The stored `idlog` string is its `Uuids.Hex` form, and the stored `mensaje` is `LogEntry.Mensaje()`.
- A `TypeError` keeps what it complains about and the offending value. Its text is rendered by `Values.ExcText` with Python's message for that fault.

## Findings

The route handlers are modelled as written. The corrected lookups `Users.GetUserLoginByValue` and `Users.GetUserByNameByValue`, and the decisions `Auth.LoginDecisionByValue` and `Auth.RegisterDecisionByValue` built on them, state the intended behaviour. Each wraps the body value in `$eq`, so that it is compared as a value.

| source | as written | input that shows it | evidently intended | confidence | as-written member | corrected member |
|---|---|---|---|---|---|---|
| model/MUsers.py:12-16 | `username` and `password` from the JSON body go into the query as they are, so an object such as `{"$ne": null}` is applied as an operator | body `{"username": {"$ne": null}, "password": {"$ne": null}}`, with an active user with string credentials stored first: the login signs in as that user | the credentials are compared as values (the parameters are annotated `str`); the `$ne` body is refused | high; not executed | Auth.OperatorBodySignsIn | Auth.LoginByValueNeedsCredentials |
| model/MUsers.py:63-64 | the name from the JSON body goes into the query as it is | body `{"username": {"$eq": "x"}, "password": "p", "confirm_password": "p"}` registers on an empty table, and registers again once that user is stored | a name already registered is refused | medium (needs a server that stores `$`-prefixed nested field names, MongoDB 5.0 or later); not executed | Auth.OperatorNameRegistersTwice | Auth.RegisterTwiceIsTakenByValue |

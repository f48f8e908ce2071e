# Resource Allocator client, modelled in Dafny

A model of the command-line client and SDK for the Resource Allocator REST API
(`resource_allocator_client`). It covers the pieces of the client that hold logic:

- the `KEY=VALUE` argument parser of the command line;
- both generations of `Client`: the older one in `main.py` and the newer SDK in `client.py`.
  This covers their authentication checks, the server normalisation, and the request URL
  built by `_make_request`. It also covers reply handling: the older client only logs a
  non-ok status, the newer one raises `APIError`;
- both token caches. The older cache stores a server and a token. The newer one stores
  server, email, cache path, token and expiry, and adopts a stored token only for the same server and
  email and only before its expiry;
- login (with cache reuse in the newer client), registration, and the client-side `query`
  filter. In the older client, `create` returns an existing match instead of posting;
- the OAuth callback listener of `callback.py`: the GET handler that appends the redirect's
  `code` to a shared list, and `run_callback_server`, which returns the first code of that list.

The outside world is made explicit:
- The file system is a `FileSystem` object holding a map from path to document. A document
  is either decoded JSON or text that does not decode.
- The network is a `Transport` object. It logs every request and answers each one through
  a fixed function given when it is built.
- The current time is a parameter, as whole seconds.
- Python exceptions are the `Error` values of `PyValues`. An operation that can raise
  returns a `Result` or `Outcome`.

Modules, one per file:
- `Wrappers`: `Option`, `Result`, `Outcome`.
- `PyText`: Python `strip`, `split`, `replace`, `casefold`, and substring tests on strings.
- `PyValues`: errors, decoded JSON, truthiness, `str()`, and timestamps as text.
- `Files`: the file system and the cache file name.
- `Http`: URLs, requests, replies, and the transport.
- `Query`: the filter shared by both clients.
- `Cli`: the module `main.py`.
- `ClientLib`: the module `client.py`.
- `Callback`: the module `callback.py`.

Behaviour of the code worth noting:

- The cache file name removes only `/` from the server; `:` and other characters are kept.
  Servers that differ only in their slashes therefore share one file
  (`Files.CacheFileNameIgnoresSlashes`).
- The callback server handles exactly one request. A request without `code` is answered
  with 400 and still ends the listener, and `run_callback_server` then fails with
  `IndexError`. A timeout fails the same way; there is no separate timeout error.
- The newer cache's `read` does not recover from a bad cache file. An undecodable file, a
  record missing `expires_at` or `server`, a record for this server missing `email`, or an
  unexpired matching record missing `token` raises instead of falling back to a fresh login.
- The newer client's Azure login always fails before the redirect is captured. It calls
  `run_callback_server` with keyword arguments the function does not accept
  (`ClientLib.AzureLoginError`).

## Model

| member | source | states |
|---|---|---|
| PyText.StripIsMiddle | resource_allocator_client/main.py:459 | `strip()` keeps a contiguous middle part of the text whose ends are not whitespace, and drops only whitespace around it |
| PyText.StripIdempotent | resource_allocator_client/client.py:141 | stripping twice is stripping once |
| PyText.SplitFirst | resource_allocator_client/main.py:458 | `split("=", maxsplit=1)` fails exactly when there is no `=`; otherwise the text is the part before, the `=`, and the part after, and the part before holds no `=` |
| PyText.SplitFirstUnique | resource_allocator_client/main.py:458 | the split point is the first `=`: any text without `=` followed by `=` and a rest splits into exactly those parts |
| PyText.RemoveAllDrops | resource_allocator_client/client.py:41 | `replace("/", "")` leaves no `/`, and text without `/` is unchanged |
| PyText.Casefold | resource_allocator_client/client.py:319 | definition of `casefold` on ASCII letters; properties in `PyText.CasefoldIdempotent` and `Query.CaseInsensitiveMatch` |
| PyText.CasefoldIdempotent | resource_allocator_client/main.py:305 | folded text has no upper-case ASCII letter, and folding it again changes nothing |
| PyValues.Subscript | resource_allocator_client/client.py:56 | definition of `data[key]` on decoded JSON (`KeyError`, `TypeError`); its consequences are stated in `ClientLib.ReadCache`, `ClientLib.AfterLogin` and `Cli.LegacyRead` |
| PyValues.ScalarText | resource_allocator_client/client.py:319 | definition of `str()` on scalars; properties in `PyValues.ScalarTextReadsBack`, `Query.MissingFieldMatchesNone` and `Query.IntegerFieldMatchesText` |
| PyValues.ScalarTextReadsBack | resource_allocator_client/client.py:319 | the text of an integer reads back as that integer, the text of a string is the string, and booleans read `True` or `False` |
| PyValues.IsoRoundTrip | resource_allocator_client/client.py:71 | a timestamp written with `isoformat` reads back with `fromisoformat` as the same timestamp |
| PyValues.FromIsoFormat | resource_allocator_client/client.py:56 | parsing a non-string raises `TypeError`; bad text raises `ValueError` |
| Files.FileSystem.Lookup | resource_allocator_client/client.py:47 | definition of `path.exists()` and reading the file; properties in `ClientLib.Cache.Read`, `ClientLib.WriteThenRead` and `Cli.Cache.Read` |
| Files.CacheFileNameShape | resource_allocator_client/main.py:87 | the cache file name holds no `/` and ends in `.json` |
| Files.CacheFileName | resource_allocator_client/main.py:87 | definition of the cache file name (`server.replace("/", "") + ".json"`); properties in `Files.CacheFileNameShape`, `Files.CacheFileNameOfUrl` and `Files.CacheFileNameIgnoresSlashes` |
| Files.TestServerPath | resource_allocator_client/main.py:86-87 | the server `test` gives the cache path `test.json` |
| Files.CacheFileNameOfUrl | resource_allocator_client/client.py:41 | for `scheme//host` the file name is `scheme` and `host` joined, then `.json` (a `:` is kept) |
| Files.CacheFileNameIgnoresSlashes | resource_allocator_client/client.py:41 | `a/b` and `ab` share a cache file |
| Files.JoinPath | resource_allocator_client/client.py:41 | the joined path ends with the file name, and in the working directory it is the file name alone |
| Http.IdSuffix | resource_allocator_client/client.py:144-145 | the id is appended exactly when it is truthy; an integer id adds no `/` |
| Http.RequestUrl | resource_allocator_client/client.py:141-145 | definition of the request URL; properties in `Http.RequestUrlShape`, `Http.FalsyIdOmitted`, `Http.EndpointSlashesIgnored` and `Http.UrlDeterminesEndpointAndId` |
| Http.RequestUrlShape | resource_allocator_client/client.py:141-145 | the URL starts with the server and a `/`, and without a truthy id it ends in `/` |
| Http.FalsyIdOmitted | resource_allocator_client/main.py:153-154 | a falsy id (`None`, `0`, `""`) gives `server/endpoint/` |
| Http.EndpointSlashesIgnored | resource_allocator_client/client.py:141 | slashes around the endpoint do not change the URL |
| Http.UrlDeterminesEndpointAndId | resource_allocator_client/main.py:150-154 | for ids whose text has no `/`, equal URLs mean equal stripped endpoints and equal id text (so `5` and `"5"`, or no id and `0`, are not told apart) |
| Http.CheckReply | resource_allocator_client/client.py:159-171 | definition of the newer reply check; properties in `Http.ErrorStatusHandledDifferently`, `Http.OkRepliesAgree` and `ClientLib.Client.MakeRequest` |
| Http.LegacyCheckReply | resource_allocator_client/main.py:166-170 | definition of the older reply check; properties in `Http.ErrorStatusHandledDifferently`, `Http.OkRepliesAgree` and `Cli.Client.MakeRequest` |
| Http.ErrorStatusHandledDifferently | resource_allocator_client/client.py:159-169 | an error status with a JSON body raises in the newer client and is returned by the older one |
| Http.OkRepliesAgree | resource_allocator_client/main.py:166-170 | on an ok status the two clients give the same result: the decoded body, or the same decoding error |
| Http.Transport.Send | resource_allocator_client/client.py:147-158 | sending appends the request to the log and returns the server's answer to it |
| Query.FieldText | resource_allocator_client/client.py:319 | definition of `str(item.get(key))`; properties in `Query.MissingFieldMatchesNone` and `Query.IntegerFieldMatchesText` |
| Query.PairMatches | resource_allocator_client/client.py:319 | definition of one queried pair matching an item; properties in `Query.CaseInsensitiveMatch`, `Query.MissingFieldMatchesNone` and `Query.IntegerFieldMatchesText` |
| Query.Selected | resource_allocator_client/client.py:318-321 | definition of an item matching every queried pair; properties in `Query.FilterMembership` and `Query.EmptyQueryKeepsAll` |
| Query.Filter | resource_allocator_client/client.py:316-322 | the filter fails (`AttributeError`) exactly when the query is non-empty and some listed item is not an object; it never returns more items than listed |
| Query.FilterMembership | resource_allocator_client/client.py:316-322 | an item is in the result exactly when it is listed and matches every queried pair |
| Query.FilterConcat | resource_allocator_client/main.py:302-308 | filtering keeps the listed order: the filter of a concatenation is the concatenation of the filters |
| Query.EmptyQueryKeepsAll | resource_allocator_client/main.py:302-308 | an empty query returns the listed items unchanged |
| Query.CaseInsensitiveMatch | resource_allocator_client/main.py:305 | `AB` in an item matches a queried `ab` |
| Query.MissingFieldMatchesNone | resource_allocator_client/main.py:305 | a field the item lacks matches a queried `none` |
| Query.IntegerFieldMatchesText | resource_allocator_client/client.py:319 | the integer 5 matches the queried text `5` |
| Query.Items | resource_allocator_client/client.py:315 | definition of iterating the listed body; properties in `Query.QueryResult` |
| Query.QueryResult | resource_allocator_client/client.py:315-322 | a failed list request fails the query with its error; after a successful one the query succeeds exactly when the body is an array and the filter succeeds, a non-array body raises `TypeError`, a filter error (`AttributeError`) propagates, and a result holds exactly the listed items that match |
| Cli.KeyValue | resource_allocator_client/main.py:455-459 | an argument has a key and value exactly when it contains `=` |
| Cli.DataArgs | resource_allocator_client/main.py:455-456 | the only error of the parser is `ValueError` |
| Cli.ParseDataArgs | resource_allocator_client/main.py:443-461 | the loop builds the dictionary argument by argument, and stops with `ValueError` at the first argument without `=` |
| Cli.DataArgsFailsIff | resource_allocator_client/main.py:454-456 | parsing fails exactly when some argument lacks `=` |
| Cli.NoArgsGiveEmptyMap | resource_allocator_client/main.py:453 | no arguments give an empty dictionary |
| Cli.DataArgsLastWins | resource_allocator_client/main.py:454-459 | when a key repeats, the last argument with that key decides its value |
| Cli.DataArgsKeysFromArgs | resource_allocator_client/main.py:458-459 | every key of the result comes from an argument, with that argument's value |
| Cli.ValueKeepsLaterEquals | resource_allocator_client/main.py:458-459 | the value is everything after the first `=`, stripped, and may contain `=` |
| Cli.SpacesAroundKeyAndValue | resource_allocator_client/main.py:458-459 | `" other key = value "` gives `{"other key": "value"}` |
| Cli.LegacyRead | resource_allocator_client/main.py:89-96 | a missing file raises `UnboundLocalError`, an undecodable one a decoding error; a decoded document reads successfully exactly when `data["token"]` succeeds, giving the data and its token, and otherwise raises that subscript's `KeyError` or `TypeError` |
| Cli.LegacyRecord | resource_allocator_client/main.py:101 | definition of the older cache record (`{server, token}`); properties in `Cli.LegacyWriteThenRead` |
| Cli.LegacyWriteThenRead | resource_allocator_client/main.py:89-101 | reading what `write` stored gives `{"server": s, "token": t}` and the token `t` |
| Cli.Cache.constructor | resource_allocator_client/main.py:78-83 | a new cache has no token and searches the working directory |
| Cli.Cache.Path | resource_allocator_client/main.py:85-87 | definition of the `path` property: the search directory joined with the server-derived file name; properties in `Files.TestServerPath`, `Cli.Cache.Read` and `Cli.Cache.Write` |
| Cli.Cache.Read | resource_allocator_client/main.py:89-96 | the token is replaced by the stored one exactly when the read succeeds |
| Cli.Cache.Write | resource_allocator_client/main.py:98-101 | the file at the cache path holds the server and token; no other file changes |
| Cli.LegacyAuthCheck | resource_allocator_client/main.py:124-126 | definition of the older constructor check; properties in `ClientLib.NewerCheckIsStricter` and `Cli.Client.New` |
| Cli.Client.constructor | resource_allocator_client/main.py:128-132 | the client keeps its settings and owns a fresh, empty cache for its server |
| Cli.Client.New | resource_allocator_client/main.py:124-132 | construction fails exactly as the check says, before anything else; the stored server has trailing `/` removed |
| Cli.Client.RequestFor | resource_allocator_client/main.py:150-162 | definition of the request the older client sends; properties in `Cli.Client.MakeRequest` and `Http.UrlDeterminesEndpointAndId` |
| Cli.Client.MakeRequest | resource_allocator_client/main.py:150-170 | exactly one request is sent; the result is its decoded reply |
| Cli.Client.Query | resource_allocator_client/main.py:301-308 | one list request, then the filter of its reply |
| Cli.Client.Create | resource_allocator_client/main.py:321-326 | an existing match is returned without a POST; the item is posted only when nothing matches |
| Cli.CreateReturnsAMatch | resource_allocator_client/main.py:321-323 | what `create` returns without posting is a listed item that matches every queried pair |
| Cli.TokenOf | resource_allocator_client/main.py:254-258 | a reply object without `token` is returned as it is; one with `token` has it adopted; a reply of another kind is never adopted from |
| Cli.PastedCode | resource_allocator_client/main.py:235-236 | definition of `parse_qs(...)["code"][0]` on the pasted redirect; properties in `Cli.Client.AzureLoginExchange` |
| Cli.Finish | resource_allocator_client/main.py:254-260 | a failed reply fails the login with nothing adopted; a token is adopted only from the reply's own `token` field, and from an object reply exactly when it has one |
| Cli.Client.EmailLoginExchange | resource_allocator_client/main.py:247-260 | password login is one POST to `login` with the email and password |
| Cli.Client.AzureLoginExchange | resource_allocator_client/main.py:221-245 | Azure login sends a GET to `login_azure`, then a POST with the pasted code only if the first reply has `auth_url` and the code is present; a token is adopted exactly when the login succeeds |
| Cli.Client.RegisterExchange | resource_allocator_client/main.py:172-204 | a `self` key, Azure mode, or a key clashing with a keyword of `_make_request` fails before any request; otherwise exactly one POST to the `register` URL (with a data `id` as its id), carrying the bearer token and a body of exactly the data pairs other than `id`, the email and the password |
| Cli.DataId | resource_allocator_client/main.py:196 | definition of the id a data pair named `id` binds in `_make_request`; properties in `Cli.Client.RegisterExchange` |
| Cli.Client.RegisterBody | resource_allocator_client/main.py:191-197 | definition of the registration body; properties in `Cli.Client.RegisterExchange` |
| Cli.Client.Adopt | resource_allocator_client/main.py:258-259 | an adopted token replaces the cached one and is written to the cache file; otherwise nothing changes |
| Cli.Client.Login | resource_allocator_client/main.py:206-219 | the requests sent and the result are those of the chosen login flow; the cache changes only by an adopted token |
| Cli.Client.Register | resource_allocator_client/main.py:172-185 | the requests sent and the result are those of registration; the cache changes only by an adopted token |
| ClientLib.CachePath | resource_allocator_client/client.py:39-43 | definition of the path `__post_init__` sets: a non-empty given path, otherwise the server-derived file name; properties in `ClientLib.DefaultCachePath` |
| ClientLib.DefaultCachePath | resource_allocator_client/client.py:40-41 | without a path or with an empty one, the cache is the server-derived file of the working directory: no `/`, ending in `.json` |
| ClientLib.ReadCache | resource_allocator_client/client.py:45-65 | a missing file changes nothing; an undecodable one raises `UnboundLocalError`; the session changes only to a stored, matching and unexpired token and expiry (the converse is `ClientLib.FreshRecordAdopted`) |
| ClientLib.FreshRecordAdopted | resource_allocator_client/client.py:57-63 | a stored record for the same server and email whose expiry is after now is adopted, token and expiry, whatever the session held |
| ClientLib.WriteThenRead | resource_allocator_client/client.py:67-72 | a written record is read back by the same server and email as its token and expiry exactly when the expiry is after now |
| ClientLib.CacheRecord | resource_allocator_client/client.py:67-72 | definition of the record `write` stores (the instance fields, the expiry as ISO text); properties in `ClientLib.WriteThenRead` and `ClientLib.OtherIdentityIgnored` |
| ClientLib.OtherIdentityIgnored | resource_allocator_client/client.py:57-65 | a record of another server or email is never adopted |
| ClientLib.LoginExpiry | resource_allocator_client/client.py:75-79 | definition of the expiry of a login; properties in `ClientLib.AfterLogin` and `ClientLib.LoginThenRead` |
| ClientLib.AfterLogin | resource_allocator_client/client.py:74-80 | a login reply is taken exactly when it is an object with a token and a valid expiry; a missing token raises with the new expiry already set and the old token kept |
| ClientLib.LoginThenRead | resource_allocator_client/client.py:74-81 | a token-only login reply is cached for exactly one hour |
| ClientLib.Cache.constructor | resource_allocator_client/client.py:33-43 | a new cache has no token and no expiry and uses the derived path |
| ClientLib.Cache.Read | resource_allocator_client/client.py:45-65 | reading applies `ReadCache` to the cache file |
| ClientLib.Cache.Write | resource_allocator_client/client.py:67-72 | without an expiry the file is left emptied and `AttributeError` raised; otherwise the file holds server, email, token, expiry and path |
| ClientLib.Cache.UpdateFromLogin | resource_allocator_client/client.py:74-81 | the session follows `AfterLogin`, and the file is written only when the reply was taken |
| ClientLib.AuthCheck | resource_allocator_client/client.py:109-113 | construction succeeds exactly when one of a password and Azure login is given; otherwise `ValueError` |
| ClientLib.NewerCheckIsStricter | resource_allocator_client/client.py:109-113 | every configuration the newer check accepts the older one accepts; a password together with Azure is accepted only by the older one |
| ClientLib.NormaliseServer | resource_allocator_client/client.py:115-118 | definition of the server normalisation; properties in `ClientLib.NormalisedHasNoTrailingSlash`, `ClientLib.TrailingSlashesRemoved`, `ClientLib.HttpsPrefixedTwice` and `ClientLib.HttpKept` |
| ClientLib.NormalisedHasNoTrailingSlash | resource_allocator_client/client.py:115-118 | a normalised server is never empty and never ends in `/` |
| ClientLib.TrailingSlashesRemoved | resource_allocator_client/client.py:115-118 | a host not beginning with `http:` (a bare host, with or without a port) and with any number of trailing `/` becomes `https://` and the host |
| ClientLib.HostWithPortExample | resource_allocator_client/client.py:115-118 | `localhost:8080//` becomes `https://localhost:8080` |
| ClientLib.ServerWithSlashesExample | resource_allocator_client/client.py:115-118 | `server////` becomes `https://server` |
| ClientLib.HttpsPrefixedTwice | resource_allocator_client/client.py:115-116 | a server given with `https://` gets a second `https://` |
| ClientLib.HttpKept | resource_allocator_client/client.py:115-118 | a server given with `http://` keeps its scheme and loses only trailing `/` |
| ClientLib.AzureLoginError | resource_allocator_client/client.py:241-252 | Azure login raises the first request's error (`APIError` with the status on a non-ok reply), or the error of reading `auth_url` from the reply (`KeyError`, `TypeError`), and otherwise `TypeError` at the callback call |
| ClientLib.HasName | resource_allocator_client/client.py:198 | definition of the truthiness test on a first or last name (present and non-empty); properties in `ClientLib.Client.Register` |
| ClientLib.Client.constructor | resource_allocator_client/client.py:118-122 | the client keeps its settings and owns a fresh, empty cache for its server and email |
| ClientLib.Client.New | resource_allocator_client/client.py:109-122 | construction fails with `ValueError` exactly as `AuthCheck` says, before anything else; the server is normalised and the cache keyed by it |
| ClientLib.Client.MakeRequest | resource_allocator_client/client.py:141-171 | exactly one request to the built URL with the cached token; the result is the checked reply |
| ClientLib.Client.RequestFor | resource_allocator_client/client.py:141-158 | definition of the request `_make_request` sends (stripped endpoint, truthy id appended, bearer header, params and JSON body); properties in `ClientLib.Client.MakeRequest` and `Http.UrlDeterminesEndpointAndId` |
| ClientLib.Client.PasswordLogin | resource_allocator_client/client.py:263-269 | definition of the `POST login` request carrying the email and password; properties in `ClientLib.Client.Login` |
| ClientLib.Client.AzureLoginStart | resource_allocator_client/client.py:240-245 | definition of the `GET login_azure` request carrying the `redirect_uri`; properties in `ClientLib.Client.Login` and `ClientLib.AzureLoginError` |
| ClientLib.Client.Login | resource_allocator_client/client.py:215-236 | a failed or token-yielding cache read ends the login without a request; otherwise exactly one login flow runs and its reply updates the cache |
| ClientLib.Client.RegisterRequest | resource_allocator_client/client.py:200-208 | definition of the `POST register` request carrying the email, password and both names; properties in `ClientLib.Client.Register` |
| ClientLib.Client.Register | resource_allocator_client/client.py:187-199 | Azure raises `NotImplementedError`, and a missing or empty name raises `ValueError`, both before any request; otherwise one POST to `register` whose reply updates the session, and the cache file is written exactly when the reply was taken |
| ClientLib.Client.Query | resource_allocator_client/client.py:315-322 | one list request, then the filter of its checked reply |
| Callback.CodeOf | resource_allocator_client/callback.py:25-27 | definition of the code a redirect carries; properties in `Callback.CallbackHandler.DoGet` and `Callback.CodeExample` |
| Callback.CodeList.constructor | resource_allocator_client/callback.py:36 | the caller's list with its items |
| Callback.CallbackHandler.constructor | resource_allocator_client/callback.py:20 | the shared list starts unset |
| Callback.CallbackHandler.DoGet | resource_allocator_client/callback.py:22-33 | a request with a code appends exactly its first value and answers 200; any other request answers 400 and leaves the list unchanged |
| Callback.Listen | resource_allocator_client/callback.py:47-51 | definition of the list and result after one request; properties in `Callback.RunCallbackServer`, `Callback.EmptyListGetsRedirectCode` and `Callback.EarlierItemWins` |
| Callback.EmptyListGetsRedirectCode | resource_allocator_client/callback.py:47-51 | from an empty list the result is exactly the redirect's code, and fails after a 400, another verb or a timeout |
| Callback.EarlierItemWins | resource_allocator_client/callback.py:51 | an item already in the caller's list is returned instead of the new code |
| Callback.CodeExample | resource_allocator_client/callback.py:25-29 | `code=123` leaves the list `["123"]` and returns `123` |
| Callback.RunCallbackServer | resource_allocator_client/callback.py:36-51 | the caller's list becomes the handler's list, one request is handled, and the result follows `Listen` |

## Left out

- The network (`requests.request`), header contents other than the bearer token, and the
  request timeouts. The server is the transport's answer function; a reply's body is
  given already decoded, or marked as not decodable.
- Real files and JSON encoding. A file is a map entry holding the decoded document, or a
  marker for text that does not decode. `Path` normalisation of a user-given cache path
  is not modelled.
- `datetime`: timestamps are whole seconds, and `isoformat` writes their decimal text.
  Time-zone offsets, and the `TypeError` of comparing a stored timestamp without an
  offset to the current UTC time, are not modelled. The current time is a parameter.
- `webbrowser.open`, `input`, `getpass`, `print`, `JsonFormatter`, `make_parser` and the
  `main()` dispatch are user input and output. The redirect URL the user pastes into the
  older Azure login is a parameter, given already parsed.
- `HTTPServer`, its socket, the 60 second wait and threads. The one request the listener
  receives, or its absence, is a parameter. URL parsing with `urlparse`/`parse_qs` is
  not modelled: the handler receives the parsed query.
- The copy of `CallbackHandler` and `run_callback_server` in `main.py` (lines 25-66) is the
  same code as `callback.py` and is modelled once.
- The newer client's `list_items`, `get`, `create`, `update` and `delete` are single
  `_make_request` calls, which `ClientLib.Client.MakeRequest` covers. The same holds for
  the older client's `get`, `update` and `delete`.
- Logging calls, which have no effect on results.
- `assert` statements stripped when Python runs with `-O` are not modelled; the older
  constructor always checks.
- Cli.Client.Query: a data key named `self` or `endpoint` clashes with a parameter and
  makes Python raise `TypeError` at the call. The model takes the data as a map and does
  not raise. The same holds for `Cli.Client.Create` (also `method` and `id`) and for
  `ClientLib.Client.Query`.
- PyText.Casefold: folds ASCII letters only; Python's `casefold` folds all of Unicode.
- PyValues.ScalarText: arrays and objects have no text, so a query never matches a field
  holding one. Python compares their `repr` text.
- PyValues.Json: numbers are integers; floating-point values are not modelled.
- Query.Items: only a JSON array is iterated. Python would also iterate an object's keys
  or a string's characters.

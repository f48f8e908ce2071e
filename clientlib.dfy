/** The SDK client (`client.py`): the token cache keyed by server and email with an expiry, the
    client's construction checks and server normalisation, requests that raise `APIError`,
    login with cache reuse, e-mail registration and `query`. */
module ClientLib {
  import opened Wrappers
  import opened PyText
  import opened PyValues
  import opened Files
  import opened Http
  import opened Query
  import Cli

  // ---------------------------------------------------------------------------------------
  // Cache

  /** Validity assumed for a token whose login reply gives no expiry: one hour, in seconds. */
  const DefaultLifetime: int := 3600

  /** The two fields of the cache that reads and logins change. */
  datatype Session = Session(token: Json, expiresAt: Option<int>)

  /** `__post_init__`: a falsy path (absent or empty) means the server-derived file in the
      working directory. */
  function CachePath(server: string, path: Option<string>): (p: string)
    ensures path.Some? && path.value != [] ==> p == path.value
    ensures !(path.Some? && path.value != []) ==> p == CacheFileName(server)
  {
    if path.Some? && path.value != [] then path.value else JoinPath(".", CacheFileName(server))
  }

  /** Without a path, or with an empty one, every cache of a server lives in one `.json` file
      of the working directory, named after the server without its slashes. */
  lemma DefaultCachePath(server: string)
    ensures CachePath(server, None) == CachePath(server, Some("")) == CacheFileName(server)
    ensures var p := CachePath(server, None); '/' !in p && |p| >= 5 && p[|p| - 5..] == ".json"
  {
    CacheFileNameShape(server);
  }

  /** The JSON `write` stores: the instance dictionary with the expiry as ISO text. */
  function CacheRecord(server: string, email: string, path: string, token: Json, expiresAt: int): Json {
    Object(map[
      "server" := Str(server), "email" := Str(email), "token" := token,
      "expires_at" := Str(IsoFormat(expiresAt)), "path" := Str(path)])
  }

  /** The stored document holds a record for this server and email whose expiry is strictly
      after `now`, and `s` is its token and expiry. */
  ghost predicate StoredAndFresh(server: string, email: string, doc: Option<Document>, now: int, s: Session) {
    && doc.Some? && doc.value.Parsed? && doc.value.json.Object?
    && var f := doc.value.json.fields;
    && "server" in f && f["server"] == Str(server)
    && "email" in f && f["email"] == Str(email)
    && "token" in f && s.token == f["token"]
    && "expires_at" in f && s.expiresAt.Some? && FromIsoFormat(f["expires_at"]) == Success(s.expiresAt.value)
    && s.expiresAt.value > now
  }

  /** `read` on the cache file's document at time `now`, from session `s`: the outcome and the
      session afterwards. The stored token and expiry are adopted only from a matching, fresh
      record; otherwise the session is left as it was. */
  function ReadCache(server: string, email: string, doc: Option<Document>, now: int, s: Session)
    : (r: (Outcome<Error>, Session))
    ensures r.1 == s || (r.0 == Pass && StoredAndFresh(server, email, doc, now, r.1))
    ensures doc.None? ==> r == (Pass, s)
    ensures doc == Some(Unparseable) ==> r == (Fail(UnboundLocalError), s)
  {
    match doc
    case None => (Pass, s)
    case Some(Unparseable) => (Fail(UnboundLocalError), s)
    case Some(Parsed(data)) =>
      match Subscript(data, "expires_at")
      case Failure(e) => (Fail(e), s)
      case Success(raw) =>
        match FromIsoFormat(raw)
        case Failure(e) => (Fail(e), s)
        case Success(expiresAt) =>
          match Subscript(data, "server")
          case Failure(e) => (Fail(e), s)
          case Success(storedServer) =>
            if storedServer != Str(server) then (Pass, s)
            else match Subscript(data, "email")
              case Failure(e) => (Fail(e), s)
              case Success(storedEmail) =>
                if storedEmail != Str(email) || !(expiresAt > now) then (Pass, s)
                else match Subscript(data, "token")
                  case Failure(e) => (Fail(e), s)
                  case Success(token) => (Pass, Session(token, Some(expiresAt)))
  }

  /** A record written by this cache is read back: its token and expiry are adopted exactly
      when the expiry is still in the future. */
  lemma WriteThenRead(server: string, email: string, path: string, token: Json, expiresAt: int, now: int, s: Session)
    ensures ReadCache(server, email, Some(Parsed(CacheRecord(server, email, path, token, expiresAt))), now, s)
         == if expiresAt > now then (Pass, Session(token, Some(expiresAt))) else (Pass, s)
  {
    IsoRoundTrip(expiresAt);
  }

  /** The converse of `ReadCache`'s contract: a stored record for this server and email that
      is still fresh is adopted, whatever the session held before. */
  lemma FreshRecordAdopted(server: string, email: string, doc: Option<Document>, now: int, s: Session, stored: Session)
    requires StoredAndFresh(server, email, doc, now, stored)
    ensures ReadCache(server, email, doc, now, s) == (Pass, stored)
  {
  }

  /** A record of another server or another email is never adopted, even when fresh. */
  lemma OtherIdentityIgnored(server: string, email: string, path: string, token: Json, expiresAt: int,
                             otherServer: string, otherEmail: string, now: int, s: Session)
    requires otherServer != server || otherEmail != email
    ensures ReadCache(otherServer, otherEmail, Some(Parsed(CacheRecord(server, email, path, token, expiresAt))), now, s)
         == (Pass, s)
  {
    IsoRoundTrip(expiresAt);
  }

  /** The expiry `update_from_login` sets: the reply's `expires_at` when present and truthy,
      otherwise one hour from now. */
  function LoginExpiry(reply: map<string, Json>, now: int): (r: Result<int, Error>)
    ensures ("expires_at" !in reply || !Truthy(reply["expires_at"])) ==> r == Success(now + DefaultLifetime)
    ensures "expires_at" in reply && Truthy(reply["expires_at"]) ==> r == FromIsoFormat(reply["expires_at"])
  {
    if "expires_at" in reply && Truthy(reply["expires_at"]) then FromIsoFormat(reply["expires_at"])
    else Success(now + DefaultLifetime)
  }

  /** `update_from_login` on the session. The membership test `"expires_at" in reply` runs
      first: on a list or a string that contains `expires_at` the following `.get` raises
      `AttributeError`, on a number, boolean or null the test itself raises `TypeError`. The
      expiry is assigned before the token is read, so a reply without `token` (an object
      lacking it, or a list or string, which cannot be indexed by a name) raises with the new
      expiry in place and the old token kept. */
  function AfterLogin(reply: Json, now: int, s: Session): (r: (Outcome<Error>, Session))
    ensures r.0 == Pass <==> reply.Object? && "token" in reply.fields && LoginExpiry(reply.fields, now).Success?
    ensures r.0 == Pass ==> r.1 == Session(reply.fields["token"], Some(LoginExpiry(reply.fields, now).value))
    ensures r.0.Fail? ==> r.1.token == s.token
    ensures r.1.expiresAt != s.expiresAt ==> r.1.expiresAt.Some?
    ensures reply.Object? && LoginExpiry(reply.fields, now).Failure? ==> r == (Fail(LoginExpiry(reply.fields, now).error), s)
    ensures reply.Object? && "token" !in reply.fields && LoginExpiry(reply.fields, now).Success? ==>
      r == (Fail(KeyError), Session(s.token, Some(LoginExpiry(reply.fields, now).value)))
  {
    match reply
    case Object(fields) =>
      (match LoginExpiry(fields, now)
       case Failure(e) => (Fail(e), s)
       case Success(expiresAt) =>
         if "token" in fields then (Pass, Session(fields["token"], Some(expiresAt)))
         else (Fail(KeyError), Session(s.token, Some(expiresAt))))
    case Array(items) =>
      if Str("expires_at") in items then (Fail(AttributeError), s)
      else (Fail(TypeError), Session(s.token, Some(now + DefaultLifetime)))
    case Str(text) =>
      if Contains(text, "expires_at") then (Fail(AttributeError), s)
      else (Fail(TypeError), Session(s.token, Some(now + DefaultLifetime)))
    case _ => (Fail(TypeError), s)
  }

  /** A login reply carrying only a token is usable from the cache for one hour, and from then
      on it is not: a later read at time `later` with the same server and email adopts it
      exactly when `later < now + DefaultLifetime`. */
  lemma LoginThenRead(server: string, email: string, path: string, token: Json, now: int, later: int, s: Session, s0: Session)
    ensures var after := AfterLogin(Object(map["token" := token]), now, s);
      && after == (Pass, Session(token, Some(now + DefaultLifetime)))
      && ReadCache(server, email, Some(Parsed(CacheRecord(server, email, path, token, now + DefaultLifetime))), later, s0)
         == if later < now + DefaultLifetime then (Pass, after.1) else (Pass, s0)
  {
    WriteThenRead(server, email, path, token, now + DefaultLifetime, later, s0);
  }

  class Cache {
    const server: string
    const email: string
    var token: Json
    var expiresAt: Option<int>
    const path: string

    constructor (server: string, email: string, path: Option<string>)
      ensures this.server == server && this.email == email && this.path == CachePath(server, path)
      ensures Current() == Session(Null, None)
    {
      this.server := server;
      this.email := email;
      token := Null;
      expiresAt := None;
      this.path := CachePath(server, path);
    }

    function Current(): Session
      reads this
    {
      Session(token, expiresAt)
    }

    method Read(fs: FileSystem, now: int) returns (st: Outcome<Error>)
      modifies this
      ensures (st, Current()) == ReadCache(server, email, fs.Lookup(path), now, old(Current()))
    {
      var r := ReadCache(server, email, fs.Lookup(path), now, Current());
      st := r.0;
      token, expiresAt := r.1.token, r.1.expiresAt;
    }

    /** `write`: the file is opened for writing (and so emptied) before the expiry is
        formatted, so a cache without expiry leaves an empty file and raises. */
    method Write(fs: FileSystem) returns (st: Outcome<Error>)
      modifies fs
      ensures expiresAt.None? ==> st == Fail(AttributeError) && fs.files == old(fs.files)[path := Unparseable]
      ensures expiresAt.Some? ==>
        st == Pass && fs.files == old(fs.files)[path := Parsed(CacheRecord(server, email, path, token, expiresAt.value))]
    {
      fs.files := fs.files[path := Unparseable];
      if expiresAt.None? {
        return Fail(AttributeError);
      }
      fs.files := fs.files[path := Parsed(CacheRecord(server, email, path, token, expiresAt.value))];
      return Pass;
    }

    method UpdateFromLogin(reply: Json, fs: FileSystem, now: int) returns (st: Outcome<Error>)
      modifies this, fs
      ensures (st, Current()) == AfterLogin(reply, now, old(Current()))
      ensures st == Pass ==> fs.files == old(fs.files)[path := Parsed(CacheRecord(server, email, path, token, expiresAt.value))]
      ensures st.Fail? ==> fs.files == old(fs.files)
    {
      var after := AfterLogin(reply, now, Current());
      token, expiresAt := after.1.token, after.1.expiresAt;
      if after.0.Fail? {
        return after.0;
      }
      st := Write(fs);
    }
  }

  // ---------------------------------------------------------------------------------------
  // Client

  /** The constructor's check: exactly one of a password and Azure login. */
  function AuthCheck(password: Option<string>, azureLogin: bool): (r: Outcome<Error>)
    ensures r == Pass <==> password.Some? != azureLogin
    ensures r.Fail? ==> r.error == ValueError
  {
    if (password.None? && !azureLogin) || (password.Some? && azureLogin) then Fail(ValueError) else Pass
  }

  /** Every configuration the newer client accepts is accepted by the older one, but not the
      other way round: the older one also takes a password together with Azure login. */
  lemma NewerCheckIsStricter(password: Option<string>, azureLogin: bool)
    ensures AuthCheck(password, azureLogin) == Pass ==> Cli.LegacyAuthCheck(password, Some(azureLogin)) == Pass
    ensures password.Some? && azureLogin ==>
      Cli.LegacyAuthCheck(password, Some(azureLogin)) == Pass && AuthCheck(password, azureLogin).Fail?
  {
  }

  /** The server normalisation: `https://` is prepended to anything not starting with
      `http://` (including a server already starting with `https://`), then trailing `/` are
      removed. */
  function NormaliseServer(server: string): string {
    var prefixed := if !StartsWith(server, "http://") || StartsWith(server, "https://") then "https://" + server else server;
    RStrip(prefixed, IsSlash)
  }

  /** The normalised server never ends in `/`, and is never empty. */
  lemma NormalisedHasNoTrailingSlash(server: string)
    ensures var r := NormaliseServer(server); r != [] && r[|r| - 1] != '/'
  {
    var prefixed := if !StartsWith(server, "http://") || StartsWith(server, "https://") then "https://" + server else server;
    RStripSpec(prefixed, IsSlash);
    assert prefixed[0] == 'h';
  }

  /** Trailing slashes only are removed: a host not beginning with `http:` (a bare host,
      with or without a port) and without a trailing `/`, followed by any run of slashes,
      normalises to `https://` and the host. */
  lemma {:induction false} TrailingSlashesRemoved(host: string, n: nat)
    requires host != [] && host[|host| - 1] != '/' && !StartsWith(host, "http:")
    ensures NormaliseServer(host + Slashes(n)) == "https://" + host
  {
    var s := host + Slashes(n);
    var h := "http://";
    assert StartsWith(s, h) ==> forall i :: 0 <= i < |h| ==> s[i] == h[i];
    if |host| >= 5 {
      assert s[..5] == host[..5] != "http:" == h[..5];
      assert |s| >= 7 ==> s[..7][..5] == s[..5];
    } else if n > 0 {
      assert s[|host|] == '/' != h[|host|];
    }
    assert !StartsWith(s, h);
    RStripSlashes("https://" + host, n);
    assert "https://" + s == ("https://" + host) + Slashes(n);
  }

  /** A host with a port and no scheme is normalised like any other host. */
  lemma HostWithPortExample()
    ensures NormaliseServer("localhost:8080" + Slashes(2)) == "https://localhost:8080"
  {
    assert "localhost:8080"[0] != "http:"[0];
    TrailingSlashesRemoved("localhost:8080", 2);
  }

  function Slashes(n: nat): (s: string)
    ensures |s| == n && forall i :: 0 <= i < n ==> s[i] == '/'
  {
    if n == 0 then [] else Slashes(n - 1) + "/"
  }

  lemma {:induction false} RStripSlashes(s: string, n: nat)
    requires s != [] && s[|s| - 1] != '/'
    ensures RStrip(s + Slashes(n), IsSlash) == s
  {
    if n > 0 {
      assert (s + Slashes(n))[..|s + Slashes(n)| - 1] == s + Slashes(n - 1);
      RStripSlashes(s, n - 1);
    } else {
      assert s + Slashes(0) == s;
    }
  }

  /** The example of the client's tests: `server////` becomes `https://server`. */
  lemma ServerWithSlashesExample()
    ensures NormaliseServer("server" + Slashes(4)) == "https://server"
  {
    assert "server"[0] != "http:"[0];
    TrailingSlashesRemoved("server", 4);
  }

  /** A server already given with `https://` gets a second `https://`. */
  lemma HttpsPrefixedTwice(rest: string)
    requires rest != [] && rest[|rest| - 1] != '/'
    ensures NormaliseServer("https://" + rest) == "https://https://" + rest
  {
    var s := "https://" + rest;
    assert StartsWith(s, "https://") by { assert s[..8] == "https://"; }
    RStripSlashes("https://" + s, 0);
    assert "https://" + s + Slashes(0) == "https://https://" + rest;
  }

  /** A server given with `http://` keeps its scheme; only trailing `/` go. */
  lemma HttpKept(server: string)
    requires StartsWith(server, "http://")
    ensures NormaliseServer(server) == RStrip(server, IsSlash)
  {
    assert !StartsWith(server, "https://") by {
      assert server[4] == ':';
    }
  }

  /** The port the OAuth redirect is received on, and the redirect URI sent to the server. */
  const RedirectUri: string := "http://localhost:8080"

  /** The error the Azure login ends with: a failed first request, a reply without
      `auth_url`, or else the `TypeError` of calling `run_callback_server` with keyword
      arguments it does not take. */
  function AzureLoginError(reply: Reply): (e: Error)
    ensures CheckReply(reply).Failure? ==> e == CheckReply(reply).error
    ensures CheckReply(reply).Success? && Subscript(CheckReply(reply).value, "auth_url").Failure? ==>
      e == Subscript(CheckReply(reply).value, "auth_url").error
    ensures CheckReply(reply).Success? && Subscript(CheckReply(reply).value, "auth_url").Success? ==> e == TypeError
    ensures !IsOk(reply.status) ==> e == ApiError(reply.status)
  {
    match CheckReply(reply)
    case Failure(e) => e
    case Success(body) =>
      match Subscript(body, "auth_url")
      case Failure(e) => e
      case Success(_) => TypeError
  }

  /** Registration by e-mail needs a non-empty first and last name. */
  predicate HasName(name: Option<string>) {
    name.Some? && name.value != []
  }

  class Client {
    const server: string
    const email: string
    const password: Option<string>
    const azureLogin: bool
    const cache: Cache

    /** The cache belongs to the client's server and email. */
    predicate Valid() {
      cache.server == server && cache.email == email
    }

    constructor (server: string, email: string, password: Option<string>, azureLogin: bool, cachePath: Option<string>)
      ensures Valid()
      ensures this.server == server && this.email == email
      ensures this.password == password && this.azureLogin == azureLogin
      ensures fresh(cache) && cache.server == server && cache.email == email
      ensures cache.path == CachePath(server, cachePath) && cache.Current() == Session(Null, None)
    {
      this.server := server;
      this.email := email;
      this.password := password;
      this.azureLogin := azureLogin;
      cache := new Cache(server, email, cachePath);
    }

    /** `Client.__init__`: the authentication check comes before anything else; the server is
        normalised and the cache created for it. */
    static method New(server: string, email: string, password: Option<string>, azureLogin: bool, cachePath: Option<string>)
      returns (r: Result<Client, Error>)
      ensures r.Failure? <==> AuthCheck(password, azureLogin).Fail?
      ensures r.Failure? ==> r.error == ValueError
      ensures r.Success? ==> fresh(r.value) && fresh(r.value.cache) && r.value.Valid()
      ensures r.Success? ==> r.value.server == NormaliseServer(server) && r.value.cache.server == r.value.server
      ensures r.Success? ==> r.value.email == email && r.value.cache.email == email
      ensures r.Success? ==> r.value.password == password && r.value.azureLogin == azureLogin
      ensures r.Success? ==> r.value.cache.path == CachePath(r.value.server, cachePath)
      ensures r.Success? ==> r.value.cache.Current() == Session(Null, None)
    {
      var check := AuthCheck(password, azureLogin);
      if check.Fail? {
        return Failure(check.error);
      }
      var client := new Client(NormaliseServer(server), email, password, azureLogin, cachePath);
      return Success(client);
    }

    /** The request `_make_request` sends with `bearer` as the token. */
    function RequestFor(verb: Method, endpoint: string, id: Id, params: map<string, string>, body: map<string, Json>, bearer: Json): Request {
      Request(verb, RequestUrl(server, endpoint, id), bearer, params, body)
    }

    method MakeRequest(net: Transport, verb: Method, endpoint: string, id: Id, params: map<string, string>, body: map<string, Json>)
      returns (r: Result<Json, Error>)
      modifies net
      ensures net.sent == old(net.sent) + [RequestFor(verb, endpoint, id, params, body, cache.token)]
      ensures r == CheckReply(net.answer(RequestFor(verb, endpoint, id, params, body, cache.token)))
    {
      var reply := net.Send(RequestFor(verb, endpoint, id, params, body, cache.token));
      r := CheckReply(reply);
    }

    function PasswordLogin(bearer: Json): Request {
      RequestFor(POST, "login", NoId, map[], map["email" := Str(email), "password" := TextOrNull(password)], bearer)
    }

    function AzureLoginStart(bearer: Json): Request {
      RequestFor(GET, "login_azure", NoId, map["redirect_uri" := RedirectUri], map[], bearer)
    }

    /** `login`: a usable cached token ends the login without any request; otherwise exactly
        one login flow runs and its reply updates the cache. */
    method Login(fs: FileSystem, net: Transport, now: int) returns (st: Outcome<Error>)
      requires Valid()
      modifies cache, fs, net
      ensures var read := ReadCache(server, email, old(fs.Lookup(cache.path)), now, old(cache.Current()));
        && (read.0.Fail? ==> st == read.0 && cache.Current() == read.1 && net.sent == old(net.sent) && fs.files == old(fs.files))
        && (read.0.Pass? && Truthy(read.1.token) ==>
              st == Pass && cache.Current() == read.1 && net.sent == old(net.sent) && fs.files == old(fs.files))
      ensures var read := ReadCache(server, email, old(fs.Lookup(cache.path)), now, old(cache.Current()));
        read.0.Pass? && !Truthy(read.1.token) && azureLogin ==>
          && net.sent == old(net.sent) + [AzureLoginStart(read.1.token)]
          && st == Fail(AzureLoginError(net.answer(AzureLoginStart(read.1.token))))
          && cache.Current() == read.1 && fs.files == old(fs.files)
      ensures var read := ReadCache(server, email, old(fs.Lookup(cache.path)), now, old(cache.Current()));
        read.0.Pass? && !Truthy(read.1.token) && !azureLogin ==>
          && net.sent == old(net.sent) + [PasswordLogin(read.1.token)]
          && var result := CheckReply(net.answer(PasswordLogin(read.1.token)));
          && (result.Failure? ==> st == Fail(result.error) && cache.Current() == read.1 && fs.files == old(fs.files))
          && (result.Success? ==> (st, cache.Current()) == AfterLogin(result.value, now, read.1))
          && (result.Success? && st == Pass ==>
                fs.files == old(fs.files)[cache.path := Parsed(CacheRecord(server, email, cache.path, cache.token, cache.expiresAt.value))])
          && (result.Success? && st.Fail? ==> fs.files == old(fs.files))
    {
      st := cache.Read(fs, now);
      if st.Fail? || Truthy(cache.token) {
        return;
      }
      if azureLogin {
        var started := MakeRequest(net, GET, "login_azure", NoId, map["redirect_uri" := RedirectUri], map[]);
        if started.Failure? {
          return Fail(started.error);
        }
        var authUrl := Subscript(started.value, "auth_url");
        if authUrl.Failure? {
          return Fail(authUrl.error);
        }
        // `run_callback_server(hostname=..., port=...)`: keywords the function does not take
        return Fail(TypeError);
      }
      var result := MakeRequest(net, POST, "login", NoId, map[], map["email" := Str(email), "password" := TextOrNull(password)]);
      if result.Failure? {
        return Fail(result.error);
      }
      st := cache.UpdateFromLogin(result.value, fs, now);
    }

    function RegisterRequest(firstName: string, lastName: string, bearer: Json): Request {
      RequestFor(POST, "register", NoId, map[], map[
        "email" := Str(email), "password" := TextOrNull(password),
        "first_name" := Str(firstName), "last_name" := Str(lastName)], bearer)
    }

    /** `register`: Azure registration is not implemented; e-mail registration checks both
        names before any request, then stores the reply like a login. */
    method Register(firstName: Option<string>, lastName: Option<string>, fs: FileSystem, net: Transport, now: int)
      returns (st: Outcome<Error>)
      requires Valid()
      modifies cache, fs, net
      ensures azureLogin ==>
        st == Fail(NotImplementedError) && net.sent == old(net.sent) && cache.Current() == old(cache.Current()) && fs.files == old(fs.files)
      ensures !azureLogin && !(HasName(firstName) && HasName(lastName)) ==>
        st == Fail(ValueError) && net.sent == old(net.sent) && cache.Current() == old(cache.Current()) && fs.files == old(fs.files)
      ensures !azureLogin && HasName(firstName) && HasName(lastName) ==>
        && var request := RegisterRequest(firstName.value, lastName.value, old(cache.token));
        && net.sent == old(net.sent) + [request]
        && var result := CheckReply(net.answer(request));
        && (result.Failure? ==> st == Fail(result.error) && cache.Current() == old(cache.Current()) && fs.files == old(fs.files))
        && (result.Success? ==> (st, cache.Current()) == AfterLogin(result.value, now, old(cache.Current())))
        && (result.Success? && st == Pass ==>
              fs.files == old(fs.files)[cache.path := Parsed(CacheRecord(server, email, cache.path, cache.token, cache.expiresAt.value))])
        && (result.Success? && st.Fail? ==> fs.files == old(fs.files))
    {
      if azureLogin {
        return Fail(NotImplementedError);
      }
      if !HasName(firstName) || !HasName(lastName) {
        return Fail(ValueError);
      }
      var result := MakeRequest(net, POST, "register", NoId, map[], map[
        "email" := Str(email), "password" := TextOrNull(password),
        "first_name" := Str(firstName.value), "last_name" := Str(lastName.value)]);
      if result.Failure? {
        return Fail(result.error);
      }
      st := cache.UpdateFromLogin(result.value, fs, now);
    }

    /** `query`: list the endpoint (raising `APIError` on a non-ok reply), then keep the
        matching items in order. */
    method Query(net: Transport, endpoint: string, data: map<string, Json>) returns (r: Result<seq<Json>, Error>)
      modifies net
      ensures net.sent == old(net.sent) + [RequestFor(GET, endpoint, NoId, map[], map[], cache.token)]
      ensures r == QueryResult(CheckReply(net.answer(RequestFor(GET, endpoint, NoId, map[], map[], cache.token))), data)
    {
      var listed := MakeRequest(net, GET, endpoint, NoId, map[], map[]);
      r := QueryResult(listed, data);
    }
  }
}

/** The command-line module of the client (`main.py`): the `KEY=VALUE` argument parser, the
    original token cache (server and token only) and the original client's construction,
    request building, `query` and `create`. */
module Cli {
  import opened Wrappers
  import opened PyText
  import opened PyValues
  import opened Files
  import opened Http
  import opened Query

  // ---------------------------------------------------------------------------------------
  // parse_data_args

  /** One `KEY=VALUE` argument: the text before the first `=` and all the text after it, both
      with surrounding white space stripped; `None` when the argument has no `=`. */
  function KeyValue(item: string): (kv: Option<(string, string)>)
    ensures kv.None? <==> '=' !in item
  {
    match SplitFirst(item, '=')
    case None => None
    case Some(parts) => Some((Strip(parts.0, IsSpace), Strip(parts.1, IsSpace)))
  }

  /** The dictionary `parse_data_args` returns, or its `ValueError`: the arguments are entered
      in order, so a later key overwrites an earlier one. */
  function DataArgs(args: seq<string>): (r: Result<map<string, string>, Error>)
    ensures r.Failure? ==> r.error == ValueError
  {
    if args == [] then Success(map[])
    else match DataArgs(args[..|args| - 1])
      case Failure(e) => Failure(e)
      case Success(m) =>
        match KeyValue(args[|args| - 1])
        case None => Failure(ValueError)
        case Some(kv) => Success(m[kv.0 := kv.1])
  }

  /** `parse_data_args`: one pass over the arguments, raising on the first one without `=`. */
  method ParseDataArgs(args: seq<string>) returns (r: Result<map<string, string>, Error>)
    ensures r == DataArgs(args)
  {
    var result := map[];
    for i := 0 to |args|
      invariant DataArgs(args[..i]) == Success(result)
    {
      var item := args[i];
      assert args[..i + 1][..i] == args[..i];
      if '=' !in item {
        DataArgsFailsIff(args);
        return Failure(ValueError);
      }
      var parts := SplitFirst(item, '=').value;
      result := result[Strip(parts.0, IsSpace) := Strip(parts.1, IsSpace)];
    }
    assert args[..|args|] == args;
    return Success(result);
  }

  /** Parsing fails exactly when some argument has no `=`. */
  lemma {:induction false} DataArgsFailsIff(args: seq<string>)
    ensures DataArgs(args).Failure? <==> exists i :: 0 <= i < |args| && '=' !in args[i]
  {
    if args != [] {
      var init, last := args[..|args| - 1], args[|args| - 1];
      DataArgsFailsIff(init);
      if DataArgs(init).Failure? {
        var i :| 0 <= i < |init| && '=' !in init[i];
        assert args[i] == init[i];
      } else if '=' !in last {
        assert KeyValue(last).None?;
      } else {
        assert KeyValue(last).Some?;
        forall i | 0 <= i < |args| ensures '=' in args[i] {
          if i < |init| {
            assert init[i] == args[i];
          }
        }
      }
    }
  }

  /** No arguments give an empty dictionary. */
  lemma NoArgsGiveEmptyMap()
    ensures DataArgs([]) == Success(map[])
  {
  }

  /** The last argument with a given key decides its value. */
  lemma {:induction false} DataArgsLastWins(args: seq<string>, m: map<string, string>, i: nat, k: string, v: string)
    requires DataArgs(args) == Success(m)
    requires i < |args| && KeyValue(args[i]) == Some((k, v))
    requires forall j :: i < j < |args| && KeyValue(args[j]).Some? ==> KeyValue(args[j]).value.0 != k
    ensures k in m && m[k] == v
  {
    var init := args[..|args| - 1];
    var last := KeyValue(args[|args| - 1]);
    match DataArgs(init)
    case Success(m0) =>
      if i < |args| - 1 {
        assert init[i] == args[i];
        forall j | i < j < |init| && KeyValue(init[j]).Some?
          ensures KeyValue(init[j]).value.0 != k
        {
          assert init[j] == args[j];
        }
        DataArgsLastWins(init, m0, i, k, v);
      }
  }

  /** Every key of the result comes from an argument, and with that argument's value. */
  lemma {:induction false} DataArgsKeysFromArgs(args: seq<string>, m: map<string, string>, k: string)
    requires DataArgs(args) == Success(m) && k in m
    ensures exists i :: 0 <= i < |args| && KeyValue(args[i]) == Some((k, m[k]))
  {
    var init := args[..|args| - 1];
    match DataArgs(init)
    case Success(m0) =>
      var kv := KeyValue(args[|args| - 1]).value;
      if kv.0 == k {
        assert KeyValue(args[|args| - 1]) == Some((k, m[k]));
      } else {
        DataArgsKeysFromArgs(init, m0, k);
        var i :| 0 <= i < |init| && KeyValue(init[i]) == Some((k, m0[k]));
        assert args[i] == init[i];
      }
  }

  /** The value keeps every `=` after the first: `a=b=c` maps `a` to `b=c`. */
  lemma ValueKeepsLaterEquals(key: string, value: string)
    requires '=' !in key
    ensures KeyValue(key + "=" + value) == Some((Strip(key, IsSpace), Strip(value, IsSpace)))
  {
    SplitFirstUnique(key, value, '=');
  }

  lemma StripOtherKey()
    ensures Strip(" other key ", IsSpace) == "other key"
  {
    var padded := " other key ";
    assert padded[0] == ' ' && padded[1..] == "other key ";
    var trailing := "other key ";
    assert trailing[0] == 'o';
    assert LStrip(padded, IsSpace) == trailing;
    assert trailing[|trailing| - 1] == ' ' && trailing[..|trailing| - 1] == "other key";
    assert RStrip(trailing, IsSpace) == RStrip("other key", IsSpace);
  }

  lemma StripValue()
    ensures Strip(" value ", IsSpace) == "value"
  {
    var padded := " value ";
    assert padded[0] == ' ' && padded[1..] == "value ";
    var trailing := "value ";
    assert trailing[0] == 'v';
    assert LStrip(padded, IsSpace) == trailing;
    assert trailing[|trailing| - 1] == ' ' && trailing[..|trailing| - 1] == "value";
    assert RStrip(trailing, IsSpace) == RStrip("value", IsSpace);
  }

  /** The example of the parser's test: `[" other key = value "]` gives `{"other key": "value"}`. */
  lemma SpacesAroundKeyAndValue()
    ensures DataArgs([" other key = value "]) == Success(map["other key" := "value"])
  {
    var before, after := " other key ", " value ";
    var item := " other key = value ";
    assert item == before + "=" + after;
    SplitFirstUnique(before, after, '=');
    StripOtherKey();
    StripValue();
    assert KeyValue(item) == Some(("other key", "value"));
    assert [item][..0] == [];
  }

  // ---------------------------------------------------------------------------------------
  // Cache (server and token only)

  /** The JSON the original cache writes: its instance dictionary. */
  function LegacyRecord(server: string, token: Json): Json {
    Object(map["server" := Str(server), "token" := token])
  }

  /** `read`: the decoded file and the token it holds. A missing file leaves `data` unbound. */
  function LegacyRead(doc: Option<Document>): (r: Result<(Json, Json), Error>)
    ensures doc.None? ==> r == Failure(UnboundLocalError)
    ensures doc == Some(Unparseable) ==> r == Failure(JsonDecodeError)
    ensures r.Success? ==> doc == Some(Parsed(r.value.0)) && Subscript(r.value.0, "token") == Success(r.value.1)
    ensures doc.Some? && doc.value.Parsed? ==> (r.Success? <==> Subscript(doc.value.json, "token").Success?)
    ensures doc.Some? && doc.value.Parsed? && r.Failure? ==> r == Failure(Subscript(doc.value.json, "token").error)
  {
    match doc
    case None => Failure(UnboundLocalError)
    case Some(Unparseable) => Failure(JsonDecodeError)
    case Some(Parsed(data)) =>
      match Subscript(data, "token")
      case Failure(e) => Failure(e)
      case Success(token) => Success((data, token))
  }

  /** What `write` stores is what `read` returns, and the token comes back unchanged. */
  lemma LegacyWriteThenRead(server: string, token: Json)
    ensures LegacyRead(Some(Parsed(LegacyRecord(server, token)))) == Success((LegacyRecord(server, token), token))
  {
  }

  class Cache {
    const server: string
    var token: Json
    /** `Cache._paths[0]`, the directory searched for cache files. */
    const searchDir: string

    constructor (server: string)
      ensures this.server == server && token == Null && searchDir == "."
    {
      this.server := server;
      token := Null;
      searchDir := ".";
    }

    /** The `path` property: the search directory joined with the server-derived file name. */
    function Path(): string {
      JoinPath(searchDir, CacheFileName(server))
    }

    method Read(fs: FileSystem) returns (r: Result<Json, Error>)
      modifies this
      ensures var read := LegacyRead(fs.Lookup(Path()));
        && (read.Success? ==> r == Success(read.value.0) && token == read.value.1)
        && (read.Failure? ==> r == Failure(read.error) && token == old(token))
    {
      var read := LegacyRead(fs.Lookup(Path()));
      if read.Failure? {
        return Failure(read.error);
      }
      token := read.value.1;
      return Success(read.value.0);
    }

    method Write(fs: FileSystem)
      modifies fs
      ensures fs.files == old(fs.files)[Path() := Parsed(LegacyRecord(server, token))]
    {
      fs.files := fs.files[Path() := Parsed(LegacyRecord(server, token))];
    }
  }

  // ---------------------------------------------------------------------------------------
  // Client

  /** The constructor's assertion `(password is not None) | azure_login`. The default
      `azure_login=None` makes `bool | None` raise `TypeError`; otherwise a password or the
      Azure flag must be given. */
  function LegacyAuthCheck(password: Option<string>, azureLogin: Option<bool>): (r: Outcome<Error>)
    ensures r == Pass <==> azureLogin.Some? && (password.Some? || azureLogin.value)
    ensures azureLogin.None? ==> r == Fail(TypeError)
    ensures azureLogin.Some? && r.Fail? ==> r.error == AssertionError
  {
    match azureLogin
    case None => Fail(TypeError)
    case Some(azure) => if password.Some? || azure then Pass else Fail(AssertionError)
  }

  /** The token step after a login or registration reply (`"token" not in result`, then
      `result["token"]`): `None` when the reply is returned as it is, the token when it is
      adopted. On a list or a string the membership test looks for an equal element or a
      substring, and indexing it by a name then raises `TypeError`; numbers, booleans and null
      do not support the test at all. */
  function TokenOf(result: Json): (r: Result<Option<Json>, Error>)
    ensures result.Object? ==> r == Success(if "token" in result.fields then Some(result.fields["token"]) else None)
    ensures !result.Object? && r.Success? ==> r.value.None?
    ensures r.Failure? ==> r.error == TypeError
    ensures r.Success? && r.value.Some? ==> Subscript(result, "token") == Success(r.value.value)
  {
    match result
    case Object(fields) => Success(if "token" in fields then Some(fields["token"]) else None)
    case Array(items) => if Str("token") in items then Failure(TypeError) else Success(None)
    case Str(text) => if Contains(text, "token") then Failure(TypeError) else Success(None)
    case _ => Failure(TypeError)
  }

  /** The code of the redirect URL the user pastes, from its parsed query: `["code"][0]`. */
  function PastedCode(pasted: map<string, seq<string>>): (r: Result<string, Error>)
    ensures "code" !in pasted ==> r == Failure(KeyError)
    ensures "code" in pasted && pasted["code"] == [] ==> r == Failure(IndexError)
    ensures "code" in pasted && pasted["code"] != [] ==> r == Success(pasted["code"][0])
  {
    if "code" !in pasted then Failure(KeyError)
    else if pasted["code"] == [] then Failure(IndexError)
    else Success(pasted["code"][0])
  }

  /** One login or registration conversation: the requests sent in order, the result, and
      the token the cache adopts (and then writes), if any. */
  datatype Exchange = Exchange(sent: seq<Request>, result: Result<Json, Error>, adopted: Option<Json>)

  /** The end of a password login or registration: the checked reply and its token step,
      giving the result and the token adopted, if any. */
  function Finish(reply: Result<Json, Error>): (x: (Result<Json, Error>, Option<Json>))
    ensures reply.Failure? ==> x == (reply, None)
    ensures x.1.Some? ==> x.0 == reply && Subscript(reply.value, "token") == Success(x.1.value)
    ensures reply.Success? && reply.value.Object? ==>
      x.0 == reply && (x.1.Some? <==> "token" in reply.value.fields)
  {
    match reply
    case Failure(e) => (Failure(e), None)
    case Success(body) =>
      match TokenOf(body)
      case Failure(e) => (Failure(e), None)
      case Success(token) => (Success(body), token)
  }

  /** The `id` keyword a data pair of that name binds in `_make_request`. */
  function DataId(data: map<string, string>): Id {
    if "id" in data then TextId(data["id"]) else NoId
  }

  class Client {
    const server: string
    const email: string
    const password: Option<string>
    const azureLogin: Option<bool>
    const cache: Cache

    constructor (server: string, email: string, password: Option<string>, azureLogin: Option<bool>)
      ensures this.server == server && this.email == email
      ensures this.password == password && this.azureLogin == azureLogin
      ensures fresh(cache) && cache.server == server && cache.token == Null && cache.searchDir == "."
    {
      this.server := server;
      this.email := email;
      this.password := password;
      this.azureLogin := azureLogin;
      cache := new Cache(server);
    }

    /** `Client.__init__`: the assertion, then the server with trailing `/` removed. */
    static method New(server: string, email: string, password: Option<string>, azureLogin: Option<bool>)
      returns (r: Result<Client, Error>)
      ensures r.Failure? <==> LegacyAuthCheck(password, azureLogin).Fail?
      ensures r.Failure? ==> r.error == LegacyAuthCheck(password, azureLogin).error
      ensures r.Success? ==> fresh(r.value) && fresh(r.value.cache)
      ensures r.Success? ==> r.value.server == RStrip(server, IsSlash) && r.value.cache.server == r.value.server
      ensures r.Success? ==> r.value.email == email && r.value.password == password && r.value.azureLogin == azureLogin
      ensures r.Success? ==> r.value.cache.token == Null && r.value.cache.searchDir == "."
    {
      var check := LegacyAuthCheck(password, azureLogin);
      if check.Fail? {
        return Failure(check.error);
      }
      var client := new Client(RStrip(server, IsSlash), email, password, azureLogin);
      return Success(client);
    }

    /** The request `_make_request` sends: JSON content, the cached token as bearer. */
    function RequestFor(verb: Method, endpoint: string, id: Id, body: map<string, Json>): (req: Request)
      reads cache
      ensures req.url == RequestUrl(server, endpoint, id) && req.bearer == cache.token
    {
      Request(verb, RequestUrl(server, endpoint, id), cache.token, map[], body)
    }

    method MakeRequest(net: Transport, verb: Method, endpoint: string, id: Id, body: map<string, Json>)
      returns (r: Result<Json, Error>)
      modifies net
      ensures net.sent == old(net.sent) + [RequestFor(verb, endpoint, id, body)]
      ensures r == LegacyCheckReply(net.answer(RequestFor(verb, endpoint, id, body)))
    {
      var reply := net.Send(RequestFor(verb, endpoint, id, body));
      r := LegacyCheckReply(reply);
    }

    /** `query`: list the endpoint, then keep the matching items in order. */
    method Query(net: Transport, endpoint: string, data: map<string, Json>) returns (r: Result<seq<Json>, Error>)
      modifies net
      ensures net.sent == old(net.sent) + [RequestFor(GET, endpoint, NoId, map[])]
      ensures r == QueryResult(LegacyCheckReply(net.answer(RequestFor(GET, endpoint, NoId, map[]))), data)
    {
      var listed := MakeRequest(net, GET, endpoint, NoId, map[]);
      r := QueryResult(listed, data);
    }

    /** `create`: an existing match is returned without a POST; only when nothing matches is
        the item posted. */
    method Create(net: Transport, endpoint: string, data: map<string, Json>) returns (r: Result<Json, Error>)
      modifies net
      ensures var list, post := RequestFor(GET, endpoint, NoId, map[]), RequestFor(POST, endpoint, NoId, data);
        var found := QueryResult(LegacyCheckReply(net.answer(list)), data);
        && (found.Failure? ==> r == Failure(found.error) && net.sent == old(net.sent) + [list])
        && (found.Success? && found.value != [] ==> r == Success(found.value[0]) && net.sent == old(net.sent) + [list])
        && (found.Success? && found.value == [] ==>
              r == LegacyCheckReply(net.answer(post)) && net.sent == old(net.sent) + [list, post])
    {
      var found := Query(net, endpoint, data);
      if found.Failure? {
        return Failure(found.error);
      }
      if found.value != [] {
        return Success(found.value[0]);
      }
      r := MakeRequest(net, POST, endpoint, NoId, data);
    }

    /** `_login_email`: one POST to `login` with the email and password. */
    function EmailLoginExchange(answer: Request -> Reply, bearer: Json): (x: Exchange)
      ensures |x.sent| == 1 && x.sent[0].verb == POST && x.sent[0].url == RequestUrl(server, "login", NoId)
      ensures x.sent[0].body == map["email" := Str(email), "password" := TextOrNull(password)]
      ensures x.adopted.Some? ==> x.result.Success? && Subscript(x.result.value, "token") == Success(x.adopted.value)
    {
      var login := Request(POST, RequestUrl(server, "login", NoId), bearer, map[],
                           map["email" := Str(email), "password" := TextOrNull(password)]);
      var done := Finish(LegacyCheckReply(answer(login)));
      Exchange([login], done.0, done.1)
    }

    /** `_login_azure`: a GET to `login_azure` for the authorisation URL, the code from the
        redirect URL the user pastes, then a POST to `login_azure` with the code; the final
        reply must carry a token. */
    function AzureLoginExchange(answer: Request -> Reply, bearer: Json, pasted: map<string, seq<string>>): (x: Exchange)
      ensures 1 <= |x.sent| <= 2
      ensures x.sent[0] == Request(GET, RequestUrl(server, "login_azure", NoId), bearer, map[], map[])
      ensures |x.sent| == 2 <==>
        LegacyCheckReply(answer(x.sent[0])).Success?
        && Subscript(LegacyCheckReply(answer(x.sent[0])).value, "auth_url").Success? && PastedCode(pasted).Success?
      ensures |x.sent| == 2 ==>
        x.sent[1].verb == POST && x.sent[1].url == RequestUrl(server, "login_azure", NoId)
        && x.sent[1].body == map["code" := Str(PastedCode(pasted).value), "email" := Str(email)]
      ensures x.adopted.Some? <==> x.result.Success?
      ensures x.adopted.Some? ==> |x.sent| == 2 && Subscript(x.result.value, "token") == Success(x.adopted.value)
    {
      var start := Request(GET, RequestUrl(server, "login_azure", NoId), bearer, map[], map[]);
      match LegacyCheckReply(answer(start))
      case Failure(e) => Exchange([start], Failure(e), None)
      case Success(init) =>
        match Subscript(init, "auth_url")
        case Failure(e) => Exchange([start], Failure(e), None)
        case Success(_) =>
          match PastedCode(pasted)
          case Failure(e) => Exchange([start], Failure(e), None)
          case Success(code) =>
            var finish := Request(POST, RequestUrl(server, "login_azure", NoId), bearer, map[],
                                  map["code" := Str(code), "email" := Str(email)]);
            match LegacyCheckReply(answer(finish))
            case Failure(e) => Exchange([start, finish], Failure(e), None)
            case Success(body) =>
              match Subscript(body, "token")
              case Failure(e) => Exchange([start, finish], Failure(e), None)
              case Success(token) => Exchange([start, finish], Success(body), Some(token))
    }

    /** `register`: a `self` keyword clashes with the bound instance; Azure registration is not
        implemented; a key clashing with another keyword of `_make_request` raises `TypeError`;
        a key `id` becomes the id of the URL; the other pairs go in the body with the email
        and password. */
    function RegisterExchange(answer: Request -> Reply, bearer: Json, data: map<string, string>): (x: Exchange)
      ensures |x.sent| <= 1
      ensures "self" in data ==> x == Exchange([], Failure(TypeError), None)
      ensures "self" !in data && azureLogin == Some(true) ==> x == Exchange([], Failure(NotImplementedError), None)
      ensures |x.sent| == 1 <==>
        "self" !in data && azureLogin != Some(true)
        && "method" !in data && "endpoint" !in data && "email" !in data && "password" !in data
      ensures |x.sent| == 1 ==>
        && x.sent[0].verb == POST && x.sent[0].url == RequestUrl(server, "register", DataId(data))
        && x.sent[0].bearer == bearer
        && x.sent[0].body.Keys == (data.Keys - {"id"}) + {"email", "password"}
        && x.sent[0].body["email"] == Str(email) && x.sent[0].body["password"] == TextOrNull(password)
        && forall k :: k in data && k != "id" ==> x.sent[0].body[k] == Str(data[k])
      ensures x.adopted.Some? ==> x.result.Success? && Subscript(x.result.value, "token") == Success(x.adopted.value)
    {
      if "self" in data then Exchange([], Failure(TypeError), None)
      else if azureLogin == Some(true) then Exchange([], Failure(NotImplementedError), None)
      else if "method" in data || "endpoint" in data || "email" in data || "password" in data then
        Exchange([], Failure(TypeError), None)
      else
        var register := Request(POST, RequestUrl(server, "register", DataId(data)), bearer, map[], RegisterBody(data));
        var done := Finish(LegacyCheckReply(answer(register)));
        Exchange([register], done.0, done.1)
    }

    /** The JSON body of `_register_email`: the data pairs other than `id`, the email and the
        password. */
    function RegisterBody(data: map<string, string>): map<string, Json> {
      (map k | k in data && k != "id" :: Str(data[k])) + map["email" := Str(email), "password" := TextOrNull(password)]
    }

    /** `self.cache.token = ...; self.cache.write()`: an adopted token is stored and written. */
    method Adopt(fs: FileSystem, adopted: Option<Json>)
      modifies cache, fs
      ensures adopted.Some? ==>
        cache.token == adopted.value
        && fs.files == old(fs.files)[cache.Path() := Parsed(LegacyRecord(cache.server, adopted.value))]
      ensures adopted.None? ==> cache.token == old(cache.token) && fs.files == old(fs.files)
    {
      if adopted.Some? {
        cache.token := adopted.value;
        cache.Write(fs);
      }
    }

    /** `login`: Azure login when the flag is truthy, password login otherwise; a token in
        the final reply replaces the cached one and is written to the cache file. */
    method Login(fs: FileSystem, net: Transport, pasted: map<string, seq<string>>) returns (r: Result<Json, Error>)
      modifies cache, fs, net
      ensures var x := if azureLogin == Some(true) then AzureLoginExchange(net.answer, old(cache.token), pasted)
                       else EmailLoginExchange(net.answer, old(cache.token));
        && net.sent == old(net.sent) + x.sent && r == x.result
        && (x.adopted.Some? ==>
              cache.token == x.adopted.value
              && fs.files == old(fs.files)[cache.Path() := Parsed(LegacyRecord(cache.server, x.adopted.value))])
        && (x.adopted.None? ==> cache.token == old(cache.token) && fs.files == old(fs.files))
    {
      var adopted: Option<Json> := None;
      if azureLogin == Some(true) {
        var init := MakeRequest(net, GET, "login_azure", NoId, map[]);
        if init.Failure? {
          return init;
        }
        var authUrl := Subscript(init.value, "auth_url");
        if authUrl.Failure? {
          return Failure(authUrl.error);
        }
        var code := PastedCode(pasted);
        if code.Failure? {
          return Failure(code.error);
        }
        r := MakeRequest(net, POST, "login_azure", NoId, map["code" := Str(code.value), "email" := Str(email)]);
        if r.Success? {
          var token := Subscript(r.value, "token");
          if token.Failure? {
            return Failure(token.error);
          }
          adopted := Some(token.value);
        }
      } else {
        var result := MakeRequest(net, POST, "login", NoId, map["email" := Str(email), "password" := TextOrNull(password)]);
        var done := Finish(result);
        r, adopted := done.0, done.1;
      }
      Adopt(fs, adopted);
    }

    /** `register`, with the data pairs of the command line. */
    method Register(fs: FileSystem, net: Transport, data: map<string, string>) returns (r: Result<Json, Error>)
      modifies cache, fs, net
      ensures var x := RegisterExchange(net.answer, old(cache.token), data);
        && net.sent == old(net.sent) + x.sent && r == x.result
        && (x.adopted.Some? ==>
              cache.token == x.adopted.value
              && fs.files == old(fs.files)[cache.Path() := Parsed(LegacyRecord(cache.server, x.adopted.value))])
        && (x.adopted.None? ==> cache.token == old(cache.token) && fs.files == old(fs.files))
    {
      // `register(**data)`: a `self` key clashes with the instance argument
      if "self" in data {
        return Failure(TypeError);
      }
      if azureLogin == Some(true) {
        return Failure(NotImplementedError);
      }
      // `_make_request(method=..., endpoint=..., email=..., password=..., **data)`
      if "method" in data || "endpoint" in data || "email" in data || "password" in data {
        return Failure(TypeError);
      }
      var result := MakeRequest(net, POST, "register", DataId(data), RegisterBody(data));
      var done := Finish(result);
      r := done.0;
      Adopt(fs, done.1);
    }
  }

  /** What `create` returns when it finds a match is itself a listed item matching every
      queried pair. */
  lemma CreateReturnsAMatch(listed: Result<Json, Error>, data: map<string, Json>)
    requires QueryResult(listed, data).Success? && QueryResult(listed, data).value != []
    ensures var first := QueryResult(listed, data).value[0];
      listed.Success? && listed.value.Array? && first in listed.value.items && Selected(first, data)
  {
  }
}

/** Request construction and reply handling shared by both clients; the network itself is an
    oracle from request to reply. */
module Http {
  import opened Wrappers
  import opened PyText
  import opened PyValues

  datatype Method = GET | POST | PUT | DELETE

  /** The `id` argument of `_make_request`: absent, an integer, or the text the command line
      passes through unconverted. */
  datatype Id = NoId | IntId(n: int) | TextId(s: string)

  /** Python truthiness of the id: `None`, `0` and `""` are false. */
  predicate IdTruthy(id: Id) {
    match id
    case NoId => false
    case IntId(n) => n != 0
    case TextId(s) => s != []
  }

  /** What the URL gets after the endpoint's `/`: the id's text when it is truthy, else nothing. */
  function IdSuffix(id: Id): (t: string)
    ensures t != [] <==> IdTruthy(id)
    ensures id.IntId? ==> '/' !in t
  {
    if !IdTruthy(id) then []
    else match id
      case IntId(n) => IntToText(n)
      case TextId(s) => s
  }

  /** `f"{server}/{endpoint.strip('/')}/"`, followed by the id when it is truthy. */
  function RequestUrl(server: string, endpoint: string, id: Id): string {
    server + "/" + Strip(endpoint, IsSlash) + "/" + IdSuffix(id)
  }

  /** The URL starts with the server and a `/`, and without an id it ends in `/`. */
  lemma RequestUrlShape(server: string, endpoint: string, id: Id)
    ensures var url := RequestUrl(server, endpoint, id);
      |server| < |url| && url[..|server| + 1] == server + "/"
      && (!IdTruthy(id) ==> url[|url| - 1] == '/')
  {
  }

  /** A falsy id (`None`, `0`, `""`) leaves the URL as if no id had been given. */
  lemma FalsyIdOmitted(server: string, endpoint: string, id: Id)
    requires !IdTruthy(id)
    ensures RequestUrl(server, endpoint, id) == server + "/" + Strip(endpoint, IsSlash) + "/"
  {
  }

  /** Slashes around the endpoint do not change the URL. */
  lemma EndpointSlashesIgnored(server: string, endpoint: string, id: Id)
    ensures RequestUrl(server, "/" + endpoint + "/", id) == RequestUrl(server, endpoint, id)
  {
    StripSurroundingSlashes(endpoint);
  }

  lemma StripSurroundingSlashes(e: string)
    ensures Strip("/" + e + "/", IsSlash) == Strip(e, IsSlash)
  {
    var padded := "/" + e + "/";
    assert padded[0] == '/' && padded[1..] == e + "/";
    assert LStrip(padded, IsSlash) == LStrip(e + "/", IsSlash);
    LStripThenSlash(e);
    var l := LStrip(e, IsSlash);
    if l != [] {
      RStripSlash(l);
    }
  }

  /** A trailing `/` is the first thing right-stripping removes. */
  lemma RStripSlash(x: string)
    ensures RStrip(x + "/", IsSlash) == RStrip(x, IsSlash)
  {
    assert (x + "/")[..|x|] == x;
  }

  /** Left-stripping `e + "/"` is left-stripping `e` and keeping the `/`, unless `e` is all slashes. */
  lemma {:induction false} LStripThenSlash(e: string)
    ensures LStrip(e + "/", IsSlash) == (if LStrip(e, IsSlash) == [] then [] else LStrip(e, IsSlash) + "/")
  {
    if e != [] {
      assert (e + "/")[0] == e[0] && (e + "/")[1..] == e[1..] + "/";
      if IsSlash(e[0]) {
        LStripThenSlash(e[1..]);
      }
    } else {
      assert ("/")[1..] == [];
    }
  }

  /** With an id whose text has no `/`, the URL determines the stripped endpoint and the id
      text: different requests go to different URLs. */
  lemma UrlDeterminesEndpointAndId(server: string, e1: string, e2: string, id1: Id, id2: Id)
    requires '/' !in IdSuffix(id1) && '/' !in IdSuffix(id2)
    requires RequestUrl(server, e1, id1) == RequestUrl(server, e2, id2)
    ensures Strip(e1, IsSlash) == Strip(e2, IsSlash) && IdSuffix(id1) == IdSuffix(id2)
  {
    var p1, p2 := server + "/" + Strip(e1, IsSlash), server + "/" + Strip(e2, IsSlash);
    LastSlashSplit(p1, IdSuffix(id1), p2, IdSuffix(id2));
    assert Strip(e1, IsSlash) == p1[|server| + 1..];
    assert Strip(e2, IsSlash) == p2[|server| + 1..];
  }

  /** A `/` followed by slash-free text splits a string at its last `/`. */
  lemma LastSlashSplit(a: string, t1: string, b: string, t2: string)
    requires '/' !in t1 && '/' !in t2
    requires a + "/" + t1 == b + "/" + t2
    ensures a == b && t1 == t2
  {
    var s := a + "/" + t1;
    if |t1| < |t2| {
      SlashBeforeTail(b, t2, |t2| - |t1| - 1);
      assert false;
    } else if |t2| < |t1| {
      SlashBeforeTail(a, t1, |t1| - |t2| - 1);
      assert false;
    }
    assert a == s[..|a|];
    assert b == s[..|b|];
    assert t1 == s[|a| + 1..];
    assert t2 == s[|b| + 1..];
  }

  /** In `x + "/" + t` the character at distance `|t| - k` from the end is `t[k]`, and the
      one before `t` is the `/`. */
  lemma SlashBeforeTail(x: string, t: string, k: nat)
    requires k < |t|
    ensures var s := x + "/" + t; s[|x|] == '/' && s[|x| + 1 + k] == t[k]
  {
  }

  /** One HTTP request as the transport sees it: method, URL, the bearer token put in the
      `Authorization` header, query parameters and JSON body. */
  datatype Request = Request(
    verb: Method, url: string, bearer: Json, params: map<string, string>, body: map<string, Json>)

  /** A server reply: its status and its body when that decodes as JSON. */
  datatype Reply = Reply(status: int, body: Option<Json>)

  /** `requests.Response.ok`: false exactly for client and server errors, 400 to 599. */
  predicate IsOk(status: int) {
    !(400 <= status < 600)
  }

  /** `_make_request` of the newer client: a non-ok reply raises `APIError` with the status;
      otherwise the decoded body is returned (`result.json()` fails on a non-JSON body). */
  function CheckReply(reply: Reply): (r: Result<Json, Error>)
    ensures r.Success? <==> IsOk(reply.status) && reply.body.Some?
    ensures r.Success? ==> r.value == reply.body.value
    ensures !IsOk(reply.status) ==> r == Failure(ApiError(reply.status))
    ensures IsOk(reply.status) && reply.body.None? ==> r == Failure(JsonDecodeError)
  {
    if !IsOk(reply.status) then Failure(ApiError(reply.status))
    else match reply.body
      case Some(j) => Success(j)
      case None => Failure(JsonDecodeError)
  }

  /** `_make_request` of the older client: a non-ok status is only logged, so the decoded body
      is returned whatever the status. */
  function LegacyCheckReply(reply: Reply): (r: Result<Json, Error>)
    ensures r.Success? <==> reply.body.Some?
    ensures r.Success? ==> r.value == reply.body.value
    ensures r.Failure? ==> r.error == JsonDecodeError
  {
    match reply.body
    case Some(j) => Success(j)
    case None => Failure(JsonDecodeError)
  }

  /** Where the two clients differ: an error status with a JSON body is an `APIError` for the
      newer one and an ordinary result for the older one. */
  lemma ErrorStatusHandledDifferently(reply: Reply)
    requires !IsOk(reply.status) && reply.body.Some?
    ensures CheckReply(reply) == Failure(ApiError(reply.status))
    ensures LegacyCheckReply(reply) == Success(reply.body.value)
  {
  }

  /** Where the two clients agree: on an ok status both give the decoded body, or both fail
      to decode it. */
  lemma OkRepliesAgree(reply: Reply)
    requires IsOk(reply.status)
    ensures CheckReply(reply) == LegacyCheckReply(reply)
  {
  }

  /** The network: every request sent is logged, and the server's answer to a request is
      given in advance as a function. */
  class Transport {
    var sent: seq<Request>
    const answer: Request -> Reply

    constructor (answer: Request -> Reply)
      ensures sent == [] && this.answer == answer
    {
      sent := [];
      this.answer := answer;
    }

    method Send(request: Request) returns (reply: Reply)
      modifies this
      ensures sent == old(sent) + [request]
      ensures reply == answer(request)
    {
      sent := sent + [request];
      reply := answer(request);
    }
  }
}

/** The OAuth callback listener (`callback.py`): a one-shot HTTP server whose GET handler
    appends the `code` query parameter of the redirect to a shared list, and the function that
    runs it and returns the first code of the list. */
module Callback {
  import opened Wrappers
  import opened PyValues

  /** The parsed query string of a request path: each name with its non-blank values in order. */
  type ParsedQuery = map<string, seq<string>>

  /** The code a redirect carries: the first value of a non-empty `code` parameter. */
  function CodeOf(query: ParsedQuery): (r: Option<string>)
    ensures r.Some? <==> "code" in query && query["code"] != []
    ensures r.Some? ==> r.value == query["code"][0]
  {
    if "code" in query && query["code"] != [] then Some(query["code"][0]) else None
  }

  /** The list object the caller passes in and the handler appends to. */
  class CodeList {
    var items: seq<string>

    constructor (items: seq<string>)
      ensures this.items == items
    {
      this.items := items;
    }
  }

  /** The handler class; `code` is its class-level attribute, shared by every request. */
  class CallbackHandler {
    var code: CodeList?

    constructor ()
      ensures code == null
    {
      code := null;
    }

    /** `do_GET`: a request carrying a code appends it and answers 200; any other request
        answers 400 and changes nothing. Appending to the unset attribute raises. */
    method DoGet(query: ParsedQuery) returns (r: Result<int, Error>)
      modifies code
      ensures CodeOf(query).None? ==> r == Success(400) && (code != null ==> code.items == old(code.items))
      ensures CodeOf(query).Some? && code == null ==> r == Failure(AttributeError)
      ensures CodeOf(query).Some? && code != null ==>
        r == Success(200) && code.items == old(code.items) + [CodeOf(query).value]
    {
      var received := CodeOf(query);
      if received.None? {
        return Success(400);
      }
      if code == null {
        return Failure(AttributeError);
      }
      code.items := code.items + [received.value];
      return Success(200);
    }
  }

  /** What reaches the server before it stops: nothing within the timeout, a GET with its
      parsed query, or a request with another verb (answered 501 by the base handler). */
  datatype Incoming = TimedOut | Get(query: ParsedQuery) | OtherVerb

  /** The list after the one request is handled, and what `run_callback_server` returns: the
      list's first item, or `IndexError` when it is still empty. */
  function Listen(items: seq<string>, incoming: Incoming): (r: (seq<string>, Result<string, Error>))
    ensures incoming.Get? && CodeOf(incoming.query).Some? ==> r.0 == items + [CodeOf(incoming.query).value]
    ensures !(incoming.Get? && CodeOf(incoming.query).Some?) ==> r.0 == items
    ensures r.1.Success? <==> r.0 != []
    ensures r.1.Success? ==> r.1.value == r.0[0]
    ensures r.1.Failure? ==> r.1.error == IndexError
  {
    var after := if incoming.Get? && CodeOf(incoming.query).Some? then items + [CodeOf(incoming.query).value] else items;
    (after, if after == [] then Failure(IndexError) else Success(after[0]))
  }

  /** With a fresh empty list, the listener returns exactly the code of the redirect, and
      fails when none arrives. */
  lemma EmptyListGetsRedirectCode(incoming: Incoming)
    ensures incoming.Get? && CodeOf(incoming.query).Some? ==>
      Listen([], incoming).1 == Success(CodeOf(incoming.query).value)
    ensures !(incoming.Get? && CodeOf(incoming.query).Some?) ==>
      Listen([], incoming).1 == Failure(IndexError)
  {
  }

  /** An item already in the list is returned instead of the redirect's code. */
  lemma EarlierItemWins(first: string, rest: seq<string>, incoming: Incoming)
    ensures Listen([first] + rest, incoming).1 == Success(first)
  {
  }

  /** The redirect `?code=123` yields the code `123`. */
  lemma CodeExample()
    ensures Listen([], Get(map["code" := ["123"]])) == (["123"], Success("123"))
  {
    var query: ParsedQuery := map["code" := ["123"]];
    assert CodeOf(query) == Some("123");
    assert [] + ["123"] == ["123"];
  }

  /** `run_callback_server`: the handler's attribute is set to the caller's list, one request
      is handled, and the list's first item is returned. */
  method RunCallbackServer(handler: CallbackHandler, codeList: CodeList, incoming: Incoming)
    returns (r: Result<string, Error>)
    modifies handler, codeList
    ensures handler.code == codeList
    ensures (codeList.items, r) == Listen(old(codeList.items), incoming)
  {
    handler.code := codeList;
    if incoming.Get? {
      var status := handler.DoGet(incoming.query);
    }
    if codeList.items == [] {
      return Failure(IndexError);
    }
    return Success(codeList.items[0]);
  }
}

/** The client-side filter behind `query` (and, in the older client, `create`): keep, in order,
    the listed items whose fields equal every queried value, compared case-insensitively as
    text. */
module Query {
  import opened Wrappers
  import opened PyText
  import opened PyValues

  /** `str(item.get(key))`: a missing field reads as `None`. */
  function FieldText(item: map<string, Json>, key: string): (t: Option<string>)
    ensures key !in item ==> t == Some("None")
    ensures key in item ==> t == ScalarText(item[key])
  {
    if key in item then ScalarText(item[key]) else Some("None")
  }

  /** `str(item.get(key)).casefold() == str(value).casefold()`. */
  predicate PairMatches(item: map<string, Json>, key: string, value: Json) {
    var field, wanted := FieldText(item, key), ScalarText(value);
    field.Some? && wanted.Some? && Casefold(field.value) == Casefold(wanted.value)
  }

  /** `all(... for key, value in data.items())` on one item. */
  predicate Selected(item: Json, data: map<string, Json>) {
    data == map[] || (item.Object? && forall key :: key in data ==> PairMatches(item.fields, key, data[key]))
  }

  /** The list comprehension of `query`. With an empty query `all` has nothing to evaluate and
      keeps every item; otherwise an item that is not an object has no `.get` and raises. */
  function Filter(items: seq<Json>, data: map<string, Json>): (r: Result<seq<Json>, Error>)
    ensures r.Failure? <==> data != map[] && exists i :: 0 <= i < |items| && !items[i].Object?
    ensures r.Failure? ==> r.error == AttributeError
    ensures r.Success? ==> |r.value| <= |items|
  {
    if items == [] then Success([])
    else if data != map[] && !items[0].Object? then Failure(AttributeError)
    else match Filter(items[1..], data)
      case Failure(e) => Failure(e)
      case Success(rest) => Success(if Selected(items[0], data) then [items[0]] + rest else rest)
  }

  /** The result holds exactly the listed items that match every pair. */
  lemma {:induction false} FilterMembership(items: seq<Json>, data: map<string, Json>, x: Json)
    requires Filter(items, data).Success?
    ensures x in Filter(items, data).value <==> x in items && Selected(x, data)
  {
    if items != [] {
      FilterMembership(items[1..], data, x);
      assert items == [items[0]] + items[1..];
    }
  }

  /** Filtering preserves order: filtering a concatenation concatenates the filtered parts. */
  lemma {:induction false} FilterConcat(a: seq<Json>, b: seq<Json>, data: map<string, Json>)
    requires Filter(a + b, data).Success?
    ensures Filter(a, data).Success? && Filter(b, data).Success?
    ensures Filter(a + b, data).value == Filter(a, data).value + Filter(b, data).value
  {
    if a == [] {
      assert a + b == b;
    } else {
      assert (a + b)[0] == a[0] && (a + b)[1..] == a[1..] + b;
      FilterConcat(a[1..], b, data);
    }
  }

  /** An empty query returns the listed items unchanged. */
  lemma {:induction false} EmptyQueryKeepsAll(items: seq<Json>)
    ensures Filter(items, map[]) == Success(items)
  {
    if items != [] {
      EmptyQueryKeepsAll(items[1..]);
      assert [items[0]] + items[1..] == items;
    }
  }

  /** Text comparison ignores ASCII case: `"AB"` in a field matches a queried `"ab"`. */
  lemma CaseInsensitiveMatch(item: map<string, Json>, key: string)
    requires key in item && item[key] == Str("AB")
    ensures PairMatches(item, key, Str("ab"))
  {
    assert Casefold("AB") == "ab";
  }

  /** A field the item lacks reads as the text `None`, so it matches a queried `"none"`. */
  lemma MissingFieldMatchesNone(item: map<string, Json>, key: string)
    requires key !in item
    ensures PairMatches(item, key, Str("none"))
  {
    assert Casefold("None") == "none";
  }

  /** Values are compared as text: the integer 5 matches the queried text `"5"`. */
  lemma IntegerFieldMatchesText(item: map<string, Json>, key: string)
    requires key in item && item[key] == Int(5)
    ensures PairMatches(item, key, Str("5"))
  {
    assert IntToText(5) == "5";
  }

  /** Iterating the decoded body of a list request: the API answers with a JSON array. */
  function Items(body: Json): (r: Result<seq<Json>, Error>)
    ensures r.Success? <==> body.Array?
    ensures r.Success? ==> r.value == body.items
  {
    match body
    case Array(items) => Success(items)
    case _ => Failure(TypeError)
  }

  /** `query` given the checked reply of its list request: errors propagate, then the filter. */
  function QueryResult(listed: Result<Json, Error>, data: map<string, Json>): (r: Result<seq<Json>, Error>)
    ensures listed.Failure? ==> r == Failure(listed.error)
    ensures r.Success? ==> listed.Success? && listed.value.Array?
    ensures r.Success? ==> forall x :: x in r.value <==> x in listed.value.items && Selected(x, data)
    ensures listed.Success? ==> (r.Success? <==> listed.value.Array? && Filter(listed.value.items, data).Success?)
    ensures listed.Success? && !listed.value.Array? ==> r == Failure(TypeError)
    ensures listed.Success? && listed.value.Array? && r.Failure? ==> r == Failure(Filter(listed.value.items, data).error)
  {
    match listed
    case Failure(e) => Failure(e)
    case Success(body) =>
      match Items(body)
      case Failure(e) => Failure(e)
      case Success(items) =>
        var r := Filter(items, data);
        if r.Success? then
          assert forall x :: x in r.value <==> x in items && Selected(x, data) by {
            forall x ensures x in r.value <==> x in items && Selected(x, data) {
              FilterMembership(items, data, x);
            }
          }
          r
        else r
  }
}

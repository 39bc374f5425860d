/** What the Express handlers see and produce: JSON values, the request
    (headers, parsed query and body, and the `user` the authentication
    middleware attaches), the response (the replies sent on it, each a status
    and a JSON body) and the `next` continuation (how many times it was
    called). */
module Http {
  import opened Wrappers

  /** A JSON value. Object members keep their order, as `JSON.stringify`
      writes them. */
  datatype Json = JNull | JBool(b: bool) | JNum(n: real) | JStr(s: string) | JArr(items: seq<Json>) | JObj(fields: seq<(string, Json)>)

  /** JavaScript truthiness of a JSON value. */
  predicate Truthy(j: Json) {
    match j
    case JNull => false
    case JBool(b) => b
    case JNum(n) => n != 0.0
    case JStr(s) => s != ""
    case _ => true
  }

  /** The member `key` of an object (the first one, as the objects built here
      never repeat a key); nothing for a missing key or a non-object. */
  function Get(j: Json, key: string): Option<Json> {
    if j.JObj? then Lookup(j.fields, key) else None
  }

  function Lookup(fields: seq<(string, Json)>, key: string): Option<Json> {
    if fields == [] then None
    else if fields[0].0 == key then Some(fields[0].1)
    else Lookup(fields[1..], key)
  }

  /** What is found is a member with that key; nothing is found only when no
      member has the key. */
  lemma {:induction false} LookupMeaning(fields: seq<(string, Json)>, key: string)
    ensures Lookup(fields, key).Some? ==> exists k :: 0 <= k < |fields| && fields[k] == (key, Lookup(fields, key).value)
    ensures Lookup(fields, key).None? <==> forall k :: 0 <= k < |fields| ==> fields[k].0 != key
  {
    if fields != [] && fields[0].0 != key {
      LookupMeaning(fields[1..], key);
      assert forall k :: 1 <= k < |fields| ==> fields[k] == fields[1..][k - 1];
      if Lookup(fields, key).Some? {
        var k :| 0 <= k < |fields[1..]| && fields[1..][k] == (key, Lookup(fields, key).value);
        assert fields[k + 1] == (key, Lookup(fields, key).value);
      }
    }
  }

  /** The member at position `k` is found when no earlier member has its key. */
  lemma {:induction false} LookupAt(fields: seq<(string, Json)>, k: nat)
    requires k < |fields|
    requires forall j :: 0 <= j < k ==> fields[j].0 != fields[k].0
    ensures Lookup(fields, fields[k].0) == Some(fields[k].1)
  {
    if k > 0 {
      LookupAt(fields[1..], k - 1);
    }
  }

  /** A string-valued optional input is truthy: given and not empty. */
  predicate Given(o: Option<string>) {
    o.Some? && o.value != ""
  }

  /** `o || fallback` for an optional string. */
  function OrElse(o: Option<string>, fallback: string): (r: string)
    ensures Given(o) ==> r == o.value
    ensures !Given(o) ==> r == fallback
  {
    if Given(o) then o.value else fallback
  }

  /** An optional string as a JSON member: `JSON.stringify` drops a member
      whose value is `undefined`. */
  function Member(key: string, o: Option<Json>): seq<(string, Json)> {
    if o.Some? then [(key, o.value)] else []
  }

  function StrJson(o: Option<string>): Option<Json> {
    if o.Some? then Some(JStr(o.value)) else None
  }

  datatype Reply = Reply(status: int, body: Json)

  /** How a route handler ended: it replied, or it threw (the error then goes
      to the error handler). */
  datatype Handled = Replied(reply: Reply) | Threw(message: string)

  /** A query parameter that is a single string; absent otherwise. */
  function QueryString(query: map<string, Json>, key: string): (r: Option<string>)
    ensures r.Some? <==> key in query && query[key].JStr?
    ensures r.Some? ==> query[key] == JStr(r.value)
  {
    if key in query && query[key].JStr? then Some(query[key].s) else None
  }

  /** A query parameter is truthy. */
  predicate QueryTruthy(query: map<string, Json>, key: string) {
    key in query && Truthy(query[key])
  }

  /** A string member of an object body; absent otherwise. */
  function BodyString(body: Json, key: string): (r: Option<string>)
    ensures r.Some? <==> Get(body, key).Some? && Get(body, key).value.JStr?
    ensures r.Some? ==> Get(body, key) == Some(JStr(r.value))
  {
    match Get(body, key)
    case Some(JStr(s)) => Some(s)
    case _ => None
  }

  /** `req.user`, set by the authentication middleware. */
  datatype User = User(userId: string, customerId: Option<string>, refreshToken: Option<string>)

  class Request {
    /** Header names are lower-case, as Node delivers them. */
    var headers: map<string, string>
    var query: map<string, Json>
    /** `undefined` is `None`. */
    var body: Option<Json>
    var user: Option<User>

    constructor (headers: map<string, string>, query: map<string, Json>, body: Option<Json>)
      ensures this.headers == headers && this.query == query && this.body == body && user == None
    {
      this.headers := headers;
      this.query := query;
      this.body := body;
      user := None;
    }

    /** A header's value, if present. */
    function Header(name: string): (r: Option<string>)
      reads this
      ensures r.Some? <==> name in headers
      ensures r.Some? ==> r.value == headers[name]
    {
      if name in headers then Some(headers[name]) else None
    }
  }

  class Response {
    var replies: seq<Reply>

    constructor ()
      ensures replies == []
    {
      replies := [];
    }

    /** `res.status(status).json(body)`. */
    method Send(status: int, body: Json)
      modifies this
      ensures replies == old(replies) + [Reply(status, body)]
    {
      replies := replies + [Reply(status, body)];
    }
  }

  class Continuation {
    var calls: nat

    constructor ()
      ensures calls == 0
    {
      calls := 0;
    }

    /** `next()`. */
    method Next()
      modifies this
      ensures calls == old(calls) + 1
    {
      calls := calls + 1;
    }
  }

  /** An object `{ error, code }`, the shape of most error replies. */
  function ErrorBody(error: string, code: string): Json {
    JObj([("error", JStr(error)), ("code", JStr(code))])
  }
}

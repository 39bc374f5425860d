/** The request middlewares of the backend: `sanitizeInput`, which removes
    every `<` and `>` from the string values of the query and of an object
    body, in place, and `handleValidationErrors`, which answers 400 when the
    validator chain recorded errors. */
module Validation {
  import opened Wrappers
  import opened Text
  import opened Http

  const AngleBrackets: set<char> := {'<', '>'}

  /** `s.replace(/[<>]/g, '')`. */
  function Sanitize(s: string): (r: string)
    ensures '<' !in r && '>' !in r
  {
    assert forall c :: c in RemoveChars(s, AngleBrackets) ==> c !in AngleBrackets;
    RemoveChars(s, AngleBrackets)
  }

  /** A string value is sanitized; any other value is left alone. */
  function SanitizeValue(v: Json): Json {
    if v.JStr? then JStr(Sanitize(v.s)) else v
  }

  /** The query after the first loop. */
  function SanitizedQuery(q: map<string, Json>): map<string, Json> {
    map k | k in q :: SanitizeValue(q[k])
  }

  /** The body after the second loop: only a body that is an object (an array
      is one too, iterated by index) has its members visited. */
  function SanitizedBody(body: Option<Json>): Option<Json> {
    match body
    case Some(JObj(fields)) => Some(JObj(SanitizedFields(fields)))
    case Some(JArr(items)) => Some(JArr(SanitizedItems(items)))
    case _ => body
  }

  /** The members of an object body, each value sanitized, keys and order
      kept. */
  function SanitizedFields(fields: seq<(string, Json)>): seq<(string, Json)> {
    seq(|fields|, i requires 0 <= i < |fields| => (fields[i].0, SanitizeValue(fields[i].1)))
  }

  /** The elements of an array body, each sanitized, order kept. */
  function SanitizedItems(items: seq<Json>): seq<Json> {
    seq(|items|, i requires 0 <= i < |items| => SanitizeValue(items[i]))
  }

  predicate NoAngleBrackets(v: Json) {
    v.JStr? ==> '<' !in v.s && '>' !in v.s
  }

  /** `sanitizeInput(req, res, next)`. */
  method SanitizeInput(req: Request, next: Continuation)
    modifies req, next
    ensures req.query == SanitizedQuery(old(req.query))
    ensures req.body == SanitizedBody(old(req.body))
    ensures req.headers == old(req.headers) && req.user == old(req.user)
    ensures next.calls == old(next.calls) + 1
  {
    SanitizeQuery(req);
    match req.body {
      case Some(JObj(fields)) =>
        var current := SanitizeFields(fields);
        req.body := Some(JObj(current));
      case Some(JArr(items)) =>
        var current := SanitizeItems(items);
        req.body := Some(JArr(current));
      case _ =>
    }
    next.Next();
  }

  /** The first loop: every string value of the query, key by key, in place. */
  method SanitizeQuery(req: Request)
    modifies req
    ensures req.query == SanitizedQuery(old(req.query))
    ensures req.body == old(req.body) && req.headers == old(req.headers) && req.user == old(req.user)
  {
    var pending := req.query.Keys;
    while pending != {}
      invariant pending <= req.query.Keys && req.query.Keys == old(req.query).Keys
      invariant forall k :: k in req.query ==>
        req.query[k] == if k in pending then old(req.query)[k] else SanitizeValue(old(req.query)[k])
      invariant req.body == old(req.body) && req.headers == old(req.headers) && req.user == old(req.user)
      decreases pending
    {
      var key :| key in pending;
      if req.query[key].JStr? {
        req.query := req.query[key := JStr(Sanitize(req.query[key].s))];
      }
      pending := pending - {key};
    }
  }

  /** The loop over an object body's members. */
  method SanitizeFields(fields: seq<(string, Json)>) returns (current: seq<(string, Json)>)
    ensures current == SanitizedFields(fields)
  {
    var i := 0;
    current := fields;
    while i < |fields|
      invariant 0 <= i <= |fields| && |current| == |fields|
      invariant forall j :: 0 <= j < |fields| ==>
        current[j] == if j < i then (fields[j].0, SanitizeValue(fields[j].1)) else fields[j]
    {
      if current[i].1.JStr? {
        current := current[i := (current[i].0, JStr(Sanitize(current[i].1.s)))];
      }
      i := i + 1;
    }
  }

  /** The loop over an array body's elements. */
  method SanitizeItems(items: seq<Json>) returns (current: seq<Json>)
    ensures current == SanitizedItems(items)
  {
    var i := 0;
    current := items;
    while i < |items|
      invariant 0 <= i <= |items| && |current| == |items|
      invariant forall j :: 0 <= j < |items| ==> current[j] == if j < i then SanitizeValue(items[j]) else items[j]
    {
      if current[i].JStr? {
        current := current[i := JStr(Sanitize(current[i].s))];
      }
      i := i + 1;
    }
  }

  /** No string value of the query or of the body contains `<` or `>`
      afterwards. */
  lemma SanitizedHasNoAngleBrackets(q: map<string, Json>, body: Option<Json>)
    ensures forall k :: k in SanitizedQuery(q) ==> NoAngleBrackets(SanitizedQuery(q)[k])
    ensures SanitizedBody(body).Some? && SanitizedBody(body).value.JObj? ==>
      forall i :: 0 <= i < |SanitizedBody(body).value.fields| ==> NoAngleBrackets(SanitizedBody(body).value.fields[i].1)
    ensures SanitizedBody(body).Some? && SanitizedBody(body).value.JArr? ==>
      forall i :: 0 <= i < |SanitizedBody(body).value.items| ==> NoAngleBrackets(SanitizedBody(body).value.items[i])
  {
  }

  /** The keys and every non-string value are unchanged; a string keeps all
      its other characters, in order. */
  lemma SanitizeKeeps(q: map<string, Json>, a: string, b: string, c: char)
    ensures SanitizedQuery(q).Keys == q.Keys
    ensures forall k :: k in q && !q[k].JStr? ==> SanitizedQuery(q)[k] == q[k]
    ensures Sanitize(a + b) == Sanitize(a) + Sanitize(b)
    ensures Sanitize([c]) == if c == '<' || c == '>' then [] else [c]
  {
    RemoveCharsAppend(a, b, AngleBrackets);
    RemoveCharsSingle(c, AngleBrackets);
  }

  /** The body is touched only when it is an object or an array, and then
      member by member: keys, order and non-string members stay. */
  lemma SanitizedBodyShape(body: Option<Json>)
    ensures (body.None? || !(body.value.JObj? || body.value.JArr?)) ==> SanitizedBody(body) == body
    ensures body.Some? && body.value.JObj? ==>
      var f, g := body.value.fields, SanitizedBody(body).value.fields;
      |g| == |f| && forall i :: 0 <= i < |f| ==> g[i].0 == f[i].0 && (!f[i].1.JStr? ==> g[i].1 == f[i].1)
  {
  }

  /** Sanitizing twice is sanitizing once. */
  lemma SanitizeIdempotent(q: map<string, Json>, body: Option<Json>)
    ensures SanitizedQuery(SanitizedQuery(q)) == SanitizedQuery(q)
    ensures SanitizedBody(SanitizedBody(body)) == SanitizedBody(body)
  {
    forall s: string ensures Sanitize(Sanitize(s)) == Sanitize(s) {
      RemoveCharsIdempotent(s, AngleBrackets);
    }
    assert forall v :: SanitizeValue(SanitizeValue(v)) == SanitizeValue(v);
    match body {
      case Some(JObj(f)) =>
        var g := SanitizedBody(body).value.fields;
        assert SanitizedBody(SanitizedBody(body)).value.fields == g;
      case Some(JArr(f)) =>
        var g := SanitizedBody(body).value.items;
        assert SanitizedBody(SanitizedBody(body)).value.items == g;
      case _ =>
    }
  }

  // ---------------------------------------------------------------------------
  // handleValidationErrors

  /** One entry of `validationResult(req).array()`. */
  datatype ValidationIssue = ValidationIssue(path: Option<string>, param: Option<string>, msg: string, value: Option<Json>)

  datatype Step = Continue | Respond(reply: Reply)

  /** The detail reported for one issue: `field` is the path, or else the
      param. */
  function Detail(e: ValidationIssue): Json {
    JObj(Member("field", if Given(e.path) then Some(JStr(e.path.value)) else StrJson(e.param))
      + [("message", JStr(e.msg))] + Member("value", e.value))
  }

  /** What `handleValidationErrors` does with the errors recorded. */
  function ValidationOutcome(errors: seq<ValidationIssue>): (s: Step)
    ensures s.Continue? <==> errors == []
    ensures s.Respond? ==> s.reply.status == 400
  {
    if errors == [] then Continue
    else
      Respond(Reply(400, JObj([
        ("error", JStr("Dados de entrada inválidos")),
        ("code", JStr("VALIDATION_ERROR")),
        ("details", JArr(seq(|errors|, i requires 0 <= i < |errors| => Detail(errors[i]))))])))
  }

  /** One detail per error, in order, each naming the error's path, or else its
      param, as `field`. */
  lemma ValidationDetails(errors: seq<ValidationIssue>)
    requires errors != []
    ensures var body := ValidationOutcome(errors).reply.body;
      Get(body, "code") == Some(JStr("VALIDATION_ERROR")) &&
      Get(body, "details").Some? && Get(body, "details").value.JArr? &&
      var details := Get(body, "details").value.items;
      |details| == |errors| &&
      forall i :: 0 <= i < |errors| ==>
        Get(details[i], "message") == Some(JStr(errors[i].msg)) &&
        Get(details[i], "field") == (if Given(errors[i].path) then Some(JStr(errors[i].path.value)) else StrJson(errors[i].param))
  {
    var fields := ValidationOutcome(errors).reply.body.fields;
    LookupAt(fields, 1);
    LookupAt(fields, 2);
    forall i | 0 <= i < |errors|
      ensures var d := Detail(errors[i]);
        Get(d, "message") == Some(JStr(errors[i].msg)) &&
        Get(d, "field") == (if Given(errors[i].path) then Some(JStr(errors[i].path.value)) else StrJson(errors[i].param))
    {
      var d := Detail(errors[i]);
      var f := if Given(errors[i].path) then Some(JStr(errors[i].path.value)) else StrJson(errors[i].param);
      if f.Some? {
        LookupAt(d.fields, 0);
        LookupAt(d.fields, 1);
      } else {
        LookupAt(d.fields, 0);
        LookupMeaning(d.fields, "field");
      }
    }
  }

  /** `handleValidationErrors(req, res, next)` given the recorded errors. */
  method HandleValidationErrors(errors: seq<ValidationIssue>, res: Response, next: Continuation)
    modifies res, next
    ensures ValidationOutcome(errors).Continue? ==> next.calls == old(next.calls) + 1 && res.replies == old(res.replies)
    ensures ValidationOutcome(errors).Respond? ==>
      res.replies == old(res.replies) + [ValidationOutcome(errors).reply] && next.calls == old(next.calls)
  {
    var outcome := ValidationOutcome(errors);
    if outcome.Respond? {
      res.Send(outcome.reply.status, outcome.reply.body);
      return;
    }
    next.Next();
  }
}

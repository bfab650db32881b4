// The backend's church update handler (backend/src/handlers/churches/update.js):
// it turns the request body into a DynamoDB `UpdateExpression` with its
// `ExpressionAttributeValues`, keys the update by the path id, and shapes
// the response of the update or of the error it throws.

module ChurchUpdate {
  import opened Models

  /** A JSON value as parsed from the request body. */
  datatype Json =
    | JNull
    | JBool(b: bool)
    | JNumber(n: real)
    | JString(s: string)
    | JArray(items: seq<Json>)
    | JObject(members: seq<(string, Json)>)

  /** The parsed body: its members in `Object.keys` order. */
  type Body = seq<(string, Json)>

  /** An object's keys are distinct. */
  predicate DistinctKeys(body: Body) {
    forall i, j :: 0 <= i < j < |body| ==> body[i].0 != body[j].0
  }

  const Base: string := "SET updatedAt = :updatedAt"
  const TimestampName: string := ":updatedAt"

  /** The placeholder bound to a field's value. */
  function Placeholder(key: string): (p: string)
    ensures |p| == |key| + 1 && p[0] == ':' && p[1..] == key
  {
    ":" + key
  }

  /** Distinct keys get distinct placeholders. */
  lemma PlaceholderInjective(a: string, b: string)
    ensures Placeholder(a) == Placeholder(b) <==> a == b
  {
    assert Placeholder(a)[1..] == a && Placeholder(b)[1..] == b;
  }

  /** What one body member appends to the expression: the template
      `, ${key} = :${key}`, or nothing for `id`. */
  function Clause(key: string): string {
    if key != "id" then ", " + key + " = :" + key else ""
  }

  /** The clause of a non-id field assigns the field its placeholder. */
  lemma ClauseAssignsPlaceholder(key: string)
    requires key != "id"
    ensures Clause(key) == ", " + key + " = " + Placeholder(key)
  {
    assert " = :" + key == " = " + Placeholder(key);
    assert (", " + key + " = ") + Placeholder(key) == (", " + key) + (" = " + Placeholder(key));
  }

  /** The clauses of all members, in order. */
  function Clauses(body: Body): string {
    if body == [] then "" else Clauses(body[..|body| - 1]) + Clause(body[|body| - 1].0)
  }

  /** The bindings: the timestamp, then each non-id member in order. */
  function Bindings(body: Body, timestamp: int): map<string, Json> {
    if body == [] then map[TimestampName := JNumber(timestamp as real)]
    else
      var (key, value) := body[|body| - 1];
      var b := Bindings(body[..|body| - 1], timestamp);
      if key != "id" then b[Placeholder(key) := value] else b
  }

  lemma ClausesStep(body: Body, i: nat)
    requires i < |body|
    ensures Clauses(body[..i + 1]) == Clauses(body[..i]) + Clause(body[i].0)
  {
    assert body[..i + 1][..i] == body[..i];
  }

  /** One loop step over a member other than `id` binds its placeholder. */
  lemma BindingStep(body: Body, i: nat, timestamp: int, values: map<string, Json>)
    requires i < |body| && body[i].0 != "id"
    requires values == Bindings(body[..i], timestamp)
    ensures values[":" + body[i].0 := body[i].1] == Bindings(body[..i + 1], timestamp)
  {
    assert body[..i + 1][..i] == body[..i];
  }

  /** Appending to an expression that is a prefix followed by clauses
      appends to the clauses. */
  lemma Extend(base: string, clauses: string, clause: string, expr: string)
    requires expr == base + clauses
    ensures expr + clause == base + (clauses + clause)
  {
    assert (base + clauses) + clause == base + (clauses + clause);
  }

  /** A loop step over the `id` member changes nothing. */
  lemma IdStep(body: Body, i: nat, timestamp: int)
    requires i < |body| && body[i].0 == "id"
    ensures Clauses(body[..i + 1]) == Clauses(body[..i])
    ensures Bindings(body[..i + 1], timestamp) == Bindings(body[..i], timestamp)
  {
    assert body[..i + 1][..i] == body[..i];
  }

  /** The `forEach` loop of the handler: the expression and value map built
      member by member. */
  method BuildUpdate(body: Body, timestamp: int) returns (updateExpression: string, values: map<string, Json>)
    ensures updateExpression == Base + Clauses(body)
    ensures values == Bindings(body, timestamp)
  {
    updateExpression := "SET updatedAt = :updatedAt";
    values := map[":updatedAt" := JNumber(timestamp as real)];
    for i := 0 to |body|
      invariant updateExpression == Base + Clauses(body[..i])
      invariant values == Bindings(body[..i], timestamp)
    {
      var (key, value) := body[i];
      if key != "id" {
        ClausesStep(body, i);
        BindingStep(body, i, timestamp, values);
        Extend(Base, Clauses(body[..i]), Clause(key), updateExpression);
        updateExpression := updateExpression + (", " + key + " = :" + key);
        values := values[":" + key := value];
      } else {
        IdStep(body, i, timestamp);
      }
    }
    assert body[..|body|] == body;
  }

  /** The body without its `id` member. */
  function WithoutId(body: Body): (r: Body)
    ensures |r| <= |body|
    ensures forall m :: m in r <==> m in body && m.0 != "id"
  {
    if body == [] then []
    else
      var rest := WithoutId(body[..|body| - 1]);
      assert forall m :: m in body <==> m in body[..|body| - 1] || m == body[|body| - 1];
      if body[|body| - 1].0 != "id" then rest + [body[|body| - 1]] else rest
  }

  /** An `id` member has no effect: the expression and the bindings are those
      of the body without it. */
  lemma {:induction false} IdIgnored(body: Body, timestamp: int)
    ensures Clauses(body) == Clauses(WithoutId(body))
    ensures Bindings(body, timestamp) == Bindings(WithoutId(body), timestamp)
  {
    if body != [] {
      var prefix := body[..|body| - 1];
      IdIgnored(prefix, timestamp);
      var w := WithoutId(body);
      if body[|body| - 1].0 != "id" {
        assert w[..|w| - 1] == WithoutId(prefix);
        assert w[|w| - 1] == body[|body| - 1];
      } else {
        assert w == WithoutId(prefix);
      }
    }
  }

  /** Every binding name is the timestamp's or a member's placeholder. */
  lemma {:induction false} BindingNames(body: Body, timestamp: int, name: string)
    ensures name in Bindings(body, timestamp) <==>
      name == TimestampName || exists m :: m in body && m.0 != "id" && name == Placeholder(m.0)
  {
    if body != [] {
      var prefix := body[..|body| - 1];
      BindingNames(prefix, timestamp, name);
      assert forall m :: m in body <==> m in prefix || m == body[|body| - 1];
    }
  }

  /** `:id` is never bound. */
  lemma IdNeverBound(body: Body, timestamp: int)
    ensures Placeholder("id") !in Bindings(body, timestamp)
  {
    BindingNames(body, timestamp, Placeholder("id"));
    forall m | m in body && m.0 != "id" ensures Placeholder("id") != Placeholder(m.0) {
      PlaceholderInjective("id", m.0);
    }
  }

  /** Each non-id member's value is bound to its placeholder; an `updatedAt`
      member therefore replaces the timestamp. */
  lemma {:induction false} MemberBound(body: Body, timestamp: int, j: nat)
    requires DistinctKeys(body)
    requires j < |body| && body[j].0 != "id"
    ensures Placeholder(body[j].0) in Bindings(body, timestamp)
    ensures Bindings(body, timestamp)[Placeholder(body[j].0)] == body[j].1
  {
    var prefix := body[..|body| - 1];
    var last := body[|body| - 1];
    if j < |body| - 1 {
      assert prefix[j] == body[j];
      MemberBound(prefix, timestamp, j);
      PlaceholderInjective(last.0, body[j].0);
    }
  }

  /** Without an `updatedAt` member the timestamp stays bound. */
  lemma {:induction false} TimestampKept(body: Body, timestamp: int)
    requires forall m :: m in body ==> m.0 != "updatedAt"
    ensures TimestampName in Bindings(body, timestamp)
    ensures Bindings(body, timestamp)[TimestampName] == JNumber(timestamp as real)
  {
    if body != [] {
      var prefix := body[..|body| - 1];
      assert forall m :: m in prefix ==> m in body;
      TimestampKept(prefix, timestamp);
      var last := body[|body| - 1];
      assert last in body;
      PlaceholderInjective(last.0, "updatedAt");
    }
  }

  /** A body member named `updatedAt` repeats the timestamp's clause and
      replaces the timestamp's value with its own. */
  lemma UpdatedAtOverridden(body: Body, timestamp: int, j: nat)
    requires DistinctKeys(body)
    requires j < |body| && body[j].0 == "updatedAt"
    ensures Clause(body[j].0) == ", updatedAt = :updatedAt"
    ensures TimestampName in Bindings(body, timestamp)
    ensures Bindings(body, timestamp)[TimestampName] == body[j].1
  {
    MemberBound(body, timestamp, j);
    assert Placeholder(body[j].0) == TimestampName;
  }

  /** The number of members other than `id`. */
  function NonIdCount(body: Body): nat {
    if body == [] then 0
    else NonIdCount(body[..|body| - 1]) + (if body[|body| - 1].0 != "id" then 1 else 0)
  }

  /** Without an `updatedAt` member there is one binding per non-id member
      plus the timestamp. */
  lemma {:induction false} BindingCount(body: Body, timestamp: int)
    requires DistinctKeys(body)
    requires forall m :: m in body ==> m.0 != "updatedAt"
    ensures |Bindings(body, timestamp)| == 1 + NonIdCount(body)
  {
    if body != [] {
      var prefix := body[..|body| - 1];
      var last := body[|body| - 1];
      assert forall m :: m in prefix ==> m in body;
      assert DistinctKeys(prefix);
      BindingCount(prefix, timestamp);
      if last.0 != "id" {
        var name := Placeholder(last.0);
        BindingNames(prefix, timestamp, name);
        assert last in body;
        PlaceholderInjective(last.0, "updatedAt");
        forall m | m in prefix && m.0 != "id" ensures name != Placeholder(m.0) {
          var i :| 0 <= i < |prefix| && prefix[i] == m;
          assert body[i] == m;
          PlaceholderInjective(last.0, m.0);
        }
        assert name !in Bindings(prefix, timestamp);
      }
    }
  }

  /** The update request sent to DynamoDB. */
  datatype UpdateParams = UpdateParams(key: string, updateExpression: string, values: map<string, Json>)

  /** What the update call did: returned the new attributes, or threw an
      error with an optional status code and message. */
  datatype DbOutcome =
    | Updated(attributes: Json)
    | DbError(statusCode: Option<int>, message: Option<string>)

  /** The part of the request the handler reads: the path id (a failure
      carries the message of the error destructuring a missing
      `pathParameters` throws) and the body as `JSON.parse` and `Object.keys`
      left it (a failure carries the thrown error's message). */
  datatype Request = Request(pathId: Fetched<string>, body: Fetched<Body>)

  datatype Response = Response(statusCode: int, body: Json)

  const DefaultErrorMessage: string := "Could not update church."

  /** The error response: `error.statusCode || 500` and
      `error.message || 'Could not update church.'`. */
  function ErrorResponse(statusCode: Option<int>, message: Option<string>): (r: Response)
    ensures r.statusCode != 0
    ensures statusCode.Some? && statusCode.value != 0 ==> r.statusCode == statusCode.value
    ensures statusCode == None || statusCode == Some(0) ==> r.statusCode == 500
    ensures r.body.JObject? && |r.body.members| == 1 && r.body.members[0].0 == "error"
    ensures r.body.members[0].1.JString? && r.body.members[0].1.s != ""
    ensures message.Some? && message.value != "" ==> r.body.members[0].1.s == message.value
    ensures message == None || message == Some("") ==> r.body.members[0].1.s == DefaultErrorMessage
  {
    Response(if statusCode.Some? && statusCode.value != 0 then statusCode.value else 500,
             JObject([("error", JString(if message.Some? && message.value != "" then message.value else DefaultErrorMessage))]))
  }

  /** The parameters built for a request body. */
  function Params(id: string, body: Body, timestamp: int): UpdateParams {
    UpdateParams(id, Base + Clauses(body), Bindings(body, timestamp))
  }

  /** The handler's response; `db` is what the update call does with the
      parameters it is given. */
  function Handle(req: Request, timestamp: int, db: UpdateParams -> DbOutcome): Response {
    if req.pathId.Failed? then ErrorResponse(None, Some(req.pathId.description))
    else if req.body.Failed? then ErrorResponse(None, Some(req.body.description))
    else
      match db(Params(req.pathId.value, req.body.value, timestamp))
      case Updated(attributes) => Response(200, attributes)
      case DbError(code, message) => ErrorResponse(code, message)
  }

  /** The record updated is the one named by the path; an `id` in the body
      changes neither the key nor the update. */
  lemma KeyIsPathId(id: string, body: Body, timestamp: int)
    ensures Params(id, body, timestamp).key == id
    ensures Params(id, body, timestamp) == Params(id, WithoutId(body), timestamp)
  {
    IdIgnored(body, timestamp);
  }

  lemma SuccessReturnsAttributes(id: string, body: Body, timestamp: int, db: UpdateParams -> DbOutcome)
    requires db(Params(id, body, timestamp)).Updated?
    ensures Handle(Request(Ok(id), Ok(body)), timestamp, db)
         == Response(200, db(Params(id, body, timestamp)).attributes)
  {
  }

  /** A thrown update error keeps its status code unless it has none (or 0),
      and its message unless it has none (or an empty one). */
  lemma ErrorShaping(id: string, body: Body, timestamp: int, db: UpdateParams -> DbOutcome)
    requires db(Params(id, body, timestamp)).DbError?
    ensures var e := db(Params(id, body, timestamp));
            var r := Handle(Request(Ok(id), Ok(body)), timestamp, db);
            (e.statusCode == None || e.statusCode == Some(0) ==> r.statusCode == 500) &&
            (e.statusCode.Some? && e.statusCode.value != 0 ==> r.statusCode == e.statusCode.value) &&
            (e.message == None || e.message == Some("") ==> r.body == JObject([("error", JString(DefaultErrorMessage))])) &&
            (e.message.Some? && e.message.value != "" ==> r.body == JObject([("error", JString(e.message.value))]))
  {
  }

  /** A missing path or an unparsable body fails before the update is
      attempted: the response does not depend on the database, and is a 500
      carrying the thrown error's message. */
  lemma EarlyFailureSkipsUpdate(req: Request, timestamp: int, db1: UpdateParams -> DbOutcome, db2: UpdateParams -> DbOutcome)
    requires req.pathId.Failed? || req.body.Failed?
    ensures Handle(req, timestamp, db1) == Handle(req, timestamp, db2)
    ensures Handle(req, timestamp, db1).statusCode == 500
    ensures req.pathId.Failed? && req.pathId.description != "" ==>
      Handle(req, timestamp, db1).body == JObject([("error", JString(req.pathId.description))])
    ensures req.pathId.Ok? && req.body.Failed? && req.body.description != "" ==>
      Handle(req, timestamp, db1) == Response(500, JObject([("error", JString(req.body.description))]))
  {
  }

  /** `handler`. */
  method Handler(req: Request, timestamp: int, db: UpdateParams -> DbOutcome) returns (response: Response)
    ensures response == Handle(req, timestamp, db)
  {
    if req.pathId.Failed? {
      return ErrorResponse(None, Some(req.pathId.description));
    }
    if req.body.Failed? {
      return ErrorResponse(None, Some(req.body.description));
    }
    var updateExpression, values := BuildUpdate(req.body.value, timestamp);
    var params := UpdateParams(req.pathId.value, updateExpression, values);
    var result := db(params);
    match result {
      case Updated(attributes) =>
        response := Response(200, attributes);
      case DbError(code, message) =>
        response := ErrorResponse(code, message);
    }
  }
}

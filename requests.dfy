/** The request check of `render_POST` on the transactions resource: which
    requests go on to create a transaction, which are answered 400, and which
    end in an exception (answered 500 by the web framework). */
module Requests {

  import opened Options

  /** A decoded JSON document. */
  datatype JsonValue =
    | JNull
    | JBool(b: bool)
    | JNumber(n: real)
    | JString(s: string)
    | JArray(items: seq<JsonValue>)
    | JObject(members: map<string, JsonValue>)

  /** Python truthiness of a decoded value: null, false, zero and empty
      strings, lists and objects are false. */
  predicate Truthy(v: JsonValue) {
    match v
    case JNull => false
    case JBool(b) => b
    case JNumber(n) => n != 0.0
    case JString(s) => s != ""
    case JArray(items) => items != []
    case JObject(members) => members != map[]
  }

  /** An incoming request: its method, its Content-Type header and its body,
      which is None when it is not valid JSON. */
  datatype HttpRequest = HttpRequest(verb: string, contentType: Option<string>, body: Option<JsonValue>)

  /** The outcome of `_parse_json`. */
  datatype Parsed = NotJson | Undecodable | Decoded(value: JsonValue)

  /** `_parse_json`: only a POST with Content-Type application/json is read;
      a body that does not decode raises. */
  function ParseJson(req: HttpRequest): Parsed {
    if req.verb == "POST" && req.contentType == Some("application/json") then
      if req.body.Some? then Decoded(req.body.value) else Undecodable
    else NotJson
  }

  /** `data.get(key, None)`: a missing key reads as null. */
  function Field(members: map<string, JsonValue>, key: string): JsonValue {
    if key in members then members[key] else JNull
  }

  /** The required fields: account, message, tag pool, tag and direction must
      be truthy and `session_created` must be present and not null. */
  predicate HasRequiredFields(members: map<string, JsonValue>) {
    && Truthy(Field(members, "account_number"))
    && Truthy(Field(members, "message_id"))
    && Truthy(Field(members, "tag_pool_name"))
    && Truthy(Field(members, "tag_name"))
    && Truthy(Field(members, "message_direction"))
    && !Field(members, "session_created").JNull?
  }

  /** The arguments handed to `create_transaction`. */
  datatype TransactionRequest = TransactionRequest(
    accountNumber: JsonValue,
    messageId: JsonValue,
    tagPoolName: JsonValue,
    tagName: JsonValue,
    provider: JsonValue,
    messageDirection: JsonValue,
    sessionCreated: JsonValue,
    transactionType: JsonValue)

  /** What `render_POST` does with a request. */
  datatype Response =
    | BadRequest
    | ServerError
    | CreateTransaction(request: TransactionRequest)

  /** `render_POST`: a transaction is attempted exactly for a JSON POST whose
      body is an object carrying the required fields, with every field passed
      through as sent; any other JSON POST with a truthy body that is not an
      object, and any undecodable body, raises; everything else is a 400. */
  function RenderPost(req: HttpRequest): (r: Response)
    ensures r.CreateTransaction? <==>
      ParseJson(req).Decoded? && req.body.value.JObject? && HasRequiredFields(req.body.value.members)
    ensures r.CreateTransaction? ==>
      var m := req.body.value.members;
      r.request == TransactionRequest(
        Field(m, "account_number"), Field(m, "message_id"), Field(m, "tag_pool_name"),
        Field(m, "tag_name"), Field(m, "provider"), Field(m, "message_direction"),
        Field(m, "session_created"), Field(m, "transaction_type"))
    ensures r.ServerError? <==>
      ParseJson(req).Undecodable? || (ParseJson(req).Decoded? && Truthy(req.body.value) && !req.body.value.JObject?)
    ensures req.verb != "POST" || req.contentType != Some("application/json") ==> r == BadRequest
  {
    match ParseJson(req)
    case NotJson => BadRequest
    case Undecodable => ServerError
    case Decoded(data) =>
      if !Truthy(data) then BadRequest
      else if !data.JObject? then ServerError
      else if HasRequiredFields(data.members) then
        var m := data.members;
        CreateTransaction(TransactionRequest(
          Field(m, "account_number"), Field(m, "message_id"), Field(m, "tag_pool_name"),
          Field(m, "tag_name"), Field(m, "provider"), Field(m, "message_direction"),
          Field(m, "session_created"), Field(m, "transaction_type")))
      else BadRequest
  }

  /** `provider` and `transaction_type` are optional: whatever they hold, or
      whether they are sent at all, does not change the decision to attempt
      a transaction. */
  lemma OptionalFieldsIrrelevant(req: HttpRequest, key: string, v: JsonValue)
    requires key == "provider" || key == "transaction_type"
    requires ParseJson(req).Decoded? && req.body.value.JObject?
    ensures
      var m := req.body.value.members;
      && RenderPost(req.(body := Some(JObject(m[key := v])))).CreateTransaction? == RenderPost(req).CreateTransaction?
      && RenderPost(req.(body := Some(JObject(m - {key})))).CreateTransaction? == RenderPost(req).CreateTransaction?
  {
    var m := req.body.value.members;
    forall k | k != key ensures Field(m[key := v], k) == Field(m, k) && Field(m - {key}, k) == Field(m, k) {
    }
  }

}

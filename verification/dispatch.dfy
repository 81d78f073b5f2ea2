/** Key tiers, request building and response normalisation (instance.private.go).
    The transport is the `Service` oracle: it maps a built request to what came back. */
module Dispatch {
  import opened Wrappers
  import opened JsonValue
  import opened Errors
  import opened Types

  datatype Keys = Keys(public: string, private: string)
  datatype Config = Config(host: string, keys: Keys)
  datatype Urls = Urls(v1: string, public: string)

  /** What the request-building methods of an Instance read: its config and its urls. */
  datatype Settings = Settings(config: Config, urls: Urls)

  datatype Header = Header(name: string, value: string)

  /** An outbound request; the body is the JSON value the client serialises, if any. */
  datatype Request = Request(verb: string, url: string, body: Option<Json>, headers: seq<Header>)
  {
    /** `req.Header.Add`: one more header, after those already set. */
    function Add(name: string, value: string): Request
    {
      this.(headers := headers + [Header(name, value)])
    }
  }

  /** What the JSON decoder made of a response body: a value, or the decoder's message. */
  datatype Decoded = Parsed(value: Json) | Malformed(message: string)

  /** What the transport returned: its own failure, or a status with the body both as decoded
      JSON and as raw text (reading the raw text can fail on its own). */
  datatype Response =
    | TransportFailed(message: string)
    | Received(status: int, body: Decoded, text: Result<string, string>)

  type Service = Request -> Response

  const PublicTier := "public"
  const PrivateTier := "private"
  const ContentType := Header("Content-Type", "application/json")
  const PublicKeyHeader := "jsb-pub-key"
  const PrivateKeyHeader := "jsb-prv-key"

  // ---------- key tiers ----------

  /** `hasKey`: a tier is usable iff its key is non-empty; an unknown tier never is. */
  function HasKey(keys: Keys, tier: string): (usable: bool)
    ensures tier == PublicTier ==> (usable <==> keys.public != "")
    ensures tier == PrivateTier ==> (usable <==> keys.private != "")
    ensures tier != PublicTier && tier != PrivateTier ==> !usable
  {
    if tier == PublicTier then |keys.public| > 0
    else if tier == PrivateTier then |keys.private| > 0
    else false
  }

  // ---------- request building ----------

  /** `http.NewRequest`: a request with no headers yet. */
  function NewRequest(verb: string, url: string, body: Option<Json>): Request
  {
    Request(verb, url, body, [])
  }

  /** `makeRequest`: needs the public key; sets the JSON content type (with or without a body)
      and the public-key header. */
  function MakeRequest(keys: Keys, verb: string, url: string, body: Option<Json>): (r: Result<Request, RequestError>)
    ensures r.Failure? <==> keys.public == ""
    ensures r.Failure? ==> r.error == PublicKeyMissing
    ensures r.Success? ==> r.value == Request(verb, url, body, [ContentType, Header(PublicKeyHeader, keys.public)])
  {
    if !HasKey(keys, PublicTier) then Failure(PublicKeyMissing)
    else
      var req := NewRequest(verb, url, body);
      var req := req.Add("Content-Type", "application/json");
      var req := req.Add("jsb-pub-key", keys.public);
      Success(req)
  }

  /** `makePublicRequest`: never fails and attaches no key, only the content type. */
  function MakePublicRequest(verb: string, url: string, body: Option<Json>): (r: Result<Request, RequestError>)
    ensures r.Success?
    ensures r.value == Request(verb, url, body, [ContentType])
  {
    var req := NewRequest(verb, url, body);
    var req := req.Add("Content-Type", "application/json");
    Success(req)
  }

  /** `makePrivateRequest`: the public key is checked first, then the private key; on success
      the request carries both key headers. */
  function MakePrivateRequest(keys: Keys, verb: string, url: string, body: Option<Json>): (r: Result<Request, RequestError>)
    ensures keys.public == "" ==> r == Failure(PublicKeyMissing)
    ensures keys.public != "" && keys.private == "" ==> r == Failure(PrivateKeyMissing)
    ensures r.Success? <==> keys.public != "" && keys.private != ""
    ensures r.Success? ==>
              r.value == Request(verb, url, body,
                                 [ContentType, Header(PublicKeyHeader, keys.public), Header(PrivateKeyHeader, keys.private)])
  {
    match MakeRequest(keys, verb, url, body)
    case Failure(e) => Failure(e)
    case Success(req) =>
      if !HasKey(keys, PrivateTier) then Failure(PrivateKeyMissing)
      else Success(req.Add("jsb-prv-key", keys.private))
  }

  /** A public request carries no key of either tier. */
  lemma PublicRequestCarriesNoKey(verb: string, url: string, body: Option<Json>, h: Header)
    requires h in MakePublicRequest(verb, url, body).value.headers
    ensures h.name != PublicKeyHeader && h.name != PrivateKeyHeader
  {
  }

  /** A private request is the keyed request plus the private-key header. */
  lemma PrivateExtendsKeyed(keys: Keys, verb: string, url: string, body: Option<Json>)
    requires MakePrivateRequest(keys, verb, url, body).Success?
    ensures MakeRequest(keys, verb, url, body).Success?
    ensures MakePrivateRequest(keys, verb, url, body).value ==
            MakeRequest(keys, verb, url, body).value.Add(PrivateKeyHeader, keys.private)
  {
  }

  // ---------- response normalisation ----------

  /** Decoding into a Go `map[string]any`: an object gives its map, `null` leaves the map nil
      (read like an empty one), any other value is an UnmarshalTypeError. */
  function DecodeObject(d: Decoded): (r: Result<map<string, Json>, string>)
    ensures d.Parsed? && d.value.Obj? ==> r == Success(d.value.fields)
    ensures d.Malformed? ==> r == Failure(d.message)
    ensures d == Parsed(Null) ==> r == Success(map[])
    ensures r.Success? ==> d.Parsed? && (d.value.Obj? || d.value.Null?)
  {
    match d
    case Malformed(msg) => Failure(msg)
    case Parsed(Obj(m)) => Success(m)
    case Parsed(Null) => Success(map[])
    case Parsed(j) =>
      Failure("json: cannot unmarshal " + KindName(j) + " into Go value of type map[string]interface {}")
  }

  /** A structured `error` field must hold string `code` and `message` (the source asserts both). */
  predicate EnvelopeFits(data: map<string, Json>)
  {
    Field(data, "error").Obj? ==> HasStr(Field(data, "error").fields, "code") && HasStr(Field(data, "error").fields, "message")
  }

  /** The response does not make the error classification panic. */
  predicate WellFormed(res: Response)
  {
    res.Received? && res.status != 200 && DecodeObject(res.body).Success? ==> EnvelopeFits(DecodeObject(res.body).value)
  }

  /** The error a non-200 response stands for: a string `error` becomes its message, a
      structured one is taken verbatim, anything else is the generic failure. */
  function Classify(data: map<string, Json>): (e: RequestError)
    requires EnvelopeFits(data)
    ensures Field(data, "error").Str? ==> e == RequestError(RequestErrorCode, data["error"].s)
    ensures Field(data, "error").Obj? ==>
              Str(e.code) == data["error"].fields["code"] && Str(e.message) == data["error"].fields["message"]
    ensures !Field(data, "error").Str? && !Field(data, "error").Obj? ==> e == NotSuccessful
  {
    var err := Field(data, "error");
    if err != Null then
      match err
      case Str(s) => RequestError(RequestErrorCode, s)
      case Obj(m) => RequestError(Field(m, "code").s, Field(m, "message").s)
      case _ => NotSuccessful
    else NotSuccessful
  }

  /** `sendRequest`: transport failure first, then decoding (whatever the status), then the
      status; only status 200 gives the decoded object back. */
  function SendRequest(svc: Service, req: Request): (r: Result<map<string, Json>, RequestError>)
    requires WellFormed(svc(req))
    ensures svc(req).TransportFailed? ==> r == Failure(RequestError(RequestErrorCode, svc(req).message))
    ensures svc(req).Received? && DecodeObject(svc(req).body).Failure? ==>
              r == Failure(RequestError(JsonErrorCode, DecodeObject(svc(req).body).error))
    ensures svc(req).Received? && svc(req).status != 200 && DecodeObject(svc(req).body).Success? ==>
              r == Failure(Classify(DecodeObject(svc(req).body).value))
    ensures r.Success? <==> svc(req).Received? && svc(req).status == 200 && DecodeObject(svc(req).body).Success?
    ensures r.Success? ==> DecodeObject(svc(req).body) == Success(r.value)
  {
    match svc(req)
    case TransportFailed(msg) => Failure(RequestError(RequestErrorCode, msg))
    case Received(status, body, _) =>
      match DecodeObject(body)
      case Failure(msg) => Failure(RequestError(JsonErrorCode, msg))
      case Success(data) =>
        if status != 200 then Failure(Classify(data)) else Success(data)
  }

  /** `sendRequestAsText`: on status 200 the raw text is returned unparsed; JSON is decoded only
      to classify a failure. */
  function SendRequestAsText(svc: Service, req: Request): (r: Result<string, RequestError>)
    requires WellFormed(svc(req))
    ensures svc(req).TransportFailed? ==> r == Failure(RequestError(RequestErrorCode, svc(req).message))
    ensures svc(req).Received? && svc(req).status == 200 ==>
              r == (match svc(req).text
                    case Success(t) => Success(t)
                    case Failure(msg) => Failure(RequestError(RequestErrorCode, msg)))
    ensures svc(req).Received? && svc(req).status != 200 ==>
              r == (match DecodeObject(svc(req).body)
                    case Failure(msg) => Failure(RequestError(JsonErrorCode, msg))
                    case Success(data) => Failure(Classify(data)))
    ensures r.Success? ==> svc(req).Received? && svc(req).status == 200
  {
    match svc(req)
    case TransportFailed(msg) => Failure(RequestError(RequestErrorCode, msg))
    case Received(status, body, text) =>
      if status != 200 then
        match DecodeObject(body)
        case Failure(msg) => Failure(RequestError(JsonErrorCode, msg))
        case Success(data) => Failure(Classify(data))
      else
        match text
        case Failure(msg) => Failure(RequestError(RequestErrorCode, msg))
        case Success(t) => Success(t)
  }

  /** The two modes share one failure path: whenever the status is not 200 (or the transport
      failed) both report the same error. */
  lemma ModesAgreeOnFailure(svc: Service, req: Request)
    requires WellFormed(svc(req))
    requires svc(req).TransportFailed? || svc(req).status != 200
    ensures SendRequest(svc, req).Failure? && SendRequestAsText(svc, req).Failure?
    ensures SendRequest(svc, req).error == SendRequestAsText(svc, req).error
  {
  }

  /** On status 200 the text mode does not look at the JSON: an undecodable body still gives
      its raw text, where the structured mode reports a json_error. */
  lemma TextModeSkipsDecoding(svc: Service, req: Request, t: string, msg: string)
    requires svc(req) == Received(200, Malformed(msg), Success(t))
    ensures SendRequestAsText(svc, req) == Success(t)
    ensures SendRequest(svc, req) == Failure(RequestError(JsonErrorCode, msg))
  {
  }

  /** An error code other than request_error and json_error can only come verbatim from a
      structured `error` field of a decodable non-200 response. */
  lemma ServiceCodesComeFromEnvelope(svc: Service, req: Request)
    requires WellFormed(svc(req))
    requires SendRequest(svc, req).Failure?
    requires SendRequest(svc, req).error.code != RequestErrorCode && SendRequest(svc, req).error.code != JsonErrorCode
    ensures svc(req).Received? && svc(req).status != 200
    ensures DecodeObject(svc(req).body).Success?
    ensures Field(DecodeObject(svc(req).body).value, "error").Obj?
    ensures Field(Field(DecodeObject(svc(req).body).value, "error").fields, "code") == Str(SendRequest(svc, req).error.code)
  {
  }

  /** The two error envelopes of the service, classified. */
  lemma ClassifyExamples(oops: string, code: string, message: string)
    ensures Classify(map["error" := Str(oops)]) == RequestError(RequestErrorCode, oops)
    ensures Classify(map["error" := Obj(map["code" := Str(code), "message" := Str(message)])]) == RequestError(code, message)
    ensures Classify(map["error" := Null]) == NotSuccessful
    ensures Classify(map[]) == NotSuccessful
  {
  }

  // ---------- what a response must look like for an operation ----------

  /** The service answers `req` without making the client panic: the error envelope is
      well formed and a successful object has the fields the operation reads. */
  predicate Conforms(svc: Service, req: Request, shape: Shape)
  {
    WellFormed(svc(req)) && (SendRequest(svc, req).Success? ==> Fits(SendRequest(svc, req).value, shape))
  }

  /** The same, for a request that may not have been built. */
  predicate Answers(svc: Service, built: Result<Request, RequestError>, shape: Shape)
  {
    built.Success? ==> Conforms(svc, built.value, shape)
  }
}

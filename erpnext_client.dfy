/**
  The ERPNext resource client (`src/lib.rs`): how it builds the URL and body of
  each request, and how it reads the JSON envelope the server answers with.

  The HTTP round trip (sending, TLS, reading the body as JSON) is the client's
  `http` field, a function from a request to the parsed body or an I/O error.
  Turning the `data` member into the caller's type, and the caller's value into
  JSON, are the `decode` and `encode` parameters (serde's generic code).
*/
module ErpNext {
  import opened Wrappers
  import opened JsonValue

  /** Base URL and the basic-auth credential pair. Never changed after construction. */
  datatype Settings = Settings(url: string, key: string, secret: string)

  datatype HttpMethod = HttpGet | HttpPut | HttpPost

  /** One request as the client hands it to the transport. */
  datatype Request = Request(
    verb: HttpMethod,
    url: string,
    basicAuth: (string, string),
    headers: seq<(string, string)>,
    body: Option<Value>)

  /** Failures below the envelope: the request could not be sent, or the body is not JSON. */
  datatype IoError = SendFailed(reason: string) | BodyNotJson(reason: string)

  /** One HTTP round trip, giving the parsed response body or an I/O error. */
  type Transport = Request -> Result<Value, IoError>

  /** Everything an operation can fail with. */
  datatype ClientError =
    | Io(failure: IoError)
    | RemoteException(exception: Value)
    | MissingData
    | Deserialize(cause: string)

  const ResourcePath := "/api/resource/"
  const NotFoundExcType := "DoesNotExistError"
  const ExceptionMessagePrefix := "The response contains an exception: "
  const MissingDataMessage := "Missing 'data' field in response"
  const AcceptJson := ("Accept", "application/json")
  const ContentTypeJson := ("Content-Type", "application/json")

  // ---------------------------------------------------------------------------
  // Request shaping
  // ---------------------------------------------------------------------------

  /** The URL new records of `doctype` are posted to: doctype inserted verbatim. */
  function CollectionUrl(base: string, doctype: string): string {
    base + ResourcePath + doctype
  }

  /** The URL of one record, read and updated in place: doctype and name inserted verbatim. */
  function ResourceUrl(base: string, doctype: string, name: string): string {
    base + ResourcePath + doctype + "/" + name
  }

  /** The request body of a write: the payload as the only member of `{"data": payload}`. */
  function WrapData(payload: Value): (r: Value)
    ensures r.Object? && |r.members| == 1 && DistinctKeys(r.members)
    ensures Get(r, "data") == Some(payload)
    ensures forall k :: k != "data" ==> Get(r, k).None?
  {
    Object([("data", payload)])
  }

  function FetchRequest(s: Settings, doctype: string, name: string): Request {
    Request(HttpGet, ResourceUrl(s.url, doctype, name), (s.key, s.secret), [AcceptJson], None)
  }

  function UpdateRequest(s: Settings, doctype: string, name: string, payload: Value): Request {
    Request(HttpPut, ResourceUrl(s.url, doctype, name), (s.key, s.secret),
            [ContentTypeJson, AcceptJson], Some(WrapData(payload)))
  }

  function InsertRequest(s: Settings, doctype: string, payload: Value): Request {
    Request(HttpPost, CollectionUrl(s.url, doctype), (s.key, s.secret),
            [ContentTypeJson, AcceptJson], Some(WrapData(payload)))
  }

  // ---------------------------------------------------------------------------
  // Envelope interpretation
  // ---------------------------------------------------------------------------

  /** The envelope's `exc_type` member is the JSON string "DoesNotExistError". */
  predicate IsNotFound(body: Value) {
    Get(body, "exc_type") == Some(String(NotFoundExcType))
  }

  /**
    How a read interprets the response body: not-found first, then an
    exception, then the `data` member, decoded into the caller's type.
  */
  function InterpretFetch<T>(body: Value, decode: Value -> Result<T, string>): (r: Result<Option<T>, ClientError>)
    ensures r == Success(None) <==> IsNotFound(body)
  {
    if IsNotFound(body) then Success(None)
    else if Get(body, "exception").Some? then Failure(RemoteException(Get(body, "exception").value))
    else match Get(body, "data")
      case None => Failure(MissingData)
      case Some(data) =>
        match decode(data)
        case Success(t) => Success(Some(t))
        case Failure(cause) => Failure(Deserialize(cause))
  }

  /** How an update or insert interprets the response body: only an `exception` member matters. */
  function InterpretWrite(body: Value): (r: Result<(), ClientError>)
    ensures r.Failure? <==> Get(body, "exception").Some?
    ensures r.Failure? ==> r.error == RemoteException(Get(body, "exception").value)
  {
    match Get(body, "exception")
    case Some(exception) => Failure(RemoteException(exception))
    case None => Success(())
  }

  /** The text of an error; `render` is the JSON text of a value (serde_json's `Display`). */
  function Message(e: ClientError, render: Value -> string): (m: string)
    ensures e.RemoteException? ==> ExceptionMessagePrefix <= m && m[|ExceptionMessagePrefix|..] == render(e.exception)
    ensures e.MissingData? ==> m == MissingDataMessage
  {
    match e
    case Io(failure) => failure.reason
    case RemoteException(exception) => ExceptionMessagePrefix + render(exception)
    case MissingData => MissingDataMessage
    case Deserialize(cause) => cause
  }

  // ---------------------------------------------------------------------------
  // The client and its three operations
  // ---------------------------------------------------------------------------

  datatype Client = Client(http: Transport, settings: Settings) {

    /** Read one record: `Success(None)` when the server says it does not exist. */
    function GetDoctypeByName<T>(doctype: string, name: string, decode: Value -> Result<T, string>)
      : (r: Result<Option<T>, ClientError>)
      ensures http(FetchRequest(settings, doctype, name)).Failure? <==> r.Failure? && r.error.Io?
      ensures http(FetchRequest(settings, doctype, name)).Failure? ==>
                r == Failure(Io(http(FetchRequest(settings, doctype, name)).error))
      ensures http(FetchRequest(settings, doctype, name)).Success? ==>
                r == InterpretFetch(http(FetchRequest(settings, doctype, name)).value, decode)
    {
      match http(FetchRequest(settings, doctype, name))
      case Failure(e) => Failure(Io(e))
      case Success(body) => InterpretFetch(body, decode)
    }

    /** Replace one record with `data`, sent as `{"data": data}`. */
    function UpdateDoctype<T>(doctype: string, name: string, data: T, encode: T -> Value): (r: Result<(), ClientError>)
      ensures http(UpdateRequest(settings, doctype, name, encode(data))).Failure? ==>
                r == Failure(Io(http(UpdateRequest(settings, doctype, name, encode(data))).error))
      ensures http(UpdateRequest(settings, doctype, name, encode(data))).Success? ==>
                r == InterpretWrite(http(UpdateRequest(settings, doctype, name, encode(data))).value)
      ensures r.Success? <==>
                http(UpdateRequest(settings, doctype, name, encode(data))).Success? &&
                Get(http(UpdateRequest(settings, doctype, name, encode(data))).value, "exception").None?
    {
      match http(UpdateRequest(settings, doctype, name, encode(data)))
      case Failure(e) => Failure(Io(e))
      case Success(body) => InterpretWrite(body)
    }

    /** Create a record of `doctype` from `data`, sent as `{"data": data}`; the server names it. */
    function InsertDoctype<T>(doctype: string, data: T, encode: T -> Value): (r: Result<(), ClientError>)
      ensures http(InsertRequest(settings, doctype, encode(data))).Failure? ==>
                r == Failure(Io(http(InsertRequest(settings, doctype, encode(data))).error))
      ensures http(InsertRequest(settings, doctype, encode(data))).Success? ==>
                r == InterpretWrite(http(InsertRequest(settings, doctype, encode(data))).value)
      ensures r.Success? <==>
                http(InsertRequest(settings, doctype, encode(data))).Success? &&
                Get(http(InsertRequest(settings, doctype, encode(data))).value, "exception").None?
    {
      match http(InsertRequest(settings, doctype, encode(data)))
      case Failure(e) => Failure(Io(e))
      case Success(body) => InterpretWrite(body)
    }
  }
}

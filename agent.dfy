/** The IoT Agent handle (iota-sdk.go), the requests the SDK sends, the
    server that answers them, and the status handling every operation goes
    through. */
module Agent {
  import opened Wrappers
  import opened Json
  import opened Types

  // ---------------------------------------------------------------------
  // 64-bit integers and time.Duration

  const Int64Min: int := -0x8000_0000_0000_0000
  const Int64Max: int := 0x7fff_ffff_ffff_ffff
  const TwoTo64: int := 0x1_0000_0000_0000_0000

  /** Go's `int` on a 64-bit platform. */
  type Int = x: int | Int64Min <= x <= Int64Max

  /** Two's-complement wrap-around of an integer into int64. */
  function Wrap64(x: int): (r: Int)
    ensures (r - x) % TwoTo64 == 0
  {
    var m := (x - Int64Min) % TwoTo64;
    m + Int64Min
  }

  /** time.Millisecond, in nanoseconds. */
  const Millisecond: int := 1_000_000

  /** `time.Duration(ms) * time.Millisecond`: an int64 product, which wraps. */
  function MillisToDuration(ms: Int): (r: Int)
    ensures (r - ms * Millisecond) % TwoTo64 == 0
    ensures Int64Min <= ms * Millisecond <= Int64Max ==> r == ms * Millisecond
  {
    Wrap64(ms * Millisecond)
  }

  // ---------------------------------------------------------------------
  // The handle

  /** An http.Client, reduced to its timeout in nanoseconds (0: none). */
  datatype HttpClient = HttpClient(timeout: int)

  /** IoTA: host, port, the stored timeout and the client (nil or not). */
  datatype IoTA = IoTA(host: string, port: Int, timeout: Int, client: Option<HttpClient>)

  /** NewIoTAgent: the timeout, converted once, goes to the handle and to its
      client alike. */
  function NewIoTAgent(host: string, port: Int, timeoutMs: Int): (a: IoTA)
    ensures a.host == host && a.port == port
    ensures a.client.Some? && a.client.value.timeout == a.timeout
    ensures Int64Min <= timeoutMs * Millisecond <= Int64Max ==> a.timeout == timeoutMs * Millisecond
  {
    var d := MillisToDuration(timeoutMs);
    IoTA(host, port, d, Some(HttpClient(d)))
  }

  /** The client the operations use: the stored one, or a fresh one with
      the stored timeout. */
  function ClientOf(a: IoTA): (c: HttpClient)
    ensures a.client.Some? ==> c == a.client.value
    ensures a.client.None? ==> c.timeout == a.timeout
  {
    if a.client.Some? then a.client.value else HttpClient(a.timeout)
  }

  lemma NewIoTAgentClient(host: string, port: Int, timeoutMs: Int)
    ensures ClientOf(NewIoTAgent(host, port, timeoutMs)).timeout == MillisToDuration(timeoutMs)
  {
  }

  /** Timeouts beyond about 292 years wrap around: this one becomes negative. */
  lemma TimeoutWraps()
    ensures MillisToDuration(9_223_372_036_855) < 0
  {
  }

  // ---------------------------------------------------------------------
  // Requests and the server

  datatype FiwareService = FiwareService(service: string, servicePath: string)

  datatype Verb = Get | Post | Put | Delete

  /** The resource a request addresses: /iot/about, /iot/services (with or
      without the resource and apikey query), /iot/devices, /iot/devices/<id>. */
  datatype Target =
    | About
    | Services
    | ServicesFor(resource: string, apikey: string)
    | Devices
    | DeviceById(id: string)

  const FormContentType := "application/x-www-form-urlencoded"
  const JsonContentType := "application/json"

  /** One HTTP request: where it goes, the fiware-service and
      fiware-servicepath headers (when sent), the Content-Type header (when
      sent), the JSON payload (when any) and the client's timeout. */
  datatype Request = Request(
    verb: Verb,
    host: string,
    port: Int,
    target: Target,
    headers: Option<FiwareService>,
    contentType: Option<string>,
    body: Option<Value>,
    timeout: int)

  datatype RespReadConfigGroup = RespReadConfigGroup(count: int, services: seq<ConfigGroup>)
  datatype RespListDevices = RespListDevices(count: int, devices: seq<Device>)
  datatype RespHealthcheck = RespHealthcheck(libVersion: string, port: string, baseRoot: string, version: string)

  /** What a response body holds, as far as the SDK's decoders can tell: one
      of the objects the IoT Agent sends; some other JSON document that
      json.Unmarshal accepts for every target (`null` included), decoding to
      zero values (OtherObject); or bytes json.Unmarshal rejects, because
      they are not JSON, are a JSON value of another kind, or give a field
      a value of the wrong type (Rejected). */
  datatype Payload =
    | GroupsPayload(count: int, services: seq<ConfigGroup>)
    | DevicePayload(device: Device)
    | DevicesPayload(count: int, devices: seq<Device>)
    | HealthPayload(health: RespHealthcheck)
    | ErrorPayload(error: ApiError)
    | OtherObject
    | Rejected

  /** A response body: reading it fails, or yields a payload. */
  datatype Body = ReadFailed(cause: string) | Bytes(payload: Payload)

  /** What client.Do gives back: a transport error, or a response. */
  datatype Reply = DoFailed(cause: string) | Response(status: int, body: Body)

  /** The IoT Agent, as a function of every request sent before and the
      request at hand. */
  type Server = (seq<Request>, Request) -> Reply

  /** An operation's result together with the requests it sent, in order. */
  datatype Call<T> = Call(result: T, sent: seq<Request>)

  // ---------------------------------------------------------------------
  // Decoding (json.Unmarshal into the SDK's structs)

  /** Unmarshal into ApiError: it fails exactly on a body json.Unmarshal
      rejects; any other body without name and message gives the zero
      ApiError. */
  function DecodeApiError(p: Payload): (r: Option<ApiError>)
    ensures r.None? <==> p.Rejected?
    ensures p.ErrorPayload? ==> r == Some(p.error)
    ensures !p.ErrorPayload? && !p.Rejected? ==> r == Some(ApiError("", ""))
  {
    match p
    case ErrorPayload(e) => Some(e)
    case Rejected => None
    case _ => Some(ApiError("", ""))
  }

  /** Unmarshal into RespReadConfigGroup, its error ignored: a failed decode
      leaves the zero value; a device list shares the `count` field. */
  function DecodeGroups(p: Payload): (r: RespReadConfigGroup)
    ensures p.GroupsPayload? ==> r == RespReadConfigGroup(p.count, p.services)
    ensures p.DevicesPayload? ==> r == RespReadConfigGroup(p.count, [])
    ensures !p.GroupsPayload? && !p.DevicesPayload? ==> r == RespReadConfigGroup(0, [])
  {
    match p
    case GroupsPayload(c, s) => RespReadConfigGroup(c, s)
    case DevicesPayload(c, _) => RespReadConfigGroup(c, [])
    case _ => RespReadConfigGroup(0, [])
  }

  /** Unmarshal into RespListDevices, its error ignored; a group list
      shares the `count` field. */
  function DecodeDevices(p: Payload): (r: RespListDevices)
    ensures p.DevicesPayload? ==> r == RespListDevices(p.count, p.devices)
    ensures p.GroupsPayload? ==> r == RespListDevices(p.count, [])
    ensures !p.GroupsPayload? && !p.DevicesPayload? ==> r == RespListDevices(0, [])
  {
    match p
    case DevicesPayload(c, ds) => RespListDevices(c, ds)
    case GroupsPayload(c, _) => RespListDevices(c, [])
    case _ => RespListDevices(0, [])
  }

  /** Unmarshal into Device, its error ignored. */
  function DecodeDevice(p: Payload): (d: Device)
    ensures p.DevicePayload? ==> d == p.device
    ensures !p.DevicePayload? ==> d == ZeroDevice()
  {
    match p
    case DevicePayload(d) => d
    case _ => ZeroDevice()
  }

  /** Unmarshal into RespHealthcheck, its error ignored. */
  function DecodeHealth(p: Payload): (h: RespHealthcheck)
    ensures p.HealthPayload? ==> h == p.health
    ensures !p.HealthPayload? ==> h.libVersion == ""
  {
    match p
    case HealthPayload(h) => h
    case _ => RespHealthcheck("", "", "", "")
  }

  // ---------------------------------------------------------------------
  // Status handling

  const StatusOK := 200
  const StatusCreated := 201
  const StatusNoContent := 204

  /** What an operation does with an error body that does not decode into
      ApiError: the config-group calls report an unexpected host,
      ReadDevice and ListDevices panic, and the device writes ignore the
      decode error and return the zero ApiError. */
  datatype Undecodable = Unexpected | Panics | Ignored

  const PanicMarshal := "Could not Marshal struct"

  function UnexpectedHost(host: string): string {
    "Unexpected Error, is host " + host + " a IoT-Agent?"
  }

  /** The error for a response with a status other than the expected one. */
  function StatusError(host: string, body: Body, policy: Undecodable): (e: Error)
    ensures body.ReadFailed? ==> e == Failure("Error while eding response body " + body.cause)
    ensures body.Bytes? && body.payload.ErrorPayload? ==> e == ApiFailure(body.payload.error)
    ensures body.Bytes? && !body.payload.ErrorPayload? && !body.payload.Rejected? ==>
      e == ApiFailure(ApiError("", ""))
    ensures body.Bytes? && body.payload.Rejected? ==>
      e == match policy
        case Unexpected => Failure(UnexpectedHost(host))
        case Panics => Panic(PanicMarshal)
        case Ignored => ApiFailure(ApiError("", ""))
  {
    match body
    case ReadFailed(c) => Failure("Error while eding response body " + c)
    case Bytes(p) =>
      match DecodeApiError(p)
      case Some(api) => ApiFailure(api)
      case None =>
        match policy
        case Unexpected => Failure(UnexpectedHost(host))
        case Panics => Panic(PanicMarshal)
        case Ignored => ApiFailure(ApiError("", ""))
  }

  /** The three policies differ only on a body json.Unmarshal rejects. */
  lemma PoliciesAgreeWhenDecoded(host: string, body: Body, p1: Undecodable, p2: Undecodable)
    requires !(body.Bytes? && body.payload.Rejected?)
    ensures StatusError(host, body, p1) == StatusError(host, body, p2)
  {
  }

  /** A response is delivered or turned into an error. */
  datatype Outcome = Delivered(body: Body) | Failed(error: Error)

  /** client.Do and the status check: a transport error is wrapped under
      `doPrefix`; a response is delivered exactly when its status is the
      expected one. */
  function Exchange(host: string, reply: Reply, expected: int, doPrefix: string, policy: Undecodable): (o: Outcome)
    ensures o.Delivered? <==> reply.Response? && reply.status == expected
    ensures o.Delivered? ==> o.body == reply.body
    ensures reply.DoFailed? ==> o == Failed(Failure(doPrefix + reply.cause))
    ensures reply.Response? && reply.status != expected ==> o == Failed(StatusError(host, reply.body, policy))
  {
    match reply
    case DoFailed(c) => Failed(Failure(doPrefix + c))
    case Response(status, body) =>
      if status == expected then Delivered(body) else Failed(StatusError(host, body, policy))
  }

  const GettingService := "Error while getting service: "
  const RequestingResource := "Error while requesting resource "

  /** A read: the expected status delivers the decoded body; a body that
      cannot be read is an error. */
  function ReadOutcome<T>(host: string, reply: Reply, policy: Undecodable, decode: Payload -> T): (r: Result<T, Error>)
    ensures r.Ok? <==> reply.Response? && reply.status == StatusOK && reply.body.Bytes?
    ensures r.Ok? ==> r.value == decode(reply.body.payload)
    ensures reply.Response? && reply.status == StatusOK && reply.body.ReadFailed? ==>
      r == Err(Failure(GettingService + reply.body.cause))
  {
    match Exchange(host, reply, StatusOK, GettingService, policy)
    case Failed(e) => Err(e)
    case Delivered(ReadFailed(c)) => Err(Failure(GettingService + c))
    case Delivered(Bytes(p)) => Ok(decode(p))
  }

  /** A write: nil on the expected status, whatever the body. */
  function WriteOutcome(host: string, reply: Reply, expected: int, doPrefix: string, policy: Undecodable): (r: Option<Error>)
    ensures r.None? <==> reply.Response? && reply.status == expected
  {
    match Exchange(host, reply, expected, doPrefix, policy)
    case Failed(e) => Some(e)
    case Delivered(_) => None
  }

  // ---------------------------------------------------------------------
  // Healthcheck

  const HealthcheckFailed := "Error while Healthcheck: "

  function NotHealthy(host: string): string {
    "Error healtchecking IoT-Agent, host: " + host
  }

  /** The request Healthcheck sends: http.Get on /iot/about, through the
      default client (no timeout) and with no headers. */
  function HealthRequest(a: IoTA): Request {
    Request(Get, a.host, a.port, About, None, None, None, 0)
  }

  /** Healthcheck: any status is accepted; the decoded body must name a
      library version. */
  function Healthcheck(a: IoTA, server: Server, history: seq<Request>): (r: Call<Result<RespHealthcheck, Error>>)
    ensures r.sent == [HealthRequest(a)]
    ensures r.result.Ok? ==> r.result.value.libVersion != ""
  {
    var req := HealthRequest(a);
    var result :=
      match server(history, req)
      case DoFailed(c) => Err(Failure(HealthcheckFailed + c))
      case Response(_, ReadFailed(c)) => Err(Failure(HealthcheckFailed + c))
      case Response(_, Bytes(p)) =>
        var h := DecodeHealth(p);
        if h.libVersion == "" then Err(Failure(NotHealthy(a.host))) else Ok(h);
    Call(result, [req])
  }

  /** Healthcheck succeeds exactly when a body is read whose decoded
      libVersion is not empty, and then returns that decoded body. */
  lemma HealthyIffLibVersion(a: IoTA, server: Server, history: seq<Request>)
    ensures var reply := server(history, HealthRequest(a));
      var r := Healthcheck(a, server, history).result;
      (r.Ok? <==> reply.Response? && reply.body.Bytes? && DecodeHealth(reply.body.payload).libVersion != "")
      && (r.Ok? ==> r.value == DecodeHealth(reply.body.payload))
  {
  }

  /** A decoded body without libVersion is rejected naming the host. */
  lemma HealthcheckRejectsEmptyVersion(a: IoTA, server: Server, history: seq<Request>)
    requires server(history, HealthRequest(a)).Response?
    requires server(history, HealthRequest(a)).body.Bytes?
    requires DecodeHealth(server(history, HealthRequest(a)).body.payload).libVersion == ""
    ensures Healthcheck(a, server, history).result == Err(Failure(NotHealthy(a.host)))
  {
  }

  /** The status code plays no part in Healthcheck: two servers answering
      the same body with different statuses give the same result. */
  lemma HealthcheckIgnoresStatus(a: IoTA, s1: Server, s2: Server, history: seq<Request>)
    requires s1(history, HealthRequest(a)).Response? && s2(history, HealthRequest(a)).Response?
    requires s1(history, HealthRequest(a)).body == s2(history, HealthRequest(a)).body
    ensures Healthcheck(a, s1, history) == Healthcheck(a, s2, history)
  {
  }

  // ---------------------------------------------------------------------
  // ApiError.Error

  /** ApiError.Error: the name, a colon and a space, then the message. */
  function ApiErrorText(e: ApiError): (t: string)
    ensures |t| == |e.name| + 2 + |e.message|
    ensures t[..|e.name|] == e.name
    ensures t[|e.name|..|e.name| + 2] == ": "
    ensures t[|e.name| + 2..] == e.message
  {
    e.name + ": " + e.message
  }
}

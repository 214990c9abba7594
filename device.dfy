/** The device operations of iota-device.go: validation, read, existence,
    list, create, update, delete, upsert, and create-and-set. */
module Devices {
  import opened Wrappers
  import opened Json
  import opened Types
  import opened Agent
  import ConfigGroups

  // ---------------------------------------------------------------------
  // Validation

  function DeviceChecks(d: Device): seq<Mandatory> {
    [Mandatory("Id", d.id != "")]
  }

  function DeviceValidation(d: Device): Option<MissingFields> {
    ValidationOf(DeviceChecks(d))
  }

  /** Validate: nil exactly when the id is set; otherwise the one field "Id". */
  method Validate(d: Device) returns (err: Option<MissingFields>)
    ensures err == DeviceValidation(d)
    ensures err.None? <==> d.id != ""
    ensures err.Some? ==> err.value == MissingFields(["Id"], MissingFieldsMessage)
  {
    var fields: seq<string> := [];
    if d.id == "" {
      fields := fields + ["Id"];
    }
    if |fields| == 0 {
      err := None;
    } else {
      err := Some(MissingFields(fields, MissingFieldsMessage));
    }
    assert fields == if d.id == "" then ["Id"] else [];
    DeviceAbsent(d);
  }

  /** The specification Validate meets, on the function the other
      operations use. */
  lemma DeviceValidationFields(d: Device)
    ensures DeviceValidation(d).None? <==> d.id != ""
    ensures DeviceValidation(d).Some? ==> DeviceValidation(d).value == MissingFields(["Id"], MissingFieldsMessage)
  {
    DeviceAbsent(d);
  }

  lemma DeviceAbsent(d: Device)
    ensures Absent(DeviceChecks(d)) == if d.id == "" then ["Id"] else []
  {
    assert DeviceChecks(d)[1..] == [];
  }

  /** A device without an id is reported with "Id" alone. */
  lemma MissingIdText(d: Device)
    requires d.id == ""
    ensures DeviceValidation(d).Some?
    ensures ConfigGroups.MissingFieldsText(DeviceValidation(d).value) == "Error Missing fields: [Id]"
  {
    DeviceValidationFields(d);
    ConfigGroups.OneFieldText("Id", DeviceValidation(d).value);
  }

  // ---------------------------------------------------------------------
  // Requests (no Content-Type on reads and deletes)

  function ReadDeviceRequest(a: IoTA, fs: FiwareService, id: string): Request {
    Request(Get, a.host, a.port, DeviceById(id), Some(fs), None, None, ClientOf(a).timeout)
  }

  function ListDevicesRequest(a: IoTA, fs: FiwareService): Request {
    Request(Get, a.host, a.port, Devices, Some(fs), None, None, ClientOf(a).timeout)
  }

  function CreateDevicesRequest(a: IoTA, fs: FiwareService, body: Value): Request {
    Request(Post, a.host, a.port, Devices, Some(fs), Some(JsonContentType), Some(body), ClientOf(a).timeout)
  }

  function UpdateDeviceRequest(a: IoTA, fs: FiwareService, id: string, payload: Value): Request {
    Request(Put, a.host, a.port, DeviceById(id), Some(fs), Some(JsonContentType), Some(payload), ClientOf(a).timeout)
  }

  function DeleteDeviceRequest(a: IoTA, fs: FiwareService, id: string): Request {
    Request(Delete, a.host, a.port, DeviceById(id), Some(fs), None, None, ClientOf(a).timeout)
  }

  // ---------------------------------------------------------------------
  // Reads

  /** ReadDevice: one GET on the device's path; a 200 with a readable body
      gives the decoded device; an error body that does not decode panics. */
  function ReadDevice(a: IoTA, server: Server, history: seq<Request>, fs: FiwareService, id: string)
    : (c: Call<Result<Device, Error>>)
    ensures c.sent == [ReadDeviceRequest(a, fs, id)]
    ensures var reply := server(history, c.sent[0]);
      (c.result.Ok? <==> reply.Response? && reply.status == StatusOK && reply.body.Bytes?)
      && (c.result.Ok? ==> c.result.value == DecodeDevice(reply.body.payload))
      && (reply.DoFailed? ==> c.result == Err(Failure(GettingService + reply.cause)))
      && (reply.Response? && reply.status != StatusOK ==>
            c.result == Err(StatusError(a.host, reply.body, Panics)))
  {
    var req := ReadDeviceRequest(a, fs, id);
    Call(ReadOutcome(a.host, server(history, req), Panics, DecodeDevice), [req])
  }

  /** ReadDevice panics exactly on an error status whose body json.Unmarshal
      rejects. */
  lemma ReadDevicePanics(a: IoTA, server: Server, history: seq<Request>, fs: FiwareService, id: string)
    ensures var reply := server(history, ReadDeviceRequest(a, fs, id));
      var r := ReadDevice(a, server, history, fs, id).result;
      (r.Err? && r.error.Panic?) <==>
        reply.Response? && reply.status != StatusOK && reply.body.Bytes? && reply.body.payload.Rejected?
  {
  }

  /** DeviceExists: true exactly when ReadDevice succeeds; every returned
      error reads as false, and only ReadDevice's panic escapes. */
  function DeviceExists(a: IoTA, server: Server, history: seq<Request>, fs: FiwareService, id: string)
    : (c: Call<Result<bool, Error>>)
    ensures c.sent == ReadDevice(a, server, history, fs, id).sent
    ensures var read := ReadDevice(a, server, history, fs, id).result;
      (c.result == Ok(true) <==> read.Ok?)
      && (c.result == Ok(false) <==> read.Err? && !read.error.Panic?)
      && (c.result.Err? ==> read.Err? && c.result.error == read.error && c.result.error.Panic?)
  {
    var read := ReadDevice(a, server, history, fs, id);
    var result :=
      match read.result
      case Ok(_) => Ok(true)
      case Err(Panic(reason)) => Err(Panic(reason))
      case Err(_) => Ok(false);
    Call(result, read.sent)
  }

  /** ListDevices: one GET on /iot/devices, with ReadDevice's error rules. */
  function ListDevices(a: IoTA, server: Server, history: seq<Request>, fs: FiwareService)
    : (c: Call<Result<RespListDevices, Error>>)
    ensures c.sent == [ListDevicesRequest(a, fs)]
    ensures var reply := server(history, c.sent[0]);
      (c.result.Ok? <==> reply.Response? && reply.status == StatusOK && reply.body.Bytes?)
      && (c.result.Ok? ==> c.result.value == DecodeDevices(reply.body.payload))
      && (reply.DoFailed? ==> c.result == Err(Failure(GettingService + reply.cause)))
      && (reply.Response? && reply.status != StatusOK ==>
            c.result == Err(StatusError(a.host, reply.body, Panics)))
  {
    var req := ListDevicesRequest(a, fs);
    Call(ReadOutcome(a.host, server(history, req), Panics, DecodeDevices), [req])
  }

  // ---------------------------------------------------------------------
  // Create

  /** reqCreateDevice, encoded element by element through MarshalJSON: nil
      when some device's ExplicitAttrs cannot be encoded. */
  function DevicesBody(ds: seq<Device>): (r: Option<Value>)
    ensures r.Some? <==> forall i :: 0 <= i < |ds| ==> MarshalDevice(ds[i]).Ok?
    ensures r.Some? ==> (r.value.JObject? && |r.value.members| == 1
      && r.value.members[0].key == "devices" && r.value.members[0].value.JArray?
      && |r.value.members[0].value.items| == |ds|
      && forall i :: 0 <= i < |ds| ==> r.value.members[0].value.items[i] == MarshalDevice(ds[i]).value)
  {
    if forall i :: 0 <= i < |ds| ==> MarshalDevice(ds[i]).Ok? then
      Some(JObject([Member("devices", JArray(seq(|ds|, i requires 0 <= i < |ds| => MarshalDevice(ds[i]).value)))]))
    else None
  }

  /** What CreateDevices does: every device is validated before anything is
      sent; encoding them panics on an ExplicitAttrs that is neither a string
      nor a bool; then one POST carrying all of them, which succeeds on 201,
      and whose error body is decoded with the decode error ignored. */
  function CreateDevicesOutcome(a: IoTA, server: Server, history: seq<Request>, fs: FiwareService, ds: seq<Device>)
    : (c: Call<Option<Error>>)
    ensures FirstInvalid(ds, DeviceValidation).Some? ==>
      c == Call(Some(MissingFieldsError(FirstInvalid(ds, DeviceValidation).value)), [])
    ensures FirstInvalid(ds, DeviceValidation).None? && DevicesBody(ds).None? ==>
      c == Call(Some(Panic(PanicMarshal)), [])
    ensures c.sent != [] <==> FirstInvalid(ds, DeviceValidation).None? && DevicesBody(ds).Some?
    ensures FirstInvalid(ds, DeviceValidation).None? && DevicesBody(ds).Some? ==>
      (c.sent == [CreateDevicesRequest(a, fs, DevicesBody(ds).value)]
      && var reply := server(history, c.sent[0]);
      (c.result.None? <==> reply.Response? && reply.status == StatusCreated)
      && (reply.DoFailed? ==> c.result == Some(Failure(RequestingResource + reply.cause)))
      && (reply.Response? && reply.status != StatusCreated ==>
            c.result == Some(StatusError(a.host, reply.body, Ignored))))
  {
    match FirstInvalid(ds, DeviceValidation)
    case Some(m) => Call(Some(MissingFieldsError(m)), [])
    case None =>
      match DevicesBody(ds)
      case None => Call(Some(Panic(PanicMarshal)), [])
      case Some(body) =>
        var req := CreateDevicesRequest(a, fs, body);
        Call(WriteOutcome(a.host, server(history, req), StatusCreated, RequestingResource, Ignored), [req])
  }

  /** Nothing is sent unless every device validates; the error returned is
      the first invalid device's. */
  lemma CreateDevicesValidatesAll(a: IoTA, server: Server, history: seq<Request>, fs: FiwareService, ds: seq<Device>)
    ensures var c := CreateDevicesOutcome(a, server, history, fs, ds);
      c.sent != [] ==> forall i :: 0 <= i < |ds| ==> ds[i].id != ""
    ensures (exists i :: 0 <= i < |ds| && ds[i].id == "") ==>
      CreateDevicesOutcome(a, server, history, fs, ds) ==
        Call(Some(MissingFieldsError(MissingFields(["Id"], MissingFieldsMessage))), [])
  {
    FirstInvalidSpec(ds, DeviceValidation);
    forall i | 0 <= i < |ds| {
      DeviceValidationFields(ds[i]);
    }
    if FirstInvalid(ds, DeviceValidation).Some? {
      var i :| 0 <= i < |ds| && FirstInvalid(ds, DeviceValidation) == DeviceValidation(ds[i]);
      DeviceValidationFields(ds[i]);
    }
  }

  /** A valid device list with an ExplicitAttrs that is unset or of another
      type panics before any request. */
  lemma CreateDevicesUnsupportedExplicitAttrs(a: IoTA, server: Server, history: seq<Request>, fs: FiwareService, ds: seq<Device>, i: nat)
    requires i < |ds| && (ds[i].explicitAttrs.Nil? || ds[i].explicitAttrs.Other?)
    requires forall j :: 0 <= j < |ds| ==> ds[j].id != ""
    ensures CreateDevicesOutcome(a, server, history, fs, ds) == Call(Some(Panic(PanicMarshal)), [])
  {
    FirstInvalidSpec(ds, DeviceValidation);
    forall j | 0 <= j < |ds| {
      DeviceValidationFields(ds[j]);
    }
    MarshalOtherFails(ds[i]);
  }

  /** An error status whose body json.Unmarshal rejects gives the zero
      ApiError. */
  lemma CreateDevicesZeroApiError(a: IoTA, server: Server, history: seq<Request>, fs: FiwareService, ds: seq<Device>)
    requires FirstInvalid(ds, DeviceValidation).None? && DevicesBody(ds).Some?
    requires var reply := server(history, CreateDevicesRequest(a, fs, DevicesBody(ds).value));
      reply.Response? && reply.status != StatusCreated && reply.body == Bytes(Rejected)
    ensures CreateDevicesOutcome(a, server, history, fs, ds).result == Some(ApiFailure(ApiError("", "")))
  {
  }

  /** CreateDevices: validates the devices one by one, stopping at the first
      failure, then encodes and sends them together. */
  method CreateDevices(a: IoTA, server: Server, history: seq<Request>, fs: FiwareService, ds: seq<Device>)
    returns (c: Call<Option<Error>>)
    ensures c == CreateDevicesOutcome(a, server, history, fs, ds)
  {
    var i := 0;
    while i < |ds|
      invariant 0 <= i <= |ds|
      invariant FirstInvalid(ds[i..], DeviceValidation) == FirstInvalid(ds, DeviceValidation)
    {
      var err := Validate(ds[i]);
      if err.Some? {
        return Call(Some(MissingFieldsError(err.value)), []);
      }
      assert ds[i..][1..] == ds[i + 1..];
      i := i + 1;
    }
    var body := DevicesBody(ds);
    if body.None? {
      return Call(Some(Panic(PanicMarshal)), []);
    }
    var req := CreateDevicesRequest(a, fs, body.value);
    c := Call(WriteOutcome(a.host, server(history, req), StatusCreated, RequestingResource, Ignored), [req]);
  }

  /** CreateDevice: the one-element case of CreateDevices. */
  method CreateDevice(a: IoTA, server: Server, history: seq<Request>, fs: FiwareService, d: Device)
    returns (c: Call<Option<Error>>)
    ensures c == CreateDevicesOutcome(a, server, history, fs, [d])
  {
    c := CreateDevices(a, server, history, fs, [d]);
  }

  // ---------------------------------------------------------------------
  // Update

  /** The copy UpdateDevice encodes: id, transport, service and service path
      cleared, every other field as given. */
  function Cleared(d: Device): (e: Device)
    ensures e.id == "" && e.transport == "" && e.service == "" && e.servicePath == ""
    ensures e.(id := d.id, transport := d.transport, service := d.service, servicePath := d.servicePath) == d
  {
    d.(id := "", transport := "", service := "", servicePath := "")
  }

  /** The payload of UpdateDevice: the plain encoding of the cleared copy. */
  function UpdatePayload(d: Device): (v: Value)
    ensures v.JObject?
  {
    EncodeDevicePlain(Cleared(d))
  }

  /** What UpdateDevice does: validation first; a payload of `{}` is not
      sent; otherwise one PUT on the path of the original id, which succeeds
      on 204, and whose error body is decoded with the decode error ignored. */
  function UpdateDeviceOutcome(a: IoTA, server: Server, history: seq<Request>, fs: FiwareService, d: Device)
    : (c: Call<Option<Error>>)
    ensures DeviceValidation(d).Some? ==> c == Call(Some(MissingFieldsError(DeviceValidation(d).value)), [])
    ensures DeviceValidation(d).None? && Render(UpdatePayload(d)) == "{}" ==> c == Call(None, [])
    ensures c.sent != [] <==> DeviceValidation(d).None? && Render(UpdatePayload(d)) != "{}"
    ensures DeviceValidation(d).None? && Render(UpdatePayload(d)) != "{}" ==>
      (c.sent == [UpdateDeviceRequest(a, fs, d.id, UpdatePayload(d))]
      && var reply := server(history, c.sent[0]);
      (c.result.None? <==> reply.Response? && reply.status == StatusNoContent)
      && (reply.DoFailed? ==> c.result == Some(Failure(RequestingResource + reply.cause)))
      && (reply.Response? && reply.status != StatusNoContent ==>
            c.result == Some(StatusError(a.host, reply.body, Ignored))))
  {
    match DeviceValidation(d)
    case Some(m) => Call(Some(MissingFieldsError(m)), [])
    case None =>
      var payload := UpdatePayload(d);
      if Render(payload) == "{}" then Call(None, [])
      else
        var req := UpdateDeviceRequest(a, fs, d.id, payload);
        Call(WriteOutcome(a.host, server(history, req), StatusNoContent, RequestingResource, Ignored), [req])
  }

  /** UpdateDevice: clears the identifying fields of its copy one by one,
      then encodes and sends it. */
  method UpdateDevice(a: IoTA, server: Server, history: seq<Request>, fs: FiwareService, d: Device)
    returns (c: Call<Option<Error>>)
    ensures c == UpdateDeviceOutcome(a, server, history, fs, d)
  {
    var err := Validate(d);
    if err.Some? {
      return Call(Some(MissingFieldsError(err.value)), []);
    }
    var id := d.id;
    var e := d;
    e := e.(id := "");
    e := e.(transport := "");
    e := e.(service := "");
    e := e.(servicePath := "");
    var payload := EncodeDevicePlain(e);
    if Render(payload) == "{}" {
      return Call(None, []);
    }
    var req := UpdateDeviceRequest(a, fs, id, payload);
    c := Call(WriteOutcome(a.host, server(history, req), StatusNoContent, RequestingResource, Ignored), [req]);
  }

  /** The PUT payload never carries the identifying keys. */
  lemma UpdatePayloadHidesIdentity(d: Device)
    ensures var ks := Keys(UpdatePayload(d).members);
      "device_id" !in ks && "service" !in ks && "service_path" !in ks && "transport" !in ks
  {
    var fs := PlainFields(Cleared(d));
    PlainFieldsTags(Cleared(d));
    AliasTagsOf(Cleared(d));
    assert fs[0].tag == "device_id" && !Emitted(fs[0]);
    assert fs[1].tag == "service" && !Emitted(fs[1]);
    assert fs[2].tag == "service_path" && !Emitted(fs[2]);
    assert fs[10].tag == "transport" && !Emitted(fs[10]);
    EncodeStructPresence(fs, 0);
    EncodeStructPresence(fs, 1);
    EncodeStructPresence(fs, 2);
    EncodeStructPresence(fs, 10);
  }

  /** Every other field of the payload follows its tag with the caller's
      own value. */
  lemma UpdatePayloadKeepsOthers(d: Device, i: nat)
    requires i < |PlainFields(d)| && i != 0 && i != 1 && i != 2 && i != 10
    ensures var f := PlainFields(d)[i];
      (f.tag in Keys(UpdatePayload(d).members) <==> Emitted(f))
      && (Emitted(f) ==> Lookup(UpdatePayload(d).members, f.tag) == Some(f.value))
  {
    var fs := PlainFields(Cleared(d));
    assert fs[i] == PlainFields(d)[i];
    PlainFieldsTags(Cleared(d));
    EncodeStructPresence(fs, i);
    if Emitted(fs[i]) {
      EncodeStructLookup(fs, i);
    }
  }

  /** The PUT is skipped exactly when every field left after clearing is an
      omitted empty value. */
  lemma UpdateSkipIff(d: Device)
    ensures Render(UpdatePayload(d)) == "{}" <==>
      forall i :: 0 <= i < |PlainFields(Cleared(d))| ==> !Emitted(PlainFields(Cleared(d))[i])
  {
    RenderIsEmptyObject(UpdatePayload(d));
    EncodeStructEmpty(PlainFields(Cleared(d)));
  }

  /** The update payload does not go through MarshalJSON: a string
      ExplicitAttrs such as "true" is sent as that string, not as a bool. */
  lemma UpdatePayloadKeepsString(d: Device)
    requires d.explicitAttrs.Str?
    ensures Lookup(UpdatePayload(d).members, ExplicitAttrsKey) == Some(JString(d.explicitAttrs.s))
  {
    var fs := PlainFields(Cleared(d));
    PlainFieldsTags(Cleared(d));
    EncodeStructLookup(fs, ExplicitAttrsIndex);
  }

  // ---------------------------------------------------------------------
  // Delete

  /** DeleteDevice: one DELETE on the device's path, which succeeds on 204. */
  function DeleteDevice(a: IoTA, server: Server, history: seq<Request>, fs: FiwareService, id: string)
    : (c: Call<Option<Error>>)
    ensures c.sent == [DeleteDeviceRequest(a, fs, id)]
    ensures var reply := server(history, c.sent[0]);
      (c.result.None? <==> reply.Response? && reply.status == StatusNoContent)
      && (reply.DoFailed? ==> c.result == Some(Failure(GettingService + reply.cause)))
      && (reply.Response? && reply.status != StatusNoContent ==>
            c.result == Some(StatusError(a.host, reply.body, Ignored)))
  {
    var req := DeleteDeviceRequest(a, fs, id);
    Call(WriteOutcome(a.host, server(history, req), StatusNoContent, GettingService, Ignored), [req])
  }

  // ---------------------------------------------------------------------
  // Upsert

  const NoEntityName := "Error before getting updating device: No entity_name"

  /** UpsertDevice: an existence read; a missing device is created exactly
      as given; an existing one is read again, and updated with transport
      cleared and the server's entity name, which must not be empty. */
  method UpsertDevice(a: IoTA, server: Server, history: seq<Request>, fs: FiwareService, d: Device)
    returns (c: Call<Option<Error>>)
    ensures var e := DeviceExists(a, server, history, fs, d.id);
      (e.result.Err? ==> c == Call(Some(e.result.error), e.sent))
      && (e.result == Ok(false) ==>
        var cr := CreateDevicesOutcome(a, server, history + e.sent, fs, [d]);
        c == Call(cr.result, e.sent + cr.sent))
      && (e.result == Ok(true) ==>
        var rd := ReadDevice(a, server, history + e.sent, fs, d.id);
        (rd.result.Err? ==> c == Call(Some(rd.result.error), e.sent + rd.sent))
        && (rd.result.Ok? && rd.result.value.entityName == "" ==>
              c == Call(Some(Failure(NoEntityName)), e.sent + rd.sent))
        && (rd.result.Ok? && rd.result.value.entityName != "" ==>
              var up := UpdateDeviceOutcome(a, server, history + e.sent + rd.sent, fs,
                d.(transport := "", entityName := rd.result.value.entityName));
              c == Call(up.result, e.sent + rd.sent + up.sent)))
  {
    var e := DeviceExists(a, server, history, fs, d.id);
    if e.result.Err? {
      return Call(Some(e.result.error), e.sent);
    }
    if !e.result.value {
      var cr := CreateDevice(a, server, history + e.sent, fs, d);
      return Call(cr.result, e.sent + cr.sent);
    }
    var rd := ReadDevice(a, server, history + e.sent, fs, d.id);
    if rd.result.Err? {
      return Call(Some(rd.result.error), e.sent + rd.sent);
    }
    if rd.result.value.entityName == "" {
      return Call(Some(Failure(NoEntityName)), e.sent + rd.sent);
    }
    var u := d;
    u := u.(transport := "");
    u := u.(entityName := rd.result.value.entityName);
    var up := UpdateDevice(a, server, history + e.sent + rd.sent, fs, u);
    c := Call(up.result, e.sent + rd.sent + up.sent);
  }

  /** The update an upsert sends addresses the caller's id and never carries
      the server's copy beyond its entity name. */
  lemma UpsertUpdateAddressesCaller(d: Device, entityName: string)
    requires d.id != ""
    ensures var u := d.(transport := "", entityName := entityName);
      u.id == d.id && DeviceValidation(u).None?
      && Cleared(u) == Cleared(d).(entityName := entityName)
  {
    DeviceValidationFields(d.(transport := "", entityName := entityName));
  }

  // ---------------------------------------------------------------------
  // Create and set

  /** A caller's *Device. */
  class DeviceRef {
    var value: Device

    constructor(d: Device)
      ensures value == d
    {
      value := d;
    }
  }

  const NilDeviceRef := "Device reference cannot be nil"

  /** What CreateDeviceWSE returns and leaves in the caller's device: create
      it, read it back by its id, and take the server's copy. */
  function CreateDeviceWSEOutcome(a: IoTA, server: Server, history: seq<Request>, fs: FiwareService, d: Device)
    : (r: (Call<Option<Error>>, Device))
    ensures r.0.result.Some? ==> r.1 == d
  {
    var cr := CreateDevicesOutcome(a, server, history, fs, [d]);
    if cr.result.Some? then (cr, d)
    else
      var rd := ReadDevice(a, server, history + cr.sent, fs, d.id);
      var sent := cr.sent + rd.sent;
      match rd.result
      case Err(e) => (Call(Some(e), sent), d)
      case Ok(dev) => (Call(None, sent), dev)
  }

  /** On success the device was created and replaced by the server's copy,
      the decoded body of a 200 to the read-back by the same id. */
  lemma CreateDeviceWSESets(a: IoTA, server: Server, history: seq<Request>, fs: FiwareService, d: Device)
    requires CreateDeviceWSEOutcome(a, server, history, fs, d).0.result.None?
    ensures var r := CreateDeviceWSEOutcome(a, server, history, fs, d);
      var create := CreateDevicesOutcome(a, server, history, fs, [d]);
      var reply := server(history + create.sent, ReadDeviceRequest(a, fs, d.id));
      create.result.None? && |create.sent| == 1
      && r.0.sent == create.sent + [ReadDeviceRequest(a, fs, d.id)]
      && reply.Response? && reply.status == StatusOK && reply.body.Bytes?
      && r.1 == DecodeDevice(reply.body.payload)
  {
  }

  /** Every branch of create-and-set: a failed create is returned as is,
      before any read; a failed read-back is returned as is; in both the
      caller's device stays as it was. A create and a read-back that both
      succeed make the call succeed with the server's copy. */
  lemma CreateDeviceWSEBranches(a: IoTA, server: Server, history: seq<Request>, fs: FiwareService, d: Device)
    ensures var r := CreateDeviceWSEOutcome(a, server, history, fs, d);
      var create := CreateDevicesOutcome(a, server, history, fs, [d]);
      var read := ReadDevice(a, server, history + create.sent, fs, d.id);
      (create.result.Some? ==> r == (create, d))
      && (create.result.None? && read.result.Err? ==>
            r == (Call(Some(read.result.error), create.sent + read.sent), d))
      && (create.result.None? && read.result.Ok? ==>
            r == (Call(None, create.sent + read.sent), read.result.value))
  {
  }

  /** CreateDeviceWSE: a nil reference is refused before anything is sent;
      otherwise the referenced device is updated in place. */
  method CreateDeviceWSE(a: IoTA, server: Server, history: seq<Request>, fs: FiwareService, d: DeviceRef?)
    returns (c: Call<Option<Error>>)
    modifies d
    ensures d == null ==> c == Call(Some(Failure(NilDeviceRef)), [])
    ensures d != null ==> (c, d.value) == CreateDeviceWSEOutcome(a, server, history, fs, old(d.value))
  {
    if d == null {
      return Call(Some(Failure(NilDeviceRef)), []);
    }
    var dev := d.value;
    var cr := CreateDevice(a, server, history, fs, dev);
    if cr.result.Some? {
      return cr;
    }
    var rd := ReadDevice(a, server, history + cr.sent, fs, dev.id);
    if rd.result.Err? {
      return Call(Some(rd.result.error), cr.sent + rd.sent);
    }
    d.value := rd.result.value;
    c := Call(None, cr.sent + rd.sent);
  }
}

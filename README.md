# fiware-iot-agent-sdk in Dafny

This project models the core of the Go SDK for a FIWARE IoT Agent (fbuedding/fiware-iot-agent-sdk) and proves properties about that model. The core has three parts:

- **Records and their JSON encoding** (iota-types.go):
  - the records ConfigGroup, Device and their nested attributes, encoded under their struct tags and omitempty rules;
  - the custom `Device.MarshalJSON`, which turns the dynamically typed `ExplicitAttrs` field into a JSON boolean or string, or fails.
- **Mandatory-field validation** of config groups and devices, with the `MissingFields` error and its text.
- **The request and orchestration rules** of the CRUD calls (iota-config-group.go, iota-device.go, iota-sdk.go):
  - which request each call sends;
  - which status it accepts;
  - how other responses become errors;
  - exists, upsert, the update payload and its `{}` short cut;
  - the "create and set" calls;
  - the de-duplication of service paths;
  - the health check;
  - the client timeout.

## Modules

| file | module | models |
|---|---|---|
| wrappers.dfy | Wrappers | `Option`, `Result` |
| json.dfy | Json | the JSON tree and its compact rendering; the `{}` test |
| types.dfy | Types | records, validation, `strings.ToLower`/`TrimSpace`/`Trim`, struct encoding, `Device.MarshalJSON`, the plain Device encoding |
| agent.dfy | Agent | the `IoTA` handle, `NewIoTAgent`, requests, the server, decoding, status handling, `Healthcheck`, `ApiError.Error` |
| config_group.dfy | ConfigGroups | every config-group call |
| device.dfy | Devices | every device call |
| service_paths.dfy | ServicePaths | `GetAllServicePathsForService` |

### How the network is modelled

The IoT Agent is a parameter of type `Server = (seq<Request>, Request) -> Reply`. It maps the requests already sent and the request at hand to a reply.

A reply is one of:
- a transport error (`DoFailed`);
- a status with a body. The body either cannot be read (`ReadFailed`) or holds a `Payload`.

A `Payload` is what the SDK's `json.Unmarshal` calls can tell apart:
- one of the objects the agent sends;
- another JSON document that `json.Unmarshal` accepts, `null` included, which decodes to zero values (`OtherObject`);
- bytes `json.Unmarshal` rejects (`Rejected`). These are bytes that are not JSON, a JSON value of another kind, or an object giving a field a value of the wrong type, such as `{"name":1}` for an `ApiError`.

Every call returns a `Call(result, sent)` carrying the requests it sent, in order. This states "nothing is sent" and "the update is addressed by the original id" directly. Composite calls (upsert, create-and-set) pass the growing history on, so the second read of an upsert may see a different answer from the first.

Go's `error` results are `Option<Error>` or `Result<T, Error>`. A `log.Panic`, or the index panic of `Services[0]`, is the error value `Panic(reason)`: the call does not return normally.

JSON text follows the compact output of Go 1.22's `encoding/json`, which writes backspace and form feed as `\b` and `\f`.

### Which encoder runs

`Device.MarshalJSON` has a pointer receiver.
- `CreateDevices` marshals the elements of a slice, which are addressable, so the custom encoder runs (`DevicesBody`). An `ExplicitAttrs` that is not a string or a bool makes `json.Marshal` fail, and the call panics before any request.
- `UpdateDevice` marshals a `Device` value. The custom encoder is not called there, so the payload is the plain struct encoding (`PlainFields`):
  - `explicitAttrs` is dropped only when nil;
  - `""` is sent as `""`;
  - the string `"true"` stays a string (`Devices.UpdatePayloadKeepsString`).

### Where the model follows the code

- `ReadDevice` tests a stale `err` after decoding (iota-device.go:88-90), so that panic never fires. A 200 whose body does not decode gives the zero Device, and the model does the same.
- The message texts keep the source's spelling: "Error while eding response body ", "Error healtchecking IoT-Agent, host: ". The wrap prefixes differ between calls:
  - "Error while getting service: " for reads and `DeleteDevice`;
  - "Error while requesting resource " for writes and `DeleteConfigGroup`.
- An error body that does not decode is handled three ways:
  - the config-group calls report "Unexpected Error, is host H a IoT-Agent?";
  - `ReadDevice` and `ListDevices` panic;
  - `CreateDevices`, `UpdateDevice` and `DeleteDevice` ignore the decode error and return the zero `ApiError`.
  This is `Agent.Undecodable`.
- `DeleteConfigGroup` uses a fresh `http.Client{}`, so its request has no timeout. `Healthcheck` uses `http.Get`: no timeout, no headers, and any status accepted.
- `NewIoTAgent` multiplies an int64 duration, which wraps for timeouts beyond about 292 years (`Agent.TimeoutWraps`).

## Model

| member | source | states |
|---|---|---|
| Types.Absent | iota-config-group.go:28-34 | the absent names: none exactly when every field is present, and a name is listed exactly when some check for it fails |
| Types.AbsentAppend | iota-config-group.go:28-34 | the names absent from two runs of checks are those of the first run followed by those of the second, so the names keep check order |
| Types.ValidationOf | iota-config-group.go:36-40 | nil exactly when every mandatory field is present; otherwise every absent name under the message "Missing fields" |
| Types.FirstInvalidSpec | iota-config-group.go:161-166 | the first-failure search is nil exactly when every record validates, and otherwise returns the error of a record all of whose predecessors validate |
| Types.NormalizePadded | iota-types.go:150-152 | a string padded by white space normalises to its lower-cased core |
| Types.NormalizesToWord | iota-types.go:150-153 | a string normalises to "true" or "false" exactly when it is that word, in any case, between runs of white space |
| Types.TabTrimIsRedundant | iota-types.go:151-152 | the tab trim after TrimSpace never removes anything |
| Types.Trim | iota-types.go:151-152 | the trimmed string is a run of the input, starting after the leading cut characters |
| Types.Normalize | iota-types.go:150-152 | the normalised string is no longer than the input and holds no upper-case letter |
| Types.EncodeStructEmpty | iota-types.go:124-144 | a struct encodes to no members exactly when every field is an omitempty field holding an empty value |
| Types.EncodeStructKeys | iota-types.go:124-144 | a key is written exactly when some field with that tag is not omitted |
| Types.EncodeStructLookup | iota-types.go:124-144 | the first member under an emitted field's tag holds that field's value; with the distinct tags of every SDK record, this is the value a decoder reads |
| Types.EncodeStructPresence | iota-types.go:124-144 | with distinct tags, a field's key is present exactly when the field is not omitted |
| Types.ConfigGroupKeepsResource | iota-types.go:98 | the encoding of every config group carries "resource" with its value |
| Types.ConfigGroupKeepsApikey | iota-types.go:99 | the encoding of every config group carries "apikey" with its value |
| Types.ConfigGroupNeverEmpty | iota-types.go:95-117 | no config group encodes to the text `{}` |
| Types.EncodeConfigGroup | iota-types.go:95-117 | a config group encodes as a JSON object with at most one member per field |
| Types.AliasFieldsTags | iota-types.go:124-144 | the embedded Alias's tags are distinct and none is explicitAttrs, so the wrapper's field shadows the Alias's own |
| Types.PlainFieldsTags | iota-types.go:124-144 | the plain Device encoding has distinct tags, with explicitAttrs in its declared place |
| Types.EncodeDevicePlain | iota-types.go:124-144 | the standard Device encoding is a JSON object with at most one member per field |
| Types.PlainExplicitAttrs | iota-types.go:141 | the standard encoding writes explicitAttrs exactly when it is not nil, as its dynamic value, so a string stays a string |
| Types.MarshalDevice | iota-types.go:146-182 | MarshalJSON fails exactly when ExplicitAttrs is neither a string nor a bool, with the type error; otherwise it gives a JSON object with at most one member more than the Alias has fields |
| Types.MarshalDeviceShape | iota-types.go:146-182 | MarshalJSON succeeds exactly for a string or a bool; its output is the Alias's members, preceded by at most one explicitAttrs member |
| Types.MarshalExplicitAttrs | iota-types.go:154-177 | the explicitAttrs value read back is the wrapper field's value when that field is written, and absent otherwise |
| Types.MarshalBooleanString | iota-types.go:149-160 | a string that normalises to "true" or "false" is written as the boolean `normalised == "true"` |
| Types.MarshalVerbatimString | iota-types.go:163-169 | any other non-empty string is written as the original string, not its normalised form |
| Types.MarshalEmptyString | iota-types.go:163-169 | an empty string drops the key and leaves exactly the Alias's members |
| Types.MarshalWhitespaceString | iota-types.go:149-169 | a white-space-only string normalises to "" but is written verbatim, since omission tests the original |
| Types.MarshalBool | iota-types.go:170-177 | a Go bool is written as itself, false included |
| Types.MarshalOtherFails | iota-types.go:179-180 | nil and every other dynamic type fail with "ExplicitAttrs must be a string or a bool" |
| Types.MarshalDeviceField | iota-types.go:124-144 | every other Device field is present exactly when not omitted, and then with its own value |
| Types.EmptyDeviceIsEmptyObject | iota-types.go:163-169 | a Device with every field empty and ExplicitAttrs "" encodes to the text `{}` |
| Types.TestCaseBoolean | iota-types_test.go:36-113 | a padded boolean word encodes as the text `{"explicitAttrs":true}` or `{"explicitAttrs":false}` |
| Types.BooleanFixtures | iota-types_test.go:36-113 | the fixtures "true", "false" and " True\t " are padded boolean words |
| Types.TestCaseBool | iota-types_test.go:114-139 | a Go bool encodes as the text `{"explicitAttrs":b}` |
| Types.TestCaseVerbatim | iota-types_test.go:140-165 | a non-boolean string encodes as `{"explicitAttrs":` + its quoted text + `}` |
| Types.VerbatimFixture | iota-types_test.go:140-165 | the fixture "test" normalises to itself and is quoted as `"test"` |
| Types.TestCaseEmpty | iota-types_test.go:166-191 | the empty string encodes as the text `{}` |
| Types.TestCaseNumber | iota-types_test.go:192-217 | a number fails with the type error |
| Json.Render | iota-config-group.go:216-220 | the compact text is never empty; an object is written between braces, an array between brackets, and a string starts with a quote |
| Json.RenderIsEmptyObject | iota-config-group.go:220 | the text `{}` is exactly the rendering of the object with no members |
| Agent.Wrap64 | iota-sdk.go:44 | the result lies in the int64 range and agrees with the input modulo 2^64 |
| Agent.MillisToDuration | iota-sdk.go:44 | the duration agrees with ms × 1,000,000 modulo 2^64, and equals it when it fits in int64 |
| Agent.NewIoTAgent | iota-sdk.go:40-48 | host and port are kept; the client's timeout equals the handle's; without overflow it is timeout_ms milliseconds |
| Agent.NewIoTAgentClient | iota-sdk.go:40-48 | the client the calls use carries the converted timeout |
| Agent.ClientOf | iota-sdk.go:118-124 | the handle's client when it has one, otherwise a client with the handle's timeout |
| Agent.TimeoutWraps | iota-sdk.go:44 | a large enough timeout wraps to a negative duration |
| Agent.DecodeApiError | iota-config-group.go:80-84 | decoding into ApiError fails exactly on a body json.Unmarshal rejects; an error body gives its ApiError; any other accepted body (`null`, `{}`, a groups, device or health body) gives the zero ApiError |
| Agent.DecodeGroups | iota-config-group.go:95 | a groups body gives its count and groups; a device list gives only the shared count; any other body gives zeros, since the decode error is ignored |
| Agent.DecodeDevices | iota-device.go:142 | a device list gives its count and devices; a group list gives only the shared count; any other body gives zeros |
| Agent.DecodeDevice | iota-device.go:87 | a device body gives that device; any other body gives the zero Device |
| Agent.DecodeHealth | iota-sdk.go:87 | a health body gives that record; any other body gives an empty libVersion |
| Agent.StatusError | iota-config-group.go:75-87 | an unreadable body gives the read error; an error body gives its ApiError; any other accepted body gives the zero ApiError; a rejected body gives the unexpected-host error, the panic or the zero ApiError, by the call's policy |
| Agent.PoliciesAgreeWhenDecoded | iota-device.go:177-185 | the three undecodable-body policies give the same error whenever json.Unmarshal accepts the body |
| Agent.Exchange | iota-config-group.go:184-202 | a response is delivered exactly when its status is the expected one; a transport error is wrapped under the call's prefix |
| Agent.ReadOutcome | iota-config-group.go:69-96 | a read succeeds exactly on 200 with a readable body, returning the decoded body; an unreadable success body is "Error while getting service: " + cause |
| Agent.WriteOutcome | iota-config-group.go:184-204 | a write returns nil exactly on its expected status |
| Agent.Healthcheck | iota-sdk.go:75-93 | one GET on /iot/about with no headers and no timeout; a success always has a non-empty libVersion |
| Agent.HealthyIffLibVersion | iota-sdk.go:82-92 | the health check succeeds exactly when a body is read whose libVersion is not empty, and returns that body |
| Agent.HealthcheckRejectsEmptyVersion | iota-sdk.go:88-90 | a decoded body with no libVersion is rejected, naming the host |
| Agent.HealthcheckIgnoresStatus | iota-sdk.go:76-87 | the status code plays no part: equal bodies give equal results |
| Agent.ApiErrorText | iota-sdk.go:25-27 | the text is the name, then ": ", then the message, each at its position |
| ConfigGroups.Validate | iota-config-group.go:27-41 | nil exactly when apikey and resource are both set; otherwise every missing name, "Apikey" before "Resource", under "Missing fields" |
| ConfigGroups.GroupValidationFields | iota-config-group.go:27-41 | the function the calls use has the same meaning as Validate |
| ConfigGroups.Join | iota-config-group.go:22-24 | no names give the empty text and one name gives itself |
| ConfigGroups.JoinAppend | iota-config-group.go:22-24 | joining two non-empty lists puts exactly one separator between their joins |
| ConfigGroups.MissingFieldsText | iota-config-group.go:22-24 | the text is "Error ", the message, ": [", the field names separated by single spaces, and "]", each at its position |
| ConfigGroups.OneFieldText | iota-config-group.go:22-24 | a validation error naming one field reads "Error Missing fields: [" + field + "]" |
| ConfigGroups.TwoFieldText | iota-config-group.go:22-24 | a validation error naming two fields reads "Error Missing fields: [" + first + " " + second + "]" |
| ConfigGroups.MissingApikeyText | iota-config-group.go:22-34 | a group with a resource but no apikey reads "Error Missing fields: [Apikey]" |
| ConfigGroups.MissingResourceText | iota-config-group.go:22-34 | a group with an apikey but no resource reads "Error Missing fields: [Resource]" |
| ConfigGroups.MissingBothText | iota-config-group.go:22-34 | a group with neither field reads "Error Missing fields: [Apikey Resource]" |
| ConfigGroups.GroupsBody | iota-config-group.go:167-171 | the creation body holds exactly the groups, in order, under "services" |
| ConfigGroups.GroupsBodyIdentifies | iota-config-group.go:167-171 | every group in the body carries its resource and apikey |
| ConfigGroups.ReadConfigGroup | iota-config-group.go:55-97 | one GET with the resource/apikey query and form content type; success exactly on 200 with a readable body; the error mapping otherwise |
| ConfigGroups.ListConfigGroups | iota-config-group.go:100-142 | one GET on the service; the same success and error rules |
| ConfigGroups.ConfigGroupExists | iota-config-group.go:145-151 | true exactly when the read succeeds with a positive count; it sends only that read |
| ConfigGroups.CreateConfigGroupsOutcome | iota-config-group.go:160-205 | nothing is sent exactly when some group is invalid, and then the first invalid group's error is returned; otherwise one POST of all groups, nil exactly on 201 |
| ConfigGroups.CreateConfigGroups | iota-config-group.go:160-205 | the validation loop with early return meets that outcome |
| ConfigGroups.CreateConfigGroup | iota-config-group.go:154-157 | the one-element case of create-many |
| ConfigGroups.CreateSingleGroup | iota-config-group.go:154-166 | a single group is rejected with its own validation error, or sent alone |
| ConfigGroups.UpdateConfigGroup | iota-config-group.go:208-253 | validation before any request; otherwise one PUT to the given resource and apikey, nil exactly on 204, since the `{}` short cut never fires |
| ConfigGroups.DeleteConfigGroup | iota-config-group.go:256-291 | one DELETE with no content type and no timeout; nil exactly on 204 |
| ConfigGroups.UpsertConfigGroup | iota-config-group.go:294-310 | the first request is the existence read by the group's own resource and apikey |
| ConfigGroups.UpsertConfigGroupBranches | iota-config-group.go:294-310 | an invalid group fails with its validation error after the read alone; a valid one is updated at its own resource and apikey when it exists and created otherwise, and that call's result, error or nil, is returned unchanged |
| ConfigGroups.CreateConfigGroupWSEOutcome | iota-config-group.go:313-334 | on any error the caller's group is unchanged |
| ConfigGroups.CreateConfigGroupWSESets | iota-config-group.go:318-333 | on success the group was created and read back with a non-zero count, and the caller's group is the first one read |
| ConfigGroups.CreateConfigGroupWSENoneFound | iota-config-group.go:328-330 | a read-back with count 0 gives "No service group created" and leaves the group unchanged |
| ConfigGroups.CreateConfigGroupWSEBranches | iota-config-group.go:313-334 | a failed create and a failed read-back are returned as they are; count 0 gives "No service group created"; a non-zero count with no groups is the index panic; in all of these the group is unchanged; a successful create and a read-back with groups succeed, and the caller's group becomes the first one read |
| ConfigGroups.CreateConfigGroupWSE | iota-config-group.go:313-334 | a nil reference fails before any request; otherwise the result and the new group are that outcome |
| Devices.Validate | iota-device.go:33-44 | nil exactly when the id is set; otherwise exactly ["Id"] under "Missing fields" |
| Devices.DeviceValidationFields | iota-device.go:33-44 | the function the calls use has the same meaning as Validate |
| Devices.MissingIdText | iota-device.go:33-44 | a device without an id reads "Error Missing fields: [Id]" |
| Devices.ReadDevice | iota-device.go:47-92 | one GET on the device path; success exactly on 200 with a readable body, giving the decoded device; the error mapping otherwise |
| Devices.ReadDevicePanics | iota-device.go:68-79 | the read panics exactly on an error status whose body json.Unmarshal rejects |
| Devices.DeviceExists | iota-device.go:95-101 | true exactly when the read succeeds; false on every returned error; only the read's panic escapes |
| Devices.ListDevices | iota-device.go:104-144 | one GET on /iot/devices; the read's success and error rules |
| Devices.DevicesBody | iota-device.go:154-161 | the creation body exists exactly when every device's custom encoding succeeds, and then holds those encodings in order |
| Devices.CreateDevicesOutcome | iota-device.go:147-188 | a request goes out exactly when every device is valid and encodable. Otherwise the first invalid device's error or a panic is returned, with nothing sent. When it goes out, it is one POST of all the devices, nil exactly on 201 |
| Devices.CreateDevicesValidatesAll | iota-device.go:147-153 | a request goes out only if every device has an id; a device without one gives the error ["Id"] and nothing is sent |
| Devices.CreateDevicesUnsupportedExplicitAttrs | iota-device.go:158-161 | valid devices with an unset or non-string, non-bool ExplicitAttrs panic with nothing sent |
| Devices.CreateDevicesZeroApiError | iota-device.go:177-185 | an error status with an undecodable body gives the zero ApiError |
| Devices.CreateDevices | iota-device.go:147-188 | the validation loop with early return meets that outcome |
| Devices.CreateDevice | iota-device.go:191-194 | the one-element case of create-many |
| Devices.Cleared | iota-device.go:205-209 | id, transport, service and service path are empty; every other field is unchanged |
| Devices.UpdatePayload | iota-device.go:205-213 | the update payload is a JSON object; its keys are stated by the lemmas below |
| Devices.UpdateDeviceOutcome | iota-device.go:197-245 | a request goes out exactly when the device is valid and its payload is not `{}`; an invalid device gives its validation error with nothing sent. When it goes out, it is one PUT of the payload on the original id's path, nil exactly on 204 |
| Devices.UpdateDevice | iota-device.go:197-245 | the step-by-step clearing meets that outcome |
| Devices.UpdatePayloadHidesIdentity | iota-device.go:203-213 | the payload never carries device_id, service, service_path or transport |
| Devices.UpdatePayloadKeepsOthers | iota-device.go:205-213 | every other field of the payload follows its tag with the caller's value |
| Devices.UpdateSkipIff | iota-device.go:213-219 | the PUT is skipped exactly when every remaining field is an omitted empty value |
| Devices.UpdatePayloadKeepsString | iota-device.go:213 | the update payload carries a string ExplicitAttrs as that string: the custom encoder does not run |
| Devices.DeleteDevice | iota-device.go:248-279 | one DELETE on the device path; nil exactly on 204 |
| Devices.UpsertDevice | iota-device.go:282-309 | a missing device is created exactly as given; an existing one is read again, and fails on an empty entity name, or is updated with transport cleared and the server's entity name |
| Devices.UpsertUpdateAddressesCaller | iota-device.go:301-303 | the upserted update keeps the caller's id, passes validation, and differs from the caller's cleared copy only in the entity name |
| Devices.CreateDeviceWSEOutcome | iota-device.go:312-326 | on any error the caller's device is unchanged |
| Devices.CreateDeviceWSESets | iota-device.go:316-325 | on success the device was created and read back with 200, and the caller's device is the server's copy |
| Devices.CreateDeviceWSEBranches | iota-device.go:312-326 | a failed create and a failed read-back are returned as they are, with the device unchanged; a successful create and read-back succeed, and the caller's device becomes the server's copy |
| Devices.CreateDeviceWSE | iota-device.go:312-326 | a nil reference fails before any request; otherwise the result and the new device are that outcome |
| ServicePaths.GetAllServicePathsForService | iota-sdk.go:96-114 | lists under service path "/*"; listing errors propagate; count 0 gives nil; otherwise every group's service path exactly once, in first-occurrence order, never more than the groups |

## Left out

- URL building is not modelled: the `fmt.Sprintf` templates, `url.PathEscape`, the query string and `url.JoinPath`. A request names its target abstractly (`Target`).
- The errors of `http.NewRequest` and `url.JoinPath` are not modelled. Building a request from a host and a port is taken to succeed.
- Headers are recorded only as the fiware-service pair and the Content-Type; the transport's own headers are not.
- JSON is an abstract tree.
  - Numbers are integers only.
  - Go sorts map keys when encoding; the metadata maps are kept in the given order.
  - A nil slice and an empty one are the same value, so the `null` a nil `services` or `devices` list would give is not modelled.
- Decoding is reduced to the payload kinds the SDK distinguishes (`Payload`). Case-insensitive key matching and the partial fill on a type mismatch are not modelled.
- The `Could not Marshal struct` panics after `json.Marshal` of a config-group body or an update payload are not modelled (iota-config-group.go:171-174 and 216-219, iota-device.go:213-216). They need a value encoding/json cannot encode in an `any` field, such as a static attribute value or `internalAttributes`. Every model `Value` encodes, so these panics cannot arise in the model. The panic of `CreateDevices` on an ExplicitAttrs of the wrong type is modelled.
- `strings.ToLower` and `strings.TrimSpace` are modelled on ASCII only.
- Logging, `init`, the LOG_LEVEL variable and `SetLogLevel` (with its `log.Fatal`) are not modelled. A `log.Panic` is the error value `Panic`, not a process exit.
- `Client()` lazily creates a client that is never kept, because the receiver is a value. `ClientOf` computes that client.
- main_test.go is integration set-up against a live agent and is not part of this model.
- Time, the network and concurrency are the `Server` parameter.
- Types.EncodeStruct: its own contract is only a length bound; what it writes is stated by the EncodeStruct lemmas.
- ConfigGroups.UpsertConfigGroup: its own contract states only the first request. ConfigGroups.UpsertConfigGroupBranches states the requests and the result of each branch.
- Types.EncodeConfigGroup: its own contract gives only the shape; Types.ConfigGroupKeepsResource and Types.ConfigGroupKeepsApikey state the members it must write.
- Types.EncodeDevicePlain: its own contract gives only the shape; Types.PlainExplicitAttrs states its explicitAttrs member.
- Devices.UpdatePayload: its own contract gives only the shape; Devices.UpdatePayloadHidesIdentity, Devices.UpdatePayloadKeepsOthers and Devices.UpdatePayloadKeepsString state its members.

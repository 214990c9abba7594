/** The configuration-group (service group) operations of iota-config-group.go:
    validation, read, list, existence, create, update, delete, upsert, and
    create-and-set. */
module ConfigGroups {
  import opened Wrappers
  import opened Json
  import opened Types
  import opened Agent

  // ---------------------------------------------------------------------
  // Validation

  /** The mandatory fields of a config group, in the order Validate checks
      them. */
  function GroupChecks(g: ConfigGroup): seq<Mandatory> {
    [Mandatory("Apikey", g.apikey != ""), Mandatory("Resource", g.resource != "")]
  }

  function GroupValidation(g: ConfigGroup): Option<MissingFields> {
    ValidationOf(GroupChecks(g))
  }

  /** The fields a config group misses, in the order they are pushed. */
  function MissingGroupFields(g: ConfigGroup): seq<string> {
    (if g.apikey == "" then ["Apikey"] else []) + (if g.resource == "" then ["Resource"] else [])
  }

  lemma GroupAbsent(g: ConfigGroup)
    ensures Absent(GroupChecks(g)) == MissingGroupFields(g)
  {
    var cs := GroupChecks(g);
    assert cs[1..][1..] == [];
    assert Absent(cs[1..]) == (if g.resource == "" then ["Resource"] else []) + Absent(cs[1..][1..]);
  }

  /** Validate: nil exactly when both apikey and resource are set; otherwise
      the missing ones, apikey first. */
  method Validate(g: ConfigGroup) returns (err: Option<MissingFields>)
    ensures err == GroupValidation(g)
    ensures err.None? <==> g.apikey != "" && g.resource != ""
    ensures err.Some? ==> err.value == MissingFields(MissingGroupFields(g), MissingFieldsMessage)
  {
    var fields: seq<string> := [];
    if g.apikey == "" {
      fields := fields + ["Apikey"];
    }
    if g.resource == "" {
      fields := fields + ["Resource"];
    }
    if |fields| == 0 {
      err := None;
    } else {
      err := Some(MissingFields(fields, MissingFieldsMessage));
    }
    assert fields == MissingGroupFields(g);
    GroupAbsent(g);
  }

  /** The specification Validate meets, stated on the function the other
      operations use. */
  lemma GroupValidationFields(g: ConfigGroup)
    ensures GroupValidation(g).None? <==> g.apikey != "" && g.resource != ""
    ensures GroupValidation(g).Some? ==>
      GroupValidation(g).value == MissingFields(MissingGroupFields(g), MissingFieldsMessage)
  {
    GroupAbsent(g);
  }

  /** The elements of a string list joined by a separator, as fmt's `%s`
      writes a []string between its brackets. */
  function Join(xs: seq<string>, sep: string): (r: string)
    ensures xs == [] ==> r == ""
    ensures |xs| == 1 ==> r == xs[0]
  {
    if xs == [] then ""
    else if |xs| == 1 then xs[0]
    else xs[0] + sep + Join(xs[1..], sep)
  }

  /** Joining two non-empty lists puts one separator between their joins. */
  lemma {:induction false} JoinAppend(xs: seq<string>, ys: seq<string>, sep: string)
    requires xs != [] && ys != []
    ensures Join(xs + ys, sep) == Join(xs, sep) + sep + Join(ys, sep)
  {
    assert (xs + ys)[0] == xs[0];
    if |xs| == 1 {
      assert (xs + ys)[1..] == ys;
    } else {
      assert (xs + ys)[1..] == xs[1..] + ys;
      JoinAppend(xs[1..], ys, sep);
    }
  }

  /** MissingFields.Error: the message and the fields as `[a b]`. */
  function MissingFieldsText(m: MissingFields): (t: string)
    ensures |t| >= 10 + |m.message|
    ensures t[..6] == "Error " && t[6..6 + |m.message|] == m.message
    ensures t[6 + |m.message|..9 + |m.message|] == ": [" && t[|t| - 1] == ']'
    ensures t[9 + |m.message|..|t| - 1] == Join(m.fields, " ")
  {
    "Error " + m.message + ": [" + Join(m.fields, " ") + "]"
  }

  /** The text of a validation error that names one field. */
  lemma OneFieldText(f: string, m: MissingFields)
    requires m == MissingFields([f], MissingFieldsMessage)
    ensures MissingFieldsText(m) == "Error Missing fields: [" + f + "]"
  {
  }

  /** The text of a validation error that names two fields. */
  lemma TwoFieldText(f: string, h: string, m: MissingFields)
    requires m == MissingFields([f, h], MissingFieldsMessage)
    ensures MissingFieldsText(m) == "Error Missing fields: [" + f + " " + h + "]"
  {
    assert m.fields[1..] == [h];
  }

  /** A group with a resource but no apikey is reported with "Apikey" alone. */
  lemma MissingApikeyText(g: ConfigGroup)
    requires g.apikey == "" && g.resource != ""
    ensures GroupValidation(g).Some?
    ensures MissingFieldsText(GroupValidation(g).value) == "Error Missing fields: [Apikey]"
  {
    GroupValidationFields(g);
    OneFieldText("Apikey", GroupValidation(g).value);
  }

  /** A group with an apikey but no resource is reported with "Resource" alone. */
  lemma MissingResourceText(g: ConfigGroup)
    requires g.apikey != "" && g.resource == ""
    ensures GroupValidation(g).Some?
    ensures MissingFieldsText(GroupValidation(g).value) == "Error Missing fields: [Resource]"
  {
    GroupValidationFields(g);
    OneFieldText("Resource", GroupValidation(g).value);
  }

  /** A group with neither apikey nor resource is reported with both names. */
  lemma MissingBothText(g: ConfigGroup)
    requires g.apikey == "" && g.resource == ""
    ensures GroupValidation(g).Some?
    ensures MissingFieldsText(GroupValidation(g).value) == "Error Missing fields: [Apikey Resource]"
  {
    GroupValidationFields(g);
    TwoFieldText("Apikey", "Resource", GroupValidation(g).value);
  }

  // ---------------------------------------------------------------------
  // Requests

  /** The GET on /iot/services?resource=..&apikey=.. that ReadConfigGroup sends. */
  function ReadGroupRequest(a: IoTA, fs: FiwareService, r: string, k: string): Request {
    Request(Get, a.host, a.port, ServicesFor(r, k), Some(fs), Some(FormContentType), None, ClientOf(a).timeout)
  }

  function ListGroupsRequest(a: IoTA, fs: FiwareService): Request {
    Request(Get, a.host, a.port, Services, Some(fs), Some(FormContentType), None, ClientOf(a).timeout)
  }

  /** ReqCreateConfigGroup: the groups, in order, under "services". */
  function GroupsBody(gs: seq<ConfigGroup>): (v: Value)
    ensures v.JObject? && |v.members| == 1 && v.members[0].key == "services"
    ensures v.members[0].value.JArray? && |v.members[0].value.items| == |gs|
    ensures forall i :: 0 <= i < |gs| ==> v.members[0].value.items[i] == EncodeConfigGroup(gs[i])
  {
    JObject([Member("services", JArray(seq(|gs|, i requires 0 <= i < |gs| => EncodeConfigGroup(gs[i]))))])
  }

  /** Every group in a creation body is identified by the resource and
      apikey it was validated with. */
  lemma GroupsBodyIdentifies(gs: seq<ConfigGroup>, i: nat)
    requires i < |gs|
    ensures var item := GroupsBody(gs).members[0].value.items[i];
      item.JObject?
      && Lookup(item.members, "resource") == Some(JString(gs[i].resource))
      && Lookup(item.members, "apikey") == Some(JString(gs[i].apikey))
  {
    ConfigGroupKeepsResource(gs[i]);
    ConfigGroupKeepsApikey(gs[i]);
  }

  function CreateGroupsRequest(a: IoTA, fs: FiwareService, gs: seq<ConfigGroup>): Request {
    Request(Post, a.host, a.port, Services, Some(fs), Some(JsonContentType), Some(GroupsBody(gs)), ClientOf(a).timeout)
  }

  function UpdateGroupRequest(a: IoTA, fs: FiwareService, r: string, k: string, g: ConfigGroup): Request {
    Request(Put, a.host, a.port, ServicesFor(r, k), Some(fs), Some(JsonContentType), Some(EncodeConfigGroup(g)), ClientOf(a).timeout)
  }

  /** DeleteConfigGroup builds its own http.Client{}: no timeout, and no
      Content-Type. */
  function DeleteGroupRequest(a: IoTA, fs: FiwareService, r: string, k: string): Request {
    Request(Delete, a.host, a.port, ServicesFor(r, k), Some(fs), None, None, 0)
  }

  // ---------------------------------------------------------------------
  // Reads

  /** ReadConfigGroup: one GET; a 200 with a readable body gives the decoded
      response; any other status gives the agent's error. */
  function ReadConfigGroup(a: IoTA, server: Server, history: seq<Request>, fs: FiwareService, r: string, k: string)
    : (c: Call<Result<RespReadConfigGroup, Error>>)
    ensures c.sent == [ReadGroupRequest(a, fs, r, k)]
    ensures var reply := server(history, c.sent[0]);
      (c.result.Ok? <==> reply.Response? && reply.status == StatusOK && reply.body.Bytes?)
      && (c.result.Ok? ==> c.result.value == DecodeGroups(reply.body.payload))
      && (reply.DoFailed? ==> c.result == Err(Failure(GettingService + reply.cause)))
      && (reply.Response? && reply.status != StatusOK ==>
            c.result == Err(StatusError(a.host, reply.body, Unexpected)))
  {
    var req := ReadGroupRequest(a, fs, r, k);
    Call(ReadOutcome(a.host, server(history, req), Unexpected, DecodeGroups), [req])
  }

  /** ListConfigGroups: as ReadConfigGroup, on the whole service. */
  function ListConfigGroups(a: IoTA, server: Server, history: seq<Request>, fs: FiwareService)
    : (c: Call<Result<RespReadConfigGroup, Error>>)
    ensures c.sent == [ListGroupsRequest(a, fs)]
    ensures var reply := server(history, c.sent[0]);
      (c.result.Ok? <==> reply.Response? && reply.status == StatusOK && reply.body.Bytes?)
      && (c.result.Ok? ==> c.result.value == DecodeGroups(reply.body.payload))
      && (reply.DoFailed? ==> c.result == Err(Failure(GettingService + reply.cause)))
      && (reply.Response? && reply.status != StatusOK ==>
            c.result == Err(StatusError(a.host, reply.body, Unexpected)))
  {
    var req := ListGroupsRequest(a, fs);
    Call(ReadOutcome(a.host, server(history, req), Unexpected, DecodeGroups), [req])
  }

  /** ConfigGroupExists: true exactly when the read succeeds with a
      positive count; every error reads as "does not exist". */
  function ConfigGroupExists(a: IoTA, server: Server, history: seq<Request>, fs: FiwareService, r: string, k: string)
    : (c: Call<bool>)
    ensures c.sent == ReadConfigGroup(a, server, history, fs, r, k).sent
    ensures var read := ReadConfigGroup(a, server, history, fs, r, k).result;
      c.result <==> read.Ok? && read.value.count > 0
  {
    var read := ReadConfigGroup(a, server, history, fs, r, k);
    Call(read.result.Ok? && read.result.value.count > 0, read.sent)
  }

  // ---------------------------------------------------------------------
  // Create

  /** What CreateConfigGroups does: every group is validated before
      anything is sent; then one POST carrying all of them, which succeeds
      on 201. */
  function CreateConfigGroupsOutcome(a: IoTA, server: Server, history: seq<Request>, fs: FiwareService, gs: seq<ConfigGroup>)
    : (c: Call<Option<Error>>)
    ensures c.sent == [] <==> exists i :: 0 <= i < |gs| && GroupValidation(gs[i]).Some?
    ensures FirstInvalid(gs, GroupValidation).Some? ==> c.result == Some(MissingFieldsError(FirstInvalid(gs, GroupValidation).value))
    ensures c.sent != [] ==> (c.sent == [CreateGroupsRequest(a, fs, gs)]
      && var reply := server(history, c.sent[0]);
      (c.result.None? <==> reply.Response? && reply.status == StatusCreated)
      && (reply.DoFailed? ==> c.result == Some(Failure(RequestingResource + reply.cause)))
      && (reply.Response? && reply.status != StatusCreated ==>
            c.result == Some(StatusError(a.host, reply.body, Unexpected))))
  {
    FirstInvalidSpec(gs, GroupValidation);
    match FirstInvalid(gs, GroupValidation)
    case Some(m) => Call(Some(MissingFieldsError(m)), [])
    case None =>
      var req := CreateGroupsRequest(a, fs, gs);
      Call(WriteOutcome(a.host, server(history, req), StatusCreated, RequestingResource, Unexpected), [req])
  }

  /** CreateConfigGroups: validates the groups one by one, stopping at the
      first failure, then sends them together. */
  method CreateConfigGroups(a: IoTA, server: Server, history: seq<Request>, fs: FiwareService, gs: seq<ConfigGroup>)
    returns (c: Call<Option<Error>>)
    ensures c == CreateConfigGroupsOutcome(a, server, history, fs, gs)
  {
    var i := 0;
    while i < |gs|
      invariant 0 <= i <= |gs|
      invariant FirstInvalid(gs[i..], GroupValidation) == FirstInvalid(gs, GroupValidation)
    {
      var err := Validate(gs[i]);
      if err.Some? {
        return Call(Some(MissingFieldsError(err.value)), []);
      }
      assert gs[i..][1..] == gs[i + 1..];
      i := i + 1;
    }
    var req := CreateGroupsRequest(a, fs, gs);
    c := Call(WriteOutcome(a.host, server(history, req), StatusCreated, RequestingResource, Unexpected), [req]);
  }

  /** CreateConfigGroup: the one-element case of CreateConfigGroups. */
  method CreateConfigGroup(a: IoTA, server: Server, history: seq<Request>, fs: FiwareService, g: ConfigGroup)
    returns (c: Call<Option<Error>>)
    ensures c == CreateConfigGroupsOutcome(a, server, history, fs, [g])
  {
    c := CreateConfigGroups(a, server, history, fs, [g]);
  }

  /** A single group is sent exactly when it validates. */
  lemma {:induction false} CreateSingleGroup(a: IoTA, server: Server, history: seq<Request>, fs: FiwareService, g: ConfigGroup)
    ensures var c := CreateConfigGroupsOutcome(a, server, history, fs, [g]);
      (GroupValidation(g).Some? ==> c == Call(Some(MissingFieldsError(GroupValidation(g).value)), []))
      && (GroupValidation(g).None? ==> c.sent == [CreateGroupsRequest(a, fs, [g])])
  {
    assert [g][1..] == [];
    assert FirstInvalid([g], GroupValidation) == GroupValidation(g);
  }

  // ---------------------------------------------------------------------
  // Update and delete

  /** UpdateConfigGroup: validation first, then one PUT of the encoded group
      to the given resource and apikey, which succeeds on 204. The encoding
      always keeps resource and apikey, so the `{}` short cut never fires. */
  function UpdateConfigGroup(a: IoTA, server: Server, history: seq<Request>, fs: FiwareService, r: string, k: string, g: ConfigGroup)
    : (c: Call<Option<Error>>)
    ensures GroupValidation(g).Some? ==> c == Call(Some(MissingFieldsError(GroupValidation(g).value)), [])
    ensures GroupValidation(g).None? ==> (c.sent == [UpdateGroupRequest(a, fs, r, k, g)]
      && var reply := server(history, c.sent[0]);
      (c.result.None? <==> reply.Response? && reply.status == StatusNoContent)
      && (reply.DoFailed? ==> c.result == Some(Failure(RequestingResource + reply.cause)))
      && (reply.Response? && reply.status != StatusNoContent ==>
            c.result == Some(StatusError(a.host, reply.body, Unexpected))))
  {
    match GroupValidation(g)
    case Some(m) => Call(Some(MissingFieldsError(m)), [])
    case None =>
      ConfigGroupNeverEmpty(g);
      if Render(EncodeConfigGroup(g)) == "{}" then Call(None, [])
      else
        var req := UpdateGroupRequest(a, fs, r, k, g);
        Call(WriteOutcome(a.host, server(history, req), StatusNoContent, RequestingResource, Unexpected), [req])
  }

  /** DeleteConfigGroup: one DELETE, which succeeds on 204. */
  function DeleteConfigGroup(a: IoTA, server: Server, history: seq<Request>, fs: FiwareService, r: string, k: string)
    : (c: Call<Option<Error>>)
    ensures c.sent == [DeleteGroupRequest(a, fs, r, k)]
    ensures var reply := server(history, c.sent[0]);
      (c.result.None? <==> reply.Response? && reply.status == StatusNoContent)
      && (reply.DoFailed? ==> c.result == Some(Failure(RequestingResource + reply.cause)))
      && (reply.Response? && reply.status != StatusNoContent ==>
            c.result == Some(StatusError(a.host, reply.body, Unexpected)))
  {
    var req := DeleteGroupRequest(a, fs, r, k);
    Call(WriteOutcome(a.host, server(history, req), StatusNoContent, RequestingResource, Unexpected), [req])
  }

  // ---------------------------------------------------------------------
  // Upsert

  /** UpsertConfigGroup: an existence read, then a create or an update
      addressed by the group's own resource and apikey. */
  function UpsertConfigGroup(a: IoTA, server: Server, history: seq<Request>, fs: FiwareService, g: ConfigGroup)
    : (c: Call<Option<Error>>)
    ensures |c.sent| >= 1 && c.sent[0] == ReadGroupRequest(a, fs, g.resource, g.apikey)
  {
    var e := ConfigGroupExists(a, server, history, fs, g.resource, g.apikey);
    var next :=
      if e.result then UpdateConfigGroup(a, server, history + e.sent, fs, g.resource, g.apikey, g)
      else CreateConfigGroupsOutcome(a, server, history + e.sent, fs, [g]);
    Call(next.result, e.sent + next.sent)
  }

  /** A valid group is updated when the read finds it and created
      otherwise, and the result of that update or create is returned as is;
      an invalid one is rejected after the read alone. */
  lemma UpsertConfigGroupBranches(a: IoTA, server: Server, history: seq<Request>, fs: FiwareService, g: ConfigGroup)
    ensures var e := ConfigGroupExists(a, server, history, fs, g.resource, g.apikey);
      var c := UpsertConfigGroup(a, server, history, fs, g);
      (GroupValidation(g).Some? ==>
        c == Call(Some(MissingFieldsError(GroupValidation(g).value)), e.sent))
      && (GroupValidation(g).None? && e.result ==>
        c == Call(UpdateConfigGroup(a, server, history + e.sent, fs, g.resource, g.apikey, g).result,
                  e.sent + [UpdateGroupRequest(a, fs, g.resource, g.apikey, g)]))
      && (GroupValidation(g).None? && !e.result ==>
        c == Call(CreateConfigGroupsOutcome(a, server, history + e.sent, fs, [g]).result,
                  e.sent + [CreateGroupsRequest(a, fs, [g])]))
  {
    var e := ConfigGroupExists(a, server, history, fs, g.resource, g.apikey);
    CreateSingleGroup(a, server, history + e.sent, fs, g);
  }

  // ---------------------------------------------------------------------
  // Create and set

  /** A caller's *ConfigGroup. */
  class GroupRef {
    var value: ConfigGroup

    constructor(g: ConfigGroup)
      ensures value == g
    {
      value := g;
    }
  }

  const NilGroupRef := "Service group reference cannot be nil"
  const NoGroupCreated := "No service group created"
  /** The runtime panic of indexing an empty slice. */
  const IndexOutOfRange := "index out of range"

  /** What CreateConfigGroupWSE returns and leaves in the caller's group:
      create it, read it back by its resource and apikey, and take the first
      group found. */
  function CreateConfigGroupWSEOutcome(a: IoTA, server: Server, history: seq<Request>, fs: FiwareService, g: ConfigGroup)
    : (r: (Call<Option<Error>>, ConfigGroup))
    ensures r.0.result.Some? ==> r.1 == g
  {
    var cr := CreateConfigGroupsOutcome(a, server, history, fs, [g]);
    if cr.result.Some? then (cr, g)
    else
      var rd := ReadConfigGroup(a, server, history + cr.sent, fs, g.resource, g.apikey);
      var sent := cr.sent + rd.sent;
      match rd.result
      case Err(e) => (Call(Some(e), sent), g)
      case Ok(resp) =>
        if resp.count == 0 then (Call(Some(Failure(NoGroupCreated)), sent), g)
        else if |resp.services| == 0 then (Call(Some(Panic(IndexOutOfRange)), sent), g)
        else (Call(None, sent), resp.services[0])
  }

  /** On success the group was created, read back with a positive count, and
      replaced by the first group of that read. */
  lemma CreateConfigGroupWSESets(a: IoTA, server: Server, history: seq<Request>, fs: FiwareService, g: ConfigGroup)
    requires CreateConfigGroupWSEOutcome(a, server, history, fs, g).0.result.None?
    ensures var r := CreateConfigGroupWSEOutcome(a, server, history, fs, g);
      var create := CreateConfigGroupsOutcome(a, server, history, fs, [g]);
      var read := ReadConfigGroup(a, server, history + create.sent, fs, g.resource, g.apikey);
      create.result.None? && read.result.Ok? && read.result.value.count != 0
      && |read.result.value.services| > 0 && r.1 == read.result.value.services[0]
      && r.0.sent == create.sent + [ReadGroupRequest(a, fs, g.resource, g.apikey)]
  {
  }

  /** A read-back with a zero count is reported, leaving the group as it was. */
  lemma CreateConfigGroupWSENoneFound(a: IoTA, server: Server, history: seq<Request>, fs: FiwareService, g: ConfigGroup)
    requires CreateConfigGroupsOutcome(a, server, history, fs, [g]).result.None?
    requires var create := CreateConfigGroupsOutcome(a, server, history, fs, [g]);
      var read := ReadConfigGroup(a, server, history + create.sent, fs, g.resource, g.apikey);
      read.result.Ok? && read.result.value.count == 0
    ensures CreateConfigGroupWSEOutcome(a, server, history, fs, g).0.result == Some(Failure(NoGroupCreated))
    ensures CreateConfigGroupWSEOutcome(a, server, history, fs, g).1 == g
  {
  }

  /** Every branch of create-and-set: a failed create is returned as is,
      before any read; a failed read-back is returned as is; a count of 0 is
      "No service group created"; a non-zero count with an empty list is the
      index panic of Services[0]; in all of these the caller's group stays as
      it was. A create and a read-back with a non-zero count and a group make
      the call succeed with the first group read. */
  lemma CreateConfigGroupWSEBranches(a: IoTA, server: Server, history: seq<Request>, fs: FiwareService, g: ConfigGroup)
    ensures var r := CreateConfigGroupWSEOutcome(a, server, history, fs, g);
      var create := CreateConfigGroupsOutcome(a, server, history, fs, [g]);
      var read := ReadConfigGroup(a, server, history + create.sent, fs, g.resource, g.apikey);
      var sent := create.sent + read.sent;
      (create.result.Some? ==> r == (create, g))
      && (create.result.None? && read.result.Err? ==> r == (Call(Some(read.result.error), sent), g))
      && (create.result.None? && read.result.Ok? && read.result.value.count == 0 ==>
            r == (Call(Some(Failure(NoGroupCreated)), sent), g))
      && (create.result.None? && read.result.Ok? && read.result.value.count != 0
          && read.result.value.services == [] ==>
            r == (Call(Some(Panic(IndexOutOfRange)), sent), g))
      && (create.result.None? && read.result.Ok? && read.result.value.count != 0
          && read.result.value.services != [] ==>
            r == (Call(None, sent), read.result.value.services[0]))
  {
  }

  /** CreateConfigGroupWSE: a nil reference is refused before anything is
      sent; otherwise the referenced group is updated in place. */
  method CreateConfigGroupWSE(a: IoTA, server: Server, history: seq<Request>, fs: FiwareService, sg: GroupRef?)
    returns (c: Call<Option<Error>>)
    modifies sg
    ensures sg == null ==> c == Call(Some(Failure(NilGroupRef)), [])
    ensures sg != null ==> (c, sg.value) == CreateConfigGroupWSEOutcome(a, server, history, fs, old(sg.value))
  {
    if sg == null {
      return Call(Some(Failure(NilGroupRef)), []);
    }
    var g := sg.value;
    var cr := CreateConfigGroup(a, server, history, fs, g);
    if cr.result.Some? {
      return cr;
    }
    var rd := ReadConfigGroup(a, server, history + cr.sent, fs, g.resource, g.apikey);
    var sent := cr.sent + rd.sent;
    if rd.result.Err? {
      return Call(Some(rd.result.error), sent);
    }
    var resp := rd.result.value;
    if resp.count == 0 {
      return Call(Some(Failure(NoGroupCreated)), sent);
    }
    if |resp.services| == 0 {
      return Call(Some(Panic(IndexOutOfRange)), sent);
    }
    sg.value := resp.services[0];
    c := Call(None, sent);
  }
}

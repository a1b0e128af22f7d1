/** The webhook handlers of netprox/backend.py. Each handler is split in two:
    a function that runs the source's chain of checks on the request and
    decides what to do (the plan), and a method that carries the plan out
    against the remote systems and returns the response. */
module Backend {
  import opened Values
  import opened Upstream
  import opened Core

  /** The parts of a Flask request the handlers read: the decoded JSON body,
      the headers, the raw body bytes and the query values. */
  datatype Request = Request(json: Json, headers: map<string, string>, data: seq<bv8>,
                             values: map<string, string>)

  /** What a handler gives back to Flask. `Bare` is a value returned on its
      own, without a status code; the two views stand for the rendered
      `error.html` and `success.html`; `Failed` is an exception that escaped. */
  datatype Response =
    | Text(message: string, code: int)
    | Payload(body: map<string, Json>, code: int)
    | Bare(value: Json)
    | ErrorView(message: string)
    | SuccessView(proxmoxUrl: Json, result: Json)
    | Failed(fault: Fault)

  const SignatureHeader: string := "X-Hook-Signature"
  const SecretVariable: string := "NETBOX_WEBHOOK_SECRET"
  const NotAnEvent: Response := Text("not a delete event", 401)
  const SignatureMissing: Response := Text("signature missing", 401)
  const SignatureInvalid: Response := Text("signature not valid", 401)
  const OfflineReply: Response := Text("VM marked as Offline, Proxmox stopped the VM", 200)
  const ActiveReply: Response := Text("VM marked as Active, Proxmox is starting the VM", 200)
  const DeletedReply: Response := Payload(map["message" := Str("ok")], 200)
  const SameVmMessage: string := "VM with the same name and ID exists already!"
  const MissingDataMessage: string := "Not all data to create the VM are provided."
  const PlannedMessage: string := "Status of the VM is Planned. VM will not be created in Proxmox"
  const TagColor: string := "8bc34a"

  // ---------------------------------------------------------------- signature

  /** `_check_signature`: the hex digest of HMAC-SHA512 (RFC 2104 over the
      SHA-512 of FIPS 180-4) of the message under the key, compared with the
      signature as plain, case-sensitive string equality. */
  function CheckSignature(rt: Runtime, key: seq<bv8>, msg: seq<bv8>, signature: string): (ok: bool)
    ensures ok ==> |signature| == |rt.hmacSha512Hex(key, msg)|
    ensures signature == rt.hmacSha512Hex(key, msg) ==> ok
  {
    rt.hmacSha512Hex(key, msg) == signature
  }

  /** Exactly one signature passes for a given key and message: its digest. */
  lemma CheckSignatureExact(rt: Runtime, key: seq<bv8>, msg: seq<bv8>, signature: string)
    ensures CheckSignature(rt, key, msg, rt.hmacSha512Hex(key, msg))
    ensures signature != rt.hmacSha512Hex(key, msg) ==> !CheckSignature(rt, key, msg, signature)
  {
  }

  predicate IsLowerHex(s: string) {
    forall k :: 0 <= k < |s| ==> '0' <= s[k] <= '9' || 'a' <= s[k] <= 'f'
  }

  /** The digest is 128 lower-case hex digits, so a signature of another
      length, or one written with upper-case digits, never passes. */
  lemma MalformedSignatureRejected(rt: Runtime, key: seq<bv8>, msg: seq<bv8>, signature: string)
    requires |rt.hmacSha512Hex(key, msg)| == 128 && IsLowerHex(rt.hmacSha512Hex(key, msg))
    requires |signature| != 128 || exists k :: 0 <= k < |signature| && 'A' <= signature[k] <= 'F'
    ensures !CheckSignature(rt, key, msg, signature)
  {
  }

  // ---------------------------------------------------------- the two gates

  predicate HasSignature(req: Request)
    ensures HasSignature(req) <==> SignatureHeader in req.headers && Truthy(Str(req.headers[SignatureHeader]))
  {
    SignatureHeader in req.headers && req.headers[SignatureHeader] != ""
  }

  /** `r.get(key, default)` after a lookup that may already have failed. */
  function Then(r: Result<Json>, key: string, default: Json): (v: Result<Json>) {
    match r
    case Ok(v) => Get(v, key, default)
    case Err(f) => r
  }

  /** The checks that open both webhook handlers, in order: a truthy `event`
      field, then a non-empty signature header. None means both passed. */
  function EventGate(req: Request): (g: Option<Response>)
    ensures g.None? <==> req.json.Obj? && Truthy(At(req.json.fields, "event")) && HasSignature(req)
    ensures req.json.Obj? && !Truthy(At(req.json.fields, "event")) ==> g == Some(NotAnEvent)
    ensures req.json.Obj? && Truthy(At(req.json.fields, "event")) && !HasSignature(req) ==>
              g == Some(SignatureMissing)
  {
    match Get(req.json, "event", Str(""))
    case Err(f) => Some(Failed(f))
    case Ok(event) =>
      if !Truthy(event) then Some(NotAnEvent)
      else if !HasSignature(req) then Some(SignatureMissing)
      else None
  }

  // ------------------------------------------------------------- update_vm

  /** What `update_vm` does once its checks are over: answer at once, or
      stop or start the VM with this VMID. */
  datatype UpdateStep =
    | Reply(resp: Response)
    | StopThen(vmId: Json)
    | StartThen(vmId: Json)

  /** `update_vm`: the gate, then a dispatch on `data.status.value`. A stop
      or a start is only ever planned for a request that passed the gate. */
  function UpdatePlan(req: Request): (step: UpdateStep)
    ensures EventGate(req).Some? ==> step == Reply(EventGate(req).value)
    ensures !step.Reply? ==> req.json.Obj? && Truthy(At(req.json.fields, "event")) && HasSignature(req)
  {
    match EventGate(req)
    case Some(rejection) => Reply(rejection)
    case None =>
      var data := Get(req.json, "data", Obj(map[]));
      var vmId := Then(Then(data, "custom_fields", Obj(map[])), "vmid", Null);
      var status := Then(Then(data, "status", Obj(map[])), "value", Str(""));
      if vmId.Err? then Reply(Failed(vmId.fault))
      else if status.Err? then Reply(Failed(status.fault))
      else if status.value == Str("offline") then StopThen(vmId.value)
      else if status.value == Str("active") then StartThen(vmId.value)
      else Reply(Bare(status.value))
  }

  /** The update path checks that a signature is there, never what it is:
      two requests that differ only in the signature and the raw body bytes
      get the same plan. */
  lemma UpdateIgnoresSignatureValue(req: Request, other: Request)
    requires req.json == other.json
    requires HasSignature(req) && HasSignature(other)
    ensures UpdatePlan(req) == UpdatePlan(other)
  {
  }

  /** With the gate passed and a well-formed payload, the status decides:
      "offline" stops, "active" starts, anything else is echoed back bare. */
  lemma UpdateDispatch(req: Request, data: map<string, Json>, status: map<string, Json>, custom: map<string, Json>)
    requires EventGate(req).None?
    requires "data" in req.json.fields && req.json.fields["data"] == Obj(data)
    requires "status" in data && data["status"] == Obj(status) && "value" in status
    requires "custom_fields" in data && data["custom_fields"] == Obj(custom)
    ensures var vmId := At(custom, "vmid");
            UpdatePlan(req) == if status["value"] == Str("offline") then StopThen(vmId)
                               else if status["value"] == Str("active") then StartThen(vmId)
                               else Reply(Bare(status["value"]))
  {
  }

  /** `update_vm`: a rejection issues nothing; "offline" issues one stop and
      "active" at most one start, and either reply is the same whatever the
      stop or start reported. Only the addressed VM's status changes. */
  method UpdateVm(remote: Remote, rt: Runtime, req: Request) returns (resp: Response)
    modifies remote`status, remote`log
    ensures UpdatePlan(req).Reply? ==>
              resp == UpdatePlan(req).resp && remote.log == old(remote.log)
              && remote.status == old(remote.status)
    ensures UpdatePlan(req).StopThen? ==>
              var vm := PyStr(rt, UpdatePlan(req).vmId);
              if vm in old(remote.status) then
                && resp == OfflineReply && remote.log == old(remote.log) + [Stop(vm)]
                && remote.status == old(remote.status)[vm := remote.afterStop(vm)]
              else
                resp == Failed(ApiError) && remote.log == old(remote.log) && remote.status == old(remote.status)
    ensures UpdatePlan(req).StartThen? ==>
              var vm := PyStr(rt, UpdatePlan(req).vmId);
              if vm !in old(remote.status) then
                resp == Failed(ApiError) && remote.log == old(remote.log) && remote.status == old(remote.status)
              else if old(remote.status)[vm] == "stopped" then
                && resp == ActiveReply && remote.log == old(remote.log) + [Start(vm)]
                && remote.status == old(remote.status)[vm := remote.afterStart(vm)]
              else
                resp == ActiveReply && remote.log == old(remote.log) && remote.status == old(remote.status)
  {
    var plan := UpdatePlan(req);
    match plan
    case Reply(r) =>
      resp := r;
    case StopThen(vmId) =>
      var p := new Proxmox(remote, rt, vmId, Bool(false), "proxmox");
      var stopped := p.StopVm();
      resp := if stopped.Err? then Failed(ApiError) else OfflineReply;
    case StartThen(vmId) =>
      var p := new Proxmox(remote, rt, vmId, Bool(false), "proxmox");
      var started := p.StartVm();
      resp := if started.Err? then Failed(ApiError) else ActiveReply;
  }

  // ------------------------------------------------------------- delete_vm

  /** What `delete_vm` does once its checks are over. */
  datatype DeleteStep =
    | Refuse(resp: Response)
    | DeleteThen(vmId: Json)

  /** `delete_vm`: the gate, then the signature against the secret from the
      environment, then the VMID from the normalised payload. The custom
      fields are passed as keyword arguments next to `self` and
      `webhook_data`, so a field with either name is a TypeError. */
  function DeletePlan(rt: Runtime, env: map<string, string>, req: Request): (step: DeleteStep)
    ensures EventGate(req).Some? ==> step == Refuse(EventGate(req).value)
    ensures step.DeleteThen? ==>
              && HasSignature(req) && SecretVariable in env
              && CheckSignature(rt, rt.utf8(env[SecretVariable]), req.data, req.headers[SignatureHeader])
  {
    match EventGate(req)
    case Some(rejection) => Refuse(rejection)
    case None =>
      if SecretVariable !in env then Refuse(Failed(AttributeError))
      else if !CheckSignature(rt, rt.utf8(env[SecretVariable]), req.data, req.headers[SignatureHeader]) then
        Refuse(SignatureInvalid)
      else
        var data := Get(req.json, "data", Obj(map[]));
        var custom := Then(data, "custom_fields", Obj(map[]));
        if custom.Err? then Refuse(Failed(custom.fault))
        else if !custom.value.Obj? then Refuse(Failed(TypeError))
        else if "self" in custom.value.fields || "webhook_data" in custom.value.fields then Refuse(Failed(TypeError))
        else match NewVMachine(data.value, custom.value.fields)
          case Err(f) => Refuse(Failed(f))
          case Ok(vm) => DeleteThen(vm.vmid)
  }

  /** The three rejections of `delete_vm`, each in its turn: the event, then
      the signature's presence, then its value. */
  lemma DeleteChecksInOrder(rt: Runtime, env: map<string, string>, req: Request)
    requires req.json.Obj?
    ensures !Truthy(At(req.json.fields, "event")) ==> DeletePlan(rt, env, req) == Refuse(NotAnEvent)
    ensures Truthy(At(req.json.fields, "event")) && !HasSignature(req) ==>
              DeletePlan(rt, env, req) == Refuse(SignatureMissing)
    ensures Truthy(At(req.json.fields, "event")) && HasSignature(req) && SecretVariable in env
            && !CheckSignature(rt, rt.utf8(env[SecretVariable]), req.data, req.headers[SignatureHeader]) ==>
              DeletePlan(rt, env, req) == Refuse(SignatureInvalid)
  {
  }

  /** A delete is only ever planned for a request whose signature is the
      digest of its raw body under the secret. */
  lemma DeleteNeedsValidSignature(rt: Runtime, env: map<string, string>, req: Request)
    requires DeletePlan(rt, env, req).DeleteThen?
    ensures HasSignature(req) && SecretVariable in env
    ensures req.headers[SignatureHeader] == rt.hmacSha512Hex(rt.utf8(env[SecretVariable]), req.data)
  {
  }

  /** The VMID deleted is the `vmid` custom field of the payload's data. */
  lemma DeleteTargetsCustomVmid(rt: Runtime, env: map<string, string>, req: Request, data: map<string, Json>,
                                custom: map<string, Json>)
    requires DeletePlan(rt, env, req).DeleteThen?
    requires "data" in req.json.fields && req.json.fields["data"] == Obj(data)
    requires "custom_fields" in data && data["custom_fields"] == Obj(custom)
    ensures DeletePlan(rt, env, req).vmId == if "vmid" in custom then custom["vmid"] else Str("")
  {
  }

  /** A custom field named like a parameter of `VMachine.__init__` (`self`
      or `webhook_data`) clashes with it when the fields are passed as
      keyword arguments: the request fails with TypeError. */
  lemma DeleteRejectsParameterNames(rt: Runtime, env: map<string, string>, req: Request,
                                    data: map<string, Json>, custom: map<string, Json>)
    requires EventGate(req).None? && SecretVariable in env
    requires CheckSignature(rt, rt.utf8(env[SecretVariable]), req.data, req.headers[SignatureHeader])
    requires "data" in req.json.fields && req.json.fields["data"] == Obj(data)
    requires "custom_fields" in data && data["custom_fields"] == Obj(custom)
    requires "self" in custom || "webhook_data" in custom
    ensures DeletePlan(rt, env, req) == Refuse(Failed(TypeError))
  {
  }

  /** Worked example of `delete_vm`: a deletion event for VMID 101, signed
      with the secret, plans the delete of VMID 101. */
  lemma DeleteExample(rt: Runtime, secret: string, body: seq<bv8>)
    requires |rt.hmacSha512Hex(rt.utf8(secret), body)| == 128
    ensures var payload := map["event" := Str("deleted"),
                               "data" := Obj(map["custom_fields" := Obj(map["vmid" := Int(101)])])];
            var req := Request(Obj(payload), map[SignatureHeader := rt.hmacSha512Hex(rt.utf8(secret), body)],
                               body, map[]);
            DeletePlan(rt, map[SecretVariable := secret], req) == DeleteThen(Int(101))
  {
  }

  /** `delete_vm`: a rejection issues nothing; an authorised request runs the
      Proxmox delete sequence and answers {"message": "ok"} with 200 whatever
      that sequence reported, unless Proxmox does not know the VM, in which
      case the client's error escapes. A running VM is deleted only if it
      reads as "stopped" after the stop. */
  method DeleteVm(remote: Remote, rt: Runtime, env: map<string, string>, req: Request) returns (resp: Response)
    modifies remote`status, remote`log
    ensures DeletePlan(rt, env, req).Refuse? ==>
              resp == DeletePlan(rt, env, req).resp && remote.log == old(remote.log)
              && remote.status == old(remote.status)
    ensures DeletePlan(rt, env, req).DeleteThen? ==>
              var vm := PyStr(rt, DeletePlan(rt, env, req).vmId);
              && (vm !in old(remote.status) ==>
                    resp == Failed(ApiError) && remote.log == old(remote.log) && remote.status == old(remote.status))
              && (vm in old(remote.status) ==> resp == DeletedReply)
              && (vm in old(remote.status) && old(remote.status)[vm] == "stopped" ==>
                    remote.log == old(remote.log) + [Delete(vm)] && remote.status == old(remote.status) - {vm})
              && (vm in old(remote.status) && old(remote.status)[vm] == "running" && remote.afterStop(vm) == "stopped" ==>
                    remote.log == old(remote.log) + [Stop(vm), Delete(vm)] && remote.status == old(remote.status) - {vm})
              && (vm in old(remote.status) && old(remote.status)[vm] == "running" && remote.afterStop(vm) != "stopped" ==>
                    remote.log == old(remote.log) + [Stop(vm)]
                    && remote.status == old(remote.status)[vm := remote.afterStop(vm)])
              && (vm in old(remote.status) && old(remote.status)[vm] !in {"running", "stopped"} ==>
                    remote.log == old(remote.log) && remote.status == old(remote.status))
  {
    var plan := DeletePlan(rt, env, req);
    match plan
    case Refuse(r) =>
      resp := r;
    case DeleteThen(vmId) =>
      var p := new Proxmox(remote, rt, vmId, Bool(false), "proxmox");
      var deleted := p.DeleteVm();
      resp := if deleted.Err? then Failed(ApiError) else DeletedReply;
  }

  // ------------------------------------------------------------- create_vm

  /** Whether a listed VM's `vmid` equals the string the source compares it to. */
  predicate ClaimsVmid(vm: map<string, Json>, target: Json)
    ensures target != Null ==> (ClaimsVmid(vm, target) <==> "vmid" in vm && vm["vmid"] == target)
  {
    At(vm, "vmid") == target
  }

  /** The position of the first listed VM that claims the VMID, if any. */
  function FirstMatch(vms: seq<map<string, Json>>, target: Json): (r: Option<nat>)
    ensures r.Some? ==> r.value < |vms| && ClaimsVmid(vms[r.value], target)
                        && forall j :: 0 <= j < r.value ==> !ClaimsVmid(vms[j], target)
    ensures r.None? ==> forall j :: 0 <= j < |vms| ==> !ClaimsVmid(vms[j], target)
  {
    if vms == [] then None
    else if ClaimsVmid(vms[0], target) then Some(0)
    else match FirstMatch(vms[1..], target)
      case Some(i) => Some(i + 1)
      case None => None
  }

  function InUseMessage(rt: Runtime, name: Json, vm: map<string, Json>): (message: string)
    ensures "VMID already in use! The VM " + PyStr(rt, name) <= message
  {
    "VMID already in use! The VM " + PyStr(rt, name) + " comming from Netbox"
    + "has the same VM-ID (" + PyStr(rt, At(vm, "vmid")) + ") "
    + "as the VM " + PyStr(rt, At(vm, "name")) + " from Proxmox."
  }

  /** The creation parameters `create_vm` builds (`vm_data`). */
  function VmSpec(rt: Runtime, vmId: Json, os: Json, name: Json, memory: Json, disk: Json, cores: int)
    : (spec: map<string, Json>)
    ensures "vmid" in spec && spec["vmid"] == vmId
    ensures "start" in spec && spec["start"] == Int(1)
  {
    map[
      "vmid" := vmId,
      "cdrom" := Str("local:iso/" + PyStr(rt, os)),
      "name" := name,
      "storage" := Str("local"),
      "memory" := memory,
      "scsi0" := Str("local-lvm:" + PyStr(rt, disk)),
      "cores" := Int(cores),
      "start" := Int(1),
      "net0" := Str("virtio,bridge=vmbr0")
    ]
  }

  /** What `create_vm` decides from the Netbox record and the node's VMs:
      stop with a response, or provision with these parameters and this tag. */
  datatype CreateStep =
    | Halt(resp: Response)
    | Provision(spec: map<string, Json>, tag: string, staged: bool)

  /** `create_vm` up to its side effects: the custom fields, the collision
      scan, then the rest of the record. Nothing is provisioned for a VMID
      that a listed VM claims, nor for an incomplete record. */
  function CreatePlan(rt: Runtime, rec: Record, vms: seq<map<string, Json>>, host: Json): (step: CreateStep)
    ensures step.Provision? ==>
              && Complete(rt, rec) && FirstMatch(vms, Str(PyStr(rt, VmIdOf(rec)))) == None
              && "vmid" in step.spec && step.spec["vmid"] == VmIdOf(rec)
              && (step.staged <==> step.tag == "staged") && (step.tag == "staged" || step.tag == "created")
              && "start" in step.spec && step.spec["start"] == Int(if step.staged then 0 else 1)
  {
    if "custom_fields" !in rec || !rec["custom_fields"].Obj? then Halt(Failed(AttributeError))
    else
      match FirstMatch(vms, Str(PyStr(rt, VmIdOf(rec))))
      case Some(i) => Halt(CollisionReply(rt, rec, vms[i]))
      case None => BuildPlan(rt, rec, host)
  }

  /** The response when a listed VM claims the record's VMID: the error page,
      unless the record has no name to compare. */
  function CollisionReply(rt: Runtime, rec: Record, vm: map<string, Json>): (resp: Response)
    ensures resp.ErrorView? <==> "name" in rec
    ensures !resp.ErrorView? ==> resp == Failed(AttributeError)
  {
    if "name" !in rec then Failed(AttributeError)
    else if PyEq(At(vm, "name"), rec["name"]) then ErrorView(SameVmMessage)
    else ErrorView(InUseMessage(rt, rec["name"], vm))
  }

  /** Past the scan: the creation parameters (cores converted before anything
      is checked), the completeness check, then the status branch. */
  function BuildPlan(rt: Runtime, rec: Record, host: Json): (step: CreateStep)
    requires "custom_fields" in rec && rec["custom_fields"].Obj?
    ensures step.Provision? ==>
              && Complete(rt, rec)
              && "vmid" in step.spec && step.spec["vmid"] == VmIdOf(rec)
              && (step.staged <==> step.tag == "staged") && (step.tag == "staged" || step.tag == "created")
              && "start" in step.spec && step.spec["start"] == Int(if step.staged then 0 else 1)
  {
    var custom := rec["custom_fields"].fields;
    var vmId := At(custom, "vmid");
    if !("name" in rec && "memory" in rec && "disk" in rec && "vcpus" in rec) then
      Halt(Failed(AttributeError))
    else
      var os := if "os" in custom then custom["os"] else Str("");
      match IntOfFloat(rt, rec["vcpus"])
      case Err(f) => Halt(Failed(f))
      case Ok(cores) =>
        if !(Truthy(vmId) && Truthy(os) && Truthy(rec["name"]) && Truthy(rec["memory"])
             && Truthy(rec["disk"]) && Truthy(rec["vcpus"])) then
          Halt(ErrorView(MissingDataMessage))
        else if "status" !in rec then Halt(Failed(AttributeError))
        else
          var spec := RecordSpec(rt, rec);
          var stage := StatusLabel(rt, rec["status"]);
          if stage == "Staged" then Provision(spec["start" := Int(0)], "staged", true)
          else if stage == "Planned" then Halt(SuccessView(host, Str(PlannedMessage)))
          else Provision(spec, "created", false)
  }

  /** `str(record.status)`: Netbox serialises a status as a choice with a
      `value` ("staged") and a `label` ("Staged"), and the client renders a
      choice by its label; anything else renders as `str` does. */
  function StatusLabel(rt: Runtime, status: Json): (stage: string)
    ensures status.Obj? && "label" in status.fields && status.fields["label"].Str? ==>
              stage == status.fields["label"].s
    ensures status.Str? ==> stage == status.s
  {
    if status.Obj? && "label" in status.fields then PyStr(rt, status.fields["label"]) else PyStr(rt, status)
  }

  /** A record whose custom fields, name, memory, disk, vcpus and status are
      all there, and whose vcpus converts: the path that reaches the checks. */
  predicate Complete(rt: Runtime, rec: Record) {
    && "custom_fields" in rec && rec["custom_fields"].Obj?
    && "name" in rec && "memory" in rec && "disk" in rec && "vcpus" in rec && "status" in rec
    && IntOfFloat(rt, rec["vcpus"]).Ok?
  }

  function VmIdOf(rec: Record): (vmId: Json)
    requires "custom_fields" in rec && rec["custom_fields"].Obj?
    ensures Get(rec["custom_fields"], "vmid", Null) == Ok(vmId)
  {
    At(rec["custom_fields"].fields, "vmid")
  }

  /** The first listed VM that claims the VMID ends the request with an error
      view, whatever comes after it and whatever else the record holds. */
  lemma CollisionStopsRequest(rt: Runtime, rec: Record, vms: seq<map<string, Json>>, host: Json, i: nat)
    requires "custom_fields" in rec && rec["custom_fields"].Obj? && "name" in rec
    requires FirstMatch(vms, Str(PyStr(rt, VmIdOf(rec)))) == Some(i)
    ensures CreatePlan(rt, rec, vms, host)
         == Halt(ErrorView(if PyEq(At(vms[i], "name"), rec["name"]) then SameVmMessage
                           else InUseMessage(rt, rec["name"], vms[i])))
  {
  }

  /** Proxmox lists `vmid` as a number, while the scan compares with the
      string `str(vmid)`: a listing of numeric VMIDs never collides. */
  lemma NumericVmidsNeverCollide(vms: seq<map<string, Json>>, s: string)
    requires forall j :: 0 <= j < |vms| ==> At(vms[j], "vmid").Int?
    ensures FirstMatch(vms, Str(s)) == None
  {
  }

  /** The listing of the worked example, with `vmid` as the string the scan
      compares against, and a record for candidate VMID 101. */
  function ExampleListing(vmid100: Json, vmid101: Json): (vms: seq<map<string, Json>>) {
    [map["vmid" := vmid100, "name" := Str("a")], map["vmid" := vmid101, "name" := Str("b")]]
  }

  function CandidateRecord(vmid: int, name: string): (rec: Record) {
    map["custom_fields" := Obj(map["vmid" := Int(vmid)]), "name" := Str(name)]
  }

  /** A record as Netbox serialises it, its status a choice with a value
      and a label. */
  function ExampleRecord(vmid: int, name: string, value: string, stage: string): (rec: Record) {
    map["custom_fields" := Obj(map["vmid" := Int(vmid), "os" := Str("debian.iso")]),
        "name" := Str(name), "memory" := Int(2048), "disk" := Int(32), "vcpus" := Int(2),
        "status" := Obj(map["value" := Str(value), "label" := Str(stage)])]
  }

  /** The example record carries every field, all of them truthy. */
  lemma ExampleRecordComplete(rt: Runtime, vmid: int, name: string, value: string, stage: string)
    requires vmid != 0 && name != ""
    ensures var rec := ExampleRecord(vmid, name, value, stage);
            && Complete(rt, rec) && VmIdOf(rec) == Int(vmid) && StatusLabel(rt, rec["status"]) == stage
            && Truthy(rec["name"]) && Truthy(rec["memory"]) && Truthy(rec["disk"]) && Truthy(rec["vcpus"])
            && var custom := rec["custom_fields"].fields;
               "os" in custom && Truthy(custom["os"])
  {
  }

  lemma {:induction false} RendersAsDecimal()
    ensures Decimal(101) == "101" && Decimal(102) == "102"
  {
    assert Digits(10) == Digits(1) + ['0'];
    assert Digits(101) == Digits(10) + ['1'];
    assert Digits(102) == Digits(10) + ['2'];
  }

  /** Worked example of `create_vm`: with a listing that reports "100" and
      "101", candidate 101 named "b" is the same VM. */
  lemma SameVmExample(rt: Runtime, host: Json)
    ensures CreatePlan(rt, CandidateRecord(101, "b"), ExampleListing(Str("100"), Str("101")), host)
            == Halt(ErrorView(SameVmMessage))
  {
    RendersAsDecimal();
    var vms := ExampleListing(Str("100"), Str("101"));
    var rec := CandidateRecord(101, "b");
    assert VmIdOf(rec) == Int(101);
    assert !ClaimsVmid(vms[0], Str("101"));
    assert FirstMatch(vms, Str("101")) == Some(1);
    CollisionStopsRequest(rt, rec, vms, host, 1);
  }

  /** Candidate 101 named "c" collides with a VM of another name. */
  lemma VmidInUseExample(rt: Runtime, host: Json)
    ensures var vms := ExampleListing(Str("100"), Str("101"));
            CreatePlan(rt, CandidateRecord(101, "c"), vms, host)
            == Halt(ErrorView(InUseMessage(rt, Str("c"), vms[1])))
  {
    RendersAsDecimal();
    var vms := ExampleListing(Str("100"), Str("101"));
    var rec := CandidateRecord(101, "c");
    assert VmIdOf(rec) == Int(101);
    assert !ClaimsVmid(vms[0], Str("101"));
    assert FirstMatch(vms, Str("101")) == Some(1);
    CollisionStopsRequest(rt, rec, vms, host, 1);
  }

  /** Candidate 102 goes ahead; a status whose value is "staged" and whose
      label is "Staged" creates it with start 0 and tag "staged". */
  lemma StagedExample(rt: Runtime, host: Json)
    ensures var plan := CreatePlan(rt, ExampleRecord(102, "c", "staged", "Staged"), ExampleListing(Str("100"), Str("101")), host);
            plan.Provision? && plan.tag == "staged" && plan.spec["start"] == Int(0)
  {
    RendersAsDecimal();
    var vms := ExampleListing(Str("100"), Str("101"));
    var rec := ExampleRecord(102, "c", "staged", "Staged");
    assert !ClaimsVmid(vms[0], Str("102")) && !ClaimsVmid(vms[1], Str("102"));
    assert FirstMatch(vms, Str("102")) == None;
    ExampleRecordComplete(rt, 102, "c", "staged", "Staged");
    StatusBranch(rt, rec, vms, host);
  }

  /** A listing that reports the numbers 100 and 101 stops no candidate:
      candidate 101 named "b" is provisioned. */
  lemma NumericListingExample(rt: Runtime, host: Json)
    ensures CreatePlan(rt, ExampleRecord(101, "b", "staged", "Staged"), ExampleListing(Int(100), Int(101)), host).Provision?
  {
    RendersAsDecimal();
    var vms := ExampleListing(Int(100), Int(101));
    var rec := ExampleRecord(101, "b", "staged", "Staged");
    NumericVmidsNeverCollide(vms, "101");
    ExampleRecordComplete(rt, 101, "b", "staged", "Staged");
    StatusBranch(rt, rec, vms, host);
  }

  /** Past the scan, a falsy value among vmid, os, name, memory, disk and
      vcpus ends the request with the missing-data view. */
  lemma MissingDataStopsRequest(rt: Runtime, rec: Record, vms: seq<map<string, Json>>, host: Json)
    requires Complete(rt, rec)
    requires FirstMatch(vms, Str(PyStr(rt, VmIdOf(rec)))) == None
    requires var custom := rec["custom_fields"].fields;
             !Truthy(VmIdOf(rec)) || !Truthy(if "os" in custom then custom["os"] else Str(""))
             || !Truthy(rec["name"]) || !Truthy(rec["memory"]) || !Truthy(rec["disk"]) || !Truthy(rec["vcpus"])
    ensures CreatePlan(rt, rec, vms, host) == Halt(ErrorView(MissingDataMessage))
  {
  }

  /** `int(float(vcpus))` runs before the completeness check: a record with
      no vcpus value fails there, even when other fields are missing too. */
  lemma CoresConvertedBeforeCheck(rt: Runtime, rec: Record, vms: seq<map<string, Json>>, host: Json)
    requires "custom_fields" in rec && rec["custom_fields"].Obj?
    requires "name" in rec && "memory" in rec && "disk" in rec && "vcpus" in rec
    requires rec["vcpus"] == Null
    requires FirstMatch(vms, Str(PyStr(rt, VmIdOf(rec)))) == None
    ensures CreatePlan(rt, rec, vms, host) == Halt(Failed(TypeError))
  {
  }

  /** The creation parameters hold exactly the nine keys the source lists. */
  lemma VmSpecKeys(rt: Runtime, vmId: Json, os: Json, name: Json, memory: Json, disk: Json, cores: int)
    ensures VmSpec(rt, vmId, os, name, memory, disk, cores).Keys
            == {"vmid", "cdrom", "name", "storage", "memory", "scsi0", "cores", "start", "net0"}
  {
  }

  /** The record's VMID, name and memory go in as they are, the ISO and the
      disk as storage paths, the converted cores as an int, and start is 1. */
  lemma VmSpecValues(rt: Runtime, vmId: Json, os: Json, name: Json, memory: Json, disk: Json, cores: int)
    ensures var spec := VmSpec(rt, vmId, os, name, memory, disk, cores);
            && "vmid" in spec && spec["vmid"] == vmId && spec["name"] == name && spec["memory"] == memory
            && spec["cdrom"] == Str("local:iso/" + PyStr(rt, os))
            && spec["scsi0"] == Str("local-lvm:" + PyStr(rt, disk))
            && spec["cores"] == Int(cores) && spec["start"] == Int(1)
  {
  }

  /** The parameters `create_vm` builds from a record that has all its fields. */
  function RecordSpec(rt: Runtime, rec: Record): (spec: map<string, Json>)
    requires Complete(rt, rec)
  {
    var custom := rec["custom_fields"].fields;
    VmSpec(rt, VmIdOf(rec), if "os" in custom then custom["os"] else Str(""),
           rec["name"], rec["memory"], rec["disk"], IntOfFloat(rt, rec["vcpus"]).value)
  }

  /** Past both checks the status label decides: "Staged" provisions with
      start 0 and tag "staged", "Planned" provisions nothing and shows the
      planned message, anything else provisions as built (start 1) with tag
      "created". */
  lemma StatusBranch(rt: Runtime, rec: Record, vms: seq<map<string, Json>>, host: Json)
    requires Complete(rt, rec)
    requires FirstMatch(vms, Str(PyStr(rt, VmIdOf(rec)))) == None
    requires var custom := rec["custom_fields"].fields;
             Truthy(VmIdOf(rec)) && Truthy(if "os" in custom then custom["os"] else Str(""))
             && Truthy(rec["name"]) && Truthy(rec["memory"]) && Truthy(rec["disk"]) && Truthy(rec["vcpus"])
    ensures var plan, stage := CreatePlan(rt, rec, vms, host), StatusLabel(rt, rec["status"]);
            && (stage == "Staged" ==> plan == Provision(RecordSpec(rt, rec)["start" := Int(0)], "staged", true))
            && (stage == "Planned" ==> plan == Halt(SuccessView(host, Str(PlannedMessage))))
            && (stage != "Staged" && stage != "Planned" ==> plan == Provision(RecordSpec(rt, rec), "created", false))
  {
    assert CreatePlan(rt, rec, vms, host) == BuildPlan(rt, rec, host);
  }

  /** The commands that tagging the record issues: a tag create only when
      the store has no tag of that name. */
  function TagCommands(tags: map<string, Tag>, name: string): (commands: seq<Command>) {
    if name in tags then [] else [TagCreate(name, Lower(name), Lower(TagColor))]
  }

  /** The id the tag has once it exists. */
  function TagId(tags: map<string, Tag>, nextTagId: int, name: string): (id: int) {
    if name in tags then tags[name].id else nextTagId
  }

  /** The tag store once the tag exists: unchanged if it had the tag, else
      with the new tag under its name. */
  function TagsAfter(tags: map<string, Tag>, nextTagId: int, name: string): (after: map<string, Tag>)
    ensures name in after && after[name].id == TagId(tags, nextTagId, name)
    ensures forall n :: n in tags ==> n in after && after[n] == tags[n]
  {
    if name in tags then tags else tags[name := Tag(nextTagId, Lower(name), Lower(TagColor))]
  }

  function NextTagIdAfter(tags: map<string, Tag>, nextTagId: int, name: string): (next: int) {
    if name in tags then nextTagId else nextTagId + 1
  }

  /** The fields the update sets on the record: the one tag. */
  function TagInfo(tid: int): (info: map<string, Json>)
    ensures info.Keys == {"tags"} && info["tags"] == Arr([Int(tid)])
  {
    map["tags" := Arr([Int(tid)])]
  }

  /** Netbox's side of a request that went no further than its checks:
      records, tag store and log as they were. */
  twostate predicate NetboxUnchanged(remote: Remote)
    reads remote
  {
    && remote.records == old(remote.records) && remote.tags == old(remote.tags)
    && remote.nextTagId == old(remote.nextTagId) && remote.log == old(remote.log)
  }

  /** The state after tagging record `id` with `tag` and creating `spec`: the
      tag exists, the record carries its id, and the log holds the tag create
      (only if the tag was new), the record update and the create, in order. */
  twostate predicate TaggedAndCreated(remote: Remote, id: string, tag: string, spec: map<string, Json>)
    reads remote
  {
    var tid := TagId(old(remote.tags), old(remote.nextTagId), tag);
    && id in old(remote.records)
    && remote.records == old(remote.records)[id := old(remote.records)[id] + TagInfo(tid)]
    && remote.tags == TagsAfter(old(remote.tags), old(remote.nextTagId), tag)
    && remote.nextTagId == NextTagIdAfter(old(remote.tags), old(remote.nextTagId), tag)
    && remote.log == old(remote.log) + TagCommands(old(remote.tags), tag)
                     + [RecordUpdate(id, TagInfo(tid)), Create(spec)]
  }

  /** The success view after a create that reported `created`. */
  function ProvisionedView(rt: Runtime, host: Json, staged: bool, created: bool): (resp: Response)
    ensures resp.SuccessView? && resp.proxmoxUrl == host
    ensures staged <==> resp.result.Str?
    ensures !staged ==> resp.result == Bool(created)
  {
    if staged then SuccessView(host, Str("VM crated with result: " + PyStr(rt, Bool(created)) + " but not started"))
    else SuccessView(host, Bool(created))
  }

  /** The scan over the node's VMs: stops at the first one that claims the VMID. */
  method FindClaim(vms: seq<map<string, Json>>, target: Json) returns (hit: Option<nat>)
    ensures hit == FirstMatch(vms, target)
  {
    for i := 0 to |vms|
      invariant forall j :: 0 <= j < i ==> !ClaimsVmid(vms[j], target)
    {
      if At(vms[i], "vmid") == target {
        return Some(i);
      }
    }
    return None;
  }

  lemma KeyMakesNonEmpty(m: map<string, Json>, k: string)
    requires k in m
    ensures |m| != 0
  {
    assert m.Keys == (m.Keys - {k}) + {k};
  }

  /** Gets or creates the tag, then sets it on the Netbox record: the record
      ends up carrying exactly the id the tag store holds under the name. */
  method TagRecord(nb: NetboxCall, tag: string) returns (tid: int)
    requires nb.Valid() && tag != ""
    modifies nb`vm, nb.remote`records, nb.remote`tags, nb.remote`nextTagId, nb.remote`log
    ensures nb.Valid()
    ensures tid == TagId(old(nb.remote.tags), old(nb.remote.nextTagId), tag)
    ensures nb.vm == old(nb.vm) + TagInfo(tid)
    ensures nb.remote.records == old(nb.remote.records)[nb.netboxId := old(nb.remote.records)[nb.netboxId] + TagInfo(tid)]
    ensures nb.remote.tags == TagsAfter(old(nb.remote.tags), old(nb.remote.nextTagId), tag)
    ensures nb.remote.nextTagId == NextTagIdAfter(old(nb.remote.tags), old(nb.remote.nextTagId), tag)
    ensures nb.remote.log == old(nb.remote.log) + TagCommands(old(nb.remote.tags), tag)
              + [RecordUpdate(nb.netboxId, TagInfo(tid))]
  {
    var id := nb.CreateTag(Some(tag), TagColor);
    tid := id.value;
    KeyMakesNonEmpty(TagInfo(tid), "tags");
    var update := nb.UpdateVmInformation(TagInfo(tid));
  }

  /** The tail of `create_vm` once it goes ahead: tag the record, then
      create the VM on Proxmox. */
  method TagAndCreate(nb: NetboxCall, p: Proxmox, spec: map<string, Json>, tag: string) returns (created: bool)
    requires nb.Valid() && p.remote == nb.remote && "vmid" in spec && tag != ""
    modifies nb`vm, nb.remote`records, nb.remote`tags, nb.remote`nextTagId, nb.remote`log
    ensures nb.Valid() && created
    ensures nb.vm == old(nb.vm) + TagInfo(TagId(old(nb.remote.tags), old(nb.remote.nextTagId), tag))
    ensures TaggedAndCreated(nb.remote, nb.netboxId, tag, spec)
  {
    KeyMakesNonEmpty(spec, "vmid");
    var tid := TagRecord(nb, tag);
    created := p.CreateVm(spec);
  }

  /** The part of `create_vm` after the scan, on the record it fetched: carries
      out what `BuildPlan` decides. */
  method Build(nb: NetboxCall, p: Proxmox, rt: Runtime, rec: Record, host: Json) returns (resp: Response)
    requires nb.Valid() && p.remote == nb.remote
    requires "custom_fields" in rec && rec["custom_fields"].Obj?
    modifies nb`vm, nb.remote`records, nb.remote`tags, nb.remote`nextTagId, nb.remote`log
    ensures nb.Valid()
    ensures var plan := BuildPlan(rt, rec, host);
            && (plan.Halt? ==> resp == plan.resp && nb.vm == old(nb.vm) && NetboxUnchanged(nb.remote))
            && (plan.Provision? ==>
                  && resp == ProvisionedView(rt, host, plan.staged, true)
                  && TaggedAndCreated(nb.remote, nb.netboxId, plan.tag, plan.spec))
  {
    match BuildPlan(rt, rec, host)
    case Halt(r) =>
      resp := r;
    case Provision(spec, tag, staged) =>
      var created := TagAndCreate(nb, p, spec, tag);
      resp := ProvisionedView(rt, host, staged, created);
  }

  /** `create_vm` once the record is fetched: the scan over the node's VMs
      (templates left out), then the rest of the plan. */
  method ScanAndBuild(nb: NetboxCall, rt: Runtime, host: Json) returns (resp: Response)
    requires nb.Valid()
    modifies nb`vm, nb.remote`records, nb.remote`tags, nb.remote`nextTagId, nb.remote`log
    ensures nb.Valid()
    ensures var plan := CreatePlan(rt, old(nb.vm), NonTemplates(nb.remote.listing), host);
            && (plan.Halt? ==> resp == plan.resp && NetboxUnchanged(nb.remote))
            && (plan.Provision? ==>
                  resp == ProvisionedView(rt, host, plan.staged, true)
                  && TaggedAndCreated(nb.remote, nb.netboxId, plan.tag, plan.spec))
  {
    var rec := nb.vm;
    if "custom_fields" !in rec || !rec["custom_fields"].Obj? {
      return Failed(AttributeError);
    }
    var vmId := At(rec["custom_fields"].fields, "vmid");
    var p := new Proxmox(nb.remote, rt, vmId, Bool(false), "proxmox");
    var allVms := p.Vms();
    var hit := FindClaim(allVms, Str(PyStr(rt, vmId)));
    if hit.Some? {
      return CollisionReply(rt, rec, allVms[hit.value]);
    }
    resp := Build(nb, p, rt, rec, host);
  }

  /** `create_vm`: a request without an id fails in the Netbox client, and an
      id Netbox does not know yields no record, which `dict` rejects; a
      halting plan issues nothing; a provisioning plan issues, in this order,
      the tag create (if the tag is new), the record update that sets the
      tag, and the create. */
  method CreateVm(remote: Remote, rt: Runtime, req: Request, host: Json) returns (resp: Response)
    requires remote.Valid()
    modifies remote`records, remote`tags, remote`nextTagId, remote`log
    ensures remote.Valid()
    ensures "id" !in req.values ==> resp == Failed(ApiError) && NetboxUnchanged(remote)
    ensures "id" in req.values && req.values["id"] !in old(remote.records) ==>
              resp == Failed(TypeError) && NetboxUnchanged(remote)
    ensures "id" in req.values && req.values["id"] in old(remote.records) ==>
              var id := req.values["id"];
              var plan := CreatePlan(rt, old(remote.records)[id], NonTemplates(old(remote.listing)), host);
              && (plan.Halt? ==> resp == plan.resp && NetboxUnchanged(remote))
              && (plan.Provision? ==>
                    resp == ProvisionedView(rt, host, plan.staged, true) && TaggedAndCreated(remote, id, plan.tag, plan.spec))
  {
    if "id" !in req.values {
      return Failed(ApiError);
    }
    if req.values["id"] !in remote.records {
      return Failed(TypeError);
    }
    var nb := new NetboxCall(remote, req.values["id"]);
    resp := ScanAndBuild(nb, rt, host);
  }
}

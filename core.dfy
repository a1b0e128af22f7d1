/** The client classes of netprox/classes/Core.py: the normalised view of a
    Netbox webhook payload (`NetboxObject`, `VMachine`), the Proxmox client with
    its VM life-cycle rules, and the Netbox client with its tag and record
    helpers. Remote calls go to the abstract systems of module Upstream. */
module Core {
  import opened Values
  import opened Upstream

  /** The attributes `NetboxObject.__init__` leaves on the object; `extra`
      holds the keyword arguments that no fixed attribute overwrote. */
  datatype NetboxObject = NetboxObject(id: Json, name: Json, comments: Json, status: Json,
                                       extra: map<string, Json>)

  /** The attributes `VMachine.__init__` leaves on the object. */
  datatype VMachine = VMachine(id: Json, name: Json, comments: Json, status: Json,
                               memory: Json, disk: Json, vcpus: Json, os: Json, vmid: Json,
                               extra: map<string, Json>)

  const BaseFields: set<string> := {"id", "name", "comments", "status"}
  const MachineFields: set<string> := BaseFields + {"memory", "disk", "vcpus", "os", "vmid"}

  /** A dict entry that Python can call `.get` on when it is present. */
  predicate GettableOrAbsent(data: map<string, Json>, key: string) {
    key !in data || data[key].Obj?
  }

  /** `NetboxObject(webhook_data, **kwargs)`: the keyword arguments are set
      first, so the four fixed attributes overwrite them. */
  function NewNetboxObject(data: Json, kwargs: map<string, Json>): (r: Result<NetboxObject>)
    ensures r.Ok? <==> data.Obj? && GettableOrAbsent(data.fields, "status")
    ensures r.Err? ==> r.fault == AttributeError
    ensures r.Ok? ==> r.value.extra.Keys == kwargs.Keys - BaseFields
    ensures r.Ok? ==> forall k :: k in r.value.extra ==> r.value.extra[k] == kwargs[k]
  {
    match data
    case Obj(m) =>
      var status := Get(At(m, "status"), "value", Str(""));
      if "status" in m && status.Err? then Err(AttributeError)
      else
        Ok(NetboxObject(
             At(m, "id"),
             if "name" in m then m["name"] else Str(""),
             if "comments" in m then m["comments"] else Str(""),
             if "status" in m then status.value else Str(""),
             kwargs - BaseFields))
    case _ => Err(AttributeError)
  }

  /** `VMachine(webhook_data, **kwargs)`: the base attributes are set without
      the keyword arguments, then the keyword arguments (which overwrite the
      base ones), then the five machine attributes. */
  function NewVMachine(data: Json, kwargs: map<string, Json>): (r: Result<VMachine>)
    ensures r.Ok? <==> data.Obj? && GettableOrAbsent(data.fields, "status")
                         && GettableOrAbsent(data.fields, "custom_fields")
    ensures r.Err? ==> r.fault == AttributeError
    ensures r.Ok? ==> r.value.extra.Keys == kwargs.Keys - MachineFields
    ensures r.Ok? ==> forall k :: k in r.value.extra ==> r.value.extra[k] == kwargs[k]
  {
    match NewNetboxObject(data, map[])
    case Err(f) => Err(f)
    case Ok(base) =>
      var m := data.fields;
      var custom := if "custom_fields" in m then m["custom_fields"] else Obj(map[]);
      if !custom.Obj? then Err(AttributeError)
      else
        var cf := custom.fields;
        Ok(VMachine(
             if "id" in kwargs then kwargs["id"] else base.id,
             if "name" in kwargs then kwargs["name"] else base.name,
             if "comments" in kwargs then kwargs["comments"] else base.comments,
             if "status" in kwargs then kwargs["status"] else base.status,
             At(m, "memory"),
             At(m, "disk"),
             if "vcpus" in m then m["vcpus"] else Str(""),
             if "os" in cf then cf["os"] else Str(""),
             if "vmid" in cf then cf["vmid"] else Str(""),
             kwargs - MachineFields))
  }

  /** A payload that carries none of the fields gets the documented defaults. */
  lemma VMachineDefaults(m: map<string, Json>)
    requires forall k :: k in m ==> k !in {"id", "name", "comments", "status", "memory",
                                           "disk", "vcpus", "custom_fields"}
    ensures NewVMachine(Obj(m), map[])
         == Ok(VMachine(Null, Str(""), Str(""), Str(""), Null, Null, Str(""), Str(""), Str(""), map[]))
  {
  }

  /** Nested fields that are missing get the same defaults: status and the two
      custom fields read as the empty string. */
  lemma VMachineNestedDefaults(m: map<string, Json>)
    requires "status" in m && m["status"] == Obj(map[])
    requires "custom_fields" in m && m["custom_fields"] == Obj(map[])
    ensures NewVMachine(Obj(m), map[]).Ok?
    ensures var v := NewVMachine(Obj(m), map[]).value;
            v.status == Str("") && v.os == Str("") && v.vmid == Str("")
  {
  }

  /** Fields that are present are taken as they are, status from
      `status.value` and os and vmid from `custom_fields`. */
  lemma VMachinePresentFields(m: map<string, Json>, st: map<string, Json>, cf: map<string, Json>)
    requires "status" in m && m["status"] == Obj(st) && "value" in st
    requires "custom_fields" in m && m["custom_fields"] == Obj(cf) && "os" in cf && "vmid" in cf
    requires "name" in m && "memory" in m && "vcpus" in m
    ensures NewVMachine(Obj(m), map[]).Ok?
    ensures var v := NewVMachine(Obj(m), map[]).value;
            v.status == st["value"] && v.os == cf["os"] && v.vmid == cf["vmid"]
            && v.name == m["name"] && v.memory == m["memory"] && v.vcpus == m["vcpus"]
  {
  }

  /** Keyword arguments win over the base attributes, but never over the five
      machine attributes, which always come from the payload. */
  lemma VMachineKeywordPrecedence(data: Json, kwargs: map<string, Json>)
    requires NewVMachine(data, map[]).Ok?
    ensures NewVMachine(data, kwargs).Ok?
    ensures var v, w := NewVMachine(data, kwargs).value, NewVMachine(data, map[]).value;
            && (if "name" in kwargs then v.name == kwargs["name"] else v.name == w.name)
            && (if "id" in kwargs then v.id == kwargs["id"] else v.id == w.id)
            && (if "comments" in kwargs then v.comments == kwargs["comments"] else v.comments == w.comments)
            && (if "status" in kwargs then v.status == kwargs["status"] else v.status == w.status)
            && v.vmid == w.vmid && v.os == w.os && v.memory == w.memory
            && v.disk == w.disk && v.vcpus == w.vcpus
  {
  }

  /** Whether `vm.get("template") != 1` fails, Python equality included
      (so `True` and `1.0` count as 1). */
  predicate IsTemplate(vm: map<string, Json>)
    ensures IsTemplate(vm) ==> "template" in vm
    ensures "template" in vm && vm["template"] in {Int(1), Bool(true), Real(1.0)} ==> IsTemplate(vm)
  {
    PyEq(At(vm, "template"), Int(1))
  }

  /** The listing without templates, in listing order. */
  function NonTemplates(vms: seq<map<string, Json>>): (kept: seq<map<string, Json>>)
    ensures |kept| <= |vms|
    ensures forall i :: 0 <= i < |kept| ==> !IsTemplate(kept[i])
  {
    if vms == [] then []
    else
      var last := vms[|vms| - 1];
      NonTemplates(vms[..|vms| - 1]) + (if IsTemplate(last) then [] else [last])
  }

  /** Filtering distributes over concatenation, so the kept VMs stay in order. */
  lemma {:induction false} NonTemplatesConcat(a: seq<map<string, Json>>, b: seq<map<string, Json>>)
    ensures NonTemplates(a + b) == NonTemplates(a) + NonTemplates(b)
    decreases |b|
  {
    if b != [] {
      var b' := b[..|b| - 1];
      assert (a + b)[..|a + b| - 1] == a + b';
      assert (a + b)[|a + b| - 1] == b[|b| - 1];
      NonTemplatesConcat(a, b');
    } else {
      assert a + b == a;
    }
  }

  /** A VM is kept exactly when it is listed and is not a template. */
  lemma {:induction false} NonTemplatesMembers(vms: seq<map<string, Json>>, vm: map<string, Json>)
    ensures vm in NonTemplates(vms) <==> vm in vms && !IsTemplate(vm)
    decreases |vms|
  {
    if vms != [] {
      var init := vms[..|vms| - 1];
      NonTemplatesMembers(init, vm);
      assert vms == init + [vms[|vms| - 1]];
    }
  }

  /** What `_check_ssl_verify` leaves in `ssl_verify`. The second test sees
      the value the first one may have replaced. */
  function CheckedSslVerify(v: Json): (r: Json)
    ensures r == v || r == Bool(false) || r == Bool(true)
  {
    var first := if PyEq(v, Int(0)) then Bool(false) else v;
    if PyEq(first, Int(1)) then Bool(true) else first
  }

  lemma CheckedSslVerifyIdempotent(v: Json)
    ensures CheckedSslVerify(CheckedSslVerify(v)) == CheckedSslVerify(v)
  {
  }

  /** Numbers equal to 0 or 1 become booleans; anything else, including the
      strings "0" and "1" an environment variable holds, is left as it is. */
  lemma CheckedSslVerifyValues(v: Json)
    ensures PyEq(v, Int(0)) ==> CheckedSslVerify(v) == Bool(false)
    ensures PyEq(v, Int(1)) ==> CheckedSslVerify(v) == Bool(true)
    ensures !PyEq(v, Int(0)) && !PyEq(v, Int(1)) ==> CheckedSslVerify(v) == v
  {
  }

  /** The Proxmox client for one VM on one node. */
  class Proxmox {
    const remote: Remote
    const rt: Runtime
    var vmId: Json
    var sslVerify: Json
    const nodeName: string

    constructor (remote: Remote, rt: Runtime, vmId: Json, sslVerify: Json, nodeName: string)
      ensures this.remote == remote && this.rt == rt && this.vmId == vmId
      ensures this.sslVerify == sslVerify && this.nodeName == nodeName
    {
      this.remote, this.rt, this.vmId := remote, rt, vmId;
      this.sslVerify, this.nodeName := sslVerify, nodeName;
    }

    /** The path segment the client builds for this VM: `str(vm_id)`. */
    function Vm(): (segment: string)
      reads this
      ensures vmId.Str? ==> segment == vmId.s
      ensures vmId.Int? ==> segment == Decimal(vmId.i)
    {
      PyStr(rt, vmId)
    }

    method CheckSslVerify()
      modifies this`sslVerify
      ensures sslVerify == CheckedSslVerify(old(sslVerify))
    {
      if PyEq(sslVerify, Int(0)) {
        sslVerify := Bool(false);
      }
      if PyEq(sslVerify, Int(1)) {
        sslVerify := Bool(true);
      } else {
        sslVerify := sslVerify;
      }
    }

    method GetVmStatus() returns (r: Result<string>)
      ensures Vm() in remote.status ==> r == Ok(remote.status[Vm()])
      ensures Vm() !in remote.status ==> r == Err(ApiError)
    {
      r := remote.QueryStatus(Vm());
    }

    /** An empty spec issues nothing and reports False; any other issues
        exactly one create and reports True. */
    method CreateVm(specs: map<string, Json>) returns (created: bool)
      modifies remote`log
      ensures created <==> |specs| != 0
      ensures remote.log == old(remote.log) + (if created then [Create(specs)] else [])
    {
      if |specs| == 0 {
        return false;
      }
      remote.CreateQemu(specs);
      return true;
    }

    /** Issues one stop for a VM the node knows (an API error otherwise) and
        reports whether the status read afterwards is "stopped". */
    method StopVm() returns (r: Result<bool>)
      modifies remote`status, remote`log
      ensures Vm() !in old(remote.status) ==>
                r == Err(ApiError) && remote.status == old(remote.status) && remote.log == old(remote.log)
      ensures Vm() in old(remote.status) ==>
                && remote.log == old(remote.log) + [Stop(Vm())]
                && remote.status == old(remote.status)[Vm() := remote.afterStop(Vm())]
                && r == Ok(remote.afterStop(Vm()) == "stopped")
    {
      var accepted := remote.PostStop(Vm());
      if !accepted {
        return Err(ApiError);
      }
      var s := GetVmStatus();
      if s == Ok("stopped") {
        return Ok(true);
      }
      return Ok(false);
    }

    /** Issues a start only when the VM is stopped, and reports whether it did. */
    method StartVm() returns (r: Result<bool>)
      modifies remote`status, remote`log
      ensures Vm() !in old(remote.status) ==>
                r == Err(ApiError) && remote.status == old(remote.status) && remote.log == old(remote.log)
      ensures Vm() in old(remote.status) && old(remote.status)[Vm()] == "stopped" ==>
                && r == Ok(true)
                && remote.log == old(remote.log) + [Start(Vm())]
                && remote.status == old(remote.status)[Vm() := remote.afterStart(Vm())]
      ensures Vm() in old(remote.status) && old(remote.status)[Vm()] != "stopped" ==>
                r == Ok(false) && remote.status == old(remote.status) && remote.log == old(remote.log)
    {
      var s := GetVmStatus();
      if s.Err? {
        return Err(ApiError);
      }
      if s.value == "stopped" {
        var accepted := remote.PostStart(Vm());
        return Ok(true);
      }
      return Ok(false);
    }

    /** A running VM is stopped first and deleted only if it then reads as
        stopped; a stopped VM is deleted directly; in any other status nothing
        is issued. Reports True exactly when it issued a delete. */
    method DeleteVm() returns (r: Result<bool>)
      modifies remote`status, remote`log
      ensures Vm() !in old(remote.status) ==>
                r == Err(ApiError) && remote.status == old(remote.status) && remote.log == old(remote.log)
      ensures Vm() in old(remote.status) && old(remote.status)[Vm()] == "running" ==>
                var after := remote.afterStop(Vm());
                && r == Ok(after == "stopped")
                && (after == "stopped" ==>
                      remote.log == old(remote.log) + [Stop(Vm()), Delete(Vm())]
                      && remote.status == old(remote.status) - {Vm()})
                && (after != "stopped" ==>
                      remote.log == old(remote.log) + [Stop(Vm())]
                      && remote.status == old(remote.status)[Vm() := after])
      ensures Vm() in old(remote.status) && old(remote.status)[Vm()] == "stopped" ==>
                r == Ok(true) && remote.log == old(remote.log) + [Delete(Vm())]
                && remote.status == old(remote.status) - {Vm()}
      ensures Vm() in old(remote.status) && old(remote.status)[Vm()] !in {"running", "stopped"} ==>
                r == Ok(false) && remote.status == old(remote.status) && remote.log == old(remote.log)
    {
      var s := GetVmStatus();
      if s.Err? {
        return Err(ApiError);
      }
      if s.value == "running" {
        var stopped := StopVm();
        var again := GetVmStatus();
        if again != Ok("stopped") {
          return Ok(false);
        } else {
          var accepted := remote.DeleteQemu(Vm());
          return Ok(true);
        }
      }
      var again := GetVmStatus();
      if again == Ok("stopped") {
        var accepted := remote.DeleteQemu(Vm());
        return Ok(true);
      }
      return Ok(false);
    }

    /** A falsy new id issues nothing and reports False; otherwise exactly one
        clone of this VM is issued. */
    method CloneTemplateVm(newVmId: Json) returns (r: Result<bool>)
      modifies remote`log
      ensures !Truthy(newVmId) ==> r == Ok(false) && remote.log == old(remote.log)
      ensures Truthy(newVmId) && Vm() in remote.status ==>
                r == Ok(true) && remote.log == old(remote.log) + [Clone(Vm(), newVmId)]
      ensures Truthy(newVmId) && Vm() !in remote.status ==>
                r == Err(ApiError) && remote.log == old(remote.log)
    {
      if !Truthy(newVmId) {
        return Ok(false);
      }
      var accepted := remote.PostClone(Vm(), newVmId);
      if !accepted {
        return Err(ApiError);
      }
      return Ok(true);
    }

    /** The node's VMs that are not templates, in listing order. */
    method Vms() returns (allVms: seq<map<string, Json>>)
      ensures allVms == NonTemplates(remote.listing)
    {
      allVms := [];
      var vms := remote.QueryVms();
      for i := 0 to |vms|
        invariant allVms == NonTemplates(vms[..i])
      {
        assert vms[..i + 1][..i] == vms[..i];
        if !PyEq(At(vms[i], "template"), Int(1)) {
          allVms := allVms + [vms[i]];
        }
      }
      assert vms[..|vms|] == vms;
    }
  }

  /** The Netbox client, holding the VM record it fetched at construction. */
  class NetboxCall {
    const remote: Remote
    const netboxId: string
    var vm: Record

    ghost predicate Valid()
      reads this, remote
    {
      netboxId in remote.records && remote.Valid()
    }

    /** Fetches the record; the handler that constructs one checks first that
        Netbox has it, since the source raises otherwise. */
    constructor (remote: Remote, netboxId: string)
      requires netboxId in remote.records && remote.Valid()
      ensures Valid() && this.remote == remote && this.netboxId == netboxId
      ensures vm == remote.records[netboxId]
    {
      this.remote, this.netboxId := remote, netboxId;
      this.vm := remote.records[netboxId];
    }

    /** Empty input issues nothing and returns None; otherwise the fields are
        set on the record, one update is issued, and the record is returned. */
    method UpdateVmInformation(newInfo: map<string, Json>) returns (r: Option<Record>)
      requires Valid()
      modifies this`vm, remote`records, remote`log
      ensures Valid()
      ensures |newInfo| == 0 ==>
                r == None && vm == old(vm) && remote.records == old(remote.records)
                && remote.log == old(remote.log)
      ensures |newInfo| != 0 ==>
                && vm == old(vm) + newInfo && r == Some(vm)
                && remote.records == old(remote.records)[netboxId := old(remote.records)[netboxId] + newInfo]
                && remote.log == old(remote.log) + [RecordUpdate(netboxId, newInfo)]
    {
      if |newInfo| == 0 {
        return None;
      }
      vm := vm + newInfo;
      remote.PatchRecord(netboxId, newInfo);
      return Some(vm);
    }

    /** Looks the tag up by name and creates it only when absent (slug and
        color lower-cased); returns its id either way. An empty name returns
        None and issues nothing. */
    method CreateTag(tagName: Option<string>, color: string) returns (r: Option<int>)
      requires Valid()
      modifies remote`tags, remote`nextTagId, remote`log
      ensures Valid()
      ensures (tagName.None? || tagName.value == "") ==>
                r == None && remote.tags == old(remote.tags) && remote.log == old(remote.log)
                && remote.nextTagId == old(remote.nextTagId)
      ensures tagName.Some? && tagName.value != "" && tagName.value in old(remote.tags) ==>
                r == Some(old(remote.tags)[tagName.value].id)
                && remote.tags == old(remote.tags) && remote.log == old(remote.log)
                && remote.nextTagId == old(remote.nextTagId)
      ensures tagName.Some? && tagName.value != "" && tagName.value !in old(remote.tags) ==>
                var name := tagName.value;
                && r == Some(old(remote.nextTagId))
                && remote.tags == old(remote.tags)[name := Tag(old(remote.nextTagId), Lower(name), Lower(color))]
                && remote.nextTagId == old(remote.nextTagId) + 1
                && remote.log == old(remote.log) + [TagCreate(name, Lower(name), Lower(color))]
      ensures r.Some? ==> tagName.Some? && tagName.value in remote.tags
                          && remote.tags[tagName.value].id == r.value
    {
      if tagName.None? || tagName.value == "" {
        return None;
      }
      var name := tagName.value;
      var tag := remote.FindTag(name);
      if tag.None? {
        remote.PostTag(name, Lower(name), Lower(color));
        tag := remote.FindTag(name);
        return Some(tag.value.id);
      } else {
        return Some(tag.value.id);
      }
    }
  }

  /** Asking for the same tag twice returns the same id, and the second call
      creates nothing. */
  method CreateTagTwice(nb: NetboxCall, name: string, color: string) returns (first: Option<int>, second: Option<int>)
    requires nb.Valid()
    modifies nb.remote`tags, nb.remote`nextTagId, nb.remote`log
    ensures nb.Valid()
    ensures first == second
    ensures |nb.remote.log| <= |old(nb.remote.log)| + 1
    ensures name == "" ==> nb.remote.log == old(nb.remote.log)
  {
    first := nb.CreateTag(Some(name), color);
    ghost var between := nb.remote.log;
    second := nb.CreateTag(Some(name), color);
    assert nb.remote.log == between;
  }
}

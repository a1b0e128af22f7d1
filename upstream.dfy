/** The two systems the service talks to, reduced to the state its calls can
    observe or change: one Proxmox node (the status of each VM, and the qemu
    listing the API returns), the Netbox inventory (virtual-machine records and
    the tag store), and one log of every command either system accepted, in
    the order it was issued. */
module Upstream {
  import opened Values

  /** A VM record as Netbox serialises it (`dict(record)`). */
  type Record = map<string, Json>

  datatype Tag = Tag(id: int, slug: string, color: string)

  /** A command a remote system accepted. VMs are addressed by the path
      segment the client builds from the VMID, that is `str(vmid)`. */
  datatype Command =
    | Stop(vm: string)
    | Start(vm: string)
    | Delete(vm: string)
    | Create(spec: map<string, Json>)
    | Clone(vm: string, newId: Json)
    | TagCreate(name: string, slug: string, color: string)
    | RecordUpdate(record: string, info: map<string, Json>)

  class Remote {
    /** Proxmox: status of each VM the node knows, by VMID path segment. */
    var status: map<string, string>
    /** Proxmox: the node's qemu listing, one dict per VM, as returned. */
    var listing: seq<map<string, Json>>
    /** Netbox: virtual-machine records by id. */
    var records: map<string, Record>
    /** Netbox: the tag store by tag name, and the id the next tag gets. */
    var tags: map<string, Tag>
    var nextTagId: int
    /** Every command accepted so far, oldest first. */
    var log: seq<Command>
    /** Proxmox: the status a VM reads as right after the node accepts a stop
        (a start) for it. The service cannot know it beforehand; the model
        takes the node's behaviour as a parameter. */
    const afterStop: string -> string
    const afterStart: string -> string

    /** Netbox hands out tag ids that no existing tag has. */
    ghost predicate Valid()
      reads this
    {
      forall n :: n in tags ==> tags[n].id < nextTagId
    }

    constructor (status: map<string, string>, listing: seq<map<string, Json>>,
                 records: map<string, Record>, tags: map<string, Tag>, nextTagId: int,
                 afterStop: string -> string, afterStart: string -> string)
      requires forall n :: n in tags ==> tags[n].id < nextTagId
      ensures Valid()
      ensures this.status == status && this.listing == listing && this.records == records
      ensures this.tags == tags && this.nextTagId == nextTagId && log == []
      ensures this.afterStop == afterStop && this.afterStart == afterStart
    {
      this.status, this.listing, this.records := status, listing, records;
      this.tags, this.nextTagId, this.log := tags, nextTagId, [];
      this.afterStop, this.afterStart := afterStop, afterStart;
    }

    /** GET .../qemu/{vm}/status/current: an unknown VM is an API error. */
    method QueryStatus(vm: string) returns (r: Result<string>)
      ensures vm in status ==> r == Ok(status[vm])
      ensures vm !in status ==> r == Err(ApiError)
    {
      if vm in status {
        r := Ok(status[vm]);
      } else {
        r := Err(ApiError);
      }
    }

    /** GET .../qemu: the listing, templates included. */
    method QueryVms() returns (vms: seq<map<string, Json>>)
      ensures vms == listing
    {
      vms := listing;
    }

    /** POST .../qemu/{vm}/status/stop: the VM then reads as `afterStop(vm)`,
        and no other VM changes. */
    method PostStop(vm: string) returns (accepted: bool)
      modifies this`status, this`log
      ensures accepted == (vm in old(status))
      ensures accepted ==> status == old(status)[vm := afterStop(vm)] && log == old(log) + [Stop(vm)]
      ensures !accepted ==> status == old(status) && log == old(log)
    {
      accepted := vm in status;
      if accepted {
        status := status[vm := afterStop(vm)];
        log := log + [Stop(vm)];
      }
    }

    /** POST .../qemu/{vm}/status/start: the VM then reads as `afterStart(vm)`,
        and no other VM changes. */
    method PostStart(vm: string) returns (accepted: bool)
      modifies this`status, this`log
      ensures accepted == (vm in old(status))
      ensures accepted ==> status == old(status)[vm := afterStart(vm)] && log == old(log) + [Start(vm)]
      ensures !accepted ==> status == old(status) && log == old(log)
    {
      accepted := vm in status;
      if accepted {
        status := status[vm := afterStart(vm)];
        log := log + [Start(vm)];
      }
    }

    /** DELETE .../qemu/{vm}: the VM is gone from the node. */
    method DeleteQemu(vm: string) returns (accepted: bool)
      modifies this`status, this`log
      ensures accepted == (vm in old(status))
      ensures accepted ==> status == old(status) - {vm} && log == old(log) + [Delete(vm)]
      ensures !accepted ==> status == old(status) && log == old(log)
    {
      accepted := vm in status;
      if accepted {
        status := status - {vm};
        log := log + [Delete(vm)];
      }
    }

    /** POST .../qemu with the given parameters. */
    method CreateQemu(spec: map<string, Json>)
      modifies this`log
      ensures log == old(log) + [Create(spec)]
    {
      log := log + [Create(spec)];
    }

    /** POST .../qemu/{vm}/clone with newid: the template must exist. */
    method PostClone(vm: string, newId: Json) returns (accepted: bool)
      modifies this`log
      ensures accepted == (vm in status)
      ensures accepted ==> log == old(log) + [Clone(vm, newId)]
      ensures !accepted ==> log == old(log)
    {
      accepted := vm in status;
      if accepted {
        log := log + [Clone(vm, newId)];
      }
    }

    /** GET /api/extras/tags/?name=...: the tag, if one has that name. */
    method FindTag(name: string) returns (t: Option<Tag>)
      ensures t == if name in tags then Some(tags[name]) else None
    {
      t := if name in tags then Some(tags[name]) else None;
    }

    /** POST /api/extras/tags/: the new tag gets a fresh id. */
    method PostTag(name: string, slug: string, color: string)
      requires Valid()
      modifies this`tags, this`nextTagId, this`log
      ensures Valid()
      ensures tags == old(tags)[name := Tag(old(nextTagId), slug, color)]
      ensures nextTagId == old(nextTagId) + 1
      ensures log == old(log) + [TagCreate(name, slug, color)]
    {
      tags := tags[name := Tag(nextTagId, slug, color)];
      nextTagId := nextTagId + 1;
      log := log + [TagCreate(name, slug, color)];
    }

    /** PATCH /api/virtualization/virtual-machines/{id}/ with the given fields. */
    method PatchRecord(id: string, info: map<string, Json>)
      requires id in records
      modifies this`records, this`log
      ensures records == old(records)[id := old(records)[id] + info]
      ensures log == old(log) + [RecordUpdate(id, info)]
    {
      records := records[id := records[id] + info];
      log := log + [RecordUpdate(id, info)];
    }
  }
}

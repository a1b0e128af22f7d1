# netprox in Dafny

netprox is a small service between a Netbox inventory and a Proxmox
hypervisor. Netbox calls its webhooks when a virtual machine record changes:
an "offline" or "active" status stops or starts the VM on Proxmox, and a
deletion event (signed with HMAC-SHA512) deletes it. A manual endpoint
creates the VM on Proxmox from its Netbox record, tags the record and
refuses VMIDs that are already in use.

This project models the decision logic of that service and proves what it
does to the two remote systems:

- `values.dfy` (module `Values`): the Python values the handlers see, as a
  `Json` datatype. It covers Python truthiness, `==` across bool, int and
  float, `str()`, `int(float(...))`, `dict.get` and ASCII `str.lower`. The
  library functions the model never looks inside are fields of a `Runtime`
  value: float parsing, `repr`, UTF-8 encoding and the HMAC-SHA512 hex
  digest of RFC 2104.
- `dicts.dfy` (module `Dicts`): Python's insertion-ordered `dict` as a
  sequence of pairs, with `d[k] = v` and `d.update(o)` and their lemmas.
- `upstream.dfy` (module `Upstream`): the abstract remote state.
  - Proxmox: the status of each VM, keyed by the path segment `str(vmid)`, and the node's qemu listing. What a VM reads as after a stop or a start is a parameter of the node (`afterStop`, `afterStart`).
  - Netbox: the virtual-machine records and the tag store.
  - One log of every command either system accepted.
  - The class `Remote` offers one method per remote call the core makes.
- `core.dfy` (module `Core`):
  - payload normalisation (`NetboxObject`, `VMachine`);
  - the Proxmox client's VM life cycle (stop, start, delete, create, clone, the template filter);
  - the Netbox client's record update and lookup-or-create of tags.
- `backend.dfy` (module `Backend`): the three handlers.
  - Each chain of checks is a plan function over the request.
  - Each handler is a method that carries out its plan on a `Remote`.
  - Each method's contract states the response, the exact commands appended to the log and the new remote state.
- `config.dfy` (module `Configuration`):
  - the configuration object, with its twelve environment settings;
  - the merge of keyword settings into the configuration dictionary;
  - the truthiness check over that dictionary.

The environment is an input map. Remote failures are the `ApiError` fault:
a VM Proxmox does not know, or a request without an id. An uncaught Python
exception is a `Failed(fault)` response.

### The collision scan and numeric VMIDs

The collision scan of `create_vm` (netprox/backend.py:171-185) is there to
refuse a VMID already in use, as its messages say. It compares each listed
VM's `vmid` with the string `str(vmid)`, so a listing that reports VMIDs as
numbers never matches. The model follows the code, and
`Backend.NumericVmidsNeverCollide` and `Backend.NumericListingExample`
state this behaviour. The worked examples that do collide use a listing that
reports the VMIDs as strings.

### The status label

`create_vm` compares `str(nb.vm.status)` with the capitalised "Staged" and
"Planned", while `update_vm` compares `status.value` with lower-case
"offline" and "active". A Netbox record serialises its status as a choice
with a `value` and a `label`, and the client renders a choice by its label.
`Backend.StatusLabel` models exactly that: the label of a choice, or `str()`
of anything else.

Three more behaviours are reproduced as written:

- `update_vm` answers a missing event with "not a delete event".
- `update_vm` returns the status value itself in its fallback branch.
- `int(float(vcpus))` runs before the completeness check, so a missing vcpus raises instead of giving the missing-data view.

## Model

| member | source | states |
|---|---|---|
| Values.Truthy | netprox/backend.py:54-59 | Python's `bool()`: false exactly for None, False, 0, 0.0, "", {} and [] |
| Values.At | netprox/backend.py:173 | `m.get(key)` on a dict: what `Get` gives with default None |
| Values.PyEq | netprox/classes/Core.py:205 | Python's `==`: reflexive; strings and dicts equal only when identical; ints by value; True equals 1 and False 0 |
| Values.PyStr | netprox/backend.py:173 | Python's `str()`: a string is itself; an int is its decimal digits, with a leading '-' exactly when negative |
| Values.Get | netprox/backend.py:54 | `d.get(key, default)` fails with AttributeError exactly when `d` is not a dict (e.g. a JSON body that is null, a list, a string or a number) |
| Values.Trunc | netprox/backend.py:202 | `int()` of a float truncates toward zero: the result lies within 1 of x, on x's side of zero |
| Values.IntOfFloat | netprox/backend.py:202 | `int(float(v))`: an int comes back unchanged; None, a dict or a list raise TypeError; a string that parses to infinity raises OverflowError, one that does not parse or parses to NaN raises ValueError; no other failure |
| Values.Lower | netprox/classes/Core.py:271 | `str.lower` keeps the length and lower-cases each ASCII letter in place |
| Values.LowerIdempotent | netprox/classes/Core.py:271 | lower-casing a slug or color a second time changes nothing |
| Dicts.Lookup | netprox/classes/Config.py:73-75 | `d.get(k)`: a value found is one paired with k in d; nothing is found only when no pair has key k |
| Dicts.Assign | netprox/classes/Config.py:73-75 | `d[k] = v`: the pair (k, v) is in the result, which grows by at most one entry |
| Dicts.Update | netprox/classes/Config.py:73-75 | `d.update(o)`: the result is at least as long as d and at most as long as d and o together |
| Dicts.AssignLookup | netprox/classes/Config.py:73-75 | after `d[k] = v`, k maps to v and every other key keeps its value |
| Dicts.AssignAppends | netprox/classes/Config.py:73-75 | assigning a key the dict lacks appends it at the end |
| Dicts.UpdateLookup | netprox/classes/Config.py:73-75 | after `d.update(o)` a key of o maps to o's value and any other key to d's |
| Dicts.UpdateKeys | netprox/classes/Config.py:73-75 | the keys after `d.update(o)` are exactly d's keys and o's keys |
| Dicts.UpdateUnique | netprox/classes/Config.py:73-75 | `update` never duplicates a key |
| Dicts.UpdateKeepsPositions | netprox/classes/Config.py:73-75 | `update` never moves a key already in the dict |
| Dicts.UpdateDisjoint | netprox/classes/Config.py:73-75 | updating with entirely new keys appends them in their order |
| Upstream.Remote.constructor | netprox/classes/Core.py:59-65 | the remote state starts as given, with an empty command log, fresh tag ids and the node's post-stop and post-start statuses |
| Upstream.Remote.QueryStatus | netprox/classes/Core.py:84-89 | the status of a known VM; an API error for an unknown one |
| Upstream.Remote.QueryVms | netprox/classes/Core.py:203 | the node's qemu listing, templates included |
| Upstream.Remote.PostStop | netprox/classes/Core.py:112 | a known VM gets one stop in the log and then reads as `afterStop` of it, no other VM changing; an unknown VM changes nothing |
| Upstream.Remote.PostStart | netprox/classes/Core.py:134 | a known VM gets one start in the log and then reads as `afterStart` of it, no other VM changing |
| Upstream.Remote.DeleteQemu | netprox/classes/Core.py:159 | a known VM is removed from the node and one delete is logged |
| Upstream.Remote.CreateQemu | netprox/classes/Core.py:103 | one create with the given parameters is logged |
| Upstream.Remote.PostClone | netprox/classes/Core.py:190-192 | cloning a known VM logs one clone with the new id; an unknown one logs nothing |
| Upstream.Remote.FindTag | netprox/classes/Core.py:267 | the tag of that name if the store has one |
| Upstream.Remote.PostTag | netprox/classes/Core.py:270-272 | the new tag gets an id no existing tag has, and one tag create is logged |
| Upstream.Remote.PatchRecord | netprox/classes/Core.py:252 | the record gains the given fields and one record update is logged |
| Core.NewNetboxObject | netprox/classes/Core.py:17-29 | normalisation succeeds exactly when the payload is a dict whose status, if present, is a dict; keyword arguments survive, with their values, except under the four fixed names |
| Core.NewVMachine | netprox/classes/Core.py:32-45 | as for NetboxObject, and custom_fields, if present, must be a dict; keyword arguments survive, with their values, except under the nine attribute names |
| Core.VMachineDefaults | netprox/classes/Core.py:26-45 | absent fields give id None, name/comments/status "", memory and disk None, vcpus "", os and vmid "" |
| Core.VMachineNestedDefaults | netprox/classes/Core.py:29-45 | an empty status or custom_fields dict gives status, os and vmid "" |
| Core.VMachinePresentFields | netprox/classes/Core.py:26-45 | present fields are taken as they are: status from status.value, os and vmid from custom_fields |
| Core.VMachineKeywordPrecedence | netprox/classes/Core.py:39-45 | keyword arguments override id/name/comments/status but never memory, disk, vcpus, os or vmid |
| Core.IsTemplate | netprox/classes/Core.py:205 | a VM is a template only when its listing has a `template` key, and always when that is 1, 1.0 or True |
| Core.NonTemplates | netprox/classes/Core.py:202-207 | the filtered listing is no longer than the listing and holds no template |
| Core.NonTemplatesConcat | netprox/classes/Core.py:202-207 | the template filter distributes over concatenation, so order is kept |
| Core.NonTemplatesMembers | netprox/classes/Core.py:202-207 | a VM is kept exactly when it is listed and its template is not 1 |
| Core.CheckedSslVerify | netprox/classes/Core.py:70-76 | the normalised value is the value itself, False or True |
| Core.CheckedSslVerifyIdempotent | netprox/classes/Core.py:70-76 | normalising ssl_verify twice is the same as once |
| Core.CheckedSslVerifyValues | netprox/classes/Core.py:70-76 | values equal to 0 become False, equal to 1 become True, anything else is kept |
| Core.Proxmox.constructor | netprox/classes/Core.py:49-68 | the client keeps the VM id, ssl_verify and node name it was given |
| Core.Proxmox.CheckSslVerify | netprox/classes/Core.py:70-76 | ssl_verify becomes its normalised value |
| Core.Proxmox.Vm | netprox/classes/Core.py:86 | the path segment `str(vm_id)`: a string id as it is, an int id in decimal |
| Core.Proxmox.GetVmStatus | netprox/classes/Core.py:78-89 | the current status of `str(vm_id)`, or an API error |
| Core.Proxmox.CreateVm | netprox/classes/Core.py:91-104 | an empty spec returns False and issues nothing; otherwise exactly one create, and True |
| Core.Proxmox.StopVm | netprox/classes/Core.py:106-116 | a VM the node knows gets exactly one stop, then reads as the node's post-stop status, and the result is True iff that is "stopped"; an unknown VM is an API error with nothing logged |
| Core.Proxmox.StartVm | netprox/classes/Core.py:127-137 | a start only when the status is "stopped", and True exactly then, the VM then reading as the post-start status; otherwise nothing changes |
| Core.Proxmox.DeleteVm | netprox/classes/Core.py:148-164 | running: one stop, then the delete exactly when the post-stop status is "stopped" (else the VM keeps that status); stopped: delete; other: nothing and False; True iff the delete was issued, and a deleted VM leaves the status map |
| Core.Proxmox.CloneTemplateVm | netprox/classes/Core.py:178-193 | a falsy new id returns False with no call; otherwise a VM the node knows gets exactly one clone and True, and an unknown VM is an API error with nothing logged |
| Core.Proxmox.Vms | netprox/classes/Core.py:195-207 | exactly the listed VMs whose template is not 1, in listing order |
| Core.NetboxCall.constructor | netprox/classes/Core.py:210-238 | the client holds the record Netbox has under the id |
| Core.NetboxCall.UpdateVmInformation | netprox/classes/Core.py:240-253 | empty input returns None with no call; otherwise the fields are merged into the record, one update is issued and the record returned |
| Core.NetboxCall.CreateTag | netprox/classes/Core.py:255-276 | an empty name: None, no call; an existing tag: its id, no create; otherwise one create (slug and color lower-cased) and the new id |
| Core.CreateTagTwice | netprox/classes/Core.py:255-276 | two calls with the same name return the same id and issue at most one create between them |
| Backend.CheckSignature | netprox/backend.py:23-42 | a signature that passes has the digest's length, and the digest itself always passes |
| Backend.CheckSignatureExact | netprox/backend.py:23-42 | the digest of the message under the key passes, and any other signature fails |
| Backend.MalformedSignatureRejected | netprox/backend.py:40-42 | a signature of the wrong length or with upper-case hex never matches the lower-case 128-digit digest |
| Backend.HasSignature | netprox/backend.py:57 | the signature header is present and, as a string, truthy |
| Backend.EventGate | netprox/backend.py:54-59 | a falsy or absent event is rejected first, then a missing or empty signature header; both pass exactly when both are present |
| Backend.UpdatePlan | netprox/backend.py:45-90 | a gate rejection is the answer; a stop or a start is only planned for a request with a truthy event and a signature |
| Backend.UpdateIgnoresSignatureValue | netprox/backend.py:57-90 | update_vm's outcome does not depend on the signature's value or the raw body, only on its presence |
| Backend.UpdateDispatch | netprox/backend.py:61-90 | "offline" plans a stop of custom_fields.vmid, "active" a start, any other status is returned as the bare value |
| Backend.UpdateVm | netprox/backend.py:45-90 | a rejection or the bare fallback issues nothing and changes no status; "offline" issues one stop and "active" a start only from "stopped", answering 200 whatever they report; only the addressed VM's status changes, to the node's post-stop or post-start status; an unknown VM is an API error |
| Backend.DeletePlan | netprox/backend.py:93-132 | a gate rejection is the answer; a delete is only planned when the signature is present and passes against the secret |
| Backend.DeleteRejectsParameterNames | netprox/backend.py:124 | a custom field named `self` or `webhook_data` clashes with a parameter of `VMachine.__init__` and the request fails with TypeError |
| Backend.DeleteChecksInOrder | netprox/backend.py:106-121 | event, then signature presence, then signature validity, each with its own 401 |
| Backend.DeleteNeedsValidSignature | netprox/backend.py:113-121 | a delete is only planned when the header equals the HMAC digest of the body under the secret |
| Backend.DeleteTargetsCustomVmid | netprox/backend.py:123-132 | the VM deleted is the payload's custom_fields.vmid |
| Backend.DeleteExample | netprox/backend.py:106-137 | a signed deletion event for VMID 101 plans the delete of 101 |
| Backend.DeleteVm | netprox/backend.py:93-137 | rejections issue nothing; an authorised request for a VM Proxmox knows runs the delete sequence (a running VM is deleted only if its post-stop status is "stopped") and answers {"message": "ok"}, 200; for an unknown VM the client's error escapes and nothing changes |
| Backend.ClaimsVmid | netprox/backend.py:173 | a listed VM claims a (non-None) VMID exactly when its `vmid` entry is present and equal to it |
| Backend.FirstMatch | netprox/backend.py:170-185 | the position of the first listed VM claiming the VMID, or none claims it |
| Backend.FindClaim | netprox/backend.py:171-179 | the loop over the VMs stops at exactly that first claim |
| Backend.VmIdOf | netprox/backend.py:159 | the record's VMID is what `custom_fields.get("vmid")` gives |
| Backend.InUseMessage | netprox/backend.py:180-184 | the in-use message starts with "VMID already in use! The VM " and the candidate's name |
| Backend.CollisionReply | netprox/backend.py:172-185 | a claiming VM always ends in the error view, unless the record has no name, which raises AttributeError |
| Backend.CreatePlan | netprox/backend.py:159-238 | a VM is provisioned only for a complete record whose VMID no listed VM claims, with that VMID, tag "staged" (start 0) or "created" (start 1) |
| Backend.CollisionStopsRequest | netprox/backend.py:170-185 | the first claiming VM ends the request: same name gives "same name and ID", else "VMID already in use" |
| Backend.NumericVmidsNeverCollide | netprox/backend.py:172-179 | a listing whose vmids are numbers never equals the string `str(vmid)` |
| Backend.SameVmExample | netprox/backend.py:172-177 | listing "100"/"a", "101"/"b": candidate 101 named "b" is the same VM |
| Backend.VmidInUseExample | netprox/backend.py:179-185 | candidate 101 named "c" gets the in-use message naming VM "b" |
| Backend.StagedExample | netprox/backend.py:187-222 | candidate 102 in status Staged is provisioned with start 0 and tag "staged" |
| Backend.NumericListingExample | netprox/backend.py:170-185 | with numeric vmids 100 and 101, candidate 101 is provisioned |
| Backend.MissingDataStopsRequest | netprox/backend.py:187-210 | any falsy value among vmid, os, name, memory, disk, vcpus gives the missing-data view |
| Backend.CoresConvertedBeforeCheck | netprox/backend.py:195-210 | a vcpus of None raises TypeError before the completeness check |
| Backend.BuildPlan | netprox/backend.py:187-238 | past the scan, provisioning needs a complete record; the tag is "staged" exactly for a staged plan, whose start is 0, and "created" otherwise, with start 1 |
| Backend.StatusLabel | netprox/backend.py:212-223 | a status choice renders as its label, a plain string as itself |
| Backend.VmSpec | netprox/backend.py:195-205 | the parameters carry the given VMID and start 1 |
| Backend.StatusBranch | netprox/backend.py:212-238 | for a complete record with no collision: Staged gives the record's parameters with start 0 and tag "staged"; Planned gives the planned success view and creates nothing; any other status gives the parameters unchanged (start 1) and tag "created" |
| Backend.VmSpecKeys | netprox/backend.py:195-205 | the create parameters have exactly the nine keys vmid, cdrom, name, storage, memory, scsi0, cores, start, net0 |
| Backend.VmSpecValues | netprox/backend.py:195-205 | vmid, name and memory are the record's own values, cdrom and scsi0 carry the "local:iso/" and "local-lvm:" prefixes, cores is the integer core count passed in, start is 1 |
| Backend.TagInfo | netprox/backend.py:215 | the record update carries exactly the key `tags`, holding the one tag id |
| Backend.ProvisionedView | netprox/backend.py:217-222 | the success view on the Proxmox host: a staged VM shows a message string, any other the create's boolean result |
| Backend.TagsAfter | netprox/classes/Core.py:255-276 | once tagged, the store holds the tag under its name with the id the record gets, and every tag it had before |
| Backend.TagRecord | netprox/backend.py:214-216 | the tag is looked up and created only when new, then the record (held and stored) gets exactly that tag id; tag store, id counter and log are stated exactly |
| Backend.TagAndCreate | netprox/backend.py:231-237 | tag create (only if new), then the record update with the tag id, then the VM create, in this order; records and tag store end tagged |
| Backend.Build | netprox/backend.py:187-238 | after the scan: a halting plan changes nothing in Netbox; a provisioning one tags the record and creates the VM, and shows the success view |
| Backend.ScanAndBuild | netprox/backend.py:159-238 | with the record fetched: the scan over the non-template VMs, then the plan's response; a halt changes nothing, a provision tags and creates |
| Backend.CreateVm | netprox/backend.py:140-238 | no id, an unknown id, or a halting plan: records, tags and log unchanged; a provisioning plan: tag, record update and create in that order, the record carrying the tag id, and the success view |
| Configuration.EnvValue | netprox/classes/Config.py:32-43 | `os.getenv(name)`: None exactly when the variable is unset, otherwise its string |
| Configuration.Merged | netprox/classes/Config.py:52-75 | the dictionary's keys are exactly the keys it had, the standard keys and the keyword keys |
| Configuration.StandardWins | netprox/classes/Config.py:73-75 | a standard key maps to its environment value even when a keyword setting shares its name |
| Configuration.KeywordKept | netprox/classes/Config.py:68-75 | a keyword setting under a non-standard name keeps its value |
| Configuration.NoKeywordsIsStandard | netprox/classes/Config.py:68-75 | without keyword settings the dictionary is exactly the standard mapping |
| Configuration.StandardKeysFirst | netprox/classes/Config.py:52-75 | the standard keys come first, in their listed order |
| Configuration.FalsyKeys | netprox/classes/Config.py:79-86 | at most one reported key per entry |
| Configuration.FalsyKeysExact | netprox/classes/Config.py:79-86 | a key is reported exactly when its value is falsy; none is reported exactly when all are truthy |
| Configuration.StandardUnique | netprox/classes/Config.py:54-67 | the twelve standard keys are distinct |
| Configuration.FreshStandardWins | netprox/classes/Config.py:44-75 | in a freshly built configuration every standard key holds its environment value |
| Configuration.Config.Standard | netprox/classes/Config.py:54-67 | the standard mapping has the twelve keys in the listed order |
| Configuration.Config.constructor | netprox/classes/Config.py:29-45 | each field holds its environment variable (None if unset) and the dictionary is the merge |
| Configuration.Config.AllConfig | netprox/classes/Config.py:52-75 | standard, then keyword settings if any, then standard again, by successive updates |
| Configuration.Config.GetConfig | netprox/classes/Config.py:47-50 | the dictionary itself, nothing changed |
| Configuration.Config.CheckConfig | netprox/classes/Config.py:77-86 | True iff every value is truthy; the missing list is exactly the falsy keys in order; nothing changes |

## Left out

- Flask itself is not modelled: routing, the health endpoint, the WSGI entry point, logging and `render_template`. Each response is a datatype value, and the two views stand for the rendered pages.
- HTTP header lookup is case-insensitive in Flask. The model looks the signature header up by its exact name.
- The HMAC-SHA512 digest is an uninterpreted function. That a one-bit change of body or signature flips the check is a property of the hash, so it is not proved.
- Backend.UpdateVm does not model how Flask turns the bare fallback value into an HTTP response.
- Values.IntOfFloat: `float()` of a string is an uninterpreted parser. An int goes through exactly, although Python's float would round integers beyond 2^53.
- Backend.StatusLabel: only the choice shape of a record's status is modelled; pynetbox's other field types are not part of this model.
- Values.PyEq: numbers compare across bool, int and float only at the top level. Dicts and lists compare structurally, whereas Python would also equate 1 and 1.0 inside them.
- Values.PyStr: `str()` of floats, dicts and lists comes from the runtime's `repr` and is not spelled out.
- Values.Lower: lower-cases ASCII letters only, not Unicode case mapping.
- Upstream.Remote.PostStop: the status Proxmox reports after a stop (a start) is a fixed function of the VM, the same for every stop of that VM within one run. Statuses change only through the service's own commands.
- Upstream.Remote.CreateQemu: a create and a clone are logged but add nothing to the status map or the listing.
- Upstream.Remote.PostTag: Netbox's refusal of a duplicate slug is not modelled. A tag create is always accepted.
- Upstream errors other than an unknown VM, a missing id or an unknown record are not modelled.
- An unknown record id is assumed to come back from pynetbox as None, which `dict()` rejects with TypeError. pynetbox is not part of this model.
- Core.NetboxCall.constructor: requires the record to exist. The unknown-id path is modelled in Backend.CreateVm before the constructor is called.
- Core.NetboxCall.UpdateVmInformation: pynetbox's `Record.update` saves only the changed fields. The model sends all given fields and merges them by key.
- The NetboxCall SSL session handling is not modelled (Core.py lines 221-229): it replaces the HTTP session object, and dereferences it when ssl_verify is 1. This is client plumbing.
- Core.Proxmox.constructor: the host, user and token parameters are not modelled. The node name is kept but does not appear in the commands, since the model has one node.
- `suspend_vm`, `shutdown_vm` and `vm_network_interface` are not modelled: no handler calls them.
- The `__dict__.update(kwargs)` of `NetboxObject`, `VMachine` and `Config` is modelled only as the map of surviving keyword values, or for `Config` as the dictionary. Attribute access under arbitrary names is not modelled.
- Concurrency is not modelled: each handler runs to completion against the remote state.

/**
  What the driver can see of Xen Orchestra (pkg/xoa/types.go, pkg/xoa/jsonrpc_client.go): storage
  repositories, virtual machines, disks and attachments, and what a lookup may answer.
 */
module Xo {
  import opened Wrappers
  import opened DiskNames
  import opened Metadata

  type Uuid = string

  datatype Sr = Sr(uuid: Uuid, shared: bool, pool: string, host: string, size: int, usage: int, tags: set<string>)

  datatype Vm = Vm(uuid: Uuid, pool: string, host: string)

  datatype Vdi = Vdi(name: DiskName, desc: Description, size: int, sr: Uuid)

  /** A VM can use a local SR only on the SR's own host, and a shared one anywhere in its pool. */
  predicate Reaches(sr: Sr, vm: Vm) {
    (sr.shared ==> sr.pool == vm.pool) && (!sr.shared ==> sr.host == vm.host)
  }

  datatype Vbd = Vbd(vm: Uuid, vdi: Uuid, device: string, attached: bool)

  /** The storage repositories by uuid. */
  ghost predicate Directory(dir: map<Uuid, Sr>) {
    forall u :: u in dir ==> dir[u].uuid == u
  }

  /** The reply of GetSRsWithTag: every repository bearing the tag, once, in any order. */
  ghost predicate ListsTag(dir: map<Uuid, Sr>, tag: string, listing: seq<Sr>) {
    && (forall sr :: sr in listing <==> sr.uuid in dir && dir[sr.uuid] == sr && tag in sr.tags)
    && (forall i, j :: 0 <= i < j < |listing| ==> listing[i] != listing[j])
  }

  /** What looking up the one disk with a given name can answer. */
  datatype Found =
    | NotFound
    | One(uuid: Uuid)
    | Many
    | Failed  // no answer: connection trouble, timeout

  ghost function Named(vdis: map<Uuid, Vdi>, name: DiskName): set<Uuid> {
    set u | u in vdis && vdis[u].name == name
  }

  ghost predicate NoneNamed(vdis: map<Uuid, Vdi>, name: DiskName) {
    forall u :: u in vdis ==> vdis[u].name != name
  }

  /** `u` is the one disk of that name. */
  ghost predicate OneNamed(vdis: map<Uuid, Vdi>, name: DiskName, u: Uuid) {
    u in vdis && vdis[u].name == name && forall w :: w in vdis && vdis[w].name == name ==> w == u
  }

  ghost predicate SeveralNamed(vdis: map<Uuid, Vdi>, name: DiskName) {
    exists u, w :: u in vdis && w in vdis && u != w && vdis[u].name == name && vdis[w].name == name
  }

  /** The none/one/many contract of GetOneVDI, filtered by name. */
  ghost predicate AnswersName(vdis: map<Uuid, Vdi>, name: DiskName, r: Found) {
    match r
    case NotFound => NoneNamed(vdis, name)
    case One(u) => OneNamed(vdis, name, u)
    case Many => SeveralNamed(vdis, name)
    case Failed => true
  }

  /** How an edit or a deletion can end for the caller. It takes effect before it returns, or never. */
  datatype Outcome =
    | Done    // took effect, and the caller was told
    | Lost    // took effect, but the reply was lost
    | Refused // no effect

  /** Effect of EditVDI on the disks. */
  function Edited(vdis: map<Uuid, Vdi>, u: Uuid, name: Option<DiskName>, desc: Option<Description>): map<Uuid, Vdi>
    requires u in vdis
  {
    var d := vdis[u];
    vdis[u := d.(name := if name.Some? then name.value else d.name, desc := if desc.Some? then desc.value else d.desc)]
  }

  /** An outcome that takes effect needs its disk to exist. */
  predicate Possible(o: Outcome, u: Uuid, vdis: map<Uuid, Vdi>) {
    o.Refused? || u in vdis
  }
}

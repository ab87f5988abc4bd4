/**
  The remote side as the driver's own code meets it: an object whose calls may succeed, find
  nothing, or fail with or without having taken effect (pkg/xoa/jsonrpc_client.go). `faults` counts
  the calls that were not answered properly, so "error-free" means that it did not grow.

  Between two calls of one method nothing else happens here; what concurrency adds is the subject
  of the protocol modules.
 */
module XoClient {
  import opened Wrappers
  import opened DiskNames
  import opened Metadata
  import opened Xo
  import opened CreationProtocol

  datatype XoError = NoSuchObject | Trouble

  datatype ResizeError = Gone | VdiInUse | NoAnswer

  /** Attachments of disk `vdi`, to any VM or to the given one. */
  predicate Concerns(vbd: Vbd, vm: Option<Uuid>, vdi: Uuid) {
    vbd.vdi == vdi && (vm.None? || vbd.vm == vm.value)
  }

  ghost predicate ListsVbds(vbds: map<Uuid, Vbd>, vm: Option<Uuid>, vdi: Uuid, list: seq<Uuid>) {
    && (forall b :: b in list <==> b in vbds && Concerns(vbds[b], vm, vdi))
    && (forall i, j :: 0 <= i < j < |list| ==> list[i] != list[j])
  }

  /** What has become of a request to migrate a disk by the time its sender stops waiting. */
  datatype Migration =
    | NotAccepted
    | Waiting
    | Undone
    | HalfDone(copy: Uuid)
    | Replaced(copy: Uuid)
  {
    predicate Possible(u: Uuid, vdis: map<Uuid, Vdi>, used: set<Uuid>) {
      NotAccepted? || (u in vdis && ((HalfDone? || Replaced?) ==> copy !in used))
    }

    function Disks(u: Uuid, target: Uuid, vdis: map<Uuid, Vdi>): map<Uuid, Vdi>
      requires !NotAccepted? ==> u in vdis
    {
      match this
      case HalfDone(copy) => vdis[copy := vdis[u].(sr := target)]
      case Replaced(copy) => vdis[copy := vdis[u].(sr := target)] - {u}
      case _ => vdis
    }

    function Used(used: set<Uuid>): set<Uuid> {
      if HalfDone? || Replaced? then used + {copy} else used
    }
  }

  class Client {
    var vdis: map<Uuid, Vdi>
    var used: set<Uuid>
    var vbds: map<Uuid, Vbd>
    var srs: map<Uuid, Sr>
    var vms: map<Uuid, Vm>
    var faults: nat
    var now: nat

    /** time.Now(): the clock may have moved, never backwards. */
    method Now() returns (t: nat)
      modifies this`now
      ensures t == now >= old(now)
    {
      var d: int := *;
      if d > 0 {
        now := now + d;
      }
      t := now;
    }

    /** Some calls fail. */
    method Answered() returns (ok: bool)
      modifies this`faults
      ensures faults == old(faults) + if ok then 0 else 1
    {
      ok := *;
      if !ok {
        faults := faults + 1;
      }
    }

    method GetVdis() returns (list: Option<seq<Entry>>)
      modifies this`faults
      ensures list.Some? ==> ListsAll(vdis, list.value) && faults == old(faults)
      ensures list.None? ==> faults == old(faults) + 1
    {
      var ok := Answered();
      if !ok {
        return None;
      }
      var entries: seq<Entry> := [];
      var rest := vdis.Keys;
      while rest != {}
        invariant rest <= vdis.Keys
        invariant forall i :: 0 <= i < |entries| ==>
                    entries[i].uuid in vdis && vdis[entries[i].uuid] == entries[i].vdi && entries[i].uuid !in rest
        invariant forall i, j :: 0 <= i < j < |entries| ==> entries[i].uuid != entries[j].uuid
        invariant forall u :: u in vdis ==> u in rest || exists i :: 0 <= i < |entries| && entries[i].uuid == u
        decreases |rest|
      {
        var u :| u in rest;
        ghost var before := entries;
        entries := entries + [Entry(u, vdis[u])];
        rest := rest - {u};
        assert entries[|before|].uuid == u;
        assert forall i :: 0 <= i < |before| ==> entries[i] == before[i];
      }
      return Some(entries);
    }

    method GetVdisNamed(name: DiskName) returns (list: Option<seq<Uuid>>)
      modifies this`faults
      ensures list.Some? ==> ListsNamed(vdis, name, list.value) && faults == old(faults)
      ensures list.None? ==> faults == old(faults) + 1
    {
      var ok := Answered();
      if !ok {
        return None;
      }
      var uuids: seq<Uuid> := [];
      var rest := set u | u in vdis && vdis[u].name == name;
      while rest != {}
        invariant forall u :: u in rest ==> u in vdis && vdis[u].name == name && u !in uuids
        invariant forall u :: u in uuids ==> u in vdis && vdis[u].name == name
        invariant forall i, j :: 0 <= i < j < |uuids| ==> uuids[i] != uuids[j]
        invariant forall u :: u in vdis && vdis[u].name == name ==> u in rest || u in uuids
        decreases |rest|
      {
        var u :| u in rest;
        uuids := uuids + [u];
        rest := rest - {u};
      }
      return Some(uuids);
    }

    method GetVdiByName(name: DiskName) returns (r: Found)
      modifies this`faults
      ensures AnswersName(vdis, name, r)
      ensures faults == old(faults) + if r.Failed? then 1 else 0
    {
      var list := GetVdisNamed(name);
      match list
      case None => r := Failed;
      case Some(uuids) =>
        if |uuids| == 0 {
          r := NotFound;
        } else if |uuids| == 1 {
          r := One(uuids[0]);
        } else {
          assert uuids[0] in uuids && uuids[1] in uuids && uuids[0] != uuids[1];
          r := Many;
        }
    }

    method GetVdiByUuid(u: Uuid) returns (r: Result<Vdi, XoError>)
      modifies this`faults
      ensures r.Ok? ==> u in vdis && r.value == vdis[u]
      ensures r.Err? ==> r == Err(Trouble) || (r == Err(NoSuchObject) && u !in vdis)
      ensures faults == old(faults) + if r == Err(Trouble) then 1 else 0
    {
      var ok := Answered();
      if !ok {
        return Err(Trouble);
      }
      r := if u in vdis then Ok(vdis[u]) else Err(NoSuchObject);
    }

    method GetSrByUuid(u: Uuid) returns (r: Result<Sr, XoError>)
      modifies this`faults
      ensures r.Ok? ==> u in srs && r.value == srs[u]
      ensures r.Err? ==> r == Err(Trouble) || (r == Err(NoSuchObject) && u !in srs)
      ensures faults == old(faults) + if r == Err(Trouble) then 1 else 0
    {
      var ok := Answered();
      if !ok {
        return Err(Trouble);
      }
      r := if u in srs then Ok(srs[u]) else Err(NoSuchObject);
    }

    method GetSrsWithTag(tag: string) returns (listing: Option<seq<Sr>>)
      requires Directory(srs)
      modifies this`faults
      ensures listing.Some? ==> ListsTag(srs, tag, listing.value) && faults == old(faults)
      ensures listing.None? ==> faults == old(faults) + 1
    {
      var ok := Answered();
      if !ok {
        return None;
      }
      var found: seq<Sr> := [];
      var rest := set u | u in srs && tag in srs[u].tags;
      while rest != {}
        invariant forall u :: u in rest ==> u in srs && tag in srs[u].tags && srs[u] !in found
        invariant forall sr :: sr in found ==> sr.uuid in srs && srs[sr.uuid] == sr && tag in sr.tags
        invariant forall i, j :: 0 <= i < j < |found| ==> found[i] != found[j]
        invariant forall u :: u in srs && tag in srs[u].tags ==> u in rest || srs[u] in found
        decreases |rest|
      {
        var u :| u in rest;
        found := found + [srs[u]];
        rest := rest - {u};
      }
      return Some(found);
    }

    /** An edit takes effect before it returns, or never. */
    method EditVdi(u: Uuid, name: Option<DiskName>, desc: Option<Description>)
      returns (r: Result<(), XoError>, ghost o: Outcome)
      modifies this`faults, this`vdis
      ensures Possible(o, u, old(vdis))
      ensures vdis == if o.Refused? then old(vdis) else Edited(old(vdis), u, name, desc)
      ensures r.Ok? <==> o.Done?
      ensures r.Err? ==> r == Err(Trouble) || (r == Err(NoSuchObject) && u !in old(vdis))
      ensures faults == old(faults) + if r == Err(Trouble) then 1 else 0
    {
      var before := Answered();
      if !before {
        o := Refused;
        return Err(Trouble), o;
      }
      if u !in vdis {
        o := Refused;
        return Err(NoSuchObject), o;
      }
      vdis := Edited(vdis, u, name, desc);
      var after := Answered();
      if !after {
        o := Lost;
        return Err(Trouble), o;
      }
      o := Done;
      r := Ok(());
    }

    method DeleteVdi(u: Uuid) returns (r: Result<(), XoError>, ghost o: Outcome)
      modifies this`faults, this`vdis
      ensures Possible(o, u, old(vdis))
      ensures vdis == if o.Refused? then old(vdis) else old(vdis) - {u}
      ensures r.Ok? <==> o.Done?
      ensures r.Err? ==> r == Err(Trouble) || (r == Err(NoSuchObject) && u !in old(vdis))
      ensures faults == old(faults) + if r == Err(Trouble) then 1 else 0
    {
      var before := Answered();
      if !before {
        o := Refused;
        return Err(Trouble), o;
      }
      if u !in vdis {
        o := Refused;
        return Err(NoSuchObject), o;
      }
      vdis := vdis - {u};
      var after := Answered();
      if !after {
        o := Lost;
        return Err(Trouble), o;
      }
      o := Done;
      r := Ok(());
    }

    /** A create whose reply was lost or late has still made its disk (`made`); the disk may also
        appear only after the caller has gone, which this call by itself does not show. */
    method CreateVdi(name: DiskName, sr: Uuid, size: int) returns (r: Result<Uuid, XoError>, ghost made: Option<Uuid>)
      requires vdis.Keys <= used
      modifies this`faults, this`vdis, this`used
      ensures made.Some? ==> made.value !in old(used)
      ensures vdis == if made.Some? then old(vdis)[made.value := Vdi(name, NoMetadata(""), size, sr)] else old(vdis)
      ensures used == if made.Some? then old(used) + {made.value} else old(used)
      ensures r.Ok? ==> made == Some(r.value) && faults == old(faults)
      ensures r.Err? ==> r == Err(Trouble) && faults == old(faults) + 1
    {
      made := None;
      var before := Answered();
      if !before {
        return Err(Trouble), made;
      }
      var u := FreshUuid(used);
      vdis := vdis[u := Vdi(name, NoMetadata(""), size, sr)];
      used := used + {u};
      made := Some(u);
      var after := Answered();
      if !after {
        return Err(Trouble), made;
      }
      r := Ok(u);
    }

    /** XO may refuse to resize a disk that is attached to some VM. */
    method ResizeVdi(u: Uuid, size: int) returns (r: Result<(), ResizeError>, ghost o: Outcome)
      modifies this`faults, this`vdis
      ensures Possible(o, u, old(vdis))
      ensures vdis == if o.Refused? then old(vdis) else old(vdis)[u := old(vdis)[u].(size := size)]
      ensures r.Ok? <==> o.Done?
      ensures r == Err(Gone) ==> u !in old(vdis) && o.Refused?
      ensures r == Err(VdiInUse) ==> u in old(vdis) && o.Refused? && exists b :: b in vbds && vbds[b].vdi == u
      ensures faults == old(faults) + if r == Err(NoAnswer) then 1 else 0
    {
      o := Refused;
      var before := Answered();
      if !before {
        return Err(NoAnswer), o;
      }
      if u !in vdis {
        return Err(Gone), o;
      }
      var refused: bool := *;
      if refused && u in (set b | b in vbds :: vbds[b].vdi) {
        return Err(VdiInUse), o;
      }
      vdis := vdis[u := vdis[u].(size := size)];
      var after := Answered();
      o := if after then Done else Lost;
      r := if after then Ok(()) else Err(NoAnswer);
    }

    method GetVmByUuid(u: Uuid) returns (r: Result<Vm, XoError>)
      modifies this`faults
      ensures r.Ok? ==> u in vms && r.value == vms[u]
      ensures r.Err? ==> r == Err(Trouble) || (r == Err(NoSuchObject) && u !in vms)
      ensures faults == old(faults) + if r == Err(Trouble) then 1 else 0
    {
      var ok := Answered();
      if !ok {
        return Err(Trouble);
      }
      r := if u in vms then Ok(vms[u]) else Err(NoSuchObject);
    }

    /** The attachments of a disk, to all VMs or to one. */
    method GetVbds(vm: Option<Uuid>, vdi: Uuid) returns (list: Option<seq<Uuid>>)
      modifies this`faults
      ensures list.Some? ==> ListsVbds(vbds, vm, vdi, list.value) && faults == old(faults)
      ensures list.None? ==> faults == old(faults) + 1
    {
      var ok := Answered();
      if !ok {
        return None;
      }
      var found: seq<Uuid> := [];
      var rest := set b | b in vbds && Concerns(vbds[b], vm, vdi);
      while rest != {}
        invariant forall b :: b in rest ==> b in vbds && Concerns(vbds[b], vm, vdi) && b !in found
        invariant forall b :: b in found ==> b in vbds && Concerns(vbds[b], vm, vdi)
        invariant forall i, j :: 0 <= i < j < |found| ==> found[i] != found[j]
        invariant forall b :: b in vbds && Concerns(vbds[b], vm, vdi) ==> b in rest || b in found
        decreases |rest|
      {
        var b :| b in rest;
        found := found + [b];
        rest := rest - {b};
      }
      return Some(found);
    }

    /** Connects an attachment and waits until it has a device. */
    method ConnectVbd(b: Uuid) returns (r: Result<Vbd, XoError>, ghost o: Outcome, ghost device: string)
      modifies this`faults, this`vbds
      ensures !o.Refused? ==> b in old(vbds)
      ensures vbds == if o.Refused? then old(vbds)
                      else old(vbds)[b := old(vbds[b]).(attached := true, device := device)]
      ensures r.Ok? ==> o.Done? && r.value == vbds[b] && device != ""
      ensures r.Err? ==> r == Err(Trouble) || (r == Err(NoSuchObject) && b !in old(vbds))
      ensures faults == old(faults) + if r == Err(Trouble) then 1 else 0
    {
      device := "";
      var before := Answered();
      if !before {
        o := Refused;
        return Err(Trouble), o, device;
      }
      if b !in vbds {
        o := Refused;
        return Err(NoSuchObject), o, device;
      }
      vbds := vbds[b := vbds[b].(attached := true, device := "")];
      var after := Answered();
      if !after {
        o := Lost;
        return Err(Trouble), o, device;
      }
      o := Done;
      device := "xvda";
      vbds := vbds[b := vbds[b].(device := "xvda")];
      r := Ok(vbds[b]);
    }

    /** Attaches a disk to a VM and waits for the device. An answer without one is not a proper one. */
    method AttachVdi(vm: Uuid, u: Uuid)
      returns (r: Result<Uuid, XoError>, ghost o: Outcome, ghost b: Uuid, ghost device: string)
      modifies this`faults, this`vbds
      ensures b !in old(vbds) && Possible(o, u, vdis)
      ensures vbds == if o.Refused? then old(vbds) else old(vbds)[b := Vbd(vm, u, device, true)]
      ensures r.Ok? ==> o.Done? && r.value == b
      ensures r.Err? ==> r == Err(Trouble) || (r == Err(NoSuchObject) && u !in vdis)
      ensures faults == old(faults) + if r == Err(Trouble) || (r.Ok? && device == "") then 1 else 0
    {
      device := "";
      var unused := FreshUuid(vbds.Keys);
      b := unused;
      var before := Answered();
      if !before {
        o := Refused;
        return Err(Trouble), o, b, device;
      }
      if u !in vdis {
        o := Refused;
        return Err(NoSuchObject), o, b, device;
      }
      vbds := vbds[unused := Vbd(vm, u, "", true)];
      var after := Answered();
      if !after {
        var told: bool := *;
        o := if told then Done else Lost;
        return if told then Ok(unused) else Err(Trouble), o, b, device;
      }
      o := Done;
      device := "xvda";
      vbds := vbds[unused := Vbd(vm, u, "xvda", true)];
      r := Ok(unused);
    }

    method DeleteVbd(b: Uuid) returns (r: Result<(), XoError>, ghost o: Outcome)
      modifies this`faults, this`vbds
      ensures vbds == if o.Refused? then old(vbds) else old(vbds) - {b}
      ensures r.Ok? <==> o.Done?
      ensures r.Err? ==> r == Err(Trouble) || (r == Err(NoSuchObject) && b !in old(vbds))
      ensures faults == old(faults) + if r == Err(Trouble) then 1 else 0
    {
      var before := Answered();
      if !before {
        o := Refused;
        return Err(Trouble), o;
      }
      if b !in vbds {
        o := Refused;
        return Err(NoSuchObject), o;
      }
      vbds := vbds - {b};
      var after := Answered();
      if !after {
        o := Lost;
        return Err(Trouble), o;
      }
      o := Done;
      r := Ok(());
    }

    /** Asks for a migration and waits for it. When the caller is not told the result, the request may
        not have arrived, or be queued, half done, done, or undone again (`m`). */
    method MigrateVdi(u: Uuid, target: Uuid) returns (r: Result<Uuid, XoError>, ghost m: Migration)
      requires vdis.Keys <= used
      modifies this`faults, this`vdis, this`used
      ensures m.Possible(u, old(vdis), old(used))
      ensures vdis == m.Disks(u, target, old(vdis)) && used == m.Used(old(used))
      ensures r.Ok? ==> m == Replaced(r.value)
      ensures r.Err? ==> r == Err(Trouble) || (r == Err(NoSuchObject) && u !in old(vdis) && m == NotAccepted)
      ensures faults == old(faults) + if r == Err(Trouble) then 1 else 0
    {
      var before := Answered();
      if !before {
        m := NotAccepted;
        return Err(Trouble), m;
      }
      if u !in vdis {
        m := NotAccepted;
        return Err(NoSuchObject), m;
      }
      var begun := Answered();
      if !begun {
        var undone: bool := *;
        m := if undone then Undone else Waiting;
        return Err(Trouble), m;
      }
      var copy := FreshUuid(used);
      vdis := vdis[copy := vdis[u].(sr := target)];
      used := used + {copy};
      var halfway := Answered();
      if !halfway {
        m := HalfDone(copy);
        return Err(Trouble), m;
      }
      vdis := vdis - {u};
      m := Replaced(copy);
      var told := Answered();
      r := if told then Ok(copy) else Err(Trouble);
    }
  }

  /** Some uuid not in use: one longer than all of them. */
  method FreshUuid(used: set<Uuid>) returns (u: Uuid)
    ensures u !in used
  {
    var rest := used;
    u := "u";
    while rest != {}
      invariant rest <= used
      invariant forall w :: w in used - rest ==> |w| < |u|
      decreases |rest|
    {
      var w :| w in rest;
      if |w| >= |u| {
        u := w + "u";
      }
      rest := rest - {w};
    }
  }
}

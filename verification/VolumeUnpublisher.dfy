/**
  ControllerUnpublishVolume as code (pkg/csi/controller.go:301-357): finds the disk, then deletes its
  attachments one by one and stops at the first failure.
 */
module VolumeUnpublisher {
  import opened Wrappers
  import opened DiskNames
  import opened Metadata
  import opened Xo
  import opened VolumeIds
  import opened MigrationProtocol
  import opened MigrationSafety
  import opened MigrationRuns
  import opened VolumePublisher
  import XoClient

  /** The attachments without those of disk `u` to `vm`, or to any VM when none is given. */
  function Removed(vbds: map<Uuid, Vbd>, vm: Option<Uuid>, u: Uuid): (left: map<Uuid, Vbd>)
    ensures forall b :: b in left <==> b in vbds && !XoClient.Concerns(vbds[b], vm, u)
    ensures forall b :: b in left ==> left[b] == vbds[b]
  {
    map b | b in vbds && !XoClient.Concerns(vbds[b], vm, u) :: vbds[b]
  }

  /** Some of these attachments may be gone; nothing else has changed. */
  ghost predicate PartlyRemoved(vbds: map<Uuid, Vbd>, vbds': map<Uuid, Vbd>, vm: Option<Uuid>, u: Uuid) {
    && (forall b :: b in vbds' ==> b in vbds && vbds'[b] == vbds[b])
    && (forall b :: b in vbds && !XoClient.Concerns(vbds[b], vm, u) ==> b in vbds')
  }

  function ToVm(vm: Uuid): Option<Uuid> {
    if vm == "" then None else Some(vm)
  }

  /** What unpublishing from `node` is about: the attachments of the disk to that VM, or to any VM when none
      is named. */
  predicate Affected(vbd: Vbd, node: Uuid, u: Uuid) {
    vbd.vdi == u && (node == "" || vbd.vm == node)
  }

  /** Of all ways to take some of these attachments away, and nothing else, it is the one that leaves none. */
  lemma RemovedExactlyWhen(vbds: map<Uuid, Vbd>, vbds': map<Uuid, Vbd>, node: Uuid, u: Uuid)
    ensures vbds' == Removed(vbds, ToVm(node), u) <==>
            && (forall b :: b in vbds' ==> b in vbds && vbds'[b] == vbds[b])
            && (forall b :: b in vbds && b !in vbds' ==> Affected(vbds[b], node, u))
            && forall b :: b in vbds' ==> !Affected(vbds'[b], node, u)
  {
    var removed := Removed(vbds, ToVm(node), u);
    assert forall b :: b in vbds ==> (b in removed <==> !Affected(vbds[b], node, u));
    if && (forall b :: b in vbds' ==> b in vbds && vbds'[b] == vbds[b])
       && (forall b :: b in vbds && b !in vbds' ==> Affected(vbds[b], node, u))
       && forall b :: b in vbds' ==> !Affected(vbds'[b], node, u)
    {
      assert forall b :: b in vbds' <==> b in removed;
    }
  }

  /** However far a failed attempt got, a retry has the same goal as the attempt had. */
  lemma RetryReachesTheSameState(vbds: map<Uuid, Vbd>, vbds': map<Uuid, Vbd>, vm: Option<Uuid>, u: Uuid)
    requires PartlyRemoved(vbds, vbds', vm, u)
    ensures Removed(vbds', vm, u) == Removed(vbds, vm, u)
  {
    var a, b := Removed(vbds', vm, u), Removed(vbds, vm, u);
    assert forall x :: x in a <==> x in b;
    assert forall x :: x in a ==> a[x] == b[x];
  }

  // ---------- as steps of the protocol ----------

  lemma Looks(r: Running, v: string, found: Found) returns (r': Running)
    requires See(Last(r), v).call.None? && See(Last(r), v).volume.Some? && Resolves(Last(r), v, UFind, found)
    ensures Continues(r, r')
    ensures See(Last(r'), v) == See(Last(r), v).(call := if found.One? then Some(UDelete(found.uuid)) else None)
  {
    r' := Steps(r, v, Begin(UFind));
    r' := Steps(r', v, Find(found));
  }

  lemma Detaches(r: Running, v: string, u: Uuid, vbds: map<Uuid, Vbd>, vm: Option<Uuid>) returns (r': Running)
    requires IsAt(See(Last(r), v), UDelete(u)) && PartlyRemoved(Last(r).vbds, vbds, vm, u)
    ensures Continues(r, r') && See(Last(r'), v) == See(Last(r), v).(vbds := vbds, call := None)
  {
    var gone := Last(r).vbds.Keys - vbds.Keys;
    r' := Steps(r, v, DetachAll(gone));
    var left := map b | b in Last(r).vbds && !(b in gone && Last(r).vbds[b].vdi == u) :: Last(r).vbds[b];
    assert left == vbds;
  }

  /** A volume handed out by uuid has its disk under that uuid. */
  lemma UuidLeadsThere(r: Running, v: string)
    requires See(Last(r), v).volume.Some? && Last(r).volumes[v].handle.ByUuid?
    ensures Last(r).volumes[v].handle.uuid in Last(r).vdis
  {
    VolumeInvAlways(r, |r.states| - 1, v);
  }

  lemma OtherDetaches(r: Running, v: string, b: Uuid) returns (r': Running)
    requires b in Last(r).vbds
    ensures Continues(r, r')
    ensures Last(r').vbds == Last(r).vbds - {b} && See(Last(r'), v) == See(Last(r), v).(vbds := Last(r).vbds - {b})
  {
    r' := Advance(r, ByWorld(DropVbd(b)));
  }

  /** Attachments may come and go without any call. */
  lemma {:induction false} OthersDetach(r: Running, v: string, vbds: map<Uuid, Vbd>, vm: Option<Uuid>, u: Uuid)
    returns (r': Running)
    requires PartlyRemoved(Last(r).vbds, vbds, vm, u)
    ensures Continues(r, r') && See(Last(r'), v) == See(Last(r), v).(vbds := vbds)
    decreases Last(r).vbds.Keys - vbds.Keys
  {
    if b :| b in Last(r).vbds && b !in vbds {
      r' := OtherDetaches(r, v, b);
      assert Last(r').vbds.Keys - vbds.Keys < Last(r).vbds.Keys - vbds.Keys by {
        assert b in Last(r).vbds.Keys - vbds.Keys && b !in Last(r').vbds.Keys - vbds.Keys;
      }
      r' := OthersDetach(r', v, vbds, vm, u);
    } else {
      r' := r;
      assert Last(r).vbds == vbds;
    }
  }

  /** The handle is that of the volume `v`. */
  predicate IsHandleOf(volume: Option<Volume>, v: string, id: ParsedId) {
    volume.Some? && id == IdOf(v, volume.value.handle)
  }

  /** By the call of the volume, or, if there is no such volume, as something that just happens. */
  lemma DetachesAnyway(r: Running, v: string, vbds: map<Uuid, Vbd>, vm: Option<Uuid>, u: Uuid) returns (r': Running)
    requires PartlyRemoved(Last(r).vbds, vbds, vm, u)
    requires See(Last(r), v).call.None? || IsAt(See(Last(r), v), UDelete(u))
    ensures Continues(r, r') && See(Last(r'), v) == See(Last(r), v).(vbds := vbds, call := None)
  {
    if See(Last(r), v).call.Some? {
      r' := Detaches(r, v, u, vbds, vm);
    } else {
      r' := OthersDetach(r, v, vbds, vm, u);
    }
  }

  // ---------- the code ----------

  /** The handle is a name. */
  predicate IsName(id: string) {
    ParseVolumeId(id).Ok? && ParseVolumeId(id).value.kind.NameAsVolumeId?
  }

  class Unpublisher {
    const xo: XoClient.Client

    constructor (xo: XoClient.Client)
      ensures this.xo == xo
    {
      this.xo := xo;
    }

    /** The protocol state describes the remote side. */
    ghost predicate Sees(s: Sight)
      reads this, xo
    {
      s.vdis == xo.vdis && s.used == xo.used && s.vbds == xo.vbds && s.srs == xo.srs && s.vms == xo.vms
    }

    /** The handle stands for disk `x`: the one disk of that name, or simply the uuid. */
    ghost predicate Names(id: ParsedId, x: Uuid)
      reads xo
    {
      match id.kind case NameAsVolumeId => LeadsTo(xo.vdis, id, x) case UuidAsVolumeId => x == id.value
    }

    /** Deletes the listed attachments in turn; stops at the first failure. */
    method DeleteVbds(list: seq<Uuid>, vm: Option<Uuid>, u: Uuid) returns (ok: bool)
      requires XoClient.ListsVbds(xo.vbds, vm, u, list)
      modifies xo`vbds, xo`faults
      ensures ok ==> xo.vbds == Removed(old(xo.vbds), vm, u)
      ensures PartlyRemoved(old(xo.vbds), xo.vbds, vm, u)
      ensures xo.faults >= old(xo.faults) && (xo.faults == old(xo.faults) ==> ok)
    {
      for i := 0 to |list|
        invariant PartlyRemoved(old(xo.vbds), xo.vbds, vm, u)
        invariant forall k :: 0 <= k < i ==> list[k] !in xo.vbds
        invariant forall k :: i <= k < |list| ==> list[k] in xo.vbds
        invariant xo.faults == old(xo.faults)
      {
        assert list[i] in list;
        var deleted;
        ghost var o;
        deleted, o := xo.DeleteVbd(list[i]);
        if deleted.Err? {
          return false;
        }
      }
      assert forall b :: b in old(xo.vbds) && XoClient.Concerns(old(xo.vbds)[b], vm, u) ==> b in list;
      assert forall b :: b in xo.vbds <==> b in Removed(old(xo.vbds), vm, u);
      return true;
    }

    /** Which disk the handle stands for; a uuid is taken as it is, whether there is such a disk or not. */
    method Resolve(id: ParsedId, v: string, ghost r: Running) returns (found: Found, ghost r': Running)
      requires Sees(See(Last(r), v)) && See(Last(r), v).call.None?
      modifies xo`faults
      ensures Continues(r, r')
      ensures See(Last(r'), v) ==
              See(Last(r), v).(call := if found.One? && IsHandleOf(See(Last(r), v).volume, v, id)
                                       then Some(UDelete(found.uuid)) else None)
      ensures found.One? ==> LeadsTo(xo.vdis, id, found.uuid) || id == ParsedId(UuidAsVolumeId, found.uuid)
      ensures found.NotFound? ==> id.kind.NameAsVolumeId? && NoneNamed(xo.vdis, Final(id.value))
      ensures found.Many? ==> id.kind.NameAsVolumeId? && SeveralNamed(xo.vdis, Final(id.value))
      ensures xo.faults == old(xo.faults) + if found.Failed? then 1 else 0
    {
      match id.kind {
        case NameAsVolumeId => found := xo.GetVdiByName(Final(id.value));
        case UuidAsVolumeId =>
          if IsHandleOf(See(Last(r), v).volume, v, id) {
            UuidLeadsThere(r, v);
          }
          found := One(id.value);
      }
      r' := r;
      if IsHandleOf(See(Last(r), v).volume, v, id) {
        r' := Looks(r, v, found);
      }
    }

    /** Lists the attachments and deletes them. */
    method Detach(v: string, vm: Option<Uuid>, u: Uuid, ghost r: Running) returns (ok: bool, ghost r': Running)
      requires Sees(See(Last(r), v)) && (See(Last(r), v).call.None? || IsAt(See(Last(r), v), UDelete(u)))
      modifies xo`vbds, xo`faults
      ensures Continues(r, r') && Sees(See(Last(r'), v)) && See(Last(r'), v).call.None?
              && See(Last(r'), v).volume == See(Last(r), v).volume
      ensures ok ==> xo.vbds == Removed(old(xo.vbds), vm, u)
      ensures PartlyRemoved(old(xo.vbds), xo.vbds, vm, u)
      ensures xo.faults >= old(xo.faults) && (xo.faults == old(xo.faults) ==> ok)
    {
      var listed := xo.GetVbds(vm, u);
      ok := false;
      if listed.Some? {
        ok := DeleteVbds(listed.value, vm, u);
      }
      r' := DetachesAnyway(r, v, xo.vbds, vm, u);
    }

    /** ControllerUnpublishVolume, for any handle, be it of the volume `v` or not. A success leaves no
        attachment of the disk to the VM, or to any VM when none is given, and every other attachment as
        it was; or there is no disk of the name. Several disks of the name are a migration under way, and
        no success. A failure may have removed some of the attachments and nothing else. With no failing
        call the handle and the names of the disks settle the answer. */
    method UnpublishVolume(id: string, v: string, vm: Uuid, ghost r: Running)
      returns (failure: Option<PublishError>, ghost u: Option<Uuid>, ghost r': Running)
      requires Sees(See(Last(r), v)) && See(Last(r), v).call.None?
      modifies xo`vbds, xo`faults
      ensures Continues(r, r') && Sees(See(Last(r'), v)) && See(Last(r'), v).call.None?
              && See(Last(r'), v).volume == See(Last(r), v).volume
      ensures u.Some? ==> ParseVolumeId(id).Ok? && Names(ParseVolumeId(id).value, u.value)
      ensures u.Some? ==> PartlyRemoved(old(xo.vbds), xo.vbds, ToVm(vm), u.value)
      ensures u.None? ==> xo.vbds == old(xo.vbds)
      ensures failure.None? && u.None? ==> IsName(id) && NoneNamed(xo.vdis, Final(ParseVolumeId(id).value.value))
      ensures failure.None? && u.Some? ==> xo.vbds == Removed(old(xo.vbds), ToVm(vm), u.value)
      ensures match failure
              case None => true
              case Some(InvalidId) => ParseVolumeId(id).Err?
              case Some(BeingMigrated) => IsName(id) && SeveralNamed(xo.vdis, Final(ParseVolumeId(id).value.value))
              case Some(RetryLater) => xo.faults > old(xo.faults)
              case Some(_) => false
      ensures xo.faults >= old(xo.faults)
      ensures ParseVolumeId(id).Err? ==> failure == Some(InvalidId)
      ensures forall x :: xo.faults == old(xo.faults) && ParseVolumeId(id).Ok? && Names(ParseVolumeId(id).value, x) ==>
                failure.None? && u == Some(x)
      ensures xo.faults == old(xo.faults) && IsName(id) ==>
                var name := Final(ParseVolumeId(id).value.value);
                && (SeveralNamed(xo.vdis, name) ==> failure == Some(BeingMigrated) && xo.vbds == old(xo.vbds))
                && (NoneNamed(xo.vdis, name) ==> failure.None? && xo.vbds == old(xo.vbds))
    {
      u := None;
      r' := r;
      var parsed := ParseVolumeId(id);
      if parsed.Err? {
        return Some(InvalidId), u, r';
      }
      var found;
      found, r' := Resolve(parsed.value, v, r);
      match found {
        case NotFound => return None, u, r';
        case Many => return Some(BeingMigrated), u, r';
        case Failed => return Some(RetryLater), u, r';
        case One(w) =>
          u := Some(w);
          var ok;
          ok, r' := Detach(v, ToVm(vm), w, r');
          failure := if ok then None else Some(RetryLater);
      }
    }

    /** The same for a handle that leads to disk `x`. */
    method UnpublishDisk(id: string, v: string, vm: Uuid, x: Uuid, ghost r: Running)
      returns (failure: Option<PublishError>, ghost r': Running)
      requires Sees(See(Last(r), v)) && See(Last(r), v).call.None?
      requires ParseVolumeId(id).Ok? && LeadsTo(xo.vdis, ParseVolumeId(id).value, x)
      modifies xo`vbds, xo`faults
      ensures Continues(r, r') && Sees(See(Last(r'), v)) && See(Last(r'), v).call.None?
              && See(Last(r'), v).volume == See(Last(r), v).volume
      ensures PartlyRemoved(old(xo.vbds), xo.vbds, ToVm(vm), x)
      ensures failure.None? ==> xo.vbds == Removed(old(xo.vbds), ToVm(vm), x)
      ensures failure.Some? ==> failure == Some(RetryLater) && xo.faults > old(xo.faults)
      ensures xo.faults >= old(xo.faults)
    {
      ghost var u;
      failure, u, r' := UnpublishVolume(id, v, vm, r);
      assert Names(ParseVolumeId(id).value, x) && forall y :: Names(ParseVolumeId(id).value, y) ==> y == x;
    }

    /** Unpublishing and one retry: however far the first attempt got before it failed, a successful
        second one, as an error-free one is, ends where a successful first one would have. */
    method UnpublishTwice(id: string, v: string, vm: Uuid, x: Uuid, ghost r: Running)
      returns (failure: Option<PublishError>, ghost r': Running)
      requires Sees(See(Last(r), v)) && See(Last(r), v).call.None?
      requires ParseVolumeId(id).Ok? && LeadsTo(xo.vdis, ParseVolumeId(id).value, x)
      modifies xo`vbds, xo`faults
      ensures Continues(r, r') && Sees(See(Last(r'), v)) && See(Last(r'), v).call.None?
      ensures failure.None? ==> xo.vbds == Removed(old(xo.vbds), ToVm(vm), x)
      ensures failure.Some? ==> xo.faults >= old(xo.faults) + 2
    {
      failure, r' := UnpublishDisk(id, v, vm, x, r);
      if failure.Some? {
        RetryReachesTheSameState(old(xo.vbds), xo.vbds, ToVm(vm), x);
        failure, r' := UnpublishDisk(id, v, vm, x, r');
      }
    }
  }
}

/**
  The storage selection as the object the driver works with (pkg/csi/sr_selection.go:48-230,
  356-392): filled in two steps and then queried. `View` is the value SrSelection.dfy reasons
  about, and every method is proved against it.
 */
module StorageSelections {
  import opened Wrappers
  import opened Xo
  import opened Metadata
  import opened StorageParameters
  import opened SrPicking
  import opened SrSelection
  import opened VolumeIds
  import opened XoClient

  datatype FindFailure = Permanent(error: FindError) | Remote

  class StorageSelection {
    const hostTopology: bool
    var srUuid: Option<Uuid>
    const srsWithTag: Option<string>
    const kind: Option<SelectionKind>
    const migrating: bool
    const currentVdi: Option<Vdi>
    var currentSr: Option<Sr>
    var srs: seq<Sr>
    var sharedSr: bool

    function View(): Selection
      reads this
    {
      Selection(hostTopology, srUuid, srsWithTag, kind, migrating, currentVdi, currentSr, srs, sharedSr)
    }

    constructor FromParameters(p: Parameters, hostTopology: bool)
      ensures View() == SelectionFromParameters(p, hostTopology)
    {
      this.hostTopology := hostTopology;
      srUuid := p.srUuid;
      srsWithTag := p.srsWithTag;
      migrating := p.migrating;
      kind := if p.srUuid.Some? then Some(ByUuid) else if p.srsWithTag.Some? then Some(ByTag) else None;
      currentVdi, currentSr, srs, sharedSr := None, None, [], false;
    }

    constructor FromStorageInfo(si: StorageInfo, vdi: Vdi, hostTopology: bool)
      ensures View() == SelectionFromStorageInfo(si, vdi, hostTopology)
    {
      this.hostTopology := hostTopology;
      srUuid := None;
      srsWithTag := si.srsWithTag;
      migrating := si.migrating.Some?;
      kind := if si.srsWithTag.Some? then Some(ByTag) else Some(ByUuid);
      currentVdi, currentSr, srs, sharedSr := Some(vdi), None, [], false;
    }

    /** Looks the SRs up. `listing` is the reply to the tag query, where there was one. */
    method FindSrs(xo: Client) returns (r: Option<FindFailure>, ghost listing: seq<Sr>)
      requires Directory(xo.srs) && currentSr.None?
      requires kind == Some(ByTag) ==> srsWithTag.Some?
      modifies this, xo`faults
      ensures kind == Some(ByTag) && (r.None? || r.value.Permanent?) ==> ListsTag(xo.srs, srsWithTag.value, listing)
      ensures r.None? ==> Completed(old(View()), xo.srs, listing) == Ok(View())
      ensures r.Some? && r.value.Permanent? ==> Completed(old(View()), xo.srs, listing) == Err(r.value.error)
      ensures xo.faults >= old(xo.faults) && (r == Some(Remote) <==> xo.faults > old(xo.faults))
    {
      listing := [];
      match kind
      case None =>
        return Some(Permanent(InvalidSelectionType)), listing;
      case Some(ByUuid) =>
        if srUuid.None? {
          if currentVdi.None? {
            return Some(Permanent(SrUuidRequired)), listing;
          }
          srUuid := Some(currentVdi.value.sr);
        }
        var sr := xo.GetSrByUuid(srUuid.value);
        if sr.Err? {
          return Some(if sr.error.NoSuchObject? then Permanent(NoSuchSr) else Remote), listing;
        }
        srs := [sr.value];
        sharedSr := sr.value.shared;
        if currentVdi.Some? {
          currentSr := Some(sr.value);
        }
        return None, listing;
      case Some(ByTag) =>
        var found := xo.GetSrsWithTag(srsWithTag.value);
        if found.None? {
          return Some(Remote), listing;
        }
        listing := found.value;
        r := AdoptListing(found.value, xo);
    }

    /** The second half of the tag case: check that sharing is uniform, find the disk's own SR. */
    method AdoptListing(found: seq<Sr>, xo: Client) returns (r: Option<FindFailure>)
      requires Directory(xo.srs) && currentSr.None? && kind == Some(ByTag) && srsWithTag.Some?
      requires ListsTag(xo.srs, srsWithTag.value, found)
      modifies this`srs, this`sharedSr, this`currentSr, xo`faults
      ensures r.None? ==> Completed(old(View()), xo.srs, found) == Ok(View())
      ensures r.Some? && r.value.Permanent? ==> Completed(old(View()), xo.srs, found) == Err(r.value.error)
      ensures xo.faults >= old(xo.faults) && (r == Some(Remote) <==> xo.faults > old(xo.faults))
    {
      if |found| == 0 {
        return Some(Permanent(NoSuchSr));
      }
      srs := found;
      sharedSr := found[0].shared;
      for i := 0 to |found|
        invariant forall k :: 0 <= k < i ==> found[k].shared == found[0].shared
        invariant currentSr.Some? ==>
                    currentVdi.Some? && currentVdi.value.sr in xo.srs && currentSr.value == xo.srs[currentVdi.value.sr]
        invariant srs == found && sharedSr == found[0].shared && xo.faults == old(xo.faults)
      {
        if found[i].shared != found[0].shared {
          return Some(Permanent(InconsistentSrs));
        }
        if currentVdi.Some? && found[i].uuid == currentVdi.value.sr {
          assert found[i] in found;
          currentSr := Some(found[i]);
        }
      }
      if currentVdi.Some? && currentSr.None? {
        // not among the tagged ones: ask for it directly
        var sr := xo.GetSrByUuid(currentVdi.value.sr);
        if sr.Err? {
          return Some(if sr.error.NoSuchObject? then Permanent(LookupFailed) else Remote);
        }
        currentSr := Some(sr.value);
      }
      return None;
    }

    method PickSrForTopology(capacity: int, req: Option<Requirement>) returns (r: Result<Sr, PickError>)
      requires kind == Some(ByUuid) ==> srs != []
      ensures r == View().SrForTopology(capacity, req)
    {
      match kind
      case None => r := Err(NoSrFound);
      case Some(ByUuid) => r := Ok(srs[0]);
      case Some(ByTag) =>
        if !sharedSr {
          r := PickSr(srs, capacity, req, Scope.Host);
        } else {
          r := PickSr(srs, capacity, req, Scope.Pool);
        }
    }

    method PickSrForHost(host: string, capacity: int) returns (r: Result<Sr, PickError>)
      ensures r == View().SrForHost(host, capacity)
    {
      var filtered := FilterSrsForHost(srs, host);
      r := PickSrWithMostSpace(filtered, capacity);
    }

    /** The topology to hand out for a disk on SR `u`; fails when that SR is not a selected one. */
    method GetTopologyForVdi(u: Uuid) returns (r: Result<Option<Topology>, PickError>)
      ensures r.Err? <==> forall sr :: sr in srs ==> sr.uuid != u
      ensures r.Ok? ==> exists sr :: sr in srs && sr.uuid == u && r.value == View().TopologyOf(sr)
      // none when migrating; else the pool of that SR, and its host under host topology if it is local
      ensures r.Ok? ==> (r.value.None? <==> migrating)
      ensures r.Ok? && r.value.Some? ==>
                exists sr :: sr in srs && sr.uuid == u && Locates(r.value.value, sr, hostTopology && !sharedSr)
    {
      for i := 0 to |srs|
        invariant forall k :: 0 <= k < i ==> srs[k].uuid != u
      {
        if srs[i].uuid == u {
          assert srs[i] in srs;
          match View().VolumeScope() {
            case Global => return Ok(None);
            case Host => return Ok(Some(map["host" := srs[i].host, "pool" := srs[i].pool]));
            case Pool => return Ok(Some(map["pool" := srs[i].pool]));
          }
        }
      }
      return Err(NoSrFound);
    }
  }
}

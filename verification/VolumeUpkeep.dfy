/**
  DeleteVolume, ControllerExpandVolume and ControllerGetVolume as code (pkg/csi/controller.go:156-209,
  403-529): one lookup, a look at the record, and one call. For the handle of a volume handed out, an
  execution is a stretch of a run of the migration protocol.
 */
module VolumeUpkeep {
  import opened Wrappers
  import opened DiskNames
  import opened Metadata
  import opened Xo
  import opened SrPicking
  import opened VolumeIds
  import opened MigrationProtocol
  import opened MigrationSafety
  import opened MigrationRuns
  import opened StorageSelections
  import opened VolumePublisher
  import VolumeUnpublisher
  import XoClient

  datatype UpkeepError =
    | BadHandle
    | Missing
    | Ambiguous   // several disks of the name
    | Underway    // a migration, by the disk's own record
    | BadRecord
    | Busy
    | Unlocated   // no SR to tell the topology from
    | Later

  // ---------- as steps of the protocol ----------

  /** A disk that can be expanded: it carries the driver's record, without any marker. */
  predicate Growable(vdi: Vdi) {
    vdi.desc.Info? && (vdi.desc.info.migrating.Some? ==> vdi.desc.info.migrating.value.inProgressTo.None?)
  }

  ghost predicate IsHandle(s: State, v: string, id: string) {
    ParseVolumeId(id).Ok? && VolumeUnpublisher.IsHandleOf(See(s, v).volume, v, ParseVolumeId(id).value)
  }

  ghost predicate Copying(s: State, v: string) {
    v in s.tasks && !s.tasks[v].phase.Queued?
  }

  /** Such a volume has its disk. */
  lemma VolumeIsThere(r: Running, v: string, id: string)
    requires IsHandle(Last(r), v, id)
    ensures !LeadsNowhere(Last(r).vdis, ParseVolumeId(id).value)
  {
    VolumeInvAlways(r, |r.states| - 1, v);
  }

  lemma LooksToGrow(r: Running, v: string, size: int, found: Found) returns (r': Running)
    requires See(Last(r), v).call.None? && See(Last(r), v).volume.Some? && Resolves(Last(r), v, EFind(size), found)
    ensures Continues(r, r')
    ensures See(Last(r'), v) ==
            See(Last(r), v).(call := if found.One? && Growable(Last(r).vdis[found.uuid])
                                     then Some(EResize(found.uuid, size)) else None)
  {
    r' := Steps(r, v, Begin(EFind(size)));
    r' := Steps(r', v, Find(found));
  }

  lemma Grows(r: Running, v: string, u: Uuid, size: int, o: Outcome) returns (r': Running)
    requires IsAt(See(Last(r), v), EResize(u, size)) && Possible(o, u, Last(r).vdis)
    ensures Continues(r, r')
    ensures var t := See(Last(r), v);
            See(Last(r'), v) == t.(vdis := if o.Refused? then t.vdis else t.vdis[u := t.vdis[u].(size := size)],
                                   call := None)
  {
    r' := Steps(r, v, Resize(o));
  }

  lemma LooksToDelete(r: Running, v: string, found: Found) returns (r': Running)
    requires See(Last(r), v).call.None? && See(Last(r), v).volume.Some? && Resolves(Last(r), v, DFind, found)
    ensures Continues(r, r') && Last(r').tasks == Last(r).tasks
    ensures See(Last(r'), v) == See(Last(r), v).(call := if found.One? then Some(DDelete(found.uuid)) else None)
  {
    r' := Steps(r, v, Begin(DFind));
    r' := Steps(r', v, Find(found));
  }

  lemma DeletesDisk(r: Running, v: string, u: Uuid, o: Outcome) returns (r': Running)
    requires IsAt(See(Last(r), v), DDelete(u)) && Possible(o, u, Last(r).vdis)
             && (Copying(Last(r), v) ==> o.Refused?)
    ensures Continues(r, r')
    ensures var t := See(Last(r), v);
            See(Last(r'), v) == t.(vdis := if o.Refused? then t.vdis else t.vdis - {u},
                                   volume := if o.Refused? then t.volume else None, call := None)
  {
    r' := Steps(r, v, Delete(o));
  }

  // ---------- the code ----------

  class Keeper {
    const xo: XoClient.Client
    const hostTopology: bool

    constructor (xo: XoClient.Client, hostTopology: bool)
      ensures this.xo == xo && this.hostTopology == hostTopology
    {
      this.xo, this.hostTopology := xo, hostTopology;
    }

    /** DeleteVolume. A success leaves no disk for the handle and every other disk as it was; so a
        repetition succeeds, too. Several disks of the name are not touched. With no failing call the
        handle and the names of the disks settle the answer. */
    method DeleteVolume(id: string)
      returns (failure: Option<UpkeepError>, ghost found: Found, ghost o: Outcome)
      modifies xo`vdis, xo`faults
      ensures ParseVolumeId(id).Ok? ==> LookupTells(old(xo.vdis), ParseVolumeId(id).value, found)
      ensures ParseVolumeId(id).Ok? && found.One? && !o.Refused? ==> xo.vdis == old(xo.vdis) - {found.uuid}
      ensures ParseVolumeId(id).Err? || !found.One? || o.Refused? ==> xo.vdis == old(xo.vdis)
      ensures failure.None? ==> ParseVolumeId(id).Ok? && LeadsNowhere(xo.vdis, ParseVolumeId(id).value)
      ensures match failure
              case None => true
              case Some(BadHandle) => ParseVolumeId(id).Err?
              case Some(Ambiguous) =>
                VolumeUnpublisher.IsName(id) && SeveralNamed(old(xo.vdis), Final(ParseVolumeId(id).value.value))
                && found.Many?
              case Some(e) => e.Later? && xo.faults > old(xo.faults)
      ensures xo.faults >= old(xo.faults)
    {
      found, o := Failed, Refused;
      var parsed := ParseVolumeId(id);
      if parsed.Err? {
        return Some(BadHandle), found, o;
      }
      var answer := Lookup(xo, parsed.value);
      found := answer;
      match answer {
        case NotFound => failure := None;
        case Many => failure := Some(Ambiguous);
        case Failed => failure := Some(Later);
        case One(u) =>
          var deleted;
          deleted, o := xo.DeleteVdi(u);
          failure := if deleted.Ok? || deleted.error.NoSuchObject? then None else Some(Later);
      }
    }

    /** ControllerExpandVolume. A success gives the one disk of the handle the new size and changes nothing
        else; a disk that carries a marker, even one that has come true, is refused. */
    method ExpandVolume(id: string, size: int)
      returns (failure: Option<UpkeepError>, ghost found: Found, ghost o: Outcome)
      modifies xo`vdis, xo`faults
      ensures ParseVolumeId(id).Ok? ==> LookupTells(old(xo.vdis), ParseVolumeId(id).value, found)
      ensures ParseVolumeId(id).Ok? && found.One? && Growable(old(xo.vdis)[found.uuid]) ==>
                xo.vdis == if o.Refused? then old(xo.vdis)
                           else old(xo.vdis)[found.uuid := old(xo.vdis)[found.uuid].(size := size)]
      ensures ParseVolumeId(id).Err? || !found.One? || !Growable(old(xo.vdis)[found.uuid]) ==> xo.vdis == old(xo.vdis)
      ensures failure.None? ==>
                ParseVolumeId(id).Ok? && found.One? && Growable(old(xo.vdis)[found.uuid]) && o.Done?
      ensures failure.Some? ==> if failure.value.Later? then xo.faults > old(xo.faults)
                                else xo.vdis == old(xo.vdis) && ExpandRefuses(xo.vdis, xo.vbds, id, failure.value)
      ensures xo.faults >= old(xo.faults)
    {
      found, o := Failed, Refused;
      var parsed := ParseVolumeId(id);
      if parsed.Err? {
        return Some(BadHandle), found, o;
      }
      var answer := Lookup(xo, parsed.value);
      found := answer;
      if !answer.One? {
        return Some(if answer.NotFound? then Missing else if answer.Many? then Ambiguous else Later), found, o;
      }
      var vdi := xo.vdis[answer.uuid];
      if !vdi.desc.Info? {
        return Some(BadRecord), found, o;
      }
      if vdi.desc.info.HasOngoingMigration().Some? {
        return Some(Underway), found, o;
      }
      var resized;
      resized, o := xo.ResizeVdi(answer.uuid, size);
      failure := if resized.Ok? then None else Some(if resized.error.VdiInUse? then Busy else Later);
    }

    /** ControllerGetVolume. It asks a selection for the topology that has never looked up its SRs, so it
        fails for every disk it finds: it never succeeds. */
    method GetVolume(id: string) returns (res: Result<Option<Topology>, UpkeepError>)
      modifies xo`faults
      ensures res.Err?
      ensures res == Err(Unlocated) ==>
                ParseVolumeId(id).Ok? && exists u :: LeadsTo(xo.vdis, ParseVolumeId(id).value, u)
                                                     && xo.vdis[u].desc.Info?
      ensures xo.faults == old(xo.faults) && ParseVolumeId(id).Ok? ==>
                forall u :: LeadsTo(xo.vdis, ParseVolumeId(id).value, u) && xo.vdis[u].desc.Info? ==>
                  res == Err(Unlocated)
    {
      var parsed := ParseVolumeId(id);
      if parsed.Err? {
        return Err(BadHandle);
      }
      var found := Lookup(xo, parsed.value);
      if !found.One? {
        return Err(if found.NotFound? then Missing else if found.Many? then Ambiguous else Later);
      }
      var vdi := xo.vdis[found.uuid];
      if !vdi.desc.Info? {
        return Err(BadRecord);
      }
      var selection := new StorageSelection.FromStorageInfo(vdi.desc.info, vdi, hostTopology);
      var topology := selection.GetTopologyForVdi(vdi.sr);
      res := match topology case Ok(t) => Ok(t) case Err(_) => Err(Unlocated);
    }
  }

  /** Why an expansion is refused. */
  ghost predicate ExpandRefuses(vdis: map<Uuid, Vdi>, vbds: map<Uuid, Vbd>, id: string, e: UpkeepError) {
    match ParseVolumeId(id)
    case Err(_) => e.BadHandle?
    case Ok(parsed) =>
      match e
      case Missing => LeadsNowhere(vdis, parsed)
      case Ambiguous => parsed.kind.NameAsVolumeId? && SeveralNamed(vdis, Final(parsed.value))
      case BadRecord => exists u :: LeadsTo(vdis, parsed, u) && !vdis[u].desc.Info?
      case Underway => exists u :: LeadsTo(vdis, parsed, u) && vdis[u].desc.Info? && !Growable(vdis[u])
      case Busy => exists u :: LeadsTo(vdis, parsed, u) && Growable(vdis[u]) && !Detached(vbds, u)
      case _ => false
  }

  /** Whatever DeleteVolume makes of the volume's handle is a stretch of a migration run, in which XO
      refuses while it is copying the disk. */
  lemma DeletionFollows(r: Running, v: string, id: string, found: Found, o: Outcome, vdis: map<Uuid, Vdi>)
    returns (r': Running)
    requires IsHandle(Last(r), v, id) && See(Last(r), v).call.None?
    requires LookupTells(Last(r).vdis, ParseVolumeId(id).value, found)
    requires found.One? && Copying(Last(r), v) ==> o.Refused?
    requires vdis == if found.One? && !o.Refused? then Last(r).vdis - {found.uuid} else Last(r).vdis
    ensures Continues(r, r')
    ensures var t, gone := See(Last(r), v), found.One? && !o.Refused?;
            See(Last(r'), v) == t.(vdis := vdis, volume := if gone then None else t.volume)
    ensures !found.NotFound?
  {
    VolumeIsThere(r, v, id);
    r' := LooksToDelete(r, v, found);
    if found.One? {
      r' := DeletesDisk(r', v, found.uuid, o);
    }
  }

  /** The same for ControllerExpandVolume. */
  lemma ExpansionFollows(r: Running, v: string, id: string, size: int, found: Found, o: Outcome,
                         vdis: map<Uuid, Vdi>)
    returns (r': Running)
    requires IsHandle(Last(r), v, id) && See(Last(r), v).call.None?
    requires LookupTells(Last(r).vdis, ParseVolumeId(id).value, found)
    requires vdis == if found.One? && Growable(Last(r).vdis[found.uuid]) && !o.Refused?
                     then Last(r).vdis[found.uuid := Last(r).vdis[found.uuid].(size := size)] else Last(r).vdis
    ensures Continues(r, r') && See(Last(r'), v) == See(Last(r), v).(vdis := vdis)
  {
    r' := LooksToGrow(r, v, size, found);
    if found.One? && Growable(Last(r).vdis[found.uuid]) {
      r' := Grows(r', v, found.uuid, size, o);
    }
  }
}

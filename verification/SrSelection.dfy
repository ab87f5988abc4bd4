/**
  What a storage selection means (pkg/csi/sr_selection.go): built from storage class parameters or
  restored from a disk's description, completed by a look at the SR directory, then asked where a
  disk may go. The class that works this way is in StorageSelections.dfy; this module holds the
  values it computes and what they are worth.
 */
module SrSelection {
  import opened Wrappers
  import opened Xo
  import opened Metadata
  import opened StorageParameters
  import opened SrPicking
  import opened VolumeIds

  datatype SelectionKind = ByTag | ByUuid

  datatype Selection = Selection(
    hostTopology: bool,
    srUuid: Option<Uuid>,
    srsWithTag: Option<string>,
    kind: Option<SelectionKind>,  // none: neither parameter was given
    migrating: bool,
    currentVdi: Option<Vdi>,
    currentSr: Option<Sr>,
    srs: seq<Sr>,
    sharedSr: bool)
  {
    function VolumeIdType(): VolumeIdType {
      if migrating then NameAsVolumeId
      else if sharedSr then UuidAsVolumeId
      else NameAsVolumeId
    }

    function ToStorageInfo(): StorageInfo {
      if !migrating then NewStorageInfo() else NewStorageInfoWithMigrating(srsWithTag)
    }

    function VolumeScope(): Scope {
      if migrating then Global
      else if sharedSr then Pool
      else if hostTopology then Host
      else Pool
    }

    predicate CurrentSrValidFor(vm: Vm) {
      currentSr.Some? && ValidFor(currentSr.value, vm)
    }

    function NeedsMigration(vm: Vm): Result<bool, MigrationError> {
      if currentSr.None? then Err(NoCurrentSr)
      else if CurrentSrValidFor(vm) then Ok(false)
      else if migrating then Ok(true)
      else Err(SrNotValidForHost)
    }

    function SrForHost(host: string, capacity: int): Result<Sr, PickError> {
      MostSpace(OnHost(srs, host), capacity)
    }

    function SrForTopology(capacity: int, req: Option<Requirement>): Result<Sr, PickError>
      requires kind == Some(ByUuid) ==> srs != []
    {
      match kind
      case None => Err(NoSrFound)
      case Some(ByUuid) => Ok(srs[0])
      case Some(ByTag) => Picked(srs, capacity, req, if sharedSr then Pool else Host)
    }

    /** The topology handed out for a disk on `sr`; none at all when the disk can follow its VM. */
    function TopologyOf(sr: Sr): Option<Topology> {
      match VolumeScope()
      case Global => None
      case Host => Some(map["host" := sr.host, "pool" := sr.pool])
      case Pool => Some(map["pool" := sr.pool])
    }
  }

  datatype MigrationError = NoCurrentSr | SrNotValidForHost

  datatype FindError = InvalidSelectionType | SrUuidRequired | NoSuchSr | InconsistentSrs | LookupFailed

  /** The driver's test whether an SR will do for a VM. */
  predicate ValidFor(sr: Sr, vm: Vm) {
    match sr.shared
    case true => sr.pool == vm.pool
    case false => sr.host == vm.host
  }

  function SelectionFromParameters(p: Parameters, hostTopology: bool): Selection {
    Selection(hostTopology, p.srUuid, p.srsWithTag,
              if p.srUuid.Some? then Some(ByUuid) else if p.srsWithTag.Some? then Some(ByTag) else None,
              p.migrating, None, None, [], false)
  }

  function SelectionFromStorageInfo(si: StorageInfo, vdi: Vdi, hostTopology: bool): Selection {
    Selection(hostTopology, None, si.srsWithTag,
              if si.srsWithTag.Some? then Some(ByTag) else Some(ByUuid),
              si.migrating.Some?, Some(vdi), None, [], false)
  }

  predicate SameSharing(listing: seq<Sr>) {
    forall i :: 0 <= i < |listing| ==> listing[i].shared == listing[0].shared
  }

  /** What findSRs makes of a fresh selection, given the directory and the reply to its tag query. */
  function Completed(sel: Selection, dir: map<Uuid, Sr>, listing: seq<Sr>): Result<Selection, FindError> {
    match sel.kind
    case None => Err(InvalidSelectionType)
    case Some(ByUuid) =>
      if sel.srUuid.None? && sel.currentVdi.None? then Err(SrUuidRequired)
      else
        var u := if sel.srUuid.Some? then sel.srUuid.value else sel.currentVdi.value.sr;
        if u !in dir then Err(NoSuchSr)
        else Ok(sel.(srUuid := Some(u), srs := [dir[u]], sharedSr := dir[u].shared,
                     currentSr := if sel.currentVdi.Some? then Some(dir[u]) else None))
    case Some(ByTag) =>
      if listing == [] then Err(NoSuchSr)
      else if !SameSharing(listing) then Err(InconsistentSrs)
      else if sel.currentVdi.Some? && sel.currentVdi.value.sr !in dir then Err(LookupFailed)
      else Ok(sel.(srs := listing, sharedSr := listing[0].shared,
                   currentSr := if sel.currentVdi.Some? then Some(dir[sel.currentVdi.value.sr]) else None))
  }

  /** Repositories with the tag exist and agree on being shared. */
  ghost predicate TagUsable(dir: map<Uuid, Sr>, tag: string) {
    && (exists x :: x in dir && tag in dir[x].tags)
    && (forall x, y :: x in dir && y in dir && tag in dir[x].tags && tag in dir[y].tags ==>
         dir[x].shared == dir[y].shared)
  }

  /** The parameters lead to repositories, in whatever order XO lists them. */
  ghost predicate Satisfiable(p: Parameters, dir: map<Uuid, Sr>) {
    match p.srUuid
    case Some(u) => u in dir
    case None => p.srsWithTag.Some? && TagUsable(dir, p.srsWithTag.value)
  }

  /** The repositories the parameters lead to. */
  predicate Selectable(p: Parameters, sr: Sr) {
    match p.srUuid
    case Some(u) => sr.uuid == u
    case None => p.srsWithTag.Some? && p.srsWithTag.value in sr.tags
  }

  /** `sel` is the completed selection of a CreateVolume call. */
  ghost predicate Chosen(sel: Selection, p: Parameters, hostTopology: bool, dir: map<Uuid, Sr>, listing: seq<Sr>) {
    && Accepted(p) && Directory(dir)
    && (p.srsWithTag.Some? ==> ListsTag(dir, p.srsWithTag.value, listing))
    && Completed(SelectionFromParameters(p, hostTopology), dir, listing) == Ok(sel)
  }

  /** `sel` is the completed selection of a ControllerPublishVolume call on disk `vdi`. */
  ghost predicate Restored(sel: Selection, si: StorageInfo, vdi: Vdi, hostTopology: bool, dir: map<Uuid, Sr>,
                           listing: seq<Sr>)
  {
    && Directory(dir)
    && (si.srsWithTag.Some? ==> ListsTag(dir, si.srsWithTag.value, listing))
    && Completed(SelectionFromStorageInfo(si, vdi, hostTopology), dir, listing) == Ok(sel)
  }

  // ---------- what is stored can be read back ----------

  /** Accepted parameters plus a successful directory lookup force a tag on migrating volumes, so
      the parser's "migrating needs a tag" check never meets the driver's own output. */
  lemma ChosenInfoIsStorable(sel: Selection, p: Parameters, hostTopology: bool, dir: map<Uuid, Sr>, listing: seq<Sr>)
    requires Chosen(sel, p, hostTopology, dir, listing)
    ensures sel.ToStorageInfo().Stored()
    ensures FromDescription(StorageInfoToDescription(sel.ToStorageInfo())) == Info(sel.ToStorageInfo())
    ensures sel.ToStorageInfo().HasOngoingMigration().None?
  {
    StorageInfoRoundTrip(sel.ToStorageInfo());
  }

  /** A CreateVolume call finds repositories exactly when the parameters lead to some, and selects
      exactly those. */
  lemma SelectsExactlyWhen(p: Parameters, hostTopology: bool, dir: map<Uuid, Sr>, listing: seq<Sr>)
    requires Accepted(p) && Directory(dir)
             && (p.srUuid.None? && p.srsWithTag.Some? ==> ListsTag(dir, p.srsWithTag.value, listing))
    ensures var sel := Completed(SelectionFromParameters(p, hostTopology), dir, listing);
            && (sel.Ok? <==> Satisfiable(p, dir))
            && (sel.Ok? ==> forall sr :: sr in sel.value.srs <==>
                 sr.uuid in dir && dir[sr.uuid] == sr && Selectable(p, sr))
  {
    if p.srUuid.None? && p.srsWithTag.Some? {
      assert forall i :: 0 <= i < |listing| ==> listing[i] in listing;
      if listing != [] && SameSharing(listing) {
        assert listing[0] in listing;
      }
      if Satisfiable(p, dir) {
        var x :| x in dir && p.srsWithTag.value in dir[x].tags;
        assert dir[x] in listing;
      }
    }
  }

  /** Every record the migration protocol writes, with or without a target, reads back as itself. */
  lemma RestoredInfoIsStorable(sel: Selection, si: StorageInfo, vdi: Vdi, hostTopology: bool, dir: map<Uuid, Sr>,
                               listing: seq<Sr>, target: Uuid)
    requires Restored(sel, si, vdi, hostTopology, dir, listing) && si.Stored() && sel.migrating
    ensures var marked := sel.ToStorageInfo().StartMigration(target);
            && FromDescription(StorageInfoToDescription(marked)) == Info(marked)
            && marked.HasOngoingMigration() == Some(target)
            && marked.EndMigration() == sel.ToStorageInfo()
            && FromDescription(StorageInfoToDescription(sel.ToStorageInfo())) == Info(sel.ToStorageInfo())
    ensures si.EndMigration() == sel.ToStorageInfo()
  {
    StorageInfoRoundTrip(sel.ToStorageInfo().StartMigration(target));
    StorageInfoRoundTrip(sel.ToStorageInfo());
  }

  /** Completing `stored` for the disk gives a selection that means the same for it as `sel`. */
  ghost predicate MeansTheSame(stored: Selection, sel: Selection, sr: Sr, dir: map<Uuid, Sr>, listing: seq<Sr>) {
    var restored := Completed(stored, dir, listing);
    && restored.Ok?
    && restored.value.VolumeIdType() == sel.VolumeIdType()
    && restored.value.VolumeScope() == sel.VolumeScope()
    && sr in restored.value.srs
    && restored.value.TopologyOf(sr) == sel.TopologyOf(sr)
    && restored.value.currentSr == Some(sr)
    && restored.value.migrating == sel.migrating
    && restored.value.ToStorageInfo() == sel.ToStorageInfo()
  }

  lemma MigratingMeansTheSame(sel: Selection, p: Parameters, hostTopology: bool, dir: map<Uuid, Sr>, listing: seq<Sr>,
                              vdi: Vdi, listing': seq<Sr>)
    requires Chosen(sel, p, hostTopology, dir, listing) && sel.migrating
    requires vdi.sr in dir && dir[vdi.sr] in sel.srs
    requires sel.ToStorageInfo().srsWithTag.Some? ==> ListsTag(dir, sel.ToStorageInfo().srsWithTag.value, listing')
    ensures MeansTheSame(SelectionFromStorageInfo(sel.ToStorageInfo(), vdi, hostTopology), sel, dir[vdi.sr], dir,
                         listing')
  {
    var sr := dir[vdi.sr];
    assert sr in listing;
    assert sr in listing';
    assert forall x :: x in listing' ==> x in listing;
    assert listing'[0] in listing && sr.shared == listing[0].shared;
  }

  lemma FixedMeansTheSame(sel: Selection, p: Parameters, hostTopology: bool, dir: map<Uuid, Sr>, listing: seq<Sr>,
                          vdi: Vdi, listing': seq<Sr>)
    requires Chosen(sel, p, hostTopology, dir, listing) && !sel.migrating
    requires vdi.sr in dir && dir[vdi.sr] in sel.srs
    ensures MeansTheSame(SelectionFromStorageInfo(sel.ToStorageInfo(), vdi, hostTopology), sel, dir[vdi.sr], dir,
                         listing')
  {
    assert dir[vdi.sr].shared == sel.sharedSr;
  }

  /** Storing a selection in the description and restoring it on an unchanged directory preserves
      what it means for the disk it was made for, although only migrating selections keep their
      tag and the two tag queries may answer in different orders. */
  lemma StoreThenRestore(sel: Selection, p: Parameters, hostTopology: bool, dir: map<Uuid, Sr>, listing: seq<Sr>,
                         vdi: Vdi, listing': seq<Sr>)
    requires Chosen(sel, p, hostTopology, dir, listing)
    // CreateVolume succeeded: the disk's SR is among the selected ones
    requires vdi.sr in dir && dir[vdi.sr] in sel.srs
    requires vdi.desc == FromDescription(StorageInfoToDescription(sel.ToStorageInfo()))
    requires vdi.desc.Info? && vdi.desc.info.srsWithTag.Some? ==>
               ListsTag(dir, vdi.desc.info.srsWithTag.value, listing')
    ensures vdi.desc.Info?
    ensures MeansTheSame(SelectionFromStorageInfo(vdi.desc.info, vdi, hostTopology), sel, dir[vdi.sr], dir, listing')
  {
    ChosenInfoIsStorable(sel, p, hostTopology, dir, listing);
    if sel.migrating {
      MigratingMeansTheSame(sel, p, hostTopology, dir, listing, vdi, listing');
    } else {
      FixedMeansTheSame(sel, p, hostTopology, dir, listing, vdi, listing');
    }
  }

  /** What a non-migrating volume stores can never be restored to a selection that migrates: on a
      VM the disk's SR does not serve, publishing fails instead. */
  lemma NonMigratingNeverMigrates(vdi: Vdi, hostTopology: bool, dir: map<Uuid, Sr>, listing: seq<Sr>, vm: Vm,
                                  sel: Selection)
    requires Restored(sel, NewStorageInfo(), vdi, hostTopology, dir, listing)
    ensures sel.NeedsMigration(vm) == if Reaches(dir[vdi.sr], vm) then Ok(false) else Err(SrNotValidForHost)
  {
  }

  // ---------- where disks go ----------

  /** Knowing the host of a shared SR's container settles its pool. In Xen Orchestra the container
      of a shared SR is its pool, which is never a host, so this holds there. */
  predicate SharedSrsFollowHosts(srs: seq<Sr>, vm: Vm) {
    forall sr :: sr in srs && sr.shared && sr.host == vm.host ==> sr.pool == vm.pool
  }

  lemma PickedForHost(sel: Selection, vm: Vm, capacity: int, target: Sr)
    requires sel.SrForHost(vm.host, capacity) == Ok(target)
    ensures target in sel.srs && target.host == vm.host
    ensures PassesRoomTest(target, capacity)
    ensures forall sr :: sr in sel.srs && sr.host == vm.host ==> target.usage <= sr.usage
    ensures Reaches(target, vm) <==> (target.shared ==> target.pool == vm.pool)
  {
    OnHostMembers(sel.srs, vm.host);
    LeastUsedIsLeast(OnHost(sel.srs, vm.host));
  }

  /** The target of a migration is never the SR the disk is on, and always serves the VM. For local
      SRs this needs nothing; for shared ones it rests on `SharedSrsFollowHosts`. */
  lemma MigrationTargetIsElsewhere(sel: Selection, si: StorageInfo, vdi: Vdi, hostTopology: bool, dir: map<Uuid, Sr>,
                                   listing: seq<Sr>, vm: Vm, capacity: int, target: Sr)
    requires Restored(sel, si, vdi, hostTopology, dir, listing)
    requires sel.NeedsMigration(vm) == Ok(true) && sel.SrForHost(vm.host, capacity) == Ok(target)
    requires sel.sharedSr ==> SharedSrsFollowHosts(sel.srs, vm)
    ensures target.uuid in dir && dir[target.uuid] == target
    ensures target.uuid != vdi.sr
    ensures Reaches(target, vm)
  {
    PickedForHost(sel, vm, capacity, target);
  }

  /** Without that assumption the driver can pick the very SR it wants to leave: the validity of a
      shared SR is judged by pool, the choice of a target by host. */
  lemma SharedTargetCanBeTheSource()
    returns (dir: map<Uuid, Sr>, listing: seq<Sr>, vdi: Vdi, si: StorageInfo, sel: Selection, vm: Vm)
    ensures Restored(sel, si, vdi, false, dir, listing) && si.Stored()
    ensures sel.NeedsMigration(vm) == Ok(true)
    ensures sel.SrForHost(vm.host, vdi.size) == Ok(dir[vdi.sr])
  {
    var sr := Sr("sr", true, "pool1", "host", 100, 0, {"t"});
    dir, listing := map["sr" := sr], [sr];
    si := NewStorageInfoWithMigrating(Some("t"));
    vdi := Vdi(DiskNames.Final("v"), Info(si), 10, "sr");
    vm := Vm("vm", "pool2", "host");
    sel := Completed(SelectionFromStorageInfo(si, vdi, false), dir, listing).value;
    assert OnHost([sr][..0], "host") == [];
    assert OnHost([sr], "host") == [sr];
  }

  /** When no tagged SR's container is the VM's host, as for shared SRs in Xen Orchestra, a needed
      migration always fails for lack of a target, whatever the free space. */
  lemma NoContainerOnHostNoMigration(sel: Selection, vm: Vm, capacity: int)
    ensures sel.SrForHost(vm.host, capacity) == Err(NoSrFound) <==> forall sr :: sr in sel.srs ==> sr.host != vm.host
  {
    OnHostMembers(sel.srs, vm.host);
    if OnHost(sel.srs, vm.host) != [] {
      assert OnHost(sel.srs, vm.host)[0] in sel.srs;
    }
  }

  // ---------- staying and moving, whatever the order of the listing ----------

  /** The disk's own SR is there, and so are usable ones with the tag in its record, if any. */
  ghost predicate HasSrs(dir: map<Uuid, Sr>, vdi: Vdi, info: StorageInfo) {
    vdi.sr in dir && (info.srsWithTag.Some? ==> TagUsable(dir, info.srsWithTag.value))
  }

  /** The disk need not move to serve `on`. */
  ghost predicate WellPlaced(dir: map<Uuid, Sr>, vdi: Vdi, info: StorageInfo, on: Vm) {
    HasSrs(dir, vdi, info) && Reaches(dir[vdi.sr], on)
  }

  /** It has to move, and its record allows it. */
  ghost predicate MustMove(dir: map<Uuid, Sr>, vdi: Vdi, info: StorageInfo, on: Vm) {
    HasSrs(dir, vdi, info) && !Reaches(dir[vdi.sr], on) && info.migrating.Some?
  }

  /** Restoring a selection and what it decides, told from the record and the directory, whatever the
      order of the listing. */
  lemma RestoresExactlyWhen(dir: map<Uuid, Sr>, vdi: Vdi, info: StorageInfo, on: Vm, hostTopology: bool,
                            listing: seq<Sr>)
    requires Directory(dir) && (info.srsWithTag.Some? ==> ListsTag(dir, info.srsWithTag.value, listing))
    ensures var sel := Completed(SelectionFromStorageInfo(info, vdi, hostTopology), dir, listing);
            && (sel.Ok? <==> HasSrs(dir, vdi, info))
            && (sel.Ok? ==>
                  sel.value.NeedsMigration(on) ==
                  if Reaches(dir[vdi.sr], on) then Ok(false)
                  else if info.migrating.Some? then Ok(true)
                  else Err(SrNotValidForHost))
  {
    if info.srsWithTag.Some? {
      assert forall i :: 0 <= i < |listing| ==> listing[i] in listing;
      if TagUsable(dir, info.srsWithTag.value) {
        var x :| x in dir && info.srsWithTag.value in dir[x].tags;
        assert dir[x] in listing;
      }
      if listing != [] && SameSharing(listing) {
        assert listing[0] in listing;
        assert TagUsable(dir, info.srsWithTag.value);
      }
    }
  }

  // ---------- returned topology ----------

  /** Every segment set in `returned` is allowed by `required`. */
  predicate AllowedBy(returned: Topology, required: Topology) {
    forall key :: key in returned ==> Admits(required, key, returned[key])
  }

  /** A freshly created disk of a tagged volume without migration, on the SR picked for it: the
      topology handed out names that SR and agrees with some requisite topology on every segment it sets. */
  lemma FreshTopologyIsRequisite(sel: Selection, p: Parameters, hostTopology: bool, dir: map<Uuid, Sr>,
                                 listing: seq<Sr>, capacity: int, req: Requirement, vdi: Vdi,
                                 handedOut: Option<Topology>)
    requires Chosen(sel, p, hostTopology, dir, listing) && sel.kind == Some(ByTag) && !sel.migrating
    requires PreferredWithinRequisite(req)
    requires sel.SrForTopology(capacity, Some(req)).Ok? && vdi.sr == sel.SrForTopology(capacity, Some(req)).value.uuid
    requires exists sr :: sr in sel.srs && sr.uuid == vdi.sr && handedOut == sel.TopologyOf(sr)
    ensures vdi.sr in dir && dir[vdi.sr] in sel.srs && handedOut.Some?
    ensures "pool" in handedOut.value && handedOut.value["pool"] == dir[vdi.sr].pool
    ensures "host" in handedOut.value ==> handedOut.value["host"] == dir[vdi.sr].host
    ensures exists k :: 0 <= k < |req.requisite| && AllowedBy(handedOut.value, req.requisite[k])
  {
    var scope := if sel.sharedSr then Pool else Host;
    PickHonoursRequisite(sel.srs, capacity, req, scope);
    var picked := sel.SrForTopology(capacity, Some(req)).value;
    var sr :| sr in sel.srs && sr.uuid == vdi.sr && handedOut == sel.TopologyOf(sr);
    assert sr == dir[vdi.sr] == picked;
    var k :| 0 <= k < |req.requisite| && Permits(req.requisite[k], sr, scope);
    assert AllowedBy(handedOut.value, req.requisite[k]);
  }

  // ---------- what CreateVolume owes its caller ----------

  /** The segments name where the SR is: its pool, and its host if that matters. */
  predicate Locates(t: Topology, sr: Sr, withHost: bool) {
    && t.Keys == (if withHost then {"host", "pool"} else {"pool"})
    && t["pool"] == sr.pool && (withHost ==> t["host"] == sr.host)
  }

  /** Handle, topology and record of volume `v` on disk `u`, told from the parameters and the disk's SR:
      a uuid handle where the disk will keep its uuid and every host of the pool has it; no topology for a
      volume that follows its VM, else the pool, and the host as well of a local SR if asked for; and a
      tag in the record of a volume that migrates. */
  predicate Owed(p: Parameters, hostTopology: bool, v: string, u: Uuid, sr: Sr, handle: string,
                 topology: Option<Topology>, info: StorageInfo)
  {
    && handle == (if sr.shared && !p.migrating then u else "name:" + v)
    && (topology.None? <==> p.migrating)
    && (topology.Some? ==> Locates(topology.value, sr, hostTopology && !sr.shared))
    && (info.migrating.Some? <==> p.migrating) && info.HasOngoingMigration().None?
    && info.srsWithTag == if p.migrating then p.srsWithTag else None
  }

  lemma SelectionOwes(sel: Selection, p: Parameters, hostTopology: bool, dir: map<Uuid, Sr>, listing: seq<Sr>,
                      v: string, u: Uuid, sr: Sr)
    requires Chosen(sel, p, hostTopology, dir, listing) && sr in sel.srs
    ensures sr.uuid in dir && dir[sr.uuid] == sr && Selectable(p, sr)
    ensures Owed(p, hostTopology, v, u, sr,
                 if sel.VolumeIdType().UuidAsVolumeId? then CreateVolumeIdWithUuid(u) else CreateVolumeIdWithName(v),
                 sel.TopologyOf(sr), sel.ToStorageInfo())
  {
    if sel.kind == Some(ByTag) { assert sr in listing; }
    assert sr.shared == sel.sharedSr;
  }

  // ---------- where CreateVolume puts a new disk ----------

  /** A topology lets a disk be put on the SR: its pool counts, and the host of a local one. */
  predicate LetsUse(t: Topology, sr: Sr) {
    Admits(t, "pool", sr.pool) && (sr.shared || Admits(t, "host", sr.host))
  }

  predicate SomeLetsUse(topologies: seq<Topology>, sr: Sr) {
    exists k :: 0 <= k < |topologies| && LetsUse(topologies[k], sr)
  }

  ghost function Candidates(dir: map<Uuid, Sr>, tag: string): Sr -> bool {
    (sr: Sr) => sr.uuid in dir && dir[sr.uuid] == sr && tag in sr.tags
  }

  ghost function PreferredCandidates(dir: map<Uuid, Sr>, tag: string, req: Option<Requirement>): Sr -> bool {
    (sr: Sr) => Candidates(dir, tag)(sr) && req.Some? && SomeLetsUse(req.value.preferred, sr)
  }

  ghost function EligibleCandidates(dir: map<Uuid, Sr>, tag: string, req: Option<Requirement>): Sr -> bool {
    (sr: Sr) =>
      Candidates(dir, tag)(sr) && (req.Some? && req.value.requisite != [] ==> SomeLetsUse(req.value.requisite, sr))
  }

  ghost predicate GivenUp(tier: Sr -> bool, capacity: int) {
    IsEmpty(tier) || IsFull(tier, capacity)
  }

  /** The named SR; or a least used tagged one that a preferred topology lets use; or, where these are
      given up, one that a requisite topology lets use. */
  ghost predicate BestPlace(p: Parameters, dir: map<Uuid, Sr>, req: Option<Requirement>, capacity: int, sr: Sr) {
    match p.srUuid
    case Some(u) => sr.uuid == u
    case None =>
      p.srsWithTag.Some? &&
      var preferred := PreferredCandidates(dir, p.srsWithTag.value, req);
      IsBest(preferred, sr, capacity)
      || (GivenUp(preferred, capacity) && IsBest(EligibleCandidates(dir, p.srsWithTag.value, req), sr, capacity))
  }

  /** Both kinds of tagged SRs are given up. */
  ghost predicate NoPlace(p: Parameters, dir: map<Uuid, Sr>, req: Option<Requirement>, capacity: int) {
    p.srUuid.None? && p.srsWithTag.Some?
    && GivenUp(PreferredCandidates(dir, p.srsWithTag.value, req), capacity)
    && GivenUp(EligibleCandidates(dir, p.srsWithTag.value, req), capacity)
  }

  lemma SameTier(a: Sr -> bool, b: Sr -> bool, capacity: int)
    requires forall sr :: a(sr) <==> b(sr)
    ensures GivenUp(a, capacity) == GivenUp(b, capacity)
    ensures forall sr :: IsBest(a, sr, capacity) == IsBest(b, sr, capacity)
  {
  }

  lemma ScopeFollowsSharing(topologies: seq<Topology>, sr: Sr)
    ensures PermittedBySome(topologies, sr, if sr.shared then Pool else Host) <==> SomeLetsUse(topologies, sr)
  {
    var scope := if sr.shared then Pool else Host;
    assert forall k :: 0 <= k < |topologies| ==>
             (Permits(topologies[k], sr, scope) <==> LetsUse(topologies[k], sr));
  }

  lemma TierMembers(dir: map<Uuid, Sr>, tag: string, listing: seq<Sr>, req: Option<Requirement>, scope: Scope, sr: Sr)
    requires ListsTag(dir, tag, listing)
    requires sr in listing ==> scope == if sr.shared then Pool else Host
    ensures PreferredTier(listing, req, scope)(sr) <==> PreferredCandidates(dir, tag, req)(sr)
    ensures EligibleTier(listing, req, scope)(sr) <==> EligibleCandidates(dir, tag, req)(sr)
  {
    assert sr in listing <==> Candidates(dir, tag)(sr);
    if sr in listing && req.Some? {
      ScopeFollowsSharing(req.value.preferred, sr);
      ScopeFollowsSharing(req.value.requisite, sr);
    }
  }

  lemma TaggedPlace(dir: map<Uuid, Sr>, tag: string, listing: seq<Sr>, shared: bool, capacity: int,
                    req: Option<Requirement>)
    requires ListsTag(dir, tag, listing) && forall sr :: sr in listing ==> sr.shared == shared
    ensures var preferred, eligible := PreferredCandidates(dir, tag, req), EligibleCandidates(dir, tag, req);
            match Picked(listing, capacity, req, if shared then Pool else Host)
            case Ok(sr) =>
              && sr.uuid in dir && dir[sr.uuid] == sr
              && (IsBest(preferred, sr, capacity) || (GivenUp(preferred, capacity) && IsBest(eligible, sr, capacity)))
            case Err(_) => GivenUp(preferred, capacity) && GivenUp(eligible, capacity)
  {
    var scope := if shared then Pool else Host;
    PickMeetsSpecification(listing, capacity, req, scope);
    forall sr
      ensures PreferredTier(listing, req, scope)(sr) <==> PreferredCandidates(dir, tag, req)(sr)
      ensures EligibleTier(listing, req, scope)(sr) <==> EligibleCandidates(dir, tag, req)(sr)
    {
      TierMembers(dir, tag, listing, req, scope, sr);
    }
    SameTier(PreferredTier(listing, req, scope), PreferredCandidates(dir, tag, req), capacity);
    SameTier(EligibleTier(listing, req, scope), EligibleCandidates(dir, tag, req), capacity);
    var picked := Picked(listing, capacity, req, scope);
    if picked.Ok? {
      assert PreferredCandidates(dir, tag, req)(picked.value) || EligibleCandidates(dir, tag, req)(picked.value);
      assert Candidates(dir, tag)(picked.value);
    }
  }

  /** Whether and where a new disk goes is told by the directory, whatever the order of the listing. */
  lemma PlaceIsBest(sel: Selection, p: Parameters, hostTopology: bool, dir: map<Uuid, Sr>, listing: seq<Sr>,
                    capacity: int, req: Option<Requirement>)
    requires Chosen(sel, p, hostTopology, dir, listing)
    ensures match sel.SrForTopology(capacity, req)
            case Ok(sr) => sr.uuid in dir && dir[sr.uuid] == sr && BestPlace(p, dir, req, capacity, sr)
            case Err(_) => NoPlace(p, dir, req, capacity)
  {
    if sel.kind == Some(ByTag) {
      TaggedPlace(dir, p.srsWithTag.value, listing, sel.sharedSr, capacity, req);
    }
  }
}

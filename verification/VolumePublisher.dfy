/**
  ControllerPublishVolume as code, with findDisk, checkDiskAttachment and migrateVDI
  (pkg/csi/controller.go:211-299, 624-697, 710-806). Whatever the remote calls answer, one execution
  is a stretch of a run of the migration protocol; what it does when nothing else happens meanwhile
  is stated directly.
 */
module VolumePublisher {
  import opened Wrappers
  import opened DiskNames
  import opened Metadata
  import opened Xo
  import opened SrPicking
  import opened SrSelection
  import opened SrOrders
  import opened VolumeIds
  import opened MigrationProtocol
  import opened MigrationSafety
  import opened MigrationRuns
  import opened MigrationTargets
  import opened StorageSelections
  import XoClient

  // ---------- the steps of one call, as equations ----------

  /** What a call for `v` can see of a protocol state, and what there is to say about `v`. */
  datatype Sight = Sight(vdis: map<Uuid, Vdi>, used: set<Uuid>, vbds: map<Uuid, Vbd>, srs: map<Uuid, Sr>,
                         vms: map<Uuid, Vm>,
                         volume: Option<Volume>, call: Option<Pc>)

  ghost function See(s: State, v: string): Sight {
    Sight(s.vdis, s.used, s.vbds, s.srs, s.vms, if v in s.volumes then Some(s.volumes[v]) else None,
          if v in s.calls then Some(s.calls[v]) else None)
  }

  /** XO is carrying out this migration of the volume. */
  ghost predicate Migrating(s: State, v: string, task: Task) {
    v in s.tasks && s.tasks[v] == task
  }

  /** A call about a known volume is about to do what `pc` says. */
  ghost predicate IsAt(s: Sight, pc: Pc) {
    s.call == Some(pc) && s.volume.Some?
  }

  ghost function After(next: Next): Option<Pc> {
    match next case Go(pc) => Some(pc) case End => None
  }

  lemma LandSeen(s: State, v: string, next: Next)
    ensures See(Land(s, v, next), v) == See(s, v).(call := After(next))
  {
  }

  lemma Steps(r: Running, v: string, a: CallAction) returns (r': Running)
    requires CallEnabled(Last(r), v, a)
    ensures Continues(r, r')
    ensures See(Last(r'), v) == See(CallEffect(Last(r), v, a), v).(call := After(CallNext(Last(r), v, a)))
    ensures Last(r').tasks == CallEffect(Last(r), v, a).tasks
  {
    r' := Advance(r, ByCall(v, a));
    LandSeen(CallEffect(Last(r), v, a), v, CallNext(Last(r), v, a));
  }

  lemma Begins(r: Running, v: string, vm: Uuid) returns (r': Running)
    requires See(Last(r), v).call.None? && See(Last(r), v).volume.Some?
    ensures Continues(r, r') && See(Last(r'), v) == See(Last(r), v).(call := Some(PFind(vm)))
  {
    r' := Steps(r, v, Begin(PFind(vm)));
  }

  lemma BeginsIfKnown(r: Running, v: string, vm: Uuid) returns (r': Running)
    requires See(Last(r), v).call.None?
    ensures Continues(r, r')
    ensures See(Last(r'), v) ==
            See(Last(r), v).(call := if See(Last(r), v).volume.Some? then Some(PFind(vm)) else None)
  {
    r' := r;
    if See(Last(r), v).volume.Some? {
      r' := Begins(r, v, vm);
    }
  }

  /** Where publishing on `vm` goes once it has found disk `u`. */
  function Onwards(vm: Uuid, u: Uuid, vdi: Vdi): Option<Pc> {
    if !vdi.desc.Info? then None
    else match vdi.desc.info.HasOngoingMigration()
      case None => Some(PGetVm(vm, u, vdi, vdi.desc.info))
      case Some(target) => if target == vdi.sr then Some(PClear(vm, u, vdi, vdi.desc.info)) else None
  }

  lemma Finds(r: Running, v: string, vm: Uuid, found: Found) returns (r': Running)
    requires IsAt(See(Last(r), v), PFind(vm)) && Resolves(Last(r), v, PFind(vm), found)
    ensures Continues(r, r')
    ensures See(Last(r'), v) ==
            See(Last(r), v).(call := if found.One? then Onwards(vm, found.uuid, Last(r).vdis[found.uuid]) else None)
  {
    r' := Steps(r, v, Find(found));
  }

  lemma Clears(r: Running, v: string, vm: Uuid, u: Uuid, vdi: Vdi, info: StorageInfo, o: Outcome) returns (r': Running)
    requires IsAt(See(Last(r), v), PClear(vm, u, vdi, info)) && info.migrating.Some? && Possible(o, u, Last(r).vdis)
    ensures Continues(r, r')
    ensures var t := See(Last(r), v);
            See(Last(r'), v) == t.(vdis := if o.Refused? then t.vdis
                                           else Described(t.vdis, u, Info(info.EndMigration())),
                                   call := if o.Done? then Some(PGetVm(vm, u, vdi, info.EndMigration())) else None)
  {
    r' := Steps(r, v, Clear(o));
  }

  lemma GetsVm(r: Running, v: string, vm: Uuid, u: Uuid, vdi: Vdi, info: StorageInfo, ok: bool) returns (r': Running)
    requires IsAt(See(Last(r), v), PGetVm(vm, u, vdi, info)) && (ok ==> vm in Last(r).vms)
    ensures Continues(r, r')
    ensures See(Last(r'), v) ==
              See(Last(r), v).(call := if ok then Some(PCheck(Last(r).vms[vm], u, vdi, info)) else None)
  {
    r' := Steps(r, v, GetVm(ok));
  }

  lemma Checks(r: Running, v: string, on: Vm, u: Uuid, vdi: Vdi, info: StorageInfo,
               attachment: Result<Option<Uuid>, ()>)
    returns (r': Running)
    requires IsAt(See(Last(r), v), PCheck(on, u, vdi, info))
             && (attachment.Ok? ==> Selected(Last(r), on.uuid, u, attachment.value))
    ensures Continues(r, r')
    ensures See(Last(r'), v) ==
            See(Last(r), v).(call :=
              if attachment.Err? then None
              else match attachment.value
                case None => Some(PSelect(on, u, vdi, info))
                case Some(b) =>
                  if Last(r).vbds[b].attached && Last(r).vbds[b].device != "" then None else Some(PConnect(b, u)))
  {
    r' := Steps(r, v, Check(attachment));
  }

  lemma Connects(r: Running, v: string, b: Uuid, u: Uuid, o: Outcome, device: string) returns (r': Running)
    requires IsAt(See(Last(r), v), PConnect(b, u)) && (o.Refused? || b in Last(r).vbds)
    ensures Continues(r, r')
    ensures var t := See(Last(r), v);
            See(Last(r'), v) == t.(vbds := if o.Refused? then t.vbds
                                           else t.vbds[b := t.vbds[b].(attached := true, device := device)],
                                             call := None)
  {
    r' := Steps(r, v, Connect(o, device));
  }

  lemma Selects(r: Running, v: string, on: Vm, u: Uuid, vdi: Vdi, info: StorageInfo, listing: Option<seq<Sr>>,
                hostTopology: bool)
    returns (r': Running)
    requires IsAt(See(Last(r), v), PSelect(on, u, vdi, info))
    requires listing.Some? && info.srsWithTag.Some? ==> ListsTag(Last(r).srs, info.srsWithTag.value, listing.value)
    ensures Continues(r, r')
    ensures See(Last(r'), v) ==
            See(Last(r), v).(call := if listing.None? then None
                                     else After(Placement(Last(r), PSelect(on, u, vdi, info), listing.value,
                                                          hostTopology)))
  {
    r' := Steps(r, v, Select(listing, hostTopology));
  }

  lemma ChecksVbds(r: Running, v: string, on: Vm, u: Uuid, info: StorageInfo, target: Uuid, ok: bool)
    returns (r': Running)
    requires IsAt(See(Last(r), v), PCheckVbds(on, u, info, target))
             && (ok ==> forall b :: b in Last(r).vbds ==> Last(r).vbds[b].vdi != u)
    ensures Continues(r, r')
    ensures See(Last(r'), v) == See(Last(r), v).(call := if ok then Some(PMark(on, u, info, target)) else None)
  {
    r' := Steps(r, v, CheckVbds(ok));
  }

  lemma Marks(r: Running, v: string, on: Vm, u: Uuid, info: StorageInfo, target: Uuid, o: Outcome) returns (r': Running)
    requires IsAt(See(Last(r), v), PMark(on, u, info, target)) && info.migrating.Some? && Possible(o, u, Last(r).vdis)
    ensures Continues(r, r')
    ensures var t := See(Last(r), v);
            See(Last(r'), v) == t.(vdis := if o.Refused? then t.vdis
                                           else Described(t.vdis, u, Info(info.StartMigration(target))),
                                   call := if o.Done? then Some(PIssue(on, u, info, target)) else None)
  {
    r' := Steps(r, v, Mark(o));
  }

  lemma Fetches(r: Running, v: string, on: Vm, u: Uuid, info: StorageInfo, ok: bool) returns (r': Running)
    requires IsAt(See(Last(r), v), PFetch(on, u, info)) && (ok ==> u in Last(r).vdis)
    ensures Continues(r, r')
    ensures See(Last(r'), v) == See(Last(r), v).(call := if ok then Some(PUnmark(on, u, info)) else None)
  {
    r' := Steps(r, v, Fetch(ok));
  }

  lemma Unmarks(r: Running, v: string, on: Vm, u: Uuid, info: StorageInfo, o: Outcome) returns (r': Running)
    requires IsAt(See(Last(r), v), PUnmark(on, u, info)) && Possible(o, u, Last(r).vdis)
    ensures Continues(r, r')
    ensures var t := See(Last(r), v);
            See(Last(r'), v) == t.(vdis := if o.Refused? then t.vdis else Described(t.vdis, u, Info(info)),
                                   call := if o.Done? then Some(PAttach(on, u)) else None)
  {
    r' := Steps(r, v, Unmark(o));
  }

  lemma Attaches(r: Running, v: string, on: Vm, u: Uuid, b: Uuid, device: string, o: Outcome) returns (r': Running)
    requires IsAt(See(Last(r), v), PAttach(on, u)) && Possible(o, u, Last(r).vdis) && b !in Last(r).vbds
    ensures Continues(r, r')
    ensures var t := See(Last(r), v);
            See(Last(r'), v) == t.(vbds := if o.Refused? then t.vbds
                                           else t.vbds[b := Vbd(on.uuid, u, device, true)], call := None)
  {
    r' := Steps(r, v, Attach(b, device, o));
  }

  lemma Quits(r: Running, v: string, pc: Pc) returns (r': Running)
    requires IsAt(See(Last(r), v), pc)
    ensures Continues(r, r') && See(Last(r'), v) == See(Last(r), v).(call := None)
  {
    r' := Steps(r, v, Quit);
  }

  // ---------- one request to migrate ----------

  lemma Issues(r: Running, v: string, on: Vm, u: Uuid, info: StorageInfo, target: Uuid, accepted: bool)
    returns (r': Running)
    requires IsAt(See(Last(r), v), PIssue(on, u, info, target)) && (accepted ==> u in Last(r).vdis)
    ensures Continues(r, r')
    ensures var t := See(Last(r), v);
            See(Last(r'), v) == t.(call := if accepted then Some(PWait(on, info)) else None)
    ensures accepted ==> Migrating(Last(r'), v, Task(u, target, Queued))
  {
    r' := Steps(r, v, Issue(accepted));
  }

  lemma XoSteps(r: Running, v: string, a: XoAction) returns (r': Running)
    requires XoEnabled(Last(r), v, a)
    ensures Continues(r, r') && See(Last(r'), v) == See(XoApply(Last(r), v, a), v)
            && Last(r').tasks == XoApply(Last(r), v, a).tasks
  {
    r' := Advance(r, ByXo(v, a));
  }

  lemma XoCopies(r: Running, v: string, u: Uuid, target: Uuid, copy: Uuid) returns (r': Running)
    requires Migrating(Last(r), v, Task(u, target, Queued)) && u in Last(r).vdis && copy !in Last(r).used
    ensures Continues(r, r')
    ensures var t := See(Last(r), v);
            See(Last(r'), v) == t.(vdis := t.vdis[copy := t.vdis[u].(sr := target)], used := t.used + {copy})
    ensures Migrating(Last(r'), v, Task(u, target, Copied(copy)))
  {
    r' := XoSteps(r, v, MigrationProtocol.Starts);
    r' := XoSteps(r', v, Copies(copy));
  }

  lemma XoFinishes(r: Running, v: string, u: Uuid, target: Uuid, copy: Uuid, on: Vm, info: StorageInfo, told: bool)
    returns (r': Running)
    requires Migrating(Last(r), v, Task(u, target, Copied(copy))) && u in Last(r).vdis
             && See(Last(r), v).call == Some(PWait(on, info))
    ensures Continues(r, r')
    ensures var t := See(Last(r), v);
            See(Last(r'), v) == t.(vdis := t.vdis - {u}, call := if told then Some(PFetch(on, copy, info)) else t.call)
  {
    r' := XoSteps(r, v, Finishes(told));
  }

  lemma XoFails(r: Running, v: string, u: Uuid, target: Uuid) returns (r': Running)
    requires Migrating(Last(r), v, Task(u, target, Queued)) && u in Last(r).vdis
    ensures Continues(r, r') && See(Last(r'), v) == See(Last(r), v)
  {
    r' := XoSteps(r, v, Fails);
  }

  /** XO makes the copy, and perhaps removes the source; the reply may come. */
  lemma Copying(r: Running, v: string, on: Vm, u: Uuid, info: StorageInfo, target: Uuid, m: XoClient.Migration,
                told: bool)
    returns (r': Running)
    requires See(Last(r), v).call == Some(PWait(on, info)) && Migrating(Last(r), v, Task(u, target, Queued))
    requires (m.HalfDone? || m.Replaced?) && u in Last(r).vdis && m.copy !in Last(r).used && (told ==> m.Replaced?)
    ensures Continues(r, r')
    ensures var t := See(Last(r), v);
            See(Last(r'), v)
            == t.(vdis := m.Disks(u, target, t.vdis), used := m.Used(t.used),
                  call := if told then Some(PFetch(on, m.copy, info)) else t.call)
  {
    r' := XoCopies(r, v, u, target, m.copy);
    if m.Replaced? {
      r' := XoFinishes(r', v, u, target, m.copy, on, info, told);
    }
  }

  /** XO has accepted the request, and may get anywhere with it; the caller stops waiting. */
  lemma Proceeds(r: Running, v: string, on: Vm, u: Uuid, info: StorageInfo, target: Uuid, m: XoClient.Migration,
                 told: bool)
    returns (r': Running)
    requires IsAt(See(Last(r), v), PWait(on, info)) && Migrating(Last(r), v, Task(u, target, Queued))
    requires !m.NotAccepted? && m.Possible(u, Last(r).vdis, Last(r).used) && (told ==> m.Replaced?)
    ensures Continues(r, r')
    ensures var t := See(Last(r), v);
            See(Last(r'), v)
            == t.(vdis := m.Disks(u, target, t.vdis), used := m.Used(t.used),
                  call := if told then Some(PFetch(on, m.copy, info)) else None)
  {
    if m.HalfDone? || m.Replaced? {
      r' := Copying(r, v, on, u, info, target, m, told);
    } else if m.Undone? {
      r' := XoFails(r, v, u, target);
    } else {
      r' := r;
    }
    if !told {
      r' := Quits(r', v, PWait(on, info));
    }
  }

  /** The request is sent; XO may get anywhere with it; the reply may come. */
  lemma Migrates(r: Running, v: string, on: Vm, u: Uuid, info: StorageInfo, target: Uuid, m: XoClient.Migration,
                 told: bool)
    returns (r': Running)
    requires IsAt(See(Last(r), v), PIssue(on, u, info, target)) && m.Possible(u, Last(r).vdis, Last(r).used)
             && (told ==> m.Replaced?)
    ensures Continues(r, r')
    ensures var t := See(Last(r), v);
            See(Last(r'), v)
            == t.(vdis := m.Disks(u, target, t.vdis), used := m.Used(t.used),
                  call := if told then Some(PFetch(on, m.copy, info)) else None)
  {
    r' := Issues(r, v, on, u, info, target, !m.NotAccepted?);
    if !m.NotAccepted? {
      r' := Proceeds(r', v, on, u, info, target, m, told);
    }
  }

  // ---------- what a run says about the remote side ----------

  lemma SeenWorld(r: Running)
    ensures Directory(Last(r).srs) && Last(r).vdis.Keys <= Last(r).used
    ensures forall m :: m in Last(r).vms ==> Last(r).vms[m].uuid == m
  {
    InvAlways(r, |r.states| - 1);
  }

  /** The disk is the only one of `v`, and serves `on`. */
  ghost predicate ServesOn(s: Sight, v: string, u: Uuid, on: Vm) {
    OneDiskOf(s.vdis, v, u) && s.vdis[u].sr in s.srs && Reaches(s.srs[s.vdis[u].sr], on)
  }

  lemma AttachedDiskServes(r: Running, v: string, on: Vm, u: Uuid)
    requires IsAt(See(Last(r), v), PAttach(on, u))
    ensures ServesOn(See(Last(r), v), v, u, on)
  {
    VolumeInvAlways(r, |r.states| - 1, v);
    assert forall w :: w in Last(r).vdis && Last(r).vdis[w].name == Final(v) ==> IsDisk(Last(r), v, w);
  }

  lemma FoundDiskIsTheOnlyOne(r: Running, v: string, vm: Uuid, u: Uuid, vdi: Vdi, info: StorageInfo)
    requires IsAt(See(Last(r), v), PGetVm(vm, u, vdi, info))
    ensures OneDiskOf(Last(r).vdis, v, u) && vdi.sr == Last(r).vdis[u].sr
  {
    VolumeInvAlways(r, |r.states| - 1, v);
    assert forall w :: w in Last(r).vdis && Last(r).vdis[w].name == Final(v) ==> IsDisk(Last(r), v, w);
  }

  // ---------- the code ----------

  datatype PublishError =
    | InvalidId
    | NoDisk
    | NoVm
    | RetryLater
    | BeingMigrated
    | BadMetadata
    | NoSr       // the disk's own SR, or usable ones with the tag, are missing
    | NotServed  // the SR does not serve the VM, and the volume does not migrate
    | NoTarget   // it does, but there is nowhere to go
    | InUse
    | NoDevice

  /** Errors that come from remote calls alone. */
  predicate Transient(e: PublishError) {
    e.RetryLater? || e.NoDevice?
  }

  /** The handle, where it parses at all, is that of volume `v`. */
  predicate Denotes(id: string, v: string, handle: Handle) {
    ParseVolumeId(id).Ok? ==> ParseVolumeId(id).value == IdOf(v, handle)
  }

  /** The handle is that of a volume handed out; or it leads to no disk, or to one that publishing
      refuses, such as a disk without the driver's record. */
  ghost predicate Understood(s: Sight, v: string, id: ParsedId) {
    match s.volume
    case Some(volume) => id == IdOf(v, volume.handle)
    case None => forall u :: LeadsTo(s.vdis, id, u) ==> !Usable(s.vdis[u])
  }

  function IdOf(v: string, handle: Handle): ParsedId {
    match handle case ByName => ParsedId(NameAsVolumeId, v) case ByUuid(u) => ParsedId(UuidAsVolumeId, u)
  }

  /** The handle leads to disk `u`. */
  ghost predicate LeadsTo(vdis: map<Uuid, Vdi>, id: ParsedId, u: Uuid) {
    u in vdis && match id.kind
      case NameAsVolumeId => OneNamed(vdis, Final(id.value), u)
      case UuidAsVolumeId => u == id.value
  }

  /** `u` is the one disk of `v`. */
  ghost predicate OneDiskOf(vdis: map<Uuid, Vdi>, v: string, u: Uuid) {
    LeadsTo(vdis, ParsedId(NameAsVolumeId, v), u)
  }

  /** A disk that publishing accepts: it carries the driver's record, and a marker at most for the SR it is on. */
  predicate Usable(vdi: Vdi) {
    vdi.desc.Info? && match vdi.desc.info.HasOngoingMigration() case None => true case Some(target) => target == vdi.sr
  }

  function Unmarked(info: StorageInfo): StorageInfo {
    if info.HasOngoingMigration().Some? then info.EndMigration() else info
  }

  /** The disks once the marker of `u`, if any, is gone. */
  function WithoutMarker(vdis: map<Uuid, Vdi>, u: Uuid): map<Uuid, Vdi>
    requires u in vdis && vdis[u].desc.Info?
  {
    Described(vdis, u, Info(Unmarked(vdis[u].desc.info)))
  }

  /** Whatever has happened since XO finished copying, a disk that carries the marker for the SR it is
      on is one that publishing accepts as it is: the handle leads to it, it gets the volume's record
      back, and for every VM that its SR serves it is well placed. */
  lemma ArrivedDiskIsAccepted(r: Run, j: nat, v: string, u: Uuid)
    requires IsRun(r) && j < |r.states| && v in r.states[j].volumes && v !in r.states[j].tasks
             && Arrived(r.states[j], v, u)
    ensures var s := r.states[j];
            && LeadsTo(s.vdis, IdOf(v, s.volumes[v].handle), u)
            && Usable(s.vdis[u]) && Unmarked(s.vdis[u].desc.info) == s.volumes[v].info
    ensures var s := r.states[j];
            forall vm: Vm :: Serves(s, u, vm) ==> WellPlaced(s.srs, s.vdis[u], s.volumes[v].info, vm)
    ensures r.states[j].vdis[u].sr in r.states[j].srs
  {
    var s := r.states[j];
    VolumeInvAlways(r, j, v);
    var x :| OnlyDisk(s, v, x);
    assert x == u;
    assert forall w :: w in s.vdis && s.vdis[w].name == Final(v) ==> IsDisk(s, v, w);
    ReadsDescription(s, v, u);
    MarkingIsReversible(s.volumes[v].info, s.vdis[u].sr);
    ArrivedIsTagged(r, j, v, u);
  }

  /** Finishing a migration is such an arrival, on the target. */
  lemma FinishedMigrationArrives(r: Run, i: nat, v: string, replies: bool)
    requires IsRun(r) && i < |r.actions| && r.actions[i] == ByXo(v, Finishes(replies)) && v in r.states[i].tasks
    requires r.states[i].tasks[v].phase.Copied?
    ensures var s', t := r.states[i + 1], r.states[i].tasks[v];
            v in s'.volumes && v !in s'.tasks && Arrived(s', v, t.phase.copy) && s'.vdis[t.phase.copy].sr == t.target
  {
    assert StepAt(r, i);
    OnlyVolumesMigrate(r, i, v);
    VolumeInvAlways(r, i, v);
    FinishesDisks(r.states[i], v, replies);
    MarkingIsReversible(r.states[i].volumes[v].info, r.states[i].tasks[v].target);
  }

  /** `b` attaches disk `u` to VM `vm`. */
  ghost predicate Attachment(vbds: map<Uuid, Vbd>, b: Uuid, vm: Uuid, u: Uuid) {
    b in vbds && vbds[b].vm == vm && vbds[b].vdi == u
  }

  ghost predicate Detached(vbds: map<Uuid, Vbd>, u: Uuid) {
    forall b :: b in vbds ==> vbds[b].vdi != u
  }

  lemma NothingListed(vbds: map<Uuid, Vbd>, vm: Option<Uuid>, u: Uuid)
    requires XoClient.ListsVbds(vbds, vm, u, [])
    ensures forall b :: b in vbds ==> !XoClient.Concerns(vbds[b], vm, u)
  {
  }

  /** Where publishing goes to migrate disk `u` to the host of `on`. */
  ghost function Towards(sel: Selection, on: Vm, u: Uuid, vdi: Vdi): Option<Pc> {
    match sel.SrForHost(on.host, vdi.size)
    case Err(_) => None
    case Ok(target) => Some(PCheckVbds(on, u, sel.ToStorageInfo(), target.uuid))
  }

  /** The disks once `u` has been replaced by its copy on `target`, described by `info`. */
  function Relocated(vdis: map<Uuid, Vdi>, u: Uuid, copy: Uuid, target: Uuid, info: StorageInfo): map<Uuid, Vdi>
    requires u in vdis
  {
    vdis[copy := vdis[u].(sr := target, desc := Info(info))] - {u}
  }

  /** Where a success leaves the disks: `u` stayed (`w == u`), or was replaced by its copy `w`. */
  ghost predicate Settled(vdis: map<Uuid, Vdi>, vdis': map<Uuid, Vdi>, u: Uuid, w: Uuid, tag: Option<string>) {
    u in vdis && w in vdis'
    && vdis' == if w == u then vdis else Relocated(vdis, u, w, vdis'[w].sr, NewStorageInfoWithMigrating(tag))
  }

  // ---------- the reasons for success and failure, told from the state before the call ----------

  /** The handle leads to no disk at all. */
  ghost predicate LeadsNowhere(vdis: map<Uuid, Vdi>, id: ParsedId) {
    match id.kind case NameAsVolumeId => NoneNamed(vdis, Final(id.value)) case UuidAsVolumeId => id.value !in vdis
  }

  /** The disk carries the marker of a migration to another SR than the one it is on. */
  predicate OnItsWay(vdi: Vdi) {
    vdi.desc.Info? && vdi.desc.info.migrating.Some? && vdi.desc.info.migrating.value.inProgressTo.Some?
    && vdi.desc.info.migrating.value.inProgressTo.value != vdi.sr
  }

  /** Why findDisk fails for this handle: no such disk; a migration under way, which shows as two disks of
      the name or as a marker for another SR; or a disk without the driver's record. */
  ghost predicate FindRefuses(vdis: map<Uuid, Vdi>, id: string, e: PublishError) {
    match ParseVolumeId(id)
    case Err(_) => e.InvalidId?
    case Ok(parsed) => RefusesId(vdis, parsed, e)
  }

  ghost predicate RefusesId(vdis: map<Uuid, Vdi>, id: ParsedId, e: PublishError) {
    match e
    case NoDisk => LeadsNowhere(vdis, id)
    case BeingMigrated =>
      (id.kind.NameAsVolumeId? && SeveralNamed(vdis, Final(id.value)))
      || exists u :: LeadsTo(vdis, id, u) && OnItsWay(vdis[u])
    case BadMetadata => exists u :: LeadsTo(vdis, id, u) && !vdis[u].desc.Info?
    case _ => false
  }

  /** The state refuses for one reason at most. */
  lemma OneReasonNotToFind(vdis: map<Uuid, Vdi>, id: string, e: PublishError, e': PublishError)
    requires FindRefuses(vdis, id, e) && FindRefuses(vdis, id, e')
    ensures e == e'
  {
  }

  lemma UsableIsNotRefused(vdis: map<Uuid, Vdi>, id: string, u: Uuid, e: PublishError)
    requires Publishable(vdis, id, u)
    ensures !FindRefuses(vdis, id, e)
  {
  }

  lemma Decides(vdis: map<Uuid, Vdi>, id: string, res: Result<Uuid, PublishError>)
    requires match res
             case Ok(u) => Publishable(vdis, id, u)
             case Err(e) => e.RetryLater? || FindRefuses(vdis, id, e)
    ensures res != Err(RetryLater) ==> forall e :: FindRefuses(vdis, id, e) ==> res == Err(e)
  {
    if res != Err(RetryLater) {
      forall e | FindRefuses(vdis, id, e) ensures res == Err(e) {
        if res.Ok? { UsableIsNotRefused(vdis, id, res.value, e); } else { OneReasonNotToFind(vdis, id, e, res.error); }
      }
    }
  }

  /** Disk `u` is now `w` on SR `sr`: it stayed where it is well placed; or it had to move, was in use
      nowhere, and is on a least used tagged SR of the VM's host that had room. */
  ghost predicate PlacedWell(srs: map<Uuid, Sr>, vbds: map<Uuid, Vbd>, vdi: Vdi, info: StorageInfo, on: Vm, u: Uuid,
                             w: Uuid, sr: Uuid)
  {
    if w == u then WellPlaced(srs, vdi, info, on)
    else
      && MustMove(srs, vdi, info, on) && Detached(vbds, u)
      && (info.srsWithTag.Some? ==> BestTarget(srs, info.srsWithTag.value, on.host, vdi.size, sr))
  }

  ghost predicate PlaceRefuses(srs: map<Uuid, Sr>, vbds: map<Uuid, Vbd>, vdi: Vdi, info: StorageInfo, on: Vm, u: Uuid,
                               e: PublishError)
  {
    match e
    case NoSr => !HasSrs(srs, vdi, info)
    case NotServed => HasSrs(srs, vdi, info) && !Reaches(srs[vdi.sr], on) && info.migrating.None?
    case NoTarget =>
      && MustMove(srs, vdi, info, on)
      && (info.srsWithTag.Some? ==> !EveryLeastHasRoom(srs, info.srsWithTag.value, on.host, vdi.size))
    case InUse => MustMove(srs, vdi, info, on) && !Detached(vbds, u)
    case _ => false
  }

  /** The selection decides as the record and the directory demand. */
  ghost predicate DecidesOn(sel: Selection, srs: map<Uuid, Sr>, vdi: Vdi, info: StorageInfo, on: Vm)
    requires HasSrs(srs, vdi, info)
  {
    && sel.NeedsMigration(on) == (if Reaches(srs[vdi.sr], on) then Ok(false)
                                  else if info.migrating.Some? then Ok(true)
                                  else Err(SrNotValidForHost))
    && PicksWell(sel, srs, vdi, info, on)
  }

  ghost predicate PicksWell(sel: Selection, srs: map<Uuid, Sr>, vdi: Vdi, info: StorageInfo, on: Vm) {
    info.srsWithTag.Some? ==>
      match sel.SrForHost(on.host, vdi.size)
      case Ok(target) => BestTarget(srs, info.srsWithTag.value, on.host, vdi.size, target.uuid)
      case Err(_) => !EveryLeastHasRoom(srs, info.srsWithTag.value, on.host, vdi.size)
  }

  lemma RestoredDecides(sel: Selection, srs: map<Uuid, Sr>, vdi: Vdi, info: StorageInfo, on: Vm, hostTopology: bool,
                        listing: seq<Sr>)
    requires Restored(sel, info, vdi, hostTopology, srs, listing)
    ensures HasSrs(srs, vdi, info) && DecidesOn(sel, srs, vdi, info, on)
  {
    RestoresExactlyWhen(srs, vdi, info, on, hostTopology, listing);
    if info.srsWithTag.Some? {
      PickedTarget(srs, vdi, info, on, hostTopology, listing);
    }
  }

  ghost predicate PlaceVerdict(srs: map<Uuid, Sr>, vbds: map<Uuid, Vbd>, vdi: Vdi, info: StorageInfo, on: Vm, u: Uuid,
                               res: Result<Uuid, PublishError>, w: Uuid, sr: Uuid, faulty: bool)
  {
    match res
    case Ok(_) => PlacedWell(srs, vbds, vdi, info, on, u, w, sr)
    case Err(e) => if Transient(e) then faulty else PlaceRefuses(srs, vbds, vdi, info, on, u, e)
  }

  lemma MovedWell(vdis: map<Uuid, Vdi>, vdis': map<Uuid, Vdi>, srs: map<Uuid, Sr>, vbds: map<Uuid, Vbd>, vdi: Vdi,
                  info: StorageInfo, on: Vm, u: Uuid, sel: Selection, w: Uuid)
    requires MustMove(srs, vdi, info, on) && PicksWell(sel, srs, vdi, info, on) && Detached(vbds, u)
    requires sel.migrating && sel.srsWithTag == info.srsWithTag && sel.SrForHost(on.host, vdi.size).Ok?
    requires u in vdis && w != u
             && vdis' == Relocated(vdis, u, w, sel.SrForHost(on.host, vdi.size).value.uuid, sel.ToStorageInfo())
    ensures Settled(vdis, vdis', u, w, info.srsWithTag)
    ensures PlacedWell(srs, vbds, vdi, info, on, u, w, vdis'[w].sr)
  {
  }

  /** An attachment that was there is used, if there is one. */
  ghost predicate OnVerdict(srs: map<Uuid, Sr>, vbds: map<Uuid, Vbd>, vdi: Vdi, info: StorageInfo, on: Vm, u: Uuid,
                            res: Result<Uuid, PublishError>, w: Uuid, sr: Uuid, faulty: bool)
  {
    if res.Ok? && res.value in vbds then Attachment(vbds, res.value, on.uuid, u) && w == u
    else if res.Err? && Transient(res.error) then faulty
    else Unattached(vbds, on.uuid, u) && PlaceVerdict(srs, vbds, vdi, info, on, u, res, w, sr, faulty)
  }

  ghost predicate Unattached(vbds: map<Uuid, Vbd>, vm: Uuid, u: Uuid) {
    forall b :: !Attachment(vbds, b, vm, u)
  }

  ghost predicate DiskVerdict(srs: map<Uuid, Sr>, vms: map<Uuid, Vm>, vbds: map<Uuid, Vbd>, vdi: Vdi,
                              info: StorageInfo, vm: Uuid, u: Uuid, res: Result<Uuid, PublishError>, w: Uuid, sr: Uuid,
                              faulty: bool)
  {
    if res == Err(NoVm) then vm !in vms
    else if res.Err? && Transient(res.error) then faulty
    else vm in vms && OnVerdict(srs, vbds, vdi, info, vms[vm], u, res, w, sr, faulty)
  }

  /** The whole call: findDisk refuses; or there is a usable disk, and publishing it comes to this. */
  ghost predicate PublishVerdict(vdis: map<Uuid, Vdi>, vbds: map<Uuid, Vbd>, srs: map<Uuid, Sr>, vms: map<Uuid, Vm>,
                                 id: string, vm: Uuid, u: Uuid, res: Result<Uuid, PublishError>, w: Uuid, sr: Uuid,
                                 faulty: bool)
  {
    if res.Err? && Transient(res.error) then faulty
    else
      (res.Err? && FindRefuses(vdis, id, res.error))
      || (Publishable(vdis, id, u)
          && DiskVerdict(srs, vms, vbds, vdis[u], Unmarked(vdis[u].desc.info), vm, u, res, w, sr, faulty))
  }

  /** The handle leads to disk `u`, which carries no marker, or that of a migration which has come true. */
  ghost predicate Publishable(vdis: map<Uuid, Vdi>, id: string, u: Uuid) {
    ParseVolumeId(id).Ok? && LeadsTo(vdis, ParseVolumeId(id).value, u) && Usable(vdis[u])
  }

  ghost predicate StaysFor(vdis: map<Uuid, Vdi>, srs: map<Uuid, Sr>, vms: map<Uuid, Vm>, vm: Uuid, u: Uuid)
    requires u in vdis && Usable(vdis[u])
  {
    vm in vms && WellPlaced(srs, vdis[u], Unmarked(vdis[u].desc.info), vms[vm])
  }

  ghost predicate MovesFor(vdis: map<Uuid, Vdi>, vbds: map<Uuid, Vbd>, srs: map<Uuid, Sr>, vms: map<Uuid, Vm>,
                           vm: Uuid, u: Uuid)
    requires u in vdis && Usable(vdis[u])
  {
    vm in vms && Movable(srs, vdis[u], Unmarked(vdis[u].desc.info), vms[vm]) && Detached(vbds, u)
  }

  /** What the call does when no remote call fails: it answers with the reason there is not to find the
      disk; attaches a disk that is well placed where it is; and moves one that has to move and can. */
  ghost predicate ErrorFree(vdis: map<Uuid, Vdi>, vbds: map<Uuid, Vbd>, srs: map<Uuid, Sr>, vms: map<Uuid, Vm>,
                            id: string, vm: Uuid, u: Uuid, res: Result<Uuid, PublishError>, w: Uuid)
  {
    && (forall e :: FindRefuses(vdis, id, e) ==> res == Err(e))
    && (Publishable(vdis, id, u) || (res.Err? && FindRefuses(vdis, id, res.error)))
    && (forall x :: Publishable(vdis, id, x) ==> x == u)
    && (Publishable(vdis, id, u) ==>
          && (vm !in vms ==> res == Err(NoVm))
          && (StaysFor(vdis, srs, vms, vm, u) ==> res.Ok? && w == u)
          && (MovesFor(vdis, vbds, srs, vms, vm, u) ==> res.Ok? && w != u))
  }

  /** Error-free, the state settles what the call does. */
  lemma VerdictSettles(vdis: map<Uuid, Vdi>, vbds: map<Uuid, Vbd>, srs: map<Uuid, Sr>, vms: map<Uuid, Vm>, id: string,
                       vm: Uuid, u: Uuid, res: Result<Uuid, PublishError>, w: Uuid, sr: Uuid)
    requires PublishVerdict(vdis, vbds, srs, vms, id, vm, u, res, w, sr, false)
    ensures ErrorFree(vdis, vbds, srs, vms, id, vm, u, res, w)
  {
    if Publishable(vdis, id, u) {
      forall e ensures !FindRefuses(vdis, id, e) {
        UsableIsNotRefused(vdis, id, u, e);
      }
    } else {
      Decides(vdis, id, res);
      forall x | Publishable(vdis, id, x) ensures false {
        UsableIsNotRefused(vdis, id, x, res.error);
      }
    }
  }

  /** What has become of the disk behind a new attachment. */
  function DiskBehind(vbds: map<Uuid, Vbd>, res: Result<Uuid, PublishError>): Uuid {
    if res.Ok? && res.value in vbds then vbds[res.value].vdi else ""
  }

  function SrOf(vdis: map<Uuid, Vdi>, u: Uuid): Uuid {
    if u in vdis then vdis[u].sr else ""
  }

  ghost predicate LookupTells(vdis: map<Uuid, Vdi>, id: ParsedId, found: Found) {
    match found
    case NotFound => LeadsNowhere(vdis, id)
    case One(u) => LeadsTo(vdis, id, u)
    case Many => id.kind.NameAsVolumeId? && SeveralNamed(vdis, Final(id.value))
    case Failed => true
  }

  /** Looks a disk up by handle of either kind. */
  method Lookup(xo: XoClient.Client, id: ParsedId) returns (found: Found)
    modifies xo`faults
    ensures LookupTells(xo.vdis, id, found)
    ensures xo.faults == old(xo.faults) + if found.Failed? then 1 else 0
  {
    match id.kind
    case NameAsVolumeId => found := xo.GetVdiByName(Final(id.value));
    case UuidAsVolumeId =>
      var vdi := xo.GetVdiByUuid(id.value);
      found := if vdi.Ok? then One(id.value) else if vdi.error.NoSuchObject? then NotFound else Failed;
  }

  datatype Located = Located(u: Uuid, vdi: Vdi, info: StorageInfo)

  class Publisher {
    const xo: XoClient.Client
    const hostTopology: bool

    constructor (xo: XoClient.Client, hostTopology: bool)
      ensures this.xo == xo && this.hostTopology == hostTopology
    {
      this.xo, this.hostTopology := xo, hostTopology;
    }

    /** The protocol state describes the remote side. */
    ghost predicate Sees(s: Sight)
      reads this, xo
    {
      s.vdis == xo.vdis && s.used == xo.used && s.vbds == xo.vbds && s.srs == xo.srs && s.vms == xo.vms
    }

    /** The first half of findDisk. */
    method LookupVolume(id: ParsedId, v: string, vm: Uuid, ghost r: Running) returns (found: Found, ghost r': Running)
      requires Sees(See(Last(r), v)) && Understood(See(Last(r), v), v, id)
      requires See(Last(r), v).call == if See(Last(r), v).volume.Some? then Some(PFind(vm)) else None
      modifies xo`faults
      ensures Continues(r, r')
      ensures found.One? ==>
                LeadsTo(xo.vdis, id, found.uuid) && (See(Last(r), v).volume.Some? || !Usable(xo.vdis[found.uuid]))
      ensures See(Last(r'), v) ==
                See(Last(r), v).(call := if found.One? then Onwards(vm, found.uuid, xo.vdis[found.uuid]) else None)
      ensures found.NotFound? ==> LeadsNowhere(xo.vdis, id)
      ensures found.Many? ==> id.kind.NameAsVolumeId? && SeveralNamed(xo.vdis, Final(id.value))
      ensures xo.faults == old(xo.faults) + if found.Failed? then 1 else 0
    {
      found := Lookup(xo, id);
      assert found.One? ==> LeadsTo(See(Last(r), v).vdis, id, found.uuid);
      r' := r;
      if See(Last(r), v).volume.Some? {
        r' := Finds(r, v, vm, found);
      }
    }

    /** The second half of findDisk: reads the description, and removes a marker that has come true. */
    method ReadRecord(v: string, vm: Uuid, u: Uuid, vdi: Vdi, ghost r: Running)
      returns (res: Result<Located, PublishError>, ghost r': Running)
      requires Sees(See(Last(r), v)) && See(Last(r), v).call == Onwards(vm, u, vdi)
      requires u in xo.vdis && vdi == xo.vdis[u] && (See(Last(r), v).volume.Some? || !Usable(vdi))
      modifies xo`vdis, xo`faults
      ensures Continues(r, r')
      ensures See(Last(r'), v) == See(Last(r), v).(vdis := xo.vdis,
                call := if res.Ok? then Some(PGetVm(vm, res.value.u, res.value.vdi, res.value.info)) else None)
      ensures res.Ok? ==>
                Usable(vdi) && res.value == Located(u, vdi, Unmarked(vdi.desc.info))
                  && xo.vdis == WithoutMarker(old(xo.vdis), u)
      ensures xo.faults >= old(xo.faults)
      ensures match res
              case Ok(_) => true
              case Err(RetryLater) => xo.faults > old(xo.faults)
              case Err(BadMetadata) => !vdi.desc.Info? && xo.vdis == old(xo.vdis)
              case Err(e) => e.BeingMigrated? && OnItsWay(vdi) && xo.vdis == old(xo.vdis)
    {
      r' := r;
      if !vdi.desc.Info? {
        return Err(BadMetadata), r';
      }
      var info := vdi.desc.info;
      match info.HasOngoingMigration()
      case None => res := Ok(Located(u, vdi, info));
      case Some(target) =>
        if target != vdi.sr {
          return Err(BeingMigrated), r';
        }
        // one disk is left, and it is on the right SR
        info := info.EndMigration();
        var edited;
        ghost var o;
        edited, o := xo.EditVdi(u, None, Some(Info(info)));
        r' := Clears(r, v, vm, u, vdi, vdi.desc.info, o);
        res := if edited.Ok? then Ok(Located(u, vdi, info)) else Err(RetryLater);
    }

    /** findDisk for a handle that parses. */
    method FindById(id: ParsedId, v: string, vm: Uuid, ghost r: Running)
      returns (res: Result<Located, PublishError>, ghost r': Running)
      requires Sees(See(Last(r), v)) && Understood(See(Last(r), v), v, id)
      requires See(Last(r), v).call == if See(Last(r), v).volume.Some? then Some(PFind(vm)) else None
      modifies xo`vdis, xo`faults
      ensures Continues(r, r')
      ensures See(Last(r'), v) == See(Last(r), v).(vdis := xo.vdis,
                call := if res.Ok? then Some(PGetVm(vm, res.value.u, res.value.vdi, res.value.info)) else None)
      ensures res.Ok? ==>
                var Located(u, vdi, info) := res.value;
                && See(Last(r), v).volume.Some? && LeadsTo(old(xo.vdis), id, u) && vdi == old(xo.vdis)[u] && Usable(vdi)
                && info == Unmarked(vdi.desc.info) && xo.vdis == WithoutMarker(old(xo.vdis), u)
      ensures xo.faults >= old(xo.faults)
      ensures res.Err? ==> if res.error.RetryLater? then xo.faults > old(xo.faults)
                           else RefusesId(old(xo.vdis), id, res.error) && xo.vdis == old(xo.vdis)
    {
      var found;
      found, r' := LookupVolume(id, v, vm, r);
      match found
      case NotFound => res := Err(NoDisk);
      case Many => res := Err(BeingMigrated);
      case Failed => res := Err(RetryLater);
      case One(u) => res, r' := ReadRecord(v, vm, u, xo.vdis[u], r');
    }

    /** findDisk: the disk of a handle and its record, without the marker of a finished migration. A
        failure is for a reason that the state gives, or there was a failing call; with no failing call
        the state settles the answer. */
    method FindDisk(id: string, v: string, vm: Uuid, ghost r: Running)
      returns (res: Result<Located, PublishError>, ghost r': Running)
      requires Sees(See(Last(r), v))
               && (ParseVolumeId(id).Ok? ==> Understood(See(Last(r), v), v, ParseVolumeId(id).value))
      requires See(Last(r), v).call == if See(Last(r), v).volume.Some? then Some(PFind(vm)) else None
      modifies xo`vdis, xo`faults
      ensures Continues(r, r')
      ensures See(Last(r'), v) == See(Last(r), v).(vdis := xo.vdis,
                call := if res.Ok? then Some(PGetVm(vm, res.value.u, res.value.vdi, res.value.info)) else None)
      ensures res.Ok? ==>
                var Located(u, vdi, info) := res.value;
                && See(Last(r), v).volume.Some? && Publishable(old(xo.vdis), id, u) && vdi == old(xo.vdis)[u]
                && info == Unmarked(vdi.desc.info) && xo.vdis == WithoutMarker(old(xo.vdis), u)
      ensures xo.faults >= old(xo.faults)
      ensures res.Err? ==> if res.error.RetryLater? then xo.faults > old(xo.faults)
                           else FindRefuses(old(xo.vdis), id, res.error) && xo.vdis == old(xo.vdis)
      ensures xo.faults == old(xo.faults) ==> forall e :: FindRefuses(old(xo.vdis), id, e) ==> res == Err(e)
    {
      r' := r;
      var parsed := ParseVolumeId(id);
      if parsed.Err? {
        if See(Last(r), v).volume.Some? {
          r' := Quits(r, v, PFind(vm));
        }
        return Err(InvalidId), r';
      }
      res, r' := FindById(parsed.value, v, vm, r);
      Decides(old(xo.vdis), id, if res.Ok? then Ok(res.value.u) else Err(res.error));
    }

    /** Which of the listed attachments to work with: an attached one if there is one. */
    method Preferred(vbds: seq<Uuid>) returns (b: Uuid)
      requires vbds != [] && forall k :: 0 <= k < |vbds| ==> vbds[k] in xo.vbds
      ensures b in vbds
      ensures !xo.vbds[b].attached ==> forall k :: 0 <= k < |vbds| ==> !xo.vbds[vbds[k]].attached
    {
      for i := 0 to |vbds|
        invariant forall k :: 0 <= k < i ==> !xo.vbds[vbds[k]].attached
      {
        if xo.vbds[vbds[i]].attached {
          return vbds[i];
        }
      }
      return vbds[0];
    }

    /** checkDiskAttachment: an attachment of the disk to the VM that has a device, connected first where
        necessary; none if there is no attachment. */
    method CheckDiskAttachment(v: string, on: Vm, u: Uuid, vdi: Vdi, info: StorageInfo, ghost r: Running)
      returns (res: Result<Option<Uuid>, PublishError>, ghost r': Running)
      requires Sees(See(Last(r), v)) && IsAt(See(Last(r), v), PCheck(on, u, vdi, info))
      modifies xo`vbds, xo`faults
      ensures Continues(r, r')
      ensures See(Last(r'), v) ==
                See(Last(r), v).(vbds := xo.vbds, call := if res == Ok(None) then Some(PSelect(on, u, vdi, info))
                                                          else None)
      ensures res.Ok? && res.value.Some? ==>
                Attachment(old(xo.vbds), res.value.value, on.uuid, u)
                  && Attachment(xo.vbds, res.value.value, on.uuid, u)
                && xo.vbds[res.value.value].attached && xo.vbds[res.value.value].device != ""
      ensures res == Ok(None) ==> xo.vbds == old(xo.vbds) && forall b :: !Attachment(xo.vbds, b, on.uuid, u)
      ensures forall b :: b !in old(xo.vbds) || !Attachment(old(xo.vbds), b, on.uuid, u) ==>
                (b in xo.vbds <==> b in old(xo.vbds)) && (b in xo.vbds ==> xo.vbds[b] == old(xo.vbds)[b])
      ensures xo.faults >= old(xo.faults) && (res.Err? ==> res == Err(RetryLater) && xo.faults > old(xo.faults))
    {
      r' := r;
      var listed := xo.GetVbds(Some(on.uuid), u);
      if listed.None? {
        r' := Checks(r, v, on, u, vdi, info, Err(()));
        return Err(RetryLater), r';
      }
      if |listed.value| == 0 {
        NothingListed(xo.vbds, Some(on.uuid), u);
        r' := Checks(r, v, on, u, vdi, info, Ok(None));
        return Ok(None), r';
      }
      assert forall k :: 0 <= k < |listed.value| ==> listed.value[k] in listed.value;
      var b := Preferred(listed.value);
      r' := Checks(r, v, on, u, vdi, info, Ok(Some(b)));
      if xo.vbds[b].attached && xo.vbds[b].device != "" {
        return Ok(Some(b)), r';
      }
      var connected;
      ghost var o, device;
      connected, o, device := xo.ConnectVbd(b);
      r' := Connects(r', v, b, u, o, device);
      res := if connected.Ok? then Ok(Some(b)) else Err(RetryLater);
    }

    /** The first part of migrateVDI, once an SR is picked: refuses disks in use, writes the marker. */
    method MarkForMigration(v: string, on: Vm, u: Uuid, info: StorageInfo, target: Uuid, ghost r: Running)
      returns (failure: Option<PublishError>, ghost r': Running)
      requires Sees(See(Last(r), v)) && IsAt(See(Last(r), v), PCheckVbds(on, u, info, target)) && info.migrating.Some?
      modifies xo`vdis, xo`faults
      ensures Continues(r, r')
      ensures See(Last(r'), v) ==
                See(Last(r), v).(vdis := xo.vdis, call := if failure.None? then Some(PIssue(on, u, info, target))
                                                          else None)
      ensures failure.None? ==>
                Detached(xo.vbds, u) && u in old(xo.vdis)
                  && xo.vdis == Described(old(xo.vdis), u, Info(info.StartMigration(target)))
      ensures xo.faults >= old(xo.faults)
      ensures failure.Some? ==> if failure.value.InUse? then !Detached(xo.vbds, u) && xo.vdis == old(xo.vdis)
                                else failure == Some(RetryLater) && (xo.faults > old(xo.faults) || u !in old(xo.vdis))
    {
      r' := r;
      var listed := xo.GetVbds(None, u);
      if listed == Some([]) {
        NothingListed(xo.vbds, None, u);
      }
      r' := ChecksVbds(r, v, on, u, info, target, listed == Some([]));
      if listed.None? {
        return Some(RetryLater), r';
      }
      if |listed.value| > 0 {
        assert listed.value[0] in listed.value;
        return Some(InUse), r';
      }
      var edited;
      ghost var o;
      edited, o := xo.EditVdi(u, None, Some(Info(info.StartMigration(target))));
      r' := Marks(r', v, on, u, info, target, o);
      failure := if edited.Ok? then None else Some(RetryLater);
    }

    /** The last part of migrateVDI: removes the marker from the copy. */
    method AdoptCopy(v: string, on: Vm, copy: Uuid, info: StorageInfo, ghost r: Running)
      returns (failure: Option<PublishError>, ghost r': Running)
      requires Sees(See(Last(r), v)) && IsAt(See(Last(r), v), PFetch(on, copy, info))
      modifies xo`vdis, xo`faults
      ensures Continues(r, r')
      ensures See(Last(r'), v) ==
                See(Last(r), v).(vdis := xo.vdis, call := if failure.None? then Some(PAttach(on, copy)) else None)
      ensures failure.None? ==> copy in old(xo.vdis) && xo.vdis == Described(old(xo.vdis), copy, Info(info))
      ensures xo.faults >= old(xo.faults)
      ensures failure.Some? ==> (failure == Some(RetryLater) && xo.faults > old(xo.faults)) || copy !in old(xo.vdis)
    {
      r' := r;
      var got := xo.GetVdiByUuid(copy);
      r' := Fetches(r, v, on, copy, info, got.Ok?);
      if got.Err? {
        return Some(if got.error.NoSuchObject? then NoDisk else RetryLater), r';
      }
      var edited;
      ghost var o;
      edited, o := xo.EditVdi(copy, None, Some(Info(info)));
      r' := Unmarks(r', v, on, copy, info, o);
      failure := if edited.Ok? then None else Some(RetryLater);
    }

    /** The middle part of migrateVDI: has the disk moved. */
    method Migrate(v: string, on: Vm, u: Uuid, info: StorageInfo, target: Uuid, ghost r: Running)
      returns (res: Result<Uuid, PublishError>, ghost r': Running)
      requires Sees(See(Last(r), v)) && IsAt(See(Last(r), v), PIssue(on, u, info, target)) && xo.vdis.Keys <= xo.used
      modifies xo`vdis, xo`used, xo`faults
      ensures Continues(r, r')
      ensures See(Last(r'), v)
              == See(Last(r), v).(vdis := xo.vdis, used := xo.used,
                                  call := if res.Ok? then Some(PAttach(on, res.value)) else None)
      ensures res.Ok? ==>
                u in old(xo.vdis) && res.value !in old(xo.used)
                  && xo.vdis == Relocated(old(xo.vdis), u, res.value, target, info)
      ensures xo.faults >= old(xo.faults)
      ensures res.Err? ==> res == Err(RetryLater) && (xo.faults > old(xo.faults) || u !in old(xo.vdis))
    {
      r' := r;
      var moved;
      ghost var m;
      moved, m := xo.MigrateVdi(u, target);
      r' := Migrates(r, v, on, u, info, target, m, moved.Ok?);
      if moved.Err? {
        return Err(RetryLater), r';
      }
      var failure;
      failure, r' := AdoptCopy(v, on, moved.value, info, r');
      res := if failure.None? then Ok(moved.value) else Err(failure.value);
    }

    /** migrateVDI once an SR is picked. */
    method MigrateTo(v: string, on: Vm, u: Uuid, info: StorageInfo, target: Uuid, ghost r: Running)
      returns (res: Result<Uuid, PublishError>, ghost r': Running)
      requires Sees(See(Last(r), v)) && IsAt(See(Last(r), v), PCheckVbds(on, u, info, target))
      requires info.migrating.Some? && xo.vdis.Keys <= xo.used
      modifies xo`vdis, xo`used, xo`faults
      ensures Continues(r, r')
      ensures See(Last(r'), v)
              == See(Last(r), v).(vdis := xo.vdis, used := xo.used,
                                  call := if res.Ok? then Some(PAttach(on, res.value)) else None)
      ensures res.Ok? ==>
                && Detached(xo.vbds, u) && u in old(xo.vdis) && res.value !in old(xo.used)
                && xo.vdis == Relocated(old(xo.vdis), u, res.value, target, info)
      ensures xo.faults >= old(xo.faults)
      ensures res.Err? ==> if res.error.InUse? then !Detached(xo.vbds, u)
                           else res == Err(RetryLater) && (xo.faults > old(xo.faults) || u !in old(xo.vdis))
    {
      var failure;
      failure, r' := MarkForMigration(v, on, u, info, target, r);
      if failure.Some? {
        return Err(failure.value), r';
      }
      res, r' := Migrate(v, on, u, info, target, r');
    }

    /** migrateVDI. With no failing call it succeeds exactly when there is an SR to move to, the disk is
        still there, and it is attached to no VM. */
    method MigrateVdi(v: string, on: Vm, u: Uuid, vdi: Vdi, selection: StorageSelection, ghost r: Running)
      returns (res: Result<Uuid, PublishError>, ghost r': Running)
      requires Sees(See(Last(r), v)) && See(Last(r), v).volume.Some?
               && See(Last(r), v).call == Towards(selection.View(), on, u, vdi)
      requires selection.migrating && xo.vdis.Keys <= xo.used
      modifies xo`vdis, xo`used, xo`faults
      ensures Continues(r, r')
      ensures See(Last(r'), v)
              == See(Last(r), v).(vdis := xo.vdis, used := xo.used,
                                  call := if res.Ok? then Some(PAttach(on, res.value)) else None)
      ensures res.Ok? ==>
                var target := selection.View().SrForHost(on.host, vdi.size);
                && target.Ok? && Detached(xo.vbds, u) && u in old(xo.vdis) && res.value !in old(xo.used)
                && xo.vdis == Relocated(old(xo.vdis), u, res.value, target.value.uuid, selection.View().ToStorageInfo())
      ensures xo.faults >= old(xo.faults)
      ensures match res
              case Ok(_) => true
              case Err(NoTarget) => selection.View().SrForHost(on.host, vdi.size).Err?
              case Err(InUse) => !Detached(xo.vbds, u)
              case Err(e) => e.RetryLater? && (xo.faults > old(xo.faults) || u !in old(xo.vdis))
    {
      r' := r;
      var picked := selection.PickSrForHost(on.host, vdi.size);
      if picked.Err? {
        return Err(NoTarget), r';
      }
      res, r' := MigrateTo(v, on, u, selection.View().ToStorageInfo(), picked.value.uuid, r);
    }

    /** Restores the selection from the record and looks up its SRs. */
    method RestoreSelection(vdi: Vdi, info: StorageInfo, ghost on: Vm)
      returns (failure: Option<PublishError>, selection: StorageSelection, ghost listing: seq<Sr>)
      requires Directory(xo.srs)
      modifies xo`faults
      ensures fresh(selection) && xo.faults >= old(xo.faults)
      ensures failure.None? ==> (info.srsWithTag.Some? ==> ListsTag(xo.srs, info.srsWithTag.value, listing))
      ensures failure.None? ==>
                Completed(SelectionFromStorageInfo(info, vdi, hostTopology), xo.srs, listing) == Ok(selection.View())
      ensures failure == if xo.faults > old(xo.faults) then Some(RetryLater)
                         else if HasSrs(xo.srs, vdi, info) then None else Some(NoSr)
      ensures failure.None? ==> DecidesOn(selection.View(), xo.srs, vdi, info, on)
    {
      selection := new StorageSelection.FromStorageInfo(info, vdi, hostTopology);
      var problem;
      problem, listing := selection.FindSrs(xo);
      failure := if problem.None? then None else Some(if problem.value.Remote? then RetryLater else NoSr);
      if problem.None? || problem.value.Permanent? {
        RestoresExactlyWhen(xo.srs, vdi, info, on, hostTopology, listing);
      }
      if problem.None? {
        RestoredDecides(selection.View(), xo.srs, vdi, info, on, hostTopology, listing);
      }
    }

    /** Looks up the SRs and decides whether the disk has to move. */
    method Decide(v: string, on: Vm, u: Uuid, vdi: Vdi, info: StorageInfo, ghost r: Running)
      returns (decision: Result<bool, PublishError>, selection: StorageSelection, ghost r': Running)
      requires Sees(See(Last(r), v)) && IsAt(See(Last(r), v), PSelect(on, u, vdi, info)) && Directory(xo.srs)
      modifies xo`faults
      ensures Continues(r, r') && fresh(selection)
      ensures See(Last(r'), v) == See(Last(r), v).(call :=
                match decision
                case Err(_) => None
                case Ok(false) => Some(PAttach(on, u))
                case Ok(true) => Towards(selection.View(), on, u, vdi))
      ensures decision == Ok(true) ==> selection.View().migrating && selection.View().srsWithTag == info.srsWithTag
      ensures xo.faults >= old(xo.faults)
      ensures match decision
              case Ok(moves) =>
                if moves then MustMove(xo.srs, vdi, info, on) && PicksWell(selection.View(), xo.srs, vdi, info, on)
                else WellPlaced(xo.srs, vdi, info, on)
              case Err(RetryLater) => xo.faults > old(xo.faults)
              case Err(e) => (e.NoSr? || e.NotServed?) && PlaceRefuses(xo.srs, xo.vbds, vdi, info, on, u, e)
    {
      var failure;
      ghost var listing;
      failure, selection, listing := RestoreSelection(vdi, info, on);
      r' := Selects(r, v, on, u, vdi, info, if failure.None? then Some(listing) else None, hostTopology);
      if failure.Some? {
        return Err(failure.value), selection, r';
      }
      var needed := selection.View().NeedsMigration(on);
      decision := if needed.Ok? then Ok(needed.value) else Err(NotServed);
    }

    /** Makes sure that the disk is on an SR that serves the VM, by migration where allowed; a disk that
        is well placed stays where it is. */
    method Place(v: string, on: Vm, u: Uuid, vdi: Vdi, info: StorageInfo, ghost r: Running)
      returns (res: Result<Uuid, PublishError>, ghost r': Running)
      requires Sees(See(Last(r), v)) && IsAt(See(Last(r), v), PSelect(on, u, vdi, info))
      requires Directory(xo.srs) && xo.vdis.Keys <= xo.used && u in xo.vdis
      modifies xo`vdis, xo`used, xo`faults
      ensures Continues(r, r')
      ensures See(Last(r'), v)
              == See(Last(r), v).(vdis := xo.vdis, used := xo.used,
                                  call := if res.Ok? then Some(PAttach(on, res.value)) else None)
      ensures xo.faults >= old(xo.faults)
      ensures res.Ok? ==> Settled(old(xo.vdis), xo.vdis, u, res.value, info.srsWithTag)
      ensures PlaceVerdict(xo.srs, xo.vbds, vdi, info, on, u, res, if res.Ok? then res.value else "",
                           if res.Ok? then xo.vdis[res.value].sr else "", xo.faults > old(xo.faults))
    {
      var decision, selection;
      decision, selection, r' := Decide(v, on, u, vdi, info, r);
      if decision.Err? {
        return Err(decision.error), r';
      }
      if !decision.value {
        return Ok(u), r';
      }
      ghost var sel := selection.View();
      res, r' := MigrateVdi(v, on, u, vdi, selection, r');
      if res.Ok? {
        MovedWell(old(xo.vdis), xo.vdis, xo.srs, xo.vbds, vdi, info, on, u, sel, res.value);
      }
    }

    /** Attaches the disk and ends the call. */
    method Attach(v: string, on: Vm, u: Uuid, ghost r: Running)
      returns (res: Result<Uuid, PublishError>, ghost r': Running)
      requires Sees(See(Last(r), v)) && IsAt(See(Last(r), v), PAttach(on, u)) && u in xo.vdis
      modifies xo`vbds, xo`faults
      ensures Continues(r, r')
      ensures See(Last(r'), v) == See(Last(r), v).(vbds := xo.vbds, call := None)
      ensures res.Ok? ==>
                && res.value !in old(xo.vbds) && Attachment(xo.vbds, res.value, on.uuid, u)
                && xo.vbds[res.value].attached && xo.vbds[res.value].device != ""
      ensures forall b :: b in old(xo.vbds) ==> b in xo.vbds && xo.vbds[b] == old(xo.vbds)[b]
      ensures forall b :: b in xo.vbds && b !in old(xo.vbds) ==> Attachment(xo.vbds, b, on.uuid, u)
      ensures xo.faults >= old(xo.faults) && (res.Err? ==> Transient(res.error) && xo.faults > old(xo.faults))
    {
      var attached;
      ghost var o, b, device;
      attached, o, b, device := xo.AttachVdi(on.uuid, u);
      r' := Attaches(r, v, on, u, b, device, o);
      if attached.Err? {
        return Err(RetryLater), r';
      }
      if xo.vbds[attached.value].device == "" {
        return Err(NoDevice), r';
      }
      return Ok(attached.value), r';
    }

    /** The attachment `b` of a disk of `v` to VM `vm` is ready to be used. */
    ghost predicate Ready(v: string, vm: Uuid, b: Uuid)
      reads xo
    {
      && b in xo.vbds && xo.vbds[b].vm == vm && xo.vbds[b].attached && xo.vbds[b].device != ""
      && OneDiskOf(xo.vdis, v, xo.vbds[b].vdi)
    }

    /** Publishing a disk that is not attached to the VM yet. */
    method PlaceAndAttach(v: string, on: Vm, u: Uuid, vdi: Vdi, info: StorageInfo, ghost r: Running)
      returns (res: Result<Uuid, PublishError>, ghost r': Running)
      requires Sees(See(Last(r), v)) && IsAt(See(Last(r), v), PSelect(on, u, vdi, info))
      requires Directory(xo.srs) && xo.vdis.Keys <= xo.used && u in xo.vdis
      modifies xo`vdis, xo`used, xo`vbds, xo`faults
      ensures Continues(r, r')
      ensures See(Last(r'), v)
              == See(Last(r), v).(vdis := xo.vdis, used := xo.used, vbds := xo.vbds, call := None)
      ensures res.Ok? ==> Ready(v, on.uuid, res.value) && res.value !in old(xo.vbds)
      ensures res.Ok? ==> ServesOn(See(Last(r'), v), v, xo.vbds[res.value].vdi, on)
      ensures xo.faults >= old(xo.faults)
      ensures res.Ok? ==> Settled(old(xo.vdis), xo.vdis, u, xo.vbds[res.value].vdi, info.srsWithTag)
      ensures PlaceVerdict(xo.srs, old(xo.vbds), vdi, info, on, u, res, DiskBehind(xo.vbds, res),
                           SrOf(xo.vdis, DiskBehind(xo.vbds, res)), xo.faults > old(xo.faults))
    {
      var placed;
      placed, r' := Place(v, on, u, vdi, info, r);
      if placed.Err? {
        return Err(placed.error), r';
      }
      AttachedDiskServes(r', v, on, placed.value);
      res, r' := Attach(v, on, placed.value, r');
    }

    /** Publishing on a VM that has been looked up. */
    method PublishOn(v: string, on: Vm, u: Uuid, vdi: Vdi, info: StorageInfo, ghost r: Running)
      returns (res: Result<Uuid, PublishError>, ghost r': Running)
      requires Sees(See(Last(r), v)) && IsAt(See(Last(r), v), PCheck(on, u, vdi, info))
      requires Directory(xo.srs) && xo.vdis.Keys <= xo.used && OneDiskOf(xo.vdis, v, u)
      modifies xo`vdis, xo`used, xo`vbds, xo`faults
      ensures Continues(r, r')
      ensures See(Last(r'), v)
              == See(Last(r), v).(vdis := xo.vdis, used := xo.used, vbds := xo.vbds, call := None)
      ensures res.Ok? ==> Ready(v, on.uuid, res.value)
      ensures res.Ok? && res.value !in old(xo.vbds) ==> ServesOn(See(Last(r'), v), v, xo.vbds[res.value].vdi, on)
      ensures xo.faults >= old(xo.faults)
      ensures res.Ok? ==> Settled(old(xo.vdis), xo.vdis, u, xo.vbds[res.value].vdi, info.srsWithTag)
      ensures OnVerdict(xo.srs, old(xo.vbds), vdi, info, on, u, res, DiskBehind(xo.vbds, res),
                        SrOf(xo.vdis, DiskBehind(xo.vbds, res)), xo.faults > old(xo.faults))
    {
      var attachment;
      attachment, r' := CheckDiskAttachment(v, on, u, vdi, info, r);
      if attachment.Err? {
        return Err(attachment.error), r';
      }
      if attachment.value.Some? {
        return Ok(attachment.value.value), r';
      }
      res, r' := PlaceAndAttach(v, on, u, vdi, info, r');
    }

    /** Publishing a disk that has been found. */
    method PublishDisk(v: string, vm: Uuid, u: Uuid, vdi: Vdi, info: StorageInfo, ghost r: Running)
      returns (res: Result<Uuid, PublishError>, ghost r': Running)
      requires Sees(See(Last(r), v)) && IsAt(See(Last(r), v), PGetVm(vm, u, vdi, info))
      modifies xo`vdis, xo`used, xo`vbds, xo`faults
      ensures Continues(r, r')
      ensures See(Last(r'), v)
              == See(Last(r), v).(vdis := xo.vdis, used := xo.used, vbds := xo.vbds, call := None)
      ensures res.Ok? ==> Ready(v, vm, res.value)
      ensures res.Ok? && res.value !in old(xo.vbds) ==>
                vm in xo.vms && ServesOn(See(Last(r'), v), v, xo.vbds[res.value].vdi, xo.vms[vm])
      ensures xo.faults >= old(xo.faults)
      ensures res.Ok? ==> Settled(old(xo.vdis), xo.vdis, u, xo.vbds[res.value].vdi, info.srsWithTag)
      ensures DiskVerdict(xo.srs, xo.vms, old(xo.vbds), vdi, info, vm, u, res, DiskBehind(xo.vbds, res),
                          SrOf(xo.vdis, DiskBehind(xo.vbds, res)), xo.faults > old(xo.faults))
    {
      SeenWorld(r);
      FoundDiskIsTheOnlyOne(r, v, vm, u, vdi, info);
      var on := xo.GetVmByUuid(vm);
      r' := GetsVm(r, v, vm, u, vdi, info, on.Ok?);
      if on.Err? {
        return Err(if on.error.NoSuchObject? then NoVm else RetryLater), r';
      }
      res, r' := PublishOn(v, on.value, u, vdi, info, r');
    }

    /** Finding the disk and publishing it. */
    method FindAndPublish(id: string, v: string, vm: Uuid, ghost r: Running)
      returns (res: Result<Uuid, PublishError>, ghost u: Uuid, ghost r': Running)
      requires Sees(See(Last(r), v))
               && (ParseVolumeId(id).Ok? ==> Understood(See(Last(r), v), v, ParseVolumeId(id).value))
      requires See(Last(r), v).call == if See(Last(r), v).volume.Some? then Some(PFind(vm)) else None
      modifies xo`vdis, xo`used, xo`vbds, xo`faults
      ensures Continues(r, r')
      ensures See(Last(r'), v) == See(Last(r), v).(vdis := xo.vdis, used := xo.used, vbds := xo.vbds, call := None)
      ensures res.Ok? ==> Ready(v, vm, res.value)
      ensures res.Ok? && res.value !in old(xo.vbds) ==>
                vm in xo.vms && ServesOn(See(Last(r'), v), v, xo.vbds[res.value].vdi, xo.vms[vm])
      ensures res.Ok? ==>
                && Publishable(old(xo.vdis), id, u)
                && Settled(WithoutMarker(old(xo.vdis), u), xo.vdis, u, xo.vbds[res.value].vdi,
                           old(xo.vdis)[u].desc.info.srsWithTag)
      ensures xo.faults >= old(xo.faults)
      ensures PublishVerdict(old(xo.vdis), old(xo.vbds), xo.srs, xo.vms, id, vm, u, res, DiskBehind(xo.vbds, res),
                             SrOf(xo.vdis, DiskBehind(xo.vbds, res)), xo.faults > old(xo.faults))
      ensures res.Err? && FindRefuses(old(xo.vdis), id, res.error) ==>
                xo.vdis == old(xo.vdis) && xo.vbds == old(xo.vbds)
    {
      u := "";
      var located;
      located, r' := FindDisk(id, v, vm, r);
      if located.Err? {
        return Err(located.error), u, r';
      }
      u := located.value.u;
      res, r' := PublishDisk(v, vm, located.value.u, located.value.vdi, located.value.info, r');
    }

    /** ControllerPublishVolume, after the request has been validated, for the handle of a volume that
        was handed out, or one that leads to no disk or to one without a usable record, which is an
        error. A success leaves the one disk of the volume attached, without a marker, and no other disk
        changed; an attachment made by this call is on an SR that serves the VM. When no call fails, a
        disk whose SR serves the VM is attached where it is; one that has to move and can is migrated and
        attached. */
    method PublishVolume(id: string, v: string, vm: Uuid, ghost r: Running)
      returns (res: Result<Uuid, PublishError>, ghost u: Uuid, ghost r': Running)
      requires Sees(See(Last(r), v)) && See(Last(r), v).call.None?
      requires ParseVolumeId(id).Ok? ==> Understood(See(Last(r), v), v, ParseVolumeId(id).value)
      modifies xo`vdis, xo`used, xo`vbds, xo`faults
      ensures Continues(r, r') && Sees(See(Last(r'), v)) && v !in Last(r').calls
      ensures res.Ok? ==> Ready(v, vm, res.value)
      ensures res.Ok? && res.value !in old(xo.vbds) ==>
                vm in xo.vms && ServesOn(See(Last(r'), v), v, xo.vbds[res.value].vdi, xo.vms[vm])
      ensures res.Ok? ==>
                && Publishable(old(xo.vdis), id, u)
                && Settled(WithoutMarker(old(xo.vdis), u), xo.vdis, u, xo.vbds[res.value].vdi,
                           old(xo.vdis)[u].desc.info.srsWithTag)
      ensures xo.faults >= old(xo.faults)
      ensures PublishVerdict(old(xo.vdis), old(xo.vbds), xo.srs, xo.vms, id, vm, u, res, DiskBehind(xo.vbds, res),
                             SrOf(xo.vdis, DiskBehind(xo.vbds, res)), xo.faults > old(xo.faults))
      ensures res.Err? && FindRefuses(old(xo.vdis), id, res.error) ==>
                xo.vdis == old(xo.vdis) && xo.vbds == old(xo.vbds)
      ensures xo.faults == old(xo.faults) ==>
                ErrorFree(old(xo.vdis), old(xo.vbds), xo.srs, xo.vms, id, vm, u, res, DiskBehind(xo.vbds, res))
    {
      r' := BeginsIfKnown(r, v, vm);
      res, u, r' := FindAndPublish(id, v, vm, r');
      if xo.faults == old(xo.faults) {
        VerdictSettles(old(xo.vdis), old(xo.vbds), xo.srs, xo.vms, id, vm, u, res, DiskBehind(xo.vbds, res),
                       SrOf(xo.vdis, DiskBehind(xo.vbds, res)));
      }
    }

    /** The next publish after a migration, whatever has happened since XO finished copying: on any VM
        that the disk's SR serves, it attaches the disk where it is. */
    method PublishArrived(id: string, v: string, vm: Uuid, x: Uuid, ghost r: Running)
      returns (res: Result<Uuid, PublishError>, ghost r': Running)
      requires Sees(See(Last(r), v)) && See(Last(r), v).call.None?
      requires v in Last(r).volumes && v !in Last(r).tasks && Arrived(Last(r), v, x)
      requires ParseVolumeId(id) == Ok(IdOf(v, Last(r).volumes[v].handle))
      requires vm in xo.vms && Serves(Last(r), x, xo.vms[vm])
      modifies xo`vdis, xo`used, xo`vbds, xo`faults
      ensures Continues(r, r') && Sees(See(Last(r'), v)) && v !in Last(r').calls
      ensures xo.faults >= old(xo.faults)
      ensures xo.faults == old(xo.faults) ==>
                && res.Ok? && Ready(v, vm, res.value) && xo.vbds[res.value].vdi == x
                && xo.vdis == Described(old(xo.vdis), x, Info(Last(r).volumes[v].info))
    {
      ArrivedDiskIsAccepted(r, |r.states| - 1, v, x);
      assert Publishable(xo.vdis, id, x) && StaysFor(xo.vdis, xo.srs, xo.vms, vm, x);
      ghost var u;
      res, u, r' := PublishVolume(id, v, vm, r);
    }
  }
}

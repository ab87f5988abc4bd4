/**
  Publishing with migration as a transition system (pkg/csi/controller.go:211-356, 403-472, 624-697,
  755-806): for every volume at most one call in flight, and at most one migration that Xen Orchestra
  carries out on its own: queued, copying, both disks visible, then the copy alone. The driver may
  give up or crash between any two calls (`Quit`), and a migration goes on without it.

  Assumed of the environment: one call in flight per volume ("Concurrency" section of the CSI
  specification); edits take effect before they return or never; XO copies name and description to
  the migrated disk, never reuses uuids, and refuses to delete a disk it is copying; nobody but the
  driver touches the finished disks of volumes handed out, though its cleaner may erase one on a stale
  listing (`CleanerErases`; StaleListings.dfy says when); CreateVolume is not repeated while the volume is
  being migrated; and, for shared SRs, equal hosts lie in equal pools (`Placed`).
 */
module MigrationProtocol {
  import opened Wrappers
  import opened DiskNames
  import opened Metadata
  import opened Xo
  import opened SrPicking
  import opened SrSelection

  // ---------- states ----------

  datatype Handle = ByName | ByUuid(uuid: Uuid)

  /** A volume handed out: its handle, and the storage information without a migration marker. */
  datatype Volume = Volume(handle: Handle, info: StorageInfo)

  datatype Phase = Queued | Copying | Copied(copy: Uuid)

  /** A migration XO has accepted. */
  datatype Task = Task(source: Uuid, target: Uuid, phase: Phase)

  /** What a call is about to do. */
  datatype Pc =
    // ControllerPublishVolume
    | PFind(vm: Uuid)                                              // controller.go:636, 650
    | PClear(vm: Uuid, u: Uuid, vdi: Vdi, info: StorageInfo)       // controller.go:677-678
    | PGetVm(vm: Uuid, u: Uuid, vdi: Vdi, info: StorageInfo)       // controller.go:228
    | PCheck(on: Vm, u: Uuid, vdi: Vdi, info: StorageInfo)         // controller.go:713
    | PConnect(vbd: Uuid, u: Uuid)                                 // controller.go:740
    | PSelect(on: Vm, u: Uuid, vdi: Vdi, info: StorageInfo)        // controller.go:246-258, 760
    | PCheckVbds(on: Vm, u: Uuid, info: StorageInfo, target: Uuid) // controller.go:765
    | PMark(on: Vm, u: Uuid, info: StorageInfo, target: Uuid)      // controller.go:773-775
    | PIssue(on: Vm, u: Uuid, info: StorageInfo, target: Uuid)     // controller.go:782
    | PWait(on: Vm, info: StorageInfo)                             // controller.go:782
    | PFetch(on: Vm, u: Uuid, info: StorageInfo)                   // controller.go:789
    | PUnmark(on: Vm, u: Uuid, info: StorageInfo)                  // controller.go:797-798
    | PAttach(on: Vm, u: Uuid)                                     // controller.go:277
    // ControllerExpandVolume
    | EFind(size: int)                                             // controller.go:415, 426
    | EResize(u: Uuid, size: int)                                  // controller.go:462
    // ControllerUnpublishVolume
    | UFind                                                        // controller.go:313
    | UDelete(u: Uuid)                                             // controller.go:329-356
    // DeleteVolume
    | DFind                                                        // controller.go:174, 188
    | DDelete(u: Uuid)                                             // controller.go:200
    // CreateVolume, repeated for an existing volume
    | RFind                                                        // controller.go:98
    | RWrite(u: Uuid)                                              // controller.go:125

  datatype State = State(
    vdis: map<Uuid, Vdi>,
    used: set<Uuid>,
    vbds: map<Uuid, Vbd>,
    srs: map<Uuid, Sr>,
    vms: map<Uuid, Vm>,
    hosts: map<string, string>,        // the pool of every host
    volumes: map<string, Volume>,      // what CreateVolume handed out and is neither deleted nor erased
    tasks: map<string, Task>,          // migrations XO is carrying out, by volume
    calls: map<string, Pc>)            // calls in flight, by volume

  /** VMs run on known hosts; a shared SR whose container is a host lies in the pool of that host. */
  ghost predicate Placed(s: State) {
    && Directory(s.srs)
    && (forall m :: m in s.vms ==> s.vms[m].uuid == m && PlacedVm(s, s.vms[m]))
    && (forall u :: u in s.srs && s.srs[u].shared && s.srs[u].host in s.hosts ==>
         s.srs[u].pool == s.hosts[s.srs[u].host])
  }

  /** Disk `u` is a finished disk of `v`. */
  ghost predicate IsDisk(s: State, v: string, u: Uuid) {
    u in s.vdis && s.vdis[u].name == Final(v)
  }

  ghost predicate OnlyDisk(s: State, v: string, u: Uuid) {
    IsDisk(s, v, u) && forall w :: IsDisk(s, v, w) ==> w == u
  }

  ghost predicate PlacedVm(s: State, vm: Vm) {
    vm.host in s.hosts && s.hosts[vm.host] == vm.pool
  }

  // ---------- actions ----------

  datatype CallAction =
    | Begin(first: Pc)
    | Find(found: Found)
    | Clear(o: Outcome)
    | GetVm(ok: bool)
    | Check(attachment: Result<Option<Uuid>, ()>)   // Err: the query failed
    | Connect(o: Outcome, device: string)
    | Select(listing: Option<seq<Sr>>, hostTopology: bool)
    | CheckVbds(ok: bool)
    | Mark(o: Outcome)
    | Issue(accepted: bool)
    | Fetch(ok: bool)
    | Unmark(o: Outcome)
    | Attach(vbd: Uuid, device: string, o: Outcome)
    | Resize(o: Outcome)
    | DetachAll(gone: set<Uuid>)
    | Delete(o: Outcome)
    | Rewrite(o: Outcome)
    | Quit

  datatype XoAction =
    | Starts
    | Copies(copy: Uuid)
    | Finishes(replies: bool)
    | Fails

  datatype WorldAction =
    | HandOut(v: string, u: Uuid, volume: Volume)                // CreateVolume returns the volume on disk `u`
    | MoveVm(m: Uuid, vm: Vm)
    | SetUsage(sr: Uuid, usage: int)
    | PutVbd(b: Uuid, vbd: Vbd)
    | DropVbd(b: Uuid)
    | OtherPut(u: Uuid, vdi: Vdi)                                // disks of no volume handed out: other people's, and
    | OtherDrop(u: Uuid)                                         // those that CreateVolume calls are still working on
    | CleanerErases(v: string, u: Uuid)                          // the volume is lost; a call in flight for it can
                                                                 // change nothing more: its disk is gone for good

  datatype Action =
    | ByCall(v: string, call: CallAction)
    | ByXo(v: string, xo: XoAction)
    | ByWorld(world: WorldAction)

  // ---------- steps ----------

  /** A description rewritten. */
  function Described(vdis: map<Uuid, Vdi>, u: Uuid, desc: Description): map<Uuid, Vdi>
    requires u in vdis
  {
    vdis[u := vdis[u].(desc := desc)]
  }

  /** Looking a volume up: by its handle, except that CreateVolume only knows the name. */
  ghost predicate Resolves(s: State, v: string, pc: Pc, r: Found)
    requires v in s.volumes
  {
    if pc.RFind? || s.volumes[v].handle.ByName? then AnswersName(s.vdis, Final(v), r)
    else
      var u := s.volumes[v].handle.uuid;
      r == Failed || (if u in s.vdis then r == One(u) else r == NotFound)
  }

  /** The first call of each operation. */
  predicate IsFirst(pc: Pc) {
    pc.PFind? || pc.EFind? || pc.UFind? || pc.DFind? || pc.RFind?
  }

  /** Which attachment of disk `u` to VM `m` publishing works with: an attached one if there is one. */
  ghost predicate Selected(s: State, m: Uuid, u: Uuid, attachment: Option<Uuid>) {
    match attachment
    case None => forall b :: b in s.vbds ==> !(s.vbds[b].vm == m && s.vbds[b].vdi == u)
    case Some(b) =>
      && b in s.vbds && s.vbds[b].vm == m && s.vbds[b].vdi == u
      && (!s.vbds[b].attached ==> forall c :: c in s.vbds && s.vbds[c].vm == m && s.vbds[c].vdi == u ==>
           !s.vbds[c].attached)
  }

  ghost predicate CallEnabled(s: State, v: string, a: CallAction) {
    v in s.volumes && (
      if a.Begin? then v !in s.calls && IsFirst(a.first) && (a.first.RFind? ==> v !in s.tasks)
      else v in s.calls && OperationEnabled(s, v, s.calls[v], a))
  }

  ghost predicate OperationEnabled(s: State, v: string, pc: Pc, a: CallAction)
    requires v in s.volumes
  {
    match a
    case Begin(_) => false
    case Find(r) => IsFirst(pc) && Resolves(s, v, pc, r)
    case Clear(o) => pc.PClear? && pc.info.migrating.Some? && Possible(o, pc.u, s.vdis)
    case GetVm(ok) => pc.PGetVm? && (ok ==> pc.vm in s.vms)
    case Check(r) => pc.PCheck? && (r.Ok? ==> Selected(s, pc.on.uuid, pc.u, r.value))
    case Connect(o, _) => pc.PConnect? && (o.Refused? || pc.vbd in s.vbds)
    case Select(listing, _) =>
      pc.PSelect? && (listing.Some? && pc.info.srsWithTag.Some? ==>
        ListsTag(s.srs, pc.info.srsWithTag.value, listing.value))
    case CheckVbds(ok) => pc.PCheckVbds? && (ok ==> forall b :: b in s.vbds ==> s.vbds[b].vdi != pc.u)
    case Mark(o) => pc.PMark? && pc.info.migrating.Some? && Possible(o, pc.u, s.vdis)
    case Issue(accepted) => pc.PIssue? && (accepted ==> pc.u in s.vdis)
    case Fetch(ok) => pc.PFetch? && (ok ==> pc.u in s.vdis)
    case Unmark(o) => pc.PUnmark? && Possible(o, pc.u, s.vdis)
    case Attach(b, _, o) => pc.PAttach? && Possible(o, pc.u, s.vdis) && b !in s.vbds
    case Resize(o) => pc.EResize? && Possible(o, pc.u, s.vdis)
    case DetachAll(_) => pc.UDelete?
    case Delete(o) =>
      pc.DDelete? && Possible(o, pc.u, s.vdis) && (v in s.tasks && !s.tasks[v].phase.Queued? ==> o.Refused?)
    case Rewrite(o) => pc.RWrite? && Possible(o, pc.u, s.vdis)
    case Quit => true
  }

  datatype Next = Go(pc: Pc) | End

  /** Where a call goes once it has found its disk: findDisk's look at the description
      (controller.go:661-697), and the other operations' own checks. */
  ghost function Resolved(s: State, v: string, pc: Pc, u: Uuid): Next
    requires u in s.vdis && IsFirst(pc)
  {
    var vdi := s.vdis[u];
    match pc
    case PFind(vm) =>
      if !vdi.desc.Info? then End
      else (
        match vdi.desc.info.HasOngoingMigration()
        case None => Go(PGetVm(vm, u, vdi, vdi.desc.info))
        case Some(target) => if target != vdi.sr then End else Go(PClear(vm, u, vdi, vdi.desc.info)))
    case EFind(size) =>
      if vdi.desc.Info? && vdi.desc.info.HasOngoingMigration().None? then Go(EResize(u, size)) else End
    case UFind => Go(UDelete(u))
    case DFind => Go(DDelete(u))
    case RFind => Go(RWrite(u))
  }

  /** Which SR, if any, publishing on VM `on` would move the disk to (controller.go:246-263, 760). */
  ghost function Placement(s: State, pc: Pc, listing: seq<Sr>, hostTopology: bool): Next
    requires pc.PSelect?
  {
    var sel := Completed(SelectionFromStorageInfo(pc.info, pc.vdi, hostTopology), s.srs, listing);
    if sel.Err? then End
    else
      match sel.value.NeedsMigration(pc.on)
      case Err(_) => End
      case Ok(false) => Go(PAttach(pc.on, pc.u))
      case Ok(true) =>
        match sel.value.SrForHost(pc.on.host, pc.vdi.size)
        case Err(_) => End
        case Ok(target) => Go(PCheckVbds(pc.on, pc.u, sel.value.ToStorageInfo(), target.uuid))
  }

  ghost function CallNext(s: State, v: string, a: CallAction): Next
    requires CallEnabled(s, v, a)
  {
    match a
    case Begin(first) => Go(first)
    case Find(r) => if r.One? then Resolved(s, v, s.calls[v], r.uuid) else End
    case Clear(o) =>
      var pc := s.calls[v];
      if o.Done? then Go(PGetVm(pc.vm, pc.u, pc.vdi, pc.info.EndMigration())) else End
    case GetVm(ok) =>
      var pc := s.calls[v];
      if ok then Go(PCheck(s.vms[pc.vm], pc.u, pc.vdi, pc.info)) else End
    case Check(r) =>
      var pc := s.calls[v];
      if r.Err? then End
      else if r.value.None? then Go(PSelect(pc.on, pc.u, pc.vdi, pc.info))
      else if s.vbds[r.value.value].attached && s.vbds[r.value.value].device != "" then End
      else Go(PConnect(r.value.value, pc.u))
    case Select(listing, hostTopology) =>
      if listing.None? then End else Placement(s, s.calls[v], listing.value, hostTopology)
    case CheckVbds(ok) =>
      var pc := s.calls[v];
      if ok then Go(PMark(pc.on, pc.u, pc.info, pc.target)) else End
    case Mark(o) =>
      var pc := s.calls[v];
      if o.Done? then Go(PIssue(pc.on, pc.u, pc.info, pc.target)) else End
    case Issue(accepted) => if accepted then Go(PWait(s.calls[v].on, s.calls[v].info)) else End
    case Fetch(ok) =>
      var pc := s.calls[v];
      if ok then Go(PUnmark(pc.on, pc.u, pc.info)) else End
    case Unmark(o) => if o.Done? then Go(PAttach(s.calls[v].on, s.calls[v].u)) else End
    case _ => End
  }

  /** What a call's operation changes at the remote side. */
  ghost function CallEffect(s: State, v: string, a: CallAction): State
    requires CallEnabled(s, v, a)
  {
    match a
    case Clear(o) =>
      var pc := s.calls[v];
      if o.Refused? then s else s.(vdis := Described(s.vdis, pc.u, Info(pc.info.EndMigration())))
    case Connect(o, device) =>
      var b := s.calls[v].vbd;
      if o.Refused? then s else s.(vbds := s.vbds[b := s.vbds[b].(attached := true, device := device)])
    case Mark(o) =>
      var pc := s.calls[v];
      if o.Refused? then s else s.(vdis := Described(s.vdis, pc.u, Info(pc.info.StartMigration(pc.target))))
    case Issue(accepted) =>
      var pc := s.calls[v];
      if accepted then s.(tasks := s.tasks[v := Task(pc.u, pc.target, Queued)]) else s
    case Unmark(o) => if o.Refused? then s else s.(vdis := Described(s.vdis, s.calls[v].u, Info(s.calls[v].info)))
    case Attach(b, device, o) =>
      if o.Refused? then s else s.(vbds := s.vbds[b := Vbd(s.calls[v].on.uuid, s.calls[v].u, device, true)])
    case Resize(o) =>
      var pc := s.calls[v];
      if o.Refused? then s else s.(vdis := s.vdis[pc.u := s.vdis[pc.u].(size := pc.size)])
    case DetachAll(gone) =>
      s.(vbds := map b | b in s.vbds && !(b in gone && s.vbds[b].vdi == s.calls[v].u) :: s.vbds[b])
    case Delete(o) =>
      if o.Refused? then s else s.(vdis := s.vdis - {s.calls[v].u}, volumes := s.volumes - {v}, tasks := s.tasks - {v})
    case Rewrite(o) => if o.Refused? then s else s.(vdis := Described(s.vdis, s.calls[v].u, Info(s.volumes[v].info)))
    case _ => s
  }

  ghost function Land(s: State, v: string, next: Next): State {
    if next.Go? then s.(calls := s.calls[v := next.pc]) else s.(calls := s.calls - {v})
  }

  ghost function CallApply(s: State, v: string, a: CallAction): State
    requires CallEnabled(s, v, a)
  {
    Land(CallEffect(s, v, a), v, CallNext(s, v, a))
  }

  /** XO works on the migration of `v`, whether or not anybody waits for it. */
  ghost predicate XoEnabled(s: State, v: string, a: XoAction) {
    v in s.tasks && s.tasks[v].source in s.vdis && (
      match a
      case Starts => s.tasks[v].phase.Queued?
      case Copies(copy) => s.tasks[v].phase.Copying? && copy !in s.used
      case Finishes(_) => s.tasks[v].phase.Copied?
      case Fails => true)
  }

  ghost function XoApply(s: State, v: string, a: XoAction): State
    requires XoEnabled(s, v, a)
  {
    var t := s.tasks[v];
    match a
    case Starts => s.(tasks := s.tasks[v := t.(phase := Copying)])
    case Copies(copy) =>
      s.(vdis := s.vdis[copy := s.vdis[t.source].(sr := t.target)], used := s.used + {copy},
         tasks := s.tasks[v := t.(phase := Copied(copy))])
    case Finishes(replies) =>
      s.(vdis := s.vdis - {t.source}, tasks := s.tasks - {v},
         calls := if replies && v in s.calls && s.calls[v].PWait?
                  then s.calls[v := PFetch(s.calls[v].on, t.phase.copy, s.calls[v].info)] else s.calls)
    case Fails =>
      s.(vdis := if t.phase.Copied? then s.vdis - {t.phase.copy} else s.vdis, tasks := s.tasks - {v})
  }

  /** Not the finished disk of a volume handed out. */
  ghost predicate NoVolumesDisk(s: State, vdi: Vdi) {
    !(vdi.name.Final? && vdi.name.volume in s.volumes)
  }

  ghost predicate WorldEnabled(s: State, a: WorldAction) {
    match a
    case HandOut(v, u, volume) =>
      && v !in s.volumes && v !in s.calls && OnlyDisk(s, v, u) && s.vdis[u].desc == Info(volume.info)
         && s.vdis[u].sr in s.srs
      && volume.info.Stored() && volume.info.HasOngoingMigration().None?
      && (volume.handle.ByUuid? ==> volume.handle.uuid == u && volume.info.migrating.None?)
      && (volume.info.migrating.None? ==> volume.info == NewStorageInfo())
    case MoveVm(m, vm) => PlacedVm(s, vm) && vm.uuid == m
    case SetUsage(sr, _) => sr in s.srs
    case PutVbd(_, _) => true
    case DropVbd(_) => true
    case OtherPut(u, vdi) =>
      NoVolumesDisk(s, vdi) && (if u in s.vdis then NoVolumesDisk(s, s.vdis[u]) else u !in s.used)
    case OtherDrop(u) => u in s.vdis && NoVolumesDisk(s, s.vdis[u])
    case CleanerErases(v, u) => v in s.volumes && IsDisk(s, v, u) && (v in s.tasks ==> s.tasks[v].phase.Queued?)
  }

  ghost function WorldApply(s: State, a: WorldAction): State
    requires WorldEnabled(s, a)
  {
    match a
    case HandOut(v, _, volume) => s.(volumes := s.volumes[v := volume])
    case MoveVm(m, vm) => s.(vms := s.vms[m := vm])
    case SetUsage(sr, usage) => s.(srs := s.srs[sr := s.srs[sr].(usage := usage)])
    case PutVbd(b, vbd) => s.(vbds := s.vbds[b := vbd])
    case DropVbd(b) => s.(vbds := s.vbds - {b})
    case OtherPut(u, vdi) => s.(vdis := s.vdis[u := vdi], used := s.used + {u})
    case OtherDrop(u) => s.(vdis := s.vdis - {u})
    case CleanerErases(v, u) =>
      s.(vdis := s.vdis - {u}, volumes := s.volumes - {v}, tasks := s.tasks - {v}, calls := s.calls - {v})
  }

  ghost predicate Enabled(s: State, a: Action) {
    match a
    case ByCall(v, c) => CallEnabled(s, v, c)
    case ByXo(v, x) => XoEnabled(s, v, x)
    case ByWorld(w) => WorldEnabled(s, w)
  }

  ghost function Apply(s: State, a: Action): State
    requires Enabled(s, a)
  {
    match a
    case ByCall(v, c) => CallApply(s, v, c)
    case ByXo(v, x) => XoApply(s, v, x)
    case ByWorld(w) => WorldApply(s, w)
  }

  // ---------- runs ----------

  /** Nothing has been handed out yet. */
  ghost predicate Initial(s: State) {
    && s.volumes == map[] && s.tasks == map[] && s.calls == map[]
    && Placed(s)
    && (forall u :: u in s.vdis ==> u in s.used)
  }

  datatype Run = Run(states: seq<State>, actions: seq<Action>)

  ghost predicate StepAt(r: Run, i: nat)
    requires i < |r.actions| && |r.states| == |r.actions| + 1
  {
    Enabled(r.states[i], r.actions[i]) && r.states[i + 1] == Apply(r.states[i], r.actions[i])
  }

  ghost predicate IsRun(r: Run) {
    && |r.states| == |r.actions| + 1
    && Initial(r.states[0])
    && forall i: nat :: i < |r.actions| ==> StepAt(r, i)
  }
}

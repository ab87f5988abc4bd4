/** What every step of the migration protocol keeps. */
module MigrationSafety {
  import opened Wrappers
  import opened DiskNames
  import opened Metadata
  import opened Xo
  import opened SrPicking
  import opened SrSelection
  import opened MigrationProtocol

  // ---------- the invariant ----------

  /** The description is the volume's own record, or that with a migration marker. */
  ghost predicate Plain(s: State, u: Uuid, info: StorageInfo) {
    u in s.vdis && s.vdis[u].desc == Info(info)
  }

  ghost predicate MarkedFor(s: State, u: Uuid, info: StorageInfo, target: Uuid) {
    info.migrating.Some? && u in s.vdis && s.vdis[u].desc == Info(info.StartMigration(target))
  }

  /** The SR of disk `u` serves `vm`. */
  ghost predicate Serves(s: State, u: Uuid, vm: Vm) {
    u in s.vdis && s.vdis[u].sr in s.srs && Reaches(s.srs[s.vdis[u].sr], vm)
  }

  /** Moving to `target` helps `vm` and leaves the disk's SR. */
  ghost predicate GoodTarget(s: State, u: Uuid, target: Uuid, vm: Vm) {
    u in s.vdis && target in s.srs && target != s.vdis[u].sr && Reaches(s.srs[target], vm)
  }

  /** While XO migrates: either only the source is visible, or both disks are; every visible one
      carries the marker, and the target is not where the source is. */
  ghost predicate TaskInv(s: State, v: string, volume: Volume, t: Task) {
    && volume.handle.ByName?
    && IsDisk(s, v, t.source) && MarkedFor(s, t.source, volume.info, t.target)
    && t.target != s.vdis[t.source].sr
    && (match t.phase
        case Copied(copy) =>
          && copy != t.source && IsDisk(s, v, copy) && s.vdis[copy].desc == s.vdis[t.source].desc
             && s.vdis[copy].sr == t.target
          && forall w :: IsDisk(s, v, w) ==> w == t.source || w == copy
        case _ => forall w :: IsDisk(s, v, w) ==> w == t.source)
  }

  /** Without a migration: one disk, under the uuid of the handle if that is one. */
  ghost predicate QuietInv(s: State, v: string, volume: Volume) {
    && (exists u :: OnlyDisk(s, v, u))
    && (forall u :: IsDisk(s, v, u) ==>
         Plain(s, u, volume.info) || exists target :: MarkedFor(s, u, volume.info, target))
    && (volume.handle.ByUuid? ==> IsDisk(s, v, volume.handle.uuid) && volume.info.migrating.None?)
  }

  /** What a call knows at `pc`, when XO is not migrating the volume. */
  ghost predicate PcInv(s: State, v: string, volume: Volume, pc: Pc) {
    match pc
    case PClear(_, u, vdi, info) =>
      && OnlyDisk(s, v, u) && vdi.sr == s.vdis[u].sr && MarkedFor(s, u, volume.info, vdi.sr)
      && info == volume.info.StartMigration(vdi.sr)
    case PGetVm(_, u, vdi, info) =>
      OnlyDisk(s, v, u) && vdi.sr == s.vdis[u].sr && info == volume.info && Plain(s, u, info)
    case PCheck(on, u, vdi, info) =>
      OnlyDisk(s, v, u) && vdi.sr == s.vdis[u].sr && info == volume.info && Plain(s, u, info) && PlacedVm(s, on)
    case PSelect(on, u, vdi, info) =>
      OnlyDisk(s, v, u) && vdi.sr == s.vdis[u].sr && info == volume.info && Plain(s, u, info) && PlacedVm(s, on)
    case PConnect(_, u) => OnlyDisk(s, v, u) && Plain(s, u, volume.info)
    case PCheckVbds(on, u, info, target) =>
      OnlyDisk(s, v, u) && info == volume.info && Plain(s, u, info) && info.migrating.Some?
        && GoodTarget(s, u, target, on)
    case PMark(on, u, info, target) =>
      OnlyDisk(s, v, u) && info == volume.info && Plain(s, u, info) && info.migrating.Some?
        && GoodTarget(s, u, target, on)
    case PIssue(on, u, info, target) =>
      OnlyDisk(s, v, u) && info == volume.info && MarkedFor(s, u, info, target) && GoodTarget(s, u, target, on)
    case PFetch(on, u, info) =>
      OnlyDisk(s, v, u) && info == volume.info && MarkedFor(s, u, info, s.vdis[u].sr) && Serves(s, u, on)
    case PUnmark(on, u, info) =>
      OnlyDisk(s, v, u) && info == volume.info && MarkedFor(s, u, info, s.vdis[u].sr) && Serves(s, u, on)
    case PAttach(on, u) => OnlyDisk(s, v, u) && Plain(s, u, volume.info) && Serves(s, u, on)
    case EResize(u, _) => OnlyDisk(s, v, u) && Plain(s, u, volume.info)
    case RWrite(u) => OnlyDisk(s, v, u)
    case DDelete(u) => u in s.used && (u in s.vdis ==> OnlyDisk(s, v, u))
    case _ => true
  }

  /** The calls that may be in flight while XO migrates: those that have not found their disk yet,
      those that only detach or delete, and the one waiting for the migration. */
  ghost predicate PcDuringTask(s: State, t: Task, pc: Pc) {
    match pc
    case PFind(_) => true
    case EFind(_) => true
    case UFind => true
    case DFind => true
    case UDelete(_) => true
    case DDelete(u) => u == t.source
    case PWait(on, info) => t.target in s.srs && Reaches(s.srs[t.target], on)
    case _ => false
  }

  ghost predicate RecordInv(volume: Volume) {
    && volume.info.Stored() && volume.info.HasOngoingMigration().None?
    && (volume.info.migrating.None? ==> volume.info == NewStorageInfo())
  }

  ghost predicate DisksInv(s: State, v: string)
    requires v in s.volumes
  {
    RecordInv(s.volumes[v]) && if v in s.tasks then TaskInv(s, v, s.volumes[v], s.tasks[v])
                               else QuietInv(s, v, s.volumes[v])
  }

  ghost predicate PcOk(s: State, v: string, pc: Pc)
    requires v in s.volumes
  {
    if v in s.tasks then PcDuringTask(s, s.tasks[v], pc) && (pc.PWait? ==> pc.info == s.volumes[v].info)
    else PcInv(s, v, s.volumes[v], pc)
  }

  ghost predicate VolumeInv(s: State, v: string)
    requires v in s.volumes
  {
    DisksInv(s, v) && (v in s.calls ==> PcOk(s, v, s.calls[v]))
  }

  ghost predicate WorldInv(s: State) {
    && Placed(s)
    && (forall u :: u in s.vdis ==> u in s.used)
    && (forall v :: v in s.tasks ==> v in s.volumes)
    && (forall v :: v in s.calls ==> v in s.volumes)
  }

  ghost predicate Inv(s: State) {
    WorldInv(s) && forall v :: v in s.volumes ==> VolumeInv(s, v)
  }

  // ---------- what a step leaves alone ----------

  /** SRs do not move. */
  ghost predicate SameSrs(s: State, s': State) {
    && s'.hosts == s.hosts && s'.srs.Keys == s.srs.Keys
    && forall u :: u in s.srs ==> s'.srs[u] == s.srs[u].(usage := s'.srs[u].usage)
  }

  /** Nothing that concerns volume `w` changes. */
  ghost predicate SameFor(s: State, s': State, w: string) {
    && SameSrs(s, s')
    && (w in s'.volumes <==> w in s.volumes) && (w in s.volumes ==> s'.volumes[w] == s.volumes[w])
    && (w in s'.tasks <==> w in s.tasks) && (w in s.tasks ==> s'.tasks[w] == s.tasks[w])
    && (w in s'.calls <==> w in s.calls) && (w in s.calls ==> s'.calls[w] == s.calls[w])
    && s.used <= s'.used
    && (forall u :: IsDisk(s', w, u) <==> IsDisk(s, w, u))
    && (forall u :: IsDisk(s, w, u) ==> s'.vdis[u] == s.vdis[u])
    && (forall u :: u in s.used && u in s'.vdis ==> u in s.vdis)
  }

  lemma FrameDisks(s: State, s': State, w: string)
    requires w in s.volumes && DisksInv(s, w) && SameFor(s, s', w)
    ensures DisksInv(s', w)
  {
    if w !in s.tasks {
      var u :| OnlyDisk(s, w, u);
      assert OnlyDisk(s', w, u);
      forall x | IsDisk(s', w, x)
        ensures Plain(s', x, s'.volumes[w].info) || exists target :: MarkedFor(s', x, s'.volumes[w].info, target)
      {
        if !Plain(s, x, s.volumes[w].info) {
          var target :| MarkedFor(s, x, s.volumes[w].info, target);
          assert MarkedFor(s', x, s.volumes[w].info, target);
        }
      }
    }
  }

  /** SRs keep serving the VMs they serve. */
  lemma FrameSrs(s: State, s': State, vm: Vm)
    requires SameSrs(s, s')
    ensures PlacedVm(s, vm) ==> PlacedVm(s', vm)
    ensures forall sr :: sr in s.srs && Reaches(s.srs[sr], vm) ==> sr in s'.srs && Reaches(s'.srs[sr], vm)
  {
  }

  lemma FrameOnlyDisk(s: State, s': State, w: string, u: Uuid)
    requires OnlyDisk(s, w, u) && SameFor(s, s', w)
    ensures OnlyDisk(s', w, u) && s'.vdis[u] == s.vdis[u]
  {
  }

  lemma FramePcInv(s: State, s': State, w: string, volume: Volume, pc: Pc)
    requires PcInv(s, w, volume, pc) && SameFor(s, s', w)
    ensures PcInv(s', w, volume, pc)
  {
    if pc.PCheck? || pc.PSelect? || pc.PCheckVbds? || pc.PMark? || pc.PIssue? || pc.PFetch? || pc.PUnmark?
       || pc.PAttach? {
      FrameSrs(s, s', pc.on);
      FrameOnlyDisk(s, s', w, pc.u);
    } else if pc.PClear? || pc.PGetVm? || pc.PConnect? || pc.EResize? || pc.RWrite? {
      FrameOnlyDisk(s, s', w, pc.u);
    } else if pc.DDelete? && pc.u in s.vdis {
      FrameOnlyDisk(s, s', w, pc.u);
    }
  }

  lemma FramePc(s: State, s': State, w: string, pc: Pc)
    requires w in s.volumes && PcOk(s, w, pc) && SameFor(s, s', w)
    ensures PcOk(s', w, pc)
  {
    if w in s.tasks {
      if pc.PWait? { FrameSrs(s, s', pc.on); }
    } else {
      FramePcInv(s, s', w, s.volumes[w], pc);
    }
  }

  lemma FrameVolume(s: State, s': State, w: string)
    requires w in s.volumes && VolumeInv(s, w) && SameFor(s, s', w)
    ensures VolumeInv(s', w)
  {
    FrameDisks(s, s', w);
    if w in s.calls {
      FramePc(s, s', w, s.calls[w]);
    }
  }

  // ---------- the steps of a call ----------

  /** An edit of the disk of `v` concerns no other volume. */
  lemma EditFrames(s: State, v: string, u: Uuid, vdi: Vdi, w: string)
    requires IsDisk(s, v, u) && vdi.name == Final(v) && w != v
    ensures SameFor(s, s.(vdis := s.vdis[u := vdi]), w)
  {
  }

  lemma DescribeFrames(s: State, v: string, u: Uuid, desc: Description, w: string)
    requires IsDisk(s, v, u) && w != v
    ensures SameFor(s, s.(vdis := Described(s.vdis, u, desc)), w)
  {
    EditFrames(s, v, u, s.vdis[u].(desc := desc), w);
  }

  /** The operations that write a description. */
  predicate Writes(a: CallAction) {
    a.Clear? || a.Mark? || a.Unmark? || a.Rewrite?
  }

  ghost function Written(s: State, v: string, a: CallAction): StorageInfo
    requires CallEnabled(s, v, a) && Writes(a)
  {
    match a
    case Clear(_) => s.calls[v].info.EndMigration()
    case Mark(_) => s.calls[v].info.StartMigration(s.calls[v].target)
    case Unmark(_) => s.calls[v].info
    case Rewrite(_) => s.volumes[v].info
  }

  /** They write on the disk of their volume. */
  lemma WritesItsDisk(s: State, v: string, a: CallAction)
    requires CallEnabled(s, v, a) && Writes(a) && !a.o.Refused? && PcOk(s, v, s.calls[v])
    ensures var pc := s.calls[v];
            (pc.PClear? || pc.PMark? || pc.PUnmark? || pc.RWrite?) && IsDisk(s, v, pc.u)
            && CallEffect(s, v, a) == s.(vdis := Described(s.vdis, pc.u, Info(Written(s, v, a))))
  {
  }

  lemma WriteFrames(s: State, v: string, a: CallAction, w: string)
    requires CallEnabled(s, v, a) && w != v && Writes(a) && PcOk(s, v, s.calls[v])
    ensures SameFor(s, CallEffect(s, v, a), w)
  {
    if a.o.Refused? {
      assert CallEffect(s, v, a) == s;
    } else {
      WritesItsDisk(s, v, a);
      DescribeFrames(s, v, s.calls[v].u, Info(Written(s, v, a)), w);
    }
  }

  lemma NoDiskFrames(s: State, v: string, a: CallAction, w: string)
    requires CallEnabled(s, v, a) && w != v && !Writes(a) && !a.Resize? && !a.Delete?
    ensures SameFor(s, CallEffect(s, v, a), w)
  {
    var s' := CallEffect(s, v, a);
    assert s'.vdis == s.vdis && s'.volumes == s.volumes && s'.srs == s.srs && s'.calls == s.calls
           && s'.hosts == s.hosts && s'.used == s.used;
  }

  lemma ResizeFrames(s: State, v: string, o: Outcome, w: string)
    requires CallEnabled(s, v, Resize(o)) && w != v && PcOk(s, v, s.calls[v])
    ensures SameFor(s, CallEffect(s, v, Resize(o)), w)
  {
    if !o.Refused? { EditFrames(s, v, s.calls[v].u, s.vdis[s.calls[v].u].(size := s.calls[v].size), w); }
  }

  lemma DropFrames(s: State, v: string, u: Uuid, w: string)
    requires IsDisk(s, v, u) && w != v
    ensures SameFor(s, s.(vdis := s.vdis - {u}, volumes := s.volumes - {v}, tasks := s.tasks - {v}), w)
  {
  }

  lemma DeleteFrames(s: State, v: string, o: Outcome, w: string)
    requires CallEnabled(s, v, Delete(o)) && w != v && DisksInv(s, v) && PcOk(s, v, s.calls[v])
    ensures SameFor(s, CallEffect(s, v, Delete(o)), w)
  {
    if !o.Refused? {
      DeletesItsDisk(s, v, s.calls[v].u);
      DropFrames(s, v, s.calls[v].u, w);
    }
  }

  lemma DeletesItsDisk(s: State, v: string, u: Uuid)
    requires v in s.volumes && DisksInv(s, v) && PcOk(s, v, DDelete(u)) && u in s.vdis
    ensures IsDisk(s, v, u)
  {
  }

  lemma EffectFrames(s: State, v: string, a: CallAction, w: string)
    requires CallEnabled(s, v, a) && w != v && DisksInv(s, v) && (!a.Begin? ==> PcOk(s, v, s.calls[v]))
    ensures SameFor(s, CallEffect(s, v, a), w)
  {
    if Writes(a) { WriteFrames(s, v, a, w); }
    else if a.Resize? { ResizeFrames(s, v, a.o, w); }
    else if a.Delete? { DeleteFrames(s, v, a.o, w); }
    else { NoDiskFrames(s, v, a, w); }
  }

  lemma LandFrames(s: State, v: string, next: Next, w: string)
    requires w != v
    ensures SameFor(s, Land(s, v, next), w)
  {
  }

  lemma SameForTransitive(s: State, t: State, s': State, w: string)
    requires SameFor(s, t, w) && SameFor(t, s', w)
    ensures SameFor(s, s', w)
  {
  }

  /** A new description of the single disk of `v`. */
  lemma DescribedDisks(s: State, v: string, u: Uuid, info: StorageInfo)
    requires v in s.volumes && v !in s.tasks && DisksInv(s, v) && OnlyDisk(s, v, u)
    requires info == s.volumes[v].info
             || (s.volumes[v].info.migrating.Some? && exists target :: info == s.volumes[v].info.StartMigration(target))
    ensures var s' := s.(vdis := Described(s.vdis, u, Info(info))); DisksInv(s', v) && OnlyDisk(s', v, u)
  {
    var s' := s.(vdis := Described(s.vdis, u, Info(info)));
    assert forall w :: IsDisk(s', v, w) <==> IsDisk(s, v, w);
    assert OnlyDisk(s', v, u);
    if info != s.volumes[v].info {
      var target :| info == s.volumes[v].info.StartMigration(target);
      assert MarkedFor(s', u, s.volumes[v].info, target);
    }
  }

  lemma MarkingIsReversible(info: StorageInfo, target: Uuid)
    requires info.migrating.Some? && info.HasOngoingMigration().None?
    ensures info.StartMigration(target).EndMigration() == info
    ensures info.StartMigration(target).HasOngoingMigration() == Some(target)
  {
  }

  /** What they write is the volume's record, or that with a marker. */
  lemma WritesTheRecord(s: State, v: string, a: CallAction)
    requires CallEnabled(s, v, a) && Writes(a) && !a.o.Refused? && DisksInv(s, v) && PcOk(s, v, s.calls[v])
    ensures v !in s.tasks && OnlyDisk(s, v, s.calls[v].u)
    ensures if a.Mark? then s.volumes[v].info.migrating.Some?
            && Written(s, v, a) == s.volumes[v].info.StartMigration(s.calls[v].target)
            else Written(s, v, a) == s.volumes[v].info
  {
    if a.Clear? { MarkingIsReversible(s.volumes[v].info, s.calls[v].vdi.sr); }
  }

  lemma WriteDisks(s: State, v: string, a: CallAction)
    requires CallEnabled(s, v, a) && DisksInv(s, v) && Writes(a) && PcOk(s, v, s.calls[v])
    ensures DisksInv(CallEffect(s, v, a), v)
  {
    if a.o.Refused? {
      assert CallEffect(s, v, a) == s;
    } else {
      WritesItsDisk(s, v, a);
      WritesTheRecord(s, v, a);
      DescribedDisks(s, v, s.calls[v].u, Written(s, v, a));
    }
  }

  /** The effect of a call's operation keeps its volume's disks in order. */
  lemma EffectDisks(s: State, v: string, a: CallAction)
    requires CallEnabled(s, v, a) && DisksInv(s, v) && (!a.Begin? ==> PcOk(s, v, s.calls[v]))
    ensures v in CallEffect(s, v, a).volumes ==> DisksInv(CallEffect(s, v, a), v)
  {
    if Writes(a) { WriteDisks(s, v, a); }
    else if a.Resize? {
      if !a.o.Refused? { ResizedDisks(s, v, s.calls[v].u, s.calls[v].size); }
    } else if a.Issue? {
      if a.accepted { IssuedDisks(s, v); }
    } else if !a.Delete? { OtherEffectDisks(s, v, a); }
  }

  lemma ResizedDisks(s: State, v: string, u: Uuid, size: int)
    requires v in s.volumes && v !in s.tasks && DisksInv(s, v) && OnlyDisk(s, v, u) && Plain(s, u, s.volumes[v].info)
    ensures DisksInv(s.(vdis := s.vdis[u := s.vdis[u].(size := size)]), v)
  {
    var s' := s.(vdis := s.vdis[u := s.vdis[u].(size := size)]);
    assert forall w :: IsDisk(s', v, w) <==> IsDisk(s, v, w);
    assert OnlyDisk(s', v, u);
  }

  lemma IssuedDisks(s: State, v: string)
    requires v in s.volumes && v !in s.tasks && DisksInv(s, v) && v in s.calls && s.calls[v].PIssue?
             && PcOk(s, v, s.calls[v])
    ensures DisksInv(s.(tasks := s.tasks[v := Task(s.calls[v].u, s.calls[v].target, Queued)]), v)
  {
    var s' := s.(tasks := s.tasks[v := Task(s.calls[v].u, s.calls[v].target, Queued)]);
    assert forall w :: IsDisk(s', v, w) <==> IsDisk(s, v, w);
  }

  lemma OtherEffectDisks(s: State, v: string, a: CallAction)
    requires CallEnabled(s, v, a) && DisksInv(s, v)
    requires !Writes(a) && !a.Resize? && !a.Issue? && !a.Delete?
    ensures DisksInv(CallEffect(s, v, a), v)
  {
    var s' := CallEffect(s, v, a);
    assert s'.vdis == s.vdis && s'.volumes == s.volumes && s'.tasks == s.tasks;
    SameDisksInv(s, s', v);
  }

  lemma SameDisksInv(s: State, s': State, v: string)
    requires v in s.volumes && DisksInv(s, v) && s'.vdis == s.vdis && s'.volumes == s.volumes && s'.tasks == s.tasks
    ensures DisksInv(s', v)
  {
    assert forall w :: IsDisk(s', v, w) <==> IsDisk(s, v, w);
    if v !in s.tasks {
      var u :| OnlyDisk(s, v, u);
      assert OnlyDisk(s', v, u);
      forall x | IsDisk(s', v, x)
        ensures Plain(s', x, s'.volumes[v].info) || exists target :: MarkedFor(s', x, s'.volumes[v].info, target)
      {
        if !Plain(s, x, s.volumes[v].info) {
          var target :| MarkedFor(s, x, s.volumes[v].info, target);
          assert MarkedFor(s', x, s.volumes[v].info, target);
        }
      }
    }
  }

  // ---------- where a call's operation leads ----------

  /** The call may be where the operation leads it. */
  ghost predicate LeadsOn(s: State, v: string, a: CallAction)
    requires CallEnabled(s, v, a)
  {
    CallNext(s, v, a).Go? ==>
      v in CallEffect(s, v, a).volumes && PcOk(CallEffect(s, v, a), v, CallNext(s, v, a).pc)
  }

  /** Looking a volume up finds its disk; while XO migrates it, at most the marked source. */
  lemma FindsItsDisk(s: State, v: string, u: Uuid)
    requires v in s.volumes && DisksInv(s, v) && v in s.calls && Resolves(s, v, s.calls[v], One(u))
    ensures if v in s.tasks then !s.tasks[v].phase.Copied? && u == s.tasks[v].source else OnlyDisk(s, v, u)
  {
    if v in s.tasks {
      assert IsDisk(s, v, s.tasks[v].source);
    } else {
      var x :| OnlyDisk(s, v, x);
    }
  }

  /** The single disk of a quiet volume either carries the volume's record or is marked for a target. */
  lemma ReadsDescription(s: State, v: string, u: Uuid)
    requires v in s.volumes && v !in s.tasks && DisksInv(s, v) && OnlyDisk(s, v, u)
    ensures s.vdis[u].desc.Info?
    ensures var info := s.vdis[u].desc.info;
            match info.HasOngoingMigration()
            case None => info == s.volumes[v].info
            case Some(target) => s.volumes[v].info.migrating.Some? && info == s.volumes[v].info.StartMigration(target)
  {
    if !Plain(s, u, s.volumes[v].info) {
      var target :| MarkedFor(s, u, s.volumes[v].info, target);
    }
  }

  lemma PublishResolved(s: State, v: string, u: Uuid)
    requires v in s.volumes && DisksInv(s, v) && v in s.calls && s.calls[v].PFind?
             && Resolves(s, v, s.calls[v], One(u)) && u in s.vdis
    ensures var next := Resolved(s, v, s.calls[v], u); next.Go? ==> v !in s.tasks && PcOk(s, v, next.pc)
  {
    FindsItsDisk(s, v, u);
    if v in s.tasks {
      MarkingIsReversible(s.volumes[v].info, s.tasks[v].target);
    } else {
      ReadsDescription(s, v, u);
    }
  }

  lemma OtherResolved(s: State, v: string, u: Uuid)
    requires v in s.volumes && DisksInv(s, v) && v in s.calls && Resolves(s, v, s.calls[v], One(u)) && u in s.vdis
             && u in s.used
    requires PcOk(s, v, s.calls[v]) && IsFirst(s.calls[v]) && !s.calls[v].PFind?
    ensures var next := Resolved(s, v, s.calls[v], u); next.Go? ==> PcOk(s, v, next.pc)
  {
    FindsItsDisk(s, v, u);
    if v in s.tasks {
      MarkingIsReversible(s.volumes[v].info, s.tasks[v].target);
    } else {
      ReadsDescription(s, v, u);
    }
  }

  lemma FindLeadsOn(s: State, v: string, r: Found)
    requires WorldInv(s) && CallEnabled(s, v, Find(r)) && DisksInv(s, v) && PcOk(s, v, s.calls[v])
    ensures LeadsOn(s, v, Find(r))
  {
    if r.One? {
      if s.calls[v].PFind? { PublishResolved(s, v, r.uuid); } else { OtherResolved(s, v, r.uuid); }
    }
  }

  /** The record a migrating selection writes back is the volume's own. */
  lemma SelectionKeepsRecord(volume: Volume, vdi: Vdi, hostTopology: bool, srs: map<Uuid, Sr>, listing: seq<Sr>,
                             sel: Selection)
    requires RecordInv(volume)
             && Completed(SelectionFromStorageInfo(volume.info, vdi, hostTopology), srs, listing) == Ok(sel)
    ensures sel.migrating <==> volume.info.migrating.Some?
    ensures sel.migrating ==> sel.ToStorageInfo() == volume.info
  {
  }

  /** The SR picked for a migration is not the disk's own and serves the VM; where none is needed,
      the disk's own SR serves it. */
  lemma ChosenIsGood(s: State, v: string, pc: Pc, listing: seq<Sr>, hostTopology: bool)
    requires Placed(s) && v in s.volumes && v !in s.tasks && pc.PSelect? && RecordInv(s.volumes[v])
             && PcInv(s, v, s.volumes[v], pc)
    requires pc.info.srsWithTag.Some? ==> ListsTag(s.srs, pc.info.srsWithTag.value, listing)
    ensures var next := Placement(s, pc, listing, hostTopology); next.Go? ==> PcInv(s, v, s.volumes[v], next.pc)
  {
    var found := Completed(SelectionFromStorageInfo(pc.info, pc.vdi, hostTopology), s.srs, listing);
    if found.Ok? {
      var sel := found.value;
      assert Restored(sel, pc.info, pc.vdi, hostTopology, s.srs, listing);
      SelectionKeepsRecord(s.volumes[v], pc.vdi, hostTopology, s.srs, listing, sel);
      if sel.NeedsMigration(pc.on) == Ok(true) && sel.SrForHost(pc.on.host, pc.vdi.size).Ok? {
        SharedSrsArePlaced(s, pc, listing, sel);
        MigrationTargetIsElsewhere(sel, pc.info, pc.vdi, hostTopology, s.srs, listing, pc.on, pc.vdi.size,
                                   sel.SrForHost(pc.on.host, pc.vdi.size).value);
      }
    }
  }

  lemma SharedSrsArePlaced(s: State, pc: Pc, listing: seq<Sr>, sel: Selection)
    requires Placed(s) && pc.PSelect? && PlacedVm(s, pc.on)
    requires forall sr :: sr in sel.srs ==> sr.uuid in s.srs && s.srs[sr.uuid] == sr
    ensures SharedSrsFollowHosts(sel.srs, pc.on)
  {
  }

  lemma SelectLeadsOn(s: State, v: string, listing: Option<seq<Sr>>, hostTopology: bool)
    requires WorldInv(s) && CallEnabled(s, v, Select(listing, hostTopology)) && DisksInv(s, v) && PcOk(s, v, s.calls[v])
    ensures LeadsOn(s, v, Select(listing, hostTopology))
  {
    if listing.Some? {
      ChosenIsGood(s, v, s.calls[v], listing.value, hostTopology);
    }
  }

  lemma ClearLeadsOn(s: State, v: string, o: Outcome)
    requires CallEnabled(s, v, Clear(o)) && DisksInv(s, v) && PcOk(s, v, s.calls[v])
    ensures LeadsOn(s, v, Clear(o))
  {
    if o.Done? {
      var s' := CallEffect(s, v, Clear(o));
      assert forall w :: IsDisk(s', v, w) <==> IsDisk(s, v, w);
      MarkingIsReversible(s.volumes[v].info, s.calls[v].vdi.sr);
    }
  }

  lemma MarkLeadsOn(s: State, v: string, o: Outcome)
    requires CallEnabled(s, v, Mark(o)) && DisksInv(s, v) && PcOk(s, v, s.calls[v])
    ensures LeadsOn(s, v, Mark(o))
  {
    if o.Done? {
      var s' := CallEffect(s, v, Mark(o));
      assert forall w :: IsDisk(s', v, w) <==> IsDisk(s, v, w);
    }
  }

  lemma UnmarkLeadsOn(s: State, v: string, o: Outcome)
    requires CallEnabled(s, v, Unmark(o)) && DisksInv(s, v) && PcOk(s, v, s.calls[v])
    ensures LeadsOn(s, v, Unmark(o))
  {
    if o.Done? {
      var s' := CallEffect(s, v, Unmark(o));
      assert forall w :: IsDisk(s', v, w) <==> IsDisk(s, v, w);
    }
  }

  lemma IssueLeadsOn(s: State, v: string, accepted: bool)
    requires CallEnabled(s, v, Issue(accepted)) && PcOk(s, v, s.calls[v])
    ensures LeadsOn(s, v, Issue(accepted))
  {
  }

  lemma BeginLeadsOn(s: State, v: string, first: Pc)
    requires CallEnabled(s, v, Begin(first))
    ensures LeadsOn(s, v, Begin(first))
  {
  }

  lemma ReadLeadsOn(s: State, v: string, a: CallAction)
    requires Placed(s) && CallEnabled(s, v, a) && (a.GetVm? || a.Check?) && PcOk(s, v, s.calls[v])
    ensures LeadsOn(s, v, a)
  {
  }

  lemma LookLeadsOn(s: State, v: string, a: CallAction)
    requires Placed(s) && CallEnabled(s, v, a) && (a.CheckVbds? || a.Fetch?) && PcOk(s, v, s.calls[v])
    ensures LeadsOn(s, v, a)
  {
  }

  lemma WriteLeadsOn(s: State, v: string, a: CallAction)
    requires CallEnabled(s, v, a) && Writes(a) && DisksInv(s, v) && PcOk(s, v, s.calls[v])
    ensures LeadsOn(s, v, a)
  {
    match a
    case Clear(o) => ClearLeadsOn(s, v, o);
    case Mark(o) => MarkLeadsOn(s, v, o);
    case Unmark(o) => UnmarkLeadsOn(s, v, o);
    case Rewrite(_) =>
  }

  lemma EndLeadsOn(s: State, v: string, a: CallAction)
    requires CallEnabled(s, v, a) && CallNext(s, v, a).End?
    ensures LeadsOn(s, v, a)
  {
  }

  lemma OperationLeadsOn(s: State, v: string, a: CallAction)
    requires WorldInv(s) && CallEnabled(s, v, a) && DisksInv(s, v) && (!a.Begin? ==> PcOk(s, v, s.calls[v]))
    ensures LeadsOn(s, v, a)
  {
    if Writes(a) { WriteLeadsOn(s, v, a); }
    else if a.Begin? { BeginLeadsOn(s, v, a.first); }
    else if a.Find? { FindLeadsOn(s, v, a.found); }
    else if a.Select? { SelectLeadsOn(s, v, a.listing, a.hostTopology); }
    else if a.Issue? { IssueLeadsOn(s, v, a.accepted); }
    else if a.GetVm? || a.Check? { ReadLeadsOn(s, v, a); }
    else if a.CheckVbds? || a.Fetch? { LookLeadsOn(s, v, a); }
    else { EndLeadsOn(s, v, a); }
  }

  // ---------- all steps together ----------

  lemma CallKeepsVolume(s: State, v: string, a: CallAction)
    requires WorldInv(s) && CallEnabled(s, v, a) && VolumeInv(s, v)
    ensures v in CallApply(s, v, a).volumes ==> VolumeInv(CallApply(s, v, a), v)
  {
    EffectDisks(s, v, a);
    OperationLeadsOn(s, v, a);
    LandedVolume(CallEffect(s, v, a), v, CallNext(s, v, a));
  }

  lemma LandedVolume(s: State, v: string, next: Next)
    requires v in s.volumes ==> DisksInv(s, v) && (next.Go? ==> PcOk(s, v, next.pc))
    ensures v in s.volumes ==> VolumeInv(Land(s, v, next), v)
  {
    if v in s.volumes {
      var s' := Land(s, v, next);
      SameDisksInv(s, s', v);
      if next.Go? {
        SamePc(s, s', v, next.pc);
      }
    }
  }

  lemma SamePc(s: State, s': State, v: string, pc: Pc)
    requires v in s.volumes && PcOk(s, v, pc)
    requires s'.vdis == s.vdis && s'.volumes == s.volumes && s'.tasks == s.tasks && s'.srs == s.srs
             && s'.used == s.used && s'.hosts == s.hosts
    ensures PcOk(s', v, pc)
  {
    assert forall u :: IsDisk(s', v, u) <==> IsDisk(s, v, u);
    assert forall u :: OnlyDisk(s, v, u) <==> OnlyDisk(s', v, u);
  }

  lemma CallKeepsOthers(s: State, v: string, a: CallAction, w: string)
    requires CallEnabled(s, v, a) && VolumeInv(s, v) && w in s.volumes && w != v && VolumeInv(s, w)
    ensures w in CallApply(s, v, a).volumes && VolumeInv(CallApply(s, v, a), w)
  {
    EffectFrames(s, v, a, w);
    var s1 := CallEffect(s, v, a);
    LandFrames(s1, v, CallNext(s, v, a), w);
    SameForTransitive(s, s1, CallApply(s, v, a), w);
    FrameVolume(s, CallApply(s, v, a), w);
  }

  lemma EditKeepsWorld(s: State, u: Uuid, vdi: Vdi)
    requires WorldInv(s) && u in s.vdis && vdi.name == s.vdis[u].name
    ensures WorldInv(s.(vdis := s.vdis[u := vdi]))
  {
  }

  lemma WriteKeepsWorld(s: State, v: string, a: CallAction)
    requires WorldInv(s) && CallEnabled(s, v, a) && Writes(a)
    ensures WorldInv(CallEffect(s, v, a))
  {
    if !a.o.Refused? {
      var u := s.calls[v].u;
      EditKeepsWorld(s, u, s.vdis[u].(desc := Info(Written(s, v, a))));
    }
  }

  lemma DeleteKeepsWorld(s: State, v: string, u: Uuid)
    requires WorldInv(s)
    ensures WorldInv(s.(vdis := s.vdis - {u}, volumes := s.volumes - {v}, tasks := s.tasks - {v},
                        calls := s.calls - {v}))
  {
  }

  lemma SameVdisKeepWorld(s: State, s': State)
    requires WorldInv(s) && s'.vdis == s.vdis && s'.used == s.used && s'.srs == s.srs && s'.vms == s.vms
             && s'.hosts == s.hosts
    requires s'.volumes == s.volumes && (forall v :: v in s'.tasks ==> v in s.volumes)
             && (forall v :: v in s'.calls ==> v in s.volumes)
    ensures WorldInv(s')
  {
  }

  lemma ResizeKeepsWorld(s: State, v: string, o: Outcome)
    requires WorldInv(s) && CallEnabled(s, v, Resize(o))
    ensures WorldInv(CallEffect(s, v, Resize(o))) && CallEffect(s, v, Resize(o)).volumes == s.volumes
  {
    if !o.Refused? { EditKeepsWorld(s, s.calls[v].u, s.vdis[s.calls[v].u].(size := s.calls[v].size)); }
  }

  lemma EffectKeepsWorld(s: State, v: string, a: CallAction)
    requires WorldInv(s) && CallEnabled(s, v, a) && !a.Delete?
    ensures WorldInv(CallEffect(s, v, a)) && CallEffect(s, v, a).volumes == s.volumes
  {
    if Writes(a) { WriteKeepsWorld(s, v, a); }
    else if a.Resize? { ResizeKeepsWorld(s, v, a.o); }
    else { SameVdisKeepWorld(s, CallEffect(s, v, a)); }
  }

  lemma DeletionKeepsWorld(s: State, v: string, o: Outcome)
    requires WorldInv(s) && CallEnabled(s, v, Delete(o)) && VolumeInv(s, v)
    ensures WorldInv(CallApply(s, v, Delete(o)))
  {
    if !o.Refused? {
      DeleteKeepsWorld(s, v, s.calls[v].u);
    }
  }

  lemma LandKeepsWorld(s: State, v: string, next: Next)
    requires WorldInv(s) && v in s.volumes
    ensures WorldInv(Land(s, v, next))
  {
  }

  lemma CallKeepsWorld(s: State, v: string, a: CallAction)
    requires WorldInv(s) && CallEnabled(s, v, a) && VolumeInv(s, v)
    ensures WorldInv(CallApply(s, v, a))
  {
    if a.Delete? {
      DeletionKeepsWorld(s, v, a.o);
    } else {
      EffectKeepsWorld(s, v, a);
      LandKeepsWorld(CallEffect(s, v, a), v, CallNext(s, v, a));
    }
  }

  // ---------- the steps of Xen Orchestra ----------

  /** What XO does to one volume's disks concerns no other volume. */
  lemma XoFrames(s: State, v: string, a: XoAction, w: string)
    requires WorldInv(s) && XoEnabled(s, v, a) && v in s.volumes && DisksInv(s, v) && w != v
    ensures SameFor(s, XoApply(s, v, a), w)
  {
    var t := s.tasks[v];
    assert IsDisk(s, v, t.source);
  }

  lemma CopiesDisks(s: State, v: string, copy: Uuid)
    requires WorldInv(s) && XoEnabled(s, v, Copies(copy)) && v in s.volumes && DisksInv(s, v)
    ensures DisksInv(XoApply(s, v, Copies(copy)), v)
  {
    var s' := XoApply(s, v, Copies(copy));
    var t := s.tasks[v];
    assert copy !in s.vdis;
    assert forall w :: IsDisk(s', v, w) <==> IsDisk(s, v, w) || w == copy;
  }

  lemma FinishesDisks(s: State, v: string, replies: bool)
    requires XoEnabled(s, v, Finishes(replies)) && v in s.volumes && DisksInv(s, v)
    ensures var s' := XoApply(s, v, Finishes(replies)); var t := s.tasks[v];
            DisksInv(s', v) && OnlyDisk(s', v, t.phase.copy) && MarkedFor(s', t.phase.copy, s.volumes[v].info, t.target)
            && s'.vdis[t.phase.copy].sr == t.target
  {
    var s' := XoApply(s, v, Finishes(replies));
    var t := s.tasks[v];
    assert forall w :: IsDisk(s', v, w) <==> IsDisk(s, v, w) && w != t.source;
    assert OnlyDisk(s', v, t.phase.copy);
    assert MarkedFor(s', t.phase.copy, s.volumes[v].info, t.target);
  }

  lemma FailsDisks(s: State, v: string)
    requires XoEnabled(s, v, Fails) && v in s.volumes && DisksInv(s, v)
    ensures var s' := XoApply(s, v, Fails); var t := s.tasks[v];
            DisksInv(s', v) && OnlyDisk(s', v, t.source) && MarkedFor(s', t.source, s.volumes[v].info, t.target)
            && t.target != s'.vdis[t.source].sr
  {
    var s' := XoApply(s, v, Fails);
    var t := s.tasks[v];
    assert forall w :: IsDisk(s', v, w) <==> IsDisk(s, v, w) && !(t.phase.Copied? && w == t.phase.copy);
    assert OnlyDisk(s', v, t.source);
    assert MarkedFor(s', t.source, s.volumes[v].info, t.target);
  }

  lemma StartsDisks(s: State, v: string)
    requires XoEnabled(s, v, Starts) && v in s.volumes && DisksInv(s, v)
    ensures DisksInv(XoApply(s, v, Starts), v)
  {
    var s' := XoApply(s, v, Starts);
    assert forall w :: IsDisk(s', v, w) <==> IsDisk(s, v, w);
  }

  lemma StartsPc(s: State, v: string)
    requires XoEnabled(s, v, Starts) && v in s.volumes && VolumeInv(s, v)
    ensures v in s.calls ==> PcOk(XoApply(s, v, Starts), v, s.calls[v])
  {
  }

  lemma CopiesPc(s: State, v: string, copy: Uuid)
    requires XoEnabled(s, v, Copies(copy)) && v in s.volumes && VolumeInv(s, v)
    ensures v in s.calls ==> PcOk(XoApply(s, v, Copies(copy)), v, s.calls[v])
  {
  }

  lemma FinishesPc(s: State, v: string, replies: bool)
    requires WorldInv(s) && XoEnabled(s, v, Finishes(replies)) && v in s.volumes && VolumeInv(s, v)
    ensures var s' := XoApply(s, v, Finishes(replies)); v in s'.calls ==> PcOk(s', v, s'.calls[v])
  {
    FinishesDisks(s, v, replies);
  }

  lemma FailsPc(s: State, v: string)
    requires WorldInv(s) && XoEnabled(s, v, Fails) && v in s.volumes && VolumeInv(s, v)
    ensures var s' := XoApply(s, v, Fails); v in s'.calls ==> PcOk(s', v, s'.calls[v])
  {
    FailsDisks(s, v);
  }

  lemma XoKeepsVolume(s: State, v: string, a: XoAction)
    requires WorldInv(s) && XoEnabled(s, v, a) && v in s.volumes && VolumeInv(s, v)
    ensures v in XoApply(s, v, a).volumes && VolumeInv(XoApply(s, v, a), v)
  {
    match a
    case Starts => StartsDisks(s, v); StartsPc(s, v);
    case Copies(copy) => CopiesDisks(s, v, copy); CopiesPc(s, v, copy);
    case Finishes(replies) => FinishesDisks(s, v, replies); FinishesPc(s, v, replies);
    case Fails => FailsDisks(s, v); FailsPc(s, v);
  }

  lemma XoKeepsWorld(s: State, v: string, a: XoAction)
    requires WorldInv(s) && XoEnabled(s, v, a)
    ensures WorldInv(XoApply(s, v, a))
  {
  }

  // ---------- the steps of the world ----------

  lemma ErasureFrames(s: State, v: string, u: Uuid, w: string)
    requires WorldEnabled(s, CleanerErases(v, u)) && w != v
    ensures SameFor(s, WorldApply(s, CleanerErases(v, u)), w)
  {
  }

  /** Nothing else that happens concerns a volume handed out, unless the cleaner erases its disk. */
  lemma WorldFrames(s: State, a: WorldAction, w: string)
    requires WorldInv(s) && WorldEnabled(s, a) && w in s.volumes && (a.CleanerErases? ==> w != a.v)
    ensures SameFor(s, WorldApply(s, a), w)
  {
    if a.CleanerErases? {
      ErasureFrames(s, a.v, a.u, w);
    } else {
      var s' := WorldApply(s, a);
      assert forall u :: IsDisk(s', w, u) <==> IsDisk(s, w, u);
    }
  }

  lemma HandedOutVolume(s: State, v: string, u: Uuid, volume: Volume)
    requires WorldInv(s) && WorldEnabled(s, HandOut(v, u, volume))
    ensures VolumeInv(WorldApply(s, HandOut(v, u, volume)), v)
  {
    var s' := WorldApply(s, HandOut(v, u, volume));
    assert forall w :: IsDisk(s', v, w) <==> IsDisk(s, v, w);
    assert OnlyDisk(s', v, u);
  }

  lemma WorldKeepsWorld(s: State, a: WorldAction)
    requires WorldInv(s) && WorldEnabled(s, a)
    ensures WorldInv(WorldApply(s, a))
  {
    if a.CleanerErases? { DeleteKeepsWorld(s, a.v, a.u); }
  }

  // ---------- every step ----------

  lemma InitialInv(s: State)
    requires Initial(s)
    ensures Inv(s)
  {
  }

  lemma CallHandsNothingOut(s: State, v: string, a: CallAction)
    requires CallEnabled(s, v, a)
    ensures CallEffect(s, v, a).volumes.Keys <= s.volumes.Keys
  {
  }

  lemma CallKeepsInv(s: State, v: string, a: CallAction)
    requires Inv(s) && CallEnabled(s, v, a)
    ensures Inv(CallApply(s, v, a))
  {
    var s' := CallApply(s, v, a);
    CallKeepsWorld(s, v, a);
    CallKeepsVolume(s, v, a);
    CallHandsNothingOut(s, v, a);
    forall w | w in s'.volumes
      ensures VolumeInv(s', w)
    {
      if w != v { CallKeepsOthers(s, v, a, w); }
    }
  }

  lemma XoKeepsInv(s: State, v: string, a: XoAction)
    requires Inv(s) && XoEnabled(s, v, a)
    ensures Inv(XoApply(s, v, a))
  {
    XoKeepsWorld(s, v, a);
    XoKeepsVolume(s, v, a);
    forall w | w in s.volumes && w != v
      ensures VolumeInv(XoApply(s, v, a), w)
    {
      XoFrames(s, v, a, w);
      FrameVolume(s, XoApply(s, v, a), w);
    }
  }

  lemma WorldKeepsInv(s: State, a: WorldAction)
    requires Inv(s) && WorldEnabled(s, a)
    ensures Inv(WorldApply(s, a))
  {
    WorldKeepsWorld(s, a);
    if a.HandOut? { HandedOutVolume(s, a.v, a.u, a.volume); }
    forall w | w in WorldApply(s, a).volumes && (a.HandOut? ==> w != a.v)
      ensures VolumeInv(WorldApply(s, a), w)
    {
      WorldFrames(s, a, w);
      FrameVolume(s, WorldApply(s, a), w);
    }
  }

  /** Every step of every actor keeps the invariant. */
  lemma StepKeepsInv(s: State, a: Action)
    requires Inv(s) && Enabled(s, a)
    ensures Inv(Apply(s, a))
  {
    match a
    case ByCall(v, c) => CallKeepsInv(s, v, c);
    case ByXo(v, x) => XoKeepsInv(s, v, x);
    case ByWorld(w) => WorldKeepsInv(s, w);
  }
}

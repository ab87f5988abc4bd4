/**
  The other direction of VolumeHandover.dfy: what publishing, expanding, deleting and XO's migrations
  do to the finished disks of volumes handed out is what the creation protocol allows for. So, as long
  as no CreateVolume call for the volume is in flight, a run of the creation protocol follows every such
  step, and what is proved about creation and cleanup holds while volumes are used and moved.
 */
module CreationFollows {
  import opened Wrappers
  import opened DiskNames
  import opened Metadata
  import opened Xo
  import opened MigrationProtocol
  import opened MigrationSafety
  import MigrationRuns
  import CreationProtocol
  import CreationRuns

  // ---------- the steps the creation protocol has for this ----------

  lemma Rewrites(a: CreationRuns.Running, u: Uuid, info: StorageInfo) returns (a': CreationRuns.Running)
    requires u in CreationRuns.Last(a).vdis && CreationRuns.Last(a).vdis[u].name.Final?
    ensures CreationRuns.Continues(a, a')
    ensures CreationRuns.Last(a') ==
            CreationRuns.Last(a).(vdis := Described(CreationRuns.Last(a).vdis, u, Info(info)))
  {
    a' := CreationRuns.Advance(a, CreationProtocol.ByWorld(CreationProtocol.OtherInfo(u, info)));
  }

  lemma Resizes(a: CreationRuns.Running, u: Uuid, size: int) returns (a': CreationRuns.Running)
    requires u in CreationRuns.Last(a).vdis && CreationRuns.Last(a).vdis[u].name.Final?
    ensures CreationRuns.Continues(a, a')
    ensures var vdis := CreationRuns.Last(a).vdis;
            CreationRuns.Last(a') == CreationRuns.Last(a).(vdis := vdis[u := vdis[u].(size := size)])
  {
    a' := CreationRuns.Advance(a, CreationProtocol.ByWorld(CreationProtocol.OtherResize(u, size)));
  }

  lemma Deletes(a: CreationRuns.Running, u: Uuid, v: string) returns (a': CreationRuns.Running)
    requires u in CreationRuns.Last(a).vdis && CreationRuns.Last(a).vdis[u].name == Final(v)
             && v !in CreationRuns.Last(a).calls
    ensures CreationRuns.Continues(a, a')
    ensures CreationRuns.Last(a') == CreationRuns.Last(a).(vdis := CreationRuns.Last(a).vdis - {u})
  {
    a' := CreationRuns.Advance(a, CreationProtocol.ByWorld(CreationProtocol.OtherDelete(u)));
  }

  lemma Copied(a: CreationRuns.Running, u: Uuid, copy: Uuid, sr: Uuid) returns (a': CreationRuns.Running)
    requires u in CreationRuns.Last(a).vdis && CreationRuns.Last(a).vdis[u].name.Final?
             && CreationRuns.Last(a).vdis[u].name.volume in CreationRuns.Last(a).migratory
    requires copy !in CreationRuns.Last(a).used
    ensures CreationRuns.Continues(a, a')
    ensures var s := CreationRuns.Last(a);
            CreationRuns.Last(a') == s.(vdis := s.vdis[copy := s.vdis[u].(sr := sr)], used := s.used + {copy})
  {
    a' := CreationRuns.Advance(a, CreationProtocol.ByWorld(CreationProtocol.OtherCopy(u, copy, sr)));
  }

  lemma Migratory(a: CreationRuns.Running, v: string, migrates: bool) returns (a': CreationRuns.Running)
    requires v !in CreationRuns.Last(a).calls
    requires !migrates ==> forall u :: u in CreationRuns.Last(a).vdis ==> CreationRuns.Last(a).vdis[u].name != Final(v)
    ensures CreationRuns.Continues(a, a')
    ensures var s := CreationRuns.Last(a);
            CreationRuns.Last(a') ==
            s.(migratory := if migrates then s.migratory + {v} else s.migratory - {v})
  {
    if migrates {
      a' := CreationRuns.Advance(a, CreationProtocol.ByWorld(CreationProtocol.StartMigrating(v)));
    } else {
      a' := CreationRuns.Advance(a, CreationProtocol.ByWorld(CreationProtocol.StopMigrating(v)));
    }
  }

  // ---------- following a call ----------

  /** The disks are the same in both protocols, and no CreateVolume call for `v` is in flight. */
  ghost predicate Alike(a: CreationRuns.Running, s: State, v: string) {
    CreationRuns.Last(a).vdis == s.vdis && CreationRuns.Last(a).used == s.used && v !in CreationRuns.Last(a).calls
  }

  lemma WriteFollowed(a: CreationRuns.Running, s: State, v: string, c: CallAction) returns (a': CreationRuns.Running)
    requires Alike(a, s, v) && CallEnabled(s, v, c) && Writes(c) && PcOk(s, v, s.calls[v])
    ensures CreationRuns.Continues(a, a')
            && CreationRuns.Last(a') == CreationRuns.Last(a).(vdis := CallEffect(s, v, c).vdis)
  {
    a' := a;
    if !c.o.Refused? {
      WritesItsDisk(s, v, c);
      a' := Rewrites(a, s.calls[v].u, Written(s, v, c));
    }
  }

  lemma ResizeFollowed(a: CreationRuns.Running, s: State, v: string, o: Outcome) returns (a': CreationRuns.Running)
    requires Alike(a, s, v) && CallEnabled(s, v, Resize(o)) && PcOk(s, v, s.calls[v])
    ensures CreationRuns.Continues(a, a')
            && CreationRuns.Last(a') == CreationRuns.Last(a).(vdis := CallEffect(s, v, Resize(o)).vdis)
  {
    a' := a;
    if !o.Refused? { a' := Resizes(a, s.calls[v].u, s.calls[v].size); }
  }

  /** A volume that is deleted has no disk left, and stops being one that others may migrate. */
  lemma DeleteFollowed(a: CreationRuns.Running, s: State, v: string, o: Outcome) returns (a': CreationRuns.Running)
    requires Alike(a, s, v) && CallEnabled(s, v, Delete(o)) && DisksInv(s, v) && PcOk(s, v, s.calls[v])
    ensures CreationRuns.Continues(a, a')
    ensures var t := CreationRuns.Last(a);
            CreationRuns.Last(a') == t.(vdis := CallEffect(s, v, Delete(o)).vdis,
                                        migratory := if o.Refused? then t.migratory else t.migratory - {v})
  {
    a' := a;
    if !o.Refused? {
      DeletesItsDisk(s, v, s.calls[v].u);
      OnlyDiskDeleted(s, v, o);
      a' := Ends(a, v, s.calls[v].u);
    }
  }

  lemma OnlyDiskDeleted(s: State, v: string, o: Outcome)
    requires CallEnabled(s, v, Delete(o)) && DisksInv(s, v) && PcOk(s, v, s.calls[v]) && !o.Refused?
    ensures OneNamed(s.vdis, Final(v), s.calls[v].u)
  {
    assert forall w :: w in s.vdis && s.vdis[w].name == Final(v) ==> IsDisk(s, v, w);
  }

  lemma Ends(a: CreationRuns.Running, v: string, u: Uuid) returns (a': CreationRuns.Running)
    requires OneNamed(CreationRuns.Last(a).vdis, Final(v), u) && v !in CreationRuns.Last(a).calls
    ensures CreationRuns.Continues(a, a')
    ensures var t := CreationRuns.Last(a);
            CreationRuns.Last(a') == t.(vdis := t.vdis - {u}, migratory := t.migratory - {v})
  {
    a' := Deletes(a, u, v);
    a' := Migratory(a', v, false);
  }

  lemma NothingToFollow(s: State, v: string, c: CallAction)
    requires CallEnabled(s, v, c) && !Writes(c) && !c.Resize? && !c.Delete?
    ensures CallEffect(s, v, c).vdis == s.vdis && CallEffect(s, v, c).used == s.used
  {
  }

  lemma EffectKeepsRecords(s: State, v: string, c: CallAction)
    requires CallEnabled(s, v, c)
    ensures CallEffect(s, v, c).used == s.used
    ensures CallEffect(s, v, c).volumes == if DeletesVolume(c) then s.volumes - {v} else s.volumes
  {
  }

  predicate DeletesVolume(c: CallAction) {
    c.Delete? && !c.o.Refused?
  }

  /** Any step of any call, publishing, expanding, detaching, deleting or rewriting. */
  lemma EffectFollowed(a: CreationRuns.Running, s: State, v: string, c: CallAction) returns (a': CreationRuns.Running)
    requires Alike(a, s, v) && CallEnabled(s, v, c) && DisksInv(s, v) && (!c.Begin? ==> PcOk(s, v, s.calls[v]))
    ensures CreationRuns.Continues(a, a')
    ensures var t := CreationRuns.Last(a);
            CreationRuns.Last(a') == t.(vdis := CallEffect(s, v, c).vdis,
                                        migratory := if DeletesVolume(c) then t.migratory - {v} else t.migratory)
  {
    if Writes(c) { a' := WriteFollowed(a, s, v, c); }
    else if c.Resize? { a' := ResizeFollowed(a, s, v, c.o); }
    else if c.Delete? { a' := DeleteFollowed(a, s, v, c.o); }
    else { NothingToFollow(s, v, c); a' := a; }
  }

  // ---------- following Xen Orchestra ----------

  /** Any step of a migration that XO carries out: the copy appears, and the source or the copy goes. */
  lemma XoFollowed(a: CreationRuns.Running, s: State, v: string, x: XoAction) returns (a': CreationRuns.Running)
    requires Alike(a, s, v) && XoEnabled(s, v, x) && v in s.volumes && DisksInv(s, v)
             && v in CreationRuns.Last(a).migratory
    ensures CreationRuns.Continues(a, a')
    ensures CreationRuns.Last(a') == CreationRuns.Last(a).(vdis := XoApply(s, v, x).vdis, used := XoApply(s, v, x).used)
  {
    var t := s.tasks[v];
    match x
    case Starts => a' := a;
    case Copies(copy) => a' := Copied(a, t.source, copy, t.target);
    case Finishes(_) => a' := Deletes(a, t.source, v);
    case Fails => if t.phase.Copied? { a' := Deletes(a, t.phase.copy, v); } else { a' := a; }
  }

  // ---------- every step ----------

  /** The volume that a step of a call or of XO is about, or that is handed out. */
  function About(a: Action): Option<string> {
    match a
    case ByCall(v, _) => Some(v)
    case ByXo(v, _) => Some(v)
    case ByWorld(HandOut(v, _, _)) => Some(v)
    case ByWorld(_) => None
  }

  ghost function MigratoryAfter(migratory: set<string>, a: Action): set<string> {
    match a
    case ByCall(v, c) => if DeletesVolume(c) then migratory - {v} else migratory
    case ByWorld(HandOut(v, _, volume)) => if volume.info.migrating.Some? then migratory + {v} else migratory
    case _ => migratory
  }

  lemma HandOutFollowed(a: CreationRuns.Running, s: State, v: string, u: Uuid, volume: Volume)
    returns (a': CreationRuns.Running)
    requires Alike(a, s, v) && WorldEnabled(s, HandOut(v, u, volume))
    ensures CreationRuns.Continues(a, a')
    ensures var t := CreationRuns.Last(a);
            CreationRuns.Last(a') ==
            t.(migratory := if volume.info.migrating.Some? then t.migratory + {v} else t.migratory)
  {
    a' := a;
    if volume.info.migrating.Some? { a' := Migratory(a, v, true); }
  }

  /** The creation protocol knows which volumes may be migrated. */
  ghost predicate Prepared(a: CreationRuns.Running, s: State) {
    forall v :: v in s.volumes && s.volumes[v].info.migrating.Some? ==> v in CreationRuns.Last(a).migratory
  }

  lemma OnlyMigratingVolumesMove(s: State, v: string)
    requires v in s.tasks && v in s.volumes && DisksInv(s, v)
    ensures s.volumes[v].info.migrating.Some?
  {
  }

  /** Every step that a call or XO takes in a run of the migration protocol, from the handing out to the
      deletion, is followed by a run of the creation protocol that shows the same disks: on the disks each
      protocol does what the other expects. */
  lemma StepFollowed(a: CreationRuns.Running, r: MigrationRuns.Running, act: Action) returns (a': CreationRuns.Running)
    requires Enabled(MigrationRuns.Last(r), act) && About(act).Some?
    requires Alike(a, MigrationRuns.Last(r), About(act).value) && Prepared(a, MigrationRuns.Last(r))
    ensures CreationRuns.Continues(a, a')
    ensures Alike(a', Apply(MigrationRuns.Last(r), act), About(act).value)
            && Prepared(a', Apply(MigrationRuns.Last(r), act))
    ensures var t := CreationRuns.Last(a);
            CreationRuns.Last(a') ==
            t.(vdis := CreationRuns.Last(a').vdis, used := CreationRuns.Last(a').used,
               migratory := MigratoryAfter(t.migratory, act))
  {
    var s := MigrationRuns.Last(r);
    MigrationRuns.InvAlways(r, |r.states| - 1);
    if act.ByCall? {
      assert VolumeInv(s, act.v);
      a' := EffectFollowed(a, s, act.v, act.call);
      EffectKeepsRecords(s, act.v, act.call);
      LandAlike(CallEffect(s, act.v, act.call), act.v, CallNext(s, act.v, act.call));
    } else if act.ByWorld? {
      a' := HandOutFollowed(a, s, act.world.v, act.world.u, act.world.volume);
    } else {
      MigrationRuns.OnlyVolumesMigrate(r, |r.states| - 1, act.v);
      assert VolumeInv(s, act.v);
      OnlyMigratingVolumesMove(s, act.v);
      a' := XoFollowed(a, s, act.v, act.xo);
      MigrationRuns.XoKeepsRecords(s, act.v, act.xo);
    }
  }

  lemma LandAlike(s: State, v: string, next: Next)
    ensures var s' := Land(s, v, next); s'.vdis == s.vdis && s'.used == s.used && s'.volumes == s.volumes
  {
  }
}

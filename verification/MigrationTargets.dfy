/**
  Where migrations lead: their targets bear the volume's tag, so that a disk which has arrived can be
  published where it is, however many crashes lie between the migration and that call.
 */
module MigrationTargets {
  import opened Wrappers
  import opened DiskNames
  import opened Metadata
  import opened Xo
  import opened SrPicking
  import opened SrSelection
  import opened MigrationProtocol
  import opened MigrationSafety
  import opened MigrationRuns

  /** A repository with the tag of the record, and the tag can be used. */
  ghost predicate TaggedTarget(srs: map<Uuid, Sr>, info: StorageInfo, target: Uuid) {
    && target in srs && info.srsWithTag.Some?
    && info.srsWithTag.value in srs[target].tags && TagUsable(srs, info.srsWithTag.value)
  }

  /** The SR a call is about to move its disk to. */
  function TargetOf(pc: Pc): Option<Uuid> {
    match pc
    case PCheckVbds(_, _, _, target) => Some(target)
    case PMark(_, _, _, target) => Some(target)
    case PIssue(_, _, _, target) => Some(target)
    case _ => None
  }

  ghost predicate TargetsTagged(s: State, v: string)
    requires v in s.volumes
  {
    && (v in s.tasks ==> TaggedTarget(s.srs, s.volumes[v].info, s.tasks[v].target))
    && (v in s.calls && TargetOf(s.calls[v]).Some? ==>
         TaggedTarget(s.srs, s.volumes[v].info, TargetOf(s.calls[v]).value))
  }

  // ---------- targets are chosen among the tagged ----------

  lemma ChosenIsTagged(s: State, v: string, pc: Pc, listing: seq<Sr>, hostTopology: bool)
    requires Placed(s) && v in s.volumes && v !in s.tasks && pc.PSelect? && RecordInv(s.volumes[v])
             && PcInv(s, v, s.volumes[v], pc)
    requires pc.info.srsWithTag.Some? ==> ListsTag(s.srs, pc.info.srsWithTag.value, listing)
    ensures var next := Placement(s, pc, listing, hostTopology);
            next.Go? && TargetOf(next.pc).Some? ==> TaggedTarget(s.srs, s.volumes[v].info, TargetOf(next.pc).value)
  {
    var found := Completed(SelectionFromStorageInfo(pc.info, pc.vdi, hostTopology), s.srs, listing);
    if found.Ok? && found.value.NeedsMigration(pc.on) == Ok(true)
       && found.value.SrForHost(pc.on.host, pc.vdi.size).Ok? {
      PickedForHost(found.value, pc.on, pc.vdi.size, found.value.SrForHost(pc.on.host, pc.vdi.size).value);
      UsableTag(s.srs, pc.info.srsWithTag.value, listing);
    }
  }

  lemma UsableTag(srs: map<Uuid, Sr>, tag: string, listing: seq<Sr>)
    requires Directory(srs) && ListsTag(srs, tag, listing) && listing != [] && SameSharing(listing)
    ensures TagUsable(srs, tag)
  {
    assert listing[0] in listing;
  }

  /** Only the choice of an SR gives a call a new target. */
  lemma NextTarget(s: State, v: string, a: CallAction)
    requires CallEnabled(s, v, a) && !a.Begin? && !a.Select? && CallNext(s, v, a).Go?
             && TargetOf(CallNext(s, v, a).pc).Some?
    ensures TargetOf(s.calls[v]) == TargetOf(CallNext(s, v, a).pc)
  {
  }

  lemma NextIsTagged(s: State, v: string, a: CallAction)
    requires Inv(s) && CallEnabled(s, v, a) && TargetsTagged(s, v)
    ensures var next := CallNext(s, v, a);
            next.Go? && TargetOf(next.pc).Some? ==> TaggedTarget(s.srs, s.volumes[v].info, TargetOf(next.pc).value)
  {
    assert VolumeInv(s, v);
    if a.Select? {
      if a.listing.Some? { ChosenIsTagged(s, v, s.calls[v], a.listing.value, a.hostTopology); }
    } else if !a.Begin? && CallNext(s, v, a).Go? && TargetOf(CallNext(s, v, a).pc).Some? {
      NextTarget(s, v, a);
    }
  }

  /** Only sending a request makes a migration, to the target of its sender. */
  lemma EffectTargets(s: State, v: string, a: CallAction)
    requires CallEnabled(s, v, a)
    ensures var s' := CallEffect(s, v, a);
            && s'.srs == s.srs && s'.calls == s.calls
            && (v in s'.volumes ==> s'.volumes[v] == s.volumes[v])
            && (v in s'.tasks ==> (v in s.tasks && s'.tasks[v] == s.tasks[v])
                                  || (v in s.calls && TargetOf(s.calls[v]) == Some(s'.tasks[v].target)))
  {
  }

  lemma LandTargets(s: State, v: string, next: Next)
    requires v in s.volumes && (v in s.tasks ==> TaggedTarget(s.srs, s.volumes[v].info, s.tasks[v].target))
    requires next.Go? && TargetOf(next.pc).Some? ==> TaggedTarget(s.srs, s.volumes[v].info, TargetOf(next.pc).value)
    ensures TargetsTagged(Land(s, v, next), v)
  {
  }

  lemma CallKeepsTargets(s: State, v: string, a: CallAction)
    requires Inv(s) && CallEnabled(s, v, a) && TargetsTagged(s, v) && v in CallEffect(s, v, a).volumes
    ensures TargetsTagged(Land(CallEffect(s, v, a), v, CallNext(s, v, a)), v)
  {
    NextIsTagged(s, v, a);
    EffectTargets(s, v, a);
    LandTargets(CallEffect(s, v, a), v, CallNext(s, v, a));
  }

  lemma XoKeepsTargets(s: State, v: string, a: XoAction)
    requires XoEnabled(s, v, a) && v in s.volumes && TargetsTagged(s, v)
    ensures TargetsTagged(XoApply(s, v, a), v)
  {
  }

  lemma FrameTag(srs: map<Uuid, Sr>, srs': map<Uuid, Sr>, info: StorageInfo, target: Uuid)
    requires TaggedTarget(srs, info, target) && srs'.Keys == srs.Keys
    requires forall u :: u in srs ==> srs'[u] == srs[u].(usage := srs'[u].usage)
    ensures TaggedTarget(srs', info, target)
  {
    var x :| x in srs && info.srsWithTag.value in srs[x].tags;
    assert x in srs' && info.srsWithTag.value in srs'[x].tags;
    assert forall u :: u in srs' <==> u in srs;
  }

  lemma FrameTargets(s: State, s': State, v: string)
    requires v in s.volumes && TargetsTagged(s, v) && SameFor(s, s', v)
    ensures v in s'.volumes && TargetsTagged(s', v)
  {
    if v in s.tasks { FrameTag(s.srs, s'.srs, s.volumes[v].info, s.tasks[v].target); }
    if v in s.calls && TargetOf(s.calls[v]).Some? {
      FrameTag(s.srs, s'.srs, s.volumes[v].info, TargetOf(s.calls[v]).value);
    }
  }

  // ---------- over whole runs ----------

  lemma CallTargets(s: State, w: string, a: CallAction, v: string)
    requires Inv(s) && CallEnabled(s, w, a) && v in s.volumes && TargetsTagged(s, v) && v in CallApply(s, w, a).volumes
    ensures TargetsTagged(CallApply(s, w, a), v)
  {
    if w == v {
      CallKeepsTargets(s, v, a);
    } else {
      assert VolumeInv(s, w);
      EffectFrames(s, w, a, v);
      LandFrames(CallEffect(s, w, a), w, CallNext(s, w, a), v);
      SameForTransitive(s, CallEffect(s, w, a), CallApply(s, w, a), v);
      FrameTargets(s, CallApply(s, w, a), v);
    }
  }

  lemma StepTargets(s: State, a: Action, v: string)
    requires Inv(s) && Enabled(s, a) && v in s.volumes && TargetsTagged(s, v) && v in Apply(s, a).volumes
    ensures TargetsTagged(Apply(s, a), v)
  {
    match a
    case ByCall(w, c) => CallTargets(s, w, c, v);
    case ByXo(w, x) =>
      if w == v { XoKeepsTargets(s, v, x); }
      else {
        assert VolumeInv(s, w);
        XoFrames(s, w, x, v);
        FrameTargets(s, XoApply(s, w, x), v);
      }
    case ByWorld(w) =>
      WorldFrames(s, w, v);
      FrameTargets(s, WorldApply(s, w), v);
  }

  lemma HandedOutIsQuiet(s: State, a: WorldAction, v: string)
    requires WorldInv(s) && WorldEnabled(s, a) && v !in s.volumes && v in WorldApply(s, a).volumes
    ensures v !in WorldApply(s, a).tasks && v !in WorldApply(s, a).calls
  {
  }

  lemma NewVolumeIsQuiet(s: State, a: Action, v: string)
    requires Inv(s) && Enabled(s, a) && v !in s.volumes && v in Apply(s, a).volumes
    ensures v !in Apply(s, a).tasks && v !in Apply(s, a).calls
  {
    match a
    case ByCall(w, c) => CallHandsNothingOut(s, w, c); LandKeepsDisks(CallEffect(s, w, c), w, CallNext(s, w, c));
    case ByXo(w, x) => XoKeepsRecords(s, w, x);
    case ByWorld(w) => HandedOutIsQuiet(s, w, v);
  }

  lemma {:induction false} TargetsTaggedAlways(r: Run, j: nat, v: string)
    requires IsRun(r) && j < |r.states| && v in r.states[j].volumes
    ensures TargetsTagged(r.states[j], v)
    decreases j
  {
    if j > 0 {
      InvAlways(r, j - 1);
      assert StepAt(r, j - 1);
      if v in r.states[j - 1].volumes {
        TargetsTaggedAlways(r, j - 1, v);
        StepTargets(r.states[j - 1], r.actions[j - 1], v);
      } else {
        NewVolumeIsQuiet(r.states[j - 1], r.actions[j - 1], v);
      }
    }
  }

  // ---------- a disk that has arrived ----------

  lemma XoKeepsSrs(s: State, v: string, a: XoAction)
    requires XoEnabled(s, v, a)
    ensures SameSrs(s, XoApply(s, v, a))
  {
  }

  lemma WorldKeepsSrs(s: State, a: WorldAction)
    requires WorldEnabled(s, a)
    ensures SameSrs(s, WorldApply(s, a))
  {
  }

  lemma CallKeepsSrs(s: State, v: string, a: CallAction)
    requires CallEnabled(s, v, a)
    ensures CallEffect(s, v, a).srs == s.srs && CallEffect(s, v, a).hosts == s.hosts
  {
    if Writes(a) {
      assert a.Clear? || a.Mark? || a.Unmark? || a.Rewrite?;
    } else {
      assert CallEffect(s, v, a).srs == s.srs;
    }
  }

  lemma StepKeepsSrs(s: State, a: Action)
    requires Enabled(s, a)
    ensures SameSrs(s, Apply(s, a))
  {
    match a
    case ByCall(w, c) => CallKeepsSrs(s, w, c);
    case ByXo(w, x) => XoKeepsSrs(s, w, x);
    case ByWorld(w) => WorldKeepsSrs(s, w);
  }

  lemma StepKeepsRecord(s: State, a: Action, v: string)
    requires Enabled(s, a) && v in s.volumes && v in Apply(s, a).volumes
    ensures Apply(s, a).volumes[v] == s.volumes[v]
  {
    if !Deletes(a, v) { VolumeKept(s, a, v); }
  }

  lemma StepKeepsTag(s: State, a: Action, v: string, sr: Uuid)
    requires Enabled(s, a) && v in s.volumes && v in Apply(s, a).volumes && TaggedTarget(s.srs, s.volumes[v].info, sr)
    ensures TaggedTarget(Apply(s, a).srs, Apply(s, a).volumes[v].info, sr)
  {
    StepKeepsSrs(s, a);
    StepKeepsRecord(s, a, v);
    FrameTag(s.srs, Apply(s, a).srs, s.volumes[v].info, sr);
  }

  /** A volume's disk that is marked for the SR it is on: that SR bears the volume's tag. */
  lemma {:induction false} ArrivedIsTagged(r: Run, j: nat, v: string, u: Uuid)
    requires IsRun(r) && j < |r.states| && v in r.states[j].volumes && Arrived(r.states[j], v, u)
    ensures TaggedTarget(r.states[j].srs, r.states[j].volumes[v].info, r.states[j].vdis[u].sr)
    decreases j
  {
    if j == 0 {
      assert false;
    } else {
      var s, a := r.states[j - 1], r.actions[j - 1];
      LastStepArrives(r, j, v, u);
      assert StepAt(r, j - 1);
      if v in s.volumes && Arrived(s, v, u) && r.states[j].vdis[u].sr == s.vdis[u].sr {
        ArrivedIsTagged(r, j - 1, v, u);
      } else {
        OnlyVolumesMigrate(r, j - 1, v);
        TargetsTaggedAlways(r, j - 1, v);
      }
      StepKeepsTag(s, a, v, r.states[j].vdis[u].sr);
    }
  }
}

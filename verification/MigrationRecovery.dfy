/** Getting past a migration: when publishing goes on, when it never does, and what deletion leaves. */
module MigrationRecovery {
  import opened Wrappers
  import opened DiskNames
  import opened Metadata
  import opened Xo
  import opened SrSelection
  import opened MigrationProtocol
  import opened MigrationSafety
  import opened MigrationRuns

  // ---------- when publishing goes on ----------

  /** Publishing gets past its lookup exactly when the disk carries no marker, or a marker for the
      SR it is on. */
  lemma LookupLeadsOnExactlyWhen(r: Run, j: nat, v: string, u: Uuid)
    requires IsRun(r) && j < |r.states| && v in r.states[j].volumes && v in r.states[j].calls
             && r.states[j].calls[v].PFind?
    requires u in r.states[j].vdis && Resolves(r.states[j], v, r.states[j].calls[v], One(u))
    ensures Resolved(r.states[j], v, r.states[j].calls[v], u).Go? <==>
            v !in r.states[j].tasks
              && (Plain(r.states[j], u, r.states[j].volumes[v].info) || Arrived(r.states[j], v, u))
  {
    var s := r.states[j];
    VolumeInvAlways(r, j, v);
    FindsItsDisk(s, v, u);
    if v in s.tasks {
      MarkingIsReversible(s.volumes[v].info, s.tasks[v].target);
    } else {
      ReadsDescription(s, v, u);
    }
  }

  /** Publishing migrates exactly when the disk's SR does not serve the VM, the volume migrates, and
      an SR with room is found on the VM's host; a disk that is already well placed, as after a
      finished migration for a VM on that host, is attached without another one. */
  lemma MigratesExactlyWhen(r: Run, j: nat, v: string, listing: seq<Sr>, hostTopology: bool)
    requires IsRun(r) && j < |r.states| && v in r.states[j].volumes && v in r.states[j].calls
             && r.states[j].calls[v].PSelect?
    requires CallEnabled(r.states[j], v, Select(Some(listing), hostTopology))
    ensures var s := r.states[j]; var pc := s.calls[v];
            var sel := Completed(SelectionFromStorageInfo(pc.info, pc.vdi, hostTopology), s.srs, listing);
            var next := CallNext(s, v, Select(Some(listing), hostTopology));
            && (next.Go? ==> sel.Ok?)
            && (sel.Ok? && Serves(s, pc.u, pc.on) ==> next == Go(PAttach(pc.on, pc.u)))
            && (sel.Ok? && !Serves(s, pc.u, pc.on) ==>
                  if s.volumes[v].info.migrating.Some? && sel.value.SrForHost(pc.on.host, pc.vdi.size).Ok?
                  then next.Go? && next.pc.PCheckVbds? else next == End)
  {
    VolumeInvAlways(r, j, v);
  }

  // ---------- when it never does ----------

  /** XO is not migrating the volume, but its disk says so, and no request is about to be sent. */
  ghost predicate Stuck(s: State, v: string, u: Uuid, target: Uuid) {
    && v in s.volumes && v !in s.tasks && OnlyDisk(s, v, u) && SaysMigrating(s, u, target)
    && (v in s.calls ==> !s.calls[v].PIssue?)
  }

  /** The step repeats CreateVolume for `v` and rewrites the description of its disk. */
  ghost predicate Rewrites(a: Action, v: string) {
    a.ByCall? && a.v == v && a.call.Rewrite? && !a.call.o.Refused?
  }

  /** What the one call in flight on a stuck volume can be. */
  lemma StuckCalls(s: State, v: string, u: Uuid, target: Uuid)
    requires Inv(s) && Stuck(s, v, u, target) && v in s.calls
    ensures var pc := s.calls[v]; IsFirst(pc) || pc.UDelete? || pc.DDelete? || pc.RWrite? || pc.PWait?
  {
    assert VolumeInv(s, v);
  }

  lemma StuckActions(s: State, v: string, a: CallAction)
    requires CallEnabled(s, v, a) && !Deletes(ByCall(v, a), v) && !Rewrites(ByCall(v, a), v)
    requires v in s.calls ==>
               var pc := s.calls[v]; IsFirst(pc) || pc.UDelete? || pc.DDelete? || pc.RWrite? || pc.PWait?
    ensures a.Begin? || a.Find? || a.DetachAll? || a.Quit? || ((a.Delete? || a.Rewrite?) && a.o.Refused?)
  {
  }

  lemma StuckEffect(s: State, v: string, a: CallAction)
    requires CallEnabled(s, v, a)
    requires a.Begin? || a.Find? || a.DetachAll? || a.Quit? || ((a.Delete? || a.Rewrite?) && a.o.Refused?)
    ensures var s' := CallEffect(s, v, a); s'.vdis == s.vdis && s'.volumes == s.volumes && s'.tasks == s.tasks
    ensures CallNext(s, v, a).Go? ==> !CallNext(s, v, a).pc.PIssue?
  {
  }

  lemma StuckLeaves(s: State, v: string, a: CallAction, u: Uuid, target: Uuid)
    requires Inv(s) && CallEnabled(s, v, a) && Stuck(s, v, u, target)
    requires !Deletes(ByCall(v, a), v) && !Rewrites(ByCall(v, a), v)
    ensures var s' := CallEffect(s, v, a); s'.vdis == s.vdis && s'.volumes == s.volumes && s'.tasks == s.tasks
    ensures CallNext(s, v, a).Go? ==> !CallNext(s, v, a).pc.PIssue?
  {
    if v in s.calls { StuckCalls(s, v, u, target); }
    StuckActions(s, v, a);
    StuckEffect(s, v, a);
  }

  lemma StuckCallStep(s: State, v: string, a: CallAction, u: Uuid, target: Uuid)
    requires Inv(s) && CallEnabled(s, v, a) && Stuck(s, v, u, target)
    requires !Deletes(ByCall(v, a), v) && !Rewrites(ByCall(v, a), v)
    ensures Stuck(CallApply(s, v, a), v, u, target)
  {
    StuckLeaves(s, v, a, u, target);
    LandsStuck(s, CallEffect(s, v, a), CallNext(s, v, a), v, u, target);
  }

  lemma LandsStuck(s: State, s1: State, next: Next, v: string, u: Uuid, target: Uuid)
    requires Stuck(s, v, u, target) && s1.vdis == s.vdis && s1.volumes == s.volumes && s1.tasks == s.tasks
    requires next.Go? ==> !next.pc.PIssue?
    ensures Stuck(Land(s1, v, next), v, u, target)
  {
    assert forall w :: IsDisk(Land(s1, v, next), v, w) <==> IsDisk(s, v, w);
  }

  lemma StuckFrames(s: State, s': State, v: string, u: Uuid, target: Uuid)
    requires Stuck(s, v, u, target) && SameFor(s, s', v)
    ensures Stuck(s', v, u, target)
  {
    assert IsDisk(s, v, u);
  }

  lemma OtherCallsFrame(s: State, w: string, a: CallAction, v: string)
    requires Inv(s) && CallEnabled(s, w, a) && w != v
    ensures SameFor(s, CallApply(s, w, a), v)
  {
    assert VolumeInv(s, w);
    EffectFrames(s, w, a, v);
    LandFrames(CallEffect(s, w, a), w, CallNext(s, w, a), v);
    SameForTransitive(s, CallEffect(s, w, a), CallApply(s, w, a), v);
  }

  lemma OtherMigrationsFrame(s: State, w: string, a: XoAction, v: string)
    requires Inv(s) && XoEnabled(s, w, a) && w != v
    ensures SameFor(s, XoApply(s, w, a), v)
  {
    assert VolumeInv(s, w);
    XoFrames(s, w, a, v);
  }

  lemma StuckStep(s: State, a: Action, v: string, u: Uuid, target: Uuid)
    requires Inv(s) && Enabled(s, a) && Stuck(s, v, u, target) && !Deletes(a, v) && !Rewrites(a, v)
    ensures Stuck(Apply(s, a), v, u, target)
  {
    match a
    case ByCall(w, c) =>
      if w == v { StuckCallStep(s, v, c, u, target); }
      else { OtherCallsFrame(s, w, c, v); StuckFrames(s, CallApply(s, w, c), v, u, target); }
    case ByXo(w, x) =>
      OtherMigrationsFrame(s, w, x, v);
      StuckFrames(s, XoApply(s, w, x), v, u, target);
    case ByWorld(w) =>
      WorldFrames(s, w, v);
      StuckFrames(s, WorldApply(s, w), v, u, target);
  }

  /** In this step a migration of `v` comes to nothing: XO fails; or the marker has been written, but
      the request is not sent, because the caller gives up or crashes, or is not accepted. */
  ghost predicate BreaksOff(s: State, a: Action, v: string) {
    || a == ByXo(v, Fails)
    || (v in s.calls && s.calls[v].PIssue? && (a == ByCall(v, Quit) || a == ByCall(v, Issue(false))))
    || (v in s.calls && s.calls[v].PMark? && a == ByCall(v, CallAction.Mark(Lost)))
  }

  ghost predicate IsStuck(s: State, v: string) {
    exists u, target :: Stuck(s, v, u, target)
  }

  lemma FailureSticks(s: State, v: string)
    requires Inv(s) && XoEnabled(s, v, Fails)
    ensures Stuck(XoApply(s, v, Fails), v, s.tasks[v].source, s.tasks[v].target)
  {
    assert VolumeInv(s, v);
    FailsDisks(s, v);
    MarkingIsReversible(s.volumes[v].info, s.tasks[v].target);
  }

  /** Nobody is working on a disk that says it is being moved. */
  lemma Sticks(s: State, s': State, v: string, u: Uuid, target: Uuid)
    requires v in s.volumes && v !in s'.tasks && v !in s'.calls && OnlyDisk(s, v, u) && SaysMigrating(s, u, target)
    requires s'.vdis == s.vdis && s'.volumes == s.volumes
    ensures Stuck(s', v, u, target)
  {
    assert forall w :: IsDisk(s', v, w) <==> IsDisk(s, v, w);
  }

  /** A marker without a request. */
  lemma AboutToSend(s: State, v: string)
    requires Inv(s) && v in s.volumes && v in s.calls && s.calls[v].PIssue?
    ensures v !in s.tasks && OnlyDisk(s, v, s.calls[v].u) && SaysMigrating(s, s.calls[v].u, s.calls[v].target)
  {
    assert VolumeInv(s, v);
    MarkingIsReversible(s.volumes[v].info, s.calls[v].target);
  }

  lemma UnsentEffect(s: State, v: string, a: CallAction)
    requires CallEnabled(s, v, a) && v in s.calls && s.calls[v].PIssue? && (a.Quit? || a == Issue(false))
    ensures CallApply(s, v, a) == s.(calls := s.calls - {v})
  {
  }

  lemma UnsentSticks(s: State, v: string, a: CallAction)
    requires Inv(s) && CallEnabled(s, v, a) && v in s.calls && s.calls[v].PIssue? && (a.Quit? || a == Issue(false))
    ensures Stuck(CallApply(s, v, a), v, s.calls[v].u, s.calls[v].target)
  {
    AboutToSend(s, v);
    UnsentEffect(s, v, a);
    Sticks(s, CallApply(s, v, a), v, s.calls[v].u, s.calls[v].target);
  }

  lemma LostMarkEffect(s: State, v: string)
    requires CallEnabled(s, v, CallAction.Mark(Lost)) && v in s.calls && s.calls[v].PMark?
    ensures s.calls[v].u in s.vdis
    ensures var pc := s.calls[v];
            CallApply(s, v, CallAction.Mark(Lost)) ==
            s.(vdis := Described(s.vdis, pc.u, Info(pc.info.StartMigration(pc.target))), calls := s.calls - {v})
  {
  }

  lemma AboutToMark(s: State, v: string)
    requires Inv(s) && v in s.volumes && v in s.calls && s.calls[v].PMark?
    ensures var pc := s.calls[v];
            && v !in s.tasks && OnlyDisk(s, v, pc.u) && s.vdis[pc.u].sr != pc.target
            && pc.info.migrating.Some? && pc.info.HasOngoingMigration().None?
  {
    assert VolumeInv(s, v);
  }

  lemma MarkedSays(s: State, v: string)
    requires Inv(s) && v in s.volumes && v in s.calls && s.calls[v].PMark?
    ensures v !in s.tasks && s.calls[v].u in s.vdis
    ensures var pc := s.calls[v];
            var s1 := s.(vdis := Described(s.vdis, pc.u, Info(pc.info.StartMigration(pc.target))));
            OnlyDisk(s1, v, pc.u) && SaysMigrating(s1, pc.u, pc.target)
  {
    AboutToMark(s, v);
    var pc := s.calls[v];
    var s1 := s.(vdis := Described(s.vdis, pc.u, Info(pc.info.StartMigration(pc.target))));
    MarkingIsReversible(pc.info, pc.target);
    assert forall w :: IsDisk(s1, v, w) <==> IsDisk(s, v, w);
  }

  lemma LostMarkSticks(s: State, v: string)
    requires Inv(s) && CallEnabled(s, v, CallAction.Mark(Lost)) && v in s.calls && s.calls[v].PMark?
    ensures Stuck(CallApply(s, v, CallAction.Mark(Lost)), v, s.calls[v].u, s.calls[v].target)
  {
    var pc := s.calls[v];
    LostMarkEffect(s, v);
    MarkedSays(s, v);
    var s1 := s.(vdis := Described(s.vdis, pc.u, Info(pc.info.StartMigration(pc.target))));
    Sticks(s1, CallApply(s, v, CallAction.Mark(Lost)), v, pc.u, pc.target);
  }

  lemma BrokenOffSticks(s: State, a: Action, v: string)
    requires Inv(s) && Enabled(s, a) && BreaksOff(s, a, v)
    ensures IsStuck(Apply(s, a), v)
  {
    if a.ByXo? { FailureSticks(s, v); }
    else if s.calls[v].PIssue? { UnsentSticks(s, v, a.call); }
    else { LostMarkSticks(s, v); }
  }

  // ---------- and when it begins ----------

  lemma OnlyMarkingMarks(s: State, v: string, a: CallAction, u: Uuid, target: Uuid)
    requires CallEnabled(s, v, a) && VolumeInv(s, v) && Writes(a) && !a.o.Refused?
    requires IsDisk(CallEffect(s, v, a), v, u) && SaysMigrating(CallEffect(s, v, a), u, target)
    ensures a.Mark? && s.calls[v].PMark?
  {
    WritesItsDisk(s, v, a);
    WritesTheRecord(s, v, a);
    assert IsDisk(s, v, u);
  }

  lemma MarkedGoesOn(s: State, v: string)
    requires CallEnabled(s, v, CallAction.Mark(Done)) && v in s.calls && s.calls[v].PMark?
    ensures var s' := CallApply(s, v, CallAction.Mark(Done)); v in s'.calls && s'.calls[v].PIssue?
  {
  }

  /** Other operations of its calls leave the disk's description and place as they are. */
  lemma EffectKeepsMarkers(s: State, v: string, a: CallAction, u: Uuid, target: Uuid)
    requires CallEnabled(s, v, a) && !(Writes(a) && !a.o.Refused?)
    requires var s' := CallEffect(s, v, a);
             v in s'.volumes && v !in s'.tasks && OnlyDisk(s', v, u) && SaysMigrating(s', u, target)
    ensures v in s.volumes && v !in s.tasks && OnlyDisk(s, v, u) && SaysMigrating(s, u, target)
  {
    assert forall w :: IsDisk(s, v, w) ==> IsDisk(CallEffect(s, v, a), v, w) || a.Delete?;
  }

  lemma IssueEnds(s: State, v: string, a: CallAction)
    requires CallEnabled(s, v, a) && v in s.calls && s.calls[v].PIssue? && v !in CallEffect(s, v, a).tasks
    ensures a.Quit? || a == Issue(false)
  {
  }

  lemma WriteSticks(s: State, v: string, a: CallAction, u: Uuid, target: Uuid)
    requires Inv(s) && CallEnabled(s, v, a) && Writes(a) && !a.o.Refused? && Stuck(CallApply(s, v, a), v, u, target)
    ensures BreaksOff(s, ByCall(v, a), v)
  {
    assert VolumeInv(s, v);
    LandKeepsDisks(CallEffect(s, v, a), v, CallNext(s, v, a));
    assert IsDisk(CallEffect(s, v, a), v, u);
    OnlyMarkingMarks(s, v, a, u, target);
    if a.o.Done? { MarkedGoesOn(s, v); }
  }

  lemma OtherCallSticks(s: State, v: string, a: CallAction, u: Uuid, target: Uuid)
    requires CallEnabled(s, v, a) && !(Writes(a) && !a.o.Refused?) && Stuck(CallApply(s, v, a), v, u, target)
    ensures IsStuck(s, v) || BreaksOff(s, ByCall(v, a), v)
  {
    var s1 := CallEffect(s, v, a);
    LandKeepsDisks(s1, v, CallNext(s, v, a));
    assert forall w :: IsDisk(s1, v, w) <==> IsDisk(CallApply(s, v, a), v, w);
    EffectKeepsMarkers(s, v, a, u, target);
    if v in s.calls && s.calls[v].PIssue? {
      IssueEnds(s, v, a);
    } else {
      assert Stuck(s, v, u, target);
    }
  }

  lemma CallSticks(s: State, v: string, a: CallAction, u: Uuid, target: Uuid)
    requires Inv(s) && CallEnabled(s, v, a) && Stuck(CallApply(s, v, a), v, u, target)
    ensures IsStuck(s, v) || BreaksOff(s, ByCall(v, a), v)
  {
    if Writes(a) && !a.o.Refused? {
      WriteSticks(s, v, a, u, target);
    } else {
      OtherCallSticks(s, v, a, u, target);
    }
  }

  lemma XoSticks(s: State, v: string, a: XoAction, u: Uuid, target: Uuid)
    requires Inv(s) && XoEnabled(s, v, a) && Stuck(XoApply(s, v, a), v, u, target)
    ensures BreaksOff(s, ByXo(v, a), v)
  {
    assert VolumeInv(s, v);
    if a.Finishes? {
      FinishesDisks(s, v, a.replies);
      MarkingIsReversible(s.volumes[v].info, s.tasks[v].target);
    }
  }

  /** What does not concern the volume does not stick it either. */
  lemma StuckFramesBack(s: State, s': State, v: string, u: Uuid, target: Uuid)
    requires Stuck(s', v, u, target) && SameFor(s, s', v)
    ensures Stuck(s, v, u, target)
  {
    assert IsDisk(s', v, u);
  }

  lemma HandedOutIsNotStuck(s: State, v: string, u: Uuid, volume: Volume, w: Uuid, target: Uuid)
    requires WorldEnabled(s, HandOut(v, u, volume))
    ensures !Stuck(WorldApply(s, HandOut(v, u, volume)), v, w, target)
  {
    assert IsDisk(WorldApply(s, HandOut(v, u, volume)), v, u);
  }

  lemma WorldSticks(s: State, a: WorldAction, v: string, u: Uuid, target: Uuid)
    requires Inv(s) && WorldEnabled(s, a) && Stuck(WorldApply(s, a), v, u, target)
    ensures Stuck(s, v, u, target)
  {
    if a.HandOut? && a.v == v {
      HandedOutIsNotStuck(s, v, a.u, a.volume, u, target);
      assert false;
    } else {
      WorldFrames(s, a, v);
      StuckFramesBack(s, WorldApply(s, a), v, u, target);
    }
  }

  lemma OtherStepSticks(s: State, a: Action, v: string, u: Uuid, target: Uuid)
    requires Inv(s) && Enabled(s, a) && Stuck(Apply(s, a), v, u, target) && !a.ByWorld? && a.v != v
    ensures Stuck(s, v, u, target)
  {
    if a.ByCall? { OtherCallsFrame(s, a.v, a.call, v); } else { OtherMigrationsFrame(s, a.v, a.xo, v); }
    StuckFramesBack(s, Apply(s, a), v, u, target);
  }

  lemma StepSticks(s: State, a: Action, v: string)
    requires Inv(s) && Enabled(s, a) && IsStuck(Apply(s, a), v)
    ensures IsStuck(s, v) || BreaksOff(s, a, v)
  {
    var u, target :| Stuck(Apply(s, a), v, u, target);
    if a.ByWorld? { WorldSticks(s, a.world, v, u, target); }
    else if a.v != v { OtherStepSticks(s, a, v, u, target); }
    else if a.ByCall? { CallSticks(s, v, a.call, u, target); }
    else { XoSticks(s, v, a.xo, u, target); }
  }

  lemma RemovedIsNotStuck(r: Run, i: nat, v: string)
    requires IsRun(r) && i < |r.actions| && IsStuck(r.states[i + 1], v)
    ensures !Deletes(r.actions[i], v) && !Rewrites(r.actions[i], v)
  {
    assert StepAt(r, i);
    VolumeInvAlways(r, i + 1, v);
    if Rewrites(r.actions[i], v) { RepeatedCreateUnsticks(r, i, v, r.actions[i].call.o); }
  }

  lemma StillStuck(r: Run, i: int, j: nat, v: string)
    requires IsRun(r) && j + 1 < |r.states| && BrokenOffAt(r, i, j + 1, v)
    requires i < j ==> IsStuck(r.states[j], v)
    ensures IsStuck(r.states[j + 1], v)
  {
    InvAlways(r, j);
    assert StepAt(r, j);
    if i == j {
      BrokenOffSticks(r.states[j], r.actions[j], v);
    } else {
      var u, target :| Stuck(r.states[j], v, u, target);
      StuckStep(r.states[j], r.actions[j], v, u, target);
    }
  }

  lemma StuckNow(r: Run, j: nat, v: string)
    requires IsRun(r) && j + 1 < |r.states| && IsStuck(r.states[j + 1], v)
    ensures IsStuck(r.states[j], v) || BreaksOff(r.states[j], r.actions[j], v)
  {
    InvAlways(r, j);
    assert StepAt(r, j);
    StepSticks(r.states[j], r.actions[j], v);
  }

  lemma {:induction false} StuckSince(r: Run, j: nat, v: string) returns (i: int)
    requires IsRun(r) && j < |r.states| && IsStuck(r.states[j], v)
    ensures BrokenOffAt(r, i, j, v)
    decreases j
  {
    if j == 0 {
      assert false;
    } else {
      RemovedIsNotStuck(r, j - 1, v);
      StuckNow(r, j - 1, v);
      if BreaksOff(r.states[j - 1], r.actions[j - 1], v) {
        i := j - 1;
      } else {
        i := StuckSince(r, j - 1, v);
      }
    }
  }

  /** A volume is stuck exactly from a migration that came to nothing until CreateVolume is repeated for
      it or it is deleted. */
  lemma {:induction false} StuckExactlyWhen(r: Run, j: nat, v: string)
    requires IsRun(r) && j < |r.states|
    ensures IsStuck(r.states[j], v) <==> exists i :: BrokenOffAt(r, i, j, v)
    decreases j
  {
    if IsStuck(r.states[j], v) {
      var i := StuckSince(r, j, v);
    }
    if i :| BrokenOffAt(r, i, j, v) {
      if i < j - 1 {
        assert BrokenOffAt(r, i, j - 1, v);
        StuckExactlyWhen(r, j - 1, v);
      }
      StillStuck(r, i, j - 1, v);
    }
  }

  /** A migration of `v` came to nothing in step `i`, and since then, up to state `j`, nothing was done
      about it. */
  ghost predicate BrokenOffAt(r: Run, i: int, j: nat, v: string)
    requires IsRun(r) && j < |r.states|
  {
    && 0 <= i < j && BreaksOff(r.states[i], r.actions[i], v)
    && forall k: nat :: i < k < j ==> !Deletes(r.actions[k], v) && !Rewrites(r.actions[k], v)
  }

  /** A migration that fails outright leaves the volume stuck with its source marked for the target. */
  lemma {:induction false} FailedMigrationSticks(r: Run, i: nat, j: nat, v: string, u: Uuid, target: Uuid)
    requires IsRun(r) && i < j < |r.states| && r.actions[i] == ByXo(v, Fails)
    requires v in r.states[i].tasks && u == r.states[i].tasks[v].source && target == r.states[i].tasks[v].target
    requires forall k: nat :: i < k < j ==> !Deletes(r.actions[k], v) && !Rewrites(r.actions[k], v)
    ensures Stuck(r.states[j], v, u, target)
    decreases j
  {
    InvAlways(r, j - 1);
    assert StepAt(r, j - 1);
    if i == j - 1 {
      FailureSticks(r.states[i], v);
    } else {
      FailedMigrationSticks(r, i, j - 1, v, u, target);
      StuckStep(r.states[j - 1], r.actions[j - 1], v, u, target);
    }
  }

  lemma HarmlessActions(s: State, v: string, a: CallAction)
    requires CallEnabled(s, v, a)
    requires v in s.calls ==>
               var pc := s.calls[v]; IsFirst(pc) || pc.UDelete? || pc.DDelete? || pc.RWrite? || pc.PWait?
    ensures !a.Attach? && !a.Connect? && !a.Resize? && !a.Issue?
  {
  }

  /** However often publishing or expanding is retried, a stuck volume is neither attached nor resized. */
  lemma StuckVolumesAreNotAttached(r: Run, j: nat, v: string, a: CallAction, u: Uuid, target: Uuid)
    requires IsRun(r) && j < |r.actions| && Stuck(r.states[j], v, u, target) && r.actions[j] == ByCall(v, a)
    ensures !a.Attach? && !a.Connect? && !a.Resize? && !a.Issue?
  {
    InvAlways(r, j);
    assert StepAt(r, j);
    if v in r.states[j].calls {
      StuckCalls(r.states[j], v, u, target);
    }
    HarmlessActions(r.states[j], v, a);
  }

  /** Repeating CreateVolume is the way out: it restores the plain record. */
  lemma RepeatedCreateUnsticks(r: Run, i: nat, v: string, o: Outcome)
    requires IsRun(r) && i < |r.actions| && r.actions[i] == ByCall(v, Rewrite(o)) && !o.Refused?
    ensures var s := r.states[i + 1];
            && v in s.volumes && v !in s.tasks
            && exists u :: OnlyDisk(s, v, u) && Plain(s, u, s.volumes[v].info)
  {
    assert StepAt(r, i);
    VolumeInvAlways(r, i, v);
    VolumeInvAlways(r, i + 1, v);
    var u := r.states[i].calls[v].u;
    assert forall w :: IsDisk(r.states[i + 1], v, w) <==> IsDisk(r.states[i], v, w);
    assert OnlyDisk(r.states[i + 1], v, u) && Plain(r.states[i + 1], u, r.states[i + 1].volumes[v].info);
  }

  // ---------- what deletion leaves ----------

  /** A deletion that takes effect leaves no disk of the volume behind. When the disk it looked up is
      gone by then, it reports success (controller.go:201-203) although the volume still has a disk:
      the copy that XO has put in the place of the one looked up. */
  lemma WhatDeletionLeaves(r: Run, i: nat, v: string, o: Outcome)
    requires IsRun(r) && i < |r.actions| && r.actions[i] == ByCall(v, Delete(o))
    requires v in r.states[i].calls && r.states[i].calls[v].DDelete?
    ensures var s' := r.states[i + 1]; !o.Refused? ==> forall w :: !IsDisk(s', v, w)
    ensures var s' := r.states[i + 1]; r.states[i].calls[v].u !in r.states[i].vdis ==>
              exists w :: OnlyDisk(s', v, w) && w != r.states[i].calls[v].u
  {
    assert StepAt(r, i);
    VolumeInvAlways(r, i, v);
    var s, s' := r.states[i], r.states[i + 1];
    var u := s.calls[v].u;
    if o.Refused? {
      assert s'.vdis == s.vdis;
      if u !in s.vdis {
        assert v !in s.tasks;
        var w :| OnlyDisk(s, v, w);
        assert forall x :: IsDisk(s', v, x) <==> IsDisk(s, v, x);
        assert OnlyDisk(s', v, w);
      }
    } else {
      assert forall w :: IsDisk(s', v, w) <==> IsDisk(s, v, w) && w != u;
      assert IsDisk(s, v, u);
    }
  }
}

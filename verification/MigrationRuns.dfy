/** What the migration protocol guarantees over whole runs. */
module MigrationRuns {
  import opened Wrappers
  import opened DiskNames
  import opened Metadata
  import opened Xo
  import opened SrSelection
  import opened MigrationProtocol
  import opened MigrationSafety

  lemma {:induction false} InvAlways(r: Run, j: nat)
    requires IsRun(r) && j < |r.states|
    ensures Inv(r.states[j])
  {
    if j == 0 {
      InitialInv(r.states[0]);
    } else {
      InvAlways(r, j - 1);
      assert StepAt(r, j - 1);
      StepKeepsInv(r.states[j - 1], r.actions[j - 1]);
    }
  }

  lemma VolumeInvAlways(r: Run, j: nat, v: string)
    requires IsRun(r) && j < |r.states| && v in r.states[j].volumes
    ensures DisksInv(r.states[j], v)
    ensures v in r.states[j].calls ==> PcOk(r.states[j], v, r.states[j].calls[v])
  {
    InvAlways(r, j);
    assert VolumeInv(r.states[j], v);
  }

  lemma OnlyVolumesMigrate(r: Run, j: nat, v: string)
    requires IsRun(r) && j < |r.states| && v in r.states[j].tasks
    ensures v in r.states[j].volumes
  {
    InvAlways(r, j);
  }

  // ---------- continuing a run ----------

  function Last(r: Run): State
    requires r.states != []
  {
    r.states[|r.states| - 1]
  }

  ghost predicate Continues(r: Run, r': Run) {
    r.states <= r'.states && r.actions <= r'.actions
  }

  ghost const Empty: Run := Run([State(map[], {}, map[], map[], map[], map[], map[], map[], map[])], [])

  type Running = r: Run | IsRun(r) ghost witness Empty

  lemma Advance(r: Running, a: Action) returns (r': Running)
    requires Enabled(Last(r), a)
    ensures Last(r') == Apply(Last(r), a)
    ensures Continues(r, r') && r'.actions == r.actions + [a]
  {
    var next := Run(r.states + [Apply(Last(r), a)], r.actions + [a]);
    forall i: nat | i < |next.actions| ensures StepAt(next, i) {
      if i < |r.actions| {
        assert StepAt(r, i);
      }
    }
    r' := next;
  }

  // ---------- while Xen Orchestra migrates ----------

  /** Disk `u` says that it is being moved to `target`, and it is not there. */
  ghost predicate SaysMigrating(s: State, u: Uuid, target: Uuid) {
    && u in s.vdis && s.vdis[u].desc.Info? && s.vdis[u].desc.info.HasOngoingMigration() == Some(target)
    && s.vdis[u].sr != target
  }

  /** The only two pictures of a volume that XO is migrating: one disk that says so, or two disks. */
  lemma WhatMigrationLooksLike(r: Run, j: nat, v: string)
    requires IsRun(r) && j < |r.states| && v in r.states[j].tasks
    ensures var s := r.states[j]; var t := s.tasks[v];
            && v in s.volumes && s.volumes[v].handle.ByName?
            && SaysMigrating(s, t.source, t.target)
            && if t.phase.Copied?
               then forall u :: IsDisk(s, v, u) <==> u == t.source || u == t.phase.copy
               else OnlyDisk(s, v, t.source)
    ensures var t := r.states[j].tasks[v]; t.phase.Copied? ==> t.phase.copy != t.source
  {
    OnlyVolumesMigrate(r, j, v);
    VolumeInvAlways(r, j, v);
    MarkingIsReversible(r.states[j].volumes[v].info, r.states[j].tasks[v].target);
  }

  /** Looking such a volume up yields its marked source, "many", or no answer. */
  lemma LookupDuringMigration(r: Run, j: nat, v: string, pc: Pc, found: Found)
    requires IsRun(r) && j < |r.states| && v in r.states[j].tasks && v in r.states[j].volumes
    requires Resolves(r.states[j], v, pc, found)
    ensures var t := r.states[j].tasks[v];
            found == Failed || (if t.phase.Copied? then found == Many else found == One(t.source))
  {
    WhatMigrationLooksLike(r, j, v);
    var s := r.states[j];
    var t := s.tasks[v];
    assert IsDisk(s, v, t.source);
    if t.phase.Copied? {
      assert IsDisk(s, v, t.phase.copy);
    } else if found.Many? {
      var a, b :| a in s.vdis && b in s.vdis && a != b && s.vdis[a].name == Final(v) && s.vdis[b].name == Final(v);
      assert IsDisk(s, v, a) && IsDisk(s, v, b);
    }
  }

  /** While XO migrates a volume, no step attaches it, connects an attachment, resizes it, rewrites
      its description, or starts a second migration. */
  lemma MigratingVolumeIsLeftAlone(r: Run, i: nat, v: string, a: CallAction)
    requires IsRun(r) && i < |r.actions| && r.actions[i] == ByCall(v, a) && v in r.states[i].tasks
    ensures !a.Attach? && !a.Connect? && !a.Resize? && !a.Issue? && !Writes(a)
  {
    OnlyVolumesMigrate(r, i, v);
    VolumeInvAlways(r, i, v);
    assert StepAt(r, i);
  }

  /** Publishing and expanding give up on it at the lookup. */
  lemma PublishGivesUpOnMigratingVolume(r: Run, i: nat, v: string, found: Found)
    requires IsRun(r) && i < |r.actions| && r.actions[i] == ByCall(v, Find(found)) && v in r.states[i].tasks
    requires v in r.states[i].calls && (r.states[i].calls[v].PFind? || r.states[i].calls[v].EFind?)
    ensures v !in r.states[i + 1].calls && r.states[i + 1].vdis == r.states[i].vdis
            && r.states[i + 1].vbds == r.states[i].vbds
  {
    assert StepAt(r, i);
    OnlyVolumesMigrate(r, i, v);
    LookupDuringMigration(r, i, v, r.states[i].calls[v], found);
    WhatMigrationLooksLike(r, i, v);
  }

  // ---------- between migrations ----------

  /** Every volume handed out, and since neither deleted nor erased by the cleaner, has its disk:
      exactly one when XO is not migrating it. */
  lemma EveryVolumeHasItsDisk(r: Run, j: nat, v: string)
    requires IsRun(r) && j < |r.states| && v in r.states[j].volumes && v !in r.states[j].tasks
    ensures exists u :: OnlyDisk(r.states[j], v, u)
  {
    VolumeInvAlways(r, j, v);
  }

  /** Its handle, of either kind, resolves to that disk and to nothing else. */
  lemma HandleResolves(r: Run, j: nat, v: string, u: Uuid, pc: Pc, found: Found)
    requires IsRun(r) && j < |r.states| && v in r.states[j].volumes && v !in r.states[j].tasks
    requires OnlyDisk(r.states[j], v, u) && Resolves(r.states[j], v, pc, found)
    ensures found == Failed || found == One(u)
  {
    VolumeInvAlways(r, j, v);
    var s := r.states[j];
    if found.Many? {
      var a, b :| a in s.vdis && b in s.vdis && a != b && s.vdis[a].name == Final(v) && s.vdis[b].name == Final(v);
      assert IsDisk(s, v, a) && IsDisk(s, v, b);
    }
  }

  /** The step deletes the volume: a DeleteVolume call, or the cleaner on a stale listing. */
  ghost predicate Deletes(a: Action, v: string) {
    || (a.ByCall? && a.v == v && a.call.Delete? && !a.call.o.Refused?)
    || (a.ByWorld? && a.world.CleanerErases? && a.world.v == v)
  }

  lemma CallKeepsRecord(s: State, w: string, a: CallAction, v: string)
    requires CallEnabled(s, w, a) && v in s.volumes && !Deletes(ByCall(w, a), v)
    ensures v in CallEffect(s, w, a).volumes && CallEffect(s, w, a).volumes[v] == s.volumes[v]
  {
  }

  lemma XoKeepsRecords(s: State, w: string, a: XoAction)
    requires XoEnabled(s, w, a)
    ensures XoApply(s, w, a).volumes == s.volumes
  {
  }

  lemma WorldKeepsRecord(s: State, a: WorldAction, v: string)
    requires WorldEnabled(s, a) && v in s.volumes && !Deletes(ByWorld(a), v)
    ensures v in WorldApply(s, a).volumes && WorldApply(s, a).volumes[v] == s.volumes[v]
  {
  }

  lemma VolumeKept(s: State, a: Action, v: string)
    requires Enabled(s, a) && v in s.volumes && !Deletes(a, v)
    ensures v in Apply(s, a).volumes && Apply(s, a).volumes[v] == s.volumes[v]
  {
    match a
    case ByCall(w, c) => CallKeepsRecord(s, w, c, v);
    case ByXo(w, x) => XoKeepsRecords(s, w, x);
    case ByWorld(w) => WorldKeepsRecord(s, w, v);
  }

  /** A volume handed out with a uuid handle keeps that uuid until it is deleted, by DeleteVolume or by
      the cleaner on a stale listing, and is never migrated. */
  lemma {:induction false} UuidHandleIsStable(r: Run, i: nat, j: nat, v: string)
    requires IsRun(r) && i <= j < |r.states| && v in r.states[i].volumes && r.states[i].volumes[v].handle.ByUuid?
    requires forall k: nat :: i <= k < j ==> !Deletes(r.actions[k], v)
    ensures v in r.states[j].volumes && r.states[j].volumes[v] == r.states[i].volumes[v]
    ensures v !in r.states[j].tasks && OnlyDisk(r.states[j], v, r.states[i].volumes[v].handle.uuid)
    decreases j
  {
    if i < j {
      UuidHandleIsStable(r, i, j - 1, v);
      InvAlways(r, j - 1);
      assert StepAt(r, j - 1);
      VolumeKept(r.states[j - 1], r.actions[j - 1], v);
    }
    VolumeInvAlways(r, j, v);
  }

  // ---------- the marker goes only with the copy ----------

  /** The disk of `v` is marked, and it is where the mark says. */
  ghost predicate Arrived(s: State, v: string, u: Uuid) {
    IsDisk(s, v, u) && s.vdis[u].desc.Info? && s.vdis[u].desc.info.HasOngoingMigration() == Some(s.vdis[u].sr)
  }

  /** In this step XO finishes copying a disk of `v` to `sr`, as `u`. */
  ghost predicate CopyMade(s: State, a: Action, v: string, u: Uuid, sr: Uuid) {
    a == ByXo(v, Copies(u)) && v in s.tasks && s.tasks[v].target == sr
  }

  lemma ClearNeverArrives(s: State, w: string, o: Outcome, u: Uuid)
    requires CallEnabled(s, w, Clear(o)) && VolumeInv(s, w) && u == s.calls[w].u && !o.Refused?
    ensures CallEffect(s, w, Clear(o)).vdis[u].desc.info.HasOngoingMigration().None?
  {
    MarkingIsReversible(s.volumes[w].info, s.calls[w].vdi.sr);
  }

  lemma WriteNeverArrives(s: State, w: string, a: CallAction, v: string, u: Uuid)
    requires CallEnabled(s, w, a) && Writes(a) && VolumeInv(s, w) && Arrived(CallEffect(s, w, a), v, u)
    ensures Arrived(s, v, u) && CallEffect(s, w, a).vdis[u].sr == s.vdis[u].sr
  {
    if a.Clear? && !a.o.Refused? && u == s.calls[w].u { ClearNeverArrives(s, w, a.o, u); }
  }

  lemma CallNeverArrives(s: State, w: string, a: CallAction, v: string, u: Uuid)
    requires CallEnabled(s, w, a) && VolumeInv(s, w) && Arrived(CallEffect(s, w, a), v, u)
    ensures Arrived(s, v, u) && CallEffect(s, w, a).vdis[u].sr == s.vdis[u].sr
  {
    if Writes(a) { WriteNeverArrives(s, w, a, v, u); }
  }

  lemma XoArrives(s: State, w: string, a: XoAction, v: string, u: Uuid)
    requires Inv(s) && XoEnabled(s, w, a) && Arrived(XoApply(s, w, a), v, u)
    ensures var sr := XoApply(s, w, a).vdis[u].sr;
            (Arrived(s, v, u) && sr == s.vdis[u].sr) || CopyMade(s, ByXo(w, a), v, u, sr)
  {
    assert VolumeInv(s, w);
  }

  lemma WorldNeverArrives(s: State, a: WorldAction, v: string, u: Uuid)
    requires WorldEnabled(s, a) && v in WorldApply(s, a).volumes && Arrived(WorldApply(s, a), v, u)
    ensures v in s.volumes && Arrived(s, v, u) && WorldApply(s, a).vdis[u].sr == s.vdis[u].sr
  {
    if a.HandOut? {
      assert IsDisk(s, v, u);
    }
  }

  lemma LandKeepsDisks(s: State, w: string, next: Next)
    ensures Land(s, w, next).vdis == s.vdis && Land(s, w, next).volumes == s.volumes
  {
  }

  lemma CallArrives(s: State, w: string, a: CallAction, v: string, u: Uuid)
    requires Inv(s) && CallEnabled(s, w, a) && v in CallApply(s, w, a).volumes && Arrived(CallApply(s, w, a), v, u)
    ensures v in s.volumes && Arrived(s, v, u) && CallApply(s, w, a).vdis[u].sr == s.vdis[u].sr
  {
    assert VolumeInv(s, w);
    CallHandsNothingOut(s, w, a);
    LandKeepsDisks(CallEffect(s, w, a), w, CallNext(s, w, a));
    CallNeverArrives(s, w, a, v, u);
  }

  /** The disk of `v` had arrived before already, or it is this step that copies it. */
  ghost predicate ArrivesBy(s: State, a: Action, v: string, u: Uuid, sr: Uuid) {
    (v in s.volumes && Arrived(s, v, u) && sr == s.vdis[u].sr) || CopyMade(s, a, v, u, sr)
  }

  lemma ByCallArrives(s: State, w: string, c: CallAction, s': State, v: string, u: Uuid)
    requires Inv(s) && Enabled(s, ByCall(w, c)) && s' == Apply(s, ByCall(w, c)) && v in s'.volumes && Arrived(s', v, u)
    ensures ArrivesBy(s, ByCall(w, c), v, u, s'.vdis[u].sr)
  {
    CallArrives(s, w, c, v, u);
  }

  lemma ByXoArrives(s: State, w: string, x: XoAction, s': State, v: string, u: Uuid)
    requires Inv(s) && Enabled(s, ByXo(w, x)) && s' == Apply(s, ByXo(w, x)) && v in s'.volumes && Arrived(s', v, u)
    ensures ArrivesBy(s, ByXo(w, x), v, u, s'.vdis[u].sr)
  {
    XoArrives(s, w, x, v, u);
  }

  lemma ByWorldArrives(s: State, w: WorldAction, s': State, v: string, u: Uuid)
    requires Enabled(s, ByWorld(w)) && s' == Apply(s, ByWorld(w)) && v in s'.volumes && Arrived(s', v, u)
    ensures ArrivesBy(s, ByWorld(w), v, u, s'.vdis[u].sr)
  {
    WorldNeverArrives(s, w, v, u);
  }

  lemma StepArrives(s: State, a: Action, s': State, v: string, u: Uuid)
    requires Inv(s) && Enabled(s, a) && s' == Apply(s, a) && v in s'.volumes && Arrived(s', v, u)
    ensures ArrivesBy(s, a, v, u, s'.vdis[u].sr)
  {
    if a.ByCall? {
      ByCallArrives(s, a.v, a.call, s', v, u);
    } else if a.ByXo? {
      ByXoArrives(s, a.v, a.xo, s', v, u);
    } else {
      ByWorldArrives(s, a.world, s', v, u);
    }
  }

  lemma LastStepArrives(r: Run, j: nat, v: string, u: Uuid)
    requires IsRun(r) && 0 < j < |r.states| && v in r.states[j].volumes && Arrived(r.states[j], v, u)
    ensures ArrivesBy(r.states[j - 1], r.actions[j - 1], v, u, r.states[j].vdis[u].sr)
  {
    InvAlways(r, j - 1);
    assert StepAt(r, j - 1);
    StepArrives(r.states[j - 1], r.actions[j - 1], r.states[j], v, u);
  }

  /** A volume's disk that is marked for the SR it is on got there as a copy that XO made. */
  lemma {:induction false} ArrivedByCopy(r: Run, j: nat, v: string, u: Uuid) returns (k: nat)
    requires IsRun(r) && j < |r.states| && v in r.states[j].volumes && Arrived(r.states[j], v, u)
    ensures k < j && CopyMade(r.states[k], r.actions[k], v, u, r.states[j].vdis[u].sr)
    decreases j
  {
    if j == 0 {
      assert false;
    } else {
      LastStepArrives(r, j, v, u);
      if CopyMade(r.states[j - 1], r.actions[j - 1], v, u, r.states[j].vdis[u].sr) {
        k := j - 1;
      } else {
        k := ArrivedByCopy(r, j - 1, v, u);
      }
    }
  }

  /** Publishing removes a marker only from a disk that XO copied to where the marker points, and
      only when it is the one disk left. */
  lemma MarkerGoesWithTheCopy(r: Run, i: nat, v: string, a: CallAction) returns (k: nat)
    requires IsRun(r) && i < |r.actions| && r.actions[i] == ByCall(v, a) && (a.Clear? || a.Unmark?) && !a.o.Refused?
    requires v in r.states[i].calls && (r.states[i].calls[v].PClear? || r.states[i].calls[v].PUnmark?)
    ensures var u := r.states[i].calls[v].u;
            && OnlyDisk(r.states[i], v, u)
            && k < i && CopyMade(r.states[k], r.actions[k], v, u, r.states[i].vdis[u].sr)
  {
    assert StepAt(r, i);
    var s := r.states[i];
    VolumeInvAlways(r, i, v);
    var u := s.calls[v].u;
    MarkingIsReversible(s.volumes[v].info, s.vdis[u].sr);
    assert Arrived(s, v, u);
    k := ArrivedByCopy(r, i, v, u);
  }

  // ---------- attachments ----------

  /** The VM record a call works with. */
  function OnOf(pc: Pc): Option<Vm> {
    match pc
    case PCheck(on, _, _, _) => Some(on)
    case PSelect(on, _, _, _) => Some(on)
    case PCheckVbds(on, _, _, _) => Some(on)
    case PMark(on, _, _, _) => Some(on)
    case PIssue(on, _, _, _) => Some(on)
    case PWait(on, _) => Some(on)
    case PFetch(on, _, _) => Some(on)
    case PUnmark(on, _, _) => Some(on)
    case PAttach(on, _) => Some(on)
    case _ => None
  }

  ghost predicate Holds(s: State, v: string, on: Vm) {
    v in s.calls && OnOf(s.calls[v]) == Some(on)
  }

  /** In this step the call of `v` reads the VM record `on`. */
  ghost predicate ReadsVm(s: State, a: Action, v: string, on: Vm) {
    && a == ByCall(v, GetVm(true)) && v in s.calls && s.calls[v].PGetVm?
    && s.calls[v].vm in s.vms && s.vms[s.calls[v].vm] == on
  }

  lemma NextHoldsVm(s: State, w: string, a: CallAction, on: Vm)
    requires CallEnabled(s, w, a) && CallNext(s, w, a).Go? && OnOf(CallNext(s, w, a).pc) == Some(on)
    ensures Holds(s, w, on) || ReadsVm(s, ByCall(w, a), w, on)
  {
  }

  lemma EffectKeepsCalls(s: State, w: string, a: CallAction)
    requires CallEnabled(s, w, a)
    ensures CallEffect(s, w, a).calls == s.calls
  {
  }

  lemma LandHoldsVm(s: State, w: string, next: Next, v: string, on: Vm)
    requires Holds(Land(s, w, next), v, on)
    ensures if w == v then next.Go? && OnOf(next.pc) == Some(on) else Holds(s, v, on)
  {
  }

  lemma CallHoldsVm(s: State, w: string, a: CallAction, v: string, on: Vm)
    requires CallEnabled(s, w, a) && Holds(Land(CallEffect(s, w, a), w, CallNext(s, w, a)), v, on)
    ensures Holds(s, v, on) || ReadsVm(s, ByCall(w, a), v, on)
  {
    EffectKeepsCalls(s, w, a);
    LandHoldsVm(CallEffect(s, w, a), w, CallNext(s, w, a), v, on);
    if w == v { NextHoldsVm(s, v, a, on); }
  }

  lemma XoHoldsVm(s: State, w: string, a: XoAction, v: string, on: Vm)
    requires XoEnabled(s, w, a) && Holds(XoApply(s, w, a), v, on)
    ensures Holds(s, v, on)
  {
  }

  lemma WorldHoldsVm(s: State, a: WorldAction, v: string, on: Vm)
    requires WorldEnabled(s, a) && Holds(WorldApply(s, a), v, on)
    ensures Holds(s, v, on)
  {
  }

  lemma StepHoldsVm(s: State, a: Action, v: string, on: Vm)
    requires Enabled(s, a) && Holds(Apply(s, a), v, on)
    ensures Holds(s, v, on) || ReadsVm(s, a, v, on)
  {
    match a
    case ByCall(w, c) => CallHoldsVm(s, w, c, v, on);
    case ByXo(w, x) => XoHoldsVm(s, w, x, v, on);
    case ByWorld(w) => WorldHoldsVm(s, w, v, on);
  }

  lemma {:induction false} HeldVmWasRead(r: Run, j: nat, v: string, on: Vm) returns (k: nat)
    requires IsRun(r) && j < |r.states| && Holds(r.states[j], v, on)
    ensures k < j && ReadsVm(r.states[k], r.actions[k], v, on)
    decreases j
  {
    if j == 0 {
      assert false;
    } else {
      assert StepAt(r, j - 1);
      StepHoldsVm(r.states[j - 1], r.actions[j - 1], v, on);
      if Holds(r.states[j - 1], v, on) {
        k := HeldVmWasRead(r, j - 1, v, on);
      } else {
        k := j - 1;
      }
    }
  }

  /** Every attachment the driver makes is of the one disk of the volume, unmarked, on an SR that
      serves the VM (its host for a local SR, its pool for a shared one) as XO described the VM to
      this call; XO is not migrating the disk at that moment. */
  lemma NewAttachmentServesItsVm(r: Run, i: nat, v: string, b: Uuid, device: string, o: Outcome) returns (k: nat)
    requires IsRun(r) && i < |r.actions| && r.actions[i] == ByCall(v, Attach(b, device, o)) && !o.Refused?
    ensures var s := r.states[i];
            && v in s.volumes && v !in s.tasks && v in s.calls && s.calls[v].PAttach?
            && var on, u := s.calls[v].on, s.calls[v].u;
            && b !in s.vbds && r.states[i + 1].vbds == s.vbds[b := Vbd(on.uuid, u, device, true)]
            && OnlyDisk(s, v, u) && Plain(s, u, s.volumes[v].info) && Serves(s, u, on)
            && k < i && ReadsVm(r.states[k], r.actions[k], v, on)
  {
    assert StepAt(r, i);
    var s := r.states[i];
    VolumeInvAlways(r, i, v);
    assert v !in s.tasks;
    k := HeldVmWasRead(r, i, v, s.calls[v].on);
  }

  // ---------- expansions ----------

  /** The size a call expands its volume to. */
  function SizeOf(pc: Pc): Option<int> {
    match pc
    case EFind(size) => Some(size)
    case EResize(_, size) => Some(size)
    case _ => None
  }

  ghost predicate Expands(s: State, v: string, size: int) {
    v in s.calls && SizeOf(s.calls[v]) == Some(size)
  }

  /** In this step a call begins that asks for `size`. */
  predicate AsksFor(a: Action, v: string, size: int) {
    a == ByCall(v, Begin(EFind(size)))
  }

  lemma CallExpands(s: State, w: string, a: CallAction, v: string, size: int)
    requires CallEnabled(s, w, a) && Expands(Land(CallEffect(s, w, a), w, CallNext(s, w, a)), v, size)
    ensures Expands(s, v, size) || AsksFor(ByCall(w, a), v, size)
  {
    EffectKeepsCalls(s, w, a);
  }

  lemma XoExpands(s: State, w: string, a: XoAction, v: string, size: int)
    requires XoEnabled(s, w, a) && Expands(XoApply(s, w, a), v, size)
    ensures Expands(s, v, size)
  {
  }

  lemma WorldExpands(s: State, a: WorldAction, v: string, size: int)
    requires WorldEnabled(s, a) && Expands(WorldApply(s, a), v, size)
    ensures Expands(s, v, size)
  {
  }

  lemma StepExpands(s: State, a: Action, v: string, size: int)
    requires Enabled(s, a) && Expands(Apply(s, a), v, size)
    ensures Expands(s, v, size) || AsksFor(a, v, size)
  {
    match a
    case ByCall(w, c) => CallExpands(s, w, c, v, size);
    case ByXo(w, x) => XoExpands(s, w, x, v, size);
    case ByWorld(w) => WorldExpands(s, w, v, size);
  }

  /** The size was asked for when the call began. */
  lemma {:induction false} SizeWasAskedFor(r: Run, j: nat, v: string, size: int) returns (k: nat)
    requires IsRun(r) && j < |r.states| && Expands(r.states[j], v, size)
    ensures k < j && AsksFor(r.actions[k], v, size)
    ensures forall i :: k < i <= j ==> Expands(r.states[i], v, size)
    decreases j
  {
    if j == 0 {
      assert false;
    } else {
      assert StepAt(r, j - 1);
      StepExpands(r.states[j - 1], r.actions[j - 1], v, size);
      if Expands(r.states[j - 1], v, size) {
        k := SizeWasAskedFor(r, j - 1, v, size);
      } else {
        k := j - 1;
      }
    }
  }

  lemma ResizeDisks(s: State, v: string, o: Outcome)
    requires CallEnabled(s, v, Resize(o)) && v !in s.tasks && OnlyDisk(s, v, s.calls[v].u)
    ensures var u, s' := s.calls[v].u, CallApply(s, v, Resize(o));
            && OnlyDisk(s', v, u)
            && s'.vdis[u] == Vdi(s.vdis[u].name, s.vdis[u].desc, if o.Refused? then s.vdis[u].size else s.calls[v].size,
                                 s.vdis[u].sr)
            && s'.vdis.Keys == s.vdis.Keys && (forall w :: w in s.vdis && w != u ==> s'.vdis[w] == s.vdis[w])
            && s'.volumes == s.volumes && s'.vbds == s.vbds && s'.tasks == s.tasks
  {
    assert forall w :: IsDisk(CallApply(s, v, Resize(o)), v, w) <==> IsDisk(s, v, w);
  }

  /** Unless XO refuses, an expansion leaves the one disk of the volume with the size that its call asked
      for, on its SR, with its name and description; whatever XO answers, nothing else changes. */
  lemma ExpansionResizes(r: Run, i: nat, v: string, o: Outcome) returns (u: Uuid, size: int, k: nat)
    requires IsRun(r) && i < |r.actions| && r.actions[i] == ByCall(v, Resize(o))
    ensures k < i && AsksFor(r.actions[k], v, size) && forall j :: k < j <= i ==> Expands(r.states[j], v, size)
    ensures var s, s' := r.states[i], r.states[i + 1];
            && v in s.volumes && v !in s.tasks && OnlyDisk(s, v, u) && OnlyDisk(s', v, u)
            && s'.vdis[u] == Vdi(s.vdis[u].name, s.vdis[u].desc, if o.Refused? then s.vdis[u].size else size,
                                 s.vdis[u].sr)
            && s'.vdis.Keys == s.vdis.Keys && (forall w :: w in s.vdis && w != u ==> s'.vdis[w] == s.vdis[w])
            && s'.volumes == s.volumes && s'.vbds == s.vbds && s'.tasks == s.tasks
  {
    assert StepAt(r, i);
    var s := r.states[i];
    VolumeInvAlways(r, i, v);
    assert v !in s.tasks;
    u, size := s.calls[v].u, s.calls[v].size;
    k := SizeWasAskedFor(r, i, v, size);
    ResizeDisks(s, v, o);
  }

  // ---------- what was checked can change before it is used ----------

  lemma Advances(r: Running, world: WorldAction, v: string, a: CallAction) returns (r': Running)
    requires WorldEnabled(Last(r), world) && CallEnabled(WorldApply(Last(r), world), v, a)
    ensures Continues(r, r') && Last(r') == CallApply(WorldApply(Last(r), world), v, a)
  {
    r' := Advance(r, ByWorld(world));
    r' := Advance(r', ByCall(v, a));
  }

  /** The VM that a disk is about to be attached to may have moved by then: to any host, so the new
      attachment serves it as XO described it to the call, and need not serve it where it is. */
  lemma VmCanMoveAway(r: Running, v: string, on: Vm, u: Uuid, vm: Vm, b: Uuid) returns (r': Running)
    requires v in Last(r).volumes && v in Last(r).calls && Last(r).calls[v] == PAttach(on, u)
    requires PlacedVm(Last(r), vm) && vm.uuid == on.uuid && !Serves(Last(r), u, vm) && b !in Last(r).vbds
    ensures Continues(r, r')
    ensures var s := Last(r');
            && b in s.vbds && s.vbds[b].vdi == u && s.vbds[b].vm == vm.uuid
            && vm.uuid in s.vms && s.vms[vm.uuid] == vm && !Serves(s, u, vm)
  {
    VolumeInvAlways(r, |r.states| - 1, v);
    r' := Advances(r, MoveVm(vm.uuid, vm), v, Attach(b, "xvda", Done));
  }

  /** The disk that is about to be migrated may have been attached since the driver looked, by somebody
      else, and its target may have filled up. */
  lemma DiskCanBeAttachedMeanwhile(r: Running, v: string, on: Vm, u: Uuid, info: StorageInfo, target: Uuid, b: Uuid,
                                   vbd: Vbd)
    returns (r': Running)
    requires v in Last(r).volumes && v in Last(r).calls && Last(r).calls[v] == PIssue(on, u, info, target)
             && vbd.vdi == u
    ensures Continues(r, r')
    ensures var s := Last(r'); v in s.tasks && s.tasks[v] == Task(u, target, Queued) && b in s.vbds && s.vbds[b] == vbd
  {
    VolumeInvAlways(r, |r.states| - 1, v);
    r' := Advances(r, PutVbd(b, vbd), v, Issue(true));
  }

  lemma TargetCanFillUp(r: Running, v: string, on: Vm, u: Uuid, info: StorageInfo, target: Uuid, usage: int)
    returns (r': Running)
    requires v in Last(r).volumes && v in Last(r).calls && Last(r).calls[v] == PIssue(on, u, info, target)
    ensures Continues(r, r')
    ensures var s := Last(r');
            v in s.tasks && s.tasks[v] == Task(u, target, Queued) && target in s.srs && s.srs[target].usage == usage
  {
    VolumeInvAlways(r, |r.states| - 1, v);
    r' := Advances(r, SetUsage(target, usage), v, Issue(true));
  }
}

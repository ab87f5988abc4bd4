/** What the creation protocol guarantees over whole runs. */
module CreationRuns {
  import opened Wrappers
  import opened DiskNames
  import opened Metadata
  import opened Xo
  import opened CreationProtocol
  import opened CreationSafety

  lemma {:induction false} InvAlways(r: Run, j: nat)
    requires IsRun(r) && j < |r.states|
    ensures Inv(r.states[j])
  {
    if j == 0 {
      InitialInv(r.states[0]);
    } else {
      InvAlways(r, j - 1);
      assert StepAt(r, j - 1);
      StepKeepsInv(r.states[j - 1], r.actions[j - 1]);
    }
  }

  // ---------- continuing a run ----------

  function Last(r: Run): State
    requires r.states != []
  {
    r.states[|r.states| - 1]
  }

  ghost predicate Continues(r: Run, r': Run) {
    r.states <= r'.states && r.actions <= r'.actions
  }

  /** The run of a driver that has just started over an empty pool. */
  ghost const Idle: Run :=
    Run([State(map[], {}, map[], map[], 0, map[], {}, {}, false, Sleeping, map[], 0, {})], [])

  type Running = r: Run | IsRun(r) ghost witness Idle

  lemma Advance(r: Running, a: Action) returns (r': Running)
    requires Enabled(Last(r), a)
    ensures Last(r') == Apply(Last(r), a)
    ensures Continues(r, r') && r'.actions == r.actions + [a]
  {
    var next := Run(r.states + [Apply(Last(r), a)], r.actions + [a]);
    forall i: nat | i < |next.actions| ensures StepAt(next, i) {
      if i < |r.actions| {
        assert StepAt(r, i);
      }
    }
    r' := next;
  }

  // ---------- how one disk changes in one step ----------

  /** The step gives disk `u` its final name. */
  ghost predicate RenamesDisk(s: State, a: Action, u: Uuid) {
    a.ByCall? && a.call.Rename? && !a.call.o.Refused? && a.v in s.calls && s.calls[a.v].pc == AtRename(u)
  }

  /** The step writes a deletion mark on disk `u`. */
  ghost predicate MarksDisk(s: State, a: Action, u: Uuid) {
    && a.ByCleaner? && a.clean.Mark? && !a.clean.o.Refused?
    && s.cleaner.Marking? && s.cleaner.i < |s.cleaner.list| && s.cleaner.list[s.cleaner.i].uuid == u
  }

  /** The cleaner deletes disk `u` in this step. */
  ghost predicate ErasesDisk(s: State, a: Action, u: Uuid) {
    && a.ByCleaner? && a.clean.Erase? && !a.clean.o.Refused?
    && s.cleaner.Erasing? && s.cleaner.i < |s.cleaner.list| && s.cleaner.list[s.cleaner.i].uuid == u
  }

  /** Uuids are never reused; a disk changes name only from temporary to final, by a rename; and a
      temporary disk gets a mark only from the cleaner. */
  ghost predicate Evolves(s: State, a: Action, s': State, u: Uuid) {
    && s.used <= s'.used
    && (u in s'.vdis && u !in s.vdis ==>
          u !in s.used && (s'.vdis[u].name.Temporary? ==> s'.vdis[u].desc.NoMetadata?))
    && (u in s.vdis && u in s'.vdis ==>
          && (if RenamesDisk(s, a, u)
              then s.vdis[u].name == Temporary(a.v) && s'.vdis[u].name == Final(a.v)
                && s'.vdis[u].desc == NoMetadata("")
              else s'.vdis[u].name == s.vdis[u].name || s.vdis[u].name.Foreign?)
          && (s.vdis[u].name.Foreign? ==> s'.vdis[u].name.Foreign?)
          && (s'.vdis[u].name.Temporary? && s'.vdis[u].desc != s.vdis[u].desc ==>
                MarksDisk(s, a, u) && s'.vdis[u].desc == Candidate(s.cleaner.stamp)))
  }

  lemma RenameEvolves(s: State, v: string, o: Outcome, u: Uuid)
    requires DiskInv(s) && CallEnabled(s, v, Rename(o))
    ensures Evolves(s, ByCall(v, Rename(o)), CallApply(s, v, Rename(o)), u)
  {
  }

  lemma WriteInfoEvolves(s: State, v: string, a: CallAction, u: Uuid)
    requires DiskInv(s) && CallEnabled(s, v, a) && a.WriteInfo?
    ensures Evolves(s, ByCall(v, a), CallApply(s, v, a), u)
  {
  }

  lemma DeleteSpareEvolves(s: State, v: string, a: CallAction, u: Uuid)
    requires CallEnabled(s, v, a) && a.DeleteSpare?
    ensures Evolves(s, ByCall(v, a), CallApply(s, v, a), u)
  {
  }

  lemma OtherEffectKeepsDisks(s: State, v: string, a: CallAction)
    requires CallEnabled(s, v, a) && !a.Rename? && !a.WriteInfo? && !a.DeleteSpare?
    ensures CallEffect(s, v, a).vdis == s.vdis && CallEffect(s, v, a).used == s.used && v in CallEffect(s, v, a).calls
  {
  }

  lemma LandKeepsDisks(s: State, v: string, next: Next)
    requires v in s.calls
    ensures Land(s, v, next).vdis == s.vdis && Land(s, v, next).used == s.used
  {
  }

  lemma SameDisksEvolve(s: State, a: Action, s': State, u: Uuid)
    requires s'.vdis == s.vdis && s'.used == s.used && !RenamesDisk(s, a, u)
    ensures Evolves(s, a, s', u)
  {
  }

  lemma OtherCallEvolves(s: State, v: string, a: CallAction, u: Uuid)
    requires CallEnabled(s, v, a) && !a.Rename? && !a.WriteInfo? && !a.DeleteSpare?
    ensures Evolves(s, ByCall(v, a), CallApply(s, v, a), u)
  {
    OtherEffectKeepsDisks(s, v, a);
    LandKeepsDisks(CallEffect(s, v, a), v, CallNext(s, v, a));
    SameDisksEvolve(s, ByCall(v, a), CallApply(s, v, a), u);
  }

  lemma CallEvolves(s: State, v: string, a: CallAction, u: Uuid)
    requires DiskInv(s) && CallEnabled(s, v, a)
    ensures Evolves(s, ByCall(v, a), CallApply(s, v, a), u)
  {
    if a.Rename? { RenameEvolves(s, v, a.o, u); }
    else if a.WriteInfo? { WriteInfoEvolves(s, v, a, u); }
    else if a.DeleteSpare? { DeleteSpareEvolves(s, v, a, u); }
    else { OtherCallEvolves(s, v, a, u); }
  }

  lemma CleanerEvolves(s: State, a: CleanerAction, u: Uuid)
    requires Inv(s) && CleanerEnabled(s, a)
    ensures Evolves(s, ByCleaner(a), CleanerApply(s, a), u)
  {
  }

  lemma WorldEvolves(s: State, a: WorldAction, u: Uuid)
    requires Inv(s) && WorldEnabled(s, a)
    ensures Evolves(s, ByWorld(a), WorldApply(s, a), u)
  {
  }

  lemma StepEvolves(s: State, a: Action, u: Uuid)
    requires Inv(s) && Enabled(s, a)
    ensures Evolves(s, a, Apply(s, a), u)
  {
    match a
    case ByCall(v, c) => CallEvolves(s, v, c, u);
    case ByCleaner(c) => CleanerEvolves(s, c, u);
    case ByWorld(w) => WorldEvolves(s, w, u);
  }

  lemma EvolvesAt(r: Run, j: nat, u: Uuid)
    requires IsRun(r) && j < |r.actions|
    ensures Evolves(r.states[j], r.actions[j], r.states[j + 1], u)
    ensures u in r.states[j].vdis ==> u in r.states[j].used
  {
    InvAlways(r, j);
    assert StepAt(r, j);
    StepEvolves(r.states[j], r.actions[j], u);
  }

  // ---------- what each kind of step leaves alone ----------

  lemma EffectFrame(s: State, v: string, a: CallAction)
    requires CallEnabled(s, v, a)
    ensures var s' := CallEffect(s, v, a);
            s'.cleaner == s.cleaner && s'.firstSeen == s.firstSeen && s'.writer == s.writer && s'.now == s.now
    ensures var s' := CallEffect(s, v, a); a.Begin? || (s'.calls == s.calls && s'.volumes == s.volumes)
  {
  }

  lemma CallKeepsCleaner(s: State, v: string, a: CallAction)
    requires CallEnabled(s, v, a)
    ensures var s' := CallApply(s, v, a); s'.cleaner == s.cleaner && s'.firstSeen == s.firstSeen && s'.now == s.now
  {
    EffectFrame(s, v, a);
  }

  lemma LandFrame(s: State, v: string, next: Next, w: string)
    requires v in s.calls && w != v
    ensures var s' := Land(s, v, next);
            (w in s'.calls <==> w in s.calls) && (w in s.calls ==> s'.calls[w] == s.calls[w])
  {
  }

  lemma CallKeepsOthers(s: State, v: string, a: CallAction, w: string)
    requires CallEnabled(s, v, a) && w != v
    ensures var s' := CallApply(s, v, a);
            (w in s'.calls <==> w in s.calls) && (w in s.calls ==> s'.calls[w] == s.calls[w])
  {
    EffectFrame(s, v, a);
    LandFrame(CallEffect(s, v, a), v, CallNext(s, v, a), w);
  }

  lemma CleanerFrame(s: State, a: CleanerAction)
    requires CleanerEnabled(s, a)
    ensures var s' := CleanerApply(s, a);
            s'.calls == s.calls && s'.orders == s.orders && s'.now == s.now && s'.used == s.used
  {
  }

  lemma WorldFrame(s: State, a: WorldAction)
    requires WorldEnabled(s, a)
    ensures var s' := WorldApply(s, a);
            if a.Restart? then s'.calls == map[] && s'.cleaner == Sleeping && s'.firstSeen == map[]
            else s'.calls == s.calls && s'.cleaner == s.cleaner && s'.firstSeen == s.firstSeen
  {
  }

  // ---------- how one disk changes in a run ----------

  /** A deleted disk never comes back. */
  lemma {:induction false} NoResurrection(r: Run, i: nat, j: nat, u: Uuid)
    requires IsRun(r) && i <= j < |r.states|
    requires u in r.states[i].used && u !in r.states[i].vdis
    ensures u in r.states[j].used && u !in r.states[j].vdis
    decreases j
  {
    if i < j {
      NoResurrection(r, i, j - 1, u);
      EvolvesAt(r, j - 1, u);
    }
  }

  /** A disk that is there early and late is there all the time between. */
  lemma ThereBetween(r: Run, i: nat, l: nat, j: nat, u: Uuid)
    requires IsRun(r) && i <= l <= j < |r.states|
    requires u in r.states[i].vdis && u in r.states[j].vdis
    ensures u in r.states[l].vdis
  {
    InvAlways(r, i);
    UsedGrows(r, i, l, u);
    if u !in r.states[l].vdis {
      NoResurrection(r, l, j, u);
    }
  }

  lemma {:induction false} UsedGrows(r: Run, i: nat, j: nat, u: Uuid)
    requires IsRun(r) && i <= j < |r.states| && u in r.states[i].used
    ensures u in r.states[j].used
    decreases j
  {
    if i < j {
      UsedGrows(r, i, j - 1, u);
      EvolvesAt(r, j - 1, u);
    }
  }

  /** Once a disk has its final name, it keeps it, and no mark ever follows. */
  lemma {:induction false} FinalForever(r: Run, i: nat, j: nat, u: Uuid)
    requires IsRun(r) && i <= j < |r.states|
    requires u in r.states[i].vdis && r.states[i].vdis[u].name.Final? && u in r.states[j].vdis
    ensures r.states[j].vdis[u].name == r.states[i].vdis[u].name
    ensures !r.states[j].vdis[u].desc.Candidate?
    decreases j
  {
    InvAlways(r, j);
    if i < j {
      ThereBetween(r, i, j - 1, j, u);
      FinalForever(r, i, j - 1, u);
      EvolvesAt(r, j - 1, u);
    }
  }

  /** A temporary disk is still under its temporary name exactly when no rename hit it. */
  lemma {:induction false} TemporaryUnlessRenamed(r: Run, i: nat, j: nat, u: Uuid)
    requires IsRun(r) && i <= j < |r.states|
    requires u in r.states[i].vdis && r.states[i].vdis[u].name.Temporary? && u in r.states[j].vdis
    ensures r.states[j].vdis[u].name.Temporary? <==>
            forall m :: i <= m < j ==> !RenamesDisk(r.states[m], r.actions[m], u)
    ensures r.states[j].vdis[u].name == r.states[i].vdis[u].name
            || r.states[j].vdis[u].name == Final(r.states[i].vdis[u].name.volume)
    decreases j
  {
    if i < j {
      ThereBetween(r, i, j - 1, j, u);
      TemporaryUnlessRenamed(r, i, j - 1, u);
      EvolvesAt(r, j - 1, u);
    }
  }

  // ---------- finished disks are never marked ----------

  lemma FinalsNeverMarked(r: Run, j: nat)
    requires IsRun(r) && j < |r.states|
    ensures FinalsUnmarked(r.states[j].vdis)
  {
    InvAlways(r, j);
  }

  lemma FetchFollowsRename(s: State, a: CallAction, v: string, u: Uuid)
    requires CallEnabled(s, v, a) && CallNext(s, v, a) == Go(AtFetch(u))
    ensures a == Rename(Done) && RenamesDisk(s, ByCall(v, a), u)
  {
  }

  lemma LandsAt(s: State, v: string, next: Next, pc: Pc)
    requires v in s.calls && v in Land(s, v, next).calls && Land(s, v, next).calls[v].pc == pc
    ensures next == Go(pc)
  {
  }

  lemma FetchSince(s: State, a: Action, v: string, u: Uuid)
    requires Enabled(s, a)
    requires var s' := Apply(s, a); v in s'.calls && s'.calls[v].pc == AtFetch(u)
    ensures (v in s.calls && s.calls[v].pc == AtFetch(u)) || (a == ByCall(v, Rename(Done)) && RenamesDisk(s, a, u))
  {
    match a
    case ByCall(w, c) =>
      if w == v {
        LandsAt(CallEffect(s, v, c), v, CallNext(s, v, c), AtFetch(u));
        FetchFollowsRename(s, c, v, u);
      } else {
        CallKeepsOthers(s, w, c, v);
      }
    case ByCleaner(c) => CleanerFrame(s, c);
    case ByWorld(w) => WorldFrame(s, w);
  }

  /** Every createDisk that succeeds has renamed its disk to the final name and cleared its
      description, and from then on the disk, as long as it exists, keeps that name and is never
      marked. */
  lemma {:induction false} SuccessfulCreateRenamed(r: Run, j: nat, v: string, u: Uuid) returns (i: nat)
    requires IsRun(r) && j < |r.states|
    requires v in r.states[j].calls && r.states[j].calls[v].pc == AtFetch(u)
    ensures i < j && r.actions[i] == ByCall(v, Rename(Done)) && RenamesDisk(r.states[i], r.actions[i], u)
    ensures u in r.states[i + 1].vdis && r.states[i + 1].vdis[u].name == Final(v)
            && r.states[i + 1].vdis[u].desc == NoMetadata("")
    ensures forall k :: i < k < |r.states| && u in r.states[k].vdis ==>
              r.states[k].vdis[u].name == Final(v) && !r.states[k].vdis[u].desc.Candidate?
  {
    assert StepAt(r, j - 1);
    FetchSince(r.states[j - 1], r.actions[j - 1], v, u);
    if v in r.states[j - 1].calls && r.states[j - 1].calls[v].pc == AtFetch(u) {
      i := SuccessfulCreateRenamed(r, j - 1, v, u);
    } else {
      i := j - 1;
      EvolvesAt(r, i, u);
      forall k | i < k < |r.states| && u in r.states[k].vdis
        ensures r.states[k].vdis[u].name == Final(v) && !r.states[k].vdis[u].desc.Candidate?
      {
        FinalForever(r, i + 1, k, u);
      }
    }
  }

  // ---------- the history of a deletion ----------

  lemma ListKept(s: State, a: CleanerAction)
    requires CleanerEnabled(s, a) && !CleanerApply(s, a).cleaner.Sleeping?
    ensures if s.cleaner.Sleeping? then a == List(Some(CleanerApply(s, a).cleaner.list))
            && ListsAll(s.vdis, a.list.value)
            else CleanerApply(s, a).cleaner.list == s.cleaner.list
  {
  }

  lemma CleanerListStep(s: State, a: Action)
    requires Enabled(s, a) && !Apply(s, a).cleaner.Sleeping?
    ensures if s.cleaner.Sleeping? then a == ByCleaner(List(Some(Apply(s, a).cleaner.list)))
            && ListsAll(s.vdis, a.clean.list.value)
            else Apply(s, a).cleaner.list == s.cleaner.list
  {
    match a
    case ByCall(v, c) => CallKeepsCleaner(s, v, c);
    case ByCleaner(c) => ListKept(s, c);
    case ByWorld(w) => WorldFrame(s, w);
  }

  /** The snapshot the cleaner works on is the last listing it took. */
  lemma {:induction false} SnapshotTaken(r: Run, j: nat) returns (k: nat)
    requires IsRun(r) && j < |r.states| && !r.states[j].cleaner.Sleeping?
    ensures k < j && r.actions[k] == ByCleaner(List(Some(r.states[j].cleaner.list)))
    ensures ListsAll(r.states[k].vdis, r.states[j].cleaner.list)
    ensures forall m :: k < m <= j ==>
              !r.states[m].cleaner.Sleeping? && r.states[m].cleaner.list == r.states[j].cleaner.list
  {
    assert StepAt(r, j - 1);
    CleanerListStep(r.states[j - 1], r.actions[j - 1]);
    if r.states[j - 1].cleaner.Sleeping? {
      k := j - 1;
    } else {
      k := SnapshotTaken(r, j - 1);
    }
  }

  /** The cleaner's first sighting of disk `u`. */
  ghost predicate Sights(s: State, a: Action, u: Uuid) {
    && a == ByCleaner(Inspect) && s.cleaner.Scanning? && s.cleaner.i < |s.cleaner.list|
    && s.cleaner.list[s.cleaner.i].uuid == u && u !in s.firstSeen
  }

  lemma SightedNow(s: State, a: CleanerAction, u: Uuid)
    requires CleanerEnabled(s, a) && u in CleanerApply(s, a).firstSeen
    ensures if u in s.firstSeen then CleanerApply(s, a).firstSeen[u] == s.firstSeen[u]
            else Sights(s, ByCleaner(a), u) && CleanerApply(s, a).firstSeen[u] == s.now
  {
  }

  lemma FirstSeenStep(s: State, a: Action, u: Uuid)
    requires Enabled(s, a) && u in Apply(s, a).firstSeen
    ensures a != ByWorld(Restart)
    ensures if u in s.firstSeen then Apply(s, a).firstSeen[u] == s.firstSeen[u]
            else Sights(s, a, u) && Apply(s, a).firstSeen[u] == s.now
  {
    match a
    case ByCall(v, c) => CallKeepsCleaner(s, v, c);
    case ByCleaner(c) => SightedNow(s, c, u);
    case ByWorld(w) => WorldFrame(s, w);
  }

  /** What `firstSeen` holds is the time of a sighting by this very process. */
  lemma {:induction false} SightingOf(r: Run, j: nat, u: Uuid) returns (f: nat)
    requires IsRun(r) && j < |r.states| && u in r.states[j].firstSeen
    ensures f < j && Sights(r.states[f], r.actions[f], u) && r.states[f].now == r.states[j].firstSeen[u]
    ensures forall m :: f <= m < j ==> r.actions[m] != ByWorld(Restart)
  {
    assert StepAt(r, j - 1);
    FirstSeenStep(r.states[j - 1], r.actions[j - 1], u);
    if u in r.states[j - 1].firstSeen {
      f := SightingOf(r, j - 1, u);
    } else {
      f := j - 1;
    }
  }

  /** A mark on a temporary disk was there from the start or was written in this run. */
  lemma {:induction false} MarkingOf(r: Run, j: nat, u: Uuid) returns (m: nat)
    requires IsRun(r) && j < |r.states|
    requires u in r.states[j].vdis && r.states[j].vdis[u].name.Temporary? && r.states[j].vdis[u].desc.Candidate?
    ensures m <= j
    ensures m == j ==> u in r.states[0].vdis && r.states[0].vdis[u].desc == r.states[j].vdis[u].desc
    ensures m < j ==>
              && MarksDisk(r.states[m], r.actions[m], u)
              && Candidate(r.states[m].cleaner.stamp) == r.states[j].vdis[u].desc
    decreases j
  {
    if j == 0 {
      m := 0;
    } else {
      EvolvesAt(r, j - 1, u);
      var s := r.states[j - 1];
      if MarksDisk(s, r.actions[j - 1], u) && Candidate(s.cleaner.stamp) == r.states[j].vdis[u].desc {
        m := j - 1;
      } else {
        m := MarkingOf(r, j - 1, u);
        if m == j - 1 { m := j; }
      }
    }
  }

  /** Everything known about a deletion by the cleaner. `k` is the listing it acts on. In that
      listing the disk was temporary, with a mark more than 30 minutes old by now, and it had never
      had a final name. */
  lemma DeletionHistory(r: Run, j: nat, u: Uuid) returns (k: nat)
    requires IsRun(r) && j < |r.actions| && ErasesDisk(r.states[j], r.actions[j], u)
    ensures k < j && r.actions[k] == ByCleaner(List(Some(r.states[j].cleaner.list)))
    ensures u in r.states[k].vdis && r.states[k].vdis[u].name.Temporary? && r.states[k].vdis[u].desc.Candidate?
    ensures r.states[k].vdis[u].desc.unusedSince + 30 * MINUTE < r.states[j].now
    ensures forall i :: 0 <= i <= k && u in r.states[i].vdis ==> !r.states[i].vdis[u].name.Final?
  {
    k := SnapshotTaken(r, j);
    InvAlways(r, j);
    forall i | 0 <= i <= k && u in r.states[i].vdis ensures !r.states[i].vdis[u].name.Final? {
      if r.states[i].vdis[u].name.Final? {
        FinalForever(r, i, k, u);
      }
    }
  }

  /** From its first sighting on, a disk that is still there is in every listing. */
  lemma ListedBetween(r: Run, f: nat, k: nat, u: Uuid)
    requires IsRun(r) && f <= k < |r.actions| && u in r.states[k].vdis && Sights(r.states[f], r.actions[f], u)
    ensures forall l, list: seq<Entry> :: f <= l <= k && r.actions[l] == ByCleaner(List(Some(list))) ==>
              exists i :: 0 <= i < |list| && list[i].uuid == u
  {
    var k0 := SnapshotTaken(r, f);
    var s0 := r.states[f];
    assert s0.cleaner.list[s0.cleaner.i].uuid == u;
    forall l, list: seq<Entry> | f <= l <= k && r.actions[l] == ByCleaner(List(Some(list)))
      ensures exists i :: 0 <= i < |list| && list[i].uuid == u
    {
      ThereBetween(r, k0, l, k, u);
      assert StepAt(r, l);
    }
  }

  /** The mark behind a deletion, unless it is older than the run: this process or an earlier one
      first saw the disk at `f`, marked it at `m` without a restart in between, and the disk was in
      every listing taken from the one before `f` to the one acted on. More than 10 minutes passed
      before the mark, more than 40 before the deletion. */
  lemma MarkHistory(r: Run, j: nat, u: Uuid) returns (f: nat, m: nat, k: nat)
    requires IsRun(r) && j < |r.actions| && ErasesDisk(r.states[j], r.actions[j], u)
    ensures k < j && r.actions[k] == ByCleaner(List(Some(r.states[j].cleaner.list)))
    ensures u in r.states[k].vdis && r.states[k].vdis[u].desc.Candidate?
    ensures m <= k
    ensures m == k ==> u in r.states[0].vdis && r.states[0].vdis[u].desc == r.states[k].vdis[u].desc
    ensures m < k ==> f < m && Sights(r.states[f], r.actions[f], u) && MarksDisk(r.states[m], r.actions[m], u)
    ensures m < k ==> forall i :: f <= i < m ==> r.actions[i] != ByWorld(Restart)
    ensures m < k ==> r.states[f].now + 10 * MINUTE < r.states[m].now
    ensures m < k ==> r.states[f].now + 40 * MINUTE < r.states[j].now
    ensures m < k ==> forall l, list: seq<Entry> :: f <= l <= k && r.actions[l] == ByCleaner(List(Some(list))) ==>
                        exists i :: 0 <= i < |list| && list[i].uuid == u
  {
    k := DeletionHistory(r, j, u);
    m := MarkingOf(r, k, u);
    f := 0;
    if m < k {
      InvAlways(r, m);
      f := SightingOf(r, m, u);
      ListedBetween(r, f, k, u);
    }
  }

  /** What the cleaner deletes is still temporary at that moment exactly when no createDisk renamed
      it after the listing. */
  lemma ErasesTemporaryExactlyWhen(r: Run, j: nat, u: Uuid) returns (k: nat)
    requires IsRun(r) && j < |r.actions| && ErasesDisk(r.states[j], r.actions[j], u)
    ensures k < j && r.actions[k] == ByCleaner(List(Some(r.states[j].cleaner.list)))
    ensures u in r.states[j].vdis
    ensures r.states[j].vdis[u].name.Temporary? <==>
            forall m :: k <= m < j ==> !RenamesDisk(r.states[m], r.actions[m], u)
    ensures r.states[j].vdis[u].name.Temporary? || r.states[j].vdis[u].name.Final?
  {
    k := SnapshotTaken(r, j);
    InvAlways(r, j);
    assert StepAt(r, j);
    TemporaryUnlessRenamed(r, k, j, u);
  }

  // ---------- the run in which a stale snapshot costs a finished disk ----------

  /** 31 minutes after a leftover of volume "v" was marked, the cleaner lists it and makes up its
      mind; a new CreateVolume call finds the same disk, renames it and returns; the deletion then
      hits the finished disk. */
  lemma StaleSnapshotErasesFinishedDisk() returns (r: Run)
    ensures IsRun(r) && ErasesDisk(Last(r), ByCleaner(Erase(Done)), "d") && Enabled(Last(r), ByCleaner(Erase(Done)))
    ensures Last(r).vdis["d"].name == Final("v") && Last(r).vdis["d"].desc == Info(NewStorageInfo())
    ensures Last(r).failed == {} && Last(r).calls == map[]
    ensures "d" !in Apply(Last(r), ByCleaner(Erase(Done))).vdis
  {
    var d := Vdi(Temporary("v"), Candidate(0), 1, "sr");
    var list := [Entry("d", d)];
    var s := State(map["d" := d], {"d"}, map[], map[], 0, map[], {}, {}, false, Sleeping, map[], 31 * MINUTE, {});
    r := Run([s], []);
    r := CleanerDecides(r, d);
    r := CallFinds(r, d);
    r := CallFinishes(r, d);
  }

  lemma CleanerDecides(r: Run, d: Vdi) returns (r': Run)
    requires IsRun(r) && d == Vdi(Temporary("v"), Candidate(0), 1, "sr")
    requires Last(r) == State(map["d" := d], {"d"}, map[], map[], 0, map[], {}, {}, false, Sleeping, map[],
                              31 * MINUTE, {})
    ensures IsRun(r') && Last(r') == Last(r).(cleaner := Erasing([Entry("d", d)], 0))
  {
    var list := [Entry("d", d)];
    assert ListsAll(Last(r).vdis, list) by { assert list[0].uuid == "d"; }
    r' := Advance(r, ByCleaner(List(Some(list))));
    r' := Advance(r', ByCleaner(Inspect));
  }

  lemma CallArrives(r: Run, d: Vdi) returns (r': Run)
    requires IsRun(r)
    requires var s := Last(r); s.vdis == map["d" := d] && s.calls == map[] && s.readers == {}
    ensures IsRun(r')
    ensures var s := Last(r);
            Last(r') == s.(calls := map["v" := Call(s.nextId, 1, AtLookupFinal)],
                           volumes := s.volumes[s.nextId := "v"], nextId := s.nextId + 1)
  {
    r' := Advance(r, ByCall("v", Begin(1)));
    assert Last(r').calls == map["v" := Call(Last(r).nextId, 1, AtLookupFinal)];
    assert Last(r').readers == {};
  }

  lemma CallBegins(r: Run, d: Vdi) returns (r': Run)
    requires IsRun(r) && d.name == Temporary("v")
    requires var s := Last(r); s.vdis == map["d" := d] && s.calls == map[] && s.readers == {}
    ensures IsRun(r')
    ensures var s := Last(r);
            Last(r') == s.(calls := map["v" := Call(s.nextId, 1, AtLock)],
                           volumes := s.volumes[s.nextId := "v"], nextId := s.nextId + 1)
  {
    var s := Last(r);
    r' := CallArrives(r, d);
    assert AnswersName(Last(r').vdis, Final("v"), NotFound);
    r' := Advance(r', ByCall("v", LookupFinal(NotFound)));
    assert Last(r').calls == map["v" := Call(s.nextId, 1, AtLock)];
    assert Last(r').readers == {};
  }

  lemma CallFinds(r: Run, d: Vdi) returns (r': Run)
    requires IsRun(r) && d.name == Temporary("v")
    requires var s := Last(r); s.vdis == map["d" := d] && s.calls == map[] && s.readers == {} && !s.writer
    ensures IsRun(r')
    ensures var s := Last(r);
            Last(r') == s.(calls := map["v" := Call(s.nextId, 1, AtRename("d"))], readers := {"v"},
                           volumes := s.volumes[s.nextId := "v"], nextId := s.nextId + 1)
  {
    var s := Last(r);
    r' := CallBegins(r, d);
    r' := Advance(r', ByCall("v", TakeShared));
    assert Last(r') == s.(calls := map["v" := Call(s.nextId, 1, AtLookupTemp)], readers := {"v"},
                          volumes := s.volumes[s.nextId := "v"], nextId := s.nextId + 1);
    r' := CallReuses(r', d);
  }

  lemma CallReuses(r: Run, d: Vdi) returns (r': Run)
    requires IsRun(r) && d.name == Temporary("v")
    requires var s := Last(r);
             s.vdis == map["d" := d] && s.readers == {"v"}
               && exists id, n :: s.calls == map["v" := Call(id, n, AtLookupTemp)]
    ensures IsRun(r')
    ensures var s := Last(r); Last(r') == s.(calls := map["v" := s.calls["v"].(pc := AtRename("d"))])
  {
    r' := r;
    assert AnswersName(Last(r').vdis, Temporary("v"), One("d"));
    r' := Advance(r', ByCall("v", LookupTemp(One("d"))));
    r' := Advance(r', ByCall("v", Pick(Some("sr"))));
  }

  lemma CallRenames(r: Run, d: Vdi) returns (r': Run)
    requires IsRun(r)
    requires var s := Last(r);
             s.vdis == map["d" := d] && s.readers == {"v"}
               && exists id, n :: s.calls == map["v" := Call(id, n, AtRename("d"))]
    ensures IsRun(r')
    ensures var s := Last(r);
            Last(r') == s.(calls := map["v" := s.calls["v"].(pc := AtFetch("d"))],
                           vdis := map["d" := d.(name := Final("v"), desc := NoMetadata(""))])
  {
    r' := Advance(r, ByCall("v", Rename(Done)));
    assert Last(r').readers == {"v"};
  }

  lemma CallFetches(r: Run) returns (r': Run)
    requires IsRun(r)
    requires var s := Last(r);
             "d" in s.vdis && s.readers == {"v"} && exists id, n :: s.calls == map["v" := Call(id, n, AtFetch("d"))]
    ensures IsRun(r')
    ensures var s := Last(r); Last(r') == s.(calls := map["v" := s.calls["v"].(pc := AtWriteInfo("d"))], readers := {})
  {
    r' := Advance(r, ByCall("v", Fetch(true)));
  }

  lemma CallFinishes(r: Run, d: Vdi) returns (r': Run)
    requires IsRun(r)
    requires var s := Last(r);
             s.vdis == map["d" := d] && s.readers == {"v"}
               && exists id, n :: s.calls == map["v" := Call(id, n, AtRename("d"))]
    ensures IsRun(r')
    ensures Last(r') == Last(r).(calls := map[], readers := {},
                                 vdis := map["d" := d.(name := Final("v"), desc := Info(NewStorageInfo()))])
  {
    r' := CallRenames(r, d);
    r' := CallFetches(r');
    r' := Advance(r', ByCall("v", WriteInfo(NewStorageInfo(), Done)));
    r' := Advance(r', ByCall("v", Finish(true)));
  }
}

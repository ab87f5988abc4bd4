/**
  When the cleaner can delete a finished disk. It acts on the word of its listing
  (pkg/csi/temp_cleanup.go:104-138): a disk that was a marked temporary one when the pass began may be
  finished by the time its turn comes. Exactly the disks that the pass under way still holds as such
  are in danger, and no later pass is a danger to them.
 */
module StaleListings {
  import opened Wrappers
  import opened DiskNames
  import opened Metadata
  import opened Xo
  import opened CreationProtocol
  import opened CreationSafety
  import opened CreationRuns

  predicate Deletable(e: Entry, u: Uuid) {
    e.uuid == u && e.vdi.name.Temporary? && e.vdi.desc.Candidate?
  }

  /** Disk `u` is among what the pass under way has listed as marked and not dealt with yet. */
  ghost predicate Condemned(s: State, u: Uuid) {
    !s.cleaner.Sleeping? && exists k :: s.cleaner.i <= k < |s.cleaner.list| && Deletable(s.cleaner.list[k], u)
  }

  // ---------- a finished disk is not condemned later ----------

  /** The cleaner only ever condemns what is temporary. */
  lemma CleanerCondemns(s: State, a: CleanerAction, u: Uuid)
    requires CleanerEnabled(s, a) && Condemned(CleanerApply(s, a), u)
    ensures Condemned(s, u) || (u in s.vdis && s.vdis[u].name.Temporary?)
  {
    var c := CleanerNext(s, a);
    var k :| c.i <= k < |c.list| && Deletable(c.list[k], u);
    if a.List? {
      assert c.list[k].uuid in s.vdis;
    } else {
      assert c.list == s.cleaner.list && s.cleaner.i <= c.i;
      assert Deletable(s.cleaner.list[k], u);
    }
  }

  lemma StepCondemns(s: State, a: Action, u: Uuid)
    requires Enabled(s, a) && Condemned(Apply(s, a), u)
    ensures Condemned(s, u) || (u in s.vdis && s.vdis[u].name.Temporary?)
  {
    match a
    case ByCall(v, c) => CallKeepsCleaner(s, v, c);
    case ByCleaner(c) => CleanerCondemns(s, c, u);
    case ByWorld(w) => WorldFrame(s, w);
  }

  lemma OnlyCondemnedAreErased(r: Run, j: nat, u: Uuid)
    requires IsRun(r) && j < |r.actions| && ErasesDisk(r.states[j], r.actions[j], u)
    ensures Condemned(r.states[j], u)
  {
    InvAlways(r, j);
    var c := r.states[j].cleaner;
    assert Deletable(c.list[c.i], u);
  }

  /** A finished disk that is not condemned now never will be, and the cleaner never deletes it. */
  lemma {:induction false} NeverErased(r: Run, i: nat, j: nat, u: Uuid)
    requires IsRun(r) && i <= j < |r.states|
    requires u in r.states[i].vdis && r.states[i].vdis[u].name.Final? && !Condemned(r.states[i], u)
    ensures !Condemned(r.states[j], u)
    ensures j < |r.actions| ==> !ErasesDisk(r.states[j], r.actions[j], u)
    decreases j
  {
    if i < j {
      NeverErased(r, i, j - 1, u);
      assert StepAt(r, j - 1);
      if Condemned(r.states[j], u) {
        StepCondemns(r.states[j - 1], r.actions[j - 1], u);
        FinalForever(r, i, j - 1, u);
        assert false;
      }
    }
    if j < |r.actions| && ErasesDisk(r.states[j], r.actions[j], u) {
      OnlyCondemnedAreErased(r, j, u);
      assert false;
    }
  }

  /** Uuids that were not in use when the pass began are not condemned by it. */
  lemma NewIsNotCondemned(r: Running, u: Uuid)
    requires u !in Last(r).used
    ensures !Condemned(Last(r), u)
  {
    InvAlways(r, |r.states| - 1);
  }

  // ---------- but a condemned one can be deleted ----------

  /** The disks and the cleaner are as they were. */
  ghost predicate Untouched(s: State, s': State) {
    && s'.vdis == s.vdis && s'.cleaner == s.cleaner && s'.writer == s.writer
    && s'.now == s.now && s'.firstSeen == s.firstSeen
  }

  lemma GivesUpNow(r: Running, v: string, a: CallAction) returns (r': Running)
    requires CallEnabled(Last(r), v, a) && v in Last(r).calls && CallNext(Last(r), v, a).GiveUp?
    requires CallEffect(Last(r), v, a) == Last(r)
    ensures Continues(r, r') && Untouched(Last(r), Last(r')) && Last(r').readers == Last(r).readers - {v}
  {
    r' := Advance(r, ByCall(v, a));
  }

  lemma GoesOn(r: Running, v: string, a: CallAction) returns (r': Running)
    requires CallEnabled(Last(r), v, a) && v in Last(r).readers && v in Last(r).calls && CallNext(Last(r), v, a).Go?
    requires InsideLock(CallNext(Last(r), v, a).pc) && Untouched(Last(r), CallEffect(Last(r), v, a))
    requires CallEffect(Last(r), v, a).calls == Last(r).calls && CallEffect(Last(r), v, a).readers == Last(r).readers
    ensures Continues(r, r') && Untouched(Last(r), Last(r')) && Last(r').readers == Last(r).readers
    ensures v in Last(r').calls && Last(r').calls[v].pc == CallNext(Last(r), v, a).pc
  {
    r' := Advance(r, ByCall(v, a));
    assert Last(r).readers + {v} == Last(r).readers;
  }

  lemma {:induction false} SkipsSpares(r: Running, v: string) returns (r': Running)
    requires v in Last(r).readers && v in Last(r).calls && Last(r).calls[v].pc.AtDeleteRest?
    ensures Continues(r, r') && Untouched(Last(r), Last(r')) && Last(r').readers == Last(r).readers
    ensures v in Last(r').calls && Last(r').calls[v].pc.AtPick?
    decreases |Last(r).calls[v].pc.rest|
  {
    InvAlways(r, |r.states| - 1);
    r' := GoesOn(r, v, DeleteSpare(Refused));
    if Last(r').calls[v].pc.AtDeleteRest? {
      r' := SkipsSpares(r', v);
    }
  }

  /** Every call inside the lock can end, by failing, without touching a disk. */
  lemma GivesUp(r: Running, v: string) returns (r': Running)
    requires v in Last(r).readers
    ensures Continues(r, r') && Untouched(Last(r), Last(r')) && Last(r').readers == Last(r).readers - {v}
  {
    InvAlways(r, |r.states| - 1);
    var pc := Last(r).calls[v].pc;
    r' := r;
    if pc.AtDeleteRest? { r' := SkipsSpares(r, v); }
    else if pc.AtCreate? { r' := GoesOn(r, v, SendCreate); }
    r' := FailsNext(r', v);
  }

  lemma FailsNext(r: Running, v: string) returns (r': Running)
    requires v in Last(r).calls && InsideLock(Last(r).calls[v].pc)
    requires !Last(r).calls[v].pc.AtDeleteRest? && !Last(r).calls[v].pc.AtCreate?
    ensures Continues(r, r') && Untouched(Last(r), Last(r')) && Last(r').readers == Last(r).readers - {v}
  {
    match Last(r).calls[v].pc
    case AtLookupTemp => r' := GivesUpNow(r, v, LookupTemp(Failed));
    case AtListTemps => r' := GivesUpNow(r, v, ListTemps(None));
    case AtPick(_) => r' := GivesUpNow(r, v, Pick(None));
    case AtReply => r' := GivesUpNow(r, v, ReplyError);
    case AtRename(_) => r' := GivesUpNow(r, v, Rename(Refused));
    case AtFetch(_) => r' := GivesUpNow(r, v, Fetch(false));
  }

  lemma {:induction false} LockFalls(r: Running) returns (r': Running)
    ensures Continues(r, r') && Untouched(Last(r), Last(r')) && Last(r').readers == {}
    decreases Last(r).readers
  {
    if v :| v in Last(r).readers {
      r' := GivesUp(r, v);
      r' := LockFalls(r');
    } else {
      r' := r;
    }
  }

  ghost predicate Resumed(s: State, s': State) {
    !s.cleaner.Sleeping? && s'.vdis == s.vdis && s'.cleaner == Scanning(s.cleaner.list, s.cleaner.i + 1)
  }

  /** What the cleaner has in hand. */
  lemma InHand(r: Running)
    ensures var c := Last(r).cleaner; !c.Sleeping? && !c.Scanning? ==> c.i < |c.list|
    ensures var c := Last(r).cleaner; !c.Sleeping? && !c.Scanning? && !c.Erasing? ==> Unmarked(c.list[c.i].vdi)
    ensures Last(r).writer <==> InsideMark(Last(r).cleaner)
  {
    InvAlways(r, |r.states| - 1);
  }

  lemma LeavesMark(r: Running) returns (r': Running)
    requires Last(r).cleaner.Marking?
    ensures Continues(r, r') && Resumed(Last(r), Last(r'))
  {
    InHand(r);
    r' := Advance(r, ByCleaner(Mark(Refused)));
  }

  lemma LeavesRefetch(r: Running) returns (r': Running)
    requires Last(r).cleaner.Refetching?
    ensures Continues(r, r') && Resumed(Last(r), Last(r'))
  {
    InHand(r);
    r' := Advance(r, ByCleaner(Refetch(false)));
  }

  lemma LeavesMarking(r: Running) returns (r': Running)
    requires InsideMark(Last(r).cleaner)
    ensures Continues(r, r') && Resumed(Last(r), Last(r'))
  {
    if Last(r).cleaner.Refetching? {
      r' := LeavesRefetch(r);
    } else if Last(r).cleaner.Stamping? {
      r' := Advance(r, ByCleaner(Stamp));
      r' := LeavesMark(r');
    } else {
      r' := LeavesMark(r);
    }
  }

  lemma LeavesQueue(r: Running) returns (r': Running)
    requires Last(r).cleaner.WantsLock?
    ensures Continues(r, r') && Resumed(Last(r), Last(r'))
  {
    InHand(r);
    r' := LockFalls(r);
    r' := Advance(r', ByCleaner(TakeExclusive));
    r' := LeavesMarking(r');
  }

  lemma LeavesErasing(r: Running) returns (r': Running)
    requires Last(r).cleaner.Erasing?
    ensures Continues(r, r') && Resumed(Last(r), Last(r'))
  {
    InHand(r);
    r' := Advance(r, ByCleaner(Erase(Refused)));
  }

  /** The cleaner gets past any entry without touching a disk. */
  lemma Resumes(r: Running) returns (r': Running)
    requires !Last(r).cleaner.Sleeping? && !Last(r).cleaner.Scanning?
    ensures Continues(r, r') && Resumed(Last(r), Last(r'))
  {
    if Last(r).cleaner.WantsLock? { r' := LeavesQueue(r); }
    else if Last(r).cleaner.Erasing? { r' := LeavesErasing(r); }
    else { r' := LeavesMarking(r); }
  }

  lemma SkipsEntry(r: Running) returns (r': Running)
    requires Last(r).cleaner.Scanning? && Last(r).cleaner.i < |Last(r).cleaner.list|
    ensures Continues(r, r') && Resumed(Last(r), Last(r'))
  {
    r' := Advance(r, ByCleaner(Inspect));
    if !Last(r').cleaner.Scanning? {
      r' := Resumes(r');
    }
  }

  lemma {:induction false} Reaches(r: Running, k: nat) returns (r': Running)
    requires Last(r).cleaner.Scanning? && Last(r).cleaner.i <= k < |Last(r).cleaner.list|
    ensures Continues(r, r') && Last(r').vdis == Last(r).vdis
    ensures Last(r').cleaner == Scanning(Last(r).cleaner.list, k)
    decreases k - Last(r).cleaner.i
  {
    if Last(r).cleaner.i < k {
      r' := SkipsEntry(r);
      r' := Reaches(r', k);
    } else {
      r' := r;
    }
  }

  /** With time, the cleaner makes up its mind. */
  lemma Decides(r: Running, u: Uuid) returns (r': Running)
    requires var c := Last(r).cleaner; c.Scanning? && c.i < |c.list| && Deletable(c.list[c.i], u)
    ensures Continues(r, r') && Last(r').vdis == Last(r).vdis
    ensures Last(r').cleaner == Erasing(Last(r).cleaner.list, Last(r).cleaner.i)
  {
    var e := Last(r).cleaner.list[Last(r).cleaner.i];
    r' := Advance(r, ByWorld(Tick(if e.vdi.desc.unusedSince < 0 then 30 * MINUTE + 1
                                  else e.vdi.desc.unusedSince + 30 * MINUTE + 1)));
    r' := Advance(r', ByCleaner(Inspect));
  }

  lemma ComesToErase(r: Running, u: Uuid, k: nat) returns (r': Running)
    requires var c := Last(r).cleaner; c.Scanning? && c.i <= k < |c.list| && Deletable(c.list[k], u)
    ensures Continues(r, r') && Last(r').vdis == Last(r).vdis
    ensures Last(r').cleaner == Erasing(Last(r).cleaner.list, k)
  {
    r' := Reaches(r, k);
    r' := Decides(r', u);
  }

  /** From wherever the pass is, it can come to delete a condemned disk, whatever has become of it. */
  lemma CondemnedCanBeErased(r: Running, u: Uuid) returns (r': Running)
    requires Condemned(Last(r), u) && u in Last(r).vdis
    ensures Continues(r, r') && Last(r').vdis == Last(r).vdis
    ensures Enabled(Last(r'), ByCleaner(Erase(Done))) && ErasesDisk(Last(r'), ByCleaner(Erase(Done)), u)
  {
    InHand(r);
    var c := Last(r).cleaner;
    var k :| c.i <= k < |c.list| && Deletable(c.list[k], u);
    if c.Scanning? {
      r' := ComesToErase(r, u, k);
    } else if c.Erasing? && c.i == k {
      r' := r;
    } else {
      assert c.i != k;
      r' := Resumes(r);
      r' := ComesToErase(r', u, k);
    }
  }

  /** The cleaner deletes disk `u` at step `j`. */
  ghost predicate ErasedAt(r: Run, j: int, u: Uuid) {
    0 <= j < |r.actions| && j < |r.states| && ErasesDisk(r.states[j], r.actions[j], u)
  }

  /** Whether a finished disk can still be deleted by the cleaner, in however the run goes on: exactly
      when it is condemned. */
  lemma CanBeErasedExactlyWhen(r: Running, u: Uuid)
    requires u in Last(r).vdis && Last(r).vdis[u].name.Final?
    ensures (exists r': Running, j :: Continues(r, r') && |r.actions| <= j && ErasedAt(r', j, u))
            <==> Condemned(Last(r), u)
  {
    if Condemned(Last(r), u) {
      var before := CondemnedCanBeErased(r, u);
      var r' := Advance(before, ByCleaner(Erase(Done)));
      assert ErasedAt(r', |before.actions|, u);
    }
    if r': Running, j :| Continues(r, r') && |r.actions| <= j && ErasedAt(r', j, u) {
      assert r'.states[|r.actions|] == Last(r);
      if !Condemned(Last(r), u) {
        NeverErased(r', |r.actions|, j, u);
        assert false;
      }
    }
  }
}

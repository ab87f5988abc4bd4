/**
  How long a leaked disk can live while everything else goes on: in every run of the creation protocol,
  with any calls between the cleaner's steps, a pass that does not fail on the disk has `Passed` it, so
  that the bounds of CleanupPasses.dfy hold of that run.
 */
module LeakLifetimes {
  import opened Wrappers
  import opened DiskNames
  import opened Metadata
  import opened Xo
  import opened CreationProtocol
  import opened CreationSafety
  import opened CreationRuns
  import opened CleanupPasses

  /** The cleaner has disk `u` in hand, and its call about it fails. */
  ghost predicate FailsOn(s: State, c: CleanerAction, u: Uuid) {
    && !s.cleaner.Sleeping? && s.cleaner.i < |s.cleaner.list| && s.cleaner.list[s.cleaner.i].uuid == u
    && (c == Refetch(false) || (c.Mark? && c.o.Refused?) || (c.Erase? && c.o.Refused?))
  }

  /** The step leaves disk `u` to the cleaner, which does not fail on it. */
  ghost predicate LeftToCleaner(s: State, a: Action, s': State, u: Uuid) {
    if a.ByCleaner? then !FailsOn(s, a.clean, u)
    else a != ByWorld(Restart) && Look(s'.vdis, u) == Look(s.vdis, u)
  }

  ghost predicate Attended(r: Run, i: nat, j: nat, u: Uuid)
    requires IsRun(r) && j < |r.states|
  {
    forall m: nat :: i <= m < j ==> LeftToCleaner(r.states[m], r.actions[m], r.states[m + 1], u)
  }

  // ---------- one pass, step by step ----------

  /** What there was when the pass began; disk `u` is entry `k` of its listing. */
  datatype Origin = Origin(vdis: map<Uuid, Vdi>, seen: map<Uuid, nat>, from: nat, list: seq<Entry>, u: Uuid, k: nat) {
    ghost predicate Valid() {
      && k < |list| && u in vdis && list[k] == Entry(u, vdis[u])
      && forall m :: 0 <= m < |list| && m != k ==> list[m].uuid != u
    }
  }

  /** The disk's turn has not come. */
  ghost predicate Waits(s: State, o: Origin) {
    Look(s.vdis, o.u) == Look(o.vdis, o.u) && Look(s.firstSeen, o.u) == Look(o.seen, o.u)
  }

  /** It has been judged at `at`, but nothing has been done about it yet. */
  ghost predicate Judged(s: State, o: Origin, at: nat)
    requires o.Valid()
  {
    && Look(s.vdis, o.u) == Some(o.vdis[o.u]) && Look(s.firstSeen, o.u) == SeenAfter(o.vdis, o.seen, o.u, at)
    && o.from <= at <= s.now
    && match s.cleaner
       case Erasing(_, _) => Expired(o.vdis[o.u], at)
       case Marking(_, _, stamp) => DueForMark(o.u, o.vdis[o.u], o.seen, at) && at <= stamp <= s.now
       case _ => DueForMark(o.u, o.vdis[o.u], o.seen, at)
  }

  ghost predicate Finished(s: State, o: Origin, at: nat, stamp: nat) {
    o.from <= at <= stamp <= s.now && DealtWith(o.vdis, o.seen, s.vdis, s.firstSeen, o.u, at, stamp)
  }

  ghost predicate UnderWay(s: State, o: Origin, at: nat, stamp: nat)
    requires o.Valid()
  {
    && !s.cleaner.Sleeping? && s.cleaner.list == o.list && o.from <= s.now
    && if s.cleaner.i < o.k || (s.cleaner.i == o.k && s.cleaner.Scanning?) then Waits(s, o)
       else if s.cleaner.i == o.k then Judged(s, o, at)
       else Finished(s, o, at, stamp)
  }

  /** The cleaner works on another disk. */
  lemma OtherEntry(s: State, c: CleanerAction, o: Origin)
    requires o.Valid() && CleanerEnabled(s, c) && !c.List? && !c.Prune?
    requires !s.cleaner.Sleeping? && s.cleaner.list == o.list && s.cleaner.i != o.k && s.cleaner.i < |o.list|
    ensures Look(CleanerApply(s, c).vdis, o.u) == Look(s.vdis, o.u)
    ensures Look(CleanerApply(s, c).firstSeen, o.u) == Look(s.firstSeen, o.u)
  {
  }

  /** It turns to the disk. */
  lemma Inspection(s: State, o: Origin)
    requires o.Valid() && s.cleaner == Scanning(o.list, o.k) && o.from <= s.now && Waits(s, o)
    ensures UnderWay(CleanerApply(s, Inspect), o, s.now, s.now)
  {
  }

  lemma MarkGoesOn(s: State, c: CleanerAction, o: Origin, at: nat) returns (stamp: nat)
    requires o.Valid() && CleanerEnabled(s, c) && !FailsOn(s, c, o.u)
    requires InsideMark(s.cleaner) || s.cleaner.WantsLock?
    requires s.cleaner.list == o.list && s.cleaner.i == o.k && Judged(s, o, at)
    ensures UnderWay(CleanerApply(s, c), o, at, stamp)
  {
    stamp := if s.cleaner.Marking? then s.cleaner.stamp else 0;
  }

  lemma EraseGoesOn(s: State, c: CleanerAction, o: Origin, at: nat)
    requires o.Valid() && CleanerEnabled(s, c) && !FailsOn(s, c, o.u)
    requires s.cleaner == Erasing(o.list, o.k) && Judged(s, o, at)
    ensures UnderWay(CleanerApply(s, c), o, at, s.now)
  {
  }

  lemma TurnGoesOn(s: State, c: CleanerAction, o: Origin, at: nat) returns (stamp: nat)
    requires o.Valid() && CleanerEnabled(s, c) && !FailsOn(s, c, o.u)
    requires !s.cleaner.Sleeping? && !s.cleaner.Scanning? && s.cleaner.list == o.list && s.cleaner.i == o.k
    requires Judged(s, o, at)
    ensures UnderWay(CleanerApply(s, c), o, at, stamp)
  {
    if s.cleaner.Erasing? {
      EraseGoesOn(s, c, o, at);
      stamp := s.now;
    } else {
      stamp := MarkGoesOn(s, c, o, at);
    }
  }

  lemma OtherGoesOn(s: State, c: CleanerAction, o: Origin, at: nat, stamp: nat)
    requires o.Valid() && CleanerEnabled(s, c) && !c.Prune? && CleanerInv(s)
    requires UnderWay(s, o, at, stamp) && s.cleaner.i != o.k
    ensures UnderWay(CleanerApply(s, c), o, at, stamp)
  {
    OtherEntry(s, c, o);
  }

  lemma CleanerGoesOn(s: State, c: CleanerAction, o: Origin, at: nat, stamp: nat) returns (at': nat, stamp': nat)
    requires o.Valid() && CleanerEnabled(s, c) && !c.Prune? && !FailsOn(s, c, o.u)
    requires CleanerInv(s) && UnderWay(s, o, at, stamp)
    ensures UnderWay(CleanerApply(s, c), o, at', stamp')
  {
    at', stamp' := at, stamp;
    if s.cleaner.i != o.k {
      OtherGoesOn(s, c, o, at, stamp);
    } else if s.cleaner.Scanning? {
      Inspection(s, o);
      at', stamp' := s.now, s.now;
    } else {
      stamp' := TurnGoesOn(s, c, o, at);
    }
  }

  lemma TimeGoesOn(s: State, a: Action)
    requires Enabled(s, a)
    ensures s.now <= Apply(s, a).now
  {
    match a
    case ByCall(v, c) => CallKeepsCleaner(s, v, c);
    case ByCleaner(c) => CleanerFrame(s, c);
    case ByWorld(w) =>
  }

  lemma OthersGoOn(s: State, a: Action, o: Origin, at: nat, stamp: nat)
    requires o.Valid() && Enabled(s, a) && !a.ByCleaner? && LeftToCleaner(s, a, Apply(s, a), o.u)
    requires UnderWay(s, o, at, stamp)
    ensures UnderWay(Apply(s, a), o, at, stamp)
  {
    TimeGoesOn(s, a);
    if a.ByCall? { CallKeepsCleaner(s, a.v, a.call); } else { WorldFrame(s, a.world); }
  }

  // ---------- one pass in a run ----------

  /** A pass takes its listing in step `l`, and ends in step `e`. */
  ghost predicate IsPass(r: Run, l: nat, e: nat) {
    && l < e < |r.actions| && e < |r.states|
    && r.actions[l].ByCleaner? && r.actions[l].clean.List? && r.actions[l].clean.list.Some?
    && r.actions[e] == ByCleaner(CleanerAction.Prune)
    && forall m :: l < m <= e ==> !r.states[m].cleaner.Sleeping?
  }

  ghost function OriginOf(r: Run, l: nat, u: Uuid, k: nat): Origin
    requires l < |r.actions| && l < |r.states|
    requires r.actions[l].ByCleaner? && r.actions[l].clean.List? && r.actions[l].clean.list.Some?
  {
    var s := r.states[l];
    Origin(s.vdis, s.firstSeen, s.now, r.actions[l].clean.list.value, u, k)
  }

  lemma ListedIn(r: Run, l: nat, e: nat, u: Uuid) returns (k: nat)
    requires IsRun(r) && IsPass(r, l, e) && u in r.states[l].vdis
    ensures OriginOf(r, l, u, k).Valid()
    ensures UnderWay(r.states[l + 1], OriginOf(r, l, u, k), 0, 0)
  {
    assert StepAt(r, l);
    var list := r.actions[l].clean.list.value;
    k :| 0 <= k < |list| && list[k].uuid == u;
  }

  lemma StepGoesOn(s: State, a: Action, o: Origin, at: nat, stamp: nat) returns (at': nat, stamp': nat)
    requires o.Valid() && Enabled(s, a) && LeftToCleaner(s, a, Apply(s, a), o.u) && !Apply(s, a).cleaner.Sleeping?
    requires CleanerInv(s) && UnderWay(s, o, at, stamp)
    ensures UnderWay(Apply(s, a), o, at', stamp')
  {
    if a.ByCleaner? {
      at', stamp' := CleanerGoesOn(s, a.clean, o, at, stamp);
    } else {
      at', stamp' := at, stamp;
      OthersGoOn(s, a, o, at, stamp);
    }
  }

  lemma GoesOnAt(r: Run, l: nat, e: nat, m: nat, o: Origin, at: nat, stamp: nat) returns (at': nat, stamp': nat)
    requires IsRun(r) && IsPass(r, l, e) && o.Valid() && Attended(r, l, e, o.u) && l < m < e
    requires UnderWay(r.states[m], o, at, stamp)
    ensures UnderWay(r.states[m + 1], o, at', stamp')
  {
    assert StepAt(r, m);
    assert LeftToCleaner(r.states[m], r.actions[m], r.states[m + 1], o.u);
    InvAlways(r, m);
    at', stamp' := StepGoesOn(r.states[m], r.actions[m], o, at, stamp);
  }

  lemma {:induction false} GoesOnTo(r: Run, l: nat, e: nat, m: nat, o: Origin) returns (at: nat, stamp: nat)
    requires IsRun(r) && IsPass(r, l, e) && o.Valid() && Attended(r, l, e, o.u) && l < m <= e
    requires UnderWay(r.states[l + 1], o, 0, 0)
    ensures UnderWay(r.states[m], o, at, stamp)
    decreases m
  {
    if m == l + 1 {
      at, stamp := 0, 0;
    } else {
      at, stamp := GoesOnTo(r, l, e, m - 1, o);
      at, stamp := GoesOnAt(r, l, e, m - 1, o, at, stamp);
    }
  }

  lemma Pruned(s: State, o: Origin, at: nat, stamp: nat)
    requires o.Valid() && CleanerEnabled(s, CleanerAction.Prune) && UnderWay(s, o, at, stamp)
    ensures Finished(CleanerApply(s, CleanerAction.Prune), o, at, stamp)
  {
    assert o.list[o.k].uuid == o.u;
  }

  /** A pass that found the disk has dealt with it by its end. */
  lemma PassesPresent(r: Run, l: nat, e: nat, u: Uuid)
    requires IsRun(r) && IsPass(r, l, e) && Attended(r, l, e + 1, u) && u in r.states[l].vdis
    ensures Passed(r.states[l].vdis, r.states[l].firstSeen, r.states[e + 1].vdis, r.states[e + 1].firstSeen, u,
                   r.states[l].now, r.states[e + 1].now)
  {
    var k := ListedIn(r, l, e, u);
    var o := OriginOf(r, l, u, k);
    var at, stamp := GoesOnTo(r, l, e, e, o);
    assert StepAt(r, e);
    Pruned(r.states[e], o, at, stamp);
  }

  /** A disk that is not there stays away. */
  lemma {:induction false} StaysAway(r: Run, i: nat, j: nat, u: Uuid)
    requires IsRun(r) && i <= j < |r.states| && Attended(r, i, j, u) && u !in r.states[i].vdis
    ensures u !in r.states[j].vdis
    decreases j
  {
    if i < j {
      StaysAway(r, i, j - 1, u);
      assert StepAt(r, j - 1);
      assert LeftToCleaner(r.states[j - 1], r.actions[j - 1], r.states[j], u);
    }
  }

  lemma {:induction false} TimesGrow(r: Run, i: nat, j: nat)
    requires IsRun(r) && i <= j < |r.states|
    ensures r.states[i].now <= r.states[j].now
    decreases j
  {
    if i < j {
      TimesGrow(r, i, j - 1);
      assert StepAt(r, j - 1);
      TimeGoesOn(r.states[j - 1], r.actions[j - 1]);
    }
  }

  /** The pass works on the listing it took. */
  lemma WorksOnItsListing(r: Run, l: nat, e: nat)
    requires IsRun(r) && IsPass(r, l, e)
    ensures r.states[e].cleaner.list == r.actions[l].clean.list.value
    ensures ListsAll(r.states[l].vdis, r.actions[l].clean.list.value)
  {
    var k := SnapshotTaken(r, e);
    assert StepAt(r, l);
    assert StepAt(r, k);
    assert k == l;
  }

  lemma Forgotten(s: State, u: Uuid)
    requires CleanerEnabled(s, CleanerAction.Prune)
    requires forall k :: 0 <= k < |s.cleaner.list| ==> s.cleaner.list[k].uuid != u
    ensures u !in CleanerApply(s, CleanerAction.Prune).firstSeen
  {
  }

  lemma PassesAbsent(r: Run, l: nat, e: nat, u: Uuid)
    requires IsRun(r) && IsPass(r, l, e) && Attended(r, l, e + 1, u) && u !in r.states[l].vdis
    ensures Passed(r.states[l].vdis, r.states[l].firstSeen, r.states[e + 1].vdis, r.states[e + 1].firstSeen, u,
                   r.states[l].now, r.states[e + 1].now)
  {
    StaysAway(r, l, e + 1, u);
    WorksOnItsListing(r, l, e);
    assert StepAt(r, e);
    Forgotten(r.states[e], u);
    TimesGrow(r, l, e + 1);
    assert DealtWith(r.states[l].vdis, r.states[l].firstSeen, r.states[e + 1].vdis, r.states[e + 1].firstSeen, u,
                     r.states[l].now, r.states[l].now);
  }

  // ---------- many passes in a run ----------

  /** Where a pass begins and ends. */
  datatype Span = Span(l: nat, e: nat)

  ghost predicate SpansAt(r: Run, spans: seq<Span>, i: nat, gap: nat, length: nat)
    requires IsRun(r) && i < |spans|
  {
    && IsPass(r, spans[i].l, spans[i].e)
    && r.states[spans[i].e + 1].now <= r.states[spans[i].l].now + length
    && (i + 1 < |spans| ==>
          && spans[i].e < spans[i + 1].l < |r.states|
          && r.states[spans[i + 1].l].now <= r.states[spans[i].l].now + gap
          && forall m :: spans[i].e < m <= spans[i + 1].l ==> r.states[m].cleaner.Sleeping?)
  }

  /** These are passes of `r`, one after the other without any between, that take at most `length` each
      and begin at most `gap` after one another. */
  ghost predicate Passes(r: Run, spans: seq<Span>, gap: nat, length: nat)
    requires IsRun(r)
  {
    forall i: nat :: i < |spans| ==> SpansAt(r, spans, i, gap, length)
  }

  ghost function PassOf(r: Run, span: Span): Pass
    requires IsRun(r) && IsPass(r, span.l, span.e)
  {
    var s, s' := r.states[span.l], r.states[span.e + 1];
    Pass(s.vdis, s.firstSeen, s.now, s'.vdis, s'.firstSeen, s'.now)
  }

  lemma IsComplete(r: Run, span: Span, u: Uuid, length: nat)
    requires IsRun(r) && IsPass(r, span.l, span.e) && Attended(r, span.l, span.e + 1, u)
    requires r.states[span.e + 1].now <= r.states[span.l].now + length
    ensures Complete(PassOf(r, span), u, length)
  {
    TimesGrow(r, span.l, span.e + 1);
    if u in r.states[span.l].vdis {
      PassesPresent(r, span.l, span.e, u);
    } else {
      PassesAbsent(r, span.l, span.e, u);
    }
  }

  /** While the cleaner sleeps, nothing changes for the disk. */
  lemma {:induction false} Sleeps(r: Run, i: nat, j: nat, u: Uuid)
    requires IsRun(r) && i <= j < |r.states| && Attended(r, i, j, u)
    requires forall m :: i <= m <= j ==> r.states[m].cleaner.Sleeping?
    ensures Look(r.states[j].vdis, u) == Look(r.states[i].vdis, u) && r.states[j].firstSeen == r.states[i].firstSeen
    decreases j
  {
    if i < j {
      Sleeps(r, i, j - 1, u);
      assert StepAt(r, j - 1);
      assert LeftToCleaner(r.states[j - 1], r.actions[j - 1], r.states[j], u);
      SleepsOn(r.states[j - 1], r.actions[j - 1], u);
    }
  }

  lemma SleepsOn(s: State, a: Action, u: Uuid)
    requires Enabled(s, a) && LeftToCleaner(s, a, Apply(s, a), u)
    requires s.cleaner.Sleeping? && Apply(s, a).cleaner.Sleeping?
    ensures Look(Apply(s, a).vdis, u) == Look(s.vdis, u) && Apply(s, a).firstSeen == s.firstSeen
  {
    match a
    case ByCall(v, c) => CallKeepsCleaner(s, v, c);
    case ByCleaner(c) =>
    case ByWorld(w) => WorldFrame(s, w);
  }

  lemma NextFollows(r: Run, p: Span, q: Span, u: Uuid, gap: nat)
    requires IsRun(r) && IsPass(r, p.l, p.e) && IsPass(r, q.l, q.e) && p.e < q.l && Attended(r, p.e + 1, q.l, u)
    requires r.states[q.l].now <= r.states[p.l].now + gap
    requires forall m :: p.e < m <= q.l ==> r.states[m].cleaner.Sleeping?
    ensures Follows(PassOf(r, p), PassOf(r, q), u, gap)
  {
    Sleeps(r, p.e + 1, q.l, u);
    TimesGrow(r, p.e + 1, q.l);
  }

  ghost function PassesOf(r: Run, spans: seq<Span>, gap: nat, length: nat): (c: seq<Pass>)
    requires IsRun(r) && Passes(r, spans, gap, length)
  {
    seq(|spans|, i requires 0 <= i < |spans| => (assert SpansAt(r, spans, i, gap, length); PassOf(r, spans[i])))
  }

  /** The later spans lie later. */
  lemma {:induction false} SpansGrow(r: Run, spans: seq<Span>, i: nat, j: nat, gap: nat, length: nat)
    requires IsRun(r) && Passes(r, spans, gap, length) && i <= j < |spans|
    ensures spans[i].l <= spans[j].l && spans[i].e <= spans[j].e
    decreases j
  {
    if i < j {
      SpansGrow(r, spans, i, j - 1, gap, length);
      assert SpansAt(r, spans, j - 1, gap, length);
      assert SpansAt(r, spans, j, gap, length);
    }
  }

  /** Nobody but the cleaner touches the disk from the first pass to the last, and the cleaner does not
      fail on it. */
  ghost predicate AttendedThroughout(r: Run, spans: seq<Span>, u: Uuid)
    requires IsRun(r)
  {
    spans != [] ==> spans[|spans| - 1].e + 1 < |r.states| && Attended(r, spans[0].l, spans[|spans| - 1].e + 1, u)
  }

  lemma AttendedAt(r: Run, spans: seq<Span>, i: nat, j: nat, u: Uuid, gap: nat, length: nat)
    requires IsRun(r) && Passes(r, spans, gap, length) && AttendedThroughout(r, spans, u) && i <= j < |spans|
    ensures SpansAt(r, spans, i, gap, length) && SpansAt(r, spans, j, gap, length)
    ensures Attended(r, spans[i].l, spans[j].e + 1, u)
  {
    SpansGrow(r, spans, 0, i, gap, length);
    SpansGrow(r, spans, j, |spans| - 1, gap, length);
    assert SpansAt(r, spans, i, gap, length) && SpansAt(r, spans, j, gap, length);
  }

  lemma CompleteAt(r: Run, spans: seq<Span>, i: nat, u: Uuid, gap: nat, length: nat)
    requires IsRun(r) && Passes(r, spans, gap, length) && AttendedThroughout(r, spans, u) && i < |spans|
    ensures Complete(PassesOf(r, spans, gap, length)[i], u, length)
  {
    AttendedAt(r, spans, i, i, u, gap, length);
    IsComplete(r, spans[i], u, length);
  }

  lemma FollowsAt(r: Run, spans: seq<Span>, i: nat, u: Uuid, gap: nat, length: nat)
    requires IsRun(r) && Passes(r, spans, gap, length) && AttendedThroughout(r, spans, u) && i + 1 < |spans|
    ensures var c := PassesOf(r, spans, gap, length); Follows(c[i], c[i + 1], u, gap)
  {
    AttendedAt(r, spans, i, i + 1, u, gap, length);
    NextFollows(r, spans[i], spans[i + 1], u, gap);
  }

  /** The passes of a run are a schedule such as CleanupPasses.dfy supposes, whatever calls do meanwhile. */
  lemma RunsAreSchedules(r: Run, spans: seq<Span>, u: Uuid, gap: nat, length: nat)
    requires IsRun(r) && Passes(r, spans, gap, length) && AttendedThroughout(r, spans, u)
    ensures Undisturbed(PassesOf(r, spans, gap, length), u, gap, length)
  {
    forall i | 0 <= i < |spans| ensures Complete(PassesOf(r, spans, gap, length)[i], u, length) {
      CompleteAt(r, spans, i, u, gap, length);
    }
    forall i, j | 0 <= i && j == i + 1 < |spans|
      ensures var c := PassesOf(r, spans, gap, length); Follows(c[i], c[j], u, gap)
    {
      FollowsAt(r, spans, i, u, gap, length);
    }
  }

  lemma DeletedStaysAway(r: Run, spans: seq<Span>, j: nat, n: nat, u: Uuid, gap: nat, length: nat)
    requires IsRun(r) && Passes(r, spans, gap, length) && AttendedThroughout(r, spans, u) && j < n < |spans|
    requires SpansAt(r, spans, j, gap, length) && SpansAt(r, spans, n, gap, length)
    requires DeletedBy(PassOf(r, spans[j]), u)
    ensures u !in r.states[spans[n].l].vdis
  {
    AttendedAt(r, spans, j, n, u, gap, length);
    SpansGrow(r, spans, j + 1, n, gap, length);
    StaysAway(r, spans[j].e + 1, spans[n].l, u);
  }

  /** In every run: a leaked disk first sighted by pass `k` is still there after every pass that ends
      within 40 minutes of the start of that one; and by the time a pass starts 40 minutes, two gaps and
      two lengths after its end, the disk is gone. */
  lemma LeakedDiskIsGoneInTime(r: Run, spans: seq<Span>, k: nat, n: nat, u: Uuid, gap: nat, length: nat)
    requires IsRun(r) && Passes(r, spans, gap, length) && AttendedThroughout(r, spans, u)
    requires k <= n < |spans| && SpansAt(r, spans, k, gap, length) && SpansAt(r, spans, n, gap, length)
    requires FirstSighting(PassOf(r, spans[k]), u)
    ensures var s, s' := r.states[spans[k].l], r.states[spans[n].e + 1];
            s'.now <= s.now + 40 * MINUTE ==> u in s'.vdis
    ensures var s, s' := r.states[spans[k].e + 1], r.states[spans[n].l];
            s'.now > s.now + 40 * MINUTE + 2 * (gap + length) ==> u !in s'.vdis
  {
    var c := PassesOf(r, spans, gap, length);
    RunsAreSchedules(r, spans, u, gap, length);
    LeakLivesFortyMinutesToTwoGapsMore(c, k, n, u, gap, length);
    if j :| k <= j < n && DeletedBy(c[j], u) {
      DeletedStaysAway(r, spans, j, n, u, gap, length);
    }
  }
}

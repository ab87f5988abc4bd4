/**
  How long a leaked disk can live: cleaner passes (pkg/csi/temp_cleanup.go:92-151) that take time,
  with all their calls successful and the leaked disk left alone by everybody else.
  `TempCleaner.Cleanup` proves that the code does to every disk what `Passed` says.
 */
module CleanupPasses {
  import opened Wrappers
  import opened DiskNames
  import opened Metadata
  import opened Xo
  import opened CreationProtocol

  function Look<V>(m: map<Uuid, V>, u: Uuid): Option<V> {
    if u in m then Some(m[u]) else None
  }

  /** Disk `u` after a pass that read the clock at `at` to judge it, and at `stamp` to mark it. */
  ghost function DiskAfter(vdis: map<Uuid, Vdi>, seen: map<Uuid, nat>, u: Uuid, at: nat, stamp: nat): Option<Vdi> {
    if u !in vdis || Expired(vdis[u], at) then None
    else if DueForMark(u, vdis[u], seen, at) then Some(vdis[u].(desc := Candidate(stamp)))
    else Some(vdis[u])
  }

  /** What the cleaner then remembers of it: nothing of disks that were not listed. */
  ghost function SeenAfter(vdis: map<Uuid, Vdi>, seen: map<Uuid, nat>, u: Uuid, at: nat): Option<nat> {
    if u !in vdis then None
    else if u !in seen && Unmarked(vdis[u]) then Some(at)
    else Look(seen, u)
  }

  /** A pass between `from` and `to` has dealt with disk `u`. */
  ghost predicate Passed(before: map<Uuid, Vdi>, seenBefore: map<Uuid, nat>, after: map<Uuid, Vdi>,
                         seenAfter: map<Uuid, nat>, u: Uuid, from: nat, to: nat)
  {
    exists at: nat, stamp: nat ::
      DealtWith(before, seenBefore, after, seenAfter, u, at, stamp) && from <= at <= stamp <= to
  }

  ghost predicate DealtWith(before: map<Uuid, Vdi>, seenBefore: map<Uuid, nat>, after: map<Uuid, Vdi>,
                            seenAfter: map<Uuid, nat>, u: Uuid, at: nat, stamp: nat)
  {
    && Look(after, u) == DiskAfter(before, seenBefore, u, at, stamp)
    && Look(seenAfter, u) == SeenAfter(before, seenBefore, u, at)
  }

  // ---------- many passes ----------

  /** One pass: what it finds at `start`, and what it leaves at `end`. */
  datatype Pass = Pass(vdis: map<Uuid, Vdi>, seen: map<Uuid, nat>, start: nat,
                       left: map<Uuid, Vdi>, kept: map<Uuid, nat>, end: nat)

  ghost predicate Complete(p: Pass, u: Uuid, length: nat) {
    Passed(p.vdis, p.seen, p.left, p.kept, u, p.start, p.end) && p.start <= p.end <= p.start + length
  }

  /** The next pass starts at most `gap` after this one did. Between them anything may happen to other
      disks, but nobody touches disk `u`. */
  ghost predicate Follows(p: Pass, q: Pass, u: Uuid, gap: nat) {
    && p.end <= q.start <= p.start + gap
    && q.seen == p.kept
    && Look(q.vdis, u) == Look(p.left, u)
  }

  ghost predicate Undisturbed(c: seq<Pass>, u: Uuid, gap: nat, length: nat) {
    && (forall i :: 0 <= i < |c| ==> Complete(c[i], u, length))
    && (forall i, j :: 0 <= i && j == i + 1 < |c| ==> Follows(c[i], c[j], u, gap))
  }

  /** The pass sees the leaked disk for the first time. */
  ghost predicate FirstSighting(p: Pass, u: Uuid) {
    u in p.vdis && Unmarked(p.vdis[u]) && u !in p.seen
  }

  ghost predicate DeletedBy(p: Pass, u: Uuid) {
    u in p.vdis && u !in p.left
  }

  /** After pass `p` the disk is known since t0; or marked, more than 10 minutes after t0 and at most
      one gap and the length of a pass later than that; or gone, deleted more than 30 minutes after
      its mark and again at most one gap and the length of a pass later than that. */
  ghost predicate Known(p: Pass, u: Uuid, t0: nat) {
    u in p.left && Unmarked(p.left[u]) && Look(p.kept, u) == Some(t0) && p.start <= t0 + MARK_AFTER
  }

  ghost predicate Marked(p: Pass, u: Uuid, t0: nat, late: nat) {
    && u in p.left && p.left[u].name.Temporary? && p.left[u].desc.Candidate?
    && t0 + MARK_AFTER < p.left[u].desc.unusedSince <= t0 + MARK_AFTER + late
    && p.start <= p.left[u].desc.unusedSince + DELETE_AFTER
  }

  ghost predicate Gone(c: seq<Pass>, n: nat, u: Uuid, t0: nat, late: nat)
    requires n < |c|
  {
    u !in c[n].left && exists j :: 0 <= j <= n && DeletedInTime(c[j], u, t0, late)
  }

  ghost predicate DeletedInTime(p: Pass, u: Uuid, t0: nat, late: nat) {
    DeletedBy(p, u) && t0 + MARK_AFTER + DELETE_AFTER < p.end <= t0 + MARK_AFTER + DELETE_AFTER + 2 * late
  }

  /** A first sighting is remembered. */
  lemma Sighted(p: Pass, u: Uuid, length: nat) returns (t0: nat)
    requires Complete(p, u, length) && FirstSighting(p, u)
    ensures Known(p, u, t0) && p.start <= t0 <= p.end
  {
    var at: nat, stamp: nat :| DealtWith(p.vdis, p.seen, p.left, p.kept, u, at, stamp)
        && p.start <= at <= stamp <= p.end;
    t0 := at;
  }

  /** What one more pass makes of a disk that is known, or marked. */
  lemma OnePassLater(p: Pass, q: Pass, u: Uuid, t0: nat, gap: nat, length: nat)
    requires Complete(q, u, length) && Follows(p, q, u, gap)
    ensures Known(p, u, t0) ==> Known(q, u, t0) || Marked(q, u, t0, gap + length)
    ensures Marked(p, u, t0, gap + length) ==> Marked(q, u, t0, gap + length) || DeletedInTime(q, u, t0, gap + length)
  {
    var at: nat, stamp: nat :| DealtWith(q.vdis, q.seen, q.left, q.kept, u, at, stamp)
        && q.start <= at <= stamp <= q.end;
  }

  lemma {:induction false} LifeOfALeak(c: seq<Pass>, k: nat, n: nat, u: Uuid, t0: nat, gap: nat, length: nat)
    requires Undisturbed(c, u, gap, length) && k <= n < |c| && Known(c[k], u, t0)
    ensures Known(c[n], u, t0) || Marked(c[n], u, t0, gap + length) || Gone(c, n, u, t0, gap + length)
    decreases n
  {
    if k < n {
      LifeOfALeak(c, k, n - 1, u, t0, gap, length);
      assert Follows(c[n - 1], c[n], u, gap);
      if Gone(c, n - 1, u, t0, gap + length) {
        assert Complete(c[n], u, length);
        assert u !in c[n].left;
      } else {
        OnePassLater(c[n - 1], c[n], u, t0, gap, length);
      }
    }
  }

  /** Times never run backwards. */
  lemma {:induction false} TimesGrow(c: seq<Pass>, i: nat, j: nat, u: Uuid, gap: nat, length: nat)
    requires Undisturbed(c, u, gap, length) && i <= j < |c|
    ensures c[i].start <= c[j].start && c[i].end <= c[j].end
    decreases j
  {
    if i < j {
      TimesGrow(c, i, j - 1, u, gap, length);
      assert Follows(c[j - 1], c[j], u, gap);
    }
  }

  lemma EndsBefore(c: seq<Pass>, j: nat, k: nat, u: Uuid, gap: nat, length: nat)
    requires Undisturbed(c, u, gap, length) && j < |c| && k < |c|
    ensures j < k ==> c[j].end <= c[k].start
  {
    if j < k {
      TimesGrow(c, j, k - 1, u, gap, length);
      assert Follows(c[k - 1], c[k], u, gap);
    }
  }

  /** Bounded lifetime, for every gap, every length and every schedule of passes. A leaked disk first
      sighted by pass `k` is left by every pass that ends within 40 minutes of the start of that one;
      and once a pass starts 40 minutes, two gaps and two lengths after its end, one of the passes
      until then, none later than that, has deleted the disk. */
  lemma LeakLivesFortyMinutesToTwoGapsMore(c: seq<Pass>, k: nat, n: nat, u: Uuid, gap: nat, length: nat)
    requires Undisturbed(c, u, gap, length) && k <= n < |c| && FirstSighting(c[k], u)
    ensures c[n].end <= c[k].start + 40 * MINUTE ==> u in c[n].left
    ensures c[n].start > c[k].end + 40 * MINUTE + 2 * (gap + length) ==>
              exists j :: k <= j < n && DeletedBy(c[j], u) &&
                          c[k].start + 40 * MINUTE < c[j].end <= c[k].end + 40 * MINUTE + 2 * (gap + length)
  {
    var t0 := Sighted(c[k], u, length);
    LifeOfALeak(c, k, n, u, t0, gap, length);
    if Gone(c, n, u, t0, gap + length) {
      var j :| 0 <= j <= n && DeletedInTime(c[j], u, t0, gap + length);
      TimesGrow(c, j, n, u, gap, length);
      EndsBefore(c, j, k, u, gap, length);
      assert Complete(c[n], u, length);
    }
  }
}

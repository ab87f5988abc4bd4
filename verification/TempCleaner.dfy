/**
  The cleaner as code (pkg/csi/temp_cleanup.go) and the lock it shares with CreateVolume
  (pkg/csi/creationlock.go). Every pass is shown to be a sequence of steps of the creation
  protocol, whatever fails on the way; and an error-free pass to do to every disk what
  CleanupPasses.dfy says, however long it takes.
 */
module TempCleaner {
  import opened Wrappers
  import opened DiskNames
  import opened Metadata
  import opened Xo
  import opened CreationProtocol
  import opened CreationRuns
  import opened CleanupPasses
  import opened XoClient

  /** sync.RWMutex. The preconditions are what the caller waits for. */
  class CreationLock {
    var readers: nat
    var writer: bool

    ghost predicate Valid()
      reads this
    {
      writer ==> readers == 0
    }

    constructor ()
      ensures Valid() && readers == 0 && !writer
    {
      readers, writer := 0, false;
    }

    method AcquireCreation()
      requires Valid() && !writer
      modifies this
      ensures Valid() && readers == old(readers) + 1 && !writer
    {
      readers := readers + 1;
    }

    method ReleaseCreation()
      requires Valid() && readers > 0
      modifies this
      ensures Valid() && readers == old(readers) - 1 && !writer
    {
      readers := readers - 1;
    }

    method AcquireDeletion()
      requires Valid() && readers == 0 && !writer
      modifies this
      ensures Valid() && readers == 0 && writer
    {
      writer := true;
    }

    method ReleaseDeletion()
      requires Valid() && writer
      modifies this
      ensures Valid() && readers == 0 && !writer
    {
      writer := false;
    }
  }

  // ---------- the cleaner's steps, as equations between states ----------

  lemma TakesExclusive(r: Running, list: seq<Entry>, i: nat) returns (r': Running)
    requires Last(r).cleaner == WantsLock(list, i) && Last(r).readers == {} && !Last(r).writer
    ensures Continues(r, r') && Last(r') == Last(r).(cleaner := Refetching(list, i), writer := true)
  {
    r' := Advance(r, ByCleaner(TakeExclusive));
  }

  lemma Refetches(r: Running, list: seq<Entry>, i: nat, answer: Option<Vdi>) returns (r': Running)
    requires Last(r).cleaner == Refetching(list, i) && i < |list|
    requires answer.Some? ==> list[i].uuid in Last(r).vdis && Last(r).vdis[list[i].uuid] == answer.value
    ensures Continues(r, r')
    ensures Last(r') ==
            if answer.Some? && answer.value.desc == list[i].vdi.desc && answer.value.name == list[i].vdi.name
            then Last(r).(cleaner := Stamping(list, i), writer := true)
            else Last(r).(cleaner := Scanning(list, i + 1), writer := false)
  {
    r' := Advance(r, ByCleaner(Refetch(answer.Some?)));
  }

  lemma Stamps(r: Running, list: seq<Entry>, i: nat, now: nat) returns (r': Running)
    requires Last(r).cleaner == Stamping(list, i) && Last(r).now <= now
    ensures Continues(r, r') && Last(r') == Last(r).(cleaner := Marking(list, i, now), writer := true, now := now)
  {
    r' := Ticks(r, now);
    r' := Advance(r', ByCleaner(Stamp));
  }

  lemma Ticks(r: Running, now: nat) returns (r': Running)
    requires Last(r).now <= now
    ensures Continues(r, r') && Last(r') == Last(r).(now := now)
  {
    r' := Advance(r, ByWorld(Tick(now - Last(r).now)));
  }

  lemma Marks(r: Running, list: seq<Entry>, i: nat, stamp: nat, o: Outcome) returns (r': Running)
    requires Last(r).cleaner == Marking(list, i, stamp) && i < |list| && Possible(o, list[i].uuid, Last(r).vdis)
    ensures Continues(r, r')
    ensures Last(r') == Last(r).(
              vdis := if o.Refused? then Last(r).vdis
                      else Edited(Last(r).vdis, list[i].uuid, None, Some(Candidate(stamp))),
              cleaner := Scanning(list, i + 1), writer := false)
  {
    r' := Advance(r, ByCleaner(Mark(o)));
  }

  lemma Listed(r: Running, list: Option<seq<Entry>>) returns (r': Running)
    requires Last(r).cleaner == Sleeping && (list.Some? ==> ListsAll(Last(r).vdis, list.value))
    ensures Continues(r, r')
    ensures Last(r') == if list.Some? then Last(r).(cleaner := Scanning(list.value, 0), writer := false)
                        else Last(r).(writer := false)
  {
    r' := Advance(r, ByCleaner(List(list)));
  }

  lemma Inspects(r: Running, list: seq<Entry>, i: nat) returns (r': Running)
    requires Last(r).cleaner == Scanning(list, i) && i < |list| && !Last(r).writer
    ensures Continues(r, r')
    ensures var s, e := Last(r), list[i];
            Last(r') == s.(firstSeen := OneSeen(s.firstSeen, e, s.now),
                           cleaner := if DueForMark(e.uuid, e.vdi, s.firstSeen, s.now) then WantsLock(list, i)
                                      else if Expired(e.vdi, s.now) then Erasing(list, i)
                                      else Scanning(list, i + 1))
  {
    r' := Advance(r, ByCleaner(Inspect));
  }

  lemma Erases(r: Running, list: seq<Entry>, i: nat, o: Outcome) returns (r': Running)
    requires Last(r).cleaner == Erasing(list, i) && i < |list| && !Last(r).writer
             && Possible(o, list[i].uuid, Last(r).vdis)
    ensures Continues(r, r')
    ensures Last(r') == Last(r).(vdis := if o.Refused? then Last(r).vdis else Last(r).vdis - {list[i].uuid},
                                 cleaner := Scanning(list, i + 1))
  {
    r' := Advance(r, ByCleaner(Erase(o)));
  }

  lemma Prunes(r: Running, list: seq<Entry>) returns (r': Running)
    requires Last(r).cleaner == Scanning(list, |list|) && !Last(r).writer
    ensures Continues(r, r')
    ensures Last(r') == Last(r).(firstSeen := Kept(Last(r).firstSeen, Uuids(list, |list|)), cleaner := Sleeping)
  {
    r' := Advance(r, ByCleaner(Prune));
    assert Uuids(list, |list|) == set k | 0 <= k < |list| :: list[k].uuid;
  }

  // ---------- what one entry contributes to an error-free pass ----------

  ghost function OneDisk(vdis: map<Uuid, Vdi>, e: Entry, firstSeen: map<Uuid, nat>, at: nat, stamp: nat): map<Uuid, Vdi>
    requires e.uuid in vdis
  {
    if DueForMark(e.uuid, e.vdi, firstSeen, at) then Edited(vdis, e.uuid, None, Some(Candidate(stamp)))
    else if Expired(e.vdi, at) then vdis - {e.uuid}
    else vdis
  }

  ghost function OneSeen(firstSeen: map<Uuid, nat>, e: Entry, at: nat): map<Uuid, nat> {
    if Unmarked(e.vdi) && e.uuid !in firstSeen then firstSeen[e.uuid := at] else firstSeen
  }

  ghost function Kept(firstSeen: map<Uuid, nat>, listed: set<Uuid>): map<Uuid, nat> {
    map u | u in firstSeen && u in listed :: firstSeen[u]
  }

  /** The uuids of the first `i` entries. */
  function Uuids(list: seq<Entry>, i: nat): set<Uuid>
    requires i <= |list|
  {
    set k | 0 <= k < i :: list[k].uuid
  }

  /** The pass so far, begun at `from`: the entries in `done` have been dealt with, the others are as they were. */
  ghost predicate SoFar(vdis0: map<Uuid, Vdi>, seen0: map<Uuid, nat>, vdis: map<Uuid, Vdi>, seen: map<Uuid, nat>,
                        done: set<Uuid>, from: nat, to: nat)
  {
    && (forall u :: u in done ==> Passed(vdis0, seen0, vdis, seen, u, from, to))
    && (forall u :: u !in done ==> Look(vdis, u) == Look(vdis0, u) && Look(seen, u) == Look(seen0, u))
  }

  /** Dealing with one entry does not touch other disks. */
  lemma OnlyThisOne(vdis: map<Uuid, Vdi>, seen: map<Uuid, nat>, e: Entry, at: nat, stamp: nat, u: Uuid)
    requires e.uuid in vdis && u != e.uuid
    ensures Look(OneDisk(vdis, e, seen, at, stamp), u) == Look(vdis, u)
    ensures Look(OneSeen(seen, e, at), u) == Look(seen, u)
  {
  }

  lemma ThisOne(vdis0: map<Uuid, Vdi>, seen0: map<Uuid, nat>, vdis: map<Uuid, Vdi>, seen: map<Uuid, nat>, e: Entry,
                at: nat, stamp: nat)
    requires Look(vdis, e.uuid) == Look(vdis0, e.uuid) == Some(e.vdi) && Look(seen, e.uuid) == Look(seen0, e.uuid)
    ensures DealtWith(vdis0, seen0, OneDisk(vdis, e, seen, at, stamp), OneSeen(seen, e, at), e.uuid, at, stamp)
  {
  }

  lemma OneMore(vdis0: map<Uuid, Vdi>, seen0: map<Uuid, nat>, vdis: map<Uuid, Vdi>, seen: map<Uuid, nat>,
                done: set<Uuid>, e: Entry, from: nat, before: nat, at: nat, to: nat)
    requires SoFar(vdis0, seen0, vdis, seen, done, from, before) && from <= before <= at <= to
    requires e.uuid in vdis0 && vdis0[e.uuid] == e.vdi && e.uuid !in done
    ensures e.uuid in vdis && vdis[e.uuid] == e.vdi
    ensures SoFar(vdis0, seen0, OneDisk(vdis, e, seen, at, to), OneSeen(seen, e, at), done + {e.uuid}, from, to)
  {
    assert Look(vdis, e.uuid) == Look(vdis0, e.uuid);
    var vdis', seen' := OneDisk(vdis, e, seen, at, to), OneSeen(seen, e, at);
    ThisOne(vdis0, seen0, vdis, seen, e, at, to);
    assert Passed(vdis0, seen0, vdis', seen', e.uuid, from, to);
    forall u | u != e.uuid
      ensures u in done ==> Passed(vdis0, seen0, vdis', seen', u, from, to)
      ensures u !in done ==> Look(vdis', u) == Look(vdis0, u) && Look(seen', u) == Look(seen0, u)
    {
      OnlyThisOne(vdis, seen, e, at, to, u);
      if u in done { StillPassed(vdis0, seen0, vdis, seen, vdis', seen', u, from, before, to); }
    }
  }

  lemma StillPassed(vdis0: map<Uuid, Vdi>, seen0: map<Uuid, nat>, vdis: map<Uuid, Vdi>, seen: map<Uuid, nat>,
                    vdis': map<Uuid, Vdi>, seen': map<Uuid, nat>, u: Uuid, from: nat, before: nat, to: nat)
    requires Passed(vdis0, seen0, vdis, seen, u, from, before) && before <= to
    requires Look(vdis', u) == Look(vdis, u) && Look(seen', u) == Look(seen, u)
    ensures Passed(vdis0, seen0, vdis', seen', u, from, to)
  {
    var at: nat, stamp: nat :| DealtWith(vdis0, seen0, vdis, seen, u, at, stamp) && from <= at <= stamp <= before;
    assert DealtWith(vdis0, seen0, vdis', seen', u, at, stamp);
  }

  /** Pruning forgets exactly the disks that were not listed. */
  lemma WholePass(vdis0: map<Uuid, Vdi>, seen0: map<Uuid, nat>, vdis: map<Uuid, Vdi>, seen: map<Uuid, nat>, from: nat,
                  to: nat)
    requires SoFar(vdis0, seen0, vdis, seen, vdis0.Keys, from, to) && from <= to
    ensures forall u :: Passed(vdis0, seen0, vdis, Kept(seen, vdis0.Keys), u, from, to)
  {
    var kept := Kept(seen, vdis0.Keys);
    forall u ensures Passed(vdis0, seen0, vdis, kept, u, from, to) {
      if u in vdis0 {
        StillPassed(vdis0, seen0, vdis, seen, vdis, kept, u, from, to, to);
      } else {
        assert DealtWith(vdis0, seen0, vdis, kept, u, from, from);
      }
    }
  }

  lemma AllListed(vdis: map<Uuid, Vdi>, list: seq<Entry>)
    requires ListsAll(vdis, list)
    ensures Uuids(list, |list|) == vdis.Keys
  {
  }

  class Cleaner {
    const xo: Client
    const creationLock: CreationLock
    var firstSeen: map<Uuid, nat>

    constructor (xo: Client, creationLock: CreationLock)
      ensures this.xo == xo && this.creationLock == creationLock && firstSeen == map[]
    {
      this.xo, this.creationLock, firstSeen := xo, creationLock, map[];
    }

    /** The protocol state `s` describes this process and the remote side, between two entries; nobody
        else holds the lock. */
    ghost predicate InStep(s: State)
      reads this, xo, creationLock
    {
      && s.vdis == xo.vdis && s.now == xo.now && s.firstSeen == firstSeen
      && s.readers == {} && !s.writer && creationLock.readers == 0 && !creationLock.writer
    }

    /** Asks for the disk again and compares it with the listing. */
    method StillAsListed(list: seq<Entry>, i: nat, ghost r: Running) returns (same: bool, ghost r': Running)
      requires Last(r).vdis == xo.vdis && i < |list| && Last(r).cleaner == Refetching(list, i)
      modifies xo`faults
      ensures Continues(r, r')
      ensures Last(r') == if same then Last(r).(cleaner := Stamping(list, i), writer := true)
                          else Last(r).(cleaner := Scanning(list, i + 1), writer := false)
      ensures xo.faults >= old(xo.faults)
      ensures xo.faults == old(xo.faults) && list[i].uuid in xo.vdis && xo.vdis[list[i].uuid] == list[i].vdi ==> same
    {
      var refetched := xo.GetVdiByUuid(list[i].uuid);
      r' := Refetches(r, list, i, if refetched.Ok? then Some(refetched.value) else None);
      same := refetched.Ok? && refetched.value.desc == list[i].vdi.desc && refetched.value.name == list[i].vdi.name;
    }

    /** Stamps the mark and writes it. */
    method WriteMark(list: seq<Entry>, i: nat, ghost r: Running) returns (ghost r': Running)
      requires Last(r).vdis == xo.vdis && Last(r).now == xo.now && i < |list| && Last(r).cleaner == Stamping(list, i)
      modifies xo`vdis, xo`faults, xo`now
      ensures Continues(r, r')
      ensures Last(r') == Last(r).(vdis := xo.vdis, now := xo.now, cleaner := Scanning(list, i + 1), writer := false)
      ensures xo.faults >= old(xo.faults) && xo.now >= old(xo.now)
      ensures xo.faults == old(xo.faults) && list[i].uuid in old(xo.vdis) ==>
                xo.vdis == Edited(old(xo.vdis), list[i].uuid, None, Some(Candidate(xo.now)))
    {
      var stamp := xo.Now();
      r' := Stamps(r, list, i, stamp);
      ghost var o;
      var edited;
      edited, o := xo.EditVdi(list[i].uuid, None, Some(Candidate(stamp)));
      r' := Marks(r', list, i, stamp, o);
    }

    /** Marks `list[i]` if it is still the disk that was listed; the caller holds the lock. */
    method MarkLocked(list: seq<Entry>, i: nat, ghost r: Running) returns (ghost r': Running)
      requires Last(r).vdis == xo.vdis && Last(r).now == xo.now && i < |list| && Last(r).cleaner == Refetching(list, i)
      modifies xo`vdis, xo`faults, xo`now
      ensures Continues(r, r')
      ensures Last(r') == Last(r).(vdis := xo.vdis, now := xo.now, cleaner := Scanning(list, i + 1), writer := false)
      ensures xo.faults >= old(xo.faults) && xo.now >= old(xo.now)
      ensures xo.faults == old(xo.faults) && list[i].uuid in old(xo.vdis)
              && old(xo.vdis[list[i].uuid]) == list[i].vdi ==>
                xo.vdis == Edited(old(xo.vdis), list[i].uuid, None, Some(Candidate(xo.now)))
    {
      var same;
      same, r' := StillAsListed(list, i, r);
      if same {
        r' := WriteMark(list, i, r');
      }
    }

    method SetDeletionCandidate(list: seq<Entry>, i: nat, ghost r: Running) returns (ghost r': Running)
      requires InStep(Last(r)) && i < |list| && Last(r).cleaner == WantsLock(list, i)
      modifies xo`vdis, xo`faults, xo`now, creationLock
      ensures Continues(r, r') && creationLock.readers == 0 && !creationLock.writer
      ensures Last(r') == Last(r).(vdis := xo.vdis, now := xo.now, cleaner := Scanning(list, i + 1))
      ensures xo.faults >= old(xo.faults) && xo.now >= old(xo.now)
      ensures xo.faults == old(xo.faults) && list[i].uuid in old(xo.vdis)
              && old(xo.vdis[list[i].uuid]) == list[i].vdi ==>
                xo.vdis == Edited(old(xo.vdis), list[i].uuid, None, Some(Candidate(xo.now)))
    {
      creationLock.AcquireDeletion();
      r' := TakesExclusive(r, list, i);
      r' := MarkLocked(list, i, r');
      creationLock.ReleaseDeletion();
    }

    /** What a round of the loop guarantees when nothing fails: the disk is judged at `at` and marked,
        if at all, at the end. */
    twostate predicate QuietRound(e: Entry, at: nat)
      reads this, xo
    {
      && old(xo.now) <= at <= xo.now
      && (xo.faults == old(xo.faults) && e.uuid in old(xo.vdis) && old(xo.vdis[e.uuid]) == e.vdi ==>
            && xo.vdis == OneDisk(old(xo.vdis), e, old(firstSeen), at, xo.now)
            && firstSeen == OneSeen(old(firstSeen), e, at))
    }

    /** A temporary disk without metadata: remember it, or mark it if it has been seen long enough. */
    method ProcessUnmarked(list: seq<Entry>, i: nat, ghost r: Running) returns (ghost at: nat, ghost r': Running)
      requires InStep(Last(r)) && i < |list| && Last(r).cleaner == Scanning(list, i) && Unmarked(list[i].vdi)
      modifies this, xo`vdis, xo`faults, xo`now, creationLock
      ensures Continues(r, r') && creationLock.readers == 0 && !creationLock.writer
      ensures Last(r') == Last(r).(vdis := xo.vdis, now := xo.now, firstSeen := firstSeen,
                                   cleaner := Scanning(list, i + 1))
      ensures xo.faults >= old(xo.faults) && QuietRound(list[i], at)
    {
      var u := list[i].uuid;
      var now := xo.Now();
      at := now;
      r' := Ticks(r, now);
      r' := Inspects(r', list, i);
      if u in firstSeen {
        if now - firstSeen[u] > MARK_AFTER {
          r' := SetDeletionCandidate(list, i, r');
        }
      } else {
        firstSeen := firstSeen[u := now];
      }
    }

    /** A marked temporary disk: delete it if the mark is old enough. */
    method ProcessCandidate(list: seq<Entry>, i: nat, ghost r: Running) returns (ghost at: nat, ghost r': Running)
      requires InStep(Last(r)) && i < |list| && Last(r).cleaner == Scanning(list, i)
      requires list[i].vdi.name.Temporary? && list[i].vdi.desc.Candidate?
      modifies xo`vdis, xo`faults, xo`now
      ensures Continues(r, r')
      ensures Last(r') == Last(r).(vdis := xo.vdis, now := xo.now, cleaner := Scanning(list, i + 1))
      ensures xo.faults >= old(xo.faults) && QuietRound(list[i], at)
    {
      var now := xo.Now();
      at := now;
      r' := Ticks(r, now);
      r' := Inspects(r', list, i);
      if list[i].vdi.desc.unusedSince < now - DELETE_AFTER {
        ghost var o;
        var deleted;
        deleted, o := xo.DeleteVdi(list[i].uuid);
        r' := Erases(r', list, i, o);
      }
    }

    /** One round of the loop over the listing. */
    method Process(list: seq<Entry>, i: nat, ghost r: Running) returns (ghost at: nat, ghost r': Running)
      requires InStep(Last(r)) && i < |list| && Last(r).cleaner == Scanning(list, i)
      modifies this, xo`vdis, xo`faults, xo`now, creationLock
      ensures Continues(r, r') && creationLock.readers == 0 && !creationLock.writer
      ensures Last(r') == Last(r).(vdis := xo.vdis, now := xo.now, firstSeen := firstSeen,
                                   cleaner := Scanning(list, i + 1))
      ensures xo.faults >= old(xo.faults) && QuietRound(list[i], at)
    {
      var vdi := list[i].vdi;
      if vdi.name.Temporary? && vdi.desc.NoMetadata? {
        at, r' := ProcessUnmarked(list, i, r);
      } else if vdi.name.Temporary? && vdi.desc.Candidate? {
        at, r' := ProcessCandidate(list, i, r);
      } else {
        // not temporary, unreadable, or storage information: left alone
        at := xo.now;
        r' := Inspects(r, list, i);
      }
    }

    /** Forgets disks that were not listed. */
    method Prune(seenNow: set<Uuid>)
      modifies this
      ensures firstSeen == Kept(old(firstSeen), seenNow)
    {
      var rest := firstSeen.Keys;
      while rest != {}
        invariant firstSeen.Keys <= old(firstSeen).Keys
        invariant forall u :: u in old(firstSeen) ==> u in rest || (u in firstSeen <==> u in seenNow)
        invariant forall u :: u in rest ==> u in firstSeen
        invariant forall u :: u in firstSeen ==> firstSeen[u] == old(firstSeen)[u]
        decreases |rest|
      {
        var u :| u in rest;
        rest := rest - {u};
        if u !in seenNow {
          firstSeen := firstSeen - {u};
        }
      }
    }

    /** The loop over the listing. */
    method Sweep(list: seq<Entry>, ghost r: Running) returns (seenNow: set<Uuid>, ghost r': Running)
      requires InStep(Last(r)) && Last(r).cleaner == Scanning(list, 0) && ListsAll(xo.vdis, list)
      modifies this, xo`vdis, xo`faults, xo`now, creationLock
      ensures Continues(r, r') && creationLock.readers == 0 && !creationLock.writer
      ensures Last(r') == Last(r).(vdis := xo.vdis, now := xo.now, firstSeen := firstSeen,
                                   cleaner := Scanning(list, |list|))
      ensures seenNow == Uuids(list, |list|) == old(xo.vdis).Keys
      ensures xo.faults >= old(xo.faults) && xo.now >= old(xo.now)
      ensures xo.faults == old(xo.faults) ==>
                SoFar(old(xo.vdis), old(firstSeen), xo.vdis, firstSeen, seenNow, old(xo.now), xo.now)
    {
      r' := r;
      seenNow := {};
      ghost var vdis0, seen0, now0, faults0 := xo.vdis, firstSeen, xo.now, xo.faults;
      var i := 0;
      while i < |list|
        invariant i <= |list| && seenNow == Uuids(list, i)
        invariant Continues(r, r') && creationLock.readers == 0 && !creationLock.writer
        invariant Last(r') == Last(r).(vdis := xo.vdis, now := xo.now, firstSeen := firstSeen,
                                       cleaner := Scanning(list, i))
        invariant xo.faults >= faults0 && xo.now >= now0
        invariant xo.faults == faults0 ==> SoFar(vdis0, seen0, xo.vdis, firstSeen, seenNow, now0, xo.now)
      {
        ghost var vdis, seen, done, before := xo.vdis, firstSeen, seenNow, xo.now;
        seenNow := seenNow + {list[i].uuid};
        ghost var at;
        at, r' := Process(list, i, r');
        if xo.faults == faults0 {
          OneMore(vdis0, seen0, vdis, seen, done, list[i], now0, before, at, xo.now);
        }
        i := i + 1;
      }
      AllListed(vdis0, list);
    }

    /** One pass. Whatever goes wrong, it is a stretch of a run of the creation protocol; if nothing
        goes wrong, it deals with every disk, at some point between its start and its end. */
    method Cleanup(ghost r: Running) returns (ghost r': Running)
      requires InStep(Last(r)) && Last(r).cleaner == Sleeping
      modifies this, xo`vdis, xo`faults, xo`now, creationLock
      ensures Continues(r, r') && creationLock.readers == 0 && !creationLock.writer
      ensures Last(r') == Last(r).(vdis := xo.vdis, now := xo.now, firstSeen := firstSeen)
      ensures xo.faults == old(xo.faults) ==>
                forall u :: Passed(old(xo.vdis), old(firstSeen), xo.vdis, firstSeen, u, old(xo.now), xo.now)
    {
      var listing := xo.GetVdis();
      r' := Listed(r, listing);
      if listing.None? {
        return;
      }
      var seenNow;
      seenNow, r' := Sweep(listing.value, r');
      if xo.faults == old(xo.faults) {
        WholePass(old(xo.vdis), old(firstSeen), xo.vdis, firstSeen, old(xo.now), xo.now);
      }
      r' := Prunes(r', listing.value);
      Prune(seenNow);
    }
  }
}

/**
  CreateVolume and createDisk as code (pkg/csi/controller.go:94-153, 571-622, 810-834). Whatever the
  remote calls answer, one execution is a stretch of a run of the creation protocol, so everything
  proved about runs holds of it; what it does to the disks when nothing else happens meanwhile is
  stated directly.
 */
module VolumeCreator {
  import opened Wrappers
  import opened DiskNames
  import opened Metadata
  import opened Xo
  import opened SrPicking
  import opened VolumeIds
  import opened CreationProtocol
  import opened CreationRuns
  import opened XoClient
  import opened TempCleaner
  import SrSelection
  import StorageParameters
  import opened StorageSelections

  // ---------- the steps of one call, as equations ----------

  /** What a call for `v` can see of a protocol state. */
  datatype Sight = Sight(vdis: map<Uuid, Vdi>, used: set<Uuid>, writer: bool, call: Option<Call>, failed: set<nat>,
                         migratory: set<string>, cleaner: CreationProtocol.Cleaner)

  ghost function See(s: State, v: string): Sight {
    Sight(s.vdis, s.used, s.writer, if v in s.calls then Some(s.calls[v]) else None, s.failed, s.migratory,
          s.cleaner)
  }

  /** The call is about to do what `pc` says. */
  ghost predicate IsAt(s: Sight, pc: Pc) {
    s.call.Some? && s.call.value.pc == pc
  }

  ghost function Moved(s: Sight, pc: Pc): Sight
    requires s.call.Some?
  {
    s.(call := Some(s.call.value.(pc := pc)))
  }

  ghost function Ended(s: Sight): Sight
    requires s.call.Some?
  {
    s.(call := None, failed := s.failed + {s.call.value.id})
  }

  lemma LandSeen(s: State, v: string, next: Next)
    requires v in s.calls
    ensures var t := See(s, v);
            See(Land(s, v, next), v) ==
            match next case Go(pc) => Moved(t, pc) case GiveUp => Ended(t) case Succeed => t.(call := None)
  {
  }

  /** A step that touches no disk. */
  lemma Walks(r: Running, v: string, a: CallAction) returns (r': Running)
    requires CallEnabled(Last(r), v, a) && !a.Begin? && !a.DeleteSpare? && !a.SendCreate? && !a.Rename? && !a.WriteInfo?
    ensures Continues(r, r')
    ensures var t := See(Last(r), v);
            See(Last(r'), v) ==
            match CallNext(Last(r), v, a)
            case Go(pc) => Moved(t, pc)
            case GiveUp => Ended(t)
            case Succeed => t.(call := None)
  {
    r' := Advance(r, ByCall(v, a));
    LandSeen(Last(r), v, CallNext(Last(r), v, a));
  }

  lemma Starts(r: Running, v: string, capacity: int) returns (r': Running)
    requires v !in Last(r).calls && Ordinary(v)
    ensures Continues(r, r')
    ensures See(Last(r'), v) == See(Last(r), v).(call := Some(Call(Last(r).nextId, capacity, AtLookupFinal)))
  {
    r' := Advance(r, ByCall(v, Begin(capacity)));
  }

  lemma Spares(r: Running, v: string, keep: Uuid, rest: seq<Uuid>, o: Outcome) returns (r': Running)
    requires IsAt(See(Last(r), v), AtDeleteRest(keep, rest)) && rest != [] && Possible(o, rest[0], Last(r).vdis)
    ensures Continues(r, r')
    ensures See(Last(r'), v) ==
            Moved(See(Last(r), v).(vdis := if o.Refused? then Last(r).vdis else Last(r).vdis - {rest[0]}),
                  if |rest| == 1 then AtPick(Some(keep)) else AtDeleteRest(keep, rest[1..]))
  {
    r' := Advance(r, ByCall(v, DeleteSpare(o)));
  }

  /** Where the loop over the leftovers is before it deletes number `i`. */
  function RestAt(uuids: seq<Uuid>, i: nat): Pc
    requires 1 <= i <= |uuids|
  {
    if i == |uuids| then AtPick(Some(uuids[0])) else AtDeleteRest(uuids[0], uuids[i..])
  }

  lemma SparesOne(r: Running, v: string, uuids: seq<Uuid>, i: nat, o: Outcome) returns (r': Running)
    requires 1 <= i < |uuids| && IsAt(See(Last(r), v), RestAt(uuids, i)) && Possible(o, uuids[i], Last(r).vdis)
    ensures Continues(r, r')
    ensures See(Last(r'), v) ==
            Moved(See(Last(r), v).(vdis := if o.Refused? then Last(r).vdis else Last(r).vdis - {uuids[i]}),
                  RestAt(uuids, i + 1))
  {
    r' := Spares(r, v, uuids[0], uuids[i..], o);
    assert uuids[i..][1..] == uuids[i + 1..];
  }

  /** The request is sent; the server may make the disk; the reply may come. */
  lemma Creates(r: Running, v: string, sr: Uuid, made: Option<Uuid>, told: bool) returns (r': Running)
    requires IsAt(See(Last(r), v), AtCreate(sr)) && (made.Some? ==> made.value !in Last(r).used)
             && (told ==> made.Some?)
    ensures Continues(r, r')
    ensures var t := See(Last(r), v);
            var t' := if made.None? then t
                      else t.(vdis := t.vdis[made.value := Vdi(Temporary(v), NoMetadata(""), t.call.value.capacity,
                                                               sr)],
                              used := t.used + {made.value});
            See(Last(r'), v) == if told then Moved(t', AtRename(made.value)) else Ended(t')
  {
    var id := Last(r).calls[v].id;
    r' := Sends(r, v, sr);
    if made.Some? {
      r' := Serves(r', id, made.value, v);
    }
    if told {
      r' := Walks(r', v, Reply);
    } else {
      r' := Walks(r', v, ReplyError);
    }
  }

  lemma Sends(r: Running, v: string, sr: Uuid) returns (r': Running)
    requires IsAt(See(Last(r), v), AtCreate(sr))
    ensures Continues(r, r') && See(Last(r'), v) == Moved(See(Last(r), v), AtReply)
    ensures var c := Last(r).calls[v];
            c.id in Last(r').orders && Last(r').orders[c.id] == Order(v, c.capacity, sr, None)
  {
    r' := Advance(r, ByCall(v, SendCreate));
  }

  lemma Serves(r: Running, id: nat, u: Uuid, v: string) returns (r': Running)
    requires id in Last(r).orders && Last(r).orders[id].result.None? && u !in Last(r).used
    ensures Continues(r, r')
    ensures var o := Last(r).orders[id];
            && id in Last(r').orders && Last(r').orders[id] == o.(result := Some(u))
            && See(Last(r'), v) ==
               See(Last(r), v).(vdis := Last(r).vdis[u := Vdi(Temporary(o.volume), NoMetadata(""), o.size, o.sr)],
                                used := Last(r).used + {u})
  {
    r' := Advance(r, ByWorld(ServerCreates(id, u)));
  }

  lemma Renames(r: Running, v: string, u: Uuid, o: Outcome) returns (r': Running)
    requires IsAt(See(Last(r), v), AtRename(u)) && Possible(o, u, Last(r).vdis)
    ensures Continues(r, r')
    ensures var t := See(Last(r), v);
            var t' := if o.Refused? then t else t.(vdis := Edited(t.vdis, u, Some(Final(v)), Some(NoMetadata(""))));
            See(Last(r'), v) == if o.Done? then Moved(t', AtFetch(u)) else Ended(t')
  {
    r' := Advance(r, ByCall(v, Rename(o)));
  }

  lemma Describes(r: Running, v: string, u: Uuid, info: StorageInfo, o: Outcome) returns (r': Running)
    requires IsAt(See(Last(r), v), AtWriteInfo(u)) && Possible(o, u, Last(r).vdis) && info.Stored()
    ensures Continues(r, r')
    ensures var t := See(Last(r), v);
            var t' := if o.Refused? then t else t.(vdis := Edited(t.vdis, u, None, Some(Info(info))));
            See(Last(r'), v) == if o.Done? then Moved(t', AtFinish(u)) else Ended(t')
  {
    r' := Advance(r, ByCall(v, WriteInfo(info, o)));
  }

  // ---------- the code ----------

  /** Nothing changed except that some of `gone` are gone. */
  ghost predicate OnlyLoses(before: map<Uuid, Vdi>, after: map<Uuid, Vdi>, gone: seq<Uuid>) {
    && (forall u :: u in after ==> u in before && after[u] == before[u])
    && (forall u :: u in before && u !in after ==> u in gone)
  }

  ghost predicate LosesTemporaries(before: map<Uuid, Vdi>, after: map<Uuid, Vdi>, v: string) {
    && (forall u :: u in after ==> u in before && after[u] == before[u])
    && (forall u :: u in before && u !in after ==> before[u].name == Temporary(v))
  }

  /** The disk that a call for `v` works with, where there is one: the finished one; or a temporary one,
      if none is finished. */
  ghost predicate WorksWith(vdis: map<Uuid, Vdi>, v: string, u: Uuid) {
    u in vdis && (OneNamed(vdis, Final(v), u) || (NoneNamed(vdis, Final(v)) && vdis[u].name == Temporary(v)))
  }

  /** It has the right size, if it is finished. */
  ghost predicate WorksWithRightly(vdis: map<Uuid, Vdi>, v: string, u: Uuid, capacity: int) {
    WorksWith(vdis, v, u) && (vdis[u].name == Final(v) ==> vdis[u].size == capacity)
  }

  /** No disk moves or changes its size. */
  ghost predicate StayPut(before: map<Uuid, Vdi>, after: map<Uuid, Vdi>) {
    forall u :: u in before && u in after ==> after[u].sr == before[u].sr && after[u].size == before[u].size
  }

  /** A new disk has the requested size and is on the SR picked for it. */
  predicate AsAsked(vdi: Vdi, capacity: int, picked: Result<Sr, PickError>) {
    vdi.size == capacity && picked.Ok? && vdi.sr == picked.value.uuid
  }

  /** Only disks of `v`, temporary or finished, are touched, none is moved or resized, and at most the disk
      `made` is new. */
  ghost predicate WorksOn(before: map<Uuid, Vdi>, after: map<Uuid, Vdi>, v: string, made: Option<Uuid>) {
    && (forall u :: u in before && !IsOf(before[u], v) ==> u in after && after[u] == before[u])
    && (forall u :: u in after && u !in before ==> made == Some(u))
    && (forall u :: u in after && (u !in before || after[u] != before[u]) ==> IsOf(after[u], v))
    && StayPut(before, after)
  }

  /** Some requisite topology allows every segment handed out. */
  ghost predicate AllowedTopology(handedOut: Option<Topology>, req: Requirement) {
    handedOut.Some? && exists k :: 0 <= k < |req.requisite| && SrSelection.AllowedBy(handedOut.value, req.requisite[k])
  }

  /** What finding or creating the disk leaves behind: the one finished disk there was, if it has the right
      size, with nothing changed; or, where none was finished and a repository was picked, one that was made
      there as asked, or a temporary one. */
  ghost predicate Obtained(before: map<Uuid, Vdi>, after: map<Uuid, Vdi>, v: string, capacity: int,
                           sel: SrSelection.Selection, req: Option<Requirement>, res: Result<Uuid, CreateError>,
                           made: Option<Uuid>)
  {
    && OnlyTouches(before, after, v, made)
    && (made.Some? ==> NoneNamed(before, Final(v)) && NoneNamed(before, Temporary(v)))
    && (res.Ok? ==>
          && res.value in after && after[res.value].name == Final(v)
          && (made.None? ==> WorksWithRightly(before, v, res.value, capacity))
          && (made.None? && before[res.value].name == Final(v) ==> after == before)
          && (made.Some? ==>
                && made == Some(res.value) && SelectsFor(sel)
                && AsAsked(after[res.value], capacity, sel.SrForTopology(capacity, req))
                && IsAmong(sel.srs, after[res.value].sr)))
  }

  /** What a CreateVolume call with this selection leaves behind. A success is a finished disk `u` of
      the volume that holds the selection in its description, and the topology of its SR. A disk is made
      only where there is none of the volume; it has the requested size, is on the SR picked for it, and
      gets an allowed topology. No disk of anything else is touched. */
  ghost predicate Leaves(before: map<Uuid, Vdi>, after: map<Uuid, Vdi>, v: string, capacity: int,
                         sel: SrSelection.Selection, req: Option<Requirement>,
                         res: Result<(Uuid, Option<Topology>), CreateError>, made: Option<Uuid>)
  {
    && WorksOn(before, after, v, made)
    && (made.Some? ==> NoneNamed(before, Final(v)) && NoneNamed(before, Temporary(v)))
    && (res.Ok? ==>
          var u := res.value.0;
          && u in after && after[u].name == Final(v) && after[u].desc == Info(sel.ToStorageInfo())
          && (exists sr :: sr in sel.srs && sr.uuid == after[u].sr && res.value.1 == sel.TopologyOf(sr))
          && (made.None? ==> WorksWithRightly(before, v, u, capacity))
          && (made.Some? ==>
               made == Some(u) && SelectsFor(sel) && AsAsked(after[u], capacity, sel.SrForTopology(capacity, req)))
          && (made.Some? && GetsAllowed(sel, req) ==> AllowedTopology(res.value.1, req.value)))
  }

  /** Volumes found by tag that do not migrate keep to the requisite topologies, if the preferred ones do. */
  predicate GetsAllowed(sel: SrSelection.Selection, req: Option<Requirement>) {
    sel.kind == Some(SrSelection.ByTag) && !sel.migrating && req.Some? && PreferredWithinRequisite(req.value)
  }

  predicate SelectsFor(sel: SrSelection.Selection) {
    sel.kind == Some(SrSelection.ByUuid) ==> sel.srs != []
  }

  /** Why a call with this selection fails; `faulty` says that some remote call has failed. */
  ghost predicate Blames(before: map<Uuid, Vdi>, v: string, capacity: int, sel: SrSelection.Selection,
                         req: Option<Requirement>, error: CreateError, faulty: bool)
  {
    match error
    case RetryLater => faulty
    case Duplicates => SeveralNamed(before, Final(v))
    case SizeMismatch => exists u :: OneNamed(before, Final(v), u) && before[u].size != capacity
    case NoRoom => NoneNamed(before, Final(v)) && SelectsFor(sel) && sel.SrForTopology(capacity, req).Err?
    case Misplaced => exists u :: WorksWithRightly(before, v, u, capacity) && !IsAmong(sel.srs, before[u].sr)
    case _ => false
  }

  /** What picking an SR and making use of it can come to. */
  predicate PicksOrBlames(picked: Result<Sr, PickError>, res: Result<Uuid, CreateError>, faulty: bool) {
    match res
    case Ok(_) => picked.Ok?
    case Err(NoRoom) => picked.Err?
    case Err(RetryLater) => faulty
    case _ => false
  }

  lemma DescribingWorksOn(before: map<Uuid, Vdi>, mid: map<Uuid, Vdi>, after: map<Uuid, Vdi>, v: string,
                          made: Option<Uuid>, u: Uuid, desc: Description)
    requires OnlyTouches(before, mid, v, made) && u in mid && mid[u].name == Final(v)
    requires after == mid || after == Edited(mid, u, None, Some(desc))
    ensures WorksOn(before, after, v, made)
  {
    assert u in before ==> IsOf(before[u], v);
  }

  lemma NothingElse(before: map<Uuid, Vdi>, after: map<Uuid, Vdi>, v: string, made: Option<Uuid>)
    requires OnlyTouches(before, after, v, made)
    ensures WorksOn(before, after, v, made)
  {
  }

  /** Describing what was obtained is all that remains to be done. */
  lemma ObtainedAndDescribed(before: map<Uuid, Vdi>, mid: map<Uuid, Vdi>, after: map<Uuid, Vdi>, v: string,
                             capacity: int, sel: SrSelection.Selection, req: Option<Requirement>,
                             disk: Result<Uuid, CreateError>, made: Option<Uuid>,
                             topology: Result<Option<Topology>, CreateError>)
    requires Obtained(before, mid, v, capacity, sel, req, disk, made) && PicksAllowed(sel, capacity, req)
    requires disk.Err? ==> after == mid
    requires disk.Ok? ==> after == mid || after == Edited(mid, disk.value, None, Some(Info(sel.ToStorageInfo())))
    requires disk.Ok? && topology.Ok? ==>
               && after == Edited(mid, disk.value, None, Some(Info(sel.ToStorageInfo())))
               && exists sr :: sr in sel.srs && sr.uuid == after[disk.value].sr && topology.value == sel.TopologyOf(sr)
    ensures Leaves(before, after, v, capacity, sel, req, Both(disk, topology), made)
  {
    if disk.Err? {
      NothingElse(before, after, v, made);
    } else {
      DescribingWorksOn(before, mid, after, v, made, disk.value, Info(sel.ToStorageInfo()));
      if topology.Ok? && made.Some? {
        assert forall sr: Sr :: sr.uuid == after[disk.value].sr ==> AsPicked(sel, capacity, req, sr);
      }
    }
  }

  lemma ObtainedWhereItWas(before: map<Uuid, Vdi>, mid: map<Uuid, Vdi>, v: string, capacity: int,
                           sel: SrSelection.Selection, req: Option<Requirement>, u: Uuid, made: Option<Uuid>)
    requires Obtained(before, mid, v, capacity, sel, req, Ok(u), made) && !IsAmong(sel.srs, mid[u].sr)
    ensures Blames(before, v, capacity, sel, req, Misplaced, false)
  {
    assert WorksWithRightly(before, v, u, capacity) && before[u].sr == mid[u].sr;
  }

  function Both(disk: Result<Uuid, CreateError>, topology: Result<Option<Topology>, CreateError>)
    : Result<(Uuid, Option<Topology>), CreateError>
  {
    if disk.Err? then Err(disk.error) else if topology.Err? then Err(topology.error)
                                           else Ok((disk.value, topology.value))
  }

  lemma NothingLeft(vdis: map<Uuid, Vdi>, v: string, capacity: int, sel: SrSelection.Selection,
                    req: Option<Requirement>, error: CreateError)
    ensures Leaves(vdis, vdis, v, capacity, sel, req, Err(error), None)
  {
  }

  function Answer(sel: SrSelection.Selection, v: string, disk: Result<(Uuid, Option<Topology>), CreateError>)
    : Result<(string, Option<Topology>), CreateError>
  {
    match disk case Ok((u, topology)) => Ok((HandleFor(sel, v, u), topology)) case Err(error) => Err(error)
  }

  function HandleFor(sel: SrSelection.Selection, v: string, u: Uuid): string {
    match sel.VolumeIdType()
    case NameAsVolumeId => CreateVolumeIdWithName(v)
    case UuidAsVolumeId => CreateVolumeIdWithUuid(u)
  }

  /** A disk on the SR picked for it gets a topology that the requirement allows, if the volume is a
      tagged one without migration. */
  ghost predicate PicksAllowed(sel: SrSelection.Selection, capacity: int, req: Option<Requirement>) {
    GetsAllowed(sel, req) ==>
      forall sr :: sr in sel.srs && AsPicked(sel, capacity, req, sr) ==> AllowedTopology(sel.TopologyOf(sr), req.value)
  }

  ghost predicate AsPicked(sel: SrSelection.Selection, capacity: int, req: Option<Requirement>, sr: Sr) {
    (sel.kind == Some(SrSelection.ByUuid) ==> sel.srs != []) &&
    sel.SrForTopology(capacity, req).Ok? && sel.SrForTopology(capacity, req).value.uuid == sr.uuid
  }

  lemma ChosenPicksAllowed(sel: SrSelection.Selection, p: StorageParameters.Parameters, hostTopology: bool,
                           dir: map<Uuid, Sr>, listing: seq<Sr>, capacity: int, req: Option<Requirement>)
    requires SrSelection.Chosen(sel, p, hostTopology, dir, listing)
    ensures PicksAllowed(sel, capacity, req)
  {
    if GetsAllowed(sel, req) {
      forall sr | sr in sel.srs && AsPicked(sel, capacity, req, sr)
        ensures AllowedTopology(sel.TopologyOf(sr), req.value)
      {
        SrSelection.FreshTopologyIsRequisite(sel, p, hostTopology, dir, listing, capacity, req.value,
                                             Vdi(Foreign(""), NoMetadata(""), capacity, sr.uuid), sel.TopologyOf(sr));
      }
    }
  }

  predicate IsAmong(srs: seq<Sr>, u: Uuid) {
    exists sr :: sr in srs && sr.uuid == u
  }

  lemma PickedIsSelected(sel: SrSelection.Selection, capacity: int, req: Option<Requirement>)
    requires (sel.kind == Some(SrSelection.ByUuid) ==> sel.srs != []) && sel.SrForTopology(capacity, req).Ok?
    ensures IsAmong(sel.srs, sel.SrForTopology(capacity, req).value.uuid)
  {
    if sel.kind == Some(SrSelection.ByTag) {
      PickMeetsSpecification(sel.srs, capacity, req, if sel.sharedSr then Pool else Host);
    }
    assert sel.SrForTopology(capacity, req).value in sel.srs;
  }

  // ---------- what CreateVolume promises, told from its arguments and the state ----------

  /** SR `u` is one that the parameters lead to. */
  predicate OnSelected(p: StorageParameters.Parameters, dir: map<Uuid, Sr>, u: Uuid) {
    u in dir && SrSelection.Selectable(p, dir[u])
  }

  /** A success hands out disk `u`: the finished one there was, of the right size; or, where none was
      finished, a temporary one there was; or a new one, of the requested size in the best place. */
  ghost predicate Delivers(before: map<Uuid, Vdi>, after: map<Uuid, Vdi>, v: string, p: StorageParameters.Parameters,
                           hostTopology: bool, dir: map<Uuid, Sr>, capacity: int, req: Option<Requirement>, u: Uuid,
                           handle: string, topology: Option<Topology>)
  {
    && SrSelection.Satisfiable(p, dir)
    && u in after && after[u].name == Final(v) && after[u].desc.Info? && OnSelected(p, dir, after[u].sr)
    && SrSelection.Owed(p, hostTopology, v, u, dir[after[u].sr], handle, topology, after[u].desc.info)
    && (u in before ==>
          WorksWithRightly(before, v, u, capacity) && after[u].sr == before[u].sr && after[u].size == before[u].size)
    && (u !in before ==>
          && NoneNamed(before, Final(v)) && NoneNamed(before, Temporary(v))
          && after[u].size == capacity && SrSelection.BestPlace(p, dir, req, capacity, dir[after[u].sr]))
  }

  /** The disk handed out has the requested size exactly unless it is a reused temporary one of another size. */
  lemma RightSizeExactlyWhen(before: map<Uuid, Vdi>, after: map<Uuid, Vdi>, v: string,
                             p: StorageParameters.Parameters, hostTopology: bool, dir: map<Uuid, Sr>, capacity: int,
                             req: Option<Requirement>, u: Uuid, handle: string, topology: Option<Topology>)
    requires Delivers(before, after, v, p, hostTopology, dir, capacity, req, u, handle, topology)
    ensures after[u].size == capacity <==>
            !(u in before && before[u].name == Temporary(v) && before[u].size != capacity)
  {
    assert u in before ==> before[u].name == Final(v) || before[u].name == Temporary(v);
  }

  /** The state gives this reason to fail, whatever becomes of the remote calls. */
  ghost predicate Refuses(before: map<Uuid, Vdi>, v: string, p: StorageParameters.Parameters, dir: map<Uuid, Sr>,
                          capacity: int, req: Option<Requirement>, error: CreateError)
  {
    if error.NoSr? then !SrSelection.Satisfiable(p, dir)
    else
      SrSelection.Satisfiable(p, dir) &&
      match error
      case Duplicates => SeveralNamed(before, Final(v))
      case SizeMismatch => exists u :: OneNamed(before, Final(v), u) && before[u].size != capacity
      case NoRoom => NoneNamed(before, Final(v)) && SrSelection.NoPlace(p, dir, req, capacity)
      case Misplaced => exists u :: WorksWithRightly(before, v, u, capacity) && !OnSelected(p, dir, before[u].sr)
      case _ => false
  }

  /** How the call ends when no remote call fails and the parameters lead to repositories. */
  ghost predicate Ends(before: map<Uuid, Vdi>, v: string, p: StorageParameters.Parameters, dir: map<Uuid, Sr>,
                       capacity: int, req: Option<Requirement>, x: Uuid,
                       res: Result<(string, Option<Topology>), CreateError>)
  {
    && (SeveralNamed(before, Final(v)) ==> res == Err(Duplicates))
    && (forall u :: OneNamed(before, Final(v), u) ==>
          if before[u].size != capacity then res == Err(SizeMismatch)
          else if OnSelected(p, dir, before[u].sr) then res.Ok? && x == u
          else res == Err(Misplaced))
    && (NoneNamed(before, Final(v)) ==> res.Ok? || res == Err(NoRoom) || res == Err(Misplaced))
    && (NoneNamed(before, Final(v)) && !SrSelection.NoPlace(p, dir, req, capacity) ==> res != Err(NoRoom))
    && (NoneNamed(before, Final(v)) && NoneNamed(before, Temporary(v)) ==> res != Err(Misplaced))
  }

  lemma AmongExactlyWhen(sel: SrSelection.Selection, p: StorageParameters.Parameters, hostTopology: bool,
                         dir: map<Uuid, Sr>, listing: seq<Sr>, u: Uuid)
    requires SrSelection.Chosen(sel, p, hostTopology, dir, listing)
    ensures SrSelection.Satisfiable(p, dir)
    ensures IsAmong(sel.srs, u) <==> OnSelected(p, dir, u)
  {
    SrSelection.SelectsExactlyWhen(p, hostTopology, dir, listing);
    assert OnSelected(p, dir, u) ==> dir[u] in sel.srs;
  }

  lemma DeliversWhatIsOwed(sel: SrSelection.Selection, p: StorageParameters.Parameters, hostTopology: bool,
                           dir: map<Uuid, Sr>, listing: seq<Sr>, before: map<Uuid, Vdi>, after: map<Uuid, Vdi>,
                           v: string, capacity: int, req: Option<Requirement>, u: Uuid, topology: Option<Topology>,
                           made: Option<Uuid>)
    requires SrSelection.Chosen(sel, p, hostTopology, dir, listing)
    requires Leaves(before, after, v, capacity, sel, req, Ok((u, topology)), made)
    ensures Delivers(before, after, v, p, hostTopology, dir, capacity, req, u, HandleFor(sel, v, u), topology)
  {
    var sr :| sr in sel.srs && sr.uuid == after[u].sr && topology == sel.TopologyOf(sr);
    SrSelection.SelectionOwes(sel, p, hostTopology, dir, listing, v, u, sr);
    AmongExactlyWhen(sel, p, hostTopology, dir, listing, sr.uuid);
    SrSelection.PlaceIsBest(sel, p, hostTopology, dir, listing, capacity, req);
  }

  lemma RefusesForAReason(sel: SrSelection.Selection, p: StorageParameters.Parameters, hostTopology: bool,
                          dir: map<Uuid, Sr>, listing: seq<Sr>, before: map<Uuid, Vdi>, v: string, capacity: int,
                          req: Option<Requirement>, error: CreateError, faulty: bool)
    requires SrSelection.Chosen(sel, p, hostTopology, dir, listing)
    requires Blames(before, v, capacity, sel, req, error, faulty) && !error.RetryLater?
    ensures Refuses(before, v, p, dir, capacity, req, error)
  {
    forall u ensures IsAmong(sel.srs, u) <==> OnSelected(p, dir, u) {
      AmongExactlyWhen(sel, p, hostTopology, dir, listing, u);
    }
    AmongExactlyWhen(sel, p, hostTopology, dir, listing, "");
    SrSelection.PlaceIsBest(sel, p, hostTopology, dir, listing, capacity, req);
  }

  /** What a call owes its caller: the disk and the SR, or a reason to fail; and it may ask to be
      repeated only if a remote call has failed. */
  ghost predicate Answers(before: map<Uuid, Vdi>, after: map<Uuid, Vdi>, v: string, p: StorageParameters.Parameters,
                          hostTopology: bool, dir: map<Uuid, Sr>, capacity: int, req: Option<Requirement>, u: Uuid,
                          res: Result<(string, Option<Topology>), CreateError>, faulty: bool)
  {
    match res
    case Ok((handle, topology)) =>
      Delivers(before, after, v, p, hostTopology, dir, capacity, req, u, handle, topology)
    case Err(error) => if error.RetryLater? then faulty else Refuses(before, v, p, dir, capacity, req, error)
  }

  lemma ChosenAnswers(sel: SrSelection.Selection, p: StorageParameters.Parameters, hostTopology: bool,
                      dir: map<Uuid, Sr>, listing: seq<Sr>, before: map<Uuid, Vdi>, after: map<Uuid, Vdi>, v: string,
                      capacity: int, req: Option<Requirement>, disk: Result<(Uuid, Option<Topology>), CreateError>,
                      made: Option<Uuid>, faulty: bool)
    requires SrSelection.Chosen(sel, p, hostTopology, dir, listing)
    requires Leaves(before, after, v, capacity, sel, req, disk, made)
    requires disk.Err? ==> Blames(before, v, capacity, sel, req, disk.error, faulty)
    ensures Answers(before, after, v, p, hostTopology, dir, capacity, req, DiskOf(disk), Answer(sel, v, disk), faulty)
  {
    if disk.Ok? {
      DeliversWhatIsOwed(sel, p, hostTopology, dir, listing, before, after, v, capacity, req, disk.value.0,
                         disk.value.1, made);
    } else if !disk.error.RetryLater? {
      RefusesForAReason(sel, p, hostTopology, dir, listing, before, v, capacity, req, disk.error, faulty);
    }
  }

  function DiskOf(disk: Result<(Uuid, Option<Topology>), CreateError>): Uuid {
    if disk.Ok? then disk.value.0 else ""
  }

  lemma OneToWorkWith(vdis: map<Uuid, Vdi>, v: string, u: Uuid, w: Uuid)
    requires OneNamed(vdis, Final(v), u)
    ensures !SeveralNamed(vdis, Final(v)) && !NoneNamed(vdis, Final(v))
    ensures (OneNamed(vdis, Final(v), w) <==> w == u) && (WorksWith(vdis, v, w) <==> w == u)
  {
  }

  lemma SeveralToWorkWith(vdis: map<Uuid, Vdi>, v: string, u: Uuid)
    requires SeveralNamed(vdis, Final(v))
    ensures !NoneNamed(vdis, Final(v)) && !OneNamed(vdis, Final(v), u) && !WorksWith(vdis, v, u)
  {
  }

  lemma FinishedDiskSettles(before: map<Uuid, Vdi>, after: map<Uuid, Vdi>, v: string, p: StorageParameters.Parameters,
                            hostTopology: bool, dir: map<Uuid, Sr>, capacity: int, req: Option<Requirement>, x: Uuid,
                            res: Result<(string, Option<Topology>), CreateError>, u: Uuid)
    requires Answers(before, after, v, p, hostTopology, dir, capacity, req, x, res, false)
    requires SrSelection.Satisfiable(p, dir) && OneNamed(before, Final(v), u)
    ensures if before[u].size != capacity then res == Err(SizeMismatch)
            else if OnSelected(p, dir, before[u].sr) then res.Ok? && x == u
            else res == Err(Misplaced)
  {
    OneToWorkWith(before, v, u, x);
    match res {
      case Ok((_, _)) =>
      case Err(SizeMismatch) =>
        var w :| OneNamed(before, Final(v), w) && before[w].size != capacity;
        OneToWorkWith(before, v, u, w);
      case Err(Misplaced) =>
        var w :| WorksWithRightly(before, v, w, capacity) && !OnSelected(p, dir, before[w].sr);
        OneToWorkWith(before, v, u, w);
      case Err(_) =>
    }
  }

  /** Error-free, the state settles the answer: repeated for a finished disk, the call hands out that disk
      or says what is wrong with it; for a volume without any disks it makes one, or finds no room. */
  lemma StateSettles(before: map<Uuid, Vdi>, after: map<Uuid, Vdi>, v: string, p: StorageParameters.Parameters,
                     hostTopology: bool, dir: map<Uuid, Sr>, capacity: int, req: Option<Requirement>, x: Uuid,
                     res: Result<(string, Option<Topology>), CreateError>)
    requires Answers(before, after, v, p, hostTopology, dir, capacity, req, x, res, false)
    ensures !SrSelection.Satisfiable(p, dir) <==> res == Err(NoSr)
    ensures SrSelection.Satisfiable(p, dir) ==> Ends(before, v, p, dir, capacity, req, x, res)
  {
    if SrSelection.Satisfiable(p, dir) {
      forall u | OneNamed(before, Final(v), u)
        ensures if before[u].size != capacity then res == Err(SizeMismatch)
                else if OnSelected(p, dir, before[u].sr) then res.Ok? && x == u
                else res == Err(Misplaced)
      {
        FinishedDiskSettles(before, after, v, p, hostTopology, dir, capacity, req, x, res, u);
      }
      if SeveralNamed(before, Final(v)) {
        forall u ensures !OneNamed(before, Final(v), u) && !WorksWith(before, v, u) {
          SeveralToWorkWith(before, v, u);
        }
      }
    }
  }

  /** A disk of `v`, temporary or finished. */
  predicate IsOf(vdi: Vdi, v: string) {
    vdi.name == Temporary(v) || vdi.name == Final(v)
  }

  /** Disks that are not temporary ones of `v` are untouched, none is moved or resized, at most the disk
      `made` is new, and whatever is new or changed is a disk of `v`. */
  ghost predicate OnlyTouches(before: map<Uuid, Vdi>, after: map<Uuid, Vdi>, v: string, made: Option<Uuid>) {
    && (forall u :: u in before && before[u].name != Temporary(v) ==> u in after && after[u] == before[u])
    && (forall u :: u in after && u !in before ==> made == Some(u))
    && (forall u :: u in after && (u !in before || after[u] != before[u]) ==> IsOf(after[u], v))
    && StayPut(before, after)
  }

  /** What creating a disk may do to the disks: make one, with the requested size on the picked SR. */
  ghost predicate MakesAtMost(before: map<Uuid, Vdi>, after: map<Uuid, Vdi>, v: string, capacity: int,
                              sr: Option<Uuid>, made: Option<Uuid>)
  {
    && (made.Some? ==> made.value !in before && sr.Some?)
    && after == (if made.Some?
                 then before[made.value := Vdi(Temporary(v), NoMetadata(""), capacity, sr.value)]
                 else before)
  }

  /** What a createDisk call leaves behind: disks of other names untouched, at most one new disk, as asked,
      and on success a finished one with an empty description. */
  ghost predicate Created(before: map<Uuid, Vdi>, after: map<Uuid, Vdi>, v: string, capacity: int,
                          picked: Result<Sr, PickError>, res: Result<Uuid, CreateError>, made: Option<Uuid>)
  {
    && OnlyTouches(before, after, v, made)
    && (res.Ok? ==>
          && res.value in after && after[res.value].name == Final(v) && after[res.value].desc == NoMetadata("")
          && (made.Some? ==> made == Some(res.value) && AsAsked(after[res.value], capacity, picked)))
  }

  lemma NamingCreates(before: map<Uuid, Vdi>, mid: map<Uuid, Vdi>, after: map<Uuid, Vdi>, v: string, capacity: int,
                      picked: Result<Sr, PickError>, made: Option<Uuid>, u: Uuid, res: Result<Uuid, CreateError>)
    requires MakesAtMost(before, mid, v, capacity, OnSr(picked), made) && (made.Some? ==> made == Some(u))
    requires u in mid && mid[u].name == Temporary(v)
    requires after == mid || after == Edited(mid, u, Some(Final(v)), Some(NoMetadata("")))
    requires res.Ok? ==> res.value == u && after == Edited(mid, u, Some(Final(v)), Some(NoMetadata("")))
    ensures Created(before, after, v, capacity, picked, res, made)
  {
  }

  /** Deleting spare leftovers first changes nothing about that. */
  lemma LosesThenTouches(before: map<Uuid, Vdi>, mid: map<Uuid, Vdi>, after: map<Uuid, Vdi>, v: string,
                         made: Option<Uuid>)
    requires LosesTemporaries(before, mid, v) && OnlyTouches(mid, after, v, made) && (made.Some? ==> mid == before)
    ensures OnlyTouches(before, after, v, made)
  {
  }

  function OnSr(picked: Result<Sr, PickError>): Option<Uuid> {
    if picked.Ok? then Some(picked.value.uuid) else None
  }

  lemma MakingTouchesOnly(before: map<Uuid, Vdi>, after: map<Uuid, Vdi>, v: string, capacity: int, sr: Option<Uuid>,
                          made: Option<Uuid>)
    requires MakesAtMost(before, after, v, capacity, sr, made)
    ensures OnlyTouches(before, after, v, made)
  {
  }

  /** `NoSr`: the parameters lead to no usable SR; `NoRoom`: none of these can be picked; `Misplaced`: the
      disk there is is on none of them. */
  datatype CreateError = RetryLater | SizeMismatch | Duplicates | NoDisk | NoSr | NoRoom | Misplaced

  class Creator {
    const xo: Client
    const creationLock: CreationLock

    constructor (xo: Client, creationLock: CreationLock)
      ensures this.xo == xo && this.creationLock == creationLock
    {
      this.xo, this.creationLock := xo, creationLock;
    }

    /** The protocol state describes the remote side. */
    ghost predicate Sees(s: Sight)
      reads this, xo
    {
      s.vdis == xo.vdis && s.used == xo.used
    }

    /** Tries to delete all leftovers but `uuids[0]`; failures are left to the cleaner. */
    method DeleteRest(v: string, uuids: seq<Uuid>, ghost r: Running) returns (ghost r': Running)
      requires Sees(See(Last(r), v)) && |uuids| > 1 && IsAt(See(Last(r), v), AtDeleteRest(uuids[0], uuids[1..]))
      modifies xo`vdis, xo`faults
      ensures Continues(r, r')
      ensures See(Last(r'), v) == Moved(See(Last(r), v).(vdis := xo.vdis), AtPick(Some(uuids[0])))
      ensures OnlyLoses(old(xo.vdis), xo.vdis, uuids[1..])
      ensures xo.faults >= old(xo.faults)
      ensures xo.faults == old(xo.faults) ==> forall k :: 1 <= k < |uuids| ==> uuids[k] !in xo.vdis
    {
      r' := r;
      var i := 1;
      while i < |uuids|
        invariant 1 <= i <= |uuids|
        invariant Continues(r, r')
        invariant See(Last(r'), v) == Moved(See(Last(r), v).(vdis := xo.vdis), RestAt(uuids, i))
        invariant OnlyLoses(old(xo.vdis), xo.vdis, uuids[1..])
        invariant xo.faults >= old(xo.faults)
        invariant xo.faults == old(xo.faults) ==> forall k :: 1 <= k < i ==> uuids[k] !in xo.vdis
      {
        ghost var o;
        var deleted;
        deleted, o := xo.DeleteVdi(uuids[i]);
        r' := SparesOne(r', v, uuids, i, o);
        assert uuids[1..][i - 1] == uuids[i];
        i := i + 1;
      }
    }

    /** Keeps the first of several leftovers and tries to delete the others. */
    method GetOneDiskAndDeleteRest(v: string, ghost r: Running)
      returns (res: Result<Uuid, CreateError>, ghost r': Running)
      requires Sees(See(Last(r), v)) && IsAt(See(Last(r), v), AtListTemps)
      modifies xo`vdis, xo`faults
      ensures Continues(r, r')
      ensures See(Last(r'), v) == if res.Ok? then Moved(See(Last(r), v).(vdis := xo.vdis), AtPick(Some(res.value)))
                                  else Ended(See(Last(r), v))
      ensures LosesTemporaries(old(xo.vdis), xo.vdis, v)
      ensures res.Ok? ==> res.value in xo.vdis && xo.vdis[res.value].name == Temporary(v)
      ensures res.Err? ==> xo.vdis == old(xo.vdis)
      ensures res.Err? ==> res == Err(if xo.faults > old(xo.faults) then RetryLater else NoDisk)
      ensures xo.faults == old(xo.faults) && res.Err? ==> NoneNamed(xo.vdis, Temporary(v))
      ensures res.Ok? && xo.faults == old(xo.faults) ==>
                forall u :: u in xo.vdis && xo.vdis[u].name == Temporary(v) <==> u == res.value
      ensures xo.faults >= old(xo.faults)
    {
      var listed := xo.GetVdisNamed(Temporary(v));
      r' := Walks(r, v, ListTemps(listed));
      if listed.None? {
        return Err(RetryLater), r';
      }
      var uuids := listed.value;
      if |uuids| == 0 {
        assert forall u :: u in xo.vdis && xo.vdis[u].name == Temporary(v) ==> u in uuids;
        return Err(NoDisk), r';
      }
      assert uuids[0] in uuids;
      assert forall u :: u in uuids[1..] ==> u in uuids && u != uuids[0];
      if |uuids| > 1 {
        r' := DeleteRest(v, uuids, r');
      }
      return Ok(uuids[0]), r';
    }

    /** Looks for a temporary disk of `v` left over from earlier calls. */
    method FindLeftover(v: string, ghost r: Running) returns (res: Result<Option<Uuid>, CreateError>, ghost r': Running)
      requires Sees(See(Last(r), v)) && IsAt(See(Last(r), v), AtLookupTemp)
      modifies xo`vdis, xo`faults
      ensures Continues(r, r')
      ensures See(Last(r'), v) == if res.Ok? then Moved(See(Last(r), v).(vdis := xo.vdis), AtPick(res.value))
                                  else Ended(See(Last(r), v))
      ensures LosesTemporaries(old(xo.vdis), xo.vdis, v)
      ensures res.Err? ==> xo.vdis == old(xo.vdis)
      ensures res.Ok? && res.value.Some? ==> res.value.value in xo.vdis && xo.vdis[res.value.value].name == Temporary(v)
      ensures res == Ok(None) ==> NoneNamed(old(xo.vdis), Temporary(v)) && xo.vdis == old(xo.vdis)
      ensures xo.faults >= old(xo.faults) && (res.Err? ==> res == Err(RetryLater) && xo.faults > old(xo.faults))
    {
      var found := xo.GetVdiByName(Temporary(v));
      r' := Walks(r, v, LookupTemp(found));
      match found {
        case NotFound => res := Ok(None);
        case One(u) => res := Ok(Some(u));
        case Many =>
          var one;
          one, r' := GetOneDiskAndDeleteRest(v, r');
          res := if one.Ok? then Ok(Some(one.value)) else Err(one.error);
        case Failed => res := Err(RetryLater);
      }
    }

    /** Picks an SR, and creates a temporary disk there unless there is a leftover. */
    method ProvideTemporary(v: string, capacity: int, selection: StorageSelection, req: Option<Requirement>,
                            leftover: Option<Uuid>, ghost r: Running)
      returns (res: Result<Uuid, CreateError>, ghost made: Option<Uuid>, ghost r': Running)
      requires Sees(See(Last(r), v)) && xo.vdis.Keys <= xo.used && IsAt(See(Last(r), v), AtPick(leftover))
               && Last(r).calls[v].capacity == capacity
      requires selection.srs != []
      modifies xo`vdis, xo`used, xo`faults
      ensures Continues(r, r')
      ensures See(Last(r'), v) ==
                if res.Ok? then Moved(See(Last(r), v).(vdis := xo.vdis, used := xo.used), AtRename(res.value))
                else Ended(See(Last(r), v).(vdis := xo.vdis, used := xo.used))
      ensures var picked := selection.View().SrForTopology(capacity, req);
              && MakesAtMost(old(xo.vdis), xo.vdis, v, capacity, OnSr(picked), made)
              && PicksOrBlames(picked, res, xo.faults > old(xo.faults))
      ensures made.Some? ==> made.value !in old(xo.used)
      ensures xo.used == if made.Some? then old(xo.used) + {made.value} else old(xo.used)
      ensures xo.faults >= old(xo.faults)
      ensures leftover.Some? ==> made.None? && (res.Ok? ==> res.value == leftover.value)
      ensures leftover.None? && res.Ok? ==> made == Some(res.value)
    {
      made := None;
      var picked := selection.PickSrForTopology(capacity, req);
      r' := Walks(r, v, Pick(if picked.Ok? then Some(picked.value.uuid) else None));
      if picked.Err? {
        return Err(NoRoom), made, r';
      }
      if leftover.Some? {
        return Ok(leftover.value), made, r';
      }
      var created;
      created, made := xo.CreateVdi(Temporary(v), picked.value.uuid, capacity);
      r' := Creates(r', v, picked.value.uuid, made, created.Ok?);
      res := if created.Ok? then Ok(created.value) else Err(RetryLater);
    }

    /** Provides a temporary disk and names it. */
    method ProvideAndName(v: string, capacity: int, selection: StorageSelection, req: Option<Requirement>,
                          leftover: Option<Uuid>, ghost r: Running)
      returns (res: Result<Uuid, CreateError>, ghost made: Option<Uuid>, ghost r': Running)
      requires Sees(See(Last(r), v)) && xo.vdis.Keys <= xo.used && IsAt(See(Last(r), v), AtPick(leftover))
               && Last(r).calls[v].capacity == capacity
      requires leftover.Some? ==> leftover.value in xo.vdis && xo.vdis[leftover.value].name == Temporary(v)
      requires selection.srs != []
      modifies xo`vdis, xo`used, xo`faults
      ensures Continues(r, r')
      ensures See(Last(r'), v) ==
                if res.Ok? then Moved(See(Last(r), v).(vdis := xo.vdis, used := xo.used), AtWriteInfo(res.value))
                else Ended(See(Last(r), v).(vdis := xo.vdis, used := xo.used))
      ensures Created(old(xo.vdis), xo.vdis, v, capacity, selection.View().SrForTopology(capacity, req), res, made)
      ensures xo.faults >= old(xo.faults)
      ensures PicksOrBlames(selection.View().SrForTopology(capacity, req), res, xo.faults > old(xo.faults))
      ensures leftover.Some? ==> made.None?
    {
      res, made, r' := ProvideTemporary(v, capacity, selection, req, leftover, r);
      ghost var picked := selection.View().SrForTopology(capacity, req);
      if res.Err? {
        MakingTouchesOnly(old(xo.vdis), xo.vdis, v, capacity, OnSr(picked), made);
        return;
      }
      ghost var mid, u := xo.vdis, res.value;
      res, r' := NameDisk(v, res.value, r');
      NamingCreates(old(xo.vdis), mid, xo.vdis, v, capacity, picked, made, u, res);
    }

    /** The part of createDisk under the lock. */
    method CreateLocked(v: string, capacity: int, selection: StorageSelection, req: Option<Requirement>,
                        ghost r: Running)
      returns (res: Result<Uuid, CreateError>, ghost made: Option<Uuid>, ghost r': Running)
      requires Sees(See(Last(r), v)) && xo.vdis.Keys <= xo.used && IsAt(See(Last(r), v), AtLookupTemp)
               && Last(r).calls[v].capacity == capacity
      requires selection.srs != []
      modifies xo`vdis, xo`used, xo`faults
      ensures Continues(r, r')
      ensures See(Last(r'), v) ==
                if res.Ok? then Moved(See(Last(r), v).(vdis := xo.vdis, used := xo.used), AtWriteInfo(res.value))
                else Ended(See(Last(r), v).(vdis := xo.vdis, used := xo.used))
      ensures Created(old(xo.vdis), xo.vdis, v, capacity, selection.View().SrForTopology(capacity, req), res, made)
      ensures xo.faults >= old(xo.faults)
      ensures PicksOrBlames(selection.View().SrForTopology(capacity, req), res, xo.faults > old(xo.faults))
      ensures made.Some? ==> NoneNamed(old(xo.vdis), Temporary(v))
    {
      made := None;
      var leftover;
      leftover, r' := FindLeftover(v, r);
      if leftover.Err? {
        return Err(leftover.error), made, r';
      }
      ghost var mid := xo.vdis;
      res, made, r' := ProvideAndName(v, capacity, selection, req, leftover.value, r');
      LosesThenTouches(old(xo.vdis), mid, xo.vdis, v, made);
    }

    /** Finds or creates the temporary disk of `v`, and names it, all under the shared lock. */
    method CreateDisk(v: string, capacity: int, selection: StorageSelection, req: Option<Requirement>, ghost r: Running)
      returns (res: Result<Uuid, CreateError>, ghost made: Option<Uuid>, ghost r': Running)
      requires Sees(See(Last(r), v)) && xo.vdis.Keys <= xo.used && IsAt(See(Last(r), v), AtLock)
               && Last(r).calls[v].capacity == capacity
      requires creationLock.Valid() && !creationLock.writer && !Last(r).writer
      requires selection.srs != []
      modifies xo`vdis, xo`used, xo`faults, creationLock
      ensures Continues(r, r')
      ensures creationLock.Valid() && creationLock.readers == old(creationLock.readers) && !creationLock.writer
      ensures See(Last(r'), v) ==
                if res.Ok? then Moved(See(Last(r), v).(vdis := xo.vdis, used := xo.used), AtWriteInfo(res.value))
                else Ended(See(Last(r), v).(vdis := xo.vdis, used := xo.used))
      ensures Created(old(xo.vdis), xo.vdis, v, capacity, selection.View().SrForTopology(capacity, req), res, made)
      ensures xo.faults >= old(xo.faults)
      ensures PicksOrBlames(selection.View().SrForTopology(capacity, req), res, xo.faults > old(xo.faults))
      ensures made.Some? ==> NoneNamed(old(xo.vdis), Temporary(v))
    {
      creationLock.AcquireCreation();
      r' := Walks(r, v, TakeShared);
      res, made, r' := CreateLocked(v, capacity, selection, req, r');
      creationLock.ReleaseCreation();
    }

    /** Gives the disk its final name, clears its description, and reads it back. */
    method NameDisk(v: string, u: Uuid, ghost r: Running) returns (res: Result<Uuid, CreateError>, ghost r': Running)
      requires Sees(See(Last(r), v)) && IsAt(See(Last(r), v), AtRename(u))
      modifies xo`vdis, xo`faults
      ensures Continues(r, r')
      ensures See(Last(r'), v) == if res.Ok? then Moved(See(Last(r), v).(vdis := xo.vdis), AtWriteInfo(u))
                                  else Ended(See(Last(r), v).(vdis := xo.vdis))
      ensures res.Ok? ==>
                res.value == u && u in old(xo.vdis)
                  && xo.vdis == Edited(old(xo.vdis), u, Some(Final(v)), Some(NoMetadata("")))
      ensures xo.vdis == old(xo.vdis)
              || (u in old(xo.vdis) && xo.vdis == Edited(old(xo.vdis), u, Some(Final(v)), Some(NoMetadata(""))))
      ensures res.Err? ==> res == Err(RetryLater)
      ensures xo.faults >= old(xo.faults) && (res.Err? && u in old(xo.vdis) ==> xo.faults > old(xo.faults))
    {
      ghost var o;
      var edited;
      edited, o := xo.EditVdi(u, Some(Final(v)), Some(NoMetadata("")));
      r' := Renames(r, v, u, o);
      if edited.Err? {
        return Err(RetryLater), r';
      }
      var fetched := xo.GetVdiByUuid(u);
      r' := Walks(r', v, Fetch(fetched.Ok?));
      res := if fetched.Ok? then Ok(u) else Err(RetryLater);
    }

    /** The existing finished disk of `v`, if it is unique and has the right size; or a new one. */
    method FindOrCreate(v: string, capacity: int, selection: StorageSelection, req: Option<Requirement>,
                        ghost r: Running)
      returns (res: Result<Uuid, CreateError>, ghost made: Option<Uuid>, ghost r': Running)
      requires Sees(See(Last(r), v)) && xo.vdis.Keys <= xo.used && IsAt(See(Last(r), v), AtLookupFinal)
               && Last(r).calls[v].capacity == capacity
      requires creationLock.Valid() && !creationLock.writer && !Last(r).writer
      requires selection.srs != []
      modifies xo`vdis, xo`used, xo`faults, creationLock
      ensures Continues(r, r')
      ensures creationLock.Valid() && creationLock.readers == old(creationLock.readers) && !creationLock.writer
      ensures See(Last(r'), v) ==
                if res.Ok? then Moved(See(Last(r), v).(vdis := xo.vdis, used := xo.used), AtWriteInfo(res.value))
                else Ended(See(Last(r), v).(vdis := xo.vdis, used := xo.used))
      ensures Obtained(old(xo.vdis), xo.vdis, v, capacity, selection.View(), req, res, made)
      ensures xo.faults >= old(xo.faults)
      ensures res.Err? ==>
                Blames(old(xo.vdis), v, capacity, selection.View(), req, res.error, xo.faults > old(xo.faults))
    {
      made := None;
      var found := xo.GetVdiByName(Final(v));
      r' := Walks(r, v, LookupFinal(found));
      match found {
        case NotFound =>
          res, made, r' := CreateDisk(v, capacity, selection, req, r');
          if res.Ok? && made.Some? {
            PickedIsSelected(selection.View(), capacity, req);
          }
        case One(u) =>
          res := if xo.vdis[u].size == capacity then Ok(u) else Err(SizeMismatch);
        case Many => res := Err(Duplicates);
        case Failed => res := Err(RetryLater);
      }
    }

    /** Stores the selection in the disk's description and works out the topology to hand out. */
    method Describe(v: string, u: Uuid, selection: StorageSelection, ghost r: Running)
      returns (res: Result<Option<Topology>, CreateError>, ghost r': Running)
      requires Sees(See(Last(r), v)) && IsAt(See(Last(r), v), AtWriteInfo(u)) && u in xo.vdis
      requires selection.View().ToStorageInfo().Stored()
      modifies xo`vdis, xo`faults
      ensures Continues(r, r')
      ensures xo.vdis == old(xo.vdis)
              || xo.vdis == Edited(old(xo.vdis), u, None, Some(Info(selection.View().ToStorageInfo())))
      ensures See(Last(r'), v) == if res.Ok? then See(Last(r), v).(vdis := xo.vdis, call := None)
                                  else Ended(See(Last(r), v).(vdis := xo.vdis))
      ensures res.Ok? ==>
                && xo.vdis == Edited(old(xo.vdis), u, None, Some(Info(selection.View().ToStorageInfo())))
                && exists sr ::
                     sr in selection.srs && sr.uuid == xo.vdis[u].sr && res.value == selection.View().TopologyOf(sr)
      ensures xo.faults >= old(xo.faults)
      ensures res.Err? ==> if res.error.RetryLater? then xo.faults > old(xo.faults)
                           else res == Err(Misplaced) && !IsAmong(selection.srs, old(xo.vdis)[u].sr)
    {
      var sr := xo.vdis[u].sr;
      var info := selection.View().ToStorageInfo();
      ghost var o;
      var edited;
      edited, o := xo.EditVdi(u, None, Some(Info(info)));
      r' := Describes(r, v, u, info, o);
      if edited.Err? {
        return Err(RetryLater), r';
      }
      var topology := selection.GetTopologyForVdi(sr);
      r' := Walks(r', v, Finish(topology.Ok?));
      res := if topology.Ok? then Ok(topology.value) else Err(Misplaced);
    }

    /** Builds the selection and looks up its SRs. */
    method SelectSrs(p: StorageParameters.Parameters, hostTopology: bool, ghost capacity: int,
                     ghost req: Option<Requirement>)
      returns (failure: Option<CreateError>, selection: StorageSelection, ghost listing: seq<Sr>)
      requires StorageParameters.Accepted(p) && Directory(xo.srs)
      modifies xo`faults
      ensures fresh(selection)
      ensures failure.None? ==> SrSelection.Chosen(selection.View(), p, hostTopology, xo.srs, listing)
      ensures failure.None? ==>
                selection.View().ToStorageInfo().Stored() && selection.srs != []
                  && PicksAllowed(selection.View(), capacity, req)
      ensures xo.faults >= old(xo.faults)
      ensures failure == if xo.faults > old(xo.faults) then Some(RetryLater)
                         else if SrSelection.Satisfiable(p, xo.srs) then None else Some(NoSr)
    {
      selection := new StorageSelection.FromParameters(p, hostTopology);
      var problem;
      problem, listing := selection.FindSrs(xo);
      failure := if problem.None? then None else Some(if problem.value.Remote? then RetryLater else NoSr);
      if problem.None? || problem.value.Permanent? {
        SrSelection.SelectsExactlyWhen(p, hostTopology, xo.srs, listing);
      }
      if problem.None? {
        SrSelection.ChosenInfoIsStorable(selection.View(), p, hostTopology, xo.srs, listing);
        ChosenPicksAllowed(selection.View(), p, hostTopology, xo.srs, listing, capacity, req);
      }
    }

    /** The rest of CreateVolume once its disk has been obtained. */
    method DescribeObtained(v: string, capacity: int, selection: StorageSelection, req: Option<Requirement>, u: Uuid,
                            ghost before: map<Uuid, Vdi>, ghost made: Option<Uuid>, ghost r: Running)
      returns (res: Result<(Uuid, Option<Topology>), CreateError>, ghost r': Running)
      requires Sees(See(Last(r), v)) && IsAt(See(Last(r), v), AtWriteInfo(u))
      requires Obtained(before, xo.vdis, v, capacity, selection.View(), req, Ok(u), made)
      requires selection.View().ToStorageInfo().Stored() && PicksAllowed(selection.View(), capacity, req)
      modifies xo`vdis, xo`faults
      ensures Continues(r, r')
      ensures See(Last(r'), v) == if res.Ok? then See(Last(r), v).(vdis := xo.vdis, call := None)
                                  else Ended(See(Last(r), v).(vdis := xo.vdis))
      ensures Leaves(before, xo.vdis, v, capacity, selection.View(), req, res, made)
      ensures xo.faults >= old(xo.faults)
      ensures res.Ok? ==> res.value.0 == u
      ensures res.Err? ==> if res.error.RetryLater? then xo.faults > old(xo.faults)
                           else res == Err(Misplaced) && !IsAmong(selection.View().srs, old(xo.vdis)[u].sr)
    {
      var topology;
      topology, r' := Describe(v, u, selection, r);
      ObtainedAndDescribed(before, old(xo.vdis), xo.vdis, v, capacity, selection.View(), req, Ok(u), made, topology);
      res := Both(Ok(u), topology);
    }

    /** CreateVolume once the SRs are known. */
    method CreateSelected(v: string, capacity: int, selection: StorageSelection, req: Option<Requirement>,
                          ghost r: Running)
      returns (res: Result<(Uuid, Option<Topology>), CreateError>, ghost made: Option<Uuid>, ghost r': Running)
      requires Sees(See(Last(r), v)) && xo.vdis.Keys <= xo.used && IsAt(See(Last(r), v), AtLookupFinal)
               && Last(r).calls[v].capacity == capacity
      requires creationLock.Valid() && !creationLock.writer && !Last(r).writer
      requires selection.View().ToStorageInfo().Stored() && selection.srs != []
               && PicksAllowed(selection.View(), capacity, req)
      modifies xo`vdis, xo`used, xo`faults, creationLock
      ensures Continues(r, r')
      ensures See(Last(r'), v) == if res.Ok? then See(Last(r), v).(vdis := xo.vdis, used := xo.used, call := None)
                                  else Ended(See(Last(r), v).(vdis := xo.vdis, used := xo.used))
      ensures creationLock.Valid() && creationLock.readers == old(creationLock.readers) && !creationLock.writer
      ensures Leaves(old(xo.vdis), xo.vdis, v, capacity, selection.View(), req, res, made)
      ensures xo.faults >= old(xo.faults)
      ensures res.Err? ==>
                Blames(old(xo.vdis), v, capacity, selection.View(), req, res.error, xo.faults > old(xo.faults))
    {
      var disk;
      disk, made, r' := FindOrCreate(v, capacity, selection, req, r);
      ghost var mid := xo.vdis;
      if disk.Err? {
        ObtainedAndDescribed(old(xo.vdis), mid, mid, v, capacity, selection.View(), req, disk, made, Err(RetryLater));
        res := Err(disk.error);
      } else {
        res, r' := DescribeObtained(v, capacity, selection, req, disk.value, old(xo.vdis), made, r');
        if res == Err(Misplaced) {
          ObtainedWhereItWas(old(xo.vdis), mid, v, capacity, selection.View(), req, disk.value, made);
        }
      }
    }

    /** The same from the beginning of the call in the protocol on. */
    method CreateFrom(v: string, capacity: int, selection: StorageSelection, ghost sel: SrSelection.Selection,
                      req: Option<Requirement>, ghost r: Running)
      returns (res: Result<(Uuid, Option<Topology>), CreateError>, ghost made: Option<Uuid>, ghost r': Running)
      requires v !in Last(r).calls && Ordinary(v)
      requires Sees(See(Last(r), v)) && xo.vdis.Keys <= xo.used
      requires creationLock.Valid() && !creationLock.writer && !Last(r).writer
      requires sel == selection.View() && sel.ToStorageInfo().Stored() && sel.srs != []
               && PicksAllowed(sel, capacity, req)
      modifies xo`vdis, xo`used, xo`faults, creationLock
      ensures Continues(r, r') && Sees(See(Last(r'), v)) && v !in Last(r').calls
              && Last(r').migratory == Last(r).migratory && Last(r').cleaner == Last(r).cleaner
      ensures creationLock.Valid() && creationLock.readers == old(creationLock.readers) && !creationLock.writer
      ensures Leaves(old(xo.vdis), xo.vdis, v, capacity, sel, req, res, made)
      ensures xo.faults >= old(xo.faults)
      ensures res.Err? ==> Blames(old(xo.vdis), v, capacity, sel, req, res.error, xo.faults > old(xo.faults))
    {
      r' := Starts(r, v, capacity);
      res, made, r' := CreateSelected(v, capacity, selection, req, r');
    }

    /** The same, told from the parameters and the directory. */
    method CreateChosen(v: string, capacity: int, selection: StorageSelection, ghost sel: SrSelection.Selection,
                        req: Option<Requirement>, ghost p: StorageParameters.Parameters, ghost hostTopology: bool,
                        ghost dir: map<Uuid, Sr>, ghost listing: seq<Sr>, ghost r: Running)
      returns (res: Result<(string, Option<Topology>), CreateError>,
               ghost disk: Result<(Uuid, Option<Topology>), CreateError>, ghost made: Option<Uuid>, ghost r': Running)
      requires v !in Last(r).calls && Ordinary(v)
      requires Sees(See(Last(r), v)) && xo.vdis.Keys <= xo.used
      requires creationLock.Valid() && !creationLock.writer && !Last(r).writer
      requires sel == selection.View() && sel.ToStorageInfo().Stored() && sel.srs != []
               && PicksAllowed(sel, capacity, req)
      requires SrSelection.Chosen(sel, p, hostTopology, dir, listing)
      modifies xo`vdis, xo`used, xo`faults, creationLock
      ensures Continues(r, r') && Sees(See(Last(r'), v)) && v !in Last(r').calls
              && Last(r').migratory == Last(r).migratory && Last(r').cleaner == Last(r).cleaner
      ensures creationLock.Valid() && creationLock.readers == old(creationLock.readers) && !creationLock.writer
      ensures res == Answer(sel, v, disk) && Leaves(old(xo.vdis), xo.vdis, v, capacity, sel, req, disk, made)
      ensures xo.faults >= old(xo.faults)
      ensures Answers(old(xo.vdis), xo.vdis, v, p, hostTopology, dir, capacity, req, DiskOf(disk), res,
                      xo.faults > old(xo.faults))
      ensures SrSelection.Satisfiable(p, dir)
              && (xo.faults == old(xo.faults) ==> Ends(old(xo.vdis), v, p, dir, capacity, req, DiskOf(disk), res))
    {
      var created;
      created, made, r' := CreateFrom(v, capacity, selection, sel, req, r);
      disk := created;
      res := Answer(selection.View(), v, created);
      ChosenAnswers(sel, p, hostTopology, dir, listing, old(xo.vdis), xo.vdis, v, capacity, req, created, made,
                    xo.faults > old(xo.faults));
      AmongExactlyWhen(sel, p, hostTopology, dir, listing, "");
      if xo.faults == old(xo.faults) {
        StateSettles(old(xo.vdis), xo.vdis, v, p, hostTopology, dir, capacity, req, DiskOf(disk), res);
      }
    }

    /** CreateVolume, after the request has been validated: looks the repositories up, finds or creates
        the disk, and hands it out under the handle that the selection calls for. `found` says that the
        parameters led to repositories. */
    method CreateVolume(v: string, p: StorageParameters.Parameters, hostTopology: bool, capacity: int,
                        req: Option<Requirement>, ghost r: Running)
      returns (res: Result<(string, Option<Topology>), CreateError>,
               ghost disk: Result<(Uuid, Option<Topology>), CreateError>, ghost made: Option<Uuid>, ghost found: bool,
               ghost sel: SrSelection.Selection, ghost listing: seq<Sr>, ghost r': Running)
      requires StorageParameters.Accepted(p) && Directory(xo.srs)
      requires v !in Last(r).calls && Ordinary(v)
      requires Sees(See(Last(r), v)) && xo.vdis.Keys <= xo.used
      requires creationLock.Valid() && !creationLock.writer && !Last(r).writer
      modifies xo`vdis, xo`used, xo`faults, creationLock
      ensures Continues(r, r') && Sees(See(Last(r'), v)) && v !in Last(r').calls
              && Last(r').migratory == Last(r).migratory && Last(r').cleaner == Last(r).cleaner
      ensures creationLock.Valid() && creationLock.readers == old(creationLock.readers) && !creationLock.writer
      ensures res == Answer(sel, v, disk)
      ensures Leaves(old(xo.vdis), xo.vdis, v, capacity, sel, req, disk, made)
      ensures found ==> SrSelection.Chosen(sel, p, hostTopology, xo.srs, listing)
      ensures !found ==> disk.Err? && xo.vdis == old(xo.vdis)
      ensures xo.faults >= old(xo.faults)
      ensures Answers(old(xo.vdis), xo.vdis, v, p, hostTopology, xo.srs, capacity, req, DiskOf(disk), res,
                      xo.faults > old(xo.faults))
      ensures xo.faults == old(xo.faults) ==>
                && (found <==> SrSelection.Satisfiable(p, xo.srs)) && (!found ==> res == Err(NoSr))
                && (found ==> Ends(old(xo.vdis), v, p, xo.srs, capacity, req, DiskOf(disk), res))
    {
      made, r' := None, r;
      var failure, selection;
      failure, selection, listing := SelectSrs(p, hostTopology, capacity, req);
      sel, found := selection.View(), failure.None?;
      if failure.Some? {
        disk := Err(failure.value);
        NothingLeft(xo.vdis, v, capacity, sel, req, failure.value);
        return Err(failure.value), disk, made, found, sel, listing, r';
      }
      res, disk, made, r' := CreateChosen(v, capacity, selection, sel, req, p, hostTopology, xo.srs, listing, r);
    }
  }
}

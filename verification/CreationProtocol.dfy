/**
  Disk creation against background cleanup as a transition system: any number of CreateVolume
  calls for different volumes (pkg/csi/controller.go:94-153, 571-622, 810-834), one cleaner
  (pkg/csi/temp_cleanup.go:92-182), the readers/writer lock between them
  (pkg/csi/creationlock.go), and a server that may carry out a disk.create long after its caller
  gave up (docs/disk-creation-leakage.md:11-20).

  Every remote call is a step of its own, so all interleavings are covered. Assumed of the
  environment: one controller process at a time (`Restart` ends every call), at most one call in
  flight per volume (`calls` is keyed by volume name; "Concurrency" section of the CSI
  specification), edits and deletions that take effect before they return or never, uuids that
  are never reused, and nobody but the driver renaming or describing its disks, temporary or finished.
 */
module CreationProtocol {
  import opened Wrappers
  import opened DiskNames
  import opened Metadata
  import opened Xo

  const MINUTE: int := 60_000_000_000
  const MARK_AFTER: int := 10 * MINUTE     // TempCleanupMarkAsDeletionCandidateAfter
  const DELETE_AFTER: int := 30 * MINUTE   // TempCleanupThreshold

  // ---------- what the cleaner decides from one listed disk ----------

  /** A temporary disk without metadata. */
  predicate Unmarked(vdi: Vdi) {
    vdi.name.Temporary? && vdi.desc.NoMetadata?
  }

  /** Seen for long enough to be marked. */
  predicate DueForMark(u: Uuid, vdi: Vdi, firstSeen: map<Uuid, nat>, now: int) {
    Unmarked(vdi) && u in firstSeen && now - firstSeen[u] > MARK_AFTER
  }

  /** Marked long enough ago to be deleted. */
  predicate Expired(vdi: Vdi, now: int) {
    vdi.name.Temporary? && vdi.desc.Candidate? && vdi.desc.unusedSince < now - DELETE_AFTER
  }

  // ---------- states ----------

  /** Where a CreateVolume call is: the next remote call or lock operation it will make. */
  datatype Pc =
    | AtLookupFinal                                // controller.go:98
    | AtLock                                       // controller.go:574
    | AtLookupTemp                                 // controller.go:582
    | AtListTemps                                  // controller.go:812
    | AtDeleteRest(keep: Uuid, rest: seq<Uuid>)    // controller.go:825-831
    | AtPick(found: Option<Uuid>)                  // controller.go:596
    | AtCreate(sr: Uuid)                           // controller.go:602, request not yet sent
    | AtReply                                      // controller.go:602, waiting for the server
    | AtRename(uuid: Uuid)                         // controller.go:612
    | AtFetch(uuid: Uuid)                          // controller.go:617
    | AtWriteInfo(uuid: Uuid)                      // controller.go:125
    | AtFinish(uuid: Uuid)                         // controller.go:131

  datatype Call = Call(id: nat, capacity: int, pc: Pc)

  /** A disk.create request the server has accepted, and the disk it made, if any so far. */
  datatype Order = Order(volume: string, size: int, sr: Uuid, result: Option<Uuid>)

  datatype Entry = Entry(uuid: Uuid, vdi: Vdi)

  /** The cleaner works through its snapshot `list`; `i` is the entry in hand. */
  datatype Cleaner =
    | Sleeping
    | Scanning(list: seq<Entry>, i: nat)
    | WantsLock(list: seq<Entry>, i: nat)               // temp_cleanup.go:156
    | Refetching(list: seq<Entry>, i: nat)              // temp_cleanup.go:159
    | Stamping(list: seq<Entry>, i: nat)                // temp_cleanup.go:176
    | Marking(list: seq<Entry>, i: nat, stamp: nat)     // temp_cleanup.go:177
    | Erasing(list: seq<Entry>, i: nat)                 // temp_cleanup.go:132

  datatype State = State(
    vdis: map<Uuid, Vdi>,
    used: set<Uuid>,               // every uuid ever given to a disk
    orders: map<nat, Order>,       // by the id of the call that sent the request
    calls: map<string, Call>,      // calls in flight, by volume name
    nextId: nat,
    volumes: map<nat, string>,     // the volume of every call so far, by call id
    failed: set<nat>,              // ids of the calls that ended without success
    readers: set<string>,          // calls holding the shared side of CreationLock
    writer: bool,                  // the cleaner holds the exclusive side
    cleaner: Cleaner,
    firstSeen: map<Uuid, nat>,
    now: nat,
    migratory: set<string>)        // volumes handed out that other calls may migrate

  predicate InsideLock(pc: Pc) {
    pc.AtLookupTemp? || pc.AtListTemps? || pc.AtDeleteRest? || pc.AtPick? || pc.AtCreate? || pc.AtReply?
      || pc.AtRename? || pc.AtFetch?
  }

  predicate InsideMark(c: Cleaner) {
    c.Refetching? || c.Stamping? || c.Marking?
  }

  // ---------- actions ----------

  /** A remote call or lock operation of the CreateVolume call in flight for some volume. */
  datatype CallAction =
    | Begin(capacity: int)
    | LookupFinal(final: Found)
    | TakeShared
    | LookupTemp(temporary: Found)
    | ListTemps(listed: Option<seq<Uuid>>)
    | DeleteSpare(o: Outcome)
    | Pick(choice: Option<Uuid>)
    | SendCreate
    | Reply
    | ReplyError
    | Rename(o: Outcome)
    | Fetch(ok: bool)
    | WriteInfo(info: StorageInfo, o: Outcome)
    | Finish(ok: bool)

  datatype CleanerAction =
    | List(list: Option<seq<Entry>>)
    | Inspect
    | TakeExclusive
    | Refetch(ok: bool)
    | Stamp
    | Mark(o: Outcome)
    | Erase(o: Outcome)
    | Prune

  datatype WorldAction =
    | ServerCreates(id: nat, u: Uuid)
    | ServerRefuses(id: nat)
    | Tick(d: nat)
    | Restart
    | OtherDelete(u: Uuid)                       // DeleteVolume of a finished volume
    | OtherInfo(u: Uuid, info: StorageInfo)      // publishing rewrites a finished volume's description
    | OtherResize(u: Uuid, size: int)            // ControllerExpandVolume
    | OtherCopy(u: Uuid, copy: Uuid, sr: Uuid)   // XO copies a disk it migrates, name and description included
    | StartMigrating(v: string)                  // a volume handed out may from now on be migrated
    | StopMigrating(v: string)                   // it has been deleted
    | ForeignPut(u: Uuid, vdi: Vdi)              // users change disks the driver knows nothing about,
    | ForeignDrop(u: Uuid)                       // and delete them, or temporary ones

  datatype Action =
    | ByCall(v: string, call: CallAction)
    | ByCleaner(clean: CleanerAction)
    | ByWorld(world: WorldAction)

  // ---------- building blocks ----------

  ghost function Fail(s: State, v: string): State
    requires v in s.calls
  {
    s.(calls := s.calls - {v}, readers := s.readers - {v}, failed := s.failed + {s.calls[v].id})
  }

  ghost function Goto(s: State, v: string, pc: Pc): State
    requires v in s.calls
  {
    s.(calls := s.calls[v := s.calls[v].(pc := pc)],
       readers := if InsideLock(pc) then s.readers + {v} else s.readers - {v})
  }

  /** The listing holds every disk exactly once. */
  ghost predicate ListsAll(vdis: map<Uuid, Vdi>, list: seq<Entry>) {
    && (forall i :: 0 <= i < |list| ==> list[i].uuid in vdis && vdis[list[i].uuid] == list[i].vdi)
    && (forall i, j :: 0 <= i < j < |list| ==> list[i].uuid != list[j].uuid)
    && (forall u :: u in vdis ==> exists i :: 0 <= i < |list| && list[i].uuid == u)
  }

  /** The listing of one name: every such disk exactly once. */
  ghost predicate ListsNamed(vdis: map<Uuid, Vdi>, name: DiskName, list: seq<Uuid>) {
    && (forall u :: u in list <==> u in vdis && vdis[u].name == name)
    && (forall i, j :: 0 <= i < j < |list| ==> list[i] != list[j])
  }

  // ---------- steps ----------

  ghost predicate CallEnabled(s: State, v: string, a: CallAction) {
    match a
    case Begin(_) => v !in s.calls && Ordinary(v)
    case LookupFinal(r) => v in s.calls && s.calls[v].pc.AtLookupFinal? && AnswersName(s.vdis, Final(v), r)
    case TakeShared => v in s.calls && s.calls[v].pc.AtLock? && !s.writer
    case LookupTemp(r) => v in s.calls && s.calls[v].pc.AtLookupTemp? && AnswersName(s.vdis, Temporary(v), r)
    case ListTemps(found) =>
      v in s.calls && s.calls[v].pc.AtListTemps? && (found.Some? ==> ListsNamed(s.vdis, Temporary(v), found.value))
    case DeleteSpare(o) =>
      && v in s.calls && s.calls[v].pc.AtDeleteRest? && s.calls[v].pc.rest != []
      && Possible(o, s.calls[v].pc.rest[0], s.vdis)
    case Pick(_) => v in s.calls && s.calls[v].pc.AtPick?
    case SendCreate => v in s.calls && s.calls[v].pc.AtCreate?
    case Reply =>
      v in s.calls && s.calls[v].pc.AtReply? && s.calls[v].id in s.orders && s.orders[s.calls[v].id].result.Some?
    case ReplyError => v in s.calls && s.calls[v].pc.AtReply?
    case Rename(o) => v in s.calls && s.calls[v].pc.AtRename? && Possible(o, s.calls[v].pc.uuid, s.vdis)
    case Fetch(ok) => v in s.calls && s.calls[v].pc.AtFetch? && (ok ==> s.calls[v].pc.uuid in s.vdis)
    case WriteInfo(info, o) =>
      v in s.calls && s.calls[v].pc.AtWriteInfo? && info.Stored() && Possible(o, s.calls[v].pc.uuid, s.vdis)
    case Finish(_) => v in s.calls && s.calls[v].pc.AtFinish?
  }

  /** What the operation changes outside the call itself. */
  ghost function CallEffect(s: State, v: string, a: CallAction): State
    requires CallEnabled(s, v, a)
  {
    match a
    case Begin(capacity) =>
      s.(calls := s.calls[v := Call(s.nextId, capacity, AtLookupFinal)], volumes := s.volumes[s.nextId := v],
         nextId := s.nextId + 1)
    case DeleteSpare(o) => if o.Refused? then s else s.(vdis := s.vdis - {s.calls[v].pc.rest[0]})
    case SendCreate =>
      var c := s.calls[v];
      s.(orders := s.orders[c.id := Order(v, c.capacity, c.pc.sr, None)])
    case Rename(o) =>
      if o.Refused? then s else s.(vdis := Edited(s.vdis, s.calls[v].pc.uuid, Some(Final(v)), Some(NoMetadata(""))))
    case WriteInfo(info, o) =>
      if o.Refused? then s else s.(vdis := Edited(s.vdis, s.calls[v].pc.uuid, None, Some(Info(info))))
    case _ => s
  }

  datatype Next = Go(pc: Pc) | GiveUp | Succeed

  /** Where the call goes from there. */
  ghost function CallNext(s: State, v: string, a: CallAction): Next
    requires CallEnabled(s, v, a)
  {
    match a
    case Begin(_) => Go(AtLookupFinal)
    case LookupFinal(r) => (
      match r
      case NotFound => Go(AtLock)
      case One(u) => if s.vdis[u].size == s.calls[v].capacity then Go(AtWriteInfo(u)) else GiveUp
      case Many => GiveUp
      case Failed => GiveUp)
    case TakeShared => Go(AtLookupTemp)
    case LookupTemp(r) => (
      match r
      case NotFound => Go(AtPick(None))
      case One(u) => Go(AtPick(Some(u)))
      case Many => Go(AtListTemps)
      case Failed => GiveUp)
    case ListTemps(found) =>
      if found.None? || found.value == [] then GiveUp
      else if |found.value| == 1 then Go(AtPick(Some(found.value[0])))
      else Go(AtDeleteRest(found.value[0], found.value[1..]))
    case DeleteSpare(_) =>
      var pc := s.calls[v].pc;
      Go(if |pc.rest| == 1 then AtPick(Some(pc.keep)) else AtDeleteRest(pc.keep, pc.rest[1..]))
    case Pick(choice) =>
      if choice.None? then GiveUp
      else if s.calls[v].pc.found.Some? then Go(AtRename(s.calls[v].pc.found.value))
      else Go(AtCreate(choice.value))
    case SendCreate => Go(AtReply)
    case Reply => Go(AtRename(s.orders[s.calls[v].id].result.value))
    case ReplyError => GiveUp
    case Rename(o) => if o.Done? then Go(AtFetch(s.calls[v].pc.uuid)) else GiveUp
    case Fetch(ok) => if ok then Go(AtWriteInfo(s.calls[v].pc.uuid)) else GiveUp
    case WriteInfo(_, o) => if o.Done? then Go(AtFinish(s.calls[v].pc.uuid)) else GiveUp
    case Finish(ok) => if ok then Succeed else GiveUp
  }

  ghost function Land(s: State, v: string, next: Next): State
    requires v in s.calls
  {
    match next
    case Go(pc) => Goto(s, v, pc)
    case GiveUp => Fail(s, v)
    case Succeed => s.(calls := s.calls - {v}, readers := s.readers - {v})
  }

  ghost function CallApply(s: State, v: string, a: CallAction): State
    requires CallEnabled(s, v, a)
  {
    Land(CallEffect(s, v, a), v, CallNext(s, v, a))
  }

  ghost predicate CleanerEnabled(s: State, a: CleanerAction) {
    match a
    case List(list) => s.cleaner.Sleeping? && (list.Some? ==> ListsAll(s.vdis, list.value))
    case Inspect => s.cleaner.Scanning? && s.cleaner.i < |s.cleaner.list|
    case TakeExclusive => s.cleaner.WantsLock? && s.readers == {} && !s.writer
    case Refetch(ok) =>
      s.cleaner.Refetching? && s.cleaner.i < |s.cleaner.list| && (ok ==> s.cleaner.list[s.cleaner.i].uuid in s.vdis)
    case Stamp => s.cleaner.Stamping?
    case Mark(o) =>
      s.cleaner.Marking? && s.cleaner.i < |s.cleaner.list| && Possible(o, s.cleaner.list[s.cleaner.i].uuid, s.vdis)
    case Erase(o) =>
      s.cleaner.Erasing? && s.cleaner.i < |s.cleaner.list| && Possible(o, s.cleaner.list[s.cleaner.i].uuid, s.vdis)
    case Prune => s.cleaner.Scanning? && s.cleaner.i >= |s.cleaner.list|
  }

  /** The entry in hand has been dealt with. */
  function NextEntry(c: Cleaner): Cleaner
    requires !c.Sleeping?
  {
    Scanning(c.list, c.i + 1)
  }

  /** Where the cleaner goes. */
  ghost function CleanerNext(s: State, a: CleanerAction): Cleaner
    requires CleanerEnabled(s, a)
  {
    match a
    case List(list) => if list.None? then s.cleaner else Scanning(list.value, 0)
    case Inspect =>
      var e := s.cleaner.list[s.cleaner.i];
      if DueForMark(e.uuid, e.vdi, s.firstSeen, s.now) then WantsLock(s.cleaner.list, s.cleaner.i)
      else if Expired(e.vdi, s.now) then Erasing(s.cleaner.list, s.cleaner.i)
      else NextEntry(s.cleaner)
    case TakeExclusive => Refetching(s.cleaner.list, s.cleaner.i)
    case Refetch(ok) =>
      var e := s.cleaner.list[s.cleaner.i];
      if ok && s.vdis[e.uuid].desc == e.vdi.desc && s.vdis[e.uuid].name == e.vdi.name
      then Stamping(s.cleaner.list, s.cleaner.i)
      else NextEntry(s.cleaner)
    case Stamp => Marking(s.cleaner.list, s.cleaner.i, s.now)
    case Mark(_) => NextEntry(s.cleaner)
    case Erase(_) => NextEntry(s.cleaner)
    case Prune => Sleeping
  }

  /** What the cleaner does to the disks. */
  ghost function CleanerDisks(s: State, a: CleanerAction): map<Uuid, Vdi>
    requires CleanerEnabled(s, a)
  {
    match a
    case Mark(o) =>
      if o.Refused? then s.vdis
      else Edited(s.vdis, s.cleaner.list[s.cleaner.i].uuid, None, Some(Candidate(s.cleaner.stamp)))
    case Erase(o) => if o.Refused? then s.vdis else s.vdis - {s.cleaner.list[s.cleaner.i].uuid}
    case _ => s.vdis
  }

  /** The first sightings the cleaner remembers; entries that were not listed are forgotten. */
  ghost function CleanerSeen(s: State, a: CleanerAction): map<Uuid, nat>
    requires CleanerEnabled(s, a)
  {
    match a
    case Inspect =>
      var e := s.cleaner.list[s.cleaner.i];
      if Unmarked(e.vdi) && e.uuid !in s.firstSeen then s.firstSeen[e.uuid := s.now] else s.firstSeen
    case Prune =>
      var seenNow := set k | 0 <= k < |s.cleaner.list| :: s.cleaner.list[k].uuid;
      map u | u in s.firstSeen && u in seenNow :: s.firstSeen[u]
    case _ => s.firstSeen
  }

  ghost function CleanerApply(s: State, a: CleanerAction): State
    requires CleanerEnabled(s, a)
  {
    s.(vdis := CleanerDisks(s, a), cleaner := CleanerNext(s, a), writer := InsideMark(CleanerNext(s, a)),
       firstSeen := CleanerSeen(s, a))
  }

  ghost predicate WorldEnabled(s: State, a: WorldAction) {
    match a
    case ServerCreates(id, u) => id in s.orders && s.orders[id].result.None? && u !in s.used
    case ServerRefuses(id) => id in s.orders && s.orders[id].result.None?
    case Tick(_) => true
    case Restart => true
    case OtherDelete(u) => u in s.vdis && s.vdis[u].name.Final? && s.vdis[u].name.volume !in s.calls
    case OtherInfo(u, info) => u in s.vdis && s.vdis[u].name.Final?
    case OtherResize(u, _) => u in s.vdis && s.vdis[u].name.Final?
    case OtherCopy(u, copy, _) =>
      u in s.vdis && s.vdis[u].name.Final? && s.vdis[u].name.volume in s.migratory && copy !in s.used
    case StartMigrating(v) => v !in s.calls
    case StopMigrating(v) => v !in s.calls && forall u :: u in s.vdis ==> s.vdis[u].name != Final(v)
    case ForeignPut(u, vdi) => vdi.name.Foreign? && (if u in s.vdis then s.vdis[u].name.Foreign? else u !in s.used)
    case ForeignDrop(u) => u in s.vdis && !s.vdis[u].name.Final?
  }

  ghost function WorldApply(s: State, a: WorldAction): State
    requires WorldEnabled(s, a)
  {
    match a
    case ServerCreates(id, u) =>
      var o := s.orders[id];
      s.(vdis := s.vdis[u := Vdi(Temporary(o.volume), NoMetadata(""), o.size, o.sr)], used := s.used + {u},
         orders := s.orders[id := o.(result := Some(u))])
    case ServerRefuses(id) => s.(orders := s.orders - {id})
    case Tick(d) => s.(now := s.now + d)
    case Restart =>
      s.(failed := s.failed + (set v | v in s.calls :: s.calls[v].id), calls := map[],
         readers := {}, writer := false, cleaner := Sleeping, firstSeen := map[])
    case OtherDelete(u) => s.(vdis := s.vdis - {u})
    case OtherInfo(u, info) => s.(vdis := Edited(s.vdis, u, None, Some(Info(info))))
    case OtherResize(u, size) => s.(vdis := s.vdis[u := s.vdis[u].(size := size)])
    case OtherCopy(u, copy, sr) => s.(vdis := s.vdis[copy := s.vdis[u].(sr := sr)], used := s.used + {copy})
    case StartMigrating(v) => s.(migratory := s.migratory + {v})
    case StopMigrating(v) => s.(migratory := s.migratory - {v})
    case ForeignPut(u, vdi) => s.(vdis := s.vdis[u := vdi], used := s.used + {u})
    case ForeignDrop(u) => s.(vdis := s.vdis - {u})
  }

  ghost predicate Enabled(s: State, a: Action) {
    match a
    case ByCall(v, c) => CallEnabled(s, v, c)
    case ByCleaner(c) => CleanerEnabled(s, c)
    case ByWorld(w) => WorldEnabled(s, w)
  }

  ghost function Apply(s: State, a: Action): State
    requires Enabled(s, a)
  {
    match a
    case ByCall(v, c) => CallApply(s, v, c)
    case ByCleaner(c) => CleanerApply(s, c)
    case ByWorld(w) => WorldApply(s, w)
  }

  // ---------- runs ----------

  /** No finished disk carries a deletion mark. */
  ghost predicate FinalsUnmarked(vdis: map<Uuid, Vdi>) {
    forall u :: u in vdis && vdis[u].name.Final? ==> !vdis[u].desc.Candidate?
  }

  /** No volume has two finished disks, unless it may be migrating. */
  ghost predicate OneFinalEach(vdis: map<Uuid, Vdi>, migratory: set<string>) {
    forall u, w :: u in vdis && w in vdis && vdis[u].name.Final? && vdis[u].name.volume !in migratory ==>
      (vdis[w].name == vdis[u].name ==> w == u)
  }

  /** The driver has just started; disks may be left over from earlier. */
  ghost predicate Initial(s: State) {
    && s.calls == map[] && s.failed == {} && s.volumes == map[] && s.nextId == 0 && s.orders == map[]
    && s.readers == {} && !s.writer && s.cleaner.Sleeping? && s.firstSeen == map[]
    && (forall u :: u in s.vdis ==> u in s.used)
    && FinalsUnmarked(s.vdis)
    && OneFinalEach(s.vdis, s.migratory)
  }

  /** A run visits states[0], states[1], ... taking actions[0], actions[1], ... */
  datatype Run = Run(states: seq<State>, actions: seq<Action>)

  ghost predicate StepAt(r: Run, i: nat)
    requires i < |r.actions| && |r.states| == |r.actions| + 1
  {
    Enabled(r.states[i], r.actions[i]) && r.states[i + 1] == Apply(r.states[i], r.actions[i])
  }

  ghost predicate IsRun(r: Run) {
    && |r.states| == |r.actions| + 1
    && Initial(r.states[0])
    && forall i: nat :: i < |r.actions| ==> StepAt(r, i)
  }
}

/** What every step of the creation protocol keeps, and what that means over whole runs. */
module CreationSafety {
  import opened Wrappers
  import opened DiskNames
  import opened Metadata
  import opened Xo
  import opened CreationProtocol

  // ---------- the invariant ----------

  /** The lock is held by those inside, and many readers exclude the one writer. */
  ghost predicate LockInv(s: State) {
    && (forall v :: v in s.readers <==> v in s.calls && InsideLock(s.calls[v].pc))
    && (s.writer <==> InsideMark(s.cleaner))
    && (s.writer ==> s.readers == {})
  }

  /** If the disk still exists, it has this name. */
  ghost predicate NamedIfThere(s: State, u: Uuid, name: DiskName) {
    u in s.used && (u in s.vdis ==> s.vdis[u].name == name)
  }

  /** What a call knows about the disk it is working on. */
  ghost predicate PcInv(s: State, v: string, pc: Pc)
    requires v in s.calls
  {
    match pc
    case AtDeleteRest(keep, rest) =>
      NamedIfThere(s, keep, Temporary(v)) && rest != [] && forall w :: w in rest ==> NamedIfThere(s, w, Temporary(v))
    case AtPick(found) => found.Some? ==> NamedIfThere(s, found.value, Temporary(v))
    case AtReply =>
      var id := s.calls[v].id;
      id in s.orders && s.orders[id].result.Some? ==> NamedIfThere(s, s.orders[id].result.value, Temporary(v))
    case AtRename(u) => NamedIfThere(s, u, Temporary(v))
    case AtFetch(u) => NamedIfThere(s, u, Final(v))
    case AtWriteInfo(u) => NamedIfThere(s, u, Final(v))
    case AtFinish(u) => NamedIfThere(s, u, Final(v))
    case _ => true
  }

  ghost predicate DiskInv(s: State) {
    && (forall u :: u in s.vdis ==> u in s.used)
    && FinalsUnmarked(s.vdis)
    && (forall v :: v in s.calls ==> PcInv(s, v, s.calls[v].pc))
  }

  /** A snapshot entry that was temporary is either still that temporary disk, or was renamed to
      the final name of its volume, or is gone. */
  ghost predicate EntryInv(s: State, e: Entry) {
    && e.uuid in s.used
    && (e.vdi.name.Temporary? && e.uuid in s.vdis ==>
          s.vdis[e.uuid].name == e.vdi.name || s.vdis[e.uuid].name == Final(e.vdi.name.volume))
  }

  /** The entry in hand is one the cleaner has good reason to mark. */
  ghost predicate DueEntry(s: State, e: Entry) {
    Unmarked(e.vdi) && e.uuid in s.firstSeen && s.firstSeen[e.uuid] + MARK_AFTER < s.now
  }

  ghost predicate CleanerInv(s: State) {
    match s.cleaner
    case Sleeping => true
    case Scanning(list, i) => forall k :: 0 <= k < |list| ==> EntryInv(s, list[k])
    case WantsLock(list, i) =>
      (forall k :: 0 <= k < |list| ==> EntryInv(s, list[k])) && i < |list| && DueEntry(s, list[i])
    case Refetching(list, i) =>
      (forall k :: 0 <= k < |list| ==> EntryInv(s, list[k])) && i < |list| && DueEntry(s, list[i])
    case Stamping(list, i) =>
      && (forall k :: 0 <= k < |list| ==> EntryInv(s, list[k])) && i < |list| && DueEntry(s, list[i])
      && NamedIfThere(s, list[i].uuid, list[i].vdi.name)
    case Marking(list, i, stamp) =>
      && (forall k :: 0 <= k < |list| ==> EntryInv(s, list[k])) && i < |list| && DueEntry(s, list[i])
      && NamedIfThere(s, list[i].uuid, list[i].vdi.name)
      && s.firstSeen[list[i].uuid] + MARK_AFTER < stamp <= s.now
    case Erasing(list, i) =>
      (forall k :: 0 <= k < |list| ==> EntryInv(s, list[k])) && i < |list| && Expired(list[i].vdi, s.now)
  }

  /** Each call sends at most one create; each request makes at most one disk, which is named after
      its volume; a disk not yet renamed belongs to a call that failed or is still running. */
  ghost predicate BeforeCreate(pc: Pc) {
    pc.AtLookupFinal? || pc.AtLock? || pc.AtLookupTemp? || pc.AtListTemps? || pc.AtDeleteRest? || pc.AtPick?
      || pc.AtCreate?
  }

  ghost predicate Leftover(s: State, id: nat) {
    && id in s.orders
    && (s.orders[id].result.Some? ==>
          s.orders[id].result.value in s.vdis && s.vdis[s.orders[id].result.value].name.Temporary?)
  }

  ghost predicate Active(s: State, id: nat) {
    && id in s.volumes && s.volumes[id] in s.calls && s.calls[s.volumes[id]].id == id
  }

  ghost predicate CallIdInv(s: State) {
    && (forall id: nat :: id in s.volumes <==> id < s.nextId)
    && (forall v :: v in s.calls ==> s.calls[v].id in s.volumes && s.volumes[s.calls[v].id] == v)
    && (forall id :: id in s.failed ==> id in s.volumes && !Active(s, id))
  }

  ghost predicate OrderInv(s: State) {
    && (forall id :: id in s.orders ==> id in s.volumes && s.orders[id].volume == s.volumes[id])
    && (forall id :: id in s.orders && s.orders[id].result.Some? ==> s.orders[id].result.value in s.used)
    && (forall a, b ::
          a in s.orders && b in s.orders && s.orders[a].result.Some? && s.orders[a].result == s.orders[b].result ==>
            a == b)
    && (forall id :: id in s.orders && s.orders[id].result.Some? && s.orders[id].result.value in s.vdis ==>
          var name := s.vdis[s.orders[id].result.value].name;
          name == Temporary(s.orders[id].volume) || name == Final(s.orders[id].volume))
  }

  ghost predicate OwnerInv(s: State) {
    && (forall v :: v in s.calls && BeforeCreate(s.calls[v].pc) ==> s.calls[v].id !in s.orders)
    && (forall v :: v in s.calls && s.calls[v].pc.AtRename? && s.calls[v].id in s.orders ==>
          s.orders[s.calls[v].id].result == Some(s.calls[v].pc.uuid))
    && (forall v ::
          v in s.calls && (s.calls[v].pc.AtFetch? || s.calls[v].pc.AtWriteInfo? || s.calls[v].pc.AtFinish?) ==>
            !Leftover(s, s.calls[v].id))
    && (forall id :: Leftover(s, id) ==> id in s.failed || Active(s, id))
  }

  ghost predicate BeforeRename(pc: Pc) {
    (InsideLock(pc) || pc.AtLock?) && !pc.AtFetch?
  }

  /** Between finding no finished disk and renaming one, there is none. */
  ghost predicate UniqueInv(s: State) {
    && OneFinalEach(s.vdis, s.migratory)
    && (forall v, u :: v in s.calls && v !in s.migratory && BeforeRename(s.calls[v].pc) && u in s.vdis ==>
         s.vdis[u].name != Final(v))
  }

  /** Who may touch which disk. */
  ghost predicate Safe(s: State) {
    LockInv(s) && DiskInv(s) && CleanerInv(s)
  }

  /** Which disk exists on whose account. */
  ghost predicate Books(s: State) {
    CallIdInv(s) && OrderInv(s) && OwnerInv(s) && UniqueInv(s)
  }

  ghost predicate Inv(s: State) {
    Safe(s) && Books(s)
  }

  // ---------- every step keeps it ----------

  lemma InitialInv(s: State)
    requires Initial(s)
    ensures Inv(s)
  {
  }

  // Effects on the calls.

  lemma FailKeepsSafe(s: State, v: string)
    requires Safe(s) && v in s.calls
    ensures Safe(Fail(s, v))
  {
  }

  lemma FailKeepsBooks(s: State, v: string)
    requires Books(s) && v in s.calls
    ensures Books(Fail(s, v))
  {
    var s' := Fail(s, v);
    assert forall id :: Leftover(s', id) <==> Leftover(s, id);
    assert forall id :: Active(s', id) <==> Active(s, id) && id != s.calls[v].id;
  }

  lemma FailKeeps(s: State, v: string)
    requires Inv(s) && v in s.calls
    ensures Inv(Fail(s, v))
  {
    FailKeepsSafe(s, v);
    FailKeepsBooks(s, v);
  }

  /** What must hold for call `v` to be at `pc` next. */
  ghost predicate MayGoto(s: State, v: string, pc: Pc)
    requires v in s.calls
  {
    var id := s.calls[v].id;
    && (InsideLock(pc) && !InsideLock(s.calls[v].pc) ==> !s.writer)
    && PcInv(s, v, pc)
    && (BeforeCreate(pc) ==> id !in s.orders)
    && (pc.AtRename? && id in s.orders ==> s.orders[id].result == Some(pc.uuid))
    && (pc.AtFetch? || pc.AtWriteInfo? || pc.AtFinish? ==> !Leftover(s, id))
    && (v !in s.migratory && BeforeRename(pc) ==> forall u :: u in s.vdis ==> s.vdis[u].name != Final(v))
  }

  lemma GotoKeepsSafe(s: State, v: string, pc: Pc)
    requires Safe(s) && v in s.calls && MayGoto(s, v, pc)
    ensures Safe(Goto(s, v, pc))
  {
  }

  lemma GotoKeepsBooks(s: State, v: string, pc: Pc)
    requires Books(s) && v in s.calls && MayGoto(s, v, pc)
    ensures Books(Goto(s, v, pc))
  {
    var s' := Goto(s, v, pc);
    assert forall id :: Leftover(s', id) <==> Leftover(s, id);
    assert forall id :: Active(s', id) <==> Active(s, id);
  }

  lemma GotoKeeps(s: State, v: string, pc: Pc)
    requires Inv(s) && v in s.calls && MayGoto(s, v, pc)
    ensures Inv(Goto(s, v, pc))
  {
    GotoKeepsSafe(s, v, pc);
    GotoKeepsBooks(s, v, pc);
  }

  // Effects on the disks.

  lemma RemoveKeepsSafe(s: State, u: Uuid)
    requires Safe(s)
    ensures Safe(s.(vdis := s.vdis - {u}))
  {
  }

  lemma RemoveKeepsBooks(s: State, u: Uuid)
    requires Books(s)
    ensures Books(s.(vdis := s.vdis - {u}))
  {
    var s' := s.(vdis := s.vdis - {u});
    assert forall id :: Leftover(s', id) ==> Leftover(s, id);
    assert forall id :: Active(s', id) <==> Active(s, id);
  }

  lemma RemoveKeeps(s: State, u: Uuid)
    requires Inv(s)
    ensures Inv(s.(vdis := s.vdis - {u}))
  {
    RemoveKeepsSafe(s, u);
    RemoveKeepsBooks(s, u);
  }

  /** Apart from the ban on marks, descriptions do not matter. */
  lemma SameNamesKeepSafe(s: State, vdis: map<Uuid, Vdi>)
    requires Safe(s) && vdis.Keys == s.vdis.Keys && FinalsUnmarked(vdis)
    requires forall u :: u in vdis ==> vdis[u].name == s.vdis[u].name
    ensures Safe(s.(vdis := vdis))
  {
    assert forall u :: u in vdis <==> u in s.vdis;
  }

  lemma SameNamesKeepBooks(s: State, vdis: map<Uuid, Vdi>)
    requires Books(s) && vdis.Keys == s.vdis.Keys
    requires forall u :: u in vdis ==> vdis[u].name == s.vdis[u].name
    ensures Books(s.(vdis := vdis))
  {
    var s' := s.(vdis := vdis);
    assert forall u :: u in vdis <==> u in s.vdis;
    assert forall id :: Leftover(s', id) <==> Leftover(s, id);
    assert forall id :: Active(s', id) <==> Active(s, id);
  }

  lemma DescriptionKeeps(s: State, u: Uuid, desc: Description)
    requires Inv(s) && u in s.vdis && (s.vdis[u].name.Final? ==> !desc.Candidate?)
    ensures Inv(s.(vdis := Edited(s.vdis, u, None, Some(desc))))
  {
    var vdis := Edited(s.vdis, u, None, Some(desc));
    SameNamesKeepSafe(s, vdis);
    SameNamesKeepBooks(s, vdis);
  }

  lemma ResizeKeeps(s: State, u: Uuid, size: int)
    requires Inv(s) && u in s.vdis
    ensures Inv(s.(vdis := s.vdis[u := s.vdis[u].(size := size)]))
  {
    var vdis := s.vdis[u := s.vdis[u].(size := size)];
    SameNamesKeepSafe(s, vdis);
    SameNamesKeepBooks(s, vdis);
  }

  /** A volume may become free to have two finished disks, or cease to be so once it has none. */
  lemma MigratoryKeeps(s: State, migratory: set<string>)
    requires Inv(s)
    requires forall v :: v in s.migratory && v !in migratory ==>
               v !in s.calls && forall u :: u in s.vdis ==> s.vdis[u].name != Final(v)
    ensures Inv(s.(migratory := migratory))
  {
    var s' := s.(migratory := migratory);
    assert forall id :: Leftover(s', id) <==> Leftover(s, id);
    assert forall id :: Active(s', id) <==> Active(s, id);
  }

  /** A disk appears under an uuid never used before. */
  lemma AddKeepsSafe(s: State, u: Uuid, vdi: Vdi)
    requires Safe(s) && u !in s.used && (vdi.name.Final? ==> !vdi.desc.Candidate?)
    ensures Safe(s.(vdis := s.vdis[u := vdi], used := s.used + {u}))
  {
  }

  lemma AddKeepsOrders(s: State, u: Uuid, vdi: Vdi)
    requires DiskInv(s) && Books(s) && u !in s.used && (vdi.name.Final? ==> vdi.name.volume in s.migratory)
    ensures var s' := s.(vdis := s.vdis[u := vdi], used := s.used + {u}); CallIdInv(s') && OrderInv(s') && UniqueInv(s')
  {
  }

  lemma AddKeepsBooks(s: State, u: Uuid, vdi: Vdi)
    requires DiskInv(s) && Books(s) && u !in s.used && (vdi.name.Final? ==> vdi.name.volume in s.migratory)
    ensures Books(s.(vdis := s.vdis[u := vdi], used := s.used + {u}))
  {
    AddKeepsOrders(s, u, vdi);
    var s' := s.(vdis := s.vdis[u := vdi], used := s.used + {u});
    assert forall id :: Leftover(s', id) <==> Leftover(s, id);
    assert forall id :: Active(s', id) <==> Active(s, id);
  }

  lemma ForeignKeeps(s: State, u: Uuid, vdi: Vdi)
    requires Inv(s) && WorldEnabled(s, ForeignPut(u, vdi))
    ensures Inv(WorldApply(s, ForeignPut(u, vdi)))
  {
    if u in s.vdis {
      assert s.used + {u} == s.used;
      RemoveKeeps(s, u);
      ForeignReplaced(s, u, vdi);
    } else {
      AddKeepsSafe(s, u, vdi);
      AddKeepsBooks(s, u, vdi);
    }
  }

  lemma ForeignReplacedSafe(s: State, u: Uuid, vdi: Vdi)
    requires Safe(s) && u in s.vdis && s.vdis[u].name.Foreign? && vdi.name.Foreign?
    ensures Safe(s.(vdis := s.vdis[u := vdi]))
  {
  }

  lemma ForeignReplacedOrders(s: State, u: Uuid, vdi: Vdi)
    requires Books(s) && u in s.vdis && s.vdis[u].name.Foreign? && vdi.name.Foreign?
    ensures var s' := s.(vdis := s.vdis[u := vdi]); CallIdInv(s') && OrderInv(s') && UniqueInv(s')
  {
  }

  lemma ForeignReplacedBooks(s: State, u: Uuid, vdi: Vdi)
    requires Books(s) && u in s.vdis && s.vdis[u].name.Foreign? && vdi.name.Foreign?
    ensures Books(s.(vdis := s.vdis[u := vdi]))
  {
    ForeignReplacedOrders(s, u, vdi);
    var s' := s.(vdis := s.vdis[u := vdi]);
    assert forall id :: Leftover(s', id) <==> Leftover(s, id);
    assert forall id :: Active(s', id) <==> Active(s, id);
  }

  lemma ForeignReplaced(s: State, u: Uuid, vdi: Vdi)
    requires Inv(s) && u in s.vdis && s.vdis[u].name.Foreign? && vdi.name.Foreign?
    ensures Inv(s.(vdis := s.vdis[u := vdi]))
  {
    ForeignReplacedSafe(s, u, vdi);
    ForeignReplacedBooks(s, u, vdi);
  }

  /** The request and its fresh disk. */
  lemma ServerCreatesKeepsDisks(s: State, id: nat, u: Uuid)
    requires LockInv(s) && DiskInv(s) && CallIdInv(s) && OrderInv(s) && WorldEnabled(s, ServerCreates(id, u))
    ensures LockInv(WorldApply(s, ServerCreates(id, u))) && DiskInv(WorldApply(s, ServerCreates(id, u)))
  {
  }

  lemma ServerCreatesKeepsCleaner(s: State, id: nat, u: Uuid)
    requires LockInv(s) && DiskInv(s) && CleanerInv(s) && WorldEnabled(s, ServerCreates(id, u))
    ensures CleanerInv(WorldApply(s, ServerCreates(id, u)))
  {
  }

  lemma ServerCreatesKeepsOrders(s: State, id: nat, u: Uuid)
    requires DiskInv(s) && CallIdInv(s) && OrderInv(s) && WorldEnabled(s, ServerCreates(id, u))
    ensures CallIdInv(WorldApply(s, ServerCreates(id, u))) && OrderInv(WorldApply(s, ServerCreates(id, u)))
  {
    var s' := WorldApply(s, ServerCreates(id, u));
    assert forall j :: Active(s', j) <==> Active(s, j);
  }

  lemma ServerCreatesKeepsOwners(s: State, id: nat, u: Uuid)
    requires Books(s) && WorldEnabled(s, ServerCreates(id, u))
    ensures OwnerInv(WorldApply(s, ServerCreates(id, u))) && UniqueInv(WorldApply(s, ServerCreates(id, u)))
  {
    var s' := WorldApply(s, ServerCreates(id, u));
    assert forall j :: Leftover(s', j) <==> Leftover(s, j);
    assert forall j :: Active(s', j) <==> Active(s, j);
  }

  lemma ServerCreatesKeeps(s: State, id: nat, u: Uuid)
    requires Inv(s) && WorldEnabled(s, ServerCreates(id, u))
    ensures Inv(WorldApply(s, ServerCreates(id, u)))
  {
    ServerCreatesKeepsDisks(s, id, u);
    ServerCreatesKeepsCleaner(s, id, u);
    ServerCreatesKeepsOrders(s, id, u);
    ServerCreatesKeepsOwners(s, id, u);
  }

  lemma ServerRefusesKeepsSafe(s: State, id: nat)
    requires Safe(s) && WorldEnabled(s, ServerRefuses(id))
    ensures Safe(WorldApply(s, ServerRefuses(id)))
  {
  }

  lemma ServerRefusesKeepsBooks(s: State, id: nat)
    requires Books(s) && WorldEnabled(s, ServerRefuses(id))
    ensures Books(WorldApply(s, ServerRefuses(id)))
  {
    var s' := WorldApply(s, ServerRefuses(id));
    assert forall j :: Leftover(s', j) ==> Leftover(s, j);
    assert forall j :: Active(s', j) <==> Active(s, j);
  }

  lemma ServerRefusesKeeps(s: State, id: nat)
    requires Inv(s) && WorldEnabled(s, ServerRefuses(id))
    ensures Inv(WorldApply(s, ServerRefuses(id)))
  {
    ServerRefusesKeepsSafe(s, id);
    ServerRefusesKeepsBooks(s, id);
  }

  /** The request is on its way, and its sender waits. */
  ghost function Sent(s: State, v: string): State
    requires CallEnabled(s, v, SendCreate)
  {
    var c := s.calls[v];
    s.(orders := s.orders[c.id := Order(v, c.capacity, c.pc.sr, None)], calls := s.calls[v := c.(pc := AtReply)])
  }

  lemma SendCreateIsSent(s: State, v: string)
    requires LockInv(s) && CallEnabled(s, v, SendCreate)
    ensures CallApply(s, v, SendCreate) == Sent(s, v)
  {
    assert s.readers + {v} == s.readers;
  }

  lemma SentKeepsIds(s: State, v: string)
    requires CallIdInv(s) && CallEnabled(s, v, SendCreate)
    ensures CallIdInv(Sent(s, v))
  {
    var s' := Sent(s, v);
    assert forall j :: Active(s', j) <==> Active(s, j);
  }

  lemma SentKeepsOrders(s: State, v: string)
    requires CallIdInv(s) && OrderInv(s) && OwnerInv(s) && CallEnabled(s, v, SendCreate)
    ensures OrderInv(Sent(s, v))
  {
  }

  lemma SentKeepsOwners(s: State, v: string)
    requires Books(s) && CallEnabled(s, v, SendCreate)
    ensures OwnerInv(Sent(s, v)) && UniqueInv(Sent(s, v))
  {
    var s' := Sent(s, v);
    var id := s.calls[v].id;
    assert forall j :: Leftover(s', j) <==> Leftover(s, j) || j == id;
    assert forall j :: Active(s', j) <==> Active(s, j);
  }

  lemma SentKeepsSafe(s: State, v: string)
    requires Safe(s) && CallEnabled(s, v, SendCreate)
    ensures Safe(Sent(s, v))
  {
  }

  lemma SendCreateStep(s: State, v: string)
    requires Inv(s) && CallEnabled(s, v, SendCreate)
    ensures Inv(CallApply(s, v, SendCreate))
  {
    SendCreateIsSent(s, v);
    SentKeepsSafe(s, v);
    SentKeepsIds(s, v);
    SentKeepsOrders(s, v);
    SentKeepsOwners(s, v);
  }

  // The rename.

  ghost predicate Renaming(s: State, v: string, u: Uuid) {
    v in s.calls && s.calls[v].pc == AtRename(u) && u in s.vdis
  }

  /** The disk gets its final name and an empty description; the call moves on, or ends if it never
      learns of it. */
  ghost function Renamed(s: State, v: string, u: Uuid, told: bool): State
    requires Renaming(s, v, u)
  {
    var s' := s.(vdis := Edited(s.vdis, u, Some(Final(v)), Some(NoMetadata(""))));
    if told then Goto(s', v, AtFetch(u)) else Fail(s', v)
  }

  lemma RenameKeepsDisks(s: State, v: string, u: Uuid, told: bool)
    requires LockInv(s) && DiskInv(s) && Renaming(s, v, u)
    ensures LockInv(Renamed(s, v, u, told)) && DiskInv(Renamed(s, v, u, told))
  {
  }

  lemma RenameKeepsCleaner(s: State, v: string, u: Uuid, told: bool)
    requires Safe(s) && Renaming(s, v, u)
    ensures CleanerInv(Renamed(s, v, u, told))
  {
    assert v in s.readers && !s.writer;
  }

  lemma RenameKeepsIds(s: State, v: string, u: Uuid, told: bool)
    requires CallIdInv(s) && Renaming(s, v, u)
    ensures CallIdInv(Renamed(s, v, u, told))
  {
  }

  lemma RenameKeepsOrders(s: State, v: string, u: Uuid, told: bool)
    requires DiskInv(s) && CallIdInv(s) && OrderInv(s) && Renaming(s, v, u)
    ensures OrderInv(Renamed(s, v, u, told))
  {
  }

  lemma RenameKeepsOwners(s: State, v: string, u: Uuid, told: bool)
    requires CallIdInv(s) && OrderInv(s) && OwnerInv(s) && Renaming(s, v, u)
    ensures OwnerInv(Renamed(s, v, u, told))
  {
    var s' := Renamed(s, v, u, told);
    assert !Leftover(s', s.calls[v].id);
    assert forall j :: Leftover(s', j) ==> Leftover(s, j);
    assert forall j :: Active(s, j) ==> Active(s', j) || j in s'.failed;
  }

  lemma RenameKeepsUnique(s: State, v: string, u: Uuid, told: bool)
    requires DiskInv(s) && UniqueInv(s) && Renaming(s, v, u)
    ensures UniqueInv(Renamed(s, v, u, told))
  {
  }

  // Effects on the cleaner.

  lemma CleanerMoves(s: State, c: Cleaner, writer: bool, firstSeen: map<Uuid, nat>)
    requires Inv(s)
    requires var s' := s.(cleaner := c, writer := writer, firstSeen := firstSeen);
             CleanerInv(s') && (writer <==> InsideMark(c)) && (writer ==> s.readers == {})
    ensures Inv(s.(cleaner := c, writer := writer, firstSeen := firstSeen))
  {
    var s' := s.(cleaner := c, writer := writer, firstSeen := firstSeen);
    assert forall id :: Leftover(s', id) <==> Leftover(s, id);
    assert forall id :: Active(s', id) <==> Active(s, id);
  }

  // The rest.

  /** A new call has begun. */
  ghost function Begun(s: State, v: string, capacity: int): State {
    s.(calls := s.calls[v := Call(s.nextId, capacity, AtLookupFinal)], volumes := s.volumes[s.nextId := v],
       nextId := s.nextId + 1)
  }

  lemma BeginBegins(s: State, v: string, capacity: int)
    requires LockInv(s) && CallEnabled(s, v, Begin(capacity))
    ensures CallApply(s, v, Begin(capacity)) == Begun(s, v, capacity)
  {
    assert s.readers - {v} == s.readers;
  }

  lemma BegunKeepsSafe(s: State, v: string, capacity: int)
    requires Safe(s) && CallEnabled(s, v, Begin(capacity))
    ensures Safe(Begun(s, v, capacity))
  {
  }

  lemma BegunKeepsIds(s: State, v: string, capacity: int)
    requires CallIdInv(s) && OrderInv(s) && CallEnabled(s, v, Begin(capacity))
    ensures CallIdInv(Begun(s, v, capacity)) && OrderInv(Begun(s, v, capacity))
  {
  }

  lemma BegunKeepsUnique(s: State, v: string, capacity: int)
    requires Books(s) && CallEnabled(s, v, Begin(capacity))
    ensures UniqueInv(Begun(s, v, capacity))
  {
  }

  lemma BegunKeepsOwners(s: State, v: string, capacity: int)
    requires Books(s) && CallEnabled(s, v, Begin(capacity))
    ensures OwnerInv(Begun(s, v, capacity))
  {
    var s' := Begun(s, v, capacity);
    assert forall id :: Leftover(s', id) <==> Leftover(s, id);
    assert forall id :: Active(s, id) ==> Active(s', id);
  }

  lemma BeginStep(s: State, v: string, capacity: int)
    requires Inv(s) && CallEnabled(s, v, Begin(capacity))
    ensures Inv(CallApply(s, v, Begin(capacity)))
  {
    BeginBegins(s, v, capacity);
    BegunKeepsSafe(s, v, capacity);
    BegunKeepsIds(s, v, capacity);
    BegunKeepsUnique(s, v, capacity);
    BegunKeepsOwners(s, v, capacity);
  }

  lemma SuccessKeepsSafe(s: State, v: string)
    requires Safe(s) && CallEnabled(s, v, Finish(true))
    ensures Safe(CallApply(s, v, Finish(true)))
  {
  }

  lemma SuccessKeepsBooks(s: State, v: string)
    requires Books(s) && CallEnabled(s, v, Finish(true))
    ensures Books(CallApply(s, v, Finish(true)))
  {
    var s' := CallApply(s, v, Finish(true));
    assert forall id :: Leftover(s', id) <==> Leftover(s, id);
    assert forall id :: Active(s', id) <==> Active(s, id) && id != s.calls[v].id;
  }

  lemma SuccessKeeps(s: State, v: string)
    requires Inv(s) && CallEnabled(s, v, Finish(true))
    ensures Inv(CallApply(s, v, Finish(true)))
  {
    SuccessKeepsSafe(s, v);
    SuccessKeepsBooks(s, v);
  }

  lemma RestartKeepsSafe(s: State)
    requires Safe(s)
    ensures Safe(WorldApply(s, Restart))
  {
  }

  lemma RestartKeepsBooks(s: State)
    requires Books(s)
    ensures Books(WorldApply(s, Restart))
  {
    var s' := WorldApply(s, Restart);
    assert forall id :: Leftover(s', id) <==> Leftover(s, id);
    assert forall id :: Active(s, id) ==> id in s'.failed;
  }

  lemma RestartKeeps(s: State)
    requires Inv(s)
    ensures Inv(WorldApply(s, Restart))
  {
    RestartKeepsSafe(s);
    RestartKeepsBooks(s);
  }

  lemma TickKeepsSafe(s: State, d: nat)
    requires Safe(s)
    ensures Safe(WorldApply(s, Tick(d)))
  {
  }

  lemma TickKeepsBooks(s: State, d: nat)
    requires Books(s)
    ensures Books(WorldApply(s, Tick(d)))
  {
    var s' := WorldApply(s, Tick(d));
    assert forall id :: Leftover(s', id) <==> Leftover(s, id);
    assert forall id :: Active(s', id) <==> Active(s, id);
  }

  lemma TickKeeps(s: State, d: nat)
    requires Inv(s)
    ensures Inv(WorldApply(s, Tick(d)))
  {
    TickKeepsSafe(s, d);
    TickKeepsBooks(s, d);
  }

  // ---------- all steps together ----------

  /** Operations that only look, delete or describe: their effect keeps the invariant while the
      call stays where it is. */
  predicate Plain(a: CallAction) {
    !a.Begin? && !a.SendCreate? && !a.Rename?
  }

  lemma PlainEffectKeeps(s: State, v: string, a: CallAction)
    requires Inv(s) && CallEnabled(s, v, a) && Plain(a)
    ensures Inv(CallEffect(s, v, a))
    ensures CallEffect(s, v, a).calls == s.calls && CallEffect(s, v, a).orders == s.orders
  {
    if a.DeleteSpare? {
      RemoveKeeps(s, s.calls[v].pc.rest[0]);
    } else if a.WriteInfo? && !a.o.Refused? {
      DescriptionKeeps(s, s.calls[v].pc.uuid, Info(a.info));
    }
  }

  /** The operation leads to a place the call may be. */
  ghost predicate LeadsOn(s: State, v: string, a: CallAction)
    requires CallEnabled(s, v, a) && v in CallEffect(s, v, a).calls
  {
    CallNext(s, v, a).Go? ==> MayGoto(CallEffect(s, v, a), v, CallNext(s, v, a).pc)
  }

  lemma LookupFinalNext(s: State, v: string, r: Found)
    requires Safe(s) && OwnerInv(s) && UniqueInv(s) && CallEnabled(s, v, LookupFinal(r))
    ensures LeadsOn(s, v, LookupFinal(r))
  {
  }

  lemma TakeSharedNext(s: State, v: string)
    requires Safe(s) && OwnerInv(s) && UniqueInv(s) && CallEnabled(s, v, TakeShared)
    ensures LeadsOn(s, v, TakeShared)
  {
  }

  lemma LookupTempNext(s: State, v: string, r: Found)
    requires Safe(s) && OwnerInv(s) && UniqueInv(s) && CallEnabled(s, v, LookupTemp(r))
    ensures LeadsOn(s, v, LookupTemp(r))
  {
  }

  lemma ListTempsNext(s: State, v: string, listed: Option<seq<Uuid>>)
    requires Safe(s) && OwnerInv(s) && UniqueInv(s) && CallEnabled(s, v, ListTemps(listed))
    ensures LeadsOn(s, v, ListTemps(listed))
  {
  }

  lemma PickNext(s: State, v: string, choice: Option<Uuid>)
    requires Safe(s) && OwnerInv(s) && UniqueInv(s) && CallEnabled(s, v, Pick(choice))
    ensures LeadsOn(s, v, Pick(choice))
  {
  }

  lemma ReplyNext(s: State, v: string)
    requires Safe(s) && OwnerInv(s) && UniqueInv(s) && CallEnabled(s, v, Reply)
    ensures LeadsOn(s, v, Reply)
  {
  }

  lemma FetchNext(s: State, v: string, ok: bool)
    requires Safe(s) && OwnerInv(s) && UniqueInv(s) && CallEnabled(s, v, Fetch(ok))
    ensures LeadsOn(s, v, Fetch(ok))
  {
  }

  lemma DeleteSpareNext(s: State, v: string, o: Outcome)
    requires Safe(s) && OwnerInv(s) && UniqueInv(s) && CallEnabled(s, v, DeleteSpare(o))
    ensures LeadsOn(s, v, DeleteSpare(o))
  {
    var rest := s.calls[v].pc.rest;
    assert forall w :: w in rest[1..] ==> w in rest;
  }

  lemma WriteInfoNext(s: State, v: string, info: StorageInfo, o: Outcome)
    requires Safe(s) && OwnerInv(s) && CallEnabled(s, v, WriteInfo(info, o))
    ensures LeadsOn(s, v, WriteInfo(info, o))
  {
    if o.Done? {
      var s1 := CallEffect(s, v, WriteInfo(info, o));
      assert s1.vdis.Keys == s.vdis.Keys && forall u :: u in s1.vdis ==> s1.vdis[u].name == s.vdis[u].name;
      assert !Leftover(s1, s.calls[v].id);
    }
  }

  lemma EndNext(s: State, v: string, a: CallAction)
    requires CallEnabled(s, v, a) && (a.ReplyError? || a.Finish?)
    ensures LeadsOn(s, v, a)
  {
  }

  lemma LookNext(s: State, v: string, a: CallAction)
    requires Inv(s) && CallEnabled(s, v, a) && (a.LookupFinal? || a.TakeShared? || a.LookupTemp? || a.ListTemps?)
    ensures LeadsOn(s, v, a)
  {
    match a
    case LookupFinal(r) => LookupFinalNext(s, v, r);
    case TakeShared => TakeSharedNext(s, v);
    case LookupTemp(r) => LookupTempNext(s, v, r);
    case ListTemps(listed) => ListTempsNext(s, v, listed);
  }

  lemma WorkNext(s: State, v: string, a: CallAction)
    requires Inv(s) && CallEnabled(s, v, a) && (a.Pick? || a.Reply? || a.Fetch? || a.DeleteSpare? || a.WriteInfo?)
    ensures LeadsOn(s, v, a)
  {
    match a
    case Pick(choice) => PickNext(s, v, choice);
    case Reply => ReplyNext(s, v);
    case Fetch(ok) => FetchNext(s, v, ok);
    case DeleteSpare(o) => DeleteSpareNext(s, v, o);
    case WriteInfo(info, o) => WriteInfoNext(s, v, info, o);
  }

  lemma PlainNext(s: State, v: string, a: CallAction)
    requires Inv(s) && CallEnabled(s, v, a) && Plain(a)
    ensures LeadsOn(s, v, a)
  {
    if a.LookupFinal? || a.TakeShared? || a.LookupTemp? || a.ListTemps? { LookNext(s, v, a); }
    else if a.ReplyError? || a.Finish? { EndNext(s, v, a); }
    else { WorkNext(s, v, a); }
  }

  lemma LandKeeps(s: State, v: string, next: Next)
    requires Inv(s) && v in s.calls
    requires next.Go? ==> MayGoto(s, v, next.pc)
    requires next.Succeed? ==> s.calls[v].pc.AtFinish?
    ensures Inv(Land(s, v, next))
  {
    match next
    case Go(pc) => GotoKeeps(s, v, pc);
    case GiveUp => FailKeeps(s, v);
    case Succeed => SuccessKeeps(s, v);
  }

  lemma PlainStep(s: State, v: string, a: CallAction)
    requires Inv(s) && CallEnabled(s, v, a) && Plain(a)
    ensures Inv(CallApply(s, v, a))
  {
    PlainEffectKeeps(s, v, a);
    PlainNext(s, v, a);
    LandKeeps(CallEffect(s, v, a), v, CallNext(s, v, a));
  }

  lemma RenameStep(s: State, v: string, o: Outcome)
    requires Inv(s) && CallEnabled(s, v, Rename(o))
    ensures Inv(CallApply(s, v, Rename(o)))
  {
    var u := s.calls[v].pc.uuid;
    if o.Refused? {
      FailKeeps(s, v);
    } else {
      RenameKeepsDisks(s, v, u, o.Done?);
      RenameKeepsCleaner(s, v, u, o.Done?);
      RenameKeepsIds(s, v, u, o.Done?);
      RenameKeepsOrders(s, v, u, o.Done?);
      RenameKeepsOwners(s, v, u, o.Done?);
      RenameKeepsUnique(s, v, u, o.Done?);
    }
  }

  lemma ChangingStep(s: State, v: string, a: CallAction)
    requires Inv(s) && CallEnabled(s, v, a) && !Plain(a)
    ensures Inv(CallApply(s, v, a))
  {
    match a
    case Begin(capacity) => BeginStep(s, v, capacity);
    case Rename(o) => RenameStep(s, v, o);
    case SendCreate => SendCreateStep(s, v);
  }

  lemma CallStep(s: State, v: string, a: CallAction)
    requires Inv(s) && CallEnabled(s, v, a)
    ensures Inv(CallApply(s, v, a))
  {
    if Plain(a) { PlainStep(s, v, a); } else { ChangingStep(s, v, a); }
  }

  lemma CleanerDisksKeep(s: State, a: CleanerAction)
    requires Inv(s) && CleanerEnabled(s, a)
    ensures Inv(s.(vdis := CleanerDisks(s, a)))
  {
    if a.Mark? && !a.o.Refused? {
      DescriptionKeeps(s, s.cleaner.list[s.cleaner.i].uuid, Candidate(s.cleaner.stamp));
    } else if a.Erase? && !a.o.Refused? {
      RemoveKeeps(s, s.cleaner.list[s.cleaner.i].uuid);
    } else {
      assert s.(vdis := CleanerDisks(s, a)) == s;
    }
  }

  /** Looking, deciding and locking: what the cleaner is then entitled to. */
  lemma CleanerEntitled(s: State, a: CleanerAction)
    requires LockInv(s) && DiskInv(s) && CleanerInv(s) && CleanerEnabled(s, a) && !a.Mark? && !a.Erase?
    ensures CleanerInv(s.(cleaner := CleanerNext(s, a), writer := InsideMark(CleanerNext(s, a)),
                          firstSeen := CleanerSeen(s, a)))
    ensures InsideMark(CleanerNext(s, a)) ==> s.readers == {}
  {
    if !a.List? {
      var s' := s.(cleaner := CleanerNext(s, a), writer := InsideMark(CleanerNext(s, a)),
                   firstSeen := CleanerSeen(s, a));
      assert forall k :: 0 <= k < |s.cleaner.list| && EntryInv(s, s.cleaner.list[k]) ==>
               EntryInv(s', s.cleaner.list[k]);
    }
  }

  lemma CleanerStep(s: State, a: CleanerAction)
    requires Inv(s) && CleanerEnabled(s, a)
    ensures Inv(CleanerApply(s, a))
  {
    var s1 := s.(vdis := CleanerDisks(s, a));
    CleanerDisksKeep(s, a);
    if !a.Mark? && !a.Erase? {
      CleanerEntitled(s, a);
      assert s1 == s;
    }
    CleanerMoves(s1, CleanerNext(s, a), InsideMark(CleanerNext(s, a)), CleanerSeen(s, a));
  }

  lemma WorldStep(s: State, a: WorldAction)
    requires Inv(s) && WorldEnabled(s, a)
    ensures Inv(WorldApply(s, a))
  {
    match a
    case ServerCreates(id, u) => ServerCreatesKeeps(s, id, u);
    case ServerRefuses(id) => ServerRefusesKeeps(s, id);
    case Tick(d) => TickKeeps(s, d);
    case Restart => RestartKeeps(s);
    case OtherDelete(u) => RemoveKeeps(s, u);
    case OtherInfo(u, info) => DescriptionKeeps(s, u, Info(info));
    case OtherResize(u, size) => ResizeKeeps(s, u, size);
    case OtherCopy(u, copy, sr) =>
      AddKeepsSafe(s, copy, s.vdis[u].(sr := sr));
      AddKeepsBooks(s, copy, s.vdis[u].(sr := sr));
    case StartMigrating(v) => MigratoryKeeps(s, s.migratory + {v});
    case StopMigrating(v) => MigratoryKeeps(s, s.migratory - {v});
    case ForeignPut(u, vdi) => ForeignKeeps(s, u, vdi);
    case ForeignDrop(u) => RemoveKeeps(s, u);
  }

  lemma StepKeepsInv(s: State, a: Action)
    requires Inv(s) && Enabled(s, a)
    ensures Inv(Apply(s, a))
  {
    match a
    case ByCall(v, c) => CallStep(s, v, c);
    case ByCleaner(c) => CleanerStep(s, c);
    case ByWorld(w) => WorldStep(s, w);
  }
}

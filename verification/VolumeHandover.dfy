/**
  From creation to publishing. A CreateVolume call takes a run of the creation protocol from its
  beginning to its end; a run of the migration protocol that shows the same disks can follow it,
  whatever it does to the disks of its volume, and then hand the volume out. From there on everything
  proved about migration runs holds of that volume, whether its disk was made by this call, left over
  from an earlier one, or finished before: until it is deleted, or lost to a cleaner's pass that began
  before its disk was finished. A migration run follows that, too, and StaleListings.dfy says when it
  can happen: never to a disk made by this call, and never once the pass under way is over.
 */
module VolumeHandover {
  import opened Wrappers
  import opened DiskNames
  import opened Metadata
  import opened Xo
  import opened VolumeIds
  import opened SrPicking
  import opened SrSelection
  import opened MigrationProtocol
  import opened MigrationSafety
  import opened MigrationRuns
  import StorageParameters
  import CreationProtocol
  import CreationRuns
  import StaleListings
  import VolumeCreator
  import VolumePublisher
  import XoClient

  // ---------- following a call that creates ----------

  /** A run that goes on keeps every uuid, and never gives a disk a uuid of the past. */
  lemma GoingOn(a: CreationRuns.Running, a': CreationRuns.Running)
    requires CreationRuns.Continues(a, a')
    ensures CreationRuns.Last(a).used <= CreationRuns.Last(a').used
            && CreationRuns.Last(a').vdis.Keys <= CreationRuns.Last(a').used
    ensures forall u :: u in CreationRuns.Last(a').vdis && u !in CreationRuns.Last(a).vdis ==>
              u !in CreationRuns.Last(a).used
  {
    var i, j := |a.states| - 1, |a'.states| - 1;
    assert a'.states[i] == a.states[i];
    CreationRuns.InvAlways(a', j);
    forall u | u in a.states[i].used ensures u in a'.states[j].used {
      CreationRuns.UsedGrows(a', i, j, u);
    }
    forall u | u in a'.states[j].vdis && u !in a.states[i].vdis ensures u !in a.states[i].used {
      if u in a.states[i].used {
        CreationRuns.NoResurrection(a', i, j, u);
      }
    }
  }

  lemma KnownUuids(b: Running)
    ensures Last(b).vdis.Keys <= Last(b).used && Directory(Last(b).srs)
  {
    InvAlways(b, |b.states| - 1);
  }

  /** Only disks of `v` differ, and new ones have new uuids. */
  ghost predicate Differs(s: State, v: string, vdis: map<Uuid, Vdi>, used: set<Uuid>) {
    && s.used <= used && vdis.Keys <= used
    && (forall u :: u in s.vdis && !VolumeCreator.IsOf(s.vdis[u], v) ==> u in vdis && vdis[u] == s.vdis[u])
    && (forall u :: u in vdis && (u !in s.vdis || vdis[u] != s.vdis[u]) ==> VolumeCreator.IsOf(vdis[u], v))
    && (forall u :: u in vdis && u !in s.vdis ==> u !in s.used)
  }

  /** The uuids still to be dealt with. */
  ghost function Behind(s: State, vdis: map<Uuid, Vdi>, used: set<Uuid>): set<Uuid> {
    (s.vdis.Keys - vdis.Keys) + (set u | u in vdis && (u !in s.vdis || vdis[u] != s.vdis[u])) +
      (used - s.used - vdis.Keys)
  }

  lemma Puts(r: Running, v: string, vdis: map<Uuid, Vdi>, used: set<Uuid>, u: Uuid) returns (r': Running)
    requires v !in Last(r).volumes && Differs(Last(r), v, vdis, used) && u in Behind(Last(r), vdis, used) && u in vdis
    ensures Continues(r, r') && Last(r') == Last(r).(vdis := Last(r).vdis[u := vdis[u]], used := Last(r).used + {u})
  {
    r' := Advance(r, ByWorld(OtherPut(u, vdis[u])));
  }

  lemma Drops(r: Running, v: string, vdis: map<Uuid, Vdi>, used: set<Uuid>, u: Uuid) returns (r': Running)
    requires v !in Last(r).volumes && Differs(Last(r), v, vdis, used) && u in Last(r).vdis && u !in vdis
             && u in Last(r).used
    ensures Continues(r, r') && Last(r') == Last(r).(vdis := Last(r).vdis - {u}, used := Last(r).used + {u})
  {
    assert Last(r).used + {u} == Last(r).used;
    r' := Advance(r, ByWorld(OtherDrop(u)));
  }

  lemma Comes(r: Running, v: string, u: Uuid, vdi: Vdi) returns (r': Running)
    requires u !in Last(r).vdis && u !in Last(r).used && vdi.name == Temporary(v)
    ensures Continues(r, r') && Last(r') == Last(r).(vdis := Last(r).vdis[u := vdi], used := Last(r).used + {u})
  {
    r' := Advance(r, ByWorld(OtherPut(u, vdi)));
  }

  /** A disk that came and went. */
  lemma Passes(r: Running, v: string, u: Uuid) returns (r': Running)
    requires u !in Last(r).vdis && u !in Last(r).used
    ensures Continues(r, r') && Last(r') == Last(r).(vdis := Last(r).vdis - {u}, used := Last(r).used + {u})
  {
    var vdi := Vdi(Temporary(v), NoMetadata(""), 0, "");
    r' := Comes(r, v, u, vdi);
    assert Last(r).vdis[u := vdi] - {u} == Last(r).vdis - {u};
    r' := Advance(r', ByWorld(OtherDrop(u)));
  }

  /** One uuid less to be dealt with. */
  lemma OneStep(r: Running, v: string, vdis: map<Uuid, Vdi>, used: set<Uuid>, u: Uuid) returns (r': Running)
    requires v !in Last(r).volumes && Differs(Last(r), v, vdis, used) && u in Behind(Last(r), vdis, used)
    requires Last(r).vdis.Keys <= Last(r).used
    ensures Continues(r, r')
    ensures Last(r') == Last(r).(vdis := if u in vdis then Last(r).vdis[u := vdis[u]]
                                         else Last(r).vdis - {u}, used := Last(r).used + {u})
  {
    if u in vdis { r' := Puts(r, v, vdis, used, u); }
    else if u in Last(r).vdis { r' := Drops(r, v, vdis, used, u); }
    else { r' := Passes(r, v, u); }
  }

  lemma StillDiffers(s: State, s': State, v: string, vdis: map<Uuid, Vdi>, used: set<Uuid>, u: Uuid)
    requires Differs(s, v, vdis, used) && u in Behind(s, vdis, used) && s.vdis.Keys <= s.used
    requires s' == s.(vdis := if u in vdis then s.vdis[u := vdis[u]] else s.vdis - {u}, used := s.used + {u})
    ensures Differs(s', v, vdis, used)
  {
  }

  lemma CatchesUp(s: State, s': State, vdis: map<Uuid, Vdi>, used: set<Uuid>, u: Uuid)
    requires u in Behind(s, vdis, used)
    requires s' == s.(vdis := if u in vdis then s.vdis[u := vdis[u]] else s.vdis - {u}, used := s.used + {u})
    ensures Behind(s', vdis, used) < Behind(s, vdis, used)
  {
    assert u !in Behind(s', vdis, used);
  }

  lemma {:induction false} Follows(r: Running, v: string, vdis: map<Uuid, Vdi>, used: set<Uuid>) returns (r': Running)
    requires v !in Last(r).volumes && Differs(Last(r), v, vdis, used)
    ensures Continues(r, r') && Last(r') == Last(r).(vdis := vdis, used := used)
    decreases Behind(Last(r), vdis, used)
  {
    var s := Last(r);
    KnownUuids(r);
    if u :| u in Behind(s, vdis, used) {
      r' := OneStep(r, v, vdis, used, u);
      StillDiffers(s, Last(r'), v, vdis, used, u);
      CatchesUp(s, Last(r'), vdis, used, u);
      r' := Follows(r', v, vdis, used);
    } else {
      r' := r;
      CaughtUp(s, v, vdis, used);
    }
  }

  lemma CaughtUp(s: State, v: string, vdis: map<Uuid, Vdi>, used: set<Uuid>)
    requires Differs(s, v, vdis, used) && s.vdis.Keys <= s.used && Behind(s, vdis, used) == {}
    ensures s == s.(vdis := vdis, used := used)
  {
    forall u ensures (u in s.vdis <==> u in vdis) && (u in vdis ==> vdis[u] == s.vdis[u])
      && (u in used ==> u in s.used) {
      assert u !in Behind(s, vdis, used);
    }
    assert s.vdis == vdis;
  }

  // ---------- handing out ----------

  function HandleOf(sel: Selection, u: Uuid): Handle {
    match sel.VolumeIdType() case NameAsVolumeId => Handle.ByName case UuidAsVolumeId => Handle.ByUuid(u)
  }

  /** Names always come back as names. A uuid comes back as that uuid exactly when it is usable. */
  lemma HandleIsUnderstood(sel: Selection, v: string, u: Uuid)
    ensures ParseVolumeId(VolumeCreator.HandleFor(sel, v, u)) == Ok(VolumePublisher.IdOf(v, HandleOf(sel, u)))
            <==> (sel.VolumeIdType().UuidAsVolumeId? ==> UsableUuid(u))
  {
    NameHandleRoundTrip(v);
    UuidHandleRoundTrip(u);
  }

  lemma OnlyFinishedDisk(s: State, a: CreationRuns.Running, v: string, u: Uuid)
    requires s.vdis == CreationRuns.Last(a).vdis && v !in CreationRuns.Last(a).migratory && IsDisk(s, v, u)
    ensures OnlyDisk(s, v, u)
  {
    CreationRuns.InvAlways(a, |a.states| - 1);
    assert forall w :: IsDisk(s, v, w) ==> w == u;
  }

  lemma ListedByTag(sel: Selection, p: StorageParameters.Parameters, hostTopology: bool, dir: map<Uuid, Sr>,
                    listing: seq<Sr>, sr: Sr)
    requires Chosen(sel, p, hostTopology, dir, listing) && sr in sel.srs
    ensures sr.uuid in dir
  {
    if sel.kind == Some(SelectionKind.ByTag) {
      assert sr in listing;
    }
  }

  /** What a successful CreateVolume leaves behind can be handed out, made or reused. */
  lemma CreatedVolumeCanBeHandedOut(s: State, a: CreationRuns.Running, sel: Selection, p: StorageParameters.Parameters,
                                    hostTopology: bool, listing: seq<Sr>, v: string, u: Uuid)
    requires Chosen(sel, p, hostTopology, s.srs, listing) && s.vdis == CreationRuns.Last(a).vdis
             && v !in CreationRuns.Last(a).migratory
    requires v !in s.volumes && v !in s.calls
    requires u in s.vdis && s.vdis[u].name == Final(v) && s.vdis[u].desc == Info(sel.ToStorageInfo())
    requires exists sr :: sr in sel.srs && sr.uuid == s.vdis[u].sr
    ensures WorldEnabled(s, HandOut(v, u, Volume(HandleOf(sel, u), sel.ToStorageInfo())))
  {
    ChosenInfoIsStorable(sel, p, hostTopology, s.srs, listing);
    var sr :| sr in sel.srs && sr.uuid == s.vdis[u].sr;
    ListedByTag(sel, p, hostTopology, s.srs, listing, sr);
    OnlyFinishedDisk(s, a, v, u);
  }

  lemma HandsOut(r: Running, a: CreationRuns.Running, sel: Selection, p: StorageParameters.Parameters,
                 hostTopology: bool, listing: seq<Sr>, v: string, u: Uuid)
    returns (r': Running)
    requires Chosen(sel, p, hostTopology, Last(r).srs, listing)
    requires Last(r).vdis == CreationRuns.Last(a).vdis && v !in CreationRuns.Last(a).migratory
    requires v !in Last(r).volumes && v !in Last(r).calls
    requires u in Last(r).vdis && Last(r).vdis[u].name == Final(v) && Last(r).vdis[u].desc == Info(sel.ToStorageInfo())
    requires exists sr :: sr in sel.srs && sr.uuid == Last(r).vdis[u].sr
    ensures Continues(r, r')
    ensures Last(r') == Last(r).(volumes := Last(r).volumes[v := Volume(HandleOf(sel, u), sel.ToStorageInfo())])
    ensures OnlyDisk(Last(r'), v, u) && Plain(Last(r'), u, sel.ToStorageInfo())
  {
    CreatedVolumeCanBeHandedOut(Last(r), a, sel, p, hostTopology, listing, v, u);
    r' := Advance(r, ByWorld(HandOut(v, u, Volume(HandleOf(sel, u), sel.ToStorageInfo()))));
    assert forall w :: IsDisk(Last(r'), v, w) <==> IsDisk(Last(r), v, w);
  }

  /** The migration protocol follows a call of the creation protocol, and hands out what it made. */
  lemma Mirrors(a: CreationRuns.Running, a': CreationRuns.Running, b: Running, v: string, made: Option<Uuid>)
    returns (b': Running)
    requires CreationRuns.Continues(a, a') && v !in Last(b).volumes
    requires Last(b).vdis == CreationRuns.Last(a).vdis && Last(b).used == CreationRuns.Last(a).used
    requires VolumeCreator.WorksOn(CreationRuns.Last(a).vdis, CreationRuns.Last(a').vdis, v, made)
    ensures Continues(b, b')
            && Last(b') == Last(b).(vdis := CreationRuns.Last(a').vdis, used := CreationRuns.Last(a').used)
  {
    GoingOn(a, a');
    b' := Follows(b, v, CreationRuns.Last(a').vdis, CreationRuns.Last(a').used);
  }

  lemma MirrorsAndHandsOut(a: CreationRuns.Running, a': CreationRuns.Running, b: Running, v: string, made: Option<Uuid>,
                           sel: Selection, p: StorageParameters.Parameters, hostTopology: bool, listing: seq<Sr>,
                           u: Uuid)
    returns (b': Running)
    requires CreationRuns.Continues(a, a') && v !in Last(b).volumes && v !in Last(b).calls
    requires Last(b).vdis == CreationRuns.Last(a).vdis && Last(b).used == CreationRuns.Last(a).used
    requires VolumeCreator.WorksOn(CreationRuns.Last(a).vdis, CreationRuns.Last(a').vdis, v, made)
    requires Chosen(sel, p, hostTopology, Last(b).srs, listing) && v !in CreationRuns.Last(a').migratory
    requires u in CreationRuns.Last(a').vdis && CreationRuns.Last(a').vdis[u].name == Final(v)
    requires CreationRuns.Last(a').vdis[u].desc == Info(sel.ToStorageInfo())
    requires exists sr :: sr in sel.srs && sr.uuid == CreationRuns.Last(a').vdis[u].sr
    ensures Continues(b, b')
    ensures Last(b') == Last(b).(vdis := CreationRuns.Last(a').vdis, used := CreationRuns.Last(a').used,
                                 volumes := Last(b).volumes[v := Volume(HandleOf(sel, u), sel.ToStorageInfo())])
    ensures OnlyDisk(Last(b'), v, u) && Plain(Last(b'), u, sel.ToStorageInfo())
  {
    b' := Mirrors(a, a', b, v, made);
    b' := HandsOut(b', a', sel, p, hostTopology, listing, v, u);
  }

  /** Whatever the outcome. */
  lemma Concludes(a: CreationRuns.Running, a': CreationRuns.Running, b: Running, v: string, capacity: int,
                  req: Option<Requirement>, disk: Result<(Uuid, Option<Topology>), VolumeCreator.CreateError>,
                  made: Option<Uuid>, sel: Selection, p: StorageParameters.Parameters, hostTopology: bool,
                  listing: seq<Sr>)
    returns (b': Running)
    requires CreationRuns.Continues(a, a') && v !in Last(b).volumes && v !in Last(b).calls
             && v !in CreationRuns.Last(a').migratory
    requires Last(b).vdis == CreationRuns.Last(a).vdis && Last(b).used == CreationRuns.Last(a).used
    requires VolumeCreator.Leaves(CreationRuns.Last(a).vdis, CreationRuns.Last(a').vdis, v, capacity, sel, req,
                                  disk, made)
    requires disk.Ok? ==> Chosen(sel, p, hostTopology, Last(b).srs, listing)
    ensures Continues(b, b')
    ensures Last(b') == Last(b).(vdis := CreationRuns.Last(a').vdis, used := CreationRuns.Last(a').used,
                                 volumes := if disk.Err? then Last(b).volumes
                                            else Last(b).volumes[v := Volume(HandleOf(sel, disk.value.0),
                                              sel.ToStorageInfo())])
    ensures disk.Ok? ==> OnlyDisk(Last(b'), v, disk.value.0) && Plain(Last(b'), disk.value.0, sel.ToStorageInfo())
  {
    if disk.Ok? {
      b' := MirrorsAndHandsOut(a, a', b, v, made, sel, p, hostTopology, listing, disk.value.0);
    } else {
      b' := Mirrors(a, a', b, v, made);
    }
  }

  // ---------- following the cleaner ----------

  /** XO refuses to delete it. */
  ghost predicate BeingCopied(s: State, u: Uuid) {
    exists v :: v in s.tasks && !s.tasks[v].phase.Queued? && IsDisk(s, v, u)
  }

  /** The volumes whose disk is not among `vdis` any more. */
  ghost function LostWithout(s: State, vdis: map<Uuid, Vdi>): set<string> {
    set v | v in s.volumes && exists u :: IsDisk(s, v, u) && u !in vdis
  }

  lemma MarkFollows(a: CreationRuns.Running, o: Outcome, b: Running) returns (b': Running)
    requires CreationProtocol.CleanerEnabled(CreationRuns.Last(a), CreationProtocol.CleanerAction.Mark(o))
    requires Last(b).vdis == CreationRuns.Last(a).vdis
    ensures Continues(b, b')
    ensures Last(b') == Last(b).(vdis := CreationProtocol.CleanerDisks(CreationRuns.Last(a),
                                                                       CreationProtocol.CleanerAction.Mark(o)))
  {
    CreationRuns.InvAlways(a, |a.states| - 1);
    KnownUuids(b);
    var s := CreationRuns.Last(a);
    b' := b;
    if !o.Refused? {
      var u := s.cleaner.list[s.cleaner.i].uuid;
      assert Last(b).used + {u} == Last(b).used;
      b' := Advance(b, ByWorld(OtherPut(u, s.vdis[u].(desc := Candidate(s.cleaner.stamp)))));
    }
  }

  lemma NobodysLoss(s: State, u: Uuid)
    requires u in s.vdis && NoVolumesDisk(s, s.vdis[u])
    ensures var lost := LostWithout(s, s.vdis - {u});
            lost == {} && s.volumes - lost == s.volumes && s.tasks - lost == s.tasks && s.calls - lost == s.calls
  {
    assert LostWithout(s, s.vdis - {u}) == {};
  }

  lemma DropFollows(b: Running, u: Uuid) returns (b': Running)
    requires u in Last(b).vdis && !BeingCopied(Last(b), u)
    ensures Continues(b, b')
    ensures var s, vdis := Last(b), Last(b).vdis - {u}; var lost := LostWithout(s, vdis);
            Last(b') == s.(vdis := vdis, volumes := s.volumes - lost, tasks := s.tasks - lost, calls := s.calls - lost)
  {
    if NoVolumesDisk(Last(b), Last(b).vdis[u]) {
      NobodysLoss(Last(b), u);
      b' := Advance(b, ByWorld(OtherDrop(u)));
    } else {
      var v := Last(b).vdis[u].name.volume;
      assert IsDisk(Last(b), v, u);
      assert LostWithout(Last(b), Last(b).vdis - {u}) == {v};
      b' := Advance(b, ByWorld(CleanerErases(v, u)));
    }
  }

  /** Every step of the cleaner, too, is a stretch of a migration run. It costs exactly the volumes whose
      disk it deletes. */
  lemma CleanerFollows(a: CreationRuns.Running, c: CreationProtocol.CleanerAction, b: Running) returns (b': Running)
    requires CreationProtocol.CleanerEnabled(CreationRuns.Last(a), c) && Last(b).vdis == CreationRuns.Last(a).vdis
    requires forall u :: u in Last(b).vdis && BeingCopied(Last(b), u) ==>
               u in CreationProtocol.CleanerDisks(CreationRuns.Last(a), c)
    ensures Continues(b, b')
    ensures var s, vdis := Last(b), CreationProtocol.CleanerDisks(CreationRuns.Last(a), c);
            var lost := LostWithout(s, vdis);
            Last(b') == s.(vdis := vdis, volumes := s.volumes - lost, tasks := s.tasks - lost, calls := s.calls - lost)
  {
    var s, vdis := Last(b), CreationProtocol.CleanerDisks(CreationRuns.Last(a), c);
    if c.Erase? && !c.o.Refused? {
      var cleaner := CreationRuns.Last(a).cleaner;
      b' := DropFollows(b, cleaner.list[cleaner.i].uuid);
    } else {
      if c.Mark? { b' := MarkFollows(a, c.o, b); } else { b' := b; }
      assert LostWithout(s, vdis) == {};
      assert s.volumes - {} == s.volumes && s.tasks - {} == s.tasks && s.calls - {} == s.calls;
    }
  }

  /** Only volumes whose disk is condemned can be lost that way. */
  lemma OnlyCondemnedAreLost(a: CreationRuns.Running, c: CreationProtocol.CleanerAction, b: Running, v: string)
    requires CreationProtocol.CleanerEnabled(CreationRuns.Last(a), c) && Last(b).vdis == CreationRuns.Last(a).vdis
    requires v in LostWithout(Last(b), CreationProtocol.CleanerDisks(CreationRuns.Last(a), c))
    ensures exists u :: IsDisk(Last(b), v, u) && StaleListings.Condemned(CreationRuns.Last(a), u)
  {
    var s := CreationRuns.Last(a);
    CreationRuns.InvAlways(a, |a.states| - 1);
    var u :| IsDisk(Last(b), v, u) && u !in CreationProtocol.CleanerDisks(s, c);
    assert StaleListings.Deletable(s.cleaner.list[s.cleaner.i], u);
  }

  /** The migration protocol shows XO as it is. */
  ghost predicate Shows(s: State, xo: XoClient.Client)
    reads xo
  {
    s.vdis == xo.vdis && s.used == xo.used && s.vbds == xo.vbds && s.srs == xo.srs && s.vms == xo.vms
  }

  /** In however the run goes on, the cleaner does not delete disk `u`. */
  ghost predicate NeverErasedAfter(a: CreationRuns.Running, u: Uuid) {
    forall a': CreationRuns.Running, j ::
      CreationRuns.Continues(a, a') && |a.actions| <= j ==> !StaleListings.ErasedAt(a', j, u)
  }

  lemma StaysOutOfDanger(a: CreationRuns.Running, a': CreationRuns.Running, v: string, u: Uuid)
    requires CreationRuns.Continues(a, a') && CreationRuns.Last(a').cleaner == CreationRuns.Last(a).cleaner
    requires u in CreationRuns.Last(a').vdis && CreationRuns.Last(a').vdis[u].name == Final(v)
    ensures NeverErasedAfter(a', u) <==> !StaleListings.Condemned(CreationRuns.Last(a), u)
    ensures u !in CreationRuns.Last(a).vdis ==> NeverErasedAfter(a', u)
  {
    if u !in CreationRuns.Last(a).vdis {
      GoingOn(a, a');
      StaleListings.NewIsNotCondemned(a, u);
    }
    StaleListings.CanBeErasedExactlyWhen(a', u);
  }

  /** CreateVolume with both protocols looking on. If it succeeds, the volume has been handed out: it
      has exactly one disk, and the handle returned is the one publishing asks for. No pass of the
      cleaner will ever delete that disk exactly if the pass under way does not hold it as marked, as it
      never does when the call has made the disk. If it fails, the migration protocol has merely seen
      disks of nobody come and go. */
  method Provide(creator: VolumeCreator.Creator, v: string, p: StorageParameters.Parameters, hostTopology: bool,
                 capacity: int, req: Option<Requirement>, ghost a: CreationRuns.Running, ghost b: Running)
    returns (res: Result<(string, Option<Topology>), VolumeCreator.CreateError>,
             ghost disk: Result<(Uuid, Option<Topology>), VolumeCreator.CreateError>, ghost sel: Selection,
             ghost a': CreationRuns.Running, ghost b': Running)
    requires StorageParameters.Accepted(p) && Ordinary(v)
    requires creator.Sees(VolumeCreator.See(CreationRuns.Last(a), v)) && Shows(Last(b), creator.xo)
    requires v !in CreationRuns.Last(a).calls && v !in CreationRuns.Last(a).migratory && v !in Last(b).volumes
             && v !in Last(b).calls
    requires creator.creationLock.Valid() && !creator.creationLock.writer && !CreationRuns.Last(a).writer
    modifies creator.xo`vdis, creator.xo`used, creator.xo`faults, creator.creationLock
    ensures CreationRuns.Continues(a, a') && Continues(b, b')
    ensures res == VolumeCreator.Answer(sel, v, disk)
    ensures Last(b') == Last(b).(vdis := creator.xo.vdis, used := creator.xo.used,
                                 volumes := if disk.Err? then Last(b).volumes
                                            else Last(b).volumes[v := Volume(HandleOf(sel, disk.value.0),
                                              sel.ToStorageInfo())])
    ensures disk.Ok? ==> OnlyDisk(Last(b'), v, disk.value.0)
    ensures disk.Ok? ==>
              (NeverErasedAfter(a', disk.value.0) <==> !StaleListings.Condemned(CreationRuns.Last(a), disk.value.0))
    ensures disk.Ok? && disk.value.0 !in old(creator.xo.vdis) ==> NeverErasedAfter(a', disk.value.0)
  {
    KnownUuids(b);
    ghost var made, found, listing;
    res, disk, made, found, sel, listing, a' := creator.CreateVolume(v, p, hostTopology, capacity, req, a);
    b' := Concludes(a, a', b, v, capacity, req, disk, made, sel, p, hostTopology, listing);
    if disk.Ok? { StaysOutOfDanger(a, a', v, disk.value.0); }
  }
}

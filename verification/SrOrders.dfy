/**
  The order of a listing. GetSRsWithTag answers in the order of a Go map (pkg/xoa/jsonrpc_client.go:397-444),
  that is, in any order; this module says exactly when it matters which one.
 */
module SrOrders {
  import opened Wrappers
  import opened Xo
  import opened Metadata
  import opened SrPicking
  import opened SrSelection

  // ---------- orders of one list ----------

  ghost predicate Reordered(srs: seq<Sr>, order: seq<Sr>) {
    multiset(order) == multiset(srs)
  }

  /** No repository of the list is used less. */
  ghost predicate LeastIn(srs: seq<Sr>, sr: Sr) {
    sr in srs && forall x :: x in srs ==> sr.usage <= x.usage
  }

  lemma ReorderedMembers(srs: seq<Sr>, order: seq<Sr>)
    requires Reordered(srs, order)
    ensures forall x :: x in order <==> x in srs
    ensures order == [] <==> srs == []
  {
    assert forall x :: x in order <==> x in multiset(order);
    assert forall x :: x in srs <==> x in multiset(srs);
    assert |multiset(order)| == |multiset(srs)|;
  }

  /** The list with one of its members in front. */
  lemma InFront(srs: seq<Sr>, sr: Sr) returns (order: seq<Sr>)
    requires sr in srs
    ensures Reordered(srs, order) && order != [] && order[0] == sr
  {
    var i :| 0 <= i < |srs| && srs[i] == sr;
    order := [sr] + (srs[..i] + srs[i + 1..]);
    assert srs == srs[..i] + ([sr] + srs[i + 1..]);
  }

  lemma {:induction false} FirstLeastUsed(srs: seq<Sr>)
    requires srs != [] && forall x :: x in srs ==> srs[0].usage <= x.usage
    ensures LeastUsed(srs) == srs[0]
  {
    if |srs| > 1 {
      var init := srs[..|srs| - 1];
      assert forall x :: x in init ==> x in srs;
      FirstLeastUsed(init);
    }
  }

  /** Some order makes a given least used repository the choice. */
  lemma ChosenInSomeOrder(srs: seq<Sr>, sr: Sr) returns (order: seq<Sr>)
    requires LeastIn(srs, sr)
    ensures Reordered(srs, order) && order != [] && LeastUsed(order) == sr
  {
    order := InFront(srs, sr);
    ReorderedMembers(srs, order);
    FirstLeastUsed(order);
  }

  lemma ChoiceIsLeast(srs: seq<Sr>, order: seq<Sr>)
    requires Reordered(srs, order) && srs != []
    ensures order != [] && LeastIn(srs, LeastUsed(order))
  {
    ReorderedMembers(srs, order);
    LeastUsedIsLeast(order);
  }

  /** The order decides between success and failure exactly unless all least used repositories agree on
      the room test. */
  lemma SuccessIgnoresOrderExactlyWhen(srs: seq<Sr>, capacity: int)
    ensures (forall order :: Reordered(srs, order) ==>
              (MostSpace(order, capacity).Ok? <==> MostSpace(srs, capacity).Ok?))
            <==> (forall a, b :: LeastIn(srs, a) && LeastIn(srs, b) ==>
              (PassesRoomTest(a, capacity) <==> PassesRoomTest(b, capacity)))
  {
    if srs == [] {
      forall order | Reordered(srs, order) ensures order == [] { ReorderedMembers(srs, order); }
    } else {
      if forall order :: Reordered(srs, order) ==> (MostSpace(order, capacity).Ok? <==> MostSpace(srs, capacity).Ok?) {
        forall a, b | LeastIn(srs, a) && LeastIn(srs, b)
          ensures PassesRoomTest(a, capacity) <==> PassesRoomTest(b, capacity)
        {
          var first := ChosenInSomeOrder(srs, a);
          var second := ChosenInSomeOrder(srs, b);
          assert MostSpace(first, capacity).Ok? <==> MostSpace(second, capacity).Ok?;
        }
      }
      ChoiceIsLeast(srs, srs);
      if forall a, b :: LeastIn(srs, a) && LeastIn(srs, b) ==>
           (PassesRoomTest(a, capacity) <==> PassesRoomTest(b, capacity)) {
        forall order | Reordered(srs, order) ensures MostSpace(order, capacity).Ok? <==> MostSpace(srs, capacity).Ok? {
          ChoiceIsLeast(srs, order);
        }
      }
    }
  }

  /** The order decides which repository is chosen exactly unless the least used one is unique, or none
      of them passes the room test. */
  lemma ChoiceIgnoresOrderExactlyWhen(srs: seq<Sr>, capacity: int)
    ensures (forall order :: Reordered(srs, order) ==> MostSpace(order, capacity) == MostSpace(srs, capacity))
            <==> (|| (forall a, b :: LeastIn(srs, a) && LeastIn(srs, b) ==> a == b)
                  || (forall a :: LeastIn(srs, a) ==> !PassesRoomTest(a, capacity)))
  {
    if srs == [] {
      forall order | Reordered(srs, order) ensures order == [] { ReorderedMembers(srs, order); }
    } else {
      if forall order :: Reordered(srs, order) ==> MostSpace(order, capacity) == MostSpace(srs, capacity) {
        forall a, b | LeastIn(srs, a) && LeastIn(srs, b) && PassesRoomTest(a, capacity) ensures a == b {
          var first := ChosenInSomeOrder(srs, a);
          var second := ChosenInSomeOrder(srs, b);
          assert MostSpace(first, capacity) == MostSpace(second, capacity);
        }
      }
      ChoiceIsLeast(srs, srs);
      forall order | Reordered(srs, order) ensures LeastIn(srs, LeastUsed(order)) && order != [] {
        ChoiceIsLeast(srs, order);
      }
    }
  }

  // ---------- orders of a tag's listing ----------

  /** XO can always answer: some listing of the tag exists. */
  lemma {:induction false} SomeListing(dir: map<Uuid, Sr>, tag: string, rest: set<Uuid>) returns (listing: seq<Sr>)
    requires Directory(dir) && rest <= dir.Keys
    ensures forall sr :: sr in listing <==> sr.uuid in rest && dir[sr.uuid] == sr && tag in sr.tags
    ensures forall i, j :: 0 <= i < j < |listing| ==> listing[i] != listing[j]
    decreases rest
  {
    if u :| u in rest {
      var init := SomeListing(dir, tag, rest - {u});
      listing := if tag in dir[u].tags then init + [dir[u]] else init;
      assert forall sr :: sr in listing <==> sr in init || (tag in dir[u].tags && sr == dir[u]);
    } else {
      listing := [];
    }
  }

  /** A listing of the tag that begins with a given repository. */
  lemma ListingFrom(dir: map<Uuid, Sr>, tag: string, sr: Sr) returns (listing: seq<Sr>)
    requires Directory(dir) && sr.uuid in dir && dir[sr.uuid] == sr && tag in sr.tags
    ensures ListsTag(dir, tag, listing) && listing != [] && listing[0] == sr
  {
    var others := SomeListing(dir, tag, dir.Keys - {sr.uuid});
    listing := [sr] + others;
    assert forall x :: x in listing <==> x == sr || x in others;
    assert forall j :: 0 < j < |listing| ==> listing[j] == others[j - 1];
  }

  lemma {:induction false} FirstOnHost(srs: seq<Sr>, host: string)
    requires srs != [] && srs[0].host == host
    ensures OnHost(srs, host) != [] && OnHost(srs, host)[0] == srs[0]
  {
    if |srs| > 1 {
      FirstOnHost(srs[..|srs| - 1], host);
    } else {
      assert srs[..0] == [];
    }
  }

  /** No tagged repository on the host is used less. */
  ghost predicate LeastTagged(dir: map<Uuid, Sr>, tag: string, host: string, sr: Sr) {
    IsTaggedOn(dir, tag, host, sr) && forall x :: IsTaggedOn(dir, tag, host, x) ==> sr.usage <= x.usage
  }

  ghost predicate IsTaggedOn(dir: map<Uuid, Sr>, tag: string, host: string, sr: Sr) {
    sr.uuid in dir && dir[sr.uuid] == sr && tag in sr.tags && sr.host == host
  }

  lemma ListedOnHost(dir: map<Uuid, Sr>, tag: string, host: string, listing: seq<Sr>)
    requires ListsTag(dir, tag, listing)
    ensures forall x :: x in OnHost(listing, host) <==> IsTaggedOn(dir, tag, host, x)
  {
    OnHostMembers(listing, host);
  }

  /** Some listing makes a given least used repository the choice on its host. */
  lemma ChosenInSomeListing(dir: map<Uuid, Sr>, tag: string, host: string, sr: Sr) returns (listing: seq<Sr>)
    requires Directory(dir) && LeastTagged(dir, tag, host, sr)
    ensures ListsTag(dir, tag, listing) && OnHost(listing, host) != [] && LeastUsed(OnHost(listing, host)) == sr
  {
    listing := ListingFrom(dir, tag, sr);
    FirstOnHost(listing, host);
    ListedOnHost(dir, tag, host, listing);
    FirstLeastUsed(OnHost(listing, host));
  }

  lemma ChoiceIsLeastTagged(dir: map<Uuid, Sr>, tag: string, host: string, listing: seq<Sr>)
    requires ListsTag(dir, tag, listing) && OnHost(listing, host) != []
    ensures LeastTagged(dir, tag, host, LeastUsed(OnHost(listing, host)))
  {
    ListedOnHost(dir, tag, host, listing);
    LeastUsedIsLeast(OnHost(listing, host));
  }

  // ---------- when a migration finds a target, and when that is where the disk is ----------

  /** What publishing on `vm` decides, given XO's answer to the tag query: the target of a migration. */
  function TargetFor(si: StorageInfo, vdi: Vdi, hostTopology: bool, dir: map<Uuid, Sr>, listing: seq<Sr>, vm: Vm)
    : Option<Sr>
  {
    var sel := Completed(SelectionFromStorageInfo(si, vdi, hostTopology), dir, listing);
    if sel.Ok? && sel.value.NeedsMigration(vm) == Ok(true) && sel.value.SrForHost(vm.host, vdi.size).Ok?
    then Some(sel.value.SrForHost(vm.host, vdi.size).value) else None
  }

  /** The record asks for a migration to this VM. */
  ghost predicate WantsToMove(si: StorageInfo, vdi: Vdi, dir: map<Uuid, Sr>, vm: Vm) {
    && si.migrating.Some? && si.srsWithTag.Some? && TagUsable(dir, si.srsWithTag.value)
    && vdi.sr in dir && !Reaches(dir[vdi.sr], vm)
  }

  lemma TargetMeans(si: StorageInfo, vdi: Vdi, hostTopology: bool, dir: map<Uuid, Sr>, listing: seq<Sr>, vm: Vm)
    requires Directory(dir) && si.srsWithTag.Some? && ListsTag(dir, si.srsWithTag.value, listing)
    ensures TargetFor(si, vdi, hostTopology, dir, listing, vm) ==
            if WantsToMove(si, vdi, dir, vm) && MostSpace(OnHost(listing, vm.host), vdi.size).Ok?
            then Some(MostSpace(OnHost(listing, vm.host), vdi.size).value) else None
  {
    var tag := si.srsWithTag.value;
    assert forall i :: 0 <= i < |listing| ==> listing[i] in listing;
    if TagUsable(dir, tag) {
      var x :| x in dir && tag in dir[x].tags;
      assert dir[x] in listing;
    }
    if listing != [] && SameSharing(listing) {
      assert listing[0] in listing;
      assert TagUsable(dir, tag);
    }
  }

  /** In every order of the listing a target is found: exactly when the disk wants to move, a tagged
      repository is on the VM's host, and every least used one there passes the room test. */
  lemma MovesInEveryOrderExactlyWhen(si: StorageInfo, vdi: Vdi, hostTopology: bool, dir: map<Uuid, Sr>, vm: Vm)
    requires Directory(dir) && si.srsWithTag.Some?
    ensures (forall listing :: ListsTag(dir, si.srsWithTag.value, listing) ==>
              TargetFor(si, vdi, hostTopology, dir, listing, vm).Some?)
            <==> WantsToMove(si, vdi, dir, vm) && EveryLeastHasRoom(dir, si.srsWithTag.value, vm.host, vdi.size)
  {
    var tag := si.srsWithTag.value;
    var some := SomeListing(dir, tag, dir.Keys);
    assert ListsTag(dir, tag, some);
    if forall listing :: ListsTag(dir, tag, listing) ==> TargetFor(si, vdi, hostTopology, dir, listing, vm).Some? {
      TargetMeans(si, vdi, hostTopology, dir, some, vm);
      ListedOnHost(dir, tag, vm.host, some);
      assert IsTaggedOn(dir, tag, vm.host, OnHost(some, vm.host)[0]);
      forall sr | LeastTagged(dir, tag, vm.host, sr) ensures PassesRoomTest(sr, vdi.size) {
        var listing := ChosenInSomeListing(dir, tag, vm.host, sr);
        TargetMeans(si, vdi, hostTopology, dir, listing, vm);
      }
    }
    if WantsToMove(si, vdi, dir, vm) && EveryLeastHasRoom(dir, tag, vm.host, vdi.size) {
      forall listing | ListsTag(dir, tag, listing) ensures TargetFor(si, vdi, hostTopology, dir, listing, vm).Some? {
        TargetMeans(si, vdi, hostTopology, dir, listing, vm);
        ListedOnHost(dir, tag, vm.host, listing);
        ChoiceIsLeastTagged(dir, tag, vm.host, listing);
      }
    }
  }

  /** The disk wants to move, and finds a target in every order. */
  ghost predicate Movable(dir: map<Uuid, Sr>, vdi: Vdi, info: StorageInfo, vm: Vm) {
    info.srsWithTag.Some? && WantsToMove(info, vdi, dir, vm)
      && EveryLeastHasRoom(dir, info.srsWithTag.value, vm.host, vdi.size)
  }

  lemma MovableFindsTarget(dir: map<Uuid, Sr>, vdi: Vdi, info: StorageInfo, vm: Vm, hostTopology: bool,
                           listing: seq<Sr>)
    requires Directory(dir) && Movable(dir, vdi, info, vm) && ListsTag(dir, info.srsWithTag.value, listing)
    ensures var sel := Completed(SelectionFromStorageInfo(info, vdi, hostTopology), dir, listing);
            sel.Ok? && sel.value.NeedsMigration(vm) == Ok(true) && sel.value.SrForHost(vm.host, vdi.size).Ok?
  {
    MovesInEveryOrderExactlyWhen(info, vdi, hostTopology, dir, vm);
    assert TargetFor(info, vdi, hostTopology, dir, listing, vm).Some?;
  }

  /** A least used tagged repository on the host, with room. */
  ghost predicate BestTarget(dir: map<Uuid, Sr>, tag: string, host: string, capacity: int, u: Uuid) {
    u in dir && LeastTagged(dir, tag, host, dir[u]) && PassesRoomTest(dir[u], capacity)
  }

  /** What the choice of a target says, whatever the order of the listing. */
  lemma PickedTarget(dir: map<Uuid, Sr>, vdi: Vdi, info: StorageInfo, on: Vm, hostTopology: bool, listing: seq<Sr>)
    requires Directory(dir) && info.srsWithTag.Some? && ListsTag(dir, info.srsWithTag.value, listing)
    requires Completed(SelectionFromStorageInfo(info, vdi, hostTopology), dir, listing).Ok?
    ensures var sel := Completed(SelectionFromStorageInfo(info, vdi, hostTopology), dir, listing).value;
            match sel.SrForHost(on.host, vdi.size)
            case Ok(target) => BestTarget(dir, info.srsWithTag.value, on.host, vdi.size, target.uuid)
            case Err(_) => !EveryLeastHasRoom(dir, info.srsWithTag.value, on.host, vdi.size)
  {
    ListedOnHost(dir, info.srsWithTag.value, on.host, listing);
    if OnHost(listing, on.host) != [] {
      ChoiceIsLeastTagged(dir, info.srsWithTag.value, on.host, listing);
    }
  }

  ghost predicate EveryLeastHasRoom(dir: map<Uuid, Sr>, tag: string, host: string, capacity: int) {
    && (exists sr :: IsTaggedOn(dir, tag, host, sr))
    && (forall sr :: LeastTagged(dir, tag, host, sr) ==> PassesRoomTest(sr, capacity))
  }

  /** In some order the driver picks the very SR the disk is on: exactly when the disk wants to move off
      a shared SR that bears the tag, sits on the VM's host in another pool, passes the room test, and
      is used no more than any tagged repository there. */
  lemma TargetCanBeSourceExactlyWhen(si: StorageInfo, vdi: Vdi, hostTopology: bool, dir: map<Uuid, Sr>, vm: Vm)
    requires Directory(dir) && si.srsWithTag.Some? && vdi.sr in dir
    ensures (exists listing ::
              ListsTag(dir, si.srsWithTag.value, listing)
              && TargetFor(si, vdi, hostTopology, dir, listing, vm) == Some(dir[vdi.sr]))
            <==> && si.migrating.Some? && TagUsable(dir, si.srsWithTag.value)
                 && dir[vdi.sr].shared && dir[vdi.sr].pool != vm.pool
                 && PassesRoomTest(dir[vdi.sr], vdi.size) && LeastTagged(dir, si.srsWithTag.value, vm.host, dir[vdi.sr])
  {
    var tag, source := si.srsWithTag.value, dir[vdi.sr];
    if listing :| ListsTag(dir, tag, listing) && TargetFor(si, vdi, hostTopology, dir, listing, vm) == Some(source) {
      TargetMeans(si, vdi, hostTopology, dir, listing, vm);
      ChoiceIsLeastTagged(dir, tag, vm.host, listing);
    }
    if WantsToMove(si, vdi, dir, vm) && PassesRoomTest(source, vdi.size) && LeastTagged(dir, tag, vm.host, source) {
      var listing := ChosenInSomeListing(dir, tag, vm.host, source);
      TargetMeans(si, vdi, hostTopology, dir, listing, vm);
    }
  }

  /** It does so in every order exactly when, besides, every other tagged repository there is used more. */
  lemma TargetIsSourceExactlyWhen(si: StorageInfo, vdi: Vdi, hostTopology: bool, dir: map<Uuid, Sr>, vm: Vm)
    requires Directory(dir) && si.srsWithTag.Some? && vdi.sr in dir
    ensures (forall listing :: ListsTag(dir, si.srsWithTag.value, listing) ==>
              TargetFor(si, vdi, hostTopology, dir, listing, vm) == Some(dir[vdi.sr]))
            <==> && si.migrating.Some? && TagUsable(dir, si.srsWithTag.value)
                 && dir[vdi.sr].shared && dir[vdi.sr].pool != vm.pool
                 && PassesRoomTest(dir[vdi.sr], vdi.size) && IsTaggedOn(dir, si.srsWithTag.value, vm.host, dir[vdi.sr])
                 && forall x :: IsTaggedOn(dir, si.srsWithTag.value, vm.host, x) && x != dir[vdi.sr] ==>
                      dir[vdi.sr].usage < x.usage
  {
    var tag, source := si.srsWithTag.value, dir[vdi.sr];
    if forall listing :: ListsTag(dir, tag, listing) ==>
         TargetFor(si, vdi, hostTopology, dir, listing, vm) == Some(source) {
      var some := SomeListing(dir, tag, dir.Keys);
      assert ListsTag(dir, tag, some);
      TargetMeans(si, vdi, hostTopology, dir, some, vm);
      ChoiceIsLeastTagged(dir, tag, vm.host, some);
      forall x | IsTaggedOn(dir, tag, vm.host, x) && x != source ensures source.usage < x.usage {
        if x.usage <= source.usage {
          var listing := ChosenInSomeListing(dir, tag, vm.host, x);
          TargetMeans(si, vdi, hostTopology, dir, listing, vm);
        }
      }
    }
    if WantsToMove(si, vdi, dir, vm) && PassesRoomTest(source, vdi.size) && IsTaggedOn(dir, tag, vm.host, source) {
      if forall x :: IsTaggedOn(dir, tag, vm.host, x) && x != source ==> source.usage < x.usage {
        forall listing | ListsTag(dir, tag, listing)
          ensures TargetFor(si, vdi, hostTopology, dir, listing, vm) == Some(source)
        {
          TargetMeans(si, vdi, hostTopology, dir, listing, vm);
          ListedOnHost(dir, tag, vm.host, listing);
          ChoiceIsLeastTagged(dir, tag, vm.host, listing);
        }
      }
    }
  }
}

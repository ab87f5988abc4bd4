/**
  One run of the migration protocol in full: a volume is migrated to the host of its VM while its
  deletion is under way, and the deletion misses the copy. It also shows that the protocol's
  states can be reached at all.
 */
module MigrationScenes {
  import opened Wrappers
  import opened DiskNames
  import opened Metadata
  import opened Xo
  import opened SrSelection
  import opened MigrationProtocol
  import opened MigrationSafety
  import opened MigrationRuns

  const SR_A := Sr("a", false, "p", "h1", 100, 0, {"t"})
  const SR_B := Sr("b", false, "p", "h2", 100, 0, {"t"})
  const VM := Vm("m", "p", "h2")
  const INFO := NewStorageInfoWithMigrating(Some("t"))
  const DISK := Vdi(Final("v"), Info(INFO), 10, "a")
  const MARKED := DISK.(desc := Info(INFO.StartMigration("b")))

  ghost function Scene(vdis: map<Uuid, Vdi>, used: set<Uuid>, tasks: map<string, Task>, calls: map<string, Pc>): State {
    State(vdis, used, map[], map["a" := SR_A, "b" := SR_B], map["m" := VM], map["h1" := "p", "h2" := "p"],
          map["v" := Volume(ByName, INFO)], tasks, calls)
  }

  lemma DiskAppears() returns (r: Running)
    ensures Last(r) == Scene(map["d" := DISK], {"d"}, map[], map[]).(volumes := map[])
  {
    var s := Scene(map[], {}, map[], map[]).(volumes := map[]);
    r := Run([s], []);
    r := Advance(r, ByWorld(OtherPut("d", DISK)));
  }

  lemma Provisioned() returns (r: Running)
    ensures Last(r) == Scene(map["d" := DISK], {"d"}, map[], map[])
  {
    r := DiskAppears();
    r := Advance(r, ByWorld(HandOut("v", "d", Volume(ByName, INFO))));
  }

  lemma Asked(r: Running) returns (r': Running)
    requires Last(r) == Scene(map["d" := DISK], {"d"}, map[], map[])
    ensures Last(r') == Scene(map["d" := DISK], {"d"}, map[], map["v" := PFind("m")])
  {
    r' := Advance(r, ByCall("v", Begin(PFind("m"))));
  }

  lemma Looked(r: Running) returns (r': Running)
    requires Last(r) == Scene(map["d" := DISK], {"d"}, map[], map["v" := PFind("m")])
    ensures Last(r') == Scene(map["d" := DISK], {"d"}, map[], map["v" := PGetVm("m", "d", DISK, INFO)])
  {
    r' := Advance(r, ByCall("v", Find(One("d"))));
  }

  lemma VmRead(r: Running) returns (r': Running)
    requires Last(r) == Scene(map["d" := DISK], {"d"}, map[], map["v" := PGetVm("m", "d", DISK, INFO)])
    ensures Last(r') == Scene(map["d" := DISK], {"d"}, map[], map["v" := PCheck(VM, "d", DISK, INFO)])
  {
    r' := Advance(r, ByCall("v", GetVm(true)));
  }

  lemma Checked(r: Running) returns (r': Running)
    requires Last(r) == Scene(map["d" := DISK], {"d"}, map[], map["v" := PCheck(VM, "d", DISK, INFO)])
    ensures Last(r') == Scene(map["d" := DISK], {"d"}, map[], map["v" := PSelect(VM, "d", DISK, INFO)])
  {
    r' := Advance(r, ByCall("v", Check(Ok(None))));
  }

  /** The only SR on the VM's host is picked. */
  lemma Target(sel: Selection)
    requires sel == SelectionFromStorageInfo(INFO, DISK, false).(srs := [SR_A, SR_B], sharedSr := false,
                                                                 currentSr := Some(SR_A))
    ensures sel.SrForHost("h2", 10) == Ok(SR_B) && sel.NeedsMigration(VM) == Ok(true)
  {
    assert [SR_A, SR_B][..1] == [SR_A] && [SR_A][..0] == [];
    assert SrPicking.OnHost([SR_A], "h2") == [];
    assert SrPicking.OnHost([SR_A, SR_B], "h2") == [SR_B];
  }

  lemma Completion(srs: map<Uuid, Sr>)
    requires srs == map["a" := SR_A, "b" := SR_B]
    ensures ListsTag(srs, "t", [SR_A, SR_B])
    ensures Completed(SelectionFromStorageInfo(INFO, DISK, false), srs, [SR_A, SR_B])
            == Ok(SelectionFromStorageInfo(INFO, DISK, false).(srs := [SR_A, SR_B], sharedSr := false,
                                                               currentSr := Some(SR_A)))
  {
  }

  lemma Placed(r: Running) returns (r': Running)
    requires Last(r) == Scene(map["d" := DISK], {"d"}, map[], map["v" := PSelect(VM, "d", DISK, INFO)])
    ensures Last(r') == Scene(map["d" := DISK], {"d"}, map[], map["v" := PCheckVbds(VM, "d", INFO, "b")])
  {
    var listing := [SR_A, SR_B];
    var sel := SelectionFromStorageInfo(INFO, DISK, false).(srs := listing, sharedSr := false, currentSr := Some(SR_A));
    Completion(Last(r).srs);
    Target(sel);
    r' := Advance(r, ByCall("v", Select(Some(listing), false)));
  }

  lemma Detached(r: Running) returns (r': Running)
    requires Last(r) == Scene(map["d" := DISK], {"d"}, map[], map["v" := PCheckVbds(VM, "d", INFO, "b")])
    ensures Last(r') == Scene(map["d" := DISK], {"d"}, map[], map["v" := PMark(VM, "d", INFO, "b")])
  {
    r' := Advance(r, ByCall("v", CheckVbds(true)));
  }

  lemma Marked(r: Running) returns (r': Running)
    requires Last(r) == Scene(map["d" := DISK], {"d"}, map[], map["v" := PMark(VM, "d", INFO, "b")])
    ensures Last(r') == Scene(map["d" := MARKED], {"d"}, map[], map["v" := PIssue(VM, "d", INFO, "b")])
  {
    r' := Advance(r, ByCall("v", Mark(Done)));
  }

  /** The driver sends its request and gives up waiting. */
  lemma Issued(r: Running) returns (r': Running)
    requires Last(r) == Scene(map["d" := MARKED], {"d"}, map[], map["v" := PIssue(VM, "d", INFO, "b")])
    ensures Last(r') == Scene(map["d" := MARKED], {"d"}, map["v" := Task("d", "b", Queued)], map[])
  {
    r' := Advance(r, ByCall("v", Issue(true)));
    r' := Advance(r', ByCall("v", Quit));
  }

  lemma DeletionAsked(r: Running) returns (r': Running)
    requires Last(r) == Scene(map["d" := MARKED], {"d"}, map["v" := Task("d", "b", Queued)], map[])
    ensures Last(r') == Scene(map["d" := MARKED], {"d"}, map["v" := Task("d", "b", Queued)], map["v" := DFind])
  {
    r' := Advance(r, ByCall("v", Begin(DFind)));
  }

  lemma Deleting(r: Running) returns (r': Running)
    requires Last(r) == Scene(map["d" := MARKED], {"d"}, map["v" := Task("d", "b", Queued)], map["v" := DFind])
    ensures Last(r') == Scene(map["d" := MARKED], {"d"}, map["v" := Task("d", "b", Queued)], map["v" := DDelete("d")])
  {
    r' := Advance(r, ByCall("v", Find(One("d"))));
  }

  lemma Copying(r: Running) returns (r': Running)
    requires Last(r) == Scene(map["d" := MARKED], {"d"}, map["v" := Task("d", "b", Queued)], map["v" := DDelete("d")])
    ensures Last(r') == Scene(map["d" := MARKED, "e" := MARKED.(sr := "b")], {"d", "e"},
                              map["v" := Task("d", "b", Copied("e"))], map["v" := DDelete("d")])
  {
    r' := Advance(r, ByXo("v", Starts));
    r' := Advance(r', ByXo("v", Copies("e")));
  }

  lemma Moved(r: Running) returns (r': Running)
    requires Last(r) == Scene(map["d" := MARKED, "e" := MARKED.(sr := "b")], {"d", "e"},
                              map["v" := Task("d", "b", Copied("e"))], map["v" := DDelete("d")])
    ensures Last(r') == Scene(map["e" := MARKED.(sr := "b")], {"d", "e"}, map[], map["v" := DDelete("d")])
  {
    r' := Advance(r, ByXo("v", Finishes(false)));
  }

  lemma AllButTheDeletion() returns (r: Running)
    ensures Last(r) == Scene(map["e" := MARKED.(sr := "b")], {"d", "e"}, map[], map["v" := DDelete("d")])
  {
    r := Provisioned();
    r := Asked(r);
    r := Looked(r);
    r := VmRead(r);
    r := Checked(r);
    r := Placed(r);
    r := Detached(r);
    r := Marked(r);
    r := Issued(r);
    r := DeletionAsked(r);
    r := Deleting(r);
    r := Copying(r);
    r := Moved(r);
  }

  /** DeleteVolume finds "no such object", which it reports as success, and the copy stays. */
  lemma DeletionCanMissTheCopy() returns (r: Running)
    ensures |r.actions| > 0 && r.actions[|r.actions| - 1] == ByCall("v", Delete(Refused))
    ensures var s := r.states[|r.actions| - 1];
            "v" in s.calls && s.calls["v"].DDelete? && s.calls["v"].u !in s.vdis
    ensures OnlyDisk(Last(r), "v", "e") && "v" !in Last(r).calls
  {
    r := AllButTheDeletion();
    r := Advance(r, ByCall("v", Delete(Refused)));
  }
}

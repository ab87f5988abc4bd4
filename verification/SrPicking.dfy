/**
  Choosing a storage repository (pkg/csi/sr_selection.go:266-354): the loops as written, the
  functions they compute, and what the choice is worth.
 */
module SrPicking {
  import opened Wrappers
  import opened Xo

  // ---------- int64 arithmetic ----------

  const MAX_INT64 := 0x7FFF_FFFF_FFFF_FFFF
  const TWO_64 := 0x1_0000_0000_0000_0000

  /** Go's addition of two int64 values. */
  function Add64(a: int, b: int): int {
    var s := (a + b) % TWO_64;
    if s > MAX_INT64 then s - TWO_64 else s
  }

  // ---------- pickSRWithMostSpace ----------

  datatype PickError = NoSrFound | NoSpace

  /** The room test as the driver computes it. */
  predicate PassesRoomTest(sr: Sr, capacity: int) {
    Add64(sr.usage, capacity) <= sr.size
  }

  /** What the room test is meant to decide. */
  predicate Fits(sr: Sr, capacity: int) {
    sr.usage + capacity <= sr.size
  }

  predicate WellSized(sr: Sr) {
    0 <= sr.usage <= MAX_INT64 && 0 <= sr.size <= MAX_INT64
  }

  /** On non-negative int64 values, the test is exact except when the sum overflows; then it
      always passes. */
  lemma RoomTestIsExactUpToOverflow(sr: Sr, capacity: int)
    requires WellSized(sr) && 0 <= capacity <= MAX_INT64
    ensures PassesRoomTest(sr, capacity) <==> Fits(sr, capacity) || sr.usage + capacity > MAX_INT64
  {
    if sr.usage + capacity > MAX_INT64 {
      assert Add64(sr.usage, capacity) == sr.usage + capacity - TWO_64;
    } else {
      assert Add64(sr.usage, capacity) == sr.usage + capacity;
    }
  }

  /** The first of the least used repositories. */
  function LeastUsed(srs: seq<Sr>): Sr
    requires srs != []
  {
    if |srs| == 1 then srs[0]
    else
      var best := LeastUsed(srs[..|srs| - 1]);
      if srs[|srs| - 1].usage < best.usage then srs[|srs| - 1] else best
  }

  function MostSpace(srs: seq<Sr>, capacity: int): Result<Sr, PickError> {
    if srs == [] then Err(NoSrFound)
    else if PassesRoomTest(LeastUsed(srs), capacity) then Ok(LeastUsed(srs))
    else Err(NoSpace)
  }

  method PickSrWithMostSpace(srs: seq<Sr>, capacity: int) returns (r: Result<Sr, PickError>)
    ensures r == MostSpace(srs, capacity)
    ensures r.Ok? ==> r.value in srs && PassesRoomTest(r.value, capacity) && forall sr :: sr in srs ==>
              r.value.usage <= sr.usage
  {
    if |srs| == 0 {
      return Err(NoSrFound);
    }
    var best := srs[0];
    for i := 0 to |srs|
      invariant i == 0 ==> best == srs[0]
      invariant i > 0 ==> best == LeastUsed(srs[..i])
      invariant best in srs
      invariant forall k :: 0 <= k < i ==> best.usage <= srs[k].usage
    {
      if i > 0 {
        assert srs[..i + 1][..i] == srs[..i];
      }
      if srs[i].usage < best.usage {
        best := srs[i];
      }
    }
    assert srs[..|srs|] == srs;
    if Add64(best.usage, capacity) > best.size {
      return Err(NoSpace);
    }
    return Ok(best);
  }

  lemma {:induction false} LeastUsedIsLeast(srs: seq<Sr>)
    requires srs != []
    ensures LeastUsed(srs) in srs
    ensures forall sr :: sr in srs ==> LeastUsed(srs).usage <= sr.usage
  {
    if |srs| > 1 {
      var init := srs[..|srs| - 1];
      LeastUsedIsLeast(init);
      assert forall sr :: sr in srs ==> sr in init || sr == srs[|srs| - 1];
    }
  }

  // ---------- filters ----------

  type Topology = map<string, string>

  datatype Scope = Host | Pool | Global

  function Segment(t: Topology, key: string): string {
    if key in t then t[key] else ""
  }

  /** A topology segment constrains only when it is set. */
  predicate Agrees(segment: string, value: string) {
    segment == "" || segment == value
  }

  predicate Matches(t: Topology, sr: Sr, scope: Scope) {
    && (scope == Host ==> Agrees(Segment(t, "host"), sr.host))
    && (scope != Global ==> Agrees(Segment(t, "pool"), sr.pool))
  }

  /** What a topology says about one key: nothing, an empty value, or this very one. */
  predicate Admits(t: Topology, key: string, value: string) {
    key !in t || t[key] == "" || t[key] == value
  }

  /** Which repositories a topology permits: under host scope host and pool count, under pool
      scope the pool alone, under global scope nothing. */
  predicate Permits(t: Topology, sr: Sr, scope: Scope) {
    match scope
    case Host => Admits(t, "host", sr.host) && Admits(t, "pool", sr.pool)
    case Pool => Admits(t, "pool", sr.pool)
    case Global => true
  }

  predicate PermittedBySome(topologies: seq<Topology>, sr: Sr, scope: Scope) {
    exists k :: 0 <= k < |topologies| && Permits(topologies[k], sr, scope)
  }

  /** The driver's test is that. */
  lemma MatchesExactlyWhen(t: Topology, sr: Sr, scope: Scope)
    ensures Matches(t, sr, scope) <==> Permits(t, sr, scope)
  {
  }

  function Matching(srs: seq<Sr>, t: Topology, scope: Scope): seq<Sr> {
    if srs == [] then []
    else
      var init := Matching(srs[..|srs| - 1], t, scope);
      if Matches(t, srs[|srs| - 1], scope) then init + [srs[|srs| - 1]] else init
  }

  function MatchingAny(srs: seq<Sr>, topologies: seq<Topology>, scope: Scope): seq<Sr> {
    if topologies == [] then []
    else MatchingAny(srs, topologies[..|topologies| - 1], scope) + Matching(srs, topologies[|topologies| - 1], scope)
  }

  method FilterSrsByTopology(srs: seq<Sr>, topologies: seq<Topology>, scope: Scope) returns (filtered: seq<Sr>)
    ensures filtered == MatchingAny(srs, topologies, scope)
    ensures forall sr :: sr in filtered <==> sr in srs && PermittedBySome(topologies, sr, scope)
  {
    filtered := [];
    for i := 0 to |topologies|
      invariant filtered == MatchingAny(srs, topologies[..i], scope)
    {
      ghost var before := filtered;
      var t := topologies[i];
      for j := 0 to |srs|
        invariant filtered == before + Matching(srs[..j], t, scope)
      {
        assert srs[..j + 1][..j] == srs[..j];
        if scope == Host && Segment(t, "host") != "" && srs[j].host != Segment(t, "host") {
          continue;
        }
        if scope != Global && Segment(t, "pool") != "" && srs[j].pool != Segment(t, "pool") {
          continue;
        }
        filtered := filtered + [srs[j]];
      }
      assert srs[..|srs|] == srs;
      assert topologies[..i + 1][..i] == topologies[..i];
    }
    assert topologies[..|topologies|] == topologies;
    FilterMembers(srs, topologies, scope);
  }

  function OnHost(srs: seq<Sr>, host: string): seq<Sr> {
    if srs == [] then []
    else
      var init := OnHost(srs[..|srs| - 1], host);
      if srs[|srs| - 1].host == host then init + [srs[|srs| - 1]] else init
  }

  method FilterSrsForHost(srs: seq<Sr>, host: string) returns (filtered: seq<Sr>)
    ensures filtered == OnHost(srs, host)
  {
    filtered := [];
    for i := 0 to |srs|
      invariant filtered == OnHost(srs[..i], host)
    {
      assert srs[..i + 1][..i] == srs[..i];
      if srs[i].host == host {
        filtered := filtered + [srs[i]];
      }
    }
    assert srs[..|srs|] == srs;
  }

  lemma {:induction false} OnHostMembers(srs: seq<Sr>, host: string)
    ensures forall sr :: sr in OnHost(srs, host) <==> sr in srs && sr.host == host
  {
    if srs != [] {
      OnHostMembers(srs[..|srs| - 1], host);
      assert srs == srs[..|srs| - 1] + [srs[|srs| - 1]];
    }
  }

  /** How many of the listed topologies permit a repository. */
  function MatchCount(topologies: seq<Topology>, sr: Sr, scope: Scope): nat {
    if topologies == [] then 0
    else
      var last := if Permits(topologies[|topologies| - 1], sr, scope) then 1 else 0;
      MatchCount(topologies[..|topologies| - 1], sr, scope) + last
  }

  lemma {:induction false} MatchingCounts(srs: seq<Sr>, t: Topology, scope: Scope, sr: Sr)
    ensures multiset(Matching(srs, t, scope))[sr] == if Permits(t, sr, scope) then multiset(srs)[sr] else 0
  {
    if srs != [] {
      var init, last := srs[..|srs| - 1], srs[|srs| - 1];
      MatchingCounts(init, t, scope, sr);
      MatchesExactlyWhen(t, last, scope);
      assert multiset(srs) == multiset(init) + multiset{last} by { assert srs == init + [last]; }
    }
  }

  lemma Distribute(n: nat, k: nat)
    ensures n * (k + 1) == n * k + n
    ensures n * k > 0 <==> n > 0 && k > 0
  {
  }

  /** The filter keeps each input occurrence of a repository once per topology that permits it. */
  lemma {:induction false} FilterMultiplicity(srs: seq<Sr>, topologies: seq<Topology>, scope: Scope, sr: Sr)
    ensures multiset(MatchingAny(srs, topologies, scope))[sr] == multiset(srs)[sr] * MatchCount(topologies, sr, scope)
  {
    if topologies != [] {
      var last := topologies[|topologies| - 1];
      FilterMultiplicity(srs, topologies[..|topologies| - 1], scope, sr);
      MatchingCounts(srs, last, scope, sr);
      Distribute(multiset(srs)[sr], MatchCount(topologies[..|topologies| - 1], sr, scope));
    }
  }

  lemma {:induction false} MatchCountIsPositive(topologies: seq<Topology>, sr: Sr, scope: Scope)
    ensures MatchCount(topologies, sr, scope) > 0 <==> PermittedBySome(topologies, sr, scope)
  {
    if topologies != [] {
      var init := topologies[..|topologies| - 1];
      MatchCountIsPositive(init, sr, scope);
      if PermittedBySome(init, sr, scope) {
        var k :| 0 <= k < |init| && Permits(init[k], sr, scope);
        assert Permits(topologies[k], sr, scope);
      }
    }
  }

  lemma FilterMembers(srs: seq<Sr>, topologies: seq<Topology>, scope: Scope)
    ensures forall sr :: sr in MatchingAny(srs, topologies, scope) <==>
              sr in srs && PermittedBySome(topologies, sr, scope)
  {
    forall sr
      ensures sr in MatchingAny(srs, topologies, scope) <==> sr in srs && PermittedBySome(topologies, sr, scope)
    {
      FilterMultiplicity(srs, topologies, scope, sr);
      MatchCountIsPositive(topologies, sr, scope);
      Distribute(multiset(srs)[sr], MatchCount(topologies, sr, scope));
      assert sr in MatchingAny(srs, topologies, scope) <==> sr in multiset(MatchingAny(srs, topologies, scope));
      assert sr in srs <==> sr in multiset(srs);
    }
  }

  /** The list without repetitions, first occurrences kept. */
  function WithoutRepeats(srs: seq<Sr>): seq<Sr> {
    if srs == [] then []
    else
      var init := srs[..|srs| - 1];
      if srs[|srs| - 1] in init then WithoutRepeats(init) else WithoutRepeats(init) + [srs[|srs| - 1]]
  }

  /** The repetitions the filter produces never change the choice. */
  lemma {:induction false} RepetitionIsHarmless(srs: seq<Sr>, capacity: int)
    ensures MostSpace(WithoutRepeats(srs), capacity) == MostSpace(srs, capacity)
    ensures srs != [] ==> WithoutRepeats(srs) != [] && LeastUsed(WithoutRepeats(srs)) == LeastUsed(srs)
  {
    if srs != [] {
      var init, last := srs[..|srs| - 1], srs[|srs| - 1];
      RepetitionIsHarmless(init, capacity);
      if last in init {
        LeastUsedIsLeast(init);
      } else {
        assert (WithoutRepeats(init) + [last])[..|WithoutRepeats(init)|] == WithoutRepeats(init);
      }
    }
  }

  /** The order of the list does matter: it comes from iterating a Go map, and of two equally
      used repositories only the first is tried. */
  lemma TiesMakeOrderMatter() returns (small: Sr, large: Sr, capacity: int)
    ensures small.usage == large.usage && WellSized(small) && WellSized(large)
    ensures MostSpace([large, small], capacity) == Ok(large)
    ensures MostSpace([small, large], capacity) == Err(NoSpace)
  {
    small, large, capacity := Sr("a", false, "p", "h", 10, 0, {}), Sr("b", false, "p", "h", 100, 0, {}), 50;
    assert [large, small][..1] == [large] && [small, large][..1] == [small];
    assert LeastUsed([large]) == large && LeastUsed([small]) == small;
  }

  // ---------- pickSR ----------

  datatype Requirement = Requirement(requisite: seq<Topology>, preferred: seq<Topology>)

  function Picked(srs: seq<Sr>, capacity: int, req: Option<Requirement>, scope: Scope): Result<Sr, PickError> {
    if req.None? then MostSpace(srs, capacity)
    else
      var preferred := MostSpace(MatchingAny(srs, req.value.preferred, scope), capacity);
      if req.value.preferred != [] && preferred.Ok? then preferred
      else if req.value.requisite == [] then MostSpace(srs, capacity)
      else MostSpace(MatchingAny(srs, req.value.requisite, scope), capacity)
  }

  method PickSr(srs: seq<Sr>, capacity: int, req: Option<Requirement>, scope: Scope) returns (r: Result<Sr, PickError>)
    ensures r == Picked(srs, capacity, req, scope)
  {
    if req.None? {
      r := PickSrWithMostSpace(srs, capacity);
      return;
    }
    if |req.value.preferred| > 0 {
      var filtered := FilterSrsByTopology(srs, req.value.preferred, scope);
      r := PickSrWithMostSpace(filtered, capacity);
      if r.Ok? {
        return;
      }
    }
    if |req.value.requisite| == 0 {
      r := PickSrWithMostSpace(srs, capacity);
      return;
    }
    var filtered := FilterSrsByTopology(srs, req.value.requisite, scope);
    r := PickSrWithMostSpace(filtered, capacity);
  }

  /** The repositories the preference allows. */
  predicate IsPreferred(srs: seq<Sr>, req: Option<Requirement>, scope: Scope, sr: Sr) {
    sr in srs && req.Some? && PermittedBySome(req.value.preferred, sr, scope)
  }

  /** The repositories the requirement allows. */
  predicate IsEligible(srs: seq<Sr>, req: Option<Requirement>, scope: Scope, sr: Sr) {
    sr in srs && (req.Some? && req.value.requisite != [] ==> PermittedBySome(req.value.requisite, sr, scope))
  }

  /** `sr` is a least used one of its tier and passes the room test. */
  ghost predicate IsBest(tier: Sr -> bool, sr: Sr, capacity: int) {
    tier(sr) && PassesRoomTest(sr, capacity) && forall x :: tier(x) ==> sr.usage <= x.usage
  }

  /** A tier is given up when it is empty or a least used one of it fails the room test. */
  ghost predicate IsEmpty(tier: Sr -> bool) {
    forall x :: !tier(x)
  }

  ghost predicate IsFull(tier: Sr -> bool, capacity: int) {
    exists x :: tier(x) && !PassesRoomTest(x, capacity) && forall y :: tier(y) ==> x.usage <= y.usage
  }

  lemma MostSpaceOfTier(list: seq<Sr>, capacity: int, tier: Sr -> bool)
    requires forall sr :: sr in list <==> tier(sr)
    ensures match MostSpace(list, capacity)
            case Ok(sr) => IsBest(tier, sr, capacity)
            case Err(NoSrFound) => IsEmpty(tier)
            case Err(NoSpace) => IsFull(tier, capacity)
  {
    if list != [] {
      LeastUsedIsLeast(list);
      assert tier(LeastUsed(list));
    }
  }

  ghost function PreferredTier(srs: seq<Sr>, req: Option<Requirement>, scope: Scope): Sr -> bool {
    (sr: Sr) => IsPreferred(srs, req, scope, sr)
  }

  ghost function EligibleTier(srs: seq<Sr>, req: Option<Requirement>, scope: Scope): Sr -> bool {
    (sr: Sr) => IsEligible(srs, req, scope, sr)
  }

  /** What a choice, or a failure to choose, tells the caller: a preferred repository is taken
      unless the preferred tier is given up, and then the eligible tier decides. */
  lemma PickMeetsSpecification(srs: seq<Sr>, capacity: int, req: Option<Requirement>, scope: Scope)
    ensures var preferred, eligible := PreferredTier(srs, req, scope), EligibleTier(srs, req, scope);
            var givenUp := IsEmpty(preferred) || IsFull(preferred, capacity);
            match Picked(srs, capacity, req, scope)
            case Ok(sr) => IsBest(preferred, sr, capacity) || (givenUp && IsBest(eligible, sr, capacity))
            case Err(NoSrFound) => givenUp && IsEmpty(eligible)
            case Err(NoSpace) => givenUp && IsFull(eligible, capacity)
  {
    var preferred, eligible := PreferredTier(srs, req, scope), EligibleTier(srs, req, scope);
    if req.Some? {
      FilterMembers(srs, req.value.preferred, scope);
      MostSpaceOfTier(MatchingAny(srs, req.value.preferred, scope), capacity, preferred);
    }
    if req.Some? && req.value.requisite != [] {
      FilterMembers(srs, req.value.requisite, scope);
      MostSpaceOfTier(MatchingAny(srs, req.value.requisite, scope), capacity, eligible);
    } else {
      MostSpaceOfTier(srs, capacity, eligible);
    }
  }

  /** What section "CreateVolume" of the CSI specification promises about a requirement. */
  predicate PreferredWithinRequisite(req: Requirement) {
    req.requisite != [] && forall t :: t in req.preferred ==> t in req.requisite
  }

  lemma PickHonoursRequisite(srs: seq<Sr>, capacity: int, req: Requirement, scope: Scope)
    requires PreferredWithinRequisite(req)
    requires Picked(srs, capacity, Some(req), scope).Ok?
    ensures var sr := Picked(srs, capacity, Some(req), scope).value;
            sr in srs && PermittedBySome(req.requisite, sr, scope)
  {
    PickMeetsSpecification(srs, capacity, Some(req), scope);
    var sr := Picked(srs, capacity, Some(req), scope).value;
    if PermittedBySome(req.preferred, sr, scope) {
      var k :| 0 <= k < |req.preferred| && Permits(req.preferred[k], sr, scope);
      assert req.preferred[k] in req.requisite;
      var i :| 0 <= i < |req.requisite| && req.requisite[i] == req.preferred[k];
      assert Permits(req.requisite[i], sr, scope);
    }
  }

  // ---------- completeness ----------

  /** No sum in the room test can overflow. */
  predicate NoOverflow(srs: seq<Sr>, capacity: int) {
    0 <= capacity && forall sr :: sr in srs ==> WellSized(sr) && sr.usage + capacity <= MAX_INT64
  }

  predicate EqualSizes(srs: seq<Sr>) {
    forall a, b :: a in srs && b in srs ==> a.size == b.size
  }

  lemma FullTierFitsNothing(srs: seq<Sr>, tier: Sr -> bool, capacity: int)
    requires NoOverflow(srs, capacity) && EqualSizes(srs)
    requires forall x :: tier(x) ==> x in srs
    requires IsFull(tier, capacity)
    ensures forall y :: tier(y) ==> !Fits(y, capacity)
  {
    var x :| tier(x) && !PassesRoomTest(x, capacity) && forall y :: tier(y) ==> x.usage <= y.usage;
    RoomTestIsExactUpToOverflow(x, capacity);
  }

  /** A tier that is given up holds nothing that fits. */
  lemma TiersFitNothing(srs: seq<Sr>, capacity: int, req: Option<Requirement>, scope: Scope)
    requires NoOverflow(srs, capacity) && EqualSizes(srs)
    ensures var tier := PreferredTier(srs, req, scope);
            IsEmpty(tier) || IsFull(tier, capacity) ==> forall x :: IsPreferred(srs, req, scope, x) ==>
              !Fits(x, capacity)
    ensures var tier := EligibleTier(srs, req, scope);
            IsEmpty(tier) || IsFull(tier, capacity) ==> forall x :: IsEligible(srs, req, scope, x) ==>
              !Fits(x, capacity)
  {
    var preferred, eligible := PreferredTier(srs, req, scope), EligibleTier(srs, req, scope);
    assert forall x :: IsPreferred(srs, req, scope, x) <==> preferred(x);
    assert forall x :: IsEligible(srs, req, scope, x) <==> eligible(x);
    if IsFull(preferred, capacity) {
      FullTierFitsNothing(srs, preferred, capacity);
    }
    if IsFull(eligible, capacity) {
      FullTierFitsNothing(srs, eligible, capacity);
    }
  }

  /** With equal sizes, least usage is most space: the choice fails only when nothing eligible or
      preferred fits, and it is a preferred one whenever a preferred one fits. */
  lemma PickIsCompleteForEqualSizes(srs: seq<Sr>, capacity: int, req: Option<Requirement>, scope: Scope)
    requires NoOverflow(srs, capacity) && EqualSizes(srs)
    ensures Picked(srs, capacity, req, scope).Err? <==>
            forall x :: IsPreferred(srs, req, scope, x) || IsEligible(srs, req, scope, x) ==> !Fits(x, capacity)
    ensures Picked(srs, capacity, req, scope).Ok? ==> Fits(Picked(srs, capacity, req, scope).value, capacity)
    ensures (exists x :: IsPreferred(srs, req, scope, x) && Fits(x, capacity)) ==>
            Picked(srs, capacity, req, scope).Ok?
              && IsPreferred(srs, req, scope, Picked(srs, capacity, req, scope).value)
  {
    PickMeetsSpecification(srs, capacity, req, scope);
    if Picked(srs, capacity, req, scope).Ok? {
      RoomTestIsExactUpToOverflow(Picked(srs, capacity, req, scope).value, capacity);
    }
    TiersFitNothing(srs, capacity, req, scope);
  }

  /** With different sizes the choice can fail although a repository fits: it looks at usage, not
      at free space, and never tries a second one. */
  lemma PickMissesFreeSpace() returns (srs: seq<Sr>, capacity: int)
    ensures NoOverflow(srs, capacity) && exists sr :: sr in srs && Fits(sr, capacity)
    ensures Picked(srs, capacity, None, Pool) == Err(NoSpace)
  {
    var small, large := Sr("a", true, "p", "", 10, 0, {}), Sr("b", true, "p", "", 1000, 5, {});
    srs, capacity := [small, large], 50;
    assert srs[..1] == [small] && LeastUsed([small]) == small;
    assert large in srs && Fits(large, capacity);
  }

  /** For every list: a fitting repository is missed exactly when the least used one lacks room. */
  lemma MissesExactlyWhenLeastUsedIsFull(srs: seq<Sr>, capacity: int)
    requires NoOverflow(srs, capacity)
    ensures (MostSpace(srs, capacity).Ok? <==> exists sr :: sr in srs && Fits(sr, capacity)) <==>
            (srs == [] || Fits(LeastUsed(srs), capacity) || forall sr :: sr in srs ==> !Fits(sr, capacity))
  {
    if srs != [] {
      LeastUsedIsLeast(srs);
      RoomTestIsExactUpToOverflow(LeastUsed(srs), capacity);
    }
  }

  /** An overflowing sum passes the room test: the driver then picks a repository the disk cannot
      fit in. */
  lemma OverflowPicksFullSr() returns (sr: Sr, capacity: int)
    ensures WellSized(sr) && 0 <= capacity <= MAX_INT64
    ensures MostSpace([sr], capacity) == Ok(sr) && !Fits(sr, capacity)
  {
    sr, capacity := Sr("a", false, "p", "h", 100, 1, {}), MAX_INT64;
  }
}

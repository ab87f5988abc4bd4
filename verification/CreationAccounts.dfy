/** Counting disks: what repeating CreateVolume can leave behind, in every reachable state. */
module CreationAccounts {
  import opened Wrappers
  import opened DiskNames
  import opened Metadata
  import opened Xo
  import opened CreationProtocol
  import opened CreationSafety
  import opened CreationRuns

  // ---------- what is counted ----------

  /** Requests that made a disk for volume `v`. */
  ghost function Fulfilled(s: State, v: string): set<nat> {
    set id | id in s.orders && s.orders[id].volume == v && s.orders[id].result.Some?
  }

  /** Requests for `v` the server still works on. */
  ghost function Pending(s: State, v: string): set<nat> {
    set id | id in s.orders && s.orders[id].volume == v && s.orders[id].result.None?
  }

  ghost function Made(s: State, v: string): set<Uuid> {
    set id | id in Fulfilled(s, v) :: s.orders[id].result.value
  }

  ghost function MadeAndFinal(s: State, v: string): set<Uuid> {
    set u | u in Made(s, v) && u in s.vdis && s.vdis[u].name == Final(v)
  }

  ghost function MadeAndTemporary(s: State, v: string): set<Uuid> {
    set u | u in Made(s, v) && u in s.vdis && s.vdis[u].name == Temporary(v)
  }

  ghost function MadeAndGone(s: State, v: string): set<Uuid> {
    set u | u in Made(s, v) && u !in s.vdis
  }

  /** CreateVolume calls for `v` that ended without success. */
  ghost function FailedCalls(s: State, v: string): set<nat> {
    set id | id in s.failed && id in s.volumes && s.volumes[id] == v
  }

  // ---------- cardinalities ----------

  lemma {:induction false} ImageSize(ids: set<nat>, s: State)
    requires forall id :: id in ids ==> id in s.orders && s.orders[id].result.Some?
    requires OrderInv(s)
    ensures |set id | id in ids :: s.orders[id].result.value| == |ids|
  {
    if ids != {} {
      var x :| x in ids;
      var rest := ids - {x};
      ImageSize(rest, s);
      var image, image' := (set id | id in ids :: s.orders[id].result.value),
            (set id | id in rest :: s.orders[id].result.value);
      assert image == image' + {s.orders[x].result.value};
      assert s.orders[x].result.value !in image';
    }
  }

  /** No volume ever has two finished disks, unless it may be migrating. */
  lemma AtMostOneFinished(r: Run, j: nat, v: string)
    requires IsRun(r) && j < |r.states| && v !in r.states[j].migratory
    ensures |Named(r.states[j].vdis, Final(v))| <= 1
  {
    InvAlways(r, j);
    var named := Named(r.states[j].vdis, Final(v));
    if named != {} {
      var u :| u in named;
      assert named == {u};
    }
  }

  /** Disks made for a volume are its finished ones, its temporary ones and the deleted ones; and
      every request makes at most one. */
  lemma Conservation(r: Run, j: nat, v: string)
    requires IsRun(r) && j < |r.states|
    ensures var s := r.states[j];
            && |Made(s, v)| == |MadeAndFinal(s, v)| + |MadeAndTemporary(s, v)| + |MadeAndGone(s, v)|
            && |Made(s, v)| == |Fulfilled(s, v)|
  {
    InvAlways(r, j);
    var s := r.states[j];
    ImageSize(Fulfilled(s, v), s);
    var f, t, g := MadeAndFinal(s, v), MadeAndTemporary(s, v), MadeAndGone(s, v);
    assert Made(s, v) == f + t + g;
    assert f !! t && (f + t) !! g;
  }

  /** Requests whose disk still has its temporary name. */
  ghost function UnnamedRequests(s: State, v: string): set<nat> {
    set id | id in Fulfilled(s, v) && s.orders[id].result.value in MadeAndTemporary(s, v)
  }

  /** The call in flight has sent a request and has not named the disk yet. */
  ghost predicate Creating(s: State, v: string) {
    v in s.calls && s.calls[v].id in s.orders && (s.calls[v].pc.AtReply? || s.calls[v].pc.AtRename?)
  }

  ghost function CreatingCall(s: State, v: string): set<nat> {
    if Creating(s, v) then {s.calls[v].id} else {}
  }

  lemma UnnamedRequestIsOwed(s: State, v: string, id: nat)
    requires Inv(s) && id in UnnamedRequests(s, v) + Pending(s, v)
    ensures id in FailedCalls(s, v) + CreatingCall(s, v)
  {
    assert Leftover(s, id);
  }

  lemma OwedSet(s: State, v: string)
    requires Inv(s)
    ensures UnnamedRequests(s, v) + Pending(s, v) <= FailedCalls(s, v) + CreatingCall(s, v)
  {
    forall id | id in UnnamedRequests(s, v) + Pending(s, v) ensures id in FailedCalls(s, v) + CreatingCall(s, v) {
      UnnamedRequestIsOwed(s, v, id);
    }
  }

  lemma OneRequestEach(s: State, v: string)
    requires OrderInv(s)
    ensures |UnnamedRequests(s, v)| == |MadeAndTemporary(s, v)|
  {
    var unnamed := UnnamedRequests(s, v);
    ImageSize(unnamed, s);
    assert MadeAndTemporary(s, v) == set id | id in unnamed :: s.orders[id].result.value;
  }

  /** Temporary disks and unanswered requests are each owed to a failed call of their own, or to the
      call in flight if that is just creating a disk. */
  lemma LeftoversAreFailures(r: Run, j: nat, v: string)
    requires IsRun(r) && j < |r.states|
    ensures var s := r.states[j];
            |MadeAndTemporary(s, v)| + |Pending(s, v)| <= |FailedCalls(s, v)| + if Creating(s, v) then 1 else 0
  {
    InvAlways(r, j);
    var s := r.states[j];
    OneRequestEach(s, v);
    OwedSet(s, v);
    SubsetSize(UnnamedRequests(s, v) + Pending(s, v), FailedCalls(s, v) + CreatingCall(s, v));
    assert UnnamedRequests(s, v) !! Pending(s, v);
  }

  /** From the first success on, as long as the finished disk is there, they number at most the
      failed calls. */
  lemma LeftoversAfterSuccess(r: Run, j: nat, v: string, u: Uuid)
    requires IsRun(r) && j < |r.states| && v !in r.states[j].migratory
    requires u in r.states[j].vdis && r.states[j].vdis[u].name == Final(v)
    ensures var s := r.states[j]; |MadeAndTemporary(s, v)| + |Pending(s, v)| <= |FailedCalls(s, v)|
  {
    InvAlways(r, j);
    LeftoversAreFailures(r, j, v);
  }

  lemma {:induction false} SubsetSize(a: set<nat>, b: set<nat>)
    requires a <= b
    ensures |a| <= |b|
  {
    if a != {} {
      var x :| x in a;
      SubsetSize(a - {x}, b - {x});
    }
  }

  /** All temporary disks of `v` are made in this run or were there when it began. */
  lemma {:induction false} TemporariesAccounted(r: Run, j: nat, v: string, u: Uuid)
    requires IsRun(r) && j < |r.states|
    requires u in r.states[j].vdis && r.states[j].vdis[u].name == Temporary(v)
    ensures u in Made(r.states[j], v) || (u in r.states[0].vdis && r.states[0].vdis[u].name == Temporary(v))
  {
    if j > 0 {
      assert StepAt(r, j - 1);
      EvolvesAt(r, j - 1, u);
      if u in r.states[j - 1].vdis {
        TemporariesAccounted(r, j - 1, v, u);
        if u in Made(r.states[j - 1], v) {
          InvAlways(r, j - 1);
          MadeStays(r.states[j - 1], r.actions[j - 1], v, u);
        }
      } else {
        NewTemporaryIsMade(r.states[j - 1], r.actions[j - 1], v, u);
      }
    }
  }

  lemma MadeStays(s: State, a: Action, v: string, u: Uuid)
    requires Inv(s) && Enabled(s, a) && u in Made(s, v)
    ensures u in Made(Apply(s, a), v)
  {
    var id :| id in Fulfilled(s, v) && s.orders[id].result.value == u;
    OrderStays(s, a, id);
    assert id in Fulfilled(Apply(s, a), v);
  }

  lemma EffectOrders(s: State, v: string, c: CallAction, id: nat)
    requires OwnerInv(s) && CallEnabled(s, v, c) && id in s.orders
    ensures id in CallEffect(s, v, c).orders && CallEffect(s, v, c).orders[id] == s.orders[id]
            && v in CallEffect(s, v, c).calls
  {
  }

  lemma LandOrders(s: State, v: string, next: Next)
    requires v in s.calls
    ensures Land(s, v, next).orders == s.orders
  {
  }

  lemma WorldOrders(s: State, w: WorldAction, id: nat)
    requires WorldEnabled(s, w) && id in s.orders && s.orders[id].result.Some?
    ensures id in WorldApply(s, w).orders && WorldApply(s, w).orders[id] == s.orders[id]
  {
  }

  lemma OrderStays(s: State, a: Action, id: nat)
    requires OwnerInv(s) && Enabled(s, a) && id in s.orders && s.orders[id].result.Some?
    ensures id in Apply(s, a).orders && Apply(s, a).orders[id] == s.orders[id]
  {
    match a
    case ByCall(v, c) =>
      EffectOrders(s, v, c, id);
      LandOrders(CallEffect(s, v, c), v, CallNext(s, v, c));
    case ByCleaner(c) => CleanerFrame(s, c);
    case ByWorld(w) => WorldOrders(s, w, id);
  }

  lemma NothingNew(s: State, v: string, c: CallAction, u: Uuid)
    requires CallEnabled(s, v, c) && u !in s.vdis
    ensures u !in CallApply(s, v, c).vdis
  {
    assert u !in CallEffect(s, v, c).vdis;
  }

  lemma NothingNewFromCleaner(s: State, c: CleanerAction, u: Uuid)
    requires CleanerEnabled(s, c) && u !in s.vdis
    ensures u !in CleanerApply(s, c).vdis
  {
  }

  lemma NewInWorldIsMade(s: State, w: WorldAction, v: string, u: Uuid)
    requires WorldEnabled(s, w) && u !in s.vdis && u in WorldApply(s, w).vdis
             && WorldApply(s, w).vdis[u].name == Temporary(v)
    ensures u in Made(WorldApply(s, w), v)
  {
    assert w.ServerCreates? && w.u == u;
    assert w.id in Fulfilled(WorldApply(s, w), v);
  }

  lemma NewTemporaryIsMade(s: State, a: Action, v: string, u: Uuid)
    requires Enabled(s, a) && u !in s.vdis && u in Apply(s, a).vdis && Apply(s, a).vdis[u].name == Temporary(v)
    ensures u in Made(Apply(s, a), v)
  {
    match a
    case ByCall(w, c) => NothingNew(s, w, c, u);
    case ByCleaner(c) => NothingNewFromCleaner(s, c, u);
    case ByWorld(w) => NewInWorldIsMade(s, w, v, u);
  }

  // ---------- one create per call ----------

  /** The call has passed the point where it may send a create, or has ended. */
  ghost predicate PastCreate(s: State, id: nat) {
    id in s.volumes && (Active(s, id) ==> !BeforeCreate(s.calls[s.volumes[id]].pc))
  }

  lemma CallMovesOn(s: State, v: string, c: CallAction)
    requires CallEnabled(s, v, c) && v in s.calls && !BeforeCreate(s.calls[v].pc)
    ensures CallNext(s, v, c).Go? ==> !BeforeCreate(CallNext(s, v, c).pc)
  {
  }

  lemma BeginPastCreate(s: State, v: string, capacity: int, id: nat)
    requires CallIdInv(s) && CallEnabled(s, v, Begin(capacity)) && PastCreate(s, id)
    ensures PastCreate(CallApply(s, v, Begin(capacity)), id)
  {
  }

  lemma LaterPastCreate(s: State, v: string, c: CallAction, id: nat)
    requires CallEnabled(s, v, c) && !c.Begin? && PastCreate(s, id)
    ensures PastCreate(CallApply(s, v, c), id)
  {
    EffectFrame(s, v, c);
    if v == s.volumes[id] && s.calls[v].id == id {
      CallMovesOn(s, v, c);
    }
    LandPastCreate(CallEffect(s, v, c), v, CallNext(s, v, c), id);
  }

  lemma LandPastCreate(s: State, v: string, next: Next, id: nat)
    requires v in s.calls && PastCreate(s, id)
    requires next.Go? && s.calls[v].id == id && v == s.volumes[id] ==> !BeforeCreate(next.pc)
    ensures PastCreate(Land(s, v, next), id)
  {
    if v != s.volumes[id] {
      LandFrame(s, v, next, s.volumes[id]);
    }
  }

  lemma PastCreateStays(s: State, a: Action, id: nat)
    requires CallIdInv(s) && Enabled(s, a) && PastCreate(s, id)
    ensures PastCreate(Apply(s, a), id)
  {
    match a
    case ByCall(v, c) => if c.Begin? { BeginPastCreate(s, v, c.capacity, id); } else { LaterPastCreate(s, v, c, id); }
    case ByCleaner(c) =>
    case ByWorld(x) => WorldFrame(s, x);
  }

  lemma {:induction false} PastCreateForever(r: Run, i: nat, j: nat, id: nat)
    requires IsRun(r) && i <= j < |r.states| && PastCreate(r.states[i], id)
    ensures PastCreate(r.states[j], id)
    decreases j
  {
    if i < j {
      PastCreateForever(r, i, j - 1, id);
      InvAlways(r, j - 1);
      assert StepAt(r, j - 1);
      PastCreateStays(r.states[j - 1], r.actions[j - 1], id);
    }
  }

  /** Step `i` sends the create request of call `id`. */
  ghost predicate SendsFor(r: Run, i: nat, id: nat)
    requires IsRun(r) && i < |r.actions|
  {
    && r.actions[i].ByCall? && r.actions[i].call.SendCreate?
    && r.actions[i].v in r.states[i].calls && r.states[i].calls[r.actions[i].v].id == id
  }

  lemma SendIsPastCreate(s: State, v: string)
    requires CallIdInv(s) && CallEnabled(s, v, SendCreate)
    ensures PastCreate(CallApply(s, v, SendCreate), s.calls[v].id)
  {
  }

  lemma SenderIsNotPast(s: State, v: string)
    requires CallIdInv(s) && CallEnabled(s, v, SendCreate)
    ensures !PastCreate(s, s.calls[v].id)
  {
  }

  lemma CallIdsAlways(r: Run, j: nat)
    requires IsRun(r) && j < |r.states|
    ensures CallIdInv(r.states[j])
    ensures j < |r.actions| ==>
              Enabled(r.states[j], r.actions[j]) && r.states[j + 1] == Apply(r.states[j], r.actions[j])
  {
    InvAlways(r, j);
    if j < |r.actions| {
      assert StepAt(r, j);
    }
  }

  /** No CreateVolume call ever sends two creates. */
  lemma AtMostOneCreate(r: Run, i: nat, j: nat, id: nat)
    requires IsRun(r) && i <= j < |r.actions| && SendsFor(r, i, id) && SendsFor(r, j, id)
    ensures i == j
  {
    if i < j {
      CallIdsAlways(r, i);
      CallIdsAlways(r, j);
      SendIsPastCreate(r.states[i], r.actions[i].v);
      SenderIsNotPast(r.states[j], r.actions[j].v);
      PastCreateForever(r, i + 1, j, id);
    }
  }
}

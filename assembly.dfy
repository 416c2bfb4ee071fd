/**
 * The Assembly aggregate: the work of putting one order's glasses together.
 * Its status moves PENDING -> IN_PROGRESS -> COMPLETED, and completion waits
 * until every component has been marked acquired.
 */
module AssemblyModel {
  import opened Common
  import OrderModel

  datatype AssemblyId = AssemblyId(value: Uuid)

  datatype ComponentType = Frame | Lens

  datatype AssemblyComponent = AssemblyComponent(
    id: string,
    componentType: ComponentType,
    description: string,
    acquired: bool)

  datatype AssemblyStatus = Pending | InProgress | Completed | Cancelled

  const StartRejected := "Assembly can only be started when in PENDING status"
  const CompleteRejected := "Assembly can only be completed when in IN_PROGRESS status"
  const ComponentsMissing := "All components must be acquired before completing assembly"

  function ComponentNotFound(componentId: string): string {
    "Component with ID " + componentId + " not found"
  }

  predicate AllAcquired(cs: seq<AssemblyComponent>) {
    forall i :: 0 <= i < |cs| ==> cs[i].acquired
  }

  /** `find`: the position of the first component whose id is `cid`, if any. */
  function FirstWithId(cs: seq<AssemblyComponent>, cid: string): (r: Option<nat>)
    ensures r.Some? ==> r.value < |cs| && cs[r.value].id == cid
    ensures r.Some? ==> forall j :: 0 <= j < r.value ==> cs[j].id != cid
    ensures r.None? <==> forall j :: 0 <= j < |cs| ==> cs[j].id != cid
    decreases |cs|
  {
    if cs == [] then None
    else if cs[0].id == cid then Some(0)
    else match FirstWithId(cs[1..], cid)
      case None => None
      case Some(k) => Some(k + 1)
  }

  /**
   * The components after `acquireComponent(cid)`: the first match is flagged
   * acquired. No flag is ever cleared, and a known id ends up acquired.
   */
  function MarkAcquired(cs: seq<AssemblyComponent>, cid: string): (r: seq<AssemblyComponent>)
    ensures SameShape(cs, r)
    ensures forall i :: 0 <= i < |cs| && cs[i].acquired ==> r[i].acquired
    ensures (exists i :: 0 <= i < |cs| && cs[i].id == cid) ==> exists i :: 0 <= i < |r| && r[i].id == cid && r[i].acquired
  {
    match FirstWithId(cs, cid)
    case None => cs
    case Some(k) => cs[k := cs[k].(acquired := true)]
  }

  /** Same number of components, with the same ids, types and descriptions, in the same order. */
  predicate SameShape(a: seq<AssemblyComponent>, b: seq<AssemblyComponent>) {
    |a| == |b| &&
    forall i :: 0 <= i < |a| ==>
      a[i].id == b[i].id && a[i].componentType == b[i].componentType && a[i].description == b[i].description
  }

  /** The search looks only at ids, so components of the same shape give the same answer. */
  lemma {:induction false} FirstWithIdOnlyReadsIds(a: seq<AssemblyComponent>, b: seq<AssemblyComponent>, cid: string)
    requires SameShape(a, b)
    ensures FirstWithId(a, cid) == FirstWithId(b, cid)
    decreases |a|
  {
    if a != [] && a[0].id != cid {
      assert SameShape(a[1..], b[1..]);
      FirstWithIdOnlyReadsIds(a[1..], b[1..], cid);
    }
  }

  /**
   * Acquiring flags exactly the first component with that id, keeps every
   * other flag, and never changes the shape of the list.
   */
  lemma MarkAcquiredFlagsFirstMatch(cs: seq<AssemblyComponent>, cid: string)
    ensures SameShape(cs, MarkAcquired(cs, cid))
    ensures forall i :: 0 <= i < |cs| ==>
      MarkAcquired(cs, cid)[i].acquired == (cs[i].acquired || FirstWithId(cs, cid) == Some(i))
  {
  }

  /** Acquiring the same component twice is the same as acquiring it once. */
  lemma MarkAcquiredIdempotent(cs: seq<AssemblyComponent>, cid: string)
    ensures MarkAcquired(MarkAcquired(cs, cid), cid) == MarkAcquired(cs, cid)
  {
    MarkAcquiredFlagsFirstMatch(cs, cid);
    FirstWithIdOnlyReadsIds(cs, MarkAcquired(cs, cid), cid);
  }

  /** With an unknown id nothing is flagged. */
  lemma MarkAcquiredUnknownId(cs: seq<AssemblyComponent>, cid: string)
    requires forall i :: 0 <= i < |cs| ==> cs[i].id != cid
    ensures MarkAcquired(cs, cid) == cs
  {
  }

  /** The operations an assembly offers. */
  datatype AssemblyOp = Start | Finish | AcquirePart(componentId: string)

  /** The part of an assembly its operations change. */
  datatype Progress = Progress(status: AssemblyStatus, components: seq<AssemblyComponent>)

  /** Whether the operation's rule holds (an acquisition needs a matching component, not a status). */
  predicate OpAllowed(p: Progress, op: AssemblyOp) {
    match op
    case Start => p.status == Pending
    case Finish => p.status == InProgress && AllAcquired(p.components)
    case AcquirePart(cid) => FirstWithId(p.components, cid).Some?
  }

  /** The progress after attempting `op`; a rejected operation changes nothing. */
  function ApplyOp(p: Progress, op: AssemblyOp): (r: Progress)
    ensures !OpAllowed(p, op) ==> r == p
    ensures SameShape(p.components, r.components)
    ensures r.status in {p.status, InProgress, Completed}
    ensures op.Start? && OpAllowed(p, op) ==> r.status == InProgress
    ensures op.Finish? && OpAllowed(p, op) ==> r.status == Completed && AllAcquired(r.components)
    ensures op.AcquirePart? ==> r.status == p.status
  {
    if !OpAllowed(p, op) then p
    else match op
      case Start => p.(status := InProgress)
      case Finish => p.(status := Completed)
      case AcquirePart(cid) => p.(components := MarkAcquired(p.components, cid))
  }

  function RunOps(p: Progress, ops: seq<AssemblyOp>): Progress
    decreases |ops|
  {
    if ops == [] then p else RunOps(ApplyOp(p, ops[0]), ops[1..])
  }

  /**
   * Whatever operations run, the components keep their shape, no operation
   * sets CANCELLED, and a COMPLETED assembly stays COMPLETED.
   */
  lemma {:induction false} RunOpsKeepsShape(p: Progress, ops: seq<AssemblyOp>)
    ensures SameShape(p.components, RunOps(p, ops).components)
    ensures RunOps(p, ops).status == Cancelled ==> p.status == Cancelled
    ensures p.status == Completed ==> RunOps(p, ops).status == Completed
    decreases |ops|
  {
    if ops != [] {
      var q := ApplyOp(p, ops[0]);
      if ops[0].AcquirePart? {
        MarkAcquiredFlagsFirstMatch(p.components, ops[0].componentId);
      }
      assert SameShape(p.components, q.components);
      RunOpsKeepsShape(q, ops[1..]);
    }
  }

  /** Acquiring is allowed in every status, COMPLETED included. */
  lemma AcquireIgnoresStatus(p: Progress, cid: string)
    ensures OpAllowed(p, AcquirePart(cid)) <==> exists i :: 0 <= i < |p.components| && p.components[i].id == cid
    ensures ApplyOp(p, AcquirePart(cid)).status == p.status
  {
  }

  class Assembly {
    const id: AssemblyId
    const orderId: OrderModel.OrderId
    var status: AssemblyStatus
    var components: seq<AssemblyComponent>
    const createdAt: Timestamp
    var updatedAt: Timestamp

    function Current(): Progress
      reads this
    {
      Progress(status, components)
    }

    /** `create`: a new assembly is PENDING and holds the given components. */
    constructor Create(freshId: Uuid, orderId: OrderModel.OrderId, components: seq<AssemblyComponent>, now: Timestamp)
      ensures id == AssemblyId(freshId) && this.orderId == orderId
      ensures status == Pending && this.components == components
      ensures createdAt == now && updatedAt == now
    {
      id := AssemblyId(freshId);
      this.orderId := orderId;
      status := Pending;
      this.components := components;
      createdAt := now;
      updatedAt := now;
    }

    /** `startAssembly`: only from PENDING; sets IN_PROGRESS. */
    method StartAssembly(now: Timestamp) returns (r: Outcome)
      modifies this`status, this`updatedAt
      ensures r.Pass? <==> old(status) == Pending
      ensures r.Fail? ==> r.message == StartRejected
      ensures Current() == ApplyOp(old(Current()), Start)
      ensures updatedAt == if r.Pass? then now else old(updatedAt)
    {
      if status != Pending {
        return Fail(StartRejected);
      }
      status := InProgress;
      updatedAt := now;
      r := Pass;
    }

    /**
     * `completeAssembly`: only from IN_PROGRESS and only once every component
     * is acquired (with no components, only the status is checked).
     */
    method CompleteAssembly(now: Timestamp) returns (r: Outcome)
      modifies this`status, this`updatedAt
      ensures r.Pass? <==> old(status) == InProgress && AllAcquired(components)
      ensures old(status) != InProgress ==> r == Fail(CompleteRejected)
      ensures old(status) == InProgress && !AllAcquired(components) ==> r == Fail(ComponentsMissing)
      ensures Current() == ApplyOp(old(Current()), Finish)
      ensures updatedAt == if r.Pass? then now else old(updatedAt)
    {
      if status != InProgress {
        return Fail(CompleteRejected);
      }
      if !AllAcquired(components) {
        return Fail(ComponentsMissing);
      }
      status := Completed;
      updatedAt := now;
      r := Pass;
    }

    /**
     * `acquireComponent`: flags the first component with that id as acquired,
     * whatever the status; an unknown id is rejected and changes nothing.
     */
    method AcquireComponent(componentId: string, now: Timestamp) returns (r: Outcome)
      modifies this`components, this`updatedAt
      ensures r.Pass? <==> FirstWithId(old(components), componentId).Some?
      ensures r.Fail? ==> r.message == ComponentNotFound(componentId)
      ensures Current() == ApplyOp(old(Current()), AcquirePart(componentId))
      ensures updatedAt == if r.Pass? then now else old(updatedAt)
    {
      var i := 0;
      while i < |components| && components[i].id != componentId
        invariant 0 <= i <= |components|
        invariant forall j :: 0 <= j < i ==> components[j].id != componentId
      {
        i := i + 1;
      }
      if i == |components| {
        return Fail(ComponentNotFound(componentId));
      }
      components := components[i := components[i].(acquired := true)];
      updatedAt := now;
      r := Pass;
    }
  }
}

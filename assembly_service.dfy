/**
 * The assembly application service. Only a completed assembly is
 * announced (as the order being assembled); creating, starting and
 * acquiring publish nothing. A rejected operation saves nothing and an
 * unknown id completes empty.
 */
module AssemblyApp {
  import opened Common
  import opened AssemblyModel
  import OrderModel
  import DomainEvents

  class AssemblyService {
    var repo: map<AssemblyId, Assembly>
    var published: seq<DomainEvents.Event>

    /** Each assembly is stored under its own id. */
    ghost predicate Valid()
      reads this`repo
    {
      forall k :: k in repo ==> repo[k].id == k
    }

    /** The stored assembly with this id, if any. */
    function Stored(assemblyId: AssemblyId): set<Assembly>
      reads this`repo
    {
      if assemblyId in repo then {repo[assemblyId]} else {}
    }

    constructor ()
      ensures Valid() && repo == map[] && published == []
    {
      repo := map[];
      published := [];
    }

    /** `createAssembly`: saves a new PENDING assembly with the given components; publishes nothing. */
    method CreateAssembly(freshId: Uuid, orderId: OrderModel.OrderId, components: seq<AssemblyComponent>, now: Timestamp)
      returns (a: Assembly)
      requires Valid()
      modifies this`repo
      ensures Valid()
      ensures fresh(a) && a.id == AssemblyId(freshId) && a.orderId == orderId
      ensures a.status == Pending && a.components == components
      ensures repo == old(repo)[a.id := a] && published == old(published)
    {
      a := new Assembly.Create(freshId, orderId, components, now);
      repo := repo[a.id := a];
    }

    /** Finds the assembly and applies `op` to it, saving it only if the operation passed. */
    method Perform(assemblyId: AssemblyId, op: AssemblyOp, now: Timestamp) returns (r: Reply<Assembly>)
      requires Valid()
      modifies Stored(assemblyId)
      ensures Valid() && published == old(published)
      ensures r.Empty? <==> assemblyId !in repo
      ensures assemblyId in repo ==>
        (r.Value? <==> OpAllowed(old(repo[assemblyId].Current()), op)) &&
        (r.Error? <==> !OpAllowed(old(repo[assemblyId].Current()), op)) &&
        repo[assemblyId].Current() == ApplyOp(old(repo[assemblyId].Current()), op)
      ensures r.Value? ==> assemblyId in repo && r.value == repo[assemblyId]
      ensures r.Error? && op.Start? ==> r.message == StartRejected
      ensures r.Error? && op.AcquirePart? ==> r.message == ComponentNotFound(op.componentId)
      ensures r.Error? && op.Finish? ==>
        assemblyId in repo &&
        r.message == (if old(repo[assemblyId].status) != InProgress then CompleteRejected else ComponentsMissing)
    {
      if assemblyId !in repo {
        return Empty;
      }
      var a := repo[assemblyId];
      var outcome: Outcome;
      match op {
        case Start => outcome := a.StartAssembly(now);
        case Finish => outcome := a.CompleteAssembly(now);
        case AcquirePart(cid) => outcome := a.AcquireComponent(cid, now);
      }
      if outcome.Fail? {
        return Error(outcome.message);
      }
      r := Value(a);
    }

    /** `startAssembly`: only a PENDING assembly starts; nothing is published. */
    method StartAssembly(assemblyId: AssemblyId, now: Timestamp) returns (r: Reply<Assembly>)
      requires Valid()
      modifies Stored(assemblyId)
      ensures Valid() && published == old(published)
      ensures r.Empty? <==> assemblyId !in repo
      ensures assemblyId in repo ==>
        (r.Value? <==> old(repo[assemblyId].status) == Pending) &&
        repo[assemblyId].status == (if r.Value? then InProgress else old(repo[assemblyId].status)) &&
        repo[assemblyId].components == old(repo[assemblyId].components)
      ensures r.Error? ==> r.message == StartRejected
      ensures r.Value? ==> assemblyId in repo && r.value == repo[assemblyId]
    {
      r := Perform(assemblyId, Start, now);
    }

    /**
     * `completeAssembly`: an IN_PROGRESS assembly whose components are all
     * acquired is completed, and then exactly one order-assembled event with
     * its order id is published; otherwise nothing is published.
     */
    method CompleteAssembly(assemblyId: AssemblyId, now: Timestamp) returns (r: Reply<Assembly>)
      requires Valid()
      modifies this`published, Stored(assemblyId)
      ensures Valid() && repo == old(repo)
      ensures (r.Empty? <==> assemblyId !in repo) && (r.Empty? ==> published == old(published))
      ensures assemblyId in repo ==>
        (r.Value? <==> old(repo[assemblyId].status) == InProgress && AllAcquired(repo[assemblyId].components)) &&
        repo[assemblyId].status == (if r.Value? then Completed else old(repo[assemblyId].status)) &&
        repo[assemblyId].components == old(repo[assemblyId].components)
      ensures r.Error? ==>
        assemblyId in repo &&
        r.message == (if old(repo[assemblyId].status) != InProgress then CompleteRejected else ComponentsMissing)
      ensures r.Value? ==> assemblyId in repo && r.value == repo[assemblyId]
      ensures published == old(published) +
        (if r.Value? then [DomainEvents.OrderAssembled(repo[assemblyId].orderId)] else [])
    {
      r := Perform(assemblyId, Finish, now);
      if r.Value? {
        published := published + [DomainEvents.OrderAssembled(r.value.orderId)];
      }
    }

    /**
     * `acquireComponent`: flags the first component with that id, in any
     * status; an unknown component is an error. Nothing is published.
     */
    method AcquireComponent(assemblyId: AssemblyId, componentId: string, now: Timestamp) returns (r: Reply<Assembly>)
      requires Valid()
      modifies Stored(assemblyId)
      ensures Valid() && published == old(published)
      ensures r.Empty? <==> assemblyId !in repo
      ensures assemblyId in repo ==>
        (r.Value? <==> exists i :: 0 <= i < |old(repo[assemblyId].components)| &&
                                   old(repo[assemblyId].components)[i].id == componentId) &&
        repo[assemblyId].components == MarkAcquired(old(repo[assemblyId].components), componentId) &&
        repo[assemblyId].status == old(repo[assemblyId].status)
      ensures r.Error? ==> r.message == ComponentNotFound(componentId)
      ensures r.Value? ==> assemblyId in repo && r.value == repo[assemblyId]
    {
      r := Perform(assemblyId, AcquirePart(componentId), now);
    }
  }
}

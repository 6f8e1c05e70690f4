/** The service store (project/src/context/ServiceContext.tsx): one list of
    services, replaced wholesale by each operation. */
module ServiceContext {
  import opened Seqs
  import opened Types
  import MockData

  function HasServiceId(id: string): Service -> bool { (s: Service) => s.id == id }
  function OtherServiceId(id: string): Service -> bool { (s: Service) => s.id != id }
  function AlwaysService(x: Service): Service -> Service { _ => x }
  function WithServiceStatus(status: ServiceStatus): Service -> Service
  {
    (s: Service) => s.(status := status)
  }

  /** Every service with the given service's id is replaced by the whole
      new record. */
  function ReplaceService(s: seq<Service>, service: Service): (r: seq<Service>)
    ensures |r| == |s|
    ensures forall i :: 0 <= i < |s| ==> r[i] == if s[i].id == service.id then service else s[i]
  {
    MapIfAt(s, HasServiceId(service.id), AlwaysService(service));
    MapIf(s, HasServiceId(service.id), AlwaysService(service))
  }

  /** Every service with that id gets the new status; nothing else changes. */
  function SetServiceStatus(s: seq<Service>, id: string, status: ServiceStatus): (r: seq<Service>)
    ensures |r| == |s|
    ensures forall i :: 0 <= i < |s| ==>
      r[i] == if s[i].id == id then s[i].(status := status) else s[i]
  {
    MapIfAt(s, HasServiceId(id), WithServiceStatus(status));
    MapIf(s, HasServiceId(id), WithServiceStatus(status))
  }

  /** The services whose id differs from `id`, in their order. */
  function RemoveService(s: seq<Service>, id: string): (r: seq<Service>)
    ensures IsSubsequence(r, s)
    ensures forall x :: x in r <==> x in s && x.id != id
    ensures forall x :: multiset(r)[x] == if x.id != id then multiset(s)[x] else 0
  {
    FilterSpec(s, OtherServiceId(id));
    Filter(s, OtherServiceId(id))
  }

  /** Changing a service's status twice to the same value is changing it once. */
  lemma SetServiceStatusIdempotent(s: seq<Service>, id: string, status: ServiceStatus)
    ensures SetServiceStatus(SetServiceStatus(s, id, status), id, status) == SetServiceStatus(s, id, status)
  {
    MapIfTwice(s, HasServiceId(id), WithServiceStatus(status));
  }

  class ServiceStore {
    var services: seq<Service>

    /** Initial load: a missing or unparsable saved list falls back to the
        seed services; a saved list, even an empty one, is used as it is. */
    constructor (saved: Saved<seq<Service>>)
      ensures services == LoadOr(saved, MockData.SeedServices)
    {
      services := LoadOr(saved, MockData.SeedServices);
    }

    /** Appends the service with its status forced to `active`. */
    method AddService(service: Service)
      modifies this
      ensures services == old(services) + [service.(status := Active)]
      ensures services[|services| - 1].status == Active
    {
      services := services + [service.(status := Active)];
    }

    method UpdateService(service: Service)
      modifies this
      ensures services == ReplaceService(old(services), service)
    {
      services := ReplaceService(services, service);
    }

    method UpdateServiceStatus(id: string, status: ServiceStatus)
      modifies this
      ensures services == SetServiceStatus(old(services), id, status)
    {
      services := SetServiceStatus(services, id, status);
    }

    method DeleteService(id: string)
      modifies this
      ensures services == RemoveService(old(services), id)
    {
      services := RemoveService(services, id);
    }
  }
}

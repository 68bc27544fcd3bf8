/**
 * The shared listener (`GrpcEndpoint`). Its server, address and TLS set-up are
 * not part of this model; what the services rely on is kept: whether it is
 * open, which registration callbacks are attached to it, the ordered
 * interceptor chain and the service definitions handed to it.
 */
module Endpoint {
  import opened Wrappers

  /** An interceptor function, as an opaque handle. */
  datatype Interceptor = Interceptor(action: nat)

  /** What `ServerServiceDefinition.Builder.build()` yields: a service name and its wire methods. */
  datatype ServiceDefinition = ServiceDefinition(serviceName: string, methods: seq<string>)

  /** The endpoint, if any, as a set: frames a field of an endpoint that may be `null`. */
  function Present(e: GrpcEndpoint?): set<GrpcEndpoint>
  {
    if e == null then {} else {e}
  }

  class GrpcEndpoint {
    var isOpen: bool
    var registrations: set<object>
    var interceptors: seq<Interceptor>
    var services: seq<ServiceDefinition>

    constructor ()
      ensures !isOpen && registrations == {} && interceptors == [] && services == []
    {
      isOpen := false;
      registrations := {};
      interceptors := [];
      services := [];
    }

    method Open(correlationId: Option<string>)
      modifies this`isOpen
      ensures isOpen
    {
      isOpen := true;
    }

    method Close(correlationId: Option<string>)
      modifies this`isOpen
      ensures !isOpen
    {
      isOpen := false;
    }

    method Register(registration: object)
      modifies this`registrations
      ensures registrations == old(registrations) + {registration}
    {
      registrations := registrations + {registration};
    }

    method Unregister(registration: object)
      modifies this`registrations
      ensures registrations == old(registrations) - {registration}
    {
      registrations := registrations - {registration};
    }

    method RegisterService(definition: ServiceDefinition)
      modifies this`services
      ensures services == old(services) + [definition]
    {
      services := services + [definition];
    }
  }
}

/**
 * `GrpcService`: the lifecycle of a service and its ownership of an endpoint.
 *
 * A service either adopts an endpoint handed to it through its references
 * (shared: the service never opens or closes it) or creates a private one
 * (local: the service opens and closes it). It attaches a registration
 * callback to the endpoint, and its `open` and `close` are guarded so that
 * repeating them changes nothing.
 */
module GrpcServices {
  import opened Wrappers
  import opened Errors
  import opened Endpoint
  import opened CommandableProtocol

  /** The `_registrable` callback (`this::registerService`) that a service attaches to its endpoint. */
  class RegistrationCallback {
    const serviceName: string

    constructor (serviceName: string)
      ensures this.serviceName == serviceName
    {
      this.serviceName := serviceName;
    }
  }

  /** The failure `close` raises when an opened service has lost its endpoint. */
  function NoEndpointError(correlationId: Option<string>): ErrorDescription
  {
    InvalidStateError(correlationId, "NO_ENDPOINT", "GRPC endpoint is missing")
  }

  class GrpcService {
    const serviceName: string
    const registrable: RegistrationCallback
    /** The wire methods added to the service definition builder, in order. */
    var builder: seq<string>
    var commandableMethods: CommandTable
    var isOpened: bool
    var endpoint: GrpcEndpoint?
    var localEndpoint: bool

    constructor (serviceName: string)
      ensures this.serviceName == serviceName && fresh(registrable)
      ensures builder == [] && commandableMethods == map[]
      ensures !isOpened && endpoint == null && !localEndpoint
    {
      this.serviceName := serviceName;
      registrable := new RegistrationCallback(serviceName);
      builder := [];
      commandableMethods := map[];
      isOpened := false;
      endpoint := null;
      localEndpoint := false;
    }

    function IsOpen(): bool
      reads this`isOpened
    {
      isOpened
    }

    /**
     * Adopts `shared` (the endpoint found in the references, or `null`) or
     * creates a local endpoint, then attaches the registration callback.
     */
    method SetReferences(shared: GrpcEndpoint?)
      modifies this`endpoint, this`localEndpoint, Present(shared)`registrations
      ensures endpoint != null && registrable in endpoint.registrations
      ensures localEndpoint <==> shared == null
      ensures shared != null ==>
        endpoint == shared && endpoint.registrations == old(shared.registrations) + {registrable}
      ensures shared == null ==>
        && fresh(endpoint) && !endpoint.isOpen
        && endpoint.registrations == {registrable} && endpoint.interceptors == [] && endpoint.services == []
    {
      endpoint := shared;
      if endpoint == null {
        endpoint := new GrpcEndpoint();
        localEndpoint := true;
      } else {
        localEndpoint := false;
      }
      endpoint.Register(registrable);
    }

    /** Detaches the registration callback and forgets the endpoint; nothing to do without one. */
    method UnsetReferences()
      modifies this`endpoint, Present(endpoint)`registrations
      ensures endpoint == null
      ensures old(endpoint) != null ==> old(endpoint).registrations == old(endpoint.registrations) - {registrable}
    {
      if endpoint != null {
        endpoint.Unregister(registrable);
        endpoint := null;
      }
    }

    method Open(correlationId: Option<string>)
      modifies this`isOpened, this`endpoint, this`localEndpoint, Present(endpoint)`isOpen
      ensures isOpened
      ensures old(isOpened) ==>
        && endpoint == old(endpoint) && localEndpoint == old(localEndpoint)
        && (endpoint != null ==> endpoint.isOpen == old(endpoint.isOpen))
      ensures !old(isOpened) && old(endpoint) == null ==>
        && fresh(endpoint) && localEndpoint && endpoint.isOpen
        && endpoint.registrations == {this} && endpoint.interceptors == [] && endpoint.services == []
      ensures !old(isOpened) && old(endpoint) != null ==>
        && endpoint == old(endpoint) && localEndpoint == old(localEndpoint)
        && endpoint.isOpen == (old(localEndpoint) || old(endpoint.isOpen))
    {
      if isOpened {
        return;
      }
      if endpoint == null {
        endpoint := new GrpcEndpoint();
        endpoint.Register(this);
        localEndpoint := true;
      }
      if localEndpoint {
        endpoint.Open(correlationId);
      }
      isOpened := true;
    }

    /** Returns the raised failure, if any, in place of Java's `throw`. */
    method Close(correlationId: Option<string>) returns (error: Option<ErrorDescription>)
      modifies this`isOpened, Present(endpoint)`isOpen
      ensures !old(isOpened) ==>
        && error == None && !isOpened
        && (endpoint != null ==> endpoint.isOpen == old(endpoint.isOpen))
      ensures old(isOpened) && endpoint == null ==> error == Some(NoEndpointError(correlationId)) && isOpened
      ensures old(isOpened) && endpoint != null ==>
        && error == None && !isOpened
        && endpoint.isOpen == (!localEndpoint && old(endpoint.isOpen))
    {
      if !isOpened {
        return None;
      }
      if endpoint == null {
        return Some(NoEndpointError(correlationId));
      }
      if localEndpoint {
        endpoint.Close(correlationId);
      }
      isOpened := false;
      error := None;
    }

    /** Appends a middleware to the endpoint's interceptor chain; nothing to do without an endpoint. */
    method RegisterInterceptor(action: Interceptor)
      modifies Present(endpoint)`interceptors
      ensures endpoint != null ==> endpoint.interceptors == old(endpoint.interceptors) + [action]
    {
      if endpoint == null {
        return;
      }
      endpoint.interceptors := endpoint.interceptors + [action];
    }

    /** Adds a wire method to the service definition being built. */
    method RegisterMethod(name: string)
      modifies this`builder
      ensures builder == old(builder) + [name]
    {
      builder := builder + [name];
    }

    function Definition(): ServiceDefinition
      reads this`builder
    {
      ServiceDefinition(serviceName, builder)
    }
  }

  // ---------------------------------------------------------------------------
  // Lifecycle scenarios, derived from the contracts above alone

  /**
   * Opening a local service, dropping its references and closing it raises
   * NO_ENDPOINT and leaves the service open.
   */
  method CloseWithoutEndpointFails(correlationId: Option<string>) returns (error: Option<ErrorDescription>, stillOpen: bool)
    ensures error == Some(NoEndpointError(correlationId)) && error.value.code == Some("NO_ENDPOINT")
    ensures stillOpen
  {
    var service := new GrpcService("service");
    service.SetReferences(null);
    service.Open(correlationId);
    service.UnsetReferences();
    error := service.Close(correlationId);
    stillOpen := service.IsOpen();
  }

  /**
   * `open` without `setReferences` attaches the service object itself to the
   * endpoint it creates, while `unsetReferences` detaches only the
   * registration callback: the service stays attached to that endpoint.
   */
  method OpenWithoutReferencesStaysAttached(correlationId: Option<string>)
    returns (serviceAttached: bool, callbackAttached: bool, forgotten: bool)
    ensures serviceAttached && !callbackAttached && forgotten
  {
    var service := new GrpcService("service");
    service.Open(correlationId);
    var created := service.endpoint;
    service.UnsetReferences();
    serviceAttached := service in created.registrations;
    callbackAttached := service.registrable in created.registrations;
    forgotten := service.endpoint == null;
  }

  /**
   * A service that owns its endpoint opens it, a second `open` leaves it as it
   * is, and `close` stops it and clears the service's open flag.
   */
  method LocalEndpointFollowsService(correlationId: Option<string>)
    returns (servingWhileOpen: bool, openAfterClose: bool, servingAfterClose: bool, error: Option<ErrorDescription>)
    ensures servingWhileOpen && !openAfterClose && !servingAfterClose && error == None
  {
    var service := new GrpcService("service");
    service.SetReferences(null);
    service.Open(correlationId);
    service.Open(correlationId);
    servingWhileOpen := service.endpoint.isOpen;
    error := service.Close(correlationId);
    openAfterClose := service.IsOpen();
    servingAfterClose := service.endpoint.isOpen;
  }

  /**
   * Two services sharing one endpoint: both callbacks are attached, neither
   * service opens or closes the endpoint, and detaching one leaves the other.
   */
  method SharedEndpointIsNotOwned()
    returns (servingAfterOpen: bool, bothAttached: bool, servingAfterClose: bool, onlyBetaAttached: bool)
    ensures !servingAfterOpen && bothAttached && !servingAfterClose && onlyBetaAttached
  {
    var shared := new GrpcEndpoint();
    var alpha := new GrpcService("alpha");
    var beta := new GrpcService("beta");
    alpha.SetReferences(shared);
    beta.SetReferences(shared);
    bothAttached := shared.registrations == {alpha.registrable, beta.registrable};
    alpha.Open(None);
    beta.Open(None);
    servingAfterOpen := shared.isOpen;
    var error := alpha.Close(None);
    servingAfterClose := shared.isOpen;
    alpha.UnsetReferences();
    onlyBetaAttached := shared.registrations == {beta.registrable};
  }

  /** Interceptors registered without an endpoint are dropped; the others keep registration order. */
  method InterceptorsKeepOrder(first: Interceptor, second: Interceptor) returns (chain: seq<Interceptor>)
    ensures chain == [first, second]
  {
    var service := new GrpcService("service");
    service.RegisterInterceptor(second);
    service.SetReferences(null);
    service.RegisterInterceptor(first);
    service.RegisterInterceptor(second);
    chain := service.endpoint.interceptors;
  }
}

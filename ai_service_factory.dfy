/** The factory that selects the prediction back end: a registry of services
    by type and the type currently in use. The mock service is registered
    from the start; the API service only once it is configured. */
module ServiceFactory {
  import opened Wrappers

  datatype ServiceType = Mock | Api

  /** The name of a service type as the application spells it. */
  function TypeName(t: ServiceType): string
  {
    match t
    case Mock => "mock"
    case Api => "api"
  }

  /** A registered service: the in-process mock, or the HTTP client with
      its endpoint and optional key. */
  datatype AIService = MockAIService | APIAIService(endpoint: string, apiKey: Option<string>)

  const ApiNotConfiguredError := "API service not configured. Call configureAPIService first."

  class AIServiceFactory {
    var services: map<ServiceType, AIService>
    var currentType: ServiceType

    /** The mock service is always registered and the current type always is. */
    ghost predicate Valid()
      reads this
    {
      Mock in services && currentType in services
    }

    constructor()
      ensures services == map[Mock := MockAIService]
      ensures currentType == Mock
      ensures Valid()
    {
      services := map[Mock := MockAIService];
      currentType := Mock;
    }

    /** `getService`: the service of the current type, or the error naming the
        type when none is registered; in a valid state it never fails. */
    method GetService() returns (r: Result<AIService, string>)
      ensures currentType in services ==> r == Success(services[currentType])
      ensures currentType !in services ==>
                r == Failure("No AI service available for type: " + TypeName(currentType))
      ensures Valid() ==> r.Success?
    {
      if currentType !in services {
        return Failure("No AI service available for type: " + TypeName(currentType));
      }
      return Success(services[currentType]);
    }

    /** `configureAPIService`: installs or replaces the API entry only. */
    method ConfigureAPIService(endpoint: string, apiKey: Option<string>)
      modifies this
      ensures services == old(services)[Api := APIAIService(endpoint, apiKey)]
      ensures currentType == old(currentType)
      ensures old(Valid()) ==> Valid()
    {
      services := services[Api := APIAIService(endpoint, apiKey)];
    }

    /** `useAPIService`: switches to the API service if it is registered and
        otherwise fails, leaving the state as it was. */
    method UseAPIService() returns (r: Result<(), string>)
      modifies this
      ensures services == old(services)
      ensures Api in old(services) ==> r.Success? && currentType == Api
      ensures Api !in old(services) ==> r == Failure(ApiNotConfiguredError) && currentType == old(currentType)
      ensures old(Valid()) ==> Valid()
    {
      if Api !in services {
        return Failure(ApiNotConfiguredError);
      }
      currentType := Api;
      return Success(());
    }

    /** `useMockService`: always switches to the mock service. */
    method UseMockService()
      modifies this
      ensures currentType == Mock
      ensures services == old(services)
      ensures old(Valid()) ==> Valid()
    {
      currentType := Mock;
    }

    method GetCurrentServiceType() returns (t: ServiceType)
      ensures t == currentType
    {
      t := currentType;
    }

    /** `isAPIServiceAvailable`: false without an API service; otherwise the
        answer of that service's own availability probe, `probeAnswer`. */
    method IsAPIServiceAvailable(probeAnswer: bool) returns (available: bool)
      ensures available <==> Api in services && probeAnswer
    {
      if Api !in services {
        return false;
      }
      return probeAnswer;
    }
  }

  /** A session that starts the factory, tries the API service before it is
      configured, configures it, switches to it and asks for the service:
      the first switch fails and the last request yields the API service. */
  method ConfigureThenSwitch(endpoint: string) returns (first: Result<(), string>, service: Result<AIService, string>)
    ensures first == Failure(ApiNotConfiguredError)
    ensures service == Success(APIAIService(endpoint, None))
  {
    var factory := new AIServiceFactory();
    first := factory.UseAPIService();
    factory.ConfigureAPIService(endpoint, None);
    var _ := factory.UseAPIService();
    service := factory.GetService();
  }
}

/**
 * Services/AgentService.cs: the process-wide switch for the policy agent. The agent exists
 * exactly when IsAgentEnabled holds; enabling creates it, disabling drops it (without undoing
 * any mute it issued). The static instance is modelled as an object of its own.
 */
module Services {
  import LibAgent

  const IsAgentEnabledProperty: string := "IsAgentEnabled"

  class AgentService {
    var agent: LibAgent.PrototypeAgent?
    var isAgentEnabled: bool
    var propertyChanged: seq<string>          // PropertyChanged notifications, in order

    ghost predicate Valid()
      reads this
    {
      isAgentEnabled <==> agent != null
    }

    constructor ()
      ensures Valid() && agent == null && !isAgentEnabled && propertyChanged == []
    {
      agent := null;
      isAgentEnabled := false;
      propertyChanged := [];
    }

    /** The IsAgentEnabled setter: notifies only on a change. */
    method SetIsAgentEnabled(value: bool)
      modifies this`isAgentEnabled, this`propertyChanged
      ensures isAgentEnabled == value
      ensures propertyChanged == old(propertyChanged) + (if old(isAgentEnabled) != value then [IsAgentEnabledProperty] else [])
    {
      if isAgentEnabled != value {
        isAgentEnabled := value;
        propertyChanged := propertyChanged + [IsAgentEnabledProperty];
      }
    }

    /** EnableAgent: a no-op when an agent exists; otherwise creates one (with its own Wi-Fi store). */
    method EnableAgent(playerCreated: bool, ssids: seq<string>)
      requires Valid()
      modifies this`agent, this`isAgentEnabled, this`propertyChanged
      ensures Valid() && isAgentEnabled
      ensures old(agent) != null ==> agent == old(agent) && propertyChanged == old(propertyChanged)
      ensures old(agent) == null ==>
                agent != null && fresh(agent) && agent.Valid() && agent.muteCommands == [] &&
                propertyChanged == old(propertyChanged) + [IsAgentEnabledProperty]
    {
      if agent == null {
        agent := new LibAgent.PrototypeAgent(playerCreated, ssids);
        SetIsAgentEnabled(true);
      }
    }

    /** DisableAgent: a no-op without an agent; otherwise drops it. */
    method DisableAgent()
      requires Valid()
      modifies this`agent, this`isAgentEnabled, this`propertyChanged
      ensures Valid() && !isAgentEnabled && agent == null
      ensures old(agent) == null ==> propertyChanged == old(propertyChanged)
      ensures old(agent) != null ==> propertyChanged == old(propertyChanged) + [IsAgentEnabledProperty]
    {
      if agent != null {
        agent := null;
        SetIsAgentEnabled(false);
      }
    }

    /** ToggleAgent: flips IsAgentEnabled, so two toggles restore it. */
    method ToggleAgent(playerCreated: bool, ssids: seq<string>)
      requires Valid()
      modifies this`agent, this`isAgentEnabled, this`propertyChanged
      ensures Valid()
      ensures isAgentEnabled == !old(isAgentEnabled)
      ensures propertyChanged == old(propertyChanged) + [IsAgentEnabledProperty]
      ensures old(isAgentEnabled) ==> agent == null
      ensures !old(isAgentEnabled) ==> agent != null && fresh(agent) && agent.muteCommands == []
    {
      if isAgentEnabled {
        DisableAgent();
      } else {
        EnableAgent(playerCreated, ssids);
      }
    }
  }

  /** The static field `_instance` of AgentService. */
  class AgentServiceStatics {
    var instance: AgentService?

    constructor ()
      ensures instance == null
    {
      instance := null;
    }

    /** Instance: creates the service on first access and returns that same object ever after. */
    method Instance() returns (service: AgentService)
      modifies this`instance
      ensures instance == service
      ensures old(instance) != null ==> service == old(instance)
      ensures old(instance) == null ==>
                fresh(service) && service.Valid() && service.agent == null && !service.isAgentEnabled
    {
      if instance == null {
        instance := new AgentService();
      }
      service := instance;
    }
  }
}

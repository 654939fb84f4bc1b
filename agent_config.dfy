/** The agent configuration panel: the agent switches and the integration
    cards, declared a second time apart from the settings page. */
module AgentConfig {
  import opened Integrations

  /** The panel's state. */
  class AgentConfigPanel {
    var agentSettings: AgentSettings
    var connectedIntegrations: seq<Integration>

    /** The integration cards keep distinct ids. */
    predicate Valid()
      reads this
    {
      UniqueIds(connectedIntegrations)
    }

    /** The panel as first rendered: the default settings and only Google
        Calendar connected. */
    constructor ()
      ensures Valid()
      ensures agentSettings == DefaultSettings
      ensures connectedIntegrations == InitialConnections()
    {
      agentSettings := DefaultSettings;
      connectedIntegrations := InitialConnections();
      OnlyCalendarConnected();
    }

    /** A switch of the agent section: only its own field changes. */
    method SetSwitch(sw: Switch, checked: bool)
      modifies this
      ensures agentSettings == WithSwitch(old(agentSettings), sw, checked)
      ensures Flag(agentSettings, sw) == checked
      ensures forall other :: other != sw ==> Flag(agentSettings, other) == Flag(old(agentSettings), other)
      ensures connectedIntegrations == old(connectedIntegrations)
    {
      agentSettings := WithSwitch(agentSettings, sw, checked);
    }

    /** `toggleIntegration(id)`. */
    method ToggleIntegration(id: string)
      requires Valid()
      modifies this
      ensures Valid()
      ensures connectedIntegrations == Toggled(old(connectedIntegrations), id)
      ensures agentSettings == old(agentSettings)
    {
      ToggleKeepsUniqueIds(connectedIntegrations, id);
      connectedIntegrations := Toggled(connectedIntegrations, id);
    }

    /** The Connect button of card `index`, which only an unconnected card
        shows: that card becomes connected and no other card changes. */
    method Connect(index: nat)
      requires Valid()
      requires index < |connectedIntegrations| && !connectedIntegrations[index].connected
      modifies this
      ensures Valid()
      ensures connectedIntegrations == old(connectedIntegrations)[index := old(connectedIntegrations)[index].(connected := true)]
      ensures agentSettings == old(agentSettings)
    {
      ToggleOneEntry(connectedIntegrations, index);
      ToggleIntegration(connectedIntegrations[index].id);
    }
  }
}

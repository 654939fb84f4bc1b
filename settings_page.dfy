/** The settings page: a tab bar, the agent switches and the integration
    cards. */
module SettingsPage {
  import opened Integrations

  /** The four tabs of the page's sidebar. */
  datatype Tab = AgentTab | IntegrationsTab | AccountTab | BillingTab

  /** The page's state. */
  class Settings {
    var activeTab: Tab
    var agentSettings: AgentSettings
    var connectedIntegrations: seq<Integration>

    /** The integration cards keep distinct ids. */
    predicate Valid()
      reads this
    {
      UniqueIds(connectedIntegrations)
    }

    /** The page as first rendered: the agent tab, the default settings and
        only Google Calendar connected. */
    constructor ()
      ensures Valid()
      ensures activeTab == AgentTab
      ensures agentSettings == DefaultSettings
      ensures connectedIntegrations == InitialConnections()
    {
      activeTab := AgentTab;
      agentSettings := DefaultSettings;
      connectedIntegrations := InitialConnections();
      OnlyCalendarConnected();
    }

    /** A tab button. */
    method SelectTab(tab: Tab)
      modifies this
      ensures activeTab == tab
      ensures agentSettings == old(agentSettings) && connectedIntegrations == old(connectedIntegrations)
    {
      activeTab := tab;
    }

    /** A switch of the agent section: only its own field changes. */
    method SetSwitch(sw: Switch, checked: bool)
      modifies this
      ensures agentSettings == WithSwitch(old(agentSettings), sw, checked)
      ensures Flag(agentSettings, sw) == checked
      ensures forall other :: other != sw ==> Flag(agentSettings, other) == Flag(old(agentSettings), other)
      ensures activeTab == old(activeTab) && connectedIntegrations == old(connectedIntegrations)
    {
      agentSettings := WithSwitch(agentSettings, sw, checked);
    }

    /** `toggleIntegration(id)`. */
    method ToggleIntegration(id: string)
      requires Valid()
      modifies this
      ensures Valid()
      ensures connectedIntegrations == Toggled(old(connectedIntegrations), id)
      ensures activeTab == old(activeTab) && agentSettings == old(agentSettings)
    {
      ToggleKeepsUniqueIds(connectedIntegrations, id);
      connectedIntegrations := Toggled(connectedIntegrations, id);
    }

    /** The Connect button of card `index`, which only an unconnected card
        shows: that card becomes connected and no other card changes. */
    method Connect(index: nat)
      requires Valid()
      requires index < |connectedIntegrations| && !connectedIntegrations[index].connected
      modifies this
      ensures Valid()
      ensures connectedIntegrations == old(connectedIntegrations)[index := old(connectedIntegrations)[index].(connected := true)]
      ensures activeTab == old(activeTab) && agentSettings == old(agentSettings)
    {
      ToggleOneEntry(connectedIntegrations, index);
      ToggleIntegration(connectedIntegrations[index].id);
    }
  }
}

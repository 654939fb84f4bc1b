/** The integration list and the agent switches shared by the settings page
    and the agent configuration panel: both declare the same catalog, the
    same initial connections, the same `toggleIntegration` and the same
    settings record. */
module Integrations {

  /** A third-party tool the assistant can sync with. The icon is not modelled. */
  datatype Integration = Integration(
    id: string,
    name: string,
    description: string,
    connected: bool,
    color: string)

  /** The catalog as declared, in display order. */
  const Catalog: seq<Integration> := [
    Integration("google-calendar", "Google Calendar", "Sync action items as calendar events", true, "bg-blue-500"),
    Integration("slack", "Slack", "Send summaries to channels", false, "bg-purple-500"),
    Integration("notion", "Notion", "Save transcripts as pages", false, "bg-gray-800"),
    Integration("zapier", "Zapier", "Connect to 5000+ apps", false, "bg-orange-500")
  ]

  /** No two entries share an id. */
  predicate UniqueIds(list: seq<Integration>) {
    forall i, j :: 0 <= i < j < |list| ==> list[i].id != list[j].id
  }

  /** The initial `connectedIntegrations`: the catalog with `connected` set
      exactly on the "google-calendar" entry. */
  function InitialConnections(): (r: seq<Integration>)
    ensures |r| == |Catalog|
    ensures forall i :: 0 <= i < |r| ==> r[i] == Catalog[i].(connected := Catalog[i].id == "google-calendar")
  {
    seq(|Catalog|, i requires 0 <= i < |Catalog| => Catalog[i].(connected := Catalog[i].id == "google-calendar"))
  }

  /** The catalog's ids are distinct. */
  lemma CatalogIdsUnique()
    ensures UniqueIds(Catalog)
  {
    assert Catalog[2].id[0] != Catalog[3].id[0];
  }

  /** Initially exactly one entry is connected: "google-calendar", the first. */
  lemma OnlyCalendarConnected()
    ensures InitialConnections()[0].id == "google-calendar" && InitialConnections()[0].connected
    ensures forall i :: 0 < i < |InitialConnections()| ==> !InitialConnections()[i].connected
    ensures UniqueIds(InitialConnections())
  {
    var r := InitialConnections();
    CatalogIdsUnique();
    assert r[1].id[0] != 'g' && r[2].id[0] != 'g' && r[3].id[0] != 'g';
  }

  /** One entry of the `map` in `toggleIntegration(id)`. */
  function Flip(entry: Integration, id: string): Integration {
    if entry.id == id then entry.(connected := !entry.connected) else entry
  }

  /** `list.map(i => i.id === id ? { ...i, connected: !i.connected } : i)`:
      same length and order, every entry keeps all fields but `connected`,
      and `connected` changes exactly on the entries whose id is `id`. */
  function Toggled(list: seq<Integration>, id: string): (r: seq<Integration>)
    ensures |r| == |list|
    ensures forall i :: 0 <= i < |list| ==>
      && r[i].id == list[i].id && r[i].name == list[i].name
      && r[i].description == list[i].description && r[i].color == list[i].color
      && (r[i].connected != list[i].connected <==> list[i].id == id)
    decreases |list|
  {
    if |list| == 0 then [] else [Flip(list[0], id)] + Toggled(list[1..], id)
  }

  /** Entry `i` of the toggled list is entry `i` flipped by `Flip`. */
  lemma ToggledEntry(list: seq<Integration>, id: string, i: nat)
    requires i < |list|
    ensures Toggled(list, id)[i] == Flip(list[i], id)
  {
  }

  /** Toggling the same id twice restores the list. */
  lemma ToggleTwice(list: seq<Integration>, id: string)
    ensures Toggled(Toggled(list, id), id) == list
  {
    var r := Toggled(Toggled(list, id), id);
    forall i | 0 <= i < |list| ensures r[i] == list[i] {
      ToggledEntry(list, id, i);
      ToggledEntry(Toggled(list, id), id, i);
    }
  }

  /** Toggling an id that no entry has changes nothing. */
  lemma ToggleAbsent(list: seq<Integration>, id: string)
    requires forall i :: 0 <= i < |list| ==> list[i].id != id
    ensures Toggled(list, id) == list
  {
    var r := Toggled(list, id);
    forall i | 0 <= i < |list| ensures r[i] == list[i] {
      ToggledEntry(list, id, i);
    }
  }

  /** Toggles of two ids can be applied in either order. */
  lemma ToggleCommutes(list: seq<Integration>, a: string, b: string)
    ensures Toggled(Toggled(list, a), b) == Toggled(Toggled(list, b), a)
  {
    var r, s := Toggled(Toggled(list, a), b), Toggled(Toggled(list, b), a);
    forall i | 0 <= i < |list| ensures r[i] == s[i] {
      ToggledEntry(list, a, i);
      ToggledEntry(list, b, i);
      ToggledEntry(Toggled(list, a), b, i);
      ToggledEntry(Toggled(list, b), a, i);
    }
  }

  /** With distinct ids, toggling the id of entry `k` flips that entry and
      leaves every other entry as it was. */
  lemma ToggleOneEntry(list: seq<Integration>, k: nat)
    requires UniqueIds(list) && k < |list|
    ensures Toggled(list, list[k].id) == list[k := list[k].(connected := !list[k].connected)]
  {
    var id := list[k].id;
    var r, t := Toggled(list, id), list[k := list[k].(connected := !list[k].connected)];
    forall i | 0 <= i < |list| ensures r[i] == t[i] {
      ToggledEntry(list, id, i);
      if i < k {
        assert list[i].id != id;
      } else if i > k {
        assert list[k].id != list[i].id;
      }
    }
  }

  /** The Connect button is shown only on an unconnected entry and toggles
      its id, so from the interface it only ever turns `connected` on. */
  lemma ConnectTurnsOn(list: seq<Integration>, k: nat)
    requires UniqueIds(list) && k < |list| && !list[k].connected
    ensures Toggled(list, list[k].id)[k].connected
    ensures forall i :: 0 <= i < |list| && i != k ==> Toggled(list, list[k].id)[i] == list[i]
  {
    ToggleOneEntry(list, k);
  }

  /** Toggling keeps the ids, so it keeps them distinct. */
  lemma ToggleKeepsUniqueIds(list: seq<Integration>, id: string)
    requires UniqueIds(list)
    ensures UniqueIds(Toggled(list, id))
  {
  }

  /** The agent settings record. `voiceResponses` has no switch. */
  datatype AgentSettings = AgentSettings(
    autoSummary: bool,
    actionItemDetection: bool,
    realTimeTranscription: bool,
    smartNotifications: bool,
    voiceResponses: bool)

  const DefaultSettings := AgentSettings(true, true, false, true, false)

  /** The four switches of the agent section. */
  datatype Switch = AutoSummary | ActionItemDetection | RealTimeTranscription | SmartNotifications

  /** The field a switch shows. */
  function Flag(s: AgentSettings, sw: Switch): bool {
    match sw
    case AutoSummary => s.autoSummary
    case ActionItemDetection => s.actionItemDetection
    case RealTimeTranscription => s.realTimeTranscription
    case SmartNotifications => s.smartNotifications
  }

  /** A switch's `onCheckedChange(checked)`: `{ ...prev, field: checked }`.
      The switch's own field becomes `checked` and nothing else changes. */
  function WithSwitch(s: AgentSettings, sw: Switch, checked: bool): (r: AgentSettings)
    ensures Flag(r, sw) == checked
    ensures forall other :: other != sw ==> Flag(r, other) == Flag(s, other)
    ensures r.voiceResponses == s.voiceResponses
  {
    match sw
    case AutoSummary => s.(autoSummary := checked)
    case ActionItemDetection => s.(actionItemDetection := checked)
    case RealTimeTranscription => s.(realTimeTranscription := checked)
    case SmartNotifications => s.(smartNotifications := checked)
  }

  /** A settings record is determined by its four switches and `voiceResponses`. */
  lemma SettingsExtensional(s: AgentSettings, t: AgentSettings)
    requires forall sw :: Flag(s, sw) == Flag(t, sw)
    requires s.voiceResponses == t.voiceResponses
    ensures s == t
  {
    assert Flag(s, AutoSummary) == Flag(t, AutoSummary);
    assert Flag(s, ActionItemDetection) == Flag(t, ActionItemDetection);
    assert Flag(s, RealTimeTranscription) == Flag(t, RealTimeTranscription);
    assert Flag(s, SmartNotifications) == Flag(t, SmartNotifications);
  }

  /** Setting a switch to the value it shows changes nothing. */
  lemma SwitchToSameValue(s: AgentSettings, sw: Switch)
    ensures WithSwitch(s, sw, Flag(s, sw)) == s
  {
    SettingsExtensional(WithSwitch(s, sw, Flag(s, sw)), s);
  }

  /** Changes to different switches can be made in either order. */
  lemma SwitchesCommute(s: AgentSettings, a: Switch, x: bool, b: Switch, y: bool)
    requires a != b
    ensures WithSwitch(WithSwitch(s, a, x), b, y) == WithSwitch(WithSwitch(s, b, y), a, x)
  {
    SettingsExtensional(WithSwitch(WithSwitch(s, a, x), b, y), WithSwitch(WithSwitch(s, b, y), a, x));
  }

  /** The last change to a switch is the one that counts. */
  lemma SwitchLastWins(s: AgentSettings, sw: Switch, x: bool, y: bool)
    ensures WithSwitch(WithSwitch(s, sw, x), sw, y) == WithSwitch(s, sw, y)
  {
    SettingsExtensional(WithSwitch(WithSwitch(s, sw, x), sw, y), WithSwitch(s, sw, y));
  }
}

/**
 * Per-connection session state of server/server.js:44-45: the settings a
 * client sent last, and the project it has selected. Both maps are keyed by
 * the connection and dropped when it closes.
 */
module Sessions {
  import opened Wrappers

  /** A WebSocket connection, the key of both maps. */
  type ConnId = nat

  /** The `settings` object of a `setSettings` request. */
  datatype Settings = Settings(apiKeys: map<string, string>, failoverOrder: seq<string>,
                               autoApplyCode: bool, autoArgueWithAI: bool)

  /** `Object.values(apiKeys).some(key => key)`: some entry, under any name, is non-empty. */
  predicate AnyKeyConfigured(apiKeys: map<string, string>) {
    exists name :: name in apiKeys && apiKeys[name] != ""
  }

  /** `clientSettings` and `clientCurrentProject`. */
  class Registry {
    var settings: map<ConnId, Settings>
    var currentProject: map<ConnId, int>

    constructor()
      ensures settings == map[] && currentProject == map[]
    {
      settings, currentProject := map[], map[];
    }

    /** `clientCurrentProject.get(ws)` when it is truthy: a missing entry and the id 0 both mean none. */
    function SelectedProject(ws: ConnId): (r: Option<int>)
      reads this
      ensures r.Some? <==> ws in currentProject && currentProject[ws] != 0
      ensures r.Some? ==> r.value == currentProject[ws] && r.value != 0
    {
      if ws in currentProject && currentProject[ws] != 0 then Some(currentProject[ws]) else None
    }

    /** `clientSettings.set(ws, settings)`: replaces the whole settings object. */
    method SetSettings(ws: ConnId, s: Settings)
      modifies this
      ensures settings == old(settings)[ws := s]
      ensures currentProject == old(currentProject)
    {
      settings := settings[ws := s];
    }

    /** `clientCurrentProject.set(ws, id)`. */
    method SelectProject(ws: ConnId, id: int)
      modifies this
      ensures currentProject == old(currentProject)[ws := id]
      ensures settings == old(settings)
      ensures id != 0 ==> SelectedProject(ws) == Some(id)
    {
      currentProject := currentProject[ws := id];
    }

    /** The close handler (server/server.js:342-345): both entries go, other connections keep theirs. */
    method Forget(ws: ConnId)
      modifies this
      ensures settings == old(settings) - {ws}
      ensures currentProject == old(currentProject) - {ws}
      ensures SelectedProject(ws) == None && ws !in settings
    {
      settings := settings - {ws};
      currentProject := currentProject - {ws};
    }
  }
}

/**
 * The WebSocket and HTTP handlers of server/server.js: each request type is
 * a method of `Server` over the file store, the session registry and the
 * outboxes, proved against the functions that say what the request does.
 */
module Server {
  import opened Wrappers
  import opened CodeFence
  import opened Failover
  import opened FileStore
  import opened Sessions
  import opened Broadcast
  import opened Chat

  const NoProjectIdToLoad: string := "No project ID provided to load."

  /** The error text of a request that needs a selected project. */
  function NoProjectSelected(action: string): string {
    "No project selected. Cannot " + action + "."
  }

  /** `Failed to create project: ${e.message}` for a taken name. */
  const DuplicateProjectName: string := "Failed to create project: UNIQUE constraint failed: projects.name"

  /** The same for a new project whose `/index.js` row already exists. */
  const IndexPathTaken: string := "Failed to create project: UNIQUE constraint failed: files.project_id, files.path"

  class Server {
    const store: Store
    const registry: Registry
    const hub: Hub

    ghost predicate Valid()
      reads this, store, hub
    {
      store.Valid() && hub.Valid()
    }

    constructor()
      ensures Valid() && fresh(store) && fresh(registry) && fresh(hub)
      ensures store.files == map[] && store.projects == map[] && store.lastProjectId == 0
      ensures registry.settings == map[] && registry.currentProject == map[]
      ensures hub.outbox == map[] && hub.open == {}
    {
      store := new Store();
      registry := new Registry();
      hub := new Hub();
    }

    /** The chat gate of server/server.js:205: settings known and some entry of `apiKeys` non-empty. */
    predicate KeysConfigured(ws: ConnId)
      reads this, registry
    {
      ws in registry.settings && AnyKeyConfigured(registry.settings[ws].apiKeys)
    }

    /** A client connects (server/server.js:133): it is open and has received nothing. */
    method OnConnect(ws: ConnId)
      requires Valid() && ws !in hub.outbox
      modifies hub
      ensures Valid()
      ensures hub.outbox == old(hub.outbox)[ws := []] && hub.open == old(hub.open) + {ws}
    {
      hub.Connect(ws);
    }

    /** `setSettings` (server/server.js:145-148). */
    method OnSetSettings(ws: ConnId, settings: Settings)
      requires Valid() && ws in hub.open
      modifies registry, hub
      ensures Valid() && hub.open == old(hub.open)
      ensures registry.settings == old(registry.settings)[ws := settings]
      ensures registry.currentProject == old(registry.currentProject)
      ensures hub.outbox == Sent(old(hub.outbox), ws, SettingsSet)
    {
      registry.SetSettings(ws, settings);
      hub.Send(ws, SettingsSet);
    }

    /** `listProjects` (server/server.js:149-151): every project id and name. */
    method OnListProjects(ws: ConnId)
      requires Valid() && ws in hub.open
      modifies hub
      ensures Valid() && hub.open == old(hub.open)
      ensures hub.outbox == Sent(old(hub.outbox), ws, ProjectsList(store.projects))
    {
      hub.Send(ws, ProjectsList(store.projects));
    }

    /**
     * `createProject` (server/server.js:152-169). A taken name changes
     * nothing and reports the constraint. Otherwise the project row exists
     * and is selected; then either its `/index.js` is inserted and the
     * client gets `projectCreated` and `init`, or that row already existed
     * and the client gets the constraint error.
     */
    method OnCreateProject(ws: ConnId, name: string) returns (outcome: ProjectOutcome)
      requires Valid() && ws in hub.open
      modifies store, registry, hub
      ensures Valid() && hub.open == old(hub.open) && registry.settings == old(registry.settings)
      ensures outcome.DuplicateName? <==> name in old(store.projects).Values
      ensures store.lastProjectId == if outcome.DuplicateName? then old(store.lastProjectId) else outcome.id
      ensures outcome.DuplicateName? ==>
        && store.files == old(store.files) && store.projects == old(store.projects)
        && registry.currentProject == old(registry.currentProject)
        && hub.outbox == Sent(old(hub.outbox), ws, ErrorReply(DuplicateProjectName))
      ensures !outcome.DuplicateName? ==>
        && outcome.id == old(store.lastProjectId) + 1
        && store.projects == old(store.projects)[outcome.id := name]
        && registry.currentProject == old(registry.currentProject)[ws := outcome.id]
        && registry.SelectedProject(ws) == Some(outcome.id)
      ensures outcome.IndexClash? ==>
        && store.files == old(store.files)
        && hub.outbox == Sent(old(hub.outbox), ws, ErrorReply(IndexPathTaken))
      ensures outcome.Created? ==>
        && store.files == old(store.files)[FileKey(outcome.id, IndexPath) := FileRecord(IndexContent(name), 1, "javascript")]
        && hub.outbox == SentAll(old(hub.outbox), ws,
                                 [ProjectCreated(outcome.id, name), Init(Snapshot(store.files, outcome.id), outcome.id)])
    {
      outcome := store.CreateProject(name);
      if outcome.DuplicateName? {
        hub.Send(ws, ErrorReply(DuplicateProjectName));
        return;
      }
      registry.SelectProject(ws, outcome.id);
      if outcome.IndexClash? {
        hub.Send(ws, ErrorReply(IndexPathTaken));
        return;
      }
      ghost var before := hub.outbox;
      hub.Send(ws, ProjectCreated(outcome.id, name));
      hub.Send(ws, Init(Snapshot(store.files, outcome.id), outcome.id));
      SentTwice(before, ws, ProjectCreated(outcome.id, name), Init(Snapshot(store.files, outcome.id), outcome.id));
    }

    /** `loadProject` (server/server.js:170-182): a falsy id is refused; any other is selected and its files sent. */
    method OnLoadProject(ws: ConnId, projectId: Option<int>)
      requires Valid() && ws in hub.open
      modifies registry, hub
      ensures Valid() && hub.open == old(hub.open) && registry.settings == old(registry.settings)
      ensures projectId.None? || projectId.value == 0 ==>
        && registry.currentProject == old(registry.currentProject)
        && hub.outbox == Sent(old(hub.outbox), ws, ErrorReply(NoProjectIdToLoad))
      ensures projectId.Some? && projectId.value != 0 ==>
        && registry.currentProject == old(registry.currentProject)[ws := projectId.value]
        && hub.outbox == Sent(old(hub.outbox), ws, Init(Snapshot(store.files, projectId.value), projectId.value))
    {
      if projectId.None? || projectId.value == 0 {
        hub.Send(ws, ErrorReply(NoProjectIdToLoad));
        return;
      }
      registry.SelectProject(ws, projectId.value);
      hub.Send(ws, Init(Snapshot(store.files, projectId.value), projectId.value));
    }

    /**
     * The write-then-diff step shared by `update`, `applyCode` and
     * auto-apply: the row is written and every open connection receives the
     * patch against the old content, with the stored language.
     */
    method WriteAndAnnounce(key: FileKey, content: string, language: Option<string>) returns (stored: string)
      requires Valid()
      modifies store, hub
      ensures Valid() && hub.open == old(hub.open)
      ensures stored == (if language.Some? then language.value else KeptLanguage(old(store.files), key))
      ensures store.files == Written(old(store.files), key, content, stored)
      ensures store.projects == old(store.projects) && store.lastProjectId == old(store.lastProjectId)
      ensures hub.outbox ==
        Fanout(old(hub.outbox), hub.open, Diff(key.path, Patch(key.path, PriorContent(old(store.files), key), content), stored))
    {
      var patch;
      patch, stored := store.Write(key, content, language);
      hub.Broadcast(Diff(key.path, patch, stored));
    }

    /** `update` (server/server.js:183-202). Without a selected project: an error and no change. */
    method OnUpdate(ws: ConnId, path: string, content: string)
      requires Valid() && ws in hub.open
      modifies store, hub
      ensures Valid() && hub.open == old(hub.open)
      ensures store.projects == old(store.projects) && store.lastProjectId == old(store.lastProjectId)
      ensures registry.SelectedProject(ws).None? ==>
        && store.files == old(store.files)
        && hub.outbox == Sent(old(hub.outbox), ws, ErrorReply(NoProjectSelected("update file")))
      ensures registry.SelectedProject(ws).Some? ==>
        var key := FileKey(registry.SelectedProject(ws).value, path);
        var lang := KeptLanguage(old(store.files), key);
        && store.files == Written(old(store.files), key, content, lang)
        && hub.outbox == Fanout(old(hub.outbox), hub.open, Diff(path, Patch(path, PriorContent(old(store.files), key), content), lang))
    {
      var project := registry.SelectedProject(ws);
      if project.None? {
        hub.Send(ws, ErrorReply(NoProjectSelected("update file")));
        return;
      }
      var _ := WriteAndAnnounce(FileKey(project.value, path), content, None);
    }

    /** `applyCode` (server/server.js:270-285): the same write, silently skipped when project, path or content is falsy. */
    method OnApplyCode(ws: ConnId, path: string, content: string)
      requires Valid() && ws in hub.open
      modifies store, hub
      ensures Valid() && hub.open == old(hub.open)
      ensures store.projects == old(store.projects) && store.lastProjectId == old(store.lastProjectId)
      ensures registry.SelectedProject(ws).None? || path == "" || content == "" ==>
        store.files == old(store.files) && hub.outbox == old(hub.outbox)
      ensures registry.SelectedProject(ws).Some? && path != "" && content != "" ==>
        var key := FileKey(registry.SelectedProject(ws).value, path);
        var lang := KeptLanguage(old(store.files), key);
        && store.files == Written(old(store.files), key, content, lang)
        && hub.outbox == Fanout(old(hub.outbox), hub.open, Diff(path, Patch(path, PriorContent(old(store.files), key), content), lang))
    {
      var project := registry.SelectedProject(ws);
      if project.Some? && path != "" && content != "" {
        var _ := WriteAndAnnounce(FileKey(project.value, path), content, None);
      }
    }

    /**
     * The provider calls and replies of a chat (server/server.js:225-253):
     * the first `callAI` answer, then at most one auto-argue round whose
     * conversation grows by the first answer and the issues prompt.
     */
    method Answer(ws: ConnId, messages: seq<ChatMessage>, settings: Settings, respond: Responder, validate: Validator)
      returns (codeBlock: Option<CodeBlock>, calls: seq<Call>, waits: seq<nat>)
      requires Valid() && ws in hub.open
      modifies hub
      ensures Valid() && hub.open == old(hub.open)
      ensures var conv := Converse(messages, settings, validate, respond);
        && codeBlock == conv.codeBlock && calls == conv.calls && waits == conv.waits
        && hub.outbox == SentAll(old(hub.outbox), ws, conv.replies)
    {
      var first;
      first, calls, waits := CallAI(messages, settings.apiKeys, settings.failoverOrder, MaxRetries, respond);
      ghost var before := hub.outbox;
      hub.Send(ws, ReplyOf(first, ""));
      codeBlock := first.codeBlock;
      if codeBlock.Some? && codeBlock.value.language == "python" && settings.autoArgueWithAI {
        var issues := validate(codeBlock.value.content);
        if |issues| > 0 {
          var argued := ArgueMessages(messages, first, issues);
          var second, moreCalls, moreWaits := CallAI(argued, settings.apiKeys, settings.failoverOrder, MaxRetries, respond);
          hub.Send(ws, ReplyOf(second, ArguedPrefix));
          SentTwice(before, ws, ReplyOf(first, ""), ReplyOf(second, ArguedPrefix));
          calls, waits := calls + moreCalls, waits + moreWaits;
          codeBlock := second.codeBlock;
        }
      }
    }

    /**
     * A chat once the key gate and the project check have passed
     * (server/server.js:217-267): the conversation of `Converse` over the
     * project's files, then auto-apply of the final code block, which
     * overrides the stored language.
     */
    method ChatInProject(ws: ConnId, project: int, settings: Settings, chatInput: string, path: string,
                         respond: Responder, validate: Validator)
      returns (calls: seq<Call>, waits: seq<nat>)
      requires Valid() && ws in hub.open
      modifies store, hub
      ensures Valid() && hub.open == old(hub.open)
      ensures store.projects == old(store.projects) && store.lastProjectId == old(store.lastProjectId)
      ensures var conv := Converse(ChatContext(old(store.files), project, chatInput), settings, validate, respond);
        var answered := SentAll(old(hub.outbox), ws, conv.replies);
        && calls == conv.calls && waits == conv.waits
        && (!AutoApplies(settings, conv.codeBlock, path) ==> store.files == old(store.files) && hub.outbox == answered)
        && (AutoApplies(settings, conv.codeBlock, path) ==>
              var key := FileKey(project, path);
              var block := conv.codeBlock.value;
              && store.files == Written(old(store.files), key, block.content, block.language)
              && hub.outbox == Fanout(answered, hub.open,
                                      Diff(path, Patch(path, PriorContent(old(store.files), key), block.content), block.language)))
    {
      var codeBlock;
      codeBlock, calls, waits := Answer(ws, ChatContext(store.files, project, chatInput), settings, respond, validate);
      if settings.autoApplyCode && codeBlock.Some? && path != "" {
        var _ := WriteAndAnnounce(FileKey(project, path), codeBlock.value.content, Some(codeBlock.value.language));
      }
    }

    /**
     * `chat` (server/server.js:203-269). Without settings or any non-empty
     * key: the fixed reply, before the project check and with no provider
     * call. Without a project: an error and no call. Otherwise as
     * `ChatInProject` with the session's settings and project.
     */
    method OnChat(ws: ConnId, chatInput: string, path: string, respond: Responder, validate: Validator)
      returns (calls: seq<Call>, waits: seq<nat>)
      requires Valid() && ws in hub.open
      modifies store, hub
      ensures Valid() && hub.open == old(hub.open)
      ensures store.projects == old(store.projects) && store.lastProjectId == old(store.lastProjectId)
      ensures !KeysConfigured(ws) ==>
        && calls == [] && waits == [] && store.files == old(store.files)
        && hub.outbox == Sent(old(hub.outbox), ws, NoKeysReply)
      ensures KeysConfigured(ws) && registry.SelectedProject(ws).None? ==>
        && calls == [] && waits == [] && store.files == old(store.files)
        && hub.outbox == Sent(old(hub.outbox), ws, ErrorReply(NoProjectForChat))
      ensures KeysConfigured(ws) && registry.SelectedProject(ws).Some? ==>
        var settings := registry.settings[ws];
        var project := registry.SelectedProject(ws).value;
        var conv := Converse(ChatContext(old(store.files), project, chatInput), settings, validate, respond);
        var answered := SentAll(old(hub.outbox), ws, conv.replies);
        && calls == conv.calls && waits == conv.waits
        && (!AutoApplies(settings, conv.codeBlock, path) ==> store.files == old(store.files) && hub.outbox == answered)
        && (AutoApplies(settings, conv.codeBlock, path) ==>
              var key := FileKey(project, path);
              var block := conv.codeBlock.value;
              && store.files == Written(old(store.files), key, block.content, block.language)
              && hub.outbox == Fanout(answered, hub.open,
                                      Diff(path, Patch(path, PriorContent(old(store.files), key), block.content), block.language)))
    {
      if !KeysConfigured(ws) {
        hub.Send(ws, NoKeysReply);
        return [], [];
      }
      var project := registry.SelectedProject(ws);
      if project.None? {
        hub.Send(ws, ErrorReply(NoProjectForChat));
        return [], [];
      }
      calls, waits := ChatInProject(ws, project.value, registry.settings[ws], chatInput, path, respond, validate);
    }

    /**
     * `createFile` / `createFolder` (server/server.js:286-300): an empty row
     * with the inferred language, announced to every open connection. A key
     * that already exists violates `UNIQUE`: nothing changes, nothing is sent.
     */
    method OnCreateEntry(ws: ConnId, kind: EntryKind, path: string)
      requires Valid() && ws in hub.open
      modifies store, hub
      ensures Valid() && hub.open == old(hub.open)
      ensures store.projects == old(store.projects) && store.lastProjectId == old(store.lastProjectId)
      ensures registry.SelectedProject(ws).None? ==>
        && store.files == old(store.files)
        && hub.outbox == Sent(old(hub.outbox), ws, ErrorReply(NoProjectSelected(KindName(kind))))
      ensures registry.SelectedProject(ws).Some? ==>
        var key := FileKey(registry.SelectedProject(ws).value, path);
        && (key in old(store.files) ==> store.files == old(store.files) && hub.outbox == old(hub.outbox))
        && (key !in old(store.files) ==>
              && store.files == old(store.files)[key := NewEntry(path)]
              && hub.outbox == Fanout(old(hub.outbox), hub.open, EntryCreated(kind, path, InferLanguage(path))))
    {
      var project := registry.SelectedProject(ws);
      if project.None? {
        hub.Send(ws, ErrorReply(NoProjectSelected(KindName(kind))));
        return;
      }
      var created := store.CreateEntry(FileKey(project.value, path));
      if created {
        hub.Broadcast(EntryCreated(kind, path, InferLanguage(path)));
      }
    }

    /**
     * `rename` (server/server.js:301-316): only the exact key moves, and
     * the event is announced even when there was no such row. A target that
     * already exists violates `UNIQUE`: nothing changes, nothing is sent.
     */
    method OnRename(ws: ConnId, path: string, newPath: string)
      requires Valid() && ws in hub.open
      modifies store, hub
      ensures Valid() && hub.open == old(hub.open)
      ensures store.projects == old(store.projects) && store.lastProjectId == old(store.lastProjectId)
      ensures registry.SelectedProject(ws).None? ==>
        && store.files == old(store.files)
        && hub.outbox == Sent(old(hub.outbox), ws, ErrorReply(NoProjectSelected("rename file")))
      ensures registry.SelectedProject(ws).Some? ==>
        var from := FileKey(registry.SelectedProject(ws).value, path);
        var to := FileKey(registry.SelectedProject(ws).value, newPath);
        && (from !in old(store.files) ==>
              store.files == old(store.files) && hub.outbox == Fanout(old(hub.outbox), hub.open, RenameEvent(path, newPath)))
        && (from in old(store.files) && newPath != path && to in old(store.files) ==>
              store.files == old(store.files) && hub.outbox == old(hub.outbox))
        && (from in old(store.files) && (newPath == path || to !in old(store.files)) ==>
              && store.files == Renamed(old(store.files), from, to)
              && hub.outbox == Fanout(old(hub.outbox), hub.open, RenameEvent(path, newPath)))
    {
      var project := registry.SelectedProject(ws);
      if project.None? {
        hub.Send(ws, ErrorReply(NoProjectSelected("rename file")));
        return;
      }
      var outcome := store.Rename(project.value, path, newPath);
      if outcome != Clash {
        hub.Broadcast(RenameEvent(path, newPath));
      }
    }

    /** `delete` (server/server.js:317-329): every row of the project under the prefix, announced to all. */
    method OnDelete(ws: ConnId, path: string)
      requires Valid() && ws in hub.open
      modifies store, hub
      ensures Valid() && hub.open == old(hub.open)
      ensures store.projects == old(store.projects) && store.lastProjectId == old(store.lastProjectId)
      ensures registry.SelectedProject(ws).None? ==>
        && store.files == old(store.files)
        && hub.outbox == Sent(old(hub.outbox), ws, ErrorReply(NoProjectSelected("delete file")))
      ensures registry.SelectedProject(ws).Some? ==>
        && store.files == WithoutPrefix(old(store.files), registry.SelectedProject(ws).value, path)
        && hub.outbox == Fanout(old(hub.outbox), hub.open, DeleteEvent(path))
    {
      var project := registry.SelectedProject(ws);
      if project.None? {
        hub.Send(ws, ErrorReply(NoProjectSelected("delete file")));
        return;
      }
      store.DeletePrefix(project.value, path);
      hub.Broadcast(DeleteEvent(path));
    }

    /** `export` (server/server.js:330-338): path to content of the selected project, to the requester only. */
    method OnExport(ws: ConnId)
      requires Valid() && ws in hub.open
      modifies hub
      ensures Valid() && hub.open == old(hub.open)
      ensures registry.SelectedProject(ws).None? ==>
        hub.outbox == Sent(old(hub.outbox), ws, ErrorReply(NoProjectSelected("export")))
      ensures registry.SelectedProject(ws).Some? ==>
        hub.outbox == Sent(old(hub.outbox), ws, ExportReply(ExportOf(store.files, registry.SelectedProject(ws).value)))
    {
      var project := registry.SelectedProject(ws);
      if project.None? {
        hub.Send(ws, ErrorReply(NoProjectSelected("export")));
        return;
      }
      hub.Send(ws, ExportReply(ExportOf(store.files, project.value)));
    }

    /** The close handler (server/server.js:342-346): the session is forgotten and broadcasts stop. */
    method OnClose(ws: ConnId)
      requires Valid()
      modifies registry, hub
      ensures Valid()
      ensures registry.settings == old(registry.settings) - {ws}
      ensures registry.currentProject == old(registry.currentProject) - {ws}
      ensures hub.outbox == old(hub.outbox) && hub.open == old(hub.open) - {ws}
    {
      registry.Forget(ws);
      hub.Disconnect(ws);
    }
  }
}

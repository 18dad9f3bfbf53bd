/**
 * What the server sends: the JSON messages of server/server.js as a
 * datatype, and the connections' outboxes. `ws.send` appends to one outbox;
 * the `wss.clients.forEach` loops append to every open connection's outbox.
 */
module Broadcast {
  import opened Wrappers
  import opened CodeFence
  import opened Failover
  import opened FileStore
  import opened Sessions

  /** Which of `createFile` and `createFolder` a request was. */
  datatype EntryKind = FileEntry | FolderEntry

  /** The `type` of a create request, as echoed in its error text and its broadcast. */
  function KindName(kind: EntryKind): string {
    match kind
    case FileEntry => "createFile"
    case FolderEntry => "createFolder"
  }

  /** The messages a connection receives (the `log` and `chatStatus` ones aside). */
  datatype Message =
    | SettingsSet
    | ProjectsList(projects: map<int, string>)
    | ProjectCreated(projectId: int, projectName: string)
    | Init(files: map<string, FileRecord>, currentProjectId: int)
    | Diff(path: string, patch: Patch, language: string)
    | ChatReply(content: string, provider: string, codeBlock: Option<CodeBlock>, rateLimit: Option<RateLimit>)
    | EntryCreated(kind: EntryKind, path: string, language: string)
    | RenameEvent(oldPath: string, newPath: string)
    | DeleteEvent(path: string)
    | ExportReply(exported: map<string, string>)
    | ErrorReply(message: string)

  /** `ws.send(m)` on one connection. */
  function Sent(outbox: map<ConnId, seq<Message>>, ws: ConnId, m: Message): (r: map<ConnId, seq<Message>>)
    requires ws in outbox
    ensures r.Keys == outbox.Keys && r[ws] == outbox[ws] + [m]
    ensures forall c :: c in outbox && c != ws ==> r[c] == outbox[c]
  {
    outbox[ws := outbox[ws] + [m]]
  }

  /** Several `ws.send` on one connection, in order. */
  function SentAll(outbox: map<ConnId, seq<Message>>, ws: ConnId, ms: seq<Message>): (r: map<ConnId, seq<Message>>)
    requires ws in outbox
    ensures r.Keys == outbox.Keys && r[ws] == outbox[ws] + ms
    ensures forall c :: c in outbox && c != ws ==> r[c] == outbox[c]
  {
    outbox[ws := outbox[ws] + ms]
  }

  lemma SentTwice(outbox: map<ConnId, seq<Message>>, ws: ConnId, a: Message, b: Message)
    requires ws in outbox
    ensures Sent(Sent(outbox, ws, a), ws, b) == SentAll(outbox, ws, [a, b])
  {
    assert outbox[ws] + [a] + [b] == outbox[ws] + [a, b];
  }

  /** `m` appended once to each connection of `to`, every other outbox untouched. */
  function Fanout(outbox: map<ConnId, seq<Message>>, to: set<ConnId>, m: Message): (r: map<ConnId, seq<Message>>)
    ensures r.Keys == outbox.Keys
    ensures forall c :: c in outbox ==> r[c] == if c in to then outbox[c] + [m] else outbox[c]
  {
    map c | c in outbox :: if c in to then outbox[c] + [m] else outbox[c]
  }

  /** Fanning out to one more connection is sending to it. */
  lemma FanoutStep(outbox: map<ConnId, seq<Message>>, to: set<ConnId>, c: ConnId, m: Message)
    requires c in outbox && c !in to
    ensures Fanout(outbox, to + {c}, m) == Sent(Fanout(outbox, to, m), c, m)
  {
  }

  /** One more open connection served by the broadcast loop. */
  lemma FanoutGrows(outbox: map<ConnId, seq<Message>>, open: set<ConnId>, remaining: set<ConnId>, c: ConnId, m: Message)
    requires open <= outbox.Keys && remaining <= open && c in remaining
    ensures Fanout(outbox, open - (remaining - {c}), m) == Sent(Fanout(outbox, open - remaining, m), c, m)
  {
    assert open - (remaining - {c}) == (open - remaining) + {c};
    FanoutStep(outbox, open - remaining, c, m);
  }

  /** Every connection ever opened has an outbox; `open` are those whose `readyState` is OPEN. */
  class Hub {
    var outbox: map<ConnId, seq<Message>>
    var open: set<ConnId>

    ghost predicate Valid()
      reads this
    {
      open <= outbox.Keys
    }

    constructor()
      ensures Valid() && outbox == map[] && open == {}
    {
      outbox, open := map[], {};
    }

    /** A new connection: open, with nothing received yet. */
    method Connect(ws: ConnId)
      requires Valid() && ws !in outbox
      modifies this
      ensures Valid()
      ensures outbox == old(outbox)[ws := []] && open == old(open) + {ws}
    {
      outbox := outbox[ws := []];
      open := open + {ws};
    }

    /** A closed connection receives no more broadcasts; what it received stays. */
    method Disconnect(ws: ConnId)
      requires Valid()
      modifies this
      ensures Valid()
      ensures outbox == old(outbox) && open == old(open) - {ws}
    {
      open := open - {ws};
    }

    method Send(ws: ConnId, m: Message)
      requires Valid() && ws in outbox
      modifies this
      ensures Valid()
      ensures outbox == Sent(old(outbox), ws, m) && open == old(open)
    {
      outbox := outbox[ws := outbox[ws] + [m]];
    }

    /** The `wss.clients.forEach(client => { if OPEN, send })` loop. */
    method Broadcast(m: Message)
      requires Valid()
      modifies this
      ensures Valid()
      ensures outbox == Fanout(old(outbox), open, m) && open == old(open)
    {
      var remaining := open;
      while remaining != {}
        invariant remaining <= open && open == old(open) && Valid()
        invariant outbox == Fanout(old(outbox), open - remaining, m)
        decreases |remaining|
      {
        var c :| c in remaining;
        FanoutGrows(old(outbox), open, remaining, c, m);
        outbox := Sent(outbox, c, m);
        remaining := remaining - {c};
      }
    }
  }
}

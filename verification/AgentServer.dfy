/** `/agent`: the connections extensions open, the frame loop each of them runs, and who owns which session. */
module AgentServer {
  import opened Text
  import opened Session
  import opened Registry

  /** A frame from an extension. A field that is absent or has the wrong type is `None`; `Other` is anything
      that is not text, not JSON or of an unknown type. */
  datatype AgentFrame =
    | RegisterFrame(sessionId: Option<Id>, sessionFile: Option<string>, sessionName: Option<string>, cwd: Option<string>)
    | MetaUpdate(patch: Option<Patch>)
    | EventFrame(event: Option<string>)
    | ResponseFrame(response: Option<string>)
    | Other

  /** What a connection's writer task is handed: acknowledgements, commands sent through a handle, and the
      request to close that a replaced handle gets. */
  datatype Out = Registered(id: Id) | Command(handle: nat, body: string) | CloseRequest

  /** One connection: whether its loop still runs, the loop's `session_id`, the writer's queue, and the frames
      the loop has read. */
  datatype Conn = Conn(open: bool, session: Option<Id>, outbox: seq<Out>, received: seq<AgentFrame>)

  const NEW_CONN := Conn(true, None, [], [])

  function MetaOf(f: AgentFrame, now: int): Meta
    requires f.RegisterFrame? && f.sessionId.Some?
  {
    Meta(f.sessionId.value, f.sessionFile, f.sessionName, if f.cwd.Some? then f.cwd.value else "", now)
  }

  /** One turn of the frame loop. */
  function ReceiveHub(h: Hub, conn: ConnId, session: Option<Id>, f: AgentFrame, now: int): Hub {
    match f
    case RegisterFrame(id, _, _, _) => if id.Some? then RegisterStep(h, Remote(conn), MetaOf(f, now)) else h
    case MetaUpdate(patch) => if session.Some? && patch.Some? then UpdateMetaStep(h, session.value, patch.value) else h
    case EventFrame(event) =>
      if session.Some? && event.Some? then PublishStep(h, session.value, Payload(conn, event.value)) else h
    case ResponseFrame(response) =>
      if session.Some? && response.Some? then PublishStep(h, session.value, Payload(conn, response.value)) else h
    case Other => h
  }

  function ReceiveConn(c: Conn, f: AgentFrame): Conn {
    var read := c.(received := c.received + [f]);
    if f.RegisterFrame? && f.sessionId.Some?
    then read.(session := f.sessionId, outbox := c.outbox + [Registered(f.sessionId.value)]) else read
  }

  /** A register frame with an id enters a handle of this connection under that id, with the frame's fields as its
      metadata, and is acknowledged. */
  lemma RegisterFrameEnters(h: Hub, conn: ConnId, c: Conn, id: Id, file: Option<string>, name: Option<string>,
                            cwd: Option<string>, now: int)
    ensures var f := RegisterFrame(Some(id), file, name, cwd);
      var g, d := ReceiveHub(h, conn, c.session, f, now), ReceiveConn(c, f);
      && |g.handles| == |h.handles| + 1 && g.sessions == h.sessions[id := |h.handles|]
      && d.session == Some(id) && d.outbox == c.outbox + [Registered(id)]
      && var handle := g.handles[|h.handles|];
         && handle.link == Remote(conn) && handle.connected
         && handle.meta.sessionId == id && handle.meta.sessionFile == file && handle.meta.sessionName == name
         && handle.meta.cwd == (if cwd.Some? then cwd.value else "") && handle.meta.connectedAtMs == now
  {
  }

  /** A metadata frame changes the fields it has in the entry of the connection's session, and nothing else of it. */
  lemma MetaFrameChanges(h: Hub, conn: ConnId, id: Id, p: Patch, now: int)
    requires id in h.sessions && h.sessions[id] < |h.handles|
    ensures var g := ReceiveHub(h, conn, Some(id), MetaUpdate(Some(p)), now);
      && g.sessions == h.sessions && |g.handles| == |h.handles|
      && var before, after := h.handles[h.sessions[id]].meta, g.handles[h.sessions[id]].meta;
         && after.sessionName == (if p.sessionName.Some? then Some(p.sessionName.value) else before.sessionName)
         && after.sessionFile == (if p.sessionFile.Some? then Some(p.sessionFile.value) else before.sessionFile)
         && after.cwd == (if p.cwd.Some? then p.cwd.value else before.cwd)
         && after.sessionId == before.sessionId && after.connectedAtMs == before.connectedAtMs
  {
  }

  // --- The frame loop of one connection ------------------------------------------------------------

  /** A frame and the time it is handled at. */
  datatype Arrival = Arrival(frame: AgentFrame, now: int)

  function ServeHub(h: Hub, conn: ConnId, c: Conn, arrivals: seq<Arrival>): Hub
    decreases |arrivals|
  {
    if arrivals == [] then h
    else
      var a := arrivals[0];
      ServeHub(ReceiveHub(h, conn, c.session, a.frame, a.now), conn, ReceiveConn(c, a.frame), arrivals[1..])
  }

  function ServeConn(c: Conn, arrivals: seq<Arrival>): Conn
    decreases |arrivals|
  {
    if arrivals == [] then c else ServeConn(ReceiveConn(c, arrivals[0].frame), arrivals[1..])
  }

  class AgentConnection {
    const conn: ConnId
    const registry: SessionRegistry
    var sessionId: Option<Id>
    var outbox: seq<Out>
    ghost var received: seq<AgentFrame>
    var reading: bool

    ghost function State(): Conn
      reads this
    {
      Conn(reading, sessionId, outbox, received)
    }

    constructor (registry: SessionRegistry, conn: ConnId)
      ensures this.registry == registry && this.conn == conn && State() == NEW_CONN
    {
      this.registry, this.conn := registry, conn;
      sessionId, outbox, received, reading := None, [], [], true;
    }

    method Receive(frame: AgentFrame, now: int)
      requires Inv(registry.State())
      modifies this, registry
      ensures Inv(registry.State())
      ensures registry.State() == ReceiveHub(old(registry.State()), conn, old(sessionId), frame, now)
      ensures State() == ReceiveConn(old(State()), frame)
    {
      hide Inv, RegisterStep, UpdateMetaStep, PublishStep;
      received := received + [frame];
      match frame {
        case RegisterFrame(id, _, _, _) =>
          if id.Some? {
            var _, _ := registry.RegisterSession(Remote(conn), MetaOf(frame, now));
            sessionId := id;
            outbox := outbox + [Registered(id.value)];
          }
        case MetaUpdate(patch) =>
          if sessionId.Some? && patch.Some? { registry.UpdateSessionMeta(sessionId.value, patch.value); }
        case EventFrame(event) =>
          if sessionId.Some? && event.Some? { registry.PublishPayload(sessionId.value, Payload(conn, event.value)); }
        case ResponseFrame(response) =>
          if sessionId.Some? && response.Some? {
            registry.PublishPayload(sessionId.value, Payload(conn, response.value));
          }
        case Other =>
      }
    }

    /** The loop ended: the session, if there is one, is unregistered by its id. */
    method Finish()
      requires Inv(registry.State())
      modifies this, registry
      ensures Inv(registry.State())
      ensures registry.State() == if old(sessionId).Some? then UnregisterStep(old(registry.State()), old(sessionId).value)
                                  else old(registry.State())
      ensures State() == old(State()).(open := false)
    {
      if sessionId.Some? { registry.UnregisterSession(sessionId.value); }
      reading := false;
    }

    /** The whole of a connection that nobody interferes with. */
    method Handle(arrivals: seq<Arrival>)
      requires Inv(registry.State())
      modifies this, registry
      ensures Inv(registry.State())
      ensures var h := ServeHub(old(registry.State()), conn, old(State()), arrivals);
        var c := ServeConn(old(State()), arrivals);
        && State() == c.(open := false)
        && registry.State() == if c.session.Some? then UnregisterStep(h, c.session.value) else h
    {
      hide Inv, ReceiveHub, ReceiveConn, UnregisterStep;
      var rest := arrivals;
      while rest != []
        invariant Inv(registry.State())
        invariant ServeHub(registry.State(), conn, State(), rest)
               == ServeHub(old(registry.State()), conn, old(State()), arrivals)
        invariant ServeConn(State(), rest) == ServeConn(old(State()), arrivals)
        decreases |rest|
      {
        Receive(rest[0].frame, rest[0].now);
        rest := rest[1..];
      }
      Finish();
    }
  }

  /** A connection that nobody interferes with, among all connections, is the run of its frames and its close. */
  function Alone(conn: ConnId, arrivals: seq<Arrival>): seq<Happening>
    decreases |arrivals|
  {
    if arrivals == [] then [Close(conn)]
    else [Happening.Receive(conn, arrivals[0].frame, arrivals[0].now)] + Alone(conn, arrivals[1..])
  }

  lemma {:induction false} HandleIsRun(s: Server, conn: ConnId, arrivals: seq<Arrival>)
    requires IsOpen(s, conn)
    ensures var c := ServeConn(s.conns[conn], arrivals);
      var h := ServeHub(s.hub, conn, s.conns[conn], arrivals);
      var t := Run(s, Alone(conn, arrivals));
      && conn in t.conns && t.conns[conn] == c.(open := false)
      && t.hub == if c.session.Some? then UnregisterStep(h, c.session.value) else h
    decreases |arrivals|
  {
    hide ReceiveHub, ReceiveConn, UnregisterStep;
    var run := Alone(conn, arrivals);
    RunFirst(s, run);
    if arrivals == [] {
      assert run[1..] == [];
      RunNothing(Next(s, Close(conn)));
    } else {
      var a := arrivals[0];
      assert run[1..] == Alone(conn, arrivals[1..]);
      var t := Next(s, Happening.Receive(conn, a.frame, a.now));
      StaysOpen(s, conn, a.frame, a.now);
      HandleIsRun(t, conn, arrivals[1..]);
    }
  }

  lemma StaysOpen(s: Server, conn: ConnId, f: AgentFrame, now: int)
    requires IsOpen(s, conn)
    ensures IsOpen(Next(s, Happening.Receive(conn, f, now)), conn)
  {
    hide ReceiveHub;
  }

  // --- The event forwarder of a phone's connection -------------------------------------------------

  function Bodies(payloads: seq<Payload>): seq<string> {
    seq(|payloads|, i requires 0 <= i < |payloads| => payloads[i].body)
  }

  /** It follows the one handle it was started for, whatever the registry does meanwhile. */
  class EventForwarder {
    const handle: nat
    ghost var subscribedAt: nat
    var cursor: nat
    var sent: seq<string>

    ghost predicate Valid(events: seq<Payload>)
      reads this
    {
      subscribedAt <= cursor <= |events| && sent == Bodies(events[subscribedAt..cursor])
    }

    constructor (registry: SessionRegistry, handle: nat)
      requires handle < |registry.handles|
      ensures this.handle == handle && Valid(registry.handles[handle].events)
      ensures subscribedAt == |registry.handles[handle].events|
    {
      this.handle, subscribedAt := handle, |registry.handles[handle].events|;
      cursor, sent := |registry.handles[handle].events|, [];
    }

    /** The forwarding loop, until nothing is left to receive or, after `turns` events, a send fails or the notice
        that the session is disconnected comes first. */
    method Forward(registry: SessionRegistry, turns: nat)
      requires handle < |registry.handles| && Valid(registry.handles[handle].events)
      modifies this
      ensures Valid(registry.handles[handle].events) && subscribedAt == old(subscribedAt)
      ensures var n := |registry.handles[handle].events|;
        cursor == if n <= old(cursor) + turns then n else old(cursor) + turns
    {
      var events, left := registry.handles[handle].events, turns;
      while cursor < |events| && left > 0
        invariant Valid(events) && subscribedAt == old(subscribedAt)
        invariant cursor == old(cursor) + (turns - left)
      {
        assert events[subscribedAt..cursor + 1] == events[subscribedAt..cursor] + [events[cursor]];
        sent := sent + [events[cursor].body];
        cursor, left := cursor + 1, left - 1;
      }
    }
  }

  // --- All connections together --------------------------------------------------------------------

  /** `headless` are the ids of processes the Hub spawned itself; `closing` are the replaced handles whose
      spawned shutdown has yet to run. */
  datatype Server = Server(hub: Hub, conns: map<ConnId, Conn>, headless: set<Id>, closing: set<nat>)

  const START := Server(EMPTY_HUB, map[], {}, {})

  datatype Happening =
    | Open(conn: ConnId)
    | Receive(conn: ConnId, frame: AgentFrame, now: int)
    | Close(conn: ConnId)
    | SpawnHeadless(meta: Meta)
    | HeadlessExit(id: Id)
    | Send(handle: nat, body: string)
    | Shutdown(handle: nat)
    | Watcher(handle: nat, status: Status)
    | TakeReceiver(handle: nat)
    | DropReceiver(handle: nat)

  predicate IsOpen(s: Server, c: ConnId) { c in s.conns && s.conns[c].open }

  predicate Holds(s: Server, c: ConnId, id: Id) { IsOpen(s, c) && s.conns[c].session == Some(id) }

  function Replaces(h: Hub, id: Id): set<nat> { if id in h.sessions then {h.sessions[id]} else {} }

  function CloseStep(s: Server, c: ConnId): Server {
    if !IsOpen(s, c) then s
    else
      var hub := if s.conns[c].session.Some? then UnregisterStep(s.hub, s.conns[c].session.value) else s.hub;
      s.(hub := hub, conns := s.conns[c := s.conns[c].(open := false)])
  }

  function ReceiveStep(s: Server, c: ConnId, f: AgentFrame, now: int): Server {
    if !IsOpen(s, c) then s
    else
      s.(hub := ReceiveHub(s.hub, c, s.conns[c].session, f, now),
         conns := s.conns[c := ReceiveConn(s.conns[c], f)],
         closing := if f.RegisterFrame? && f.sessionId.Some? then s.closing + Replaces(s.hub, f.sessionId.value)
                    else s.closing)
  }

  /** A handle's link takes messages as long as its connection's writer runs. */
  function Enqueue(s: Server, n: nat, message: Out): Server {
    if n < |s.hub.handles| && s.hub.handles[n].link.Remote? && IsOpen(s, s.hub.handles[n].link.conn) then
      var c := s.hub.handles[n].link.conn;
      s.(conns := s.conns[c := s.conns[c].(outbox := s.conns[c].outbox + [message])])
    else s
  }

  function SpawnStep(s: Server, meta: Meta): Server {
    s.(hub := RegisterStep(s.hub, Headless, meta), headless := s.headless + {meta.sessionId},
       closing := s.closing + Replaces(s.hub, meta.sessionId))
  }

  function ExitStep(s: Server, id: Id): Server {
    if id in s.headless then s.(hub := UnregisterStep(s.hub, id), headless := s.headless - {id}) else s
  }

  function Next(s: Server, a: Happening): Server {
    match a
    case Open(c) => if c in s.conns then s else s.(conns := s.conns[c := NEW_CONN])
    case Receive(c, f, now) => ReceiveStep(s, c, f, now)
    case Close(c) => CloseStep(s, c)
    case SpawnHeadless(meta) => SpawnStep(s, meta)
    case HeadlessExit(id) => ExitStep(s, id)
    case Send(n, body) => Enqueue(s, n, Command(n, body))
    case Shutdown(n) => if n in s.closing then Enqueue(s, n, CloseRequest).(closing := s.closing - {n}) else s
    case Watcher(n, status) => s.(hub := StatusStep(s.hub, n, status))
    case TakeReceiver(n) => s.(hub := SubscribeStep(s.hub, n))
    case DropReceiver(n) => s.(hub := DropStep(s.hub, n))
  }

  function Run(s: Server, run: seq<Happening>): Server
    decreases |run|
  {
    if run == [] then s else Run(Next(s, run[0]), run[1..])
  }

  /** What extensions do: a connection registers once, and never an id that another open connection or a
      process of the Hub holds. The Hub gives its own processes fresh ids. */
  ghost predicate Disciplined(s: Server, a: Happening) {
    match a
    case Receive(c, f, _) =>
      f.RegisterFrame? && f.sessionId.Some? && IsOpen(s, c) ==>
        s.conns[c].session.None? && Unclaimed(s, f.sessionId.value)
    case SpawnHeadless(meta) => Unclaimed(s, meta.sessionId)
    case _ => true
  }

  ghost predicate Unclaimed(s: Server, id: Id) { id !in s.headless && forall c | IsOpen(s, c) :: !Holds(s, c, id) }

  ghost predicate DisciplinedRun(s: Server, run: seq<Happening>)
    decreases |run|
  {
    run == [] || (Disciplined(s, run[0]) && DisciplinedRun(Next(s, run[0]), run[1..]))
  }

  // --- Ownership -----------------------------------------------------------------------------------

  predicate HasRegistered(frames: seq<AgentFrame>) {
    exists i | 0 <= i < |frames| :: frames[i].RegisterFrame? && frames[i].sessionId.Some?
  }

  function PayloadOf(c: ConnId, f: AgentFrame): seq<Payload> {
    if f.EventFrame? && f.event.Some? then [Payload(c, f.event.value)]
    else if f.ResponseFrame? && f.response.Some? then [Payload(c, f.response.value)]
    else []
  }

  /** The payloads of the events and responses a connection sent after registering. */
  function Published(c: ConnId, frames: seq<AgentFrame>): seq<Payload>
    decreases |frames|
  {
    if frames == [] then []
    else
      var front, last := frames[..|frames| - 1], frames[|frames| - 1];
      Published(c, front) + if HasRegistered(front) then PayloadOf(c, last) else []
  }

  function HandleFor(h: Hub, id: Id): Handle
    requires Wired(h) && id in h.sessions
  {
    h.handles[h.sessions[id]]
  }

  /** An open connection's session is registered, by a handle that writes to this connection and that carries
      exactly what this connection published. */
  ghost predicate OwnsEntry(s: Server, c: ConnId)
    requires Wired(s.hub) && c in s.conns
  {
    var conn := s.conns[c];
    && (conn.session.Some? <==> HasRegistered(conn.received))
    && (conn.open && conn.session.Some? ==>
          && conn.session.value in s.hub.sessions
          && HandleFor(s.hub, conn.session.value).link == Remote(c)
          && HandleFor(s.hub, conn.session.value).events == Published(c, conn.received))
  }

  ghost predicate EntryOwned(s: Server, id: Id)
    requires Wired(s.hub) && id in s.hub.sessions
  {
    match HandleFor(s.hub, id).link
    case Headless => id in s.headless
    case Remote(c) => Holds(s, c, id)
  }

  ghost predicate NoCrossTalk(h: Hub) {
    forall n, k | 0 <= n < |h.handles| && 0 <= k < |h.handles[n].events| ::
      h.handles[n].link == Remote(h.handles[n].events[k].source)
  }

  ghost predicate CommandsOwned(s: Server) {
    forall c, k | c in s.conns && 0 <= k < |s.conns[c].outbox| && s.conns[c].outbox[k].Command? ::
      var n := s.conns[c].outbox[k].handle;
      n < |s.hub.handles| && s.hub.handles[n].link == Remote(c)
  }

  ghost predicate HeadlessOwned(s: Server)
    requires Wired(s.hub)
  {
    forall id | id in s.headless :: id in s.hub.sessions && HandleFor(s.hub, id).link == Headless
  }

  ghost predicate Owned(s: Server) {
    && Inv(s.hub)
    && s.closing == {}
    && (forall c | c in s.conns :: OwnsEntry(s, c))
    && (forall id | id in s.hub.sessions :: EntryOwned(s, id))
    && HeadlessOwned(s)
    && NoCrossTalk(s.hub)
    && CommandsOwned(s)
  }

  // --- Every step keeps ownership ------------------------------------------------------------------

  /** Nothing that ownership speaks of has changed. */
  ghost predicate SameWiring(h: Hub, g: Hub) {
    && h.sessions == g.sessions && |h.handles| == |g.handles|
    && forall n | 0 <= n < |h.handles| ::
      h.handles[n].link == g.handles[n].link && h.handles[n].events == g.handles[n].events
  }

  lemma SameWiringOwned(s: Server, g: Hub)
    requires Owned(s) && Inv(g) && SameWiring(s.hub, g)
    ensures Owned(s.(hub := g))
  {
    hide NoCrossTalk, CommandsOwned, HasRegistered, Published;
    var t := s.(hub := g);
    HandlesKept(s.hub, g);
    CommandsKept(s, t);
    forall c | c in t.conns ensures OwnsEntry(t, c) { assert OwnsEntry(s, c); }
    forall id | id in t.hub.sessions ensures EntryOwned(t, id) { assert EntryOwned(s, id); }
  }

  lemma TasksKeepWiring(h: Hub, n: nat, status: Status, id: Id, patch: Patch)
    requires Inv(h)
    ensures SameWiring(h, StatusStep(h, n, status)) && SameWiring(h, SubscribeStep(h, n))
    ensures SameWiring(h, DropStep(h, n)) && SameWiring(h, UpdateMetaStep(h, id, patch))
  {
    hide SameWiring, StatusStep, SubscribeStep, DropStep, UpdateMetaStep;
    StatusKeepsWiring(h, n, status);
    ReceiversKeepWiring(h, n);
    MetaKeepsWiring(h, id, patch);
  }

  lemma StatusKeepsWiring(h: Hub, n: nat, status: Status)
    ensures SameWiring(h, StatusStep(h, n, status))
  {
    hide Registry.Registered;
  }

  lemma ReceiversKeepWiring(h: Hub, n: nat)
    ensures SameWiring(h, SubscribeStep(h, n)) && SameWiring(h, DropStep(h, n))
  {
  }

  lemma MetaKeepsWiring(h: Hub, id: Id, patch: Patch)
    ensures SameWiring(h, UpdateMetaStep(h, id, patch))
  {
    hide ApplyPatch;
  }

  lemma PublishedSnoc(c: ConnId, frames: seq<AgentFrame>, f: AgentFrame)
    ensures Published(c, frames + [f]) == Published(c, frames) + if HasRegistered(frames) then PayloadOf(c, f) else []
    ensures HasRegistered(frames + [f]) <==> HasRegistered(frames) || (f.RegisterFrame? && f.sessionId.Some?)
  {
    var more := frames + [f];
    assert more[..|more| - 1] == frames;
    if HasRegistered(frames) {
      var i :| 0 <= i < |frames| && frames[i].RegisterFrame? && frames[i].sessionId.Some?;
      assert more[i].RegisterFrame?;
    }
    if f.RegisterFrame? && f.sessionId.Some? { assert more[|frames|].RegisterFrame?; }
  }

  lemma {:induction false} NothingPublishedBefore(c: ConnId, frames: seq<AgentFrame>)
    requires !HasRegistered(frames)
    ensures Published(c, frames) == []
    decreases |frames|
  {
    if frames != [] {
      NothingPublishedBefore(c, frames[..|frames| - 1]);
    }
  }

  lemma UnclaimedIsFree(s: Server, id: Id)
    requires Owned(s) && Unclaimed(s, id)
    ensures id !in s.hub.sessions
  {
    hide OwnsEntry, NoCrossTalk, CommandsOwned, HeadlessOwned, Inv;
    forall other | other in s.hub.sessions ensures other != id { EntryIsClaimed(s, other); }
  }

  lemma EntryIsClaimed(s: Server, id: Id)
    requires Owned(s) && id in s.hub.sessions
    ensures !Unclaimed(s, id)
  {
    assert EntryOwned(s, id);
  }

  // Traffic: what the handles carry and what the connections are sent.

  lemma HandlesKept(h: Hub, g: Hub)
    requires NoCrossTalk(h) && |h.handles| <= |g.handles|
    requires forall n | 0 <= n < |h.handles| ::
      h.handles[n].link == g.handles[n].link && h.handles[n].events == g.handles[n].events
    requires forall n | |h.handles| <= n < |g.handles| :: g.handles[n].events == []
    ensures NoCrossTalk(g)
  {
  }

  lemma PublishKept(h: Hub, id: Id, p: Payload)
    requires NoCrossTalk(h) && Wired(h) && id in h.sessions && HandleFor(h, id).link == Remote(p.source)
    ensures NoCrossTalk(PublishStep(h, id, p))
  {
  }

  /** Handles keep their links, and no outbox gets a new command. */
  lemma CommandsKept(s: Server, t: Server)
    requires CommandsOwned(s) && |s.hub.handles| <= |t.hub.handles|
    requires forall n | 0 <= n < |s.hub.handles| :: s.hub.handles[n].link == t.hub.handles[n].link
    requires forall c, k | c in t.conns && 0 <= k < |t.conns[c].outbox| && t.conns[c].outbox[k].Command? ::
      c in s.conns && k < |s.conns[c].outbox| && t.conns[c].outbox[k] == s.conns[c].outbox[k]
    ensures CommandsOwned(t)
  {
  }

  lemma OpenOwned(s: Server, c: ConnId)
    requires Owned(s) && c !in s.conns
    ensures Owned(s.(conns := s.conns[c := NEW_CONN]))
  {
    hide NoCrossTalk, CommandsOwned;
    var t := s.(conns := s.conns[c := NEW_CONN]);
    CommandsKept(s, t);
    forall d | d in t.conns ensures OwnsEntry(t, d) { if d != c { assert OwnsEntry(s, d); } }
    forall id | id in t.hub.sessions ensures EntryOwned(t, id) { assert EntryOwned(s, id); }
  }

  /** A frame that registers nothing and publishes nothing. */
  lemma ReadOwned(s: Server, c: ConnId, f: AgentFrame)
    requires Owned(s) && IsOpen(s, c)
    requires f.RegisterFrame? ==> f.sessionId.None?
    requires PayloadOf(c, f) == [] || s.conns[c].session.None?
    ensures Owned(s.(conns := s.conns[c := s.conns[c].(received := s.conns[c].received + [f])]))
  {
    hide HasRegistered, Published, NoCrossTalk, CommandsOwned;
    var t := s.(conns := s.conns[c := s.conns[c].(received := s.conns[c].received + [f])]);
    assert OwnsEntry(s, c);
    PublishedSnoc(c, s.conns[c].received, f);
    CommandsKept(s, t);
    forall d | d in t.conns ensures OwnsEntry(t, d) { assert OwnsEntry(s, d); }
    forall id | id in t.hub.sessions ensures EntryOwned(t, id) { assert EntryOwned(s, id); }
  }

  function PublishedBy(s: Server, c: ConnId, f: AgentFrame): Server
    requires IsOpen(s, c) && s.conns[c].session.Some? && |PayloadOf(c, f)| == 1
  {
    s.(hub := PublishStep(s.hub, s.conns[c].session.value, PayloadOf(c, f)[0]),
       conns := s.conns[c := s.conns[c].(received := s.conns[c].received + [f])])
  }

  lemma PublishKeepsConns(s: Server, c: ConnId, f: AgentFrame, d: ConnId)
    requires Owned(s) && IsOpen(s, c) && s.conns[c].session.Some? && |PayloadOf(c, f)| == 1
    requires d in s.conns && Inv(PublishedBy(s, c, f).hub)
    ensures OwnsEntry(PublishedBy(s, c, f), d)
  {
    hide HasRegistered, Published, NoCrossTalk, CommandsOwned, HeadlessOwned, EntryOwned;
    assert OwnsEntry(s, c) && OwnsEntry(s, d);
    PublishedSnoc(c, s.conns[c].received, f);
  }

  lemma PublishKeepsEntries(s: Server, c: ConnId, f: AgentFrame, id: Id)
    requires Owned(s) && IsOpen(s, c) && s.conns[c].session.Some? && |PayloadOf(c, f)| == 1
    requires Inv(PublishedBy(s, c, f).hub) && id in PublishedBy(s, c, f).hub.sessions
    ensures EntryOwned(PublishedBy(s, c, f), id)
  {
    hide HasRegistered, Published, NoCrossTalk, CommandsOwned, HeadlessOwned, OwnsEntry;
    assert EntryOwned(s, id);
  }

  lemma PublishKeeps(s: Server, c: ConnId, f: AgentFrame)
    requires Owned(s) && IsOpen(s, c) && s.conns[c].session.Some? && |PayloadOf(c, f)| == 1
    ensures Owned(PublishedBy(s, c, f))
  {
    hide HasRegistered, Published, NoCrossTalk, CommandsOwned;
    var id, p := s.conns[c].session.value, PayloadOf(c, f)[0];
    var t := PublishedBy(s, c, f);
    assert OwnsEntry(s, c);
    hide OwnsEntry, EntryOwned;
    ActKeepsInv(s.hub, Registry.Publish(id, p));
    PublishKept(s.hub, id, p);
    CommandsKept(s, t);
    forall d | d in t.conns ensures OwnsEntry(t, d) { PublishKeepsConns(s, c, f, d); }
    forall other | other in t.hub.sessions ensures EntryOwned(t, other) { PublishKeepsEntries(s, c, f, other); }
  }

  lemma RegisterFree(h: Hub, link: Link, meta: Meta)
    requires Inv(h) && meta.sessionId !in h.sessions
    ensures var g := RegisterStep(h, link, meta);
      && Inv(g) && g.handles == h.handles + [NewHandle(link, meta)]
      && g.sessions == h.sessions[meta.sessionId := |h.handles|]
      && Replaces(h, meta.sessionId) == {}
  {
    RegisterKeepsInv(h, link, meta);
  }

  ghost predicate Registers(s: Server, c: ConnId, f: AgentFrame) {
    && Owned(s) && IsOpen(s, c) && f.RegisterFrame? && f.sessionId.Some?
    && s.conns[c].session.None? && Unclaimed(s, f.sessionId.value)
  }

  lemma RegisterKeepsConns(s: Server, c: ConnId, f: AgentFrame, now: int, d: ConnId)
    requires Registers(s, c, f) && d in s.conns && Inv(ReceiveStep(s, c, f, now).hub)
    ensures OwnsEntry(ReceiveStep(s, c, f, now), d)
  {
    hide HasRegistered, Published, RegisterStep, NoCrossTalk, CommandsOwned, HeadlessOwned;
    UnclaimedIsFree(s, f.sessionId.value);
    RegisterFree(s.hub, Remote(c), MetaOf(f, now));
    hide Unclaimed, EntryOwned;
    assert OwnsEntry(s, c) && OwnsEntry(s, d);
    NothingPublishedBefore(c, s.conns[c].received);
    PublishedSnoc(c, s.conns[c].received, f);
  }

  lemma RegisterKeepsEntries(s: Server, c: ConnId, f: AgentFrame, now: int, id: Id)
    requires Registers(s, c, f)
    requires Inv(ReceiveStep(s, c, f, now).hub) && id in ReceiveStep(s, c, f, now).hub.sessions
    ensures EntryOwned(ReceiveStep(s, c, f, now), id)
  {
    hide HasRegistered, Published, RegisterStep, NoCrossTalk, CommandsOwned, HeadlessOwned;
    UnclaimedIsFree(s, f.sessionId.value);
    RegisterFree(s.hub, Remote(c), MetaOf(f, now));
    hide Unclaimed, OwnsEntry;
    if id != f.sessionId.value { assert EntryOwned(s, id); }
  }

  lemma RegisterOwned(s: Server, c: ConnId, f: AgentFrame, now: int)
    requires Registers(s, c, f)
    ensures Owned(ReceiveStep(s, c, f, now))
  {
    hide HasRegistered, Published, RegisterStep, NoCrossTalk, CommandsOwned, OwnsEntry, EntryOwned, Unclaimed;
    var t := ReceiveStep(s, c, f, now);
    UnclaimedIsFree(s, f.sessionId.value);
    RegisterFree(s.hub, Remote(c), MetaOf(f, now));
    HandlesKept(s.hub, t.hub);
    CommandsKept(s, t);
    forall d | d in t.conns ensures OwnsEntry(t, d) { RegisterKeepsConns(s, c, f, now, d); }
    forall id | id in t.hub.sessions ensures EntryOwned(t, id) { RegisterKeepsEntries(s, c, f, now, id); }
  }

  lemma ReceiveOwned(s: Server, c: ConnId, f: AgentFrame, now: int)
    requires Owned(s) && IsOpen(s, c) && Disciplined(s, Receive(c, f, now))
    ensures Owned(ReceiveStep(s, c, f, now))
  {
    hide Owned, UpdateMetaStep, PublishStep, RegisterStep, Unclaimed;
    if f.RegisterFrame? && f.sessionId.Some? {
      RegisterOwned(s, c, f, now);
    } else if s.conns[c].session.Some? && PayloadOf(c, f) != [] {
      PublishKeeps(s, c, f);
    } else {
      ReadOwned(s, c, f);
      if s.conns[c].session.Some? && f.MetaUpdate? && f.patch.Some? {
        MetaOwned(s.(conns := s.conns[c := s.conns[c].(received := s.conns[c].received + [f])]),
                  s.conns[c].session.value, f.patch.value);
      }
    }
  }

  lemma OwnedInv(s: Server)
    requires Owned(s)
    ensures Inv(s.hub)
  {
  }

  lemma MetaOwned(s: Server, id: Id, patch: Patch)
    requires Owned(s)
    ensures Owned(s.(hub := UpdateMetaStep(s.hub, id, patch)))
  {
    hide Owned, Inv, SameWiring, UpdateMetaStep, StatusStep, SubscribeStep, DropStep;
    OwnedInv(s);
    TasksKeepWiring(s.hub, 0, DEFAULT_STATUS, id, patch);
    ActKeepsInv(s.hub, UpdateMeta(id, patch));
    SameWiringOwned(s, UpdateMetaStep(s.hub, id, patch));
  }

  lemma TaskOwned(s: Server, n: nat, status: Status)
    requires Owned(s)
    ensures Owned(s.(hub := StatusStep(s.hub, n, status)))
    ensures Owned(s.(hub := SubscribeStep(s.hub, n))) && Owned(s.(hub := DropStep(s.hub, n)))
  {
    hide Owned, Inv, SameWiring, UpdateMetaStep, StatusStep, SubscribeStep, DropStep;
    OwnedInv(s);
    TasksKeepWiring(s.hub, n, status, "", Patch(None, None, None));
    ActKeepsInv(s.hub, Watch(n, status));
    ActKeepsInv(s.hub, Subscribe(n));
    ActKeepsInv(s.hub, Drop(n));
    SameWiringOwned(s, StatusStep(s.hub, n, status));
    SameWiringOwned(s, SubscribeStep(s.hub, n));
    SameWiringOwned(s, DropStep(s.hub, n));
  }

  lemma UnregisterRegistered(h: Hub, id: Id)
    requires Inv(h) && id in h.sessions
    ensures var g := UnregisterStep(h, id);
      && Inv(g) && g.sessions == h.sessions - {id} && |g.handles| == |h.handles|
      && forall n | 0 <= n < |h.handles| ::
      h.handles[n].link == g.handles[n].link && h.handles[n].events == g.handles[n].events
  {
    UnregisterKeepsInv(h, id);
  }

  lemma CloseKeepsConns(s: Server, c: ConnId, d: ConnId)
    requires Owned(s) && IsOpen(s, c) && d in s.conns && Inv(CloseStep(s, c).hub)
    ensures OwnsEntry(CloseStep(s, c), d)
  {
    hide HasRegistered, Published, UnregisterStep, NoCrossTalk, CommandsOwned, HeadlessOwned;
    assert OwnsEntry(s, c) && OwnsEntry(s, d);
    if s.conns[c].session.Some? { UnregisterRegistered(s.hub, s.conns[c].session.value); }
  }

  lemma CloseKeepsEntries(s: Server, c: ConnId, id: Id)
    requires Owned(s) && IsOpen(s, c) && Inv(CloseStep(s, c).hub) && id in CloseStep(s, c).hub.sessions
    ensures EntryOwned(CloseStep(s, c), id)
  {
    hide HasRegistered, Published, UnregisterStep, NoCrossTalk, CommandsOwned, HeadlessOwned;
    assert OwnsEntry(s, c);
    if s.conns[c].session.Some? { UnregisterRegistered(s.hub, s.conns[c].session.value); }
    assert EntryOwned(s, id);
  }

  lemma CloseOwned(s: Server, c: ConnId)
    requires Owned(s) && IsOpen(s, c)
    ensures Owned(CloseStep(s, c))
  {
    hide HasRegistered, Published, UnregisterStep, NoCrossTalk, CommandsOwned, EntryOwned;
    var t := CloseStep(s, c);
    assert OwnsEntry(s, c);
    if s.conns[c].session.Some? { UnregisterRegistered(s.hub, s.conns[c].session.value); }
    hide OwnsEntry;
    HandlesKept(s.hub, t.hub);
    CommandsKept(s, t);
    forall d | d in t.conns ensures OwnsEntry(t, d) { CloseKeepsConns(s, c, d); }
    forall id | id in t.hub.sessions ensures EntryOwned(t, id) { CloseKeepsEntries(s, c, id); }
  }

  lemma SpawnKeepsConns(s: Server, meta: Meta, d: ConnId)
    requires Owned(s) && meta.sessionId !in s.hub.sessions && d in s.conns && Inv(SpawnStep(s, meta).hub)
    ensures OwnsEntry(SpawnStep(s, meta), d)
  {
    hide HasRegistered, Published, RegisterStep, NoCrossTalk, CommandsOwned, EntryOwned, HeadlessOwned;
    RegisterFree(s.hub, Headless, meta);
    assert OwnsEntry(s, d);
  }

  lemma SpawnKeepsEntries(s: Server, meta: Meta, id: Id)
    requires Owned(s) && meta.sessionId !in s.hub.sessions
    requires Inv(SpawnStep(s, meta).hub) && id in SpawnStep(s, meta).hub.sessions
    ensures EntryOwned(SpawnStep(s, meta), id)
  {
    hide HasRegistered, Published, RegisterStep, NoCrossTalk, CommandsOwned, OwnsEntry, HeadlessOwned;
    RegisterFree(s.hub, Headless, meta);
    if id != meta.sessionId { assert EntryOwned(s, id); }
  }

  lemma SpawnOwned(s: Server, meta: Meta)
    requires Owned(s) && Unclaimed(s, meta.sessionId)
    ensures Owned(SpawnStep(s, meta))
  {
    hide HasRegistered, Published, RegisterStep, NoCrossTalk, CommandsOwned, OwnsEntry, EntryOwned, Unclaimed;
    var t := SpawnStep(s, meta);
    UnclaimedIsFree(s, meta.sessionId);
    RegisterFree(s.hub, Headless, meta);
    HandlesKept(s.hub, t.hub);
    CommandsKept(s, t);
    forall d | d in t.conns ensures OwnsEntry(t, d) { SpawnKeepsConns(s, meta, d); }
    forall id | id in t.hub.sessions ensures EntryOwned(t, id) { SpawnKeepsEntries(s, meta, id); }
  }

  lemma ExitKeepsConns(s: Server, id: Id, d: ConnId)
    requires Owned(s) && id in s.headless && d in s.conns && Inv(ExitStep(s, id).hub)
    ensures OwnsEntry(ExitStep(s, id), d)
  {
    hide HasRegistered, Published, UnregisterStep, NoCrossTalk, CommandsOwned;
    assert OwnsEntry(s, d);
    UnregisterRegistered(s.hub, id);
  }

  lemma ExitOwned(s: Server, id: Id)
    requires Owned(s)
    ensures Owned(ExitStep(s, id))
  {
    hide HasRegistered, Published, UnregisterStep, NoCrossTalk, CommandsOwned, OwnsEntry;
    var t := ExitStep(s, id);
    if id in s.headless {
      UnregisterRegistered(s.hub, id);
      HandlesKept(s.hub, t.hub);
      CommandsKept(s, t);
      forall d | d in t.conns ensures OwnsEntry(t, d) { ExitKeepsConns(s, id, d); }
      forall other | other in t.hub.sessions ensures EntryOwned(t, other) { assert EntryOwned(s, other); }
    }
  }

  lemma SendOwned(s: Server, n: nat, body: string)
    requires Owned(s)
    ensures Owned(Enqueue(s, n, Command(n, body)))
  {
    hide HasRegistered, Published, NoCrossTalk;
    var t := Enqueue(s, n, Command(n, body));
    forall d | d in t.conns ensures OwnsEntry(t, d) { assert OwnsEntry(s, d); }
    forall id | id in t.hub.sessions ensures EntryOwned(t, id) { assert EntryOwned(s, id); }
  }

  lemma NextOwned(s: Server, a: Happening)
    requires Owned(s) && Disciplined(s, a)
    ensures Owned(Next(s, a))
  {
    hide Owned, Unclaimed, ReceiveStep, CloseStep, StatusStep, SubscribeStep, DropStep, ExitStep, SpawnStep;
    match a
    case Open(c) => if c !in s.conns { OpenOwned(s, c); }
    case Receive(c, f, now) => if IsOpen(s, c) { ReceiveOwned(s, c, f, now); } else { StuckConnection(s, c, f, now); }
    case Close(c) => if IsOpen(s, c) { CloseOwned(s, c); } else { StuckConnection(s, c, Other, 0); }
    case SpawnHeadless(meta) => SpawnOwned(s, meta);
    case HeadlessExit(id) => ExitOwned(s, id);
    case Send(n, body) => SendOwned(s, n, body);
    case Shutdown(n) => NobodyIsClosing(s);
    case Watcher(n, status) => TaskOwned(s, n, status);
    case TakeReceiver(n) => TaskOwned(s, n, DEFAULT_STATUS);
    case DropReceiver(n) => TaskOwned(s, n, DEFAULT_STATUS);
  }

  /** A claimed id is registered. */
  lemma ClaimedIsRegistered(s: Server, id: Id)
    requires Owned(s) && !Unclaimed(s, id)
    ensures id in s.hub.sessions
  {
    hide NoCrossTalk, CommandsOwned, EntryOwned, HasRegistered, Published;
    if id !in s.headless {
      var c :| IsOpen(s, c) && Holds(s, c, id);
      assert OwnsEntry(s, c);
    }
  }

  /** Registering a registered id leaves a handle that is to be closed. */
  lemma ReplacingIsNotOwned(s: Server, c: ConnId, f: AgentFrame, now: int)
    requires IsOpen(s, c) && f.RegisterFrame? && f.sessionId.Some? && f.sessionId.value in s.hub.sessions
    ensures !Owned(ReceiveStep(s, c, f, now))
  {
    hide Inv, NoCrossTalk, CommandsOwned, EntryOwned, OwnsEntry, HeadlessOwned, RegisterStep;
    assert s.hub.sessions[f.sessionId.value] in ReceiveStep(s, c, f, now).closing;
  }

  /** Registering a second id leaves the first one without an owner. */
  lemma SecondIdIsNotOwned(s: Server, c: ConnId, f: AgentFrame, now: int)
    requires Owned(s) && IsOpen(s, c) && s.conns[c].session.Some?
    requires f.RegisterFrame? && f.sessionId.Some? && f.sessionId.value !in s.hub.sessions
    ensures !Owned(ReceiveStep(s, c, f, now))
  {
    hide NoCrossTalk, CommandsOwned, HeadlessOwned, RegisterStep, HasRegistered, Published;
    var first := s.conns[c].session.value;
    assert OwnsEntry(s, c);
    RegisterFree(s.hub, Remote(c), MetaOf(f, now));
    var t := ReceiveStep(s, c, f, now);
    assert first in t.hub.sessions && !EntryOwned(t, first);
  }

  /** The discipline on frames is exact: a frame keeps ownership if and only if it obeys it. */
  lemma DisciplineIsExact(s: Server, c: ConnId, f: AgentFrame, now: int)
    requires Owned(s)
    ensures Owned(Next(s, Receive(c, f, now))) <==> Disciplined(s, Receive(c, f, now))
  {
    hide Owned, Unclaimed, ReceiveStep;
    if Disciplined(s, Receive(c, f, now)) {
      NextOwned(s, Receive(c, f, now));
    } else if f.sessionId.value in s.hub.sessions {
      ReplacingIsNotOwned(s, c, f, now);
    } else {
      if !Unclaimed(s, f.sessionId.value) { ClaimedIsRegistered(s, f.sessionId.value); }
      SecondIdIsNotOwned(s, c, f, now);
    }
  }

  lemma StuckConnection(s: Server, c: ConnId, f: AgentFrame, now: int)
    requires !IsOpen(s, c)
    ensures ReceiveStep(s, c, f, now) == s && CloseStep(s, c) == s
  {
  }

  lemma NobodyIsClosing(s: Server)
    requires Owned(s)
    ensures s.closing == {}
  {
  }

  lemma StartOwned()
    ensures Owned(START)
  {
  }

  lemma {:induction false} RunOwned(s: Server, run: seq<Happening>)
    requires Owned(s) && DisciplinedRun(s, run)
    ensures Owned(Run(s, run))
    decreases |run|
  {
    hide Owned, Disciplined, Next;
    if run != [] {
      NextOwned(s, run[0]);
      RunOwned(Next(s, run[0]), run[1..]);
    }
  }

  /** Ownership: after any disciplined run, an id is mapped to a remote handle exactly if one and only one open
      connection holds it; that handle writes to that connection and carries exactly what it published. */
  lemma Ownership(run: seq<Happening>, id: Id)
    requires DisciplinedRun(START, run)
    ensures var s := Run(START, run);
      && Wired(s.hub)
      && ((id in s.hub.sessions && HandleFor(s.hub, id).link.Remote?) <==> exists c :: Holds(s, c, id))
      && forall c, d :: Holds(s, c, id) && Holds(s, d, id) ==> c == d
  {
    hide Run, DisciplinedRun;
    StartOwned();
    RunOwned(START, run);
    var s := Run(START, run);
    if id in s.hub.sessions { assert EntryOwned(s, id); }
    forall c | Holds(s, c, id) ensures id in s.hub.sessions && HandleFor(s.hub, id).link == Remote(c) {
      assert OwnsEntry(s, c);
    }
  }

  /** No cross-talk: a session's events are what the connection that holds it published, and nothing on any
      handle, registered or not, came in on a connection the handle does not write to. Commands reach only the
      connection of the handle they were sent through, and no connection is ever asked to close. */
  lemma NoCrossTalkEver(run: seq<Happening>, c: ConnId, id: Id)
    requires DisciplinedRun(START, run)
    ensures var s := Run(START, run);
      && Wired(s.hub)
      && (Holds(s, c, id) ==>
            id in s.hub.sessions && HandleFor(s.hub, id).link == Remote(c)
            && HandleFor(s.hub, id).events == Published(c, s.conns[c].received))
      && NoCrossTalk(s.hub) && CommandsOwned(s) && s.closing == {}
  {
    hide Run, DisciplinedRun, Published, HasRegistered;
    StartOwned();
    RunOwned(START, run);
    var s := Run(START, run);
    if Holds(s, c, id) { assert OwnsEntry(s, c); }
  }

  /** What a phone is forwarded from a handle came in on the connection the handle writes to, and nothing else. */
  lemma ForwardedIsOwn(run: seq<Happening>, n: nat, low: nat, k: nat)
    requires DisciplinedRun(START, run) && n < |Run(START, run).hub.handles|
    requires low + k < |Run(START, run).hub.handles[n].events|
    ensures var h := Run(START, run).hub.handles[n];
      && k < |Bodies(h.events[low..])| && Bodies(h.events[low..])[k] == h.events[low + k].body
      && h.link == Remote(h.events[low + k].source)
  {
    hide Run, DisciplinedRun, OwnsEntry, EntryOwned, HeadlessOwned, CommandsOwned, Inv;
    StartOwned();
    RunOwned(START, run);
  }

  // --- Removal is by id ----------------------------------------------------------------------------

  /** Entries of other connections survive a close exactly if the closing connection's id is not, by now,
      another's. This needs no discipline. */
  lemma CloseKeepsOthers(s: Server, c: ConnId)
    requires Inv(s.hub) && IsOpen(s, c)
    ensures (forall id | id in s.hub.sessions && HandleFor(s.hub, id).link != Remote(c) ::
                  id in CloseStep(s, c).hub.sessions)
       <==> (s.conns[c].session.None? || s.conns[c].session.value !in s.hub.sessions
             || HandleFor(s.hub, s.conns[c].session.value).link == Remote(c))
  {
    hide MarkDisconnected;
    if s.conns[c].session.Some? && s.conns[c].session.value in s.hub.sessions {
      UnregisterRegistered(s.hub, s.conns[c].session.value);
    }
  }

  /** Two connections register one id: the older one is asked to close, and when it does, the newer one's
      entry is the one that goes, although its connection is open and holds the id. */
  lemma NewerEntryRemoved(s: Server, older: ConnId, newer: ConnId, f: AgentFrame, now: int)
    requires Owned(s) && older != newer
    requires f.RegisterFrame? && f.sessionId.Some? && Holds(s, older, f.sessionId.value)
    requires IsOpen(s, newer) && s.conns[newer].session.None?
    ensures var id := f.sessionId.value;
      var replaced := ReceiveStep(s, newer, f, now);
      var end := CloseStep(replaced, older);
      && Inv(replaced.hub) && id in replaced.hub.sessions && HandleFor(replaced.hub, id).link == Remote(newer)
      && replaced.closing == {s.hub.sessions[id]} && s.hub.handles[s.hub.sessions[id]].link == Remote(older)
      && Holds(end, newer, id) && id !in end.hub.sessions
  {
    assert OwnsEntry(s, older);
    hide Published, HasRegistered, OwnsEntry, EntryOwned;
    RegisterKeepsInv(s.hub, Remote(newer), MetaOf(f, now));
    UnregisterRegistered(ReceiveStep(s, newer, f, now).hub, f.sessionId.value);
  }

  // --- Events under another's id -------------------------------------------------------------------

  /** What an id leads to, in any state. */
  function LinkOf(h: Hub, id: Id): Option<Link> {
    if id in h.sessions && h.sessions[id] < |h.handles| then Some(h.handles[h.sessions[id]].link) else None
  }

  /** The frame carries an event or response for the handle its connection's id leads to, and that handle writes to
      another connection. */
  predicate Intrudes(s: Server, c: ConnId, f: AgentFrame) {
    && IsOpen(s, c) && PayloadOf(c, f) != [] && s.conns[c].session.Some?
    && match LinkOf(s.hub, s.conns[c].session.value)
       case Some(Remote(d)) => d != c
       case _ => false
  }

  predicate IsIntrusion(s: Server, a: Happening) { a.Receive? && Intrudes(s, a.conn, a.frame) }

  /** The hub in any run, disciplined or not. */
  lemma NextKeepsHub(s: Server, a: Happening)
    requires Inv(s.hub)
    ensures Inv(Next(s, a).hub)
  {
    hide Inv, RegisterStep, UnregisterStep, UpdateMetaStep, PublishStep, StatusStep, SubscribeStep, DropStep, MetaOf;
    match a
    case Receive(c, f, now) =>
      if IsOpen(s, c) { FrameKeepsHub(s.hub, c, s.conns[c].session, f, now); }
    case Close(c) =>
      if IsOpen(s, c) && s.conns[c].session.Some? { ActKeepsInv(s.hub, Unregister(s.conns[c].session.value)); }
    case SpawnHeadless(meta) => ActKeepsInv(s.hub, Register(Headless, meta));
    case HeadlessExit(id) => ActKeepsInv(s.hub, Unregister(id));
    case Watcher(n, status) => ActKeepsInv(s.hub, Watch(n, status));
    case TakeReceiver(n) => ActKeepsInv(s.hub, Subscribe(n));
    case DropReceiver(n) => ActKeepsInv(s.hub, Drop(n));
    case _ =>
  }

  lemma FrameKeepsHub(h: Hub, c: ConnId, session: Option<Id>, f: AgentFrame, now: int)
    requires Inv(h)
    ensures Inv(ReceiveHub(h, c, session, f, now))
  {
    hide Inv, RegisterStep, UpdateMetaStep, PublishStep, MetaOf;
    match f
    case RegisterFrame(id, _, _, _) => if id.Some? { ActKeepsInv(h, Register(Remote(c), MetaOf(f, now))); }
    case MetaUpdate(patch) =>
      if session.Some? && patch.Some? { ActKeepsInv(h, UpdateMeta(session.value, patch.value)); }
    case EventFrame(event) =>
      if session.Some? && event.Some? { ActKeepsInv(h, Publish(session.value, Payload(c, event.value))); }
    case ResponseFrame(response) =>
      if session.Some? && response.Some? { ActKeepsInv(h, Publish(session.value, Payload(c, response.value))); }
    case Other =>
  }

  lemma PublishGrows(h: Hub, id: Id, p: Payload)
    requires Inv(h) && id in h.sessions && HandleFor(h, id).link.Remote?
    ensures var n := h.sessions[id];
      && n < |h.handles|
      && PublishStep(h, id, p).handles == h.handles[n := h.handles[n].(events := h.handles[n].events + [p])]
  {
  }

  lemma PublishMisses(h: Hub, id: Id, p: Payload)
    requires Inv(h) && (id in h.sessions ==> !HandleFor(h, id).link.Remote?)
    ensures PublishStep(h, id, p) == h
  {
  }

  lemma EventAdded(h: Hub, g: Hub, n: nat, p: Payload)
    requires n < |h.handles| && g.handles == h.handles[n := h.handles[n].(events := h.handles[n].events + [p])]
    ensures NoCrossTalk(g) <==> NoCrossTalk(h) && h.handles[n].link == Remote(p.source)
  {
    assert g.handles[n].events[|h.handles[n].events|] == p;
    if NoCrossTalk(g) {
      forall m, k | 0 <= m < |h.handles| && 0 <= k < |h.handles[m].events|
        ensures h.handles[m].link == Remote(h.handles[m].events[k].source)
      {
        assert g.handles[m].events[k] == h.handles[m].events[k];
      }
    }
  }

  /** Publishing mixes connections exactly if the id leads to another connection's handle. */
  lemma PublishMixesIff(h: Hub, id: Id, c: ConnId, body: string)
    requires Inv(h)
    ensures NoCrossTalk(PublishStep(h, id, Payload(c, body))) <==>
      NoCrossTalk(h) && match LinkOf(h, id)
                        case Some(Remote(d)) => d == c
                        case _ => true
  {
    hide NoCrossTalk, PublishStep;
    if id in h.sessions && HandleFor(h, id).link.Remote? {
      PublishGrows(h, id, Payload(c, body));
      EventAdded(h, PublishStep(h, id, Payload(c, body)), h.sessions[id], Payload(c, body));
    } else {
      PublishMisses(h, id, Payload(c, body));
    }
  }

  /** Nothing was published: the old handles' events are what they were, and new handles have none. */
  ghost predicate NothingPublished(h: Hub, g: Hub) {
    && |h.handles| <= |g.handles|
    && (forall n | 0 <= n < |h.handles| ::
          g.handles[n].link == h.handles[n].link && g.handles[n].events == h.handles[n].events)
    && (forall n | |h.handles| <= n < |g.handles| :: g.handles[n].events == [])
  }

  lemma NothingMixes(h: Hub, g: Hub)
    requires NothingPublished(h, g)
    ensures NoCrossTalk(g) <==> NoCrossTalk(h)
  {
    if NoCrossTalk(g) {
      forall n, k | 0 <= n < |h.handles| && 0 <= k < |h.handles[n].events|
        ensures h.handles[n].link == Remote(h.handles[n].events[k].source)
      {
        assert g.handles[n].events[k] == h.handles[n].events[k];
      }
    }
  }

  lemma RegisteringPublishesNothing(h: Hub, link: Link, meta: Meta)
    ensures NothingPublished(h, RegisterStep(h, link, meta))
  {
  }

  lemma UnregisteringPublishesNothing(h: Hub, id: Id)
    ensures NothingPublished(h, UnregisterStep(h, id))
  {
  }

  lemma SameWiringPublishesNothing(h: Hub, g: Hub)
    requires SameWiring(h, g)
    ensures NothingPublished(h, g)
  {
  }

  lemma OtherFramesPublishNothing(h: Hub, c: ConnId, session: Option<Id>, f: AgentFrame, now: int)
    requires f.RegisterFrame? || f.MetaUpdate? || session.None? || PayloadOf(c, f) == []
    ensures NothingPublished(h, ReceiveHub(h, c, session, f, now))
  {
    hide NothingPublished, SameWiring, RegisterStep, UpdateMetaStep, MetaOf;
    SameWiringPublishesNothing(h, h) by { SameAsItself(h); }
    if f.RegisterFrame? && f.sessionId.Some? { RegisteringPublishesNothing(h, Remote(c), MetaOf(f, now)); }
    if f.MetaUpdate? && session.Some? && f.patch.Some? {
      MetaKeepsWiring(h, session.value, f.patch.value);
      SameWiringPublishesNothing(h, UpdateMetaStep(h, session.value, f.patch.value));
    }
  }

  lemma SameAsItself(h: Hub)
    ensures SameWiring(h, h)
  {
  }

  lemma OthersPublishNothing(s: Server, a: Happening)
    requires !a.Receive?
    ensures NothingPublished(s.hub, Next(s, a).hub)
  {
    hide NothingPublished, SameWiring, RegisterStep, UnregisterStep, StatusStep, SubscribeStep, DropStep;
    var h := s.hub;
    SameAsItself(h);
    SameWiringPublishesNothing(h, h);
    match a
    case Close(c) =>
      if IsOpen(s, c) && s.conns[c].session.Some? { UnregisteringPublishesNothing(h, s.conns[c].session.value); }
    case SpawnHeadless(meta) => RegisteringPublishesNothing(h, Headless, meta);
    case HeadlessExit(id) => UnregisteringPublishesNothing(h, id);
    case Watcher(n, status) =>
      StatusKeepsWiring(h, n, status);
      SameWiringPublishesNothing(h, StatusStep(h, n, status));
    case TakeReceiver(n) =>
      ReceiversKeepWiring(h, n);
      SameWiringPublishesNothing(h, SubscribeStep(h, n));
    case DropReceiver(n) =>
      ReceiversKeepWiring(h, n);
      SameWiringPublishesNothing(h, DropStep(h, n));
    case _ =>
  }

  lemma FrameMixesIff(s: Server, c: ConnId, f: AgentFrame, now: int)
    requires Inv(s.hub) && IsOpen(s, c)
    ensures NoCrossTalk(ReceiveStep(s, c, f, now).hub) <==> NoCrossTalk(s.hub) && !Intrudes(s, c, f)
  {
    hide Inv, NoCrossTalk, NothingPublished, RegisterStep, UpdateMetaStep, PublishStep, MetaOf, LinkOf;
    var session := s.conns[c].session;
    if (f.EventFrame? || f.ResponseFrame?) && session.Some? && PayloadOf(c, f) != [] {
      PublishMixesIff(s.hub, session.value, c, PayloadOf(c, f)[0].body);
    } else {
      OtherFramesPublishNothing(s.hub, c, session, f, now);
      NothingMixes(s.hub, ReceiveHub(s.hub, c, session, f, now));
    }
  }

  /** In any state, disciplined or not: after the next step every handle's events came in on its own connection if and
      only if they did before and the step is no event or response of an open connection whose id leads to a remote
      handle of another. */
  lemma CrossTalkIff(s: Server, a: Happening)
    requires Inv(s.hub)
    ensures NoCrossTalk(Next(s, a).hub) <==> NoCrossTalk(s.hub) && !IsIntrusion(s, a)
  {
    hide Inv, NoCrossTalk, NothingPublished, ReceiveStep, Intrudes, CloseStep;
    if !a.Receive? {
      OthersPublishNothing(s, a);
      NothingMixes(s.hub, Next(s, a).hub);
    } else if IsOpen(s, a.conn) {
      FrameMixesIff(s, a.conn, a.frame, a.now);
    } else {
      ClosedDoNotIntrude(s, a.conn, a.frame, a.now);
    }
  }

  lemma ClosedDoNotIntrude(s: Server, c: ConnId, f: AgentFrame, now: int)
    requires !IsOpen(s, c)
    ensures ReceiveStep(s, c, f, now) == s && !Intrudes(s, c, f)
  {
  }

  /** No step of a run intrudes. */
  predicate NoIntrusion(s: Server, run: seq<Happening>)
    decreases |run|
  {
    run == [] || (!IsIntrusion(s, run[0]) && NoIntrusion(Next(s, run[0]), run[1..]))
  }

  lemma {:induction false} RunMixesIff(s: Server, run: seq<Happening>)
    requires Inv(s.hub)
    ensures NoCrossTalk(Run(s, run).hub) <==> NoCrossTalk(s.hub) && NoIntrusion(s, run)
    decreases |run|
  {
    hide Inv, NoCrossTalk, Next, IsIntrusion;
    if run != [] {
      NextKeepsHub(s, run[0]);
      RunMixesIff(Next(s, run[0]), run[1..]);
      CrossTalkIff(s, run[0]);
    }
  }

  lemma OwnedHub(s: Server)
    requires Owned(s)
    ensures Inv(s.hub)
  {
  }

  lemma StartIsUnmixed()
    ensures NoCrossTalk(START.hub)
  {
  }

  /** Over any run from the start, without any discipline: all events of all handles came in on their own connections
      if and only if no frame of the run was an event or response of a connection whose id led to another's handle. */
  lemma CrossTalkExactly(run: seq<Happening>)
    ensures NoCrossTalk(Run(START, run).hub) <==> NoIntrusion(START, run)
  {
    hide Run, NoIntrusion, Owned;
    StartOwned();
    OwnedHub(START);
    StartIsUnmixed();
    RunMixesIff(START, run);
  }

  // --- Runs that show both -------------------------------------------------------------------------

  lemma RunFirst(s: Server, run: seq<Happening>)
    requires run != []
    ensures Run(s, run) == Run(Next(s, run[0]), run[1..])
  {
    hide Next;
  }

  lemma RunNothing(s: Server)
    ensures Run(s, []) == s
  {
  }

  lemma RunFive(s: Server, a: Happening, b: Happening, c: Happening, d: Happening, e: Happening)
    ensures Run(s, [a, b, c, d, e]) == Next(Next(Next(Next(Next(s, a), b), c), d), e)
  {
    hide Next, Run;
    RunFirst(s, [a, b, c, d, e]);
    assert [a, b, c, d, e][1..] == [b, c, d, e];
    RunFirst(Next(s, a), [b, c, d, e]);
    assert [b, c, d, e][1..] == [c, d, e];
    RunFirst(Next(Next(s, a), b), [c, d, e]);
    assert [c, d, e][1..] == [d, e];
    RunFirst(Next(Next(Next(s, a), b), c), [d, e]);
    assert [d, e][1..] == [e];
    RunFirst(Next(Next(Next(Next(s, a), b), c), d), [e]);
    assert [e][1..] == [];
    RunNothing(Next(Next(Next(Next(Next(s, a), b), c), d), e));
  }

  lemma OpenReaches(s: Server, c: ConnId)
    requires c !in s.conns
    ensures Next(s, Open(c)) == s.(conns := s.conns[c := NEW_CONN])
  {
  }

  lemma RegisterReaches(s: Server, c: ConnId, f: AgentFrame, now: int)
    requires IsOpen(s, c) && f.RegisterFrame? && f.sessionId.Some?
    ensures var t := Next(s, Receive(c, f, now)); Holds(t, c, f.sessionId.value) && t.conns.Keys == s.conns.Keys
  {
    hide RegisterStep;
  }

  /** Such a state is reached as soon as one connection has registered and another is open. */
  lemma OneHolder(f: AgentFrame, now: int)
    requires f.RegisterFrame? && f.sessionId.Some?
    ensures var s := Next(Next(Next(START, Open(0)), Receive(0, f, now)), Open(1));
      Owned(s) && Holds(s, 0, f.sessionId.value) && IsOpen(s, 1) && s.conns[1].session.None?
  {
    hide Owned, Next, RegisterStep;
    var s1 := Next(START, Open(0));
    var s2 := Next(s1, Receive(0, f, now));
    StartOwned();
    NextOwned(START, Open(0));
    OpenReaches(START, 0);
    NextOwned(s1, Receive(0, f, now));
    RegisterReaches(s1, 0, f, now);
    NextOwned(s2, Open(1));
    OpenReaches(s2, 1);
  }

  /** The run: two connections register one id, the older one closes, and the id is gone although the newer one is
      open and holds it. */
  lemma DuplicateRegistrationRun(f: AgentFrame, now: int)
    requires f.RegisterFrame? && f.sessionId.Some?
    ensures var s := Run(START, [Open(0), Receive(0, f, now), Open(1), Receive(1, f, now), Close(0)]);
      Holds(s, 1, f.sessionId.value) && f.sessionId.value !in s.hub.sessions
  {
    hide Run, Owned, Next, Holds;
    var s := Next(Next(Next(START, Open(0)), Receive(0, f, now)), Open(1));
    OneHolder(f, now);
    NewerEntryRemoved(s, 0, 1, f, now);
    LastTwo(s, f, now);
    RunFive(START, Open(0), Receive(0, f, now), Open(1), Receive(1, f, now), Close(0));
  }

  lemma LastTwo(s: Server, f: AgentFrame, now: int)
    ensures Next(Next(s, Receive(1, f, now)), Close(0)) == CloseStep(ReceiveStep(s, 1, f, now), 0)
  {
    hide CloseStep, ReceiveStep;
  }

  lemma PublishReaches(h: Hub, id: Id, c: ConnId, body: string)
    requires Inv(h) && id in h.sessions && HandleFor(h, id).link.Remote? && HandleFor(h, id).events == []
    ensures var t := PublishStep(h, id, Payload(c, body));
      && Inv(t) && id in t.sessions && HandleFor(t, id).link == HandleFor(h, id).link
      && HandleFor(t, id).events == [Payload(c, body)]
  {
    ActKeepsInv(h, Publish(id, Payload(c, body)));
  }

  lemma RegisteredAnew(h: Hub, c: ConnId, f: AgentFrame, now: int)
    requires Inv(h) && f.RegisterFrame? && f.sessionId.Some?
    ensures var t := RegisterStep(h, Remote(c), MetaOf(f, now));
      && Inv(t) && f.sessionId.value in t.sessions
      && HandleFor(t, f.sessionId.value).link == Remote(c) && HandleFor(t, f.sessionId.value).events == []
  {
    RegisterKeepsInv(h, Remote(c), MetaOf(f, now));
  }

  lemma TwoFrames(s: Server, f: AgentFrame, now: int, body: string)
    requires f.RegisterFrame? && f.sessionId.Some? && Holds(s, 0, f.sessionId.value) && IsOpen(s, 1)
    ensures ReceiveStep(ReceiveStep(s, 1, f, now), 0, EventFrame(Some(body)), now).hub
         == PublishStep(RegisterStep(s.hub, Remote(1), MetaOf(f, now)), f.sessionId.value, Payload(0, body))
  {
    hide RegisterStep, PublishStep, MetaOf;
  }

  lemma IntruderReaches(s: Server, f: AgentFrame, now: int, body: string)
    requires Owned(s) && f.RegisterFrame? && f.sessionId.Some? && Holds(s, 0, f.sessionId.value) && IsOpen(s, 1)
    ensures var t := ReceiveStep(ReceiveStep(s, 1, f, now), 0, EventFrame(Some(body)), now);
      && Inv(t.hub) && f.sessionId.value in t.hub.sessions
      && HandleFor(t.hub, f.sessionId.value).link == Remote(1)
      && HandleFor(t.hub, f.sessionId.value).events == [Payload(0, body)]
  {
    OwnedHub(s);
    TwoFrames(s, f, now, body);
    RegisteredAnew(s.hub, 1, f, now);
    PublishReaches(RegisterStep(s.hub, Remote(1), MetaOf(f, now)), f.sessionId.value, 0, body);
    hide Owned, Holds, ReceiveStep, RegisterStep, PublishStep, MetaOf;
  }

  /** The run: two connections register one id, and what the older one publishes afterwards is in the handle of the
      newer one. */
  lemma CrossTalkRun(f: AgentFrame, now: int, body: string)
    requires f.RegisterFrame? && f.sessionId.Some?
    ensures var s := Run(START, [Open(0), Receive(0, f, now), Open(1), Receive(1, f, now),
                                 Receive(0, EventFrame(Some(body)), now)]);
      && Wired(s.hub) && f.sessionId.value in s.hub.sessions
      && HandleFor(s.hub, f.sessionId.value).link == Remote(1)
      && HandleFor(s.hub, f.sessionId.value).events == [Payload(0, body)]
  {
    hide Run, Owned, Next, Holds;
    var s := Next(Next(Next(START, Open(0)), Receive(0, f, now)), Open(1));
    OneHolder(f, now);
    IntruderReaches(s, f, now, body);
    LastTwoReceive(s, f, now, EventFrame(Some(body)));
    RunFive(START, Open(0), Receive(0, f, now), Open(1), Receive(1, f, now), Receive(0, EventFrame(Some(body)), now));
  }

  lemma LastTwoReceive(s: Server, f: AgentFrame, now: int, g: AgentFrame)
    ensures Next(Next(s, Receive(1, f, now)), Receive(0, g, now)) == ReceiveStep(ReceiveStep(s, 1, f, now), 0, g, now)
  {
    hide ReceiveStep;
  }
}

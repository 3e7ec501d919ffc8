/** The Hub's switchboard (`SessionRegistry`): ids to handles, and the control channel every change is
    announced on. A handle is named by its position in the list of all handles ever made, so two holders of
    one `Arc<SessionHandle>` are two holders of one number. */
module Registry {
  import opened Text
  import opened Session

  /** A control message, and whether the handle it speaks of was the registered one when it was sent.
      Only a status watcher that outlives its registration sends one that was not. */
  datatype Entry = Entry(frame: Frame, current: bool)

  datatype Hub = Hub(sessions: map<Id, nat>, handles: seq<Handle>, log: seq<Entry>)

  const EMPTY_HUB := Hub(map[], [], [])

  predicate Registered(h: Hub, n: nat) { exists id | id in h.sessions :: h.sessions[id] == n }

  /** Every id is mapped to an existing handle that carries that id. */
  predicate Wired(h: Hub) {
    forall id | id in h.sessions :: h.sessions[id] < |h.handles| && h.handles[h.sessions[id]].meta.sessionId == id
  }

  function Announce(h: Hub, f: Frame, current: bool): Hub { h.(log := h.log + [Entry(f, current)]) }

  function SetHandle(h: Hub, n: nat, handle: Handle): Hub
    requires n < |h.handles|
  {
    h.(handles := h.handles[n := handle])
  }

  function RegisterStep(h: Hub, link: Link, meta: Meta): Hub {
    var id := meta.sessionId;
    var handle := NewHandle(link, meta);
    var marked := if id in h.sessions && h.sessions[id] < |h.handles|
                  then SetHandle(h, h.sessions[id], MarkDisconnected(h.handles[h.sessions[id]])) else h;
    Announce(marked.(handles := marked.handles + [handle], sessions := h.sessions[id := |h.handles|]),
             SessionConnected(Summary(handle.meta, handle.status, handle.connected)), true)
  }

  function UnregisterStep(h: Hub, id: Id): Hub {
    if id !in h.sessions || h.sessions[id] >= |h.handles| then h
    else
      var n := h.sessions[id];
      Announce(SetHandle(h, n, MarkDisconnected(h.handles[n])).(sessions := h.sessions - {id}),
               SessionDisconnected(id), true)
  }

  function UpdateMetaStep(h: Hub, id: Id, patch: Patch): Hub {
    if id !in h.sessions || h.sessions[id] >= |h.handles| then h
    else
      var n := h.sessions[id];
      var handle := h.handles[n].(meta := ApplyPatch(h.handles[n].meta, patch));
      Announce(SetHandle(h, n, handle), SessionMeta(Summary(handle.meta, handle.status, handle.connected)), true)
  }

  function PublishStep(h: Hub, id: Id, payload: Payload): Hub {
    if id !in h.sessions || h.sessions[id] >= |h.handles| then h
    else
      var n := h.sessions[id];
      if h.handles[n].link.Headless? then h
      else SetHandle(h, n, h.handles[n].(events := h.handles[n].events + [payload]))
  }

  /** A task takes a receiver of the handle's watch (a status watcher or a phone bridge starting). */
  function SubscribeStep(h: Hub, n: nat): Hub {
    if n >= |h.handles| then h else SetHandle(h, n, h.handles[n].(receivers := h.handles[n].receivers + 1))
  }

  /** A task that holds a receiver ends. */
  function DropStep(h: Hub, n: nat): Hub {
    if n >= |h.handles| || h.handles[n].receivers == 0 then h
    else SetHandle(h, n, h.handles[n].(receivers := h.handles[n].receivers - 1))
  }

  /** The status watcher of handle `n` stores a new status; it announces it if streaming or preview changed. */
  function StatusStep(h: Hub, n: nat, status: Status): Hub {
    if n >= |h.handles| then h
    else
      var before := h.handles[n].status;
      var handle := h.handles[n].(status := status);
      var changed := status.isStreaming != before.isStreaming || status.lastPreview != before.lastPreview;
      var stored := SetHandle(h, n, handle);
      if changed
      then Announce(stored, SessionUpdate(Summary(handle.meta, handle.status, handle.connected)), Registered(h, n))
      else stored
  }

  // --- Any history of the registry -----------------------------------------------------------------

  datatype Action =
    | Register(link: Link, meta: Meta)
    | Unregister(id: Id)
    | UpdateMeta(id: Id, patch: Patch)
    | Publish(id: Id, payload: Payload)
    | Subscribe(handle: nat)
    | Drop(handle: nat)
    | Watch(handle: nat, status: Status)

  function Act(h: Hub, a: Action): Hub {
    match a
    case Register(link, meta) => RegisterStep(h, link, meta)
    case Unregister(id) => UnregisterStep(h, id)
    case UpdateMeta(id, patch) => UpdateMetaStep(h, id, patch)
    case Publish(id, payload) => PublishStep(h, id, payload)
    case Subscribe(n) => SubscribeStep(h, n)
    case Drop(n) => DropStep(h, n)
    case Watch(n, status) => StatusStep(h, n, status)
  }

  function Exec(h: Hub, actions: seq<Action>): Hub
    decreases |actions|
  {
    if actions == [] then h else Exec(Act(h, actions[0]), actions[1..])
  }

  /** What every action keeps: ids are wired to their handles, no two ids share a handle, registered handles
      are connected. */
  ghost predicate Inv(h: Hub) {
    && Wired(h)
    && (forall a, b | a in h.sessions && b in h.sessions :: h.sessions[a] == h.sessions[b] ==> a == b)
    && (forall id | id in h.sessions :: h.handles[h.sessions[id]].connected)
  }

  lemma RegisterKeepsInv(h: Hub, link: Link, meta: Meta)
    requires Inv(h)
    ensures Inv(RegisterStep(h, link, meta)) && h.log <= RegisterStep(h, link, meta).log
  {
  }

  lemma UnregisterKeepsInv(h: Hub, id: Id)
    requires Inv(h)
    ensures Inv(UnregisterStep(h, id)) && h.log <= UnregisterStep(h, id).log
  {
  }

  /** Replacing a handle by one with the same id that is connected if the first one was. */
  lemma SetKeepsInv(h: Hub, n: nat, handle: Handle)
    requires Inv(h) && n < |h.handles|
    requires handle.meta.sessionId == h.handles[n].meta.sessionId && handle.connected == h.handles[n].connected
    ensures Inv(SetHandle(h, n, handle))
  {
  }

  lemma ActKeepsInv(h: Hub, a: Action)
    requires Inv(h)
    ensures Inv(Act(h, a))
    ensures h.log <= Act(h, a).log && |h.handles| <= |Act(h, a).handles|
  {
    hide Inv, Registered;
    match a
    case Register(link, meta) => RegisterKeepsInv(h, link, meta);
    case Unregister(id) => UnregisterKeepsInv(h, id);
    case UpdateMeta(id, patch) =>
      if id in h.sessions && h.sessions[id] < |h.handles| {
        var handle := h.handles[h.sessions[id]];
        var patched := handle.(meta := ApplyPatch(handle.meta, patch));
        SetKeepsInv(h, h.sessions[id], patched);
        AnnounceKeepsInv(SetHandle(h, h.sessions[id], patched),
                         SessionMeta(Summary(patched.meta, patched.status, patched.connected)), true);
      }
    case Publish(id, payload) =>
      if id in h.sessions && h.sessions[id] < |h.handles| && h.handles[h.sessions[id]].link.Remote? {
        var handle := h.handles[h.sessions[id]];
        SetKeepsInv(h, h.sessions[id], handle.(events := handle.events + [payload]));
      }
    case Subscribe(n) =>
      if n < |h.handles| { SetKeepsInv(h, n, h.handles[n].(receivers := h.handles[n].receivers + 1)); }
    case Drop(n) =>
      if n < |h.handles| && h.handles[n].receivers > 0 {
        SetKeepsInv(h, n, h.handles[n].(receivers := h.handles[n].receivers - 1));
      }
    case Watch(n, status) =>
      if n < |h.handles| {
        var handle := h.handles[n].(status := status);
        SetKeepsInv(h, n, handle);
        AnnounceKeepsInv(SetHandle(h, n, handle),
                         SessionUpdate(Summary(handle.meta, handle.status, handle.connected)), Registered(h, n));
      }
  }

  lemma AnnounceKeepsInv(h: Hub, f: Frame, current: bool)
    requires Inv(h)
    ensures Inv(Announce(h, f, current))
  {
  }

  lemma {:induction false} ExecKeepsInv(h: Hub, actions: seq<Action>)
    requires Inv(h)
    ensures Inv(Exec(h, actions))
    ensures h.log <= Exec(h, actions).log && |h.handles| <= |Exec(h, actions).handles|
    decreases |actions|
  {
    hide Act, Inv;
    if actions != [] {
      ActKeepsInv(h, actions[0]);
      ExecKeepsInv(Act(h, actions[0]), actions[1..]);
    }
  }

  // --- The registry object -------------------------------------------------------------------------

  class SessionRegistry {
    var sessions: map<Id, nat>
    var handles: seq<Handle>
    var controlLog: seq<Entry>

    function State(): Hub
      reads this
    {
      Hub(sessions, handles, controlLog)
    }

    constructor ()
      ensures State() == EMPTY_HUB
    {
      sessions, handles, controlLog := map[], [], [];
    }

    /** Inserts the new handle, marks a replaced one disconnected, announces the new one. The replaced handle is
        returned so that its link can be asked to close. */
    method RegisterSession(link: Link, meta: Meta) returns (handle: nat, replaced: Option<nat>)
      requires Inv(State())
      modifies this
      ensures State() == RegisterStep(old(State()), link, meta) && Inv(State())
      ensures handle == old(|handles|)
      ensures replaced == if meta.sessionId in old(sessions) then Some(old(sessions)[meta.sessionId]) else None
    {
      ActKeepsInv(State(), Register(link, meta));
      var id := meta.sessionId;
      handle := |handles|;
      replaced := if id in sessions then Some(sessions[id]) else None;
      handles := handles + [NewHandle(link, meta)];
      sessions := sessions[id := handle];
      if replaced.Some? {
        handles := handles[replaced.value := MarkDisconnected(handles[replaced.value])];
      }
      controlLog := controlLog + [Entry(SessionConnected(SummaryOf(handles[handle])), true)];
    }

    method UnregisterSession(id: Id)
      requires Inv(State())
      modifies this
      ensures State() == UnregisterStep(old(State()), id) && Inv(State())
    {
      ActKeepsInv(State(), Unregister(id));
      if id !in sessions { return; }
      var n := sessions[id];
      sessions := sessions - {id};
      handles := handles[n := MarkDisconnected(handles[n])];
      controlLog := controlLog + [Entry(SessionDisconnected(id), true)];
    }

    method UpdateSessionMeta(id: Id, patch: Patch)
      requires Inv(State())
      modifies this
      ensures State() == UpdateMetaStep(old(State()), id, patch) && Inv(State())
    {
      ActKeepsInv(State(), UpdateMeta(id, patch));
      if id !in sessions { return; }
      var n := sessions[id];
      var meta := handles[n].meta;
      if patch.sessionFile.Some? { meta := meta.(sessionFile := patch.sessionFile); }
      if patch.sessionName.Some? { meta := meta.(sessionName := patch.sessionName); }
      if patch.cwd.Some? { meta := meta.(cwd := patch.cwd.value); }
      handles := handles[n := handles[n].(meta := meta)];
      controlLog := controlLog + [Entry(SessionMeta(SummaryOf(handles[n])), true)];
    }

    method PublishPayload(id: Id, payload: Payload)
      requires Inv(State())
      modifies this
      ensures State() == PublishStep(old(State()), id, payload) && Inv(State())
    {
      ActKeepsInv(State(), Publish(id, payload));
      if id in sessions && handles[sessions[id]].link.Remote? {
        var n := sessions[id];
        handles := handles[n := handles[n].(events := handles[n].events + [payload])];
      }
    }

    /** The summaries of all registered sessions, in no particular order. */
    method List() returns (list: seq<Summary>)
      requires Inv(State())
      ensures IsListing(list, State())
    {
      hide Listed;
      ghost var h := State();
      list := [];
      var rest := sessions.Keys;
      NothingListed(h);
      while rest != {}
        invariant rest <= sessions.Keys
        invariant Listed(list, h, sessions.Keys - rest)
        decreases |rest|
      {
        var id :| id in rest;
        var summary := SummaryOf(handles[sessions[id]]);
        ListedMore(list, h, sessions.Keys - rest, id, summary);
        list := list + [summary];
        assert sessions.Keys - rest + {id} == sessions.Keys - (rest - {id});
        rest := rest - {id};
      }
      assert sessions.Keys - {} == sessions.Keys;
    }
  }

  /** A summary says of a handle what the handle says of itself. */
  ghost predicate Describes(s: Summary, handle: Handle) {
    s.meta == handle.meta && s.status == handle.status && s.connected == handle.connected
  }

  /** The list has one summary for each of these ids and nothing else. */
  ghost predicate Listed(list: seq<Summary>, h: Hub, ids: set<Id>)
    requires Inv(h) && ids <= h.sessions.Keys
  {
    && (forall i | 0 <= i < |list| ::
          list[i].meta.sessionId in ids && Describes(list[i], h.handles[h.sessions[list[i].meta.sessionId]]))
    && (forall i, j | 0 <= i < j < |list| :: list[i].meta.sessionId != list[j].meta.sessionId)
    && (forall id | id in ids :: exists i :: 0 <= i < |list| && list[i].meta.sessionId == id)
  }

  ghost predicate IsListing(list: seq<Summary>, h: Hub)
    requires Inv(h)
  {
    Listed(list, h, h.sessions.Keys)
  }

  lemma NothingListed(h: Hub)
    requires Inv(h)
    ensures Listed([], h, {})
    ensures h.sessions.Keys - h.sessions.Keys == {}
  {
  }

  lemma ListedMore(list: seq<Summary>, h: Hub, ids: set<Id>, id: Id, s: Summary)
    requires Inv(h) && ids <= h.sessions.Keys && id in h.sessions && id !in ids
    requires Listed(list, h, ids) && Describes(s, h.handles[h.sessions[id]])
    ensures Listed(list + [s], h, ids + {id})
  {
    var more := list + [s];
    assert s.meta.sessionId == id;
    forall other | other in ids + {id} ensures exists i :: 0 <= i < |more| && more[i].meta.sessionId == other {
      if other == id {
        assert more[|list|].meta.sessionId == id;
      } else {
        var i :| 0 <= i < |list| && list[i].meta.sessionId == other;
        assert more[i].meta.sessionId == other;
      }
    }
  }

  // --- What is announced ---------------------------------------------------------------------------

  /** The handle an action is about. */
  function Subject(h: Hub, a: Action): nat {
    match a
    case Register(_, _) => |h.handles|
    case Unregister(id) => if id in h.sessions then h.sessions[id] else 0
    case UpdateMeta(id, _) => if id in h.sessions then h.sessions[id] else 0
    case Publish(id, _) => if id in h.sessions then h.sessions[id] else 0
    case Subscribe(n) => n
    case Drop(n) => n
    case Watch(n, _) => n
  }

  /** Whatever is announced describes the handle it is about as that handle now is: a registration always, a removal
      and a change of metadata if the id is registered, a change of status if streaming or preview changed. Nothing
      else is announced. */
  lemma AnnouncementsDescribe(h: Hub, a: Action)
    requires Inv(h)
    ensures var g, n := Act(h, a), Subject(h, a);
      match a
      case Register(_, _) =>
        exists s :: g.log == h.log + [Entry(SessionConnected(s), true)] && n < |g.handles| && Describes(s, g.handles[n])
      case Unregister(id) =>
        g.log == if id in h.sessions then h.log + [Entry(SessionDisconnected(id), true)] else h.log
      case UpdateMeta(id, _) =>
        if id in h.sessions then
          exists s :: g.log == h.log + [Entry(SessionMeta(s), true)] && n < |g.handles| && Describes(s, g.handles[n])
        else g.log == h.log
      case Watch(_, status) =>
        if n < |h.handles| && (status.isStreaming != h.handles[n].status.isStreaming
                               || status.lastPreview != h.handles[n].status.lastPreview) then
          exists s :: g.log == h.log + [Entry(SessionUpdate(s), exists id | id in h.sessions :: h.sessions[id] == n)]
                      && n < |g.handles| && Describes(s, g.handles[n])
        else g.log == h.log
      case _ => g.log == h.log
  {
    var g, n := Act(h, a), Subject(h, a);
    if n < |g.handles| && |g.log| == |h.log| + 1 && !g.log[|h.log|].frame.SessionDisconnected? {
      var s := g.log[|h.log|].frame.session;
      assert Describes(s, g.handles[n]);
    }
  }

  /** A new handle is connected, has the given link and metadata, and nothing has happened on it: it does not stream,
      has no preview and no events. */
  lemma RegisteredAsGiven(h: Hub, link: Link, meta: Meta)
    ensures var g := RegisterStep(h, link, meta);
      && |g.handles| == |h.handles| + 1 && g.sessions == h.sessions[meta.sessionId := |h.handles|]
      && var handle := g.handles[|h.handles|];
         && handle.link == link && handle.meta == meta && handle.connected && handle.events == [] && handle.receivers == 0
         && !handle.status.isStreaming && handle.status.lastPreview == None && handle.status.lastActivityAtMs == 0
  {
  }

  /** A patch changes exactly the fields it has, to what it has. */
  lemma PatchedFields(m: Meta, p: Patch)
    ensures var r := ApplyPatch(m, p);
      && r.sessionFile == (if p.sessionFile.Some? then Some(p.sessionFile.value) else m.sessionFile)
      && r.sessionName == (if p.sessionName.Some? then Some(p.sessionName.value) else m.sessionName)
      && r.cwd == (if p.cwd.Some? then p.cwd.value else m.cwd)
      && r.sessionId == m.sessionId && r.connectedAtMs == m.connectedAtMs
  {
  }
}

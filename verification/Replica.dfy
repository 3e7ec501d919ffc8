/** The phone's copy of the session list (`Sessions.handleControlFrame`) and the control channel that feeds it:
    subscribe, send a snapshot, then forward every message from the subscription on. */
module Replica {
  import opened Text
  import opened Session
  import opened Registry

  datatype ControlFrame =
    | Snapshot(sessions: seq<Summary>)
    | Delta(frame: Frame)
    | Unknown

  // --- The phone -----------------------------------------------------------------------------------

  type Phone = map<Id, Summary>

  function FromSnapshot(list: seq<Summary>): Phone {
    if list == [] then map[]
    else FromSnapshot(list[..|list| - 1])[list[|list| - 1].meta.sessionId := list[|list| - 1]]
  }

  function ApplyFrame(phone: Phone, f: Frame): Phone {
    match f
    case SessionDisconnected(id) => if id in phone then phone[id := phone[id].(connected := false)] else phone
    case _ => phone[FrameId(f) := f.session]
  }

  function ApplyControl(phone: Phone, f: ControlFrame): Phone {
    match f
    case Snapshot(list) => FromSnapshot(list)
    case Delta(frame) => ApplyFrame(phone, frame)
    case Unknown => phone
  }

  function Replay(phone: Phone, log: seq<Entry>): Phone
    decreases |log|
  {
    if log == [] then phone else Replay(ApplyFrame(phone, log[0].frame), log[1..])
  }

  class Sessions {
    var sessions: Phone

    constructor ()
      ensures sessions == map[]
    {
      sessions := map[];
    }

    method HandleControlFrame(frame: ControlFrame)
      modifies this
      ensures sessions == ApplyControl(old(sessions), frame)
    {
      match frame {
        case Snapshot(list) =>
          sessions := map[];
          for i := 0 to |list|
            invariant sessions == FromSnapshot(list[..i])
          {
            assert list[..i + 1][..i] == list[..i];
            sessions := sessions[list[i].meta.sessionId := list[i]];
          }
          assert list[..|list|] == list;
        case Delta(SessionDisconnected(id)) =>
          if id in sessions { sessions := sessions[id := sessions[id].(connected := false)]; }
        case Delta(f) =>
          sessions := sessions[f.session.meta.sessionId := f.session];
        case Unknown =>
      }
    }
  }

  // --- The channel ---------------------------------------------------------------------------------

  function Deltas(log: seq<Entry>): seq<ControlFrame> {
    if log == [] then [] else Deltas(log[..|log| - 1]) + [Delta(log[|log| - 1].frame)]
  }

  /** One `/ws/control` connection: where it subscribed, how far it has read, what it has sent. */
  class ControlConnection {
    ghost var subscribedAt: nat
    var cursor: nat
    var sent: seq<ControlFrame>

    ghost predicate Valid(log: seq<Entry>)
      reads this
    {
      && subscribedAt <= cursor <= |log|
      && sent != [] && sent[0].Snapshot?
      && sent[1..] == Deltas(log[subscribedAt..cursor])
    }

    /** Subscribing: nothing announced before is received. */
    constructor (registry: SessionRegistry)
      ensures subscribedAt == cursor == |registry.controlLog| && sent == []
    {
      subscribedAt, cursor, sent := |registry.controlLog|, |registry.controlLog|, [];
    }

    method SendSnapshot(registry: SessionRegistry)
      requires Inv(registry.State()) && sent == [] && subscribedAt == cursor <= |registry.controlLog|
      modifies this
      ensures Valid(registry.controlLog) && subscribedAt == old(subscribedAt)
      ensures IsListing(sent[0].sessions, registry.State())
    {
      var list := registry.List();
      sent := [Snapshot(list)];
    }

    /** The forwarding loop, until nothing is left to receive or, after `sends` messages, sending fails. */
    method Drain(registry: SessionRegistry, sends: nat) returns (ok: bool)
      requires Valid(registry.controlLog)
      modifies this
      ensures Valid(registry.controlLog)
      ensures ok <==> |registry.controlLog| <= old(cursor) + sends
      ensures cursor == if ok then |registry.controlLog| else old(cursor) + sends
      ensures subscribedAt == old(subscribedAt) && sent[0] == old(sent[0])
    {
      var left := sends;
      while cursor < |registry.controlLog|
        invariant Valid(registry.controlLog) && cursor == old(cursor) + (sends - left)
        invariant subscribedAt == old(subscribedAt) && sent[0] == old(sent[0])
      {
        if left == 0 { return false; }
        ghost var log := registry.controlLog;
        assert log[subscribedAt..cursor + 1][..cursor - subscribedAt] == log[subscribedAt..cursor];
        sent := sent + [Delta(registry.controlLog[cursor].frame)];
        cursor, left := cursor + 1, left - 1;
      }
      return true;
    }
  }

  function ApplyAll(phone: Phone, frames: seq<ControlFrame>): Phone
    decreases |frames|
  {
    if frames == [] then phone else ApplyAll(ApplyControl(phone, frames[0]), frames[1..])
  }

  lemma {:induction false} ApplyAllSnoc(phone: Phone, frames: seq<ControlFrame>, f: ControlFrame)
    ensures ApplyAll(phone, frames + [f]) == ApplyControl(ApplyAll(phone, frames), f)
    decreases |frames|
  {
    hide ApplyControl;
    if frames == [] {
      assert [] + [f] == [f] && [f][1..] == [];
    } else {
      assert (frames + [f])[1..] == frames[1..] + [f];
      ApplyAllSnoc(ApplyControl(phone, frames[0]), frames[1..], f);
    }
  }

  lemma {:induction false} ReplaySnoc(phone: Phone, log: seq<Entry>, e: Entry)
    ensures Replay(phone, log + [e]) == ApplyFrame(Replay(phone, log), e.frame)
    decreases |log|
  {
    hide ApplyFrame;
    if log == [] {
      assert [] + [e] == [e] && [e][1..] == [];
    } else {
      assert (log + [e])[1..] == log[1..] + [e];
      ReplaySnoc(ApplyFrame(phone, log[0].frame), log[1..], e);
    }
  }

  lemma {:induction false} DeltasReplay(phone: Phone, log: seq<Entry>)
    ensures ApplyAll(phone, Deltas(log)) == Replay(phone, log)
    decreases |log|
  {
    hide ApplyFrame;
    if log != [] {
      var front, last := log[..|log| - 1], log[|log| - 1];
      DeltasReplay(phone, front);
      ApplyAllSnoc(phone, Deltas(front), Delta(last.frame));
      ReplaySnoc(phone, front, last);
      assert log == front + [last];
    }
  }

  /** What the phone makes of a connection's frames: the snapshot, then every message from the subscription on. */
  lemma FramesReplay(phone: Phone, sent: seq<ControlFrame>, log: seq<Entry>)
    requires sent != [] && sent[0].Snapshot? && sent[1..] == Deltas(log)
    ensures ApplyAll(phone, sent) == Replay(FromSnapshot(sent[0].sessions), log)
  {
    DeltasReplay(FromSnapshot(sent[0].sessions), log);
  }

  // --- What the log tells --------------------------------------------------------------------------

  /** The last message about a session. */
  function LastFor(log: seq<Entry>, id: Id): Option<Entry>
    decreases |log|
  {
    if log == [] then None
    else if FrameId(log[|log| - 1].frame) == id then Some(log[|log| - 1])
    else LastFor(log[..|log| - 1], id)
  }

  /** What the session list shows of a session; the time of the last activity changes without a message. */
  datatype Shown = Shown(meta: Meta, isStreaming: bool, lastPreview: Option<string>)

  function Show(s: Summary): Shown { Shown(s.meta, s.status.isStreaming, s.status.lastPreview) }

  function ShownOf(h: Hub, id: Id): Option<Shown> {
    if id in h.sessions && h.sessions[id] < |h.handles| then
      var handle := h.handles[h.sessions[id]];
      Some(Shown(handle.meta, handle.status.isStreaming, handle.status.lastPreview))
    else None
  }

  function ShownFrame(f: Frame): Option<Shown> {
    if f.SessionDisconnected? then None else Some(Show(f.session))
  }

  /** A step announces at most one message. Without one about `id` nothing shown of `id` changes; with one that
      comes from the registered handle, the message shows the session as it now is. */
  ghost predicate StepTells(h: Hub, g: Hub, id: Id) {
    && (g.log == h.log || (|g.log| == |h.log| + 1 && h.log == g.log[..|h.log|]))
    && if g.log == h.log || FrameId(g.log[|g.log| - 1].frame) != id
       then ShownOf(g, id) == ShownOf(h, id)
       else EntryTells(g, g.log[|g.log| - 1], id)
  }

  ghost predicate EntryTells(h: Hub, e: Entry, id: Id) {
    && (e.frame.SessionDisconnected? ==> e.current)
    && (e.current ==> ShownFrame(e.frame) == ShownOf(h, id))
    && (e.current && !e.frame.SessionDisconnected? ==> e.frame.session.connected)
  }

  lemma WatchTells(h: Hub, n: nat, status: Status, id: Id)
    requires Inv(h)
    ensures StepTells(h, StatusStep(h, n, status), id)
  {
    if n < |h.handles| {
      if id in h.sessions && h.sessions[id] == n {
        assert Registered(h, n);
      } else if Registered(h, n) {
        var other :| other in h.sessions && h.sessions[other] == n;
        assert h.handles[n].meta.sessionId == other;
      }
    }
  }

  lemma RegisterTells(h: Hub, link: Link, meta: Meta, id: Id)
    requires Inv(h)
    ensures StepTells(h, RegisterStep(h, link, meta), id)
  {
  }

  lemma UnregisterTells(h: Hub, key: Id, id: Id)
    requires Inv(h)
    ensures StepTells(h, UnregisterStep(h, key), id)
  {
  }

  lemma MetaTells(h: Hub, key: Id, patch: Patch, id: Id)
    requires Inv(h)
    ensures StepTells(h, UpdateMetaStep(h, key, patch), id)
  {
  }

  lemma PublishTells(h: Hub, key: Id, payload: Payload, id: Id)
    requires Inv(h)
    ensures StepTells(h, PublishStep(h, key, payload), id)
  {
  }

  lemma ReceiverTells(h: Hub, n: nat, id: Id)
    requires Inv(h)
    ensures StepTells(h, SubscribeStep(h, n), id) && StepTells(h, DropStep(h, n), id)
  {
  }

  lemma ActTells(h: Hub, a: Action, id: Id)
    requires Inv(h)
    ensures StepTells(h, Act(h, a), id)
  {
    hide Inv, StepTells;
    match a
    case Watch(n, status) => WatchTells(h, n, status, id);
    case Register(link, meta) => RegisterTells(h, link, meta, id);
    case Unregister(key) => UnregisterTells(h, key, id);
    case UpdateMeta(key, patch) => MetaTells(h, key, patch, id);
    case Publish(key, payload) => PublishTells(h, key, payload, id);
    case Subscribe(n) => ReceiverTells(h, n, id);
    case Drop(n) => ReceiverTells(h, n, id);
  }

  /** What a run adds to the log tells about `id` whatever changed about `id`. */
  ghost predicate RunTells(h: Hub, g: Hub, id: Id) {
    && h.log <= g.log
    && match LastFor(g.log[|h.log|..], id)
       case None => ShownOf(g, id) == ShownOf(h, id)
       case Some(e) => EntryTells(g, e, id)
  }

  lemma {:induction false} LastForConcat(a: seq<Entry>, b: seq<Entry>, id: Id)
    ensures LastFor(a + b, id) == if LastFor(b, id).Some? then LastFor(b, id) else LastFor(a, id)
    decreases |b|
  {
    if b == [] {
      assert a + b == a;
    } else {
      assert (a + b)[..|a + b| - 1] == a + b[..|b| - 1];
      LastForConcat(a, b[..|b| - 1], id);
    }
  }

  lemma RunTellsStep(h: Hub, m: Hub, g: Hub, id: Id)
    requires StepTells(h, m, id) && RunTells(m, g, id)
    ensures RunTells(h, g, id)
  {
    hide ShownOf, EntryTells;
    var first, rest := m.log[|h.log|..], g.log[|m.log|..];
    assert h.log <= g.log;
    assert g.log[|h.log|..] == first + rest;
    LastForConcat(first, rest, id);
    if m.log != h.log {
      assert first == [m.log[|m.log| - 1]];
      assert first[..0] == [];
    }
    if LastFor(rest, id).None? && LastFor(first, id).Some? {
      KeepsTelling(m, g, LastFor(first, id).value, id);
    }
  }

  lemma KeepsTelling(m: Hub, g: Hub, e: Entry, id: Id)
    requires EntryTells(m, e, id) && ShownOf(g, id) == ShownOf(m, id)
    ensures EntryTells(g, e, id)
  {
  }

  lemma {:induction false} ExecTells(h: Hub, actions: seq<Action>, id: Id)
    requires Inv(h)
    ensures RunTells(h, Exec(h, actions), id)
    decreases |actions|
  {
    hide Inv, Act, StepTells, RunTells;
    if actions == [] {
      StayTells(h, id);
    } else {
      var m := Act(h, actions[0]);
      ActTells(h, actions[0], id);
      ActKeepsInv(h, actions[0]);
      ExecTells(m, actions[1..], id);
      RunTellsStep(h, m, Exec(m, actions[1..]), id);
    }
  }

  lemma StayTells(h: Hub, id: Id)
    ensures RunTells(h, h, id)
  {
    assert h.log[|h.log|..] == [];
  }

  // --- What the phone ends up with -----------------------------------------------------------------

  /** The last message about a session decides its entry; without one the entry stays. */
  lemma {:induction false} ReplayEntry(phone: Phone, log: seq<Entry>, id: Id)
    ensures var p := Replay(phone, log);
      match LastFor(log, id)
      case None => (id in p <==> id in phone) && (id in p ==> p[id] == phone[id])
      case Some(e) =>
        if e.frame.SessionDisconnected? then id in p ==> !p[id].connected
        else id in p && p[id] == e.frame.session
    decreases |log|
  {
    if log != [] {
      var front, last := log[..|log| - 1], log[|log| - 1];
      ReplayEntry(phone, front, id);
      ReplaySnoc(phone, front, last);
      assert log == front + [last];
    }
  }

  lemma {:induction false} SnapshotEntries(list: seq<Summary>, id: Id)
    ensures id in FromSnapshot(list) <==> exists i | 0 <= i < |list| :: list[i].meta.sessionId == id
    ensures id in FromSnapshot(list) ==> FromSnapshot(list)[id] in list && FromSnapshot(list)[id].meta.sessionId == id
  {
    if list != [] {
      SnapshotEntries(list[..|list| - 1], id);
    }
  }

  /** A snapshot lists exactly the registered sessions, as they are. */
  lemma SnapshotShows(list: seq<Summary>, h: Hub, id: Id)
    requires Inv(h) && IsListing(list, h)
    ensures id in FromSnapshot(list) <==> id in h.sessions
    ensures id in h.sessions ==> Describes(FromSnapshot(list)[id], h.handles[h.sessions[id]])
  {
    SnapshotEntries(list, id);
    if id in h.sessions {
      var i :| 0 <= i < |list| && list[i].meta.sessionId == id;
    }
  }

  /** The phone and the registry agree on a session: listed as connected exactly if registered, and then shown
      as it is. */
  ghost predicate Agrees(phone: Phone, h: Hub, id: Id) {
    (if id in phone && phone[id].connected then Some(Show(phone[id])) else None) == ShownOf(h, id)
  }

  /** Three moments of one run: subscribed at `first`, the snapshot taken at `second`, all messages read at `third`. */
  ghost predicate Moments(first: Hub, second: Hub, third: Hub) {
    Inv(first) && Inv(second) && Inv(third) && first.log <= second.log <= third.log
  }

  /** What the phone holds at the end. */
  function Received(list: seq<Summary>, first: Hub, third: Hub): Phone
    requires first.log <= third.log
  {
    Replay(FromSnapshot(list), third.log[|first.log|..])
  }

  /** A connection that subscribed when the Hub was `first` and has drained the channel at `third` has left the
      phone with exactly that. */
  lemma DrainedIsReceived(phone: Phone, sent: seq<ControlFrame>, first: Hub, third: Hub)
    requires first.log <= third.log
    requires sent != [] && sent[0].Snapshot? && sent[1..] == Deltas(third.log[|first.log|..|third.log|])
    ensures ApplyAll(phone, sent) == Received(sent[0].sessions, first, third)
  {
    assert third.log[|first.log|..|third.log|] == third.log[|first.log|..];
    FramesReplay(phone, sent, third.log[|first.log|..]);
  }

  /** The messages since the subscription, split where the snapshot was taken: the ones before it are replayed
      over a newer snapshot, but they are never the last word on what changed after it. */
  lemma WindowTells(first: Hub, second: Hub, third: Hub, id: Id)
    requires Moments(first, second, third) && RunTells(first, second, id) && RunTells(second, third, id)
    ensures match LastFor(third.log[|first.log|..], id)
      case None => ShownOf(third, id) == ShownOf(second, id)
      case Some(e) => EntryTells(third, e, id)
  {
    hide Inv, ShownOf, EntryTells;
    var a, b := second.log[|first.log|..], third.log[|second.log|..];
    assert third.log[|first.log|..] == a + b;
    LastForConcat(a, b, id);
    if LastFor(b, id).None? && LastFor(a, id).Some? {
      KeepsTelling(second, third, LastFor(a, id).value, id);
    }
  }

  lemma RegisteredIsListed(list: seq<Summary>, first: Hub, second: Hub, third: Hub, id: Id)
    requires Moments(first, second, third) && IsListing(list, second)
    requires RunTells(first, second, id) && RunTells(second, third, id)
    ensures id in third.sessions ==> id in Received(list, first, third)
  {
    WindowTells(first, second, third, id);
    ReplayEntry(FromSnapshot(list), third.log[|first.log|..], id);
    SnapshotShows(list, second, id);
    hide RunTells, LastFor, Replay, IsListing;
  }

  /** The states of one run of the Hub. */
  lemma RunMoments(before: seq<Action>, between: seq<Action>, after: seq<Action>, id: Id)
    ensures var first := Exec(EMPTY_HUB, before);
      var second := Exec(first, between);
      var third := Exec(second, after);
      && Moments(first, second, third)
      && RunTells(first, second, id) && RunTells(second, third, id)
  {
    hide Act, Inv, RunTells;
    EmptyInv();
    ExecKeepsInv(EMPTY_HUB, before);
    var first := Exec(EMPTY_HUB, before);
    ExecKeepsInv(first, between);
    ExecTells(first, between, id);
    var second := Exec(first, between);
    ExecKeepsInv(second, after);
    ExecTells(second, after, id);
  }

  lemma EmptyInv()
    ensures Inv(EMPTY_HUB)
  {
  }

  /** The last message is the last word on how the session is: there is none, or it came from the registered
      handle, or it came from a stale one and happens to say what is so. A stale handle that says it is
      disconnected is right exactly if the session is not registered. */
  ghost predicate LastWordHolds(h: Hub, id: Id, last: Option<Entry>) {
    match last
    case None => true
    case Some(e) =>
      || e.current || e.frame.SessionDisconnected?
      || (if e.frame.session.connected then ShownOf(h, id) == Some(Show(e.frame.session)) else id !in h.sessions)
  }

  lemma LastWordDecides(list: seq<Summary>, first: Hub, second: Hub, third: Hub, id: Id)
    requires Moments(first, second, third) && IsListing(list, second)
    requires RunTells(first, second, id) && RunTells(second, third, id)
    ensures Agrees(Received(list, first, third), third, id)
       <==> LastWordHolds(third, id, LastFor(third.log[|first.log|..], id))
  {
    WindowTells(first, second, third, id);
    ReplayEntry(FromSnapshot(list), third.log[|first.log|..], id);
    SnapshotShows(list, second, id);
    hide RunTells, LastFor, Replay, IsListing;
  }

  /** Convergence, session by session, with its exact condition. Whatever happened before the subscription,
      between it and the snapshot, and afterwards: once the phone has read every message, it agrees with the
      registry on a session if and only if the last message about it holds. */
  lemma ConvergenceIff(before: seq<Action>, between: seq<Action>, after: seq<Action>, list: seq<Summary>, id: Id)
    requires Inv(Exec(Exec(EMPTY_HUB, before), between)) && IsListing(list, Exec(Exec(EMPTY_HUB, before), between))
    ensures var first := Exec(EMPTY_HUB, before);
      var third := Exec(Exec(first, between), after);
      && first.log <= third.log
      && (Agrees(Received(list, first, third), third, id)
          <==> LastWordHolds(third, id, LastFor(third.log[|first.log|..], id)))
  {
    hide Inv, RunTells, LastFor, Act, Exec, Agrees, Received, LastWordHolds;
    RunMoments(before, between, after, id);
    LastWordDecides(list, Exec(EMPTY_HUB, before), Exec(Exec(EMPTY_HUB, before), between),
                    Exec(Exec(Exec(EMPTY_HUB, before), between), after), id);
  }

  /** In particular it agrees on each session whose last message came from the registered handle, and on each
      session with no message at all. */
  lemma Convergence(before: seq<Action>, between: seq<Action>, after: seq<Action>, list: seq<Summary>, id: Id)
    requires Inv(Exec(Exec(EMPTY_HUB, before), between)) && IsListing(list, Exec(Exec(EMPTY_HUB, before), between))
    ensures var first := Exec(EMPTY_HUB, before);
      var third := Exec(Exec(first, between), after);
      && first.log <= third.log
      && var last := LastFor(third.log[|first.log|..], id);
         last.None? || last.value.current ==> Agrees(Received(list, first, third), third, id)
  {
    hide Inv, RunTells, LastFor, Act, Exec, Agrees, Received;
    ConvergenceIff(before, between, after, list, id);
  }

  /** Without any assumption on the watchers, every registered session is at least listed. */
  lemma EveryRegisteredIsListed(before: seq<Action>, between: seq<Action>, after: seq<Action>, list: seq<Summary>, id: Id)
    requires Inv(Exec(Exec(EMPTY_HUB, before), between)) && IsListing(list, Exec(Exec(EMPTY_HUB, before), between))
    ensures var first := Exec(EMPTY_HUB, before);
      var third := Exec(Exec(first, between), after);
      && first.log <= third.log
      && (id in third.sessions ==> id in Received(list, first, third))
  {
    hide Inv, RunTells, LastFor, Act, Exec, Agrees, Received;
    RunMoments(before, between, after, id);
    RegisteredIsListed(list, Exec(EMPTY_HUB, before), Exec(Exec(EMPTY_HUB, before), between),
                 Exec(Exec(Exec(EMPTY_HUB, before), between), after), id);
  }

  // --- The whole list ------------------------------------------------------------------------------

  function ConnectedEntries(phone: Phone): map<Id, Shown> {
    map id | id in phone && phone[id].connected :: Show(phone[id])
  }

  function RegistryEntries(h: Hub): map<Id, Shown>
    requires Wired(h)
  {
    map id | id in h.sessions ::
      var handle := h.handles[h.sessions[id]]; Shown(handle.meta, handle.status.isStreaming, handle.status.lastPreview)
  }

  /** No message comes from the watcher of a handle that is no longer registered. */
  predicate NoStaleMessage(log: seq<Entry>) { forall i | 0 <= i < |log| :: log[i].current }

  lemma {:induction false} LastForIsInLog(log: seq<Entry>, id: Id)
    requires NoStaleMessage(log) && LastFor(log, id).Some?
    ensures LastFor(log, id).value.current
    decreases |log|
  {
    if FrameId(log[|log| - 1].frame) != id { LastForIsInLog(log[..|log| - 1], id); }
  }

  /** Every last message since the subscription holds. */
  ghost predicate LastWordsHold(first: Hub, third: Hub)
    requires first.log <= third.log
  {
    forall id: Id :: LastWordHolds(third, id, LastFor(third.log[|first.log|..], id))
  }

  /** Replica convergence, with its exact condition: the phone's connected entries are the registry, on id,
      metadata, streaming and preview, if and only if every session's last message since the subscription holds. */
  lemma ReplicaConvergesIff(before: seq<Action>, between: seq<Action>, after: seq<Action>, list: seq<Summary>)
    requires Inv(Exec(Exec(EMPTY_HUB, before), between)) && IsListing(list, Exec(Exec(EMPTY_HUB, before), between))
    ensures var first := Exec(EMPTY_HUB, before);
      var third := Exec(Exec(first, between), after);
      && first.log <= third.log && Wired(third)
      && (ConnectedEntries(Received(list, first, third)) == RegistryEntries(third) <==> LastWordsHold(first, third))
  {
    hide LastFor, Act, Exec, Received, IsListing, LastWordHolds, Agrees;
    var first := Exec(EMPTY_HUB, before);
    var third := Exec(Exec(first, between), after);
    RunMoments(before, between, after, "");
    var phone := Received(list, first, third);
    forall id: Id
      ensures Agrees(phone, third, id) <==> LastWordHolds(third, id, LastFor(third.log[|first.log|..], id))
    {
      ConvergenceIff(before, between, after, list, id);
    }
    AgreeEverywhere(phone, third);
  }

  /** So it does with no stale message since the subscription. */
  lemma ReplicaConverges(before: seq<Action>, between: seq<Action>, after: seq<Action>, list: seq<Summary>)
    requires Inv(Exec(Exec(EMPTY_HUB, before), between)) && IsListing(list, Exec(Exec(EMPTY_HUB, before), between))
    requires var first := Exec(EMPTY_HUB, before);
      var third := Exec(Exec(first, between), after);
      first.log <= third.log && NoStaleMessage(third.log[|first.log|..])
    ensures var first := Exec(EMPTY_HUB, before);
      var third := Exec(Exec(first, between), after);
      Wired(third) && ConnectedEntries(Received(list, first, third)) == RegistryEntries(third)
  {
    hide LastFor, Act, Exec, Received, IsListing, ConnectedEntries, RegistryEntries, NoStaleMessage, Wired, Inv;
    ReplicaConvergesIff(before, between, after, list);
    var first := Exec(EMPTY_HUB, before);
    var window := Exec(Exec(first, between), after).log[|first.log|..];
    forall id: Id | LastFor(window, id).Some? ensures LastFor(window, id).value.current {
      LastForIsInLog(window, id);
    }
  }

  /** What agreement means, field by field: a registered session's entry on the phone is connected and has the
      metadata, the streaming flag and the preview of its handle; an unregistered one is not connected there. */
  lemma AgreementIsByField(phone: Phone, h: Hub, id: Id)
    requires Wired(h)
    ensures Agrees(phone, h, id) <==>
      if id in h.sessions then
        var handle := h.handles[h.sessions[id]];
        && id in phone && phone[id].connected && phone[id].meta == handle.meta
        && phone[id].status.isStreaming == handle.status.isStreaming
        && phone[id].status.lastPreview == handle.status.lastPreview
      else id in phone ==> !phone[id].connected
  {
  }

  /** So with no stale message every registered session is on the phone with its handle's own fields. */
  lemma PhoneHasTheHandles(before: seq<Action>, between: seq<Action>, after: seq<Action>, list: seq<Summary>, id: Id)
    requires Inv(Exec(Exec(EMPTY_HUB, before), between)) && IsListing(list, Exec(Exec(EMPTY_HUB, before), between))
    requires var first := Exec(EMPTY_HUB, before);
      var third := Exec(Exec(first, between), after);
      && first.log <= third.log && id in third.sessions
      && (LastFor(third.log[|first.log|..], id).Some? ==> LastFor(third.log[|first.log|..], id).value.current)
    ensures var first := Exec(EMPTY_HUB, before);
      var third := Exec(Exec(first, between), after);
      && first.log <= third.log && Wired(third)
      && var phone, handle := Received(list, first, third), third.handles[third.sessions[id]];
         && id in phone && phone[id].connected && phone[id].meta == handle.meta
         && phone[id].status.isStreaming == handle.status.isStreaming
         && phone[id].status.lastPreview == handle.status.lastPreview
  {
    hide LastFor, Act, Exec, Received, IsListing, Agrees, Inv;
    Convergence(before, between, after, list, id);
    RunMoments(before, between, after, id);
    var first := Exec(EMPTY_HUB, before);
    var third := Exec(Exec(first, between), after);
    MomentsAreWired(first, Exec(first, between), third);
    AgreementIsByField(Received(list, first, third), third, id);
  }

  lemma MomentsAreWired(first: Hub, second: Hub, third: Hub)
    requires Moments(first, second, third)
    ensures Wired(third)
  {
  }

  /** The phone's entry after a frame: a disconnect keeps everything but the flag, and no other entry changes. */
  lemma FrameByField(phone: Phone, f: Frame, id: Id)
    ensures var p := ApplyFrame(phone, f);
      match f
      case SessionDisconnected(gone) =>
        && (id in p <==> id in phone)
        && (id in phone ==> p[id].meta == phone[id].meta && p[id].status == phone[id].status
                            && p[id].connected == (phone[id].connected && id != gone))
      case _ =>
        && (id in p <==> id in phone || id == f.session.meta.sessionId)
        && (id == f.session.meta.sessionId ==> p[id] == f.session)
        && (id in phone && id != f.session.meta.sessionId ==> p[id] == phone[id])
  {
  }

  lemma AgreeEverywhere(phone: Phone, h: Hub)
    requires Inv(h)
    ensures ConnectedEntries(phone) == RegistryEntries(h) <==> forall id: Id :: Agrees(phone, h, id)
  {
    var mine, theirs := ConnectedEntries(phone), RegistryEntries(h);
    if mine == theirs {
      forall id: Id ensures Agrees(phone, h, id) {
        assert id in mine <==> id in theirs;
        assert id in mine ==> mine[id] == theirs[id];
      }
    }
    if forall id: Id :: Agrees(phone, h, id) {
      forall id: Id ensures id in mine <==> id in theirs
        ensures id in mine && id in theirs ==> mine[id] == theirs[id]
      {
        assert Agrees(phone, h, id);
      }
    }
  }

  // --- A run with a stale message ------------------------------------------------------------------

  lemma ExecOne(h: Hub, run: seq<Action>)
    requires run != []
    ensures Exec(h, run) == Exec(Act(h, run[0]), run[1..])
  {
    hide Act;
  }

  /** Two registrations of one id; afterwards the watcher of the replaced handle reports one more event. The
      phone then shows the session as disconnected although it is registered. */
  lemma StaleMessageMisleads(meta: Meta, status: Status)
    requires status.isStreaming
    ensures var run := [Register(Remote(0), meta), Subscribe(0), Register(Remote(1), meta), Watch(0, status)];
      var end := Exec(EMPTY_HUB, run);
      && meta.sessionId in end.sessions
      && meta.sessionId in Received([], EMPTY_HUB, end)
      && !Received([], EMPTY_HUB, end)[meta.sessionId].connected
  {
    var run := [Register(Remote(0), meta), Subscribe(0), Register(Remote(1), meta), Watch(0, status)];
    var end := StaleRun(meta, status);
    assert Exec(EMPTY_HUB, run) == end by {
      hide Act, Exec;
      ExecOne(EMPTY_HUB, run);
      assert run[1..] == [Subscribe(0), Register(Remote(1), meta), Watch(0, status)];
      ExecOne(Act(EMPTY_HUB, run[0]), run[1..]);
      assert run[1..][1..] == [Register(Remote(1), meta), Watch(0, status)];
      ExecOne(Act(Act(EMPTY_HUB, run[0]), Subscribe(0)), run[1..][1..]);
      assert run[1..][1..][1..] == [Watch(0, status)];
      ExecOne(Act(Act(Act(EMPTY_HUB, run[0]), Subscribe(0)), Register(Remote(1), meta)), run[1..][1..][1..]);
      assert run[1..][1..][1..][1..] == [];
      ExecNone(Act(Act(Act(Act(EMPTY_HUB, run[0]), Subscribe(0)), Register(Remote(1), meta)), Watch(0, status)));
    }
    StaleRunShows(meta, status);
  }

  lemma ExecNone(h: Hub)
    ensures Exec(h, []) == h
  {
  }

  function StaleRun(meta: Meta, status: Status): Hub {
    Act(Act(Act(Act(EMPTY_HUB, Register(Remote(0), meta)), Subscribe(0)), Register(Remote(1), meta)), Watch(0, status))
  }

  lemma StaleRunShows(meta: Meta, status: Status)
    requires status.isStreaming
    ensures meta.sessionId in StaleRun(meta, status).sessions
    ensures var phone := Received([], EMPTY_HUB, StaleRun(meta, status));
      meta.sessionId in phone && !phone[meta.sessionId].connected
  {
    var end := StaleRun(meta, status);
    assert end.log[0..] == end.log;
    ReplayEntry(FromSnapshot([]), end.log, meta.sessionId);
    assert LastFor(end.log, meta.sessionId) == Some(end.log[|end.log| - 1]);
  }
}

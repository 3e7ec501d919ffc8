/** Registering and unregistering in their separate parts: the map changes under a lock, the `connected` watch of
    the handle that left the map is set afterwards, and anything may happen in between. */
module Lifecycle {
  import opened Text
  import opened Session
  import Registry

  /** A handle's `connected` watch: its value and how often it was set. */
  datatype Watch = Watch(connected: bool, version: nat)

  /** A status watcher or event forwarder: the handle it follows, the version it has seen, whether it runs. A
      running task holds a receiver. */
  datatype Task = Task(handle: nat, seen: nat, running: bool)

  /** `pending` are the handles that have left the map and are not marked yet; `marked` those that are. */
  datatype State = State(sessions: map<Id, nat>, watches: seq<Watch>, tasks: seq<Task>, pending: set<nat>, marked: set<nat>)

  const EMPTY := State(map[], [], [], {}, {})

  datatype Step =
    | Insert(id: Id)
    | Remove(id: Id)
    | Mark(handle: nat)
    | Spawn(handle: nat)
    | Poll(task: nat)
    | End(task: nat)

  predicate HasReceiver(s: State, n: nat) {
    exists t | 0 <= t < |s.tasks| :: s.tasks[t].running && s.tasks[t].handle == n
  }

  predicate InMap(s: State, n: nat) { exists id | id in s.sessions :: s.sessions[id] == n }

  function Leaving(s: State, id: Id): set<nat> { if id in s.sessions then {s.sessions[id]} else {} }

  /** A watch send: without a receiver it changes nothing. */
  function SendFalse(s: State, n: nat): State {
    if n < |s.watches| && HasReceiver(s, n)
    then s.(watches := s.watches[n := Watch(false, s.watches[n].version + 1)]) else s
  }

  /** A task's `changed()` arm: nothing to do unless the version is new, and then it stops if disconnected. */
  function PollTask(s: State, t: nat): State {
    if t < |s.tasks| && s.tasks[t].running && s.tasks[t].handle < |s.watches|
       && s.tasks[t].seen != s.watches[s.tasks[t].handle].version then
      var watch := s.watches[s.tasks[t].handle];
      s.(tasks := s.tasks[t := s.tasks[t].(seen := watch.version, running := watch.connected)])
    else s
  }

  function Next(s: State, step: Step): State {
    match step
    case Insert(id) =>
      s.(sessions := s.sessions[id := |s.watches|], watches := s.watches + [Watch(true, 0)],
         pending := s.pending + Leaving(s, id))
    case Remove(id) => s.(sessions := s.sessions - {id}, pending := s.pending + Leaving(s, id))
    case Mark(n) =>
      if n in s.pending then SendFalse(s, n).(pending := s.pending - {n}, marked := s.marked + {n}) else s
    case Spawn(n) =>
      if n < |s.watches| then s.(tasks := s.tasks + [Task(n, s.watches[n].version, true)]) else s
    case Poll(t) => PollTask(s, t)
    case End(t) => if t < |s.tasks| then s.(tasks := s.tasks[t := s.tasks[t].(running := false)]) else s
  }

  function Run(s: State, steps: seq<Step>): State
    decreases |steps|
  {
    if steps == [] then s else Run(Next(s, steps[0]), steps[1..])
  }

  // --- What every step keeps -----------------------------------------------------------------------

  /** Each handle is in the map under one id, or waiting to be marked, or marked, and never two of these; only
      marking turns `connected` off, and each handle is marked at most once. */
  ghost predicate Inv(s: State) {
    && (forall id | id in s.sessions :: Live(s, s.sessions[id]))
    && (forall a, b | a in s.sessions && b in s.sessions :: s.sessions[a] == s.sessions[b] ==> a == b)
    && (forall n | n in s.pending :: n < |s.watches| && n !in s.marked && s.watches[n] == Watch(true, 0))
    && (forall n | n in s.marked :: n < |s.watches| && s.watches[n] in {Watch(true, 0), Watch(false, 1)})
    && (forall t | 0 <= t < |s.tasks| :: TaskFits(s, s.tasks[t]))
  }

  ghost predicate Live(s: State, n: nat) {
    n < |s.watches| && n !in s.pending && n !in s.marked && s.watches[n] == Watch(true, 0)
  }

  ghost predicate TaskFits(s: State, t: Task) {
    t.handle < |s.watches| && t.seen <= s.watches[t.handle].version
  }

  lemma EmptyInv()
    ensures Inv(EMPTY)
  {
  }

  lemma MarkKeepsInv(s: State, n: nat)
    requires Inv(s) && n in s.pending
    ensures Inv(Next(s, Mark(n)))
  {
    hide HasReceiver;
    var t := Next(s, Mark(n));
    forall k | 0 <= k < |t.tasks| ensures TaskFits(t, t.tasks[k]) { assert TaskFits(s, s.tasks[k]); }
    forall id | id in t.sessions ensures Live(t, t.sessions[id]) { assert Live(s, s.sessions[id]); }
  }

  lemma InsertKeepsInv(s: State, id: Id)
    requires Inv(s)
    ensures Inv(Next(s, Insert(id)))
  {
    hide HasReceiver;
    if id in s.sessions { assert Live(s, s.sessions[id]); }
    var t := Next(s, Insert(id));
    forall k | 0 <= k < |s.tasks| ensures TaskFits(t, t.tasks[k]) { assert TaskFits(s, s.tasks[k]); }
    forall a | a in t.sessions ensures Live(t, t.sessions[a]) { if a != id { assert Live(s, s.sessions[a]); } }
  }

  lemma RemoveKeepsInv(s: State, id: Id)
    requires Inv(s)
    ensures Inv(Next(s, Remove(id)))
  {
    hide HasReceiver;
    if id in s.sessions { assert Live(s, s.sessions[id]); }
    var t := Next(s, Remove(id));
    forall k | 0 <= k < |s.tasks| ensures TaskFits(t, t.tasks[k]) { assert TaskFits(s, s.tasks[k]); }
    forall a | a in t.sessions ensures Live(t, t.sessions[a]) { assert Live(s, s.sessions[a]); }
  }

  lemma TaskChangeKeepsInv(s: State, step: Step)
    requires Inv(s) && (step.Spawn? || step.Poll? || step.End?)
    ensures Inv(Next(s, step))
  {
    hide HasReceiver;
    var t := Next(s, step);
    forall k | 0 <= k < |t.tasks| ensures TaskFits(t, t.tasks[k]) {
      if k < |s.tasks| { assert TaskFits(s, s.tasks[k]); }
    }
    forall a | a in t.sessions ensures Live(t, t.sessions[a]) { assert Live(s, s.sessions[a]); }
  }

  lemma StepKeepsInv(s: State, step: Step)
    requires Inv(s)
    ensures Inv(Next(s, step))
  {
    hide Inv, SendFalse, PollTask;
    match step
    case Insert(id) => InsertKeepsInv(s, id);
    case Remove(id) => RemoveKeepsInv(s, id);
    case Mark(n) => if n in s.pending { MarkKeepsInv(s, n); }
    case _ => TaskChangeKeepsInv(s, step);
  }

  /** How a handle may move: what has left the map never returns to it, what is off stays off, what is marked
      stays as it was marked. */
  ghost predicate Forward(s: State, t: State, n: nat) {
    n < |s.watches| ==>
      && n < |t.watches|
      && (InMap(t, n) ==> InMap(s, n))
      && (!s.watches[n].connected ==> !t.watches[n].connected)
      && (n in s.marked ==> n in t.marked && t.watches[n] == s.watches[n])
  }

  lemma StepForward(s: State, step: Step, n: nat)
    requires Inv(s)
    ensures Forward(s, Next(s, step), n)
  {
    hide HasReceiver;
    var t := Next(s, step);
    if n < |s.watches| && InMap(t, n) {
      var id :| id in t.sessions && t.sessions[id] == n;
      assert s.sessions[id] == n;
    }
  }

  lemma {:induction false} RunForward(s: State, steps: seq<Step>, n: nat)
    requires Inv(s)
    ensures Inv(Run(s, steps)) && Forward(s, Run(s, steps), n)
    decreases |steps|
  {
    hide Inv, Next, InMap;
    if steps != [] {
      StepKeepsInv(s, steps[0]);
      StepForward(s, steps[0], n);
      RunForward(Next(s, steps[0]), steps[1..], n);
    }
  }

  /** After any run every handle in the map is connected, unmarked, and in the map under one id only. */
  lemma RegisteredIsConnected(steps: seq<Step>, id: Id)
    ensures var s := Run(EMPTY, steps);
      id in s.sessions ==>
        && s.sessions[id] < |s.watches| && s.watches[s.sessions[id]].connected
        && s.sessions[id] !in s.pending && s.sessions[id] !in s.marked
        && forall other | other in s.sessions && s.sessions[other] == s.sessions[id] :: other == id
  {
    hide Run, Next;
    EmptyInv();
    RunForward(EMPTY, steps, 0);
    var s := Run(EMPTY, steps);
    if id in s.sessions { assert Live(s, s.sessions[id]); }
  }

  /** From any reachable state on: no handle that is outside the map gets into it again, and no flag that is off
      comes on again. */
  lemma NoWayBack(before: seq<Step>, after: seq<Step>, n: nat)
    requires n < |Run(EMPTY, before).watches|
    ensures var s, t := Run(EMPTY, before), Run(Run(EMPTY, before), after);
      && n < |t.watches|
      && (!InMap(s, n) ==> !InMap(t, n))
      && (!s.watches[n].connected ==> !t.watches[n].connected)
  {
    hide Run, Next, InMap;
    EmptyInv();
    RunForward(EMPTY, before, 0);
    RunForward(Run(EMPTY, before), after, n);
  }

  // --- What marking achieves -----------------------------------------------------------------------

  /** A poll uses a change up: the task goes on exactly if nothing is new or the handle is connected, and polling again
      changes nothing. */
  lemma PollsOnce(s: State, t: nat)
    requires t < |s.tasks| && s.tasks[t].handle < |s.watches|
    ensures var p, watch := PollTask(s, t), s.watches[s.tasks[t].handle];
      && PollTask(p, t) == p && p == s.(tasks := p.tasks) && |p.tasks| == |s.tasks| && p.tasks[t].handle == s.tasks[t].handle
      && (p.tasks[t].running <==> s.tasks[t].running && (s.tasks[t].seen == watch.version || watch.connected))
      && forall u | 0 <= u < |s.tasks| && u != t :: p.tasks[u] == s.tasks[u]
  {
  }

  /** A task that has not seen that its handle went off: its next poll ends it. */
  predicate Due(s: State, t: nat) {
    && t < |s.tasks| && s.tasks[t].handle < |s.watches|
    && (s.tasks[t].running ==>
          !s.watches[s.tasks[t].handle].connected && s.tasks[t].seen != s.watches[s.tasks[t].handle].version)
  }

  lemma StepKeepsDue(s: State, step: Step, t: nat)
    requires Inv(s) && Due(s, t) && s.tasks[t].handle in s.marked
    ensures Due(Next(s, step), t) && Next(s, step).tasks[t].handle == s.tasks[t].handle
    ensures s.tasks[t].handle in Next(s, step).marked
    ensures (step == Poll(t) || !s.tasks[t].running) ==> !Next(s, step).tasks[t].running
  {
    hide HasReceiver;
    StepForward(s, step, s.tasks[t].handle);
  }

  lemma {:induction false} DueEnds(s: State, steps: seq<Step>, t: nat)
    requires Inv(s) && Due(s, t) && s.tasks[t].handle in s.marked
    ensures Due(Run(s, steps), t)
    ensures Poll(t) in steps || !s.tasks[t].running ==> !Run(s, steps).tasks[t].running
    decreases |steps|
  {
    hide Inv, Next;
    if steps != [] {
      StepKeepsInv(s, steps[0]);
      StepKeepsDue(s, steps[0], t);
      DueEnds(Next(s, steps[0]), steps[1..], t);
    }
  }

  lemma MarkOutcome(s: State, n: nat)
    requires Inv(s) && n in s.pending
    ensures var m := Next(s, Mark(n));
      && n in m.marked && (m.watches[n].connected <==> !HasReceiver(s, n))
      && m.tasks == s.tasks
      && forall t | 0 <= t < |s.tasks| && s.tasks[t].handle == n :: Due(m, t)
  {
    forall t | 0 <= t < |s.tasks| && s.tasks[t].handle == n ensures Due(Next(s, Mark(n)), t) {
      assert TaskFits(s, s.tasks[t]);
      if s.tasks[t].running { assert HasReceiver(s, n); }
    }
  }

  /** Marking, from any reachable state and whatever follows: the flag is off for good if a receiver existed at
      that moment, and stays on for good if none did; every task that had subscribed by then stops at its next
      poll at the latest. */
  lemma MarkReaches(before: seq<Step>, n: nat, after: seq<Step>, t: nat)
    requires n in Run(EMPTY, before).pending
    ensures var s := Run(EMPTY, before);
      var end := Run(Next(s, Mark(n)), after);
      && n < |end.watches| && (end.watches[n].connected <==> !HasReceiver(s, n))
      && (t < |s.tasks| && s.tasks[t].handle == n ==>
            Due(end, t) && (Poll(t) in after ==> !end.tasks[t].running))
  {
    hide Run, Next, HasReceiver, Due;
    EmptyInv();
    RunForward(EMPTY, before, 0);
    var s := Run(EMPTY, before);
    var m := Next(s, Mark(n));
    StepKeepsInv(s, Mark(n));
    StepForward(s, Mark(n), n);
    MarkOutcome(s, n);
    RunForward(m, after, n);
    if t < |s.tasks| && s.tasks[t].handle == n { DueEnds(m, after, t); }
  }

  /** A task that subscribes only after the marking (the status watcher of a session that was replaced before
      its watcher got to run) is never told: whatever follows, polling does not end it. */
  lemma LateSubscriberIsNotTold(before: seq<Step>, n: nat, after: seq<Step>)
    requires n in Run(EMPTY, before).marked
    requires End(|Run(EMPTY, before).tasks|) !in after
    ensures var s := Run(EMPTY, before);
      var end := Run(Next(s, Spawn(n)), after);
      |s.tasks| < |end.tasks| && end.tasks[|s.tasks|].running
  {
    hide Run, HasReceiver;
    EmptyInv();
    RunForward(EMPTY, before, 0);
    var s := Run(EMPTY, before);
    StepKeepsInv(s, Spawn(n));
    UpToDateRuns(Next(s, Spawn(n)), after, |s.tasks|);
  }

  lemma {:induction false} UpToDateRuns(s: State, steps: seq<Step>, t: nat)
    requires Inv(s) && t < |s.tasks| && s.tasks[t].running && s.tasks[t].handle in s.marked
    requires s.tasks[t].handle < |s.watches| && s.tasks[t].seen == s.watches[s.tasks[t].handle].version
    requires End(t) !in steps
    ensures t < |Run(s, steps).tasks| && Run(s, steps).tasks[t].running
    decreases |steps|
  {
    if steps != [] {
      StaysUpToDate(s, steps[0], t);
      hide Next, Inv;
      StepKeepsInv(s, steps[0]);
      UpToDateRuns(Next(s, steps[0]), steps[1..], t);
    }
  }

  lemma StaysUpToDate(s: State, step: Step, t: nat)
    requires Inv(s) && t < |s.tasks| && s.tasks[t].running && s.tasks[t].handle in s.marked
    requires s.tasks[t].handle < |s.watches| && s.tasks[t].seen == s.watches[s.tasks[t].handle].version
    requires step != End(t)
    ensures var g := Next(s, step);
      && t < |g.tasks| && g.tasks[t] == s.tasks[t] && g.tasks[t].handle in g.marked
      && g.tasks[t].handle < |g.watches| && g.tasks[t].seen == g.watches[g.tasks[t].handle].version
  {
    StepForward(s, step, s.tasks[t].handle);
  }

  /** Both happen: a session is registered twice before its first watcher gets to run. The replaced handle stays
      "connected", and its watcher, when it starts, runs on. */
  lemma LateWatcherRun(id: Id)
    ensures var s := Run(EMPTY, [Insert(id), Insert(id), Mark(0), Spawn(0), Poll(0)]);
      && |s.watches| == 2 && s.watches[0].connected && !InMap(s, 0) && 0 in s.marked
      && |s.tasks| == 1 && s.tasks[0].handle == 0 && s.tasks[0].running
  {
    var run := [Insert(id), Insert(id), Mark(0), Spawn(0), Poll(0)];
    RunFirst(EMPTY, run);
    assert run[1..] == [Insert(id), Mark(0), Spawn(0), Poll(0)];
    var s1 := Next(EMPTY, Insert(id));
    RunFirst(s1, run[1..]);
    assert run[1..][1..] == [Mark(0), Spawn(0), Poll(0)];
    var s2 := Next(s1, Insert(id));
    RunFirst(s2, run[1..][1..]);
    assert run[1..][1..][1..] == [Spawn(0), Poll(0)];
    hide Run;
    TwoSteps(Next(s2, Mark(0)), Spawn(0), Poll(0));
  }

  lemma RunFirst(s: State, steps: seq<Step>)
    requires steps != []
    ensures Run(s, steps) == Run(Next(s, steps[0]), steps[1..])
  {
    hide Next;
  }

  // --- The switchboard's operations are these parts run in one go ----------------------------------

  /** The registry's state and this one show the same map, flags and receivers. */
  ghost predicate Same(h: Registry.Hub, s: State) {
    && h.sessions == s.sessions && |h.handles| == |s.watches| && s.pending == {}
    && forall n | 0 <= n < |h.handles| ::
         && h.handles[n].connected == s.watches[n].connected
         && (h.handles[n].receivers > 0 <==> HasReceiver(s, n))
  }

  lemma TwoSteps(s: State, a: Step, b: Step)
    ensures Run(s, [a, b]) == Next(Next(s, a), b) && Run(s, [a]) == Next(s, a)
  {
    hide Next;
    assert [a, b][1..] == [b] && [b][1..] == [] && [a][1..] == [];
    assert Run(Next(Next(s, a), b), []) == Next(Next(s, a), b);
  }

  /** The steps of `register` and `unregister` without interruption. */
  function RegisterRun(s: State, id: Id): seq<Step> {
    if id in s.sessions then [Insert(id), Mark(s.sessions[id])] else [Insert(id)]
  }

  function UnregisterRun(s: State, id: Id): seq<Step> {
    if id in s.sessions then [Remove(id), Mark(s.sessions[id])] else [Remove(id)]
  }

  lemma RegisterIsItsParts(h: Registry.Hub, s: State, link: Link, meta: Meta)
    requires Inv(s) && Same(h, s)
    ensures Same(Registry.RegisterStep(h, link, meta), Run(s, RegisterRun(s, meta.sessionId)))
  {
    var id := meta.sessionId;
    var n := if id in s.sessions then s.sessions[id] else 0;
    TwoSteps(s, Insert(id), Mark(n));
    hide Run;
    if id in s.sessions { assert Live(s, s.sessions[id]); }
    var i, t := Next(s, Insert(id)), Run(s, RegisterRun(s, id));
    forall k: nat ensures HasReceiver(t, k) <==> HasReceiver(s, k) { SameReceivers(s, t, k); }
    SameReceivers(s, i, n);
    forall k | 0 <= k < |s.tasks| ensures s.tasks[k].handle < |s.watches| { assert TaskFits(s, s.tasks[k]); }
    assert !HasReceiver(s, |s.watches|);
  }

  lemma UnregisterIsItsParts(h: Registry.Hub, s: State, id: Id)
    requires Inv(s) && Same(h, s)
    ensures Same(Registry.UnregisterStep(h, id), Run(s, UnregisterRun(s, id)))
  {
    var n := if id in s.sessions then s.sessions[id] else 0;
    TwoSteps(s, Remove(id), Mark(n));
    hide Run;
    if id in s.sessions { assert Live(s, s.sessions[id]); }
    var i, t := Next(s, Remove(id)), Run(s, UnregisterRun(s, id));
    forall k: nat ensures HasReceiver(t, k) <==> HasReceiver(s, k) { SameReceivers(s, t, k); }
    SameReceivers(s, i, n);
  }

  lemma SameReceivers(s: State, t: State, n: nat)
    requires s.tasks == t.tasks
    ensures HasReceiver(s, n) <==> HasReceiver(t, n)
  {
  }
}

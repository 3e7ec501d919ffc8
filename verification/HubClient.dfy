/** The extension's reconnecting connection to the Hub (`HubClient`), over an environment of sockets and timers. */
module HubClient {
  import opened Text

  type SocketId = nat
  type TimerId = nat

  datatype Frame = RegisterFrame | MetaUpdateFrame | EventFrame | ResponseFrame(id: string)

  /** `Closing`: asked to close, and the close event is still to come. */
  datatype Phase = Connecting | Opened | Closing | Closed

  datatype Socket = Socket(phase: Phase, frames: seq<Frame>)

  datatype Timer = Timer(delay: nat, pending: bool)

  datatype Status = Idle | ConnectingStatus | Connected | Disconnected | Error

  datatype State = State(
    ws: Option<SocketId>,
    closed: bool,
    reconnectAttempt: nat,
    reconnectTimer: Option<TimerId>,
    status: Status,
    sockets: seq<Socket>,
    timers: seq<Timer>)

  const FRESH := State(None, false, 0, None, Idle, [], [])

  const RECONNECT_DELAYS_MS: seq<nat> := [1000, 2000, 5000, 10000]

  function DelayFor(attempt: nat): nat { RECONNECT_DELAYS_MS[if attempt < 3 then attempt else 3] }

  // --- The client's methods and callbacks ----------------------------------------------------------

  function ScheduleStep(s: State): State {
    s.(reconnectAttempt := s.reconnectAttempt + 1, reconnectTimer := Some(|s.timers|),
       timers := s.timers + [Timer(DelayFor(s.reconnectAttempt), true)])
  }

  /** `tokenOk`: whether the agent token could be read. */
  function OpenStep(s: State, tokenOk: bool): State {
    if s.closed then s
    else if !tokenOk then ScheduleStep(s.(status := Error))
    else s.(status := ConnectingStatus, ws := Some(|s.sockets|), sockets := s.sockets + [Socket(Connecting, [])])
  }

  function ConnectStep(s: State, tokenOk: bool): State { OpenStep(s.(closed := false), tokenOk) }

  predicate CanSend(s: State) { s.ws.Some? && s.ws.value < |s.sockets| && s.sockets[s.ws.value].phase.Opened? }

  function SendStep(s: State, f: Frame): State {
    if CanSend(s)
    then s.(sockets := s.sockets[s.ws.value := s.sockets[s.ws.value].(frames := s.sockets[s.ws.value].frames + [f])])
    else s
  }

  function ClearTimer(timers: seq<Timer>, t: Option<TimerId>): seq<Timer> {
    if t.Some? && t.value < |timers| then timers[t.value := timers[t.value].(pending := false)] else timers
  }

  function AskToClose(sockets: seq<Socket>, k: Option<SocketId>): seq<Socket> {
    if k.Some? && k.value < |sockets| && (sockets[k.value].phase.Connecting? || sockets[k.value].phase.Opened?)
    then sockets[k.value := sockets[k.value].(phase := Closing)] else sockets
  }

  function CloseStep(s: State): State {
    s.(closed := true, timers := ClearTimer(s.timers, s.reconnectTimer), sockets := AskToClose(s.sockets, s.ws))
  }

  predicate Pending(s: State, t: TimerId) { t < |s.timers| && s.timers[t].pending }

  predicate Unclosed(s: State, k: SocketId) { k < |s.sockets| && !s.sockets[k].phase.Closed? }

  function TimerStep(s: State, t: TimerId, tokenOk: bool): State {
    if Pending(s, t) then OpenStep(s.(timers := s.timers[t := s.timers[t].(pending := false)]), tokenOk) else s
  }

  function OpenedStep(s: State, k: SocketId): State {
    if k < |s.sockets| && s.sockets[k].phase.Connecting?
    then SendStep(s.(sockets := s.sockets[k := s.sockets[k].(phase := Opened)], reconnectAttempt := 0), RegisterFrame)
    else s
  }

  function ClosedStep(s: State, k: SocketId): State {
    if Unclosed(s, k) then
      var t := s.(sockets := s.sockets[k := s.sockets[k].(phase := Closed)], status := Disconnected);
      if s.closed then t else ScheduleStep(t)
    else s
  }

  datatype Happening =
    | TimerFires(timer: TimerId, tokenOk: bool)
    | SocketOpens(socket: SocketId)
    | SocketCloses(socket: SocketId)
    | SocketFails(socket: SocketId)
    | Registered(socket: SocketId)
    | Send(frame: Frame)
    | Close

  /** What may happen after the one `connect()`: the environment's events in any order, frames being sent (events,
      renames, responses of handlers that settle), and `close()`. */
  function Next(s: State, a: Happening): State {
    match a
    case TimerFires(t, tokenOk) => TimerStep(s, t, tokenOk)
    case SocketOpens(k) => OpenedStep(s, k)
    case SocketCloses(k) => ClosedStep(s, k)
    case SocketFails(k) => if Unclosed(s, k) then s.(status := Error) else s
    case Registered(k) => if Unclosed(s, k) then s.(status := Connected) else s
    case Send(f) => if f.RegisterFrame? then s else SendStep(s, f)
    case Close => CloseStep(s)
  }

  function Run(s: State, run: seq<Happening>): State
    decreases |run|
  {
    if run == [] then s else Run(Next(s, run[0]), run[1..])
  }

  // --- The class -----------------------------------------------------------------------------------

  class HubClient {
    var ws: Option<SocketId>
    var closed: bool
    var reconnectAttempt: nat
    var reconnectTimer: Option<TimerId>
    var status: Status
    var sockets: seq<Socket>
    var timers: seq<Timer>

    ghost function Current(): State
      reads this
    {
      State(ws, closed, reconnectAttempt, reconnectTimer, status, sockets, timers)
    }

    constructor ()
      ensures Current() == FRESH
    {
      ws, closed, reconnectAttempt, reconnectTimer, status := None, false, 0, None, Idle;
      sockets, timers := [], [];
    }

    method Connect(tokenOk: bool)
      modifies this
      ensures Current() == ConnectStep(old(Current()), tokenOk)
    {
      closed := false;
      Open(tokenOk);
    }

    method CloseClient()
      modifies this
      ensures Current() == CloseStep(old(Current()))
    {
      closed := true;
      if reconnectTimer.Some? && reconnectTimer.value < |timers| {
        timers := timers[reconnectTimer.value := timers[reconnectTimer.value].(pending := false)];
      }
      if ws.Some? && ws.value < |sockets| && (sockets[ws.value].phase.Connecting? || sockets[ws.value].phase.Opened?) {
        sockets := sockets[ws.value := sockets[ws.value].(phase := Closing)];
      }
    }

    method Open(tokenOk: bool)
      modifies this
      ensures Current() == OpenStep(old(Current()), tokenOk)
    {
      if closed { return; }
      status := ConnectingStatus;
      if !tokenOk {
        status := Error;
        ScheduleReconnect();
        return;
      }
      ws := Some(|sockets|);
      sockets := sockets + [Socket(Connecting, [])];
    }

    method ScheduleReconnect()
      modifies this
      ensures Current() == ScheduleStep(old(Current()))
    {
      var delay := RECONNECT_DELAYS_MS[if reconnectAttempt < |RECONNECT_DELAYS_MS| - 1 then reconnectAttempt
                                       else |RECONNECT_DELAYS_MS| - 1];
      reconnectAttempt := reconnectAttempt + 1;
      reconnectTimer := Some(|timers|);
      timers := timers + [Timer(delay, true)];
    }

    method SendFrame(f: Frame)
      modifies this`sockets
      ensures Current() == SendStep(old(Current()), f)
    {
      if ws.Some? && ws.value < |sockets| && sockets[ws.value].phase.Opened? {
        sockets := sockets[ws.value := sockets[ws.value].(frames := sockets[ws.value].frames + [f])];
      }
    }

    method OnTimer(t: TimerId, tokenOk: bool)
      modifies this
      ensures Current() == TimerStep(old(Current()), t, tokenOk)
    {
      if t < |timers| && timers[t].pending {
        timers := timers[t := timers[t].(pending := false)];
        Open(tokenOk);
      }
    }

    method OnOpen(k: SocketId)
      modifies this
      ensures Current() == OpenedStep(old(Current()), k)
    {
      if k < |sockets| && sockets[k].phase.Connecting? {
        sockets := sockets[k := sockets[k].(phase := Opened)];
        reconnectAttempt := 0;
        SendFrame(RegisterFrame);
      }
    }

    method OnError(k: SocketId)
      modifies this`status
      ensures Current() == Next(old(Current()), SocketFails(k))
    {
      if k < |sockets| && !sockets[k].phase.Closed? { status := Error; }
    }

    method OnRegistered(k: SocketId)
      modifies this`status
      ensures Current() == Next(old(Current()), Registered(k))
    {
      if k < |sockets| && !sockets[k].phase.Closed? { status := Connected; }
    }

    method OnClose(k: SocketId)
      modifies this
      ensures Current() == ClosedStep(old(Current()), k)
    {
      if k < |sockets| && !sockets[k].phase.Closed? {
        sockets := sockets[k := sockets[k].(phase := Closed)];
        status := Disconnected;
        if !closed { ScheduleReconnect(); }
      }
    }
  }

  // --- Linearity -----------------------------------------------------------------------------------

  /** Only the timer in `reconnectTimer` can be pending and only the socket in `ws` can be unclosed. */
  ghost predicate OneEach(s: State) {
    && (forall t: TimerId | Pending(s, t) :: s.reconnectTimer == Some(t))
    && (forall k: SocketId | Unclosed(s, k) :: s.ws == Some(k))
  }

  predicate Waiting(s: State) { s.reconnectTimer.Some? && Pending(s, s.reconnectTimer.value) }

  predicate Live(s: State) { s.ws.Some? && Unclosed(s, s.ws.value) }

  /** Until `close()` exactly one of them is; afterwards no timer is, and nothing that may still be sent can go out
      on a socket that has been asked to close. */
  ghost predicate Linear(s: State) {
    && OneEach(s)
    && (if s.closed then !Waiting(s) && (Live(s) ==> s.sockets[s.ws.value].phase.Closing?)
        else (Waiting(s) <==> !Live(s)) && (Live(s) ==> !s.sockets[s.ws.value].phase.Closing?))
  }

  lemma ConnectLinear(tokenOk: bool)
    ensures Linear(ConnectStep(FRESH, tokenOk)) && !ConnectStep(FRESH, tokenOk).closed
  {
  }

  lemma StepLinear(s: State, a: Happening)
    requires Linear(s)
    ensures Linear(Next(s, a))
    ensures s.closed ==> Next(s, a).closed && |Next(s, a).sockets| == |s.sockets| && |Next(s, a).timers| == |s.timers|
    ensures a == Close ==> Next(s, a).closed
    ensures !s.closed && a != Close ==> !Next(s, a).closed
  {
    hide DelayFor;
    match a
    case TimerFires(t, tokenOk) => TimerLinear(s, t, tokenOk);
    case SocketOpens(k) => OpenedLinear(s, k);
    case SocketCloses(k) => ClosedLinear(s, k);
    case _ =>
  }

  lemma TimerLinear(s: State, t: TimerId, tokenOk: bool)
    requires Linear(s)
    ensures Linear(TimerStep(s, t, tokenOk)) && TimerStep(s, t, tokenOk).closed == s.closed
    ensures s.closed ==> TimerStep(s, t, tokenOk) == s
  {
  }

  lemma OpenedLinear(s: State, k: SocketId)
    requires Linear(s)
    ensures Linear(OpenedStep(s, k)) && OpenedStep(s, k).closed == s.closed
    ensures s.closed ==> OpenedStep(s, k) == s
  {
    if k < |s.sockets| && s.sockets[k].phase.Connecting? { assert Unclosed(s, k); }
    forall j: SocketId | Unclosed(OpenedStep(s, k), j) ensures s.ws == Some(j) { assert Unclosed(s, j); }
  }

  lemma ClosedLinear(s: State, k: SocketId)
    requires Linear(s)
    ensures Linear(ClosedStep(s, k)) && ClosedStep(s, k).closed == s.closed
    ensures s.closed ==> |ClosedStep(s, k).sockets| == |s.sockets| && |ClosedStep(s, k).timers| == |s.timers|
  {
  }

  lemma {:induction false} RunLinear(s: State, run: seq<Happening>)
    requires Linear(s)
    ensures Linear(Run(s, run))
    ensures Run(s, run).closed <==> s.closed || Close in run
    ensures s.closed ==> |Run(s, run).sockets| == |s.sockets| && |Run(s, run).timers| == |s.timers|
    decreases |run|
  {
    hide Next, Linear;
    if run != [] {
      StepLinear(s, run[0]);
      RunLinear(Next(s, run[0]), run[1..]);
    }
  }

  function PendingTimers(timers: seq<Timer>): nat {
    if timers == [] then 0
    else PendingTimers(timers[..|timers| - 1]) + if timers[|timers| - 1].pending then 1 else 0
  }

  function UnclosedSockets(sockets: seq<Socket>): nat {
    if sockets == [] then 0
    else UnclosedSockets(sockets[..|sockets| - 1]) + if sockets[|sockets| - 1].phase.Closed? then 0 else 1
  }

  lemma {:induction false} CountTimers(timers: seq<Timer>, only: Option<TimerId>)
    requires forall t | 0 <= t < |timers| && timers[t].pending :: only == Some(t)
    ensures PendingTimers(timers) == if only.Some? && only.value < |timers| && timers[only.value].pending then 1 else 0
  {
    if timers != [] {
      var front := timers[..|timers| - 1];
      CountTimers(front, only);
    }
  }

  lemma {:induction false} CountSockets(sockets: seq<Socket>, only: Option<SocketId>)
    requires forall k | 0 <= k < |sockets| && !sockets[k].phase.Closed? :: only == Some(k)
    ensures UnclosedSockets(sockets)
         == if only.Some? && only.value < |sockets| && !sockets[only.value].phase.Closed? then 1 else 0
  {
    if sockets != [] {
      var front := sockets[..|sockets| - 1];
      CountSockets(front, only);
    }
  }

  /** In every run after one `connect()`: pending timers and unclosed sockets together are exactly one until
      `close()`; from then on no timer is pending, and at most the one socket is left to close. */
  lemma AlwaysExactlyOne(tokenOk: bool, run: seq<Happening>)
    ensures var s := Run(ConnectStep(FRESH, tokenOk), run);
      if Close in run then PendingTimers(s.timers) == 0 && UnclosedSockets(s.sockets) <= 1
      else PendingTimers(s.timers) + UnclosedSockets(s.sockets) == 1
  {
    hide Run, Next;
    ConnectLinear(tokenOk);
    RunLinear(ConnectStep(FRESH, tokenOk), run);
    var s := Run(ConnectStep(FRESH, tokenOk), run);
    forall t | 0 <= t < |s.timers| && s.timers[t].pending ensures s.reconnectTimer == Some(t) { assert Pending(s, t); }
    forall k | 0 <= k < |s.sockets| && !s.sockets[k].phase.Closed? ensures s.ws == Some(k) { assert Unclosed(s, k); }
    CountTimers(s.timers, s.reconnectTimer);
    CountSockets(s.sockets, s.ws);
  }

  /** After `close()` no socket is opened and no timer set, whatever comes. */
  lemma NothingAfterClose(tokenOk: bool, before: seq<Happening>, after: seq<Happening>)
    ensures var s := Run(ConnectStep(FRESH, tokenOk), before);
      var end := Run(CloseStep(s), after);
      end.closed && |end.sockets| == |s.sockets| && |end.timers| == |s.timers|
  {
    hide Run, Linear;
    ConnectLinear(tokenOk);
    RunLinear(ConnectStep(FRESH, tokenOk), before);
    var s := Run(ConnectStep(FRESH, tokenOk), before);
    StepLinear(s, Close);
    RunLinear(CloseStep(s), after);
  }

  /** Why one `connect()`: a second one, after a `close()` whose close event is still to come, leaves two. */
  lemma SecondConnectDoubles()
    ensures var s := Next(ConnectStep(CloseStep(ConnectStep(FRESH, true)), true), SocketCloses(0));
      Pending(s, 0) && Unclosed(s, 1)
  {
  }

  // --- Registering ---------------------------------------------------------------------------------

  /** A socket's first frame is its registration, and there is no other. */
  ghost predicate RegistersOnce(k: Socket) {
    && (k.phase.Connecting? ==> k.frames == [])
    && (k.phase.Opened? ==> k.frames != [])
    && (k.frames != [] ==> k.frames[0].RegisterFrame?)
    && forall i | 0 < i < |k.frames| :: !k.frames[i].RegisterFrame?
  }

  ghost predicate AllRegisterOnce(s: State) { forall k | 0 <= k < |s.sockets| :: RegistersOnce(s.sockets[k]) }

  lemma StepRegistersOnce(s: State, a: Happening)
    requires Linear(s) && AllRegisterOnce(s)
    ensures AllRegisterOnce(Next(s, a))
  {
    hide DelayFor;
    if a.SocketOpens? && a.socket < |s.sockets| && s.sockets[a.socket].phase.Connecting? {
      assert Unclosed(s, a.socket);
    }
  }

  lemma {:induction false} RunRegistersOnce(s: State, run: seq<Happening>)
    requires Linear(s) && AllRegisterOnce(s)
    ensures AllRegisterOnce(Run(s, run))
    decreases |run|
  {
    hide Next, Linear, AllRegisterOnce;
    if run != [] {
      StepLinear(s, run[0]);
      StepRegistersOnce(s, run[0]);
      RunRegistersOnce(Next(s, run[0]), run[1..]);
    }
  }

  /** On every socket the client ever opens, the registration comes first and once: what the Hub's ownership of
      sessions relies on. */
  lemma EverySocketRegistersOnce(tokenOk: bool, run: seq<Happening>, k: SocketId)
    ensures var s := Run(ConnectStep(FRESH, tokenOk), run);
      k < |s.sockets| ==> RegistersOnce(s.sockets[k])
  {
    hide Run, Linear;
    ConnectLinear(tokenOk);
    RunRegistersOnce(ConnectStep(FRESH, tokenOk), run);
  }

  // --- Backing off ---------------------------------------------------------------------------------

  /** The delays since a socket last opened are the first ones of the schedule. */
  ghost predicate OnSchedule(s: State) {
    s.reconnectAttempt <= |s.timers|
    && forall j | 0 <= j < s.reconnectAttempt :: s.timers[|s.timers| - s.reconnectAttempt + j].delay == DelayFor(j)
  }

  lemma StepOnSchedule(s: State, a: Happening)
    requires OnSchedule(s)
    ensures OnSchedule(Next(s, a))
  {
    hide DelayFor;
  }

  lemma {:induction false} RunOnSchedule(s: State, run: seq<Happening>)
    requires OnSchedule(s)
    ensures OnSchedule(Run(s, run))
    decreases |run|
  {
    hide Next, OnSchedule;
    if run != [] {
      StepOnSchedule(s, run[0]);
      RunOnSchedule(Next(s, run[0]), run[1..]);
    }
  }

  function TotalDelay(timers: seq<Timer>): nat {
    if timers == [] then 0 else TotalDelay(timers[..|timers| - 1]) + timers[|timers| - 1].delay
  }

  /** The wait of `n` consecutive failures in closed form. */
  function WaitAfter(n: nat): nat {
    if n == 0 then 0 else if n == 1 then 1000 else if n == 2 then 3000 else 8000 + 10000 * (n - 3)
  }

  lemma {:induction false} SumOfDelays(timers: seq<Timer>)
    requires forall j | 0 <= j < |timers| :: timers[j].delay == DelayFor(j)
    ensures TotalDelay(timers) == WaitAfter(|timers|)
  {
    if timers != [] {
      SumOfDelays(timers[..|timers| - 1]);
    }
  }

  /** In every run, the waits since a socket last opened add up to the closed form in their number. */
  lemma TotalWait(tokenOk: bool, run: seq<Happening>)
    ensures var s := Run(ConnectStep(FRESH, tokenOk), run);
      && s.reconnectAttempt <= |s.timers|
      && TotalDelay(s.timers[|s.timers| - s.reconnectAttempt..]) == WaitAfter(s.reconnectAttempt)
  {
    hide Run, WaitAfter, TotalDelay;
    RunOnSchedule(ConnectStep(FRESH, tokenOk), run);
    var s := Run(ConnectStep(FRESH, tokenOk), run);
    SumOfDelays(s.timers[|s.timers| - s.reconnectAttempt..]);
  }

  predicate NothingOpens(run: seq<Happening>) { forall i | 0 <= i < |run| :: !run[i].SocketOpens? }

  lemma {:induction false} AttemptsAreTimers(s: State, run: seq<Happening>)
    requires NothingOpens(run) && s.reconnectAttempt == |s.timers|
    ensures Run(s, run).reconnectAttempt == |Run(s, run).timers|
    decreases |run|
  {
    hide Next;
    if run != [] {
      AttemptCounts(s, run[0]);
      AttemptsAreTimers(Next(s, run[0]), run[1..]);
    }
  }

  lemma AttemptCounts(s: State, a: Happening)
    requires !a.SocketOpens? && s.reconnectAttempt == |s.timers|
    ensures Next(s, a).reconnectAttempt == |Next(s, a).timers|
  {
    hide DelayFor;
  }

  /** While no socket ever opens, the `n` failures there were (each sets one timer) have cost, from the third on,
      8000 + 10000 * (n - 3) ms of waiting in all. */
  lemma ConsecutiveFailures(tokenOk: bool, run: seq<Happening>)
    requires NothingOpens(run)
    ensures var s := Run(ConnectStep(FRESH, tokenOk), run);
      && TotalDelay(s.timers) == WaitAfter(|s.timers|)
      && (|s.timers| >= 3 ==> TotalDelay(s.timers) == 8000 + 10000 * (|s.timers| - 3))
  {
    hide Run, TotalDelay;
    AttemptsAreTimers(ConnectStep(FRESH, tokenOk), run);
    TotalWait(tokenOk, run);
    var s := Run(ConnectStep(FRESH, tokenOk), run);
    assert s.timers[0..] == s.timers;
  }

  // --- The status ----------------------------------------------------------------------------------

  /** What a happening says about the status, if anything: a socket that is not closed yet closes, fails or is told that
      the session is registered, or a pending timer opens. */
  function Said(s: State, a: Happening): Option<Status> {
    match a
    case SocketCloses(k) => if k < |s.sockets| && s.sockets[k].phase != Closed then Some(Disconnected) else None
    case SocketFails(k) => if k < |s.sockets| && s.sockets[k].phase != Closed then Some(Error) else None
    case Registered(k) => if k < |s.sockets| && s.sockets[k].phase != Closed then Some(Connected) else None
    case TimerFires(t, tokenOk) =>
      if t < |s.timers| && s.timers[t].pending && !s.closed then Some(if tokenOk then ConnectingStatus else Error) else None
    case _ => None
  }

  lemma StepSays(s: State, a: Happening)
    ensures Next(s, a).status == if Said(s, a).Some? then Said(s, a).value else s.status
  {
    hide DelayFor;
  }

  /** In every run the status is what the latest happening that says anything said; `j` is where that was, and -1 if
      nothing was said. */
  lemma {:induction false} StatusIsLatest(s: State, run: seq<Happening>) returns (j: int)
    ensures -1 <= j < |run|
    ensures j >= 0 ==> Said(Run(s, run[..j]), run[j]) == Some(Run(s, run).status)
    ensures j == -1 ==> Run(s, run).status == s.status
    ensures forall i | j < i < |run| :: Said(Run(s, run[..i]), run[i]) == None
    decreases |run|
  {
    hide Next, Said;
    j := -1;
    if run != [] {
      var rest, t := run[1..], Next(s, run[0]);
      var k := StatusIsLatest(t, rest);
      StepSays(s, run[0]);
      FirstOfRun(s, run);
      if k >= 0 || Said(s, run[0]).Some? { j := k + 1; }
      forall i | j < i < |run| ensures Said(Run(s, run[..i]), run[i]) == None {
        if i > 0 { assert rest[i - 1] == run[i]; }
      }
    }
  }

  lemma FirstOfRun(s: State, run: seq<Happening>)
    requires run != []
    ensures run[..0] == [] && Run(s, run[..0]) == s
    ensures forall i | 0 < i <= |run| :: Run(s, run[..i]) == Run(Next(s, run[0]), run[1..][..i - 1])
  {
    hide Next;
    forall i | 0 < i <= |run| ensures Run(s, run[..i]) == Run(Next(s, run[0]), run[1..][..i - 1]) {
      assert run[..i][1..] == run[1..][..i - 1] && run[..i][0] == run[0];
    }
  }
}

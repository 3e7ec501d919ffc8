/** Several pi processes, each with its runtimes of the extension, over the one handoff file. */
module RemoteSystem {
  import opened Text
  import opened Handoff
  import opened RemoteControl

  /** A session change typed locally, a reload, or a change asked for from the phone. */
  datatype Change = Local | Reloading | Remote

  /** A completed change: whether the session left had a file, whether RC was active when the change began, when the
      old runtime shut down and after the change, and how often `start` ran for it. */
  datatype Record = Record(change: Change, hadFile: bool, before: bool, atShutdown: bool, after: bool, starts: nat)

  /** `Preparing`: the handler of a remote change has prepared for it and waits for pi. `Leaving`: the old runtime has
      shut down, `session_start` is to come. `Entering`: `session_start` has run, and so often `start` with it;
      `withSession` is to come. All remember how the change began. */
  datatype Phase =
    | Steady
    | Preparing(before: bool)
    | Leaving(change: Change, next: Ctx, before: bool, atShutdown: bool)
    | Entering(hadFile: bool, before: bool, atShutdown: bool, hookStarts: nat)

  /** One process. `oldGenerations` are the final generations of the runtimes before the current one, which live on
      in the callbacks of their clients. */
  datatype Proc = Proc(
    session: Ctx,
    phase: Phase,
    ext: Ext,
    oldGenerations: seq<nat>,
    clients: seq<Client>,
    starts: nat,
    history: seq<Record>)

  datatype System = System(entries: Entries, procs: map<Pid, Proc>, used: set<Pid>)

  const NOBODY := System(map[], map[], {})

  function SceneOf(m: Entries, p: Proc): Scene { Scene(m, p.ext, p.clients, p.starts) }

  function WithScene(p: Proc, s: Scene): Proc { p.(ext := s.ext, clients := s.clients, starts := s.starts) }

  function Runtime(p: Proc): nat { |p.oldGenerations| }

  predicate Active(p: Proc) { p.ext.client.Some? }

  // --- What a process can do -----------------------------------------------------------------------

  function RcScene(m: Entries, p: Proc, me: Pid): Scene { StartScene(SceneOf(m, p), p.session, Runtime(p), me) }

  function PrepareProc(m: Entries, p: Proc): Proc {
    WithScene(p, PrepareScene(SceneOf(m, p))).(phase := Preparing(Active(p)))
  }

  function LeaveScene(m: Entries, p: Proc): Scene { StopScene(SceneOf(m, p), false) }

  function LeaveProc(m: Entries, p: Proc, change: Change, next: Ctx): Proc {
    var before := if change.Remote? && p.phase.Preparing? then p.phase.before else Active(p);
    WithScene(p, LeaveScene(m, p)).(phase := Leaving(change, next, before, Active(p)))
  }

  /** The new runtime, before its `session_start` hook has run. */
  function NewRuntime(p: Proc): Proc
    requires p.phase.Leaving?
  {
    p.(session := p.phase.next, ext := FRESH_EXT, oldGenerations := p.oldGenerations + [p.ext.generation])
  }

  function PreviousFile(p: Proc): Option<File>
    requires p.phase.Leaving?
  {
    if p.phase.change.Reloading? then p.phase.next.file else p.session.file
  }

  function ArriveAt(m: Entries, p: Proc, me: Pid, alive: set<Pid>): Scene
    requires p.phase.Leaving?
  {
    ArriveScene(SceneOf(m, NewRuntime(p)), p.phase.next, PreviousFile(p), Runtime(NewRuntime(p)), me, alive)
  }

  /** How often `start` ran between two states of a process. */
  function Ran(p: Proc, q: Proc): nat { if q.starts >= p.starts then q.starts - p.starts else 0 }

  function Completed(p: Proc, change: Change, hadFile: bool, before: bool, atShutdown: bool, starts: nat): Proc {
    p.(phase := Steady, history := p.history + [Record(change, hadFile, before, atShutdown, Active(p), starts)])
  }

  function ArriveProc(m: Entries, p: Proc, me: Pid, alive: set<Pid>): Proc
    requires p.phase.Leaving?
  {
    var q := WithScene(NewRuntime(p), ArriveAt(m, p, me, alive));
    var hadFile := p.session.file.Some?;
    if p.phase.change.Remote? then q.(phase := Entering(hadFile, p.phase.before, p.phase.atShutdown, Ran(p, q)))
    else Completed(q, p.phase.change, hadFile, p.phase.before, p.phase.atShutdown, Ran(p, q))
  }

  function EnterProc(m: Entries, p: Proc, me: Pid): Proc
    requires p.phase.Entering?
  {
    var q := WithScene(p, RcScene(m, p, me));
    Completed(q, Remote, p.phase.hadFile, p.phase.before, p.phase.atShutdown, p.phase.hookStarts + Ran(p, q))
  }

  datatype Step =
    | Spawn(pid: Pid, session: Ctx)
    | RcStart(pid: Pid)
    | RcStop(pid: Pid)
    | Prepare(pid: Pid)
    | Abandon(pid: Pid)
    | Leave(pid: Pid, change: Change, next: Ctx)
    | Arrive(pid: Pid)
    | WithSession(pid: Pid)
    | Exit(pid: Pid)
    | Crash(pid: Pid)

  function SetProc(s: System, m: Entries, pid: Pid, p: Proc): System { s.(entries := m, procs := s.procs[pid := p]) }

  /** The process runs and a runtime of the extension is there to take commands. */
  predicate Up(s: System, pid: Pid) { pid in s.procs && !s.procs[pid].phase.Leaving? }

  /** A remote change comes in over a client this runtime made. It need not be the current one: a client that was
      asked to close goes on delivering commands until its socket has closed. */
  predicate MadeClient(p: Proc) { exists c | 0 <= c < |p.clients| :: p.clients[c].runtime == Runtime(p) }

  predicate CanPrepare(s: System, pid: Pid) {
    pid in s.procs && s.procs[pid].phase.Steady? && MadeClient(s.procs[pid])
  }

  predicate CanLeave(s: System, pid: Pid, change: Change) {
    pid in s.procs && (s.procs[pid].phase.Preparing? || (s.procs[pid].phase.Steady? && !change.Remote?))
  }

  function PrepareStep(s: System, pid: Pid): System {
    if !CanPrepare(s, pid) then s
    else SetProc(s, PrepareScene(SceneOf(s.entries, s.procs[pid])).entries, pid, PrepareProc(s.entries, s.procs[pid]))
  }

  /** The session change that was prepared for is cancelled or fails. */
  function AbandonStep(s: System, pid: Pid): System {
    if pid in s.procs && s.procs[pid].phase.Preparing?
    then SetProc(s, s.entries, pid, s.procs[pid].(phase := Steady)) else s
  }

  /** A reload keeps the session. */
  function LeaveStep(s: System, pid: Pid, change: Change, next: Ctx): System {
    if !CanLeave(s, pid, change) then s
    else
      var p := s.procs[pid];
      var target := if change.Reloading? then p.session else next;
      SetProc(s, LeaveScene(s.entries, p).entries, pid, LeaveProc(s.entries, p, change, target))
  }

  function ArriveStep(s: System, pid: Pid): System {
    if pid !in s.procs || !s.procs[pid].phase.Leaving? then s
    else SetProc(s, ArriveAt(s.entries, s.procs[pid], pid, s.procs.Keys).entries, pid,
                 ArriveProc(s.entries, s.procs[pid], pid, s.procs.Keys))
  }

  function Next(s: System, step: Step): System {
    match step
    case Spawn(pid, session) =>
      if pid in s.used then s
      else s.(procs := s.procs[pid := Proc(session, Steady, FRESH_EXT, [], [], 0, [])], used := s.used + {pid})
    case RcStart(pid) =>
      if !Up(s, pid) then s
      else SetProc(s, RcScene(s.entries, s.procs[pid], pid).entries, pid,
                   WithScene(s.procs[pid], RcScene(s.entries, s.procs[pid], pid)))
    case RcStop(pid) =>
      if !Up(s, pid) then s
      else SetProc(s, StopScene(SceneOf(s.entries, s.procs[pid]), true).entries, pid,
                   WithScene(s.procs[pid], StopScene(SceneOf(s.entries, s.procs[pid]), true)))
    case Prepare(pid) => PrepareStep(s, pid)
    case Abandon(pid) => AbandonStep(s, pid)
    case Leave(pid, change, next) => LeaveStep(s, pid, change, next)
    case Arrive(pid) => ArriveStep(s, pid)
    case WithSession(pid) =>
      if pid !in s.procs || !s.procs[pid].phase.Entering? then s
      else SetProc(s, RcScene(s.entries, s.procs[pid], pid).entries, pid, EnterProc(s.entries, s.procs[pid], pid))
    case Exit(pid) =>
      if !Up(s, pid) then s
      else s.(entries := StopScene(SceneOf(s.entries, s.procs[pid]), true).entries, procs := s.procs - {pid})
    case Crash(pid) => s.(procs := s.procs - {pid})
  }

  function Run(s: System, steps: seq<Step>): System
    decreases |steps|
  {
    if steps == [] then s else Run(Next(s, steps[0]), steps[1..])
  }

  /** The session files a process has open, counting the one it is leaving. */
  function Files(p: Proc): set<File> {
    FileSet(p.session.file) + if p.phase.Leaving? then FileSet(p.phase.next.file) else {}
  }

  function FileSet(f: Option<File>): set<File> { if f.Some? then {f.value} else {} }

  ghost predicate Free(s: System, file: Option<File>, except: Pid) {
    file.Some? ==> forall q | q in s.procs && q != except :: file.value !in Files(s.procs[q])
  }

  /** No session file is opened while another live process has it open. */
  ghost predicate Disciplined(s: System, step: Step) {
    match step
    case Spawn(pid, session) => Free(s, session.file, pid)
    case Leave(pid, _, next) => Free(s, next.file, pid)
    case _ => true
  }

  ghost predicate DisciplinedRun(s: System, steps: seq<Step>)
    decreases |steps|
  {
    steps == [] || (Disciplined(s, steps[0]) && DisciplinedRun(Next(s, steps[0]), steps[1..]))
  }

  // --- Which client can act ------------------------------------------------------------------------

  function GenerationOf(p: Proc, runtime: nat): nat {
    if runtime < |p.oldGenerations| then p.oldGenerations[runtime] else p.ext.generation
  }

  /** A status callback goes through only if its generation is still the one of the runtime it belongs to. */
  predicate Acts(p: Proc, c: nat)
    requires c < |p.clients|
  {
    p.clients[c].generation == GenerationOf(p, p.clients[c].runtime)
  }

  /** The client a callback may act for, the unclosed client and the current client are the same one. */
  ghost predicate ClientsOk(p: Proc) {
    && (p.ext.client.Some? ==> p.ext.client.value < |p.clients| && p.clients[p.ext.client.value].runtime == Runtime(p))
    && (forall c | 0 <= c < |p.clients| :: ClientOk(p, c))
  }

  ghost predicate ClientOk(p: Proc, c: nat)
    requires c < |p.clients|
  {
    && p.clients[c].runtime <= |p.oldGenerations|
    && p.clients[c].generation <= GenerationOf(p, p.clients[c].runtime)
    && (Acts(p, c) <==> p.ext.client == Some(c))
    && (!p.clients[c].closed <==> p.ext.client == Some(c))
  }

  lemma StartKeepsClients(p: Proc, m: Entries, ctx: Ctx, me: Pid)
    requires ClientsOk(p)
    ensures ClientsOk(WithScene(p, StartScene(SceneOf(m, p), ctx, Runtime(p), me)))
  {
    var q := WithScene(p, StartScene(SceneOf(m, p), ctx, Runtime(p), me));
    forall c | 0 <= c < |q.clients| ensures ClientOk(q, c) {
      if c < |p.clients| { assert ClientOk(p, c); }
    }
  }

  lemma StopKeepsClients(p: Proc, m: Entries, clear: bool)
    requires ClientsOk(p)
    ensures ClientsOk(WithScene(p, StopScene(SceneOf(m, p), clear)))
  {
    var q := WithScene(p, StopScene(SceneOf(m, p), clear));
    forall c | 0 <= c < |q.clients| ensures ClientOk(q, c) {
      assert ClientOk(p, c);
    }
  }

  lemma NewRuntimeKeepsClients(p: Proc)
    requires ClientsOk(p) && p.phase.Leaving? && !Active(p)
    ensures ClientsOk(NewRuntime(p))
  {
    var q := NewRuntime(p);
    forall c | 0 <= c < |q.clients| ensures ClientOk(q, c) {
      assert ClientOk(p, c);
    }
  }

  // --- Which entries a process owns ----------------------------------------------------------------

  /** The one file whose entry a live process should own: its session's while RC is active, and the one being left if
      RC was active at the shutdown. */
  function Expected(p: Proc): Option<File> {
    if (if p.phase.Leaving? then p.phase.atShutdown else Active(p)) then p.session.file else None
  }

  ghost predicate OwnsOnly(m: Entries, pid: Pid, owned: Option<File>) {
    forall f: File :: f in m && m[f] == pid <==> owned == Some(f)
  }

  /** RC is active after a remote change, and after any other exactly if it was before and the session left had a
      file. `start` ran once for the remote change and once more if RC was active at the shutdown. */
  predicate RecordOk(r: Record) {
    && (r.after <==> r.change.Remote? || (r.before && r.hadFile))
    && (!r.change.Remote? ==> r.atShutdown == r.before)
    && r.starts == (if r.change.Remote? then 1 else 0) + (if r.atShutdown && r.hadFile then 1 else 0)
  }

  /** The file to clear is the session's exactly while RC is active. */
  predicate FileOk(p: Proc) { p.ext.activeFile == if Active(p) then p.session.file else None }

  ghost predicate PhaseOk(p: Proc) {
    && FileOk(p)
    && match p.phase
       case Steady => true
       case Preparing(_) => true
       case Leaving(change, next, before, atShutdown) =>
         !Active(p) && (!change.Remote? ==> atShutdown == before) && (change.Reloading? ==> next == p.session)
       case Entering(hadFile, _, atShutdown, hookStarts) => hookStarts == if atShutdown && hadFile then 1 else 0
  }

  ghost predicate ProcOk(m: Entries, pid: Pid, p: Proc) {
    && ClientsOk(p) && PhaseOk(p) && OwnsOnly(m, pid, Expected(p))
    && forall k | 0 <= k < |p.history| :: RecordOk(p.history[k])
  }

  ghost predicate Inv(s: System) {
    && (forall pid | pid in s.procs :: pid in s.used && ProcOk(s.entries, pid, s.procs[pid]))
    && (forall f | f in s.entries :: s.entries[f] in s.used)
    && (forall a, b | a in s.procs && b in s.procs && a != b :: Files(s.procs[a]) !! Files(s.procs[b]))
  }

  // --- Nobody touches another's entry --------------------------------------------------------------

  /** Outside `files` nothing changed, and no entry was given to anyone but `me`. */
  ghost predicate OnlyTouches(m: Entries, g: Entries, me: Pid, files: set<File>) {
    && (forall f: File :: f !in files ==> (f in g <==> f in m))
    && (forall f | f in g :: g[f] == me || (f in m && g[f] == m[f]))
    && (forall f | f in g && f !in files :: f in m && g[f] == m[f])
  }

  lemma OthersKeep(m: Entries, g: Entries, me: Pid, p: Proc, q: Pid, other: Proc)
    requires OnlyTouches(m, g, me, Files(p)) && q != me && Files(p) !! Files(other)
    requires OwnsOnly(m, q, Expected(other))
    ensures OwnsOnly(g, q, Expected(other))
  {
    assert Expected(other).Some? ==> Expected(other).value in Files(other);
    forall f: File ensures f in g && g[f] == q <==> Expected(other) == Some(f) {
      assert f in m && m[f] == q <==> Expected(other) == Some(f);
    }
  }

  /** A step of one process, given what it does to that process. */
  lemma ProcStepInv(s: System, m: Entries, pid: Pid, p: Proc)
    requires Inv(s) && pid in s.procs
    requires OnlyTouches(s.entries, m, pid, Files(s.procs[pid])) && ProcOk(m, pid, p)
    requires forall q | q in s.procs && q != pid :: Files(p) !! Files(s.procs[q])
    ensures Inv(SetProc(s, m, pid, p))
  {
    hide OnlyTouches, OwnsOnly, ClientsOk, PhaseOk, Files, Expected, RecordOk;
    var t := SetProc(s, m, pid, p);
    forall q | q in t.procs ensures q in t.used && ProcOk(t.entries, q, t.procs[q]) {
      if q != pid {
        assert ProcOk(s.entries, q, s.procs[q]);
        OthersKeep(s.entries, m, pid, s.procs[pid], q, s.procs[q]);
      }
    }
    OwnersAreUsed(s, m, pid);
  }

  lemma OwnersAreUsed(s: System, m: Entries, pid: Pid)
    requires Inv(s) && pid in s.procs && OnlyTouches(s.entries, m, pid, Files(s.procs[pid]))
    ensures forall f | f in m :: m[f] in s.used
  {
    hide ProcOk, Files;
  }

  // --- Each step of one process --------------------------------------------------------------------

  lemma RcStartOk(m: Entries, pid: Pid, p: Proc)
    requires ProcOk(m, pid, p) && !p.phase.Leaving?
    ensures var s := RcScene(m, p, pid);
      ProcOk(s.entries, pid, WithScene(p, s)) && OnlyTouches(m, s.entries, pid, Files(p))
  {
    StartKeepsClients(p, m, p.session, pid);
    hide ClientsOk;
  }

  lemma RcStopOk(m: Entries, pid: Pid, p: Proc)
    requires ProcOk(m, pid, p) && !p.phase.Leaving?
    ensures var s := StopScene(SceneOf(m, p), true);
      && ProcOk(s.entries, pid, WithScene(p, s)) && OnlyTouches(m, s.entries, pid, Files(p))
      && OwnsOnly(s.entries, pid, None)
  {
    StopKeepsClients(p, m, true);
    hide ClientsOk;
  }

  lemma LeaveKeepsClients(m: Entries, p: Proc, change: Change, next: Ctx)
    requires ClientsOk(p)
    ensures ClientsOk(LeaveProc(m, p, change, next))
  {
    StopKeepsClients(p, m, false);
    SameClients(WithScene(p, StopScene(SceneOf(m, p), false)), LeaveProc(m, p, change, next));
  }

  lemma PrepareKeepsClients(m: Entries, p: Proc)
    requires ClientsOk(p)
    ensures ClientsOk(PrepareProc(m, p))
  {
    var n := if p.ext.activeFile.Some? then DropEntry(m, p.ext.activeFile.value) else m;
    StopKeepsClients(p, n, false);
    SameClients(WithScene(p, StopScene(SceneOf(n, p), false)), PrepareProc(m, p));
  }

  lemma SameClients(p: Proc, q: Proc)
    requires ClientsOk(p) && q.ext == p.ext && q.clients == p.clients && q.oldGenerations == p.oldGenerations
    ensures ClientsOk(q)
  {
    forall c | 0 <= c < |q.clients| ensures ClientOk(q, c) { assert ClientOk(p, c); }
  }

  lemma PrepareOk(m: Entries, pid: Pid, p: Proc)
    requires ProcOk(m, pid, p) && p.phase.Steady?
    ensures var g := PrepareScene(SceneOf(m, p)).entries;
      && ProcOk(g, pid, PrepareProc(m, p)) && OnlyTouches(m, g, pid, Files(p))
      && OwnsOnly(g, pid, None) && !Active(PrepareProc(m, p))
  {
    PrepareKeepsClients(m, p);
    hide ClientsOk;
  }

  lemma LeaveOk(m: Entries, pid: Pid, p: Proc, change: Change, next: Ctx)
    requires ProcOk(m, pid, p) && (p.phase.Preparing? || (p.phase.Steady? && !change.Remote?))
    requires change.Reloading? ==> next == p.session
    ensures var g := LeaveScene(m, p).entries;
      ProcOk(g, pid, LeaveProc(m, p, change, next)) && OnlyTouches(m, g, pid, Files(p))
  {
    LeaveKeepsClients(m, p, change, next);
    hide ClientsOk;
  }

  lemma OwnedIsOpen(s: System, pid: Pid, f: File)
    requires Inv(s) && pid in s.procs && f in s.entries && s.entries[f] == pid
    ensures f in Files(s.procs[pid])
  {
    hide ClientsOk, RecordOk;
    assert ProcOk(s.entries, pid, s.procs[pid]);
  }

  /** When the new runtime starts, an entry for the session left is live exactly if RC was active at the shutdown:
      nobody else can own it. */
  lemma LiveExactlyIfLeft(s: System, pid: Pid)
    requires Inv(s) && pid in s.procs && s.procs[pid].phase.Leaving? && PreviousFile(s.procs[pid]).Some?
    ensures var p := s.procs[pid];
      LiveEntry(s.entries, PreviousFile(p).value, pid, s.procs.Keys) <==> p.phase.atShutdown
  {
    hide ClientsOk, RecordOk;
    var p := s.procs[pid];
    var f := PreviousFile(p).value;
    assert ProcOk(s.entries, pid, p) && f in Files(p);
    if f in s.entries && s.entries[f] in s.procs { OwnedIsOpen(s, s.entries[f], f); }
  }

  lemma ArriveOk(m: Entries, pid: Pid, p: Proc, alive: set<Pid>)
    requires ProcOk(m, pid, p) && p.phase.Leaving?
    requires PreviousFile(p).Some? ==>
      (LiveEntry(m, PreviousFile(p).value, pid, alive) <==> p.phase.atShutdown)
    ensures ProcOk(ArriveAt(m, p, pid, alive).entries, pid, ArriveProc(m, p, pid, alive))
    ensures OnlyTouches(m, ArriveAt(m, p, pid, alive).entries, pid, Files(p))
  {
    var q := NewRuntime(p);
    NewRuntimeKeepsClients(p);
    if PreviousFile(p).Some? { StartKeepsClients(q, DropEntry(m, PreviousFile(p).value), p.phase.next, pid); }
    ArriveKeepsClients(m, pid, p, alive);
    hide ClientsOk;
  }

  lemma ArriveKeepsClients(m: Entries, pid: Pid, p: Proc, alive: set<Pid>)
    requires ClientsOk(p) && p.phase.Leaving? && !Active(p)
    ensures ClientsOk(ArriveProc(m, p, pid, alive))
  {
    hide ClientsOk;
    var q := NewRuntime(p);
    NewRuntimeKeepsClients(p);
    var r := ArriveProc(m, p, pid, alive);
    if PreviousFile(p).Some? && LiveEntry(m, PreviousFile(p).value, pid, alive) {
      var n := DropEntry(m, PreviousFile(p).value);
      StartKeepsClients(q, n, p.phase.next, pid);
      SameClients(WithScene(q, StartScene(SceneOf(n, q), p.phase.next, Runtime(q), pid)), r);
    } else {
      SameClients(q, r);
    }
  }

  lemma EnterOk(m: Entries, pid: Pid, p: Proc)
    requires ProcOk(m, pid, p) && p.phase.Entering?
    ensures ProcOk(RcScene(m, p, pid).entries, pid, EnterProc(m, p, pid))
    ensures OnlyTouches(m, RcScene(m, p, pid).entries, pid, Files(p))
  {
    StartKeepsClients(p, m, p.session, pid);
    SameClients(WithScene(p, RcScene(m, p, pid)), EnterProc(m, p, pid));
    hide ClientsOk;
  }

  // --- Every step of the system --------------------------------------------------------------------

  lemma SpawnInv(s: System, pid: Pid, session: Ctx)
    requires Inv(s) && Free(s, session.file, pid) && pid !in s.used
    ensures Inv(Next(s, Spawn(pid, session)))
  {
    hide RecordOk;
    var t := Next(s, Spawn(pid, session));
    forall q | q in t.procs ensures q in t.used && ProcOk(t.entries, q, t.procs[q]) {
      if q != pid { assert ProcOk(s.entries, q, s.procs[q]); }
    }
  }

  lemma GoneInv(s: System, m: Entries, pid: Pid)
    requires Inv(s) && pid in s.procs && OnlyTouches(s.entries, m, pid, Files(s.procs[pid]))
    ensures Inv(s.(entries := m, procs := s.procs - {pid}))
  {
    hide OnlyTouches, OwnsOnly, ClientsOk, PhaseOk, Files, Expected, RecordOk;
    var t := s.(entries := m, procs := s.procs - {pid});
    forall q | q in t.procs ensures q in t.used && ProcOk(t.entries, q, t.procs[q]) {
      assert ProcOk(s.entries, q, s.procs[q]);
      OthersKeep(s.entries, m, pid, s.procs[pid], q, s.procs[q]);
    }
    OwnersAreUsed(s, m, pid);
  }

  /** The files a process has open after a step: no others, except the one a change goes to. */
  lemma FilesAfter(m: Entries, pid: Pid, p: Proc, change: Change, next: Ctx, alive: set<Pid>)
    ensures !p.phase.Leaving? ==> Files(WithScene(p, RcScene(m, p, pid))) == Files(p)
    ensures !p.phase.Leaving? ==> Files(PrepareProc(m, p)) == Files(p)
    ensures !p.phase.Leaving? ==> Files(LeaveProc(m, p, change, next)) == Files(p) + FileSet(next.file)
    ensures p.phase.Leaving? ==> Files(ArriveProc(m, p, pid, alive)) <= Files(p)
    ensures p.phase.Entering? ==> Files(EnterProc(m, p, pid)) == Files(p)
  {
  }

  lemma PrepareInv(s: System, pid: Pid)
    requires Inv(s)
    ensures Inv(PrepareStep(s, pid)) && Inv(AbandonStep(s, pid))
  {
    hide ClientsOk, OwnsOnly, OnlyTouches, RecordOk, PrepareProc, PrepareScene, MadeClient;
    if CanPrepare(s, pid) {
      var p := s.procs[pid];
      PrepareOk(s.entries, pid, p);
      FilesAfter(s.entries, pid, p, Local, p.session, {});
      ProcStepInv(s, PrepareScene(SceneOf(s.entries, p)).entries, pid, PrepareProc(s.entries, p));
    }
    if pid in s.procs && s.procs[pid].phase.Preparing? {
      var p := s.procs[pid];
      AbandonOk(s.entries, pid, p);
      NothingTouched(s.entries, pid, Files(p));
      ProcStepInv(s, s.entries, pid, p.(phase := Steady));
    }
  }

  lemma AbandonOk(m: Entries, pid: Pid, p: Proc)
    requires ProcOk(m, pid, p) && p.phase.Preparing?
    ensures ProcOk(m, pid, p.(phase := Steady)) && Files(p.(phase := Steady)) == Files(p)
  {
    SameClients(p, p.(phase := Steady));
    hide ClientsOk;
  }

  lemma LeaveInv(s: System, pid: Pid, change: Change, next: Ctx)
    requires Inv(s) && Free(s, next.file, pid)
    ensures Inv(LeaveStep(s, pid, change, next))
  {
    hide ClientsOk, PhaseOk, OwnsOnly, OnlyTouches, RecordOk, LeaveProc, LeaveScene;
    if CanLeave(s, pid, change) {
      var p := s.procs[pid];
      var target := if change.Reloading? then p.session else next;
      LeaveOk(s.entries, pid, p, change, target);
      FilesAfter(s.entries, pid, p, change, target, {});
      ProcStepInv(s, LeaveScene(s.entries, p).entries, pid, LeaveProc(s.entries, p, change, target));
    }
  }

  lemma ArriveInv(s: System, pid: Pid)
    requires Inv(s)
    ensures Inv(ArriveStep(s, pid))
  {
    hide ClientsOk, PhaseOk, OwnsOnly, OnlyTouches, RecordOk, ArriveProc, ArriveAt, LiveEntry;
    if pid in s.procs && s.procs[pid].phase.Leaving? {
      var p := s.procs[pid];
      if PreviousFile(p).Some? { LiveExactlyIfLeft(s, pid); }
      ArriveOk(s.entries, pid, p, s.procs.Keys);
      FilesAfter(s.entries, pid, p, Local, p.session, s.procs.Keys);
      ProcStepInv(s, ArriveAt(s.entries, p, pid, s.procs.Keys).entries, pid, ArriveProc(s.entries, p, pid, s.procs.Keys));
    }
  }

  lemma RcInv(s: System, pid: Pid)
    requires Inv(s)
    ensures Inv(Next(s, RcStart(pid))) && Inv(Next(s, WithSession(pid)))
  {
    hide ClientsOk, PhaseOk, OwnsOnly, OnlyTouches, RecordOk, RcScene, EnterProc;
    if pid in s.procs {
      var p := s.procs[pid];
      FilesAfter(s.entries, pid, p, Local, p.session, {});
      if !p.phase.Leaving? {
        RcStartOk(s.entries, pid, p);
        ProcStepInv(s, RcScene(s.entries, p, pid).entries, pid, WithScene(p, RcScene(s.entries, p, pid)));
      }
      if p.phase.Entering? {
        EnterOk(s.entries, pid, p);
        ProcStepInv(s, RcScene(s.entries, p, pid).entries, pid, EnterProc(s.entries, p, pid));
      }
    }
  }

  lemma StopInv(s: System, pid: Pid)
    requires Inv(s)
    ensures Inv(Next(s, RcStop(pid))) && Inv(Next(s, Exit(pid)))
  {
    hide ClientsOk, PhaseOk, OwnsOnly, OnlyTouches, RecordOk, StopScene, FileOk, Expected;
    if Up(s, pid) {
      var p := s.procs[pid];
      var scene := StopScene(SceneOf(s.entries, p), true);
      StoppedInv(s, pid, scene);
      hide Inv;
    }
  }

  lemma StoppedInv(s: System, pid: Pid, scene: Scene)
    requires Inv(s) && Up(s, pid) && scene == StopScene(SceneOf(s.entries, s.procs[pid]), true)
    ensures Inv(SetProc(s, scene.entries, pid, WithScene(s.procs[pid], scene)))
    ensures Inv(s.(entries := scene.entries, procs := s.procs - {pid}))
  {
    hide ClientsOk, PhaseOk, OwnsOnly, OnlyTouches, RecordOk, StopScene, FileOk, Expected, ProcOk, Files;
    var p := s.procs[pid];
    assert ProcOk(s.entries, pid, p);
    RcStopOk(s.entries, pid, p);
    SameFiles(p, scene);
    ProcStepInv(s, scene.entries, pid, WithScene(p, scene));
    GoneInv(s, scene.entries, pid);
  }

  lemma SameFiles(p: Proc, scene: Scene)
    ensures Files(WithScene(p, scene)) == Files(p)
  {
  }

  lemma CrashInv(s: System, pid: Pid)
    requires Inv(s)
    ensures Inv(Next(s, Crash(pid)))
  {
    hide ProcOk, Files;
    if pid in s.procs {
      NothingTouched(s.entries, pid, Files(s.procs[pid]));
      GoneInv(s, s.entries, pid);
    } else {
      assert s.procs - {pid} == s.procs;
    }
  }

  lemma NothingTouched(m: Entries, pid: Pid, files: set<File>)
    ensures OnlyTouches(m, m, pid, files)
  {
  }

  lemma StepInv(s: System, step: Step)
    requires Inv(s) && Disciplined(s, step)
    ensures Inv(Next(s, step))
  {
    hide Inv, Free, LeaveStep, ArriveStep, PrepareStep, AbandonStep;
    match step
    case Spawn(pid, session) => if pid !in s.used { SpawnInv(s, pid, session); }
    case RcStart(pid) => RcInv(s, pid);
    case RcStop(pid) => StopInv(s, pid);
    case Prepare(pid) => PrepareInv(s, pid);
    case Abandon(pid) => PrepareInv(s, pid);
    case Leave(pid, change, next) => LeaveInv(s, pid, change, next);
    case Arrive(pid) => ArriveInv(s, pid);
    case WithSession(pid) => RcInv(s, pid);
    case Exit(pid) => StopInv(s, pid);
    case Crash(pid) => CrashInv(s, pid);
  }

  lemma {:induction false} RunInv(s: System, steps: seq<Step>)
    requires Inv(s) && DisciplinedRun(s, steps)
    ensures Inv(Run(s, steps))
    decreases |steps|
  {
    hide Inv, Next, Disciplined;
    if steps != [] {
      StepInv(s, steps[0]);
      RunInv(Next(s, steps[0]), steps[1..]);
    }
  }

  lemma NobodyInv()
    ensures Inv(NOBODY)
  {
  }

  // --- The results ---------------------------------------------------------------------------------

  /** What becomes of RC in a session change, in any number of processes and any run in which no two live processes
      have one session file open. After a local change or a reload RC is active if and only if it was before and the
      session left had a file; a remote change always turns it on, also if it had been stopped meanwhile. `start` ran
      once for a change after which RC is active and not at all for any other, except that it ran twice exactly for a
      remote change of a session with a file in which RC was started again before the shutdown. */
  lemma EveryChangeIsFollowedOnce(steps: seq<Step>, pid: Pid, k: nat)
    requires DisciplinedRun(NOBODY, steps)
    requires pid in Run(NOBODY, steps).procs && k < |Run(NOBODY, steps).procs[pid].history|
    ensures var r := Run(NOBODY, steps).procs[pid].history[k];
      && (r.after <==> r.change.Remote? || (r.before && r.hadFile))
      && (!r.change.Remote? ==> r.atShutdown == r.before)
      && r.starts == (if !r.after then 0 else if r.change.Remote? && r.atShutdown && r.hadFile then 2 else 1)
      && (r.hadFile ==> ((r.after <==> r.before) <==> (r.change.Remote? ==> r.before)))
  {
    hide Run, Next, Files, ClientsOk, PhaseOk, OwnsOnly;
    NobodyInv();
    RunInv(NOBODY, steps);
    assert ProcOk(Run(NOBODY, steps).entries, pid, Run(NOBODY, steps).procs[pid]);
  }

  /** The handoff map across processes: a live process owns at most one entry, for its session's file; it owns it
      exactly if RC is active there, or was when the old runtime of a change under way shut down. */
  lemma EachOwnsAtMostOne(steps: seq<Step>, pid: Pid, f: File)
    requires DisciplinedRun(NOBODY, steps) && pid in Run(NOBODY, steps).procs
    ensures var s := Run(NOBODY, steps);
      var p := s.procs[pid];
      f in s.entries && s.entries[f] == pid <==>
        p.session.file == Some(f)
        && match p.phase
           case Leaving(_, _, _, atShutdown) => atShutdown
           case _ => Active(p)
  {
    hide Run, Next, Files, ClientsOk, PhaseOk, RecordOk;
    NobodyInv();
    RunInv(NOBODY, steps);
    assert ProcOk(Run(NOBODY, steps).entries, pid, Run(NOBODY, steps).procs[pid]);
  }

  /** Whose step it is. */
  function Actor(step: Step): Pid { step.pid }

  lemma OtherProcsStay(s: System, step: Step, q: Pid)
    requires q != Actor(step)
    ensures q in s.procs ==> q in Next(s, step).procs && Next(s, step).procs[q] == s.procs[q]
  {
    hide LeaveProc, LeaveScene, ArriveProc, ArriveAt, StopScene, RcScene, EnterProc, PrepareProc,
         PrepareScene, MadeClient;
  }

  /** No process removes, takes over or creates another live process's entry. */
  lemma OthersEntriesStay(steps: seq<Step>, step: Step, q: Pid, f: File)
    requires DisciplinedRun(NOBODY, steps) && Disciplined(Run(NOBODY, steps), step)
    requires q in Run(NOBODY, steps).procs && q != Actor(step)
    ensures var s, t := Run(NOBODY, steps), Next(Run(NOBODY, steps), step);
      f in s.entries && s.entries[f] == q <==> f in t.entries && t.entries[f] == q
  {
    hide Run, Next, Files, ClientsOk, PhaseOk, RecordOk, Disciplined, Expected;
    NobodyInv();
    RunInv(NOBODY, steps);
    var s := Run(NOBODY, steps);
    StepInv(s, step);
    OtherProcsStay(s, step, q);
    assert ProcOk(s.entries, q, s.procs[q]) && ProcOk(Next(s, step).entries, q, Next(s, step).procs[q]);
  }

  // --- Without the discipline ----------------------------------------------------------------------

  /** What the hook does in any state at all: it starts RC exactly if the session left has a file with an entry
      whose owner, whichever process that is, still runs. */
  lemma ArrivingStartsIff(s: System, pid: Pid)
    requires pid in s.procs && s.procs[pid].phase.Leaving?
    ensures var p, q := s.procs[pid], ArriveStep(s, pid).procs[pid];
      && (q.starts == p.starts + 1 <==>
            PreviousFile(p).Some? && PreviousFile(p).value in s.entries && s.entries[PreviousFile(p).value] in s.procs)
      && (q.starts == p.starts || q.starts == p.starts + 1)
      && (Active(q) <==> q.starts == p.starts + 1)
  {
  }

  /** Two live processes on one file: the one without RC makes a local change, and the hook of its new runtime
      starts RC there and removes the other's entry. */
  lemma SharedFileMisleads(s: System, owner: Pid, other: Pid, f: File)
    requires owner != other && owner in s.procs && other in s.procs
    requires f in s.entries && s.entries[f] == owner
    requires var p := s.procs[other];
      && p.phase.Leaving? && p.phase.change.Local? && !p.phase.before
      && p.session.file == Some(f) && p.phase.next.file != Some(f)
    ensures var t := ArriveStep(s, other); Active(t.procs[other]) && f !in t.entries
  {
  }

  // --- Runs that show these -------------------------------------------------------------------------

  lemma RunFirst(s: System, steps: seq<Step>)
    requires steps != []
    ensures Run(s, steps) == Run(Next(s, steps[0]), steps[1..])
  {
    hide Next;
  }

  lemma RunNothing(s: System)
    ensures Run(s, []) == s
  {
  }

  lemma RunFour(s: System, a: Step, b: Step, c: Step, d: Step)
    ensures Run(s, [a, b, c, d]) == Next(Next(Next(Next(s, a), b), c), d)
  {
    hide Next, Run;
    RunFirst(s, [a, b, c, d]);
    assert [a, b, c, d][1..] == [b, c, d];
    RunFirst(Next(s, a), [b, c, d]);
    assert [b, c, d][1..] == [c, d];
    RunFirst(Next(Next(s, a), b), [c, d]);
    assert [c, d][1..] == [d];
    RunFirst(Next(Next(Next(s, a), b), c), [d]);
    assert [d][1..] == [];
    RunNothing(Next(Next(Next(Next(s, a), b), c), d));
  }

  lemma RunFive(s: System, a: Step, b: Step, c: Step, d: Step, e: Step)
    ensures Run(s, [a, b, c, d, e]) == Next(Next(Next(Next(Next(s, a), b), c), d), e)
  {
    hide Next, Run;
    RunFirst(s, [a, b, c, d, e]);
    assert [a, b, c, d, e][1..] == [b, c, d, e];
    RunFour(Next(s, a), b, c, d, e);
  }

  /** A session without a file runs RC and is left locally: the change completes and RC is gone. */
  lemma FilelessSessionIsNotFollowed(next: Ctx)
    ensures var s := Run(NOBODY, [Spawn(1, Ctx(0, None)), RcStart(1), Leave(1, Local, next), Arrive(1)]);
      && 1 in s.procs && !Active(s.procs[1])
      && s.procs[1].history == [Record(Local, false, true, true, false, 0)]
  {
    RunFour(NOBODY, Spawn(1, Ctx(0, None)), RcStart(1), Leave(1, Local, next), Arrive(1));
    hide Run;
  }

  /** Process 1 runs RC on a file that process 2, without RC, has open as well, or is leaving. */
  ghost predicate Shared(s: System, f: File, phase: Phase) {
    && 1 in s.procs && Active(s.procs[1]) && f in s.entries && s.entries[f] == 1
    && 2 in s.procs && s.procs[2].phase == phase && !Active(s.procs[2]) && s.procs[2].session.file == Some(f)
    && s.procs[2].ext.activeFile.None? && s.procs[2].history == []
  }

  lemma SharedSpawned(f: File)
    ensures Shared(Next(Next(Next(NOBODY, Spawn(1, Ctx(0, Some(f)))), RcStart(1)), Spawn(2, Ctx(0, Some(f)))), f, Steady)
  {
    hide MadeClient;
  }

  lemma SharedLeaves(s: System, f: File, next: Ctx)
    requires Shared(s, f, Steady)
    ensures Shared(Next(s, Leave(2, Local, next)), f, Leaving(Local, next, false, false))
  {
    hide MadeClient;
  }

  lemma SharedArrives(s: System, f: File, next: Ctx)
    requires Shared(s, f, Leaving(Local, next, false, false)) && next.file != Some(f)
    ensures var t := Next(s, Arrive(2));
      && 1 in t.procs && Active(t.procs[1]) && f !in t.entries
      && 2 in t.procs && Active(t.procs[2]) && t.procs[2].history == [Record(Local, true, false, false, true, 1)]
  {
    hide MadeClient;
  }

  /** One process runs RC on a file, another opens the same file and leaves it locally: RC now runs in the second,
      which never asked for it, and the entry of the first is gone although RC still runs there. */
  lemma SharedFileRun(f: File, next: Ctx)
    requires next.file != Some(f)
    ensures var s := Run(NOBODY, [Spawn(1, Ctx(0, Some(f))), RcStart(1), Spawn(2, Ctx(0, Some(f))),
                                  Leave(2, Local, next), Arrive(2)]);
      && 1 in s.procs && Active(s.procs[1]) && f !in s.entries
      && 2 in s.procs && Active(s.procs[2]) && s.procs[2].history == [Record(Local, true, false, false, true, 1)]
  {
    hide *;
    var s := Next(Next(Next(NOBODY, Spawn(1, Ctx(0, Some(f)))), RcStart(1)), Spawn(2, Ctx(0, Some(f))));
    SharedSpawned(f);
    SharedLeaves(s, f, next);
    SharedArrives(Next(s, Leave(2, Local, next)), f, next);
    RunFive(NOBODY, Spawn(1, Ctx(0, Some(f))), RcStart(1), Spawn(2, Ctx(0, Some(f))), Leave(2, Local, next), Arrive(2));
  }

  lemma RunSeven(s: System, a: Step, b: Step, c: Step, d: Step, e: Step, f: Step, g: Step)
    ensures Run(s, [a, b, c, d, e, f, g]) == Next(Next(Next(Next(Next(Next(Next(s, a), b), c), d), e), f), g)
  {
    hide Next, Run;
    RunFirst(s, [a, b, c, d, e, f, g]);
    assert [a, b, c, d, e, f, g][1..] == [b, c, d, e, f, g];
    RunFirst(Next(s, a), [b, c, d, e, f, g]);
    assert [b, c, d, e, f, g][1..] == [c, d, e, f, g];
    RunFive(Next(Next(s, a), b), c, d, e, f, g);
  }

  /** Process 1 on a session with a file, before any change has completed; its entry is live while RC is active. */
  ghost predicate OneProcess(s: System, f: File, active: bool, phase: Phase) {
    && 1 in s.procs && s.procs[1].phase == phase && Active(s.procs[1]) == active
    && s.procs[1].session.file == Some(f) && s.procs[1].history == [] && MadeClient(s.procs[1])
    && s.procs[1].ext.activeFile == (if active then Some(f) else None)
    && (if active then f in s.entries && s.entries[f] == 1 else f !in s.entries)
  }

  lemma Started(f: File)
    ensures OneProcess(Next(Next(NOBODY, Spawn(1, Ctx(0, Some(f)))), RcStart(1)), f, true, Steady)
  {
    var s := Next(Next(NOBODY, Spawn(1, Ctx(0, Some(f)))), RcStart(1));
    assert s.procs[1].clients[0].runtime == Runtime(s.procs[1]);
  }

  lemma Prepared(s: System, f: File, active: bool)
    requires OneProcess(s, f, active, Steady)
    ensures OneProcess(Next(s, Prepare(1)), f, false, Preparing(active))
  {
    var c :| 0 <= c < |s.procs[1].clients| && s.procs[1].clients[c].runtime == Runtime(s.procs[1]);
    assert Next(s, Prepare(1)).procs[1].clients[c].runtime == Runtime(s.procs[1]);
  }

  lemma Stopped(s: System, f: File)
    requires OneProcess(s, f, true, Steady)
    ensures OneProcess(Next(s, RcStop(1)), f, false, Steady)
  {
    var c :| 0 <= c < |s.procs[1].clients| && s.procs[1].clients[c].runtime == Runtime(s.procs[1]);
    assert Next(s, RcStop(1)).procs[1].clients[c].runtime == Runtime(s.procs[1]);
  }

  lemma StartedAgain(s: System, f: File, before: bool)
    requires OneProcess(s, f, false, Preparing(before))
    ensures OneProcess(Next(s, RcStart(1)), f, true, Preparing(before))
  {
    var c :| 0 <= c < |s.procs[1].clients| && s.procs[1].clients[c].runtime == Runtime(s.procs[1]);
    assert Next(s, RcStart(1)).procs[1].clients[c].runtime == Runtime(s.procs[1]);
  }

  lemma RemoteLeaves(s: System, f: File, active: bool, before: bool, next: Ctx)
    requires OneProcess(s, f, active, Preparing(before))
    ensures var t := Next(s, Leave(1, Remote, next));
      && 1 in t.procs && t.procs[1].phase == Leaving(Remote, next, before, active) && t.procs[1].session.file == Some(f)
      && t.procs[1].history == [] && (if active then f in t.entries && t.entries[f] == 1 else f !in t.entries)
  {
    hide MadeClient;
  }

  lemma RemoteArrives(s: System, f: File, active: bool, before: bool, next: Ctx)
    requires 1 in s.procs && s.procs[1].phase == Leaving(Remote, next, before, active)
    requires s.procs[1].session.file == Some(f) && s.procs[1].history == []
    requires if active then f in s.entries && s.entries[f] == 1 else f !in s.entries
    ensures var t := Next(s, Arrive(1));
      && 1 in t.procs && t.procs[1].phase == Entering(true, before, active, if active then 1 else 0)
      && t.procs[1].history == []
  {
  }

  lemma RemoteEnters(s: System, before: bool, active: bool)
    requires 1 in s.procs && s.procs[1].phase == Entering(true, before, active, if active then 1 else 0)
    requires s.procs[1].history == []
    ensures var t := Next(s, WithSession(1));
      && 1 in t.procs && Active(t.procs[1])
      && t.procs[1].history == [Record(Remote, true, before, active, true, if active then 2 else 1)]
  {
  }

  lemma RemoteCompletes(s: System, f: File, active: bool, before: bool, next: Ctx)
    requires OneProcess(s, f, active, Preparing(before))
    ensures var t := Next(Next(Next(s, Leave(1, Remote, next)), Arrive(1)), WithSession(1));
      && 1 in t.procs && Active(t.procs[1])
      && t.procs[1].history == [Record(Remote, true, before, active, true, if active then 2 else 1)]
  {
    hide *;
    RemoteLeaves(s, f, active, before, next);
    RemoteArrives(Next(s, Leave(1, Remote, next)), f, active, before, next);
    RemoteEnters(Next(Next(s, Leave(1, Remote, next)), Arrive(1)), before, active);
  }

  /** RC is stopped, but a remote change asked for before that still comes in over the client that is being closed:
      RC is active again. */
  lemma StoppedRcComesBack(f: File, next: Ctx)
    ensures var s := Run(NOBODY, [Spawn(1, Ctx(0, Some(f))), RcStart(1), RcStop(1), Prepare(1), Leave(1, Remote, next),
                                  Arrive(1), WithSession(1)]);
      && 1 in s.procs && Active(s.procs[1])
      && s.procs[1].history == [Record(Remote, true, false, false, true, 1)]
  {
    hide Run, Next, OneProcess;
    var s := Next(Next(NOBODY, Spawn(1, Ctx(0, Some(f)))), RcStart(1));
    Started(f);
    Stopped(s, f);
    Prepared(Next(s, RcStop(1)), f, false);
    RemoteCompletes(Next(Next(s, RcStop(1)), Prepare(1)), f, false, false, next);
    RunSeven(NOBODY, Spawn(1, Ctx(0, Some(f))), RcStart(1), RcStop(1), Prepare(1), Leave(1, Remote, next), Arrive(1),
             WithSession(1));
  }

  /** RC is started by hand between the preparation of a remote change and the shutdown: the hook starts it in the new
      runtime, and `withSession` a second time. */
  lemma StartedTwiceRun(f: File, next: Ctx)
    ensures var s := Run(NOBODY, [Spawn(1, Ctx(0, Some(f))), RcStart(1), Prepare(1), RcStart(1), Leave(1, Remote, next),
                                  Arrive(1), WithSession(1)]);
      && 1 in s.procs && Active(s.procs[1])
      && s.procs[1].history == [Record(Remote, true, true, true, true, 2)]
  {
    hide Run, Next, OneProcess;
    var s := Next(Next(NOBODY, Spawn(1, Ctx(0, Some(f)))), RcStart(1));
    Started(f);
    Prepared(s, f, true);
    StartedAgain(Next(s, Prepare(1)), f, true);
    RemoteCompletes(Next(Next(s, Prepare(1)), RcStart(1)), f, true, true, next);
    RunSeven(NOBODY, Spawn(1, Ctx(0, Some(f))), RcStart(1), Prepare(1), RcStart(1), Leave(1, Remote, next), Arrive(1),
             WithSession(1));
  }

  /** A remote change that is cancelled or fails after its preparation, from any state a disciplined run reaches: RC is
      off in the session that goes on, and the process owns no entry that would bring it back. */
  lemma AbandonedChangeStops(steps: seq<Step>, pid: Pid, f: File)
    requires DisciplinedRun(NOBODY, steps) && CanPrepare(Run(NOBODY, steps), pid)
    ensures var s := Run(NOBODY, steps);
      var t := Next(Next(s, Prepare(pid)), Abandon(pid));
      && pid in t.procs && t.procs[pid].phase.Steady? && t.procs[pid].session == s.procs[pid].session
      && !Active(t.procs[pid]) && !(f in t.entries && t.entries[f] == pid)
      && t.procs[pid].history == s.procs[pid].history
  {
    hide Run, ClientsOk, PhaseOk, RecordOk, PrepareScene, OnlyTouches, MadeClient;
    NobodyInv();
    RunInv(NOBODY, steps);
    var s := Run(NOBODY, steps);
    assert ProcOk(s.entries, pid, s.procs[pid]);
    PrepareOk(s.entries, pid, s.procs[pid]);
  }

  // --- Only one client can act ---------------------------------------------------------------------

  ghost predicate ProcClients(p: Proc) { ClientsOk(p) && (p.phase.Leaving? ==> !Active(p)) }

  ghost predicate AllClients(s: System) { forall pid | pid in s.procs :: ProcClients(s.procs[pid]) }

  lemma StepClients(s: System, step: Step)
    requires AllClients(s)
    ensures AllClients(Next(s, step))
  {
    hide ProcClients, LeaveStep, ArriveStep, RcScene, StopScene, EnterProc;
    forall pid | pid in Next(s, step).procs ensures ProcClients(Next(s, step).procs[pid]) {
      if pid == step.pid { OwnClients(s, step); } else { OtherProcsCame(s, step, pid); }
    }
  }

  lemma OtherProcsCame(s: System, step: Step, q: Pid)
    requires q != Actor(step) && q in Next(s, step).procs
    ensures q in s.procs && Next(s, step).procs[q] == s.procs[q]
  {
    hide LeaveProc, LeaveScene, ArriveProc, ArriveAt, StopScene, RcScene, EnterProc, PrepareProc,
         PrepareScene, MadeClient;
  }

  lemma OwnClients(s: System, step: Step)
    requires AllClients(s) && step.pid in Next(s, step).procs
    ensures ProcClients(Next(s, step).procs[step.pid])
  {
    hide LeaveProc, LeaveScene, ArriveProc, ArriveAt, StopScene, RcScene, EnterProc, PrepareProc,
         PrepareScene, MadeClient, ClientsOk;
    var pid := step.pid;
    if pid !in s.procs {
      NoClients(step);
    } else {
      var m, p := s.entries, s.procs[pid];
      assert ProcClients(p);
      match step
      case Spawn(_, _) => NoClients(step);
      case RcStart(_) => RcClients(m, p, pid);
      case RcStop(_) => StopKeepsClients(p, m, true); StopIsSteady(m, p);
      case Prepare(_) =>
        if CanPrepare(s, pid) { PrepareKeepsClients(m, p); PreparingIsNotLeaving(m, p); }
      case Abandon(_) => SameClients(p, p.(phase := Steady));
      case Leave(_, change, next) =>
        var target := if change.Reloading? then p.session else next;
        LeaveKeepsClients(m, p, change, target);
        LeavingIsInactive(m, p, change, target);
      case Arrive(_) =>
        if p.phase.Leaving? {
          ArriveKeepsClients(m, pid, p, s.procs.Keys);
          ArrivingIsNotLeaving(m, pid, p, s.procs.Keys);
        }
      case WithSession(_) => if p.phase.Entering? { RcClients(m, p, pid); }
      case _ =>
    }
  }

  lemma NoClients(step: Step)
    ensures step.Spawn? ==> ProcClients(Proc(step.session, Steady, FRESH_EXT, [], [], 0, []))
  {
  }

  lemma StopIsSteady(m: Entries, p: Proc)
    ensures !Active(WithScene(p, StopScene(SceneOf(m, p), true)))
  {
  }

  lemma RcClients(m: Entries, p: Proc, pid: Pid)
    requires ClientsOk(p)
    ensures ClientsOk(WithScene(p, RcScene(m, p, pid)))
    ensures p.phase.Entering? ==> ProcClients(EnterProc(m, p, pid))
  {
    hide ClientsOk;
    StartKeepsClients(p, m, p.session, pid);
    if p.phase.Entering? { SameClients(WithScene(p, RcScene(m, p, pid)), EnterProc(m, p, pid)); }
  }

  lemma PreparingIsNotLeaving(m: Entries, p: Proc)
    ensures !PrepareProc(m, p).phase.Leaving?
  {
  }

  lemma LeavingIsInactive(m: Entries, p: Proc, change: Change, next: Ctx)
    ensures !Active(LeaveProc(m, p, change, next)) && LeaveProc(m, p, change, next).phase.Leaving?
  {
  }

  lemma ArrivingIsNotLeaving(m: Entries, pid: Pid, p: Proc, alive: set<Pid>)
    requires p.phase.Leaving?
    ensures !ArriveProc(m, p, pid, alive).phase.Leaving?
  {
  }

  lemma {:induction false} RunClients(s: System, steps: seq<Step>)
    requires AllClients(s)
    ensures AllClients(Run(s, steps))
    decreases |steps|
  {
    hide AllClients, Next;
    if steps != [] {
      StepClients(s, steps[0]);
      RunClients(Next(s, steps[0]), steps[1..]);
    }
  }

  /** Only one client can act, in any run, disciplined or not: of all the clients a process ever made, in all its
      runtimes, the unclosed one and the one whose status callback still goes through are the current one; while
      RC is stopped there is none. */
  lemma OnlyTheCurrentClientActs(steps: seq<Step>, pid: Pid, c: nat)
    requires pid in Run(NOBODY, steps).procs && c < |Run(NOBODY, steps).procs[pid].clients|
    ensures var p := Run(NOBODY, steps).procs[pid];
      && (Acts(p, c) <==> p.ext.client == Some(c))
      && (!p.clients[c].closed <==> p.ext.client == Some(c))
  {
    hide Run, Next, Acts;
    RunClients(NOBODY, steps);
    var p := Run(NOBODY, steps).procs[pid];
    assert ProcClients(p);
    assert ClientOk(p, c);
  }
}

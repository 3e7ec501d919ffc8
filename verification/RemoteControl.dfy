/** RC in the extension: `/rc`, `/rc stop`, and the hooks that carry it over a session change, in any number of
    pi processes that share one handoff file. Each session change destroys the extension's runtime and builds a
    new one: the old one's `session_shutdown` runs, then the new one's `session_start`, then, for a change asked
    for remotely, `withSession`. */
module RemoteControl {
  import opened Text
  import opened Handoff

  /** A session as a context shows it. */
  datatype Ctx = Ctx(session: nat, file: Option<File>)

  /** A `HubClient`: the runtime that made it, that runtime's generation when it did, whether it was closed. */
  datatype Client = Client(runtime: nat, generation: nat, session: nat, closed: bool)

  /** The variables of one runtime of the extension. A client is named by its position in the process's list. */
  datatype Ext = Ext(client: Option<nat>, activeFile: Option<File>, statusContext: Option<Ctx>, generation: nat)

  const FRESH_EXT := Ext(None, None, None, 0)

  /** What a hook or command sees and changes; `starts` counts runs of `start`. */
  datatype Scene = Scene(entries: Entries, ext: Ext, clients: seq<Client>, starts: nat)

  function CloseClient(clients: seq<Client>, c: Option<nat>): seq<Client> {
    if c.Some? && c.value < |clients| then clients[c.value := clients[c.value].(closed := true)] else clients
  }

  function StartScene(s: Scene, ctx: Ctx, runtime: nat, me: Pid): Scene {
    var generation := s.ext.generation + 1;
    Scene(
      if ctx.file.Some? then MarkEntry(s.entries, ctx.file.value, me) else s.entries,
      Ext(Some(|s.clients|), if ctx.file.Some? then ctx.file else s.ext.activeFile, Some(ctx), generation),
      CloseClient(s.clients, s.ext.client) + [Client(runtime, generation, ctx.session, false)],
      s.starts + 1)
  }

  function StopScene(s: Scene, clearHandoff: bool): Scene {
    Scene(
      if clearHandoff && s.ext.activeFile.Some? then DropEntry(s.entries, s.ext.activeFile.value) else s.entries,
      Ext(None, None, None, s.ext.generation + 1),
      CloseClient(s.clients, s.ext.client),
      s.starts)
  }

  /** Before a change asked for remotely: the entry is dropped so that `session_start` does not reconnect too. */
  function PrepareScene(s: Scene): Scene {
    StopScene(if s.ext.activeFile.Some? then s.(entries := DropEntry(s.entries, s.ext.activeFile.value)) else s, false)
  }

  /** The `session_start` hook. */
  function ArriveScene(s: Scene, ctx: Ctx, previous: Option<File>, runtime: nat, me: Pid, alive: set<Pid>): Scene {
    if previous.None? then s
    else if LiveEntry(s.entries, previous.value, me, alive)
    then StartScene(s.(entries := DropEntry(s.entries, previous.value)), ctx, runtime, me)
    else s.(entries := PruneEntry(s.entries, previous.value, me, alive))
  }

  datatype Reason = New | Resume | Fork | Reload | Quit | Startup

  class Extension {
    const handoff: HandoffFile
    const me: Pid
    const runtime: nat
    var client: Option<nat>
    var activeSessionFile: Option<File>
    var activeStatusContext: Option<Ctx>
    var clientGeneration: nat
    var clients: seq<Client>
    ghost var starts: nat

    ghost function Now(): Scene
      reads this, handoff
    {
      Scene(handoff.entries, Ext(client, activeSessionFile, activeStatusContext, clientGeneration), clients, starts)
    }

    /** A runtime is built; the clients are those the process has made so far. */
    constructor (handoff: HandoffFile, me: Pid, runtime: nat, clients: seq<Client>, ghost starts: nat)
      ensures this.handoff == handoff && this.me == me && this.runtime == runtime
      ensures Now() == Scene(handoff.entries, FRESH_EXT, clients, starts)
    {
      this.handoff, this.me, this.runtime, this.clients, this.starts := handoff, me, runtime, clients, starts;
      client, activeSessionFile, activeStatusContext, clientGeneration := None, None, None, 0;
    }

    method Start(ctx: Ctx)
      modifies this, handoff
      ensures Now() == StartScene(old(Now()), ctx, runtime, me)
    {
      if ctx.file.Some? {
        activeSessionFile := ctx.file;
        handoff.MarkHandoff(ctx.file.value, me);
      }
      activeStatusContext := Some(ctx);
      clientGeneration := clientGeneration + 1;
      if client.Some? && client.value < |clients| {
        clients := clients[client.value := clients[client.value].(closed := true)];
      }
      client := Some(|clients|);
      clients := clients + [Client(runtime, clientGeneration, ctx.session, false)];
      starts := starts + 1;
    }

    method Stop(clearHandoff: bool)
      modifies this, handoff
      ensures Now() == StopScene(old(Now()), clearHandoff)
    {
      clientGeneration := clientGeneration + 1;
      activeStatusContext := None;
      if client.Some? && client.value < |clients| {
        clients := clients[client.value := clients[client.value].(closed := true)];
      }
      client := None;
      if clearHandoff && activeSessionFile.Some? { handoff.DropHandoff(activeSessionFile.value); }
      activeSessionFile := None;
    }

    method PrepareSessionChange()
      modifies this, handoff
      ensures Now() == PrepareScene(old(Now()))
    {
      if activeSessionFile.Some? { handoff.DropHandoff(activeSessionFile.value); }
      Stop(false);
    }

    method OnSessionStart(reason: Reason, ctx: Ctx, previousSessionFile: Option<File>, alive: set<Pid>)
      modifies this, handoff
      ensures Now() == ArriveScene(old(Now()), ctx, if reason.Reload? then ctx.file else previousSessionFile,
                                   runtime, me, alive)
    {
      var previous := if reason.Reload? then ctx.file else previousSessionFile;
      if previous.None? { return; }
      var has := handoff.HasHandoff(previous.value, me, alive);
      if !has { return; }
      handoff.DropHandoff(previous.value);
      Start(ctx);
    }

    method OnSessionShutdown(reason: Reason)
      modifies this, handoff
      ensures Now() == StopScene(old(Now()), reason.Quit?)
    {
      Stop(reason.Quit?);
    }

    /** `/rc` with its argument trimmed; `/rc status` only reads. */
    method Rc(argument: string, ctx: Ctx)
      modifies this, handoff
      ensures Now() == if argument == "stop" then StopScene(old(Now()), true)
                       else if argument == "status" then old(Now())
                       else StartScene(old(Now()), ctx, runtime, me)
    {
      if argument == "stop" {
        Stop(true);
      } else if argument != "status" {
        Start(ctx);
      }
    }
  }
}

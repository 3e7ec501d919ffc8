/** Sessions as the Hub holds them: a link to a running pi, metadata, derived status, and a `connected` watch. */
module Session {
  import opened Text

  type Id = string
  type ConnId = nat

  datatype Meta = Meta(
    sessionId: Id,
    sessionFile: Option<string>,
    sessionName: Option<string>,
    cwd: string,
    connectedAtMs: int)

  datatype Status = Status(isStreaming: bool, lastActivityAtMs: int, lastPreview: Option<string>)

  const DEFAULT_STATUS := Status(false, 0, None)

  /** How the Hub reaches the session: a process it spawned, or the connection an extension opened. */
  datatype Link = Headless | Remote(conn: ConnId)

  datatype Summary = Summary(meta: Meta, status: Status, connected: bool)

  /** A payload on a session's event channel, with the connection it came in on. */
  datatype Payload = Payload(source: ConnId, body: string)

  /** One registered session. `receivers` counts the receivers of its `connected` watch: the initial one is
      dropped at once, so a handle starts with none. */
  datatype Handle = Handle(
    link: Link,
    meta: Meta,
    status: Status,
    connected: bool,
    receivers: nat,
    events: seq<Payload>)

  function NewHandle(link: Link, meta: Meta): Handle { Handle(link, meta, DEFAULT_STATUS, true, 0, []) }

  function SummaryOf(h: Handle): Summary { Summary(h.meta, h.status, h.connected) }

  /** A watch send takes effect only if some receiver exists. */
  function MarkDisconnected(h: Handle): Handle {
    if h.receivers > 0 then h.(connected := false) else h
  }

  /** The fields of a `meta_update` frame that are present and are strings. */
  datatype Patch = Patch(sessionFile: Option<string>, sessionName: Option<string>, cwd: Option<string>)

  function ApplyPatch(m: Meta, p: Patch): (r: Meta)
    ensures r.sessionId == m.sessionId && r.connectedAtMs == m.connectedAtMs
  {
    var m1 := if p.sessionFile.Some? then m.(sessionFile := p.sessionFile) else m;
    var m2 := if p.sessionName.Some? then m1.(sessionName := p.sessionName) else m1;
    if p.cwd.Some? then m2.(cwd := p.cwd.value) else m2
  }

  /** A message on the control channel. */
  datatype Frame =
    | SessionConnected(session: Summary)
    | SessionUpdate(session: Summary)
    | SessionMeta(session: Summary)
    | SessionDisconnected(sessionId: Id)

  function FrameId(f: Frame): Id {
    match f
    case SessionDisconnected(id) => id
    case _ => f.session.meta.sessionId
  }
}

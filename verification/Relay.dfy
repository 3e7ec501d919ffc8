/** Commands from the phones to the extension and the responses back: the inbound loop of each phone's bridge,
    `RemoteAgent`, the connection's writer, and the extension's `handleCommand`. */
module Relay {
  import opened Text

  type EnvelopeId = string

  // --- The extension's command handler -------------------------------------------------------------

  /** A command. `message` is the text of a prompt. A command without a type is of type "unknown". */
  datatype Command = Command(kind: Option<string>, message: string)

  /** `data` stands for whatever JSON an operation answers with. */
  datatype Response = Response(command: string, success: bool, data: Option<string>, error: Option<string>)

  function Fail(command: string, error: string): Response { Response(command, false, None, Some(error)) }

  function TypeOf(c: Command): string { if c.kind.Some? then c.kind.value else "unknown" }

  /** What the dispatcher does with a command type. */
  datatype Handling = Supported | Unsupported | UnknownType

  const SUPPORTED: set<string> := {
    "prompt", "steer", "follow_up", "abort", "get_state", "get_messages", "get_commands", "set_model", "cycle_model",
    "get_available_models", "set_thinking_level", "cycle_thinking_level", "get_available_thinking_levels", "compact",
    "set_session_name", "get_session_name", "get_session_stats", "get_fork_messages", "get_entries", "get_tree",
    "get_last_assistant_text", "new_session", "switch_session", "fork", "bash" }

  const UNSUPPORTED: set<string> := {
    "clear_queue", "set_steering_mode", "set_follow_up_mode", "set_auto_compaction", "set_auto_retry", "abort_retry",
    "abort_bash", "export_html" }

  function HandlingOf(kind: string): Handling {
    if kind in SUPPORTED then Supported else if kind in UNSUPPORTED then Unsupported else UnknownType
  }

  /** What the operation behind a supported command does: answer for itself or throw. */
  datatype Outcome = Answers(success: bool, data: Option<string>, error: Option<string>) | Throws(thrown: string)

  datatype Promised = Resolved(response: Response) | Rejected(error: string)

  predicate IsPrompt(c: Command) { TypeOf(c) == "prompt" }

  /** The operation a command runs: a prompt that says "/new" is a new session. */
  function OperationOf(c: Command): string {
    if IsPrompt(c) && Trim(c.message) == "/new" then "new_session" else TypeOf(c)
  }

  function UnsupportedText(kind: string): string {
    "\"" + kind + "\" is not implemented yet for pi-piper-agent (remote) sessions \U{2014} "
    + "see pi-piper-agent/README.md \"Known gaps\""
  }

  function UnknownText(kind: string): string { "unknown command type: " + kind }

  /** `createCommandHandler`: everything thrown is caught, except what `handlePrompt` throws, whose promise is
      returned without being awaited. */
  function Dispatch(c: Command, outcome: Outcome): Promised {
    match HandlingOf(TypeOf(c))
    case Supported =>
      (match outcome
       case Answers(success, data, error) => Resolved(Response(OperationOf(c), success, data, error))
       case Throws(error) => if IsPrompt(c) then Rejected(error) else Resolved(Fail(TypeOf(c), error)))
    case Unsupported => Resolved(Fail(TypeOf(c), UnsupportedText(TypeOf(c))))
    case UnknownType => Resolved(Fail(TypeOf(c), UnknownText(TypeOf(c))))
  }

  /** `HubClient.handleCommand`: a rejection becomes a failed response. */
  function Answer(c: Command, outcome: Outcome): Response {
    match Dispatch(c, outcome)
    case Resolved(response) => response
    case Rejected(error) => Fail(TypeOf(c), error)
  }

  // The commands by what they are about.

  const MESSAGE_COMMANDS: set<string> := {"prompt", "steer", "follow_up", "abort", "bash"}

  const SESSION_COMMANDS: set<string> :=
    {"fork", "compact", "new_session", "switch_session", "set_session_name", "get_session_name", "get_session_stats"}

  const MODEL_COMMANDS: set<string> :=
    {"set_model", "cycle_model", "get_available_models", "set_thinking_level", "cycle_thinking_level",
     "get_available_thinking_levels"}

  const READING_COMMANDS: set<string> :=
    {"get_tree", "get_state", "get_entries", "get_messages", "get_commands", "get_fork_messages",
     "get_last_assistant_text"}

  const MISSING_COMMANDS: set<string> :=
    {"abort_bash", "export_html", "abort_retry", "clear_queue", "set_auto_retry", "set_steering_mode",
     "set_follow_up_mode", "set_auto_compaction"}

  lemma SupportedAre(kind: string)
    ensures kind in SUPPORTED
       <==> kind in MESSAGE_COMMANDS || kind in SESSION_COMMANDS || kind in MODEL_COMMANDS || kind in READING_COMMANDS
  {
  }

  lemma MissingAre(kind: string)
    ensures kind in UNSUPPORTED <==> kind in MISSING_COMMANDS
  {
  }

  lemma MissingText(kind: string, text: string, note: string)
    requires text == "\" is not implemented yet for pi-piper-agent (remote) sessions \U{2014} "
    requires note == "see pi-piper-agent/README.md \"Known gaps\""
    ensures UnsupportedText(kind) == "\"" + kind + (text + note)
  {
  }

  /** What a command of a kind that has an operation is answered with: exactly what the operation answers, under its
      name; a prompt that says "/new" runs that of a new session. What an operation throws becomes a failure under the
      command's name, also for a prompt, whose promise is not awaited inside the try. */
  lemma SupportedAnswer(c: Command, outcome: Outcome, kind: string)
    requires kind == if c.kind.None? then "unknown" else c.kind.value
    requires kind in MESSAGE_COMMANDS || kind in SESSION_COMMANDS || kind in MODEL_COMMANDS || kind in READING_COMMANDS
    ensures outcome.Answers? ==>
      Answer(c, outcome) == Response(if kind == "prompt" && Trim(c.message) == "/new" then "new_session" else kind,
                                     outcome.success, outcome.data, outcome.error)
    ensures outcome.Throws? ==> Answer(c, outcome) == Response(kind, false, None, Some(outcome.thrown))
  {
    SupportedAre(kind);
    hide SUPPORTED, UNSUPPORTED, MESSAGE_COMMANDS, SESSION_COMMANDS, MODEL_COMMANDS, READING_COMMANDS, UnsupportedText,
         UnknownText, Trim;
  }

  /** Every other command fails: eight of them are known and not implemented, and any other type is unknown. */
  lemma OtherAnswer(c: Command, outcome: Outcome, kind: string, text: string, note: string)
    requires kind == if c.kind.None? then "unknown" else c.kind.value
    requires kind !in MESSAGE_COMMANDS && kind !in SESSION_COMMANDS && kind !in MODEL_COMMANDS && kind !in READING_COMMANDS
    requires text == "\" is not implemented yet for pi-piper-agent (remote) sessions \U{2014} "
    requires note == "see pi-piper-agent/README.md \"Known gaps\""
    ensures Answer(c, outcome)
         == Response(kind, false, None, Some(if kind in MISSING_COMMANDS then "\"" + kind + (text + note)
                                             else "unknown command type: " + kind))
  {
    SupportedAre(kind);
    MissingAre(kind);
    MissingText(kind, text, note);
    hide SUPPORTED, UNSUPPORTED, MESSAGE_COMMANDS, SESSION_COMMANDS, MODEL_COMMANDS, READING_COMMANDS, MISSING_COMMANDS,
         UnsupportedText, Trim;
  }

  // --- The Hub's side ------------------------------------------------------------------------------

  /** What a phone sends: a command, or something that is not text or not JSON. */
  datatype Message = Request(command: Command) | Noise

  /** A command on its way: its envelope id, the phone it came from, and which of the phone's messages it was. */
  datatype Envelope = Envelope(id: EnvelopeId, phone: nat, index: nat, command: Command)

  class RemoteAgent {
    var toAgent: seq<Envelope>
    var receiverAlive: bool

    constructor ()
      ensures toAgent == [] && receiverAlive
    {
      toAgent, receiverAlive := [], true;
    }

    /** Fails once the connection's writer is gone. */
    method Send(envelope: Envelope) returns (ok: bool)
      modifies this
      ensures ok == old(receiverAlive) && receiverAlive == old(receiverAlive)
      ensures toAgent == if ok then old(toAgent) + [envelope] else old(toAgent)
    {
      ok := receiverAlive;
      if ok { toAgent := toAgent + [envelope]; }
    }
  }

  /** The envelopes of the commands among a phone's messages, the first of which is message number `from`. */
  function Envelopes(phone: nat, from: nat, messages: seq<Message>, ids: seq<EnvelopeId>): seq<Envelope>
    requires |ids| == |messages|
  {
    if messages == [] then []
    else
      var front := |messages| - 1;
      Envelopes(phone, from, messages[..front], ids[..front])
      + if messages[front].Request? then [Envelope(ids[front], phone, from + front, messages[front].command)] else []
  }

  /** The inbound loop of a phone's bridge, with nobody else sending meanwhile. */
  method ForwardInbound(agent: RemoteAgent, phone: nat, messages: seq<Message>, ids: seq<EnvelopeId>)
    requires |ids| == |messages|
    modifies agent
    ensures agent.receiverAlive == old(agent.receiverAlive)
    ensures agent.toAgent == old(agent.toAgent) + if agent.receiverAlive then Envelopes(phone, 0, messages, ids) else []
  {
    assert old(agent.toAgent) + [] == old(agent.toAgent);
    for i := 0 to |messages|
      invariant agent.receiverAlive == old(agent.receiverAlive)
      invariant agent.toAgent
             == old(agent.toAgent) + if agent.receiverAlive then Envelopes(phone, 0, messages[..i], ids[..i]) else []
    {
      assert messages[..i + 1][..i] == messages[..i] && ids[..i + 1][..i] == ids[..i];
      if messages[i].Request? {
        var _ := agent.Send(Envelope(ids[i], phone, i, messages[i].command));
      }
    }
    assert messages[..|messages|] == messages && ids[..|ids|] == ids;
  }

  // --- All of it together --------------------------------------------------------------------------

  datatype Frame = Frame(id: EnvelopeId, response: Response)

  /** `sent` and `taken`: what each phone sent and how much of it its bridge has read. `accepted` is the order in
      which the link took commands. `writing`: the connection's writer runs. `receiving`: the extension still
      reads this connection. `open`: the extension's current socket is open, this one or one opened later.
      `closed`: the extension closed its client. */
  datatype State = State(
    sent: map<nat, seq<Message>>,
    taken: map<nat, nat>,
    accepted: seq<Envelope>,
    outbox: seq<Envelope>,
    wire: seq<Envelope>,
    handled: seq<Envelope>,
    settled: set<EnvelopeId>,
    responses: seq<Frame>,
    writing: bool,
    receiving: bool,
    open: bool,
    closed: bool)

  const START := State(map[], map[], [], [], [], [], {}, [], true, true, true, false)

  datatype Step =
    | Connect(phone: nat)
    | PhoneSends(phone: nat, message: Message)
    | Forward(phone: nat, id: EnvelopeId)
    | Write
    | Deliver
    | Settle(id: EnvelopeId, outcome: Outcome)
    | HubCloses
    | SocketDrops
    | SocketReopens
    | ClientCloses

  predicate Unread(s: State, p: nat) { p in s.sent && p in s.taken && s.taken[p] < |s.sent[p]| }

  function ForwardStep(s: State, p: nat, id: EnvelopeId): State {
    if !Unread(s, p) then s
    else
      var message := s.sent[p][s.taken[p]];
      var read := s.(taken := s.taken[p := s.taken[p] + 1]);
      if message.Request? && s.writing then
        var envelope := Envelope(id, p, s.taken[p], message.command);
        read.(accepted := s.accepted + [envelope], outbox := s.outbox + [envelope])
      else read
  }

  predicate Running(s: State, id: EnvelopeId) {
    id !in s.settled && exists i | 0 <= i < |s.handled| :: s.handled[i].id == id
  }

  function CommandWith(handled: seq<Envelope>, id: EnvelopeId): Command
    requires exists i | 0 <= i < |handled| :: handled[i].id == id
  {
    if handled[|handled| - 1].id == id then handled[|handled| - 1].command
    else CommandWith(handled[..|handled| - 1], id)
  }

  /** A handler is done: its response goes out if the socket is open then, and is dropped otherwise. */
  function SettleStep(s: State, id: EnvelopeId, outcome: Outcome): State {
    if !Running(s, id) then s
    else
      var frame := Frame(id, Answer(CommandWith(s.handled, id), outcome));
      s.(settled := s.settled + {id}, responses := if s.open then s.responses + [frame] else s.responses)
  }

  function ConnectStep(s: State, p: nat): State {
    if p in s.sent then s else s.(sent := s.sent[p := []], taken := s.taken[p := 0])
  }

  function PhoneStep(s: State, p: nat, m: Message): State {
    if p in s.sent then s.(sent := s.sent[p := s.sent[p] + [m]]) else s
  }

  function Next(s: State, step: Step): State {
    match step
    case Connect(p) => ConnectStep(s, p)
    case PhoneSends(p, m) => PhoneStep(s, p, m)
    case Forward(p, id) => ForwardStep(s, p, id)
    case Write => if s.writing && s.outbox != [] then s.(wire := s.wire + [s.outbox[0]], outbox := s.outbox[1..]) else s
    case Deliver => if s.receiving && s.wire != [] then s.(handled := s.handled + [s.wire[0]], wire := s.wire[1..]) else s
    case Settle(id, outcome) => SettleStep(s, id, outcome)
    case HubCloses => s.(writing := false)
    case SocketDrops => s.(receiving := false, open := false)
    case SocketReopens => if s.receiving || s.closed then s else s.(open := true)
    case ClientCloses => s.(open := false, closed := true)
  }

  function Run(s: State, steps: seq<Step>): State
    decreases |steps|
  {
    if steps == [] then s else Run(Next(s, steps[0]), steps[1..])
  }

  /** The Hub draws a new envelope id each time. */
  predicate FreshIds(s: State, steps: seq<Step>)
    decreases |steps|
  {
    steps == [] || ((steps[0].Forward? ==> forall i | 0 <= i < |s.accepted| :: s.accepted[i].id != steps[0].id)
                    && FreshIds(Next(s, steps[0]), steps[1..]))
  }

  /** The commands among a phone's messages, each with its position. */
  function Requests(p: nat, messages: seq<Message>): seq<(nat, Command)> {
    if messages == [] then []
    else
      var front := |messages| - 1;
      Requests(p, messages[..front]) + if messages[front].Request? then [(front, messages[front].command)] else []
  }

  /** What a list of envelopes has from one phone. */
  function From(p: nat, envelopes: seq<Envelope>): seq<(nat, Command)> {
    if envelopes == [] then []
    else
      var last := envelopes[|envelopes| - 1];
      From(p, envelopes[..|envelopes| - 1]) + if last.phone == p then [(last.index, last.command)] else []
  }

  // --- What every step keeps -----------------------------------------------------------------------

  ghost predicate Distinct(envelopes: seq<Envelope>) {
    forall i, j | 0 <= i < j < |envelopes| :: envelopes[i].id != envelopes[j].id
  }

  /** What the link took from a phone is an initial part of its commands; all that was read, while the writer runs. */
  ghost predicate InOrder(s: State, p: nat)
    requires p in s.sent && p in s.taken
  {
    && s.taken[p] <= |s.sent[p]|
    && From(p, s.accepted) <= Requests(p, s.sent[p][..s.taken[p]])
    && (s.writing ==> From(p, s.accepted) == Requests(p, s.sent[p][..s.taken[p]]))
  }

  /** Nothing is lost, duplicated or reordered between the link and the handlers. */
  ghost predicate Conserved(s: State) { s.handled + s.wire + s.outbox == s.accepted && Distinct(s.accepted) }

  ghost predicate Answered(s: State) {
    && (forall k | 0 <= k < |s.responses| :: s.responses[k].id in s.settled)
    && (forall k, l | 0 <= k < l < |s.responses| :: s.responses[k].id != s.responses[l].id)
    && (forall id | id in s.settled :: exists i | 0 <= i < |s.handled| :: s.handled[i].id == id)
  }

  ghost predicate Inv(s: State) {
    && (forall p: nat :: p in s.sent <==> p in s.taken)
    && (forall p | p in s.sent :: InOrder(s, p))
    && (forall p | p !in s.sent :: From(p, s.accepted) == [])
    && Conserved(s) && Answered(s)
  }

  lemma StartInv()
    ensures Inv(START)
  {
  }

  lemma FromSnoc(p: nat, envelopes: seq<Envelope>, e: Envelope)
    ensures From(p, envelopes + [e]) == From(p, envelopes) + if e.phone == p then [(e.index, e.command)] else []
  {
    assert (envelopes + [e])[..|envelopes|] == envelopes;
  }

  lemma RequestsSnoc(p: nat, messages: seq<Message>, k: nat)
    requires k < |messages|
    ensures Requests(p, messages[..k + 1])
         == Requests(p, messages[..k]) + if messages[k].Request? then [(k, messages[k].command)] else []
  {
    assert messages[..k + 1][..k] == messages[..k];
  }

  lemma ForwardKeepsOrder(s: State, p: nat, id: EnvelopeId, q: nat)
    requires Inv(s) && q in s.sent
    ensures InOrder(ForwardStep(s, p, id), q)
  {
    hide From, Requests, Conserved, Answered;
    assert InOrder(s, q);
    if Unread(s, p) {
      RequestsSnoc(p, s.sent[p], s.taken[p]);
      if s.sent[p][s.taken[p]].Request? && s.writing {
        FromSnoc(q, s.accepted, Envelope(id, p, s.taken[p], s.sent[p][s.taken[p]].command));
      }
    }
  }

  lemma ForwardConserves(s: State, p: nat, id: EnvelopeId)
    requires Conserved(s) && forall i | 0 <= i < |s.accepted| :: s.accepted[i].id != id
    ensures Conserved(ForwardStep(s, p, id))
  {
  }

  lemma ForwardKeepsOthers(s: State, p: nat, id: EnvelopeId)
    ensures var t := ForwardStep(s, p, id);
      && t.sent == s.sent && t.responses == s.responses && t.settled == s.settled && t.handled == s.handled
      && t.taken == (if Unread(s, p) then s.taken[p := s.taken[p] + 1] else s.taken)
  {
  }

  lemma ForwardFrom(s: State, p: nat, id: EnvelopeId, q: nat)
    requires q !in s.sent
    ensures From(q, ForwardStep(s, p, id).accepted) == From(q, s.accepted)
  {
    hide From;
    if Unread(s, p) && s.sent[p][s.taken[p]].Request? && s.writing {
      FromSnoc(q, s.accepted, Envelope(id, p, s.taken[p], s.sent[p][s.taken[p]].command));
    }
  }

  lemma ForwardKeepsInv(s: State, p: nat, id: EnvelopeId)
    requires Inv(s) && forall i | 0 <= i < |s.accepted| :: s.accepted[i].id != id
    ensures Inv(ForwardStep(s, p, id))
  {
    hide From, Requests, InOrder, Answered, Conserved, ForwardStep;
    var t := ForwardStep(s, p, id);
    ForwardKeepsOthers(s, p, id);
    forall q | q in t.sent ensures InOrder(t, q) { ForwardKeepsOrder(s, p, id, q); }
    forall q: nat | q !in t.sent ensures From(q, t.accepted) == [] { ForwardFrom(s, p, id, q); }
    AnsweredKept(s, t);
    ForwardConserves(s, p, id);
  }

  lemma AnsweredKept(s: State, t: State)
    requires Answered(s) && s.responses == t.responses && s.settled == t.settled && s.handled <= t.handled
    ensures Answered(t)
  {
    forall id | id in t.settled ensures exists i | 0 <= i < |t.handled| :: t.handled[i].id == id {
      var i :| 0 <= i < |s.handled| && s.handled[i].id == id;
      assert t.handled[i] == s.handled[i];
    }
  }

  lemma NothingRequested(p: nat)
    ensures Requests(p, []) == []
  {
  }

  lemma ConnectKeepsOrder(s: State, p: nat, q: nat)
    requires Inv(s) && q in ConnectStep(s, p).sent && q in ConnectStep(s, p).taken
    ensures InOrder(ConnectStep(s, p), q)
  {
    hide From, Requests, Conserved, Answered;
    NothingRequested(p);
    if q in s.sent { assert InOrder(s, q); } else { assert ConnectStep(s, p).sent[q][..0] == []; }
  }

  lemma ConnectFields(s: State, p: nat)
    requires Inv(s)
    ensures var t := ConnectStep(s, p);
      && t.accepted == s.accepted && t.outbox == s.outbox && t.wire == s.wire && t.handled == s.handled
      && t.settled == s.settled && t.responses == s.responses
      && (forall q: nat :: q in t.sent <==> q in s.sent || q == p)
      && (forall q: nat :: q in t.sent <==> q in t.taken)
  {
    hide From, Requests, Conserved, Answered, InOrder;
  }

  lemma ConnectKeepsInv(s: State, p: nat)
    requires Inv(s)
    ensures Inv(ConnectStep(s, p))
  {
    hide From, Requests, Conserved, Answered, InOrder, ConnectStep;
    var t := ConnectStep(s, p);
    ConnectFields(s, p);
    AnsweredKept(s, t);
    ConservedKept(s, t);
    forall q | q in t.sent ensures InOrder(t, q) { ConnectKeepsOrder(s, p, q); }
  }

  lemma PhoneKeepsOrder(s: State, p: nat, m: Message, q: nat)
    requires q in s.sent && q in s.taken && InOrder(s, q)
    ensures q in PhoneStep(s, p, m).sent && q in PhoneStep(s, p, m).taken && InOrder(PhoneStep(s, p, m), q)
  {
    hide From, Requests;
    var t := PhoneStep(s, p, m);
    assert t.sent[q][..t.taken[q]] == s.sent[q][..s.taken[q]];
  }

  lemma PhoneKeepsInv(s: State, p: nat, m: Message)
    requires Inv(s)
    ensures Inv(PhoneStep(s, p, m))
  {
    hide From, Requests, Conserved, Answered, InOrder;
    var t := PhoneStep(s, p, m);
    AnsweredKept(s, t);
    ConservedKept(s, t);
    forall q | q in t.sent ensures InOrder(t, q) { PhoneKeepsOrder(s, p, m, q); }
  }

  lemma ConservedKept(s: State, t: State)
    requires Conserved(s) && t.handled == s.handled && t.wire == s.wire && t.outbox == s.outbox
    requires t.accepted == s.accepted
    ensures Conserved(t)
  {
  }

  /** Moving the head of one queue to the end of the one before it. */
  lemma MoveConserves(handled: seq<Envelope>, wire: seq<Envelope>, outbox: seq<Envelope>)
    ensures outbox != [] ==> handled + (wire + [outbox[0]]) + outbox[1..] == handled + wire + outbox
    ensures wire != [] ==> (handled + [wire[0]]) + wire[1..] + outbox == handled + wire + outbox
  {
  }

  lemma MoveKeepsInv(s: State, step: Step)
    requires Inv(s) && (step.Write? || step.Deliver?)
    ensures Inv(Next(s, step))
  {
    hide From, Requests, Distinct, Answered;
    var t := Next(s, step);
    AnsweredKept(s, t);
    MoveConserves(s.handled, s.wire, s.outbox);
    forall q | q in s.sent ensures InOrder(t, q) { assert InOrder(s, q); }
  }

  lemma SettleKeepsInv(s: State, id: EnvelopeId, outcome: Outcome)
    requires Inv(s)
    ensures Inv(SettleStep(s, id, outcome))
  {
    hide From, Requests, Answer, CommandWith, Distinct;
    var t := SettleStep(s, id, outcome);
    forall q | q in s.sent ensures InOrder(t, q) { assert InOrder(s, q); }
  }

  lemma CloseKeepsInv(s: State, writing: bool, receiving: bool, open: bool, closed: bool)
    requires Inv(s) && (writing ==> s.writing)
    ensures Inv(s.(writing := writing, receiving := receiving, open := open, closed := closed))
  {
    hide From, Requests, Distinct;
    var t := s.(writing := writing, receiving := receiving, open := open, closed := closed);
    forall q | q in s.sent ensures InOrder(t, q) { assert InOrder(s, q); }
    AnsweredKept(s, t);
  }

  lemma StepKeepsInv(s: State, step: Step)
    requires Inv(s) && FreshIds(s, [step])
    ensures Inv(Next(s, step))
  {
    hide Inv, ForwardStep, SettleStep, ConnectStep, PhoneStep;
    match step
    case Connect(p) => ConnectKeepsInv(s, p);
    case PhoneSends(p, m) => PhoneKeepsInv(s, p, m);
    case Forward(p, id) => ForwardKeepsInv(s, p, id);
    case Write => MoveKeepsInv(s, step);
    case Deliver => MoveKeepsInv(s, step);
    case Settle(id, outcome) => SettleKeepsInv(s, id, outcome);
    case HubCloses => CloseKeepsInv(s, false, s.receiving, s.open, s.closed);
    case SocketDrops => CloseKeepsInv(s, s.writing, false, false, s.closed);
    case SocketReopens => CloseKeepsInv(s, s.writing, s.receiving, true, s.closed);
    case ClientCloses => CloseKeepsInv(s, s.writing, s.receiving, false, true);
  }

  lemma {:induction false} RunKeepsInv(s: State, steps: seq<Step>)
    requires Inv(s) && FreshIds(s, steps)
    ensures Inv(Run(s, steps))
    decreases |steps|
  {
    hide Inv, Next;
    if steps != [] {
      FirstIsFresh(s, steps);
      StepKeepsInv(s, steps[0]);
      RunKeepsInv(Next(s, steps[0]), steps[1..]);
    }
  }

  lemma FirstIsFresh(s: State, steps: seq<Step>)
    requires FreshIds(s, steps) && steps != []
    ensures FreshIds(s, [steps[0]])
  {
    hide Next;
  }

  // --- The results ---------------------------------------------------------------------------------

  lemma {:induction false} FromConcat(p: nat, a: seq<Envelope>, b: seq<Envelope>)
    ensures From(p, a) <= From(p, a + b)
    decreases |b|
  {
    if b == [] {
      assert a + b == a;
    } else {
      assert (a + b)[..|a + b| - 1] == a + b[..|b| - 1];
      FromConcat(p, a, b[..|b| - 1]);
    }
  }

  lemma {:induction false} RequestsPrefix(p: nat, messages: seq<Message>, k: nat)
    requires k <= |messages|
    ensures Requests(p, messages[..k]) <= Requests(p, messages)
    decreases |messages| - k
  {
    if k == |messages| {
      assert messages[..k] == messages;
    } else {
      RequestsSnoc(p, messages, k);
      RequestsPrefix(p, messages, k + 1);
    }
  }

  /** In any run, what the extension handles is an initial part of one merged order, without duplicates; what it
      handles of any one phone is an initial part of the commands that phone sent, in the order it sent them. */
  lemma CommandsInOrder(steps: seq<Step>, p: nat)
    requires FreshIds(START, steps)
    ensures var s := Run(START, steps);
      && s.handled <= s.accepted && Distinct(s.accepted)
      && From(p, s.handled) <= if p in s.sent then Requests(p, s.sent[p]) else []
  {
    hide Run, From, Requests, Answered;
    StartInv();
    RunKeepsInv(START, steps);
    var s := Run(START, steps);
    assert s.handled + s.wire + s.outbox == s.handled + (s.wire + s.outbox);
    FromConcat(p, s.handled, s.wire + s.outbox);
    if p in s.sent {
      assert InOrder(s, p);
      RequestsPrefix(p, s.sent[p], s.taken[p]);
    }
  }

  /** Once everything is read, written and delivered and the writer never stopped, everything arrived. */
  lemma EverythingArrives(steps: seq<Step>, p: nat)
    requires FreshIds(START, steps)
    requires var s := Run(START, steps);
      p in s.sent && p in s.taken && s.taken[p] == |s.sent[p]| && s.writing && s.outbox == [] && s.wire == []
    ensures var s := Run(START, steps); From(p, s.handled) == Requests(p, s.sent[p])
  {
    hide Run, From, Requests, Answered;
    StartInv();
    RunKeepsInv(START, steps);
    var s := Run(START, steps);
    assert InOrder(s, p);
    assert s.handled + [] + [] == s.handled;
    assert s.sent[p][..s.taken[p]] == s.sent[p];
  }

  function Count(responses: seq<Frame>, id: EnvelopeId): nat {
    if responses == [] then 0
    else Count(responses[..|responses| - 1], id) + if responses[|responses| - 1].id == id then 1 else 0
  }

  lemma {:induction false} CountAtMostOne(responses: seq<Frame>, id: EnvelopeId)
    requires forall k, l | 0 <= k < l < |responses| :: responses[k].id != responses[l].id
    ensures Count(responses, id) == if exists k | 0 <= k < |responses| :: responses[k].id == id then 1 else 0
  {
    if responses != [] {
      var front := responses[..|responses| - 1];
      CountAtMostOne(front, id);
      if exists k | 0 <= k < |front| :: front[k].id == id {
        var k :| 0 <= k < |front| && front[k].id == id;
        assert responses[k] == front[k];
      } else if responses[|responses| - 1].id != id {
        forall k | 0 <= k < |responses| ensures responses[k].id != id {
          if k < |front| { assert front[k] == responses[k]; }
        }
      }
    }
  }

  /** What happens to settled handlers: nothing more. */
  lemma StepAfterSettled(s: State, step: Step, id: EnvelopeId)
    requires id in s.settled
    ensures id in Next(s, step).settled && Count(Next(s, step).responses, id) == Count(s.responses, id)
  {
    hide Answer, CommandWith, ForwardStep, Running;
    if step.Forward? { ForwardKeepsResponses(s, step.phone, step.id); }
    if step.Settle? { SettleOther(s, step.id, step.outcome, id); }
  }

  lemma ForwardKeepsResponses(s: State, p: nat, id: EnvelopeId)
    ensures ForwardStep(s, p, id).settled == s.settled && ForwardStep(s, p, id).responses == s.responses
  {
  }

  lemma SettleOther(s: State, id: EnvelopeId, outcome: Outcome, other: EnvelopeId)
    requires other in s.settled
    ensures Count(SettleStep(s, id, outcome).responses, other) == Count(s.responses, other)
  {
    hide Answer, CommandWith;
    var t := SettleStep(s, id, outcome);
    if t.responses != s.responses { assert t.responses[..|s.responses|] == s.responses; }
  }

  lemma {:induction false} RunAfterSettled(s: State, steps: seq<Step>, id: EnvelopeId)
    requires id in s.settled
    ensures Count(Run(s, steps).responses, id) == Count(s.responses, id)
    decreases |steps|
  {
    hide Next;
    if steps != [] {
      StepAfterSettled(s, steps[0], id);
      RunAfterSettled(Next(s, steps[0]), steps[1..], id);
    }
  }

  /** At most one response frame per command, in any run. */
  lemma AtMostOneResponse(steps: seq<Step>, id: EnvelopeId)
    requires FreshIds(START, steps)
    ensures Count(Run(START, steps).responses, id) <= 1
  {
    hide Run, Next, Conserved, InOrder;
    StartInv();
    RunKeepsInv(START, steps);
    CountAtMostOne(Run(START, steps).responses, id);
  }

  /** Whenever a handler settles, whatever it came to and whatever follows: its command has exactly one response
      frame if the socket was open at that moment, and none if it was not. */
  lemma ResponseExactlyIfOpen(before: seq<Step>, id: EnvelopeId, outcome: Outcome, after: seq<Step>)
    requires FreshIds(START, before) && Running(Run(START, before), id)
    ensures var s := Run(START, before);
      var end := Run(Next(s, Settle(id, outcome)), after);
      && Count(end.responses, id) == (if s.open then 1 else 0)
      && (s.open ==> Frame(id, Answer(CommandWith(s.handled, id), outcome)) in Next(s, Settle(id, outcome)).responses)
  {
    hide Run, Answer, CommandWith, Conserved, InOrder;
    StartInv();
    RunKeepsInv(START, before);
    var s := Run(START, before);
    var t := Next(s, Settle(id, outcome));
    CountAtMostOne(s.responses, id);
    SettleKeepsInv(s, id, outcome);
    CountAtMostOne(t.responses, id);
    if s.open { assert t.responses[|s.responses|].id == id; }
    RunAfterSettled(t, after, id);
  }

  /** A closed client goes on handling commands until its socket has closed, but it sends nothing and does not come
      back. */
  predicate ShutOff(s: State) { s.closed && !s.open }

  lemma StepStaysShut(s: State, step: Step)
    requires ShutOff(s)
    ensures ShutOff(Next(s, step)) && Next(s, step).responses == s.responses
  {
    hide Answer, CommandWith, ForwardStep, Running;
    if step.Forward? { ForwardKeepsLink(s, step.phone, step.id); }
  }

  lemma ForwardKeepsLink(s: State, p: nat, id: EnvelopeId)
    ensures var t := ForwardStep(s, p, id); t.closed == s.closed && t.open == s.open && t.responses == s.responses
  {
  }

  lemma {:induction false} StaysShut(s: State, steps: seq<Step>)
    requires ShutOff(s)
    ensures Run(s, steps).responses == s.responses
    decreases |steps|
  {
    hide Next, ShutOff;
    if steps != [] {
      StepStaysShut(s, steps[0]);
      StaysShut(Next(s, steps[0]), steps[1..]);
    }
  }

  lemma UnsettledIsUnanswered(s: State, id: EnvelopeId)
    requires Inv(s) && id !in s.settled
    ensures Count(s.responses, id) == 0
  {
    hide Conserved, InOrder, From;
    CountAtMostOne(s.responses, id);
  }

  /** A command that has not settled when the extension closes its client, received before or after that, never gets a
      response; so neither does one whose own handler closes the client, as the handler of a session change does. */
  lemma ClosingSilences(before: seq<Step>, after: seq<Step>, id: EnvelopeId)
    requires FreshIds(START, before) && id !in Run(START, before).settled
    ensures Count(Run(Next(Run(START, before), ClientCloses), after).responses, id) == 0
  {
    hide Run, Inv;
    StartInv();
    RunKeepsInv(START, before);
    var s := Run(START, before);
    UnsettledIsUnanswered(s, id);
    StaysShut(Next(s, ClientCloses), after);
  }

  /** A link over which one phone has sent one command and the extension has it. */
  function OneHandled(e: Envelope): State {
    State(map[e.phone := [Request(e.command)]], map[e.phone := 1], [e], [], [], [e], {}, [], true, true, true, false)
  }

  lemma OneArrives(e: Envelope)
    requires e.index == 0
    ensures Run(START, [Connect(e.phone), PhoneSends(e.phone, Request(e.command)), Forward(e.phone, e.id), Write, Deliver])
         == OneHandled(e)
  {
    hide Answer, CommandWith, Running;
    var p, m := e.phone, Request(e.command);
    var s1 := Next(START, Connect(p));
    var s2 := Next(s1, PhoneSends(p, m));
    assert s2.sent[p] == [m] && s2.taken[p] == 0;
    var s3 := Next(s2, Forward(p, e.id));
    assert s3.outbox == [e] == s3.accepted;
    var s4 := Next(s3, Write);
    assert s4.wire == [e] && s4.outbox == [];
    var s5 := Next(s4, Deliver);
    assert s5 == OneHandled(e);
    hide Next;
    var s := [Connect(p), PhoneSends(p, m), Forward(p, e.id), Write, Deliver];
    RunOne(START, s);
    RunOne(s1, s[1..]);
    RunOne(s2, s[1..][1..]);
    RunOne(s3, s[1..][1..][1..]);
    RunOne(s4, s[1..][1..][1..][1..]);
    assert s[1..][1..][1..][1..][1..] == [];
  }

  lemma RunOne(s: State, steps: seq<Step>)
    ensures steps != [] ==> Run(s, steps) == Run(Next(s, steps[0]), steps[1..])
    ensures steps == [] ==> Run(s, steps) == s
  {
    hide Next;
  }

  /** The way of one command from any phone: it is sent, forwarded, written and delivered, and its handler's answer,
      whatever it is, comes back under its id. */
  lemma CommandIsAnswered(p: nat, c: Command, id: EnvelopeId, outcome: Outcome)
    ensures var steps := [Connect(p), PhoneSends(p, Request(c)), Forward(p, id), Write, Deliver];
      Next(Run(START, steps), Settle(id, outcome)).responses == [Frame(id, Answer(c, outcome))]
  {
    hide Run, Answer;
    var e := Envelope(id, p, 0, c);
    OneArrives(e);
    assert OneHandled(e).handled[0].id == id;
    assert [] + [Frame(id, Answer(c, outcome))] == [Frame(id, Answer(c, outcome))];
  }
}

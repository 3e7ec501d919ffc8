/** The passive status watcher of a session (`watch_status`): streaming flag and preview, derived from the events
    that pass by. */
module StatusWatcher {
  import opened Text
  import opened Session
  import opened Registry

  datatype Json = Scalar | Str(text: string) | Arr(items: seq<Json>) | Obj(fields: map<string, Json>)

  function Get(v: Json, key: string): Option<Json> {
    if v.Obj? && key in v.fields then Some(v.fields[key]) else None
  }

  function GetStr(v: Json, key: string): Option<string> {
    if Get(v, key).Some? && Get(v, key).value.Str? then Some(Get(v, key).value.text) else None
  }

  /** The object has this string under this key. */
  predicate Says(v: Json, key: string, value: string) { v.Obj? && key in v.fields && v.fields[key] == Str(value) }

  datatype Kind = AgentStart | AgentSettled | MessageEnd | Irrelevant

  function KindOf(event: Json): Kind {
    match GetStr(event, "type")
    case None => Irrelevant
    case Some(t) =>
      if t == "agent_start" then AgentStart
      else if t == "agent_settled" then AgentSettled
      else if t == "message_end" then MessageEnd
      else Irrelevant
  }

  // --- The preview of a message --------------------------------------------------------------------

  /** The Unicode property White_Space, which is what a Rust `trim` removes. */
  predicate IsWhite(c: char) {
    || '\t' <= c <= '\r' || c == ' ' || c == '\U{0085}' || c == '\U{00A0}' || c == '\U{1680}'
    || '\U{2000}' <= c <= '\U{200A}' || c == '\U{2028}' || c == '\U{2029}'
    || c == '\U{202F}' || c == '\U{205F}' || c == '\U{3000}'
  }

  predicate AllWhite(s: string) { forall i | 0 <= i < |s| :: IsWhite(s[i]) }

  function TrimWhiteEnd(s: string): string {
    if s == [] || !IsWhite(s[|s| - 1]) then s else TrimWhiteEnd(s[..|s| - 1])
  }

  function TrimWhite(s: string): string {
    if s != [] && IsWhite(s[0]) then TrimWhite(s[1..]) else TrimWhiteEnd(s)
  }

  const PREVIEW_CHARS := 120

  function TruncateChars(s: string, max: nat): string {
    if |s| <= max then s else s[..max] + ['\U{2026}']
  }

  /** The texts of the blocks that are text blocks. */
  function BlockTexts(blocks: seq<Json>): seq<string> {
    if blocks == [] then []
    else
      var front, last := BlockTexts(blocks[..|blocks| - 1]), blocks[|blocks| - 1];
      if Says(last, "type", "text") && "text" in last.fields && last.fields["text"].Str?
      then front + [last.fields["text"].text] else front
  }

  function DropEmpty(texts: seq<string>): seq<string> {
    if texts != [] && texts[0] == "" then DropEmpty(texts[1..]) else texts
  }

  /** What a message's content says: a string itself; of an array, its text blocks from the first non-empty one
      on, with a space between any two. */
  function TextOfContent(content: Json): Option<string> {
    match content
    case Str(s) => Some(s)
    case Arr(blocks) =>
      var texts := DropEmpty(BlockTexts(blocks));
      if texts == [] then None else Some(Join(texts, " "))
    case _ => None
  }

  /** The loop of `extract_text_from_content`. */
  method ExtractTextFromContent(content: Json) returns (r: Option<string>)
    ensures r == TextOfContent(content)
  {
    if content.Str? { return Some(content.text); }
    if !content.Arr? { return None; }
    var blocks := content.items;
    var out := "";
    for i := 0 to |blocks|
      invariant out == Join(DropEmpty(BlockTexts(blocks[..i])), " ")
      invariant out == "" <==> DropEmpty(BlockTexts(blocks[..i])) == []
    {
      assert blocks[..i + 1][..i] == blocks[..i];
      if GetStr(blocks[i], "type") == Some("text") {
        var t := GetStr(blocks[i], "text");
        if t.Some? {
          AppendText(BlockTexts(blocks[..i]), t.value);
          if out != "" { out := out + " "; }
          out := out + t.value;
        }
      }
    }
    assert blocks[..|blocks|] == blocks;
    return if out == "" then None else Some(out);
  }

  lemma {:induction false} JoinSnoc(texts: seq<string>, t: string)
    requires texts != []
    ensures Join(texts + [t], " ") == Join(texts, " ") + " " + t
  {
    if |texts| > 1 {
      JoinSnoc(texts[1..], t);
      assert (texts + [t])[1..] == texts[1..] + [t];
    }
  }

  lemma {:induction false} AppendText(texts: seq<string>, t: string)
    ensures DropEmpty(texts + [t])
         == if DropEmpty(texts) == [] then (if t == "" then [] else [t]) else DropEmpty(texts) + [t]
    ensures var more := DropEmpty(texts + [t]);
      && (DropEmpty(texts) != [] ==> Join(more, " ") == Join(DropEmpty(texts), " ") + " " + t)
      && (DropEmpty(texts) == [] ==> Join(more, " ") == t)
    decreases |texts|
  {
    if texts != [] && texts[0] == "" {
      assert (texts + [t])[1..] == texts[1..] + [t];
      AppendText(texts[1..], t);
    } else if texts != [] {
      JoinSnoc(texts, t);
    } else {
      assert [t][1..] == [];
    }
  }

  /** The text of a user's or assistant's message. */
  function MessageText(event: Json): Option<string> {
    var message := Get(event, "message");
    if message.None? then None
    else
      var role := GetStr(message.value, "role");
      if role != Some("user") && role != Some("assistant") then None
      else
        var content := Get(message.value, "content");
        if content.None? then None else TextOfContent(content.value)
  }

  function ExtractPreview(event: Json): Option<string> {
    var text := MessageText(event);
    if text.None? || TrimWhite(text.value) == "" then None
    else Some(TruncateChars(TrimWhite(text.value), PREVIEW_CHARS))
  }

  // --- The preview is the trimmed text, cut after 120 characters -----------------------------------

  lemma {:induction false} TrimWhiteEndCuts(s: string) returns (b: nat)
    ensures b <= |s| && TrimWhiteEnd(s) == s[..b] && AllWhite(s[b..])
    ensures b > 0 ==> !IsWhite(s[b - 1])
    decreases |s|
  {
    hide IsWhite;
    b := |s|;
    if s == [] || !IsWhite(s[|s| - 1]) {
      assert s[..b] == s;
    } else {
      b := TrimWhiteEndCuts(s[..|s| - 1]);
      assert s[..|s| - 1][..b] == s[..b];
      forall i | 0 <= i < |s[b..]| ensures IsWhite(s[b..][i]) {
        if i < |s| - 1 - b { assert s[..|s| - 1][b..][i] == s[b..][i]; }
      }
    }
  }

  lemma {:induction false} TrimWhiteCuts(s: string) returns (a: nat, b: nat)
    ensures a <= b <= |s| && TrimWhite(s) == s[a..b] && AllWhite(s[..a]) && AllWhite(s[b..])
    ensures a < b ==> !IsWhite(s[a]) && !IsWhite(s[b - 1])
    decreases |s|
  {
    hide IsWhite;
    if s != [] && IsWhite(s[0]) {
      a, b := TrimWhiteCuts(s[1..]);
      assert s[1..][a..b] == s[a + 1..b + 1] && s[1..][b..] == s[b + 1..];
      forall i | 0 <= i < a + 1 ensures IsWhite(s[i]) { if i > 0 { assert s[1..][..a][i - 1] == s[i]; } }
      a, b := a + 1, b + 1;
    } else {
      a := 0;
      b := TrimWhiteEndCuts(s);
      assert s[0..b] == s[..b] && s[..0] == [];
    }
  }

  /** `p` is `t` without the white space around it, cut after 120 characters. */
  ghost predicate IsPreviewOf(t: string, p: string) {
    exists a: nat, b: nat :: Core(t, a, b)
                          && p == if b - a <= 120 then t[a..b] else t[a..a + 120] + ['\U{2026}']
  }

  /** Where the text's first and last non-white characters are. */
  ghost predicate Core(t: string, a: nat, b: nat) {
    a < b <= |t| && !IsWhite(t[a]) && !IsWhite(t[b - 1]) && AllWhite(t[..a]) && AllWhite(t[b..])
  }

  lemma CorePreviews(t: string, a: nat, b: nat)
    requires a < b <= |t| && Core(t, a, b)
    ensures IsPreviewOf(t, TruncateChars(t[a..b], 120)) && t[a..b] != ""
  {
    hide Core;
    var core := t[a..b];
    if b - a > 120 { assert core[..120] == t[a..a + 120]; }
  }

  lemma WhiteThroughout(t: string, a: nat)
    requires a <= |t| && AllWhite(t[..a]) && AllWhite(t[a..])
    ensures AllWhite(t)
  {
    hide IsWhite;
    forall i | 0 <= i < |t| ensures IsWhite(t[i]) {
      if i < a { assert t[..a][i] == t[i]; } else { assert t[a..][i - a] == t[i]; }
    }
  }

  lemma PreviewOfText(event: Json, t: string)
    requires MessageText(event) == Some(t)
    ensures match ExtractPreview(event) case None => AllWhite(t) case Some(p) => IsPreviewOf(t, p)
  {
    hide IsWhite, MessageText, IsPreviewOf, TruncateChars, TrimWhite, AllWhite;
    var a, b := TrimWhiteCuts(t);
    if a < b {
      assert Core(t, a, b);
      CorePreviews(t, a, b);
    } else {
      WhiteThroughout(t, a);
    }
  }

  /** The content of a message that has ended, of the user or the assistant. */
  ghost predicate HasContent(event: Json, content: Json) {
    && Says(event, "type", "message_end") && "message" in event.fields
    && var message := event.fields["message"];
       && (Says(message, "role", "user") || Says(message, "role", "assistant"))
       && "content" in message.fields && message.fields["content"] == content
  }

  /** The preview of an event: of the text of its content, if that is not all white space. */
  ghost predicate IsPreview(event: Json, preview: Option<string>) {
    match preview
    case None => forall content: Json, t: string :: HasContent(event, content) && TextOfContent(content) == Some(t) ==> AllWhite(t)
    case Some(p) =>
      exists content: Json, t: string :: HasContent(event, content) && TextOfContent(content) == Some(t) && IsPreviewOf(t, p)
  }

  lemma KindMeans(event: Json)
    ensures KindOf(event).AgentStart? <==> Says(event, "type", "agent_start")
    ensures KindOf(event).AgentSettled? <==> Says(event, "type", "agent_settled")
    ensures KindOf(event).MessageEnd? <==> Says(event, "type", "message_end")
  {
  }

  lemma MessageMeans(event: Json, content: Json)
    requires Says(event, "type", "message_end")
    ensures HasContent(event, content) ==> MessageText(event) == TextOfContent(content)
    ensures MessageText(event).Some? ==> exists c: Json :: HasContent(event, c) && MessageText(event) == TextOfContent(c)
  {
    hide TextOfContent;
    if MessageText(event).Some? {
      var c := event.fields["message"].fields["content"];
      assert HasContent(event, c);
    }
  }

  lemma PreviewMeaning(event: Json)
    ensures IsPreview(event, PreviewOf(event))
  {
    hide KindOf, MessageText, TextOfContent, IsPreviewOf, AllWhite, ExtractPreview, HasContent;
    KindMeans(event);
    if Says(event, "type", "message_end") {
      if PreviewOf(event).Some? { HasText(event); }
      if MessageText(event).Some? {
        PreviewOfText(event, MessageText(event).value);
        MessageMeans(event, Scalar);
      }
      forall content: Json, t: string | HasContent(event, content) && TextOfContent(content) == Some(t)
        ensures MessageText(event) == Some(t)
      {
        MessageMeans(event, content);
      }
    } else {
      NoContent(event);
    }
  }

  lemma HasText(event: Json)
    requires ExtractPreview(event).Some?
    ensures MessageText(event).Some?
  {
    hide MessageText;
  }

  lemma NoContent(event: Json)
    requires !Says(event, "type", "message_end")
    ensures forall content: Json :: !HasContent(event, content)
  {
  }

  // --- One event -----------------------------------------------------------------------------------

  datatype Timed = Timed(event: Json, now: int)

  function PreviewOf(event: Json): Option<string> {
    if KindOf(event).MessageEnd? then ExtractPreview(event) else None
  }

  function Derive(s: Status, e: Timed): Status {
    match KindOf(e.event)
    case Irrelevant => s
    case AgentStart => s.(lastActivityAtMs := e.now, isStreaming := true)
    case AgentSettled => s.(lastActivityAtMs := e.now, isStreaming := false)
    case MessageEnd =>
      var preview := ExtractPreview(e.event);
      s.(lastActivityAtMs := e.now, lastPreview := if preview.Some? then preview else s.lastPreview)
  }

  /** What is announced of a status. */
  datatype View = View(isStreaming: bool, lastPreview: Option<string>)

  function ViewOf(s: Status): View { View(s.isStreaming, s.lastPreview) }

  function Fold(s: Status, events: seq<Timed>): Status {
    if events == [] then s else Derive(Fold(s, events[..|events| - 1]), events[|events| - 1])
  }

  /** The views of the announced updates, in order. */
  function Emitted(s: Status, events: seq<Timed>): seq<View> {
    if events == [] then []
    else
      var before := Fold(s, events[..|events| - 1]);
      var after := Derive(before, events[|events| - 1]);
      Emitted(s, events[..|events| - 1]) + if ViewOf(after) != ViewOf(before) then [ViewOf(after)] else []
  }

  // --- What the status says ------------------------------------------------------------------------

  /** The latest start or settling of the agent is a start. */
  ghost predicate LatestIsStart(events: seq<Timed>) {
    exists i | 0 <= i < |events| ::
      && Says(events[i].event, "type", "agent_start")
      && forall j | i < j < |events| :: !Says(events[j].event, "type", "agent_settled")
  }

  /** The latest message that has a preview. */
  ghost predicate LatestPreviewIs(events: seq<Timed>, preview: Option<string>) {
    match preview
    case None => forall i | 0 <= i < |events| :: IsPreview(events[i].event, None)
    case Some(_) =>
      exists i | 0 <= i < |events| ::
        && IsPreview(events[i].event, preview)
        && forall j | i < j < |events| :: IsPreview(events[j].event, None)
  }

  lemma {:induction false} StreamingMeaning(events: seq<Timed>)
    ensures Fold(DEFAULT_STATUS, events).isStreaming <==> LatestIsStart(events)
  {
    hide KindOf, ExtractPreview, Says;
    if events != [] {
      var front, last := events[..|events| - 1], events[|events| - 1];
      StreamingMeaning(front);
      KindMeans(last.event);
      if KindOf(last.event) == AgentStart { assert events[|events| - 1] == last; }
      if LatestIsStart(front) && KindOf(last.event) != AgentSettled {
        var i :| 0 <= i < |front| && Says(front[i].event, "type", "agent_start")
          && forall j | i < j < |front| :: !Says(front[j].event, "type", "agent_settled");
        assert events[i] == front[i];
      }
      if LatestIsStart(events) && KindOf(last.event) != AgentStart {
        var i :| 0 <= i < |events| && Says(events[i].event, "type", "agent_start")
          && forall j | i < j < |events| :: !Says(events[j].event, "type", "agent_settled");
        assert front[i] == events[i];
      }
    }
  }

  lemma {:induction false} LatestPreviewMeaning(events: seq<Timed>)
    ensures LatestPreviewIs(events, Fold(DEFAULT_STATUS, events).lastPreview)
  {
    hide KindOf, ExtractPreview, IsPreview;
    if events != [] {
      var front, last := events[..|events| - 1], events[|events| - 1];
      LatestPreviewMeaning(front);
      PreviewMeaning(last.event);
      var before := Fold(DEFAULT_STATUS, front).lastPreview;
      if PreviewOf(last.event).Some? {
        assert events[|events| - 1] == last;
      } else if before.Some? {
        var i :| 0 <= i < |front| && IsPreview(front[i].event, before)
          && forall j | i < j < |front| :: IsPreview(front[j].event, None);
        assert events[i] == front[i];
      }
    }
  }

  /** The events a watcher looks at. */
  predicate IsRelevant(event: Json) {
    Says(event, "type", "agent_start") || Says(event, "type", "agent_settled") || Says(event, "type", "message_end")
  }

  function Relevant(events: seq<Timed>): seq<Timed> {
    if events == [] then []
    else
      var last := events[|events| - 1];
      Relevant(events[..|events| - 1]) + if IsRelevant(last.event) then [last] else []
  }

  /** All other events might as well not have happened. */
  lemma {:induction false} OthersAreIrrelevant(s: Status, events: seq<Timed>)
    ensures Fold(s, Relevant(events)) == Fold(s, events)
    ensures Emitted(s, Relevant(events)) == Emitted(s, events)
  {
    hide KindOf, ExtractPreview, Says;
    if events != [] {
      var front, last := events[..|events| - 1], events[|events| - 1];
      OthersAreIrrelevant(s, front);
      KindMeans(last.event);
      if IsRelevant(last.event) {
        assert Relevant(events)[..|Relevant(events)| - 1] == Relevant(front);
      } else {
        assert Relevant(events) == Relevant(front);
      }
    }
  }

  /** A history without consecutive repeats. */
  function Changes(views: seq<View>): seq<View> {
    if |views| <= 1 then views
    else
      var front := views[..|views| - 1];
      if front[|front| - 1] == views[|views| - 1] then Changes(front) else Changes(front) + [views[|views| - 1]]
  }

  /** The view after each number of events. */
  function History(events: seq<Timed>): seq<View> {
    seq(|events| + 1, i requires 0 <= i <= |events| => ViewOf(Fold(DEFAULT_STATUS, events[..i])))
  }

  /** The updates announced are the history of the view with consecutive repeats removed. */
  lemma {:induction false} UpdatesAreChanges(events: seq<Timed>)
    ensures [ViewOf(DEFAULT_STATUS)] + Emitted(DEFAULT_STATUS, events) == Changes(History(events))
  {
    hide Derive;
    var history := History(events);
    assert events[..|events|] == events;
    if events == [] {
      assert history == [ViewOf(Fold(DEFAULT_STATUS, events[..0]))];
    } else {
      var front := events[..|events| - 1];
      UpdatesAreChanges(front);
      HistoryFront(events);
      assert front[..|front|] == front;
      assert history[|front|] == ViewOf(Fold(DEFAULT_STATUS, front));
    }
  }

  lemma HistoryFront(events: seq<Timed>)
    requires events != []
    ensures History(events)[..|events|] == History(events[..|events| - 1])
  {
    hide Fold;
    var front := events[..|events| - 1];
    forall i | 0 <= i < |events| ensures History(events)[i] == History(front)[i] {
      assert events[..i] == front[..i];
    }
  }

  // --- The watcher's task --------------------------------------------------------------------------

  datatype Input =
    | Event(event: Timed)
    | Lagged
    | Closed
    | ConnectedChanged(connected: bool)
    | ConnectedClosed

  predicate Stops(i: Input) { i.Closed? || i.ConnectedClosed? || (i.ConnectedChanged? && !i.connected) }

  /** The events received until the task stops. */
  function Heard(inputs: seq<Input>): seq<Timed> {
    if inputs == [] || Stops(inputs[0]) then []
    else (if inputs[0].Event? then [inputs[0].event] else []) + Heard(inputs[1..])
  }

  /** What ends the task: the channel of events is closed, the session's watch is gone, or it says disconnected. */
  ghost predicate Ends(i: Input) { i == Closed || i == ConnectedClosed || i == ConnectedChanged(false) }

  /** The task hears the events in front of the first thing that ends it, and no others. */
  lemma {:induction false} HeardIs(inputs: seq<Input>, k: nat)
    requires k <= |inputs| && (forall i | 0 <= i < k :: !Ends(inputs[i])) && (k < |inputs| ==> Ends(inputs[k]))
    ensures Heard(inputs) == EventsIn(inputs[..k])
    decreases k
  {
    if k > 0 {
      FrontTail(inputs, k);
      HeardIs(inputs[1..], k - 1);
    }
  }

  lemma FrontTail(inputs: seq<Input>, k: nat)
    requires 0 < k <= |inputs|
    ensures inputs[..k][0] == inputs[0] && inputs[..k][1..] == inputs[1..][..k - 1]
  {
  }

  function EventsIn(inputs: seq<Input>): seq<Timed> {
    if inputs == [] then []
    else
      match inputs[0]
      case Event(e) => [e] + EventsIn(inputs[1..])
      case _ => EventsIn(inputs[1..])
  }

  /** The white space that Rust trims is what JavaScript trims, but for the byte order mark and the next-line
      character. */
  lemma WhiteIsSpace(c: char)
    ensures IsSpace(c) <==> (IsWhite(c) && c != '\U{0085}') || c == '\U{FEFF}'
  {
  }

  /** One event for the watcher of handle `n`. */
  function WatchStep(h: Hub, n: nat, e: Timed): Hub {
    if n >= |h.handles| then h else StatusStep(h, n, Derive(h.handles[n].status, e))
  }

  function WatchAll(h: Hub, n: nat, events: seq<Timed>): Hub {
    if events == [] then h else WatchStep(WatchAll(h, n, events[..|events| - 1]), n, events[|events| - 1])
  }

  class Watcher {
    const registry: SessionRegistry
    const handle: nat

    constructor (registry: SessionRegistry, handle: nat)
      ensures this.registry == registry && this.handle == handle
    {
      this.registry, this.handle := registry, handle;
    }

    method HandleEvent(e: Timed)
      requires handle < |registry.handles|
      modifies registry
      ensures registry.State() == WatchStep(old(registry.State()), handle, e)
    {
      hide KindOf, ExtractPreview;
      var kind := KindOf(e.event);
      var status := registry.handles[handle].status;
      if kind == Irrelevant {
        assert registry.handles[handle := registry.handles[handle].(status := status)] == registry.handles;
        return;
      }
      var before := status;
      status := status.(lastActivityAtMs := e.now);
      match kind {
        case AgentStart => status := status.(isStreaming := true);
        case AgentSettled => status := status.(isStreaming := false);
        case _ =>
          var preview := ExtractPreview(e.event);
          if preview.Some? { status := status.(lastPreview := preview); }
      }
      var current := Registered(registry.State(), handle);
      registry.handles := registry.handles[handle := registry.handles[handle].(status := status)];
      if status.isStreaming != before.isStreaming || status.lastPreview != before.lastPreview {
        registry.controlLog := registry.controlLog
                             + [Registry.Entry(SessionUpdate(SummaryOf(registry.handles[handle])), current)];
      }
    }

    /** `watch_status`, with nobody else at work meanwhile. */
    method WatchStatus(inputs: seq<Input>)
      requires handle < |registry.handles|
      modifies registry
      ensures registry.State() == WatchAll(old(registry.State()), handle, Heard(inputs))
    {
      hide WatchStep;
      ghost var heard: seq<Timed> := [];
      var rest := inputs;
      while rest != [] && !Stops(rest[0])
        invariant handle < |registry.handles|
        invariant registry.State() == WatchAll(old(registry.State()), handle, heard)
        invariant heard + Heard(rest) == Heard(inputs)
        decreases |rest|
      {
        if rest[0].Event? {
          WatchKeepsHandles(registry.State(), handle, rest[0].event);
          HandleEvent(rest[0].event);
          assert (heard + [rest[0].event])[..|heard|] == heard;
          heard := heard + [rest[0].event];
        }
        rest := rest[1..];
      }
      assert heard + [] == heard;
    }
  }

  lemma WatchKeepsHandles(h: Hub, n: nat, e: Timed)
    ensures |WatchStep(h, n, e).handles| == |h.handles|
  {
  }

  /** The announced views of a session in a part of the control log. */
  function Announced(log: seq<Registry.Entry>): seq<View> {
    if log == [] then []
    else
      var last := log[|log| - 1].frame;
      Announced(log[..|log| - 1]) + if last.SessionUpdate? then [ViewOf(last.session.status)] else []
  }

  lemma AnnouncedSnoc(log: seq<Registry.Entry>, e: Registry.Entry)
    ensures Announced(log + [e])
         == Announced(log) + if e.frame.SessionUpdate? then [ViewOf(e.frame.session.status)] else []
  {
    assert (log + [e])[..|log|] == log;
  }

  lemma StatusStepAnnounces(h: Hub, n: nat, status: Status)
    requires n < |h.handles|
    ensures var g := StatusStep(h, n, status);
      && |g.handles| == |h.handles| && g.handles[n].status == status
      && if ViewOf(status) == ViewOf(h.handles[n].status) then g.log == h.log
         else exists e :: g.log == h.log + [e] && e.frame.SessionUpdate? && ViewOf(e.frame.session.status) == ViewOf(status)
  {
    hide Registered;
    var g := StatusStep(h, n, status);
    if ViewOf(status) != ViewOf(h.handles[n].status) {
      var e := g.log[|h.log|];
      assert g.log == h.log + [e];
    }
  }

  /** What a watcher leaves behind is the fold of what it heard, and what it announced are its changes. */
  lemma {:induction false} WatchIsFold(h: Hub, n: nat, events: seq<Timed>)
    requires n < |h.handles|
    ensures var g := WatchAll(h, n, events);
      && |g.handles| == |h.handles| && g.handles[n].status == Fold(h.handles[n].status, events)
      && h.log <= g.log && Announced(g.log[|h.log|..]) == Emitted(h.handles[n].status, events)
  {
    hide Derive, StatusStep, Announced;
    if events == [] {
      NothingAnnounced();
      assert h.log[|h.log|..] == [];
    } else {
      var front, last := events[..|events| - 1], events[|events| - 1];
      WatchIsFold(h, n, front);
      var m, g := WatchAll(h, n, front), WatchAll(h, n, events);
      var before := m.handles[n].status;
      var after := Derive(before, last);
      StatusStepAnnounces(m, n, after);
      if ViewOf(after) != ViewOf(before) {
        var e :| g.log == m.log + [e] && e.frame.SessionUpdate? && ViewOf(e.frame.session.status) == ViewOf(after);
        assert g.log[|h.log|..] == m.log[|h.log|..] + [e];
        AnnouncedSnoc(m.log[|h.log|..], e);
      }
    }
  }

  lemma NothingAnnounced()
    ensures Announced([]) == []
  {
  }
}

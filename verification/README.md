# Pi Piper: a verified model

Pi Piper lets a phone drive interactive `pi` sessions. An extension inside `pi` dials a Hub; the Hub keeps a
registry of sessions, pushes every change to the phones, and relays commands and events; the phone renders what the
session says. This project models the three parts of that system that hold real state or text structure and proves
what they are for.

- **The Hub.** `Session`, `Registry`: handles, the registry's map, and the control channel as an append-only log.
  `Replica`: the phone's copy of the session list, fed by subscribe, snapshot and replay. `AgentServer`: the frame
  loop of each extension's connection and the ownership of sessions. `Lifecycle`: registering and unregistering cut
  into their separate steps, in any interleaving. `StatusWatcher`, `PhoneStatus`: streaming flag and preview
  derived from passing events, and what the phone shows of them. `Relay`: commands from the phones to the extension
  and the responses back.
- **Remote control in the extension.** `HubClient`: the reconnecting connection over sockets and timers. `Handoff`:
  the on-disk map from session file to process. `RemoteControl`: `/rc`, `/rc stop` and the session hooks of one
  runtime. `RemoteSystem`: any number of processes whose runtimes are destroyed and rebuilt by session changes.
- **The Markdown renderer and the attachment printer.** `Text`, `Address`, `Escaping`, `Html`: strings, link
  addresses, escaping, and HTML as pieces. `Regex`: regular expressions as JavaScript matches them, with groups,
  lazy and greedy repetition, backreferences and global replacement. `Schemes`: addresses against their expressions.
  `Inline`: the multi-pass inline renderer; `Replacements`: it is the source's chain of `replace` calls.
  `InlinePieces`, `InlineOutput`, `Placeholders`, `InlineMeaning`, `Remains`: its output grammar, the fate of its
  placeholders, and what each construct shows. `Highlight`, `Tokens`: the tokenizer, its expression and its classes.
  `Blocks`, `Recognisers`, `Markdown`: the line-by-line block machine, its line recognisers against their
  expressions, and the renderer. `Documents`: every document's HTML from the expressions and the tags alone.
  `Anchors`: where links lead. `Attachments`, `Messages`: printing a file into a message that the block parser must
  read back, and how messages, file languages and fence languages are made.

The classes (`SessionRegistry`, `Sessions`, `ControlConnection`, `AgentConnection`, `EventForwarder`, `Watcher`,
`RemoteAgent`, `HubClient`, `HandoffFile`, `Extension`, `Renderer`) and the loops (`Highlight`, `Render`,
`ExtractTextFromContent`, `ForwardInbound`, `WatchStatus`, `Handle`) are proved equal to step functions; the lemmas
are about every run of those functions.

Modelling choices that hold throughout:

- A broadcast channel is a log and a cursor; no receiver lags. A watch `send` takes effect only if a receiver
  exists.
- In `Replica`, `AgentServer` and `StatusWatcher` changing the registry and announcing the change is one step.
  `Lifecycle` takes the registry's steps apart and proves that the one-step forms are their uninterrupted runs.
- Time, envelope ids, whether the token could be read, which processes are alive, and the outcome of a command's
  operation are parameters.
- A character is a Unicode scalar value. The renderer's regular expressions are recognisers, each proved to find
  what a backtracking matcher finds with the source's expression, captured groups included.

Where the code does not meet its intent everywhere, the code is kept as it is:

- A text file survives the trip through a message exactly if it does not end in a bare carriage return and, when it
  contains three backticks, has no line that closes a tilde fence (`Attachments.Survives`).
- A code span in the label of a safe link is shown as "undefined" (`Placeholders.CodeSpanInLinkIsLost`); one in its
  address, or one between doubled backticks in its label, leaves a placeholder in the output
  (`Remains.CodeSpanInAddressRemains`, `Remains.DoubledTicksRemain`); `Remains.NothingRemainsIff` says exactly
  when.
- The sentence that stands in for a message with files only is never sent unless somebody types it, because a file
  always prints something (`Messages.FileSentenceIsTyped`).
- Spaced dashes or stars are a list and not a rule, because bullets are looked for first
  (`Documents.SpacedDashesAreAnItem`).
- A local session change is followed exactly if the session left has a file
  (`RemoteSystem.EveryChangeIsFollowedOnce`, `RemoteSystem.FilelessSessionIsNotFollowed`); with two live processes
  on one file, RC starts in the wrong one (`RemoteSystem.SharedFileMisleads`, `RemoteSystem.SharedFileRun`).
- A remote session change always turns RC on: one that was asked for before `/rc stop` and comes in while the client
  is being closed brings RC back (`RemoteSystem.StoppedRcComesBack`), and if RC is started by hand while one is under
  way, `start` runs twice (`RemoteSystem.StartedTwiceRun`). One that is cancelled or fails leaves RC off
  (`RemoteSystem.AbandonedChangeStops`).
- A command whose handler closes the client, as that of every remote session change does, gets no response
  (`Relay.ClosingSilences`).
- When two connections register one id, the older one's close removes the newer one's entry
  (`AgentServer.NewerEntryRemoved`, `AgentServer.DuplicateRegistrationRun`); entries of others survive a close
  exactly under the condition of `AgentServer.CloseKeepsOthers`. What the older one publishes before that lands in
  the newer one's handle (`AgentServer.CrossTalkRun`); `AgentServer.CrossTalkExactly` says exactly which runs mix
  connections.
- A handle that has no receiver when it is marked stays "connected" for good (`Lifecycle.MarkReaches`), and a
  watcher that subscribes only afterwards is never told (`Lifecycle.LateSubscriberIsNotTold`,
  `Lifecycle.LateWatcherRun`).
- A message from the watcher of a replaced handle can make the phone show a registered session as disconnected
  (`Replica.StaleMessageMisleads`); `Replica.ConvergenceIff` says exactly when the phone is right.

Check everything with `dafny verify dfyconfig.toml`.

## Model

| member | source | states |
|---|---|---|
| `Escaping.EscapeIsPointwise` | assets/markdown.js:26-33 | The five whole-string replacements, done one after the other, equal one replacement per character: no replacement touches what an earlier one produced. |
| `Escaping.EscapeLeavesNoRaw` | assets/markdown.js:26-33 | For every string, the escaped text has no raw angle bracket or quote. |
| `Escaping.DecodeEscape` | assets/markdown.js:26-33 | An independent entity decoder inverts escaping on every string. |
| `Escaping.EscapeInjective` | assets/markdown.js:26-33 | Different texts never escape to the same output. |
| `Escaping.AttributeIsPointwise` | assets/markdown.js:35-37 | In an attribute the same, with the backtick replaced as well. |
| `Address.SafeUrlIsAllowed` | assets/markdown.js:39-46 | For every value: the trimmed address is accepted exactly if it begins with an allowed scheme or a relative form; the list of refused schemes refuses nothing the other would let through. |
| `Schemes.SafeUrlMatches` | assets/markdown.js:39-46 | For every value: the outcome is that of the source's three expressions, as a backtracking matcher carries them out, in the source's order. |
| `Text.TrimCuts` | assets/markdown.js:40-41 | Trimming cuts off exactly the white space at both ends. |
| `Replacements.InlineReplaces` | assets/markdown.js:58-85 | For every source and depth the inline renderer is the source's chain of global replacements with the source's expressions and replacers, each as a backtracking matcher carries it out. |
| `Replacements.CodeReplaces` | assets/markdown.js:65-65 | Protecting code spans is that replacement, from any position and with any tokens already set aside. |
| `Replacements.LinksReplace` | assets/markdown.js:66-74 | The same for links: the shortest address that the rest can follow, and the optional title. |
| `Replacements.DoubledReplaces` | assets/markdown.js:77-79 | The same for a pass over a doubled mark. |
| `Replacements.SingleReplaces` | assets/markdown.js:80-81 | The same for a pass over a single mark, which the expression lets open only at the very start or behind a character that is no mark and belongs to no earlier match. |
| `Replacements.RestoreReplaces` | assets/markdown.js:54-56 | The same for restoring the tokens. |
| `Replacements.ReturnsReplace` | assets/markdown.js:143-143 | Normalising line endings is the replacement with its expression. |
| `InlineMeaning.PlainRenders` | assets/markdown.js:58-85 | Text without Markdown shows as its escaped self, at every depth. |
| `InlineMeaning.DoubledWraps` | assets/markdown.js:77-79 | A doubled pass wraps what stands between the first two doubled marks and goes on behind them. |
| `InlineMeaning.SingleWraps` | assets/markdown.js:80-81 | A single pass does the same between the first two marks. |
| `InlineMeaning.EmphasisRenders` | assets/markdown.js:76-81 | Each of the five kinds of emphasis, between any plain texts, shows its text in its own element, through all the passes. |
| `InlineMeaning.CodeRenders` | assets/markdown.js:65-85 | A code span shows its code escaped and otherwise untouched, whatever it contains. |
| `InlineMeaning.LinkRenders` | assets/markdown.js:66-74 | A link with a safe address, with or without a title, shows its label, rendered on its own, as an anchor to the escaped address; a plain label shows as it is; with another address the link shows as it was written, without its title. |
| `InlineMeaning.BreaksRender` | assets/markdown.js:82-83 | Two spaces and a line break show as a break, any other line break as a space. |
| `InlineMeaning.TagsMayCross` | assets/markdown.js:77-79 | A strong text that ends inside a deleted one gives crossing tags. |
| `InlinePieces.EmphasizeRefines` | assets/markdown.js:76-83 | The emphasis and break passes only wrap or replace plain characters of an escaped draft: every placeholder survives them in order, and each kind of tag they insert is balanced. |
| `InlinePieces.DoubledRefines` | assets/markdown.js:77-79 | The same for one pass over a doubled mark, for any mark and tag. |
| `InlinePieces.SingleRefines` | assets/markdown.js:80-81 | The same for one pass over a single mark, which may not follow the same mark. |
| `InlineOutput.RestoredWellFormed` | assets/markdown.js:54-56 | Restoring well-formed tokens into a draft with balanced tags gives well-formed output, also for placeholders that stand for no token. |
| `InlineOutput.LinkTokenWellFormed` | assets/markdown.js:66-74 | Every link token is well formed, through the recursion into labels and the escaping of the address. |
| `InlineOutput.InlineWellFormed` | assets/markdown.js:58-85 | For every source and depth the inline output is a word of escaped characters and the renderer's tags in which each kind of tag is balanced. |
| `Placeholders.LinksDraft` | assets/markdown.js:66-74 | An account of the link pass over any draft: of the placeholders before it and those it creates, each is either still there, in order, or lost inside a link. |
| `Placeholders.RestoredOnce` | assets/markdown.js:48-85 | With no U+E000 in the source, every placeholder reaches restoration exactly once if and only if no code span lies in the part of a link that is not copied. |
| `Remains.NothingRemainsIff` | assets/markdown.js:48-85 | With no U+E000 in the source, none is in the output if and only if, once code spans are placeholders, no safe link has a placeholder in its address or inside a code span of its label (from the third level on: in its label at all). |
| `Remains.LabelMarked` | assets/markdown.js:69-69 | Rendering any label on its own leaves no U+E000 if and only if no placeholder is inside a code span of the label; all others show as a token of the label or as "undefined". |
| `Remains.NothingRemains` | assets/markdown.js:48-85 | With no U+E000 in the source and no placeholder dropped by a link match, none is in the output. |
| `Remains.CodeSpanInAddressRemains` | assets/markdown.js:65-74 | For any plain label and code, a code span in the address of a safe link leaves U+E000 in the output. |
| `Remains.DoubledTicksRemain` | assets/markdown.js:65-74 | For any code, code between doubled backticks as the label of a safe link leaves U+E000 in the output, with none in the address. |
| `Placeholders.LabelLosesPlaceholder` | assets/markdown.js:69-85 | Rendering a placeholder as a label turns it into "undefined", because the inner call restores against its own empty list. |
| `Placeholders.CodeSpanInLinkIsLost` | assets/markdown.js:65-74 | Whatever the code, a link with a code span as label shows "undefined". |
| `Highlight.SpansValid` | assets/markdown.js:121-132 | The tokenizer's matches are ordered, disjoint, non-empty and inside the code. |
| `Highlight.SpansLeftmost` | assets/markdown.js:121-124 | Each match is the token at its start, and no token starts in a gap. |
| `Highlight.LeftmostIsUnique` | assets/markdown.js:121-124 | Only one list of matches has that property, so it is what a global search finds. |
| `Highlight.Highlight` | assets/markdown.js:115-134 | The gap-and-match loop computes the highlighted code that `Tokens.HighlightIsTagged` describes. |
| `Tokens.TokenMatches` | assets/markdown.js:121-121 | At every position the token is what a backtracking matcher finds with the source's expression: nine alternatives in order, lazy comments, quoted escapes, word boundaries. |
| `Tokens.SpansAreMatches` | assets/markdown.js:121-124 | The highlighted spans are what `matchAll` finds with it. |
| `Tokens.HighlightIsTagged` | assets/markdown.js:106-134 | For every code and language: gaps are escaped, and each token is escaped in a span, written out, whose class follows from the alternative of the expression that matched there: comment for the four comment forms, string for the three quotes, number, and keyword for a name exactly if it is in the language's set of words; in other languages everything is only escaped. |
| `Tokens.ClassIsKind` | assets/markdown.js:106-113 | For any token at any position, the class that the source works out from its text is that of the alternative that matched it. |
| `Tokens.WordsAre` | assets/markdown.js:12-24 | The words between the bars of each language's pattern, as sets. |
| `Tokens.LineCommentShows` | assets/markdown.js:107-131 | Any one-line comment, in any tokenized language, is one comment span. |
| `Tokens.WordShows` | assets/markdown.js:110-131 | Any lower-case word by itself is a keyword span exactly if it is a word of the language, and is only escaped otherwise. |
| `Highlight.SpansPreserveText` | assets/markdown.js:121-133 | For any ordered, disjoint, non-empty matches and any classification, removing the tags leaves exactly the escaped code. |
| `Highlight.HighlightPreservesText` | assets/markdown.js:115-134 | For every code and language: without its tags the output is the escaped code, and decoding that gives the code back. |
| `Highlight.HighlightWellFormed` | assets/markdown.js:115-134 | For every code and language the highlighted code is escaped text with balanced spans. |
| `Recognisers.OpenerMatches` | assets/markdown.js:178-179 | For every line, the recognised opening fence, with its marker, info string and indentation, is what a backtracking matcher finds with the source's expression, after the check of its first group. |
| `Recognisers.CloserMatches` | assets/markdown.js:167-167 | The same for closing fences. |
| `Recognisers.TitleMatches` | assets/markdown.js:193-193 | The same for headings, with level and text: the lazy text, and the white space given back in front of it, are as the matcher leaves them. |
| `Recognisers.BulletMatches` | assets/markdown.js:202-202 | The same for bullets and their text. |
| `Recognisers.NumberMatches` | assets/markdown.js:203-203 | The same for numbered items and their text. |
| `Recognisers.QuoteMatches` | assets/markdown.js:215-215 | The same for quotes and their text. |
| `Recognisers.RuleMatches` | assets/markdown.js:222-222 | The same for rules, with the backreference to the first mark. |
| `Documents.LineKinds` | assets/markdown.js:178-228 | For every line: its kind is that of the first of the source's expressions that matches, in the source's order, with that match's groups as level and text; bullets make unordered and numbers ordered items. |
| `Documents.DocumentShows` | assets/markdown.js:142-235 | For every document: the rendering is, block by block, the HTML with the source's tags written out around what those expressions found; lists go on for items of their kind, paragraphs for plain lines, code up to the line that matches the closing expression, with the opener's indentation taken off. |
| `Documents.OneLineShows` | assets/markdown.js:142-235 | A document of one line shows the block of that line. |
| `Documents.BulletShows` | assets/markdown.js:202-209 | Any bullet and any text on its line are an unordered list of one item with that text. |
| `Documents.NumberShows` | assets/markdown.js:203-209 | Any digits, a dot or a parenthesis and any text are an ordered list of one item. |
| `Documents.HeadingOfLevel` | assets/markdown.js:193-200 | One to three hashes and any text that ends in neither white space nor a hash are a heading of that level with that text. |
| `Documents.HeadingsShow` | assets/markdown.js:193-200 | The same for plain text, with the marks and the tags of the three levels written out. |
| `Documents.QuoteShows` | assets/markdown.js:215-220 | An angle bracket and any text on its line are a quote of that text. |
| `Documents.RuleShows` | assets/markdown.js:222-226 | Three or more dashes, stars or underscores are a rule. |
| `Documents.WordsShow` | assets/markdown.js:142-235 | Plain text by itself, behind a dash, a number and an angle bracket: the four outputs, written out. |
| `Documents.SpacedDashesAreAnItem` | assets/markdown.js:202-226 | Spaced dashes match the rule's expression and show as a list. |
| `Blocks.StepKeepsOneOpen` | assets/markdown.js:151-229 | Each line keeps the machine's invariant: at most one of fence, paragraph and list is open, and the list type is null exactly if there are no items. |
| `Blocks.ReachableOneOpen` | assets/markdown.js:151-229 | The invariant holds in every reachable state. |
| `Blocks.MachineIsReference` | assets/markdown.js:151-234 | From any state of the invariant, running the machine to the end equals finishing what is open and parsing the rest with a reference parser that takes one whole block at a time. |
| `Blocks.ParseIsReference` | assets/markdown.js:142-235 | For every list of lines the state machine parses what the reference parser parses. |
| `Blocks.NoLineIsLost` | assets/markdown.js:165-234 | Every line that is not blank and not a closing fence is in exactly one block, in source order. |
| `Blocks.ParseAfterBlank` | assets/markdown.js:187-191 | After lines that leave no fence open and a blank line, parsing starts afresh. |
| `Markdown.ViewTurn` | assets/markdown.js:165-229 | One iteration of the rendering loop is one step of the block machine, seen through the HTML it has pushed so far. |
| `Markdown.Render` | assets/markdown.js:142-235 | The loop, with its flushes and its end of input, computes the rendering of the parsed blocks. |
| `Markdown.Renderer.Line` | assets/markdown.js:165-229 | One iteration over the renderer's variables. |
| `Markdown.Renderer.Close` | assets/markdown.js:231-233 | What happens after the last line. |
| `Markdown.ParseSeparated` | assets/markdown.js:142-191 | For a text that leaves no fence open, the blocks of two texts joined by a blank line are the blocks of each. |
| `Markdown.RenderSeparated` | assets/markdown.js:142-235 | Rendering is a homomorphism over blank lines after a text that leaves no fence open. |
| `Markdown.OutputWellFormed` | assets/markdown.js:142-235 | For every input the whole output is escaped text and the renderer's fixed tags, every anchor with an allowed address, and each kind of tag balanced and never closed before it is opened. |
| `Anchors.EveryAnchorIsSafe` | assets/markdown.js:3-5 | Wherever the text of an anchor's opening tag stands in the rendering of any input, its `href` is the escaped form of an allowed address. |
| `Attachments.BlockParses` | assets/attachments.js:79-82 | Whatever follows it, a printed file parses to its paragraph and a code block; the block is exactly the file's text, and the rest is then parsed on its own, if and only if the file survives. |
| `Attachments.AttachmentRoundTrip` | assets/attachments.js:79-82 | The round trip of one file, for any name on one line, with its exact condition. |
| `Attachments.FilesRoundTrip` | assets/app.js:951-957 | The same for any number of files joined by blank lines. |
| `Attachments.MessageRoundTrip` | assets/app.js:944-957 | The same for the whole message, with or without files, after typed text that leaves no fence open; the typed text's blocks come first, unchanged. With neither text nor files the message is one paragraph. |
| `Attachments.FileCodeReadsBack` | assets/markdown.js:136-140 | The code element of a file, without its tags and decoded, is the file's text up to line endings. |
| `Attachments.MessageShows` | assets/app.js:944-957 | If every file survives, the rendered message is the rendering of the typed text, then for each file its name and a frame, tags written out, with that code element; with neither, it is the sentence as a paragraph. |
| `Attachments.TildeLineIsLost` | assets/attachments.js:79-82 | A file with three backticks and a line of tildes does not survive. |
| `Attachments.ReturnAtEndIsLost` | assets/attachments.js:79-82 | A file that ends in a bare carriage return does not survive. |
| `Messages.MessageIsJoined` | assets/app.js:944-957 | For every typed text, files and images: the message is what is not empty of the trimmed text and the printed files, joined by blank lines, or, if that is nothing, one of the two sentences, written out. |
| `Messages.FileSentenceIsTyped` | assets/app.js:945-957 | Of the messages that are sent, the second sentence is one only if it was typed: a text file is never without a printed text. |
| `Messages.TypedAlone` | assets/app.js:944-957 | Without files the message is the trimmed text, if there is any, and shows as that. |
| `Messages.FilePrints` | assets/attachments.js:79-82 | A printed file, written out; the fence is of tildes exactly if three backticks occur somewhere in the text. |
| `Messages.ExtensionIsFound` | assets/attachments.js:21-24 | For every file name the extension is the group that a search with the source's expression finds, in lower case. |
| `Messages.OwnLanguage` | assets/attachments.js:13-19 | The extensions that are their own language. |
| `Messages.OtherLanguage` | assets/attachments.js:13-19 | The extensions that stand for another one. |
| `Messages.NoLanguage` | assets/attachments.js:36-38 | Every other extension is plain text. |
| `Messages.FenceLanguage` | assets/markdown.js:87-104 | For every info string: its first word, up to white space or a comma, in lower case; then its alias, written out, or what the source's replacement leaves of it, up to 24 characters. |
| `Messages.LowerEach` | assets/markdown.js:88-88 | Lower case of ASCII text, letter by letter. |
| `Registry.ActKeepsInv` | src/registry.rs:42-123 | Every registry operation and every task's step keeps: each id leads to a handle with that id, no handle is under two ids, registered handles are connected. The control log only grows. |
| `Registry.ExecKeepsInv` | src/registry.rs:42-123 | The same over every run. |
| `Registry.SessionRegistry.RegisterSession` | src/registry.rs:42-71 | The new map, handles and log after registering; a replaced handle is marked disconnected and returned. |
| `Registry.RegisteredAsGiven` | src/registry.rs:42-71 | The new handle has the link and metadata it was registered with, is connected, and has no status, preview or events yet. |
| `Registry.SessionRegistry.UnregisterSession` | src/registry.rs:79-87 | The state after unregistering, and that an unknown id changes nothing. |
| `Registry.SessionRegistry.UpdateSessionMeta` | src/registry.rs:91-111 | Only the fields present in the patch change, and the change is announced even if none is. |
| `Registry.SessionRegistry.PublishPayload` | src/registry.rs:117-123 | A payload reaches the registered remote handle's events and nothing else. |
| `Registry.SessionRegistry.List` | src/registry.rs:141-148 | The list has exactly one element for each registered session, with the metadata, status and connection flag of its handle. |
| `Registry.AnnouncementsDescribe` | src/registry.rs:42-111 | From any reachable state, what an action announces: a registration, a change of metadata and a visible change of status each put one message in the log, with the metadata, status and connection flag of the handle as it then is; a removal names its id; nothing else is announced. |
| `Registry.PatchedFields` | src/registry.rs:91-111 | A patch changes exactly the fields it has, to what it has. |
| `Replica.Sessions.HandleControlFrame` | assets/app.js:268-290 | The phone's entries after each kind of control frame. |
| `Replica.FrameByField` | assets/app.js:268-290 | A disconnect keeps everything of the entry but the flag, every other frame replaces the entry, and no other entry changes. |
| `Replica.ControlConnection.SendSnapshot` | src/server/control.rs:34-46 | The first frame is a listing of the registry at that moment, while the subscription dates from before. |
| `Replica.ControlConnection.Drain` | src/server/control.rs:54-73 | After the loop the connection has sent every message since its subscription, each once and in order, or that much of it before a send failed. |
| `Replica.DeltasReplay` | src/server/control.rs:54-73 | Handling the frames sent one by one is replaying the log. |
| `Replica.DrainedIsReceived` | src/server/control.rs:34-73 | What the phone holds after a drained connection is the snapshot with everything since the subscription replayed over it. |
| `Replica.ExecTells` | src/registry.rs:42-111 | Over any run, what the log gained tells of each session whatever visible changed about it, as it is at the end. |
| `Replica.ConvergenceIff` | src/server/control.rs:34-63 | For any run and any placement of subscription and snapshot, although older messages are replayed over a newer snapshot: the phone agrees with the registry on a session if and only if there is no message about it since, or the last one came from the registered handle, or a stale one says what is so. |
| `Replica.Convergence` | src/server/control.rs:34-63 | In particular it agrees on each session whose last message came from the registered handle, and on each without a message. |
| `Replica.EveryRegisteredIsListed` | src/server/control.rs:34-63 | Without any assumption, every registered session is at least listed on the phone. |
| `Replica.ReplicaConvergesIff` | src/server/control.rs:34-63 | The phone's connected entries equal the registry, on id, metadata, streaming and preview, if and only if that holds of every session's last message. |
| `Replica.ReplicaConverges` | src/server/control.rs:34-63 | So they do with no message from a replaced or removed handle. |
| `Replica.AgreementIsByField` | src/session.rs:145-150 | Agreement on a session, field by field: connected, with the metadata, streaming flag and preview of the registered handle. |
| `Replica.PhoneHasTheHandles` | src/server/control.rs:34-63 | In any run, a registered session whose last message came from its handle is on the phone with the handle's own metadata, streaming flag and preview. |
| `Replica.StaleMessageMisleads` | src/registry.rs:218-220 | A run in which the watcher of a replaced handle reports once more: the phone shows a registered session as disconnected. |
| `AgentServer.AgentConnection.Receive` | src/server/agent.rs:59-112 | One turn of the frame loop: what it does to the registry, the session id and the writer's queue, for every kind of frame and every missing field. |
| `AgentServer.RegisterFrameEnters` | src/server/agent.rs:69-95 | Field by field, what a register frame puts into the registry, and that it is acknowledged. |
| `AgentServer.MetaFrameChanges` | src/server/agent.rs:96-100 | Field by field, what a metadata frame changes of the entry of the connection's session. |
| `AgentServer.AgentConnection.Handle` | src/server/agent.rs:57-118 | The whole loop and the unregistering at its end, each frame at its own time. |
| `AgentServer.HandleIsRun` | src/server/agent.rs:57-118 | That is what the system of all connections does when this one runs its frames and closes. |
| `AgentServer.NextOwned` | src/server/agent.rs:57-118 | Every step of any connection, process or task keeps ownership, if each connection registers once and never an id that is held. |
| `AgentServer.DisciplineIsExact` | src/server/agent.rs:69-95 | From any state of ownership a frame keeps ownership if and only if it obeys that discipline. |
| `AgentServer.Ownership` | src/server/agent.rs:57-117 | In every reachable state of a disciplined run an id leads to a remote handle if and only if an open connection holds it, and then only one does. |
| `AgentServer.NoCrossTalkEver` | src/registry.rs:117-123 | In every reachable state a session's events are exactly what its own connection published since registering, in order; a command reaches only the connection of the handle it was sent through; no connection is asked to close. |
| `AgentServer.EventForwarder.Forward` | src/server/ws.rs:70-97 | A phone's forwarder sends each event of its handle since its subscription, once and in order, or that much of it before a send fails or the disconnect is noticed, and none of any other handle. |
| `AgentServer.ForwardedIsOwn` | src/server/ws.rs:83-88 | In every disciplined run whatever is forwarded from a handle came in on the connection that handle writes to. |
| `AgentServer.CloseKeepsOthers` | src/server/agent.rs:115-117 | In any state whatsoever: closing a connection leaves all entries of other connections alone if and only if its id is not by now another's. |
| `AgentServer.NewerEntryRemoved` | src/registry.rs:50-61 | Two registrations of one id from any state of ownership: the older connection is the one asked to close, and its close removes the entry of the newer one, which is still open. |
| `AgentServer.DuplicateRegistrationRun` | src/registry.rs:50-61 | A run from the start in which that happens. |
| `AgentServer.CrossTalkIff` | src/registry.rs:117-123 | In any state in which every handle's events came in on its own connection, the next step changes that if and only if it is an event or response of an open connection whose id leads to a remote handle of another. |
| `AgentServer.CrossTalkExactly` | src/registry.rs:117-123 | Over any run, without any discipline: all events of all handles came in on their own connections if and only if no step of the run was such a frame. |
| `AgentServer.CrossTalkRun` | src/registry.rs:50-61 | A run from the start in which one does: after a second registration of an id, what the older connection publishes is in the newer one's handle. |
| `Lifecycle.StepKeepsInv` | src/registry.rs:42-87 | Every single step of registering, unregistering and the tasks keeps: each handle is in the map, or waiting to be marked, or marked, never two of these; only marking turns the flag off. |
| `Lifecycle.RegisteredIsConnected` | src/registry.rs:50-61 | After any interleaving every handle in the map is connected and under one id only. |
| `Lifecycle.NoWayBack` | src/session.rs:132-143 | From any reachable state on, no handle that is outside the map gets back into it and no flag comes on again. |
| `Lifecycle.MarkReaches` | src/session.rs:140-143 | Marking, from any reachable state and whatever follows: the flag is off for good if and only if a receiver existed, and every task subscribed by then stops at its next poll at the latest. |
| `Lifecycle.PollsOnce` | src/registry.rs:167-187 | A poll stops the task exactly if something new has happened and the handle is off, and uses the change up. |
| `Lifecycle.LateSubscriberIsNotTold` | src/registry.rs:167-187 | A task that subscribes after the marking is never stopped by its poll, whatever follows. |
| `Lifecycle.LateWatcherRun` | src/registry.rs:50-68 | A run from the start in which both happen: registered twice before the first watcher runs. |
| `Lifecycle.RegisterIsItsParts` | src/registry.rs:42-71 | The registry's one-step registration is the separate steps run without interruption. |
| `Lifecycle.UnregisterIsItsParts` | src/registry.rs:79-87 | The same for unregistering. |
| `StatusWatcher.ExtractTextFromContent` | src/registry.rs:239-256 | The loop joins the texts of the text blocks with single spaces, from the first non-empty one on; none if all are empty. |
| `StatusWatcher.PreviewMeaning` | src/registry.rs:225-264 | Over the JSON of the event: there is a preview exactly if its type is "message_end", its message's role is "user" or "assistant", and the text of its content is not all white space; it is the text between its first and last other characters, cut after 120 characters with an ellipsis. |
| `StatusWatcher.StreamingMeaning` | src/registry.rs:204-206 | After any events the session is streaming if and only if some event of type "agent_start" has no event of type "agent_settled" after it. |
| `StatusWatcher.LatestPreviewMeaning` | src/registry.rs:207-211 | After any events the preview is that of the latest event that has one in the sense of `PreviewMeaning`. |
| `StatusWatcher.OthersAreIrrelevant` | src/registry.rs:195-197 | Removing all other events changes neither the status nor the updates. |
| `StatusWatcher.UpdatesAreChanges` | src/registry.rs:215-220 | The updates announced are the history of streaming flag and preview with consecutive repeats removed. |
| `StatusWatcher.Watcher.HandleEvent` | src/registry.rs:189-221 | One event's effect on the registry's handle and the control log. |
| `StatusWatcher.Watcher.WatchStatus` | src/registry.rs:167-187 | The task's loop handles exactly the events received before it is told to stop. |
| `StatusWatcher.HeardIs` | src/registry.rs:167-187 | What the task hears are the events in front of the first end of a channel or message that the session is gone. |
| `StatusWatcher.WatchIsFold` | src/registry.rs:167-221 | What a watcher leaves in the registry is the fold of what it heard, and what it announced is the sequence of changes. |
| `PhoneStatus.StatusIsFold` | src/registry.rs:167-221 | The same status in any run of the Hub, with everybody else at work in between. |
| `PhoneStatus.AnnouncedAreChanges` | src/registry.rs:215-220 | In any run of the Hub, what the watcher's steps announce is the sequence of changes. |
| `PhoneStatus.PhoneShowsTheLatest` | assets/app.js:268-290 | In any run: if the last message about a registered session holds, the phone shows it as streaming exactly if, of the events its watcher handled, one of type "agent_start" has none of type "agent_settled" after it, and with the preview of the latest message that has one. |
| `Relay.SupportedAnswer` | pi-piper-agent/extensions/command-dispatch.ts:51-160 | Every command whose type is one of the 25 listed is answered with exactly what its operation answers, under its name ("new_session" for a prompt that says "/new"), or with what it throws, also by a prompt that rejects outside the dispatcher's try. |
| `Relay.OtherAnswer` | pi-piper-agent/extensions/command-dispatch.ts:28-33 | Every other command fails under its own name, eight of them as not implemented and the rest as unknown, with the source's texts. |
| `Relay.CommandIsAnswered` | src/server/ws.rs:99-111 | Any command of any phone, once sent, forwarded, written and delivered, comes back as the response its handler's outcome makes. |
| `Relay.ForwardInbound` | src/server/ws.rs:99-111 | A bridge's loop enqueues the phone's commands in order, skips everything else, and enqueues nothing once the writer is gone. |
| `Relay.RemoteAgent.Send` | src/rpc/remote_agent.rs:64-74 | A command is appended, or refused once the writer is gone. |
| `Relay.StepKeepsInv` | src/server/ws.rs:99-111 | Every step keeps: handled, on the wire and queued together are what the link accepted; each phone's part of it is an initial part of its commands; no two responses have one id. |
| `Relay.CommandsInOrder` | src/server/ws.rs:99-111 | In any run the commands handled are an initial part of one merge without duplicates, and those from any one phone an initial part of what it sent, in order. |
| `Relay.EverythingArrives` | src/server/agent.rs:49-55 | If the writer never stopped and all is delivered, every command of every phone was handled. |
| `Relay.AtMostOneResponse` | pi-piper-agent/extensions/hub-client.ts:131-145 | At most one response frame per command, in any run. |
| `Relay.ResponseExactlyIfOpen` | pi-piper-agent/extensions/hub-client.ts:131-151 | Whenever a handler settles, however, and whatever follows: its command ends up with exactly one response if the socket was open at that moment and with none otherwise. |
| `Relay.ClosingSilences` | pi-piper-agent/extensions/hub-client.ts:65-151 | A command that has not settled when the extension closes its client, received before or after that, never gets a response, whatever follows. |
| `HubClient.HubClient.OnClose` | pi-piper-agent/extensions/hub-client.ts:121-124 | The state after a close event, before and after `close()`. |
| `HubClient.HubClient.OnOpen` | pi-piper-agent/extensions/hub-client.ts:96-105 | The backoff restarts and the registration is sent. |
| `HubClient.HubClient.OnRegistered` | pi-piper-agent/extensions/hub-client.ts:114-116 | The status after the Hub's acknowledgement. |
| `HubClient.HubClient.OnError` | pi-piper-agent/extensions/hub-client.ts:126-128 | The status after a socket error. |
| `HubClient.HubClient.Open` | pi-piper-agent/extensions/hub-client.ts:79-94 | Nothing when closed; a retry when the token cannot be read; otherwise one new socket. |
| `HubClient.HubClient.OnTimer` | pi-piper-agent/extensions/hub-client.ts:156-156 | A timer fires once, and opens. |
| `HubClient.HubClient.CloseClient` | pi-piper-agent/extensions/hub-client.ts:65-73 | The timer is cleared and the socket asked to close. |
| `HubClient.HubClient.ScheduleReconnect` | pi-piper-agent/extensions/hub-client.ts:153-157 | One new timer, with the delay of the attempt. |
| `HubClient.StepLinear` | pi-piper-agent/extensions/hub-client.ts:60-129 | Every event keeps: only the timer and the socket the client knows can be pending or unclosed, and before `close()` exactly one of them is. |
| `HubClient.AlwaysExactlyOne` | pi-piper-agent/extensions/hub-client.ts:60-129 | In every run after one `connect()`, pending timers plus unclosed sockets are exactly one until `close()`; then no timer is pending. |
| `HubClient.NothingAfterClose` | pi-piper-agent/extensions/hub-client.ts:65-81 | After `close()` no socket is opened and no timer set, in any continuation. |
| `HubClient.SecondConnectDoubles` | pi-piper-agent/extensions/hub-client.ts:60-63 | With a second `connect()` before the old close event there can be a timer and a socket at once. |
| `HubClient.EverySocketRegistersOnce` | pi-piper-agent/extensions/hub-client.ts:96-105 | On every socket the client ever opens, the registration is the first frame and the only one of its kind. |
| `HubClient.TotalWait` | pi-piper-agent/extensions/hub-client.ts:153-157 | In every run, the waits since a socket last opened add up to the closed form in their number. |
| `HubClient.ConsecutiveFailures` | pi-piper-agent/extensions/hub-client.ts:21-21 | While nothing opens, `n >= 3` failures cost 8000 + 10000 * (n - 3) ms. |
| `HubClient.StatusIsLatest` | pi-piper-agent/extensions/hub-client.ts:79-129 | In every run the status is what the latest close, error, acknowledgement or opening made it. |
| `Handoff.HandoffFile.MarkHandoff` | pi-piper-agent/extensions/handoff.ts:45-49 | The entry is this process's, whoever's it was. |
| `Handoff.HandoffFile.HasHandoff` | pi-piper-agent/extensions/handoff.ts:53-65 | True for an entry of this or another live process; a dead owner's entry is pruned. |
| `Handoff.HandoffFile.DropHandoff` | pi-piper-agent/extensions/handoff.ts:68-77 | The entry is gone and no other has changed. |
| `RemoteControl.Extension.Start` | pi-piper-agent/extensions/index.ts:46-104 | The state after `start`: entry, variables, the old client closed, a new one with a new generation. |
| `RemoteControl.Extension.Stop` | pi-piper-agent/extensions/index.ts:106-118 | The state after `stop`, with and without clearing the entry. |
| `RemoteControl.Extension.PrepareSessionChange` | pi-piper-agent/extensions/index.ts:33-43 | The entry is dropped and the client stopped. |
| `RemoteControl.Extension.OnSessionStart` | pi-piper-agent/extensions/index.ts:126-138 | The hook starts exactly for a live entry of the session left, which it consumes. |
| `RemoteControl.Extension.OnSessionShutdown` | pi-piper-agent/extensions/index.ts:151-158 | Quitting ends the handoff; any other reason keeps it. |
| `RemoteControl.Extension.Rc` | pi-piper-agent/extensions/index.ts:162-187 | `/rc`, `/rc stop` and `/rc status`. |
| `RemoteSystem.LiveExactlyIfLeft` | pi-piper-agent/extensions/index.ts:126-130 | When a new runtime starts, the entry of the session left is live if and only if RC was active when the old runtime shut down. |
| `RemoteSystem.StepInv` | pi-piper-agent/extensions/index.ts:27-158 | Every step of any process, crashes, late commands and abandoned changes included, keeps every process's entry, variables, clients and record of changes right, if no session file is open in two live processes. |
| `RemoteSystem.EveryChangeIsFollowedOnce` | pi-piper-agent/extensions/index.ts:27-138 | In every disciplined run: after a local change or a reload RC is active if and only if it was before and the session left had a file; after a remote change it always is. `start` ran once if RC is active afterwards and not at all otherwise, except that it ran twice exactly for a remote change of a session with a file in which RC was started again before the shutdown. |
| `RemoteSystem.EachOwnsAtMostOne` | pi-piper-agent/extensions/handoff.ts:45-77 | A live process owns the entry of its session's file exactly if RC is active there, or was when the old runtime of a change under way shut down, and it owns no other. |
| `RemoteSystem.OthersEntriesStay` | pi-piper-agent/extensions/handoff.ts:53-77 | No process removes, takes over or creates another live process's entry. |
| `RemoteSystem.OnlyTheCurrentClientActs` | pi-piper-agent/extensions/index.ts:65-118 | In any run, of all clients a process ever made in all its runtimes, the one that is not closed and the one whose status callback still goes through are the current one; while RC is stopped there is none. |
| `RemoteSystem.ArrivingStartsIff` | pi-piper-agent/extensions/index.ts:126-138 | In any state whatsoever the hook starts RC exactly if the session left has a file with an entry whose owner, whoever it is, still runs. |
| `RemoteSystem.SharedFileMisleads` | pi-piper-agent/extensions/index.ts:126-138 | From any state in which two live processes have one session file open, a local change in the one without RC starts RC there and removes the other's entry. |
| `RemoteSystem.SharedFileRun` | pi-piper-agent/extensions/index.ts:126-138 | A run from the start in which that happens while RC goes on in the first process. |
| `RemoteSystem.FilelessSessionIsNotFollowed` | pi-piper-agent/extensions/index.ts:56-62 | A run from the start in which an active session without a file is left locally and RC does not follow. |
| `RemoteSystem.StoppedRcComesBack` | pi-piper-agent/extensions/hub-client.ts:107-119 | A run from the start in which RC is stopped, a remote change still comes in over the client that is being closed, and RC is active again. |
| `RemoteSystem.StartedTwiceRun` | pi-piper-agent/extensions/index.ts:33-43 | A run from the start in which RC is started between the preparation and the shutdown of a remote change, and `start` then runs twice. |
| `RemoteSystem.AbandonedChangeStops` | pi-piper-agent/extensions/command-dispatch.ts:341-354 | From any state a disciplined run reaches: a remote change that is cancelled or fails after its preparation leaves the session as it was, with RC off and without an entry. |

## Left out

- Sockets, HTTP, child processes, token files, configuration, the service worker, the DOM and CSS: input, output and presentation.
- Authorization, agent tokens, JSONL framing, model and thinking-level cycling, session stats, attachment size totals and file kinds: easy, or the work of libraries.
- The internals of tokio channels, of `ws` and of serde_json; lagging receivers; replacing several values of one watch by the last.
- The order in which changes and announcements of concurrent registry calls can interleave: one step each in `Replica` and `AgentServer`; `Lifecycle` separates the map change from the marking but not the announcement.
- The phone's own socket reconnects and the snapshot fetched over HTTP, which can overwrite newer entries.
- `lastActivityAtMs` on the phone: it changes without a message.
- Remote changes for which no command context was ever seen, two remote changes of one process at once, and `start` throwing.
- A command that a client of an earlier runtime delivers after the session change: its handler holds the earlier session's context, and whether pi still acts on one is outside the repository.
- I/O failures on the handoff file, two processes writing it at the same moment, and reuse of a process id.
- JavaScript prototype keys such as `constructor` as a code block's language: the alias and keyword tables are finite maps.
- MessageText: an empty input without attachments, which is not sent at all.
- Lone surrogates and UTF-16 units: characters are Unicode scalar values; lower-casing a language name is exact for the characters that are kept.
- Proper nesting of different tags: it does not hold (`InlineMeaning.TagsMayCross`); each kind of tag alone is balanced.
- A command whose `type` is not a string.
- RenderSeparated: stated for a first text that leaves no fence open, and not as an equivalence, because the two sides can also coincide by chance when it does leave one open (three backticks, followed by an empty code block).
- LinksDraft: a title of a link whose address is not safe is dropped by the source together with any code span in it; the lemma accounts for it as lost.
- Handle: nobody else changes the registry while the method runs; what others do between frames is in the runs of `AgentServer.Next`.
- WatchStatus: nobody else changes the registry while the method runs; `PhoneStatus` has the watcher among everything else.
- ForwardInbound: no other phone sends and the writer does not stop while the method runs; the runs of `Relay.Next` have both.
- LinkRenders: a label with a code span, and an unsafe address or its label with Markdown in it, are left to `Placeholders` and `Remains`.
- Renderer: `line` is modelled as one method on the loop's variables; the arrays it mutates are sequences that the methods reassign.
- Extension: the texts and toasts shown in the terminal are not modelled, only whether a callback may show one.

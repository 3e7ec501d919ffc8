/** What the phone's streaming flag and preview mean: a session's watcher among everything else the Hub does,
    and the phone at the end of the control channel. */
module PhoneStatus {
  import opened Text
  import opened Session
  import opened Registry
  import opened Replica
  import opened StatusWatcher

  /** A handle starts with the default status. */
  function StatusOf(h: Hub, n: nat): Status {
    if n < |h.handles| then h.handles[n].status else DEFAULT_STATUS
  }

  /** In this run the watcher of handle `n`, once the handle exists, handles these events: each time it steps, it
      stores what the next event makes of the status. Anybody else may do anything in between. */
  ghost predicate Watches(h: Hub, n: nat, actions: seq<Action>, events: seq<Timed>)
    decreases |actions|
  {
    if actions == [] then events == []
    else if Steps(h, n, actions[0]) then
      && events != [] && actions[0].status == Derive(h.handles[n].status, events[0])
      && Watches(Act(h, actions[0]), n, actions[1..], events[1..])
    else Watches(Act(h, actions[0]), n, actions[1..], events)
  }

  /** A step of the watcher of an existing handle. */
  predicate Steps(h: Hub, n: nat, a: Action) { a.Watch? && a.handle == n && n < |h.handles| }

  lemma {:induction false} FoldCons(s: Status, events: seq<Timed>)
    requires events != []
    ensures Fold(s, events) == Fold(Derive(s, events[0]), events[1..])
    decreases |events|
  {
    hide Derive;
    if |events| == 1 {
      assert events[..0] == [] && events[1..] == [];
    } else {
      var front, last := events[..|events| - 1], events[|events| - 1];
      FoldCons(s, front);
      assert front[0] == events[0] && events[1..][..|events[1..]| - 1] == front[1..];
    }
  }

  lemma {:induction false} EmittedCons(s: Status, events: seq<Timed>)
    requires events != []
    ensures var t := Derive(s, events[0]);
      Emitted(s, events) == (if ViewOf(t) != ViewOf(s) then [ViewOf(t)] else []) + Emitted(t, events[1..])
    decreases |events|
  {
    hide Derive, ViewOf;
    if |events| == 1 {
      assert events[..0] == [] && events[1..] == [];
    } else {
      var front := events[..|events| - 1];
      EmittedCons(s, front);
      FoldCons(s, front);
      assert front[0] == events[0] && events[1..][..|events[1..]| - 1] == front[1..];
    }
  }

  lemma WatchStores(h: Hub, n: nat, a: Action)
    requires Steps(h, n, a)
    ensures StatusOf(Act(h, a), n) == a.status && n < |Act(h, a).handles|
  {
    hide Registered;
  }

  /** Nobody else changes the status. */
  lemma OthersKeepStatus(h: Hub, n: nat, a: Action)
    requires Wired(h) && !Steps(h, n, a)
    ensures StatusOf(Act(h, a), n) == StatusOf(h, n)
  {
    hide Registered;
  }

  lemma {:induction false} StatusIsFold(h: Hub, n: nat, actions: seq<Action>, events: seq<Timed>)
    requires Inv(h) && Watches(h, n, actions, events)
    ensures StatusOf(Exec(h, actions), n) == Fold(StatusOf(h, n), events)
    decreases |actions|
  {
    hide Act, Inv, Derive;
    if actions != [] {
      var g := Act(h, actions[0]);
      ActKeepsInv(h, actions[0]);
      if Steps(h, n, actions[0]) {
        WatchStores(h, n, actions[0]);
        StatusIsFold(g, n, actions[1..], events[1..]);
        FoldCons(StatusOf(h, n), events);
      } else {
        InvIsWired(h);
        OthersKeepStatus(h, n, actions[0]);
        StatusIsFold(g, n, actions[1..], events);
      }
    }
  }

  lemma InvIsWired(h: Hub)
    requires Inv(h)
    ensures Wired(h)
  {
  }

  /** The views that the watcher's steps announce in this run. */
  function AnnouncedBy(h: Hub, n: nat, actions: seq<Action>): seq<View>
    decreases |actions|
  {
    if actions == [] then []
    else
      (if Steps(h, n, actions[0]) then Announced(Gained(h, Act(h, actions[0]))) else [])
      + AnnouncedBy(Act(h, actions[0]), n, actions[1..])
  }

  /** What the log gained. */
  function Gained(h: Hub, g: Hub): seq<Entry> { if |h.log| <= |g.log| then g.log[|h.log|..] else [] }

  lemma WatchAnnounces(h: Hub, n: nat, status: Status)
    requires n < |h.handles|
    ensures Announced(Gained(h, StatusStep(h, n, status)))
         == if ViewOf(status) != ViewOf(h.handles[n].status) then [ViewOf(status)] else []
  {
    hide StatusStep, ViewOf, Announced;
    StatusStepAnnounces(h, n, status);
    var g := StatusStep(h, n, status);
    NothingAnnounced();
    if g.log == h.log {
      assert Gained(h, g) == [];
    } else {
      var e :| g.log == h.log + [e] && e.frame.SessionUpdate? && ViewOf(e.frame.session.status) == ViewOf(status);
      assert Gained(h, g) == [] + [e];
      AnnouncedSnoc([], e);
    }
  }

  lemma WatchActAnnounces(h: Hub, n: nat, a: Action)
    requires Steps(h, n, a)
    ensures Announced(Gained(h, Act(h, a)))
         == if ViewOf(a.status) != ViewOf(StatusOf(h, n)) then [ViewOf(a.status)] else []
  {
    hide StatusStep, ViewOf, Announced, Gained;
    WatchAnnounces(h, n, a.status);
  }

  /** Among everything else the Hub does, a watcher announces exactly the changes of what it derives. */
  lemma {:induction false} AnnouncedAreChanges(h: Hub, n: nat, actions: seq<Action>, events: seq<Timed>)
    requires Inv(h) && Watches(h, n, actions, events)
    ensures AnnouncedBy(h, n, actions) == Emitted(StatusOf(h, n), events)
    decreases |actions|
  {
    hide Act, Inv, Derive, Announced, Gained, ViewOf, Emitted;
    if actions == [] {
      NothingEmitted(StatusOf(h, n));
    } else {
      var g := Act(h, actions[0]);
      ActKeepsInv(h, actions[0]);
      if Steps(h, n, actions[0]) {
        WatchStores(h, n, actions[0]);
        WatchActAnnounces(h, n, actions[0]);
        AnnouncedAreChanges(g, n, actions[1..], events[1..]);
        EmittedCons(StatusOf(h, n), events);
      } else {
        InvIsWired(h);
        OthersKeepStatus(h, n, actions[0]);
        AnnouncedAreChanges(g, n, actions[1..], events);
        assert [] + AnnouncedBy(g, n, actions[1..]) == AnnouncedBy(g, n, actions[1..]);
      }
    }
  }

  lemma NothingEmitted(s: Status)
    ensures Emitted(s, []) == []
  {
  }

  lemma {:induction false} ExecConcat(h: Hub, a: seq<Action>, b: seq<Action>)
    ensures Exec(h, a + b) == Exec(Exec(h, a), b)
    decreases |a|
  {
    hide Act;
    if a == [] {
      assert a + b == b;
    } else {
      assert (a + b)[0] == a[0] && (a + b)[1..] == a[1..] + b;
      ExecConcat(Act(h, a[0]), a[1..], b);
    }
  }

  lemma AgreesShows(phone: Phone, h: Hub, id: Id)
    requires Inv(h) && Agrees(phone, h, id) && id in h.sessions
    ensures id in phone && phone[id].connected
    ensures ViewOf(phone[id].status) == ViewOf(StatusOf(h, h.sessions[id]))
  {
  }

  /** In any run: if the last message about a registered session holds, the phone shows it as streaming exactly if
      the latest start or settling its watcher handled was a start, and with the preview of the latest message
      that had one. */
  lemma PhoneShowsTheLatest(before: seq<Action>, between: seq<Action>, after: seq<Action>, list: seq<Summary>, id: Id,
        events: seq<Timed>)
    requires Inv(Exec(Exec(EMPTY_HUB, before), between)) && IsListing(list, Exec(Exec(EMPTY_HUB, before), between))
    requires var first := Exec(EMPTY_HUB, before);
      var third := Exec(Exec(first, between), after);
      && first.log <= third.log && LastWordHolds(third, id, LastFor(third.log[|first.log|..], id))
      && id in third.sessions && Watches(EMPTY_HUB, third.sessions[id], before + between + after, events)
    ensures var first := Exec(EMPTY_HUB, before);
      var third := Exec(Exec(first, between), after);
      var phone := Received(list, first, third);
      && id in phone && phone[id].connected
      && (phone[id].status.isStreaming <==> LatestIsStart(events))
      && LatestPreviewIs(events, phone[id].status.lastPreview)
  {
    hide Act, Exec, Inv, IsListing, LastFor, LastWordHolds, Agrees, Received, Watches, LatestIsStart, LatestPreviewIs, Fold;
    var first := Exec(EMPTY_HUB, before);
    var third := Exec(Exec(first, between), after);
    RunMoments(before, between, after, id);
    ConvergenceIff(before, between, after, list, id);
    AgreesShows(Received(list, first, third), third, id);
    ExecConcat(EMPTY_HUB, before, between);
    ExecConcat(EMPTY_HUB, before + between, after);
    EmptyInv();
    StatusIsFold(EMPTY_HUB, third.sessions[id], before + between + after, events);
    StreamingMeaning(events);
    LatestPreviewMeaning(events);
  }
}

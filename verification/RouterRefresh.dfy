/**
  Whether the router asks again: after every change it is told of, over every run.

  The main results are `LastAskIsAnswered` (on a live connection that needs topology, each
  window's last word is a query, of that connection, that is in flight, applied, or reported),
  `ChangeIsAsked` (an add, close, layout or session change is followed by such a query), and
  `UnplacedIsAsked` (a row taken out of the table is asked for again).
 */
module RouterRefresh {
  import opened Options
  import opened TopologyTable
  import opened TopologyEpoch
  import opened RouterSpec
  import RouterQueries

  // ---------------------------------------------------------------------------------------
  // The last word on a window
  // ---------------------------------------------------------------------------------------

  /** The call sends a query whose reply lists the window's panes. */
  predicate Asks(ev: Event, w: nat) {
    ev.BootstrapStarted? || ev == RefreshStarted(w)
  }

  /** The call reports a change of the window. */
  predicate Tells(ev: Event, w: nat) {
    ev == Invalidated(w) || (ev.LayoutRecorded? && ev.window == w) || ev == LayoutForgotten(w)
  }

  /** The window was asked for at `at`, and since then neither asked for nor reported changed. */
  ghost predicate LastAsk(log: seq<Event>, w: nat, at: nat) {
    at < |log| && Asks(log[at], w) && forall j | at < j < |log| :: !Asks(log[j], w) && !Tells(log[j], w)
  }

  predicate Live(s: State) {
    s.queryRun.Some? && NeedsTopology(s)
  }

  ghost predicate InFlight(s: State, kind: QueryKind, at: nat) {
    exists q <- s.queries :: q.kind == kind && q.sentAt == at && s.queryRun == Some(q.run)
  }

  /** The query sent at `at` had its reply applied, or its failure dealt with. */
  predicate Done(s: State, w: nat, at: nat)
    requires at < |s.log|
  {
    if s.log[at].BootstrapStarted? then s.queryRun == Some(s.log[at].run) && (Seeded(at) in s.trace || BootstrapFailed(at) in s.trace)
    else Refreshed(w, at) in s.trace || WindowGone(w, at) in s.trace
  }

  /** The last word on the window is a query in flight on the live connection, or one that was dealt with. */
  ghost predicate AnsweredAt(s: State, w: nat, at: nat) {
    LastAsk(s.log, w, at)
    && (InFlight(s, if s.log[at].BootstrapStarted? then Boot else Refresh(w), at) || Done(s, w, at))
  }

  ghost predicate Answered(s: State, w: nat) {
    exists at :: AnsweredAt(s, w, at)
  }

  // ---------------------------------------------------------------------------------------
  // What keeps an answer, what gives one
  // ---------------------------------------------------------------------------------------

  /** Calls that concern other windows keep the answer. */
  lemma AnswerSurvives(s: State, r: State, w: nat, at: nat)
    requires AnsweredAt(s, w, at)
    requires s.log <= r.log && s.queries <= r.queries && r.queryRun == s.queryRun && s.trace <= r.trace
    requires forall j | |s.log| <= j < |r.log| :: !Asks(r.log[j], w) && !Tells(r.log[j], w)
    ensures AnsweredAt(r, w, at)
  {
    hide Asks, Tells;
    var kind := if s.log[at].BootstrapStarted? then Boot else Refresh(w);
    if q :| q in s.queries && q.kind == kind && q.sentAt == at && s.queryRun == Some(q.run) {
      assert q in r.queries;
    }
  }

  lemma BootstrapAnswers(s: State, w: nat)
    requires s.queryRun.Some?
    ensures AnsweredAt(Bootstrap(s), w, |s.log|)
  {
    hide Apply;
    var r := Bootstrap(s);
    var q := Query(Boot, s.queryRun.value, Apply(s.epoch, BootstrapStarted(s.queryRun.value)).bootstrapGen, |s.log|);
    assert q in r.queries;
  }

  lemma RefreshAnswers(s: State, w: nat)
    requires s.queryRun.Some?
    ensures AnsweredAt(RefreshWindow(s, w), w, |s.log|)
  {
    hide Apply;
    var r := RefreshWindow(s, w);
    var q := Query(Refresh(w), s.queryRun.value, Apply(s.epoch, RefreshStarted(w)).windowEpoch, |s.log|);
    assert q in r.queries;
  }

  lemma OtherRefreshKeeps(s: State, v: nat, w: nat)
    requires Answered(s, w) && v != w
    ensures Answered(RefreshWindow(s, v), w)
  {
    hide Apply, AnsweredAt;
    var at :| AnsweredAt(s, w, at);
    AnswerSurvives(s, RefreshWindow(s, v), w, at);
  }

  lemma {:induction false} RefreshAllAnswers(s: State, windows: seq<nat>, w: nat)
    requires s.queryRun.Some? && (w in windows || Answered(s, w))
    ensures Answered(RefreshAll(s, windows), w)
    decreases |windows|
  {
    hide RefreshWindow, AnsweredAt;
    if windows != [] {
      if windows[0] == w {
        RefreshAnswers(s, w);
      } else if Answered(s, w) {
        OtherRefreshKeeps(s, windows[0], w);
      }
      RefreshAllAnswers(RefreshWindow(s, windows[0]), windows[1..], w);
    }
  }

  lemma {:induction false} AddAllHolds(s: seq<nat>, xs: seq<nat>, x: nat)
    requires x in s || x in xs
    ensures x in AddAll(s, xs)
    decreases |xs|
  {
    if xs != [] {
      assert Listed(AddDistinct(s, xs[0])) == Listed(s) + {xs[0]};
      if x in s || x == xs[0] {
        assert x in Listed(AddDistinct(s, xs[0]));
      }
      AddAllHolds(AddDistinct(s, xs[0]), xs[1..], x);
    }
  }

  lemma RequeryAnswers(s: State, c: Contradiction, windows: seq<nat>, w: nat)
    requires s.queryRun.Some? && (w in windows || Answered(s, w))
    ensures Answered(Requery(s, c, windows), w)
  {
    hide Answered, AnsweredAt, Bootstrap, RefreshAll;
    if c.lostTrack {
      BootstrapAnswers(s, w);
      AnsweredNow(Bootstrap(s), w, |s.log|);
    } else {
      if w in windows { AddAllHolds(c.left, windows, w); }
      RefreshAllAnswers(s, AddAll(c.left, windows), w);
    }
  }

  lemma AnsweredNow(s: State, w: nat, at: nat)
    requires AnsweredAt(s, w, at)
    ensures Answered(s, w)
  {
  }

  /** Settling a query keeps the answer when that query is not it, or was dealt with. */
  lemma SettleKeepsAnswer(s: State, q: Query, w: nat, at: nat)
    requires AnsweredAt(s, w, at)
    requires q.sentAt != at || Done(s, w, at) || s.queryRun != Some(q.run)
    ensures Answered(Settle(s, q), w)
  {
    hide Asks, Tells, TakeHeld;
    var r := Settle(s, q);
    SettleKeeps(s, q);
    var kind := if s.log[at].BootstrapStarted? then Boot else Refresh(w);
    if !Done(s, w, at) {
      var q0 :| q0 in s.queries && q0.kind == kind && q0.sentAt == at && s.queryRun == Some(q0.run);
      assert q0 in r.queries;
    }
    AnsweredNow(r, w, at);
  }

  lemma SettleKeeps(s: State, q: Query)
    ensures var r := Settle(s, q);
            && r.log == s.log && r.queries == s.queries - {q} && r.queryRun == s.queryRun && s.trace <= r.trace
            && r.live == s.live && r.marks == s.marks && (Live(r) <==> Live(s)) && r.table == s.table
  {
  }

  /** A step that only changes other parts of the state. */
  lemma SameAnswer(s: State, r: State, w: nat)
    requires Answered(s, w)
    requires r.log == s.log && s.queries <= r.queries && r.queryRun == s.queryRun && s.trace <= r.trace
    ensures Answered(r, w)
  {
    hide AnsweredAt;
    var at :| AnsweredAt(s, w, at);
    AnswerSurvives(s, r, w, at);
  }

  // ---------------------------------------------------------------------------------------
  // Each step
  // ---------------------------------------------------------------------------------------

  ghost predicate AskInv(s: State, w: nat) {
    Live(s) ==> Answered(s, w)
  }

  lemma ReadyAnswers(s: State, run: nat, w: nat)
    ensures AskInv(OnReady(s, run), w)
  {
    hide Bootstrap, AnsweredAt;
    var s1 := s.(runCommand := Some(run), queryRun := Some(run), tmuxPaused := {});
    BootstrapAnswers(s1, w);
  }

  lemma AttachAnswers(s: State, scope: Scope, w: nat)
    requires AskInv(s, w)
    ensures AskInv(OnAttach(s, scope), w)
  {
    hide Bootstrap, AnsweredAt, Recompute, Answered;
    var r := OnAttach(s, scope);
    if Live(r) {
      var s1 := s.(lastSeq := s.lastSeq + 1, live := s.live + [Att(s.lastSeq + 1, scope)]);
      if scope.Topological() {
        BootstrapAnswers(s1, w);
        AnsweredNow(Bootstrap(s1), w, |s.log|);
        SameAnswer(Bootstrap(s1), r, w);
      } else {
        assert forall b <- s1.live :: b.scope.Topological() ==> b in s.live;
        SameAnswer(s, r, w);
      }
    }
  }

  lemma DisposeAnswers(s: State, a: Att, w: nat)
    requires AskInv(s, w)
    ensures AskInv(OnDispose(s, a), w)
  {
    hide Answered, Recompute;
    if Live(OnDispose(s, a)) {
      SameAnswer(s, OnDispose(s, a), w);
    }
  }

  lemma OutputAnswers(s: State, pane: nat, size: nat, w: nat)
    requires AskInv(s, w)
    ensures AskInv(OnOutput(s, pane, size), w)
  {
    hide Answered, LiveRecipients, Writes;
    if Live(OnOutput(s, pane, size)) {
      SameAnswer(s, OnOutput(s, pane, size), w);
    }
  }

  lemma MembershipAnswers(s: State, v: nat, w: nat)
    requires AskInv(s, w)
    ensures AskInv(OnMembership(s, v), w)
  {
    hide AnsweredAt, Recompute, RowsOutside, RefreshWindow, Apply;
    var s1 := Recompute(Call(s.(table := RowsOutside(s.table, v)), Invalidated(v)));
    if Live(OnMembership(s, v)) {
      if v == w {
        RefreshAnswers(s1, w);
      } else {
        var at :| AnsweredAt(s, w, at);
        AnswerSurvives(s, s1, w, at);
        OtherRefreshKeeps(s1, v, w);
      }
    }
  }

  lemma LayoutAnswers(s: State, v: nat, layout: Option<seq<nat>>, w: nat)
    requires AskInv(s, w)
    ensures AskInv(OnLayout(s, v, layout), w)
  {
    hide AnsweredAt, UnplaceRows, UnplaceResult, RefreshWindow, Requery, Apply;
    if Live(OnLayout(s, v, layout)) {
      if layout.Some? {
        var s1 := Call(s, LayoutRecorded(v, layout.value)).(table := UnplaceRows(s.table, v, layout.value));
        if v != w {
          var at :| AnsweredAt(s, w, at);
          AnswerSurvives(s, s1, w, at);
        }
        RequeryAnswers(s1, UnplaceResult(s.table, v, layout.value), [v], w);
      } else {
        var s1 := Call(s, LayoutForgotten(v));
        if v == w {
          RefreshAnswers(s1, w);
        } else {
          var at :| AnsweredAt(s, w, at);
          AnswerSurvives(s, s1, w, at);
          OtherRefreshKeeps(s1, v, w);
        }
      }
    }
  }

  /** A bootstrap that is the last word on a window, on the live connection, is the latest. */
  lemma LastWordIsLatest(s: State, q: Query, w: nat)
    requires RouterQueries.QueriesOk(s) && q in s.queries && q.kind.Boot? && LastAsk(s.log, w, q.sentAt)
    ensures s.epoch.LatestBootstrap(q.gen)
  {
    hide RouterQueries.QueriesOk;
    RouterQueries.LatestMeansNoneStarted(s, q);
  }

  lemma LastWordIsCurrent(s: State, q: Query, w: nat)
    requires RouterQueries.QueriesOk(s) && q in s.queries && q.kind.Refresh? && LastAsk(s.log, w, q.sentAt)
    ensures q.kind.window == w && s.epoch.RefreshCurrent(w, q.gen)
  {
    RefreshCurrentIff(s.log, q.sentAt);
  }

  /** What applying a reply does to the answer: the reply is recorded, then its queries are sent. */
  lemma SeedAnswers(s: State, q: Query, entries: seq<Entry>, w: nat)
    requires s.queryRun.Some? && Answered(s, w)
    ensures var r := ApplySeed(s, q, entries); Answered(r, w) && Seeded(q.sentAt) in r.trace && s.log <= r.log
  {
    hide AnsweredAt, UnplaceAllResult, SeedRows, UnplaceAll, Requery, Recompute, Apply;
    var s1 := PlaceReply(s, q, entries);
    var at :| AnsweredAt(s, w, at);
    AnswerSurvives(s, s1, w, at);
    var c := UnplaceAllResult(SeedRows(entries), s.epoch.layouts);
    RequeryAnswers(s1, c, [], w);
    RouterQueries.RequeryStartsQueries(s1, c, []);
    SameAnswer(Requery(s1, c, []), ApplySeed(s, q, entries), w);
    assert s1.trace[|s.trace|] == Seeded(q.sentAt);
  }

  lemma UpdateAnswers(s: State, q: Query, entries: seq<Entry>, w: nat)
    requires s.queryRun.Some? && Answered(s, w) && q.kind.Refresh?
    ensures var r := ApplyRefresh(s, q, entries);
            Answered(r, w) && Refreshed(q.kind.window, q.sentAt) in r.trace && s.log <= r.log
  {
    hide AnsweredAt, UpdateRows, UpdateLoses, Requery, Recompute;
    var s1 := UpdateReply(s, q, entries);
    SameAnswer(s, s1, w);
    var c := Contradiction([], UpdateLoses(s.table, q.kind.window, entries));
    RequeryAnswers(s1, c, [], w);
    RouterQueries.RequeryStartsQueries(s1, c, []);
    SameAnswer(Requery(s1, c, []), ApplyRefresh(s, q, entries), w);
    assert s1.trace[|s.trace|] == Refreshed(q.kind.window, q.sentAt);
  }

  /** Once `q`'s reply is applied, settling it loses no answer. */
  lemma AppliedKeepsAnswer(s: State, r: State, q: Query, w: nat)
    requires RouterQueries.QueriesOk(s) && q in s.queries && Answered(r, w) && s.log <= r.log
    requires if q.kind.Boot? then Seeded(q.sentAt) in r.trace || BootstrapFailed(q.sentAt) in r.trace
             else Refreshed(q.kind.window, q.sentAt) in r.trace || WindowGone(q.kind.window, q.sentAt) in r.trace
    ensures Answered(Settle(r, q), w)
  {
    hide Settle;
    var at: nat :| AnsweredAt(r, w, at);
    if at == q.sentAt && r.queryRun == Some(q.run) {
      assert Asks(r.log[at], w) && r.log[at] == s.log[at];
      assert Done(r, w, at);
    }
    SettleKeepsAnswer(r, q, w, at);
  }

  lemma StaleBootstrapAnswers(s: State, q: Query, w: nat)
    requires RouterQueries.QueriesOk(s) && q in s.queries && q.kind.Boot? && Answered(s, w)
    requires !(s.queryRun == Some(q.run) && s.epoch.LatestBootstrap(q.gen))
    ensures Answered(Settle(s, q), w)
  {
    hide Settle, RouterQueries.QueriesOk, LastAsk, Done;
    var at :| AnsweredAt(s, w, at);
    if at == q.sentAt { LastWordIsLatest(s, q, w); }
    SettleKeepsAnswer(s, q, w, at);
  }

  lemma StaleRefreshAnswers(s: State, q: Query, w: nat)
    requires RouterQueries.QueriesOk(s) && q in s.queries && q.kind.Refresh? && Answered(s, w)
    requires !s.epoch.RefreshCurrent(q.kind.window, q.gen)
    ensures Answered(Settle(s, q), w)
  {
    hide Settle, RouterQueries.QueriesOk, LastAsk, Done;
    var at :| AnsweredAt(s, w, at);
    if at == q.sentAt { LastWordIsCurrent(s, q, w); }
    SettleKeepsAnswer(s, q, w, at);
  }

  lemma RestartAnswers(s: State, q: Query, w: nat)
    requires s.queryRun.Some? && q.sentAt < |s.log|
    ensures Answered(Settle(Bootstrap(s), q), w)
  {
    hide Settle, Bootstrap, AnsweredAt;
    BootstrapAnswers(s, w);
    SettleKeepsAnswer(Bootstrap(s), q, w, |s.log|);
  }

  lemma BootstrapReplyAnswers(s: State, q: Query, entries: seq<Entry>, w: nat)
    requires RouterQueries.QueriesOk(s) && q in s.queries && q.kind.Boot? && AskInv(s, w)
    ensures AskInv(OnBootstrapReply(s, q, entries), w)
  {
    hide ApplySeed, Settle, Bootstrap, RouterQueries.QueriesOk, Answered, NeedsTopology;
    RouterQueries.SeedKeepsConnection(s, q, entries);
    NeedKept(s, ApplySeed(s, q, entries));
    SettleKeeps(ApplySeed(s, q, entries), q);
    SettleKeeps(BootstrapIfNeeded(s), q);
    NeedKept(s, BootstrapIfNeeded(s));
    SettleKeeps(s, q);
    if Live(s) {
      if s.epoch.BootstrapCurrent(q.gen) {
        SeedAnswers(s, q, entries, w);
        AppliedKeepsAnswer(s, ApplySeed(s, q, entries), q, w);
      } else if s.queryRun == Some(q.run) && s.epoch.LatestBootstrap(q.gen) {
        RouterQueries.SentInTheLog(s, q);
        RestartAnswers(s, q, w);
      } else {
        StaleBootstrapAnswers(s, q, w);
      }
    }
  }

  /** The need for topology is decided by the attachments and the suppression option. */
  lemma NeedKept(s: State, r: State)
    requires r.live == s.live && (r.marks.Some? <==> s.marks.Some?)
    ensures NeedsTopology(r) <==> NeedsTopology(s)
  {
  }

  lemma BootstrapErrorAnswers(s: State, q: Query, w: nat)
    requires RouterQueries.QueriesOk(s) && q in s.queries && q.kind.Boot? && AskInv(s, w)
    ensures AskInv(OnBootstrapError(s, q), w)
  {
    hide Settle, RouterQueries.QueriesOk, Answered;
    var s1 := s.(trace := s.trace + [BootstrapFailed(q.sentAt)]);
    SettleKeeps(s1, q);
    SettleKeeps(s, q);
    if Live(s) {
      if s.queryRun == Some(q.run) && s.epoch.LatestBootstrap(q.gen) {
        SameAnswer(s, s1, w);
        assert s1.trace[|s.trace|] == BootstrapFailed(q.sentAt);
        AppliedKeepsAnswer(s, s1, q, w);
      } else {
        StaleBootstrapAnswers(s, q, w);
      }
    }
  }

  lemma RefreshReplyAnswers(s: State, q: Query, entries: seq<Entry>, w: nat)
    requires RouterQueries.QueriesOk(s) && q in s.queries && q.kind.Refresh? && AskInv(s, w)
    ensures AskInv(OnRefreshReply(s, q, entries), w)
  {
    hide ApplyRefresh, Settle, RouterQueries.QueriesOk, Answered;
    RefreshKeepsConnection(s, q, entries, true);
    SettleKeeps(ApplyRefresh(s, q, entries), q);
    SettleKeeps(s, q);
    if Live(s) {
      if s.epoch.RefreshCurrent(q.kind.window, q.gen) {
        UpdateAnswers(s, q, entries, w);
        AppliedKeepsAnswer(s, ApplyRefresh(s, q, entries), q, w);
      } else {
        StaleRefreshAnswers(s, q, w);
      }
    }
  }

  lemma RefreshKeepsConnection(s: State, q: Query, entries: seq<Entry>, gone: bool)
    requires q.kind.Refresh?
    ensures var r := ApplyRefresh(s, q, entries);
            r.queryRun == s.queryRun && r.live == s.live && (Live(r) <==> Live(s))
    ensures var r := FailRefresh(s, q, gone); r.queryRun == s.queryRun && r.live == s.live && (Live(r) <==> Live(s))
  {
    hide Recompute, UpdateRows, UpdateLoses, RowsOutside;
  }

  /** A refresh that failed is taken up by a bootstrap, unless the window is gone or the connection another. */
  lemma FailureAnswers(s: State, q: Query, gone: bool, w: nat)
    requires RouterQueries.QueriesOk(s) && q in s.queries && q.kind.Refresh? && Live(s) && Answered(s, w)
    ensures Answered(Settle(FailRefresh(s, q, gone), q), w)
  {
    hide Recompute, RowsOutside, Settle, Bootstrap, RouterQueries.QueriesOk, Answered;
    var s1 := Recompute(s.(table := RowsOutside(s.table, q.kind.window)));
    var r := FailRefresh(s, q, gone);
    SameAnswer(s, s1, w);
    NeedKept(s, s1);
    RouterQueries.SentInTheLog(s, q);
    if s.queryRun != Some(q.run) {
      OtherConnectionAnswers(s1, q, w);
    } else if gone {
      SameAnswer(s1, r, w);
      assert r.trace[|s.trace|] == WindowGone(q.kind.window, q.sentAt);
      AppliedKeepsAnswer(s, r, q, w);
    } else {
      BootstrapAnswers(s1, w);
      AnswerSurvives(Bootstrap(s1), r, w, |s.log|);
      SettleKeepsAnswer(r, q, w, |s.log|);
    }
  }

  lemma OtherConnectionAnswers(s: State, q: Query, w: nat)
    requires s.queryRun != Some(q.run) && Answered(s, w)
    ensures Answered(Settle(s, q), w)
  {
    hide Settle, AnsweredAt;
    var at :| AnsweredAt(s, w, at);
    SettleKeepsAnswer(s, q, w, at);
  }

  lemma RefreshErrorAnswers(s: State, q: Query, gone: bool, w: nat)
    requires RouterQueries.QueriesOk(s) && q in s.queries && q.kind.Refresh? && AskInv(s, w)
    ensures AskInv(OnRefreshError(s, q, gone), w)
  {
    hide FailRefresh, ApplyRefresh, Settle, RouterQueries.QueriesOk, Answered;
    RefreshKeepsConnection(s, q, [], gone);
    SettleKeeps(FailRefresh(s, q, gone), q);
    SettleKeeps(s, q);
    if Live(s) {
      if s.epoch.RefreshCurrent(q.kind.window, q.gen) {
        FailureAnswers(s, q, gone, w);
      } else {
        StaleRefreshAnswers(s, q, w);
      }
    }
  }

  lemma SessionsAnswers(s: State, w: nat)
    requires AskInv(s, w)
    ensures AskInv(BootstrapIfNeeded(s), w)
  {
    hide Bootstrap, AnsweredAt;
    if s.queryRun.Some? { BootstrapAnswers(s, w); }
  }

  lemma StepAnswers(s: State, i: Input, w: nat)
    requires RouterQueries.QueriesOk(s) && AskInv(s, w) && Enabled(s, i)
    ensures AskInv(Step(s, i), w)
  {
    hide RouterQueries.QueriesOk, Answered, OnReady, OnMembership, OnLayout, OnAttach, OnDispose, OnOutput,
         OnBootstrapReply, OnBootstrapError, OnRefreshReply, OnRefreshError, Bootstrap, NeedsTopology;
    match i
    case Ready(run) => ReadyAnswers(s, run, w);
    case Lost(run) =>
    case Close =>
    case Attach(scope) => AttachAnswers(s, scope, w);
    case Dispose(a) => DisposeAnswers(s, a, w);
    case Output(pane, size) => OutputAnswers(s, pane, size, w);
    case MembershipChanged(v) => MembershipAnswers(s, v, w);
    case LayoutChanged(v, layout) => LayoutAnswers(s, v, layout, w);
    case SessionsChanged => SessionsAnswers(s, w);
    case BootstrapReply(q, entries) => BootstrapReplyAnswers(s, q, entries, w);
    case BootstrapError(q) => BootstrapErrorAnswers(s, q, w);
    case RefreshReply(q, entries) => RefreshReplyAnswers(s, q, entries, w);
    case RefreshError(q, gone) => RefreshErrorAnswers(s, q, gone, w);
  }

  // ---------------------------------------------------------------------------------------
  // What a step adds to the history
  // ---------------------------------------------------------------------------------------

  /** The history went on, and the window was asked for meanwhile. */
  ghost predicate AskedSince(s: State, r: State, w: nat) {
    exists j :: |s.log| <= j < |r.log| && Asks(r.log[j], w)
  }

  ghost predicate BootstrappedSince(s: State, r: State) {
    exists j :: |s.log| <= j < |r.log| && r.log[j].BootstrapStarted?
  }

  /** Nothing is forgotten, and what was not live before is live only by a bootstrap. */
  ghost predicate Onward(s: State, r: State) {
    s.log <= r.log && (Live(r) ==> (Live(s) && r.queryRun == s.queryRun) || BootstrappedSince(s, r))
  }

  /** Part of a step that changes neither the connection nor what needs topology. */
  lemma SameNeed(s: State, r: State)
    requires s.log <= r.log && r.queryRun == s.queryRun && (NeedsTopology(r) ==> NeedsTopology(s))
    ensures Onward(s, r)
  {
  }

  lemma BootstrapIsLogged(s: State)
    requires s.queryRun.Some?
    ensures var r := Bootstrap(s); s.log <= r.log && BootstrappedSince(s, r)
  {
    hide Apply;
    assert Bootstrap(s).log[|s.log|].BootstrapStarted?;
  }

  lemma NobodyToAsk(s: State)
    requires s.queryRun.None?
    ensures Bootstrap(s) == s
  {
  }

  lemma StaysBootstrapped(s: State, r: State, f: State)
    requires s.log <= r.log <= f.log
    ensures BootstrappedSince(s, r) ==> BootstrappedSince(s, f)
  {
    if BootstrappedSince(s, r) {
      var j :| |s.log| <= j < |r.log| && r.log[j].BootstrapStarted?;
      assert f.log[j] == r.log[j];
    }
  }

  lemma OnwardThen(s: State, r: State, f: State)
    requires Onward(s, r) && Onward(r, f)
    ensures Onward(s, f)
  {
    hide NeedsTopology;
    StaysBootstrapped(s, r, f);
    if BootstrappedSince(r, f) {
      var j :| |r.log| <= j < |f.log| && f.log[j].BootstrapStarted?;
    }
  }

  lemma ReadyIsOnward(s: State, run: nat)
    ensures Onward(s, OnReady(s, run))
  {
    hide Bootstrap;
    BootstrapIsLogged(s.(runCommand := Some(run), queryRun := Some(run), tmuxPaused := {}));
  }

  lemma AttachIsOnward(s: State, scope: Scope)
    ensures Onward(s, OnAttach(s, scope))
  {
    hide Bootstrap, Recompute;
    var s1 := s.(lastSeq := s.lastSeq + 1, live := s.live + [Att(s.lastSeq + 1, scope)]);
    if scope.Topological() {
      if s.queryRun.Some? { BootstrapIsLogged(s1); } else { NobodyToAsk(s1); }
    } else {
      assert forall b <- s1.live :: b.scope.Topological() ==> b in s.live;
    }
  }

  lemma SettlesOnward(s: State, r: State, q: Query)
    requires Onward(s, r)
    ensures Onward(s, Settle(r, q))
  {
    hide Settle, NeedsTopology;
    SettleKeeps(r, q);
  }

  lemma SeedIsOnward(s: State, q: Query, entries: seq<Entry>)
    ensures Onward(s, ApplySeed(s, q, entries))
  {
    hide UnplaceAllResult, SeedRows, UnplaceAll, Requery, Recompute, Apply;
    var s1 := PlaceReply(s, q, entries);
    RouterQueries.RequeryStartsQueries(s1, UnplaceAllResult(SeedRows(entries), s.epoch.layouts), []);
    RouterQueries.SeedKeepsConnection(s, q, entries);
    SameNeed(s, ApplySeed(s, q, entries));
  }

  lemma RefreshIsOnward(s: State, q: Query, entries: seq<Entry>, gone: bool)
    requires q.kind.Refresh?
    ensures Onward(s, ApplyRefresh(s, q, entries)) && Onward(s, FailRefresh(s, q, gone))
  {
    hide UpdateRows, UpdateLoses, Requery, Recompute, RowsOutside, Apply;
    RouterQueries.RequeryStartsQueries(UpdateReply(s, q, entries), Contradiction([], UpdateLoses(s.table, q.kind.window, entries)), []);
    RefreshKeepsConnection(s, q, entries, gone);
    SameNeed(s, ApplyRefresh(s, q, entries));
    SameNeed(s, FailRefresh(s, q, gone));
  }

  lemma SettledIsOnward(s: State, i: Input)
    requires Enabled(s, i) && (i.BootstrapReply? || i.BootstrapError? || i.RefreshReply? || i.RefreshError?)
    ensures Onward(s, Step(s, i))
  {
    hide ApplySeed, ApplyRefresh, FailRefresh, Settle, NeedsTopology, Onward;
    var q := i.query;
    SameNeed(s, s);
    SettlesOnward(s, s, q);
    match i
    case BootstrapReply(_, entries) =>
      SeedIsOnward(s, q, entries);
      SettlesOnward(s, ApplySeed(s, q, entries), q);
      NeedKept(s, BootstrapIfNeeded(s));
      SameNeed(s, BootstrapIfNeeded(s));
      SettlesOnward(s, BootstrapIfNeeded(s), q);
    case BootstrapError(_) =>
      var s1 := s.(trace := s.trace + [BootstrapFailed(q.sentAt)]);
      NeedKept(s, s1);
      SameNeed(s, s1);
      SettlesOnward(s, s1, q);
    case RefreshReply(_, entries) =>
      RefreshIsOnward(s, q, entries, true);
      SettlesOnward(s, ApplyRefresh(s, q, entries), q);
    case RefreshError(_, gone) =>
      RefreshIsOnward(s, q, [], gone);
      SettlesOnward(s, FailRefresh(s, q, gone), q);
  }

  lemma NotificationIsOnward(s: State, i: Input)
    requires i.MembershipChanged? || i.LayoutChanged? || i.SessionsChanged?
    ensures Onward(s, Step(s, i))
  {
    hide UnplaceRows, UnplaceResult, RowsOutside, Recompute, Requery, NeedsTopology;
    if i.LayoutChanged? && i.layout.Some? {
      var s1 := Call(s, LayoutRecorded(i.window, i.layout.value)).(table := UnplaceRows(s.table, i.window, i.layout.value));
      RouterQueries.RequeryStartsQueries(s1, UnplaceResult(s.table, i.window, i.layout.value), [i.window]);
    }
    NeedKept(s, Step(s, i));
    SameNeed(s, Step(s, i));
  }

  lemma StepIsOnward(s: State, i: Input)
    requires Enabled(s, i)
    ensures Onward(s, Step(s, i))
  {
    hide Onward, OnReady, OnMembership, OnLayout, OnAttach, OnBootstrapReply, OnBootstrapError, OnRefreshReply,
         OnRefreshError, Bootstrap, Recompute, LiveRecipients, Writes;
    match i
    case Ready(run) => ReadyIsOnward(s, run);
    case Attach(scope) => AttachIsOnward(s, scope);
    case Lost(run) => LossIsOnward(s, run);
    case Close => SameNeedOrDead(s, OnClose(s));
    case Dispose(a) => SameNeed(s, OnDispose(s, a));
    case Output(pane, size) => SameNeed(s, OnOutput(s, pane, size));
    case MembershipChanged(_) => NotificationIsOnward(s, i);
    case LayoutChanged(_, _) => NotificationIsOnward(s, i);
    case SessionsChanged => NotificationIsOnward(s, i);
    case BootstrapReply(_, _) => SettledIsOnward(s, i);
    case BootstrapError(_) => SettledIsOnward(s, i);
    case RefreshReply(_, _) => SettledIsOnward(s, i);
    case RefreshError(_, _) => SettledIsOnward(s, i);
  }

  lemma LossIsOnward(s: State, run: nat)
    ensures Onward(s, OnLost(s, run))
  {
  }

  lemma SameNeedOrDead(s: State, r: State)
    requires r.log == s.log && r.queryRun.None?
    ensures Onward(s, r)
  {
  }

  /** What each change adds to the history at once, on a live connection. */
  lemma ChangeIsTold(s: State, i: Input, w: nat)
    requires Enabled(s, i) && Concerns(i, w) && Live(s)
    ensures var r := Step(s, i);
            if i.SessionsChanged? then BootstrappedSince(s, r)
            else |s.log| < |r.log| && s.log <= r.log && Tells(r.log[|s.log|], w)
  {
    hide UnplaceRows, UnplaceResult, RowsOutside, Recompute, Requery, Bootstrap;
    if i.SessionsChanged? {
      BootstrapIsLogged(s);
    } else if i.LayoutChanged? && i.layout.Some? {
      var s1 := Call(s, LayoutRecorded(i.window, i.layout.value)).(table := UnplaceRows(s.table, i.window, i.layout.value));
      RouterQueries.RequeryStartsQueries(s1, UnplaceResult(s.table, i.window, i.layout.value), [i.window]);
      assert s1.log[|s.log|] == LayoutRecorded(w, i.layout.value);
    }
  }

  // ---------------------------------------------------------------------------------------
  // Over every run
  // ---------------------------------------------------------------------------------------

  lemma {:induction false} RunIsOnward(s: State, inputs: seq<Input>)
    requires CanRun(s, inputs)
    ensures Onward(s, RunFrom(s, inputs))
    decreases |inputs|
  {
    hide Onward, Step, Enabled;
    if inputs == [] {
      SameNeed(s, s);
    } else {
      StepIsOnward(s, inputs[0]);
      RunIsOnward(Step(s, inputs[0]), inputs[1..]);
      OnwardThen(s, Step(s, inputs[0]), RunFrom(Step(s, inputs[0]), inputs[1..]));
    }
  }

  lemma {:induction false} RunKeepsAnswers(s: State, inputs: seq<Input>, w: nat)
    requires RouterQueries.QueriesOk(s) && AskInv(s, w) && CanRun(s, inputs)
    ensures RouterQueries.QueriesOk(RunFrom(s, inputs)) && AskInv(RunFrom(s, inputs), w)
    decreases |inputs|
  {
    hide RouterQueries.QueriesOk, AskInv, Step, Enabled;
    if inputs != [] {
      RouterQueries.StepKeepsQueries(s, inputs[0]);
      StepAnswers(s, inputs[0], w);
      RunKeepsAnswers(Step(s, inputs[0]), inputs[1..], w);
    }
  }

  lemma ReachableAnswers(s: State, w: nat)
    requires Reachable(s)
    ensures RouterQueries.QueriesOk(s) && AskInv(s, w)
  {
    hide CanRun, RunFrom, AskInv, RouterQueries.QueriesOk;
    var suppression: bool, inputs :| CanRun(Initial(suppression), inputs) && s == RunFrom(Initial(suppression), inputs);
    InitiallyQuiet(suppression, w);
    RunKeepsAnswers(Initial(suppression), inputs, w);
  }

  lemma InitiallyQuiet(suppression: bool, w: nat)
    ensures RouterQueries.QueriesOk(Initial(suppression)) && AskInv(Initial(suppression), w)
  {
  }

  /**
    In every run, on a live connection that needs topology, the last word on every window is a query of that
    connection that is in flight, was applied, or was reported (for a refresh: found the window gone).
   */
  lemma LastAskIsAnswered(s: State, w: nat)
    requires Reachable(s) && s.queryRun.Some? && NeedsTopology(s)
    ensures exists at :: AnsweredAt(s, w, at)
  {
    ReachableAnswers(s, w);
  }

  predicate Concerns(i: Input, w: nat) {
    i == MembershipChanged(w) || (i.LayoutChanged? && i.window == w) || i.SessionsChanged?
  }

  /** Something about the window is in the history since. */
  ghost predicate NewsSince(s: State, f: State, w: nat) {
    exists j :: |s.log| <= j < |f.log| && (Asks(f.log[j], w) || Tells(f.log[j], w))
  }

  lemma ChangeIsNews(s: State, i: Input, after: seq<Input>, w: nat)
    requires Enabled(s, i) && CanRun(Step(s, i), after) && Concerns(i, w) && Live(RunFrom(Step(s, i), after))
    ensures var f := RunFrom(Step(s, i), after);
            NewsSince(s, f, w) && (i.SessionsChanged? ==> BootstrappedSince(s, f))
  {
    hide Step, Enabled, Live, Asks, Tells, CanRun, RunFrom, Concerns;
    var r, f := Step(s, i), RunFrom(Step(s, i), after);
    StepIsOnward(s, i);
    RunIsOnward(r, after);
    OnwardThen(s, r, f);
    StaysBootstrapped(s, r, f);
    if BootstrappedSince(s, f) {
      BootstrapIsNews(s, f, w);
    } else {
      ChangeIsTold(s, i, w);
      assert !i.SessionsChanged?;
      assert f.log[|s.log|] == r.log[|s.log|];
    }
  }

  lemma BootstrapIsNews(s: State, f: State, w: nat)
    requires BootstrappedSince(s, f)
    ensures NewsSince(s, f, w)
  {
    var j :| |s.log| <= j < |f.log| && f.log[j].BootstrapStarted?;
    assert Asks(f.log[j], w);
  }

  /**
    At any point of any run: when windows are added or closed, a layout arrives, or sessions change, then at every
    later point where the connection is live and something needs topology, the window was asked for since the
    change, and its last such query is in flight, applied, or reported. Sessions are taken up by a bootstrap.
   */
  lemma ChangeIsAsked(s: State, i: Input, after: seq<Input>, w: nat)
    requires Reachable(s) && Enabled(s, i) && CanRun(Step(s, i), after) && Concerns(i, w)
    requires var f := RunFrom(Step(s, i), after); f.queryRun.Some? && NeedsTopology(f)
    ensures var f := RunFrom(Step(s, i), after);
            && (exists at :: |s.log| <= at && AnsweredAt(f, w, at))
            && (i.SessionsChanged? ==> exists j :: |s.log| <= j < |f.log| && f.log[j].BootstrapStarted?)
  {
    hide Step, Enabled, Asks, Tells, CanRun, RunFrom, Concerns, RouterQueries.QueriesOk, Done, InFlight, NeedsTopology;
    var f := RunFrom(Step(s, i), after);
    ReachableAnswers(s, w);
    RouterQueries.StepKeepsQueries(s, i);
    StepAnswers(s, i, w);
    RunKeepsAnswers(Step(s, i), after, w);
    ChangeIsNews(s, i, after, w);
    var at :| AnsweredAt(f, w, at);
    var j :| |s.log| <= j < |f.log| && (Asks(f.log[j], w) || Tells(f.log[j], w));
    assert j <= at;
  }

  // ---------------------------------------------------------------------------------------
  // Rows taken out
  // ---------------------------------------------------------------------------------------

  lemma {:induction false} RefreshAllAsks(s: State, windows: seq<nat>, w: nat)
    requires s.queryRun.Some? && w in windows
    ensures AskedSince(s, RefreshAll(s, windows), w)
    decreases |windows|
  {
    hide Asks, Apply;
    var s1 := RefreshWindow(s, windows[0]);
    var r := RefreshAll(s1, windows[1..]);
    RouterQueries.RefreshAllStartsRefreshes(s1, windows[1..]);
    if windows[0] == w {
      assert r.log[|s.log|] == s1.log[|s.log|] == RefreshStarted(w);
      assert Asks(RefreshStarted(w), w) by { RefreshAsks(w); }
    } else {
      RefreshAllAsks(s1, windows[1..], w);
    }
  }

  lemma RefreshAsks(w: nat)
    ensures Asks(RefreshStarted(w), w)
  {
  }

  lemma RequeryAsks(s: State, c: Contradiction, windows: seq<nat>, w: nat)
    requires s.queryRun.Some? && (c.lostTrack || w in c.left || w in windows)
    ensures AskedSince(s, Requery(s, c, windows), w)
  {
    if c.lostTrack {
      assert Bootstrap(s).log[|s.log|].BootstrapStarted?;
    } else {
      AddAllHolds(c.left, windows, w);
      RefreshAllAsks(s, AddAll(c.left, windows), w);
    }
  }

  lemma AskedThen(s: State, s1: State, x: State, r: State, w: nat)
    requires |s.log| <= |s1.log| && AskedSince(s1, x, w) && x.log <= r.log
    ensures AskedSince(s, r, w)
  {
    hide Asks;
    var j :| |s1.log| <= j < |x.log| && Asks(x.log[j], w);
    assert r.log[j] == x.log[j];
  }

  lemma LayoutUnplacedIsAsked(s: State, v: nat, panes: seq<nat>, p: nat)
    requires Live(s) && p in s.table && p !in OnLayout(s, v, Some(panes)).table
    ensures AskedSince(s, OnLayout(s, v, Some(panes)), s.table[p].window)
  {
    hide Requery, Asks;
    var s1 := Call(s, LayoutRecorded(v, panes)).(table := UnplaceRows(s.table, v, panes));
    var c := UnplaceResult(s.table, v, panes);
    assert c.lostTrack || s.table[p].window in c.left;
    RequeryAsks(s1, c, [v], s.table[p].window);
    AskedThen(s, s1, Requery(s1, c, [v]), OnLayout(s, v, Some(panes)), s.table[p].window);
  }

  lemma RefreshUnplacedIsAsked(s: State, q: Query, entries: seq<Entry>, p: nat)
    requires Live(s) && q.kind.Refresh? && p in s.table && !s.table[p].floating
    requires p !in OnRefreshReply(s, q, entries).table
    ensures AskedSince(s, OnRefreshReply(s, q, entries), s.table[p].window)
  {
    hide Requery, Asks, UpdateRows, Recompute, Settle;
    SettleKeeps(s, q);
    SettleKeeps(ApplyRefresh(s, q, entries), q);
    assert s.epoch.RefreshCurrent(q.kind.window, q.gen);
    UpdateIsExact(s.table, q.kind.window, entries);
    var s1 := UpdateReply(s, q, entries);
    var c := Contradiction([], UpdateLoses(s.table, q.kind.window, entries));
    RequeryAsks(s1, c, [], s.table[p].window);
    AskedThen(s, s1, Requery(s1, c, []), OnRefreshReply(s, q, entries), s.table[p].window);
  }

  lemma FailureUnplacedIsAsked(s: State, q: Query, w: nat)
    requires Live(s) && q.kind.Refresh? && s.queryRun == Some(q.run) && s.epoch.RefreshCurrent(q.kind.window, q.gen)
    ensures AskedSince(s, OnRefreshError(s, q, false), w)
  {
    hide Recompute, RowsOutside, Settle, Bootstrap;
    var s1 := Recompute(s.(table := RowsOutside(s.table, q.kind.window)));
    NeedKept(s, s1);
    SettleKeeps(FailRefresh(s, q, false), q);
    BootstrapIsLogged(s1);
    var j :| |s1.log| <= j < |Bootstrap(s1).log| && Bootstrap(s1).log[j].BootstrapStarted?;
    assert Asks(OnRefreshError(s, q, false).log[j], w);
  }

  /**
    On a live connection that needs topology, a row that a change, a layout, a tiled pane's refresh, or a failed
    refresh takes out of the table is asked for again in the same step, through the window it was placed in.
   */
  lemma UnplacedIsAsked(s: State, i: Input, p: nat)
    requires Live(s) && Enabled(s, i) && p in s.table && p !in Step(s, i).table
    requires i.MembershipChanged? || i.LayoutChanged? || (i.RefreshReply? && !s.table[p].floating)
             || (i.RefreshError? && !i.windowGone && s.queryRun == Some(i.query.run))
    ensures AskedSince(s, Step(s, i), s.table[p].window)
  {
    hide OnLayout, OnMembership, OnRefreshReply, OnRefreshError, AskedSince, Live;
    match i
    case MembershipChanged(w) => MembershipUnplacedIsAsked(s, w, p);
    case LayoutChanged(w, layout) =>
      if layout.Some? {
        LayoutUnplacedIsAsked(s, w, layout.value, p);
      } else {
        UnparsedUnplacesNothing(s, w);
      }
    case RefreshReply(q, entries) => RefreshUnplacedIsAsked(s, q, entries, p);
    case RefreshError(q, gone) =>
      FailureIsCurrent(s, q, p);
      FailureUnplacedIsAsked(s, q, s.table[p].window);
  }

  lemma MembershipUnplacedIsAsked(s: State, w: nat, p: nat)
    requires Live(s) && p in s.table && p !in OnMembership(s, w).table
    ensures AskedSince(s, OnMembership(s, w), s.table[p].window)
  {
    hide Recompute;
    var s1 := Recompute(Call(s.(table := RowsOutside(s.table, w)), Invalidated(w)));
    NeedKept(s, s1);
    assert s.table[p].window == w;
    assert OnMembership(s, w).log[|s.log| + 1] == RefreshStarted(w);
  }

  lemma UnparsedUnplacesNothing(s: State, w: nat)
    ensures OnLayout(s, w, None).table == s.table
  {
  }

  lemma FailureIsCurrent(s: State, q: Query, p: nat)
    requires q.kind.Refresh? && p in s.table && p !in OnRefreshError(s, q, false).table
    ensures s.epoch.RefreshCurrent(q.kind.window, q.gen)
  {
    hide Settle, FailRefresh;
    SettleKeeps(s, q);
  }
}

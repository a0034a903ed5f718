/**
  What a placement is worth: layouts against seeded rows, attachments against placed panes,
  and pause state against interest.
 */
module RouterInterest {
  import opened Options
  import opened TopologyTable
  import opened TopologyEpoch
  import opened RouterSpec
  import RouterQueries

  // ---------------------------------------------------------------------------------------
  // Seeded rows and recorded layouts
  // ---------------------------------------------------------------------------------------

  lemma {:induction false} UnplaceAllAgrees(t: Table, layouts: seq<Layout>)
    ensures forall l <- layouts :: Agrees(UnplaceAll(t, layouts), l.window, l.panes)
  {
    if layouts != [] {
      var n := |layouts| - 1;
      var before := UnplaceAll(t, layouts[..n]);
      UnplaceAllAgrees(t, layouts[..n]);
      UnplaceIsExact(before, layouts[n].window, layouts[n].panes);
      assert layouts == layouts[..n] + [layouts[n]];
      forall l <- layouts[..n] ensures Agrees(UnplaceAll(t, layouts), l.window, l.panes) {
        UnplaceKeepsAgreement(before, layouts[n].window, layouts[n].panes, l.window, l.panes);
      }
    }
  }

  /** Once a current bootstrap applies, no row denies the last layout recorded for any window since it started. */
  lemma SeedFollowsLayouts(s: State, q: Query, entries: seq<Entry>, at: nat)
    requires Reachable(s) && q in s.queries && q.kind.Boot? && s.epoch.BootstrapCurrent(q.gen)
    requires at < |s.log| && s.log[at].LayoutRecorded? && Stands(s.log, at)
    ensures Agrees(OnBootstrapReply(s, q, entries).table, s.log[at].window, s.log[at].panes)
  {
    RouterQueries.ReachableQueryInv(s);
    LayoutsKeptIff(s.log, s.log[at].window, s.log[at].panes);
    assert Layout(s.log[at].window, s.log[at].panes) in s.epoch.layouts;
    UnplaceAllAgrees(SeedRows(entries), s.epoch.layouts);
  }

  // ---------------------------------------------------------------------------------------
  // Who admits a pane
  // ---------------------------------------------------------------------------------------

  /** The membership a scope stands for. */
  predicate Admits(scope: Scope, pane: nat, meta: Option<Placed>) {
    match scope
    case Server => true
    case Pane(id) => id == pane
    case Window(id) => meta.Some? && meta.value.window == id
    case Session(id) => meta.Some? && meta.value.session == id
  }

  /** Live output reaches exactly the attachments whose scope admits the pane. */
  lemma LiveRecipientsAreAdmitting(live: seq<Att>, pane: nat, meta: Option<Placed>, a: Att)
    ensures a in LiveRecipients(live, pane, meta) <==> a in live && Admits(a.scope, pane, meta)
  {
  }

  /** A pane is counted as admitted exactly when some attachment admits it. */
  lemma AdmittedIff(live: seq<Att>, t: Table, pane: nat)
    ensures AdmitCount(live, t, pane) > 0 <==> exists a <- live :: Admits(a.scope, pane, Placement(t, pane))
  {
    var meta := Placement(t, pane);
    if a :| a in live && Admits(a.scope, pane, meta) {
      assert a in Bucket(live, a.scope);
    }
    if AdmitCount(live, t, pane) > 0 {
      var scope :| Bucket(live, scope) != [] && Admits(scope, pane, meta);
      var a := Bucket(live, scope)[0];
      assert a in Bucket(live, scope);
    }
  }

  /** A held chunk whose pane a settle places is replayed to every attachment that admits it and is old enough. */
  lemma ReplayReaches(s: State, h: Held, a: Att)
    requires h.pane in s.table && a in s.live && a.num <= h.attachedBy
    requires a.scope.Topological() && Admits(a.scope, h.pane, Placement(s.table, h.pane))
    ensures Wrote(a, h.pane, h.chunk, true) in ReplayOne(s, h).trace
  {
    var to := UpTo(TopologyRecipients(s.live, Some(s.table[h.pane])), h.attachedBy);
    assert a in to;
    var k :| 0 <= k < |to| && to[k] == a;
    assert Writes(to, h.pane, h.chunk, true)[k] == Wrote(a, h.pane, h.chunk, true);
  }

  /** The same over a whole settle. */
  lemma {:induction false} SettleReaches(s: State, pending: seq<Held>, h: Held, a: Att)
    requires h in pending && h.pane in s.table && a in s.live && a.num <= h.attachedBy
    requires a.scope.Topological() && Admits(a.scope, h.pane, Placement(s.table, h.pane))
    ensures Wrote(a, h.pane, h.chunk, true) in ReplayAll(s, pending).trace
    decreases |pending|
  {
    var n := |pending| - 1;
    assert pending == pending[..n] + [pending[n]];
    if h in pending[..n] {
      SettleReaches(s, pending[..n], h, a);
    } else {
      ReplayReaches(ReplayAll(s, pending[..n]), h, a);
    }
  }

  // ---------------------------------------------------------------------------------------
  // What one step does to the marks
  // ---------------------------------------------------------------------------------------

  /** The inputs in whose step interest is recomputed. */
  predicate Recomputes(s: State, i: Input) {
    match i
    case Attach(_) => true
    case Dispose(_) => true
    case MembershipChanged(_) => true
    case BootstrapReply(q, _) => s.epoch.BootstrapCurrent(q.gen)
    case RefreshReply(q, _) => q.kind.Refresh? && s.epoch.RefreshCurrent(q.kind.window, q.gen)
    case RefreshError(q, _) => q.kind.Refresh? && s.epoch.RefreshCurrent(q.kind.window, q.gen)
    case _ => false
  }

  ghost predicate Within(t: Table, whole: Table) {
    forall p <- t :: p in whole && whole[p] == t[p]
  }

  ghost predicate SamePauses(s: State, r: State) {
    r.marks == s.marks && r.paused == s.paused && r.tmuxPaused == s.tmuxPaused
    && r.droppedPauses == s.droppedPauses && r.runCommand == s.runCommand
  }

  ghost predicate SameInterest(s: State, r: State) {
    SamePauses(s, r) && r.live == s.live && r.table == s.table
  }

  /** Marks, attachments and pauses are as before; the table may have lost rows. */
  ghost predicate Untouched(s: State, r: State) {
    SamePauses(s, r) && r.live == s.live && Within(r.table, s.table)
  }

  /** The marks are those of the present table and attachments, and exactly the panes that changed were announced. */
  ghost predicate Remarked(s: State, r: State)
    requires s.marks.Some?
  {
    var next := Marks(r.live, r.table);
    var idle := Changed(s.marks.value, next, false);
    var woken := Changed(s.marks.value, next, true);
    && r.runCommand == s.runCommand && r.marks == Some(next)
    && r.paused == s.paused - woken + idle
    && r.tmuxPaused == (if s.runCommand.Some? then s.tmuxPaused - woken + idle else s.tmuxPaused)
    && r.droppedPauses == (if s.runCommand.Some? then s.droppedPauses else s.droppedPauses + idle)
  }

  /** A recomputation, and steps after it that leave interest alone. */
  lemma RecomputeRemarks(s: State, x: State, r: State)
    requires s.marks.Some? && SamePauses(s, x) && SameInterest(Recompute(x), r)
    ensures Remarked(s, r)
  {
  }

  lemma QueriesTouchNothing(s: State, r: State)
    requires OnlyQueries(s, r)
    ensures SameInterest(s, r)
  {
  }

  lemma SettleTouchesNothing(s: State, q: Query)
    ensures SameInterest(s, Settle(s, q))
  {
  }

  lemma SeedRemarks(s: State, q: Query, entries: seq<Entry>)
    requires s.marks.Some? && s.epoch.BootstrapCurrent(q.gen)
    ensures Remarked(s, OnBootstrapReply(s, q, entries))
  {
    hide Recompute, Remarked, Settle, UnplaceAll, UnplaceAllResult, SeedRows;
    var rows := SeedRows(entries);
    var s1 := Call(s.(table := UnplaceAll(rows, s.epoch.layouts), writtenBy := map p <- rows :: q.sentAt,
                      trace := s.trace + [Seeded(q.sentAt)]), LayoutsTaken);
    var x := Requery(s1, UnplaceAllResult(rows, s.epoch.layouts), []);
    SettleTouchesNothing(Recompute(x), q);
    RecomputeRemarks(s, x, OnBootstrapReply(s, q, entries));
  }

  lemma RefreshRemarks(s: State, q: Query, entries: seq<Entry>, gone: bool)
    requires s.marks.Some? && q.kind.Refresh? && s.epoch.RefreshCurrent(q.kind.window, q.gen)
    ensures Remarked(s, OnRefreshReply(s, q, entries)) && Remarked(s, OnRefreshError(s, q, gone))
    ensures Within(OnRefreshError(s, q, gone).table, s.table)
  {
    hide Recompute, Remarked, Settle, UpdateRows, UpdateLoses, RowsOutside;
    var s1 := UpdateReply(s, q, entries);
    var x := Requery(s1, Contradiction([], UpdateLoses(s.table, q.kind.window, entries)), []);
    SettleTouchesNothing(Recompute(x), q);
    RecomputeRemarks(s, x, OnRefreshReply(s, q, entries));
    var y := s.(table := RowsOutside(s.table, q.kind.window));
    SettleTouchesNothing(FailRefresh(s, q, gone), q);
    RecomputeRemarks(s, y, OnRefreshError(s, q, gone));
    OutsideIsWithin(s.table, q.kind.window);
  }

  lemma OutsideIsWithin(t: Table, w: nat)
    ensures Within(RowsOutside(t, w), t) && Within(t, t)
  {
  }

  lemma StaleTouchesNothing(s: State, i: Input)
    requires Enabled(s, i) && !Recomputes(s, i)
    requires i.BootstrapReply? || i.BootstrapError? || i.RefreshReply? || i.RefreshError?
    ensures SameInterest(s, Step(s, i))
  {
    hide Settle, Bootstrap, NeedsTopology, ApplySeed, ApplyRefresh, FailRefresh;
    SettleTouchesNothing(s, i.query);
    SettleTouchesNothing(BootstrapIfNeeded(s), i.query);
    SettleTouchesNothing(s.(trace := s.trace + [BootstrapFailed(i.query.sentAt)]), i.query);
  }

  lemma MembershipRemarks(s: State, w: nat)
    requires s.marks.Some?
    ensures Remarked(s, OnMembership(s, w)) && Within(OnMembership(s, w).table, s.table)
  {
    hide Recompute, Remarked, RowsOutside;
    OutsideIsWithin(s.table, w);
    RecomputeRemarks(s, Call(s.(table := RowsOutside(s.table, w)), Invalidated(w)), OnMembership(s, w));
  }

  lemma AttachmentRemarks(s: State, scope: Scope, a: Att)
    requires s.marks.Some?
    ensures Remarked(s, OnAttach(s, scope)) && Remarked(s, OnDispose(s, a))
    ensures OnAttach(s, scope).table == OnDispose(s, a).table == s.table
  {
    hide Recompute, Remarked, Bootstrap;
    var s1 := s.(lastSeq := s.lastSeq + 1, live := s.live + [Att(s.lastSeq + 1, scope)]);
    RecomputeRemarks(s, if scope.Topological() then Bootstrap(s1) else s1, OnAttach(s, scope));
    var s2 := if a in s.live then s.(live := Detach(s.live, a), trace := s.trace + [Ended({a})]) else s;
    RecomputeRemarks(s, s2, OnDispose(s, a));
  }

  lemma LayoutTouchesNothing(s: State, w: nat, layout: Option<seq<nat>>)
    ensures Untouched(s, OnLayout(s, w, layout))
  {
    hide UnplaceResult;
  }

  /** What a new connection and the close do to interest: neither recomputes, and a new client starts with nothing paused. */
  ghost predicate Reconnects(s: State, i: Input, r: State)
    requires i.Ready? || i.Close?
  {
    match i
    case Ready(run) => SameInterest(s.(tmuxPaused := {}, runCommand := Some(run)), r)
    case Close => SameInterest(s.(paused := {}, runCommand := None, live := []), r)
  }

  lemma ConnectionMarks(s: State, i: Input)
    requires i.Ready? || i.Close?
    ensures Reconnects(s, i, Step(s, i))
  {
    hide NeedsTopology, Bootstrap;
  }

  /**
    Each step either recomputes the marks from what is then attached and placed, or leaves them and the pauses
    alone; only a new connection and the close touch pauses otherwise, and never the marks.
   */
  lemma StepMarks(s: State, i: Input)
    requires s.marks.Some? && Enabled(s, i)
    ensures if i.Ready? || i.Close? then Reconnects(s, i, Step(s, i))
            else if Recomputes(s, i) then Remarked(s, Step(s, i)) else Untouched(s, Step(s, i))
    ensures !i.BootstrapReply? && !i.RefreshReply? ==> Within(Step(s, i).table, s.table)
  {
    hide Remarked, Reconnects, OnBootstrapReply, OnBootstrapError, OnRefreshReply, OnRefreshError, OnMembership, OnLayout, OnAttach, OnDispose;
    OutsideIsWithin(s.table, 0);
    match i
    case Ready(run) => ConnectionMarks(s, i);
    case Close => ConnectionMarks(s, i);
    case Attach(scope) => AttachmentRemarks(s, scope, Att(0, Server));
    case Dispose(a) => AttachmentRemarks(s, Server, a);
    case MembershipChanged(w) => MembershipRemarks(s, w);
    case LayoutChanged(w, layout) => LayoutTouchesNothing(s, w, layout);
    case SessionsChanged => QueriesTouchNothing(s, BootstrapIfNeeded(s));
    case Output(pane, size) =>
    case Lost(run) =>
    case BootstrapReply(q, entries) => if Recomputes(s, i) { SeedRemarks(s, q, entries); } else { StaleTouchesNothing(s, i); }
    case BootstrapError(_) => StaleTouchesNothing(s, i);
    case RefreshReply(q, entries) => if Recomputes(s, i) { RefreshRemarks(s, q, entries, true); } else { StaleTouchesNothing(s, i); }
    case RefreshError(q, gone) => if Recomputes(s, i) { RefreshRemarks(s, q, [], gone); } else { StaleTouchesNothing(s, i); }
  }

  // ---------------------------------------------------------------------------------------
  // Idle suppression on one connection
  // ---------------------------------------------------------------------------------------

  /** Applying the delivered actions leaves each tracked pane paused exactly when it is marked idle. */
  ghost predicate Mirrored(s: State)
    requires s.marks.Some?
  {
    forall p <- s.marks.value :: p in s.tmuxPaused <==> !s.marks.value[p]
  }

  /** Nothing was placed, asked or paused before the first connection became ready. */
  ghost predicate QuietBeforeReady(s: State) {
    s.runCommand.None? ==> s.queryRun.None? && s.queries == {} && s.table == map[] && s.tmuxPaused == {}
  }

  /** `t` is the placement the marks were computed from. */
  ghost predicate SuppressionInv(s: State, t: Table) {
    && s.marks == Some(Marks(s.live, t)) && Within(s.table, t)
    && Mirrored(s)
    && QuietBeforeReady(s)
    && s.droppedPauses == {}
    && s.paused == s.tmuxPaused
  }

  lemma NothingIdleUnplaced(live: seq<Att>)
    ensures forall p <- Marks(live, map[]) :: Marks(live, map[])[p]
  {
    forall p <- PaneScoped(live) ensures AdmitCount(live, map[], p) > 0 {
      var a :| a in live && a.scope.Pane? && a.scope.id == p;
      assert a in Bucket(live, Pane(p));
    }
  }

  /** The inputs of one connection: ready once, neither dropped nor closed. */
  predicate OneConnection(s: State, i: Input) {
    !i.Close? && !i.Lost? && (i.Ready? ==> s.runCommand.None?)
  }

  lemma {:induction false} RefreshAllWaits(s: State, windows: seq<nat>)
    requires s.queryRun.None?
    ensures RefreshAll(s, windows) == s
    decreases |windows|
  {
    if windows != [] {
      RefreshAllWaits(s, windows[1..]);
    }
  }

  lemma StepIsQuiet(s: State, i: Input)
    requires QuietBeforeReady(s) && s.runCommand.None? && Enabled(s, i) && OneConnection(s, i) && !i.Ready?
    ensures QuietBeforeReady(Step(s, i))
  {
    hide Marks, AdmitCount;
    if i.LayoutChanged? && i.layout.Some? {
      var c := UnplaceResult(s.table, i.window, i.layout.value);
      RefreshAllWaits(Call(s, LayoutRecorded(i.window, i.layout.value)).(table := UnplaceRows(s.table, i.window, i.layout.value)),
                      AddAll(c.left, [i.window]));
    }
  }

  lemma StepKeepsSuppression(s: State, t: Table, i: Input)
    requires SuppressionInv(s, t) && Enabled(s, i) && OneConnection(s, i)
    ensures SuppressionInv(Step(s, i), if Recomputes(s, i) then Step(s, i).table else t)
  {
    hide Step, Enabled, Marks, AdmitCount;
    if i.Ready? {
      ReadyKeepsSuppression(s, t, i.run);
    } else {
      StepMarks(s, i);
      if s.runCommand.None? {
        StepIsQuiet(s, i);
        NothingIdleUnplaced(Step(s, i).live);
      }
    }
  }

  lemma ReadyKeepsSuppression(s: State, t: Table, run: nat)
    requires SuppressionInv(s, t) && s.runCommand.None?
    ensures SuppressionInv(Step(s, Ready(run)), t)
  {
    hide Marks, AdmitCount, NeedsTopology;
  }

  predicate OneConnectionRun(s: State, inputs: seq<Input>)
    requires CanRun(s, inputs)
    decreases |inputs|
  {
    inputs == [] || (OneConnection(s, inputs[0]) && OneConnectionRun(Step(s, inputs[0]), inputs[1..]))
  }

  /** The table as of the last recomputation of a run; `seen` as of the last one before it. */
  function TableSeen(s: State, inputs: seq<Input>, seen: Table): Table
    requires CanRun(s, inputs)
    decreases |inputs|
  {
    if inputs == [] then seen
    else
      var r := Step(s, inputs[0]);
      TableSeen(r, inputs[1..], if Recomputes(s, inputs[0]) then r.table else seen)
  }

  lemma {:induction false} RunKeepsSuppression(s: State, t: Table, inputs: seq<Input>)
    requires SuppressionInv(s, t) && CanRun(s, inputs) && OneConnectionRun(s, inputs)
    ensures SuppressionInv(RunFrom(s, inputs), TableSeen(s, inputs, t))
    decreases |inputs|
  {
    hide SuppressionInv, Step, Enabled, Recomputes;
    if inputs != [] {
      StepKeepsSuppression(s, t, inputs[0]);
      RunKeepsSuppression(Step(s, inputs[0]), if Recomputes(s, inputs[0]) then Step(s, inputs[0]).table else t, inputs[1..]);
    }
  }

  lemma SuppressionStarts()
    ensures SuppressionInv(Initial(true), map[])
  {
    assert Marks([], map[]) == map[];
  }

  /** Under placement `t`, exactly the tracked panes no attachment admits are paused. */
  ghost predicate PausedPer(s: State, t: Table)
    requires s.marks.Some?
  {
    && s.marks.value.Keys == t.Keys + PaneScoped(s.live)
    && forall p <- s.marks.value ::
         p in s.tmuxPaused <==> !exists a <- s.live :: Admits(a.scope, p, Placement(t, p))
  }

  lemma MarksArePauses(s: State, t: Table)
    requires SuppressionInv(s, t)
    ensures PausedPer(s, t)
  {
    forall p <- s.marks.value ensures p in s.tmuxPaused <==> !exists a <- s.live :: Admits(a.scope, p, Placement(t, p)) {
      AdmittedIff(s.live, t, p);
    }
  }

  /**
    On one connection, at every moment: a tracked pane is paused in tmux exactly when no
    attachment admits it under the table as of the last recomputation, which has since lost
    rows only; no pause was dropped before the connection was ready; and the suppressor
    remembers exactly the paused panes.
   */
  lemma PausedExactlyWhenIdle(inputs: seq<Input>)
    requires CanRun(Initial(true), inputs) && OneConnectionRun(Initial(true), inputs)
    ensures var s := RunFrom(Initial(true), inputs);
            var t := TableSeen(Initial(true), inputs, map[]);
            && s.marks.Some? && PausedPer(s, t) && Within(s.table, t)
            && s.droppedPauses == {} && s.paused == s.tmuxPaused
  {
    hide CanRun, OneConnectionRun, RunFrom, TableSeen, PausedPer, Marks, Within;
    SuppressionStarts();
    RunKeepsSuppression(Initial(true), map[], inputs);
    MarksArePauses(RunFrom(Initial(true), inputs), TableSeen(Initial(true), inputs, map[]));
  }

  /** On one connection, right after any step that recomputes, a tracked pane is paused exactly when no attachment admits it now. */
  lemma PausedExactlyWhenIdleNow(inputs: seq<Input>, i: Input)
    requires CanRun(Initial(true), inputs) && OneConnectionRun(Initial(true), inputs)
    requires var s := RunFrom(Initial(true), inputs); Enabled(s, i) && OneConnection(s, i) && Recomputes(s, i)
    ensures var r := Step(RunFrom(Initial(true), inputs), i);
            r.marks.Some? && PausedPer(r, r.table)
  {
    hide CanRun, OneConnectionRun, RunFrom, TableSeen, PausedPer, Marks, Step, Enabled, Recomputes, Within;
    SuppressionStarts();
    RunKeepsSuppression(Initial(true), map[], inputs);
    var s := RunFrom(Initial(true), inputs);
    StepKeepsSuppression(s, TableSeen(Initial(true), inputs, map[]), i);
    MarksArePauses(Step(s, i), Step(s, i).table);
  }

  // ---------------------------------------------------------------------------------------
  // Across a reconnect
  // ---------------------------------------------------------------------------------------

  predicate MarkedIdle(s: State, p: nat) {
    s.marks.Some? && p in s.marks.value && !s.marks.value[p]
  }

  /** Marked idle, yet running: nobody wants the pane's output and tmux sends it all the same. */
  predicate Unsuppressed(s: State, p: nat) {
    MarkedIdle(s, p) && p !in s.tmuxPaused
  }

  /** No tracked pane somebody wants is paused. */
  ghost predicate WantedRuns(s: State) {
    s.marks.Some? && forall p <- s.marks.value | s.marks.value[p] :: p !in s.tmuxPaused
  }

  /** Inputs after which the same control client is served. */
  predicate SameClient(inputs: seq<Input>) {
    forall i <- inputs :: !i.Ready? && !i.Close?
  }

  /** The pane is marked idle now and after every step. */
  predicate IdleThroughout(s: State, inputs: seq<Input>, p: nat)
    requires CanRun(s, inputs)
    decreases |inputs|
  {
    MarkedIdle(s, p) && (inputs == [] || IdleThroughout(Step(s, inputs[0]), inputs[1..], p))
  }

  /** A pause is sent only when a pane becomes idle, so a pane stays unsuppressed exactly while it stays idle. */
  lemma StepUnsuppressed(s: State, i: Input, p: nat)
    requires WantedRuns(s) && s.runCommand.Some? && Enabled(s, i) && !i.Ready? && !i.Close?
    ensures var r := Step(s, i);
            && WantedRuns(r) && r.runCommand.Some?
            && (Unsuppressed(r, p) <==> Unsuppressed(s, p) && MarkedIdle(r, p))
  {
    hide Step, Enabled, Marks, AdmitCount, Recomputes;
    StepMarks(s, i);
  }

  lemma {:induction false} RunUnsuppressed(s: State, inputs: seq<Input>, p: nat)
    requires WantedRuns(s) && s.runCommand.Some? && CanRun(s, inputs) && SameClient(inputs)
    ensures var r := RunFrom(s, inputs);
            WantedRuns(r) && (Unsuppressed(r, p) <==> p !in s.tmuxPaused && IdleThroughout(s, inputs, p))
    decreases |inputs|
  {
    hide Step, Enabled, WantedRuns;
    if inputs != [] {
      StepUnsuppressed(s, inputs[0], p);
      assert SameClient(inputs[1..]);
      RunUnsuppressed(Step(s, inputs[0]), inputs[1..], p);
    }
  }

  /** No client is there to place a pane: neither a reply nor a new connection. */
  predicate Disconnected(inputs: seq<Input>) {
    forall i <- inputs :: !i.Ready? && !i.Close? && !i.BootstrapReply? && !i.RefreshReply?
  }

  predicate AnyRecomputes(s: State, inputs: seq<Input>)
    requires CanRun(s, inputs)
    decreases |inputs|
  {
    inputs != [] && (Recomputes(s, inputs[0]) || AnyRecomputes(Step(s, inputs[0]), inputs[1..]))
  }

  /** While disconnected the table stays empty, so the first recomputation forgets every idle mark. */
  lemma {:induction false} DisconnectedMarks(s: State, inputs: seq<Input>, p: nat)
    requires s.marks.Some? && s.table == map[] && CanRun(s, inputs) && Disconnected(inputs)
    ensures var r := RunFrom(s, inputs);
            r.marks.Some? && (MarkedIdle(r, p) <==> MarkedIdle(s, p) && !AnyRecomputes(s, inputs))
    decreases |inputs|
  {
    hide Step, Enabled, Marks, AdmitCount, Recomputes;
    if inputs != [] {
      var r := Step(s, inputs[0]);
      assert inputs[0] in inputs;
      StepMarks(s, inputs[0]);
      NothingIdleUnplaced(r.live);
      assert r.table == map[];
      DisconnectedMarks(r, inputs[1..], p);
    }
  }

  /** A router with suppression keeps its marks through any run. */
  lemma {:induction false} RunKeepsFeature(s: State, inputs: seq<Input>)
    requires s.marks.Some? && CanRun(s, inputs)
    ensures RunFrom(s, inputs).marks.Some?
    decreases |inputs|
  {
    hide Step, Enabled, Marks, AdmitCount, Recomputes;
    if inputs != [] {
      StepMarks(s, inputs[0]);
      RunKeepsFeature(Step(s, inputs[0]), inputs[1..]);
    }
  }

  /** The state reached by a run, a drop, what happens while disconnected, and a new connection. */
  function Reconnected(before: seq<Input>, served: nat, gap: seq<Input>, run: nat): State
    requires CanReconnect(before, served, gap)
  {
    Step(RunFrom(Step(RunFrom(Initial(true), before), Lost(served)), gap), Ready(run))
  }

  predicate CanReconnect(before: seq<Input>, served: nat, gap: seq<Input>) {
    && CanRun(Initial(true), before)
    && var d := RunFrom(Initial(true), before);
       d.queryRun == Some(served) && CanRun(Step(d, Lost(served)), gap) && Disconnected(gap)
  }

  /**
    The pauses are not sent again after a reconnect. Over every run with a drop and a later
    connection, and at every moment of that connection: the panes that run although marked
    idle are exactly those marked idle when the old connection dropped, when nothing was
    recomputed before the new one was ready and they have stayed idle ever since.
   */
  lemma ReconnectUnsuppressedIff(before: seq<Input>, served: nat, gap: seq<Input>, run: nat, after: seq<Input>, p: nat)
    requires CanReconnect(before, served, gap)
    requires CanRun(Reconnected(before, served, gap, run), after) && SameClient(after)
    ensures var d := RunFrom(Initial(true), before);
            var n := Reconnected(before, served, gap, run);
            Unsuppressed(RunFrom(n, after), p) <==>
              MarkedIdle(d, p) && !AnyRecomputes(Step(d, Lost(served)), gap) && IdleThroughout(n, after, p)
  {
    hide RunFrom, CanRun, Step, Enabled, Recomputes, WantedRuns, IdleThroughout, AnyRecomputes, Initial;
    ReconnectedWanted(before, served, gap, run, p);
    var n := Reconnected(before, served, gap, run);
    RunUnsuppressed(n, after, p);
    IdleThroughoutNow(n, after, p);
  }

  lemma IdleThroughoutNow(s: State, inputs: seq<Input>, p: nat)
    requires CanRun(s, inputs)
    ensures IdleThroughout(s, inputs, p) ==> MarkedIdle(s, p)
  {
  }

  lemma ReconnectedWanted(before: seq<Input>, served: nat, gap: seq<Input>, run: nat, p: nat)
    requires CanReconnect(before, served, gap)
    ensures var d := RunFrom(Initial(true), before);
            var n := Reconnected(before, served, gap, run);
            && WantedRuns(n) && n.runCommand.Some? && n.tmuxPaused == {}
            && (MarkedIdle(n, p) <==> MarkedIdle(d, p) && !AnyRecomputes(Step(d, Lost(served)), gap))
  {
    hide RunFrom, CanRun, Step, Recomputes, AnyRecomputes;
    RunKeepsFeature(Initial(true), before);
    var d := RunFrom(Initial(true), before);
    LostEmpties(d, served);
    DisconnectedMarks(Step(d, Lost(served)), gap, p);
    ConnectionMarks(RunFrom(Step(d, Lost(served)), gap), Ready(run));
  }

  lemma LostEmpties(s: State, run: nat)
    requires s.queryRun == Some(run)
    ensures Step(s, Lost(run)).table == map[] && Step(s, Lost(run)).marks == s.marks
  {
  }

  /**
    So after a reconnect the paused panes are those marked idle exactly when, of the panes
    that were idle at the drop, none has stayed idle; or when anything was recomputed while
    disconnected.
   */
  lemma ReconnectMirrorsIff(before: seq<Input>, served: nat, gap: seq<Input>, run: nat, after: seq<Input>)
    requires CanReconnect(before, served, gap)
    requires CanRun(Reconnected(before, served, gap, run), after) && SameClient(after)
    ensures var d := RunFrom(Initial(true), before);
            var n := Reconnected(before, served, gap, run);
            var s := RunFrom(n, after);
            s.marks.Some? &&
            (Mirrored(s) <==> AnyRecomputes(Step(d, Lost(served)), gap) || forall p | MarkedIdle(d, p) :: !IdleThroughout(n, after, p))
  {
    hide RunFrom, CanRun, Step, Recomputes, IdleThroughout, AnyRecomputes, Initial, WantedRuns, Mirrored, MarkedIdle, Unsuppressed;
    var d := RunFrom(Initial(true), before);
    var n := Reconnected(before, served, gap, run);
    var s := RunFrom(n, after);
    ReconnectedWanted(before, served, gap, run, 0);
    RunUnsuppressed(n, after, 0);
    forall p: nat
      ensures Unsuppressed(s, p) <==> MarkedIdle(d, p) && !AnyRecomputes(Step(d, Lost(served)), gap) && IdleThroughout(n, after, p)
    {
      ReconnectUnsuppressedIff(before, served, gap, run, after, p);
    }
    MirroredIff(s);
  }

  lemma MirroredIff(s: State)
    requires WantedRuns(s)
    ensures s.marks.Some? && (Mirrored(s) <==> forall p :: !Unsuppressed(s, p))
  {
    if forall p :: !Unsuppressed(s, p) {
      forall p <- s.marks.value ensures p in s.tmuxPaused <==> !s.marks.value[p] {
        assert !Unsuppressed(s, p);
      }
    }
  }

  /** One pane, wanted by nobody. */
  const LONELY := [Entry(1, 1, 1, false)]

  /** The connection `run` is ready and its bootstrap, the `gen`th, answers. */
  function Served(run: nat, gen: nat, sentAt: nat): seq<Input> {
    [Ready(run), BootstrapReply(Query(Boot, run, gen, sentAt), LONELY)]
  }

  /** A bootstrap that places the pane: nobody watches, nothing is held. */
  lemma SeedLonely(s: State, q: Query)
    requires s.marks.Some? && s.runCommand.Some? && s.live == [] && s.held == [] && s.refusedBytes == 0 && s.epoch.layouts == []
    requires s.epoch.BootstrapCurrent(q.gen)
    ensures var r := OnBootstrapReply(s, q, LONELY);
            && 1 in r.table && r.marks == Some(map[1 := false])
            && r.tmuxPaused == (if MarkedIdle(s, 1) then s.tmuxPaused else s.tmuxPaused + {1})
            && r.live == [] && r.held == [] && r.refusedBytes == 0 && r.runCommand == s.runCommand && r.queryRun == s.queryRun
            && r.log == s.log + [LayoutsTaken] && r.epoch == s.epoch.(layouts := []) && r.queries == s.queries - {q}
  {
    hide Remarked, Recompute, Marks;
    var rows := SeedRows(LONELY);
    assert rows == map[1 := Placed(1, 1, false)];
    assert UnplaceAll(rows, []) == rows && UnplaceAllResult(rows, []) == Contradiction([], false) && AddAll([], []) == [];
    var r := OnBootstrapReply(s, q, LONELY);
    assert r.table == rows && r.live == [];
    SeedRemarks(s, q, LONELY);
    LonelyMarks(s, r);
  }

  lemma LonelyMarks(s: State, r: State)
    requires s.marks.Some? && s.runCommand.Some? && Remarked(s, r) && r.live == [] && r.table == map[1 := Placed(1, 1, false)]
    ensures r.marks == Some(map[1 := false])
    ensures r.tmuxPaused == if MarkedIdle(s, 1) then s.tmuxPaused else s.tmuxPaused + {1}
  {
    assert Marks(r.live, r.table) == map[1 := false];
  }

  /**
    A run that leaves an idle pane running: the first connection pauses it; the second places
    it again and finds it marked idle already.
   */
  lemma ReconnectLeavesIdlePaneRunning()
    ensures var before := Served(0, 1, 0);
            && CanReconnect(before, 0, [])
            && var d := RunFrom(Initial(true), before);
               var n := Reconnected(before, 0, [], 1);
               var after := Served(1, 2, 2)[1..];
               && MarkedIdle(d, 1) && 1 in d.tmuxPaused
               && CanRun(n, after)
               && var s := RunFrom(n, after); 1 in s.table && Unsuppressed(s, 1)
  {
    hide OnBootstrapReply, IdleThroughout, SeedRows, Marks;
    var a := Step(Initial(true), Ready(0));
    var q := Query(Boot, 0, 1, 0);
    SeedLonely(a, q);
    var d := Step(a, BootstrapReply(q, LONELY));
    var n := Step(Step(d, Lost(0)), Ready(1));
    var q2 := Query(Boot, 1, 2, 2);
    assert q2 in n.queries;
    SeedLonely(n, q2);
    assert Served(0, 1, 0)[1..] == [BootstrapReply(q, LONELY)] && Served(1, 2, 2)[1..] == [BootstrapReply(q2, LONELY)];
    RunOfOne(a, BootstrapReply(q, LONELY));
    RunOfOne(n, BootstrapReply(q2, LONELY));
  }

  lemma RunOfOne(s: State, i: Input)
    requires Enabled(s, i)
    ensures CanRun(s, [i]) && RunFrom(s, [i]) == Step(s, i)
  {
    assert [i][1..] == [];
  }
}

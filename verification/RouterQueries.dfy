/**
  Which replies the router applies, over every run.

  The main results are `NoResurrection` (no row outlives the last membership change of its
  window) and `NeverStarved` (whenever something needs topology on a live connection, the
  latest bootstrap is that connection's, and is in flight, has seeded, or was reported).
 */
module RouterQueries {
  import opened Options
  import opened TopologyTable
  import opened TopologyEpoch
  import opened RouterSpec

  // ---------------------------------------------------------------------------------------
  // Outstanding queries
  // ---------------------------------------------------------------------------------------

  /** `q` was sent by the call at `q.sentAt` and carries the token that call drew. */
  ghost predicate SentBy(log: seq<Event>, q: Query) {
    && q.sentAt < |log|
    && log[q.sentAt] == (match q.kind case Boot => BootstrapStarted(q.run) case Refresh(w) => RefreshStarted(w))
    && q.gen == GenAt(log, q.sentAt)
  }

  ghost predicate QueriesOk(s: State) {
    && s.epoch == After(s.log)
    && s.inFlight == |s.queries|
    && forall q <- s.queries :: SentBy(s.log, q)
  }

  lemma CallKeepsQueries(s: State, ev: Event)
    requires QueriesOk(s)
    ensures QueriesOk(Call(s, ev))
  {
    hide SentBy, Apply;
    AfterOne(s.log, ev);
    forall q <- s.queries ensures SentBy(s.log + [ev], q) {
      StillSentBy(s.log, ev, q);
    }
  }

  lemma StillSentBy(log: seq<Event>, ev: Event, q: Query)
    requires SentBy(log, q)
    ensures SentBy(log + [ev], q)
  {
    assert (log + [ev])[..q.sentAt + 1] == log[..q.sentAt + 1];
  }

  lemma SendKeepsQueries(s: State, kind: QueryKind, run: nat)
    requires QueriesOk(s)
    ensures var ev := match kind case Boot => BootstrapStarted(run) case Refresh(w) => RefreshStarted(w);
            var s1 := Call(s, ev);
            var gen := if kind.Boot? then s1.epoch.bootstrapGen else s1.epoch.windowEpoch;
            QueriesOk(Send(s1, kind, run, gen, |s.log|))
  {
    var ev := match kind case Boot => BootstrapStarted(run) case Refresh(w) => RefreshStarted(w);
    CallKeepsQueries(s, ev);
    var s1 := Call(s, ev);
    assert s1.log[..|s.log| + 1] == s1.log;
    var gen := if kind.Boot? then s1.epoch.bootstrapGen else s1.epoch.windowEpoch;
    assert Query(kind, run, gen, |s.log|) !in s.queries;
  }

  lemma BootstrapKeepsQueries(s: State)
    requires QueriesOk(s)
    ensures QueriesOk(Bootstrap(s))
  {
    if s.queryRun.Some? {
      SendKeepsQueries(s, Boot, s.queryRun.value);
    }
  }

  lemma RefreshKeepsQueries(s: State, w: nat)
    requires QueriesOk(s)
    ensures QueriesOk(RefreshWindow(s, w))
  {
    if s.queryRun.Some? {
      SendKeepsQueries(s, Refresh(w), s.queryRun.value);
    }
  }

  lemma {:induction false} RefreshAllKeepsQueries(s: State, windows: seq<nat>)
    requires QueriesOk(s)
    ensures QueriesOk(RefreshAll(s, windows))
    decreases |windows|
  {
    if windows != [] {
      RefreshKeepsQueries(s, windows[0]);
      RefreshAllKeepsQueries(RefreshWindow(s, windows[0]), windows[1..]);
    }
  }

  lemma RequeryKeepsQueries(s: State, c: Contradiction, windows: seq<nat>)
    requires QueriesOk(s)
    ensures QueriesOk(Requery(s, c, windows))
  {
    BootstrapKeepsQueries(s);
    RefreshAllKeepsQueries(s, AddAll(c.left, windows));
  }

  lemma SettleKeepsQueries(s: State, q: Query)
    requires QueriesOk(s) && q in s.queries
    ensures QueriesOk(Settle(s, q))
    ensures Settle(s, q).log == s.log && Settle(s, q).queries == s.queries - {q}
  {
  }

  lemma MembershipKeepsQueries(s: State, w: nat)
    requires QueriesOk(s)
    ensures QueriesOk(OnMembership(s, w))
  {
    var s0 := s.(table := RowsOutside(s.table, w));
    CallKeepsQueries(s0, Invalidated(w));
    RefreshKeepsQueries(Recompute(Call(s0, Invalidated(w))), w);
  }

  lemma LayoutKeepsQueries(s: State, w: nat, layout: Option<seq<nat>>)
    requires QueriesOk(s)
    ensures QueriesOk(OnLayout(s, w, layout))
  {
    if layout.Some? {
      CallKeepsQueries(s, LayoutRecorded(w, layout.value));
      RequeryKeepsQueries(Call(s, LayoutRecorded(w, layout.value)).(table := UnplaceRows(s.table, w, layout.value)),
                          UnplaceResult(s.table, w, layout.value), [w]);
    } else {
      CallKeepsQueries(s, LayoutForgotten(w));
      RefreshKeepsQueries(Call(s, LayoutForgotten(w)), w);
    }
  }

  lemma AttachKeepsQueries(s: State, scope: Scope)
    requires QueriesOk(s)
    ensures QueriesOk(OnAttach(s, scope))
  {
    BootstrapKeepsQueries(s.(lastSeq := s.lastSeq + 1, live := s.live + [Att(s.lastSeq + 1, scope)]));
  }

  lemma BootstrapReplyKeepsQueries(s: State, q: Query, entries: seq<Entry>)
    requires QueriesOk(s) && q in s.queries
    ensures QueriesOk(OnBootstrapReply(s, q, entries))
  {
    hide QueriesOk, ApplySeed, Settle, NeedsTopology, Bootstrap;
    if s.epoch.BootstrapCurrent(q.gen) {
      SeedKeepsQueries(s, q, entries);
      ReplyKeepsOutstanding(s, q, entries);
      SettleKeepsQueries(ApplySeed(s, q, entries), q);
    } else {
      BootstrapKeepsQueries(s);
      BootstrapKeepsOutstanding(s, q);
      SettleKeepsQueries(BootstrapIfNeeded(s), q);
      SettleKeepsQueries(s, q);
    }
  }

  lemma BootstrapKeepsOutstanding(s: State, q: Query)
    requires q in s.queries
    ensures q in Bootstrap(s).queries
  {
  }

  lemma RefreshReplyKeepsQueries(s: State, q: Query, entries: seq<Entry>)
    requires QueriesOk(s) && q in s.queries && q.kind.Refresh?
    ensures QueriesOk(OnRefreshReply(s, q, entries))
  {
    if s.epoch.RefreshCurrent(q.kind.window, q.gen) {
      var s1 := UpdateReply(s, q, entries);
      var c := Contradiction([], UpdateLoses(s.table, q.kind.window, entries));
      RequeryKeepsQueries(s1, c, []);
      RequeryKeepsOutstanding(s1, c, [], q);
      SettleKeepsQueries(ApplyRefresh(s, q, entries), q);
    } else {
      SettleKeepsQueries(s, q);
    }
  }

  lemma FailKeepsQueries(s: State, q: Query, gone: bool)
    requires QueriesOk(s) && q in s.queries && q.kind.Refresh?
    ensures QueriesOk(FailRefresh(s, q, gone)) && q in FailRefresh(s, q, gone).queries
  {
    BootstrapKeepsQueries(Recompute(s.(table := RowsOutside(s.table, q.kind.window))));
  }

  lemma RefreshErrorKeepsQueries(s: State, q: Query, gone: bool)
    requires QueriesOk(s) && q in s.queries && q.kind.Refresh?
    ensures QueriesOk(OnRefreshError(s, q, gone))
  {
    if s.epoch.RefreshCurrent(q.kind.window, q.gen) {
      FailKeepsQueries(s, q, gone);
      SettleKeepsQueries(FailRefresh(s, q, gone), q);
    } else {
      SettleKeepsQueries(s, q);
    }
  }

  lemma SameQueries(s: State, r: State)
    requires QueriesOk(s)
    requires r.epoch == s.epoch && r.log == s.log && r.inFlight == s.inFlight && r.queries == s.queries
    ensures QueriesOk(r)
  {
  }

  lemma ConnectionKeepsQueries(s: State, i: Input)
    requires QueriesOk(s) && (i.Ready? || i.Lost? || i.Close? || i.Dispose? || i.Output? || i.SessionsChanged?)
    requires Enabled(s, i)
    ensures QueriesOk(Step(s, i))
  {
    hide QueriesOk, Recompute, NeedsTopology, Writes, LiveRecipients;
    match i
    case Ready(run) =>
      var s1 := s.(runCommand := Some(run), queryRun := Some(run), tmuxPaused := {});
      SameQueries(s, s1);
      BootstrapKeepsQueries(s1);
    case SessionsChanged => BootstrapKeepsQueries(s);
    case Lost(run) => SameQueries(s, OnLost(s, run));
    case Close => SameQueries(s, OnClose(s));
    case Dispose(a) => SameQueries(s, OnDispose(s, a));
    case Output(pane, size) => SameQueries(s, OnOutput(s, pane, size));
  }

  lemma StepKeepsQueries(s: State, i: Input)
    requires QueriesOk(s) && Enabled(s, i)
    ensures QueriesOk(Step(s, i))
  {
    hide QueriesOk, OnMembership, OnLayout, OnAttach, OnBootstrapReply, OnBootstrapError, OnRefreshReply, OnRefreshError;
    match i
    case Attach(scope) => AttachKeepsQueries(s, scope);
    case MembershipChanged(w) => MembershipKeepsQueries(s, w);
    case LayoutChanged(w, layout) => LayoutKeepsQueries(s, w, layout);
    case BootstrapReply(q, entries) => BootstrapReplyKeepsQueries(s, q, entries);
    case BootstrapError(q) => BootstrapErrorKeepsQueries(s, q);
    case RefreshReply(q, entries) => RefreshReplyKeepsQueries(s, q, entries);
    case RefreshError(q, gone) => RefreshErrorKeepsQueries(s, q, gone);
    case _ => ConnectionKeepsQueries(s, i);
  }

  lemma BootstrapErrorKeepsQueries(s: State, q: Query)
    requires QueriesOk(s) && q in s.queries
    ensures QueriesOk(OnBootstrapError(s, q))
  {
    SettleKeepsQueries(s.(trace := s.trace + [BootstrapFailed(q.sentAt)]), q);
    SettleKeepsQueries(s, q);
  }

  lemma SeedKeepsQueries(s: State, q: Query, entries: seq<Entry>)
    requires QueriesOk(s)
    ensures QueriesOk(ApplySeed(s, q, entries))
  {
    var rows := SeedRows(entries);
    var s0 := s.(table := UnplaceAll(rows, s.epoch.layouts), writtenBy := map p <- rows :: q.sentAt,
                 trace := s.trace + [Seeded(q.sentAt)]);
    CallKeepsQueries(s0, LayoutsTaken);
    RequeryKeepsQueries(Call(s0, LayoutsTaken), UnplaceAllResult(rows, s.epoch.layouts), []);
  }

  lemma {:induction false} RefreshAllKeepsOutstanding(s: State, windows: seq<nat>, q: Query)
    requires q in s.queries
    ensures q in RefreshAll(s, windows).queries
    decreases |windows|
  {
    if windows != [] {
      RefreshAllKeepsOutstanding(RefreshWindow(s, windows[0]), windows[1..], q);
    }
  }

  lemma RequeryKeepsOutstanding(s: State, c: Contradiction, windows: seq<nat>, q: Query)
    requires q in s.queries
    ensures q in Requery(s, c, windows).queries
  {
    RefreshAllKeepsOutstanding(s, AddAll(c.left, windows), q);
  }

  lemma ReplyKeepsOutstanding(s: State, q: Query, entries: seq<Entry>)
    requires q in s.queries
    ensures q in ApplySeed(s, q, entries).queries
  {
    var rows := SeedRows(entries);
    var s0 := s.(table := UnplaceAll(rows, s.epoch.layouts), writtenBy := map p <- rows :: q.sentAt,
                 trace := s.trace + [Seeded(q.sentAt)]);
    RequeryKeepsOutstanding(Call(s0, LayoutsTaken), UnplaceAllResult(rows, s.epoch.layouts), [], q);
  }

  // ---------------------------------------------------------------------------------------
  // No resurrection
  // ---------------------------------------------------------------------------------------

  /** The row's query was sent after the last add or close of the window it names. */
  ghost predicate WrittenSince(log: seq<Event>, at: nat, window: nat) {
    && at < |log|
    && (log[at].BootstrapStarted? || log[at] == RefreshStarted(window))
    && forall j | at < j < |log| :: log[j] != Invalidated(window)
  }

  ghost predicate RowsOk(s: State) {
    forall p <- s.table :: p in s.writtenBy && WrittenSince(s.log, s.writtenBy[p], s.table[p].window)
  }

  lemma {:induction false} RefreshAllStartsRefreshes(s: State, windows: seq<nat>)
    ensures var r := RefreshAll(s, windows);
            s.log <= r.log && forall j | |s.log| <= j < |r.log| :: r.log[j].RefreshStarted?
    decreases |windows|
  {
    if windows != [] {
      RefreshAllStartsRefreshes(RefreshWindow(s, windows[0]), windows[1..]);
    }
  }

  lemma RequeryStartsQueries(s: State, c: Contradiction, windows: seq<nat>)
    ensures var r := Requery(s, c, windows);
            s.log <= r.log
            && forall j | |s.log| <= j < |r.log| :: r.log[j].RefreshStarted? || r.log[j].BootstrapStarted?
  {
    RefreshAllStartsRefreshes(s, AddAll(c.left, windows));
  }

  /** Later calls that invalidate no remaining window keep every row. */
  lemma RowsSurvive(s: State, r: State)
    requires RowsOk(s)
    requires s.log <= r.log && r.writtenBy == s.writtenBy
    requires forall p <- r.table :: p in s.table && r.table[p] == s.table[p]
    requires forall j, p <- r.table | |s.log| <= j < |r.log| :: r.log[j] != Invalidated(r.table[p].window)
    ensures RowsOk(r)
  {
  }

  lemma {:induction false} UnplaceAllShrinks(t: Table, layouts: seq<Layout>)
    ensures forall p <- UnplaceAll(t, layouts) :: p in t && UnplaceAll(t, layouts)[p] == t[p]
  {
    if layouts != [] {
      UnplaceAllShrinks(t, layouts[..|layouts| - 1]);
    }
  }

  /** Every row of the reply was written by a query sent after the last change of its window. */
  lemma PlacedRowsOk(s: State, q: Query, entries: seq<Entry>)
    requires QueriesOk(s) && q in s.queries && q.kind.Boot? && s.epoch.BootstrapCurrent(q.gen)
    ensures RowsOk(PlaceReply(s, q, entries))
  {
    hide SeedRows, UnplaceAll;
    BootstrapCurrentIff(s.log, q.sentAt);
    var rows := SeedRows(entries);
    UnplaceAllShrinks(rows, s.epoch.layouts);
    var r := PlaceReply(s, q, entries);
    forall p <- r.table ensures p in r.writtenBy && WrittenSince(r.log, r.writtenBy[p], r.table[p].window) {
      assert p in rows;
    }
  }

  lemma SeedKeepsRows(s: State, q: Query, entries: seq<Entry>)
    requires QueriesOk(s) && q in s.queries && q.kind.Boot? && s.epoch.BootstrapCurrent(q.gen)
    ensures RowsOk(ApplySeed(s, q, entries))
  {
    hide QueriesOk, PlaceReply, UnplaceAllResult, SeedRows, Requery;
    PlacedRowsOk(s, q, entries);
    var s1 := PlaceReply(s, q, entries);
    var c := UnplaceAllResult(SeedRows(entries), s.epoch.layouts);
    RequeryStartsQueries(s1, c, []);
    RowsSurvive(s1, Requery(s1, c, []));
    RowsSurvive(Requery(s1, c, []), ApplySeed(s, q, entries));
  }

  lemma UpdateKeepsRows(s: State, at: nat, w: nat, entries: seq<Entry>)
    requires RowsOk(s) && WrittenSince(s.log, at, w)
    ensures RowsOk(s.(table := UpdateRows(s.table, w, entries), writtenBy := s.writtenBy + map p <- PanesOf(entries) :: at))
  {
    UpdateIsExact(s.table, w, entries);
    var s1 := s.(table := UpdateRows(s.table, w, entries), writtenBy := s.writtenBy + map p <- PanesOf(entries) :: at);
    forall p <- s1.table ensures p in s1.writtenBy && WrittenSince(s1.log, s1.writtenBy[p], s1.table[p].window) {
      if p !in PanesOf(entries) {
        assert s1.writtenBy[p] == s.writtenBy[p];
      }
    }
  }

  lemma CurrentRefreshIsSince(s: State, q: Query)
    requires QueriesOk(s) && q in s.queries && q.kind.Refresh? && s.epoch.RefreshCurrent(q.kind.window, q.gen)
    ensures WrittenSince(s.log, q.sentAt, q.kind.window)
  {
    RefreshCurrentIff(s.log, q.sentAt);
  }

  lemma RefreshKeepsRows(s: State, q: Query, entries: seq<Entry>)
    requires QueriesOk(s) && RowsOk(s)
    requires q in s.queries && q.kind.Refresh? && s.epoch.RefreshCurrent(q.kind.window, q.gen)
    ensures RowsOk(ApplyRefresh(s, q, entries))
  {
    hide QueriesOk, RowsOk, UpdateRows, UpdateLoses, WrittenSince, Recompute;
    var w := q.kind.window;
    CurrentRefreshIsSince(s, q);
    UpdateKeepsRows(s, q.sentAt, w, entries);
    var s1 := UpdateReply(s, q, entries);
    SameRows(s.(table := s1.table, writtenBy := s1.writtenBy), s1);
    var c := Contradiction([], UpdateLoses(s.table, w, entries));
    RequeryStartsQueries(s1, c, []);
    RowsSurvive(s1, Requery(s1, c, []));
    SameRows(Requery(s1, c, []), ApplyRefresh(s, q, entries));
  }

  lemma SameRows(s: State, r: State)
    requires RowsOk(s) && r.table == s.table && r.log == s.log && r.writtenBy == s.writtenBy
    ensures RowsOk(r)
  {
  }

  lemma MembershipKeepsRows(s: State, w: nat)
    requires RowsOk(s)
    ensures RowsOk(OnMembership(s, w))
  {
    var s0 := s.(table := RowsOutside(s.table, w));
    RowsSurvive(s, Call(s0, Invalidated(w)));
    var s1 := Recompute(Call(s0, Invalidated(w)));
    RowsSurvive(s1, RefreshWindow(s1, w));
  }

  lemma LayoutKeepsRows(s: State, w: nat, layout: Option<seq<nat>>)
    requires RowsOk(s)
    ensures RowsOk(OnLayout(s, w, layout))
  {
    if layout.Some? {
      var s1 := Call(s, LayoutRecorded(w, layout.value)).(table := UnplaceRows(s.table, w, layout.value));
      RowsSurvive(s, s1);
      RequeryStartsQueries(s1, UnplaceResult(s.table, w, layout.value), [w]);
      RowsSurvive(s1, Requery(s1, UnplaceResult(s.table, w, layout.value), [w]));
    } else {
      RowsSurvive(s, RefreshWindow(Call(s, LayoutForgotten(w)), w));
    }
  }

  lemma FailKeepsRows(s: State, q: Query, gone: bool)
    requires RowsOk(s) && q.kind.Refresh?
    ensures RowsOk(FailRefresh(s, q, gone))
  {
    var s1 := Recompute(s.(table := RowsOutside(s.table, q.kind.window)));
    RowsSurvive(s, s1);
    RowsSurvive(s1, BootstrapIfNeeded(s1));
  }

  lemma SettleKeepsRows(s: State, q: Query)
    requires RowsOk(s)
    ensures RowsOk(Settle(s, q))
  {
  }

  lemma AttachKeepsRows(s: State, scope: Scope)
    requires RowsOk(s)
    ensures RowsOk(OnAttach(s, scope))
  {
    var s1 := s.(lastSeq := s.lastSeq + 1, live := s.live + [Att(s.lastSeq + 1, scope)]);
    RowsSurvive(s1, Bootstrap(s1));
  }

  lemma SettledKeepsRows(s: State, i: Input)
    requires QueriesOk(s) && RowsOk(s) && Enabled(s, i)
    requires i.BootstrapReply? || i.BootstrapError? || i.RefreshReply? || i.RefreshError?
    ensures RowsOk(Step(s, i))
  {
    hide QueriesOk, RowsOk, ApplySeed, ApplyRefresh, FailRefresh, Settle, NeedsTopology, Recompute;
    var q := i.query;
    SettleKeepsRows(s, q);
    match i
    case BootstrapReply(_, entries) =>
      if s.epoch.BootstrapCurrent(q.gen) {
        SeedKeepsRows(s, q, entries);
        SettleKeepsRows(ApplySeed(s, q, entries), q);
      } else {
        RowsSurvive(s, BootstrapIfNeeded(s));
        SettleKeepsRows(BootstrapIfNeeded(s), q);
      }
    case BootstrapError(_) =>
      SameRows(s, s.(trace := s.trace + [BootstrapFailed(q.sentAt)]));
      SettleKeepsRows(s.(trace := s.trace + [BootstrapFailed(q.sentAt)]), q);
    case RefreshReply(_, entries) =>
      if s.epoch.RefreshCurrent(q.kind.window, q.gen) {
        RefreshKeepsRows(s, q, entries);
        SettleKeepsRows(ApplyRefresh(s, q, entries), q);
      }
    case RefreshError(_, gone) =>
      FailKeepsRows(s, q, gone);
      SettleKeepsRows(FailRefresh(s, q, gone), q);
  }

  lemma StepKeepsRows(s: State, i: Input)
    requires QueriesOk(s) && RowsOk(s) && Enabled(s, i)
    ensures RowsOk(Step(s, i))
  {
    hide QueriesOk, RowsOk, OnMembership, OnLayout, OnAttach, Recompute, NeedsTopology, Writes, LiveRecipients,
         OnBootstrapReply, OnBootstrapError, OnRefreshReply, OnRefreshError;
    match i
    case Ready(run) => RowsSurvive(s, OnReady(s, run));
    case Attach(scope) => AttachKeepsRows(s, scope);
    case MembershipChanged(w) => MembershipKeepsRows(s, w);
    case LayoutChanged(w, layout) => LayoutKeepsRows(s, w, layout);
    case SessionsChanged => RowsSurvive(s, BootstrapIfNeeded(s));
    case Lost(run) => RowsAfterLoss(s, run);
    case Close => SameRows(s, OnClose(s));
    case Dispose(a) => SameRows(s, OnDispose(s, a));
    case Output(pane, size) => SameRows(s, OnOutput(s, pane, size));
    case _ => SettledKeepsRows(s, i);
  }

  lemma RowsAfterLoss(s: State, run: nat)
    requires RowsOk(s)
    ensures RowsOk(OnLost(s, run))
  {
  }

  // ---------------------------------------------------------------------------------------
  // No silent starvation
  // ---------------------------------------------------------------------------------------

  ghost predicate Accounted(s: State, at: nat) {
    || (exists q <- s.queries :: q.kind.Boot? && q.sentAt == at)
    || Seeded(at) in s.trace
    || BootstrapFailed(at) in s.trace
  }

  ghost predicate CoveredAt(s: State, at: nat) {
    && at < |s.log|
    && s.queryRun.Some? && s.log[at] == BootstrapStarted(s.queryRun.value)
    && !StartedAfter(s.log, at)
    && Accounted(s, at)
  }

  /** The latest bootstrap is the live connection's, and is in flight, has seeded, or was reported. */
  ghost predicate Covered(s: State) {
    exists at :: CoveredAt(s, at)
  }

  ghost predicate NotStarved(s: State) {
    s.queryRun.Some? && NeedsTopology(s) ==> Covered(s)
  }

  lemma BootstrapCovers(s: State)
    requires s.queryRun.Some?
    ensures Covered(Bootstrap(s))
  {
    BootstrapCoversAtEnd(s);
  }

  /** Later calls that start no bootstrap and forget no outcome keep the coverage. */
  lemma CoverageSurvives(s: State, r: State)
    requires Covered(s)
    requires s.log <= r.log && s.queries <= r.queries && r.queryRun == s.queryRun && s.trace <= r.trace
    requires forall j | |s.log| <= j < |r.log| :: !r.log[j].BootstrapStarted?
    ensures Covered(r)
  {
    var at :| CoveredAt(s, at);
    assert CoveredAt(r, at);
  }

  lemma {:induction false} RefreshAllAddsQueries(s: State, windows: seq<nat>)
    ensures s.queries <= RefreshAll(s, windows).queries
    decreases |windows|
  {
    if windows != [] {
      RefreshAllAddsQueries(RefreshWindow(s, windows[0]), windows[1..]);
    }
  }

  lemma RequeryKeepsCoverage(s: State, c: Contradiction, windows: seq<nat>)
    requires s.queryRun.Some? ==> Covered(s)
    ensures s.queryRun.Some? ==> Covered(Requery(s, c, windows))
  {
    if s.queryRun.Some? {
      if c.lostTrack {
        BootstrapCovers(s);
      } else {
        var all := AddAll(c.left, windows);
        RefreshAllStartsRefreshes(s, all);
        RefreshAllAddsQueries(s, all);
        CoverageSurvives(s, RefreshAll(s, all));
      }
    }
  }

  /** Settling a query keeps the coverage unless it was the latest bootstrap with no outcome yet. */
  lemma SettleKeepsCoverage(s: State, q: Query, at: nat)
    requires CoveredAt(s, at)
    requires q.kind.Refresh? || q.sentAt != at || Seeded(at) in s.trace || BootstrapFailed(at) in s.trace
    ensures Covered(Settle(s, q))
  {
    var r := Settle(s, q);
    assert s.trace <= r.trace;
    if q0 :| q0 in s.queries && q0.kind.Boot? && q0.sentAt == at {
      if q0 != q {
        assert q0 in r.queries;
      }
    }
    assert CoveredAt(r, at);
  }

  /** With the counters agreeing, a test on a bootstrap token speaks about its place in the history. */
  lemma LatestMeansNoneStarted(s: State, q: Query)
    requires QueriesOk(s) && q in s.queries && q.kind.Boot?
    ensures s.epoch.LatestBootstrap(q.gen) <==> !StartedAfter(s.log, q.sentAt)
  {
    LatestBootstrapIff(s.log, q.sentAt);
  }

  lemma SeedKeepsCoverage(s: State, q: Query, entries: seq<Entry>)
    requires QueriesOk(s) && q in s.queries && q.kind.Boot?
    requires s.queryRun.Some? ==> Covered(s)
    ensures var r := ApplySeed(s, q, entries);
            r.queryRun.Some? ==> exists at :: CoveredAt(r, at) && (at != q.sentAt || Seeded(at) in r.trace)
  {
    var rows := SeedRows(entries);
    var s0 := s.(table := UnplaceAll(rows, s.epoch.layouts), writtenBy := map p <- rows :: q.sentAt,
                 trace := s.trace + [Seeded(q.sentAt)]);
    var s1 := Call(s0, LayoutsTaken);
    var c := UnplaceAllResult(rows, s.epoch.layouts);
    var r := ApplySeed(s, q, entries);
    if s.queryRun.Some? {
      CoverageSurvives(s, s1);
      RequeryKeepsCoverage(s1, c, []);
      var at :| CoveredAt(Requery(s1, c, []), at);
      assert CoveredAt(r, at);
      assert Seeded(q.sentAt) in s1.trace;
      assert r.trace == s1.trace;
    }
  }

  lemma BootstrapCoversAtEnd(s: State)
    requires s.queryRun.Some?
    ensures CoveredAt(Bootstrap(s), |s.log|)
  {
    var r := Bootstrap(s);
    var q := Query(Boot, s.queryRun.value, Apply(s.epoch, BootstrapStarted(s.queryRun.value)).bootstrapGen, |s.log|);
    assert q in r.queries;
  }

  lemma RestartNotStarved(s: State, q: Query)
    requires s.queryRun.Some? && q.sentAt < |s.log|
    ensures Covered(Settle(Bootstrap(s), q))
  {
    hide Settle, Bootstrap, CoveredAt;
    BootstrapCoversAtEnd(s);
    SettleKeepsCoverage(Bootstrap(s), q, |s.log|);
  }

  lemma StaleReplyNotStarved(s: State, q: Query)
    requires QueriesOk(s) && Covered(s) && q in s.queries && q.kind.Boot?
    requires !(s.queryRun == Some(q.run) && s.epoch.LatestBootstrap(q.gen))
    ensures Covered(Settle(s, q))
  {
    var at :| CoveredAt(s, at);
    LatestMeansNoneStarted(s, q);
    SettleKeepsCoverage(s, q, at);
  }

  lemma SeedNotStarved(s: State, q: Query, entries: seq<Entry>)
    requires QueriesOk(s) && Covered(s) && s.queryRun.Some? && q in s.queries && q.kind.Boot?
    ensures Covered(Settle(ApplySeed(s, q, entries), q))
  {
    hide ApplySeed, Settle;
    var r := ApplySeed(s, q, entries);
    SeedKeepsConnection(s, q, entries);
    SeedKeepsCoverage(s, q, entries);
    var at :| CoveredAt(r, at) && (at != q.sentAt || Seeded(at) in r.trace);
    SettleKeepsCoverage(r, q, at);
  }

  lemma SeedKeepsConnection(s: State, q: Query, entries: seq<Entry>)
    ensures var r := ApplySeed(s, q, entries);
            r.queryRun == s.queryRun && r.live == s.live && (r.marks.Some? <==> s.marks.Some?)
  {
    hide Recompute, UnplaceAll, UnplaceAllResult, SeedRows;
  }

  lemma SettleKeepsConnection(s: State, q: Query)
    ensures var r := Settle(s, q);
            r.queryRun == s.queryRun && r.live == s.live && r.marks == s.marks
  {
  }

  lemma SentInTheLog(s: State, q: Query)
    requires QueriesOk(s) && q in s.queries
    ensures q.sentAt < |s.log|
  {
  }

  lemma BootstrapReplyNotStarved(s: State, q: Query, entries: seq<Entry>)
    requires QueriesOk(s) && NotStarved(s) && q in s.queries && q.kind.Boot?
    ensures NotStarved(OnBootstrapReply(s, q, entries))
  {
    hide ApplySeed, Settle, QueriesOk, Covered;
    SeedKeepsConnection(s, q, entries);
    SettleKeepsConnection(ApplySeed(s, q, entries), q);
    SettleKeepsConnection(BootstrapIfNeeded(s), q);
    SettleKeepsConnection(s, q);
    if s.queryRun.Some? && NeedsTopology(s) {
      if s.epoch.BootstrapCurrent(q.gen) {
        SeedNotStarved(s, q, entries);
      } else if s.queryRun == Some(q.run) && s.epoch.LatestBootstrap(q.gen) {
        SentInTheLog(s, q);
        RestartNotStarved(s, q);
      } else {
        StaleReplyNotStarved(s, q);
      }
    }
  }

  lemma BootstrapErrorNotStarved(s: State, q: Query)
    requires QueriesOk(s) && NotStarved(s) && q in s.queries && q.kind.Boot?
    ensures NotStarved(OnBootstrapError(s, q))
  {
    if s.queryRun.Some? && NeedsTopology(s) {
      var at :| CoveredAt(s, at);
      LatestMeansNoneStarted(s, q);
      var s1 := s.(trace := s.trace + [BootstrapFailed(q.sentAt)]);
      assert CoveredAt(s1, at);
      if s.queryRun == Some(q.run) && s.epoch.LatestBootstrap(q.gen) {
        SettleKeepsCoverage(s1, q, at);
      } else {
        SettleKeepsCoverage(s, q, at);
      }
    }
  }

  lemma RefreshReplyNotStarved(s: State, q: Query, entries: seq<Entry>)
    requires NotStarved(s) && q.kind.Refresh?
    ensures NotStarved(OnRefreshReply(s, q, entries))
  {
    if s.queryRun.Some? && NeedsTopology(s) {
      if s.epoch.RefreshCurrent(q.kind.window, q.gen) {
        var s1 := UpdateReply(s, q, entries);
        var c := Contradiction([], UpdateLoses(s.table, q.kind.window, entries));
        CoverageSurvives(s, s1);
        RequeryKeepsCoverage(s1, c, []);
        CoverageSurvives(Requery(s1, c, []), ApplyRefresh(s, q, entries));
        var at :| CoveredAt(ApplyRefresh(s, q, entries), at);
        SettleKeepsCoverage(ApplyRefresh(s, q, entries), q, at);
      } else {
        var at :| CoveredAt(s, at);
        SettleKeepsCoverage(s, q, at);
      }
    }
  }

  lemma RefreshErrorNotStarved(s: State, q: Query, gone: bool)
    requires NotStarved(s) && q.kind.Refresh?
    ensures NotStarved(OnRefreshError(s, q, gone))
  {
    if s.queryRun.Some? && NeedsTopology(s) {
      var at :| CoveredAt(s, at);
      if s.epoch.RefreshCurrent(q.kind.window, q.gen) {
        var s1 := Recompute(s.(table := RowsOutside(s.table, q.kind.window)));
        CoverageSurvives(s, s1);
        BootstrapCovers(s1);
        var r := FailRefresh(s, q, gone);
        CoverageSurvives(if s.queryRun == Some(q.run) && !gone then BootstrapIfNeeded(s1) else s1, r);
        var at' :| CoveredAt(r, at');
        SettleKeepsCoverage(r, q, at');
      } else {
        SettleKeepsCoverage(s, q, at);
      }
    }
  }

  lemma MembershipNotStarved(s: State, w: nat)
    requires NotStarved(s)
    ensures NotStarved(OnMembership(s, w))
  {
    hide RowsOutside, Marks;
    if s.queryRun.Some? && NeedsTopology(s) {
      CoverageSurvives(s, OnMembership(s, w));
    }
  }

  lemma LayoutNotStarved(s: State, w: nat, layout: Option<seq<nat>>)
    requires NotStarved(s)
    ensures NotStarved(OnLayout(s, w, layout))
  {
    hide UnplaceRows, UnplaceResult;
    if s.queryRun.Some? && NeedsTopology(s) {
      if layout.Some? {
        var s1 := Call(s, LayoutRecorded(w, layout.value)).(table := UnplaceRows(s.table, w, layout.value));
        CoverageSurvives(s, s1);
        hide Covered, Requery;
        RequeryKeepsCoverage(s1, UnplaceResult(s.table, w, layout.value), [w]);
      } else {
        CoverageSurvives(s, OnLayout(s, w, layout));
      }
    }
  }

  lemma NotificationNotStarved(s: State, i: Input)
    requires NotStarved(s) && (i.MembershipChanged? || i.LayoutChanged?)
    ensures NotStarved(Step(s, i))
  {
    hide NotStarved, OnMembership, OnLayout;
    match i
    case MembershipChanged(w) => MembershipNotStarved(s, w);
    case LayoutChanged(w, layout) => LayoutNotStarved(s, w, layout);
  }

  lemma ConnectionNotStarved(s: State, i: Input)
    requires NotStarved(s) && Enabled(s, i)
    requires i.Ready? || i.Lost? || i.Close? || i.Attach? || i.Dispose? || i.Output? || i.SessionsChanged?
    ensures NotStarved(Step(s, i))
  {
    hide Recompute, OnMembership, OnLayout, OnAttach, OnBootstrapReply, OnRefreshReply, OnRefreshError, CoveredAt,
         Marks, Writes, Bucket;
    match i
    case Ready(run) =>
      BootstrapCovers(s.(runCommand := Some(run), queryRun := Some(run), tmuxPaused := {}));
    case Attach(scope) =>
      AttachNotStarved(s, scope);
    case SessionsChanged =>
      if s.queryRun.Some? {
        BootstrapCovers(s);
      }
    case Dispose(a) =>
      if s.queryRun.Some? && NeedsTopology(s) {
        CoverageSurvives(s, OnDispose(s, a));
      }
    case Output(pane, size) =>
      if s.queryRun.Some? && NeedsTopology(s) {
        CoverageSurvives(s, OnOutput(s, pane, size));
      }
    case _ =>
  }

  lemma AttachNotStarved(s: State, scope: Scope)
    requires NotStarved(s)
    ensures NotStarved(OnAttach(s, scope))
  {
    var a := Att(s.lastSeq + 1, scope);
    var s1 := s.(lastSeq := s.lastSeq + 1, live := s.live + [a]);
    if s.queryRun.Some? {
      if scope.Topological() {
        BootstrapCovers(s1);
        CoverageSurvives(Bootstrap(s1), OnAttach(s, scope));
      } else {
        assert forall b <- s1.live :: b.scope.Topological() ==> b in s.live;
        if NeedsTopology(s1) {
          CoverageSurvives(s, OnAttach(s, scope));
        }
      }
    }
  }

  lemma StepNotStarved(s: State, i: Input)
    requires QueriesOk(s) && NotStarved(s) && Enabled(s, i)
    ensures NotStarved(Step(s, i))
  {
    hide NotStarved, OnReady, OnLost, OnClose, OnMembership, OnLayout, OnAttach, OnDispose, OnOutput,
         OnBootstrapReply, OnBootstrapError, OnRefreshReply, OnRefreshError;
    match i
    case BootstrapReply(q, entries) => BootstrapReplyNotStarved(s, q, entries);
    case BootstrapError(q) => BootstrapErrorNotStarved(s, q);
    case RefreshReply(q, entries) => RefreshReplyNotStarved(s, q, entries);
    case RefreshError(q, gone) => RefreshErrorNotStarved(s, q, gone);
    case MembershipChanged(_) => NotificationNotStarved(s, i);
    case LayoutChanged(_, _) => NotificationNotStarved(s, i);
    case _ => ConnectionNotStarved(s, i);
  }

  // ---------------------------------------------------------------------------------------
  // Over every run
  // ---------------------------------------------------------------------------------------

  ghost predicate QueryInv(s: State) {
    QueriesOk(s) && RowsOk(s) && NotStarved(s)
  }

  lemma {:induction false} RunKeepsQueryInv(s: State, inputs: seq<Input>)
    requires QueryInv(s) && CanRun(s, inputs)
    ensures QueryInv(RunFrom(s, inputs))
    decreases |inputs|
  {
    if inputs != [] {
      StepKeepsQueries(s, inputs[0]);
      StepKeepsRows(s, inputs[0]);
      StepNotStarved(s, inputs[0]);
      RunKeepsQueryInv(Step(s, inputs[0]), inputs[1..]);
    }
  }

  lemma ReachableQueryInv(s: State)
    requires Reachable(s)
    ensures QueryInv(s)
  {
    var suppression: bool, inputs :| CanRun(Initial(suppression), inputs) && s == RunFrom(Initial(suppression), inputs);
    RunKeepsQueryInv(Initial(suppression), inputs);
  }

  /** In every run, a row placing a pane in `w` was written by a query sent after the last add or close of `w`. */
  lemma NoResurrection(s: State, p: nat)
    requires Reachable(s) && p in s.table
    ensures p in s.writtenBy && WrittenSince(s.log, s.writtenBy[p], s.table[p].window)
  {
    ReachableQueryInv(s);
  }

  /** In every run, whatever needs topology on a live connection has an accounted-for bootstrap of that connection. */
  lemma NeverStarved(s: State)
    requires Reachable(s) && s.queryRun.Some? && NeedsTopology(s)
    ensures exists at :: CoveredAt(s, at)
  {
    ReachableQueryInv(s);
  }

  /** In every run, a query's reply is applied exactly when no superseding call followed its start. */
  lemma AppliedIffNotSuperseded(s: State, q: Query)
    requires Reachable(s) && q in s.queries
    ensures match q.kind
            case Boot =>
              s.epoch.BootstrapCurrent(q.gen)
              <==> forall j | q.sentAt < j < |s.log| :: !SupersedesBootstrap(s.log[j])
            case Refresh(w) =>
              s.epoch.RefreshCurrent(w, q.gen)
              <==> forall j | q.sentAt < j < |s.log| :: !SupersedesRefresh(s.log[j], w)
  {
    ReachableQueryInv(s);
    if q.kind.Boot? {
      BootstrapCurrentIff(s.log, q.sentAt);
    } else {
      RefreshCurrentIff(s.log, q.sentAt);
    }
  }
}

/**
  Where every pane is placed after each step, said apart from the table operations: by the
  history, the reply's lines, and the layouts still standing.
 */
module RouterPlaces {
  import opened Options
  import opened TopologyTable
  import opened TopologyEpoch
  import opened RouterSpec
  import RouterQueries
  import RouterRefresh

  // ---------------------------------------------------------------------------------------
  // The reference
  // ---------------------------------------------------------------------------------------

  /** The reply's last line about the pane. */
  function LastLine(entries: seq<Entry>, p: nat): Option<Entry> {
    if entries == [] then None
    else
      var n := |entries| - 1;
      if entries[n].pane == p then Some(entries[n]) else LastLine(entries[..n], p)
  }

  /** A layout denies a tiled pane of its window it omits, and a pane it lists that is placed elsewhere. */
  predicate Denies(w: nat, panes: seq<nat>, p: nat, row: Placed) {
    if row.window == w then !row.floating && p !in panes else p in panes
  }

  /** A layout recorded in the history, and not overridden since, denies the row. */
  ghost predicate DeniedBy(log: seq<Event>, p: nat, row: Placed, at: nat) {
    at < |log| && log[at].LayoutRecorded? && Stands(log, at) && Denies(log[at].window, log[at].panes, p, row)
  }

  ghost predicate Denied(log: seq<Event>, p: nat, row: Placed) {
    exists at :: DeniedBy(log, p, row, at)
  }

  /** Since the query was sent, a bootstrap was started, or an add or close of what it covers reported, or the window asked for again. */
  ghost predicate Superseded(log: seq<Event>, q: Query) {
    exists j :: q.sentAt < j < |log|
      && (log[j].BootstrapStarted?
          || match q.kind
             case Boot => log[j].Invalidated?
             case Refresh(w) => log[j] == Invalidated(w) || log[j] == RefreshStarted(w))
  }

  /** Where the reply puts the pane. */
  ghost function PlacedByReply(log: seq<Event>, entries: seq<Entry>, p: nat): Option<Placed> {
    var e := LastLine(entries, p);
    if e.None? then None
    else
      var row := Placed(e.value.session, e.value.window, e.value.floating);
      if Denied(log, p, row) then None else Some(row)
  }

  function Outside(before: Option<Placed>, w: nat): Option<Placed> {
    if before.Some? && before.value.window == w then None else before
  }

  /** Where the pane is after the step, given where it was. */
  ghost function PlacedAfter(s: State, i: Input, p: nat): Option<Placed> {
    var before := Placement(s.table, p);
    match i
    case Lost(run) => if s.queryRun == Some(run) then None else before
    case MembershipChanged(w) => Outside(before, w)
    case LayoutChanged(w, layout) =>
      if NeedsTopology(s) && layout.Some? && before.Some? && Denies(w, layout.value, p, before.value) then None else before
    case BootstrapReply(q, entries) =>
      if Superseded(s.log, q) then before else PlacedByReply(s.log, entries, p)
    case RefreshReply(q, entries) =>
      if Superseded(s.log, q) || q.kind.Boot? then before
      else
        var e := LastLine(entries, p);
        if e.Some? then Some(Placed(e.value.session, q.kind.window, e.value.floating)) else Outside(before, q.kind.window)
    case RefreshError(q, _) => if Superseded(s.log, q) || q.kind.Boot? then before else Outside(before, q.kind.window)
    case _ => before
  }

  // ---------------------------------------------------------------------------------------
  // The table operations, pane by pane
  // ---------------------------------------------------------------------------------------

  lemma {:induction false} WrittenRow(t: Table, entries: seq<Entry>, p: nat)
    ensures var e := LastLine(entries, p);
            Placement(WriteRows(t, entries), p)
            == if e.None? then Placement(t, p) else Some(Placed(e.value.session, e.value.window, e.value.floating))
  {
    if entries != [] {
      WrittenRow(t, entries[..|entries| - 1], p);
    }
  }

  lemma {:induction false} RelocatedLine(entries: seq<Entry>, w: nat, p: nat)
    ensures var e, f := LastLine(entries, p), LastLine(Relocate(entries, w), p);
            if e.None? then f.None? else f == Some(e.value.(window := w))
  {
    var r := Relocate(entries, w);
    if entries != [] {
      var n := |entries| - 1;
      RelocatedLine(entries[..n], w, p);
      assert r[..n] == Relocate(entries[..n], w);
    }
  }

  lemma {:induction false} ListedLine(entries: seq<Entry>, p: nat)
    ensures LastLine(entries, p).Some? <==> p in PanesOf(entries)
  {
    if entries != [] {
      var n := |entries| - 1;
      ListedLine(entries[..n], p);
      assert entries == entries[..n] + [entries[n]];
    }
  }

  lemma UpdatedRow(t: Table, w: nat, entries: seq<Entry>, p: nat)
    ensures var e := LastLine(entries, p);
            Placement(UpdateRows(t, w, entries), p)
            == if e.Some? then Some(Placed(e.value.session, w, e.value.floating)) else Outside(Placement(t, p), w)
  {
    hide WriteRows, Relocate;
    var kept: Table := map x <- t | !Gone(t, w, PanesOf(entries), x) :: t[x];
    WrittenRow(kept, Relocate(entries, w), p);
    RelocatedLine(entries, w, p);
    ListedLine(entries, p);
  }

  lemma {:induction false} UnplacedRow(t: Table, layouts: seq<Layout>, p: nat)
    ensures var u := UnplaceAll(t, layouts);
            && (p in u ==> p in t && u[p] == t[p])
            && (p in t ==> (p in u <==> forall l <- layouts :: !Denies(l.window, l.panes, p, t[p])))
  {
    if layouts != [] {
      var n := |layouts| - 1;
      assert layouts == layouts[..n] + [layouts[n]];
      UnplacedRow(t, layouts[..n], p);
    }
  }

  // ---------------------------------------------------------------------------------------
  // Each step
  // ---------------------------------------------------------------------------------------

  lemma CurrentIff(s: State, q: Query)
    requires RouterQueries.QueriesOk(s) && q in s.queries
    ensures Superseded(s.log, q)
            <==> match q.kind case Boot => !s.epoch.BootstrapCurrent(q.gen) case Refresh(w) => !s.epoch.RefreshCurrent(w, q.gen)
  {
    if q.kind.Boot? {
      BootstrapCurrentIff(s.log, q.sentAt);
    } else {
      RefreshCurrentIff(s.log, q.sentAt);
    }
  }

  /** The layouts kept deny a row exactly when a standing one in the history does. */
  lemma KeptLayoutsDeny(s: State, p: nat, row: Placed)
    requires s.epoch == After(s.log)
    ensures Denied(s.log, p, row) <==> exists l <- s.epoch.layouts :: Denies(l.window, l.panes, p, row)
  {
    hide Stands, Denies, After;
    if Denied(s.log, p, row) {
      var at: nat :| DeniedBy(s.log, p, row, at);
      LayoutsKeptIff(s.log, s.log[at].window, s.log[at].panes);
      assert Layout(s.log[at].window, s.log[at].panes) in s.epoch.layouts;
    }
    if l :| l in s.epoch.layouts && Denies(l.window, l.panes, p, row) {
      assert l == Layout(l.window, l.panes);
      LayoutsKeptIff(s.log, l.window, l.panes);
      var at :| 0 <= at < |s.log| && s.log[at] == LayoutRecorded(l.window, l.panes) && Stands(s.log, at);
      assert DeniedBy(s.log, p, row, at);
    }
  }

  lemma SettleKeepsTable(s: State, q: Query)
    ensures Settle(s, q).table == s.table
  {
  }

  lemma SeedPlaces(s: State, q: Query, entries: seq<Entry>, p: nat)
    requires RouterQueries.QueriesOk(s)
    ensures Placement(Settle(ApplySeed(s, q, entries), q).table, p) == PlacedByReply(s.log, entries, p)
  {
    hide Recompute, UnplaceAllResult, UnplaceAll, Settle, Denies, Denied, WriteRows;
    SettleKeepsTable(ApplySeed(s, q, entries), q);
    var rows := SeedRows(entries);
    WrittenRow(map[], entries, p);
    UnplacedRow(rows, s.epoch.layouts, p);
    if p in rows { KeptLayoutsDeny(s, p, rows[p]); }
  }

  lemma StaleKeepsTable(s: State, q: Query)
    ensures Settle(BootstrapIfNeeded(s), q).table == s.table && Settle(s, q).table == s.table
  {
    hide Settle, Bootstrap, NeedsTopology;
    SettleKeepsTable(BootstrapIfNeeded(s), q);
    SettleKeepsTable(s, q);
  }

  lemma BootstrapReplyPlaces(s: State, q: Query, entries: seq<Entry>, p: nat)
    requires RouterQueries.QueriesOk(s) && q in s.queries && q.kind.Boot?
    ensures Placement(OnBootstrapReply(s, q, entries).table, p) == PlacedAfter(s, BootstrapReply(q, entries), p)
  {
    hide ApplySeed, Settle, BootstrapIfNeeded, RouterQueries.QueriesOk, Superseded, PlacedByReply;
    CurrentIff(s, q);
    SeedPlaces(s, q, entries, p);
    StaleKeepsTable(s, q);
  }

  lemma RefreshReplyPlaces(s: State, q: Query, entries: seq<Entry>, p: nat)
    requires RouterQueries.QueriesOk(s) && q in s.queries && q.kind.Refresh?
    ensures Placement(OnRefreshReply(s, q, entries).table, p) == PlacedAfter(s, RefreshReply(q, entries), p)
  {
    hide Recompute, UpdateRows, UpdateLoses, Settle, RouterQueries.QueriesOk, Superseded, LastLine;
    CurrentIff(s, q);
    UpdatedRow(s.table, q.kind.window, entries, p);
    SettleKeepsTable(ApplyRefresh(s, q, entries), q);
    SettleKeepsTable(s, q);
  }

  lemma RefreshErrorPlaces(s: State, q: Query, gone: bool, p: nat)
    requires RouterQueries.QueriesOk(s) && q in s.queries && q.kind.Refresh?
    ensures Placement(OnRefreshError(s, q, gone).table, p) == PlacedAfter(s, RefreshError(q, gone), p)
  {
    hide Recompute, Settle, RouterQueries.QueriesOk, Superseded, Bootstrap, NeedsTopology;
    CurrentIff(s, q);
    SettleKeepsTable(FailRefresh(s, q, gone), q);
    SettleKeepsTable(s, q);
  }

  lemma LayoutPlaces(s: State, w: nat, layout: Option<seq<nat>>, p: nat)
    ensures Placement(OnLayout(s, w, layout).table, p) == PlacedAfter(s, LayoutChanged(w, layout), p)
  {
    hide UnplaceResult, NeedsTopology;
  }

  lemma ConnectionPlaces(s: State, i: Input, p: nat)
    requires Enabled(s, i)
    requires i.Ready? || i.Lost? || i.Close? || i.Attach? || i.Dispose? || i.Output? || i.SessionsChanged? || i.MembershipChanged?
    ensures Placement(Step(s, i).table, p) == PlacedAfter(s, i, p)
  {
    hide NeedsTopology, Bootstrap, Recompute, RefreshWindow, Writes, LiveRecipients;
  }

  /** In every run, each step places every pane where the reference says. */
  lemma StepPlaces(s: State, i: Input, p: nat)
    requires Reachable(s) && Enabled(s, i)
    ensures Placement(Step(s, i).table, p) == PlacedAfter(s, i, p)
  {
    hide PlacedAfter, OnReady, OnMembership, OnLayout, OnAttach, OnDispose, OnOutput, OnLost, OnClose,
         OnBootstrapReply, OnBootstrapError, OnRefreshReply, OnRefreshError, BootstrapIfNeeded, RouterQueries.QueriesOk;
    RouterQueries.ReachableQueryInv(s);
    match i
    case LayoutChanged(w, layout) => LayoutPlaces(s, w, layout, p);
    case BootstrapReply(q, entries) => BootstrapReplyPlaces(s, q, entries, p);
    case BootstrapError(q) => BootstrapErrorPlaces(s, q, p);
    case RefreshReply(q, entries) => RefreshReplyPlaces(s, q, entries, p);
    case RefreshError(q, gone) => RefreshErrorPlaces(s, q, gone, p);
    case Ready(_) => ConnectionPlaces(s, i, p);
    case Lost(_) => ConnectionPlaces(s, i, p);
    case Close => ConnectionPlaces(s, i, p);
    case Attach(_) => ConnectionPlaces(s, i, p);
    case Dispose(_) => ConnectionPlaces(s, i, p);
    case Output(_, _) => ConnectionPlaces(s, i, p);
    case MembershipChanged(_) => ConnectionPlaces(s, i, p);
    case SessionsChanged => ConnectionPlaces(s, i, p);
  }

  lemma BootstrapErrorPlaces(s: State, q: Query, p: nat)
    ensures Placement(OnBootstrapError(s, q).table, p) == PlacedAfter(s, BootstrapError(q), p)
  {
    hide Settle;
    SettleKeepsTable(s, q);
    SettleKeepsTable(s.(trace := s.trace + [BootstrapFailed(q.sentAt)]), q);
  }

  // ---------------------------------------------------------------------------------------
  // A lost connection
  // ---------------------------------------------------------------------------------------

  predicate NoReplies(inputs: seq<Input>) {
    forall i <- inputs :: !i.BootstrapReply? && !i.RefreshReply?
  }

  lemma NothingPlacedStays(s: State, i: Input)
    requires s.table == map[] && Enabled(s, i) && !i.BootstrapReply? && !i.RefreshReply?
    ensures Step(s, i).table == map[]
  {
    hide Recompute, Settle, NeedsTopology, Bootstrap, RefreshWindow, UnplaceResult, Writes, LiveRecipients;
    match i
    case BootstrapError(q) =>
      SettleKeepsTable(s, q);
      SettleKeepsTable(s.(trace := s.trace + [BootstrapFailed(q.sentAt)]), q);
    case RefreshError(q, gone) =>
      SettleKeepsTable(s, q);
      SettleKeepsTable(FailRefresh(s, q, gone), q);
    case _ =>
  }

  lemma {:induction false} NothingPlacedMeanwhile(s: State, inputs: seq<Input>)
    requires s.table == map[] && CanRun(s, inputs) && NoReplies(inputs)
    ensures RunFrom(s, inputs).table == map[]
    decreases |inputs|
  {
    hide Step, Enabled;
    if inputs != [] {
      assert inputs[0] in inputs;
      NothingPlacedStays(s, inputs[0]);
      NothingPlacedMeanwhile(Step(s, inputs[0]), inputs[1..]);
    }
  }

  /** Once the live connection is lost, no pane is placed until a query is answered, whatever else happens. */
  lemma LostUntilAnswered(s: State, run: nat, inputs: seq<Input>)
    requires s.queryRun == Some(run) && CanRun(OnLost(s, run), inputs) && NoReplies(inputs)
    ensures RunFrom(Step(s, Lost(run)), inputs).table == map[]
  {
    NothingPlacedMeanwhile(OnLost(s, run), inputs);
  }

  // ---------------------------------------------------------------------------------------
  // Seeded rows the layouts take out
  // ---------------------------------------------------------------------------------------

  lemma {:induction false} DeniedRowIsReported(t: Table, layouts: seq<Layout>, p: nat)
    requires p in t && p !in UnplaceAll(t, layouts)
    ensures var c := UnplaceAllResult(t, layouts); c.lostTrack || t[p].window in c.left
    decreases |layouts|
  {
    hide LeftWindows;
    var n := |layouts| - 1;
    var before := UnplaceAll(t, layouts[..n]);
    var c := UnplaceAllResult(t, layouts[..n]);
    var d := UnplaceResult(before, layouts[n].window, layouts[n].panes);
    if p in before {
      UnplacedRow(t, layouts[..n], p);
      assert d.lostTrack || t[p].window in d.left;
      if t[p].window in d.left { RouterRefresh.AddAllHolds(c.left, d.left, t[p].window); }
    } else {
      DeniedRowIsReported(t, layouts[..n], p);
      if t[p].window in c.left { RouterRefresh.AddAllHolds(c.left, d.left, t[p].window); }
    }
  }

  /** A pane that a current bootstrap's reply lists, but a standing layout denies, is asked for again in the same step. */
  lemma DeniedIsAsked(s: State, q: Query, entries: seq<Entry>, p: nat)
    requires Reachable(s) && s.queryRun.Some? && q in s.queries && q.kind.Boot? && !Superseded(s.log, q)
    requires LastLine(entries, p).Some? && p !in Step(s, BootstrapReply(q, entries)).table
    ensures RouterRefresh.AskedSince(s, Step(s, BootstrapReply(q, entries)), LastLine(entries, p).value.window)
  {
    hide PlaceReply, ApplySeed, Settle, RouterQueries.QueriesOk, Superseded, RouterQueries.RowsOk, RouterQueries.NotStarved,
         RouterRefresh.AskedSince, LastLine, RouterRefresh.Live;
    RouterQueries.ReachableQueryInv(s);
    CurrentIff(s, q);
    SeedAsks(s, q, entries, p);
  }

  lemma SeedAsks(s: State, q: Query, entries: seq<Entry>, p: nat)
    requires s.queryRun.Some? && LastLine(entries, p).Some? && p !in Settle(ApplySeed(s, q, entries), q).table
    ensures RouterRefresh.AskedSince(s, Settle(ApplySeed(s, q, entries), q), LastLine(entries, p).value.window)
  {
    hide Recompute, UnplaceAll, UnplaceAllResult, Settle, WriteRows, Requery, RouterRefresh.AskedSince, RouterRefresh.Live;
    var rows, w := SeedRows(entries), LastLine(entries, p).value.window;
    WrittenRow(map[], entries, p);
    var x := ApplySeed(s, q, entries);
    RouterRefresh.SettleKeeps(x, q);
    var s1 := PlaceReply(s, q, entries);
    var c := UnplaceAllResult(rows, s.epoch.layouts);
    DeniedRowIsReported(rows, s.epoch.layouts, p);
    RouterRefresh.RequeryAsks(s1, c, [], w);
    RouterRefresh.AskedThen(s, s1, Requery(s1, c, []), Settle(x, q), w);
  }
}

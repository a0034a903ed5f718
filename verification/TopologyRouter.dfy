/**
  The router as a class (`TopologyRouter` in src/topology-router.ts). Each method is one
  atomic stretch of the source and is proved to make exactly the transition `RouterSpec`
  gives for it. The two `...Settled` methods are the continuations after a query's `await`.
 */
module TopologyRouterClass {
  import opened Options
  import opened TopologyTable
  import opened TopologyEpoch
  import opened RouterSpec
  import opened SinkRegistryClass

  class TopologyRouter {
    const sinks: SinkRegistry
    const topology: PaneTopologyManager
    const epoch: TopologyEpochTracker
    const suppressor: IdlePaneSuppressor
    const interest: PaneInterestTracker?
    var runCommand: Option<nat>
    var queryRun: Option<nat>
    var held: seq<Held>
    var heldBytes: nat
    var refusedBytes: nat
    var inFlight: int

    ghost var log: seq<Event>
    ghost var writtenBy: map<nat, nat>
    ghost var queries: set<Query>
    var arrivals: seq<Arrival>  // numbers the chunks; a number stands for the bytes themselves
    ghost var bytes: Bytes

    ghost function Repr(): set<object> {
      {this, sinks, topology, epoch, suppressor} + if interest == null then {} else {interest}
    }

    ghost predicate Valid()
      reads Repr()
    {
      sinks.Valid() && topology.Valid()
    }

    ghost function Now(): State
      reads Repr()
    {
      State(topology.table, epoch.State(), sinks.live, sinks.lastSeq,
            if interest == null then None else Some(interest.state),
            suppressor.paused, runCommand, queryRun, held, heldBytes, refusedBytes, inFlight,
            log, writtenBy, queries, arrivals, sinks.trace, bytes, suppressor.tmuxPaused, suppressor.droppedPauses)
    }

    constructor (idlePaneSuppression: bool)
      ensures Valid() && fresh(Repr())
      ensures Now() == Initial(idlePaneSuppression)
    {
      sinks := new SinkRegistry();
      topology := new PaneTopologyManager();
      epoch := new TopologyEpochTracker();
      suppressor := new IdlePaneSuppressor();
      if idlePaneSuppression {
        interest := new PaneInterestTracker();
      } else {
        interest := null;
      }
      runCommand, queryRun, held, heldBytes, refusedBytes, inFlight := None, None, [], 0, 0, 0;
      log, writtenBy, queries, arrivals, bytes := [], map[], {}, [], Bytes(0, 0, 0, 0, 0, 0, 0);
    }

    predicate NeedsTopologyNow()
      requires Valid()
      reads Repr()
      ensures NeedsTopologyNow() <==> NeedsTopology(Now())
    {
      sinks.HasTopologyDependentSinks() || interest != null
    }

    method RecomputeInterest()
      requires Valid()
      modifies Repr()
      ensures Valid() && Now() == Recompute(old(Now()))
    {
      hide Marks;
      if interest != null {
        interest.Recompute(sinks, topology, suppressor, runCommand.Some?);
      }
    }

    // -------------------------------------------------------------------------------------
    // Queries
    // -------------------------------------------------------------------------------------

    method StartBootstrap()
      requires Valid()
      modifies this, epoch
      ensures Valid() && Now() == Bootstrap(old(Now()))
    {
      if queryRun.None? {
        return;
      }
      var run := queryRun.value;
      var gen := epoch.StartBootstrap(run);
      inFlight := inFlight + 1;
      queries := queries + {Query(Boot, run, gen, |log|)};
      log := log + [BootstrapStarted(run)];
    }

    method StartRefresh(w: nat)
      requires Valid()
      modifies this, epoch
      ensures Valid() && Now() == RefreshWindow(old(Now()), w)
    {
      if queryRun.None? {
        return;
      }
      var run := queryRun.value;
      var gen := epoch.StartWindowRefresh(w);
      inFlight := inFlight + 1;
      queries := queries + {Query(Refresh(w), run, gen, |log|)};
      log := log + [RefreshStarted(w)];
    }

    method StartQueries(c: Contradiction, windows: seq<nat>)
      requires Valid()
      modifies this, epoch
      ensures Valid() && Now() == Requery(old(Now()), c, windows)
    {
      if c.lostTrack {
        StartBootstrap();
        return;
      }
      ghost var s0 := Now();
      var todo := AddAll(c.left, windows);
      while todo != []
        invariant Valid()
        invariant RefreshAll(Now(), todo) == RefreshAll(s0, AddAll(c.left, windows))
        decreases |todo|
      {
        StartRefresh(todo[0]);
        todo := todo[1..];
      }
    }

    method BootstrapWhenNeeded()
      requires Valid()
      modifies this, epoch
      ensures Valid() && Now() == BootstrapIfNeeded(old(Now()))
    {
      if NeedsTopologyNow() {
        StartBootstrap();
      }
    }

    // -------------------------------------------------------------------------------------
    // Transport
    // -------------------------------------------------------------------------------------

    /** `suppressor.tmuxPaused` is emptied because a new control client's panes all run. */
    method OnTransportReady(run: nat)
      requires Valid()
      modifies Repr()
      ensures Valid() && Now() == OnReady(old(Now()), run)
    {
      runCommand, queryRun := Some(run), Some(run);
      suppressor.tmuxPaused := {};
      BootstrapWhenNeeded();
    }

    method OnTransportLost(run: nat)
      requires Valid()
      modifies Repr()
      ensures Valid() && Now() == OnLost(old(Now()), run)
    {
      if queryRun != Some(run) {
        return;
      }
      queryRun := None;
      topology.Seed([]);
      writtenBy := map[];
    }

    method DiscardHeld()
      modifies this
      ensures runCommand == old(runCommand) && queryRun == old(queryRun) && inFlight == old(inFlight)
      ensures log == old(log) && writtenBy == old(writtenBy) && queries == old(queries) && arrivals == old(arrivals)
      ensures held == [] && heldBytes == 0 && refusedBytes == 0
      ensures bytes == old(bytes).(discarded := old(bytes).discarded + old(heldBytes), forgotten := old(bytes).forgotten + old(refusedBytes))
    {
      bytes := bytes.(discarded := bytes.discarded + heldBytes, forgotten := bytes.forgotten + refusedBytes);
      held, heldBytes, refusedBytes := [], 0, 0;
    }

    method OnTransportClose()
      requires Valid()
      modifies Repr()
      ensures Valid() && Now() == OnClose(old(Now()))
    {
      hide SinkRegistry.Valid, PaneTopologyManager.Valid, AttSet;
      runCommand, queryRun := None, None;
      suppressor.DisposeDisconnected();
      DiscardHeld();
      sinks.EndAll();
    }

    // -------------------------------------------------------------------------------------
    // Sinks
    // -------------------------------------------------------------------------------------

    method AttachBytesSink(scope: Scope) returns (a: Att)
      requires Valid()
      modifies Repr()
      ensures Valid() && Now() == OnAttach(old(Now()), scope)
      ensures a == Att(old(sinks.lastSeq) + 1, scope)
    {
      hide Recompute, Bootstrap, Apply, TopologyEpochTracker.State, Marks, Filing.Pruned, Call;
      a := sinks.Attach(scope);
      if scope.Topological() {
        StartBootstrap();
      }
      RecomputeInterest();
    }

    method DisposeSink(a: Att)
      requires Valid()
      modifies Repr()
      ensures Valid() && Now() == OnDispose(old(Now()), a)
    {
      hide Recompute;
      var _ := sinks.Dispose(a);
      RecomputeInterest();
    }

    // -------------------------------------------------------------------------------------
    // Bytes
    // -------------------------------------------------------------------------------------

    method DispatchBytes(pane: nat, size: nat)
      requires Valid()
      modifies Repr()
      ensures Valid() && Now() == OnOutput(old(Now()), pane, size)
    {
      hide Writes, LiveRecipients;
      var chunk := |arrivals|;
      var meta := Placement(topology.table, pane);
      sinks.DispatchLive(pane, chunk, meta);
      arrivals := arrivals + [Arrival(pane, size, sinks.lastSeq)];
      if meta.None? && sinks.HasTopologyDependentSinks() && inFlight > 0 {
        HoldChunk(pane, chunk, size);
      }
    }

    method HoldChunk(pane: nat, chunk: nat, size: nat)
      requires Valid()
      modifies this`bytes, this`refusedBytes, this`heldBytes, this`held
      ensures Valid() && Now() == Hold(old(Now()), pane, chunk, size)
    {
      hide Filing.Pruned, TopologyEpochTracker.State, Bucket, PaneTopologyManager.Covers;
      bytes := bytes.(eligible := bytes.eligible + size);
      if heldBytes + size > HELD_BYTES_LIMIT {
        refusedBytes := refusedBytes + size;
        bytes := bytes.(refused := bytes.refused + size);
        return;
      }
      heldBytes := heldBytes + size;
      held := held + [Held(pane, chunk, size, sinks.lastSeq)];
    }

    method ReportOverflow()
      requires Valid()
      modifies this`refusedBytes, this`bytes, sinks`trace
      ensures Valid() && Now() == ReportRefused(old(Now()))
    {
      hide PaneTopologyManager.Valid, TopologyEpochTracker.State;
      if refusedBytes > 0 {
        sinks.trace := sinks.trace + [Overflowed(refusedBytes)];
        bytes := bytes.(reported := bytes.reported + refusedBytes);
        refusedBytes := 0;
      }
    }

    method TakeHeldChunks() returns (pending: seq<Held>)
      requires Valid()
      modifies this`held, this`heldBytes, this`refusedBytes, this`bytes, sinks`trace
      ensures Valid() && Now() == TakeHeld(old(Now()))
      ensures pending == old(held)
    {
      hide ReportRefused, SinkRegistry.Valid, PaneTopologyManager.Valid, TopologyEpochTracker.State;
      pending := held;
      held, heldBytes := [], 0;
      ReportOverflow();
    }

    method ReplayChunk(h: Held)
      requires Valid()
      modifies Repr()
      ensures Valid() && Now() == ReplayOne(old(Now()), h)
    {
      hide Writes, UpTo, TopologyRecipients;
      var meta := Placement(topology.table, h.pane);
      if meta.Some? {
        sinks.DispatchReplay(h.pane, h.chunk, meta.value, h.attachedBy);
        bytes := bytes.(replayed := bytes.replayed + h.size);
      } else if inFlight > 0 {
        held := held + [h];
        heldBytes := heldBytes + h.size;
      } else {
        bytes := bytes.(dropped := bytes.dropped + h.size);
      }
    }

    method ReleaseHeldChunks()
      requires Valid()
      modifies Repr()
      ensures Valid() && Now() == ReleaseHeld(old(Now()))
    {
      hide ReplayOne, TakeHeld;
      var pending := TakeHeldChunks();
      ghost var s0 := Now();
      for i := 0 to |pending|
        invariant Valid()
        invariant Now() == ReplayAll(s0, pending[..i])
      {
        ReplayChunk(pending[i]);
        assert pending[..i + 1][..i] == pending[..i];
      }
      assert pending[..|pending|] == pending;
    }

    // -------------------------------------------------------------------------------------
    // Notifications
    // -------------------------------------------------------------------------------------

    method OnMembershipChange(w: nat)
      requires Valid()
      modifies Repr()
      ensures Valid() && Now() == OnMembership(old(Now()), w)
    {
      hide Recompute, RefreshWindow, RowsOutside, SinkRegistry.Valid, AnyTopological, Apply,
           TopologyEpochTracker.State, Marks, Bucket, NeedsTopology;
      topology.RemoveWindow(w);
      epoch.InvalidateWindow(w);
      log := log + [Invalidated(w)];
      RecomputeInterest();
      if NeedsTopologyNow() {
        StartRefresh(w);
      }
    }

    method OnLayoutChange(w: nat, layout: Option<seq<nat>>)
      requires Valid()
      modifies Repr()
      ensures Valid() && Now() == OnLayout(old(Now()), w, layout)
    {
      hide Requery, UnplaceRows, UnplaceResult;
      if !NeedsTopologyNow() {
        return;
      }
      if layout.Some? {
        epoch.RecordLayout(w, layout.value);
        log := log + [LayoutRecorded(w, layout.value)];
        var c := topology.UnplaceContradicted(w, layout.value);
        StartQueries(c, [w]);
      } else {
        epoch.ForgetLayout(w);
        log := log + [LayoutForgotten(w)];
        StartRefresh(w);
      }
    }

    method OnSessionsChange()
      requires Valid()
      modifies Repr()
      ensures Valid() && Now() == BootstrapIfNeeded(old(Now()))
    {
      BootstrapWhenNeeded();
    }

    // -------------------------------------------------------------------------------------
    // Continuations
    // -------------------------------------------------------------------------------------

    method Finish(ghost q: Query)
      requires Valid()
      modifies Repr()
      ensures Valid() && Now() == Settle(old(Now()), q)
    {
      hide ReleaseHeld;
      inFlight := inFlight - 1;
      queries := queries - {q};
      ReleaseHeldChunks();
    }

    /** The recorded layouts, in order, against the rows just seeded. */
    method UnplaceLayouts(layouts: seq<Layout>) returns (c: Contradiction)
      requires Valid()
      modifies topology
      ensures Valid() && topology.table == UnplaceAll(old(topology.table), layouts)
      ensures c == UnplaceAllResult(old(topology.table), layouts)
    {
      hide UnplaceRows, UnplaceResult;
      ghost var rows := topology.table;
      c := Contradiction([], false);
      for i := 0 to |layouts|
        invariant Valid()
        invariant topology.table == UnplaceAll(rows, layouts[..i])
        invariant c == UnplaceAllResult(rows, layouts[..i])
      {
        var d := topology.UnplaceContradicted(layouts[i].window, layouts[i].panes);
        c := Contradiction(AddAll(c.left, d.left), c.lostTrack || d.lostTrack);
        assert layouts[..i + 1][..i] == layouts[..i];
      }
      assert layouts[..|layouts|] == layouts;
    }

    method PlaceSeed(ghost q: Query, entries: seq<Entry>) returns (c: Contradiction)
      requires Valid()
      modifies Repr()
      ensures Valid() && Now() == PlaceReply(old(Now()), q, entries)
      ensures c == UnplaceAllResult(SeedRows(entries), old(epoch.State()).layouts)
    {
      hide UnplaceAll, UnplaceAllResult, SeedRows, PaneTopologyManager.Covers, Filing.Pruned;
      topology.Seed(entries);
      sinks.trace := sinks.trace + [Seeded(q.sentAt)];
      writtenBy := map p <- topology.table :: q.sentAt;
      var layouts := epoch.TakeLayouts();
      log := log + [LayoutsTaken];
      c := UnplaceLayouts(layouts);
    }

    method SeedTable(ghost q: Query, entries: seq<Entry>)
      requires Valid()
      modifies Repr()
      ensures Valid() && Now() == ApplySeed(old(Now()), q, entries)
    {
      hide Recompute, Requery, UnplaceAllResult, SeedRows, PlaceReply, SinkRegistry.Valid, PaneTopologyManager.Valid;
      var c := PlaceSeed(q, entries);
      StartQueries(c, []);
      RecomputeInterest();
    }

    method ApplyBootstrapReply(ghost q: Query, gen: nat, run: nat, entries: seq<Entry>)
      requires Valid() && q.gen == gen && q.run == run
      modifies Repr()
      ensures Valid()
      ensures var s := old(Now());
              Now() == if s.epoch.BootstrapCurrent(gen) then ApplySeed(s, q, entries)
                       else if s.queryRun == Some(run) && s.epoch.LatestBootstrap(gen) then BootstrapIfNeeded(s)
                       else s
    {
      hide ApplySeed, Bootstrap;
      if !epoch.IsBootstrapCurrent(gen) {
        if queryRun == Some(run) && NeedsTopologyNow() && epoch.IsLatestBootstrap(gen) {
          StartBootstrap();
        }
        return;
      }
      SeedTable(q, entries);
    }

    /** After the bootstrap's `await`: `reply` is the parsed list, or nothing when the query was rejected. */
    method BootstrapSettled(ghost q: Query, gen: nat, run: nat, reply: Option<seq<Entry>>)
      requires Valid() && q in queries && q.kind.Boot? && q.gen == gen && q.run == run
      modifies Repr()
      ensures Valid()
      ensures Now() == Step(old(Now()), if reply.Some? then BootstrapReply(q, reply.value) else BootstrapError(q))
    {
      hide ApplySeed, Settle, BootstrapIfNeeded, SinkRegistry.Valid, PaneTopologyManager.Valid, OnReady, OnClose,
           OnAttach, OnDispose, OnOutput, OnMembership, OnLayout, Recompute;
      if reply.Some? {
        ApplyBootstrapReply(q, gen, run, reply.value);
      } else if queryRun == Some(run) && epoch.IsLatestBootstrap(gen) {
        ReportBootstrapFailure(q);
      }
      Finish(q);
    }

    method ReportBootstrapFailure(ghost q: Query)
      requires Valid()
      modifies sinks`trace
      ensures Valid() && sinks.trace == old(sinks.trace) + [BootstrapFailed(q.sentAt)]
    {
      sinks.trace := sinks.trace + [BootstrapFailed(q.sentAt)];
    }

    method UpdateTable(ghost q: Query, w: nat, entries: seq<Entry>)
      requires Valid() && q.kind == Refresh(w)
      modifies Repr()
      ensures Valid() && Now() == ApplyRefresh(old(Now()), q, entries)
    {
      hide Recompute, Requery, UpdateRows, UpdateLoses;
      var c := topology.UpdateWindow(w, entries);
      writtenBy := writtenBy + map p <- PanesOf(entries) :: q.sentAt;
      sinks.trace := sinks.trace + [Refreshed(w, q.sentAt)];
      StartQueries(c, []);
      RecomputeInterest();
    }

    method GiveUpWindow(ghost q: Query, w: nat, run: nat, windowGone: bool)
      requires Valid() && q.kind == Refresh(w) && q.run == run
      modifies Repr()
      ensures Valid() && Now() == FailRefresh(old(Now()), q, windowGone)
    {
      hide Recompute, Bootstrap, RowsOutside;
      topology.RemoveWindow(w);
      RecomputeInterest();
      if queryRun != Some(run) {
        return;
      }
      if windowGone {
        sinks.trace := sinks.trace + [WindowGone(w, q.sentAt)];
        return;
      }
      BootstrapWhenNeeded();
      sinks.trace := sinks.trace + [RefreshFailed(w, q.sentAt)];
    }

    method ApplyRefreshOutcome(ghost q: Query, w: nat, gen: nat, run: nat, reply: Option<seq<Entry>>, windowGone: bool)
      requires Valid() && q.kind == Refresh(w) && q.run == run
      modifies Repr()
      ensures Valid()
      ensures var s := old(Now());
              Now() == if !s.epoch.RefreshCurrent(w, gen) then s
                       else if reply.Some? then ApplyRefresh(s, q, reply.value)
                       else FailRefresh(s, q, windowGone)
    {
      hide ApplyRefresh, FailRefresh, SinkRegistry.Valid, PaneTopologyManager.Valid;
      if epoch.IsWindowRefreshCurrent(w, gen) {
        if reply.Some? {
          UpdateTable(q, w, reply.value);
        } else {
          GiveUpWindow(q, w, run, windowGone);
        }
      }
    }

    /** After a refresh's `await`. */
    method RefreshSettled(ghost q: Query, w: nat, gen: nat, run: nat, reply: Option<seq<Entry>>, windowGone: bool)
      requires Valid() && q in queries && q.kind == Refresh(w) && q.gen == gen && q.run == run
      modifies Repr()
      ensures Valid()
      ensures Now() == Step(old(Now()), if reply.Some? then RefreshReply(q, reply.value) else RefreshError(q, windowGone))
    {
      hide ApplyRefresh, FailRefresh, Settle, SinkRegistry.Valid, PaneTopologyManager.Valid, OnReady, OnClose, OnAttach,
           OnDispose, OnOutput, OnMembership, OnLayout, Recompute;
      ApplyRefreshOutcome(q, w, gen, run, reply, windowGone);
      Finish(q);
    }
  }
}

/**
  The pane router as a state machine (`TopologyRouter` in src/topology-router.ts, with
  `SinkRegistry`, `PaneInterestTracker` and `IdlePaneSuppressor` in src/pane-output.ts and
  src/idle-pane-suppressor.ts).

  One transition is the code between two `await`s. The environment settles the outstanding
  queries in any order, with any reply or failure. Sinks and the error seam do not call the
  router back. `State` holds the router's own fields, followed by what the world has seen.
 */
module RouterSpec {
  import opened Options
  import opened TopologyTable
  import opened TopologyEpoch

  const HELD_BYTES_LIMIT := 4 * 1024 * 1024

  // ---------------------------------------------------------------------------------------
  // Attachments
  // ---------------------------------------------------------------------------------------

  datatype Scope = Server | Session(id: nat) | Window(id: nat) | Pane(id: nat) {
    predicate Topological() { Session? || Window? }
  }

  /** One attachment: `num` is its attach number, which is its identity. */
  datatype Att = Att(num: nat, scope: Scope)

  /** The attachments of one scope, in attach order. */
  function Bucket(live: seq<Att>, scope: Scope): (r: seq<Att>)
    ensures forall a {:trigger a in r} :: a in r <==> a in live && a.scope == scope
  {
    if live == [] then []
    else
      var n := |live| - 1;
      assert live == live[..n] + [live[n]];
      Bucket(live[..n], scope) + if live[n].scope == scope then [live[n]] else []
  }

  function UpTo(atts: seq<Att>, bound: nat): (r: seq<Att>)
    ensures forall a {:trigger a in r} :: a in r <==> a in atts && a.num <= bound
  {
    if atts == [] then []
    else
      var n := |atts| - 1;
      assert atts == atts[..n] + [atts[n]];
      UpTo(atts[..n], bound) + if atts[n].num <= bound then [atts[n]] else []
  }

  function Detach(live: seq<Att>, a: Att): (r: seq<Att>)
    ensures forall b :: b in r ==> b in live
  {
    if live == [] then []
    else if live[0] == a then live[1..]
    else [live[0]] + Detach(live[1..], a)
  }

  predicate AnyTopological(live: seq<Att>) {
    exists a <- live :: a.scope.Topological()
  }

  /** Window then session attachments of a placement; none for an unplaced pane. */
  function TopologyRecipients(live: seq<Att>, meta: Option<Placed>): seq<Att> {
    if meta.None? then [] else Bucket(live, Window(meta.value.window)) + Bucket(live, Session(meta.value.session))
  }

  function LiveRecipients(live: seq<Att>, pane: nat, meta: Option<Placed>): seq<Att> {
    Bucket(live, Pane(pane)) + TopologyRecipients(live, meta) + Bucket(live, Server)
  }

  function Placement(t: Table, pane: nat): Option<Placed> {
    if pane in t then Some(t[pane]) else None
  }

  // ---------------------------------------------------------------------------------------
  // State
  // ---------------------------------------------------------------------------------------

  /** A chunk that arrived: its pane and size, and the attach number then. */
  datatype Arrival = Arrival(pane: nat, size: nat, attachSeq: nat)

  /** A held chunk: `chunk` is its arrival number, `attachedBy` the attach number at arrival. */
  datatype Held = Held(pane: nat, chunk: nat, size: nat, attachedBy: nat)

  datatype QueryKind = Boot | Refresh(window: nat)

  /** An outstanding query; `sentAt` is the position of its start in the tracker's history. */
  datatype Query = Query(kind: QueryKind, run: nat, gen: nat, sentAt: nat)

  datatype Effect =
    | Wrote(att: Att, pane: nat, chunk: nat, replay: bool)
    | Ended(atts: set<Att>)
    | Overflowed(bytes: nat)
    | Seeded(sentAt: nat)
    | BootstrapFailed(sentAt: nat)
    | RefreshFailed(window: nat, sentAt: nat)
    | Refreshed(window: nat, sentAt: nat)
    | WindowGone(window: nat, sentAt: nat)

  /** Where the bytes of chunks that were eligible for holding went. */
  datatype Bytes = Bytes(eligible: nat, replayed: nat, dropped: nat, discarded: nat, refused: nat, reported: nat, forgotten: nat)

  datatype State = State(
    // the router and its parts
    table: Table,
    epoch: Epoch,
    live: seq<Att>,
    lastSeq: nat,
    marks: Option<map<nat, bool>>,
    paused: set<nat>,
    runCommand: Option<nat>,
    queryRun: Option<nat>,
    held: seq<Held>,
    heldBytes: nat,
    refusedBytes: nat,
    inFlight: int,
    // what happened
    log: seq<Event>,
    writtenBy: map<nat, nat>,
    queries: set<Query>,
    arrivals: seq<Arrival>,
    trace: seq<Effect>,
    bytes: Bytes,
    tmuxPaused: set<nat>,
    droppedPauses: set<nat>)

  function Initial(suppression: bool): State {
    State(map[], INITIAL, [], 0, if suppression then Some(map[]) else None, {}, None, None, [], 0, 0, 0,
          [], map[], {}, [], [], Bytes(0, 0, 0, 0, 0, 0, 0), {}, {})
  }

  predicate NeedsTopology(s: State) {
    AnyTopological(s.live) || s.marks.Some?
  }

  // ---------------------------------------------------------------------------------------
  // Idle-pane interest
  // ---------------------------------------------------------------------------------------

  function AdmitCount(live: seq<Att>, t: Table, pane: nat): nat {
    |Bucket(live, Pane(pane))| + |Bucket(live, Server)|
    + if pane in t then |Bucket(live, Window(t[pane].window))| + |Bucket(live, Session(t[pane].session))| else 0
  }

  function PaneScoped(live: seq<Att>): set<nat> {
    set a <- live | a.scope.Pane? :: a.scope.id
  }

  /** Every tracked pane, marked interesting when some attachment admits it. */
  function Marks(live: seq<Att>, t: Table): map<nat, bool> {
    map p <- t.Keys + PaneScoped(live) :: AdmitCount(live, t, p) > 0
  }

  function Changed(prev: map<nat, bool>, next: map<nat, bool>, to: bool): set<nat> {
    set p <- next | next[p] == to && !(p in prev && prev[p] == to)
  }

  ghost predicate OnlyMarks(s: State, r: State) {
    r == s.(marks := r.marks, paused := r.paused, tmuxPaused := r.tmuxPaused, droppedPauses := r.droppedPauses)
    && (r.marks.Some? <==> s.marks.Some?)
  }

  function Recompute(s: State): (r: State)
    ensures OnlyMarks(s, r)
  {
    if s.marks.None? then s
    else
      var next := Marks(s.live, s.table);
      var idle := Changed(s.marks.value, next, false);
      var woken := Changed(s.marks.value, next, true);
      s.(marks := Some(next),
         paused := s.paused - woken + idle,
         tmuxPaused := if s.runCommand.Some? then s.tmuxPaused - woken + idle else s.tmuxPaused,
         droppedPauses := if s.runCommand.Some? then s.droppedPauses else s.droppedPauses + idle)
  }

  // ---------------------------------------------------------------------------------------
  // Starting queries
  // ---------------------------------------------------------------------------------------

  function Call(s: State, ev: Event): State {
    s.(epoch := Apply(s.epoch, ev), log := s.log + [ev])
  }

  function Send(s: State, kind: QueryKind, run: nat, gen: nat, sentAt: nat): State {
    s.(inFlight := s.inFlight + 1, queries := s.queries + {Query(kind, run, gen, sentAt)})
  }

  ghost predicate OnlyQueries(s: State, r: State) {
    r == s.(epoch := r.epoch, inFlight := r.inFlight, log := r.log, queries := r.queries)
  }

  function Bootstrap(s: State): (r: State)
    ensures OnlyQueries(s, r)
  {
    if s.queryRun.None? then s
    else
      var s1 := Call(s, BootstrapStarted(s.queryRun.value));
      Send(s1, Boot, s.queryRun.value, s1.epoch.bootstrapGen, |s.log|)
  }

  function RefreshWindow(s: State, w: nat): (r: State)
    ensures OnlyQueries(s, r)
  {
    if s.queryRun.None? then s
    else
      var s1 := Call(s, RefreshStarted(w));
      Send(s1, Refresh(w), s.queryRun.value, s1.epoch.windowEpoch, |s.log|)
  }

  function RefreshAll(s: State, windows: seq<nat>): (r: State)
    ensures OnlyQueries(s, r)
    decreases |windows|
  {
    if windows == [] then s else RefreshAll(RefreshWindow(s, windows[0]), windows[1..])
  }

  function Requery(s: State, c: Contradiction, windows: seq<nat>): (r: State)
    ensures OnlyQueries(s, r)
  {
    if c.lostTrack then Bootstrap(s) else RefreshAll(s, AddAll(c.left, windows))
  }

  function AddAll(s: seq<nat>, xs: seq<nat>): seq<nat>
    decreases |xs|
  {
    if xs == [] then s else AddAll(AddDistinct(s, xs[0]), xs[1..])
  }

  // ---------------------------------------------------------------------------------------
  // Holding and replaying output
  // ---------------------------------------------------------------------------------------

  function Writes(atts: seq<Att>, pane: nat, chunk: nat, replay: bool): seq<Effect> {
    seq(|atts|, i requires 0 <= i < |atts| => Wrote(atts[i], pane, chunk, replay))
  }

  function SumSizes(held: seq<Held>): nat {
    if held == [] then 0 else SumSizes(held[..|held| - 1]) + held[|held| - 1].size
  }

  function Hold(s: State, pane: nat, chunk: nat, size: nat): State {
    var s1 := s.(bytes := s.bytes.(eligible := s.bytes.eligible + size));
    if s.heldBytes + size > HELD_BYTES_LIMIT then
      s1.(refusedBytes := s.refusedBytes + size, bytes := s1.bytes.(refused := s.bytes.refused + size))
    else
      s1.(heldBytes := s.heldBytes + size, held := s.held + [Held(pane, chunk, size, s.lastSeq)])
  }

  ghost predicate OnlyHold(s: State, r: State) {
    r == s.(held := r.held, heldBytes := r.heldBytes, trace := r.trace, bytes := r.bytes)
  }

  function ReplayOne(s: State, h: Held): (r: State)
    ensures OnlyHold(s, r)
    ensures s.trace <= r.trace
  {
    if h.pane in s.table then
      var to := UpTo(TopologyRecipients(s.live, Some(s.table[h.pane])), h.attachedBy);
      s.(trace := s.trace + Writes(to, h.pane, h.chunk, true),
         bytes := s.bytes.(replayed := s.bytes.replayed + h.size))
    else if s.inFlight > 0 then
      s.(held := s.held + [h], heldBytes := s.heldBytes + h.size)
    else
      s.(bytes := s.bytes.(dropped := s.bytes.dropped + h.size))
  }

  function ReplayAll(s: State, pending: seq<Held>): (r: State)
    ensures OnlyHold(s, r)
    ensures s.trace <= r.trace
    decreases |pending|
  {
    if pending == [] then s
    else
      var n := |pending| - 1;
      ReplayOne(ReplayAll(s, pending[..n]), pending[n])
  }

  /** The overflow is reported once, and forgotten. */
  function ReportRefused(s: State): State {
    if s.refusedBytes > 0 then
      s.(refusedBytes := 0, trace := s.trace + [Overflowed(s.refusedBytes)],
         bytes := s.bytes.(reported := s.bytes.reported + s.refusedBytes))
    else s
  }

  function TakeHeld(s: State): State {
    ReportRefused(s.(held := [], heldBytes := 0))
  }

  function ReleaseHeld(s: State): State {
    ReplayAll(TakeHeld(s), s.held)
  }

  /** The `finally` of every query. */
  function Settle(s: State, q: Query): State {
    ReleaseHeld(s.(inFlight := s.inFlight - 1, queries := s.queries - {q}))
  }

  // ---------------------------------------------------------------------------------------
  // Transitions
  // ---------------------------------------------------------------------------------------

  datatype Input =
    | Ready(run: nat)
    | Lost(run: nat)
    | Close
    | Attach(scope: Scope)
    | Dispose(att: Att)
    | Output(pane: nat, size: nat)
    | MembershipChanged(window: nat)
    | LayoutChanged(window: nat, layout: Option<seq<nat>>)
    | SessionsChanged
    | BootstrapReply(query: Query, entries: seq<Entry>)
    | BootstrapError(query: Query)
    | RefreshReply(query: Query, entries: seq<Entry>)
    | RefreshError(query: Query, windowGone: bool)

  /** A settlement needs an outstanding query; a disposer belongs to an attachment that was made. */
  predicate Enabled(s: State, i: Input) {
    match i
    case BootstrapReply(q, _) => q in s.queries && q.kind.Boot?
    case BootstrapError(q) => q in s.queries && q.kind.Boot?
    case RefreshReply(q, _) => q in s.queries && q.kind.Refresh?
    case RefreshError(q, _) => q in s.queries && q.kind.Refresh?
    case Dispose(a) => a.num <= s.lastSeq
    case _ => true
  }

  function BootstrapIfNeeded(s: State): (r: State)
    ensures OnlyQueries(s, r)
  {
    if NeedsTopology(s) then Bootstrap(s) else s
  }

  /** A new control client's panes all start running. */
  function OnReady(s: State, run: nat): State {
    BootstrapIfNeeded(s.(runCommand := Some(run), queryRun := Some(run), tmuxPaused := {}))
  }

  function OnLost(s: State, run: nat): State {
    if s.queryRun != Some(run) then s else s.(queryRun := None, table := map[], writtenBy := map[])
  }

  function AttSet(live: seq<Att>): set<Att> {
    set a <- live
  }

  function OnClose(s: State): State {
    s.(runCommand := None, queryRun := None, paused := {},
       held := [], heldBytes := 0, refusedBytes := 0,
       bytes := s.bytes.(discarded := s.bytes.discarded + s.heldBytes, forgotten := s.bytes.forgotten + s.refusedBytes),
       live := [], trace := s.trace + [Ended(AttSet(s.live))])
  }

  function OnAttach(s: State, scope: Scope): State {
    var s1 := s.(lastSeq := s.lastSeq + 1, live := s.live + [Att(s.lastSeq + 1, scope)]);
    Recompute(if scope.Topological() then Bootstrap(s1) else s1)
  }

  function OnDispose(s: State, a: Att): State {
    Recompute(if a in s.live then s.(live := Detach(s.live, a), trace := s.trace + [Ended({a})]) else s)
  }

  function OnOutput(s: State, pane: nat, size: nat): State {
    var chunk := |s.arrivals|;
    var meta := Placement(s.table, pane);
    var s1 := s.(arrivals := s.arrivals + [Arrival(pane, size, s.lastSeq)],
                 trace := s.trace + Writes(LiveRecipients(s.live, pane, meta), pane, chunk, false));
    if meta.None? && AnyTopological(s.live) && s.inFlight > 0 then Hold(s1, pane, chunk, size) else s1
  }

  function OnMembership(s: State, w: nat): State {
    var s1 := Recompute(Call(s.(table := RowsOutside(s.table, w)), Invalidated(w)));
    if NeedsTopology(s1) then RefreshWindow(s1, w) else s1
  }

  function OnLayout(s: State, w: nat, layout: Option<seq<nat>>): State {
    if !NeedsTopology(s) then s
    else if layout.Some? then
      var s1 := Call(s, LayoutRecorded(w, layout.value));
      Requery(s1.(table := UnplaceRows(s.table, w, layout.value)), UnplaceResult(s.table, w, layout.value), [w])
    else RefreshWindow(Call(s, LayoutForgotten(w)), w)
  }

  /** The layouts recorded while the bootstrap was in flight, applied to what it seeded. */
  function UnplaceAll(t: Table, layouts: seq<Layout>): Table {
    if layouts == [] then t
    else
      var n := |layouts| - 1;
      UnplaceRows(UnplaceAll(t, layouts[..n]), layouts[n].window, layouts[n].panes)
  }

  function UnplaceAllResult(t: Table, layouts: seq<Layout>): Contradiction {
    if layouts == [] then Contradiction([], false)
    else
      var n := |layouts| - 1;
      var c := UnplaceAllResult(t, layouts[..n]);
      var d := UnplaceResult(UnplaceAll(t, layouts[..n]), layouts[n].window, layouts[n].panes);
      Contradiction(AddAll(c.left, d.left), c.lostTrack || d.lostTrack)
  }

  /** The reply's rows, without what the layouts recorded meanwhile contradict. */
  function PlaceReply(s: State, q: Query, entries: seq<Entry>): State {
    var rows := SeedRows(entries);
    Call(s.(table := UnplaceAll(rows, s.epoch.layouts),
            writtenBy := map p <- rows :: q.sentAt,
            trace := s.trace + [Seeded(q.sentAt)]), LayoutsTaken)
  }

  function ApplySeed(s: State, q: Query, entries: seq<Entry>): State {
    Recompute(Requery(PlaceReply(s, q, entries), UnplaceAllResult(SeedRows(entries), s.epoch.layouts), []))
  }

  function OnBootstrapReply(s: State, q: Query, entries: seq<Entry>): State {
    Settle(if s.epoch.BootstrapCurrent(q.gen) then ApplySeed(s, q, entries)
           else if s.queryRun == Some(q.run) && s.epoch.LatestBootstrap(q.gen) then BootstrapIfNeeded(s)
           else s, q)
  }

  function OnBootstrapError(s: State, q: Query): State {
    Settle(if s.queryRun == Some(q.run) && s.epoch.LatestBootstrap(q.gen)
           then s.(trace := s.trace + [BootstrapFailed(q.sentAt)]) else s, q)
  }

  /** The window's rows become the reply's. */
  function UpdateReply(s: State, q: Query, entries: seq<Entry>): State
    requires q.kind.Refresh?
  {
    s.(table := UpdateRows(s.table, q.kind.window, entries),
       writtenBy := s.writtenBy + map p <- PanesOf(entries) :: q.sentAt,
       trace := s.trace + [Refreshed(q.kind.window, q.sentAt)])
  }

  function ApplyRefresh(s: State, q: Query, entries: seq<Entry>): State
    requires q.kind.Refresh?
  {
    Recompute(Requery(UpdateReply(s, q, entries), Contradiction([], UpdateLoses(s.table, q.kind.window, entries)), []))
  }

  function OnRefreshReply(s: State, q: Query, entries: seq<Entry>): State
    requires q.kind.Refresh?
  {
    Settle(if s.epoch.RefreshCurrent(q.kind.window, q.gen) then ApplyRefresh(s, q, entries) else s, q)
  }

  function FailRefresh(s: State, q: Query, windowGone: bool): State
    requires q.kind.Refresh?
  {
    var w := q.kind.window;
    var s1 := Recompute(s.(table := RowsOutside(s.table, w)));
    if s.queryRun != Some(q.run) then s1
    else if windowGone then s1.(trace := s1.trace + [WindowGone(w, q.sentAt)])
    else BootstrapIfNeeded(s1).(trace := s1.trace + [RefreshFailed(w, q.sentAt)])
  }

  function OnRefreshError(s: State, q: Query, windowGone: bool): State
    requires q.kind.Refresh?
  {
    Settle(if s.epoch.RefreshCurrent(q.kind.window, q.gen) then FailRefresh(s, q, windowGone) else s, q)
  }

  function Step(s: State, i: Input): State
    requires Enabled(s, i)
  {
    match i
    case Ready(run) => OnReady(s, run)
    case Lost(run) => OnLost(s, run)
    case Close => OnClose(s)
    case Attach(scope) => OnAttach(s, scope)
    case Dispose(a) => OnDispose(s, a)
    case Output(pane, size) => OnOutput(s, pane, size)
    case MembershipChanged(w) => OnMembership(s, w)
    case LayoutChanged(w, layout) => OnLayout(s, w, layout)
    case SessionsChanged => BootstrapIfNeeded(s)
    case BootstrapReply(q, entries) => OnBootstrapReply(s, q, entries)
    case BootstrapError(q) => OnBootstrapError(s, q)
    case RefreshReply(q, entries) => OnRefreshReply(s, q, entries)
    case RefreshError(q, gone) => OnRefreshError(s, q, gone)
  }

  // ---------------------------------------------------------------------------------------
  // Runs
  // ---------------------------------------------------------------------------------------

  predicate CanRun(s: State, inputs: seq<Input>)
    decreases |inputs|
  {
    inputs == [] || (Enabled(s, inputs[0]) && CanRun(Step(s, inputs[0]), inputs[1..]))
  }

  function RunFrom(s: State, inputs: seq<Input>): State
    requires CanRun(s, inputs)
    decreases |inputs|
  {
    if inputs == [] then s else RunFrom(Step(s, inputs[0]), inputs[1..])
  }

  /** Every state some run reaches, with suppression on or off. */
  ghost predicate Reachable(s: State) {
    exists suppression: bool, inputs: seq<Input> ::
      CanRun(Initial(suppression), inputs) && s == RunFrom(Initial(suppression), inputs)
  }
}

/**
  What becomes of output, over every run: who is written what, and what early output comes to.

  A chunk is early when its pane is not placed, a window or session attachment is there, and a
  query is outstanding. The main results are `WritesAreExact`, `EarlyOutput` (every early chunk
  is held, or refused by the cap alone), `HeldFate` and `EarlyOutputReaches` (a held chunk stays
  until a settle places it, and then reaches every admitting attachment made by its arrival), and
  `EarlyBytesAccounted`, which counts bytes by these facts and not by the router's own counters.
 */
module RouterHolding {
  import opened Options
  import opened TopologyTable
  import opened TopologyEpoch
  import opened RouterSpec
  import RouterQueries
  import RouterDelivery
  import RouterInterest

  // ---------------------------------------------------------------------------------------
  // A settled query: what its reply does, then its `finally`
  // ---------------------------------------------------------------------------------------

  predicate Settles(i: Input) {
    i.BootstrapReply? || i.BootstrapError? || i.RefreshReply? || i.RefreshError?
  }

  /** The state once the reply or failure was dealt with, before held output is released. */
  function Applied(s: State, i: Input): State
    requires Enabled(s, i) && Settles(i)
  {
    match i
    case BootstrapReply(q, entries) =>
      if s.epoch.BootstrapCurrent(q.gen) then ApplySeed(s, q, entries)
      else if s.queryRun == Some(q.run) && s.epoch.LatestBootstrap(q.gen) then BootstrapIfNeeded(s) else s
    case BootstrapError(q) =>
      if s.queryRun == Some(q.run) && s.epoch.LatestBootstrap(q.gen)
      then s.(trace := s.trace + [BootstrapFailed(q.sentAt)]) else s
    case RefreshReply(q, entries) =>
      if s.epoch.RefreshCurrent(q.kind.window, q.gen) then ApplyRefresh(s, q, entries) else s
    case RefreshError(q, gone) =>
      if s.epoch.RefreshCurrent(q.kind.window, q.gen) then FailRefresh(s, q, gone) else s
  }

  lemma SettleLast(s: State, i: Input)
    requires Enabled(s, i) && Settles(i)
    ensures Step(s, i) == Settle(Applied(s, i), i.query)
  {
    hide Settle, ApplySeed, ApplyRefresh, FailRefresh, BootstrapIfNeeded;
  }

  /** Nothing is written, held or attached meanwhile. */
  ghost predicate SameOutput(s: State, r: State) {
    && r.held == s.held && r.heldBytes == s.heldBytes && r.refusedBytes == s.refusedBytes && r.bytes == s.bytes
    && r.live == s.live && r.lastSeq == s.lastSeq && r.arrivals == s.arrivals
    && s.trace <= r.trace
    && forall k | |s.trace| <= k < |r.trace| :: !r.trace[k].Wrote?
  }

  lemma AppliedKeeps(s: State, i: Input)
    requires Enabled(s, i) && Settles(i)
    ensures SameOutput(s, Applied(s, i))
  {
    hide ApplySeed, ApplyRefresh, FailRefresh, SameOutput, NeedsTopology, Bootstrap;
    var q := i.query;
    SeedKeepsOutput(s, q, if i.BootstrapReply? then i.entries else []);
    if q.kind.Refresh? { RefreshKeepsOutput(s, q, if i.RefreshReply? then i.entries else [], if i.RefreshError? then i.windowGone else true); }
    OneEffectKeepsOutput(s, q);
  }

  lemma SeedKeepsOutput(s: State, q: Query, entries: seq<Entry>)
    ensures SameOutput(s, ApplySeed(s, q, entries))
  {
    hide Recompute, UnplaceAll, UnplaceAllResult, SeedRows;
  }

  lemma RefreshKeepsOutput(s: State, q: Query, entries: seq<Entry>, gone: bool)
    requires q.kind.Refresh?
    ensures SameOutput(s, ApplyRefresh(s, q, entries)) && SameOutput(s, FailRefresh(s, q, gone))
  {
    hide Recompute, UpdateRows, UpdateLoses, RowsOutside, NeedsTopology, Bootstrap;
  }

  lemma OneEffectKeepsOutput(s: State, q: Query)
    ensures SameOutput(s, s) && SameOutput(s, BootstrapIfNeeded(s))
    ensures SameOutput(s, s.(trace := s.trace + [BootstrapFailed(q.sentAt)]))
  {
    hide NeedsTopology, Bootstrap;
  }

  lemma SettledQueue(s: State, q: Query)
    ensures var t := TakeHeld(s.(inFlight := s.inFlight - 1, queries := s.queries - {q}));
            && Settle(s, q) == ReplayAll(t, s.held)
            && t.held == [] && t.heldBytes == 0 && t.table == s.table && t.live == s.live && t.inFlight == s.inFlight - 1
            && t.queries == s.queries - {q} && t.arrivals == s.arrivals && t.lastSeq == s.lastSeq
            && t.bytes == s.bytes.(reported := t.bytes.reported)
            && forall e: Effect | e.Wrote? :: e in t.trace <==> e in s.trace
  {
    hide ReplayAll;
  }

  // ---------------------------------------------------------------------------------------
  // Who is written what
  // ---------------------------------------------------------------------------------------

  /** `e` is `h`, replayed to a window or session attachment that admits its pane and was there at its arrival. */
  predicate Replays(t: Table, live: seq<Att>, h: Held, e: Effect)
    requires e.Wrote?
  {
    && e.replay && e.pane == h.pane && e.chunk == h.chunk && h.pane in t
    && e.att in live && e.att.num <= h.attachedBy && (e.att.scope.Session? || e.att.scope.Window?)
    && RouterInterest.Admits(e.att.scope, h.pane, Some(t[h.pane]))
  }

  lemma WritesHold(atts: seq<Att>, pane: nat, chunk: nat, replay: bool, e: Effect)
    requires e.Wrote?
    ensures e in Writes(atts, pane, chunk, replay) <==> e.att in atts && e == Wrote(e.att, pane, chunk, replay)
  {
    if e.att in atts {
      var k :| 0 <= k < |atts| && atts[k] == e.att;
      assert Writes(atts, pane, chunk, replay)[k] == Wrote(e.att, pane, chunk, replay);
    }
  }

  lemma ReplayOneWrites(s: State, h: Held, e: Effect)
    requires e.Wrote?
    ensures e in ReplayOne(s, h).trace <==> e in s.trace || Replays(s.table, s.live, h, e)
  {
    hide Writes, Bucket;
    if h.pane in s.table {
      var all := TopologyRecipients(s.live, Some(s.table[h.pane]));
      WritesHold(UpTo(all, h.attachedBy), h.pane, h.chunk, true, e);
      assert e.att in all <==> e.att in s.live && (e.att.scope.Session? || e.att.scope.Window?)
                               && RouterInterest.Admits(e.att.scope, h.pane, Some(s.table[h.pane]));
    }
  }

  lemma {:induction false} ReplayAllWrites(s: State, pending: seq<Held>, e: Effect)
    requires e.Wrote?
    ensures e in ReplayAll(s, pending).trace <==> e in s.trace || exists h <- pending :: Replays(s.table, s.live, h, e)
    decreases |pending|
  {
    hide ReplayOne, Replays;
    if pending != [] {
      var n := |pending| - 1;
      assert pending == pending[..n] + [pending[n]];
      ReplayAllWrites(s, pending[..n], e);
      ReplayOneWrites(ReplayAll(s, pending[..n]), pending[n], e);
    }
  }

  /** What the step writes: an arriving chunk to every admitting attachment, or held chunks a settle finds placed. */
  ghost predicate WrittenBy(s: State, i: Input, e: Effect)
    requires Enabled(s, i) && e.Wrote?
  {
    if i.Output? then
      && e.pane == i.pane && e.chunk == |s.arrivals| && !e.replay && e.att in s.live
      && RouterInterest.Admits(e.att.scope, i.pane, Placement(s.table, i.pane))
    else Settles(i) && exists h <- s.held :: Replays(Step(s, i).table, Step(s, i).live, h, e)
  }

  lemma OutputWrites(s: State, pane: nat, size: nat, e: Effect)
    requires e.Wrote?
    ensures e in OnOutput(s, pane, size).trace <==> e in s.trace || WrittenBy(s, Output(pane, size), e)
  {
    hide Writes, LiveRecipients;
    var meta := Placement(s.table, pane);
    WritesHold(LiveRecipients(s.live, pane, meta), pane, |s.arrivals|, false, e);
    RouterInterest.LiveRecipientsAreAdmitting(s.live, pane, meta, e.att);
  }

  lemma SettleWrites(s: State, i: Input, e: Effect)
    requires Enabled(s, i) && Settles(i) && e.Wrote?
    ensures e in Step(s, i).trace <==> e in s.trace || WrittenBy(s, i, e)
    ensures Step(s, i).live == s.live
  {
    hide Replays, Step, Settle, TakeHeld, ReplayAll, Applied;
    var x := Applied(s, i);
    SettleLast(s, i);
    AppliedKeeps(s, i);
    SettledQueue(x, i.query);
    var t := TakeHeld(x.(inFlight := x.inFlight - 1, queries := x.queries - {i.query}));
    ReplayAllWrites(t, x.held, e);
    assert e in x.trace <==> e in s.trace;
  }

  /** Over every step, exactly these writes happen. */
  lemma WritesAreExact(s: State, i: Input, e: Effect)
    requires Enabled(s, i) && e.Wrote?
    ensures e in Step(s, i).trace <==> e in s.trace || WrittenBy(s, i, e)
  {
    if i.Output? {
      OutputWrites(s, i.pane, i.size, e);
    } else if Settles(i) {
      SettleWrites(s, i, e);
    } else {
      OthersWriteNothing(s, i, e);
    }
  }

  lemma OthersWriteNothing(s: State, i: Input, e: Effect)
    requires Enabled(s, i) && e.Wrote? && !i.Output? && !Settles(i)
    ensures e in Step(s, i).trace <==> e in s.trace
  {
    hide Step, Enabled;
    if i.Attach? || i.Dispose? || i.Close? {
      AttachmentsWriteNothing(s, i, e);
    } else {
      QuietKeepsOutput(s, i);
    }
  }

  lemma AttachmentsWriteNothing(s: State, i: Input, e: Effect)
    requires Enabled(s, i) && e.Wrote? && (i.Attach? || i.Dispose? || i.Close?)
    ensures e in Step(s, i).trace <==> e in s.trace
    ensures Step(s, i).held == if i.Close? then [] else s.held
  {
    hide Recompute, Bootstrap, AttSet, Detach;
  }

  /** Connections coming and going, and notifications, neither write, hold nor attach. */
  lemma QuietKeepsOutput(s: State, i: Input)
    requires i.Ready? || i.Lost? || i.MembershipChanged? || i.LayoutChanged? || i.SessionsChanged?
    ensures SameOutput(s, Step(s, i))
  {
    hide Recompute, NeedsTopology, Bootstrap, RefreshWindow, Requery, UnplaceRows, UnplaceResult, RowsOutside;
    match i
    case Ready(_) =>
    case Lost(_) =>
    case SessionsChanged =>
    case MembershipChanged(_) =>
    case LayoutChanged(_, _) =>
  }

  /** Pane attachments are written first, then window, session and server ones. */
  function Rank(scope: Scope): nat {
    match scope
    case Pane(_) => 0
    case Window(_) => 1
    case Session(_) => 2
    case Server => 3
  }

  predicate Earlier(a: Att, b: Att) {
    Rank(a.scope) < Rank(b.scope) || (Rank(a.scope) == Rank(b.scope) && a.num < b.num)
  }

  ghost predicate InWritingOrder(atts: seq<Att>) {
    forall i, j | 0 <= i < j < |atts| :: Earlier(atts[i], atts[j])
  }

  lemma {:induction false} BucketInOrder(live: seq<Att>, scope: Scope)
    requires forall i, j | 0 <= i < j < |live| :: live[i].num < live[j].num
    ensures InWritingOrder(Bucket(live, scope))
  {
    if live != [] {
      var n := |live| - 1;
      assert live == live[..n] + [live[n]];
      BucketInOrder(live[..n], scope);
      var before := Bucket(live[..n], scope);
      forall i | 0 <= i < |before| ensures before[i].num < live[n].num && before[i].scope == scope {
        assert before[i] in before;
        var k :| 0 <= k < n && live[k] == before[i];
      }
    }
  }

  lemma JoinInOrder(a: seq<Att>, b: seq<Att>)
    requires InWritingOrder(a) && InWritingOrder(b) && forall x <- a, y <- b :: Rank(x.scope) < Rank(y.scope)
    ensures InWritingOrder(a + b)
  {
    var all := a + b;
    forall i, j | 0 <= i < j < |all| ensures Earlier(all[i], all[j]) {
      if i < |a| <= j {
        assert all[i] in a && all[j] in b;
      }
    }
  }

  lemma RecipientsInOrder(live: seq<Att>, pane: nat, meta: Option<Placed>)
    requires forall i, j | 0 <= i < j < |live| :: live[i].num < live[j].num
    ensures InWritingOrder(LiveRecipients(live, pane, meta))
  {
    hide InWritingOrder;
    BucketInOrder(live, Pane(pane));
    BucketInOrder(live, Server);
    if meta.Some? {
      BucketInOrder(live, Window(meta.value.window));
      BucketInOrder(live, Session(meta.value.session));
      JoinInOrder(Bucket(live, Window(meta.value.window)), Bucket(live, Session(meta.value.session)));
    } else {
      assert InWritingOrder([]) by { NoneInOrder(); }
    }
    JoinInOrder(Bucket(live, Pane(pane)), TopologyRecipients(live, meta));
    JoinInOrder(Bucket(live, Pane(pane)) + TopologyRecipients(live, meta), Bucket(live, Server));
  }

  lemma NoneInOrder()
    ensures InWritingOrder([])
  {
  }

  /** In every run, an arriving chunk is written by scope, nearest first, and within a scope by age of attachment. */
  lemma WrittenInOrder(s: State, pane: nat, size: nat, i: nat, j: nat)
    requires Reachable(s) && |s.trace| <= i < j < |Step(s, Output(pane, size)).trace|
    ensures var trace := Step(s, Output(pane, size)).trace;
            trace[i].Wrote? && trace[j].Wrote? && Earlier(trace[i].att, trace[j].att)
  {
    hide RouterDelivery.HeldOk, RouterDelivery.BytesOk, RouterDelivery.DeliveryOk, RouterDelivery.EndsOk, LiveRecipients, Earlier;
    RouterDelivery.ReachableDeliveryInv(s);
    RecipientsInOrder(s.live, pane, Placement(s.table, pane));
    OutputTrace(s, pane, size);
  }

  lemma OutputTrace(s: State, pane: nat, size: nat)
    ensures Step(s, Output(pane, size)).trace
            == s.trace + Writes(LiveRecipients(s.live, pane, Placement(s.table, pane)), pane, |s.arrivals|, false)
  {
    hide Writes, LiveRecipients;
  }

  // ---------------------------------------------------------------------------------------
  // Who is attached
  // ---------------------------------------------------------------------------------------

  /** In every run, an attachment is there until it is disposed of or the connection closes; attaching adds the next number. */
  lemma AttachedExactly(s: State, i: Input, b: Att)
    requires Reachable(s) && Enabled(s, i)
    ensures b in Step(s, i).live
            <==> (b in s.live && !i.Close? && i != Dispose(b)) || (i.Attach? && b == Att(s.lastSeq + 1, i.scope))
    ensures Step(s, i).lastSeq == s.lastSeq + if i.Attach? then 1 else 0
  {
    hide Step, RouterDelivery.HeldOk, RouterDelivery.BytesOk, RouterDelivery.DeliveryOk, RouterDelivery.EndsOk,
         RouterDelivery.LiveOk;
    RouterDelivery.ReachableDeliveryInv(s);
    if i.Attach? {
      AttachAdds(s, i.scope, b);
    } else if i.Dispose? {
      DisposeRemoves(s, i.att, b);
    } else if Settles(i) {
      SettleAttachesNothing(s, i);
    } else {
      OthersAttachNothing(s, i);
    }
  }

  lemma OthersAttachNothing(s: State, i: Input)
    requires Enabled(s, i) && !i.Attach? && !i.Dispose? && !Settles(i)
    ensures Step(s, i).live == (if i.Close? then [] else s.live) && Step(s, i).lastSeq == s.lastSeq
  {
    hide Recompute, NeedsTopology, Bootstrap, RefreshWindow, Requery, UnplaceRows, UnplaceResult, RowsOutside, Writes, LiveRecipients;
    if !i.Output? && !i.Close? {
      hide Step;
      QuietKeepsOutput(s, i);
    }
  }

  lemma AttachAdds(s: State, scope: Scope, b: Att)
    ensures var r := Step(s, Attach(scope));
            (b in r.live <==> b in s.live || b == Att(s.lastSeq + 1, scope)) && r.lastSeq == s.lastSeq + 1
  {
    hide Recompute, Bootstrap;
  }

  lemma DisposeRemoves(s: State, a: Att, b: Att)
    requires RouterDelivery.LiveOk(s.live, s.lastSeq) && Enabled(s, Dispose(a))
    ensures var r := Step(s, Dispose(a)); (b in r.live <==> b in s.live && b != a) && r.lastSeq == s.lastSeq
  {
    hide Recompute, RouterDelivery.LiveOk, Detach;
    if a in s.live { RouterDelivery.DetachKeeps(s.live, a, s.lastSeq); }
  }

  lemma SettleAttachesNothing(s: State, i: Input)
    requires Enabled(s, i) && Settles(i)
    ensures Step(s, i).live == s.live && Step(s, i).lastSeq == s.lastSeq
  {
    hide Step, Settle, TakeHeld, ReplayAll, Applied;
    SettleLast(s, i);
    AppliedKeeps(s, i);
    SettledQueue(Applied(s, i), i.query);
  }

  // ---------------------------------------------------------------------------------------
  // Early output is held
  // ---------------------------------------------------------------------------------------

  /** Output of this pane would be early: nothing places it yet, somebody may want it, and a reply may still place it. */
  predicate Early(s: State, pane: nat) {
    && pane !in s.table
    && (exists a <- s.live :: a.scope.Session? || a.scope.Window?)
    && s.queries != {}
  }

  predicate Fits(s: State, size: nat) {
    SumSizes(s.held) + size <= 4 * 1024 * 1024
  }

  /** The router's own tests are the facts they stand for. */
  lemma RouterAgrees(s: State)
    requires Reachable(s)
    ensures s.inFlight > 0 <==> s.queries != {}
    ensures s.heldBytes == SumSizes(s.held)
    ensures AnyTopological(s.live) <==> exists a <- s.live :: a.scope.Session? || a.scope.Window?
  {
    hide RouterDelivery.BytesOk, RouterDelivery.DeliveryOk, RouterDelivery.AttachmentsOk, SumSizes, Reachable,
         RouterQueries.RowsOk, RouterQueries.NotStarved, RouterQueries.SentBy;
    RouterDelivery.ReachableDeliveryInv(s);
    RouterQueries.ReachableQueryInv(s);
  }

  /**
    In every run, an arriving chunk is held exactly when it is early and fits; an early chunk that does not fit is
    counted as refused; and no other chunk is held or refused.
   */
  lemma EarlyOutput(s: State, pane: nat, size: nat)
    requires Reachable(s)
    ensures var r := Step(s, Output(pane, size));
            && r.arrivals == s.arrivals + [Arrival(pane, size, s.lastSeq)]
            && r.held == (if Early(s, pane) && Fits(s, size) then s.held + [Held(pane, |s.arrivals|, size, s.lastSeq)] else s.held)
            && r.refusedBytes == s.refusedBytes + (if Early(s, pane) && !Fits(s, size) then size else 0)
  {
    hide Reachable, AnyTopological, SumSizes, Writes, LiveRecipients;
    RouterAgrees(s);
  }

  // ---------------------------------------------------------------------------------------
  // What a settle does with it
  // ---------------------------------------------------------------------------------------

  /** Every attachment that admits the chunk's placed pane, and was there at its arrival, has been written the chunk. */
  ghost predicate Delivered(r: State, h: Held) {
    h.pane in r.table
    && forall a <- r.live | (a.scope.Session? || a.scope.Window?) && a.num <= h.attachedBy
                           && RouterInterest.Admits(a.scope, h.pane, Some(r.table[h.pane])) ::
         Wrote(a, h.pane, h.chunk, true) in r.trace
  }

  lemma SettleHeld(s: State, i: Input)
    requires Enabled(s, i) && Settles(i) && RouterQueries.QueriesOk(Step(s, i))
    ensures var r := Step(s, i);
            forall h :: h in r.held <==> h in s.held && h.pane !in r.table && r.queries != {}
  {
    hide Step, Settle, TakeHeld, ReplayAll, Applied, RouterQueries.SentBy;
    var x := Applied(s, i);
    SettleLast(s, i);
    AppliedKeeps(s, i);
    SettledQueue(x, i.query);
    var t := TakeHeld(x.(inFlight := x.inFlight - 1, queries := x.queries - {i.query}));
    RouterDelivery.ReplayAllHolds(t, x.held);
    ReplayKeepsQueries(t, x.held);
  }

  lemma {:induction false} ReplayKeepsQueries(s: State, pending: seq<Held>)
    ensures var r := ReplayAll(s, pending);
            r.queries == s.queries && r.inFlight == s.inFlight && r.table == s.table && r.live == s.live
  {
  }

  lemma OthersHold(s: State, i: Input)
    requires Enabled(s, i) && !Settles(i) && !i.Output?
    ensures Step(s, i).held == if i.Close? then [] else s.held
  {
    hide Step, Enabled;
    if i.Attach? || i.Dispose? || i.Close? {
      AttachmentsWriteNothing(s, i, Wrote(Att(0, Server), 0, 0, false));
    } else {
      QuietKeepsOutput(s, i);
    }
  }

  /**
    In every run, a held chunk stays held until its connection closes or a query settles. A settle that finds its
    pane placed delivers it; one that leaves it unplaced keeps it while another query is outstanding, and drops it
    when none is.
   */
  lemma HeldFate(s: State, i: Input, h: Held)
    requires Reachable(s) && Enabled(s, i) && h in s.held
    ensures var r := Step(s, i);
            && (h in r.held <==> !i.Close? && (Settles(i) ==> h.pane !in r.table && r.queries != {}))
            && (Settles(i) && h.pane in r.table ==> Delivered(r, h))
  {
    hide Step, RouterQueries.QueriesOk, RouterQueries.RowsOk, RouterQueries.NotStarved, Settles, Enabled;
    RouterQueries.ReachableQueryInv(s);
    RouterQueries.StepKeepsQueries(s, i);
    if Settles(i) {
      SettleHeld(s, i);
      SettleDelivers(s, i, h);
    } else if i.Output? {
      EarlyOutput(s, i.pane, i.size);
    } else {
      OthersHold(s, i);
    }
  }

  lemma SettleDelivers(s: State, i: Input, h: Held)
    requires Enabled(s, i) && Settles(i) && h in s.held
    ensures !i.Close?
    ensures var r := Step(s, i); h.pane in r.table ==> Delivered(r, h)
  {
    hide Step, Enabled;
    var r := Step(s, i);
    if h.pane in r.table {
      forall a <- r.live | (a.scope.Session? || a.scope.Window?) && a.num <= h.attachedBy
                           && RouterInterest.Admits(a.scope, h.pane, Some(r.table[h.pane]))
        ensures Wrote(a, h.pane, h.chunk, true) in r.trace
      {
        var e := Wrote(a, h.pane, h.chunk, true);
        SettleWrites(s, i, e);
        assert Replays(r.table, r.live, h, e);
      }
    }
  }

  // ---------------------------------------------------------------------------------------
  // Over every run
  // ---------------------------------------------------------------------------------------

  lemma {:induction false} RunsCompose(s: State, a: seq<Input>, b: seq<Input>)
    requires CanRun(s, a) && CanRun(RunFrom(s, a), b)
    ensures CanRun(s, a + b) && RunFrom(s, a + b) == RunFrom(RunFrom(s, a), b)
    decreases |a|
  {
    hide Step, Enabled;
    if a == [] {
      assert a + b == b;
    } else {
      RunsCompose(Step(s, a[0]), a[1..], b);
      assert (a + b)[1..] == a[1..] + b && (a + b)[0] == a[0];
    }
  }

  /** One step further from a state that some run reaches. */
  lemma StaysReachable(s: State, i: Input)
    requires Reachable(s) && Enabled(s, i)
    ensures Reachable(Step(s, i))
  {
    hide CanRun, RunFrom, Step, Enabled, Initial;
    var suppression: bool, inputs :| CanRun(Initial(suppression), inputs) && s == RunFrom(Initial(suppression), inputs);
    OneStep(s, i);
    RunsCompose(Initial(suppression), inputs, [i]);
  }

  lemma OneStep(s: State, i: Input)
    requires Enabled(s, i)
    ensures CanRun(s, [i]) && RunFrom(s, [i]) == Step(s, i)
  {
    hide Step, Enabled;
    assert [i][1..] == [];
  }

  /** At some point of the run the chunk is delivered by a settle, dropped by one that leaves nothing outstanding, or closed on. */
  ghost predicate LeavesDuring(s: State, inputs: seq<Input>, h: Held)
    requires CanRun(s, inputs)
    decreases |inputs|
  {
    inputs != []
    && (Leaves(s, inputs[0], h) || LeavesDuring(Step(s, inputs[0]), inputs[1..], h))
  }

  ghost predicate Leaves(s: State, i: Input, h: Held)
    requires Enabled(s, i)
  {
    var r := Step(s, i);
    h in s.held && (i.Close? || (Settles(i) && (Delivered(r, h) || (h.pane !in r.table && r.queries == {}))))
  }

  lemma {:induction false} HeldOrLeft(s: State, inputs: seq<Input>, h: Held)
    requires Reachable(s) && CanRun(s, inputs) && h in s.held
    ensures h in RunFrom(s, inputs).held || LeavesDuring(s, inputs, h)
    decreases |inputs|
  {
    hide Step, Enabled, Settles, Delivered, Reachable;
    if inputs != [] {
      HeldFate(s, inputs[0], h);
      StaysReachable(s, inputs[0]);
      if h in Step(s, inputs[0]).held {
        HeldOrLeft(Step(s, inputs[0]), inputs[1..], h);
      }
    }
  }

  /**
    In every run, from the arrival of an early chunk on: it was refused because it did not fit, it is held, or it
    left the hold by being delivered, by being dropped with nothing outstanding, or with its connection.
   */
  lemma EarlyChunkAccounted(s: State, pane: nat, size: nat, inputs: seq<Input>)
    requires Reachable(s) && Early(s, pane) && CanRun(Step(s, Output(pane, size)), inputs)
    ensures var h := Held(pane, |s.arrivals|, size, s.lastSeq);
            || !Fits(s, size)
            || h in RunFrom(Step(s, Output(pane, size)), inputs).held
            || LeavesDuring(Step(s, Output(pane, size)), inputs, h)
  {
    hide Step, Early, Fits, Reachable, RunFrom, CanRun, LeavesDuring;
    EarlyOutput(s, pane, size);
    OutputEnabled(s, pane, size);
    StaysReachable(s, Output(pane, size));
    if Fits(s, size) {
      HeldOrLeft(Step(s, Output(pane, size)), inputs, Held(pane, |s.arrivals|, size, s.lastSeq));
    }
  }

  lemma OutputEnabled(s: State, pane: nat, size: nat)
    ensures Enabled(s, Output(pane, size))
  {
  }

  /** Through the run, the pane stays unplaced with a query outstanding, and the connection is not closed. */
  ghost predicate StaysEarly(s: State, inputs: seq<Input>, pane: nat)
    requires CanRun(s, inputs)
    decreases |inputs|
  {
    && pane !in s.table && s.queries != {}
    && (inputs != [] ==> !inputs[0].Close? && StaysEarly(Step(s, inputs[0]), inputs[1..], pane))
  }

  lemma {:induction false} HeldMeanwhile(s: State, inputs: seq<Input>, h: Held)
    requires Reachable(s) && CanRun(s, inputs) && h in s.held && StaysEarly(s, inputs, h.pane)
    ensures h in RunFrom(s, inputs).held && Reachable(RunFrom(s, inputs))
    decreases |inputs|
  {
    hide Step, Enabled, Settles, Delivered, Reachable;
    if inputs != [] {
      HeldFate(s, inputs[0], h);
      StaysReachable(s, inputs[0]);
      assert StaysEarly(Step(s, inputs[0]), inputs[1..], h.pane);
      HeldMeanwhile(Step(s, inputs[0]), inputs[1..], h);
    }
  }

  /**
    End to end: an early chunk that fits reaches, when a settle first places its pane, every window and session
    attachment that admits the pane there and was made by the chunk's arrival; the bytes are those that arrived.
   */
  lemma EarlyOutputReaches(s: State, pane: nat, size: nat, meanwhile: seq<Input>, i: Input, a: Att)
    requires Reachable(s) && Early(s, pane) && Fits(s, size)
    requires var s1 := Step(s, Output(pane, size)); CanRun(s1, meanwhile) && StaysEarly(s1, meanwhile, pane)
    requires var t := RunFrom(Step(s, Output(pane, size)), meanwhile);
             Enabled(t, i) && Settles(i) && pane in Step(t, i).table && a in Step(t, i).live && a.num <= s.lastSeq
             && (a.scope.Session? || a.scope.Window?) && RouterInterest.Admits(a.scope, pane, Some(Step(t, i).table[pane]))
    ensures Wrote(a, pane, |s.arrivals|, true) in Step(RunFrom(Step(s, Output(pane, size)), meanwhile), i).trace
  {
    hide Step, Early, Fits, Reachable, RunFrom, CanRun, StaysEarly, Enabled, Settles, RouterInterest.Admits;
    var h := Held(pane, |s.arrivals|, size, s.lastSeq);
    EarlyOutput(s, pane, size);
    OutputEnabled(s, pane, size);
    StaysReachable(s, Output(pane, size));
    HeldMeanwhile(Step(s, Output(pane, size)), meanwhile, h);
    HeldFate(RunFrom(Step(s, Output(pane, size)), meanwhile), i, h);
  }

  // ---------------------------------------------------------------------------------------
  // Refused output is reported
  // ---------------------------------------------------------------------------------------

  /** Nothing refused is left unreported by a settle, and the report says how many bytes were. */
  lemma RefusalIsReported(s: State, i: Input)
    requires Enabled(s, i) && Settles(i)
    ensures var r := Step(s, i);
            && r.refusedBytes == 0
            && forall e: Effect | e.Overflowed? :: e in r.trace <==> e in s.trace || (s.refusedBytes > 0 && e == Overflowed(s.refusedBytes))
  {
    hide Step, Settle, ReplayAll, Applied;
    var x := Applied(s, i);
    SettleLast(s, i);
    AppliedKeeps(s, i);
    AppliedReportsNothing(s, i);
    SettleReports(x, i.query);
  }

  lemma SettleReports(s: State, q: Query)
    ensures var r := Settle(s, q);
            && r.refusedBytes == 0
            && forall e: Effect | e.Overflowed? :: e in r.trace <==> e in s.trace || (s.refusedBytes > 0 && e == Overflowed(s.refusedBytes))
  {
    hide ReplayAll;
    var t := TakeHeld(s.(inFlight := s.inFlight - 1, queries := s.queries - {q}));
    ReplayReportsNothing(t, s.held);
  }

  lemma {:induction false} ReplayReportsNothing(s: State, pending: seq<Held>)
    ensures var r := ReplayAll(s, pending);
            r.refusedBytes == s.refusedBytes && forall e: Effect | e.Overflowed? :: e in r.trace <==> e in s.trace
    decreases |pending|
  {
    hide UpTo, TopologyRecipients;
    if pending != [] {
      ReplayReportsNothing(s, pending[..|pending| - 1]);
    }
  }

  lemma AppliedReportsNothing(s: State, i: Input)
    requires Enabled(s, i) && Settles(i)
    ensures forall e: Effect | e.Overflowed? :: e in Applied(s, i).trace <==> e in s.trace
  {
    hide ApplySeed, ApplyRefresh, FailRefresh, NeedsTopology, Bootstrap;
    var q := i.query;
    SeedReportsNothing(s, q, if i.BootstrapReply? then i.entries else []);
    if q.kind.Refresh? {
      RefreshReportsNothing(s, q, if i.RefreshReply? then i.entries else [], if i.RefreshError? then i.windowGone else true);
    }
  }

  lemma SeedReportsNothing(s: State, q: Query, entries: seq<Entry>)
    ensures forall e: Effect | e.Overflowed? :: e in ApplySeed(s, q, entries).trace <==> e in s.trace
  {
    hide Recompute, UnplaceAll, UnplaceAllResult, SeedRows;
  }

  lemma RefreshReportsNothing(s: State, q: Query, entries: seq<Entry>, gone: bool)
    requires q.kind.Refresh?
    ensures forall e: Effect | e.Overflowed? :: e in ApplyRefresh(s, q, entries).trace <==> e in s.trace
    ensures forall e: Effect | e.Overflowed? :: e in FailRefresh(s, q, gone).trace <==> e in s.trace
  {
    hide Recompute, UpdateRows, UpdateLoses, RowsOutside, NeedsTopology, Bootstrap;
  }

  // ---------------------------------------------------------------------------------------
  // Counting bytes
  // ---------------------------------------------------------------------------------------

  /** The bytes held for panes the table places, or does not. */
  function SizesHeld(held: seq<Held>, t: Table, placed: bool): nat {
    if held == [] then 0
    else
      var h := held[|held| - 1];
      SizesHeld(held[..|held| - 1], t, placed) + if h.pane in t <==> placed then h.size else 0
  }

  const NOTHING := Bytes(0, 0, 0, 0, 0, 0, 0)

  /** What one step does with early bytes, told from the states before and after and the input alone. */
  ghost function Fates(s: State, i: Input): Bytes
    requires Enabled(s, i)
  {
    var r := Step(s, i);
    if i.Output? && Early(s, i.pane) then NOTHING.(eligible := i.size, refused := if Fits(s, i.size) then 0 else i.size)
    else if i.Close? then NOTHING.(discarded := SumSizes(s.held), forgotten := s.refusedBytes)
    else if Settles(i) then
      NOTHING.(replayed := SizesHeld(s.held, r.table, true),
               dropped := if r.queries == {} then SizesHeld(s.held, r.table, false) else 0)
    else NOTHING
  }

  function Plus(a: Bytes, b: Bytes): Bytes {
    Bytes(a.eligible + b.eligible, a.replayed + b.replayed, a.dropped + b.dropped, a.discarded + b.discarded,
          a.refused + b.refused, a.reported + b.reported, a.forgotten + b.forgotten)
  }

  ghost function RunFates(s: State, inputs: seq<Input>): Bytes
    requires CanRun(s, inputs)
    decreases |inputs|
  {
    if inputs == [] then NOTHING else Plus(Fates(s, inputs[0]), RunFates(Step(s, inputs[0]), inputs[1..]))
  }

  lemma {:induction false} ReplayAllCounts(s: State, pending: seq<Held>)
    ensures var r := ReplayAll(s, pending);
            r.bytes == s.bytes.(replayed := s.bytes.replayed + SizesHeld(pending, s.table, true),
                                dropped := s.bytes.dropped + if s.inFlight > 0 then 0 else SizesHeld(pending, s.table, false))
    decreases |pending|
  {
    if pending != [] {
      var n := |pending| - 1;
      ReplayAllCounts(s, pending[..n]);
      ReplayKeepsQueries(s, pending[..n]);
    }
  }

  lemma SettleCounts(s: State, i: Input)
    requires Enabled(s, i) && Settles(i) && RouterQueries.QueriesOk(Step(s, i))
    ensures var r := Step(s, i); r.bytes == Plus(s.bytes, Fates(s, i)).(reported := r.bytes.reported)
  {
    hide Step, Settle, TakeHeld, ReplayAll, Applied, RouterQueries.SentBy, SizesHeld, Enabled;
    var x := Applied(s, i);
    SettleLast(s, i);
    AppliedKeeps(s, i);
    SettledQueue(x, i.query);
    var t := TakeHeld(x.(inFlight := x.inFlight - 1, queries := x.queries - {i.query}));
    ReplayAllCounts(t, x.held);
    ReplayKeepsQueries(t, x.held);
  }

  lemma OutputCounts(s: State, pane: nat, size: nat)
    requires Reachable(s)
    ensures var r := Step(s, Output(pane, size));
            r.bytes == Plus(s.bytes, Fates(s, Output(pane, size))).(reported := r.bytes.reported)
  {
    hide Reachable, AnyTopological, SumSizes, Writes, LiveRecipients;
    RouterAgrees(s);
  }

  lemma OthersCount(s: State, i: Input)
    requires Enabled(s, i) && !Settles(i) && !i.Output? && s.heldBytes == SumSizes(s.held)
    ensures var r := Step(s, i); r.bytes == Plus(s.bytes, Fates(s, i)).(reported := r.bytes.reported)
  {
    hide Recompute, Bootstrap, AttSet, Detach, SumSizes;
    if !i.Attach? && !i.Dispose? && !i.Close? {
      hide Step;
      QuietKeepsOutput(s, i);
    }
  }

  /** The router's counters count what happened. */
  lemma StepCounts(s: State, i: Input)
    requires Reachable(s) && Enabled(s, i)
    ensures var r := Step(s, i); r.bytes == Plus(s.bytes, Fates(s, i)).(reported := r.bytes.reported)
  {
    hide Step, Fates, Enabled, RouterQueries.QueriesOk, RouterQueries.RowsOk, RouterQueries.NotStarved,
         RouterDelivery.BytesOk, RouterDelivery.DeliveryOk, RouterDelivery.AttachmentsOk;
    RouterDelivery.ReachableDeliveryInv(s);
    RouterQueries.ReachableQueryInv(s);
    RouterQueries.StepKeepsQueries(s, i);
    if i.Output? {
      OutputCounts(s, i.pane, i.size);
    } else if Settles(i) {
      SettleCounts(s, i);
    } else {
      OthersCount(s, i);
    }
  }

  lemma {:induction false} RunCounts(s: State, inputs: seq<Input>)
    requires Reachable(s) && CanRun(s, inputs)
    ensures var f := RunFrom(s, inputs);
            Reachable(f) && f.bytes == Plus(s.bytes, RunFates(s, inputs)).(reported := f.bytes.reported)
    decreases |inputs|
  {
    hide Step, Fates, Enabled, Reachable;
    if inputs != [] {
      StepCounts(s, inputs[0]);
      StaysReachable(s, inputs[0]);
      RunCounts(Step(s, inputs[0]), inputs[1..]);
    }
  }

  lemma StartIsReachable(suppression: bool)
    ensures Reachable(Initial(suppression))
  {
    assert CanRun(Initial(suppression), []) && RunFrom(Initial(suppression), []) == Initial(suppression);
  }

  /**
    In every run, the bytes that arrived early are those held, and those whose chunks were replayed by a settle,
    dropped by one that left nothing outstanding, discarded by a close, or refused by the cap; and the refused ones
    are still to be reported, in a report, or forgotten by a close.
   */
  lemma EarlyBytesAccounted(suppression: bool, inputs: seq<Input>)
    requires CanRun(Initial(suppression), inputs)
    ensures var f, b := RunFrom(Initial(suppression), inputs), RunFates(Initial(suppression), inputs);
            && b.eligible == SumSizes(f.held) + b.replayed + b.dropped + b.discarded + b.refused
            && b.refused == f.refusedBytes + RouterDelivery.SumOverflows(f.trace) + b.forgotten
  {
    hide RunFrom, CanRun, RunFates, Reachable, SumSizes, RouterDelivery.SumOverflows, RouterDelivery.DeliveryOk,
         RouterDelivery.AttachmentsOk;
    StartIsReachable(suppression);
    RunCounts(Initial(suppression), inputs);
    RouterDelivery.ReachableDeliveryInv(RunFrom(Initial(suppression), inputs));
  }
}

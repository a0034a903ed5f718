/**
  What the attachments receive, over every run.

  The main results are `DeliveredInOrderOnce` (an attachment gets each chunk at most once,
  and a pane's chunks in arrival order, whatever mix of live output and replay brought them),
  `EndedOnceAfterLastWrite`, and `HeldIsBoundedAndConserved`.
 */
module RouterDelivery {
  import opened Options
  import opened TopologyTable
  import opened TopologyEpoch
  import opened RouterSpec
  import RouterQueries

  // ---------------------------------------------------------------------------------------
  // The hold
  // ---------------------------------------------------------------------------------------

  ghost predicate HeldOk(s: State) {
    && s.heldBytes == SumSizes(s.held) <= HELD_BYTES_LIMIT
    && (s.held != [] ==> s.inFlight > 0)
    && forall h <- s.held :: h.pane !in s.table
  }

  /** What a settle keeps: the chunks still unplaced, while a query is still outstanding. */
  function StillWaiting(t: Table, inFlight: int, pending: seq<Held>): (r: seq<Held>)
    ensures forall h :: h in r <==> h in pending && h.pane !in t && inFlight > 0
    ensures SumSizes(r) <= SumSizes(pending)
  {
    if pending == [] then []
    else
      var n := |pending| - 1;
      assert pending == pending[..n] + [pending[n]];
      var before := StillWaiting(t, inFlight, pending[..n]);
      if pending[n].pane !in t && inFlight > 0 then
        assert (before + [pending[n]])[..|before|] == before;
        before + [pending[n]]
      else before
  }

  lemma SumSizesOne(held: seq<Held>, h: Held)
    ensures SumSizes(held + [h]) == SumSizes(held) + h.size
  {
    assert (held + [h])[..|held|] == held;
  }

  lemma {:induction false} ReplayAllHolds(s: State, pending: seq<Held>)
    requires s.held == [] && s.heldBytes == 0
    ensures var r := ReplayAll(s, pending);
            && r.held == StillWaiting(s.table, s.inFlight, pending)
            && r.heldBytes == SumSizes(r.held)
            && r.bytes == s.bytes.(replayed := r.bytes.replayed, dropped := r.bytes.dropped)
            && r.heldBytes + r.bytes.replayed + r.bytes.dropped
               == SumSizes(pending) + s.bytes.replayed + s.bytes.dropped
    decreases |pending|
  {
    if pending != [] {
      var n := |pending| - 1;
      ReplayAllHolds(s, pending[..n]);
      SumSizesOne(ReplayAll(s, pending[..n]).held, pending[n]);
    }
  }

  lemma SettleHolds(s: State, q: Query)
    requires s.heldBytes == SumSizes(s.held) <= HELD_BYTES_LIMIT
    ensures HeldOk(Settle(s, q))
  {
    var s1 := s.(inFlight := s.inFlight - 1, queries := s.queries - {q});
    ReplayAllHolds(TakeHeld(s1), s.held);
  }

  /** Deleting rows and starting queries keep the hold. */
  lemma HoldSurvives(s: State, r: State)
    requires HeldOk(s)
    requires r.held == s.held && r.heldBytes == s.heldBytes && r.inFlight >= s.inFlight && r.table.Keys <= s.table.Keys
    ensures HeldOk(r)
  {
  }

  lemma {:induction false} RefreshAllStartsMore(s: State, windows: seq<nat>)
    ensures RefreshAll(s, windows).inFlight >= s.inFlight
    decreases |windows|
  {
    if windows != [] {
      RefreshAllStartsMore(RefreshWindow(s, windows[0]), windows[1..]);
    }
  }

  lemma RequeryStartsMore(s: State, c: Contradiction, windows: seq<nat>)
    ensures Requery(s, c, windows).inFlight >= s.inFlight
  {
    RefreshAllStartsMore(s, AddAll(c.left, windows));
  }

  lemma OutputHolds(s: State, pane: nat, size: nat)
    requires HeldOk(s)
    ensures HeldOk(OnOutput(s, pane, size))
  {
    SumSizesOne(s.held, Held(pane, |s.arrivals|, size, s.lastSeq));
  }

  lemma LayoutHolds(s: State, w: nat, layout: Option<seq<nat>>)
    requires HeldOk(s)
    ensures HeldOk(OnLayout(s, w, layout))
  {
    hide UnplaceResult;
    if NeedsTopology(s) && layout.Some? {
      var s1 := Call(s, LayoutRecorded(w, layout.value)).(table := UnplaceRows(s.table, w, layout.value));
      HoldSurvives(s, s1);
      RequeryStartsMore(s1, UnplaceResult(s.table, w, layout.value), [w]);
      HoldSurvives(s1, Requery(s1, UnplaceResult(s.table, w, layout.value), [w]));
    }
  }

  lemma SameHeld(s: State, q: Query, entries: seq<Entry>)
    ensures var r := ApplySeed(s, q, entries); r.held == s.held && r.heldBytes == s.heldBytes
    ensures q.kind.Refresh? ==> var r := ApplyRefresh(s, q, entries); r.held == s.held && r.heldBytes == s.heldBytes
    ensures q.kind.Refresh? ==> forall gone :: var r := FailRefresh(s, q, gone); r.held == s.held && r.heldBytes == s.heldBytes
  {
    hide Recompute, UnplaceAll, UnplaceAllResult, SeedRows, UpdateRows, UpdateLoses;
  }

  lemma SettledHolds(s: State, i: Input)
    requires HeldOk(s) && Enabled(s, i)
    requires i.BootstrapReply? || i.BootstrapError? || i.RefreshReply? || i.RefreshError?
    ensures HeldOk(Step(s, i))
  {
    hide Recompute, ApplySeed, ApplyRefresh, FailRefresh, Settle, NeedsTopology, Bootstrap;
    var q := i.query;
    SettleHolds(s, q);
    match i
    case BootstrapReply(_, entries) =>
      SameHeld(s, q, entries);
      SettleHolds(ApplySeed(s, q, entries), q);
      SettleHolds(BootstrapIfNeeded(s), q);
    case BootstrapError(_) =>
      SettleHolds(s.(trace := s.trace + [BootstrapFailed(q.sentAt)]), q);
    case RefreshReply(_, entries) =>
      SameHeld(s, q, entries);
      SettleHolds(ApplyRefresh(s, q, entries), q);
    case RefreshError(_, gone) =>
      SameHeld(s, q, []);
      SettleHolds(FailRefresh(s, q, gone), q);
  }

  lemma StepHolds(s: State, i: Input)
    requires HeldOk(s) && Enabled(s, i)
    ensures HeldOk(Step(s, i))
  {
    hide Recompute, OnBootstrapReply, OnBootstrapError, OnRefreshReply, OnRefreshError, OnLayout, OnOutput, SumSizes;
    match i
    case Output(pane, size) => OutputHolds(s, pane, size);
    case LayoutChanged(w, layout) => LayoutHolds(s, w, layout);
    case BootstrapReply(_, _) => SettledHolds(s, i);
    case BootstrapError(_) => SettledHolds(s, i);
    case RefreshReply(_, _) => SettledHolds(s, i);
    case RefreshError(_, _) => SettledHolds(s, i);
    case _ => OtherHolds(s, i);
  }

  lemma OtherHolds(s: State, i: Input)
    requires HeldOk(s) && Enabled(s, i) && !i.Output? && !i.LayoutChanged?
    requires !i.BootstrapReply? && !i.BootstrapError? && !i.RefreshReply? && !i.RefreshError?
    ensures HeldOk(Step(s, i))
  {
    hide Recompute, NeedsTopology, SumSizes, Detach, AttSet, RowsOutside;
    if i.Close? {
      assert SumSizes([]) == 0 by { NoSizes(); }
    } else {
      hide HeldOk;
      if i.MembershipChanged? {
        assert RowsOutside(s.table, i.window).Keys <= s.table.Keys by { FewerRows(s.table, i.window); }
      }
      HoldSurvives(s, Step(s, i));
    }
  }

  lemma FewerRows(t: Table, w: nat)
    ensures RowsOutside(t, w).Keys <= t.Keys
  {
  }

  lemma NoSizes()
    ensures SumSizes([]) == 0
  {
  }

  // ---------------------------------------------------------------------------------------
  // Conservation of eligible bytes
  // ---------------------------------------------------------------------------------------

  function SumOverflows(trace: seq<Effect>): nat {
    if trace == [] then 0
    else
      var last := trace[|trace| - 1];
      SumOverflows(trace[..|trace| - 1]) + if last.Overflowed? then last.bytes else 0
  }

  lemma {:induction false} SumOverflowsAppend(a: seq<Effect>, b: seq<Effect>)
    ensures SumOverflows(a + b) == SumOverflows(a) + SumOverflows(b)
    decreases |b|
  {
    if b == [] {
      assert a + b == a;
    } else {
      var n := |b| - 1;
      SumOverflowsAppend(a, b[..n]);
      assert (a + b)[..|a + b| - 1] == a + b[..n];
    }
  }

  lemma {:induction false} NoOverflows(b: seq<Effect>)
    requires forall e <- b :: !e.Overflowed?
    ensures SumOverflows(b) == 0
  {
    if b != [] {
      NoOverflows(b[..|b| - 1]);
    }
  }

  ghost predicate BytesOk(s: State) {
    var b := s.bytes;
    && b.eligible == s.heldBytes + b.replayed + b.dropped + b.discarded + b.refused
    && b.refused == s.refusedBytes + b.reported + b.forgotten
    && b.reported == SumOverflows(s.trace)
  }

  /** A step that keeps the hold and the counters and reports no overflow keeps the balance. */
  lemma BytesSurvive(s: State, r: State, more: seq<Effect>)
    requires BytesOk(s) && r.heldBytes == s.heldBytes && r.refusedBytes == s.refusedBytes && r.bytes == s.bytes
    requires r.trace == s.trace + more && forall e <- more :: !e.Overflowed?
    ensures BytesOk(r)
  {
    SumOverflowsAppend(s.trace, more);
    NoOverflows(more);
  }

  lemma {:induction false} ReplayAllReportsNothing(s: State, pending: seq<Held>)
    ensures var r := ReplayAll(s, pending);
            SumOverflows(r.trace) == SumOverflows(s.trace) && r.refusedBytes == s.refusedBytes
    decreases |pending|
  {
    if pending != [] {
      var n := |pending| - 1;
      var before := ReplayAll(s, pending[..n]);
      ReplayAllReportsNothing(s, pending[..n]);
      var h := pending[n];
      if h.pane in s.table {
        var more := Writes(UpTo(TopologyRecipients(s.live, Some(s.table[h.pane])), h.attachedBy), h.pane, h.chunk, true);
        SumOverflowsAppend(before.trace, more);
        NoOverflows(more);
      }
    }
  }

  lemma TakeHeldBalances(s: State)
    requires BytesOk(s)
    ensures var r := TakeHeld(s); BytesOk(r.(heldBytes := s.heldBytes))
  {
    SumOverflowsAppend(s.trace, [Overflowed(s.refusedBytes)]);
    assert [Overflowed(s.refusedBytes)][..0] == [];
  }

  lemma ReplayAllBalances(s: State, pending: seq<Held>)
    requires s.held == [] && s.heldBytes == 0 && BytesOk(s.(heldBytes := SumSizes(pending)))
    ensures BytesOk(ReplayAll(s, pending))
  {
    ReplayAllHolds(s, pending);
    ReplayAllReportsNothing(s, pending);
    hide StillWaiting, SumSizes, SumOverflows, ReplayAll;
  }

  lemma SettleBalances(s: State, q: Query)
    requires BytesOk(s) && s.heldBytes == SumSizes(s.held)
    ensures BytesOk(Settle(s, q))
  {
    hide BytesOk, ReplayAll;
    var s1 := s.(inFlight := s.inFlight - 1, queries := s.queries - {q});
    SameBalance(s, s1);
    TakeHeldBalances(s1);
    SameBalance(TakeHeld(s1).(heldBytes := s.heldBytes), TakeHeld(s1).(heldBytes := SumSizes(s.held)));
    ReplayAllBalances(TakeHeld(s1), s.held);
  }

  lemma SameBalance(s: State, r: State)
    requires BytesOk(s)
    requires r.heldBytes == s.heldBytes && r.refusedBytes == s.refusedBytes && r.bytes == s.bytes && r.trace == s.trace
    ensures BytesOk(r)
  {
  }

  lemma OutputBalances(s: State, pane: nat, size: nat)
    requires BytesOk(s)
    ensures BytesOk(OnOutput(s, pane, size))
  {
    hide LiveRecipients;
    var more := Writes(LiveRecipients(s.live, pane, Placement(s.table, pane)), pane, |s.arrivals|, false);
    var s1 := s.(arrivals := s.arrivals + [Arrival(pane, size, s.lastSeq)], trace := s.trace + more);
    BytesSurvive(s, s1, more);
    HoldBalances(s1, pane, |s.arrivals|, size);
  }

  lemma HoldBalances(s: State, pane: nat, chunk: nat, size: nat)
    requires BytesOk(s)
    ensures BytesOk(Hold(s, pane, chunk, size))
  {
    hide SumOverflows;
  }

  lemma SettlementsBalance(s: State, q: Query, entries: seq<Entry>, gone: bool)
    requires BytesOk(s)
    ensures BytesOk(ApplySeed(s, q, entries)) && BytesOk(s.(trace := s.trace + [BootstrapFailed(q.sentAt)]))
    ensures q.kind.Refresh? ==> BytesOk(ApplyRefresh(s, q, entries)) && BytesOk(FailRefresh(s, q, gone))
  {
    hide Recompute, UnplaceAll, UnplaceAllResult, SeedRows, UpdateRows, UpdateLoses, BytesOk;
    BytesSurvive(s, ApplySeed(s, q, entries), [Seeded(q.sentAt)]);
    BytesSurvive(s, s.(trace := s.trace + [BootstrapFailed(q.sentAt)]), [BootstrapFailed(q.sentAt)]);
    if q.kind.Refresh? {
      BytesSurvive(s, ApplyRefresh(s, q, entries), [Refreshed(q.kind.window, q.sentAt)]);
      var r := FailRefresh(s, q, gone);
      if r.trace == s.trace {
        BytesSurvive(s, r, []);
      } else {
        BytesSurvive(s, r, [if gone then WindowGone(q.kind.window, q.sentAt) else RefreshFailed(q.kind.window, q.sentAt)]);
      }
    }
  }

  lemma EndingBalances(s: State, a: Att)
    requires BytesOk(s)
    ensures BytesOk(OnClose(s)) && BytesOk(OnDispose(s, a))
  {
    hide Recompute;
    SumOverflowsAppend(s.trace, [Ended(AttSet(s.live))]);
    NoOverflows([Ended(AttSet(s.live))]);
    SumOverflowsAppend(s.trace, [Ended({a})]);
    NoOverflows([Ended({a})]);
  }

  lemma SettledBalances(s: State, i: Input)
    requires BytesOk(s) && HeldOk(s) && Enabled(s, i)
    requires i.BootstrapReply? || i.BootstrapError? || i.RefreshReply? || i.RefreshError?
    ensures BytesOk(Step(s, i))
  {
    hide Recompute, ApplySeed, ApplyRefresh, FailRefresh, Settle, NeedsTopology, BytesOk, Bootstrap;
    var q := i.query;
    SettleBalances(s, q);
    match i
    case BootstrapReply(_, entries) =>
      SameHeld(s, q, entries);
      SettlementsBalance(s, q, entries, true);
      SettleBalances(ApplySeed(s, q, entries), q);
      SameBalance(s, BootstrapIfNeeded(s));
      SettleBalances(BootstrapIfNeeded(s), q);
    case BootstrapError(_) =>
      SettlementsBalance(s, q, [], true);
      SettleBalances(s.(trace := s.trace + [BootstrapFailed(q.sentAt)]), q);
    case RefreshReply(_, entries) =>
      SameHeld(s, q, entries);
      SettlementsBalance(s, q, entries, true);
      SettleBalances(ApplyRefresh(s, q, entries), q);
    case RefreshError(_, gone) =>
      SameHeld(s, q, []);
      SettlementsBalance(s, q, [], gone);
      SettleBalances(FailRefresh(s, q, gone), q);
  }

  lemma StepBalances(s: State, i: Input)
    requires BytesOk(s) && HeldOk(s) && Enabled(s, i)
    ensures BytesOk(Step(s, i))
  {
    hide Recompute, OnBootstrapReply, OnBootstrapError, OnRefreshReply, OnRefreshError, OnOutput, OnClose, OnDispose,
         NeedsTopology, BytesOk, Bootstrap, UnplaceRows, UnplaceResult, HeldOk, Apply, RowsOutside, Requery,
         RefreshWindow;
    match i
    case Output(pane, size) => OutputBalances(s, pane, size);
    case Close => EndingBalances(s, Att(0, Server));
    case Dispose(a) => EndingBalances(s, a);
    case Ready(_) => SameBalance(s, Step(s, i));
    case Lost(_) => SameBalance(s, Step(s, i));
    case Attach(_) => SameBalance(s, Step(s, i));
    case MembershipChanged(_) => SameBalance(s, Step(s, i));
    case LayoutChanged(_, _) => SameBalance(s, Step(s, i));
    case SessionsChanged => SameBalance(s, Step(s, i));
    case _ => SettledBalances(s, i);
  }

  // ---------------------------------------------------------------------------------------
  // Order and multiplicity of writes
  // ---------------------------------------------------------------------------------------

  ghost predicate ChunkKnown(arrivals: seq<Arrival>, chunk: nat, pane: nat, attachedBy: nat) {
    chunk < |arrivals| && arrivals[chunk].pane == pane && attachedBy == arrivals[chunk].attachSeq
  }

  /** Every write goes to an attachment that existed when the chunk arrived; replays only to topology scopes. */
  ghost predicate WritesOk(trace: seq<Effect>, arrivals: seq<Arrival>) {
    forall e <- trace | e.Wrote? ::
      && e.chunk < |arrivals| && arrivals[e.chunk].pane == e.pane
      && e.att.num <= arrivals[e.chunk].attachSeq
      && (e.replay ==> e.att.scope.Topological())
  }

  /** Per attachment and pane, chunks are written in strictly increasing arrival order. */
  ghost predicate WritesOrdered(trace: seq<Effect>) {
    forall i, j | 0 <= i < j < |trace| && trace[i].Wrote? && trace[j].Wrote? ::
      trace[i].att == trace[j].att && trace[i].pane == trace[j].pane ==> trace[i].chunk < trace[j].chunk
  }

  /** Held chunks are in arrival order, carry what they arrived with, and are newer than what topology scopes got. */
  ghost predicate HeldKnown(held: seq<Held>, arrivals: seq<Arrival>) {
    && (forall h <- held :: ChunkKnown(arrivals, h.chunk, h.pane, h.attachedBy))
    && (forall i, j | 0 <= i < j < |held| :: held[i].chunk < held[j].chunk)
  }

  ghost predicate HeldNewer(trace: seq<Effect>, held: seq<Held>) {
    forall e <- trace, h <- held | e.Wrote? && e.att.scope.Topological() && e.pane == h.pane :: e.chunk < h.chunk
  }

  ghost predicate LiveOk(live: seq<Att>, lastSeq: nat) {
    && (forall a <- live :: 1 <= a.num <= lastSeq)
    && (forall i, j | 0 <= i < j < |live| :: live[i].num < live[j].num)
  }

  /** Each attachment is live or ended, never both; it is ended once and not written to afterwards. */
  ghost predicate EndsOk(trace: seq<Effect>, live: seq<Att>, lastSeq: nat) {
    && (forall e <- trace, a | e.Ended? && a in e.atts :: a.num <= lastSeq && a !in live)
    && (forall i, j | 0 <= i < j < |trace| && trace[i].Ended? && trace[j].Ended? :: trace[i].atts !! trace[j].atts)
    && (forall i, j | 0 <= i < j < |trace| && trace[i].Ended? && trace[j].Wrote? :: trace[j].att !in trace[i].atts)
    && (forall n | 1 <= n <= lastSeq :: IsLive(live, n) || IsEnded(trace, n))
  }

  ghost predicate IsLive(live: seq<Att>, n: nat) {
    exists a <- live :: a.num == n
  }

  ghost predicate IsEnded(trace: seq<Effect>, n: nat) {
    exists e <- trace, a | e.Ended? && a in e.atts :: a.num == n
  }

  ghost predicate DeliveryOk(s: State) {
    && WritesOk(s.trace, s.arrivals)
    && WritesOrdered(s.trace)
    && HeldKnown(s.held, s.arrivals)
    && HeldNewer(s.trace, s.held)
    && (forall a <- s.arrivals :: a.attachSeq <= s.lastSeq)
  }

  ghost predicate AttachmentsOk(s: State) {
    LiveOk(s.live, s.lastSeq) && EndsOk(s.trace, s.live, s.lastSeq)
  }

  /** No attachment occurs twice among the recipients of one dispatch. */
  ghost predicate Distinct(atts: seq<Att>) {
    forall i, j | 0 <= i < j < |atts| :: atts[i] != atts[j]
  }

  lemma {:induction false} BucketDistinct(live: seq<Att>, scope: Scope)
    requires Distinct(live)
    ensures Distinct(Bucket(live, scope))
  {
    if live != [] {
      var n := |live| - 1;
      assert live == live[..n] + [live[n]];
      BucketDistinct(live[..n], scope);
      assert live[n] !in live[..n];
      assert live[n] !in Bucket(live[..n], scope);
    }
  }

  lemma {:induction false} UpToDistinct(atts: seq<Att>, bound: nat)
    requires Distinct(atts)
    ensures Distinct(UpTo(atts, bound))
  {
    if atts != [] {
      var n := |atts| - 1;
      assert atts == atts[..n] + [atts[n]];
      UpToDistinct(atts[..n], bound);
      assert atts[n] !in atts[..n];
      assert atts[n] !in UpTo(atts[..n], bound);
    }
  }

  lemma JoinDistinct(a: seq<Att>, b: seq<Att>)
    requires Distinct(a) && Distinct(b) && forall x <- a :: x !in b
    ensures Distinct(a + b)
  {
    forall i, j | 0 <= i < j < |a + b| ensures (a + b)[i] != (a + b)[j] {
      if i < |a| <= j {
        assert (a + b)[i] in a && (a + b)[j] in b;
      }
    }
  }

  lemma RecipientsDistinct(live: seq<Att>, pane: nat, meta: Option<Placed>)
    requires Distinct(live)
    ensures Distinct(TopologyRecipients(live, meta)) && Distinct(LiveRecipients(live, pane, meta))
    ensures forall a <- TopologyRecipients(live, meta) :: a in live && a.scope.Topological()
    ensures forall a <- LiveRecipients(live, pane, meta) :: a in live && (a.scope.Topological() ==> meta.Some?)
  {
    var t := TopologyRecipients(live, meta);
    if meta.Some? {
      BucketDistinct(live, Window(meta.value.window));
      BucketDistinct(live, Session(meta.value.session));
      JoinDistinct(Bucket(live, Window(meta.value.window)), Bucket(live, Session(meta.value.session)));
    }
    BucketDistinct(live, Pane(pane));
    BucketDistinct(live, Server);
    JoinDistinct(Bucket(live, Pane(pane)), t);
    JoinDistinct(Bucket(live, Pane(pane)) + t, Bucket(live, Server));
  }

  /** Writing one chunk to distinct live attachments keeps the order, if it is newer for each of them. */
  lemma WritingKeepsOrder(trace: seq<Effect>, atts: seq<Att>, pane: nat, chunk: nat, replay: bool)
    requires WritesOrdered(trace) && Distinct(atts)
    requires forall e <- trace | e.Wrote? && e.att in atts && e.pane == pane :: e.chunk < chunk
    ensures WritesOrdered(trace + Writes(atts, pane, chunk, replay))
  {
    var more := Writes(atts, pane, chunk, replay);
    var all := trace + more;
    forall i, j | 0 <= i < j < |all| && all[i].Wrote? && all[j].Wrote? && all[i].att == all[j].att && all[i].pane == all[j].pane
      ensures all[i].chunk < all[j].chunk
    {
      if j >= |trace| {
        assert all[j] == more[j - |trace|] && all[j].att in atts;
        if i < |trace| {
          assert all[i] in trace;
        }
      }
    }
  }

  lemma WritingKeepsEnds(trace: seq<Effect>, atts: seq<Att>, pane: nat, chunk: nat, replay: bool, live: seq<Att>, lastSeq: nat)
    requires EndsOk(trace, live, lastSeq) && forall a <- atts :: a in live
    ensures EndsOk(trace + Writes(atts, pane, chunk, replay), live, lastSeq)
  {
    var more := Writes(atts, pane, chunk, replay);
    var all := trace + more;
    assert forall e <- all :: e in trace || (e.Wrote? && e.att in atts);
    forall i, j | 0 <= i < j < |all| && all[i].Ended? && all[j].Wrote? ensures all[j].att !in all[i].atts {
      if j >= |trace| {
        assert all[j].att == atts[j - |trace|];
        assert all[j].att in live;
        if i < |trace| {
          assert all[i] in trace;
        }
      }
    }
    forall n | 1 <= n <= lastSeq && IsEnded(trace, n) ensures IsEnded(all, n) {
      var e, a :| e in trace && e.Ended? && a in e.atts && a.num == n;
      assert e in all;
    }
  }

  lemma LiveDistinct(live: seq<Att>, lastSeq: nat)
    requires LiveOk(live, lastSeq)
    ensures Distinct(live)
  {
  }

  /** Writing an arriving chunk to its live recipients keeps every delivery fact. */
  lemma LiveWriteDelivers(s: State, pane: nat, size: nat)
    requires DeliveryOk(s) && AttachmentsOk(s) && forall h <- s.held :: h.pane !in s.table
    ensures var r := s.(arrivals := s.arrivals + [Arrival(pane, size, s.lastSeq)],
                        trace := s.trace + Writes(LiveRecipients(s.live, pane, Placement(s.table, pane)), pane, |s.arrivals|, false));
            DeliveryOk(r) && AttachmentsOk(r)
    ensures var r := s.trace + Writes(LiveRecipients(s.live, pane, Placement(s.table, pane)), pane, |s.arrivals|, false);
            pane !in s.table ==> forall e <- r | e.Wrote? && e.att.scope.Topological() :: e in s.trace
  {
    hide EndsOk, LiveRecipients;
    var meta := Placement(s.table, pane);
    var atts := LiveRecipients(s.live, pane, meta);
    var chunk := |s.arrivals|;
    LiveDistinct(s.live, s.lastSeq);
    RecipientsDistinct(s.live, pane, meta);
    WritingKeepsOrder(s.trace, atts, pane, chunk, false);
    WritingKeepsEnds(s.trace, atts, pane, chunk, false, s.live, s.lastSeq);
    var more := Writes(atts, pane, chunk, false);
    assert forall e <- more :: e.Wrote? && e.att in atts && e.chunk == chunk && e.pane == pane && !e.replay;
    assert forall e <- s.trace + more :: e in s.trace || e in more;
  }

  /** Holding the newest chunk, of a pane no attachment was written that chunk or a later one live. */
  lemma HoldDelivers(s: State, r: State, h: Held)
    requires DeliveryOk(s) && AttachmentsOk(s) && ChunkKnown(s.arrivals, h.chunk, h.pane, h.attachedBy)
    requires forall x <- s.held :: x.chunk < h.chunk
    requires forall e <- s.trace | e.Wrote? && e.att.scope.Topological() && e.pane == h.pane :: e.chunk < h.chunk
    requires r.held == s.held + [h] && r.trace == s.trace && r.arrivals == s.arrivals && r.live == s.live && r.lastSeq == s.lastSeq
    ensures DeliveryOk(r) && AttachmentsOk(r)
  {
    hide WritesOk, WritesOrdered, LiveOk, EndsOk;
    assert forall x <- r.held :: x in s.held || x == h;
  }

  /** So far every chunk is older than the next one. */
  lemma NextIsNewest(s: State)
    requires DeliveryOk(s)
    ensures forall x <- s.held :: x.chunk < |s.arrivals|
    ensures forall e <- s.trace | e.Wrote? :: e.chunk < |s.arrivals|
  {
  }

  lemma OutputDelivers(s: State, pane: nat, size: nat)
    requires DeliveryOk(s) && AttachmentsOk(s) && HeldOk(s)
    ensures DeliveryOk(OnOutput(s, pane, size)) && AttachmentsOk(OnOutput(s, pane, size))
  {
    LiveWriteDelivers(s, pane, size);
    NextIsNewest(s);
    hide DeliveryOk, AttachmentsOk, LiveRecipients, Writes, SumSizes, HeldOk;
    var chunk := |s.arrivals|;
    var d := s.(arrivals := s.arrivals + [Arrival(pane, size, s.lastSeq)],
                trace := s.trace + Writes(LiveRecipients(s.live, pane, Placement(s.table, pane)), pane, chunk, false));
    var r := OnOutput(s, pane, size);
    if r.held == s.held {
      SameDelivery(d, r);
    } else {
      HoldDelivers(d, r, Held(pane, chunk, size, s.lastSeq));
    }
  }

  lemma SameDelivery(s: State, r: State)
    requires DeliveryOk(s) && AttachmentsOk(s)
    requires r.held == s.held && r.trace == s.trace && r.arrivals == s.arrivals && r.live == s.live && r.lastSeq == s.lastSeq
    ensures DeliveryOk(r) && AttachmentsOk(r)
  {
  }

  /** What is still to be replayed, or will be kept, after the first `n` chunks of `all` were handled. */
  ghost predicate NewerThanWrites(trace: seq<Effect>, all: seq<Held>, n: nat, t: Table) {
    forall e <- trace, k | e.Wrote? && e.att.scope.Topological() && 0 <= k < |all| && (n <= k || all[k].pane !in t) ::
      e.pane == all[k].pane ==> e.chunk < all[k].chunk
  }

  lemma {:induction false} ReplayAllDelivers(s: State, all: seq<Held>, n: nat)
    requires n <= |all|
    requires WritesOk(s.trace, s.arrivals) && WritesOrdered(s.trace) && AttachmentsOk(s)
    requires HeldKnown(all, s.arrivals) && NewerThanWrites(s.trace, all, 0, s.table)
    ensures var r := ReplayAll(s, all[..n]);
            && WritesOk(r.trace, s.arrivals) && WritesOrdered(r.trace) && AttachmentsOk(r)
            && NewerThanWrites(r.trace, all, n, s.table)
  {
    hide ReplayOne, WritesOrdered, HeldKnown, WritesOk, NewerThanWrites, LiveOk;
    if n > 0 {
      var m := n - 1;
      assert all[..n][..m] == all[..m] && all[..n][m] == all[m];
      ReplayAllDelivers(s, all, m);
      ReplayOneDelivers(ReplayAll(s, all[..m]), all, m);
    }
  }

  lemma ReplayOneDelivers(s: State, all: seq<Held>, m: nat)
    requires m < |all|
    requires WritesOk(s.trace, s.arrivals) && WritesOrdered(s.trace) && AttachmentsOk(s)
    requires HeldKnown(all, s.arrivals) && NewerThanWrites(s.trace, all, m, s.table)
    ensures var r := ReplayOne(s, all[m]);
            && WritesOk(r.trace, s.arrivals) && WritesOrdered(r.trace) && AttachmentsOk(r)
            && NewerThanWrites(r.trace, all, m + 1, s.table)
  {
    hide EndsOk, TopologyRecipients, Bucket, UpTo, LiveOk;
    var h := all[m];
    if h.pane in s.table {
      var meta := Some(s.table[h.pane]);
      var whole := TopologyRecipients(s.live, meta);
      var to := UpTo(whole, h.attachedBy);
      LiveDistinct(s.live, s.lastSeq);
      RecipientsDistinct(s.live, h.pane, meta);
      UpToDistinct(whole, h.attachedBy);
      WritingKeepsOrder(s.trace, to, h.pane, h.chunk, true);
      WritingKeepsEnds(s.trace, to, h.pane, h.chunk, true, s.live, s.lastSeq);
      var more := Writes(to, h.pane, h.chunk, true);
      assert forall e <- more :: e.Wrote? && e.att in to && e.chunk == h.chunk && e.pane == h.pane;
      assert forall e <- s.trace + more :: e in s.trace || e in more;
    }
  }

  lemma {:induction false} StillWaitingSorted(t: Table, inFlight: int, pending: seq<Held>, arrivals: seq<Arrival>)
    requires HeldKnown(pending, arrivals)
    ensures HeldKnown(StillWaiting(t, inFlight, pending), arrivals)
  {
    if pending != [] {
      var n := |pending| - 1;
      StillWaitingSorted(t, inFlight, pending[..n], arrivals);
      var before := StillWaiting(t, inFlight, pending[..n]);
      assert forall h <- pending[..n] :: h.chunk < pending[n].chunk;
      NewestLast(before, pending[n], arrivals);
    }
  }

  lemma NewestLast(before: seq<Held>, h: Held, arrivals: seq<Arrival>)
    requires HeldKnown(before, arrivals) && ChunkKnown(arrivals, h.chunk, h.pane, h.attachedBy)
    requires forall b <- before :: b.chunk < h.chunk
    ensures HeldKnown(before + [h], arrivals)
  {
  }

  /** Effects that neither write nor end keep the delivery facts. */
  lemma OtherEffect(s: State, r: State, e: Effect)
    requires DeliveryOk(s) && AttachmentsOk(s) && !e.Wrote? && !e.Ended?
    requires r.trace == s.trace + [e] || r.trace == s.trace
    requires r.arrivals == s.arrivals && r.held == s.held && r.live == s.live && r.lastSeq == s.lastSeq
    ensures DeliveryOk(r) && AttachmentsOk(r)
  {
    assert forall x <- r.trace :: x in s.trace || x == e;
    forall n | 1 <= n <= s.lastSeq && IsEnded(s.trace, n) ensures IsEnded(r.trace, n) {
      var x, a :| x in s.trace && x.Ended? && a in x.atts && a.num == n;
      assert x in r.trace;
    }
  }

  lemma SettleDelivers(s: State, q: Query)
    requires DeliveryOk(s) && AttachmentsOk(s)
    ensures DeliveryOk(Settle(s, q)) && AttachmentsOk(Settle(s, q))
  {
    hide EndsOk, LiveOk, StillWaiting, ReplayAll, SumSizes, WritesOk, WritesOrdered, IsEnded;
    var s1 := s.(inFlight := s.inFlight - 1, queries := s.queries - {q});
    var s2 := TakeHeld(s1);
    OtherEffect(s, s2.(held := s.held), Overflowed(s.refusedBytes));
    assert s.held[..|s.held|] == s.held;
    assert NewerThanWrites(s2.trace, s.held, 0, s2.table);
    ReplayAllDelivers(s2, s.held, |s.held|);
    ReplayAllHolds(s2, s.held);
    StillWaitingSorted(s2.table, s2.inFlight, s.held, s.arrivals);
    var r := ReplayAll(s2, s.held);
    assert HeldNewer(r.trace, r.held) by {
      WaitingAreOld(s2.table, s2.inFlight, s.held);
      forall e <- r.trace, h <- r.held | e.Wrote? && e.att.scope.Topological() && e.pane == h.pane ensures e.chunk < h.chunk {
        var k :| 0 <= k < |s.held| && s.held[k] == h;
      }
    }
  }

  lemma WaitingAreOld(t: Table, inFlight: int, pending: seq<Held>)
    ensures forall h <- StillWaiting(t, inFlight, pending) :: h in pending && h.pane !in t
  {
  }

  lemma LiveTail(live: seq<Att>, lastSeq: nat)
    requires LiveOk(live, lastSeq) && live != []
    ensures LiveOk(live[1..], lastSeq) && 1 <= live[0].num <= lastSeq && forall b <- live[1..] :: live[0].num < b.num
  {
  }

  lemma {:induction false} DetachKeeps(live: seq<Att>, a: Att, lastSeq: nat)
    requires LiveOk(live, lastSeq) && a in live
    ensures LiveOk(Detach(live, a), lastSeq)
    ensures forall b :: b in Detach(live, a) <==> b in live && b != a
  {
    hide LiveOk;
    LiveTail(live, lastSeq);
    assert live == [live[0]] + live[1..];
    if live[0] != a {
      DetachKeeps(live[1..], a, lastSeq);
      PrependKeeps(live[0], Detach(live[1..], a), lastSeq);
    }
  }

  lemma PrependKeeps(a: Att, live: seq<Att>, lastSeq: nat)
    requires LiveOk(live, lastSeq) && 1 <= a.num <= lastSeq && forall b <- live :: a.num < b.num
    ensures LiveOk([a] + live, lastSeq)
  {
  }

  /** Ending a set of live attachments keeps the delivery facts when exactly those leave `live`. */
  lemma EndingDelivers(s: State, r: State, atts: set<Att>)
    requires DeliveryOk(s) && AttachmentsOk(s)
    requires forall a <- atts :: a in s.live
    requires LiveOk(r.live, s.lastSeq) && forall a :: a in r.live <==> a in s.live && a !in atts
    requires r.trace == s.trace + [Ended(atts)] && r.arrivals == s.arrivals && r.lastSeq == s.lastSeq
    requires r.held == s.held || r.held == []
    ensures DeliveryOk(r) && AttachmentsOk(r)
  {
    var e := Ended(atts);
    assert forall x <- r.trace :: x in s.trace || x == e;
    forall n | 1 <= n <= s.lastSeq ensures IsLive(r.live, n) || IsEnded(r.trace, n) {
      if IsLive(s.live, n) {
        var a :| a in s.live && a.num == n;
        if a in atts {
          assert e in r.trace;
        } else {
          assert a in r.live;
        }
      } else {
        assert IsEnded(s.trace, n);
        var x, a :| x in s.trace && x.Ended? && a in x.atts && a.num == n;
        assert x in r.trace;
      }
    }
    forall i, j | 0 <= i < j < |r.trace| && r.trace[i].Ended? && r.trace[j].Ended? ensures r.trace[i].atts !! r.trace[j].atts {
      assert r.trace[i] in s.trace;
    }
  }

  lemma DisposeDelivers(s: State, a: Att)
    requires DeliveryOk(s) && AttachmentsOk(s)
    ensures DeliveryOk(OnDispose(s, a)) && AttachmentsOk(OnDispose(s, a))
  {
    hide Recompute;
    if a in s.live {
      DetachKeeps(s.live, a, s.lastSeq);
      EndingDelivers(s, OnDispose(s, a), {a});
    }
  }

  lemma CloseDelivers(s: State)
    requires DeliveryOk(s) && AttachmentsOk(s)
    ensures DeliveryOk(OnClose(s)) && AttachmentsOk(OnClose(s))
  {
    EndingDelivers(s, OnClose(s), AttSet(s.live));
  }

  lemma AttachDelivers(s: State, scope: Scope)
    requires DeliveryOk(s) && AttachmentsOk(s)
    ensures DeliveryOk(OnAttach(s, scope)) && AttachmentsOk(OnAttach(s, scope))
  {
    hide Recompute, Bootstrap;
    var r := OnAttach(s, scope);
    forall n | 1 <= n <= r.lastSeq ensures IsLive(r.live, n) || IsEnded(r.trace, n) {
      if n == r.lastSeq {
        assert r.live[|s.live|] in r.live;
      } else if IsLive(s.live, n) {
        var a :| a in s.live && a.num == n;
        assert a in r.live;
      }
    }
  }

  lemma QueriesDeliver(s: State, q: Query, entries: seq<Entry>, gone: bool)
    requires DeliveryOk(s) && AttachmentsOk(s)
    ensures DeliveryOk(ApplySeed(s, q, entries)) && AttachmentsOk(ApplySeed(s, q, entries))
    ensures q.kind.Refresh? ==> DeliveryOk(ApplyRefresh(s, q, entries)) && AttachmentsOk(ApplyRefresh(s, q, entries))
    ensures q.kind.Refresh? ==> DeliveryOk(FailRefresh(s, q, gone)) && AttachmentsOk(FailRefresh(s, q, gone))
  {
    hide Recompute, UnplaceAll, UnplaceAllResult, SeedRows, UpdateRows, UpdateLoses, DeliveryOk, AttachmentsOk;
    OtherEffect(s, ApplySeed(s, q, entries), Seeded(q.sentAt));
    if q.kind.Refresh? {
      var w := q.kind.window;
      OtherEffect(s, ApplyRefresh(s, q, entries), Refreshed(w, q.sentAt));
      OtherEffect(s, FailRefresh(s, q, gone), if gone then WindowGone(w, q.sentAt) else RefreshFailed(w, q.sentAt));
    }
  }

  lemma SettledDelivers(s: State, i: Input)
    requires DeliveryOk(s) && AttachmentsOk(s) && Enabled(s, i)
    requires i.BootstrapReply? || i.BootstrapError? || i.RefreshReply? || i.RefreshError?
    ensures DeliveryOk(Step(s, i)) && AttachmentsOk(Step(s, i))
  {
    hide Recompute, ApplySeed, ApplyRefresh, FailRefresh, Settle, NeedsTopology, DeliveryOk, AttachmentsOk, Bootstrap;
    var q := i.query;
    SettleDelivers(s, q);
    match i
    case BootstrapReply(_, entries) =>
      QueriesDeliver(s, q, entries, true);
      SettleDelivers(ApplySeed(s, q, entries), q);
      OtherEffect(s, BootstrapIfNeeded(s), Seeded(q.sentAt));
      SettleDelivers(BootstrapIfNeeded(s), q);
    case BootstrapError(_) =>
      var s1 := s.(trace := s.trace + [BootstrapFailed(q.sentAt)]);
      OtherEffect(s, s1, BootstrapFailed(q.sentAt));
      SettleDelivers(s1, q);
    case RefreshReply(_, entries) =>
      QueriesDeliver(s, q, entries, true);
      SettleDelivers(ApplyRefresh(s, q, entries), q);
    case RefreshError(_, gone) =>
      QueriesDeliver(s, q, [], gone);
      SettleDelivers(FailRefresh(s, q, gone), q);
  }

  lemma StepDelivers(s: State, i: Input)
    requires DeliveryOk(s) && AttachmentsOk(s) && HeldOk(s) && Enabled(s, i)
    ensures DeliveryOk(Step(s, i)) && AttachmentsOk(Step(s, i))
  {
    hide Recompute, OnBootstrapReply, OnBootstrapError, OnRefreshReply, OnRefreshError, OnOutput, OnClose, OnDispose, OnAttach,
         NeedsTopology, DeliveryOk, AttachmentsOk, Bootstrap, UnplaceRows, UnplaceResult, HeldOk;
    match i
    case Output(pane, size) => OutputDelivers(s, pane, size);
    case Close => CloseDelivers(s);
    case Dispose(a) => DisposeDelivers(s, a);
    case Attach(scope) => AttachDelivers(s, scope);
    case Ready(_) => OtherEffect(s, Step(s, i), Seeded(0));
    case Lost(_) => OtherEffect(s, Step(s, i), Seeded(0));
    case MembershipChanged(_) => OtherEffect(s, Step(s, i), Seeded(0));
    case LayoutChanged(_, _) => OtherEffect(s, Step(s, i), Seeded(0));
    case SessionsChanged => OtherEffect(s, Step(s, i), Seeded(0));
    case _ => SettledDelivers(s, i);
  }

  // ---------------------------------------------------------------------------------------
  // Over every run
  // ---------------------------------------------------------------------------------------

  ghost predicate DeliveryInv(s: State) {
    HeldOk(s) && BytesOk(s) && DeliveryOk(s) && AttachmentsOk(s)
  }

  lemma {:induction false} RunKeepsDeliveryInv(s: State, inputs: seq<Input>)
    requires DeliveryInv(s) && CanRun(s, inputs)
    ensures DeliveryInv(RunFrom(s, inputs))
    decreases |inputs|
  {
    hide HeldOk, BytesOk, DeliveryOk, AttachmentsOk, Step, Enabled;
    if inputs != [] {
      StepHolds(s, inputs[0]);
      StepBalances(s, inputs[0]);
      StepDelivers(s, inputs[0]);
      RunKeepsDeliveryInv(Step(s, inputs[0]), inputs[1..]);
    }
  }

  lemma InitialDelivers(suppression: bool)
    ensures DeliveryInv(Initial(suppression))
  {
  }

  lemma ReachableDeliveryInv(s: State)
    requires Reachable(s)
    ensures DeliveryInv(s)
  {
    hide DeliveryInv, CanRun, RunFrom, Initial;
    var suppression: bool, inputs :| CanRun(Initial(suppression), inputs) && s == RunFrom(Initial(suppression), inputs);
    InitialDelivers(suppression);
    RunKeepsDeliveryInv(Initial(suppression), inputs);
  }

  /** In every run: no chunk is written to an attachment twice, and each attachment sees a pane's chunks in arrival order. */
  lemma DeliveredInOrderOnce(s: State, i: nat, j: nat)
    requires Reachable(s) && i < j < |s.trace| && s.trace[i].Wrote? && s.trace[j].Wrote?
    requires s.trace[i].att == s.trace[j].att
    ensures s.trace[i].chunk != s.trace[j].chunk
    ensures s.trace[i].pane == s.trace[j].pane ==> s.trace[i].chunk < s.trace[j].chunk
  {
    ReachableDeliveryInv(s);
    assert s.trace[i] in s.trace && s.trace[j] in s.trace;
  }

  /**
    In every run, every write is of a chunk that arrived for that pane, to an attachment made no
    later than the arrival; and a replay reaches window and session attachments only.
   */
  lemma WrittenOnlyToThosePresent(s: State, k: nat)
    requires Reachable(s) && k < |s.trace| && s.trace[k].Wrote?
    ensures var w := s.trace[k];
            && w.chunk < |s.arrivals| && w.pane == s.arrivals[w.chunk].pane
            && w.att.num <= s.arrivals[w.chunk].attachSeq
            && (w.replay ==> w.att.scope.Session? || w.att.scope.Window?)
  {
    ReachableDeliveryInv(s);
    assert s.trace[k] in s.trace;
  }

  /** In every run, an attachment is live or was ended by exactly one call, after its last write. */
  lemma EndedOnceAfterLastWrite(s: State, n: nat)
    requires Reachable(s) && 1 <= n <= s.lastSeq
    ensures IsLive(s.live, n) || IsEnded(s.trace, n)
    ensures forall i, a | 0 <= i < |s.trace| && s.trace[i].Ended? && a in s.trace[i].atts ::
              && a !in s.live
              && (forall j | 0 <= j < |s.trace| && s.trace[j].Ended? && a in s.trace[j].atts :: j == i)
              && (forall j | i < j < |s.trace| && s.trace[j].Wrote? :: s.trace[j].att != a)
  {
    ReachableDeliveryInv(s);
    forall i, a | 0 <= i < |s.trace| && s.trace[i].Ended? && a in s.trace[i].atts
      ensures a !in s.live
      ensures forall j | 0 <= j < |s.trace| && s.trace[j].Ended? && a in s.trace[j].atts :: j == i
    {
      assert s.trace[i] in s.trace;
    }
  }

  /**
    In every run: the held bytes are the sizes held, within the cap; something is held only
    while a query is outstanding and its pane is unplaced; and every eligible byte is held,
    replayed, dropped at a settle, discarded with its connection, or refused, each refused
    byte being still to be reported, in exactly one report, or forgotten with its connection.
   */
  lemma HeldIsBoundedAndConserved(s: State)
    requires Reachable(s)
    ensures s.heldBytes == SumSizes(s.held) <= HELD_BYTES_LIMIT
    ensures s.held != [] ==> s.queries != {} && forall h <- s.held :: h.pane !in s.table
    ensures s.bytes.eligible == SumSizes(s.held) + s.bytes.replayed + s.bytes.dropped + s.bytes.discarded
                                + s.refusedBytes + SumOverflows(s.trace) + s.bytes.forgotten
  {
    ReachableDeliveryInv(s);
    RouterQueries.ReachableQueryInv(s);
  }
}

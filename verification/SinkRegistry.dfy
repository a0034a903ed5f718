/**
  The attachment buckets (`SinkRegistry` in src/pane-output.ts) and the interest tracker with
  its suppressor, as classes proved equal to the functions of `RouterSpec`.
  `trace` records the calls made on sinks and on the error seam.
 */
module SinkRegistryClass {
  import opened Options
  import opened TopologyTable
  import opened RouterSpec

  lemma BucketAppend(live: seq<Att>, a: Att, scope: Scope)
    ensures Bucket(live + [a], scope) == Bucket(live, scope) + if a.scope == scope then [a] else []
  {
    assert (live + [a])[..|live|] == live;
  }

  lemma {:induction false} BucketPrepend(a: Att, live: seq<Att>, scope: Scope)
    ensures Bucket([a] + live, scope) == (if a.scope == scope then [a] else []) + Bucket(live, scope)
  {
    if live == [] {
      assert [a] + live == [] + [a];
      BucketAppend([], a, scope);
    } else {
      var n := |live| - 1;
      BucketPrepend(a, live[..n], scope);
      BucketAppend([a] + live[..n], live[n], scope);
      BucketAppend(live[..n], live[n], scope);
      assert live == live[..n] + [live[n]];
      assert [a] + live == [a] + live[..n] + [live[n]];
      hide Bucket;
    }
  }

  /** Detaching from the whole list detaches from the attachment's own bucket and no other. */
  lemma {:induction false} BucketDetach(live: seq<Att>, a: Att, scope: Scope)
    ensures Bucket(Detach(live, a), scope) == Detach(Bucket(live, scope), a)
  {
    if live != [] {
      hide Bucket;
      var rest := live[1..];
      assert live == [live[0]] + rest;
      BucketPrepend(live[0], rest, scope);
      var own := if live[0].scope == scope then [live[0]] else [];
      assert Bucket(live, scope) == own + Bucket(rest, scope);
      if live[0] == a {
        if scope != a.scope {
          assert Bucket(live, scope) == Bucket(rest, scope);
          DetachAbsent(Bucket(rest, scope), a);
        } else {
          assert Bucket(live, scope)[1..] == Bucket(rest, scope);
        }
      } else {
        BucketDetach(rest, a, scope);
        BucketPrepend(live[0], Detach(rest, a), scope);
        if live[0].scope == scope {
          assert Bucket(live, scope)[1..] == Bucket(rest, scope);
        } else {
          assert Bucket(live, scope) == Bucket(rest, scope);
        }
      }
    } else {
      assert Bucket(live, scope) == [];
    }
  }

  lemma {:induction false} DetachAbsent(live: seq<Att>, a: Att)
    requires a !in live
    ensures Detach(live, a) == live
  {
    if live != [] {
      DetachAbsent(live[1..], a);
    }
  }

  lemma WritesAppend(a: seq<Att>, b: seq<Att>, pane: nat, chunk: nat, replay: bool)
    ensures Writes(a + b, pane, chunk, replay) == Writes(a, pane, chunk, replay) + Writes(b, pane, chunk, replay)
  {
  }

  lemma FourWrites(t: seq<Effect>, a: seq<Att>, b: seq<Att>, c: seq<Att>, d: seq<Att>, pane: nat, chunk: nat)
    ensures t + Writes(a, pane, chunk, false) + Writes(b, pane, chunk, false) + Writes(c, pane, chunk, false) + Writes(d, pane, chunk, false)
            == t + Writes(a + (b + c) + d, pane, chunk, false)
  {
    WritesAppend(b, c, pane, chunk, false);
    WritesAppend(a, b + c, pane, chunk, false);
    WritesAppend(a + (b + c), d, pane, chunk, false);
  }

  lemma {:induction false} UpToAppend(a: seq<Att>, b: seq<Att>, bound: nat)
    ensures UpTo(a + b, bound) == UpTo(a, bound) + UpTo(b, bound)
    decreases |b|
  {
    if b == [] {
      assert a + b == a;
    } else {
      var n := |b| - 1;
      UpToAppend(a, b[..n], bound);
      assert (a + b)[..|a + b| - 1] == a + b[..n];
    }
  }

  type Buckets = map<nat, seq<Att>>

  function Lookup(m: Buckets, id: nat): seq<Att> {
    if id in m then m[id] else []
  }

  /** Deletion prunes an emptied bucket from the outer map. */
  function Prune(m: Buckets, id: nat, bucket: seq<Att>): Buckets {
    if bucket == [] then m - {id} else m[id := bucket]
  }

  /** The four buckets of one moment. */
  datatype Filing = Filing(server: seq<Att>, sessions: Buckets, windows: Buckets, panes: Buckets) {
    function Get(scope: Scope): seq<Att> {
      match scope
      case Server => server
      case Session(id) => Lookup(sessions, id)
      case Window(id) => Lookup(windows, id)
      case Pane(id) => Lookup(panes, id)
    }

    function Put(scope: Scope, bucket: seq<Att>): Filing {
      match scope
      case Server => this.(server := bucket)
      case Session(id) => this.(sessions := Prune(sessions, id, bucket))
      case Window(id) => this.(windows := Prune(windows, id, bucket))
      case Pane(id) => this.(panes := Prune(panes, id, bucket))
    }

    /** The buckets are `live` filed by scope. */
    ghost predicate Files(live: seq<Att>) {
      forall scope: Scope :: Get(scope) == Bucket(live, scope)
    }

    ghost predicate Pruned() {
      && (forall id <- sessions :: sessions[id] != [])
      && (forall id <- windows :: windows[id] != [])
      && (forall id <- panes :: panes[id] != [])
    }

    lemma GetPut(scope: Scope, bucket: seq<Att>, other: Scope)
      ensures Put(scope, bucket).Get(other) == if other == scope then bucket else Get(other)
    {
    }

    lemma Attached(live: seq<Att>, a: Att)
      requires Files(live)
      ensures Put(a.scope, Get(a.scope) + [a]).Files(live + [a])
    {
      hide Bucket, Put, Get;
      forall s: Scope ensures Put(a.scope, Get(a.scope) + [a]).Get(s) == Bucket(live + [a], s) {
        GetPut(a.scope, Get(a.scope) + [a], s);
        BucketAppend(live, a, s);
        assert Bucket(live, s) + [] == Bucket(live, s);
      }
    }

    lemma Detached(live: seq<Att>, a: Att)
      requires Files(live)
      ensures Put(a.scope, Detach(Get(a.scope), a)).Files(Detach(live, a))
    {
      forall s: Scope ensures Put(a.scope, Detach(Get(a.scope), a)).Get(s) == Bucket(Detach(live, a), s) {
        assert s != a.scope ==> a !in Bucket(live, s);
        hide Bucket, Put, Get, Detach;
        GetPut(a.scope, Detach(Get(a.scope), a), s);
        BucketDetach(live, a, s);
        if s != a.scope {
          DetachAbsent(Bucket(live, s), a);
        }
      }
    }

    /** The members of every bucket. */
    function All(): set<Att> {
      (set a <- server)
      + (set b <- sessions.Values, a <- b :: a)
      + (set b <- windows.Values, a <- b :: a)
      + (set b <- panes.Values, a <- b :: a)
    }

    lemma AllFiled(a: Att)
      ensures a in All() <==> exists scope: Scope :: a in Get(scope)
    {
      if a in All() {
        if id :| id in sessions && a in sessions[id] {
          assert a in Get(Session(id));
        } else if id :| id in windows && a in windows[id] {
          assert a in Get(Window(id));
        } else if id :| id in panes && a in panes[id] {
          assert a in Get(Pane(id));
        } else {
          assert a in Get(Server);
        }
      }
    }

    lemma AllAreLive(live: seq<Att>)
      requires Files(live)
      ensures All() == AttSet(live)
    {
      hide All, Get;
      forall a ensures a in All() <==> a in AttSet(live) {
        AllFiled(a);
        assert Get(a.scope) == Bucket(live, a.scope);
        assert a in Bucket(live, a.scope) <==> a in live;
        assert forall scope: Scope :: a in Get(scope) ==> a in Bucket(live, scope);
      }
    }

    lemma TopologicalIff(live: seq<Att>)
      requires Files(live) && Pruned()
      ensures |sessions| > 0 || |windows| > 0 <==> AnyTopological(live)
    {
      if a :| a in live && a.scope.Topological() {
        assert a in Bucket(live, a.scope);
        assert a in Get(a.scope);
      }
      if id :| id in sessions {
        assert Get(Session(id))[0] in Bucket(live, Session(id));
      } else if id :| id in windows {
        assert Get(Window(id))[0] in Bucket(live, Window(id));
      }
    }

    lemma PaneKeys(live: seq<Att>)
      requires Files(live) && Pruned()
      ensures panes.Keys == PaneScoped(live)
    {
      forall p <- panes.Keys ensures p in PaneScoped(live) {
        assert Get(Pane(p))[0] in Bucket(live, Pane(p));
      }
      forall p <- PaneScoped(live) ensures p in panes {
        var a :| a in live && a.scope.Pane? && a.scope.id == p;
        assert a in Bucket(live, Pane(p));
        assert a in Get(Pane(p));
      }
    }
  }

  class SinkRegistry {
    var serverAttachments: seq<Att>
    var sessionAttachments: Buckets
    var windowAttachments: Buckets
    var paneAttachments: Buckets
    var lastSeq: nat
    ghost var live: seq<Att>
    ghost var trace: seq<Effect>

    ghost function Filed(): Filing
      reads this
    {
      Filing(serverAttachments, sessionAttachments, windowAttachments, paneAttachments)
    }

    ghost predicate Valid()
      reads this
    {
      Filed().Files(live) && Filed().Pruned()
    }

    constructor ()
      ensures Valid() && live == [] && lastSeq == 0 && trace == []
    {
      serverAttachments, sessionAttachments, windowAttachments, paneAttachments := [], map[], map[], map[];
      lastSeq, live, trace := 0, [], [];
    }

    /** Store one bucket; an emptied one is pruned from its outer map. */
    method SetBucket(scope: Scope, bucket: seq<Att>)
      requires Filed().Pruned()
      modifies this`serverAttachments, this`sessionAttachments, this`windowAttachments, this`paneAttachments
      ensures Filed() == old(Filed()).Put(scope, bucket) && Filed().Pruned()
    {
      match scope {
        case Server => serverAttachments := bucket;
        case Session(id) => sessionAttachments := Prune(sessionAttachments, id, bucket);
        case Window(id) => windowAttachments := Prune(windowAttachments, id, bucket);
        case Pane(id) => paneAttachments := Prune(paneAttachments, id, bucket);
      }
    }

    method Attach(scope: Scope) returns (a: Att)
      requires Valid()
      modifies this
      ensures Valid()
      ensures a == Att(old(lastSeq) + 1, scope) && lastSeq == a.num
      ensures live == old(live) + [a] && trace == old(trace)
    {
      hide Filing.Files, Filing.Pruned, Filing.Put;
      lastSeq := lastSeq + 1;
      a := Att(lastSeq, scope);
      Filed().Attached(live, a);
      SetBucket(scope, BucketOf(scope) + [a]);
      live := live + [a];
    }

    /** The disposer: removes and ends an attachment once, and does nothing from then on. */
    method Dispose(a: Att) returns (removed: bool)
      requires Valid()
      modifies this
      ensures Valid() && lastSeq == old(lastSeq)
      ensures removed <==> a in old(live)
      ensures live == if removed then Detach(old(live), a) else old(live)
      ensures trace == if removed then old(trace) + [Ended({a})] else old(trace)
    {
      var bucket := BucketOf(a.scope);
      removed := a in bucket;
      assert Bucket(live, a.scope) == bucket;
      if !removed {
        return;
      }
      hide Filing.Files, Filing.Pruned, Filing.Put, Bucket;
      Filed().Detached(live, a);
      SetBucket(a.scope, Detach(bucket, a));
      live := Detach(live, a);
      trace := trace + [Ended({a})];
    }

    function BucketOf(scope: Scope): (r: seq<Att>)
      reads this
      ensures r == Filed().Get(scope)
      ensures Valid() ==> r == Bucket(live, scope)
    {
      match scope
      case Server => serverAttachments
      case Session(id) => Lookup(sessionAttachments, id)
      case Window(id) => Lookup(windowAttachments, id)
      case Pane(id) => Lookup(paneAttachments, id)
    }

    predicate HasTopologyDependentSinks()
      requires Valid()
      reads this
      ensures HasTopologyDependentSinks() <==> AnyTopological(live)
    {
      Filed().TopologicalIff(live);
      |sessionAttachments| > 0 || |windowAttachments| > 0
    }

    /** Write the frozen members attached no later than `bound`, in attach order. */
    method WriteSnapshot(snap: seq<Att>, pane: nat, chunk: nat, replay: bool, bound: Option<nat>)
      modifies this`trace
      ensures trace == old(trace) + Writes(if bound.None? then snap else UpTo(snap, bound.value), pane, chunk, replay)
    {
      ghost var t0 := trace;
      for i := 0 to |snap|
        invariant trace == t0 + Writes(if bound.None? then snap[..i] else UpTo(snap[..i], bound.value), pane, chunk, replay)
      {
        var a := snap[i];
        assert snap[..i + 1] == snap[..i] + [a];
        assert snap[..i + 1][..i] == snap[..i];
        if bound.None? || a.num <= bound.value {
          ghost var before := if bound.None? then snap[..i] else UpTo(snap[..i], bound.value);
          WritesAppend(before, [a], pane, chunk, replay);
          assert Writes([a], pane, chunk, replay) == [Wrote(a, pane, chunk, replay)];
          trace := trace + [Wrote(a, pane, chunk, replay)];
        }
      }
      assert snap[..|snap|] == snap;
    }

    /** Live dispatch: every scope, every attachment. */
    method DispatchLive(pane: nat, chunk: nat, meta: Option<Placed>)
      requires Valid()
      modifies this`trace
      ensures Valid()
      ensures trace == old(trace) + Writes(LiveRecipients(live, pane, meta), pane, chunk, false)
    {
      hide Bucket, Writes, Filing.Files, Filing.Pruned;
      var paneSnap := BucketOf(Pane(pane));
      var windowSnap := if meta.Some? then BucketOf(Window(meta.value.window)) else [];
      var sessionSnap := if meta.Some? then BucketOf(Session(meta.value.session)) else [];
      var serverSnap := BucketOf(Server);
      ghost var t0 := trace;
      assert LiveRecipients(live, pane, meta) == paneSnap + (windowSnap + sessionSnap) + serverSnap by {
        assert TopologyRecipients(live, meta) == windowSnap + sessionSnap;
      }
      WriteSnapshot(paneSnap, pane, chunk, false, None);
      WriteSnapshot(windowSnap, pane, chunk, false, None);
      WriteSnapshot(sessionSnap, pane, chunk, false, None);
      WriteSnapshot(serverSnap, pane, chunk, false, None);
      FourWrites(t0, paneSnap, windowSnap, sessionSnap, serverSnap, pane, chunk);
    }

    /** Replay of a held chunk: topology scopes only, and only attachments made before it arrived. */
    method DispatchReplay(pane: nat, chunk: nat, meta: Placed, attachedBy: nat)
      requires Valid()
      modifies this`trace
      ensures Valid()
      ensures trace == old(trace) + Writes(UpTo(TopologyRecipients(live, Some(meta)), attachedBy), pane, chunk, true)
    {
      hide Bucket, Writes, UpTo;
      var windowSnap := BucketOf(Window(meta.window));
      var sessionSnap := BucketOf(Session(meta.session));
      WriteSnapshot(windowSnap, pane, chunk, true, Some(attachedBy));
      WriteSnapshot(sessionSnap, pane, chunk, true, Some(attachedBy));
      UpToAppend(windowSnap, sessionSnap, attachedBy);
      WritesAppend(UpTo(windowSnap, attachedBy), UpTo(sessionSnap, attachedBy), pane, chunk, true);
    }

    method EndAll()
      requires Valid()
      modifies this
      ensures Valid() && live == [] && lastSeq == old(lastSeq)
      ensures trace == old(trace) + [Ended(AttSet(old(live)))]
    {
      ghost var allSinks := Filed().All();
      Filed().AllAreLive(live);
      serverAttachments, sessionAttachments, windowAttachments, paneAttachments := [], map[], map[], map[];
      live := [];
      trace := trace + [Ended(allSinks)];
    }
  }

  /** `tmuxPaused` is what the delivered actions leave paused in tmux. */
  datatype Pauses = Pauses(paused: set<nat>, tmuxPaused: set<nat>, droppedPauses: set<nat>) {
    /** One announced transition; with no connection its action is dropped. */
    function Announced(pane: nat, interesting: bool, connected: bool): Pauses {
      if interesting then
        Pauses(paused - {pane}, if connected then tmuxPaused - {pane} else tmuxPaused, droppedPauses)
      else
        Pauses(paused + {pane}, if connected then tmuxPaused + {pane} else tmuxPaused,
               if connected then droppedPauses else droppedPauses + {pane})
    }

    /** A batch of transitions, whatever their order. */
    function AllAnnounced(idle: set<nat>, woken: set<nat>, connected: bool): Pauses {
      Pauses(paused - woken + idle,
             if connected then tmuxPaused - woken + idle else tmuxPaused,
             if connected then droppedPauses else droppedPauses + idle)
    }

    lemma OneMore(idle: set<nat>, woken: set<nat>, connected: bool, pane: nat)
      requires idle !! woken && pane !in idle && pane !in woken
      ensures AllAnnounced(idle, woken, connected).Announced(pane, true, connected) == AllAnnounced(idle, woken + {pane}, connected)
      ensures AllAnnounced(idle, woken, connected).Announced(pane, false, connected) == AllAnnounced(idle + {pane}, woken, connected)
    {
    }
  }

  /** The actuator. `connected` is the state of the sender's gate. */
  class IdlePaneSuppressor {
    var paused: set<nat>
    ghost var tmuxPaused: set<nat>
    ghost var droppedPauses: set<nat>

    ghost function View(): Pauses
      reads this
    {
      Pauses(paused, tmuxPaused, droppedPauses)
    }

    constructor ()
      ensures View() == Pauses({}, {}, {})
    {
      paused, tmuxPaused, droppedPauses := {}, {}, {};
    }

    method OnPaneBecameInteresting(pane: nat, connected: bool)
      modifies this
      ensures View() == old(View()).Announced(pane, true, connected)
    {
      if connected {
        tmuxPaused := tmuxPaused - {pane};
      }
      paused := paused - {pane};
    }

    method OnPaneBecameIdle(pane: nat, connected: bool)
      modifies this
      ensures View() == old(View()).Announced(pane, false, connected)
    {
      if connected {
        tmuxPaused := tmuxPaused + {pane};
      } else {
        droppedPauses := droppedPauses + {pane};
      }
      paused := paused + {pane};
    }

    /** At teardown the sender is already disconnected, so the continues are dropped. */
    method DisposeDisconnected()
      modifies this`paused
      ensures paused == {}
    {
      paused := {};
    }
  }

  class PaneInterestTracker {
    var state: map<nat, bool>

    constructor ()
      ensures state == map[]
    {
      state := map[];
    }

    predicate IsInteresting(registry: SinkRegistry, topology: PaneTopologyManager, pane: nat)
      requires registry.Valid()
      reads registry, topology
      ensures IsInteresting(registry, topology, pane) <==> AdmitCount(registry.live, topology.table, pane) > 0
    {
      var meta := Placement(topology.table, pane);
      var admit :=
        |registry.BucketOf(Pane(pane))| + |registry.BucketOf(Server)|
        + if meta.Some? then |registry.BucketOf(Window(meta.value.window))| + |registry.BucketOf(Session(meta.value.session))| else 0;
      admit > 0
    }

    /** Rebuild every mark, then tell the suppressor the panes whose mark changed. */
    method Recompute(registry: SinkRegistry, topology: PaneTopologyManager, suppressor: IdlePaneSuppressor, connected: bool)
      requires registry.Valid()
      modifies this, suppressor
      ensures state == Marks(registry.live, topology.table)
      ensures suppressor.View()
              == old(suppressor.View()).AllAnnounced(Changed(old(state), state, false), Changed(old(state), state, true), connected)
    {
      var next := NextMarks(registry, topology);
      Announce(next, suppressor, connected);
      state := next;
    }

    method NextMarks(registry: SinkRegistry, topology: PaneTopologyManager) returns (next: map<nat, bool>)
      requires registry.Valid()
      ensures next == Marks(registry.live, topology.table)
    {
      hide Bucket, AdmitCount;
      next := map[];
      var universe := topology.table.Keys + registry.paneAttachments.Keys;
      registry.Filed().PaneKeys(registry.live);
      var todo := universe;
      while todo != {}
        invariant todo <= universe && next.Keys == universe - todo
        invariant forall p <- next :: next[p] == (AdmitCount(registry.live, topology.table, p) > 0)
        decreases |todo|
      {
        var p :| p in todo;
        next := next[p := IsInteresting(registry, topology, p)];
        todo := todo - {p};
      }
    }

    /** The diff against the prior marks; each changed pane is announced once. */
    method Announce(next: map<nat, bool>, suppressor: IdlePaneSuppressor, connected: bool)
      modifies suppressor
      ensures suppressor.View()
              == old(suppressor.View()).AllAnnounced(Changed(state, next, false), Changed(state, next, true), connected)
    {
      hide Pauses.AllAnnounced, Pauses.Announced, Changed;
      ghost var idle, woken := Changed(state, next, false), Changed(state, next, true);
      ghost var before := suppressor.View();
      ChangedAreMarked(next);
      NothingAnnounced(before, idle, woken, next, connected);
      var todo := next.Keys;
      while todo != {}
        invariant todo <= next.Keys
        invariant suppressor.View() == before.AllAnnounced(idle - todo, woken - todo, connected)
        decreases |todo|
      {
        var p :| p in todo;
        OneAnnounced(before, next, todo, p, connected);
        if !(p in state && state[p] == next[p]) {
          if next[p] {
            suppressor.OnPaneBecameInteresting(p, connected);
          } else {
            suppressor.OnPaneBecameIdle(p, connected);
          }
        }
        todo := todo - {p};
      }
      assert idle - todo == idle && woken - todo == woken;
    }

    lemma ChangedAreMarked(next: map<nat, bool>)
      ensures Changed(state, next, false) <= next.Keys && Changed(state, next, true) <= next.Keys
    {
    }

    lemma OneAnnounced(before: Pauses, next: map<nat, bool>, todo: set<nat>, p: nat, connected: bool)
      requires p in todo && todo <= next.Keys
      ensures var idle, woken := Changed(state, next, false), Changed(state, next, true);
              var rest := todo - {p};
              before.AllAnnounced(idle - rest, woken - rest, connected)
              == (var now := before.AllAnnounced(idle - todo, woken - todo, connected);
                  if p in state && state[p] == next[p] then now else now.Announced(p, next[p], connected))
    {
      hide Pauses.AllAnnounced, Pauses.Announced;
      var idle, woken := Changed(state, next, false), Changed(state, next, true);
      var rest := todo - {p};
      before.OneMore(idle - todo, woken - todo, connected, p);
      assert idle - rest == if p in idle then idle - todo + {p} else idle - todo;
      assert woken - rest == if p in woken then woken - todo + {p} else woken - todo;
    }

    static lemma NothingAnnounced(before: Pauses, idle: set<nat>, woken: set<nat>, next: map<nat, bool>, connected: bool)
      requires forall p: nat :: p in idle || p in woken ==> p in next
      ensures before.AllAnnounced(idle - next.Keys, woken - next.Keys, connected) == before
    {
      assert idle - next.Keys == {} && woken - next.Keys == {};
    }
  }
}

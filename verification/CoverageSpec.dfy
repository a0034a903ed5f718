/**
  Cross-session layout coverage: the per-peer ledger (src/connectors/cross-session-layout-ledger.ts)
  and the reference-counted relay behind it (src/cross-session-layout.ts) as one state machine. The
  stretch between two awaits is one step; tmux may confirm or refuse any command at any time.
 */
module CoverageSpec {

  type Peer = nat

  /** Queued steps of a peer: those of `enable`, and those of `disable` and `releasePeer`. */
  datatype Kind = EnableStep | ReconcileStep

  /** The peer's running step: waiting for the relay, or answered by it and not yet resumed. */
  datatype Running =
    | Idle
    | Enabling(kind: Kind)
    | Enabled(kind: Kind, ok: bool)
    | Disabling
    | Disabled

  datatype Coverage = Coverage(count: nat, held: bool, queue: seq<Kind>, running: Running)

  /** A call of the relay, by the peer whose step made it. */
  datatype Call = CallEnable(peer: Peer) | CallDisable(peer: Peer)

  datatype RelayStep = Resting | Subscribing(call: Call) | Unsubscribing(call: Call)

  datatype Relay = Relay(refCount: int, subscribed: bool, queue: seq<Call>, step: RelayStep)

  /** `peers` are the registered peers; a released peer's coverage object lives on in its queued steps. */
  datatype State = State(coverage: map<Peer, Coverage>, peers: set<Peer>, relay: Relay)

  const FRESH := Coverage(0, false, [], Idle)

  const INIT := State(map[], {}, Relay(0, false, [], Resting))

  // ---------------------------------------------------------------------------------------
  // The ledger's calls and queued steps
  // ---------------------------------------------------------------------------------------

  function Enable(c: Coverage): Coverage {
    c.(count := c.count + 1, queue := c.queue + [EnableStep])
  }

  function Disable(c: Coverage): Coverage {
    if c.count == 0 then c else c.(count := c.count - 1, queue := c.queue + [ReconcileStep])
  }

  function Release(c: Coverage): Coverage {
    c.(count := 0, queue := c.queue + [ReconcileStep])
  }

  predicate CanStart(c: Coverage) {
    c.running.Idle? && c.queue != []
  }

  /** The head step reconciles `held` toward `count > 0`: it may call the relay. */
  function Started(c: Coverage): Coverage
    requires CanStart(c)
  {
    var d := c.(queue := c.queue[1..]);
    if c.count > 0 && !c.held then d.(running := Enabling(c.queue[0]))
    else if c.count == 0 && c.held then d.(held := false, running := Disabling)
    else d
  }

  predicate CanContinue(c: Coverage) {
    c.running.Enabled? || c.running.Disabled?
  }

  /** The relay's answer: a refused enable is uncounted by its own step only. */
  function Continued(c: Coverage): Coverage
    requires CanContinue(c)
  {
    match c.running
    case Enabled(_, true) => c.(held := true, running := Idle)
    case Enabled(EnableStep, false) => c.(count := if c.count > 0 then c.count - 1 else 0, running := Idle)
    case _ => c.(running := Idle)
  }

  // ---------------------------------------------------------------------------------------
  // The relay
  // ---------------------------------------------------------------------------------------

  function RelayEnable(r: Relay, p: Peer): Relay {
    r.(refCount := r.refCount + 1, queue := r.queue + [CallEnable(p)])
  }

  function RelayDisable(r: Relay, p: Peer): Relay {
    if r.refCount == 0 then r else r.(refCount := r.refCount - 1, queue := r.queue + [CallDisable(p)])
  }

  predicate RelayCanStart(r: Relay) {
    r.step.Resting? && r.queue != []
  }

  /** What the head step of the relay's queue decides when it starts. */
  function Decision(r: Relay): RelayStep
    requires RelayCanStart(r)
  {
    if r.refCount > 0 && !r.subscribed then Subscribing(r.queue[0])
    else if !(r.refCount > 0) && r.subscribed then Unsubscribing(r.queue[0])
    else Resting
  }

  function RelayStarted(r: Relay): Relay
    requires RelayCanStart(r)
  {
    r.(queue := r.queue[1..], step := Decision(r), subscribed := r.subscribed && !Decision(r).Unsubscribing?)
  }

  /** tmux's answer; a failed enable gives its reference back. */
  function RelayFinished(r: Relay, ok: bool): Relay
    requires !r.step.Resting?
  {
    r.(step := Resting,
       subscribed := if r.step.Subscribing? then ok else r.subscribed,
       refCount := if !ok && r.step.call.CallEnable? then r.refCount - 1 else r.refCount)
  }

  /** The call's peer learns the outcome. */
  function Answered(c: Coverage, call: Call, ok: bool): Coverage {
    match (call, c.running)
    case (CallEnable(_), Enabling(kind)) => c.(running := Enabled(kind, ok))
    case (CallDisable(_), Disabling) => c.(running := Disabled)
    case _ => c
  }

  // ---------------------------------------------------------------------------------------
  // Steps of the whole
  // ---------------------------------------------------------------------------------------

  datatype Step =
    | DoRegister(p: Peer)
    | DoEnable(p: Peer)
    | DoDisable(p: Peer)
    | DoRelease(p: Peer)
    | DoStart(p: Peer)
    | DoContinue(p: Peer)
    | DoRelayStart
    | DoRelayFinish(ok: bool)

  predicate Allowed(s: State, step: Step) {
    match step
    case DoRegister(p) => p !in s.coverage
    case DoEnable(p) => p in s.peers && p in s.coverage
    case DoDisable(p) => p in s.peers && p in s.coverage
    case DoRelease(p) => p in s.peers && p in s.coverage
    case DoStart(p) => p in s.coverage && CanStart(s.coverage[p])
    case DoContinue(p) => p in s.coverage && CanContinue(s.coverage[p])
    case DoRelayStart => RelayCanStart(s.relay)
    case DoRelayFinish(_) => !s.relay.step.Resting?
  }

  function Put(s: State, p: Peer, c: Coverage): State {
    s.(coverage := s.coverage[p := c])
  }

  function StartPeer(s: State, p: Peer): State
    requires p in s.coverage && CanStart(s.coverage[p])
  {
    var d := Started(s.coverage[p]);
    Put(s, p, d).(relay := if d.running.Enabling? then RelayEnable(s.relay, p)
                           else if d.running.Disabling? then RelayDisable(s.relay, p)
                           else s.relay)
  }

  function Answer(s: State, call: Call, ok: bool): State {
    if call.peer in s.coverage then Put(s, call.peer, Answered(s.coverage[call.peer], call, ok)) else s
  }

  function StartRelay(s: State): State
    requires RelayCanStart(s.relay)
  {
    var t := s.(relay := RelayStarted(s.relay));
    if Decision(s.relay).Resting? then Answer(t, s.relay.queue[0], true) else t
  }

  function FinishRelay(s: State, ok: bool): State
    requires !s.relay.step.Resting?
  {
    Answer(s.(relay := RelayFinished(s.relay, ok)), s.relay.step.call, ok)
  }

  function Take(s: State, step: Step): State
    requires Allowed(s, step)
  {
    match step
    case DoRegister(p) => Put(s, p, FRESH).(peers := s.peers + {p})
    case DoEnable(p) => Put(s, p, Enable(s.coverage[p]))
    case DoDisable(p) => Put(s, p, Disable(s.coverage[p]))
    case DoRelease(p) => Put(s, p, Release(s.coverage[p])).(peers := s.peers - {p})
    case DoStart(p) => StartPeer(s, p)
    case DoContinue(p) => Put(s, p, Continued(s.coverage[p]))
    case DoRelayStart => StartRelay(s)
    case DoRelayFinish(ok) => FinishRelay(s, ok)
  }

  predicate CanRun(s: State, steps: seq<Step>)
    decreases |steps|
  {
    steps == [] || (Allowed(s, steps[0]) && CanRun(Take(s, steps[0]), steps[1..]))
  }

  function Run(s: State, steps: seq<Step>): State
    requires CanRun(s, steps)
    decreases |steps|
  {
    if steps == [] then s else Run(Take(s, steps[0]), steps[1..])
  }

  // ---------------------------------------------------------------------------------------
  // What every run keeps
  // ---------------------------------------------------------------------------------------

  function Enables(queue: seq<Kind>): nat {
    if queue == [] then 0 else Enables(queue[..|queue| - 1]) + if queue[|queue| - 1].EnableStep? then 1 else 0
  }

  /** Enable steps not finished yet. */
  function Unfinished(c: Coverage): nat {
    Enables(c.queue) + match c.running
      case Enabling(EnableStep) => 1
      case Enabled(EnableStep, _) => 1
      case _ => 0
  }

  /** A disagreement of `held` and `count > 0` always has a step ahead that will see it. */
  predicate PeerOk(c: Coverage) {
    && (!c.held && !Confirmed(c) ==> c.count <= Unfinished(c))
    && (c.held || c.running.Enabling? || Confirmed(c) ==> c.count > 0 || c.queue != [])
    && (c.held ==> c.running.Idle?)
  }

  predicate Confirmed(c: Coverage) {
    c.running.Enabled? && c.running.ok
  }

  /** The peer has a reference in the relay's count. */
  predicate HasRef(c: Coverage) {
    c.held || c.running.Enabling? || Confirmed(c)
  }

  function Holders(s: State): set<Peer> {
    set p | p in s.coverage && HasRef(s.coverage[p])
  }

  /** The relay's calls that have not answered. */
  function Calls(r: Relay): seq<Call> {
    (if r.step.Resting? then [] else [r.step.call]) + r.queue
  }

  predicate CallOk(s: State, call: Call) {
    call.peer in s.coverage && match call
      case CallEnable(p) => s.coverage[p].running.Enabling?
      case CallDisable(p) => s.coverage[p].running.Disabling?
  }

  predicate CallsOk(s: State) {
    && (forall call <- Calls(s.relay) :: CallOk(s, call))
    && forall i, j | 0 <= i < j < |Calls(s.relay)| :: Calls(s.relay)[i].peer != Calls(s.relay)[j].peer
  }

  predicate Covered(s: State, p: Peer) {
    p in s.coverage && (s.coverage[p].held || Confirmed(s.coverage[p])) ==> s.relay.subscribed
  }

  predicate PeerFits(s: State, p: Peer) {
    p in s.coverage ==> PeerOk(s.coverage[p]) && (p !in s.peers ==> s.coverage[p].count == 0)
  }

  ghost predicate Inv(s: State) {
    && s.peers <= s.coverage.Keys
    && (forall p :: PeerFits(s, p))
    && (forall p :: Covered(s, p))
    && CallsOk(s)
    && s.relay.refCount == |Holders(s)|
    && RelayOk(s.relay)
  }

  /** A subscription nobody counts has a relay step ahead that will see it. */
  predicate RelayOk(r: Relay) {
    && ((r.subscribed || r.step.Subscribing?) && r.refCount == 0 ==> r.queue != [])
    && (!r.step.Resting? ==> !r.subscribed)
    && (r.step.Unsubscribing? ==> r.step.call.CallDisable?)
  }

  // ---------------------------------------------------------------------------------------
  // One peer
  // ---------------------------------------------------------------------------------------

  lemma {:induction false} EnablesHead(q: seq<Kind>)
    requires q != []
    ensures Enables(q) == Enables(q[1..]) + if q[0].EnableStep? then 1 else 0
    decreases |q|
  {
    var n := |q| - 1;
    if n > 0 {
      EnablesHead(q[..n]);
      assert q[..n][1..] == q[1..][..n - 1];
    } else {
      assert q[..0] == [] && q[1..] == [];
    }
  }

  lemma EnablesPlus(q: seq<Kind>, k: Kind)
    ensures Enables(q + [k]) == Enables(q) + if k.EnableStep? then 1 else 0
  {
    assert (q + [k])[..|q|] == q;
  }

  lemma CallsKeepPeer(c: Coverage)
    requires PeerOk(c)
    ensures PeerOk(Enable(c)) && PeerOk(Disable(c)) && PeerOk(Release(c))
    ensures HasRef(Enable(c)) == HasRef(Disable(c)) == HasRef(Release(c)) == HasRef(c)
  {
    hide Enables;
    EnablesPlus(c.queue, EnableStep);
    EnablesPlus(c.queue, ReconcileStep);
  }

  lemma StartedKeepsPeer(c: Coverage)
    requires PeerOk(c) && CanStart(c)
    ensures PeerOk(Started(c))
    ensures Started(c).running.Enabling? ==> !HasRef(c) && HasRef(Started(c)) && !Started(c).held
    ensures Started(c).running.Disabling? ==> HasRef(c) && !HasRef(Started(c)) && !Started(c).held
    ensures !Started(c).running.Enabling? && !Started(c).running.Disabling? ==> Started(c) == c.(queue := c.queue[1..])
  {
    hide Enables;
    EnablesHead(c.queue);
  }

  lemma ContinuedKeepsPeer(c: Coverage)
    requires PeerOk(c) && CanContinue(c)
    ensures PeerOk(Continued(c)) && HasRef(Continued(c)) == HasRef(c)
    ensures Continued(c).held || Confirmed(Continued(c)) ==> c.held || Confirmed(c)
  {
    hide Enables;
  }

  lemma AnsweredKeepsPeer(c: Coverage, call: Call, ok: bool)
    requires PeerOk(c) && match call case CallEnable(_) => c.running.Enabling? case CallDisable(_) => c.running.Disabling?
    ensures PeerOk(Answered(c, call, ok)) && Answered(c, call, ok).count == c.count
    ensures HasRef(Answered(c, call, ok)) == (HasRef(c) && (ok || call.CallDisable?))
    ensures Answered(c, call, ok).held == c.held && (Confirmed(Answered(c, call, ok)) <==> call.CallEnable? && ok)
  {
    hide Enables;
  }

  // ---------------------------------------------------------------------------------------
  // All peers and the relay
  // ---------------------------------------------------------------------------------------

  lemma PutHolders(s: State, p: Peer, c: Coverage)
    ensures Holders(Put(s, p, c)) == if HasRef(c) then Holders(s) + {p} else Holders(s) - {p}
  {
  }

  /** A peer's own change that keeps its reference and its place among the relay's calls. */
  lemma PutKeeps(s: State, p: Peer, c: Coverage)
    requires Inv(s) && p in s.coverage && PeerOk(c) && (p !in s.peers ==> c.count == 0)
    requires HasRef(c) == HasRef(s.coverage[p])
    requires c.running == s.coverage[p].running
          || (!s.coverage[p].running.Enabling? && !s.coverage[p].running.Disabling?)
    requires c.held || Confirmed(c) ==> s.coverage[p].held || Confirmed(s.coverage[p])
    ensures Inv(Put(s, p, c))
  {
    hide PeerOk, Enables, Holders, HasRef, RelayOk, Confirmed;
    var t := Put(s, p, c);
    PutHolders(s, p, c);
    HolderIff(s, p);
    assert Holders(t) == Holders(s);
    forall q ensures PeerFits(t, q) { assert PeerFits(s, q); }
    forall q ensures Covered(t, q) { assert Covered(s, q) && Covered(s, p); }
    forall call | call in Calls(t.relay) ensures CallOk(t, call) { assert CallOk(s, call); }
  }

  lemma HolderIff(s: State, p: Peer)
    ensures p in Holders(s) <==> p in s.coverage && HasRef(s.coverage[p])
  {
  }

  lemma RegisterKeeps(s: State, p: Peer)
    requires Inv(s) && p !in s.coverage
    ensures Inv(Take(s, DoRegister(p)))
  {
    hide Enables, Holders, RelayOk;
    var t := Take(s, DoRegister(p));
    PutHolders(s, p, FRESH);
    HolderIff(s, p);
    assert Holders(t) == Holders(Put(s, p, FRESH)) == Holders(s) by { SameHolders(t, Put(s, p, FRESH)); }
    assert Enables([]) == 0 by { NoEnables(); }
    forall q ensures PeerFits(t, q) { assert PeerFits(s, q); }
    forall q ensures Covered(t, q) { assert Covered(s, q); }
    forall call | call in Calls(t.relay) ensures CallOk(t, call) { assert CallOk(s, call); }
  }

  lemma NoEnables()
    ensures Enables([]) == 0
  {
  }

  lemma SameHolders(s: State, t: State)
    requires s.coverage == t.coverage
    ensures Holders(s) == Holders(t)
  {
  }

  lemma ReleaseKeeps(s: State, p: Peer)
    requires Inv(s) && p in s.peers && p in s.coverage
    ensures Inv(Take(s, DoRelease(p)))
  {
    hide PeerOk, Enables, Holders, HasRef, RelayOk, Confirmed;
    assert PeerFits(s, p);
    CallsKeepPeer(s.coverage[p]);
    SameProgress(s.coverage[p]);
    PutKeeps(s, p, Release(s.coverage[p]));
    var u := Put(s, p, Release(s.coverage[p]));
    var t := u.(peers := s.peers - {p});
    SameHolders(t, u);
    forall q ensures PeerFits(t, q) { assert PeerFits(u, q); }
    forall q ensures Covered(t, q) { assert Covered(u, q); }
    forall call | call in Calls(t.relay) ensures CallOk(t, call) { assert CallOk(u, call); }
  }

  lemma SameProgress(c: Coverage)
    ensures Confirmed(Enable(c)) == Confirmed(Disable(c)) == Confirmed(Release(c)) == Confirmed(c)
  {
  }

  lemma CallsPlus(r: Relay, call: Call)
    ensures Calls(RelayEnable(r, call.peer)) == Calls(r) + [CallEnable(call.peer)]
    ensures r.refCount != 0 ==> Calls(RelayDisable(r, call.peer)) == Calls(r) + [CallDisable(call.peer)]
  {
  }

  /** A peer that is neither enabling nor disabling has no call at the relay. */
  lemma NoCall(s: State, p: Peer)
    requires CallsOk(s) && p in s.coverage && s.coverage[p].running.Idle?
    ensures forall call <- Calls(s.relay) :: call.peer != p
  {
    forall call | call in Calls(s.relay) ensures call.peer != p {
      assert CallOk(s, call);
    }
  }

  lemma AddCall(s: State, p: Peer, c: Coverage, r: Relay, call: Call)
    requires CallsOk(s) && p in s.coverage && s.coverage[p].running.Idle? && call.peer == p
    requires Calls(r) == Calls(s.relay) + [call]
    requires match call case CallEnable(_) => c.running.Enabling? case CallDisable(_) => c.running.Disabling?
    ensures CallsOk(Put(s, p, c).(relay := r))
  {
    NoCall(s, p);
    var t := Put(s, p, c).(relay := r);
    forall d | d in Calls(r) ensures CallOk(t, d) {
      if d in Calls(s.relay) {
        assert CallOk(s, d);
      }
    }
    forall i, j | 0 <= i < j < |Calls(r)| ensures Calls(r)[i].peer != Calls(r)[j].peer {
      assert Calls(r)[i] in Calls(s.relay);
    }
  }

  lemma StartKeeps(s: State, p: Peer)
    requires Inv(s) && p in s.coverage && CanStart(s.coverage[p])
    ensures Inv(StartPeer(s, p))
  {
    hide Inv, PeerOk, HasRef;
    var c := s.coverage[p];
    var d := Started(c);
    assert PeerFits(s, p) by { InvPeer(s, p); }
    StartedKeepsPeer(c);
    if d.running.Enabling? {
      StartEnabling(s, p);
    } else if d.running.Disabling? {
      StartDisabling(s, p);
    } else {
      IdleRef(c, d);
      PutKeeps(s, p, d);
      assert Put(s, p, d).(relay := s.relay) == Put(s, p, d);
    }
  }

  lemma IdleRef(c: Coverage, d: Coverage)
    requires d == c.(queue := d.queue)
    ensures HasRef(c) == HasRef(d)
  {
  }

  lemma InvPeer(s: State, p: Peer)
    requires Inv(s)
    ensures PeerFits(s, p) && Covered(s, p)
  {
  }

  lemma StartEnabling(s: State, p: Peer)
    requires Inv(s) && p in s.coverage && CanStart(s.coverage[p]) && Started(s.coverage[p]).running.Enabling?
    ensures Inv(StartPeer(s, p))
  {
    hide PeerOk, Enables, Holders, HasRef, CallsOk;
    var c := s.coverage[p];
    var d := Started(c);
    var r := RelayEnable(s.relay, p);
    var t := Put(s, p, d).(relay := r);
    assert PeerFits(s, p);
    StartedKeepsPeer(c);
    PutHolders(s, p, d);
    HolderIff(s, p);
    SameHolders(t, Put(s, p, d));
    CallsPlus(s.relay, CallEnable(p));
    AddCall(s, p, d, r, CallEnable(p));
    forall q ensures PeerFits(t, q) { assert PeerFits(s, q); }
    forall q ensures Covered(t, q) { assert Covered(s, q); }
    assert |Holders(s) + {p}| == |Holders(s)| + 1;
  }

  lemma StartDisabling(s: State, p: Peer)
    requires Inv(s) && p in s.coverage && CanStart(s.coverage[p]) && Started(s.coverage[p]).running.Disabling?
    ensures Inv(StartPeer(s, p))
  {
    hide PeerOk, Enables, Holders, HasRef, CallsOk;
    var c := s.coverage[p];
    var d := Started(c);
    assert PeerFits(s, p);
    StartedKeepsPeer(c);
    HolderIff(s, p);
    assert |Holders(s) - {p}| == |Holders(s)| - 1;
    var r := RelayDisable(s.relay, p);
    var t := Put(s, p, d).(relay := r);
    PutHolders(s, p, d);
    SameHolders(t, Put(s, p, d));
    CallsPlus(s.relay, CallDisable(p));
    AddCall(s, p, d, r, CallDisable(p));
    forall q ensures PeerFits(t, q) { assert PeerFits(s, q); }
    forall q ensures Covered(t, q) { assert Covered(s, q); }
  }

  lemma ContinueKeeps(s: State, p: Peer)
    requires Inv(s) && p in s.coverage && CanContinue(s.coverage[p])
    ensures Inv(Put(s, p, Continued(s.coverage[p])))
  {
    hide Inv, PeerOk, HasRef, Confirmed;
    InvPeer(s, p);
    ContinuedKeepsPeer(s.coverage[p]);
    ContinuedCounts(s.coverage[p]);
    PutKeeps(s, p, Continued(s.coverage[p]));
  }

  lemma ContinuedCounts(c: Coverage)
    requires CanContinue(c)
    ensures Continued(c).count <= c.count
  {
  }

  // ---------------------------------------------------------------------------------------
  // The relay's steps
  // ---------------------------------------------------------------------------------------

  /** The head call is answered: it leaves the relay, and its peer learns the outcome. */
  lemma AnswerKeeps(s: State, r: Relay, call: Call, ok: bool)
    requires Inv(s) && Calls(s.relay) == [call] + Calls(r)
    requires r.refCount == s.relay.refCount - if !ok && call.CallEnable? then 1 else 0
    requires s.relay.subscribed && r.refCount > 0 ==> r.subscribed
    requires call.CallEnable? && ok ==> r.subscribed
    requires RelayOk(r)
    ensures Inv(Answer(s.(relay := r), call, ok))
  {
    hide PeerOk, Enables, Holders, HasRef, RelayOk, Confirmed, Answered;
    var p := call.peer;
    assert Calls(s.relay)[0] == call;
    assert CallOk(s, call);
    var c := s.coverage[p];
    var d := Answered(c, call, ok);
    var t := Answer(s.(relay := r), call, ok);
    assert PeerFits(s, p);
    AnsweredKeepsPeer(c, call, ok);
    SameHolders(t, Put(s, p, d));
    PutHolders(s, p, d);
    HolderIff(s, p);
    CallRef(s, call);
    forall q ensures PeerFits(t, q) { assert PeerFits(s, q); }
    forall q ensures Covered(t, q) {
      assert Covered(s, q);
      HolderIff(t, q);
      HeldRef(t, q);
    }
    AnswerCalls(s, r, call, d);
  }

  lemma HeldRef(s: State, q: Peer)
    ensures q in s.coverage && (s.coverage[q].held || Confirmed(s.coverage[q])) ==> HasRef(s.coverage[q])
    ensures q in s.coverage && HasRef(s.coverage[q]) ==> |Holders(s)| > 0
  {
    if q in s.coverage && HasRef(s.coverage[q]) {
      assert q in Holders(s);
    }
  }

  lemma CallRef(s: State, call: Call)
    requires CallOk(s, call)
    ensures call.CallEnable? ==> HasRef(s.coverage[call.peer])
    ensures call.CallEnable? ==> |Holders(s) - {call.peer}| == |Holders(s)| - 1
    ensures HasRef(s.coverage[call.peer]) ==> Holders(s) + {call.peer} == Holders(s)
    ensures !HasRef(s.coverage[call.peer]) ==> Holders(s) - {call.peer} == Holders(s)
  {
    HolderIff(s, call.peer);
  }

  lemma AnswerCalls(s: State, r: Relay, call: Call, d: Coverage)
    requires CallsOk(s) && Calls(s.relay) == [call] + Calls(r)
    ensures CallsOk(Put(s, call.peer, d).(relay := r))
  {
    var t := Put(s, call.peer, d).(relay := r);
    forall e | e in Calls(r) ensures CallOk(t, e) {
      assert e in Calls(s.relay) && CallOk(s, e);
      var i :| 0 <= i < |Calls(r)| && Calls(r)[i] == e;
      assert Calls(s.relay)[0] == call && Calls(s.relay)[i + 1] == e;
    }
    forall i, j | 0 <= i < j < |Calls(r)| ensures Calls(r)[i].peer != Calls(r)[j].peer {
      assert Calls(s.relay)[i + 1] == Calls(r)[i] && Calls(s.relay)[j + 1] == Calls(r)[j];
    }
  }

  /** An enable call always finds a positive reference count: it is counted itself. */
  lemma EnableWanted(s: State, call: Call)
    requires Inv(s) && call in Calls(s.relay) && call.CallEnable?
    ensures s.relay.refCount > 0
  {
    hide PeerOk, Enables, RelayOk;
    assert CallOk(s, call);
    HeldRef(s, call.peer);
  }

  lemma RelayStartKeeps(s: State)
    requires Inv(s) && RelayCanStart(s.relay)
    ensures Inv(StartRelay(s))
  {
    hide PeerOk, Enables, Holders, HasRef, Confirmed, CallsOk, PeerFits, Covered;
    var call := s.relay.queue[0];
    var r := RelayStarted(s.relay);
    assert Calls(s.relay)[0] == call;
    if call.CallEnable? {
      EnableWanted(s, call);
    }
    if Decision(s.relay).Resting? {
      assert Calls(s.relay) == [call] + Calls(r);
      AnswerKeeps(s, r, call, true);
    } else {
      assert Calls(r) == Calls(s.relay);
      SameCalls(s, r);
    }
  }

  lemma SameCalls(s: State, r: Relay)
    requires Inv(s) && Calls(r) == Calls(s.relay) && r.refCount == s.relay.refCount && RelayOk(r)
    requires s.relay.subscribed && r.refCount > 0 ==> r.subscribed
    ensures Inv(s.(relay := r))
  {
    hide PeerOk, Enables, RelayOk;
    var t := s.(relay := r);
    SameHolders(s, t);
    forall q ensures PeerFits(t, q) { assert PeerFits(s, q); }
    forall q ensures Covered(t, q) { assert Covered(s, q); HeldRef(s, q); }
    forall call | call in Calls(r) ensures CallOk(t, call) { assert CallOk(s, call); }
  }

  lemma RelayFinishKeeps(s: State, ok: bool)
    requires Inv(s) && !s.relay.step.Resting?
    ensures Inv(FinishRelay(s, ok))
  {
    hide PeerOk, Enables, Holders, HasRef, Confirmed, CallsOk, PeerFits, Covered;
    var call := s.relay.step.call;
    var r := RelayFinished(s.relay, ok);
    assert Calls(s.relay)[0] == call;
    assert Calls(s.relay) == [call] + Calls(r);
    if call.CallEnable? {
      EnableWanted(s, call);
    }
    FinishOk(s.relay, ok);
    RelayFacts(s.relay);
    AnswerKeeps(s, r, call, ok);
  }

  lemma RelayFacts(r: Relay)
    requires RelayOk(r)
    ensures r.step.Unsubscribing? ==> r.step.call.CallDisable?
  {
  }

  lemma FinishOk(r: Relay, ok: bool)
    requires RelayOk(r) && !r.step.Resting? && (r.step.call.CallEnable? ==> r.refCount > 0)
    ensures RelayOk(RelayFinished(r, ok)) && !r.subscribed
  {
  }

  // ---------------------------------------------------------------------------------------
  // Whole runs
  // ---------------------------------------------------------------------------------------

  lemma StepKeeps(s: State, step: Step)
    requires Inv(s) && Allowed(s, step)
    ensures Inv(Take(s, step))
  {
    hide Inv, PeerOk, HasRef, Confirmed, StartPeer, StartRelay, FinishRelay;
    match step
    case DoRegister(p) => RegisterKeeps(s, p);
    case DoEnable(p) => CallKeeps(s, p);
    case DoDisable(p) => CallKeeps(s, p);
    case DoRelease(p) => ReleaseKeeps(s, p);
    case DoStart(p) => StartKeeps(s, p);
    case DoContinue(p) => ContinueKeeps(s, p);
    case DoRelayStart => RelayStartKeeps(s);
    case DoRelayFinish(ok) => RelayFinishKeeps(s, ok);
  }

  lemma CallKeeps(s: State, p: Peer)
    requires Inv(s) && p in s.peers && p in s.coverage
    ensures Inv(Put(s, p, Enable(s.coverage[p]))) && Inv(Put(s, p, Disable(s.coverage[p])))
  {
    hide Inv, PeerOk, HasRef, Confirmed;
    InvPeer(s, p);
    CallsKeepPeer(s.coverage[p]);
    SameProgress(s.coverage[p]);
    PutKeeps(s, p, Enable(s.coverage[p]));
    PutKeeps(s, p, Disable(s.coverage[p]));
  }

  lemma {:induction false} RunKeeps(s: State, steps: seq<Step>)
    requires Inv(s) && CanRun(s, steps)
    ensures Inv(Run(s, steps))
    decreases |steps|
  {
    hide Inv, Take, Allowed;
    if steps != [] {
      StepKeeps(s, steps[0]);
      RunKeeps(Take(s, steps[0]), steps[1..]);
    }
  }

  lemma InitInv()
    ensures Inv(INIT)
  {
    assert Holders(INIT) == {};
  }

  predicate Drained(c: Coverage) {
    c.running.Idle? && c.queue == []
  }

  predicate AllDrained(s: State) {
    && (forall p <- s.coverage :: Drained(s.coverage[p]))
    && s.relay.step.Resting? && s.relay.queue == []
  }

  /**
    On every run, at every point: a peer whose queue has drained holds its one relay reference exactly when
    its count is positive; the relay's count is the number of peers with a reference, so never negative; and
    a peer that holds a reference is covered by a live subscription.
   */
  lemma CoverageAgrees(steps: seq<Step>, p: Peer)
    requires CanRun(INIT, steps)
    ensures var s := Run(INIT, steps);
            && (p in s.coverage && Drained(s.coverage[p]) ==> (s.coverage[p].held <==> s.coverage[p].count > 0))
            && s.relay.refCount == |Holders(s)|
            && (p in s.coverage && s.coverage[p].held ==> s.relay.subscribed)
            && (p in s.coverage && p !in s.peers && Drained(s.coverage[p]) ==> !s.coverage[p].held)
  {
    hide Run, CanRun, Holders;
    InitInv();
    RunKeeps(INIT, steps);
    NoEnables();
    var s := Run(INIT, steps);
    assert PeerFits(s, p) && Covered(s, p);
  }

  /** Once everything has drained, the relay is subscribed exactly when some peer still counts on it. */
  lemma DrainedAgrees(steps: seq<Step>)
    requires CanRun(INIT, steps) && AllDrained(Run(INIT, steps))
    ensures var s := Run(INIT, steps);
            && Holders(s) == (set p | p in s.coverage && s.coverage[p].held) == (set p | p in s.peers && p in s.coverage && s.coverage[p].count > 0)
            && s.relay.refCount == |Holders(s)|
            && (s.relay.subscribed <==> s.relay.refCount > 0)
  {
    hide Run, CanRun;
    InitInv();
    RunKeeps(INIT, steps);
    var s := Run(INIT, steps);
    forall p | p in s.coverage
      ensures HasRef(s.coverage[p]) == s.coverage[p].held
      ensures p in s.peers && s.coverage[p].count > 0 <==> s.coverage[p].held
    {
      CoverageAgrees(steps, p);
      assert Drained(s.coverage[p]) && PeerFits(s, p);
    }
    DrainedRelay(s);
  }

  lemma DrainedRelay(s: State)
    requires Inv(s) && AllDrained(s)
    ensures s.relay.subscribed <==> s.relay.refCount > 0
  {
    hide PeerOk, Enables;
    if s.relay.refCount > 0 {
      var p :| p in Holders(s);
      assert Drained(s.coverage[p]) && Covered(s, p);
    }
  }

  // ---------------------------------------------------------------------------------------
  // What an enable's success means
  // ---------------------------------------------------------------------------------------

  /** The step starts a queued enable of the peer. */
  predicate EnableStarts(s: State, step: Step, p: Peer) {
    step == DoStart(p) && p in s.coverage && CanStart(s.coverage[p]) && s.coverage[p].queue[0].EnableStep?
  }

  /** The step resumes an enable of the peer that the relay confirmed. */
  predicate EnableConfirmed(s: State, step: Step, p: Peer) {
    step == DoContinue(p) && p in s.coverage && s.coverage[p].running == Enabled(EnableStep, true)
  }

  /** Nothing is taken back from the peer while an enable of it is unfinished. */
  predicate Patient(s: State, step: Step, p: Peer) {
    (step == DoDisable(p) || step == DoRelease(p)) && p in s.coverage ==> Unfinished(s.coverage[p]) == 0
  }

  predicate PatientAll(s: State, steps: seq<Step>, p: Peer)
    requires CanRun(s, steps)
    decreases |steps|
  {
    steps == [] || (Patient(s, steps[0], p) && PatientAll(Take(s, steps[0]), steps[1..], p))
  }

  /** Every unfinished enable is still counted. */
  predicate Counted(s: State, p: Peer) {
    p in s.coverage ==> Unfinished(s.coverage[p]) <= s.coverage[p].count
  }

  lemma CoverageCounted(c: Coverage)
    requires Unfinished(c) <= c.count
    ensures Unfinished(Enable(c)) <= Enable(c).count
    ensures Unfinished(c) == 0 ==> Unfinished(Disable(c)) == Unfinished(Release(c)) == 0
    ensures CanStart(c) ==> Unfinished(Started(c)) <= Started(c).count
    ensures CanContinue(c) ==> Unfinished(Continued(c)) <= Continued(c).count
  {
    hide Enables;
    EnablesPlus(c.queue, EnableStep);
    EnablesPlus(c.queue, ReconcileStep);
    if CanStart(c) {
      EnablesHead(c.queue);
    }
  }

  lemma StepCounted(s: State, step: Step, p: Peer)
    requires Counted(s, p) && Allowed(s, step) && Patient(s, step, p)
    ensures Counted(Take(s, step), p)
  {
    hide Enables, Started, Continued;
    NoEnables();
    if p in s.coverage {
      CoverageCounted(s.coverage[p]);
    }
  }

  lemma {:induction false} RunCounted(s: State, steps: seq<Step>, p: Peer)
    requires Counted(s, p) && CanRun(s, steps) && PatientAll(s, steps, p)
    ensures Counted(Run(s, steps), p)
    decreases |steps|
  {
    hide Counted, Take, Allowed, Patient;
    if steps != [] {
      StepCounted(s, steps[0], p);
      RunCounted(Take(s, steps[0]), steps[1..], p);
    }
  }

  /**
    On every run in which nothing is taken back from the peer while an enable of it is unfinished: an enable that
    starts has a reference at once, and one that is not refused ends with the peer holding its reference, covered
    by a live subscription.
   */
  lemma PatientEnablesCover(steps: seq<Step>, step: Step, p: Peer)
    requires CanRun(INIT, steps) && PatientAll(INIT, steps, p)
    requires var s := Run(INIT, steps); Allowed(s, step) && (EnableStarts(s, step, p) || EnableConfirmed(s, step, p))
    ensures var t := Take(Run(INIT, steps), step);
            && p in t.coverage && HasRef(t.coverage[p])
            && (!t.coverage[p].running.Enabling? ==> t.coverage[p].running.Idle? && t.coverage[p].held && t.relay.subscribed)
  {
    hide Run, CanRun, PatientAll, Enables, Inv;
    InitInv();
    RunKeeps(INIT, steps);
    RunCounted(INIT, steps, p);
    var s := Run(INIT, steps);
    StepKeeps(s, step);
    InvPeer(Take(s, step), p);
    if EnableStarts(s, step, p) {
      EnablesHead(s.coverage[p].queue);
    }
  }

  /** How often the peer's `enable` was called. */
  function Called(steps: seq<Step>, p: Peer): nat
    decreases |steps|
  {
    if steps == [] then 0 else Called(steps[1..], p) + if steps[0] == DoEnable(p) then 1 else 0
  }

  /** What one step takes back from the peer's count: a disable one, a release all, a refused enable its own. */
  function Returned(s: State, step: Step, p: Peer): nat {
    if p !in s.coverage then 0
    else
      var c := s.coverage[p];
      if step == DoDisable(p) && c.count > 0 then 1
      else if step == DoRelease(p) then c.count
      else if step == DoContinue(p) && c.running == Enabled(EnableStep, false) && c.count > 0 then 1
      else 0
  }

  function TakenBack(s: State, steps: seq<Step>, p: Peer): nat
    requires CanRun(s, steps)
    decreases |steps|
  {
    if steps == [] then 0 else Returned(s, steps[0], p) + TakenBack(Take(s, steps[0]), steps[1..], p)
  }

  function CountOf(s: State, p: Peer): nat {
    if p in s.coverage then s.coverage[p].count else 0
  }

  lemma StepBalances(s: State, step: Step, p: Peer)
    requires Allowed(s, step)
    ensures CountOf(Take(s, step), p) + Returned(s, step, p) == CountOf(s, p) + if step == DoEnable(p) then 1 else 0
  {
  }

  /** A peer's count is what it was, plus the enables called, less what was taken back. */
  lemma {:induction false} RunBalances(s: State, steps: seq<Step>, p: Peer)
    requires CanRun(s, steps)
    ensures CountOf(Run(s, steps), p) + TakenBack(s, steps, p) == CountOf(s, p) + Called(steps, p)
    decreases |steps|
  {
    hide CountOf, Take, Allowed, Returned;
    if steps != [] {
      StepBalances(s, steps[0], p);
      RunBalances(Take(s, steps[0]), steps[1..], p);
    }
  }

  /**
    On every run: an enable that starts is left without a reference, and so resolves uncovered, exactly when
    disables, releases and refusals have by then taken back as many counts as enables were called.
   */
  lemma EnableUncoveredIff(steps: seq<Step>, p: Peer)
    requires CanRun(INIT, steps) && EnableStarts(Run(INIT, steps), DoStart(p), p)
    ensures var t := Take(Run(INIT, steps), DoStart(p));
            !HasRef(t.coverage[p]) <==> TakenBack(INIT, steps, p) == Called(steps, p)
  {
    hide Run, CanRun, TakenBack, Called;
    RunBalances(INIT, steps, p);
  }

  /** Once everything is taken back, and until the next call of `enable`, every queued enable is left uncovered. */
  lemma {:induction false} UncoveredUntilEnabled(s: State, steps: seq<Step>, p: Peer)
    requires p in s.coverage && s.coverage[p].count == 0 && CanRun(s, steps) && DoEnable(p) !in steps
    requires EnableStarts(Run(s, steps), DoStart(p), p)
    ensures !HasRef(Take(Run(s, steps), DoStart(p)).coverage[p])
    decreases |steps|
  {
    if steps != [] {
      hide Run, CanRun, EnableStarts, HasRef;
      StepBalances(s, steps[0], p);
      assert DoEnable(p) !in steps[1..];
      UncoveredStep(s, steps, p);
      UncoveredUntilEnabled(Take(s, steps[0]), steps[1..], p);
    }
  }

  lemma UncoveredStep(s: State, steps: seq<Step>, p: Peer)
    requires steps != [] && CanRun(s, steps)
    ensures CanRun(Take(s, steps[0]), steps[1..]) && Run(s, steps) == Run(Take(s, steps[0]), steps[1..])
    ensures p in s.coverage ==> p in Take(s, steps[0]).coverage
  {
  }

  /** A released peer cannot call `enable` again, so every enable still queued at its release is left uncovered. */
  lemma ReleaseUncovers(before: seq<Step>, after: seq<Step>, p: Peer)
    requires CanRun(INIT, before) && Allowed(Run(INIT, before), DoRelease(p))
    requires CanRun(Take(Run(INIT, before), DoRelease(p)), after)
    requires EnableStarts(Run(Take(Run(INIT, before), DoRelease(p)), after), DoStart(p), p)
    ensures !HasRef(Take(Run(Take(Run(INIT, before), DoRelease(p)), after), DoStart(p)).coverage[p])
  {
    hide Run, CanRun, EnableStarts, HasRef;
    var s := Take(Run(INIT, before), DoRelease(p));
    NoEnableOnceReleased(s, after, p);
    UncoveredUntilEnabled(s, after, p);
  }

  lemma {:induction false} NoEnableOnceReleased(s: State, steps: seq<Step>, p: Peer)
    requires p in s.coverage && p !in s.peers && CanRun(s, steps)
    ensures DoEnable(p) !in steps
    decreases |steps|
  {
    if steps != [] {
      hide HasRef, Enables;
      assert p !in Take(s, steps[0]).peers && steps[0] != DoEnable(p);
      UncoveredStep(s, steps, p);
      NoEnableOnceReleased(Take(s, steps[0]), steps[1..], p);
    }
  }

  lemma RunThree(s: State, a: Step, b: Step, c: Step, rest: seq<Step>)
    requires Allowed(s, a) && Allowed(Take(s, a), b) && Allowed(Take(Take(s, a), b), c)
    requires CanRun(Take(Take(Take(s, a), b), c), rest)
    ensures CanRun(s, [a, b, c] + rest) && Run(s, [a, b, c] + rest) == Run(Take(Take(Take(s, a), b), c), rest)
  {
    hide Take, Allowed;
    var steps := [a, b, c] + rest;
    assert steps[1..] == [b, c] + rest && steps[1..][1..] == [c] + rest && steps[1..][1..][1..] == rest;
    var last := Take(Take(s, a), b);
    assert CanRun(last, [c] + rest) && Run(last, [c] + rest) == Run(Take(last, c), rest);
    assert CanRun(Take(s, a), [b, c] + rest) && Run(Take(s, a), [b, c] + rest) == Run(last, [c] + rest);
  }

  /** One registered peer and the relay. */
  function One(c: Coverage, r: Relay): State {
    State(map[0 := c], {0}, r)
  }

  lemma PutOne(c: Coverage, r: Relay, d: Coverage)
    ensures Put(One(c, r), 0, d) == One(d, r)
  {
    assert map[0 := c][0 := d] == map[0 := d];
  }

  lemma OneIs(c: Coverage, r: Relay, q: Relay)
    ensures var s := One(c, r);
            0 in s.coverage && s.coverage[0] == c && 0 in s.peers && s.relay == r && s.(relay := q) == One(c, q)
  {
  }

  lemma FirstPeer()
    ensures Put(INIT, 0, FRESH).(peers := {0}) == One(FRESH, INIT.relay)
  {
  }

  const RESTED := Relay(0, false, [], Resting)

  /** Tmux refuses the first enable: its own step uncounts the second. */
  const REFUSED: seq<Step> := [DoRelayFinish(false), DoContinue(0), DoStart(0)]

  /** The peer disables and enables again while the first enable is at the relay. */
  const AGAIN: seq<Step> := [DoDisable(0), DoEnable(0), DoRelayStart] + REFUSED

  const REFUSED_EARLIER: seq<Step> := [DoRegister(0), DoEnable(0), DoStart(0)] + AGAIN

  lemma RefusedRuns()
    ensures var s := One(Coverage(1, false, [ReconcileStep, EnableStep], Enabling(EnableStep)), Relay(1, false, [], Subscribing(CallEnable(0))));
            CanRun(s, REFUSED) && Run(s, REFUSED) == One(Coverage(0, false, [EnableStep], Idle), RESTED)
  {
    hide CanRun, Run, Put, One;
    var c6, r6 := Coverage(1, false, [ReconcileStep, EnableStep], Enabling(EnableStep)), Relay(1, false, [], Subscribing(CallEnable(0)));
    var c7, c8 := Coverage(1, false, [ReconcileStep, EnableStep], Enabled(EnableStep, false)), Coverage(0, false, [ReconcileStep, EnableStep], Idle);
    OneIs(c6, r6, RESTED);
    OneIs(c6, RESTED, RESTED);
    OneIs(c7, RESTED, RESTED);
    OneIs(c8, RESTED, RESTED);
    OneIs(Coverage(0, false, [EnableStep], Idle), RESTED, RESTED);
    PutOne(c6, RESTED, c7);
    PutOne(c7, RESTED, c8);
    PutOne(c8, RESTED, Coverage(0, false, [EnableStep], Idle));
    assert c8.queue[1..] == [EnableStep];
    var end := One(Coverage(0, false, [EnableStep], Idle), RESTED);
    EmptyRun(end);
    RunThree(One(c6, r6), DoRelayFinish(false), DoContinue(0), DoStart(0), []);
    assert [DoRelayFinish(false), DoContinue(0), DoStart(0)] + [] == REFUSED;
  }

  lemma AgainRuns()
    ensures var s := One(Coverage(1, false, [], Enabling(EnableStep)), Relay(1, false, [CallEnable(0)], Resting));
            CanRun(s, AGAIN) && Run(s, AGAIN) == One(Coverage(0, false, [EnableStep], Idle), RESTED)
  {
    hide CanRun, Run, Put, One;
    var r3 := Relay(1, false, [CallEnable(0)], Resting);
    var c3, c4 := Coverage(1, false, [], Enabling(EnableStep)), Coverage(0, false, [ReconcileStep], Enabling(EnableStep));
    var c5 := Coverage(1, false, [ReconcileStep, EnableStep], Enabling(EnableStep));
    OneIs(c3, r3, r3);
    OneIs(c4, r3, r3);
    OneIs(c5, r3, Relay(1, false, [], Subscribing(CallEnable(0))));
    PutOne(c3, r3, c4);
    PutOne(c4, r3, c5);
    assert c3.queue + [ReconcileStep] == c4.queue && c4.queue + [EnableStep] == c5.queue && r3.queue[1..] == [];
    assert RelayStarted(r3) == Relay(1, false, [], Subscribing(CallEnable(0)));
    RefusedRuns();
    RunThree(One(c3, r3), DoDisable(0), DoEnable(0), DoRelayStart, REFUSED);
  }

  lemma RefusedEarlierRuns()
    ensures CanRun(INIT, REFUSED_EARLIER) && Run(INIT, REFUSED_EARLIER) == One(Coverage(0, false, [EnableStep], Idle), RESTED)
  {
    hide CanRun, Run, Put, One;
    var c2, c3 := Coverage(1, false, [EnableStep], Idle), Coverage(1, false, [], Enabling(EnableStep));
    FirstPeer();
    assert INIT.peers + {0} == {0} && INIT.relay == RESTED;
    OneIs(FRESH, RESTED, RESTED);
    OneIs(c2, RESTED, RESTED);
    OneIs(c3, RESTED, Relay(1, false, [CallEnable(0)], Resting));
    PutOne(FRESH, RESTED, c2);
    PutOne(c2, RESTED, c3);
    assert FRESH.queue + [EnableStep] == c2.queue && c2.queue[1..] == [] && RESTED.queue + [CallEnable(0)] == [CallEnable(0)];
    AgainRuns();
    RunThree(INIT, DoRegister(0), DoEnable(0), DoStart(0), AGAIN);
  }

  lemma EmptyRun(s: State)
    ensures CanRun(s, []) && Run(s, []) == s
  {
  }

  /** Such a run reaches a state in which the later enable, which nobody disabled, starts, calls nobody and ends uncovered. */
  lemma LaterEnableResolvesUncovered()
    ensures CanRun(INIT, REFUSED_EARLIER)
    ensures var s := Run(INIT, REFUSED_EARLIER);
            && EnableStarts(s, DoStart(0), 0)
            && var t := Take(s, DoStart(0));
               Drained(t.coverage[0]) && !HasRef(t.coverage[0]) && !t.relay.subscribed
  {
    hide CanRun, Run;
    RefusedEarlierRuns();
    PutOne(Coverage(0, false, [EnableStep], Idle), RESTED, FRESH);
  }
}

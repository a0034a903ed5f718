/**
  The backpressure ledger (src/connectors/backpressure-ledger.ts) as a state machine: outstanding bytes
  per peer and pane, the panes believed paused, and the Continue commands in flight.
 */
module BackpressureSpec {

  type Peer = nat
  type Pane = nat

  /** `episode` is the identity of the flow object. */
  datatype Flow = Flow(resuming: bool, episode: nat)

  datatype Continue = Continue(pane: Pane, episode: nat)

  datatype Sent = SentPause(pane: Pane) | SentContinue(pane: Pane)

  datatype Outcome = Confirmed | ConnectionGone | Refused

  /**
    `continues` are the tracked Continue commands in flight, by number. `reported` are the panes whose last
    Continue failed and was reported; `flushed` is set by the final teardown.
   */
  datatype Ledger = Ledger(
    high: nat,
    low: nat,
    outstanding: map<Peer, map<Pane, nat>>,
    paused: map<Pane, Flow>,
    continues: map<nat, Continue>,
    issued: nat,
    reported: set<Pane>,
    sent: seq<Sent>,
    flushed: bool
  )

  /** Watermarks are checked when the ledger is made. */
  predicate ValidWatermarks(high: int, low: int) {
    high > low && low >= 0
  }

  function Init(high: nat, low: nat): Ledger {
    Ledger(high, low, map[], map[], map[], 0, {}, [], false)
  }

  // ---------------------------------------------------------------------------------------
  // Sums
  // ---------------------------------------------------------------------------------------

  function Tally(o: map<Peer, map<Pane, nat>>, p: Peer, pane: Pane): nat {
    if p in o && pane in o[p] then o[p][pane] else 0
  }

  ghost function SumOver(o: map<Peer, map<Pane, nat>>, peers: set<Peer>, pane: Pane): nat {
    if peers == {} then 0
    else
      var p :| p in peers;
      Tally(o, p, pane) + SumOver(o, peers - {p}, pane)
  }

  ghost function Total(o: map<Peer, map<Pane, nat>>, pane: Pane): nat {
    SumOver(o, o.Keys, pane)
  }

  lemma {:induction false} SumPick(o: map<Peer, map<Pane, nat>>, peers: set<Peer>, p: Peer, pane: Pane)
    requires p in peers
    ensures SumOver(o, peers, pane) == Tally(o, p, pane) + SumOver(o, peers - {p}, pane)
    decreases |peers|
  {
    hide Tally;
    var q :| q in peers && SumOver(o, peers, pane) == Tally(o, q, pane) + SumOver(o, peers - {q}, pane);
    if q != p {
      SumPick(o, peers - {q}, p, pane);
      SumPick(o, peers - {p}, q, pane);
      assert peers - {q} - {p} == peers - {p} - {q};
    }
  }

  lemma {:induction false} SumSame(o: map<Peer, map<Pane, nat>>, u: map<Peer, map<Pane, nat>>, peers: set<Peer>, pane: Pane)
    requires forall p <- peers :: Tally(u, p, pane) == Tally(o, p, pane)
    ensures SumOver(u, peers, pane) == SumOver(o, peers, pane)
    decreases |peers|
  {
    hide Tally;
    if peers != {} {
      var p :| p in peers;
      SumPick(o, peers, p, pane);
      SumPick(u, peers, p, pane);
      SumSame(o, u, peers - {p}, pane);
    }
  }

  /** Changing one peer's slot changes the total by the change of that peer's tally. */
  lemma TotalChange(o: map<Peer, map<Pane, nat>>, p: Peer, slot: map<Pane, nat>, pane: Pane)
    requires p in o
    ensures Total(o[p := slot], pane) - Tally(o[p := slot], p, pane) == Total(o, pane) - Tally(o, p, pane)
  {
    var u := o[p := slot];
    assert u.Keys == o.Keys;
    SumPick(o, o.Keys, p, pane);
    SumPick(u, o.Keys, p, pane);
    SumSame(o, u, o.Keys - {p}, pane);
  }

  lemma TotalAdd(o: map<Peer, map<Pane, nat>>, p: Peer, pane: Pane)
    requires p !in o
    ensures Total(o[p := map[]], pane) == Total(o, pane)
  {
    var u := o[p := map[]];
    SumPick(u, u.Keys, p, pane);
    assert u.Keys - {p} == o.Keys;
    SumSame(o, u, o.Keys, pane);
  }

  lemma TotalRemove(o: map<Peer, map<Pane, nat>>, p: Peer, pane: Pane)
    requires p in o
    ensures Total(o - {p}, pane) == Total(o, pane) - Tally(o, p, pane)
  {
    var u := o - {p};
    SumPick(o, o.Keys, p, pane);
    assert u.Keys == o.Keys - {p};
    SumSame(o, u, u.Keys, pane);
  }

  // ---------------------------------------------------------------------------------------
  // Steps
  // ---------------------------------------------------------------------------------------

  ghost function MaybePause(s: Ledger, pane: Pane): Ledger {
    if pane in s.paused || Total(s.outstanding, pane) < s.high then s
    else s.(paused := s.paused[pane := Flow(false, s.issued)], issued := s.issued + 1,
            reported := s.reported - {pane}, sent := s.sent + [SentPause(pane)])
  }

  ghost function MaybeResume(s: Ledger, pane: Pane): Ledger {
    if pane !in s.paused || Total(s.outstanding, pane) > s.low || s.paused[pane].resuming then s
    else s.(paused := s.paused[pane := s.paused[pane].(resuming := true)],
            continues := s.continues[s.issued := Continue(pane, s.paused[pane].episode)], issued := s.issued + 1,
            reported := s.reported - {pane}, sent := s.sent + [SentContinue(pane)])
  }

  ghost function ResumeEach(s: Ledger, panes: seq<Pane>): Ledger
    decreases |panes|
  {
    if panes == [] then s else ResumeEach(MaybeResume(s, panes[0]), panes[1..])
  }

  function Register(s: Ledger, p: Peer): Ledger {
    if p in s.outstanding then s else s.(outstanding := s.outstanding[p := map[]])
  }

  function Accounted(slot: map<Pane, nat>, pane: Pane, bytes: nat): map<Pane, nat> {
    slot[pane := (if pane in slot then slot[pane] else 0) + bytes]
  }

  ghost function Account(s: Ledger, p: Peer, pane: Pane, bytes: int): Ledger {
    if p !in s.outstanding || bytes <= 0 then s
    else MaybePause(s.(outstanding := s.outstanding[p := Accounted(s.outstanding[p], pane, bytes)]), pane)
  }

  function Acked(slot: map<Pane, nat>, pane: Pane, bytes: nat): map<Pane, nat> {
    var prev := if pane in slot then slot[pane] else 0;
    if prev <= bytes then slot - {pane} else slot[pane := prev - bytes]
  }

  ghost function Ack(s: Ledger, p: Peer, pane: Pane, bytes: int): Ledger {
    if p !in s.outstanding || bytes <= 0 then s
    else MaybeResume(s.(outstanding := s.outstanding[p := Acked(s.outstanding[p], pane, bytes)]), pane)
  }

  /** `order` is the order in which the peer's panes are walked. */
  ghost function ClearPeer(s: Ledger, p: Peer, order: seq<Pane>): Ledger {
    if p !in s.outstanding then s else ResumeEach(s.(outstanding := s.outstanding[p := map[]]), order)
  }

  ghost function ReleasePeer(s: Ledger, p: Peer, order: seq<Pane>): Ledger {
    if p !in s.outstanding then s else ResumeEach(s.(outstanding := s.outstanding - {p}), order)
  }

  /** tmux's answer to a Continue: it acts only on the episode it was sent for. */
  function Settle(s: Ledger, id: nat, outcome: Outcome): Ledger
    requires id in s.continues
  {
    var c := s.continues[id];
    var t := s.(continues := s.continues - {id});
    if c.pane !in s.paused || s.paused[c.pane].episode != c.episode then t
    else match outcome
      case Confirmed => t.(paused := s.paused - {c.pane})
      case ConnectionGone => t.(paused := s.paused - {c.pane})
      case Refused => t.(paused := s.paused[c.pane := s.paused[c.pane].(resuming := false)], reported := s.reported + {c.pane})
  }

  /** Teardown: a last Continue for every paused pane that has none in flight; `sends` is their order. */
  function Flush(s: Ledger, sends: seq<Pane>): Ledger {
    s.(paused := map[], sent := s.sent + seq(|sends|, i requires 0 <= i < |sends| => SentContinue(sends[i])), flushed := true)
  }

  ghost predicate Lists(order: seq<Pane>, panes: set<Pane>) {
    && (forall pane :: pane in order <==> pane in panes)
    && forall i, j | 0 <= i < j < |order| :: order[i] != order[j]
  }

  datatype Step =
    | DoRegister(p: Peer)
    | DoAccount(p: Peer, pane: Pane, bytes: int)
    | DoAck(p: Peer, pane: Pane, bytes: int)
    | DoClear(p: Peer, order: seq<Pane>)
    | DoRelease(p: Peer, order: seq<Pane>)
    | DoSettle(id: nat, outcome: Outcome)
    | DoFlush(sends: seq<Pane>)

  ghost predicate Allowed(s: Ledger, step: Step) {
    match step
    case DoClear(p, order) => p in s.outstanding ==> Lists(order, s.outstanding[p].Keys)
    case DoRelease(p, order) => p in s.outstanding ==> Lists(order, s.outstanding[p].Keys)
    case DoSettle(id, _) => id in s.continues
    case DoFlush(sends) => Lists(sends, set pane | pane in s.paused && !s.paused[pane].resuming)
    case _ => true
  }

  ghost function Take(s: Ledger, step: Step): Ledger
    requires Allowed(s, step)
  {
    match step
    case DoRegister(p) => Register(s, p)
    case DoAccount(p, pane, bytes) => Account(s, p, pane, bytes)
    case DoAck(p, pane, bytes) => Ack(s, p, pane, bytes)
    case DoClear(p, order) => ClearPeer(s, p, order)
    case DoRelease(p, order) => ReleasePeer(s, p, order)
    case DoSettle(id, outcome) => Settle(s, id, outcome)
    case DoFlush(sends) => Flush(s, sends)
  }

  // ---------------------------------------------------------------------------------------
  // The invariant
  // ---------------------------------------------------------------------------------------

  /** A paused pane that has drained to the low watermark has a Continue in flight, or its last one was reported. */
  ghost predicate NotStranded(s: Ledger, pane: Pane) {
    pane in s.paused && Total(s.outstanding, pane) <= s.low ==> s.paused[pane].resuming || pane in s.reported
  }

  /** `resuming` says exactly that a Continue of this episode is in flight. */
  predicate FlowOk(s: Ledger, pane: Pane) {
    && (pane in s.paused ==> s.paused[pane].episode < s.issued)
    && (pane in s.paused && s.paused[pane].resuming ==> exists id :: id in s.continues && s.continues[id] == Continue(pane, s.paused[pane].episode))
  }

  predicate ContinueOk(s: Ledger, id: nat) {
    id in s.continues ==>
      var c := s.continues[id];
      && id < s.issued && c.episode < s.issued
      && (c.pane in s.paused && s.paused[c.pane].episode == c.episode ==> s.paused[c.pane].resuming)
      && (!s.flushed ==> c.pane in s.paused && s.paused[c.pane].episode == c.episode)
  }

  /** No two Continues of one episode are in flight. */
  predicate Single(s: Ledger, id: nat, other: nat) {
    id in s.continues && other in s.continues && id != other ==> s.continues[id] != s.continues[other]
  }

  ghost predicate FlowsOk(s: Ledger) {
    && (forall pane :: FlowOk(s, pane))
    && (forall id :: ContinueOk(s, id))
    && (forall id, other :: Single(s, id, other))
  }

  /** The invariant, but for panes whose resume decision is still to come. */
  ghost predicate InvBut(s: Ledger, pending: seq<Pane>) {
    && s.low < s.high
    && FlowsOk(s)
    && forall pane :: pane in pending || NotStranded(s, pane)
  }

  ghost predicate Inv(s: Ledger) {
    InvBut(s, [])
  }

  lemma PauseKeeps(s: Ledger, pane: Pane)
    requires FlowsOk(s) && s.low < s.high && forall q :: q == pane || NotStranded(s, q)
    requires pane in s.paused ==> NotStranded(s, pane)
    ensures Inv(MaybePause(s, pane))
    ensures pane in MaybePause(s, pane).paused || Total(s.outstanding, pane) < s.high
  {
    var t := MaybePause(s, pane);
    if t != s {
      forall q ensures FlowOk(t, q) { assert FlowOk(s, q); }
      forall id ensures ContinueOk(t, id) { assert ContinueOk(s, id); }
      forall id, other ensures Single(t, id, other) { assert Single(s, id, other); }
      forall q ensures NotStranded(t, q) { assert q == pane || NotStranded(s, q); }
    } else {
      forall q ensures NotStranded(s, q) { assert q == pane || NotStranded(s, q); }
    }
  }

  lemma ResumeFlows(s: Ledger, pane: Pane)
    requires FlowsOk(s)
    ensures FlowsOk(MaybeResume(s, pane))
  {
    hide Total;
    var t := MaybeResume(s, pane);
    if t != s {
      assert FlowOk(s, pane);
      assert t.continues[s.issued] == Continue(pane, s.paused[pane].episode);
      forall q ensures FlowOk(t, q) {
        assert FlowOk(s, q);
        if q != pane && q in s.paused && s.paused[q].resuming {
          var id :| id in s.continues && s.continues[id] == Continue(q, s.paused[q].episode);
          assert ContinueOk(s, id) && t.continues[id] == s.continues[id];
        }
      }
      forall id ensures ContinueOk(t, id) { assert ContinueOk(s, id); }
      forall id, other ensures Single(t, id, other) {
        assert Single(s, id, other) && ContinueOk(s, id) && ContinueOk(s, other);
      }
    }
  }

  lemma ResumeKeeps(s: Ledger, pane: Pane, pending: seq<Pane>)
    requires InvBut(s, [pane] + pending)
    ensures InvBut(MaybeResume(s, pane), pending)
  {
    hide FlowsOk, Total;
    var t := MaybeResume(s, pane);
    ResumeFlows(s, pane);
    forall q ensures q in pending || NotStranded(t, q) {
      assert q in [pane] + pending || NotStranded(s, q);
    }
  }

  lemma {:induction false} ResumeEachKeeps(s: Ledger, panes: seq<Pane>)
    requires InvBut(s, panes)
    ensures Inv(ResumeEach(s, panes))
    decreases |panes|
  {
    hide InvBut, MaybeResume;
    if panes != [] {
      assert panes == [panes[0]] + panes[1..];
      ResumeKeeps(s, panes[0], panes[1..]);
      ResumeEachKeeps(MaybeResume(s, panes[0]), panes[1..]);
    }
  }

  /** Only bytes changed: flows stay as they are. */
  lemma OutstandingOnly(s: Ledger, t: Ledger)
    requires FlowsOk(s) && t == s.(outstanding := t.outstanding)
    ensures FlowsOk(t)
  {
    forall q ensures FlowOk(t, q) { assert FlowOk(s, q); }
    forall id ensures ContinueOk(t, id) { assert ContinueOk(s, id); }
    forall id, other ensures Single(t, id, other) { assert Single(s, id, other); }
  }

  lemma RegisterKeeps(s: Ledger, p: Peer)
    requires Inv(s)
    ensures Inv(Register(s, p))
  {
    hide FlowsOk, Total;
    var t := Register(s, p);
    if p !in s.outstanding {
      OutstandingOnly(s, t);
      forall pane ensures NotStranded(t, pane) {
        assert NotStranded(s, pane);
        TotalAdd(s.outstanding, p, pane);
      }
    }
  }

  /** After every effective account the pane is believed paused or its total is below the high watermark. */
  lemma AccountKeeps(s: Ledger, p: Peer, pane: Pane, bytes: int)
    requires Inv(s)
    ensures var t := Account(s, p, pane, bytes);
            && Inv(t)
            && (p in s.outstanding && bytes > 0 ==>
                  && Total(t.outstanding, pane) == Total(s.outstanding, pane) + bytes
                  && (pane in t.paused || Total(t.outstanding, pane) < t.high))
  {
    hide FlowsOk, Total;
    if p in s.outstanding && bytes > 0 {
      var slot := Accounted(s.outstanding[p], pane, bytes);
      var u := s.(outstanding := s.outstanding[p := slot]);
      OutstandingOnly(s, u);
      forall q ensures NotStranded(u, q) {
        assert NotStranded(s, q);
        TotalChange(s.outstanding, p, slot, q);
      }
      TotalChange(s.outstanding, p, slot, pane);
      PauseKeeps(u, pane);
    }
  }

  /** `tally` after an ack of `bytes`. */
  function Less(tally: nat, bytes: int): nat {
    if bytes <= 0 then tally else if tally <= bytes then 0 else tally - bytes
  }

  /** An ack takes at most the peer's own tally of that pane, and touches no other. */
  lemma AckKeeps(s: Ledger, p: Peer, pane: Pane, bytes: int)
    requires Inv(s)
    ensures var t := Ack(s, p, pane, bytes);
            && Inv(t)
            && (forall q, r | !(q == p && r == pane) :: Tally(t.outstanding, q, r) == Tally(s.outstanding, q, r))
            && (p in s.outstanding ==> Tally(t.outstanding, p, pane) == Less(Tally(s.outstanding, p, pane), bytes))
  {
    hide FlowsOk, Total;
    if p in s.outstanding && bytes > 0 {
      var slot := Acked(s.outstanding[p], pane, bytes);
      var u := s.(outstanding := s.outstanding[p := slot]);
      OutstandingOnly(s, u);
      forall q ensures q in [pane] || NotStranded(u, q) {
        assert NotStranded(s, q);
        TotalChange(s.outstanding, p, slot, q);
      }
      assert [pane] + [] == [pane];
      ResumeKeeps(u, pane, []);
    }
  }

  lemma ClearKeeps(s: Ledger, p: Peer, order: seq<Pane>)
    requires Inv(s) && p in s.outstanding && Lists(order, s.outstanding[p].Keys)
    ensures Inv(ClearPeer(s, p, order))
  {
    hide FlowsOk, Total, ResumeEach;
    var u := s.(outstanding := s.outstanding[p := map[]]);
    OutstandingOnly(s, u);
    forall q ensures q in order || NotStranded(u, q) {
      assert NotStranded(s, q);
      TotalChange(s.outstanding, p, map[], q);
    }
    ResumeEachKeeps(u, order);
  }

  lemma ReleaseKeeps(s: Ledger, p: Peer, order: seq<Pane>)
    requires Inv(s) && p in s.outstanding && Lists(order, s.outstanding[p].Keys)
    ensures Inv(ReleasePeer(s, p, order))
  {
    hide FlowsOk, Total, ResumeEach;
    var u := s.(outstanding := s.outstanding - {p});
    OutstandingOnly(s, u);
    forall q ensures q in order || NotStranded(u, q) {
      assert NotStranded(s, q);
      TotalRemove(s.outstanding, p, q);
    }
    ResumeEachKeeps(u, order);
  }

  /** An outcome touches its own episode only: every other flow, every tally and what was sent stay as they are. */
  lemma SettleKeeps(s: Ledger, id: nat, outcome: Outcome)
    requires Inv(s) && id in s.continues
    ensures var t := Settle(s, id, outcome);
            && Inv(t)
            && t.outstanding == s.outstanding && t.sent == s.sent && t.continues == s.continues - {id}
            && (forall q | q in s.paused && Continue(q, s.paused[q].episode) != s.continues[id] ::
                  q in t.paused && t.paused[q] == s.paused[q] && (q in t.reported <==> q in s.reported))
            && t.paused.Keys <= s.paused.Keys
  {
    hide Total;
    var t := Settle(s, id, outcome);
    assert ContinueOk(s, id);
    forall q ensures FlowOk(t, q) {
      assert FlowOk(s, q);
      if q in t.paused && t.paused[q].resuming {
        var other :| other in s.continues && s.continues[other] == Continue(q, s.paused[q].episode);
        assert Single(s, id, other);
        assert other in t.continues;
      }
    }
    forall other ensures ContinueOk(t, other) { assert ContinueOk(s, other) && Single(s, id, other); }
    forall a, b ensures Single(t, a, b) { assert Single(s, a, b); }
    forall q ensures NotStranded(t, q) { assert NotStranded(s, q); }
  }

  lemma FlushKeeps(s: Ledger, sends: seq<Pane>)
    requires Inv(s)
    ensures Inv(Flush(s, sends))
  {
    var t := Flush(s, sends);
    forall q ensures FlowOk(t, q) { assert FlowOk(s, q); }
    forall id ensures ContinueOk(t, id) { assert ContinueOk(s, id); }
    forall id, other ensures Single(t, id, other) { assert Single(s, id, other); }
  }

  lemma StepKeeps(s: Ledger, step: Step)
    requires Inv(s) && Allowed(s, step)
    ensures Inv(Take(s, step))
  {
    hide Inv, Account, Ack, ResumeEach, Settle, Flush, Register, Lists;
    match step
    case DoRegister(p) => RegisterKeeps(s, p);
    case DoAccount(p, pane, bytes) => AccountKeeps(s, p, pane, bytes);
    case DoAck(p, pane, bytes) => AckKeeps(s, p, pane, bytes);
    case DoClear(p, order) => if p in s.outstanding { ClearKeeps(s, p, order); }
    case DoRelease(p, order) => if p in s.outstanding { ReleaseKeeps(s, p, order); }
    case DoSettle(id, outcome) => SettleKeeps(s, id, outcome);
    case DoFlush(sends) => FlushKeeps(s, sends);
  }

  ghost predicate CanRun(s: Ledger, steps: seq<Step>)
    decreases |steps|
  {
    steps == [] || (Allowed(s, steps[0]) && CanRun(Take(s, steps[0]), steps[1..]))
  }

  ghost function Run(s: Ledger, steps: seq<Step>): Ledger
    requires CanRun(s, steps)
    decreases |steps|
  {
    if steps == [] then s else Run(Take(s, steps[0]), steps[1..])
  }

  lemma {:induction false} RunKeeps(s: Ledger, steps: seq<Step>)
    requires Inv(s) && CanRun(s, steps)
    ensures Inv(Run(s, steps))
    decreases |steps|
  {
    hide Inv, Take, Allowed;
    if steps != [] {
      StepKeeps(s, steps[0]);
      RunKeeps(Take(s, steps[0]), steps[1..]);
    }
  }

  /**
    Over every run with valid watermarks: a paused pane that has drained to the low watermark has a Continue
    in flight or a reported failure of its last one; a pane is marked as resuming exactly when a Continue of
    its episode is in flight; and until the teardown no pane has two Continues in flight.
   */
  lemma NeverStranded(high: nat, low: nat, steps: seq<Step>, pane: Pane)
    requires ValidWatermarks(high, low) && CanRun(Init(high, low), steps)
    ensures var s := Run(Init(high, low), steps);
            && NotStranded(s, pane)
            && (pane in s.paused ==> (s.paused[pane].resuming <==>
                  exists id :: id in s.continues && s.continues[id] == Continue(pane, s.paused[pane].episode)))
            && (!s.flushed ==> forall a, b | a in s.continues && b in s.continues && s.continues[a].pane == s.continues[b].pane :: a == b)
  {
    hide Run, CanRun, Total;
    assert Inv(Init(high, low));
    RunKeeps(Init(high, low), steps);
    var s := Run(Init(high, low), steps);
    assert FlowOk(s, pane);
    forall id | id in s.continues ensures ContinueOk(s, id) {}
    if !s.flushed {
      forall a, b | a in s.continues && b in s.continues && s.continues[a].pane == s.continues[b].pane ensures a == b {
        assert Single(s, a, b) && ContinueOk(s, a) && ContinueOk(s, b);
      }
    }
  }

  // ---------------------------------------------------------------------------------------
  // Pauses on the wire
  // ---------------------------------------------------------------------------------------

  /** Was the last command sent for the pane a Pause? */
  predicate LastIsPause(sent: seq<Sent>, pane: Pane) {
    sent != [] &&
    var last := sent[|sent| - 1];
    if last.pane == pane then last.SentPause? else LastIsPause(sent[..|sent| - 1], pane)
  }

  /** Between two Pauses of a pane there is always a Continue of it. */
  predicate PausesApart(sent: seq<Sent>) {
    sent == [] ||
    (PausesApart(sent[..|sent| - 1]) && (sent[|sent| - 1].SentPause? ==> !LastIsPause(sent[..|sent| - 1], sent[|sent| - 1].pane)))
  }

  lemma SentPlus(sent: seq<Sent>, x: Sent, pane: Pane)
    ensures LastIsPause(sent + [x], pane) == if x.pane == pane then x.SentPause? else LastIsPause(sent, pane)
    ensures PausesApart(sent + [x]) <==> PausesApart(sent) && (x.SentPause? ==> !LastIsPause(sent, x.pane))
  {
    assert (sent + [x])[..|sent|] == sent;
  }

  /** A pane that is not paused, or is being resumed, was not sent a Pause last. */
  predicate PaneSent(s: Ledger, pane: Pane) {
    (pane in s.paused ==> s.paused[pane].resuming) ==> !LastIsPause(s.sent, pane)
  }

  ghost predicate SentOk(s: Ledger) {
    PausesApart(s.sent) && forall pane :: PaneSent(s, pane)
  }

  lemma PauseSent(s: Ledger, pane: Pane)
    requires SentOk(s)
    ensures SentOk(MaybePause(s, pane))
  {
    hide LastIsPause, PausesApart, Total;
    var t := MaybePause(s, pane);
    if t != s {
      assert PaneSent(s, pane);
      SentPlus(s.sent, SentPause(pane), pane);
      forall q ensures PaneSent(t, q) {
        assert PaneSent(s, q);
        SentPlus(s.sent, SentPause(pane), q);
      }
    }
  }

  lemma ResumeSent(s: Ledger, pane: Pane)
    requires SentOk(s)
    ensures SentOk(MaybeResume(s, pane))
  {
    hide LastIsPause, PausesApart, Total;
    var t := MaybeResume(s, pane);
    if t != s {
      SentPlus(s.sent, SentContinue(pane), pane);
      forall q ensures PaneSent(t, q) {
        assert PaneSent(s, q);
        SentPlus(s.sent, SentContinue(pane), q);
      }
    }
  }

  lemma {:induction false} ResumeEachSent(s: Ledger, panes: seq<Pane>)
    requires SentOk(s)
    ensures SentOk(ResumeEach(s, panes))
    decreases |panes|
  {
    hide SentOk, MaybeResume;
    if panes != [] {
      ResumeSent(s, panes[0]);
      ResumeEachSent(MaybeResume(s, panes[0]), panes[1..]);
    }
  }

  lemma SameSent(s: Ledger, t: Ledger)
    requires SentOk(s) && t.sent == s.sent && t.paused == s.paused
    ensures SentOk(t)
  {
    hide LastIsPause, PausesApart;
    forall q ensures PaneSent(t, q) { assert PaneSent(s, q); }
  }

  lemma SettleSent(s: Ledger, id: nat, outcome: Outcome)
    requires Inv(s) && SentOk(s) && id in s.continues
    ensures SentOk(Settle(s, id, outcome))
  {
    hide LastIsPause, PausesApart, Total;
    var t := Settle(s, id, outcome);
    assert ContinueOk(s, id);
    forall q ensures PaneSent(t, q) { assert PaneSent(s, q); }
  }

  function Continues(sends: seq<Pane>): seq<Sent> {
    seq(|sends|, i requires 0 <= i < |sends| => SentContinue(sends[i]))
  }

  lemma {:induction false} ContinuesSent(sent: seq<Sent>, sends: seq<Pane>, pane: Pane)
    requires PausesApart(sent)
    ensures PausesApart(sent + Continues(sends))
    ensures LastIsPause(sent + Continues(sends), pane) == (LastIsPause(sent, pane) && pane !in sends)
    decreases |sends|
  {
    hide LastIsPause, PausesApart;
    if sends == [] {
      assert sent + Continues(sends) == sent;
    } else {
      var n := |sends| - 1;
      ContinuesSent(sent, sends[..n], pane);
      SentPlus(sent + Continues(sends[..n]), SentContinue(sends[n]), pane);
      assert sent + Continues(sends) == (sent + Continues(sends[..n])) + [SentContinue(sends[n])];
      assert sends == sends[..n] + [sends[n]];
    }
  }

  lemma FlushSent(s: Ledger, sends: seq<Pane>)
    requires SentOk(s) && Lists(sends, set pane | pane in s.paused && !s.paused[pane].resuming)
    ensures SentOk(Flush(s, sends))
  {
    hide LastIsPause, PausesApart;
    var t := Flush(s, sends);
    assert t.sent == s.sent + Continues(sends);
    ContinuesSent(s.sent, sends, 0);
    forall q ensures PaneSent(t, q) {
      assert PaneSent(s, q);
      ContinuesSent(s.sent, sends, q);
    }
  }

  lemma StepSent(s: Ledger, step: Step)
    requires Inv(s) && SentOk(s) && Allowed(s, step)
    ensures SentOk(Take(s, step))
  {
    hide Inv, SentOk, MaybePause, MaybeResume, ResumeEach, Settle, Flush, Lists, Total;
    match step
    case DoRegister(p) => SameSent(s, Register(s, p));
    case DoAccount(p, pane, bytes) =>
      if p in s.outstanding && bytes > 0 {
        var u := s.(outstanding := s.outstanding[p := Accounted(s.outstanding[p], pane, bytes)]);
        SameSent(s, u);
        PauseSent(u, pane);
      }
    case DoAck(p, pane, bytes) =>
      if p in s.outstanding && bytes > 0 {
        var u := s.(outstanding := s.outstanding[p := Acked(s.outstanding[p], pane, bytes)]);
        SameSent(s, u);
        ResumeSent(u, pane);
      }
    case DoClear(p, order) =>
      if p in s.outstanding {
        var u := s.(outstanding := s.outstanding[p := map[]]);
        SameSent(s, u);
        ResumeEachSent(u, order);
      }
    case DoRelease(p, order) =>
      if p in s.outstanding {
        var u := s.(outstanding := s.outstanding - {p});
        SameSent(s, u);
        ResumeEachSent(u, order);
      }
    case DoSettle(id, outcome) => SettleSent(s, id, outcome);
    case DoFlush(sends) => FlushSent(s, sends);
  }

  lemma {:induction false} RunSent(s: Ledger, steps: seq<Step>)
    requires Inv(s) && SentOk(s) && CanRun(s, steps)
    ensures SentOk(Run(s, steps))
    decreases |steps|
  {
    hide Inv, SentOk, Take, Allowed;
    if steps != [] {
      StepKeeps(s, steps[0]);
      StepSent(s, steps[0]);
      RunSent(Take(s, steps[0]), steps[1..]);
    }
  }

  /** Over every run, no pane is sent a second Pause without a Continue in between. */
  lemma NoPauseWhilePaused(high: nat, low: nat, steps: seq<Step>)
    requires ValidWatermarks(high, low) && CanRun(Init(high, low), steps)
    ensures PausesApart(Run(Init(high, low), steps).sent)
  {
    hide Run, CanRun;
    assert Inv(Init(high, low));
    RunSent(Init(high, low), steps);
  }

  // ---------------------------------------------------------------------------------------
  // Bytes accounted while a Continue is in flight
  // ---------------------------------------------------------------------------------------

  /** Every pane is believed paused or below the high watermark. */
  ghost predicate Bounded(s: Ledger) {
    forall pane :: BoundedAt(s, pane)
  }

  ghost predicate BoundedAt(s: Ledger, pane: Pane) {
    pane in s.paused || Total(s.outstanding, pane) < s.high
  }

  /** Does the step take the pane's entry out: an outcome of its own Continue other than a refusal, or the teardown? */
  predicate Drops(s: Ledger, step: Step, pane: Pane) {
    pane in s.paused && match step
      case DoSettle(id, outcome) => id in s.continues && s.continues[id] == Continue(pane, s.paused[pane].episode) && !outcome.Refused?
      case DoFlush(_) => true
      case _ => false
  }

  ghost predicate DropLow(s: Ledger, step: Step, pane: Pane) {
    Drops(s, step, pane) ==> Total(s.outstanding, pane) < s.high
  }

  /** Every pane whose entry the step takes out is below the high watermark. */
  ghost predicate DropsLow(s: Ledger, step: Step) {
    forall pane :: DropLow(s, step, pane)
  }

  /** Nobody's total grows, and no entry goes: the bound stays. */
  lemma LessKeepsBound(s: Ledger, t: Ledger)
    requires Bounded(s) && t.high == s.high && s.paused.Keys <= t.paused.Keys
    requires forall q :: LessAt(s, t, q)
    ensures Bounded(t)
  {
    hide Total;
    forall q ensures BoundedAt(t, q) { assert BoundedAt(s, q) && LessAt(s, t, q); }
  }

  ghost predicate LessAt(s: Ledger, t: Ledger, pane: Pane) {
    Total(t.outstanding, pane) <= Total(s.outstanding, pane)
  }

  /** Resume decisions change neither tallies nor which panes have an entry. */
  lemma {:induction false} ResumeEachSame(s: Ledger, panes: seq<Pane>)
    ensures var t := ResumeEach(s, panes);
            t.outstanding == s.outstanding && t.paused.Keys == s.paused.Keys && t.high == s.high && t.low == s.low && t.flushed == s.flushed
    decreases |panes|
  {
    hide Total;
    if panes != [] {
      ResumeEachSame(MaybeResume(s, panes[0]), panes[1..]);
      assert MaybeResume(s, panes[0]).paused.Keys == s.paused.Keys;
    }
  }

  /** A release or clear takes the peer's tallies away, an ack some of one; `t` is the ledger before the resume decisions. */
  lemma TalliesLess(s: Ledger, step: Step, q: Pane)
    requires step.DoAck? || step.DoClear? || step.DoRelease?
    requires Allowed(s, step)
    ensures LessAt(s, Take(s, step), q)
  {
    hide Total, ResumeEach, MaybeResume;
    if step.p in s.outstanding {
      match step
      case DoAck(p, pane, bytes) =>
        if bytes > 0 {
          var u := s.(outstanding := s.outstanding[p := Acked(s.outstanding[p], pane, bytes)]);
          TotalChange(s.outstanding, p, Acked(s.outstanding[p], pane, bytes), q);
          ResumeSame(u, pane);
        }
      case DoClear(p, order) =>
        TotalChange(s.outstanding, p, map[], q);
        ResumeEachSame(s.(outstanding := s.outstanding[p := map[]]), order);
      case DoRelease(p, order) =>
        TotalRemove(s.outstanding, p, q);
        ResumeEachSame(s.(outstanding := s.outstanding - {p}), order);
    }
  }

  lemma ResumeSame(s: Ledger, pane: Pane)
    ensures var t := MaybeResume(s, pane);
            t.outstanding == s.outstanding && t.paused.Keys == s.paused.Keys && t.high == s.high && t.low == s.low && t.flushed == s.flushed
  {
    hide Total;
  }

  lemma AccountBounded(s: Ledger, p: Peer, pane: Pane, bytes: int)
    requires Inv(s) && Bounded(s)
    ensures Bounded(Account(s, p, pane, bytes))
  {
    hide Total, Inv;
    var t := Account(s, p, pane, bytes);
    if p in s.outstanding && bytes > 0 {
      AccountKeeps(s, p, pane, bytes);
      forall q ensures BoundedAt(t, q) {
        assert BoundedAt(s, q);
        TotalChange(s.outstanding, p, Accounted(s.outstanding[p], pane, bytes), q);
      }
    }
  }

  /** Every step keeps the bound exactly when each entry it takes out is of a pane below the high watermark. */
  lemma StepBoundedIff(s: Ledger, step: Step)
    requires Inv(s) && Bounded(s) && Allowed(s, step)
    ensures Bounded(Take(s, step)) <==> DropsLow(s, step)
  {
    hide Total, Inv, ResumeEach, MaybeResume, Account, Bounded, DropsLow;
    match step
    case DoSettle(id, outcome) => DropBoundedIff(s, step);
    case DoFlush(sends) => DropBoundedIff(s, step);
    case DoAccount(p, pane, bytes) => NothingDropped(s, step); AccountBounded(s, p, pane, bytes);
    case DoRegister(p) =>
      NothingDropped(s, step);
      forall q ensures LessAt(s, Register(s, p), q) { if p !in s.outstanding { TotalAdd(s.outstanding, p, q); } }
      LessKeepsBound(s, Register(s, p));
    case _ =>
      NothingDropped(s, step);
      TalliesOnly(s, step);
      forall q ensures LessAt(s, Take(s, step), q) { TalliesLess(s, step, q); }
      LessKeepsBound(s, Take(s, step));
  }

  lemma NothingDropped(s: Ledger, step: Step)
    requires !step.DoSettle? && !step.DoFlush?
    ensures DropsLow(s, step)
  {
    hide Total;
  }

  lemma TalliesOnly(s: Ledger, step: Step)
    requires step.DoAck? || step.DoClear? || step.DoRelease?
    requires Allowed(s, step)
    ensures var t := Take(s, step); t.paused.Keys == s.paused.Keys && t.high == s.high && t.low == s.low && t.flushed == s.flushed
  {
    hide Total, ResumeEach, MaybeResume;
    if step.p in s.outstanding {
      match step
      case DoAck(p, pane, bytes) =>
        if bytes > 0 { ResumeSame(s.(outstanding := s.outstanding[p := Acked(s.outstanding[p], pane, bytes)]), pane); }
      case DoClear(p, order) => ResumeEachSame(s.(outstanding := s.outstanding[p := map[]]), order);
      case DoRelease(p, order) => ResumeEachSame(s.(outstanding := s.outstanding - {p}), order);
    }
  }

  lemma DropBoundedIff(s: Ledger, step: Step)
    requires Bounded(s) && Allowed(s, step) && (step.DoSettle? || step.DoFlush?)
    ensures Bounded(Take(s, step)) <==> DropsLow(s, step)
  {
    hide Total;
    var t := Take(s, step);
    forall q ensures BoundedAt(t, q) <==> DropLow(s, step, q) {
      assert BoundedAt(s, q);
    }
  }

  /**
    Until the teardown, an outcome of a Continue keeps the bound exactly when it is a refusal or the total, which
    was at most the low watermark when the Continue was sent, has not come back to the high one.
   */
  lemma SettleKeepsBoundIff(s: Ledger, id: nat, outcome: Outcome)
    requires Inv(s) && Bounded(s) && id in s.continues && !s.flushed
    ensures Bounded(Settle(s, id, outcome)) <==> outcome.Refused? || Total(s.outstanding, s.continues[id].pane) < s.high
  {
    hide Total, Bounded;
    var step := DoSettle(id, outcome);
    var pane := s.continues[id].pane;
    assert ContinueOk(s, id);
    StepBoundedIff(s, step);
    assert Drops(s, step, pane) <==> !outcome.Refused?;
    assert forall q :: Drops(s, step, q) ==> q == pane;
    assert DropsLow(s, step) <==> DropLow(s, step, pane);
  }

  /** Bounded now and after every step. */
  ghost predicate AlwaysBounded(s: Ledger, steps: seq<Step>)
    requires CanRun(s, steps)
    decreases |steps|
  {
    Bounded(s) && (steps == [] || AlwaysBounded(Take(s, steps[0]), steps[1..]))
  }

  ghost predicate AllDropsLow(s: Ledger, steps: seq<Step>)
    requires CanRun(s, steps)
    decreases |steps|
  {
    steps == [] || (DropsLow(s, steps[0]) && AllDropsLow(Take(s, steps[0]), steps[1..]))
  }

  lemma {:induction false} RunBoundedIff(s: Ledger, steps: seq<Step>)
    requires Inv(s) && Bounded(s) && CanRun(s, steps)
    ensures AlwaysBounded(s, steps) <==> AllDropsLow(s, steps)
    decreases |steps|
  {
    hide Inv, Take, Allowed, Bounded, DropsLow;
    if steps != [] {
      StepKeeps(s, steps[0]);
      StepBoundedIff(s, steps[0]);
      var t := Take(s, steps[0]);
      if Bounded(t) {
        RunBoundedIff(t, steps[1..]);
      }
    }
  }

  lemma InitBounded(high: nat, low: nat)
    requires ValidWatermarks(high, low)
    ensures Inv(Init(high, low)) && Bounded(Init(high, low))
  {
    forall pane ensures BoundedAt(Init(high, low), pane) {}
  }

  /**
    Over every run: at every point each pane is believed paused or below the high watermark, exactly when no
    entry is ever taken out while its pane's total is at the high watermark.
   */
  lemma BoundedThroughoutIff(high: nat, low: nat, steps: seq<Step>)
    requires ValidWatermarks(high, low) && CanRun(Init(high, low), steps)
    ensures AlwaysBounded(Init(high, low), steps) <==> AllDropsLow(Init(high, low), steps)
  {
    hide Inv, Bounded;
    InitBounded(high, low);
    RunBoundedIff(Init(high, low), steps);
  }

  /** The step accounts nothing to a pane whose Continue is in flight, and is not the teardown. */
  ghost predicate SparesResuming(s: Ledger, step: Step) {
    && !step.DoFlush?
    && (step.DoAccount? && step.p in s.outstanding && step.bytes > 0 ==> forall id <- s.continues :: s.continues[id].pane != step.pane)
  }

  ghost predicate SparesAll(s: Ledger, steps: seq<Step>)
    requires CanRun(s, steps)
    decreases |steps|
  {
    steps == [] || (SparesResuming(s, steps[0]) && SparesAll(Take(s, steps[0]), steps[1..]))
  }

  ghost predicate DrainedAt(s: Ledger, pane: Pane) {
    pane in s.paused && s.paused[pane].resuming ==> Total(s.outstanding, pane) <= s.low
  }

  /** A pane whose Continue is in flight is still drained. */
  ghost predicate DrainedWhileResuming(s: Ledger) {
    !s.flushed && forall pane :: DrainedAt(s, pane)
  }

  lemma ResumeDrained(s: Ledger, pane: Pane)
    requires DrainedWhileResuming(s)
    ensures DrainedWhileResuming(MaybeResume(s, pane))
  {
    hide Total;
    var t := MaybeResume(s, pane);
    forall q ensures DrainedAt(t, q) { assert DrainedAt(s, q); }
  }

  lemma {:induction false} ResumeEachDrained(s: Ledger, panes: seq<Pane>)
    requires DrainedWhileResuming(s)
    ensures DrainedWhileResuming(ResumeEach(s, panes))
    decreases |panes|
  {
    hide DrainedWhileResuming, MaybeResume;
    if panes != [] {
      ResumeDrained(s, panes[0]);
      ResumeEachDrained(MaybeResume(s, panes[0]), panes[1..]);
    }
  }

  lemma TalliesDrained(s: Ledger, t: Ledger)
    requires DrainedWhileResuming(s) && t == s.(outstanding := t.outstanding) && forall q :: LessAt(s, t, q)
    ensures DrainedWhileResuming(t)
  {
    hide Total;
    forall q ensures DrainedAt(t, q) { assert DrainedAt(s, q) && LessAt(s, t, q); }
  }

  lemma AccountDrained(s: Ledger, p: Peer, pane: Pane, bytes: int)
    requires Inv(s) && DrainedWhileResuming(s) && SparesResuming(s, DoAccount(p, pane, bytes))
    ensures DrainedWhileResuming(Account(s, p, pane, bytes))
  {
    hide Total;
    var t := Account(s, p, pane, bytes);
    if p in s.outstanding && bytes > 0 {
      forall q ensures DrainedAt(t, q) {
        assert DrainedAt(s, q) && FlowOk(s, q);
        TotalChange(s.outstanding, p, Accounted(s.outstanding[p], pane, bytes), q);
      }
    }
  }

  lemma SettleDrained(s: Ledger, id: nat, outcome: Outcome)
    requires DrainedWhileResuming(s) && id in s.continues
    ensures DrainedWhileResuming(Settle(s, id, outcome))
  {
    hide Total;
    var t := Settle(s, id, outcome);
    forall q ensures DrainedAt(t, q) { assert DrainedAt(s, q); }
  }

  lemma StepDrained(s: Ledger, step: Step)
    requires Inv(s) && DrainedWhileResuming(s) && Allowed(s, step) && SparesResuming(s, step)
    ensures DrainedWhileResuming(Take(s, step))
  {
    hide Total, Inv, ResumeEach, MaybeResume, Settle, Account, DrainedWhileResuming, SparesResuming;
    assert !step.DoFlush? by { SparesTeardown(s, step); }
    match step
    case DoRegister(p) =>
      forall q ensures LessAt(s, Register(s, p), q) { if p !in s.outstanding { TotalAdd(s.outstanding, p, q); } }
      TalliesDrained(s, Register(s, p));
    case DoAccount(p, pane, bytes) => AccountDrained(s, p, pane, bytes);
    case DoSettle(id, outcome) => SettleDrained(s, id, outcome);
    case DoAck(p, pane, bytes) =>
      if p in s.outstanding && bytes > 0 {
        var u := s.(outstanding := s.outstanding[p := Acked(s.outstanding[p], pane, bytes)]);
        ResumeSame(u, pane);
        forall q ensures LessAt(s, u, q) { TalliesLess(s, step, q); }
        TalliesDrained(s, u);
        ResumeDrained(u, pane);
      }
    case DoClear(p, order) =>
      if p in s.outstanding {
        var u := s.(outstanding := s.outstanding[p := map[]]);
        ResumeEachSame(u, order);
        forall q ensures LessAt(s, u, q) { TalliesLess(s, step, q); }
        TalliesDrained(s, u);
        ResumeEachDrained(u, order);
      }
    case DoRelease(p, order) =>
      if p in s.outstanding {
        var u := s.(outstanding := s.outstanding - {p});
        ResumeEachSame(u, order);
        forall q ensures LessAt(s, u, q) { TalliesLess(s, step, q); }
        TalliesDrained(s, u);
        ResumeEachDrained(u, order);
      }
  }

  lemma SparesTeardown(s: Ledger, step: Step)
    requires SparesResuming(s, step)
    ensures !step.DoFlush?
  {
  }

  lemma DrainedDropsLow(s: Ledger, step: Step)
    requires Inv(s) && DrainedWhileResuming(s) && Allowed(s, step) && !step.DoFlush?
    ensures DropsLow(s, step)
  {
    hide Total;
    forall pane ensures DropLow(s, step, pane) {
      assert DrainedAt(s, pane);
      if step.DoSettle? { assert ContinueOk(s, step.id); }
    }
  }

  lemma {:induction false} SparingDropsLow(s: Ledger, steps: seq<Step>)
    requires Inv(s) && DrainedWhileResuming(s) && CanRun(s, steps) && SparesAll(s, steps)
    ensures AllDropsLow(s, steps)
    decreases |steps|
  {
    hide Inv, Take, Allowed, DrainedWhileResuming, DropsLow, SparesResuming;
    if steps != [] {
      SparesTeardown(s, steps[0]);
      DrainedDropsLow(s, steps[0]);
      StepKeeps(s, steps[0]);
      StepDrained(s, steps[0]);
      SparingDropsLow(Take(s, steps[0]), steps[1..]);
    }
  }

  /**
    Over every run before the teardown in which nothing is accounted to a pane while its own Continue is in flight,
    every pane is at every point believed paused or below the high watermark.
   */
  lemma BoundedWhenResumesAreSpared(high: nat, low: nat, steps: seq<Step>)
    requires ValidWatermarks(high, low) && CanRun(Init(high, low), steps) && SparesAll(Init(high, low), steps)
    ensures AlwaysBounded(Init(high, low), steps)
  {
    hide Inv, Bounded, CanRun, AlwaysBounded, SparesAll, AllDropsLow;
    InitBounded(high, low);
    assert DrainedWhileResuming(Init(high, low));
    SparingDropsLow(Init(high, low), steps);
    BoundedThroughoutIff(high, low, steps);
  }

  /** A peer's pane fills, drains, and fills again before tmux answers the Continue sent in between. */
  function RefillSteps(outcome: Outcome): seq<Step> {
    [DoRegister(0)] + FullAgain() + [DoSettle(1, outcome)]
  }

  /** Filled, drained, and filled again. */
  function FullAgain(): seq<Step> {
    [DoAccount(0, 0, 10), DoAck(0, 0, 10), DoAccount(0, 0, 10)]
  }

  lemma OneTally(o: map<Peer, map<Pane, nat>>, pane: Pane)
    requires o.Keys == {0}
    ensures Total(o, pane) == Tally(o, 0, pane)
  {
    SumPick(o, {0}, 0, pane);
  }

  /** The ledger with one peer and one pane, after the account of `bytes`. */
  lemma AccountOne(s: Ledger, had: nat, bytes: nat)
    requires s.outstanding.Keys == {0} && bytes > 0 && Tally(s.outstanding, 0, 0) == had
    ensures var t := Account(s, 0, 0, bytes);
            && t.outstanding.Keys == {0} && Total(t.outstanding, 0) == Tally(t.outstanding, 0, 0) == had + bytes
            && (0 in s.paused ==> t == s.(outstanding := t.outstanding))
            && (0 !in s.paused && had + bytes >= s.high ==>
                  t == s.(outstanding := t.outstanding, paused := s.paused[0 := Flow(false, s.issued)], issued := s.issued + 1,
                          reported := s.reported - {0}, sent := s.sent + [SentPause(0)]))
  {
    hide Total;
    OneTally(s.outstanding[0 := Accounted(s.outstanding[0], 0, bytes)], 0);
  }

  lemma AckAllOne(s: Ledger, had: nat)
    requires s.outstanding.Keys == {0} && had > 0 && Tally(s.outstanding, 0, 0) == had && 0 in s.paused && !s.paused[0].resuming
    ensures var t := Ack(s, 0, 0, had);
            && t.outstanding.Keys == {0} && Tally(t.outstanding, 0, 0) == 0
            && t.paused == s.paused[0 := s.paused[0].(resuming := true)]
            && t.continues == s.continues[s.issued := Continue(0, s.paused[0].episode)]
            && t.high == s.high
  {
    hide Total;
    OneTally(s.outstanding[0 := Acked(s.outstanding[0], 0, had)], 0);
  }

  /** The bound fails: whichever way the Continue's outcome takes the entry out, the pane runs on at the high watermark. */
  lemma RefillLeavesUnbounded(outcome: Outcome)
    requires !outcome.Refused?
    ensures var s := Init(10, 2);
            && CanRun(s, RefillSteps(outcome))
            && var r := Run(s, RefillSteps(outcome));
               !Bounded(r) && 0 !in r.paused && Total(r.outstanding, 0) == 10 == r.high && r.continues == map[]
  {
    hide Total, Bounded, CanRun, Run, Account, Ack, Tally, Lists, Register, Settle;
    var a := Register(Init(10, 2), 0);
    var d := Refilled(a);
    RefillSettles(d, outcome);
    var r := Settle(d, 1, outcome);
    var last := [DoSettle(1, outcome)];
    EmptyRun(r);
    OneStep(d, DoSettle(1, outcome), []);
    assert [DoSettle(1, outcome)] + [] == last;
    RefillRuns(a, last);
    OneStep(Init(10, 2), DoRegister(0), FullAgain() + last);
    assert [DoRegister(0)] + (FullAgain() + last) == RefillSteps(outcome);
  }

  lemma EmptyRun(s: Ledger)
    ensures CanRun(s, []) && Run(s, []) == s
  {
  }

  ghost function Refilled(a: Ledger): Ledger {
    Account(Ack(Account(a, 0, 0, 10), 0, 0, 10), 0, 0, 10)
  }

  lemma RefillRuns(a: Ledger, rest: seq<Step>)
    requires CanRun(Refilled(a), rest)
    ensures CanRun(a, FullAgain() + rest) && Run(a, FullAgain() + rest) == Run(Refilled(a), rest)
  {
    hide CanRun, Run, Account, Ack;
    var b := Account(a, 0, 0, 10);
    var c := Ack(b, 0, 0, 10);
    OneStep(c, DoAccount(0, 0, 10), rest);
    OneStep(b, DoAck(0, 0, 10), [DoAccount(0, 0, 10)] + rest);
    OneStep(a, DoAccount(0, 0, 10), [DoAck(0, 0, 10)] + ([DoAccount(0, 0, 10)] + rest));
    assert [DoAccount(0, 0, 10)] + ([DoAck(0, 0, 10)] + ([DoAccount(0, 0, 10)] + rest)) == FullAgain() + rest;
  }

  /** After the refill the Continue is in flight; its outcome leaves the pane unpaused and full. */
  lemma RefillSettles(d: Ledger, outcome: Outcome)
    requires d == Refilled(Register(Init(10, 2), 0)) && !outcome.Refused?
    ensures 1 in d.continues
    ensures var r := Settle(d, 1, outcome);
            !Bounded(r) && 0 !in r.paused && Total(r.outstanding, 0) == 10 == r.high && r.continues == map[]
  {
    hide Total, Bounded, Account, Ack, Tally;
    var a := Register(Init(10, 2), 0);
    NoTally(a.outstanding);
    AccountOne(a, 0, 10);
    var b := Account(a, 0, 0, 10);
    AckAllOne(b, 10);
    AccountOne(Ack(b, 0, 0, 10), 0, 10);
    UnboundedAt(Settle(d, 1, outcome), 0);
  }

  lemma NoTally(o: map<Peer, map<Pane, nat>>)
    requires o == map[0 := map[]]
    ensures Tally(o, 0, 0) == 0
  {
  }

  lemma UnboundedAt(s: Ledger, pane: Pane)
    requires !BoundedAt(s, pane)
    ensures !Bounded(s)
  {
    hide Total;
  }

  lemma OneStep(s: Ledger, step: Step, rest: seq<Step>)
    requires Allowed(s, step) && CanRun(Take(s, step), rest)
    ensures CanRun(s, [step] + rest) && Run(s, [step] + rest) == Run(Take(s, step), rest)
  {
    hide Take, Allowed;
    assert ([step] + rest)[1..] == rest;
  }
}

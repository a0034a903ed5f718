/**
  What each step of the backpressure ledger does, pane by pane: what is owed, which panes are held paused, and
  exactly which Pauses and Continues are sent.
 */
module BackpressureSends {
  import opened BackpressureSpec

  // ---------------------------------------------------------------------------------------
  // What is owed
  // ---------------------------------------------------------------------------------------

  predicate Registered(s: Ledger, p: Peer) { p in s.outstanding }

  /** What the peer owes for the pane after the step, given what it owed. */
  function OwedAfter(s: Ledger, step: Step, q: Peer, pane: Pane): nat {
    var before := Tally(s.outstanding, q, pane);
    match step
    case DoAccount(p, x, bytes) => if p == q && x == pane && Registered(s, p) && bytes > 0 then before + bytes else before
    case DoAck(p, x, bytes) =>
      if p == q && x == pane && Registered(s, p) && bytes > 0 then (if bytes < before then before - bytes else 0) else before
    case DoClear(p, _) => if p == q then 0 else before
    case DoRelease(p, _) => if p == q then 0 else before
    case _ => before
  }

  lemma {:induction false} ResumesKeepOwed(s: Ledger, panes: seq<Pane>)
    ensures ResumeEach(s, panes).outstanding == s.outstanding
    decreases |panes|
  {
    hide Total;
    if panes != [] {
      ResumesKeepOwed(MaybeResume(s, panes[0]), panes[1..]);
    }
  }

  /** Bytes accounted are owed, bytes acknowledged are not, and never less than nothing; clearing and releasing forgive a peer. */
  lemma OwedExactly(s: Ledger, step: Step, q: Peer, pane: Pane)
    requires Allowed(s, step)
    ensures Tally(Take(s, step).outstanding, q, pane) == OwedAfter(s, step, q, pane)
    ensures q in Take(s, step).outstanding
            <==> (q in s.outstanding || step == DoRegister(q)) && !(step.DoRelease? && step.p == q)
  {
    hide Total, Lists, Account, Ack, Tally;
    match step
    case DoAccount(p, x, bytes) => AccountOwes(s, p, x, bytes, q, pane);
    case DoAck(p, x, bytes) => AckOwes(s, p, x, bytes, q, pane);
    case DoClear(p, order) => ClearOwes(s, p, order, q, pane);
    case DoRelease(p, order) => ClearOwes(s, p, order, q, pane);
    case DoRegister(p) => RegisterOwes(s, p, q, pane);
    case _ =>
  }

  lemma AccountOwes(s: Ledger, p: Peer, x: Pane, bytes: int, q: Peer, pane: Pane)
    ensures var r := Account(s, p, x, bytes);
            Tally(r.outstanding, q, pane) == OwedAfter(s, DoAccount(p, x, bytes), q, pane) && r.outstanding.Keys == s.outstanding.Keys
  {
    hide Total;
  }

  lemma AckOwes(s: Ledger, p: Peer, x: Pane, bytes: int, q: Peer, pane: Pane)
    ensures var r := Ack(s, p, x, bytes);
            Tally(r.outstanding, q, pane) == OwedAfter(s, DoAck(p, x, bytes), q, pane) && r.outstanding.Keys == s.outstanding.Keys
  {
    hide Total;
  }

  lemma ClearOwes(s: Ledger, p: Peer, order: seq<Pane>, q: Peer, pane: Pane)
    ensures var r := ClearPeer(s, p, order);
            Tally(r.outstanding, q, pane) == OwedAfter(s, DoClear(p, order), q, pane) && r.outstanding.Keys == s.outstanding.Keys
    ensures var r := ReleasePeer(s, p, order);
            Tally(r.outstanding, q, pane) == OwedAfter(s, DoRelease(p, order), q, pane) && r.outstanding.Keys == s.outstanding.Keys - {p}
  {
    hide Total, ResumeEach;
    if p in s.outstanding {
      ResumesKeepOwed(s.(outstanding := s.outstanding[p := map[]]), order);
      ResumesKeepOwed(s.(outstanding := s.outstanding - {p}), order);
    }
  }

  lemma RegisterOwes(s: Ledger, p: Peer, q: Peer, pane: Pane)
    ensures Tally(Register(s, p).outstanding, q, pane) == Tally(s.outstanding, q, pane)
  {
  }

  // ---------------------------------------------------------------------------------------
  // What is sent
  // ---------------------------------------------------------------------------------------

  /** The pane is paused, nothing of its episode is on the way to resume it, and it has drained to the low watermark. */
  ghost predicate DueToResume(s: Ledger, after: map<Peer, map<Pane, nat>>, pane: Pane) {
    pane in s.paused && !s.paused[pane].resuming && Total(after, pane) <= s.low
  }

  /** The pane is not paused and owes at least the high watermark. */
  ghost predicate DueToPause(s: Ledger, after: map<Peer, map<Pane, nat>>, pane: Pane) {
    pane !in s.paused && Total(after, pane) >= s.high
  }

  /** The panes a step may resume, in the order it decides. */
  function Decided(s: Ledger, step: Step): seq<Pane> {
    match step
    case DoAck(p, pane, bytes) => if p in s.outstanding && bytes > 0 then [pane] else []
    case DoClear(p, order) => if p in s.outstanding then order else []
    case DoRelease(p, order) => if p in s.outstanding then order else []
    case _ => []
  }

  /** A Continue for each of the panes that is due, in order. */
  ghost function Resumes(s: Ledger, after: map<Peer, map<Pane, nat>>, panes: seq<Pane>): seq<Sent>
    decreases |panes|
  {
    if panes == [] then []
    else (if DueToResume(s, after, panes[0]) then [SentContinue(panes[0])] else []) + Resumes(s, after, panes[1..])
  }

  ghost function Sends(s: Ledger, step: Step): seq<Sent>
    requires Allowed(s, step)
  {
    var after := Take(s, step).outstanding;
    match step
    case DoAccount(p, pane, bytes) =>
      if p in s.outstanding && bytes > 0 && DueToPause(s, after, pane) then [SentPause(pane)] else []
    case DoFlush(sends) => seq(|sends|, i requires 0 <= i < |sends| => SentContinue(sends[i]))
    case _ => Resumes(s, after, Decided(s, step))
  }

  ghost predicate NoRepeats(panes: seq<Pane>) {
    forall i, j | 0 <= i < j < |panes| :: panes[i] != panes[j]
  }

  /** Deciding one pane leaves the others' decisions as they were. */
  lemma {:induction false} OthersStillDue(s: Ledger, t: Ledger, panes: seq<Pane>)
    requires t.low == s.low && forall x <- panes :: x in t.paused <==> x in s.paused
    requires forall x <- panes | x in s.paused :: t.paused[x].resuming == s.paused[x].resuming
    ensures Resumes(t, s.outstanding, panes) == Resumes(s, s.outstanding, panes)
    decreases |panes|
  {
    hide Total;
    if panes != [] {
      assert panes[0] in panes && forall x <- panes[1..] :: x in panes;
      OthersStillDue(s, t, panes[1..]);
    }
  }

  lemma OneDecision(s: Ledger, pane: Pane)
    ensures var t := MaybeResume(s, pane);
            && t.outstanding == s.outstanding && t.low == s.low
            && t.sent == s.sent + (if DueToResume(s, s.outstanding, pane) then [SentContinue(pane)] else [])
            && forall x :: (x in t.paused <==> x in s.paused) && (x != pane && x in s.paused ==> t.paused[x] == s.paused[x])
  {
    hide Total;
  }

  lemma {:induction false} ResumesAreSent(s: Ledger, panes: seq<Pane>)
    requires NoRepeats(panes)
    ensures ResumeEach(s, panes).sent == s.sent + Resumes(s, s.outstanding, panes)
    decreases |panes|
  {
    hide MaybeResume, DueToResume;
    if panes == [] {
      assert s.sent + [] == s.sent;
    } else {
      var t, rest := MaybeResume(s, panes[0]), panes[1..];
      OneDecision(s, panes[0]);
      FirstIsApart(panes);
      ResumesAreSent(t, rest);
      OthersStillDue(s, t, rest);
      var first: seq<Sent> := if DueToResume(s, s.outstanding, panes[0]) then [SentContinue(panes[0])] else [];
      assert (s.sent + first) + Resumes(s, s.outstanding, rest) == s.sent + (first + Resumes(s, s.outstanding, rest));
    }
  }

  lemma FirstIsApart(panes: seq<Pane>)
    requires NoRepeats(panes) && panes != []
    ensures NoRepeats(panes[1..]) && forall x <- panes[1..] :: x != panes[0]
  {
  }

  /** `Due` looks only at the watermark, the paused panes and what is owed. */
  lemma {:induction false} DueLooksAt(s: Ledger, t: Ledger, after: map<Peer, map<Pane, nat>>, panes: seq<Pane>)
    requires t.low == s.low && t.paused == s.paused
    ensures Resumes(t, after, panes) == Resumes(s, after, panes)
    decreases |panes|
  {
    hide Total;
    if panes != [] {
      DueLooksAt(s, t, after, panes[1..]);
    }
  }

  lemma ClearingSends(s: Ledger, owed: map<Peer, map<Pane, nat>>, order: seq<Pane>)
    requires NoRepeats(order)
    ensures var r := ResumeEach(s.(outstanding := owed), order);
            r.outstanding == owed && r.sent == s.sent + Resumes(s, owed, order)
  {
    ResumesKeepOwed(s.(outstanding := owed), order);
    ResumesAreSent(s.(outstanding := owed), order);
    DueLooksAt(s, s.(outstanding := owed), owed, order);
  }

  /**
    Each step sends exactly this: a Pause when accounting takes an unpaused pane to the high watermark and not
    before; a Continue for each pane it lets drain to the low watermark, if it is paused and none is on its way; and,
    at the last, one for every paused pane without one.
   */
  lemma SendsExactly(s: Ledger, step: Step)
    requires Allowed(s, step)
    ensures Take(s, step).sent == s.sent + Sends(s, step)
  {
    hide Total, ResumeEach, Resumes;
    assert s.sent + [] == s.sent;
    match step
    case DoAck(p, pane, bytes) => AckSends(s, p, pane, bytes);
    case DoClear(p, order) =>
      if p in s.outstanding { ClearingSends(s, s.outstanding[p := map[]], order); } else { NothingResumes(s, s.outstanding); }
    case DoRelease(p, order) =>
      if p in s.outstanding { ClearingSends(s, s.outstanding - {p}, order); } else { NothingResumes(s, s.outstanding); }
    case DoRegister(p) => NothingResumes(s, Take(s, step).outstanding);
    case DoSettle(id, outcome) => NothingResumes(s, Take(s, step).outstanding);
    case DoAccount(p, pane, bytes) => AccountSends(s, p, pane, bytes);
    case DoFlush(sends) =>
  }

  lemma NothingResumes(s: Ledger, after: map<Peer, map<Pane, nat>>)
    ensures Resumes(s, after, []) == []
  {
  }

  lemma AccountSends(s: Ledger, p: Peer, pane: Pane, bytes: int)
    ensures var r := Account(s, p, pane, bytes);
            r.sent == s.sent + if p in s.outstanding && bytes > 0 && DueToPause(s, r.outstanding, pane) then [SentPause(pane)] else []
  {
    hide Total;
    assert s.sent + [] == s.sent;
  }

  lemma AckSends(s: Ledger, p: Peer, pane: Pane, bytes: int)
    ensures var r := Ack(s, p, pane, bytes);
            r.sent == s.sent + Resumes(s, r.outstanding, if p in s.outstanding && bytes > 0 then [pane] else [])
  {
    if p in s.outstanding && bytes > 0 {
      hide Acked, MaybeResume;
      var owed := s.outstanding[p := Acked(s.outstanding[p], pane, bytes)];
      OneDecision(s.(outstanding := owed), pane);
      assert [pane][1..] == [];
      hide Total;
      assert Resumes(s, owed, [pane]) == if DueToResume(s, owed, pane) then [SentContinue(pane)] else [];
    } else {
      assert s.sent + [] == s.sent;
    }
  }

  // ---------------------------------------------------------------------------------------
  // Which panes are held paused
  // ---------------------------------------------------------------------------------------

  /** A Continue's answer ends the pause it was sent for, unless tmux refused it. */
  predicate EndsPause(s: Ledger, step: Step, pane: Pane) {
    step.DoSettle? && !step.outcome.Refused? && step.id in s.continues
    && s.continues[step.id].pane == pane && pane in s.paused && s.continues[step.id].episode == s.paused[pane].episode
  }

  lemma {:induction false} ResumesKeepPaused(s: Ledger, panes: seq<Pane>, pane: Pane)
    ensures pane in ResumeEach(s, panes).paused <==> pane in s.paused
    decreases |panes|
  {
    hide Total;
    if panes != [] {
      ResumesKeepPaused(MaybeResume(s, panes[0]), panes[1..], pane);
    }
  }

  /** A pane is held paused from its Pause until a Continue of that episode is answered, or the ledger is flushed. */
  lemma PausedExactly(s: Ledger, step: Step, pane: Pane)
    requires Allowed(s, step)
    ensures pane in Take(s, step).paused
            <==> (pane in s.paused && !EndsPause(s, step, pane) && !step.DoFlush?)
                 || (step.DoAccount? && step.pane == pane && SentPause(pane) in Sends(s, step))
  {
    hide Total, Lists, ResumeEach, Resumes;
    match step
    case DoClear(p, order) =>
      if p in s.outstanding { ResumesKeepPaused(s.(outstanding := s.outstanding[p := map[]]), order, pane); }
    case DoRelease(p, order) =>
      if p in s.outstanding { ResumesKeepPaused(s.(outstanding := s.outstanding - {p}), order, pane); }
    case _ =>
  }
}

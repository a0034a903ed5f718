/**
  What each step of the subscription ledger comes to: who owns which name afterwards, which commands tmux is sent,
  and what the caller is answered, each told by the facts before the step.
 */
module SubscriptionEffects {
  import opened SubscriptionSpec

  /** The name's record is registered and its subscribe not answered yet. */
  predicate Pending(s: Ledger, n: string) {
    Held(s, n) && RecordOf(s, n).promise.Open?
  }

  /** The registered record of the name asks for the same thing. */
  predicate SameTerms(s: Ledger, n: string, what: string, format: string) {
    Held(s, n) && RecordOf(s, n).what == what && RecordOf(s, n).format == format
  }

  predicate SoleOwner(s: Ledger, p: Peer, n: string) {
    Held(s, n) && RecordOf(s, n).owners == {p}
  }

  // ---------------------------------------------------------------------------------------
  // Who owns what
  // ---------------------------------------------------------------------------------------

  /** A subscribe owns the name at once when nobody holds it, or when its confirmed record asks for the same. */
  predicate Gains(s: Ledger, p: Peer, n: string, what: string, format: string) {
    p in s.registered && (if Held(s, n) then SameTerms(s, n, what, format) && !Pending(s, n) else true)
  }

  /** Does the peer own the name after the step? */
  predicate OwnsAfter(s: Ledger, step: Step, q: Peer, n: string) {
    match step
    case DoRegister(_) => Owns(s, q, n)
    case DoSubscribe(p, m, what, format) => Owns(s, q, n) || (p == q && m == n && Gains(s, p, m, what, format))
    case DoUnsubscribe(p, m) => Owns(s, q, n) && !(p == q && m == n && p in s.registered && !Pending(s, n))
    case DoSettle(r, ok) => Owns(s, q, n) && (ok || (r < |s.records| && s.records[r].name != n))
    case DoResume(call) =>
      if call !in s.waits || s.waits[call].record >= |s.records| then Owns(s, q, n)
      else
        var w := s.waits[call];
        if w.Unsub? then Owns(s, q, n) && !(w.peer == q && w.name == n)
        else
          Owns(s, q, n)
          || (w.peer == q && w.name == n && !s.records[w.record].promise.Rejected?
              && ((Held(s, n) && s.subscriptions[n] == w.record) || Gains(s, q, n, w.what, w.format)))
    case DoRelease(p) => Owns(s, q, n) && !(p == q && p in s.registered)
  }

  lemma ClaimOwns(s: Ledger, p: Peer, m: string, q: Peer, n: string)
    requires Inv(s) && Held(s, m) && p in s.registered
    ensures Owns(Claim(s, p, m), q, n) <==> Owns(s, q, n) || (p == q && m == n)
  {
    assert OwnsOk(s, p, m) && NameOk(s, m) && NameOk(s, n);
  }

  lemma SubscribeOwns(s: Ledger, p: Peer, m: string, what: string, format: string, q: Peer, n: string)
    requires Inv(s)
    ensures Owns(Subscribe(s, p, m, what, format).ledger, q, n) <==> OwnsAfter(s, DoSubscribe(p, m, what, format), q, n)
  {
    hide Inv, Claim;
    assert NameOk(s, n) by { InvName(s, n); }
    if p in s.registered && Held(s, m) { ClaimOwns(s, p, m, q, n); }
  }

  lemma DropOwns(s: Ledger, p: Peer, m: string, q: Peer, n: string)
    requires Inv(s)
    ensures Owns(Drop(s, p, m).ledger, q, n) <==> Owns(s, q, n) && !(p == q && m == n)
  {
    assert NameOk(s, m) && NameOk(s, n);
    if Held(s, m) { OthersLeft(RecordOf(s, m).owners, p, q); }
  }

  lemma OthersLeft(owners: set<Peer>, p: Peer, q: Peer)
    ensures q in owners && q != p ==> q in owners - {p} && owners - {p} != {}
  {
  }

  lemma ReleaseOwns(s: Ledger, p: Peer, q: Peer, n: string)
    requires Inv(s)
    ensures Owns(Release(s, p), q, n) <==> Owns(s, q, n) && !(p == q && p in s.registered)
  {
    hide Inv, Release;
    if p in s.registered {
      ReleasedName(s, p, n);
      InvName(s, n);
      if Held(s, n) { OthersLeft(RecordOf(s, n).owners, p, q); }
    } else {
      ReleaseUnregistered(s, p);
    }
  }

  lemma SettleOwns(s: Ledger, r: nat, ok: bool, q: Peer, n: string)
    requires Inv(s) && Enabled(s, DoSettle(r, ok))
    ensures Owns(Settle(s, r, ok).ledger, q, n) <==> OwnsAfter(s, DoSettle(r, ok), q, n)
  {
    assert NameOk(s, n) && RecordOk(s, r);
  }

  lemma JoinOwns(s: Ledger, call: nat, q: Peer, n: string)
    requires Inv(s) && Resumable(s, call) && s.waits[call].Join?
    ensures Owns(JoinResumes(s, call, s.waits[call]).ledger, q, n) <==> OwnsAfter(s, DoResume(call), q, n)
  {
    hide Inv, Claim, Subscribe;
    var w, t := s.waits[call], Unwait(s, call);
    UnwaitKeeps(s, call);
    WaitFacts(s, call);
    SubscribeOwns(t, w.peer, w.name, w.what, w.format, q, n);
    if Held(t, w.name) { ClaimOwns(t, w.peer, w.name, q, n); }
  }

  lemma UnsubOwns(s: Ledger, call: nat, q: Peer, n: string)
    requires Inv(s) && Resumable(s, call) && s.waits[call].Unsub?
    ensures Owns(UnsubResumes(s, call, s.waits[call]).ledger, q, n) <==> OwnsAfter(s, DoResume(call), q, n)
  {
    hide Inv, Drop;
    var w, t := s.waits[call], Unwait(s, call);
    UnwaitKeeps(s, call);
    DropOwns(t, w.peer, w.name, q, n);
    NotListedNotOwned(s, w.peer, w.name);
  }

  lemma NotListedNotOwned(s: Ledger, p: Peer, n: string)
    requires Inv(s)
    ensures n !in OwnedBy(s, p) ==> !Owns(s, p, n)
    ensures p in s.registered ==> (n in OwnedBy(s, p) <==> Owns(s, p, n))
  {
    assert OwnsOk(s, p, n) && NameOk(s, n);
  }

  lemma UnsubscribeOwns(s: Ledger, p: Peer, m: string, q: Peer, n: string)
    requires Inv(s)
    ensures Owns(Unsubscribe(s, p, m).ledger, q, n) <==> OwnsAfter(s, DoUnsubscribe(p, m), q, n)
  {
    hide Inv, Drop;
    DropOwns(s, p, m, q, n);
    NotListedNotOwned(s, p, m);
  }

  /** After each step, exactly these peers own the name. */
  lemma OwnedExactly(s: Ledger, step: Step, q: Peer, n: string)
    requires Inv(s) && Enabled(s, step)
    ensures Owns(Take(s, step).ledger, q, n) <==> OwnsAfter(s, step, q, n)
  {
    hide Inv, Subscribe, Unsubscribe, Settle, JoinResumes, UnsubResumes, Release, Owns, OwnsAfter;
    match step
    case DoRegister(p) => RegisterOwns(s, p, q, n);
    case DoSubscribe(p, m, what, format) => SubscribeOwns(s, p, m, what, format, q, n);
    case DoUnsubscribe(p, m) => UnsubscribeOwns(s, p, m, q, n);
    case DoSettle(r, ok) => SettleOwns(s, r, ok, q, n);
    case DoResume(call) => if s.waits[call].Join? { JoinOwns(s, call, q, n); } else { UnsubOwns(s, call, q, n); }
    case DoRelease(p) =>
      ReleaseOwns(s, p, q, n);
      ReleaseAfter(s, p, q, n);
  }

  lemma RegisterOwns(s: Ledger, p: Peer, q: Peer, n: string)
    ensures Owns(Register(s, p).ledger, q, n) <==> OwnsAfter(s, DoRegister(p), q, n)
  {
  }

  lemma ReleaseAfter(s: Ledger, p: Peer, q: Peer, n: string)
    ensures OwnsAfter(s, DoRelease(p), q, n) <==> Owns(s, q, n) && !(p == q && p in s.registered)
  {
  }

  // ---------------------------------------------------------------------------------------
  // What is answered
  // ---------------------------------------------------------------------------------------

  function SubscribeAnswer(s: Ledger, p: Peer, n: string, what: string, format: string): Answer {
    if p !in s.registered then Internal
    else if Held(s, n) && !SameTerms(s, n, what, format) then FormatConflict
    else if Held(s, n) && !Pending(s, n) then KeysOk
    else Waiting
  }

  function AnswerTo(s: Ledger, step: Step): Answer
    requires Enabled(s, step)
  {
    match step
    case DoRegister(p) => if p in s.registered then Internal else KeysOk
    case DoSubscribe(p, n, what, format) => SubscribeAnswer(s, p, n, what, format)
    case DoUnsubscribe(p, n) =>
      if p !in s.registered then Internal
      else if !Owns(s, p, n) then UnknownSubscription
      else if Pending(s, n) then Waiting
      else if SoleOwner(s, p, n) then Sent else KeysOk
    case DoSettle(_, ok) => if ok then Sent else CommandRejected
    case DoResume(call) =>
      var w := s.waits[call];
      if w.Unsub? then if SoleOwner(s, w.peer, w.name) then Sent else KeysOk
      else if s.records[w.record].promise.Rejected? then CommandRejected
      else if Held(s, w.name) && s.subscriptions[w.name] == w.record then KeysOk
      else SubscribeAnswer(s, w.peer, w.name, w.what, w.format)
    case DoRelease(_) => KeysOk
  }

  lemma OwnersLeft(s: Ledger, p: Peer, n: string)
    requires Inv(s) && Held(s, n)
    ensures RecordOf(s, n).owners - {p} == {} <==> SoleOwner(s, p, n)
  {
    assert NameOk(s, n);
    var owners := RecordOf(s, n).owners;
    if owners - {p} == {} {
      forall q | q in owners ensures q == p { OthersLeft(owners, p, q); }
      var q :| q in owners;
      assert owners == {p};
    }
  }

  /** A name not held is owned by nobody. */
  lemma UnsubAnswers(s: Ledger, call: nat)
    requires Inv(s) && Resumable(s, call) && s.waits[call].Unsub?
    ensures UnsubResumes(s, call, s.waits[call]).answer == AnswerTo(s, DoResume(call))
  {
    hide Inv;
    var w := s.waits[call];
    NotListedNotOwned(s, w.peer, w.name);
    if Held(s, w.name) { OwnersLeft(s, w.peer, w.name); }
  }

  lemma UnsubscribeAnswers(s: Ledger, p: Peer, n: string)
    requires Inv(s)
    ensures Unsubscribe(s, p, n).answer == AnswerTo(s, DoUnsubscribe(p, n))
  {
    hide Inv;
    NotListedNotOwned(s, p, n);
    if Held(s, n) { OwnersLeft(s, p, n); }
  }

  lemma JoinAnswers(s: Ledger, call: nat)
    requires Inv(s) && Resumable(s, call) && s.waits[call].Join?
    ensures JoinResumes(s, call, s.waits[call]).answer == AnswerTo(s, DoResume(call))
  {
    hide Inv, Claim, FirstSubscribe;
  }

  /** Each call is answered exactly so. */
  lemma AnsweredExactly(s: Ledger, step: Step)
    requires Inv(s) && Enabled(s, step)
    ensures Take(s, step).answer == AnswerTo(s, step)
  {
    hide Inv, Unsubscribe, JoinResumes, UnsubResumes, Release, Claim, FirstSubscribe, AnswerTo;
    match step
    case DoUnsubscribe(p, n) => UnsubscribeAnswers(s, p, n);
    case DoResume(call) => if s.waits[call].Join? { JoinAnswers(s, call); } else { UnsubAnswers(s, call); }
    case DoSubscribe(p, n, what, format) => SubscribeAnswers(s, p, n, what, format);
    case DoRegister(p) => PlainAnswers(s, step);
    case DoSettle(r, ok) => PlainAnswers(s, step);
    case DoRelease(p) => PlainAnswers(s, step);
  }

  lemma PlainAnswers(s: Ledger, step: Step)
    requires Enabled(s, step) && (step.DoRegister? || step.DoSettle? || step.DoRelease?)
    ensures Take(s, step).answer == AnswerTo(s, step)
  {
    hide Release;
  }

  lemma SubscribeAnswers(s: Ledger, p: Peer, n: string, what: string, format: string)
    ensures Subscribe(s, p, n, what, format).answer == SubscribeAnswer(s, p, n, what, format)
    ensures AnswerTo(s, DoSubscribe(p, n, what, format)) == SubscribeAnswer(s, p, n, what, format)
  {
    hide Claim, FirstSubscribe;
  }

  // ---------------------------------------------------------------------------------------
  // What tmux is sent
  // ---------------------------------------------------------------------------------------

  /** The commands for the name a step adds: a confirmed subscribe, or an unsubscribe when its last owner goes. */
  function CommandsFor(s: Ledger, step: Step, n: string): seq<Command>
    requires Enabled(s, step)
  {
    match step
    case DoSettle(r, ok) => if ok && s.records[r].name == n then [Subscribed] else []
    case DoUnsubscribe(p, m) => if m == n && p in s.registered && SoleOwner(s, p, n) && !Pending(s, n) then [Unsubscribed] else []
    case DoResume(call) => if s.waits[call].Unsub? && s.waits[call].name == n && SoleOwner(s, s.waits[call].peer, n) then [Unsubscribed] else []
    case DoRelease(p) => if p in s.registered && SoleOwner(s, p, n) then [Unsubscribed] else []
    case _ => []
  }

  lemma DropSends(s: Ledger, p: Peer, m: string, n: string)
    requires Inv(s)
    ensures HistoryOf(Drop(s, p, m).ledger, n) == HistoryOf(s, n) + if m == n && SoleOwner(s, p, n) then [Unsubscribed] else []
  {
    hide Inv;
    assert HistoryOf(s, n) + [] == HistoryOf(s, n);
    if Held(s, m) { OwnersLeft(s, p, m); }
  }

  lemma SubscribeSends(s: Ledger, p: Peer, m: string, what: string, format: string, n: string)
    ensures HistoryOf(Subscribe(s, p, m, what, format).ledger, n) == HistoryOf(s, n)
  {
  }

  lemma JoinSends(s: Ledger, call: nat, n: string)
    requires Resumable(s, call) && s.waits[call].Join?
    ensures HistoryOf(JoinResumes(s, call, s.waits[call]).ledger, n) == HistoryOf(s, n)
  {
    hide Subscribe;
    var w := s.waits[call];
    SubscribeSends(Unwait(s, call), w.peer, w.name, w.what, w.format, n);
  }

  lemma UnsubSends(s: Ledger, call: nat, n: string)
    requires Inv(s) && Resumable(s, call) && s.waits[call].Unsub?
    ensures HistoryOf(UnsubResumes(s, call, s.waits[call]).ledger, n) == HistoryOf(s, n) + CommandsFor(s, DoResume(call), n)
  {
    hide Inv, Drop;
    var w, t := s.waits[call], Unwait(s, call);
    UnwaitKeeps(s, call);
    DropSends(t, w.peer, w.name, n);
    NotListedNotOwned(s, w.peer, w.name);
    assert HistoryOf(s, n) + [] == HistoryOf(s, n);
  }

  lemma UnsubscribeSends(s: Ledger, p: Peer, m: string, n: string)
    requires Inv(s)
    ensures HistoryOf(Unsubscribe(s, p, m).ledger, n) == HistoryOf(s, n) + CommandsFor(s, DoUnsubscribe(p, m), n)
  {
    hide Inv, Drop;
    DropSends(s, p, m, n);
    NotListedNotOwned(s, p, m);
    assert HistoryOf(s, n) + [] == HistoryOf(s, n);
  }

  lemma ReleaseSends(s: Ledger, p: Peer, n: string)
    requires Inv(s)
    ensures HistoryOf(Release(s, p), n) == HistoryOf(s, n) + CommandsFor(s, DoRelease(p), n)
  {
    hide Inv, Release;
    assert HistoryOf(s, n) + [] == HistoryOf(s, n);
    if p in s.registered {
      ReleasedHistory(s, p, n);
      if Held(s, n) { OwnersLeft(s, p, n); }
    } else {
      ReleaseUnregistered(s, p);
    }
  }

  /** Each step sends tmux exactly these commands for the name. */
  lemma SentExactly(s: Ledger, step: Step, n: string)
    requires Inv(s) && Enabled(s, step)
    ensures HistoryOf(Take(s, step).ledger, n) == HistoryOf(s, n) + CommandsFor(s, step, n)
  {
    hide Inv, Subscribe, Unsubscribe, JoinResumes, UnsubResumes, Release;
    assert HistoryOf(s, n) + [] == HistoryOf(s, n);
    match step
    case DoSubscribe(p, m, what, format) => SubscribeSends(s, p, m, what, format, n);
    case DoUnsubscribe(p, m) => UnsubscribeSends(s, p, m, n);
    case DoResume(call) => if s.waits[call].Join? { JoinSends(s, call, n); } else { UnsubSends(s, call, n); }
    case DoRelease(p) => ReleaseSends(s, p, n);
    case DoRegister(p) =>
    case DoSettle(r, ok) =>
  }
}

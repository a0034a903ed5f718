/**
  The subscription ledger (src/connectors/subscription-ledger.ts) as a state machine. The stretch
  between two awaits is one step; promises settle, and their waiters resume, in any order.
 */
module SubscriptionSpec {

  type Peer = nat

  /** The subscribe command's promise: `inflight` in the source is present exactly while it is open. */
  datatype Promise = Open | Fulfilled | Rejected

  datatype Record = Record(name: string, what: string, format: string, owners: set<Peer>, promise: Promise)

  /** Calls waiting on a record's promise: later subscribers and unsubscribers. The first subscriber waits while it is open. */
  datatype Wait =
    | Join(peer: Peer, name: string, what: string, format: string, record: nat)
    | Unsub(peer: Peer, name: string, record: nat)

  /** Effective commands for one name: subscribes that tmux confirmed, unsubscribes that were sent. */
  datatype Command = Subscribed | Unsubscribed

  /**
    `records` are the record objects ever made, by number; `owned` the owned-names sets ever made, which a
    released peer's waiting calls still hold; `registered` the peers that have a slot.
   */
  datatype Ledger = Ledger(
    subscriptions: map<string, nat>,
    records: seq<Record>,
    owned: map<Peer, set<string>>,
    registered: set<Peer>,
    waits: map<nat, Wait>,
    calls: nat,
    history: map<string, seq<Command>>
  )

  /** `Waiting`: the call has not returned. `KeysOk`: the synthesized success. `Sent`: tmux's own answer. */
  datatype Answer = Waiting | KeysOk | Sent | CommandRejected | FormatConflict | UnknownSubscription | Internal

  datatype Result = Result(ledger: Ledger, answer: Answer)

  const INIT := Ledger(map[], [], map[], {}, map[], 0, map[])

  // ---------------------------------------------------------------------------------------
  // Steps
  // ---------------------------------------------------------------------------------------

  function OwnedBy(s: Ledger, p: Peer): set<string> {
    if p in s.owned then s.owned[p] else {}
  }

  function HistoryOf(s: Ledger, n: string): seq<Command> {
    if n in s.history then s.history[n] else []
  }

  /** The registered record of a name. */
  predicate Held(s: Ledger, n: string) {
    n in s.subscriptions && s.subscriptions[n] < |s.records|
  }

  function RecordOf(s: Ledger, n: string): Record
    requires Held(s, n)
  {
    s.records[s.subscriptions[n]]
  }

  predicate Owns(s: Ledger, p: Peer, n: string) {
    Held(s, n) && p in RecordOf(s, n).owners
  }

  function Register(s: Ledger, p: Peer): Result {
    if p in s.registered then Result(s, Internal)
    else Result(s.(owned := s.owned[p := {}], registered := s.registered + {p}), KeysOk)
  }

  function AddWait(s: Ledger, w: Wait): Result {
    Result(s.(waits := s.waits[s.calls := w], calls := s.calls + 1), Waiting)
  }

  function Claim(s: Ledger, p: Peer, n: string): Ledger
    requires Held(s, n)
  {
    if n in OwnedBy(s, p) then s
    else s.(owned := s.owned[p := OwnedBy(s, p) + {n}],
            records := s.records[s.subscriptions[n] := RecordOf(s, n).(owners := RecordOf(s, n).owners + {p})])
  }

  function FirstSubscribe(s: Ledger, p: Peer, n: string, what: string, format: string): Ledger {
    s.(records := s.records + [Record(n, what, format, {p}, Open)],
       subscriptions := s.subscriptions[n := |s.records|],
       owned := s.owned[p := OwnedBy(s, p) + {n}])
  }

  function Subscribe(s: Ledger, p: Peer, n: string, what: string, format: string): Result {
    if p !in s.registered then Result(s, Internal)
    else if Held(s, n) then
      var existing := RecordOf(s, n);
      if existing.what != what || existing.format != format then Result(s, FormatConflict)
      else if existing.promise.Open? then AddWait(s, Join(p, n, what, format, s.subscriptions[n]))
      else Result(Claim(s, p, n), KeysOk)
    else Result(FirstSubscribe(s, p, n, what, format), Waiting)
  }

  /** tmux answered: the first subscriber's continuation confirms or rolls back in the same step. */
  function Settle(s: Ledger, r: nat, ok: bool): Result
    requires r < |s.records|
  {
    var rec := s.records[r];
    if ok then
      Result(s.(records := s.records[r := rec.(promise := Fulfilled)],
                history := s.history[rec.name := HistoryOf(s, rec.name) + [Subscribed]]), Sent)
    else
      Result(s.(records := s.records[r := rec.(promise := Rejected, owners := {})],
                owned := map p | p in s.owned :: if p in rec.owners && p in s.registered then s.owned[p] - {rec.name} else s.owned[p],
                subscriptions := s.subscriptions - {rec.name}), CommandRejected)
  }

  function Unwait(s: Ledger, call: nat): Ledger {
    s.(waits := s.waits - {call})
  }

  function JoinResumes(s: Ledger, call: nat, w: Wait): Result
    requires w.Join? && w.record < |s.records|
  {
    var t := Unwait(s, call);
    if s.records[w.record].promise.Rejected? then Result(t, CommandRejected)
    else if Held(s, w.name) && s.subscriptions[w.name] == w.record then Result(Claim(t, w.peer, w.name), KeysOk)
    else Subscribe(t, w.peer, w.name, w.what, w.format)
  }

  /** Remove an owner; the last one takes the record with it and sends the unsubscribe. */
  function ReleaseName(s: Ledger, n: string, p: Peer): Ledger {
    if !Held(s, n) then s
    else
      var rec := RecordOf(s, n);
      var t := s.(records := s.records[s.subscriptions[n] := rec.(owners := rec.owners - {p})]);
      if rec.owners - {p} == {} then
        t.(subscriptions := s.subscriptions - {n}, history := s.history[n := HistoryOf(s, n) + [Unsubscribed]])
      else t
  }

  function Drop(s: Ledger, p: Peer, n: string): Result {
    Result(ReleaseName(s.(owned := s.owned[p := OwnedBy(s, p) - {n}]), n, p),
           if Held(s, n) && RecordOf(s, n).owners - {p} == {} then Sent else KeysOk)
  }

  function Unsubscribe(s: Ledger, p: Peer, n: string): Result {
    if p !in s.registered then Result(s, Internal)
    else if n !in OwnedBy(s, p) then Result(s, UnknownSubscription)
    else if Held(s, n) && RecordOf(s, n).promise.Open? then AddWait(s, Unsub(p, n, s.subscriptions[n]))
    else Drop(s, p, n)
  }

  function UnsubResumes(s: Ledger, call: nat, w: Wait): Result
    requires w.Unsub?
  {
    var t := Unwait(s, call);
    if w.name !in OwnedBy(s, w.peer) then Result(t, KeysOk) else Drop(t, w.peer, w.name)
  }

  /** The names of `names` whose registered record has no owner but `p`. */
  function LastOwned(s: Ledger, p: Peer, names: set<string>): set<string> {
    set n | n in names && Held(s, n) && RecordOf(s, n).owners - {p} == {}
  }

  /** Record `i`, without the owner `p` when it is registered under one of `names`. */
  function Disowned(s: Ledger, p: Peer, names: set<string>, i: nat): Record
    requires i < |s.records|
  {
    if exists n <- names :: Held(s, n) && s.subscriptions[n] == i then s.records[i].(owners := s.records[i].owners - {p})
    else s.records[i]
  }

  /** `ReleaseName` on every name of a set: the order does not matter. */
  function ReleaseNames(s: Ledger, p: Peer, names: set<string>): Ledger {
    var gone := LastOwned(s, p, names);
    s.(records := seq(|s.records|, i requires 0 <= i < |s.records| => Disowned(s, p, names, i)),
       subscriptions := s.subscriptions - gone,
       history := map n | n in s.history.Keys + gone :: HistoryOf(s, n) + if n in gone then [Unsubscribed] else [])
  }

  function Release(s: Ledger, p: Peer): Ledger {
    if p !in s.registered then s
    else ReleaseNames(s.(registered := s.registered - {p}), p, OwnedBy(s, p))
  }

  datatype Step =
    | DoRegister(p: Peer)
    | DoSubscribe(p: Peer, n: string, what: string, format: string)
    | DoUnsubscribe(p: Peer, n: string)
    | DoSettle(r: nat, ok: bool)
    | DoResume(call: nat)
    | DoRelease(p: Peer)

  /** A waiting call can resume once its record's promise has settled. */
  predicate Resumable(s: Ledger, call: nat) {
    call in s.waits && s.waits[call].record < |s.records| && !s.records[s.waits[call].record].promise.Open?
  }

  /** A peer object is registered once, a promise settles once. */
  predicate Enabled(s: Ledger, step: Step) {
    match step
    case DoRegister(p) => p !in s.owned
    case DoSettle(r, _) => r < |s.records| && s.records[r].promise.Open?
    case DoResume(call) => Resumable(s, call)
    case _ => true
  }

  function Take(s: Ledger, step: Step): Result
    requires Enabled(s, step)
  {
    match step
    case DoRegister(p) => Register(s, p)
    case DoSubscribe(p, n, what, format) => Subscribe(s, p, n, what, format)
    case DoUnsubscribe(p, n) => Unsubscribe(s, p, n)
    case DoSettle(r, ok) => Settle(s, r, ok)
    case DoResume(call) =>
      if s.waits[call].Join? then JoinResumes(s, call, s.waits[call]) else UnsubResumes(s, call, s.waits[call])
    case DoRelease(p) => Result(Release(s, p), KeysOk)
  }

  // ---------------------------------------------------------------------------------------
  // The invariant
  // ---------------------------------------------------------------------------------------

  /** A registered peer's set has the name exactly when the peer owns the registered record. */
  predicate OwnsOk(s: Ledger, p: Peer, n: string) {
    p in s.registered ==> (n in OwnedBy(s, p) <==> Owns(s, p, n))
  }

  /** A registered record bears its name, has an owner, only registered owners, and was not rejected. */
  predicate NameOk(s: Ledger, n: string) {
    n in s.subscriptions ==>
      && Held(s, n)
      && var rec := RecordOf(s, n);
         rec.name == n && rec.owners != {} && rec.owners <= s.registered && !rec.promise.Rejected?
  }

  /** A record whose subscribe is in flight is the registered one, and only its first subscriber owns it. */
  predicate RecordOk(s: Ledger, i: nat) {
    i < |s.records| && s.records[i].promise.Open? ==>
      && s.records[i].name in s.subscriptions && s.subscriptions[s.records[i].name] == i
      && |s.records[i].owners| == 1
  }

  predicate Alternates(h: seq<Command>) {
    forall i | 0 <= i < |h| :: h[i] == if i % 2 == 0 then Subscribed else Unsubscribed
  }

  /** Subscribes and unsubscribes alternate, and tmux holds the name exactly when its record is confirmed. */
  predicate HistoryOk(s: Ledger, n: string) {
    && Alternates(HistoryOf(s, n))
    && (|HistoryOf(s, n)| % 2 == 1 <==> Held(s, n) && RecordOf(s, n).promise.Fulfilled?)
  }

  predicate WaitOk(s: Ledger, call: nat) {
    call in s.waits ==>
      var w := s.waits[call];
      && call < s.calls && w.record < |s.records| && s.records[w.record].name == w.name
      && (w.Join? ==> w.peer in s.registered)
      && (w.Unsub? ==> w.peer in s.owned)
  }

  ghost predicate Inv(s: Ledger) {
    && s.registered <= s.owned.Keys
    && (forall p, n :: OwnsOk(s, p, n))
    && (forall n :: NameOk(s, n))
    && (forall i :: RecordOk(s, i))
    && (forall n :: HistoryOk(s, n))
    && (forall call :: WaitOk(s, call))
  }

  /** The peer's own subscribe call has not returned. */
  ghost predicate SubscribeWaits(s: Ledger, p: Peer) {
    || (exists i :: FirstWaits(s, p, i))
    || (exists call :: JoinWaits(s, p, call))
  }

  predicate FirstWaits(s: Ledger, p: Peer, i: nat) {
    i < |s.records| && s.records[i].promise.Open? && p in s.records[i].owners
  }

  predicate JoinWaits(s: Ledger, p: Peer, call: nat) {
    call in s.waits && s.waits[call].Join? && s.waits[call].peer == p
  }

  /** An unsubscribe resumes and finds its peer owning a record whose subscribe is in flight. */
  predicate MeetsInflight(s: Ledger, w: Wait) {
    w.Unsub? && w.name in OwnedBy(s, w.peer) && Owns(s, w.peer, w.name) && RecordOf(s, w.name).promise.Open?
  }

  /** The schedule limits: no release while the peer's own subscribe waits, and no unsubscribe resuming into an in-flight record. */
  ghost predicate Allowed(s: Ledger, step: Step) {
    && Enabled(s, step)
    && match step
       case DoRelease(p) => !SubscribeWaits(s, p)
       case DoResume(call) => !MeetsInflight(s, s.waits[call])
       case _ => true
  }

  // ---------------------------------------------------------------------------------------
  // One name at a time
  // ---------------------------------------------------------------------------------------

  /** `t` differs from `s` at most in what concerns the name `n`; the waiting calls are the same. */
  ghost predicate OnlyName(s: Ledger, t: Ledger, n: string) {
    && t.registered == s.registered && s.owned.Keys <= t.owned.Keys && t.waits == s.waits && t.calls == s.calls
    && |s.records| <= |t.records|
    && (forall i :: RecordsAgree(s, t, n, i))
    && (forall m :: NamesAgree(s, t, n, m))
    && (forall p, m :: OwnedAgree(s, t, n, p, m))
  }

  predicate RecordsAgree(s: Ledger, t: Ledger, n: string, i: nat) {
    && (i < |s.records| && i < |t.records| ==>
          && t.records[i].name == s.records[i].name
          && (s.records[i].name != n ==> t.records[i] == s.records[i]))
    && (|s.records| <= i < |t.records| ==> t.records[i].name == n)
  }

  predicate NamesAgree(s: Ledger, t: Ledger, n: string, m: string) {
    m != n ==>
      && (m in t.subscriptions <==> m in s.subscriptions)
      && (m in s.subscriptions ==> t.subscriptions[m] == s.subscriptions[m])
      && HistoryOf(t, m) == HistoryOf(s, m)
  }

  predicate OwnedAgree(s: Ledger, t: Ledger, n: string, p: Peer, m: string) {
    m != n ==> (m in OwnedBy(t, p) <==> m in OwnedBy(s, p))
  }

  /** The invariant's part about one name. */
  ghost predicate NameInv(s: Ledger, n: string) {
    && (forall p :: OwnsOk(s, p, n))
    && NameOk(s, n)
    && (forall i: nat | i < |s.records| && s.records[i].name == n :: RecordOk(s, i))
    && HistoryOk(s, n)
  }

  lemma OtherName(s: Ledger, t: Ledger, n: string, m: string)
    requires Inv(s) && OnlyName(s, t, n) && m != n
    ensures NameOk(t, m) && HistoryOk(t, m) && (forall p :: OwnsOk(t, p, m))
    ensures Held(t, m) ==> Held(s, m) && RecordOf(t, m) == RecordOf(s, m)
  {
    hide Alternates;
    assert NamesAgree(s, t, n, m) && NameOk(s, m) && HistoryOk(s, m);
    if m in s.subscriptions {
      assert RecordsAgree(s, t, n, s.subscriptions[m]);
    }
    forall p ensures OwnsOk(t, p, m) {
      assert OwnsOk(s, p, m) && OwnedAgree(s, t, n, p, m);
    }
  }

  lemma OtherRecord(s: Ledger, t: Ledger, n: string, i: nat)
    requires Inv(s) && OnlyName(s, t, n) && i < |t.records| && t.records[i].name != n
    ensures RecordOk(t, i)
  {
    hide HistoryOf, OwnedBy;
    assert RecordsAgree(s, t, n, i) && RecordOk(s, i);
    assert NamesAgree(s, t, n, t.records[i].name);
  }

  lemma SameWait(s: Ledger, t: Ledger, n: string, call: nat)
    requires Inv(s) && OnlyName(s, t, n)
    ensures WaitOk(t, call)
  {
    hide HistoryOf, OwnedBy;
    assert WaitOk(s, call);
    if call in s.waits {
      assert RecordsAgree(s, t, n, s.waits[call].record);
    }
  }

  lemma OnlyNameKeeps(s: Ledger, t: Ledger, n: string)
    requires Inv(s) && OnlyName(s, t, n) && NameInv(t, n)
    ensures Inv(t)
  {
    hide OwnsOk, NameOk, RecordOk, HistoryOk, WaitOk, OnlyName, NameInv;
    assert t.registered <= t.owned.Keys by { KeysKept(s, t, n); }
    NameParts(t, n);
    forall m: string ensures NameOk(t, m) && HistoryOk(t, m) {
      if m != n {
        OtherName(s, t, n, m);
      }
    }
    forall p, m ensures OwnsOk(t, p, m) {
      if m != n {
        OtherName(s, t, n, m);
      }
    }
    forall i: nat ensures RecordOk(t, i) {
      RecordParts(t, n, i);
      if i < |t.records| && t.records[i].name != n {
        OtherRecord(s, t, n, i);
      }
    }
    forall call: nat ensures WaitOk(t, call) {
      SameWait(s, t, n, call);
    }
  }

  lemma KeysKept(s: Ledger, t: Ledger, n: string)
    requires OnlyName(s, t, n) && s.registered <= s.owned.Keys
    ensures t.registered <= t.owned.Keys
  {
  }

  lemma NameParts(t: Ledger, n: string)
    requires NameInv(t, n)
    ensures NameOk(t, n) && HistoryOk(t, n) && forall p :: OwnsOk(t, p, n)
  {
  }

  lemma RecordParts(t: Ledger, n: string, i: nat)
    requires NameInv(t, n)
    ensures i < |t.records| && t.records[i].name == n ==> RecordOk(t, i)
    ensures i >= |t.records| ==> RecordOk(t, i)
  {
  }

  lemma AlternatesPlus(h: seq<Command>, c: Command)
    requires Alternates(h)
    ensures Alternates(h + [c]) <==> (c == if |h| % 2 == 0 then Subscribed else Unsubscribed)
  {
    assert (h + [c])[|h|] == c;
    assert forall i | 0 <= i < |h| :: (h + [c])[i] == h[i];
  }

  // ---------------------------------------------------------------------------------------
  // Claiming, subscribing, settling
  // ---------------------------------------------------------------------------------------

  lemma ClaimKeeps(s: Ledger, p: Peer, n: string)
    requires Inv(s) && Held(s, n) && RecordOf(s, n).promise.Fulfilled? && p in s.registered
    ensures var t := Claim(s, p, n);
            && Inv(t) && n in OwnedBy(t, p) && Owns(t, p, n) && RecordOf(t, n).promise.Fulfilled?
  {
    hide Alternates;
    assert OwnsOk(s, p, n) && NameOk(s, n) && HistoryOk(s, n);
    var t := Claim(s, p, n);
    if n !in OwnedBy(s, p) {
      assert OnlyName(s, t, n) by { hide HistoryOk, NameOk, OwnsOk, Inv; }
      forall q ensures OwnsOk(t, q, n) {
        assert OwnsOk(s, q, n);
      }
      forall i: nat | i < |t.records| && t.records[i].name == n ensures RecordOk(t, i) {
        assert RecordOk(s, i);
      }
      OnlyNameKeeps(s, t, n);
    }
  }

  lemma NoneInFlight(s: Ledger, n: string)
    requires Inv(s) && !Held(s, n)
    ensures forall i: nat | i < |s.records| && s.records[i].name == n :: !s.records[i].promise.Open?
    ensures n !in s.subscriptions && |HistoryOf(s, n)| % 2 == 0
  {
    hide Alternates;
    assert NameOk(s, n) && HistoryOk(s, n);
    forall i: nat | i < |s.records| && s.records[i].name == n ensures !s.records[i].promise.Open? {
      assert RecordOk(s, i);
    }
  }

  lemma FirstSubscribeKeeps(s: Ledger, p: Peer, n: string, what: string, format: string)
    requires Inv(s) && !Held(s, n) && p in s.registered
    ensures Inv(FirstSubscribe(s, p, n, what, format))
  {
    hide Alternates;
    NoneInFlight(s, n);
    assert HistoryOk(s, n);
    var t := FirstSubscribe(s, p, n, what, format);
    assert OnlyName(s, t, n) by { hide HistoryOk, NameOk, OwnsOk, Inv; }
    forall q ensures OwnsOk(t, q, n) {
      assert OwnsOk(s, q, n);
    }
    OnlyNameKeeps(s, t, n);
  }

  lemma WaitKeeps(s: Ledger, w: Wait)
    requires Inv(s) && w.record < |s.records| && s.records[w.record].name == w.name
    requires w.peer in s.registered
    ensures Inv(AddWait(s, w).ledger)
  {
    var t := AddWait(s, w).ledger;
    hide Alternates, HistoryOf;
    SameButWaits(s, t);
    forall call ensures WaitOk(t, call) {
      assert WaitOk(s, call);
    }
  }

  lemma SameButWaits(s: Ledger, t: Ledger)
    requires Inv(s) && t == s.(waits := t.waits, calls := t.calls)
    ensures (forall p, n :: OwnsOk(t, p, n)) && (forall n :: NameOk(t, n)) && (forall i :: RecordOk(t, i)) && forall n :: HistoryOk(t, n)
  {
    hide Alternates;
    forall p, n ensures OwnsOk(t, p, n) { assert OwnsOk(s, p, n); }
    forall n ensures NameOk(t, n) { assert NameOk(s, n); }
    forall i ensures RecordOk(t, i) { assert RecordOk(s, i); }
    forall n ensures HistoryOk(t, n) { assert HistoryOk(s, n); }
  }

  lemma UnwaitKeeps(s: Ledger, call: nat)
    requires Inv(s)
    ensures Inv(Unwait(s, call))
  {
    var t := Unwait(s, call);
    hide Alternates, HistoryOf, OwnsOk, NameOk, RecordOk, HistoryOk;
    SameButWaits(s, t);
    forall c ensures WaitOk(t, c) {
      assert WaitOk(s, c);
    }
  }

  /** A subscribe that is answered at once leaves the peer owning the confirmed, registered record. */
  lemma SubscribeKeeps(s: Ledger, p: Peer, n: string, what: string, format: string)
    requires Inv(s)
    ensures var r := Subscribe(s, p, n, what, format);
            && Inv(r.ledger)
            && (r.answer.KeysOk? ==> p in r.ledger.registered && n in OwnedBy(r.ledger, p) && Owns(r.ledger, p, n)
                                     && RecordOf(r.ledger, n).promise.Fulfilled?)
  {
    hide Inv, Claim, FirstSubscribe, Owns, OwnedBy;
    if p in s.registered {
      if Held(s, n) {
        HeldFacts(s, n);
        var existing := RecordOf(s, n);
        if existing.what == what && existing.format == format {
          if existing.promise.Open? {
            WaitKeeps(s, Join(p, n, what, format, s.subscriptions[n]));
          } else {
            ClaimKeeps(s, p, n);
            ClaimRegistered(s, p, n);
          }
        }
      } else {
        FirstSubscribeKeeps(s, p, n, what, format);
      }
    }
  }

  lemma ClaimRegistered(s: Ledger, p: Peer, n: string)
    requires Held(s, n)
    ensures Claim(s, p, n).registered == s.registered
  {
  }

  lemma HeldFacts(s: Ledger, n: string)
    requires Inv(s) && Held(s, n)
    ensures var rec := RecordOf(s, n);
            rec.name == n && rec.owners != {} && rec.owners <= s.registered && !rec.promise.Rejected?
  {
    assert NameOk(s, n);
  }

  lemma SettleOkKeeps(s: Ledger, r: nat)
    requires Inv(s) && r < |s.records| && s.records[r].promise.Open?
    ensures Inv(Settle(s, r, true).ledger)
  {
    hide Alternates;
    var n := s.records[r].name;
    var t := Settle(s, r, true).ledger;
    assert RecordOk(s, r) && NameOk(s, n) && HistoryOk(s, n);
    AlternatesPlus(HistoryOf(s, n), Subscribed);
    assert OnlyName(s, t, n) by { hide HistoryOk, NameOk, OwnsOk, Inv; }
    forall q ensures OwnsOk(t, q, n) {
      assert OwnsOk(s, q, n);
    }
    forall i: nat | i < |t.records| && t.records[i].name == n ensures RecordOk(t, i) {
      assert RecordOk(s, i);
    }
    OnlyNameKeeps(s, t, n);
  }

  lemma SettleBadKeeps(s: Ledger, r: nat)
    requires Inv(s) && r < |s.records| && s.records[r].promise.Open?
    ensures Inv(Settle(s, r, false).ledger)
  {
    hide Alternates;
    var n := s.records[r].name;
    var t := Settle(s, r, false).ledger;
    assert RecordOk(s, r) && NameOk(s, n) && HistoryOk(s, n);
    assert OnlyName(s, t, n) by { hide HistoryOk, NameOk, OwnsOk, Inv; }
    forall q ensures OwnsOk(t, q, n) {
      assert OwnsOk(s, q, n);
    }
    forall i: nat | i < |t.records| && t.records[i].name == n ensures RecordOk(t, i) {
      assert RecordOk(s, i);
    }
    OnlyNameKeeps(s, t, n);
  }

  /** A resumed joiner answered OK owns the confirmed, registered record: no phantom subscription. */
  lemma JoinResumesKeeps(s: Ledger, call: nat)
    requires Inv(s) && Resumable(s, call) && s.waits[call].Join?
    ensures var w := s.waits[call];
            var r := JoinResumes(s, call, w);
            && Inv(r.ledger)
            && (r.answer.KeysOk? ==> w.peer in r.ledger.registered && w.name in OwnedBy(r.ledger, w.peer)
                                     && Owns(r.ledger, w.peer, w.name) && RecordOf(r.ledger, w.name).promise.Fulfilled?)
  {
    hide Inv, Claim, Subscribe;
    var w := s.waits[call];
    var t := Unwait(s, call);
    UnwaitKeeps(s, call);
    WaitFacts(s, call);
    SubscribeKeeps(t, w.peer, w.name, w.what, w.format);
    if Held(t, w.name) && t.subscriptions[w.name] == w.record && t.records[w.record].promise.Fulfilled? {
      ClaimKeeps(t, w.peer, w.name);
      ClaimRegistered(t, w.peer, w.name);
    }
  }

  lemma WaitFacts(s: Ledger, call: nat)
    requires Inv(s) && call in s.waits
    ensures WaitOk(s, call)
  {
  }

  // ---------------------------------------------------------------------------------------
  // Unsubscribing and releasing
  // ---------------------------------------------------------------------------------------

  /** Dropping ownership keeps the invariant exactly when the record's subscribe is not in flight. */
  lemma DropKeepsIff(s: Ledger, p: Peer, n: string)
    requires Inv(s) && p in s.owned
    ensures Inv(Drop(s, p, n).ledger) <==> !(Owns(s, p, n) && RecordOf(s, n).promise.Open?)
  {
    hide Inv;
    if Owns(s, p, n) && RecordOf(s, n).promise.Open? {
      DropInFlight(s, p, n);
    } else {
      DropKeeps(s, p, n);
    }
  }

  lemma OneOwner(owners: set<Peer>, p: Peer)
    requires |owners| == 1 && p in owners
    ensures owners == {p}
  {
    assert |owners - {p}| == 0;
  }

  lemma DropInFlight(s: Ledger, p: Peer, n: string)
    requires Inv(s) && Owns(s, p, n) && RecordOf(s, n).promise.Open?
    ensures !Inv(Drop(s, p, n).ledger)
  {
    var r := s.subscriptions[n];
    var t := Drop(s, p, n).ledger;
    assert NameOk(s, n) && RecordOk(s, r);
    OneOwner(s.records[r].owners, p);
    assert n !in t.subscriptions && t.records[r].promise.Open? && t.records[r].name == n;
    assert !RecordOk(t, r);
  }

  lemma DropAgrees(s: Ledger, p: Peer, n: string, i: nat, q: Peer, m: string)
    requires NameOk(s, n) && p in s.owned
    ensures var t := Drop(s, p, n).ledger;
            RecordsAgree(s, t, n, i) && NamesAgree(s, t, n, m) && OwnedAgree(s, t, n, q, m)
  {
  }

  lemma DropRest(s: Ledger, p: Peer, n: string)
    requires p in s.owned
    ensures var t := Drop(s, p, n).ledger;
            && t.registered == s.registered && s.owned.Keys <= t.owned.Keys && t.waits == s.waits && t.calls == s.calls
            && |s.records| <= |t.records|
  {
  }

  lemma DropOnlyName(s: Ledger, p: Peer, n: string)
    requires NameOk(s, n) && p in s.owned
    ensures OnlyName(s, Drop(s, p, n).ledger, n)
  {
    hide NameOk, Drop, RecordsAgree, NamesAgree, OwnedAgree;
    DropRest(s, p, n);
    forall i: nat ensures RecordsAgree(s, Drop(s, p, n).ledger, n, i) { DropAgrees(s, p, n, i, p, n); }
    forall m: string ensures NamesAgree(s, Drop(s, p, n).ledger, n, m) { DropAgrees(s, p, n, 0, p, m); }
    forall q: Peer, m: string ensures OwnedAgree(s, Drop(s, p, n).ledger, n, q, m) { DropAgrees(s, p, n, 0, q, m); }
  }

  lemma InvName(s: Ledger, n: string)
    requires Inv(s)
    ensures NameOk(s, n)
  {
  }

  lemma InvOwner(s: Ledger, p: Peer, n: string)
    requires Inv(s)
    ensures OwnsOk(s, p, n)
  {
  }

  lemma DropHistory(s: Ledger, p: Peer, n: string)
    requires Inv(s) && p in s.owned && !(Owns(s, p, n) && RecordOf(s, n).promise.Open?)
    ensures NameOk(Drop(s, p, n).ledger, n) && HistoryOk(Drop(s, p, n).ledger, n)
  {
    hide Alternates;
    assert NameOk(s, n) && HistoryOk(s, n) && OwnsOk(s, p, n);
    AlternatesPlus(HistoryOf(s, n), Unsubscribed);
  }

  lemma DropOwners(s: Ledger, p: Peer, n: string, q: Peer)
    requires NameOk(s, n) && OwnsOk(s, q, n) && p in s.owned
    ensures OwnsOk(Drop(s, p, n).ledger, q, n)
  {
    hide HistoryOf;
    if Held(s, n) && q != p && q in RecordOf(s, n).owners {
      assert q in RecordOf(s, n).owners - {p};
    }
  }

  lemma DropRecords(s: Ledger, p: Peer, n: string, i: nat)
    requires Inv(s) && p in s.owned && !(Owns(s, p, n) && RecordOf(s, n).promise.Open?)
    requires i < |Drop(s, p, n).ledger.records| && Drop(s, p, n).ledger.records[i].name == n
    ensures RecordOk(Drop(s, p, n).ledger, i)
  {
    assert NameOk(s, n) && RecordOk(s, i);
    hide HistoryOf, HistoryOk, Inv, OwnsOk, WaitOk;
    if Held(s, n) && s.subscriptions[n] == i && s.records[i].promise.Open? {
      assert p !in s.records[i].owners;
      assert s.records[i].owners - {p} == s.records[i].owners;
    }
  }

  lemma DropKeeps(s: Ledger, p: Peer, n: string)
    requires Inv(s) && p in s.owned && !(Owns(s, p, n) && RecordOf(s, n).promise.Open?)
    ensures Inv(Drop(s, p, n).ledger)
  {
    hide Inv, Drop, NameOk, HistoryOk, OwnsOk, RecordOk, OnlyName;
    var t := Drop(s, p, n).ledger;
    InvName(s, n);
    DropOnlyName(s, p, n);
    DropHistory(s, p, n);
    forall q ensures OwnsOk(t, q, n) {
      InvOwner(s, q, n);
      DropOwners(s, p, n, q);
    }
    forall i: nat | i < |t.records| && t.records[i].name == n ensures RecordOk(t, i) { DropRecords(s, p, n, i); }
    OnlyNameKeeps(s, t, n);
  }

  lemma UnsubscribeKeeps(s: Ledger, p: Peer, n: string)
    requires Inv(s)
    ensures Inv(Unsubscribe(s, p, n).ledger)
  {
    hide Inv, Drop;
    if p in s.registered && n in OwnedBy(s, p) {
      assert p in s.owned;
      if Held(s, n) && RecordOf(s, n).promise.Open? {
        HeldFacts(s, n);
        WaitKeeps(s, Unsub(p, n, s.subscriptions[n]));
      } else {
        DropKeeps(s, p, n);
      }
    }
  }

  lemma UnsubResumesKeepsIff(s: Ledger, call: nat)
    requires Inv(s) && Resumable(s, call) && s.waits[call].Unsub?
    ensures Inv(UnsubResumes(s, call, s.waits[call]).ledger) <==> !MeetsInflight(s, s.waits[call])
  {
    hide Inv, Drop;
    UnwaitKeeps(s, call);
    WaitFacts(s, call);
    var w := s.waits[call];
    if w.name in OwnedBy(s, w.peer) {
      DropKeepsIff(Unwait(s, call), w.peer, w.name);
    }
  }

  predicate NamedOk(s: Ledger, m: string) {
    Held(s, m) ==> RecordOf(s, m).name == m
  }

  /** A registered record bears its name. */
  ghost predicate WellNamed(s: Ledger) {
    forall m :: NamedOk(s, m)
  }

  lemma InvIsWellNamed(s: Ledger)
    requires Inv(s)
    ensures WellNamed(s)
  {
    forall m ensures NamedOk(s, m) {
      assert NameOk(s, m);
    }
  }

  /** Releasing the names of a set is releasing each of them, whatever the order. */
  lemma ReleaseNamesStep(s: Ledger, p: Peer, names: set<string>, n: string)
    requires n !in names && WellNamed(s)
    ensures var t := ReleaseName(ReleaseNames(s, p, names), n, p);
            var u := ReleaseNames(s, p, names + {n});
            t == u.(history := t.history) && forall m :: HistoryOf(t, m) == HistoryOf(u, m)
  {
    hide ReleaseName, ReleaseNames, HistoryOf;
    var t := ReleaseName(ReleaseNames(s, p, names), n, p);
    var u := ReleaseNames(s, p, names + {n});
    StepSubscriptions(s, p, names, n);
    forall m ensures HistoryOf(t, m) == HistoryOf(u, m) {
      StepHistory(s, p, names, n, m);
    }
    forall i: nat | i < |s.records| ensures t.records[i] == u.records[i] {
      StepRecord(s, p, names, n, i);
    }
    assert t.records == u.records;
  }

  lemma ReleaseNamesOther(s: Ledger, p: Peer, names: set<string>, n: string)
    requires n !in names && WellNamed(s)
    ensures var a := ReleaseNames(s, p, names);
            && (Held(a, n) <==> Held(s, n)) && (Held(s, n) ==> a.subscriptions[n] == s.subscriptions[n] && RecordOf(a, n) == RecordOf(s, n))
            && HistoryOf(a, n) == HistoryOf(s, n)
  {
    if Held(s, n) {
      var i := s.subscriptions[n];
      assert NamedOk(s, n);
      assert forall m | m in names && Held(s, m) && s.subscriptions[m] == i :: NamedOk(s, m) && RecordOf(s, m).name == m;
    }
  }

  lemma LastOwnedStep(s: Ledger, p: Peer, names: set<string>, n: string)
    ensures LastOwned(s, p, names + {n}) == LastOwned(s, p, names) + LastOwned(s, p, {n})
  {
  }

  /** What releasing one name does, field by field. */
  lemma ReleaseNameIs(s: Ledger, n: string, p: Peer)
    ensures var last := Held(s, n) && RecordOf(s, n).owners - {p} == {};
            var t := ReleaseName(s, n, p);
            && t == s.(records := t.records, history := t.history, subscriptions := s.subscriptions - if last then {n} else {})
            && |t.records| == |s.records|
  {
    hide HistoryOf;
    var none: set<string> := {};
    assert s.subscriptions - none == s.subscriptions;
  }

  lemma StepSubscriptions(s: Ledger, p: Peer, names: set<string>, n: string)
    requires n !in names && WellNamed(s)
    ensures var t := ReleaseName(ReleaseNames(s, p, names), n, p);
            var u := ReleaseNames(s, p, names + {n});
            && t == u.(history := t.history, records := t.records) && |t.records| == |u.records| == |s.records|
  {
    hide HistoryOf, Disowned, WellNamed, ReleaseName, LastOwned;
    ReleaseNamesOther(s, p, names, n);
    LastOwnedStep(s, p, names, n);
    LastOwnedOne(s, p, n);
    ReleaseNameIs(ReleaseNames(s, p, names), n, p);
    var t := ReleaseName(ReleaseNames(s, p, names), n, p);
    assert t.subscriptions == ReleaseNames(s, p, names + {n}).subscriptions;
  }

  lemma LastOwnedOne(s: Ledger, p: Peer, n: string)
    ensures LastOwned(s, p, {n}) == if Held(s, n) && RecordOf(s, n).owners - {p} == {} then {n} else {}
  {
  }

  lemma ReleaseNameHistory(s: Ledger, n: string, p: Peer, m: string)
    ensures var last := Held(s, n) && RecordOf(s, n).owners - {p} == {};
            HistoryOf(ReleaseName(s, n, p), m) == HistoryOf(s, m) + if m == n && last then [Unsubscribed] else []
  {
    assert HistoryOf(s, m) + [] == HistoryOf(s, m);
  }

  lemma ReleaseNamesHistory(s: Ledger, p: Peer, names: set<string>, m: string)
    ensures HistoryOf(ReleaseNames(s, p, names), m) == HistoryOf(s, m) + if m in LastOwned(s, p, names) then [Unsubscribed] else []
  {
    hide LastOwned, Disowned;
    assert HistoryOf(s, m) + [] == HistoryOf(s, m);
  }

  lemma StepHistory(s: Ledger, p: Peer, names: set<string>, n: string, m: string)
    requires n !in names && WellNamed(s)
    ensures HistoryOf(ReleaseName(ReleaseNames(s, p, names), n, p), m) == HistoryOf(ReleaseNames(s, p, names + {n}), m)
  {
    hide Disowned, WellNamed, ReleaseName, ReleaseNames, HistoryOf, LastOwned;
    ReleaseNamesOther(s, p, names, n);
    LastOwnedStep(s, p, names, n);
    LastOwnedOne(s, p, n);
    LastOwnedWithin(s, p, names);
    ReleaseNameHistory(ReleaseNames(s, p, names), n, p, m);
    ReleaseNamesHistory(s, p, names, m);
    ReleaseNamesHistory(s, p, names + {n}, m);
    assert HistoryOf(s, m) + [] == HistoryOf(s, m);
  }

  lemma LastOwnedWithin(s: Ledger, p: Peer, names: set<string>)
    ensures LastOwned(s, p, names) <= names
  {
  }

  lemma StepRecord(s: Ledger, p: Peer, names: set<string>, n: string, i: nat)
    requires n !in names && WellNamed(s) && i < |s.records|
    ensures var t := ReleaseName(ReleaseNames(s, p, names), n, p);
            |t.records| == |s.records| && t.records[i] == Disowned(s, p, names + {n}, i) == ReleaseNames(s, p, names + {n}).records[i]
  {
    hide HistoryOf, WellNamed;
    ReleaseNamesOther(s, p, names, n);
  }

  lemma ReleaseNameFacts(s: Ledger, p: Peer, n: string)
    requires Inv(s) && p in s.registered && !SubscribeWaits(s, p)
    ensures var t := Release(s, p);
            && NameOk(t, n) && HistoryOk(t, n) && forall q :: OwnsOk(t, q, n)
  {
    hide Alternates, SubscribeWaits, Release;
    assert NameOk(s, n) && HistoryOk(s, n) && OwnsOk(s, p, n);
    assert HistoryOf(s, n) + [] == HistoryOf(s, n);
    AlternatesPlus(HistoryOf(s, n), Unsubscribed);
    ReleasedName(s, p, n);
    ReleasedHistory(s, p, n);
    OwnersConfirmed(s, p, n);
    var t := Release(s, p);
    forall q ensures OwnsOk(t, q, n) {
      assert OwnsOk(s, q, n);
    }
  }

  /** A peer with no waiting subscribe owns only confirmed records. */
  lemma OwnersConfirmed(s: Ledger, p: Peer, n: string)
    requires Inv(s) && !SubscribeWaits(s, p)
    ensures Owns(s, p, n) ==> RecordOf(s, n).promise.Fulfilled?
  {
    hide HistoryOf, Alternates;
    if Owns(s, p, n) {
      assert NameOk(s, n);
      assert !FirstWaits(s, p, s.subscriptions[n]);
    }
  }

  /** What a release does to one name. */
  lemma ReleasedName(s: Ledger, p: Peer, n: string)
    requires Inv(s) && p in s.registered
    ensures var t := Release(s, p);
            && t.registered == s.registered - {p} && t.owned == s.owned && |t.records| == |s.records|
            && (n in t.subscriptions <==> n in s.subscriptions && !(Owns(s, p, n) && RecordOf(s, n).owners - {p} == {}))
            && (n in t.subscriptions ==> t.subscriptions[n] == s.subscriptions[n])
            && (Held(s, n) ==> t.records[s.subscriptions[n]] == RecordOf(s, n).(owners := RecordOf(s, n).owners - {p}))
  {
    hide HistoryOf, Alternates, HistoryOk;
    assert NameOk(s, n) && OwnsOk(s, p, n);
    if Held(s, n) {
      var i := s.subscriptions[n];
      if n !in OwnedBy(s, p) {
        assert forall m | m in OwnedBy(s, p) && Held(s, m) && s.subscriptions[m] == i :: NameOk(s, m) && m == n;
        assert p !in RecordOf(s, n).owners;
        assert RecordOf(s, n).owners - {p} == RecordOf(s, n).owners;
      }
    }
  }

  lemma ReleasedHistory(s: Ledger, p: Peer, n: string)
    requires Inv(s) && p in s.registered
    ensures var t := Release(s, p);
            HistoryOf(t, n) == HistoryOf(s, n) + if Owns(s, p, n) && RecordOf(s, n).owners - {p} == {} then [Unsubscribed] else []
  {
    hide Alternates, HistoryOk;
    assert NameOk(s, n) && OwnsOk(s, p, n);
    assert HistoryOf(s, n) + [] == HistoryOf(s, n);
  }

  /** A release leaves every record as it was, but for this owner. */
  lemma ReleasedRecord(s: Ledger, p: Peer, i: nat)
    requires Inv(s) && p in s.registered && i < |s.records|
    ensures var t := Release(s, p);
            && |t.records| == |s.records| && t.records[i].name == s.records[i].name && t.records[i].promise == s.records[i].promise
            && (t.records[i] == s.records[i] || t.records[i].owners == s.records[i].owners - {p})
  {
    hide HistoryOf, HistoryOk, OwnsOk, NameOk;
  }

  lemma ReleasedInFlight(s: Ledger, p: Peer, i: nat)
    requires Inv(s) && p in s.registered && !SubscribeWaits(s, p)
    ensures RecordOk(Release(s, p), i)
  {
    hide HistoryOf, HistoryOk, SubscribeWaits, Release;
    if i < |s.records| && s.records[i].promise.Open? {
      var n := s.records[i].name;
      assert RecordOk(s, i) && NameOk(s, n);
      ReleasedName(s, p, n);
      ReleasedRecord(s, p, i);
      OwnersConfirmed(s, p, n);
      assert s.records[i].owners - {p} == s.records[i].owners;
    } else if i < |s.records| {
      ReleasedRecord(s, p, i);
    } else {
      ReleasedName(s, p, "");
    }
  }

  lemma ReleasedWait(s: Ledger, p: Peer, call: nat)
    requires Inv(s) && p in s.registered && !SubscribeWaits(s, p)
    ensures WaitOk(Release(s, p), call)
  {
    hide HistoryOf, HistoryOk, OwnsOk, NameOk, RecordOk;
    assert WaitOk(s, call);
    if call in s.waits {
      ReleasedRecord(s, p, s.waits[call].record);
      assert !JoinWaits(s, p, call);
    }
  }

  lemma ReleaseKeeps(s: Ledger, p: Peer)
    requires Inv(s) && !SubscribeWaits(s, p)
    ensures Inv(Release(s, p))
  {
    hide OwnsOk, NameOk, RecordOk, HistoryOk, WaitOk, SubscribeWaits;
    if p in s.registered {
      var t := Release(s, p);
      forall n ensures NameOk(t, n) && HistoryOk(t, n) { ReleaseNameFacts(s, p, n); }
      forall q, n ensures OwnsOk(t, q, n) { ReleaseNameFacts(s, p, n); }
      forall i ensures RecordOk(t, i) { ReleasedInFlight(s, p, i); }
      forall call ensures WaitOk(t, call) { ReleasedWait(s, p, call); }
    }
  }

  /** A release breaks the invariant as soon as the peer's own subscribe is still waiting. */
  lemma ReleaseKeepsIff(s: Ledger, p: Peer)
    requires Inv(s) && p in s.registered
    ensures Inv(Release(s, p)) <==> !SubscribeWaits(s, p)
  {
    hide Inv, Release;
    if !SubscribeWaits(s, p) {
      ReleaseKeeps(s, p);
    } else if i :| FirstWaits(s, p, i) {
      ReleaseForgetsFirst(s, p, i);
    } else {
      var call :| JoinWaits(s, p, call);
      ReleaseForgetsJoin(s, p, call);
    }
  }

  lemma ReleaseForgetsFirst(s: Ledger, p: Peer, i: nat)
    requires Inv(s) && p in s.registered && FirstWaits(s, p, i)
    ensures !Inv(Release(s, p))
  {
    hide Release, HistoryOk, HistoryOf;
    var n := s.records[i].name;
    assert RecordOk(s, i) && NameOk(s, n);
    OneOwner(s.records[i].owners, p);
    ReleasedName(s, p, n);
    ReleasedRecord(s, p, i);
    assert !RecordOk(Release(s, p), i);
  }

  lemma ReleaseForgetsJoin(s: Ledger, p: Peer, call: nat)
    requires Inv(s) && p in s.registered && JoinWaits(s, p, call)
    ensures !Inv(Release(s, p))
  {
    hide HistoryOk, HistoryOf, OwnsOk, NameOk, RecordOk;
    assert !WaitOk(Release(s, p), call);
  }

  /** The promise of the record the call waits on comes true, if it is still open. */
  function Confirmed(s: Ledger, r: nat): Ledger
    requires r < |s.records|
  {
    if s.records[r].promise.Open? then Settle(s, r, true).ledger else s
  }

  /**
    What goes wrong when the waiting subscribe is a join: it resumes into a record that outlived the release and makes
    the released peer an owner of it, which no later call of that peer can undo.
   */
  lemma ReleasedJoinOwns(s: Ledger, p: Peer, call: nat)
    requires Inv(s) && p in s.registered && JoinWaits(s, p, call) && s.waits[call].name !in OwnedBy(s, p)
    requires var w := s.waits[call]; Held(s, w.name) && s.subscriptions[w.name] == w.record
    ensures var w := s.waits[call];
            && w.record < |Release(s, p).records|
            && var t := Confirmed(Release(s, p), w.record);
            && Resumable(t, call) && t.waits[call] == w
            && var u := JoinResumes(t, call, w).ledger;
            && p !in u.registered && Owns(u, p, w.name)
            && Unsubscribe(u, p, w.name).ledger == Release(u, p) == u
  {
    hide HistoryOk, HistoryOf;
    var w := s.waits[call];
    assert NameOk(s, w.name) && OwnsOk(s, p, w.name);
    hide NameOk, OwnsOk, RecordOk, WaitOk, Release;
    ReleasedName(s, p, w.name);
    ReleasedWaits(s, p);
    ReleaseUnregistered(JoinResumes(Confirmed(Release(s, p), w.record), call, w).ledger, p);
  }

  lemma ReleasedWaits(s: Ledger, p: Peer)
    ensures Release(s, p).waits == s.waits
  {
  }

  // ---------------------------------------------------------------------------------------
  // Whole runs
  // ---------------------------------------------------------------------------------------

  lemma RegisterKeeps(s: Ledger, p: Peer)
    requires Inv(s) && p !in s.owned
    ensures Inv(Register(s, p).ledger)
  {
    hide Alternates;
    var t := Register(s, p).ledger;
    assert p !in s.registered;
    forall q, n ensures OwnsOk(t, q, n) { assert OwnsOk(s, q, n) && NameOk(s, n); }
    forall n ensures NameOk(t, n) { assert NameOk(s, n); }
    forall i ensures RecordOk(t, i) { assert RecordOk(s, i); }
    forall n ensures HistoryOk(t, n) { assert HistoryOk(s, n); }
    forall call ensures WaitOk(t, call) { assert WaitOk(s, call); }
  }

  lemma NoneWaits(s: Ledger, p: Peer)
    requires Inv(s) && p !in s.registered
    ensures !SubscribeWaits(s, p)
  {
    hide Alternates, HistoryOf;
    forall i: nat ensures !FirstWaits(s, p, i) {
      if i < |s.records| && s.records[i].promise.Open? {
        assert RecordOk(s, i) && NameOk(s, s.records[i].name);
      }
    }
    forall call: nat ensures !JoinWaits(s, p, call) {
      assert WaitOk(s, call);
    }
  }

  /**
    Every step keeps the invariant exactly when it respects the schedule limits: a peer is not released while
    its own subscribe waits, and no unsubscribe resumes into a record of its peer that is still in flight.
   */
  lemma StepKeepsIff(s: Ledger, step: Step)
    requires Inv(s) && Enabled(s, step)
    ensures Inv(Take(s, step).ledger) <==> Allowed(s, step)
  {
    hide Inv, Register, Subscribe, Unsubscribe, Settle, JoinResumes, UnsubResumes, Release, SubscribeWaits;
    match step
    case DoRegister(p) => RegisterKeeps(s, p);
    case DoSubscribe(p, n, what, format) => SubscribeKeeps(s, p, n, what, format);
    case DoUnsubscribe(p, n) => UnsubscribeKeeps(s, p, n);
    case DoSettle(r, ok) =>
      if ok { SettleOkKeeps(s, r); } else { SettleBadKeeps(s, r); }
    case DoResume(call) =>
      if s.waits[call].Join? { JoinResumesKeeps(s, call); } else { UnsubResumesKeepsIff(s, call); }
    case DoRelease(p) =>
      if p in s.registered {
        ReleaseKeepsIff(s, p);
      } else {
        NoneWaits(s, p);
        ReleaseUnregistered(s, p);
      }
  }

  lemma ReleaseUnregistered(s: Ledger, p: Peer)
    requires p !in s.registered
    ensures Release(s, p) == s
  {
  }

  ghost predicate CanRun(s: Ledger, steps: seq<Step>)
    decreases |steps|
  {
    steps == [] || (Allowed(s, steps[0]) && CanRun(Take(s, steps[0]).ledger, steps[1..]))
  }

  ghost function Run(s: Ledger, steps: seq<Step>): Ledger
    requires CanRun(s, steps)
    decreases |steps|
  {
    if steps == [] then s else Run(Take(s, steps[0]).ledger, steps[1..])
  }

  lemma {:induction false} RunKeepsInv(s: Ledger, steps: seq<Step>)
    requires Inv(s) && CanRun(s, steps)
    ensures Inv(Run(s, steps))
    decreases |steps|
  {
    hide Inv, Take, Allowed;
    if steps != [] {
      assert Enabled(s, steps[0]) by { AllowedEnabled(s, steps[0]); }
      StepKeepsIff(s, steps[0]);
      RunKeepsInv(Take(s, steps[0]).ledger, steps[1..]);
    }
  }

  lemma AllowedEnabled(s: Ledger, step: Step)
    requires Allowed(s, step)
    ensures Enabled(s, step)
  {
  }

  lemma InitInv()
    ensures Inv(INIT)
  {
  }

  /**
    Over every run within the limits: a name is in a registered peer's set exactly when the peer owns the
    registered record; registered records have owners; and for each name the confirmed subscribes and the
    unsubscribes sent alternate, tmux holding the name exactly when its registered record is confirmed.
   */
  lemma LedgerAgrees(steps: seq<Step>, p: Peer, n: string)
    requires CanRun(INIT, steps)
    ensures var s := Run(INIT, steps);
            && (p in s.registered ==> (n in OwnedBy(s, p) <==> Owns(s, p, n)))
            && (n in s.subscriptions ==> Held(s, n) && RecordOf(s, n).owners != {})
            && Alternates(HistoryOf(s, n))
            && (|HistoryOf(s, n)| % 2 == 1 <==> Held(s, n) && RecordOf(s, n).promise.Fulfilled?)
  {
    hide Run, CanRun, Alternates;
    InitInv();
    RunKeepsInv(INIT, steps);
    var s := Run(INIT, steps);
    assert OwnsOk(s, p, n) && NameOk(s, n) && HistoryOk(s, n);
  }

  /** Every step is one that can happen. */
  ghost predicate CanHappen(s: Ledger, steps: seq<Step>)
    decreases |steps|
  {
    steps == [] || (Enabled(s, steps[0]) && CanHappen(Take(s, steps[0]).ledger, steps[1..]))
  }

  /** The ledger is consistent now and after every step. */
  ghost predicate AlwaysConsistent(s: Ledger, steps: seq<Step>)
    requires CanHappen(s, steps)
    decreases |steps|
  {
    Inv(s) && (steps == [] || AlwaysConsistent(Take(s, steps[0]).ledger, steps[1..]))
  }

  lemma {:induction false} ConsistentFromIff(s: Ledger, steps: seq<Step>)
    requires Inv(s) && CanHappen(s, steps)
    ensures AlwaysConsistent(s, steps) <==> CanRun(s, steps)
    decreases |steps|
  {
    hide Inv, Take, Allowed, Enabled;
    if steps != [] {
      StepKeepsIff(s, steps[0]);
      var t := Take(s, steps[0]).ledger;
      if Inv(t) {
        ConsistentFromIff(t, steps[1..]);
      }
    }
  }

  /** Over every run that can happen: the ledger is consistent at every point exactly when every step respects the schedule limits. */
  lemma ConsistentThroughoutIff(steps: seq<Step>)
    requires CanHappen(INIT, steps)
    ensures AlwaysConsistent(INIT, steps) <==> CanRun(INIT, steps)
  {
    hide Inv, CanHappen, AlwaysConsistent, CanRun;
    InitInv();
    ConsistentFromIff(INIT, steps);
  }

  /** Over every run within the limits a registered record bears its name, which is what releasing a peer's names relies on. */
  lemma AlwaysWellNamed(steps: seq<Step>)
    requires CanRun(INIT, steps)
    ensures WellNamed(Run(INIT, steps))
  {
    hide Inv, WellNamed, Run, CanRun;
    InitInv();
    RunKeepsInv(INIT, steps);
    InvIsWellNamed(Run(INIT, steps));
  }

  predicate InFlight(s: Ledger, n: string) {
    exists i: nat | i < |s.records| :: s.records[i].name == n && s.records[i].promise.Open?
  }

  /** Commands for one name are serial: neither kind is sent while a subscribe for the name is in flight. */
  lemma CommandsAreSerial(s: Ledger, t: Ledger, n: string)
    requires Inv(s) && Inv(t)
    requires HistoryOf(t, n) == HistoryOf(s, n) + [Unsubscribed]
          || (s.records < t.records && t.records[|s.records|].name == n && t.records[|s.records|].promise.Open?)
    ensures !InFlight(s, n)
  {
    if HistoryOf(t, n) == HistoryOf(s, n) + [Unsubscribed] {
      assert HistoryOk(s, n) && HistoryOk(t, n);
      AlternatesPlus(HistoryOf(s, n), Unsubscribed);
    }
    forall i: nat | i < |s.records| && s.records[i].name == n ensures !s.records[i].promise.Open? {
      assert RecordOk(s, i);
      if s.records < t.records && t.records[|s.records|].promise.Open? {
        assert RecordOk(t, i) && RecordOk(t, |s.records|);
        assert t.records[i] == s.records[i];
      }
    }
  }

  // ---------------------------------------------------------------------------------------
  // Which callers stay within the limits, and what happens outside them
  // ---------------------------------------------------------------------------------------

  predicate UnsubWaits(s: Ledger, p: Peer, n: string, call: nat) {
    call in s.waits && s.waits[call].Unsub? && s.waits[call].peer == p && s.waits[call].name == n
  }

  predicate JoinFor(s: Ledger, p: Peer, n: string, call: nat) {
    call in s.waits && s.waits[call].Join? && s.waits[call].peer == p && s.waits[call].name == n
  }

  /** A peer does not subscribe to a name while its unsubscribe of it waits, nor unsubscribe while it waits to join. */
  ghost predicate Disciplined(s: Ledger, step: Step) {
    && Enabled(s, step)
    && match step
       case DoSubscribe(p, n, _, _) => forall call :: !UnsubWaits(s, p, n, call)
       case DoUnsubscribe(p, n) => forall call :: !JoinFor(s, p, n, call)
       case DoRelease(p) => !SubscribeWaits(s, p)
       case _ => true
  }

  /** A waiting unsubscribe's peer still owns, if anything, the record it waits on; it waits for nothing else of that name. */
  predicate UnsubTidy(s: Ledger, call: nat) {
    call in s.waits && s.waits[call].Unsub? ==>
      var w := s.waits[call];
      Owns(s, w.peer, w.name) ==> s.subscriptions[w.name] == w.record
  }

  predicate Apart(s: Ledger, c: nat, d: nat) {
    c in s.waits && s.waits[c].Unsub? ==> !JoinFor(s, s.waits[c].peer, s.waits[c].name, d)
  }

  ghost predicate Tidy(s: Ledger) {
    (forall call :: UnsubTidy(s, call)) && forall c, d :: Apart(s, c, d)
  }

  /** `p` gained nothing of `n`. */
  predicate NoGain(s: Ledger, t: Ledger, p: Peer, n: string) {
    Owns(t, p, n) ==> Owns(s, p, n) && t.subscriptions[n] == s.subscriptions[n]
  }

  /** No waiting call was added. */
  predicate NoNewWait(s: Ledger, t: Ledger, call: nat) {
    call in t.waits ==> call in s.waits && t.waits[call] == s.waits[call]
  }

  lemma TidyKept(s: Ledger, t: Ledger)
    requires Tidy(s) && forall call :: NoNewWait(s, t, call)
    requires forall p, n, call | UnsubWaits(t, p, n, call) :: NoGain(s, t, p, n)
    ensures Tidy(t)
  {
    forall call ensures UnsubTidy(t, call) {
      assert UnsubTidy(s, call) && NoNewWait(s, t, call);
      if call in t.waits && t.waits[call].Unsub? {
        assert UnsubWaits(t, t.waits[call].peer, t.waits[call].name, call);
      }
    }
    forall c, d ensures Apart(t, c, d) {
      assert Apart(s, c, d) && NoNewWait(s, t, c) && NoNewWait(s, t, d);
    }
  }

  /** A subscribe changes ownership of its own peer and name only. */
  lemma SubscribeGains(s: Ledger, q: Peer, m: string, what: string, format: string, p: Peer, n: string)
    requires Inv(s) && !(p == q && n == m)
    ensures NoGain(s, Subscribe(s, q, m, what, format).ledger, p, n)
  {
    hide HistoryOk, HistoryOf, RecordOk, WaitOk;
    assert NameOk(s, n) && NameOk(s, m);
  }

  lemma SubscribeWaitsTidy(s: Ledger, q: Peer, m: string, what: string, format: string)
    requires Inv(s) && Tidy(s) && forall call :: !UnsubWaits(s, q, m, call)
    ensures Tidy(Subscribe(s, q, m, what, format).ledger)
  {
    hide Inv, Claim, FirstSubscribe, Owns;
    var t := Subscribe(s, q, m, what, format).ledger;
    if t.waits == s.waits {
      forall p, n, call | UnsubWaits(t, p, n, call) ensures NoGain(s, t, p, n) {
        assert UnsubWaits(s, p, n, call);
        SubscribeGains(s, q, m, what, format, p, n);
      }
      assert forall call :: NoNewWait(s, t, call);
      TidyKept(s, t);
    } else {
      SubscribeJoins(s, q, m, what, format);
      AddJoin(s, s.calls, t.waits[s.calls]);
    }
  }

  lemma SubscribeJoins(s: Ledger, q: Peer, m: string, what: string, format: string)
    requires Subscribe(s, q, m, what, format).ledger.waits != s.waits
    ensures Held(s, m) && Subscribe(s, q, m, what, format).ledger
         == s.(waits := s.waits[s.calls := Join(q, m, what, format, s.subscriptions[m])], calls := s.calls + 1)
  {
  }

  lemma AddJoin(s: Ledger, call: nat, w: Wait)
    requires Inv(s) && Tidy(s) && call == s.calls && w.Join? && forall c :: !UnsubWaits(s, w.peer, w.name, c)
    ensures Tidy(s.(waits := s.waits[call := w], calls := call + 1))
  {
    var t := s.(waits := s.waits[call := w], calls := call + 1);
    assert WaitOk(s, call);
    forall c ensures UnsubTidy(t, c) { assert UnsubTidy(s, c); }
    forall c, d ensures Apart(t, c, d) {
      assert Apart(s, c, d);
      if c in s.waits && s.waits[c].Unsub? {
        assert UnsubWaits(s, s.waits[c].peer, s.waits[c].name, c);
      }
    }
  }

  lemma AddUnsub(s: Ledger, p: Peer, n: string)
    requires Inv(s) && Tidy(s) && Held(s, n) && forall d :: !JoinFor(s, p, n, d)
    ensures Tidy(AddWait(s, Unsub(p, n, s.subscriptions[n])).ledger)
  {
    var t := AddWait(s, Unsub(p, n, s.subscriptions[n])).ledger;
    assert WaitOk(s, s.calls);
    forall c ensures UnsubTidy(t, c) { assert UnsubTidy(s, c); }
    forall c, d ensures Apart(t, c, d) {
      assert Apart(s, c, d) && !JoinFor(s, p, n, d);
    }
  }

  lemma UnwaitTidy(s: Ledger, call: nat)
    requires Tidy(s)
    ensures Tidy(Unwait(s, call))
  {
    var t := Unwait(s, call);
    assert forall c :: NoNewWait(s, t, c);
    assert forall p, n :: NoGain(s, t, p, n);
    TidyKept(s, t);
  }

  lemma DropTidy(s: Ledger, p: Peer, n: string)
    requires Inv(s) && Tidy(s)
    ensures Tidy(Drop(s, p, n).ledger)
  {
    var t := Drop(s, p, n).ledger;
    assert forall c :: NoNewWait(s, t, c);
    forall q, m ensures NoGain(s, t, q, m) {
      hide HistoryOk, HistoryOf, RecordOk, WaitOk, Tidy;
      assert NameOk(s, n) && NameOk(s, m);
    }
    TidyKept(s, t);
  }

  lemma SettleTidy(s: Ledger, r: nat, ok: bool)
    requires Inv(s) && Tidy(s) && r < |s.records| && s.records[r].promise.Open?
    ensures Tidy(Settle(s, r, ok).ledger)
  {
    var t := Settle(s, r, ok).ledger;
    assert forall c :: NoNewWait(s, t, c);
    forall q, m ensures NoGain(s, t, q, m) {
      hide HistoryOk, HistoryOf, WaitOk, Tidy;
      assert NameOk(s, m) && RecordOk(s, r);
    }
    TidyKept(s, t);
  }

  lemma ReleaseTidy(s: Ledger, p: Peer)
    requires Inv(s) && Tidy(s)
    ensures Tidy(Release(s, p))
  {
    var t := Release(s, p);
    if p in s.registered {
      assert forall c :: NoNewWait(s, t, c);
      forall q, m ensures NoGain(s, t, q, m) {
        hide Release, HistoryOf, Tidy, HistoryOk, RecordOk, WaitOk;
        assert NameOk(s, m);
        ReleasedName(s, p, m);
      }
      TidyKept(s, t);
    }
  }

  /** A joiner that resumes claims, or subscribes again, for a name it has no waiting unsubscribe of. */
  lemma JoinResumesTidy(s: Ledger, call: nat)
    requires Inv(s) && Tidy(s) && Resumable(s, call) && s.waits[call].Join?
    ensures Tidy(JoinResumes(s, call, s.waits[call]).ledger)
  {
    hide Inv, Subscribe, Claim;
    var w := s.waits[call];
    var t := Unwait(s, call);
    UnwaitTidy(s, call);
    UnwaitKeeps(s, call);
    forall c ensures !UnsubWaits(t, w.peer, w.name, c) {
      assert Apart(s, c, call);
    }
    SubscribeWaitsTidy(t, w.peer, w.name, w.what, w.format);
    if Held(s, w.name) && s.subscriptions[w.name] == w.record {
      ClaimTidy(t, w.peer, w.name);
    }
  }

  lemma ClaimTidy(s: Ledger, q: Peer, m: string)
    requires Inv(s) && Tidy(s) && Held(s, m) && forall c :: !UnsubWaits(s, q, m, c)
    ensures Tidy(Claim(s, q, m))
  {
    var t := Claim(s, q, m);
    assert forall c :: NoNewWait(s, t, c);
    forall p, n, call | UnsubWaits(t, p, n, call) ensures NoGain(s, t, p, n) {
      hide HistoryOk, HistoryOf, RecordOk, WaitOk, Tidy;
      assert UnsubWaits(s, p, n, call);
      assert NameOk(s, n) && NameOk(s, m);
    }
    TidyKept(s, t);
  }

  /** Callers that respect the discipline never leave the schedule limits. */
  lemma DisciplineSuffices(s: Ledger, step: Step)
    requires Inv(s) && Tidy(s) && Disciplined(s, step)
    ensures Allowed(s, step) && Inv(Take(s, step).ledger) && Tidy(Take(s, step).ledger)
  {
    hide Inv, Tidy, Register, Subscribe, Unsubscribe, Settle, JoinResumes, UnsubResumes, Release, SubscribeWaits;
    StepKeepsIff(s, step);
    match step
    case DoRegister(p) => RegisterTidy(s, p);
    case DoSubscribe(p, n, what, format) => SubscribeWaitsTidy(s, p, n, what, format);
    case DoUnsubscribe(p, n) => UnsubscribeTidy(s, p, n);
    case DoSettle(r, ok) => SettleTidy(s, r, ok);
    case DoResume(call) =>
      if s.waits[call].Join? {
        JoinResumesTidy(s, call);
      } else {
        UnsubResumesTidy(s, call);
      }
    case DoRelease(p) => ReleaseTidy(s, p);
  }

  lemma RegisterTidy(s: Ledger, p: Peer)
    requires Inv(s) && Tidy(s)
    ensures Tidy(Register(s, p).ledger)
  {
    var t := Register(s, p).ledger;
    assert forall c :: NoNewWait(s, t, c);
    assert forall q, n :: NoGain(s, t, q, n);
    TidyKept(s, t);
  }

  lemma UnsubscribeTidy(s: Ledger, p: Peer, n: string)
    requires Inv(s) && Tidy(s) && forall d :: !JoinFor(s, p, n, d)
    ensures Tidy(Unsubscribe(s, p, n).ledger)
  {
    hide Inv, Tidy, Drop, AddWait;
    if p in s.registered && n in OwnedBy(s, p) {
      if Held(s, n) && RecordOf(s, n).promise.Open? {
        AddUnsub(s, p, n);
      } else {
        DropTidy(s, p, n);
      }
    }
  }

  lemma UnsubResumesTidy(s: Ledger, call: nat)
    requires Inv(s) && Tidy(s) && Resumable(s, call) && s.waits[call].Unsub?
    ensures Tidy(UnsubResumes(s, call, s.waits[call]).ledger) && !MeetsInflight(s, s.waits[call])
  {
    hide Inv, Drop;
    var w := s.waits[call];
    assert UnsubTidy(s, call);
    UnwaitKeeps(s, call);
    UnwaitTidy(s, call);
    DropTidy(Unwait(s, call), w.peer, w.name);
  }

  /**
    Outside the limits: the unsubscribe drops a record whose subscribe is in flight, another peer subscribes,
    and the rejection then deletes that peer's record by name. The peer believes it owns a name nobody holds.
   */
  lemma PhantomAfterMeeting(s: Ledger, call: nat, q: Peer, what: string, format: string)
    requires Inv(s) && Resumable(s, call) && MeetsInflight(s, s.waits[call])
    requires q in s.registered && q != s.waits[call].peer
    ensures var w := s.waits[call];
            var r := s.subscriptions[w.name];
            var a := UnsubResumes(s, call, w).ledger;
            var b := Subscribe(a, q, w.name, what, format).ledger;
            && r < |b.records| && b.records[r].promise.Open?
            && var d := Settle(b, r, false).ledger;
               q in d.registered && w.name in OwnedBy(d, q) && !Held(d, w.name)
  {
    hide HistoryOk, HistoryOf;
    var w := s.waits[call];
    var r := s.subscriptions[w.name];
    assert NameOk(s, w.name) && RecordOk(s, r);
    OneOwner(s.records[r].owners, w.peer);
    var a := UnsubResumes(s, call, w).ledger;
    assert !Held(a, w.name);
    var b := Subscribe(a, q, w.name, what, format).ledger;
    assert b.records[r].owners == {};
  }

  /** Peer 1 is the first subscriber and already unsubscribing; peer 2 is registered. */
  function WhileInFlight(n: string, what: string, format: string): Ledger {
    Ledger(map[n := 0], [Record(n, what, format, {1}, Open)], map[1 := {n}, 2 := {}], {1, 2}, map[0 := Unsub(1, n, 0)], 1, map[])
  }

  lemma ReachInFlight(n: string, what: string, format: string)
    ensures var a := Subscribe(Register(Register(INIT, 1).ledger, 2).ledger, 1, n, what, format).ledger;
            Unsubscribe(a, 1, n).ledger == WhileInFlight(n, what, format)
  {
    var r := Register(Register(INIT, 1).ledger, 2).ledger;
    var a := Subscribe(r, 1, n, what, format).ledger;
    var none: set<string> := {};
    assert OwnedBy(r, 1) == none && none + {n} == {n};
    assert a.owned == map[1 := {n}, 2 := none];
    assert a.records[0] == Record(n, what, format, {1}, Open) && n in OwnedBy(a, 1);
  }

  /** Such a state is reached by a peer that subscribes again right after its rejection, its unsubscribe still waiting. */
  lemma MeetingIsReached(n: string, what: string, format: string)
    ensures var a := Subscribe(Register(Register(INIT, 1).ledger, 2).ledger, 1, n, what, format).ledger;
            var b := Unsubscribe(a, 1, n).ledger;
            && b.records == [Record(n, what, format, {1}, Open)]
            && var s := Subscribe(Settle(b, 0, false).ledger, 1, n, what, format).ledger;
               Resumable(s, 0) && MeetsInflight(s, s.waits[0]) && 2 in s.registered
  {
    hide Unsubscribe, Register;
    ReachInFlight(n, what, format);
    var c := Settle(WhileInFlight(n, what, format), 0, false).ledger;
    assert !Held(c, n) && c.records[0].promise == Rejected;
    var s := Subscribe(c, 1, n, what, format).ledger;
    assert s.records[1] == Record(n, what, format, {1}, Open) && s.subscriptions[n] == 1;
    assert s.waits[0] == Unsub(1, n, 0);
  }

  ghost predicate CanRunDisciplined(s: Ledger, steps: seq<Step>)
    decreases |steps|
  {
    steps == [] || (Disciplined(s, steps[0]) && CanRunDisciplined(Take(s, steps[0]).ledger, steps[1..]))
  }

  lemma {:induction false} DisciplinedRunFrom(s: Ledger, steps: seq<Step>)
    requires Inv(s) && Tidy(s) && CanRunDisciplined(s, steps)
    ensures CanRun(s, steps) && Inv(Run(s, steps))
    decreases |steps|
  {
    hide Inv, Tidy, Take, Allowed, Disciplined;
    if steps != [] {
      assert Enabled(s, steps[0]) by { DisciplinedEnabled(s, steps[0]); }
      DisciplineSuffices(s, steps[0]);
      DisciplinedRunFrom(Take(s, steps[0]).ledger, steps[1..]);
    }
  }

  lemma InitTidy()
    ensures Tidy(INIT)
  {
  }

  /** Every disciplined run stays within the schedule limits, so everything proved of those runs holds of it. */
  lemma DisciplinedRun(steps: seq<Step>, p: Peer, n: string)
    requires CanRunDisciplined(INIT, steps)
    ensures CanRun(INIT, steps) && Inv(Run(INIT, steps))
    ensures var s := Run(INIT, steps);
            && (p in s.registered ==> (n in OwnedBy(s, p) <==> Owns(s, p, n)))
            && (n in s.subscriptions ==> Held(s, n) && RecordOf(s, n).owners != {})
            && Alternates(HistoryOf(s, n))
  {
    hide Inv, Tidy, CanRun, CanRunDisciplined, Run, Alternates;
    InitInv();
    InitTidy();
    DisciplinedRunFrom(INIT, steps);
    LedgerAgrees(steps, p, n);
  }

  lemma DisciplinedEnabled(s: Ledger, step: Step)
    requires Disciplined(s, step)
    ensures Enabled(s, step)
  {
  }
}

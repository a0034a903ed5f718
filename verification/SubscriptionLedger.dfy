/**
  The subscription ledger as an object: each stretch of code between two awaits is a method, proved to
  take the step of SubscriptionSpec.
 */
module SubscriptionLedgerClass {
  import opened SubscriptionSpec

  class SubscriptionLedger {
    var subscriptions: map<string, nat>
    /** The record objects, by number, and the owned-names sets, by peer. */
    var records: seq<Record>
    var owned: map<Peer, set<string>>
    /** The peers that have a slot. */
    var ownedByPeer: set<Peer>
    var waits: map<nat, Wait>
    var calls: nat
    /** Effective commands, per name. */
    var history: map<string, seq<Command>>

    constructor ()
      ensures Now() == INIT
    {
      subscriptions, records, owned, ownedByPeer, waits, calls, history := map[], [], map[], {}, map[], 0, map[];
    }

    ghost function Now(): Ledger
      reads this
    {
      Ledger(subscriptions, records, owned, ownedByPeer, waits, calls, history)
    }

    function OwnedNames(p: Peer): set<string>
      reads this
    {
      if p in owned then owned[p] else {}
    }

    method Log(n: string, c: Command)
      modifies this`history
      ensures history == old(history)[n := HistoryOf(old(Now()), n) + [c]]
    {
      history := history[n := (if n in history then history[n] else []) + [c]];
    }

    method Register(p: Peer) returns (a: Answer)
      modifies this
      ensures Result(Now(), a) == SubscriptionSpec.Register(old(Now()), p)
    {
      if p in ownedByPeer {
        return Internal;
      }
      owned, ownedByPeer := owned[p := {}], ownedByPeer + {p};
      a := KeysOk;
    }

    /** Removes `p` from the owners of the registered record; true when that was the last one. */
    method ReleaseName(n: string, p: Peer) returns (last: bool)
      modifies this`subscriptions, this`records, this`history
      ensures Now() == SubscriptionSpec.ReleaseName(old(Now()), n, p)
      ensures last <==> Held(old(Now()), n) && RecordOf(old(Now()), n).owners - {p} == {}
    {
      if n !in subscriptions || subscriptions[n] >= |records| {
        return false;
      }
      var r := subscriptions[n];
      records := records[r := records[r].(owners := records[r].owners - {p})];
      last := records[r].owners == {};
      if last {
        subscriptions := subscriptions - {n};
        Log(n, Unsubscribed);
      }
    }

    method ClaimRecord(p: Peer, n: string)
      requires Held(Now(), n)
      modifies this`owned, this`records
      ensures Now() == Claim(old(Now()), p, n)
    {
      if n !in OwnedNames(p) {
        var r := subscriptions[n];
        owned := owned[p := OwnedNames(p) + {n}];
        records := records[r := records[r].(owners := records[r].owners + {p})];
      }
    }

    /** The synchronous part of a subscribe call. */
    method Subscribe(p: Peer, n: string, what: string, format: string) returns (a: Answer)
      modifies this
      ensures Result(Now(), a) == SubscriptionSpec.Subscribe(old(Now()), p, n, what, format)
    {
      if p !in ownedByPeer {
        return Internal;
      }
      if n in subscriptions && subscriptions[n] < |records| {
        var existing := records[subscriptions[n]];
        if existing.what != what || existing.format != format {
          return FormatConflict;
        }
        if existing.promise.Open? {
          waits, calls := waits[calls := Join(p, n, what, format, subscriptions[n])], calls + 1;
          return Waiting;
        }
        ClaimRecord(p, n);
        return KeysOk;
      }
      subscriptions := subscriptions[n := |records|];
      records := records + [Record(n, what, format, {p}, Open)];
      owned := owned[p := OwnedNames(p) + {n}];
      a := Waiting;
    }

    /** tmux answered record `r`: its first subscriber confirms it or rolls it back. */
    method Settled(r: nat, ok: bool) returns (a: Answer)
      requires r < |records|
      modifies this
      ensures Result(Now(), a) == Settle(old(Now()), r, ok)
    {
      var rec := records[r];
      if ok {
        records := records[r := rec.(promise := Fulfilled)];
        Log(rec.name, Subscribed);
        return Sent;
      }
      owned := map p | p in owned :: if p in rec.owners && p in ownedByPeer then owned[p] - {rec.name} else owned[p];
      records := records[r := rec.(promise := Rejected, owners := {})];
      subscriptions := subscriptions - {rec.name};
      a := CommandRejected;
    }

    /** A subscriber that waited for another's subscribe goes on. */
    method JoinResumed(call: nat) returns (a: Answer)
      requires call in waits && waits[call].Join? && waits[call].record < |records|
      modifies this
      ensures Result(Now(), a) == JoinResumes(old(Now()), call, old(waits)[call])
    {
      var w := waits[call];
      waits := waits - {call};
      if records[w.record].promise.Rejected? {
        return CommandRejected;
      }
      if w.name in subscriptions && subscriptions[w.name] == w.record {
        ClaimRecord(w.peer, w.name);
        return KeysOk;
      }
      a := Subscribe(w.peer, w.name, w.what, w.format);
    }

    method DropOwnership(p: Peer, n: string) returns (a: Answer)
      modifies this
      ensures Result(Now(), a) == Drop(old(Now()), p, n)
    {
      owned := owned[p := OwnedNames(p) - {n}];
      var last := ReleaseName(n, p);
      a := if last then Sent else KeysOk;
    }

    /** The synchronous part of an unsubscribe call. */
    method Unsubscribe(p: Peer, n: string) returns (a: Answer)
      modifies this
      ensures Result(Now(), a) == SubscriptionSpec.Unsubscribe(old(Now()), p, n)
    {
      hide Drop;
      if p !in ownedByPeer {
        return Internal;
      }
      if n !in OwnedNames(p) {
        return UnknownSubscription;
      }
      if n in subscriptions && subscriptions[n] < |records| && records[subscriptions[n]].promise.Open? {
        waits, calls := waits[calls := Unsub(p, n, subscriptions[n])], calls + 1;
        return Waiting;
      }
      a := DropOwnership(p, n);
    }

    method UnsubResumed(call: nat) returns (a: Answer)
      requires call in waits && waits[call].Unsub?
      modifies this
      ensures Result(Now(), a) == UnsubResumes(old(Now()), call, old(waits)[call])
    {
      hide Drop;
      var w := waits[call];
      waits := waits - {call};
      if w.name !in OwnedNames(w.peer) {
        return KeysOk;
      }
      a := DropOwnership(w.peer, w.name);
    }

    /** Every name of the peer is released, in whatever order the set is walked. */
    method ReleasePeer(p: Peer)
      requires WellNamed(Now())
      modifies this
      ensures var t := Release(old(Now()), p);
              Now() == t.(history := history) && forall n :: HistoryOf(Now(), n) == HistoryOf(t, n)
    {
      hide SubscriptionSpec.ReleaseName, ReleaseNames, WellNamed, HistoryOf;
      if p !in ownedByPeer {
        return;
      }
      var names := OwnedNames(p);
      ownedByPeer := ownedByPeer - {p};
      ghost var start := Now();
      assert WellNamed(start) by { SameNames(old(Now()), start); }
      ghost var done: set<string> := {};
      var todo := names;
      NoNames(start, p);
      while todo != {}
        invariant done + todo == names && done !! todo
        invariant SameLedger(Now(), ReleaseNames(start, p, done))
        decreases |todo|
      {
        var n :| n in todo;
        ghost var before := Now();
        todo := todo - {n};
        var _ := ReleaseName(n, p);
        SameRelease(before, ReleaseNames(start, p, done), n, p);
        ReleaseNamesStep(start, p, done, n);
        done := done + {n};
      }
      assert done == names;
    }

    static lemma SameNames(s: Ledger, t: Ledger)
      requires WellNamed(s) && t == s.(registered := t.registered)
      ensures WellNamed(t)
    {
      forall m ensures NamedOk(t, m) {
        assert NamedOk(s, m);
      }
    }

    /** Equal but for names whose history is spelled differently. */
    static ghost predicate SameLedger(s: Ledger, t: Ledger) {
      s == t.(history := s.history) && forall n :: HistoryOf(s, n) == HistoryOf(t, n)
    }

    static lemma NoNames(s: Ledger, p: Peer)
      ensures SameLedger(s, ReleaseNames(s, p, {}))
    {
      assert LastOwned(s, p, {}) == {};
      assert ReleaseNames(s, p, {}).records == s.records;
      assert ReleaseNames(s, p, {}).subscriptions == s.subscriptions;
    }

    static lemma SameRelease(s: Ledger, t: Ledger, n: string, p: Peer)
      requires SameLedger(s, t)
      ensures SameLedger(SubscriptionSpec.ReleaseName(s, n, p), SubscriptionSpec.ReleaseName(t, n, p))
    {
      hide HistoryOf;
      var s1, t1 := SubscriptionSpec.ReleaseName(s, n, p), SubscriptionSpec.ReleaseName(t, n, p);
      forall m ensures HistoryOf(s1, m) == HistoryOf(t1, m) {
        hide SubscriptionSpec.ReleaseName;
        ReleaseNameHistory(s, n, p, m);
        ReleaseNameHistory(t, n, p, m);
        assert HistoryOf(s, m) == HistoryOf(t, m);
      }
    }
  }
}

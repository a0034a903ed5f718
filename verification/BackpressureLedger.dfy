/**
  The backpressure ledger as an object, each method proved to take the step of BackpressureSpec.
 */
module BackpressureLedgerClass {
  import opened BackpressureSpec

  class BackpressureLedger {
    const high: nat
    const low: nat
    var outstanding: map<Peer, map<Pane, nat>>
    var pausedPanes: map<Pane, Flow>
    /** Continue commands in flight, by number; flow objects and commands are numbered from one counter. */
    var continues: map<nat, Continue>
    var issued: nat
    ghost var reported: set<Pane>
    var sent: seq<Sent>
    ghost var flushed: bool

    constructor (high: nat, low: nat)
      requires ValidWatermarks(high, low)
      ensures Now() == Init(high, low)
    {
      this.high, this.low := high, low;
      outstanding, pausedPanes, continues, issued, sent := map[], map[], map[], 0, [];
      reported, flushed := {}, false;
    }

    ghost function Now(): Ledger
      reads this
    {
      Ledger(high, low, outstanding, pausedPanes, continues, issued, reported, sent, flushed)
    }

    method Register(p: Peer) returns (ok: bool)
      modifies this`outstanding
      ensures ok <==> p !in old(outstanding)
      ensures Now() == BackpressureSpec.Register(old(Now()), p)
    {
      ok := p !in outstanding;
      if ok {
        outstanding := outstanding[p := map[]];
      }
    }

    method TotalOutstanding(pane: Pane) returns (sum: nat)
      ensures sum == Total(outstanding, pane)
    {
      hide Tally, SumOver;
      sum := 0;
      var todo := outstanding.Keys;
      SumNone(outstanding, pane);
      while todo != {}
        invariant todo <= outstanding.Keys
        invariant sum + SumOver(outstanding, todo, pane) == Total(outstanding, pane)
        decreases |todo|
      {
        var p :| p in todo;
        SumPick(outstanding, todo, p, pane);
        sum := sum + TallyOf(p, pane);
        todo := todo - {p};
      }
    }

    static lemma SumNone(o: map<Peer, map<Pane, nat>>, pane: Pane)
      ensures SumOver(o, {}, pane) == 0
    {
    }

    function TallyOf(p: Peer, pane: Pane): (n: nat)
      reads this
      ensures n == Tally(outstanding, p, pane)
    {
      if p in outstanding && pane in outstanding[p] then outstanding[p][pane] else 0
    }

    method MaybePauseNow(pane: Pane)
      modifies this`pausedPanes, this`issued, this`reported, this`sent
      ensures Now() == MaybePause(old(Now()), pane)
    {
      if pane in pausedPanes {
        return;
      }
      var total := TotalOutstanding(pane);
      if total < high {
        return;
      }
      pausedPanes, issued := pausedPanes[pane := Flow(false, issued)], issued + 1;
      reported := reported - {pane};
      sent := sent + [SentPause(pane)];
    }

    method MaybeResumeNow(pane: Pane)
      modifies this`pausedPanes, this`continues, this`issued, this`reported, this`sent
      ensures Now() == MaybeResume(old(Now()), pane)
    {
      if pane !in pausedPanes {
        return;
      }
      var flow := pausedPanes[pane];
      var total := TotalOutstanding(pane);
      if total > low || flow.resuming {
        return;
      }
      pausedPanes := pausedPanes[pane := flow.(resuming := true)];
      continues, issued := continues[issued := Continue(pane, flow.episode)], issued + 1;
      reported := reported - {pane};
      sent := sent + [SentContinue(pane)];
    }

    method AccountBytes(p: Peer, pane: Pane, bytes: int)
      modifies this
      ensures Now() == Account(old(Now()), p, pane, bytes)
    {
      hide MaybePause;
      if p !in outstanding || bytes <= 0 {
        return;
      }
      outstanding := outstanding[p := Accounted(outstanding[p], pane, bytes)];
      MaybePauseNow(pane);
    }

    method AckBytes(p: Peer, pane: Pane, bytes: int)
      modifies this
      ensures Now() == Ack(old(Now()), p, pane, bytes)
    {
      hide MaybeResume;
      if p !in outstanding || bytes <= 0 {
        return;
      }
      var slot := outstanding[p];
      var prev := if pane in slot then slot[pane] else 0;
      if prev <= bytes {
        outstanding := outstanding[p := slot - {pane}];
      } else {
        outstanding := outstanding[p := slot[pane := prev - bytes]];
      }
      MaybeResumeNow(pane);
    }

    /** Walk the panes of a set in some order, which `order` reports. */
    method ResumeAll(panes: set<Pane>) returns (ghost order: seq<Pane>)
      modifies this`pausedPanes, this`continues, this`issued, this`reported, this`sent
      ensures Lists(order, panes) && Now() == ResumeEach(old(Now()), order)
    {
      hide MaybeResume, ResumeEach;
      order := [];
      var todo := panes;
      ghost var start := Now();
      EachNone(start);
      while todo != {}
        invariant todo <= panes && Lists(order, panes - todo)
        invariant Now() == ResumeEach(start, order)
        decreases |todo|
      {
        var pane :| pane in todo;
        EachLast(start, order, pane);
        todo := todo - {pane};
        order := order + [pane];
        MaybeResumeNow(pane);
      }
    }

    static lemma EachNone(s: Ledger)
      ensures ResumeEach(s, []) == s
    {
    }

    static lemma {:induction false} EachLast(s: Ledger, panes: seq<Pane>, pane: Pane)
      ensures ResumeEach(s, panes + [pane]) == MaybeResume(ResumeEach(s, panes), pane)
      decreases |panes|
    {
      hide MaybeResume;
      if panes == [] {
        assert ([] + [pane])[1..] == [];
      } else {
        assert (panes + [pane])[1..] == panes[1..] + [pane];
        EachLast(MaybeResume(s, panes[0]), panes[1..], pane);
      }
    }

    method Clear(p: Peer) returns (ghost order: seq<Pane>)
      modifies this
      ensures Allowed(old(Now()), DoClear(p, order)) && Now() == ClearPeer(old(Now()), p, order)
    {
      hide ResumeEach, Lists;
      order := [];
      if p !in outstanding {
        return;
      }
      var panes := outstanding[p].Keys;
      outstanding := outstanding[p := map[]];
      order := ResumeAll(panes);
    }

    method Release(p: Peer) returns (ghost order: seq<Pane>)
      modifies this
      ensures Allowed(old(Now()), DoRelease(p, order)) && Now() == ReleasePeer(old(Now()), p, order)
    {
      hide ResumeEach, Lists;
      order := [];
      if p !in outstanding {
        return;
      }
      var panes := outstanding[p].Keys;
      outstanding := outstanding - {p};
      order := ResumeAll(panes);
    }

    /** tmux answered a Continue: only its own episode is touched. */
    method Settled(id: nat, outcome: Outcome) returns (report: bool)
      requires id in continues
      modifies this
      ensures Now() == Settle(old(Now()), id, outcome)
      ensures report ==> outcome.Refused? && continues == old(continues) - {id}
    {
      var c := continues[id];
      continues := continues - {id};
      report := false;
      if c.pane !in pausedPanes || pausedPanes[c.pane].episode != c.episode {
        return;
      }
      if outcome.Confirmed? || outcome.ConnectionGone? {
        pausedPanes := pausedPanes - {c.pane};
        return;
      }
      pausedPanes := pausedPanes[c.pane := pausedPanes[c.pane].(resuming := false)];
      reported := reported + {c.pane};
      report := true;
    }

    static lemma ListsPlus(order: seq<Pane>, panes: set<Pane>, pane: Pane)
      requires Lists(order, panes) && pane !in panes
      ensures Lists(order + [pane], panes + {pane})
    {
      assert forall i | 0 <= i < |order| :: order[i] in panes;
    }

    /** The panes of `panes` that are paused with no Continue in flight. */
    static ghost function Stalled(paused: map<Pane, Flow>, panes: set<Pane>): set<Pane> {
      set pane | pane in paused && pane in panes && !paused[pane].resuming
    }

    static lemma StalledPlus(paused: map<Pane, Flow>, panes: set<Pane>, pane: Pane)
      requires pane in paused && pane !in panes
      ensures Stalled(paused, panes + {pane}) ==
              if paused[pane].resuming then Stalled(paused, panes) else Stalled(paused, panes) + {pane}
      ensures pane !in Stalled(paused, panes)
    {
    }

    static lemma NothingListed(paused: map<Pane, Flow>)
      ensures Lists([], Stalled(paused, {}))
    {
    }

    static lemma ContinuesPlus(sends: seq<Pane>, pane: Pane)
      ensures Continues(sends + [pane]) == Continues(sends) + [SentContinue(pane)]
    {
    }

    method FlushPausedPanes() returns (ghost sends: seq<Pane>)
      modifies this
      ensures Allowed(old(Now()), DoFlush(sends)) && Now() == Flush(old(Now()), sends)
    {
      sends := SendLast();
      assert Stalled(pausedPanes, pausedPanes.Keys) == set pane | pane in pausedPanes && !pausedPanes[pane].resuming;
      pausedPanes := map[];
      flushed := true;
    }

    method SendLast() returns (ghost sends: seq<Pane>)
      modifies this`sent
      ensures Lists(sends, Stalled(pausedPanes, pausedPanes.Keys)) && sent == old(sent) + Continues(sends)
    {
      hide Lists, Stalled, Continues;
      sends := [];
      ghost var start := sent;
      var todo := pausedPanes.Keys;
      NothingListed(pausedPanes);
      assert pausedPanes.Keys - todo == {};
      assert sent == start + Continues([]) by { NoContinues(); }
      while todo != {}
        invariant todo <= pausedPanes.Keys
        invariant Lists(sends, Stalled(pausedPanes, pausedPanes.Keys - todo))
        invariant sent == start + Continues(sends)
        decreases |todo|
      {
        var pane :| pane in todo;
        ghost var done := pausedPanes.Keys - todo;
        StalledPlus(pausedPanes, done, pane);
        todo := todo - {pane};
        assert pausedPanes.Keys - todo == done + {pane};
        if !pausedPanes[pane].resuming {
          ListsPlus(sends, Stalled(pausedPanes, done), pane);
          ContinuesPlus(sends, pane);
          assert (start + Continues(sends)) + [SentContinue(pane)] == start + (Continues(sends) + [SentContinue(pane)]);
          sends := sends + [pane];
          sent := sent + [SentContinue(pane)];
        }
      }
      assert pausedPanes.Keys - todo == pausedPanes.Keys;
    }

    static lemma NoContinues()
      ensures Continues([]) == []
    {
    }
  }
}

/**
  The coverage ledger and the relay as objects. Each stretch of code between two awaits is a method,
  proved to take the step of CoverageSpec.
 */
module CoverageLedger {
  import opened CoverageSpec

  class CrossSessionLayoutRelay {
    var refCount: int
    var subscribed: bool
    /** The steps serialized behind `queue`, and the one that is running. */
    var queue: seq<Call>
    var step: RelayStep

    constructor ()
      ensures Now() == Relay(0, false, [], Resting)
    {
      refCount, subscribed, queue, step := 0, false, [], Resting;
    }

    ghost function Now(): Relay
      reads this
    {
      Relay(refCount, subscribed, queue, step)
    }

    method Enable(p: Peer)
      modifies this
      ensures Now() == RelayEnable(old(Now()), p)
    {
      refCount := refCount + 1;
      queue := queue + [CallEnable(p)];
    }

    method Disable(p: Peer)
      modifies this
      ensures Now() == RelayDisable(old(Now()), p)
    {
      if refCount == 0 {
        return;
      }
      refCount := refCount - 1;
      queue := queue + [CallDisable(p)];
    }

    /** The head step reconciles; `answered` when it needs no command and so completes at once. */
    method StartStep() returns (call: Call, answered: bool)
      requires step.Resting? && queue != []
      modifies this
      ensures call == old(queue[0]) && (answered <==> Decision(old(Now())).Resting?)
      ensures Now() == RelayStarted(old(Now()))
    {
      call := queue[0];
      queue := queue[1..];
      var wanted := refCount > 0;
      if wanted && !subscribed {
        step := Subscribing(call);
      } else if !wanted && subscribed {
        subscribed := false;
        step := Unsubscribing(call);
      }
      answered := step.Resting?;
    }

    /** tmux's answer to the running step. */
    method FinishStep(ok: bool) returns (call: Call)
      requires !step.Resting?
      modifies this
      ensures call == old(step.call) && Now() == RelayFinished(old(Now()), ok)
    {
      call := step.call;
      if step.Subscribing? {
        subscribed := ok;
      }
      if !ok && call.CallEnable? {
        refCount := refCount - 1;
      }
      step := Resting;
    }
  }

  class CrossSessionLayoutLedger {
    const relay: CrossSessionLayoutRelay
    var coverages: map<Peer, Coverage>
    var peers: set<Peer>

    constructor (relay: CrossSessionLayoutRelay)
      ensures this.relay == relay && coverages == map[] && peers == {}
    {
      this.relay := relay;
      coverages, peers := map[], {};
    }

    ghost function Now(): State
      reads this, relay
    {
      State(coverages, peers, relay.Now())
    }

    method Register(p: Peer)
      requires Allowed(Now(), DoRegister(p))
      modifies this
      ensures Now() == Take(old(Now()), DoRegister(p))
    {
      coverages, peers := coverages[p := FRESH], peers + {p};
    }

    /** Delivery follows the peer's calls, not the relay's round trip. */
    predicate IsEnabled(p: Peer)
      reads this
    {
      p in peers && p in coverages && coverages[p].count > 0
    }

    method Serialize(p: Peer, kind: Kind)
      requires p in coverages
      modifies this`coverages
      ensures coverages == old(coverages)[p := old(coverages[p]).(queue := old(coverages[p]).queue + [kind])]
    {
      coverages := coverages[p := coverages[p].(queue := coverages[p].queue + [kind])];
    }

    /** `ok` is false for a peer that is not registered. */
    method EnableFor(p: Peer) returns (ok: bool)
      modifies this`coverages
      ensures ok <==> p in old(peers) && p in old(coverages)
      ensures Now() == if ok then Take(old(Now()), DoEnable(p)) else old(Now())
    {
      if p !in peers || p !in coverages {
        return false;
      }
      coverages := coverages[p := coverages[p].(count := coverages[p].count + 1)];
      Serialize(p, EnableStep);
      ok := true;
    }

    method DisableFor(p: Peer) returns (ok: bool)
      modifies this`coverages
      ensures ok <==> p in old(peers) && p in old(coverages)
      ensures Now() == if ok then Take(old(Now()), DoDisable(p)) else old(Now())
    {
      if p !in peers || p !in coverages {
        return false;
      }
      ok := true;
      if coverages[p].count == 0 {
        assert coverages[p := coverages[p]] == coverages;
        return;
      }
      coverages := coverages[p := coverages[p].(count := coverages[p].count - 1)];
      Serialize(p, ReconcileStep);
    }

    method ReleasePeer(p: Peer)
      modifies this
      ensures Now() == if p in old(peers) && p in old(coverages) then Take(old(Now()), DoRelease(p)) else old(Now())
    {
      if p !in peers || p !in coverages {
        return;
      }
      peers := peers - {p};
      coverages := coverages[p := coverages[p].(count := 0)];
      Serialize(p, ReconcileStep);
    }

    /** The head step of the peer's queue: reconcile `held` toward `count > 0`. */
    method StartStep(p: Peer)
      requires Allowed(Now(), DoStart(p))
      modifies this`coverages, relay
      ensures Now() == Take(old(Now()), DoStart(p))
    {
      var c := coverages[p];
      var kind := c.queue[0];
      coverages := coverages[p := c.(queue := c.queue[1..])];
      var want := c.count > 0;
      if want && !c.held {
        coverages := coverages[p := coverages[p].(running := Enabling(kind))];
        relay.Enable(p);
      } else if !want && c.held {
        coverages := coverages[p := coverages[p].(held := false, running := Disabling)];
        relay.Disable(p);
      } else {
        assert c.running.Idle?;
      }
    }

    /** The step goes on after the relay's answer. */
    method ContinueStep(p: Peer)
      requires Allowed(Now(), DoContinue(p))
      modifies this`coverages
      ensures Now() == Take(old(Now()), DoContinue(p))
    {
      var c := coverages[p];
      if Confirmed(c) {
        c := c.(held := true);
      } else if c.running.Enabled? && c.running.kind.EnableStep? && c.count > 0 {
        c := c.(count := c.count - 1);
      }
      coverages := coverages[p := c.(running := Idle)];
    }

    method Learn(call: Call, ok: bool)
      modifies this`coverages
      ensures Now() == Answer(old(Now()), call, ok)
    {
      if call.peer in coverages {
        coverages := coverages[call.peer := Answered(coverages[call.peer], call, ok)];
      }
    }

    method RelayStart()
      requires Allowed(Now(), DoRelayStart)
      modifies this`coverages, relay
      ensures Now() == Take(old(Now()), DoRelayStart)
    {
      var call, answered := relay.StartStep();
      if answered {
        Learn(call, true);
      }
    }

    method RelayFinish(ok: bool)
      requires Allowed(Now(), DoRelayFinish(ok))
      modifies this`coverages, relay
      ensures Now() == Take(old(Now()), DoRelayFinish(ok))
    {
      var call := relay.FinishStep(ok);
      Learn(call, ok);
    }
  }
}

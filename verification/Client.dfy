/**
  `TmuxClient` (src/client.ts) as an object whose handlers update its fields, each proved to take
  the step of ClientSpec.
 */
module Client {
  import opened Options
  import opened JsStrings
  import opened Messages
  import opened ClientSpec
  import P = Parser

  class TmuxClient {
    const parser: P.TmuxParser
    var pending: seq<nat>
    var inflight: Option<Inflight>
    var currentConnectionState: Connection
    var userClosed: bool
    var awaitingGreeting: bool
    var exitAlreadyEmitted: bool
    /** How many promises `execute` has made; a promise is named by its number. */
    var issued: nat
    /** Settlements, emissions and router calls, in order. */
    var log: seq<Out>

    constructor ()
      ensures Now() == INIT && fresh(parser)
    {
      parser := new P.TmuxParser();
      pending, inflight, log, issued := [], None, [], 0;
      currentConnectionState, userClosed, awaitingGreeting, exitAlreadyEmitted := Connecting, false, true, false;
    }

    ghost function Now(): ClientSpec.Client
      reads this, parser
    {
      ClientSpec.Client(issued, pending, inflight, currentConnectionState, userClosed, awaitingGreeting,
                        exitAlreadyEmitted, parser.Now(), log)
    }

    method Say(out: Out)
      modifies this`log
      ensures log == old(log) + [out]
    {
      log := log + [out];
    }

    /** `accepted` is what the transport's `send` answers; a refused send delivers nothing. */
    method Execute(command: string, accepted: bool) returns (id: nat)
      modifies this
      ensures id == old(issued) && Now() == ExecuteStep(old(Now()), command, accepted)
    {
      id := issued;
      issued := issued + 1;
      if currentConnectionState.Closed? {
        Say(Settled(id, SendRefused));
        return;
      }
      if Invalid(command) {
        Say(Settled(id, InvalidCommand));
        return;
      }
      pending := pending + [id];
      if !accepted {
        DropPending(id);
        Say(Settled(id, SendRefused));
      }
    }

    method DropPending(entry: nat)
      modifies this`pending
      ensures pending == if old(pending) != [] && old(pending)[|old(pending)| - 1] == entry
                         then old(pending)[..|old(pending)| - 1] else old(pending)
    {
      if |pending| > 0 && pending[|pending| - 1] == entry {
        pending := pending[..|pending| - 1];
      }
    }

    method SetConnectionState(next: Connection)
      modifies this`currentConnectionState, this`log
      ensures Now() == SetConnection(old(Now()), next)
    {
      if currentConnectionState.Closed? || currentConnectionState == next {
        return;
      }
      currentConnectionState := next;
      Say(StateIs(next));
      if next.Ready? {
        Say(RouterReady);
      }
      assert log == old(log) + ([StateIs(next)] + if next.Ready? then [RouterReady] else []);
    }

    method SettleInflight(outcome: Outcome)
      requires inflight.Some?
      modifies this`inflight, this`log
      ensures Now() == Settle(old(Now()), outcome)
    {
      var entry := inflight.value;
      inflight := None;
      Say(Settled(entry.id, outcome));
    }

    method EndBlock(ok: bool)
      modifies this
      ensures Now() == Ended(old(Now()), ok)
    {
      if awaitingGreeting {
        awaitingGreeting := false;
        SetConnectionState(Ready);
      } else if inflight.Some? {
        SettleInflight(Reply(inflight.value.response, ok));
      }
    }

    method ClaimNext(m: Message)
      requires m.Guard?
      modifies this`pending, this`inflight
      ensures Now() == Begun(old(Now()), m)
    {
      if !awaitingGreeting && |pending| > 0 {
        var entry := pending[0];
        pending := pending[1..];
        inflight := Some(Inflight(entry, Response(m.commandNumber, m.timestamp, [])));
      }
    }

    /** The guards of a block claim, and settle, the oldest promise. */
    method CorrelateNow(m: Message)
      modifies this
      ensures Now() == Correlate(old(Now()), m)
    {
      hide Begun, Ended;
      match m {
        case Guard(Begin, _, _, _) => ClaimNext(m);
        case Guard(End, _, _, _) => EndBlock(true);
        case Guard(Error, _, _, _) => EndBlock(false);
        case _ =>
      }
    }

    static lemma CorrelateKeepsExit(c: Client, m: Message)
      ensures Correlate(c, m).exitAlreadyEmitted == c.exitAlreadyEmitted
      ensures m.Exit? ==> Correlate(c, m) == c
    {
    }

    method OnMessage(m: Message)
      modifies this
      ensures Now() == HandleMessage(old(Now()), m)
    {
      hide Correlate;
      CorrelateKeepsExit(Now(), m);
      if currentConnectionState.Closed? || (m.Exit? && exitAlreadyEmitted) {
        return;
      }
      CorrelateNow(m);
      if m.Exit? {
        exitAlreadyEmitted := true;
      }
      Tell(m);
    }

    /** Pane bytes go to the router only; every other message is also emitted. */
    method Tell(m: Message)
      modifies this`log
      ensures log == old(log) + ([ToRouter(m)] + if IsPaneOutput(m) then [] else [Notification(m)])
    {
      Say(ToRouter(m));
      if !IsPaneOutput(m) {
        Say(Notification(m));
      }
    }

    method OnOutputLine(line: string)
      modifies this`inflight
      ensures Now() == HandleOutputLine(old(Now()), line)
    {
      if inflight.Some? {
        var r := inflight.value.response;
        inflight := Some(Inflight(inflight.value.id, r.(output := r.output + [line])));
      }
    }

    method OnProtocolError(commandNumber: Num, line: string)
      modifies this
      ensures Now() == HandleProtocolError(old(Now()), commandNumber, line)
    {
      if currentConnectionState.Closed? {
        return;
      }
      if awaitingGreeting {
        awaitingGreeting := false;
        SetConnectionState(Ready);
      } else if inflight.Some? {
        SettleInflight(ProtocolFailed(commandNumber, line, inflight.value.response.output));
      }
      Say(Malformed(commandNumber, line));
    }

    method Deliver(e: P.Event)
      modifies this
      ensures Now() == Handle(old(Now()), e)
    {
      match e {
        case Emitted(m) => OnMessage(m);
        case OutputLine(_, line) => OnOutputLine(line);
        case ProtocolError(number, line) => OnProtocolError(number, line);
      }
    }

    /** Feed the parser, then hand what it reported to the handlers in order. */
    method OnData(chunk: string)
      modifies this, parser
      ensures Now() == DataStep(old(Now()), chunk)
    {
      hide Handle, P.Fed;
      var before := |parser.delivered|;
      parser.Feed(chunk);
      var events := parser.delivered[before..];
      assert events == P.Fed(old(Now()).parser, chunk).events;
      ghost var whole := HandleAll(Now(), events);
      for i := 0 to |events|
        invariant HandleAll(Now(), events[i..]) == whole
      {
        assert events[i..][0] == events[i] && events[i..][1..] == events[i + 1..];
        Deliver(events[i]);
      }
      assert events[|events|..] == [];
    }

    method Close()
      modifies this`userClosed
      ensures Now() == Step(old(Now()), UserClose)
    {
      userClosed := true;
    }

    /** The transport's close signal. */
    method OnClose(reason: Option<string>)
      modifies this
      ensures Now() == CloseStep(old(Now()), reason)
    {
      hide SetConnection;
      SettlePendingOnClose(reason);
      if !exitAlreadyEmitted {
        exitAlreadyEmitted := true;
        Say(Notification(Exit(reason)));
      }
      SetConnectionState(Closed(ReasonFor(userClosed, reason)));
    }

    method SettlePendingOnClose(reason: Option<string>)
      modifies this`inflight, this`pending, this`log
      ensures Now() == RejectAll(old(Now()), reason)
    {
      hide Rejections;
      ghost var c := Now();
      Say(RouterClosed);
      var queued := (if inflight.Some? then [inflight.value.id] else []) + pending;
      assert queued == InflightIds(c) + c.pending;
      inflight, pending := None, [];
      RejectEach(queued, reason);
      assert log == c.log + ([RouterClosed] + Rejections(queued, reason));
    }

    method RejectEach(queued: seq<nat>, reason: Option<string>)
      modifies this`log
      ensures log == old(log) + Rejections(queued, reason)
    {
      ghost var whole := log + Rejections(queued, reason);
      for i := 0 to |queued|
        invariant log + Rejections(queued[i..], reason) == whole
      {
        assert queued[i..][0] == queued[i] && queued[i..][1..] == queued[i + 1..];
        Say(Settled(queued[i], TransportClosed(reason)));
      }
      assert queued[|queued|..] == [] && log + [] == log;
    }
  }
}

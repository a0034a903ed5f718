/**
  What the client passes on, over every run: to the router every message the text received says, in order; to the
  listeners the same without pane output. Only an exit is never repeated, and a close without one makes one up.
 */
module ClientDelivery {
  import opened JsStrings
  import opened Options
  import opened Messages
  import opened ClientSpec
  import P = Parser

  // ---------------------------------------------------------------------------------------
  // What was received, what was passed on
  // ---------------------------------------------------------------------------------------

  /** The text received before the transport closes. */
  function Heard(ops: seq<Op>): string
    decreases |ops|
  {
    if ops == [] || ops[0].TransportClose? then ""
    else (if ops[0].Data? then ops[0].chunk else "") + Heard(ops[1..])
  }

  function MessagesOf(events: seq<P.Event>): seq<Message>
    decreases |events|
  {
    if events == [] then []
    else (if events[0].Emitted? then [events[0].m] else []) + MessagesOf(events[1..])
  }

  predicate HasExit(ms: seq<Message>) {
    exists m <- ms :: m.Exit?
  }

  /** The messages, without any exit after the first. */
  function OneExit(ms: seq<Message>, exited: bool): seq<Message>
    decreases |ms|
  {
    if ms == [] then []
    else if ms[0].Exit? && exited then OneExit(ms[1..], true)
    else [ms[0]] + OneExit(ms[1..], exited || ms[0].Exit?)
  }

  function NoPaneOutput(ms: seq<Message>): seq<Message>
    decreases |ms|
  {
    if ms == [] then []
    else (if ms[0].Output? || ms[0].ExtendedOutput? then [] else [ms[0]]) + NoPaneOutput(ms[1..])
  }

  /** The exit a close makes up when none was received. */
  function MadeUp(ops: seq<Op>, exited: bool): seq<Message>
    decreases |ops|
  {
    if ops == [] || exited then []
    else if ops[0].TransportClose? then [Exit(ops[0].reason)]
    else MadeUp(ops[1..], exited)
  }

  /** The messages passed to the router. */
  function Routed(log: seq<Out>): seq<Message>
    decreases |log|
  {
    if log == [] then [] else (if log[0].ToRouter? then [log[0].m] else []) + Routed(log[1..])
  }

  /** The messages passed to the listeners. */
  function Told(log: seq<Out>): seq<Message>
    decreases |log|
  {
    if log == [] then [] else (if log[0].Notification? then [log[0].m] else []) + Told(log[1..])
  }

  // ---------------------------------------------------------------------------------------
  // Appending
  // ---------------------------------------------------------------------------------------

  lemma {:induction false} RoutedAppend(a: seq<Out>, b: seq<Out>)
    ensures Routed(a + b) == Routed(a) + Routed(b)
    decreases |a|
  {
    if a == [] {
      assert a + b == b;
    } else {
      assert (a + b)[1..] == a[1..] + b && (a + b)[0] == a[0];
      RoutedAppend(a[1..], b);
      var first: seq<Message> := if a[0].ToRouter? then [a[0].m] else [];
      assert (first + Routed(a[1..])) + Routed(b) == first + (Routed(a[1..]) + Routed(b));
    }
  }

  lemma {:induction false} ToldAppend(a: seq<Out>, b: seq<Out>)
    ensures Told(a + b) == Told(a) + Told(b)
    decreases |a|
  {
    if a == [] {
      assert a + b == b;
    } else {
      assert (a + b)[1..] == a[1..] + b && (a + b)[0] == a[0];
      ToldAppend(a[1..], b);
      var first: seq<Message> := if a[0].Notification? then [a[0].m] else [];
      assert (first + Told(a[1..])) + Told(b) == first + (Told(a[1..]) + Told(b));
    }
  }

  lemma LogsAppend(a: seq<Out>, b: seq<Out>)
    ensures Routed(a + b) == Routed(a) + Routed(b) && Told(a + b) == Told(a) + Told(b)
  {
    RoutedAppend(a, b);
    ToldAppend(a, b);
  }

  lemma {:induction false} EventsAppend(a: seq<P.Event>, b: seq<P.Event>)
    ensures MessagesOf(a + b) == MessagesOf(a) + MessagesOf(b)
    decreases |a|
  {
    if a == [] {
      assert a + b == b;
    } else {
      assert (a + b)[1..] == a[1..] + b && (a + b)[0] == a[0];
      EventsAppend(a[1..], b);
      var first: seq<Message> := if a[0].Emitted? then [a[0].m] else [];
      assert (first + MessagesOf(a[1..])) + MessagesOf(b) == first + (MessagesOf(a[1..]) + MessagesOf(b));
    }
  }

  lemma {:induction false} ExitsAppend(a: seq<Message>, b: seq<Message>, exited: bool)
    ensures OneExit(a + b, exited) == OneExit(a, exited) + OneExit(b, exited || HasExit(a))
    decreases |a|
  {
    if a == [] {
      assert a + b == b;
    } else {
      assert (a + b)[1..] == a[1..] + b;
      assert a == [a[0]] + a[1..];
      assert HasExit(a) <==> a[0].Exit? || HasExit(a[1..]);
      ExitsAppend(a[1..], b, exited || a[0].Exit?);
    }
  }

  lemma {:induction false} PlainAppend(a: seq<Message>, b: seq<Message>)
    ensures NoPaneOutput(a + b) == NoPaneOutput(a) + NoPaneOutput(b)
    decreases |a|
  {
    if a == [] {
      assert a + b == b;
    } else {
      assert (a + b)[1..] == a[1..] + b;
      PlainAppend(a[1..], b);
    }
  }

  // ---------------------------------------------------------------------------------------
  // One event
  // ---------------------------------------------------------------------------------------

  /** `d` is `c` having passed on `ms` to the router, and all but pane output to the listeners. */
  predicate Passed(c: Client, d: Client, ms: seq<Message>) {
    && !d.connection.Closed? && d.parser == c.parser
    && Routed(d.log) == Routed(c.log) + ms && Told(d.log) == Told(c.log) + NoPaneOutput(ms)
  }

  lemma SaysPlain(c: Client, out: seq<Out>)
    requires !c.connection.Closed? && forall o <- out :: !o.ToRouter? && !o.Notification?
    ensures Passed(c, c.Say(out), [])
  {
    LogsAppend(c.log, out);
    NothingIn(out);
  }

  lemma {:induction false} NothingIn(out: seq<Out>)
    requires forall o <- out :: !o.ToRouter? && !o.Notification?
    ensures Routed(out) == [] && Told(out) == []
    decreases |out|
  {
    if out != [] {
      assert out[0] in out;
      NothingIn(out[1..]);
    }
  }

  lemma GreetingPasses(c: Client)
    requires !c.connection.Closed?
    ensures Passed(c, CloseGreeting(c), []) && CloseGreeting(c).exitAlreadyEmitted == c.exitAlreadyEmitted
  {
    SaysPlain(c, [StateIs(Ready)] + [RouterReady]);
    SaysPlain(c, []);
  }

  lemma CorrelatePasses(c: Client, m: Message)
    requires !c.connection.Closed?
    ensures Passed(c, Correlate(c, m), []) && Correlate(c, m).exitAlreadyEmitted == c.exitAlreadyEmitted
  {
    hide Passed, CloseGreeting;
    GreetingPasses(c);
    SaysPlain(c, []);
    assert c.Say([]) == c;
    if c.inflight.Some? {
      SettlePasses(c, Reply(c.inflight.value.response, true));
      SettlePasses(c, Reply(c.inflight.value.response, false));
    }
    BegunPasses(c, m);
  }

  lemma SettlePasses(c: Client, outcome: Outcome)
    requires !c.connection.Closed? && c.inflight.Some?
    ensures Passed(c, Settle(c, outcome), []) && Settle(c, outcome).exitAlreadyEmitted == c.exitAlreadyEmitted
  {
    SaysPlain(c, [Settled(c.inflight.value.id, outcome)]);
  }

  lemma BegunPasses(c: Client, m: Message)
    requires !c.connection.Closed?
    ensures m.Guard? ==> Passed(c, Begun(c, m), []) && Begun(c, m).exitAlreadyEmitted == c.exitAlreadyEmitted
  {
  }

  lemma MessagePasses(c: Client, m: Message)
    requires !c.connection.Closed?
    ensures var d := HandleMessage(c, m);
            Passed(c, d, OneExit([m], c.exitAlreadyEmitted)) && d.exitAlreadyEmitted == (c.exitAlreadyEmitted || m.Exit?)
  {
    hide Correlate;
    CorrelatePasses(c, m);
    var d := Correlate(c, m);
    var out := [ToRouter(m)] + if IsPaneOutput(m) then [] else [Notification(m)];
    LogsAppend(d.log, out);
    OneOut(m);
    assert [m][1..] == [];
    assert OneExit([], true) == [];
    NoneOut(c);
  }

  lemma NoneOut(c: Client)
    ensures Routed(c.log) + [] == Routed(c.log) && Told(c.log) + [] == Told(c.log)
  {
  }

  lemma OneOut(m: Message)
    ensures var out := [ToRouter(m)] + if IsPaneOutput(m) then [] else [Notification(m)];
            Routed(out) == [m] && Told(out) == NoPaneOutput([m])
  {
    SingleOut(ToRouter(m));
    SingleOut(Notification(m));
    assert [m][1..] == [] && NoPaneOutput([]) == [];
    hide Routed, Told;
    if IsPaneOutput(m) {
      assert [ToRouter(m)] + [] == [ToRouter(m)];
    } else {
      LogsAppend([ToRouter(m)], [Notification(m)]);
    }
  }

  lemma SingleOut(o: Out)
    ensures Routed([o]) == (if o.ToRouter? then [o.m] else []) && Told([o]) == (if o.Notification? then [o.m] else [])
  {
    assert [o][1..] == [];
  }

  lemma ErrorPasses(c: Client, number: Num, line: string)
    requires !c.connection.Closed?
    ensures var d := HandleProtocolError(c, number, line);
            Passed(c, d, []) && d.exitAlreadyEmitted == c.exitAlreadyEmitted
  {
    hide CloseGreeting;
    GreetingPasses(c);
    if c.inflight.Some? {
      SettlePasses(c, ProtocolFailed(number, line, c.inflight.value.response.output));
    }
    var d := if c.awaitingGreeting then CloseGreeting(c)
             else match c.inflight
               case None => c
               case Some(i) => Settle(c, ProtocolFailed(number, line, i.response.output));
    SaysPlain(d, [Malformed(number, line)]);
  }

  lemma EventPasses(c: Client, e: P.Event)
    requires !c.connection.Closed?
    ensures var d := Handle(c, e);
            && Passed(c, d, OneExit(MessagesOf([e]), c.exitAlreadyEmitted))
            && d.exitAlreadyEmitted == (c.exitAlreadyEmitted || HasExit(MessagesOf([e])))
  {
    hide HandleMessage, HandleProtocolError;
    assert [e][1..] == [];
    match e
    case Emitted(m) =>
      MessagePasses(c, m);
      assert MessagesOf([e]) == [m];
      assert HasExit([m]) <==> m.Exit?;
    case OutputLine(_, line) =>
    case ProtocolError(number, line) => ErrorPasses(c, number, line);
  }

  lemma PassedTwice(c: Client, d: Client, f: Client, a: seq<Message>, b: seq<Message>)
    requires Passed(c, d, a) && Passed(d, f, b)
    ensures Passed(c, f, a + b)
  {
    PlainAppend(a, b);
    assert Routed(c.log) + a + b == Routed(c.log) + (a + b);
    assert Told(c.log) + NoPaneOutput(a) + NoPaneOutput(b) == Told(c.log) + (NoPaneOutput(a) + NoPaneOutput(b));
  }

  lemma {:induction false} EventsPass(c: Client, events: seq<P.Event>)
    requires !c.connection.Closed?
    ensures var d := HandleAll(c, events);
            && Passed(c, d, OneExit(MessagesOf(events), c.exitAlreadyEmitted))
            && d.exitAlreadyEmitted == (c.exitAlreadyEmitted || HasExit(MessagesOf(events)))
    decreases |events|
  {
    hide Handle, HasExit, OneExit;
    if events == [] {
      NothingPasses(c);
    } else {
      EventPasses(c, events[0]);
      var d := Handle(c, events[0]);
      var first, rest := MessagesOf([events[0]]), MessagesOf(events[1..]);
      assert !d.connection.Closed? by { StaysOpen(c, d, OneExit(first, c.exitAlreadyEmitted)); }
      EventsPass(d, events[1..]);
      assert [events[0]] + events[1..] == events;
      EventsAppend([events[0]], events[1..]);
      ExitsAppend(first, rest, c.exitAlreadyEmitted);
      ExitInEither(first, rest);
      PassedTwice(c, d, HandleAll(d, events[1..]), OneExit(first, c.exitAlreadyEmitted), OneExit(rest, d.exitAlreadyEmitted));
    }
  }

  lemma StaysOpen(c: Client, d: Client, ms: seq<Message>)
    requires Passed(c, d, ms)
    ensures !d.connection.Closed?
  {
  }

  lemma NothingPasses(c: Client)
    requires !c.connection.Closed?
    ensures Passed(c, c, []) && OneExit(MessagesOf([]), c.exitAlreadyEmitted) == [] && !HasExit(MessagesOf([]))
  {
  }

  lemma ExitInEither(a: seq<Message>, b: seq<Message>)
    ensures HasExit(a + b) <==> HasExit(a) || HasExit(b)
  {
    assert forall m :: m in a + b <==> m in a || m in b;
  }

  // ---------------------------------------------------------------------------------------
  // Whole runs
  // ---------------------------------------------------------------------------------------

  /** A closed client passes nothing on. */
  lemma {:induction false} ClosedPassesNothing(c: Client, ops: seq<Op>)
    requires Inv(c) && c.connection.Closed?
    ensures var d := RunFrom(c, ops); Routed(d.log) == Routed(c.log) && Told(d.log) == Told(c.log)
    decreases |ops|
  {
    hide Inv, Step;
    if ops != [] {
      ClosedIsSilent(c, ops[0]);
      StepKeepsInv(c, ops[0]);
      var d := Step(c, ops[0]);
      var out := d.log[|c.log|..];
      assert d.log == c.log + out && forall o <- out :: !o.ToRouter? && !o.Notification?;
      LogsAppend(c.log, out);
      NothingIn(out);
      ClosedPassesNothing(d, ops[1..]);
    }
  }

  lemma StepKeepsInv(c: Client, op: Op)
    requires Inv(c)
    ensures Inv(Step(c, op))
  {
    hide Inv, Step;
    RunKeepsInv(c, [op]);
    RunOneOp(c, op);
  }

  lemma RunOneOp(c: Client, op: Op)
    ensures RunFrom(c, [op]) == Step(c, op)
  {
    hide Step;
    assert [op][1..] == [];
  }

  lemma ClosePasses(c: Client, reason: Option<string>)
    requires Inv(c) && !c.connection.Closed?
    ensures var d := CloseStep(c, reason);
            && d.connection.Closed? && Routed(d.log) == Routed(c.log)
            && Told(d.log) == Told(c.log) + if c.exitAlreadyEmitted then [] else [Exit(reason)]
  {
    hide Inv, RejectAll, Routed, Told, SetConnection;
    RejectPasses(c, reason);
    var s := RejectAll(c, reason);
    var e := if c.exitAlreadyEmitted then s else s.(exitAlreadyEmitted := true).Say([Notification(Exit(reason))]);
    LogsAppend(s.log, [Notification(Exit(reason))]);
    SingleOut(Notification(Exit(reason)));
    ClosedPasses(e, ReasonFor(c.userClosed, reason));
    assert Told(c.log) + [] == Told(c.log) && Routed(c.log) + [] == Routed(c.log);
  }

  lemma RejectPasses(c: Client, reason: Option<string>)
    ensures var d := RejectAll(c, reason);
            && Routed(d.log) == Routed(c.log) && Told(d.log) == Told(c.log)
            && d.connection == c.connection && d.exitAlreadyEmitted == c.exitAlreadyEmitted
  {
    var ids := InflightIds(c) + c.pending;
    RejectionsPass(ids, reason);
    var out := [RouterClosed] + Rejections(ids, reason);
    NothingIn(out);
    LogsAppend(c.log, out);
    hide Routed, Told, Rejections, InflightIds;
    assert Told(c.log) + [] == Told(c.log) && Routed(c.log) + [] == Routed(c.log);
  }

  lemma ClosedPasses(c: Client, why: CloseReason)
    requires !c.connection.Closed?
    ensures var d := SetConnection(c, Closed(why));
            d.connection.Closed? && Routed(d.log) == Routed(c.log) && Told(d.log) == Told(c.log)
  {
    var out: seq<Out> := [StateIs(Closed(why))];
    NothingIn(out);
    LogsAppend(c.log, out);
    hide Routed, Told;
    assert out + [] == out;
    assert Told(c.log) + [] == Told(c.log) && Routed(c.log) + [] == Routed(c.log);
  }

  lemma {:induction false} RejectionsPass(ids: seq<nat>, reason: Option<string>)
    ensures forall o <- Rejections(ids, reason) :: o.Settled?
    decreases |ids|
  {
    if ids != [] {
      RejectionsPass(ids[1..], reason);
    }
  }

  /** What a run from an open client passes on. */
  ghost predicate PassesOn(c: Client, ops: seq<Op>) {
    var d := RunFrom(c, ops);
    var ms := MessagesOf(P.Fed(c.parser, Heard(ops)).events);
    && Routed(d.log) == Routed(c.log) + OneExit(ms, c.exitAlreadyEmitted)
    && Told(d.log) == Told(c.log) + NoPaneOutput(OneExit(ms, c.exitAlreadyEmitted)) + MadeUp(ops, c.exitAlreadyEmitted || HasExit(ms))
  }

  lemma EmptyFeed(s: P.State)
    requires '\n' !in s.buffer
    ensures P.Fed(s, "").events == []
  {
    assert s.buffer + "" == s.buffer;
  }

  lemma {:induction false} OpenPassesOn(c: Client, ops: seq<Op>)
    requires Inv(c) && !c.connection.Closed? && '\n' !in c.parser.buffer
    ensures PassesOn(c, ops)
    decreases |ops|
  {
    hide Inv, OneExit, HasExit, NoPaneOutput, P.Fed, Passed;
    if ops == [] {
      EmptyFeed(c.parser);
      NothingPasses(c);
      PassedMeans(c, c, []);
    } else {
      StepKeepsInv(c, ops[0]);
      match ops[0]
      case Execute(command, accepted) => ExecutePasses(c, command, accepted); QuietThen(c, ops);
      case UserClose => UserClosePasses(c); QuietThen(c, ops);
      case Data(chunk) => DataThen(c, ops);
      case TransportClose(reason) => CloseThen(c, ops);
    }
  }

  lemma PassedMeans(c: Client, d: Client, ms: seq<Message>)
    requires Passed(c, d, ms)
    ensures !d.connection.Closed? && d.parser == c.parser
    ensures Routed(d.log) == Routed(c.log) + ms && Told(d.log) == Told(c.log) + NoPaneOutput(ms)
    ensures ms == [] ==> Routed(d.log) == Routed(c.log) && Told(d.log) == Told(c.log)
  {
  }

  lemma ExecutePasses(c: Client, command: string, accepted: bool)
    requires !c.connection.Closed?
    ensures var d := ExecuteStep(c, command, accepted); Passed(c, d, []) && d.exitAlreadyEmitted == c.exitAlreadyEmitted
  {
    hide Invalid;
    SaysPlain(c, []);
    SaysPlain(c, [Settled(c.issued, InvalidCommand)]);
    SaysPlain(c, [Settled(c.issued, SendRefused)]);
  }

  lemma UserClosePasses(c: Client)
    requires !c.connection.Closed?
    ensures Passed(c, c.(userClosed := true), [])
  {
  }

  /** A step that passes nothing on and hears nothing. */
  lemma QuietThen(c: Client, ops: seq<Op>)
    requires ops != [] && (ops[0].Execute? || ops[0].UserClose?) && Inv(c) && Inv(Step(c, ops[0])) && '\n' !in c.parser.buffer
    requires Passed(c, Step(c, ops[0]), []) && Step(c, ops[0]).exitAlreadyEmitted == c.exitAlreadyEmitted
    ensures PassesOn(c, ops)
    decreases |ops|, 0
  {
    hide Inv, OneExit, HasExit, NoPaneOutput, P.Fed, Passed, Step;
    PassedMeans(c, Step(c, ops[0]), []);
    OpenPassesOn(Step(c, ops[0]), ops[1..]);
    assert Heard(ops) == Heard(ops[1..]);
  }

  lemma CloseThen(c: Client, ops: seq<Op>)
    requires ops != [] && ops[0].TransportClose? && Inv(c) && !c.connection.Closed? && '\n' !in c.parser.buffer
    requires Inv(Step(c, ops[0]))
    ensures PassesOn(c, ops)
  {
    hide Inv, P.Fed, CloseStep;
    ClosePasses(c, ops[0].reason);
    ClosedPassesNothing(Step(c, ops[0]), ops[1..]);
    EmptyFeed(c.parser);
  }

  lemma DataThen(c: Client, ops: seq<Op>)
    requires ops != [] && ops[0].Data? && Inv(c) && !c.connection.Closed? && Inv(Step(c, ops[0]))
    ensures PassesOn(c, ops)
    decreases |ops|, 0
  {
    hide Inv, OneExit, HasExit, NoPaneOutput, P.Fed, Passed, HandleAll;
    var o := P.Fed(c.parser, ops[0].chunk);
    var x, d := c.(parser := o.state), DataStep(c, ops[0].chunk);
    EventsPass(x, o.events);
    PassedMeans(x, d, OneExit(MessagesOf(o.events), c.exitAlreadyEmitted));
    FedIsWhole(c.parser, ops[0].chunk);
    OpenPassesOn(d, ops[1..]);
    var rest := P.Fed(d.parser, Heard(ops[1..])).events;
    P.FeedTwice(c.parser, ops[0].chunk, Heard(ops[1..]));
    EventsAppend(o.events, rest);
    PassedBoth(c, d, ops, MessagesOf(o.events), MessagesOf(rest));
  }

  lemma FedIsWhole(s: P.State, chunk: string)
    ensures '\n' !in P.Fed(s, chunk).state.buffer
  {
  }

  /** What the chunk says, then what the rest says. */
  lemma PassedBoth(c: Client, d: Client, ops: seq<Op>, a: seq<Message>, b: seq<Message>)
    requires ops != [] && ops[0].Data? && d == Step(c, ops[0])
    requires MessagesOf(P.Fed(c.parser, Heard(ops)).events) == a + b && MessagesOf(P.Fed(d.parser, Heard(ops[1..])).events) == b
    requires Routed(d.log) == Routed(c.log) + OneExit(a, c.exitAlreadyEmitted)
    requires Told(d.log) == Told(c.log) + NoPaneOutput(OneExit(a, c.exitAlreadyEmitted))
    requires d.exitAlreadyEmitted == (c.exitAlreadyEmitted || HasExit(a)) && PassesOn(d, ops[1..])
    ensures PassesOn(c, ops)
  {
    hide OneExit, HasExit, NoPaneOutput, P.Fed, Step, Heard, Routed, Told, MessagesOf;
    ExitsAppend(a, b, c.exitAlreadyEmitted);
    ExitInEither(a, b);
    var x, y := OneExit(a, c.exitAlreadyEmitted), OneExit(b, d.exitAlreadyEmitted);
    PlainAppend(x, y);
    var exited := c.exitAlreadyEmitted || HasExit(a + b);
    assert MadeUp(ops, exited) == MadeUp(ops[1..], exited);
    assert (Routed(c.log) + x) + y == Routed(c.log) + (x + y);
    var f := RunFrom(c, ops);
    Regroup(Told(c.log), NoPaneOutput(x), NoPaneOutput(y), MadeUp(ops, exited));
  }

  lemma Regroup(a: seq<Message>, b: seq<Message>, c: seq<Message>, d: seq<Message>)
    ensures ((a + b) + c) + d == (a + (b + c)) + d
  {
  }

  /**
    In every run, the router is passed the messages of the text received until the transport closed, in order, with
    no exit after the first; the listeners are passed the same without pane output, and, when the transport closed
    without an exit received, one made up from the close.
   */
  lemma EveryMessageIsPassedOn(ops: seq<Op>)
    ensures var log := RunFrom(INIT, ops).log;
            var ms := MessagesOf(P.Fed(P.INIT, Heard(ops)).events);
            && Routed(log) == OneExit(ms, false)
            && Told(log) == NoPaneOutput(OneExit(ms, false)) + MadeUp(ops, HasExit(ms))
  {
    hide P.Fed, OneExit, HasExit, NoPaneOutput, MadeUp, RunFrom, Heard, MessagesOf;
    StartKeepsInv();
    OpenPassesOn(INIT, ops);
    var ms := MessagesOf(P.Fed(P.INIT, Heard(ops)).events);
    assert Routed([]) == [] && Told([]) == [];
    assert Routed(INIT.log) + OneExit(ms, false) == OneExit(ms, false);
    assert Told(INIT.log) + NoPaneOutput(OneExit(ms, false)) == NoPaneOutput(OneExit(ms, false));
  }

  lemma StartKeepsInv()
    ensures Inv(INIT) && '\n' !in INIT.parser.buffer
  {
  }
}

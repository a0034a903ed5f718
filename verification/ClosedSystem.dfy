/**
  Client, parser and scripted server as one system (src/client.ts, src/protocol/parser.ts,
  src/mock/server.ts). After `start`, commands, notifications and deliveries interleave freely;
  every accepted command is settled with the scenario's reply to it, in order.
 */
module ClosedSystem {
  import opened Options
  import opened JsStrings
  import opened Messages
  import opened ClientSpec
  import opened MockServer
  import P = Parser

  datatype Command = Command(id: nat, text: string)

  /**
    `outbound` are the chunks not yet delivered. The history: `delivered` chunks, the `items` enqueued,
    the commands the server was sent.
   */
  datatype System = System(
    client: Client,
    number: nat,
    outbound: seq<string>,
    delivered: seq<string>,
    items: seq<P.Item>,
    accepted: seq<Command>
  )

  datatype Action = Exec(command: string) | Emit(m: Message) | Deliver

  // ---------------------------------------------------------------------------------------
  // The system's steps
  // ---------------------------------------------------------------------------------------

  function Notes(messages: seq<Message>): seq<P.Item> {
    if messages == [] then [] else [P.Note(messages[0])] + Notes(messages[1..])
  }

  function ChunksOf(items: seq<P.Item>): seq<string> {
    if items == [] then [] else ChunksFor(items[0]) + ChunksOf(items[1..])
  }

  function Enqueue(s: System, items: seq<P.Item>): System {
    s.(outbound := s.outbound + ChunksOf(items), items := s.items + items)
  }

  /** The system right after `start`. */
  function Started(sc: Scenario): System {
    Enqueue(System(ClientSpec.INIT, 1, [], [], [], []), [GreetingBlock(sc, 1)] + Notes(sc.greeting))
  }

  /** `execute`: the server sees the command only when the client sends it. */
  function ExecNow(sc: Scenario, s: System, command: string): System {
    var d := s.(client := ExecuteStep(s.client, command, true));
    if s.client.connection.Closed? || Invalid(command) then d
    else Enqueue(d.(number := s.number + 1, accepted := s.accepted + [Command(s.client.issued, command)]),
                 [BlockFor(sc, s.number + 1, command)])
  }

  function DeliverNow(s: System): System
    requires s.outbound != []
  {
    s.(client := DataStep(s.client, s.outbound[0]), outbound := s.outbound[1..], delivered := s.delivered + [s.outbound[0]])
  }

  /** A notification the protocol can carry, and a delivery only of something enqueued. */
  predicate CanAct(s: System, a: Action) {
    match a
    case Exec(_) => true
    case Emit(m) => P.InDomain(P.Note(m))
    case Deliver => s.outbound != []
  }

  function Act(sc: Scenario, s: System, a: Action): System
    requires CanAct(s, a)
  {
    match a
    case Exec(command) => ExecNow(sc, s, command)
    case Emit(m) => Enqueue(s, [P.Note(m)])
    case Deliver => DeliverNow(s)
  }

  predicate CanRun(sc: Scenario, s: System, actions: seq<Action>)
    decreases |actions|
  {
    actions == [] || (CanAct(s, actions[0]) && CanRun(sc, Act(sc, s, actions[0]), actions[1..]))
  }

  function Run(sc: Scenario, s: System, actions: seq<Action>): System
    requires CanRun(sc, s, actions)
    decreases |actions|
  {
    if actions == [] then s else Run(sc, Act(sc, s, actions[0]), actions[1..])
  }

  /** Reply lines are single lines that do not look like a terminator; greeting messages are notifications. */
  ghost predicate Faithful(sc: Scenario) {
    && (forall command: string :: OutputsFit(sc, command))
    && forall m <- sc.greeting :: P.InDomain(P.Note(m))
  }

  predicate OutputsFit(sc: Scenario, command: string) {
    forall l <- OutputOf(sc.respond(command)) :: P.OutputText(l)
  }

  // ---------------------------------------------------------------------------------------
  // What is expected
  // ---------------------------------------------------------------------------------------

  /** How the command with the given number must be settled: the scenario's answer decides, and nothing else. */
  function ReplyTo(sc: Scenario, c: Command, number: nat): Out {
    var n, t := Int(number), sc.now(number);
    Settled(c.id, match sc.respond(c.text)
                  case Answered(true, output) => Resolved(Response(n, t, output))
                  case Answered(false, output) => CommandFailed(Response(n, t, output))
                  case Silent => Resolved(Response(n, t, []))
                  case Throws(message) => CommandFailed(Response(n, t, [message])))
  }

  /** The greeting has number 1, the k-th accepted command (from 0) number k + 2. */
  function Expected(sc: Scenario, accepted: seq<Command>): seq<Out> {
    if accepted == [] then []
    else Expected(sc, accepted[..|accepted| - 1]) + [ReplyTo(sc, accepted[|accepted| - 1], |accepted| + 1)]
  }

  /** The settlements of commands that were sent. */
  function Replies(log: seq<Out>): seq<Out> {
    if log == [] then []
    else Replies(log[..|log| - 1]) + if IsReply(log[|log| - 1]) then [log[|log| - 1]] else []
  }

  predicate IsReply(o: Out) {
    o.Settled? && !o.outcome.InvalidCommand?
  }

  lemma {:induction false} RepliesAppend(a: seq<Out>, b: seq<Out>)
    ensures Replies(a + b) == Replies(a) + Replies(b)
    decreases |b|
  {
    if b == [] {
      assert a + b == a;
    } else {
      var n := |b| - 1;
      assert (a + b)[..|a + b| - 1] == a + b[..n];
      RepliesAppend(a, b[..n]);
    }
  }

  lemma RepliesPlus(log: seq<Out>, o: Out)
    ensures Replies(log + [o]) == Replies(log) + if IsReply(o) then [o] else []
  {
    assert (log + [o])[..|log|] == log;
  }

  // ---------------------------------------------------------------------------------------
  // Handling events: appending, and what a later command does not disturb
  // ---------------------------------------------------------------------------------------

  lemma {:induction false} HandleAppend(c: Client, a: seq<P.Event>, b: seq<P.Event>)
    ensures HandleAll(c, a + b) == HandleAll(HandleAll(c, a), b)
    decreases |a|
  {
    hide Handle;
    if a == [] {
      assert a + b == b;
    } else {
      assert (a + b)[1..] == a[1..] + b;
      HandleAppend(Handle(c, a[0]), a[1..], b);
    }
  }

  lemma HandleParser(c: Client, e: P.Event, s: P.State)
    ensures Handle(c.(parser := s), e) == Handle(c, e).(parser := s)
  {
    hide HandleMessage;
    match e
    case Emitted(m) => MessageParser(c, m, s);
    case OutputLine(_, _) =>
    case ProtocolError(_, _) =>
  }

  lemma MessageParser(c: Client, m: Message, s: P.State)
    ensures HandleMessage(c.(parser := s), m) == HandleMessage(c, m).(parser := s)
  {
    hide Correlate;
    CorrelateParser(c, m, s);
  }

  lemma CorrelateParser(c: Client, m: Message, s: P.State)
    ensures Correlate(c.(parser := s), m) == Correlate(c, m).(parser := s)
  {
    hide Begun, Ended;
    BegunParser(c, m, s);
    EndedParser(c, s);
  }

  lemma BegunParser(c: Client, m: Message, s: P.State)
    ensures m.Guard? ==> Begun(c.(parser := s), m) == Begun(c, m).(parser := s)
  {
  }

  lemma EndedParser(c: Client, s: P.State)
    ensures forall ok :: Ended(c.(parser := s), ok) == Ended(c, ok).(parser := s)
  {
    hide Reply;
  }

  lemma {:induction false} HandleAllParser(c: Client, events: seq<P.Event>, s: P.State)
    ensures HandleAll(c.(parser := s), events) == HandleAll(c, events).(parser := s)
    decreases |events|
  {
    hide Handle;
    if events != [] {
      HandleParser(c, events[0], s);
      HandleAllParser(Handle(c, events[0]), events[1..], s);
    }
  }

  /** Whenever a block opens, a command is waiting for it (or it is the greeting). */
  predicate Room(c: Client, events: seq<P.Event>)
    decreases |events|
  {
    events == [] || (RoomFor(c, events[0]) && Room(Handle(c, events[0]), events[1..]))
  }

  predicate RoomFor(c: Client, e: P.Event) {
    e.Emitted? && P.Opens(e.m) ==> c.awaitingGreeting || c.pending != []
  }

  lemma {:induction false} RoomAppend(c: Client, a: seq<P.Event>, b: seq<P.Event>)
    ensures Room(c, a + b) <==> Room(c, a) && Room(HandleAll(c, a), b)
    decreases |a|
  {
    hide Handle, RoomFor;
    if a == [] {
      assert a + b == b;
    } else {
      assert (a + b)[1..] == a[1..] + b;
      RoomAppend(Handle(c, a[0]), a[1..], b);
    }
  }

  lemma {:induction false} RoomParser(c: Client, events: seq<P.Event>, s: P.State)
    ensures Room(c.(parser := s), events) <==> Room(c, events)
    decreases |events|
  {
    hide Handle;
    if events != [] {
      HandleParser(c, events[0], s);
      RoomParser(Handle(c, events[0]), events[1..], s);
    }
  }

  /** `d` is `c` with commands executed since: more promises at the back, the same replies so far. */
  predicate Ahead(c: Client, d: Client, more: seq<nat>) {
    && d == c.(issued := d.issued, pending := c.pending + more, log := d.log)
    && Replies(d.log) == Replies(c.log)
  }

  /** Both say the same. */
  predicate SaysSame(c: Client, c1: Client, d: Client, d1: Client) {
    && |c.log| <= |c1.log| && c1.log == c.log + c1.log[|c.log|..]
    && |d.log| <= |d1.log| && d1.log == d.log + d1.log[|d.log|..]
    && c1.log[|c.log|..] == d1.log[|d.log|..]
  }

  lemma SameReplies(c: Client, c1: Client, d: Client, d1: Client)
    requires SaysSame(c, c1, d, d1) && Replies(d.log) == Replies(c.log)
    ensures Replies(d1.log) == Replies(c1.log)
  {
    RepliesAppend(c.log, c1.log[|c.log|..]);
    RepliesAppend(d.log, d1.log[|d.log|..]);
  }

  lemma SettingAhead(c: Client, d: Client, more: seq<nat>)
    requires Ahead(c, d, more)
    ensures Ahead(CloseGreeting(c), CloseGreeting(d), more)
  {
    hide Replies;
    SameReplies(c, CloseGreeting(c), d, CloseGreeting(d));
  }

  lemma CorrelateAhead(c: Client, d: Client, more: seq<nat>, m: Message)
    requires Ahead(c, d, more) && RoomFor(c, P.Emitted(m))
    ensures Ahead(Correlate(c, m), Correlate(d, m), more)
  {
    hide Replies, CloseGreeting;
    match m
    case Guard(Begin, _, _, _) =>
      if c.pending != [] {
        assert (c.pending + more)[1..] == c.pending[1..] + more;
      }
    case Guard(g, _, _, _) =>
      if c.awaitingGreeting {
        SettingAhead(c, d, more);
      } else if c.inflight.Some? {
        SettleAhead(c, d, more, Reply(c.inflight.value.response, g == End));
      }
    case _ =>
  }

  lemma SettleAhead(c: Client, d: Client, more: seq<nat>, outcome: Outcome)
    requires Ahead(c, d, more) && c.inflight.Some?
    ensures Ahead(Settle(c, outcome), Settle(d, outcome), more)
  {
    hide Replies;
    SameReplies(c, Settle(c, outcome), d, Settle(d, outcome));
  }

  lemma SayAhead(c: Client, d: Client, more: seq<nat>, out: seq<Out>)
    requires Ahead(c, d, more)
    ensures Ahead(c.Say(out), d.Say(out), more)
  {
    hide Replies;
    SameReplies(c, c.Say(out), d, d.Say(out));
  }

  lemma MessageAhead(c: Client, d: Client, more: seq<nat>, m: Message)
    requires Ahead(c, d, more) && RoomFor(c, P.Emitted(m))
    ensures Ahead(HandleMessage(c, m), HandleMessage(d, m), more)
  {
    hide Replies, Correlate;
    if !(c.connection.Closed? || (m.Exit? && c.exitAlreadyEmitted)) {
      CorrelateAhead(c, d, more, m);
      var was := c.exitAlreadyEmitted || m.Exit?;
      SayAhead(Correlate(c, m).(exitAlreadyEmitted := was), Correlate(d, m).(exitAlreadyEmitted := was), more,
               [ToRouter(m)] + if IsPaneOutput(m) then [] else [Notification(m)]);
    }
  }

  lemma HandleAhead(c: Client, d: Client, more: seq<nat>, e: P.Event)
    requires Ahead(c, d, more) && RoomFor(c, e)
    ensures Ahead(Handle(c, e), Handle(d, e), more) && RoomFor(d, e)
  {
    hide Replies, HandleMessage, CloseGreeting;
    match e
    case Emitted(m) => MessageAhead(c, d, more, m);
    case OutputLine(_, _) =>
    case ProtocolError(number, line) =>
      if !c.connection.Closed? {
        if c.awaitingGreeting {
          SettingAhead(c, d, more);
          SayAhead(CloseGreeting(c), CloseGreeting(d), more, [Malformed(number, line)]);
        } else if c.inflight.Some? {
          var outcome := ProtocolFailed(number, line, c.inflight.value.response.output);
          SettleAhead(c, d, more, outcome);
          SayAhead(Settle(c, outcome), Settle(d, outcome), more, [Malformed(number, line)]);
        } else {
          SayAhead(c, d, more, [Malformed(number, line)]);
        }
      }
  }

  /** A command executed now finds its promise at the back of the queue once everything outstanding is handled. */
  lemma {:induction false} HandleAllAhead(c: Client, d: Client, more: seq<nat>, events: seq<P.Event>)
    requires Ahead(c, d, more) && Room(c, events)
    ensures Ahead(HandleAll(c, events), HandleAll(d, events), more) && Room(d, events)
    decreases |events|
  {
    hide Handle, Ahead, RoomFor;
    if events != [] {
      HandleAhead(c, d, more, events[0]);
      HandleAllAhead(Handle(c, events[0]), Handle(d, events[0]), more, events[1..]);
    }
  }

  // ---------------------------------------------------------------------------------------
  // Handling a whole block or a notification
  // ---------------------------------------------------------------------------------------

  /** Nothing outstanding: every accepted command has been settled as expected. */
  predicate Quiet(sc: Scenario, c: Client, accepted: seq<Command>) {
    && c.pending == [] && c.inflight.None? && !c.awaitingGreeting && c.connection == Ready
    && Replies(c.log) == Expected(sc, accepted)
  }

  lemma {:induction false} OutputsHandled(c: Client, number: Num, lines: seq<string>)
    requires c.inflight.Some?
    ensures HandleAll(c, P.OutputEvents(number, lines))
         == c.(inflight := Some(c.inflight.value.(response := c.inflight.value.response.(output := c.inflight.value.response.output + lines))))
    decreases |lines|
  {
    var r := c.inflight.value.response;
    if lines == [] {
      assert r.output + [] == r.output;
    } else {
      var e := P.OutputLine(number, lines[0]);
      var events := P.OutputEvents(number, lines);
      assert events[0] == e && events[1..] == P.OutputEvents(number, lines[1..]);
      OutputsHandled(Handle(c, e), number, lines[1..]);
      assert (r.output + [lines[0]]) + lines[1..] == r.output + lines;
    }
  }

  lemma {:induction false} OutputsNeedNoRoom(c: Client, number: Num, lines: seq<string>)
    ensures Room(c, P.OutputEvents(number, lines))
    decreases |lines|
  {
    hide Handle;
    if lines != [] {
      var events := P.OutputEvents(number, lines);
      assert events[0] == P.OutputLine(number, lines[0]) && events[1..] == P.OutputEvents(number, lines[1..]);
      OutputsNeedNoRoom(Handle(c, events[0]), number, lines[1..]);
    }
  }

  lemma OneEvent(c: Client, e: P.Event)
    ensures HandleAll(c, [e]) == Handle(c, e)
    ensures Room(c, [e]) <==> RoomFor(c, e)
  {
    hide Handle, RoomFor;
    assert [e][1..] == [];
  }

  /** What a block's terminator says of the command it answers. */
  function Verdict(open: Message, lines: seq<string>, close: Message): Outcome
    requires open.Guard? && close.Guard?
  {
    var response := Response(open.commandNumber, open.timestamp, lines);
    match close.guard
    case End => Resolved(response)
    case _ => CommandFailed(response)
  }

  /** The events of a block: claim the oldest waiting promise, collect the lines, settle as the terminator says. */
  lemma BlockHandled(c: Client, open: Message, lines: seq<string>, close: Message)
    requires c.pending != [] && c.inflight.None? && !c.awaitingGreeting && c.connection == Ready
    requires P.Opens(open) && P.Closes(close)
    ensures var events := P.Received(P.Block(open, lines, close));
            var d := HandleAll(c, events);
            && Room(c, events) && d == c.(pending := c.pending[1..], log := d.log)
            && Replies(d.log) == Replies(c.log) + [Settled(c.pending[0], Verdict(open, lines, close))]
  {
    hide Replies, HandleAll, Room, P.OutputEvents, Verdict, HandleMessage;
    var outs := P.OutputEvents(open.commandNumber, lines);
    var c1 := Handle(c, P.Emitted(open));
    var c2 := HandleAll(c1, outs);
    OneEvent(c, P.Emitted(open));
    BlockOpens(c, open);
    OutputsHandled(c1, open.commandNumber, lines);
    OutputsNeedNoRoom(c1, open.commandNumber, lines);
    OneEvent(c2, P.Emitted(close));
    HandleAppend(c, [P.Emitted(open)], outs);
    HandleAppend(c, [P.Emitted(open)] + outs, [P.Emitted(close)]);
    RoomAppend(c, [P.Emitted(open)], outs);
    RoomAppend(c, [P.Emitted(open)] + outs, [P.Emitted(close)]);
    assert [] + lines == lines;
    BlockCloses(c2, open, lines, close);
  }

  lemma BlockOpens(c: Client, open: Message)
    requires c.pending != [] && c.inflight.None? && !c.awaitingGreeting && c.connection == Ready && P.Opens(open)
    ensures var d := HandleMessage(c, open);
            && d == c.(pending := c.pending[1..], log := d.log,
                       inflight := Some(Inflight(c.pending[0], Response(open.commandNumber, open.timestamp, []))))
            && Replies(d.log) == Replies(c.log)
  {
    hide Replies;
    ToldIsNoReply(c.log, open);
    assert HandleMessage(c, open).log == c.log + [ToRouter(open), Notification(open)];
  }

  lemma BlockCloses(c: Client, open: Message, lines: seq<string>, close: Message)
    requires P.Opens(open) && P.Closes(close) && !c.awaitingGreeting && c.connection == Ready
    requires c.inflight.Some? && c.inflight.value.response == Response(open.commandNumber, open.timestamp, lines)
    ensures var d := HandleMessage(c, close);
            && d == c.(inflight := None, log := d.log)
            && Replies(d.log) == Replies(c.log) + [Settled(c.inflight.value.id, Verdict(open, lines, close))]
  {
    hide Replies;
    var out := Settled(c.inflight.value.id, Verdict(open, lines, close));
    assert HandleMessage(c, close).log == (c.log + [out]) + [ToRouter(close), Notification(close)];
    RepliesPlus(c.log, out);
    ToldIsNoReply(c.log + [out], close);
  }

  /** On the wire: a whole block resolves the oldest waiting promise when it closes with `%end`, and fails it on `%error`. */
  lemma BlockSettles(c: Client, open: Message, lines: seq<string>, close: Message)
    requires c.pending != [] && c.inflight.None? && !c.awaitingGreeting && c.connection == Ready && c.parser == P.INIT
    requires P.InDomain(P.Block(open, lines, close))
    ensures var d := DataStep(c, P.Wire([P.Block(open, lines, close)]));
            && d == c.(pending := c.pending[1..], log := d.log)
            && Replies(d.log) == Replies(c.log) + [Settled(c.pending[0], Verdict(open, lines, close))]
  {
    hide Replies, HandleAll, Room, Verdict, P.Wire, P.Fed;
    var item := P.Block(open, lines, close);
    var text := P.Wire([item]);
    assert P.Concat([text]) == text by { assert text + "" == text; assert [text][1..] == []; }
    P.StreamRoundTrip([item], [text]);
    ReceivedOne(item);
    FedOne(P.INIT, text);
    assert c.(parser := P.INIT) == c;
    BlockHandled(c, open, lines, close);
  }

  /** A terminator the parser cannot read fails the command with the line and the output so far, and closes the block. */
  lemma MalformedTerminatorFails(c: Client, line: string)
    requires c.inflight.Some? && !c.awaitingGreeting && c.connection == Ready && c.parser.active != P.NO_BLOCK && c.parser.buffer == ""
    requires OneLine(line) && P.IsTerminator(line) && ParseLine(line).None?
    ensures var d := DataStep(c, line + "\n");
            && d == c.(parser := P.INIT, inflight := None, log := d.log)
            && Replies(d.log) == Replies(c.log) + [Settled(c.inflight.value.id,
                 ProtocolFailed(c.parser.active, line, c.inflight.value.response.output))]
  {
    hide Replies, ParseLine, P.IsTerminator, P.Consume, HandleAll;
    var active := c.parser.active;
    P.ConsumeLine(active, line, "");
    P.NothingToConsume(P.INIT);
    var chunk := line + "\n";
    assert chunk == line + (['\n'] + "") && c.parser.buffer + chunk == chunk;
    MalformedLine(active, line);
    assert P.Fed(c.parser, chunk) == P.Outcome(P.INIT, [P.ProtocolError(active, line)]);
    HandleOne(c.(parser := P.INIT), P.ProtocolError(active, line));
    var out := Settled(c.inflight.value.id, ProtocolFailed(active, line, c.inflight.value.response.output));
    RepliesPlus(c.log, out);
    RepliesPlus(c.log + [out], Malformed(active, line));
  }

  lemma MalformedLine(active: Num, line: string)
    requires active != P.NO_BLOCK && P.IsTerminator(line) && ParseLine(line).None?
    ensures P.Line(active, line) == (P.NO_BLOCK, [P.ProtocolError(active, line)])
  {
  }

  lemma FedOne(s: P.State, chunk: string)
    ensures P.FedAll(s, [chunk]) == P.Fed(s, chunk)
  {
    hide P.Fed;
    var first := P.Fed(s, chunk);
    assert [chunk][1..] == [] && first.events + [] == first.events;
  }

  /** A command's block says what the scenario answered. */
  lemma BlockSays(sc: Scenario, command: Command, number: nat)
    ensures var item := BlockFor(sc, number, command.text);
            && item.Block? && P.Opens(item.open) && P.Closes(item.close)
            && Settled(command.id, Verdict(item.open, item.lines, item.close)) == ReplyTo(sc, command, number)
  {
  }

  lemma ToldIsNoReply(log: seq<Out>, m: Message)
    ensures Replies(log + [ToRouter(m), Notification(m)]) == Replies(log)
    ensures Replies(log + [ToRouter(m)]) == Replies(log)
  {
    hide Replies;
    RepliesPlus(log, ToRouter(m));
    RepliesPlus(log + [ToRouter(m)], Notification(m));
    assert log + [ToRouter(m), Notification(m)] == (log + [ToRouter(m)]) + [Notification(m)];
  }

  /** A notification disturbs no promise. */
  lemma NoteHandled(sc: Scenario, c: Client, m: Message, accepted: seq<Command>)
    requires Quiet(sc, c, accepted) && !m.Guard?
    ensures Quiet(sc, HandleAll(c, [P.Emitted(m)]), accepted) && Room(c, [P.Emitted(m)])
  {
    hide Replies, HandleAll, Room, Expected;
    OneEvent(c, P.Emitted(m));
    ToldIsNoReply(c.log, m);
    assert [ToRouter(m)] + [] == [ToRouter(m)] && [ToRouter(m)] + [Notification(m)] == [ToRouter(m), Notification(m)];
  }

  lemma {:induction false} NotesHandled(sc: Scenario, c: Client, messages: seq<Message>, accepted: seq<Command>)
    requires Quiet(sc, c, accepted) && forall m <- messages :: !m.Guard?
    ensures var events := P.ReceivedAll(Notes(messages));
            Quiet(sc, HandleAll(c, events), accepted) && Room(c, events)
    decreases |messages|
  {
    hide Quiet, HandleAll, Room;
    if messages == [] {
      Nothing(c);
    } else {
      var m := messages[0];
      NoteHandled(sc, c, m, accepted);
      var rest := P.ReceivedAll(Notes(messages[1..]));
      NotesHandled(sc, HandleAll(c, [P.Emitted(m)]), messages[1..], accepted);
      assert P.ReceivedAll(Notes(messages)) == [P.Emitted(m)] + rest by { NotesCons(messages); }
      HandleAppend(c, [P.Emitted(m)], rest);
      RoomAppend(c, [P.Emitted(m)], rest);
    }
  }

  lemma NotesCons(messages: seq<Message>)
    requires messages != []
    ensures P.ReceivedAll(Notes(messages)) == [P.Emitted(messages[0])] + P.ReceivedAll(Notes(messages[1..]))
  {
    var items := Notes(messages);
    assert items[0] == P.Note(messages[0]) && items[1..] == Notes(messages[1..]);
  }

  lemma Nothing(c: Client)
    ensures HandleAll(c, []) == c && Room(c, [])
  {
  }

  lemma GreetingHandled(sc: Scenario)
    ensures var events := P.Received(GreetingBlock(sc, 1));
            Quiet(sc, HandleAll(ClientSpec.INIT, events), []) && Room(ClientSpec.INIT, events)
  {
    hide Replies, HandleAll, Room;
    var open, close := Guarded(sc, Begin, 1), Guarded(sc, End, 1);
    var c0 := ClientSpec.INIT;
    var c1 := HandleMessage(c0, open);
    assert P.OutputEvents(Int(1), []) == [];
    assert P.Received(GreetingBlock(sc, 1)) == [P.Emitted(open)] + [P.Emitted(close)];
    OneEvent(c0, P.Emitted(open));
    OneEvent(c1, P.Emitted(close));
    HandleAppend(c0, [P.Emitted(open)], [P.Emitted(close)]);
    RoomAppend(c0, [P.Emitted(open)], [P.Emitted(close)]);
    GreetingLog(sc, c1);
  }

  lemma GreetingLog(sc: Scenario, c1: Client)
    requires c1 == HandleMessage(ClientSpec.INIT, Guarded(sc, Begin, 1))
    ensures var d := HandleMessage(c1, Guarded(sc, End, 1));
            d.pending == [] && d.inflight.None? && !d.awaitingGreeting && d.connection == Ready && Replies(d.log) == []
  {
    hide Replies;
    var open, close := Guarded(sc, Begin, 1), Guarded(sc, End, 1);
    var d := HandleMessage(c1, close);
    assert c1.log == [] + [ToRouter(open), Notification(open)];
    assert d.log == ((c1.log + [StateIs(Ready)]) + [RouterReady]) + [ToRouter(close), Notification(close)];
    EmptyReplies();
    ToldIsNoReply([], open);
    RepliesPlus(c1.log, StateIs(Ready));
    RepliesPlus(c1.log + [StateIs(Ready)], RouterReady);
    ToldIsNoReply((c1.log + [StateIs(Ready)]) + [RouterReady], close);
  }

  lemma EmptyReplies()
    ensures Replies([]) == []
  {
  }

  // ---------------------------------------------------------------------------------------
  // The invariant
  // ---------------------------------------------------------------------------------------

  /** What the undelivered chunks will be read as, and the parser state they leave. */
  function Outstanding(s: System): P.Outcome {
    P.FedAll(s.client.parser, s.outbound)
  }

  /** Once everything outstanding is handled, every accepted command has been settled as expected. */
  predicate Invariant(sc: Scenario, s: System) {
    && Outstanding(s).state == P.INIT
    && Room(s.client, Outstanding(s).events)
    && Quiet(sc, HandleAll(s.client, Outstanding(s).events), s.accepted)
    && s.number == |s.accepted| + 1
    && s.delivered + s.outbound == ChunksOf(s.items)
    && forall i <- s.items :: P.InDomain(i)
  }

  lemma {:induction false} FedAppend(s: P.State, a: seq<string>, b: seq<string>)
    ensures var first := P.FedAll(s, a);
            P.FedAll(s, a + b) == P.FedAll(first.state, b).Prepend(first.events)
    decreases |a|
  {
    hide P.Fed;
    if a == [] {
      assert a + b == b;
      assert P.FedAll(s, b).Prepend([]) == P.FedAll(s, b);
    } else {
      assert (a + b)[0] == a[0] && (a + b)[1..] == a[1..] + b;
      var one := P.Fed(s, a[0]);
      FedAppend(one.state, a[1..], b);
      var first := P.FedAll(one.state, a[1..]);
      P.PrependTwice(P.FedAll(first.state, b), one.events, first.events);
    }
  }

  lemma {:induction false} ChunksAppend(a: seq<P.Item>, b: seq<P.Item>)
    ensures ChunksOf(a + b) == ChunksOf(a) + ChunksOf(b)
  {
    hide ChunksFor;
    if a == [] {
      assert a + b == b;
    } else {
      assert (a + b)[1..] == a[1..] + b;
      ChunksAppend(a[1..], b);
    }
  }

  lemma {:induction false} ConcatAppend(a: seq<string>, b: seq<string>)
    ensures P.Concat(a + b) == P.Concat(a) + P.Concat(b)
  {
    if a == [] {
      assert a + b == b;
    } else {
      assert (a + b)[1..] == a[1..] + b;
      ConcatAppend(a[1..], b);
    }
  }

  lemma {:induction false} TerminatedText(lines: seq<string>)
    ensures P.Concat(Terminated(lines)) == P.LinesText(lines)
  {
    if lines != [] {
      TerminatedText(lines[1..]);
    }
  }

  /** The enqueued chunks spell the items' wire text. */
  lemma {:induction false} ChunksText(items: seq<P.Item>)
    ensures P.Concat(ChunksOf(items)) == P.Wire(items)
  {
    hide P.WireLines;
    if items != [] {
      ChunksText(items[1..]);
      TerminatedText(P.WireLines(items[0]));
      ConcatAppend(ChunksFor(items[0]), ChunksOf(items[1..]));
    }
  }

  /** Enqueueing whole items adds exactly their events to what is outstanding. */
  lemma EnqueueAdds(s: System, items: seq<P.Item>)
    requires Outstanding(s).state == P.INIT && forall i <- items :: P.InDomain(i)
    ensures Outstanding(Enqueue(s, items)) == P.Outcome(P.INIT, Outstanding(s).events + P.ReceivedAll(items))
  {
    hide P.FedAll, ChunksOf, P.InDomain, P.ReceivedAll;
    ChunksText(items);
    P.StreamRoundTrip(items, ChunksOf(items));
    FedAppend(s.client.parser, s.outbound, ChunksOf(items));
  }

  lemma ReceivedOne(i: P.Item)
    ensures P.ReceivedAll([i]) == P.Received(i)
  {
    hide P.Received;
    assert P.Received(i) + [] == P.Received(i);
  }

  /** Enqueued items, read after everything outstanding. */
  lemma EnqueueKeeps(sc: Scenario, s: System, items: seq<P.Item>, accepted: seq<Command>)
    requires Outstanding(s).state == P.INIT && Room(s.client, Outstanding(s).events)
    requires (forall i <- items :: P.InDomain(i)) && (forall i <- s.items :: P.InDomain(i))
    requires s.delivered + s.outbound == ChunksOf(s.items)
    requires var f := HandleAll(s.client, Outstanding(s).events);
             Room(f, P.ReceivedAll(items)) && Quiet(sc, HandleAll(f, P.ReceivedAll(items)), accepted)
    ensures s.number == |accepted| + 1 ==> Invariant(sc, Enqueue(s, items).(accepted := accepted))
  {
    hide P.FedAll, ChunksOf, P.InDomain, P.ReceivedAll, Room, HandleAll, Quiet;
    EnqueueAdds(s, items);
    HandleAppend(s.client, Outstanding(s).events, P.ReceivedAll(items));
    RoomAppend(s.client, Outstanding(s).events, P.ReceivedAll(items));
    ChunksAppend(s.items, items);
    assert s.delivered + (s.outbound + ChunksOf(items)) == (s.delivered + s.outbound) + ChunksOf(items);
  }

  lemma StartedInvariant(sc: Scenario)
    requires Faithful(sc)
    ensures Invariant(sc, Started(sc))
  {
    hide ChunksOf, P.FedAll, P.ReceivedAll, Room, HandleAll, Quiet, Enqueue;
    var empty := System(ClientSpec.INIT, 1, [], [], [], []);
    var items := [GreetingBlock(sc, 1)] + Notes(sc.greeting);
    EmptyOutstanding(empty);
    Nothing(empty.client);
    GreetingHandled(sc);
    NotesInDomain(sc.greeting);
    GuardsAreGuards(sc, 1);
    var f := HandleAll(ClientSpec.INIT, P.Received(GreetingBlock(sc, 1)));
    NotesHandled(sc, f, sc.greeting, []);
    ReceivedCons(GreetingBlock(sc, 1), Notes(sc.greeting));
    HandleAppend(ClientSpec.INIT, P.Received(GreetingBlock(sc, 1)), P.ReceivedAll(Notes(sc.greeting)));
    RoomAppend(ClientSpec.INIT, P.Received(GreetingBlock(sc, 1)), P.ReceivedAll(Notes(sc.greeting)));
    EnqueueKeeps(sc, empty, items, []);
    EnqueueIs(empty, items);
  }

  lemma EnqueueIs(s: System, items: seq<P.Item>)
    ensures Enqueue(s, items).accepted == s.accepted
  {
  }

  lemma EmptyOutstanding(s: System)
    requires s.outbound == [] && s.client == ClientSpec.INIT
    ensures Outstanding(s) == P.Outcome(P.INIT, []) && ChunksOf([]) == []
  {
  }

  lemma ReceivedCons(i: P.Item, items: seq<P.Item>)
    ensures P.ReceivedAll([i] + items) == P.Received(i) + P.ReceivedAll(items)
  {
    hide P.Received;
    assert ([i] + items)[1..] == items;
  }

  lemma {:induction false} NotesInDomain(messages: seq<Message>)
    requires forall m <- messages :: P.InDomain(P.Note(m))
    ensures forall i <- Notes(messages) :: P.InDomain(i)
    ensures forall m <- messages :: !m.Guard?
  {
    hide P.Sendable;
    if messages != [] {
      assert P.InDomain(P.Note(messages[0]));
      NotesInDomain(messages[1..]);
    }
  }

  /** Guard numbers are never the sentinel, so every block is in the parser's domain. */
  lemma GuardsAreGuards(sc: Scenario, number: nat)
    ensures P.InDomain(GreetingBlock(sc, number))
    ensures forall command: string :: OutputsFit(sc, command) ==> P.InDomain(BlockFor(sc, number, command))
  {
    hide P.OutputText;
  }

  lemma ExecKeeps(sc: Scenario, s: System, command: string)
    requires Faithful(sc) && Invariant(sc, s)
    ensures Invariant(sc, ExecNow(sc, s, command))
  {
    hide ChunksOf, P.FedAll, P.ReceivedAll, Room, HandleAll, Replies, Invalid, Enqueue, P.InDomain, OutputsFit, BlockFor;
    var rest := Outstanding(s).events;
    var f := HandleAll(s.client, rest);
    if s.client.connection.Closed? || Invalid(command) {
      var d := ExecuteStep(s.client, command, true);
      StaysOpen(s.client, rest);
      RepliesPlus(s.client.log, Settled(s.client.issued, InvalidCommand));
      assert s.client.pending + [] == s.client.pending;
      HandleAllAhead(s.client, d, [], rest);
      assert HandleAll(d, rest).pending == [];
    } else {
      var c := Command(s.client.issued, command);
      var d := ExecuteStep(s.client, command, true);
      HandleAllAhead(s.client, d, [c.id], rest);
      var g := HandleAll(d, rest);
      assert g.pending == [c.id];
      var item := BlockFor(sc, s.number + 1, command);
      BlockSays(sc, c, s.number + 1);
      BlockHandled(g, item.open, item.lines, item.close);
      GuardsAreGuards(sc, s.number + 1);
      assert OutputsFit(sc, command);
      ReceivedOne(BlockFor(sc, s.number + 1, command));
      var accepted := s.accepted + [c];
      ExpectedPlus(sc, s.accepted, c);
      var mid := s.(client := d, number := s.number + 1);
      assert Outstanding(mid) == Outstanding(s);
      EnqueueKeeps(sc, mid, [BlockFor(sc, s.number + 1, command)], accepted);
      EnqueueCommutes(mid, [BlockFor(sc, s.number + 1, command)], accepted);
    }
  }

  lemma EnqueueCommutes(s: System, items: seq<P.Item>, accepted: seq<Command>)
    ensures Enqueue(s.(accepted := accepted), items) == Enqueue(s, items).(accepted := accepted)
  {
  }

  lemma ExpectedPlus(sc: Scenario, accepted: seq<Command>, c: Command)
    ensures Expected(sc, accepted + [c]) == Expected(sc, accepted) + [ReplyTo(sc, c, |accepted| + 2)]
  {
    assert (accepted + [c])[..|accepted|] == accepted;
  }

  /** If handling ends in an open connection, it started in one. */
  lemma {:induction false} StaysOpen(c: Client, events: seq<P.Event>)
    requires HandleAll(c, events).connection == Ready
    ensures !c.connection.Closed?
    decreases |events|
  {
    if events != [] {
      StaysOpen(Handle(c, events[0]), events[1..]);
    }
  }

  lemma EmitKeeps(sc: Scenario, s: System, m: Message)
    requires Invariant(sc, s) && P.InDomain(P.Note(m))
    ensures Invariant(sc, Enqueue(s, [P.Note(m)]))
  {
    hide ChunksOf, P.FedAll, P.ReceivedAll, Room, HandleAll, Enqueue, Quiet, P.Sendable;
    var f := HandleAll(s.client, Outstanding(s).events);
    NoteHandled(sc, f, m, s.accepted);
    ReceivedOne(P.Note(m));
    EnqueueKeeps(sc, s, [P.Note(m)], s.accepted);
    EnqueueIs(s, [P.Note(m)]);
  }

  lemma DeliverKeeps(sc: Scenario, s: System)
    requires Invariant(sc, s) && s.outbound != []
    ensures Invariant(sc, DeliverNow(s))
    ensures HandleAll(DeliverNow(s).client, Outstanding(DeliverNow(s)).events).log
         == HandleAll(s.client, Outstanding(s).events).log
  {
    hide ChunksOf, Room, HandleAll, P.Fed, P.InDomain, Replies, Expected;
    var o := P.Fed(s.client.parser, s.outbound[0]);
    var d := DeliverNow(s);
    var rest := P.FedAll(o.state, s.outbound[1..]);
    assert Outstanding(s) == rest.Prepend(o.events);
    HandleAllParser(s.client, o.events, o.state);
    assert d.client == HandleAll(s.client, o.events).(parser := o.state);
    assert d.client.parser == o.state;
    HandleAppend(s.client, o.events, rest.events);
    RoomAppend(s.client, o.events, rest.events);
    HandleAllParser(HandleAll(s.client, o.events), rest.events, o.state);
    RoomParser(HandleAll(s.client, o.events), rest.events, o.state);
    assert s.outbound == [s.outbound[0]] + s.outbound[1..];
    assert (s.delivered + [s.outbound[0]]) + s.outbound[1..] == s.delivered + s.outbound;
  }

  lemma {:induction false} RunInvariant(sc: Scenario, s: System, actions: seq<Action>)
    requires Faithful(sc) && Invariant(sc, s) && CanRun(sc, s, actions)
    ensures Invariant(sc, Run(sc, s, actions))
    decreases |actions|
  {
    hide Invariant, Faithful, ExecNow, Enqueue, DeliverNow, P.InDomain;
    if actions != [] {
      match actions[0] {
        case Exec(command) => ExecKeeps(sc, s, command);
        case Emit(m) => EmitKeeps(sc, s, m);
        case Deliver => DeliverKeeps(sc, s);
      }
      RunInvariant(sc, Act(sc, s, actions[0]), actions[1..]);
    }
  }

  /** Handling only ever adds to the log. */
  lemma {:induction false} LogGrows(c: Client, events: seq<P.Event>)
    ensures c.log <= HandleAll(c, events).log
    decreases |events|
  {
    hide Handle;
    if events != [] {
      OneGrows(c, events[0]);
      LogGrows(Handle(c, events[0]), events[1..]);
    }
  }

  lemma OneGrows(c: Client, e: P.Event)
    ensures c.log <= Handle(c, e).log
  {
    hide Correlate;
    match e
    case Emitted(m) => CorrelateGrows(c, m);
    case OutputLine(_, _) =>
    case ProtocolError(_, _) =>
  }

  lemma CorrelateGrows(c: Client, m: Message)
    ensures c.log <= Correlate(c, m).log
  {
  }

  lemma RepliesOfPrefix(a: seq<Out>, b: seq<Out>)
    requires a <= b
    ensures Replies(a) <= Replies(b)
  {
    assert b == a + b[|a|..];
    RepliesAppend(a, b[|a|..]);
  }

  /**
    At every point of every run after `start`: the commands settled so far are the first accepted ones, in
    order, each with exactly the scenario's reply, number and timestamp for it; when nothing is left to
    deliver all of them are settled. The stream sent is whole blocks and single notifications, in order.
   */
  lemma EveryCommandGetsItsReply(sc: Scenario, actions: seq<Action>)
    requires Faithful(sc) && CanRun(sc, Started(sc), actions)
    ensures var s := Run(sc, Started(sc), actions);
            && Replies(s.client.log) <= Expected(sc, s.accepted)
            && (s.outbound == [] ==> Replies(s.client.log) == Expected(sc, s.accepted) && s.client.pending == [] && s.client.inflight.None?)
            && P.Concat(s.delivered + s.outbound) == P.Wire(s.items) && (forall i <- s.items :: P.InDomain(i))
  {
    hide Room, HandleAll, Replies, Expected, Started, CanRun, Run, P.InDomain, ChunksOf, P.Wire, P.Concat, Faithful;
    StartedInvariant(sc);
    RunInvariant(sc, Started(sc), actions);
    var s := Run(sc, Started(sc), actions);
    var rest := Outstanding(s).events;
    LogGrows(s.client, rest);
    RepliesOfPrefix(s.client.log, HandleAll(s.client, rest).log);
    ChunksText(s.items);
    Nothing(s.client);
  }

  // ---------------------------------------------------------------------------------------
  // A close at any point
  // ---------------------------------------------------------------------------------------

  /** The promises of sent commands in the order they settle: settled, being answered, waiting. */
  function Order(c: Client): seq<nat> {
    SettledIds(Replies(c.log)) + InflightIds(c) + c.pending
  }

  function Ids(accepted: seq<Command>): seq<nat> {
    seq(|accepted|, i requires 0 <= i < |accepted| => accepted[i].id)
  }

  /** `d` keeps the order, or some promise fell out of it. */
  predicate OrderKept(c: Client, d: Client) {
    Order(d) == Order(c) || |Order(d)| < |Order(c)|
  }

  lemma SayOrder(c: Client, d: Client, out: seq<Out>)
    requires d.log == c.log + out && d.pending == c.pending && d.inflight == c.inflight && Replies(out) == []
    ensures Order(d) == Order(c)
  {
    hide Replies, SettledIds;
    RepliesAppend(c.log, out);
    assert Replies(c.log) + [] == Replies(c.log);
  }

  lemma SettleOrder(c: Client, outcome: Outcome)
    requires c.inflight.Some? && !outcome.InvalidCommand?
    ensures Order(Settle(c, outcome)) == Order(c)
  {
    hide Replies, SettledIds, Exits, Announced;
    var out := Settled(c.inflight.value.id, outcome);
    RepliesPlus(c.log, out);
    LogPlus(Replies(c.log), out);
    assert SettledIds(Replies(c.log)) + [out.id] + [] + c.pending == SettledIds(Replies(c.log)) + [out.id] + c.pending;
  }

  lemma GreetingOrder(c: Client)
    ensures Order(CloseGreeting(c)) == Order(c)
  {
    hide Replies, Order;
    RepliesPlus([], StateIs(Ready));
    RepliesPlus([StateIs(Ready)], RouterReady);
    EmptyReplies();
    assert [] + [StateIs(Ready)] == [StateIs(Ready)] && [StateIs(Ready)] + [RouterReady] == [StateIs(Ready), RouterReady];
    if CloseGreeting(c).log == c.log {
      assert c.log + [] == c.log;
      SayOrder(c, CloseGreeting(c), []);
    } else {
      SayOrder(c, CloseGreeting(c), [StateIs(Ready), RouterReady]);
    }
  }

  lemma BegunOrder(c: Client, m: Message)
    requires m.Guard?
    ensures OrderKept(c, Begun(c, m))
  {
    hide Replies, SettledIds;
    if !c.awaitingGreeting && c.pending != [] {
      assert c.pending == [c.pending[0]] + c.pending[1..];
    }
  }

  lemma EndedOrder(c: Client, ok: bool)
    ensures OrderKept(c, Ended(c, ok))
  {
    hide Order, CloseGreeting, Settle;
    GreetingOrder(c);
    if c.inflight.Some? {
      SettleOrder(c, Reply(c.inflight.value.response, ok));
    }
  }

  lemma MessageOrder(c: Client, m: Message)
    ensures OrderKept(c, HandleMessage(c, m))
  {
    hide Order, Replies, Begun, Ended;
    if !(c.connection.Closed? || (m.Exit? && c.exitAlreadyEmitted)) {
      var d := Correlate(c, m);
      assert OrderKept(c, d) by {
        match m {
          case Guard(Begin, _, _, _) => BegunOrder(c, m);
          case Guard(g, _, _, _) => EndedOrder(c, g == End);
          case _ =>
        }
      }
      ToldIsNoReply([], m);
      EmptyReplies();
      assert [] + [ToRouter(m)] == [ToRouter(m)] && [] + [ToRouter(m), Notification(m)] == [ToRouter(m)] + [Notification(m)];
      assert [ToRouter(m)] + [] == [ToRouter(m)];
      SayOrder(d, HandleMessage(c, m), [ToRouter(m)] + if IsPaneOutput(m) then [] else [Notification(m)]);
    }
  }

  lemma ErrorOrder(c: Client, number: Num, line: string)
    ensures OrderKept(c, HandleProtocolError(c, number, line))
  {
    hide Order, Replies, CloseGreeting, Settle;
    if !c.connection.Closed? {
      RepliesPlus([], Malformed(number, line));
      EmptyReplies();
      assert [] + [Malformed(number, line)] == [Malformed(number, line)];
      GreetingOrder(c);
      SayOrder(CloseGreeting(c), CloseGreeting(c).Say([Malformed(number, line)]), [Malformed(number, line)]);
      if c.inflight.Some? {
        var d := Settle(c, ProtocolFailed(number, line, c.inflight.value.response.output));
        SettleOrder(c, ProtocolFailed(number, line, c.inflight.value.response.output));
        SayOrder(d, d.Say([Malformed(number, line)]), [Malformed(number, line)]);
      }
      SayOrder(c, c.Say([Malformed(number, line)]), [Malformed(number, line)]);
    }
  }

  lemma HandleOrder(c: Client, e: P.Event)
    ensures OrderKept(c, Handle(c, e))
  {
    hide HandleMessage, HandleProtocolError, Replies, SettledIds;
    match e
    case Emitted(m) => MessageOrder(c, m);
    case OutputLine(_, _) =>
    case ProtocolError(number, line) => ErrorOrder(c, number, line);
  }

  lemma {:induction false} HandleAllOrder(c: Client, events: seq<P.Event>)
    ensures OrderKept(c, HandleAll(c, events))
    decreases |events|
  {
    hide Handle, Order;
    if events != [] {
      HandleOrder(c, events[0]);
      HandleAllOrder(Handle(c, events[0]), events[1..]);
    }
  }

  /** No more promises are in order than commands were accepted. */
  predicate Bounded(s: System) {
    |Order(s.client)| <= |s.accepted|
  }

  lemma ExecOrder(c: Client, command: string)
    requires !c.connection.Closed?
    ensures |Order(ExecuteStep(c, command, true))| == |Order(c)| + if Invalid(command) then 0 else 1
  {
    hide Replies, SettledIds, Invalid;
    RepliesPlus(c.log, Settled(c.issued, InvalidCommand));
    assert Replies(c.log) + [] == Replies(c.log);
  }

  lemma ExecBounded(sc: Scenario, s: System, command: string)
    requires Bounded(s) && !s.client.connection.Closed?
    ensures Bounded(ExecNow(sc, s, command))
  {
    hide Order, Invalid, BlockFor, ChunksOf, ExecuteStep;
    ExecOrder(s.client, command);
  }

  lemma DeliverBounded(s: System)
    requires Bounded(s) && s.outbound != []
    ensures Bounded(DeliverNow(s))
  {
    hide HandleAll, P.Fed, Order;
    var o := P.Fed(s.client.parser, s.outbound[0]);
    HandleAllOrder(s.client.(parser := o.state), o.events);
    ParserOrder(s.client, o.state);
  }

  lemma ParserOrder(c: Client, p: P.State)
    ensures Order(c.(parser := p)) == Order(c)
  {
    hide Replies, SettledIds;
  }

  lemma EnqueueBounded(s: System, items: seq<P.Item>)
    ensures Bounded(Enqueue(s, items)) <==> Bounded(s)
  {
    hide Order, ChunksOf;
  }

  lemma InvariantOpen(sc: Scenario, s: System)
    requires Invariant(sc, s)
    ensures !s.client.connection.Closed?
  {
    hide HandleAll, Room, P.FedAll, ChunksOf, Replies, Expected, P.InDomain;
    StaysOpen(s.client, Outstanding(s).events);
  }

  lemma {:induction false} RunBounded(sc: Scenario, s: System, actions: seq<Action>)
    requires Faithful(sc) && Invariant(sc, s) && Bounded(s) && CanRun(sc, s, actions)
    ensures Bounded(Run(sc, s, actions))
    decreases |actions|
  {
    hide Invariant, Faithful, Bounded, ExecNow, Enqueue, DeliverNow, P.InDomain;
    if actions != [] {
      InvariantOpen(sc, s);
      match actions[0] {
        case Exec(command) => ExecKeeps(sc, s, command); ExecBounded(sc, s, command);
        case Emit(m) => EmitKeeps(sc, s, m); EnqueueBounded(s, [P.Note(m)]);
        case Deliver => DeliverKeeps(sc, s); DeliverBounded(s);
      }
      RunBounded(sc, Act(sc, s, actions[0]), actions[1..]);
    }
  }

  lemma {:induction false} ExpectedIds(sc: Scenario, accepted: seq<Command>)
    ensures SettledIds(Expected(sc, accepted)) == Ids(accepted) && |Expected(sc, accepted)| == |accepted|
    decreases |accepted|
  {
    if accepted != [] {
      hide SettledIds, Exits, Announced;
      var n := |accepted| - 1;
      ExpectedIds(sc, accepted[..n]);
      LogPlus(Expected(sc, accepted[..n]), ReplyTo(sc, accepted[n], n + 2));
      assert Ids(accepted) == Ids(accepted[..n]) + [accepted[n].id];
    }
  }

  /** At every point the promises are, in order, those of the accepted commands. */
  lemma OrderIs(sc: Scenario, s: System)
    requires Invariant(sc, s) && Bounded(s)
    ensures Order(s.client) == Ids(s.accepted)
  {
    hide HandleAll, Room, P.FedAll, ChunksOf, Replies, SettledIds, Expected, P.InDomain;
    var f := HandleAll(s.client, Outstanding(s).events);
    HandleAllOrder(s.client, Outstanding(s).events);
    ExpectedIds(sc, s.accepted);
    assert Order(f) == Ids(s.accepted) + [] + [];
  }

  lemma {:induction false} RejectionsReply(ids: seq<nat>, reason: Option<string>)
    ensures Replies(Rejections(ids, reason)) == Rejections(ids, reason)
  {
    if ids == [] {
      EmptyReplies();
    } else {
      hide Replies;
      var first, rest := [Settled(ids[0], TransportClosed(reason))], Rejections(ids[1..], reason);
      RejectionsReply(ids[1..], reason);
      RepliesAppend(first, rest);
      EmptyReplies();
      RepliesPlus([], first[0]);
      assert [] + first == first && Rejections(ids, reason) == first + rest;
    }
  }

  /** What a close adds to the replies: a rejection of everything being answered or waiting. */
  lemma CloseReplies(c: Client, reason: Option<string>)
    ensures Replies(CloseStep(c, reason).log) == Replies(c.log) + Rejections(InflightIds(c) + c.pending, reason)
  {
    hide Replies, Rejections, InflightIds;
    var ids := InflightIds(c) + c.pending;
    var told := [RouterClosed] + Rejections(ids, reason);
    RepliesAppend(c.log, told);
    RepliesAppend([RouterClosed], Rejections(ids, reason));
    RejectionsReply(ids, reason);
    EmptyReplies();
    RepliesPlus([], RouterClosed);
    assert [] + [RouterClosed] == [RouterClosed] && [] + Rejections(ids, reason) == Rejections(ids, reason);
    var one := c.log + told;
    assert one + [] == one;
    RepliesPlus(one, Notification(Exit(reason)));
    var closed := StateIs(Closed(ReasonFor(c.userClosed, reason)));
    RepliesPlus(one, closed);
    RepliesPlus(one + [Notification(Exit(reason))], closed);
    assert [closed] + [] == [closed];
  }

  /** Of the ids of a sequence of replies, as many as there are replies. */
  lemma {:induction false} RepliesHaveIds(log: seq<Out>)
    requires forall o <- log :: o.Settled?
    ensures |SettledIds(log)| == |log|
    decreases |log|
  {
    if log != [] {
      RepliesHaveIds(log[..|log| - 1]);
    }
  }

  lemma {:induction false} RepliesSettle(log: seq<Out>)
    ensures forall o <- Replies(log) :: o.Settled?
    decreases |log|
  {
    if log != [] {
      RepliesSettle(log[..|log| - 1]);
    }
  }

  /**
    The transport closes at any point of any run: the first accepted commands have the scenario's replies, and
    every other one is rejected with the close's reason, in the order they were accepted.
   */
  lemma CloseSettlesTheRest(sc: Scenario, actions: seq<Action>, reason: Option<string>)
    requires Faithful(sc) && CanRun(sc, Started(sc), actions)
    ensures var s := Run(sc, Started(sc), actions);
            var k := |Replies(s.client.log)|;
            && k <= |s.accepted| == |Expected(sc, s.accepted)|
            && Replies(CloseStep(s.client, reason).log)
               == Expected(sc, s.accepted)[..k] + Rejections(Ids(s.accepted)[k..], reason)
  {
    hide Room, HandleAll, Replies, Expected, Started, CanRun, Run, P.InDomain, ChunksOf, P.Wire, P.Concat, Faithful,
         Invariant, CloseStep, SettledIds, InflightIds, Rejections, Ids;
    EveryCommandGetsItsReply(sc, actions);
    StartedInvariant(sc);
    RunInvariant(sc, Started(sc), actions);
    StartedBounded(sc);
    RunBounded(sc, Started(sc), actions);
    var s := Run(sc, Started(sc), actions);
    OrderIs(sc, s);
    ExpectedIds(sc, s.accepted);
    RepliesSettle(s.client.log);
    RepliesHaveIds(Replies(s.client.log));
    CloseReplies(s.client, reason);
    var k := |Replies(s.client.log)|;
    var rest := InflightIds(s.client) + s.client.pending;
    assert SettledIds(Replies(s.client.log)) + rest == Ids(s.accepted);
    assert (SettledIds(Replies(s.client.log)) + rest)[k..] == rest;
  }

  lemma StartedBounded(sc: Scenario)
    ensures Bounded(Started(sc))
  {
    hide Enqueue, Replies, SettledIds, Exits, Announced;
    EmptyReplies();
    EmptyLog();
    EnqueueBounded(System(ClientSpec.INIT, 1, [], [], [], []), [GreetingBlock(sc, 1)] + Notes(sc.greeting));
  }
}

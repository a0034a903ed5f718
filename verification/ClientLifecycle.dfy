/**
  The client's life as others see it, over every run: when readiness and closing are announced, to the listeners
  and to the router, and why it closed; which protocol errors are reported; and which commands are refused.
 */
module ClientLifecycle {
  import opened JsStrings
  import opened Options
  import opened Messages
  import opened ClientSpec
  import P = Parser
  import D = ClientDelivery

  /** What is looked for among what left the client: announcements, or protocol errors. */
  datatype Matter = Life | Trouble

  predicate Concerns(o: Out, matter: Matter) {
    match matter
    case Life => o.StateIs? || o.RouterReady? || o.RouterClosed?
    case Trouble => o.Malformed?
  }

  function About(log: seq<Out>, matter: Matter): seq<Out>
    decreases |log|
  {
    if log == [] then [] else (if Concerns(log[0], matter) then [log[0]] else []) + About(log[1..], matter)
  }

  /** The event ends the startup block, if that is what is awaited. */
  predicate EndsGreeting(e: P.Event) {
    e.ProtocolError? || (e.Emitted? && e.m.Guard? && !e.m.guard.Begin?)
  }

  predicate Greeted(events: seq<P.Event>) {
    exists e <- events :: EndsGreeting(e)
  }

  /** The protocol errors among the events, as reported. */
  function Errors(events: seq<P.Event>): seq<Out>
    decreases |events|
  {
    if events == [] then []
    else (if events[0].ProtocolError? then [Malformed(events[0].commandNumber, events[0].line)] else []) + Errors(events[1..])
  }

  /** What the events make known. */
  function Heralded(events: seq<P.Event>, awaiting: bool, matter: Matter): seq<Out> {
    match matter
    case Life => if awaiting && Greeted(events) then [StateIs(Ready), RouterReady] else []
    case Trouble => Errors(events)
  }

  /** Why a connection closed: disposed of by the user, ended by tmux, or failed. */
  function Why(userClosed: bool, reason: Option<string>): CloseReason {
    match (userClosed, reason)
    case (true, _) => Disposed
    case (false, None) => Exited
    case (false, Some(_)) => TransportError
  }

  /** What the closes make known: the first one the router and the listeners, later ones the router again. */
  function Closing(ops: seq<Op>, userClosed: bool): seq<Out>
    decreases |ops|
  {
    if ops == [] then []
    else match ops[0]
      case UserClose => Closing(ops[1..], true)
      case TransportClose(reason) => [RouterClosed, StateIs(Closed(Why(userClosed, reason)))] + ClosedAgain(ops[1..])
      case _ => Closing(ops[1..], userClosed)
  }

  function ClosedAgain(ops: seq<Op>): seq<Out>
    decreases |ops|
  {
    if ops == [] then [] else (if ops[0].TransportClose? then [RouterClosed] else []) + ClosedAgain(ops[1..])
  }

  function Ended(ops: seq<Op>, userClosed: bool, matter: Matter): seq<Out> {
    if matter.Life? then Closing(ops, userClosed) else []
  }

  // ---------------------------------------------------------------------------------------
  // Appending
  // ---------------------------------------------------------------------------------------

  lemma {:induction false} AboutAppend(a: seq<Out>, b: seq<Out>, matter: Matter)
    ensures About(a + b, matter) == About(a, matter) + About(b, matter)
    decreases |a|
  {
    hide Concerns;
    if a == [] {
      assert a + b == b;
    } else {
      assert (a + b)[1..] == a[1..] + b && (a + b)[0] == a[0];
      AboutAppend(a[1..], b, matter);
      var first: seq<Out> := if Concerns(a[0], matter) then [a[0]] else [];
      assert (first + About(a[1..], matter)) + About(b, matter) == first + (About(a[1..], matter) + About(b, matter));
    }
  }

  lemma AboutOne(o: Out, matter: Matter)
    ensures About([o], matter) == if Concerns(o, matter) then [o] else []
  {
    assert [o][1..] == [];
  }

  lemma {:induction false} AboutNothing(out: seq<Out>, matter: Matter)
    requires forall o <- out :: !Concerns(o, matter)
    ensures About(out, matter) == []
    decreases |out|
  {
    if out != [] {
      assert out[0] in out;
      AboutNothing(out[1..], matter);
    }
  }

  lemma {:induction false} ErrorsAppend(a: seq<P.Event>, b: seq<P.Event>)
    ensures Errors(a + b) == Errors(a) + Errors(b)
    decreases |a|
  {
    if a == [] {
      assert a + b == b;
    } else {
      assert (a + b)[1..] == a[1..] + b && (a + b)[0] == a[0];
      ErrorsAppend(a[1..], b);
      var first: seq<Out> := if a[0].ProtocolError? then [Malformed(a[0].commandNumber, a[0].line)] else [];
      assert (first + Errors(a[1..])) + Errors(b) == first + (Errors(a[1..]) + Errors(b));
    }
  }

  lemma HeraldedAppend(a: seq<P.Event>, b: seq<P.Event>, awaiting: bool, matter: Matter)
    ensures Heralded(a + b, awaiting, matter) == Heralded(a, awaiting, matter) + Heralded(b, awaiting && !Greeted(a), matter)
    ensures Greeted(a + b) <==> Greeted(a) || Greeted(b)
  {
    ErrorsAppend(a, b);
    assert forall e :: e in a + b <==> e in a || e in b;
  }

  // ---------------------------------------------------------------------------------------
  // One event
  // ---------------------------------------------------------------------------------------

  /** Connecting while the startup block is awaited, ready afterwards. */
  predicate OpenState(c: Client) {
    c.connection == if c.awaitingGreeting then Connecting else Ready
  }

  /** `d` is `c`, still open, having let `out` be known. */
  predicate Lets(c: Client, d: Client, out: seq<Out>, matter: Matter) {
    && OpenState(d) && d.parser == c.parser && d.userClosed == c.userClosed && About(d.log, matter) == About(c.log, matter) + out
  }

  lemma SaysOther(c: Client, out: seq<Out>, matter: Matter)
    requires OpenState(c) && forall o <- out :: !Concerns(o, matter)
    ensures Lets(c, c.Say(out), [], matter)
  {
    AboutAppend(c.log, out, matter);
    AboutNothing(out, matter);
  }

  lemma GreetingLets(c: Client, matter: Matter)
    requires OpenState(c) && c.awaitingGreeting
    ensures var d := CloseGreeting(c);
            !d.awaitingGreeting && Lets(c, d, if matter.Life? then [StateIs(Ready), RouterReady] else [], matter)
  {
    var out := [StateIs(Ready)] + [RouterReady];
    AboutAppend(c.log, out, matter);
    AboutAppend([StateIs(Ready)], [RouterReady], matter);
    AboutOne(StateIs(Ready), matter);
    AboutOne(RouterReady, matter);
  }

  lemma SettleLets(c: Client, outcome: Outcome, matter: Matter)
    requires OpenState(c) && c.inflight.Some?
    ensures Lets(c, Settle(c, outcome), [], matter) && Settle(c, outcome).awaitingGreeting == c.awaitingGreeting
  {
    SaysOther(c, [Settled(c.inflight.value.id, outcome)], matter);
  }

  lemma CorrelateLets(c: Client, m: Message, matter: Matter)
    requires OpenState(c)
    ensures var d := Correlate(c, m);
            && d.awaitingGreeting == (c.awaitingGreeting && !EndsGreeting(P.Emitted(m)))
            && Lets(c, d, if c.awaitingGreeting && EndsGreeting(P.Emitted(m)) && matter.Life? then [StateIs(Ready), RouterReady] else [], matter)
  {
    hide CloseGreeting, About;
    if c.awaitingGreeting { GreetingLets(c, matter); }
    if c.inflight.Some? {
      SettleLets(c, Reply(c.inflight.value.response, true), matter);
      SettleLets(c, Reply(c.inflight.value.response, false), matter);
    }
    assert About(c.log, matter) + [] == About(c.log, matter);
  }

  lemma OneEvent(e: P.Event)
    ensures Greeted([e]) <==> EndsGreeting(e)
    ensures Errors([e]) == if e.ProtocolError? then [Malformed(e.commandNumber, e.line)] else []
  {
    assert [e][1..] == [];
  }

  lemma LetsThen(c: Client, d: Client, f: Client, a: seq<Out>, b: seq<Out>, matter: Matter)
    requires Lets(c, d, a, matter) && Lets(d, f, b, matter)
    ensures Lets(c, f, a + b, matter)
  {
    assert (About(c.log, matter) + a) + b == About(c.log, matter) + (a + b);
  }

  lemma MessageLets(c: Client, m: Message, matter: Matter)
    requires OpenState(c)
    ensures var d := HandleMessage(c, m);
            d.awaitingGreeting == (c.awaitingGreeting && !EndsGreeting(P.Emitted(m)))
            && Lets(c, d, Heralded([P.Emitted(m)], c.awaitingGreeting, matter), matter)
  {
    hide Correlate, About, Lets, Heralded;
    CorrelateLets(c, m, matter);
    HeraldedOne(P.Emitted(m), c.awaitingGreeting, matter);
    var d := Correlate(c, m);
    var says := Heralded([P.Emitted(m)], c.awaitingGreeting, matter);
    var out := [ToRouter(m)] + if IsPaneOutput(m) then [] else [Notification(m)];
    var x := d.(exitAlreadyEmitted := c.exitAlreadyEmitted || m.Exit?);
    if m.Exit? && c.exitAlreadyEmitted {
      NothingLets(c, matter);
    } else {
      LetsIsOpen(c, d, says, matter);
      SaysOther(x, out, matter);
      SameLets(c, d, x, says, matter);
      LetsThen(c, x, x.Say(out), says, [], matter);
      assert says + [] == says;
    }
  }

  lemma LetsIsOpen(c: Client, d: Client, out: seq<Out>, matter: Matter)
    requires Lets(c, d, out, matter)
    ensures OpenState(d) && !d.connection.Closed? && d.parser == c.parser && d.userClosed == c.userClosed
    ensures About(d.log, matter) == About(c.log, matter) + out
  {
  }

  lemma SameLets(c: Client, d: Client, x: Client, out: seq<Out>, matter: Matter)
    requires Lets(c, d, out, matter)
    requires x == d.(exitAlreadyEmitted := x.exitAlreadyEmitted, inflight := x.inflight, pending := x.pending, issued := x.issued)
    ensures Lets(c, x, out, matter)
  {
  }

  lemma NothingLets(c: Client, matter: Matter)
    requires OpenState(c)
    ensures Lets(c, c, [], matter)
  {
  }

  lemma HeraldedOne(e: P.Event, awaiting: bool, matter: Matter)
    ensures Heralded([e], awaiting, matter)
            == match matter
               case Life => if awaiting && EndsGreeting(e) then [StateIs(Ready), RouterReady] else []
               case Trouble => if e.ProtocolError? then [Malformed(e.commandNumber, e.line)] else []
  {
    OneEvent(e);
  }

  lemma ErrorLets(c: Client, number: Num, line: string, matter: Matter)
    requires OpenState(c)
    ensures var d := HandleProtocolError(c, number, line);
            !d.awaitingGreeting && Lets(c, d, Heralded([P.ProtocolError(number, line)], c.awaitingGreeting, matter), matter)
  {
    hide CloseGreeting, About, Heralded;
    HeraldedOne(P.ProtocolError(number, line), c.awaitingGreeting, matter);
    var d := if c.awaitingGreeting then CloseGreeting(c)
             else match c.inflight
               case None => c
               case Some(i) => Settle(c, ProtocolFailed(number, line, i.response.output));
    if c.awaitingGreeting {
      GreetingLets(c, matter);
    } else if c.inflight.Some? {
      SettleLets(c, ProtocolFailed(number, line, c.inflight.value.response.output), matter);
    } else {
      NothingLets(c, matter);
    }
    AboutAppend(d.log, [Malformed(number, line)], matter);
    AboutOne(Malformed(number, line), matter);
    assert About(d.log, matter) + [] == About(d.log, matter);
    assert About(c.log, matter) + [] == About(c.log, matter);
  }

  lemma EventLets(c: Client, e: P.Event, matter: Matter)
    requires OpenState(c)
    ensures var d := Handle(c, e);
            && d.awaitingGreeting == (c.awaitingGreeting && !EndsGreeting(e))
            && Lets(c, d, Heralded([e], c.awaitingGreeting, matter), matter)
  {
    hide HandleMessage, HandleProtocolError, Heralded;
    match e
    case Emitted(m) => MessageLets(c, m, matter);
    case OutputLine(_, line) => HeraldedOne(e, c.awaitingGreeting, matter);
    case ProtocolError(number, line) => ErrorLets(c, number, line, matter);
  }

  lemma {:induction false} EventsLet(c: Client, events: seq<P.Event>, matter: Matter)
    requires OpenState(c)
    ensures var d := HandleAll(c, events);
            && d.awaitingGreeting == (c.awaitingGreeting && !Greeted(events))
            && Lets(c, d, Heralded(events, c.awaitingGreeting, matter), matter)
    decreases |events|
  {
    hide Handle, Heralded, Greeted, Lets;
    if events == [] {
      NothingLets(c, matter);
      NoEvents(c.awaitingGreeting, matter);
    } else {
      var d, rest := Handle(c, events[0]), events[1..];
      var first := Heralded([events[0]], c.awaitingGreeting, matter);
      EventLets(c, events[0], matter);
      LetsIsOpen(c, d, first, matter);
      EventsLet(d, rest, matter);
      OneEvent(events[0]);
      assert [events[0]] + rest == events;
      HeraldedAppend([events[0]], rest, c.awaitingGreeting, matter);
      LetsThen(c, d, HandleAll(d, rest), first, Heralded(rest, d.awaitingGreeting, matter), matter);
    }
  }

  lemma NoEvents(awaiting: bool, matter: Matter)
    ensures Heralded([], awaiting, matter) == [] && !Greeted([])
  {
  }

  // ---------------------------------------------------------------------------------------
  // Whole runs
  // ---------------------------------------------------------------------------------------

  lemma ExecuteLets(c: Client, command: string, accepted: bool, matter: Matter)
    requires OpenState(c)
    ensures var d := ExecuteStep(c, command, accepted); Lets(c, d, [], matter) && d.awaitingGreeting == c.awaitingGreeting
  {
    hide Invalid;
    SaysOther(c, [], matter);
    SaysOther(c, [Settled(c.issued, InvalidCommand)], matter);
    SaysOther(c, [Settled(c.issued, SendRefused)], matter);
  }

  lemma CloseLets(c: Client, reason: Option<string>, matter: Matter)
    requires !c.connection.Closed?
    ensures var d := CloseStep(c, reason);
            && d.connection.Closed?
            && About(d.log, matter) == About(c.log, matter)
                 + if matter.Life? then [RouterClosed, StateIs(Closed(Why(c.userClosed, reason)))] else []
  {
    hide About, Rejections, InflightIds;
    var ids := InflightIds(c) + c.pending;
    var rejected := Rejections(ids, reason);
    D.RejectionsPass(ids, reason);
    AboutAppend([RouterClosed], rejected, matter);
    AboutNothing(rejected, matter);
    AboutOne(RouterClosed, matter);
    AboutAppend(c.log, [RouterClosed] + rejected, matter);
    var s := RejectAll(c, reason);
    AboutAppend(s.log, [Notification(Exit(reason))], matter);
    AboutOne(Notification(Exit(reason)), matter);
    var e := if c.exitAlreadyEmitted then s else s.(exitAlreadyEmitted := true).Say([Notification(Exit(reason))]);
    var last: seq<Out> := [StateIs(Closed(ReasonFor(c.userClosed, reason)))];
    AboutAppend(e.log, last, matter);
    AboutOne(last[0], matter);
    assert last + [] == last;
    var b := About(c.log, matter);
    assert [RouterClosed] + [] == [RouterClosed] && b + [] == b;
    assert (b + [RouterClosed]) + last == b + [RouterClosed, last[0]];
    assert (b + [RouterClosed]) + [] == b + [RouterClosed];
  }

  lemma ClosedStepLets(c: Client, op: Op, matter: Matter)
    requires Inv(c) && c.connection.Closed?
    ensures var d := Step(c, op);
            && Inv(d) && d.connection.Closed?
            && About(d.log, matter) == About(c.log, matter) + if op.TransportClose? && matter.Life? then [RouterClosed] else []
  {
    hide Inv, Step, About;
    ClosedIsSilent(c, op);
    D.StepKeepsInv(c, op);
    AboutOne(Settled(c.issued, SendRefused), matter);
    AboutOne(RouterClosed, matter);
    AboutNothing([], matter);
    match op
    case Execute(_, _) => AboutAppend(c.log, [Settled(c.issued, SendRefused)], matter);
    case TransportClose(_) => AboutAppend(c.log, [RouterClosed], matter);
    case _ => AboutAppend(c.log, [], matter);
  }

  lemma Regroup(a: seq<Out>, b: seq<Out>, c: seq<Out>, d: seq<Out>)
    ensures (a + b) + c == a + (b + c) && ((a + b) + c) + d == (a + (b + c)) + d
    ensures a + [] == a
  {
  }

  lemma {:induction false} ClosedLets(c: Client, ops: seq<Op>, matter: Matter)
    requires Inv(c) && c.connection.Closed?
    ensures About(RunFrom(c, ops).log, matter) == About(c.log, matter) + if matter.Life? then ClosedAgain(ops) else []
    decreases |ops|
  {
    hide Inv, Step, About;
    var b := About(c.log, matter);
    if ops == [] {
      Regroup(b, [], [], []);
    } else {
      ClosedStepLets(c, ops[0], matter);
      ClosedLets(Step(c, ops[0]), ops[1..], matter);
      Regroup(b, if ops[0].TransportClose? then [RouterClosed] else [], ClosedAgain(ops[1..]), []);
      Regroup(b, [], [], []);
    }
  }

  ghost predicate KnownAbout(c: Client, ops: seq<Op>, matter: Matter) {
    var events := P.Fed(c.parser, D.Heard(ops)).events;
    About(RunFrom(c, ops).log, matter)
    == About(c.log, matter) + Heralded(events, c.awaitingGreeting, matter) + Ended(ops, c.userClosed, matter)
  }

  lemma {:induction false} RunLets(c: Client, ops: seq<Op>, matter: Matter)
    requires Inv(c) && OpenState(c) && '\n' !in c.parser.buffer
    ensures KnownAbout(c, ops, matter)
    decreases |ops|
  {
    hide Inv, Heralded, P.Fed, Lets, About;
    if ops == [] {
      D.EmptyFeed(c.parser);
      NoEvents(c.awaitingGreeting, matter);
      var b := About(c.log, matter);
      assert b + [] + [] == b;
    } else {
      D.StepKeepsInv(c, ops[0]);
      match ops[0]
      case Execute(command, accepted) => ExecuteLets(c, command, accepted, matter); QuietLets(c, ops, matter);
      case UserClose => DisposeLets(c, ops, matter);
      case Data(chunk) => DataLets(c, ops, matter);
      case TransportClose(reason) => EndLets(c, ops, matter);
    }
  }

  lemma QuietLets(c: Client, ops: seq<Op>, matter: Matter)
    requires ops != [] && ops[0].Execute? && Inv(c) && Inv(Step(c, ops[0])) && '\n' !in c.parser.buffer
    requires Lets(c, Step(c, ops[0]), [], matter) && Step(c, ops[0]).awaitingGreeting == c.awaitingGreeting
    ensures KnownAbout(c, ops, matter)
    decreases |ops|, 0
  {
    hide Inv, Heralded, P.Fed, Lets, About, Step;
    LetsIsOpen(c, Step(c, ops[0]), [], matter);
    RunLets(Step(c, ops[0]), ops[1..], matter);
    assert D.Heard(ops) == D.Heard(ops[1..]);
    assert About(c.log, matter) + [] == About(c.log, matter);
  }

  lemma DisposeLets(c: Client, ops: seq<Op>, matter: Matter)
    requires ops != [] && ops[0].UserClose? && Inv(c) && OpenState(c) && Inv(Step(c, ops[0])) && '\n' !in c.parser.buffer
    ensures KnownAbout(c, ops, matter)
    decreases |ops|, 0
  {
    hide Inv, Heralded, P.Fed, Lets, About;
    RunLets(Step(c, ops[0]), ops[1..], matter);
    assert D.Heard(ops) == D.Heard(ops[1..]);
  }

  lemma EndLets(c: Client, ops: seq<Op>, matter: Matter)
    requires ops != [] && ops[0].TransportClose? && Inv(c) && OpenState(c) && '\n' !in c.parser.buffer && Inv(Step(c, ops[0]))
    ensures KnownAbout(c, ops, matter)
  {
    hide Inv, P.Fed, CloseStep, About, Heralded;
    CloseLets(c, ops[0].reason, matter);
    ClosedLets(Step(c, ops[0]), ops[1..], matter);
    D.EmptyFeed(c.parser);
    NoEvents(c.awaitingGreeting, matter);
    var b, again := About(c.log, matter), ClosedAgain(ops[1..]);
    assert b + [] == b;
    assert matter.Life? ==>
      (b + [RouterClosed, StateIs(Closed(Why(c.userClosed, ops[0].reason)))]) + again
      == b + ([RouterClosed, StateIs(Closed(Why(c.userClosed, ops[0].reason)))] + again);
  }

  lemma DataLets(c: Client, ops: seq<Op>, matter: Matter)
    requires ops != [] && ops[0].Data? && Inv(c) && OpenState(c) && Inv(Step(c, ops[0]))
    ensures KnownAbout(c, ops, matter)
    decreases |ops|, 0
  {
    hide Inv, Heralded, P.Fed, Lets, HandleAll, Greeted, About;
    var o := P.Fed(c.parser, ops[0].chunk);
    var x, d := c.(parser := o.state), DataStep(c, ops[0].chunk);
    EventsLet(x, o.events, matter);
    LetsIsOpen(x, d, Heralded(o.events, c.awaitingGreeting, matter), matter);
    D.FedIsWhole(c.parser, ops[0].chunk);
    RunLets(d, ops[1..], matter);
    var rest := P.Fed(d.parser, D.Heard(ops[1..])).events;
    P.FeedTwice(c.parser, ops[0].chunk, D.Heard(ops[1..]));
    HeraldedAppend(o.events, rest, c.awaitingGreeting, matter);
    var b, h, k, e := About(c.log, matter), Heralded(o.events, c.awaitingGreeting, matter),
                      Heralded(rest, d.awaitingGreeting, matter), Ended(ops[1..], c.userClosed, matter);
    Regroup(b, h, k, e);
  }

  /**
    In every run, readiness is announced once, to the listeners and the router, when the startup block ends before
    the transport closes; the first close is told the router and announced with its reason, later ones the router
    alone; and exactly the protocol errors received before it are reported.
   */
  lemma AnnouncedExactly(ops: seq<Op>)
    ensures var log := RunFrom(INIT, ops).log;
            var events := P.Fed(P.INIT, D.Heard(ops)).events;
            && About(log, Life) == (if Greeted(events) then [StateIs(Ready), RouterReady] else []) + Closing(ops, false)
            && About(log, Trouble) == Errors(events)
  {
    hide P.Fed, RunFrom, D.Heard, Errors, Greeted;
    D.StartKeepsInv();
    RunLets(INIT, ops, Life);
    RunLets(INIT, ops, Trouble);
    var events := P.Fed(P.INIT, D.Heard(ops)).events;
    assert About([], Life) == [] && About([], Trouble) == [];
    assert [] + Heralded(events, true, Life) == Heralded(events, true, Life);
    assert [] + Heralded(events, true, Trouble) + [] == Heralded(events, true, Trouble);
  }

  // ---------------------------------------------------------------------------------------
  // Refused commands
  // ---------------------------------------------------------------------------------------

  /** The command's first character that is no space is at `k`; past its end, there is none. */
  predicate StartsAt(command: string, k: nat) {
    k <= |command| && (forall i | 0 <= i < k :: IsSpace(command[i])) && (k < |command| ==> !IsSpace(command[k]))
  }

  lemma {:induction false} TrimIs(command: string, k: nat)
    requires StartsAt(command, k)
    ensures TrimStart(command) == command[k..]
  {
    hide IsSpace;
    if k > 0 {
      assert forall i | 0 <= i < k - 1 :: command[1..][i] == command[i + 1];
      TrimIs(command[1..], k - 1);
      assert command[1..][k - 1..] == command[k..];
    } else {
      assert command[0..] == command;
    }
  }

  /**
    On an open client a command is refused as invalid, and queued nowhere, exactly when it is blank, is a comment,
    or spans lines; a valid one is queued last when the transport takes it, and refused when it does not.
   */
  lemma CommandsRefused(c: Client, command: string, accepted: bool, k: nat)
    requires !c.connection.Closed? && StartsAt(command, k)
    ensures var d := Step(c, Execute(command, accepted));
            var invalid := k == |command| || command[k] == '#' || '\n' in command;
            && d.issued == c.issued + 1
            && d.pending == (if invalid || !accepted then c.pending else c.pending + [c.issued])
            && d.log == c.log + (if invalid then [Settled(c.issued, InvalidCommand)]
                                 else if accepted then [] else [Settled(c.issued, SendRefused)])
  {
    TrimIs(command, k);
    hide IsSpace, TrimStart;
    assert c.log + [] == c.log;
  }
}

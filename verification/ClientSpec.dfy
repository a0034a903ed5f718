/**
  The client (src/client.ts) as a state machine: command correlation and connection lifecycle.
  A promise is named by the number of the `execute` call that made it.
 */
module ClientSpec {
  import opened Options
  import opened JsStrings
  import opened Messages
  import P = Parser

  datatype Response = Response(commandNumber: Num, timestamp: Num, output: seq<string>)

  datatype Outcome =
    | Resolved(response: Response)
    | CommandFailed(response: Response)
    | ProtocolFailed(commandNumber: Num, line: string, output: seq<string>)
    | TransportClosed(reason: Option<string>)
    | SendRefused
    | InvalidCommand

  datatype CloseReason = Disposed | Exited | TransportError

  datatype Connection = Connecting | Ready | Closed(why: CloseReason)

  /** What leaves the client: settled promises, emitted events, calls on the router. */
  datatype Out =
    | Settled(id: nat, outcome: Outcome)
    | Notification(m: Message)
    | StateIs(connection: Connection)
    | Malformed(commandNumber: Num, line: string)
    | ToRouter(m: Message)
    | RouterReady
    | RouterClosed

  datatype Inflight = Inflight(id: nat, response: Response)

  datatype Client = Client(
    issued: nat,
    pending: seq<nat>,
    inflight: Option<Inflight>,
    connection: Connection,
    userClosed: bool,
    awaitingGreeting: bool,
    exitAlreadyEmitted: bool,
    parser: P.State,
    log: seq<Out>
  ) {
    function Say(out: seq<Out>): Client {
      this.(log := log + out)
    }
  }

  const INIT := Client(0, [], None, Connecting, false, true, false, P.INIT, [])

  datatype Op =
    | Execute(command: string, accepted: bool)
    | Data(chunk: string)
    | UserClose
    | TransportClose(reason: Option<string>)

  // ---------------------------------------------------------------------------------------
  // Steps
  // ---------------------------------------------------------------------------------------

  /** Blank, a comment, or more than one line: tmux would never answer it in one block. */
  predicate Invalid(command: string) {
    var t := TrimStart(command);
    t == "" || t[0] == '#' || '\n' in command
  }

  function SetConnection(c: Client, next: Connection): Client {
    if c.connection.Closed? || c.connection == next then c
    else c.(connection := next).Say([StateIs(next)] + if next.Ready? then [RouterReady] else [])
  }

  function ExecuteStep(c: Client, command: string, accepted: bool): Client {
    var d := c.(issued := c.issued + 1);
    if c.connection.Closed? then d.Say([Settled(c.issued, SendRefused)])
    else if Invalid(command) then d.Say([Settled(c.issued, InvalidCommand)])
    else if accepted then d.(pending := c.pending + [c.issued])
    else d.Say([Settled(c.issued, SendRefused)])
  }

  function Settle(c: Client, outcome: Outcome): Client
    requires c.inflight.Some?
  {
    c.(inflight := None).Say([Settled(c.inflight.value.id, outcome)])
  }

  function CloseGreeting(c: Client): Client {
    SetConnection(c.(awaitingGreeting := false), Ready)
  }

  function Begun(c: Client, m: Message): Client
    requires m.Guard?
  {
    if c.awaitingGreeting || c.pending == [] then c
    else c.(pending := c.pending[1..],
            inflight := Some(Inflight(c.pending[0], Response(m.commandNumber, m.timestamp, []))))
  }

  function Ended(c: Client, ok: bool): Client {
    if c.awaitingGreeting then CloseGreeting(c)
    else match c.inflight
      case None => c
      case Some(i) => Settle(c, Reply(i.response, ok))
  }

  function Reply(response: Response, ok: bool): Outcome {
    if ok then Resolved(response) else CommandFailed(response)
  }

  function Correlate(c: Client, m: Message): Client {
    match m
    case Guard(Begin, _, _, _) => Begun(c, m)
    case Guard(End, _, _, _) => Ended(c, true)
    case Guard(Error, _, _, _) => Ended(c, false)
    case _ => c
  }

  predicate IsPaneOutput(m: Message) { m.Output? || m.ExtendedOutput? }

  function HandleMessage(c: Client, m: Message): Client {
    if c.connection.Closed? || (m.Exit? && c.exitAlreadyEmitted) then c
    else
      var d := Correlate(c, m);
      d.(exitAlreadyEmitted := c.exitAlreadyEmitted || m.Exit?)
       .Say([ToRouter(m)] + if IsPaneOutput(m) then [] else [Notification(m)])
  }

  function HandleProtocolError(c: Client, number: Num, line: string): Client {
    if c.connection.Closed? then c
    else
      var d := if c.awaitingGreeting then CloseGreeting(c)
               else match c.inflight
                 case None => c
                 case Some(i) => Settle(c, ProtocolFailed(number, line, i.response.output));
      d.Say([Malformed(number, line)])
  }

  function HandleOutputLine(c: Client, line: string): Client {
    match c.inflight
    case None => c
    case Some(Inflight(id, r)) => c.(inflight := Some(Inflight(id, r.(output := r.output + [line]))))
  }

  function Handle(c: Client, e: P.Event): Client {
    match e
    case Emitted(m) => HandleMessage(c, m)
    case OutputLine(_, line) => HandleOutputLine(c, line)
    case ProtocolError(number, line) => HandleProtocolError(c, number, line)
  }

  function HandleAll(c: Client, events: seq<P.Event>): Client
    decreases |events|
  {
    if events == [] then c else HandleAll(Handle(c, events[0]), events[1..])
  }

  function DataStep(c: Client, chunk: string): Client {
    var o := P.Fed(c.parser, chunk);
    HandleAll(c.(parser := o.state), o.events)
  }

  function Rejections(ids: seq<nat>, reason: Option<string>): seq<Out> {
    if ids == [] then [] else [Settled(ids[0], TransportClosed(reason))] + Rejections(ids[1..], reason)
  }

  function InflightIds(c: Client): seq<nat> {
    match c.inflight
    case None => []
    case Some(i) => [i.id]
  }

  function ReasonFor(userClosed: bool, reason: Option<string>): CloseReason {
    if userClosed then Disposed else if reason.None? then Exited else TransportError
  }

  function RejectAll(c: Client, reason: Option<string>): Client {
    c.(inflight := None, pending := []).Say([RouterClosed] + Rejections(InflightIds(c) + c.pending, reason))
  }

  function CloseStep(c: Client, reason: Option<string>): Client {
    var settled := RejectAll(c, reason);
    var told := if c.exitAlreadyEmitted then settled
                else settled.(exitAlreadyEmitted := true).Say([Notification(Exit(reason))]);
    SetConnection(told, Closed(ReasonFor(c.userClosed, reason)))
  }

  function Step(c: Client, op: Op): Client {
    match op
    case Execute(command, accepted) => ExecuteStep(c, command, accepted)
    case Data(chunk) => DataStep(c, chunk)
    case UserClose => c.(userClosed := true)
    case TransportClose(reason) => CloseStep(c, reason)
  }

  function RunFrom(c: Client, ops: seq<Op>): Client
    decreases |ops|
  {
    if ops == [] then c else RunFrom(Step(c, ops[0]), ops[1..])
  }

  // ---------------------------------------------------------------------------------------
  // What every run keeps
  // ---------------------------------------------------------------------------------------

  function SettledIds(log: seq<Out>): seq<nat> {
    if log == [] then []
    else SettledIds(log[..|log| - 1]) + if log[|log| - 1].Settled? then [log[|log| - 1].id] else []
  }

  function Exits(log: seq<Out>): nat {
    if log == [] then 0
    else Exits(log[..|log| - 1]) + if IsExit(log[|log| - 1]) then 1 else 0
  }

  predicate IsExit(o: Out) {
    o.Notification? && o.m.Exit?
  }

  /** The connection states announced so far. */
  function Announced(log: seq<Out>): seq<Connection> {
    if log == [] then []
    else Announced(log[..|log| - 1]) + if log[|log| - 1].StateIs? then [log[|log| - 1].connection] else []
  }

  /** Announcements on the way to a state: never repeated, never leaving `closed`. */
  predicate PathTo(announced: seq<Connection>, c: Connection, awaitingGreeting: bool) {
    match c
    case Connecting => announced == [] && awaitingGreeting
    case Ready => announced == [Ready] && !awaitingGreeting
    case Closed(_) => announced == (if awaitingGreeting then [c] else [Ready, c])
  }

  /** Promises waiting for a block, being answered, or settled. */
  function Accounted(c: Client): multiset<nat> {
    multiset(SettledIds(c.log)) + multiset(InflightIds(c)) + multiset(c.pending)
  }

  function Below(n: nat): multiset<nat> {
    if n == 0 then multiset{} else Below(n - 1) + multiset{n - 1}
  }

  ghost predicate Inv(c: Client) {
    && Accounted(c) <= Below(c.issued)
    && Exits(c.log) == (if c.exitAlreadyEmitted then 1 else 0)
    && PathTo(Announced(c.log), c.connection, c.awaitingGreeting)
    && (c.connection.Closed? ==> c.exitAlreadyEmitted && c.inflight.None? && c.pending == [])
    && (c.awaitingGreeting ==> c.inflight.None?)
  }

  lemma {:induction false} LogAppend(a: seq<Out>, b: seq<Out>)
    ensures SettledIds(a + b) == SettledIds(a) + SettledIds(b)
    ensures Exits(a + b) == Exits(a) + Exits(b)
    ensures Announced(a + b) == Announced(a) + Announced(b)
    decreases |b|
  {
    if b == [] {
      assert a + b == a;
    } else {
      var n := |b| - 1;
      assert (a + b)[..|a + b| - 1] == a + b[..n];
      LogAppend(a, b[..n]);
    }
  }

  lemma LogOne(o: Out)
    ensures SettledIds([o]) == (if o.Settled? then [o.id] else [])
    ensures Exits([o]) == (if IsExit(o) then 1 else 0)
    ensures Announced([o]) == (if o.StateIs? then [o.connection] else [])
  {
    assert [o][..0] == [];
  }

  lemma LogPlus(log: seq<Out>, o: Out)
    ensures SettledIds(log + [o]) == SettledIds(log) + if o.Settled? then [o.id] else []
    ensures Exits(log + [o]) == Exits(log) + if IsExit(o) then 1 else 0
    ensures Announced(log + [o]) == Announced(log) + if o.StateIs? then [o.connection] else []
  {
    LogAppend(log, [o]);
    LogOne(o);
  }

  lemma LogTwo(log: seq<Out>, o: Out, p: Out)
    ensures log + [o, p] == (log + [o]) + [p]
    ensures SettledIds(log + [o, p]) == SettledIds(log) + (if o.Settled? then [o.id] else []) + if p.Settled? then [p.id] else []
    ensures Exits(log + [o, p]) == Exits(log) + (if IsExit(o) then 1 else 0) + if IsExit(p) then 1 else 0
    ensures Announced(log + [o, p]) == Announced(log) + (if o.StateIs? then [o.connection] else []) + if p.StateIs? then [p.connection] else []
  {
    assert log + [o, p] == (log + [o]) + [p];
    LogPlus(log, o);
    LogPlus(log + [o], p);
  }

  /** Neither the promises nor the exit count change; the announcements may. */
  predicate SamePromises(c: Client, d: Client) {
    d.issued == c.issued && d.pending == c.pending && d.inflight == c.inflight && SettledIds(d.log) == SettledIds(c.log)
  }

  lemma SetConnectionKeeps(c: Client, next: Connection)
    ensures var d := SetConnection(c, next);
            && SamePromises(c, d) && Exits(d.log) == Exits(c.log) && d.exitAlreadyEmitted == c.exitAlreadyEmitted
            && d.awaitingGreeting == c.awaitingGreeting && d.parser == c.parser
            && d.connection == (if c.connection.Closed? then c.connection else next)
            && Announced(d.log) == Announced(c.log) + if c.connection.Closed? || c.connection == next then [] else [next]
  {
    hide SettledIds, Exits, Announced;
    LogPlus(c.log, StateIs(next));
    LogTwo(c.log, StateIs(next), RouterReady);
    assert c.log + ([StateIs(next)] + []) == c.log + [StateIs(next)];
    assert [StateIs(next)] + [RouterReady] == [StateIs(next), RouterReady];
  }

  lemma GreetingKeepsInv(c: Client)
    requires Inv(c) && c.awaitingGreeting && !c.connection.Closed?
    ensures Inv(CloseGreeting(c)) && SamePromises(c, CloseGreeting(c))
    ensures !CloseGreeting(c).connection.Closed? && CloseGreeting(c).parser == c.parser
    ensures CloseGreeting(c).exitAlreadyEmitted == c.exitAlreadyEmitted
  {
    hide SettledIds, Exits, Announced, SetConnection, Below;
    SetConnectionKeeps(c.(awaitingGreeting := false), Ready);
  }

  lemma SettleKeepsInv(c: Client, outcome: Outcome)
    requires Inv(c) && c.inflight.Some?
    ensures Inv(Settle(c, outcome)) && Accounted(Settle(c, outcome)) == Accounted(c)
  {
    hide SettledIds, Exits, Announced, Below;
    LogPlus(c.log, Settled(c.inflight.value.id, outcome));
    assert multiset(SettledIds(c.log) + [c.inflight.value.id]) == multiset(SettledIds(c.log)) + multiset{c.inflight.value.id};
  }

  /** Promises survive a correlation step unless a begin arrives while one is still being answered. */
  predicate Loses(c: Client, m: Message) {
    m.Guard? && m.guard == Begin && !c.awaitingGreeting && c.pending != [] && c.inflight.Some?
  }

  /** What the message makes the client forget: the promise being answered. */
  function Dropped(c: Client, m: Message): multiset<nat> {
    if Loses(c, m) then multiset{c.inflight.value.id} else multiset{}
  }

  lemma NoneMissing(a: multiset<nat>, lost: multiset<nat>, all: multiset<nat>)
    requires a + lost == all
    ensures a == all <==> lost == multiset{}
  {
    if x :| x in lost {
      assert a[x] + lost[x] == all[x];
    }
  }

  lemma InflightOne(c: Client)
    ensures multiset(InflightIds(c)) == if c.inflight.Some? then multiset{c.inflight.value.id} else multiset{}
  {
  }

  /** A begin claims the oldest promise. It forgets the promise being answered, if there still is one, and no other. */
  lemma ClaimAccounts(c: Client, m: Message)
    requires m.Guard? && m.guard == Begin
    ensures Accounted(c) == Accounted(Begun(c, m)) + Dropped(c, m)
    ensures Accounted(Begun(c, m)) == Accounted(c) <==> c.awaitingGreeting || c.pending == [] || c.inflight.None?
  {
    hide SettledIds, InflightIds;
    InflightOne(c);
    InflightOne(Begun(c, m));
    if c.pending != [] {
      assert c.pending == [c.pending[0]] + c.pending[1..];
      assert multiset(c.pending) == multiset{c.pending[0]} + multiset(c.pending[1..]);
    }
    assert Accounted(c) == Accounted(Begun(c, m)) + Dropped(c, m);
    hide Accounted;
    NoneMissing(Accounted(Begun(c, m)), Dropped(c, m), Accounted(c));
    if Loses(c, m) {
      assert c.inflight.value.id in Dropped(c, m);
    }
  }

  lemma BegunKeepsInv(c: Client, m: Message)
    requires Inv(c) && m.Guard? && m.guard == Begin && !c.connection.Closed?
    ensures Inv(Begun(c, m))
    ensures Accounted(c) == Accounted(Begun(c, m)) + Dropped(c, m)
  {
    hide SettledIds, Exits, Announced, Below, Accounted, Dropped;
    ClaimAccounts(c, m);
  }

  lemma SayKeepsInv(c: Client, o: Out)
    requires Inv(c) && !o.Settled? && !o.StateIs? && !IsExit(o)
    ensures Inv(c.Say([o])) && Accounted(c.Say([o])) == Accounted(c)
  {
    hide SettledIds, Exits, Announced, Below;
    LogPlus(c.log, o);
  }

  lemma CorrelateKeepsInv(c: Client, m: Message)
    requires Inv(c) && !c.connection.Closed?
    ensures var d := Correlate(c, m);
            && Inv(d) && !d.connection.Closed? && d.exitAlreadyEmitted == c.exitAlreadyEmitted && d.issued == c.issued
            && Accounted(c) == Accounted(d) + Dropped(c, m)
  {
    hide Inv, Accounted, Ended;
    match m
    case Guard(Begin, _, _, _) => BegunKeepsInv(c, m);
    case Guard(End, _, _, _) => EndedKeepsInv(c, true);
    case Guard(Error, _, _, _) => EndedKeepsInv(c, false);
    case _ =>
  }

  lemma EndedKeepsInv(c: Client, ok: bool)
    requires Inv(c) && !c.connection.Closed?
    ensures var d := Ended(c, ok);
            && Inv(d) && !d.connection.Closed? && d.exitAlreadyEmitted == c.exitAlreadyEmitted && d.issued == c.issued
            && Accounted(d) == Accounted(c)
  {
    hide Inv, Accounted;
    if c.awaitingGreeting {
      GreetingKeepsInv(c);
      SameAccount(c, CloseGreeting(c));
    } else if c.inflight.Some? {
      SettleKeepsInv(c, Reply(c.inflight.value.response, ok));
    }
  }

  lemma SameAccount(c: Client, d: Client)
    ensures SamePromises(c, d) ==> Accounted(d) == Accounted(c)
  {
  }

  /** What one event makes the client forget. */
  function DroppedAt(c: Client, e: P.Event): multiset<nat> {
    if e.Emitted? && !c.connection.Closed? then Dropped(c, e.m) else multiset{}
  }

  /** What a list of events makes it forget. */
  function DroppedIn(c: Client, events: seq<P.Event>): multiset<nat>
    decreases |events|
  {
    if events == [] then multiset{} else DroppedAt(c, events[0]) + DroppedIn(Handle(c, events[0]), events[1..])
  }

  lemma HandleMessageKeepsInv(c: Client, m: Message)
    requires Inv(c)
    ensures var d := HandleMessage(c, m);
            Inv(d) && d.issued == c.issued && Accounted(c) == Accounted(d) + DroppedAt(c, P.Emitted(m))
  {
    hide Inv, Accounted, Correlate;
    if !(c.connection.Closed? || (m.Exit? && c.exitAlreadyEmitted)) {
      CorrelateKeepsInv(c, m);
      TellKeepsInv(Correlate(c, m), m);
    }
  }

  lemma TellKeepsInv(d: Client, m: Message)
    requires Inv(d) && !d.connection.Closed? && !(m.Exit? && d.exitAlreadyEmitted)
    ensures var e := d.(exitAlreadyEmitted := d.exitAlreadyEmitted || m.Exit?)
                      .Say([ToRouter(m)] + if IsPaneOutput(m) then [] else [Notification(m)]);
            Inv(e) && Accounted(e) == Accounted(d)
  {
    hide SettledIds, Exits, Announced, Below, Accounted;
    SameAccount(d, d.(exitAlreadyEmitted := d.exitAlreadyEmitted || m.Exit?)
                    .Say([ToRouter(m)] + if IsPaneOutput(m) then [] else [Notification(m)]));
    if IsPaneOutput(m) {
      LogPlus(d.log, ToRouter(m));
      assert d.log + ([ToRouter(m)] + []) == d.log + [ToRouter(m)];
    } else {
      LogTwo(d.log, ToRouter(m), Notification(m));
      assert [ToRouter(m)] + [Notification(m)] == [ToRouter(m), Notification(m)];
    }
  }

  lemma HandleKeepsInv(c: Client, e: P.Event)
    requires Inv(c)
    ensures Inv(Handle(c, e)) && Handle(c, e).issued == c.issued
    ensures Accounted(c) == Accounted(Handle(c, e)) + DroppedAt(c, e)
    ensures Handle(c, e).awaitingGreeting != c.awaitingGreeting ==> Terminates(e)
  {
    hide Inv, Accounted, Dropped, HandleMessage, HandleOutputLine, HandleProtocolError;
    match e
    case Emitted(m) =>
      HandleMessageKeepsInv(c, m);
      CorrelateGreeting(c, m);
    case OutputLine(_, line) => OutputLineKeepsInv(c, line);
    case ProtocolError(number, line) => ProtocolErrorKeepsInv(c, number, line);
  }

  lemma OutputLineKeepsInv(c: Client, line: string)
    requires Inv(c)
    ensures var d := HandleOutputLine(c, line);
            Inv(d) && Accounted(d) == Accounted(c) && d.issued == c.issued && d.awaitingGreeting == c.awaitingGreeting
  {
    hide SettledIds, Exits, Announced, Below;
    assert InflightIds(HandleOutputLine(c, line)) == InflightIds(c);
  }

  lemma ProtocolErrorKeepsInv(c: Client, number: Num, line: string)
    requires Inv(c)
    ensures var d := HandleProtocolError(c, number, line);
            Inv(d) && Accounted(d) == Accounted(c) && d.issued == c.issued
  {
    hide Inv, Accounted;
    if !c.connection.Closed? {
      if c.awaitingGreeting {
        GreetingKeepsInv(c);
        SameAccount(c, CloseGreeting(c));
        SayKeepsInv(CloseGreeting(c), Malformed(number, line));
      } else if c.inflight.Some? {
        var outcome := ProtocolFailed(number, line, c.inflight.value.response.output);
        SettleKeepsInv(c, outcome);
        SayKeepsInv(Settle(c, outcome), Malformed(number, line));
      } else {
        SayKeepsInv(c, Malformed(number, line));
      }
    }
  }

  /** Events that end a response block. */
  predicate Terminates(e: P.Event) {
    e.ProtocolError? || (e.Emitted? && P.Closes(e.m))
  }

  lemma CorrelateGreeting(c: Client, m: Message)
    ensures HandleMessage(c, m).awaitingGreeting != c.awaitingGreeting ==> P.Closes(m)
  {
  }

  /** Handling keeps every promise accounted for but those dropped. */
  lemma {:induction false} HandleAllKeepsInv(c: Client, events: seq<P.Event>)
    requires Inv(c)
    ensures var d := HandleAll(c, events);
            Inv(d) && d.issued == c.issued && Accounted(c) == Accounted(d) + DroppedIn(c, events)
    decreases |events|
  {
    hide Inv, Handle, Accounted, DroppedAt;
    if events != [] {
      HandleKeepsInv(c, events[0]);
      HandleAllKeepsInv(Handle(c, events[0]), events[1..]);
    }
  }

  lemma ExecuteKeepsInv(c: Client, command: string, accepted: bool)
    requires Inv(c)
    ensures Inv(ExecuteStep(c, command, accepted))
    ensures Accounted(ExecuteStep(c, command, accepted)) == Accounted(c) + multiset{c.issued}
    ensures ExecuteStep(c, command, accepted).issued == c.issued + 1
  {
    hide Inv, Accounted, Invalid;
    if c.connection.Closed? {
      RejectNow(c, SendRefused);
    } else if Invalid(command) {
      RejectNow(c, InvalidCommand);
    } else if accepted {
      EnqueueKeepsInv(c);
    } else {
      RejectNow(c, SendRefused);
    }
  }

  lemma EnqueueKeepsInv(c: Client)
    requires Inv(c) && !c.connection.Closed?
    ensures var d := c.(issued := c.issued + 1, pending := c.pending + [c.issued]);
            Inv(d) && Accounted(d) == Accounted(c) + multiset{c.issued}
  {
    hide SettledIds, Exits, Announced, Below;
    BelowNext(c.issued);
    assert multiset(c.pending + [c.issued]) == multiset(c.pending) + multiset{c.issued};
  }

  lemma BelowNext(n: nat)
    ensures Below(n + 1) == Below(n) + multiset{n}
  {
  }

  /** One more settled promise, and nothing else of the promises changed. */
  lemma SettledOne(c: Client, d: Client, id: nat, outcome: Outcome)
    requires d.log == c.log + [Settled(id, outcome)] && d.pending == c.pending && d.inflight == c.inflight
    ensures Accounted(d) == Accounted(c) + multiset{id}
    ensures Exits(d.log) == Exits(c.log) && Announced(d.log) == Announced(c.log)
  {
    hide SettledIds, Exits, Announced, InflightIds;
    LogPlus(c.log, Settled(id, outcome));
    assert InflightIds(d) == InflightIds(c) by { InflightSame(c, d); }
    assert multiset(SettledIds(c.log) + [id]) == multiset(SettledIds(c.log)) + multiset{id};
  }

  lemma InflightSame(c: Client, d: Client)
    requires d.inflight == c.inflight
    ensures InflightIds(d) == InflightIds(c)
  {
  }

  lemma RejectNow(c: Client, outcome: Outcome)
    requires Inv(c)
    ensures var d := c.(issued := c.issued + 1).Say([Settled(c.issued, outcome)]);
            Inv(d) && Accounted(d) == Accounted(c) + multiset{c.issued}
  {
    hide SettledIds, Exits, Announced, Below, Accounted;
    BelowNext(c.issued);
    SettledOne(c, c.(issued := c.issued + 1).Say([Settled(c.issued, outcome)]), c.issued, outcome);
  }

  lemma EmptyLog()
    ensures SettledIds([]) == [] && Exits([]) == 0 && Announced([]) == []
  {
  }

  lemma {:induction false} RejectionsLog(ids: seq<nat>, reason: Option<string>)
    ensures SettledIds(Rejections(ids, reason)) == ids
    ensures Exits(Rejections(ids, reason)) == 0 && Announced(Rejections(ids, reason)) == []
  {
    if ids == [] {
      EmptyLog();
    } else {
      hide SettledIds, Exits, Announced;
      var first := [Settled(ids[0], TransportClosed(reason))];
      var rest := Rejections(ids[1..], reason);
      RejectionsLog(ids[1..], reason);
      LogAppend(first, rest);
      LogOne(first[0]);
      assert Rejections(ids, reason) == first + rest && [ids[0]] + ids[1..] == ids;
    }
  }

  /** The transport's close rejects everything unsettled, tells `exit` once, and announces `closed`. */
  lemma CloseKeepsInv(c: Client, reason: Option<string>)
    requires Inv(c)
    ensures Inv(CloseStep(c, reason)) && Accounted(CloseStep(c, reason)) == Accounted(c)
    ensures CloseStep(c, reason).connection.Closed? && CloseStep(c, reason).issued == c.issued
  {
    hide SettledIds, Exits, Announced, Below, SetConnection, Accounted, RejectAll, InflightIds;
    var settled := RejectAll(c, reason);
    RejectAllKeeps(c, reason);
    var told := if c.exitAlreadyEmitted then settled
                else settled.(exitAlreadyEmitted := true).Say([Notification(Exit(reason))]);
    LogPlus(settled.log, Notification(Exit(reason)));
    assert SettledIds(settled.log) + [] == SettledIds(settled.log) && Announced(settled.log) + [] == Announced(settled.log);
    SameAccount(settled, told);
    var closed := Closed(ReasonFor(c.userClosed, reason));
    SetConnectionKeeps(told, closed);
    SameAccount(told, CloseStep(c, reason));
    assert [] + [closed] == [closed] && [Ready] + [closed] == [Ready, closed] && Announced(c.log) + [] == Announced(c.log);
  }

  lemma EmptyAccount(c: Client)
    requires c.inflight.None? && c.pending == []
    ensures Accounted(c) == multiset(SettledIds(c.log))
  {
  }

  lemma RejectAllLog(c: Client, reason: Option<string>)
    ensures var d := RejectAll(c, reason);
            && SettledIds(d.log) == SettledIds(c.log) + (InflightIds(c) + c.pending)
            && Exits(d.log) == Exits(c.log) && Announced(d.log) == Announced(c.log)
            && d == c.(inflight := None, pending := [], log := d.log)
  {
    hide SettledIds, Exits, Announced, Rejections, InflightIds;
    var ids := InflightIds(c) + c.pending;
    RejectionsLog(ids, reason);
    LogAppend(c.log, [RouterClosed] + Rejections(ids, reason));
    LogAppend([RouterClosed], Rejections(ids, reason));
    LogOne(RouterClosed);
    assert [] + ids == ids;
    assert Announced(c.log) + ([] + []) == Announced(c.log);
  }

  lemma RejectAllKeeps(c: Client, reason: Option<string>)
    ensures var d := RejectAll(c, reason);
            && Accounted(d) == Accounted(c) && Exits(d.log) == Exits(c.log) && Announced(d.log) == Announced(c.log)
            && d == c.(inflight := None, pending := [], log := d.log)
  {
    hide SettledIds, Exits, Announced, Rejections, InflightIds, RejectAll;
    RejectAllLog(c, reason);
    EmptyAccount(RejectAll(c, reason));
    var (settled, ids) := (SettledIds(c.log), InflightIds(c));
    assert multiset(settled + (ids + c.pending)) == multiset(settled) + multiset(ids) + multiset(c.pending);
  }

  /** The promise a step makes. */
  function Made(c: Client, op: Op): multiset<nat> {
    if op.Execute? then multiset{c.issued} else multiset{}
  }

  /** What a step makes the client forget. */
  function DroppedBy(c: Client, op: Op): multiset<nat> {
    match op
    case Data(chunk) => DroppedIn(c.(parser := P.Fed(c.parser, chunk).state), P.Fed(c.parser, chunk).events)
    case _ => multiset{}
  }

  lemma StepKeepsInv(c: Client, op: Op)
    requires Inv(c)
    ensures var d := Step(c, op);
            && Inv(d) && d.issued == c.issued + |Made(c, op)|
            && Accounted(c) + Made(c, op) == Accounted(d) + DroppedBy(c, op)
  {
    hide Inv, Accounted, ExecuteStep, CloseStep, HandleAll, DroppedIn;
    match op
    case Execute(command, accepted) => ExecuteKeepsInv(c, command, accepted);
    case Data(chunk) =>
      var o := P.Fed(c.parser, chunk);
      ParserIsFree(c, o.state);
      HandleAllKeepsInv(c.(parser := o.state), o.events);
    case UserClose => UserCloseKeepsInv(c);
    case TransportClose(reason) => CloseKeepsInv(c, reason);
  }

  lemma ParserIsFree(c: Client, s: P.State)
    ensures Inv(c) ==> Inv(c.(parser := s))
    ensures Accounted(c.(parser := s)) == Accounted(c)
  {
  }

  lemma UserCloseKeepsInv(c: Client)
    requires Inv(c)
    ensures Inv(c.(userClosed := true)) && Accounted(c.(userClosed := true)) == Accounted(c)
  {
  }

  lemma {:induction false} RunKeepsInv(c: Client, ops: seq<Op>)
    requires Inv(c)
    ensures Inv(RunFrom(c, ops))
    decreases |ops|
  {
    hide Inv, Step, Accounted, Made, DroppedBy;
    if ops != [] {
      StepKeepsInv(c, ops[0]);
      RunKeepsInv(Step(c, ops[0]), ops[1..]);
    }
  }

  lemma {:induction false} BelowCounts(n: nat, id: nat)
    ensures Below(n)[id] == if id < n then 1 else 0
  {
    if n > 0 {
      BelowCounts(n - 1, id);
    }
  }

  predicate Once(s: seq<nat>, id: nat) { multiset(s)[id] == 1 }

  /**
    On any stream and with any close point: no promise settles twice, `exit` is emitted at most once and
    exactly once by the time the state is `closed`, `ready` and `closed` are announced at most once and in
    that order, `ready` exactly when the greeting's block has been closed, and nothing leaves `closed`.
   */
  lemma Lifecycle(ops: seq<Op>)
    ensures var c := RunFrom(INIT, ops);
            && (forall id: nat :: multiset(SettledIds(c.log))[id] <= 1)
            && Exits(c.log) <= 1 && (c.connection.Closed? ==> Exits(c.log) == 1)
            && PathTo(Announced(c.log), c.connection, c.awaitingGreeting)
  {
    hide RunFrom, SettledIds, Exits, Announced, Below;
    assert Inv(INIT) by { InitInv(); }
    RunKeepsInv(INIT, ops);
    var c := RunFrom(INIT, ops);
    forall id: nat ensures multiset(SettledIds(c.log))[id] <= 1 {
      BelowCounts(c.issued, id);
      assert Accounted(c)[id] <= Below(c.issued)[id];
    }
  }

  lemma InitInv()
    ensures Inv(INIT)
  {
  }

  // ---------------------------------------------------------------------------------------
  // No promise is forgotten
  // ---------------------------------------------------------------------------------------

  /** Every `begin` the listener was told of carries a number other than the "no block" sentinel. */
  predicate Numbered(events: seq<P.Event>) {
    forall i | 0 <= i < |events| :: NumberedEvent(events[i])
  }

  predicate NumberedEvent(e: P.Event) {
    e.Emitted? && P.Opens(e.m) ==> e.m.commandNumber != P.NO_BLOCK
  }

  /** A promise is being answered only while its block is open. */
  ghost predicate Answering(c: Client, active: Num) {
    Inv(c) && (c.inflight.Some? ==> active != P.NO_BLOCK)
  }

  ghost predicate Exact(c: Client) {
    Answering(c, c.parser.active) && Accounted(c) == Below(c.issued)
  }

  lemma HandleForgetsNone(c: Client, active: Num, e: P.Event)
    requires Answering(c, active) && P.LegalEvent(active, e) && NumberedEvent(e)
    ensures Answering(Handle(c, e), P.AfterEvent(active, e)) && Accounted(Handle(c, e)) == Accounted(c)
    ensures Handle(c, e).issued == c.issued && Handle(c, e).parser == c.parser
  {
    hide Accounted, Handle;
    HandleKeepsInv(c, e);
    if e.Emitted? {
      InvFacts(c);
      assert !Loses(c, e.m);
    }
    HandleInflight(c, e);
    InvFacts(c);
    InvFacts(Handle(c, e));
  }

  lemma InvFacts(c: Client)
    requires Inv(c)
    ensures c.connection.Closed? || c.awaitingGreeting ==> c.inflight.None?
  {
  }

  /** What an event does to the promise being answered. */
  lemma HandleInflight(c: Client, e: P.Event)
    ensures Handle(c, e).parser == c.parser
    ensures Terminates(e) ==> Handle(c, e).inflight.None? || c.awaitingGreeting || c.connection.Closed?
    ensures !Terminates(e) && !(e.Emitted? && P.Opens(e.m)) ==> (Handle(c, e).inflight.Some? <==> c.inflight.Some?)
    ensures c.awaitingGreeting || c.connection.Closed? ==> (Handle(c, e).inflight.Some? <==> c.inflight.Some?)
  {
    match e
    case Emitted(m) => MessageInflight(c, m);
    case OutputLine(_, _) =>
    case ProtocolError(_, _) =>
  }

  lemma MessageInflight(c: Client, m: Message)
    ensures var d := HandleMessage(c, m);
            && d.parser == c.parser
            && (P.Closes(m) ==> d.inflight.None? || c.awaitingGreeting || c.connection.Closed?)
            && (!m.Guard? ==> d.inflight == c.inflight)
            && (c.awaitingGreeting || c.connection.Closed? ==> d.inflight == c.inflight)
  {
  }

  lemma {:induction false} HandleAllForgetsNone(c: Client, active: Num, events: seq<P.Event>)
    requires Answering(c, active) && P.Legal(active, events) && Numbered(events)
    ensures var d := HandleAll(c, events);
            && Answering(d, P.AfterAll(active, events)) && Accounted(d) == Accounted(c)
            && d.issued == c.issued && d.parser == c.parser
    decreases |events|
  {
    hide Answering, Accounted, Handle, P.LegalEvent, P.AfterEvent, NumberedEvent;
    if events != [] {
      HandleForgetsNone(c, active, events[0]);
      assert Numbered(events[1..]);
      HandleAllForgetsNone(Handle(c, events[0]), P.AfterEvent(active, events[0]), events[1..]);
    }
  }

  lemma DataForgetsNone(c: Client, chunk: string)
    requires Exact(c) && Numbered(P.Fed(c.parser, chunk).events)
    ensures Exact(DataStep(c, chunk)) && DataStep(c, chunk).parser == P.Fed(c.parser, chunk).state
  {
    hide Inv, Accounted, HandleAll, Numbered, P.Legal, P.AfterAll, Below;
    var o := P.Fed(c.parser, chunk);
    P.ConsumeIsLegal(c.parser.active, c.parser.buffer + chunk);
    ParserIsFree(c, o.state);
    HandleAllForgetsNone(c.(parser := o.state), c.parser.active, o.events);
  }

  lemma OtherForgetsNone(c: Client, op: Op)
    requires Exact(c) && !op.Data?
    ensures Exact(Step(c, op)) && Step(c, op).parser == c.parser
  {
    hide Inv, Accounted, Below;
    match op
    case Execute(command, accepted) =>
      ExecuteKeepsInv(c, command, accepted);
      BelowNext(c.issued);
    case UserClose => UserCloseKeepsInv(c);
    case TransportClose(reason) =>
      CloseKeepsInv(c, reason);
      InvFacts(CloseStep(c, reason));
  }

  function Chunks(ops: seq<Op>): seq<string> {
    if ops == [] then [] else (if ops[0].Data? then [ops[0].chunk] else []) + Chunks(ops[1..])
  }

  lemma {:induction false} RunForgetsNone(c: Client, ops: seq<Op>)
    requires Exact(c) && Numbered(P.FedAll(c.parser, Chunks(ops)).events)
    ensures Exact(RunFrom(c, ops))
    decreases |ops|
  {
    hide Exact, Step, P.Fed;
    if ops != [] {
      var op, rest := ops[0], Chunks(ops[1..]);
      if op.Data? {
        assert Chunks(ops)[0] == op.chunk && Chunks(ops)[1..] == rest;
        var first := P.Fed(c.parser, op.chunk);
        var all := P.FedAll(first.state, rest).events;
        assert forall i | 0 <= i < |first.events| :: (first.events + all)[i] == first.events[i];
        assert forall i | 0 <= i < |all| :: (first.events + all)[|first.events| + i] == all[i];
        assert Step(c, op) == DataStep(c, op.chunk) by { StepData(c, op.chunk); }
        DataForgetsNone(c, op.chunk);
      } else {
        assert Chunks(ops) == rest;
        OtherForgetsNone(c, op);
      }
      RunForgetsNone(Step(c, op), ops[1..]);
    }
  }

  lemma StepData(c: Client, chunk: string)
    ensures Step(c, Data(chunk)) == DataStep(c, chunk)
  {
  }

  /**
    When no `begin` on the stream carries the sentinel number, every promise is waiting or settled, each
    exactly once, at every point of every run; after the transport's close every promise is settled.
   */
  lemma EveryPromiseSettles(ops: seq<Op>)
    requires Numbered(P.FedAll(P.INIT, Chunks(ops)).events)
    ensures var c := RunFrom(INIT, ops);
            forall id: nat | id < c.issued :: Accounted(c)[id] == 1 && (c.connection.Closed? ==> Once(SettledIds(c.log), id))
  {
    hide RunFrom, P.FedAll, Numbered, SettledIds, Below;
    InitInv();
    assert Accounted(INIT) == Below(0) by { InitExact(); }
    RunForgetsNone(INIT, ops);
    var c := RunFrom(INIT, ops);
    forall id: nat | id < c.issued
      ensures Accounted(c)[id] == 1 && (c.connection.Closed? ==> Once(SettledIds(c.log), id))
    {
      BelowCounts(c.issued, id);
    }
  }

  lemma InitExact()
    ensures Accounted(INIT) == Below(INIT.issued) == multiset{}
  {
  }

  /** Once `closed`, later data reaches nobody and later commands are refused on the spot. */
  lemma ClosedIsSilent(c: Client, op: Op)
    requires Inv(c) && c.connection.Closed?
    ensures var d := Step(c, op);
            && d.connection == c.connection
            && d.log == c.log + match op
                 case Execute(_, _) => [Settled(c.issued, SendRefused)]
                 case TransportClose(_) => [RouterClosed]
                 case _ => []
  {
    hide HandleAll;
    match op
    case Data(chunk) =>
      var o := P.Fed(c.parser, chunk);
      ClosedHandlesNothing(c.(parser := o.state), o.events);
    case _ =>
  }

  lemma {:induction false} ClosedHandlesNothing(c: Client, events: seq<P.Event>)
    requires c.connection.Closed? && c.inflight.None?
    ensures HandleAll(c, events) == c
    decreases |events|
  {
    if events != [] {
      ClosedHandlesNothing(Handle(c, events[0]), events[1..]);
    }
  }

  // ---------------------------------------------------------------------------------------
  // Exactly which promises are forgotten
  // ---------------------------------------------------------------------------------------

  /** A begin is handled while one promise is being answered and another waits. */
  predicate LosesAt(c: Client, e: P.Event) {
    e.Emitted? && !c.connection.Closed? && Loses(c, e.m)
  }

  predicate LosesIn(c: Client, events: seq<P.Event>)
    decreases |events|
  {
    events != [] && (LosesAt(c, events[0]) || LosesIn(Handle(c, events[0]), events[1..]))
  }

  /** Such a begin is handled at some point of the run. */
  predicate LosesEver(c: Client, ops: seq<Op>)
    decreases |ops|
  {
    ops != [] &&
    (LosesEver(Step(c, ops[0]), ops[1..]) ||
     (ops[0].Data? && LosesIn(c.(parser := P.Fed(c.parser, ops[0].chunk).state), P.Fed(c.parser, ops[0].chunk).events)))
  }

  /** What a run makes the client forget. */
  function Forgotten(c: Client, ops: seq<Op>): multiset<nat>
    decreases |ops|
  {
    if ops == [] then multiset{} else DroppedBy(c, ops[0]) + Forgotten(Step(c, ops[0]), ops[1..])
  }

  lemma {:induction false} DroppedInIff(c: Client, events: seq<P.Event>)
    ensures DroppedIn(c, events) == multiset{} <==> !LosesIn(c, events)
    decreases |events|
  {
    hide Handle, Loses;
    if events != [] {
      DroppedInIff(Handle(c, events[0]), events[1..]);
      NoneOfTwo(DroppedAt(c, events[0]), DroppedIn(Handle(c, events[0]), events[1..]));
      DroppedAtIff(c, events[0]);
    }
  }

  lemma DroppedAtIff(c: Client, e: P.Event)
    ensures DroppedAt(c, e) == multiset{} <==> !LosesAt(c, e)
  {
    hide Loses;
    if LosesAt(c, e) {
      assert c.inflight.value.id in DroppedAt(c, e) by { LosesInflight(c, e.m); }
    }
  }

  lemma LosesInflight(c: Client, m: Message)
    requires Loses(c, m)
    ensures c.inflight.Some? && c.inflight.value.id in Dropped(c, m)
  {
  }

  lemma NoneOfTwo(a: multiset<nat>, b: multiset<nat>)
    ensures a + b == multiset{} <==> a == multiset{} && b == multiset{}
  {
    if x :| x in a {
      assert x in a + b;
    } else if x :| x in b {
      assert x in a + b;
    }
  }

  lemma {:induction false} ForgottenIff(c: Client, ops: seq<Op>)
    ensures Forgotten(c, ops) == multiset{} <==> !LosesEver(c, ops)
    decreases |ops|
  {
    hide Step, DroppedIn, LosesIn, P.Fed;
    if ops != [] {
      ForgottenIff(Step(c, ops[0]), ops[1..]);
      NoneOfTwo(DroppedBy(c, ops[0]), Forgotten(Step(c, ops[0]), ops[1..]));
      if ops[0].Data? {
        var o := P.Fed(c.parser, ops[0].chunk);
        DroppedInIff(c.(parser := o.state), o.events);
      }
    }
  }

  lemma MadeBelow(c: Client, op: Op)
    requires Inv(c)
    ensures Below(Step(c, op).issued) == Below(c.issued) + Made(c, op) && c.issued <= Step(c, op).issued
  {
    hide Inv, Step, Accounted, DroppedBy, Below;
    StepKeepsInv(c, op);
    BelowNext(c.issued);
  }

  /** Conservation: promises made are waiting, being answered, settled, or forgotten. */
  lemma {:induction false} RunAccounts(c: Client, ops: seq<Op>)
    requires Inv(c)
    ensures var d := RunFrom(c, ops);
            && c.issued <= d.issued
            && Accounted(c) + Below(d.issued) == Accounted(d) + Forgotten(c, ops) + Below(c.issued)
    decreases |ops|
  {
    hide Inv, Step, Accounted, DroppedBy, Below, Made;
    if ops != [] {
      var s := Step(c, ops[0]);
      StepKeepsInv(c, ops[0]);
      MadeBelow(c, ops[0]);
      RunAccounts(s, ops[1..]);
      var d := RunFrom(c, ops);
      Balance(Accounted(c), Made(c, ops[0]), Accounted(s), DroppedBy(c, ops[0]), Below(c.issued), Below(s.issued),
              Accounted(d), Forgotten(s, ops[1..]), Below(d.issued));
    }
  }

  lemma Balance(a: multiset<nat>, made: multiset<nat>, b: multiset<nat>, lost: multiset<nat>, m: multiset<nat>, n: multiset<nat>,
                c: multiset<nat>, later: multiset<nat>, k: multiset<nat>)
    requires a + made == b + lost && n == m + made && b + k == c + later + n
    ensures a + k == c + (lost + later) + m
  {
    forall x ensures (a + k)[x] == (c + (lost + later) + m)[x] {
      assert (a + made)[x] == (b + lost)[x] && n[x] == m[x] + made[x] && (b + k)[x] == (c + later + n)[x];
    }
  }

  /**
    Over every run, each promise made is accounted for or was forgotten, and never both: every promise is waiting,
    being answered or settled, exactly once, exactly when no begin was ever handled while one promise was being
    answered and another waited. After the close the promises that never settle are exactly the forgotten ones.
   */
  lemma NothingForgottenIff(ops: seq<Op>)
    ensures var c := RunFrom(INIT, ops);
            && Accounted(c) + Forgotten(INIT, ops) == Below(c.issued)
            && (Accounted(c) == Below(c.issued) <==> !LosesEver(INIT, ops))
            && (c.connection.Closed? ==> multiset(SettledIds(c.log)) + Forgotten(INIT, ops) == Below(c.issued))
  {
    hide RunFrom, Accounted, Below, Forgotten, LosesEver, Inv, SettledIds;
    InitInv();
    InitExact();
    RunAccounts(INIT, ops);
    ForgottenIff(INIT, ops);
    RunKeepsInv(INIT, ops);
    var c := RunFrom(INIT, ops);
    FromNothing(Accounted(INIT), Below(c.issued), Accounted(c) + Forgotten(INIT, ops), Below(INIT.issued));
    NoneMissing(Accounted(c), Forgotten(INIT, ops), Below(c.issued));
    ClosedAccount(c);
  }

  lemma FromNothing(a: multiset<nat>, b: multiset<nat>, c: multiset<nat>, d: multiset<nat>)
    requires a == d == multiset{} && a + b == c + d
    ensures b == c
  {
    assert a + b == b && c + d == c;
  }

  lemma ClosedAccount(c: Client)
    requires Inv(c)
    ensures c.connection.Closed? ==> Accounted(c) == multiset(SettledIds(c.log))
  {
    hide SettledIds, Exits, Announced, Below;
  }

  /** A promise once forgotten stays so: no later step, and no close, ever settles it. */
  lemma ForgottenForGood(c: Client, ops: seq<Op>, id: nat)
    requires Inv(c) && id < c.issued && Accounted(c)[id] == 0
    ensures Accounted(RunFrom(c, ops))[id] == 0 && id !in SettledIds(RunFrom(c, ops).log)
  {
    hide RunFrom, Accounted, Below, Forgotten, Inv, SettledIds;
    RunAccounts(c, ops);
    var d := RunFrom(c, ops);
    BelowCounts(c.issued, id);
    BelowCounts(d.issued, id);
    assert (Accounted(c) + Below(d.issued))[id] == (Accounted(d) + Forgotten(c, ops) + Below(c.issued))[id];
    UnaccountedUnsettled(d, id);
  }

  lemma UnaccountedUnsettled(c: Client, id: nat)
    requires Accounted(c)[id] == 0
    ensures id !in SettledIds(c.log)
  {
    hide SettledIds;
    assert multiset(SettledIds(c.log))[id] == 0;
  }

  /** One line of the stream: a guard the parser reads outside a block, or the one that closes the open block. */
  lemma GuardChunk(c: Client, m: Message)
    requires m.Guard? && c.parser.buffer == "" && (c.parser.active == P.NO_BLOCK || P.Closes(m))
    ensures DataStep(c, Serialize(m) + "\n")
         == HandleMessage(c.(parser := P.State(if P.Opens(m) then m.commandNumber else P.NO_BLOCK, "")), m)
  {
    hide HandleMessage, Serialize, P.Consume, P.Line;
    var active := c.parser.active;
    P.GuardLine(m);
    if active == P.NO_BLOCK {
      P.NoteLine(m);
    } else {
      P.CloseLine(active, m);
    }
    P.ConsumeLine(active, Serialize(m), "");
    var next := P.State(if P.Opens(m) then m.commandNumber else P.NO_BLOCK, "");
    P.NothingToConsume(next);
    var chunk := Serialize(m) + "\n";
    assert chunk == Serialize(m) + (['\n'] + "");
    assert c.parser.buffer + chunk == chunk;
    assert P.Fed(c.parser, chunk) == P.Outcome(next, [P.Emitted(m)]);
    HandleOne(c.(parser := next), P.Emitted(m));
  }

  /** A begin that carries the sentinel number opens no block, so the next one is read as a begin too. */
  lemma SentinelChunk(c: Client, m: Message)
    requires c.parser == P.INIT && P.Opens(m) && m.commandNumber == P.NO_BLOCK
    ensures DataStep(c, Serialize(m) + "\n") == HandleMessage(c, m)
  {
    hide HandleMessage, Serialize, DataStep;
    GuardChunk(c, m);
    assert c.(parser := P.INIT) == c;
  }

  lemma HandleOne(c: Client, e: P.Event)
    ensures HandleAll(c, [e]) == Handle(c, e)
  {
    hide Handle;
    assert [e][1..] == [];
  }

  /**
    Two such begins with two promises waiting: the first one claimed is forgotten, and neither a later step nor a
    close ever settles it.
   */
  lemma SentinelForgets(c: Client, m: Message, ops: seq<Op>)
    requires Inv(c) && c.parser == P.INIT && !c.connection.Closed? && !c.awaitingGreeting
    requires |c.pending| >= 2 && P.Opens(m) && m.commandNumber == P.NO_BLOCK
    ensures var d := DataStep(DataStep(c, Serialize(m) + "\n"), Serialize(m) + "\n");
            && Inv(d) && d.parser == P.INIT && c.pending[0] < d.issued
            && Accounted(d)[c.pending[0]] == 0 && Accounted(RunFrom(d, ops))[c.pending[0]] == 0
  {
    hide Inv, Accounted, DataStep, Serialize, RunFrom, HandleMessage;
    SentinelChunk(c, m);
    var one := HandleMessage(c, m);
    SentinelStep(c, m);
    SentinelStep(one, m);
    SentinelChunk(one, m);
    var two, id := HandleMessage(one, m), c.pending[0];
    OnceAccounted(c, id);
    OnceAccounted(one, id);
    assert Accounted(one) == Accounted(two) + multiset{id};
    assert Accounted(one)[id] == Accounted(two)[id] + 1;
    ForgottenForGood(two, ops, id);
  }

  lemma OnceAccounted(c: Client, id: nat)
    requires Inv(c)
    ensures Accounted(c)[id] <= 1
    ensures id in c.pending ==> id < c.issued
  {
    hide SettledIds, Below, Exits, Announced;
    BelowCounts(c.issued, id);
    assert Accounted(c)[id] <= Below(c.issued)[id];
    if id in c.pending {
      assert multiset(c.pending)[id] > 0;
    }
  }

  lemma SentinelStep(c: Client, m: Message)
    requires Inv(c) && !c.connection.Closed? && !c.awaitingGreeting && c.pending != [] && P.Opens(m)
    ensures var d := HandleMessage(c, m);
            && Inv(d) && d.parser == c.parser && !d.connection.Closed? && !d.awaitingGreeting && d.issued == c.issued
            && d.inflight.Some? && d.inflight.value.id == c.pending[0] && d.pending == c.pending[1..]
            && Accounted(c) == Accounted(d) + if c.inflight.Some? then multiset{c.inflight.value.id} else multiset{}
  {
    hide Inv, Accounted;
    HandleMessageKeepsInv(c, m);
  }

  /** The greeting block, two commands, two begins that carry the sentinel number, and the close. */
  function ForgettingRun(open: Message, close: Message, a: string, b: string, m: Message, reason: Option<string>): seq<Op> {
    [Data(Serialize(open) + "\n"), Data(Serialize(close) + "\n"), Execute(a, true), Execute(b, true),
     Data(Serialize(m) + "\n"), Data(Serialize(m) + "\n"), TransportClose(reason)]
  }

  lemma GreetingMessage(c: Client, m: Message)
    requires m.Guard? && c.awaitingGreeting && c.connection == Connecting
    ensures var d := HandleMessage(c, m);
            && d.pending == c.pending && d.inflight == c.inflight && d.issued == c.issued && d.parser == c.parser
            && (P.Opens(m) ==> d.awaitingGreeting && d.connection == Connecting)
            && (P.Closes(m) ==> !d.awaitingGreeting && d.connection == Ready)
  {
  }

  /** After the greeting block the client is ready, with nothing asked yet. */
  lemma Greeted(open: Message, close: Message)
    requires P.Opens(open) && P.Closes(close)
    ensures var c := DataStep(DataStep(INIT, Serialize(open) + "\n"), Serialize(close) + "\n");
            && Inv(c) && c.parser == P.INIT && c.connection == Ready && !c.awaitingGreeting
            && c.pending == [] && c.inflight.None? && c.issued == 0
  {
    hide Serialize, Inv, DataStep, HandleMessage;
    InitInv();
    DataIssues(INIT, Serialize(open) + "\n");
    GuardChunk(INIT, open);
    var one := DataStep(INIT, Serialize(open) + "\n");
    GreetingMessage(INIT.(parser := P.State(open.commandNumber, "")), open);
    DataIssues(one, Serialize(close) + "\n");
    GuardChunk(one, close);
    GreetingMessage(one.(parser := P.INIT), close);
  }

  /** In such a run, from the start, the first command's promise is never settled, closed connection or not. */
  lemma SentinelLeavesUnsettled(open: Message, close: Message, a: string, b: string, m: Message, reason: Option<string>)
    requires P.Opens(open) && P.Closes(close) && P.Opens(m) && m.commandNumber == P.NO_BLOCK && !Invalid(a) && !Invalid(b)
    ensures var d := RunFrom(INIT, ForgettingRun(open, close, a, b, m, reason));
            d.connection.Closed? && d.issued == 2 && 0 !in SettledIds(d.log)
  {
    hide Serialize, Inv, DataStep, CloseStep, Accounted, Invalid, SettledIds;
    var ops := ForgettingRun(open, close, a, b, m, reason);
    Greeted(open, close);
    var c2 := DataStep(DataStep(INIT, Serialize(open) + "\n"), Serialize(close) + "\n");
    var c3 := ExecuteStep(c2, a, true);
    ExecuteKeepsInv(c2, a, true);
    var c4 := ExecuteStep(c3, b, true);
    ExecuteKeepsInv(c3, b, true);
    assert c4.pending == [0, 1];
    SentinelForgets(c4, m, ops[6..]);
    var c6 := DataStep(DataStep(c4, Serialize(m) + "\n"), Serialize(m) + "\n");
    ForgottenForGood(c6, ops[6..], 0);
    RunTwo(INIT, ops);
    RunTwo(c2, ops[2..]);
    RunTwo(c4, ops[4..]);
    RunOne(c6, ops[6..]);
    CloseKeepsInv(c6, reason);
    DataIssues(c4, Serialize(m) + "\n");
    DataIssues(DataStep(c4, Serialize(m) + "\n"), Serialize(m) + "\n");
  }

  lemma DataIssues(c: Client, chunk: string)
    requires Inv(c)
    ensures Inv(DataStep(c, chunk)) && DataStep(c, chunk).issued == c.issued
  {
    hide Inv, DataStep, Accounted;
    StepKeepsInv(c, Data(chunk));
  }

  lemma RunOne(c: Client, ops: seq<Op>)
    requires |ops| == 1
    ensures RunFrom(c, ops) == Step(c, ops[0])
  {
    hide Step;
    assert ops[1..] == [];
  }

  lemma RunTwo(c: Client, ops: seq<Op>)
    requires |ops| >= 2
    ensures RunFrom(c, ops) == RunFrom(Step(Step(c, ops[0]), ops[1]), ops[2..])
  {
    hide Step;
    assert ops[1..][1..] == ops[2..];
  }
}

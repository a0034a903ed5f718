/**
  The streaming parser (src/protocol/parser.ts): line buffering, response blocks, and what a
  serialized stream is read back as.
 */
module Parser {
  import opened Options
  import opened JsStrings
  import opened Messages

  /** What the callbacks receive. */
  datatype Event =
    | Emitted(m: Message)
    | OutputLine(commandNumber: Num, line: string)
    | ProtocolError(commandNumber: Num, line: string)

  const NO_BLOCK := Int(-1)

  predicate IsTerminator(line: string) {
    TypeToken(line) == "end" || TypeToken(line) == "error"
  }

  /** The block that is open after a message. */
  function ActiveAfter(active: Num, m: Message): Num {
    match m
    case Guard(Begin, _, number, _) => number
    case Guard(_, _, _, _) => NO_BLOCK
    case _ => active
  }

  /** One line: the open block afterwards, and what the callbacks received. */
  function Line(active: Num, line: string): (Num, seq<Event>) {
    if active != NO_BLOCK && !IsTerminator(line) then (active, [OutputLine(active, line)])
    else match ParseLine(line)
      case Some(m) => (ActiveAfter(active, m), [Emitted(m)])
      case None =>
        if active != NO_BLOCK && IsTerminator(line) then (NO_BLOCK, [ProtocolError(active, line)])
        else (active, [])
  }

  /** Parser state: the open block and the unfinished line. */
  datatype State = State(active: Num, buffer: string)

  const INIT := State(NO_BLOCK, "")

  datatype Outcome = Outcome(state: State, events: seq<Event>) {
    function Prepend(events: seq<Event>): Outcome {
      Outcome(state, events + this.events)
    }
  }

  /** All complete lines of `text`, in order. */
  function Consume(active: Num, text: string): (r: Outcome)
    ensures '\n' !in r.state.buffer
    decreases |text|
  {
    var nl := IndexOf(text, '\n');
    if nl == -1 then Outcome(State(active, text), [])
    else
      var (next, events) := Line(active, text[..nl]);
      Consume(next, text[nl + 1..]).Prepend(events)
  }

  function Fed(s: State, chunk: string): Outcome {
    Consume(s.active, s.buffer + chunk)
  }

  function FedAll(s: State, chunks: seq<string>): Outcome
    decreases |chunks|
  {
    if chunks == [] then Outcome(s, [])
    else
      var first := Fed(s, chunks[0]);
      FedAll(first.state, chunks[1..]).Prepend(first.events)
  }

  function Concat(chunks: seq<string>): string {
    if chunks == [] then "" else chunks[0] + Concat(chunks[1..])
  }

  // ---------------------------------------------------------------------------------------
  // Chunking does not matter
  // ---------------------------------------------------------------------------------------

  lemma ConsumeLine(active: Num, line: string, rest: string)
    requires OneLine(line)
    ensures Consume(active, line + (['\n'] + rest)) == Consume(Line(active, line).0, rest).Prepend(Line(active, line).1)
  {
    hide Line;
    IndexOfFirst(line, '\n', rest);
    var text := line + (['\n'] + rest);
    assert text[..|line|] == line && text[|line| + 1..] == rest;
  }

  lemma {:induction false} ConsumeSplit(active: Num, a: string, b: string)
    ensures var first := Consume(active, a);
            Consume(active, a + b) == Consume(first.state.active, first.state.buffer + b).Prepend(first.events)
    decreases |a|
  {
    hide Line, Consume;
    var nl := IndexOf(a, '\n');
    if nl >= 0 {
      var line, rest := a[..nl], a[nl + 1..];
      SplitAtNewline(a, b, nl);
      ConsumeLine(active, line, rest);
      ConsumeLine(active, line, rest + b);
      var (next, events) := Line(active, line);
      ConsumeSplit(next, rest, b);
      var first := Consume(next, rest);
      PrependTwice(Consume(first.state.active, first.state.buffer + b), events, first.events);
    } else {
      NoLineYet(active, a);
      PrependNothing(Consume(active, a + b));
    }
  }

  lemma SplitAtNewline(a: string, b: string, nl: nat)
    requires nl < |a| && a[nl] == '\n'
    ensures a == a[..nl] + (['\n'] + a[nl + 1..]) && a + b == a[..nl] + (['\n'] + (a[nl + 1..] + b))
  {
  }

  lemma NoLineYet(active: Num, a: string)
    requires IndexOf(a, '\n') == -1
    ensures Consume(active, a) == Outcome(State(active, a), [])
  {
  }

  lemma PrependNothing(o: Outcome)
    ensures o.Prepend([]) == o
  {
  }

  lemma PrependTwice(o: Outcome, a: seq<Event>, b: seq<Event>)
    ensures o.Prepend(b).Prepend(a) == o.Prepend(a + b)
  {
    assert a + (b + o.events) == (a + b) + o.events;
  }

  /** Feeding two chunks is feeding their concatenation, in events and in state. */
  lemma FeedTwice(s: State, a: string, b: string)
    ensures var first := Fed(s, a);
            Fed(s, a + b) == Fed(first.state, b).Prepend(first.events)
  {
    assert s.buffer + (a + b) == (s.buffer + a) + b;
    ConsumeSplit(s.active, s.buffer + a, b);
  }

  /** However a text is cut into chunks, the events and the final state are those of the whole. */
  lemma {:induction false} AnyChunking(s: State, chunks: seq<string>)
    requires '\n' !in s.buffer
    ensures FedAll(s, chunks) == Fed(s, Concat(chunks))
    decreases |chunks|
  {
    hide Consume;
    if chunks == [] {
      assert s.buffer + "" == s.buffer;
      NothingToConsume(s);
    } else {
      var first := Fed(s, chunks[0]);
      AnyChunking(first.state, chunks[1..]);
      FeedTwice(s, chunks[0], Concat(chunks[1..]));
    }
  }

  lemma NothingToConsume(s: State)
    requires '\n' !in s.buffer
    ensures Consume(s.active, s.buffer) == Outcome(s, [])
  {
  }

  // ---------------------------------------------------------------------------------------
  // What a listener can rely on, whatever the stream
  // ---------------------------------------------------------------------------------------

  function AfterEvent(active: Num, e: Event): Num {
    match e
    case Emitted(m) => ActiveAfter(active, m)
    case OutputLine(_, _) => active
    case ProtocolError(_, _) => NO_BLOCK
  }

  /** Output and malformed terminators come only from an open block; a block opens only when none is open. */
  predicate LegalEvent(active: Num, e: Event) {
    match e
    case Emitted(m) => Opens(m) ==> active == NO_BLOCK
    case OutputLine(number, _) => number == active && active != NO_BLOCK
    case ProtocolError(number, _) => number == active && active != NO_BLOCK
  }

  predicate Legal(active: Num, events: seq<Event>)
    decreases |events|
  {
    events == [] || (LegalEvent(active, events[0]) && Legal(AfterEvent(active, events[0]), events[1..]))
  }

  function AfterAll(active: Num, events: seq<Event>): Num
    decreases |events|
  {
    if events == [] then active else AfterAll(AfterEvent(active, events[0]), events[1..])
  }

  predicate Opens(m: Message) { m.Guard? && m.guard == Begin }

  predicate Closes(m: Message) { m.Guard? && m.guard != Begin }

  lemma GuardNames()
    ensures Name(OfGuard(End)) == "end" && Name(OfGuard(Error)) == "error"
  {
  }

  /** A terminator line never opens a block. */
  lemma TerminatorCloses(line: string)
    requires IsTerminator(line) && ParseLine(line).Some?
    ensures Closes(ParseLine(line).value)
  {
    hide ParseArgs, Lookup, Arguments, TypeToken, Name, Shaped;
    GuardNames();
    var k := Lookup(TypeToken(line)).value;
    ParsedIsShaped(k, Arguments(line));
    if TypeToken(line) == "end" {
      SameNameSameKind(k, OfGuard(End));
    } else {
      SameNameSameKind(k, OfGuard(Error));
    }
  }

  lemma LineIsLegal(active: Num, line: string)
    ensures var (next, events) := Line(active, line);
            Legal(active, events) && AfterAll(active, events) == next
  {
    hide ParseLine, IsTerminator;
    if active != NO_BLOCK && IsTerminator(line) && ParseLine(line).Some? {
      TerminatorCloses(line);
    }
    LegalOne(active, Line(active, line).1);
  }

  lemma LegalOne(active: Num, events: seq<Event>)
    requires |events| <= 1
    ensures Legal(active, events) <==> events == [] || LegalEvent(active, events[0])
    ensures AfterAll(active, events) == if events == [] then active else AfterEvent(active, events[0])
  {
    hide LegalEvent, AfterEvent;
    if events != [] {
      assert events[1..] == [];
    }
  }

  lemma {:induction false} LegalAppend(active: Num, a: seq<Event>, b: seq<Event>)
    requires Legal(active, a) && Legal(AfterAll(active, a), b)
    ensures Legal(active, a + b) && AfterAll(active, a + b) == AfterAll(AfterAll(active, a), b)
    decreases |a|
  {
    hide LegalEvent, AfterEvent;
    if a == [] {
      assert a + b == b;
    } else {
      assert (a + b)[1..] == a[1..] + b;
      LegalAppend(AfterEvent(active, a[0]), a[1..], b);
    }
  }

  lemma {:induction false} ConsumeIsLegal(active: Num, text: string)
    ensures var o := Consume(active, text);
            Legal(active, o.events) && AfterAll(active, o.events) == o.state.active
    decreases |text|
  {
    hide Line, Legal, AfterAll;
    var nl := IndexOf(text, '\n');
    if nl == -1 {
      LegalOne(active, []);
    } else {
      var (next, events) := Line(active, text[..nl]);
      LineIsLegal(active, text[..nl]);
      ConsumeIsLegal(next, text[nl + 1..]);
      LegalAppend(active, events, Consume(next, text[nl + 1..]).events);
    }
  }

  // ---------------------------------------------------------------------------------------
  // Reading back a serialized stream
  // ---------------------------------------------------------------------------------------

  /** What a server sends: a notification, or a whole command block. */
  datatype Item =
    | Note(m: Message)
    | Block(open: Message, lines: seq<string>, close: Message)

  /** A message that comes back from its line (`RoundTripIff`), written as one line. */
  predicate Sendable(m: Message) {
    Shaped(m) && !EndsInCr(Serialize(m)) && NewlineFree(m)
  }

  predicate OutputText(line: string) {
    OneLine(line) && !IsTerminator(line)
  }

  predicate InDomain(i: Item) {
    match i
    case Note(m) => Sendable(m) && !m.Guard?
    case Block(open, lines, close) =>
      Opens(open) && open.commandNumber != NO_BLOCK && Closes(close) && forall l <- lines :: OutputText(l)
  }

  function LinesText(lines: seq<string>): string {
    if lines == [] then "" else lines[0] + (['\n'] + LinesText(lines[1..]))
  }

  function WireLines(i: Item): seq<string> {
    match i
    case Note(m) => [Serialize(m)]
    case Block(open, lines, close) => [Serialize(open)] + lines + [Serialize(close)]
  }

  function Wire(items: seq<Item>): string {
    if items == [] then "" else LinesText(WireLines(items[0])) + Wire(items[1..])
  }

  function OutputEvents(number: Num, lines: seq<string>): seq<Event> {
    if lines == [] then [] else [OutputLine(number, lines[0])] + OutputEvents(number, lines[1..])
  }

  function Received(i: Item): seq<Event> {
    match i
    case Note(m) => [Emitted(m)]
    case Block(open, lines, close) =>
      if open.Guard? then [Emitted(open)] + OutputEvents(open.commandNumber, lines) + [Emitted(close)] else []
  }

  function ReceivedAll(items: seq<Item>): seq<Event> {
    if items == [] then [] else Received(items[0]) + ReceivedAll(items[1..])
  }

  /** A guard line is a terminator exactly when it is no begin. */
  lemma GuardLine(m: Message)
    requires m.Guard?
    ensures Sendable(m) && (Closes(m) ==> IsTerminator(Serialize(m)))
  {
    hide ParseLine, Args, Name, Show, StripCr, ParseArgs, EndsInCr, FirstToken, Lookup, ParseGuard;
    SerializedEnd(m);
    EmptyEnd();
    var args := Args(m);
    var k := OfGuard(m.guard);
    SerializedParse(m);
    PlainLine(Join(Name(k), args));
    NameIsWord(k);
    TokensOf(Name(k), args);
    GuardNames();
  }

  /** Outside a block, a sendable message is emitted from its line. */
  lemma NoteLine(m: Message)
    requires Sendable(m)
    ensures Line(NO_BLOCK, Serialize(m)) == (ActiveAfter(NO_BLOCK, m), [Emitted(m)]) && OneLine(Serialize(m))
  {
    hide ParseLine, Serialize, Shaped, EndsInCr, NewlineFree, OneLine;
    RoundTripIff(m);
    SerializedIsOneLine(m);
  }

  lemma CloseLine(active: Num, m: Message)
    requires Closes(m)
    ensures Line(active, Serialize(m)) == (NO_BLOCK, [Emitted(m)]) && OneLine(Serialize(m))
  {
    hide ParseLine, Serialize, Shaped, EndsInCr, NewlineFree, OneLine, IsTerminator;
    GuardLine(m);
    RoundTripIff(m);
    SerializedIsOneLine(m);
  }

  lemma {:induction false} OutputLinesRead(number: Num, lines: seq<string>, rest: string)
    requires number != NO_BLOCK && forall l <- lines :: OutputText(l)
    ensures Consume(number, LinesText(lines) + rest) == Consume(number, rest).Prepend(OutputEvents(number, lines))
  {
    hide Consume, OneLine, IsTerminator;
    if lines == [] {
      assert LinesText(lines) + rest == rest;
    } else {
      var tail := LinesText(lines[1..]) + rest;
      assert OutputText(lines[0]);
      assert forall l <- lines[1..] :: l in lines;
      assert LinesText(lines) + rest == lines[0] + (['\n'] + tail);
      ConsumeLine(number, lines[0], tail);
      OutputLinesRead(number, lines[1..], rest);
      PrependTwice(Consume(number, rest), [OutputLine(number, lines[0])], OutputEvents(number, lines[1..]));
    }
  }

  lemma {:induction false} LinesTextSplit(a: seq<string>, b: seq<string>)
    ensures LinesText(a + b) == LinesText(a) + LinesText(b)
  {
    if a == [] {
      assert a + b == b;
    } else {
      assert (a + b)[1..] == a[1..] + b;
      LinesTextSplit(a[1..], b);
    }
  }

  lemma OneLineText(line: string)
    ensures LinesText([line]) == line + ['\n']
  {
  }

  /** An item in the domain is read as itself, and leaves no block open. */
  lemma ItemRead(i: Item, rest: string)
    requires InDomain(i)
    ensures Consume(NO_BLOCK, LinesText(WireLines(i)) + rest) == Consume(NO_BLOCK, rest).Prepend(Received(i))
  {
    hide Consume, Line, Serialize, OneLine, Sendable, OutputText;
    match i
    case Note(m) =>
      NoteLine(m);
      OneLineText(Serialize(m));
      assert LinesText(WireLines(i)) + rest == Serialize(m) + (['\n'] + rest);
      ConsumeLine(NO_BLOCK, Serialize(m), rest);
    case Block(open, lines, close) =>
      BlockRead(open, lines, close, rest);
  }

  lemma BlockText(a: string, lines: seq<string>, z: string, rest: string)
    ensures LinesText([a] + lines + [z]) + rest == a + (['\n'] + (LinesText(lines) + (z + (['\n'] + rest))))
  {
    hide LinesText;
    LinesTextSplit([a] + lines, [z]);
    LinesTextSplit([a], lines);
    OneLineText(a);
    OneLineText(z);
    var m := LinesText(lines);
    assert LinesText([a] + lines + [z]) + rest == ((a + ['\n']) + m + (z + ['\n'])) + rest;
  }

  lemma BlockRead(open: Message, lines: seq<string>, close: Message, rest: string)
    requires InDomain(Block(open, lines, close))
    ensures Consume(NO_BLOCK, LinesText(WireLines(Block(open, lines, close))) + rest)
         == Consume(NO_BLOCK, rest).Prepend(Received(Block(open, lines, close)))
  {
    hide Consume, Line, Serialize, OneLine, Sendable, OutputText, OutputEvents, LinesText;
    var number := open.commandNumber;
    GuardLine(open);
    NoteLine(open);
    CloseLine(number, close);
    BlockText(Serialize(open), lines, Serialize(close), rest);
    var last := Serialize(close) + (['\n'] + rest);
    var middle := LinesText(lines) + last;
    ConsumeLine(NO_BLOCK, Serialize(open), middle);
    OutputLinesRead(number, lines, last);
    ConsumeLine(number, Serialize(close), rest);
    var o := Consume(NO_BLOCK, rest);
    PrependTwice(o, OutputEvents(number, lines), [Emitted(close)]);
    PrependTwice(o, [Emitted(open)], OutputEvents(number, lines) + [Emitted(close)]);
    assert [Emitted(open)] + (OutputEvents(number, lines) + [Emitted(close)])
        == [Emitted(open)] + OutputEvents(number, lines) + [Emitted(close)];
  }

  lemma {:induction false} WireRead(items: seq<Item>)
    requires forall i <- items :: InDomain(i)
    ensures Consume(NO_BLOCK, Wire(items)) == Outcome(INIT, ReceivedAll(items))
  {
    hide Line, WireLines, Received, InDomain;
    if items != [] {
      assert InDomain(items[0]);
      ItemRead(items[0], Wire(items[1..]));
      assert forall i <- items[1..] :: i in items;
      WireRead(items[1..]);
    }
  }

  /**
    Serialize any sequence of notifications and whole command blocks, cut the text anywhere, feed the
    pieces to a fresh parser: it reports exactly those messages and output lines, in order.
   */
  lemma StreamRoundTrip(items: seq<Item>, chunks: seq<string>)
    requires (forall i <- items :: InDomain(i)) && Concat(chunks) == Wire(items)
    ensures FedAll(INIT, chunks) == Outcome(INIT, ReceivedAll(items))
  {
    hide Consume, InDomain, Wire, ReceivedAll, Concat, FedAll;
    AnyChunking(INIT, chunks);
    WireRead(items);
    assert "" + Wire(items) == Wire(items);
  }

  // ---------------------------------------------------------------------------------------
  // The parser object
  // ---------------------------------------------------------------------------------------

  class TmuxParser {
    var buffer: string
    var activeCommandNumber: Num
    /** Everything handed to the callbacks so far. */
    var delivered: seq<Event>

    constructor ()
      ensures Now() == INIT && delivered == []
    {
      buffer, activeCommandNumber, delivered := "", NO_BLOCK, [];
    }

    ghost function Now(): State
      reads this
    {
      State(activeCommandNumber, buffer)
    }

    method Feed(chunk: string)
      modifies this
      ensures var o := Fed(old(Now()), chunk);
              Now() == o.state && delivered == old(delivered) + o.events
    {
      hide Line, Consume;
      buffer := buffer + chunk;
      ghost var whole, sofar := Consume(activeCommandNumber, buffer), [];
      var newlineIdx := IndexOf(buffer, '\n');
      assert whole.Prepend([]) == whole;
      while newlineIdx != -1
        invariant newlineIdx == IndexOf(buffer, '\n')
        invariant delivered == old(delivered) + sofar
        invariant whole == Consume(activeCommandNumber, buffer).Prepend(sofar)
        decreases |buffer|
      {
        ghost var active := activeCommandNumber;
        var line := buffer[..newlineIdx];
        ConsumeStep(active, buffer);
        buffer := buffer[newlineIdx + 1..];
        ProcessLine(line);
        PrependTwice(Consume(activeCommandNumber, buffer), sofar, Line(active, line).1);
        assert old(delivered) + sofar + Line(active, line).1 == old(delivered) + (sofar + Line(active, line).1);
        sofar := sofar + Line(active, line).1;
        newlineIdx := IndexOf(buffer, '\n');
      }
      NothingToConsume(Now());
      assert sofar + [] == sofar;
    }

    static lemma ConsumeStep(active: Num, text: string)
      requires '\n' in text
      ensures var nl := IndexOf(text, '\n');
              nl >= 0 && Consume(active, text) ==
                         Consume(Line(active, text[..nl]).0, text[nl + 1..]).Prepend(Line(active, text[..nl]).1)
    {
      hide Line;
    }

    method Reset()
      modifies this`buffer, this`activeCommandNumber
      ensures Now() == INIT
    {
      buffer, activeCommandNumber := "", NO_BLOCK;
    }

    method ProcessLine(line: string)
      modifies this`activeCommandNumber, this`delivered
      ensures (activeCommandNumber, delivered) ==
              (Line(old(activeCommandNumber), line).0, old(delivered) + Line(old(activeCommandNumber), line).1)
    {
      hide ParseArgs, Lookup, FirstToken, AfterFirst, StripCr, Name;
      var inResponseBlock := activeCommandNumber != NO_BLOCK;
      var clean := StripTrailing(line);
      var isNotification := clean != "" && clean[0] == '%';
      var typeStr := if isNotification then FirstToken(clean[1..]) else "";
      var argsStr := if isNotification then AfterFirst(clean[1..]) else "";
      var isBlockTerminator := typeStr == "end" || typeStr == "error";
      if inResponseBlock && !isBlockTerminator {
        delivered := delivered + [OutputLine(activeCommandNumber, line)];
        return;
      }
      assert delivered + [] == delivered;
      if !isNotification {
        return;
      }
      var parser := Lookup(typeStr);
      if parser.None? {
        UnknownIsNoTerminator(typeStr);
        return;
      }
      var msg := ParseArgs(parser.value, argsStr);
      if msg.None? {
        if inResponseBlock && isBlockTerminator {
          var commandNumber := activeCommandNumber;
          activeCommandNumber := NO_BLOCK;
          delivered := delivered + [ProtocolError(commandNumber, line)];
        }
        return;
      }
      if msg.value.Guard? && msg.value.guard == Begin {
        activeCommandNumber := msg.value.commandNumber;
      } else if msg.value.Guard? {
        activeCommandNumber := NO_BLOCK;
      }
      delivered := delivered + [Emitted(msg.value)];
    }

    static lemma UnknownIsNoTerminator(typeStr: string)
      requires Lookup(typeStr).None?
      ensures typeStr != "end" && typeStr != "error"
    {
      hide Lookup;
      GuardNames();
      LookupName(OfGuard(End));
      LookupName(OfGuard(Error));
    }

    static method StripTrailing(line: string) returns (clean: string)
      ensures clean == StripCr(line)
    {
      var cleanEnd := |line|;
      assert line[..cleanEnd] == line;
      while cleanEnd > 0 && line[cleanEnd - 1] == '\r'
        invariant 0 <= cleanEnd <= |line|
        invariant StripCr(line[..cleanEnd]) == StripCr(line)
      {
        assert line[..cleanEnd][..cleanEnd - 1] == line[..cleanEnd - 1];
        cleanEnd := cleanEnd - 1;
      }
      clean := line[..cleanEnd];
    }
  }
}

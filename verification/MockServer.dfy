/**
  The scripted server (src/mock/server.ts): command numbering, whole response blocks, and the
  outbound queue that is drained by one outer loop.
 */
module MockServer {
  import opened JsStrings
  import opened Messages
  import P = Parser

  /** What the scenario says about a command: a reply, nothing, or a throw with its message. */
  datatype Answer = Answered(ok: bool, output: seq<string>) | Silent | Throws(message: string)

  /** `now(n)` is the clock as read for command number `n`. */
  datatype Scenario = Scenario(greeting: seq<Message>, respond: string -> Answer, now: nat -> Num)

  const CONTROL_FLAGS := Int(1)

  function OutputOf(a: Answer): seq<string> {
    match a
    case Answered(_, output) => output
    case Silent => []
    case Throws(message) => [message]
  }

  predicate Succeeds(a: Answer) {
    a.Silent? || (a.Answered? && a.ok)
  }

  function Guarded(sc: Scenario, g: GuardType, number: nat): Message {
    Guard(g, sc.now(number), Int(number), CONTROL_FLAGS)
  }

  /** The response block of a command. */
  function BlockFor(sc: Scenario, number: nat, command: string): P.Item {
    var a := sc.respond(command);
    P.Block(Guarded(sc, Begin, number), OutputOf(a), Guarded(sc, if Succeeds(a) then End else Error, number))
  }

  /** A reply's block: its number and the time in both guards, closed by an end when the scenario answers, by an error when it fails or throws. */
  lemma BlockIs(sc: Scenario, number: nat, command: string)
    ensures var time := sc.now(number);
            BlockFor(sc, number, command)
            == match sc.respond(command)
               case Answered(true, output) =>
                 P.Block(Guard(Begin, time, Int(number), Int(1)), output, Guard(End, time, Int(number), Int(1)))
               case Answered(false, output) =>
                 P.Block(Guard(Begin, time, Int(number), Int(1)), output, Guard(Error, time, Int(number), Int(1)))
               case Silent =>
                 P.Block(Guard(Begin, time, Int(number), Int(1)), [], Guard(End, time, Int(number), Int(1)))
               case Throws(message) =>
                 P.Block(Guard(Begin, time, Int(number), Int(1)), [message], Guard(Error, time, Int(number), Int(1)))
  {
  }

  /** The unsolicited block every session starts with. */
  function GreetingBlock(sc: Scenario, number: nat): P.Item {
    P.Block(Guarded(sc, Begin, number), [], Guarded(sc, End, number))
  }

  function Terminated(lines: seq<string>): seq<string> {
    if lines == [] then [] else [lines[0] + "\n"] + Terminated(lines[1..])
  }

  /** One chunk per wire line. */
  function ChunksFor(i: P.Item): seq<string> {
    Terminated(P.WireLines(i))
  }

  function NoteChunks(messages: seq<Message>): seq<string> {
    if messages == [] then [] else ChunksFor(P.Note(messages[0])) + NoteChunks(messages[1..])
  }

  lemma {:induction false} TerminatedAppend(a: seq<string>, b: seq<string>)
    ensures Terminated(a + b) == Terminated(a) + Terminated(b)
  {
    if a == [] {
      assert a + b == b;
    } else {
      assert (a + b)[1..] == a[1..] + b;
      TerminatedAppend(a[1..], b);
    }
  }

  lemma TerminatedOne(line: string)
    ensures Terminated([line]) == [line + "\n"]
  {
  }

  /** What a run of command lines enqueues, stopping at the empty line, which detaches. */
  datatype Handled = Handled(number: nat, rest: string, closed: bool, commands: seq<string>, chunks: seq<string>) {
    function After(commands: seq<string>, chunks: seq<string>): Handled {
      this.(commands := commands + this.commands, chunks := chunks + this.chunks)
    }
  }

  function HandleLines(sc: Scenario, number: nat, input: string): (h: Handled)
    decreases |input|
  {
    var nl := IndexOf(input, '\n');
    if nl == -1 then Handled(number, input, false, [], [])
    else if nl == 0 then Handled(number, input[1..], true, [], [])
    else
      var h := HandleLines(sc, number + 1, input[nl + 1..]);
      h.After([input[..nl]], ChunksFor(BlockFor(sc, number + 1, input[..nl])))
  }

  /** What is still to be handled while `send` loops. */
  function Remaining(sc: Scenario, number: nat, input: string, closed: bool): Handled {
    if closed then Handled(number, input, true, [], []) else HandleLines(sc, number, input)
  }

  lemma RemainingStep(sc: Scenario, number: nat, input: string)
    requires '\n' in input
    ensures var nl := IndexOf(input, '\n');
            && nl >= 0
            && Remaining(sc, number, input, false) ==
               if nl == 0 then Remaining(sc, number, input[1..], true)
               else Remaining(sc, number + 1, input[nl + 1..], false)
                      .After([input[..nl]], ChunksFor(BlockFor(sc, number + 1, input[..nl])))
  {
    hide ChunksFor, BlockFor;
  }

  lemma RemainingNone(sc: Scenario, number: nat, input: string, closed: bool)
    requires '\n' !in input || closed
    ensures Remaining(sc, number, input, closed) == Handled(number, input, closed, [], [])
  {
  }

  lemma AfterTwice(h: Handled, a: seq<string>, b: seq<string>, x: seq<string>, y: seq<string>)
    ensures h.After(b, y).After(a, x) == h.After(a + b, x + y)
    ensures h.After([], []) == h
  {
    assert a + (b + h.commands) == (a + b) + h.commands;
    assert x + (y + h.chunks) == (x + y) + h.chunks;
  }

  /** A command without a newline, sent as one line, is exactly one command and one whole block. */
  lemma OneCommandOneBlock(sc: Scenario, number: nat, command: string)
    requires command != "" && '\n' !in command
    ensures HandleLines(sc, number, command + "\n")
         == Handled(number + 1, "", false, [command], ChunksFor(BlockFor(sc, number + 1, command)))
  {
    hide ChunksFor, BlockFor;
    IndexOfFirst(command, '\n', "");
    var input := command + "\n";
    assert input == command + (['\n'] + "");
    assert input[..|command|] == command && input[|command| + 1..] == "";
    var chunks := ChunksFor(BlockFor(sc, number + 1, command));
    assert chunks + [] == chunks;
  }

  /** A complete line is one command, answered by one block; what follows it is handled next. */
  lemma LineThen(sc: Scenario, number: nat, command: string, rest: string)
    requires command != "" && '\n' !in command
    ensures HandleLines(sc, number, command + ("\n" + rest))
         == HandleLines(sc, number + 1, rest).After([command], ChunksFor(BlockFor(sc, number + 1, command)))
  {
    hide ChunksFor, BlockFor;
    IndexOfFirst(command, '\n', rest);
    var input := command + ("\n" + rest);
    assert input == command + (['\n'] + rest);
    assert input[..|command|] == command && input[|command| + 1..] == rest;
  }

  /** An empty line detaches: nothing after it is handled. An unfinished line waits for its end. */
  lemma EmptyLineDetaches(sc: Scenario, number: nat, rest: string)
    ensures HandleLines(sc, number, "\n" + rest) == Handled(number, rest, true, [], [])
    ensures '\n' !in rest ==> HandleLines(sc, number, rest) == Handled(number, rest, false, [], [])
  {
    IndexOfFirst("", '\n', rest);
    assert "\n" + rest == "" + (['\n'] + rest);
    assert ("\n" + rest)[1..] == rest;
  }

  class MockTmuxServer {
    const scenario: Scenario
    var commandNumber: nat
    var inputBuffer: string
    var outbound: seq<string>
    var flushing: bool
    var started: bool
    var closed: bool
    var commandLog: seq<string>
    /** The chunks handed to the data callbacks. */
    var delivered: seq<string>

    constructor (scenario: Scenario)
      ensures this.scenario == scenario && commandNumber == 0 && inputBuffer == "" && outbound == []
      ensures !flushing && !started && !closed && commandLog == [] && delivered == []
    {
      this.scenario := scenario;
      commandNumber, inputBuffer, outbound, commandLog, delivered := 0, "", [], [], [];
      flushing, started, closed := false, false, false;
    }

    /** Everything ever enqueued, in order. */
    ghost function Stream(): seq<string>
      reads this
    {
      delivered + outbound
    }

    /** A nested call returns at once; the outer loop drains whatever was enqueued. */
    method Flush()
      modifies this`outbound, this`delivered, this`flushing
      ensures Stream() == old(Stream()) && flushing == old(flushing)
      ensures if flushing then delivered == old(delivered) else outbound == []
    {
      if flushing {
        return;
      }
      flushing := true;
      while |outbound| > 0
        invariant Stream() == old(Stream())
        decreases |outbound|
      {
        var chunk := outbound[0];
        outbound := outbound[1..];
        delivered := delivered + [chunk];
        assert delivered + outbound == old(Stream());
      }
      flushing := false;
    }

    method EnqueueLine(line: string)
      modifies this`outbound
      ensures outbound == old(outbound) + [line + "\n"]
    {
      outbound := outbound + [line + "\n"];
    }

    method EnqueueLines(lines: seq<string>)
      modifies this`outbound
      ensures outbound == old(outbound) + Terminated(lines)
    {
      for i := 0 to |lines|
        invariant outbound == old(outbound) + Terminated(lines[..i])
      {
        TerminatedAppend(lines[..i], [lines[i]]);
        assert lines[..i + 1] == lines[..i] + [lines[i]];
        EnqueueLine(lines[i]);
      }
      assert lines[..|lines|] == lines;
    }

    /** Enqueue one whole item: a notification's line, or a block's begin, output and terminator. */
    method EnqueueItem(i: P.Item)
      modifies this`outbound
      ensures outbound == old(outbound) + ChunksFor(i)
    {
      hide Serialize;
      match i {
        case Note(m) =>
          TerminatedOne(Serialize(m));
          EnqueueLine(Serialize(m));
        case Block(open, lines, close) =>
          EnqueueLine(Serialize(open));
          EnqueueLines(lines);
          EnqueueLine(Serialize(close));
          TerminatedOne(Serialize(open));
          TerminatedOne(Serialize(close));
          TerminatedAppend([Serialize(open)] + lines, [Serialize(close)]);
          TerminatedAppend([Serialize(open)], lines);
      }
    }

    method HandleCommandLine(line: string)
      modifies this
      ensures inputBuffer == old(inputBuffer) && started == old(started) && flushing == old(flushing)
      ensures if line == "" then
                closed && commandNumber == old(commandNumber) && commandLog == old(commandLog)
                && outbound == old(outbound) && delivered == old(delivered)
              else
                closed == old(closed) && commandNumber == old(commandNumber) + 1 && commandLog == old(commandLog) + [line]
                && Stream() == old(Stream()) + ChunksFor(BlockFor(scenario, commandNumber, line))
                && if flushing then delivered == old(delivered) else outbound == []
    {
      hide ChunksFor, BlockFor;
      if line == "" {
        closed := true;
        return;
      }
      commandLog := commandLog + [line];
      commandNumber := commandNumber + 1;
      EnqueueItem(BlockFor(scenario, commandNumber, line));
      assert Stream() == old(Stream()) + ChunksFor(BlockFor(scenario, commandNumber, line));
      Flush();
    }

    /** Every complete line of input is handled as `HandleLines` says; nothing is delivered from a nested call. */
    method Send(command: string) returns (ok: bool)
      requires !flushing ==> outbound == []
      modifies this
      ensures ok == !old(closed) && flushing == old(flushing) && started == old(started)
      ensures !ok ==> Stream() == old(Stream()) && commandLog == old(commandLog) && closed
      ensures ok ==> var h := HandleLines(scenario, old(commandNumber), old(inputBuffer) + command);
                     && commandNumber == h.number && inputBuffer == h.rest && closed == h.closed
                     && commandLog == old(commandLog) + h.commands && Stream() == old(Stream()) + h.chunks
      ensures if flushing then delivered == old(delivered) else outbound == []
    {
      hide ChunksFor, BlockFor, Remaining, Handled.After;
      if closed {
        return false;
      }
      inputBuffer := inputBuffer + command;
      ghost var whole := Remaining(scenario, commandNumber, inputBuffer, false);
      ghost var handled, queued: seq<string> := [], [];
      AfterTwice(whole, [], [], [], []);
      var newlineIdx := IndexOf(inputBuffer, '\n');
      while newlineIdx != -1 && !closed
        invariant newlineIdx == IndexOf(inputBuffer, '\n') && flushing == old(flushing) && started == old(started)
        invariant commandLog == old(commandLog) + handled && Stream() == old(Stream()) + queued
        invariant if flushing then delivered == old(delivered) else outbound == []
        invariant whole == Remaining(scenario, commandNumber, inputBuffer, closed).After(handled, queued)
        decreases |inputBuffer|
      {
        RemainingStep(scenario, commandNumber, inputBuffer);
        var line := inputBuffer[..newlineIdx];
        inputBuffer := inputBuffer[newlineIdx + 1..];
        HandleCommandLine(line);
        if line != "" {
          ghost var chunks := ChunksFor(BlockFor(scenario, commandNumber, line));
          AfterTwice(Remaining(scenario, commandNumber, inputBuffer, false), handled, [line], queued, chunks);
          assert (old(commandLog) + handled) + [line] == old(commandLog) + (handled + [line]);
          assert (old(Stream()) + queued) + chunks == old(Stream()) + (queued + chunks);
          handled, queued := handled + [line], queued + chunks;
        }
        newlineIdx := IndexOf(inputBuffer, '\n');
      }
      RemainingNone(scenario, commandNumber, inputBuffer, closed);
      SendResult(whole, Remaining(scenario, commandNumber, inputBuffer, closed), handled, queued);
      RemainingIs(scenario, old(commandNumber), old(inputBuffer) + command);
      ok := true;
    }

    static lemma RemainingIs(sc: Scenario, number: nat, input: string)
      ensures Remaining(sc, number, input, false) == HandleLines(sc, number, input)
    {
    }

    static lemma SendResult(whole: Handled, left: Handled, commands: seq<string>, chunks: seq<string>)
      requires whole == left.After(commands, chunks) && left.commands == [] && left.chunks == []
      ensures whole == Handled(left.number, left.rest, left.closed, commands, chunks)
    {
      assert commands + [] == commands && chunks + [] == chunks;
    }

    /** The greeting block and the scenario's notifications, delivered at most once. */
    method Start()
      requires !flushing ==> outbound == []
      modifies this
      ensures if old(closed) || old(started) then
                Stream() == old(Stream()) && commandNumber == old(commandNumber) && started == old(started)
              else
                && started && commandNumber == old(commandNumber) + 1
                && Stream() == old(Stream()) + ChunksFor(GreetingBlock(scenario, commandNumber)) + NoteChunks(scenario.greeting)
      ensures flushing == old(flushing) && if flushing then delivered == old(delivered) else outbound == []
    {
      hide ChunksFor, GreetingBlock;
      if closed || started {
        return;
      }
      started := true;
      commandNumber := commandNumber + 1;
      EnqueueItem(GreetingBlock(scenario, commandNumber));
      ghost var whole := Stream() + NoteChunks(scenario.greeting);
      for i := 0 to |scenario.greeting|
        invariant Stream() + NoteChunks(scenario.greeting[i..]) == whole
        invariant delivered == old(delivered) && flushing == old(flushing)
        invariant started && commandNumber == old(commandNumber) + 1
      {
        ghost var before := Stream();
        var m := scenario.greeting[i];
        assert scenario.greeting[i..][0] == m && scenario.greeting[i..][1..] == scenario.greeting[i + 1..];
        EnqueueItem(P.Note(m));
        assert Stream() == before + ChunksFor(P.Note(m));
      }
      assert scenario.greeting[|scenario.greeting|..] == [];
      assert Stream() + [] == Stream();
      Flush();
    }

    method Emit(m: Message)
      requires !flushing ==> outbound == []
      modifies this`outbound, this`delivered, this`flushing
      ensures Stream() == old(Stream()) + if closed then [] else ChunksFor(P.Note(m))
      ensures flushing == old(flushing) && if flushing then delivered == old(delivered) else outbound == []
    {
      hide ChunksFor;
      if closed {
        return;
      }
      EnqueueItem(P.Note(m));
      assert Stream() == old(Stream()) + ChunksFor(P.Note(m));
      Flush();
    }

    method Close()
      modifies this`closed
      ensures closed
    {
      closed := true;
    }
  }
}

/**
  Control-mode notifications: the line parsers (src/protocol/parser.ts), the serializer
  (src/protocol/serializer.ts), and exactly which messages survive the trip there and back.
 */
module Messages {
  import opened Options
  import opened JsStrings
  import opened Layout
  import opened OctalCodec

  // ---------------------------------------------------------------------------------------
  // Messages and their wire types
  // ---------------------------------------------------------------------------------------

  datatype GuardType = Begin | End | Error
  datatype PaneEventType = Pause | Continue | PaneModeChanged
  datatype WindowEventType = WindowAdd | WindowClose | UnlinkedWindowAdd | UnlinkedWindowClose
  datatype SessionNameType = SessionChanged | SessionRenamed
  datatype BufferType = PasteBufferChanged | PasteBufferDeleted

  datatype Message =
    | Guard(guard: GuardType, timestamp: Num, commandNumber: Num, flags: Num)
    | Output(paneId: Num, data: seq<Byte>)
    | ExtendedOutput(paneId: Num, age: Num, data: seq<Byte>)
    | PaneEvent(pane: PaneEventType, paneId: Num)
    | WindowEvent(window: WindowEventType, windowId: Num)
    | WindowRenamed(unlinked: bool, windowId: Num, name: string)
    | WindowPaneChanged(windowId: Num, paneId: Num)
    | LayoutChange(windowId: Num, windowLayout: string, windowVisibleLayout: string, windowFlags: string,
                   layout: WindowLayout, visibleLayout: WindowLayout)
    | SessionNamed(session: SessionNameType, sessionId: Num, name: string)
    | SessionsChanged
    | SessionWindowChanged(sessionId: Num, windowId: Num)
    | ClientSessionChanged(clientName: string, sessionId: Num, name: string)
    | ClientDetached(clientName: string)
    | PasteBuffer(buffer: BufferType, name: string)
    | SubscriptionChanged(name: string, sessionId: Num, windowId: Num, windowIndex: Num, paneId: Num, value: string)
    | MessageText(message: string)
    | ConfigError(error: string)
    | Exit(reason: Option<string>)

  /** The keys of the dispatch table. */
  datatype Kind =
    | OfGuard(guard: GuardType)
    | OfOutput
    | OfExtendedOutput
    | OfPane(pane: PaneEventType)
    | OfWindow(window: WindowEventType)
    | OfRenamed(unlinked: bool)
    | OfWindowPane
    | OfLayout
    | OfSession(session: SessionNameType)
    | OfSessions
    | OfSessionWindow
    | OfClientSession
    | OfDetached
    | OfBuffer(buffer: BufferType)
    | OfSubscription
    | OfMessage
    | OfConfigError
    | OfExit

  function KindOf(m: Message): Kind {
    match m
    case Guard(g, _, _, _) => OfGuard(g)
    case Output(_, _) => OfOutput
    case ExtendedOutput(_, _, _) => OfExtendedOutput
    case PaneEvent(p, _) => OfPane(p)
    case WindowEvent(w, _) => OfWindow(w)
    case WindowRenamed(u, _, _) => OfRenamed(u)
    case WindowPaneChanged(_, _) => OfWindowPane
    case LayoutChange(_, _, _, _, _, _) => OfLayout
    case SessionNamed(s, _, _) => OfSession(s)
    case SessionsChanged => OfSessions
    case SessionWindowChanged(_, _) => OfSessionWindow
    case ClientSessionChanged(_, _, _) => OfClientSession
    case ClientDetached(_) => OfDetached
    case PasteBuffer(b, _) => OfBuffer(b)
    case SubscriptionChanged(_, _, _, _, _, _) => OfSubscription
    case MessageText(_) => OfMessage
    case ConfigError(_) => OfConfigError
    case Exit(_) => OfExit
  }

  function Name(k: Kind): string {
    match k
    case OfGuard(Begin) => "begin"
    case OfGuard(End) => "end"
    case OfGuard(Error) => "error"
    case OfOutput => "output"
    case OfExtendedOutput => "extended-output"
    case OfPane(Pause) => "pause"
    case OfPane(Continue) => "continue"
    case OfPane(PaneModeChanged) => "pane-mode-changed"
    case OfWindow(WindowAdd) => "window-add"
    case OfWindow(WindowClose) => "window-close"
    case OfWindow(UnlinkedWindowAdd) => "unlinked-window-add"
    case OfWindow(UnlinkedWindowClose) => "unlinked-window-close"
    case OfRenamed(false) => "window-renamed"
    case OfRenamed(true) => "unlinked-window-renamed"
    case OfWindowPane => "window-pane-changed"
    case OfLayout => "layout-change"
    case OfSession(SessionChanged) => "session-changed"
    case OfSession(SessionRenamed) => "session-renamed"
    case OfSessions => "sessions-changed"
    case OfSessionWindow => "session-window-changed"
    case OfClientSession => "client-session-changed"
    case OfDetached => "client-detached"
    case OfBuffer(PasteBufferChanged) => "paste-buffer-changed"
    case OfBuffer(PasteBufferDeleted) => "paste-buffer-deleted"
    case OfSubscription => "subscription-changed"
    case OfMessage => "message"
    case OfConfigError => "config-error"
    case OfExit => "exit"
  }

  /** The entries of the dispatch table. */
  const TABLE: seq<Kind> := [
    OfGuard(Begin), OfGuard(End), OfGuard(Error), OfOutput, OfExtendedOutput,
    OfPane(Pause), OfPane(Continue), OfPane(PaneModeChanged),
    OfWindow(WindowAdd), OfWindow(WindowClose), OfRenamed(false), OfWindowPane,
    OfWindow(UnlinkedWindowAdd), OfWindow(UnlinkedWindowClose), OfRenamed(true), OfLayout,
    OfSession(SessionChanged), OfSession(SessionRenamed), OfSessions, OfSessionWindow,
    OfClientSession, OfDetached, OfBuffer(PasteBufferChanged), OfBuffer(PasteBufferDeleted),
    OfSubscription, OfMessage, OfConfigError, OfExit
  ]

  function Find(table: seq<Kind>, name: string): (k: Option<Kind>)
    ensures k.Some? ==> name == Name(k.value)
    ensures k.None? ==> forall e <- table :: Name(e) != name
  {
    if table == [] then None
    else if Name(table[0]) == name then Some(table[0])
    else Find(table[1..], name)
  }

  function Lookup(name: string): (k: Option<Kind>)
    ensures k.Some? ==> name == Name(k.value)
  {
    Find(TABLE, name)
  }

  function Position(k: Kind): nat {
    match k
    case OfGuard(Begin) => 0
    case OfGuard(End) => 1
    case OfGuard(Error) => 2
    case OfOutput => 3
    case OfExtendedOutput => 4
    case OfPane(Pause) => 5
    case OfPane(Continue) => 6
    case OfPane(PaneModeChanged) => 7
    case OfWindow(WindowAdd) => 8
    case OfWindow(WindowClose) => 9
    case OfRenamed(false) => 10
    case OfWindowPane => 11
    case OfWindow(UnlinkedWindowAdd) => 12
    case OfWindow(UnlinkedWindowClose) => 13
    case OfRenamed(true) => 14
    case OfLayout => 15
    case OfSession(SessionChanged) => 16
    case OfSession(SessionRenamed) => 17
    case OfSessions => 18
    case OfSessionWindow => 19
    case OfClientSession => 20
    case OfDetached => 21
    case OfBuffer(PasteBufferChanged) => 22
    case OfBuffer(PasteBufferDeleted) => 23
    case OfSubscription => 24
    case OfMessage => 25
    case OfConfigError => 26
    case OfExit => 27
  }

  lemma SameNameA(k: Kind, l: Kind)
    requires 0 <= Position(k) < 4 && Name(k) == Name(l)
    ensures k == l
  {
  }

  lemma SameNameB(k: Kind, l: Kind)
    requires 4 <= Position(k) < 8 && Name(k) == Name(l)
    ensures k == l
  {
  }

  lemma SameNameC(k: Kind, l: Kind)
    requires 8 <= Position(k) < 13 && Name(k) == Name(l)
    ensures k == l
  {
  }

  lemma SameNameD(k: Kind, l: Kind)
    requires 13 <= Position(k) < 18 && Name(k) == Name(l)
    ensures k == l
  {
  }

  lemma SameNameE(k: Kind, l: Kind)
    requires 18 <= Position(k) < 22 && Name(k) == Name(l)
    ensures k == l
  {
  }

  lemma SameNameF(k: Kind, l: Kind)
    requires 22 <= Position(k) < 28 && Name(k) == Name(l)
    ensures k == l
  {
  }

  lemma SameNameSameKind(k: Kind, l: Kind)
    requires Name(k) == Name(l)
    ensures k == l
  {
    hide Name;
    if Position(k) < 4 {
      SameNameA(k, l);
    } else if Position(k) < 8 {
      SameNameB(k, l);
    } else if Position(k) < 13 {
      SameNameC(k, l);
    } else if Position(k) < 18 {
      SameNameD(k, l);
    } else if Position(k) < 22 {
      SameNameE(k, l);
    } else {
      SameNameF(k, l);
    }
  }

  lemma InTable(k: Kind)
    ensures k in TABLE
  {
    hide Find, Name;
    assert Position(k) < |TABLE|;
    assert TABLE[Position(k)] == k;
  }

  /** Every wire type is found in the table under its own name. */
  lemma LookupName(k: Kind)
    ensures Lookup(Name(k)) == Some(k)
  {
    hide Name;
    InTable(k);
    SameNameSameKind(k, Find(TABLE, Name(k)).value);
  }

  // ---------------------------------------------------------------------------------------
  // The serializer
  // ---------------------------------------------------------------------------------------

  const NOT_APPLICABLE := Int(-1)

  function OptionalId(n: Num, prefix: char): string {
    if n == NOT_APPLICABLE then "-" else [prefix] + Show(n)
  }

  function OptionalInt(n: Num): string {
    if n == NOT_APPLICABLE then "-" else Show(n)
  }

  /** Two fields with the space between them. */
  function Join(a: string, b: string): string {
    a + ([' '] + b)
  }

  predicate HasArgs(m: Message) {
    m != SessionsChanged && m != Exit(None)
  }

  /** What follows the type on the wire. */
  function Args(m: Message): string
    requires HasArgs(m)
  {
    match m
    case Guard(_, ts, cn, flags) => Join(Show(ts), Join(Show(cn), Show(flags)))
    case Output(p, data) => Join(['%'] + Show(p), Encode(data))
    case ExtendedOutput(p, age, data) => Join(['%'] + Show(p), Show(age)) + (" : " + Encode(data))
    case PaneEvent(_, p) => ['%'] + Show(p)
    case WindowEvent(_, w) => ['@'] + Show(w)
    case WindowRenamed(_, w, name) => Join(['@'] + Show(w), name)
    case WindowPaneChanged(w, p) => Join(['@'] + Show(w), ['%'] + Show(p))
    case LayoutChange(w, layout, visible, flags, _, _) => Join(['@'] + Show(w), Join(layout, Join(visible, flags)))
    case SessionNamed(_, s, name) => Join(['$'] + Show(s), name)
    case SessionWindowChanged(s, w) => Join(['$'] + Show(s), ['@'] + Show(w))
    case ClientSessionChanged(client, s, name) => Join(client, Join(['$'] + Show(s), name))
    case ClientDetached(client) => client
    case PasteBuffer(_, name) => name
    case SubscriptionChanged(name, _, _, _, _, value) => Join(name, Scope(m)) + (" : " + value)
    case MessageText(text) => text
    case ConfigError(text) => text
    case Exit(reason) => reason.value
  }

  /** The four scope fields of a subscription. */
  function Scope(m: Message): string
    requires m.SubscriptionChanged?
  {
    Join(OptionalId(m.sessionId, '$'),
         Join(OptionalId(m.windowId, '@'), Join(OptionalInt(m.windowIndex), OptionalId(m.paneId, '%'))))
  }

  function Serialize(m: Message): string {
    ['%'] + (if HasArgs(m) then Join(Name(KindOf(m)), Args(m)) else Name(KindOf(m)))
  }

  // ---------------------------------------------------------------------------------------
  // The line parsers
  // ---------------------------------------------------------------------------------------

  function ParseId(raw: string): Num {
    ParseInt(Slice1(raw))
  }

  function ParseOptionalId(raw: string): Num {
    if raw == "-" then NOT_APPLICABLE else ParseId(raw)
  }

  function ParseOptionalInt(raw: string): Num {
    if raw == "-" then NOT_APPLICABLE else ParseInt(raw)
  }

  function ParseGuard(g: GuardType, args: string): Option<Message> {
    var parts := Split(args, ' ');
    if |parts| < 3 then None else Some(Guard(g, ParseInt(parts[0]), ParseInt(parts[1]), ParseInt(parts[2])))
  }

  function ParseOutput(args: string): Option<Message> {
    var sp := IndexOf(args, ' ');
    if sp == -1 then None else Some(Output(ParseId(args[..sp]), Decode(args[sp + 1..])))
  }

  function ParseExtendedOutput(args: string): Option<Message> {
    var colon := IndexOfColon(args);
    if colon == -1 then None else
    var parts := Split(args[..colon], ' ');
    if |parts| < 2 then None else
    Some(ExtendedOutput(ParseId(parts[0]), ParseInt(parts[1]), Decode(args[colon + 3..])))
  }

  function ParsePaneEvent(p: PaneEventType, args: string): Option<Message> {
    var raw := Split(args, ' ')[0];
    if raw == "" then None else Some(PaneEvent(p, ParseId(raw)))
  }

  function ParseWindowEvent(w: WindowEventType, args: string): Option<Message> {
    var raw := Split(args, ' ')[0];
    if raw == "" then None else Some(WindowEvent(w, ParseId(raw)))
  }

  function ParseWindowRenamed(unlinked: bool, args: string): Option<Message> {
    var sp := IndexOf(args, ' ');
    if sp == -1 then None else Some(WindowRenamed(unlinked, ParseId(args[..sp]), args[sp + 1..]))
  }

  function ParseWindowPaneChanged(args: string): Option<Message> {
    var parts := Split(args, ' ');
    if |parts| < 2 then None else Some(WindowPaneChanged(ParseId(parts[0]), ParseId(parts[1])))
  }

  function ParseLayoutChange(args: string): Option<Message> {
    var parts := Split(args, ' ');
    if |parts| < 4 then None else
    Some(LayoutChange(ParseId(parts[0]), parts[1], parts[2], parts[3],
                      ParseWindowLayout(parts[1]), ParseWindowLayout(parts[2])))
  }

  function ParseSessionNamed(s: SessionNameType, args: string): Option<Message> {
    var sp := IndexOf(args, ' ');
    if sp == -1 then None else Some(SessionNamed(s, ParseId(args[..sp]), args[sp + 1..]))
  }

  function ParseSessionWindowChanged(args: string): Option<Message> {
    var parts := Split(args, ' ');
    if |parts| < 2 then None else Some(SessionWindowChanged(ParseId(parts[0]), ParseId(parts[1])))
  }

  function ParseClientSessionChanged(args: string): Option<Message> {
    var sp := IndexOf(args, ' ');
    if sp == -1 then None else
    var rest := args[sp + 1..];
    var sp2 := IndexOf(rest, ' ');
    if sp2 == -1 then None else
    Some(ClientSessionChanged(args[..sp], ParseId(rest[..sp2]), rest[sp2 + 1..]))
  }

  function ParseClientDetached(args: string): Option<Message> {
    var raw := Split(args, ' ')[0];
    if raw == "" then None else Some(ClientDetached(raw))
  }

  function ParsePasteBuffer(b: BufferType, args: string): Option<Message> {
    var raw := Split(args, ' ')[0];
    if raw == "" then None else Some(PasteBuffer(b, raw))
  }

  function ParseSubscriptionChanged(args: string): Option<Message> {
    var colon := IndexOfColon(args);
    if colon == -1 then None else
    var parts := Split(args[..colon], ' ');
    if |parts| < 5 then None else
    Some(SubscriptionChanged(parts[0], ParseOptionalId(parts[1]), ParseOptionalId(parts[2]),
                             ParseOptionalInt(parts[3]), ParseOptionalId(parts[4]), args[colon + 3..]))
  }

  function ParseExit(args: string): Option<Message> {
    Some(Exit(if |args| > 0 then Some(args) else None))
  }

  function ParseArgs(k: Kind, args: string): Option<Message> {
    match k
    case OfGuard(g) => ParseGuard(g, args)
    case OfOutput => ParseOutput(args)
    case OfExtendedOutput => ParseExtendedOutput(args)
    case OfPane(p) => ParsePaneEvent(p, args)
    case OfWindow(w) => ParseWindowEvent(w, args)
    case OfRenamed(u) => ParseWindowRenamed(u, args)
    case OfWindowPane => ParseWindowPaneChanged(args)
    case OfLayout => ParseLayoutChange(args)
    case OfSession(s) => ParseSessionNamed(s, args)
    case OfSessions => Some(SessionsChanged)
    case OfSessionWindow => ParseSessionWindowChanged(args)
    case OfClientSession => ParseClientSessionChanged(args)
    case OfDetached => ParseClientDetached(args)
    case OfBuffer(b) => ParsePasteBuffer(b, args)
    case OfSubscription => ParseSubscriptionChanged(args)
    case OfMessage => Some(MessageText(args))
    case OfConfigError => Some(ConfigError(args))
    case OfExit => ParseExit(args)
  }

  /** Does the line, without its trailing carriage returns, start with '%'? */
  predicate IsNotification(line: string) {
    var clean := StripCr(line);
    clean != "" && clean[0] == '%'
  }

  /** The type token of a line; "" when it is no notification. */
  function TypeToken(line: string): string {
    if !IsNotification(line) then "" else FirstToken(StripCr(line)[1..])
  }

  function FirstToken(s: string): string {
    var sp := IndexOf(s, ' ');
    if sp == -1 then s else s[..sp]
  }

  function Arguments(line: string): string {
    if !IsNotification(line) then "" else AfterFirst(StripCr(line)[1..])
  }

  function AfterFirst(s: string): string {
    var sp := IndexOf(s, ' ');
    if sp == -1 then "" else s[sp + 1..]
  }

  /** The message a line carries on its own, if any. */
  function ParseLine(line: string): Option<Message> {
    var k := Lookup(TypeToken(line));
    if !IsNotification(line) || k.None? then None else ParseArgs(k.value, Arguments(line))
  }

  // ---------------------------------------------------------------------------------------
  // Shape: the messages a parser can produce
  // ---------------------------------------------------------------------------------------

  predicate Word(s: string) {
    ' ' !in s
  }

  predicate Shaped(m: Message) {
    match m
    case LayoutChange(_, layout, visible, flags, parsed, parsedVisible) =>
      && Word(layout) && Word(visible) && Word(flags)
      && parsed == ParseWindowLayout(layout) && parsedVisible == ParseWindowLayout(visible)
    case ClientSessionChanged(client, _, _) => Word(client)
    case ClientDetached(client) => Word(client) && client != ""
    case PasteBuffer(_, name) => Word(name) && name != ""
    case SubscriptionChanged(name, _, _, _, _, _) => Word(name)
    case Exit(Some(reason)) => reason != ""
    case _ => true
  }

  /** Whatever a line parses to is shaped and of the line's kind. */
  lemma ParsedIsShaped(k: Kind, args: string)
    ensures ParseArgs(k, args).Some? ==> Shaped(ParseArgs(k, args).value) && KindOf(ParseArgs(k, args).value) == k
  {
    hide ParseWindowLayout, ParseSubscriptionChanged, ParseLayoutChange, ParseClientSessionChanged, ParseClientDetached;
    hide ParsePasteBuffer, ParseInt, ParseId, Split, IndexOf, IndexOfColon, Decode, Word;
    match k
    case OfLayout => ParsedLayoutIsShaped(args);
    case OfClientSession => ParsedClientSessionIsShaped(args);
    case OfDetached => ParsedWordIsShaped(PasteBufferChanged, args);
    case OfBuffer(b) => ParsedWordIsShaped(b, args);
    case OfSubscription => ParsedSubscriptionIsShaped(args);
    case _ =>
  }

  lemma ParsedLayoutIsShaped(args: string)
    ensures var m := ParseLayoutChange(args); m.Some? ==> m.value.LayoutChange? && Shaped(m.value)
  {
    hide ParseWindowLayout, ParseId;
  }

  lemma ParsedClientSessionIsShaped(args: string)
    ensures var m := ParseClientSessionChanged(args); m.Some? ==> m.value.ClientSessionChanged? && Shaped(m.value)
  {
    hide ParseId;
  }

  lemma ParsedWordIsShaped(b: BufferType, args: string)
    ensures var m := ParsePasteBuffer(b, args); m.Some? ==> KindOf(m.value) == OfBuffer(b) && Shaped(m.value)
    ensures var m := ParseClientDetached(args); m.Some? ==> m.value.ClientDetached? && Shaped(m.value)
  {
  }

  lemma ParsedSubscriptionIsShaped(args: string)
    ensures var m := ParseSubscriptionChanged(args); m.Some? ==> m.value.SubscriptionChanged? && Shaped(m.value)
  {
    hide ParseOptionalId, ParseOptionalInt, IndexOfColon;
  }

  // ---------------------------------------------------------------------------------------
  // There and back, kind by kind
  // ---------------------------------------------------------------------------------------

  /** An id token: prefix and number. */
  lemma IdBack(prefix: char, n: Num)
    requires prefix != ' ' && prefix != ':'
    ensures var id := [prefix] + Show(n);
            ParseId(id) == n && Word(id) && ':' !in id && id != "" && id != "-"
  {
    hide Show, ParseInt;
    ParseShow(n);
    ShowIsPlain(n);
    assert ([prefix] + Show(n))[1..] == Show(n);
  }

  lemma NumberBack(n: Num)
    ensures ParseInt(Show(n)) == n && Word(Show(n)) && ':' !in Show(n) && Show(n) != "" && Show(n) != "-"
  {
    hide Show, ParseInt;
    ParseShow(n);
    ShowIsPlain(n);
  }

  lemma OptionalIdBack(prefix: char, n: Num)
    requires prefix != ' ' && prefix != ':'
    ensures var id := OptionalId(n, prefix); ParseOptionalId(id) == n && Word(id) && ':' !in id && id != ""
  {
    hide ParseId, Show;
    IdBack(prefix, n);
  }

  lemma OptionalIntBack(n: Num)
    ensures var t := OptionalInt(n); ParseOptionalInt(t) == n && Word(t) && ':' !in t && t != ""
  {
    hide ParseInt, Show;
    NumberBack(n);
  }

  lemma JoinSplits(a: string, b: string)
    requires Word(a)
    ensures Split(Join(a, b), ' ') == [a] + Split(b, ' ')
    ensures IndexOf(Join(a, b), ' ') == |a| && Join(a, b)[..|a|] == a && Join(a, b)[|a| + 1..] == b
  {
    hide Split, IndexOf;
    SplitCons(a, ' ', b);
    IndexOfFirst(a, ' ', b);
  }

  lemma ColonSplits(n: string, r: string, value: string)
    requires Word(n) && ':' !in r && r != "" && r[|r| - 1] != ' '
    ensures var a := Join(n, r); var s := a + (" : " + value);
            IndexOfColon(s) == |a| && s[..|a|] == a && s[|a| + 3..] == value
  {
    hide IndexOfColon;
    TokenThenColonFree(n, r);
    assert n + " " + r == Join(n, r);
    ColonFirst(Join(n, r), value);
  }

  lemma GuardBack(m: Message)
    requires m.Guard?
    ensures ParseGuard(m.guard, Args(m)) == Some(m)
  {
    hide Show, ParseInt, Split, Join;
    NumberBack(m.timestamp);
    NumberBack(m.commandNumber);
    NumberBack(m.flags);
    JoinSplits(Show(m.timestamp), Join(Show(m.commandNumber), Show(m.flags)));
    JoinSplits(Show(m.commandNumber), Show(m.flags));
    SplitOne(Show(m.flags), ' ');
  }

  lemma OutputBack(m: Message)
    requires m.Output?
    ensures ParseOutput(Args(m)) == Some(m)
  {
    hide Show, ParseInt, Split, Join, ParseId, Encode, Decode, IndexOf;
    IdBack('%', m.paneId);
    JoinSplits(['%'] + Show(m.paneId), Encode(m.data));
    DecodeEncode(m.data);
  }

  lemma ExtendedOutputBack(m: Message)
    requires m.ExtendedOutput?
    ensures ParseExtendedOutput(Args(m)) == Some(m)
  {
    hide Show, ParseInt, Split, Join, ParseId, Encode, Decode, IndexOfColon;
    var id, age := ['%'] + Show(m.paneId), Show(m.age);
    IdBack('%', m.paneId);
    NumberBack(m.age);
    assert age[|age| - 1] in age;
    ColonSplits(id, age, Encode(m.data));
    JoinSplits(id, age);
    SplitOne(age, ' ');
    DecodeEncode(m.data);
  }

  lemma IdsBack(a: char, m: Num, b: char, n: Num)
    requires a != ' ' && a != ':' && b != ' ' && b != ':'
    ensures var parts := Split(Join([a] + Show(m), [b] + Show(n)), ' ');
            |parts| == 2 && ParseId(parts[0]) == m && ParseId(parts[1]) == n
  {
    hide Show, Split, Join, ParseId;
    IdBack(a, m);
    IdBack(b, n);
    JoinSplits([a] + Show(m), [b] + Show(n));
    SplitOne([b] + Show(n), ' ');
  }

  lemma IdBackAlone(a: char, m: Num)
    requires a != ' ' && a != ':'
    ensures var raw := Split([a] + Show(m), ' ')[0]; raw != "" && ParseId(raw) == m
  {
    hide Show, ParseId;
    IdBack(a, m);
    SplitOne([a] + Show(m), ' ');
  }

  lemma LayoutBack(m: Message)
    requires m.LayoutChange? && Shaped(m)
    ensures ParseLayoutChange(Args(m)) == Some(m)
  {
    hide Show, Split, Join, ParseId, ParseWindowLayout;
    IdBack('@', m.windowId);
    JoinSplits(['@'] + Show(m.windowId), Join(m.windowLayout, Join(m.windowVisibleLayout, m.windowFlags)));
    JoinSplits(m.windowLayout, Join(m.windowVisibleLayout, m.windowFlags));
    JoinSplits(m.windowVisibleLayout, m.windowFlags);
    SplitOne(m.windowFlags, ' ');
  }

  lemma ClientSessionBack(m: Message)
    requires m.ClientSessionChanged? && Shaped(m)
    ensures ParseClientSessionChanged(Args(m)) == Some(m)
  {
    hide Show, IndexOf, Join, ParseId;
    IdBack('$', m.sessionId);
    JoinSplits(m.clientName, Join(['$'] + Show(m.sessionId), m.name));
    JoinSplits(['$'] + Show(m.sessionId), m.name);
  }

  lemma ScopeBack(m: Message)
    requires m.SubscriptionChanged?
    ensures var parts := Split(Scope(m), ' ');
            && |parts| == 4 && ParseOptionalId(parts[0]) == m.sessionId && ParseOptionalId(parts[1]) == m.windowId
            && ParseOptionalInt(parts[2]) == m.windowIndex && ParseOptionalId(parts[3]) == m.paneId
    ensures var r := Scope(m); ':' !in r && r != "" && r[|r| - 1] != ' '
  {
    hide OptionalId, OptionalInt, ParseOptionalId, ParseOptionalInt, Split, Join;
    var a, b, c, d := OptionalId(m.sessionId, '$'), OptionalId(m.windowId, '@'), OptionalInt(m.windowIndex), OptionalId(m.paneId, '%');
    OptionalIdBack('$', m.sessionId);
    OptionalIdBack('@', m.windowId);
    OptionalIntBack(m.windowIndex);
    OptionalIdBack('%', m.paneId);
    JoinSplits(a, Join(b, Join(c, d)));
    JoinSplits(b, Join(c, d));
    JoinSplits(c, d);
    SplitOne(d, ' ');
    NoColon(a, Join(b, Join(c, d)));
    NoColon(b, Join(c, d));
    NoColon(c, d);
    assert d[|d| - 1] in d;
  }

  lemma NoColon(a: string, b: string)
    requires b != ""
    ensures ':' !in a && ':' !in b ==> ':' !in Join(a, b)
    ensures Join(a, b) != "" && Join(a, b)[|Join(a, b)| - 1] == b[|b| - 1]
  {
  }

  lemma SubscriptionBack(m: Message)
    requires m.SubscriptionChanged? && Shaped(m)
    ensures ParseSubscriptionChanged(Args(m)) == Some(m)
  {
    hide Scope, Split, Join, IndexOfColon, ParseOptionalId, ParseOptionalInt;
    ScopeBack(m);
    ColonSplits(m.name, Scope(m), m.value);
    JoinSplits(m.name, Scope(m));
  }

  lemma IdArgsBack(m: Message)
    requires Shaped(m) && HasArgs(m)
    requires m.PaneEvent? || m.WindowEvent? || m.WindowRenamed? || m.SessionNamed?
    ensures ParseArgs(KindOf(m), Args(m)) == Some(m)
  {
    hide Show, Split, Join, ParseId;
    match m
    case PaneEvent(_, p) => IdBackAlone('%', p);
    case WindowEvent(_, w) => IdBackAlone('@', w);
    case WindowRenamed(_, w, name) =>
      IdBack('@', w);
      JoinSplits(['@'] + Show(w), name);
    case SessionNamed(_, s, name) =>
      IdBack('$', s);
      JoinSplits(['$'] + Show(s), name);
  }

  lemma IdPairArgsBack(m: Message)
    requires Shaped(m) && (m.WindowPaneChanged? || m.SessionWindowChanged?)
    ensures ParseArgs(KindOf(m), Args(m)) == Some(m)
  {
    hide Show, Split, Join, ParseId;
    match m
    case WindowPaneChanged(w, p) => IdsBack('@', w, '%', p);
    case SessionWindowChanged(s, w) => IdsBack('$', s, '@', w);
  }

  lemma TextArgsBack(m: Message)
    requires Shaped(m) && HasArgs(m)
    requires m.ClientDetached? || m.PasteBuffer? || m.MessageText? || m.ConfigError? || m.Exit?
    ensures ParseArgs(KindOf(m), Args(m)) == Some(m)
  {
    hide Split;
    match m
    case ClientDetached(client) => SplitOne(client, ' ');
    case PasteBuffer(_, name) => SplitOne(name, ' ');
    case MessageText(_) =>
    case ConfigError(_) =>
    case Exit(reason) =>
      assert reason != Some("");
      assert reason == Some(reason.value) && |reason.value| > 0;
  }

  lemma ListArgsBack(m: Message)
    requires Shaped(m)
    requires m.Guard? || m.Output? || m.ExtendedOutput? || m.LayoutChange? || m.ClientSessionChanged? || m.SubscriptionChanged?
    ensures ParseArgs(KindOf(m), Args(m)) == Some(m)
  {
    hide Show, Split, Join, ParseId, IndexOf, ParseWindowLayout, Scope, Encode, Decode, IndexOfColon, Args,
         ParseGuard, ParseOutput, ParseExtendedOutput, ParseLayoutChange, ParseClientSessionChanged, ParseSubscriptionChanged,
         ParsePaneEvent, ParseWindowEvent, ParseWindowRenamed, ParseWindowPaneChanged, ParseSessionNamed, ParseSessionWindowChanged,
         ParseClientDetached, ParsePasteBuffer, ParseExit;
    match m
    case Guard(_, _, _, _) => GuardBack(m);
    case Output(_, _) => OutputBack(m);
    case ExtendedOutput(_, _, _) => ExtendedOutputBack(m);
    case LayoutChange(_, _, _, _, _, _) => LayoutBack(m);
    case ClientSessionChanged(_, _, _) => ClientSessionBack(m);
    case SubscriptionChanged(_, _, _, _, _, _) => SubscriptionBack(m);
  }

  /** Each kind's parser undoes what the serializer wrote after the type. */
  lemma ArgsBack(m: Message)
    requires Shaped(m) && HasArgs(m)
    ensures ParseArgs(KindOf(m), Args(m)) == Some(m)
  {
    hide Args, ParseArgs, Shaped, KindOf;
    if m.PaneEvent? || m.WindowEvent? || m.WindowRenamed? || m.SessionNamed? {
      IdArgsBack(m);
    } else if m.WindowPaneChanged? || m.SessionWindowChanged? {
      IdPairArgsBack(m);
    } else if m.ClientDetached? || m.PasteBuffer? || m.MessageText? || m.ConfigError? || m.Exit? {
      TextArgsBack(m);
    } else {
      ListArgsBack(m);
    }
  }

  // ---------------------------------------------------------------------------------------
  // There and back, whole lines
  // ---------------------------------------------------------------------------------------

  predicate Token(s: string) {
    s != "" && forall i | 0 <= i < |s| :: s[i] == '-' || 'a' <= s[i] <= 'z'
  }

  lemma ShortNames()
    ensures Token("begin") && Token("end") && Token("error") && Token("output") && Token("pause") && Token("continue") && Token("message") && Token("exit")
  {
  }

  lemma PaneNames()
    ensures Token("extended-output") && Token("pane-mode-changed") && Token("window-pane-changed")
  {
  }

  lemma WindowNames()
    ensures Token("window-add") && Token("window-close") && Token("window-renamed") && Token("layout-change")
  {
  }

  lemma UnlinkedNames()
    ensures Token("unlinked-window-add") && Token("unlinked-window-close") && Token("unlinked-window-renamed")
  {
  }

  lemma SessionNames()
    ensures Token("session-changed") && Token("session-renamed") && Token("sessions-changed")
  {
  }

  lemma ClientNames()
    ensures Token("session-window-changed") && Token("client-session-changed") && Token("client-detached")
  {
  }

  lemma BufferNames()
    ensures Token("paste-buffer-changed") && Token("paste-buffer-deleted")
  {
  }

  lemma OtherNames()
    ensures Token("subscription-changed") && Token("config-error")
  {
  }

  lemma NameIsToken(k: Kind)
    ensures Token(Name(k))
  {
    hide Token;
    ShortNames();
    PaneNames();
    WindowNames();
    UnlinkedNames();
    SessionNames();
    ClientNames();
    BufferNames();
    OtherNames();
  }

  lemma NameIsWord(k: Kind)
    ensures Word(Name(k)) && Name(k) != "" && !EndsInCr(Name(k)) && '\n' !in Name(k)
  {
    hide Name;
    NameIsToken(k);
  }

  /** A line without trailing carriage returns is read as it stands. */
  lemma PlainLine(s: string)
    requires !EndsInCr(['%'] + s)
    ensures IsNotification(['%'] + s)
    ensures TypeToken(['%'] + s) == FirstToken(s) && Arguments(['%'] + s) == AfterFirst(s)
  {
    hide FirstToken, AfterFirst;
    PlainStrip(['%'] + s);
    assert (['%'] + s)[1..] == s;
  }

  lemma TokensOf(name: string, args: string)
    requires Word(name)
    ensures FirstToken(Join(name, args)) == name && AfterFirst(Join(name, args)) == args
    ensures FirstToken(name) == name && AfterFirst(name) == ""
  {
    hide Join;
    JoinSplits(name, args);
  }

  lemma PlainStrip(s: string)
    requires !EndsInCr(s)
    ensures StripCr(s) == s
  {
  }

  lemma PercentEnd(s: string)
    ensures EndsInCr(['%'] + s) == EndsInCr(s) && StripCr(['%'] + s) == ['%'] + StripCr(s)
  {
    StripTail(['%'], s);
    if s != "" {
      assert (['%'] + s)[|s|] == s[|s| - 1];
    }
  }

  /** Reading a line whose type and arguments are as written, once the line carries no trailing CR. */
  lemma LineOf(k: Kind, args: string)
    requires !EndsInCr(args)
    ensures ParseLine(['%'] + Join(Name(k), args)) == ParseArgs(k, args)
  {
    hide *;
    NameIsWord(k);
    JoinEnd(Name(k), args);
    PercentEnd(Join(Name(k), args));
    PlainLine(Join(Name(k), args));
    TokensOf(Name(k), args);
    LookupName(k);
    ParseLineIs(['%'] + Join(Name(k), args), k);
  }

  lemma ParseLineIs(line: string, k: Kind)
    requires IsNotification(line) && Lookup(TypeToken(line)) == Some(k)
    ensures ParseLine(line) == ParseArgs(k, Arguments(line))
  {
    hide Lookup, ParseArgs, TypeToken, Arguments;
  }

  /** Trailing carriage returns of a line never matter. */
  lemma StripTwice(line: string)
    ensures StripCr(StripCr(line)) == StripCr(line)
    ensures ParseLine(StripCr(line)) == ParseLine(line)
  {
    hide Lookup, ParseArgs, FirstToken, AfterFirst;
  }

  /** The free-text field a message of this kind ends with on the wire. */
  function Tail(m: Message): string {
    match m
    case WindowRenamed(_, _, name) => name
    case SessionNamed(_, _, name) => name
    case ClientSessionChanged(_, _, name) => name
    case LayoutChange(_, _, _, flags, _, _) => flags
    case ClientDetached(client) => client
    case PasteBuffer(_, name) => name
    case SubscriptionChanged(_, _, _, _, _, value) => value
    case MessageText(text) => text
    case ConfigError(text) => text
    case Exit(Some(reason)) => reason
    case _ => ""
  }

  /** `m` with its last text field replaced. */
  function WithTail(m: Message, t: string): Message {
    match m
    case WindowRenamed(u, w, _) => WindowRenamed(u, w, t)
    case SessionNamed(k, s, _) => SessionNamed(k, s, t)
    case ClientSessionChanged(client, s, _) => ClientSessionChanged(client, s, t)
    case LayoutChange(w, layout, visible, _, parsed, parsedVisible) => LayoutChange(w, layout, visible, t, parsed, parsedVisible)
    case ClientDetached(_) => ClientDetached(t)
    case PasteBuffer(b, _) => PasteBuffer(b, t)
    case SubscriptionChanged(name, s, w, i, p, _) => SubscriptionChanged(name, s, w, i, p, t)
    case MessageText(_) => MessageText(t)
    case ConfigError(_) => ConfigError(t)
    case Exit(Some(_)) => Exit(Some(t))
    case _ => m
  }

  lemma JoinEnd(a: string, b: string)
    ensures EndsInCr(Join(a, b)) == EndsInCr(b)
    ensures StripCr(Join(a, b)) == Join(a, StripCr(b))
  {
    assert Join(a, b) == (a + [' ']) + b;
    assert Join(a, StripCr(b)) == (a + [' ']) + StripCr(b);
    StripTail(a + [' '], b);
    if b == "" {
      assert Join(a, b)[|a|] == ' ';
    } else {
      assert Join(a, b)[|a| + |b|] == b[|b| - 1];
    }
  }

  lemma ShowEnd(prefix: string, n: Num)
    ensures !EndsInCr(prefix + Show(n))
  {
    ShowIsPlain(n);
    assert (prefix + Show(n))[|prefix| + |Show(n)| - 1] == Show(n)[|Show(n)| - 1];
  }

  lemma ColonEnd(a: string, b: string)
    ensures EndsInCr(a + (" : " + b)) == EndsInCr(b)
    ensures StripCr(a + (" : " + b)) == a + (" : " + StripCr(b))
  {
    assert a + (" : " + b) == (a + " : ") + b;
    assert a + (" : " + StripCr(b)) == (a + " : ") + StripCr(b);
    assert (a + " : ")[|a| + 2] == ' ';
    StripTail(a + " : ", b);
    if b == "" {
      assert (a + (" : " + b))[|a| + 2] == ' ';
    } else {
      assert (a + (" : " + b))[|a| + 2 + |b|] == b[|b| - 1];
    }
  }

  lemma EncodedEnd(data: seq<Byte>)
    ensures !EndsInCr(Encode(data))
  {
    hide Encode;
    EncodeHasNoControls(data);
    if Encode(data) != "" {
      assert Encode(data)[|Encode(data)| - 1] in Encode(data);
    }
  }

  /** Stripping the arguments strips the last text field, and nothing else. */
  predicate Stripped(m: Message) {
    var n := WithTail(m, StripCr(Tail(m)));
    HasArgs(n) && KindOf(n) == KindOf(m) && StripCr(Args(m)) == Args(n) && EndsInCr(Args(m)) == EndsInCr(Tail(m))
  }

  /** Messages whose last token the serializer itself writes: it ends in no carriage return. */
  lemma PlainStripped(m: Message)
    requires m.Guard? || m.Output? || m.ExtendedOutput? || m.PaneEvent? || m.WindowEvent? || m.WindowPaneChanged? || m.SessionWindowChanged?
    ensures Stripped(m)
  {
    hide Show, Join, StripCr, EndsInCr, Encode;
    match m
    case Guard(_, ts, cn, flags) =>
      JoinEnd(Show(ts), Join(Show(cn), Show(flags)));
      JoinEnd(Show(cn), Show(flags));
      ShowEnd("", flags);
      assert "" + Show(flags) == Show(flags);
      EmptyEnd();
      PlainStrip(Args(m));
    case Output(p, data) =>
      JoinEnd(['%'] + Show(p), Encode(data));
      EncodedEnd(data);
      EmptyEnd();
      PlainStrip(Args(m));
    case ExtendedOutput(p, age, data) =>
      ColonEnd(Join(['%'] + Show(p), Show(age)), Encode(data));
      EncodedEnd(data);
      EmptyEnd();
      PlainStrip(Args(m));
    case PaneEvent(_, p) => IdEnd(['%'], p);
    case WindowEvent(_, w) => IdEnd(['@'], w);
    case WindowPaneChanged(w, p) =>
      JoinEnd(['@'] + Show(w), ['%'] + Show(p));
      IdEnd(['%'], p);
    case SessionWindowChanged(s, w) =>
      JoinEnd(['$'] + Show(s), ['@'] + Show(w));
      IdEnd(['@'], w);
  }

  /** Messages whose last token follows others. */
  lemma LastStripped(m: Message)
    requires m.WindowRenamed? || m.LayoutChange? || m.SessionNamed? || m.ClientSessionChanged? || m.SubscriptionChanged?
    ensures Stripped(m)
  {
    hide Show, Join, StripCr, EndsInCr, Scope, ParseWindowLayout;
    match m
    case WindowRenamed(_, w, name) => JoinEnd(['@'] + Show(w), name);
    case LayoutChange(w, layout, visible, flags, _, _) =>
      JoinEnd(['@'] + Show(w), Join(layout, Join(visible, flags)));
      JoinEnd(layout, Join(visible, flags));
      JoinEnd(visible, flags);
    case SessionNamed(_, s, name) => JoinEnd(['$'] + Show(s), name);
    case ClientSessionChanged(client, s, name) =>
      JoinEnd(client, Join(['$'] + Show(s), name));
      JoinEnd(['$'] + Show(s), name);
    case SubscriptionChanged(name, _, _, _, _, value) =>
      ColonEnd(Join(name, Scope(m)), value);
      ScopeKept(m, StripCr(value));
  }

  /** Messages that are one text. */
  lemma TextStripped(m: Message)
    requires HasArgs(m) && (m.ClientDetached? || m.PasteBuffer? || m.MessageText? || m.ConfigError? || m.Exit?)
    ensures Stripped(m)
  {
    hide StripCr, EndsInCr;
  }

  lemma ScopeKept(m: Message, t: string)
    requires m.SubscriptionChanged?
    ensures Scope(WithTail(m, t)) == Scope(m)
  {
  }

  lemma ArgsStrip(m: Message)
    requires HasArgs(m)
    ensures HasArgs(WithTail(m, StripCr(Tail(m)))) && KindOf(WithTail(m, StripCr(Tail(m)))) == KindOf(m)
    ensures StripCr(Args(m)) == Args(WithTail(m, StripCr(Tail(m))))
    ensures EndsInCr(Args(m)) == EndsInCr(Tail(m))
  {
    hide Args, Tail, WithTail, KindOf, StripCr, EndsInCr;
    assert Stripped(m) by {
      hide Stripped;
      if m.Guard? || m.Output? || m.ExtendedOutput? || m.PaneEvent? || m.WindowEvent? || m.WindowPaneChanged? || m.SessionWindowChanged? {
        PlainStripped(m);
      } else if m.ClientDetached? || m.PasteBuffer? || m.MessageText? || m.ConfigError? || m.Exit? {
        TextStripped(m);
      } else {
        LastStripped(m);
      }
    }
  }

  lemma EmptyEnd()
    ensures !EndsInCr("") && StripCr("") == ""
  {
  }

  lemma IdEnd(prefix: string, n: Num)
    ensures !EndsInCr(prefix + Show(n)) && StripCr(prefix + Show(n)) == prefix + Show(n)
    ensures !EndsInCr("") && StripCr("") == ""
  {
    ShowEnd(prefix, n);
  }

  /** What a serialized message parses to: its arguments without their trailing carriage returns. */
  lemma SerializedParse(m: Message)
    requires HasArgs(m)
    ensures ParseLine(Serialize(m)) == ParseArgs(KindOf(m), StripCr(Args(m)))
    ensures EndsInCr(Serialize(m)) == EndsInCr(Tail(m))
  {
    hide Args, Name, ParseArgs, Lookup, StripCr, EndsInCr, Join, ParseLine;
    var line, args := Serialize(m), Args(m);
    JoinEnd(Name(KindOf(m)), args);
    PercentEnd(Join(Name(KindOf(m)), args));
    ArgsStrip(m);
    StripTwice(line);
    StripEnd(args);
    LineOf(KindOf(m), StripCr(args));
  }

  lemma StripEnd(s: string)
    ensures !EndsInCr(StripCr(s))
    ensures StripCr(s) == s <==> !EndsInCr(s)
  {
  }

  /** The serializer is undone by the parser exactly on the shaped messages whose line does not end in a carriage return. */
  lemma RoundTripIff(m: Message)
    ensures ParseLine(Serialize(m)) == Some(m) <==> Shaped(m) && !EndsInCr(Serialize(m))
  {
    hide Args, Name, ParseArgs, Lookup, StripCr, EndsInCr, ParseLine, Shaped;
    if HasArgs(m) {
      SerializedParse(m);
      ArgsStrip(m);
      var n := WithTail(m, StripCr(Tail(m)));
      StripEnd(Tail(m));
      ParsedIsShaped(KindOf(m), Args(n));
      TailOf(m);
      if Shaped(n) {
        ArgsBack(n);
        ShapedTail(m);
      } else {
        StripIsPrefix(Tail(m));
        if Shaped(m) {
          OnlyEmptyUnshapes(m, StripCr(Tail(m)));
          EmptyParses(m);
        }
      }
    } else {
      BareBack(m);
    }
  }

  lemma TailOf(m: Message)
    ensures WithTail(m, Tail(m)) == m
    ensures forall t :: WithTail(m, t) == m ==> t == Tail(m) || Tail(m) == ""
  {
  }

  /** Stripping keeps a shaped message shaped, unless it leaves a required field empty. */
  lemma ShapedTail(m: Message)
    requires Shaped(WithTail(m, StripCr(Tail(m))))
    ensures !EndsInCr(Tail(m)) ==> Shaped(m)
    ensures EndsInCr(Tail(m)) ==> WithTail(m, StripCr(Tail(m))) != m
  {
    TailOf(m);
    StripEnd(Tail(m));
  }

  /** The only way to unshape a shaped message through its last field is to empty a required one. */
  lemma OnlyEmptyUnshapes(m: Message, t: string)
    requires Shaped(m) && !Shaped(WithTail(m, t)) && (Word(Tail(m)) ==> Word(t))
    ensures t == "" && (m.ClientDetached? || m.PasteBuffer? || (m.Exit? && m.reason.Some?))
  {
  }

  lemma EmptyParses(m: Message)
    requires Shaped(m) && (m.ClientDetached? || m.PasteBuffer? || (m.Exit? && m.reason.Some?))
    ensures ParseArgs(KindOf(m), Args(WithTail(m, ""))) != Some(m)
  {
    hide Split;
    NothingParses();
  }

  lemma StripIsPrefix(s: string)
    ensures Word(s) ==> Word(StripCr(s))
    ensures StripCr(s) == s <==> !EndsInCr(s)
  {
    assert forall c <- StripCr(s) :: c in s;
  }

  lemma NothingParses()
    ensures Split("", ' ')[0] == "" && StripCr("") == ""
  {
  }

  lemma BareBack(m: Message)
    requires !HasArgs(m)
    ensures Shaped(m) && !EndsInCr(Serialize(m)) && ParseLine(Serialize(m)) == Some(m)
  {
    hide Name, ParseLine, Lookup, TypeToken, Arguments, FirstToken, AfterFirst, IsNotification;
    var k := KindOf(m);
    NameIsWord(k);
    PercentEnd(Name(k));
    PlainLine(Name(k));
    TokensOf(Name(k), "");
    LookupName(k);
    ParseLineIs(['%'] + Name(k), k);
  }

  // ---------------------------------------------------------------------------------------
  // Replaying what was parsed
  // ---------------------------------------------------------------------------------------

  lemma ArgumentsOf(line: string)
    ensures !EndsInCr(Arguments(line))
    ensures '\n' !in line ==> '\n' !in Arguments(line)
  {
    hide AfterFirst, StripCr, EndsInCr;
    var s := StripCr(line);
    StripEnd(line);
    EmptyEnd();
    if IsNotification(line) {
      AfterFirstEnd(s[1..]);
      DropFirstEnd(s);
      assert forall c <- s :: c in line;
      assert forall c <- s[1..] :: c in s;
    }
  }

  lemma AfterFirstEnd(s: string)
    ensures !EndsInCr(s) ==> !EndsInCr(AfterFirst(s))
    ensures '\n' !in s ==> '\n' !in AfterFirst(s)
  {
    hide IndexOf;
    assert forall c <- AfterFirst(s) :: c in s;
  }

  lemma DropFirstEnd(s: string)
    requires s != ""
    ensures !EndsInCr(s) ==> !EndsInCr(s[1..])
  {
  }

  lemma SuffixEnd(s: string, n: nat)
    requires !EndsInCr(s) && n <= |s|
    ensures !EndsInCr(s[n..])
  {
  }

  lemma TailOfClientSession(args: string)
    requires !EndsInCr(args)
    ensures var m := ParseClientSessionChanged(args); m.Some? ==> m.value.ClientSessionChanged? && !EndsInCr(m.value.name)
  {
    hide ParseId;
  }

  lemma TailOfSubscription(args: string)
    requires !EndsInCr(args)
    ensures var m := ParseSubscriptionChanged(args); m.Some? ==> m.value.SubscriptionChanged? && !EndsInCr(m.value.value)
  {
    hide ParseOptionalId, ParseOptionalInt, Split;
  }

  /** A parsed message parses again from its own line, unless one of those tokens kept a carriage return. */
  lemma ReparseIff(line: string)
    requires ParseLine(line).Some?
    ensures var m := ParseLine(line).value;
            && (ParseLine(Serialize(m)) == Some(m) <==> !EndsInCr(Tail(m)))
            && (EndsInCr(Tail(m)) ==> m.ClientDetached? || m.PasteBuffer? || m.LayoutChange?)
  {
    hide Args, Lookup, StripCr, EndsInCr, Shaped, Serialize, TypeToken, Arguments, Name, Show, Join;
    hide ParseLayoutChange, ParsePasteBuffer, ParseClientDetached, ParseSubscriptionChanged, ParseClientSessionChanged;
    hide ParseInt, Split, IndexOf, IndexOfColon, Decode, ParseId;
    var m := ParseLine(line).value;
    var k, args := Lookup(TypeToken(line)).value, Arguments(line);
    ArgumentsOf(line);
    ParsedIsShaped(k, args);
    EmptyEnd();
    match k {
      case OfClientSession => TailOfClientSession(args);
      case OfSubscription => TailOfSubscription(args);
      case OfRenamed(_) => SuffixEnd(args, IndexOf(args, ' ') + 1);
      case OfSession(_) => SuffixEnd(args, IndexOf(args, ' ') + 1);
      case _ =>
    }
    RoundTripIff(m);
    SerializedEnd(m);
  }

  lemma SerializedEnd(m: Message)
    ensures EndsInCr(Serialize(m)) == EndsInCr(Tail(m))
  {
    hide ParseLine, ParseArgs, Serialize;
    if HasArgs(m) {
      SerializedParse(m);
    } else {
      BareBack(m);
    }
  }

  /** A client name that kept its carriage return because more tokens followed it. */
  lemma DetachedTokenKeepsCr(client: string, more: string)
    requires Word(client) && EndsInCr(client) && more != "" && !EndsInCr(more)
    ensures var m := ParseLine(['%'] + Join("client-detached", Join(client, more)));
            m == Some(ClientDetached(client)) && ParseLine(Serialize(m.value)) != m
  {
    hide *;
    var m := ClientDetached(client);
    assert Name(OfDetached) == "client-detached" by { NameOfDetached(); }
    JoinEnd(client, more);
    LineOf(OfDetached, Join(client, more));
    JoinSplits(client, more);
    ParseDetachedIs(Join(client, more));
    TailOfDetached(client);
    ReparseIff(['%'] + Join("client-detached", Join(client, more)));
  }

  lemma NameOfDetached()
    ensures Name(OfDetached) == "client-detached"
  {
  }

  lemma TailOfDetached(client: string)
    ensures Tail(ClientDetached(client)) == client
    ensures EndsInCr(client) ==> client != ""
  {
  }

  lemma ParseDetachedIs(args: string)
    ensures ParseArgs(OfDetached, args) ==
            if Split(args, ' ')[0] == "" then None else Some(ClientDetached(Split(args, ' ')[0]))
  {
    hide Split;
  }

  /** The documented domain, "every value the parser can produce", is too wide: this one does not come back. */
  lemma DetachedNameLosesItsCr()
    ensures var m := ParseLine(['%'] + Join("client-detached", Join("foo\r", "bar")));
            m == Some(ClientDetached("foo\r")) && ParseLine(Serialize(m.value)) != m
  {
    hide ParseLine, Join, Serialize;
    DetachedTokenKeepsCr("foo\r", "bar");
  }

  // ---------------------------------------------------------------------------------------
  // Lines stay lines
  // ---------------------------------------------------------------------------------------

  predicate OneLine(s: string) {
    '\n' !in s
  }

  /** No text field of the message holds a newline. */
  predicate NewlineFree(m: Message) {
    match m
    case LayoutChange(_, layout, visible, flags, _, _) => OneLine(layout) && OneLine(visible) && OneLine(flags)
    case ClientSessionChanged(client, _, name) => OneLine(client) && OneLine(name)
    case SubscriptionChanged(name, _, _, _, _, value) => OneLine(name) && OneLine(value)
    case _ => OneLine(Tail(m))
  }

  lemma JoinOneLine(a: string, b: string)
    ensures OneLine(Join(a, b)) <==> OneLine(a) && OneLine(b)
    ensures OneLine(a + (" : " + b)) <==> OneLine(a) && OneLine(b)
  {
    var t := a + (" : " + b);
    assert forall c <- a :: c in Join(a, b) && c in t;
    assert forall c <- b :: c in Join(a, b) && c in " : " + b;
    assert forall c <- " : " + b :: c in t;
    if OneLine(a) && OneLine(b) {
      assert forall i | 0 <= i < |t| :: t[i] == (if i < |a| then a[i] else (" : " + b)[i - |a|]);
      assert OneLine(" : " + b);
    }
  }

  lemma IdOneLine(prefix: char, n: Num)
    requires prefix != '\n'
    ensures OneLine([prefix] + Show(n)) && OneLine(Show(n))
  {
    ShowIsPlain(n);
  }

  lemma EncodedOneLine(data: seq<Byte>)
    ensures OneLine(Encode(data))
  {
    EncodeHasNoControls(data);
  }

  lemma ScopeOneLine(m: Message)
    requires m.SubscriptionChanged?
    ensures OneLine(Scope(m))
  {
    hide Join, Show, OneLine;
    assert OneLine("-") by { assert '\n' !in "-"; HyphenOneLine(); }
    IdOneLine('$', m.sessionId);
    IdOneLine('@', m.windowId);
    IdOneLine('%', m.windowIndex);
    IdOneLine('%', m.paneId);
    JoinOneLine(OptionalInt(m.windowIndex), OptionalId(m.paneId, '%'));
    JoinOneLine(OptionalId(m.windowId, '@'), Join(OptionalInt(m.windowIndex), OptionalId(m.paneId, '%')));
    JoinOneLine(OptionalId(m.sessionId, '$'),
                Join(OptionalId(m.windowId, '@'), Join(OptionalInt(m.windowIndex), OptionalId(m.paneId, '%'))));
  }

  lemma HyphenOneLine()
    ensures OneLine("-")
  {
  }

  lemma ArgsOneLine(m: Message)
    requires NewlineFree(m) && HasArgs(m)
    ensures OneLine(Args(m))
  {
    hide Join, Show, OneLine, Encode, Scope;
    match m
    case Guard(_, ts, cn, flags) =>
      IdOneLine('%', ts);
      IdOneLine('%', cn);
      IdOneLine('%', flags);
      JoinOneLine(Show(cn), Show(flags));
      JoinOneLine(Show(ts), Join(Show(cn), Show(flags)));
    case Output(p, data) =>
      IdOneLine('%', p);
      EncodedOneLine(data);
      JoinOneLine(['%'] + Show(p), Encode(data));
    case ExtendedOutput(p, age, data) =>
      IdOneLine('%', p);
      IdOneLine('%', age);
      EncodedOneLine(data);
      JoinOneLine(['%'] + Show(p), Show(age));
      JoinOneLine(Join(['%'] + Show(p), Show(age)), Encode(data));
    case PaneEvent(_, p) => IdOneLine('%', p);
    case WindowEvent(_, w) => IdOneLine('@', w);
    case WindowRenamed(_, w, name) =>
      IdOneLine('@', w);
      JoinOneLine(['@'] + Show(w), name);
    case WindowPaneChanged(w, p) =>
      IdOneLine('@', w);
      IdOneLine('%', p);
      JoinOneLine(['@'] + Show(w), ['%'] + Show(p));
    case LayoutChange(w, layout, visible, flags, _, _) =>
      IdOneLine('@', w);
      JoinOneLine(visible, flags);
      JoinOneLine(layout, Join(visible, flags));
      JoinOneLine(['@'] + Show(w), Join(layout, Join(visible, flags)));
    case SessionNamed(_, s, name) =>
      IdOneLine('$', s);
      JoinOneLine(['$'] + Show(s), name);
    case SessionWindowChanged(s, w) =>
      IdOneLine('$', s);
      IdOneLine('@', w);
      JoinOneLine(['$'] + Show(s), ['@'] + Show(w));
    case ClientSessionChanged(client, s, name) =>
      IdOneLine('$', s);
      JoinOneLine(['$'] + Show(s), name);
      JoinOneLine(client, Join(['$'] + Show(s), name));
    case SubscriptionChanged(name, _, _, _, _, value) =>
      ScopeOneLine(m);
      JoinOneLine(name, Scope(m));
      JoinOneLine(Join(name, Scope(m)), value);
    case _ =>
  }

  /** A message whose text fields hold no newline is written as one line. */
  lemma SerializedIsOneLine(m: Message)
    requires NewlineFree(m)
    ensures OneLine(Serialize(m))
  {
    hide Join, Args, Name, NewlineFree;
    NameIsWord(KindOf(m));
    if HasArgs(m) {
      ArgsOneLine(m);
      JoinOneLine(Name(KindOf(m)), Args(m));
    }
  }
}

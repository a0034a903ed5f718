/**
  The wire line of every message, written out. The serializer prints exactly these lines, and the parser reads
  them back: each type's own word, and its fields in the protocol's order.
 */
module MessageLines {
  import opened Options
  import opened JsStrings
  import opened OctalCodec
  import opened Messages

  /** The word that starts the line, after its percent sign. */
  function Word(m: Message): string {
    match m
    case Guard(Begin, _, _, _) => "begin"
    case Guard(End, _, _, _) => "end"
    case Guard(Error, _, _, _) => "error"
    case Output(_, _) => "output"
    case ExtendedOutput(_, _, _) => "extended-output"
    case PaneEvent(Pause, _) => "pause"
    case PaneEvent(Continue, _) => "continue"
    case PaneEvent(PaneModeChanged, _) => "pane-mode-changed"
    case WindowEvent(WindowAdd, _) => "window-add"
    case WindowEvent(WindowClose, _) => "window-close"
    case WindowEvent(UnlinkedWindowAdd, _) => "unlinked-window-add"
    case WindowEvent(UnlinkedWindowClose, _) => "unlinked-window-close"
    case WindowRenamed(unlinked, _, _) => if unlinked then "unlinked-window-renamed" else "window-renamed"
    case WindowPaneChanged(_, _) => "window-pane-changed"
    case LayoutChange(_, _, _, _, _, _) => "layout-change"
    case SessionNamed(SessionChanged, _, _) => "session-changed"
    case SessionNamed(SessionRenamed, _, _) => "session-renamed"
    case SessionsChanged => "sessions-changed"
    case SessionWindowChanged(_, _) => "session-window-changed"
    case ClientSessionChanged(_, _, _) => "client-session-changed"
    case ClientDetached(_) => "client-detached"
    case PasteBuffer(PasteBufferChanged, _) => "paste-buffer-changed"
    case PasteBuffer(PasteBufferDeleted, _) => "paste-buffer-deleted"
    case SubscriptionChanged(_, _, _, _, _, _) => "subscription-changed"
    case MessageText(_) => "message"
    case ConfigError(_) => "config-error"
    case Exit(_) => "exit"
  }

  function Id(prefix: string, n: Num): string { prefix + Show(n) }

  /** A scope field of a subscription: a dash when it does not apply. */
  function Scoped(prefix: string, n: Num): string {
    if n == Int(-1) then "-" else Id(prefix, n)
  }

  /** The fields in their order on the line, the last one being free text where there is any. */
  function Fields(m: Message): seq<string> {
    match m
    case Guard(_, timestamp, number, flags) => [Show(timestamp), Show(number), Show(flags)]
    case Output(pane, data) => [Id("%", pane), Encode(data)]
    case ExtendedOutput(pane, age, data) => [Id("%", pane), Show(age), ":", Encode(data)]
    case PaneEvent(_, pane) => [Id("%", pane)]
    case WindowEvent(_, window) => [Id("@", window)]
    case WindowRenamed(_, window, name) => [Id("@", window), name]
    case WindowPaneChanged(window, pane) => [Id("@", window), Id("%", pane)]
    case LayoutChange(window, layout, visible, flags, _, _) => [Id("@", window), layout, visible, flags]
    case SessionNamed(_, session, name) => [Id("$", session), name]
    case SessionsChanged => []
    case SessionWindowChanged(session, window) => [Id("$", session), Id("@", window)]
    case ClientSessionChanged(client, session, name) => [client, Id("$", session), name]
    case ClientDetached(client) => [client]
    case PasteBuffer(_, name) => [name]
    case SubscriptionChanged(name, session, window, index, pane, value) =>
      [name, Scoped("$", session), Scoped("@", window), Scoped("", index), Scoped("%", pane), ":", value]
    case MessageText(text) => [text]
    case ConfigError(text) => [text]
    case Exit(reason) => if reason.Some? then [reason.value] else []
  }

  /** Each field after a space. */
  function Spaced(fields: seq<string>): string {
    if fields == [] then "" else " " + fields[0] + Spaced(fields[1..])
  }

  function Line(m: Message): string {
    "%" + Word(m) + Spaced(Fields(m))
  }

  // ---------------------------------------------------------------------------------------
  // The serializer prints it
  // ---------------------------------------------------------------------------------------

  /** Every type's word on the wire is its name. */
  lemma WordsAgree(m: Message)
    ensures Name(KindOf(m)) == Word(m)
  {
    hide Name, KindOf, Word;
    if m.Guard? || m.Output? || m.ExtendedOutput? || m.PaneEvent? {
      PaneWords(m);
    } else if m.WindowEvent? || m.WindowRenamed? || m.WindowPaneChanged? || m.LayoutChange? {
      WindowWords(m);
    } else {
      OtherWords(m);
    }
  }

  lemma PaneWords(m: Message)
    requires m.Guard? || m.Output? || m.ExtendedOutput? || m.PaneEvent?
    ensures Name(KindOf(m)) == Word(m)
  {
  }

  lemma WindowWords(m: Message)
    requires m.WindowEvent? || m.WindowRenamed? || m.WindowPaneChanged? || m.LayoutChange?
    ensures Name(KindOf(m)) == Word(m)
  {
  }

  lemma OtherWords(m: Message)
    requires !m.Guard? && !m.Output? && !m.ExtendedOutput? && !m.PaneEvent?
    requires !m.WindowEvent? && !m.WindowRenamed? && !m.WindowPaneChanged? && !m.LayoutChange?
    ensures Name(KindOf(m)) == Word(m)
  {
  }

  lemma OneField(a: string)
    ensures Spaced([a]) == " " + a
  {
    assert [a][1..] == [];
  }

  lemma MoreFields(a: string, rest: seq<string>)
    ensures Spaced([a] + rest) == " " + a + Spaced(rest)
  {
    assert ([a] + rest)[1..] == rest;
  }

  /** A field, and what follows it after a space. */
  lemma JoinedFields(a: string, b: string, rest: seq<string>)
    requires Spaced(rest) == " " + b
    ensures Spaced([a] + rest) == " " + Join(a, b)
  {
    MoreFields(a, rest);
  }

  lemma TwoFields(a: string, b: string)
    ensures Spaced([a, b]) == " " + Join(a, b)
  {
    OneField(b);
    JoinedFields(a, b, [b]);
    assert [a] + [b] == [a, b];
  }

  lemma ThreeFields(a: string, b: string, c: string)
    ensures Spaced([a, b, c]) == " " + Join(a, Join(b, c))
  {
    TwoFields(b, c);
    JoinedFields(a, Join(b, c), [b, c]);
    assert [a] + [b, c] == [a, b, c];
  }

  lemma FourFields(a: string, b: string, c: string, d: string)
    ensures Spaced([a, b, c, d]) == " " + Join(a, Join(b, Join(c, d)))
  {
    ThreeFields(b, c, d);
    JoinedFields(a, Join(b, Join(c, d)), [b, c, d]);
    assert [a] + [b, c, d] == [a, b, c, d];
  }

  /** A colon between spaces is a field of its own. */
  lemma ColonField(a: string, b: string)
    ensures Join(a, Join(":", b)) == a + (" : " + b)
  {
    assert Join(a, Join(":", b)) == a + ([' '] + (":" + ([' '] + b)));
    assert [' '] + (":" + ([' '] + b)) == " : " + b;
  }

  lemma LongerColon(a: string, b: string, c: string)
    ensures Join(a, b + c) == Join(a, b) + c
  {
  }

  lemma SubscriptionFields(m: Message)
    requires m.SubscriptionChanged?
    ensures " " + Args(m) == Spaced(Fields(m))
  {
    hide Join, Spaced, Show;
    var s, w, i, p := OptionalId(m.sessionId, '$'), OptionalId(m.windowId, '@'), OptionalInt(m.windowIndex), OptionalId(m.paneId, '%');
    assert s == Scoped("$", m.sessionId) && w == Scoped("@", m.windowId) && p == Scoped("%", m.paneId);
    assert i == Scoped("", m.windowIndex);
    var v := Join(":", m.value);
    FourFields(i, p, ":", m.value);
    JoinedFields(w, Join(i, Join(p, v)), [i, p, ":", m.value]);
    JoinedFields(s, Join(w, Join(i, Join(p, v))), [w] + [i, p, ":", m.value]);
    JoinedFields(m.name, Join(s, Join(w, Join(i, Join(p, v)))), [s] + ([w] + [i, p, ":", m.value]));
    assert [m.name] + ([s] + ([w] + [i, p, ":", m.value])) == Fields(m);
    ColonField(p, m.value);
    LongerColon(i, p, " : " + m.value);
    LongerColon(w, Join(i, p), " : " + m.value);
    LongerColon(s, Join(w, Join(i, p)), " : " + m.value);
    LongerColon(m.name, Join(s, Join(w, Join(i, p))), " : " + m.value);
  }

  lemma ExtendedFields(m: Message)
    requires m.ExtendedOutput?
    ensures " " + Args(m) == Spaced(Fields(m))
  {
    hide Join, Spaced, Show, Encode;
    var p, d := ['%'] + Show(m.paneId), Encode(m.data);
    FourFields(p, Show(m.age), ":", d);
    ColonField(Show(m.age), d);
    LongerColon(p, Show(m.age), " : " + d);
  }

  /** The fields are printed in their order. */
  lemma FieldsAgree(m: Message)
    requires HasArgs(m)
    ensures " " + Args(m) == Spaced(Fields(m))
  {
    hide Join, Spaced, Show, Encode;
    match m
    case Guard(_, t, n, f) => ThreeFields(Show(t), Show(n), Show(f));
    case Output(p, data) => TwoFields(['%'] + Show(p), Encode(data));
    case ExtendedOutput(_, _, _) => ExtendedFields(m);
    case PaneEvent(_, p) => OneField(['%'] + Show(p));
    case WindowEvent(_, w) => OneField(['@'] + Show(w));
    case WindowRenamed(_, w, name) => TwoFields(['@'] + Show(w), name);
    case WindowPaneChanged(w, p) => TwoFields(['@'] + Show(w), ['%'] + Show(p));
    case LayoutChange(w, layout, visible, flags, _, _) => FourFields(['@'] + Show(w), layout, visible, flags);
    case SessionNamed(_, s, name) => TwoFields(['$'] + Show(s), name);
    case SessionWindowChanged(s, w) => TwoFields(['$'] + Show(s), ['@'] + Show(w));
    case ClientSessionChanged(client, s, name) => ThreeFields(client, ['$'] + Show(s), name);
    case ClientDetached(client) => OneField(client);
    case PasteBuffer(_, name) => OneField(name);
    case SubscriptionChanged(_, _, _, _, _, _) => SubscriptionFields(m);
    case MessageText(text) => OneField(text);
    case ConfigError(text) => OneField(text);
    case Exit(reason) => OneField(reason.value);
  }

  /** The serializer prints every message's line. */
  lemma SerializesAs(m: Message)
    ensures Serialize(m) == Line(m)
  {
    hide Name, Word, KindOf, Args, Fields, Spaced;
    WordsAgree(m);
    if HasArgs(m) {
      FieldsAgree(m);
      assert ['%'] + Join(Name(KindOf(m)), Args(m)) == "%" + Word(m) + (" " + Args(m));
    } else {
      NoFields(m);
    }
  }

  lemma NoFields(m: Message)
    requires !HasArgs(m)
    ensures Fields(m) == [] && Spaced([]) == ""
  {
  }

  /** The parser reads each message from its line, exactly when the message is one a parser can produce and the line ends in no carriage return. */
  lemma LineIsRead(m: Message)
    ensures ParseLine(Line(m)) == Some(m) <==> Shaped(m) && !EndsInCr(Line(m))
  {
    hide ParseLine, Line, Serialize, Shaped, EndsInCr;
    SerializesAs(m);
    RoundTripIff(m);
  }
}

/**
  The relayed hook buffer (src/cross-session-layout.ts): tmux appends one entry per layout change and
  keeps the last CAP characters; a relay decodes snapshots of it and plans what to fetch.
 */
module HookBuffer {
  import opened Options
  import opened JsStrings

  const CAP := 4096

  datatype Entry = Entry(seqNo: nat, windowId: nat)

  // ---------------------------------------------------------------------------------------
  // tmux's side: append and truncate
  // ---------------------------------------------------------------------------------------

  function EntryText(e: Entry): string {
    Dec(e.seqNo) + (":@" + (Dec(e.windowId) + ","))
  }

  function LastN(s: string, n: nat): string {
    if |s| <= n then s else s[|s| - n..]
  }

  /** The server after layout changes in the windows `ws`, oldest first: change k has sequence number k. */
  datatype Server = Server(ws: seq<nat>, counter: nat, buffer: string)

  const FRESH := Server([], 0, "")

  /** One firing of the hook: bump the counter, append the entry, keep the end. */
  function Fire(s: Server, w: nat): Server {
    Server(s.ws + [w], s.counter + 1, LastN(s.buffer + EntryText(Entry(s.counter + 1, w)), CAP))
  }

  /** The entries after the first `j`, as text, had nothing been cut. */
  function Texts(ws: seq<nat>, j: nat): string
    requires j <= |ws|
    decreases |ws|
  {
    if j == |ws| then "" else Texts(ws[..|ws| - 1], j) + EntryText(Entry(|ws|, ws[|ws| - 1]))
  }

  function EntriesAfter(ws: seq<nat>, j: nat): (es: seq<Entry>)
    requires j <= |ws|
    ensures |es| == |ws| - j && forall i | 0 <= i < |es| :: es[i] == Entry(j + 1 + i, ws[j + i])
    decreases |ws| - j
  {
    if j == |ws| then [] else [Entry(j + 1, ws[j])] + EntriesAfter(ws, j + 1)
  }

  predicate ServerOk(s: Server) {
    s.counter == |s.ws| && s.buffer == LastN(Texts(s.ws, 0), CAP)
  }

  lemma LastOfLast(a: string, b: string, n: nat)
    ensures LastN(LastN(a, n) + b, n) == LastN(a + b, n)
  {
    if |a| > n {
      var cut := |a| - n;
      assert a[cut..] + b == (a + b)[cut..];
      assert |a[cut..] + b| == n + |b|;
    }
  }

  /** Truncating at every append keeps exactly the end of everything ever written. */
  lemma FireOk(s: Server, w: nat)
    requires ServerOk(s)
    ensures ServerOk(Fire(s, w))
  {
    hide EntryText;
    var t := Fire(s, w);
    assert t.ws[..|t.ws| - 1] == s.ws;
    LastOfLast(Texts(s.ws, 0), EntryText(Entry(s.counter + 1, w)), CAP);
  }

  // ---------------------------------------------------------------------------------------
  // The relay's side: decoding
  // ---------------------------------------------------------------------------------------

  datatype Match = NoMatch | Matched(entry: Entry, rest: string)

  /** `^(\d+):@(\d+),` */
  function MatchEntry(s: string): (m: Match)
    ensures m.Matched? ==> |m.rest| < |s|
  {
    var k := DigitRun(s);
    if k == 0 || |s[k..]| < 2 || s[k..][..2] != ":@" then NoMatch else MatchWindow(Value(s[..k]), s[k..][2..])
  }

  function MatchWindow(seqNo: nat, s: string): (m: Match)
    ensures m.Matched? ==> |m.rest| < |s|
  {
    var k := DigitRun(s);
    if k == 0 || s[k..] == "" || s[k..][0] != ',' then NoMatch else Matched(Entry(seqNo, Value(s[..k])), s[k..][1..])
  }

  datatype Decoded = Decoded(entries: seq<Entry>, skips: seq<nat>)

  function DecodeFrom(cursor: string): Decoded
    decreases |cursor|
  {
    if cursor == "" then Decoded([], []) else
    match MatchEntry(cursor)
    case Matched(e, rest) =>
      var d := DecodeFrom(rest);
      d.(entries := [e] + d.entries)
    case NoMatch =>
      var comma := IndexOf(cursor, ',');
      if comma == -1 then Decoded([], []) else
      var d := DecodeFrom(cursor[comma + 1..]);
      d.(skips := [comma + 1] + d.skips)
  }

  /** A value at the cap may begin with a sheared entry, which is dropped unread. */
  function Start(value: string): string {
    if |value| >= CAP then
      var comma := IndexOf(value, ',');
      if comma == -1 then "" else value[comma + 1..]
    else value
  }

  function DecodeEntries(value: string): Decoded {
    DecodeFrom(Start(value))
  }

  lemma EntryShape(e: Entry)
    ensures var t := EntryText(e);
            && t != "" && t[|t| - 1] == ',' && forall i | 0 <= i < |t| - 1 :: t[i] != ','
  {
    hide Dec;
    var a, b := Dec(e.seqNo), Dec(e.windowId);
    var t := EntryText(e);
    forall i | 0 <= i < |t| - 1 ensures t[i] != ',' {
      if i < |a| {
        assert t[i] == a[i] && a[i] in a;
      } else if i >= |a| + 2 {
        assert t[i] == b[i - |a| - 2] && b[i - |a| - 2] in b;
      }
    }
  }

  lemma MatchText(e: Entry, rest: string)
    ensures MatchEntry(EntryText(e) + rest) == Matched(e, rest)
  {
    hide Dec, DigitRun, Value, MatchWindow;
    var a, b := Dec(e.seqNo), Dec(e.windowId);
    var after := b + ("," + rest);
    var tail := ":@" + after;
    var s := EntryText(e) + rest;
    assert s == a + tail;
    DigitRunIs(a, tail);
    assert s[..|a|] == a && s[|a|..] == tail && tail[..2] == ":@" && tail[2..] == after;
    ValueOfDec(e.seqNo);
    MatchWindowText(e, rest);
  }

  lemma MatchWindowText(e: Entry, rest: string)
    ensures MatchWindow(e.seqNo, Dec(e.windowId) + ("," + rest)) == Matched(e, rest)
  {
    hide Dec, DigitRun, Value;
    var b := Dec(e.windowId);
    var s := b + ("," + rest);
    DigitRunIs(b, "," + rest);
    assert s[..|b|] == b && s[|b|..] == "," + rest && s[|b|..][1..] == rest;
    ValueOfDec(e.windowId);
  }

  lemma {:induction false} TextsHead(ws: seq<nat>, j: nat)
    requires j < |ws|
    ensures Texts(ws, j) == EntryText(Entry(j + 1, ws[j])) + Texts(ws, j + 1)
    decreases |ws|
  {
    hide EntryText;
    var n := |ws|;
    var last := EntryText(Entry(n, ws[n - 1]));
    if j + 1 < n {
      TextsHead(ws[..n - 1], j);
      assert Texts(ws, j) == (EntryText(Entry(j + 1, ws[j])) + Texts(ws[..n - 1], j + 1)) + last;
    } else {
      assert Texts(ws[..n - 1], j) == "" && Texts(ws, j + 1) == "";
    }
  }

  /** Whole entries decode as themselves, with nothing skipped. */
  lemma {:induction false} DecodeTexts(ws: seq<nat>, j: nat)
    requires j <= |ws|
    ensures DecodeFrom(Texts(ws, j)) == Decoded(EntriesAfter(ws, j), [])
    decreases |ws| - j
  {
    hide EntryText, MatchEntry, Texts;
    if j < |ws| {
      TextsHead(ws, j);
      EntryShape(Entry(j + 1, ws[j]));
      MatchText(Entry(j + 1, ws[j]), Texts(ws, j + 1));
      DecodeTexts(ws, j + 1);
    } else {
      assert Texts(ws, j) == "" by { TextsNone(ws); }
    }
  }

  lemma TextsNone(ws: seq<nat>)
    ensures Texts(ws, |ws|) == ""
  {
  }

  /** A cut falls inside exactly one entry; the text after it is the rest of that entry and the later ones. */
  lemma {:induction false} CutInside(ws: seq<nat>, c: nat) returns (j: nat, tail: string)
    requires c < |Texts(ws, 0)|
    ensures 1 <= j <= |ws| && tail != "" && tail[|tail| - 1] == ',' && ',' !in tail[..|tail| - 1]
    ensures Texts(ws, 0)[c..] == tail + Texts(ws, j)
    ensures |tail| <= |EntryText(Entry(j, ws[j - 1]))|
    decreases |ws|
  {
    hide EntryText;
    var n := |ws|;
    var before := Texts(ws[..n - 1], 0);
    var last := EntryText(Entry(n, ws[n - 1]));
    if c < |before| {
      j, tail := CutInside(ws[..n - 1], c);
      assert Texts(ws, 0)[c..] == before[c..] + last;
      assert (tail + Texts(ws[..n - 1], j)) + last == tail + (Texts(ws[..n - 1], j) + last);
      assert ws[..n - 1][j - 1] == ws[j - 1];
    } else {
      j, tail := n, last[c - |before|..];
      EntryShape(Entry(n, ws[n - 1]));
      TextsNone(ws);
      assert Texts(ws, 0)[c..] == tail + "";
    }
  }

  /**
    What a snapshot decodes to: the true entries after some point, complete and in order, nothing else. The
    newest entry is among them exactly when it is shorter than the buffer.
   */
  lemma SnapshotDecodes(s: Server) returns (j: nat)
    requires ServerOk(s)
    ensures j <= |s.ws| && DecodeEntries(s.buffer) == Decoded(EntriesAfter(s.ws, j), [])
    ensures |s.ws| > 0 ==> (j < |s.ws| <==> |EntryText(Entry(|s.ws|, s.ws[|s.ws| - 1]))| < CAP)
  {
    hide EntryText, DecodeFrom;
    var full := Texts(s.ws, 0);
    var n := |s.ws|;
    if |full| < CAP {
      j := 0;
      DecodeTexts(s.ws, 0);
      if n > 0 {
        LastFits(s.ws, 0);
      }
    } else {
      var tail;
      j, tail := CutInside(s.ws, |full| - CAP);
      assert full[|full| - CAP..] == s.buffer;
      IndexOfFirst(tail[..|tail| - 1], ',', Texts(s.ws, j));
      assert tail == tail[..|tail| - 1] + [','];
      assert s.buffer == tail[..|tail| - 1] + ([','] + Texts(s.ws, j));
      assert s.buffer[|tail|..] == Texts(s.ws, j);
      DecodeTexts(s.ws, j);
      if j < n {
        LastFits(s.ws, j);
      } else {
        TextsNone(s.ws);
      }
    }
  }

  lemma LastFits(ws: seq<nat>, j: nat)
    requires j < |ws|
    ensures |EntryText(Entry(|ws|, ws[|ws| - 1]))| <= |Texts(ws, j)|
  {
  }

  // ---------------------------------------------------------------------------------------
  // Planning
  // ---------------------------------------------------------------------------------------

  datatype Plan = Plan(windowIds: seq<nat>, lostEntries: int, lastSeq: nat)

  function Newer(entries: seq<Entry>, lastSeq: nat): seq<Entry> {
    if entries == [] then []
    else (if entries[0].seqNo > lastSeq then [entries[0]] else []) + Newer(entries[1..], lastSeq)
  }

  function MinSeq(entries: seq<Entry>): nat
    requires entries != []
  {
    if |entries| == 1 then entries[0].seqNo
    else
      var m := MinSeq(entries[1..]);
      if entries[0].seqNo < m then entries[0].seqNo else m
  }

  function MaxSeq(entries: seq<Entry>): nat
    requires entries != []
  {
    if |entries| == 1 then entries[0].seqNo
    else
      var m := MaxSeq(entries[1..]);
      if entries[0].seqNo > m then entries[0].seqNo else m
  }

  /** The windows of the entries, each once, in first-seen order. */
  function Windows(entries: seq<Entry>): (ids: seq<nat>)
    ensures forall i, k | 0 <= i < k < |ids| :: ids[i] != ids[k]
    ensures forall id {:trigger id in ids} :: id in ids <==> exists e <- entries :: e.windowId == id
  {
    if entries == [] then []
    else
      var n := |entries| - 1;
      var ids := Windows(entries[..n]);
      assert entries == entries[..n] + [entries[n]];
      if entries[n].windowId in ids then ids else ids + [entries[n].windowId]
  }

  function PlanDelivery(entries: seq<Entry>, lastSeq: nat): Plan {
    var unseen := Newer(entries, lastSeq);
    if unseen == [] then Plan([], 0, lastSeq)
    else Plan(Windows(unseen), MinSeq(unseen) - lastSeq - 1, MaxSeq(unseen))
  }

  lemma {:induction false} NewerOfRun(ws: seq<nat>, j: nat, lastSeq: nat)
    requires j <= |ws| && lastSeq <= |ws|
    ensures Newer(EntriesAfter(ws, j), lastSeq) == EntriesAfter(ws, if j < lastSeq then lastSeq else j)
    decreases |ws| - j
  {
    if j < |ws| {
      NewerOfRun(ws, j + 1, lastSeq);
      assert EntriesAfter(ws, j)[1..] == EntriesAfter(ws, j + 1);
    }
  }

  lemma {:induction false} BoundsOfRun(ws: seq<nat>, j: nat)
    requires j < |ws|
    ensures MinSeq(EntriesAfter(ws, j)) == j + 1 && MaxSeq(EntriesAfter(ws, j)) == |ws|
    decreases |ws| - j
  {
    assert EntriesAfter(ws, j)[1..] == EntriesAfter(ws, j + 1);
    if j + 1 < |ws| {
      BoundsOfRun(ws, j + 1);
    }
  }

  // ---------------------------------------------------------------------------------------
  // Whole runs of firings and deliveries
  // ---------------------------------------------------------------------------------------

  /** What one delivery did: everything after `from` up to `to` is lost or fetched. */
  datatype Delivered = Delivered(from: nat, plan: Plan)

  datatype System = System(server: Server, lastSeq: nat, deliveries: seq<Delivered>)

  datatype Event = Change(w: nat) | Deliver

  function Next(s: System, e: Event): System {
    match e
    case Change(w) => s.(server := Fire(s.server, w))
    case Deliver =>
      var plan := PlanDelivery(DecodeEntries(s.server.buffer).entries, s.lastSeq);
      s.(lastSeq := plan.lastSeq, deliveries := s.deliveries + [Delivered(s.lastSeq, plan)])
  }

  function Run(s: System, events: seq<Event>): System
    decreases |events|
  {
    if events == [] then s else Run(Next(s, events[0]), events[1..])
  }

  /** A relay that subscribes after the changes `ws`: its baseline is the counter. */
  function Subscribed(s: Server): System {
    System(s, s.counter, [])
  }

  /** The entries of `ws` with numbers in (from, to]. */
  function Between(ws: seq<nat>, from: nat, to: nat): seq<Entry>
    requires from <= to <= |ws|
  {
    EntriesAfter(ws[..to], from)
  }

  /** The delivery accounts for (from, to]: the first ones lost, all the others fetched, under their true windows. */
  ghost predicate Accounts(ws: seq<nat>, d: Delivered) {
    && d.plan.lostEntries >= 0 && d.from + d.plan.lostEntries <= d.plan.lastSeq <= |ws|
    && d.plan.windowIds == Windows(Between(ws, d.from + d.plan.lostEntries, d.plan.lastSeq))
    && (d.plan.lostEntries > 0 ==> d.from + d.plan.lostEntries < d.plan.lastSeq)
  }

  /** Delivery `i` starts where the one before it ended. */
  predicate Follows(deliveries: seq<Delivered>, i: nat, baseline: nat)
    requires i < |deliveries|
  {
    deliveries[i].from == if i == 0 then baseline else deliveries[i - 1].plan.lastSeq
  }

  /** Deliveries cover (baseline, lastSeq] without gap or overlap. */
  ghost predicate Conserved(s: System, baseline: nat) {
    && ServerOk(s.server)
    && baseline <= s.lastSeq <= s.server.counter
    && (forall i | 0 <= i < |s.deliveries| :: Accounts(s.server.ws, s.deliveries[i]))
    && (forall i | 0 <= i < |s.deliveries| :: Follows(s.deliveries, i, baseline))
    && s.lastSeq == if s.deliveries == [] then baseline else s.deliveries[|s.deliveries| - 1].plan.lastSeq
  }

  /** One delivery: nothing is counted twice or skipped, and it catches up exactly when the newest entry fits the buffer. */
  lemma DeliveryAccounts(s: Server, lastSeq: nat)
    requires ServerOk(s) && lastSeq <= s.counter
    ensures var plan := PlanDelivery(DecodeEntries(s.buffer).entries, lastSeq);
            && Accounts(s.ws, Delivered(lastSeq, plan))
            && plan.lastSeq == (if lastSeq < |s.ws| && |EntryText(Entry(|s.ws|, s.ws[|s.ws| - 1]))| >= CAP then lastSeq else s.counter)
  {
    hide EntryText, DecodeEntries, Windows, ServerOk, EntriesAfter, Newer, MinSeq, MaxSeq;
    var j := SnapshotDecodes(s);
    CounterIs(s);
    var n := |s.ws|;
    NewerOfRun(s.ws, j, lastSeq);
    var k := if j < lastSeq then lastSeq else j;
    if k < n {
      BoundsOfRun(s.ws, k);
      assert s.ws[..n] == s.ws;
    } else {
      assert EntriesAfter(s.ws, k) == [];
      assert Between(s.ws, lastSeq, lastSeq) == [];
      assert Windows([]) == [] by { NoWindows(); }
    }
  }

  lemma NoWindows()
    ensures Windows([]) == []
  {
  }

  /** Later changes do not alter what an earlier delivery accounted for. */
  lemma AccountsLater(ws: seq<nat>, w: nat, d: Delivered)
    requires Accounts(ws, d)
    ensures Accounts(ws + [w], d)
  {
    hide Windows;
    assert (ws + [w])[..d.plan.lastSeq] == ws[..d.plan.lastSeq];
  }

  lemma NextConserves(s: System, e: Event, baseline: nat)
    requires Conserved(s, baseline)
    ensures Conserved(Next(s, e), baseline)
  {
    hide Accounts, PlanDelivery, ServerOk, Fire;
    var t := Next(s, e);
    match e
    case Change(w) =>
      FireOk(s.server, w);
      FireFacts(s.server, w);
      assert t.deliveries == s.deliveries;
      forall i | 0 <= i < |t.deliveries| ensures Accounts(t.server.ws, t.deliveries[i]) {
        AccountsLater(s.server.ws, w, s.deliveries[i]);
      }
    case Deliver =>
      DeliveryAccounts(s.server, s.lastSeq);
      CounterIs(s.server);
      forall i | 0 <= i < |t.deliveries| ensures Follows(t.deliveries, i, baseline) {
        assert i < |s.deliveries| ==> Follows(s.deliveries, i, baseline);
      }
  }

  lemma CounterIs(s: Server)
    requires ServerOk(s)
    ensures s.counter == |s.ws|
  {
  }

  lemma FireFacts(s: Server, w: nat)
    ensures Fire(s, w).ws == s.ws + [w] && Fire(s, w).counter == s.counter + 1
  {
  }

  lemma {:induction false} RunConserves(s: System, events: seq<Event>, baseline: nat)
    requires Conserved(s, baseline)
    ensures Conserved(Run(s, events), baseline)
    decreases |events|
  {
    hide Conserved, Next;
    if events != [] {
      NextConserves(s, events[0], baseline);
      RunConserves(Next(s, events[0]), events[1..], baseline);
    }
  }

  /** The number of deliveries in which change `k` is lost, and in which it is fetched. */
  predicate LostIn(d: Delivered, k: nat) {
    d.from < k <= d.from + d.plan.lostEntries
  }

  predicate FetchedIn(ws: seq<nat>, d: Delivered, k: nat) {
    d.from + d.plan.lostEntries < k <= d.plan.lastSeq && 1 <= k <= |ws| && ws[k - 1] in d.plan.windowIds
  }

  predicate CountedIn(d: Delivered, k: nat) {
    d.from < k <= d.plan.lastSeq
  }

  lemma {:induction false} CoveringDelivery(s: System, baseline: nat, k: nat, m: nat) returns (i: nat)
    requires Conserved(s, baseline) && 0 < m <= |s.deliveries| && baseline < k <= s.deliveries[m - 1].plan.lastSeq
    ensures i < m && CountedIn(s.deliveries[i], k)
    decreases m
  {
    hide Windows;
    assert Follows(s.deliveries, m - 1, baseline);
    if k > s.deliveries[m - 1].from {
      i := m - 1;
    } else {
      i := CoveringDelivery(s, baseline, k, m - 1);
    }
  }

  lemma {:induction false} InOrder(s: System, baseline: nat, i: nat, l: nat)
    requires Conserved(s, baseline) && i < l < |s.deliveries|
    ensures s.deliveries[i].plan.lastSeq <= s.deliveries[l].from
    decreases l
  {
    assert Follows(s.deliveries, l, baseline);
    if i < l - 1 {
      InOrder(s, baseline, i, l - 1);
      assert Accounts(s.server.ws, s.deliveries[l - 1]);
    }
  }

  lemma FetchedOrLost(ws: seq<nat>, d: Delivered, k: nat)
    requires Accounts(ws, d) && CountedIn(d, k)
    ensures LostIn(d, k) != FetchedIn(ws, d, k)
  {
    if d.from + d.plan.lostEntries < k {
      var lost := d.from + d.plan.lostEntries;
      var es := Between(ws, lost, d.plan.lastSeq);
      assert es[k - 1 - lost] == Entry(k, ws[k - 1]) && es[k - 1 - lost] in es;
    }
  }

  /**
    Conservation over every run after a relay subscribes: every change after the baseline, up to the relay's
    last sequence number, is counted by exactly one delivery, there either lost or fetched under its true
    window, never both.
   */
  lemma EveryChangeCountedOnce(server: Server, events: seq<Event>, k: nat)
    requires ServerOk(server)
    ensures var s := Run(Subscribed(server), events);
            server.counter < k <= s.lastSeq ==>
              exists i | 0 <= i < |s.deliveries| ::
                && (LostIn(s.deliveries[i], k) != FetchedIn(s.server.ws, s.deliveries[i], k))
                && forall l | 0 <= l < |s.deliveries| && l != i :: !CountedIn(s.deliveries[l], k)
  {
    hide Run, Accounts, ServerOk;
    var s := Run(Subscribed(server), events);
    RunConserves(Subscribed(server), events, server.counter);
    if server.counter < k <= s.lastSeq {
      var i := CoveringDelivery(s, server.counter, k, |s.deliveries|);
      FetchedOrLost(s.server.ws, s.deliveries[i], k);
      forall l | 0 <= l < |s.deliveries| && l != i ensures !CountedIn(s.deliveries[l], k) {
        if l < i {
          InOrder(s, server.counter, l, i);
        } else {
          InOrder(s, server.counter, i, l);
        }
      }
    }
  }

  /** The text of change `k` is shorter than the buffer. */
  predicate Fits(ws: seq<nat>, k: nat) {
    1 <= k <= |ws| ==> |EntryText(Entry(k, ws[k - 1]))| < CAP
  }

  /**
    Over every run, a delivery brings the relay to the counter exactly when it stood there already or the newest
    entry fits the buffer; so it always does when every entry is shorter than the buffer.
   */
  lemma DeliveryCatchesUp(server: Server, events: seq<Event>)
    requires ServerOk(server)
    ensures var s := Run(Subscribed(server), events);
            var t := Run(Subscribed(server), events + [Deliver]);
            && t.server == s.server
            && (t.lastSeq == t.server.counter <==> s.lastSeq == s.server.counter || Fits(s.server.ws, |s.server.ws|))
            && ((forall k :: Fits(t.server.ws, k)) ==> t.lastSeq == t.server.counter)
  {
    hide Run, Accounts, ServerOk, EntryText, DecodeEntries, PlanDelivery;
    RunPlus(Subscribed(server), events, Deliver);
    RunConserves(Subscribed(server), events, server.counter);
    var s := Run(Subscribed(server), events);
    CounterIs(s.server);
    DeliveryAccounts(s.server, s.lastSeq);
  }

  lemma {:induction false} RunPlus(s: System, events: seq<Event>, e: Event)
    ensures Run(s, events + [e]) == Next(Run(s, events), e)
    decreases |events|
  {
    hide Next;
    if events == [] {
      assert Run(Next(s, e), [e][1..]) == Next(s, e);
    } else {
      RunPlus(Next(s, events[0]), events[1..], e);
      assert (events + [e])[1..] == events[1..] + [e];
    }
  }

  // ---------------------------------------------------------------------------------------
  // The subscription's value: epoch, uncovered windows, buffer
  // ---------------------------------------------------------------------------------------

  datatype Coverage = Coverage(epoch: string, uncovered: set<nat>)

  datatype Delivery = Delivery(coverage: Option<Coverage>, buffer: string)

  function IdsText(ids: seq<nat>): string {
    if ids == [] then "" else "@" + (Dec(ids[0]) + ("," + IdsText(ids[1..])))
  }

  /** `^(?:@\d+,)*$` */
  function ParseIds(s: string): Option<seq<nat>>
    decreases |s|
  {
    if s == "" then Some([])
    else if s[0] != '@' then None
    else
      var t := s[1..];
      var k := DigitRun(t);
      if k == 0 || t[k..] == "" || t[k..][0] != ',' then None
      else match ParseIds(t[k..][1..])
        case None => None
        case Some(ids) => Some([Value(t[..k])] + ids)
  }

  function LastIndexOf(s: string, c: char): (r: int)
    ensures -1 <= r < |s|
  {
    if s == "" then -1 else if s[|s| - 1] == c then |s| - 1 else LastIndexOf(s[..|s| - 1], c)
  }

  function AfterLastBar(value: string): string {
    var bar := LastIndexOf(value, '|');
    if bar == -1 then "" else value[bar + 1..]
  }

  function DecodeDelivery(value: string): Delivery {
    var k := DigitRun(value);
    var t := value[k..];
    if t == "" || t[0] != '|' || IndexOf(t[1..], '|') == -1 then Delivery(None, AfterLastBar(value))
    else
      var bar := IndexOf(t[1..], '|');
      match ParseIds(t[1..][..bar])
      case None => Delivery(None, AfterLastBar(value))
      case Some(ids) => Delivery(Some(Coverage(value[..k], set id | id in ids)), t[1..][bar + 1..])
  }

  /** One id is read, and then the rest. */
  lemma IdRead(n: nat, rest: string)
    ensures ParseIds("@" + (Dec(n) + ("," + rest)))
         == match ParseIds(rest) case None => None case Some(ids) => Some([n] + ids)
  {
    hide Dec, DigitRun, Value;
    var d := Dec(n);
    var t := d + ("," + rest);
    var s := "@" + t;
    DigitRunIs(d, "," + rest);
    ValueOfDec(n);
    assert s[1..] == t && t[..|d|] == d && t[|d|..] == "," + rest && t[|d|..][1..] == rest;
  }

  lemma IdHasNoBar(n: nat, rest: string)
    requires '|' !in rest
    ensures '|' !in "@" + (Dec(n) + ("," + rest))
  {
    hide Dec;
    ValueOfDec(n);
    assert forall c <- Dec(n) :: IsDigit(c);
    assert '|' !in "," + rest;
    assert '|' !in Dec(n) + ("," + rest);
  }

  lemma {:induction false} IdsBack(ids: seq<nat>)
    ensures ParseIds(IdsText(ids)) == Some(ids) && '|' !in IdsText(ids)
  {
    if ids != [] {
      hide Dec, ParseIds;
      IdsBack(ids[1..]);
      IdRead(ids[0], IdsText(ids[1..]));
      var rest := IdsText(ids[1..]);
      assert [ids[0]] + ids[1..] == ids && IdsText(ids) == "@" + (Dec(ids[0]) + ("," + rest));
      hide IdsText;
      IdHasNoBar(ids[0], rest);
    }
  }

  /** The value tmux builds from the subscription format is taken apart again, whatever the buffer holds. */
  lemma DeliveryBack(epoch: string, ids: seq<nat>, buffer: string)
    requires AllDigits(epoch)
    ensures DecodeDelivery(epoch + ("|" + (IdsText(ids) + ("|" + buffer))))
         == Delivery(Some(Coverage(epoch, set id | id in ids)), buffer)
  {
    hide DigitRun, ParseIds, IdsText;
    var t := "|" + (IdsText(ids) + ("|" + buffer));
    var value := epoch + t;
    DigitRunIs(epoch, t);
    assert value[..|epoch|] == epoch && value[|epoch|..] == t;
    assert t[1..] == IdsText(ids) + (['|'] + buffer);
    IdsBack(ids);
    IndexOfFirst(IdsText(ids), '|', buffer);
    assert t[1..][..|IdsText(ids)|] == IdsText(ids) && t[1..][|IdsText(ids)| + 1..] == buffer;
  }

  // ---------------------------------------------------------------------------------------
  // The relay's loop and state
  // ---------------------------------------------------------------------------------------

  lemma DecodeStep(cursor: string)
    requires cursor != ""
    ensures var d := DecodeFrom(cursor);
            match MatchEntry(cursor)
            case Matched(e, rest) => d == DecodeFrom(rest).(entries := [e] + DecodeFrom(rest).entries)
            case NoMatch =>
              var comma := IndexOf(cursor, ',');
              d == if comma == -1 then Decoded([], [])
                   else DecodeFrom(cursor[comma + 1..]).(skips := [comma + 1] + DecodeFrom(cursor[comma + 1..]).skips)
  {
    hide MatchEntry, IndexOf;
  }

  method DecodeValue(value: string) returns (entries: seq<Entry>, skips: seq<nat>)
    ensures Decoded(entries, skips) == DecodeEntries(value)
  {
    hide DecodeFrom, MatchEntry, IndexOf, DigitRun, Value;
    entries, skips := [], [];
    var cursor := value;
    if |value| >= CAP {
      var commaIdx := IndexOf(cursor, ',');
      cursor := if commaIdx == -1 then "" else cursor[commaIdx + 1..];
    }
    ghost var whole := DecodeFrom(cursor);
    while |cursor| > 0
      invariant whole == Decoded(entries + DecodeFrom(cursor).entries, skips + DecodeFrom(cursor).skips)
      decreases |cursor|
    {
      DecodeStep(cursor);
      var m := MatchEntry(cursor);
      if m.Matched? {
        entries := entries + [m.entry];
        cursor := m.rest;
      } else {
        var commaIdx := IndexOf(cursor, ',');
        if commaIdx == -1 {
          break;
        }
        skips := skips + [commaIdx + 1];
        cursor := cursor[commaIdx + 1..];
      }
    }
    NothingLeft();
    assert entries + [] == entries && skips + [] == skips;
  }

  lemma NothingLeft()
    ensures DecodeFrom("") == Decoded([], [])
  {
  }

  /** The relay's high-water mark. */
  class HookRelay {
    var lastSeq: nat

    constructor (baseline: nat)
      ensures lastSeq == baseline
    {
      lastSeq := baseline;
    }

    method HandleDelivery(value: string) returns (plan: Plan)
      modifies this
      ensures plan == PlanDelivery(DecodeEntries(DecodeDelivery(value).buffer).entries, old(lastSeq))
      ensures lastSeq == plan.lastSeq
    {
      hide DecodeEntries, DecodeDelivery, PlanDelivery;
      var delivery := DecodeDelivery(value);
      var entries, skips := DecodeValue(delivery.buffer);
      assert entries == DecodeEntries(delivery.buffer).entries;
      plan := PlanDelivery(entries, lastSeq);
      lastSeq := plan.lastSeq;
    }
  }
}

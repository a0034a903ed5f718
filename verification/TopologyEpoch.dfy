/**
  Staleness of topology queries (`TopologyEpochTracker` in src/pane-output.ts).

  The tracker holds a few counters and answers, for a query that settles late, whether its
  reply may still be applied. Here the counters are related to the history they summarize:
  `After(log)` is the tracker's state after the calls in `log`, and each counter test is
  shown to hold exactly when no superseding call follows the query's own start.
 */
module TopologyEpoch {

  /** One call on the tracker. A bootstrap start also names the connection it was sent on. */
  datatype Event =
    | BootstrapStarted(run: nat)
    | RefreshStarted(window: nat)
    | Invalidated(window: nat)
    | LayoutRecorded(window: nat, panes: seq<nat>)
    | LayoutForgotten(window: nat)
    | LayoutsTaken

  datatype Layout = Layout(window: nat, panes: seq<nat>)

  datatype Epoch = Epoch(
    bootstrapGen: nat,
    latestStart: nat,
    windowGens: map<nat, nat>,
    windowEpoch: nat,
    layouts: seq<Layout>)
  {
    predicate BootstrapCurrent(gen: nat) { bootstrapGen == gen }

    predicate LatestBootstrap(gen: nat) { latestStart == gen }

    predicate RefreshCurrent(w: nat, gen: nat) { w in windowGens && windowGens[w] == gen }
  }

  const INITIAL := Epoch(0, 0, map[], 0, [])

  function Without(layouts: seq<Layout>, w: nat): (r: seq<Layout>)
    ensures forall l :: l in r <==> l in layouts && l.window != w
  {
    if layouts == [] then []
    else if layouts[0].window == w then Without(layouts[1..], w)
    else [layouts[0]] + Without(layouts[1..], w)
  }

  /** Insertion-ordered map write: a known window keeps its place, a new one goes last. */
  function Record(layouts: seq<Layout>, w: nat, panes: seq<nat>): (r: seq<Layout>)
    ensures forall l :: l in r <==> l == Layout(w, panes) || (l in layouts && l.window != w)
  {
    if layouts == [] then [Layout(w, panes)]
    else if layouts[0].window == w then [Layout(w, panes)] + Without(layouts[1..], w)
    else [layouts[0]] + Record(layouts[1..], w, panes)
  }

  function Apply(e: Epoch, ev: Event): Epoch {
    match ev
    case BootstrapStarted(_) => e.(windowGens := map[], layouts := [], bootstrapGen := e.bootstrapGen + 1, latestStart := e.bootstrapGen + 1)
    case RefreshStarted(w) => e.(windowEpoch := e.windowEpoch + 1, windowGens := e.windowGens[w := e.windowEpoch + 1])
    case Invalidated(w) => e.(bootstrapGen := e.bootstrapGen + 1, layouts := Without(e.layouts, w), windowGens := e.windowGens - {w})
    case LayoutRecorded(w, panes) => e.(layouts := Record(e.layouts, w, panes))
    case LayoutForgotten(w) => e.(layouts := Without(e.layouts, w))
    case LayoutsTaken => e.(layouts := [])
  }

  function After(log: seq<Event>): Epoch {
    if log == [] then INITIAL else Apply(After(log[..|log| - 1]), log[|log| - 1])
  }

  lemma AfterOne(log: seq<Event>, ev: Event)
    ensures After(log + [ev]) == Apply(After(log), ev)
  {
    assert (log + [ev])[..|log|] == log;
  }

  /** The token handed to the bootstrap or refresh started by `log[at]`. */
  function GenAt(log: seq<Event>, at: nat): nat
    requires at < |log|
  {
    var e := After(log[..at + 1]);
    if log[at].RefreshStarted? then e.windowEpoch else e.bootstrapGen
  }

  predicate SupersedesBootstrap(ev: Event) {
    ev.BootstrapStarted? || ev.Invalidated?
  }

  predicate SupersedesRefresh(ev: Event, w: nat) {
    ev.BootstrapStarted? || ev == Invalidated(w) || ev == RefreshStarted(w)
  }

  // ---------------------------------------------------------------------------------------
  // The counter tests decide supersession
  // ---------------------------------------------------------------------------------------

  lemma {:induction false} CountersGrow(log: seq<Event>, at: nat)
    requires at <= |log|
    ensures After(log[..at]).bootstrapGen <= After(log).bootstrapGen
    ensures After(log[..at]).windowEpoch <= After(log).windowEpoch
    decreases |log|
  {
    if at < |log| {
      var n := |log| - 1;
      assert log[..n][..at] == log[..at];
      CountersGrow(log[..n], at);
    } else {
      assert log[..at] == log;
    }
  }

  lemma AfterLast(log: seq<Event>)
    requires log != []
    ensures After(log) == Apply(After(log[..|log| - 1]), log[|log| - 1])
  {
  }

  ghost predicate BootstrapStands(log: seq<Event>, at: nat) {
    forall j | at < j < |log| :: !SupersedesBootstrap(log[j])
  }

  ghost predicate RefreshStands(log: seq<Event>, at: nat, w: nat) {
    forall j | at < j < |log| :: !SupersedesRefresh(log[j], w)
  }

  lemma OneMoreStands(log: seq<Event>, at: nat, w: nat)
    requires at < |log| - 1
    ensures var before, last := log[..|log| - 1], log[|log| - 1];
            && (BootstrapStands(log, at) <==> BootstrapStands(before, at) && !SupersedesBootstrap(last))
            && (RefreshStands(log, at, w) <==> RefreshStands(before, at, w) && !SupersedesRefresh(last, w))
  {
    hide SupersedesBootstrap, SupersedesRefresh;
    var n := |log| - 1;
    assert forall j | at < j < n :: log[..n][j] == log[j];
  }

  /** A token just drawn is current. */
  lemma GenNow(log: seq<Event>, at: nat)
    requires at == |log| - 1
    ensures log[at].BootstrapStarted? ==> After(log).BootstrapCurrent(GenAt(log, at))
    ensures log[at].RefreshStarted? ==> After(log).RefreshCurrent(log[at].window, GenAt(log, at))
  {
    assert log[..at + 1] == log;
  }

  /** A bootstrap's reply may be applied exactly when nothing superseded it since it was sent. */
  lemma {:induction false} BootstrapCurrentIff(log: seq<Event>, at: nat)
    requires at < |log| && log[at].BootstrapStarted?
    ensures After(log).BootstrapCurrent(GenAt(log, at))
            <==> forall j | at < j < |log| :: !SupersedesBootstrap(log[j])
    decreases |log|
  {
    hide GenAt, After, SupersedesBootstrap;
    var n := |log| - 1;
    if at < n {
      BootstrapCurrentIff(log[..n], at);
      GenAtIsSettled(log, at);
      AfterLast(log);
      OneMoreBootstrap(After(log[..n]), log[n], GenAt(log, at));
      OneMoreStands(log, at, 0);
      assert BootstrapStands(log[..n], at) <==> After(log[..n]).BootstrapCurrent(GenAt(log, at));
    } else {
      GenNow(log, at);
    }
  }

  /** One more call leaves a bootstrap current exactly when it does not supersede it. */
  lemma OneMoreBootstrap(e: Epoch, ev: Event, gen: nat)
    requires gen <= e.bootstrapGen
    ensures Apply(e, ev).BootstrapCurrent(gen) <==> e.BootstrapCurrent(gen) && !SupersedesBootstrap(ev)
  {
  }

  ghost predicate StartedAfter(log: seq<Event>, at: nat) {
    exists j :: at < j < |log| && log[j].BootstrapStarted?
  }

  lemma StartedAfterOneMore(log: seq<Event>, at: nat)
    requires at < |log| - 1
    ensures StartedAfter(log, at) <==> StartedAfter(log[..|log| - 1], at) || log[|log| - 1].BootstrapStarted?
  {
    var before := log[..|log| - 1];
    if StartedAfter(log, at) && !log[|log| - 1].BootstrapStarted? {
      var j :| at < j < |log| && log[j].BootstrapStarted?;
      assert before[j].BootstrapStarted?;
    }
  }

  lemma GenAtIsSettled(log: seq<Event>, at: nat)
    requires at < |log| - 1
    ensures GenAt(log[..|log| - 1], at) == GenAt(log, at)
    ensures log[at].BootstrapStarted? ==> GenAt(log, at) <= After(log[..|log| - 1]).bootstrapGen
  {
    var before := log[..|log| - 1];
    assert before[..at + 1] == log[..at + 1];
    CountersGrow(before, at + 1);
  }

  /** A bootstrap is the latest exactly when no other was started after it. */
  lemma {:induction false} LatestBootstrapIff(log: seq<Event>, at: nat)
    requires at < |log| && log[at].BootstrapStarted?
    ensures After(log).LatestBootstrap(GenAt(log, at)) <==> !StartedAfter(log, at)
    decreases |log|
  {
    var n := |log| - 1;
    if at < n {
      LatestBootstrapIff(log[..n], at);
      GenAtIsSettled(log, at);
      StartedAfterOneMore(log, at);
    } else {
      assert log[..at + 1] == log;
    }
  }

  /** One more call leaves a refresh current exactly when it does not supersede it. */
  lemma OneMoreRefresh(e: Epoch, ev: Event, w: nat, gen: nat)
    requires gen <= e.windowEpoch
    ensures Apply(e, ev).RefreshCurrent(w, gen) <==> e.RefreshCurrent(w, gen) && !SupersedesRefresh(ev, w)
  {
  }

  lemma RefreshGenIsSettled(log: seq<Event>, at: nat)
    requires at < |log| - 1 && log[at].RefreshStarted?
    ensures GenAt(log[..|log| - 1], at) == GenAt(log, at) <= After(log[..|log| - 1]).windowEpoch
  {
    hide Apply;
    var before := log[..|log| - 1];
    assert before[..at + 1] == log[..at + 1];
    CountersGrow(before, at + 1);
  }

  /** A refresh's reply may be applied exactly when nothing superseded it since it was sent. */
  lemma {:induction false} RefreshCurrentIff(log: seq<Event>, at: nat)
    requires at < |log| && log[at].RefreshStarted?
    ensures var w := log[at].window;
            After(log).RefreshCurrent(w, GenAt(log, at))
            <==> forall j | at < j < |log| :: !SupersedesRefresh(log[j], w)
    decreases |log|
  {
    hide GenAt, After, Apply, SupersedesRefresh;
    var n, w := |log| - 1, log[at].window;
    if at < n {
      RefreshCurrentIff(log[..n], at);
      RefreshGenIsSettled(log, at);
      AfterLast(log);
      OneMoreRefresh(After(log[..n]), log[n], w, GenAt(log, at));
      OneMoreStands(log, at, w);
      assert RefreshStands(log[..n], at, w) <==> After(log[..n]).RefreshCurrent(w, GenAt(log, at));
    } else {
      GenNow(log, at);
    }
  }

  /** Whether `log[at]` is the last word on its window's layout. */
  ghost predicate Stands(log: seq<Event>, at: nat)
    requires at < |log| && log[at].LayoutRecorded?
  {
    forall j | at < j < |log| ::
      !log[j].BootstrapStarted? && !log[j].LayoutsTaken?
      && !(log[j].LayoutRecorded? && log[j].window == log[at].window)
      && log[j] != LayoutForgotten(log[at].window) && log[j] != Invalidated(log[at].window)
  }

  /** Does the call forget or replace what is recorded of the window? */
  predicate Overrides(ev: Event, w: nat) {
    ev.BootstrapStarted? || ev.LayoutsTaken? || (ev.LayoutRecorded? && ev.window == w) || ev == LayoutForgotten(w) || ev == Invalidated(w)
  }

  lemma OneMoreLayout(e: Epoch, ev: Event, w: nat, panes: seq<nat>)
    ensures Layout(w, panes) in Apply(e, ev).layouts
            <==> ev == LayoutRecorded(w, panes) || (Layout(w, panes) in e.layouts && !Overrides(ev, w))
  {
  }

  lemma StandsOneMore(log: seq<Event>, at: nat)
    requires at < |log| - 1 && log[at].LayoutRecorded?
    ensures log[..|log| - 1][at] == log[at]
    ensures Stands(log, at) <==> Stands(log[..|log| - 1], at) && !Overrides(log[|log| - 1], log[at].window)
  {
    var n := |log| - 1;
    assert forall j | at < j < n :: log[..n][j] == log[j];
  }

  /** The layouts kept are exactly those recorded last for their window since the last bootstrap start. */
  lemma {:induction false} LayoutsKeptIff(log: seq<Event>, w: nat, panes: seq<nat>)
    ensures Layout(w, panes) in After(log).layouts
            <==> exists at :: 0 <= at < |log| && log[at] == LayoutRecorded(w, panes) && Stands(log, at)
  {
    if log != [] {
      var n := |log| - 1;
      var before := log[..n];
      LayoutsKeptIff(before, w, panes);
      AfterLast(log);
      OneMoreLayout(After(before), log[n], w, panes);
      if log[n].LayoutRecorded? { LastStands(log); }
      hide After, Stands, Overrides;
      if at :| 0 <= at < n && before[at] == LayoutRecorded(w, panes) && Stands(before, at) {
        StandsOneMore(log, at);
      }
      if at :| 0 <= at < n && log[at] == LayoutRecorded(w, panes) && Stands(log, at) {
        StandsOneMore(log, at);
      }
    }
  }

  lemma LastStands(log: seq<Event>)
    requires log != [] && log[|log| - 1].LayoutRecorded?
    ensures Stands(log, |log| - 1)
  {
  }

  // ---------------------------------------------------------------------------------------
  // The class
  // ---------------------------------------------------------------------------------------

  class TopologyEpochTracker {
    var bootstrapGen: nat
    var latestBootstrapStartGen: nat
    var windowGens: map<nat, nat>
    var windowEpoch: nat
    var layoutsSinceBootstrap: seq<Layout>

    ghost function State(): Epoch
      reads this
    {
      Epoch(bootstrapGen, latestBootstrapStartGen, windowGens, windowEpoch, layoutsSinceBootstrap)
    }

    constructor ()
      ensures State() == INITIAL
    {
      bootstrapGen, latestBootstrapStartGen, windowGens, windowEpoch, layoutsSinceBootstrap := 0, 0, map[], 0, [];
    }

    method StartBootstrap(ghost run: nat) returns (gen: nat)
      modifies this
      ensures State() == Apply(old(State()), BootstrapStarted(run))
      ensures gen == State().bootstrapGen
    {
      windowGens, layoutsSinceBootstrap := map[], [];
      bootstrapGen := bootstrapGen + 1;
      latestBootstrapStartGen := bootstrapGen;
      gen := latestBootstrapStartGen;
    }

    predicate IsBootstrapCurrent(gen: nat)
      reads this
      ensures IsBootstrapCurrent(gen) <==> State().BootstrapCurrent(gen)
    {
      bootstrapGen == gen
    }

    predicate IsLatestBootstrap(gen: nat)
      reads this
      ensures IsLatestBootstrap(gen) <==> State().LatestBootstrap(gen)
    {
      latestBootstrapStartGen == gen
    }

    method RecordLayout(w: nat, panes: seq<nat>)
      modifies this
      ensures State() == Apply(old(State()), LayoutRecorded(w, panes))
    {
      layoutsSinceBootstrap := Record(layoutsSinceBootstrap, w, panes);
    }

    method ForgetLayout(w: nat)
      modifies this
      ensures State() == Apply(old(State()), LayoutForgotten(w))
    {
      layoutsSinceBootstrap := Without(layoutsSinceBootstrap, w);
    }

    method TakeLayouts() returns (taken: seq<Layout>)
      modifies this
      ensures State() == Apply(old(State()), LayoutsTaken)
      ensures taken == old(State()).layouts
    {
      taken := layoutsSinceBootstrap;
      layoutsSinceBootstrap := [];
    }

    method StartWindowRefresh(w: nat) returns (gen: nat)
      modifies this
      ensures State() == Apply(old(State()), RefreshStarted(w))
      ensures gen == State().windowEpoch
    {
      windowEpoch := windowEpoch + 1;
      windowGens := windowGens[w := windowEpoch];
      gen := windowEpoch;
    }

    predicate IsWindowRefreshCurrent(w: nat, gen: nat)
      reads this
      ensures IsWindowRefreshCurrent(w, gen) <==> State().RefreshCurrent(w, gen)
    {
      w in windowGens && windowGens[w] == gen
    }

    method InvalidateWindow(w: nat)
      modifies this
      ensures State() == Apply(old(State()), Invalidated(w))
    {
      bootstrapGen := bootstrapGen + 1;
      layoutsSinceBootstrap := Without(layoutsSinceBootstrap, w);
      windowGens := windowGens - {w};
    }
  }
}

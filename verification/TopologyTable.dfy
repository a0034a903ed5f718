/**
  The pane placement table (`PaneTopologyManager` in src/pane-output.ts).

  The manager keeps two maps: `table`, from pane to placement, and `windowIndex`, from
  window to the panes it was last seen to hold. The index may lag behind the table: a pane
  moved away by another window's refresh stays listed under its old window. Every method
  walks the index only, yet computes what a scan of the whole table would.
  The scans are the functions of this module; the class methods are proved equal to them.
 */
module TopologyTable {

  datatype Placed = Placed(session: nat, window: nat, floating: bool)

  /** One line of a `list-panes` reply. */
  datatype Entry = Entry(pane: nat, window: nat, session: nat, floating: bool)

  type Table = map<nat, Placed>

  /** `left`: the windows that moved-in panes left, in first-seen order, without repetition. */
  datatype Contradiction = Contradiction(left: seq<nat>, lostTrack: bool)

  // ---------------------------------------------------------------------------------------
  // Whole-table scans
  // ---------------------------------------------------------------------------------------

  function PanesOf(entries: seq<Entry>): set<nat> {
    set e <- entries :: e.pane
  }

  /** Write `entries` in order; a later entry for the same pane wins. */
  function WriteRows(t: Table, entries: seq<Entry>): (r: Table)
    ensures r.Keys == t.Keys + PanesOf(entries)
    ensures forall p <- r :: p !in PanesOf(entries) ==> r[p] == t[p]
    ensures forall p <- PanesOf(entries) ::
              exists e <- entries :: e.pane == p && r[p] == Placed(e.session, e.window, e.floating)
  {
    if entries == [] then t
    else
      var n := |entries| - 1;
      var e := entries[n];
      assert entries == entries[..n] + [e];
      assert PanesOf(entries) == PanesOf(entries[..n]) + {e.pane};
      WriteRows(t, entries[..n])[e.pane := Placed(e.session, e.window, e.floating)]
  }

  function SeedRows(entries: seq<Entry>): Table {
    WriteRows(map[], entries)
  }

  function RowsOutside(t: Table, w: nat): Table {
    map p <- t | t[p].window != w :: t[p]
  }

  /** A refresh reply is for one window: its rows go to that window whatever they name. */
  function Relocate(entries: seq<Entry>, w: nat): (r: seq<Entry>)
    ensures |r| == |entries|
    ensures forall i | 0 <= i < |r| :: r[i] == entries[i].(window := w)
    ensures PanesOf(r) == PanesOf(entries)
  {
    var r := seq(|entries|, i requires 0 <= i < |entries| => entries[i].(window := w));
    assert forall i | 0 <= i < |r| :: r[i].pane == entries[i].pane;
    assert PanesOf(r) == PanesOf(entries) by {
      forall p | p in PanesOf(entries) ensures p in PanesOf(r) {
        var i :| 0 <= i < |entries| && entries[i].pane == p;
        assert r[i] in r;
      }
    }
    r
  }

  predicate Gone(t: Table, w: nat, listed: set<nat>, p: nat) {
    p in t && t[p].window == w && p !in listed
  }

  function UpdateRows(t: Table, w: nat, entries: seq<Entry>): Table {
    WriteRows(map p <- t | !Gone(t, w, PanesOf(entries), p) :: t[p], Relocate(entries, w))
  }

  predicate UpdateLoses(t: Table, w: nat, entries: seq<Entry>) {
    exists p <- t :: Gone(t, w, PanesOf(entries), p) && !t[p].floating
  }

  /** A tiled pane the table places in `w` but `w`'s layout omits. */
  predicate Omitted(t: Table, w: nat, listed: set<nat>, p: nat) {
    Gone(t, w, listed, p) && !t[p].floating
  }

  /** A pane `w`'s layout lists but the table places elsewhere. */
  predicate MovedIn(t: Table, w: nat, listed: set<nat>, p: nat) {
    p in t && p in listed && t[p].window != w
  }

  function Listed(panes: seq<nat>): set<nat> {
    set p <- panes
  }

  function UnplaceRows(t: Table, w: nat, panes: seq<nat>): Table {
    map p <- t | !Omitted(t, w, Listed(panes), p) && !MovedIn(t, w, Listed(panes), p) :: t[p]
  }

  function AddDistinct(s: seq<nat>, x: nat): (r: seq<nat>)
    ensures Listed(r) == Listed(s) + {x}
  {
    if x in s then s else s + [x]
  }

  /** The windows left by moved-in panes, reading `panes` in order. */
  function LeftWindows(t: Table, w: nat, panes: seq<nat>): (r: seq<nat>)
    ensures forall x :: x in r <==> exists p <- panes :: p in t && t[p].window != w && t[p].window == x
  {
    if panes == [] then []
    else
      var n := |panes| - 1;
      var p := panes[n];
      assert panes == panes[..n] + [p];
      var before := LeftWindows(t, w, panes[..n]);
      if p in t && t[p].window != w then AddDistinct(before, t[p].window) else before
  }

  function UnplaceResult(t: Table, w: nat, panes: seq<nat>): Contradiction {
    Contradiction(LeftWindows(t, w, panes), exists p <- t :: Omitted(t, w, Listed(panes), p))
  }

  // ---------------------------------------------------------------------------------------
  // What the scans mean
  // ---------------------------------------------------------------------------------------

  /** No row of `t` says anything a layout of `w` denies. */
  ghost predicate Agrees(t: Table, w: nat, panes: seq<nat>) {
    forall p <- t ::
      (t[p].window == w && !t[p].floating ==> p in panes) && (p in panes ==> t[p].window == w)
  }

  /** Unplacing keeps exactly the rows the layout does not deny, and reports when it lost any. */
  lemma UnplaceIsExact(t: Table, w: nat, panes: seq<nat>)
    ensures var u := UnplaceRows(t, w, panes);
            && Agrees(u, w, panes)
            && (forall p <- u :: p in t && u[p] == t[p])
            && (forall p <- t :: p !in u ==> !Agrees(map[p := t[p]], w, panes))
            && (u == t <==> UnplaceResult(t, w, panes) == Contradiction([], false))
  {
    var u := UnplaceRows(t, w, panes);
    forall p <- t | p !in u ensures !Agrees(map[p := t[p]], w, panes) {
      var one: Table := map[p := t[p]];
      assert p in one;
    }
    NothingLeftIff(t, w, panes);
    assert u == t <==> forall p <- t :: !Omitted(t, w, Listed(panes), p) && !MovedIn(t, w, Listed(panes), p);
    assert (forall p <- t :: !MovedIn(t, w, Listed(panes), p)) <==> (forall p <- panes :: p in t ==> t[p].window == w);
  }

  lemma {:induction false} NothingLeftIff(t: Table, w: nat, panes: seq<nat>)
    ensures LeftWindows(t, w, panes) == [] <==> forall p <- panes :: p in t ==> t[p].window == w
  {
    if panes != [] {
      var n := |panes| - 1;
      assert panes == panes[..n] + [panes[n]];
      NothingLeftIff(t, w, panes[..n]);
    }
  }

  /** Unplacing for one layout cannot revive a row another layout denies. */
  lemma UnplaceKeepsAgreement(t: Table, w: nat, panes: seq<nat>, w': nat, panes': seq<nat>)
    requires Agrees(t, w', panes')
    ensures Agrees(UnplaceRows(t, w, panes), w', panes')
  {
  }

  /** After a refresh, the panes placed in `w` are exactly those its reply lists. */
  lemma UpdateIsExact(t: Table, w: nat, entries: seq<Entry>)
    ensures var u := UpdateRows(t, w, entries);
            && (forall p <- u :: u[p].window == w <==> p in PanesOf(entries))
            && (forall p :: p !in PanesOf(entries) && p in u ==> p in t && u[p] == t[p])
            && (forall p <- t :: p !in u <==> t[p].window == w && p !in PanesOf(entries))
            && PanesOf(entries) <= u.Keys
  {
    var kept: Table := map p <- t | !Gone(t, w, PanesOf(entries), p) :: t[p];
    var rows := Relocate(entries, w);
    var u := WriteRows(kept, rows);
    forall p <- u ensures u[p].window == w <==> p in PanesOf(entries) {
      if p in PanesOf(entries) {
        var e :| e in rows && e.pane == p && u[p] == Placed(e.session, e.window, e.floating);
        assert e.window == w;
      } else {
        assert u[p] == kept[p] == t[p];
        assert !Gone(t, w, PanesOf(entries), p);
      }
    }
  }

  // ---------------------------------------------------------------------------------------
  // The class
  // ---------------------------------------------------------------------------------------

  class PaneTopologyManager {
    var table: Table
    var windowIndex: map<nat, set<nat>>

    /** The lagging index: every placed pane is listed under its window; extra listings are allowed. */
    ghost predicate Valid()
      reads this
    {
      Covers(table, windowIndex)
    }

    static ghost predicate Covers(t: Table, index: map<nat, set<nat>>) {
      forall p <- t :: t[p].window in index && p in index[t[p].window]
    }

    constructor ()
      ensures Valid() && table == map[]
    {
      table, windowIndex := map[], map[];
    }

    method Seed(entries: seq<Entry>)
      modifies this
      ensures Valid() && table == SeedRows(entries)
    {
      table, windowIndex := map[], map[];
      for i := 0 to |entries|
        invariant Valid()
        invariant table == SeedRows(entries[..i])
      {
        var e := entries[i];
        var panes := if e.window in windowIndex then windowIndex[e.window] else {};
        table := table[e.pane := Placed(e.session, e.window, e.floating)];
        windowIndex := windowIndex[e.window := panes + {e.pane}];
        assert entries[..i + 1][..i] == entries[..i];
      }
      assert entries[..|entries|] == entries;
    }

    /** Every pane the table maps to `w` is found through the index. */
    method Indexed(w: nat) returns (panes: set<nat>)
      requires Valid()
      ensures forall p <- table :: table[p].window == w ==> p in panes
      ensures panes == if w in windowIndex then windowIndex[w] else {}
    {
      panes := if w in windowIndex then windowIndex[w] else {};
    }

    method RemoveWindow(w: nat)
      requires Valid()
      modifies this
      ensures Valid()
      ensures table == RowsOutside(old(table), w)
    {
      if w !in windowIndex {
        return;
      }
      var todo := windowIndex[w];
      while todo != {}
        invariant windowIndex == old(windowIndex)
        invariant forall p <- table :: p in old(table) && table[p] == old(table)[p]
        invariant forall p <- old(table) :: old(table)[p].window != w || p in todo ==> p in table
        invariant forall p <- table :: table[p].window == w ==> p in todo
        decreases |todo|
      {
        var p :| p in todo;
        if p in table && table[p].window == w {
          table := table - {p};
        }
        todo := todo - {p};
      }
      windowIndex := windowIndex - {w};
    }

    /** First loop of a window update: delete the panes the reply no longer lists. */
    method DropGone(w: nat, next: set<nat>) returns (lostTrack: bool)
      requires Valid()
      modifies this`table
      ensures table == map p <- old(table) | !Gone(old(table), w, next, p) :: old(table)[p]
      ensures lostTrack <==> exists p <- old(table) :: Gone(old(table), w, next, p) && !old(table)[p].floating
    {
      ghost var t0 := table;
      ghost var lost: set<nat> := {};
      lostTrack := false;
      var todo := Indexed(w);
      while todo != {}
        invariant forall p <- table :: p in t0 && table[p] == t0[p]
        invariant forall p <- t0 :: p in table <==> !Gone(t0, w, next, p) || p in todo
        invariant forall p <- lost :: p in t0 && Gone(t0, w, next, p) && !t0[p].floating
        invariant forall p <- t0 :: Gone(t0, w, next, p) && !t0[p].floating ==> p in todo || p in lost
        invariant lostTrack <==> lost != {}
        decreases |todo|
      {
        var p :| p in todo;
        if p !in next && p in table && table[p].window == w {
          if !table[p].floating {
            lostTrack := true;
            lost := lost + {p};
          }
          table := table - {p};
        }
        todo := todo - {p};
      }
      if lostTrack {
        ghost var p :| p in lost;
      }
    }

    method UpdateWindow(w: nat, entries: seq<Entry>) returns (c: Contradiction)
      requires Valid()
      modifies this
      ensures Valid()
      ensures table == UpdateRows(old(table), w, entries)
      ensures c == Contradiction([], UpdateLoses(old(table), w, entries))
    {
      ghost var t0, index0 := table, windowIndex;
      var next := PanesOf(entries);
      var lostTrack := DropGone(w, next);
      ghost var kept := table;
      ghost var rows := Relocate(entries, w);
      for i := 0 to |entries|
        invariant windowIndex == index0
        invariant table == WriteRows(kept, rows[..i])
      {
        var e := entries[i];
        table := table[e.pane := Placed(e.session, w, e.floating)];
        assert rows[..i + 1][..i] == rows[..i];
      }
      assert rows[..|entries|] == rows;
      if next == {} {
        windowIndex := windowIndex - {w};
      } else {
        windowIndex := windowIndex[w := next];
      }
      UpdateKeepsCover(t0, index0, w, entries);
      c := Contradiction([], lostTrack);
    }

    static lemma UpdateKeepsCover(t: Table, index: map<nat, set<nat>>, w: nat, entries: seq<Entry>)
      requires Covers(t, index)
      ensures var next := PanesOf(entries);
              Covers(UpdateRows(t, w, entries), if next == {} then index - {w} else index[w := next])
    {
      UpdateIsExact(t, w, entries);
    }

    /** First loop of an unplacing: delete the tiled panes the layout omits. */
    method DropOmitted(w: nat, listed: set<nat>) returns (lostTrack: bool)
      requires Valid()
      modifies this`table
      ensures table == map p <- old(table) | !Omitted(old(table), w, listed, p) :: old(table)[p]
      ensures lostTrack <==> exists p <- old(table) :: Omitted(old(table), w, listed, p)
    {
      ghost var t0 := table;
      lostTrack := false;
      var todo := Indexed(w);
      while todo != {}
        invariant forall p <- table :: p in t0 && table[p] == t0[p]
        invariant forall p <- t0 :: p in table <==> !Omitted(t0, w, listed, p) || p in todo
        invariant lostTrack <==> table != t0
        decreases |todo|
      {
        var p :| p in todo;
        if p !in listed && p in table && table[p].window == w && !table[p].floating {
          table := table - {p};
          lostTrack := true;
        }
        todo := todo - {p};
      }
    }

    /** Second loop of an unplacing: delete the listed panes placed elsewhere. */
    method DropMovedIn(w: nat, panes: seq<nat>) returns (lost: seq<nat>)
      requires Valid()
      modifies this`table
      ensures table == map p <- old(table) | !MovedIn(old(table), w, Listed(panes), p) :: old(table)[p]
      ensures lost == LeftWindows(old(table), w, panes)
    {
      ghost var t0 := table;
      lost := [];
      for i := 0 to |panes|
        invariant forall p <- table :: p in t0 && table[p] == t0[p]
        invariant forall p <- t0 :: p in table <==> !MovedIn(t0, w, Listed(panes[..i]), p)
        invariant lost == LeftWindows(t0, w, panes[..i])
      {
        var p := panes[i];
        assert panes[..i + 1][..i] == panes[..i];
        assert Listed(panes[..i + 1]) == Listed(panes[..i]) + {p};
        if p in table && table[p].window != w {
          lost := AddDistinct(lost, table[p].window);
          table := table - {p};
        } else if p in t0 && t0[p].window != w {
          assert t0[p].window in LeftWindows(t0, w, panes[..i]);
        }
      }
      assert panes[..|panes|] == panes;
    }

    method UnplaceContradicted(w: nat, panes: seq<nat>) returns (c: Contradiction)
      requires Valid()
      modifies this`table
      ensures Valid()
      ensures table == UnplaceRows(old(table), w, panes)
      ensures c == UnplaceResult(old(table), w, panes)
    {
      ghost var t0 := table;
      var lostTrack := DropOmitted(w, Listed(panes));
      ghost var t1 := table;
      var lost := DropMovedIn(w, panes);
      assert table == UnplaceRows(t0, w, panes);
      OmissionsLeaveMovedIn(t0, w, Listed(panes), panes);
      c := Contradiction(lost, lostTrack);
    }
  }

  /** Dropping omitted panes changes no row of a listed pane. */
  lemma {:induction false} OmissionsLeaveMovedIn(t: Table, w: nat, listed: set<nat>, panes: seq<nat>)
    requires Listed(panes) <= listed
    ensures LeftWindows(map p <- t | !Omitted(t, w, listed, p) :: t[p], w, panes) == LeftWindows(t, w, panes)
  {
    if panes != [] {
      var n := |panes| - 1;
      assert panes == panes[..n] + [panes[n]];
      OmissionsLeaveMovedIn(t, w, listed, panes[..n]);
    }
  }
}

/**
 * `Dashboard.auto_panel_ids`: every panel whose `id` is unset or 0 gets
 * the next whole number from 1, 2, ... that no panel already holds, in
 * row-then-panel order, from one counter shared by all rows.
 */
module PanelIds {
  import opened Wire
  import opened Panels
  import opened Rows
  import opened Dashboards

  /** `if panel.id`: an id counts when it is set and is not 0. */
  predicate HasId(p: Panel) {
    PanelId(p).Some? && PanelId(p).value != 0
  }

  /** `Dashboard._iter_panels`: the panels of every row, row by row. */
  function DashboardPanels(rows: seq<Row>): (ps: seq<Panel>)
    ensures forall i, j | 0 <= i < |rows| && 0 <= j < |rows[i].panels| :: rows[i].panels[j] in ps
    ensures forall p | p in ps :: exists i | 0 <= i < |rows| :: p in rows[i].panels
    decreases |rows|
  {
    if rows == [] then [] else DashboardPanels(rows[..|rows| - 1]) + rows[|rows| - 1].panels
  }

  /** `set([panel.id for panel in self._iter_panels() if panel.id])`. */
  function TakenIds(ps: seq<Panel>): (ids: set<int>)
    ensures 0 !in ids
    ensures forall i | 0 <= i < |ps| && HasId(ps[i]) :: PanelId(ps[i]).value in ids
    decreases |ps|
  {
    if ps == [] then {}
    else
      var last := ps[|ps| - 1];
      TakenIds(ps[..|ps| - 1]) + if HasId(last) then {PanelId(last).value} else {}
  }

  /** The ids held in two lists one after the other are those held in either. */
  lemma {:induction false} TakenIdsConcat(a: seq<Panel>, b: seq<Panel>)
    ensures TakenIds(a + b) == TakenIds(a) + TakenIds(b)
    decreases |b|
  {
    if b != [] {
      TakenIdsConcat(a, b[..|b| - 1]);
      assert (a + b)[..|a + b| - 1] == a + b[..|b| - 1];
    } else {
      assert a + b == a;
    }
  }

  /** What `next(auto_ids)` yields once the counter stands at `n`: the least `k >= n` not in `ids`. */
  function NextFree(ids: set<int>, n: int): (k: int)
    ensures n <= k && k !in ids
    ensures forall j | n <= j < k :: j in ids
    decreases |ids|
  {
    if n in ids then
      var k := NextFree(ids - {n}, n + 1);
      assert forall j | n <= j < k :: j in ids by {
        forall j | n <= j < k
          ensures j in ids
        {
          if j != n {
            assert j in ids - {n};
          }
        }
      }
      k
    else n
  }

  /** The least number at least `n` outside `ids` is the only one with those properties. */
  lemma NextFreeUnique(ids: set<int>, n: int, k: int)
    requires n <= k && k !in ids && forall j | n <= j < k :: j in ids
    ensures NextFree(ids, n) == k
  {
    var f := NextFree(ids, n);
    assert !(f < k) && !(k < f);
  }

  /** The generator skips a number that is taken. */
  lemma NextFreeSkip(ids: set<int>, n: int)
    requires n in ids
    ensures NextFree(ids, n + 1) == NextFree(ids, n)
  {
    NextFreeUnique(ids, n + 1, NextFree(ids, n));
  }

  /** The panels with their ids set, and where the counter stands after them. */
  datatype Assigned = Assigned(panels: seq<Panel>, next: int)

  /**
   * `set_id` mapped over `ps` with the counter at `next`: a panel with an
   * id is kept, any other gets the next free number. Each new id lies
   * between the counter's old and new positions and is not taken.
   */
  function AssignIds(ps: seq<Panel>, ids: set<int>, next: int): (r: Assigned)
    ensures |r.panels| == |ps| && next <= r.next
    ensures forall i | 0 <= i < |ps| && HasId(ps[i]) :: r.panels[i] == ps[i]
    ensures forall i | 0 <= i < |ps| && !HasId(ps[i]) ::
      PanelId(r.panels[i]).Some? && r.panels[i] == WithId(ps[i], PanelId(r.panels[i])) &&
      next <= PanelId(r.panels[i]).value < r.next && PanelId(r.panels[i]).value !in ids
    decreases |ps|
  {
    if ps == [] then Assigned([], next)
    else AssignStep(AssignIds(ps[..|ps| - 1], ids, next), ps[|ps| - 1], ids)
  }

  /** `set_id` on one more panel: kept when it has an id, otherwise given the next free number. */
  function AssignStep(prev: Assigned, p: Panel, ids: set<int>): Assigned {
    if HasId(p) then Assigned(prev.panels + [p], prev.next)
    else
      var k := NextFree(ids, prev.next);
      Assigned(prev.panels + [WithId(p, Some(k))], k + 1)
  }

  /** The rows with their panels' ids set, and where the counter stands after them. */
  datatype AssignedRows = AssignedRows(rows: seq<Row>, next: int)

  /**
   * `_map_panels(set_id)` over `rows`, the one counter running on from
   * row to row. `attr.assoc` replaces the panels and nothing else.
   */
  function AssignRowIds(rows: seq<Row>, ids: set<int>, next: int): (r: AssignedRows)
    ensures |r.rows| == |rows| && next <= r.next
    ensures forall i | 0 <= i < |rows| ::
      r.rows[i] == rows[i].(panels := r.rows[i].panels) && |r.rows[i].panels| == |rows[i].panels|
    decreases |rows|
  {
    if rows == [] then AssignedRows([], next)
    else
      var prev := AssignRowIds(rows[..|rows| - 1], ids, next);
      var row := rows[|rows| - 1];
      var a := AssignIds(row.panels, ids, prev.next);
      AssignedRows(prev.rows + [row.(panels := a.panels)], a.next)
  }

  /** What `auto_panel_ids` returns: the counter starts at 1, the taken ids are those of all panels. */
  function WithPanelIds(b: Dashboard): (r: Dashboard)
    ensures r.(rows := b.rows) == b && |r.rows| == |b.rows|
    ensures forall i | 0 <= i < |b.rows| ::
      r.rows[i] == b.rows[i].(panels := r.rows[i].panels) && |r.rows[i].panels| == |b.rows[i].panels|
  {
    b.(rows := AssignRowIds(b.rows, TakenIds(DashboardPanels(b.rows)), 1).rows)
  }

  /**
   * The first line of `auto_panel_ids`: the ids held, collected row by
   * row and panel by panel, with a bound above all of them.
   */
  method CollectIds(rows: seq<Row>) returns (ids: set<int>, top: int)
    ensures ids == TakenIds(DashboardPanels(rows))
    ensures forall x | x in ids :: x < top
  {
    ids := {};
    top := 1;
    for r := 0 to |rows|
      invariant ids == TakenIds(DashboardPanels(rows[..r]))
      invariant forall x | x in ids :: x < top
    {
      var ps := rows[r].panels;
      ghost var held := ids;
      for j := 0 to |ps|
        invariant ids == held + TakenIds(ps[..j])
        invariant forall x | x in ids :: x < top
      {
        assert ps[..j + 1][..j] == ps[..j];
        if HasId(ps[j]) {
          var id := PanelId(ps[j]).value;
          ids := ids + {id};
          if id >= top {
            top := id + 1;
          }
        }
      }
      assert ps[..|ps|] == ps;
      assert rows[..r + 1][..r] == rows[..r];
      TakenIdsConcat(DashboardPanels(rows[..r]), ps);
    }
    assert rows[..|rows|] == rows;
  }

  /**
   * `set_id` over one row's panels: a panel with an id is kept; any other
   * takes `next(auto_ids)`, the counter first moving past taken numbers.
   */
  method NumberPanels(ps: seq<Panel>, ids: set<int>, top: int, start: int) returns (out: seq<Panel>, next: int)
    requires forall x | x in ids :: x < top
    ensures AssignIds(ps, ids, start) == Assigned(out, next)
  {
    out := [];
    next := start;
    for j := 0 to |ps|
      invariant AssignIds(ps[..j], ids, start) == Assigned(out, next)
    {
      assert ps[..j + 1][..j] == ps[..j];
      var p := ps[j];
      ghost var step := AssignStep(Assigned(out, next), p, ids);
      assert AssignIds(ps[..j + 1], ids, start) == step;
      if HasId(p) {
        out := out + [p];
      } else {
        ghost var want := NextFree(ids, next);
        while next in ids
          invariant NextFree(ids, next) == want
          decreases top - next
        {
          NextFreeSkip(ids, next);
          next := next + 1;
        }
        out := out + [WithId(p, Some(next))];
        next := next + 1;
      }
      assert Assigned(out, next) == step;
    }
    assert ps[..|ps|] == ps;
  }

  /**
   * `Dashboard.auto_panel_ids` as written: the ids held are collected,
   * then each row's panels are numbered, one counter running on from row
   * to row.
   */
  method AutoPanelIds(b: Dashboard) returns (result: Dashboard)
    ensures result == WithPanelIds(b)
  {
    var ids, top := CollectIds(b.rows);
    var next := 1;
    var rows: seq<Row> := [];
    for r := 0 to |b.rows|
      invariant AssignRowIds(b.rows[..r], ids, 1) == AssignedRows(rows, next)
    {
      var row := b.rows[r];
      var out;
      out, next := NumberPanels(row.panels, ids, top, next);
      assert b.rows[..r + 1][..r] == b.rows[..r];
      rows := rows + [row.(panels := out)];
    }
    assert b.rows[..|b.rows|] == b.rows;
    result := b.(rows := rows);
  }

  // ---------------------------------------------------------------------
  // What the numbering guarantees
  // ---------------------------------------------------------------------

  /** Numbering two lists one after the other, the counter running on, numbers their concatenation. */
  lemma {:induction false} AssignIdsConcat(a: seq<Panel>, b: seq<Panel>, ids: set<int>, n: int)
    ensures AssignIds(a + b, ids, n)
      == Assigned(AssignIds(a, ids, n).panels + AssignIds(b, ids, AssignIds(a, ids, n).next).panels,
                  AssignIds(b, ids, AssignIds(a, ids, n).next).next)
    decreases |b|
  {
    if b == [] {
      assert a + b == a;
      assert AssignIds(a, ids, n).panels + [] == AssignIds(a, ids, n).panels;
    } else {
      var front := b[..|b| - 1];
      var last := b[|b| - 1];
      AssignIdsConcat(a, front, ids, n);
      assert (a + b)[..|a + b| - 1] == a + front && (a + b)[|a + b| - 1] == last;
      var x := AssignIds(a, ids, n);
      var y := AssignIds(front, ids, x.next);
      assert AssignIds(a + b, ids, n) == AssignStep(Assigned(x.panels + y.panels, y.next), last, ids);
      assert AssignIds(b, ids, x.next) == AssignStep(y, last, ids);
      AssignStepPrefix(x.panels, y, last, ids);
    }
  }

  /** A step appends to the panels, so panels numbered before it stay in front. */
  lemma AssignStepPrefix(front: seq<Panel>, y: Assigned, p: Panel, ids: set<int>)
    ensures AssignStep(Assigned(front + y.panels, y.next), p, ids)
      == Assigned(front + AssignStep(y, p, ids).panels, AssignStep(y, p, ids).next)
  {
    var q := if HasId(p) then p else WithId(p, Some(NextFree(ids, y.next)));
    assert front + (y.panels + [q]) == (front + y.panels) + [q];
  }

  /** Numbering row by row numbers the list of all panels in row-then-panel order. */
  lemma {:induction false} AssignRowsFlat(rows: seq<Row>, ids: set<int>, n: int)
    ensures DashboardPanels(AssignRowIds(rows, ids, n).rows) == AssignIds(DashboardPanels(rows), ids, n).panels
    ensures AssignRowIds(rows, ids, n).next == AssignIds(DashboardPanels(rows), ids, n).next
    decreases |rows|
  {
    if rows != [] {
      var front := rows[..|rows| - 1];
      var row := rows[|rows| - 1];
      AssignRowsFlat(front, ids, n);
      var prev := AssignRowIds(front, ids, n);
      var a := AssignIds(row.panels, ids, prev.next);
      var out := prev.rows + [row.(panels := a.panels)];
      assert out[..|out| - 1] == prev.rows;
      AssignIdsConcat(DashboardPanels(front), row.panels, ids, n);
    }
  }

  /** The numbers handed out grow strictly in the order the panels come. */
  lemma {:induction false} AssignedIncreasing(ps: seq<Panel>, ids: set<int>, n: int)
    ensures var r := AssignIds(ps, ids, n);
      forall i, j | 0 <= i < j < |ps| && !HasId(ps[i]) && !HasId(ps[j]) ::
        PanelId(r.panels[i]).value < PanelId(r.panels[j]).value
    decreases |ps|
  {
    if ps != [] {
      var front := ps[..|ps| - 1];
      AssignedIncreasing(front, ids, n);
      var prev := AssignIds(front, ids, n);
      var r := AssignIds(ps, ids, n);
      assert r.panels[..|ps| - 1] == prev.panels;
      forall i, j | 0 <= i < j < |ps| && !HasId(ps[i]) && !HasId(ps[j])
        ensures PanelId(r.panels[i]).value < PanelId(r.panels[j]).value
      {
        assert front[i] == ps[i] && r.panels[i] == prev.panels[i];
        if j < |ps| - 1 {
          assert front[j] == ps[j] && r.panels[j] == prev.panels[j];
        }
      }
    }
  }

  /** The numbers given to the panels of `ps` that had no id, as they stand in `qs`. */
  function NewIds(ps: seq<Panel>, qs: seq<Panel>): set<int>
    requires |ps| == |qs|
  {
    set i | 0 <= i < |ps| && !HasId(ps[i]) && PanelId(qs[i]).Some? :: PanelId(qs[i]).value
  }

  /**
   * No number is skipped: every number from the counter's start up to
   * where it ends that is not taken was handed out.
   */
  lemma {:induction false} AssignedNoGaps(ps: seq<Panel>, ids: set<int>, n: int)
    ensures var r := AssignIds(ps, ids, n);
      forall m | n <= m < r.next && m !in ids :: m in NewIds(ps, r.panels)
    decreases |ps|
  {
    if ps != [] {
      var front := ps[..|ps| - 1];
      var last := ps[|ps| - 1];
      AssignedNoGaps(front, ids, n);
      var prev := AssignIds(front, ids, n);
      var r := AssignIds(ps, ids, n);
      assert r == AssignStep(prev, last, ids);
      assert r.panels[..|front|] == prev.panels && ps[..|front|] == front;
      NewIdsGrow(front, prev.panels, ps, r.panels);
      forall m | n <= m < r.next && m !in ids
        ensures m in NewIds(ps, r.panels)
      {
        if m < prev.next {
          assert m in NewIds(front, prev.panels);
        } else {
          var k := NextFree(ids, prev.next);
          assert !HasId(last) && r.next == k + 1;
          assert m == k;
          assert r.panels[|front|] == WithId(last, Some(k));
          NewIdsMember(ps, r.panels, |front|);
        }
      }
    }
  }

  /** A panel that had no id and has one now contributes that id. */
  lemma NewIdsMember(ps: seq<Panel>, qs: seq<Panel>, i: nat)
    requires |ps| == |qs| && i < |ps| && !HasId(ps[i]) && PanelId(qs[i]).Some?
    ensures PanelId(qs[i]).value in NewIds(ps, qs)
  {
  }

  /** Numbers handed out to a prefix are still handed out once more panels follow. */
  lemma NewIdsGrow(ps: seq<Panel>, qs: seq<Panel>, ps': seq<Panel>, qs': seq<Panel>)
    requires |ps| == |qs| <= |ps'| == |qs'| && ps'[..|ps|] == ps && qs'[..|qs|] == qs
    ensures NewIds(ps, qs) <= NewIds(ps', qs')
  {
    forall x | x in NewIds(ps, qs)
      ensures x in NewIds(ps', qs')
    {
      var i :| 0 <= i < |ps| && !HasId(ps[i]) && PanelId(qs[i]).Some? && PanelId(qs[i]).value == x;
      assert ps'[i] == ps[i] && qs'[i] == qs[i];
    }
  }

  /**
   * `auto_panel_ids` keeps the rows and their other attributes, and the
   * number of panels in each row.
   */
  lemma AutoIdsKeepRows(b: Dashboard)
    ensures var rows := WithPanelIds(b).rows;
      |rows| == |b.rows| &&
      forall i | 0 <= i < |rows| :: rows[i] == b.rows[i].(panels := rows[i].panels) &&
        |rows[i].panels| == |b.rows[i].panels|
    ensures WithPanelIds(b) == b.(rows := WithPanelIds(b).rows)
  {
  }

  /**
   * Across all panels, in row-then-panel order: a panel with an id is
   * unchanged; any other gets an id that is positive, differs from every
   * id already held, and is the panel's only change.
   */
  lemma AutoIdsFresh(b: Dashboard)
    ensures var before := DashboardPanels(b.rows);
      var after := DashboardPanels(WithPanelIds(b).rows);
      |after| == |before| &&
      (forall i | 0 <= i < |before| && HasId(before[i]) :: after[i] == before[i]) &&
      (forall i | 0 <= i < |before| && !HasId(before[i]) ::
        HasId(after[i]) && PanelId(after[i]).value >= 1 && after[i] == WithId(before[i], PanelId(after[i])) &&
        forall j | 0 <= j < |before| && HasId(before[j]) :: PanelId(after[i]) != PanelId(before[j]))
  {
    var before := DashboardPanels(b.rows);
    var ids := TakenIds(before);
    AssignRowsFlat(b.rows, ids, 1);
  }

  /** The ids handed out grow strictly in row-then-panel order, so no two are alike. */
  lemma AutoIdsIncreasing(b: Dashboard)
    ensures var before := DashboardPanels(b.rows);
      var after := DashboardPanels(WithPanelIds(b).rows);
      |after| == |before| &&
      forall i, j | 0 <= i < j < |before| && !HasId(before[i]) && !HasId(before[j]) ::
        PanelId(after[i]).Some? && PanelId(after[j]).Some? && PanelId(after[i]).value < PanelId(after[j]).value
  {
    var before := DashboardPanels(b.rows);
    var ids := TakenIds(before);
    AssignRowsFlat(b.rows, ids, 1);
    AssignedIncreasing(before, ids, 1);
  }

  /**
   * The ids handed out are the first free ones: below any id handed out,
   * every positive number that no panel held was handed out too.
   */
  lemma AutoIdsNoGaps(b: Dashboard)
    ensures var before := DashboardPanels(b.rows);
      var after := DashboardPanels(WithPanelIds(b).rows);
      |after| == |before| &&
      forall i, m | 0 <= i < |before| && !HasId(before[i]) && PanelId(after[i]).Some? &&
        1 <= m < PanelId(after[i]).value &&
        m !in TakenIds(before) :: m in NewIds(before, after)
  {
    var before := DashboardPanels(b.rows);
    var ids := TakenIds(before);
    AssignRowsFlat(b.rows, ids, 1);
    AssignedNoGaps(before, ids, 1);
  }

  /**
   * Two rows holding panels with ids 2, unset, unset and 5: the unset ones
   * get 1 and 3, the ids 2 and 5 being taken.
   */
  lemma AutoIdsExample(b: Dashboard, r1: Row, r2: Row, p1: Panel, p2: Panel, p3: Panel, p4: Panel)
    requires b.rows == [r1, r2] && r1.panels == [p1, p2] && r2.panels == [p3, p4]
    requires PanelId(p1) == Some(2) && PanelId(p2).None? && PanelId(p3).None? && PanelId(p4) == Some(5)
    ensures WithPanelIds(b).rows == [r1.(panels := [p1, WithId(p2, Some(1))]), r2.(panels := [WithId(p3, Some(3)), p4])]
  {
    ExamplePanels(r1, r2, p1, p2, p3, p4);
    ExampleTaken(p1, p2, p3, p4);
    ExampleRows(r1, r2, p1, p2, p3, p4);
  }

  lemma ExampleRows(r1: Row, r2: Row, p1: Panel, p2: Panel, p3: Panel, p4: Panel)
    requires r1.panels == [p1, p2] && r2.panels == [p3, p4]
    requires PanelId(p1) == Some(2) && PanelId(p2).None? && PanelId(p3).None? && PanelId(p4) == Some(5)
    ensures AssignRowIds([r1, r2], {2, 5}, 1).rows
      == [r1.(panels := [p1, WithId(p2, Some(1))]), r2.(panels := [WithId(p3, Some(3)), p4])]
  {
    assert [r1, r2][..1] == [r1] && [r1][..0] == [];
    ExampleFirst(p1, p2);
    ExampleSecond(p3, p4);
    var q1 := r1.(panels := [p1, WithId(p2, Some(1))]);
    assert AssignRowIds([r1], {2, 5}, 1) == AssignedRows([q1], 2);
  }

  lemma ExampleFirst(p1: Panel, p2: Panel)
    requires PanelId(p1) == Some(2) && PanelId(p2).None?
    ensures AssignIds([p1, p2], {2, 5}, 1) == Assigned([p1, WithId(p2, Some(1))], 2)
  {
    assert [p1, p2][..1] == [p1] && [p1][..0] == [];
    assert AssignIds([p1], {2, 5}, 1) == Assigned([p1], 1);
    assert !HasId(p2) && NextFree({2, 5}, 1) == 1;
  }

  lemma ExampleSecond(p3: Panel, p4: Panel)
    requires PanelId(p3).None? && PanelId(p4) == Some(5)
    ensures AssignIds([p3, p4], {2, 5}, 2) == Assigned([WithId(p3, Some(3)), p4], 4)
  {
    var ids: set<int> := {2, 5};
    assert [p3, p4][..1] == [p3] && [p3][..0] == [];
    assert NextFree(ids - {2}, 3) == 3;
    assert NextFree(ids, 2) == 3;
    assert AssignIds([p3], ids, 2) == Assigned([WithId(p3, Some(3))], 4);
    assert HasId(p4);
  }

  lemma ExamplePanels(r1: Row, r2: Row, p1: Panel, p2: Panel, p3: Panel, p4: Panel)
    requires r1.panels == [p1, p2] && r2.panels == [p3, p4]
    ensures DashboardPanels([r1, r2]) == [p1, p2, p3, p4]
  {
    assert [r1, r2][..1] == [r1] && [r1][..0] == [];
    assert DashboardPanels([r1]) == [p1, p2];
  }

  lemma ExampleTaken(p1: Panel, p2: Panel, p3: Panel, p4: Panel)
    requires PanelId(p1) == Some(2) && PanelId(p2).None? && PanelId(p3).None? && PanelId(p4) == Some(5)
    ensures TakenIds([p1, p2, p3, p4]) == {2, 5}
  {
    assert [p1, p2] + [p3, p4] == [p1, p2, p3, p4] && [p1] + [p2] == [p1, p2] && [p3] + [p4] == [p3, p4];
    TakenIdsConcat([p1, p2], [p3, p4]);
    TakenIdsConcat([p1], [p2]);
    TakenIdsConcat([p3], [p4]);
    assert [p1][..0] == [] && [p3][..0] == [] && [p2][..0] == [] && [p4][..0] == [];
    assert TakenIds([p1]) == {2} && TakenIds([p2]) == {} && TakenIds([p3]) == {} && TakenIds([p4]) == {5};
  }
}

/** The cursor delta protocol of a field device (internal/modules/field/handler.go). */
module FieldPull {
  import opened Prelude

  /** A row of the append-only change log; its id is the sync cursor. A row without a representative is global. */
  datatype Row = Row(id: int, org: int, rep: Option<int>, entity: string, entityId: int)

  datatype Scope = Scope(org: int, rep: int)

  const PULL_BATCH: nat := 200

  predicate InScope(r: Row, sc: Scope) { r.org == sc.org && (r.rep == Some(sc.rep) || r.rep.None?) }

  /** Row ids grow in log order. */
  ghost predicate Ascending(rows: seq<Row>) {
    rows == [] || (Ascending(rows[..|rows| - 1]) && AllBelow(rows[..|rows| - 1], rows[|rows| - 1].id))
  }

  ghost predicate AllBelow(rows: seq<Row>, id: int) { forall i | 0 <= i < |rows| :: rows[i].id < id }

  /** A row becomes visible at the place of its id, which need not be the end: overlapping transactions may commit in
      another order than they drew their ids. */
  function Insert(log: seq<Row>, r: Row): seq<Row> {
    if log == [] || log[|log| - 1].id < r.id then log + [r]
    else Insert(log[..|log| - 1], r) + [log[|log| - 1]]
  }

  function InsertAll(log: seq<Row>, rows: seq<Row>): seq<Row> {
    if rows == [] then log else Insert(InsertAll(log, rows[..|rows| - 1]), rows[|rows| - 1])
  }

  // ---- query contracts ----------------------------------------------------

  function Visible(log: seq<Row>, sc: Scope): seq<Row> {
    if log == [] then []
    else Visible(log[..|log| - 1], sc) + if InScope(log[|log| - 1], sc) then [log[|log| - 1]] else []
  }

  function After(rows: seq<Row>, since: int): seq<Row> {
    if rows == [] then []
    else After(rows[..|rows| - 1], since) + if rows[|rows| - 1].id > since then [rows[|rows| - 1]] else []
  }

  function Batch(rows: seq<Row>): seq<Row> { if |rows| <= PULL_BATCH then rows else rows[..PULL_BATCH] }

  /** PullChanges: in-scope rows beyond the cursor, ascending, at most a batch. */
  function PullChanges(log: seq<Row>, sc: Scope, since: int): seq<Row> { Batch(After(Visible(log, sc), since)) }

  function LastId(rows: seq<Row>, since: int): int { if rows == [] then since else rows[|rows| - 1].id }

  /** MaxScopedCursor: the largest in-scope id, or the given cursor when there is none. */
  function MaxScopedCursor(log: seq<Row>, sc: Scope, since: int): int { LastId(Visible(log, sc), since) }

  // ---- the handler --------------------------------------------------------

  /** The cursor after delivering a batch, with the high-water mark read afterwards. */
  function Advance(batch: seq<Row>, highWater: int, since: int): int {
    var cursor := LastId(batch, since);
    if |batch| < PULL_BATCH && highWater > cursor then highWater else cursor
  }

  /** The cursor returned by a pull whose two queries see `log` and then `later`. */
  function NextCursor(log: seq<Row>, later: seq<Row>, sc: Scope, since: int): int {
    Advance(PullChanges(log, sc, since), MaxScopedCursor(later, sc, since), since)
  }

  class SyncServer {
    var log: seq<Row>
    var deviceCursor: map<int, int>

    constructor ()
      ensures log == [] && deviceCursor == map[]
    {
      log, deviceCursor := [], map[];
    }

    /** pull; `between` are the rows that become visible between its two queries. */
    method Pull(sc: Scope, device: int, since: int, between: seq<Row>) returns (changes: seq<Row>, cursor: int)
      modifies this
      ensures log == InsertAll(old(log), between)
      ensures changes == PullChanges(old(log), sc, since) && cursor == NextCursor(old(log), log, sc, since)
      ensures deviceCursor == old(deviceCursor)[device := cursor]
    {
      var rows := PullChanges(log, sc, since);
      changes, cursor := [], since;
      for i := 0 to |rows|
        invariant changes == rows[..i] && cursor == LastId(rows[..i], since)
        invariant log == old(log) && deviceCursor == old(deviceCursor)
      {
        changes := changes + [rows[i]];
        cursor := rows[i].id;
      }
      log := InsertAll(log, between);
      if |rows| < PULL_BATCH {
        var hw := MaxScopedCursor(log, sc, since);
        if hw > cursor { cursor := hw; }
      }
      deviceCursor := deviceCursor[device := cursor];
    }
  }

  // ---- the query as a cut of the visible rows -----------------------------

  function UpTo(rows: seq<Row>, c: int): nat {
    if rows == [] then 0 else UpTo(rows[..|rows| - 1], c) + if rows[|rows| - 1].id <= c then 1 else 0
  }

  /** In an ascending log the rows beyond a cursor are a suffix, cut exactly at the cursor. */
  lemma {:induction false} CutAt(rows: seq<Row>, c: int)
    requires Ascending(rows)
    ensures UpTo(rows, c) <= |rows| && After(rows, c) == rows[UpTo(rows, c)..]
    ensures forall i | 0 <= i < |rows| :: rows[i].id <= c <==> i < UpTo(rows, c)
  {
    CutIds(rows, c);
    CutSuffix(rows, c);
  }

  lemma {:induction false} CutIds(rows: seq<Row>, c: int)
    requires Ascending(rows)
    ensures UpTo(rows, c) <= |rows|
    ensures forall i | 0 <= i < |rows| :: rows[i].id <= c <==> i < UpTo(rows, c)
  {
    if rows != [] {
      var n := |rows| - 1;
      CutIds(rows[..n], c);
      assert forall i | 0 <= i < n :: rows[..n][i] == rows[i];
      if rows[n].id <= c && n > 0 { assert rows[..n][n - 1].id <= c; }
    }
  }

  lemma {:induction false} CutSuffix(rows: seq<Row>, c: int)
    requires Ascending(rows)
    ensures UpTo(rows, c) <= |rows| && After(rows, c) == rows[UpTo(rows, c)..]
  {
    CutIds(rows, c);
    if rows != [] {
      var n := |rows| - 1;
      CutSuffix(rows[..n], c);
      var u := UpTo(rows[..n], c);
      if rows[n].id <= c {
        assert u == n;
      } else {
        assert rows[u..] == rows[..n][u..] + [rows[n]];
      }
    }
  }

  lemma {:induction false} CutUnique(rows: seq<Row>, c: int, k: nat)
    requires Ascending(rows) && k <= |rows|
    requires (k > 0 ==> rows[k - 1].id <= c) && (k < |rows| ==> c < rows[k].id)
    ensures UpTo(rows, c) == k
  {
    CutAt(rows, c);
    assert k > 0 ==> k - 1 < UpTo(rows, c);
    assert k < |rows| ==> !(k < UpTo(rows, c));
  }

  lemma {:induction false} VisibleAscending(log: seq<Row>, sc: Scope)
    requires Ascending(log)
    ensures Ascending(Visible(log, sc))
    ensures forall id | AllBelow(log, id) :: AllBelow(Visible(log, sc), id)
  {
    if log != [] {
      var n := |log| - 1;
      var v := Visible(log[..n], sc);
      VisibleAscending(log[..n], sc);
      hide AllBelow;
      assert (v + [log[n]])[..|v|] == v && v + [] == v;
    }
    hide Ascending, Visible;
    forall id | AllBelow(log, id) ensures AllBelow(Visible(log, sc), id) { VisibleBelow(log, sc, id); }
  }

  lemma {:induction false} VisibleBelow(log: seq<Row>, sc: Scope, id: int)
    requires AllBelow(log, id)
    ensures AllBelow(Visible(log, sc), id)
  {
    VisibleIn(log, sc);
    BelowIn(log, id);
    hide *;
    BelowIn(Visible(log, sc), id);
  }

  lemma {:induction false} AscendingPrefix(a: seq<Row>, b: seq<Row>)
    requires Ascending(a + b)
    ensures Ascending(a)
  {
    if b == [] {
      assert a + b == a;
    } else {
      assert (a + b)[..|a + b| - 1] == a + b[..|b| - 1];
      AscendingPrefix(a, b[..|b| - 1]);
    }
  }

  /** Without concurrent appends the catch-up step never moves the cursor: the returned cursor is the last
      delivered id, or the old cursor when there was nothing to deliver. */
  lemma {:induction false} CatchUpIdle(log: seq<Row>, sc: Scope, since: int)
    requires Ascending(log)
    ensures NextCursor(log, log, sc, since) == LastId(PullChanges(log, sc, since), since)
  {
    VisibleAscending(log, sc);
    CutAt(Visible(log, sc), since);
  }

  /** The delivered rows are a stretch of the visible ones from the cursor on. */
  lemma {:induction false} PullIsCut(log: seq<Row>, sc: Scope, since: int)
    requires Ascending(log)
    ensures var v, rows := Visible(log, sc), PullChanges(log, sc, since);
            var u := UpTo(v, since);
            Ascending(v) && u + |rows| <= |v| && rows == v[u..u + |rows|] && since <= LastId(rows, since) &&
            (|rows| < PULL_BATCH ==> u + |rows| == |v|)
  {
    VisibleAscending(log, sc);
    var v := Visible(log, sc);
    hide Ascending, Visible, UpTo, After;
    CutAt(v, since);
    var u := UpTo(v, since);
    var rows := Batch(v[u..]);
    assert rows == v[u..u + |rows|];
    assert rows != [] ==> rows[|rows| - 1] == v[u + |rows| - 1];
  }

  /** A pull delivers exactly the rows between the old cursor and the new one. */
  lemma {:induction false} PullDelivers(log: seq<Row>, sc: Scope, since: int)
    requires Ascending(log)
    ensures var v := Visible(log, sc);
            var c := NextCursor(log, log, sc, since);
            UpTo(v, since) <= UpTo(v, c) <= |v| && PullChanges(log, sc, since) == v[UpTo(v, since)..UpTo(v, c)] &&
            since <= c && (|PullChanges(log, sc, since)| < PULL_BATCH ==> UpTo(v, c) == |v|)
  {
    hide *;
    PullIsCut(log, sc, since);
    CatchUpIdle(log, sc, since);
    var v, rows := Visible(log, sc), PullChanges(log, sc, since);
    CutAfterRows(v, UpTo(v, since), rows, since);
  }

  // ---- whole runs ---------------------------------------------------------

  /** What happens: rows become visible, and the device pulls with the cursor it was given last; rows may also become
      visible between the two queries of a pull. */
  datatype Step = AppendStep(rows: seq<Row>) | PullStep(rows: seq<Row>)

  datatype World = World(log: seq<Row>, cursor: int, received: seq<Row>)

  function Next(w: World, sc: Scope, step: Step): World {
    var later := InsertAll(w.log, step.rows);
    match step
    case AppendStep(_) => w.(log := later)
    case PullStep(_) => World(later, NextCursor(w.log, later, sc, w.cursor), w.received + PullChanges(w.log, sc, w.cursor))
  }

  function Run(sc: Scope, steps: seq<Step>): World {
    if steps == [] then World([], 0, []) else Next(Run(sc, steps[..|steps| - 1]), sc, steps[|steps| - 1])
  }

  ghost predicate NewId(log: seq<Row>, id: int) { 0 < id && forall i | 0 <= i < |log| :: log[i].id != id }

  /** Ids are positive, and no two rows have the same. */
  ghost predicate NewIds(log: seq<Row>, rows: seq<Row>) {
    rows == [] || (NewIds(log, rows[..|rows| - 1]) && NewId(InsertAll(log, rows[..|rows| - 1]), rows[|rows| - 1].id))
  }

  ghost predicate RunNewIds(sc: Scope, steps: seq<Step>) {
    forall k | 0 <= k < |steps| :: NewIds(Run(sc, steps[..k]).log, steps[k].rows)
  }

  /** No row in scope becomes visible behind the cursor the device has after that step. */
  ghost predicate OnTime(sc: Scope, steps: seq<Step>) {
    forall k | 0 <= k < |steps| :: OnTimeAt(sc, steps, k)
  }

  ghost predicate OnTimeAt(sc: Scope, steps: seq<Step>, k: nat)
    requires k < |steps|
  {
    Ahead(steps[k].rows, sc, Run(sc, steps[..k + 1]).cursor)
  }

  ghost predicate Ahead(rows: seq<Row>, sc: Scope, cursor: int) {
    forall r | r in rows && InScope(r, sc) :: cursor < r.id
  }

  /** What the device has received is exactly the in-scope rows up to its cursor: each once, in id order, none skipped. */
  ghost predicate Caught(w: World, sc: Scope) {
    var v := Visible(w.log, sc);
    UpTo(v, w.cursor) <= |v| && w.received == v[..UpTo(v, w.cursor)]
  }

  /** A row in scope that is behind the cursor without having been delivered. */
  ghost predicate Missed(w: World, sc: Scope) {
    exists r | r in w.log :: InScope(r, sc) && r.id <= w.cursor && r !in w.received
  }

  ghost predicate Sound(w: World) {
    Ascending(w.log) && 0 <= w.cursor && (forall r | r in w.received :: r in w.log) &&
    forall id | 0 < id && AllBelow(w.log, id) :: w.cursor < id
  }

  // ---- rows becoming visible ----------------------------------------------

  lemma {:induction false} InsertIn(log: seq<Row>, r: Row)
    ensures forall x :: x in Insert(log, r) <==> x in log || x == r
  {
    if log != [] && log[|log| - 1].id >= r.id {
      InsertIn(log[..|log| - 1], r);
      assert log == log[..|log| - 1] + [log[|log| - 1]];
    }
  }

  lemma {:induction false} BelowIn(rows: seq<Row>, id: int)
    ensures AllBelow(rows, id) <==> forall x | x in rows :: x.id < id
  {
    if forall x | x in rows :: x.id < id {
      assert forall i | 0 <= i < |rows| :: rows[i] in rows;
    }
  }

  /** The last row of an ascending log has the largest id. */
  lemma {:induction false} LastLargest(log: seq<Row>, id: int)
    requires Ascending(log) && log != [] && log[|log| - 1].id < id
    ensures AllBelow(log, id)
  {
    assert forall i | 0 <= i < |log| - 1 :: log[i] == log[..|log| - 1][i];
  }

  lemma {:induction false} InsertAscending(log: seq<Row>, r: Row)
    requires Ascending(log) && NewId(log, r.id)
    ensures Ascending(Insert(log, r))
    ensures forall x :: x in Insert(log, r) <==> x in log || x == r
  {
    InsertIn(log, r);
    var out := Insert(log, r);
    if log == [] || log[|log| - 1].id < r.id {
      assert out[..|log|] == log;
      if log != [] { LastLargest(log, r.id); }
    } else {
      var n := |log| - 1;
      InsertAscending(log[..n], r);
      assert out[..|out| - 1] == Insert(log[..n], r);
      BelowIn(log[..n], log[n].id);
      BelowIn(Insert(log[..n], r), log[n].id);
    }
  }

  lemma {:induction false} InsertAllAscending(log: seq<Row>, rows: seq<Row>)
    requires Ascending(log) && NewIds(log, rows)
    ensures Ascending(InsertAll(log, rows))
    ensures forall x :: x in InsertAll(log, rows) <==> x in log || x in rows
  {
    if rows != [] {
      var n := |rows| - 1;
      assert rows == rows[..n] + [rows[n]];
      hide Ascending, NewId, Insert;
      InsertAllAscending(log, rows[..n]);
      InsertAscending(InsertAll(log, rows[..n]), rows[n]);
    }
  }

  lemma {:induction false} VisibleInsert(log: seq<Row>, sc: Scope, r: Row)
    requires Ascending(log) && NewId(log, r.id)
    ensures Visible(Insert(log, r), sc) == if InScope(r, sc) then Insert(Visible(log, sc), r) else Visible(log, sc)
  {
    if log == [] || log[|log| - 1].id < r.id {
      assert (log + [r])[..|log|] == log;
      if log != [] { LastLargest(log, r.id); }
      VisibleAscending(log, sc);
    } else {
      var n := |log| - 1;
      var v, rest := Visible(log[..n], sc), Insert(log[..n], r);
      assert Insert(log, r) == rest + [log[n]] && log == log[..n] + [log[n]];
      VisibleInsert(log[..n], sc, r);
      hide *;
      VisiblePush(rest, log[n], sc);
      VisiblePush(log[..n], log[n], sc);
      if InScope(log[n], sc) { InsertPush(v, log[n], r); } else { assert v + [] == v && Visible(rest, sc) + [] == Visible(rest, sc); }
    }
  }

  lemma {:induction false} VisiblePush(rows: seq<Row>, r: Row, sc: Scope)
    ensures Visible(rows + [r], sc) == Visible(rows, sc) + if InScope(r, sc) then [r] else []
  {
    assert (rows + [r])[..|rows|] == rows;
  }

  lemma {:induction false} InsertPush(v: seq<Row>, last: Row, r: Row)
    requires r.id <= last.id
    ensures Insert(v + [last], r) == Insert(v, r) + [last]
  {
    assert (v + [last])[..|v|] == v;
  }

  lemma {:induction false} VisibleIn(log: seq<Row>, sc: Scope)
    ensures forall x :: x in Visible(log, sc) <==> x in log && InScope(x, sc)
  {
    if log != [] {
      VisibleIn(log[..|log| - 1], sc);
      assert log == log[..|log| - 1] + [log[|log| - 1]];
    }
  }

  /** A row beyond the cursor leaves the rows up to the cursor as they are. */
  lemma {:induction false} InsertBeyond(v: seq<Row>, r: Row, c: int)
    requires Ascending(v) && c < r.id
    ensures var u := UpTo(v, c);
            UpTo(Insert(v, r), c) == u <= |v| < |Insert(v, r)| && Insert(v, r)[..u] == v[..u]
  {
    CutIds(v, c);
    var u := UpTo(v, c);
    if v == [] || v[|v| - 1].id < r.id {
      assert (v + [r])[..|v|] == v;
    } else {
      var n := |v| - 1;
      InsertBeyond(v[..n], r, c);
      var rest := Insert(v[..n], r);
      assert (rest + [v[n]])[..|rest|] == rest;
    }
  }

  lemma {:induction false} InsertAllBeyond(log: seq<Row>, rows: seq<Row>, sc: Scope, c: int)
    requires Ascending(log) && NewIds(log, rows) && Ahead(rows, sc, c)
    ensures var u := UpTo(Visible(log, sc), c);
            var later := Visible(InsertAll(log, rows), sc);
            u == UpTo(later, c) && u <= |Visible(log, sc)| <= |later| && later[..u] == Visible(log, sc)[..u]
  {
    if rows == [] {
      VisibleAscending(log, sc);
      CutIds(Visible(log, sc), c);
    } else {
      var n := |rows| - 1;
      assert rows == rows[..n] + [rows[n]];
      InsertAllBeyond(log, rows[..n], sc, c);
      InsertAllAscending(log, rows[..n]);
      var most := InsertAll(log, rows[..n]);
      VisibleInsert(most, sc, rows[n]);
      VisibleAscending(most, sc);
      if InScope(rows[n], sc) { InsertBeyond(Visible(most, sc), rows[n], c); }
    }
  }

  // ---- one step -----------------------------------------------------------

  /** Every row in scope up to the high-water mark read afterwards is behind the new cursor of a short pull. */
  lemma {:induction false} ShortPullPassesAll(log: seq<Row>, later: seq<Row>, sc: Scope, since: int, r: Row)
    requires Ascending(later) && r in later && InScope(r, sc) && |PullChanges(log, sc, since)| < PULL_BATCH
    ensures r.id <= NextCursor(log, later, sc, since)
  {
    VisibleIn(later, sc);
    VisibleAscending(later, sc);
    var v := Visible(later, sc);
    CutUnique(v, v[|v| - 1].id, |v|);
    CutIds(v, v[|v| - 1].id);
  }

  lemma {:induction false} CursorGrows(log: seq<Row>, later: seq<Row>, sc: Scope, since: int)
    requires Ascending(log)
    ensures NextCursor(log, log, sc, since) <= NextCursor(log, later, sc, since)
    ensures since <= NextCursor(log, later, sc, since)
  {
    CatchUpIdle(log, sc, since);
    PullDelivers(log, sc, since);
  }

  lemma {:induction false} PullIn(log: seq<Row>, sc: Scope, since: int)
    requires Ascending(log)
    ensures forall r | r in PullChanges(log, sc, since) :: r in log && since < r.id
  {
    VisibleAscending(log, sc);
    VisibleIn(log, sc);
    CutAt(Visible(log, sc), since);
  }

  /** When no row in scope appears behind the new cursor, the catch-up of the pull moves nothing past. */
  lemma {:induction false} PullAhead(log: seq<Row>, rows: seq<Row>, sc: Scope, since: int)
    requires Ascending(log) && NewIds(log, rows)
    requires Ahead(rows, sc, NextCursor(log, InsertAll(log, rows), sc, since))
    ensures NextCursor(log, InsertAll(log, rows), sc, since) == NextCursor(log, log, sc, since)
  {
    var later := InsertAll(log, rows);
    InsertAllAscending(log, rows);
    if |PullChanges(log, sc, since)| < PULL_BATCH {
      forall r | r in rows && InScope(r, sc) ensures false { ShortPullPassesAll(log, later, sc, since, r); }
      NoneInScope(log, rows, sc);
    }
  }

  lemma {:induction false} NoneInScope(log: seq<Row>, rows: seq<Row>, sc: Scope)
    requires Ascending(log) && NewIds(log, rows) && forall r | r in rows :: !InScope(r, sc)
    ensures Visible(InsertAll(log, rows), sc) == Visible(log, sc)
  {
    if rows != [] {
      var n := |rows| - 1;
      NoneInScope(log, rows[..n], sc);
      InsertAllAscending(log, rows[..n]);
      VisibleInsert(InsertAll(log, rows[..n]), sc, rows[n]);
    }
  }

  lemma {:induction false} StepOnTime(w: World, sc: Scope, step: Step)
    requires Sound(w) && Caught(w, sc) && NewIds(w.log, step.rows) && Ahead(step.rows, sc, Next(w, sc, step).cursor)
    ensures Caught(Next(w, sc, step), sc)
  {
    var v, c, u := Visible(w.log, sc), Next(w, sc, step).cursor, UpTo(Visible(w.log, sc), w.cursor);
    hide Ascending, NewIds, Ahead, NextCursor, PullChanges, UpTo, Visible, InsertAll;
    InsertAllBeyond(w.log, step.rows, sc, c);
    if step.PullStep? {
      PullAhead(w.log, step.rows, sc, w.cursor);
      PullDelivers(w.log, sc, w.cursor);
      assert v[..u] + v[u..UpTo(v, c)] == v[..UpTo(v, c)];
    }
  }

  lemma {:induction false} StepLate(w: World, sc: Scope, step: Step)
    requires Sound(w) && NewIds(w.log, step.rows)
    requires Missed(w, sc) || !Ahead(step.rows, sc, Next(w, sc, step).cursor)
    ensures Missed(Next(w, sc, step), sc)
  {
    var t := Next(w, sc, step);
    InsertAllAscending(w.log, step.rows);
    PullIn(w.log, sc, w.cursor);
    CursorGrows(w.log, t.log, sc, w.cursor);
    hide NextCursor, PullChanges;
    if Missed(w, sc) {
      var r :| r in w.log && InScope(r, sc) && r.id <= w.cursor && r !in w.received;
      assert r in t.log && r.id <= t.cursor && r !in t.received;
    } else {
      var r :| r in step.rows && InScope(r, sc) && r.id <= t.cursor;
      RowNew(w.log, step.rows, r);
      assert r in t.log && r !in t.received;
    }
  }

  lemma {:induction false} RowNew(log: seq<Row>, rows: seq<Row>, r: Row)
    requires Ascending(log) && NewIds(log, rows) && r in rows
    ensures NewId(log, r.id)
  {
    var n := |rows| - 1;
    if r == rows[n] {
      InsertAllAscending(log, rows[..n]);
      hide NewId;
      NewAmongFewer(log, InsertAll(log, rows[..n]), r.id);
    } else {
      assert rows == rows[..n] + [rows[n]];
      RowNew(log, rows[..n], r);
    }
  }

  lemma {:induction false} NewAmongFewer(log: seq<Row>, more: seq<Row>, id: int)
    requires (forall x | x in log :: x in more) && NewId(more, id)
    ensures NewId(log, id)
  {
    forall i | 0 <= i < |log| ensures log[i].id != id { assert log[i] in more; }
  }

  lemma {:induction false} StepSound(w: World, sc: Scope, step: Step)
    requires Sound(w) && NewIds(w.log, step.rows)
    ensures Sound(Next(w, sc, step))
  {
    var t := Next(w, sc, step);
    InsertAllAscending(w.log, step.rows);
    PullIn(w.log, sc, w.cursor);
    CursorGrows(w.log, t.log, sc, w.cursor);
    forall id | 0 < id && AllBelow(t.log, id) ensures t.cursor < id {
      forall i | 0 <= i < |w.log| ensures w.log[i].id < id { assert w.log[i] in t.log; }
      assert AllBelow(w.log, id);
      if step.PullStep? {
        VisibleAscending(w.log, sc);
        VisibleAscending(t.log, sc);
        CutAt(Visible(w.log, sc), w.cursor);
        assert AllBelow(Visible(w.log, sc), id) && AllBelow(Visible(t.log, sc), id);
      }
    }
  }

  // ---- the whole run ------------------------------------------------------

  lemma {:induction false} OnTimePush(sc: Scope, steps: seq<Step>)
    requires steps != []
    ensures var n := |steps| - 1;
            OnTime(sc, steps) <==> OnTime(sc, steps[..n]) && Ahead(steps[n].rows, sc, Run(sc, steps).cursor)
  {
    var n := |steps| - 1;
    hide Run, Ahead;
    forall k | 0 <= k < n ensures OnTimeAt(sc, steps[..n], k) <==> OnTimeAt(sc, steps, k) {
      assert steps[..n][..k + 1] == steps[..k + 1];
    }
    assert steps[..n + 1] == steps;
    assert OnTimeAt(sc, steps, n) <==> Ahead(steps[n].rows, sc, Run(sc, steps).cursor);
    if OnTime(sc, steps) {
      forall k | 0 <= k < n ensures OnTimeAt(sc, steps[..n], k) { assert OnTimeAt(sc, steps, k); }
    }
    if OnTime(sc, steps[..n]) {
      forall k | 0 <= k < n ensures OnTimeAt(sc, steps, k) { assert OnTimeAt(sc, steps[..n], k); }
    }
  }

  lemma {:induction false} RunSound(sc: Scope, steps: seq<Step>)
    requires RunNewIds(sc, steps)
    ensures Sound(Run(sc, steps))
    ensures OnTime(sc, steps) ==> Caught(Run(sc, steps), sc)
    ensures !OnTime(sc, steps) ==> Missed(Run(sc, steps), sc)
  {
    if steps != [] {
      var n := |steps| - 1;
      var w := Run(sc, steps[..n]);
      assert forall k | 0 <= k <= n :: steps[..n][..k] == steps[..k];
      assert steps[..n + 1] == steps && steps[..n][..n] == steps[..n];
      RunSound(sc, steps[..n]);
      OnTimePush(sc, steps);
      hide *;
      StepSound(w, sc, steps[n]);
      if OnTime(sc, steps) { StepOnTime(w, sc, steps[n]); } else { StepLate(w, sc, steps[n]); }
    }
  }

  /** Over every run of pulls and of rows becoming visible at any moment and in any order, the device has received
      exactly the in-scope rows up to its cursor, each once and in id order, if and only if every row in scope was
      ahead of the device's cursor once the step in which it became visible was over. */
  lemma {:induction false} EachOnceIff(sc: Scope, steps: seq<Step>)
    requires RunNewIds(sc, steps)
    ensures Caught(Run(sc, steps), sc) <==> OnTime(sc, steps)
  {
    RunSound(sc, steps);
    hide OnTime;
    if Caught(Run(sc, steps), sc) { CaughtHasAll(Run(sc, steps), sc); }
  }

  lemma {:induction false} CaughtHasAll(w: World, sc: Scope)
    requires Sound(w) && Caught(w, sc)
    ensures !Missed(w, sc)
  {
    var v := Visible(w.log, sc);
    VisibleAscending(w.log, sc);
    VisibleIn(w.log, sc);
    CutIds(v, w.cursor);
    forall r | r in w.log && InScope(r, sc) && r.id <= w.cursor ensures r in w.received {
      var i :| 0 <= i < |v| && v[i] == r;
      assert w.received[i] == r;
    }
  }

  /** Rows become visible in the order of their ids, and none between the two queries of a pull. */
  ghost predicate InIdOrder(sc: Scope, steps: seq<Step>) {
    forall k | 0 <= k < |steps| ::
      (steps[k].PullStep? ==> steps[k].rows == []) &&
      forall r | r in steps[k].rows :: AllBelow(Run(sc, steps[..k]).log, r.id)
  }

  /** In particular when rows become visible in the order of their ids and between pulls. */
  lemma {:induction false} EachOnceInOrder(sc: Scope, steps: seq<Step>)
    requires RunNewIds(sc, steps) && InIdOrder(sc, steps)
    ensures Caught(Run(sc, steps), sc)
  {
    forall k | 0 <= k < |steps| ensures OnTimeAt(sc, steps, k) {
      assert steps[..k + 1][..k] == steps[..k];
      assert forall i | 0 <= i < k :: steps[..k][..i] == steps[..i];
      RunSound(sc, steps[..k]);
      var w := Run(sc, steps[..k]);
      forall r | r in steps[k].rows ensures 0 < r.id { RowNew(w.log, steps[k].rows, r); }
      assert steps[k].AppendStep? ==> Run(sc, steps[..k + 1]).cursor == w.cursor;
    }
    EachOnceIff(sc, steps);
  }

  /** A pull that returns less than a full batch leaves nothing in scope undelivered. */
  lemma {:induction false} ShortPullCatchesUp(sc: Scope, steps: seq<Step>)
    requires RunNewIds(sc, steps) && OnTime(sc, steps)
    requires |PullChanges(Run(sc, steps).log, sc, Run(sc, steps).cursor)| < PULL_BATCH
    ensures var w := Next(Run(sc, steps), sc, PullStep([]));
            w.received == Visible(w.log, sc)
  {
    var w := Run(sc, steps);
    RunSound(sc, steps);
    StepSound(w, sc, PullStep([]));
    CursorGrows(w.log, w.log, sc, w.cursor);
    StepOnTime(w, sc, PullStep([]));
    PullDelivers(w.log, sc, w.cursor);
  }

  // ---- an append between the two queries ----------------------------------

  /** When rows are appended between a pull's two queries, the new cursor still stands behind every undelivered
      in-scope row exactly when the batch was full or none of the appended rows is in scope. */
  lemma {:induction false} CursorBehindUndeliveredIff(log: seq<Row>, mid: seq<Row>, sc: Scope, since: int)
    requires Ascending(log + mid)
    requires forall i | 0 <= i < |mid| :: since < mid[i].id
    ensures var v := Visible(log + mid, sc);
            var rows := PullChanges(log, sc, since);
            UpTo(v, NextCursor(log, log + mid, sc, since)) == UpTo(v, since) + |rows| <==>
            |rows| == PULL_BATCH || Visible(mid, sc) == []
  {
    VisibleConcat(log, mid, sc);
    VisibleAscending(log + mid, sc);
    LateBeyond(mid, sc, since);
    hide Visible;
    AdvanceCut(Visible(log, sc), Visible(mid, sc), since);
  }

  /** The same on the visible rows: `early` before the first query, `late` between the two. */
  lemma {:induction false} AdvanceCut(early: seq<Row>, late: seq<Row>, since: int)
    requires Ascending(early + late)
    requires forall i | 0 <= i < |late| :: since < late[i].id
    ensures var v := early + late;
            var batch := Batch(After(early, since));
            UpTo(v, Advance(batch, LastId(v, since), since)) == UpTo(v, since) + |batch| <==>
            |batch| == PULL_BATCH || late == []
  {
    var v := early + late;
    AscendingPrefix(early, late);
    CutAt(early, since);
    var u := UpTo(early, since);
    var batch := Batch(After(early, since));
    assert batch == early[u..u + |batch|];
    SameCut(early, late, since);
    hide UpTo, After, Ascending, Batch;
    assert batch == v[u..u + |batch|];
    CutAfterRows(v, u, batch, since);
    if |batch| < PULL_BATCH && v != [] { HighWaterCut(v, LastId(batch, since), since); }
  }

  /** The high-water mark takes the cut to the end, and is ahead of a cursor whose cut is short of it. */
  lemma {:induction false} HighWaterCut(v: seq<Row>, cursor: int, since: int)
    requires Ascending(v) && v != []
    ensures UpTo(v, LastId(v, since)) == |v|
    ensures UpTo(v, cursor) < |v| ==> cursor < LastId(v, since)
  {
    CutUnique(v, LastId(v, since), |v|);
    CutIds(v, cursor);
  }

  lemma {:induction false} SameCut(early: seq<Row>, late: seq<Row>, since: int)
    requires Ascending(early + late)
    requires forall i | 0 <= i < |late| :: since < late[i].id
    ensures UpTo(early + late, since) == UpTo(early, since)
  {
    if late == [] {
      assert early + late == early;
    } else {
      var n := |late| - 1;
      assert (early + late)[..|early + late| - 1] == early + late[..n];
      SameCut(early, late[..n], since);
    }
  }

  lemma {:induction false} CutAfterRows(v: seq<Row>, u: nat, rows: seq<Row>, since: int)
    requires Ascending(v) && UpTo(v, since) == u && u + |rows| <= |v| && rows == v[u..u + |rows|]
    ensures UpTo(v, LastId(rows, since)) == u + |rows|
  {
    if rows != [] {
      assert rows[|rows| - 1] == v[u + |rows| - 1];
      CutFollows(v, u + |rows|);
      CutUnique(v, LastId(rows, since), u + |rows|);
    }
  }

  lemma {:induction false} CutFollows(v: seq<Row>, k: nat)
    requires Ascending(v) && 0 < k <= |v|
    ensures k < |v| ==> v[k - 1].id < v[k].id
  {
    if k < |v| {
      assert v == v[..k + 1] + v[k + 1..];
      AscendingPrefix(v[..k + 1], v[k + 1..]);
      assert v[..k + 1][..k][k - 1] == v[k - 1];
    }
  }

  lemma {:induction false} VisibleConcat(a: seq<Row>, b: seq<Row>, sc: Scope)
    ensures Visible(a + b, sc) == Visible(a, sc) + Visible(b, sc)
  {
    if b == [] {
      assert a + b == a;
    } else {
      assert (a + b)[..|a + b| - 1] == a + b[..|b| - 1];
      VisibleConcat(a, b[..|b| - 1], sc);
    }
  }

  lemma {:induction false} LateBeyond(mid: seq<Row>, sc: Scope, since: int)
    requires forall i | 0 <= i < |mid| :: since < mid[i].id
    ensures forall i | 0 <= i < |Visible(mid, sc)| :: since < Visible(mid, sc)[i].id
  {
    if mid != [] { LateBeyond(mid[..|mid| - 1], sc, since); }
  }

  /** So an append in between is skipped for good: the device gets no row and a cursor past it. */
  lemma {:induction false} AppendInBetweenSkipped()
    ensures var sc := Scope(1, 7);
            var row := Row(5, 1, None, "product", 3);
            PullChanges([], sc, 0) == [] && NextCursor([], [row], sc, 0) == 5 && PullChanges([row], sc, 5) == []
  {
    var sc, row := Scope(1, 7), Row(5, 1, None, "product", 3);
    assert [row][..0] == [];
    assert Visible([row], sc) == [row];
    assert After([row], 5) == [];
  }

  /** A row the device may see: of its organisation, and its representative's own or everybody's. */
  predicate ForDevice(r: Row, sc: Scope) { r.org == sc.org && (r.rep == None || r.rep == Some(sc.rep)) }

  /** A pull gives a device at most 200 rows, with growing ids beyond its cursor, all of them rows it may see; when it gives
      fewer, there is no other such row. */
  lemma {:induction false} PullGives(log: seq<Row>, sc: Scope, since: int)
    requires Ascending(log)
    ensures var rows := PullChanges(log, sc, since);
            && |rows| <= 200 && (forall i, j | 0 <= i < j < |rows| :: rows[i].id < rows[j].id)
            && (forall r | r in rows :: r in log && ForDevice(r, sc) && since < r.id)
            && (|rows| < 200 ==> forall r | r in log && ForDevice(r, sc) && since < r.id :: r in rows)
  {
    hide *;
    PullAtMost(log, sc, since);
    PullIsCut(log, sc, since);
    var v, rows := Visible(log, sc), PullChanges(log, sc, since);
    var u := UpTo(v, since);
    assert forall i | 0 <= i < |rows| :: rows[i] == v[u + i];
    forall i, j | 0 <= i < j < |rows| ensures rows[i].id < rows[j].id { AscendingIds(v, u + i, u + j); }
    forall r | r in rows ensures r in log && ForDevice(r, sc) && since < r.id {
      var i :| 0 <= i < |rows| && rows[i] == r;
      SeenRow(log, sc, since, u + i);
    }
    if |rows| < 200 {
      forall r | r in log && ForDevice(r, sc) && since < r.id ensures r in rows {
        var k := RowSeen(log, sc, since, r);
        assert rows[k - u] == r;
      }
    }
  }

  lemma {:induction false} SeenRow(log: seq<Row>, sc: Scope, since: int, k: nat)
    requires Ascending(log) && UpTo(Visible(log, sc), since) <= k < |Visible(log, sc)|
    ensures var r := Visible(log, sc)[k]; r in log && ForDevice(r, sc) && since < r.id
  {
    VisibleAscending(log, sc);
    VisibleIn(log, sc);
    CutIds(Visible(log, sc), since);
    hide Visible, UpTo, Ascending;
    assert Visible(log, sc)[k] in Visible(log, sc);
  }

  lemma {:induction false} RowSeen(log: seq<Row>, sc: Scope, since: int, r: Row) returns (k: nat)
    requires Ascending(log) && r in log && ForDevice(r, sc) && since < r.id
    ensures UpTo(Visible(log, sc), since) <= k < |Visible(log, sc)| && Visible(log, sc)[k] == r
  {
    VisibleAscending(log, sc);
    VisibleIn(log, sc);
    CutIds(Visible(log, sc), since);
    hide Visible, UpTo, Ascending;
    k :| 0 <= k < |Visible(log, sc)| && Visible(log, sc)[k] == r;
  }

  lemma {:induction false} PullAtMost(log: seq<Row>, sc: Scope, since: int)
    ensures |PullChanges(log, sc, since)| <= 200 && PULL_BATCH == 200
  {
  }

  lemma {:induction false} AscendingIds(rows: seq<Row>, i: nat, j: nat)
    requires Ascending(rows) && i < j < |rows|
    ensures rows[i].id < rows[j].id
  {
    var n := |rows| - 1;
    if j < n { AscendingIds(rows[..n], i, j); } else { assert rows[..n][i].id < rows[n].id; }
  }
}

/** The runtime snapshot of the lanes: a vector sorted by lane id, overwritten or incremented in
    place (crates/espejismo-core/src/runtime_state.rs). */
module Boards {
  import opened Prelude
  import opened Lanes

  datatype Row = Row(
    id: nat,
    active: u64,
    pending: u64,
    opens: u64,
    failures: u64,
    bytesUp: u64,
    bytesDown: u64,
    score: u64)

  predicate Ordered(board: seq<Row>) {
    forall i, j | 0 <= i < j < |board| :: board[i].id < board[j].id
  }

  function Lookup(board: seq<Row>, id: nat): (row: Option<Row>)
    ensures row.Some? ==> row.value.id == id
  {
    if board == [] then None else if board[0].id == id then Some(board[0]) else Lookup(board[1..], id)
  }

  function Published(board: seq<Row>, row: Row): seq<Row> {
    if board == [] then [row]
    else if board[0].id == row.id then [row] + board[1..]
    else if board[0].id > row.id then [row] + board
    else [board[0]] + Published(board[1..], row)
  }

  function RowPlus(row: Row, up: u64, down: u64): Row {
    row.(bytesUp := SatAdd(row.bytesUp, up), bytesDown := SatAdd(row.bytesDown, down))
  }

  /** Bytes for a lane that was never published are ignored. */
  function Added(board: seq<Row>, id: nat, up: u64, down: u64): seq<Row> {
    if board == [] then []
    else if board[0].id == id then [RowPlus(board[0], up, down)] + board[1..]
    else [board[0]] + Added(board[1..], id, up, down)
  }

  lemma {:induction false} PublishedIds(board: seq<Row>, row: Row)
    ensures forall i | 0 <= i < |Published(board, row)| ::
      Published(board, row)[i].id == row.id || exists j | 0 <= j < |board| :: board[j].id == Published(board, row)[i].id
  {
    if board != [] && board[0].id < row.id {
      PublishedIds(board[1..], row);
      var p := Published(board[1..], row);
      forall i | 0 <= i < |Published(board, row)|
        ensures Published(board, row)[i].id == row.id || exists j | 0 <= j < |board| :: board[j].id == Published(board, row)[i].id
      {
        if i > 0 && p[i - 1].id != row.id {
          var j :| 0 <= j < |board[1..]| && board[1..][j].id == p[i - 1].id;
          assert board[j + 1].id == Published(board, row)[i].id;
        }
      }
    }
  }

  lemma {:induction false} PublishedOrdered(board: seq<Row>, row: Row)
    requires Ordered(board)
    ensures Ordered(Published(board, row))
  {
    if board != [] && board[0].id < row.id {
      PublishedOrdered(board[1..], row);
      PublishedIds(board[1..], row);
    }
  }

  /** Publishing changes one entry of the snapshot and no other. */
  lemma {:induction false} PublishedLookup(board: seq<Row>, row: Row, id: nat)
    requires Ordered(board)
    ensures Lookup(Published(board, row), id) == if id == row.id then Some(row) else Lookup(board, id)
  {
    if board != [] {
      if board[0].id < row.id {
        PublishedLookup(board[1..], row, id);
        assert Published(board, row)[1..] == Published(board[1..], row);
      } else if board[0].id > row.id {
        assert Published(board, row)[1..] == board;
      } else {
        assert Published(board, row)[1..] == board[1..];
      }
    }
  }

  lemma {:induction false} AddedLookup(board: seq<Row>, at: nat, up: u64, down: u64, id: nat)
    ensures Lookup(Added(board, at, up, down), id)
      == var row := Lookup(board, id); if id == at && row.Some? then Some(RowPlus(row.value, up, down)) else row
  {
    if board != [] {
      if board[0].id == at {
        assert Added(board, at, up, down)[1..] == board[1..];
      } else {
        AddedLookup(board[1..], at, up, down, id);
        assert Added(board, at, up, down)[1..] == Added(board[1..], at, up, down);
      }
    }
  }

  lemma {:induction false} AddedOrdered(board: seq<Row>, at: nat, up: u64, down: u64)
    ensures |Added(board, at, up, down)| == |board|
    ensures forall i | 0 <= i < |board| :: Added(board, at, up, down)[i].id == board[i].id
    ensures Ordered(board) ==> Ordered(Added(board, at, up, down))
  {
    if board != [] {
      AddedOrdered(board[1..], at, up, down);
    }
  }

  /** Overwriting in place is what `Published` does to a known lane. */
  lemma {:induction false} PublishedOverwrites(board: seq<Row>, row: Row, k: nat)
    requires Ordered(board) && k < |board| && board[k].id == row.id
    ensures Published(board, row) == board[k := row]
    decreases k
  {
    if k > 0 {
      PublishedOverwrites(board[1..], row, k - 1);
    }
  }

  /** And inserting in order is what it does to a new one. */
  lemma {:induction false} PublishedInserts(board: seq<Row>, row: Row, k: nat)
    requires k <= |board|
    requires forall i | 0 <= i < k :: board[i].id < row.id
    requires forall i | k <= i < |board| :: row.id < board[i].id
    ensures Published(board, row) == board[..k] + [row] + board[k..]
    decreases k
  {
    if k > 0 {
      PublishedInserts(board[1..], row, k - 1);
      assert board[..k] == [board[0]] + board[1..][..k - 1];
      assert board[1..][k - 1..] == board[k..];
    } else {
      assert board[..0] + [row] + board[0..] == [row] + board;
    }
  }

  lemma {:induction false} AddedInPlace(board: seq<Row>, k: nat, up: u64, down: u64)
    requires Ordered(board) && k < |board|
    ensures Added(board, board[k].id, up, down) == board[k := RowPlus(board[k], up, down)]
    decreases k
  {
    if k > 0 {
      AddedInPlace(board[1..], k - 1, up, down);
    }
  }

  lemma {:induction false} AddedNowhere(board: seq<Row>, id: nat, up: u64, down: u64)
    requires forall i | 0 <= i < |board| :: board[i].id != id
    ensures Added(board, id, up, down) == board
  {
    if board != [] {
      AddedNowhere(board[1..], id, up, down);
    }
  }

  lemma MoveLeft(board: seq<Row>, row: Row, k: nat)
    requires 0 < k <= |board|
    ensures var at := board[..k] + [row] + board[k..];
      && |at| == |board| + 1 && at[k - 1] == board[k - 1]
      && at[k := at[k - 1]][k - 1 := row] == board[..k - 1] + [row] + board[k - 1..]
  {}

  lemma AllBefore(board: seq<Row>, row: Row, k: nat)
    requires Ordered(board) && k <= |board| && (k > 0 ==> board[k - 1].id <= row.id)
    requires forall i | 0 <= i < |board| :: board[i].id != row.id
    ensures forall i | 0 <= i < k :: board[i].id < row.id
  {
    assert k > 0 ==> board[k - 1].id < row.id;
  }

  /** `RuntimeState`, as far as the lanes go. */
  class RuntimeState {
    var tunnelLanes: seq<Row>

    ghost predicate Valid()
      reads this
    {
      Ordered(tunnelLanes)
    }

    constructor ()
      ensures Valid() && tunnelLanes == []
    {
      tunnelLanes := [];
    }

    method FindLane(id: nat) returns (k: Option<nat>)
      ensures k.Some? ==> k.value < |tunnelLanes| && tunnelLanes[k.value].id == id
      ensures k.None? ==> forall i | 0 <= i < |tunnelLanes| :: tunnelLanes[i].id != id
    {
      var i := 0;
      while i < |tunnelLanes|
        invariant 0 <= i <= |tunnelLanes|
        invariant forall j | 0 <= j < i :: tunnelLanes[j].id != id
      {
        if tunnelLanes[i].id == id {
          return Some(i);
        }
        i := i + 1;
      }
      k := None;
    }

    method UpdateTunnelLane(row: Row)
      requires Valid()
      modifies this
      ensures Valid() && tunnelLanes == Published(old(tunnelLanes), row)
    {
      PublishedOrdered(tunnelLanes, row);
      var k := FindLane(row.id);
      if k.Some? {
        PublishedOverwrites(tunnelLanes, row, k.value);
        tunnelLanes := tunnelLanes[k.value := row];
      } else {
        InsertSorted(row);
      }
    }

    /** Push and stable sort by id: the last element moves left past every greater id. */
    method InsertSorted(row: Row)
      requires Valid()
      requires forall i | 0 <= i < |tunnelLanes| :: tunnelLanes[i].id != row.id
      modifies this
      ensures tunnelLanes == Published(old(tunnelLanes), row)
    {
      hide Published, Ordered;
      ghost var before := tunnelLanes;
      tunnelLanes := tunnelLanes + [row];
      var k := |tunnelLanes| - 1;
      while k > 0 && tunnelLanes[k - 1].id > row.id
        invariant 0 <= k <= |before|
        invariant forall i | k <= i < |before| :: row.id < before[i].id
        invariant tunnelLanes == before[..k] + [row] + before[k..]
      {
        MoveLeft(before, row, k);
        tunnelLanes := tunnelLanes[k := tunnelLanes[k - 1]][k - 1 := row];
        k := k - 1;
      }
      if k > 0 {
        MoveLeft(before, row, k);
      }
      AllBefore(before, row, k);
      PublishedInserts(before, row, k);
    }

    method AddTunnelLaneBytes(id: nat, up: u64, down: u64)
      requires Valid()
      modifies this
      ensures Valid() && tunnelLanes == Added(old(tunnelLanes), id, up, down)
    {
      AddedOrdered(tunnelLanes, id, up, down);
      var k := FindLane(id);
      if k.Some? {
        AddedInPlace(tunnelLanes, k.value, up, down);
        tunnelLanes := tunnelLanes[k.value := RowPlus(tunnelLanes[k.value], up, down)];
      } else {
        AddedNowhere(tunnelLanes, id, up, down);
      }
    }
  }
}

/** internal/ark/ports.go: the game and RCON ports of each map, and the check that the two ranges stay apart. */
module Ports {
  import opened Integers

  const MIN_PORT := 1024
  const MAX_PORT := 60000

  function GamePort(start: int, index: nat): int {
    Int32(start + Int32(index))
  }

  function RconPort(start: int, index: nat): int {
    Int32(start + Int32(index))
  }

  predicate PortConflict(gameStart: int, rconStart: int, count: int) {
    if count < 1 then false
    else
      var gameEnd := Int32(Int32(gameStart + Int32(count)) - 1);
      var rconEnd := Int32(Int32(rconStart + Int32(count)) - 1);
      gameStart <= rconEnd && rconStart <= gameEnd
  }

  /** The starting ports the API accepts. */
  predicate Accepted(start: int) {
    MIN_PORT <= start <= MAX_PORT
  }

  /** Some map's game port is some map's RCON port. */
  predicate Shared(gameStart: int, rconStart: int, count: int) {
    exists i: nat, j: nat :: i < count && j < count && GamePort(gameStart, i) == RconPort(rconStart, j)
  }

  predicate InRange(start: int, count: int) {
    start + count - 1 <= MAX_INT32
  }

  lemma PortIs(start: int, index: nat)
    requires Accepted(start) && start + index <= MAX_INT32
    ensures GamePort(start, index) == start + index == RconPort(start, index)
  {
  }

  lemma ConflictIsExact(g: int, r: int, count: int)
    requires Accepted(g) && Accepted(r) && InRange(g, count) && InRange(r, count)
    ensures PortConflict(g, r, count) <==> Shared(g, r, count)
  {
    hide Int32, GamePort, RconPort;
    if count >= 1 {
      EndIs(g, count);
      EndIs(r, count);
      if g <= r + count - 1 && r <= g + count - 1 {
        var i, j := if g <= r then r - g else 0, if g <= r then 0 else g - r;
        PortIs(g, i);
        PortIs(r, j);
        assert GamePort(g, i) == RconPort(r, j);
      }
      if Shared(g, r, count) {
        var i: nat, j: nat :| i < count && j < count && GamePort(g, i) == RconPort(r, j);
        PortIs(g, i);
        PortIs(r, j);
      }
    }
  }

  lemma EndIs(start: int, count: int)
    requires Accepted(start) && 1 <= count && InRange(start, count)
    ensures Int32(Int32(start + Int32(count)) - 1) == start + count - 1
  {
  }

  lemma EndWraps(start: int, count: int)
    requires Accepted(start) && 1 <= count <= MAX_INT32 && !InRange(start, count)
    ensures Int32(Int32(start + Int32(count)) - 1) < 0
  {
  }

  /** For every number of maps an int32 can hold: the check says whether two maps share a port if and only if neither
      range runs past the largest int32. */
  lemma ConflictIsExactIff(g: int, r: int, count: int)
    requires Accepted(g) && Accepted(r) && count <= MAX_INT32
    ensures (PortConflict(g, r, count) <==> Shared(g, r, count)) <==> InRange(g, count) && InRange(r, count)
  {
    if InRange(g, count) && InRange(r, count) {
      ConflictIsExact(g, r, count);
    } else {
      if !InRange(g, count) {
        EndWraps(g, count);
      } else {
        EndWraps(r, count);
      }
      var i, j := if g <= r then r - g else 0, if g <= r then 0 else g - r;
      PortIs(g, i);
      PortIs(r, j);
      assert GamePort(g, i) == RconPort(r, j);
    }
  }

  /** An accepted cluster has two ports per map, no two of them equal. */
  lemma AcceptedPortsAreDistinct(g: int, r: int, count: int, i: nat, j: nat)
    requires Accepted(g) && Accepted(r) && InRange(g, count) && InRange(r, count) && !PortConflict(g, r, count)
    requires i < count && j < count
    ensures GamePort(g, i) != RconPort(r, j)
    ensures i != j ==> GamePort(g, i) != GamePort(g, j) && RconPort(r, i) != RconPort(r, j)
  {
    ConflictIsExact(g, r, count);
    PortIs(g, i);
    PortIs(g, j);
    PortIs(r, i);
    PortIs(r, j);
  }
}

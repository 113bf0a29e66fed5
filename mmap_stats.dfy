/** `.mmap stats`: process-wide counts, then totals over the tile slots of the
    current map's navmesh, accumulated in seven wrapping uint32 counters. */
module MmapStats {
  import opened UInt32
  import opened NavMesh
  import opened Session

  /** The seven counters of the command, each a uint32 value. */
  datatype TileStats = TileStats(
    tileCount: nat, nodeCount: nat, polyCount: nat, vertCount: nat,
    triCount: nat, triVertCount: nat, dataSize: nat)

  const ZERO: TileStats := TileStats(0, 0, 0, 0, 0, 0, 0)

  /** Names the counters, so that properties can be stated once for all seven. */
  datatype Counter = TileCount | NodeCount | PolyCount | VertCount | TriCount | TriVertCount | DataBytes

  function Get(s: TileStats, c: Counter): nat
  {
    match c
    case TileCount => s.tileCount
    case NodeCount => s.nodeCount
    case PolyCount => s.polyCount
    case VertCount => s.vertCount
    case TriCount => s.triCount
    case TriVertCount => s.triVertCount
    case DataBytes => s.dataSize
  }

  /** What one populated slot contributes to a counter. */
  function Amount(s: Slot, c: Counter): int
    requires Populated(s)
  {
    var h := HeaderOf(s);
    match c
    case TileCount => 1
    case NodeCount => h.bvNodeCount
    case PolyCount => h.polyCount
    case VertCount => h.vertCount
    case TriCount => h.detailTriCount
    case TriVertCount => h.detailVertCount
    case DataBytes => s.value.dataSize
  }

  /** A uint32 counter after `+=` of an int amount. */
  function Add32(counter: nat, amount: int): nat
  {
    Wrap(counter + amount)
  }

  /** One step of the loop on a populated slot: every counter gains that slot's
      amount, modulo 2^32. */
  function Accumulate(acc: TileStats, s: Slot): TileStats
    requires Populated(s)
  {
    var h := HeaderOf(s);
    TileStats(
      Add32(acc.tileCount, 1),
      Add32(acc.nodeCount, h.bvNodeCount),
      Add32(acc.polyCount, h.polyCount),
      Add32(acc.vertCount, h.vertCount),
      Add32(acc.triCount, h.detailTriCount),
      Add32(acc.triVertCount, h.detailVertCount),
      Add32(acc.dataSize, s.value.dataSize))
  }

  /** Accumulating a slot adds its amount to each counter, modulo 2^32. */
  lemma AccumulateCounter(acc: TileStats, s: Slot, c: Counter)
    requires Populated(s)
    ensures Get(Accumulate(acc, s), c) == Wrap(Get(acc, c) + Amount(s, c))
  {
  }

  /** The counters after visiting the slots from index 0 upwards. */
  function Totals(slots: seq<Slot>): TileStats
  {
    if slots == [] then ZERO
    else
      var n := |slots| - 1;
      if Populated(slots[n]) then Accumulate(Totals(slots[..n]), slots[n])
      else Totals(slots[..n])
  }

  /** The exact (unwrapped) sum of one counter's amounts over the populated slots. */
  function Sum(slots: seq<Slot>, c: Counter): int
  {
    if slots == [] then 0
    else
      var n := |slots| - 1;
      Sum(slots[..n], c) + (if Populated(slots[n]) then Amount(slots[n], c) else 0)
  }

  /** Each counter is the exact sum over the populated slots, wrapped to uint32. */
  lemma {:induction false} TotalsAreWrappedSums(slots: seq<Slot>)
    ensures forall c :: Get(Totals(slots), c) == Wrap(Sum(slots, c))
  {
    if slots != [] {
      var n := |slots| - 1;
      TotalsAreWrappedSums(slots[..n]);
      if Populated(slots[n]) {
        forall c ensures Get(Totals(slots), c) == Wrap(Sum(slots, c)) {
          AccumulateCounter(Totals(slots[..n]), slots[n], c);
          WrapAdd(Sum(slots[..n], c), Amount(slots[n], c));
        }
      }
    }
  }

  /** The tile counter counts exactly the populated slots, which are the slots
      `.mmap loadedtiles` lists. */
  lemma {:induction false} TileCountIsPopulatedSlots(slots: seq<Slot>)
    ensures Sum(slots, TileCount) == |PopulatedIndices(slots)|
    ensures Totals(slots).tileCount == Wrap(|PopulatedIndices(slots)|)
  {
    if slots != [] {
      TileCountIsPopulatedSlots(slots[..|slots| - 1]);
    }
    TotalsAreWrappedSums(slots);
    assert Get(Totals(slots), TileCount) == Wrap(Sum(slots, TileCount));
  }

  lemma {:induction false} SumConcat(a: seq<Slot>, b: seq<Slot>, c: Counter)
    ensures Sum(a + b, c) == Sum(a, c) + Sum(b, c)
  {
    if b == [] {
      assert a + b == a;
    } else {
      var n := |b| - 1;
      assert (a + b)[..|a + b| - 1] == a + b[..n];
      SumConcat(a, b[..n], c);
    }
  }

  lemma SumOne(s: Slot, c: Counter)
    ensures Sum([s], c) == if Populated(s) then Amount(s, c) else 0
  {
  }

  /** The exact sums do not depend on the order in which the slots are visited. */
  lemma {:induction false} SumPermutation(s: seq<Slot>, t: seq<Slot>, c: Counter)
    requires multiset(s) == multiset(t)
    ensures Sum(s, c) == Sum(t, c)
    decreases |s|
  {
    if s == [] {
      assert |t| == |multiset(t)| == 0;
    } else {
      var n := |s| - 1;
      var x := s[n];
      assert s == s[..n] + [x];
      assert x in multiset(t);
      var j :| 0 <= j < |t| && t[j] == x;
      var rest := t[..j] + t[j + 1..];
      assert t == t[..j] + [x] + t[j + 1..];
      assert multiset(rest) == multiset(t) - multiset{x};
      assert multiset(s[..n]) == multiset(s) - multiset{x};
      SumPermutation(s[..n], rest, c);
      SumConcat(s[..n], [x], c);
      SumConcat(t[..j] + [x], t[j + 1..], c);
      SumConcat(t[..j], [x], c);
      SumConcat(t[..j], t[j + 1..], c);
      SumOne(x, c);
    }
  }

  lemma SameCountersSameStats(a: TileStats, b: TileStats)
    requires forall c :: Get(a, c) == Get(b, c)
    ensures a == b
  {
    assert Get(a, TileCount) == Get(b, TileCount);
    assert Get(a, NodeCount) == Get(b, NodeCount);
    assert Get(a, PolyCount) == Get(b, PolyCount);
    assert Get(a, VertCount) == Get(b, VertCount);
    assert Get(a, TriCount) == Get(b, TriCount);
    assert Get(a, TriVertCount) == Get(b, TriVertCount);
    assert Get(a, DataBytes) == Get(b, DataBytes);
  }

  /** Visiting the same slots in any other order yields the same totals. */
  lemma TotalsOrderIndependent(s: seq<Slot>, t: seq<Slot>)
    requires multiset(s) == multiset(t)
    ensures Totals(s) == Totals(t)
  {
    TotalsAreWrappedSums(s);
    TotalsAreWrappedSums(t);
    forall c ensures Get(Totals(s), c) == Get(Totals(t), c) {
      SumPermutation(s, t, c);
    }
    SameCountersSameStats(Totals(s), Totals(t));
  }

  /** An empty slot, wherever it sits, changes no total. */
  lemma EmptySlotChangesNothing(a: seq<Slot>, e: Slot, b: seq<Slot>)
    requires !Populated(e)
    ensures Totals(a + [e] + b) == Totals(a + b)
  {
    TotalsAreWrappedSums(a + [e] + b);
    TotalsAreWrappedSums(a + b);
    forall c ensures Get(Totals(a + [e] + b), c) == Get(Totals(a + b), c) {
      SumConcat(a + [e], b, c);
      SumConcat(a, [e], c);
      SumConcat(a, b, c);
      SumOne(e, c);
    }
    SameCountersSameStats(Totals(a + [e] + b), Totals(a + b));
  }

  /** With no populated slot every total is zero. */
  lemma {:induction false} NoPopulatedSlotAllZero(slots: seq<Slot>)
    requires forall i :: 0 <= i < |slots| ==> !Populated(slots[i])
    ensures Totals(slots) == ZERO
  {
    if slots != [] {
      var n := |slots| - 1;
      assert forall i :: 0 <= i < n ==> slots[..n][i] == slots[i];
      NoPopulatedSlotAllZero(slots[..n]);
    }
  }

  /** One more slot visited: the totals accumulate it when it is populated. */
  lemma TotalsStep(slots: seq<Slot>, i: nat)
    requires i < |slots|
    ensures Totals(slots[..i + 1]) ==
      if Populated(slots[i]) then Accumulate(Totals(slots[..i]), slots[i]) else Totals(slots[..i])
  {
    assert slots[..i + 1][..i] == slots[..i];
  }

  /** The "Navmesh stats:" block printed from the seven counters. */
  function Report(t: TileStats): seq<Line>
  {
    [NavmeshStatsHeader, TilesLoaded(t.tileCount), BvTreeNodes(t.nodeCount),
     Polygons(t.polyCount, t.vertCount), Triangles(t.triCount, t.triVertCount),
     DataSize(t.dataSize)]
  }

  /** The command: the process-wide counts come before the navmesh check, and a
      missing navmesh stops it before any slot is visited; otherwise the report
      carries the totals over all slots. */
  method StatsCommand(reg: Registry, player: Actor) returns (lines: seq<Line>, handled: bool)
    ensures handled
    ensures |lines| > 2 && lines[..2] == [StatsHeader, Overall(reg.loadedMaps, reg.loadedTiles)]
    ensures GetNavMesh(reg, player.mapId).None? ==> lines[2..] == [NotLoaded]
    ensures GetNavMesh(reg, player.mapId).Some? ==>
      lines[2..] == Report(Totals(GetNavMesh(reg, player.mapId).value.slots))
  {
    lines := [StatsHeader, Overall(reg.loadedMaps, reg.loadedTiles)];
    var navmesh := GetNavMesh(reg, player.mapId);
    if navmesh.None? {
      lines := lines + [NotLoaded];
      return lines, true;
    }
    var slots := navmesh.value.slots;
    var tileCount: nat, nodeCount: nat, polyCount: nat, vertCount: nat := 0, 0, 0, 0;
    var triCount: nat, triVertCount: nat, dataSize: nat := 0, 0, 0;
    var i := 0;
    while i < |slots|
      invariant 0 <= i <= |slots|
      invariant TileStats(tileCount, nodeCount, polyCount, vertCount, triCount, triVertCount, dataSize)
             == Totals(slots[..i])
    {
      var tile := slots[i];
      TotalsStep(slots, i);
      if tile.None? || tile.value.header.None? {
        i := i + 1;
        continue;
      }
      ghost var before := TileStats(tileCount, nodeCount, polyCount, vertCount, triCount, triVertCount, dataSize);
      var h := tile.value.header.value;
      tileCount := Add32(tileCount, 1);
      nodeCount := Add32(nodeCount, h.bvNodeCount);
      polyCount := Add32(polyCount, h.polyCount);
      vertCount := Add32(vertCount, h.vertCount);
      triCount := Add32(triCount, h.detailTriCount);
      triVertCount := Add32(triVertCount, h.detailVertCount);
      dataSize := Add32(dataSize, tile.value.dataSize);
      assert TileStats(tileCount, nodeCount, polyCount, vertCount, triCount, triVertCount, dataSize)
          == Accumulate(before, tile);
      i := i + 1;
    }
    assert slots[..i] == slots;
    var totals := TileStats(tileCount, nodeCount, polyCount, vertCount, triCount, triVertCount, dataSize);
    assert totals == Totals(slots);
    lines := lines + Report(totals);
    handled := true;
  }
}

/** `.mmap loadedtiles`: one "[x, y]" line per populated tile slot of the
    current map's navmesh. */
module MmapLoadedTiles {
  import opened NavMesh
  import opened Session

  /** The tile lines for the slots, visited from index 0 upwards. */
  function TileLines(slots: seq<Slot>): (lines: seq<Line>)
    ensures |lines| <= |slots|
    ensures forall k :: 0 <= k < |lines| ==> lines[k].TileAt?
  {
    if slots == [] then []
    else
      var n := |slots| - 1;
      if Populated(slots[n]) then TileLines(slots[..n]) + [TileAt(HeaderOf(slots[n]).x, HeaderOf(slots[n]).y)]
      else TileLines(slots[..n])
  }

  /** The k-th line names the header (x, y) of the k-th populated slot: the
      listing covers exactly the populated slots, in increasing slot index. */
  lemma {:induction false} TileLinesFollowPopulatedSlots(slots: seq<Slot>)
    ensures |TileLines(slots)| == |PopulatedIndices(slots)|
    ensures forall k :: 0 <= k < |TileLines(slots)| ==>
      PopulatedIndices(slots)[k] < |slots| &&
      Populated(slots[PopulatedIndices(slots)[k]]) &&
      TileLines(slots)[k] == TileAt(HeaderOf(slots[PopulatedIndices(slots)[k]]).x,
                                    HeaderOf(slots[PopulatedIndices(slots)[k]]).y)
  {
    PopulatedIndicesExact(slots);
    if slots != [] {
      var n := |slots| - 1;
      var prefix := slots[..n];
      TileLinesFollowPopulatedSlots(prefix);
      PopulatedIndicesExact(prefix);
      assert forall i :: 0 <= i < n ==> prefix[i] == slots[i];
    }
  }

  /** With no populated slot nothing is listed. */
  lemma NothingPopulatedNothingListed(slots: seq<Slot>)
    requires forall i :: 0 <= i < |slots| ==> !Populated(slots[i])
    ensures TileLines(slots) == []
  {
  }

  /** The command: without both the navmesh and the query object of the
      player's map and instance only the "not loaded" line is sent; otherwise a
      header and then the tile lines in slot order. */
  method LoadedTilesCommand(reg: Registry, player: Actor) returns (lines: seq<Line>, handled: bool)
    ensures handled
    ensures GetNavMesh(reg, player.mapId).None? || GetNavMeshQuery(reg, player.mapId, player.instanceId).None?
      ==> lines == [NotLoaded]
    ensures GetNavMesh(reg, player.mapId).Some? && GetNavMeshQuery(reg, player.mapId, player.instanceId).Some?
      ==> lines == [LoadedTilesHeader] + TileLines(GetNavMesh(reg, player.mapId).value.slots)
  {
    var navmesh := GetNavMesh(reg, player.mapId);
    var navmeshquery := GetNavMeshQuery(reg, player.mapId, player.instanceId);
    if navmesh.None? || navmeshquery.None? {
      return [NotLoaded], true;
    }
    lines := [LoadedTilesHeader];
    var slots := navmesh.value.slots;
    var i := 0;
    while i < |slots|
      invariant 0 <= i <= |slots|
      invariant lines == [LoadedTilesHeader] + TileLines(slots[..i])
    {
      var tile := slots[i];
      assert slots[..i + 1][..i] == slots[..i];
      if tile.None? || tile.value.header.None? {
        i := i + 1;
        continue;
      }
      lines := lines + [TileAt(tile.value.header.value.x, tile.value.header.value.y)];
      i := i + 1;
    }
    assert slots[..i] == slots;
    handled := true;
  }
}

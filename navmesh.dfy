/** The navigation data the mmap commands read: Detour tiles, the two Detour
    queries they issue, and the process-wide registry of meshes. */
module NavMesh {
  import opened Wrappers

  /** A world position (or a Detour vector), idealised over the reals. */
  datatype Vec3 = Vec3(x: real, y: real, z: real)

  /** The fields of Detour's dtMeshHeader that the commands read. */
  datatype TileHeader = TileHeader(
    x: int, y: int,
    bvNodeCount: int, polyCount: int, vertCount: int,
    detailTriCount: int, detailVertCount: int)

  /** dtMeshTile: its header is null while the slot holds no tile. */
  datatype MeshTile = MeshTile(header: Option<TileHeader>, dataSize: int)

  /** What getTile(i) yields for one pre-allocated tile slot. */
  type Slot = Option<MeshTile>

  /** A slot the commands visit: both the tile and its header are present. */
  predicate Populated(s: Slot)
  {
    s.Some? && s.value.header.Some?
  }

  function HeaderOf(s: Slot): TileHeader
    requires Populated(s)
  {
    s.value.header.value
  }

  /** The indices of the populated slots, collected from slot 0 upwards. */
  function PopulatedIndices(slots: seq<Slot>): seq<nat>
  {
    if slots == [] then []
    else
      var n := |slots| - 1;
      if Populated(slots[n]) then PopulatedIndices(slots[..n]) + [n]
      else PopulatedIndices(slots[..n])
  }

  /** PopulatedIndices lists exactly the populated slots, each once, in
      increasing slot order. */
  lemma {:induction false} PopulatedIndicesExact(slots: seq<Slot>)
    ensures forall k :: 0 <= k < |PopulatedIndices(slots)| ==>
      PopulatedIndices(slots)[k] < |slots| && Populated(slots[PopulatedIndices(slots)[k]])
    ensures forall k, l :: 0 <= k < l < |PopulatedIndices(slots)| ==>
      PopulatedIndices(slots)[k] < PopulatedIndices(slots)[l]
    ensures forall i :: 0 <= i < |slots| ==> (Populated(slots[i]) <==> i in PopulatedIndices(slots))
  {
    if slots != [] {
      var n := |slots| - 1;
      var prefix := slots[..n];
      PopulatedIndicesExact(prefix);
      assert forall i :: 0 <= i < n ==> prefix[i] == slots[i];
      var p := PopulatedIndices(prefix);
      assert forall k :: 0 <= k < |p| ==> p[k] < n;
      if Populated(slots[n]) {
        assert PopulatedIndices(slots) == p + [n];
      } else {
        assert PopulatedIndices(slots) == p;
      }
    }
  }

  /** The outcome of dtNavMeshQuery::findNearestPoly: a failed status, or a
      polygon reference (INVALID_POLYREF when nothing lies within the extents). */
  datatype Nearest = QueryFailed | Found(polyRef: nat)

  const INVALID_POLYREF: nat := 0

  /** The outcome of dtNavMesh::getTileAndPolyByRef: a failed status, or the
      owning tile, which may still be null. */
  datatype TileLookup = LookupFailed | LookupOk(tile: Option<TileHeader>)

  /** A loaded dtNavMesh: the origin from getParams(), the tile slots
      (getMaxTiles() of them), and the polygon-to-tile resolution. */
  datatype Mesh = Mesh(orig: Vec3, slots: seq<Slot>, tileAndPolyByRef: nat -> TileLookup)

  /** A dtNavMeshQuery: the nearest-polygon search around a centre within extents. */
  datatype MeshQuery = MeshQuery(findNearestPoly: (Vec3, Vec3) -> Nearest)

  /** The MMapMgr registry: process-wide counts, meshes per map and query
      objects per (map, instance). */
  datatype Registry = Registry(
    loadedMaps: nat, loadedTiles: nat,
    meshes: map<nat, Mesh>,
    queries: map<(nat, nat), MeshQuery>)

  function GetNavMesh(reg: Registry, mapId: nat): Option<Mesh>
  {
    if mapId in reg.meshes then Some(reg.meshes[mapId]) else None
  }

  function GetNavMeshQuery(reg: Registry, mapId: nat, instanceId: nat): Option<MeshQuery>
  {
    if (mapId, instanceId) in reg.queries then Some(reg.queries[(mapId, instanceId)]) else None
  }
}

/** `.mmap loc`: the grid cell of the player's position computed from the grid
    geometry, the navmesh tile computed from the mesh origin, and the tile that
    Detour resolves through the nearest polygon. */
module MmapLoc {
  import opened Wrappers
  import opened NavMesh
  import opened Session

  /** World extent of one map grid cell (SIZE_OF_GRIDS of GridDefines.h). */
  const SIZE_OF_GRIDS: real := 533.3333

  /** Search box half-extents for the nearest-polygon query, in Detour's axis order. */
  const SEARCH_EXTENTS: Vec3 := Vec3(3.0, 5.0, 3.0)

  /** Conversion of a floating-point value to int32: truncation toward zero. */
  function Trunc(r: real): (n: int)
    ensures 0.0 <= r ==> n as real <= r < n as real + 1.0
    ensures r < 0.0 ==> n as real - 1.0 < r <= n as real
  {
    if r >= 0.0 then r.Floor else -((-r).Floor)
  }

  /** One grid coordinate: the whole expression 32 - coord / SIZE_OF_GRIDS is
      truncated, not only the quotient. */
  function GridCell(coord: real): (g: int)
    ensures coord <= 32.0 * SIZE_OF_GRIDS ==> g == (32.0 - coord / SIZE_OF_GRIDS).Floor
    ensures 32.0 * SIZE_OF_GRIDS < coord ==> g == -((coord / SIZE_OF_GRIDS - 32.0).Floor)
  {
    Trunc(32.0 - coord / SIZE_OF_GRIDS)
  }

  /** On the map (coord at most 32 grid widths), the computed cell is the one
      whose half-open extent (G * (31 - g), G * (32 - g)] holds the coordinate. */
  lemma GridCellCovers(coord: real)
    requires coord <= 32.0 * SIZE_OF_GRIDS
    ensures SIZE_OF_GRIDS * (31 - GridCell(coord)) as real < coord
    ensures coord <= SIZE_OF_GRIDS * (32 - GridCell(coord)) as real
  {
  }

  /** x = 100 lies in cell 31; subtracting a floored quotient from 32 would give 32. */
  lemma GridCellOfHundred()
    ensures GridCell(100.0) == 31
    ensures 32 - (100.0 / SIZE_OF_GRIDS).Floor == 32
  {
  }

  /** The Detour query point: world (x, y, z) in the axis order (y, z, x). */
  function QueryPoint(p: Vec3): Vec3
  {
    Vec3(p.y, p.z, p.x)
  }

  /** The navmesh tile computed from the mesh origin: the world y against
      orig[0] gives tilex, the world x against orig[2] gives tiley. Each offset
      is divided by the grid size and truncated toward zero, so below the origin
      the band holding the offset is the one whose upper end is the tile. */
  function CalcTile(p: Vec3, orig: Vec3): (t: (int, int))
    ensures orig.x <= p.y ==>
      SIZE_OF_GRIDS * t.0 as real <= p.y - orig.x < SIZE_OF_GRIDS * (t.0 + 1) as real
    ensures orig.z <= p.x ==>
      SIZE_OF_GRIDS * t.1 as real <= p.x - orig.z < SIZE_OF_GRIDS * (t.1 + 1) as real
    ensures p.y < orig.x ==>
      SIZE_OF_GRIDS * (t.0 - 1) as real < p.y - orig.x <= SIZE_OF_GRIDS * t.0 as real
    ensures p.x < orig.z ==>
      SIZE_OF_GRIDS * (t.1 - 1) as real < p.x - orig.z <= SIZE_OF_GRIDS * t.1 as real
  {
    (Trunc((p.y - orig.x) / SIZE_OF_GRIDS), Trunc((p.x - orig.z) / SIZE_OF_GRIDS))
  }

  /** 100 units below the origin on either axis gives tile 0, as 100 above it
      does; a floored division would give -1. */
  lemma CalcTileBelowOrigin()
    ensures CalcTile(Vec3(-100.0, -100.0, 0.0), Vec3(0.0, 0.0, 0.0)) == (0, 0)
    ensures CalcTile(Vec3(100.0, 100.0, 0.0), Vec3(0.0, 0.0, 0.0)) == (0, 0)
  {
  }

  /** The "Dt" line for the player's position, and the command's return value. */
  function DtOutcome(mesh: Mesh, query: MeshQuery, pos: Vec3): (r: (Line, bool))
    ensures query.findNearestPoly(QueryPoint(pos), SEARCH_EXTENTS).QueryFailed? ==> r == (DtQueryFailed, true)
    ensures query.findNearestPoly(QueryPoint(pos), SEARCH_EXTENTS) == Found(INVALID_POLYREF) ==> r == (DtInvalidPoly, true)
    ensures Resolves(mesh, query, pos) ==>
      var t := mesh.tileAndPolyByRef(query.findNearestPoly(QueryPoint(pos), SEARCH_EXTENTS).polyRef).tile.value;
      r == (DtTile(t.x, t.y), false)
    ensures (query.findNearestPoly(QueryPoint(pos), SEARCH_EXTENTS).Found? &&
             query.findNearestPoly(QueryPoint(pos), SEARCH_EXTENTS).polyRef != INVALID_POLYREF &&
             !Resolves(mesh, query, pos)) ==> r == (DtNoTile, true)
  {
    match query.findNearestPoly(QueryPoint(pos), SEARCH_EXTENTS)
    case QueryFailed => (DtQueryFailed, true)
    case Found(polyRef) =>
      if polyRef == INVALID_POLYREF then (DtInvalidPoly, true)
      else
        match mesh.tileAndPolyByRef(polyRef)
        case LookupOk(Some(h)) => (DtTile(h.x, h.y), false)
        case _ => (DtNoTile, true)
  }

  /** Every Detour step succeeds: the search status, a valid polygon reference,
      the tile resolution status and a non-null tile. */
  predicate Resolves(mesh: Mesh, query: MeshQuery, pos: Vec3)
  {
    var nearest := query.findNearestPoly(QueryPoint(pos), SEARCH_EXTENTS);
    nearest.Found? && nearest.polyRef != INVALID_POLYREF &&
    mesh.tileAndPolyByRef(nearest.polyRef).LookupOk? &&
    mesh.tileAndPolyByRef(nearest.polyRef).tile.Some?
  }

  function LocCommand(reg: Registry, player: Actor): (r: (seq<Line>, bool))
    // the file-name cell and the swapped grid location need no navmesh
    ensures |r.0| >= 4
    ensures r.0[..3] == [LocHeader,
                         TileFile(player.mapId, GridCell(player.pos.x), GridCell(player.pos.y)),
                         GridLoc(GridCell(player.pos.y), GridCell(player.pos.x))]
    ensures GetNavMesh(reg, player.mapId).None? || GetNavMeshQuery(reg, player.mapId, player.instanceId).None?
      ==> r.0[3..] == [NotLoaded] && r.1
    ensures GetNavMesh(reg, player.mapId).Some? && GetNavMeshQuery(reg, player.mapId, player.instanceId).Some?
      ==> |r.0| == 5 &&
          r.0[3] == Calc(CalcTile(player.pos, GetNavMesh(reg, player.mapId).value.orig).0,
                         CalcTile(player.pos, GetNavMesh(reg, player.mapId).value.orig).1) &&
          (r.0[4].DtQueryFailed? || r.0[4].DtInvalidPoly? || r.0[4].DtNoTile? || r.0[4].DtTile?)
    // a concrete tile is printed, and false returned, exactly when Detour resolves one
    ensures !r.1 <==>
      GetNavMesh(reg, player.mapId).Some? && GetNavMeshQuery(reg, player.mapId, player.instanceId).Some? &&
      Resolves(GetNavMesh(reg, player.mapId).value, GetNavMeshQuery(reg, player.mapId, player.instanceId).value, player.pos)
    ensures r.0[|r.0| - 1].DtTile? <==> !r.1
    // which Dt line each Detour outcome prints, and the tile it names
    ensures GetNavMesh(reg, player.mapId).Some? && GetNavMeshQuery(reg, player.mapId, player.instanceId).Some? ==>
      var mesh := GetNavMesh(reg, player.mapId).value;
      var query := GetNavMeshQuery(reg, player.mapId, player.instanceId).value;
      var nearest := query.findNearestPoly(QueryPoint(player.pos), SEARCH_EXTENTS);
      (nearest.QueryFailed? ==> r.0[4] == DtQueryFailed) &&
      (nearest == Found(INVALID_POLYREF) ==> r.0[4] == DtInvalidPoly) &&
      (Resolves(mesh, query, player.pos) ==>
         r.0[4] == DtTile(mesh.tileAndPolyByRef(nearest.polyRef).tile.value.x,
                          mesh.tileAndPolyByRef(nearest.polyRef).tile.value.y)) &&
      (nearest.Found? && nearest.polyRef != INVALID_POLYREF && !Resolves(mesh, query, player.pos) ==>
         r.0[4] == DtNoTile)
  {
    var gx := GridCell(player.pos.x);
    var gy := GridCell(player.pos.y);
    var head := [LocHeader, TileFile(player.mapId, gx, gy), GridLoc(gy, gx)];
    var navmesh := GetNavMesh(reg, player.mapId);
    var navmeshquery := GetNavMeshQuery(reg, player.mapId, player.instanceId);
    if navmesh.None? || navmeshquery.None? then
      (head + [NotLoaded], true)
    else
      var tile := CalcTile(player.pos, navmesh.value.orig);
      var dt := DtOutcome(navmesh.value, navmeshquery.value, player.pos);
      (head + [Calc(tile.0, tile.1), dt.0], dt.1)
  }

  /** A mesh whose every polygon belongs to the tile with header (15, 20)
      yields the line "Dt [15,20]". */
  lemma SampleResolvedTile(player: Actor)
    ensures
      var h := TileHeader(15, 20, 0, 0, 0, 0, 0);
      var mesh := Mesh(Vec3(0.0, 0.0, 0.0), [Some(NavMesh.MeshTile(Some(h), 0))], ref => LookupOk(Some(h)));
      var query := MeshQuery((c, e) => Found(7));
      var reg := Registry(1, 1, map[player.mapId := mesh], map[(player.mapId, player.instanceId) := query]);
      LocCommand(reg, player).0[4] == DtTile(15, 20) && !LocCommand(reg, player).1
  {
  }
}

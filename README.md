# mmap diagnostic commands: a Dafny model

This project models the `.mmap` chat commands of the game server
(`src/server/scripts/Commands/cs_mmaps.cpp`). They sit on top of the Detour navigation mesh and
the server's `PathGenerator`, and there are five of them:

- `.mmap path [param]` turns an optional text parameter into two strategy flags by prefix tests.
  It then builds a path from the selected target toward the player, reports the result, and
  summons a timed waypoint at every point of the path.
- `.mmap loc` prints three things. The first is the grid cell of the player's position, computed
  from the grid size. The second is the navmesh tile, computed from the mesh origin. The third
  is the tile that Detour resolves through the nearest polygon. It returns `false` only when
  Detour resolves a concrete tile.
- `.mmap loadedtiles` lists the header `(x, y)` of every populated tile slot, in slot order.
- `.mmap stats` prints the process-wide map and tile counts. It then walks every tile slot of the
  current map's navmesh and sums seven `uint32` counters. These counters wrap modulo 2^32.
- `.mmap testarea` computes one default path per creature found in range and reports how many
  it computed.

Each command is a module (`MmapPath`, `MmapLoc`, `MmapLoadedTiles`, `MmapStats`,
`MmapTestArea`). Several modules are shared:

- `NavMesh` holds the Detour tile slots, the two Detour queries and the `MMapMgr` registry.
- `Session` holds the actors, the message kinds and the event trace.
- `PathStrategy` turns the parameter into the flags.
- `UInt32` gives `uint32` wrap-around.

A command's output is a list of message kinds with the values they print. A command that also
computes paths or summons waypoints produces a trace of events instead:
`Say(line)`, `CalculatePath(request)` and `SummonWaypoint(position, lifetime)`.

Three commands run loops: `stats`, `loadedtiles` and `testarea`. Each is a method whose loop
is proved against a function over the slots or creatures. The `path` command's loop over the
path points is also a method. The prefix tests, the label, the cell arithmetic and the Detour
outcome branching are functions.

The code differs from a plain reading of the command in two places, and the model follows the
code:

- The grid cell is `int32(32 - x / SIZE_OF_GRIDS)`. This truncates the whole expression toward
  zero. It is not `32 - floor(x / SIZE_OF_GRIDS)`: for x = 100 the code gives 31, not 32
  (`MmapLoc.GridCellOfHundred`). On the map it is the cell whose extent holds x
  (`MmapLoc.GridCellCovers`).
- Only prefixes are tested. So a parameter such as `truely` selects StraightPath, and `trueray`
  selects StraightPath too. The tests are case-sensitive: `Ray` selects SmoothPath.

`SIZE_OF_GRIDS` is 533.3333, the value `GridDefines.h` defines. GridDefines.h is not part of
this model.

## Model

| member | source | states |
|---|---|---|
| `UInt32.Wrap` | src/server/scripts/Commands/cs_mmaps.cpp:247-253 | converting an int to uint32 gives the value in [0, 2^32) congruent to it modulo 2^32, unchanged when already in range |
| `UInt32.WrapAdd` | src/server/scripts/Commands/cs_mmaps.cpp:247-253 | wrapping after every addition equals wrapping the exact sum once |
| `NavMesh.PopulatedIndicesExact` | src/server/scripts/Commands/cs_mmaps.cpp:241-245 | the visited slots are exactly those whose tile and header are both non-null, each once, in increasing index |
| `PathStrategy.ParseFlags` | src/server/scripts/Commands/cs_mmaps.cpp:83-97 | without a parameter both flags stay false; the two flags are never set together |
| `PathStrategy.FlagsFollowPrefixes` | src/server/scripts/Commands/cs_mmaps.cpp:88-96 | useStraightPath is set exactly by a "true" prefix, useRaycast exactly by a "line" or "ray" prefix |
| `PathStrategy.RaycastImpliesRay` | src/server/scripts/Commands/cs_mmaps.cpp:93 | the "raycast" prefix test is subsumed by the "ray" test |
| `PathStrategy.Label` | src/server/scripts/Commands/cs_mmaps.cpp:111 | the Building label is StraightPath exactly when useStraightPath is set, Raycast exactly when only useRaycast is set, SmoothPath exactly when neither is |
| `PathStrategy.LabelFollowsPrefixTable` | src/server/scripts/Commands/cs_mmaps.cpp:83-111 | the Building label equals a lookup in the prefix table true→StraightPath, line/ray/raycast→Raycast, searched in that order, defaulting to SmoothPath |
| `PathStrategy.DefaultIsSmoothPath` | src/server/scripts/Commands/cs_mmaps.cpp:83-111 | no parameter, or one that starts with none of the prefixes, leaves both flags false and labels SmoothPath |
| `PathStrategy.SampleParameters` | src/server/scripts/Commands/cs_mmaps.cpp:88-111 | true, trueray and truely give StraightPath; ray, raycast and line give Raycast; tru, Ray and no parameter give SmoothPath |
| `MmapPath.PathCommand` | src/server/scripts/Commands/cs_mmaps.cpp:64-129 | the method's trace equals the reference trace `MmapPath.PathTrace`: "not loaded" without a navmesh, the header and the invalid-selection message without a target, otherwise the header, one path request, the report lines, then one 9000 ms waypoint per path point in order; the command returns true |
| `MmapPath.WaypointsProject` | src/server/scripts/Commands/cs_mmaps.cpp:125-126 | the summon loop summons exactly the path points, in order, and sends no line |
| `MmapPath.PathShortCircuits` | src/server/scripts/Commands/cs_mmaps.cpp:66-81 | a missing navmesh gives only "not loaded", whatever the target; a missing target stops after the header; neither computes a path or summons anything |
| `MmapPath.PathComputedOnceAndSummonedPerPoint` | src/server/scripts/Commands/cs_mmaps.cpp:99-126 | exactly one path is computed, for the target toward the player's position with the selected flags, before any summon; one waypoint per point whatever the GM flag; the reported length is the point count even on failure |
| `MmapPath.GmHintExactlyForNonGm` | src/server/scripts/Commands/cs_mmaps.cpp:122-123 | the GM hint is sent exactly when the player is not a game master |
| `MmapLoc.Trunc` | src/server/scripts/Commands/cs_mmaps.cpp:138-139 | the int32 conversion truncates toward zero: below a non-negative value by less than 1, above a negative one by less than 1 |
| `MmapLoc.GridCell` | src/server/scripts/Commands/cs_mmaps.cpp:138-139 | the cell is 32 − x/G rounded toward zero: its floor on the map side (x ≤ 32·G), minus the floor of its magnitude beyond it |
| `MmapLoc.GridCellCovers` | src/server/scripts/Commands/cs_mmaps.cpp:138-139 | on the map, cell g is the one whose extent (G·(31−g), G·(32−g)] holds the coordinate |
| `MmapLoc.GridCellOfHundred` | src/server/scripts/Commands/cs_mmaps.cpp:138 | x = 100 lies in cell 31, where 32 minus the floored quotient would give 32 |
| `MmapLoc.CalcTile` | src/server/scripts/Commands/cs_mmaps.cpp:159-160 | the tile is the offset from the origin divided by G and truncated toward zero: tile x is the index t with G·t ≤ y − orig[0] < G·(t+1) when the offset is not negative, and with G·(t−1) < y − orig[0] ≤ G·t when it is negative (an offset of −100 gives tile 0, like +100); tile y likewise with x − orig[2] |
| `MmapLoc.CalcTileBelowOrigin` | src/server/scripts/Commands/cs_mmaps.cpp:159-160 | an offset of −100 from the origin on either axis gives tile 0, the same as +100, where a floored division would give −1 |
| `MmapLoc.DtOutcome` | src/server/scripts/Commands/cs_mmaps.cpp:164-191 | a failed nearest-polygon search gives the query-failed Dt line and true; an invalid reference gives the invalid-poly line and true; a reference that resolves to a non-null tile gives that tile's header (x, y) and false; a valid reference that does not resolve gives the no-tile line and true |
| `MmapLoc.LocCommand` | src/server/scripts/Commands/cs_mmaps.cpp:131-192 | the file-name cell and the swapped gridloc (gy, gx) are printed even without a navmesh; a missing navmesh or query gives "not loaded"; otherwise the Calc tile from the origin (y − orig[0], x − orig[2]) and one Dt line: query-failed when the search fails, invalid-poly for the invalid reference, the resolved tile's header (x, y) when the reference resolves to a non-null tile, no-tile otherwise; false is returned exactly in the resolved case |
| `MmapLoc.SampleResolvedTile` | src/server/scripts/Commands/cs_mmaps.cpp:179-184 | a polygon owned by the tile with header (15, 20) gives "Dt [15,20]" and returns false |
| `MmapLoadedTiles.TileLines` | src/server/scripts/Commands/cs_mmaps.cpp:207-214 | the listing has at most one line per slot and every line is a tile position |
| `MmapLoadedTiles.TileLinesFollowPopulatedSlots` | src/server/scripts/Commands/cs_mmaps.cpp:207-214 | the k-th listed line is the header (x, y) of the k-th populated slot, in increasing slot index |
| `MmapLoadedTiles.NothingPopulatedNothingListed` | src/server/scripts/Commands/cs_mmaps.cpp:207-214 | with no populated slot no tile line is listed |
| `MmapLoadedTiles.LoadedTilesCommand` | src/server/scripts/Commands/cs_mmaps.cpp:194-217 | without both the navmesh and the query object only "not loaded" is sent; otherwise a header, then exactly the tile lines in slot order |
| `MmapStats.TotalsAreWrappedSums` | src/server/scripts/Commands/cs_mmaps.cpp:234-254 | each counter equals the exact sum of its header field (or data size, or 1 for the tile count) over the populated slots, modulo 2^32 |
| `MmapStats.TileCountIsPopulatedSlots` | src/server/scripts/Commands/cs_mmaps.cpp:241-247 | the tile counter is the number of populated slots (modulo 2^32), the same slots `loadedtiles` lists |
| `MmapStats.SumPermutation` | src/server/scripts/Commands/cs_mmaps.cpp:241-254 | the exact sums do not depend on the slot order |
| `MmapStats.TotalsOrderIndependent` | src/server/scripts/Commands/cs_mmaps.cpp:241-254 | any permutation of the slots yields the same seven totals |
| `MmapStats.EmptySlotChangesNothing` | src/server/scripts/Commands/cs_mmaps.cpp:243-245 | inserting an empty slot anywhere changes no total |
| `MmapStats.NoPopulatedSlotAllZero` | src/server/scripts/Commands/cs_mmaps.cpp:234-254 | with no populated slot every total is zero |
| `MmapStats.StatsCommand` | src/server/scripts/Commands/cs_mmaps.cpp:219-264 | the process-wide counts are printed before the navmesh check; a missing navmesh then gives only "not loaded"; otherwise the report carries the seven counters the loop leaves, which equal the reference fold `MmapStats.Totals` over all slots |
| `MmapTestArea.TestArea` | src/server/scripts/Commands/cs_mmaps.cpp:266-300 | the method's trace equals the reference trace `MmapTestArea.TestAreaTrace`: the found-creatures count, one default path request per creature in order, then the path count and time, or only the range message without creatures; the path counter is the creature count modulo 2^32 |
| `MmapTestArea.AttemptsProject` | src/server/scripts/Commands/cs_mmaps.cpp:286-291 | the k-th path computed is the default path for the k-th creature toward the player; nothing else happens in the loop |
| `MmapTestArea.OnePathPerCreature` | src/server/scripts/Commands/cs_mmaps.cpp:277-297 | exactly one default path per creature, none skipped; the count and time are reported; with no creature only the range message is sent |

## Left out

- Command-table registration and `AddSC_mmaps_commandscript` (lines 46-62, 303-306) are not modelled: they are framework glue.
- Message text formatting is not modelled. This covers `%.3f` positions, the `%03u%02i%02i.mmtile` file name, the signed `%i` printing of the path count, and the megabyte figure of line 261. Each line is modelled as its kind and the values it prints; the data-size line carries the byte counter.
- Detour's `findNearestPoly`, `getTileAndPolyByRef`, `getTile` and `getParams` are inputs, not code: a query function, a resolution function, the slot list and the origin.
- `PathGenerator::CalculatePath`, `GetPath` and `GetPathType` are one input function from a request to a result.
- The creature range search (lines 272-275) is not modelled: the found creatures are a parameter.
- The clock (`getMSTime`, `getMSTimeDiff`) is not modelled: the elapsed milliseconds are a parameter.
- `SummonCreature` is recorded only as an event carrying the position and the 9000 ms lifetime. The creature entry and orientation are not recorded.
- Float rounding is not modelled: positions and the cell arithmetic are over the reals.
- MmapLoc.Trunc: does not model out-of-range float-to-int32 conversion, which is undefined behaviour in C++. The result is an unbounded integer.
- MmapPath.PathCommand: does not model a null player. Line 66 already dereferences the player pointer, so the `!player` test at line 77 cannot be reached with a null player. Only a missing target is modelled.
- The Detour tile returned at line 183 is assumed to have a header. The source dereferences it without a check.
- Each command reads one snapshot of the registry. Tiles unloading while a command runs (a concurrency concern of the mesh provider) is not modelled.

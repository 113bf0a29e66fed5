/** What a command sees of its caller and what it produces: the chat lines it
    sends, the path computations it asks for and the waypoints it summons. */
module Session {
  import opened NavMesh

  /** A unit of the world: the invoking player, the selected target or a creature. */
  datatype Actor = Actor(
    guid: nat, name: string,
    mapId: nat, instanceId: nat,
    pos: Vec3, isGameMaster: bool)

  /** One system message, by kind and with the values it prints. */
  datatype Line =
    | NotLoaded                                   // "NavMesh not loaded for current map."
    // .mmap path
    | PathHeader
    | InvalidSelection
    | PathOf(moverName: string, destName: string)
    | Building(strategy: string)
    | PathSummary(result: bool, length: nat, pathType: nat)
    | StartPosition(p: Vec3)
    | EndPosition(p: Vec3)
    | ActualEndPosition(p: Vec3)
    | GmHint
    // .mmap loc
    | LocHeader
    | TileFile(mapId: nat, gx: int, gy: int)
    | GridLoc(first: int, second: int)
    | Calc(tileX: int, tileY: int)
    | DtQueryFailed                               // "Dt     [??,??] (invalid poly, ...)"
    | DtInvalidPoly                               // "Dt     [??, ??] (invalid poly, ...)"
    | DtNoTile
    | DtTile(x: int, y: int)
    // .mmap loadedtiles
    | LoadedTilesHeader
    | TileAt(x: int, y: int)
    // .mmap stats
    | StatsHeader
    | Overall(maps: nat, tiles: nat)
    | NavmeshStatsHeader
    | TilesLoaded(tiles: nat)
    | BvTreeNodes(nodes: nat)
    | Polygons(polys: nat, verts: nat)
    | Triangles(tris: nat, verts: nat)
    | DataSize(bytes: nat)
    // .mmap testarea
    | FoundCreatures(count: nat)
    | Generated(paths: nat, ms: nat)
    | NoCreatures(radius: real)

  /** A PathGenerator built for `mover`, configured and asked for a path to `dest`. */
  datatype PathRequest = PathRequest(
    mover: nat, dest: Vec3,
    useStraightPath: bool, useRaycast: bool, forceDest: bool)

  /** What the path engine reports back for one request. */
  datatype PathResult = PathResult(
    ok: bool, points: seq<Vec3>, pathType: nat,
    start: Vec3, end: Vec3, actualEnd: Vec3)

  datatype Event =
    | Say(line: Line)
    | CalculatePath(request: PathRequest)
    | SummonWaypoint(at: Vec3, despawnMs: nat)

  function SayAll(lines: seq<Line>): (t: seq<Event>)
    ensures |t| == |lines|
    ensures forall i :: 0 <= i < |t| ==> t[i] == Say(lines[i])
  {
    seq(|lines|, i requires 0 <= i < |lines| => Say(lines[i]))
  }

  /** The lines of a trace, in order. */
  function Said(t: seq<Event>): seq<Line>
  {
    if t == [] then []
    else (if t[0].Say? then [t[0].line] else []) + Said(t[1..])
  }

  /** The path computations of a trace, in order. */
  function Requests(t: seq<Event>): seq<PathRequest>
  {
    if t == [] then []
    else (if t[0].CalculatePath? then [t[0].request] else []) + Requests(t[1..])
  }

  /** The positions of the waypoints summoned in a trace, in order. */
  function Summoned(t: seq<Event>): seq<Vec3>
  {
    if t == [] then []
    else (if t[0].SummonWaypoint? then [t[0].at] else []) + Summoned(t[1..])
  }

  lemma {:induction false} SaidConcat(a: seq<Event>, b: seq<Event>)
    ensures Said(a + b) == Said(a) + Said(b)
  {
    if a != [] {
      assert (a + b)[0] == a[0] && (a + b)[1..] == a[1..] + b;
      SaidConcat(a[1..], b);
    } else {
      assert a + b == b;
    }
  }

  lemma {:induction false} RequestsConcat(a: seq<Event>, b: seq<Event>)
    ensures Requests(a + b) == Requests(a) + Requests(b)
  {
    if a != [] {
      assert (a + b)[0] == a[0] && (a + b)[1..] == a[1..] + b;
      RequestsConcat(a[1..], b);
    } else {
      assert a + b == b;
    }
  }

  lemma {:induction false} SummonedConcat(a: seq<Event>, b: seq<Event>)
    ensures Summoned(a + b) == Summoned(a) + Summoned(b)
  {
    if a != [] {
      assert (a + b)[0] == a[0] && (a + b)[1..] == a[1..] + b;
      SummonedConcat(a[1..], b);
    } else {
      assert a + b == b;
    }
  }

  /** The three projections distribute over concatenation of traces. */
  lemma ProjectConcat(a: seq<Event>, b: seq<Event>)
    ensures Said(a + b) == Said(a) + Said(b)
    ensures Requests(a + b) == Requests(a) + Requests(b)
    ensures Summoned(a + b) == Summoned(a) + Summoned(b)
  {
    SaidConcat(a, b);
    RequestsConcat(a, b);
    SummonedConcat(a, b);
  }

  /** A trace of messages only says those messages and does nothing else. */
  lemma {:induction false} SayAllProjects(lines: seq<Line>)
    ensures Said(SayAll(lines)) == lines
    ensures Requests(SayAll(lines)) == []
    ensures Summoned(SayAll(lines)) == []
  {
    if lines != [] {
      assert SayAll(lines)[1..] == SayAll(lines[1..]);
      SayAllProjects(lines[1..]);
    }
  }
}

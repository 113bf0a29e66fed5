/** `.mmap path [param]`: a path from the selected target toward the player,
    built with the strategy the parameter selects, reported line by line, and a
    timed waypoint summoned at every point of it. */
module MmapPath {
  import opened Wrappers
  import opened NavMesh
  import opened Session
  import opened PathStrategy

  /** Lifetime of each summoned waypoint (TEMPSUMMON_TIMED_DESPAWN). */
  const WAYPOINT_DESPAWN_MS: nat := 9000

  /** The PathGenerator is built for the target and asked for the player's
      position, without forcing the destination. */
  function Request(player: Actor, target: Actor, param: Option<string>): PathRequest
  {
    var f := ParseFlags(param);
    PathRequest(target.guid, player.pos, f.useStraightPath, f.useRaycast, false)
  }

  /** The lines printed once the path is computed. */
  function Report(player: Actor, target: Actor, param: Option<string>, res: PathResult): seq<Line>
  {
    [PathOf(target.name, player.name),
     Building(Label(ParseFlags(param))),
     PathSummary(res.ok, |res.points|, res.pathType),
     StartPosition(res.start), EndPosition(res.end), ActualEndPosition(res.actualEnd)]
    + (if player.isGameMaster then [] else [GmHint])
  }

  /** One summon per path point, in path order. */
  function Waypoints(points: seq<Vec3>): seq<Event>
  {
    if points == [] then []
    else Waypoints(points[..|points| - 1]) + [SummonWaypoint(points[|points| - 1], WAYPOINT_DESPAWN_MS)]
  }

  /** Everything the command does, in order. */
  function PathTrace(reg: Registry, player: Actor, target: Option<Actor>, param: Option<string>,
                     engine: PathRequest -> PathResult): seq<Event>
  {
    if GetNavMesh(reg, player.mapId).None? then [Say(NotLoaded)]
    else if target.None? then [Say(PathHeader), Say(InvalidSelection)]
    else
      var req := Request(player, target.value, param);
      var res := engine(req);
      [Say(PathHeader), CalculatePath(req)] + SayAll(Report(player, target.value, param, res)) + Waypoints(res.points)
  }

  method PathCommand(reg: Registry, player: Actor, target: Option<Actor>, param: Option<string>,
                     engine: PathRequest -> PathResult) returns (trace: seq<Event>, handled: bool)
    ensures handled
    ensures trace == PathTrace(reg, player, target, param, engine)
  {
    if GetNavMesh(reg, player.mapId).None? {
      return [Say(NotLoaded)], true;
    }
    trace := [Say(PathHeader)];
    if target.None? {
      return trace + [Say(InvalidSelection)], true;
    }
    var flags := ParseFlags(param);
    var req := PathRequest(target.value.guid, player.pos, flags.useStraightPath, flags.useRaycast, false);
    trace := trace + [CalculatePath(req)];
    var res := engine(req);
    var lines := [PathOf(target.value.name, player.name),
                  Building(Label(flags)),
                  PathSummary(res.ok, |res.points|, res.pathType),
                  StartPosition(res.start), EndPosition(res.end), ActualEndPosition(res.actualEnd)];
    if !player.isGameMaster {
      lines := lines + [GmHint];
    }
    assert req == Request(player, target.value, param);
    assert lines == Report(player, target.value, param, res);
    trace := trace + SayAll(lines);
    ghost var reported := trace;
    assert reported == [Say(PathHeader), CalculatePath(req)] + SayAll(Report(player, target.value, param, res));
    var points := res.points;
    var i := 0;
    while i < |points|
      invariant 0 <= i <= |points|
      invariant trace == reported + Waypoints(points[..i])
    {
      assert points[..i + 1][..i] == points[..i];
      trace := trace + [SummonWaypoint(points[i], WAYPOINT_DESPAWN_MS)];
      i := i + 1;
    }
    assert points[..i] == points;
    assert trace == reported + Waypoints(res.points);
    handled := true;
  }

  /** The waypoints summon exactly the path points, in order, and do nothing else. */
  lemma {:induction false} WaypointsProject(points: seq<Vec3>)
    ensures Summoned(Waypoints(points)) == points
    ensures Said(Waypoints(points)) == []
    ensures Requests(Waypoints(points)) == []
  {
    if points != [] {
      var n := |points| - 1;
      WaypointsProject(points[..n]);
      var last := [SummonWaypoint(points[n], WAYPOINT_DESPAWN_MS)];
      ProjectConcat(Waypoints(points[..n]), last);
      assert last[1..] == [];
      assert points[..n] + [points[n]] == points;
    }
  }

  /** The navmesh check comes first: without a navmesh the command says only
      that, whatever the selection; without a target it stops after the
      header. Neither case computes a path or summons anything. */
  lemma PathShortCircuits(reg: Registry, player: Actor, target: Option<Actor>, param: Option<string>,
                          engine: PathRequest -> PathResult)
    requires GetNavMesh(reg, player.mapId).None? || target.None?
    ensures GetNavMesh(reg, player.mapId).None? ==> Said(PathTrace(reg, player, target, param, engine)) == [NotLoaded]
    ensures GetNavMesh(reg, player.mapId).Some? ==>
      Said(PathTrace(reg, player, target, param, engine)) == [PathHeader, InvalidSelection]
    ensures Requests(PathTrace(reg, player, target, param, engine)) == []
    ensures Summoned(PathTrace(reg, player, target, param, engine)) == []
  {
    var t := PathTrace(reg, player, target, param, engine);
    if GetNavMesh(reg, player.mapId).None? {
      assert t == SayAll([NotLoaded]);
      SayAllProjects([NotLoaded]);
    } else {
      assert t == SayAll([PathHeader, InvalidSelection]);
      SayAllProjects([PathHeader, InvalidSelection]);
    }
  }

  /** The trace of a computed path projects onto its header and report lines,
      its one request and its waypoints. */
  lemma SuccessTraceProjects(req: PathRequest, lines: seq<Line>, points: seq<Vec3>)
    ensures
      var t := [Say(PathHeader), CalculatePath(req)] + SayAll(lines) + Waypoints(points);
      Said(t) == [PathHeader] + lines && Requests(t) == [req] && Summoned(t) == points
  {
    var head := [Say(PathHeader), CalculatePath(req)];
    ProjectConcat(head + SayAll(lines), Waypoints(points));
    ProjectConcat(head, SayAll(lines));
    SayAllProjects(lines);
    WaypointsProject(points);
    assert head[1..][1..] == [];
    assert Said(head) == [PathHeader];
    assert Requests(head) == [req];
    assert Summoned(head) == [];
  }

  /** With a navmesh and a target, exactly one path is computed: for the target,
      toward the player's position, with the selected flags. Then one waypoint
      is summoned per path point, whether or not the player is a game master,
      and the reported length is the number of points, even on failure. */
  lemma PathComputedOnceAndSummonedPerPoint(reg: Registry, player: Actor, target: Option<Actor>,
                                            param: Option<string>, engine: PathRequest -> PathResult)
    requires GetNavMesh(reg, player.mapId).Some? && target.Some?
    ensures
      var t := PathTrace(reg, player, target, param, engine);
      var f := ParseFlags(param);
      var req := PathRequest(target.value.guid, player.pos, f.useStraightPath, f.useRaycast, false);
      Requests(t) == [req] &&
      Summoned(t) == engine(req).points &&
      PathSummary(engine(req).ok, |engine(req).points|, engine(req).pathType) in Said(t) &&
      t[1] == CalculatePath(req) &&
      (forall i :: 0 <= i < |t| && t[i].SummonWaypoint? ==> 1 < i)
  {
    var req := Request(player, target.value, param);
    var res := engine(req);
    var lines := Report(player, target.value, param, res);
    SuccessTraceProjects(req, lines, res.points);
    assert ([PathHeader] + lines)[3] == PathSummary(res.ok, |res.points|, res.pathType);
  }

  /** The hint line is sent exactly when the player is not a game master. */
  lemma GmHintExactlyForNonGm(reg: Registry, player: Actor, target: Option<Actor>,
                              param: Option<string>, engine: PathRequest -> PathResult)
    requires GetNavMesh(reg, player.mapId).Some? && target.Some?
    ensures GmHint in Said(PathTrace(reg, player, target, param, engine)) <==> !player.isGameMaster
  {
    var req := Request(player, target.value, param);
    var res := engine(req);
    var lines := Report(player, target.value, param, res);
    SuccessTraceProjects(req, lines, res.points);
    assert GmHint !in lines[..6];
    assert GmHint in lines <==> GmHint in lines[6..];
  }
}

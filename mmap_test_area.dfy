/** `.mmap testarea`: one default path per creature found around the player,
    each toward the player's position, then the count and the elapsed time. */
module MmapTestArea {
  import opened UInt32
  import opened NavMesh
  import opened Session

  const TEST_AREA_RADIUS: real := 40.0

  /** A PathGenerator for the creature with its default settings. */
  function DefaultRequest(creature: Actor, dest: Vec3): PathRequest
  {
    PathRequest(creature.guid, dest, false, false, false)
  }

  /** The path computations for the creatures, in list order. */
  function Attempts(creatures: seq<Actor>, dest: Vec3): seq<Event>
  {
    if creatures == [] then []
    else
      var n := |creatures| - 1;
      Attempts(creatures[..n], dest) + [CalculatePath(DefaultRequest(creatures[n], dest))]
  }

  /** Everything the command does, given the creatures the range search found
      and the milliseconds the clock reports for the loop. */
  function TestAreaTrace(player: Actor, creatures: seq<Actor>, elapsedMs: nat): seq<Event>
  {
    if creatures == [] then [Say(NoCreatures(TEST_AREA_RADIUS))]
    else
      [Say(FoundCreatures(|creatures|))] + Attempts(creatures, player.pos)
      + [Say(Generated(Wrap(|creatures|), elapsedMs))]
  }

  method TestArea(player: Actor, creatures: seq<Actor>, elapsedMs: nat) returns (trace: seq<Event>, handled: bool)
    ensures handled
    ensures trace == TestAreaTrace(player, creatures, elapsedMs)
  {
    if creatures == [] {
      return [Say(NoCreatures(TEST_AREA_RADIUS))], true;
    }
    trace := [Say(FoundCreatures(|creatures|))];
    var paths: nat := 0;
    var i := 0;
    while i < |creatures|
      invariant 0 <= i <= |creatures|
      invariant paths == Wrap(i)
      invariant trace == [Say(FoundCreatures(|creatures|))] + Attempts(creatures[..i], player.pos)
    {
      assert creatures[..i + 1][..i] == creatures[..i];
      trace := trace + [CalculatePath(DefaultRequest(creatures[i], player.pos))];
      WrapAdd(i, 1);
      paths := Wrap(paths + 1);
      i := i + 1;
    }
    assert creatures[..i] == creatures;
    trace := trace + [Say(Generated(paths, elapsedMs))];
    handled := true;
  }

  /** The k-th computation is for the k-th creature, and nothing else happens. */
  lemma {:induction false} AttemptsProject(creatures: seq<Actor>, dest: Vec3)
    ensures Requests(Attempts(creatures, dest)) ==
      seq(|creatures|, k requires 0 <= k < |creatures| => DefaultRequest(creatures[k], dest))
    ensures Said(Attempts(creatures, dest)) == []
    ensures Summoned(Attempts(creatures, dest)) == []
  {
    if creatures != [] {
      var n := |creatures| - 1;
      AttemptsProject(creatures[..n], dest);
      var last := [CalculatePath(DefaultRequest(creatures[n], dest))];
      ProjectConcat(Attempts(creatures[..n], dest), last);
      assert last[1..] == [];
    }
  }

  /** Exactly one default path per creature, each toward the player's position,
      none ever skipped; the reported count is the number of creatures as a
      uint32. With no creature only the range message is sent. */
  lemma OnePathPerCreature(player: Actor, creatures: seq<Actor>, elapsedMs: nat)
    ensures Requests(TestAreaTrace(player, creatures, elapsedMs)) ==
      seq(|creatures|, k requires 0 <= k < |creatures| => DefaultRequest(creatures[k], player.pos))
    ensures creatures == [] ==> Said(TestAreaTrace(player, creatures, elapsedMs)) == [NoCreatures(TEST_AREA_RADIUS)]
    ensures creatures != [] ==>
      Said(TestAreaTrace(player, creatures, elapsedMs)) ==
      [FoundCreatures(|creatures|), Generated(Wrap(|creatures|), elapsedMs)]
  {
    var t := TestAreaTrace(player, creatures, elapsedMs);
    if creatures == [] {
      assert t == SayAll([NoCreatures(TEST_AREA_RADIUS)]);
      SayAllProjects([NoCreatures(TEST_AREA_RADIUS)]);
    } else {
      var first := [Say(FoundCreatures(|creatures|))];
      var attempts := Attempts(creatures, player.pos);
      var last := [Say(Generated(Wrap(|creatures|), elapsedMs))];
      AttemptsProject(creatures, player.pos);
      ProjectConcat(first + attempts, last);
      ProjectConcat(first, attempts);
      assert first[1..] == [] && last[1..] == [];
    }
  }
}

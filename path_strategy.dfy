/** How `.mmap path [param]` turns its optional free-text parameter into the
    PathGenerator's two strategy flags and the strategy name it reports. */
module PathStrategy {
  import opened Wrappers

  /** std::string::starts_with. */
  predicate StartsWith(s: string, prefix: string)
  {
    |prefix| <= |s| && s[..|prefix|] == prefix
  }

  datatype Flags = Flags(useStraightPath: bool, useRaycast: bool)

  /** The two independent prefix tests on the parameter, as the command runs
      them; an absent parameter leaves both flags false. */
  function ParseFlags(param: Option<string>): (f: Flags)
    ensures param.None? ==> f == Flags(false, false)
    ensures !(f.useStraightPath && f.useRaycast)
  {
    match param
    case None => Flags(false, false)
    case Some(s) =>
      var straight := StartsWith(s, "true");
      var raycast := StartsWith(s, "line") || StartsWith(s, "ray") || StartsWith(s, "raycast");
      assert straight ==> s[0] == s[..4][0] == 't';
      assert raycast ==> s[0] == 'l' || s[0] == 'r';
      Flags(straight, raycast)
  }

  /** The name printed on the "Building:" line. */
  function Label(f: Flags): (l: string)
    ensures l == "StraightPath" <==> f.useStraightPath
    ensures l == "Raycast" <==> !f.useStraightPath && f.useRaycast
    ensures l == "SmoothPath" <==> !f.useStraightPath && !f.useRaycast
  {
    if f.useStraightPath then "StraightPath" else if f.useRaycast then "Raycast" else "SmoothPath"
  }

  datatype Strategy = StraightPath | Raycast | SmoothPath

  function Name(s: Strategy): string
  {
    match s
    case StraightPath => "StraightPath"
    case Raycast => "Raycast"
    case SmoothPath => "SmoothPath"
  }

  /** Reference definition of the selection: a table from prefix to strategy,
      searched in priority order, falling back to SmoothPath. */
  const PREFIX_TABLE: seq<(string, Strategy)> :=
    [("true", StraightPath), ("line", Raycast), ("ray", Raycast), ("raycast", Raycast)]

  function FirstMatch(s: string, table: seq<(string, Strategy)>): Strategy
  {
    if table == [] then SmoothPath
    else if StartsWith(s, table[0].0) then table[0].1
    else FirstMatch(s, table[1..])
  }

  function Select(param: Option<string>): Strategy
  {
    match param
    case None => SmoothPath
    case Some(s) => FirstMatch(s, PREFIX_TABLE)
  }

  /** The two flags and the label on line 111 agree with the priority table
      for every parameter. */
  lemma {:induction false} LabelFollowsPrefixTable(param: Option<string>)
    ensures Label(ParseFlags(param)) == Name(Select(param))
  {
    if param.Some? {
      var s := param.value;
      var t1 := [("line", Raycast), ("ray", Raycast), ("raycast", Raycast)];
      var t2 := [("ray", Raycast), ("raycast", Raycast)];
      var t3 := [("raycast", Raycast)];
      assert PREFIX_TABLE[1..] == t1 && t1[1..] == t2 && t2[1..] == t3 && t3[1..] == [];
      assert FirstMatch(s, t3) == if StartsWith(s, "raycast") then Raycast else SmoothPath;
      assert FirstMatch(s, t2) == if StartsWith(s, "ray") then Raycast else FirstMatch(s, t3);
      assert FirstMatch(s, t1) == if StartsWith(s, "line") then Raycast else FirstMatch(s, t2);
      assert Select(param) == if StartsWith(s, "true") then StraightPath else FirstMatch(s, t1);
    }
  }

  /** The "raycast" test is subsumed by the "ray" test. */
  lemma RaycastImpliesRay(s: string)
    ensures StartsWith(s, "raycast") ==> StartsWith(s, "ray")
  {
  }

  /** useStraightPath is set exactly by a "true" prefix and useRaycast exactly
      by a "line" or "ray" prefix. */
  lemma FlagsFollowPrefixes(s: string)
    ensures ParseFlags(Some(s)).useStraightPath <==> StartsWith(s, "true")
    ensures ParseFlags(Some(s)).useRaycast <==> StartsWith(s, "line") || StartsWith(s, "ray")
  {
  }

  /** Without a parameter, or with one none of the prefixes starts, both flags
      stay false and the default strategy is reported. */
  lemma DefaultIsSmoothPath(param: Option<string>)
    requires param.Some? ==>
      !StartsWith(param.value, "true") && !StartsWith(param.value, "line") && !StartsWith(param.value, "ray")
    ensures ParseFlags(param) == Flags(false, false)
    ensures Label(ParseFlags(param)) == "SmoothPath"
  {
  }

  /** Sample parameters: only the prefix is looked at, and the comparison is
      case-sensitive. */
  lemma SampleParameters()
    ensures Label(ParseFlags(Some("true"))) == "StraightPath"
    ensures Label(ParseFlags(Some("trueray"))) == "StraightPath"
    ensures Label(ParseFlags(Some("truely"))) == "StraightPath"
    ensures Label(ParseFlags(Some("raycast"))) == "Raycast"
    ensures Label(ParseFlags(Some("ray"))) == "Raycast"
    ensures Label(ParseFlags(Some("line"))) == "Raycast"
    ensures Label(ParseFlags(Some("tru"))) == "SmoothPath"
    ensures Label(ParseFlags(Some("Ray"))) == "SmoothPath"
    ensures Label(ParseFlags(None)) == "SmoothPath"
  {
    assert "Ray"[..3][0] != "ray"[0];
  }
}

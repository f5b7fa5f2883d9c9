/**
 * Resolving the lane an emergency vehicle is on to an approach direction
 * (PressureBasedController._get_direction_from_lane, src/logic.py:436-441):
 * a lane belongs to the first approach, in APPROACH_LANES order, that lists
 * it or one of whose lanes' stem (the text before its last '_') is a prefix
 * of it.
 */
module Lanes {
  import opened Wrappers
  import opened Phases
  import opened Config

  /** Index of the last occurrence of c in s, if any. */
  function LastIndexOf(s: string, c: char): (r: Option<nat>)
    ensures r.None? <==> c !in s
    ensures r.Some? ==> r.value < |s| && s[r.value] == c && c !in s[r.value + 1..]
  {
    if |s| == 0 then None
    else if s[|s| - 1] == c then Some(|s| - 1)
    else
      var r := LastIndexOf(s[..|s| - 1], c);
      assert s == s[..|s| - 1] + [s[|s| - 1]];
      r
  }

  /** `s.rsplit('_', 1)[0]`: everything before the last '_', or all of s when it has none. */
  function Stem(s: string): (r: string)
    ensures r <= s
    ensures '_' !in s ==> r == s
    ensures '_' in s ==> |r| < |s| && s[|r|] == '_' && '_' !in s[|r| + 1..]
  {
    match LastIndexOf(s, '_')
    case None => s
    case Some(i) => s[..i]
  }

  /** `lane_id in lanes or any(lane_id.startswith(stem(l)) for l in lanes)`. */
  predicate LaneMatches(lane: string, lanes: seq<string>)
  {
    lane in lanes || exists l :: l in lanes && Stem(l) <= lane
  }

  /** Index in ApproachLanes of the first approach the lane matches, searching from k. */
  function MatchFrom(lane: string, k: nat): (r: Option<nat>)
    requires k <= |ApproachLanes|
    ensures r.None? ==> forall j :: k <= j < |ApproachLanes| ==> !LaneMatches(lane, ApproachLanes[j].1)
    ensures r.Some? ==> k <= r.value < |ApproachLanes| && LaneMatches(lane, ApproachLanes[r.value].1)
    ensures r.Some? ==> forall j :: k <= j < r.value ==> !LaneMatches(lane, ApproachLanes[j].1)
    decreases |ApproachLanes| - k
  {
    if k == |ApproachLanes| then None
    else if LaneMatches(lane, ApproachLanes[k].1) then Some(k)
    else MatchFrom(lane, k + 1)
  }

  /** The approach a lane belongs to; None stands for the source's 'unknown'. */
  function DirectionFromLane(lane: string): (r: Option<Direction>)
    ensures r.None? <==> forall j :: 0 <= j < |ApproachLanes| ==> !LaneMatches(lane, ApproachLanes[j].1)
    ensures r.Some? ==>
      exists j :: (0 <= j < |ApproachLanes| && ApproachLanes[j].0 == r.value
        && LaneMatches(lane, ApproachLanes[j].1)
        && forall i :: 0 <= i < j ==> !LaneMatches(lane, ApproachLanes[i].1))
  {
    match MatchFrom(lane, 0)
    case None => None
    case Some(j) => Some(ApproachLanes[j].0)
  }

  /** A lane listed in APPROACH_LANES also matches through its own stem. */
  lemma ListedLaneMatchesByStem(lane: string, lanes: seq<string>)
    requires lane in lanes
    ensures exists l :: l in lanes && Stem(l) <= lane
  {
    assert Stem(lane) <= lane;
  }

  /** The stem of `a + "_" + b` is a when b has no '_'. */
  lemma {:induction false} StemOfJoined(a: string, b: string)
    requires '_' !in b
    ensures Stem(a + "_" + b) == a
  {
    var s := a + "_" + b;
    if b == [] {
      assert s[|s| - 1] == '_';
      assert s[..|s| - 1] == a;
    } else {
      var b' := b[..|b| - 1];
      assert s[..|s| - 1] == a + "_" + b';
      assert s[|s| - 1] == b[|b| - 1];
      StemOfJoined(a, b');
    }
  }

  /** A lane `<stem>_<c>`, with c a single character other than '_', has the given stem. */
  lemma LaneStem(lane: string, stem: string)
    requires |lane| == |stem| + 2 && lane[..|stem|] == stem && lane[|stem|] == '_' && lane[|stem| + 1] != '_'
    ensures Stem(lane) == stem
  {
    assert lane == stem + "_" + lane[|stem| + 1..];
    StemOfJoined(stem, lane[|stem| + 1..]);
  }

  /** The three lanes of one approach share its stem. */
  lemma ThreeLaneStems(lanes: seq<string>, stem: string)
    requires |lanes| == 3
    requires Stem(lanes[0]) == stem && Stem(lanes[1]) == stem && Stem(lanes[2]) == stem
    ensures forall l :: l in lanes ==> Stem(l) == stem
  {
  }

  /** Every configured lane of an approach has the stem "<approach>_in". */
  lemma ConfiguredStems()
    ensures forall l :: l in ApproachLanes[0].1 ==> Stem(l) == "north_in"
    ensures forall l :: l in ApproachLanes[1].1 ==> Stem(l) == "south_in"
    ensures forall l :: l in ApproachLanes[2].1 ==> Stem(l) == "east_in"
    ensures forall l :: l in ApproachLanes[3].1 ==> Stem(l) == "west_in"
  {
    NorthStems();
    SouthStems();
    EastStems();
    WestStems();
  }

  lemma NorthStems()
    ensures forall l :: l in ApproachLanes[0].1 ==> Stem(l) == "north_in"
  {
    LaneStem("north_in_0", "north_in");
    LaneStem("north_in_1", "north_in");
    LaneStem("north_in_2", "north_in");
    ThreeLaneStems(ApproachLanes[0].1, "north_in");
  }

  lemma SouthStems()
    ensures forall l :: l in ApproachLanes[1].1 ==> Stem(l) == "south_in"
  {
    LaneStem("south_in_0", "south_in");
    LaneStem("south_in_1", "south_in");
    LaneStem("south_in_2", "south_in");
    ThreeLaneStems(ApproachLanes[1].1, "south_in");
  }

  lemma EastStems()
    ensures forall l :: l in ApproachLanes[2].1 ==> Stem(l) == "east_in"
  {
    LaneStem("east_in_0", "east_in");
    LaneStem("east_in_1", "east_in");
    LaneStem("east_in_2", "east_in");
    ThreeLaneStems(ApproachLanes[2].1, "east_in");
  }

  lemma WestStems()
    ensures forall l :: l in ApproachLanes[3].1 ==> Stem(l) == "west_in"
  {
    LaneStem("west_in_0", "west_in");
    LaneStem("west_in_1", "west_in");
    LaneStem("west_in_2", "west_in");
    ThreeLaneStems(ApproachLanes[3].1, "west_in");
  }

  /** Two strings that differ at position i are not prefixes of one another. */
  lemma DifferAt(a: string, b: string, i: nat)
    requires i < |a| && i < |b| && a[i] != b[i]
    ensures !(a <= b)
  {
  }

  /** A lane that no configured lane of approach j matches. */
  lemma NoMatchAt(lane: string, j: nat, stem: string, at: nat)
    requires j < |ApproachLanes|
    requires forall l :: l in ApproachLanes[j].1 ==> Stem(l) == stem
    requires at < |stem| && at < |lane| && stem[at] != lane[at]
    ensures !LaneMatches(lane, ApproachLanes[j].1)
  {
    DifferAt(stem, lane, at);
    assert Stem(lane) <= lane;
  }

  /** A listed lane of the first approach resolves to north. */
  lemma NorthLaneResolves()
    ensures DirectionFromLane("north_in_0") == Some(North)
  {
    assert LaneMatches("north_in_0", ApproachLanes[0].1);
  }

  /** A listed lane of the last approach resolves to west past the three before it. */
  lemma WestLaneResolves()
    ensures DirectionFromLane("west_in_2") == Some(West)
  {
    ConfiguredStems();
    NoMatchAt("west_in_2", 0, "north_in", 0);
    NoMatchAt("west_in_2", 1, "south_in", 0);
    NoMatchAt("west_in_2", 2, "east_in", 0);
    assert LaneMatches("west_in_2", ApproachLanes[3].1);
  }

  /** An unlisted lane with a configured stem resolves by prefix. */
  lemma UnlistedLaneResolvesByStem()
    ensures DirectionFromLane("west_in_7") == Some(West)
  {
    ConfiguredStems();
    NoMatchAt("west_in_7", 0, "north_in", 0);
    NoMatchAt("west_in_7", 1, "south_in", 0);
    NoMatchAt("west_in_7", 2, "east_in", 0);
    assert "west_in_2" in ApproachLanes[3].1 && Stem("west_in_2") <= "west_in_7";
  }

  /** An outgoing lane belongs to no approach. */
  lemma OutgoingLaneUnknown()
    ensures DirectionFromLane("north_out_0") == None
  {
    ConfiguredStems();
    NoMatchAt("north_out_0", 0, "north_in", 6);
    NoMatchAt("north_out_0", 1, "south_in", 0);
    NoMatchAt("north_out_0", 2, "east_in", 0);
    NoMatchAt("north_out_0", 3, "west_in", 0);
  }
}

/** The room's player list seen as values: the filters and counts behind the start-game
    checks and the clue-giver lookup, the display order `refresh` sorts into, and the
    clue-giver auto-assignment, with the properties `refresh` guarantees. */
module RoomView {
  import opened Common
  import opened Entities
  import opened Lists

  function HasUuid(u: string): PlayerData -> bool {
    (p: PlayerData) => p.uuid == u
  }

  function LacksUuid(u: string): PlayerData -> bool {
    (p: PlayerData) => p.uuid != u
  }

  function OnTeam(t: Team): PlayerData -> bool {
    (p: PlayerData) => p.team == t
  }

  function ClueGiverOf(t: Team): PlayerData -> bool {
    (p: PlayerData) => p.clueGiver && p.team == t
  }

  /** `getClueGiverUUIDForTeam`: a uuid only when the team has exactly one clue-giver. */
  function ClueGiverUuid(v: seq<PlayerData>, t: Team): (r: Option<string>)
    ensures r.Some? <==> exists k :: UniqueIndex(v, ClueGiverOf(t), k)
    ensures forall k :: UniqueIndex(v, ClueGiverOf(t), k) ==> r == Some(v[k].uuid)
  {
    FilterSingle(v, ClueGiverOf(t));
    var filtered := Filter(v, ClueGiverOf(t));
    if |filtered| == 1 then Some(filtered[0].uuid) else None
  }

  /** `teamSizesValid`: at least two players per team in a regular game; three or four
      players in all in a minigame (the CPU player included). */
  predicate TeamSizesValid(v: seq<PlayerData>, mode: GameMode) {
    match mode
    case RegularGame => |Filter(v, OnTeam(Red))| >= 2 && |Filter(v, OnTeam(Blue))| >= 2
    case MiniGame => |v| == 3 || |v| == 4
  }

  /** `cluegiversSelected`: both teams have a clue-giver uuid (the same test in both modes). */
  predicate CluegiversSelected(v: seq<PlayerData>) {
    ClueGiverUuid(v, Red).Some? && ClueGiverUuid(v, Blue).Some?
  }

  predicate CanStartGame(v: seq<PlayerData>, mode: GameMode) {
    TeamSizesValid(v, mode) && CluegiversSelected(v)
  }

  /** A game can start exactly when the team sizes suit the mode and each of the two teams
      has one and only one clue-giver. */
  lemma CanStartGameIff(v: seq<PlayerData>, mode: GameMode)
    ensures CanStartGame(v, mode) <==>
      (mode == RegularGame ==> |Filter(v, OnTeam(Red))| >= 2 && |Filter(v, OnTeam(Blue))| >= 2) &&
      (mode == MiniGame ==> |v| == 3 || |v| == 4) &&
      (exists k :: UniqueIndex(v, ClueGiverOf(Red), k)) &&
      (exists k :: UniqueIndex(v, ClueGiverOf(Blue), k))
  {
  }

  // ---- The display order of `refresh` ----

  /** The order `refresh` sorts into: by team raw value, and a team's clue-givers first. */
  function Key(p: PlayerData): nat {
    2 * RawValue(p.team) + (if p.clueGiver then 0 else 1)
  }

  predicate KeySorted(v: seq<PlayerData>) {
    forall i, j :: 0 <= i < j < |v| ==> Key(v[i]) <= Key(v[j])
  }

  function InsertByKey(x: PlayerData, v: seq<PlayerData>): (r: seq<PlayerData>)
    ensures |r| == |v| + 1
  {
    if v == [] then [x]
    else if Key(x) <= Key(v[0]) then [x] + v
    else [v[0]] + InsertByKey(x, v[1..])
  }

  function SortByKey(v: seq<PlayerData>): (r: seq<PlayerData>)
    ensures |r| == |v|
  {
    if v == [] then [] else InsertByKey(v[0], SortByKey(v[1..]))
  }

  lemma {:induction false} InsertByKeySorted(x: PlayerData, v: seq<PlayerData>)
    requires KeySorted(v)
    ensures KeySorted(InsertByKey(x, v))
    ensures InsertByKey(x, v)[0] == x || InsertByKey(x, v)[0] == v[0]
  {
    if v != [] && Key(x) > Key(v[0]) {
      InsertByKeySorted(x, v[1..]);
      var r := InsertByKey(x, v[1..]);
      assert Key(v[0]) <= Key(r[0]);
      forall j | 0 <= j < |r| ensures Key(v[0]) <= Key(r[j]) {
        assert j == 0 || Key(r[0]) <= Key(r[j]);
      }
    }
  }

  lemma {:induction false} InsertByKeyMultiset(x: PlayerData, v: seq<PlayerData>)
    ensures multiset(InsertByKey(x, v)) == multiset(v) + multiset{x}
  {
    if v != [] && Key(x) > Key(v[0]) {
      InsertByKeyMultiset(x, v[1..]);
      assert v == [v[0]] + v[1..];
    }
  }

  lemma {:induction false} InsertByKeyFilter(x: PlayerData, v: seq<PlayerData>, f: PlayerData -> bool)
    ensures |Filter(InsertByKey(x, v), f)| == |Filter(v, f)| + (if f(x) then 1 else 0)
  {
    if v == [] {
    } else if Key(x) <= Key(v[0]) {
      FilterConcat([x], v, f);
    } else {
      InsertByKeyFilter(x, v[1..], f);
      FilterConcat([v[0]], InsertByKey(x, v[1..]), f);
      FilterConcat([v[0]], v[1..], f);
      assert v == [v[0]] + v[1..];
    }
  }

  /** Sorting yields a key-ordered permutation that keeps every filter's size. */
  lemma {:induction false} SortByKeyProperties(v: seq<PlayerData>)
    ensures KeySorted(SortByKey(v))
    ensures multiset(SortByKey(v)) == multiset(v)
    ensures forall f: PlayerData -> bool :: |Filter(SortByKey(v), f)| == |Filter(v, f)|
  {
    if v != [] {
      SortByKeyProperties(v[1..]);
      InsertByKeySorted(v[0], SortByKey(v[1..]));
      InsertByKeyMultiset(v[0], SortByKey(v[1..]));
      assert v == [v[0]] + v[1..];
      forall f: PlayerData -> bool ensures |Filter(SortByKey(v), f)| == |Filter(v, f)| {
        InsertByKeyFilter(v[0], SortByKey(v[1..]), f);
        FilterConcat([v[0]], v[1..], f);
      }
    }
  }

  /** In the sorted order every red player comes before every blue one. */
  lemma RedBeforeBlue(v: seq<PlayerData>)
    requires KeySorted(v)
    ensures forall i, j :: 0 <= i < j < |v| && v[i].team == Blue ==> v[j].team != Red
  {
    forall i, j | 0 <= i < j < |v| && v[i].team == Blue ensures v[j].team != Red {
      assert Key(v[i]) <= Key(v[j]);
    }
  }

  /** In a sorted list, when a team has a clue-giver the team's first player is one. */
  lemma FirstOfTeamIsClueGiver(v: seq<PlayerData>, t: Team)
    requires KeySorted(v)
    requires Filter(v, ClueGiverOf(t)) != []
    ensures IndexWhere(v, OnTeam(t)) < |v|
    ensures v[IndexWhere(v, OnTeam(t))].clueGiver
  {
    FilterEmpty(v, ClueGiverOf(t));
    var j :| 0 <= j < |v| && ClueGiverOf(t)(v[j]);
    assert OnTeam(t)(v[j]);
    var k := IndexWhere(v, OnTeam(t));
    assert k <= j;
    if k < j {
      assert Key(v[k]) <= Key(v[j]);
    }
  }

  // ---- Clue-giver auto-assignment ----

  /** `autoAssignCluegiverForTeam`: the first player of the team becomes a clue-giver. */
  function AssignFirstOfTeam(v: seq<PlayerData>, t: Team): (r: seq<PlayerData>)
    ensures |r| == |v|
  {
    var k := IndexWhere(v, OnTeam(t));
    if k < |v| then v[k := v[k].(clueGiver := true)] else v
  }

  /** One housekeeping step of `refresh`: assign a clue-giver when the lookup finds none. */
  function AssignIfMissing(v: seq<PlayerData>, t: Team): (r: seq<PlayerData>)
    ensures |r| == |v|
  {
    if ClueGiverUuid(v, t).None? then AssignFirstOfTeam(v, t) else v
  }

  /** `refresh` on the list's values: sort, then fill in red's and blue's clue-givers. */
  function RefreshView(v: seq<PlayerData>): (r: seq<PlayerData>)
    ensures |r| == |v|
  {
    AssignIfMissing(AssignIfMissing(SortByKey(v), Red), Blue)
  }

  /** What one assignment step does to a sorted list: it stays sorted, no team changes
      size, another team's clue-givers are untouched, and the team's own clue-givers go from
      none to one when it has players, and otherwise stay as they were. */
  lemma {:induction false} AssignIfMissingProperties(v: seq<PlayerData>, t: Team)
    requires KeySorted(v)
    ensures KeySorted(AssignIfMissing(v, t))
    ensures forall u :: |Filter(AssignIfMissing(v, t), OnTeam(u))| == |Filter(v, OnTeam(u))|
    ensures forall u :: u != t ==>
      |Filter(AssignIfMissing(v, t), ClueGiverOf(u))| == |Filter(v, ClueGiverOf(u))|
    ensures |Filter(AssignIfMissing(v, t), ClueGiverOf(t))| ==
      if |Filter(v, ClueGiverOf(t))| == 0 && |Filter(v, OnTeam(t))| > 0 then 1
      else |Filter(v, ClueGiverOf(t))|
  {
    var r := AssignIfMissing(v, t);
    var k := IndexWhere(v, OnTeam(t));
    var c := |Filter(v, ClueGiverOf(t))|;
    FilterSingle(v, ClueGiverOf(t));
    FilterEmpty(v, OnTeam(t));
    if c == 1 || k == |v| {
      assert r == v;
    } else if c >= 2 {
      FirstOfTeamIsClueGiver(v, t);
      assert v[k].(clueGiver := true) == v[k];
      assert r == v[k := v[k]] == v;
    } else {
      var y := v[k].(clueGiver := true);
      assert r == v[k := y];
      FilterEmpty(v, ClueGiverOf(t));
      assert !v[k].clueGiver;
      forall u ensures |Filter(r, OnTeam(u))| == |Filter(v, OnTeam(u))| {
        FilterUpdate(v, k, y, OnTeam(u));
      }
      forall u ensures |Filter(r, ClueGiverOf(u))| ==
        |Filter(v, ClueGiverOf(u))| + (if u == t then 1 else 0)
      {
        FilterUpdate(v, k, y, ClueGiverOf(u));
      }
      forall i, j | 0 <= i < j < |r| ensures Key(r[i]) <= Key(r[j]) {
        assert Key(v[i]) <= Key(v[j]);
        if i == k {
          assert Key(r[i]) < Key(v[i]);
        } else if j == k {
          assert v[i].team != t;
        }
      }
    }
  }

  /** After `refresh` the list is a sorted rearrangement in which every team keeps its size. */
  lemma RefreshSortsAndKeepsTeams(v: seq<PlayerData>)
    ensures KeySorted(RefreshView(v))
    ensures forall u :: |Filter(RefreshView(v), OnTeam(u))| == |Filter(v, OnTeam(u))|
  {
    var s := SortByKey(v);
    SortByKeyProperties(v);
    AssignIfMissingProperties(s, Red);
    AssignIfMissingProperties(AssignIfMissing(s, Red), Blue);
  }

  /** After `refresh`, red and blue each have exactly one clue-giver if they had none and
      have players; a team with one keeps it, and a team with several is not reduced. */
  lemma RefreshClueGivers(v: seq<PlayerData>, t: Team)
    requires t == Red || t == Blue
    ensures |Filter(RefreshView(v), ClueGiverOf(t))| ==
      if |Filter(v, ClueGiverOf(t))| == 0 && |Filter(v, OnTeam(t))| > 0 then 1
      else |Filter(v, ClueGiverOf(t))|
  {
    var s := SortByKey(v);
    SortByKeyProperties(v);
    AssignIfMissingProperties(s, Red);
    AssignIfMissingProperties(AssignIfMissing(s, Red), Blue);
  }

  /** When a team ends `refresh` with a single clue-giver, it is the team's first player in
      the new order. */
  lemma RefreshClueGiverIsFirst(v: seq<PlayerData>, t: Team)
    requires |Filter(RefreshView(v), ClueGiverOf(t))| == 1
    ensures UniqueIndex(RefreshView(v), ClueGiverOf(t), IndexWhere(RefreshView(v), OnTeam(t)))
  {
    var r := RefreshView(v);
    RefreshSortsAndKeepsTeams(v);
    FirstOfTeamIsClueGiver(r, t);
    FilterSingle(r, ClueGiverOf(t));
    var k := IndexWhere(r, OnTeam(t));
    assert ClueGiverOf(t)(r[k]);
  }

  // ---- Removal and reset ----

  /** `removePlayerWithUUID` on values: no entry with the uuid remains, every other entry is
      kept, and the list shrinks by the number of entries that had the uuid. */
  lemma {:induction false} RemoveUuidProperties(v: seq<PlayerData>, u: string)
    ensures forall x :: x in Filter(v, LacksUuid(u)) ==> x.uuid != u
    ensures forall x :: x in v && x.uuid != u ==> x in Filter(v, LacksUuid(u))
    ensures |Filter(v, LacksUuid(u))| + |Filter(v, HasUuid(u))| == |v|
  {
    forall x ensures x in Filter(v, LacksUuid(u)) <==> x in v && x.uuid != u {
      FilterMember(v, LacksUuid(u), x);
    }
    if v != [] {
      RemoveUuidProperties(v[1..], u);
    }
  }

  /** `resetPlayers` on values: every player red and not a clue-giver, nothing else changed. */
  function ResetView(v: seq<PlayerData>): (r: seq<PlayerData>)
    ensures |r| == |v|
    ensures forall i :: 0 <= i < |v| ==> r[i] == v[i].(clueGiver := false, team := Red)
  {
    seq(|v|, i requires 0 <= i < |v| => v[i].(clueGiver := false, team := Red))
  }

  /** After a reset the red team is everyone and no team has a clue-giver. */
  lemma {:induction false} ResetViewTeams(v: seq<PlayerData>)
    ensures |Filter(ResetView(v), OnTeam(Red))| == |v|
    ensures forall t :: Filter(ResetView(v), ClueGiverOf(t)) == []
  {
    var r := ResetView(v);
    forall t ensures Filter(r, ClueGiverOf(t)) == [] {
      FilterEmpty(r, ClueGiverOf(t));
    }
    if v != [] {
      ResetViewTeams(v[1..]);
      assert r == [r[0]] + ResetView(v[1..]);
    }
  }
}

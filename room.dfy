/** The room registry: the host's ordered list of shared player objects, the map from
    connected peers to player uuids, the access code, and the keyed-archive codec. */
module Rooms {
  import opened Common
  import opened Entities
  import opened Lists
  import opened RoomView

  const CpuUuid := "CPU"
  const AccessCodeLength := 4
  const AllowedCharacters := "abcdefghijklmnopqrstuvwxyz"

  /** The CPU player of the minigame as `addCPUPlayer` creates it. */
  const CpuData := PlayerData("CPU", CpuUuid, Blue, true, false, false)

  // ---- Access codes ----

  /** One draw per character, each an index into the allowed characters. */
  predicate ValidCodeDraws(draws: seq<nat>) {
    |draws| >= AccessCodeLength &&
    forall i :: 0 <= i < AccessCodeLength ==> draws[i] < |AllowedCharacters|
  }

  lemma AllowedAreLowercase()
    ensures |AllowedCharacters| == 26
    ensures forall k :: 0 <= k < |AllowedCharacters| ==> 'a' <= AllowedCharacters[k] <= 'z'
  {
    assert AllowedCharacters == seq(26, i requires 0 <= i < 26 => ('a' as int + i) as char);
  }

  /** `generateAccessCode`: four characters, character `i` chosen by draw `i`. */
  method GenerateAccessCode(draws: seq<nat>) returns (code: string)
    requires ValidCodeDraws(draws)
    ensures |code| == AccessCodeLength
    ensures forall i :: 0 <= i < |code| ==> 'a' <= code[i] <= 'z'
    ensures forall i :: 0 <= i < |code| ==> code[i] == AllowedCharacters[draws[i]]
  {
    AllowedAreLowercase();
    code := "";
    for i := 0 to AccessCodeLength
      invariant |code| == i
      invariant forall k :: 0 <= k < i ==> code[k] == AllowedCharacters[draws[k]]
    {
      code := code + [AllowedCharacters[draws[i]]];
    }
  }

  // ---- Player objects and their values ----

  /** No player object occurs twice in the list. */
  ghost predicate Distinct(ps: seq<Player>) {
    forall i, j :: 0 <= i < j < |ps| ==> ps[i] != ps[j]
  }

  lemma {:induction false} DistinctCountsOnce(ps: seq<Player>)
    requires Distinct(ps)
    ensures forall x :: multiset(ps)[x] <= 1
  {
    if ps != [] {
      var h, t := ps[0], ps[1..];
      assert forall j :: 0 <= j < |t| ==> t[j] == ps[j + 1];
      assert Distinct(t);
      DistinctCountsOnce(t);
      assert ps == [h] + t;
      assert h !in t;
      assert multiset(ps) == multiset{h} + multiset(t);
    }
  }

  lemma {:induction false} CountsOnceDistinct(ps: seq<Player>)
    requires forall x :: multiset(ps)[x] <= 1
    ensures Distinct(ps)
  {
    if ps != [] {
      var h, t := ps[0], ps[1..];
      assert ps == [h] + t;
      assert multiset(ps) == multiset{h} + multiset(t);
      assert forall x :: multiset(t)[x] <= multiset(ps)[x];
      CountsOnceDistinct(t);
      assert h !in multiset(t);
      forall i, j | 0 <= i < j < |ps| ensures ps[i] != ps[j] {
        if i > 0 {
          assert t[i - 1] != t[j - 1];
        } else {
          assert ps[j] in t;
        }
      }
    }
  }

  /** A rearrangement or a sub-collection of a list without repeats has none either. */
  lemma SubMultisetDistinct(a: seq<Player>, b: seq<Player>)
    requires Distinct(a) && multiset(b) <= multiset(a)
    ensures Distinct(b)
  {
    DistinctCountsOnce(a);
    assert forall x :: multiset(b)[x] <= multiset(a)[x];
    CountsOnceDistinct(b);
  }

  /** The list's values at this moment. */
  function Snapshot(ps: seq<Player>): (r: seq<PlayerData>)
    reads ps
    ensures |r| == |ps| && forall i :: 0 <= i < |ps| ==> r[i] == ps[i].Data()
  {
    seq(|ps|, i reads ps requires 0 <= i < |ps| => ps[i].Data())
  }

  lemma SnapshotConcat(a: seq<Player>, b: seq<Player>)
    ensures Snapshot(a + b) == Snapshot(a) + Snapshot(b)
  {
  }

  /** The comparator sort of `refresh`, as an insertion sort on the objects by `Key`. */
  function InsertPlayer(p: Player, ps: seq<Player>): (r: seq<Player>)
    reads p, set x | x in ps
    ensures multiset(r) == multiset(ps) + multiset{p}
    ensures forall x :: x in r ==> x == p || x in ps
  {
    if ps == [] then [p]
    else if Key(p.Data()) <= Key(ps[0].Data()) then [p] + ps
    else
      assert ps == [ps[0]] + ps[1..];
      [ps[0]] + InsertPlayer(p, ps[1..])
  }

  function SortPlayers(ps: seq<Player>): (r: seq<Player>)
    reads set x | x in ps
    ensures multiset(r) == multiset(ps)
    ensures forall x :: x in r ==> x in ps
  {
    if ps == [] then []
    else
      assert ps == [ps[0]] + ps[1..];
      InsertPlayer(ps[0], SortPlayers(ps[1..]))
  }

  lemma {:induction false} SnapshotInsert(p: Player, ps: seq<Player>)
    ensures Snapshot(InsertPlayer(p, ps)) == InsertByKey(p.Data(), Snapshot(ps))
  {
    if ps != [] {
      var v := Snapshot(ps);
      assert v[0] == ps[0].Data() && v[1..] == Snapshot(ps[1..]);
      if Key(p.Data()) > Key(ps[0].Data()) {
        SnapshotInsert(p, ps[1..]);
        SnapshotConcat([ps[0]], InsertPlayer(p, ps[1..]));
      } else {
        SnapshotConcat([p], ps);
      }
    }
  }

  /** Sorting the objects sorts their values the same way. */
  lemma {:induction false} SnapshotSort(ps: seq<Player>)
    ensures Snapshot(SortPlayers(ps)) == SortByKey(Snapshot(ps))
  {
    if ps != [] {
      var v := Snapshot(ps);
      assert v[0] == ps[0].Data() && v[1..] == Snapshot(ps[1..]);
      SnapshotSort(ps[1..]);
      SnapshotInsert(ps[0], SortPlayers(ps[1..]));
    }
  }

  /** The objects of `ps` whose uuid differs from `u`, in order. */
  function WithoutUuid(ps: seq<Player>, u: string): (r: seq<Player>)
    reads ps
    ensures forall x :: x in r ==> x in ps
  {
    if ps == [] then []
    else
      assert ps == [ps[0]] + ps[1..];
      (if ps[0].uuid != u then [ps[0]] else []) + WithoutUuid(ps[1..], u)
  }

  lemma {:induction false} SnapshotWithoutUuid(ps: seq<Player>, u: string)
    ensures Snapshot(WithoutUuid(ps, u)) == Filter(Snapshot(ps), LacksUuid(u))
  {
    if ps != [] {
      var v := Snapshot(ps);
      assert v[0] == ps[0].Data() && v[1..] == Snapshot(ps[1..]);
      SnapshotWithoutUuid(ps[1..], u);
      var h := if ps[0].uuid != u then [ps[0]] else [];
      SnapshotConcat(h, WithoutUuid(ps[1..], u));
      assert Snapshot(h) == if LacksUuid(u)(v[0]) then [v[0]] else [];
    }
  }

  lemma {:induction false} WithoutUuidDistinct(ps: seq<Player>, u: string)
    requires Distinct(ps)
    ensures Distinct(WithoutUuid(ps, u))
  {
    if ps != [] {
      var t := ps[1..];
      assert forall j :: 0 <= j < |t| ==> t[j] == ps[j + 1];
      WithoutUuidDistinct(t, u);
      if ps[0].uuid != u {
        var rest := WithoutUuid(t, u);
        assert ps[0] !in t;
        assert ps[0] !in rest;
        var r := [ps[0]] + rest;
        forall i, j | 0 <= i < j < |r| ensures r[i] != r[j] {
          assert r[j] == rest[j - 1];
          if i > 0 { assert r[i] == rest[i - 1]; }
        }
      }
    }
  }

  /** `removeCPUPlayer` undoes `addCPUPlayer` on a room without a CPU player. */
  lemma AddThenRemoveCpu(v: seq<PlayerData>)
    requires forall i :: 0 <= i < |v| ==> v[i].uuid != CpuUuid
    ensures Filter(v + [CpuData], LacksUuid(CpuUuid)) == v
  {
    FilterConcat(v, [CpuData], LacksUuid(CpuUuid));
    FilterAllKept(v, LacksUuid(CpuUuid));
  }

  /** What removing one entry does to the values and to repeats. */
  lemma RemoveAtFacts(ps: seq<Player>, index: nat)
    requires index < |ps|
    ensures Snapshot(ps[..index] + ps[index + 1..]) == Snapshot(ps)[..index] + Snapshot(ps)[index + 1..]
    ensures Distinct(ps) ==> Distinct(ps[..index] + ps[index + 1..])
  {
    var r := ps[..index] + ps[index + 1..];
    assert forall i :: 0 <= i < |r| ==> r[i] == ps[if i < index then i else i + 1];
    assert Snapshot(r) == Snapshot(ps)[..index] + Snapshot(ps)[index + 1..];
  }

  lemma SameElements(a: seq<Player>, b: seq<Player>)
    requires multiset(a) == multiset(b)
    ensures forall x :: x in b ==> x in a
  {
    forall x | x in b ensures x in a {
      assert x in multiset(b);
    }
  }

  // ---- The archive format ----

  /** The fields a room archives. */
  datatype RoomState = RoomState(
    name: string,
    uuid: string,
    accessCode: string,
    players: seq<PlayerData>,
    connectedPeers: map<Peer, string>)

  /** A room as the plain initializer makes it: fresh uuid and code, named after the code. */
  function FreshRoom(freshUuid: string, freshCode: string): (s: RoomState)
    ensures s.name == s.accessCode == freshCode && s.uuid == freshUuid
    ensures s.players == [] && s.connectedPeers == map[]
  {
    RoomState(freshCode, freshUuid, freshCode, [], map[])
  }

  /** `encode(with:)`. */
  function EncodeRoom(s: RoomState): (p: Payload)
    ensures p.Keys == {"name", "uuid", "accessCode", "players", "connectedPeers"}
  {
    map["name" := Text(s.name), "uuid" := Text(s.uuid), "accessCode" := Text(s.accessCode),
        "players" := PlayerList(s.players), "connectedPeers" := PeerMap(s.connectedPeers)]
  }

  /** `init(coder:)`. `freshUuid` and `freshCode` are what the plain initializer would
      generate: the fallback when a key is missing, and the access code of a payload of
      version 1.0, which has no `accessCode` entry. */
  function DecodeRoom(p: Payload, freshUuid: string, freshCode: string): (r: RoomState)
    ensures ("accessCode" in p && p["accessCode"].Text? && "name" in p && p["name"].Text? &&
             "uuid" in p && p["uuid"].Text? && "players" in p && p["players"].PlayerList? &&
             "connectedPeers" in p && p["connectedPeers"].PeerMap?) ==>
            r.accessCode == p["accessCode"].text
    ensures !("accessCode" in p && p["accessCode"].Text?) ==> r.accessCode == freshCode
    ensures r.uuid == freshUuid || ("uuid" in p && p["uuid"].Text? && r.uuid == p["uuid"].text)
  {
    if "name" in p && p["name"].Text? && "uuid" in p && p["uuid"].Text? &&
       "players" in p && p["players"].PlayerList? &&
       "connectedPeers" in p && p["connectedPeers"].PeerMap?
    then
      var code := if "accessCode" in p && p["accessCode"].Text? then p["accessCode"].text else freshCode;
      RoomState(p["name"].text, p["uuid"].text, code, p["players"].players, p["connectedPeers"].peers)
    else
      FreshRoom(freshUuid, freshCode)
  }

  /** Decoding an encoded room gives back every archived field. */
  lemma DecodeEncodeRoom(s: RoomState, freshUuid: string, freshCode: string)
    ensures DecodeRoom(EncodeRoom(s), freshUuid, freshCode) == s
  {
  }

  /** A version 1.0 payload keeps its name, uuid, players and peers; the access code is the
      newly generated one, not the name. */
  lemma DecodeWithoutAccessCode(s: RoomState, freshUuid: string, freshCode: string)
    ensures DecodeRoom(EncodeRoom(s) - {"accessCode"}, freshUuid, freshCode) == s.(accessCode := freshCode)
  {
    var p := EncodeRoom(s) - {"accessCode"};
    assert "name" in p && "uuid" in p && "players" in p && "connectedPeers" in p && "accessCode" !in p;
  }

  /** Without any one of the four required keys the result is a fresh room. */
  lemma DecodeMissingKey(p: Payload, k: string, freshUuid: string, freshCode: string)
    requires k == "name" || k == "uuid" || k == "players" || k == "connectedPeers"
    requires k !in p
    ensures DecodeRoom(p, freshUuid, freshCode) == FreshRoom(freshUuid, freshCode)
  {
  }

  // ---- The room ----

  class Room {
    var name: string
    var uuid: string
    var accessCode: string
    var players: seq<Player>
    var connectedPeers: map<Peer, string>

    /** Every player object occurs once in the list. */
    ghost predicate Valid()
      reads this
    {
      Distinct(players)
    }

    /** The players' values in list order. */
    function View(): seq<PlayerData>
      reads this, players
    {
      Snapshot(players)
    }

    function State(): RoomState
      reads this, players
    {
      RoomState(name, uuid, accessCode, View(), connectedPeers)
    }

    /** `init()`: the uuid is supplied, the access code is drawn, and the name is the code. */
    constructor Init(newUuid: string, draws: seq<nat>)
      requires ValidCodeDraws(draws)
      ensures Valid() && players == [] && connectedPeers == map[]
      ensures uuid == newUuid && name == accessCode && |accessCode| == AccessCodeLength
      ensures forall i :: 0 <= i < |accessCode| ==> accessCode[i] == AllowedCharacters[draws[i]]
    {
      var code := GenerateAccessCode(draws);
      uuid := newUuid;
      accessCode := code;
      name := code;
      players := [];
      connectedPeers := map[];
    }

    /** The room a decoder returns: new player objects carrying the decoded values. */
    constructor FromState(s: RoomState)
      ensures Valid() && State() == s
      ensures forall p :: p in players ==> fresh(p)
    {
      name := s.name;
      uuid := s.uuid;
      accessCode := s.accessCode;
      connectedPeers := s.connectedPeers;
      var ps: seq<Player> := [];
      for i := 0 to |s.players|
        invariant |ps| == i && Distinct(ps)
        invariant forall p :: p in ps ==> fresh(p)
        invariant Snapshot(ps) == s.players[..i]
      {
        var p := new Player.FromData(s.players[i]);
        ps := ps + [p];
      }
      assert s.players[..|s.players|] == s.players;
      players := ps;
    }

    /** `generateNewAccessCode`: a new code, which also becomes the name. */
    method GenerateNewAccessCode(draws: seq<nat>)
      requires ValidCodeDraws(draws)
      modifies this
      ensures name == accessCode && |accessCode| == AccessCodeLength
      ensures forall i :: 0 <= i < |accessCode| ==> 'a' <= accessCode[i] <= 'z'
      ensures forall i :: 0 <= i < |accessCode| ==> accessCode[i] == AllowedCharacters[draws[i]]
      ensures uuid == old(uuid) && players == old(players) && connectedPeers == old(connectedPeers)
    {
      accessCode := GenerateAccessCode(draws);
      name := accessCode;
    }

    /** `addPlayer`: appends the object; the list stays free of repeats when it is new. */
    method AddPlayer(p: Player)
      modifies this
      ensures players == old(players) + [p]
      ensures old(Valid()) && p !in old(players) ==> Valid()
      ensures name == old(name) && uuid == old(uuid) && accessCode == old(accessCode)
      ensures connectedPeers == old(connectedPeers)
    {
      players := players + [p];
    }

    /** `addCPUPlayer`: appends a new CPU player, a blue clue-giver. */
    method AddCpuPlayer()
      modifies this
      ensures View() == old(View()) + [CpuData]
      ensures |players| == |old(players)| + 1 && players[..|old(players)|] == old(players)
      ensures fresh(players[|old(players)|])
      ensures old(Valid()) ==> Valid()
      ensures name == old(name) && uuid == old(uuid) && accessCode == old(accessCode)
      ensures connectedPeers == old(connectedPeers)
    {
      var cpu := new Player("CPU", CpuUuid, Blue, true, false);
      players := players + [cpu];
      assert players[..|old(players)|] == old(players);
    }

    /** `removePlayerWithUUID`: drops every entry with the uuid and keeps the others in order. */
    method RemovePlayerWithUuid(u: string)
      modifies this
      ensures players == WithoutUuid(old(players), u)
      ensures View() == Filter(old(View()), LacksUuid(u))
      ensures old(Valid()) ==> Valid()
      ensures name == old(name) && uuid == old(uuid) && accessCode == old(accessCode)
      ensures connectedPeers == old(connectedPeers)
    {
      SnapshotWithoutUuid(players, u);
      if Valid() { WithoutUuidDistinct(players, u); }
      players := WithoutUuid(players, u);
    }

    /** `removeCPUPlayer`. */
    method RemoveCpuPlayer()
      modifies this
      ensures View() == Filter(old(View()), LacksUuid(CpuUuid))
      ensures old(Valid()) ==> Valid()
      ensures name == old(name) && uuid == old(uuid) && accessCode == old(accessCode)
      ensures connectedPeers == old(connectedPeers)
    {
      RemovePlayerWithUuid(CpuUuid);
    }

    /** `removePlayerAtIndex`: removes the entry at `index`, or nothing when there is none. */
    method RemovePlayerAtIndex(index: nat)
      modifies this
      ensures players == if index < |old(players)| then old(players)[..index] + old(players)[index + 1..] else old(players)
      ensures View() == if index < |old(View())| then old(View())[..index] + old(View())[index + 1..] else old(View())
      ensures old(Valid()) ==> Valid()
      ensures name == old(name) && uuid == old(uuid) && accessCode == old(accessCode)
      ensures connectedPeers == old(connectedPeers)
    {
      if index < |players| {
        RemoveAtFacts(players, index);
        players := players[..index] + players[index + 1..];
      }
    }

    /** `setNameOfPlayerAtIndex`: renames the entry at `index`, or nothing when there is none. */
    method SetNameOfPlayerAtIndex(index: nat, newName: string)
      requires Valid()
      modifies set p | p in players
      ensures View() == if index < |old(View())| then old(View())[index := old(View())[index].(name := newName)] else old(View())
    {
      if index < |players| {
        players[index].name := newName;
      }
    }

    /** `getPlayerWithUUID`: the player object, only when exactly one entry has the uuid. */
    function GetPlayerWithUuid(u: string): (r: Player?)
      reads this, players
      ensures r != null <==> exists k :: UniqueIndex(View(), HasUuid(u), k)
      ensures forall k :: UniqueIndex(View(), HasUuid(u), k) ==> r == players[k]
    {
      FilterSingle(View(), HasUuid(u));
      var k := IndexWhere(View(), HasUuid(u));
      if |Filter(View(), HasUuid(u))| == 1 && k < |players| then players[k] else null
    }

    /** `playerWithUUIDInRoom`. */
    predicate PlayerWithUuidInRoom(u: string)
      reads this, players
      ensures PlayerWithUuidInRoom(u) <==> exists k :: UniqueIndex(View(), HasUuid(u), k)
    {
      GetPlayerWithUuid(u) != null
    }

    /** `autoAssignCluegiverForTeam`: the team's first player in list order becomes a
        clue-giver; nothing happens when the team has no player. */
    method AutoAssignCluegiverForTeam(team: Team)
      requires Valid()
      modifies set p | p in players
      ensures View() == AssignFirstOfTeam(old(View()), team)
    {
      var i := 0;
      while i < |players|
        invariant 0 <= i <= |players|
        invariant forall j :: 0 <= j < i ==> players[j].team != team
        invariant View() == old(View())
      {
        if players[i].team == team {
          assert IndexWhere(View(), OnTeam(team)) == i;
          players[i].clueGiver := true;
          return;
        }
        i := i + 1;
      }
    }

    /** The sort of `refresh`: the same objects, reordered by `Key`. */
    method SortByTeam()
      requires Valid()
      modifies this
      ensures Valid() && multiset(players) == multiset(old(players))
      ensures View() == SortByKey(old(View()))
      ensures name == old(name) && uuid == old(uuid) && accessCode == old(accessCode)
      ensures connectedPeers == old(connectedPeers)
    {
      var sorted := SortPlayers(players);
      SnapshotSort(players);
      SubMultisetDistinct(players, sorted);
      players := sorted;
    }

    /** `refresh`: sorts by team and puts each team's clue-givers first, then gives red and
        blue a clue-giver where the lookup finds none. */
    method Refresh()
      requires Valid()
      modifies this, set p | p in players
      ensures Valid() && multiset(players) == multiset(old(players))
      ensures View() == RefreshView(old(View()))
      ensures name == old(name) && uuid == old(uuid) && accessCode == old(accessCode)
      ensures connectedPeers == old(connectedPeers)
    {
      SortByTeam();
      SameElements(old(players), players);
      if ClueGiverUuid(View(), Red).None? {
        AutoAssignCluegiverForTeam(Red);
      }
      if ClueGiverUuid(View(), Blue).None? {
        AutoAssignCluegiverForTeam(Blue);
      }
    }

    /** `resetPlayers`: every player red and not a clue-giver; the list itself is kept. */
    method ResetPlayers()
      requires Valid()
      modifies set p | p in players
      ensures View() == ResetView(old(View()))
    {
      for i := 0 to |players|
        invariant forall j :: 0 <= j < i ==> players[j].Data() == old(players[j].Data()).(clueGiver := false, team := Red)
        invariant forall j :: i <= j < |players| ==> players[j].Data() == old(players[j].Data())
      {
        players[i].clueGiver := false;
        players[i].team := Red;
      }
    }

    /** `reset`: no players and no connected peers. */
    method Reset()
      modifies this
      ensures players == [] && connectedPeers == map[]
      ensures name == old(name) && uuid == old(uuid) && accessCode == old(accessCode)
    {
      players := [];
      connectedPeers := map[];
    }

    /** `removeAllPlayers` (of the revision the current pregame screen calls). */
    method RemoveAllPlayers()
      modifies this
      ensures players == [] && connectedPeers == old(connectedPeers)
      ensures name == old(name) && uuid == old(uuid) && accessCode == old(accessCode)
    {
      players := [];
    }

    /** `addConnectedPeer`: records which player a peer belongs to. */
    method AddConnectedPeer(peer: Peer, playerUuid: string)
      modifies this
      ensures connectedPeers == old(connectedPeers)[peer := playerUuid]
      ensures players == old(players)
      ensures name == old(name) && uuid == old(uuid) && accessCode == old(accessCode)
    {
      connectedPeers := connectedPeers[peer := playerUuid];
    }

    /** `removeConnectedPeer`. */
    method RemoveConnectedPeer(peer: Peer)
      modifies this
      ensures connectedPeers == old(connectedPeers) - {peer}
      ensures players == old(players)
      ensures name == old(name) && uuid == old(uuid) && accessCode == old(accessCode)
    {
      connectedPeers := connectedPeers - {peer};
    }

    /** `getUUIDWithPeerID`: the uuid recorded for the peer, when there is one. */
    function GetUuidWithPeer(peer: Peer): (r: Option<string>)
      reads this
      ensures r.Some? <==> peer in connectedPeers
      ensures r.Some? ==> r.value == connectedPeers[peer]
    {
      if peer in connectedPeers then Some(connectedPeers[peer]) else None
    }
  }
}

/** What both pregame screens share: the room's list of player objects together with the
    local player object, which may be one of those objects (then a change made through
    either is seen through both) or an object of its own. `Members` is that situation as a
    value, `localAt` recording which list entry, if any, is the local player's object. */
module Membership {
  import opened Common
  import opened Entities
  import opened Lists
  import opened RoomView
  import opened Rooms

  /** `getPlayerWithUUID` on values: the position of the one entry with the uuid. */
  function LookupUuid(v: seq<PlayerData>, u: string): (r: Option<nat>)
    ensures r.Some? <==> exists k :: UniqueIndex(v, HasUuid(u), k)
    ensures r.Some? ==> UniqueIndex(v, HasUuid(u), r.value)
  {
    FilterSingle(v, HasUuid(u));
    var k := IndexWhere(v, HasUuid(u));
    if |Filter(v, HasUuid(u))| == 1 && k < |v| then Some(k) else None
  }

  predicate DistinctUuids(v: seq<PlayerData>) {
    forall i, j :: 0 <= i < j < |v| ==> v[i].uuid != v[j].uuid
  }

  /** With distinct uuids the lookup of an entry's uuid finds that entry. */
  lemma LookupOwnUuid(v: seq<PlayerData>, k: nat)
    requires DistinctUuids(v) && k < |v|
    ensures LookupUuid(v, v[k].uuid) == Some(k)
  {
    assert UniqueIndex(v, HasUuid(v[k].uuid), k);
  }

  datatype Members = Members(players: seq<PlayerData>, local: PlayerData, localAt: Option<nat>)

  /** The local value is the value of the entry it shares an object with. */
  predicate Consistent(m: Members) {
    m.localAt.Some? ==> m.localAt.value < |m.players| && m.players[m.localAt.value] == m.local
  }

  /** A change made through list entry `k`: seen by the local player when it is that entry. */
  function SetEntry(m: Members, k: nat, d: PlayerData): (r: Members)
    requires k < |m.players|
    ensures |r.players| == |m.players| && r.localAt == m.localAt
    ensures Consistent(m) ==> Consistent(r)
  {
    Members(m.players[k := d], if m.localAt == Some(k) then d else m.local, m.localAt)
  }

  /** A change made through the local player: seen by the list entry it shares an object with. */
  function SetLocal(m: Members, d: PlayerData): (r: Members)
    ensures |r.players| == |m.players| && r.localAt == m.localAt
    ensures Consistent(m) ==> Consistent(r)
  {
    Members(if m.localAt.Some? && m.localAt.value < |m.players| then m.players[m.localAt.value := d] else m.players,
            d, m.localAt)
  }

  /** Without a shared object, changes to the list and to the local player stay apart. */
  lemma SeparateObjects(m: Members, k: nat, d: PlayerData, e: PlayerData)
    requires k < |m.players| && m.localAt.None?
    ensures SetEntry(m, k, d).local == m.local
    ensures SetLocal(m, e).players == m.players
  {
  }

  /** When the local player is entry `k`, a change through either is a change of both. */
  lemma SharedObject(m: Members, k: nat, d: PlayerData)
    requires k < |m.players| && m.localAt == Some(k)
    ensures SetEntry(m, k, d) == SetLocal(m, d)
  {
  }

  // ---- The objects behind `Members` ----

  function IsObject(x: Player): Player -> bool {
    (q: Player) => q == x
  }

  /** Where in the list the object `x` is, if it is there. */
  function Position(ps: seq<Player>, x: Player): (r: Option<nat>)
    ensures r.Some? ==> r.value < |ps| && ps[r.value] == x
    ensures r.None? ==> x !in ps
  {
    var k := IndexWhere(ps, IsObject(x));
    if k < |ps| then Some(k) else None
  }

  lemma PositionOfEntry(ps: seq<Player>, k: nat)
    requires Distinct(ps) && k < |ps|
    ensures Position(ps, ps[k]) == Some(k)
  {
    var j := IndexWhere(ps, IsObject(ps[k]));
    assert j <= k;
  }

  function MembersOf(room: Room, local: Player): (m: Members)
    reads room, room.players, local
    ensures Consistent(m)
  {
    var at := Position(room.players, local);
    Members(room.View(), local.Data(), at)
  }

  /** `setIsCluegiver(flag)` on the object `p`, which is list entry `k`. */
  method SetClueGiverOf(room: Room, local: Player, p: Player, ghost k: nat, flag: bool)
    requires room.Valid() && k < |room.players| && p == room.players[k]
    modifies p
    ensures MembersOf(room, local) ==
      SetEntry(old(MembersOf(room, local)), k, old(room.View())[k].(clueGiver := flag))
  {
    ghost var m := MembersOf(room, local);
    if m.localAt.Some? {
      PositionOfEntry(room.players, m.localAt.value);
    }
    p.clueGiver := flag;
    assert room.View() == m.players[k := m.players[k].(clueGiver := flag)];
  }

  /** `setTeam(team)` on the object `p`, which is list entry `k`. */
  method SetTeamOf(room: Room, local: Player, p: Player, ghost k: nat, team: Team)
    requires room.Valid() && k < |room.players| && p == room.players[k]
    modifies p
    ensures MembersOf(room, local) ==
      SetEntry(old(MembersOf(room, local)), k, old(room.View())[k].(team := team))
  {
    ghost var m := MembersOf(room, local);
    if m.localAt.Some? {
      PositionOfEntry(room.players, m.localAt.value);
    }
    p.team := team;
    assert room.View() == m.players[k := m.players[k].(team := team)];
  }

  /** `getPlayerWithUUID(u)?.setIsCluegiver(flag)` on values. */
  function SetClueGiverByUuid(m: Members, u: string, flag: bool): (r: Members)
    ensures |r.players| == |m.players| && r.localAt == m.localAt
    ensures forall i :: 0 <= i < |m.players| ==>
      r.players[i].uuid == m.players[i].uuid && r.players[i].team == m.players[i].team
    ensures Consistent(m) ==> Consistent(r) && r.local.uuid == m.local.uuid && r.local.team == m.local.team
  {
    match LookupUuid(m.players, u)
    case None => m
    case Some(k) => SetEntry(m, k, m.players[k].(clueGiver := flag))
  }

  /** `getPlayerWithUUID(u)?.setTeam(team)` on values. */
  function SetTeamByUuid(m: Members, u: string, team: Team): (r: Members)
    ensures |r.players| == |m.players| && r.localAt == m.localAt
    ensures forall i :: 0 <= i < |m.players| ==> r.players[i].uuid == m.players[i].uuid
    ensures Consistent(m) ==> Consistent(r) && r.local.uuid == m.local.uuid
  {
    match LookupUuid(m.players, u)
    case None => m
    case Some(k) => SetEntry(m, k, m.players[k].(team := team))
  }

  method SetClueGiverWithUuid(room: Room, local: Player, u: string, flag: bool)
    requires room.Valid()
    modifies set p | p in room.players
    ensures MembersOf(room, local) == SetClueGiverByUuid(old(MembersOf(room, local)), u, flag)
  {
    var p := room.GetPlayerWithUuid(u);
    if p != null {
      ghost var k := LookupUuid(room.View(), u).value;
      SetClueGiverOf(room, local, p, k, flag);
    }
  }

  method SetTeamWithUuid(room: Room, local: Player, u: string, team: Team)
    requires room.Valid()
    modifies set p | p in room.players
    ensures MembersOf(room, local) == SetTeamByUuid(old(MembersOf(room, local)), u, team)
  {
    var p := room.GetPlayerWithUuid(u);
    if p != null {
      ghost var k := LookupUuid(room.View(), u).value;
      SetTeamOf(room, local, p, k, team);
    }
  }

  /** `Player.instance.setIsCluegiver(flag)`. */
  method SetLocalClueGiver(room: Room, local: Player, flag: bool)
    requires room.Valid()
    modifies local
    ensures MembersOf(room, local) == SetLocal(old(MembersOf(room, local)), old(local.Data()).(clueGiver := flag))
  {
    ghost var m := MembersOf(room, local);
    local.clueGiver := flag;
    if m.localAt.Some? {
      var k := m.localAt.value;
      assert room.View() == m.players[k := local.Data()];
    } else {
      assert room.View() == m.players;
    }
  }

  // ---- Received objects, the same in both revisions ----

  /** A received player: its peer maps to its uuid, and on the host it is also appended,
      whether or not an entry with its uuid is already there. */
  function AddReceived(room: RoomState, peer: Peer, d: PlayerData, host: bool): (r: RoomState)
    ensures r.name == room.name && r.uuid == room.uuid && r.accessCode == room.accessCode
    ensures peer in r.connectedPeers && r.connectedPeers[peer] == d.uuid
    ensures |r.players| == |room.players| + (if host then 1 else 0) && room.players <= r.players
  {
    room.(connectedPeers := room.connectedPeers[peer := d.uuid],
          players := if host then room.players + [d] else room.players)
  }

  /** The received player as a new object. */
  method ReceivePlayerInto(room: Room, peer: Peer, d: PlayerData, host: bool)
    requires room.Valid()
    modifies room
    ensures room.Valid()
    ensures room.State() == AddReceived(old(room.State()), peer, d, host)
  {
    ghost var s := room.State();
    var p := new Player.FromData(d);
    room.AddConnectedPeer(peer, d.uuid);
    if host {
      room.AddPlayer(p);
      SnapshotConcat(old(room.players), [p]);
      assert room.View() == s.players + [d];
    }
  }

  /** The local player once a room with the entries `v` has arrived: the entry with its uuid
      when there is exactly one, and itself otherwise. Its uuid never changes. */
  function AdoptedLocal(v: seq<PlayerData>, local: PlayerData): (r: PlayerData)
    ensures r.uuid == local.uuid
    ensures forall k :: UniqueIndex(v, HasUuid(local.uuid), k) ==> r == v[k]
    ensures (forall k :: !UniqueIndex(v, HasUuid(local.uuid), k)) ==> r == local
  {
    match LookupUuid(v, local.uuid)
    case Some(k) => v[k]
    case None => local
  }

  /** `Player.instance` once the room `r`, whose objects are all new, has arrived: the object
      of `r`'s entry with the local uuid when there is exactly one, and the old object
      otherwise. */
  method AdoptLocal(r: Room, local: Player) returns (p: Player)
    requires r.Valid() && local !in r.players
    ensures p.Data() == AdoptedLocal(r.View(), local.Data())
    ensures MembersOf(r, p).localAt == LookupUuid(r.View(), local.uuid)
  {
    var q := r.GetPlayerWithUuid(local.uuid);
    ghost var k := LookupUuid(r.View(), local.uuid);
    if q != null {
      PositionOfEntry(r.players, k.value);
      p := q;
    } else {
      p := local;
    }
  }

  // ---- Disconnection, the same in both revisions ----

  datatype DisconnectOutcome = Unknown | HostLeft | PlayerLeft(uuid: string)

  /** `peerDisconnectedFromSession`: a peer without a mapping is ignored; the host's peer
      empties the room; any other peer's uuid loses its entries and the peer its mapping. */
  function Disconnect(room: RoomState, peer: Peer): (d: (RoomState, DisconnectOutcome))
    ensures d.0.name == room.name && d.0.uuid == room.uuid && d.0.accessCode == room.accessCode
    ensures d.1 == Unknown <==> peer !in room.connectedPeers
    ensures |d.0.players| <= |room.players|
  {
    if peer !in room.connectedPeers then (room, Unknown)
    else
      var u := room.connectedPeers[peer];
      var k := LookupUuid(room.players, u);
      if k.Some? && room.players[k.value].host then (room.(players := []), HostLeft)
      else (room.(players := Filter(room.players, LacksUuid(u)), connectedPeers := room.connectedPeers - {peer}),
            PlayerLeft(u))
  }

  /** `peerDisconnectedFromSession` on the room object; `hostLeft` says the host's peer
      went and the room was emptied. */
  method DisconnectPeer(room: Room, peer: Peer) returns (hostLeft: bool)
    requires room.Valid()
    modifies room
    ensures room.Valid()
    ensures room.State() == Disconnect(old(room.State()), peer).0
    ensures hostLeft <==> Disconnect(old(room.State()), peer).1 == HostLeft
  {
    ghost var s := room.State();
    var playerUuid := room.GetUuidWithPeer(peer);
    if playerUuid.None? {
      return false;
    }
    var u := playerUuid.value;
    var player := room.GetPlayerWithUuid(u);
    ghost var k := LookupUuid(s.players, u);
    if player != null && player.host {
      assert k.Some? && s.players[k.value].host;
      room.RemoveAllPlayers();
      return true;
    }
    assert !(k.Some? && s.players[k.value].host);
    RemoveDeparted(room, peer, u);
    return false;
  }

  /** A departed player's entries and its peer's mapping go. */
  method RemoveDeparted(room: Room, peer: Peer, u: string)
    requires room.Valid()
    modifies room
    ensures room.Valid()
    ensures room.State() == old(room.State()).(players := Filter(old(room.View()), LacksUuid(u)),
                                               connectedPeers := old(room.connectedPeers) - {peer})
  {
    room.RemovePlayerWithUuid(u);
    ghost var v := room.View();
    room.RemoveConnectedPeer(peer);
    assert room.View() == v;
  }

  lemma DisconnectProperties(room: RoomState, peer: Peer)
    ensures peer !in room.connectedPeers ==> Disconnect(room, peer) == (room, Unknown)
    ensures Disconnect(room, peer).1 == HostLeft ==>
      Disconnect(room, peer).0 == room.(players := []) &&
      exists k :: UniqueIndex(room.players, HasUuid(room.connectedPeers[peer]), k) && room.players[k].host
    ensures Disconnect(room, peer).1.PlayerLeft? ==>
      var u := room.connectedPeers[peer];
      var r := Disconnect(room, peer).0;
      r.connectedPeers == room.connectedPeers - {peer} &&
      (forall x :: x in r.players ==> x.uuid != u) &&
      (forall x :: x in room.players && x.uuid != u ==> x in r.players) &&
      r.name == room.name && r.uuid == room.uuid && r.accessCode == room.accessCode
  {
    if peer in room.connectedPeers {
      RemoveUuidProperties(room.players, room.connectedPeers[peer]);
    }
  }
}

/** The pregame room of the earlier revision: a found peer is invited by room uuid, a
    received room is checked for the local player, a received round always starts the game,
    and a tap on a row nominates through the list's own objects, which makes what looks like
    a toggle of the clue-giver flag into something else. */
module EarlierPregameRoom {
  import opened Common
  import opened Entities
  import opened Lists
  import opened RoomView
  import opened Rooms
  import opened Cards
  import opened Membership
  import PregameRoom

  /** The discovery-info key under which a joining device names the room it asks to join. */
  const JoinRoomKey := "joinRoomWithUUID"

  /** Why the screen returns to the lobby (the message its alert shows). */
  datatype LobbyReason = HostDisconnected | RemovedFromRoom

  datatype Navigation = ToGame | ToLobby(reason: LobbyReason)

  /** What the screen asks of the multipeer manager. */
  datatype Request = InviteRequest(peer: Peer) | TerminateRequest

  /** What unarchiving received data yields in this revision. */
  datatype Incoming =
    | PlayerIn(player: PlayerData)
    | RoomIn(room: RoomState)
    | PeersIn(peers: map<Peer, string>)
    | CardsIn(cards: CardsState)
    | RoundIn(round: Round)
    | Unrecognised

  /** The singletons the screen replaces wholesale, and what the screen does: the segues it
      asked for, its requests to the manager, and the rooms it broadcast. */
  datatype EarlierValues = EarlierValues(
    cards: CardsState,
    round: Round,
    navigation: seq<Navigation>,
    requests: seq<Request>,
    sent: seq<RoomState>)

  datatype Earlier = Earlier(room: RoomState, local: PlayerData, vals: EarlierValues)

  // ---- Discovery ----

  /** The found peer's discovery info exists and names the room's uuid. */
  predicate InvitesPeer(info: Option<map<string, string>>, roomUuid: string) {
    info.Some? && JoinRoomKey in info.value && info.value[JoinRoomKey] == roomUuid
  }

  /** `foundPeer`. */
  function FoundPeerStep(s: Earlier, peer: Peer, info: Option<map<string, string>>): (r: Earlier)
    ensures r.room == s.room && r.local == s.local
    ensures r.vals == s.vals.(requests := r.vals.requests) && s.vals.requests <= r.vals.requests
  {
    if InvitesPeer(info, s.room.uuid) then s.(vals := s.vals.(requests := s.vals.requests + [InviteRequest(peer)]))
    else s
  }

  /** A found peer is invited iff its discovery info carries the room's uuid under the join
      key; a device that offers only an access code, or the uuid under another key, is not;
      nothing but the requests ever changes. */
  lemma FoundPeerInvitesIff(s: Earlier, peer: Peer, info: Option<map<string, string>>)
    ensures var r := FoundPeerStep(s, peer, info);
      (r.vals.requests == s.vals.requests + [InviteRequest(peer)]) <==>
        info.Some? && JoinRoomKey in info.value && info.value[JoinRoomKey] == s.room.uuid
    ensures var r := FoundPeerStep(s, peer, info);
      r.room == s.room && r.local == s.local && r.vals == s.vals.(requests := r.vals.requests)
  {
    var r := FoundPeerStep(s, peer, info);
    if !InvitesPeer(info, s.room.uuid) {
      assert |r.vals.requests| == |s.vals.requests|;
    }
  }

  // ---- Received objects ----

  /** The membership check after a received room: an empty room means the host has gone,
      and is looked at first; otherwise a room without exactly one entry with the local uuid
      means the local player was removed. */
  function RoomExit(v: seq<PlayerData>, localUuid: string): (r: seq<Navigation>)
    ensures |r| <= 1
    ensures r == [] ==> exists k :: UniqueIndex(v, HasUuid(localUuid), k)
  {
    if |v| == 0 then [ToLobby(HostDisconnected)]
    else if LookupUuid(v, localUuid).None? then [ToLobby(RemovedFromRoom)]
    else []
  }

  /** `didReceiveData`. */
  function ReceiveStep(s: Earlier, peer: Peer, msg: Incoming): (r: Earlier)
    ensures r.vals.sent == s.vals.sent && r.vals.requests == s.vals.requests
    ensures r.local.uuid == s.local.uuid
    ensures s.vals.navigation <= r.vals.navigation
  {
    match msg
    case PlayerIn(d) => s.(room := AddReceived(s.room, peer, d, s.local.host))
    case RoomIn(rs) =>
      s.(room := rs, local := AdoptedLocal(rs.players, s.local),
         vals := s.vals.(navigation := s.vals.navigation + RoomExit(rs.players, s.local.uuid)))
    case PeersIn(peers) => s.(room := s.room.(connectedPeers := peers))
    case CardsIn(cards) => s.(vals := s.vals.(cards := cards))
    case RoundIn(round) => s.(vals := s.vals.(round := round, navigation := s.vals.navigation + [ToGame]))
    case Unrecognised => s
  }

  /** A received room is adopted, and then: with no players the screen leaves with "host
      disconnected"; with players but no single entry for the local uuid it leaves with
      "removed from room"; otherwise it stays, its local player being that entry. */
  lemma ReceivedRoomChecks(s: Earlier, peer: Peer, rs: RoomState)
    ensures ReceiveStep(s, peer, RoomIn(rs)).room == rs
    ensures |rs.players| == 0 ==>
      ReceiveStep(s, peer, RoomIn(rs)).vals.navigation == s.vals.navigation + [ToLobby(HostDisconnected)]
    ensures |rs.players| > 0 && (forall k :: !UniqueIndex(rs.players, HasUuid(s.local.uuid), k)) ==>
      ReceiveStep(s, peer, RoomIn(rs)).vals.navigation == s.vals.navigation + [ToLobby(RemovedFromRoom)]
    ensures forall k :: UniqueIndex(rs.players, HasUuid(s.local.uuid), k) ==>
      ReceiveStep(s, peer, RoomIn(rs)).vals.navigation == s.vals.navigation &&
      ReceiveStep(s, peer, RoomIn(rs)).local == rs.players[k]
  {
  }

  /** Two entries with the local uuid count as the local player's removal. */
  lemma DuplicateLocalUuidIsRemoval(s: Earlier, peer: Peer, rs: RoomState, i: nat, j: nat)
    requires i < j < |rs.players|
    requires rs.players[i].uuid == s.local.uuid && rs.players[j].uuid == s.local.uuid
    ensures ReceiveStep(s, peer, RoomIn(rs)).vals.navigation == s.vals.navigation + [ToLobby(RemovedFromRoom)]
    ensures ReceiveStep(s, peer, RoomIn(rs)).local == s.local
  {
    assert HasUuid(s.local.uuid)(rs.players[i]) && HasUuid(s.local.uuid)(rs.players[j]);
  }

  /** In this revision any received round starts the game, an aborted or finished one too;
      a received peer table replaces the room's and nothing else. */
  lemma ReceivedRoundAndPeers(s: Earlier, peer: Peer, round: Round, peers: map<Peer, string>)
    ensures ReceiveStep(s, peer, RoundIn(round)).vals.navigation == s.vals.navigation + [ToGame]
    ensures ReceiveStep(s, peer, RoundIn(round)).vals.round == round
    ensures ReceiveStep(s, peer, PeersIn(peers)).room.connectedPeers == peers
    ensures ReceiveStep(s, peer, PeersIn(peers)).room.players == s.room.players
    ensures ReceiveStep(s, peer, PeersIn(peers)).vals == s.vals
  {
  }

  // ---- Disconnection and leaving ----

  /** `peerDisconnectedFromSession`: the same handling of the room as the current revision;
      the host's departure returns to the lobby. */
  function DisconnectStep(s: Earlier, peer: Peer): (r: Earlier)
    ensures r.local == s.local && r.vals.sent == s.vals.sent && r.vals.requests == s.vals.requests
    ensures r.room.name == s.room.name && r.room.uuid == s.room.uuid && r.room.accessCode == s.room.accessCode
  {
    var d := Membership.Disconnect(s.room, peer);
    s.(room := d.0,
       vals := s.vals.(navigation := s.vals.navigation + if d.1 == HostLeft then [ToLobby(HostDisconnected)] else []))
  }

  /** An unknown peer changes nothing; the host's peer empties the room and leaves for the
      lobby; any other peer's entries and mapping go and the others stay. */
  lemma DisconnectStepProperties(s: Earlier, peer: Peer)
    ensures peer !in s.room.connectedPeers ==> DisconnectStep(s, peer) == s
    ensures var r := DisconnectStep(s, peer);
      peer in s.room.connectedPeers && r.vals.navigation == s.vals.navigation + [ToLobby(HostDisconnected)] ==>
        r.room.players == [] && r.room.connectedPeers == s.room.connectedPeers
    ensures var r := DisconnectStep(s, peer);
      peer in s.room.connectedPeers && r.vals.navigation == s.vals.navigation ==>
        var u := s.room.connectedPeers[peer];
        peer !in r.room.connectedPeers &&
        (forall x :: x in r.room.players ==> x.uuid != u) &&
        (forall x :: x in s.room.players && x.uuid != u ==> x in r.room.players)
    ensures DisconnectStep(s, peer).local == s.local
  {
    DisconnectProperties(s.room, peer);
    var r := DisconnectStep(s, peer);
    if Membership.Disconnect(s.room, peer).1 != HostLeft {
      assert |r.vals.navigation| == |s.vals.navigation|;
    }
  }

  // ---- Team change ----

  function TeamOf(redTeam: bool): Team {
    if redTeam then Red else Blue
  }

  /** `teamDidChangeAtIndex`: the same two lookups by the row's uuid as the current
      revision, with the team given by the switch. */
  function TeamDidChange(m: Members, index: nat, redTeam: bool): (r: Members)
    requires index < |m.players|
    ensures |r.players| == |m.players| && r.localAt == m.localAt
    ensures forall i :: 0 <= i < |m.players| ==> r.players[i].uuid == m.players[i].uuid
    ensures Consistent(m) ==> Consistent(r) && r.local.uuid == m.local.uuid
  {
    PregameRoom.TeamUpdated(m, index, TeamOf(redTeam))
  }

  /** With distinct uuids the row ends on red exactly when the switch is on, without the
      clue-giver flag, and no other entry changes. */
  lemma TeamDidChangeSetsTeam(m: Members, index: nat, redTeam: bool)
    requires index < |m.players| && DistinctUuids(m.players)
    ensures var r := TeamDidChange(m, index, redTeam);
      (r.players[index].team == Red <==> redTeam) && r.players[index].team != Neutral &&
      !r.players[index].clueGiver &&
      forall i :: 0 <= i < |m.players| && i != index ==> r.players[i] == m.players[i]
  {
    PregameRoom.TeamChangeClearsClueGiver(m, index, TeamOf(redTeam));
  }

  // ---- Nomination ----

  /** A non-host may only tap their own row. */
  predicate MayNominate(local: PlayerData, tapped: PlayerData) {
    local.host || local.uuid == tapped.uuid
  }

  /** `getPlayerWithUUID(getClueGiverUUIDForTeam(team))?.setIsClueGiver(false)`. */
  function ClearClueGiverOfTeam(m: Members, team: Team): (r: Members)
    ensures |r.players| == |m.players| && r.localAt == m.localAt
    ensures Consistent(m) ==> Consistent(r)
  {
    match ClueGiverUuid(m.players, team)
    case None => m
    case Some(cg) => SetClueGiverByUuid(m, cg, false)
  }

  /** `didSelectRowAtIndexPath`: the team's clue-giver is cleared, and then the row's flag is
      set to the negation of what the row's object holds at that moment. */
  function Toggle(m: Members, row: nat): (r: Members)
    requires row < |m.players|
    ensures |r.players| == |m.players| && r.localAt == m.localAt
  {
    var tapped := m.players[row];
    if !MayNominate(m.local, tapped) then m
    else
      var m1 := ClearClueGiverOfTeam(m, tapped.team);
      SetEntry(m1, row, m1.players[row].(clueGiver := !m1.players[row].clueGiver))
  }

  /** What the same code would do if the tapped player were a copy taken before the
      clearing: a true toggle of the row's old flag. */
  function ToggleOnCopy(m: Members, row: nat): (r: Members)
    requires row < |m.players|
  {
    var tapped := m.players[row];
    if !MayNominate(m.local, tapped) then m
    else
      var m1 := ClearClueGiverOfTeam(m, tapped.team);
      SetEntry(m1, row, m1.players[row].(clueGiver := !tapped.clueGiver))
  }

  /** Clearing a team whose clue-givers number at most one leaves it without any, and
      changes no entry but its old clue-giver. */
  lemma ClearClueGiverOfTeamFacts(m: Members, team: Team)
    requires DistinctUuids(m.players)
    requires |Filter(m.players, ClueGiverOf(team))| <= 1
    ensures var r := ClearClueGiverOfTeam(m, team);
      forall i :: 0 <= i < |r.players| ==> !ClueGiverOf(team)(r.players[i])
    ensures var r := ClearClueGiverOfTeam(m, team);
      forall i :: 0 <= i < |r.players| ==>
        r.players[i] == m.players[i] ||
        (ClueGiverOf(team)(m.players[i]) && r.players[i] == m.players[i].(clueGiver := false))
  {
    var v := m.players;
    FilterSingle(v, ClueGiverOf(team));
    match ClueGiverUuid(v, team)
    case None =>
      FilterEmpty(v, ClueGiverOf(team));
    case Some(cg) =>
      var c :| UniqueIndex(v, ClueGiverOf(team), c);
      LookupOwnUuid(v, c);
      assert ClearClueGiverOfTeam(m, team).players == v[c := v[c].(clueGiver := false)];
  }

  /** A tap by a non-host on another player's row changes nothing. */
  lemma ToggleGuard(m: Members, row: nat)
    requires row < |m.players|
    requires !m.local.host && m.local.uuid != m.players[row].uuid
    ensures Toggle(m, row) == m
  {
  }

  /** The point of the aliasing: when the tapped player's team had at most one clue-giver,
      the tapped player ends as its one and only clue-giver, even when it already was; every
      other entry is kept or merely loses the flag, and the local player stays in step. */
  lemma ToggleEndsSoleClueGiver(m: Members, row: nat)
    requires row < |m.players| && Consistent(m) && DistinctUuids(m.players)
    requires MayNominate(m.local, m.players[row])
    requires |Filter(m.players, ClueGiverOf(m.players[row].team))| <= 1
    ensures UniqueIndex(Toggle(m, row).players, ClueGiverOf(m.players[row].team), row)
    ensures Toggle(m, row).players[row] == m.players[row].(clueGiver := true)
    ensures var r := Toggle(m, row);
      forall i :: 0 <= i < |m.players| && i != row ==>
        r.players[i] == m.players[i] ||
        (ClueGiverOf(m.players[row].team)(m.players[i]) && r.players[i] == m.players[i].(clueGiver := false))
    ensures Consistent(Toggle(m, row))
  {
    var team := m.players[row].team;
    ClearClueGiverOfTeamFacts(m, team);
    var m1 := ClearClueGiverOfTeam(m, team);
    assert !m1.players[row].clueGiver by {
      assert !ClueGiverOf(team)(m1.players[row]);
    }
    var r := Toggle(m, row);
    assert r.players == m1.players[row := m1.players[row].(clueGiver := true)];
    forall j | 0 <= j < |r.players| && ClueGiverOf(team)(r.players[j])
      ensures j == row
    {
    }
  }

  /** Where the flag is copied first the tap is a toggle: for the team's sole clue-giver the
      copy version leaves the team without one, while the code as written keeps the row as
      clue-giver. */
  lemma AliasingDiffersFromCopy(m: Members, row: nat)
    requires row < |m.players| && DistinctUuids(m.players)
    requires MayNominate(m.local, m.players[row])
    requires UniqueIndex(m.players, ClueGiverOf(m.players[row].team), row)
    ensures !ToggleOnCopy(m, row).players[row].clueGiver
    ensures forall i :: 0 <= i < |m.players| ==> !ClueGiverOf(m.players[row].team)(ToggleOnCopy(m, row).players[i])
    ensures Toggle(m, row).players[row].clueGiver
    ensures Toggle(m, row) != ToggleOnCopy(m, row)
  {
    var team := m.players[row].team;
    FilterSingle(m.players, ClueGiverOf(team));
    ClearClueGiverOfTeamFacts(m, team);
    LookupOwnUuid(m.players, row);
    var m1 := ClearClueGiverOfTeam(m, team);
    assert m1.players == m.players[row := m.players[row].(clueGiver := false)];
    assert ToggleOnCopy(m, row).players == m1.players;
  }

  /** With two or more clue-givers on the team nothing is cleared, and the tap really is a
      toggle of the row alone. */
  lemma ToggleWithSeveralClueGivers(m: Members, row: nat)
    requires row < |m.players|
    requires MayNominate(m.local, m.players[row])
    requires |Filter(m.players, ClueGiverOf(m.players[row].team))| >= 2
    ensures Toggle(m, row).players == m.players[row := m.players[row].(clueGiver := !m.players[row].clueGiver)]
  {
    FilterSingle(m.players, ClueGiverOf(m.players[row].team));
  }

  /** The clearing and the toggle on the objects; `allowed` says the guard let the tap
      through. */
  method ToggleRow(room: Room, local: Player, row: nat) returns (allowed: bool)
    requires room.Valid() && row < |room.players|
    modifies set p | p in room.players
    ensures MembersOf(room, local) == Toggle(old(MembersOf(room, local)), row)
    ensures allowed <==> MayNominate(old(local.Data()), old(room.View())[row])
  {
    var playerAtIndex := room.players[row];
    var team := playerAtIndex.team;
    if !local.host && local.uuid != playerAtIndex.uuid {
      return false;
    }
    var cluegiverUuid := ClueGiverUuid(room.View(), team);
    if cluegiverUuid.Some? {
      SetClueGiverWithUuid(room, local, cluegiverUuid.value, false);
    }
    SetClueGiverOf(room, local, room.players[row], row, !playerAtIndex.clueGiver);
    return true;
  }

  // ---- The screen ----

  /** The earlier pregame screen: the room and the local player are shared objects; the
      replaced singletons and the screen's outputs are one record. */
  class EarlierPregameScreen {
    var room: Room
    var local: Player
    var vals: EarlierValues

    ghost predicate Valid()
      reads this, room
    {
      room.Valid()
    }

    function State(): Earlier
      reads this, room, room.players, local
    {
      Earlier(room.State(), local.Data(), vals)
    }

    constructor (room: Room, local: Player, cards: CardsState, round: Round)
      ensures this.room == room && this.local == local
      ensures State() == Earlier(room.State(), local.Data(), EarlierValues(cards, round, [], [], []))
    {
      this.room := room;
      this.local := local;
      vals := EarlierValues(cards, round, [], [], []);
    }

    method FoundPeer(peer: Peer, info: Option<map<string, string>>)
      modifies this
      ensures room == old(room) && local == old(local)
      ensures State() == FoundPeerStep(old(State()), peer, info)
    {
      if info.Some? && JoinRoomKey in info.value && info.value[JoinRoomKey] == room.uuid {
        vals := vals.(requests := vals.requests + [InviteRequest(peer)]);
      }
    }

    method ReceiveRoom(peer: Peer, rs: RoomState)
      modifies this
      ensures Valid()
      ensures State() == ReceiveStep(old(State()), peer, RoomIn(rs))
      ensures MembersOf(room, local).localAt == LookupUuid(rs.players, old(local.uuid))
    {
      ghost var s := State();
      var r := new Room.FromState(rs);
      assert local !in r.players by {
        forall x | x in r.players
          ensures x != local
        {
          assert fresh(x);
        }
      }
      var p := AdoptLocal(r, local);
      var exit := RoomExit(r.View(), p.uuid);
      ghost var e := ReceiveStep(s, peer, RoomIn(rs));
      assert e == Earlier(r.State(), p.Data(), vals.(navigation := vals.navigation + exit));
      room, local, vals := r, p, vals.(navigation := vals.navigation + exit);
    }

    method DidReceiveData(peer: Peer, msg: Incoming)
      requires Valid()
      modifies this, room
      ensures Valid()
      ensures State() == ReceiveStep(old(State()), peer, msg)
      ensures msg.RoomIn? ==> MembersOf(room, local).localAt == LookupUuid(msg.room.players, old(local.uuid))
      ensures !msg.RoomIn? ==> room == old(room) && local == old(local)
    {
      if msg.PlayerIn? {
        ghost var s := State();
        ReceivePlayerInto(room, peer, msg.player, local.host);
        assert local.Data() == s.local;
      } else if msg.RoomIn? {
        ReceiveRoom(peer, msg.room);
      } else if msg.PeersIn? {
        room.connectedPeers := msg.peers;
      } else if msg.CardsIn? {
        vals := vals.(cards := msg.cards);
      } else if msg.RoundIn? {
        vals := vals.(round := msg.round, navigation := vals.navigation + [ToGame]);
      }
    }

    method PeerDisconnectedFromSession(peer: Peer)
      requires Valid()
      modifies this, room
      ensures Valid() && room == old(room) && local == old(local)
      ensures State() == DisconnectStep(old(State()), peer)
    {
      ghost var s := State();
      var hostLeft := DisconnectPeer(room, peer);
      assert local.Data() == s.local;
      vals := vals.(navigation := vals.navigation + if hostLeft then [ToLobby(HostDisconnected)] else []);
    }

    method TeamDidChangeAtIndex(index: nat, redTeam: bool)
      requires Valid() && index < |room.players|
      modifies this, set p | p in room.players
      ensures Valid() && room == old(room) && local == old(local)
      ensures room.players == old(room.players)
      ensures MembersOf(room, local) == TeamDidChange(old(MembersOf(room, local)), index, redTeam)
      ensures room.State() == old(room.State()).(players := room.View())
      ensures vals == old(vals).(sent := old(vals.sent) + [room.State()])
    {
      var playerAtIndex := room.players[index];
      if redTeam {
        SetTeamWithUuid(room, local, playerAtIndex.uuid, Red);
      } else {
        SetTeamWithUuid(room, local, playerAtIndex.uuid, Blue);
      }
      SetClueGiverWithUuid(room, local, playerAtIndex.uuid, false);
      vals := vals.(sent := vals.sent + [room.State()]);
    }

    method DidSelectRow(row: nat)
      requires Valid() && row < |room.players|
      modifies this, set p | p in room.players
      ensures Valid() && room == old(room) && local == old(local)
      ensures room.players == old(room.players)
      ensures MembersOf(room, local) == Toggle(old(MembersOf(room, local)), row)
      ensures room.State() == old(room.State()).(players := room.View())
      ensures !MayNominate(old(local.Data()), old(room.View())[row]) ==> vals == old(vals)
      ensures MayNominate(old(local.Data()), old(room.View())[row]) ==>
        vals == old(vals).(sent := old(vals.sent) + [room.State()])
    {
      var allowed := ToggleRow(room, local, row);
      if allowed {
        vals := vals.(sent := vals.sent + [room.State()]);
      }
    }

    /** `prepareForSegue` to the lobby: the room forgets its peers and players, and the
        manager is asked to terminate. */
    method PrepareForLobby()
      requires Valid()
      modifies this, room
      ensures Valid() && room == old(room) && local == old(local)
      ensures State() == old(State()).(
        room := old(room.State()).(connectedPeers := map[], players := []),
        vals := old(vals).(requests := old(vals.requests) + [TerminateRequest]))
    {
      room.connectedPeers := map[];
      room.players := [];
      vals := vals.(requests := vals.requests + [TerminateRequest]);
    }
  }
}

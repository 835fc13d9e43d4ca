/** The pregame room of the current revision: who may start, which found peers are invited,
    the room-size cap that switches discovery off, what a received object replaces, how a
    disconnection is handled, and the team-change and clue-giver nomination handlers. */
module PregameRoom {
  import opened Common
  import opened Entities
  import opened Lists
  import opened RoomView
  import opened Rooms
  import opened Cards
  import opened Multipeer
  import opened Membership

  /** `SCConstants.constant.roomMaxSize`. */
  const RoomMaxSize := 8

  /** The discovery-info key under which a joining device advertises the access code. */
  const AccessCodeKey := "room-access-code"

  /** An object archived and broadcast by this screen. */
  datatype Outgoing =
    | RoomData(room: RoomState)
    | ModeData(mode: GameMode)
    | TimerData(timer: Timer)
    | CardsData(cards: CardsState)
    | RoundData(round: Round)

  datatype MenuReason = HostDisconnected

  /** A segue the screen asks for: to the game, or back to the main menu (with the reason
      the alert shows, if any). */
  datatype Navigation = ToGame | ToMainMenu(reason: Option<MenuReason>)

  /** What unarchiving received data yields. */
  datatype Incoming =
    | PlayerIn(player: PlayerData)
    | RoomIn(room: RoomState)
    | ModeIn(mode: GameMode)
    | CardsIn(cards: CardsState)
    | RoundIn(round: Round)
    | StatsIn(stats: Statistics)
    | TimerIn(timer: Timer)
    | Unrecognised

  /** The singletons the screen reads and replaces wholesale (game mode, cards, round,
      statistics, timer) and what the screen itself shows and does: whether the start
      button is enabled, the segues it asked for and the objects it broadcast. */
  datatype ScreenValues = ScreenValues(
    mode: GameMode,
    cards: CardsState,
    round: Round,
    stats: Statistics,
    timer: Timer,
    startEnabled: bool,
    navigation: seq<Navigation>,
    sent: seq<Outgoing>)

  /** The screen as a value: the room and the local player (objects in the source), the
      transport, and the values above. */
  datatype Pregame = Pregame(
    room: RoomState,
    local: PlayerData,
    transport: ManagerState,
    vals: ScreenValues)

  /** `broadcastEssentialData`: the room, the game mode and the timer, in that order. */
  function Essential(room: RoomState, mode: GameMode, timer: Timer): seq<Outgoing> {
    [RoomData(room), ModeData(mode), TimerData(timer)]
  }

  // ---- Starting ----

  /** `onStartGame`: a new card collection, then a new round for its starting team, both
      broadcast, then the game. */
  function StartGameStep(s: Pregame, freshCards: CardsState): (r: Pregame)
    ensures r.room == s.room && r.local == s.local && r.transport == s.transport
    ensures r.vals.mode == s.vals.mode && r.vals.stats == s.vals.stats && r.vals.timer == s.vals.timer
  {
    if !CanStartGame(s.room.players, s.vals.mode) then s
    else
      var freshRound := NewRound(freshCards.startingTeam);
      s.(vals := s.vals.(cards := freshCards, round := freshRound,
                         sent := s.vals.sent + [CardsData(freshCards), RoundData(freshRound)],
                         navigation := s.vals.navigation + [ToGame]))
  }

  /** A game starts, with the fresh objects in place and broadcast, exactly when the team
      sizes suit the mode and each of red and blue has one and only one clue-giver; otherwise
      nothing at all happens. */
  lemma StartGameIff(s: Pregame, freshCards: CardsState)
    ensures var r := StartGameStep(s, freshCards);
      (r.vals.navigation == s.vals.navigation + [ToGame]) <==>
        TeamSizesValid(s.room.players, s.vals.mode) &&
        (exists k :: UniqueIndex(s.room.players, ClueGiverOf(Red), k)) &&
        (exists k :: UniqueIndex(s.room.players, ClueGiverOf(Blue), k))
    ensures var r := StartGameStep(s, freshCards);
      r.vals.navigation == s.vals.navigation + [ToGame] ==>
        r.vals.cards == freshCards &&
        r.vals.round.currentTeam == freshCards.startingTeam && !r.vals.round.BothFieldsSet() &&
        r.vals.round.winningTeam == None && !r.vals.round.aborted && !r.vals.round.gameEnded &&
        r.vals.sent == s.vals.sent + [CardsData(freshCards), RoundData(r.vals.round)] &&
        r.room == s.room && r.local == s.local
    ensures !CanStartGame(s.room.players, s.vals.mode) ==> StartGameStep(s, freshCards) == s
  {
    var r := StartGameStep(s, freshCards);
    if !CanStartGame(s.room.players, s.vals.mode) {
      assert |r.vals.navigation| == |s.vals.navigation|;
    }
  }

  // ---- Discovery ----

  /** The found peer's discovery info exists and carries the room's access code. */
  predicate InvitesPeer(info: Option<map<string, string>>, accessCode: string) {
    info.Some? && AccessCodeKey in info.value && info.value[AccessCodeKey] == accessCode
  }

  /** `foundPeer`. The invitation unwraps the session once there is a browser. */
  function FoundPeerStep(s: Pregame, peer: Peer, info: Option<map<string, string>>): (r: Pregame)
    requires InvitesPeer(info, s.room.accessCode) && s.transport.browser.Some? ==> s.transport.session.Some?
    ensures r == s.(transport := r.transport) && Switches(r.transport) == Switches(s.transport)
  {
    if InvitesPeer(info, s.room.accessCode) then s.(transport := InvitePeer(s.transport, peer)) else s
  }

  /** A found peer is invited iff its discovery info has the room's access code; nothing
      else changes either way. */
  lemma FoundPeerInvitesIff(s: Pregame, peer: Peer, info: Option<map<string, string>>)
    requires s.transport.browser.Some? && s.transport.session.Some?
    ensures var r := FoundPeerStep(s, peer, info);
      (r.transport.effects == s.transport.effects + [Invite(s.transport.browser.value, peer, s.transport.session.value)]) <==>
        info.Some? && AccessCodeKey in info.value && info.value[AccessCodeKey] == s.room.accessCode
    ensures FoundPeerStep(s, peer, info) == s.(transport := FoundPeerStep(s, peer, info).transport)
    ensures info.None? ==> FoundPeerStep(s, peer, info) == s
  {
    var r := FoundPeerStep(s, peer, info);
    if !InvitesPeer(info, s.room.accessCode) {
      assert |r.transport.effects| == |s.transport.effects|;
    }
  }

  /** The cap counts one extra place in a minigame for the CPU player. */
  function RoomCap(mode: GameMode): nat {
    if mode == RegularGame then RoomMaxSize else RoomMaxSize + 1
  }

  /** `checkRoom`: the start button follows `canStartGame`; on the host, discovery stops at
      the cap and is (re)started below it. */
  function CheckRoomStep(s: Pregame): Pregame {
    var t := s.(vals := s.vals.(startEnabled := CanStartGame(s.room.players, s.vals.mode)));
    if !s.local.host then t
    else if |s.room.players| >= RoomCap(s.vals.mode) then t.(transport := StopBrowser(StopAdvertiser(s.transport)))
    else t.(transport := StartBrowser(StartAdvertiser(s.transport, None)))
  }

  /** The cap is 8 in a regular game and 9 in a minigame. At or above it the host is left
      neither advertising nor browsing through an existing handle; below it both are on.
      A non-host's transport is never touched. */
  lemma CheckRoomCap(s: Pregame)
    ensures RoomCap(RegularGame) == 8 && RoomCap(MiniGame) == 9
    ensures CheckRoomStep(s).vals.startEnabled == CanStartGame(s.room.players, s.vals.mode)
    ensures !s.local.host ==> CheckRoomStep(s).transport == s.transport
    ensures s.local.host && |s.room.players| >= RoomCap(s.vals.mode) ==>
      (CheckRoomStep(s).transport.advertiserOn ==> CheckRoomStep(s).transport.advertiser.None?) &&
      (CheckRoomStep(s).transport.browserOn ==> CheckRoomStep(s).transport.browser.None?)
    ensures s.local.host && |s.room.players| < RoomCap(s.vals.mode) ==>
      CheckRoomStep(s).transport.advertiserOn && CheckRoomStep(s).transport.browserOn
    ensures CheckRoomStep(s).vals == s.vals.(startEnabled := CheckRoomStep(s).vals.startEnabled)
    ensures CheckRoomStep(s).room == s.room && CheckRoomStep(s).local == s.local
  {
    StopGuards(s.transport);
    StopGuards(StopAdvertiser(s.transport));
    StartSetsFlag(s.transport, None);
    StartSetsFlag(StartAdvertiser(s.transport, None), None);
  }

  // ---- Received objects ----

  /** `didReceiveData`. */
  function ReceiveStep(s: Pregame, peer: Peer, msg: Incoming): (r: Pregame)
    ensures r.transport == s.transport && r.vals.sent == s.vals.sent && r.vals.startEnabled == s.vals.startEnabled
    ensures r.local.uuid == s.local.uuid
    ensures s.vals.navigation <= r.vals.navigation
  {
    match msg
    case PlayerIn(d) => s.(room := AddReceived(s.room, peer, d, s.local.host))
    case RoomIn(rs) => s.(room := rs, local := AdoptedLocal(rs.players, s.local))
    case ModeIn(mode) => s.(vals := s.vals.(mode := mode))
    case CardsIn(cards) => s.(vals := s.vals.(cards := cards))
    case RoundIn(round) =>
      s.(vals := s.vals.(round := round,
                         navigation := s.vals.navigation + if !round.aborted && !round.gameEnded then [ToGame] else []))
    case StatsIn(stats) => s.(vals := s.vals.(stats := stats))
    case TimerIn(timer) => s.(vals := s.vals.(timer := timer))
    case Unrecognised => s
  }

  /** A received player always maps its peer to its uuid, and is appended (even when an
      entry with its uuid exists) only on the host. */
  lemma ReceivedPlayerAlwaysMapped(s: Pregame, peer: Peer, d: PlayerData)
    ensures var r := ReceiveStep(s, peer, PlayerIn(d));
      peer in r.room.connectedPeers && r.room.connectedPeers[peer] == d.uuid &&
      (forall q :: q in s.room.connectedPeers && q != peer ==> q in r.room.connectedPeers && r.room.connectedPeers[q] == s.room.connectedPeers[q])
    ensures var r := ReceiveStep(s, peer, PlayerIn(d));
      s.local.host ==> (|r.room.players| == |s.room.players| + 1 && r.room.players[|s.room.players|] == d &&
        r.room.players[..|s.room.players|] == s.room.players)
    ensures !s.local.host ==> ReceiveStep(s, peer, PlayerIn(d)).room.players == s.room.players
    ensures var r := ReceiveStep(s, peer, PlayerIn(d));
      r.local == s.local && r.vals.navigation == s.vals.navigation && r.room.accessCode == s.room.accessCode
  {
    var r := ReceiveStep(s, peer, PlayerIn(d));
    if s.local.host {
      assert r.room.players[..|s.room.players|] == s.room.players;
    }
  }

  /** A received room replaces the local one; the local player becomes the new room's entry
      with its uuid when exactly one exists, and is kept otherwise. */
  lemma ReceivedRoomAdopted(s: Pregame, peer: Peer, rs: RoomState)
    ensures ReceiveStep(s, peer, RoomIn(rs)).room == rs
    ensures var r := ReceiveStep(s, peer, RoomIn(rs));
      forall k :: UniqueIndex(rs.players, HasUuid(s.local.uuid), k) ==> r.local == rs.players[k]
    ensures (forall k :: !UniqueIndex(rs.players, HasUuid(s.local.uuid), k)) ==>
      ReceiveStep(s, peer, RoomIn(rs)).local == s.local
    ensures ReceiveStep(s, peer, RoomIn(rs)).local.uuid == s.local.uuid
  {
  }

  /** A received round is adopted and leads to the game iff it is neither aborted nor over. */
  lemma ReceivedRoundNavigatesIff(s: Pregame, peer: Peer, round: Round)
    ensures ReceiveStep(s, peer, RoundIn(round)).vals.round == round
    ensures (ReceiveStep(s, peer, RoundIn(round)).vals.navigation == s.vals.navigation + [ToGame]) <==>
      !round.aborted && !round.gameEnded
    ensures round.aborted || round.gameEnded ==> ReceiveStep(s, peer, RoundIn(round)).vals.navigation == s.vals.navigation
  {
    var r := ReceiveStep(s, peer, RoundIn(round));
    if round.aborted || round.gameEnded {
      assert |r.vals.navigation| == |s.vals.navigation|;
    }
  }

  // ---- Disconnection ----

  /** `peerDisconnectedFromSession`; the host's departure also asks for the main menu. */
  function DisconnectStep(s: Pregame, peer: Peer): (r: Pregame)
    ensures r.local == s.local && r.transport == s.transport && r.vals.sent == s.vals.sent
    ensures r.room.name == s.room.name && r.room.uuid == s.room.uuid && r.room.accessCode == s.room.accessCode
  {
    var d := Membership.Disconnect(s.room, peer);
    s.(room := d.0,
       vals := s.vals.(navigation := s.vals.navigation + if d.1 == HostLeft then [ToMainMenu(Some(HostDisconnected))] else []))
  }

  /** An unknown peer changes nothing; the host's peer empties the room and leaves for the
      main menu; any other peer's entries and mapping go, and the other entries stay. */
  lemma DisconnectStepProperties(s: Pregame, peer: Peer)
    ensures peer !in s.room.connectedPeers ==> DisconnectStep(s, peer) == s
    ensures var r := DisconnectStep(s, peer);
      peer in s.room.connectedPeers && r.vals.navigation == s.vals.navigation + [ToMainMenu(Some(HostDisconnected))] ==>
        r.room.players == [] && r.room.connectedPeers == s.room.connectedPeers
    ensures var r := DisconnectStep(s, peer);
      peer in s.room.connectedPeers && r.vals.navigation == s.vals.navigation ==>
        var u := s.room.connectedPeers[peer];
        peer !in r.room.connectedPeers &&
        (forall x :: x in r.room.players ==> x.uuid != u) &&
        (forall x :: x in s.room.players && x.uuid != u ==> x in r.room.players)
    ensures DisconnectStep(s, peer).local == s.local
  {
    DisconnectProperties(s.room, peer);
    var r := DisconnectStep(s, peer);
    if Membership.Disconnect(s.room, peer).1 != HostLeft {
      assert |r.vals.navigation| == |s.vals.navigation|;
    }
  }

  // ---- Team change and nomination ----

  /** `teamUpdatedAtIndex`: two lookups by the row's uuid, the first setting the team and
      the second clearing the clue-giver flag. */
  function TeamUpdated(m: Members, index: nat, newTeam: Team): (r: Members)
    requires index < |m.players|
    ensures |r.players| == |m.players| && r.localAt == m.localAt
    ensures forall i :: 0 <= i < |m.players| ==> r.players[i].uuid == m.players[i].uuid
    ensures Consistent(m) ==> Consistent(r) && r.local.uuid == m.local.uuid
  {
    var u := m.players[index].uuid;
    SetClueGiverByUuid(SetTeamByUuid(m, u, newTeam), u, false)
  }

  /** With distinct uuids a team change puts the row on the new team without the clue-giver
      flag; the local player changes with it exactly when it is that row's object. */
  lemma TeamChangeClearsClueGiver(m: Members, index: nat, newTeam: Team)
    requires index < |m.players| && DistinctUuids(m.players)
    ensures var r := TeamUpdated(m, index, newTeam);
      r.players == m.players[index := m.players[index].(team := newTeam, clueGiver := false)]
    ensures m.localAt == Some(index) ==>
      TeamUpdated(m, index, newTeam).local == m.players[index].(team := newTeam, clueGiver := false)
    ensures m.localAt != Some(index) ==> TeamUpdated(m, index, newTeam).local == m.local
  {
    var u := m.players[index].uuid;
    LookupOwnUuid(m.players, index);
    var m1 := SetTeamByUuid(m, u, newTeam);
    assert m1.players == m.players[index := m.players[index].(team := newTeam)];
    assert DistinctUuids(m1.players);
    LookupOwnUuid(m1.players, index);
  }

  /** When the row's uuid is shared by another entry the lookups find nothing: no change. */
  lemma TeamChangeOnSharedUuid(m: Members, index: nat, newTeam: Team)
    requires index < |m.players|
    requires forall k :: !UniqueIndex(m.players, HasUuid(m.players[index].uuid), k)
    ensures TeamUpdated(m, index, newTeam) == m
  {
  }

  /** The first half of `didSelectRowAt`: the team's unique clue-giver, if any, loses the
      flag, and so does the local player when its uuid is that clue-giver's. */
  function ClearTeamClueGiver(m: Members, team: Team): (r: Members)
    ensures |r.players| == |m.players| && r.localAt == m.localAt
    ensures Consistent(m) ==> forall i :: 0 <= i < |m.players| ==>
      r.players[i].uuid == m.players[i].uuid && r.players[i].team == m.players[i].team
    ensures Consistent(m) ==> Consistent(r) && r.local.uuid == m.local.uuid && r.local.team == m.local.team
  {
    match ClueGiverUuid(m.players, team)
    case None => m
    case Some(cg) =>
      var m1 := SetClueGiverByUuid(m, cg, false);
      if m1.local.uuid == cg then SetLocal(m1, m1.local.(clueGiver := false)) else m1
  }

  /** `didSelectRowAt`: only a row of the local player's team is taken; the team's old
      clue-giver is cleared, the row becomes clue-giver, and so does the local player when
      the row carries its uuid. */
  function Nominate(m: Members, row: nat): (r: Members)
    requires row < |m.players|
    ensures |r.players| == |m.players|
  {
    var team := m.players[row].team;
    if m.local.team != team then m
    else
      var m1 := ClearTeamClueGiver(m, team);
      var m2 := SetEntry(m1, row, m1.players[row].(clueGiver := true));
      if m2.local.uuid == m.players[row].uuid then SetLocal(m2, m2.local.(clueGiver := true)) else m2
  }

  /** Clearing leaves the team without a clue-giver, changes only its old clue-giver (when
      there was one and only one), and keeps the local player in step with its entry. */
  lemma ClearTeamClueGiverFacts(m: Members, team: Team)
    requires Consistent(m) && DistinctUuids(m.players)
    requires |Filter(m.players, ClueGiverOf(team))| <= 1
    ensures var r := ClearTeamClueGiver(m, team);
      forall i :: 0 <= i < |r.players| ==> !ClueGiverOf(team)(r.players[i])
    ensures var r := ClearTeamClueGiver(m, team);
      forall i :: 0 <= i < |r.players| ==>
        r.players[i] == m.players[i] ||
        (ClueGiverOf(team)(m.players[i]) && r.players[i] == m.players[i].(clueGiver := false))
  {
    var v := m.players;
    FilterSingle(v, ClueGiverOf(team));
    match ClueGiverUuid(v, team)
    case None =>
      FilterEmpty(v, ClueGiverOf(team));
    case Some(cg) =>
      var c :| UniqueIndex(v, ClueGiverOf(team), c);
      LookupOwnUuid(v, c);
      var m1 := SetClueGiverByUuid(m, cg, false);
      assert m1.players == v[c := v[c].(clueGiver := false)];
      if m1.local.uuid == cg && m.localAt.Some? {
        var j := m.localAt.value;
        assert m1.players[j].uuid == v[j].uuid;
        assert j == c;
      }
  }

  /** The point of nomination: a team with at most one clue-giver ends with the tapped row
      as its one and only clue-giver. No entry changes except the row and the old
      clue-giver, the local player is in step, and a row of another team is ignored. */
  lemma NominationOneClueGiver(m: Members, row: nat)
    requires row < |m.players| && Consistent(m) && DistinctUuids(m.players)
    requires |Filter(m.players, ClueGiverOf(m.players[row].team))| <= 1
    ensures m.local.team != m.players[row].team ==> Nominate(m, row) == m
    ensures m.local.team == m.players[row].team ==>
      UniqueIndex(Nominate(m, row).players, ClueGiverOf(m.players[row].team), row)
    ensures m.local.team == m.players[row].team ==>
      Nominate(m, row).players[row] == m.players[row].(clueGiver := true)
    ensures var r := Nominate(m, row);
      forall i :: 0 <= i < |m.players| && i != row ==>
        r.players[i] == m.players[i] ||
        (ClueGiverOf(m.players[row].team)(m.players[i]) && r.players[i] == m.players[i].(clueGiver := false))
    ensures Consistent(Nominate(m, row))
    ensures m.local.team == m.players[row].team && m.local.uuid == m.players[row].uuid ==>
      Nominate(m, row).local.clueGiver
  {
    var team := m.players[row].team;
    if m.local.team == team {
      ClearTeamClueGiverFacts(m, team);
      var m1 := ClearTeamClueGiver(m, team);
      var m2 := SetEntry(m1, row, m1.players[row].(clueGiver := true));
      assert m2.players == m1.players[row := m1.players[row].(clueGiver := true)];
      if m2.local.uuid == m.players[row].uuid && m.localAt.Some? {
        var j := m.localAt.value;
        assert m2.players[j].uuid == m.players[j].uuid;
        assert j == row;
      }
      var r := Nominate(m, row);
      assert r.players == m2.players;
      forall j | 0 <= j < |r.players| && ClueGiverOf(team)(r.players[j])
        ensures j == row
      {
      }
    }
  }

  /** The first half of `didSelectRowAt` on the objects. */
  method ClearTeamClueGiverOf(room: Room, local: Player, team: Team)
    requires room.Valid()
    modifies local, set p | p in room.players
    ensures MembersOf(room, local) == ClearTeamClueGiver(old(MembersOf(room, local)), team)
  {
    var cluegiverUuid := ClueGiverUuid(room.View(), team);
    if cluegiverUuid.Some? {
      SetClueGiverWithUuid(room, local, cluegiverUuid.value, false);
      if local.uuid == cluegiverUuid.value {
        SetLocalClueGiver(room, local, false);
      }
    }
  }

  /** `didSelectRowAt` on the objects, without the broadcast. */
  method NominateRow(room: Room, local: Player, row: nat)
    requires room.Valid() && row < |room.players|
    modifies local, set p | p in room.players
    ensures MembersOf(room, local) == Nominate(old(MembersOf(room, local)), row)
  {
    ghost var m := MembersOf(room, local);
    var playerAtIndex := room.players[row];
    var team := playerAtIndex.team;
    if local.team != team {
      return;
    }
    ClearTeamClueGiverOf(room, local, team);
    ghost var m1 := MembersOf(room, local);
    SetClueGiverOf(room, local, room.players[row], row, true);
    ghost var m2 := MembersOf(room, local);
    assert m2 == SetEntry(m1, row, m1.players[row].(clueGiver := true));
    if local.uuid == playerAtIndex.uuid {
      SetLocalClueGiver(room, local, true);
    }
  }

  /** The host's half of `checkRoom`: at the cap both discovery roles stop, below it both
      (re)start. */
  method Discovery(manager: MultipeerManager, atCap: bool)
    modifies manager
    ensures manager.State() == if atCap then StopBrowser(StopAdvertiser(old(manager.State())))
                               else StartBrowser(StartAdvertiser(old(manager.State()), None))
  {
    if atCap {
      manager.StopAdvertiserStep();
      manager.StopBrowserStep();
    } else {
      manager.StartAdvertiserStep(None);
      manager.StartBrowserStep();
    }
  }

  // ---- The screen ----

  /** The pregame screen. The room and the local player are objects it shares with the rest
      of the program; the transport is the multipeer manager; the value singletons and the
      screen's own outputs are held as one record that each handler replaces. */
  class PregameScreen {
    var room: Room
    var local: Player
    var manager: MultipeerManager
    var vals: ScreenValues

    ghost predicate Valid()
      reads this, room
    {
      room.Valid()
    }

    function State(): Pregame
      reads this, room, room.players, local, manager
    {
      Pregame(room.State(), local.Data(), manager.State(), vals)
    }

    constructor (room: Room, local: Player, manager: MultipeerManager, mode: GameMode,
                 cards: CardsState, round: Round, stats: Statistics, timer: Timer)
      ensures this.room == room && this.local == local && this.manager == manager
      ensures State() == Pregame(room.State(), local.Data(), manager.State(),
                                 ScreenValues(mode, cards, round, stats, timer, false, [], []))
    {
      this.room := room;
      this.local := local;
      this.manager := manager;
      vals := ScreenValues(mode, cards, round, stats, timer, false, [], []);
    }

    method OnStartGame(freshCards: CardsState)
      modifies this
      ensures State() == StartGameStep(old(State()), freshCards)
      ensures room == old(room) && local == old(local) && manager == old(manager)
    {
      var players := room.View();
      if CanStartGame(players, vals.mode) {
        var freshRound := NewRound(freshCards.startingTeam);
        vals := vals.(cards := freshCards, round := freshRound,
                      sent := vals.sent + [CardsData(freshCards), RoundData(freshRound)],
                      navigation := vals.navigation + [ToGame]);
      }
    }

    method FoundPeer(peer: Peer, info: Option<map<string, string>>)
      requires InvitesPeer(info, room.accessCode) && manager.browser.Some? ==> manager.session.Some?
      modifies manager
      ensures State() == FoundPeerStep(old(State()), peer, info)
    {
      if info.Some? && AccessCodeKey in info.value && info.value[AccessCodeKey] == room.accessCode {
        manager.InvitePeerToSession(peer);
      }
    }

    method CheckRoom()
      modifies this, manager
      ensures State() == CheckRoomStep(old(State()))
      ensures room == old(room) && local == old(local) && manager == old(manager)
    {
      ghost var s := State();
      ghost var e := CheckRoomStep(s);
      var players := room.View();
      vals := vals.(startEnabled := CanStartGame(players, vals.mode));
      assert vals == e.vals;
      if !local.host {
        return;
      }
      var maxRoomSize := if vals.mode == RegularGame then RoomMaxSize else RoomMaxSize + 1;
      Discovery(manager, |players| >= maxRoomSize);
      assert room.State() == s.room && local.Data() == s.local;
    }

    /** `refreshView`: the room check, then the room's `refresh`. A local player that is
        not one of the room's objects is untouched by the refresh. */
    method RefreshView()
      requires Valid()
      modifies this, manager, room, set p | p in room.players
      ensures Valid() && room == old(room) && local == old(local) && manager == old(manager)
      ensures State() == CheckRoomStep(old(State())).(
        room := old(room.State()).(players := RoomView.RefreshView(old(room.View()))),
        local := State().local)
      ensures old(local) !in old(room.players) ==> local.Data() == old(local.Data())
      ensures old(local) in old(room.players) ==> local in room.players
    {
      CheckRoom();
      room.Refresh();
      assert old(local) in old(room.players) ==> local in multiset(room.players);
    }

    /** The `Player` case of `didReceiveData`: a new object carrying the received values. */
    method ReceivePlayer(peer: Peer, d: PlayerData)
      requires Valid()
      modifies room
      ensures Valid() && room == old(room) && local == old(local)
      ensures State() == ReceiveStep(old(State()), peer, PlayerIn(d))
    {
      ghost var s := State();
      ReceivePlayerInto(room, peer, d, local.host);
      assert local.Data() == s.local;
    }

    /** The `Room` case of `didReceiveData`: the decoded room, whose player objects are all
        new, replaces the old one, and the local player becomes its entry with the local
        uuid when there is exactly one. */
    method ReceiveRoom(peer: Peer, rs: RoomState)
      modifies this
      ensures Valid() && manager == old(manager)
      ensures State() == ReceiveStep(old(State()), peer, RoomIn(rs))
      ensures MembersOf(room, local).localAt == LookupUuid(rs.players, old(local.uuid))
    {
      ghost var s := State();
      var r := new Room.FromState(rs);
      assert manager.State() == s.transport;
      assert local !in r.players by {
        forall x | x in r.players
          ensures x != local
        {
          assert fresh(x);
        }
      }
      var p := AdoptLocal(r, local);
      ghost var e := ReceiveStep(s, peer, RoomIn(rs));
      assert e == Pregame(r.State(), p.Data(), s.transport, s.vals);
      room, local := r, p;
    }

    method DidReceiveData(peer: Peer, msg: Incoming)
      requires Valid()
      modifies this, room
      ensures Valid() && manager == old(manager)
      ensures State() == ReceiveStep(old(State()), peer, msg)
      ensures msg.RoomIn? ==> MembersOf(room, local).localAt == LookupUuid(msg.room.players, old(local.uuid))
      ensures !msg.RoomIn? ==> room == old(room) && local == old(local)
    {
      if msg.PlayerIn? {
        ReceivePlayer(peer, msg.player);
      } else if msg.RoomIn? {
        ReceiveRoom(peer, msg.room);
      } else if msg.ModeIn? {
        vals := vals.(mode := msg.mode);
      } else if msg.CardsIn? {
        vals := vals.(cards := msg.cards);
      } else if msg.RoundIn? {
        var round := msg.round;
        vals := vals.(round := round,
                      navigation := vals.navigation + if !round.aborted && !round.gameEnded then [ToGame] else []);
      } else if msg.StatsIn? {
        vals := vals.(stats := msg.stats);
      } else if msg.TimerIn? {
        vals := vals.(timer := msg.timer);
      }
    }

    method PeerDisconnectedFromSession(peer: Peer)
      requires Valid()
      modifies this, room
      ensures Valid() && room == old(room) && local == old(local) && manager == old(manager)
      ensures State() == DisconnectStep(old(State()), peer)
    {
      ghost var s := State();
      ghost var d := Membership.Disconnect(s.room, peer);
      var hostLeft := DisconnectPeer(room, peer);
      assert local.Data() == s.local && manager.State() == s.transport;
      vals := vals.(navigation := vals.navigation + if hostLeft then [ToMainMenu(Some(HostDisconnected))] else []);
    }

    method TeamUpdatedAtIndex(index: nat, newTeam: Team)
      requires Valid() && index < |room.players|
      modifies this, set p | p in room.players
      ensures Valid() && room == old(room) && local == old(local) && manager == old(manager)
      ensures room.players == old(room.players)
      ensures MembersOf(room, local) == TeamUpdated(old(MembersOf(room, local)), index, newTeam)
      ensures room.State() == old(room.State()).(players := room.View())
      ensures manager.State() == old(manager.State())
      ensures vals == old(vals).(sent := old(vals.sent) + Essential(room.State(), vals.mode, vals.timer))
    {
      var playerAtIndex := room.players[index];
      SetTeamWithUuid(room, local, playerAtIndex.uuid, newTeam);
      SetClueGiverWithUuid(room, local, playerAtIndex.uuid, false);
      vals := vals.(sent := vals.sent + Essential(room.State(), vals.mode, vals.timer));
    }

    method DidSelectRowAt(row: nat)
      requires Valid() && row < |room.players|
      modifies this, local, set p | p in room.players
      ensures Valid() && room == old(room) && local == old(local) && manager == old(manager)
      ensures room.players == old(room.players)
      ensures MembersOf(room, local) == Nominate(old(MembersOf(room, local)), row)
      ensures room.State() == old(room.State()).(players := room.View())
      ensures manager.State() == old(manager.State())
      ensures old(local.team) != old(room.View())[row].team ==> vals == old(vals)
      ensures old(local.team) == old(room.View())[row].team ==>
        vals == old(vals).(sent := old(vals.sent) + Essential(room.State(), vals.mode, vals.timer))
    {
      var team := room.players[row].team;
      var play := local.team == team;
      NominateRow(room, local, row);
      if play {
        vals := vals.(sent := vals.sent + Essential(room.State(), vals.mode, vals.timer));
      }
    }
  }
}

# Spycodes core in Dafny

A model of the game logic of Spycodes, an iOS clone of the board game Codenames played
over a local peer-to-peer network. Players gather in a room on the host's device. They
split into a red and a blue team, and each team has one clue-giver (the "leader"). The
host starts the game on a board of cards. In turn, a leader gives a clue and teammates
tap cards until the turn passes or one team wins. Every device keeps its own copy of the
room, the board and the round, and overwrites it with whatever it receives.

The model covers:

- the room registry (`Rooms`, `RoomView`): the ordered list of shared player objects, the
  peer-to-uuid table, the access code, the lookups by uuid, the start-game test, the
  `refresh` sort with its clue-giver housekeeping, and the archive round trip;
- the card collection (`Cards`): layout, remaining counts, archiving, and the minigame's
  automatic opponent move;
- the array shuffle and the helpers built on it (`ArrayShuffle`);
- the first revision's lobby (`Lobbies`), with its defective removal loop;
- the page-flow index navigation (`PageFlow`);
- the multipeer manager's flags and guards (`Multipeer`);
- the game screen's round state machine (`GameRoom`): card taps, ending a round, confirming a
  clue, the action button, the dashboard and the round timer;
- the current pregame screen (`PregameRoom`) and the earlier one (`EarlierPregameRoom`):
  starting a game, inviting found peers, the room-size cap, received objects, departed
  peers, team changes and leader nomination.

`Membership` holds what both pregame screens share. The room list and the local player
are objects, so one player can be reached both as a list entry and as the local player. A
change through either path is seen through both. `Members` records this as the list
values, the local value and the list position of the local object (`localAt`).

Screens and managers are classes whose methods change their fields. Each method is proved
equal to a pure step function on a value of the whole screen (`Screen`, `Pregame`,
`Earlier`, `ManagerState`). The properties are lemmas about those functions.

Inputs the source takes from the environment are parameters of the model:

- random draws (`arc4random_uniform`) become a sequence of draws;
- fresh uuids and the freshly generated access code are given values;
- the host flag, game mode and fixed strings are fields of a context;
- network sends, invitations and framework calls are appended to an effect or message log.

## Model

| member | source | states |
|---|---|---|
| `Common.RawValue` | Spycodes/Objects/Room.swift:83-85 | every team has a raw value below 4, the order `refresh` compares |
| `Common.Opponent` | Spycodes/ViewControllers/SCGameRoomViewController.swift:768 | the opponent's raw value is the team's raw value with the low bit flipped |
| `Common.OpponentOfPlayingTeams` | Spycodes/ViewControllers/SCGameRoomViewController.swift:768 | red and blue are each other's opponent, and taking the opponent twice gives the team back |
| `Entities.NewRound` | Spycodes/ViewControllers/SCPregameRoomViewController.swift:47-49 | the round `onStartGame` makes belongs to the new board's starting team, has no clue, no winner and is neither aborted nor over |
| `Rooms.AllowedAreLowercase` | Spycodes/Objects/Room.swift:7 | the access-code alphabet is the 26 lower-case letters |
| `Rooms.GenerateAccessCode` | Spycodes/Objects/Room.swift:61-71 | the code has four characters, each a lower-case letter picked by its draw |
| `Rooms.SnapshotSort` | Spycodes/Objects/Room.swift:82-90 | sorting the player objects orders their values exactly as the value-level sort does |
| `Rooms.SnapshotWithoutUuid` | Spycodes/Objects/Room.swift:162-164 | dropping objects by uuid drops exactly the values that carry the uuid, in order |
| `Rooms.WithoutUuidDistinct` | Spycodes/Objects/Room.swift:162-164 | removing by uuid never makes two list entries share one object |
| `Rooms.AddThenRemoveCpu` | Spycodes/Objects/Room.swift:122-129 | in a room without a CPU player, removing the CPU player undoes adding it |
| `Rooms.RemoveAtFacts` | Spycodes/Objects/Room.swift:156-160 | removing entry i removes value i and keeps the entries distinct objects |
| `Rooms.FreshRoom` | Spycodes/Objects/Room.swift:16-20 | a new room has no players or peers, its own uuid, and its name equals its access code |
| `Rooms.EncodeRoom` | Spycodes/Objects/Room.swift:73-79 | the archive holds exactly the five keys name, uuid, accessCode, players and connectedPeers |
| `Rooms.DecodeEncodeRoom` | Spycodes/Objects/Room.swift:40-54 | decoding an encoded room gives back every field |
| `Rooms.DecodeWithoutAccessCode` | Spycodes/Objects/Room.swift:45-50 | a version 1.0 archive without an access code keeps name, uuid, players and peers, and gets a freshly generated code |
| `Rooms.DecodeMissingKey` | Spycodes/Objects/Room.swift:41-53 | without any of the four required keys the decoder yields a fresh room |
| `Rooms.Room.Init` | Spycodes/Objects/Room.swift:16-20 | the room starts empty, with the given uuid and a generated four-letter code that is also its name |
| `Rooms.Room.FromState` | Spycodes/Objects/Room.swift:31-38 | a decoded room has the archived values in new player objects |
| `Rooms.Room.GenerateNewAccessCode` | Spycodes/Objects/Room.swift:101-104 | a new four-letter code from the draws, which also becomes the name; nothing else changes |
| `Rooms.Room.AddPlayer` | Spycodes/Objects/Room.swift:118-120 | the object is appended and the rest of the room is unchanged |
| `Rooms.Room.AddCpuPlayer` | Spycodes/Objects/Room.swift:122-125 | a new blue clue-giver named CPU with the CPU uuid is appended after the old entries |
| `Rooms.Room.RemovePlayerWithUuid` | Spycodes/Objects/Room.swift:162-164 | exactly the entries with the uuid go, the others keep their order, and no entry repeats |
| `Rooms.Room.RemoveCpuPlayer` | Spycodes/Objects/Room.swift:127-129 | exactly the entries with the CPU uuid go |
| `Rooms.Room.RemovePlayerAtIndex` | Spycodes/Objects/Room.swift:156-160 | entry `index` goes when it exists; an index past the end changes nothing |
| `Rooms.Room.SetNameOfPlayerAtIndex` | Spycodes/Objects/Room.swift:150-154 | entry `index` is renamed when it exists; otherwise nothing changes |
| `Rooms.Room.GetPlayerWithUuid` | Spycodes/Objects/Room.swift:140-148 | a player is returned if and only if exactly one entry has the uuid, and it is that entry |
| `Rooms.Room.PlayerWithUuidInRoom` | Spycodes/Objects/Room.swift:166-168 | true if and only if exactly one entry has the uuid |
| `Rooms.Room.AutoAssignCluegiverForTeam` | Spycodes/Objects/Room.swift:131-138 | the team's first player in list order becomes a clue-giver; no other entry changes |
| `Rooms.Room.SortByTeam` | Spycodes/Objects/Room.swift:82-90 | the same objects, reordered so the values are sorted by team and clue-givers first |
| `Rooms.Room.Refresh` | Spycodes/Objects/Room.swift:81-99 | the same objects; the values are the sort followed by red's and then blue's clue-giver assignment |
| `Rooms.Room.ResetPlayers` | Spycodes/Objects/Room.swift:219-224 | every player becomes a red non-clue-giver; the list itself is kept |
| `Rooms.Room.Reset` | Spycodes/Objects/Room.swift:226-229 | no players and no connected peers remain; name, uuid and code are kept |
| `Rooms.Room.RemoveAllPlayers` | Spycodes/ViewControllers/SCPregameRoomViewController.swift:342 | the player list empties; the peers, name, uuid and code are kept |
| `Rooms.Room.AddConnectedPeer` | Spycodes/ViewControllers/SCPregameRoomViewController.swift:308 | the peer is mapped to the uuid; every other mapping and the players are kept |
| `Rooms.Room.RemoveConnectedPeer` | Spycodes/ViewControllers/SCPregameRoomViewController.swift:349 | only the peer's mapping goes |
| `Rooms.Room.GetUuidWithPeer` | Spycodes/ViewControllers/SCPregameRoomViewController.swift:338 | a uuid if and only if the peer is mapped, and it is the mapped one |
| `Rooms.DecodeRoom` | Spycodes/Objects/Room.swift:40-54 | a complete archive with an access code keeps that code; without one the freshly generated code is used; the uuid is the archived one or the fresh one |
| `RoomView.ClueGiverUuid` | Spycodes/Objects/Room.swift:209-217 | a uuid if and only if the team has exactly one clue-giver, and it is that clue-giver's |
| `RoomView.CanStartGameIff` | Spycodes/Objects/Room.swift:170-207 | a game can start exactly when each team has at least two players (regular game) or the room holds three or four (minigame), and red and blue each have exactly one clue-giver |
| `RoomView.SortByKeyProperties` | Spycodes/Objects/Room.swift:82-90 | the sort is ordered by team and clue-givers first, is a permutation, and keeps the size of every filter |
| `RoomView.RedBeforeBlue` | Spycodes/Objects/Room.swift:82-90 | in the sorted order no red player comes after a blue one |
| `RoomView.FirstOfTeamIsClueGiver` | Spycodes/Objects/Room.swift:82-90 | in the sorted order, a team with a clue-giver has one as its first player |
| `RoomView.AssignIfMissingProperties` | Spycodes/Objects/Room.swift:92-98 | one assignment step keeps the order and the team sizes, touches no other team, and gives the team one clue-giver when it had none |
| `RoomView.RefreshSortsAndKeepsTeams` | Spycodes/Objects/Room.swift:81-99 | after `refresh` the list is sorted and every team keeps its size |
| `RoomView.RefreshClueGivers` | Spycodes/Objects/Room.swift:81-99 | after `refresh` a non-empty red or blue team without a clue-giver has exactly one; otherwise the count is unchanged |
| `RoomView.RefreshClueGiverIsFirst` | Spycodes/Objects/Room.swift:81-99 | a team left with a single clue-giver has it as its first player |
| `RoomView.RemoveUuidProperties` | Spycodes/Objects/Room.swift:162-164 | no entry with the uuid remains, every other entry remains, and the kept and removed counts add up to the old size |
| `RoomView.ResetView` | Spycodes/Objects/Room.swift:219-224 | every entry becomes red and not a clue-giver; the other fields stay |
| `RoomView.ResetViewTeams` | Spycodes/Objects/Room.swift:219-224 | after a reset everyone is red and no team has a clue-giver |
| `RoomView.RefreshView` | Spycodes/Objects/Room.swift:81-99 | `refresh` keeps the number of players |
| `Cards.RemainingAtMostTeamCards` | Spycodes/Objects/CardCollection.swift:44-46 | a team never has more cards remaining than it has cards |
| `Cards.RemainingZeroIff` | Spycodes/Objects/CardCollection.swift:44-46 | no card remains for a team exactly when every card of that team is selected |
| `Cards.RemainingAfterSelect` | Spycodes/Objects/CardCollection.swift:44-46 | selecting an unselected card lowers its own team's count by one and no other team's |
| `Cards.ChosenIsRemaining` | Spycodes/Objects/CardCollection.swift:50-53 | the eliminated card is an unselected opponent card on the board |
| `Cards.EliminateNothingLeft` | Spycodes/Objects/CardCollection.swift:52 | when the opponent has no card left the move changes nothing |
| `Cards.EliminateSelectsOne` | Spycodes/Objects/CardCollection.swift:49-61 | the move selects exactly one unselected opponent card, lowers only the opponent's count by one, and leaves other teams' cards alone |
| `Cards.EncodeCards` | Spycodes/Objects/CardCollection.swift:40-42 | only the cards are archived |
| `Cards.DecodeEncodeCards` | Spycodes/Objects/CardCollection.swift:27-38 | decoding gives back the cards, with the key and starting team of a fresh collection |
| `Cards.DecodeWithoutCards` | Spycodes/Objects/CardCollection.swift:35-37 | without the cards key the result is a fresh collection |
| `Cards.CardCollection.Init` | Spycodes/Objects/CardCollection.swift:13-25 | eighteen unselected cards, card i with word i and key entry i; a minigame always starts with red |
| `Cards.CardCollection.AutoEliminateOpponentTeamCard` | Spycodes/Objects/CardCollection.swift:49-61 | the board after the scan is the specified elimination, and the key and starting team are kept |
| `Cards.CardsRemaining` | Spycodes/Objects/CardCollection.swift:44-46 | a team never has more cards remaining than the board has cards |
| `Cards.EliminateSpec` | Spycodes/Objects/CardCollection.swift:49-61 | the opponent move keeps the board's size, every word and team, and every selected card selected |
| `Cards.DecodeCards` | Spycodes/Objects/CardCollection.swift:27-38 | decoding never takes the key or the starting team from the archive; both are the fresh collection's |
| `ArrayShuffle.Swap` | Spycodes/Extensions/SCArray.swift:13 | the two positions trade elements; every other position is kept |
| `ArrayShuffle.SwapPermutes` | Spycodes/Extensions/SCArray.swift:13 | a swap keeps the multiset of elements |
| `ArrayShuffle.FisherYatesPermutes` | Spycodes/Extensions/SCArray.swift:9-17 | the shuffle is a permutation |
| `ArrayShuffle.FisherYatesKeepsPrefix` | Spycodes/Extensions/SCArray.swift:10-14 | steps from position i on never touch the positions before i |
| `ArrayShuffle.ShortArraysUnchanged` | Spycodes/Extensions/SCArray.swift:10 | arrays of zero or one element come back unchanged |
| `ArrayShuffle.Shuffle` | Spycodes/Extensions/SCArray.swift:9-17 | the array afterwards is the Fisher-Yates result of the draws, a permutation of the old contents |
| `ArrayShuffle.Shuffled` | Spycodes/Extensions/SCArray.swift:4-7 | a shuffled copy of the same length and elements; the receiver is left as it was |
| `ArrayShuffle.Choose` | Spycodes/Extensions/SCArray.swift:19-21 | n elements, or all when there are fewer, drawn without repetition from the input |
| `ArrayShuffle.FisherYates` | Spycodes/Extensions/SCArray.swift:9-17 | the shuffle keeps the length |
| `Lobbies.RemovedEarlyCrashes` | Codenames/Objects/Lobby.swift:38-42 | once the list is shorter than the loop's fixed bound, the loop goes out of range |
| `Lobbies.RemoveLoopOutcome` | Codenames/Objects/Lobby.swift:38-42 | the loop from i fails exactly when a matching room sits from i on but not last; otherwise it drops only a matching last room |
| `Lobbies.RemoveAsWrittenOutcome` | Codenames/Objects/Lobby.swift:37-43 | the removal as written fails exactly when a matching room is not last; when it succeeds it equals the filter |
| `Lobbies.OnlyLastMatches` | Codenames/Objects/Lobby.swift:37-43 | with only the last room possibly matching, the filter drops that room alone |
| `Lobbies.RemoveAsWrittenCounterexample` | Codenames/Objects/Lobby.swift:37-43 | removing "a" from rooms "a", "b" goes out of range |
| `Lobbies.Lobby.constructor` | Codenames/Objects/Lobby.swift:5 | a new lobby has no rooms |
| `Lobbies.Lobby.AddRoomWithName` | Codenames/Objects/Lobby.swift:7-11 | a room with the name is appended; the earlier rooms are kept |
| `Lobbies.Lobby.GetRoomWithName` | Codenames/Objects/Lobby.swift:17-25 | the first room with the name when there is one; no answer exactly when none has it |
| `Lobbies.Lobby.HasRoomWithName` | Codenames/Objects/Lobby.swift:27-35 | true if and only if some room has the name |
| `Lobbies.Lobby.RemoveRoomWithName` | Codenames/Objects/Lobby.swift:37-43 | as intended: every room with the name goes and the others keep their order |
| `Lobbies.HasIffGet` | Codenames/Objects/Lobby.swift:17-35 | `hasRoomWithName` is true exactly when `getRoomWithName` finds a room |
| `Lobbies.AsWrittenAgreesWhenItSucceeds` | Codenames/Objects/Lobby.swift:37-43 | wherever the loop as written does not fail, it agrees with the corrected removal |
| `Lobbies.RemovalLeavesNoMatch` | Codenames/Objects/Lobby.swift:37-43 | after the corrected removal a room remains exactly when it was there and has another name |
| `Lobbies.RemoveLoopAsWritten` | Codenames/Objects/Lobby.swift:38-42 | a run of the loop that does not fail leaves only rooms that were there |
| `Lobbies.RemoveAsWritten` | Codenames/Objects/Lobby.swift:37-43 | a removal as written that does not fail leaves only rooms that were there |
| `Lobbies.RemovalCount` | Codenames/Objects/Lobby.swift:37-47 | the rooms kept and the rooms with the name add up to `getNumberOfRooms`; the count drops exactly when some room has the name |
| `Lobbies.CountAfterRemoval` | Codenames/Objects/Lobby.swift:37-47 | on a lobby, `getNumberOfRooms` after the corrected removal is the count before less the rooms with the name, and it is lower exactly when one had it |
| `PageFlow.GetFlowCount` | Spycodes/Managers/SCPageViewFlowManager.swift:8-14 | zero without a flow, otherwise the number of entries |
| `PageFlow.GetInitialEntry` | Spycodes/Managers/SCPageViewFlowManager.swift:16-26 | the entry at index 0, present exactly when a flow exists and holds index 0 |
| `PageFlow.GetPreviousEntry` | Spycodes/Managers/SCPageViewFlowManager.swift:28-45 | the entry at index - 1, present exactly when that index is not negative and is in the flow |
| `PageFlow.GetNextEntry` | Spycodes/Managers/SCPageViewFlowManager.swift:47-64 | the entry at index + 1, present exactly when that index is below the count and in the flow |
| `PageFlow.NoFlowAnswersNothing` | Spycodes/Managers/SCPageViewFlowManager.swift:8-64 | without a flow the count is zero and every accessor answers nothing |
| `PageFlow.PreviousOfSecondIsInitial` | Spycodes/Managers/SCPageViewFlowManager.swift:16-45 | going back from page 1 reaches the initial entry |
| `PageFlow.NextThenPrevious` | Spycodes/Managers/SCPageViewFlowManager.swift:28-64 | on a flow indexed 0 to count - 1, the page after i is entry i + 1, and going back from it gives entry i |
| `PageFlow.LastHasNoNext` | Spycodes/Managers/SCPageViewFlowManager.swift:55-57 | the last page has no next page, whatever the table holds |
| `Multipeer.StartWhenOnIsNoOp` | Spycodes/Managers/SCMultipeerManager.swift:36-69 | starting an advertiser or browser that is already on changes nothing |
| `Multipeer.StartSetsFlag` | Spycodes/Managers/SCMultipeerManager.swift:36-69 | after a start the flag is on; without a peer id nothing new is made, and an old handle, if any, is started again; with one, a new handle is made and started |
| `Multipeer.StopGuards` | Spycodes/Managers/SCMultipeerManager.swift:47-82 | a stop does nothing without a handle or with the flag off; otherwise it turns the flag off and keeps the handle |
| `Multipeer.TerminateProperties` | Spycodes/Managers/SCMultipeerManager.swift:101-105 | terminate turns off every flag that has a handle, keeps the others and the session, and a second terminate changes no flag or handle |
| `Multipeer.StartSessionNeedsPeerId` | Spycodes/Managers/SCMultipeerManager.swift:84-91 | without a peer id nothing happens; with one, a session for that id is made |
| `Multipeer.BroadcastGuards` | Spycodes/Managers/SCMultipeerManager.swift:120-134 | nothing is sent without a session or connected peer; otherwise one send to all connected peers; flags and handles never change |
| `Multipeer.InviteGuard` | Spycodes/Managers/SCMultipeerManager.swift:107-118 | without a browser nothing happens; with one, the peer is invited to the session |
| `Multipeer.DisconnectCallbackIff` | Spycodes/Managers/SCMultipeerManager.swift:221-227 | the delegate hears of a peer exactly when its state becomes not-connected; other states change nothing |
| `Multipeer.MultipeerManager.constructor` | Spycodes/Managers/SCMultipeerManager.swift:17-23 | no peer id, handles or effects, and both flags off |
| `Multipeer.MultipeerManager.SetPeerId` | Spycodes/Managers/SCMultipeerManager.swift:28-30 | only the peer id changes |
| `Multipeer.MultipeerManager.InitAdvertiserStep` | Spycodes/Managers/SCMultipeerManager.swift:137-148 | the state becomes the advertiser initialisation step |
| `Multipeer.MultipeerManager.InitBrowserStep` | Spycodes/Managers/SCMultipeerManager.swift:150-160 | the state becomes the browser initialisation step |
| `Multipeer.MultipeerManager.StartAdvertiserStep` | Spycodes/Managers/SCMultipeerManager.swift:36-45 | the state becomes the advertiser start step |
| `Multipeer.MultipeerManager.StopAdvertiserStep` | Spycodes/Managers/SCMultipeerManager.swift:47-58 | the state becomes the advertiser stop step |
| `Multipeer.MultipeerManager.StartBrowserStep` | Spycodes/Managers/SCMultipeerManager.swift:60-69 | the state becomes the browser start step |
| `Multipeer.MultipeerManager.StopBrowserStep` | Spycodes/Managers/SCMultipeerManager.swift:71-82 | the state becomes the browser stop step |
| `Multipeer.MultipeerManager.StartSessionStep` | Spycodes/Managers/SCMultipeerManager.swift:84-91 | the state becomes the session start step |
| `Multipeer.MultipeerManager.StopSessionStep` | Spycodes/Managers/SCMultipeerManager.swift:93-99 | the state becomes the session stop step |
| `Multipeer.MultipeerManager.TerminateStep` | Spycodes/Managers/SCMultipeerManager.swift:101-105 | the state becomes the advertiser stop, then the browser stop, then the session stop |
| `Multipeer.MultipeerManager.InvitePeerToSession` | Spycodes/Managers/SCMultipeerManager.swift:107-118 | the state becomes the invitation step |
| `Multipeer.MultipeerManager.BroadcastData` | Spycodes/Managers/SCMultipeerManager.swift:120-134 | the state becomes the broadcast step |
| `Multipeer.MultipeerManager.DidReceiveInvitation` | Spycodes/Managers/SCMultipeerManager.swift:171-180 | an invitation is accepted exactly when there is a session, and with that session |
| `Multipeer.MultipeerManager.DidChangeState` | Spycodes/Managers/SCMultipeerManager.swift:221-227 | the state becomes the session-state callback step |
| `Multipeer.InitAdvertiser` | Spycodes/Managers/SCMultipeerManager.swift:137-148 | only the advertiser handle may change, and there is one afterwards exactly when there is a peer id or there was one before |
| `Multipeer.InitBrowser` | Spycodes/Managers/SCMultipeerManager.swift:150-160 | only the browser handle may change, and there is one afterwards exactly when there is a peer id or there was one before |
| `Multipeer.StartAdvertiser` | Spycodes/Managers/SCMultipeerManager.swift:36-45 | the advertising flag is on, the effect log only grows, and the peer id, session and browser side are untouched |
| `Multipeer.StopAdvertiser` | Spycodes/Managers/SCMultipeerManager.swift:47-58 | the advertiser handle is kept, the effect log only grows, and the peer id, session and browser side are untouched |
| `Multipeer.StartBrowser` | Spycodes/Managers/SCMultipeerManager.swift:60-69 | the browsing flag is on, the effect log only grows, and the peer id, session and advertiser side are untouched |
| `Multipeer.StopBrowser` | Spycodes/Managers/SCMultipeerManager.swift:71-82 | the browser handle is kept, the effect log only grows, and the peer id, session and advertiser side are untouched |
| `Multipeer.StartSession` | Spycodes/Managers/SCMultipeerManager.swift:84-91 | only the session may change, and there is one afterwards exactly when there is a peer id or there was one before |
| `Multipeer.StopSession` | Spycodes/Managers/SCMultipeerManager.swift:93-99 | stopping the session only adds to the effect log; the session handle is kept |
| `Multipeer.Terminate` | Spycodes/Managers/SCMultipeerManager.swift:101-105 | terminating keeps the peer id and every handle, and the effect log only grows |
| `Multipeer.InvitePeer` | Spycodes/Managers/SCMultipeerManager.swift:107-118 | an invitation adds at most one effect and changes nothing else |
| `Multipeer.Broadcast` | Spycodes/Managers/SCMultipeerManager.swift:120-134 | a broadcast adds at most one effect and changes nothing else |
| `Multipeer.SessionStateChanged` | Spycodes/Managers/SCMultipeerManager.swift:221-227 | a state change only adds to the effect log |
| `GameRoom.EndRoundProperties` | Spycodes/ViewControllers/SCGameRoomViewController.swift:449-476 | a timer expiry in a minigame on a non-host changes nothing; otherwise the turn passes to the opponent with no clue, the round and then an end-round event are broadcast, and board, statistics and outcome stay |
| `GameRoom.WinCheck` | Spycodes/ViewControllers/SCGameRoomViewController.swift:781-813 | the win checks touch neither the board, the messages nor the timer, nor the turn and clue |
| `GameRoom.TapGuards` | Spycodes/ViewControllers/SCGameRoomViewController.swift:759-772 | a tap by the leader, out of turn, before the clue is set, or on a selected card changes nothing |
| `GameRoom.TapSelectsOnlyTapped` | Spycodes/ViewControllers/SCGameRoomViewController.swift:774-775 | an allowed tap selects the tapped card and no other, and lowers only that card's team's count by one |
| `GameRoom.TapEndsRoundFirst` | Spycodes/ViewControllers/SCGameRoomViewController.swift:774-779 | a neutral or opponent card broadcasts the board, then the ended round and the end-round event, and the turn has passed |
| `GameRoom.TapOpponentWins` | Spycodes/ViewControllers/SCGameRoomViewController.swift:781-789 | the assassin, or an opponent left with no card, makes the opponent the winner, records its win and ends the game with the losing message |
| `GameRoom.TapOwnTeamWins` | Spycodes/ViewControllers/SCGameRoomViewController.swift:790-812 | otherwise a team left with no card wins; a regular game records the win, a minigame stores blue's remaining count as best record |
| `GameRoom.TapContinues` | Spycodes/ViewControllers/SCGameRoomViewController.swift:774-813 | an own-team card leaving both teams with cards only selects the card and broadcasts the board |
| `GameRoom.TapLastOwnCardWins` | Spycodes/ViewControllers/SCGameRoomViewController.swift:790-791 | the team's last card, while the opponent still has cards, wins the game and keeps the turn |
| `GameRoom.TapAfterRoundEndIsIgnored` | Spycodes/ViewControllers/SCGameRoomViewController.swift:759-763 | after a tap has ended the round, the same player's next tap changes nothing |
| `GameRoom.ConfirmEnabledIff` | Spycodes/ViewControllers/SCGameRoomViewController.swift:391-434 | for the leader on its turn, Confirm is enabled exactly when both texts are non-empty and differ from their placeholders; only the button changes |
| `GameRoom.ConfirmOpensGuessing` | Spycodes/ViewControllers/SCGameRoomViewController.swift:436-447 | after confirming, the round holds the clue and number, End Round is enabled, and a teammate may select any unselected card |
| `GameRoom.PlaceholdersCannotBeConfirmed` | Spycodes/ViewControllers/SCGameRoomViewController.swift:293-342 | a leader awaiting a clue gets the Confirm button, disabled while the placeholders are shown |
| `GameRoom.TickProperties` | Spycodes/ViewControllers/SCGameRoomViewController.swift:344-370 | a disabled timer is left alone; off turn it is stopped; on turn it ends started, and the countdown begins unless it already had |
| `GameRoom.TickIdempotent` | Spycodes/ViewControllers/SCGameRoomViewController.swift:344-370 | a second tick in the same situation changes nothing and starts no countdown |
| `GameRoom.GameRoomScreen.constructor` | Spycodes/ViewControllers/SCGameRoomViewController.swift:13 | the screen opens with the End Round button and nothing sent |
| `GameRoom.GameRoomScreen.DidEndRound` | Spycodes/ViewControllers/SCGameRoomViewController.swift:449-476 | the screen state becomes the end-round step |
| `GameRoom.GameRoomScreen.DidEndGame` | Spycodes/ViewControllers/SCGameRoomViewController.swift:498-500 | the round is marked over and the outcome recorded |
| `GameRoom.GameRoomScreen.DidSelectItem` | Spycodes/ViewControllers/SCGameRoomViewController.swift:757-814 | the screen state becomes the tap step |
| `GameRoom.GameRoomScreen.CheckWin` | Spycodes/ViewControllers/SCGameRoomViewController.swift:781-813 | the screen state becomes the win check on the current board |
| `GameRoom.GameRoomScreen.UpdateActionButton` | Spycodes/ViewControllers/SCGameRoomViewController.swift:391-434 | the screen state becomes the action-button step |
| `GameRoom.GameRoomScreen.DidConfirm` | Spycodes/ViewControllers/SCGameRoomViewController.swift:436-447 | the screen state becomes the confirm step |
| `GameRoom.GameRoomScreen.UpdateDashboard` | Spycodes/ViewControllers/SCGameRoomViewController.swift:293-342 | the screen state becomes the dashboard step |
| `GameRoom.GameRoomScreen.UpdateTimer` | Spycodes/ViewControllers/SCGameRoomViewController.swift:344-370 | the timer and the countdown answer are the tick step; nothing else changes |
| `GameRoom.GameRoomScreen.RefreshView` | Spycodes/ViewControllers/SCGameRoomViewController.swift:233-240 | one refresh is the dashboard step, then the timer tick, then the action-button step |
| `GameRoom.EndRoundStep` | Spycodes/ViewControllers/SCGameRoomViewController.swift:449-476 | ending a round leaves the board, statistics, timer, outcome, button and clue fields as they were |
| `GameRoom.EndGameStep` | Spycodes/ViewControllers/SCGameRoomViewController.swift:498-500 | the game is marked over with the given outcome; board, messages, statistics, timer, turn and winner are kept |
| `GameRoom.SelectCard` | Spycodes/ViewControllers/SCGameRoomViewController.swift:774 | the tapped card becomes selected with its word and team; every other card is kept |
| `GameRoom.TapSpec` | Spycodes/ViewControllers/SCGameRoomViewController.swift:757-814 | a tap leaves the board as it was or selects exactly the tapped card, and never touches the timer |
| `GameRoom.ActionButtonStep` | Spycodes/ViewControllers/SCGameRoomViewController.swift:391-434 | updating the action button changes only whether it is enabled |
| `GameRoom.ConfirmStep` | Spycodes/ViewControllers/SCGameRoomViewController.swift:436-447 | after a confirm both clue fields are set, and the turn, board, statistics and timer are kept |
| `GameRoom.DashboardStep` | Spycodes/ViewControllers/SCGameRoomViewController.swift:293-342 | the dashboard update keeps the round, board, messages, statistics, timer and button state, and the button is left as it was or becomes the confirm button |
| `GameRoom.TickTimer` | Spycodes/ViewControllers/SCGameRoomViewController.swift:344-370 | the enabled setting is kept; an enabled timer never ends waiting to start; the countdown begins only when a timer not already started is started |
| `Membership.LookupUuid` | Spycodes/Objects/Room.swift:140-148 | a position if and only if exactly one entry has the uuid, and it is that entry's |
| `Membership.LookupOwnUuid` | Spycodes/Objects/Room.swift:140-148 | with distinct uuids, looking up an entry's uuid finds that entry |
| `Membership.SeparateObjects` | Spycodes/ViewControllers/SCPregameRoomViewController.swift:315-317 | when the local player is not in the list, changes to the list and to the local player stay apart |
| `Membership.SharedObject` | Spycodes/ViewControllers/SCPregameRoomViewController.swift:315-317 | when the local player is list entry k, a change through either path is a change of both |
| `Membership.PositionOfEntry` | Spycodes/ViewControllers/SCPregameRoomViewController.swift:315-317 | with no object repeated, entry k's object is found at k |
| `Membership.SetClueGiverOf` | Spycodes/ViewControllers/SCPregameRoomViewController.swift:441 | setting the clue-giver flag on entry k changes entry k, and the local player too when it is that object |
| `Membership.SetTeamOf` | Spycodes/ViewControllers/SCPregameRoomViewController.swift:359 | setting the team on entry k changes entry k, and the local player too when it is that object |
| `Membership.SetClueGiverByUuid` | Spycodes/ViewControllers/SCPregameRoomViewController.swift:361 | uuids and teams of all entries are kept, and the local player stays in step with its entry |
| `Membership.SetTeamByUuid` | Spycodes/ViewControllers/SCPregameRoomViewController.swift:359 | uuids of all entries are kept, and the local player stays in step with its entry |
| `Membership.SetClueGiverWithUuid` | Spycodes/ViewControllers/SCPregameRoomViewController.swift:361 | the objects change as the value-level lookup and set describe |
| `Membership.SetTeamWithUuid` | Spycodes/ViewControllers/SCPregameRoomViewController.swift:359 | the objects change as the value-level lookup and set describe |
| `Membership.SetLocalClueGiver` | Spycodes/ViewControllers/SCPregameRoomViewController.swift:437 | the local player's flag changes, and its list entry too when it is that object |
| `Membership.ReceivePlayerInto` | Spycodes/ViewControllers/SCPregameRoomViewController.swift:307-311 | the peer maps to the received uuid; on the host a new object with the received values is appended; no object repeats |
| `Membership.AdoptedLocal` | Spycodes/ViewControllers/SCPregameRoomViewController.swift:315-317 | the local player keeps its uuid and becomes the room's entry with it when exactly one exists; otherwise it is kept |
| `Membership.AdoptLocal` | Spycodes/ViewControllers/SCPregameRoomViewController.swift:315-317 | the new local object carries the adopted values, and sits in the room exactly at the uuid's unique entry |
| `Membership.DisconnectPeer` | Spycodes/ViewControllers/SCPregameRoomViewController.swift:337-351 | the room becomes the disconnection step, no object repeats, and the answer says whether the host left |
| `Membership.RemoveDeparted` | Spycodes/ViewControllers/SCPregameRoomViewController.swift:348-349 | the departed uuid's entries and the peer's mapping go; nothing else changes |
| `Membership.DisconnectProperties` | Spycodes/ViewControllers/SCPregameRoomViewController.swift:337-351 | an unmapped peer changes nothing; the host's peer empties the list; any other peer loses its mapping and its uuid's entries while all other entries remain |
| `Membership.AddReceived` | Spycodes/ViewControllers/SCPregameRoomViewController.swift:307-311 | a received player keeps the room's name, uuid and code, maps the peer to its uuid, and adds one entry at the end on the host and none elsewhere |
| `Membership.Disconnect` | Spycodes/ViewControllers/SCPregameRoomViewController.swift:337-351 | a disconnection keeps the room's name, uuid and code, never adds a player, and reports an unknown peer exactly when the peer had no mapping |
| `PregameRoom.StartGameIff` | Spycodes/ViewControllers/SCPregameRoomViewController.swift:45-54 | the game starts exactly when team sizes and clue-givers allow (the three tests of `canStartGame`); then the fresh cards and a new round of their starting team, awaiting a clue, are in place and broadcast in that order; otherwise nothing changes |
| `PregameRoom.FoundPeerInvitesIff` | Spycodes/ViewControllers/SCPregameRoomViewController.swift:294-299 | a found peer is invited exactly when its discovery info carries the room's access code; nothing else changes |
| `PregameRoom.CheckRoomCap` | Spycodes/ViewControllers/SCPregameRoomViewController.swift:229-254 | the cap is 8 in a regular game and 9 in a minigame; the start button follows the start test; at or above the cap the host neither advertises nor browses through an existing handle, below it both are on; a non-host touches no transport |
| `PregameRoom.ReceivedPlayerAlwaysMapped` | Spycodes/ViewControllers/SCPregameRoomViewController.swift:307-311 | a received player's peer always maps to its uuid and other mappings stay; only the host appends it, even when its uuid is already listed |
| `PregameRoom.ReceivedRoomAdopted` | Spycodes/ViewControllers/SCPregameRoomViewController.swift:312-317 | a received room replaces the local one; the local player becomes its unique entry with the local uuid, or is kept |
| `PregameRoom.ReceivedRoundNavigatesIff` | Spycodes/ViewControllers/SCPregameRoomViewController.swift:322-327 | a received round is adopted, and leads to the game exactly when it is neither aborted nor over |
| `PregameRoom.DisconnectStepProperties` | Spycodes/ViewControllers/SCPregameRoomViewController.swift:337-351 | an unknown peer changes nothing; the host's departure empties the room and returns to the main menu; any other departure removes that player and its mapping only |
| `PregameRoom.TeamChangeClearsClueGiver` | Spycodes/ViewControllers/SCPregameRoomViewController.swift:356-363 | with distinct uuids the row moves to the new team without the clue-giver flag, and the local player changes with it exactly when it is that row |
| `PregameRoom.TeamChangeOnSharedUuid` | Spycodes/ViewControllers/SCPregameRoomViewController.swift:356-363 | when another entry shares the row's uuid, both lookups fail and nothing changes |
| `PregameRoom.ClearTeamClueGiver` | Spycodes/ViewControllers/SCPregameRoomViewController.swift:433-439 | uuids and teams are kept, and the local player stays in step with its entry |
| `PregameRoom.Nominate` | Spycodes/ViewControllers/SCPregameRoomViewController.swift:424-448 | the list keeps its length |
| `PregameRoom.ClearTeamClueGiverFacts` | Spycodes/ViewControllers/SCPregameRoomViewController.swift:433-439 | a team with at most one clue-giver is left without one, and only that clue-giver's entry changes |
| `PregameRoom.NominationOneClueGiver` | Spycodes/ViewControllers/SCPregameRoomViewController.swift:424-448 | a row outside the local player's team changes nothing; otherwise the tapped row becomes the team's one and only clue-giver, only the row and the old clue-giver change, and the local player stays in step |
| `PregameRoom.ClearTeamClueGiverOf` | Spycodes/ViewControllers/SCPregameRoomViewController.swift:433-439 | the objects change as the value-level clearing describes |
| `PregameRoom.NominateRow` | Spycodes/ViewControllers/SCPregameRoomViewController.swift:424-445 | the objects change as the value-level nomination describes |
| `PregameRoom.Discovery` | Spycodes/ViewControllers/SCPregameRoomViewController.swift:247-253 | at the cap the advertiser and then the browser stop; below it both start, the advertiser without discovery info |
| `PregameRoom.PregameScreen.constructor` | Spycodes/ViewControllers/SCPregameRoomViewController.swift:1-40 | the screen opens with nothing sent and no navigation |
| `PregameRoom.PregameScreen.OnStartGame` | Spycodes/ViewControllers/SCPregameRoomViewController.swift:45-54 | the screen state becomes the start-game step |
| `PregameRoom.PregameScreen.FoundPeer` | Spycodes/ViewControllers/SCPregameRoomViewController.swift:294-299 | the screen state becomes the found-peer step |
| `PregameRoom.PregameScreen.CheckRoom` | Spycodes/ViewControllers/SCPregameRoomViewController.swift:229-254 | the screen state becomes the room-check step |
| `PregameRoom.PregameScreen.RefreshView` | Spycodes/ViewControllers/SCPregameRoomViewController.swift:159-166 | the room check, then the room's refresh; a local player in the list stays in it, one outside it is unchanged |
| `PregameRoom.PregameScreen.ReceivePlayer` | Spycodes/ViewControllers/SCPregameRoomViewController.swift:307-311 | the screen state becomes the received-player step |
| `PregameRoom.PregameScreen.ReceiveRoom` | Spycodes/ViewControllers/SCPregameRoomViewController.swift:312-317 | the screen state becomes the received-room step, and the local object is the room's entry with its uuid when there is exactly one |
| `PregameRoom.PregameScreen.DidReceiveData` | Spycodes/ViewControllers/SCPregameRoomViewController.swift:303-335 | the screen state becomes the receive step for each kind of object; unrecognised data changes nothing |
| `PregameRoom.PregameScreen.PeerDisconnectedFromSession` | Spycodes/ViewControllers/SCPregameRoomViewController.swift:337-351 | the screen state becomes the disconnection step |
| `PregameRoom.PregameScreen.TeamUpdatedAtIndex` | Spycodes/ViewControllers/SCPregameRoomViewController.swift:356-363 | the members change as the team update describes, then room, mode and timer are broadcast |
| `PregameRoom.PregameScreen.DidSelectRowAt` | Spycodes/ViewControllers/SCPregameRoomViewController.swift:424-448 | the members change as the nomination describes; a row outside the local player's team sends nothing, otherwise room, mode and timer are broadcast |
| `PregameRoom.StartGameStep` | Spycodes/ViewControllers/SCPregameRoomViewController.swift:45-54 | starting a game keeps the room, the local player, the manager, the mode, the statistics and the timer |
| `PregameRoom.FoundPeerStep` | Spycodes/ViewControllers/SCPregameRoomViewController.swift:294-299 | a found peer changes only the manager, and leaves its flags and handles as they were |
| `PregameRoom.ReceiveStep` | Spycodes/ViewControllers/SCPregameRoomViewController.swift:303-335 | received data sends nothing, leaves the manager and the start button alone, keeps the local uuid, and only adds navigation |
| `PregameRoom.DisconnectStep` | Spycodes/ViewControllers/SCPregameRoomViewController.swift:337-351 | a departed peer leaves the local player, the manager and the message log alone, and keeps the room's name, uuid and code |
| `PregameRoom.TeamUpdated` | Spycodes/ViewControllers/SCPregameRoomViewController.swift:356-361 | a team update keeps the number of players, every uuid and the local player's position, and keeps the local player in step with its entry |
| `EarlierPregameRoom.FoundPeerInvitesIff` | Spycodes/ViewControllers/PregameRoomViewController.swift:191-196 | a found peer is invited exactly when its discovery info carries the room's uuid under the joinRoomWithUUID key; nothing else changes |
| `EarlierPregameRoom.ReceivedRoomChecks` | Spycodes/ViewControllers/PregameRoomViewController.swift:207-221 | a received room is adopted; an empty one returns to the lobby as host disconnected, one without a single entry for the local uuid as removed from room; otherwise the screen stays with the local player as that entry |
| `EarlierPregameRoom.DuplicateLocalUuidIsRemoval` | Spycodes/ViewControllers/PregameRoomViewController.swift:210-220 | two entries with the local uuid count as the local player's removal, and the local player is kept |
| `EarlierPregameRoom.ReceivedRoundAndPeers` | Spycodes/ViewControllers/PregameRoomViewController.swift:222-231 | any received round is adopted and starts the game; a received peer table replaces the room's and nothing else |
| `EarlierPregameRoom.DisconnectStepProperties` | Spycodes/ViewControllers/PregameRoomViewController.swift:236-250 | an unknown peer changes nothing; the host's departure empties the list and returns to the lobby; any other departure removes that player and its mapping only |
| `EarlierPregameRoom.TeamDidChangeSetsTeam` | Spycodes/ViewControllers/PregameRoomViewController.swift:253-264 | with distinct uuids the row ends red exactly when the switch is on and blue otherwise, without the clue-giver flag, and every other row is unchanged |
| `EarlierPregameRoom.ClearClueGiverOfTeam` | Spycodes/ViewControllers/PregameRoomViewController.swift:174-176 | the list keeps its length and the local player stays in step with its entry |
| `EarlierPregameRoom.Toggle` | Spycodes/ViewControllers/PregameRoomViewController.swift:166-178 | the list keeps its length and position of the local player |
| `EarlierPregameRoom.ClearClueGiverOfTeamFacts` | Spycodes/ViewControllers/PregameRoomViewController.swift:174-176 | a team with at most one clue-giver is left without one, and only that clue-giver's entry changes |
| `EarlierPregameRoom.ToggleGuard` | Spycodes/ViewControllers/PregameRoomViewController.swift:170-172 | a non-host tapping another player's row changes nothing |
| `EarlierPregameRoom.ToggleEndsSoleClueGiver` | Spycodes/ViewControllers/PregameRoomViewController.swift:166-178 | because the tapped entry is the same object that was cleared, a team with at most one clue-giver ends with the tapped row as its only one, even if it already was |
| `EarlierPregameRoom.AliasingDiffersFromCopy` | Spycodes/ViewControllers/PregameRoomViewController.swift:166-178 | if the tapped player were a copy, tapping the sole clue-giver would leave the team without one; the code as written keeps it |
| `EarlierPregameRoom.ToggleWithSeveralClueGivers` | Spycodes/ViewControllers/PregameRoomViewController.swift:174-178 | with two or more clue-givers nothing is cleared and the tap flips the row's flag alone |
| `EarlierPregameRoom.ToggleRow` | Spycodes/ViewControllers/PregameRoomViewController.swift:166-178 | the objects change as the toggle describes, and the answer says whether the guard let the tap through |
| `EarlierPregameRoom.EarlierPregameScreen.constructor` | Spycodes/ViewControllers/PregameRoomViewController.swift:1-30 | the screen opens with no requests, navigation or messages |
| `EarlierPregameRoom.EarlierPregameScreen.FoundPeer` | Spycodes/ViewControllers/PregameRoomViewController.swift:191-196 | the screen state becomes the found-peer step |
| `EarlierPregameRoom.EarlierPregameScreen.ReceiveRoom` | Spycodes/ViewControllers/PregameRoomViewController.swift:207-221 | the screen state becomes the received-room step, and the local object is the room's entry with its uuid when there is exactly one |
| `EarlierPregameRoom.EarlierPregameScreen.DidReceiveData` | Spycodes/ViewControllers/PregameRoomViewController.swift:200-232 | the screen state becomes the receive step for each kind of object |
| `EarlierPregameRoom.EarlierPregameScreen.PeerDisconnectedFromSession` | Spycodes/ViewControllers/PregameRoomViewController.swift:236-250 | the screen state becomes the disconnection step |
| `EarlierPregameRoom.EarlierPregameScreen.TeamDidChangeAtIndex` | Spycodes/ViewControllers/PregameRoomViewController.swift:253-264 | the members change as the team change describes, then the room is broadcast |
| `EarlierPregameRoom.EarlierPregameScreen.DidSelectRow` | Spycodes/ViewControllers/PregameRoomViewController.swift:166-180 | the members change as the toggle describes; a refused tap sends nothing, otherwise the room is broadcast |
| `EarlierPregameRoom.EarlierPregameScreen.PrepareForLobby` | Spycodes/ViewControllers/PregameRoomViewController.swift:124-130 | leaving for the lobby empties the room's peers and players and asks the manager to terminate |
| `EarlierPregameRoom.FoundPeerStep` | Spycodes/ViewControllers/PregameRoomViewController.swift:191-196 | a found peer changes only the manager requests, and only by adding to them |
| `EarlierPregameRoom.RoomExit` | Spycodes/ViewControllers/PregameRoomViewController.swift:215-220 | a received room asks for at most one exit, and none only when the room holds exactly one entry with the local uuid |
| `EarlierPregameRoom.ReceiveStep` | Spycodes/ViewControllers/PregameRoomViewController.swift:200-232 | received data sends nothing, makes no manager request, keeps the local uuid, and only adds navigation |
| `EarlierPregameRoom.DisconnectStep` | Spycodes/ViewControllers/PregameRoomViewController.swift:236-250 | a departed peer leaves the local player and the message log alone, and keeps the room's name, uuid and code |
| `EarlierPregameRoom.TeamDidChange` | Spycodes/ViewControllers/PregameRoomViewController.swift:253-262 | a team change keeps the number of players, every uuid and the local player's position, and keeps the local player in step with its entry |

## Left out

- Networking, archiving to bytes, timers, UIKit views, alerts, segues and animations are left out. Sends, segues and manager requests are recorded in logs instead.
- The game timer's `Timer.instance.invalidate()` in `didEndRound` and `didEndGame` (Spycodes/ViewControllers/SCGameRoomViewController.swift:454-456, 501) and the `SCAudioManager.vibrate()` call (line 451) are not modelled. The countdown start is logged; its invalidation is not.
- Random draws, fresh uuids and the freshly generated access code are inputs. `arc4random_uniform` is not modelled as a distribution.
- The lifecycle handlers (`viewDidLoad`, `viewWillAppear`, `viewWillDisappear`) are left out. They only start and stop timers and set the manager's delegate.
- `returnToMainMenu` and the earlier screen's `returnToLobby` are recorded as navigation requests. What those screens do afterwards is not modelled.
- The earlier screen's `onStartGame` is left out. It calls a `canStartGame` of an earlier `Room` revision, and that revision is not part of this model.
- The earlier screen's manager (Codenames/Managers/MultipeerManager.swift) is not part of this model. Its invitation and `terminate` calls are recorded as requests.
- The earlier screen reuses the current `Room` lookups (`getPlayerWithUUID` with its exactly-one rule). The earlier `Room` source is not part of this model.
- The current pregame screen calls five `Room` methods that no modelled source defines; they belong to a `Room` revision that is not part of this model. The model assumes for each the behaviour the earlier screen writes inline (Spycodes/ViewControllers/PregameRoomViewController.swift:202, 237, 241, 248):
  - `addConnectedPeer(peerID:uuid:)` (Spycodes/ViewControllers/SCPregameRoomViewController.swift:99, 308) stores the uuid for the peer in the peer table.
  - `getUUIDWithPeerID(peerID:)` (line 338) reads the peer table, with no answer for an unmapped peer.
  - `removeAllPlayers()` (line 342) empties the player list and keeps the peer table, name, uuid and code.
  - `removeConnectedPeer(peerID:)` (line 349) removes the peer's entry from the peer table.
  - `getCluegiverUUIDForTeam` (line 433) is taken to be `getClueGiverUUIDForTeam` of Spycodes/Objects/Room.swift:209-217, with its exactly-one rule.
  `PregameRoom.DisconnectStepProperties` and `Membership.DisconnectProperties` rest on these assumptions.
- The game screen's `didReceiveData`, `peerDisconnectedFromSession`, keyboard handling and timeline are left out. They are outside the card-tap and round logic modelled here.
- `Player`, `Card`, `Round`, `Statistics`, `Timer` and `GameMode` are not part of the modelled sources. They appear as the records and operations the core files use: `endRound` passes the turn and clears the clue; `setBestRecord` stores the count.
- Round.swift is not part of this model. A new round (`Round()` in `onStartGame`) is taken to belong to the new board's starting team, with no clue, no winner, and neither aborted nor over.
- Multipeer.InviteGuard: requires a session whenever there is a browser. The source force-unwraps the session there, so a call without one would crash.
- Multipeer.MultipeerManager.InvitePeerToSession: requires a session whenever there is a browser, for the same force unwrap.
- PregameRoom.PregameScreen.FoundPeer: requires a session whenever a matching peer meets a browser, for the same force unwrap.
- PregameRoom.FoundPeerInvitesIff: is stated for a manager with both a browser and a session, the one case where an invitation can be sent.
- ArrayShuffle.Choose: promises the length and that the result is drawn from the input. It does not restate which elements are chosen; `Shuffled` states that.
- The access-code discovery key is not shown in the modelled constants. The model uses the key `room-access-code`.
- Refresh sort: Swift's `sort(by:)` is not stable, and its comparator is not a strict weak order when a team has two clue-givers. The model uses an insertion sort by the same key, so it assumes `sort(by:)` returns a permutation sorted by key. The source guarantees that only when each team has at most one clue-giver; otherwise Swift promises only a permutation.
- Integer widths do not matter here: counts, indices and raw values stay small, so unbounded integers are used.

Behaviour of the code that the model keeps, where a reader might expect otherwise:

- The board has 18 cards: the layout loop runs over `0..<18` (Spycodes/Objects/CardCollection.swift:22), although `SCConstants.constant.cardCount` is 22 (Spycodes/Extensions/SCConstants.swift:29).
- After a tap on a neutral or opponent card the round ends first (Spycodes/ViewControllers/SCGameRoomViewController.swift:777-779), and the win checks run afterwards (line 781 on).
- When the opponent has no card left after a tap, the opponent is the winner and is credited the win (the test at Spycodes/ViewControllers/SCGameRoomViewController.swift:781-785).
- A version 1.0 room archive, without an access code, keeps the freshly generated code: its initializer calls `self.init()` first (Spycodes/Objects/Room.swift:16-19, 23-24, 49) and never sets `accessCode`.
- The earlier screen starts the game on any received round, even an aborted or finished one (Spycodes/ViewControllers/PregameRoomViewController.swift:228-231).

## Findings

| source | as written | input that shows it | evidently intended | confidence | as-written member | corrected member |
|---|---|---|---|---|---|---|
| Codenames/Objects/Lobby.swift:37-43 | the loop runs over the original count and removes at `i` while it goes on, so after a removal it reads past the end of the shortened list | rooms named "a", "b"; remove "a" | every room with the name is removed and the others keep their order | not executed | `Lobbies.RemoveAsWrittenCounterexample` | `Lobbies.Lobby.RemoveRoomWithName` |

/** The game's records whose own source is not part of this model: players, cards, rounds,
    statistics and the round timer. Each carries only the fields the modelled code uses. */
module Entities {
  import opened Common

  /** The value of a player's fields at one moment. */
  datatype PlayerData = PlayerData(
    name: string,
    uuid: string,
    team: Team,
    clueGiver: bool,
    host: bool,
    ready: bool)

  /** A player is a shared object: the room's list, the local player and lookups by uuid
      may all refer to the same instance, and a change made through one is seen by all. */
  class Player {
    var name: string
    var uuid: string
    var team: Team
    var clueGiver: bool
    var host: bool
    var ready: bool

    constructor (name: string, uuid: string, team: Team, clueGiver: bool, host: bool)
      ensures Data() == PlayerData(name, uuid, team, clueGiver, host, false)
    {
      this.name := name;
      this.uuid := uuid;
      this.team := team;
      this.clueGiver := clueGiver;
      this.host := host;
      this.ready := false;
    }

    /** A fresh object carrying the given field values (what decoding a player yields). */
    constructor FromData(d: PlayerData)
      ensures Data() == d
    {
      name := d.name;
      uuid := d.uuid;
      team := d.team;
      clueGiver := d.clueGiver;
      host := d.host;
      ready := d.ready;
    }

    function Data(): PlayerData
      reads this
    {
      PlayerData(name, uuid, team, clueGiver, host, ready)
    }
  }

  datatype Card = Card(word: string, team: Team, selected: bool)

  /** The round in progress. `clue` and `numberOfWords` are unset until the leader confirms. */
  datatype Round = Round(
    currentTeam: Team,
    clue: Option<string>,
    numberOfWords: Option<string>,
    winningTeam: Option<Team>,
    aborted: bool,
    gameEnded: bool)
  {
    predicate BothFieldsSet() {
      clue.Some? && numberOfWords.Some?
    }

    /** The round passes to the other team, whose leader has yet to give a clue. */
    function EndRound(team: Team): (r: Round)
      ensures r.currentTeam == Opponent(team) && !r.BothFieldsSet()
      ensures r.winningTeam == winningTeam && r.aborted == aborted && r.gameEnded == gameEnded
    {
      this.(currentTeam := Opponent(team), clue := None, numberOfWords := None)
    }
  }

  /** A round as the start of a game creates it: the starting team awaits a clue. */
  function NewRound(startingTeam: Team): (r: Round)
    ensures r.currentTeam == startingTeam && !r.BothFieldsSet()
    ensures r.winningTeam == None && !r.aborted && !r.gameEnded
  {
    Round(startingTeam, None, None, None, false, false)
  }

  /** Wins per team in a regular game, and the best record of the minigame. */
  datatype Statistics = Statistics(redWins: nat, blueWins: nat, bestRecord: int)
  {
    function RecordWinForTeam(t: Team): (s: Statistics)
      ensures t == Red ==> s == this.(redWins := redWins + 1)
      ensures t == Blue ==> s == this.(blueWins := blueWins + 1)
      ensures t != Red && t != Blue ==> s == this
    {
      match t
      case Red => this.(redWins := redWins + 1)
      case Blue => this.(blueWins := blueWins + 1)
      case _ => this
    }
  }

  datatype TimerState = Stopped | WillStart | Started

  datatype Timer = Timer(enabled: bool, state: TimerState)

  /** A keyed-archive entry as the decoders see it: each key holds a value of one type. */
  datatype Value =
    | Text(text: string)
    | PlayerList(players: seq<PlayerData>)
    | PeerMap(peers: map<Peer, string>)
    | CardList(cards: seq<Card>)

  type Payload = map<string, Value>
}

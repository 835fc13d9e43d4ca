/** Shared value types of the game: optional values, teams, game modes and peer identities. */
module Common {

  datatype Option<+T> = None | Some(value: T)

  /** The four kinds of team a card or a player may belong to. Red and Blue have the raw
      values 0 and 1, so the opposing team of a player is found by flipping the low bit. */
  datatype Team = Red | Blue | Neutral | Assassin

  function RawValue(t: Team): (r: nat)
    ensures r < 4
  {
    match t
    case Red => 0
    case Blue => 1
    case Neutral => 2
    case Assassin => 3
  }

  function TeamOfRaw(r: nat): (t: Team)
    requires r < 4
    ensures RawValue(t) == r
  {
    if r == 0 then Red else if r == 1 then Blue else if r == 2 then Neutral else Assassin
  }

  /** `Team(rawValue: team.rawValue ^ 1)`: flips the low bit of the raw value. */
  function Opponent(t: Team): (o: Team)
    ensures RawValue(o) == (if RawValue(t) % 2 == 0 then RawValue(t) + 1 else RawValue(t) - 1)
  {
    TeamOfRaw(if RawValue(t) % 2 == 0 then RawValue(t) + 1 else RawValue(t) - 1)
  }

  lemma OpponentOfPlayingTeams()
    ensures Opponent(Red) == Blue && Opponent(Blue) == Red
    ensures forall t :: Opponent(Opponent(t)) == t
  {
    forall t ensures Opponent(Opponent(t)) == t {
      assert RawValue(Opponent(Opponent(t))) == RawValue(t);
      match t
      case Red =>
      case Blue =>
      case Neutral =>
      case Assassin =>
    }
  }

  datatype GameMode = RegularGame | MiniGame

  /** An opaque network identity of a nearby device. */
  datatype Peer = Peer(id: nat)
}
